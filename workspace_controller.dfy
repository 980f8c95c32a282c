/**
 * The workspace controller: which namespace events it reacts to, and one
 * reconcile pass that keeps the workspace's ManagedClusterSet applied on the
 * hub or, once the namespace is being deleted, deletes that set.
 *
 * The namespaces the kube client reads and the hub's ManagedClusterSets are
 * maps by name; a NotFound is a missing key. Every other error a call can
 * return is an input (`Faults`).
 */
module WorkspaceController {
  import opened Outcomes

  const ProviderLabel: string := "toolchain.dev.openshift.com/provider"
  const ProviderValue: string := "codeready-toolchain"
  /** Seconds to wait before checking again that a deleted ManagedClusterSet is gone. */
  const DeletionRequeueSeconds: nat := 1

  type Time = int

  datatype ObjectMeta = ObjectMeta(name: string, namespace: string, labels: map<string, string>)

  datatype Namespace = Namespace(meta: ObjectMeta, deletionTimestamp: Option<Time>)

  datatype ManagedClusterSet = ManagedClusterSet(name: string)

  datatype Event =
    | CreateEvent(obj: ObjectMeta)
    | UpdateEvent(objectOld: ObjectMeta, objectNew: ObjectMeta)
    | DeleteEvent(obj: ObjectMeta)
    | GenericEvent(obj: ObjectMeta)

  /** What a reconcile pass returns: done, requeue after some seconds, or an error. */
  datatype Outcome = Done | RequeueAfter(seconds: nat) | Failed(error: string)

  /** The errors, other than NotFound, that the calls of one pass fail with, if they do. */
  datatype Faults = Faults(
    getNamespace: Option<string>,
    getHubCluster: Option<string>,
    getClusterSet: Option<string>,
    deleteClusterSet: Option<string>,
    applyClusterSet: Option<string>)

  const NoFaults: Faults := Faults(None, None, None, None, None)

  /** The label lookup of the predicate: a missing label reads as "". */
  function Label(labels: map<string, string>, key: string): string
  {
    if key in labels then labels[key] else ""
  }

  /** The filter of workspaceNamespacesPredicate. */
  function IsWorkspaceNamespace(obj: ObjectMeta): (r: bool)
    ensures r <==> ProviderLabel in obj.labels && obj.labels[ProviderLabel] == ProviderValue
  {
    Label(obj.labels, ProviderLabel) == ProviderValue
  }

  /** workspaceNamespacesPredicate applied to an event: updates are judged by the new object only. */
  function Accepts(e: Event): (r: bool)
    ensures e.UpdateEvent? ==> (r <==> ProviderLabel in e.objectNew.labels && e.objectNew.labels[ProviderLabel] == ProviderValue)
    ensures !e.UpdateEvent? ==> (r <==> ProviderLabel in e.obj.labels && e.obj.labels[ProviderLabel] == ProviderValue)
  {
    match e
    case CreateEvent(obj) => IsWorkspaceNamespace(obj)
    case UpdateEvent(_, objNew) => IsWorkspaceNamespace(objNew)
    case DeleteEvent(obj) => IsWorkspaceNamespace(obj)
    case GenericEvent(obj) => IsWorkspaceNamespace(obj)
  }

  /** The outcome of a pass and the hub's ManagedClusterSets after it. */
  datatype Step = Step(outcome: Outcome, clusterSets: map<string, ManagedClusterSet>)

  /**
   * processWorkspaceDeletion: a present cluster set is deleted and the pass
   * asks to be requeued after a second; an absent one means done; any other
   * error is returned.
   */
  function DeletionStep(sets: map<string, ManagedClusterSet>, mcsName: string, faults: Faults): (s: Step)
    // only the workspace's own cluster set can go, and nothing is created
    ensures s.clusterSets == sets || s.clusterSets == sets - {mcsName}
    ensures s.outcome.Failed? ==> s.clusterSets == sets
    ensures s.outcome == RequeueAfter(DeletionRequeueSeconds) <==>
      faults.getClusterSet.None? && mcsName in sets && faults.deleteClusterSet.None?
    ensures s.outcome.RequeueAfter? ==> s.clusterSets == sets - {mcsName}
    ensures s.outcome == Done <==> faults.getClusterSet.None? && mcsName !in sets
    ensures s.outcome.Failed? <==>
      faults.getClusterSet.Some? || (mcsName in sets && faults.deleteClusterSet.Some?)
    ensures !s.outcome.Failed? ==> mcsName !in s.clusterSets
  {
    if faults.getClusterSet.Some? then Step(Failed(faults.getClusterSet.value), sets)
    else if mcsName !in sets then Step(Done, sets)
    else if faults.deleteClusterSet.Some? then Step(Failed(faults.deleteClusterSet.value), sets)
    else Step(RequeueAfter(DeletionRequeueSeconds), sets - {mcsName})
  }

  /** One reconcile pass for the namespace `name`. */
  function ReconcileStep(namespaces: map<string, Namespace>, sets: map<string, ManagedClusterSet>,
                         clusterSetNameFor: string -> string, name: string, faults: Faults): (s: Step)
    // an error reading the namespace is returned
    ensures faults.getNamespace.Some? ==> s == Step(Failed(faults.getNamespace.value), sets)
    // a namespace that is gone ends the pass quietly
    ensures faults.getNamespace.None? && name !in namespaces ==> s == Step(Done, sets)
    // an error finding the hub is returned
    ensures faults.getNamespace.None? && name in namespaces && faults.getHubCluster.Some? ==>
      s == Step(Failed(faults.getHubCluster.value), sets)
    // a namespace being deleted takes the deletion path, for its own cluster set
    ensures (faults.getNamespace.None? && name in namespaces && faults.getHubCluster.None? &&
             namespaces[name].deletionTimestamp.Some?) ==>
      s == DeletionStep(sets, clusterSetNameFor(namespaces[name].meta.name), faults)
    // a live namespace has its cluster set applied, and only that set changes
    ensures (faults.getNamespace.None? && name in namespaces && faults.getHubCluster.None? &&
             namespaces[name].deletionTimestamp.None?) ==>
      s == if faults.applyClusterSet.Some? then Step(Failed(faults.applyClusterSet.value), sets)
           else Step(Done, sets[clusterSetNameFor(name) := ManagedClusterSet(clusterSetNameFor(name))])
    // errors change nothing
    ensures s.outcome.Failed? ==> s.clusterSets == sets
    // a namespace being deleted never gets its cluster set (re)applied
    ensures name in namespaces && namespaces[name].deletionTimestamp.Some? ==> s.clusterSets.Keys <= sets.Keys
    // a live namespace has its cluster set present after a successful pass
    ensures name in namespaces && namespaces[name].deletionTimestamp.None? && !s.outcome.Failed? ==>
      clusterSetNameFor(name) in s.clusterSets && s.outcome == Done
    // only requeues come from the deletion path
    ensures s.outcome.RequeueAfter? ==>
      name in namespaces && namespaces[name].deletionTimestamp.Some? && s.outcome.seconds == DeletionRequeueSeconds
  {
    if faults.getNamespace.Some? then Step(Failed(faults.getNamespace.value), sets)
    else if name !in namespaces then Step(Done, sets)
    else if faults.getHubCluster.Some? then Step(Failed(faults.getHubCluster.value), sets)
    else if namespaces[name].deletionTimestamp.Some? then
      DeletionStep(sets, clusterSetNameFor(namespaces[name].meta.name), faults)
    else if faults.applyClusterSet.Some? then Step(Failed(faults.applyClusterSet.value), sets)
    else
      var mcsName := clusterSetNameFor(name);
      Step(Done, sets[mcsName := ManagedClusterSet(mcsName)])
  }

  class WorkspaceReconciler {
    /** The namespaces the kube client reads, by name. */
    var namespaces: map<string, Namespace>
    /** The hub's ManagedClusterSets, by name. */
    var clusterSets: map<string, ManagedClusterSet>
    /** ManagedClusterSetNameForWorkspace, whose definition is not part of this model. */
    const clusterSetNameFor: string -> string

    constructor (namespaces: map<string, Namespace>, clusterSets: map<string, ManagedClusterSet>,
                 clusterSetNameFor: string -> string)
      ensures this.namespaces == namespaces && this.clusterSets == clusterSets
      ensures this.clusterSetNameFor == clusterSetNameFor
    {
      this.namespaces := namespaces;
      this.clusterSets := clusterSets;
      this.clusterSetNameFor := clusterSetNameFor;
    }

    /** Reconcile: read the namespace, find the hub, then delete or sync the cluster set. */
    method Reconcile(name: string, faults: Faults) returns (out: Outcome)
      modifies this
      ensures namespaces == old(namespaces)
      ensures Step(out, clusterSets) ==
        ReconcileStep(old(namespaces), old(clusterSets), clusterSetNameFor, name, faults)
    {
      if faults.getNamespace.Some? {
        return Failed(faults.getNamespace.value);
      }
      if name !in namespaces {
        return Done;
      }
      var namespace := namespaces[name];
      if faults.getHubCluster.Some? {
        return Failed(faults.getHubCluster.value);
      }
      if namespace.deletionTimestamp.Some? {
        var result := ProcessWorkspaceDeletion(namespace, faults);
        if result.Failed? || result.RequeueAfter? {
          return result;
        }
        return Done;
      }
      var err := SyncManagedClusterSet(name, faults);
      if err.Some? {
        return Failed(err.value);
      }
      return Done;
    }

    /** processWorkspaceDeletion: one Get, then at most one Delete, of the workspace's cluster set. */
    method ProcessWorkspaceDeletion(namespace: Namespace, faults: Faults) returns (out: Outcome)
      modifies this
      ensures namespaces == old(namespaces)
      ensures Step(out, clusterSets) ==
        DeletionStep(old(clusterSets), clusterSetNameFor(namespace.meta.name), faults)
    {
      var mcsName := clusterSetNameFor(namespace.meta.name);
      if faults.getClusterSet.Some? {
        return Failed(faults.getClusterSet.value);
      }
      if mcsName in clusterSets {
        if faults.deleteClusterSet.Some? {
          return Failed(faults.deleteClusterSet.value);
        }
        clusterSets := clusterSets - {mcsName};
        return RequeueAfter(DeletionRequeueSeconds);
      }
      return Done;
    }

    /** syncManagedClusterSet: apply the workspace's ManagedClusterSet on the hub. */
    method SyncManagedClusterSet(name: string, faults: Faults) returns (err: Option<string>)
      modifies this
      ensures namespaces == old(namespaces)
      ensures err == faults.applyClusterSet
      ensures clusterSets == if err.None? then
        old(clusterSets)[clusterSetNameFor(name) := ManagedClusterSet(clusterSetNameFor(name))]
      else old(clusterSets)
    {
      err := faults.applyClusterSet;
      if err.None? {
        var mcsName := clusterSetNameFor(name);
        clusterSets := clusterSets[mcsName := ManagedClusterSet(mcsName)];
      }
    }
  }

  /**
   * Deletion converges: once a fault-free pass has deleted the cluster set and
   * asked to be requeued, the next fault-free pass finds it gone and is done.
   */
  lemma DeletionConverges(sets: map<string, ManagedClusterSet>, mcsName: string)
    ensures var first := DeletionStep(sets, mcsName, NoFaults);
      var second := DeletionStep(first.clusterSets, mcsName, NoFaults);
      second == Step(Done, first.clusterSets) && mcsName !in second.clusterSets
  {
  }

  /**
   * Reconciling a live workspace namespace twice without faults leaves the
   * hub as reconciling it once does.
   */
  lemma ReconcileIdempotent(namespaces: map<string, Namespace>, sets: map<string, ManagedClusterSet>,
                            clusterSetNameFor: string -> string, name: string)
    requires name in namespaces && namespaces[name].deletionTimestamp.None?
    ensures var once := ReconcileStep(namespaces, sets, clusterSetNameFor, name, NoFaults);
      ReconcileStep(namespaces, once.clusterSets, clusterSetNameFor, name, NoFaults) == once
  {
    var mcsName := clusterSetNameFor(name);
    var once := sets[mcsName := ManagedClusterSet(mcsName)];
    assert once[mcsName := ManagedClusterSet(mcsName)] == once;
  }
}
