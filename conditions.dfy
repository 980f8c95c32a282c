/**
 * Status conditions (metav1.Condition lists) and MergeStatusConditions.
 *
 * The per-condition upsert is apimachinery's meta.SetStatusCondition, written
 * out here: find the first entry of the same type; append the new condition
 * (stamped with "now" when its transition time is zero) when there is none;
 * otherwise move status and transition time only when the status changes, and
 * always overwrite reason, message and observed generation.
 */
module Conditions {

  /** A timestamp; 0 stands for Go's zero time (metav1.Time.IsZero). */
  type Time = int

  /** A reading of the clock (time.Now), which is never the zero time. */
  type Now = t: Time | t != 0 witness 1

  datatype Condition = Condition(
    condType: string,
    status: string,
    observedGeneration: int,
    lastTransitionTime: Time,
    reason: string,
    message: string)

  /** The set of condition types present in a list. */
  function Types(conds: seq<Condition>): set<string>
  {
    set c | c in conds :: c.condType
  }

  /** No two entries of the list share a type. */
  predicate Unique(conds: seq<Condition>)
  {
    forall i, j :: 0 <= i < j < |conds| ==> conds[i].condType != conds[j].condType
  }

  /**
   * Position of the first condition of type `t`, or -1 when there is none
   * (meta.FindStatusCondition).
   */
  function IndexOfType(conds: seq<Condition>, t: string): (i: int)
    ensures -1 <= i < |conds|
    ensures 0 <= i ==> conds[i].condType == t
    ensures 0 <= i ==> forall j :: 0 <= j < i ==> conds[j].condType != t
    ensures i < 0 ==> forall j :: 0 <= j < |conds| ==> conds[j].condType != t
    ensures (0 <= i) == (t in Types(conds))
  {
    if |conds| == 0 then -1
    else if conds[0].condType == t then 0
    else
      var k := IndexOfType(conds[1..], t);
      assert Types(conds) == {conds[0].condType} + Types(conds[1..]) by {
        assert forall c :: c in conds <==> c == conds[0] || c in conds[1..];
      }
      if k < 0 then -1 else k + 1
  }

  /** `entry` carries the status, reason, message and generation that `c` sets. */
  predicate Reflects(entry: Condition, c: Condition)
  {
    && entry.status == c.status
    && entry.reason == c.reason
    && entry.message == c.message
    && entry.observedGeneration == c.observedGeneration
  }

  /** Every entry carries a transition time, as the API server requires of stored conditions. */
  predicate Stamped(conds: seq<Condition>)
  {
    forall j :: 0 <= j < |conds| ==> conds[j].lastTransitionTime != 0
  }

  /** Setting `c` onto `conds` would change nothing. */
  predicate Settled(conds: seq<Condition>, c: Condition)
  {
    var i := IndexOfType(conds, c.condType);
    0 <= i && Reflects(conds[i], c)
  }

  /** The transition time a status change takes: the new condition's, or `now` when zero. */
  function TransitionTime(c: Condition, now: Now): Time
  {
    if c.lastTransitionTime != 0 then c.lastTransitionTime else now
  }

  /** The existing entry after `c`, of the same type, has been set onto it. */
  function Overwritten(existing: Condition, c: Condition, now: Now): Condition
  {
    var moved :=
      if existing.status == c.status then existing
      else existing.(status := c.status, lastTransitionTime := TransitionTime(c, now));
    moved.(reason := c.reason, message := c.message, observedGeneration := c.observedGeneration)
  }

  /** Specification of meta.SetStatusCondition: the list after `c` is set onto it at time `now`. */
  function Upsert(conds: seq<Condition>, c: Condition, now: Now): (r: seq<Condition>)
    // an unseen type is appended, a seen one is updated where it stands
    ensures |r| == |conds| + (if c.condType in Types(conds) then 0 else 1)
    ensures Types(r) == Types(conds) + {c.condType}
    ensures forall j :: 0 <= j < |conds| ==> r[j].condType == conds[j].condType
    ensures forall j :: 0 <= j < |conds| && j != IndexOfType(conds, c.condType) ==> r[j] == conds[j]
    ensures c.condType !in Types(conds) ==> r[|conds|] == c.(lastTransitionTime := TransitionTime(c, now))
    // the first entry of c's type carries c's fields afterwards
    ensures Settled(r, c)
    ensures IndexOfType(r, c.condType) == (if c.condType in Types(conds) then IndexOfType(conds, c.condType) else |conds|)
    // the transition time moves only with the status
    ensures c.condType in Types(conds) ==>
      var i := IndexOfType(conds, c.condType);
      r[i].lastTransitionTime ==
        if conds[i].status == c.status then conds[i].lastTransitionTime else TransitionTime(c, now)
    ensures Settled(conds, c) ==> r == conds
  {
    var i := IndexOfType(conds, c.condType);
    if i < 0 then
      var r := conds + [c.(lastTransitionTime := TransitionTime(c, now))];
      assert Types(r) == Types(conds) + {c.condType} by {
        assert forall x :: x in r <==> x in conds || x == r[|conds|];
      }
      r
    else
      var r := conds[i := Overwritten(conds[i], c, now)];
      assert Types(r) == Types(conds) by {
        forall t | t in Types(conds) ensures t in Types(r) {
          var x :| x in conds && x.condType == t;
          var j :| 0 <= j < |conds| && conds[j] == x;
          assert r[j].condType == t;
        }
      }
      r
  }

  /** Setting a condition never gives two entries the same type. */
  lemma UpsertKeepsUnique(conds: seq<Condition>, c: Condition, now: Now)
    requires Unique(conds)
    ensures Unique(Upsert(conds, c, now))
  {
  }

  /** A clock reading is never zero, so setting a condition onto a stamped list leaves it stamped. */
  lemma UpsertKeepsStamped(conds: seq<Condition>, c: Condition, now: Now)
    requires Stamped(conds)
    ensures Stamped(Upsert(conds, c, now))
  {
  }

  /**
   * meta.SetStatusCondition on a list: a first-match search, then an update of
   * the entry found, field by field, or an append.
   */
  method SetStatusCondition(conds: seq<Condition>, c: Condition, now: Now) returns (r: seq<Condition>)
    ensures r == Upsert(conds, c, now)
  {
    var i := 0;
    while i < |conds|
      invariant 0 <= i <= |conds|
      invariant forall j :: 0 <= j < i ==> conds[j].condType != c.condType
    {
      if conds[i].condType == c.condType {
        var existing := conds[i];
        if existing.status != c.status {
          existing := existing.(status := c.status);
          if c.lastTransitionTime != 0 {
            existing := existing.(lastTransitionTime := c.lastTransitionTime);
          } else {
            existing := existing.(lastTransitionTime := now);
          }
        }
        existing := existing.(reason := c.reason, message := c.message, observedGeneration := c.observedGeneration);
        r := conds[i := existing];
        return;
      }
      i := i + 1;
    }
    var added := c;
    if added.lastTransitionTime == 0 {
      added := added.(lastTransitionTime := now);
    }
    r := conds + [added];
  }

  /**
   * The list after each of `news` has been set onto `conds` in order; the
   * k-th upsert reads the clock as `clock(k)`.
   */
  function Merge(conds: seq<Condition>, news: seq<Condition>, clock: nat -> Now): (r: seq<Condition>)
    // no new conditions leave the list as it is; each new one adds at most one entry
    ensures |news| == 0 ==> r == conds
    ensures |conds| <= |r| <= |conds| + |news|
    decreases |news|
  {
    if |news| == 0 then conds
    else Upsert(Merge(conds, news[..|news| - 1], clock), news[|news| - 1], clock(|news| - 1))
  }

  /**
   * MergeStatusConditions: a fresh list that starts as a copy of `conditions`,
   * onto which every new condition is set in order.
   */
  method MergeStatusConditions(conditions: seq<Condition>, newConditions: seq<Condition>, clock: nat -> Now)
    returns (merged: seq<Condition>)
    ensures merged == Merge(conditions, newConditions, clock)
    ensures |newConditions| == 0 ==> merged == conditions
  {
    merged := [];
    merged := merged + conditions;
    for k := 0 to |newConditions|
      invariant merged == Merge(conditions, newConditions[..k], clock)
    {
      assert newConditions[..k + 1][..k] == newConditions[..k];
      merged := SetStatusCondition(merged, newConditions[k], clock(k));
    }
    assert newConditions[..|newConditions|] == newConditions;
  }

  lemma TypesOfInit(s: seq<Condition>)
    requires |s| > 0
    ensures Types(s) == Types(s[..|s| - 1]) + {s[|s| - 1].condType}
  {
    assert s == s[..|s| - 1] + [s[|s| - 1]];
    assert forall x :: x in s <==> x in s[..|s| - 1] || x == s[|s| - 1];
  }

  /** Merging adds exactly the types the new conditions name. */
  lemma {:induction false} MergeTypes(conds: seq<Condition>, news: seq<Condition>, clock: nat -> Now)
    ensures Types(Merge(conds, news, clock)) == Types(conds) + Types(news)
    decreases |news|
  {
    if |news| == 0 {
      assert Types(news) == {};
    } else {
      MergeTypes(conds, news[..|news| - 1], clock);
      TypesOfInit(news);
    }
  }

  lemma CountUnseen(seen: set<string>, named: set<string>, t: string)
    ensures |(named + {t}) - seen| == |named - seen| + (if t in seen + named then 0 else 1)
  {
    if t !in seen + named {
      assert (named + {t}) - seen == (named - seen) + {t};
    } else {
      assert (named + {t}) - seen == named - seen;
    }
  }

  /** Merging adds one entry per distinct new type that was absent, and no other. */
  lemma {:induction false} MergeLength(conds: seq<Condition>, news: seq<Condition>, clock: nat -> Now)
    ensures |Merge(conds, news, clock)| == |conds| + |Types(news) - Types(conds)|
    decreases |news|
  {
    if |news| == 0 {
      assert Types(news) - Types(conds) == {};
    } else {
      var init, x := news[..|news| - 1], news[|news| - 1];
      MergeLength(conds, init, clock);
      MergeTypes(conds, init, clock);
      TypesOfInit(news);
      CountUnseen(Types(conds), Types(init), x.condType);
    }
  }

  /**
   * Existing entries stay where they were and keep their type; an entry is
   * unchanged unless it is the first of a type that some new condition names.
   */
  lemma {:induction false} MergeKeepsExisting(conds: seq<Condition>, news: seq<Condition>, clock: nat -> Now)
    ensures |Merge(conds, news, clock)| >= |conds|
    ensures forall i :: 0 <= i < |conds| ==> Merge(conds, news, clock)[i].condType == conds[i].condType
    ensures forall i :: 0 <= i < |conds| && conds[i].condType !in Types(news) ==> Merge(conds, news, clock)[i] == conds[i]
    ensures forall i :: 0 <= i < |conds| && IndexOfType(conds, conds[i].condType) != i ==> Merge(conds, news, clock)[i] == conds[i]
    decreases |news|
  {
    if |news| > 0 {
      var init, x := news[..|news| - 1], news[|news| - 1];
      MergeKeepsExisting(conds, init, clock);
      TypesOfInit(news);
      var m := Merge(conds, init, clock);
      var r := Merge(conds, news, clock);
      assert r == Upsert(m, x, clock(|news| - 1));
      var p := IndexOfType(m, x.condType);
      forall i | 0 <= i < |conds| && IndexOfType(conds, conds[i].condType) != i
        ensures r[i] == conds[i]
      {
        var j := IndexOfType(conds, conds[i].condType);
        assert 0 <= j < i && m[j].condType == conds[i].condType;
        if x.condType == conds[i].condType {
          assert p <= j;
        }
      }
    }
  }

  /** Entries past the old end carry types that only the new conditions named. */
  lemma {:induction false} MergeAppendsUnseen(conds: seq<Condition>, news: seq<Condition>, clock: nat -> Now)
    ensures forall i :: |conds| <= i < |Merge(conds, news, clock)| ==>
      Merge(conds, news, clock)[i].condType in Types(news) - Types(conds)
    decreases |news|
  {
    if |news| > 0 {
      var init, x := news[..|news| - 1], news[|news| - 1];
      MergeAppendsUnseen(conds, init, clock);
      MergeTypes(conds, init, clock);
      TypesOfInit(news);
      var m := Merge(conds, init, clock);
      var r := Merge(conds, news, clock);
      assert r == Upsert(m, x, clock(|news| - 1));
      forall i | |conds| <= i < |r| ensures r[i].condType in Types(news) - Types(conds) {
        if i < |m| {
          assert r[i].condType == m[i].condType;
        } else {
          assert x.condType !in Types(m);
        }
      }
    }
  }

  /**
   * The first entry of every type named by a new condition carries the fields
   * of the LAST new condition of that type.
   */
  lemma {:induction false} MergeReflectsLast(conds: seq<Condition>, news: seq<Condition>, clock: nat -> Now, k: nat)
    requires k < |news|
    requires forall j :: k < j < |news| ==> news[j].condType != news[k].condType
    ensures Settled(Merge(conds, news, clock), news[k])
    decreases |news|
  {
    var init, x := news[..|news| - 1], news[|news| - 1];
    var m := Merge(conds, init, clock);
    if k < |news| - 1 {
      MergeReflectsLast(conds, init, clock, k);
      var t := news[k].condType;
      var r := Upsert(m, x, clock(|news| - 1));
      var i := IndexOfType(m, t);
      assert IndexOfType(r, t) == i by {
        assert r[i].condType == t;
      }
    }
  }

  /** Setting conditions that are all already settled changes nothing. */
  lemma {:induction false} MergeSettled(m: seq<Condition>, news: seq<Condition>, clock: nat -> Now)
    requires forall k :: 0 <= k < |news| ==> Settled(m, news[k])
    ensures Merge(m, news, clock) == m
    decreases |news|
  {
    if |news| > 0 {
      MergeSettled(m, news[..|news| - 1], clock);
    }
  }

  /** When the new types are distinct, merging a second time changes nothing, whatever the clock. */
  lemma MergeIdempotent(conds: seq<Condition>, news: seq<Condition>, clock1: nat -> Now, clock2: nat -> Now)
    requires Unique(news)
    ensures Merge(Merge(conds, news, clock1), news, clock2) == Merge(conds, news, clock1)
  {
    var once := Merge(conds, news, clock1);
    forall k | 0 <= k < |news| ensures Settled(once, news[k]) {
      MergeReflectsLast(conds, news, clock1, k);
    }
    MergeSettled(once, news, clock2);
  }

  /** Merging keeps a list free of duplicate types. */
  lemma {:induction false} MergeKeepsUnique(conds: seq<Condition>, news: seq<Condition>, clock: nat -> Now)
    requires Unique(conds)
    ensures Unique(Merge(conds, news, clock))
    decreases |news|
  {
    if |news| > 0 {
      MergeKeepsUnique(conds, news[..|news| - 1], clock);
      UpsertKeepsUnique(Merge(conds, news[..|news| - 1], clock), news[|news| - 1], clock(|news| - 1));
    }
  }

  /** Merging into a list whose entries all carry a transition time leaves every entry with one. */
  lemma {:induction false} MergeKeepsStamped(conds: seq<Condition>, news: seq<Condition>, clock: nat -> Now)
    requires Stamped(conds)
    ensures Stamped(Merge(conds, news, clock))
    decreases |news|
  {
    if |news| > 0 {
      MergeKeepsStamped(conds, news[..|news| - 1], clock);
      UpsertKeepsStamped(Merge(conds, news[..|news| - 1], clock), news[|news| - 1], clock(|news| - 1));
    }
  }
}
