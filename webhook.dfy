/**
 * The admission webhook's decision for RegisteredCluster and ClusterRegistrar
 * requests. Decoding the request body is an input (it succeeded with the
 * object's metadata or failed with a message), and so is the outcome of
 * listing the existing ClusterRegistrars.
 */
module Webhook {
  import opened Outcomes

  /** Requests whose API group does not end with this are not validated. */
  const GroupSuffix: string := "singapore.open-cluster-management.io"
  const RegisteredClusters: string := "registeredclusters"
  const ClusterRegistrars: string := "clusterregistrars"
  /** The longest RegisteredCluster name, in bytes, that may be created. */
  const MaxNameLength: nat := 50

  const StatusBadRequest: int := 400
  const StatusForbidden: int := 403
  const StatusFailure: string := "Failure"
  const NameTooLongMessage: string := "RegisteredCluster name is too long (max 50 characters)"
  const RegistrarExistsMessage: string := "a clusterregistrar custom resource already exists"

  datatype Operation = Create | Update | Delete | Connect

  /** The metadata of a decoded object; the name is kept as bytes, since its length is counted in bytes. */
  datatype ObjectMeta = ObjectMeta(name: seq<bv8>)

  datatype AdmissionRequest = AdmissionRequest(
    group: string,
    resource: string,
    operation: Operation,
    /** the outcome of decoding the request's raw object */
    decoded: Result<ObjectMeta, string>)

  /** How many ClusterRegistrars the list call found, or why it failed. */
  type RegistrarListing = Result<nat, string>

  datatype StatusReason = BadRequest | Forbidden | InternalError

  datatype Status = Status(status: string, code: int, reason: StatusReason, message: string)

  datatype AdmissionResponse = AdmissionResponse(allowed: bool, result: Option<Status>)

  function HasSuffix(s: string, suffix: string): bool
  {
    |suffix| <= |s| && s[|s| - |suffix|..] == suffix
  }

  const Allow: AdmissionResponse := AdmissionResponse(true, None)

  function Deny(code: int, reason: StatusReason, message: string): AdmissionResponse
  {
    AdmissionResponse(false, Some(Status(StatusFailure, code, reason, message)))
  }

  /** ValidateRegisteredCluster: a body that does not decode is refused; a created name may not exceed 50 bytes. */
  function ValidateRegisteredCluster(req: AdmissionRequest): (r: AdmissionResponse)
    ensures r.allowed <==>
      req.decoded.Success? && !(req.operation == Create && |req.decoded.value.name| > MaxNameLength)
    ensures r.allowed ==> r == Allow
    ensures req.decoded.Failure? ==> r == Deny(StatusBadRequest, BadRequest, req.decoded.error)
    ensures req.decoded.Success? && req.operation == Create && |req.decoded.value.name| > MaxNameLength ==>
      r == Deny(StatusForbidden, Forbidden, NameTooLongMessage)
  {
    match req.decoded
    case Failure(e) => Deny(StatusBadRequest, BadRequest, e)
    case Success(meta) =>
      match req.operation
      case Create =>
        if |meta.name| > MaxNameLength then Deny(StatusForbidden, Forbidden, NameTooLongMessage)
        else Allow
      case _ => Allow
  }

  /**
   * ValidateClusterRegistrar: at most one ClusterRegistrar may exist, so any
   * request is refused while one exists, whatever its operation.
   */
  function ValidateClusterRegistrar(req: AdmissionRequest, registrars: RegistrarListing): (r: AdmissionResponse)
    ensures r.allowed <==> req.decoded.Success? && registrars == Success(0)
    ensures r.allowed ==> r == Allow
    ensures req.decoded.Failure? ==> r == Deny(StatusBadRequest, BadRequest, req.decoded.error)
    ensures req.decoded.Success? && registrars.Failure? ==>
      r == Deny(StatusBadRequest, InternalError, registrars.error)
    ensures req.decoded.Success? && registrars.Success? && registrars.value > 0 ==>
      r == Deny(StatusBadRequest, Forbidden, RegistrarExistsMessage)
  {
    match req.decoded
    case Failure(e) => Deny(StatusBadRequest, BadRequest, e)
    case Success(_) =>
      match registrars
      case Failure(e) => Deny(StatusBadRequest, InternalError, e)
      case Success(count) =>
        if count > 0 then Deny(StatusBadRequest, Forbidden, RegistrarExistsMessage) else Allow
  }

  /** Whether a request is admitted, stated rule by rule. */
  predicate Admissible(req: AdmissionRequest, registrars: RegistrarListing)
  {
    || !HasSuffix(req.group, GroupSuffix)
    || (req.resource != RegisteredClusters && req.resource != ClusterRegistrars)
    || (req.resource == RegisteredClusters && req.decoded.Success?
        && (req.operation != Create || |req.decoded.value.name| <= MaxNameLength))
    || (req.resource == ClusterRegistrars && req.decoded.Success? && registrars == Success(0))
  }

  /**
   * Validate: requests outside the group, and resources other than the two
   * validated ones, are allowed; the others go to their validator.
   */
  function Validate(req: AdmissionRequest, registrars: RegistrarListing): (r: AdmissionResponse)
    ensures r.allowed == Admissible(req, registrars)
    ensures r.allowed <==> r.result.None?
    ensures !HasSuffix(req.group, GroupSuffix) ==> r == Allow
    // in the group, the two validated resources get their validator's response
    ensures HasSuffix(req.group, GroupSuffix) && req.resource == RegisteredClusters ==>
      r == ValidateRegisteredCluster(req)
    ensures HasSuffix(req.group, GroupSuffix) && req.resource == ClusterRegistrars ==>
      r == ValidateClusterRegistrar(req, registrars)
    ensures req.resource != RegisteredClusters && req.resource != ClusterRegistrars ==> r == Allow
    ensures !r.allowed ==>
      r.result.value.status == StatusFailure && r.result.value.code in {StatusBadRequest, StatusForbidden}
    ensures !r.allowed && r.result.value.code == StatusForbidden ==>
      req.resource == RegisteredClusters && req.operation == Create
  {
    if !HasSuffix(req.group, GroupSuffix) then Allow
    else if req.resource == RegisteredClusters then ValidateRegisteredCluster(req)
    else if req.resource == ClusterRegistrars then ValidateClusterRegistrar(req, registrars)
    else Allow
  }
}
