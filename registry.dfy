/** The compliance-officer registry: its records, its state, the invariant that
    ties the two maps together, and every operation as a pure transition on the
    state. The mutable contract in module OfficerContract is proved against these. */
module Officers {

  /** Identities (addresses) are opaque strings; no format is checked. */
  type Principal = string

  /** A verification time as read from the clock: always positive. */
  type Timestamp = n: nat | n > 0 witness 1

  datatype Option<+T> = None | Some(value: T)

  /** One registered compliance officer. */
  datatype Officer = Officer(
    principal: Principal,
    name: string,
    certification: string,
    verified: bool,
    verificationDate: nat,
    expiryDate: int)

  /** The value stored under a principal in `officerPrincipals`. */
  datatype OfficerRef = OfficerRef(officerId: int)

  datatype Error = OwnerOnly | AlreadyVerified | InvalidOfficer

  /** The error string each error is reported with: an `err-` code that names
      exactly one error. */
  function ErrorCode(e: Error): (code: string)
    ensures |code| > 4 && code[..4] == "err-"
    ensures code == "err-owner-only" <==> e == OwnerOnly
    ensures code == "err-already-verified" <==> e == AlreadyVerified
    ensures code == "err-invalid-officer" <==> e == InvalidOfficer
  {
    match e
    case OwnerOnly => "err-owner-only"
    case AlreadyVerified => "err-already-verified"
    case InvalidOfficer => "err-invalid-officer"
  }

  /** `{ success: value }` or `{ error: code }`. */
  datatype Result<+T> = Success(value: T) | Failure(error: Error)

  /** The whole contract state. */
  datatype ContractState = ContractState(
    officers: map<int, Officer>,
    officerPrincipals: map<Principal, OfficerRef>,
    nextOfficerId: nat,
    contractOwner: Principal)

  /** The state after a mutating call, and what the call returned. */
  datatype Transition<+T> = Transition(next: ContractState, result: Result<T>)

  /** The state the contract starts in: no officers, ids start at 1. */
  function Init(owner: Principal): (s: ContractState)
    ensures Consistent(s) && s.contractOwner == owner
    ensures s.officers == map[] && s.officerPrincipals == map[] && s.nextOfficerId == 1
  {
    ContractState(map[], map[], 1, owner)
  }

  /** The registry invariant:
      - every principal entry names an existing officer whose principal is that principal;
      - every officer id lies in 1 .. nextOfficerId - 1;
      - every officer is reachable through its own principal;
      - a verified officer carries a positive verification date. */
  ghost predicate Consistent(s: ContractState)
  {
    && s.nextOfficerId >= 1
    && (forall p :: p in s.officerPrincipals ==>
          && s.officerPrincipals[p].officerId in s.officers
          && s.officers[s.officerPrincipals[p].officerId].principal == p)
    && (forall id :: id in s.officers ==> 1 <= id < s.nextOfficerId)
    && (forall id :: id in s.officers ==>
          && s.officers[id].principal in s.officerPrincipals
          && s.officerPrincipals[s.officers[id].principal].officerId == id)
    && (forall id :: id in s.officers && s.officers[id].verified ==>
          s.officers[id].verificationDate > 0)
  }

  /** registerOfficer: only the owner may call it, and it registers the caller
      itself, at most once. */
  function Register(s: ContractState, name: string, certification: string, expiryDate: int,
                    caller: Principal): (t: Transition<int>)
    ensures t.result.Success? <==> caller == s.contractOwner && caller !in s.officerPrincipals
    ensures caller != s.contractOwner ==> t.result == Failure(OwnerOnly)
    ensures caller == s.contractOwner && caller in s.officerPrincipals ==>
              t.result == Failure(AlreadyVerified)
    ensures t.result.Failure? ==> t.next == s
    ensures t.result.Success? ==>
              && t.result.value == s.nextOfficerId
              && t.next.officers ==
                   s.officers[s.nextOfficerId := Officer(caller, name, certification, false, 0, expiryDate)]
              && t.next.officerPrincipals == s.officerPrincipals[caller := OfficerRef(s.nextOfficerId)]
              && t.next.nextOfficerId == s.nextOfficerId + 1
              && t.next.contractOwner == s.contractOwner
    ensures Consistent(s) ==> Consistent(t.next)
    // the new id was never used, and every earlier record survives untouched
    ensures Consistent(s) && t.result.Success? ==> t.result.value !in s.officers
    ensures Consistent(s) ==>
              forall id :: id in s.officers ==> id in t.next.officers && t.next.officers[id] == s.officers[id]
  {
    if caller != s.contractOwner then
      Transition(s, Failure(OwnerOnly))
    else if caller in s.officerPrincipals then
      Transition(s, Failure(AlreadyVerified))
    else
      var officerId := s.nextOfficerId;
      var officerData := Officer(caller, name, certification, false, 0, expiryDate);
      Transition(
        s.(officers := s.officers[officerId := officerData],
           officerPrincipals := s.officerPrincipals[caller := OfficerRef(officerId)],
           nextOfficerId := s.nextOfficerId + 1),
        Success(officerId))
  }

  /** verifyOfficer: only the owner may call it, on an existing id; it marks the
      officer verified and stamps it with the current time. */
  function Verify(s: ContractState, officerId: int, caller: Principal, now: Timestamp): (t: Transition<bool>)
    ensures t.result.Success? <==> caller == s.contractOwner && officerId in s.officers
    ensures caller != s.contractOwner ==> t.result == Failure(OwnerOnly)
    ensures caller == s.contractOwner && officerId !in s.officers ==> t.result == Failure(InvalidOfficer)
    ensures t.result.Failure? ==> t.next == s
    ensures t.result.Success? ==>
              && t.result.value
              && t.next.officers.Keys == s.officers.Keys
              && t.next.officers[officerId] ==
                   s.officers[officerId].(verified := true, verificationDate := now)
              && (forall id :: id in s.officers && id != officerId ==>
                    t.next.officers[id] == s.officers[id])
              && t.next.officerPrincipals == s.officerPrincipals
              && t.next.nextOfficerId == s.nextOfficerId
              && t.next.contractOwner == s.contractOwner
    ensures Consistent(s) ==> Consistent(t.next)
  {
    if caller != s.contractOwner then
      Transition(s, Failure(OwnerOnly))
    else if officerId !in s.officers then
      Transition(s, Failure(InvalidOfficer))
    else
      var officer := s.officers[officerId].(verified := true, verificationDate := now);
      Transition(s.(officers := s.officers[officerId := officer]), Success(true))
  }

  /** Reassigning `contractOwner` directly, as the data-integrity test does to
      register a second officer. */
  function SetOwner(s: ContractState, owner: Principal): (s': ContractState)
    ensures s'.contractOwner == owner
    ensures s'.officers == s.officers && s'.officerPrincipals == s.officerPrincipals
    ensures s'.nextOfficerId == s.nextOfficerId
    ensures Consistent(s) ==> Consistent(s')
  {
    s.(contractOwner := owner)
  }

  /** isVerifiedOfficer: false for an unknown principal, else that officer's flag. */
  function IsVerifiedOfficer(s: ContractState, principal: Principal): (verified: bool)
    ensures principal !in s.officerPrincipals ==> !verified
    ensures Consistent(s) ==>
              (verified <==> exists id :: id in s.officers && s.officers[id].principal == principal
                                          && s.officers[id].verified)
  {
    if principal !in s.officerPrincipals then false
    else
      var id := s.officerPrincipals[principal].officerId;
      if id in s.officers then s.officers[id].verified else false
  }

  /** getOfficerInfo: the record under `officerId`, or null. */
  function GetOfficerInfo(s: ContractState, officerId: int): (r: Option<Officer>)
    ensures r.Some? <==> officerId in s.officers
    ensures r.Some? ==> r.value == s.officers[officerId]
    // looking the officer up again by its principal finds the same record
    ensures Consistent(s) && r.Some? ==> GetOfficerByPrincipal(s, r.value.principal) == r
  {
    if officerId in s.officers then Some(s.officers[officerId]) else None
  }

  /** getOfficerByPrincipal: the record registered by `principal`, or null. */
  function GetOfficerByPrincipal(s: ContractState, principal: Principal): (r: Option<Officer>)
    ensures principal !in s.officerPrincipals ==> r == None
    ensures r.Some? ==> r.value in s.officers.Values
    // under the invariant the second `|| null` fallback is never taken
    ensures Consistent(s) ==> (r.Some? <==> principal in s.officerPrincipals)
    ensures Consistent(s) ==>
              (r.Some? <==> exists id :: id in s.officers && s.officers[id].principal == principal)
    ensures Consistent(s) && r.Some? ==> r.value.principal == principal
  {
    if principal !in s.officerPrincipals then None
    else
      var id := s.officerPrincipals[principal].officerId;
      if id in s.officers then Some(s.officers[id]) else None
  }

  /** The three error codes are distinct, so callers can tell the errors apart. */
  lemma ErrorCodesDistinct(e1: Error, e2: Error)
    ensures ErrorCode(e1) == ErrorCode(e2) <==> e1 == e2
  {
  }
}
