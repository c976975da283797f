/** Sequences of calls on the registry and what holds across any number of them:
    the invariant, the permanence of registrations, and the consequence of a
    fixed owner (at most one officer). */
module OfficerHistory {
  import opened Officers

  /** One call on the contract. */
  datatype Call =
    | RegisterCall(name: string, certification: string, expiryDate: int, caller: Principal)
    | VerifyCall(officerId: int, caller: Principal, now: Timestamp)
    | SetOwnerCall(owner: Principal)

  /** The state after one call; what the call returned is dropped. */
  function Step(s: ContractState, c: Call): (s': ContractState)
  {
    match c
    case RegisterCall(name, certification, expiryDate, caller) =>
      Register(s, name, certification, expiryDate, caller).next
    case VerifyCall(officerId, caller, now) => Verify(s, officerId, caller, now).next
    case SetOwnerCall(owner) => SetOwner(s, owner)
  }

  /** The state after performing `calls` in order. */
  function Run(s: ContractState, calls: seq<Call>): (s': ContractState)
    decreases |calls|
  {
    if calls == [] then s else Run(Step(s, calls[0]), calls[1..])
  }

  /** What registration fixes for good: the principal, name, certification and
      expiry; and verification, once granted, is never withdrawn. */
  ghost predicate SameRegistration(before: Officer, after: Officer)
  {
    && after.principal == before.principal
    && after.name == before.name
    && after.certification == before.certification
    && after.expiryDate == before.expiryDate
    && (before.verified ==> after.verified)
  }

  /** `after` keeps everything `before` registered: no id or principal is
      dropped or rebound, no record's registration data changes, and the
      counter never goes back (so no id is handed out twice). */
  ghost predicate Keeps(before: ContractState, after: ContractState)
  {
    && before.nextOfficerId <= after.nextOfficerId
    && (forall id :: id in before.officers ==>
          id in after.officers && SameRegistration(before.officers[id], after.officers[id]))
    && (forall p :: p in before.officerPrincipals ==>
          p in after.officerPrincipals && after.officerPrincipals[p] == before.officerPrincipals[p])
  }

  lemma KeepsTransitive(a: ContractState, b: ContractState, c: ContractState)
    requires Keeps(a, b) && Keeps(b, c)
    ensures Keeps(a, c)
  {
  }

  lemma StepKeeps(s: ContractState, c: Call)
    requires Consistent(s)
    ensures Consistent(Step(s, c)) && Keeps(s, Step(s, c))
  {
  }

  /** Any sequence of calls preserves the registry invariant. */
  lemma {:induction false} RunPreservesConsistent(s: ContractState, calls: seq<Call>)
    requires Consistent(s)
    ensures Consistent(Run(s, calls))
    decreases |calls|
  {
    if calls != [] {
      StepKeeps(s, calls[0]);
      RunPreservesConsistent(Step(s, calls[0]), calls[1..]);
    }
  }

  /** Registrations are permanent: across any sequence of calls ids and
      principals stay bound to each other, records keep their registration
      data, verified officers stay verified, and the counter only grows. */
  lemma {:induction false} RunKeeps(s: ContractState, calls: seq<Call>)
    requires Consistent(s)
    ensures Keeps(s, Run(s, calls))
    decreases |calls|
  {
    if calls != [] {
      var s1 := Step(s, calls[0]);
      StepKeeps(s, calls[0]);
      RunKeeps(s1, calls[1..]);
      KeepsTransitive(s, s1, Run(s1, calls[1..]));
    }
  }

  /** Every officer was registered by the current owner. */
  ghost predicate OwnedBy(s: ContractState, owner: Principal)
  {
    && s.contractOwner == owner
    && forall id :: id in s.officers ==> s.officers[id].principal == owner
  }

  ghost predicate NoOwnerChange(calls: seq<Call>)
  {
    forall i :: 0 <= i < |calls| ==> !calls[i].SetOwnerCall?
  }

  lemma {:induction false} RunKeepsOwnedBy(s: ContractState, owner: Principal, calls: seq<Call>)
    requires Consistent(s) && OwnedBy(s, owner) && NoOwnerChange(calls)
    ensures OwnedBy(Run(s, calls), owner)
    decreases |calls|
  {
    if calls != [] {
      assert !calls[0].SetOwnerCall?;
      StepKeeps(s, calls[0]);
      assert NoOwnerChange(calls[1..]) by {
        forall i | 0 <= i < |calls[1..]| ensures !calls[1..][i].SetOwnerCall? {
          assert calls[1..][i] == calls[i + 1];
        }
      }
      RunKeepsOwnedBy(Step(s, calls[0]), owner, calls[1..]);
    }
  }

  /** A consistent registry whose officers all share one principal holds at
      most one officer: principals are unique. */
  lemma AtMostOneOfficer(s: ContractState, owner: Principal)
    requires Consistent(s) && OwnedBy(s, owner)
    ensures |s.officers| <= 1
  {
    forall id | id in s.officers
      ensures owner in s.officerPrincipals && s.officerPrincipals[owner].officerId == id
    {
      assert s.officers[id].principal == owner;
    }
    if owner in s.officerPrincipals {
      var only := s.officerPrincipals[owner].officerId;
      assert s.officers.Keys == {only};
    } else {
      assert s.officers.Keys == {};
    }
  }

  /** With the owner never reassigned, registerOfficer can only ever register
      the owner, so the registry never holds more than one officer. */
  lemma FixedOwnerSingleOfficer(owner: Principal, calls: seq<Call>)
    requires NoOwnerChange(calls)
    ensures |Run(Init(owner), calls).officers| <= 1
  {
    RunPreservesConsistent(Init(owner), calls);
    RunKeepsOwnedBy(Init(owner), owner, calls);
    AtMostOneOfficer(Run(Init(owner), calls), owner);
  }

  /** Ids are handed out densely: the registered ids are exactly 1 .. nextOfficerId - 1. */
  ghost predicate DenseIds(s: ContractState)
  {
    forall id :: id in s.officers <==> 1 <= id < s.nextOfficerId
  }

  lemma {:induction false} RunKeepsDenseIds(s: ContractState, calls: seq<Call>)
    requires Consistent(s) && DenseIds(s)
    ensures DenseIds(Run(s, calls))
    decreases |calls|
  {
    if calls != [] {
      StepKeeps(s, calls[0]);
      RunKeepsDenseIds(Step(s, calls[0]), calls[1..]);
    }
  }

  /** From a fresh contract, any history leaves exactly the ids below the counter in use. */
  lemma DenseFromInit(owner: Principal, calls: seq<Call>)
    ensures DenseIds(Run(Init(owner), calls))
  {
    RunKeepsDenseIds(Init(owner), calls);
  }

  /** Registering the same caller twice: the second call is refused with the
      already-verified error, changes nothing, and the first record is what
      both readers return. */
  lemma RegisterTwice(s: ContractState, name1: string, certification1: string, expiry1: int,
                      name2: string, certification2: string, expiry2: int, caller: Principal)
    requires caller == s.contractOwner && caller !in s.officerPrincipals
    ensures var first := Register(s, name1, certification1, expiry1, caller);
            var second := Register(first.next, name2, certification2, expiry2, caller);
            && first.result == Success(s.nextOfficerId)
            && second.result == Failure(AlreadyVerified)
            && second.next == first.next
            && GetOfficerByPrincipal(second.next, caller)
                 == GetOfficerInfo(second.next, s.nextOfficerId)
                 == Some(Officer(caller, name1, certification1, false, 0, expiry1))
  {
  }

  /** Registering and then verifying the new id by the owner makes the caller a
      verified officer, stamped with the verification time; before the
      verification the same officer reads as unverified. */
  lemma RegisterThenVerify(s: ContractState, name: string, certification: string, expiry: int,
                           caller: Principal, now: Timestamp)
    requires caller == s.contractOwner && caller !in s.officerPrincipals
    ensures var registered := Register(s, name, certification, expiry, caller);
            var verified := Verify(registered.next, registered.result.value, caller, now);
            && !IsVerifiedOfficer(registered.next, caller)
            && verified.result == Success(true)
            && IsVerifiedOfficer(verified.next, caller)
            && GetOfficerByPrincipal(verified.next, caller)
                 == Some(Officer(caller, name, certification, true, now, expiry))
  {
  }
}
