/** The contract as the mutable object it is: two maps, a counter and an owner,
    updated in place by the two mutators (and by a direct reassignment of the
    owner). Each method is proved to perform exactly the transition of module
    Officers and to keep the registry invariant. */
module OfficerContract {
  import opened Officers

  class OfficerRegistry {
    var officers: map<int, Officer>
    var officerPrincipals: map<Principal, OfficerRef>
    var nextOfficerId: nat
    var contractOwner: Principal

    /** The current state as a value, for the readers and the lemmas. */
    function Snapshot(): (s: ContractState)
      reads this
    {
      ContractState(officers, officerPrincipals, nextOfficerId, contractOwner)
    }

    ghost predicate Valid()
      reads this
    {
      Consistent(Snapshot())
    }

    /** A fresh contract: no officers, the first id is 1. */
    constructor (owner: Principal)
      ensures Valid() && Snapshot() == Init(owner)
    {
      officers := map[];
      officerPrincipals := map[];
      nextOfficerId := 1;
      contractOwner := owner;
    }

    method RegisterOfficer(name: string, certification: string, expiryDate: int, caller: Principal)
      returns (r: Result<int>)
      requires Valid()
      modifies this
      ensures Valid()
      ensures Transition(Snapshot(), r) == Register(old(Snapshot()), name, certification, expiryDate, caller)
    {
      if caller != contractOwner {
        return Failure(OwnerOnly);
      }
      if caller in officerPrincipals {
        return Failure(AlreadyVerified);
      }
      var officerId := nextOfficerId;
      var officerData := Officer(caller, name, certification, false, 0, expiryDate);
      officers := officers[officerId := officerData];
      officerPrincipals := officerPrincipals[caller := OfficerRef(officerId)];
      nextOfficerId := nextOfficerId + 1;
      r := Success(officerId);
    }

    /** `now` stands for the clock reading taken at the time of the call. */
    method VerifyOfficer(officerId: int, caller: Principal, now: Timestamp) returns (r: Result<bool>)
      requires Valid()
      modifies this
      ensures Valid()
      ensures Transition(Snapshot(), r) == Verify(old(Snapshot()), officerId, caller, now)
    {
      if caller != contractOwner {
        return Failure(OwnerOnly);
      }
      if officerId !in officers {
        return Failure(InvalidOfficer);
      }
      var officer := officers[officerId];
      officer := officer.(verified := true, verificationDate := now);
      officers := officers[officerId := officer];
      r := Success(true);
    }

    method SetOwner(owner: Principal)
      requires Valid()
      modifies this
      ensures Valid()
      ensures Snapshot() == Officers.SetOwner(old(Snapshot()), owner)
    {
      contractOwner := owner;
    }
  }
}
