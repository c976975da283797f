/** The registry's test cases, replayed on a fresh contract each: every method
    starts from the state the test suite resets to and ensures the outcomes the
    suite expects. */
module OfficerScenarios {
  import opened Officers
  import opened OfficerContract

  const Owner: Principal := "SP2J6ZY48GV1EZ5V2V5RB9MP66SW86PYKKNRV9EJ7"
  const NonOwner: Principal := "SP1234567890ABCDEF"
  const JohnDoe := "John Doe"
  const Ccp := "Certified Compliance Professional"

  /** A contract with John Doe registered by the owner. */
  method RegisteredRegistry() returns (registry: OfficerRegistry)
    ensures fresh(registry) && registry.Valid()
    ensures registry.contractOwner == Owner && registry.nextOfficerId == 2
    ensures registry.officers == map[1 := Officer(Owner, JohnDoe, Ccp, false, 0, 1000000)]
    ensures registry.officerPrincipals == map[Owner := OfficerRef(1)]
  {
    registry := new OfficerRegistry(Owner);
    var r := registry.RegisterOfficer(JohnDoe, Ccp, 1000000, Owner);
  }

  method OwnerRegisters() returns (result: Result<int>, size: nat, nextId: nat)
    ensures result == Success(1) && size == 1 && nextId == 2
  {
    var registry := new OfficerRegistry(Owner);
    result := registry.RegisterOfficer(JohnDoe, Ccp, 1000000, Owner);
    size := |registry.officers|;
    nextId := registry.nextOfficerId;
  }

  method NonOwnerCannotRegister() returns (result: Result<int>, size: nat)
    ensures result == Failure(OwnerOnly) && ErrorCode(result.error) == "err-owner-only" && size == 0
  {
    var registry := new OfficerRegistry(Owner);
    result := registry.RegisterOfficer("Jane Doe", "Compliance Expert", 1000000, NonOwner);
    size := |registry.officers|;
  }

  /** The second registration is refused and the first record stays as it was. */
  method DuplicateRegistrationRejected() returns (result: Result<int>, first: Option<Officer>)
    ensures result == Failure(AlreadyVerified) && ErrorCode(result.error) == "err-already-verified"
    ensures first == Some(Officer(Owner, JohnDoe, Ccp, false, 0, 1000000))
  {
    var registry := RegisteredRegistry();
    result := registry.RegisterOfficer("John Doe Updated", "Updated Certification", 2000000, Owner);
    first := GetOfficerInfo(registry.Snapshot(), 1);
  }

  method OwnerVerifies(now: Timestamp) returns (result: Result<bool>, officer: Option<Officer>)
    ensures result == Success(true)
    ensures officer.Some? && officer.value.verified && officer.value.verificationDate > 0
  {
    var registry := RegisteredRegistry();
    result := registry.VerifyOfficer(1, Owner, now);
    officer := GetOfficerInfo(registry.Snapshot(), 1);
  }

  method NonOwnerCannotVerify(now: Timestamp) returns (result: Result<bool>, verified: bool)
    ensures result == Failure(OwnerOnly) && !verified
  {
    var registry := RegisteredRegistry();
    result := registry.VerifyOfficer(1, NonOwner, now);
    verified := IsVerifiedOfficer(registry.Snapshot(), Owner);
  }

  method MissingOfficerCannotBeVerified(now: Timestamp) returns (result: Result<bool>)
    ensures result == Failure(InvalidOfficer) && ErrorCode(result.error) == "err-invalid-officer"
  {
    var registry := new OfficerRegistry(Owner);
    result := registry.VerifyOfficer(999, Owner, now);
  }

  /** Unknown, registered-but-unverified, and verified principals. */
  method StatusChecks(now: Timestamp) returns (unknown: bool, unverified: bool, verified: bool)
    ensures !unknown && !unverified && verified
  {
    var empty := new OfficerRegistry(Owner);
    unknown := IsVerifiedOfficer(empty.Snapshot(), NonOwner);
    var registry := RegisteredRegistry();
    unverified := IsVerifiedOfficer(registry.Snapshot(), Owner);
    var r := registry.VerifyOfficer(1, Owner, now);
    verified := IsVerifiedOfficer(registry.Snapshot(), Owner);
  }

  method InformationRetrieval()
    returns (byId: Option<Officer>, missingId: Option<Officer>,
             byPrincipal: Option<Officer>, missingPrincipal: Option<Officer>)
    ensures byId.Some? && byId.value.name == JohnDoe && byId.value.certification == Ccp
    ensures byId.Some? && !byId.value.verified
    ensures missingId == None
    ensures byPrincipal.Some? && byPrincipal.value.name == JohnDoe && byPrincipal.value.principal == Owner
    ensures missingPrincipal == None
  {
    var registry := RegisteredRegistry();
    byId := GetOfficerInfo(registry.Snapshot(), 1);
    missingId := GetOfficerInfo(registry.Snapshot(), 999);
    byPrincipal := GetOfficerByPrincipal(registry.Snapshot(), Owner);
    missingPrincipal := GetOfficerByPrincipal(registry.Snapshot(), NonOwner);
  }

  /** Two officers can be registered only by reassigning the owner in between. */
  method ConsistentAcrossOperations()
    returns (size: nat, principals: nat, nextId: nat, first: Option<Officer>, second: Option<Officer>)
    ensures size == 2 && principals == 2 && nextId == 3
    ensures first.Some? && first.value.name == "Officer 1" && first.value.principal == Owner
    ensures second.Some? && second.value.name == "Officer 2"
    ensures second.Some? && second.value.principal == "SP1111111111111111"
  {
    var officer1: Principal := "SP1111111111111111";
    var registry := new OfficerRegistry(Owner);
    var r1 := registry.RegisterOfficer("Officer 1", "Cert 1", 1000000, Owner);
    registry.SetOwner(officer1);
    var r2 := registry.RegisterOfficer("Officer 2", "Cert 2", 2000000, officer1);
    size := |registry.officers|;
    principals := |registry.officerPrincipals|;
    nextId := registry.nextOfficerId;
    first := GetOfficerInfo(registry.Snapshot(), 1);
    second := GetOfficerInfo(registry.Snapshot(), 2);
  }
}
