# Compliance-officer registry, modelled in Dafny

The registry keeps the compliance officers that a single administrator, the
contract owner, has registered and verified. Its state is two maps and two
scalars:

- `officers`: officer id to officer record. A record holds the principal, name,
  certification, verified flag, verification date and expiry date.
- `officerPrincipals`: principal to `{officerId}`.
- `nextOfficerId`: the next id to hand out. It starts at 1.
- `contractOwner`: the administrator identity.

There are two owner-gated mutators, `registerOfficer` and `verifyOfficer`. There
are three public readers: `isVerifiedOfficer`, `getOfficerInfo` and
`getOfficerByPrincipal`.

`registerOfficer` registers the *caller* itself, and only the owner may call it.
So while the owner stays the same, the registry never holds more than one
officer (`OfficerHistory.FixedOwnerSingleOfficer`). The test suite gets a second
officer only by reassigning `contractOwner` between two registrations. The model
offers that reassignment as `SetOwner`.

Files:

- `registry.dfy`, module `Officers`: the records, errors and results, the state
  value `ContractState`, and the registry invariant `Consistent`. It also holds
  every operation as a pure transition on the state (`Register`, `Verify`,
  `SetOwner`) and the three readers.
- `contract.dfy`, module `OfficerContract`: the class `OfficerRegistry` with the
  four fields, updated in place. Each method is proved to perform exactly the
  matching transition and to keep the invariant.
- `history.dfy`, module `OfficerHistory`: call traces and the properties that
  hold across any number of calls.
- `scenarios.dfy`, module `OfficerScenarios`: the test suite's cases replayed on
  the class, each proving the outcome the suite expects.

Three behaviours of the code worth noting:

- The owner is mutable state, not a constant fixed at construction (line 270).
- Re-verifying an officer is allowed and re-stamps the date.
- The duplicate-registration error is `err-already-verified` (`AlreadyVerified`).

## Model

| member | source | states |
|---|---|---|
| `Officers.Init` | tests/compliance-officer-verification.test.ts:4-9 | The initial state has no officers and no principal entries, has counter 1 and has the given owner; it satisfies the registry invariant |
| `Officers.Register` | tests/compliance-officer-verification.test.ts:13-37 | Succeeds iff the caller is the owner and has no principal entry. A non-owner gets `OwnerOnly`. An owner already registered gets `AlreadyVerified`. Every failure leaves the state unchanged. On success it returns the old counter, which was never used as an id. It stores an unverified, undated record for the caller under that id and maps the caller to it. It raises the counter by exactly one and keeps the owner. Every earlier record survives unchanged. The invariant is preserved |
| `Officers.Verify` | tests/compliance-officer-verification.test.ts:39-54 | Succeeds iff the caller is the owner and the id exists. The owner check comes first, then `InvalidOfficer`. Failures leave the state unchanged. On success it returns true and sets that officer's `verified` and `verificationDate` to the given positive time. The officer's other fields, all other officers, the principal map, the counter and the owner stay the same. The invariant is preserved |
| `Officers.SetOwner` | tests/compliance-officer-verification.test.ts:270 | Replaces the owner only and keeps the invariant |
| `Officers.IsVerifiedOfficer` | tests/compliance-officer-verification.test.ts:56-64 | False for a principal with no entry. Under the invariant, true exactly when some officer with that principal is verified, so a registered but unverified officer reads false |
| `Officers.GetOfficerInfo` | tests/compliance-officer-verification.test.ts:66-68 | Some record exactly when the id is registered, and then that record. Under the invariant, looking the record up again by its principal returns the same record |
| `Officers.GetOfficerByPrincipal` | tests/compliance-officer-verification.test.ts:70-76 | None for an unknown principal, and otherwise a stored record. Under the invariant it is Some exactly when the principal has an entry, so the null fallback of the second lookup is never taken. Equivalently, it is Some exactly when some officer carries that principal, and then the record's principal is the one asked for |
| `Officers.ErrorCode` | tests/compliance-officer-verification.test.ts:15-46 | Each error is reported as an `err-` string, and each of `err-owner-only` (line 15), `err-already-verified` (line 19) and `err-invalid-officer` (line 46) is the code of exactly one error |
| `Officers.ErrorCodesDistinct` | tests/compliance-officer-verification.test.ts:15-46 | The three error strings are pairwise distinct |
| `OfficerHistory.RunPreservesConsistent` | tests/compliance-officer-verification.test.ts:22-53 | Every sequence of register, verify and owner-change calls preserves the registry invariant |
| `OfficerHistory.RunKeeps` | tests/compliance-officer-verification.test.ts:22-53 | Across any sequence of calls, the following hold. No id or principal entry is dropped or rebound. Each record's principal, name, certification and expiry stay fixed. A verified officer stays verified. The counter never decreases, so ids are never reused |
| `OfficerHistory.RunKeepsOwnedBy` | tests/compliance-officer-verification.test.ts:14-24 | If every officer belongs to the owner and no call changes the owner, that stays true |
| `OfficerHistory.AtMostOneOfficer` | tests/compliance-officer-verification.test.ts:18-20 | A consistent registry whose officers all share one principal holds at most one officer |
| `OfficerHistory.FixedOwnerSingleOfficer` | tests/compliance-officer-verification.test.ts:14-34 | From a fresh contract, any history without an owner change leaves at most one officer |
| `OfficerHistory.RunKeepsDenseIds` | tests/compliance-officer-verification.test.ts:22-34 | If the registered ids are exactly 1 .. counter-1, every sequence of calls keeps that true |
| `OfficerHistory.DenseFromInit` | tests/compliance-officer-verification.test.ts:274-276 | From a fresh contract, the registered ids are always exactly 1 .. counter-1 |
| `OfficerHistory.RegisterTwice` | tests/compliance-officer-verification.test.ts:112-130 | After a successful registration, the same caller's second one returns `AlreadyVerified` and changes nothing. Both readers still return the first record |
| `OfficerHistory.RegisterThenVerify` | tests/compliance-officer-verification.test.ts:184-211 | A newly registered officer reads as unverified. After the owner verifies the new id, the officer reads as verified, with the verification time as its date |
| `OfficerContract.OfficerRegistry.constructor` | tests/compliance-officer-verification.test.ts:4-9 | The new object holds the initial state and satisfies the invariant |
| `OfficerContract.OfficerRegistry.RegisterOfficer` | tests/compliance-officer-verification.test.ts:13-37 | Updates the fields in place exactly as `Register`, returns its result and keeps the invariant |
| `OfficerContract.OfficerRegistry.VerifyOfficer` | tests/compliance-officer-verification.test.ts:39-54 | Replaces the officer's record in the `officers` field exactly as `Verify`, returns its result and keeps the invariant |
| `OfficerContract.OfficerRegistry.SetOwner` | tests/compliance-officer-verification.test.ts:270 | Reassigns only the owner field and keeps the invariant |
| `OfficerScenarios.RegisteredRegistry` | tests/compliance-officer-verification.test.ts:80-97 | After the owner registers John Doe on a fresh contract, the registry holds exactly that record under id 1. The owner maps to it and the counter is 2 |
| `OfficerScenarios.OwnerRegisters` | tests/compliance-officer-verification.test.ts:91-102 | The owner's registration returns id 1. Afterwards the registry has size 1 and counter 2 |
| `OfficerScenarios.NonOwnerCannotRegister` | tests/compliance-officer-verification.test.ts:104-110 | A non-owner's registration fails with `err-owner-only` and registers nothing |
| `OfficerScenarios.DuplicateRegistrationRejected` | tests/compliance-officer-verification.test.ts:112-130 | A second registration by the owner fails with `err-already-verified`, and record 1 is the first one |
| `OfficerScenarios.OwnerVerifies` | tests/compliance-officer-verification.test.ts:134-151 | Verification by the owner succeeds. The record is then verified with a positive date |
| `OfficerScenarios.NonOwnerCannotVerify` | tests/compliance-officer-verification.test.ts:153-168 | Verification by a non-owner fails with `OwnerOnly`, and the officer stays unverified |
| `OfficerScenarios.MissingOfficerCannotBeVerified` | tests/compliance-officer-verification.test.ts:170-174 | Verifying id 999 fails with `err-invalid-officer` |
| `OfficerScenarios.StatusChecks` | tests/compliance-officer-verification.test.ts:178-211 | The status check returns false for an unknown principal and false for a registered but unverified officer. It returns true once that officer is verified |
| `OfficerScenarios.InformationRetrieval` | tests/compliance-officer-verification.test.ts:215-256 | Lookup by id 1 and by the owner's principal both return John Doe's record. Lookup of id 999 and of an unknown principal both return null |
| `OfficerScenarios.ConsistentAcrossOperations` | tests/compliance-officer-verification.test.ts:260-286 | Registering, reassigning the owner and registering again gives 2 officers, 2 principal entries and counter 3. Records 1 and 2 carry the names and principals used at registration |

## Left out

- The wall clock: `Date.now()` becomes the `now` parameter of `Verify`/`VerifyOfficer`, of type `Timestamp` (a positive `nat`).
- Object aliasing: the source mutates the stored record in place, and its getters return live references. The model stores immutable record values and replaces them in the map, so a caller holding a record cannot change the registry.
- Result wrapping of the status check: `isVerifiedOfficer` returns `{ success: flag }`. The model returns the flag, because that result is never an error.
- JavaScript number semantics: ids, the counter and dates are unbounded integers. Non-integer or non-numeric ids, and loss of precision above 2^53, are not modelled.
- The literal owner address is only a value in the scenarios. Identities are opaque strings.
- The test harness itself (`describe`, `it`, `expect`, `beforeEach`) is not modelled. Its cases appear as the scenario methods.
- Concurrency and atomicity: every call runs to completion before the next one starts, as in the source.
