# Disaster relief claims: the claim engine

This project models the claim engine of the SafeNY emergency relief fund system in Dafny. Residents file
claims after a disaster. Administrators review them through a lifecycle of
PENDING, UNDER_REVIEW, APPROVED, REJECTED and PAID. The engine (`ClaimService`)
checks ownership and role before each operation, and it saves, deletes or
returns claims from a claim table.

The model has four modules:

- `Model` (`model.dfy`): the records the engine works on. A stored `Claim` has
  an owner, a status and two timestamps. Every other field may be missing, as
  a Java `null` may be. The module also holds the `ClaimForm` a client sends,
  `User`, `Role`, `ClaimStatus`, and the status names that the engine parses.
- `Store` (`store.dfy`): the claim table, a map from id to claim. It holds the
  table queries the engine calls: counting, counting by status, finding all,
  finding by status, and finding by owner newest first.
- `Service` (`claim_service.dfy`): the class `ClaimService`.
  - Its fields are the claim table, the user table and the next id to give out.
  - Each Java operation is a method or a function, with the same order of
    checks and the same failures. Failures are `Fail(...)` values of a closed
    `ClaimError` type, not exceptions.
  - The invariant `Valid()` says that no two usernames share a user id, as
    the user table's key guarantees. It also says three things about every
    claim: it is stored under its own id, that id is below the next id to be
    given out, and its owner is a known user. Every operation keeps it.
- `Walkthrough` (`walkthrough.dfy`): six client methods. They follow claims
  through the lifecycle and use only the engine's contracts:
  - a flood claim that only its owner and the administrator may read, and
    that the dashboard counts as pending;
  - a flood claim that is approved and paid, and can then neither be edited
    nor withdrawn;
  - a rejection that follows an approval and keeps the approved amount;
  - a status override by name, including from PAID back to PENDING;
  - a lower-case status name, which the override refuses;
  - a form that arrives already APPROVED.

The caller supplies the clock: each operation that stamps a time takes `now`
as a parameter.

## Model

All source paths are under `src/main/java/com/ny/safeny/service/`.

| member | source | states |
|---|---|---|
| Model.ParseStatus | src/main/java/com/ny/safeny/service/ClaimService.java:214 | The status whose constant name is exactly the given string, or none when no status has that name (case-sensitive, like `valueOf`) |
| Model.ParseStatusName | src/main/java/com/ny/safeny/service/ClaimService.java:214 | Parsing a status's own name gives back that status (round trip) |
| Store.CountStatus | src/main/java/com/ny/safeny/service/ClaimService.java:156-160 | Counting by status never gives more than the number of claims |
| Store.StatusCountsPartition | src/main/java/com/ny/safeny/service/ClaimService.java:155-160 | The five per-status counts add up to the total count, because each claim has exactly one status |
| Store.IdsBelow | src/main/java/com/ny/safeny/service/ClaimService.java:61-70 | The table's own listing order: exactly the stored ids that pass the filter, strictly ascending |
| Store.SortNewestFirst | src/main/java/com/ny/safeny/service/ClaimService.java:55 | Ordering by creation time, descending: a permutation of the input ids in which creation times never increase |
| Service.Counters | src/main/java/com/ny/safeny/service/ClaimService.java:154-161 | The statistics map has exactly the six keys, each mapped to its own counter, and none exceeds the total |
| Service.ClaimService.constructor | src/main/java/com/ny/safeny/service/ClaimService.java:20-26 | An engine over a user table whose user ids are distinct starts with no claims and satisfies the invariant |
| Service.ClaimService.CreateClaim | src/main/java/com/ny/safeny/service/ClaimService.java:31-46 | An unknown user fails with nothing stored. Otherwise exactly one new claim is added under a fresh id, owned by the caller. Its status is PENDING unless the form names one. Both timestamps are `now`, and every other field comes from the form |
| Service.ClaimService.GetClaimsByUsername | src/main/java/com/ny/safeny/service/ClaimService.java:51-56 | Fails exactly when the user is unknown. Otherwise it lists exactly the stored claims that user owns, newest first, each once |
| Service.ClaimService.GetAllClaims | src/main/java/com/ny/safeny/service/ClaimService.java:61-63 | Lists exactly the stored claims, in ascending id order, each once |
| Service.ClaimService.GetPendingClaims | src/main/java/com/ny/safeny/service/ClaimService.java:68-70 | Lists exactly the stored PENDING claims, in ascending id order, each once |
| Service.ClaimService.GetClaimById | src/main/java/com/ny/safeny/service/ClaimService.java:75-89 | Each outcome as an if-and-only-if. A missing claim is checked before an unknown user. The stored claim is returned exactly when the caller owns it or is an administrator, and Unauthorized exactly when a known caller is neither |
| Service.ClaimService.OwnedPendingClaim | src/main/java/com/ny/safeny/service/ClaimService.java:95-109 | The edit and withdraw guard, each outcome as an if-and-only-if. Ownership is checked before status, so a stranger gets Unauthorized even for a non-pending claim |
| Service.ClaimService.UpdateClaim | src/main/java/com/ny/safeny/service/ClaimService.java:94-125 | When the guard fails, the same failure is returned and the table is unchanged. Otherwise each descriptive field present in the patch replaces the stored one and the others are kept. Only `updatedAt` changes besides them, and no other claim changes |
| Service.ClaimService.DeleteClaim | src/main/java/com/ny/safeny/service/ClaimService.java:130-148 | Succeeds if and only if the guard passes. On success exactly that claim leaves the table; on failure the table is unchanged |
| Service.ClaimService.GetStatistics | src/main/java/com/ny/safeny/service/ClaimService.java:153-162 | Six counters: the total is the number of claims, each status counter counts that status, no counter exceeds the total, and the five status counters add up to it |
| Service.ClaimService.ApproveClaim | src/main/java/com/ny/safeny/service/ClaimService.java:167-184 | From any status, the claim becomes APPROVED with the administrator as reviewer. The approved amount is the one given, or else the requested amount. The review time is set and no other claim changes. A missing claim or an unknown administrator leaves the table unchanged |
| Service.ClaimService.RejectClaim | src/main/java/com/ny/safeny/service/ClaimService.java:189-205 | From any status, the claim becomes REJECTED with the reviewer, comments and review time set. Any earlier approved amount is kept |
| Service.ClaimService.UpdateStatus | src/main/java/com/ny/safeny/service/ClaimService.java:210-218 | A name that names a status sets exactly that status, from any status and with no role check. Any other name fails with the table unchanged |
| Service.ClaimService.SetUnderReview | src/main/java/com/ny/safeny/service/ClaimService.java:223-235 | From any status, the claim becomes UNDER_REVIEW with the administrator as reviewer. Review comments, amount and review time are untouched |
| Service.ClaimService.MarkAsPaid | src/main/java/com/ny/safeny/service/ClaimService.java:240-253 | Only an APPROVED claim becomes PAID, and nothing else about it changes but `updatedAt`. The administrator's name is never looked up, so this never fails with UserNotFound |

## Left out

- The HTTP layer is not modelled: `ClaimController`, its mapping of every engine failure to an HTTP status, and `GlobalExceptionHandler`. The model returns the engine's own failures.
- The administrator account that `SafeNyApplication` seeds at start-up is not modelled. The walkthrough builds its own user table instead.
- The Angular frontend is not modelled.
- Persistence is left out: JPA transactions, concurrent requests, and the races between a read and the save that follows it. The model runs one operation at a time over in-memory maps.
- `Claim.java`, `User.java` and the repositories are not part of this model. Claim fields are taken from the engine's getters and setters and from the frontend's claim model. Repository queries are specified by what their names promise.
- The id of a created claim is always fresh. A submitted claim body that carries an id, a user or timestamps is not modelled: JPA's merge of such a body is not modelled, and the engine overwrites the user and both timestamps anyway.
- The table's native order is modelled as ascending id. `findAll` and `findByStatus` promise no order.
- The newest-first listing breaks ties in creation time by descending id. The query's name leaves ties unordered.
- Time is a caller-supplied integer. The engine calls `LocalDateTime.now()` separately for `createdAt`/`updatedAt` and for `reviewedAt`/`updatedAt`, so the two values of a pair may differ by a few nanoseconds. The model gives both the same `now`.
- Amounts (`BigDecimal`) and dates are plain integers. The engine only copies them.
- Logging through `System.out` is left out.
- A user with no role, or a stored claim with no owner, is not modelled. In Java either would raise a `NullPointerException` in the ownership and role checks.
- A stored claim with no status is not modelled. It cannot arise through the engine: creation defaults a missing status to PENDING, and every other write sets a constant. The engine's status tests are null-safe, so such a claim would be refused as not pending or not approved, and the per-status counters would not count it.
- Service.ClaimService.UpdateStatus: a missing (null) status name is refused as `BadStatus`, the same as an unknown name. In Java the null raises a `NullPointerException` rather than the `IllegalArgumentException` an unknown name raises.
- The engine performs no input validation: no check of negative amounts, empty fields, or a user who is not an administrator in the review operations. No status transitions are checked outside update, delete and mark-as-paid. Nothing keeps `approvedAmount` only on APPROVED or PAID claims either: a claim approved and then rejected keeps its amount. The model follows the engine as written on all of these points, and `Walkthrough` shows the rejection case and a form that arrives already APPROVED.
