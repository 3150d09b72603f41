/** The claim engine: the claim lifecycle (PENDING, UNDER_REVIEW, APPROVED,
    REJECTED, PAID) and the ownership and role checks that guard each
    operation. Each operation looks the claim up, then the caller, checks its
    guards in a fixed order, and then saves, deletes or returns the claim. */
module Service {
  import opened Model
  import opened Store

  /** Why an operation failed. */
  datatype ClaimError =
    | ClaimNotFound
    | UserNotFound
    | Unauthorized
    | NotPending
    | NotApproved
    | BadStatus

  datatype Result<+T> = Ok(value: T) | Fail(error: ClaimError)

  /** The dashboard map from its six counters; the counter names are
      distinct, so each keeps its own value. */
  function Counters(total: nat, pending: nat, underReview: nat, approved: nat, rejected: nat, paid: nat): (m: map<string, nat>)
    requires pending + underReview + approved + rejected + paid == total
    ensures m.Keys == {"total", "pending", "underReview", "approved", "rejected", "paid"}
    ensures m["total"] == total && m["pending"] == pending && m["underReview"] == underReview
    ensures m["approved"] == approved && m["rejected"] == rejected && m["paid"] == paid
    ensures forall key :: key in m ==> m[key] <= total
  {
    assert "approved" != "rejected" by {
      assert "approved"[0] != "rejected"[0];
    }
    map[
      "total" := total,
      "pending" := pending,
      "underReview" := underReview,
      "approved" := approved,
      "rejected" := rejected,
      "paid" := paid]
  }

  class ClaimService {
    /** The claim table, by claim id. */
    var claims: ClaimStore
    /** The user table, by username; the engine only reads it. */
    var users: map<string, User>
    /** The id the store will give the next new claim. */
    var nextId: ClaimId

    /** No two usernames share a user id; each claim is stored under its own
        id, below the next id to be given out, and is owned by a known user. */
    ghost predicate Valid()
      reads this
    {
      && DistinctUserIds(users)
      && forall i :: i in claims ==>
           claims[i].id == i && i < nextId && IsUserId(users, claims[i].ownerId)
    }

    constructor (users: map<string, User>)
      requires DistinctUserIds(users)
      ensures Valid()
      ensures this.users == users && claims == map[]
    {
      this.users := users;
      claims := map[];
      nextId := 1;
    }

    /** Submits a claim for the user `username`. The claim gets a new id and
        that user as owner, PENDING when the form names no status, and
        `now` as both timestamps; every other field is taken from the form. */
    method CreateClaim(form: ClaimForm, username: string, now: Timestamp) returns (r: Result<Claim>)
      requires Valid()
      modifies this`claims, this`nextId
      ensures Valid()
      ensures username !in users ==> r == Fail(UserNotFound) && claims == old(claims)
      ensures username in users ==>
        && r.Ok?
        && r.value.id !in old(claims)
        && claims == old(claims)[r.value.id := r.value]
        && |claims| == |old(claims)| + 1
        && r.value == Claim(
             r.value.id, users[username].id,
             form.disasterType, form.incidentDate, form.location, form.description, form.requestAmount,
             if form.status.None? then Pending else form.status.value,
             form.reviewerId, form.reviewComments, form.approvedAmount,
             now, now, form.reviewedAt)
    {
      if username !in users {
        return Fail(UserNotFound);
      }
      var user := users[username];
      var status := Pending;
      if form.status.Some? {
        status := form.status.value;
      }
      var claim := Claim(
        nextId, user.id,
        form.disasterType, form.incidentDate, form.location, form.description, form.requestAmount,
        status,
        form.reviewerId, form.reviewComments, form.approvedAmount,
        now, now, form.reviewedAt);
      claims := claims[nextId := claim];
      nextId := nextId + 1;
      r := Ok(claim);
    }

    /** The claims of the user `username`, newest first. */
    function GetClaimsByUsername(username: string): (r: Result<seq<Claim>>)
      reads this
      requires Valid()
      ensures r.Fail? <==> username !in users
      ensures r.Fail? ==> r.error == UserNotFound
      ensures r.Ok? ==>
        forall c :: c in r.value <==> c in claims.Values && c.ownerId == users[username].id
      ensures r.Ok? ==>
        forall j, k :: 0 <= j < k < |r.value| ==>
          r.value[j].createdAt >= r.value[k].createdAt && r.value[j] != r.value[k]
    {
      if username !in users then Fail(UserNotFound)
      else
        var uid := users[username].id;
        var found := IdsBelow(claims, nextId, (c: Claim) => c.ownerId == uid);
        AscendingOnce(found);
        var order := SortNewestFirst(claims, found);
        SameIds(found, order);
        ListingContents(claims, order);
        ListingOnce(claims, order);
        var listed := Listing(claims, order);
        Ok(listed)
    }

    /** Every claim, in the store's order (ascending id). */
    function GetAllClaims(): (r: seq<Claim>)
      reads this
      requires Valid()
      ensures forall c :: c in r <==> c in claims.Values
      ensures forall j, k :: 0 <= j < k < |r| ==> r[j].id < r[k].id
    {
      var order := IdsBelow(claims, nextId, (c: Claim) => true);
      ListingContents(claims, order);
      Listing(claims, order)
    }

    /** The PENDING claims, in the store's order (ascending id). */
    function GetPendingClaims(): (r: seq<Claim>)
      reads this
      requires Valid()
      ensures forall c :: c in r <==> c in claims.Values && c.status == Pending
      ensures forall j, k :: 0 <= j < k < |r| ==> r[j].id < r[k].id
    {
      var order := IdsBelow(claims, nextId, (c: Claim) => c.status == Pending);
      ListingContents(claims, order);
      Listing(claims, order)
    }

    /** The claim `id`, for its owner or for an administrator. */
    function GetClaimById(id: ClaimId, username: string): (r: Result<Claim>)
      reads this
      ensures r.Ok? <==>
        id in claims && username in users
        && (claims[id].ownerId == users[username].id || users[username].role == RoleAdmin)
      ensures r.Ok? ==> r.value == claims[id]
      ensures r == Fail(ClaimNotFound) <==> id !in claims
      ensures r == Fail(UserNotFound) <==> id in claims && username !in users
      ensures r == Fail(Unauthorized) <==>
        id in claims && username in users
        && claims[id].ownerId != users[username].id && users[username].role != RoleAdmin
    {
      if id !in claims then Fail(ClaimNotFound)
      else if username !in users then Fail(UserNotFound)
      else
        var claim, user := claims[id], users[username];
        if claim.ownerId != user.id && RoleName(user.role) != "ROLE_ADMIN" then Fail(Unauthorized)
        else Ok(claim)
    }

    /** The guard shared by update and delete: the claim exists, the caller
        exists, the caller owns it (checked first), and it is PENDING. */
    function OwnedPendingClaim(id: ClaimId, username: string): (r: Result<Claim>)
      reads this
      ensures r.Ok? <==>
        id in claims && username in users
        && claims[id].ownerId == users[username].id && claims[id].status == Pending
      ensures r.Ok? ==> r.value == claims[id]
      ensures r == Fail(ClaimNotFound) <==> id !in claims
      ensures r == Fail(UserNotFound) <==> id in claims && username !in users
      ensures r == Fail(Unauthorized) <==>
        id in claims && username in users && claims[id].ownerId != users[username].id
      ensures r == Fail(NotPending) <==>
        id in claims && username in users
        && claims[id].ownerId == users[username].id && claims[id].status != Pending
    {
      if id !in claims then Fail(ClaimNotFound)
      else if username !in users then Fail(UserNotFound)
      else if claims[id].ownerId != users[username].id then Fail(Unauthorized)
      else if claims[id].status != Pending then Fail(NotPending)
      else Ok(claims[id])
    }

    /** The owner edits a PENDING claim: each descriptive field present in the
        patch replaces the stored one, the others are kept, and the update
        time becomes `now`. Status, owner and review fields are untouched. */
    method UpdateClaim(id: ClaimId, patch: ClaimForm, username: string, now: Timestamp) returns (r: Result<Claim>)
      requires Valid()
      modifies this`claims
      ensures Valid()
      ensures old(OwnedPendingClaim(id, username)).Fail? ==>
        r == old(OwnedPendingClaim(id, username)) && claims == old(claims)
      ensures old(OwnedPendingClaim(id, username)).Ok? ==>
        var c := old(claims[id]);
        && r == Ok(c.(
             disasterType := patch.disasterType.OrElse(c.disasterType),
             incidentDate := patch.incidentDate.OrElse(c.incidentDate),
             location := patch.location.OrElse(c.location),
             description := patch.description.OrElse(c.description),
             requestAmount := patch.requestAmount.OrElse(c.requestAmount),
             updatedAt := now))
        && claims == old(claims)[id := r.value]
    {
      var guard := OwnedPendingClaim(id, username);
      if guard.Fail? {
        return guard;
      }
      var claim := guard.value;
      if patch.disasterType.Some? {
        claim := claim.(disasterType := patch.disasterType);
      }
      if patch.incidentDate.Some? {
        claim := claim.(incidentDate := patch.incidentDate);
      }
      if patch.location.Some? {
        claim := claim.(location := patch.location);
      }
      if patch.description.Some? {
        claim := claim.(description := patch.description);
      }
      if patch.requestAmount.Some? {
        claim := claim.(requestAmount := patch.requestAmount);
      }
      claim := claim.(updatedAt := now);
      claims := claims[id := claim];
      r := Ok(claim);
    }

    /** The owner withdraws a PENDING claim; it is removed for good. */
    method DeleteClaim(id: ClaimId, username: string) returns (err: Option<ClaimError>)
      requires Valid()
      modifies this`claims
      ensures Valid()
      ensures err.None? <==> old(OwnedPendingClaim(id, username)).Ok?
      ensures err.Some? ==>
        Fail(err.value) == old(OwnedPendingClaim(id, username)) && claims == old(claims)
      ensures err.None? ==>
        id !in claims && claims == old(claims) - {id} && |claims| == |old(claims)| - 1
    {
      var guard := OwnedPendingClaim(id, username);
      if guard.Fail? {
        return Some(guard.error);
      }
      claims := claims - {id};
      err := None;
    }

    /** The six counters of the administrator's dashboard: the number of
        claims, and the number in each status. */
    function GetStatistics(): (stats: map<string, nat>)
      reads this
      ensures stats.Keys == {"total", "pending", "underReview", "approved", "rejected", "paid"}
      ensures stats["total"] == |claims|
      ensures stats["pending"] == CountStatus(claims, Pending)
      ensures stats["underReview"] == CountStatus(claims, UnderReview)
      ensures stats["approved"] == CountStatus(claims, Approved)
      ensures stats["rejected"] == CountStatus(claims, Rejected)
      ensures stats["paid"] == CountStatus(claims, Paid)
      ensures forall key :: key in stats ==> stats[key] <= stats["total"]
      ensures stats["pending"] + stats["underReview"] + stats["approved"]
            + stats["rejected"] + stats["paid"] == stats["total"]
    {
      StatusCountsPartition(claims);
      Counters(
        |claims|,
        CountStatus(claims, Pending),
        CountStatus(claims, UnderReview),
        CountStatus(claims, Approved),
        CountStatus(claims, Rejected),
        CountStatus(claims, Paid))
    }

    /** An administrator approves the claim, from whatever status it is in.
        The approved amount is the one given, or else the amount requested. */
    method ApproveClaim(id: ClaimId, adminUsername: string, reviewComments: Option<string>,
                        approvedAmount: Option<Amount>, now: Timestamp) returns (r: Result<Claim>)
      requires Valid()
      modifies this`claims
      ensures Valid()
      ensures id !in old(claims) ==> r == Fail(ClaimNotFound) && claims == old(claims)
      ensures id in old(claims) && adminUsername !in users ==>
        r == Fail(UserNotFound) && claims == old(claims)
      ensures id in old(claims) && adminUsername in users ==>
        var c := old(claims[id]);
        && r == Ok(c.(
             status := Approved,
             reviewerId := Some(users[adminUsername].id),
             reviewComments := reviewComments,
             approvedAmount := approvedAmount.OrElse(c.requestAmount),
             reviewedAt := Some(now),
             updatedAt := now))
        && claims == old(claims)[id := r.value]
    {
      if id !in claims {
        return Fail(ClaimNotFound);
      }
      var claim := claims[id];
      if adminUsername !in users {
        return Fail(UserNotFound);
      }
      var admin := users[adminUsername];
      claim := claim.(status := Approved);
      claim := claim.(reviewerId := Some(admin.id));
      claim := claim.(reviewComments := reviewComments);
      claim := claim.(approvedAmount := if approvedAmount.Some? then approvedAmount else claim.requestAmount);
      claim := claim.(reviewedAt := Some(now));
      claim := claim.(updatedAt := now);
      claims := claims[id := claim];
      r := Ok(claim);
    }

    /** An administrator rejects the claim, from whatever status it is in.
        The approved amount, if any, is left as it was. */
    method RejectClaim(id: ClaimId, adminUsername: string, reviewComments: Option<string>,
                       now: Timestamp) returns (r: Result<Claim>)
      requires Valid()
      modifies this`claims
      ensures Valid()
      ensures id !in old(claims) ==> r == Fail(ClaimNotFound) && claims == old(claims)
      ensures id in old(claims) && adminUsername !in users ==>
        r == Fail(UserNotFound) && claims == old(claims)
      ensures id in old(claims) && adminUsername in users ==>
        var c := old(claims[id]);
        && r == Ok(c.(
             status := Rejected,
             reviewerId := Some(users[adminUsername].id),
             reviewComments := reviewComments,
             reviewedAt := Some(now),
             updatedAt := now))
        && r.value.approvedAmount == c.approvedAmount
        && claims == old(claims)[id := r.value]
    {
      if id !in claims {
        return Fail(ClaimNotFound);
      }
      var claim := claims[id];
      if adminUsername !in users {
        return Fail(UserNotFound);
      }
      var admin := users[adminUsername];
      claim := claim.(status := Rejected);
      claim := claim.(reviewerId := Some(admin.id));
      claim := claim.(reviewComments := reviewComments);
      claim := claim.(reviewedAt := Some(now));
      claim := claim.(updatedAt := now);
      claims := claims[id := claim];
      r := Ok(claim);
    }

    /** The administrator's override: sets the status named `statusName`
        with no transition or authorisation check. A missing name, or one
        that names no status, is refused. */
    method UpdateStatus(id: ClaimId, statusName: Option<string>, now: Timestamp) returns (r: Result<Claim>)
      requires Valid()
      modifies this`claims
      ensures Valid()
      ensures id !in old(claims) ==> r == Fail(ClaimNotFound) && claims == old(claims)
      ensures id in old(claims) && (forall s :: statusName != Some(StatusName(s))) ==>
        r == Fail(BadStatus) && claims == old(claims)
      ensures forall s :: id in old(claims) && statusName == Some(StatusName(s)) ==>
        && r == Ok(old(claims[id]).(status := s, updatedAt := now))
        && claims == old(claims)[id := r.value]
    {
      if id !in claims {
        return Fail(ClaimNotFound);
      }
      var claim := claims[id];
      var parsed := None;
      if statusName.Some? {
        parsed := ParseStatus(statusName.value);
      }
      if parsed.None? {
        return Fail(BadStatus);
      }
      claim := claim.(status := parsed.value);
      claim := claim.(updatedAt := now);
      claims := claims[id := claim];
      r := Ok(claim);
    }

    /** An administrator starts reviewing the claim, from whatever status it
        is in: the status becomes UNDER_REVIEW and the admin its reviewer. */
    method SetUnderReview(id: ClaimId, adminUsername: string, now: Timestamp) returns (r: Result<Claim>)
      requires Valid()
      modifies this`claims
      ensures Valid()
      ensures id !in old(claims) ==> r == Fail(ClaimNotFound) && claims == old(claims)
      ensures id in old(claims) && adminUsername !in users ==>
        r == Fail(UserNotFound) && claims == old(claims)
      ensures id in old(claims) && adminUsername in users ==>
        && r == Ok(old(claims[id]).(
             status := UnderReview,
             reviewerId := Some(users[adminUsername].id),
             updatedAt := now))
        && claims == old(claims)[id := r.value]
    {
      if id !in claims {
        return Fail(ClaimNotFound);
      }
      var claim := claims[id];
      if adminUsername !in users {
        return Fail(UserNotFound);
      }
      var admin := users[adminUsername];
      claim := claim.(status := UnderReview);
      claim := claim.(reviewerId := Some(admin.id));
      claim := claim.(updatedAt := now);
      claims := claims[id := claim];
      r := Ok(claim);
    }

    /** An administrator records the payment of an APPROVED claim. The
        administrator's name is only logged, never looked up. */
    method MarkAsPaid(id: ClaimId, adminUsername: string, now: Timestamp) returns (r: Result<Claim>)
      requires Valid()
      modifies this`claims
      ensures Valid()
      ensures r != Fail(UserNotFound)
      ensures id !in old(claims) ==> r == Fail(ClaimNotFound) && claims == old(claims)
      ensures id in old(claims) && old(claims[id]).status != Approved ==>
        r == Fail(NotApproved) && claims == old(claims)
      ensures id in old(claims) && old(claims[id]).status == Approved ==>
        && r == Ok(old(claims[id]).(status := Paid, updatedAt := now))
        && claims == old(claims)[id := r.value]
    {
      if id !in claims {
        return Fail(ClaimNotFound);
      }
      var claim := claims[id];
      if claim.status != Approved {
        return Fail(NotApproved);
      }
      claim := claim.(status := Paid);
      claim := claim.(updatedAt := now);
      claims := claims[id := claim];
      r := Ok(claim);
    }
  }
}
