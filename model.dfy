/** The records the claim engine works on: users, claims, the body of a claim
    request, and the two enumerations (role and claim status) with the names
    the engine compares and parses. */
module Model {

  type UserId = nat
  type ClaimId = nat
  /** A point in time (the engine's LocalDateTime), supplied by the caller. */
  type Timestamp = int
  /** A calendar date (the incident date), only ever copied. */
  type Date = int
  /** A money amount; the engine copies amounts and never computes with them. */
  type Amount = int

  /** A nullable value. */
  datatype Option<+T> = None | Some(value: T) {
    /** This value when it is present, otherwise `fallback`. */
    function OrElse(fallback: Option<T>): (r: Option<T>)
      ensures Some? ==> r == this
      ensures None? ==> r == fallback
    {
      if Some? then this else fallback
    }
  }

  datatype Role = RoleUser | RoleAdmin

  /** The enumeration constant's name, which the engine compares as a string. */
  function RoleName(role: Role): string {
    match role
    case RoleUser => "ROLE_USER"
    case RoleAdmin => "ROLE_ADMIN"
  }

  /** A user as the engine sees one; the username is the key it is found by. */
  datatype User = User(id: UserId, role: Role)

  /** The user table's key: no two usernames share a user id. */
  ghost predicate DistinctUserIds(users: map<string, User>) {
    forall a, b :: a in users && b in users && users[a].id == users[b].id ==> a == b
  }

  /** True when some user in `users` has the id `uid`. */
  ghost predicate IsUserId(users: map<string, User>, uid: UserId) {
    exists name :: name in users && users[name].id == uid
  }

  datatype ClaimStatus = Pending | UnderReview | Approved | Rejected | Paid

  function StatusName(s: ClaimStatus): string {
    match s
    case Pending => "PENDING"
    case UnderReview => "UNDER_REVIEW"
    case Approved => "APPROVED"
    case Rejected => "REJECTED"
    case Paid => "PAID"
  }

  /** The enumeration's `valueOf`: the status whose name is exactly `name`. */
  function ParseStatus(name: string): (r: Option<ClaimStatus>)
    ensures r.Some? ==> StatusName(r.value) == name
    ensures r.None? ==> forall s :: StatusName(s) != name
  {
    if name == "PENDING" then Some(Pending)
    else if name == "UNDER_REVIEW" then Some(UnderReview)
    else if name == "APPROVED" then Some(Approved)
    else if name == "REJECTED" then Some(Rejected)
    else if name == "PAID" then Some(Paid)
    else None
  }

  lemma ParseStatusName(s: ClaimStatus)
    ensures ParseStatus(StatusName(s)) == Some(s)
  {
  }

  /** A stored claim. Every path that stores a claim sets its owner, status and
      both timestamps, so those are never null here; the other fields may be. */
  datatype Claim = Claim(
    id: ClaimId,
    ownerId: UserId,
    disasterType: Option<string>,
    incidentDate: Option<Date>,
    location: Option<string>,
    description: Option<string>,
    requestAmount: Option<Amount>,
    status: ClaimStatus,
    reviewerId: Option<UserId>,
    reviewComments: Option<string>,
    approvedAmount: Option<Amount>,
    createdAt: Timestamp,
    updatedAt: Timestamp,
    reviewedAt: Option<Timestamp>)

  /** The claim a client sends, to create a claim or as a patch to one: any
      field may be missing. Identity, owner and the two timestamps are always
      overwritten by the engine and are not part of it. */
  datatype ClaimForm = ClaimForm(
    disasterType: Option<string>,
    incidentDate: Option<Date>,
    location: Option<string>,
    description: Option<string>,
    requestAmount: Option<Amount>,
    status: Option<ClaimStatus>,
    reviewerId: Option<UserId>,
    reviewComments: Option<string>,
    approvedAmount: Option<Amount>,
    reviewedAt: Option<Timestamp>)
}
