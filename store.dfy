/** The claim table as the engine queries it: a map from claim id to claim,
    with the derived queries the engine calls (count, count by status, find
    by status, find all, find by owner newest first). */
module Store {
  import opened Model

  type ClaimStore = map<ClaimId, Claim>

  /** The ids of the claims whose status is `s`. */
  function WithStatus(store: ClaimStore, s: ClaimStatus): (ids: set<ClaimId>)
    ensures forall i :: i in ids <==> i in store && store[i].status == s
  {
    set i | i in store && store[i].status == s
  }

  lemma {:induction false} SubsetCard(a: set<ClaimId>, b: set<ClaimId>)
    requires a <= b
    ensures |a| <= |b|
    decreases b
  {
    if a != {} {
      var x :| x in a;
      SubsetCard(a - {x}, b - {x});
    }
  }

  /** Count by status: the number of claims with status `s`, never more than
      the number of claims. */
  function CountStatus(store: ClaimStore, s: ClaimStatus): (n: nat)
    ensures n <= |store|
  {
    SubsetCard(WithStatus(store, s), store.Keys);
    |WithStatus(store, s)|
  }

  lemma DisjointUnionCard(a: set<ClaimId>, b: set<ClaimId>)
    requires a !! b
    ensures |a + b| == |a| + |b|
  {
    assert a * b == {};
  }

  /** Claims of two different statuses are different claims. */
  lemma StatusesDisjoint(store: ClaimStore, s: ClaimStatus, t: ClaimStatus)
    requires s != t
    ensures WithStatus(store, s) !! WithStatus(store, t)
  {
  }

  /** Every claim has one of the five statuses. */
  lemma {:induction false} StatusesCover(store: ClaimStore)
    ensures WithStatus(store, Pending) + WithStatus(store, UnderReview) + WithStatus(store, Approved)
          + WithStatus(store, Rejected) + WithStatus(store, Paid) == store.Keys
  {
    var all := WithStatus(store, Pending) + WithStatus(store, UnderReview) + WithStatus(store, Approved)
             + WithStatus(store, Rejected) + WithStatus(store, Paid);
    forall i | i in store ensures i in all {
      match store[i].status
      case Pending =>
      case UnderReview =>
      case Approved =>
      case Rejected =>
      case Paid =>
    }
  }

  /** Every claim has exactly one status, so the five counts add up to the
      number of claims. */
  lemma {:induction false} StatusCountsPartition(store: ClaimStore)
    ensures CountStatus(store, Pending) + CountStatus(store, UnderReview)
          + CountStatus(store, Approved) + CountStatus(store, Rejected)
          + CountStatus(store, Paid) == |store|
  {
    var p, u, a := WithStatus(store, Pending), WithStatus(store, UnderReview), WithStatus(store, Approved);
    var r, d := WithStatus(store, Rejected), WithStatus(store, Paid);
    StatusesDisjoint(store, Pending, UnderReview);
    DisjointUnionCard(p, u);
    StatusesDisjoint(store, Pending, Approved);
    StatusesDisjoint(store, UnderReview, Approved);
    DisjointUnionCard(p + u, a);
    StatusesDisjoint(store, Pending, Rejected);
    StatusesDisjoint(store, UnderReview, Rejected);
    StatusesDisjoint(store, Approved, Rejected);
    DisjointUnionCard(p + u + a, r);
    StatusesDisjoint(store, Pending, Paid);
    StatusesDisjoint(store, UnderReview, Paid);
    StatusesDisjoint(store, Approved, Paid);
    StatusesDisjoint(store, Rejected, Paid);
    DisjointUnionCard(p + u + a + r, d);
    StatusesCover(store);
    assert |store.Keys| == |store|;
  }

  /** The claims at the ids of `order`, in that order. */
  function Listing(store: ClaimStore, order: seq<ClaimId>): (r: seq<Claim>)
    requires forall i :: i in order ==> i in store
    ensures |r| == |order|
    ensures forall j :: 0 <= j < |r| ==> r[j] == store[order[j]]
  {
    seq(|order|, j requires 0 <= j < |order| => store[order[j]])
  }

  /** A listing holds exactly the claims stored at the ids it lists. */
  lemma ListingContents(store: ClaimStore, order: seq<ClaimId>)
    requires forall i :: i in order ==> i in store
    ensures forall c :: c in Listing(store, order) <==> exists i :: i in order && store[i] == c
  {
    var r := Listing(store, order);
    forall c | c in r ensures exists i :: i in order && store[i] == c {
      var j :| 0 <= j < |r| && r[j] == c;
      assert order[j] in order;
    }
    forall c | exists i :: i in order && store[i] == c ensures c in r {
      var i :| i in order && store[i] == c;
      var j :| 0 <= j < |order| && order[j] == i;
      assert r[j] == c;
    }
  }

  /** No id occurs twice in `s`. */
  ghost predicate Once(s: seq<ClaimId>) {
    forall i :: multiset(s)[i] <= 1
  }

  /** Two sequences with the same multiset hold the same ids. */
  lemma SameIds(s: seq<ClaimId>, r: seq<ClaimId>)
    requires multiset(r) == multiset(s)
    ensures forall i :: i in r <==> i in s
  {
    forall i ensures i in r <==> i in s {
      assert i in r <==> i in multiset(r);
      assert i in s <==> i in multiset(s);
    }
  }

  /** Listing ids that occur once, each stored under itself, lists no claim
      twice. */
  lemma ListingOnce(store: ClaimStore, order: seq<ClaimId>)
    requires forall i :: i in order ==> i in store && store[i].id == i
    requires Once(order)
    ensures forall j, k :: 0 <= j < k < |order| ==> Listing(store, order)[j] != Listing(store, order)[k]
  {
    var r := Listing(store, order);
    forall j: nat, k: nat | j < k < |order| ensures r[j] != r[k] {
      OnceDistinct(order, j, k);
      assert order[j] in order && order[k] in order;
    }
  }

  /** In a sequence where no id occurs twice, different positions hold
      different ids. */
  lemma OnceDistinct(s: seq<ClaimId>, j: nat, k: nat)
    requires Once(s) && j < k < |s|
    ensures s[j] != s[k]
  {
    assert s == s[..k] + s[k..];
    assert s[j] in s[..k] && s[k] in s[k..];
    assert multiset(s)[s[k]] == multiset(s[..k])[s[k]] + multiset(s[k..])[s[k]];
  }

  /** The store's own order, used by find all and find by status: the ids
      below `n` of the claims that satisfy `keep`, in ascending order. */
  function IdsBelow(store: ClaimStore, n: nat, keep: Claim -> bool): (r: seq<ClaimId>)
    ensures forall i :: i in r <==> i < n && i in store && keep(store[i])
    ensures forall j, k :: 0 <= j < k < |r| ==> r[j] < r[k]
  {
    if n == 0 then []
    else
      var r := IdsBelow(store, n - 1, keep);
      assert forall k :: 0 <= k < |r| ==> r[k] < n - 1 by {
        forall k | 0 <= k < |r| ensures r[k] < n - 1 {
          assert r[k] in r;
        }
      }
      if n - 1 in store && keep(store[n - 1]) then r + [n - 1] else r
  }

  /** A strictly ascending sequence holds no id twice. */
  lemma {:induction false} AscendingOnce(s: seq<ClaimId>)
    requires forall j, k :: 0 <= j < k < |s| ==> s[j] < s[k]
    ensures Once(s)
  {
    if s != [] {
      var rest := s[1..];
      AscendingOnce(rest);
      assert s == [s[0]] + rest;
      assert s[0] !in rest by {
        forall k | 0 <= k < |rest| ensures rest[k] != s[0] {
          assert rest[k] == s[k + 1];
        }
      }
      assert multiset(s) == multiset{s[0]} + multiset(rest);
    }
  }

  /** Claim ids listed by creation time, newest first. */
  ghost predicate NewestFirst(store: ClaimStore, s: seq<ClaimId>)
    requires forall i :: i in s ==> i in store
  {
    forall j, k :: 0 <= j < k < |s| ==> store[s[j]].createdAt >= store[s[k]].createdAt
  }

  /** Every claim listed in `s` was created at `t` or before. */
  ghost predicate CreatedBy(store: ClaimStore, t: Timestamp, s: seq<ClaimId>)
    requires forall k :: k in s ==> k in store
  {
    forall k :: k in s ==> store[k].createdAt <= t
  }

  /** The head of a newest-first listing was created no earlier than the rest. */
  lemma HeadIsNewest(store: ClaimStore, s: seq<ClaimId>)
    requires s != [] && forall k :: k in s ==> k in store
    requires NewestFirst(store, s)
    ensures CreatedBy(store, store[s[0]].createdAt, s)
  {
    forall k | k in s ensures store[k].createdAt <= store[s[0]].createdAt {
      var j :| 0 <= j < |s| && s[j] == k;
    }
  }

  /** Dropping the head of a newest-first listing leaves one. */
  lemma NewestFirstTail(store: ClaimStore, s: seq<ClaimId>)
    requires s != [] && forall k :: k in s ==> k in store
    requires NewestFirst(store, s)
    ensures forall k :: k in s[1..] ==> k in store
    ensures NewestFirst(store, s[1..])
  {
    var tail := s[1..];
    forall k | k in tail ensures k in store {
      var j :| 0 <= j < |tail| && tail[j] == k;
      assert s[j + 1] == k;
    }
    forall j, k | 0 <= j < k < |tail| ensures store[tail[j]].createdAt >= store[tail[k]].createdAt {
      assert tail[j] == s[j + 1] && tail[k] == s[k + 1];
    }
  }

  /** Inserting a claim created by `t` into the tail of a listing created by
      `t` gives a listing created by `t`. */
  lemma CreatedByInsert(store: ClaimStore, t: Timestamp, i: ClaimId, s: seq<ClaimId>, r: seq<ClaimId>)
    requires s != [] && i in store && forall k :: k in s ==> k in store
    requires forall k :: k in r ==> k in store
    requires CreatedBy(store, t, s) && store[i].createdAt <= t
    requires multiset(r) == multiset(s[1..]) + multiset{i}
    ensures CreatedBy(store, t, r)
  {
    forall k | k in r ensures store[k].createdAt <= t {
      assert k in multiset(r);
      if k != i {
        assert k in multiset(s[1..]);
        var j :| 0 <= j < |s[1..]| && s[1..][j] == k;
        assert s[j + 1] == k;
      }
    }
  }

  /** A claim created no earlier than every claim of a newest-first listing
      can head it. */
  lemma NewestFirstCons(store: ClaimStore, x: ClaimId, s: seq<ClaimId>)
    requires x in store && forall k :: k in s ==> k in store
    requires NewestFirst(store, s)
    requires CreatedBy(store, store[x].createdAt, s)
    ensures NewestFirst(store, [x] + s)
  {
    var r := [x] + s;
    forall j, k | 0 <= j < k < |r| ensures store[r[j]].createdAt >= store[r[k]].createdAt {
      assert r[k] == s[k - 1] && s[k - 1] in s;
      if j > 0 {
        assert r[j] == s[j - 1];
      }
    }
  }

  /** Inserts `i` into a newest-first listing, ahead of the first claim
      created before it. */
  function InsertNewest(store: ClaimStore, i: ClaimId, s: seq<ClaimId>): (r: seq<ClaimId>)
    requires i in store && forall k :: k in s ==> k in store
    requires NewestFirst(store, s)
    ensures multiset(r) == multiset(s) + multiset{i}
    ensures forall k :: k in r ==> k in store
    ensures NewestFirst(store, r)
  {
    if s == [] then [i]
    else if store[i].createdAt > store[s[0]].createdAt then
      HeadIsNewest(store, s);
      NewestFirstCons(store, i, s);
      [i] + s
    else
      NewestFirstTail(store, s);
      var rest := InsertNewest(store, i, s[1..]);
      assert s == [s[0]] + s[1..];
      HeadIsNewest(store, s);
      CreatedByInsert(store, store[s[0]].createdAt, i, s, rest);
      NewestFirstCons(store, s[0], rest);
      [s[0]] + rest
  }

  /** Sorts claim ids by creation time, newest first (the owner's listing). */
  function SortNewestFirst(store: ClaimStore, s: seq<ClaimId>): (r: seq<ClaimId>)
    requires forall k :: k in s ==> k in store
    ensures multiset(r) == multiset(s)
    ensures forall k :: k in r ==> k in store
    ensures NewestFirst(store, r)
  {
    if s == [] then []
    else
      assert s == [s[0]] + s[1..];
      InsertNewest(store, s[0], SortNewestFirst(store, s[1..]))
  }
}
