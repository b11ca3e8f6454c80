/**
 * The record of which posts a user has donated to, kept under one `localStorage` key as a list of
 * `UserPostDonation` records. The key's content is a `Stored` value: missing (or the empty
 * string), not parseable, or a parsed list.
 */
module UserDonationsService {
  import opened Storage
  import opened Seqs

  /** One donation to a post; `donatedAt` is a timestamp in milliseconds. */
  datatype UserPostDonation = UserPostDonation(userId: string, postId: string, amount: real, donatedAt: int)

  /** The records of `userId` among `all`, `d => d.userId === userId`. */
  function OfUser(all: seq<UserPostDonation>, userId: string): (r: seq<UserPostDonation>)
    ensures |r| <= |all|
    ensures forall i :: 0 <= i < |r| ==> r[i].userId == userId
  {
    if all == [] then []
    else (if all[0].userId == userId then [all[0]] else []) + OfUser(all[1..], userId)
  }

  /** Each record of the user is kept as often as it is stored, and every other record is dropped. */
  lemma {:induction false} OfUserCount(all: seq<UserPostDonation>, userId: string, d: UserPostDonation)
    ensures multiset(OfUser(all, userId))[d] == if d.userId == userId then multiset(all)[d] else 0
  {
    if all != [] {
      OfUserCount(all[1..], userId, d);
      assert all == [all[0]] + all[1..];
    }
  }

  /** Selecting distributes over concatenation, so the stored order is kept. */
  lemma {:induction false} OfUserAppend(a: seq<UserPostDonation>, b: seq<UserPostDonation>, userId: string)
    ensures OfUser(a + b, userId) == OfUser(a, userId) + OfUser(b, userId)
  {
    if a == [] {
      assert a + b == b;
    } else {
      assert (a + b)[1..] == a[1..] + b;
      OfUserAppend(a[1..], b, userId);
    }
  }

  /** `getUserDonations(userId)`: nothing when the key is missing or does not parse. */
  function UserDonations(stored: Stored<seq<UserPostDonation>>, userId: string): seq<UserPostDonation> {
    match stored
    case Present(all) => OfUser(all, userId)
    case _ => []
  }

  lemma UserDonationsWithoutRecords(stored: Stored<seq<UserPostDonation>>, userId: string)
    requires !stored.Present?
    ensures UserDonations(stored, userId) == []
  {
  }

  /** The key after `recordDonation` appends `d`: a missing key starts a new list; a key that does not parse is left alone. */
  function Recorded(stored: Stored<seq<UserPostDonation>>, d: UserPostDonation): (r: Stored<seq<UserPostDonation>>)
    ensures stored.Corrupt? <==> r.Corrupt?
    ensures stored.Present? ==> r == Present(stored.value + [d])
    ensures stored.Missing? ==> r == Present([d])
  {
    match stored
    case Missing => Present([d])
    case Corrupt => Corrupt
    case Present(all) => Present(all + [d])
  }

  /** After a successful recording, the user's donations are the earlier ones followed by the new one. */
  lemma RecordedDonationIsLast(stored: Stored<seq<UserPostDonation>>, d: UserPostDonation)
    requires !stored.Corrupt?
    ensures UserDonations(Recorded(stored, d), d.userId) == UserDonations(stored, d.userId) + [d]
  {
    match stored
    case Missing =>
      assert [d][1..] == [];
    case Present(all) =>
      OfUserAppend(all, [d], d.userId);
      assert [d][1..] == [];
  }

  /** Recording for one user does not change what another user has donated. */
  lemma RecordedKeepsOtherUsers(stored: Stored<seq<UserPostDonation>>, d: UserPostDonation, userId: string)
    requires userId != d.userId
    ensures UserDonations(Recorded(stored, d), userId) == UserDonations(stored, userId)
  {
    match stored
    case Missing =>
      assert [d][1..] == [];
    case Corrupt =>
    case Present(all) =>
      OfUserAppend(all, [d], userId);
      assert [d][1..] == [];
  }

  /** The `userPostDonations` key, changed by `recordDonation`. */
  class DonationLedger {
    var stored: Stored<seq<UserPostDonation>>

    constructor (initial: Stored<seq<UserPostDonation>>)
      ensures stored == initial
    {
      stored := initial;
    }

    /** `recordDonation(userId, postId, amount)`, with the clock reading `now` standing for `new Date()`. */
    method RecordDonation(userId: string, postId: string, amount: real, now: int)
      modifies this
      ensures stored == Recorded(old(stored), UserPostDonation(userId, postId, amount, now))
      ensures old(stored).Present? ==> stored.value[..|old(stored).value|] == old(stored).value
    {
      var newDonation := UserPostDonation(userId, postId, amount, now);
      match stored
      case Missing =>
        stored := Present([newDonation]);
      case Corrupt =>
      case Present(allDonations) =>
        stored := Present(allDonations + [newDonation]);
    }
  }

  // ---------------------------------------------------------------------------------------
  // Distinct donated post ids

  predicate NoDuplicates<T(==)>(s: seq<T>) {
    forall i, j :: 0 <= i < j < |s| ==> s[i] != s[j]
  }

  /** `[...new Set(xs)]`: each value once, at the place it first occurs. */
  function Dedupe<T(==,!new)>(xs: seq<T>): (r: seq<T>)
    ensures NoDuplicates(r)
    ensures forall x :: x in r <==> x in xs
  {
    if xs == [] then []
    else
      var p := Dedupe(xs[..|xs| - 1]);
      var x := xs[|xs| - 1];
      assert xs == xs[..|xs| - 1] + [x];
      if x in p then p else p + [x]
  }

  /** Values come out in the order of their first occurrences. */
  lemma {:induction false} DedupeFirstOccurrenceOrder<T(!new)>(xs: seq<T>)
    ensures forall i, j :: 0 <= i < j < |Dedupe(xs)| ==> IndexOf(xs, Dedupe(xs)[i]) < IndexOf(xs, Dedupe(xs)[j])
  {
    if xs != [] {
      var pre := xs[..|xs| - 1];
      var x := xs[|xs| - 1];
      var p := Dedupe(pre);
      DedupeFirstOccurrenceOrder(pre);
      assert xs == pre + [x];
      forall i | 0 <= i < |p|
        ensures IndexOf(xs, p[i]) == IndexOf(pre, p[i])
      {
        IndexOfExtend(pre, x, p[i]);
      }
      if x !in p {
        assert IndexOf(xs, x) == |pre|;
        forall i | 0 <= i < |p|
          ensures IndexOf(xs, p[i]) < |pre|
        {
        }
      }
    }
  }

  function PostIds(ds: seq<UserPostDonation>): (r: seq<string>)
    ensures |r| == |ds| && forall i :: 0 <= i < |ds| ==> r[i] == ds[i].postId
  {
    seq(|ds|, i requires 0 <= i < |ds| => ds[i].postId)
  }

  /** `getDonatedPostIds(userId)`. */
  function DonatedPostIds(stored: Stored<seq<UserPostDonation>>, userId: string): seq<string> {
    Dedupe(PostIds(UserDonations(stored, userId)))
  }

  /** No id is listed twice, and an id is listed exactly when some record of the user carries it. */
  lemma DonatedPostIdsAreTheUsersPosts(stored: Stored<seq<UserPostDonation>>, userId: string, id: string)
    ensures NoDuplicates(DonatedPostIds(stored, userId))
    ensures id in DonatedPostIds(stored, userId) <==>
      stored.Present? && exists d :: d in stored.value && d.userId == userId && d.postId == id
  {
    var ds := UserDonations(stored, userId);
    if stored.Present? {
      if id in DonatedPostIds(stored, userId) {
        var i :| 0 <= i < |ds| && ds[i].postId == id;
        OfUserCount(stored.value, userId, ds[i]);
        assert ds[i] in stored.value;
      }
      if d :| d in stored.value && d.userId == userId && d.postId == id {
        OfUserCount(stored.value, userId, d);
        assert d in ds;
        var i :| 0 <= i < |ds| && ds[i] == d;
        assert PostIds(ds)[i] == id;
      }
    }
  }

  /** Once a recording succeeds, the post is among the user's donated posts. */
  lemma RecordedPostIsDonated(stored: Stored<seq<UserPostDonation>>, userId: string, postId: string, amount: real, now: int)
    requires !stored.Corrupt?
    ensures postId in DonatedPostIds(Recorded(stored, UserPostDonation(userId, postId, amount, now)), userId)
  {
    var d := UserPostDonation(userId, postId, amount, now);
    RecordedDonationIsLast(stored, d);
    var ds := UserDonations(Recorded(stored, d), userId);
    assert ds[|ds| - 1] == d;
    assert PostIds(ds)[|ds| - 1] == postId;
  }
}
