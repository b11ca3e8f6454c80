/**
 * The donation feed store: the demo donations merged with the donations kept in `localStorage`,
 * the set of liked donation ids, and the two storage keys the store writes back.
 */
module DonationsContext {
  import opened Storage
  import opened Seqs
  import opened StableSort
  import opened Strings
  import opened LikedIds
  import opened DemoData

  /** `demoDonationIds.has(id)`. */
  predicate IsDemoId(id: string) {
    exists k :: 0 <= k < |DemoDonations()| && DemoDonations()[k].id == id
  }

  predicate IsUserDonation(d: Donation) {
    !IsDemoId(d.id)
  }

  function CreatedAt(d: Donation): real {
    d.createdAt as real
  }

  /** The demo donations followed by the stored donations that do not carry a demo id, newest first. */
  function MergeWithDemo(stored: seq<Donation>): (r: seq<Donation>)
    ensures SortedDesc(r, CreatedAt)
    ensures |r| == |DemoDonations()| + |Filter(stored, IsUserDonation)|
    ensures multiset(r) == multiset(DemoDonations()) + multiset(Filter(stored, IsUserDonation))
  {
    SortDesc(DemoDonations() + Filter(stored, IsUserDonation), CreatedAt)
  }

  /** The mount effect's donation list: a key that is missing or does not parse contributes nothing. */
  function LoadDonations(key: Stored<seq<Donation>>): seq<Donation> {
    MergeWithDemo(StoredDonations(key))
  }

  /** The donations `localStorage` holds; a missing key or one that does not parse holds none. */
  function StoredDonations(key: Stored<seq<Donation>>): seq<Donation> {
    match key
    case Present(ds) => ds
    case _ => []
  }

  predicate DistinctIds(ds: seq<Donation>) {
    forall i, j :: 0 <= i < j < |ds| ==> ds[i].id != ds[j].id
  }

  /** Each demo donation is in the merged list exactly once, whatever storage held. */
  lemma MergeHoldsEachDemoDonationOnce(stored: seq<Donation>, k: int)
    requires 0 <= k < |DemoDonations()|
    ensures multiset(MergeWithDemo(stored))[DemoDonations()[k]] == 1
  {
    var d := DemoDonations()[k];
    assert !IsUserDonation(d);
    FilterCount(stored, IsUserDonation, d);
    DemoDonationIdsAreDistinct();
    assert DistinctKeys(DemoDonations(), (x: Donation) => x.id);
    DistinctKeysOccurOnce(DemoDonations(), (x: Donation) => x.id, k);
  }

  /** A donation with a non-demo id is in the merged list as often as it was stored. */
  lemma MergeKeepsUserDonations(stored: seq<Donation>, d: Donation)
    requires IsUserDonation(d)
    ensures multiset(MergeWithDemo(stored))[d] == multiset(stored)[d]
  {
    assert d !in DemoDonations();
    FilterCount(stored, IsUserDonation, d);
  }

  /** The donations effect: the non-demo donations are written, and the key is removed when there are none. */
  function SaveDonations(donations: seq<Donation>): (r: Stored<seq<Donation>>)
    ensures r.Missing? || r.Present?
    ensures r.Present? ==> |r.value| > 0 && forall i :: 0 <= i < |r.value| ==> !IsDemoId(r.value[i].id)
  {
    var userDonations := Filter(donations, IsUserDonation);
    if |userDonations| > 0 then Present(userDonations) else Missing
  }

  /** The key is removed exactly when no donation outside the demo set remains. */
  lemma SavedKeyIsRemovedWhenOnlyDemo(donations: seq<Donation>)
    ensures SaveDonations(donations).Missing? <==> forall i :: 0 <= i < |donations| ==> IsDemoId(donations[i].id)
  {
    if SaveDonations(donations).Missing? {
      forall i | 0 <= i < |donations|
        ensures IsDemoId(donations[i].id)
      {
        FilterMembers(donations, IsUserDonation, donations[i]);
      }
    } else {
      var u := SaveDonations(donations).value;
      FilterMembers(donations, IsUserDonation, u[0]);
    }
  }

  /** The likes effect: a non-empty set is written and an empty set removes the key. */
  function SaveLikes(likes: set<string>): (r: Stored<set<string>>)
    ensures r == Missing <==> likes == {}
    ensures r.Present? ==> r.value == likes
  {
    if |likes| > 0 then Present(likes) else Missing
  }

  /** Whatever the likes are, they are read back unchanged on the next mount. */
  lemma LikesRoundTrip(likes: set<string>)
    ensures LoadLikes(SaveLikes(likes)) == likes
  {
  }

  /** `addDonation`: the draft with an id `donation_{now}_{suffix}` and the creation time. */
  function NewDonation(draft: Donation, now: nat, suffix: string): (r: Donation)
    ensures r == draft.(id := r.id, createdAt := now)
    ensures r.id == "donation_" + NatToDecimal(now) + "_" + suffix
  {
    draft.(id := "donation_" + NatToDecimal(now) + "_" + suffix, createdAt := now)
  }

  /** No created id collides with a demo id: the demo ids start with `don_`. */
  lemma NewDonationIsNotDemo(draft: Donation, now: nat, suffix: string)
    ensures IsUserDonation(NewDonation(draft, now, suffix))
  {
    var id := NewDonation(draft, now, suffix).id;
    var prefix := "donation_";
    assert id == prefix + (NatToDecimal(now) + "_" + suffix);
    assert id[3] == prefix[3] == 'a';
    forall k | 0 <= k < |DemoDonations()|
      ensures DemoDonations()[k].id != id
    {
      DemoDonationIds(k);
      assert DemoDonationIdList[k][3] == '_';
    }
  }

  /** The provider's state, with the two `localStorage` keys it owns. */
  class DonationsProvider {
    var donations: seq<Donation>
    var likedDonationIds: set<string>
    var storedDonations: Stored<seq<Donation>>
    var storedLikes: Stored<set<string>>

    /** Mounting: the load effect reads both keys, then the save effects write the loaded state back. */
    constructor (donationsKey: Stored<seq<Donation>>, likesKey: Stored<set<string>>)
      ensures donations == LoadDonations(donationsKey)
      ensures likedDonationIds == LoadLikes(likesKey)
      ensures storedDonations == SaveDonations(donations)
      ensures storedLikes == SaveLikes(likedDonationIds)
    {
      donations, likedDonationIds := LoadDonations(donationsKey), LoadLikes(likesKey);
      new;
      SaveEffects();
    }

    /** The two save effects: each key is written from the state it follows. */
    method SaveEffects()
      modifies this
      ensures storedDonations == SaveDonations(donations)
      ensures storedLikes == SaveLikes(likedDonationIds)
      ensures donations == old(donations) && likedDonationIds == old(likedDonationIds)
    {
      storedDonations, storedLikes := SaveDonations(donations), SaveLikes(likedDonationIds);
    }

    function IsLiked(id: string): bool
      reads this
    {
      id in likedDonationIds
    }

    method ToggleLike(id: string)
      modifies this
      ensures likedDonationIds == Toggle(old(likedDonationIds), id)
      ensures IsLiked(id) <==> !old(IsLiked(id))
      ensures forall other :: other != id ==> (IsLiked(other) <==> old(IsLiked(other)))
      ensures storedLikes == SaveLikes(likedDonationIds)
      ensures donations == old(donations) && storedDonations == old(storedDonations)
    {
      likedDonationIds := Toggle(likedDonationIds, id);
      storedLikes := SaveLikes(likedDonationIds);
    }

    /** `addDonation`, with `Date.now()` as `now` and the random part of the id as `suffix`. */
    method AddDonation(draft: Donation, now: nat, suffix: string)
      modifies this
      ensures donations == [NewDonation(draft, now, suffix)] + old(donations)
      ensures storedDonations == SaveDonations(donations)
      ensures storedDonations.Present? && storedDonations.value[0] == donations[0]
      ensures likedDonationIds == old(likedDonationIds) && storedLikes == old(storedLikes)
    {
      var newDonation := NewDonation(draft, now, suffix);
      NewDonationIsNotDemo(draft, now, suffix);
      donations := [newDonation] + donations;
      assert donations[1..] == old(donations);
      storedDonations := SaveDonations(donations);
    }
  }
}
