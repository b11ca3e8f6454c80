/**
 * The fundraising-post store: the post list merged from `localStorage` and the demo posts,
 * the set of liked post ids, likes persistence, post creation and donation totals.
 */
module OrganizationPostsContext {
  import opened Wrappers
  import opened Storage
  import opened Seqs
  import opened StableSort
  import opened LikedIds
  import opened Strings

  datatype OrganizationPost = OrganizationPost(
    id: string,
    organizationId: string,
    organizationName: string,
    organizationLogoUrl: Option<string>,
    title: string,
    description: string,
    goalAmount: Option<real>,
    currentAmount: real,
    imageUrl: Option<string>,
    createdAt: int,  // milliseconds since the epoch
    category: Option<string>,
    tags: seq<string>)

  /** The default demo posts that appear for everyone (dates as if the local time zone were UTC). */
  const DemoPosts: seq<OrganizationPost> := seq(8, DemoPost)

  /** The demo post at position `k` of the list. */
  function DemoPost(k: int): OrganizationPost {
    if k == 0 then
      OrganizationPost(
        "demo_post_1", "org_clean_water", "Clean Water Now",
        Some("https://images.pexels." + "com/photos/4618245/pex" + "els-photo-4618245.jpeg"),
        "Help Us Build 10 " + "New Wells in Rural " + "Uganda",
        "We need your support " + "to bring clean, " + "safe drinking water " + "to 5,000 people " +
          "in rural Uganda. " + "Each well costs " + "$2,500 and serves " + "an entire village. " +
          "Your donation will " + "help us reach our " + "goal of building " + "10 new wells this " +
          "quarter.",
        Some(25000.0), 8750.0, None, 1727740800000, Some("Health"),
        ["water", "africa", "health", "community"])
    else if k == 1 then
      OrganizationPost(
        "demo_post_2", "org_coding_kids", "Code For Kids",
        Some("https://images.pexels." + "com/photos/1181675/pex" + "els-photo-1181675.jpeg"),
        "Laptops for Oakland " + "Students",
        "Help us provide " + "50 laptops to students" + " in Oakland who " + "don't have access " +
          "to computers at " + "home. These laptops " + "will enable students " + "to participate in " +
          "our coding programs " + "and complete their " + "schoolwork.",
        Some(15000.0), 6200.0, None, 1727913600000, Some("Education"),
        ["education", "technology", "youth", "oakland"])
    else if k == 2 then
      OrganizationPost(
        "demo_post_3", "org_tree_alliance", "Urban Tree Alliance",
        Some("https://images.pexels." + "com/photos/1131407/pex" + "els-photo-1131407.jpeg"),
        "Plant 1,000 Trees " + "in S\U{E3}o Paulo",
        "Join us in greening " + "S\U{E3}o Paulo! We're " + "planting 1,000 trees " +
          "in low-canopy neighbor" + "hoods to reduce " + "heat islands and " +
          "improve air quality. " + "Each tree costs " + "$25 to plant and " + "maintain.",
        Some(25000.0), 18250.0, None, 1728086400000, Some("Environment"),
        ["trees", "climate", "urban", "brazil"])
    else if k == 3 then
      OrganizationPost(
        "demo_post_4", "org_emergency_relief", "Rapid Relief Fund",
        Some("https://images.pexels." + "com/photos/6646912/pex" + "els-photo-6646912.jpeg"),
        "Emergency Relief " + "for Flood Victims",
        "Recent floods have " + "displaced thousands " + "of families. We " + "need immediate funds " +
          "to provide food, " + "shelter, and emergency" + " supplies. Every " + "dollar helps us " +
          "reach more families " + "in need.",
        Some(50000.0), 34200.0, None, 1728259200000, Some("Emergency Relief"),
        ["disaster", "emergency", "floods", "relief"])
    else if k == 4 then
      OrganizationPost(
        "demo_post_5", "org_clean_water", "Clean Water Now",
        Some("https://images.pexels." + "com/photos/4618245/pex" + "els-photo-4618245.jpeg"),
        "Water Filtration " + "Systems for Schools",
        "We're installing " + "water filtration " + "systems in 20 schools " + "across rural areas. " +
          "This will ensure " + "children have access " + "to clean water during " +
          "school hours and " + "reduce waterborne " + "illnesses.",
        Some(12000.0), 4800.0, None, 1728518400000, Some("Health"),
        ["water", "schools", "children", "health"])
    else if k == 5 then
      OrganizationPost(
        "demo_post_6", "org_coding_kids", "Code For Kids",
        Some("https://images.pexels." + "com/photos/1181675/pex" + "els-photo-1181675.jpeg"),
        "Summer Coding Camp " + "Scholarships",
        "Help us provide " + "30 full scholarships " + "for our summer coding " +
          "camp. This intensive " + "program teaches " + "kids programming " + "fundamentals and " +
          "helps them build " + "their first apps.",
        Some(9000.0), 3150.0, None, 1728691200000, Some("Education"),
        ["education", "coding", "summer", "scholarships"])
    else if k == 6 then
      OrganizationPost(
        "demo_post_7", "org_tree_alliance", "Urban Tree Alliance",
        Some("https://images.pexels." + "com/photos/1131407/pex" + "els-photo-1131407.jpeg"),
        "Community Garden " + "Initiative",
        "We're creating 5 " + "new community gardens " + "in underserved neighbo" +
          "rhoods. These gardens " + "will provide fresh " + "produce and green " +
          "spaces for communities" + " while teaching " + "sustainable gardening " + "practices.",
        Some(18000.0), 11250.0, None, 1728864000000, Some("Environment"),
        ["gardening", "community", "sustainability", "food"])
    else
      OrganizationPost(
        "demo_post_8", "org_emergency_relief", "Rapid Relief Fund",
        Some("https://images.pexels." + "com/photos/6646912/pex" + "els-photo-6646912.jpeg"),
        "Winter Shelter Program",
        "As winter approaches, " + "we need funds to " + "provide warm shelter " + "and supplies for " +
          "families experiencing " + "homelessness. Your " + "donation will help " +
          "us keep people safe " + "and warm during " + "the cold months.",
        Some(30000.0), 18900.0, None, 1729036800000, Some("Emergency Relief"),
        ["homelessness", "winter", "shelter", "warmth"])
  }

  const DemoPostIdList: seq<string> := [
    "demo_post_1", "demo_post_2", "demo_post_3", "demo_post_4",
    "demo_post_5", "demo_post_6", "demo_post_7", "demo_post_8"
  ]

  // The demo posts' ids, two posts at a time.
  lemma DemoPostIdsAt01(k: int) requires 0 <= k < 2 ensures DemoPost(k).id == DemoPostIdList[k] {}
  lemma DemoPostIdsAt23(k: int) requires 2 <= k < 4 ensures DemoPost(k).id == DemoPostIdList[k] {}
  lemma DemoPostIdsAt45(k: int) requires 4 <= k < 6 ensures DemoPost(k).id == DemoPostIdList[k] {}
  lemma DemoPostIdsAt67(k: int) requires 6 <= k < 8 ensures DemoPost(k).id == DemoPostIdList[k] {}

  lemma DemoPostIds()
    ensures forall k :: 0 <= k < 8 ==> DemoPost(k).id == DemoPostIdList[k]
  {
    forall k | 0 <= k < 8
      ensures DemoPost(k).id == DemoPostIdList[k]
    {
      if k < 2 {
        DemoPostIdsAt01(k);
      } else if k < 4 {
        DemoPostIdsAt23(k);
      } else if k < 6 {
        DemoPostIdsAt45(k);
      } else {
        DemoPostIdsAt67(k);
      }
    }
  }

  predicate DistinctIds(ps: seq<OrganizationPost>) {
    forall i, j :: 0 <= i < j < |ps| ==> ps[i].id != ps[j].id
  }

  /** No two demo posts share an id. */
  lemma DemoPostIdsAreDistinct()
    ensures DistinctIds(DemoPosts)
  {
    DemoPostIds();
    DemoPostIdListIsDistinct();
    forall i, j | 0 <= i < j < |DemoPosts|
      ensures DemoPosts[i].id != DemoPosts[j].id
    {
      assert DemoPosts[i] == DemoPost(i) && DemoPosts[j] == DemoPost(j);
    }
  }

  lemma DemoPostIdListIsDistinct()
    ensures forall i, j :: 0 <= i < j < |DemoPostIdList| ==> DemoPostIdList[i] != DemoPostIdList[j]
  {
    forall i, j | 0 <= i < j < |DemoPostIdList|
      ensures DemoPostIdList[i] != DemoPostIdList[j]
    {
      assert DemoPostIdList[i][10] != DemoPostIdList[j][10];
    }
  }

  /** Whether `id` is the id of a demo post. */
  predicate IsDemoId(id: string) {
    exists k :: 0 <= k < 8 && DemoPost(k).id == id
  }

  predicate IsUserPost(p: OrganizationPost) {
    !IsDemoId(p.id)
  }

  function CreatedAt(p: OrganizationPost): real {
    p.createdAt as real
  }

  /** The stored posts that are not demo posts, followed by the demo posts, newest first. */
  function MergeWithDemo(stored: seq<OrganizationPost>): (r: seq<OrganizationPost>)
    ensures SortedDesc(r, CreatedAt)
    ensures |r| == |Filter(stored, IsUserPost)| + |DemoPosts|
    ensures multiset(r) == multiset(Filter(stored, IsUserPost)) + multiset(DemoPosts)
  {
    SortDesc(Filter(stored, IsUserPost) + DemoPosts, CreatedAt)
  }

  /** Every demo post is in the merged list as often as in the fixture, whatever storage held. */
  lemma MergeKeepsDemoPosts(stored: seq<OrganizationPost>, d: OrganizationPost)
    requires d in DemoPosts
    ensures multiset(MergeWithDemo(stored))[d] == multiset(DemoPosts)[d]
  {
    assert !IsUserPost(d);
    FilterCount(stored, IsUserPost, d);
  }

  /** Every demo post is in the merged list exactly once. */
  lemma MergeHoldsEachDemoPostOnce(stored: seq<OrganizationPost>, i: int)
    requires 0 <= i < |DemoPosts|
    ensures multiset(MergeWithDemo(stored))[DemoPosts[i]] == 1
  {
    MergeKeepsDemoPosts(stored, DemoPosts[i]);
    DemoPostIdsAreDistinct();
    assert DistinctKeys(DemoPosts, (x: OrganizationPost) => x.id);
    DistinctKeysOccurOnce(DemoPosts, (x: OrganizationPost) => x.id, i);
  }

  /** A post with a non-demo id is in the merged list as often as it was stored. */
  lemma MergeKeepsUserPosts(stored: seq<OrganizationPost>, p: OrganizationPost)
    requires IsUserPost(p)
    ensures multiset(MergeWithDemo(stored))[p] == multiset(stored)[p]
  {
    assert p !in DemoPosts;
    FilterCount(stored, IsUserPost, p);
  }

  /**
   * A stored post carrying a demo id (say a demo post whose `currentAmount` grew) is dropped:
   * every merged post with a demo id is the fixture's post.
   */
  lemma MergeResetsDemoPosts(stored: seq<OrganizationPost>, p: OrganizationPost)
    requires p in MergeWithDemo(stored) && IsDemoId(p.id)
    ensures p in DemoPosts
  {
    FilterCount(stored, IsUserPost, p);
    assert multiset(Filter(stored, IsUserPost))[p] == 0;
    assert multiset(DemoPosts)[p] == multiset(MergeWithDemo(stored))[p] > 0;
  }

  /** The mount effect's post list: a key that is missing or does not parse contributes no posts. */
  function LoadPosts(key: Stored<seq<OrganizationPost>>): seq<OrganizationPost> {
    MergeWithDemo(StoredPosts(key))
  }

  /** The posts `localStorage` holds; a missing key or one that does not parse holds none. */
  function StoredPosts(key: Stored<seq<OrganizationPost>>): seq<OrganizationPost> {
    match key
    case Present(ps) => ps
    case _ => []
  }

  /** The merged list always holds the demo posts, so it is never empty and is always written back. */
  lemma LoadedPostsAreNeverEmpty(key: Stored<seq<OrganizationPost>>)
    ensures |LoadPosts(key)| >= |DemoPosts| == 8
  {
  }

  /** The posts effect: a non-empty list is written, demo posts included; an empty one writes nothing. */
  function SavePosts(key: Stored<seq<OrganizationPost>>, posts: seq<OrganizationPost>): Stored<seq<OrganizationPost>> {
    if |posts| > 0 then Present(posts) else key
  }

  /** The likes effect: a non-empty set is written; an empty set writes nothing and leaves the key as it was. */
  function SaveLikes(key: Stored<set<string>>, likes: set<string>): Stored<set<string>> {
    if |likes| > 0 then Present(likes) else key
  }

  /**
   * Because an empty set is never written, un-liking the last liked post is lost on the next
   * mount: the key still holds the previous set.
   */
  lemma UnlikingLastPostIsNotPersisted(id: string)
    ensures var key := SaveLikes(Missing, {id});
            var liked := Toggle({id}, id);
            liked == {} && LoadLikes(SaveLikes(key, liked)) == {id}
  {
    assert |{id}| == 1;
  }

  /** `createPost`: the draft with the id `post_{now}`, created at `now`, with nothing raised yet. */
  function NewPost(draft: OrganizationPost, now: nat): (r: OrganizationPost)
    ensures r == draft.(id := r.id, createdAt := now, currentAmount := 0.0)
    ensures r.id == "post_" + NatToDecimal(now)
  {
    draft.(id := "post_" + NatToDecimal(now), createdAt := now, currentAmount := 0.0)
  }

  /** A created post never carries a demo id: those start with `demo_`. */
  lemma NewPostIsNotDemo(draft: OrganizationPost, now: nat)
    ensures IsUserPost(NewPost(draft, now))
  {
    var id := NewPost(draft, now).id;
    assert id == "post_" + NatToDecimal(now);
    assert id[0] == 'p';
    DemoIdsStartWithD();
  }

  lemma DemoIdsStartWithD()
    ensures forall k :: 0 <= k < 8 ==> |DemoPost(k).id| > 0 && DemoPost(k).id[0] == 'd'
  {
    DemoPostIds();
    forall k | 0 <= k < 8
      ensures |DemoPostIdList[k]| > 0 && DemoPostIdList[k][0] == 'd'
    {
    }
  }

  /** A created post is in the list the next mount loads from what the provider saved. */
  lemma CreatedPostSurvivesReload(draft: OrganizationPost, now: nat, posts: seq<OrganizationPost>)
    ensures NewPost(draft, now) in LoadPosts(Present([NewPost(draft, now)] + posts))
  {
    var p := NewPost(draft, now);
    NewPostIsNotDemo(draft, now);
    MergeKeepsUserPosts([p] + posts, p);
    assert ([p] + posts)[0] == p;
  }

  /** `donateToPost`: adds `amount` to every post with id `id`. */
  function WithDonation(posts: seq<OrganizationPost>, id: string, amount: real): (r: seq<OrganizationPost>)
    ensures |r| == |posts|
    ensures forall i :: 0 <= i < |r| ==> r[i] == if posts[i].id == id then posts[i].(currentAmount := posts[i].currentAmount + amount) else posts[i]
  {
    if posts == [] then []
    else
      [if posts[0].id == id then posts[0].(currentAmount := posts[0].currentAmount + amount) else posts[0]]
      + WithDonation(posts[1..], id, amount)
  }

  function TotalRaised(posts: seq<OrganizationPost>): real {
    if posts == [] then 0.0 else posts[0].currentAmount + TotalRaised(posts[1..])
  }

  function CountId(posts: seq<OrganizationPost>, id: string): nat {
    if posts == [] then 0 else (if posts[0].id == id then 1 else 0) + CountId(posts[1..], id)
  }

  /** A donation raises the total over all posts by the amount once per post carrying the id. */
  lemma {:induction false} WithDonationTotal(posts: seq<OrganizationPost>, id: string, amount: real)
    ensures TotalRaised(WithDonation(posts, id, amount)) == TotalRaised(posts) + amount * CountId(posts, id) as real
  {
    if posts != [] {
      var w := WithDonation(posts, id, amount);
      WithDonationTotal(posts[1..], id, amount);
      assert w[1..] == WithDonation(posts[1..], id, amount);
      var hit := if posts[0].id == id then 1 else 0;
      assert w[0].currentAmount == posts[0].currentAmount + amount * hit as real;
      var n := CountId(posts[1..], id) as real;
      assert amount * (hit as real + n) == amount * hit as real + amount * n;
    }
  }

  /** The provider's state, with the two `localStorage` keys it owns. */
  class PostsProvider {
    var posts: seq<OrganizationPost>
    var likedPostIds: set<string>
    var donationRefreshTrigger: int
    var storedPosts: Stored<seq<OrganizationPost>>
    var storedLikes: Stored<set<string>>

    /** Mounting: the load effect, then the two save effects on the loaded state. */
    constructor (postsKey: Stored<seq<OrganizationPost>>, likesKey: Stored<set<string>>)
      ensures posts == LoadPosts(postsKey) && |posts| >= |DemoPosts|
      ensures likedPostIds == LoadLikes(likesKey)
      ensures donationRefreshTrigger == 0
      ensures storedPosts == Present(posts)
      ensures storedLikes == SaveLikes(likesKey, likedPostIds)
    {
      var loaded := LoadPosts(postsKey);
      LoadedPostsAreNeverEmpty(postsKey);
      var liked := LoadLikes(likesKey);
      var postsSaved := SavePosts(postsKey, loaded);
      assert postsSaved == Present(loaded);
      var likesSaved := SaveLikes(likesKey, liked);
      posts, likedPostIds, donationRefreshTrigger := loaded, liked, 0;
      storedPosts, storedLikes := postsSaved, likesSaved;
    }

    function IsLiked(id: string): bool
      reads this
    {
      id in likedPostIds
    }

    method ToggleLike(id: string)
      modifies this
      ensures likedPostIds == Toggle(old(likedPostIds), id)
      ensures IsLiked(id) <==> !old(IsLiked(id))
      ensures forall other :: other != id ==> (IsLiked(other) <==> old(IsLiked(other)))
      ensures storedLikes == SaveLikes(old(storedLikes), likedPostIds)
      ensures posts == old(posts) && storedPosts == old(storedPosts)
      ensures donationRefreshTrigger == old(donationRefreshTrigger)
    {
      likedPostIds := Toggle(likedPostIds, id);
      storedLikes := SaveLikes(storedLikes, likedPostIds);
    }

    /** `createPost`, with `now` standing for `Date.now()` and `new Date()`. */
    method CreatePost(draft: OrganizationPost, now: nat)
      modifies this
      ensures posts == [NewPost(draft, now)] + old(posts) && IsUserPost(posts[0])
      ensures posts[0].currentAmount == 0.0 && posts[1..] == old(posts)
      ensures storedPosts == Present(posts)
      ensures likedPostIds == old(likedPostIds) && storedLikes == old(storedLikes)
      ensures donationRefreshTrigger == old(donationRefreshTrigger)
    {
      NewPostIsNotDemo(draft, now);
      posts := [NewPost(draft, now)] + posts;
      storedPosts := SavePosts(storedPosts, posts);
    }

    method DonateToPost(id: string, amount: real)
      modifies this
      ensures posts == WithDonation(old(posts), id, amount)
      ensures donationRefreshTrigger == old(donationRefreshTrigger) + 1
      ensures storedPosts == SavePosts(old(storedPosts), posts)
      ensures likedPostIds == old(likedPostIds) && storedLikes == old(storedLikes)
    {
      posts := WithDonation(posts, id, amount);
      donationRefreshTrigger := donationRefreshTrigger + 1;
      storedPosts := SavePosts(storedPosts, posts);
    }
  }
}
