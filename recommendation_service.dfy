/**
 * Post recommendations: the embedding cache, the user's taste vector (the normalised mean of the
 * embeddings of the posts they donated to), and the ranking of the other posts by cosine
 * similarity to it. Calls that the source awaits run one after another.
 */
module RecommendationService {
  import opened Wrappers
  import opened Storage
  import opened Seqs
  import opened StableSort
  import opened OrganizationPostsContext
  import opened EmbeddingService
  import opened UserDonationsService

  datatype PostRecommendation = PostRecommendation(post: OrganizationPost, similarity: real)

  // ---------------------------------------------------------------------------------------
  // The embedding cache

  /** What `getPostEmbedding` yields: the cached vector for the post's id, else a fresh embedding of its text. */
  function Lookup(e: Embedder, sqrt: real -> real, cache: map<string, Vector>, post: OrganizationPost): Vector {
    if post.id in cache then cache[post.id] else EmbeddingSpec(e, EmbeddingText(post), sqrt)
  }

  /** The cache after `getPostEmbedding`: a miss stores the fresh embedding under the post's id. */
  function Remember(e: Embedder, sqrt: real -> real, cache: map<string, Vector>, post: OrganizationPost): (r: map<string, Vector>)
    ensures post.id in r && r[post.id] == Lookup(e, sqrt, cache, post)
    ensures forall k :: k in cache ==> k in r && r[k] == cache[k]
    ensures forall k :: k in r ==> k in cache || k == post.id
  {
    if post.id in cache then cache else cache[post.id := Lookup(e, sqrt, cache, post)]
  }

  /** The embeddings of `posts`, fetched one after another through the cache. */
  function EmbedAll(e: Embedder, sqrt: real -> real, cache: map<string, Vector>, posts: seq<OrganizationPost>): (r: seq<Vector>)
    ensures |r| == |posts|
  {
    if posts == [] then []
    else
      var pre := posts[..|posts| - 1];
      EmbedAll(e, sqrt, cache, pre) + [Lookup(e, sqrt, CacheAfter(e, sqrt, cache, pre), posts[|posts| - 1])]
  }

  function CacheAfter(e: Embedder, sqrt: real -> real, cache: map<string, Vector>, posts: seq<OrganizationPost>): map<string, Vector> {
    if posts == [] then cache
    else
      var pre := posts[..|posts| - 1];
      Remember(e, sqrt, CacheAfter(e, sqrt, cache, pre), posts[|posts| - 1])
  }

  /** Once an id is cached its vector never changes, so every post with that id gets the same vector. */
  lemma {:induction false} CacheAfterKeeps(e: Embedder, sqrt: real -> real, cache: map<string, Vector>, posts: seq<OrganizationPost>, k: string)
    requires k in cache
    ensures k in CacheAfter(e, sqrt, cache, posts) && CacheAfter(e, sqrt, cache, posts)[k] == cache[k]
  {
    if posts != [] {
      CacheAfterKeeps(e, sqrt, cache, posts[..|posts| - 1], k);
    }
  }

  /** The cache after fetching holds exactly the earlier keys and the ids of the fetched posts. */
  lemma {:induction false} CacheAfterKeys(e: Embedder, sqrt: real -> real, cache: map<string, Vector>, posts: seq<OrganizationPost>, k: string)
    ensures k in CacheAfter(e, sqrt, cache, posts) <==> k in cache || exists i :: 0 <= i < |posts| && posts[i].id == k
  {
    if posts != [] {
      var pre := posts[..|posts| - 1];
      CacheAfterKeys(e, sqrt, cache, pre, k);
      if exists i :: 0 <= i < |pre| && pre[i].id == k {
        var i :| 0 <= i < |pre| && pre[i].id == k;
        assert posts[i].id == k;
      }
      if i :| 0 <= i < |posts| && posts[i].id == k {
        if i < |pre| {
          assert pre[i].id == k;
        }
      }
    }
  }

  // ---------------------------------------------------------------------------------------
  // The taste vector

  function AddVectors(a: Vector, b: Vector): Vector {
    seq(FallbackDimension, i requires 0 <= i < FallbackDimension => a[i] + b[i])
  }

  /** The component-wise sum, as the `forEach` over the embeddings accumulates it. */
  function SumVectors(es: seq<Vector>): Vector {
    if es == [] then Zeros() else AddVectors(SumVectors(es[..|es| - 1]), es[|es| - 1])
  }

  /** Component `j` of the embeddings, added up first to last. */
  function ColumnSum(es: seq<Vector>, j: nat): real
    requires j < FallbackDimension
  {
    if es == [] then 0.0 else es[0][j] + ColumnSum(es[1..], j)
  }

  lemma {:induction false} ColumnSumAppend(es: seq<Vector>, v: Vector, j: nat)
    requires j < FallbackDimension
    ensures ColumnSum(es + [v], j) == ColumnSum(es, j) + v[j]
  {
    if es == [] {
      assert ([v])[1..] == [];
    } else {
      assert (es + [v])[1..] == es[1..] + [v];
      ColumnSumAppend(es[1..], v, j);
    }
  }

  lemma {:induction false} SumVectorsColumn(es: seq<Vector>, j: nat)
    requires j < FallbackDimension
    ensures SumVectors(es)[j] == ColumnSum(es, j)
  {
    if es != [] {
      var pre := es[..|es| - 1];
      SumVectorsColumn(pre, j);
      ColumnSumAppend(pre, es[|es| - 1], j);
      assert pre + [es[|es| - 1]] == es;
    }
  }

  /** The component-wise mean. */
  function Mean(es: seq<Vector>): Vector
    requires es != []
  {
    seq(FallbackDimension, i requires 0 <= i < FallbackDimension => SumVectors(es)[i] / |es| as real)
  }

  /** Each component of the mean is that component of every embedding, added up and divided by their number. */
  lemma MeanIsColumnAverage(es: seq<Vector>, j: nat)
    requires es != [] && j < FallbackDimension
    ensures Mean(es)[j] == ColumnSum(es, j) / |es| as real
  {
    SumVectorsColumn(es, j);
  }

  /** The mean divided by its magnitude when that is positive, else the mean itself. */
  function Taste(mean: Vector, sqrt: real -> real): Vector {
    var magnitude := sqrt(Dot(mean, mean));
    if magnitude > 0.0 then Normalize(mean, magnitude) else mean
  }

  lemma TasteIsUnit(mean: Vector, sqrt: real -> real)
    requires SqrtAt(sqrt, Dot(mean, mean)) && Dot(mean, mean) > 0.0
    ensures Dot(Taste(mean, sqrt), Taste(mean, sqrt)) == 1.0
  {
    PositiveRoot(sqrt, Dot(mean, mean));
    NormalizeIsUnit(mean, sqrt);
  }

  lemma TasteOfZeroMean(mean: Vector, sqrt: real -> real)
    requires forall i :: 0 <= i < FallbackDimension ==> mean[i] == 0.0
    requires SqrtAt(sqrt, 0.0)
    ensures Taste(mean, sqrt) == mean
  {
    DotZero(mean, mean);
    SqrtOfSquare(sqrt, 0.0);
  }

  /** `p => donatedPostIds.includes(p.id)`. */
  function DonatedIn(ids: seq<string>): OrganizationPost -> bool {
    (p: OrganizationPost) => p.id in ids
  }

  /** The posts of `allPosts` the taste vector is built from. */
  function DonatedPosts(stored: Stored<seq<UserPostDonation>>, userId: string, allPosts: seq<OrganizationPost>): seq<OrganizationPost> {
    Filter(allPosts, DonatedIn(DonatedPostIds(stored, userId)))
  }

  /** `getUserDonationEmbedding(userId, allPosts)`: `null` without donated ids or without a post that has one. */
  function TasteSpec(e: Embedder, sqrt: real -> real, cache: map<string, Vector>,
                     stored: Stored<seq<UserPostDonation>>, userId: string, allPosts: seq<OrganizationPost>): Option<Vector>
  {
    var posts := DonatedPosts(stored, userId, allPosts);
    if |DonatedPostIds(stored, userId)| == 0 || |posts| == 0 then None
    else Some(Taste(Mean(EmbedAll(e, sqrt, cache, posts)), sqrt))
  }

  function TasteCache(e: Embedder, sqrt: real -> real, cache: map<string, Vector>,
                      stored: Stored<seq<UserPostDonation>>, userId: string, allPosts: seq<OrganizationPost>): map<string, Vector>
  {
    var posts := DonatedPosts(stored, userId, allPosts);
    if |DonatedPostIds(stored, userId)| == 0 || |posts| == 0 then cache
    else CacheAfter(e, sqrt, cache, posts)
  }

  /** There is no taste vector exactly when no post of the catalogue carries an id the user donated to. */
  lemma TasteIsNull(e: Embedder, sqrt: real -> real, cache: map<string, Vector>,
                    stored: Stored<seq<UserPostDonation>>, userId: string, allPosts: seq<OrganizationPost>)
    ensures TasteSpec(e, sqrt, cache, stored, userId, allPosts).None? <==>
      forall i :: 0 <= i < |allPosts| ==> allPosts[i].id !in DonatedPostIds(stored, userId)
  {
    var ids := DonatedPostIds(stored, userId);
    var posts := DonatedPosts(stored, userId, allPosts);
    if |posts| == 0 {
      forall i | 0 <= i < |allPosts|
        ensures allPosts[i].id !in ids
      {
        FilterMembers(allPosts, DonatedIn(ids), allPosts[i]);
      }
    } else {
      FilterMembers(allPosts, DonatedIn(ids), posts[0]);
      var i :| 0 <= i < |allPosts| && allPosts[i] == posts[0];
      assert allPosts[i].id in ids;
    }
  }

  // ---------------------------------------------------------------------------------------
  // Scoring and selecting

  /** The candidates the loop of `getRecommendedPosts` pushes: every post whose id is not donated, scored, in catalogue order. */
  function Scored(e: Embedder, sqrt: real -> real, cache: map<string, Vector>, posts: seq<OrganizationPost>,
                  ids: seq<string>, taste: Vector): (r: seq<PostRecommendation>)
    ensures |r| <= |posts|
  {
    if posts == [] then []
    else
      var pre := posts[..|posts| - 1];
      var post := posts[|posts| - 1];
      var s := Scored(e, sqrt, cache, pre, ids, taste);
      if post.id in ids then s
      else s + [PostRecommendation(post, Cosine(taste, Lookup(e, sqrt, ScoredCache(e, sqrt, cache, pre, ids), post), sqrt))]
  }

  function ScoredCache(e: Embedder, sqrt: real -> real, cache: map<string, Vector>, posts: seq<OrganizationPost>,
                       ids: seq<string>): map<string, Vector>
  {
    if posts == [] then cache
    else
      var pre := posts[..|posts| - 1];
      var post := posts[|posts| - 1];
      var c := ScoredCache(e, sqrt, cache, pre, ids);
      if post.id in ids then c else Remember(e, sqrt, c, post)
  }

  function PostsOf(rs: seq<PostRecommendation>): (r: seq<OrganizationPost>)
    ensures |r| == |rs| && forall i :: 0 <= i < |rs| ==> r[i] == rs[i].post
  {
    seq(|rs|, i requires 0 <= i < |rs| => rs[i].post)
  }

  function NotDonated(ids: seq<string>): OrganizationPost -> bool {
    (p: OrganizationPost) => p.id !in ids
  }

  /** Every post whose id is not donated is scored exactly once, in catalogue order, and no other post is. */
  lemma {:induction false} ScoredPostsAreTheOthers(e: Embedder, sqrt: real -> real, cache: map<string, Vector>,
                                                   posts: seq<OrganizationPost>, ids: seq<string>, taste: Vector)
    ensures PostsOf(Scored(e, sqrt, cache, posts, ids, taste)) == Filter(posts, NotDonated(ids))
  {
    if posts != [] {
      var pre := posts[..|posts| - 1];
      var post := posts[|posts| - 1];
      ScoredPostsAreTheOthers(e, sqrt, cache, pre, ids, taste);
      ScoredStep(e, sqrt, cache, posts, ids, taste);
      assert posts == pre + [post];
      FilterAppend(pre, [post], NotDonated(ids));
    }
  }

  /** Scoring one more post adds it to the scored posts exactly when it is not donated. */
  lemma ScoredStep(e: Embedder, sqrt: real -> real, cache: map<string, Vector>,
                   posts: seq<OrganizationPost>, ids: seq<string>, taste: Vector)
    requires posts != []
    ensures PostsOf(Scored(e, sqrt, cache, posts, ids, taste))
            == PostsOf(Scored(e, sqrt, cache, posts[..|posts| - 1], ids, taste)) + Filter([posts[|posts| - 1]], NotDonated(ids))
  {
    var pre := posts[..|posts| - 1];
    var post := posts[|posts| - 1];
    var s := Scored(e, sqrt, cache, pre, ids, taste);
    assert [post][1..] == [];
    if post.id in ids {
      assert Filter([post], NotDonated(ids)) == [];
    } else {
      var rec := PostRecommendation(post, Cosine(taste, Lookup(e, sqrt, ScoredCache(e, sqrt, cache, pre, ids), post), sqrt));
      assert Filter([post], NotDonated(ids)) == [post];
      assert Scored(e, sqrt, cache, posts, ids, taste) == s + [rec];
      PostsOfSnoc(s, rec);
    }
  }

  lemma PostsOfSnoc(rs: seq<PostRecommendation>, x: PostRecommendation)
    ensures PostsOf(rs + [x]) == PostsOf(rs) + [x.post]
  {
    assert forall i :: 0 <= i < |rs| ==> (rs + [x])[i] == rs[i];
  }

  function Similarity(r: PostRecommendation): real {
    r.similarity
  }

  function AboveFloor(r: PostRecommendation): bool {
    r.similarity > 0.1
  }

  /**
   * The list `getRecommendedPosts` slices: the candidates above 0.1, best first, when there are
   * at least 3 of those, else all candidates, best first.
   */
  function Pool(candidates: seq<PostRecommendation>): seq<PostRecommendation> {
    var sorted := SortDesc(candidates, Similarity);
    var filtered := Filter(sorted, AboveFloor);
    if |filtered| >= 3 then filtered else sorted
  }

  /** The sort, floor and slice of `getRecommendedPosts`: the first `limit` of the pool, best first. */
  function Select(candidates: seq<PostRecommendation>, limit: int): (r: seq<PostRecommendation>)
    ensures |r| <= |Pool(candidates)| && r == Pool(candidates)[..|r|]
    ensures 0 <= limit ==> |r| == if limit < |Pool(candidates)| then limit else |Pool(candidates)|
    ensures 0 <= limit ==> |r| <= limit
  {
    SliceTo(Pool(candidates), limit)
  }

  /** Whether the floor applies depends only on how many candidates clear it, not on their order. */
  lemma FloorCountIgnoresOrder(candidates: seq<PostRecommendation>)
    ensures |Filter(SortDesc(candidates, Similarity), AboveFloor)| == |Filter(candidates, AboveFloor)|
  {
    FilterPermutation(SortDesc(candidates, Similarity), candidates, AboveFloor);
  }

  /** The pool is ordered by similarity, highest first. */
  lemma PoolIsSorted(candidates: seq<PostRecommendation>)
    ensures SortedDesc(Pool(candidates), Similarity)
  {
    FilterKeepsSorted(SortDesc(candidates, Similarity), Similarity, AboveFloor);
  }

  /**
   * When at least 3 candidates clear the floor, the pool is exactly those candidates; otherwise it
   * is every candidate.
   */
  lemma PoolContents(candidates: seq<PostRecommendation>, x: PostRecommendation)
    ensures multiset(Pool(candidates))[x] ==
      if |Filter(candidates, AboveFloor)| >= 3 && !AboveFloor(x) then 0 else multiset(candidates)[x]
  {
    FloorCountIgnoresOrder(candidates);
    FilterCount(SortDesc(candidates, Similarity), AboveFloor, x);
  }

  /** When at least 3 candidates clear the floor, everything recommended clears it. */
  lemma SelectAboveFloor(candidates: seq<PostRecommendation>, limit: int)
    requires |Filter(candidates, AboveFloor)| >= 3
    ensures forall i :: 0 <= i < |Select(candidates, limit)| ==> Select(candidates, limit)[i].similarity > 0.1
  {
    FloorCountIgnoresOrder(candidates);
  }

  /** Nothing of the pool that is left out scores higher than anything recommended. */
  lemma SelectIsBestOfPool(candidates: seq<PostRecommendation>, limit: int)
    ensures var r := Select(candidates, limit);
            forall i, j :: 0 <= i < |r| <= j < |Pool(candidates)| ==> r[i].similarity >= Pool(candidates)[j].similarity
  {
    PoolIsSorted(candidates);
  }

  /** Among candidates of equal similarity, `Select` keeps catalogue order. */
  lemma SelectIsStable(candidates: seq<PostRecommendation>, v: real)
    ensures WithKey(SortDesc(candidates, Similarity), Similarity, v) == WithKey(candidates, Similarity, v)
  {
    SortIsStable(candidates, Similarity, v);
  }

  /** Everything `Select` returns is one of the candidates. */
  lemma SelectFromCandidates(candidates: seq<PostRecommendation>, limit: int, x: PostRecommendation)
    requires x in Select(candidates, limit)
    ensures x in candidates
  {
    PoolContents(candidates, x);
    assert x in multiset(Pool(candidates));
  }

  /** `getRecommendedPosts(userId, allPosts, limit)`: nothing without a taste vector. */
  function RecommendSpec(e: Embedder, sqrt: real -> real, cache: map<string, Vector>,
                         stored: Stored<seq<UserPostDonation>>, userId: string, allPosts: seq<OrganizationPost>, limit: int): seq<PostRecommendation>
  {
    match TasteSpec(e, sqrt, cache, stored, userId, allPosts)
    case None => []
    case Some(taste) =>
      Select(Scored(e, sqrt, TasteCache(e, sqrt, cache, stored, userId, allPosts), allPosts, DonatedPostIds(stored, userId), taste), limit)
  }

  function RecommendCache(e: Embedder, sqrt: real -> real, cache: map<string, Vector>,
                          stored: Stored<seq<UserPostDonation>>, userId: string, allPosts: seq<OrganizationPost>): map<string, Vector>
  {
    var c := TasteCache(e, sqrt, cache, stored, userId, allPosts);
    match TasteSpec(e, sqrt, cache, stored, userId, allPosts)
    case None => c
    case Some(_) => ScoredCache(e, sqrt, c, allPosts, DonatedPostIds(stored, userId))
  }

  /** A user without donation history gets no recommendations. */
  lemma NoHistoryNoRecommendations(e: Embedder, sqrt: real -> real, cache: map<string, Vector>,
                                   stored: Stored<seq<UserPostDonation>>, userId: string, allPosts: seq<OrganizationPost>, limit: int)
    requires forall i :: 0 <= i < |allPosts| ==> allPosts[i].id !in DonatedPostIds(stored, userId)
    ensures RecommendSpec(e, sqrt, cache, stored, userId, allPosts, limit) == []
  {
    TasteIsNull(e, sqrt, cache, stored, userId, allPosts);
  }

  /**
   * Every recommended post is a post of the catalogue the user has not donated to, and there are
   * at most `limit` of them.
   */
  lemma RecommendationsAreNew(e: Embedder, sqrt: real -> real, cache: map<string, Vector>,
                              stored: Stored<seq<UserPostDonation>>, userId: string, allPosts: seq<OrganizationPost>, limit: int)
    ensures var r := RecommendSpec(e, sqrt, cache, stored, userId, allPosts, limit);
            && (0 <= limit ==> |r| <= limit)
            && forall i :: 0 <= i < |r| ==> r[i].post in allPosts && r[i].post.id !in DonatedPostIds(stored, userId)
  {
    var ids := DonatedPostIds(stored, userId);
    match TasteSpec(e, sqrt, cache, stored, userId, allPosts)
    case None =>
    case Some(taste) =>
      var c := TasteCache(e, sqrt, cache, stored, userId, allPosts);
      var candidates := Scored(e, sqrt, c, allPosts, ids, taste);
      var r := Select(candidates, limit);
      ScoredPostsAreTheOthers(e, sqrt, c, allPosts, ids, taste);
      forall i | 0 <= i < |r|
        ensures r[i].post in allPosts && r[i].post.id !in ids
      {
        SelectFromCandidates(candidates, limit, r[i]);
        var k :| 0 <= k < |candidates| && candidates[k] == r[i];
        assert PostsOf(candidates)[k] == r[i].post;
        FilterMembers(allPosts, NotDonated(ids), r[i].post);
      }
  }

  // ---------------------------------------------------------------------------------------
  // The service and its cache

  /** The module's `embeddingCache`, with the embedding configuration and `Math.sqrt` it works with. */
  class RecommendationEngine {
    const embedder: Embedder
    const sqrt: real -> real
    var cache: map<string, Vector>

    constructor (embedder: Embedder, sqrt: real -> real)
      ensures this.embedder == embedder && this.sqrt == sqrt && cache == map[]
    {
      this.embedder := embedder;
      this.sqrt := sqrt;
      cache := map[];
    }

    /** `getPostEmbedding(post)`. */
    method GetPostEmbedding(post: OrganizationPost) returns (r: Vector)
      modifies this
      ensures post.id in old(cache) ==> r == old(cache)[post.id] && cache == old(cache)
      ensures post.id !in old(cache) ==> r == EmbeddingSpec(embedder, EmbeddingText(post), sqrt) && cache == old(cache)[post.id := r]
      ensures r == Lookup(embedder, sqrt, old(cache), post) && cache == Remember(embedder, sqrt, old(cache), post)
    {
      var cacheKey := post.id;
      if cacheKey in cache {
        return cache[cacheKey];
      }
      var text := EmbeddingText(post);
      r := GenerateEmbedding(embedder, text, sqrt);
      cache := cache[cacheKey := r];
    }

    /** The embeddings of `posts`, in order (`Promise.all` over `getPostEmbedding`). */
    method EmbedPosts(posts: seq<OrganizationPost>) returns (embeddings: seq<Vector>)
      modifies this
      ensures embeddings == EmbedAll(embedder, sqrt, old(cache), posts)
      ensures cache == CacheAfter(embedder, sqrt, old(cache), posts)
    {
      embeddings := [];
      var i := 0;
      while i < |posts|
        invariant 0 <= i <= |posts|
        invariant embeddings == EmbedAll(embedder, sqrt, old(cache), posts[..i])
        invariant cache == CacheAfter(embedder, sqrt, old(cache), posts[..i])
      {
        assert posts[..i + 1][..i] == posts[..i];
        var embedding := GetPostEmbedding(posts[i]);
        embeddings := embeddings + [embedding];
        i := i + 1;
      }
      assert posts[..i] == posts;
    }

    /** `getUserDonationEmbedding(userId, allPosts)`, reading the donation records `stored`. */
    method GetUserDonationEmbedding(stored: Stored<seq<UserPostDonation>>, userId: string, allPosts: seq<OrganizationPost>)
      returns (r: Option<Vector>)
      modifies this
      ensures r == TasteSpec(embedder, sqrt, old(cache), stored, userId, allPosts)
      ensures cache == TasteCache(embedder, sqrt, old(cache), stored, userId, allPosts)
    {
      var donatedPostIds := DonatedPostIds(stored, userId);
      if |donatedPostIds| == 0 {
        return None;
      }
      var donatedPosts := Filter(allPosts, DonatedIn(donatedPostIds));
      if |donatedPosts| == 0 {
        return None;
      }
      var embeddings := EmbedPosts(donatedPosts);
      var mean := Average(embeddings);
      var magnitude := sqrt(Dot(mean, mean));
      if magnitude > 0.0 {
        return Some(Normalize(mean, magnitude));
      }
      return Some(mean);
    }

    /** The loop of `getRecommendedPosts`: scores, in order, every post whose id is not in `donatedPostIds`. */
    method ScorePosts(allPosts: seq<OrganizationPost>, donatedPostIds: seq<string>, taste: Vector)
      returns (recommendations: seq<PostRecommendation>)
      modifies this
      ensures recommendations == Scored(embedder, sqrt, old(cache), allPosts, donatedPostIds, taste)
      ensures cache == ScoredCache(embedder, sqrt, old(cache), allPosts, donatedPostIds)
    {
      recommendations := [];
      var i := 0;
      while i < |allPosts|
        invariant 0 <= i <= |allPosts|
        invariant recommendations == Scored(embedder, sqrt, old(cache), allPosts[..i], donatedPostIds, taste)
        invariant cache == ScoredCache(embedder, sqrt, old(cache), allPosts[..i], donatedPostIds)
      {
        var post := allPosts[i];
        assert allPosts[..i + 1][..i] == allPosts[..i];
        if post.id in donatedPostIds {
          i := i + 1;
          continue;
        }
        var postEmbedding := GetPostEmbedding(post);
        var similarity := CosineSimilarity(taste, postEmbedding, sqrt);
        recommendations := recommendations + [PostRecommendation(post, similarity)];
        i := i + 1;
      }
      assert allPosts[..i] == allPosts;
    }

    /** `getRecommendedPosts(userId, allPosts, limit)`, reading the donation records `stored`. */
    method GetRecommendedPosts(stored: Stored<seq<UserPostDonation>>, userId: string, allPosts: seq<OrganizationPost>, limit: int)
      returns (r: seq<PostRecommendation>)
      modifies this
      ensures r == RecommendSpec(embedder, sqrt, old(cache), stored, userId, allPosts, limit)
      ensures cache == RecommendCache(embedder, sqrt, old(cache), stored, userId, allPosts)
    {
      var userEmbedding := GetUserDonationEmbedding(stored, userId, allPosts);
      if userEmbedding.None? {
        return [];
      }
      var donatedPostIds := DonatedPostIds(stored, userId);
      var recommendations := ScorePosts(allPosts, donatedPostIds, userEmbedding.value);
      r := Select(recommendations, limit);
    }
  }

  /** The mean of `embeddings`, accumulated in place and then divided, as `getUserDonationEmbedding` computes it. */
  method Average(embeddings: seq<Vector>) returns (mean: Vector)
    requires embeddings != []
    ensures mean == Mean(embeddings)
  {
    var dimension := |embeddings[0]|;
    var averageEmbedding := new real[dimension](_ => 0.0);
    var k := 0;
    while k < |embeddings|
      invariant 0 <= k <= |embeddings|
      invariant forall j :: 0 <= j < dimension ==> averageEmbedding[j] == SumVectors(embeddings[..k])[j]
    {
      assert embeddings[..k + 1][..k] == embeddings[..k];
      AddInto(averageEmbedding, embeddings[k]);
      k := k + 1;
    }
    assert embeddings[..k] == embeddings;
    var i := 0;
    while i < dimension
      invariant 0 <= i <= dimension
      invariant forall j :: 0 <= j < i ==> averageEmbedding[j] == SumVectors(embeddings)[j] / |embeddings| as real
      invariant forall j :: i <= j < dimension ==> averageEmbedding[j] == SumVectors(embeddings)[j]
    {
      averageEmbedding[i] := averageEmbedding[i] / |embeddings| as real;
      i := i + 1;
    }
    mean := averageEmbedding[..];
  }

  /** `for (let i = 0; i < dimension; i++) averageEmbedding[i] += embedding[i]`. */
  method AddInto(averageEmbedding: array<real>, embedding: Vector)
    requires averageEmbedding.Length == FallbackDimension
    modifies averageEmbedding
    ensures forall j :: 0 <= j < FallbackDimension ==> averageEmbedding[j] == old(averageEmbedding[j]) + embedding[j]
  {
    var i := 0;
    while i < FallbackDimension
      invariant 0 <= i <= FallbackDimension
      invariant forall j :: 0 <= j < i ==> averageEmbedding[j] == old(averageEmbedding[j]) + embedding[j]
      invariant forall j :: i <= j < FallbackDimension ==> averageEmbedding[j] == old(averageEmbedding[j])
    {
      averageEmbedding[i] := averageEmbedding[i] + embedding[i];
      i := i + 1;
    }
  }
}
