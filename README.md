# Nova donations web app — a verified model of its core

Nova is a React single-page app in which individuals keep a wallet, donate to organizations'
fundraising posts and see a public donation feed, and organizations publish posts and watch what
they receive. This project models, in Dafny, the logic under the screens:

- the post-recommendation pipeline:
  - the fallback text embedding (token hash, index, weight, normalisation);
  - cosine similarity and the embedding text of a post;
  - the per-post embedding cache;
  - the user's taste vector, built from the posts they donated to;
  - the ranking with its 0.1 similarity floor and fallback;
- the donation-history store that feeds it;
- the account registry and wallet (`login`, `register`, `logout`, `addFunds`, `deductFunds`);
- the post store and the donation feed: merge with the demo fixtures on load, likes, creating a
  post, donating and adding a feed donation, and what each one writes back to storage;
- the form and dialog logic:
  - registration validation in order, including the e-mail pattern;
  - the create-post dialog's validation and tag parsing;
  - the amount selection and confirm rules of the three amount dialogs;
- the queries behind the pages:
  - the top five donations of an organization's profile;
  - the home page's received donations, total, ten most recent and public feed;
  - the group chat's messages and chat donation;
  - the relative-time label, the navigation bar's active item, and the demo lookups.

Stateful parts are classes whose methods change their fields under `modifies` clauses. These
are the auth provider, the two context stores, the donation ledger, the recommendation engine
with its cache, the dialogs, the register page and the chat page. Each method is specified by a
function of the old state, and the properties the code promises are proved about those
functions. The filters, folds and look-ups are functions with lemmas.

Browser storage is a value `Stored<T>` (`Missing`, `Corrupt` or `Present(value)`); a corrupt
entry is the JSON-parse failure path. A corrupt account registry makes `login`, `register`,
`addFunds` and `deductFunds` reject with the parse error, and the handlers that await them reject
with it in turn. The following are parameters rather than part of the
model:

- the clock (`now`) and the random part of generated ids (`suffix`);
- `Math.sqrt` (a function `sqrt` with `SqrtAt(sqrt, x)` required only at the points used);
- `parseFloat` (a function `string -> Option<real>`, with `None` standing for NaN);
- `amount.toFixed(2)` (as `amountText`);
- the OpenAI provider (`Embedder`, an API key and a reply that is `Failed` or a vector);
- the demo organizations (`organizations`);
- the outcome of an awaited promise (`Settled`).

Numbers are `real`. Ids and text are `seq<char>`, whose elements are Unicode scalar values;
`Strings.Utf16` gives the UTF-16 code units that `length`, `split('')` and `charCodeAt` see.
The JavaScript `ToInt32` of the hash's shift is written out on `int`.

Where a plain reading of the behaviour differs from the code, the model follows the code:

- `split(/\s+/)` of `""` is `[""]`, one empty token that hashes to 0. So the empty text embeds
  as the unit vector at index 0, not as the zero vector (`EmbeddingService.EmptyTextEmbedding`).
- The hash does not wrap at every step. Only the shifted operand `acc << 5` goes through
  `ToInt32`; the subtraction and the addition are exact, so the fold's value is not itself a
  32-bit number (`EmbeddingService.HashStep`, bounded by `EmbeddingService.HashBound`).
- The floor's fallback compares the number of candidates above 0.1 with the literal `3`, not
  with `limit`. When at least 3 but fewer than `limit` candidates clear the floor, the result
  is only those, even though weaker candidates exist (`RecommendationService.Select`).

## Model

| member | source | states |
|---|---|---|
| EmbeddingService.ToInt32 | src/services/embeddingService.ts:56 | the 32-bit conversion `<<` applies: the result is in [-2^31, 2^31) and congruent to the input modulo 2^32 |
| EmbeddingService.ShiftLeft5 | src/services/embeddingService.ts:56 | `acc << 5` is a signed 32-bit value congruent to 32·acc modulo 2^32 |
| EmbeddingService.HashBound | src/services/embeddingService.ts:55-57 | the unwrapped fold stays within Length(w) × (2^31 + 0xFFFF) in absolute value, Length(w) being the word's UTF-16 length and 0xFFFF the largest code unit, so it is an exact integer for any realistic token |
| EmbeddingService.HashIsFoldOverCodeUnits | src/services/embeddingService.ts:55-57 | hashing character by character is the fold over the word's UTF-16 code units: an astral character contributes its high and then its low surrogate, as `split('')` and `charCodeAt` see them |
| EmbeddingService.HashExamples | src/services/embeddingService.ts:55-57 | the fold starts from 0 and gives 97 for "a", 97·31 + 98 for "ab", and 0xD83D·31 + 0xDE00 for U+1F600, whose two surrogates are folded one after the other |
| EmbeddingService.TokenIndex | src/services/embeddingService.ts:59 | `Math.abs(hash) % 384` is a valid index of the 384-slot vector |
| EmbeddingService.TokenWeight | src/services/embeddingService.ts:60 | the weight 1/(i+1) added for the token at position i is positive and at most 1 |
| EmbeddingService.Tokens | src/services/embeddingService.ts:51 | lower-casing and splitting on whitespace runs give at least one token, and no token contains whitespace |
| EmbeddingService.EmptyTextHasOneEmptyToken | src/services/embeddingService.ts:51 | the empty text splits into exactly one empty token |
| EmbeddingService.AccumulateIsContribution | src/services/embeddingService.ts:52-61 | after n tokens, component j is the sum of the weights of the tokens among the first n whose index is j: collisions add up |
| EmbeddingService.AccumulateNonNegative | src/services/embeddingService.ts:52-61 | every component of the raw vector is non-negative |
| EmbeddingService.AccumulateAtLeast | src/services/embeddingService.ts:59-60 | the slot of the token at position i holds at least that token's weight |
| EmbeddingService.AccumulateTotal | src/services/embeddingService.ts:52-61 | the components of the raw vector sum to the harmonic number H(n) of the token count |
| EmbeddingService.DotSymmetric | src/services/embeddingService.ts:74-82 | the accumulated dot product does not depend on the order of its two arguments |
| EmbeddingService.DotSelfNonNegative | src/services/embeddingService.ts:80-81 | a sum of squares is non-negative |
| EmbeddingService.DotNormalize | src/services/embeddingService.ts:64-65 | dividing every component by m scales the sum of squares by 1/m² |
| EmbeddingService.NormalizeIsUnit | src/services/embeddingService.ts:64-65 | a vector with positive magnitude divided by its magnitude has unit length |
| EmbeddingService.NormalizeNonNegative | src/services/embeddingService.ts:65 | normalising a non-negative vector keeps it non-negative |
| EmbeddingService.FallbackEmbedding | src/services/embeddingService.ts:50-66 | the in-place fill of a 384-slot array and the normalisation compute the fallback vector, each token going to the slot of its hash over its UTF-16 code units |
| EmbeddingService.FallbackRawIsNonZero | src/services/embeddingService.ts:52-64 | the raw vector's sum of squares is at least 1, so the zero-magnitude branch is never taken |
| EmbeddingService.FallbackNonNegative | src/services/embeddingService.ts:52-65 | every component of the fallback embedding is non-negative |
| EmbeddingService.FallbackIsUnit | src/services/embeddingService.ts:64-65 | the fallback embedding of every text has unit length |
| EmbeddingService.EmptyTextEmbedding | src/services/embeddingService.ts:51-65 | the empty text embeds as the unit vector at index 0 |
| EmbeddingService.CosineSimilarity | src/services/embeddingService.ts:69-92 | the loop accumulating the dot product and both squared magnitudes computes the cosine similarity |
| EmbeddingService.CosineLengthMismatch | src/services/embeddingService.ts:70-72 | vectors of different lengths have similarity 0 |
| EmbeddingService.CosineZeroVector | src/services/embeddingService.ts:87-89 | an all-zero vector has similarity 0 with anything, in either order |
| EmbeddingService.CosineSymmetric | src/services/embeddingService.ts:74-91 | the similarity is symmetric in its arguments |
| EmbeddingService.CosineSelf | src/services/embeddingService.ts:74-91 | a vector with positive magnitude has similarity 1 with itself |
| EmbeddingService.CosineNonNegative | src/services/embeddingService.ts:74-91 | two non-negative vectors, such as two fallback embeddings, have a non-negative similarity |
| EmbeddingService.EmbeddingTextEmpty | src/services/embeddingService.ts:101-107 | the embedding text is empty exactly when title, description, category and joined tags are all empty |
| EmbeddingService.EmbeddingTextAllParts | src/services/embeddingService.ts:101-107 | with all four parts non-empty, the text is title, description, category and space-joined tags, separated by single spaces |
| EmbeddingService.EmbeddingTextDescriptionOnly | src/services/embeddingService.ts:101-107 | empty parts are dropped with their separators: a post with only a description embeds its description alone |
| EmbeddingService.GenerateEmbedding | src/services/embeddingService.ts:10-46 | with no API key, or a failed provider call, the result is the fallback embedding; otherwise it is the provider's vector |
| EmbeddingService.FallbackEmbeddingShape | src/services/embeddingService.ts:14-45 | whenever the fallback is used, the embedding is a non-negative unit vector |
| RecommendationService.RecommendationEngine.constructor | src/services/recommendationService.ts:17 | the embedding cache starts empty |
| RecommendationService.Remember | src/services/recommendationService.ts:20-32 | after a look-up the post's id is cached with the returned vector, every earlier entry is kept, and no other key appears |
| RecommendationService.RecommendationEngine.GetPostEmbedding | src/services/recommendationService.ts:20-32 | a cache hit returns the stored vector and leaves the cache alone; a miss returns the generated embedding of the post's text and stores it under the post's id |
| RecommendationService.EmbedAll | src/services/recommendationService.ts:52-54 | one embedding is produced per donated post |
| RecommendationService.RecommendationEngine.EmbedPosts | src/services/recommendationService.ts:52-54 | embedding the posts in turn returns their embeddings in order and leaves the cache the look-ups build |
| RecommendationService.CacheAfterKeeps | src/services/recommendationService.ts:52-54 | embedding a list of posts never changes an entry already cached |
| RecommendationService.CacheAfterKeys | src/services/recommendationService.ts:52-54 | after embedding a list, the cached keys are the old keys plus the ids of the listed posts |
| RecommendationService.SumVectorsColumn | src/services/recommendationService.ts:60-64 | component j of the summed embeddings is the sum of the embeddings' components j |
| RecommendationService.ColumnSumAppend | src/services/recommendationService.ts:60-64 | adding one more embedding adds its component to each column sum |
| RecommendationService.AddInto | src/services/recommendationService.ts:61-63 | the inner loop adds the embedding into the running array component by component |
| RecommendationService.MeanIsColumnAverage | src/services/recommendationService.ts:57-69 | each component of the mean is that component's sum over the embeddings divided by their number |
| RecommendationService.Average | src/services/recommendationService.ts:57-69 | the in-place accumulation and division loops compute the mean of the embeddings |
| RecommendationService.TasteIsUnit | src/services/recommendationService.ts:71-77 | a mean with positive magnitude is returned divided by its magnitude, a unit vector |
| RecommendationService.TasteOfZeroMean | src/services/recommendationService.ts:75-79 | an all-zero mean is returned unchanged |
| RecommendationService.TasteIsNull | src/services/recommendationService.ts:39-49 | there is no taste vector exactly when none of the posts is among the user's donated post ids, which covers an empty history |
| RecommendationService.RecommendationEngine.GetUserDonationEmbedding | src/services/recommendationService.ts:35-80 | returns `TasteSpec` of the inputs and leaves `TasteCache`: the taste vector the lemmas above describe, and the cache its look-ups build |
| RecommendationService.Scored | src/services/recommendationService.ts:98-113 | at most one recommendation is scored per post |
| RecommendationService.ScoredPostsAreTheOthers | src/services/recommendationService.ts:95-113 | the scored posts are exactly the posts not donated to, each once, in catalog order |
| RecommendationService.RecommendationEngine.ScorePosts | src/services/recommendationService.ts:98-113 | the loop that skips donated posts and pushes each other post with its similarity computes the scored list |
| RecommendationService.Select | src/services/recommendationService.ts:116-124 | the result is a prefix of the pool (above-floor candidates when at least 3 clear 0.1, otherwise all sorted candidates) of length min(limit, pool size) |
| RecommendationService.FloorCountIgnoresOrder | src/services/recommendationService.ts:116-122 | sorting does not change how many candidates clear the floor |
| RecommendationService.PoolIsSorted | src/services/recommendationService.ts:116-124 | the pool is in non-increasing order of similarity |
| RecommendationService.PoolContents | src/services/recommendationService.ts:116-124 | the pool holds every candidate as often as the candidates do, except those at or below 0.1 when at least 3 clear the floor |
| RecommendationService.SelectAboveFloor | src/services/recommendationService.ts:119-123 | when at least 3 candidates clear the floor, every returned similarity is above 0.1 |
| RecommendationService.SelectIsBestOfPool | src/services/recommendationService.ts:116-124 | every returned candidate scores at least as high as every pool candidate left out |
| RecommendationService.SelectIsStable | src/services/recommendationService.ts:116 | candidates with equal similarity keep their catalog order |
| RecommendationService.SelectFromCandidates | src/services/recommendationService.ts:116-124 | only scored candidates are returned |
| RecommendationService.NoHistoryNoRecommendations | src/services/recommendationService.ts:88-93 | with no donated post in the catalog the result is empty |
| RecommendationService.RecommendationsAreNew | src/services/recommendationService.ts:95-124 | at most `limit` recommendations, each a catalog post the user has not donated to |
| RecommendationService.RecommendationEngine.GetRecommendedPosts | src/services/recommendationService.ts:83-134 | returns `RecommendSpec` of the inputs and leaves `RecommendCache`: the ranking the lemmas above describe, and the cache its look-ups build |
| UserDonationsService.OfUser | src/services/userDonationsService.ts:19-20 | only the user's records are kept, and no more than were stored |
| UserDonationsService.OfUserCount | src/services/userDonationsService.ts:18-24 | each of the user's records is kept as often as it is stored, any other record never |
| UserDonationsService.OfUserAppend | src/services/userDonationsService.ts:19-20 | filtering by user distributes over concatenation, so stored order is kept |
| UserDonationsService.UserDonationsWithoutRecords | src/services/userDonationsService.ts:14-30 | a missing or unparsable store gives no donations |
| UserDonationsService.Recorded | src/services/userDonationsService.ts:39-51 | recording appends the record to the stored list (or starts one), and a corrupt store stays corrupt |
| UserDonationsService.RecordedDonationIsLast | src/services/userDonationsService.ts:41-51 | after recording, the user's donations are the earlier ones followed by the new record |
| UserDonationsService.RecordedKeepsOtherUsers | src/services/userDonationsService.ts:41-51 | recording for one user leaves every other user's donations unchanged |
| UserDonationsService.DonationLedger.RecordDonation | src/services/userDonationsService.ts:34-55 | the store becomes the recorded one; the earlier records are an unchanged prefix |
| UserDonationsService.Dedupe | src/services/userDonationsService.ts:60 | `[...new Set(xs)]` has no duplicates and the same members as xs |
| UserDonationsService.DedupeFirstOccurrenceOrder | src/services/userDonationsService.ts:60 | the distinct values come in the order of their first occurrences |
| UserDonationsService.PostIds | src/services/userDonationsService.ts:60 | one post id per record, in record order |
| UserDonationsService.DonatedPostIdsAreTheUsersPosts | src/services/userDonationsService.ts:58-61 | the donated ids have no duplicates and are exactly the post ids of the user's stored records |
| UserDonationsService.RecordedPostIsDonated | src/services/userDonationsService.ts:41-61 | after recording a donation to a post, the post is among the user's donated ids |
| LikedIds.LoadLikes | src/context/OrganizationPostsContext.tsx:173-180 | stored likes are loaded as they are, and a missing or unparsable entry gives no likes |
| LikedIds.Toggle | src/context/OrganizationPostsContext.tsx:201-211 | toggling flips the membership of the one id and no other |
| LikedIds.ToggleTwice | src/context/OrganizationPostsContext.tsx:201-211 | toggling the same id twice restores the set |
| AuthContext.FundingSource | src/components/OrganizationPostCard.tsx:55 | an individual's own default funding source when it is non-empty, otherwise `'wallet'`; never empty |
| AuthContext.NewAccount | src/context/AuthContext.tsx:119-160 | the new account has the requested type and e-mail, joins now, has a zero wallet, no password, and the id `user_`/`org_` followed by the clock |
| AuthContext.SetBalance | src/context/AuthContext.tsx:207-208 | one registry entry's balance is replaced and every other entry is unchanged |
| AuthContext.AuthState.constructor | src/context/AuthContext.tsx:59-70 | the session is authenticated exactly when a current user is stored, and then it is that user; a missing or corrupt entry gives no user; a corrupt registry is remembered, and a missing one is empty |
| AuthContext.AuthState.Login | src/context/AuthContext.tsx:72-92 | a corrupt registry makes the call reject with the parse error and change nothing; otherwise it succeeds exactly when an entry has the e-mail and password, and then the session is authenticated as the first such entry without its password; a failure changes nothing |
| AuthContext.AuthState.Register | src/context/AuthContext.tsx:94-177 | a corrupt registry makes the call reject with the parse error; refused, with nothing changed, when the e-mail is taken or an individual's non-empty handle is; otherwise one account with its password is appended and the session is authenticated as it, without the password |
| AuthContext.AuthState.Logout | src/context/AuthContext.tsx:179-182 | the current user and its stored copy are cleared, so the session is no longer authenticated |
| AuthContext.AuthState.AddFunds | src/context/AuthContext.tsx:184-222 | fails without change for no user or a non-positive amount; otherwise a corrupt registry makes it reject with the parse error, and an unregistered user fails without change; on success the entry's balance (missing as 0) grows by the amount, in the registry, the current user and its stored copy |
| AuthContext.AuthState.DeductFunds | src/context/AuthContext.tsx:224-268 | the same rejection and failures as AddFunds, and a failure without change when the balance is below the amount; on success the balance drops by the amount and stays non-negative |
| AuthContext.RegisteredCanLogIn | src/context/AuthContext.tsx:72-177 | right after registering, logging in with the same e-mail and password finds the new entry |
| AuthContext.RegisterTwiceIsRefused | src/context/AuthContext.tsx:100-107 | registering the same e-mail a second time is refused |
| AuthContext.CreditThenDebit | src/context/AuthContext.tsx:204-254 | adding an amount and then deducting it restores the registry |
| OrganizationPostsContext.DemoPostIds | src/context/OrganizationPostsContext.tsx:19-124 | the eight demo posts have the ids demo_post_1 to demo_post_8, in order |
| OrganizationPostsContext.DemoPostIdsAreDistinct | src/context/OrganizationPostsContext.tsx:19-124 | no two demo posts share an id |
| OrganizationPostsContext.MergeWithDemo | src/context/OrganizationPostsContext.tsx:163-168 | the merged list is sorted newest first and is a permutation of the stored non-demo posts plus the demo posts |
| OrganizationPostsContext.MergeKeepsDemoPosts | src/context/OrganizationPostsContext.tsx:164-166 | each demo post occurs as often as in the fixture |
| OrganizationPostsContext.MergeHoldsEachDemoPostOnce | src/context/OrganizationPostsContext.tsx:164-166 | each demo post occurs exactly once |
| OrganizationPostsContext.MergeKeepsUserPosts | src/context/OrganizationPostsContext.tsx:164-166 | each stored post with a non-demo id occurs as often as it is stored |
| OrganizationPostsContext.MergeResetsDemoPosts | src/context/OrganizationPostsContext.tsx:164-166 | any post with a demo id in the merged list is the fixture's, so stored edits of demo posts are dropped |
| OrganizationPostsContext.LoadedPostsAreNeverEmpty | src/context/OrganizationPostsContext.tsx:146-188 | the loaded list always holds at least the eight demo posts, so it is always written back |
| OrganizationPostsContext.UnlikingLastPostIsNotPersisted | src/context/OrganizationPostsContext.tsx:191-195 | un-liking the only liked post empties the set but leaves the old like in storage, so it comes back on reload |
| OrganizationPostsContext.WithDonation | src/context/OrganizationPostsContext.tsx:223-230 | the posts with the id gain the amount and every other post, and the length, are unchanged |
| OrganizationPostsContext.WithDonationTotal | src/context/OrganizationPostsContext.tsx:223-230 | the total raised grows by the amount times the number of posts with the id |
| OrganizationPostsContext.NewPost | src/context/OrganizationPostsContext.tsx:213-219 | the new post is the draft with id `post_` followed by the clock in decimal, creation time now and amount 0 |
| OrganizationPostsContext.DemoIdsStartWithD | src/context/OrganizationPostsContext.tsx:19-124 | every demo post id is non-empty and starts with `d` |
| OrganizationPostsContext.NewPostIsNotDemo | src/context/OrganizationPostsContext.tsx:216 | a created post's id never equals a demo post's id |
| OrganizationPostsContext.CreatedPostSurvivesReload | src/context/OrganizationPostsContext.tsx:163-168 | a created post that was saved is still in the list after a reload merges storage with the demo posts |
| OrganizationPostsContext.PostsProvider.constructor | src/context/OrganizationPostsContext.tsx:140-188 | posts are the merged stored and demo posts, likes the stored likes, the trigger 0, and the posts are written back |
| OrganizationPostsContext.PostsProvider.ToggleLike | src/context/OrganizationPostsContext.tsx:191-211 | the toggled id changes its liked state and no other id does; the set is saved only when non-empty; posts and trigger are unchanged |
| OrganizationPostsContext.PostsProvider.CreatePost | src/context/OrganizationPostsContext.tsx:213-221 | the draft, with id `post_` and the clock, creation time now and amount 0, is prepended as a post that is not a demo post; the rest are unchanged and in order, and the list is saved |
| OrganizationPostsContext.PostsProvider.DonateToPost | src/context/OrganizationPostsContext.tsx:223-233 | the posts get the donation and the refresh trigger grows by exactly 1 |
| DonationsContext.MergeWithDemo | src/context/DonationsContext.tsx:42-47 | the merged feed is sorted newest first and is a permutation of the demo donations plus the stored non-demo donations |
| DonationsContext.MergeHoldsEachDemoDonationOnce | src/context/DonationsContext.tsx:43-45 | each demo donation occurs exactly once |
| DonationsContext.MergeKeepsUserDonations | src/context/DonationsContext.tsx:43-45 | each stored non-demo donation occurs as often as it is stored |
| DonationsContext.SaveDonations | src/context/DonationsContext.tsx:63-73 | what is saved is non-empty and holds no demo id; otherwise the key is removed |
| DonationsContext.SavedKeyIsRemovedWhenOnlyDemo | src/context/DonationsContext.tsx:65-72 | the key is removed exactly when every donation has a demo id |
| DonationsContext.SaveLikes | src/context/DonationsContext.tsx:76-82 | the likes are written when non-empty and the key removed when empty |
| DonationsContext.LikesRoundTrip | src/context/DonationsContext.tsx:52-82 | loading what was saved gives back the liked set, the empty one included |
| DonationsContext.NewDonation | src/context/DonationsContext.tsx:100-106 | the draft gets the id `donation_<now>_<suffix>` and the creation time now, and nothing else changes |
| DonationsContext.NewDonationIsNotDemo | src/context/DonationsContext.tsx:100-106 | a new donation never has a demo id, so it is always persisted |
| DonationsContext.DonationsProvider.constructor | src/context/DonationsContext.tsx:19-82 | the feed is the merged list, likes the stored likes, and both are written back by the save rules |
| DonationsContext.DonationsProvider.SaveEffects | src/context/DonationsContext.tsx:63-82 | each key is written from the state it follows: the donations by the save rule for donations, the likes by the save rule for likes; the state itself is unchanged |
| DonationsContext.DonationsProvider.ToggleLike | src/context/DonationsContext.tsx:76-98 | the toggled id changes its liked state and no other id does; the set is saved by the save rule; donations are unchanged |
| DonationsContext.DonationsProvider.AddDonation | src/context/DonationsContext.tsx:100-107 | one new donation is prepended, the rest are unchanged, and it is persisted first |
| CreatePostDialog.ParseTagsMembers | src/components/CreatePostDialog.tsx:43-46 | a tag is parsed exactly when it is a non-empty trimmed comma-separated part |
| CreatePostDialog.ParsedTagsAreClean | src/components/CreatePostDialog.tsx:43-46 | every parsed tag is non-empty, has no whitespace at either end, and has no comma |
| CreatePostDialog.ParseTagsJoin | src/components/CreatePostDialog.tsx:43-46 | clean tags joined with commas parse back to the same tags in the same order |
| CreatePostDialog.SubmittedTextIsTrimmed | src/components/CreatePostDialog.tsx:43-58 | the submitted title and description are non-empty and trimmed, the image URL and category are absent or trimmed and non-empty, the tags are clean, and there is a goal only when the goal field was filled in, parsed by `parseFloat` |
| CreatePostDialog.DialogState.constructor | src/components/CreatePostDialog.tsx:26-32 | every input starts empty, with no error |
| CreatePostDialog.DialogState.HandleSubmit | src/components/CreatePostDialog.tsx:34-60 | a blank title or description sets the error and submits nothing; otherwise the post data is submitted, the error cleared and the dialog closed |
| RegisterPage.WithField | src/pages/RegisterPage.tsx:46-54 | the named input takes the new text and every other input keeps its own |
| RegisterPage.MessagesAreDistinct | src/pages/RegisterPage.tsx:56-100 | the five validation messages are pairwise different |
| RegisterPage.ValidationError | src/pages/RegisterPage.tsx:56-100 | each message is reported exactly when its check is the first to fail, in the order required fields, handle (individuals only), password match, length (in UTF-16 code units, as `length` counts), e-mail |
| RegisterPage.ValidationAcceptsValidForms | src/pages/RegisterPage.tsx:56-100 | validation passes exactly the forms that satisfy all the checks |
| RegisterPage.RegisteredFormCanLogIn | src/pages/RegisterPage.tsx:112-127 | a form that `register` accepts leaves an account of the chosen type that signs in with the e-mail and password as typed, and an individual's account carries the typed handle |
| RegisterPage.RefusalMatchesMessage | src/pages/RegisterPage.tsx:131-138 | a valid individual's form is refused exactly when its e-mail or handle is taken, an organization's exactly when its e-mail is, as the messages say |
| RegisterPage.RegisterPageState.constructor | src/pages/RegisterPage.tsx:21-44 | an individual account with every input empty, no error, not loading |
| RegisterPage.RegisterPageState.SetAccountType | src/pages/RegisterPage.tsx:163-186 | only the account type changes; typed inputs are kept |
| RegisterPage.RegisterPageState.HandleChange | src/pages/RegisterPage.tsx:46-54 | the input is stored and the error cleared |
| RegisterPage.RegisterPageState.HandleSubmit | src/pages/RegisterPage.tsx:102-140 | an invalid form shows its message and registers nothing; a valid one registers. A corrupt registry rejects the handler with `isLoading` left true, no message and no navigation; otherwise loading ends, going home on success and showing the account type's refusal message on refusal |
| EmailPattern.IsValidEmail | src/pages/RegisterPage.tsx:93-97 | an accepted address has no whitespace and contains an `@` |
| EmailPattern.IsValidEmailMatchesPattern | src/pages/RegisterPage.tsx:93 | the check accepts exactly the strings `^[^\s@]+@[^\s@]+\.[^\s@]+$` matches |
| EmailPattern.ValidEmailMatches | src/pages/RegisterPage.tsx:93 | an accepted string matches the pattern |
| EmailPattern.PatternIsValidEmail | src/pages/RegisterPage.tsx:93 | a string split by the pattern into its four runs is accepted |
| EmailPattern.EmailAccepted | src/pages/RegisterPage.tsx:93 | `a@b.c` passes |
| EmailPattern.EmailRefused | src/pages/RegisterPage.tsx:93 | `a@b`, `@b.c` and `a@.c` do not pass |
| OrganizationPostCard.ProgressPercentage | src/components/OrganizationPostCard.tsx:28-30 | the bar width is never above 100, and it is 0 when the goal is missing or 0 |
| OrganizationPostCard.BarIsCappedLabel | src/components/OrganizationPostCard.tsx:177-178 | the "% funded" label uses the uncapped ratio: bar and label agree up to 100, beyond it the bar stays at 100 |
| OrganizationPostCard.ProgressIsAPercentage | src/components/OrganizationPostCard.tsx:28-30 | with a positive goal and a non-negative amount raised, the bar is between 0 and 100 |
| OrganizationPostCard.FeedDonation | src/components/OrganizationPostCard.tsx:46-57 | a completed, public, one-off donation from the user to the post's organization for the amount, named after the post |
| OrganizationPostCard.PostCard.constructor | src/components/OrganizationPostCard.tsx:17-26 | the card holds its post and its collaborators |
| OrganizationPostCard.PostCard.HandleDonate | src/components/OrganizationPostCard.tsx:32-62 | no user or an organization account: fails with no effect. A non-positive amount fails, and a corrupt registry rejects with the parse error, both with no effect. Otherwise it succeeds exactly when the debit does. On success the registry entry, the current user and its stored copy get the new balance; the post's amount rises and the posts are saved; the refresh trigger ticks; the ledger records the donation; the feed puts it in front and saves it; and the like sets are unchanged |
| PostDonationDialog.DialogState.constructor | src/components/PostDonationDialog.tsx:19-23 | custom mode, empty text, not loading, no error |
| PostDonationDialog.DialogState.ShowsInsufficientBalance | src/components/PostDonationDialog.tsx:167 | the warning shows exactly when there is an amount above the balance, a missing balance counting as 0, and while it shows the donation cannot be confirmed |
| PostDonationDialog.DialogState.SelectQuick | src/components/PostDonationDialog.tsx:114-122 | an enabled quick amount is selected, the custom text cleared, and it is affordable |
| PostDonationDialog.DialogState.SelectCustom | src/components/PostDonationDialog.tsx:134-139 | Custom clears the selection and the text |
| PostDonationDialog.DialogState.EditCustom | src/components/PostDonationDialog.tsx:155-161 | the typed text becomes the custom amount's text |
| PostDonationDialog.DialogState.HandleConfirm | src/components/PostDonationDialog.tsx:25-58 | `onConfirm` is called exactly when the dialog is confirmable, and only with a positive amount within the balance of a signed-in individual; the dialog closes only on success, and a failure or a thrown error sets its message |
| PostDonationDialog.ConfirmedAmountIsCovered | src/components/PostDonationDialog.tsx:30-36 | a confirmed amount never exceeds the signed-in user's balance |
| DonationDialog.ConfirmableIffPattern | src/components/DonationDialog.tsx:29-33 | confirmable exactly when the amount is positive and the trimmed e-mail matches the pattern |
| DonationDialog.EmailWarningIffNoMatch | src/components/DonationDialog.tsx:154 | the inline warning shows exactly when the typed e-mail is non-empty and does not match |
| DonationDialog.WarningDisagreesWithConfirm | src/components/DonationDialog.tsx:32-33 | an address typed with a leading space shows the warning and still passes the confirm rule's e-mail test, since only that rule trims |
| DonationDialog.DialogState.constructor | src/components/DonationDialog.tsx:13-18 | custom mode, empty text and e-mail, not loading, no error |
| DonationDialog.DialogState.SelectQuick | src/components/DonationDialog.tsx:101-107 | a quick amount is selected and the custom text cleared |
| DonationDialog.DialogState.SelectCustom | src/components/DonationDialog.tsx:117-121 | Custom clears the selection and the text |
| DonationDialog.DialogState.EditCustom | src/components/DonationDialog.tsx:135 | the typed text becomes the custom amount's text |
| DonationDialog.DialogState.EditEmail | src/components/DonationDialog.tsx:147-150 | the typed e-mail is stored |
| DonationDialog.DialogState.HandleConfirm | src/components/DonationDialog.tsx:35-57 | nothing happens unless confirmable; otherwise the amount and the trimmed e-mail are submitted, the dialog closes when it resolves, and a thrown error sets its message |
| AddFundsDialog.DialogState.constructor | src/components/AddFundsDialog.tsx:12-15 | custom mode, empty text, not loading, no error |
| AddFundsDialog.DialogState.SelectQuick | src/components/AddFundsDialog.tsx:82-89 | a quick amount is selected, the custom text cleared, and it is confirmable |
| AddFundsDialog.DialogState.EditCustom | src/components/AddFundsDialog.tsx:116-119 | typing clears the quick selection and the text decides the amount |
| AddFundsDialog.DialogState.HandleConfirm | src/components/AddFundsDialog.tsx:17-44 | `onConfirm` is called exactly when the dialog is confirmable, and only with a positive amount; the dialog closes only on success, and a failure or a thrown error sets its message |
| OrganizationProfilePage.RankedDonations | src/pages/OrganizationProfilePage.tsx:35-42 | the featured donations sorted by non-increasing amount, the same donations as many times |
| OrganizationProfilePage.TopDonations | src/pages/OrganizationProfilePage.tsx:35-43 | at most five donations, in non-increasing order of amount |
| OrganizationProfilePage.TopDonationsAreFeatured | src/pages/OrganizationProfilePage.tsx:35-43 | five donations, or all when fewer are featured; each is a demo donation to the organization, public and completed |
| OrganizationProfilePage.OmittedDonationsAreNoLarger | src/pages/OrganizationProfilePage.tsx:35-43 | a featured donation left out is no larger than any shown one |
| OrganizationProfilePage.ProfilePage | src/pages/OrganizationProfilePage.tsx:14-43 | not found exactly when no demo organization has the route id; otherwise that organization and its top donations |
| HomePage.OrgDonationsMembers | src/pages/HomePage.tsx:20-22 | a donation is listed exactly when it is in the feed, to the organization and completed |
| HomePage.SumIsNonNegative | src/pages/HomePage.tsx:23-26 | non-negative amounts give a non-negative total |
| HomePage.TotalAfterNewDonation | src/pages/HomePage.tsx:20-26 | a donation put in front of the feed adds its amount to the total exactly when the organization received it |
| HomePage.CardDonationRaisesTotal | src/pages/HomePage.tsx:20-26 | a donation made on a post card raises the total of the post's organization by the amount |
| HomePage.ChatDonationRaisesTotal | src/pages/GroupChatPage.tsx:66-77 | a donation made from a group chat raises the total of the organization it went to by the amount donated, and heads the public feed |
| HomePage.PublicFeedMembers | src/pages/HomePage.tsx:161-162 | the feed shows exactly the public, completed donations |
| HomePage.Home | src/pages/HomePage.tsx:19-162 | the organization view exactly for an organization account, with its received donations, their sum and the first ten; otherwise the public feed |
| GroupChatPage.GroupName | src/pages/GroupChatPage.tsx:40-41 | the route's group name when it is non-empty, otherwise `'Group'` |
| GroupChatPage.ChatPage.constructor | src/pages/GroupChatPage.tsx:35-43 | the initial messages, an empty input, and the route's group and organization |
| GroupChatPage.ChatPage.EditInput | src/pages/GroupChatPage.tsx:174 | the typed text is stored |
| GroupChatPage.ChatPage.HandleSend | src/pages/GroupChatPage.tsx:49-55 | blank input changes nothing; otherwise one trimmed message from You is appended and the input cleared |
| GroupChatPage.ChatPage.HandleDonate | src/pages/GroupChatPage.tsx:57-92 | no user, an organization account or an unknown organization: fails with no effect. A non-positive amount fails, and a corrupt registry rejects with the parse error, both with no effect. Otherwise it succeeds exactly when the debit does. On success the registry entry, the current user and its stored copy get the new balance, the feed puts the group donation in front and saves it with its likes unchanged, and the chat message is appended |
| GroupChatPage.SentTextIsTrimmed | src/pages/GroupChatPage.tsx:50-53 | a sent message has no whitespace at either end |
| DemoData.GetDonor | src/demo-data/donations.ts:147-149 | the first demo individual with the donation's donor id, and none exactly when no one has it |
| DemoData.OrganizationWithId | src/pages/OrganizationProfilePage.tsx:14 | the first organization with the id, and none exactly when no one has it |
| DemoData.GetOrganization | src/demo-data/donations.ts:151-156 | the first supplied organization with the donation's organization id, and none exactly when no one has it |
| DemoData.DemoIndividualIdsAreDistinct | src/demo-data/donations.ts:31-71 | the demo individuals' ids are pairwise distinct |
| DemoData.DemoDonationIdsAreDistinct | src/demo-data/donations.ts:73-144 | the demo donations' ids are pairwise distinct |
| DemoData.EveryDemoDonorResolves | src/demo-data/donations.ts:147-149 | every demo donation's donor is a demo individual |
| FormatTime.FloorDiv | src/utils/formatTime.ts:3-5 | `Math.floor(diff / unit)` is the q with q·unit ≤ diff < (q+1)·unit, negative differences included |
| FormatTime.FormatRelativeTime | src/utils/formatTime.ts:1-16 | under a minute (future dates included) "just now", then "N min ago" with 1 ≤ N < 60, "N h ago" with 1 ≤ N < 24, and "N d ago" with N ≥ 1 |
| FormatTime.JustNowUnderAMinute | src/utils/formatTime.ts:7-8 | "just now" exactly when less than a minute has passed |
| FormatTime.CountsAreNested | src/utils/formatTime.ts:3-5 | hours are whole minutes divided by 60 and days whole hours divided by 24 |
| MainNavBar.CurrentIndex | src/components/MainNavBar.tsx:8-14 | 0 exactly for `/`, 1 exactly for paths starting with `/groups`, 2 and 3 exactly for `/explore` and `/profile`, -1 otherwise |
| MainNavBar.AtMostOneActive | src/components/MainNavBar.tsx:29-31 | at most one item is active, and none for an unknown path |
| MainNavBar.ItemsHighlightTheirOwnPath | src/components/MainNavBar.tsx:18-31 | each item's own path activates it, and every path under `/groups` activates Groups |
| Strings.TrimSpec | src/components/CreatePostDialog.tsx:38 | `trim` removes exactly the whitespace at both ends; the result is empty exactly when everything was whitespace |
| Strings.TrimIdempotent | src/components/CreatePostDialog.tsx:45 | trimming twice is trimming once |
| Strings.SplitOn | src/components/CreatePostDialog.tsx:44 | `split(',')` gives at least one part and no part holds the separator |
| Strings.SplitOnJoin | src/components/CreatePostDialog.tsx:44 | splitting parts joined by the separator gives the parts back |
| Strings.SplitWhitespace | src/services/embeddingService.ts:51 | `split(/\s+/)` gives at least one token and no token holds whitespace |
| Strings.SplitWhitespaceJoin | src/services/embeddingService.ts:51 | non-empty words joined by single spaces split back into the words |
| Strings.ToLower | src/services/embeddingService.ts:51 | same length, no upper-case ASCII letter, whitespace where the input had it |
| Strings.NatToDecimal | src/utils/formatTime.ts:10 | the decimal digits of a count, without a leading zero |
| Strings.DecimalRoundTrip | src/utils/formatTime.ts:10 | reading the digits back gives the count |
| Strings.CodeUnitsOf | src/services/embeddingService.ts:55-56 | a character below U+10000 is one code unit equal to itself; any other is a high surrogate followed by a low surrogate |
| Strings.SurrogatesRoundTrip | src/services/embeddingService.ts:55-56 | the surrogate pair of an astral character decodes back to that character |
| Strings.Utf16AreCodeUnits | src/services/embeddingService.ts:56 | every unit `charCodeAt` sees lies in 0 .. 0xFFFF |
| Strings.LengthCountsAstralTwice | src/pages/RegisterPage.tsx:88 | `length` lies between the number of characters and twice it, and equals it exactly when no character is astral |
| Seqs.FindIndex | src/context/AuthContext.tsx:195-197 | `findIndex`: -1 exactly when nothing matches, otherwise the first match |
| Seqs.SliceTo | src/pages/HomePage.tsx:102 | `slice(0, end)` is the prefix of length min(end, size) |
| StableSort.SortDesc | src/services/recommendationService.ts:116 | the comparator sort gives a permutation in non-increasing key order |
| StableSort.SortIsStable | src/services/recommendationService.ts:116 | elements with equal keys keep their relative order |
| Wrappers.OrUndefined | src/pages/RegisterPage.tsx:124 | `s || undefined` is never the empty string, and reading it back with `|| ''` gives `s` |

## Left out

- The OpenAI request is not modelled: its URL, headers, JSON body and reply parsing. The provider is an
  `Embedder` parameter whose reply is a vector or a failure, and a failure routes to the fallback.
- The provider's vectors are taken to have the fallback's 384 components. A provider vector
  of another length, whose comparisons the source would turn into 0 or NaN, is not modelled.
- Storage and JSON are modelled as `Stored<T>`, with no serialisation. Dates live in storage as
  millisecond timestamps, so the round trip through ISO strings is not modelled. A parse failure in
  a load is the `Corrupt` case.
- Floating point is modelled as exact reals. This leaves out rounding, `NaN` and `Infinity` (a NaN from
  `parseFloat` is the `None` of the parser parameter) and `Math.sqrt` (a parameter that
  is a square root only where `SqrtAt` says so). `toFixed(2)` is the `amountText` parameter. The
  card's funded label is `FundedPercent` before its `toFixed(0)`: the rounding to a whole percent
  is not modelled.
- Strings.ToLower: lower-cases ASCII only; the Unicode case tables are not modelled.
- `\s` is modelled as the fixed set of ECMAScript white-space and line-terminator characters.
- Concurrency is not modelled. `Promise.all`, React's batching of state updates, effect timing
  and stale closures become one sequential step per call, and every saving effect runs right
  after the update it follows.
- The clock and `Math.random` are parameters (`now`, `suffix`). The demo fixtures' dates are
  taken in UTC.
- Logging (`console.*`), `alert`, scrolling and navigation are left out. Navigation is kept only as
  the register page's `navigatedHome` flag and the dialogs' `closed` flags.
- Presentation is left out: markup, icons and styles. So are the login, explore, profile and groups
  pages, the recommendation widget, the donation card, routing and configuration. The profile
  page's filter and sum are those of `HomePage`.
- The demo organizations' fixture values are not part of this model; the functions that
  read them take the organizations as a parameter. The group donation dialog's component is not
  part of this model either; the chat's `handleDonate` is modelled with the amount it receives.
- `handleChange` is modelled per field (`FormField`) rather than by an input's `name` attribute.
- Disabled buttons become preconditions. A quick amount above the balance cannot be chosen in the
  post dialog (`PostDonationDialog.DialogState.SelectQuick`), and the custom input exists only
  in custom mode (`EditCustom` in two dialogs).
- RecommendationService.EmbedAll: states only the number of embeddings; which vector each
  post gets, and in what order the cache fills, are stated by
  `RecommendationEngine.EmbedPosts` and `RecommendationEngine.GetPostEmbedding`.
- RecommendationService.Scored: states only a bound on the length; the contents are stated
  by `ScoredPostsAreTheOthers` and `RecommendationEngine.ScorePosts`.
- DemoData.EveryDemoDonorResolves: shows that each donor resolves, not which individual; the
  ids themselves are those listed in `DemoIndividualIdList` and `DemoDonorIdList`.
