/**
 * The card that shows one fundraising post: its progress bar and "% funded" label, and the
 * donation handler that debits the wallet and then updates the post, the donation ledger and
 * the donation feed.
 */
module OrganizationPostCard {
  import opened Wrappers
  import opened Promises
  import opened Seqs
  import opened AuthContext
  import opened OrganizationPostsContext
  import opened UserDonationsService
  import opened DonationsContext
  import opened DemoData

  /** `post.goalAmount` is truthy: present and not 0. */
  predicate HasGoal(post: OrganizationPost) {
    post.goalAmount.Some? && post.goalAmount.value != 0.0
  }

  /** The "% funded" label's number, `(currentAmount / goalAmount) * 100`, shown only when there is a goal. */
  function FundedPercent(post: OrganizationPost): real
    requires HasGoal(post)
  {
    (post.currentAmount / post.goalAmount.value) * 100.0
  }

  /** `progressPercentage`, the width of the bar. */
  function ProgressPercentage(post: OrganizationPost): (r: real)
    ensures r <= 100.0
    ensures !HasGoal(post) ==> r == 0.0
  {
    if HasGoal(post) then
      var ratio := FundedPercent(post);
      if ratio < 100.0 then ratio else 100.0
    else 0.0
  }

  /**
   * The bar is the label capped at 100: they agree up to 100 percent, and beyond it the label
   * goes on growing while the bar stays full.
   */
  lemma BarIsCappedLabel(post: OrganizationPost)
    requires HasGoal(post)
    ensures FundedPercent(post) <= 100.0 ==> ProgressPercentage(post) == FundedPercent(post)
    ensures FundedPercent(post) > 100.0 ==> ProgressPercentage(post) == 100.0 < FundedPercent(post)
  {
  }

  /** A post with a positive goal and a non-negative amount raised has a bar between 0 and 100. */
  lemma ProgressIsAPercentage(post: OrganizationPost)
    requires post.goalAmount.Some? && post.goalAmount.value > 0.0 && post.currentAmount >= 0.0
    ensures 0.0 <= ProgressPercentage(post) <= 100.0
  {
    var g := post.goalAmount.value;
    QuotientIsNonNegative(post.currentAmount, g);
  }

  lemma QuotientIsNonNegative(a: real, b: real)
    requires a >= 0.0 && b > 0.0
    ensures a / b >= 0.0
  {
  }

  /**
   * The donation handed to `addDonation`; `addDonation` replaces the placeholder id and
   * creation time.
   */
  function FeedDonation(user: Account, post: OrganizationPost, amount: real): (r: Donation)
    ensures r.fromIndividualId == user.id && r.toOrganizationId == post.organizationId && r.amountUsd == amount
    ensures r.status == "completed" && r.isPublic && !r.isRecurringMonthly
    ensures r.fundingSource != "" && r.campaignName == Some(post.title)
  {
    Donation("", user.id, post.organizationId, amount, 0, "Donated to " + post.title, Some("\U{2764}\U{FE0F}"),
             true, false, "completed", FundingSource(user), Some(post.title))
  }

  /** The card's collaborators: the auth provider, the two stores and the donation ledger. */
  class PostCard {
    const post: OrganizationPost
    const auth: AuthState
    const posts: PostsProvider
    const ledger: DonationLedger
    const feed: DonationsProvider

    constructor (post: OrganizationPost, auth: AuthState, posts: PostsProvider, ledger: DonationLedger, feed: DonationsProvider)
      ensures this.post == post && this.auth == auth && this.posts == posts
      ensures this.ledger == ledger && this.feed == feed
    {
      this.post, this.auth, this.posts, this.ledger, this.feed := post, auth, posts, ledger, feed;
    }

    /**
     * `handleDonate(amount)`; `now` stands for both clocks read on the way and `suffix` for the
     * random part of the feed donation's id. A rejected `deductFunds` rejects the handler with
     * the same value.
     */
    method HandleDonate(amount: real, now: nat, suffix: string) returns (outcome: Settled)
      modifies auth, posts, ledger, feed
      ensures old(auth.user).None? || !old(auth.user).value.IsUser() ==>
                outcome == Fulfilled(false) && unchanged(auth, posts, ledger, feed)
      ensures old(auth.user).Some? && old(auth.user).value.IsUser() ==>
                var user := old(auth.user).value;
                (amount <= 0.0 ==> outcome == Fulfilled(false))
                && (amount > 0.0 && auth.registryCorrupt ==> outcome == auth.ParseFailure())
                && (outcome == Fulfilled(true) <==>
                      amount > 0.0 && !auth.registryCorrupt && FindIndex(old(auth.registry), HasId(user.id)) != -1
                      && old(auth.registry)[FindIndex(old(auth.registry), HasId(user.id))].Balance() >= amount)
      ensures outcome != Fulfilled(true) ==>
                unchanged(posts, ledger, feed)
                && auth.registry == old(auth.registry) && auth.user == old(auth.user)
                && auth.savedUser == old(auth.savedUser)
      ensures outcome == Fulfilled(true) ==>
                var user := old(auth.user).value;
                var i := FindIndex(old(auth.registry), HasId(user.id));
                var balance := old(auth.registry)[i].Balance() - amount;
                auth.registry == SetBalance(old(auth.registry), i, balance)
                && auth.user == Some(user.(walletBalanceUsd := Some(balance))) && auth.savedUser == auth.user
      ensures outcome == Fulfilled(true) ==>
                posts.posts == WithDonation(old(posts.posts), post.id, amount)
                && posts.donationRefreshTrigger == old(posts.donationRefreshTrigger) + 1
                && posts.storedPosts == SavePosts(old(posts.storedPosts), posts.posts)
                && posts.likedPostIds == old(posts.likedPostIds) && posts.storedLikes == old(posts.storedLikes)
      ensures outcome == Fulfilled(true) ==>
                var user := old(auth.user).value;
                ledger.stored == Recorded(old(ledger.stored), UserPostDonation(user.id, post.id, amount, now))
                && feed.donations == [NewDonation(FeedDonation(user, post, amount), now, suffix)] + old(feed.donations)
                && feed.storedDonations == SaveDonations(feed.donations)
                && feed.likedDonationIds == old(feed.likedDonationIds) && feed.storedLikes == old(feed.storedLikes)
      ensures auth.isLoading == old(auth.isLoading)
    {
      var user := auth.user;
      if user.None? || !user.value.IsUser() {
        return Fulfilled(false);
      }
      var success := auth.DeductFunds(amount);
      if success == Fulfilled(true) {
        posts.DonateToPost(post.id, amount);
        ledger.RecordDonation(user.value.id, post.id, amount, now);
        feed.AddDonation(FeedDonation(user.value, post, amount), now, suffix);
        return Fulfilled(true);
      }
      return success;
    }
  }
}
