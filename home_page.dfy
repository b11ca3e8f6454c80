/**
 * The home page: an organization sees the completed donations it received, their total and the
 * ten most recent; everyone else sees the public, completed donations of the feed.
 */
module HomePage {
  import opened Wrappers
  import opened Seqs
  import opened AuthContext
  import opened DemoData
  import opened DonationsContext
  import opened OrganizationPostsContext
  import opened OrganizationPostCard
  import GroupChatPage

  predicate Received(organizationId: string, d: Donation) {
    d.toOrganizationId == organizationId && d.status == "completed"
  }

  function IsReceived(organizationId: string): Donation -> bool {
    (d: Donation) => Received(organizationId, d)
  }

  /** `orgDonations`: the feed's completed donations to the organization, in feed order. */
  function OrgDonations(organizationId: string, donations: seq<Donation>): seq<Donation> {
    Filter(donations, IsReceived(organizationId))
  }

  /** A donation is listed exactly when it is in the feed, to the organization and completed. */
  lemma OrgDonationsMembers(organizationId: string, donations: seq<Donation>, d: Donation)
    ensures d in OrgDonations(organizationId, donations) <==>
            d in donations && d.toOrganizationId == organizationId && d.status == "completed"
  {
    FilterMembers(donations, IsReceived(organizationId), d);
  }

  /** `reduce((sum, d) => sum + d.amountUsd, 0)`. */
  function SumAmounts(ds: seq<Donation>): real {
    if ds == [] then 0.0 else ds[0].amountUsd + SumAmounts(ds[1..])
  }

  /** `totalReceived`. */
  function TotalReceived(organizationId: string, donations: seq<Donation>): real {
    SumAmounts(OrgDonations(organizationId, donations))
  }

  /** Donations with non-negative amounts give a non-negative total. */
  lemma {:induction false} SumIsNonNegative(ds: seq<Donation>)
    requires forall i :: 0 <= i < |ds| ==> ds[i].amountUsd >= 0.0
    ensures SumAmounts(ds) >= 0.0
  {
    if ds != [] {
      SumIsNonNegative(ds[1..]);
    }
  }

  /** A donation put in front of the feed adds its amount to the total exactly when it is one the organization received. */
  lemma TotalAfterNewDonation(organizationId: string, d: Donation, donations: seq<Donation>)
    ensures TotalReceived(organizationId, [d] + donations) ==
            (if Received(organizationId, d) then d.amountUsd else 0.0) + TotalReceived(organizationId, donations)
  {
    var rest := OrgDonations(organizationId, donations);
    assert ([d] + donations)[1..] == donations;
    if Received(organizationId, d) {
      assert OrgDonations(organizationId, [d] + donations) == [d] + rest;
      assert ([d] + rest)[1..] == rest;
    } else {
      assert OrgDonations(organizationId, [d] + donations) == rest;
    }
  }

  /**
   * A donation made on a post card raises the total of the organization that wrote the post by
   * the amount donated.
   */
  lemma CardDonationRaisesTotal(user: Account, post: OrganizationPost, amount: real, now: nat, suffix: string,
                                donations: seq<Donation>)
    ensures TotalReceived(post.organizationId, [NewDonation(FeedDonation(user, post, amount), now, suffix)] + donations)
            == amount + TotalReceived(post.organizationId, donations)
  {
    var d := NewDonation(FeedDonation(user, post, amount), now, suffix);
    TotalAfterNewDonation(post.organizationId, d, donations);
  }

  /**
   * A donation made from a group chat raises the total of the organization it went to by the
   * amount donated, and heads the public feed.
   */
  lemma ChatDonationRaisesTotal(user: Account, organization: Organization, groupName: string, amount: real,
                                now: nat, suffix: string, donations: seq<Donation>)
    ensures var d := NewDonation(GroupChatPage.GroupDonation(user, organization, groupName, amount), now, suffix);
            TotalReceived(organization.id, [d] + donations) == amount + TotalReceived(organization.id, donations)
            && PublicFeed([d] + donations) == [d] + PublicFeed(donations)
  {
    var d := NewDonation(GroupChatPage.GroupDonation(user, organization, groupName, amount), now, suffix);
    TotalAfterNewDonation(organization.id, d, donations);
    assert ([d] + donations)[1..] == donations;
  }

  predicate PublicCompleted(d: Donation) {
    d.isPublic && d.status == "completed"
  }

  /** The individual view's feed: the public, completed donations, in feed order. */
  function PublicFeed(donations: seq<Donation>): seq<Donation> {
    Filter(donations, PublicCompleted)
  }

  lemma PublicFeedMembers(donations: seq<Donation>, d: Donation)
    ensures d in PublicFeed(donations) <==> d in donations && d.isPublic && d.status == "completed"
  {
    FilterMembers(donations, PublicCompleted, d);
  }

  /** What the page shows. */
  datatype HomeView =
    | OrganizationView(received: seq<Donation>, totalReceived: real, recent: seq<Donation>)
    | FeedView(feed: seq<Donation>)

  /** The page for the signed-in account (if any) over the feed's donations. */
  function Home(user: Option<Account>, donations: seq<Donation>): (v: HomeView)
    ensures v.OrganizationView? <==> user.Some? && !user.value.IsUser()
    ensures v.OrganizationView? ==>
              v.received == OrgDonations(user.value.id, donations)
              && v.totalReceived == SumAmounts(v.received)
              && |v.recent| <= 10 && |v.recent| <= |v.received| && v.recent == v.received[..|v.recent|]
              && (|v.received| >= 10 ==> |v.recent| == 10) && (|v.received| < 10 ==> v.recent == v.received)
    ensures v.FeedView? ==> v.feed == PublicFeed(donations)
  {
    if user.Some? && !user.value.IsUser() then
      var received := OrgDonations(user.value.id, donations);
      OrganizationView(received, SumAmounts(received), SliceTo(received, 10))
    else
      FeedView(PublicFeed(donations))
  }
}
