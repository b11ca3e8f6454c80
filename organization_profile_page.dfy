/**
 * An organization's profile page: the organization the route names, and its five largest
 * public, completed demo donations.
 */
module OrganizationProfilePage {
  import opened Wrappers
  import opened Seqs
  import opened StableSort
  import opened DemoData

  /** The donations the page may show: to the organization, public and completed. */
  predicate Featured(organizationId: string, d: Donation) {
    d.toOrganizationId == organizationId && d.isPublic && d.status == "completed"
  }

  function IsFeatured(organizationId: string): Donation -> bool {
    (d: Donation) => Featured(organizationId, d)
  }

  function Amount(d: Donation): real {
    d.amountUsd
  }

  /** The featured donations, largest first, equal amounts in list order. */
  function RankedDonations(organizationId: string, donations: seq<Donation>): (r: seq<Donation>)
    ensures SortedDesc(r, Amount)
    ensures multiset(r) == multiset(Filter(donations, IsFeatured(organizationId)))
  {
    SortDesc(Filter(donations, IsFeatured(organizationId)), Amount)
  }

  /** `donations.filter(...).sort((a, b) => b.amountUsd - a.amountUsd).slice(0, 5)`. */
  function TopDonations(organizationId: string, donations: seq<Donation>): (r: seq<Donation>)
    ensures |r| <= 5 && SortedDesc(r, Amount)
  {
    var ranked := RankedDonations(organizationId, donations);
    var r := SliceTo(ranked, 5);
    assert forall i, j :: 0 <= i < j < |r| ==> r[i] == ranked[i] && r[j] == ranked[j];
    r
  }

  /** Every shown donation is featured, and one is shown for each featured donation up to five. */
  lemma TopDonationsAreFeatured(organizationId: string, donations: seq<Donation>)
    ensures var r := TopDonations(organizationId, donations);
            var featured := Filter(donations, IsFeatured(organizationId));
            |r| == (if |featured| < 5 then |featured| else 5)
            && forall i :: 0 <= i < |r| ==> Featured(organizationId, r[i]) && r[i] in donations
  {
    var ranked := RankedDonations(organizationId, donations);
    var r := TopDonations(organizationId, donations);
    forall i | 0 <= i < |r|
      ensures Featured(organizationId, r[i]) && r[i] in donations
    {
      assert r[i] == ranked[i];
      assert r[i] in multiset(ranked);
      FilterMembers(donations, IsFeatured(organizationId), r[i]);
    }
  }

  /** A featured donation that is not shown is no larger than any shown one. */
  lemma OmittedDonationsAreNoLarger(organizationId: string, donations: seq<Donation>, d: Donation)
    requires d in donations && Featured(organizationId, d)
    requires d !in TopDonations(organizationId, donations)
    ensures forall i :: 0 <= i < |TopDonations(organizationId, donations)| ==>
              d.amountUsd <= TopDonations(organizationId, donations)[i].amountUsd
  {
    var ranked := RankedDonations(organizationId, donations);
    var r := TopDonations(organizationId, donations);
    FilterMembers(donations, IsFeatured(organizationId), d);
    assert d in multiset(ranked);
    var j :| 0 <= j < |ranked| && ranked[j] == d;
    PrefixIndex(ranked, |r|);
    forall i | 0 <= i < |r|
      ensures d.amountUsd <= r[i].amountUsd
    {
      assert r[i] == ranked[i];
    }
  }

  /** What the page shows for a route id. */
  datatype ProfileView = NotFound | Profile(organization: Organization, topDonations: seq<Donation>)

  /**
   * The page for route id `id`; `organizations` stands for the demo organizations, which are
   * not part of this model. The donations are the demo donations.
   */
  function ProfilePage(id: string, organizations: seq<Organization>): (v: ProfileView)
    ensures v.NotFound? <==> forall i :: 0 <= i < |organizations| ==> organizations[i].id != id
    ensures v.Profile? ==> v.organization.id == id && v.organization in organizations
                           && v.topDonations == TopDonations(id, DemoDonations())
  {
    match OrganizationWithId(id, organizations)
    case None => NotFound
    case Some(organization) => Profile(organization, TopDonations(organization.id, DemoDonations()))
  }
}
