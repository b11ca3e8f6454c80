/**
 * The demo individuals and donations shown to every visitor, and the two lookups that resolve a
 * donation's donor and organization. Dates are milliseconds since the epoch, as if the local time
 * zone were UTC.
 */
module DemoData {
  import opened Wrappers
  import opened Seqs

  datatype IndividualAccount = IndividualAccount(
    id: string, fullName: string, handle: string, avatarUrl: string, email: string,
    joinedAt: int, bio: string, defaultFundingSource: string,
    walletBalanceUsd: real, totalDonatedUsd: real)

  datatype Donation = Donation(
    id: string,
    fromIndividualId: string,
    toOrganizationId: string,
    amountUsd: real,
    createdAt: int,
    message: string,
    emoji: Option<string>,
    isPublic: bool,
    isRecurringMonthly: bool,
    status: string,
    fundingSource: string,
    campaignName: Option<string>)

  datatype Organization = Organization(
    id: string, name: string, tagline: string, description: string, category: string,
    city: string, country: string, logoUrl: string, website: string, ein: Option<string>,
    totalReceivedUsd: real, supportersCount: int, isVerified: bool, tags: seq<string>)

  function DemoIndividuals(): seq<IndividualAccount> { seq(3, DemoIndividual) }

  function DemoIndividual(k: int): IndividualAccount {
    if k == 0 then
      IndividualAccount(
        "user_sam", "Sam Patel", "@sam_donates",
        "https://images.pexels." + "com/photos/2379004/pex" + "els-photo-2379004.jpeg",
        "sam.patel@" + "example.com", 1710201600000,
        "Trying to give a " + "little every month \U{2728}", "card_visa_4242", 35.75, 420.0)
    else if k == 1 then
      IndividualAccount(
        "user_amy", "Amy Chen", "@amy_helps",
        "https://images.pexels." + "com/photos/1181686/pex" + "els-photo-1181686.jpeg",
        "amy.chen@" + "example.com", 1699142400000,
        "Big fan of education " + "+ climate projects.", "bank_ach_" + "ending_0011", 120.0, 980.50)
    else
      IndividualAccount(
        "user_luis", "Luis Garc\U{ED}a", "@luis_gives",
        "https://images.pexels." + "com/photos/1704488/pex" + "els-photo-1704488.jpeg",
        "luis.garcia@" + "example.com", 1718928000000,
        "Monthly donor to " + "water + disaster " + "relief orgs.", "apple_pay", 0.0, 220.25)
  }

  function DemoDonations(): seq<Donation> { seq(5, DemoDonation) }

  function DemoDonation(k: int): Donation {
    if k == 0 then
      Donation("don_001", "user_sam", "org_clean_water", 25.0, 1728138600000,
               "For new wells in " + "rural villages \U{1F4A7}", Some("\U{1F4A7}"), true, true,
               "completed", "card_visa_4242", Some("October Clean " + "Water Drive"))
    else if k == 1 then
      Donation("don_002", "user_amy", "org_coding_kids", 50.0, 1728206100000,
               "For more laptops in " + "Oakland schools \U{1F4BB}", Some("\U{1F4BB}"), true, false,
               "completed", "bank_ach_" + "ending_0011", Some("Back\U{2011}To\U{2011}" + "School Kits"))
    else if k == 2 then
      Donation("don_003", "user_luis", "org_emergency_relief", 75.50, 1728326700000,
               "Sending support " + "after the recent " + "floods.", Some("\U{1F91D}"), true, false,
               "completed", "apple_pay", Some("Flood Relief 2024"))
    else if k == 3 then
      Donation("don_004", "user_amy", "org_tree_alliance", 10.0, 1728374700000,
               "A little something " + "for more trees in " + "the city \U{1F333}", Some("\U{1F333}"), false, true,
               "pending", "bank_ach_" + "ending_0011", None)
    else
      Donation("don_005", "user_sam", "org_coding_kids", 5.0, 1728418200000,
               "Keep inspiring the " + "next generation!", Some("\U{1F680}"), true, false,
               "completed", "card_visa_4242", None)
  }

  // ---------------------------------------------------------------------------------------
  // Lookups

  function IndividualIdIs(id: string): IndividualAccount -> bool {
    (u: IndividualAccount) => u.id == id
  }

  function OrganizationIdIs(id: string): Organization -> bool {
    (o: Organization) => o.id == id
  }

  /** `getDonor(donation)`: the first demo individual whose id is the donation's donor id. */
  function GetDonor(donation: Donation): (r: Option<IndividualAccount>)
    ensures r.None? <==> forall i :: 0 <= i < |DemoIndividuals()| ==> DemoIndividuals()[i].id != donation.fromIndividualId
    ensures r.Some? ==> exists i :: 0 <= i < |DemoIndividuals()| && DemoIndividuals()[i] == r.value
                          && r.value.id == donation.fromIndividualId
                          && forall j :: 0 <= j < i ==> DemoIndividuals()[j].id != donation.fromIndividualId
  {
    var r := Find(DemoIndividuals(), IndividualIdIs(donation.fromIndividualId));
    assert r.Some? ==> IndividualIdIs(donation.fromIndividualId)(r.value);
    r
  }

  /** `organizations.find(o => o.id === id)`: the first organization in the list with that id. */
  function OrganizationWithId(id: string, organizations: seq<Organization>): (r: Option<Organization>)
    ensures r.None? <==> forall i :: 0 <= i < |organizations| ==> organizations[i].id != id
    ensures r.Some? ==> exists i :: 0 <= i < |organizations| && organizations[i] == r.value
                          && r.value.id == id
                          && forall j :: 0 <= j < i ==> organizations[j].id != id
  {
    var r := Find(organizations, OrganizationIdIs(id));
    assert r.Some? ==> OrganizationIdIs(id)(r.value);
    r
  }

  /** `getOrganization(donation, organizations)`: the first organization in the list with the donation's organization id. */
  function GetOrganization(donation: Donation, organizations: seq<Organization>): (r: Option<Organization>)
    ensures r.None? <==> forall i :: 0 <= i < |organizations| ==> organizations[i].id != donation.toOrganizationId
    ensures r.Some? ==> exists i :: 0 <= i < |organizations| && organizations[i] == r.value
                          && r.value.id == donation.toOrganizationId
                          && forall j :: 0 <= j < i ==> organizations[j].id != donation.toOrganizationId
  {
    OrganizationWithId(donation.toOrganizationId, organizations)
  }

  // ---------------------------------------------------------------------------------------
  // Facts about the fixtures

  const DemoIndividualIdList: seq<string> := ["user_sam", "user_amy", "user_luis"]
  const DemoDonationIdList: seq<string> := ["don_001", "don_002", "don_003", "don_004", "don_005"]
  const DemoDonorIdList: seq<string> := ["user_sam", "user_amy", "user_luis", "user_amy", "user_sam"]

  lemma DemoIndividualIds(k: int)
    requires 0 <= k < 3
    ensures DemoIndividuals()[k].id == DemoIndividualIdList[k]
  {
    assert DemoIndividuals()[k] == DemoIndividual(k);
  }

  lemma DemoDonationIds(k: int)
    requires 0 <= k < 5
    ensures DemoDonations()[k].id == DemoDonationIdList[k]
    ensures DemoDonations()[k].fromIndividualId == DemoDonorIdList[k]
  {
    assert DemoDonations()[k] == DemoDonation(k);
  }

  /** No two demo individuals share an id. */
  lemma DemoIndividualIdsAreDistinct()
    ensures forall i, j :: 0 <= i < j < |DemoIndividuals()| ==> DemoIndividuals()[i].id != DemoIndividuals()[j].id
  {
    forall i, j | 0 <= i < j < |DemoIndividuals()|
      ensures DemoIndividuals()[i].id != DemoIndividuals()[j].id
    {
      DemoIndividualIds(i);
      DemoIndividualIds(j);
      assert DemoIndividualIdList[i][5] != DemoIndividualIdList[j][5];
    }
  }

  /** No two demo donations share an id. */
  lemma DemoDonationIdsAreDistinct()
    ensures forall i, j :: 0 <= i < j < |DemoDonations()| ==> DemoDonations()[i].id != DemoDonations()[j].id
  {
    forall i, j | 0 <= i < j < |DemoDonations()|
      ensures DemoDonations()[i].id != DemoDonations()[j].id
    {
      DemoDonationIds(i);
      DemoDonationIds(j);
      assert DemoDonationIdList[i][6] != DemoDonationIdList[j][6];
    }
  }

  /** Every demo donation's donor is a demo individual, so `getDonor` finds one. */
  lemma EveryDemoDonorResolves(k: int)
    requires 0 <= k < |DemoDonations()|
    ensures GetDonor(DemoDonations()[k]).Some?
  {
    DemoDonationIds(k);
    var donor := DemoDonorIdList[k];
    var i := if donor == "user_sam" then 0 else if donor == "user_amy" then 1 else 2;
    DemoIndividualIds(i);
    assert DemoIndividuals()[i].id == DemoDonations()[k].fromIndividualId;
  }
}
