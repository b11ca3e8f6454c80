/**
 * A group's chat: its messages and the input line, sending a message, and a donation made from
 * the chat, which debits the wallet, adds a feed donation and posts a message about it.
 */
module GroupChatPage {
  import opened Wrappers
  import opened Promises
  import opened Seqs
  import opened Strings
  import opened AuthContext
  import opened DemoData
  import opened DonationsContext

  datatype ChatMessage = ChatMessage(sender: string, text: string, isMe: bool)

  /** `initialMessages`. */
  function InitialMessages(): seq<ChatMessage> {
    [ChatMessage("Alex", "Hey team, how much " + "should we donate " + "this month?", false),
     ChatMessage("Jordan", "Maybe $20 each?", false),
     ChatMessage("You", "I'm in for $25 \U{1F64C}", true),
     ChatMessage("Taylor", "Love it. Let's send " + "to Clean Water Now " + "again.", false)]
  }

  /** What the route's `location.state` may carry; a missing state has neither field. */
  datatype LocationState = LocationState(groupName: Option<string>, organizationId: Option<string>)

  /** `locationState.groupName || 'Group'`. */
  function GroupName(state: Option<LocationState>): (r: string)
    ensures r != ""
    ensures state.Some? && state.value.groupName.Some? && state.value.groupName.value != "" ==> r == state.value.groupName.value
  {
    if state.Some? && state.value.groupName.Some? && state.value.groupName.value != "" then state.value.groupName.value
    else "Group"
  }

  /** `locationState.organizationId || ''`. */
  function OrganizationId(state: Option<LocationState>): string
  {
    if state.Some? && state.value.organizationId.Some? then state.value.organizationId.value else ""
  }

  /** The donation handed to `addDonation`, before it gets its id and creation time. */
  function GroupDonation(user: Account, organization: Organization, groupName: string, amount: real): (r: Donation)
    ensures r.fromIndividualId == user.id && r.toOrganizationId == organization.id && r.amountUsd == amount
    ensures r.status == "completed" && r.isPublic && !r.isRecurringMonthly && r.fundingSource == FundingSource(user)
    ensures r.message == "Donated from " + groupName && r.campaignName == Some(groupName + " Group Donation")
  {
    Donation("", user.id, organization.id, amount, 0, "Donated from " + groupName, Some("\U{2764}\U{FE0F}"),
             true, false, "completed", FundingSource(user), Some(groupName + " Group Donation"))
  }

  /** The chat message about a donation; `amountText` is `amount.toFixed(2)`. */
  function DonationMessage(organization: Organization, amountText: string): (r: ChatMessage)
    ensures r.sender == "You" && r.isMe
    ensures r.text == "Just donated $" + amountText + " to " + organization.name + "! \U{1F389}"
  {
    ChatMessage("You", "Just donated $" + amountText + " to " + organization.name + "! \U{1F389}", true)
  }

  class ChatPage {
    const groupName: string
    /** The demo organization the route's id names, if any. */
    const organization: Option<Organization>
    const auth: AuthState
    const feed: DonationsProvider
    var messages: seq<ChatMessage>
    var inputText: string

    /** The page for route state `state`; `organizations` stands for the demo organizations. */
    constructor (state: Option<LocationState>, organizations: seq<Organization>, auth: AuthState, feed: DonationsProvider)
      ensures groupName == GroupName(state)
      ensures organization == OrganizationWithId(OrganizationId(state), organizations)
      ensures this.auth == auth && this.feed == feed
      ensures messages == InitialMessages() && inputText == ""
    {
      groupName := GroupName(state);
      organization := OrganizationWithId(OrganizationId(state), organizations);
      this.auth, this.feed := auth, feed;
      messages, inputText := InitialMessages(), "";
    }

    /** Typing in the input line. */
    method EditInput(text: string)
      modifies this
      ensures inputText == text && messages == old(messages)
    {
      inputText := text;
    }

    /** `handleSend`: a line that is blank after trimming is ignored; otherwise it is sent trimmed. */
    method HandleSend()
      modifies this
      ensures Trim(old(inputText)) == "" ==> messages == old(messages) && inputText == old(inputText)
      ensures Trim(old(inputText)) != "" ==>
                messages == old(messages) + [ChatMessage("You", Trim(old(inputText)), true)] && inputText == ""
    {
      var trimmed := Trim(inputText);
      if trimmed == "" {
        return;
      }
      messages := messages + [ChatMessage("You", trimmed, true)];
      inputText := "";
    }

    /**
     * `handleDonate(amount)`; `now` stands for the clock and `suffix` for the random part of the
     * feed donation's id, `amountText` for `amount.toFixed(2)`. A rejected `deductFunds` rejects
     * the handler with the same value.
     */
    method HandleDonate(amount: real, amountText: string, now: nat, suffix: string) returns (outcome: Settled)
      modifies this, auth, feed
      ensures inputText == old(inputText)
      ensures old(auth.user).None? || !old(auth.user).value.IsUser() || organization.None? ==>
                outcome == Fulfilled(false) && unchanged(auth, feed) && messages == old(messages)
      ensures old(auth.user).Some? && old(auth.user).value.IsUser() && organization.Some? ==>
                var user := old(auth.user).value;
                (amount <= 0.0 ==> outcome == Fulfilled(false))
                && (amount > 0.0 && auth.registryCorrupt ==> outcome == auth.ParseFailure())
                && (outcome == Fulfilled(true) <==>
                      amount > 0.0 && !auth.registryCorrupt && FindIndex(old(auth.registry), HasId(user.id)) != -1
                      && old(auth.registry)[FindIndex(old(auth.registry), HasId(user.id))].Balance() >= amount)
      ensures outcome != Fulfilled(true) ==>
                unchanged(feed) && messages == old(messages)
                && auth.registry == old(auth.registry) && auth.user == old(auth.user)
                && auth.savedUser == old(auth.savedUser)
      ensures outcome == Fulfilled(true) ==>
                var user := old(auth.user).value;
                var i := FindIndex(old(auth.registry), HasId(user.id));
                var balance := old(auth.registry)[i].Balance() - amount;
                auth.registry == SetBalance(old(auth.registry), i, balance)
                && auth.user == Some(user.(walletBalanceUsd := Some(balance))) && auth.savedUser == auth.user
      ensures outcome == Fulfilled(true) ==>
                var user := old(auth.user).value;
                feed.donations == [NewDonation(GroupDonation(user, organization.value, groupName, amount), now, suffix)]
                                  + old(feed.donations)
                && feed.storedDonations == SaveDonations(feed.donations)
                && feed.likedDonationIds == old(feed.likedDonationIds) && feed.storedLikes == old(feed.storedLikes)
                && messages == old(messages) + [DonationMessage(organization.value, amountText)]
      ensures auth.isLoading == old(auth.isLoading)
    {
      var user := auth.user;
      if user.None? || !user.value.IsUser() || organization.None? {
        return Fulfilled(false);
      }
      var success := auth.DeductFunds(amount);
      if success == Fulfilled(true) {
        feed.AddDonation(GroupDonation(user.value, organization.value, groupName, amount), now, suffix);
        messages := messages + [DonationMessage(organization.value, amountText)];
        return Fulfilled(true);
      }
      return success;
    }
  }

  /** A sent message is never blank and carries no whitespace at either end. */
  lemma SentTextIsTrimmed(text: string)
    requires Trim(text) != ""
    ensures var t := Trim(text); !IsWhitespace(t[0]) && !IsWhitespace(t[|t| - 1])
  {
    TrimSpec(text);
  }
}
