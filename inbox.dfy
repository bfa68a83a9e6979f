/**
 * The inbox page: the conversation list (all seed conversations), the selected conversation,
 * the message list on screen, and the draft; sending appends one message locally.
 */
module Inbox {
  import opened Wrappers
  import opened Types
  import opened Text
  import opened Auth
  import MockData

  /** JavaScript truthiness of the role: present and not the empty string. */
  predicate RoleTruthy(role: Option<Role>) {
    role.Some? && RoleName(role.value) != ""
  }

  /** The sender of a message sent from this page: the owner as owner, the renter for every other role. */
  function SenderIdFor(role: Option<Role>, c: Conversation): string {
    if role == Some(Role.Owner) then c.owner.id else c.renter.id
  }

  /** `msg-${Date.now()}`. */
  function MessageId(now: nat): string {
    "msg-" + Decimal(now)
  }

  /** A message is drawn as one's own when the sender id carries the prefix of the viewer's role. */
  predicate IsOwn(role: Option<Role>, senderId: string) {
    (role == Some(Role.Owner) && StartsWith(senderId, "owner")) ||
    (role == Some(Role.Renter) && StartsWith(senderId, "renter"))
  }

  /** The sender rule: the owner's id only for an owner; admins, renters and unknown roles send as the renter. */
  lemma SenderRule(role: Option<Role>, c: Conversation)
    ensures role == Some(Role.Owner) ==> SenderIdFor(role, c) == c.owner.id
    ensures role != Some(Role.Owner) ==> SenderIdFor(role, c) == c.renter.id
    ensures role == Some(Admin) ==> SenderIdFor(role, c) == c.renter.id
  {
  }

  /** Only owners and renters ever see a message as their own. */
  lemma OwnNeedsUserRole(role: Option<Role>, senderId: string)
    requires IsOwn(role, senderId)
    ensures role == Some(Role.Owner) || role == Some(Role.Renter)
  {
  }

  /** In a conversation whose ids carry their role prefixes, what an owner or renter sends is shown as theirs. */
  lemma SentMessageShownAsOwn(role: Option<Role>, c: Conversation)
    requires role == Some(Role.Owner) || role == Some(Role.Renter)
    requires StartsWith(c.owner.id, "owner") && StartsWith(c.renter.id, "renter")
    ensures IsOwn(role, SenderIdFor(role, c))
  {
  }

  /** An admin's messages go out under the renter's id and are never shown as the admin's own. */
  lemma AdminNeverOwn(c: Conversation)
    ensures !IsOwn(Some(Admin), SenderIdFor(Some(Admin), c))
  {
  }

  /** In every seed conversation the owner and the renter ids carry their role prefixes. */
  lemma SeedParticipantsPrefixed()
    ensures forall k :: 0 <= k < |MockData.Conversations| ==>
      StartsWith(MockData.Conversations[k].owner.id, "owner") &&
      StartsWith(MockData.Conversations[k].renter.id, "renter")
  {
  }

  /** The page state. */
  class InboxPage {
    var conversations: seq<Conversation>
    var selected: Option<Conversation>
    var messages: seq<Message>
    var newMessage: string

    /**
     * The messages on screen are those of the selected conversation followed by the ones sent
     * since it was selected.
     */
    predicate Valid()
      reads this
    {
      selected.Some? ==> selected.value.messages <= messages
    }

    constructor ()
      ensures Valid()
      ensures conversations == [] && selected.None? && messages == [] && newMessage == ""
    {
      conversations, selected, messages, newMessage := [], None, [], "";
    }

    /**
     * The session effect: redirect when definitely logged out; with a session and a role, list
     * all seed conversations and open the first one.
     */
    method OnAuthChange(isAuthenticated: Option<bool>, role: Option<Role>) returns (redirect: bool)
      modifies this
      ensures redirect <==> isAuthenticated == Some(false)
      ensures (isAuthenticated == Some(true) && RoleTruthy(role)) ==>
        conversations == MockData.Conversations &&
        selected == Some(MockData.Conversations[0]) && messages == MockData.Conversations[0].messages
      ensures !(isAuthenticated == Some(true) && RoleTruthy(role)) ==>
        conversations == old(conversations) && selected == old(selected) && messages == old(messages)
      ensures newMessage == old(newMessage)
      ensures old(Valid()) ==> Valid()
    {
      redirect := false;
      if isAuthenticated == Some(false) {
        redirect := true;
      } else if isAuthenticated == Some(true) && RoleTruthy(role) {
        conversations := MockData.Conversations;
        if |MockData.Conversations| > 0 {
          selected := Some(MockData.Conversations[0]);
          messages := MockData.Conversations[0].messages;
        }
      }
    }

    /** `handleSelectConversation`: the list shows that conversation's stored messages only. */
    method SelectConversation(c: Conversation)
      modifies this
      ensures selected == Some(c) && messages == c.messages
      ensures conversations == old(conversations) && newMessage == old(newMessage)
      ensures Valid()
    {
      selected := Some(c);
      messages := c.messages;
    }

    /** The mobile back button closes the conversation. */
    method Back()
      modifies this
      ensures selected.None?
      ensures conversations == old(conversations) && messages == old(messages) && newMessage == old(newMessage)
      ensures Valid()
    {
      selected := None;
    }

    /** Typing into the message box. */
    method SetDraft(text: string)
      modifies this
      ensures newMessage == text
      ensures conversations == old(conversations) && selected == old(selected) && messages == old(messages)
      ensures old(Valid()) ==> Valid()
    {
      newMessage := text;
    }

    /**
     * `handleSendMessage` at time `now` (`timestamp` is its ISO rendering): nothing happens when
     * the draft is blank or no conversation is open; otherwise exactly one message with the draft
     * text is appended, under the sender the role picks, and the draft is cleared.
     */
    method SendMessage(role: Option<Role>, now: nat, timestamp: string) returns (sent: bool)
      modifies this
      ensures sent <==> !TrimmedIsEmpty(old(newMessage)) && old(selected).Some?
      ensures sent ==> (messages == old(messages) +
        [Message(MessageId(now), SenderIdFor(role, old(selected).value), old(newMessage), timestamp)])
      ensures sent ==> newMessage == ""
      ensures !sent ==> messages == old(messages) && newMessage == old(newMessage)
      ensures conversations == old(conversations) && selected == old(selected)
      ensures old(Valid()) ==> Valid()
    {
      if TrimmedIsEmpty(newMessage) || selected.None? {
        return false;
      }
      var message := Message(MessageId(now), SenderIdFor(role, selected.value), newMessage, timestamp);
      messages := messages + [message];
      newMessage := "";
      sent := true;
    }
  }

  /** Messages sent from now on are lost when the conversation is selected again. */
  method SendThenReselect(page: InboxPage, c: Conversation, role: Option<Role>, now: nat, timestamp: string)
    requires page.selected == Some(c) && page.messages == c.messages && !TrimmedIsEmpty(page.newMessage)
    modifies page
    ensures page.messages == c.messages
  {
    var sent := page.SendMessage(role, now, timestamp);
    assert sent && |page.messages| == |c.messages| + 1;
    page.SelectConversation(c);
  }
}
