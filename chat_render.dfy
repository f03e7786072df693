/**
 * The two list views of the chat screen. Each render clears its list and
 * appends one entry per backend item, in the backend's order; nothing from
 * the previous contents survives.
 */
module ChatRender {
  import opened Wrappers

  /** One entry of GET_CHAT_DASHBOARD's `contacts`. */
  datatype Contact = Contact(username: string, tipeUser: string, isOnline: bool, unreadCount: int)

  /** One entry of GET_CONVERSATION's `messages`. */
  datatype Message = Message(sender: string, message: string, timestamp: string)

  /** A rendered contact: its label, online indicator, the "active" mark and
      the unread badge (present only for a positive count). */
  datatype ContactRow = ContactRow(username: string, tipeUser: string, online: bool,
                                   active: bool, badge: Option<int>)

  /** A rendered message bubble, styled "self" or "other". */
  datatype MessageRow = MessageRow(content: string, time: string, self: bool)

  /** `row` is what the contact list shows for `c` while `recipient` is the
      open conversation's peer. */
  predicate ShowsContact(row: ContactRow, c: Contact, recipient: Option<string>) {
    row.username == c.username && row.tipeUser == c.tipeUser && row.online == c.isOnline
    && (row.active <==> recipient == Some(c.username))
    && (row.badge.Some? <==> c.unreadCount > 0)
    && (row.badge.Some? ==> row.badge.value == c.unreadCount)
  }

  /** The whole list shows `contacts`, one row each, in order. */
  predicate ShowsContacts(rows: seq<ContactRow>, contacts: seq<Contact>, recipient: Option<string>) {
    |rows| == |contacts|
    && forall i :: 0 <= i < |rows| ==> ShowsContact(rows[i], contacts[i], recipient)
  }

  /** `row` is the bubble of `m` for the signed-in `user`. */
  predicate ShowsMessage(row: MessageRow, m: Message, user: string) {
    row.content == m.message && row.time == m.timestamp && (row.self <==> m.sender == user)
  }

  predicate ShowsMessages(rows: seq<MessageRow>, messages: seq<Message>, user: string) {
    |rows| == |messages|
    && forall i :: 0 <= i < |rows| ==> ShowsMessage(rows[i], messages[i], user)
  }

  /** `renderContactList`: rebuilds the contact list from the fetched
      contacts, marking the current recipient's row active. */
  method RenderContactList(contacts: seq<Contact>, recipient: Option<string>)
    returns (rows: seq<ContactRow>)
    ensures ShowsContacts(rows, contacts, recipient)
  {
    rows := [];
    var i := 0;
    while i < |contacts|
      invariant 0 <= i <= |contacts|
      invariant ShowsContacts(rows, contacts[..i], recipient)
    {
      var c := contacts[i];
      var badge := if c.unreadCount > 0 then Some(c.unreadCount) else None;
      rows := rows + [ContactRow(c.username, c.tipeUser, c.isOnline, recipient == Some(c.username), badge)];
      i := i + 1;
    }
    assert contacts[..i] == contacts;
  }

  /** `renderMessages`: rebuilds the message area from the fetched history,
      styling the signed-in user's own messages as "self". */
  method RenderMessages(messages: seq<Message>, user: string) returns (rows: seq<MessageRow>)
    ensures ShowsMessages(rows, messages, user)
  {
    rows := [];
    var i := 0;
    while i < |messages|
      invariant 0 <= i <= |messages|
      invariant ShowsMessages(rows, messages[..i], user)
    {
      var m := messages[i];
      rows := rows + [MessageRow(m.message, m.timestamp, m.sender == user)];
      i := i + 1;
    }
    assert messages[..i] == messages;
  }

  /** The usernames of a fetch are pairwise different. */
  predicate DistinctUsernames(contacts: seq<Contact>) {
    forall i, j :: 0 <= i < j < |contacts| ==> contacts[i].username != contacts[j].username
  }

  /** With one contact per username, at most one row is marked active, and
      it is the recipient's. */
  lemma AtMostOneActiveRow(rows: seq<ContactRow>, contacts: seq<Contact>, recipient: Option<string>)
    requires ShowsContacts(rows, contacts, recipient) && DistinctUsernames(contacts)
    ensures forall i, j :: 0 <= i < |rows| && 0 <= j < |rows| && rows[i].active && rows[j].active ==> i == j
    ensures forall i :: 0 <= i < |rows| && rows[i].active ==> recipient == Some(rows[i].username)
  {
    forall i, j | 0 <= i < |rows| && 0 <= j < |rows| && rows[i].active && rows[j].active
      ensures i == j
    {
      assert ShowsContact(rows[i], contacts[i], recipient) && ShowsContact(rows[j], contacts[j], recipient);
    }
  }

  /** `contacts.find(c => c.username === name)`: the first contact with that
      username, if any. */
  function FindContact(contacts: seq<Contact>, name: string): (r: Option<nat>)
    ensures r.Some? ==> r.value < |contacts| && contacts[r.value].username == name
                        && forall k :: 0 <= k < r.value ==> contacts[k].username != name
    ensures r.None? ==> forall k :: 0 <= k < |contacts| ==> contacts[k].username != name
  {
    if contacts == [] then None
    else if contacts[0].username == name then Some(0)
    else match FindContact(contacts[1..], name)
      case None => None
      case Some(k) => Some(k + 1)
  }
}
