/**
 * The chat screen's state machine: the open conversation's peer
 * (`currentRecipient`), the polling interval (`chatPollingInterval`), the
 * stored session, the message input, and the two list views, driven by tab
 * switches, polling ticks, contact clicks and the send form.
 *
 * Backend replies are parameters of the methods, so every outcome is
 * covered; `calls` logs the actions sent, in the order they are issued.
 */
module Chat {
  import opened Wrappers
  import opened JsString
  import opened Roles
  import opened ChatRender

  /** The stored session: token and signed-in user. */
  datatype Session = Session(token: string, user: User)

  /** Any status other than "success". The chat code treats all of them
      alike; only the record loaders act on "expired". */
  datatype Status = Error | Expired

  /** What a backend call yields: a "success" result with its payload, a
      result with another status and its message, or a rejected promise (the
      failure handler of the remote call), which the chat code does not catch
      and which therefore ends the handler that awaited it. */
  datatype Reply<T> = Done(data: T) | Refused(status: Status, message: string) | Thrown

  /** A backend call, by action name, with the fields the client sends. */
  datatype Action =
    | GetChatDashboard(token: string)
    | GetConversation(token: string, recipient: string)
    | SendMessage(token: string, recipient: string, message: string)
    | MarkAsRead(token: string, sender: string)
    | LoadRecords(action: string, token: string)   // the record loaders of the other tabs

  const ChatTab := "tab-chat"

  /** The loader action `switchTab` sends for a record tab, if `tabId` is one;
      the chat tab has none. */
  function RecordsAction(tabId: string): (r: Option<string>)
    ensures r.Some? <==> tabId in ["tab-a1", "tab-a2", "tab-a3", "tab-berita"]
    ensures r.Some? ==> tabId != ChatTab && r.value in ["GET_A1_DATA", "GET_A2_DATA", "GET_A3_MATCHES", "GET_BERITA"]
  {
    if tabId == "tab-a1" then Some("GET_A1_DATA")
    else if tabId == "tab-a2" then Some("GET_A2_DATA")
    else if tabId == "tab-a3" then Some("GET_A3_MATCHES")
    else if tabId == "tab-berita" then Some("GET_BERITA")
    else None
  }

  /** JavaScript truthiness of `currentRecipient`: set, and not the empty
      string. */
  predicate Truthy(recipient: Option<string>) {
    recipient.Some? && recipient.value != ""
  }

  /** The interval ids a stored handle can cancel. */
  function HandleSet(handle: Option<nat>): set<nat> {
    if handle.Some? then {handle.value} else {}
  }

  /** If every live interval is the stored one, at most one is live. */
  lemma AtMostOneLive(live: set<nat>, handle: Option<nat>)
    requires live <= HandleSet(handle)
    ensures |live| <= 1
  {
    if handle.Some? {
      assert live == {} || live == {handle.value};
    }
  }

  /** No reply among these throws before `openConversation` reaches its
      final dashboard refresh. */
  predicate OpenCompletes(conv: Reply<seq<Message>>, mark1: Reply<()>, mark2: Reply<()>) {
    !conv.Thrown? && !(conv.Done? && mark1.Thrown?) && !mark2.Thrown?
  }

  /** The calls `openConversation` issues for `peer`: the history fetch;
      after a successful fetch the read receipt of `loadConversation`; its
      own read receipt; then the dashboard refresh. A rejected call ends the
      sequence. */
  function OpenConversationCalls(token: string, peer: string, conv: Reply<seq<Message>>,
                                 mark1: Reply<()>, mark2: Reply<()>): (r: seq<Action>)
    ensures 1 <= |r| <= 4 && r[0] == GetConversation(token, peer)
    ensures forall a :: a in r ==> a in [GetConversation(token, peer), MarkAsRead(token, peer),
                                         GetChatDashboard(token)]
  {
    [GetConversation(token, peer)]
    + if conv.Thrown? then []
      else (if conv.Done? then [MarkAsRead(token, peer)] else [])
           + if conv.Done? && mark1.Thrown? then []
             else [MarkAsRead(token, peer)] + if mark2.Thrown? then [] else [GetChatDashboard(token)]
  }

  /** Opening a conversation sends two read receipts for the peer when the
      history arrives and the first receipt is not rejected, and one when the
      history is refused or that first receipt is rejected; none when the
      fetch is rejected, and none for anyone else. The fetch comes first and,
      when nothing throws, the dashboard refresh last. */
  lemma OpenConversationReceipts(token: string, peer: string, conv: Reply<seq<Message>>,
                                 mark1: Reply<()>, mark2: Reply<()>)
    ensures var calls := OpenConversationCalls(token, peer, conv, mark1, mark2);
            calls[0] == GetConversation(token, peer)
            && multiset(calls)[MarkAsRead(token, peer)]
               == (if conv.Thrown? then 0 else if conv.Done? && !mark1.Thrown? then 2 else 1)
            && (forall other :: other != peer ==> MarkAsRead(token, other) !in calls)
            && (OpenCompletes(conv, mark1, mark2) <==> calls[|calls| - 1] == GetChatDashboard(token))
  {
  }

  /** The header's online indicator after the contact list is rebuilt from
      `contacts`: the recipient's entry, found with `FindContact`, sets it;
      when there is no truthy recipient or no entry for it, it keeps `before`. */
  predicate ShowsPeerStatus(status: Option<bool>, before: Option<bool>, contacts: seq<Contact>,
                            recipient: Option<string>)
  {
    if Truthy(recipient) && FindContact(contacts, recipient.value).Some?
    then status == Some(contacts[FindContact(contacts, recipient.value).value].isOnline)
    else status == before
  }

  /** The header's indicator agrees with the recipient's row in the rebuilt
      list: that row is the active one and shows the same online state. */
  lemma PeerStatusMatchesActiveRow(rows: seq<ContactRow>, status: Option<bool>, before: Option<bool>,
                                   contacts: seq<Contact>, recipient: Option<string>, k: nat)
    requires ShowsContacts(rows, contacts, recipient)
    requires ShowsPeerStatus(status, before, contacts, recipient)
    requires Truthy(recipient) && FindContact(contacts, recipient.value) == Some(k)
    ensures k < |rows| && rows[k].active && status == Some(rows[k].online)
  {
    assert ShowsContact(rows[k], contacts[k], recipient);
  }

  class ChatView {
    var tab: string                   // the tab shown
    var session: Option<Session>      // the session stored in the browser
    var recipient: Option<string>     // currentRecipient
    var handle: Option<nat>           // chatPollingInterval
    var live: set<nat>                // intervals the browser still fires
    var nextHandle: nat               // the id the next setInterval returns
    var input: string                 // the chat input's value
    var calls: seq<Action>            // backend calls, in issue order
    var notifications: seq<string>    // notices shown, oldest first
    var contactsView: seq<ContactRow> // #contact-list
    var messagesView: seq<MessageRow> // #chat-messages
    var peerStatus: Option<bool>      // #chat-recipient-status: online or not, once set

    /** Every live interval is the one `chatPollingInterval` holds, and ids
        handed out so far are below `nextHandle`. */
    ghost predicate Valid()
      reads this
    {
      live <= HandleSet(handle) && (handle.Some? ==> handle.value < nextHandle)
    }

    /** The page as loaded with the session found in storage. */
    constructor (stored: Option<Session>)
      ensures Valid() && session == stored
      ensures recipient == None && handle == None && live == {} && input == ""
      ensures calls == [] && notifications == [] && contactsView == [] && messagesView == []
      ensures peerStatus == None
    {
      tab := "";
      session := stored;
      recipient := None;
      handle, live, nextHandle := None, {}, 0;
      input := "";
      calls, notifications := [], [];
      contactsView, messagesView := [], [];
      peerStatus := None;
    }

    /** `clearInterval(chatPollingInterval)`: stops the stored interval; a
        stale or missing handle is harmless. */
    method CancelPolling()
      requires Valid()
      modifies this`live
      ensures Valid() && live == {}
    {
      live := live - HandleSet(handle);
    }

    /** `startChatPolling`: cancels the stored interval, then installs a new
        one, so exactly one is live afterwards, whatever came before. */
    method StartChatPolling()
      requires Valid()
      modifies this`live, this`handle, this`nextHandle
      ensures Valid()
      ensures handle == Some(old(nextHandle)) && live == {old(nextHandle)}
      ensures nextHandle == old(nextHandle) + 1
      ensures old(handle).Some? ==> old(handle).value !in live
    {
      CancelPolling();
      var h := nextHandle;
      live := live + {h};
      handle := Some(h);
      nextHandle := nextHandle + 1;
    }

    /** `clearSession`: drops the stored session and stops polling. The
        recipient is not reset. */
    method ClearSession()
      requires Valid()
      modifies this`session, this`live
      ensures Valid() && session == None && live == {}
    {
      session := None;
      CancelPolling();
    }

    /** The user edits the chat input (an action of the environment, not a
        function of the page). */
    method EditInput(text: string)
      modifies this`input
      ensures input == text
    {
      input := text;
    }

    /** `loadChatDashboard(initialLoad)`: without a session, nothing. Else
        GET_CHAT_DASHBOARD; on success the contact list is rebuilt and the
        header's indicator follows the recipient's entry; a refusal is shown
        only on an initial (non-silent) load. */
    method LoadChatDashboard(initialLoad: bool, dash: Reply<seq<Contact>>)
      modifies this`calls, this`notifications, this`contactsView, this`peerStatus
      ensures session.None? ==> calls == old(calls)
      ensures session.Some? ==> calls == old(calls) + [GetChatDashboard(session.value.token)]
      ensures session.Some? && dash.Done? ==> ShowsContacts(contactsView, dash.data, recipient)
      ensures !(session.Some? && dash.Done?) ==> contactsView == old(contactsView)
      ensures session.Some? && dash.Done? ==> ShowsPeerStatus(peerStatus, old(peerStatus), dash.data, recipient)
      ensures !(session.Some? && dash.Done?) ==> peerStatus == old(peerStatus)
      ensures notifications == old(notifications)
                               + if session.Some? && dash.Refused? && initialLoad then [dash.message] else []
    {
      if session.None? {
        return;
      }
      calls := calls + [GetChatDashboard(session.value.token)];
      match dash
      case Done(contacts) =>
        contactsView := RenderContactList(contacts, recipient);
        if Truthy(recipient) {
          var found := FindContact(contacts, recipient.value);
          if found.Some? {
            peerStatus := Some(contacts[found.value].isOnline);
          }
        }
      case Refused(_, message) =>
        if initialLoad {
          notifications := notifications + [message];
        }
      case Thrown =>
    }

    /** `markMessagesAsRead`: sends MARK_AS_READ; its result is ignored, but
        a rejection ends the awaiting handler. */
    method MarkMessagesAsRead(token: string, sender: string, reply: Reply<()>)
      returns (aborted: bool)
      modifies this`calls
      ensures calls == old(calls) + [MarkAsRead(token, sender)]
      ensures aborted == reply.Thrown?
    {
      calls := calls + [MarkAsRead(token, sender)];
      aborted := reply.Thrown?;
    }

    /** `loadConversation(token, peer, markRead)`: GET_CONVERSATION; on
        success the message area is rebuilt, whoever the recipient is by
        then, and, when `markRead`, a read receipt follows. A refusal changes
        nothing. `aborted` reports a rejection that ends the caller too. */
    method LoadConversation(token: string, peer: string, markRead: bool,
                            conv: Reply<seq<Message>>, mark: Reply<()>)
      returns (aborted: bool)
      requires session.Some?
      modifies this`calls, this`messagesView
      ensures calls == old(calls) + [GetConversation(token, peer)]
                       + if conv.Done? && markRead then [MarkAsRead(token, peer)] else []
      ensures conv.Done? ==> ShowsMessages(messagesView, conv.data, session.value.user.username)
      ensures !conv.Done? ==> messagesView == old(messagesView)
      ensures aborted <==> conv.Thrown? || (conv.Done? && markRead && mark.Thrown?)
    {
      calls := calls + [GetConversation(token, peer)];
      match conv
      case Done(messages) =>
        messagesView := RenderMessages(messages, session.value.user.username);
        aborted := false;
        if markRead {
          aborted := MarkMessagesAsRead(token, peer, mark);
        }
      case Refused(_, _) =>
        aborted := false;
      case Thrown =>
        aborted := true;
    }

    /** `switchTab(tabId)`. Any tab but the chat stops polling and forgets the
        recipient. With a session, a record tab loads its table: a refusal
        is shown, and an `expired` one also clears the session. The chat tab
        loads the dashboard (non-silently) and restarts polling. Without a
        session, nothing is loaded and nothing is started. */
    method SwitchTab(tabId: string, records: Reply<()>, dash: Reply<seq<Contact>>)
      requires Valid()
      modifies this`tab, this`session, this`recipient, this`live, this`handle, this`nextHandle
      modifies this`calls, this`notifications, this`contactsView, this`peerStatus
      ensures Valid() && tab == tabId
      ensures tabId != ChatTab ==> recipient == None && live == {}
                                   && handle == old(handle) && nextHandle == old(nextHandle)
                                   && contactsView == old(contactsView) && peerStatus == old(peerStatus)
      ensures tabId == ChatTab ==> recipient == old(recipient) && session == old(session)
      ensures old(session).None? ==> calls == old(calls) && notifications == old(notifications)
                                     && session == None && contactsView == old(contactsView)
                                     && peerStatus == old(peerStatus)
      ensures old(session).None? && tabId == ChatTab ==> live == old(live) && handle == old(handle)
                                                         && nextHandle == old(nextHandle)
      ensures old(session).Some? && tabId != ChatTab
              ==> (if RecordsAction(tabId).None?
                   then calls == old(calls) && notifications == old(notifications) && session == old(session)
                   else calls == old(calls) + [LoadRecords(RecordsAction(tabId).value, old(session).value.token)]
                        && notifications == old(notifications) + (if records.Refused? then [records.message] else [])
                        && session == (if records.Refused? && records.status == Expired then None else old(session)))
      ensures old(session).Some? && tabId == ChatTab
              ==> calls == old(calls) + [GetChatDashboard(session.value.token)]
                  && handle == Some(old(nextHandle)) && live == {old(nextHandle)}
                  && nextHandle == old(nextHandle) + 1
                  && (dash.Done? ==> ShowsContacts(contactsView, dash.data, recipient)
                                     && ShowsPeerStatus(peerStatus, old(peerStatus), dash.data, recipient))
                  && (!dash.Done? ==> contactsView == old(contactsView) && peerStatus == old(peerStatus))
                  && notifications == old(notifications) + if dash.Refused? then [dash.message] else []
    {
      tab := tabId;
      if tabId != ChatTab {
        CancelPolling();
        recipient := None;
      }
      if session.Some? {
        var token := session.value.token;
        match RecordsAction(tabId)
        case Some(action) =>
          calls := calls + [LoadRecords(action, token)];
          if records.Refused? {
            notifications := notifications + [records.message];
            if records.status == Expired {
              ClearSession();
            }
          }
        case None =>
        if tabId == ChatTab {
          LoadChatDashboard(true, dash);
          StartChatPolling();
        }
      }
    }

    /** One firing of the polling interval. Without a session it cancels
        itself. Otherwise it refreshes the dashboard silently and, when a
        recipient is set, the conversation without a read receipt. Nothing
        it does is shown as a notice. */
    method Tick(dash: Reply<seq<Contact>>, conv: Reply<seq<Message>>)
      requires Valid() && live != {}
      modifies this`live, this`calls, this`notifications, this`contactsView, this`messagesView
      modifies this`peerStatus
      ensures Valid() && notifications == old(notifications)
      ensures session.None? ==> live == {} && calls == old(calls)
      ensures session.Some? ==> live == old(live)
      ensures session.Some?
              ==> calls == old(calls) + [GetChatDashboard(session.value.token)]
                           + if Truthy(recipient) then [GetConversation(session.value.token, recipient.value)] else []
      ensures session.Some? && dash.Done? ==> ShowsContacts(contactsView, dash.data, recipient)
                                              && ShowsPeerStatus(peerStatus, old(peerStatus), dash.data, recipient)
      ensures !(session.Some? && dash.Done?) ==> contactsView == old(contactsView) && peerStatus == old(peerStatus)
      ensures session.Some? && Truthy(recipient) && conv.Done?
              ==> ShowsMessages(messagesView, conv.data, session.value.user.username)
      ensures !(session.Some? && Truthy(recipient) && conv.Done?) ==> messagesView == old(messagesView)
    {
      if session.None? {
        CancelPolling();
        return;
      }
      LoadChatDashboard(false, dash);
      if Truthy(recipient) {
        var aborted := LoadConversation(session.value.token, recipient.value, false, conv, Done(()));
      }
    }

    /** `openConversation(contact)`: makes the contact the recipient and
        shows its online state in the header, then (with a session) fetches
        the history with a read receipt on success, sends its own read
        receipt, and refreshes the dashboard silently. A rejected call ends
        it early; without a session it ends right after setting the
        recipient. */
    method OpenConversation(contact: Contact, conv: Reply<seq<Message>>, mark1: Reply<()>,
                            mark2: Reply<()>, dash: Reply<seq<Contact>>)
      requires Valid()
      modifies this`recipient, this`calls, this`notifications, this`contactsView, this`messagesView
      modifies this`peerStatus
      ensures Valid() && notifications == old(notifications)
      ensures recipient == Some(contact.username)
      ensures session.None? ==> calls == old(calls)
      ensures session.Some?
              ==> calls == old(calls) + OpenConversationCalls(session.value.token, contact.username,
                                                             conv, mark1, mark2)
      ensures session.Some? && conv.Done?
              ==> ShowsMessages(messagesView, conv.data, session.value.user.username)
      ensures !(session.Some? && conv.Done?) ==> messagesView == old(messagesView)
      ensures session.Some? && OpenCompletes(conv, mark1, mark2) && dash.Done?
              ==> ShowsContacts(contactsView, dash.data, recipient)
                  && ShowsPeerStatus(peerStatus, Some(contact.isOnline), dash.data, recipient)
      ensures !(session.Some? && OpenCompletes(conv, mark1, mark2) && dash.Done?)
              ==> contactsView == old(contactsView) && peerStatus == Some(contact.isOnline)
    {
      recipient := Some(contact.username);
      peerStatus := Some(contact.isOnline);
      if session.None? {
        return;
      }
      var token := session.value.token;
      var aborted := LoadConversation(token, contact.username, true, conv, mark1);
      if aborted {
        return;
      }
      aborted := MarkMessagesAsRead(token, contact.username, mark2);
      if aborted {
        return;
      }
      LoadChatDashboard(false, dash);
    }

    /** The submit handler gets past its guard: there is a session, a
        recipient, and something left of `text` after trimming. */
    predicate Sends(text: string)
      reads this
    {
      session.Some? && Trim(text) != [] && Truthy(recipient)
    }

    /** The chat form's submit handler. It sends the trimmed input to the
        recipient; an empty message, no recipient or no session (the handler
        throws reading the token) sends nothing and changes nothing. On
        success the input is cleared and the conversation reloaded without a
        read receipt; on a refusal the input stays and the message is shown. */
    method SubmitChat(send: Reply<()>, conv: Reply<seq<Message>>)
      requires Valid()
      modifies this`input, this`calls, this`notifications, this`messagesView
      ensures Valid()
      ensures !Sends(old(input))
              ==> input == old(input) && calls == old(calls) && notifications == old(notifications)
                  && messagesView == old(messagesView)
      ensures Sends(old(input))
              ==> calls == old(calls) + [SendMessage(session.value.token, recipient.value, Trim(old(input)))]
                                      + if send.Done? then [GetConversation(session.value.token, recipient.value)] else []
      ensures Sends(old(input)) ==> input == if send.Done? then "" else old(input)
      ensures Sends(old(input))
              ==> notifications == old(notifications) + if send.Refused? then [send.message] else []
      ensures Sends(old(input)) && send.Done? && conv.Done?
              ==> ShowsMessages(messagesView, conv.data, session.value.user.username)
      ensures !(Sends(old(input)) && send.Done? && conv.Done?) ==> messagesView == old(messagesView)
    {
      if session.None? {
        return;
      }
      var message := Trim(input);
      var token := session.value.token;
      if message == [] || !Truthy(recipient) {
        return;
      }
      calls := calls + [SendMessage(token, recipient.value, message)];
      match send
      case Done(_) =>
        input := "";
        var aborted := LoadConversation(token, recipient.value, false, conv, Done(()));
      case Refused(_, text) =>
        notifications := notifications + [text];
      case Thrown =>
    }
  }
}
