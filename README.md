# Administrative client: chat engine, role rules and age arithmetic

This project models the parts of the federation back-office web client (`script.js`) that carry state or rules. It proves properties of that model in Dafny. There are three parts.

- **The chat screen's state machine** (`chat_view.dfy`, `chat_render.dfy`). The class `Chat.ChatView` holds the globals the page mutates:
  - the open conversation's peer (`currentRecipient`);
  - the polling interval (`chatPollingInterval`), plus the set of intervals the browser still fires;
  - the stored session;
  - the chat input;
  - the log of backend calls in issue order;
  - the notices shown;
  - the contact list, the message area and the open peer's online indicator.

  Its methods are the page's handlers: switching tabs, a polling tick, clicking a contact, sending the chat form, and clearing the session. `EditInput` is not a handler: it is the environment, the user typing into `#chat-input`. Each backend reply is a method parameter, so every outcome is covered. A reply is `Done(payload)`, `Refused(status, message)` or `Thrown`; `Thrown` is a rejected remote call. The class invariant `Valid()` says that every live interval is the one the global variable holds. `AtMostOneLive` turns that into "at most one polling timer is running". Every handler preserves it.
- **The role rules** (`roles.dfy`, `forms.dfy`). These cover the navigation filter, the "add" buttons, edit/delete on A1, A2 and news rows, and the refusal in the news modal. They also cover the create/edit mode of the A1, A2 and news forms and the action their submit handlers send.
- **`calculateAgeFrontend`** (`age.dfy`) on (year, month, day) triples. `JsString` (`js_string.dfy`) gives ECMAScript `trim` and `startsWith`, which the chat form and the role checks rely on.

Where the code differs from what one would expect of a chat client, the model follows the code:
- One would expect one read receipt per opened conversation. Opening a conversation whose history arrives sends **two** MARK_AS_READ calls for the peer, unless the first of them is rejected, which ends the handler after one (`Chat.OpenConversationReceipts`).
- One would expect a connection-error notice. A rejected remote call in the chat code is not caught: it ends the handler and shows no notice.
- One would expect an expired session to end chat polling. No chat loader acts on an `expired` status; only the record loaders do.
- One would expect a late response for a previous peer to be discarded. A response is rendered whoever the recipient is by the time it arrives; no such guard exists, so none is stated.

## Model

| member | source | states |
|---|---|---|
| `JsString.TrimStart` | script.js:943 | the leading part `trim` drops is all white space, and what remains does not start with white space |
| `JsString.TrimEnd` | script.js:943 | the trailing part dropped is all white space, and what remains does not end with white space |
| `JsString.TrimStartIsSuffix` | script.js:943 | the left trim keeps a suffix of the input |
| `JsString.TrimEndIsPrefix` | script.js:943 | the right trim keeps a prefix of the input |
| `JsString.Trim` | script.js:943 | `input.value.trim()` is empty exactly when the input is all white space; otherwise it neither starts nor ends with white space |
| `JsString.TrimIsSlice` | script.js:943 | the trimmed message is a contiguous slice of the input, with only white space cut on either side |
| `JsString.TrimIdempotent` | script.js:943 | trimming twice equals trimming once |
| `Age.AgeFrontend` | script.js:58-67 | 0 for an empty birth date; otherwise the last anniversary reached, equal to the year difference, less one exactly when today's (month, day) is before the birthday's |
| `Age.AgeIsCompletedYears` | script.js:58-67 | the computed age is the only count of whole years whose anniversary has come while the next has not |
| `Age.AgeNotNegative` | script.js:58-67 | a birth date not after today gives a non-negative age |
| `Roles.TabAllowed` | script.js:107 | a role listed for the tab is allowed; for a tab open to all three administrators, exactly an administrator's role or one starting with ADMIN_KLUB is allowed |
| `Roles.VisibleTabs` | script.js:97-112 | the menu holds exactly the allowed tabs of the table; all of them when every tab is allowed, none when none is |
| `Roles.VisibleTabsAppend` | script.js:106-112 | the menu of two tables in a row is the first table's menu followed by the second's |
| `Roles.VisibleTabsOne` | script.js:106-112 | a single tab is shown exactly when the role is allowed; with `VisibleTabsAppend` this fixes the menu as the allowed tabs in table order |
| `Roles.MenuAllOrNothing` | script.js:97-112 | every tab lists all three admin roles, so an admin role (or any role starting with ADMIN_KLUB) sees all six tabs and any other role sees none |
| `Roles.IsClubAdmin` | script.js:190 | `tipeUser.startsWith('ADMIN_KLUB')`, the test of lines 107, 190, 235, 339, 385 and 510; such a role is neither ADMIN_PUSAT nor ADMIN_MEDIA |
| `Roles.CanEditClubRecord` | script.js:235 | edit and delete on an A1 row (and an A2 row, line 385) require the row's club to be the user's and the user to see the add button; never the central or media administrator |
| `Roles.ShowAddClubRecord` | script.js:189-190 | the A1 add button (and A2's, lines 338-339) is never shown to the central or media administrator |
| `Roles.ShowAddSchedule` | script.js:509-512 | the A3 schedule button is never shown to a club administrator |
| `Roles.ShowAddA3Player` | script.js:510-513 | the A3 player button is never shown to the central administrator |
| `Roles.ShowAddBerita` | script.js:655 | the news add button is never shown to a club administrator |
| `Roles.ShowBeritaActions` | script.js:700-709 | row actions need `canEditDelete` and go only to the central or the media administrator, never a club administrator; with `canEditDelete` the central administrator gets them on every article and a media administrator exactly on the articles it wrote |
| `Roles.BeritaEditRefused` | script.js:743-746 | the refusal hits only someone other than the author, never the central administrator or a club administrator |
| `Roles.A3ButtonsExclusive` | script.js:509-513 | the A3 schedule button and the A3 player button are never shown together |
| `Roles.BeritaRowAndModalAgree` | script.js:700-709 | a news row that offers edit never leads to the refusal of lines 743-746; for a media admin with editing allowed, the row offers actions exactly when the modal would not refuse |
| `Forms.SubmitAction` | script.js:289 | the submit action (also lines 458 and 776) starts with CREATE_ exactly in create mode and with UPDATE_ exactly in edit mode |
| `Forms.SubmitActionInjective` | script.js:289 | no two (form, mode) pairs send the same action |
| `Forms.FormModes.constructor` | script.js:3-5 | all three forms start in create mode |
| `Forms.FormModes.OpenA1Modal` | script.js:263-277 | opening with a record selects edit (UPDATE_A1), opening empty selects create (CREATE_A1) |
| `Forms.FormModes.OpenA2Modal` | script.js:405-441 | the same for A2, except that without a session the mode is left unchanged |
| `Forms.FormModes.OpenBeritaModal` | script.js:729-767 | no session: nothing. A media admin opening someone else's article gets the refusal notice, the modal stays closed and the mode is unchanged. Otherwise the modal opens in edit mode for an article and in create mode when empty |
| `ChatRender.RenderContactList` | script.js:849-871 | the list is rebuilt from the fetched contacts alone: one row each, in backend order; a row is active exactly when its username equals the recipient; it shows a badge exactly when `unreadCount > 0` |
| `ChatRender.AtMostOneActiveRow` | script.js:856-858 | with distinct usernames, at most one contact row is active, and it is the recipient's |
| `ChatRender.FindContact` | script.js:874 | `contacts.find` yields the first contact with the name, or none when no contact has it |
| `ChatRender.RenderMessages` | script.js:921-935 | one bubble per message, in order, styled "self" exactly when the sender is the signed-in user |
| `Chat.RecordsAction` | script.js:137-140 | exactly the four record tabs have a loader action, one of GET_A1_DATA, GET_A2_DATA, GET_A3_MATCHES and GET_BERITA; the chat tab has none |
| `Chat.OpenConversationCalls` | script.js:903-906 | opening issues between one and four calls, the history fetch first, all of them for the opened peer or the dashboard |
| `Chat.PeerStatusMatchesActiveRow` | script.js:873-881 | after a rebuild that finds the recipient, the header's online indicator shows the same state as the recipient's row, which is the active one |
| `Chat.AtMostOneLive` | script.js:821-824 | if every live interval is the stored one, at most one polling timer is live |
| `Chat.OpenConversationReceipts` | script.js:903-906 | opening sends the history fetch first; then two read receipts for the peer when the history arrives and the first receipt is not rejected, otherwise one, and none when the fetch is rejected; never one for another peer; it ends with the dashboard refresh exactly when no call is rejected |
| `Chat.ChatView.constructor` | script.js:6-7 | no recipient, no interval, nothing sent or shown |
| `Chat.ChatView.CancelPolling` | script.js:131 | `clearInterval(chatPollingInterval)` leaves no live timer, whatever the handle |
| `Chat.ChatView.StartChatPolling` | script.js:821-835 | the old interval is cancelled before a new one is installed; afterwards exactly the new interval is live |
| `Chat.ChatView.ClearSession` | script.js:31-37 | the session is dropped and no timer stays live; the recipient is kept |
| `Chat.ChatView.LoadChatDashboard` | script.js:837-847 | no session: no call. Otherwise one GET_CHAT_DASHBOARD. Success replaces the contact list and sets the header's indicator from the recipient's entry when one is found (lines 873-881); a refusal adds its message only on an initial load; a rejection changes nothing |
| `Chat.ChatView.MarkMessagesAsRead` | script.js:962-964 | one MARK_AS_READ for the sender; only a rejection ends the awaiting caller |
| `Chat.ChatView.LoadConversation` | script.js:909-919 | one GET_CONVERSATION. Success replaces the message area and adds MARK_AS_READ exactly when `markRead`; a refused or rejected fetch leaves the message area unchanged |
| `Chat.ChatView.SwitchTab` | script.js:122-146 | any tab but the chat cancels polling and clears the recipient. With a session, a record tab sends its loader action; a refusal adds its message (lines 199, 348, 522, 664) and an `expired` one also drops the session. The chat tab loads the dashboard non-silently and leaves exactly one new timer live. Without a session nothing is loaded or started |
| `Chat.ChatView.Tick` | script.js:824-834 | without a session the tick cancels its timer. Otherwise it sends GET_CHAT_DASHBOARD, then GET_CONVERSATION for a set recipient; it sends no read receipt and shows no notice |
| `Chat.ChatView.OpenConversation` | script.js:884-907 | the recipient becomes the contact's username and the header shows its online state; the calls are those of `OpenConversationCalls`; the views change only on successful fetches that were reached; no notice is shown |
| `Chat.ChatView.SubmitChat` | script.js:940-960 | an all-white-space message, no recipient or no session: nothing is sent and nothing changes. Otherwise SEND_MESSAGE carries the trimmed text. Success clears the input and reloads the conversation without a read receipt; a refusal keeps the input and adds exactly one notice |

## Left out

- The remote-call transport (`callAppsScript`, script.js:13-20) is a foreign call. Each call's outcome is a method parameter, and `calls` records what was sent.
- Session storage (`getSession`/`setSession`, script.js:22-29) is modelled as the `session` field. The login and logout handlers, `init` and `showDashboard` are not modelled; the constructor takes the stored session instead.
- Timing and interleaving: `setInterval`'s 5-second period is not modelled. The environment calls `Tick` while an interval is live. Each handler runs to completion, and a call the source does not await completes before the handler's next step. Responses arriving out of order are therefore not modelled.
- DOM work is not modelled:
  - class toggling and modal visibility;
  - markup templates and scrolling;
  - the 5-second removal of notices, so notices only accumulate;
  - the peer header's name (script.js:899); its online indicator is modelled as `peerStatus`;
  - the immediate highlight in `openConversation` (script.js:887-893). It matches list items by label prefix; the next dashboard render replaces it.
- Record tabs: `switchTab` logs their loader call (`LoadRecords`), adds a refused loader's message and drops the session on `expired`. The loaders' rendering, the add-button display (modelled as the `Roles` predicates), form marshalling, `confirm()` dialogs, deletions and `populateA3PlayerDropdowns` are not modelled. The login-view switch of `clearSession` is DOM work and is not modelled.
- `calculateAgeFrontend`: parsing the date string, invalid strings (NaN), the clock and the local-time-zone reading of a date-only string are not modelled. It takes the birth date (none for an empty string) and today as triples.
- Club ids are compared as strings. JavaScript's `===` between a number and a string is not modelled.
- The remaining helpers of the news modal (form reset, display fields) are not modelled.
