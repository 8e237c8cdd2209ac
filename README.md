# Periskope Team Chat — a Dafny model of the client core

This project models the client side of a small team-chat web application. It is
written with React and talks to a Supabase backend. The model covers:

- the sign-in / sign-up page, with its mobile-number field, the six one-digit
  OTP boxes, the fixed code `123456`, the resend countdown and the submit flow;
- the chats page, which checks that a user is stored and keeps a map of the
  latest message per chat;
- the chat list, which shapes the fetched chat rows, filters them by search
  text and chat type, and derives each row's title and preview;
- the chat header, with its title, avatar initial, subtitle and menu;
- the chat window, with the message list, optimistic sending and rollback,
  and file attachments;
- the new-chat dialog, for private and group chats;
- the add-members dialog.

Component state, which the source keeps in `useState` hooks, becomes the fields
of a Dafny `class` per component (`LoginPage`, `ChatsPage`, `ChatListView`,
`ChatHeader`, `ChatWindow`, `NewChatDialog`, `AddMembersDialog`), and each event
handler becomes a `method` that states the new value of every field the model keeps (the fields it leaves out are named under "## Left out"). The pure derivations are `function`s
with named results, and lemmas state how they relate. The derivations are the
sanitised phone number, the `+91` prefix, `trim`, the search filter, chat names,
storage paths and message kinds.

Every backend call is replaced by a parameter carrying its outcome:
`found: Option<User>` for a lookup, `insertOk: bool` or an error `Option` for an
insert, `Option<seq<…>>` for fetched rows. A handler returns the request it would
send (a `MessageInsert`, a `ChatInsert`, `Membership` rows, a storage path). The
clock (`Date.now`, `new Date().toISOString()`) and `Math.random()` are
parameters too.

Module layout:

| file | module | models |
|---|---|---|
| `wrappers.dfy` | `Wrappers` | `Option` |
| `seqs.dfy` | `Seqs` | `Array.prototype.filter`, `find`, subsequence |
| `text.dfy` | `Text` | `trim`, ASCII `toLowerCase`, `includes`, `\d`, `split(".").pop()`, number rendering |
| `domain.dfy` | `Domain` | users, chats, messages, memberships |
| `phone.dfy` | `Phone` | the ten-digit sanitiser and the `+91` prefix shared by the forms |
| `login.dfy` | `Login` | `app/login/page.tsx` |
| `chats_page.dfy` | `ChatsPage` | `app/chats/page.tsx` |
| `chat_list.dfy` | `ChatList` | `app/components/chat/ChatList.tsx` |
| `chat_header.dfy` | `ChatHeader` | `app/components/chat/ChatHeader.tsx` |
| `chat_window.dfy` | `ChatWindow` | `app/components/chat/ChatWindow.tsx` |
| `new_chat_dialog.dfy` | `NewChatDialog` | `app/components/chat/NewChatDialog.tsx` |
| `add_members_dialog.dfy` | `AddMembersDialog` | `app/components/chat/AddMembersDialog.tsx` |

Behaviour of the code that a reader might not expect, which the model keeps:

- A successful send is not reconciled with its optimistic entry.
  `HandleSendMessage` leaves the optimistic message in place, and the
  realtime push (`OnMessageResolved`) later appends the stored copy, so the
  sent text shows twice.
- The chat list keeps the backend's order; nothing sorts it.
- The search matches a chat when any member's name matches, the current user
  included.
- The chat header names a private chat after `members[0]`, not after the
  other participant. `ChatHeader.HeaderMayShowCurrentUser` exhibits a chat
  whose header shows the current user while the list row shows the other
  person.
- The chat window is rendered without a `key`, so selecting another chat keeps
  the same component: `ChatWindow.ChatWindow.SelectChat` changes the chat
  while the previous chat's transcript, draft and upload flag stay, and any
  fetch result that lands next replaces the transcript, whichever chat it was
  for.
- The list preview takes the first element of the embedded `messages` list,
  which the query neither orders nor limits; it is some message of the chat,
  not necessarily the latest.

## Model

| member | source | states |
|---|---|---|
| Text.Trim | app/components/chat/ChatWindow.tsx:146-148 | the result is a slice of the input with only whitespace before and after it, and it has no whitespace at either end |
| Text.BlankIffAllWhitespace | app/components/chat/ChatWindow.tsx:146 | `trim()` is empty exactly when every character is whitespace, so the send guard refuses exactly the blank drafts |
| Text.TrimIdempotent | app/components/chat/ChatWindow.tsx:148 | trimming an already-trimmed message content changes nothing |
| Text.LowerChar | app/components/chat/ChatList.tsx:125-127 | an ASCII capital becomes the letter 32 code points later, its lower-case form; every other character is kept; no capital remains |
| Text.ToLower | app/components/chat/ChatList.tsx:125-127 | same length, and each character is lowered on its own |
| Text.ToLowerIdempotent | app/components/chat/ChatList.tsx:125-127 | lowering a lowered query changes nothing |
| Text.IncludesIffOccurs | app/components/chat/ChatList.tsx:125-127 | `includes` holds exactly when the needle occurs at some index |
| Text.Includes | app/components/chat/ChatList.tsx:125-127 | `s.includes(sub)`: `sub` starts `s` or occurs in its tail (the defining predicate) |
| Text.StartsWith | app/components/chat/NewChatDialog.tsx:39 | `s.startsWith(p)`: the first characters of `s` are `p` (the defining predicate) |
| Text.Digits | app/login/page.tsx:287 | `replace(/\D/g, "")` leaves only digits, a subsequence of the input with every digit kept as often as it occurs |
| Text.DigitsOfDigits | app/login/page.tsx:287 | stripping non-digits from a digit string changes nothing |
| Text.Extension | app/components/chat/ChatWindow.tsx:191 | the extension holds no dot, ends the file name, and is preceded by a dot when shorter than the name |
| Text.ExtensionWithoutDot | app/components/chat/ChatWindow.tsx:191 | a name without a dot is its own extension |
| Text.ExtensionAfterLastDot | app/components/chat/ChatWindow.tsx:191 | for `base + "." + ext` with a dot-free `ext`, the extension is `ext` |
| Text.NatToString | app/components/chat/ChatHeader.tsx:53 | the decimal rendering is a non-empty digit string without leading zeros: it starts with "0" only when it is "0" for zero |
| Text.ParseNatToString | app/components/chat/ChatHeader.tsx:53 | reading the rendered number back gives the number |
| Phone.Sanitize | app/login/page.tsx:287 | digits only, at most ten, a prefix of the input's digits, and all of them when there are at most ten |
| Phone.SanitizeIdempotent | app/login/page.tsx:287 | sanitising a sanitised value changes nothing |
| Phone.SanitizeKeepsShortDigitStrings | app/components/chat/AddMembersDialog.tsx:120 | a digit string of at most ten characters is kept as typed |
| Phone.SanitizedValidIffTenLong | app/login/page.tsx:25 | a sanitised value passes `/^\d{10}$/` exactly when it is ten characters long |
| Phone.SanitizedValidIffTenDigitsTyped | app/components/chat/AddMembersDialog.tsx:120 | the sanitised field holds a valid ten-digit number exactly when at least ten digits were typed |
| Phone.IsTenDigits | app/login/page.tsx:25 | the regular expression `/^\d{10}$/`: exactly ten characters, all digits (the defining predicate) |
| Phone.Normalize | app/components/chat/NewChatDialog.tsx:39 | the result starts with `+91`; a prefixed number is kept; otherwise `+91` is prepended to it |
| Phone.NormalizeIdempotent | app/components/chat/AddMembersDialog.tsx:34 | normalising twice equals normalising once |
| Phone.NormalizeSanitized | app/components/chat/NewChatDialog.tsx:79 | a sanitised field never already holds `+91`, so it is always prefixed |
| Phone.NormalizeInjectiveOnSanitized | app/components/chat/AddMembersDialog.tsx:34 | two sanitised numbers are looked up under the same key exactly when they are equal |
| Login.MobileErrorOnSanitized | app/login/page.tsx:25-26 | the red mobile error shows exactly for a non-empty sanitised value shorter than ten digits |
| Login.IsMobileValid | app/login/page.tsx:25 | `isMobileValid`: the field is `IsTenDigits` (the defining predicate) |
| Login.ShowMobileError | app/login/page.tsx:26 | `showMobileError`: something was typed and it is not valid (the defining predicate) |
| Login.IsSlotInput | app/login/page.tsx:78 | `/^\d?$/`: an empty box or one digit (the defining predicate) |
| Login.IsOtpComplete | app/login/page.tsx:27 | `isOtpComplete`: every box holds exactly one digit (the defining predicate) |
| Login.Join | app/login/page.tsx:28 | `otp.join("")` (the defining function: the boxes concatenated in order); no boxes join to the empty code, and its length is stated by `Login.JoinLength` |
| Login.IsOtpValid | app/login/page.tsx:28 | `isOtpValid`: the joined boxes equal `123456` (the defining predicate) |
| Login.JoinLength | app/login/page.tsx:27-28 | boxes of at most one character join to at most one character per box, and to exactly one per box exactly when every box is filled |
| Login.ValidOtpIsComplete | app/login/page.tsx:27-28 | boxes that join to `123456` are all filled with one digit each |
| Login.EmptyOtp | app/login/page.tsx:16 | six empty boxes: well formed and not complete |
| Login.CountdownStep | app/login/page.tsx:55-61 | one tick never goes below zero, never rises, and reaches zero exactly from one or less |
| Login.CountdownReachesZero | app/login/page.tsx:54-61 | from `n` seconds, `k <= n` ticks leave `n - k`, so the resend countdown ends after exactly `n` ticks |
| Login.CountdownStaysAtZero | app/login/page.tsx:53-61 | a countdown at zero stays there |
| Login.SubmitStatus | app/login/page.tsx:115-186 | the final status of a valid-code submit for each backend outcome and tab: "Logging you in" on success, "Please sign up first." for an unknown user, "Account already exists with this mobile number." for a taken number, and the insert error's message, or "Something went wrong." when it is empty |
| Login.LoginPage.constructor | app/login/page.tsx:14-23 | the initial page state |
| Login.LoginPage.SetTab | app/login/page.tsx:223-233 | switches the tab and nothing else |
| Login.LoginPage.SetFullName | app/login/page.tsx:260 | stores the typed full name and nothing else |
| Login.LoginPage.SendOtp | app/login/page.tsx:31-38 | no change for an invalid number; otherwise the "OTP sent" status and a ten-second countdown |
| Login.LoginPage.SetMobile | app/login/page.tsx:67-75 | keeps the sanitised digits; on a change, a valid number sends the code and an invalid one clears status and countdown |
| Login.LoginPage.CountdownTick | app/login/page.tsx:54-61 | one resend-timer tick, a `CountdownStep` of the countdown |
| Login.LoginPage.SendOtpTick | app/login/page.tsx:39-47 | one tick of the interval started by `sendOtp`, which also hides the status when it reaches zero |
| Login.LoginPage.HandleOtpChange | app/login/page.tsx:77-87 | only an empty or single-digit value replaces its box; every other box is kept |
| Login.LoginPage.ClearOtpInputs | app/login/page.tsx:98-101 | all six boxes become empty |
| Login.LoginPage.HandleSubmit | app/login/page.tsx:103-186 | a wrong code gives "Invalid OTP." and clears the boxes without a backend call; otherwise the status is `SubmitStatus` and navigation happens only on success |
| ChatsPage.AuthDecision | app/chats/page.tsx:24-39 | no stored user or a stored value that fails to parse redirects to `/login`; otherwise the parsed user signs in |
| ChatsPage.WithLatest | app/chats/page.tsx:45-50 | the chat's entry becomes the message and every other entry is kept |
| ChatsPage.WithLatestIdempotent | app/chats/page.tsx:45-50 | recording the same message twice equals recording it once |
| ChatsPage.WithLatestOverwrites | app/chats/page.tsx:45-50 | a later message for the same chat replaces the earlier one |
| ChatsPage.WithLatestCommutes | app/chats/page.tsx:45-50 | updates for two different chats can arrive in either order |
| ChatsPage.ChatsPage.constructor | app/chats/page.tsx:17-20 | no user, loading, and an empty latest-message map |
| ChatsPage.ChatsPage.CheckAuth | app/chats/page.tsx:24-39 | either a redirect to `/login` or the stored user; loading ends in both cases |
| ChatsPage.ChatsPage.UpdateLatestMessage | app/chats/page.tsx:45-50 | the map becomes `WithLatest` of the old map |
| ChatList.Users | app/components/chat/ChatList.tsx:90 | one user per member row, in order |
| ChatList.FirstMessage | app/components/chat/ChatList.tsx:91 | the first joined message, if there is one |
| ChatList.FormatChat | app/components/chat/ChatList.tsx:87-93 | keeps id, kind and name, flattens the members and takes the first embedded message (an unordered list, so not necessarily the latest) |
| ChatList.FormatChats | app/components/chat/ChatList.tsx:87-93 | one chat per row, in the fetched order |
| ChatList.AfterFetch | app/components/chat/ChatList.tsx:86-95 | fetched rows replace the list, each entry the `FormatChat` of its row in fetched order; a failed fetch keeps it |
| ChatList.SearchMatch | app/components/chat/ChatList.tsx:123-128 | empty search text, or the lowered name or any member's lowered name includes the lowered query (the defining predicate) |
| ChatList.TypeMatch | app/components/chat/ChatList.tsx:131-134 | "all" keeps every chat, "private" and "group" only chats of that kind (the defining predicate) |
| ChatList.FilterChats | app/components/chat/ChatList.tsx:121-137 | a chat is shown exactly when it matches the search and the type filter, as many times as it occurs in the input, in the original order |
| ChatList.EmptyQueryShowsAll | app/components/chat/ChatList.tsx:123-124 | with no search text and filter "all", every chat is shown |
| ChatList.FilterChatsIdempotent | app/components/chat/ChatList.tsx:121-137 | filtering the shown list again changes nothing |
| ChatList.SearchIgnoresQueryCase | app/components/chat/ChatList.tsx:125-127 | the search gives the same answer for a query and its lowered form |
| ChatList.TypeFilterSplitsRoster | app/components/chat/ChatList.tsx:131-134 | the private and group views together hold exactly the chats of the "all" view |
| ChatList.MemberNameFindsChat | app/components/chat/ChatList.tsx:126-128 | a query occurring in a member's lowered name finds the chat |
| ChatList.FirstOther | app/components/chat/ChatList.tsx:232-234 | the first member whose id differs from the current user, or none |
| ChatList.GroupName | app/components/chat/ChatList.tsx:238 | the group's name, or "Unnamed Group" when it is missing or empty |
| ChatList.ChatName | app/components/chat/ChatList.tsx:235-238 | a private chat is named after the other member, a group after `GroupName` |
| ChatList.PrivateNameIsCounterpart | app/components/chat/ChatList.tsx:232-237 | in a private chat with me and one other person, the row shows the other person's name |
| ChatList.Preview | app/components/chat/ChatList.tsx:295 | the last message's text, or "No messages yet" when there is none or it is empty |
| ChatList.ChatListView.constructor | app/components/chat/ChatList.tsx:54-60 | an empty roster, no search text and the type filter at "all" |
| ChatList.ChatListView.Shown | app/components/chat/ChatList.tsx:121-137 | the shown chats are exactly those of the roster that match the current search and type filter, each as often as in the roster, in roster order |
| ChatList.ChatListView.SetSearchQuery | app/components/chat/ChatList.tsx:213 | stores the search text; clearing it with the filter at "all" shows the whole roster |
| ChatList.ChatListView.OnChatsFetched | app/components/chat/ChatList.tsx:86-95 | the roster becomes `AfterFetch` of the old roster and the fetched rows |
| ChatHeader.HeaderName | app/components/chat/ChatHeader.tsx:23-25 | a private chat shows `members[0]`'s name; a group shows `GroupName` |
| ChatHeader.HeaderMayShowCurrentUser | app/components/chat/ChatHeader.tsx:23-24 | when the current user is listed first, the header and the list row name different people |
| ChatHeader.AvatarInitial | app/components/chat/ChatHeader.tsx:30-42 | a named group shows the first letter of its name and an unnamed one "G"; a private chat the first letter of its first member's name, and nothing when that member is missing or has an empty name |
| ChatHeader.Subtitle | app/components/chat/ChatHeader.tsx:52-54 | a group shows its member count, in decimal without leading zeros, followed by " members", so an empty group shows exactly "0 members"; a private chat "Last seen recently" |
| ChatHeader.MenuItems | app/components/chat/ChatHeader.tsx:74-96 | three items for a group, starting with "Manage members", two for a private chat; both end with "Search in chat" then "Leave chat" |
| ChatHeader.ChatHeader.constructor | app/components/chat/ChatHeader.tsx:20 | the menu starts closed |
| ChatHeader.ChatHeader.ToggleMenu | app/components/chat/ChatHeader.tsx:68 | the menu flips between open and closed |
| ChatWindow.WithoutId | app/components/chat/ChatWindow.tsx:175-177 | exactly the messages with another id, each as often as before, in their order |
| ChatWindow.RollbackRestores | app/components/chat/ChatWindow.tsx:161-177 | a failed send that removes its optimistic entry restores the list as it was, plus the pushes that came in meanwhile |
| ChatWindow.OptimisticMessage | app/components/chat/ChatWindow.tsx:152-160 | a text message from the current user, with the given id and time and no attachment |
| ChatWindow.KindOf | app/components/chat/ChatWindow.tsx:211-215 | image for `image/…`, video for `video/…`, file otherwise, never text |
| ChatWindow.UploadPath | app/components/chat/ChatWindow.tsx:191-193 | the storage path lies in the chat's folder |
| ChatWindow.UploadPathKeepsExtension | app/components/chat/ChatWindow.tsx:191-193 | the stored file keeps the picked file's extension |
| ChatWindow.ChatWindow.constructor | app/components/chat/ChatWindow.tsx:64-66 | no messages, an empty draft, not uploading |
| ChatWindow.ChatWindow.SelectChat | app/chats/page.tsx:122-127 | only the chat changes; the previous transcript, draft and upload flag carry over |
| ChatWindow.ChatWindow.SetNewMessage | app/components/chat/ChatWindow.tsx:372 | stores the draft as typed |
| ChatWindow.ChatWindow.OnMessagesFetched | app/components/chat/ChatWindow.tsx:98-100 | fetched messages replace the list; a failed fetch keeps it |
| ChatWindow.ChatWindow.OnMessageResolved | app/components/chat/ChatWindow.tsx:133-135 | a pushed message that resolves is appended |
| ChatWindow.ChatWindow.BeginSend | app/components/chat/ChatWindow.tsx:145-169 | a blank draft does nothing; otherwise the draft clears, the optimistic message is appended and the insert carries the trimmed text |
| ChatWindow.ChatWindow.RollBackSend | app/components/chat/ChatWindow.tsx:172-177 | the list becomes `WithoutId` of itself |
| ChatWindow.ChatWindow.HandleSendMessage | app/components/chat/ChatWindow.tsx:145-179 | a successful send keeps the optimistic message; a failed one leaves the old list without that id |
| ChatWindow.ChatWindow.HandleFileUpload | app/components/chat/ChatWindow.tsx:181-225 | no file does nothing; otherwise the upload path, and after a successful upload an insert whose kind is `KindOf` the media type and whose content is the file name |
| NewChatDialog.RemoveById | app/components/chat/NewChatDialog.tsx:320 | exactly the other members, each as often as before, in order, and the removed id is gone |
| NewChatDialog.RemoveKeepsUniqueIds | app/components/chat/NewChatDialog.tsx:320 | removing a member keeps the ids distinct |
| NewChatDialog.HasMember | app/components/chat/NewChatDialog.tsx:113 | some member of the chat has the given id (the defining predicate) |
| NewChatDialog.FindExisting | app/components/chat/NewChatDialog.tsx:112-114 | the first fetched chat that has the target as a member, or none when no chat does |
| NewChatDialog.GroupMemberships | app/components/chat/NewChatDialog.tsx:175-180 | the creator's row first, then one row per member, all for the new chat |
| NewChatDialog.GroupMembershipsCoverEveryone | app/components/chat/NewChatDialog.tsx:175-180 | the creator and every listed member get a membership row |
| NewChatDialog.NewChatDialog.constructor | app/components/chat/NewChatDialog.tsx:18-24 | private chat, empty fields, no members, no error, not loading |
| NewChatDialog.NewChatDialog.ResetForm | app/components/chat/NewChatDialog.tsx:26-33 | back to the initial form |
| NewChatDialog.NewChatDialog.SetChatType | app/components/chat/NewChatDialog.tsx:237-254 | switches the chat kind and clears the error |
| NewChatDialog.NewChatDialog.SetPhoneNumber | app/components/chat/NewChatDialog.tsx:290-294 | stores the sanitised number and clears the error |
| NewChatDialog.NewChatDialog.SetGroupName | app/components/chat/NewChatDialog.tsx:273-276 | stores the name and clears the error |
| NewChatDialog.NewChatDialog.HandleAddMember | app/components/chat/NewChatDialog.tsx:35-65 | looks up the `+91` number; refuses a missing user, oneself or a repeat; otherwise appends the user and clears the field, keeping the members distinct and without oneself |
| NewChatDialog.NewChatDialog.RemoveMember | app/components/chat/NewChatDialog.tsx:320 | the members become `RemoveById` of the old members |
| NewChatDialog.NewChatDialog.HandleCreateChat | app/components/chat/NewChatDialog.tsx:67-201 | each error message of both branches, the `+91` number a private chat is looked up by, the reuse of an existing private chat, the chat insert, the membership rows and the reset after success |
| AddMembersDialog.AddedMessage | app/components/chat/AddMembersDialog.tsx:64 | the success text is the added user's name followed by " has been added to the chat", and nothing else |
| AddMembersDialog.AddMembersDialog.constructor | app/components/chat/AddMembersDialog.tsx:22-25 | empty field, no error or success, not loading |
| AddMembersDialog.AddMembersDialog.CanAdd | app/components/chat/AddMembersDialog.tsx:147 | on the sanitised field, the Add button is enabled exactly for a valid ten-digit number while not loading |
| AddMembersDialog.AddMembersDialog.SetPhoneNumber | app/components/chat/AddMembersDialog.tsx:119-123 | stores the sanitised number and clears the error; the Add button is then enabled exactly when at least ten digits were typed and nothing is loading |
| AddMembersDialog.AddMembersDialog.HandleAddMember | app/components/chat/AddMembersDialog.tsx:27-79 | looks up the `+91` number; a missing user, an existing member or a failed insert gives its error; success sets the message, clears the field and notifies the parent once |
| AddMembersDialog.AddMembersDialog.ClearSuccess | app/components/chat/AddMembersDialog.tsx:69-71 | the timer clears the success message and nothing else |

## Left out

- Supabase queries, inserts, storage and realtime subscriptions are not modelled. Their outcomes are parameters of the handlers, and the requests are returned values.
- Subscription lifetimes (`subscribe` / `unsubscribe`) are not modelled. The chat list's re-fetch on every message event is `ChatList.AfterFetch` applied again.
- React effects and timers are reduced to single steps: `CountdownTick`, `SendOtpTick` and `ClearSuccess`. The timing, and the two intervals `sendOtp` and the effect run at the same time, are not modelled.
- `Login.LoginPage.HandleSubmit`: the one-second wait before navigation and the `localStorage` writes of the signed-in user are not modelled. The sign-up insert's fields (`role`, the avatar URL from `Date.now()`) are not part of the model.
- `ChatsPage.AuthDecision`: `JSON.parse` is a parameter, so a stored `"null"`, which parses to a null user without a redirect, is not distinguished from a parsed user.
- `Text.ToLower`: only ASCII letters are lowered; the Unicode case mapping of `toLowerCase` is left out.
- `NewChatDialog.FindExisting`: the backend's filter on the embedded chat type is taken as given. The model receives the fetched rows already flattened into chats whose members are users; the source selects `chat.chat` (app/components/chat/NewChatDialog.tsx:117), whose members are still `{user}` wrappers, and that shape is not reproduced.
- `NewChatDialog.NewChatDialog.HandleCreateChat`: membership inserts run in `Promise.all` and their errors are ignored. The model returns the rows as one request and ignores their outcome the same way.
- `ChatWindow.ChatWindow.HandleFileUpload`: `isUploading` is stated only at the end of the handler, where it is false. The intermediate `true` is not observable in the model.
- `AddMembersDialog.AddMembersDialog.HandleAddMember`: `loading` is stated only at the end of the handler, where it is false.
- Focus moves (`handleOtpKeyDown`, the focus after each OTP box, `clearOtpInputs`' focus) and scrolling are not modelled. They change no component state.
- `ChatHeader.AvatarInitial`: the source's `[0]` takes the first UTF-16 code unit of the name, and the model takes its first character. The two differ for names starting with a character outside the Basic Multilingual Plane, such as an emoji, where the source shows half of a surrogate pair.
- `ChatWindow.ChatWindow.HandleFileUpload`: in the code shown, `handleFileUpload` (app/components/chat/ChatWindow.tsx:181) is attached to no input. `fileInputRef` is never given to an element and `isUploading` is never read, so the handler is modelled as written but nothing in the page reaches it.
- `ChatHeader` is imported by app/chats/page.tsx but not rendered there; the header model describes the component on its own.
- `NewChatDialog` and `AddMembersDialog` are rendered by none of the code shown; each is modelled as a component on its own.
- The chats page's `selectedChat` state is not a field of `ChatsPage.ChatsPage`. Selecting a chat is modelled on the chat window it feeds, as `ChatWindow.ChatWindow.SelectChat`.
- The new-chat dialog's `searchResult` state is declared and never set or read, and is not a field of `NewChatDialog.NewChatDialog`.
- Rendering, styling, icons and the `labels` field of a formatted chat are not modelled.
- The time formatting of list rows (`date-fns`) is not modelled.
- The `latestMessages` map and the `onNewMessage` callback are not read by any component in the code shown. The model keeps the map without consumers.
- Null rows are not modelled: the types give every fetched chat, member and user a value and every name a string. The source reads `cm.chat.members`, `m.user.id` and `member.full_name.toLowerCase()` without guards and throws on a null there.
- The roster's `showFilters` flag and the label part of `filters` are never changed by the code shown and have no effect on the list; they are not modelled.
