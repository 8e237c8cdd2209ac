/**
 * The roster (`ChatList`): flattening the fetched membership rows into chats,
 * the search-and-type filter applied on every keystroke, and the name and
 * preview each entry shows. The roster is only ever replaced wholesale by a
 * fetch; everything else here is a pure derivation.
 */
module ChatList {
  import opened Wrappers
  import opened Text
  import opened Seqs
  import opened Domain

  /** A member row of the fetch: `members:chat_members(user:users(*))`. */
  datatype MemberRow = MemberRow(user: User)

  /** The `chat` part of one fetched `chat_members` row; `last_message` may be missing. */
  datatype ChatRow = ChatRow(
    id: string,
    kind: ChatKind,
    name: Option<string>,
    members: seq<MemberRow>,
    lastMessages: Option<seq<Message>>)

  /** The type filter's three settings. */
  datatype TypeFilter = All | OnlyPrivate | OnlyGroup

  /** `members.map(m => m.user)`. */
  function Users(rows: seq<MemberRow>): (users: seq<User>)
    ensures |users| == |rows|
    ensures forall i :: 0 <= i < |rows| ==> users[i] == rows[i].user
  {
    seq(|rows|, i requires 0 <= i < |rows| => rows[i].user)
  }

  /** `last_message?.[0]`. */
  function FirstMessage(ms: Option<seq<Message>>): (m: Option<Message>)
    ensures m.None? <==> ms.None? || ms.value == []
    ensures m.Some? ==> m.value == ms.value[0]
  {
    if ms.Some? && ms.value != [] then Some(ms.value[0]) else None
  }

  /** One entry of `formattedChats`. */
  function FormatChat(row: ChatRow): (c: Chat)
    ensures c.id == row.id && c.kind == row.kind && c.name == row.name
    ensures c.members == Users(row.members)
    ensures c.lastMessage == FirstMessage(row.lastMessages)
  {
    Chat(row.id, row.kind, row.name, Users(row.members), FirstMessage(row.lastMessages))
  }

  /** `formattedChats`: one chat per fetched row, in the fetched order. */
  function FormatChats(rows: seq<ChatRow>): (chats: seq<Chat>)
    ensures |chats| == |rows|
    ensures forall i :: 0 <= i < |rows| ==> chats[i] == FormatChat(rows[i])
  {
    seq(|rows|, i requires 0 <= i < |rows| => FormatChat(rows[i]))
  }

  /** `fetchChats`: rows replace the roster wholesale; no data leaves it as it was. */
  function AfterFetch(chats: seq<Chat>, data: Option<seq<ChatRow>>): (r: seq<Chat>)
    ensures data.None? ==> r == chats
    ensures data.Some? ==> |r| == |data.value| && forall i :: 0 <= i < |r| ==> r[i] == FormatChat(data.value[i])
  {
    if data.Some? then FormatChats(data.value) else chats
  }

  /** Case-insensitive `includes`. */
  predicate MatchesText(text: string, query: string) {
    Includes(ToLower(text), ToLower(query))
  }

  /** The search test: an empty query, the group's name, or any member's name, the current user's included. */
  predicate SearchMatch(chat: Chat, query: string) {
    || query == ""
    || (chat.name.Some? && MatchesText(chat.name.value, query))
    || exists i :: 0 <= i < |chat.members| && MatchesText(chat.members[i].fullName, query)
  }

  /** The type test. */
  predicate TypeMatch(chat: Chat, filter: TypeFilter) {
    match filter
    case All => true
    case OnlyPrivate => chat.kind == Private
    case OnlyGroup => chat.kind == Group
  }

  predicate Keep(chat: Chat, query: string, filter: TypeFilter) {
    SearchMatch(chat, query) && TypeMatch(chat, filter)
  }

  function Keeps(query: string, filter: TypeFilter): Chat -> bool {
    (c: Chat) => Keep(c, query, filter)
  }

  /** `filteredChats`: the chats passing both tests, in roster order. */
  function FilterChats(chats: seq<Chat>, query: string, filter: TypeFilter): (r: seq<Chat>)
    ensures forall c :: c in r <==> c in chats && SearchMatch(c, query) && TypeMatch(c, filter)
    ensures forall c :: multiset(r)[c] == if Keep(c, query, filter) then multiset(chats)[c] else 0
    ensures IsSubsequence(r, chats)
  {
    FilterIsSubsequence(chats, Keeps(query, filter));
    FilterCounts(chats, Keeps(query, filter));
    Filter(chats, Keeps(query, filter))
  }

  /** An empty query with the type filter at "all" shows the whole roster, in order. */
  lemma EmptyQueryShowsAll(chats: seq<Chat>)
    ensures FilterChats(chats, "", All) == chats
  {
    FilterAllPass(chats, Keeps("", All));
  }

  /** Filtering the filtered list again changes nothing. */
  lemma FilterChatsIdempotent(chats: seq<Chat>, query: string, filter: TypeFilter)
    ensures FilterChats(FilterChats(chats, query, filter), query, filter) == FilterChats(chats, query, filter)
  {
    FilterIdempotent(chats, Keeps(query, filter));
  }

  /** The search ignores the case of the query. */
  lemma SearchIgnoresQueryCase(chat: Chat, query: string)
    ensures SearchMatch(chat, query) <==> SearchMatch(chat, ToLower(query))
  {
    ToLowerIdempotent(query);
  }

  /** The "private" setting keeps exactly the private chats of a search, and "group" the groups. */
  lemma TypeFilterSplitsRoster(chats: seq<Chat>, query: string)
    ensures forall c :: c in FilterChats(chats, query, OnlyPrivate) <==> c in FilterChats(chats, query, All) && c.kind == Private
    ensures forall c :: c in FilterChats(chats, query, OnlyGroup) <==> c in FilterChats(chats, query, All) && c.kind == Group
  {
  }

  /** A member whose name contains the query, in any case, keeps the chat in the search. */
  lemma MemberNameFindsChat(chat: Chat, i: nat, query: string, at: nat)
    requires i < |chat.members|
    requires OccursAt(ToLower(chat.members[i].fullName), ToLower(query), at)
    ensures SearchMatch(chat, query)
  {
    IncludesIffOccurs(ToLower(chat.members[i].fullName), ToLower(query));
  }

  function IsOtherThan(currentUserId: string): User -> bool {
    (u: User) => u.id != currentUserId
  }

  /** `otherMembers[0]`: the first member who is not the current user. */
  function FirstOther(members: seq<User>, currentUserId: string): (r: Option<User>)
    ensures r.Some? ==> exists i :: 0 <= i < |members| && members[i] == r.value && r.value.id != currentUserId
                                     && forall j :: 0 <= j < i ==> members[j].id == currentUserId
    ensures r.None? <==> forall j :: 0 <= j < |members| ==> members[j].id == currentUserId
  {
    match FindIndex(members, IsOtherThan(currentUserId))
    case None => None
    case Some(i) => Some(members[i])
  }

  const UnnamedGroup := "Unnamed Group"
  const NoMessagesYet := "No messages yet"

  /** `chat.name || "Unnamed Group"`: an absent or empty name falls back. */
  function GroupName(name: Option<string>): (r: string)
    ensures r != ""
    ensures name.Some? && name.value != "" ==> r == name.value
    ensures name.None? || name.value == "" ==> r == UnnamedGroup
  {
    if name.Some? && name.value != "" then name.value else UnnamedGroup
  }

  /** The roster entry's title: a private chat is named after the counterpart, a group after itself. */
  function ChatName(chat: Chat, currentUserId: string): (r: Option<string>)
    ensures chat.kind == Group ==> r == Some(GroupName(chat.name))
    ensures chat.kind == Private ==> r == match FirstOther(chat.members, currentUserId)
                                          case None => None
                                          case Some(u) => Some(u.fullName)
  {
    match chat.kind
    case Group => Some(GroupName(chat.name))
    case Private =>
      match FirstOther(chat.members, currentUserId)
      case None => None
      case Some(u) => Some(u.fullName)
  }

  /** A private chat with someone besides the current user is titled after such a member, never left untitled. */
  lemma PrivateNameIsCounterpart(chat: Chat, currentUserId: string, other: nat)
    requires chat.kind == Private
    requires other < |chat.members| && chat.members[other].id != currentUserId
    ensures ChatName(chat, currentUserId).Some?
    ensures exists i :: 0 <= i < |chat.members| && chat.members[i].id != currentUserId
                        && ChatName(chat, currentUserId) == Some(chat.members[i].fullName)
  {
  }

  /** `chat.lastMessage?.content || "No messages yet"`. */
  function Preview(chat: Chat): (r: string)
    ensures r != ""
    ensures chat.lastMessage.None? || chat.lastMessage.value.content == "" ==> r == NoMessagesYet
    ensures chat.lastMessage.Some? && chat.lastMessage.value.content != "" ==> r == chat.lastMessage.value.content
  {
    if chat.lastMessage.Some? && chat.lastMessage.value.content != "" then chat.lastMessage.value.content
    else NoMessagesYet
  }

  /**
   * The roster's own state: the formatted chats, the search text and the type
   * filter. Nothing in the component ever changes the filter, so it stays at
   * "all"; the roster itself is replaced by every fetch.
   */
  class ChatListView {
    var chats: seq<Chat>
    var searchQuery: string
    var filter: TypeFilter

    constructor ()
      ensures chats == [] && searchQuery == "" && filter == All
    {
      chats := [];
      searchQuery := "";
      filter := All;
    }

    /** `filteredChats` for the current state. */
    function Shown(): (r: seq<Chat>)
      reads this
      ensures forall c :: c in r <==> c in chats && SearchMatch(c, searchQuery) && TypeMatch(c, filter)
      ensures forall c :: multiset(r)[c] == if Keep(c, searchQuery, filter) then multiset(chats)[c] else 0
      ensures IsSubsequence(r, chats)
    {
      FilterChats(chats, searchQuery, filter)
    }

    /** The search box's `onChange`; clearing it with the filter at "all" shows the whole roster again. */
    method SetSearchQuery(value: string)
      modifies this
      ensures searchQuery == value
      ensures chats == old(chats) && filter == old(filter)
      ensures value == "" && filter == All ==> Shown() == chats
    {
      searchQuery := value;
      EmptyQueryShowsAll(chats);
    }

    /** The end of `fetchChats`, run on mount and again on every message event. */
    method OnChatsFetched(data: Option<seq<ChatRow>>)
      modifies this
      ensures chats == AfterFetch(old(chats), data)
      ensures searchQuery == old(searchQuery) && filter == old(filter)
    {
      chats := AfterFetch(chats, data);
    }
  }
}
