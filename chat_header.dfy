/**
 * The header above the transcript (`ChatHeader`): the title, the avatar
 * initial, the subtitle and the menu. The only state is whether the menu is
 * open.
 */
module ChatHeader {
  import opened Wrappers
  import opened Text
  import opened Domain
  import ChatList

  const MembersSuffix := " members"
  const LastSeen := "Last seen recently"
  const ManageMembers := "Manage members"
  const SearchInChat := "Search in chat"
  const LeaveChat := "Leave chat"

  /** The title: a private chat shows its first member's name, a group its name or "Unnamed Group". */
  function HeaderName(chat: Chat): (r: Option<string>)
    ensures chat.kind == Private ==> (r.Some? <==> chat.members != []) && (r.Some? ==> r.value == chat.members[0].fullName)
    ensures chat.kind == Group ==> r == Some(ChatList.GroupName(chat.name))
  {
    match chat.kind
    case Private => if chat.members != [] then Some(chat.members[0].fullName) else None
    case Group => Some(ChatList.GroupName(chat.name))
  }

  /**
   * The header does not leave the current user out, unlike the roster: a
   * private chat listing the current user first is titled after the current
   * user here and after the counterpart in the roster.
   */
  lemma HeaderMayShowCurrentUser(me: User, other: User)
    requires me.id != other.id
    ensures var chat := Chat("c", Private, None, [me, other], None);
      HeaderName(chat) == Some(me.fullName) && ChatList.ChatName(chat, me.id) == Some(other.fullName)
  {
    var chat := Chat("c", Private, None, [me, other], None);
    var first := ChatList.FirstOther(chat.members, me.id);
    assert chat.members[1].id != me.id;
    assert first.Some? && first.value == other;
  }

  /** The avatar letter: a group's is the first letter of its name, or "G"; a private chat's is the first letter of the first member's name, if there is one. */
  function AvatarInitial(chat: Chat): (r: Option<string>)
    ensures r.Some? ==> |r.value| == 1
    ensures chat.kind == Group && chat.name.Some? && chat.name.value != "" ==> r == Some([chat.name.value[0]])
    ensures chat.kind == Group && (chat.name.None? || chat.name.value == "") ==> r == Some("G")
    ensures chat.kind == Private ==>
      (r.Some? <==> chat.members != [] && chat.members[0].fullName != "")
      && (r.Some? ==> r.value[0] == chat.members[0].fullName[0])
  {
    match chat.kind
    case Group =>
      if chat.name.Some? && chat.name.value != "" then Some([chat.name.value[0]]) else Some("G")
    case Private =>
      if chat.members != [] && chat.members[0].fullName != "" then Some([chat.members[0].fullName[0]]) else None
  }

  /** The subtitle: a group's member count, or a fixed line for a private chat. */
  function Subtitle(chat: Chat): (r: string)
    ensures chat.kind == Private ==> r == LastSeen
    ensures chat.kind == Group ==>
      && |r| > |MembersSuffix|
      && r[|r| - |MembersSuffix|..] == MembersSuffix
      && AllDigits(r[..|r| - |MembersSuffix|])
      && ParseNat(r[..|r| - |MembersSuffix|]) == |chat.members|
      && (r[0] == '0' ==> |chat.members| == 0 && r == "0" + MembersSuffix)
  {
    match chat.kind
    case Private => LastSeen
    case Group =>
      var count := NatToString(|chat.members|);
      var r := count + MembersSuffix;
      assert r[..|r| - |MembersSuffix|] == count;
      ParseNatToString(|chat.members|);
      r
  }

  /** The menu's entries; "Manage members" appears for groups only. */
  function MenuItems(kind: ChatKind): (items: seq<string>)
    ensures |items| == if kind == Group then 3 else 2
    ensures ManageMembers in items <==> kind == Group
    ensures kind == Group ==> items[0] == ManageMembers
    ensures items[|items| - 2..] == [SearchInChat, LeaveChat]
  {
    (if kind == Group then [ManageMembers] else []) + [SearchInChat, LeaveChat]
  }

  class ChatHeader {
    var showMenu: bool

    constructor ()
      ensures !showMenu
    {
      showMenu := false;
    }

    /** The menu button: open becomes closed and closed becomes open. */
    method ToggleMenu()
      modifies this
      ensures showMenu == !old(showMenu)
    {
      showMenu := !showMenu;
    }
  }
}
