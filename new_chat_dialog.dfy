/**
 * The dialog that starts a private chat or creates a group (`NewChatDialog`).
 * The user lookup by phone number, the scan of the current user's private
 * chats and the chat insert are replaced by their outcomes; the membership
 * inserts are returned as the list of rows the dialog asks for.
 */
module NewChatDialog {
  import opened Wrappers
  import opened Text
  import opened Seqs
  import opened Phone
  import opened Domain

  /** A row to insert into `chats`. */
  datatype ChatInsert = ChatInsert(kind: ChatKind, name: Option<string>, createdBy: string)

  /** What `handleCreateChat` ends with. */
  datatype CreateOutcome =
    | Rejected                                   // a validation or lookup error; nothing was inserted
    | SelectedExisting(chat: Chat)               // a private chat with the target already exists
    | InsertFailed(request: ChatInsert)          // the chat insert was attempted and failed
    | Created(request: ChatInsert, memberships: seq<Membership>, selectedMembers: seq<User>)

  /** No two entries share an id. */
  predicate UniqueIds(users: seq<User>) {
    forall i, j :: 0 <= i < j < |users| ==> users[i].id != users[j].id
  }

  /** The test of `members.filter(m => m.id !== id)`. */
  function UserIdIsNot(id: string): User -> bool {
    (u: User) => u.id != id
  }

  /** The Remove button: every entry with that id goes, the rest keep their order. */
  function RemoveById(users: seq<User>, id: string): (r: seq<User>)
    ensures forall u :: u in r <==> u in users && u.id != id
    ensures forall u :: multiset(r)[u] == if u.id != id then multiset(users)[u] else 0
    ensures IsSubsequence(r, users)
    ensures !HasUserId(r, id)
  {
    FilterIsSubsequence(users, UserIdIsNot(id));
    FilterCounts(users, UserIdIsNot(id));
    Filter(users, UserIdIsNot(id))
  }

  /** Removing keeps a duplicate-free list duplicate-free. */
  lemma {:induction false} RemoveKeepsUniqueIds(users: seq<User>, id: string)
    requires UniqueIds(users)
    ensures UniqueIds(RemoveById(users, id))
  {
    if users != [] {
      RemoveKeepsUniqueIds(users[1..], id);
      var rest := RemoveById(users[1..], id);
      var r := RemoveById(users, id);
      assert r == Filter(users, UserIdIsNot(id));
      if users[0].id == id {
        assert r == rest;
      } else {
        assert r == [users[0]] + rest;
        forall i | 0 <= i < |rest| ensures rest[i].id != users[0].id {
          assert rest[i] in users[1..];
        }
        forall i, j | 0 <= i < j < |r| ensures r[i].id != r[j].id {
          if i > 0 {
            assert r[i] == rest[i - 1] && r[j] == rest[j - 1];
          } else {
            assert r[j] == rest[j - 1];
          }
        }
      }
    }
  }

  /** `chat.members.some(m => m.user.id === id)`. */
  predicate HasMember(chat: Chat, id: string) { HasUserId(chat.members, id) }

  function ChatHasMember(id: string): Chat -> bool {
    (c: Chat) => HasMember(c, id)
  }

  /** `existingChat?.find(...)`: the first of the current user's private chats that has the target as a member. */
  function FindExisting(chats: seq<Chat>, targetId: string): (r: Option<Chat>)
    ensures r.Some? ==> exists i :: 0 <= i < |chats| && chats[i] == r.value && HasMember(chats[i], targetId)
                                     && forall j :: 0 <= j < i ==> !HasMember(chats[j], targetId)
    ensures r.None? <==> forall j :: 0 <= j < |chats| ==> !HasMember(chats[j], targetId)
  {
    match FindIndex(chats, ChatHasMember(targetId))
    case None => None
    case Some(i) => Some(chats[i])
  }

  /** The membership rows of a new group: the creator's first, then one per selected member, in order. */
  function GroupMemberships(chatId: string, creatorId: string, members: seq<User>): (rows: seq<Membership>)
    ensures |rows| == |members| + 1
    ensures rows[0] == Membership(chatId, creatorId)
    ensures forall i :: 0 <= i < |members| ==> rows[i + 1] == Membership(chatId, members[i].id)
  {
    [Membership(chatId, creatorId)] + seq(|members|, i requires 0 <= i < |members| => Membership(chatId, members[i].id))
  }

  /** Every member of a created group, the creator included, gets exactly one row. */
  lemma GroupMembershipsCoverEveryone(chatId: string, creator: User, members: seq<User>)
    requires UniqueIds(members) && !HasUserId(members, creator.id)
    ensures var rows := GroupMemberships(chatId, creator.id, members);
      && (forall u :: u in members ==> Membership(chatId, u.id) in rows)
      && Membership(chatId, creator.id) in rows
      && (forall i, j :: 0 <= i < j < |rows| ==> rows[i] != rows[j])
  {
    var rows := GroupMemberships(chatId, creator.id, members);
    forall u | u in members ensures Membership(chatId, u.id) in rows {
      var i :| 0 <= i < |members| && members[i] == u;
      assert rows[i + 1] == Membership(chatId, u.id);
    }
    forall i, j | 0 <= i < j < |rows| ensures rows[i] != rows[j] {
      if i == 0 {
        assert rows[j].userId == members[j - 1].id;
      }
    }
  }

  class NewChatDialog {
    const currentUser: User
    var chatType: ChatKind
    var phoneNumber: string
    var groupName: string
    var members: seq<User>
    var error: string
    var loading: bool

    /** The member list never holds the current user and never holds one user twice. */
    ghost predicate Valid()
      reads this
    {
      UniqueIds(members) && !HasUserId(members, currentUser.id)
    }

    constructor (currentUser: User)
      ensures Valid() && this.currentUser == currentUser
      ensures chatType == Private && phoneNumber == "" && groupName == "" && members == []
      ensures error == "" && !loading
    {
      this.currentUser := currentUser;
      chatType := Private;
      phoneNumber := "";
      groupName := "";
      members := [];
      error := "";
      loading := false;
    }

    /** `resetForm`. */
    method ResetForm()
      modifies this
      ensures Valid()
      ensures chatType == Private && phoneNumber == "" && groupName == "" && members == [] && error == ""
      ensures loading == old(loading)
    {
      chatType := Private;
      phoneNumber := "";
      groupName := "";
      members := [];
      error := "";
    }

    /** The Private Chat / Group Chat buttons. */
    method SetChatType(kind: ChatKind)
      modifies this
      ensures chatType == kind && error == ""
      ensures phoneNumber == old(phoneNumber) && groupName == old(groupName) && members == old(members)
      ensures loading == old(loading)
    {
      chatType := kind;
      error := "";
    }

    /** The phone field's `onChange`: sanitised digits, and the error cleared. */
    method SetPhoneNumber(raw: string)
      modifies this
      ensures phoneNumber == Sanitize(raw) && error == ""
      ensures chatType == old(chatType) && groupName == old(groupName) && members == old(members)
      ensures loading == old(loading)
    {
      phoneNumber := Sanitize(raw);
      error := "";
    }

    /** The group-name field's `onChange`. */
    method SetGroupName(value: string)
      modifies this
      ensures groupName == value && error == ""
      ensures chatType == old(chatType) && phoneNumber == old(phoneNumber) && members == old(members)
      ensures loading == old(loading)
    {
      groupName := value;
      error := "";
    }

    /**
     * `handleAddMember`: looks the number up under `+91`; a missing user, the
     * current user or a user already listed is refused with an error and
     * nothing else changes; otherwise the user is appended and the field cleared.
     */
    method HandleAddMember(found: Option<User>) returns (searched: string)
      requires Valid()
      modifies this
      ensures Valid()
      ensures searched == Normalize(old(phoneNumber))
      ensures found.None? ==> error == "No user found with this phone number"
      ensures found.Some? && found.value.id == currentUser.id ==> error == "You cannot add yourself"
      ensures found.Some? && found.value.id != currentUser.id && HasUserId(old(members), found.value.id) ==>
        error == "This user is already added"
      ensures found.Some? && found.value.id != currentUser.id && !HasUserId(old(members), found.value.id) ==>
        members == old(members) + [found.value] && phoneNumber == "" && error == ""
      ensures members != old(members) ==> found.Some? && members == old(members) + [found.value]
      ensures members == old(members) ==> phoneNumber == old(phoneNumber)
      ensures chatType == old(chatType) && groupName == old(groupName) && loading == old(loading)
    {
      error := "";
      searched := Normalize(phoneNumber);
      if found.None? {
        error := "No user found with this phone number";
        return;
      }
      var user := found.value;
      if user.id == currentUser.id {
        error := "You cannot add yourself";
        return;
      }
      if HasUserId(members, user.id) {
        error := "This user is already added";
        return;
      }
      members := members + [user];
      phoneNumber := "";
    }

    /** The Remove button next to a listed member. */
    method RemoveMember(id: string)
      requires Valid()
      modifies this
      ensures Valid()
      ensures members == RemoveById(old(members), id)
      ensures chatType == old(chatType) && phoneNumber == old(phoneNumber) && groupName == old(groupName)
      ensures error == old(error) && loading == old(loading)
    {
      RemoveKeepsUniqueIds(members, id);
      members := RemoveById(members, id);
    }

    /**
     * `handleCreateChat`. A private chat needs a number, a user behind it other
     * than the current user, and no existing private chat with that user (if
     * there is one it is selected instead). A group needs a non-blank name and
     * at least one member. The chat insert's outcome is `newChatId` (None when it
     * failed). On creation the form is reset.
     */
    method HandleCreateChat(found: Option<User>, existing: seq<Chat>, newChatId: Option<string>)
      returns (outcome: CreateOutcome, searched: Option<string>)
      requires Valid()
      modifies this
      ensures Valid()
      ensures !loading
      ensures searched == if old(chatType) == Private && old(phoneNumber) != "" then Some(Normalize(old(phoneNumber))) else None
      ensures old(chatType) == Private && old(phoneNumber) == "" ==>
        outcome == Rejected && error == "Please enter a phone number"
      ensures old(chatType) == Private && old(phoneNumber) != "" && found.None? ==>
        outcome == Rejected && error == "No user found with this phone number"
      ensures old(chatType) == Private && old(phoneNumber) != "" && found.Some? && found.value.id == currentUser.id ==>
        outcome == Rejected && error == "You cannot start a chat with yourself"
      ensures old(chatType) == Private && old(phoneNumber) != "" && found.Some? && found.value.id != currentUser.id ==>
        match FindExisting(existing, found.value.id)
        case Some(chat) => outcome == SelectedExisting(chat) && error == ""
        case None =>
          var request := ChatInsert(Private, None, currentUser.id);
          if newChatId.None? then outcome == InsertFailed(request) && error == "Failed to create chat. Please try again."
          else outcome == Created(request,
                                  [Membership(newChatId.value, currentUser.id), Membership(newChatId.value, found.value.id)],
                                  [found.value])
      ensures old(chatType) == Group && Trim(old(groupName)) == "" ==>
        outcome == Rejected && error == "Please enter a group name"
      ensures old(chatType) == Group && Trim(old(groupName)) != "" && old(members) == [] ==>
        outcome == Rejected && error == "Please add at least one member"
      ensures old(chatType) == Group && Trim(old(groupName)) != "" && old(members) != [] ==>
        var request := ChatInsert(Group, Some(Trim(old(groupName))), currentUser.id);
        if newChatId.None? then outcome == InsertFailed(request) && error == "Failed to create chat. Please try again."
        else outcome == Created(request,
                                GroupMemberships(newChatId.value, currentUser.id, old(members)),
                                old(members) + [User(currentUser.id, currentUser.fullName, None)])
      ensures outcome.Created? ==> chatType == Private && phoneNumber == "" && groupName == "" && members == [] && error == ""
      ensures !outcome.Created? ==>
        chatType == old(chatType) && phoneNumber == old(phoneNumber) && groupName == old(groupName) && members == old(members)
    {
      error := "";
      loading := true;
      searched := None;
      if chatType == Private {
        if phoneNumber != "" {
          searched := Some(Normalize(phoneNumber));
        }
        if phoneNumber == "" {
          error := "Please enter a phone number";
          outcome := Rejected;
        } else if found.None? {
          error := "No user found with this phone number";
          outcome := Rejected;
        } else if found.value.id == currentUser.id {
          error := "You cannot start a chat with yourself";
          outcome := Rejected;
        } else {
          var user := found.value;
          var chat := FindExisting(existing, user.id);
          if chat.Some? {
            outcome := SelectedExisting(chat.value);
          } else {
            var request := ChatInsert(Private, None, currentUser.id);
            if newChatId.None? {
              error := "Failed to create chat. Please try again.";
              outcome := InsertFailed(request);
            } else {
              var id := newChatId.value;
              outcome := Created(request, [Membership(id, currentUser.id), Membership(id, user.id)], [user]);
              ResetForm();
            }
          }
        }
      } else {
        if Trim(groupName) == "" {
          error := "Please enter a group name";
          outcome := Rejected;
        } else if members == [] {
          error := "Please add at least one member";
          outcome := Rejected;
        } else {
          var request := ChatInsert(Group, Some(Trim(groupName)), currentUser.id);
          if newChatId.None? {
            error := "Failed to create chat. Please try again.";
            outcome := InsertFailed(request);
          } else {
            var id := newChatId.value;
            var selected := members + [User(currentUser.id, currentUser.fullName, None)];
            outcome := Created(request, GroupMemberships(id, currentUser.id, members), selected);
            ResetForm();
          }
        }
      }
      loading := false;
    }
  }
}
