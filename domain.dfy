/** The rows the components read from and write to the backend tables. */
module Domain {
  import opened Wrappers

  /** A row of `users`, as far as the components read it. */
  datatype User = User(id: string, fullName: string, mobileNumber: Option<string>)

  datatype ChatKind = Private | Group

  /** The `type` column of `messages`. */
  datatype MessageKind = Text | Image | Video | File

  /** A row of `messages` joined with its sender. */
  datatype Message = Message(
    id: string,
    content: string,
    senderId: string,
    createdAt: string,
    kind: MessageKind,
    attachmentUrl: Option<string>,
    sender: User)

  /** A conversation as the roster and the header see it: the membership rows already flattened to users. */
  datatype Chat = Chat(
    id: string,
    kind: ChatKind,
    name: Option<string>,
    members: seq<User>,
    lastMessage: Option<Message>)

  /** A row to insert into `chat_members`. */
  datatype Membership = Membership(chatId: string, userId: string)

  /** Some element of `users` has the id `id` (`users.some(u => u.id === id)`). */
  predicate HasUserId(users: seq<User>, id: string) {
    exists i :: 0 <= i < |users| && users[i].id == id
  }
}
