/**
 * The transcript pane of one conversation (`ChatWindow`): the `messages`,
 * `newMessage` and `isUploading` state, the optimistic send with its rollback,
 * the push handler, the initial fetch and the attachment upload. Every backend
 * call is replaced by its outcome, passed in as a parameter.
 */
module ChatWindow {
  import opened Wrappers
  import opened Text
  import opened Seqs
  import opened Domain

  /** A row to insert into `messages`. */
  datatype MessageInsert = MessageInsert(
    chatId: string,
    senderId: string,
    content: string,
    kind: MessageKind,
    attachmentUrl: Option<string>)

  /** The first file of the attachment picker: its name and its declared media type. */
  datatype PickedFile = PickedFile(name: string, mediaType: string)

  /** The test of `prev.filter((msg) => msg.id !== id)`. */
  function IdIsNot(id: string): Message -> bool {
    (m: Message) => m.id != id
  }

  /** The transcript without the entries whose id is `id`; the others keep their order. */
  function WithoutId(ms: seq<Message>, id: string): (r: seq<Message>)
    ensures forall m :: m in r <==> m in ms && m.id != id
    ensures forall m :: multiset(r)[m] == if m.id != id then multiset(ms)[m] else 0
    ensures IsSubsequence(r, ms)
  {
    FilterIsSubsequence(ms, IdIsNot(id));
    FilterCounts(ms, IdIsNot(id));
    Filter(ms, IdIsNot(id))
  }

  /**
   * Rolling back the optimistic entry removes exactly that entry, even when
   * pushed messages arrived between the send and the failure.
   */
  lemma RollbackRestores(before: seq<Message>, optimistic: Message, pushed: seq<Message>)
    requires forall i :: 0 <= i < |before| ==> before[i].id != optimistic.id
    requires forall i :: 0 <= i < |pushed| ==> pushed[i].id != optimistic.id
    ensures WithoutId(before + [optimistic] + pushed, optimistic.id) == before + pushed
  {
    var p := IdIsNot(optimistic.id);
    assert forall i :: 0 <= i < |before| ==> p(before[i]);
    assert forall i :: 0 <= i < |pushed| ==> p(pushed[i]);
    calc {
      Filter(before + [optimistic] + pushed, p);
      { FilterAppend(before + [optimistic], pushed, p); }
      Filter(before + [optimistic], p) + Filter(pushed, p);
      { FilterAppend(before, [optimistic], p); }
      Filter(before, p) + Filter([optimistic], p) + Filter(pushed, p);
      { FilterAllPass(before, p); FilterAllPass(pushed, p); }
      before + Filter([optimistic], p) + pushed;
      { assert Filter([optimistic], p) == []; }
      before + pushed;
    }
  }

  /** The entry shown while the insert is outstanding. */
  function OptimisticMessage(id: string, createdAt: string, content: string, sender: User): (m: Message)
    ensures m.id == id && m.createdAt == createdAt && m.content == content && m.kind == Text
    ensures m.senderId == sender.id && m.sender == sender && m.attachmentUrl == None
  {
    Message(id, content, sender.id, createdAt, Text, None, sender)
  }

  /** The message type an attachment gets from its media type. */
  function KindOf(mediaType: string): (k: MessageKind)
    ensures k != Text
    ensures k == Image <==> StartsWith(mediaType, "image/")
    ensures k == Video <==> StartsWith(mediaType, "video/")
    ensures k == File <==> !StartsWith(mediaType, "image/") && !StartsWith(mediaType, "video/")
  {
    if StartsWith(mediaType, "image/") then Image
    else if StartsWith(mediaType, "video/") then Video
    else File
  }

  /** The storage path: a random name in the chat's folder, followed by the picked file's extension. */
  function UploadPath(chatId: string, randomName: string, fileName: string): (path: string)
    ensures StartsWith(path, chatId + "/")
  {
    StartsWithConcat(chatId + "/", randomName + "." + Extension(fileName));
    chatId + "/" + randomName + "." + Extension(fileName)
  }

  /** The stored object keeps the extension of the picked file. */
  lemma UploadPathKeepsExtension(chatId: string, randomName: string, fileName: string)
    ensures Extension(UploadPath(chatId, randomName, fileName)) == Extension(fileName)
  {
    ExtensionAfterLastDot(chatId + "/" + randomName, Extension(fileName));
  }

  /**
   * The pane is rendered without a `key`, so selecting another chat keeps the
   * same component: `chatId` changes while the transcript, the draft and the
   * upload flag carry over until the next fetch for the new chat lands.
   */
  class ChatWindow {
    var chatId: string
    const currentUser: User
    var messages: seq<Message>
    var newMessage: string
    var isUploading: bool

    constructor (chatId: string, currentUser: User)
      ensures this.chatId == chatId && this.currentUser == currentUser
      ensures messages == [] && newMessage == "" && !isUploading
    {
      this.chatId := chatId;
      this.currentUser := currentUser;
      messages := [];
      newMessage := "";
      isUploading := false;
    }

    /**
     * Selecting another chat in the roster: only the chat changes; the old
     * transcript, draft and upload flag stay until a fetch replaces them.
     */
    method SelectChat(id: string)
      modifies this
      ensures chatId == id
      ensures messages == old(messages) && newMessage == old(newMessage) && isUploading == old(isUploading)
    {
      chatId := id;
    }

    /** The input's `onChange`. */
    method SetNewMessage(value: string)
      modifies this
      ensures newMessage == value
      ensures messages == old(messages) && isUploading == old(isUploading) && chatId == old(chatId)
    {
      newMessage := value;
    }

    /** The initial fetch: the fetched rows replace the transcript; no data leaves it alone. */
    method OnMessagesFetched(data: Option<seq<Message>>)
      modifies this
      ensures messages == if data.Some? then data.value else old(messages)
      ensures newMessage == old(newMessage) && isUploading == old(isUploading) && chatId == old(chatId)
    {
      if data.Some? {
        messages := data.value;
      }
    }

    /** A pushed insert, once resolved with its sender, is appended without de-duplication. */
    method OnMessageResolved(data: Option<Message>)
      modifies this
      ensures messages == if data.Some? then old(messages) + [data.value] else old(messages)
      ensures newMessage == old(newMessage) && isUploading == old(isUploading) && chatId == old(chatId)
    {
      if data.Some? {
        messages := messages + [data.value];
      }
    }

    /**
     * `handleSendMessage` up to the awaited insert: a blank input does nothing;
     * otherwise the input is cleared, one optimistic entry is appended and the
     * insert request is returned.
     */
    method BeginSend(optimisticId: string, createdAt: string) returns (request: Option<MessageInsert>)
      modifies this
      ensures Trim(old(newMessage)) == "" ==>
        request == None && messages == old(messages) && newMessage == old(newMessage)
      ensures Trim(old(newMessage)) != "" ==>
        && newMessage == ""
        && |messages| == |old(messages)| + 1
        && messages[..|old(messages)|] == old(messages)
        && messages[|old(messages)|] == OptimisticMessage(optimisticId, createdAt, Trim(old(newMessage)), currentUser)
        && request == Some(MessageInsert(chatId, currentUser.id, Trim(old(newMessage)), Text, None))
      ensures isUploading == old(isUploading) && chatId == old(chatId)
    {
      var content := Trim(newMessage);
      if content == "" {
        return None;
      }
      newMessage := "";
      messages := messages + [OptimisticMessage(optimisticId, createdAt, content, currentUser)];
      request := Some(MessageInsert(chatId, currentUser.id, content, Text, None));
    }

    /** The `catch` branch of `handleSendMessage`: drop every entry carrying the optimistic id. */
    method RollBackSend(optimisticId: string)
      modifies this
      ensures messages == WithoutId(old(messages), optimisticId)
      ensures newMessage == old(newMessage) && isUploading == old(isUploading) && chatId == old(chatId)
    {
      messages := WithoutId(messages, optimisticId);
    }

    /**
     * `handleSendMessage` with nothing interleaved: after a successful insert the
     * optimistic entry stays as it is; after a failed one it is removed again.
     */
    method HandleSendMessage(optimisticId: string, createdAt: string, insertOk: bool)
      returns (request: Option<MessageInsert>)
      modifies this
      ensures Trim(old(newMessage)) == "" ==>
        request == None && messages == old(messages) && newMessage == old(newMessage)
      ensures Trim(old(newMessage)) != "" ==>
        && newMessage == ""
        && request == Some(MessageInsert(chatId, currentUser.id, Trim(old(newMessage)), Text, None))
        && (insertOk ==> messages == old(messages) + [OptimisticMessage(optimisticId, createdAt, Trim(old(newMessage)), currentUser)])
        && (!insertOk ==> messages == WithoutId(old(messages), optimisticId))
      ensures isUploading == old(isUploading) && chatId == old(chatId)
    {
      ghost var before := messages;
      ghost var optimistic := OptimisticMessage(optimisticId, createdAt, Trim(newMessage), currentUser);
      request := BeginSend(optimisticId, createdAt);
      if request.Some? {
        assert messages == before + [optimistic];
        if !insertOk {
          var p := IdIsNot(optimisticId);
          FilterAppend(before, [optimistic], p);
          assert Filter([optimistic], p) == [];
          assert WithoutId(messages, optimisticId) == WithoutId(before, optimisticId);
          RollBackSend(optimisticId);
        }
      }
    }

    /**
     * `handleFileUpload`: with no file nothing happens; otherwise the file is
     * uploaded under a random name, and only after a successful upload is a
     * message inserted whose content is the file name and whose type follows the
     * media type. `isUploading` is cleared on every outcome.
     */
    method HandleFileUpload(file: Option<PickedFile>, randomName: string, uploadOk: bool, publicUrl: string)
      returns (uploadPath: Option<string>, request: Option<MessageInsert>)
      modifies this
      ensures file.None? ==> uploadPath == None && request == None && isUploading == old(isUploading)
      ensures file.Some? ==>
        && !isUploading
        && uploadPath == Some(UploadPath(chatId, randomName, file.value.name))
        && request == (if uploadOk
                       then Some(MessageInsert(chatId, currentUser.id, file.value.name, KindOf(file.value.mediaType), Some(publicUrl)))
                       else None)
      ensures messages == old(messages) && newMessage == old(newMessage) && chatId == old(chatId)
    {
      if file.None? {
        return None, None;
      }
      isUploading := true;
      var path := UploadPath(chatId, randomName, file.value.name);
      uploadPath := Some(path);
      request := None;
      if uploadOk {
        request := Some(MessageInsert(chatId, currentUser.id, file.value.name, KindOf(file.value.mediaType), Some(publicUrl)));
      }
      isUploading := false;
    }
  }
}
