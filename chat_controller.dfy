/** The chat HTTP handlers (controllers/chatController.js): posting a message with optional
    images to a chat the caller takes part in, and removing one image of a message. */
module ChatController {
  import opened Common
  import opened ChatModel

  const MessageFieldsMissing: Error := BadRequest("Chat ID and either text or image are required.")
  const ChatNotFound: Error := NotFound("Chat not found.")
  const NotParticipant: Error := Forbidden("You are not a participant of this chat.")
  const ImageFieldsMissing: Error := BadRequest("Chat ID, Message ID, and Image ID are required.")
  const MessageNotFound: Error := NotFound("Message not found.")
  const DeleteForbidden: Error := Forbidden("Unauthorized to delete this image.")
  const ImageNotFound: Error := NotFound("Image not found.")
  const NoImageFiles: Error := BadRequest("No image files provided.")

  /** A file as the upload middleware leaves it in `req.files`. */
  datatype UploadedFile = UploadedFile(filename: string, path: string)

  /** `req.files.map(file => ({ public_id: file.filename, url: file.path }))`. */
  function ImageRefs(files: seq<UploadedFile>): (r: seq<ImageRef>)
    ensures |r| == |files|
    ensures forall k | 0 <= k < |files| :: r[k] == ImageRef(files[k].filename, files[k].path)
  {
    if files == [] then [] else [ImageRef(files[0].filename, files[0].path)] + ImageRefs(files[1..])
  }

  /** The message `sendMessage` builds: the caller as sender, `text || ''`, and the uploaded
      files as images when there is at least one. */
  function NewMessage(me: Id, text: Option<string>, files: Option<seq<UploadedFile>>, now: int): (d: MessageData)
    ensures d.sender == me && d.text == TextOr(text) && d.timestamp == now
    ensures files.Some? ==> d.images == ImageRefs(files.value)
    ensures files.None? ==> d.images == []
  {
    MessageData(me, TextOr(text), if files.Some? && |files.value| > 0 then ImageRefs(files.value) else [], now)
  }

  /** `sendMessage`: a missing chat id, or neither text nor a file list, is refused; so are an
      unknown chat and a caller who does not take part in it; in each case nothing changes.
      Otherwise exactly one message is appended to the end of that chat's messages, with the
      caller as sender, the text or `''`, and one image per uploaded file, in order. */
  method SendMessage(store: ChatStore, me: Id, chatId: Option<Id>, text: Option<string>,
                     files: Option<seq<UploadedFile>>, now: int)
    returns (r: Result<Message>)
    requires store.Valid()
    modifies store
    ensures store.Valid()
    ensures chatId.None? || (!TruthyText(text) && files.None?) ==> r == Err(MessageFieldsMissing)
    ensures (chatId.Some? && (TruthyText(text) || files.Some?) && chatId.value >= |old(store.chats)|) ==>
      r == Err(ChatNotFound)
    ensures (chatId.Some? && (TruthyText(text) || files.Some?) && chatId.value < |old(store.chats)|
             && me !in old(store.chats)[chatId.value].participants) ==>
      r == Err(NotParticipant)
    ensures (chatId.Some? && (TruthyText(text) || files.Some?) && chatId.value < |old(store.chats)|
             && me in old(store.chats)[chatId.value].participants) ==> r.Ok?
    ensures r.Err? ==> store.chats == old(store.chats) && store.nextId == old(store.nextId)
    ensures r.Ok? ==>
      var c := chatId.value;
      && c < |old(store.chats)| && me in old(store.chats)[c].participants
      && r.value == Stamp(NewMessage(me, text, files, now), old(store.nextId))
      && store.chats == old(store.chats)[c := old(store.chats)[c].(messages := old(store.chats)[c].messages + [r.value])]
  {
    if chatId.None? || (!TruthyText(text) && files.None?) {
      return Err(MessageFieldsMissing);
    }
    var c := chatId.value;
    if c >= |store.chats| {
      return Err(ChatNotFound);
    }
    if me !in store.chats[c].participants {
      return Err(NotParticipant);
    }
    var m := AppendMessage(store, c, NewMessage(me, text, files, now));
    r := Ok(m);
  }

  /** `POST /api/chats/messages` as written: the route's `uploadImages` middleware replies by
      itself and never calls `next`, and the callback `sendMessage` hands to `uploadImages` is
      never called either. So no message is ever stored; the reply is the upload's own: its
      error, no files, or the paths of the uploaded files. */
  function SendMessageAsWritten(files: Option<seq<UploadedFile>>, uploadError: Option<string>)
    : (r: Result<seq<string>>)
    ensures uploadError.Some? ==> r == Err(ServerError("Failed to upload images: " + uploadError.value))
    ensures uploadError.None? && (files.None? || files.value == []) ==> r == Err(NoImageFiles)
    ensures uploadError.None? && files.Some? && files.value != [] ==>
      r.Ok? && |r.value| == |files.value| && forall k | 0 <= k < |files.value| :: r.value[k] == files.value[k].path
  {
    if uploadError.Some? then Err(ServerError("Failed to upload images: " + uploadError.value))
    else if files.None? || files.value == [] then Err(NoImageFiles)
    else Ok(seq(|files.value|, k requires 0 <= k < |files.value| => files.value[k].path))
  }

  /** A sent message's images are the uploaded files, one for one and in order, under fresh
      consecutive ids that follow the message's own. */
  lemma SentImagesMatchFiles(me: Id, text: Option<string>, files: seq<UploadedFile>, now: int, id: Id)
    ensures var m := Stamp(NewMessage(me, text, Some(files), now), id);
      && |m.images| == |files|
      && forall k | 0 <= k < |files| ::
           m.images[k].id == id + 1 + k && m.images[k].ref == ImageRef(files[k].filename, files[k].path)
  {
  }

  /** Message `m` of chat `c` with its image at `k` removed: `image.remove()`. */
  function WithoutImage(chats: seq<Chat>, c: nat, m: nat, k: nat): (r: seq<Chat>)
    requires c < |chats| && m < |chats[c].messages| && k < |chats[c].messages[m].images|
    ensures |r| == |chats|
    ensures forall d | 0 <= d < |chats| && d != c :: r[d] == chats[d]
    ensures r[c].participants == chats[c].participants && |r[c].messages| == |chats[c].messages|
    ensures forall n | 0 <= n < |chats[c].messages| && n != m :: r[c].messages[n] == chats[c].messages[n]
    ensures var old_ := chats[c].messages[m]; var new_ := r[c].messages[m];
      && new_.id == old_.id && new_.sender == old_.sender && new_.text == old_.text && new_.timestamp == old_.timestamp
      && new_.images == old_.images[..k] + old_.images[k + 1..]
  {
    var chat := chats[c];
    var msg := chat.messages[m];
    chats[c := chat.(messages := chat.messages[m := msg.(images := msg.images[..k] + msg.images[k + 1..])])]
  }

  /** Removing an image keeps every remaining message and image id below the store's next id. */
  lemma WithoutImageKeepsIdsBelow(chats: seq<Chat>, c: nat, m: nat, k: nat, bound: Id)
    requires c < |chats| && m < |chats[c].messages| && k < |chats[c].messages[m].images|
    requires IdsBelow(chats, bound)
    ensures IdsBelow(WithoutImage(chats, c, m, k), bound)
  {
    var after := WithoutImage(chats, c, m, k);
    forall d, n | 0 <= d < |after| && n in after[d].messages
      ensures n.id < bound && forall g | g in n.images :: g.id < bound
    {
      var j :| 0 <= j < |after[d].messages| && after[d].messages[j] == n;
      if d == c && j == m {
        var was := chats[c].messages[j];
        assert was in chats[c].messages;
        forall g | g in n.images ensures g in was.images {
          var i :| 0 <= i < |n.images| && n.images[i] == g;
          assert g == (if i < k then was.images[i] else was.images[i + 1]);
        }
      } else {
        assert chats[d].messages[j] == n;
      }
    }
  }

  /** `deleteMessageImage`: all three ids are required; then an unknown chat, an unknown
      message, a caller who is neither the sender nor an admin, and an unknown image are
      refused in that order, with nothing changed. Otherwise exactly that image is removed. */
  method DeleteMessageImage(store: ChatStore, who: Requester, chatId: Option<Id>, messageId: Option<Id>, imageId: Option<Id>)
    returns (r: Result<Image>)
    requires store.Valid()
    modifies store
    ensures store.Valid() && store.nextId == old(store.nextId)
    ensures chatId.None? || messageId.None? || imageId.None? ==> r == Err(ImageFieldsMissing)
    ensures (chatId.Some? && messageId.Some? && imageId.Some? && chatId.value >= |old(store.chats)|) ==>
      r == Err(ChatNotFound)
    ensures (chatId.Some? && messageId.Some? && imageId.Some? && chatId.value < |old(store.chats)|
             && FindId(Ids(old(store.chats)[chatId.value].messages, MessageId), messageId.value).None?) ==>
      r == Err(MessageNotFound)
    ensures r.Err? ==> store.chats == old(store.chats)
    ensures r.Ok? ==>
      && chatId.Some? && messageId.Some? && imageId.Some? && chatId.value < |old(store.chats)|
      && var c := chatId.value;
      && var m := FindId(Ids(old(store.chats)[c].messages, MessageId), messageId.value);
      && m.Some?
      && var msg := old(store.chats)[c].messages[m.value];
      && (msg.sender == who.id || who.isAdmin)
      && var k := FindId(Ids(msg.images, ImageId), imageId.value);
      && k.Some?
      && r.value == msg.images[k.value]
      && store.chats == WithoutImage(old(store.chats), c, m.value, k.value)
    ensures (chatId.Some? && messageId.Some? && imageId.Some? && chatId.value < |old(store.chats)|
             && FindId(Ids(old(store.chats)[chatId.value].messages, MessageId), messageId.value).Some?) ==>
      var msg := old(store.chats)[chatId.value].messages[FindId(Ids(old(store.chats)[chatId.value].messages, MessageId), messageId.value).value];
      && (msg.sender != who.id && !who.isAdmin ==> r == Err(DeleteForbidden))
      && ((msg.sender == who.id || who.isAdmin) && FindId(Ids(msg.images, ImageId), imageId.value).None? ==> r == Err(ImageNotFound))
      && ((msg.sender == who.id || who.isAdmin) && FindId(Ids(msg.images, ImageId), imageId.value).Some? ==> r.Ok?)
  {
    if chatId.None? || messageId.None? || imageId.None? {
      return Err(ImageFieldsMissing);
    }
    var c := chatId.value;
    if c >= |store.chats| {
      return Err(ChatNotFound);
    }
    var m := FindId(Ids(store.chats[c].messages, MessageId), messageId.value);
    if m.None? {
      return Err(MessageNotFound);
    }
    var msg := store.chats[c].messages[m.value];
    if msg.sender != who.id && !who.isAdmin {
      return Err(DeleteForbidden);
    }
    var k := FindId(Ids(msg.images, ImageId), imageId.value);
    if k.None? {
      return Err(ImageNotFound);
    }
    WithoutImageKeepsIdsBelow(store.chats, c, m.value, k.value, store.nextId);
    store.chats := WithoutImage(store.chats, c, m.value, k.value);
    r := Ok(msg.images[k.value]);
  }
}
