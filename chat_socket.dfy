/** The chat over socket.io (utils/websocket.js): an authenticated socket joins the rooms of
    its user's chats, and its `sendMessage`, `joinChat` and `leaveChat` events. A failed event
    is answered with an `error` event to the socket alone; its error class names the check that
    failed. */
module ChatSocket {
  import opened Common
  import opened ChatModel

  const MessageFieldsMissing: Error := BadRequest("Chat ID và ít nhất một trong text hoặc images là cần thiết.")
  const ChatNotFound: Error := NotFound("Không tìm thấy cuộc trò chuyện.")
  const NotParticipant: Error := Forbidden("Bạn không phải là thành viên của cuộc trò chuyện này.")
  const JoinIdMissing: Error := BadRequest("Chat ID là cần thiết để tham gia.")
  const LeaveIdMissing: Error := BadRequest("Chat ID là cần thiết để rời khỏi.")

  /** The `newMessage` event sent to every socket in room `room`: the chat id and the message
      object as built, without the ids the store gives it. */
  datatype Broadcast = Broadcast(room: Id, chatId: Id, message: MessageData)

  /** A connected socket: the user its token names and the rooms it has joined. */
  class Socket {
    const user: Id
    var rooms: set<Id>

    constructor (user: Id)
      ensures this.user == user && rooms == {}
    {
      this.user := user;
      rooms := {};
    }
  }

  /** On `connection`: `Chat.find({ participants: user })` and a `join` for each chat found. */
  method OnConnection(socket: Socket, store: ChatStore)
    modifies socket
    ensures socket.rooms == old(socket.rooms) + ChatsOf(store.chats, socket.user)
  {
    var chats := store.chats;
    var i := 0;
    while i < |chats|
      invariant 0 <= i <= |chats|
      invariant socket.rooms == old(socket.rooms) + set c | 0 <= c < i && socket.user in chats[c].participants
    {
      if socket.user in chats[i].participants {
        socket.rooms := socket.rooms + {i};
      }
      i := i + 1;
    }
  }

  /** The rooms a socket holds all belong to chats its user takes part in. */
  ghost predicate MemberOnly(socket: Socket, chats: seq<Chat>)
    reads socket
  {
    socket.rooms <= ChatsOf(chats, socket.user)
  }

  /** The `sendMessage` event (`upload` stands for the image upload service): a missing chat
      id, or no text and no images, is refused; so are an unknown chat and a user who does not
      take part in it, with nothing changed. Otherwise exactly one message is appended to the
      chat, and the broadcast to the chat's room carries that same message. */
  method SendMessage(socket: Socket, store: ChatStore, chatId: Option<Id>, text: Option<string>,
                     images: Option<seq<string>>, upload: seq<string> -> seq<ImageRef>, now: int)
    returns (r: Result<Broadcast>)
    requires store.Valid()
    modifies store
    ensures store.Valid()
    ensures chatId.None? || (!TruthyText(text) && (images.None? || |images.value| == 0)) ==>
      r == Err(MessageFieldsMissing)
    ensures r.Err? ==> store.chats == old(store.chats) && store.nextId == old(store.nextId)
    ensures (chatId.Some? && (TruthyText(text) || (images.Some? && |images.value| > 0))
             && chatId.value >= |old(store.chats)|) ==> r == Err(ChatNotFound)
    ensures (chatId.Some? && (TruthyText(text) || (images.Some? && |images.value| > 0))
             && chatId.value < |old(store.chats)| && socket.user !in old(store.chats)[chatId.value].participants) ==>
      r == Err(NotParticipant)
    ensures (chatId.Some? && (TruthyText(text) || (images.Some? && |images.value| > 0))
             && chatId.value < |old(store.chats)| && socket.user in old(store.chats)[chatId.value].participants) ==>
      r.Ok?
    ensures r.Ok? ==>
      var c := chatId.value;
      var sent := r.value.message;
      && c < |old(store.chats)|
      && r.value.room == c && r.value.chatId == c
      && sent.sender == socket.user && sent.text == TextOr(text) && sent.timestamp == now
      && sent.images == (if images.Some? && |images.value| > 0 then upload(images.value) else [])
      && store.chats == old(store.chats)[c := old(store.chats)[c].(messages := old(store.chats)[c].messages + [Stamp(sent, old(store.nextId))])]
  {
    if chatId.None? || (!TruthyText(text) && (images.None? || |images.value| == 0)) {
      return Err(MessageFieldsMissing);
    }
    var c := chatId.value;
    if c >= |store.chats| {
      return Err(ChatNotFound);
    }
    if socket.user !in store.chats[c].participants {
      return Err(NotParticipant);
    }
    var uploaded: seq<ImageRef> := [];
    if images.Some? && |images.value| > 0 {
      uploaded := upload(images.value);
    }
    var message := MessageData(socket.user, TextOr(text), uploaded, now);
    var stored := AppendMessage(store, c, message);
    r := Ok(Broadcast(c, c, message));
  }

  /** The `joinChat` event: the room is joined only when the chat exists and the user takes
      part in it; otherwise the rooms are unchanged. */
  method JoinChat(socket: Socket, store: ChatStore, chatId: Option<Id>) returns (r: Result<Id>)
    modifies socket
    ensures chatId.None? ==> r == Err(JoinIdMissing)
    ensures chatId.Some? && chatId.value >= |store.chats| ==> r == Err(ChatNotFound)
    ensures (chatId.Some? && chatId.value < |store.chats|
             && socket.user !in store.chats[chatId.value].participants) ==> r == Err(NotParticipant)
    ensures r.Ok? <==> chatId.Some? && chatId.value in ChatsOf(store.chats, socket.user)
    ensures r.Ok? ==> r.value == chatId.value && socket.rooms == old(socket.rooms) + {chatId.value}
    ensures r.Err? ==> socket.rooms == old(socket.rooms)
    ensures old(MemberOnly(socket, store.chats)) ==> MemberOnly(socket, store.chats)
  {
    if chatId.None? {
      return Err(JoinIdMissing);
    }
    var c := chatId.value;
    if c >= |store.chats| {
      return Err(ChatNotFound);
    }
    if socket.user !in store.chats[c].participants {
      return Err(NotParticipant);
    }
    socket.rooms := socket.rooms + {c};
    r := Ok(c);
  }

  /** The `leaveChat` event: requires a chat id and leaves that room, whether or not it was
      joined. */
  method LeaveChat(socket: Socket, chatId: Option<Id>) returns (r: Result<Id>)
    modifies socket
    ensures chatId.None? ==> r == Err(LeaveIdMissing) && socket.rooms == old(socket.rooms)
    ensures chatId.Some? ==> r == Ok(chatId.value) && socket.rooms == old(socket.rooms) - {chatId.value}
  {
    if chatId.None? {
      return Err(LeaveIdMissing);
    }
    socket.rooms := socket.rooms - {chatId.value};
    r := Ok(chatId.value);
  }

  /** A chat collection that only grows, and whose existing chats keep their participants,
      keeps every user's chats: a room a socket may hold stays one it may hold. */
  lemma ChatsOfGrow(before: seq<Chat>, after: seq<Chat>, user: Id)
    requires |before| <= |after|
    requires forall c | 0 <= c < |before| :: after[c].participants == before[c].participants
    ensures ChatsOf(before, user) <= ChatsOf(after, user)
  {
  }
}
