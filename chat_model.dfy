/** The chat documents (models/chatModel.js) in the shape the chat handlers write them: a
    message carries `text` and an `image` list, and every message and image has its own id.
    Chats are never deleted, so a chat's id is its position in the collection. */
module ChatModel {
  import opened Common

  /** An uploaded image as stored on a message: Cloudinary's public id and url. */
  datatype ImageRef = ImageRef(publicId: string, url: string)

  /** A stored image: its subdocument id and what was uploaded. */
  datatype Image = Image(id: Id, ref: ImageRef)

  /** A message as the handlers build it, before it is stored: sender, `text || ''`, the
      uploaded images and `Date.now()`. */
  datatype MessageData = MessageData(sender: Id, text: string, images: seq<ImageRef>, timestamp: int)

  /** A stored message: its subdocument id, and images with ids of their own. */
  datatype Message = Message(id: Id, sender: Id, text: string, images: seq<Image>, timestamp: int)

  datatype Chat = Chat(participants: seq<Id>, messages: seq<Message>)

  /** `text || ''`. */
  function TextOr(text: Option<string>): (r: string)
    ensures TruthyText(text) ==> r == text.value
    ensures !TruthyText(text) ==> r == ""
  {
    if TruthyText(text) then text.value else ""
  }

  /** The message `push` stores for `data`: the message gets id `id` and its images the ids
      that follow, in order. */
  function Stamp(data: MessageData, id: Id): (m: Message)
    ensures m.id == id && m.sender == data.sender && m.text == data.text && m.timestamp == data.timestamp
    ensures |m.images| == |data.images|
    ensures forall k | 0 <= k < |data.images| :: m.images[k] == Image(id + 1 + k, data.images[k])
  {
    Message(id, data.sender, data.text, seq(|data.images|, k requires 0 <= k < |data.images| => Image(id + 1 + k, data.images[k])), data.timestamp)
  }

  /** `Chat.findOne({ participants: { $all: [a, b] } })`: the first chat that has both users
      among its participants. */
  function FindChat(chats: seq<Chat>, a: Id, b: Id): (r: Option<Id>)
    ensures r.Some? ==> r.value < |chats| && a in chats[r.value].participants && b in chats[r.value].participants
    ensures r.Some? ==> forall j | 0 <= j < r.value :: !(a in chats[j].participants && b in chats[j].participants)
    ensures r.None? <==> forall j | 0 <= j < |chats| :: !(a in chats[j].participants && b in chats[j].participants)
  {
    if chats == [] then None
    else
      var n := |chats| - 1;
      var init := FindChat(chats[..n], a, b);
      if init.Some? then init
      else if a in chats[n].participants && b in chats[n].participants then Some(n)
      else None
  }

  /** The lookup does not depend on the order of the two users. */
  lemma FindChatSymmetric(chats: seq<Chat>, a: Id, b: Id)
    ensures FindChat(chats, a, b) == FindChat(chats, b, a)
  {
  }

  /** After a chat for `a` and `b` is added to a collection that had none, the lookup finds
      it, for either order of the two users. */
  lemma CreatedChatFound(chats: seq<Chat>, a: Id, b: Id)
    requires FindChat(chats, a, b).None?
    ensures FindChat(chats + [Chat([a, b], [])], a, b) == Some(|chats|)
    ensures FindChat(chats + [Chat([a, b], [])], b, a) == Some(|chats|)
  {
    var after := chats + [Chat([a, b], [])];
    assert after[..|chats|] == chats;
    FindChatSymmetric(after, a, b);
  }

  /** The ids of the chats `user` takes part in: `Chat.find({ participants: user })`. */
  function ChatsOf(chats: seq<Chat>, user: Id): (r: set<Id>)
    ensures forall c | c in r :: c < |chats| && user in chats[c].participants
    ensures forall c | 0 <= c < |chats| && user in chats[c].participants :: c in r
  {
    set c | 0 <= c < |chats| && user in chats[c].participants
  }

  function MessageId(m: Message): Id { m.id }
  function ImageId(g: Image): Id { g.id }

  /** The ids of a run of subdocuments (messages, or a message's images), in order. */
  function Ids<T>(xs: seq<T>, id: T -> Id): (r: seq<Id>)
    ensures |r| == |xs| && forall k | 0 <= k < |xs| :: r[k] == id(xs[k])
  {
    seq(|xs|, k requires 0 <= k < |xs| => id(xs[k]))
  }

  /** A subdocument array's `id(x)` (`chat.messages.id(messageId)`, `message.image.id(imageId)`),
      given the array's ids: the position of the first entry with id `id`. */
  function FindId(ids: seq<Id>, id: Id): (r: Option<nat>)
    ensures r.Some? ==> r.value < |ids| && ids[r.value] == id
    ensures r.Some? ==> forall k | 0 <= k < r.value :: ids[k] != id
    ensures r.None? <==> forall k | 0 <= k < |ids| :: ids[k] != id
  {
    if ids == [] then None
    else if ids[0] == id then Some(0)
    else
      var rest := FindId(ids[1..], id);
      if rest.Some? then Some(rest.value + 1) else None
  }

  /** Every message and image id in the chats lies below `bound`. */
  predicate IdsBelow(chats: seq<Chat>, bound: Id) {
    forall c, m | 0 <= c < |chats| && m in chats[c].messages ::
      m.id < bound && forall g | g in m.images :: g.id < bound
  }

  /** The chat collection; `nextId` is the next fresh message or image id. */
  class ChatStore {
    var chats: seq<Chat>
    var nextId: nat

    ghost predicate Valid()
      reads this
    {
      IdsBelow(chats, nextId)
    }

    constructor ()
      ensures Valid() && chats == [] && nextId == 0
    {
      chats := [];
      nextId := 0;
    }
  }

  /** `getOrCreateChat`: returns the first chat both users take part in and creates nothing;
      when there is none, adds the chat `[me, other]` with no messages and returns it. */
  method GetOrCreateChat(store: ChatStore, me: Id, other: Id) returns (id: Id)
    requires store.Valid()
    modifies store
    ensures store.Valid() && store.nextId == old(store.nextId)
    ensures FindChat(old(store.chats), me, other).Some? ==>
      id == FindChat(old(store.chats), me, other).value && store.chats == old(store.chats)
    ensures FindChat(old(store.chats), me, other).None? ==>
      id == |old(store.chats)| && store.chats == old(store.chats) + [Chat([me, other], [])]
    ensures FindChat(store.chats, me, other) == Some(id) && FindChat(store.chats, other, me) == Some(id)
  {
    var found := FindChat(store.chats, me, other);
    FindChatSymmetric(store.chats, me, other);
    if found.Some? {
      return found.value;
    }
    CreatedChatFound(store.chats, me, other);
    id := |store.chats|;
    store.chats := store.chats + [Chat([me, other], [])];
  }

  /** `chat.messages.push(message); chat.save()`: appends the stamped message to chat `c`,
      drawing fresh ids for it and its images. */
  method AppendMessage(store: ChatStore, c: Id, data: MessageData) returns (m: Message)
    requires store.Valid() && c < |store.chats|
    modifies store
    ensures store.Valid()
    ensures m == Stamp(data, old(store.nextId))
    ensures store.nextId == old(store.nextId) + 1 + |data.images|
    ensures store.chats == old(store.chats)[c := old(store.chats)[c].(messages := old(store.chats)[c].messages + [m])]
  {
    m := Stamp(data, store.nextId);
    var chat := store.chats[c];
    store.chats := store.chats[c := chat.(messages := chat.messages + [m])];
    store.nextId := store.nextId + 1 + |data.images|;
  }
}
