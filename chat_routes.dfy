/** The chat router over the chats collection: listing by participant,
    reading a chat or its history behind a participant check, get-or-create
    by participant pair, and sending a message. The collection is kept in
    insertion order, the order in which `findOne` meets the documents. */
module ChatRoutes {
  import opened Http
  import opened Listing

  const ChatNotFound: string := "Chat not found"
  const NotAuthorized: string := "Not authorized"
  const NeutralSentiment: string := "neutral"

  datatype ChatSender = SentByUser | SentByAi

  datatype ChatMessage = ChatMessage(
    sender: UserId,
    senderType: ChatSender,
    content: string,
    sentiment: string,
    timestamp: Time,
    read: bool)

  datatype Chat = Chat(
    id: string,
    participants: seq<UserId>,
    messages: seq<ChatMessage>,
    createdAt: Time,
    updatedAt: Time)

  function UpdatedAt(c: Chat): int {
    c.updatedAt
  }

  /** The chats that `find({ participants: caller })` matches. */
  function ChatsOf(chats: seq<Chat>, caller: UserId): set<Chat> {
    set i | 0 <= i < |chats| && caller in chats[i].participants :: chats[i]
  }

  /** No two chats share an `_id`. */
  predicate DistinctIds(chats: seq<Chat>) {
    forall i, j :: 0 <= i < j < |chats| ==> chats[i].id != chats[j].id
  }

  /** `findById`: the position of the chat with this id. */
  function IndexOf(chats: seq<Chat>, id: string): (r: Option<nat>)
    ensures r.Some? ==> r.value < |chats| && chats[r.value].id == id
    ensures r.None? ==> forall i :: 0 <= i < |chats| ==> chats[i].id != id
  {
    if |chats| == 0 then None
    else if chats[0].id == id then Some(0)
    else match IndexOf(chats[1..], id)
      case None => None
      case Some(k) => Some(k + 1)
  }

  predicate HasBoth(c: Chat, a: UserId, b: UserId) {
    a in c.participants && b in c.participants
  }

  /** `findOne({ participants: { $all: [a, b] } })`: the first chat that has
      both users among its participants. */
  function FindPair(chats: seq<Chat>, a: UserId, b: UserId): (r: Option<nat>)
    ensures r.Some? ==> r.value < |chats| && HasBoth(chats[r.value], a, b)
    ensures r.Some? ==> forall j :: 0 <= j < r.value ==> !HasBoth(chats[j], a, b)
    ensures r.None? ==> forall j :: 0 <= j < |chats| ==> !HasBoth(chats[j], a, b)
  {
    if |chats| == 0 then None
    else if HasBoth(chats[0], a, b) then Some(0)
    else match FindPair(chats[1..], a, b)
      case None => None
      case Some(k) => Some(k + 1)
  }

  /** The lookup does not depend on the order of the pair. */
  lemma {:induction false} FindPairSymmetric(chats: seq<Chat>, a: UserId, b: UserId)
    ensures FindPair(chats, a, b) == FindPair(chats, b, a)
  {
    if |chats| > 0 {
      FindPairSymmetric(chats[1..], a, b);
    }
  }

  /** Appending a chat does not change an earlier match. */
  lemma {:induction false} FindPairAppend(chats: seq<Chat>, c: Chat, a: UserId, b: UserId)
    ensures FindPair(chats + [c], a, b) ==
      if FindPair(chats, a, b).Some? then FindPair(chats, a, b)
      else if HasBoth(c, a, b) then Some(|chats|)
      else None
  {
    if |chats| > 0 {
      assert (chats + [c])[1..] == chats[1..] + [c];
      FindPairAppend(chats[1..], c, a, b);
    }
  }

  /** The answer to `POST /` and the collection afterwards: an existing chat
      with both users (200), else a new chat `[caller, userId]` appended (201). */
  function GetOrCreateOutcome(chats: seq<Chat>, caller: UserId, userId: UserId, newId: string, now: Time): (out: (Result<Chat>, seq<Chat>))
    ensures FindPair(chats, caller, userId).Some? ==>
      out == (Ok(200, chats[FindPair(chats, caller, userId).value]), chats)
    ensures FindPair(chats, caller, userId).None? && IndexOf(chats, newId).None? ==>
      out == (Ok(201, Chat(newId, [caller, userId], [], now, now)), chats + [Chat(newId, [caller, userId], [], now, now)])
    ensures FindPair(chats, caller, userId).None? && IndexOf(chats, newId).Some? ==>
      out == (Err(ServerError(ServerErrorText)), chats)
    ensures out.0.Ok? ==> HasBoth(out.0.value, caller, userId)
  {
    match FindPair(chats, caller, userId)
    case Some(i) => (Ok(200, chats[i]), chats)
    case None =>
      var c := Chat(newId, [caller, userId], [], now, now);
      if IndexOf(chats, newId).Some? then (Err(ServerError(ServerErrorText)), chats)
      else (Ok(201, c), chats + [c])
  }

  /** A second get-or-create for the same pair, in either order, answers the
      chat the first one answered and creates nothing. */
  lemma GetOrCreateTwice(chats: seq<Chat>, a: UserId, b: UserId, id1: string, id2: string, now1: Time, now2: Time)
    requires GetOrCreateOutcome(chats, a, b, id1, now1).0.Ok?
    ensures var (r1, chats1) := GetOrCreateOutcome(chats, a, b, id1, now1);
      && GetOrCreateOutcome(chats1, a, b, id2, now2) == (Ok(200, r1.value), chats1)
      && GetOrCreateOutcome(chats1, b, a, id2, now2) == (Ok(200, r1.value), chats1)
  {
    var (r1, chats1) := GetOrCreateOutcome(chats, a, b, id1, now1);
    if FindPair(chats, a, b).None? {
      FindPairAppend(chats, r1.value, a, b);
    }
    FindPairSymmetric(chats1, a, b);
  }

  /** The answer to `POST /:id/message` and the collection afterwards. */
  function SendOutcome(chats: seq<Chat>, caller: UserId, id: string, content: string, sentiment: Option<string>, now: Time): (out: (Result<Chat>, seq<Chat>))
    ensures IndexOf(chats, id).None? ==> out == (Err(NotFound(ChatNotFound)), chats)
    ensures IndexOf(chats, id).Some? && caller !in chats[IndexOf(chats, id).value].participants ==>
      out == (Err(Unauthorized(NotAuthorized)), chats)
    ensures out.0.Ok? ==>
      var i := IndexOf(chats, id).value;
      var was, c := chats[i], out.0.value;
      && out.0.code == 201 && caller in was.participants
      && |c.messages| == |was.messages| + 1
      && c.messages[..|was.messages|] == was.messages
      && c.messages[|was.messages|] ==
           ChatMessage(caller, SentByUser, content, if Truthy(sentiment) then sentiment.value else NeutralSentiment, now, false)
      && c.(messages := was.messages) == was
      && out.1 == chats[i := c]
    ensures out.0.Err? ==> out.1 == chats
    ensures IndexOf(chats, id).Some? && caller in chats[IndexOf(chats, id).value].participants ==> out.0.Ok?
  {
    match IndexOf(chats, id)
    case None => (Err(NotFound(ChatNotFound)), chats)
    case Some(i) =>
      if caller !in chats[i].participants then (Err(Unauthorized(NotAuthorized)), chats)
      else
        var m := ChatMessage(caller, SentByUser, content, OrElse(sentiment, NeutralSentiment), now, false);
        var c := chats[i].(messages := chats[i].messages + [m]);
        assert c.messages[..|chats[i].messages|] == chats[i].messages;
        (Ok(201, c), chats[i := c])
  }

  class ChatCollection {
    var chats: seq<Chat>

    ghost predicate Valid()
      reads this
    {
      DistinctIds(chats)
    }

    constructor ()
      ensures Valid() && chats == []
    {
      chats := [];
    }

    /** `GET /`: the caller's chats, most recently updated first. */
    method ListFor(caller: UserId) returns (r: seq<Chat>)
      ensures SortedDesc(r, UpdatedAt)
      ensures ListsExactly(r, ChatsOf(chats, caller))
    {
      r := SortDesc(ChatsOf(chats, caller), UpdatedAt);
    }

    /** `GET /:id`: unknown id, then participant check. */
    method Get(caller: UserId, id: string) returns (r: Result<Chat>)
      ensures IndexOf(chats, id).None? ==> r == Err(NotFound(ChatNotFound))
      ensures IndexOf(chats, id).Some? ==>
        var c := chats[IndexOf(chats, id).value];
        r == if caller in c.participants then Ok(200, c) else Err(Unauthorized(NotAuthorized))
    {
      var i := IndexOf(chats, id);
      if i.None? {
        return Err(NotFound(ChatNotFound));
      }
      var c := chats[i.value];
      if caller !in c.participants {
        return Err(Unauthorized(NotAuthorized));
      }
      r := Ok(200, c);
    }

    /** `GET /:id/history`: the messages in the order they were appended. */
    method History(caller: UserId, id: string) returns (r: Result<seq<ChatMessage>>)
      ensures IndexOf(chats, id).None? ==> r == Err(NotFound(ChatNotFound))
      ensures IndexOf(chats, id).Some? ==>
        var c := chats[IndexOf(chats, id).value];
        r == if caller in c.participants then Ok(200, c.messages) else Err(Unauthorized(NotAuthorized))
    {
      var chat := Get(caller, id);
      r := if chat.Ok? then Ok(200, chat.value.messages) else Err(chat.error);
    }

    /** `POST /`: get or create the chat with `userId`. */
    method GetOrCreate(caller: UserId, userId: UserId, newId: string, now: Time) returns (r: Result<Chat>)
      requires Valid()
      modifies this
      ensures Valid()
      ensures (r, chats) == GetOrCreateOutcome(old(chats), caller, userId, newId, now)
    {
      var found := FindPair(chats, caller, userId);
      if found.Some? {
        return Ok(200, chats[found.value]);
      }
      var c := Chat(newId, [caller, userId], [], now, now);
      if IndexOf(chats, newId).Some? {
        return Err(ServerError(ServerErrorText));
      }
      chats := chats + [c];
      r := Ok(201, c);
    }

    /** `POST /:id/message`. */
    method SendMessage(caller: UserId, id: string, content: string, sentiment: Option<string>, now: Time) returns (r: Result<Chat>)
      requires Valid()
      modifies this
      ensures Valid()
      ensures (r, chats) == SendOutcome(old(chats), caller, id, content, sentiment, now)
    {
      var i := IndexOf(chats, id);
      if i.None? {
        return Err(NotFound(ChatNotFound));
      }
      var c := chats[i.value];
      if caller !in c.participants {
        return Err(Unauthorized(NotAuthorized));
      }
      var m := ChatMessage(caller, SentByUser, content, OrElse(sentiment, NeutralSentiment), now, false);
      c := c.(messages := c.messages + [m]);
      chats := chats[i.value := c];
      r := Ok(201, c);
    }
  }
}
