/** The Socket.IO relay of the server: connections join rooms named by chat
    id, a `send_message` is broadcast to every connection in the room, and a
    typing notification to every connection in the room except the one that
    sent it. The server keeps no state of its own; the rooms and the events
    each connection has been sent are the state of the socket layer, which
    is what is modelled here. */
module Relay {
  type ConnId = string

  /** The payload of `send_message`; the whole object is relayed unchanged. */
  datatype MessageData = MessageData(chatId: string, body: string)

  /** What a connection is sent. */
  datatype Event =
    | ReceiveMessage(data: MessageData)
    | UserTyping(user: string, isTyping: bool)

  /** The connections in a room; a room nobody joined is empty. */
  function Members(rooms: map<string, set<ConnId>>, room: string): set<ConnId> {
    if room in rooms then rooms[room] else {}
  }

  /** `socket.join(room)`. */
  function Joined(rooms: map<string, set<ConnId>>, room: string, c: ConnId): (r: map<string, set<ConnId>>)
    ensures Members(r, room) == Members(rooms, room) + {c}
    ensures forall other :: other != room ==> Members(r, other) == Members(rooms, other)
  {
    rooms[room := Members(rooms, room) + {c}]
  }

  /** The socket layer's own clean-up on disconnect: the connection leaves
      every room it was in. */
  function LeftAll(rooms: map<string, set<ConnId>>, c: ConnId): (r: map<string, set<ConnId>>)
    ensures forall room :: Members(r, room) == Members(rooms, room) - {c}
  {
    map room | room in rooms :: rooms[room] - {c}
  }

  /** `io.to(room).emit(...)`: every member of the room, the sender included.
      This and `OthersRecipients` are definitions; what they deliver is stated
      by `Deliver`, `Server.SendMessage`, `Server.Typing` and
      `TypingReachesOthers`. */
  function BroadcastRecipients(rooms: map<string, set<ConnId>>, room: string): (r: set<ConnId>)
    ensures forall c :: c in r <==> c in Members(rooms, room)
  {
    Members(rooms, room)
  }

  /** `socket.to(room).emit(...)`: every member of the room but the sender. */
  function OthersRecipients(rooms: map<string, set<ConnId>>, room: string, sender: ConnId): (r: set<ConnId>)
    ensures sender !in r
    ensures forall c :: c in r <==> c in Members(rooms, room) && c != sender
  {
    Members(rooms, room) - {sender}
  }

  /** The event is appended to the queue of each recipient; every other
      queue is left alone. */
  function Deliver(inbox: map<ConnId, seq<Event>>, to: set<ConnId>, e: Event): (r: map<ConnId, seq<Event>>)
    ensures r.Keys == inbox.Keys
    ensures forall c :: c in inbox && c in to ==> r[c] == inbox[c] + [e]
    ensures forall c :: c in inbox && c !in to ==> r[c] == inbox[c]
  {
    map c | c in inbox :: if c in to then inbox[c] + [e] else inbox[c]
  }

  /** A connection receives the events sent to it in the order they were sent. */
  lemma DeliverInOrder(inbox: map<ConnId, seq<Event>>, to1: set<ConnId>, e1: Event, to2: set<ConnId>, e2: Event, c: ConnId)
    requires c in inbox && c in to1 && c in to2
    ensures Deliver(Deliver(inbox, to1, e1), to2, e2)[c] == inbox[c] + [e1, e2]
  {
    assert inbox[c] + [e1] + [e2] == inbox[c] + [e1, e2];
  }

  /** Joining a room a second time changes nothing. */
  lemma JoinIdempotent(rooms: map<string, set<ConnId>>, room: string, c: ConnId)
    ensures Joined(Joined(rooms, room, c), room, c) == Joined(rooms, room, c)
  {
  }

  /** A typing notification reaches exactly the members a message broadcast
      reaches, less the sender. */
  lemma TypingReachesOthers(rooms: map<string, set<ConnId>>, room: string, sender: ConnId)
    ensures OthersRecipients(rooms, room, sender) == BroadcastRecipients(rooms, room) - {sender}
  {
  }

  class Server {
    var connected: set<ConnId>
    var rooms: map<string, set<ConnId>>
    var inbox: map<ConnId, seq<Event>>

    /** Only connected sockets are in rooms, and each has an outgoing queue. */
    ghost predicate Valid()
      reads this
    {
      && inbox.Keys == connected
      && forall room :: room in rooms ==> rooms[room] <= connected
    }

    constructor ()
      ensures Valid()
      ensures connected == {} && rooms == map[] && inbox == map[]
    {
      connected := {};
      rooms := map[];
      inbox := map[];
    }

    /** `io.on('connection')`: a new socket, in no room yet. */
    method Connect(c: ConnId)
      requires Valid() && c !in connected
      modifies this
      ensures Valid()
      ensures connected == old(connected) + {c}
      ensures inbox == old(inbox)[c := []] && rooms == old(rooms)
    {
      connected := connected + {c};
      inbox := inbox[c := []];
    }

    /** `join_chat`. */
    method JoinChat(c: ConnId, chatId: string)
      requires Valid() && c in connected
      modifies this
      ensures Valid()
      ensures rooms == Joined(old(rooms), chatId, c)
      ensures connected == old(connected) && inbox == old(inbox)
    {
      rooms := Joined(rooms, chatId, c);
    }

    /** `send_message`: relayed to the whole room, whether or not the sender
        joined it. */
    method SendMessage(c: ConnId, data: MessageData)
      requires Valid() && c in connected
      modifies this
      ensures Valid()
      ensures inbox == Deliver(old(inbox), BroadcastRecipients(old(rooms), data.chatId), ReceiveMessage(data))
      ensures connected == old(connected) && rooms == old(rooms)
    {
      inbox := Deliver(inbox, BroadcastRecipients(rooms, data.chatId), ReceiveMessage(data));
    }

    /** `typing_start` and `typing_stop`: relayed to the room less the sender. */
    method Typing(c: ConnId, chatId: string, user: string, isTyping: bool)
      requires Valid() && c in connected
      modifies this
      ensures Valid()
      ensures inbox == Deliver(old(inbox), OthersRecipients(old(rooms), chatId, c), UserTyping(user, isTyping))
      ensures c in inbox && inbox[c] == old(inbox)[c]
      ensures connected == old(connected) && rooms == old(rooms)
    {
      inbox := Deliver(inbox, OthersRecipients(rooms, chatId, c), UserTyping(user, isTyping));
    }

    method TypingStart(c: ConnId, chatId: string, user: string)
      requires Valid() && c in connected
      modifies this
      ensures Valid()
      ensures inbox == Deliver(old(inbox), OthersRecipients(old(rooms), chatId, c), UserTyping(user, true))
      ensures connected == old(connected) && rooms == old(rooms)
    {
      Typing(c, chatId, user, true);
    }

    method TypingStop(c: ConnId, chatId: string, user: string)
      requires Valid() && c in connected
      modifies this
      ensures Valid()
      ensures inbox == Deliver(old(inbox), OthersRecipients(old(rooms), chatId, c), UserTyping(user, false))
      ensures connected == old(connected) && rooms == old(rooms)
    {
      Typing(c, chatId, user, false);
    }

    /** `disconnect`: the handler only logs; the socket layer drops the
        connection from its rooms and discards its queue. */
    method Disconnect(c: ConnId)
      requires Valid() && c in connected
      modifies this
      ensures Valid()
      ensures connected == old(connected) - {c}
      ensures rooms == LeftAll(old(rooms), c)
      ensures inbox == old(inbox) - {c}
    {
      connected := connected - {c};
      rooms := LeftAll(rooms, c);
      inbox := inbox - {c};
    }
  }
}
