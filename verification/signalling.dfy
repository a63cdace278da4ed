/** The signalling server (server.js): a registry from room name to the
    entries that joined it, the per-connection `currentRoom` and `userId`,
    and the relaying of `signal` and `broadcast` messages. Sockets are
    abstract ids and a message arrives already parsed; which sockets are
    open is an input to each relay. */
module Signalling {
  import opened JsValues
  import opened Seqs

  /** A connected socket, by identity. */
  type Sock = nat

  /** `{ ws, userId }`: a fresh object per `join`, so one socket may sit in
      a room more than once. A room keeps its entries in insertion order,
      the order `Set.prototype.forEach` visits them. */
  datatype Entry = Entry(sock: Sock, userId: string)

  /** The two variables of a connection's closure. */
  datatype Conn = Conn(room: string, userId: string)

  datatype Server = Server(rooms: map<string, seq<Entry>>, conns: map<Sock, Conn>)

  /** A parsed message; `Other` is any `type` the switch does not handle. */
  datatype Message =
    | Join(room: Option<string>, userId: Option<string>)
    | Signal(targetId: Option<string>, signal: string)
    | Broadcast(data: string)
    | Other

  /** What the server sends to a recipient. */
  datatype Payload = SignalOut(senderId: string, signal: string) | BroadcastOut(senderId: string, data: string)

  datatype Delivery = Delivery(to: Sock, payload: Payload)

  datatype Outcome = Outcome(server: Server, sent: seq<Delivery>)

  const GLOBAL: string := "global"

  const Empty: Server := Server(map[], map[])

  /** Rooms exist only while someone is in them. */
  predicate RoomsNonEmpty(s: Server) {
    forall name :: name in s.rooms ==> s.rooms[name] != []
  }

  /** A new connection starts in room `"global"` under a generated id,
      without joining any room. */
  function Connect(s: Server, sock: Sock, generatedId: string): (r: Server)
    requires sock !in s.conns
    ensures sock in r.conns && r.conns[sock] == Conn(GLOBAL, generatedId)
    ensures forall k :: k in s.conns ==> k in r.conns && r.conns[k] == s.conns[k]
    ensures r.conns.Keys == s.conns.Keys + {sock}
    ensures r.rooms == s.rooms
  {
    Server(s.rooms, s.conns[sock := Conn(GLOBAL, generatedId)])
  }

  /** The entries of a room, or none when the room does not exist. */
  function Members(s: Server, name: string): seq<Entry> {
    if name in s.rooms then s.rooms[name] else []
  }

  /** `join`: switch to `room || 'global'` under `userId || <previous id>`,
      creating the room if needed, and add a new entry to it. Entries in
      any earlier room stay where they are. */
  function JoinRoom(s: Server, sock: Sock, room: Option<string>, userId: Option<string>): (r: Server)
    requires sock in s.conns
    ensures sock in r.conns
    ensures var c := r.conns[sock];
      && c.room == StringOr(room, GLOBAL)
      && c.userId == StringOr(userId, s.conns[sock].userId)
      && r.rooms.Keys == s.rooms.Keys + {c.room}
      && r.rooms[c.room] == Members(s, c.room) + [Entry(sock, c.userId)]
      && (forall name :: name in s.rooms && name != c.room ==> r.rooms[name] == s.rooms[name])
    ensures r.conns.Keys == s.conns.Keys
    ensures forall k :: k in s.conns && k != sock ==> r.conns[k] == s.conns[k]
  {
    var c := Conn(StringOr(room, GLOBAL), StringOr(userId, s.conns[sock].userId));
    Server(s.rooms[c.room := Members(s, c.room) + [Entry(sock, c.userId)]], s.conns[sock := c])
  }

  /** Whether entry `e` of the sender's room is sent `msg` from `sender`. */
  predicate Receives(e: Entry, sender: Conn, msg: Message, open: set<Sock>) {
    && e.sock in open
    && match msg
       case Signal(targetId, _) => targetId == Some(e.userId)
       case Broadcast(_) => e.userId != sender.userId
       case _ => false
  }

  function PayloadOf(sender: Conn, msg: Message): Payload
    requires msg.Signal? || msg.Broadcast?
  {
    if msg.Signal? then SignalOut(sender.userId, msg.signal) else BroadcastOut(sender.userId, msg.data)
  }

  /** The same payload to each entry's socket, in entry order. */
  function Address(es: seq<Entry>, p: Payload): (r: seq<Delivery>)
    ensures |r| == |es|
    ensures forall i :: 0 <= i < |es| ==> r[i] == Delivery(es[i].sock, p)
  {
    seq(|es|, i requires 0 <= i < |es| => Delivery(es[i].sock, p))
  }

  /** `signal` and `broadcast`: walk the sender's current room, if it
      exists, and send to every entry the message is meant for. */
  function Relay(s: Server, sock: Sock, msg: Message, open: set<Sock>): (out: seq<Delivery>)
    requires sock in s.conns && (msg.Signal? || msg.Broadcast?)
    ensures s.conns[sock].room !in s.rooms ==> out == []
    ensures |out| <= |Members(s, s.conns[sock].room)|
    ensures forall i :: 0 <= i < |out| ==> out[i].payload == PayloadOf(s.conns[sock], msg)
  {
    var c := s.conns[sock];
    if c.room in s.rooms then
      Address(Filter(s.rooms[c.room], (e: Entry) => Receives(e, c, msg, open)), PayloadOf(c, msg))
    else []
  }

  /** The `message` handler. */
  function Handle(s: Server, sock: Sock, msg: Message, open: set<Sock>): (o: Outcome)
    requires sock in s.conns
    ensures msg.Join? ==> o.sent == []
    ensures !msg.Join? ==> o.server == s
    ensures msg.Other? ==> o.sent == []
  {
    match msg
    case Join(room, userId) => Outcome(JoinRoom(s, sock, room, userId), [])
    case Signal(_, _) => Outcome(s, Relay(s, sock, msg, open))
    case Broadcast(_) => Outcome(s, Relay(s, sock, msg, open))
    case Other => Outcome(s, [])
  }

  /** The `close` handler: drop every entry of this socket from its current
      room, and the room itself once empty. */
  function Close(s: Server, sock: Sock): (r: Server)
    requires sock in s.conns
    ensures r.conns == s.conns
    ensures var name := s.conns[sock].room;
      && (forall other :: other in s.rooms && other != name ==> other in r.rooms && r.rooms[other] == s.rooms[other])
      && (forall other :: other in r.rooms ==> other in s.rooms)
      && (name in r.rooms ==> forall e :: e in r.rooms[name] <==> e in s.rooms[name] && e.sock != sock)
      && (name in r.rooms <==> name in s.rooms && exists e :: e in s.rooms[name] && e.sock != sock)
  {
    var name := s.conns[sock].room;
    if name !in s.rooms then s
    else
      var rest := Filter(s.rooms[name], (e: Entry) => e.sock != sock);
      FilterMembers(s.rooms[name], (e: Entry) => e.sock != sock);
      if rest == [] then
        assert forall e :: e in s.rooms[name] ==> e.sock == sock;
        Server(s.rooms - {name}, s.conns)
      else
        assert rest[0] in rest;
        Server(s.rooms[name := rest], s.conns)
  }

  /** Everything that can happen to the server. */
  datatype Event =
    | Opened(sock: Sock, generatedId: string)
    | Received(sock: Sock, msg: Message, open: set<Sock>)
    | Closed(sock: Sock)

  predicate Enabled(s: Server, ev: Event) {
    match ev
    case Opened(sock, _) => sock !in s.conns
    case Received(sock, _, _) => sock in s.conns
    case Closed(sock) => sock in s.conns
  }

  function Step(s: Server, ev: Event): (o: Outcome)
    requires Enabled(s, ev)
    ensures ev.Closed? || ev.Opened? ==> o.sent == []
  {
    match ev
    case Opened(sock, id) => Outcome(Connect(s, sock, id), [])
    case Received(sock, msg, open) => Handle(s, sock, msg, open)
    case Closed(sock) => Outcome(Close(s, sock), [])
  }

  /** Every room the registry holds is non-empty, after any event. */
  lemma StepKeepsRoomsNonEmpty(s: Server, ev: Event)
    requires RoomsNonEmpty(s) && Enabled(s, ev)
    ensures RoomsNonEmpty(Step(s, ev).server)
  {
    match ev
    case Opened(_, _) =>
    case Received(sock, msg, open) =>
      if msg.Join? {
        var r := JoinRoom(s, sock, msg.room, msg.userId);
        forall name | name in r.rooms
          ensures r.rooms[name] != []
        {
          if name == r.conns[sock].room {
            assert |r.rooms[name]| > 0;
          }
        }
      }
    case Closed(sock) =>
  }

  /** A `signal` reaches exactly the open entries of the sender's current
      room whose user id is the target, carrying the sender's id and the
      signal unchanged. */
  lemma SignalRouting(s: Server, sock: Sock, targetId: Option<string>, signal: string, open: set<Sock>, to: Sock)
    requires sock in s.conns
    ensures var c := s.conns[sock];
      var out := Handle(s, sock, Signal(targetId, signal), open).sent;
      && (forall d :: d in out ==> d.payload == SignalOut(c.userId, signal))
      && ((exists d :: d in out && d.to == to) <==>
          c.room in s.rooms && to in open && exists e :: e in s.rooms[c.room] && e.sock == to && targetId == Some(e.userId))
  {
    var msg := Signal(targetId, signal);
    RelayReaches(s, sock, msg, open, to);
  }

  /** A `broadcast` reaches exactly the open entries of the sender's current
      room whose user id differs from the sender's. */
  lemma BroadcastRouting(s: Server, sock: Sock, data: string, open: set<Sock>, to: Sock)
    requires sock in s.conns
    ensures var c := s.conns[sock];
      var out := Handle(s, sock, Broadcast(data), open).sent;
      && (forall d :: d in out ==> d.payload == BroadcastOut(c.userId, data))
      && ((exists d :: d in out && d.to == to) <==>
          c.room in s.rooms && to in open && exists e :: e in s.rooms[c.room] && e.sock == to && e.userId != c.userId)
  {
    RelayReaches(s, sock, Broadcast(data), open, to);
  }

  lemma RelayReaches(s: Server, sock: Sock, msg: Message, open: set<Sock>, to: Sock)
    requires sock in s.conns && (msg.Signal? || msg.Broadcast?)
    ensures var c := s.conns[sock];
      var out := Relay(s, sock, msg, open);
      && (forall d :: d in out ==> d.payload == PayloadOf(c, msg))
      && ((exists d :: d in out && d.to == to) <==>
          c.room in s.rooms && exists e :: e in s.rooms[c.room] && e.sock == to && Receives(e, c, msg, open))
  {
    var c := s.conns[sock];
    if c.room in s.rooms {
      var p := (e: Entry) => Receives(e, c, msg, open);
      var kept := Filter(s.rooms[c.room], p);
      AddressReaches(kept, PayloadOf(c, msg), to);
      FilterMembers(s.rooms[c.room], p);
    }
  }

  /** Which sockets an addressed list reaches, and with what. */
  lemma AddressReaches(es: seq<Entry>, p: Payload, to: Sock)
    ensures forall d :: d in Address(es, p) ==> d.payload == p
    ensures (exists d :: d in Address(es, p) && d.to == to) <==> exists e :: e in es && e.sock == to
  {
    var out := Address(es, p);
    forall d | d in out
      ensures d.payload == p
    {
      var i :| 0 <= i < |out| && out[i] == d;
    }
    if exists d :: d in out && d.to == to {
      var d :| d in out && d.to == to;
      var i :| 0 <= i < |out| && out[i] == d;
      assert es[i] in es;
    }
    if exists e :: e in es && e.sock == to {
      var e :| e in es && e.sock == to;
      var i :| 0 <= i < |es| && es[i] == e;
      assert out[i] in out;
    }
  }

  /** A sender whose entries in its room all carry its current id never
      receives its own broadcast. */
  lemma NoSelfBroadcast(s: Server, sock: Sock, data: string, open: set<Sock>)
    requires sock in s.conns
    requires var c := s.conns[sock];
      c.room in s.rooms ==> forall e :: e in s.rooms[c.room] && e.sock == sock ==> e.userId == c.userId
    ensures forall d :: d in Handle(s, sock, Broadcast(data), open).sent ==> d.to != sock
  {
    forall d | d in Handle(s, sock, Broadcast(data), open).sent
      ensures d.to != sock
    {
      BroadcastRouting(s, sock, data, open, d.to);
    }
  }

  /** A socket that joins the same room twice under two user ids keeps both
      entries, and then hears its own broadcasts through the older one. */
  lemma RejoinHearsOwnBroadcast()
    ensures var s0 := Connect(Empty, 1, "GEN");
      var s1 := JoinRoom(s0, 1, Some("alpha"), Some("A"));
      var s2 := JoinRoom(s1, 1, Some("alpha"), Some("B"));
      Handle(s2, 1, Broadcast("hello"), {1}).sent == [Delivery(1, BroadcastOut("B", "hello"))]
  {
    var s0 := Connect(Empty, 1, "GEN");
    var s1 := JoinRoom(s0, 1, Some("alpha"), Some("A"));
    var s2 := JoinRoom(s1, 1, Some("alpha"), Some("B"));
    RejoinKeepsBoth(s0, s1, s2);
    HearsOlderEntry(s2);
  }

  lemma RejoinKeepsBoth(s0: Server, s1: Server, s2: Server)
    requires s0 == Connect(Empty, 1, "GEN")
    requires s1 == JoinRoom(s0, 1, Some("alpha"), Some("A"))
    requires s2 == JoinRoom(s1, 1, Some("alpha"), Some("B"))
    ensures 1 in s2.conns && s2.conns[1] == Conn("alpha", "B")
    ensures "alpha" in s2.rooms && s2.rooms["alpha"] == [Entry(1, "A"), Entry(1, "B")]
  {
    assert Members(s0, "alpha") == [];
    assert Members(s1, "alpha") == [Entry(1, "A")];
  }

  /** With both entries in the room, the older one receives the broadcast. */
  lemma HearsOlderEntry(s: Server)
    requires 1 in s.conns && s.conns[1] == Conn("alpha", "B")
    requires "alpha" in s.rooms && s.rooms["alpha"] == [Entry(1, "A"), Entry(1, "B")]
    ensures Handle(s, 1, Broadcast("hello"), {1}).sent == [Delivery(1, BroadcastOut("B", "hello"))]
  {
    var room := s.rooms["alpha"];
    var c := s.conns[1];
    var p := (e: Entry) => Receives(e, c, Broadcast("hello"), {1});
    assert Filter(room, p) == [Entry(1, "A")] by {
      assert room[1..] == [Entry(1, "B")];
      assert Filter([Entry(1, "B")], p) == [];
    }
    var out := Address([Entry(1, "A")], BroadcastOut("B", "hello"));
    assert out == [Delivery(1, BroadcastOut("B", "hello"))];
  }

  /** `close` only looks at the current room: a socket that joins "alpha",
      then "bravo", then closes leaves its "alpha" entry behind. */
  lemma StaleEntryAfterClose()
    ensures var s0 := Connect(Empty, 7, "GEN");
      var s1 := JoinRoom(s0, 7, Some("alpha"), None);
      var s2 := JoinRoom(s1, 7, Some("bravo"), None);
      var r := Close(s2, 7);
      && r.rooms.Keys == {"alpha"}
      && r.rooms["alpha"] == [Entry(7, "GEN")]
  {
    var s0 := Connect(Empty, 7, "GEN");
    var s1 := JoinRoom(s0, 7, Some("alpha"), None);
    var s2 := JoinRoom(s1, 7, Some("bravo"), None);
    assert s2.rooms["bravo"] == [Entry(7, "GEN")];
    assert Filter(s2.rooms["bravo"], (e: Entry) => e.sock != 7) == [];
  }
}
