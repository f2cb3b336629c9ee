/**
 The in-memory room relay of server.js.

 The process keeps a map `rooms` from room name to a room record holding the
 set of connected clients and the set of e-mails currently typing; every
 connection carries a recorded `room` and `userEmail`. Node runs each event
 handler to completion, so each inbound event is one atomic step.

 The step functions (JoinStep, MessageStep, TypingStep, CloseStep, FrameStep)
 state what each handler does to the state and which frames it sends; the
 class Server at the end performs the same steps imperatively, as the
 handlers do, and is proved to agree with them.

 JavaScript's `null`, `undefined` and the empty string are all falsy and all
 stand for "not set" in the handlers; the model writes them all as "".
 */
module RoomRelay {
  import opened JsRuntime

  /** The identity of a WebSocket connection object. */
  type ConnId = nat

  /** A chat message payload: relayed as it arrived, never inspected. */
  type Payload = string

  /** The `readyState` of a WebSocket as far as the relay looks at it. */
  datatype ReadyState = Open | Closing | Closed

  /** The per-connection fields `ws.room` and `ws.userEmail`, and its state. */
  datatype Connection = Connection(room: string, email: string, state: ReadyState)

  /** A room record: `clients` and `typingUsers`, both JavaScript `Set`s,
      kept in insertion order, which `Array.from` exposes. */
  datatype Room = Room(clients: seq<ConnId>, typing: seq<string>)

  datatype JoinPayload = JoinPayload(room: string, email: string)

  /** An inbound frame after `JSON.parse`. `Malformed` is a frame that does
      not parse (or parses to a value without a `type`); `Join(None)` is a
      join without a payload object, whose destructuring throws. */
  datatype Frame =
    | Malformed
    | Join(joining: Option<JoinPayload>)
    | Message(content: Payload)
    | StartTyping
    | StopTyping
    | Unknown(kind: string)

  /** The outbound frames: `user-list-update`, `typing-update`, `message`. */
  datatype OutMsg =
    | UserListUpdate(users: seq<string>)
    | TypingUpdate(typingUsers: seq<string>)
    | Chat(payload: Payload)

  /** One `client.send` call: the receiving connection and the frame. */
  type Send = (ConnId, OutMsg)

  datatype State = State(rooms: map<string, Room>, conns: map<ConnId, Connection>)

  /** The state after an event and the sends it made, in order. */
  datatype Outcome = Outcome(state: State, sent: seq<Send>)

  predicate Distinct<T(==)>(s: seq<T>) {
    forall i, j :: 0 <= i < j < |s| ==> s[i] != s[j]
  }

  // ---------------------------------------------------------------------
  // Insertion-ordered sets

  /** `Set.prototype.add`: an element already present keeps its place. */
  function Added<T(==,!new)>(s: seq<T>, x: T): (r: seq<T>)
    ensures forall y :: y in r <==> y in s || y == x
    ensures Distinct(s) ==> Distinct(r)
    ensures |s| <= |r| && r[..|s|] == s
    ensures x !in s ==> r[|s|..] == [x]
  {
    if x in s then s else s + [x]
  }

  /** `Set.prototype.delete`. */
  function Deleted<T(==,!new)>(s: seq<T>, x: T): (r: seq<T>)
    ensures forall y :: y in r <==> y in s && y != x
    ensures |r| <= |s|
    ensures Distinct(s) ==> Distinct(r)
    ensures x !in s ==> r == s
  {
    if s == [] then []
    else if s[0] == x then Deleted(s[1..], x)
    else
      var rest := Deleted(s[1..], x);
      assert Distinct(s) ==> s[0] !in s[1..] && Distinct(s[1..]);
      [s[0]] + rest
  }

  /** Deleting the element at index i of a duplicate-free sequence closes the
      gap and keeps the order of everything else. */
  lemma {:induction false} DeletedAt<T(!new)>(s: seq<T>, i: nat)
    requires Distinct(s) && i < |s|
    ensures Deleted(s, s[i]) == s[..i] + s[i + 1..]
  {
    if i > 0 {
      DeletedAt(s[1..], i - 1);
      assert s[1..][..i - 1] + s[1..][i..] == s[1..i] + s[i + 1..];
      assert s[..i] == [s[0]] + s[1..i];
    }
  }

  // ---------------------------------------------------------------------
  // Broadcasts

  /** Every client of every room is a known connection. */
  ghost predicate WellFormed(s: State) {
    forall r, c :: r in s.rooms && c in s.rooms[r].clients ==> c in s.conns
  }

  /** Every client in the list is a known connection. */
  predicate Known(clients: seq<ConnId>, conns: map<ConnId, Connection>) {
    forall c :: c in clients ==> c in conns
  }

  /** `room.clients.forEach(...)` sending `msg` to each client whose
      `readyState` is OPEN, in member order. */
  function Fanout(clients: seq<ConnId>, conns: map<ConnId, Connection>, msg: OutMsg): (r: seq<Send>)
    requires Known(clients, conns)
    ensures |r| <= |clients|
  {
    if clients == [] then []
    else
      var last := clients[|clients| - 1];
      var init := clients[..|clients| - 1];
      assert forall c :: c in init ==> c in clients;
      Fanout(init, conns, msg) + (if conns[last].state == Open then [(last, msg)] else [])
  }

  /** A broadcast sends `msg` only to OPEN clients of the list, and to every
      one of them. */
  lemma {:induction false} FanoutSends(clients: seq<ConnId>, conns: map<ConnId, Connection>, msg: OutMsg)
    requires Known(clients, conns)
    ensures var r := Fanout(clients, conns, msg);
      && (forall k :: 0 <= k < |r| ==> r[k].1 == msg && r[k].0 in clients && conns[r[k].0].state == Open)
      && (forall c :: c in clients && conns[c].state == Open ==> (c, msg) in r)
  {
    if clients != [] {
      var last := clients[|clients| - 1];
      var init := clients[..|clients| - 1];
      assert forall c :: c in init ==> c in clients;
      assert forall c :: c in clients ==> c in init || c == last;
      FanoutSends(init, conns, msg);
    }
  }

  /** A client listed once is sent to at most once. */
  lemma {:induction false} FanoutDistinct(clients: seq<ConnId>, conns: map<ConnId, Connection>, msg: OutMsg)
    requires Known(clients, conns) && Distinct(clients)
    ensures Distinct(Fanout(clients, conns, msg))
  {
    if clients != [] {
      var last := clients[|clients| - 1];
      var init := clients[..|clients| - 1];
      assert forall c :: c in init ==> c in clients;
      assert Distinct(init);
      assert last !in init;
      FanoutDistinct(init, conns, msg);
      FanoutSends(init, conns, msg);
    }
  }

  /** One more pass of the `forEach`: the send to client i, if it is OPEN,
      follows the sends to the clients before it. */
  lemma FanoutSnoc(clients: seq<ConnId>, conns: map<ConnId, Connection>, msg: OutMsg, i: nat)
    requires Known(clients, conns) && i < |clients|
    ensures Known(clients[..i + 1], conns)
    ensures Fanout(clients[..i + 1], conns, msg) ==
      Fanout(clients[..i], conns, msg) + (if conns[clients[i]].state == Open then [(clients[i], msg)] else [])
  {
    assert clients[..i + 1][..i] == clients[..i];
  }

  /** `Array.from(room.clients).map(client => client.userEmail)`. */
  function Users(clients: seq<ConnId>, conns: map<ConnId, Connection>): seq<string>
    requires Known(clients, conns)
  {
    seq(|clients|, i requires 0 <= i < |clients| => conns[clients[i]].email)
  }

  /** `broadcastToRoom(roomName, msg)`: nothing when the room is missing. */
  function RoomBroadcast(s: State, roomName: string, msg: OutMsg): seq<Send>
    requires WellFormed(s)
  {
    if roomName in s.rooms then Fanout(s.rooms[roomName].clients, s.conns, msg) else []
  }

  /** A broadcast to a missing room sends nothing; otherwise exactly the
      OPEN clients of the room receive `msg`. */
  lemma RoomBroadcastSends(s: State, roomName: string, msg: OutMsg)
    requires WellFormed(s)
    ensures var r := RoomBroadcast(s, roomName, msg);
      && (roomName !in s.rooms ==> r == [])
      && (forall k :: 0 <= k < |r| ==>
            r[k].1 == msg && roomName in s.rooms && r[k].0 in s.rooms[roomName].clients && s.conns[r[k].0].state == Open)
      && (roomName in s.rooms ==>
            forall c :: c in s.rooms[roomName].clients && s.conns[c].state == Open ==> (c, msg) in r)
  {
    if roomName in s.rooms {
      assert RoomBroadcast(s, roomName, msg) == Fanout(s.rooms[roomName].clients, s.conns, msg);
      FanoutSends(s.rooms[roomName].clients, s.conns, msg);
    }
  }

  /** `broadcastUserList(roomName)`. */
  function UserListBroadcast(s: State, roomName: string): seq<Send>
    requires WellFormed(s)
  {
    if roomName in s.rooms
    then RoomBroadcast(s, roomName, UserListUpdate(Users(s.rooms[roomName].clients, s.conns)))
    else []
  }

  // ---------------------------------------------------------------------
  // The handlers as steps

  /** Connection c is one of the clients of room r. */
  ghost predicate Member(s: State, r: string, c: ConnId) {
    r in s.rooms && c in s.rooms[r].clients
  }

  /** The first half of a join (server.js:42-45): when the recorded room is
      set and present, the connection is deleted from its clients. The
      room's typing set is untouched and the room stays, even if empty. */
  function Leave(s: State, id: ConnId): (r: State)
    requires WellFormed(s) && id in s.conns
    ensures WellFormed(r) && r.conns == s.conns && r.rooms.Keys == s.rooms.Keys
    ensures forall q :: q in s.rooms ==> r.rooms[q].typing == s.rooms[q].typing
    ensures forall q :: q in s.rooms && q != s.conns[id].room ==> r.rooms[q] == s.rooms[q]
    ensures forall q :: q in s.rooms && Distinct(s.rooms[q].clients) ==> Distinct(r.rooms[q].clients)
  {
    var prev := s.conns[id].room;
    if prev != "" && prev in s.rooms
    then s.(rooms := s.rooms[prev := s.rooms[prev].(clients := Deleted(s.rooms[prev].clients, id))])
    else s
  }

  /** Leaving takes the connection out of its recorded room and changes no
      other membership. */
  lemma LeaveMembers(s: State, id: ConnId)
    requires WellFormed(s) && id in s.conns
    ensures var r := Leave(s, id);
      forall q, c :: Member(r, q, c) <==> Member(s, q, c) && !(c == id && q == s.conns[id].room != "")
  {
  }

  /** The `user-list-update` a join sends to the room it leaves: the open
      clients left in it, never the joiner, get the e-mails of the clients
      left in it. */
  function LeaveBroadcast(s: State, id: ConnId): seq<Send>
    requires WellFormed(s) && id in s.conns
  {
    var prev := s.conns[id].room;
    if prev != "" && prev in s.rooms then UserListBroadcast(Leave(s, id), prev) else []
  }

  /** The list a join sends to the room it leaves goes to the OPEN clients
      left in it, never the joiner, and to every one of them, and names the
      clients left. */
  lemma LeaveBroadcastSends(s: State, id: ConnId)
    requires WellFormed(s) && id in s.conns
    ensures var r := LeaveBroadcast(s, id);
      && (s.conns[id].room == "" || s.conns[id].room !in s.rooms ==> r == [])
      && (forall k :: 0 <= k < |r| ==>
            var prev := s.conns[id].room;
            && prev in s.rooms
            && r[k].0 != id && r[k].0 in s.rooms[prev].clients && s.conns[r[k].0].state == Open
            && r[k].1 == UserListUpdate(Users(Deleted(s.rooms[prev].clients, id), s.conns)))
      && (var prev := s.conns[id].room;
          prev != "" && prev in s.rooms ==>
            var left := Deleted(s.rooms[prev].clients, id);
            forall c :: c in left && s.conns[c].state == Open ==> (c, UserListUpdate(Users(left, s.conns))) in r)
  {
    LeaveBroadcastTargets(s, id);
    LeaveBroadcastReach(s, id);
  }

  /** Who may receive the list sent to the room left. */
  lemma LeaveBroadcastTargets(s: State, id: ConnId)
    requires WellFormed(s) && id in s.conns
    ensures var r := LeaveBroadcast(s, id);
      && (s.conns[id].room == "" || s.conns[id].room !in s.rooms ==> r == [])
      && (forall k :: 0 <= k < |r| ==>
            var prev := s.conns[id].room;
            && prev in s.rooms
            && r[k].0 != id && r[k].0 in s.rooms[prev].clients && s.conns[r[k].0].state == Open
            && r[k].1 == UserListUpdate(Users(Deleted(s.rooms[prev].clients, id), s.conns)))
  {
    var prev := s.conns[id].room;
    if prev != "" && prev in s.rooms {
      var s1 := Leave(s, id);
      RoomBroadcastSends(s1, prev, UserListUpdate(Users(s1.rooms[prev].clients, s1.conns)));
    }
  }

  /** Every OPEN client left in the room receives the list. */
  lemma LeaveBroadcastReach(s: State, id: ConnId)
    requires WellFormed(s) && id in s.conns
    ensures var prev := s.conns[id].room;
      prev != "" && prev in s.rooms ==>
        var left := Deleted(s.rooms[prev].clients, id);
        forall c :: c in left && s.conns[c].state == Open ==> (c, UserListUpdate(Users(left, s.conns))) in LeaveBroadcast(s, id)
  {
    var prev := s.conns[id].room;
    if prev != "" && prev in s.rooms {
      var s1 := Leave(s, id);
      RoomBroadcastSends(s1, prev, UserListUpdate(Users(s1.rooms[prev].clients, s1.conns)));
    }
  }

  /** The second half of a join (server.js:47-52): the target room is
      created empty if absent, the connection is added to its clients, and
      the payload's room and e-mail are recorded on the connection. */
  function Enter(s: State, id: ConnId, p: JoinPayload): (r: State)
    requires WellFormed(s) && id in s.conns
    ensures WellFormed(r)
    ensures r.conns == s.conns[id := s.conns[id].(room := p.room, email := p.email)]
    ensures r.rooms.Keys == s.rooms.Keys + {p.room}
    ensures forall q :: q in s.rooms && q != p.room ==> r.rooms[q] == s.rooms[q]
    ensures r.rooms[p.room].typing == if p.room in s.rooms then s.rooms[p.room].typing else []
    ensures var before := if p.room in s.rooms then s.rooms[p.room].clients else [];
      r.rooms[p.room].clients == Added(before, id)
  {
    var target := if p.room in s.rooms then s.rooms[p.room] else Room([], []);
    State(s.rooms[p.room := target.(clients := Added(target.clients, id))],
          s.conns[id := s.conns[id].(room := p.room, email := p.email)])
  }

  /** Entering adds exactly the connection to the target room. */
  lemma EnterMembers(s: State, id: ConnId, p: JoinPayload)
    requires WellFormed(s) && id in s.conns
    ensures var r := Enter(s, id, p);
      forall q, c :: Member(r, q, c) <==> Member(s, q, c) || (q == p.room && c == id)
  {
    var r := Enter(s, id, p);
    var before := if p.room in s.rooms then s.rooms[p.room].clients else [];
    forall q, c ensures Member(r, q, c) <==> Member(s, q, c) || (q == p.room && c == id) {
      if q == p.room {
        assert r.rooms[q].clients == Added(before, id);
      } else if q in s.rooms {
        assert r.rooms[q] == s.rooms[q];
      }
    }
  }

  /** `case 'join'` (server.js:40-56). */
  function JoinStep(s: State, id: ConnId, p: JoinPayload): Outcome
    requires WellFormed(s) && id in s.conns
  {
    var s2 := Enter(Leave(s, id), id, p);
    Outcome(s2, LeaveBroadcast(s, id) + UserListBroadcast(s2, p.room))
  }

  /** `case 'message'` (server.js:57-62). */
  function MessageStep(s: State, id: ConnId, payload: Payload): Outcome
    requires WellFormed(s) && id in s.conns
  {
    var room := s.conns[id].room;
    if room != "" then Outcome(s, RoomBroadcast(s, room, Chat(payload))) else Outcome(s, [])
  }

  /** `case 'start-typing'` (start) and `case 'stop-typing'` (!start)
      (server.js:63-78). A recorded room missing from `rooms` makes
      `room.typingUsers` throw; the exception is caught and nothing changes. */
  function TypingStep(s: State, id: ConnId, start: bool): Outcome
    requires WellFormed(s) && id in s.conns
  {
    var c := s.conns[id];
    if c.room != "" && c.email != "" && c.room in s.rooms then
      var room := s.rooms[c.room];
      var typing := if start then Added(room.typing, c.email) else Deleted(room.typing, c.email);
      var s1 := s.(rooms := s.rooms[c.room := room.(typing := typing)]);
      Outcome(s1, RoomBroadcast(s1, c.room, TypingUpdate(typing)))
    else Outcome(s, [])
  }

  /** The `message` event: parse, then dispatch on `type`. A frame that does
      not parse, a join whose payload cannot be destructured and an unknown
      type change nothing. */
  function FrameStep(s: State, id: ConnId, f: Frame): Outcome
    requires WellFormed(s) && id in s.conns
  {
    match f
    case Join(Some(p)) => JoinStep(s, id, p)
    case Message(payload) => MessageStep(s, id, payload)
    case StartTyping => TypingStep(s, id, true)
    case StopTyping => TypingStep(s, id, false)
    case _ => Outcome(s, [])
  }

  /** The state change of the `close` event (server.js:85-93): the socket is
      CLOSED; when its recorded room is set and present, it is deleted from
      the room's clients and its e-mail from the typing set, and a room left
      without clients is deleted. */
  function Depart(s: State, id: ConnId): (r: State)
    requires WellFormed(s) && id in s.conns
    ensures WellFormed(r)
    ensures r.conns == s.conns[id := s.conns[id].(state := Closed)]
    ensures forall q :: q in s.rooms && q != s.conns[id].room ==> q in r.rooms && r.rooms[q] == s.rooms[q]
    ensures r.rooms.Keys <= s.rooms.Keys
  {
    var c := s.conns[id];
    var conns := s.conns[id := c.(state := Closed)];
    if c.room != "" && c.room in s.rooms then
      var room := s.rooms[c.room];
      var left := Room(Deleted(room.clients, id), Deleted(room.typing, c.email));
      if |left.clients| == 0 then State(s.rooms - {c.room}, conns)
      else State(s.rooms[c.room := left], conns)
    else State(s.rooms, conns)
  }

  /** Closing takes the connection out of its recorded room and changes no
      other membership. */
  lemma DepartMembers(s: State, id: ConnId)
    requires WellFormed(s) && id in s.conns
    ensures var r := Depart(s, id);
      forall q, c :: Member(r, q, c) <==> Member(s, q, c) && !(c == id && q == s.conns[id].room != "")
  {
  }

  /** The `close` event (server.js:85-99): when the room survives, its open
      clients get the member list and then the typing list. */
  function CloseStep(s: State, id: ConnId): Outcome
    requires WellFormed(s) && id in s.conns
  {
    var r := Depart(s, id);
    var room := s.conns[id].room;
    if room != "" && room in r.rooms
    then Outcome(r, UserListBroadcast(r, room) + RoomBroadcast(r, room, TypingUpdate(r.rooms[room].typing)))
    else Outcome(r, [])
  }

  // ---------------------------------------------------------------------
  // The invariant

  /** What every reachable state satisfies. Rooms named "" are exempt from
      the membership rules: joining "" adds the connection to `rooms[""]`,
      but the recorded room "" is falsy, so no handler ever takes it out. */
  ghost predicate Inv(s: State) {
    && WellFormed(s)
    && (forall r :: r in s.rooms ==> Distinct(s.rooms[r].clients) && Distinct(s.rooms[r].typing))
    // a live connection with a recorded room is a client of that room
    && (forall c :: c in s.conns && s.conns[c].state != Closed && s.conns[c].room != "" ==>
          Member(s, s.conns[c].room, c))
    // a client of a named room is live and has that room recorded
    && (forall r, c :: Member(s, r, c) && r != "" ==>
          c in s.conns && s.conns[c].room == r && s.conns[c].state != Closed)
  }

  /** A connection is a client of at most one named room, the one it has
      recorded. */
  lemma OneRoomAtATime(s: State, c: ConnId, r1: string, r2: string)
    requires Inv(s)
    requires r1 != "" && Member(s, r1, c)
    requires r2 != "" && Member(s, r2, c)
    ensures r1 == r2 && s.conns[c].room == r1
  {
  }

  lemma JoinPreservesInv(s: State, id: ConnId, p: JoinPayload)
    requires Inv(s) && id in s.conns && s.conns[id].state != Closed
    ensures Inv(JoinStep(s, id, p).state)
  {
    var s1 := Leave(s, id);
    var s2 := Enter(s1, id, p);
    JoinDistinct(s, id, p);
    JoinRecorded(s, id, p);
    JoinMembers(s, id, p);
    assert Inv(s2);
  }

  lemma JoinDistinct(s: State, id: ConnId, p: JoinPayload)
    requires Inv(s) && id in s.conns
    ensures var s2 := Enter(Leave(s, id), id, p);
      forall q :: q in s2.rooms ==> Distinct(s2.rooms[q].clients) && Distinct(s2.rooms[q].typing)
  {
    var s1 := Leave(s, id);
    var s2 := Enter(s1, id, p);
    forall q | q in s2.rooms
      ensures Distinct(s2.rooms[q].clients) && Distinct(s2.rooms[q].typing)
    {
      if q != p.room {
        assert s2.rooms[q] == s1.rooms[q];
      }
    }
  }

  lemma JoinRecorded(s: State, id: ConnId, p: JoinPayload)
    requires Inv(s) && id in s.conns && s.conns[id].state != Closed
    ensures var s2 := Enter(Leave(s, id), id, p);
      forall c :: c in s2.conns && s2.conns[c].state != Closed && s2.conns[c].room != "" ==>
        Member(s2, s2.conns[c].room, c)
  {
    var s1 := Leave(s, id);
    var s2 := Enter(s1, id, p);
    LeaveMembers(s, id);
    EnterMembers(s1, id, p);
    forall c | c in s2.conns && s2.conns[c].state != Closed && s2.conns[c].room != ""
      ensures Member(s2, s2.conns[c].room, c)
    {
      if c != id {
        assert Member(s, s.conns[c].room, c);
        assert Member(s1, s.conns[c].room, c);
      }
    }
  }

  lemma JoinMembers(s: State, id: ConnId, p: JoinPayload)
    requires Inv(s) && id in s.conns && s.conns[id].state != Closed
    ensures var s2 := Enter(Leave(s, id), id, p);
      forall q, c :: Member(s2, q, c) && q != "" ==>
        c in s2.conns && s2.conns[c].room == q && s2.conns[c].state != Closed
  {
    var s1 := Leave(s, id);
    var s2 := Enter(s1, id, p);
    LeaveMembers(s, id);
    EnterMembers(s1, id, p);
    forall q, c | Member(s2, q, c) && q != ""
      ensures c in s2.conns && s2.conns[c].room == q && s2.conns[c].state != Closed
    {
      if !(q == p.room && c == id) {
        assert Member(s1, q, c);
        assert Member(s, q, c);
      }
    }
  }

  lemma TypingPreservesInv(s: State, id: ConnId, start: bool)
    requires Inv(s) && id in s.conns
    ensures Inv(TypingStep(s, id, start).state)
  {
    var s1 := TypingStep(s, id, start).state;
    assert forall q, c :: Member(s1, q, c) <==> Member(s, q, c);
  }

  lemma ClosePreservesInv(s: State, id: ConnId)
    requires Inv(s) && id in s.conns && s.conns[id].state != Closed
    ensures Inv(CloseStep(s, id).state)
  {
    var s2 := Depart(s, id);
    assert CloseStep(s, id).state == s2;
    DepartMembers(s, id);
    var c := s.conns[id];
    forall q | q in s2.rooms
      ensures Distinct(s2.rooms[q].clients) && Distinct(s2.rooms[q].typing)
    {
    }
    forall d | d in s2.conns && s2.conns[d].state != Closed && s2.conns[d].room != ""
      ensures Member(s2, s2.conns[d].room, d)
    {
      assert d != id;
      assert Member(s, s.conns[d].room, d);
    }
    forall q, d | Member(s2, q, d) && q != ""
      ensures d in s2.conns && s2.conns[d].room == q && s2.conns[d].state != Closed
    {
      assert Member(s, q, d);
    }
  }

  /** Every inbound frame keeps the invariant. */
  lemma FramePreservesInv(s: State, id: ConnId, f: Frame)
    requires Inv(s) && id in s.conns && s.conns[id].state != Closed
    ensures Inv(FrameStep(s, id, f).state)
  {
    match f
    case Join(Some(p)) => JoinPreservesInv(s, id, p);
    case StartTyping => TypingPreservesInv(s, id, true);
    case StopTyping => TypingPreservesInv(s, id, false);
    case _ =>
  }

  // ---------------------------------------------------------------------
  // What each handler does

  /** An unparseable frame, a join without a payload and an unknown type
      change nothing and send nothing (server.js:35-41, 79-82). */
  lemma IgnoredFrames(s: State, id: ConnId, kind: string)
    requires WellFormed(s) && id in s.conns
    ensures FrameStep(s, id, Malformed) == Outcome(s, [])
    ensures FrameStep(s, id, Join(None)) == Outcome(s, [])
    ensures FrameStep(s, id, Unknown(kind)) == Outcome(s, [])
  {
  }

  /** After a join the joiner is the last client of the target room, its
      recorded room and e-mail are the payload's, no other connection
      changes, and it is a client of no other named room (server.js:42-52). */
  lemma JoinMembership(s: State, id: ConnId, p: JoinPayload)
    requires Inv(s) && id in s.conns && s.conns[id].state != Closed && p.room != ""
    ensures var s2 := JoinStep(s, id, p).state;
      && p.room in s2.rooms
      && |s2.rooms[p.room].clients| > 0
      && s2.rooms[p.room].clients[|s2.rooms[p.room].clients| - 1] == id
      && s2.conns == s.conns[id := s.conns[id].(room := p.room, email := p.email)]
      && (forall r :: r != "" && r != p.room ==> !Member(s2, r, id))
  {
    var s1 := Leave(s, id);
    LeaveClears(s, id);
    EnterAppends(s1, id, p);
    EnterMembers(s1, id, p);
    assert JoinStep(s, id, p).state == Enter(s1, id, p);
  }

  /** After the first half of a join the connection is a client of no
      named room. */
  lemma LeaveClears(s: State, id: ConnId)
    requires Inv(s) && id in s.conns
    ensures forall r :: r != "" ==> !Member(Leave(s, id), r, id)
  {
    LeaveMembers(s, id);
    forall r | r != "" ensures !Member(Leave(s, id), r, id) {
      if Member(s, r, id) {
        assert s.conns[id].room == r;
      }
    }
  }

  /** A connection not yet in the target room is appended at its end. */
  lemma EnterAppends(s: State, id: ConnId, p: JoinPayload)
    requires WellFormed(s) && id in s.conns && !Member(s, p.room, id)
    ensures var before := if p.room in s.rooms then s.rooms[p.room].clients else [];
      Enter(s, id, p).rooms[p.room].clients == before + [id]
  {
  }

  /** The list a join sends to its target room: every open client of the
      room, joiner included, gets the e-mails of all its clients in member
      order, the joiner's last when the room is named; it comes after the
      list sent to the room left (server.js:47-54, 21-27). */
  lemma JoinSends(s: State, id: ConnId, p: JoinPayload)
    requires Inv(s) && id in s.conns && s.conns[id].state != Closed
    ensures var o := JoinStep(s, id, p);
      var n1 := |LeaveBroadcast(s, id)|;
      var clients := o.state.rooms[p.room].clients;
      var users := Users(clients, o.state.conns);
      && n1 <= |o.sent| && o.sent[..n1] == LeaveBroadcast(s, id)
      && (forall k :: n1 <= k < |o.sent| ==> o.sent[k].1 == UserListUpdate(users) && o.sent[k].0 in clients)
      && (forall c :: c in clients && o.state.conns[c].state == Open ==> (c, UserListUpdate(users)) in o.sent[n1..])
      && (s.conns[id].state == Open ==> (id, UserListUpdate(users)) in o.sent[n1..])
      && |users| == |clients|
      && (p.room != "" ==> users[|users| - 1] == p.email)
  {
    JoinDelivery(s, id, p);
    if p.room != "" {
      JoinMembership(s, id, p);
    }
  }

  /** The delivery half of JoinSends, which holds in every well-formed state. */
  lemma JoinDelivery(s: State, id: ConnId, p: JoinPayload)
    requires WellFormed(s) && id in s.conns
    ensures var o := JoinStep(s, id, p);
      var n1 := |LeaveBroadcast(s, id)|;
      var clients := o.state.rooms[p.room].clients;
      var users := Users(clients, o.state.conns);
      && n1 <= |o.sent| && o.sent[..n1] == LeaveBroadcast(s, id)
      && (forall k :: n1 <= k < |o.sent| ==> o.sent[k].1 == UserListUpdate(users) && o.sent[k].0 in clients)
      && (forall c :: c in clients && o.state.conns[c].state == Open ==> (c, UserListUpdate(users)) in o.sent[n1..])
      && (s.conns[id].state == Open ==> (id, UserListUpdate(users)) in o.sent[n1..])
      && |users| == |clients|
  {
    var o := JoinStep(s, id, p);
    var n1 := |LeaveBroadcast(s, id)|;
    assert o.sent[n1..] == UserListBroadcast(o.state, p.room);
    RoomBroadcastSends(o.state, p.room, UserListUpdate(Users(o.state.rooms[p.room].clients, o.state.conns)));
  }

  /** Leaving a room by joining another neither clears its typing set nor
      deletes it, even when no client is left (server.js:42-45). */
  lemma JoinKeepsOldRoom(s: State, id: ConnId, p: JoinPayload)
    requires Inv(s) && id in s.conns
    requires s.conns[id].room != "" && s.conns[id].room != p.room && s.conns[id].room in s.rooms
    ensures var prev := s.conns[id].room;
      var s2 := JoinStep(s, id, p).state;
      && prev in s2.rooms
      && s2.rooms[prev].typing == s.rooms[prev].typing
      && s2.rooms[prev].clients == Deleted(s.rooms[prev].clients, id)
  {
  }

  /** Joining the room one is in moves one to the end of its member order
      and leaves its typing set as it was; the intermediate list goes only
      to the others (server.js:42-50). */
  lemma RejoinMovesToEnd(s: State, id: ConnId, p: JoinPayload)
    requires WellFormed(s) && id in s.conns && s.conns[id].room == p.room != ""
    requires Member(s, p.room, id) && Distinct(s.rooms[p.room].clients)
    ensures var o := JoinStep(s, id, p);
      var before := s.rooms[p.room].clients;
      && o.state.rooms[p.room].clients == Deleted(before, id) + [id]
      && |o.state.rooms[p.room].clients| == |before|
      && o.state.rooms[p.room].typing == s.rooms[p.room].typing
      && (forall k :: 0 <= k < |LeaveBroadcast(s, id)| ==> o.sent[k].0 != id)
  {
    RejoinLeaves(s, id, p);
    var o := JoinStep(s, id, p);
    LeaveBroadcastTargets(s, id);
    assert o.sent[..|LeaveBroadcast(s, id)|] == LeaveBroadcast(s, id);
  }

  /** Leaving the room about to be rejoined removes exactly its one entry. */
  lemma RejoinLeaves(s: State, id: ConnId, p: JoinPayload)
    requires WellFormed(s) && id in s.conns && s.conns[id].room == p.room != ""
    requires Member(s, p.room, id) && Distinct(s.rooms[p.room].clients)
    ensures var rest := Deleted(s.rooms[p.room].clients, id);
      && Leave(s, id).rooms[p.room] == Room(rest, s.rooms[p.room].typing)
      && id !in rest && |rest| + 1 == |s.rooms[p.room].clients|
  {
    var before := s.rooms[p.room].clients;
    var i :| 0 <= i < |before| && before[i] == id;
    DeletedAt(before, i);
  }

  /** A chat message changes nothing. When the sender has a room, the
      payload, unchanged, reaches exactly the open clients of that room,
      the sender among them, and nobody whose recorded room is another
      (server.js:57-62, 9-19). */
  lemma MessageDelivery(s: State, id: ConnId, payload: Payload)
    requires Inv(s) && id in s.conns && s.conns[id].state != Closed
    ensures var o := MessageStep(s, id, payload);
      var room := s.conns[id].room;
      && o.state == s
      && (room == "" ==> o.sent == [])
      && (room != "" ==>
            && (forall c :: (c, Chat(payload)) in o.sent <==> Member(s, room, c) && s.conns[c].state == Open)
            && (forall k :: 0 <= k < |o.sent| ==> o.sent[k].1 == Chat(payload) && s.conns[o.sent[k].0].room == room))
      && (s.conns[id].state == Open && room != "" ==> (id, Chat(payload)) in o.sent)
  {
    var room := s.conns[id].room;
    if room != "" {
      var o := MessageStep(s, id, payload);
      RoomBroadcastSends(s, room, Chat(payload));
      forall k | 0 <= k < |o.sent| ensures s.conns[o.sent[k].0].room == room {
        assert Member(s, room, o.sent[k].0);
      }
      forall c | (c, Chat(payload)) in o.sent ensures Member(s, room, c) && s.conns[c].state == Open {
        var k :| 0 <= k < |o.sent| && o.sent[k] == (c, Chat(payload));
      }
    }
  }

  /** Typing events need both a room and an e-mail. Then the e-mail is
      added to or removed from the room's typing set, nothing else
      changes, and the whole set goes to the room's open clients, whether
      it changed or not (server.js:63-78). */
  lemma TypingEffect(s: State, id: ConnId, start: bool)
    requires Inv(s) && id in s.conns && s.conns[id].state != Closed
    ensures var o := TypingStep(s, id, start);
      var c := s.conns[id];
      && (c.room == "" || c.email == "" ==> o == Outcome(s, []))
      && (c.room != "" && c.email != "" ==>
            var t := o.state.rooms[c.room].typing;
            && o.state.conns == s.conns
            && o.state.rooms.Keys == s.rooms.Keys
            && o.state.rooms[c.room].clients == s.rooms[c.room].clients
            && (forall e :: e in t <==> if start then e in s.rooms[c.room].typing || e == c.email
                                         else e in s.rooms[c.room].typing && e != c.email)
            && (forall r :: r in s.rooms && r != c.room ==> o.state.rooms[r] == s.rooms[r])
            && (forall k :: 0 <= k < |o.sent| ==> o.sent[k].1 == TypingUpdate(t))
            && (forall k :: 0 <= k < |o.sent| ==> Member(s, c.room, o.sent[k].0) && s.conns[o.sent[k].0].state == Open)
            && (forall d :: Member(s, c.room, d) && s.conns[d].state == Open ==> (d, TypingUpdate(t)) in o.sent))
  {
    var c := s.conns[id];
    if c.room != "" && c.email != "" {
      assert Member(s, c.room, id);
      var o := TypingStep(s, id, start);
      RoomBroadcastSends(o.state, c.room, TypingUpdate(o.state.rooms[c.room].typing));
    }
  }

  /** Repeating a typing event leaves the state as the first one left it. */
  lemma TypingIdempotent(s: State, id: ConnId, start: bool)
    requires Inv(s) && id in s.conns
    ensures var s1 := TypingStep(s, id, start).state;
      TypingStep(s1, id, start).state == s1
  {
    var c := s.conns[id];
    if c.room != "" && c.email != "" && c.room in s.rooms {
      var s1 := TypingStep(s, id, start).state;
      var t := s1.rooms[c.room].typing;
      assert start ==> c.email in t;
      assert !start ==> c.email !in t;
      assert s1.rooms[c.room := s1.rooms[c.room].(typing := t)] == s1.rooms;
    }
  }

  /** Two broadcasts to the same clients reach the same connections, in
      the same order. */
  lemma {:induction false} FanoutSameRecipients(clients: seq<ConnId>, conns: map<ConnId, Connection>, m1: OutMsg, m2: OutMsg)
    requires Known(clients, conns)
    ensures |Fanout(clients, conns, m1)| == |Fanout(clients, conns, m2)|
    ensures forall k :: 0 <= k < |Fanout(clients, conns, m1)| ==>
      Fanout(clients, conns, m1)[k].0 == Fanout(clients, conns, m2)[k].0
  {
    if clients != [] {
      var init := clients[..|clients| - 1];
      assert forall c :: c in init ==> c in clients;
      FanoutSameRecipients(init, conns, m1, m2);
    }
  }

  /** A socket that never joined a named room only becomes CLOSED on `close`:
      nothing is sent and no room changes (server.js:85-99). */
  lemma CloseWithoutRoom(s: State, id: ConnId)
    requires WellFormed(s) && id in s.conns && s.conns[id].room == ""
    ensures CloseStep(s, id).sent == [] && CloseStep(s, id).state.rooms == s.rooms
    ensures CloseStep(s, id).state.conns == s.conns[id := s.conns[id].(state := Closed)]
  {
  }

  /** Closing leaves the recorded room and drops the e-mail from its typing
      set; the room is deleted exactly when no client is left in it, and
      the other rooms stay as they were (server.js:85-93). */
  lemma CloseLeaves(s: State, id: ConnId)
    requires Inv(s) && id in s.conns && s.conns[id].state != Closed
    requires s.conns[id].room != ""
    ensures var s1 := CloseStep(s, id).state;
      var r := s.conns[id].room;
      var rest := Deleted(s.rooms[r].clients, id);
      && s1.conns[id].state == Closed
      && (r !in s1.rooms <==> rest == [])
      && (rest != [] ==> s1.rooms[r] == Room(rest, Deleted(s.rooms[r].typing, s.conns[id].email)))
      && (forall q :: q in s.rooms && q != r ==> q in s1.rooms && s1.rooms[q] == s.rooms[q])
  {
    assert Member(s, s.conns[id].room, id);
  }

  /** When clients are left after a close, each open one gets the member
      list and, after all of those, the typing list; the closed connection
      gets nothing. When none is left nothing is sent (server.js:91-97). */
  lemma CloseSends(s: State, id: ConnId)
    requires Inv(s) && id in s.conns && s.conns[id].state != Closed
    requires s.conns[id].room != ""
    ensures var o := CloseStep(s, id);
      var r := s.conns[id].room;
      var rest := Deleted(s.rooms[r].clients, id);
      var typing := Deleted(s.rooms[r].typing, s.conns[id].email);
      var users := Users(rest, o.state.conns);
      var n := |o.sent| / 2;
      && (rest == [] ==> o.sent == [])
      && (rest != [] ==>
            && (forall k :: 0 <= k < |o.sent| ==> o.sent[k].0 != id && o.sent[k].0 in rest)
            && (forall k :: 0 <= k < n ==> o.sent[k].1 == UserListUpdate(users))
            && (forall k :: n <= k < |o.sent| ==> o.sent[k].1 == TypingUpdate(typing))
            && (forall k :: 0 <= k < n ==> o.sent[k].0 == o.sent[n + k].0)
            && (forall c :: c in rest && s.conns[c].state == Open ==>
                  (c, UserListUpdate(users)) in o.sent[..n] && (c, TypingUpdate(typing)) in o.sent[n..]))
  {
    var r := s.conns[id].room;
    CloseLeaves(s, id);
    var rest := Deleted(s.rooms[r].clients, id);
    if rest != [] {
      var o := CloseStep(s, id);
      var s1 := o.state;
      var m1 := UserListUpdate(Users(rest, s1.conns));
      var m2 := TypingUpdate(s1.rooms[r].typing);
      assert o.sent == Fanout(rest, s1.conns, m1) + Fanout(rest, s1.conns, m2);
      PairedFanout(rest, s1.conns, m1, m2);
      assert forall c :: c in rest ==> s1.conns[c].state == s.conns[c].state;
    }
  }

  /** Two broadcasts in a row to the same clients: the first half of the
      sends carries the first frame, the second half the second, to the
      same connections in the same order. */
  lemma PairedFanout(clients: seq<ConnId>, conns: map<ConnId, Connection>, m1: OutMsg, m2: OutMsg)
    requires Known(clients, conns)
    ensures var a := Fanout(clients, conns, m1);
      var out := a + Fanout(clients, conns, m2);
      var n := |out| / 2;
      && |a| == n
      && (forall k :: 0 <= k < n ==> out[k].1 == m1 && out[k].0 == out[n + k].0)
      && (forall k :: n <= k < |out| ==> out[k].1 == m2)
      && (forall k :: 0 <= k < |out| ==> out[k].0 in clients)
      && (forall c :: c in clients && conns[c].state == Open ==> (c, m1) in out[..n] && (c, m2) in out[n..])
  {
    PairedFanoutOrder(clients, conns, m1, m2);
    PairedFanoutReach(clients, conns, m1, m2);
  }

  lemma PairedFanoutOrder(clients: seq<ConnId>, conns: map<ConnId, Connection>, m1: OutMsg, m2: OutMsg)
    requires Known(clients, conns)
    ensures var a := Fanout(clients, conns, m1);
      var out := a + Fanout(clients, conns, m2);
      var n := |out| / 2;
      && |a| == n
      && (forall k :: 0 <= k < n ==> out[k].1 == m1 && out[k].0 == out[n + k].0)
      && (forall k :: n <= k < |out| ==> out[k].1 == m2)
      && (forall k :: 0 <= k < |out| ==> out[k].0 in clients)
  {
    var a := Fanout(clients, conns, m1);
    var b := Fanout(clients, conns, m2);
    FanoutSameRecipients(clients, conns, m1, m2);
    FanoutSends(clients, conns, m1);
    FanoutSends(clients, conns, m2);
    var out := a + b;
    var n := |a|;
    assert |out| / 2 == n;
    forall k | 0 <= k < n ensures out[k].1 == m1 && out[k].0 == out[n + k].0 {
      assert out[k] == a[k] && out[n + k] == b[k];
    }
    forall k | n <= k < |out| ensures out[k].1 == m2 {
      assert out[k] == b[k - n];
    }
    forall k | 0 <= k < |out| ensures out[k].0 in clients {
      if k < n { assert out[k] == a[k]; } else { assert out[k] == b[k - n]; }
    }
  }

  lemma PairedFanoutReach(clients: seq<ConnId>, conns: map<ConnId, Connection>, m1: OutMsg, m2: OutMsg)
    requires Known(clients, conns)
    ensures var a := Fanout(clients, conns, m1);
      var out := a + Fanout(clients, conns, m2);
      var n := |out| / 2;
      forall c :: c in clients && conns[c].state == Open ==> (c, m1) in out[..n] && (c, m2) in out[n..]
  {
    var a := Fanout(clients, conns, m1);
    var b := Fanout(clients, conns, m2);
    FanoutSameRecipients(clients, conns, m1, m2);
    FanoutSends(clients, conns, m1);
    FanoutSends(clients, conns, m2);
    var out := a + b;
    assert |out| / 2 == |a|;
    assert out[..|a|] == a && out[|a|..] == b;
  }

  /** Once the last client has left, the room is gone, and the next join to
      that name starts from an empty room with no stale typing entries. */
  lemma FreshRoomAfterLastLeave(s: State, a: ConnId, b: ConnId, p: JoinPayload)
    requires Inv(s) && a in s.conns && b in s.conns && a != b
    requires s.conns[a].state != Closed && s.conns[b].state != Closed
    requires s.conns[a].room == p.room != "" && s.conns[b].room != p.room
    requires s.rooms[p.room].clients == [a]
    ensures var s1 := CloseStep(s, a).state;
      p.room !in s1.rooms &&
      JoinStep(s1, b, p).state.rooms[p.room] == Room([b], [])
  {
    assert Deleted([a], a) == [];
  }

  // ---------------------------------------------------------------------
  // Runs

  // The states of a session in which connection 1 (a@x.com) and then
  // connection 2 (b@x.com) join room "ABCD", 2 starts typing and sends
  // "hi", and 1 disconnects.
  const A: Connection := Connection("ABCD", "a@x.com", Open)
  const B: Connection := Connection("ABCD", "b@x.com", Open)
  const Connected: State := State(map[], map[1 := Connection("", "", Open), 2 := Connection("", "", Open)])
  const AJoined: State := State(map["ABCD" := Room([1], [])], map[1 := A, 2 := Connection("", "", Open)])
  const BothJoined: State := State(map["ABCD" := Room([1, 2], [])], map[1 := A, 2 := B])
  const BTyping: State := State(map["ABCD" := Room([1, 2], ["b@x.com"])], map[1 := A, 2 := B])
  const AGone: State := State(map["ABCD" := Room([2], ["b@x.com"])], map[1 := A.(state := Closed), 2 := B])

  lemma SessionJoinA()
    ensures JoinStep(Connected, 1, JoinPayload("ABCD", "a@x.com")) ==
      Outcome(AJoined, [(1, UserListUpdate(["a@x.com"]))])
  {
    assert Leave(Connected, 1) == Connected;
    assert Enter(Connected, 1, JoinPayload("ABCD", "a@x.com")) == AJoined;
    assert Users([1], AJoined.conns) == ["a@x.com"];
  }

  lemma SessionJoinB()
    ensures JoinStep(AJoined, 2, JoinPayload("ABCD", "b@x.com")) ==
      Outcome(BothJoined, [(1, UserListUpdate(["a@x.com", "b@x.com"])), (2, UserListUpdate(["a@x.com", "b@x.com"]))])
  {
    assert Leave(AJoined, 2) == AJoined;
    assert Added([1], 2) == [1, 2];
    assert Enter(AJoined, 2, JoinPayload("ABCD", "b@x.com")) == BothJoined;
    assert Users([1, 2], BothJoined.conns) == ["a@x.com", "b@x.com"];
    TwoOpenClients(BothJoined.conns, UserListUpdate(["a@x.com", "b@x.com"]));
  }

  lemma SessionTyping()
    ensures TypingStep(BothJoined, 2, true) ==
      Outcome(BTyping, [(1, TypingUpdate(["b@x.com"])), (2, TypingUpdate(["b@x.com"]))])
  {
    assert Added([], "b@x.com") == ["b@x.com"];
    assert BothJoined.rooms["ABCD" := Room([1, 2], ["b@x.com"])] == BTyping.rooms;
    TwoOpenClients(BTyping.conns, TypingUpdate(["b@x.com"]));
  }

  lemma SessionMessage()
    ensures MessageStep(BTyping, 2, "hi") == Outcome(BTyping, [(1, Chat("hi")), (2, Chat("hi"))])
  {
    TwoOpenClients(BTyping.conns, Chat("hi"));
  }

  /** The sends of a broadcast to the clients 1 and 2, both OPEN. */
  lemma TwoOpenClients(conns: map<ConnId, Connection>, msg: OutMsg)
    requires 1 in conns && 2 in conns && conns[1].state == Open && conns[2].state == Open
    ensures Fanout([1, 2], conns, msg) == [(1, msg), (2, msg)]
  {
    assert [1, 2][..1] == [1];
    assert [1][..0] == [];
  }

  lemma SessionCloseA()
    ensures CloseStep(BTyping, 1) ==
      Outcome(AGone, [(2, UserListUpdate(["b@x.com"])), (2, TypingUpdate(["b@x.com"]))])
  {
    assert Deleted([1, 2], 1) == [2];
    assert Deleted(["b@x.com"], "a@x.com") == ["b@x.com"];
    assert Depart(BTyping, 1) == AGone;
    assert Users([2], AGone.conns) == ["b@x.com"];
  }

  const Fresh: State := State(map[], map[1 := Connection("", "", Open)])
  const InNoName: State := State(map["" := Room([1], [])], map[1 := Connection("", "a@x.com", Open)])
  const InBoth: State := State(map["" := Room([1], []), "X" := Room([1], [])], map[1 := Connection("X", "a@x.com", Open)])
  const ClosedInNoName: State := State(map["" := Room([1], [])], map[1 := Connection("X", "a@x.com", Closed)])

  /** A join to the room named "" is recorded as "not set": the connection
      becomes a client of `rooms[""]` and stays one when it moves on to
      room "X" (so it is a client of two rooms) and even after it closes
      (server.js:42, 47-51, 87). */
  lemma EmptyNameRoomKeepsClient()
    ensures JoinStep(Fresh, 1, JoinPayload("", "a@x.com")).state == InNoName
    ensures JoinStep(InNoName, 1, JoinPayload("X", "a@x.com")).state == InBoth
    ensures CloseStep(InBoth, 1).state == ClosedInNoName
  {
    assert Leave(Fresh, 1) == Fresh;
    assert Enter(Fresh, 1, JoinPayload("", "a@x.com")) == InNoName;
    assert Leave(InNoName, 1) == InNoName;
    assert Enter(InNoName, 1, JoinPayload("X", "a@x.com")) == InBoth;
    assert Deleted([1], 1) == [];
    assert Depart(InBoth, 1) == ClosedInNoName;
  }

  const InX: State := State(map["X" := Room([1], [])], map[1 := Connection("X", "a@x.com", Open)])
  const TypingInX: State := State(map["X" := Room([1], ["a@x.com"])], map[1 := Connection("X", "a@x.com", Open)])
  const MovedToY: State := State(map["X" := Room([], ["a@x.com"]), "Y" := Room([1], [])], map[1 := Connection("Y", "a@x.com", Open)])

  /** Moving to another room leaves the e-mail in the old room's typing set
      and keeps the old room though no client is left in it
      (server.js:42-45). */
  lemma SwitchLeavesTypingBehind()
    ensures JoinStep(Fresh, 1, JoinPayload("X", "a@x.com")).state == InX
    ensures TypingStep(InX, 1, true).state == TypingInX
    ensures JoinStep(TypingInX, 1, JoinPayload("Y", "a@x.com")).state == MovedToY
  {
    JoinX();
    TypeInX();
    MoveToY();
  }

  lemma JoinX()
    ensures JoinStep(Fresh, 1, JoinPayload("X", "a@x.com")).state == InX
  {
    assert Leave(Fresh, 1) == Fresh;
    assert Enter(Fresh, 1, JoinPayload("X", "a@x.com")) == InX;
  }

  lemma TypeInX()
    ensures TypingStep(InX, 1, true).state == TypingInX
  {
    assert Added([], "a@x.com") == ["a@x.com"];
    assert InX.rooms["X" := Room([1], ["a@x.com"])] == TypingInX.rooms;
  }

  lemma MoveToY()
    ensures JoinStep(TypingInX, 1, JoinPayload("Y", "a@x.com")).state == MovedToY
  {
    assert Deleted([1], 1) == [];
    var left := State(map["X" := Room([], ["a@x.com"])], TypingInX.conns);
    assert Leave(TypingInX, 1) == left;
    var added: seq<ConnId> := Added([], 1);
    assert added == [1];
    assert left.conns[1 := left.conns[1].(room := "Y", email := "a@x.com")] == MovedToY.conns;
    assert left.rooms["Y" := Room(added, [])] == MovedToY.rooms;
    assert Enter(left, 1, JoinPayload("Y", "a@x.com")) == MovedToY;
  }

  // ---------------------------------------------------------------------
  // The server as the handlers run it

  /** The process-wide state of server.js: the `rooms` map, the fields of
      every connection, and every frame sent so far, in order. */
  class Server {
    var rooms: map<string, Room>
    var conns: map<ConnId, Connection>
    var outbox: seq<Send>

    function Snapshot(): State
      reads this
    {
      State(rooms, conns)
    }

    ghost predicate Valid()
      reads this
    {
      Inv(Snapshot())
    }

    /** Server start: `rooms` is an empty map (server.js:5). */
    constructor ()
      ensures Valid() && rooms == map[] && conns == map[] && outbox == []
    {
      rooms, conns, outbox := map[], map[], [];
    }

    /** The `connection` event: the new socket is OPEN, with `ws.room` and
        `ws.userEmail` null (server.js:29-32). */
    method Connect(id: ConnId)
      requires Valid() && id !in conns
      modifies this
      ensures Valid()
      ensures rooms == old(rooms) && outbox == old(outbox)
      ensures conns == old(conns)[id := Connection("", "", Open)]
    {
      conns := conns[id := Connection("", "", Open)];
      assert forall r, c :: Member(Snapshot(), r, c) <==> Member(old(Snapshot()), r, c);
    }

    /** The transport begins closing the socket: from now on it is not
        OPEN, so broadcasts skip it, but its `close` event has not run. */
    method StartClosing(id: ConnId)
      requires Valid() && id in conns && conns[id].state == Open
      modifies this
      ensures Valid()
      ensures rooms == old(rooms) && outbox == old(outbox)
      ensures conns == old(conns)[id := old(conns)[id].(state := Closing)]
    {
      conns := conns[id := conns[id].(state := Closing)];
      assert forall r, c :: Member(Snapshot(), r, c) <==> Member(old(Snapshot()), r, c);
    }

    /** `broadcastToRoom` (server.js:9-19). */
    method BroadcastToRoom(roomName: string, msg: OutMsg)
      requires WellFormed(Snapshot())
      modifies this`outbox
      ensures outbox == old(outbox) + RoomBroadcast(Snapshot(), roomName, msg)
    {
      var s := Snapshot();
      if roomName in s.rooms {
        var clients := s.rooms[roomName].clients;
        assert Known(clients, s.conns);
        assert clients[..0] == [];
        for i := 0 to |clients|
          invariant Known(clients[..i], s.conns)
          invariant outbox == old(outbox) + Fanout(clients[..i], s.conns, msg)
        {
          FanoutSnoc(clients, s.conns, msg, i);
          var client := clients[i];
          if s.conns[client].state == Open {
            AppendAssoc(old(outbox), Fanout(clients[..i], s.conns, msg), [(client, msg)]);
            outbox := outbox + [(client, msg)];
          }
        }
        assert clients[..|clients|] == clients;
      }
    }

    /** `broadcastUserList` (server.js:21-27). */
    method BroadcastUserList(roomName: string)
      requires WellFormed(Snapshot())
      modifies this`outbox
      ensures outbox == old(outbox) + UserListBroadcast(Snapshot(), roomName)
    {
      if roomName in rooms {
        var users := Users(rooms[roomName].clients, conns);
        BroadcastToRoom(roomName, UserListUpdate(users));
      }
    }

    /** `case 'join'` (server.js:40-56). */
    method Join(id: ConnId, room: string, email: string)
      requires WellFormed(Snapshot()) && id in conns
      modifies this
      ensures Snapshot() == JoinStep(old(Snapshot()), id, JoinPayload(room, email)).state
      ensures outbox == old(outbox) + JoinStep(old(Snapshot()), id, JoinPayload(room, email)).sent
    {
      ghost var s, before := Snapshot(), outbox;
      var p := JoinPayload(room, email);
      LeaveRecordedRoom(id);
      ghost var s1, leaving := Snapshot(), LeaveBroadcast(s, id);
      assert s1 == Leave(s, id) && outbox == before + leaving;
      EnterRoom(id, p);
      ghost var s2, entering := Snapshot(), UserListBroadcast(Snapshot(), room);
      assert s2 == Enter(s1, id, p) && outbox == before + leaving + entering;
      AppendAssoc(before, leaving, entering);
      assert JoinStep(s, id, p) == Outcome(s2, leaving + entering);
    }

    /** server.js:42-45: leave the recorded room and tell its clients. */
    method LeaveRecordedRoom(id: ConnId)
      requires WellFormed(Snapshot()) && id in conns
      modifies this
      ensures Snapshot() == Leave(old(Snapshot()), id)
      ensures outbox == old(outbox) + LeaveBroadcast(old(Snapshot()), id)
    {
      var prev := conns[id].room;
      if prev != "" && prev in rooms {
        rooms := rooms[prev := rooms[prev].(clients := Deleted(rooms[prev].clients, id))];
        BroadcastUserList(prev);
      }
    }

    /** server.js:47-53: enter the target room, record the room and the
        e-mail, and tell the room's clients. */
    method EnterRoom(id: ConnId, p: JoinPayload)
      requires WellFormed(Snapshot()) && id in conns
      modifies this
      ensures Snapshot() == Enter(old(Snapshot()), id, p)
      ensures outbox == old(outbox) + UserListBroadcast(Snapshot(), p.room)
    {
      ghost var s := Snapshot();
      if p.room !in rooms {
        rooms := rooms[p.room := Room([], [])];
      }
      rooms := rooms[p.room := rooms[p.room].(clients := Added(rooms[p.room].clients, id))];
      conns := conns[id := conns[id].(room := p.room, email := p.email)];
      assert Snapshot() == Enter(s, id, p);
      BroadcastUserList(p.room);
    }

    /** `case 'start-typing'` and `case 'stop-typing'` (server.js:63-78). */
    method SetTyping(id: ConnId, start: bool)
      requires WellFormed(Snapshot()) && id in conns
      modifies this
      ensures Snapshot() == TypingStep(old(Snapshot()), id, start).state
      ensures outbox == old(outbox) + TypingStep(old(Snapshot()), id, start).sent
    {
      var c := conns[id];
      if c.room != "" && c.email != "" && c.room in rooms {
        var room := rooms[c.room];
        var typing := if start then Added(room.typing, c.email) else Deleted(room.typing, c.email);
        rooms := rooms[c.room := room.(typing := typing)];
        BroadcastToRoom(c.room, TypingUpdate(typing));
      }
    }

    /** The `message` event of a connection (server.js:34-83). */
    method OnMessage(id: ConnId, frame: Frame)
      requires Valid() && id in conns && conns[id].state != Closed
      modifies this
      ensures Valid()
      ensures Snapshot() == FrameStep(old(Snapshot()), id, frame).state
      ensures outbox == old(outbox) + FrameStep(old(Snapshot()), id, frame).sent
    {
      FramePreservesInv(Snapshot(), id, frame);
      match frame
      case Join(Some(p)) => Join(id, p.room, p.email);
      case Message(payload) =>
        if conns[id].room != "" {
          BroadcastToRoom(conns[id].room, Chat(payload));
        }
      case StartTyping => SetTyping(id, true);
      case StopTyping => SetTyping(id, false);
      case _ =>
    }

    /** The `close` event of a connection (server.js:85-99). */
    method OnClose(id: ConnId)
      requires Valid() && id in conns && conns[id].state != Closed
      modifies this
      ensures Valid()
      ensures Snapshot() == CloseStep(old(Snapshot()), id).state
      ensures outbox == old(outbox) + CloseStep(old(Snapshot()), id).sent
    {
      ghost var s := Snapshot();
      ClosePreservesInv(s, id);
      conns := conns[id := conns[id].(state := Closed)];
      var room := conns[id].room;
      if room != "" && room in rooms {
        var roomData := rooms[room];
        roomData := roomData.(clients := Deleted(roomData.clients, id));
        roomData := roomData.(typing := Deleted(roomData.typing, conns[id].email));
        if |roomData.clients| == 0 {
          rooms := rooms - {room};
        } else {
          rooms := rooms[room := roomData];
          assert Snapshot() == Depart(s, id);
          BroadcastUserList(room);
          BroadcastToRoom(room, TypingUpdate(roomData.typing));
        }
      }
      assert Snapshot() == Depart(s, id);
    }

    /** The `error` event only logs (server.js:101-103): no state changes
        and nothing is sent; cleanup waits for `close`. */
    method OnError(id: ConnId)
      requires Valid() && id in conns
      ensures Valid()
    {
    }
  }
}
