/** Rooms, memberships and stored lines as one state, and what each server operation does to it
    (`ChannelsManager`, `Channel`, and the history table of `Database`). */
module Rooms {
  import opened Basics
  import opened Messages

  /** A line of a room's in-memory history. `notice` marks the join and leave notices, which
      are never stored; the mark is not part of the line. */
  datatype Entry = Entry(data: Text, notice: bool)

  datatype Room = Room(id: Id, subs: map<Id, Handle>, history: seq<Entry>)

  datatype Account = Account(login: Bytes, id: Id, password: Bytes)

  /** A connection. `handed` records every line passed to `send_msg_to_client`, `joined` every room
      joined and `direct` every response written outside the queue, in order. */
  datatype Conn = Conn(
    clientId: Id, login: Bytes, room: Id, busy: bool,
    handed: seq<Text>, joined: seq<Id>, direct: seq<Response>)

  datatype State = State(
    rooms: map<Id, Room>, memberOf: map<Id, seq<Id>>, loginOf: map<Id, Bytes>,
    rows: seq<Text>, accounts: seq<Account>, counter: nat, conns: map<Handle, Conn>)

  // ------------------------------------------------------------- histories

  function Lines(es: seq<Entry>): seq<Text> {
    seq(|es|, i requires 0 <= i < |es| => es[i].data)
  }

  /** The lines of a history that are not notices. */
  function Sent(es: seq<Entry>): seq<Text> {
    if es == [] then []
    else
      var last := es[|es| - 1];
      Sent(es[..|es| - 1]) + (if last.notice then [] else [last.data])
  }

  /** The history a channel starts with: the stored lines of its room. */
  function Load(rows: seq<Text>, r: Id): seq<Entry> {
    var lines := ForRoom(rows, r);
    seq(|lines|, i requires 0 <= i < |lines| => Entry(lines[i], false))
  }

  lemma {:induction false} SentOfStored(lines: seq<Text>)
    ensures Sent(seq(|lines|, i requires 0 <= i < |lines| => Entry(lines[i], false))) == lines
  {
    var es := seq(|lines|, i requires 0 <= i < |lines| => Entry(lines[i], false));
    if lines != [] {
      var front := lines[..|lines| - 1];
      SentOfStored(front);
      assert es[..|es| - 1] == seq(|front|, i requires 0 <= i < |front| => Entry(front[i], false));
    }
  }

  lemma SentAppend(es: seq<Entry>, e: Entry)
    ensures Sent(es + [e]) == Sent(es) + if e.notice then [] else [e.data]
  {
    assert (es + [e])[..|es|] == es;
  }

  function JoinNotice(login: Bytes, r: Id): Entry {
    Entry(Text(r, login, login + Ascii(" joined to room_id=") + Decimal(r)), true)
  }

  function LeaveNotice(login: Bytes, r: Id): Entry {
    Entry(Text(r, login, login + Ascii(" leave from room_id=") + Decimal(r)), true)
  }

  // ------------------------------------------------------------ operations

  function KeysOf(subs: map<Id, Handle>, h: Handle): set<Id> {
    set k | k in subs && subs[k] == h
  }

  /** Under how many client ids a connection is subscribed. */
  function Copies(subs: map<Id, Handle>, h: Handle): nat {
    |KeysOf(subs, h)|
  }

  function Deliver(conns: map<Handle, Conn>, subs: map<Id, Handle>, m: Text): map<Handle, Conn> {
    map h | h in conns :: conns[h].(handed := conns[h].handed + Repeat(m, Copies(subs, h)))
  }

  /** `Channel::notification`: every subscriber entry is sent the line, then the history grows. */
  function Notify(s: State, r: Id, e: Entry): State
    requires r in s.rooms
  {
    var room := s.rooms[r];
    s.(rooms := s.rooms[r := room.(history := room.history + [e])],
       conns := Deliver(s.conns, room.subs, e.data))
  }

  /** The channel of a room is created, with its stored lines, when it is first joined. */
  function Open(s: State, r: Id): State {
    if r in s.rooms then s else s.(rooms := s.rooms[r := Room(r, map[], Load(s.rows, r))])
  }

  /** The part of a join before the notice: both indexes learn of it and the history is replayed.
      A client id that is already subscribed keeps its first connection. */
  function Enrol(s: State, h: Handle, r: Id): State
    requires h in s.conns && r in s.rooms
  {
    var c, room := s.conns[h], s.rooms[r];
    var k := c.clientId;
    s.(memberOf := s.memberOf[k := (if k in s.memberOf then s.memberOf[k] else []) + [r]],
       loginOf := if k in s.loginOf then s.loginOf else s.loginOf[k := c.login],
       rooms := s.rooms[r := room.(subs := if k in room.subs then room.subs else room.subs[k := h])],
       conns := s.conns[h := c.(room := r, busy := true,
                                handed := c.handed + Lines(room.history),
                                joined := c.joined + [r])])
  }

  /** `ChannelsManager::join`. */
  function JoinRoom(s: State, h: Handle, r: Id): State
    requires h in s.conns
  {
    Notify(Enrol(Open(s, r), h, r), r, JoinNotice(s.conns[h].login, r))
  }

  /** `ChannelsManager::send_to_channel`. */
  function SendToChannel(s: State, m: Text): State {
    if m.room in s.rooms then Notify(s, m.room, Entry(m, false)) else s
  }

  /** `do_text_msg`: broadcast, then store. */
  function SayText(s: State, m: Text): State {
    SendToChannel(s, m).(rows := s.rows + [m])
  }

  predicate Subscribed(s: State, k: Id, r: Id) {
    r in s.rooms && k in s.rooms[r].subs
  }

  predicate Listed(s: State, k: Id, r: Id) {
    k in s.memberOf && r in s.memberOf[k]
  }

  function LoginOf(s: State, h: Handle): Bytes {
    if h in s.conns then s.conns[h].login else []
  }

  function Unsubscribe(s: State, k: Id, r: Id): State
    requires r in s.rooms
  {
    s.(rooms := s.rooms[r := s.rooms[r].(subs := s.rooms[r].subs - {k})])
  }

  /** `Channel::leave(client_id)`: the leaver still hears its own notice. */
  function LeaveRoom(s: State, k: Id, r: Id): State {
    if !Subscribed(s, k, r) then s
    else Unsubscribe(Notify(s, r, LeaveNotice(LoginOf(s, s.rooms[r].subs[k]), r)), k, r)
  }

  function LeaveRooms(s: State, k: Id, rs: seq<Id>): (s': State)
    ensures s'.conns.Keys == s.conns.Keys
    decreases |rs|
  {
    if rs == [] then s else LeaveRooms(LeaveRoom(s, k, rs[0]), k, rs[1..])
  }

  /** `ChannelsManager::leave_from_all_channels`. */
  function LeaveAll(s: State, k: Id): State {
    var s' := if k in s.memberOf then LeaveRooms(s, k, s.memberOf[k]) else s;
    s'.(memberOf := s'.memberOf - {k}, loginOf := s'.loginOf - {k})
  }

  /** `Connection::free_connection`. */
  function Free(s: State, h: Handle): State
    requires h in s.conns
  {
    var s' := LeaveAll(s, s.conns[h].clientId);
    s'.(conns := s'.conns[h := s'.conns[h].(clientId := -1, login := Ascii("unused"), busy := false, room := 0)])
  }

  /** `ChannelsManager::leave`, which nothing calls. */
  function ManagerLeave(s: State, k: Id, r: Id): State {
    if k !in s.memberOf || r !in s.rooms then s
    else
      var s' := LeaveRoom(s, k, r);
      s'.(memberOf := s'.memberOf - {k}, loginOf := s'.loginOf - {k})
  }

  /** A connection logs in or registers under a new name. */
  function Relogin(s: State, h: Handle, login: Bytes, id: Id): State
    requires h in s.conns
  {
    s.(conns := s.conns[h := s.conns[h].(login := login, clientId := id)])
  }

  // ------------------------------------------------------------ invariants

  /** The two membership indexes agree, and the login index covers the same clients. */
  ghost predicate IndexAgrees(s: State) {
    && (forall k, r :: Subscribed(s, k, r) <==> Listed(s, k, r))
    && s.loginOf.Keys == s.memberOf.Keys
  }

  ghost predicate RoomSound(room: Room, r: Id) {
    room.id == r && forall i :: 0 <= i < |room.history| ==> room.history[i].data.room == r
  }

  /** Every channel carries its own key, and so does every line of its history. */
  ghost predicate RoomsSound(s: State) {
    forall r :: r in s.rooms ==> RoomSound(s.rooms[r], r)
  }

  /** Apart from notices, a channel's memory is what is stored for its room. */
  ghost predicate Archived(s: State) {
    forall r :: r in s.rooms ==> Sent(s.rooms[r].history) == ForRoom(s.rows, r)
  }

  /** Only connections that were accepted are subscribed. */
  ghost predicate Connected(s: State) {
    forall k, r :: Subscribed(s, k, r) ==> s.rooms[r].subs[k] in s.conns
  }

  /** Connection `h` is subscribed to room `r` under client id `k`. */
  predicate Under(s: State, k: Id, r: Id, h: Handle) {
    Subscribed(s, k, r) && s.rooms[r].subs[k] == h
  }

  ghost predicate Live(s: State, h: Handle, r: Id) {
    exists k :: Under(s, k, r, h)
  }

  /** A connection is subscribed to a room under one client id at most. */
  ghost predicate OnceAt(s: State, h: Handle, r: Id) {
    forall k, k' :: Under(s, k, r, h) && Under(s, k', r, h) ==> k == k'
  }

  /** The join that would subscribe a connection to a room a second time: it is subscribed already,
      and nobody is under the client id it has now. */
  ghost predicate JoinsTwice(s: State, h: Handle, r: Id)
    requires h in s.conns
  {
    Live(s, h, r) && !Subscribed(s, s.conns[h].clientId, r)
  }

  ghost predicate LiveSomewhere(s: State, h: Handle) {
    exists r :: Live(s, h, r)
  }

  function HistoryOf(s: State, r: Id): seq<Text> {
    if r in s.rooms then Lines(s.rooms[r].history) else []
  }

  /** `segs` explains what a connection was handed for a room: one segment for each time it joined,
      every segment a prefix of the room's history and, while subscribed, the last one all of it. */
  ghost predicate Explains(segs: seq<seq<Text>>, handed: seq<Text>, joins: nat, history: seq<Text>, live: bool) {
    && |segs| == joins
    && handed == Flatten(segs)
    && (forall i :: 0 <= i < |segs| ==> segs[i] <= history)
    && (live ==> joins > 0 && segs[joins - 1] == history)
  }

  ghost predicate ExplainedAt(s: State, h: Handle, r: Id)
    requires h in s.conns
  {
    var c := s.conns[h];
    exists segs :: Explains(segs, ForRoom(c.handed, r), Count(c.joined, r), HistoryOf(s, r), Live(s, h, r))
  }

  /** The claim about one connection and one room that the server's steps keep. */
  ghost predicate FairAt(s: State, h: Handle, r: Id) {
    OnceAt(s, h, r) && (h in s.conns ==> ExplainedAt(s, h, r))
  }
}
