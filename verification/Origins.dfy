/** Where the lines that a client remembers come from. */
module Origins {
  import opened Basics
  import opened MsgFactory
  import opened Rooms
  import opened RoomProofs
  import opened Accounts
  import opened Server
  import opened ServerProofs
  import opened TextFlow
  import opened EndToEnd
  import Client = ChatClient

  /** An entry is the notice of somebody joining or leaving the room. */
  ghost predicate Announces(e: Entry, r: Id) {
    exists login :: e == JoinNotice(login, r) || e == LeaveNotice(login, r)
  }

  ghost predicate EntryReal(e: Entry, r: Id) {
    e.notice ==> Announces(e, r)
  }

  /** The notices of a room are notices of somebody joining or leaving it. */
  ghost predicate NoticesReal(s: State) {
    forall r, i :: r in s.rooms && 0 <= i < |s.rooms[r].history| ==> EntryReal(s.rooms[r].history[i], r)
  }

  predicate InHistory(s: State, m: Text) {
    m in HistoryOf(s, m.room)
  }

  ghost predicate AllInHistory(s: State, ms: seq<Text>) {
    forall m :: m in ms ==> InHistory(s, m)
  }

  /** Every line handed to a connection is in the history of its room. */
  ghost predicate HandedKnown(s: State) {
    forall h :: h in s.conns ==> AllInHistory(s, s.conns[h].handed)
  }

  ghost predicate Genuine(s: State) {
    NoticesReal(s) && HandedKnown(s)
  }

  // ------------------------------------------------------ what each step keeps

  lemma HistoryGrows(s: State, s': State, ms: seq<Text>)
    requires Extends(s, s') && AllInHistory(s, ms)
    ensures AllInHistory(s', ms)
  {
    forall m | m in ms ensures InHistory(s', m) {
      assert InHistory(s, m);
      var a, b := s.rooms[m.room].history, s'.rooms[m.room].history;
      assert RoomExtends(s.rooms[m.room], s'.rooms[m.room]);
      var i :| 0 <= i < |a| && Lines(a)[i] == m;
      assert a[i] == b[i] && Lines(b)[i] == m;
    }
  }

  lemma {:induction false} InRepeat(m: Text, n: nat)
    ensures forall x :: x in Repeat(m, n) ==> x == m
  {
    if n > 0 {
      InRepeat(m, n - 1);
    }
  }

  lemma NotifyGenuine(s: State, r: Id, e: Entry)
    requires r in s.rooms && e.data.room == r && EntryReal(e, r) && Genuine(s)
    ensures Genuine(Notify(s, r, e))
  {
    hide EntryReal, InHistory, Extends;
    var s' := Notify(s, r, e);
    NotifyExtends(s, r, e);
    forall h | h in s'.conns ensures AllInHistory(s', s'.conns[h].handed) {
      var n := Copies(s.rooms[r].subs, h);
      HistoryGrows(s, s', s.conns[h].handed);
      InRepeat(e.data, n);
      NewestInHistory(s, r, e);
    }
  }

  lemma NewestInHistory(s: State, r: Id, e: Entry)
    requires r in s.rooms && e.data.room == r
    ensures InHistory(Notify(s, r, e), e.data)
  {
    var history := s.rooms[r].history;
    assert Lines(history + [e])[|history|] == e.data;
  }

  lemma OpenGenuine(s: State, r: Id)
    requires Genuine(s)
    ensures Genuine(Open(s, r))
  {
    hide InHistory;
    var s' := Open(s, r);
    assert Extends(s, s');
    forall h | h in s'.conns ensures AllInHistory(s', s'.conns[h].handed) {
      HistoryGrows(s, s', s.conns[h].handed);
    }
  }

  lemma EnrolGenuine(s: State, h: Handle, r: Id)
    requires h in s.conns && r in s.rooms && RoomsSound(s) && Genuine(s)
    ensures Genuine(Enrol(s, h, r))
  {
    hide EntryReal;
    var s' := Enrol(s, h, r);
    assert forall m :: InHistory(s', m) <==> InHistory(s, m);
    assert RoomSound(s.rooms[r], r);
    assert AllInHistory(s, Lines(s.rooms[r].history));
    forall g | g in s'.conns ensures AllInHistory(s', s'.conns[g].handed) {
      assert AllInHistory(s, s.conns[g].handed);
    }
  }

  lemma JoinGenuine(s: State, h: Handle, r: Id)
    requires h in s.conns && RoomsSound(s) && Genuine(s)
    ensures Genuine(JoinRoom(s, h, r))
  {
    hide Genuine, Enrol, Notify, RoomsSound;
    OpenKeeps(s, r);
    OpenGenuine(s, r);
    EnrolGenuine(Open(s, r), h, r);
    EnrolRooms(Open(s, r), h, r);
    NotifyGenuine(Enrol(Open(s, r), h, r), r, JoinNotice(s.conns[h].login, r));
  }

  /** Tables, indexes, ids, logins and subscriptions do not matter. */
  predicate SameLines(s: State, s': State) {
    && s'.rooms.Keys == s.rooms.Keys && s'.conns.Keys <= s.conns.Keys
    && (forall r :: r in s.rooms ==> s'.rooms[r].history == s.rooms[r].history)
    && (forall h :: h in s'.conns ==> s'.conns[h].handed == s.conns[h].handed)
  }

  lemma SameLinesGenuine(s: State, s': State)
    requires SameLines(s, s') && Genuine(s)
    ensures Genuine(s')
  {
    hide EntryReal;
    assert forall m :: InHistory(s', m) <==> InHistory(s, m);
    forall h | h in s'.conns ensures AllInHistory(s', s'.conns[h].handed) {
      assert AllInHistory(s, s.conns[h].handed);
    }
  }

  lemma TextGenuine(s: State, m: Text)
    requires Genuine(s)
    ensures Genuine(SayText(s, m))
  {
    hide Genuine, Notify;
    if m.room in s.rooms {
      NotifyGenuine(s, m.room, Entry(m, false));
    }
    SameLinesGenuine(SendToChannel(s, m), SayText(s, m));
  }

  lemma {:induction false} LeaveRoomsGenuine(s: State, k: Id, rs: seq<Id>)
    requires Genuine(s)
    ensures Genuine(LeaveRooms(s, k, rs))
    decreases |rs|
  {
    hide Genuine, Deliver, LeaveNotice;
    if rs != [] {
      var r := rs[0];
      if Subscribed(s, k, r) {
        var login := LoginOf(s, s.rooms[r].subs[k]);
        LeaveNoticeRoom(login, r);
        NotifyGenuine(s, r, LeaveNotice(login, r));
        SameLinesGenuine(Notify(s, r, LeaveNotice(login, r)), LeaveRoom(s, k, r));
      }
      LeaveRoomsGenuine(LeaveRoom(s, k, r), k, rs[1..]);
    }
  }

  lemma FreeGenuine(s: State, h: Handle)
    requires h in s.conns && Genuine(s)
    ensures Genuine(Free(s, h))
  {
    hide Genuine, LeaveRooms;
    var k := s.conns[h].clientId;
    var rs := if k in s.memberOf then s.memberOf[k] else [];
    LeaveRoomsGenuine(s, k, rs);
    LeaveRoomsNone(s, k);
    SameLinesGenuine(LeaveRooms(s, k, rs), Free(s, h));
  }

  lemma TaskGenuine(s: State, t: Task)
    requires Runnable(s, t) && RoomsSound(s) && Genuine(s)
    ensures Genuine(RunTask(s, t).state)
  {
    hide Free, JoinRoom, SayText, Register, CheckClient, RoomsSound, Genuine;
    var s' := RunTask(s, t).state;
    match t
    case DoAutorisation(h, request) =>
      if request.InRequest? {
        SameLinesGenuine(s, s');
      } else {
        FreeGenuine(s, h);
      }
    case DoRegistration(h, request) =>
      if request.RegRequest? {
        SameLinesGenuine(s, s');
      } else {
        FreeGenuine(s, h);
      }
    case DoJoinRoom(h, request) =>
      if request.JoinRoomRequest? {
        JoinGenuine(s, h, request.roomId);
      }
    case DoTextMsg(_, request) =>
      if request.TextRequest? {
        TextGenuine(s, Text(request.roomId, request.login, request.text));
      }
    case SendAutoResponse(_, _) => SameLinesGenuine(s, s');
    case SendRegResponse(_, _) => SameLinesGenuine(s, s');
    case SendJoinRoomResponse(_, _, _) => SameLinesGenuine(s, s');
  }

  lemma AcceptGenuine(s: State, h: Handle, id: Id)
    requires h !in s.conns && Genuine(s)
    ensures Genuine(s.(conns := s.conns[h := Conn(id, [], 0, true, [], [], [])]))
  {
    hide EntryReal;
    var s' := s.(conns := s.conns[h := Conn(id, [], 0, true, [], [], [])]);
    assert forall m :: InHistory(s', m) <==> InHistory(s, m);
    forall g | g in s'.conns ensures AllInHistory(s', s'.conns[g].handed) {
      assert g != h ==> AllInHistory(s, s.conns[g].handed);
    }
  }

  lemma StepGenuine(sys: Sys, e: Event)
    requires Enabled(sys, e) && RoomsSound(sys.state) && Genuine(sys.state)
    ensures Genuine(NextState(sys, e))
  {
    hide Free, RunTask, RoomsSound, Genuine;
    match e
    case Accept(h, id) => AcceptGenuine(sys.state, h, id);
    case Receive(_, _) =>
    case Execute(t) => TaskGenuine(sys.state, t);
    case Drop(h) => FreeGenuine(sys.state, h);
    case Written(h, ok) => FreeGenuine(sys.state, h);
  }

  /** Over every run, what connections are handed is in the history of its room, and the notices there
      are notices of somebody joining or leaving. */
  lemma {:induction false} RunsAreGenuine(sys: Sys, es: seq<Event>)
    requires IsRun(sys, es) && Consistent(sys.state) && Genuine(sys.state)
    ensures Genuine(Run(sys, es).state)
    decreases |es|
  {
    hide Genuine, Enabled, NextState, RoomsSound, IndexAgrees, Archived, Connected;
    if es != [] {
      StepKeepsConsistent(sys, es[0]);
      StepGenuine(sys, es[0]);
      RunsAreGenuine(Step(sys, es[0]), es[1..]);
    }
  }

  // ------------------------------------------------- from client back to sender

  lemma {:induction false} ForRoomHas(ms: seq<Text>, r: Id, m: Text)
    requires m in ForRoom(ms, r)
    ensures m in ms && m.room == r
  {
    if ms != [] && m in ForRoom(ms[..|ms| - 1], r) {
      ForRoomHas(ms[..|ms| - 1], r, m);
    }
  }

  lemma {:induction false} SentHas(es: seq<Entry>, i: nat)
    requires i < |es| && !es[i].notice
    ensures es[i].data in Sent(es)
  {
    if i < |es| - 1 {
      SentHas(es[..|es| - 1], i);
    }
  }

  lemma {:induction false} LineHasTask(ts: seq<Task>, m: Text) returns (t: Task)
    requires m in LinesOf(ts)
    ensures t in ts && IsText(t) && LineOf(t) == [m]
  {
    if m in LineOf(ts[0]) {
      t := ts[0];
    } else {
      t := LineHasTask(ts[1..], m);
    }
  }

  lemma {:induction false} TaskHasLine(ts: seq<Task>, t: Task, m: Text)
    requires t in ts && LineOf(t) == [m]
    ensures m in LinesOf(ts)
  {
    if ts[0] != t {
      TaskHasLine(ts[1..], t, m);
    }
  }

  /** A line that a run has stored was stored at the start or received. */
  lemma StoredWasReceived(rows: seq<Text>, accounts: seq<Account>, es: seq<Event>, m: Text)
    requires IsRun(Started(rows, accounts), es) && m in Run(Started(rows, accounts), es).state.rows
    ensures m in rows || m in LinesOf(Received(es))
  {
    hide IsRun, Run, Executed, Received, LinesOf, LineOf, IsText;
    TextsConserved(Started(rows, accounts), es);
    if m !in rows {
      assert m in LinesOf(Executed(es));
      var t := LineHasTask(Executed(es), m);
      assert multiset(Executed(es))[t] > 0;
      assert multiset(Received(es))[t] > 0;
      assert t in Received(es);
      TaskHasLine(Received(es), t, m);
    }
  }

  /** A line of a room's history is a notice of the room or is stored. */
  lemma HistoryIsStored(s: State, r: Id, m: Text)
    requires NoticesReal(s) && Archived(s) && m in HistoryOf(s, r)
    ensures Announces(Entry(m, true), r) || m in s.rows
  {
    hide Announces, Sent, ForRoom;
    var history := s.rooms[r].history;
    var i :| 0 <= i < |history| && Lines(history)[i] == m;
    assert EntryReal(history[i], r);
    if history[i].notice {
      assert history[i] == Entry(m, true);
    } else {
      SentHas(history, i);
      ForRoomHas(s.rows, r, m);
    }
  }

  /** In every run, whatever a client remembers of a room is a line that was stored for it at the start,
      a text received since, or the notice of somebody joining or leaving it: nothing on the way
      from server to client invents or alters a line. */
  lemma NothingInvented(
    rows: seq<Text>, accounts: seq<Account>, es: seq<Event>, h: Handle, r: Id, rs: seq<ServerResponse>, wire: Bytes, m: Text)
    requires IsRun(Started(rows, accounts), es)
    requires var sys := Run(Started(rows, accounts), es);
             h in sys.state.conns && h in sys.out && OnSocket(sys.out[h], sys.state.conns[h], rs, wire)
    requires m in Client.HistoryOf(Client.Consume(Client.FRESH, wire), r)
    ensures m.room == r && (m in rows || m in LinesOf(Received(es)) || Announces(Entry(m, true), r))
  {
    hide IsRun, Run, OnSocket, Client.Consume, Client.HistoryOf, ForRoom, LinesOf, Received, Announces,
      IndexAgrees, RoomsSound, Archived, Connected, NoticesReal, HistoryOf;
    var start := Started(rows, accounts);
    var sys := Run(start, es);
    var s := sys.state;
    assert Leads(start, es, sys);
    ClientFollowsServer(sys, h, r, rs, wire);
    assert m in ForRoom(s.conns[h].handed, r);
    ForRoomHas(s.conns[h].handed, r, m);
    StartedIsConsistent(rows, accounts);
    RunsAreConsistent(start, es);
    StartedGenuine(rows, accounts);
    RunsAreGenuine(start, es);
    assert AllInHistory(s, s.conns[h].handed) && InHistory(s, m);
    HistoryIsStored(s, r, m);
    if m in s.rows {
      StoredWasReceived(rows, accounts, es, m);
    }
  }

  lemma StartedGenuine(rows: seq<Text>, accounts: seq<Account>)
    ensures Genuine(Started(rows, accounts).state)
  {
  }
}
