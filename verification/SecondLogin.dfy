/** A run in which a second login leads to duplicated messages. */
module SecondLogin {
  import opened Basics
  import opened Messages
  import opened MsgFactory
  import opened Rooms
  import opened RoomLaws
  import opened Accounts
  import opened Server
  import opened EndToEnd
  import Reader = ServerReader

  // ------------------------------------------------------- putting runs together

  lemma {:induction false} RunConcat(sys: Sys, a: seq<Event>, b: seq<Event>)
    requires IsRun(sys, a) && IsRun(Run(sys, a), b)
    ensures IsRun(sys, a + b) && Run(sys, a + b) == Run(Run(sys, a), b)
    decreases |a|
  {
    hide Enabled, Step;
    if a == [] {
      assert a + b == b;
    } else {
      assert (a + b)[0] == a[0] && (a + b)[1..] == a[1..] + b;
      RunConcat(Step(sys, a[0]), a[1..], b);
    }
  }

  lemma {:induction false} SteadyConcat(sys: Sys, a: seq<Event>, b: seq<Event>, h: Handle, r: Id)
    requires IsRun(sys, a) && IsRun(Run(sys, a), b) && IsRun(sys, a + b)
    ensures SteadyRunAt(sys, a + b, h, r) ==> SteadyRunAt(Run(sys, a), b, h, r)
    decreases |a|
  {
    hide Enabled, Step, SteadyAt;
    if a == [] {
      assert a + b == b;
    } else {
      assert (a + b)[0] == a[0] && (a + b)[1..] == a[1..] + b;
      SteadyConcat(Step(sys, a[0]), a[1..], b, h, r);
    }
  }

  /** A request is read and its task is the next that the pool runs. */
  function Serve(h: Handle, p: Reader.Posted): seq<Event>
    requires Reader.Known(p.command)
  {
    [Receive(h, p), Execute(TaskOf(h, p))]
  }

  lemma ServeRuns(sys: Sys, h: Handle, p: Reader.Posted)
    requires h in sys.state.conns && Reader.Known(p.command) && Runnable(sys.state, TaskOf(h, p))
    ensures IsRun(sys, Serve(h, p))
    ensures Run(sys, Serve(h, p)).state == RunTask(sys.state, TaskOf(h, p)).state
    ensures forall r :: SteadyRunAt(sys, Serve(h, p), h, r) ==>
              TaskOf(h, p) == DoJoinRoom(h, JoinRoomRequest(r)) ==> !JoinsTwice(sys.state, h, r)
  {
    hide Enqueue, TaskOf, RunTask, JoinsTwice, Runnable;
    ArrivalParts(sys, h, p);
    var es, next := Serve(h, p), Step(sys, Receive(h, p));
    assert es[1..] == [Execute(TaskOf(h, p))] && es[1..][1..] == [];
    assert Enabled(next, es[1]);
    assert IsRun(Step(next, es[1]), []);
    assert IsRun(next, es[1..]);
    assert Run(next, es[1..]) == Run(Step(next, es[1]), []);
    forall r | SteadyRunAt(sys, es, h, r) && TaskOf(h, p) == DoJoinRoom(h, JoinRoomRequest(r))
      ensures !JoinsTwice(sys.state, h, r)
    {
      assert SteadyRunAt(next, es[1..], h, r);
      assert SteadyAt(next, es[1], h, r);
    }
  }

  // --------------------------------------------------------------- the run

  const START := Started([], [Account([65], 2, [])])
  const JOIN := Reader.Posted(JOIN_ROOM_REQUEST, JoinRoomRequest(5))
  const LOGIN := Reader.Posted(AUTHORISATION_REQUEST, InRequest([65], []))
  const ENTERS := [Accept(7, 1)] + Serve(7, JOIN) + Serve(7, LOGIN)

  lemma AcceptRuns()
    ensures IsRun(START, [Accept(7, 1)])
    ensures Run(START, [Accept(7, 1)]).state == START.state.(conns := map[7 := NEWCOMER])
  {
    var next := Step(START, Accept(7, 1));
    assert [Accept(7, 1)][1..] == [];
    assert IsRun(next, []) && Run(next, []) == next;
    assert map[][7 := NEWCOMER] == map[7 := NEWCOMER];
  }

  lemma RepeatTwice(m: Text)
    ensures Repeat(m, 1) == [m] && Repeat(m, 2) == [m, m]
  {
    assert Repeat(m, 1) == Repeat(m, 0) + [m];
    assert Repeat(m, 2) == Repeat(m, 1) + [m];
  }

  lemma FirstJoin(s: State)
    requires s.rooms == map[] && s.rows == [] && s.conns == map[7 := NEWCOMER]
    ensures var s', e := JoinRoom(s, 7, 5), JoinNotice([], 5);
            && 5 in s'.rooms && s'.rooms[5] == Room(5, map[1 := 7], [e])
            && 7 in s'.conns && s'.conns[7] == Conn(1, [], 5, true, [e.data], [5], [])
            && s'.accounts == s.accounts
  {
    hide Repeat, JoinNotice;
    JoinEffect(s, 7, 5);
    assert Load([], 5) == [];
    assert KeysOf(map[1 := 7], 7) == {1};
    RepeatTwice(JoinNotice([], 5).data);
  }

  lemma SecondJoin(s: State, e: Entry)
    requires 5 in s.rooms && s.rooms[5] == Room(5, map[1 := 7], [e])
    requires 7 in s.conns && s.conns[7] == Conn(2, [65], 5, true, [e.data], [5], [])
    ensures var s', f := JoinRoom(s, 7, 5), JoinNotice([65], 5);
            && 5 in s'.rooms && s'.rooms[5] == Room(5, map[1 := 7, 2 := 7], [e, f])
            && 7 in s'.conns && s'.conns[7].handed == [e.data, e.data, f.data, f.data]
  {
    hide Repeat, JoinNotice;
    JoinEffect(s, 7, 5);
    assert KeysOf(map[1 := 7, 2 := 7], 7) == {1, 2};
    RepeatTwice(JoinNotice([65], 5).data);
    assert Lines([e]) == [e.data];
  }

  lemma NoticeParts()
    ensures forall l, r :: JoinNotice(l, r).data.room == r && JoinNotice(l, r).data.login == l
  {
  }

  /** What is delivered by the second join is not explained by the room's history. */
  lemma SecondJoinBreaks(s: State, e: Entry)
    requires 5 in s.rooms && s.rooms[5] == Room(5, map[1 := 7], [e]) && e == JoinNotice([], 5)
    requires 7 in s.conns && s.conns[7] == Conn(2, [65], 5, true, [e.data], [5], [])
    ensures JoinsTwice(s, 7, 5)
    ensures var s' := JoinRoom(s, 7, 5);
            && HistoryOf(s', 5) == [e.data, JoinNotice([65], 5).data]
            && 7 in s'.conns
            && s'.conns[7].handed == [e.data, e.data, JoinNotice([65], 5).data, JoinNotice([65], 5).data]
            && !ExplainedAt(s', 7, 5)
  {
    hide JoinRoom, JoinNotice;
    SecondJoin(s, e);
    assert Under(s, 1, 5, 7);
    var s' := JoinRoom(s, 7, 5);
    NoticeParts();
    ForRoomUniform(s'.conns[7].handed, 5, 5);
    assert Under(s', 2, 5, 7);
    LiveEndsWithHistory(s', 7, 5);
    assert s'.conns[7].handed[2..][0] != HistoryOf(s', 5)[0];
  }

  /** The connection joins the room under the id it has, and then logs in to the account. */
  lemma EnterRuns()
    ensures IsRun(START, ENTERS)
    ensures var s, e := Run(START, ENTERS).state, JoinNotice([], 5);
            && 5 in s.rooms && s.rooms[5] == Room(5, map[1 := 7], [e])
            && 7 in s.conns && s.conns[7] == Conn(2, [65], 5, true, [e.data], [5], [])
  {
    hide IsRun, Run, JoinRoom, JoinNotice, Serve, SteadyRunAt;
    AcceptRuns();
    var first := [Accept(7, 1)];
    var s1 := Run(START, first);
    ServeRuns(s1, 7, JOIN);
    FirstJoin(s1.state);
    RunConcat(START, first, Serve(7, JOIN));
    var s2 := Run(START, first + Serve(7, JOIN));
    ServeRuns(s2, 7, LOGIN);
    RunConcat(START, first + Serve(7, JOIN), Serve(7, LOGIN));
    assert CheckClient([Account([65], 2, [])], [65], []) == 2;
  }

  /** A run of a server with one account: a connection joins a room, logs in under the account's id and
      joins the room again. It is sent the second notice twice, so the room's history no longer
      explains what it was handed. It is the second join that does it, not the login. */
  lemma ReloginDuplicates()
    ensures IsRun(START, ENTERS) && IsRun(START, ENTERS + Serve(7, JOIN))
    ensures 7 in Run(START, ENTERS).state.conns && JoinsTwice(Run(START, ENTERS).state, 7, 5)
    ensures !SteadyRunAt(START, ENTERS + Serve(7, JOIN), 7, 5)
    ensures var s := Run(START, ENTERS + Serve(7, JOIN)).state;
            var first, second := JoinNotice([], 5).data, JoinNotice([65], 5).data;
            && HistoryOf(s, 5) == [first, second]
            && 7 in s.conns && s.conns[7].handed == [first, first, second, second]
            && !ExplainedAt(s, 7, 5)
  {
    hide IsRun, Run, JoinRoom, JoinNotice, Serve, SteadyRunAt, ExplainedAt, JoinsTwice, HistoryOf;
    EnterRuns();
    var sys := Run(START, ENTERS);
    SecondJoinBreaks(sys.state, JoinNotice([], 5));
    ServeRuns(sys, 7, JOIN);
    RunConcat(START, ENTERS, Serve(7, JOIN));
    SteadyConcat(START, ENTERS, Serve(7, JOIN), 7, 5);
  }
}
