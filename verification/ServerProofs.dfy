/** What holds in every reachable state of the server. */
module ServerProofs {
  import opened Basics
  import opened Rooms
  import opened RoomProofs
  import opened RoomLaws
  import opened Accounts
  import opened Server

  // ------------------------------------------------------------ nothing is lost

  predicate RoomExtends(a: Room, b: Room) {
    a.id == b.id && a.history <= b.history
  }

  predicate ConnExtends(a: Conn, b: Conn) {
    a.handed <= b.handed && a.joined <= b.joined && a.direct <= b.direct
  }

  /** Channels stay and their histories only grow; so do tables and the records of connections. */
  ghost predicate Extends(s: State, s': State) {
    && (forall r :: r in s.rooms ==> r in s'.rooms && RoomExtends(s.rooms[r], s'.rooms[r]))
    && (forall h :: h in s.conns ==> h in s'.conns && ConnExtends(s.conns[h], s'.conns[h]))
    && s.rows <= s'.rows && s.accounts <= s'.accounts && s.counter <= s'.counter
  }

  lemma ExtendsTransitive(a: State, b: State, c: State)
    requires Extends(a, b) && Extends(b, c)
    ensures Extends(a, c)
  {
    forall r | r in a.rooms ensures r in c.rooms && RoomExtends(a.rooms[r], c.rooms[r]) {
      assert RoomExtends(a.rooms[r], b.rooms[r]) && RoomExtends(b.rooms[r], c.rooms[r]);
    }
    forall h | h in a.conns ensures h in c.conns && ConnExtends(a.conns[h], c.conns[h]) {
      assert ConnExtends(a.conns[h], b.conns[h]) && ConnExtends(b.conns[h], c.conns[h]);
    }
  }

  lemma NotifyExtends(s: State, r: Id, e: Entry)
    requires r in s.rooms
    ensures Extends(s, Notify(s, r, e))
  {
  }

  lemma JoinExtends(s: State, h: Handle, r: Id)
    requires h in s.conns
    ensures Extends(s, JoinRoom(s, h, r))
  {
    hide Notify;
    var s1 := Enrol(Open(s, r), h, r);
    EnrolExtends(s, h, r);
    NotifyExtends(s1, r, JoinNotice(s.conns[h].login, r));
    ExtendsTransitive(s, s1, JoinRoom(s, h, r));
  }

  lemma EnrolExtends(s: State, h: Handle, r: Id)
    requires h in s.conns
    ensures Extends(s, Enrol(Open(s, r), h, r))
  {
    hide Load, Lines;
  }

  lemma TextExtends(s: State, m: Text)
    ensures Extends(s, SayText(s, m))
  {
    if m.room in s.rooms {
      NotifyExtends(s, m.room, Entry(m, false));
    }
  }

  lemma {:induction false} LeaveRoomsExtends(s: State, k: Id, rs: seq<Id>)
    ensures Extends(s, LeaveRooms(s, k, rs))
    decreases |rs|
  {
    if rs != [] {
      var s1 := LeaveRoom(s, k, rs[0]);
      if Subscribed(s, k, rs[0]) {
        NotifyExtends(s, rs[0], LeaveNotice(LoginOf(s, s.rooms[rs[0]].subs[k]), rs[0]));
      }
      LeaveRoomsExtends(s1, k, rs[1..]);
      ExtendsTransitive(s, s1, LeaveRooms(s1, k, rs[1..]));
    }
  }

  lemma FreeExtends(s: State, h: Handle)
    requires h in s.conns
    ensures Extends(s, Free(s, h))
  {
    var k := s.conns[h].clientId;
    LeaveRoomsExtends(s, k, if k in s.memberOf then s.memberOf[k] else []);
  }

  lemma TaskExtends(s: State, t: Task)
    requires Runnable(s, t)
    ensures Extends(s, RunTask(s, t).state)
  {
    hide Free, JoinRoom, SayText, Register, CheckClient;
    match t
    case DoAutorisation(h, request) =>
      if !request.InRequest? {
        FreeExtends(s, h);
      }
    case DoRegistration(h, request) =>
      if !request.RegRequest? {
        FreeExtends(s, h);
      } else {
        RegisterExtends(s.accounts, s.counter, request.login, request.password);
      }
    case DoJoinRoom(h, request) =>
      if request.JoinRoomRequest? {
        JoinExtends(s, h, request.roomId);
      }
    case DoTextMsg(h, request) =>
      if request.TextRequest? {
        TextExtends(s, Text(request.roomId, request.login, request.text));
      }
    case SendAutoResponse(_, _) =>
    case SendRegResponse(_, _) =>
    case SendJoinRoomResponse(_, _, _) =>
  }

  lemma RegisterExtends(rows: seq<Account>, counter: nat, login: Bytes, password: Bytes)
    requires CanRegister(rows, counter, login)
    ensures rows <= Register(rows, counter, login, password).rows
    ensures counter <= Register(rows, counter, login, password).counter
  {
  }

  lemma StepExtends(sys: Sys, e: Event)
    requires Enabled(sys, e)
    ensures Extends(sys.state, NextState(sys, e))
  {
    hide Free, RunTask;
    match e
    case Accept(_, _) =>
    case Receive(_, _) =>
    case Execute(t) => TaskExtends(sys.state, t);
    case Drop(h) => FreeExtends(sys.state, h);
    case Written(h, ok) => FreeExtends(sys.state, h);
  }

  /** Channels are never replaced or removed and no history, table or record ever loses a line. */
  lemma {:induction false} RunExtends(sys: Sys, es: seq<Event>)
    requires IsRun(sys, es)
    ensures Extends(sys.state, Run(sys, es).state)
    decreases |es|
  {
    if es != [] {
      StepExtends(sys, es[0]);
      RunExtends(Step(sys, es[0]), es[1..]);
      ExtendsTransitive(sys.state, Step(sys, es[0]).state, Run(sys, es).state);
    }
  }

  // ------------------------------------------------- what every run keeps

  ghost predicate Consistent(s: State) {
    IndexAgrees(s) && RoomsSound(s) && Archived(s) && Connected(s)
  }

  predicate SameRooms(s: State, s': State) {
    s'.rooms == s.rooms && s'.memberOf == s.memberOf && s'.loginOf == s.loginOf && s'.rows == s.rows
  }

  lemma SameRoomsKeeps(s: State, s': State)
    requires SameRooms(s, s') && s.conns.Keys <= s'.conns.Keys && Consistent(s)
    ensures Consistent(s')
  {
    LiveDependsOnRooms(s, s');
    assert forall k, r :: Listed(s', k, r) <==> Listed(s, k, r);
  }

  lemma TaskKeepsConsistent(s: State, t: Task)
    requires Runnable(s, t) && Consistent(s)
    ensures Consistent(RunTask(s, t).state)
  {
    hide Free, JoinRoom, SayText, Register, CheckClient, IndexAgrees, RoomsSound, Archived, Connected;
    var s' := RunTask(s, t).state;
    match t
    case DoAutorisation(h, request) =>
      if request.InRequest? {
        SameRoomsKeeps(s, s');
      } else {
        FreeKeeps(s, h);
      }
    case DoRegistration(h, request) =>
      if request.RegRequest? {
        SameRoomsKeeps(s, s');
      } else {
        FreeKeeps(s, h);
      }
    case DoJoinRoom(h, request) =>
      if request.JoinRoomRequest? {
        JoinKeeps(s, h, request.roomId);
      }
    case DoTextMsg(h, request) =>
      if request.TextRequest? {
        TextKeeps(s, Text(request.roomId, request.login, request.text));
      }
    case SendAutoResponse(_, _) => SameRoomsKeeps(s, s');
    case SendRegResponse(_, _) => SameRoomsKeeps(s, s');
    case SendJoinRoomResponse(_, _, _) => SameRoomsKeeps(s, s');
  }

  lemma StepKeepsConsistent(sys: Sys, e: Event)
    requires Enabled(sys, e) && Consistent(sys.state)
    ensures Consistent(NextState(sys, e))
  {
    hide Free, RunTask, IndexAgrees, RoomsSound, Archived, Connected;
    match e
    case Accept(_, _) => SameRoomsKeeps(sys.state, NextState(sys, e));
    case Receive(_, _) =>
    case Execute(t) => TaskKeepsConsistent(sys.state, t);
    case Drop(h) => FreeKeeps(sys.state, h);
    case Written(h, ok) => FreeKeeps(sys.state, h);
  }

  /** Over every run, whatever the order in which the pool picks tasks: a client is a subscriber of a
      room exactly when the room is in the client's list; the login index has the same clients;
      channels and their lines carry their own key; and apart from notices the memory of a
      channel is what is stored for its room. */
  lemma {:induction false} RunsAreConsistent(sys: Sys, es: seq<Event>)
    requires IsRun(sys, es) && Consistent(sys.state)
    ensures Consistent(Run(sys, es).state)
    decreases |es|
  {
    if es != [] {
      StepKeepsConsistent(sys, es[0]);
      RunsAreConsistent(Step(sys, es[0]), es[1..]);
    }
  }

  lemma StartedIsConsistent(rows: seq<Text>, accounts: seq<Account>)
    ensures Consistent(Started(rows, accounts).state)
    ensures forall h, r :: FairAt(Started(rows, accounts).state, h, r)
  {
  }

  // -------------------------------------------------------- steady runs

  lemma AcceptKeepsFair(s: State, h': Handle, id: Id, h: Handle, r: Id)
    requires h' !in s.conns && Connected(s) && FairAt(s, h, r)
    ensures FairAt(s.(conns := s.conns[h' := Conn(id, [], 0, true, [], [], [])]), h, r)
  {
    hide ForRoom, Count;
    var c := Conn(id, [], 0, true, [], [], []);
    var s' := s.(conns := s.conns[h' := c]);
    LiveDependsOnRooms(s, s');
    if h == h' {
      assert !Live(s, h, r);
      NothingYet(r);
      assert Explains([], ForRoom(c.handed, r), Count(c.joined, r), HistoryOf(s', r), Live(s', h, r));
    } else {
      SameSightFair(s, s', h, r);
    }
  }

  lemma NothingYet(r: Id)
    ensures ForRoom([], r) == [] && Count([], r) == 0
  {
  }

  lemma TaskKeepsFair(sys: Sys, t: Task, h: Handle, r: Id)
    requires Enabled(sys, Execute(t)) && SteadyAt(sys, Execute(t), h, r) && Consistent(sys.state) && FairAt(sys.state, h, r)
    ensures FairAt(RunTask(sys.state, t).state, h, r)
  {
    hide Free, JoinRoom, SayText, Register, CheckClient, IndexAgrees, RoomsSound, Archived, Connected, FairAt, JoinsTwice;
    var s := sys.state;
    var s' := RunTask(s, t).state;
    match t
    case DoAutorisation(g, request) =>
      if request.InRequest? {
        SameTrafficFair(s, s', h, r);
      } else {
        FreeFair(s, g, h, r);
      }
    case DoRegistration(g, request) =>
      if request.RegRequest? {
        SameTrafficFair(s, s', h, r);
      } else {
        FreeFair(s, g, h, r);
      }
    case DoJoinRoom(g, request) =>
      if request.JoinRoomRequest? {
        JoinFair(s, g, request.roomId, h, r);
      }
    case DoTextMsg(_, request) =>
      if request.TextRequest? {
        TextFair(s, Text(request.roomId, request.login, request.text), h, r);
      }
    case SendAutoResponse(_, _) => SameTrafficFair(s, s', h, r);
    case SendRegResponse(_, _) => SameTrafficFair(s, s', h, r);
    case SendJoinRoomResponse(_, _, _) => SameTrafficFair(s, s', h, r);
  }

  lemma StepKeepsFair(sys: Sys, e: Event, h: Handle, r: Id)
    requires Enabled(sys, e) && SteadyAt(sys, e, h, r) && Consistent(sys.state) && FairAt(sys.state, h, r)
    ensures FairAt(NextState(sys, e), h, r)
  {
    hide Free, RunTask, IndexAgrees, RoomsSound, Archived, Connected, FairAt, JoinsTwice;
    match e
    case Accept(g, id) => AcceptKeepsFair(sys.state, g, id, h, r);
    case Receive(_, _) =>
    case Execute(t) => TaskKeepsFair(sys, t, h, r);
    case Drop(g) => FreeFair(sys.state, g, h, r);
    case Written(g, ok) => FreeFair(sys.state, g, h, r);
  }

  /** Over every run in which a connection does not enter a room under a second id, whatever the others
      do and whatever it does in other rooms: all it was handed for the room is one prefix of the
      room's history for each time it joined, and while it is subscribed the last of them is the
      whole history. */
  lemma {:induction false} SteadyRunsAreFair(sys: Sys, es: seq<Event>, h: Handle, r: Id)
    requires IsRun(sys, es) && SteadyRunAt(sys, es, h, r) && Consistent(sys.state) && FairAt(sys.state, h, r)
    ensures FairAt(Run(sys, es).state, h, r)
    decreases |es|
  {
    hide Consistent, FairAt, SteadyAt;
    if es != [] {
      StepKeepsConsistent(sys, es[0]);
      StepKeepsFair(sys, es[0], h, r);
      SteadyRunsAreFair(Step(sys, es[0]), es[1..], h, r);
    }
  }

  // ------------------------------------------------- the exact condition

  /** The room's order of messages is safe for the connection at every point of a run. */
  ghost predicate AlwaysSafeAt(sys: Sys, es: seq<Event>, h: Handle, r: Id)
    requires IsRun(sys, es)
    decreases |es|
  {
    SafeAt(sys.state, h, r) && (es == [] || AlwaysSafeAt(Step(sys, es[0]), es[1..], h, r))
  }

  lemma StepSafe(sys: Sys, e: Event, h: Handle, r: Id)
    requires Enabled(sys, e) && Consistent(sys.state) && SafeAt(sys.state, h, r)
    ensures SafeAt(NextState(sys, e), h, r) <==> SteadyAt(sys, e, h, r)
  {
    hide SafeAt, IndexAgrees, Archived, FairAt, Connected, RoomsSound, JoinsTwice, JoinRoom;
    SafeExactly(sys.state, h, r);
    StepKeepsConsistent(sys, e);
    SafeExactly(NextState(sys, e), h, r);
    if SteadyAt(sys, e, h, r) {
      StepKeepsFair(sys, e, h, r);
    } else {
      JoinSafe(sys.state, h, r, h, r);
    }
  }

  /** The exact condition for one order of messages, for one connection and one room: from a consistent
      state in which it is safe, it stays safe at every point of the run, whatever might be said
      there, if and only if the connection never enters the room under a second id. */
  lemma {:induction false} SteadyExactlyAt(sys: Sys, es: seq<Event>, h: Handle, r: Id)
    requires IsRun(sys, es) && Consistent(sys.state) && SafeAt(sys.state, h, r)
    ensures SteadyRunAt(sys, es, h, r) <==> AlwaysSafeAt(sys, es, h, r)
    decreases |es|
  {
    hide Consistent, SafeAt, SteadyAt, Enabled;
    if es != [] {
      StepKeepsConsistent(sys, es[0]);
      StepSafe(sys, es[0], h, r);
      var next := Step(sys, es[0]);
      if SafeAt(next.state, h, r) {
        SteadyExactlyAt(next, es[1..], h, r);
      } else {
        assert !AlwaysSafeAt(next, es[1..], h, r);
      }
    }
  }

  lemma StartedIsSafe(rows: seq<Text>, accounts: seq<Account>, h: Handle, r: Id)
    ensures Consistent(Started(rows, accounts).state) && SafeAt(Started(rows, accounts).state, h, r)
  {
    hide SafeAt, FairAt;
    StartedIsConsistent(rows, accounts);
    SafeExactly(Started(rows, accounts).state, h, r);
  }

  /** So for a server that has just started, on any stored history and login table. */
  lemma StartedExactlyAt(rows: seq<Text>, accounts: seq<Account>, es: seq<Event>, h: Handle, r: Id)
    requires IsRun(Started(rows, accounts), es)
    ensures SteadyRunAt(Started(rows, accounts), es, h, r) <==> AlwaysSafeAt(Started(rows, accounts), es, h, r)
  {
    hide IsRun, SteadyRunAt, AlwaysSafeAt, SafeAt, Consistent;
    StartedIsSafe(rows, accounts, h, r);
    SteadyExactlyAt(Started(rows, accounts), es, h, r);
  }

  /** The order is safe for every connection in every room. */
  ghost predicate InOrderFromHere(s: State) {
    forall h, r :: SafeAt(s, h, r)
  }

  ghost predicate AlwaysInOrder(sys: Sys, es: seq<Event>)
    requires IsRun(sys, es)
    decreases |es|
  {
    InOrderFromHere(sys.state) && (es == [] || AlwaysInOrder(Step(sys, es[0]), es[1..]))
  }

  lemma {:induction false} SteadyForOne(sys: Sys, es: seq<Event>, h: Handle, r: Id)
    requires IsRun(sys, es) && SteadyRun(sys, es)
    ensures SteadyRunAt(sys, es, h, r)
    decreases |es|
  {
    hide SteadyAt, Enabled, Step;
    if es != [] {
      SteadyForOne(Step(sys, es[0]), es[1..], h, r);
    }
  }

  lemma {:induction false} SteadyForAll(sys: Sys, es: seq<Event>)
    requires IsRun(sys, es) && forall h, r :: SteadyRunAt(sys, es, h, r)
    ensures SteadyRun(sys, es)
    decreases |es|
  {
    hide SteadyAt, Enabled, Step;
    if es != [] {
      forall h, r ensures SteadyAt(sys, es[0], h, r) {
        assert SteadyRunAt(sys, es, h, r);
      }
      forall h, r ensures SteadyRunAt(Step(sys, es[0]), es[1..], h, r) {
        assert SteadyRunAt(sys, es, h, r);
      }
      SteadyForAll(Step(sys, es[0]), es[1..]);
    }
  }

  lemma {:induction false} SafeForOne(sys: Sys, es: seq<Event>, h: Handle, r: Id)
    requires IsRun(sys, es) && AlwaysInOrder(sys, es)
    ensures AlwaysSafeAt(sys, es, h, r)
    decreases |es|
  {
    hide SafeAt, Enabled, Step;
    if es != [] {
      SafeForOne(Step(sys, es[0]), es[1..], h, r);
    }
  }

  lemma {:induction false} SafeForAll(sys: Sys, es: seq<Event>)
    requires IsRun(sys, es) && forall h, r :: AlwaysSafeAt(sys, es, h, r)
    ensures AlwaysInOrder(sys, es)
    decreases |es|
  {
    hide SafeAt, Enabled, Step;
    forall h, r ensures SafeAt(sys.state, h, r) {
      assert AlwaysSafeAt(sys, es, h, r);
    }
    if es != [] {
      forall h, r ensures AlwaysSafeAt(Step(sys, es[0]), es[1..], h, r) {
        assert AlwaysSafeAt(sys, es, h, r);
      }
      SafeForAll(Step(sys, es[0]), es[1..]);
    }
  }

  /** The same for all connections and rooms together: the order is safe for all of them at every point
      of a run if and only if no connection enters any room under a second id. */
  lemma SteadyExactly(sys: Sys, es: seq<Event>)
    requires IsRun(sys, es) && Consistent(sys.state) && InOrderFromHere(sys.state)
    ensures SteadyRun(sys, es) <==> AlwaysInOrder(sys, es)
  {
    hide IsRun, SteadyRunAt, SteadyRun, AlwaysSafeAt, AlwaysInOrder, SafeAt, Consistent;
    if SteadyRun(sys, es) {
      forall h, r ensures AlwaysSafeAt(sys, es, h, r) {
        SteadyForOne(sys, es, h, r);
        assert SafeAt(sys.state, h, r);
        SteadyExactlyAt(sys, es, h, r);
      }
      SafeForAll(sys, es);
    }
    if AlwaysInOrder(sys, es) {
      forall h, r ensures SteadyRunAt(sys, es, h, r) {
        SafeForOne(sys, es, h, r);
        assert SafeAt(sys.state, h, r);
        SteadyExactlyAt(sys, es, h, r);
      }
      SteadyForAll(sys, es);
    }
  }

  lemma StartedExactly(rows: seq<Text>, accounts: seq<Account>, es: seq<Event>)
    requires IsRun(Started(rows, accounts), es)
    ensures SteadyRun(Started(rows, accounts), es) <==> AlwaysInOrder(Started(rows, accounts), es)
  {
    hide IsRun, SteadyRun, AlwaysInOrder, SafeAt, Consistent;
    forall h, r ensures SafeAt(Started(rows, accounts).state, h, r) {
      StartedIsSafe(rows, accounts, h, r);
    }
    StartedIsConsistent(rows, accounts);
    SteadyExactly(Started(rows, accounts), es);
  }

  // ------------------------------------------------------- joining once

  lemma {:induction false} CountPrefix(a: seq<Id>, b: seq<Id>, r: Id)
    requires a <= b
    ensures Count(a, r) <= Count(b, r)
    decreases |b|
  {
    if |a| == |b| {
      assert a == b;
    } else {
      CountPrefix(a, b[..|b| - 1], r);
    }
  }

  /** A join under a second id is at least the second join. */
  lemma SecondIdIsSecondJoin(sys: Sys, e: Event, h: Handle, r: Id)
    requires Enabled(sys, e) && FairAt(sys.state, h, r) && !SteadyAt(sys, e, h, r)
    ensures h in NextState(sys, e).conns && Count(NextState(sys, e).conns[h].joined, r) >= 2
  {
    hide JoinRoom, Live, ForRoom, Count, OnceAt;
    var s := sys.state;
    JoinEffect(s, h, r);
    CountAppend(s.conns[h].joined, r, r);
    LiveHasJoined(s, h, r);
  }

  /** A connection that has joined a room at most once by the end of a run never entered it under a
      second id. */
  lemma {:induction false} OneJoinIsSteady(sys: Sys, es: seq<Event>, h: Handle, r: Id)
    requires IsRun(sys, es) && Consistent(sys.state) && FairAt(sys.state, h, r)
    requires h in Run(sys, es).state.conns && Count(Run(sys, es).state.conns[h].joined, r) <= 1
    ensures SteadyRunAt(sys, es, h, r)
    decreases |es|
  {
    hide Consistent, FairAt, SteadyAt, Enabled, NextState, Count;
    if es != [] {
      var e, next := es[0], Step(sys, es[0]);
      StepKeepsConsistent(sys, e);
      if SteadyAt(sys, e, h, r) {
        StepKeepsFair(sys, e, h, r);
        OneJoinIsSteady(next, es[1..], h, r);
      } else {
        SecondIdIsSecondJoin(sys, e, h, r);
        RunExtends(next, es[1..]);
        assert ConnExtends(next.state.conns[h], Run(next, es[1..]).state.conns[h]);
        CountPrefix(next.state.conns[h].joined, Run(next, es[1..]).state.conns[h].joined, r);
        assert false;
      }
    }
  }

  // ------------------------------------------------------ reachable states

  /** The indexes agree, channels are sound and the archive is faithful in every reachable state. */
  lemma ReachableIsConsistent(sys: Sys)
    requires Reachable(sys)
    ensures Consistent(sys.state)
  {
    var rows, accounts, es :| Leads(Started(rows, accounts), es, sys);
    StartedIsConsistent(rows, accounts);
    RunsAreConsistent(Started(rows, accounts), es);
  }

  /** In every state reached while a connection did not enter a room under a second id, its lines of
      the room are explained by the room's history: a subscriber was handed all of it last, exactly
      it if it joined once, and who joined at most once a prefix of it. */
  lemma OneOrderForAll(sys: Sys, h: Handle, r: Id)
    requires SteadilyReachable(sys, h, r) && h in sys.state.conns
    ensures var s := sys.state;
            var mine := ForRoom(s.conns[h].handed, r);
            && ExplainedAt(s, h, r)
            && (Live(s, h, r) ==> EndsWith(mine, HistoryOf(s, r)))
            && (Live(s, h, r) && Count(s.conns[h].joined, r) == 1 ==> mine == HistoryOf(s, r))
            && (Count(s.conns[h].joined, r) <= 1 ==> mine <= HistoryOf(s, r))
  {
    hide IsRun, Run, SteadyRunAt, Consistent, OnceAt;
    var rows, accounts, es :| LeadsSteadily(Started(rows, accounts), es, sys, h, r);
    StartedIsConsistent(rows, accounts);
    SteadyRunsAreFair(Started(rows, accounts), es, h, r);
    var s := sys.state;
    LiveEndsWithHistory(s, h, r);
    if Count(s.conns[h].joined, r) <= 1 {
      OneJoinIsPrefix(s, h, r);
    }
  }

  /** For a connection that joined a room at most once every reachable state is such a state. */
  lemma OneJoinSuffices(sys: Sys, h: Handle, r: Id)
    requires Reachable(sys) && h in sys.state.conns && Count(sys.state.conns[h].joined, r) <= 1
    ensures SteadilyReachable(sys, h, r)
  {
    hide IsRun, Run, SteadyRunAt, Consistent, FairAt;
    var rows, accounts, es :| Leads(Started(rows, accounts), es, sys);
    StartedIsConsistent(rows, accounts);
    OneJoinIsSteady(Started(rows, accounts), es, h, r);
    assert LeadsSteadily(Started(rows, accounts), es, sys, h, r);
  }

  /** In every reachable state, of any two connections that joined a room at most once, one was handed
      a prefix of what the other was; two subscribers were handed the same. */
  lemma ConnectionsAgree(sys: Sys, h: Handle, h': Handle, r: Id)
    requires Reachable(sys) && h in sys.state.conns && h' in sys.state.conns
    requires Count(sys.state.conns[h].joined, r) <= 1 && Count(sys.state.conns[h'].joined, r) <= 1
    ensures var mine, yours := ForRoom(sys.state.conns[h].handed, r), ForRoom(sys.state.conns[h'].handed, r);
            && (mine <= yours || yours <= mine)
            && (Live(sys.state, h, r) && Live(sys.state, h', r) ==> mine == yours)
  {
    hide ForRoom, Count, Reachable, SteadilyReachable;
    OneJoinSuffices(sys, h, r);
    OneJoinSuffices(sys, h', r);
    OneOrderForAll(sys, h, r);
    OneOrderForAll(sys, h', r);
    LiveHasJoined(sys.state, h, r);
    LiveHasJoined(sys.state, h', r);
  }

  /** In every state that is reached without a connection entering a room under a second id, any two
      subscribers of the room were handed its whole history last, however often they joined. */
  lemma SubscribersAgree(sys: Sys, h: Handle, h': Handle, r: Id)
    requires SteadilyReachable(sys, h, r) && SteadilyReachable(sys, h', r)
    requires h in sys.state.conns && h' in sys.state.conns && Live(sys.state, h, r) && Live(sys.state, h', r)
    ensures var mine, yours, n := ForRoom(sys.state.conns[h].handed, r), ForRoom(sys.state.conns[h'].handed, r), |HistoryOf(sys.state, r)|;
            && n <= |mine| && n <= |yours| && mine[|mine| - n..] == yours[|yours| - n..] == HistoryOf(sys.state, r)
  {
    hide ForRoom, Count, SteadilyReachable;
    OneOrderForAll(sys, h, r);
    OneOrderForAll(sys, h', r);
  }

  lemma LiveHasJoined(s: State, h: Handle, r: Id)
    ensures h in s.conns && ExplainedAt(s, h, r) && Live(s, h, r) ==> Count(s.conns[h].joined, r) > 0
  {
  }
}
