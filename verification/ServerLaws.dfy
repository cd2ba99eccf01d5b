/** Accounts, responses and outgoing queues over whole runs of the server. */
module ServerLaws {
  import opened Basics
  import opened Messages
  import opened MsgFactory
  import opened Rooms
  import opened RoomProofs
  import opened RoomLaws
  import opened Accounts
  import opened Server
  import opened ServerProofs
  import Reader = ServerReader
  import Queues = SendQueue

  // ------------------------------------------------------- outgoing queues

  /** Each connection's queue is in order and was given the frames of exactly the lines handed to it. */
  ghost predicate Matches(out: map<Handle, Queues.Queue>, s: State) {
    && out.Keys == s.conns.Keys
    && (forall h :: h in out ==> Queues.Valid(out[h]) && out[h].added == TextFrames(s.conns[h].handed))
  }

  ghost predicate QueuesSound(sys: Sys) {
    Matches(sys.out, sys.state)
  }

  lemma {:induction false} AddAllKeepsValid(q: Queues.Queue, bs: seq<Bytes>)
    requires Queues.Valid(q)
    ensures Queues.Valid(AddAll(q, bs)) && AddAll(q, bs).added == q.added + bs
  {
    if bs != [] {
      var front := bs[..|bs| - 1];
      AddAllKeepsValid(q, front);
      Queues.AddKeepsValid(AddAll(q, front), bs[|bs| - 1]);
      assert q.added + front + [bs[|bs| - 1]] == q.added + bs;
    }
  }

  lemma FramesOfNewLines(s: State, s': State, h: Handle)
    requires h in s.conns && h in s'.conns && s.conns[h].handed <= s'.conns[h].handed
    ensures TextFrames(s.conns[h].handed) + TextFrames(NewLines(s, s', h)) == TextFrames(s'.conns[h].handed)
  {
    hide TextFrame;
    var a, b := s.conns[h].handed, s'.conns[h].handed;
    assert forall i :: 0 <= i < |a| ==> a[i] == b[i];
  }

  lemma EnqueueOne(out: map<Handle, Queues.Queue>, s: State, s': State, h: Handle)
    requires Matches(out, s) && Extends(s, s') && h in s'.conns
    requires h !in s.conns ==> s'.conns[h].handed == []
    ensures var q := AddAll(QueueOf(out, h), TextFrames(NewLines(s, s', h)));
            Queues.Valid(q) && q.added == TextFrames(s'.conns[h].handed)
  {
    hide TextFrame;
    AddAllKeepsValid(QueueOf(out, h), TextFrames(NewLines(s, s', h)));
    if h in s.conns {
      assert ConnExtends(s.conns[h], s'.conns[h]);
      FramesOfNewLines(s, s', h);
    }
  }

  lemma EnqueueMatches(out: map<Handle, Queues.Queue>, s: State, s': State)
    requires Matches(out, s) && Extends(s, s')
    requires forall h :: h in s'.conns && h !in s.conns ==> s'.conns[h].handed == []
    ensures Matches(Enqueue(out, s, s'), s')
  {
    hide Queues.Valid, AddAll, NewLines, TextFrames, Matches;
    forall h | h in s'.conns
      ensures var q := AddAll(QueueOf(out, h), TextFrames(NewLines(s, s', h)));
              Queues.Valid(q) && q.added == TextFrames(s'.conns[h].handed)
    {
      EnqueueOne(out, s, s', h);
    }
    MatchesIntro(Enqueue(out, s, s'), s');
  }

  lemma MatchesIntro(out: map<Handle, Queues.Queue>, s: State)
    requires out.Keys == s.conns.Keys
    requires forall h :: h in out ==> Queues.Valid(out[h]) && out[h].added == TextFrames(s.conns[h].handed)
    ensures Matches(out, s)
  {
  }

  lemma CompleteMatches(out: map<Handle, Queues.Queue>, s: State, h: Handle, ok: bool)
    requires Matches(out, s) && h in out && out[h].inFlight > 0 && out[h].pending != []
    ensures Matches(out[h := Queues.Complete(out[h], ok)], s)
  {
    hide TextFrames;
    Queues.CompleteKeepsValid(out[h], ok);
  }

  lemma OnlyAcceptAdds(sys: Sys, e: Event)
    requires Enabled(sys, e)
    ensures NextState(sys, e).conns.Keys == sys.state.conns.Keys + if e.Accept? then {e.h} else {}
    ensures e.Accept? ==> NextState(sys, e).conns[e.h].handed == []
  {
    hide RunTask, Free;
    match e
    case Accept(_, _) =>
    case Receive(_, _) =>
    case Execute(t) => TaskRecords(sys.state, t, t.h);
    case Drop(h) => FreeKeepsRecords(sys.state, h);
    case Written(h, ok) => FreeKeepsRecords(sys.state, h);
  }

  lemma StepKeepsQueues(sys: Sys, e: Event)
    requires Enabled(sys, e) && QueuesSound(sys)
    ensures QueuesSound(Step(sys, e))
  {
    hide Matches, NextState, Enqueue, Extends;
    StepExtends(sys, e);
    OnlyAcceptAdds(sys, e);
    var out := sys.out;
    if e.Written? {
      CompleteMatches(out, sys.state, e.h, e.ok);
      out := out[e.h := Queues.Complete(out[e.h], e.ok)];
    }
    EnqueueMatches(out, sys.state, NextState(sys, e));
  }

  /** Over every run, each queue has written and holds exactly the frames of the lines its
      connection was handed, in order, with at most one write in flight. */
  lemma {:induction false} RunsKeepQueues(sys: Sys, es: seq<Event>)
    requires IsRun(sys, es) && QueuesSound(sys)
    ensures QueuesSound(Run(sys, es))
    decreases |es|
  {
    hide QueuesSound, Enabled, Step;
    if es != [] {
      StepKeepsQueues(sys, es[0]);
      RunsKeepQueues(Step(sys, es[0]), es[1..]);
    }
  }

  lemma {:induction false} AddAllProgress(q: Queues.Queue, bs: seq<Bytes>)
    ensures AddAll(q, bs).written == q.written && AddAll(q, bs).failed == q.failed
  {
    if bs != [] {
      AddAllProgress(q, bs[..|bs| - 1]);
    }
  }

  /** How many of a connection's queued writes have completed without an error. */
  function WrittenOk(es: seq<Event>, h: Handle): nat {
    if es == [] then 0 else (if es[0] == Written(h, true) then 1 else 0) + WrittenOk(es[1..], h)
  }

  lemma StepWrites(sys: Sys, e: Event, h: Handle)
    requires Enabled(sys, e) && QueuesSound(sys)
    ensures |QueueOf(Step(sys, e).out, h).written|
         == |QueueOf(sys.out, h).written| + if e == Written(h, true) then 1 else 0
  {
    hide NextState, TextFrames, NewLines, AddAll, Queues.Valid;
    var s' := NextState(sys, e);
    var out := if e.Written? then sys.out[e.h := Queues.Complete(sys.out[e.h], e.ok)] else sys.out;
    OnlyAcceptAdds(sys, e);
    if h in s'.conns {
      AddAllProgress(QueueOf(out, h), TextFrames(NewLines(sys.state, s', h)));
    }
  }

  lemma {:induction false} RunsWrite(sys: Sys, es: seq<Event>, h: Handle)
    requires IsRun(sys, es) && QueuesSound(sys)
    ensures |QueueOf(Run(sys, es).out, h).written| == |QueueOf(sys.out, h).written| + WrittenOk(es, h)
    decreases |es|
  {
    hide QueuesSound, Enabled, Step, QueueOf;
    if es != [] {
      StepWrites(sys, es[0], h);
      StepKeepsQueues(sys, es[0]);
      RunsWrite(Step(sys, es[0]), es[1..], h);
    }
  }

  /** In every run of a server just started, the completions without an error on a connection say how
      many of the lines handed to it are written: that many frames from the front, and the rest is
      queued. So its queue is drained exactly when there were as many as lines. */
  lemma LinesWritten(rows: seq<Text>, accounts: seq<Account>, es: seq<Event>, h: Handle)
    requires IsRun(Started(rows, accounts), es) && h in Run(Started(rows, accounts), es).out
    ensures var sys, n := Run(Started(rows, accounts), es), WrittenOk(es, h);
            && h in sys.state.conns
            && var frames := TextFrames(sys.state.conns[h].handed);
               && n <= |frames|
               && sys.out[h].written == frames[..n] && sys.out[h].pending == frames[n..]
               && (sys.out[h].pending == [] <==> n == |sys.state.conns[h].handed|)
  {
    hide IsRun, Run, TextFrame, WrittenOk, JoinsAnswered;
    StartedIsSound(rows, accounts);
    RunsKeepQueues(Started(rows, accounts), es);
    RunsWrite(Started(rows, accounts), es, h);
  }

  // -------------------------------------------------------------- accounts

  lemma RoomTaskKeepsAccounts(s: State, h: Handle)
    requires h in s.conns
    ensures Free(s, h).accounts == s.accounts && Free(s, h).counter == s.counter
  {
    var k := s.conns[h].clientId;
    LeaveRoomsFrame(s, k, if k in s.memberOf then s.memberOf[k] else []);
  }

  /** Only a registration that finds its login free changes the login table. */
  lemma StepOnAccounts(sys: Sys, e: Event)
    requires Enabled(sys, e)
    ensures var s, s' := sys.state, NextState(sys, e);
            if e.Execute? && e.task.DoRegistration? && e.task.request.RegRequest? then
              var reg := Register(s.accounts, s.counter, e.task.request.login, e.task.request.password);
              s'.accounts == reg.rows && s'.counter == reg.counter && s'.conns[e.task.h].clientId == reg.id
            else s'.accounts == s.accounts && s'.counter == s.counter
  {
    hide Register, CheckClient, LeaveRooms;
    if e.Execute? && e.task.h in sys.state.conns {
      RoomTaskKeepsAccounts(sys.state, e.task.h);
    }
    if e.Drop? || e.Written? {
      RoomTaskKeepsAccounts(sys.state, e.h);
    }
  }

  predicate IsRegistration(e: Event) {
    e.Execute? && e.task.DoRegistration? && e.task.request.RegRequest?
  }

  /** Every run from a table with distinct logins, also that of a restarted server, keeps them distinct. */
  lemma {:induction false} RunsKeepLogins(sys: Sys, es: seq<Event>)
    requires IsRun(sys, es) && DistinctLogins(sys.state.accounts)
    ensures DistinctLogins(Run(sys, es).state.accounts)
    decreases |es|
  {
    hide NextState, DistinctLogins, Register;
    if es != [] {
      var e, s := es[0], sys.state;
      StepOnAccounts(sys, e);
      if IsRegistration(e) {
        RegisterKeepsLogins(s.accounts, s.counter, e.task.request.login, e.task.request.password);
      }
      RunsKeepLogins(Step(sys, e), es[1..]);
    }
  }

  /** From any such table, in every later state, the last-match scans find exactly the row of a login. */
  lemma FromAnyTable(rows: seq<Text>, accounts: seq<Account>, es: seq<Event>, i: nat, password: Bytes)
    requires DistinctLogins(accounts) && IsRun(Started(rows, accounts), es)
    requires i < |Run(Started(rows, accounts), es).state.accounts|
    ensures var table := Run(Started(rows, accounts), es).state.accounts;
            && accounts <= table && DistinctLogins(table)
            && LoginId(table, table[i].login) == table[i].id
            && CheckClient(table, table[i].login, password) == if password == table[i].password then table[i].id else -1
  {
    hide IsRun, Run, LoginId, CheckClient;
    RunsKeepLogins(Started(rows, accounts), es);
    RunExtends(Started(rows, accounts), es);
    LookupIsUnique(Run(Started(rows, accounts), es).state.accounts, i, password);
  }

  /** A row that is the only one of its login stays so in every run. */
  lemma {:induction false} RunsKeepRow(sys: Sys, es: seq<Event>, i: nat)
    requires IsRun(sys, es) && OnlyRow(sys.state.accounts, i) && sys.state.accounts[i].id != -1
    ensures OnlyRow(Run(sys, es).state.accounts, i) && Run(sys, es).state.accounts[i] == sys.state.accounts[i]
    decreases |es|
  {
    hide NextState, OnlyRow, Register;
    RowInRange(sys.state.accounts, i);
    if es != [] {
      var e, s := es[0], sys.state;
      StepOnAccounts(sys, e);
      if IsRegistration(e) {
        RegisterKeepsRow(s.accounts, s.counter, e.task.request.login, e.task.request.password, i);
      }
      RunsKeepRow(Step(sys, e), es[1..], i);
    }
  }

  lemma RowInRange(rows: seq<Account>, i: nat)
    requires OnlyRow(rows, i)
    ensures i < |rows|
  {
  }

  /** While the ids in the table come from the counter, as from an empty table on, every run also keeps
      ids distinct, positive and within the counter. */
  lemma {:induction false} RunsKeepAccounts(sys: Sys, es: seq<Event>)
    requires IsRun(sys, es) && Sound(sys.state.accounts, sys.state.counter)
    ensures Sound(Run(sys, es).state.accounts, Run(sys, es).state.counter)
    decreases |es|
  {
    hide NextState, Sound, Register;
    if es != [] {
      var e, s := es[0], sys.state;
      StepOnAccounts(sys, e);
      if IsRegistration(e) {
        RegisterKeepsSound(s.accounts, s.counter, e.task.request.login, e.task.request.password);
      }
      RunsKeepAccounts(Step(sys, e), es[1..]);
    }
  }

  /** From an empty login table, whatever was stored of the rooms, every run keeps the table sound, so
      that the last-match scans find exactly the one row of a login. */
  lemma FromEmptyTable(rows: seq<Text>, es: seq<Event>, i: nat, password: Bytes)
    requires IsRun(Started(rows, []), es) && i < |Run(Started(rows, []), es).state.accounts|
    ensures var s := Run(Started(rows, []), es).state;
            && Sound(s.accounts, s.counter)
            && LoginId(s.accounts, s.accounts[i].login) == s.accounts[i].id
            && CheckClient(s.accounts, s.accounts[i].login, password)
               == if password == s.accounts[i].password then s.accounts[i].id else -1
  {
    hide IsRun, Run, LoginId, CheckClient;
    RunsKeepAccounts(Started(rows, []), es);
    FromAnyTable(rows, [], es, i, password);
  }

  /** The answers of a later login and registration, in state `s` and on connection `h`, for a login
      that was registered with `password` and given `id`. */
  ghost predicate Remembers(s: State, h: Handle, login: Bytes, password: Bytes, id: Id, other: Bytes)
    requires h in s.conns
  {
    var again := DoRegistration(h, RegRequest(login, other));
    && RunTask(s, DoAutorisation(h, InRequest(login, password))).posts == multiset{SendAutoResponse(h, id)}
    && ResponsesBy(SendAutoResponse(h, id), h) == [InputResponse(STATUS_OK, 0, id, 0)]
    && (other != password ==>
          RunTask(s, DoAutorisation(h, InRequest(login, other))).posts == multiset{SendAutoResponse(h, -1)})
    && ResponsesBy(SendAutoResponse(h, -1), h) == [InputResponse(STATUS_FAIL, 0, -1, 0)]
    && Runnable(s, again)
    && RunTask(s, again).posts == multiset{SendRegResponse(h, -1)}
    && ResponsesBy(SendRegResponse(h, -1), h) == [RegResponse(STATUS_FAIL, 0, -1, 0)]
    && RunTask(s, again).state.accounts == s.accounts && RunTask(s, again).state.counter == s.counter
  }

  lemma LookupAnswers(s: State, h: Handle, login: Bytes, password: Bytes, id: Id, other: Bytes)
    requires h in s.conns && id != -1 && LoginId(s.accounts, login) == id
    requires CheckClient(s.accounts, login, password) == id
    requires other != password ==> CheckClient(s.accounts, login, other) == -1
    ensures Remembers(s, h, login, password, id, other)
  {
    hide CheckClient, LoginId;
  }

  /** After a successful registration, in every later state and on every connection: a login task
      with that login and password posts the response with the same id and OK, with any other
      password the one with -1 and FAIL, and registering the login again posts FAIL and leaves the
      table alone. The table may be any, as long as no row of that login carries the id -1. */
  lemma RegistrationLasts(sys: Sys, h: Handle, login: Bytes, password: Bytes, es: seq<Event>, h': Handle, other: Bytes)
    requires forall i :: 0 <= i < |sys.state.accounts| && sys.state.accounts[i].login == login ==> sys.state.accounts[i].id != -1
    requires Enabled(sys, Execute(DoRegistration(h, RegRequest(login, password))))
    requires IsRun(Step(sys, Execute(DoRegistration(h, RegRequest(login, password)))), es)
    requires Register(sys.state.accounts, sys.state.counter, login, password).id != -1
    ensures var id := Register(sys.state.accounts, sys.state.counter, login, password).id;
            var s := Run(Step(sys, Execute(DoRegistration(h, RegRequest(login, password)))), es).state;
            h' in s.conns ==> Remembers(s, h', login, password, id, other)
  {
    hide NextState, CheckClient, Remembers;
    var e := Execute(DoRegistration(h, RegRequest(login, password)));
    var rows, counter := sys.state.accounts, sys.state.counter;
    var reg := Register(rows, counter, login, password);
    StepOnAccounts(sys, e);
    FreeLogin(rows, login);
    var mid, i := Step(sys, e), |rows|;
    assert mid.state.accounts == rows + [Account(login, reg.id, password)];
    RunsKeepRow(mid, es, i);
    var end := Run(mid, es).state;
    LookupIsUnique(end.accounts, i, password);
    LookupIsUnique(end.accounts, i, other);
    if h' in end.conns {
      LookupAnswers(end, h', login, password, reg.id, other);
    }
  }

  // -------------------------------------------------------- join responses

  function JoinOks(rs: seq<Response>, r: Id): nat {
    if rs == [] then 0
    else JoinOks(rs[..|rs| - 1], r) + (if rs[|rs| - 1] == JoinRoomResponse(STATUS_OK, r) then 1 else 0)
  }

  lemma JoinOksAppend(rs: seq<Response>, x: Response, r: Id)
    ensures JoinOks(rs + [x], r) == JoinOks(rs, r) + if x == JoinRoomResponse(STATUS_OK, r) then 1 else 0
  {
    assert (rs + [x])[..|rs|] == rs;
  }

  /** Responses written past the queue: no texts, and joins are not refused. */
  predicate NoRefusal(rs: seq<Response>) {
    forall i :: 0 <= i < |rs| ==>
      !rs[i].TextResponse? && (rs[i].JoinRoomResponse? ==> rs[i].status == STATUS_OK)
  }

  ghost predicate BalancedAt(c: Conn, pending: multiset<Task>, h: Handle, r: Id) {
    Count(c.joined, r) == JoinOks(c.direct, r) + pending[SendJoinRoomResponse(h, r, true)]
  }

  /** Every join of a room is matched by one OK response that names that room, sent or still posted,
      and no join is refused. */
  ghost predicate JoinsAnswered(sys: Sys) {
    && (forall t :: t in sys.pending ==> t.h in sys.state.conns && (t.SendJoinRoomResponse? ==> t.flag))
    && (forall h, r :: h in sys.state.conns ==> BalancedAt(sys.state.conns[h], sys.pending, h, r))
    && (forall h :: h in sys.state.conns ==> NoRefusal(sys.state.conns[h].direct))
  }

  predicate SameRecord(a: Conn, b: Conn) {
    a.joined == b.joined && a.direct == b.direct
  }

  lemma FreeKeepsRecords(s: State, h: Handle)
    requires h in s.conns
    ensures Free(s, h).conns.Keys == s.conns.Keys
    ensures forall h' :: h' in s.conns ==> SameRecord(s.conns[h'], Free(s, h).conns[h'])
  {
    var k := s.conns[h].clientId;
    var rs := if k in s.memberOf then s.memberOf[k] else [];
    LeaveRoomsFrame(s, k, rs);
    forall h' | h' in s.conns ensures SameRecord(s.conns[h'], Free(s, h).conns[h']) {
      assert SameIdentity(s.conns[h'], LeaveRooms(s, k, rs).conns[h']);
    }
  }

  /** What a task adds to a connection's joins and direct responses. */
  function JoinsBy(t: Task, h: Handle): seq<Id> {
    if t.DoJoinRoom? && t.request.JoinRoomRequest? && t.h == h then [t.request.roomId] else []
  }

  function ResponsesBy(t: Task, h: Handle): seq<Response> {
    if t.h != h then []
    else match t
      case SendAutoResponse(_, id) => [CreateInputResponse(id)]
      case SendRegResponse(_, id) => [CreateRegResponse(id)]
      case SendJoinRoomResponse(_, room, flag) => [CreateJoinRoomResponse(room, flag)]
      case _ => []
  }

  lemma JoinRecords(s: State, h: Handle, r: Id, h': Handle)
    requires h in s.conns && h' in s.conns
    ensures JoinRoom(s, h, r).conns.Keys == s.conns.Keys
    ensures JoinRoom(s, h, r).conns[h'].joined == s.conns[h'].joined + if h' == h then [r] else []
    ensures JoinRoom(s, h, r).conns[h'].direct == s.conns[h'].direct
  {
    hide Lines, Repeat, Copies, JoinNotice;
  }

  lemma TextRecords(s: State, m: Text, h: Handle)
    requires h in s.conns
    ensures SayText(s, m).conns.Keys == s.conns.Keys && SameRecord(s.conns[h], SayText(s, m).conns[h])
  {
    hide Repeat, Copies;
  }

  lemma LoginRecords(s: State, t: Task, h: Handle)
    requires Runnable(s, t) && h in s.conns && (t.DoAutorisation? || t.DoRegistration?)
    ensures RunTask(s, t).state.conns.Keys == s.conns.Keys
    ensures SameRecord(s.conns[h], RunTask(s, t).state.conns[h])
  {
    hide Free, Register, CheckClient;
    FreeKeepsRecords(s, t.h);
  }

  lemma TaskRecords(s: State, t: Task, h: Handle)
    requires Runnable(s, t) && h in s.conns
    ensures RunTask(s, t).state.conns.Keys == s.conns.Keys
    ensures RunTask(s, t).state.conns[h].joined == s.conns[h].joined + JoinsBy(t, h)
    ensures RunTask(s, t).state.conns[h].direct == s.conns[h].direct + ResponsesBy(t, h)
  {
    hide Free, Register, CheckClient, JoinRoom, SayText;
    match t
    case DoAutorisation(g, request) => LoginRecords(s, t, h);
    case DoRegistration(g, request) => LoginRecords(s, t, h);
    case DoJoinRoom(g, request) =>
      if request.JoinRoomRequest? {
        JoinRecords(s, g, request.roomId, h);
      }
    case DoTextMsg(_, request) =>
      if request.TextRequest? {
        TextRecords(s, Text(request.roomId, request.login, request.text), h);
      }
    case SendAutoResponse(_, _) =>
    case SendRegResponse(_, _) =>
    case SendJoinRoomResponse(_, _, _) =>
  }

  /** The only join response a task posts is the OK for the room it joined. */
  lemma TaskPosts(s: State, t: Task)
    requires Runnable(s, t)
    ensures forall p :: p in RunTask(s, t).posts ==> p.h == t.h && (p.SendJoinRoomResponse? ==> p.flag)
    ensures forall h, r ::
              RunTask(s, t).posts[SendJoinRoomResponse(h, r, true)] == if JoinsBy(t, h) == [r] then 1 else 0
  {
    hide Free, Register, CheckClient, SayText, JoinRoom;
    if t.DoJoinRoom? && t.request.JoinRoomRequest? {
      JoinEffect(s, t.h, t.request.roomId);
    }
  }

  lemma CountJoins(rs: seq<Id>, t: Task, h: Handle, r: Id)
    ensures Count(rs + JoinsBy(t, h), r) == Count(rs, r) + if JoinsBy(t, h) == [r] then 1 else 0
  {
    if JoinsBy(t, h) == [] {
      assert rs + [] == rs;
    } else {
      CountAppend(rs, JoinsBy(t, h)[0], r);
    }
  }

  lemma CountOks(rs: seq<Response>, t: Task, h: Handle, r: Id)
    requires t.SendJoinRoomResponse? ==> t.flag
    ensures JoinOks(rs + ResponsesBy(t, h), r)
         == JoinOks(rs, r) + if t == SendJoinRoomResponse(h, r, true) then 1 else 0
  {
    hide JoinOks;
    if ResponsesBy(t, h) == [] {
      assert rs + [] == rs;
    } else {
      JoinOksAppend(rs, ResponsesBy(t, h)[0], r);
    }
  }

  lemma StillNoRefusal(rs: seq<Response>, t: Task, h: Handle)
    requires NoRefusal(rs) && (t.SendJoinRoomResponse? ==> t.flag)
    ensures NoRefusal(rs + ResponsesBy(t, h))
  {
  }

  lemma ExecuteKeepsAnswers(sys: Sys, t: Task)
    requires Enabled(sys, Execute(t)) && JoinsAnswered(sys)
    ensures JoinsAnswered(Step(sys, Execute(t)))
  {
    hide RunTask, JoinsBy, ResponsesBy, JoinOks, Count, NoRefusal, Enqueue;
    var s, s', posts := sys.state, RunTask(sys.state, t).state, RunTask(sys.state, t).posts;
    var pending := sys.pending - multiset{t} + posts;
    TaskPosts(s, t);
    TaskRecords(s, t, t.h);
    forall h, r | h in s'.conns ensures BalancedAt(s'.conns[h], pending, h, r) {
      TaskRecords(s, t, h);
      CountJoins(s.conns[h].joined, t, h, r);
      CountOks(s.conns[h].direct, t, h, r);
      assert BalancedAt(s.conns[h], sys.pending, h, r);
    }
    forall h | h in s'.conns ensures NoRefusal(s'.conns[h].direct) {
      TaskRecords(s, t, h);
      StillNoRefusal(s.conns[h].direct, t, h);
    }
    forall p | p in pending ensures p.h in s'.conns && (p.SendJoinRoomResponse? ==> p.flag) {
      assert p in sys.pending || p in posts;
    }
  }

  lemma AcceptKeepsAnswers(sys: Sys, h: Handle, id: Id)
    requires Enabled(sys, Accept(h, id)) && JoinsAnswered(sys)
    ensures JoinsAnswered(Step(sys, Accept(h, id)))
  {
    hide JoinOks, Count, Enqueue;
    forall r ensures BalancedAt(Conn(id, [], 0, true, [], [], []), sys.pending, h, r) {
      assert SendJoinRoomResponse(h, r, true) !in sys.pending;
      CountNothing(r);
    }
  }

  lemma ReceiveKeepsAnswers(sys: Sys, h: Handle, p: Reader.Posted)
    requires Enabled(sys, Receive(h, p)) && JoinsAnswered(sys)
    ensures JoinsAnswered(Step(sys, Receive(h, p)))
  {
    hide JoinOks, Count, Enqueue, NoRefusal;
    var s := sys.state;
    forall h', r | h' in s.conns
      ensures BalancedAt(s.conns[h'], sys.pending + multiset{TaskOf(h, p)}, h', r)
    {
      assert BalancedAt(s.conns[h'], sys.pending, h', r);
    }
  }

  lemma StepKeepsAnswers(sys: Sys, e: Event)
    requires Enabled(sys, e) && JoinsAnswered(sys)
    ensures JoinsAnswered(Step(sys, e))
  {
    hide Free, RunTask, BalancedAt, NoRefusal, Enqueue;
    var s, s' := sys.state, NextState(sys, e);
    match e
    case Execute(t) => ExecuteKeepsAnswers(sys, t);
    case Accept(h, id) => AcceptKeepsAnswers(sys, h, id);
    case Receive(h, p) => ReceiveKeepsAnswers(sys, h, p);
    case Drop(h) =>
      FreeKeepsRecords(s, h);
      RecordsDecide(sys, s');
    case Written(h, ok) =>
      FreeKeepsRecords(s, h);
      RecordsDecide(sys, s');
  }

  lemma CountNothing(r: Id)
    ensures Count([], r) == 0 && JoinOks([], r) == 0
  {
  }

  lemma RecordsDecide(sys: Sys, s': State)
    requires JoinsAnswered(sys) && s'.conns.Keys == sys.state.conns.Keys
    requires forall h :: h in sys.state.conns ==> SameRecord(sys.state.conns[h], s'.conns[h])
    ensures JoinsAnswered(sys.(state := s'))
  {
    forall h, r | h in s'.conns
      ensures BalancedAt(s'.conns[h], sys.pending, h, r) && NoRefusal(s'.conns[h].direct)
    {
      assert SameRecord(sys.state.conns[h], s'.conns[h]);
      assert BalancedAt(sys.state.conns[h], sys.pending, h, r);
    }
  }

  /** Over every run, for every connection and room, the joins made equal the OK responses naming
      that room that were sent or are still posted; no join is ever refused. */
  lemma {:induction false} RunsAnswerJoins(sys: Sys, es: seq<Event>)
    requires IsRun(sys, es) && JoinsAnswered(sys)
    ensures JoinsAnswered(Run(sys, es))
    decreases |es|
  {
    hide JoinsAnswered, Enabled, Step;
    if es != [] {
      StepKeepsAnswers(sys, es[0]);
      RunsAnswerJoins(Step(sys, es[0]), es[1..]);
    }
  }

  lemma StartedIsSound(rows: seq<Text>, accounts: seq<Account>)
    ensures QueuesSound(Started(rows, accounts)) && JoinsAnswered(Started(rows, accounts))
  {
    assert Started(rows, accounts).out.Keys == {};
  }

  /** In every reachable state the queues carry what was handed over and the joins are answered. */
  lemma ReachableIsSound(sys: Sys)
    requires Reachable(sys)
    ensures QueuesSound(sys) && JoinsAnswered(sys)
  {
    hide QueuesSound, JoinsAnswered, IsRun, Run;
    var rows, accounts, es :| Leads(Started(rows, accounts), es, sys);
    StartedIsSound(rows, accounts);
    RunsKeepQueues(Started(rows, accounts), es);
    RunsAnswerJoins(Started(rows, accounts), es);
  }

  // -------------------------------------------------------- right content

  predicate RightContent(t: Task) {
    match t
    case DoAutorisation(_, r) => r.InRequest?
    case DoRegistration(_, r) => r.RegRequest?
    case DoJoinRoom(_, r) => r.JoinRoomRequest?
    case DoTextMsg(_, r) => r.TextRequest?
    case _ => true
  }

  /** However much of a client's requests has been read, every task posted for them reaches the
      handler that expects its content, with the content the client sent. */
  lemma ClientTasksAreRight(h: Handle, rs: seq<ClientRequest>, arrived: Bytes, i: nat)
    requires arrived <= Flatten(Reader.Frames(rs))
    requires i < |Reader.Consume(Reader.HeaderRead, arrived).posted|
    ensures var p := Reader.Consume(Reader.HeaderRead, arrived).posted[i];
            && Reader.Known(p.command) && RightContent(TaskOf(h, p))
            && i < |rs| && p.request == rs[i]
  {
    hide RequestSize, Reader.Consume, RequestFrame;
    Reader.ServerReadsRequests(rs, arrived);
    assert Reader.Consume(Reader.HeaderRead, arrived).posted[i] == Reader.TaskFor(rs[i]);
  }
}
