/** The server as a step system: connections come and go, requests post tasks, a thread pool runs
    the posted tasks in any order, and each connection's queue is written message by message. */
module Server {
  import opened Basics
  import opened Messages
  import opened MsgFactory
  import opened Rooms
  import opened Accounts
  import Queues = SendQueue
  import Reader = ServerReader
  import opened ChatClient

  // ----------------------------------------------------------------- tasks

  datatype Task =
    | DoAutorisation(h: Handle, request: Request)
    | DoRegistration(h: Handle, request: Request)
    | DoJoinRoom(h: Handle, request: Request)
    | DoTextMsg(h: Handle, request: Request)
    | SendAutoResponse(h: Handle, id: Id)
    | SendRegResponse(h: Handle, id: Id)
    | SendJoinRoomResponse(h: Handle, room: Id, flag: bool)

  /** The state after a task and the tasks it posts. */
  datatype Outcome = Outcome(state: State, posts: multiset<Task>)

  /** `process_msg`: what a request is posted as, by the command of its header. */
  function TaskOf(h: Handle, p: Reader.Posted): Task
    requires Reader.Known(p.command)
  {
    if p.command == AUTHORISATION_REQUEST then DoAutorisation(h, p.request)
    else if p.command == REGISTRATION_REQUEST then DoRegistration(h, p.request)
    else if p.command == JOIN_ROOM_REQUEST then DoJoinRoom(h, p.request)
    else DoTextMsg(h, p.request)
  }

  /** A task can run when its connection exists and, to register a new login, the id counter is
      below the int32 limit. */
  predicate Runnable(s: State, t: Task) {
    && t.h in s.conns
    && (t.DoRegistration? && t.request.RegRequest? ==> CanRegister(s.accounts, s.counter, t.request.login))
  }

  function Respond(s: State, h: Handle, r: Response): State
    requires h in s.conns
  {
    s.(conns := s.conns[h := s.conns[h].(direct := s.conns[h].direct + [r])])
  }

  function RunTask(s: State, t: Task): Outcome
    requires Runnable(s, t)
  {
    match t
    case DoAutorisation(h, request) =>
      if request.InRequest? then
        var id := CheckClient(s.accounts, request.login, request.password);
        Outcome(Relogin(s, h, request.login, id), multiset{SendAutoResponse(h, id)})
      else Outcome(Free(s, h), multiset{})
    case DoRegistration(h, request) =>
      if request.RegRequest? then
        var reg := Register(s.accounts, s.counter, request.login, request.password);
        Outcome(Relogin(s.(accounts := reg.rows, counter := reg.counter), h, request.login, reg.id),
                multiset{SendRegResponse(h, reg.id)})
      else Outcome(Free(s, h), multiset{})
    case DoJoinRoom(h, request) =>
      if request.JoinRoomRequest? then
        var s' := JoinRoom(s, h, request.roomId);
        Outcome(s', multiset{SendJoinRoomResponse(h, s'.conns[h].room, true)})
      else Outcome(s, multiset{})
    case DoTextMsg(h, request) =>
      if request.TextRequest?
      then Outcome(SayText(s, Text(request.roomId, request.login, request.text)), multiset{})
      else Outcome(s, multiset{})
    case SendAutoResponse(h, id) => Outcome(Respond(s, h, CreateInputResponse(id)), multiset{})
    case SendRegResponse(h, id) => Outcome(Respond(s, h, CreateRegResponse(id)), multiset{})
    case SendJoinRoomResponse(h, room, flag) =>
      Outcome(Respond(s, h, CreateJoinRoomResponse(room, flag)), multiset{})
  }

  // ---------------------------------------------------------------- steps

  /** The whole server: rooms and tables, posted tasks, and each connection's outgoing queue. */
  datatype Sys = Sys(state: State, pending: multiset<Task>, out: map<Handle, Queues.Queue>)

  /** A new connection; a request read from one; a posted task picked by the pool; a failed read or
      direct write, which frees the connection; the completion of a queued write. */
  datatype Event =
    | Accept(h: Handle, uninitialised: Id)
    | Receive(h: Handle, posted: Reader.Posted)
    | Execute(task: Task)
    | Drop(h: Handle)
    | Written(h: Handle, ok: bool)

  predicate Enabled(sys: Sys, e: Event) {
    match e
    case Accept(h, _) => h !in sys.state.conns
    case Receive(h, p) => h in sys.state.conns && Reader.Known(p.command)
    case Execute(t) => t in sys.pending && Runnable(sys.state, t)
    case Drop(h) => h in sys.state.conns
    case Written(h, _) => h in sys.state.conns && h in sys.out && sys.out[h].inFlight > 0 && sys.out[h].pending != []
  }

  /** The frame of a line. The body of a line beyond protobuf's message limit stays zero. */
  function TextFrame(m: Text): Bytes {
    var response := CreateTextResponse(m);
    if Fits(m) then ResponseFrame(response)
    else RawFrame(CreateHeader(ECHO_RESPONSE, 0), ResponseSize(response), EncodeResponse(response))
  }

  function TextFrames(ms: seq<Text>): seq<Bytes> {
    seq(|ms|, i requires 0 <= i < |ms| => TextFrame(ms[i]))
  }

  function AddAll(q: Queues.Queue, bs: seq<Bytes>): Queues.Queue {
    if bs == [] then q else Queues.Add(AddAll(q, bs[..|bs| - 1]), bs[|bs| - 1])
  }

  function QueueOf(out: map<Handle, Queues.Queue>, h: Handle): Queues.Queue {
    if h in out then out[h] else Queues.EMPTY
  }

  /** The lines a connection was handed in a step. */
  function NewLines(s: State, s': State, h: Handle): seq<Text>
    requires h in s'.conns
  {
    var had := if h in s.conns then |s.conns[h].handed| else 0;
    var has := s'.conns[h].handed;
    if had <= |has| then has[had..] else []
  }

  /** Every line handed to a connection in a step joins that connection's queue. */
  function Enqueue(out: map<Handle, Queues.Queue>, s: State, s': State): map<Handle, Queues.Queue> {
    map h | h in s'.conns :: AddAll(QueueOf(out, h), TextFrames(NewLines(s, s', h)))
  }

  /** The effect of an event on rooms and tables. */
  function NextState(sys: Sys, e: Event): State
    requires Enabled(sys, e)
  {
    var s := sys.state;
    match e
    case Accept(h, id) => s.(conns := s.conns[h := Conn(id, [], 0, true, [], [], [])])
    case Receive(_, _) => s
    case Execute(t) => RunTask(s, t).state
    case Drop(h) => Free(s, h)
    case Written(h, ok) => if ok then s else Free(s, h)
  }

  function NextPending(sys: Sys, e: Event): multiset<Task>
    requires Enabled(sys, e)
  {
    match e
    case Receive(h, p) => sys.pending + multiset{TaskOf(h, p)}
    case Execute(t) => sys.pending - multiset{t} + RunTask(sys.state, t).posts
    case _ => sys.pending
  }

  function Step(sys: Sys, e: Event): Sys
    requires Enabled(sys, e)
  {
    var s' := NextState(sys, e);
    var out := if e.Written? then sys.out[e.h := Queues.Complete(sys.out[e.h], e.ok)] else sys.out;
    Sys(s', NextPending(sys, e), Enqueue(out, sys.state, s'))
  }

  ghost predicate IsRun(sys: Sys, es: seq<Event>)
    decreases |es|
  {
    es == [] || (Enabled(sys, es[0]) && IsRun(Step(sys, es[0]), es[1..]))
  }

  ghost function Run(sys: Sys, es: seq<Event>): Sys
    requires IsRun(sys, es)
    decreases |es|
  {
    if es == [] then sys else Run(Step(sys, es[0]), es[1..])
  }

  /** A server that has just started on a stored history and a login table. */
  function Started(rows: seq<Text>, accounts: seq<Account>): Sys {
    Sys(State(map[], map[], map[], rows, accounts, 0, map[]), multiset{}, map[])
  }

  // ------------------------------------------------------------ steady runs

  /** The event is not a join by which connection `h` enters room `r` while it is still subscribed to
      it under another client id. */
  ghost predicate SteadyAt(sys: Sys, e: Event, h: Handle, r: Id)
    requires Enabled(sys, e)
  {
    !(e.Execute? && e.task.DoJoinRoom? && e.task.request == JoinRoomRequest(r) && e.task.h == h
      && JoinsTwice(sys.state, h, r))
  }

  ghost predicate SteadyRunAt(sys: Sys, es: seq<Event>, h: Handle, r: Id)
    requires IsRun(sys, es)
    decreases |es|
  {
    es == [] || (SteadyAt(sys, es[0], h, r) && SteadyRunAt(Step(sys, es[0]), es[1..], h, r))
  }

  /** No connection at all does that, in any room. */
  ghost predicate SteadyRun(sys: Sys, es: seq<Event>)
    requires IsRun(sys, es)
    decreases |es|
  {
    es == [] || ((forall h, r :: SteadyAt(sys, es[0], h, r)) && SteadyRun(Step(sys, es[0]), es[1..]))
  }

  // -------------------------------------------------------- reachable states

  ghost predicate Leads(start: Sys, es: seq<Event>, end: Sys) {
    IsRun(start, es) && Run(start, es) == end
  }

  ghost predicate LeadsSteadily(start: Sys, es: seq<Event>, end: Sys, h: Handle, r: Id) {
    IsRun(start, es) && Run(start, es) == end && SteadyRunAt(start, es, h, r)
  }

  /** Reached by some run of a server started on some stored history and login table. */
  ghost predicate Reachable(sys: Sys) {
    exists rows, accounts, es :: Leads(Started(rows, accounts), es, sys)
  }

  /** Reached by a run in which connection `h` never enters room `r` under a second id. */
  ghost predicate SteadilyReachable(sys: Sys, h: Handle, r: Id) {
    exists rows, accounts, es :: LeadsSteadily(Started(rows, accounts), es, sys, h, r)
  }
}
