/** The handlers that the thread pool runs (`do_autorisation`, `do_registration`, `do_join_room`,
    `do_text_msg`, the response senders and `free_connection`), over the objects they share, and the
    events of the step system as methods of the whole server. */
module RequestHandlers {
  import opened Basics
  import opened Messages
  import opened MsgFactory
  import opened Rooms
  import opened RoomProofs
  import opened ServerObjects
  import opened ServerManager
  import opened Server
  import opened ServerProofs
  import opened ServerLaws
  import Accounts
  import Queues = SendQueue
  import Reader = ServerReader

  class ChatServer {
    const manager: ChannelsManager
    const db: Database
    var idCounter: nat
    ghost var conns: map<Handle, Connection>
    ghost var pool: multiset<Task>

    /** A server started on what the store holds. */
    constructor (history: seq<Text>, logins: seq<Rooms.Account>)
      ensures Valid() && IsSystem(Started(history, logins))
      ensures fresh(manager) && fresh(db)
    {
      manager := new ChannelsManager();
      db := new Database(history, logins);
      idCounter := 0;
      conns := map[];
      pool := multiset{};
    }

    ghost predicate Valid()
      reads this, manager, manager.channels.Values, conns.Values
    {
      ValidConns(conns) && manager.Valid(conns)
    }

    /** The objects look like state `s`. */
    ghost predicate Is(s: State)
      reads this, manager, manager.channels.Values, db, conns.Values
    {
      && Shows(manager, s, conns)
      && db.history == s.rows && db.logins == s.accounts && idCounter == s.counter
    }

    /** The objects, their queues and the pool look like the system `sys`. */
    ghost predicate IsSystem(sys: Sys)
      reads this, manager, manager.channels.Values, db, conns.Values
    {
      Is(sys.state) && Outs(conns) == sys.out && pool == sys.pending
    }

    ghost predicate Ready(s: State, c: Connection)
      reads this, manager, manager.channels.Values, db, conns.Values
    {
      Valid() && Is(s) && Registered(c, conns) && c.handle in s.conns
    }

    method SetIdentity(c: Connection, login: Bytes, id: Id, ghost s: State)
      requires Ready(s, c)
      modifies c
      ensures Valid() && Is(Relogin(s, c.handle, login, id))
      ensures Progress(conns) == old(Progress(conns))
    {
      hide ConnViews, ValidConns, Channel.View, Channel.Valid;
      NoteIdentity(c, login, id, conns);
    }

    method Send(c: Connection, r: ServerResponse, ghost s: State)
      requires Ready(s, c)
      modifies c
      ensures Valid() && Is(Respond(s, c.handle, r))
      ensures Progress(conns) == old(Progress(conns))
    {
      hide ConnViews, ValidConns, Channel.View, Channel.Valid;
      NoteResponse(c, r, conns);
    }

    method ResetConnection(c: Connection, ghost s: State)
      requires Ready(s, c)
      modifies c
      ensures Valid() && Is(s.(conns := Unused(s.conns, c.handle)))
      ensures Progress(conns) == old(Progress(conns))
    {
      hide ConnViews, ValidConns, Channel.View, Channel.Valid;
      NoteUnused(c, conns);
    }

    method FreeConnection(c: Connection, ghost s: State)
      requires Ready(s, c)
      modifies manager`clientInRooms, manager`clientidToLogin, manager.channels.Values, conns.Values
      ensures Valid() && Is(Free(s, c.handle))
      ensures Progress(conns) == old(Progress(conns))
    {
      hide LeaveAll, ValidConns, Shows;
      ShownConnection(manager, s, conns, c, 0);
      LeaveAllOther(s, c.clientId);
      manager.LeaveFromAllChannels(c.clientId, s, conns);
      ResetConnection(c, LeaveAll(s, s.conns[c.handle].clientId));
    }

    /** `do_autorisation`. */
    method DoAutorisation(c: Connection, request: Request, ghost s: State) returns (posted: seq<Task>)
      requires Ready(s, c) && Runnable(s, Task.DoAutorisation(c.handle, request))
      modifies manager`clientInRooms, manager`clientidToLogin, manager.channels.Values, conns.Values
      ensures Valid() && Is(RunTask(s, Task.DoAutorisation(c.handle, request)).state)
      ensures multiset(posted) == RunTask(s, Task.DoAutorisation(c.handle, request)).posts
      ensures Progress(conns) == old(Progress(conns))
    {
      hide Valid, Shows, Free, Relogin, Accounts.CheckClient;
      if request.InRequest? {
        var id := db.CheckClient(request.login, request.password);
        SetIdentity(c, request.login, id, s);
        posted := [SendAutoResponse(c.handle, id)];
      } else {
        FreeConnection(c, s);
        posted := [];
      }
    }

    /** `generate_client_id`. */
    method GenerateClientId() returns (id: Id)
      requires idCounter < TWO31 - 1
      modifies this`idCounter
      ensures id == idCounter == old(idCounter) + 1
    {
      idCounter := idCounter + 1;
      id := idCounter;
    }

    /** The table part of `do_registration`. */
    method RegisterLogin(login: Bytes, password: Bytes, ghost s: State) returns (id: Id)
      requires Valid() && Is(s) && Accounts.CanRegister(s.accounts, s.counter, login)
      modifies this`idCounter, db
      ensures var reg := Accounts.Register(s.accounts, s.counter, login, password);
              id == reg.id && Valid() && Is(s.(accounts := reg.rows, counter := reg.counter))
    {
      hide ValidConns, ConnViews, Channel.View, Accounts.LoginId, ChannelsManager.Valid;
      id := db.GetLoginId(login);
      if id == -1 {
        id := GenerateClientId();
        db.AddLogins(login, id, password);
      } else {
        id := -1;
      }
    }

    /** `do_registration`. */
    method DoRegistration(c: Connection, request: Request, ghost s: State) returns (posted: seq<Task>)
      requires Ready(s, c) && Runnable(s, Task.DoRegistration(c.handle, request))
      modifies this`idCounter, db, manager`clientInRooms, manager`clientidToLogin, manager.channels.Values, conns.Values
      ensures Valid() && Is(RunTask(s, Task.DoRegistration(c.handle, request)).state)
      ensures multiset(posted) == RunTask(s, Task.DoRegistration(c.handle, request)).posts
      ensures Progress(conns) == old(Progress(conns))
    {
      hide Valid, Is, Free, Relogin, Accounts.Register;
      if request.RegRequest? {
        var id := RegisterLogin(request.login, request.password, s);
        ghost var reg := Accounts.Register(s.accounts, s.counter, request.login, request.password);
        SetIdentity(c, request.login, id, s.(accounts := reg.rows, counter := reg.counter));
        posted := [SendRegResponse(c.handle, id)];
      } else {
        FreeConnection(c, s);
        posted := [];
      }
    }

    /** `do_join_room`: the response names the room the connection now holds. */
    method DoJoinRoom(c: Connection, request: Request, ghost s: State) returns (posted: seq<Task>)
      requires Ready(s, c) && Runnable(s, Task.DoJoinRoom(c.handle, request))
      modifies manager, manager.channels.Values, conns.Values
      ensures Valid() && Is(RunTask(s, Task.DoJoinRoom(c.handle, request)).state)
      ensures multiset(posted) == RunTask(s, Task.DoJoinRoom(c.handle, request)).posts
      ensures Progress(conns) == old(Progress(conns))
      ensures fresh(manager.channels.Values - old(manager.channels.Values))
    {
      hide ValidConns, Shows, JoinRoom, ChannelsManager.Valid;
      if request.JoinRoomRequest? {
        var flag := manager.Join(c, request.roomId, db, s, conns);
        ghost var s' := JoinRoom(s, c.handle, request.roomId);
        JoinOther(s, c.handle, request.roomId);
        ShownConnection(manager, s', conns, c, 0);
        posted := [SendJoinRoomResponse(c.handle, c.roomId, flag)];
      } else {
        posted := [];
      }
    }

    method Broadcast(m: Text, ghost s: State)
      requires Valid() && Is(s)
      modifies manager.channels.Values, conns.Values
      ensures Valid() && Is(SendToChannel(s, m))
      ensures Progress(conns) == old(Progress(conns))
    {
      hide ValidConns, Shows, SendToChannel, ChannelsManager.Valid, Progress;
      SendOther(s, m);
      manager.SendToChannel(m, s, conns);
    }

    method Store(m: Text, ghost s: State)
      requires Valid() && Is(s)
      modifies db`history
      ensures Valid() && Is(s.(rows := s.rows + [m]))
    {
      hide ValidConns, ConnViews, Channel.View, ChannelsManager.Valid;
      db.SaveTextMsg(m);
    }

    /** Broadcast, then store. */
    method Say(m: Text, ghost s: State)
      requires Valid() && Is(s)
      modifies db`history, manager.channels.Values, conns.Values
      ensures Valid() && Is(SayText(s, m))
      ensures Progress(conns) == old(Progress(conns))
    {
      hide Is, Valid, SendToChannel, Progress;
      SendOther(s, m);
      Broadcast(m, s);
      Store(m, SendToChannel(s, m));
    }

    /** `do_text_msg`. */
    method DoTextMsg(c: Connection, request: Request, ghost s: State)
      requires Ready(s, c) && Runnable(s, Task.DoTextMsg(c.handle, request))
      modifies db`history, manager.channels.Values, conns.Values
      ensures Valid() && Is(RunTask(s, Task.DoTextMsg(c.handle, request)).state)
      ensures Progress(conns) == old(Progress(conns))
    {
      hide Is, Valid, SayText;
      if request.TextRequest? {
        Say(Text(request.roomId, request.login, request.text), s);
      }
    }

    method SendAuto(c: Connection, id: Id, ghost s: State)
      requires Ready(s, c) && Runnable(s, SendAutoResponse(c.handle, id))
      modifies c
      ensures Valid() && Is(RunTask(s, SendAutoResponse(c.handle, id)).state)
      ensures Progress(conns) == old(Progress(conns))
    {
      hide Valid, Is, Sendable;
      LoginResponsesFit(id);
      Send(c, CreateInputResponse(id), s);
    }

    method SendReg(c: Connection, id: Id, ghost s: State)
      requires Ready(s, c) && Runnable(s, SendRegResponse(c.handle, id))
      modifies c
      ensures Valid() && Is(RunTask(s, SendRegResponse(c.handle, id)).state)
      ensures Progress(conns) == old(Progress(conns))
    {
      hide Valid, Is, Sendable;
      LoginResponsesFit(id);
      Send(c, CreateRegResponse(id), s);
    }

    method SendJoin(c: Connection, room: Id, flag: bool, ghost s: State)
      requires Ready(s, c) && Runnable(s, SendJoinRoomResponse(c.handle, room, flag))
      modifies c
      ensures Valid() && Is(RunTask(s, SendJoinRoomResponse(c.handle, room, flag)).state)
      ensures Progress(conns) == old(Progress(conns))
    {
      hide Valid, Is, Sendable;
      JoinResponseFits(room, flag);
      Send(c, CreateJoinRoomResponse(room, flag), s);
    }

    // ------------------------------------------- the events of the step system

    /** A socket is accepted. */
    method Accept(handle: Handle, uninitialised: Id, ghost sys: Sys) returns (c: Connection)
      requires Valid() && IsSystem(sys) && Enabled(sys, Event.Accept(handle, uninitialised))
      modifies this`conns
      ensures fresh(c) && c.handle == handle && conns == old(conns)[handle := c]
      ensures fresh(c.reading) && c.reading.reader == Reader.START
      ensures Valid() && IsSystem(Step(sys, Event.Accept(handle, uninitialised)))
    {
      hide Channel.Valid, Channel.View, ConnViews, ValidConns, Outs, Enqueue, Connection.Valid;
      KnownHandles(manager, conns, sys.state);
      c := new Connection(handle, uninitialised);
      OneMoreConnection(conns, c);
      forall r | r in manager.channels ensures manager.channels[r].Valid(conns[handle := c]) {
        OneMoreForChannel(manager.channels[r], conns, c);
      }
      AcceptQueues(sys, conns, c, uninitialised);
      conns := conns[handle := c];
    }

    /** The completion of a header read; a failure frees the connection. */
    method ReadHeader(c: Connection, error: bool, bytes: Bytes, ghost sys: Sys)
      requires Valid() && IsSystem(sys) && Registered(c, conns) && Enabled(sys, Event.Drop(c.handle))
      requires Reader.Enabled(c.reading.reader, Reader.HeaderDone(error, bytes))
      modifies c.reading, manager`clientInRooms, manager`clientidToLogin, manager.channels.Values, conns.Values
      ensures c.reading.reader == Reader.Step(old(c.reading.reader), Reader.HeaderDone(error, bytes))
      ensures Valid() && IsSystem(if error then Step(sys, Event.Drop(c.handle)) else sys)
    {
      hide ValidConns, ChannelsManager.Valid, Shows, Outs, Step, Reader.Step;
      var free := c.reading.DoParsePbHeader(error, bytes);
      if free {
        Drop(c, sys);
      }
    }

    /** The completion of a body read: `process_msg` posts what the body's command selects, if it is
        known, and the next header read is issued. */
    method Receive(c: Connection, header: Header, bytes: Bytes, ghost sys: Sys)
      requires Valid() && IsSystem(sys) && Registered(c, conns) && c.handle in sys.state.conns
      requires Reader.Enabled(c.reading.reader, Reader.BodyDone(header, bytes))
      modifies this`pool, c.reading
      ensures c.reading.reader == Reader.Step(old(c.reading.reader), Reader.BodyDone(header, bytes))
      ensures Valid() && IsSystem(Received(sys, c.handle, Reader.Dispatch(header, bytes)))
    {
      hide ValidConns, ChannelsManager.Valid, Shows, Outs, Received, TaskOf, Reader.Dispatch, Reader.Step, Reader.Enabled;
      ReceivedParts(manager, conns, sys, c.handle, header, bytes);
      var posted := c.reading.ProcessMsg(header, bytes);
      if posted != [] {
        pool := pool + multiset{TaskOf(c.handle, posted[0])};
      }
    }

    /** The handler of a task. */
    method Handle(c: Connection, t: Task, ghost s: State) returns (posted: seq<Task>)
      requires Ready(s, c) && Runnable(s, t) && t.h == c.handle
      modifies this`idCounter, db, manager, manager.channels.Values, conns.Values
      ensures Valid() && Is(RunTask(s, t).state) && multiset(posted) == RunTask(s, t).posts
      ensures Progress(conns) == old(Progress(conns))
      ensures fresh(manager.channels.Values - old(manager.channels.Values))
    {
      hide Valid, Is, Progress, Free, Relogin, JoinRoom, SayText, Accounts.Register, Accounts.CheckClient;
      posted := [];
      match t
      case DoAutorisation(_, request) => posted := DoAutorisation(c, request, s);
      case DoRegistration(_, request) => posted := DoRegistration(c, request, s);
      case DoJoinRoom(_, request) => posted := DoJoinRoom(c, request, s);
      case DoTextMsg(_, request) => DoTextMsg(c, request, s);
      case SendAutoResponse(_, id) => SendAuto(c, id, s);
      case SendRegResponse(_, id) => SendReg(c, id, s);
      case SendJoinRoomResponse(_, room, flag) => SendJoin(c, room, flag, s);
    }

    /** The pool runs a posted task. */
    method Execute(c: Connection, t: Task, ghost sys: Sys)
      requires Valid() && IsSystem(sys) && Registered(c, conns) && c.handle == t.h && Enabled(sys, Event.Execute(t))
      modifies this`idCounter, this`pool, db, manager, manager.channels.Values, conns.Values
      ensures Valid() && IsSystem(Step(sys, Event.Execute(t)))
      ensures fresh(manager.channels.Values - old(manager.channels.Values))
    {
      hide ValidConns, ChannelsManager.Valid, Shows, Progress, RunTask, Enqueue, Outs, Step, Enabled, Matches, Extends, ProgressOf;
      ExecuteParts(sys, t);
      Recorded(manager, conns, sys.state);
      var posted := Handle(c, t, sys.state);
      pool := pool - multiset{t} + multiset(posted);
      Followed(manager, sys.out, conns, sys.state, RunTask(sys.state, t).state);
    }

    /** A failed read or direct write. */
    method Drop(c: Connection, ghost sys: Sys)
      requires Valid() && IsSystem(sys) && Registered(c, conns) && Enabled(sys, Event.Drop(c.handle))
      modifies manager`clientInRooms, manager`clientidToLogin, manager.channels.Values, conns.Values
      ensures Valid() && IsSystem(Step(sys, Event.Drop(c.handle)))
    {
      hide ValidConns, ChannelsManager.Valid, Shows, Progress, Free, Enqueue, Outs;
      Recorded(manager, conns, sys.state);
      FreeConnection(c, sys.state);
      StepExtends(sys, Event.Drop(c.handle));
      Followed(manager, sys.out, conns, sys.state, Free(sys.state, c.handle));
    }

    /** The completion of the front write, before a failure frees the connection. */
    method FrontWritten(c: Connection, ok: bool, ghost sys: Sys) returns (failed: bool)
      requires Valid() && IsSystem(sys) && Registered(c, conns) && Enabled(sys, Event.Written(c.handle, ok))
      modifies c
      ensures Valid() && Is(sys.state) && failed == !ok
      ensures Outs(conns) == sys.out[c.handle := Queues.Complete(sys.out[c.handle], ok)]
    {
      hide Channel.Valid, Channel.View, Connection.Valid, Connection.View, Queues.Complete;
      assert sys.out[c.handle] == c.out;
      failed := CompleteOne(c, ok, conns);
    }

    /** The completion of a queued write; a failure frees the connection. */
    method WriteCompleted(c: Connection, ok: bool, ghost sys: Sys)
      requires Valid() && IsSystem(sys) && Registered(c, conns) && Enabled(sys, Event.Written(c.handle, ok))
      modifies manager`clientInRooms, manager`clientidToLogin, manager.channels.Values, conns.Values
      ensures Valid() && IsSystem(Step(sys, Event.Written(c.handle, ok)))
    {
      hide ValidConns, ChannelsManager.Valid, Shows, Progress, Free, Enqueue, Outs, Queues.Complete;
      ghost var s, out := sys.state, sys.out[c.handle := Queues.Complete(sys.out[c.handle], ok)];
      var failed := FrontWritten(c, ok, sys);
      Recorded(manager, conns, s);
      if failed {
        FreeConnection(c, s);
      }
      StepExtends(sys, Event.Written(c.handle, ok));
      Followed(manager, out, conns, s, NextState(sys, Event.Written(c.handle, ok)));
    }
  }

  /** The system after what one body posted, nothing or one request, was received. */
  ghost function Received(sys: Sys, h: Handle, posted: seq<Reader.Posted>): Sys {
    if posted != [] && Enabled(sys, Event.Receive(h, posted[0])) then Step(sys, Event.Receive(h, posted[0])) else sys
  }

  lemma ReceivedParts(
    mgr: ChannelsManager, reg: map<Handle, Connection>, sys: Sys, h: Handle, header: Header, bytes: Bytes)
    requires Shows(mgr, sys.state, reg) && Outs(reg) == sys.out && h in sys.state.conns
    ensures var posted := Reader.Dispatch(header, bytes);
            && |posted| <= 1
            && (posted != [] ==> Reader.Known(posted[0].command))
            && Received(sys, h, posted) == if posted == [] then sys else sys.(pending := sys.pending + multiset{TaskOf(h, posted[0])})
  {
    hide Shows, Outs, Enqueue, TaskOf, DecodeRequest;
    QueuesStay(mgr, reg, sys.state);
  }

  // ------------------------------------------------------------ the queues

  ghost function ProgressOf(out: map<Handle, Queues.Queue>): map<Handle, (seq<Bytes>, bool)> {
    map h | h in out :: (out[h].written, out[h].failed)
  }

  /** The queue of every connection. */
  ghost function Outs(reg: map<Handle, Connection>): map<Handle, Queues.Queue>
    reads reg.Values
  {
    map h | h in reg :: reg[h].out
  }

  lemma Recorded(mgr: ChannelsManager, reg: map<Handle, Connection>, s: State)
    requires ValidConns(reg) && Shows(mgr, s, reg)
    ensures Matches(Outs(reg), s) && Progress(reg) == ProgressOf(Outs(reg))
  {
    hide TextFrames, Queues.Valid;
    forall h | h in reg ensures reg[h].out.added == TextFrames(s.conns[h].handed) {
      assert ConnViews(reg)[h] == reg[h].View();
    }
    assert Outs(reg).Keys == s.conns.Keys by {
      assert ConnViews(reg).Keys == reg.Keys;
    }
  }

  /** A queue in order is determined by what was added, what was written and whether it failed. */
  lemma Determined(q: Queues.Queue, q': Queues.Queue)
    requires Queues.Valid(q) && Queues.Valid(q')
    requires q.added == q'.added && q.written == q'.written && q.failed == q'.failed
    ensures q == q'
  {
    assert q.pending == q.added[|q.written|..] == q'.pending;
  }

  /** Queues that matched before and match now, and were not written meanwhile, gained exactly the
      frames of the new lines. */
  lemma QueuesFollow(out: map<Handle, Queues.Queue>, out': map<Handle, Queues.Queue>, s: State, s': State)
    requires Matches(out, s) && Matches(out', s') && Extends(s, s') && ProgressOf(out') == ProgressOf(out)
    ensures out' == Enqueue(out, s, s')
  {
    hide Queues.Valid, AddAll, NewLines, TextFrames;
    assert ProgressOf(out').Keys == out'.Keys && ProgressOf(out).Keys == out.Keys;
    forall h | h in out' ensures out'[h] == Enqueue(out, s, s')[h] {
      var bs := TextFrames(NewLines(s, s', h));
      assert ProgressOf(out')[h] == ProgressOf(out)[h];
      EnqueueOne(out, s, s', h);
      AddAllProgress(QueueOf(out, h), bs);
      Determined(out'[h], AddAll(QueueOf(out, h), bs));
    }
  }

  lemma Followed(mgr: ChannelsManager, out: map<Handle, Queues.Queue>, reg: map<Handle, Connection>, s: State, s': State)
    requires Matches(out, s) && ValidConns(reg) && Shows(mgr, s', reg) && Extends(s, s')
    requires Progress(reg) == ProgressOf(out)
    ensures Outs(reg) == Enqueue(out, s, s')
  {
    hide Matches, ValidConns, Shows, Extends, Progress, ProgressOf, Outs, Enqueue;
    Recorded(mgr, reg, s');
    QueuesFollow(out, Outs(reg), s, s');
  }

  lemma KnownHandles(mgr: ChannelsManager, reg: map<Handle, Connection>, s: State)
    requires Shows(mgr, s, reg)
    ensures reg.Keys == s.conns.Keys
  {
    assert ConnViews(reg).Keys == reg.Keys;
  }

  lemma ExecuteParts(sys: Sys, t: Task)
    requires Enabled(sys, Event.Execute(t))
    ensures Runnable(sys.state, t) && t.h in sys.state.conns
    ensures Extends(sys.state, RunTask(sys.state, t).state)
    ensures var outcome := RunTask(sys.state, t);
            Step(sys, Event.Execute(t))
            == Sys(outcome.state, sys.pending - multiset{t} + outcome.posts, Enqueue(sys.out, sys.state, outcome.state))
  {
    hide RunTask, Enqueue, Extends;
    StepExtends(sys, Event.Execute(t));
  }

  lemma QueuesStay(mgr: ChannelsManager, reg: map<Handle, Connection>, s: State)
    requires Shows(mgr, s, reg)
    ensures Enqueue(Outs(reg), s, s) == Outs(reg)
  {
    KnownHandles(mgr, reg, s);
  }

  lemma OneMoreForChannel(channel: Channel, reg: map<Handle, Connection>, c: Connection)
    requires channel.Valid(reg) && c.handle !in reg
    ensures channel.Valid(reg[c.handle := c])
  {
  }

  lemma OneMoreConnection(reg: map<Handle, Connection>, c: Connection)
    requires ValidConns(reg) && c.handle !in reg && c.Valid()
    ensures ValidConns(reg[c.handle := c]) && ConnViews(reg[c.handle := c]) == ConnViews(reg)[c.handle := c.View()]
  {
    hide Connection.Valid, Connection.View;
  }

  lemma AcceptEnqueues(sys: Sys, handle: Handle, id: Id)
    requires Enabled(sys, Event.Accept(handle, id)) && sys.out.Keys == sys.state.conns.Keys
    ensures Step(sys, Event.Accept(handle, id)).out == sys.out[handle := Queues.EMPTY]
  {
    hide TextFrame;
    var s' := NextState(sys, Event.Accept(handle, id));
    assert forall h :: h in s'.conns ==> NewLines(sys.state, s', h) == [];
  }

  lemma AcceptQueues(sys: Sys, reg: map<Handle, Connection>, c: Connection, id: Id)
    requires Enabled(sys, Event.Accept(c.handle, id)) && c.handle !in reg && c.out == Queues.EMPTY
    requires ConnViews(reg) == sys.state.conns && Outs(reg) == sys.out
    ensures Outs(reg[c.handle := c]) == Step(sys, Event.Accept(c.handle, id)).out
  {
    hide Connection.View;
    assert ConnViews(reg).Keys == reg.Keys && Outs(reg).Keys == reg.Keys;
    AcceptEnqueues(sys, c.handle, id);
  }

  method CompleteOne(c: Connection, ok: bool, ghost reg: map<Handle, Connection>) returns (failed: bool)
    requires ValidConns(reg) && Registered(c, reg) && c.out.inFlight > 0
    modifies c
    ensures ValidConns(reg) && ConnViews(reg) == old(ConnViews(reg)) && failed == !ok
    ensures Outs(reg) == old(Outs(reg))[c.handle := Queues.Complete(old(c.out), ok)]
  {
    hide Queues.Complete, Queues.Valid, TextFrames;
    failed := c.WriteCompleted(ok);
  }

  /** The tables are not touched by leaving, joining or broadcasting. */
  lemma LeaveAllOther(s: State, k: Id)
    ensures var s' := LeaveAll(s, k);
            && s'.rows == s.rows && s'.accounts == s.accounts && s'.counter == s.counter
            && s'.conns.Keys == s.conns.Keys
  {
    LeaveRoomsFrame(s, k, if k in s.memberOf then s.memberOf[k] else []);
  }

  lemma JoinOther(s: State, h: Handle, r: Id)
    requires h in s.conns
    ensures var s' := JoinRoom(s, h, r);
            s'.rows == s.rows && s'.accounts == s.accounts && s'.counter == s.counter
  {
  }

  lemma SendOther(s: State, m: Text)
    ensures var s' := SendToChannel(s, m);
            s'.rows == s.rows && s'.accounts == s.accounts && s'.counter == s.counter
  {
  }
}
