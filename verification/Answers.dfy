/** How the handlers answer: which response each request leads to and what it leaves behind. */
module Answers {
  import opened Basics
  import opened Messages
  import opened MsgFactory
  import opened Rooms
  import opened RoomProofs
  import opened RoomLaws
  import opened Accounts
  import opened Server
  import Client = ChatClient

  // ----------------------------------------------------------------- lookups

  predicate Matches(a: Account, login: Bytes, password: Bytes) {
    a.login == login && a.password == password
  }

  /** Row `i` is the last one with this login and password. */
  predicate LastMatch(rows: seq<Account>, login: Bytes, password: Bytes, i: nat) {
    i < |rows| && Matches(rows[i], login, password) && forall j :: i < j < |rows| ==> !Matches(rows[j], login, password)
  }

  predicate NoMatch(rows: seq<Account>, login: Bytes, password: Bytes) {
    forall j :: 0 <= j < |rows| ==> !Matches(rows[j], login, password)
  }

  predicate LastOfLogin(rows: seq<Account>, login: Bytes, i: nat) {
    i < |rows| && rows[i].login == login && forall j :: i < j < |rows| ==> rows[j].login != login
  }

  predicate NoLogin(rows: seq<Account>, login: Bytes) {
    forall j :: 0 <= j < |rows| ==> rows[j].login != login
  }

  /** On any table whatever the scans find the last matching row, and -1 if there is none. */
  lemma {:induction false} ScansFindLast(rows: seq<Account>, login: Bytes, password: Bytes, i: nat)
    ensures LastMatch(rows, login, password, i) ==> CheckClient(rows, login, password) == rows[i].id
    ensures NoMatch(rows, login, password) ==> CheckClient(rows, login, password) == -1
    ensures LastOfLogin(rows, login, i) ==> LoginId(rows, login) == rows[i].id
    ensures NoLogin(rows, login) ==> LoginId(rows, login) == -1
  {
    if rows != [] {
      ScansFindLast(rows[..|rows| - 1], login, password, i);
    }
  }

  // ------------------------------------------------------------------ logins

  /** The state in which one connection has taken a login and an id, and nothing else has changed. */
  function Renamed(s: State, h: Handle, login: Bytes, id: Id): State
    requires h in s.conns
  {
    var c := s.conns[h];
    s.(conns := s.conns[h := Conn(id, login, c.room, c.busy, c.handed, c.joined, c.direct)])
  }

  /** A login that no row matches, in particular of somebody never registered, is answered with -1, and
      the connection is left under the requested name with that id. */
  lemma LoginRefused(s: State, h: Handle, login: Bytes, password: Bytes)
    requires h in s.conns && NoMatch(s.accounts, login, password)
    ensures RunTask(s, DoAutorisation(h, InRequest(login, password)))
         == Outcome(Renamed(s, h, login, -1), multiset{SendAutoResponse(h, -1)})
  {
    hide CheckClient, NoMatch;
    ScansFindLast(s.accounts, login, password, 0);
  }

  /** A login that some row matches is answered with the id of the last such row, and the connection
      takes that id and name. */
  lemma LoginAccepted(s: State, h: Handle, login: Bytes, password: Bytes, i: nat)
    requires h in s.conns && LastMatch(s.accounts, login, password, i)
    ensures RunTask(s, DoAutorisation(h, InRequest(login, password)))
         == Outcome(Renamed(s, h, login, s.accounts[i].id), multiset{SendAutoResponse(h, s.accounts[i].id)})
  {
    hide CheckClient;
    ScansFindLast(s.accounts, login, password, i);
  }

  /** Registering a login that no row has stores it with the next id, answers with that id, and the
      connection takes the id and the name. */
  lemma RegistrationAccepted(s: State, h: Handle, login: Bytes, password: Bytes)
    requires h in s.conns && NoLogin(s.accounts, login) && s.counter < TWO31 - 1
    ensures Runnable(s, DoRegistration(h, RegRequest(login, password)))
    ensures var id := s.counter + 1;
            RunTask(s, DoRegistration(h, RegRequest(login, password)))
            == Outcome(Renamed(s, h, login, id).(accounts := s.accounts + [Account(login, id, password)], counter := id),
                       multiset{SendRegResponse(h, id)})
  {
    hide LoginId, NoLogin;
    ScansFindLast(s.accounts, login, password, 0);
  }

  /** Registering a login that has a row stores nothing, answers with -1 and leaves the connection under
      the requested name with that id. */
  lemma RegistrationRefused(s: State, h: Handle, login: Bytes, password: Bytes, i: nat)
    requires h in s.conns && LastOfLogin(s.accounts, login, i) && s.accounts[i].id != -1
    ensures Runnable(s, DoRegistration(h, RegRequest(login, password)))
    ensures RunTask(s, DoRegistration(h, RegRequest(login, password)))
         == Outcome(Renamed(s, h, login, -1), multiset{SendRegResponse(h, -1)})
  {
    hide LoginId;
    ScansFindLast(s.accounts, login, password, i);
  }

  // --------------------------------------------------------------- responses

  function Sent(s: State, h: Handle, r: Response): State
    requires h in s.conns
  {
    var c := s.conns[h];
    s.(conns := s.conns[h := Conn(c.clientId, c.login, c.room, c.busy, c.handed, c.joined, c.direct + [r])])
  }

  /** What the posted answers write: OK is 1 and FAIL is 0. */
  lemma AnswersWritten(s: State, h: Handle, id: Id, room: Id)
    requires h in s.conns
    ensures RunTask(s, SendAutoResponse(h, id))
         == Outcome(Sent(s, h, InputResponse(if id == -1 then 0 else 1, 0, id, 0)), multiset{})
    ensures RunTask(s, SendRegResponse(h, id))
         == Outcome(Sent(s, h, RegResponse(if id == -1 then 0 else 1, 0, id, 0)), multiset{})
    ensures RunTask(s, SendJoinRoomResponse(h, room, true)) == Outcome(Sent(s, h, JoinRoomResponse(1, room)), multiset{})
    ensures RunTask(s, SendJoinRoomResponse(h, room, false)) == Outcome(Sent(s, h, JoinRoomResponse(0, room)), multiset{})
  {
  }

  // ------------------------------------------------------- joining and leaving

  /** Joining answers with the room asked for and leaves the connection busy in that room, under the
      name it had; the room is appended to the client's list, and the login index keeps the first
      name seen under an id. */
  lemma JoinAnswered(s: State, h: Handle, r: Id)
    requires h in s.conns
    ensures var outcome, c := RunTask(s, DoJoinRoom(h, JoinRoomRequest(r))), s.conns[h];
            && outcome.posts == multiset{SendJoinRoomResponse(h, r, true)}
            && h in outcome.state.conns
            && var c' := outcome.state.conns[h];
               && c'.room == r && c'.busy && c'.clientId == c.clientId && c'.login == c.login
               && c'.joined == c.joined + [r] && c'.direct == c.direct
    ensures var s', k := RunTask(s, DoJoinRoom(h, JoinRoomRequest(r))).state, s.conns[h].clientId;
            && k in s'.memberOf && s'.memberOf[k] == (if k in s.memberOf then s.memberOf[k] else []) + [r]
            && k in s'.loginOf && s'.loginOf[k] == (if k in s.loginOf then s.loginOf[k] else s.conns[h].login)
            && (forall j :: j != k ==> (j in s'.memberOf <==> j in s.memberOf) && (j in s'.loginOf <==> j in s.loginOf))
            && (forall j :: j != k && j in s.memberOf ==> s'.memberOf[j] == s.memberOf[j])
            && (forall j :: j != k && j in s.loginOf ==> s'.loginOf[j] == s.loginOf[j])
  {
    hide Lines, Repeat, Copies, JoinNotice, Load;
    JoinEffect(s, h, r);
    JoinListed(s, h, r);
  }

  /** A freed connection is called "unused", has id -1 and no room, and is not busy. */
  lemma FreedConnection(s: State, h: Handle)
    requires h in s.conns
    ensures var s' := Free(s, h);
            && h in s'.conns
            && var c := s'.conns[h];
               && c.clientId == -1 && c.login == [117, 110, 117, 115, 101, 100] && !c.busy && c.room == 0
               && c.joined == s.conns[h].joined && c.direct == s.conns[h].direct
  {
    var k := s.conns[h].clientId;
    LeaveRoomsFrame(s, k, if k in s.memberOf then s.memberOf[k] else []);
    assert Ascii("unused") == [117, 110, 117, 115, 101, 100];
  }

  /** A task whose request has another content than its handler expects: a login or registration frees
      the connection, a join or text is ignored, and nothing is answered. */
  lemma WrongContent(s: State, h: Handle, request: Request)
    requires h in s.conns
    ensures !request.InRequest? ==> RunTask(s, DoAutorisation(h, request)) == Outcome(Free(s, h), multiset{})
    ensures !request.RegRequest? ==> Runnable(s, DoRegistration(h, request))
                                     && RunTask(s, DoRegistration(h, request)) == Outcome(Free(s, h), multiset{})
    ensures !request.JoinRoomRequest? ==> RunTask(s, DoJoinRoom(h, request)) == Outcome(s, multiset{})
    ensures !request.TextRequest? ==> RunTask(s, DoTextMsg(h, request)) == Outcome(s, multiset{})
  {
    hide Free;
  }

  // ------------------------------------------------------------------ events

  /** What the events other than a task do to the rooms and tables: a new connection has no name, no
      room and no traffic; a failed read or write takes the connection's client out of every channel and
      index; reading a request and completing a write change nothing. */
  lemma EventsMean(sys: Sys, e: Event)
    requires Enabled(sys, e) && IndexAgrees(sys.state)
    ensures e.Accept? ==>
              NextState(sys, e) == sys.state.(conns := sys.state.conns[e.h := Conn(e.uninitialised, [], 0, true, [], [], [])])
    ensures e.Receive? || (e.Written? && e.ok) ==> NextState(sys, e) == sys.state
    ensures e.Drop? || (e.Written? && !e.ok) ==>
              var s', k := NextState(sys, e), sys.state.conns[e.h].clientId;
              && (forall r :: !Subscribed(s', k, r)) && k !in s'.memberOf && k !in s'.loginOf
              && e.h in s'.conns && s'.conns[e.h].clientId == -1
  {
    hide Free;
    if e.Drop? || e.Written? {
      FreeTwice(sys.state, e.h);
      FreedConnection(sys.state, e.h);
    }
  }

  function Times(here: bool): nat {
    if here then 1 else 0
  }

  /** An event takes the task it runs out of the pool once, and adds what it receives or posts. */
  lemma PoolBalance(sys: Sys, e: Event, t: Task)
    requires Enabled(sys, e)
    ensures NextPending(sys, e)[t] + Times(e == Execute(t))
         == sys.pending[t] + Times(e.Receive? && TaskOf(e.h, e.posted) == t)
            + (if e.Execute? then RunTask(sys.state, e.task).posts[t] else 0)
  {
    hide RunTask, TaskOf;
  }

  // ------------------------------------------------------ agreement on the id

  /** The answer to a login, read by any client that waits for one, gives it exactly the id that the
      login gave its connection on the server; a refusal closes it and leaves its id alone. */
  lemma IdsAgree(s: State, h: Handle, login: Bytes, password: Bytes, c: Client.Client)
    requires h in s.conns && c.waiting.ForHeader?
    ensures var outcome := RunTask(s, DoAutorisation(h, InRequest(login, password)));
            && h in outcome.state.conns
            && var id := outcome.state.conns[h].clientId;
               && outcome.posts == multiset{SendAutoResponse(h, id)}
               && Sendable(CreateInputResponse(id))
               && var c' := Client.Consume(c, ResponseFrame(CreateInputResponse(id)));
                  && c'.history == c.history
                  && (id != -1 ==> c'.clientId == id && c'.waiting.ForHeader?)
                  && (id == -1 ==> c'.clientId == c.clientId && c'.waiting.Closed?)
  {
    hide CheckClient, ResponseFrame, Client.Consume, Sendable, ResponseSize;
    var id := CheckClient(s.accounts, login, password);
    LoginResponsesFit(id);
    var frame := ResponseFrame(CreateInputResponse(id));
    assert frame + [] == frame;
    Client.ConsumeFrame(c, CreateInputResponse(id), []);
    Client.NothingToRead(Client.Absorb(c, CreateInputResponse(id)));
  }
}
