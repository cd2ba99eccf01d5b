/** The server's objects, with the fields they update in place. Each method is proved against the
    operation of `Rooms`, `Accounts`, `SendQueue` or `Server` that it implements. */
module ServerObjects {
  import opened Basics
  import opened Messages
  import opened MsgFactory
  import opened Rooms
  import Accounts
  import Queues = SendQueue
  import Server
  import Reader = ServerReader
  import opened ChatClient

  /** The two tables of the store, as lists of rows. */
  class Database {
    var history: seq<Text>
    var logins: seq<Account>

    /** Opens a store with what earlier processes left in it. */
    constructor (history: seq<Text>, logins: seq<Account>)
      ensures this.history == history && this.logins == logins
    {
      this.history, this.logins := history, logins;
    }

    method SaveTextMsg(m: Text)
      modifies this`history
      ensures history == old(history) + [m]
    {
      history := history + [m];
    }

    method GetHistory(room: Id) returns (lines: seq<Text>)
      ensures lines == ForRoom(history, room)
    {
      lines := [];
      for i := 0 to |history|
        invariant lines == ForRoom(history[..i], room)
      {
        assert history[..i + 1][..i] == history[..i];
        if history[i].room == room {
          lines := lines + [history[i]];
        }
      }
      assert history[..|history|] == history;
    }

    method AddLogins(login: Bytes, id: Id, password: Bytes)
      modifies this`logins
      ensures logins == old(logins) + [Account(login, id, password)]
    {
      logins := logins + [Account(login, id, password)];
    }

    method GetLoginId(login: Bytes) returns (result: Id)
      ensures result == Accounts.LoginId(logins, login)
    {
      result := -1;
      for i := 0 to |logins|
        invariant result == Accounts.LoginId(logins[..i], login)
      {
        assert logins[..i + 1][..i] == logins[..i];
        if logins[i].login == login {
          result := logins[i].id;
        }
      }
      assert logins[..|logins|] == logins;
    }

    method CheckClient(login: Bytes, password: Bytes) returns (result: Id)
      ensures result == Accounts.CheckClient(logins, login, password)
    {
      result := -1;
      for i := 0 to |logins|
        invariant result == Accounts.CheckClient(logins[..i], login, password)
      {
        assert logins[..i + 1][..i] == logins[..i];
        if logins[i].login == login {
          if password == logins[i].password {
            result := logins[i].id;
          }
        }
      }
      assert logins[..|logins|] == logins;
    }
  }

  /** One accepted socket. The ghost fields record its traffic. */
  class Connection {
    const handle: Handle
    const reading: Reader.ReadLoop
    var clientId: Id
    var login: Bytes
    var roomId: Id
    var busy: bool
    var sendMsgsQueue: seq<Bytes>

    ghost var handed: seq<Text>
    ghost var joined: seq<Id>
    ghost var direct: seq<Response>
    ghost var out: Queues.Queue

    ghost predicate Valid()
      reads this
    {
      && out.pending == sendMsgsQueue
      && Queues.Valid(out)
      && out.added == Server.TextFrames(handed)
    }

    ghost function View(): (c: Conn)
      reads this
      ensures c.clientId == clientId && c.login == login && c.room == roomId
    {
      Conn(clientId, login, roomId, busy, handed, joined, direct)
    }

    /** The client id is whatever the uninitialised field holds. */
    constructor (handle: Handle, uninitialised: Id)
      ensures Valid() && this.handle == handle
      ensures fresh(reading) && reading.reader == Reader.START
      ensures View() == Conn(uninitialised, [], 0, true, [], [], []) && out == Queues.EMPTY
    {
      this.handle := handle;
      reading := new Reader.ReadLoop();
      clientId, login, roomId, busy := uninitialised, [], 0, true;
      sendMsgsQueue := [];
      handed, joined, direct, out := [], [], [], Queues.EMPTY;
    }

    /** Issues the write of the front message. */
    method SendingMsgsToClient()
      requires sendMsgsQueue != [] && out.pending == sendMsgsQueue
      modifies this`out
      ensures out == Queues.Start(old(out))
    {
      out := Queues.Start(out);
    }

    method AddMsgSendQueue(message: Bytes)
      requires out.pending == sendMsgsQueue
      modifies this`out, this`sendMsgsQueue
      ensures out == Queues.Add(old(out), message) && out.pending == sendMsgsQueue
    {
      var processWrite := sendMsgsQueue != [];
      sendMsgsQueue := sendMsgsQueue + [message];
      out := out.(pending := sendMsgsQueue, added := out.added + [message]);
      if !processWrite {
        SendingMsgsToClient();
      }
    }

    /** The completion handler of a queued write. A failed write must be followed by freeing the
        connection, which is what `failed` reports. */
    method WriteCompleted(ok: bool) returns (failed: bool)
      requires Valid() && out.inFlight > 0
      modifies this`out, this`sendMsgsQueue
      ensures Valid() && out == Queues.Complete(old(out), ok) && failed == !ok
    {
      Queues.CompleteKeepsValid(out, ok);
      failed := !ok;
      if ok {
        out := out.(inFlight := out.inFlight - 1, pending := out.pending[1..], written := out.written + [out.pending[0]]);
        sendMsgsQueue := sendMsgsQueue[1..];
        if sendMsgsQueue != [] {
          SendingMsgsToClient();
        }
      } else {
        out := out.(inFlight := out.inFlight - 1, failed := true);
      }
    }

    method SendMsgToClient(m: Text)
      requires Valid()
      modifies this`out, this`sendMsgsQueue, this`handed
      ensures Valid()
      ensures View() == old(View()).(handed := old(View()).handed + [m])
      ensures out.written == old(out.written) && out.failed == old(out.failed)
    {
      hide Server.TextFrame, Queues.Add, Queues.Valid;
      var message := BuildTextFrame(m);
      Queues.AddKeepsValid(out, message);
      AddMsgSendQueue(message);
      AddKeepsLog(old(out), message);
      handed := handed + [m];
      assert Server.TextFrames(handed) == Server.TextFrames(old(handed)) + [Server.TextFrame(m)];
    }

    method SetIdentity(newLogin: Bytes, id: Id)
      requires Valid()
      modifies this`login, this`clientId
      ensures Valid() && View() == old(View()).(login := newLogin, clientId := id)
    {
      login, clientId := newLogin, id;
    }

    /** The fields `free_connection` resets. */
    method Reset()
      requires Valid()
      modifies this`clientId, this`login, this`busy, this`roomId
      ensures Valid()
      ensures View() == old(View()).(clientId := -1, login := Ascii("unused"), busy := false, room := 0)
    {
      clientId, login, busy, roomId := -1, Ascii("unused"), false, 0;
    }

    /** Writes a response past the queue. */
    method SendResponse(r: ServerResponse) returns (message: Bytes)
      requires Valid()
      modifies this`direct
      ensures Valid() && View() == old(View()).(direct := old(View()).direct + [r])
      ensures message == ResponseFrame(r)
    {
      message := BuildFrame(r);
      direct := direct + [r];
    }

    method SetBusy(flag: bool)
      requires Valid()
      modifies this`busy
      ensures Valid() && View() == old(View()).(busy := flag)
    {
      busy := flag;
    }

    /** Called once for each join, which is what `joined` records. */
    method SetChannel(room: Id)
      requires Valid()
      modifies this`roomId, this`joined
      ensures Valid() && View() == old(View()).(room := room, joined := old(View()).joined + [room])
    {
      roomId := room;
      joined := joined + [room];
    }
  }

  lemma AddKeepsLog(q: Queues.Queue, message: Bytes)
    ensures var q' := Queues.Add(q, message);
            q'.added == q.added + [message] && q'.written == q.written && q'.failed == q.failed
  {
  }

  /** The frame of a response, built as the senders build it: a header, then `serialize_response`. */
  method BuildFrame(r: ServerResponse) returns (message: Bytes)
    ensures message == ResponseFrame(r)
  {
    hide EncodeResponse, ResponseSize, DecodeResponse, RawFrame, Frame;
    ResponseRoundTrip(r);
    RawIsFrame(ResponseCommand(r), EncodeResponse(r));
    var buffer := SerializeResponse(CreateHeader(ResponseCommand(r), 0), r);
    message := buffer[..];
  }

  method BuildTextFrame(m: Text) returns (message: Bytes)
    ensures message == Server.TextFrame(m)
  {
    hide EncodeResponse, ResponseSize, DecodeResponse, RawFrame, Frame;
    var response := CreateTextResponse(m);
    if Fits(m) {
      ResponseRoundTrip(response);
      RawIsFrame(ECHO_RESPONSE, EncodeResponse(response));
    }
    var buffer := SerializeResponse(CreateHeader(ECHO_RESPONSE, 0), response);
    message := buffer[..];
  }

  /** All connections, by handle. */
  ghost predicate ValidConns(reg: map<Handle, Connection>)
    reads reg.Values
  {
    forall h :: h in reg ==> reg[h].handle == h && reg[h].Valid()
  }

  ghost function ConnViews(reg: map<Handle, Connection>): map<Handle, Conn>
    reads reg.Values
  {
    map h | h in reg :: reg[h].View()
  }

  /** How far each connection's queue has been written, and whether a write has failed. */
  ghost function Progress(reg: map<Handle, Connection>): map<Handle, (seq<Bytes>, bool)>
    reads reg.Values
  {
    map h | h in reg :: (reg[h].out.written, reg[h].out.failed)
  }

  /** `Deliver`, for the subscriber entries in `done` only. */
  ghost function DeliverTo(conns: map<Handle, Conn>, subs: map<Id, Handle>, done: set<Id>, m: Text): map<Handle, Conn> {
    map h | h in conns :: conns[h].(handed := conns[h].handed + Repeat(m, |KeysOf(subs, h) * done|))
  }

  lemma RepeatOneMore(a: seq<Text>, m: Text, n: nat)
    ensures a + Repeat(m, n + 1) == a + Repeat(m, n) + [m]
  {
  }

  lemma DeliverNone(conns: map<Handle, Conn>, subs: map<Id, Handle>, m: Text)
    ensures DeliverTo(conns, subs, {}, m) == conns
  {
    forall h | h in conns ensures DeliverTo(conns, subs, {}, m)[h] == conns[h] {
      assert KeysOf(subs, h) * {} == {};
    }
  }

  lemma DeliverAll(conns: map<Handle, Conn>, subs: map<Id, Handle>, m: Text)
    ensures DeliverTo(conns, subs, subs.Keys, m) == Deliver(conns, subs, m)
  {
    forall h | h in conns ensures DeliverTo(conns, subs, subs.Keys, m)[h] == Deliver(conns, subs, m)[h] {
      assert KeysOf(subs, h) * subs.Keys == KeysOf(subs, h);
    }
  }

  lemma CountOneMore(subs: map<Id, Handle>, h: Handle, done: set<Id>, k: Id)
    requires k in subs && k !in done
    ensures |KeysOf(subs, h) * (done + {k})| == |KeysOf(subs, h) * done| + if h == subs[k] then 1 else 0
  {
    var keys := KeysOf(subs, h);
    if h == subs[k] {
      assert keys * (done + {k}) == keys * done + {k};
    } else {
      assert keys * (done + {k}) == keys * done;
    }
  }

  lemma DeliverOneMore(conns: map<Handle, Conn>, subs: map<Id, Handle>, done: set<Id>, k: Id, m: Text)
    requires k in subs && k !in done && subs[k] in conns
    ensures DeliverTo(conns, subs, done + {k}, m) == Hand(DeliverTo(conns, subs, done, m), subs[k], m)
  {
    hide KeysOf, Repeat;
    forall h | h in conns
      ensures DeliverTo(conns, subs, done + {k}, m)[h] == Hand(DeliverTo(conns, subs, done, m), subs[k], m)[h]
    {
      CountOneMore(subs, h, done, k);
      RepeatOneMore(conns[h].handed, m, |KeysOf(subs, h) * done|);
    }
  }

  ghost function Hand(conns: map<Handle, Conn>, h: Handle, m: Text): map<Handle, Conn>
    requires h in conns
  {
    conns[h := conns[h].(handed := conns[h].handed + [m])]
  }

  /** Sending a line to one connection, seen from all of them. */
  method HandTo(c: Connection, m: Text, ghost reg: map<Handle, Connection>)
    requires ValidConns(reg) && Registered(c, reg)
    modifies c
    ensures ValidConns(reg)
    ensures ConnViews(reg) == Hand(old(ConnViews(reg)), c.handle, m)
    ensures Progress(reg) == old(Progress(reg))
  {
    hide Connection.View, Connection.Valid;
    c.SendMsgToClient(m);
  }

  method MarkBusy(c: Connection, ghost reg: map<Handle, Connection>)
    requires ValidConns(reg) && Registered(c, reg)
    modifies c
    ensures ValidConns(reg)
    ensures ConnViews(reg) == Replayed(old(ConnViews(reg)), c.handle, [])
    ensures Progress(reg) == old(Progress(reg))
  {
    hide Connection.View, Connection.Valid;
    c.SetBusy(true);
    assert old(c.View()).handed + [] == old(c.View()).handed;
  }

  /** A room: who is subscribed and what was said. */
  class Channel {
    const channelId: Id
    var subscribers: map<Id, Connection>
    var historyRoom: seq<Text>
    ghost var entries: seq<Entry>

    ghost predicate Valid(reg: map<Handle, Connection>)
      reads this
    {
      && historyRoom == Lines(entries)
      && (forall k :: k in subscribers ==>
            subscribers[k].handle in reg && reg[subscribers[k].handle] == subscribers[k])
    }

    ghost function View(): (room: Room)
      reads this
      ensures room.id == channelId
    {
      Room(channelId, map k | k in subscribers :: subscribers[k].handle, entries)
    }

    constructor (room: Id, db: Database)
      ensures forall reg :: Valid(reg)
      ensures View() == Room(room, map[], Load(db.history, room))
    {
      var lines := db.GetHistory(room);
      channelId, subscribers, historyRoom := room, map[], lines;
      entries := Load(db.history, room);
    }

    /** The loop over the subscribers, in whatever order the map yields them. */
    method SendToAll(data: Text, ghost reg: map<Handle, Connection>)
      requires ValidConns(reg) && Valid(reg)
      modifies reg.Values
      ensures ValidConns(reg)
      ensures ConnViews(reg) == Deliver(old(ConnViews(reg)), View().subs, data)
      ensures Progress(reg) == old(Progress(reg))
    {
      hide Progress, Server.TextFrames, Queues.Valid, DeliverTo, Hand, Deliver, Lines, Connection.View, Connection.Valid;
      ghost var before, subs := ConnViews(reg), View().subs;
      ghost var done: set<Id> := {};
      DeliverNone(before, subs, data);
      var todo := subscribers.Keys;
      while todo != {}
        invariant done + todo == subscribers.Keys && done !! todo
        invariant ValidConns(reg)
        invariant ConnViews(reg) == DeliverTo(before, subs, done, data)
        invariant Progress(reg) == old(Progress(reg))
        decreases todo
      {
        var k :| k in todo;
        HandTo(subscribers[k], data, reg);
        DeliverOneMore(before, subs, done, k, data);
        todo, done := todo - {k}, done + {k};
      }
      assert done == subs.Keys;
      DeliverAll(before, subs, data);
    }

    method Notification(data: Text, ghost notice: bool, ghost reg: map<Handle, Connection>)
      requires ValidConns(reg) && Valid(reg)
      modifies this`historyRoom, this`entries, reg.Values
      ensures ValidConns(reg) && Valid(reg)
      ensures View() == old(View()).(history := old(View()).history + [Entry(data, notice)])
      ensures ConnViews(reg) == Deliver(old(ConnViews(reg)), old(View()).subs, data)
      ensures Progress(reg) == old(Progress(reg))
    {
      hide Progress, Server.TextFrames, Queues.Valid, Deliver, Connection.View, Connection.Valid;
      SendToAll(data, reg);
      historyRoom, entries := historyRoom + [data], entries + [Entry(data, notice)];
    }

    /** The replay at the start of a join. */
    method Replay(newSub: Connection, ghost reg: map<Handle, Connection>)
      requires ValidConns(reg) && Registered(newSub, reg)
      modifies newSub
      ensures ValidConns(reg)
      ensures ConnViews(reg) == Replayed(old(ConnViews(reg)), newSub.handle, historyRoom)
      ensures Progress(reg) == old(Progress(reg))
    {
      hide Progress, Server.TextFrames, Queues.Valid, Connection.Valid;
      ghost var before := ConnViews(reg);
      MarkBusy(newSub, reg);
      for i := 0 to |historyRoom|
        invariant ValidConns(reg)
        invariant ConnViews(reg) == Replayed(before, newSub.handle, historyRoom[..i])
        invariant Progress(reg) == old(Progress(reg))
      {
        HandTo(newSub, historyRoom[i], reg);
        ReplayOneMore(before, newSub.handle, historyRoom, i);
      }
      assert historyRoom[..|historyRoom|] == historyRoom;
    }

    /** The first connection under a client id stays. */
    method TryEmplace(newSub: Connection, ghost reg: map<Handle, Connection>)
      requires Valid(reg) && Registered(newSub, reg)
      modifies this`subscribers
      ensures Valid(reg)
      ensures View() == old(View()).(subs := if newSub.clientId in old(View()).subs then old(View()).subs
                                             else old(View()).subs[newSub.clientId := newSub.handle])
    {
      if newSub.clientId !in subscribers {
        subscribers := subscribers[newSub.clientId := newSub];
      }
    }

    method Join(newSub: Connection, ghost reg: map<Handle, Connection>)
      requires ValidConns(reg) && Valid(reg) && Registered(newSub, reg)
      modifies this, reg.Values
      ensures ValidConns(reg) && Valid(reg)
      ensures View() == Enrolled(old(View()), old(newSub.View()), newSub.handle)
      ensures ConnViews(reg) == Deliver(Replayed(old(ConnViews(reg)), newSub.handle, Lines(old(View()).history)),
                                        View().subs, JoinNotice(old(newSub.login), channelId).data)
      ensures Progress(reg) == old(Progress(reg))
    {
      hide Progress, Server.TextFrames, Queues.Valid, Deliver, Connection.Valid;
      var message := newSub.login + Ascii(" joined to room_id=") + Decimal(channelId);
      ghost var before := ConnViews(reg);
      assert before[newSub.handle] == newSub.View();
      Replay(newSub, reg);
      assert ConnViews(reg)[newSub.handle] == newSub.View();
      TryEmplace(newSub, reg);
      Notification(Text(channelId, newSub.login, message), true, reg);
    }

    method Erase(k: Id, ghost reg: map<Handle, Connection>)
      requires Valid(reg)
      modifies this`subscribers
      ensures Valid(reg) && View() == old(View()).(subs := old(View()).subs - {k})
    {
      subscribers := subscribers - {k};
    }

    /** `leave(client_id)`. */
    method Leave(k: Id, ghost reg: map<Handle, Connection>)
      requires ValidConns(reg) && Valid(reg)
      modifies this, reg.Values
      ensures ValidConns(reg) && Valid(reg)
      ensures k !in old(View()).subs ==> View() == old(View()) && ConnViews(reg) == old(ConnViews(reg))
      ensures k in old(View()).subs ==>
                var notice := LeaveNotice(old(ConnViews(reg))[old(View()).subs[k]].login, channelId);
                && View() == old(View()).(subs := old(View()).subs - {k}, history := old(View()).history + [notice])
                && ConnViews(reg) == Deliver(old(ConnViews(reg)), old(View()).subs, notice.data)
      ensures Progress(reg) == old(Progress(reg))
    {
      hide Progress, Lines, ValidConns, Server.TextFrames, Queues.Valid, Deliver, Connection.Valid;
      if k in subscribers {
        var sub := subscribers[k];
        assert ConnViews(reg)[sub.handle] == sub.View();
        var message := sub.login + Ascii(" leave from room_id=") + Decimal(channelId);
        Notification(Text(channelId, sub.login, message), true, reg);
        Erase(k, reg);
      }
    }
  }

  ghost predicate Registered(c: Connection, reg: map<Handle, Connection>) {
    c.handle in reg && reg[c.handle] == c
  }

  /** The connections after one of them was marked busy and sent some lines. */
  ghost function Replayed(conns: map<Handle, Conn>, h: Handle, lines: seq<Text>): map<Handle, Conn>
    requires h in conns
  {
    conns[h := conns[h].(busy := true, handed := conns[h].handed + lines)]
  }

  lemma ReplayOneMore(conns: map<Handle, Conn>, h: Handle, lines: seq<Text>, i: nat)
    requires h in conns && i < |lines|
    ensures Hand(Replayed(conns, h, lines[..i]), h, lines[i]) == Replayed(conns, h, lines[..i + 1])
  {
    assert conns[h].handed + lines[..i] + [lines[i]] == conns[h].handed + lines[..i + 1];
  }

  /** A room after connection `h`, which looked like `c`, has joined it. */
  ghost function Enrolled(room: Room, c: Conn, h: Handle): Room {
    Room(room.id,
         if c.clientId in room.subs then room.subs else room.subs[c.clientId := h],
         room.history + [JoinNotice(c.login, room.id)])
  }
}
