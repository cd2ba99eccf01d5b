/** `ChannelsManager`, as an object over the channels, the connections and the store. */
module ServerManager {
  import opened Basics
  import opened MsgFactory
  import opened Rooms
  import opened ServerObjects

  class ChannelsManager {
    var channels: map<Id, Channel>
    var clientInRooms: map<Id, seq<Id>>
    var clientidToLogin: map<Id, Bytes>

    ghost predicate Valid(reg: map<Handle, Connection>)
      reads this, channels.Values
    {
      forall r :: r in channels ==> channels[r].channelId == r && channels[r].Valid(reg)
    }

    constructor ()
      ensures channels == map[] && clientInRooms == map[] && clientidToLogin == map[]
    {
      channels, clientInRooms, clientidToLogin := map[], map[], map[];
    }

    method ListRoom(k: Id, room: Id, ghost s: State, ghost reg: map<Handle, Connection>)
      requires Valid(reg) && Shows(this, s, reg)
      modifies this`clientInRooms
      ensures Valid(reg) && Shows(this, Listing(s, k, room), reg)
    {
      hide Channel.Valid, Channel.View, ConnViews;
      if k !in clientInRooms {
        clientInRooms := clientInRooms[k := [room]];
        assert [] + [room] == [room];
      } else {
        clientInRooms := clientInRooms[k := clientInRooms[k] + [room]];
      }
    }

    /** The channel of the room, created if there is none. */
    method FindChannel(room: Id, db: Database, ghost s: State, ghost reg: map<Handle, Connection>)
      requires ValidConns(reg) && Valid(reg) && Shows(this, s, reg) && db.history == s.rows
      modifies this`channels
      ensures ValidConns(reg) && Valid(reg) && Shows(this, Open(s, room), reg)
      ensures fresh(channels.Values - old(channels.Values)) && room in channels
    {
      hide Channel.Valid, Channel.View, ConnViews, ValidConns, Load;
      if room !in channels {
        var channel := new Channel(room, db);
        channels := channels[room := channel];
      }
    }

    method JoinChannel(newSub: Connection, room: Id, ghost s: State, ghost reg: map<Handle, Connection>)
      requires ValidConns(reg) && Valid(reg) && Shows(this, s, reg) && Registered(newSub, reg) && room in channels
      modifies channels.Values, reg.Values
      ensures ValidConns(reg) && Valid(reg)
      ensures newSub.handle in s.conns && Shows(this, ChannelJoin(s, newSub.handle, room), reg)
      ensures Progress(reg) == old(Progress(reg))
    {
      hide Progress, Channel.Valid, Channel.View, ValidConns, Deliver, Lines, JoinNotice, Replayed, Enrolled;
      assert ConnViews(reg)[newSub.handle] == newSub.View();
      channels[room].Join(newSub, reg);
    }

    /** The first login seen under a client id stays. */
    method NoteLogin(k: Id, login: Bytes, ghost s: State, ghost reg: map<Handle, Connection>)
      requires Valid(reg) && Shows(this, s, reg)
      modifies this`clientidToLogin
      ensures Valid(reg)
      ensures Shows(this, s.(loginOf := if k in s.loginOf then s.loginOf else s.loginOf[k := login]), reg)
    {
      hide Channel.Valid, Channel.View, ConnViews;
      if k !in clientidToLogin {
        clientidToLogin := clientidToLogin[k := login];
      }
    }

    /** The connection remembers the room, and nothing else changes. */
    method SetRoom(newSub: Connection, room: Id, ghost s: State, ghost reg: map<Handle, Connection>)
      requires ValidConns(reg) && Valid(reg) && Shows(this, s, reg) && Registered(newSub, reg)
      requires newSub.handle in s.conns && s.conns[newSub.handle] == newSub.View()
      modifies newSub
      ensures ValidConns(reg) && Valid(reg)
      ensures Shows(this, s.(conns := Roomed(s.conns, newSub.handle, room)), reg)
      ensures Progress(reg) == old(Progress(reg))
    {
      hide Channel.Valid, Channel.View, ValidConns, ConnViews, Connection.View, Progress;
      NoteRoom(newSub, room, reg);
    }

    method SettleIn(newSub: Connection, room: Id, ghost s: State, ghost reg: map<Handle, Connection>)
      requires ValidConns(reg) && Valid(reg) && Shows(this, s, reg) && Registered(newSub, reg)
      modifies this`clientidToLogin, newSub
      ensures ValidConns(reg) && Valid(reg)
      ensures newSub.handle in s.conns && Shows(this, Settle(s, newSub.handle, room), reg)
      ensures Progress(reg) == old(Progress(reg))
    {
      hide ValidConns, Valid, Shows, Progress;
      ghost var h := newSub.handle;
      ShownConnection(this, s, reg, newSub, room);
      NoteLogin(newSub.clientId, newSub.login, s, reg);
      ghost var c := s.conns[h];
      SetRoom(newSub, room, s.(loginOf := if c.clientId in s.loginOf then s.loginOf else s.loginOf[c.clientId := c.login]), reg);
    }

    method Join(newSub: Connection, room: Id, db: Database, ghost s: State, ghost reg: map<Handle, Connection>)
      returns (flag: bool)
      requires ValidConns(reg) && Valid(reg) && Shows(this, s, reg) && Registered(newSub, reg)
      requires db.history == s.rows
      modifies this, channels.Values, reg.Values
      ensures ValidConns(reg) && Valid(reg)
      ensures newSub.handle in s.conns && Shows(this, JoinRoom(s, newSub.handle, room), reg)
      ensures fresh(channels.Values - old(channels.Values))
      ensures flag
      ensures Progress(reg) == old(Progress(reg))
    {
      hide Progress, ValidConns, ChannelJoin, Settle, JoinRoom, Shows, Valid;
      flag := true;
      ghost var h := newSub.handle;
      assert h in s.conns && s.conns[h].clientId == newSub.clientId && (room in s.rooms ==> s.rooms[room].id == room) by {
        ShownConnection(this, s, reg, newSub, room);
      }
      JoinSteps(s, h, room);
      ListRoom(newSub.clientId, room, s, reg);
      ghost var listed := Listing(s, newSub.clientId, room);
      FindChannel(room, db, listed, reg);
      JoinChannel(newSub, room, Open(listed, room), reg);
      SettleIn(newSub, room, ChannelJoin(Open(listed, room), h, room), reg);
    }

    method SendToChannel(data: Text, ghost s: State, ghost reg: map<Handle, Connection>)
      requires ValidConns(reg) && Valid(reg) && Shows(this, s, reg)
      modifies channels.Values, reg.Values
      ensures ValidConns(reg) && Valid(reg) && Shows(this, Rooms.SendToChannel(s, data), reg)
      ensures Progress(reg) == old(Progress(reg))
    {
      hide Progress, Channel.Valid, Channel.View, ConnViews, ValidConns, Deliver;
      if data.room in channels {
        var channel := channels[data.room];
        channel.Notification(data, false, reg);
      }
    }

    /** `Channel::leave` seen from the manager. */
    method LeaveChannel(k: Id, r: Id, ghost s: State, ghost reg: map<Handle, Connection>)
      requires ValidConns(reg) && Valid(reg) && Shows(this, s, reg) && r in channels
      modifies channels.Values, reg.Values
      ensures ValidConns(reg) && Valid(reg) && Shows(this, ChannelLeave(s, k, r), reg)
      ensures Progress(reg) == old(Progress(reg))
    {
      hide Progress, Channel.Valid, Channel.View, ConnViews, ValidConns, Deliver, LeaveNotice;
      var channel := channels[r];
      SubscribersAreRegistered(channel, reg, k);
      channel.Leave(k, reg);
    }

    /** One round of the loop below. */
    method LeaveOne(k: Id, r: Id, ghost s: State, ghost reg: map<Handle, Connection>)
      requires ValidConns(reg) && Valid(reg) && Shows(this, s, reg)
      modifies channels.Values, reg.Values
      ensures ValidConns(reg) && Valid(reg) && Shows(this, LeaveRoom(s, k, r), reg)
      ensures Progress(reg) == old(Progress(reg))
    {
      hide Progress, Valid, Shows, ValidConns, ChannelLeave, LeaveRoom, Subscribed;
      LeaveSteps(this, s, k, r, reg);
      if r in channels {
        LeaveChannel(k, r, s, reg);
      }
    }

    method LeaveListed(k: Id, rooms: seq<Id>, ghost s: State, ghost reg: map<Handle, Connection>)
      requires ValidConns(reg) && Valid(reg) && Shows(this, s, reg)
      modifies channels.Values, reg.Values
      ensures ValidConns(reg) && Valid(reg) && Shows(this, LeaveRooms(s, k, rooms), reg)
      ensures Progress(reg) == old(Progress(reg))
    {
      hide Progress, LeaveRoom, ValidConns, Shows, Valid;
      ghost var now := s;
      for i := 0 to |rooms|
        invariant ValidConns(reg) && Valid(reg) && Shows(this, now, reg)
        invariant LeaveRooms(now, k, rooms[i..]) == LeaveRooms(s, k, rooms)
        invariant Progress(reg) == old(Progress(reg))
      {
        LeaveOne(k, rooms[i], now, reg);
        now := LeaveRoom(now, k, rooms[i]);
        assert rooms[i..][1..] == rooms[i + 1..];
      }
    }

    /** Both client indexes forget the client. */
    method Forget(k: Id, ghost s: State, ghost reg: map<Handle, Connection>)
      requires Valid(reg) && Shows(this, s, reg)
      modifies this`clientInRooms, this`clientidToLogin
      ensures Valid(reg)
      ensures Shows(this, s.(memberOf := s.memberOf - {k}, loginOf := s.loginOf - {k}), reg)
    {
      hide Channel.Valid, Channel.View, ConnViews;
      clientInRooms := clientInRooms - {k};
      clientidToLogin := clientidToLogin - {k};
    }

    method LeaveFromAllChannels(k: Id, ghost s: State, ghost reg: map<Handle, Connection>)
      requires ValidConns(reg) && Valid(reg) && Shows(this, s, reg)
      modifies this`clientInRooms, this`clientidToLogin, channels.Values, reg.Values
      ensures ValidConns(reg) && Valid(reg) && Shows(this, LeaveAll(s, k), reg)
      ensures Progress(reg) == old(Progress(reg))
    {
      hide Progress, ValidConns, Valid, ConnViews, LeaveRooms;
      ghost var now := s;
      if k in clientInRooms {
        LeaveListed(k, clientInRooms[k], s, reg);
        now := LeaveRooms(s, k, s.memberOf[k]);
      }
      Forget(k, now, reg);
    }
  }

  lemma ShownConnection(mgr: ChannelsManager, s: State, reg: map<Handle, Connection>, c: Connection, r: Id)
    requires Shows(mgr, s, reg) && mgr.Valid(reg) && Registered(c, reg)
    ensures c.handle in s.conns && s.conns[c.handle] == c.View()
    ensures r in s.rooms ==> s.rooms[r].id == r
  {
    assert ConnViews(reg)[c.handle] == c.View();
    if r in s.rooms {
      assert r in mgr.channels && mgr.channels[r].View() == s.rooms[r];
    }
  }

  /** The connection remembers the room it joined last. */
  method NoteRoom(c: Connection, room: Id, ghost reg: map<Handle, Connection>)
    requires ValidConns(reg) && Registered(c, reg)
    modifies c
    ensures ValidConns(reg)
    ensures c.handle in old(ConnViews(reg))
    ensures ConnViews(reg) == Roomed(old(ConnViews(reg)), c.handle, room)
    ensures Progress(reg) == old(Progress(reg))
  {
    hide Connection.View, Connection.Valid;
    c.SetChannel(room);
  }

  ghost function Roomed(conns: map<Handle, Conn>, h: Handle, room: Id): map<Handle, Conn>
    requires h in conns
  {
    conns[h := conns[h].(room := room, joined := conns[h].joined + [room])]
  }

  /** The connection takes a login and an id. */
  method NoteIdentity(c: Connection, login: Bytes, id: Id, ghost reg: map<Handle, Connection>)
    requires ValidConns(reg) && Registered(c, reg)
    modifies c
    ensures ValidConns(reg)
    ensures c.handle in old(ConnViews(reg))
    ensures ConnViews(reg) == old(ConnViews(reg))[c.handle := old(ConnViews(reg))[c.handle].(login := login, clientId := id)]
    ensures Progress(reg) == old(Progress(reg))
  {
    hide Connection.View, Connection.Valid;
    c.SetIdentity(login, id);
  }

  method NoteUnused(c: Connection, ghost reg: map<Handle, Connection>)
    requires ValidConns(reg) && Registered(c, reg)
    modifies c
    ensures ValidConns(reg)
    ensures c.handle in old(ConnViews(reg))
    ensures ConnViews(reg) == Unused(old(ConnViews(reg)), c.handle)
    ensures Progress(reg) == old(Progress(reg))
  {
    hide Connection.View, Connection.Valid;
    c.Reset();
  }

  ghost function Unused(conns: map<Handle, Conn>, h: Handle): map<Handle, Conn>
    requires h in conns
  {
    conns[h := conns[h].(clientId := -1, login := Ascii("unused"), busy := false, room := 0)]
  }

  method NoteResponse(c: Connection, r: ServerResponse, ghost reg: map<Handle, Connection>)
    requires ValidConns(reg) && Registered(c, reg)
    modifies c
    ensures ValidConns(reg)
    ensures c.handle in old(ConnViews(reg))
    ensures ConnViews(reg) == old(ConnViews(reg))[c.handle := old(ConnViews(reg))[c.handle].(direct := old(ConnViews(reg))[c.handle].direct + [r])]
    ensures Progress(reg) == old(Progress(reg))
  {
    hide Connection.View, Connection.Valid, ResponseFrame;
    var _ := c.SendResponse(r);
  }

  // ------------------------------------------------- a join, step by step

  /** The client's list of rooms gains one. */
  ghost function Listing(s: State, k: Id, r: Id): State {
    s.(memberOf := s.memberOf[k := (if k in s.memberOf then s.memberOf[k] else []) + [r]])
  }

  /** `Channel::join` seen from the whole state. */
  ghost function ChannelJoin(s: State, h: Handle, r: Id): State
    requires h in s.conns && r in s.rooms
  {
    var c, room := s.conns[h], s.rooms[r];
    var after := Enrolled(room, c, h);
    s.(rooms := s.rooms[r := after],
       conns := Deliver(Replayed(s.conns, h, Lines(room.history)), after.subs, JoinNotice(c.login, r).data))
  }

  ghost function Settle(s: State, h: Handle, r: Id): State
    requires h in s.conns
  {
    var c := s.conns[h];
    s.(loginOf := if c.clientId in s.loginOf then s.loginOf else s.loginOf[c.clientId := c.login],
       conns := Roomed(s.conns, h, r))
  }

  lemma SettleCommutes(conns: map<Handle, Conn>, h: Handle, r: Id, lines: seq<Text>, subs: map<Id, Handle>, m: Text)
    requires h in conns
    ensures var c := conns[h];
            var a := Deliver(Replayed(conns, h, lines), subs, m);
            var b := Deliver(conns[h := c.(room := r, busy := true, handed := c.handed + lines, joined := c.joined + [r])], subs, m);
            a[h := a[h].(room := r, joined := a[h].joined + [r])] == b
  {
    hide Repeat, Copies;
  }

  /** The steps of `ChannelsManager.Join` amount to `JoinRoom`. */
  lemma JoinSteps(s: State, h: Handle, r: Id)
    requires h in s.conns && (r in s.rooms ==> s.rooms[r].id == r)
    ensures var ready := Open(Listing(s, s.conns[h].clientId, r), r);
            Settle(ChannelJoin(ready, h, r), h, r) == JoinRoom(s, h, r)
  {
    hide Deliver, JoinNotice, Lines, Load;
    var c, ready := s.conns[h], Open(Listing(s, s.conns[h].clientId, r), r);
    var room := ready.rooms[r];
    var after := Enrolled(room, c, h);
    var notice := JoinNotice(c.login, r);
    SettleCommutes(s.conns, h, r, Lines(room.history), after.subs, notice.data);
    ChannelJoinKeeps(ready, h, r);
  }

  lemma ChannelJoinKeeps(s: State, h: Handle, r: Id)
    requires h in s.conns && r in s.rooms
    ensures h in ChannelJoin(s, h, r).conns
    ensures ChannelJoin(s, h, r).conns[h].clientId == s.conns[h].clientId
    ensures ChannelJoin(s, h, r).conns[h].login == s.conns[h].login
  {
  }

  /** `Channel::leave` seen from the whole state. */
  ghost function ChannelLeave(s: State, k: Id, r: Id): State {
    if !Subscribed(s, k, r) || s.rooms[r].subs[k] !in s.conns then s
    else
      var room := s.rooms[r];
      var notice := LeaveNotice(s.conns[room.subs[k]].login, r);
      s.(rooms := s.rooms[r := room.(subs := room.subs - {k}, history := room.history + [notice])],
         conns := Deliver(s.conns, room.subs, notice.data))
  }

  lemma LeaveSteps(mgr: ChannelsManager, s: State, k: Id, r: Id, reg: map<Handle, Connection>)
    requires mgr.Valid(reg) && Shows(mgr, s, reg)
    ensures LeaveRoom(s, k, r) == if r in mgr.channels then ChannelLeave(s, k, r) else s
  {
    hide Deliver, LeaveNotice;
    if r in mgr.channels {
      SubscribersAreRegistered(mgr.channels[r], reg, k);
      assert mgr.channels[r].View() == s.rooms[r];
    }
  }

  lemma SubscribersAreRegistered(channel: Channel, reg: map<Handle, Connection>, k: Id)
    requires channel.Valid(reg)
    ensures k in channel.View().subs ==> channel.View().subs[k] in ConnViews(reg)
  {
  }

  /** The objects look like state `s`: its rooms, client indexes and connections. */
  ghost predicate Shows(mgr: ChannelsManager, s: State, reg: map<Handle, Connection>)
    reads mgr, mgr.channels.Values, reg.Values
  {
    && mgr.channels.Keys == s.rooms.Keys
    && (forall r :: r in mgr.channels ==> mgr.channels[r].View() == s.rooms[r])
    && mgr.clientInRooms == s.memberOf && mgr.clientidToLogin == s.loginOf
    && ConnViews(reg) == s.conns
  }
}
