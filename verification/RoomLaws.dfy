/** What the operations on rooms guarantee beyond keeping the invariants. */
module RoomLaws {
  import opened Basics
  import opened Rooms
  import opened RoomProofs

  // ------------------------------------------------------ freeing a connection

  lemma FreeKeeps(s: State, h: Handle)
    requires h in s.conns && IndexAgrees(s)
    ensures IndexAgrees(Free(s, h))
    ensures RoomsSound(s) ==> RoomsSound(Free(s, h))
    ensures Archived(s) ==> Archived(Free(s, h))
    ensures Connected(s) ==> Connected(Free(s, h))
  {
    hide Sent, ForRoom, LeaveRooms;
    var k := s.conns[h].clientId;
    var s1, s' := LeaveAll(s, k), Free(s, h);
    LeaveAllEffect(s, k);
    LeaveAllKeeps(s, k);
    assert s'.rooms == s1.rooms && s'.rows == s1.rows && s'.memberOf == s1.memberOf;
    LiveDependsOnRooms(s1, s');
    assert forall k', r :: Listed(s', k', r) <==> Listed(s1, k', r);
  }

  lemma FreeFair(s: State, h: Handle, h': Handle, r: Id)
    requires h in s.conns && FairAt(s, h', r)
    ensures FairAt(Free(s, h), h', r)
  {
    hide FairAt, LeaveRooms;
    LeaveAllFair(s, s.conns[h].clientId, h', r);
    SameTrafficFair(LeaveAll(s, s.conns[h].clientId), Free(s, h), h', r);
  }

  /** Freeing a connection takes it out of every room if and only if all its subscriptions are under
      the client id it has. */
  lemma FreeIsComplete(s: State, h: Handle)
    requires h in s.conns && IndexAgrees(s)
    ensures !LiveSomewhere(Free(s, h), h) <==>
            forall k, r :: Under(s, k, r, h) ==> k == s.conns[h].clientId
  {
    var own := s.conns[h].clientId;
    var s1, s' := LeaveAll(s, own), Free(s, h);
    LeaveAllEffect(s, own);
    LiveDependsOnRooms(s1, s');
    assert forall k, r :: Under(s1, k, r, h) <==> Under(s, k, r, h) && k != own;
    if k: Id, r: Id :| Under(s, k, r, h) && k != own {
      assert Under(s1, k, r, h) && Live(s1, h, r);
    }
  }

  // ---------------------------------------------------- who hears a leave notice

  /** A leave notice reaches every connection that is in the room once, the leaver's own included. */
  lemma LeaveRoomHeard(s: State, k: Id, r: Id, h: Handle, r': Id)
    requires h in s.conns && OnceAt(s, h, r')
    ensures h in LeaveRoom(s, k, r).conns
    ensures ForRoom(LeaveRoom(s, k, r).conns[h].handed, r') == ForRoom(s.conns[h].handed, r')
              + if r' == r && Subscribed(s, k, r) && Live(s, h, r)
                then [LeaveNotice(LoginOf(s, s.rooms[r].subs[k]), r).data] else []
  {
    hide OnceAt, Live, ForRoom, Deliver, LeaveNotice;
    if Subscribed(s, k, r) {
      var login := LoginOf(s, s.rooms[r].subs[k]);
      LeaveNoticeRoom(login, r);
      NotifyHanded(s, r, LeaveNotice(login, r), h, r');
    }
  }

  /** The lines that a connection hears in a room when client `k` leaves the rooms `rs`. */
  ghost function HeardOf(s: State, k: Id, rs: seq<Id>, h: Handle, r: Id): seq<Text> {
    if r in rs && Subscribed(s, k, r) && Live(s, h, r)
    then [LeaveNotice(LoginOf(s, s.rooms[r].subs[k]), r).data] else []
  }

  lemma HeardOnce(s: State, k: Id, first: Id, rest: seq<Id>, h: Handle, r: Id)
    ensures HeardOf(s, k, [first], h, r) + HeardOf(LeaveRoom(s, k, first), k, rest, h, r)
         == HeardOf(s, k, [first] + rest, h, r)
  {
    hide LeaveRoom, LeaveNotice, Live;
    LeaveRoomFrame(s, k, first);
    if r != first {
      LeaveRoomElsewhere(s, k, first, h, r);
    }
  }

  lemma LeaveRoomElsewhere(s: State, k: Id, first: Id, h: Handle, r: Id)
    requires r != first
    ensures Live(LeaveRoom(s, k, first), h, r) <==> Live(s, h, r)
    ensures Subscribed(s, k, r) ==>
              Subscribed(LeaveRoom(s, k, first), k, r)
              && LoginOf(LeaveRoom(s, k, first), s.rooms[r].subs[k]) == LoginOf(s, s.rooms[r].subs[k])
  {
    hide LeaveRoom;
    LeaveRoomFrame(s, k, first);
    SameEntries(s, LeaveRoom(s, k, first), h, r);
  }

  lemma {:induction false} LeaveRoomsHeard(s: State, k: Id, rs: seq<Id>, h: Handle, r: Id)
    requires h in s.conns && OnceAt(s, h, r)
    ensures ForRoom(LeaveRooms(s, k, rs).conns[h].handed, r) == ForRoom(s.conns[h].handed, r) + HeardOf(s, k, rs, h, r)
    decreases |rs|
  {
    hide OnceAt, Live, ForRoom, LeaveRoom, HeardOf, Subscribed, LeaveNotice;
    if rs == [] {
      HeardNothing(s, k, h, r);
    } else {
      var s1 := LeaveRoom(s, k, rs[0]);
      LeaveRoomHeard(s, k, rs[0], h, r);
      HeardFirst(s, k, rs[0], h, r);
      LeaveRoomOnce(s, k, rs[0], h, r);
      LeaveRoomsHeard(s1, k, rs[1..], h, r);
      HeardOnce(s, k, rs[0], rs[1..], h, r);
      assert rs == [rs[0]] + rs[1..];
      Associative(ForRoom(s.conns[h].handed, r), HeardOf(s, k, [rs[0]], h, r), HeardOf(s1, k, rs[1..], h, r));
    }
  }

  lemma HeardNothing(s: State, k: Id, h: Handle, r: Id)
    ensures HeardOf(s, k, [], h, r) == []
  {
  }

  lemma HeardFirst(s: State, k: Id, first: Id, h: Handle, r: Id)
    ensures HeardOf(s, k, [first], h, r)
         == if r == first && Subscribed(s, k, first) && Live(s, h, first)
            then [LeaveNotice(LoginOf(s, s.rooms[first].subs[k]), first).data] else []
  {
  }

  lemma LeaveRoomOnce(s: State, k: Id, first: Id, h: Handle, r: Id)
    requires OnceAt(s, h, r)
    ensures OnceAt(LeaveRoom(s, k, first), h, r)
  {
    hide LeaveRoom;
    LeaveRoomFrame(s, k, first);
    assert forall j :: Under(LeaveRoom(s, k, first), j, r, h) ==> Under(s, j, r, h);
  }

  /** Leaving all channels: everybody who is in a room of the client once, the client's own connection
      included, hears exactly one notice there, and nobody hears anything elsewhere. */
  lemma LeaveAllHeard(s: State, k: Id, h: Handle, r: Id)
    requires IndexAgrees(s) && h in s.conns && OnceAt(s, h, r)
    ensures h in LeaveAll(s, k).conns
    ensures ForRoom(LeaveAll(s, k).conns[h].handed, r) == ForRoom(s.conns[h].handed, r)
              + if Subscribed(s, k, r) && Live(s, h, r)
                then [LeaveNotice(LoginOf(s, s.rooms[r].subs[k]), r).data] else []
  {
    hide OnceAt, Live, ForRoom, LeaveRooms, LeaveNotice;
    var rs := if k in s.memberOf then s.memberOf[k] else [];
    LeaveRoomsHeard(s, k, rs, h, r);
    LeaveRoomsNone(s, k);
    assert Listed(s, k, r) <==> r in rs;
  }

  predicate SameChannels(s: State, s': State) {
    s.rooms == s'.rooms && s.memberOf == s'.memberOf && s.loginOf == s'.loginOf
  }

  /** After a connection is freed its client id is nowhere in the channels. Freeing it again, now
      under id -1, changes nothing there if and only if nobody is registered under -1. */
  lemma FreeTwice(s: State, h: Handle)
    requires h in s.conns && IndexAgrees(s)
    ensures var k, s1 := s.conns[h].clientId, Free(s, h);
            && (forall r :: !Subscribed(s1, k, r)) && k !in s1.memberOf && k !in s1.loginOf
            && (SameChannels(s1, Free(s1, h)) <==> -1 !in s1.memberOf)
  {
    var k, s1 := s.conns[h].clientId, Free(s, h);
    LeaveAllEffect(s, k);
    FreeKeeps(s, h);
    LiveDependsOnRooms(LeaveAll(s, k), s1);
    if -1 !in s1.memberOf {
      assert -1 !in s1.loginOf;
      assert s1.memberOf - {-1} == s1.memberOf && s1.loginOf - {-1} == s1.loginOf;
      assert SameChannels(s1, LeaveAll(s1, -1));
    } else {
      LeaveAllEffect(s1, -1);
    }
  }

  /** Two connections; the first is refused a login, which leaves it with id -1, and joins a room
      under that id. Freeing the second one twice then takes the first one's membership away. */
  lemma FreeTwiceDisturbs()
    ensures var lobby := LOBBY.(conns := map[7 := NEWCOMER, 8 := NEWCOMER]);
            var s := JoinRoom(Relogin(lobby, 7, [65], -1), 7, 5);
            && 8 in s.conns && 8 in Free(s, 8).conns
            && Subscribed(s, -1, 5) && Subscribed(Free(s, 8), -1, 5)
            && !Subscribed(Free(Free(s, 8), 8), -1, 5)
            && !SameChannels(Free(s, 8), Free(Free(s, 8), 8))
  {
    hide LeaveAll, Notify, Enrol;
    var lobby := LOBBY.(conns := map[7 := NEWCOMER, 8 := NEWCOMER]);
    var s0 := Relogin(lobby, 7, [65], -1);
    assert IndexAgrees(s0);
    var s := JoinRoom(s0, 7, 5);
    JoinKeeps(s0, 7, 5);
    JoinMembership(s0, 7, 5);
    JoinOthers(s0, 7, 5, 8);
    LeaveAllEffect(s, 1);
    var s1 := Free(s, 8);
    FreeKeeps(s, 8);
    LiveDependsOnRooms(LeaveAll(s, 1), s1);
    LeaveAllEffect(s1, -1);
    LiveDependsOnRooms(LeaveAll(s1, -1), Free(s1, 8));
  }

  lemma JoinOthers(s: State, h: Handle, r: Id, h': Handle)
    requires h in s.conns && h' in s.conns
    ensures h' in JoinRoom(s, h, r).conns
    ensures JoinRoom(s, h, r).conns[h'].clientId == s.conns[h'].clientId
  {
  }

  // --------------------------------------------------------- logging in again

  /** A login changes no subscription and no delivery, whatever id it gives. */
  lemma ReloginKeeps(s: State, h: Handle, login: Bytes, id: Id)
    requires h in s.conns
    ensures IndexAgrees(s) ==> IndexAgrees(Relogin(s, h, login, id))
    ensures RoomsSound(s) ==> RoomsSound(Relogin(s, h, login, id))
    ensures Archived(s) ==> Archived(Relogin(s, h, login, id))
    ensures Connected(s) ==> Connected(Relogin(s, h, login, id))
    ensures forall h', r :: FairAt(s, h', r) ==> FairAt(Relogin(s, h, login, id), h', r)
  {
    var s' := Relogin(s, h, login, id);
    LiveDependsOnRooms(s, s');
    assert forall k, r :: Listed(s', k, r) <==> Listed(s, k, r);
    hide FairAt;
    forall h', r | FairAt(s, h', r) ensures FairAt(s', h', r) {
      SameTrafficFair(s, s', h', r);
    }
  }

  /** `a` is how `b` ends. */
  predicate EndsWith(b: seq<Text>, a: seq<Text>) {
    |a| <= |b| && b[|b| - |a|..] == a
  }

  /** What a subscribed connection was handed for a room ends with the room's entire history, and
      is exactly that history if it joined once. */
  lemma LiveEndsWithHistory(s: State, h: Handle, r: Id)
    requires h in s.conns
    ensures ExplainedAt(s, h, r) && Live(s, h, r) ==> EndsWith(ForRoom(s.conns[h].handed, r), HistoryOf(s, r))
    ensures ExplainedAt(s, h, r) && Live(s, h, r) && Count(s.conns[h].joined, r) == 1 ==>
            ForRoom(s.conns[h].handed, r) == HistoryOf(s, r)
  {
    if ExplainedAt(s, h, r) && Live(s, h, r) {
      var c := s.conns[h];
      var segs :| Explains(segs, ForRoom(c.handed, r), Count(c.joined, r), HistoryOf(s, r), Live(s, h, r));
      assert Flatten(segs) == Flatten(segs[..|segs| - 1]) + HistoryOf(s, r);
      if |segs| == 1 {
        assert segs[..0] == [];
      }
    }
  }

  /** What a connection that joined a room at most once was handed for it is a prefix of the
      room's history, so any two of them saw one order of messages. */
  lemma OneJoinIsPrefix(s: State, h: Handle, r: Id)
    requires h in s.conns && ExplainedAt(s, h, r) && Count(s.conns[h].joined, r) <= 1
    ensures ForRoom(s.conns[h].handed, r) <= HistoryOf(s, r)
  {
    var c := s.conns[h];
    var segs :| Explains(segs, ForRoom(c.handed, r), Count(c.joined, r), HistoryOf(s, r), Live(s, h, r));
    if |segs| == 1 {
      assert segs[..0] == [];
      assert Flatten(segs) == Flatten(segs[..0]) + segs[0];
    }
  }

  const NEWCOMER := Conn(1, [], 0, true, [], [], [])
  const LOBBY := State(map[], map[], map[], [], [], 0, map[7 := NEWCOMER])

  /** What one join does to the room and to the connection that joins. */
  lemma JoinEffect(s: State, h: Handle, r: Id)
    requires h in s.conns
    ensures var s', c, room := JoinRoom(s, h, r), s.conns[h], Open(s, r).rooms[r];
            var e := JoinNotice(c.login, r);
            var subs := if c.clientId in room.subs then room.subs else room.subs[c.clientId := h];
            && r in s'.rooms && s'.rooms[r] == Room(room.id, subs, room.history + [e])
            && h in s'.conns
            && s'.conns[h].handed == c.handed + Lines(room.history) + Repeat(e.data, Copies(subs, h))
            && s'.conns[h].joined == c.joined + [r]
            && s'.conns[h].room == r && s'.conns[h].clientId == c.clientId && s'.conns[h].login == c.login
            && s'.conns[h].direct == c.direct
  {
  }

  /** A join adds the one membership it is for and disturbs no other: whoever was subscribed under
      some id stays subscribed under it, also when a second connection joins with the same id. */
  lemma JoinMembership(s: State, h: Handle, r: Id)
    requires h in s.conns
    ensures var s', k := JoinRoom(s, h, r), s.conns[h].clientId;
            && (forall k', r' :: Subscribed(s', k', r') <==> Subscribed(s, k', r') || (k' == k && r' == r))
            && (forall k', r' :: Subscribed(s, k', r') ==> s'.rooms[r'].subs[k'] == s.rooms[r'].subs[k'])
            && (!Subscribed(s, k, r) ==> Live(s', h, r))
  {
    var s1 := Open(s, r);
    var s2, s' := Enrol(s1, h, r), JoinRoom(s, h, r);
    OpenFrame(s, r);
    EnrolFrame(s1, h, r);
    NotifyFrame(s2, r, JoinNotice(s.conns[h].login, r));
    if !Subscribed(s, s.conns[h].clientId, r) {
      assert Under(s', s.conns[h].clientId, r, h);
    }
  }

  // ------------------------------------------------ leaving through the manager

  /** `ChannelsManager::leave` drops the client's whole list of rooms, so it keeps the two indexes
      in agreement if and only if it does nothing or that room is the only one in the list. */
  lemma ManagerLeaveAgrees(s: State, k: Id, r: Id)
    requires IndexAgrees(s)
    ensures IndexAgrees(ManagerLeave(s, k, r)) <==>
            k !in s.memberOf || r !in s.rooms || forall x :: x in s.memberOf[k] ==> x == r
  {
    if k in s.memberOf && r in s.rooms {
      var s1, s' := LeaveRoom(s, k, r), ManagerLeave(s, k, r);
      LeaveRoomFrame(s, k, r);
      LeaveRoomOther(s, k, r);
      LiveDependsOnRooms(s1, s');
      assert forall k', r' :: Listed(s', k', r') <==> Listed(s, k', r') && k' != k;
      if x :| x in s.memberOf[k] && x != r {
        assert Listed(s, k, x) && Subscribed(s', k, x) && !Listed(s', k, x);
      } else {
        forall k', r' ensures Subscribed(s', k', r') <==> Listed(s', k', r') {
          assert Listed(s, k, r') ==> r' == r;
        }
      }
    }
  }

  lemma JoinListed(s: State, h: Handle, r: Id)
    requires h in s.conns
    ensures var k := s.conns[h].clientId;
            JoinRoom(s, h, r).memberOf == s.memberOf[k := (if k in s.memberOf then s.memberOf[k] else []) + [r]]
  {
  }

  /** Two joins and one such leave break the agreement. */
  lemma ManagerLeaveBreaks()
    ensures 7 in JoinRoom(LOBBY, 7, 5).conns
    ensures var s := JoinRoom(JoinRoom(LOBBY, 7, 5), 7, 6);
            IndexAgrees(s) && !IndexAgrees(ManagerLeave(s, 1, 5))
  {
    hide JoinRoom, ManagerLeave;
    assert IndexAgrees(LOBBY);
    JoinKeeps(LOBBY, 7, 5);
    JoinEffect(LOBBY, 7, 5);
    JoinListed(LOBBY, 7, 5);
    var s1 := JoinRoom(LOBBY, 7, 5);
    JoinKeeps(s1, 7, 6);
    JoinListed(s1, 7, 6);
    var s := JoinRoom(s1, 7, 6);
    ManagerLeaveAgrees(s, 1, 5);
    assert Listed(s, 1, 5) && Subscribed(s, 1, 5);
    assert 6 in s.memberOf[1];
  }

  // --------------------------------------------------------- reordering texts

  function SayAll(s: State, ms: seq<Text>): State {
    if ms == [] then s else SayText(SayAll(s, ms[..|ms| - 1]), ms[|ms| - 1])
  }

  /** Every line of `ms`, each `n` times over. */
  function Stretch(ms: seq<Text>, n: nat): seq<Text> {
    if ms == [] then [] else Stretch(ms[..|ms| - 1], n) + Repeat(ms[|ms| - 1], n)
  }

  function AsEntries(ms: seq<Text>): seq<Entry> {
    seq(|ms|, i requires 0 <= i < |ms| => Entry(ms[i], false))
  }

  lemma {:induction false} SayAllFrame(s: State, ms: seq<Text>)
    ensures var s' := SayAll(s, ms);
            && s'.rooms.Keys == s.rooms.Keys && s'.conns.Keys == s.conns.Keys && s'.rows == s.rows + ms
            && s'.memberOf == s.memberOf && s'.loginOf == s.loginOf
  {
    if ms == [] {
      assert s.rows + ms == s.rows;
    } else {
      var front, m := ms[..|ms| - 1], ms[|ms| - 1];
      SayAllFrame(s, front);
      assert s.rows + front + [m] == s.rows + ms;
    }
  }

  /** What a list of texts does to one room. */
  lemma {:induction false} SayAllEffect(s: State, ms: seq<Text>, r: Id)
    requires r in s.rooms
    ensures r in SayAll(s, ms).rooms
    ensures SayAll(s, ms).rooms[r] == s.rooms[r].(history := s.rooms[r].history + AsEntries(ForRoom(ms, r)))
  {
    hide ForRoom;
    var base := s.rooms[r].history;
    if ms == [] {
      ForRoomNothing(r);
      assert base + AsEntries([]) == base;
    } else {
      var front, m := ms[..|ms| - 1], ms[|ms| - 1];
      SayAllEffect(s, front, r);
      ForRoomLast(ms, r);
      if m.room == r {
        assert base + AsEntries(ForRoom(front, r)) + [Entry(m, false)] == base + AsEntries(ForRoom(front, r) + [m]);
      }
    }
  }

  lemma ForRoomNothing(r: Id)
    ensures ForRoom([], r) == []
  {
  }

  lemma SayTextHanded(s: State, m: Text, h: Handle, r: Id)
    requires h in s.conns
    ensures h in SayText(s, m).conns
    ensures ForRoom(SayText(s, m).conns[h].handed, r)
         == ForRoom(s.conns[h].handed, r)
            + if m.room == r && r in s.rooms then Repeat(m, Copies(s.rooms[r].subs, h)) else []
  {
    if m.room in s.rooms {
      var n := Copies(s.rooms[m.room].subs, h);
      ForRoomConcat(s.conns[h].handed, Repeat(m, n), r);
      ForRoomRepeat(m, n, r);
    }
  }

  lemma {:induction false} SayAllHanded(s: State, ms: seq<Text>, h: Handle, r: Id)
    requires h in s.conns
    ensures h in SayAll(s, ms).conns
    ensures ForRoom(SayAll(s, ms).conns[h].handed, r)
         == ForRoom(s.conns[h].handed, r)
            + if r in s.rooms then Stretch(ForRoom(ms, r), Copies(s.rooms[r].subs, h)) else []
  {
    hide SayText, Copies, ForRoom, Stretch, Repeat;
    var before := ForRoom(s.conns[h].handed, r);
    if ms == [] {
      ForRoomNothing(r);
      StretchNothing(if r in s.rooms then Copies(s.rooms[r].subs, h) else 0);
    } else {
      var front, m := ms[..|ms| - 1], ms[|ms| - 1];
      SayAllHanded(s, front, h, r);
      SayAllFrame(s, front);
      if r in s.rooms {
        SayAllEffect(s, front, r);
      }
      SayTextHanded(SayAll(s, front), m, h, r);
      ForRoomLast(ms, r);
      if m.room == r && r in s.rooms {
        var n := Copies(s.rooms[r].subs, h);
        StretchAppend(ForRoom(front, r), m, n);
        Associative(before, Stretch(ForRoom(front, r), n), Repeat(m, n));
      }
    }
  }

  lemma StretchNothing(n: nat)
    ensures Stretch([], n) == []
  {
  }

  lemma ForRoomLast(ms: seq<Text>, r: Id)
    requires ms != []
    ensures var front, m := ms[..|ms| - 1], ms[|ms| - 1];
            ForRoom(ms, r) == if m.room == r then ForRoom(front, r) + [m] else ForRoom(front, r)
  {
  }

  lemma StretchAppend(ms: seq<Text>, m: Text, n: nat)
    ensures Stretch(ms + [m], n) == Stretch(ms, n) + Repeat(m, n)
  {
    assert (ms + [m])[..|ms|] == ms;
  }

  /** Two orders of the same texts that agree room by room lead to the same rooms and indexes, the
      same stored lines of every room, and the same lines of every room to every connection. */
  lemma TextsReorder(s: State, ms: seq<Text>, ms': seq<Text>)
    requires forall r :: ForRoom(ms, r) == ForRoom(ms', r)
    ensures var a, b := SayAll(s, ms), SayAll(s, ms');
            && a.rooms == b.rooms && a.memberOf == b.memberOf && a.loginOf == b.loginOf
            && a.conns.Keys == b.conns.Keys
            && (forall r :: ForRoom(a.rows, r) == ForRoom(b.rows, r))
            && (forall h, r :: h in a.conns ==> ForRoom(a.conns[h].handed, r) == ForRoom(b.conns[h].handed, r))
  {
    var a, b := SayAll(s, ms), SayAll(s, ms');
    SayAllFrame(s, ms);
    SayAllFrame(s, ms');
    forall r | r in s.rooms ensures a.rooms[r] == b.rooms[r] {
      SayAllEffect(s, ms, r);
      SayAllEffect(s, ms', r);
    }
    assert a.rooms == b.rooms;
    forall r ensures ForRoom(a.rows, r) == ForRoom(b.rows, r) {
      ForRoomConcat(s.rows, ms, r);
      ForRoomConcat(s.rows, ms', r);
    }
    forall h, r | h in a.conns ensures ForRoom(a.conns[h].handed, r) == ForRoom(b.conns[h].handed, r) {
      SayAllHanded(s, ms, h, r);
      SayAllHanded(s, ms', h, r);
    }
  }

  // ------------------------------------------- when the one order is safe

  /** Whatever is said next, in whatever rooms, the history of room `r` explains what connection `h`
      is handed for it. */
  ghost predicate SafeAt(s: State, h: Handle, r: Id) {
    forall ms :: h in SayAll(s, ms).conns ==> ExplainedAt(SayAll(s, ms), h, r)
  }

  lemma {:induction false} SayAllFair(s: State, ms: seq<Text>, h: Handle, r: Id)
    requires FairAt(s, h, r)
    ensures FairAt(SayAll(s, ms), h, r)
  {
    hide FairAt, SayText;
    if ms != [] {
      SayAllFair(s, ms[..|ms| - 1], h, r);
      TextFair(SayAll(s, ms[..|ms| - 1]), ms[|ms| - 1], h, r);
    }
  }

  lemma TwoCopies(s: State, k: Id, k': Id, r: Id, h: Handle)
    requires Under(s, k, r, h) && Under(s, k', r, h) && k != k'
    ensures Copies(s.rooms[r].subs, h) >= 2
  {
    var keys := KeysOf(s.rooms[r].subs, h);
    assert {k, k'} <= keys;
    SubsetSize({k, k'}, keys);
  }

  lemma SubsetSize(a: set<Id>, b: set<Id>)
    requires a <= b
    ensures |a| <= |b|
  {
    assert b == a + (b - a);
  }

  lemma RepeatEnds(m: Text, n: nat)
    requires n >= 2
    ensures |Repeat(m, n)| >= 2 && Repeat(m, n)[|Repeat(m, n)| - 2] == m
  {
    assert Repeat(m, n) == Repeat(m, n - 2) + [m] + [m];
  }

  lemma StretchTwo(m: Text, m': Text, n: nat)
    ensures Stretch([m, m'], n) == Repeat(m, n) + Repeat(m', n)
  {
    assert [m, m'] == [m] + [m'] && [m] == [] + [m];
    StretchAppend([m], m', n);
    StretchAppend([], m, n);
  }

  /** A connection under two ids of a room hears the second of two lines twice in a row. */
  lemma TwoTextsBreak(s: State, k: Id, k': Id, r: Id, h: Handle, m: Text, m': Text)
    requires Under(s, k, r, h) && Under(s, k', r, h) && k != k' && h in s.conns
    requires m.room == m'.room == r && m != m'
    ensures h in SayAll(s, [m, m']).conns && !ExplainedAt(SayAll(s, [m, m']), h, r)
  {
    hide Stretch, Repeat, SayAll, ExplainedAt, Copies, ForRoom;
    var ms := [m, m'];
    var s' := SayAll(s, ms);
    var n := Copies(s.rooms[r].subs, h);
    ForRoomUniform(ms, r, r);
    SayAllEffect(s, ms, r);
    SayAllHanded(s, ms, h, r);
    StretchTwo(m, m', n);
    TwoCopies(s, k, k', r, h);
    RepeatEnds(m', n);
    assert Under(s', k, r, h);
    LiveEndsWithHistory(s', h, r);
    var mine, history := ForRoom(s'.conns[h].handed, r), HistoryOf(s', r);
    assert history == Lines(s.rooms[r].history) + ms;
    assert history[|history| - 2] == m && mine[|mine| - 2] == m';
    assert !EndsWith(mine, history);
  }

  /** The room's one order is safe for a connection from a state on if and only if it holds there and
      the connection is not subscribed to the room under two client ids. */
  lemma SafeExactly(s: State, h: Handle, r: Id)
    requires Connected(s)
    ensures SafeAt(s, h, r) <==> FairAt(s, h, r)
  {
    hide ExplainedAt;
    if SafeAt(s, h, r) {
      assert SayAll(s, []) == s;
      forall k, k' | Under(s, k, r, h) && Under(s, k', r, h) ensures k == k' {
        if k != k' {
          TwoTextsBreak(s, k, k', r, h, Text(r, [], []), Text(r, [], [0]));
          assert false;
        }
      }
    }
    if FairAt(s, h, r) {
      forall ms | h in SayAll(s, ms).conns ensures ExplainedAt(SayAll(s, ms), h, r) {
        SayAllFair(s, ms, h, r);
      }
    }
  }

  /** A join keeps it safe for every connection and room but the joining one in that room, and for
      that one if and only if the join does not subscribe it a second time. */
  lemma JoinSafe(s: State, h: Handle, r: Id, h': Handle, r': Id)
    requires h in s.conns && RoomsSound(s) && Connected(s) && SafeAt(s, h', r')
    ensures SafeAt(JoinRoom(s, h, r), h', r') <==> !(h' == h && r' == r && JoinsTwice(s, h, r))
  {
    hide SafeAt, ExplainedAt, OnceAt, JoinRoom, Connected, RoomsSound;
    SafeExactly(s, h', r');
    JoinKeeps(s, h, r);
    JoinOnce(s, h, r, h', r');
    SafeExactly(JoinRoom(s, h, r), h', r');
    if !(h' == h && r' == r && JoinsTwice(s, h, r)) {
      JoinFair(s, h, r, h', r');
    }
  }
}
