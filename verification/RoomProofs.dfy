/** Every server operation keeps the room invariants. */
module RoomProofs {
  import opened Basics
  import opened Rooms

  // ------------------------------------------------------ broadcasting a line

  /** A connection subscribed once is sent each line of the room once, any other not at all. */
  lemma CopiesWhenOnce(s: State, h: Handle, r: Id)
    requires OnceAt(s, h, r) && r in s.rooms
    ensures Copies(s.rooms[r].subs, h) == if Live(s, h, r) then 1 else 0
  {
    var keys := KeysOf(s.rooms[r].subs, h);
    if Live(s, h, r) {
      var k: Id :| Under(s, k, r, h);
      assert keys == {k} by {
        forall j | j in keys ensures j == k {
          assert Under(s, j, r, h);
        }
      }
    } else {
      assert keys == {} by {
        forall j | j in keys ensures false {
          assert Under(s, j, r, h);
        }
      }
    }
  }

  lemma {:induction false} ForRoomRepeat(m: Text, n: nat, r: Id)
    ensures ForRoom(Repeat(m, n), r) == if m.room == r then Repeat(m, n) else []
  {
    if n != 0 {
      ForRoomRepeat(m, n - 1, r);
      ForRoomConcat(Repeat(m, n - 1), [m], r);
      ForRoomUniform([m], m.room, r);
    }
  }

  lemma DeliverKeys(conns: map<Handle, Conn>, subs: map<Id, Handle>, m: Text)
    ensures Deliver(conns, subs, m).Keys == conns.Keys
  {
  }

  lemma NotifyFrame(s: State, r: Id, e: Entry)
    requires r in s.rooms
    ensures var s' := Notify(s, r, e);
            && (forall k, r' :: Subscribed(s', k, r') <==> Subscribed(s, k, r'))
            && (forall k, r', h :: Under(s', k, r', h) <==> Under(s, k, r', h))
            && (forall k, r' :: Subscribed(s, k, r') ==> s'.rooms[r'].subs[k] == s.rooms[r'].subs[k])
            && s'.conns.Keys == s.conns.Keys
  {
    hide Deliver;
    DeliverKeys(s.conns, s.rooms[r].subs, e.data);
  }

  /** Who is subscribed how depends on the entries of the room only. */
  lemma SameEntries(s: State, s': State, h: Handle, r: Id)
    requires forall k :: Under(s', k, r, h) <==> Under(s, k, r, h)
    ensures Live(s', h, r) <==> Live(s, h, r)
    ensures OnceAt(s', h, r) <==> OnceAt(s, h, r)
  {
  }

  lemma NotifyKeeps(s: State, r: Id, e: Entry)
    requires r in s.rooms && e.data.room == r
    ensures IndexAgrees(s) ==> IndexAgrees(Notify(s, r, e))
    ensures RoomsSound(s) ==> RoomsSound(Notify(s, r, e))
    ensures Connected(s) ==> Connected(Notify(s, r, e))
    ensures e.notice && Archived(s) ==> Archived(Notify(s, r, e))
  {
    hide Deliver, Sent, ForRoom;
    var s' := Notify(s, r, e);
    NotifyFrame(s, r, e);
    SentAppend(s.rooms[r].history, e);
    assert forall k, r' :: Listed(s', k, r') <==> Listed(s, k, r');
    if RoomsSound(s) {
      assert RoomSound(s.rooms[r], r);
      assert RoomSound(s'.rooms[r], r);
    }
  }

  /** How a segmentation changes when one line is broadcast to the room. */
  lemma ExplainLine(segs: seq<seq<Text>>, handed: seq<Text>, joins: nat, history: seq<Text>, live: bool, m: Text)
    returns (segs': seq<seq<Text>>)
    requires Explains(segs, handed, joins, history, live)
    ensures Explains(segs', handed + (if live then [m] else []), joins, history + [m], live)
  {
    if live {
      var front := segs[..joins - 1];
      segs' := front + [history + [m]];
      assert segs == front + [history];
      FlattenConcat(front, [history]);
      FlattenConcat(front, [history + [m]]);
      assert Flatten([history]) == Flatten([history][..0]) + history;
      assert Flatten([history + [m]]) == Flatten([history + [m]][..0]) + (history + [m]);
      assert Flatten(segs') == handed + [m];
    } else {
      segs' := segs;
    }
  }

  /** What a broadcast adds to the lines a connection was handed for a room. */
  lemma NotifyHanded(s: State, r: Id, e: Entry, h: Handle, r': Id)
    requires r in s.rooms && e.data.room == r && h in s.conns && OnceAt(s, h, r')
    ensures h in Notify(s, r, e).conns
    ensures ForRoom(Notify(s, r, e).conns[h].handed, r')
         == ForRoom(s.conns[h].handed, r') + if r' == r && Live(s, h, r) then [e.data] else []
  {
    hide OnceAt, Live;
    var handed, m := s.conns[h].handed, e.data;
    var n := Copies(s.rooms[r].subs, h);
    ForRoomConcat(handed, Repeat(m, n), r');
    ForRoomRepeat(m, n, r');
    if r' == r {
      CopiesWhenOnce(s, h, r);
    }
    assert Repeat(m, 1) == Repeat(m, 0) + [m] == [m];
  }

  lemma NotifyExplained(s: State, r: Id, e: Entry, h: Handle, r': Id)
    requires r in s.rooms && e.data.room == r && h in s.conns && OnceAt(s, h, r') && ExplainedAt(s, h, r')
    ensures h in Notify(s, r, e).conns && ExplainedAt(Notify(s, r, e), h, r')
  {
    hide OnceAt, Flatten, ForRoom, Count, Live, Deliver, Under;
    var s', c, m := Notify(s, r, e), s.conns[h], e.data;
    NotifyFrame(s, r, e);
    SameEntries(s, s', h, r');
    NotifyHanded(s, r, e, h, r');
    var handed, joins, live := ForRoom(c.handed, r'), Count(c.joined, r'), Live(s, h, r');
    var segs :| Explains(segs, handed, joins, HistoryOf(s, r'), live);
    assert s'.conns[h].joined == c.joined by {
      NotifyJoined(s, r, e, h);
    }
    if r' == r {
      assert HistoryOf(s', r) == HistoryOf(s, r) + [m];
      segs := ExplainLine(segs, handed, joins, HistoryOf(s, r), live, m);
    } else {
      assert HistoryOf(s', r') == HistoryOf(s, r');
    }
    assert Explains(segs, ForRoom(s'.conns[h].handed, r'), Count(s'.conns[h].joined, r'), HistoryOf(s', r'), Live(s', h, r'));
  }

  lemma NotifyJoined(s: State, r: Id, e: Entry, h: Handle)
    requires r in s.rooms && h in s.conns
    ensures h in Notify(s, r, e).conns && Notify(s, r, e).conns[h].joined == s.conns[h].joined
  {
  }

  /** A broadcast keeps every connection's lines of every room explained, and who is in it how often. */
  lemma NotifyFair(s: State, r: Id, e: Entry, h: Handle, r': Id)
    requires r in s.rooms && e.data.room == r
    ensures OnceAt(Notify(s, r, e), h, r') <==> OnceAt(s, h, r')
    ensures FairAt(s, h, r') ==> FairAt(Notify(s, r, e), h, r')
  {
    hide OnceAt, ExplainedAt, Notify;
    NotifyFrame(s, r, e);
    SameEntries(s, Notify(s, r, e), h, r');
    if FairAt(s, h, r') && h in s.conns {
      NotifyExplained(s, r, e, h, r');
    }
  }

  // -------------------------------------------- what an explanation depends on

  /** All that the claim about connection `h` and room `r` depends on. */
  ghost predicate SameSight(s: State, s': State, h: Handle, r: Id) {
    && (forall k :: Under(s', k, r, h) <==> Under(s, k, r, h))
    && HistoryOf(s', r) == HistoryOf(s, r)
    && (h in s'.conns <==> h in s.conns)
    && (h in s.conns ==>
          && ForRoom(s'.conns[h].handed, r) == ForRoom(s.conns[h].handed, r)
          && Count(s'.conns[h].joined, r) == Count(s.conns[h].joined, r))
  }

  lemma SameSightFair(s: State, s': State, h: Handle, r: Id)
    requires SameSight(s, s', h, r)
    ensures OnceAt(s', h, r) <==> OnceAt(s, h, r)
    ensures FairAt(s, h, r) ==> FairAt(s', h, r)
  {
    hide OnceAt, Live, ForRoom, Count, Explains;
    SameEntries(s, s', h, r);
    if FairAt(s, h, r) && h in s.conns {
      var c, c' := s.conns[h], s'.conns[h];
      var segs :| Explains(segs, ForRoom(c.handed, r), Count(c.joined, r), HistoryOf(s, r), Live(s, h, r));
      assert Explains(segs, ForRoom(c'.handed, r), Count(c'.joined, r), HistoryOf(s', r), Live(s', h, r));
    }
  }

  predicate SameTraffic(a: Conn, b: Conn) {
    a.handed == b.handed && a.joined == b.joined
  }

  /** Neither the tables nor the client indexes nor the ids and logins of connections matter. */
  lemma SameTrafficFair(s: State, s': State, h: Handle, r: Id)
    requires s'.rooms == s.rooms && s'.conns.Keys == s.conns.Keys
    requires h in s.conns ==> SameTraffic(s.conns[h], s'.conns[h])
    ensures OnceAt(s', h, r) <==> OnceAt(s, h, r)
    ensures FairAt(s, h, r) ==> FairAt(s', h, r)
  {
    hide OnceAt, FairAt, ForRoom, Count;
    SameSightFair(s, s', h, r);
  }

  // -------------------------------------------------------------- joining

  lemma OpenFrame(s: State, r: Id)
    ensures forall k, r' :: Subscribed(Open(s, r), k, r') <==> Subscribed(s, k, r')
    ensures forall k, r', h :: Under(Open(s, r), k, r', h) <==> Under(s, k, r', h)
  {
  }

  /** A new channel starts with the stored lines of its room and nothing else. */
  lemma LoadedRoom(rows: seq<Text>, r: Id)
    ensures RoomSound(Room(r, map[], Load(rows, r)), r)
    ensures Sent(Load(rows, r)) == ForRoom(rows, r)
  {
    ForRoomMembers(rows, r);
    SentOfStored(ForRoom(rows, r));
  }

  lemma OpenKeeps(s: State, r: Id)
    ensures IndexAgrees(s) ==> IndexAgrees(Open(s, r))
    ensures RoomsSound(s) ==> RoomsSound(Open(s, r))
    ensures Connected(s) ==> Connected(Open(s, r))
    ensures Archived(s) ==> Archived(Open(s, r))
  {
    hide Load, Sent, ForRoom;
    OpenFrame(s, r);
    LoadedRoom(s.rows, r);
    assert forall k, r' :: Listed(Open(s, r), k, r') <==> Listed(s, k, r');
  }

  lemma OpenFair(s: State, r: Id, h: Handle, r': Id)
    ensures OnceAt(Open(s, r), h, r') <==> OnceAt(s, h, r')
    ensures FairAt(s, h, r') ==> FairAt(Open(s, r), h, r')
  {
    hide OnceAt, ForRoom, Count, Load;
    var s' := Open(s, r);
    OpenFrame(s, r);
    SameEntries(s, s', h, r');
    if FairAt(s, h, r') && h in s.conns {
      var c := s.conns[h];
      var segs :| Explains(segs, ForRoom(c.handed, r'), Count(c.joined, r'), HistoryOf(s, r'), Live(s, h, r'));
      assert HistoryOf(s, r') <= HistoryOf(s', r');
      if Live(s, h, r') {
        assert r' in s.rooms;
      }
      assert Explains(segs, ForRoom(c.handed, r'), Count(c.joined, r'), HistoryOf(s', r'), Live(s', h, r'));
    }
  }

  lemma EnrolFrame(s: State, h: Handle, r: Id)
    requires h in s.conns && r in s.rooms
    ensures var s', k := Enrol(s, h, r), s.conns[h].clientId;
            && (forall k', r' :: Subscribed(s', k', r') <==> Subscribed(s, k', r') || (k' == k && r' == r))
            && (forall k', r' :: Listed(s', k', r') <==> Listed(s, k', r') || (k' == k && r' == r))
            && (forall k', r' :: Subscribed(s, k', r') ==> s'.rooms[r'].subs[k'] == s.rooms[r'].subs[k'])
            && (!Subscribed(s, k, r) ==> s'.rooms[r].subs[k] == h)
  {
  }

  lemma EnrolKeeps(s: State, h: Handle, r: Id)
    requires h in s.conns && r in s.rooms
    ensures IndexAgrees(s) ==> IndexAgrees(Enrol(s, h, r))
    ensures RoomsSound(s) ==> RoomsSound(Enrol(s, h, r))
    ensures Connected(s) ==> Connected(Enrol(s, h, r))
    ensures Archived(s) ==> Archived(Enrol(s, h, r))
  {
    hide Sent, ForRoom, Lines;
    var s' := Enrol(s, h, r);
    EnrolFrame(s, h, r);
    if RoomsSound(s) {
      assert RoomSound(s.rooms[r], r);
    }
  }

  /** An enrolment leaves a connection under one id of a room if and only if that was so before and it
      is not the one that enrols there while it is in the room under another id. */
  lemma EnrolOnce(s: State, h: Handle, r: Id, h': Handle, r': Id)
    requires h in s.conns && r in s.rooms
    ensures OnceAt(Enrol(s, h, r), h', r') <==> OnceAt(s, h', r') && !(h' == h && r' == r && JoinsTwice(s, h, r))
  {
    var s', k := Enrol(s, h, r), s.conns[h].clientId;
    EnrolFrame(s, h, r);
    EnrolEntries(s, h, r);
    hide Enrol, Subscribed, Under;
    if JoinsTwice(s, h, r) && h' == h && r' == r {
      var j :| Under(s, j, r, h);
      assert j != k && Under(s', j, r, h) && Under(s', k, r, h);
    }
  }

  lemma EnrolEntries(s: State, h: Handle, r: Id)
    requires h in s.conns && r in s.rooms
    ensures var s', k := Enrol(s, h, r), s.conns[h].clientId;
            && (forall k', r', h' :: Under(s', k', r', h') <==>
                  Under(s, k', r', h') || (k' == k && r' == r && h' == h && !Subscribed(s, k, r)))
            && (forall k', h' :: Under(s, k', r, h') ==> Subscribed(s, k', r))
  {
    EnrolFrame(s, h, r);
  }

  lemma CountAppend(rs: seq<Id>, x: Id, r: Id)
    ensures Count(rs + [x], r) == Count(rs, r) + if x == r then 1 else 0
  {
    assert (rs + [x])[..|rs|] == rs;
  }

  /** A replay is one more segment: the whole history so far. */
  lemma ExplainReplay(segs: seq<seq<Text>>, handed: seq<Text>, joins: nat, history: seq<Text>, live: bool)
    requires Explains(segs, handed, joins, history, live)
    ensures Explains(segs + [history], handed + history, joins + 1, history, true)
  {
    FlattenConcat(segs, [history]);
    assert Flatten([history]) == Flatten([history][..0]) + history;
  }

  lemma ReplayHanded(s: State, h: Handle, r: Id)
    requires h in s.conns && r in s.rooms && RoomsSound(s)
    ensures var c := Enrol(s, h, r).conns[h];
            && ForRoom(c.handed, r) == ForRoom(s.conns[h].handed, r) + HistoryOf(s, r)
            && Count(c.joined, r) == Count(s.conns[h].joined, r) + 1
  {
    var lines := HistoryOf(s, r);
    assert RoomSound(s.rooms[r], r);
    ForRoomConcat(s.conns[h].handed, lines, r);
    ForRoomUniform(lines, r, r);
    CountAppend(s.conns[h].joined, r, r);
  }

  lemma ReplayExplained(s: State, h: Handle, r: Id)
    requires h in s.conns && r in s.rooms && RoomsSound(s) && ExplainedAt(s, h, r)
    ensures ExplainedAt(Enrol(s, h, r), h, r)
  {
    hide Flatten, ForRoom, Count, Live, RoomsSound;
    var s', c := Enrol(s, h, r), s.conns[h];
    var lines := HistoryOf(s, r);
    var segs :| Explains(segs, ForRoom(c.handed, r), Count(c.joined, r), lines, Live(s, h, r));
    ExplainReplay(segs, ForRoom(c.handed, r), Count(c.joined, r), lines, Live(s, h, r));
    ReplayHanded(s, h, r);
    assert HistoryOf(s', r) == lines;
    assert Explains(segs + [lines], ForRoom(s'.conns[h].handed, r), Count(s'.conns[h].joined, r), lines, Live(s', h, r));
  }

  lemma EnrolTraffic(s: State, h: Handle, r: Id, h': Handle, r': Id)
    requires h in s.conns && r in s.rooms && RoomsSound(s) && h' in s.conns && (h' != h || r' != r)
    ensures h' in Enrol(s, h, r).conns
    ensures var c, c' := s.conns[h'], Enrol(s, h, r).conns[h'];
            ForRoom(c'.handed, r') == ForRoom(c.handed, r') && Count(c'.joined, r') == Count(c.joined, r')
  {
    if h' == h {
      var c, lines := s.conns[h], HistoryOf(s, r);
      assert RoomSound(s.rooms[r], r);
      ForRoomConcat(c.handed, lines, r');
      ForRoomUniform(lines, r, r');
      CountAppend(c.joined, r, r');
    }
  }

  /** What an enrolment does to the claim about any connection and room. */
  lemma EnrolFair(s: State, h: Handle, r: Id, h': Handle, r': Id)
    requires h in s.conns && r in s.rooms && RoomsSound(s)
    requires FairAt(s, h', r') && !(h' == h && r' == r && JoinsTwice(s, h, r))
    ensures FairAt(Enrol(s, h, r), h', r')
  {
    hide OnceAt, ExplainedAt, RoomsSound, JoinsTwice, ForRoom, Count, Under;
    EnrolOnce(s, h, r, h', r');
    if h' == h && r' == r {
      ReplayExplained(s, h, r);
    } else {
      EnrolEntries(s, h, r);
      if h' in s.conns {
        EnrolTraffic(s, h, r, h', r');
      }
      SameSightFair(s, Enrol(s, h, r), h', r');
    }
  }

  lemma JoinKeeps(s: State, h: Handle, r: Id)
    requires h in s.conns
    ensures IndexAgrees(s) ==> IndexAgrees(JoinRoom(s, h, r))
    ensures RoomsSound(s) ==> RoomsSound(JoinRoom(s, h, r))
    ensures Connected(s) ==> Connected(JoinRoom(s, h, r))
    ensures Archived(s) ==> Archived(JoinRoom(s, h, r))
  {
    OpenKeeps(s, r);
    EnrolKeeps(Open(s, r), h, r);
    NotifyKeeps(Enrol(Open(s, r), h, r), r, JoinNotice(s.conns[h].login, r));
  }

  /** The exact condition under which a join leaves a connection under one id of a room. */
  lemma JoinOnce(s: State, h: Handle, r: Id, h': Handle, r': Id)
    requires h in s.conns
    ensures OnceAt(JoinRoom(s, h, r), h', r') <==> OnceAt(s, h', r') && !(h' == h && r' == r && JoinsTwice(s, h, r))
  {
    hide OnceAt, FairAt, Enrol, Notify, Under;
    OpenFrame(s, r);
    OpenFair(s, r, h', r');
    SameEntries(s, Open(s, r), h, r);
    EnrolOnce(Open(s, r), h, r, h', r');
    EnrolRooms(Open(s, r), h, r);
    NotifyFair(Enrol(Open(s, r), h, r), r, JoinNotice(s.conns[h].login, r), h', r');
  }

  lemma EnrolRooms(s: State, h: Handle, r: Id)
    requires h in s.conns && r in s.rooms
    ensures r in Enrol(s, h, r).rooms
  {
  }

  /** Replay, subscription and notice keep the claim about every connection and room, unless it is the
      joining one that enters the room under a second id. */
  lemma JoinFair(s: State, h: Handle, r: Id, h': Handle, r': Id)
    requires h in s.conns && RoomsSound(s)
    requires FairAt(s, h', r') && !(h' == h && r' == r && JoinsTwice(s, h, r))
    ensures FairAt(JoinRoom(s, h, r), h', r')
  {
    hide OnceAt, FairAt, Enrol, Notify, Under, RoomsSound;
    OpenKeeps(s, r);
    OpenFrame(s, r);
    OpenFair(s, r, h', r');
    SameEntries(s, Open(s, r), h, r);
    EnrolFair(Open(s, r), h, r, h', r');
    EnrolRooms(Open(s, r), h, r);
    NotifyFair(Enrol(Open(s, r), h, r), r, JoinNotice(s.conns[h].login, r), h', r');
  }

  // ----------------------------------------------------------------- texts

  lemma TextKeeps(s: State, m: Text)
    ensures IndexAgrees(s) ==> IndexAgrees(SayText(s, m))
    ensures RoomsSound(s) ==> RoomsSound(SayText(s, m))
    ensures Connected(s) ==> Connected(SayText(s, m))
    ensures Archived(s) ==> Archived(SayText(s, m))
  {
    var s1, s' := SendToChannel(s, m), SayText(s, m);
    if m.room in s.rooms {
      NotifyKeeps(s, m.room, Entry(m, false));
      SentAppend(s.rooms[m.room].history, Entry(m, false));
    }
    assert forall k, r :: (Subscribed(s', k, r) <==> Subscribed(s1, k, r)) && (Listed(s', k, r) <==> Listed(s1, k, r));
    if Archived(s) {
      forall r | r in s'.rooms ensures Sent(s'.rooms[r].history) == ForRoom(s'.rows, r) {
        ForRoomConcat(s.rows, [m], r);
        ForRoomUniform([m], m.room, r);
      }
    }
  }

  lemma TextFair(s: State, m: Text, h: Handle, r: Id)
    ensures OnceAt(SayText(s, m), h, r) <==> OnceAt(s, h, r)
    ensures FairAt(s, h, r) ==> FairAt(SayText(s, m), h, r)
  {
    hide OnceAt, FairAt, Notify;
    if m.room in s.rooms {
      NotifyFair(s, m.room, Entry(m, false), h, r);
    }
    SameTrafficFair(SendToChannel(s, m), SayText(s, m), h, r);
  }

  lemma LiveDependsOnRooms(s: State, s': State)
    requires s'.rooms == s.rooms
    ensures forall k, r :: Subscribed(s', k, r) <==> Subscribed(s, k, r)
    ensures forall k, r, h :: Under(s', k, r, h) <==> Under(s, k, r, h)
    ensures forall h, r :: Live(s', h, r) <==> Live(s, h, r)
  {
    forall h, r ensures Live(s', h, r) <==> Live(s, h, r) {
      SameEntries(s, s', h, r);
    }
  }

  // --------------------------------------------------------------- leaving

  lemma LeaveRoomFrame(s: State, k: Id, r: Id)
    ensures var s' := LeaveRoom(s, k, r);
            && (forall k', r' :: Subscribed(s', k', r') <==> Subscribed(s, k', r') && !(k' == k && r' == r))
            && (forall k', r' :: Subscribed(s', k', r') ==> s'.rooms[r'].subs[k'] == s.rooms[r'].subs[k'])
            && s'.rooms.Keys == s.rooms.Keys && s'.conns.Keys == s.conns.Keys
            && (forall h :: h in s.conns ==> SameIdentity(s.conns[h], s'.conns[h]))
  {
  }

  predicate SameIdentity(a: Conn, b: Conn) {
    a.clientId == b.clientId && a.login == b.login && a.joined == b.joined && a.direct == b.direct
  }

  lemma LeaveRoomKeeps(s: State, k: Id, r: Id)
    ensures RoomsSound(s) ==> RoomsSound(LeaveRoom(s, k, r))
    ensures Connected(s) ==> Connected(LeaveRoom(s, k, r))
    ensures Archived(s) ==> Archived(LeaveRoom(s, k, r))
  {
    hide Deliver, Sent, ForRoom;
    if Subscribed(s, k, r) {
      var e := LeaveNotice(LoginOf(s, s.rooms[r].subs[k]), r);
      var s1, s' := Notify(s, r, e), LeaveRoom(s, k, r);
      LeaveRoomFrame(s, k, r);
      NotifyKeeps(s, r, e);
      if RoomsSound(s) {
        assert RoomSound(s1.rooms[r], r);
        forall r' | r' in s'.rooms ensures RoomSound(s'.rooms[r'], r') {
          assert RoomSound(s1.rooms[r'], r');
        }
      }
    }
  }

  lemma UnsubscribeFair(s: State, k: Id, r: Id, h: Handle, r': Id)
    requires r in s.rooms && FairAt(s, h, r')
    ensures FairAt(Unsubscribe(s, k, r), h, r')
  {
    hide ForRoom, Count;
    var s' := Unsubscribe(s, k, r);
    assert forall k' :: Under(s', k', r', h) ==> Under(s, k', r', h);
    if h in s.conns {
      assert HistoryOf(s', r') == HistoryOf(s, r');
      var c := s.conns[h];
      var segs :| Explains(segs, ForRoom(c.handed, r'), Count(c.joined, r'), HistoryOf(s, r'), Live(s, h, r'));
      assert Explains(segs, ForRoom(c.handed, r'), Count(c.joined, r'), HistoryOf(s', r'), Live(s', h, r'));
    }
  }

  lemma LeaveRoomFair(s: State, k: Id, r: Id, h: Handle, r': Id)
    requires FairAt(s, h, r')
    ensures FairAt(LeaveRoom(s, k, r), h, r')
  {
    hide FairAt, Deliver, LeaveNotice;
    if Subscribed(s, k, r) {
      var e := LeaveNotice(LoginOf(s, s.rooms[r].subs[k]), r);
      LeaveNoticeRoom(LoginOf(s, s.rooms[r].subs[k]), r);
      NotifyFair(s, r, e, h, r');
      UnsubscribeFair(Notify(s, r, e), k, r, h, r');
    }
  }

  lemma LeaveNoticeRoom(login: Bytes, r: Id)
    ensures LeaveNotice(login, r).data.room == r
  {
  }

  /** The lines a room gains when client `k` leaves the rooms `rs`. */
  function Farewell(s: State, k: Id, r: Id, rs: seq<Id>): seq<Entry> {
    if r in rs && Subscribed(s, k, r) then [LeaveNotice(LoginOf(s, s.rooms[r].subs[k]), r)] else []
  }

  lemma LeaveRoomHistory(s: State, k: Id, r: Id, r': Id)
    requires r' in s.rooms
    ensures LeaveRoom(s, k, r).rooms[r'].history == s.rooms[r'].history + Farewell(s, k, r', [r])
    ensures LeaveRoom(s, k, r).rooms[r'].id == s.rooms[r'].id
  {
  }

  lemma {:induction false} LeaveRoomsFrame(s: State, k: Id, rs: seq<Id>)
    ensures var s' := LeaveRooms(s, k, rs);
            && (forall k', r' :: Subscribed(s', k', r') <==> Subscribed(s, k', r') && !(k' == k && r' in rs))
            && (forall k', r' :: Subscribed(s', k', r') ==> s'.rooms[r'].subs[k'] == s.rooms[r'].subs[k'])
            && s'.rooms.Keys == s.rooms.Keys
            && (forall h :: h in s.conns ==> SameIdentity(s.conns[h], s'.conns[h]))
            && s'.memberOf == s.memberOf && s'.loginOf == s.loginOf && s'.rows == s.rows
            && s'.accounts == s.accounts && s'.counter == s.counter
    decreases |rs|
  {
    hide Subscribed;
    if rs != [] {
      LeaveRoomFrame(s, k, rs[0]);
      LeaveRoomOther(s, k, rs[0]);
      LeaveRoomsFrame(LeaveRoom(s, k, rs[0]), k, rs[1..]);
    }
  }

  lemma LeaveRoomOther(s: State, k: Id, r: Id)
    ensures var s' := LeaveRoom(s, k, r);
            && s'.memberOf == s.memberOf && s'.loginOf == s.loginOf && s'.rows == s.rows
            && s'.accounts == s.accounts && s'.counter == s.counter
  {
  }

  /** After leaving `first`, what is left to say in room `r` for the rest of the list. */
  lemma FarewellOnce(s: State, k: Id, r: Id, first: Id, rest: seq<Id>)
    ensures Farewell(s, k, r, [first]) + Farewell(LeaveRoom(s, k, first), k, r, rest) == Farewell(s, k, r, [first] + rest)
  {
    LeaveRoomFrame(s, k, first);
    if r != first && Subscribed(s, k, r) {
      var h := s.rooms[r].subs[k];
      assert LoginOf(LeaveRoom(s, k, first), h) == LoginOf(s, h);
    }
  }

  lemma {:induction false} LeaveRoomsHistory(s: State, k: Id, rs: seq<Id>, r: Id)
    requires r in s.rooms
    ensures r in LeaveRooms(s, k, rs).rooms
    ensures LeaveRooms(s, k, rs).rooms[r].history == s.rooms[r].history + Farewell(s, k, r, rs)
    decreases |rs|
  {
    hide LeaveRoom, Farewell, Subscribed;
    if rs == [] {
      assert Farewell(s, k, r, rs) == [] by {
        FarewellNone(s, k, r);
      }
    } else {
      LeaveRoomHistory(s, k, rs[0], r);
      LeaveRoomFrame(s, k, rs[0]);
      LeaveRoomsHistory(LeaveRoom(s, k, rs[0]), k, rs[1..], r);
      FarewellOnce(s, k, r, rs[0], rs[1..]);
      assert rs == [rs[0]] + rs[1..];
    }
  }

  lemma FarewellNone(s: State, k: Id, r: Id)
    ensures Farewell(s, k, r, []) == []
  {
  }

  lemma {:induction false} LeaveRoomsKeeps(s: State, k: Id, rs: seq<Id>)
    ensures RoomsSound(s) ==> RoomsSound(LeaveRooms(s, k, rs))
    ensures Connected(s) ==> Connected(LeaveRooms(s, k, rs))
    ensures Archived(s) ==> Archived(LeaveRooms(s, k, rs))
    decreases |rs|
  {
    hide RoomsSound, Connected, Archived, LeaveRoom;
    if rs != [] {
      LeaveRoomKeeps(s, k, rs[0]);
      LeaveRoomsKeeps(LeaveRoom(s, k, rs[0]), k, rs[1..]);
    }
  }

  lemma {:induction false} LeaveRoomsFair(s: State, k: Id, rs: seq<Id>, h: Handle, r: Id)
    requires FairAt(s, h, r)
    ensures FairAt(LeaveRooms(s, k, rs), h, r)
    decreases |rs|
  {
    hide FairAt, LeaveRoom;
    if rs != [] {
      LeaveRoomFair(s, k, rs[0], h, r);
      LeaveRoomsFair(LeaveRoom(s, k, rs[0]), k, rs[1..], h, r);
    }
  }

  /** Leaving all channels takes the client out of every channel there is and out of both client
      indexes, leaves every other membership alone, and adds one leave notice to each room the
      client was in and to no other, however often a room occurs in the client's list. */
  lemma LeaveAllEffect(s: State, k: Id)
    requires IndexAgrees(s)
    ensures var s' := LeaveAll(s, k);
            && IndexAgrees(s')
            && (forall r :: !Subscribed(s', k, r)) && k !in s'.memberOf && k !in s'.loginOf
            && (forall k', r :: k' != k ==>
                  && (Subscribed(s', k', r) <==> Subscribed(s, k', r))
                  && (Subscribed(s, k', r) ==> s'.rooms[r].subs[k'] == s.rooms[r].subs[k']))
            && s'.rooms.Keys == s.rooms.Keys
            && (forall r :: r in s.rooms ==>
                  s'.rooms[r].history == s.rooms[r].history
                    + if Subscribed(s, k, r) then [LeaveNotice(LoginOf(s, s.rooms[r].subs[k]), r)] else [])
  {
    var s' := LeaveAll(s, k);
    var rs := if k in s.memberOf then s.memberOf[k] else [];
    LeaveRoomsFrame(s, k, rs);
    forall r | r in s.rooms ensures s'.rooms[r].history == s.rooms[r].history + Farewell(s, k, r, rs) {
      LeaveRoomsHistory(s, k, rs, r);
    }
    assert s'.rooms == LeaveRooms(s, k, rs).rooms;
    LiveDependsOnRooms(LeaveRooms(s, k, rs), s');
    forall r ensures Listed(s, k, r) <==> r in rs {
    }
    assert forall k', r :: Listed(s', k', r) <==> Listed(s, k', r) && k' != k;
  }

  lemma LeaveAllKeeps(s: State, k: Id)
    ensures RoomsSound(s) ==> RoomsSound(LeaveAll(s, k))
    ensures Connected(s) ==> Connected(LeaveAll(s, k))
    ensures Archived(s) ==> Archived(LeaveAll(s, k))
  {
    var rs := if k in s.memberOf then s.memberOf[k] else [];
    var s1, s' := LeaveRooms(s, k, rs), LeaveAll(s, k);
    LeaveRoomsFrame(s, k, rs);
    LeaveRoomsKeeps(s, k, rs);
    assert s'.rooms == s1.rooms && s'.conns == s1.conns && s'.rows == s1.rows;
    LiveDependsOnRooms(s1, s');
  }

  lemma LeaveAllFair(s: State, k: Id, h: Handle, r: Id)
    requires FairAt(s, h, r)
    ensures FairAt(LeaveAll(s, k), h, r)
  {
    hide FairAt, LeaveRooms;
    var rs := if k in s.memberOf then s.memberOf[k] else [];
    LeaveRoomsFair(s, k, rs, h, r);
    LeaveRoomsNone(s, k);
    SameTrafficFair(LeaveRooms(s, k, rs), LeaveAll(s, k), h, r);
  }

  lemma LeaveRoomsNone(s: State, k: Id)
    ensures LeaveRooms(s, k, []) == s
  {
  }
}
