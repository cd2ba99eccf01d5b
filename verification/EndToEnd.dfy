/** From the server's rooms, through a connection's queue and the byte stream, to what the
    client at the other end remembers. */
module EndToEnd {
  import opened Basics
  import opened Messages
  import opened MsgFactory
  import opened Rooms
  import opened Server
  import opened ServerProofs
  import opened ServerLaws
  import Client = ChatClient
  import Queues = SendQueue
  import Reader = ServerReader

  // ------------------------------------------------- from server to client

  /** `rs` is `a` and `b` interleaved, each in its own order. */
  ghost predicate Merges(rs: seq<Response>, a: seq<Response>, b: seq<Response>)
    decreases |rs|
  {
    if rs == [] then a == [] && b == []
    else
      || (a != [] && rs[0] == a[0] && Merges(rs[1..], a[1..], b))
      || (b != [] && rs[0] == b[0] && Merges(rs[1..], a, b[1..]))
  }

  predicate NoText(rs: seq<Response>) {
    forall i :: 0 <= i < |rs| ==> !rs[i].TextResponse?
  }

  predicate NoneRefused(rs: seq<Response>) {
    forall i :: 0 <= i < |rs| ==> !Client.Refusal(rs[i])
  }

  /** Merging responses other than texts into texts changes neither the lines nor their order. */
  lemma {:induction false} MergedLines(rs: seq<Response>, ms: seq<Text>, direct: seq<Response>)
    requires Merges(rs, Client.TextResponses(ms), direct) && NoText(direct)
    ensures Client.LinesIn(rs) == ms
    ensures NoneRefused(direct) ==> NoneRefused(rs)
    decreases |rs|
  {
    if rs != [] {
      var texts := Client.TextResponses(ms);
      if texts != [] && rs[0] == texts[0] && Merges(rs[1..], texts[1..], direct) {
        assert texts[1..] == Client.TextResponses(ms[1..]);
        MergedLines(rs[1..], ms[1..], direct);
        assert Client.LineOf(rs[0]) == [ms[0]];
      } else {
        MergedLines(rs[1..], ms, direct[1..]);
      }
    }
  }

  /** What a connection's socket may have carried so far: any part of the frames of `rs`, which merges
      the queued lines whose write was started with the responses written past the queue. */
  ghost predicate OnSocket(q: Queues.Queue, c: Conn, rs: seq<ServerResponse>, wire: Bytes) {
    && |q.started| <= |c.handed|
    && Merges(rs, Client.TextResponses(c.handed[..|q.started|]), c.direct)
    && wire <= Flatten(Client.Frames(rs))
  }

  /** All of it has been carried, and nothing waits in the queue. */
  ghost predicate Drained(q: Queues.Queue, rs: seq<ServerResponse>, wire: Bytes) {
    q.pending == [] && wire == Flatten(Client.Frames(rs))
  }

  /** No login or registration was answered with a failure. */
  predicate Admitted(rs: seq<Response>) {
    forall i :: 0 <= i < |rs| ==> (rs[i].InputResponse? || rs[i].RegResponse?) ==> rs[i].status == STATUS_OK
  }

  /** The writes started are the frames of the first lines handed over, of all of them when nothing
      is queued. */
  lemma StartedLines(sys: Sys, h: Handle)
    requires QueuesSound(sys) && h in sys.out
    ensures h in sys.state.conns
    ensures var q, handed := sys.out[h], sys.state.conns[h].handed;
            && |q.started| <= |handed| && q.started == TextFrames(handed[..|q.started|])
            && (q.pending == [] ==> |q.started| == |handed|)
  {
    hide TextFrame;
    var q, handed := sys.out[h], sys.state.conns[h].handed;
    assert q.added == TextFrames(handed) && |TextFrames(handed)| == |handed|;
    assert q.started <= q.added;
  }

  /** In every reachable state, however the direct responses fall between the queued lines and
      whatever part of the socket's traffic has reached the client: the client remembers for each
      room a prefix of the lines the server handed over for that room, and exactly those lines once
      everything has arrived, unless its login was refused. */
  lemma ClientFollowsServer(sys: Sys, h: Handle, r: Id, rs: seq<ServerResponse>, wire: Bytes)
    requires Reachable(sys) && h in sys.state.conns && h in sys.out
    requires OnSocket(sys.out[h], sys.state.conns[h], rs, wire)
    ensures var remembered, lines := Client.HistoryOf(Client.Consume(Client.FRESH, wire), r), ForRoom(sys.state.conns[h].handed, r);
            && remembered <= lines
            && (Drained(sys.out[h], rs, wire) && Admitted(sys.state.conns[h].direct) ==> remembered == lines)
  {
    hide Reachable, Queues.Valid, Client.Consume, TextFrames, Client.TextResponses, QueuesSound, Merges, Sendable,
      Client.Heard, Client.LinesIn, Client.Frames;
    ReachableIsSound(sys);
    StartedLines(sys, h);
    var c, q := sys.state.conns[h], sys.out[h];
    var carried := c.handed[..|q.started|];
    assert NoRefusal(c.direct);
    MergedLines(rs, carried, c.direct);
    Client.ClientRemembers(rs, wire, r);
    Client.HeardAll(rs);
    ForRoomPrefix(Client.Heard(rs), carried, r);
    ForRoomPrefix(carried, c.handed, r);
    if Drained(q, rs, wire) && Admitted(c.direct) {
      assert carried == c.handed;
      assert NoneRefused(c.direct);
    }
  }

  /** In every reachable state, a client that joined a room once, is subscribed to it and has received
      all that was sent to it remembers exactly the room's history on the server. */
  lemma ClientEqualsRoom(sys: Sys, h: Handle, r: Id, rs: seq<ServerResponse>, wire: Bytes)
    requires Reachable(sys) && h in sys.state.conns && h in sys.out
    requires OnSocket(sys.out[h], sys.state.conns[h], rs, wire) && Drained(sys.out[h], rs, wire)
    requires Admitted(sys.state.conns[h].direct)
    requires Live(sys.state, h, r) && Count(sys.state.conns[h].joined, r) == 1
    ensures Client.HistoryOf(Client.Consume(Client.FRESH, wire), r) == Rooms.HistoryOf(sys.state, r)
  {
    hide Client.Consume, Rooms.HistoryOf, Live, Reachable, SteadilyReachable, OnSocket, Drained, Admitted;
    ClientFollowsServer(sys, h, r, rs, wire);
    OneJoinSuffices(sys, h, r);
    OneOrderForAll(sys, h, r);
  }

  // ------------------------------------------------- from client to server

  /** A client writes its login request and then its queue. Whatever part of that has reached the
      server, the server has posted the first requests of it in order, each for the handler that
      expects it; all of them once everything has arrived. */
  lemma ServerFollowsClient(first: ClientRequest, rs: seq<ClientRequest>, q: Queues.Queue, wire: Bytes)
    requires Queues.Valid(q) && q.added == Reader.Frames(rs) && Queues.OnTheWire(q, wire)
    ensures var p := Reader.Consume(Reader.HeaderRead, RequestFrame(first) + wire);
            && p.posted <= Reader.Tasks([first] + rs)
            && (q.pending == [] ==> p == Reader.Progress(Reader.Tasks([first] + rs), Reader.HeaderRead, []))
  {
    hide Reader.Consume, RequestFrame, Requestable, Queues.Valid;
    Queues.WireIsPrefix(q, wire);
    var all := [first] + rs;
    FlattenHead(Reader.Frames(all));
    assert Reader.Frames(all)[0] == RequestFrame(first);
    assert Reader.Frames(all)[1..] == Reader.Frames(rs);
    Reader.ServerReadsRequests(all, RequestFrame(first) + wire);
  }

  /** The receive events of the requests that a connection's reader posted. */
  function Arrivals(h: Handle, ps: seq<Reader.Posted>): seq<Event> {
    if ps == [] then [] else [Receive(h, ps[0])] + Arrivals(h, ps[1..])
  }

  predicate AllKnown(ps: seq<Reader.Posted>) {
    forall i :: 0 <= i < |ps| ==> Reader.Known(ps[i].command)
  }

  function TasksOf(h: Handle, ps: seq<Reader.Posted>): multiset<Task>
    requires AllKnown(ps)
  {
    if ps == [] then multiset{} else multiset{TaskOf(h, ps[0])} + TasksOf(h, ps[1..])
  }

  lemma ArrivalParts(sys: Sys, h: Handle, p: Reader.Posted)
    requires h in sys.state.conns && Reader.Known(p.command)
    ensures Enabled(sys, Receive(h, p))
    ensures var next := Step(sys, Receive(h, p));
            next.state == sys.state && next.pending == sys.pending + multiset{TaskOf(h, p)}
  {
    hide Enqueue, TaskOf;
  }

  lemma {:induction false} ArrivalsRun(sys: Sys, h: Handle, ps: seq<Reader.Posted>)
    requires h in sys.state.conns && AllKnown(ps)
    ensures IsRun(sys, Arrivals(h, ps))
    ensures Run(sys, Arrivals(h, ps)).state == sys.state
    ensures Run(sys, Arrivals(h, ps)).pending == sys.pending + TasksOf(h, ps)
    decreases |ps|
  {
    hide Step, Enabled, TaskOf;
    if ps != [] {
      ArrivalParts(sys, h, ps[0]);
      assert Arrivals(h, ps)[1..] == Arrivals(h, ps[1..]);
      ArrivalsRun(Step(sys, Receive(h, ps[0])), h, ps[1..]);
    }
  }

  lemma {:induction false} PostedAreKnown(waiting: Reader.Read, stream: Bytes)
    ensures AllKnown(Reader.Consume(waiting, stream).posted)
    decreases |stream| + (if waiting.BodyRead? then 1 else 0)
  {
    hide Reader.AfterHeader, Reader.Dispatch;
    if |stream| >= Reader.Need(waiting) {
      var bytes, rest := stream[..Reader.Need(waiting)], stream[Reader.Need(waiting)..];
      match waiting
      case HeaderRead => PostedAreKnown(Reader.AfterHeader(bytes), rest);
      case BodyRead(header) =>
        PostedAreKnown(Reader.HeaderRead, rest);
        DispatchIsKnown(header, bytes);
    }
  }

  lemma DispatchIsKnown(header: Header, bytes: Bytes)
    ensures AllKnown(Reader.Dispatch(header, bytes))
  {
    hide DecodeRequest;
  }

  /** Whatever bytes arrive on a connection, in whatever state of the server, what its reader makes of
      them is a run of the server that changes nothing but the pool. */
  lemma StreamIsRun(sys: Sys, h: Handle, stream: Bytes)
    requires h in sys.state.conns
    ensures var ps := Reader.Consume(Reader.HeaderRead, stream).posted;
            && AllKnown(ps) && IsRun(sys, Arrivals(h, ps))
            && Run(sys, Arrivals(h, ps)).state == sys.state
            && Run(sys, Arrivals(h, ps)).pending == sys.pending + TasksOf(h, ps)
  {
    hide Reader.Consume, IsRun, Run;
    PostedAreKnown(Reader.HeaderRead, stream);
    ArrivalsRun(sys, h, Reader.Consume(Reader.HeaderRead, stream).posted);
  }

  /** Whatever part of a client's requests has reached the server, receiving it is a run that posts
      the first of the requests, each to the handler that expects it; all of them once everything
      has arrived. */
  lemma ServerRunsRequests(
    sys: Sys, h: Handle, first: ClientRequest, rs: seq<ClientRequest>, q: Queues.Queue, wire: Bytes)
    requires h in sys.state.conns
    requires Queues.Valid(q) && q.added == Reader.Frames(rs) && Queues.OnTheWire(q, wire)
    ensures var ps := Reader.Consume(Reader.HeaderRead, RequestFrame(first) + wire).posted;
            && AllKnown(ps) && ps <= Reader.Tasks([first] + rs)
            && (q.pending == [] ==> ps == Reader.Tasks([first] + rs))
            && IsRun(sys, Arrivals(h, ps))
            && Run(sys, Arrivals(h, ps)).pending == sys.pending + TasksOf(h, ps)
  {
    hide Reader.Consume, RequestFrame, Requestable, Queues.Valid, IsRun, Run, Queues.OnTheWire, Reader.Tasks, TasksOf;
    ServerFollowsClient(first, rs, q, wire);
    StreamIsRun(sys, h, RequestFrame(first) + wire);
  }
}
