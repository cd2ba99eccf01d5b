/** The server's read loop: a 19-byte header, a body of the announced length, and one task
    for each body that carries a known command (`async_read_pb_header`, `do_parse_pb_header`,
    `process_msg`). */
module ServerReader {
  import opened Basics
  import opened Messages
  import opened MsgFactory

  /** An `async_read` that has been issued and has not completed. */
  datatype Read = HeaderRead | BodyRead(header: Header)

  /** What `process_msg` hands to the thread pool. */
  datatype Posted = Posted(command: nat, request: Request)

  predicate Known(command: nat) {
    || command == AUTHORISATION_REQUEST || command == REGISTRATION_REQUEST
    || command == JOIN_ROOM_REQUEST || command == ECHO_REQUEST
  }

  /** The next read after 19 header bytes arrived: the body, or another header if they do not parse. */
  function AfterHeader(bytes: Bytes): Read {
    var p := DecodeHeader(bytes);
    if p.ok then BodyRead(p.value) else HeaderRead
  }

  /** The tasks posted for a body. A body that does not parse is dispatched all the same, with
      whatever was read from it. */
  function Dispatch(h: Header, bytes: Bytes): seq<Posted> {
    if Known(CommandOf(h)) then [Posted(CommandOf(h), DecodeRequest(bytes).value)] else []
  }

  // -------------------------------------------------------- completion events

  datatype Completion = HeaderDone(error: bool, bytes: Bytes) | BodyDone(header: Header, bytes: Bytes)

  datatype Reader = Reader(outstanding: multiset<Read>, posted: seq<Posted>, freed: bool)

  const START := Reader(multiset{HeaderRead}, [], false)

  predicate Enabled(rd: Reader, e: Completion) {
    match e
    case HeaderDone(_, bytes) => HeaderRead in rd.outstanding && |bytes| == SIZE_HEADER
    case BodyDone(h, bytes) => BodyRead(h) in rd.outstanding && |bytes| == h.length
  }

  /** One completion handler: its read is no longer outstanding, and it issues what it issues. */
  function Step(rd: Reader, e: Completion): Reader
    requires Enabled(rd, e)
  {
    match e
    case HeaderDone(error, bytes) =>
      var left := rd.outstanding - multiset{HeaderRead};
      if error then rd.(outstanding := left, freed := true)
      else rd.(outstanding := left + multiset{AfterHeader(bytes)})
    case BodyDone(h, bytes) =>
      rd.(outstanding := rd.outstanding - multiset{BodyRead(h)} + multiset{HeaderRead},
          posted := rd.posted + Dispatch(h, bytes))
  }

  /** `std::vector::resize`. */
  function Resized(b: Bytes, n: nat): (r: Bytes)
    ensures |r| == n && (b <= r || r <= b)
  {
    if n <= |b| then b[..n] else b + Zeros(n - |b|)
  }

  /** The part of a connection that reads: the buffer it reads bodies into, and a record of the
      reads it has issued and the tasks it has posted. */
  class ReadLoop {
    var bufferMsg: Bytes
    ghost var reader: Reader

    /** `start`: issues the first header read. */
    constructor ()
      ensures reader == START
    {
      bufferMsg := [];
      reader := START;
    }

    /** `do_parse_pb_header`. An error means that the connection must be freed. */
    method DoParsePbHeader(error: bool, bytes: Bytes) returns (free: bool)
      requires Enabled(reader, HeaderDone(error, bytes))
      modifies this
      ensures reader == Step(old(reader), HeaderDone(error, bytes)) && free == error
    {
      hide DecodeHeader;
      ghost var left := reader.outstanding - multiset{HeaderRead};
      free := error;
      if error {
        reader := reader.(outstanding := left, freed := true);
      } else {
        var parse := DecodeHeader(bytes);
        if parse.ok {
          bufferMsg := Resized(bufferMsg, parse.value.length);
          reader := reader.(outstanding := left + multiset{BodyRead(parse.value)});
        } else {
          reader := reader.(outstanding := left + multiset{HeaderRead});
        }
      }
    }

    /** The body handler and `process_msg`; whether the read failed is not looked at. */
    method ProcessMsg(header: Header, bytes: Bytes) returns (posted: seq<Posted>)
      requires Enabled(reader, BodyDone(header, bytes))
      modifies this
      ensures reader == Step(old(reader), BodyDone(header, bytes))
      ensures posted == Dispatch(header, bytes)
    {
      hide DecodeRequest;
      bufferMsg := bytes;
      var request := DecodeRequest(bufferMsg).value;
      var command := CommandOf(header);
      if Known(command) {
        posted := [Posted(command, request)];
      } else {
        posted := [];
      }
      reader := reader.(outstanding := reader.outstanding - multiset{BodyRead(header)} + multiset{HeaderRead},
                        posted := reader.posted + posted);
    }
  }

  ghost predicate IsRun(rd: Reader, es: seq<Completion>)
    decreases |es|
  {
    es == [] || (Enabled(rd, es[0]) && IsRun(Step(rd, es[0]), es[1..]))
  }

  ghost function Run(rd: Reader, es: seq<Completion>): Reader
    requires IsRun(rd, es)
    decreases |es|
  {
    if es == [] then rd else Run(Step(rd, es[0]), es[1..])
  }

  predicate CarriesTask(e: Completion) {
    e.BodyDone? && Known(CommandOf(e.header))
  }

  function TaskCount(es: seq<Completion>): nat {
    if es == [] then 0 else (if CarriesTask(es[0]) then 1 else 0) + TaskCount(es[1..])
  }

  predicate OneReadUnlessFreed(rd: Reader) {
    |rd.outstanding| == if rd.freed then 0 else 1
  }

  predicate HeaderFailed(e: Completion) {
    e.HeaderDone? && e.error
  }

  ghost predicate SomeHeaderFailed(es: seq<Completion>) {
    exists i :: 0 <= i < |es| && HeaderFailed(es[i])
  }

  lemma StepKeepsOneRead(rd: Reader, e: Completion)
    requires Enabled(rd, e) && OneReadUnlessFreed(rd)
    ensures OneReadUnlessFreed(Step(rd, e))
    ensures Step(rd, e).freed <==> rd.freed || HeaderFailed(e)
    ensures |Step(rd, e).posted| == |rd.posted| + (if CarriesTask(e) then 1 else 0)
  {
  }

  lemma SomeHeaderFailedCons(es: seq<Completion>)
    requires es != []
    ensures SomeHeaderFailed(es) <==> HeaderFailed(es[0]) || SomeHeaderFailed(es[1..])
  {
    if i :| 0 <= i < |es| && HeaderFailed(es[i]) {
      assert i == 0 || es[1..][i - 1] == es[i];
    }
    if i :| 0 <= i < |es[1..]| && HeaderFailed(es[1..][i]) {
      assert es[i + 1] == es[1..][i];
    }
  }

  lemma {:induction false} RunFrom(rd: Reader, es: seq<Completion>)
    requires IsRun(rd, es) && OneReadUnlessFreed(rd)
    ensures var end := Run(rd, es);
            && OneReadUnlessFreed(end)
            && |end.posted| == |rd.posted| + TaskCount(es)
            && (end.freed <==> rd.freed || SomeHeaderFailed(es))
    decreases |es|
  {
    if es != [] {
      StepKeepsOneRead(rd, es[0]);
      RunFrom(Step(rd, es[0]), es[1..]);
      SomeHeaderFailedCons(es);
    }
  }

  /** In every run there is at most one read outstanding; there is none exactly when a header
      read has failed; and each body with a known command has posted exactly one task. */
  lemma ReadLoopRuns(es: seq<Completion>)
    requires IsRun(START, es)
    ensures var end := Run(START, es);
            && |end.outstanding| <= 1
            && (end.outstanding == multiset{} <==> SomeHeaderFailed(es))
            && |end.posted| == TaskCount(es)
  {
    RunFrom(START, es);
  }

  // ---------------------------------------------------- reading a byte stream

  /** The tasks posted while the loop reads `stream`, the read it then waits on and the bytes not
      yet taken by any read. */
  datatype Progress = Progress(posted: seq<Posted>, waiting: Read, rest: Bytes)

  function Need(r: Read): nat {
    if r.HeaderRead? then SIZE_HEADER else r.header.length
  }

  function Consume(waiting: Read, stream: Bytes): Progress
    decreases |stream| + (if waiting.BodyRead? then 1 else 0)
  {
    if |stream| < Need(waiting) then Progress([], waiting, stream)
    else
      var bytes, rest := stream[..Need(waiting)], stream[Need(waiting)..];
      match waiting
      case HeaderRead => Consume(AfterHeader(bytes), rest)
      case BodyRead(h) =>
        var p := Consume(HeaderRead, rest);
        p.(posted := Dispatch(h, bytes) + p.posted)
  }

  /** The completions a stream produces. */
  function Completions(waiting: Read, stream: Bytes): seq<Completion>
    decreases |stream| + (if waiting.BodyRead? then 1 else 0)
  {
    if |stream| < Need(waiting) then []
    else
      var bytes, rest := stream[..Need(waiting)], stream[Need(waiting)..];
      match waiting
      case HeaderRead => [HeaderDone(false, bytes)] + Completions(AfterHeader(bytes), rest)
      case BodyRead(h) => [BodyDone(h, bytes)] + Completions(HeaderRead, rest)
  }

  lemma StepOf(waiting: Read, before: seq<Posted>, e: Completion)
    requires Enabled(Reader(multiset{waiting}, before, false), e) && !HeaderFailed(e)
    ensures Step(Reader(multiset{waiting}, before, false), e)
         == match e
            case HeaderDone(_, bytes) => Reader(multiset{AfterHeader(bytes)}, before, false)
            case BodyDone(h, bytes) => Reader(multiset{HeaderRead}, before + Dispatch(h, bytes), false)
  {
    hide AfterHeader, Dispatch;
  }

  /** Reading a stream is one of the runs of the completion handlers. */
  lemma {:induction false} ConsumeIsRun(waiting: Read, stream: Bytes, before: seq<Posted>)
    ensures var rd := Reader(multiset{waiting}, before, false);
            var es, p := Completions(waiting, stream), Consume(waiting, stream);
            IsRun(rd, es) && Run(rd, es) == Reader(multiset{p.waiting}, before + p.posted, false)
    decreases |stream| + (if waiting.BodyRead? then 1 else 0)
  {
    hide AfterHeader, Dispatch;
    if |stream| >= Need(waiting) {
      var bytes, rest := stream[..Need(waiting)], stream[Need(waiting)..];
      var es := Completions(waiting, stream);
      match waiting
      case HeaderRead =>
        ConsumeIsRun(AfterHeader(bytes), rest, before);
        StepOf(waiting, before, es[0]);
        assert es[1..] == Completions(AfterHeader(bytes), rest);
      case BodyRead(h) =>
        ConsumeIsRun(HeaderRead, rest, before + Dispatch(h, bytes));
        StepOf(waiting, before, es[0]);
        assert es[1..] == Completions(HeaderRead, rest);
        Associative(before, Dispatch(h, bytes), Consume(HeaderRead, rest).posted);
    }
  }

  /** The loop as the completion handlers run it over a stream that has arrived. */
  method ReadStream(stream: Bytes) returns (posted: seq<Posted>, waiting: Read, rest: Bytes)
    ensures Progress(posted, waiting, rest) == Consume(HeaderRead, stream)
  {
    posted, waiting, rest := [], HeaderRead, stream;
    while |rest| >= Need(waiting)
      invariant var p := Consume(waiting, rest);
                Consume(HeaderRead, stream) == p.(posted := posted + p.posted)
      decreases |rest| + (if waiting.BodyRead? then 1 else 0)
    {
      var bytes := rest[..Need(waiting)];
      rest := rest[Need(waiting)..];
      match waiting
      case HeaderRead => waiting := AfterHeader(bytes);
      case BodyRead(h) =>
        posted := posted + Dispatch(h, bytes);
        waiting := HeaderRead;
    }
  }

  function Frames(rs: seq<ClientRequest>): seq<Bytes> {
    seq(|rs|, i requires 0 <= i < |rs| => RequestFrame(rs[i]))
  }

  /** What the server should post for a request of the client. */
  function TaskFor(r: ClientRequest): Posted {
    Posted(RequestCommand(r), r)
  }

  function Tasks(rs: seq<ClientRequest>): seq<Posted> {
    seq(|rs|, i requires 0 <= i < |rs| => TaskFor(rs[i]))
  }

  lemma ConsumeOne(slot: Bytes, h: Header, body: Bytes, tail: Bytes)
    requires |slot| == SIZE_HEADER && DecodeHeader(slot) == Parse(h, true) && h.length == |body|
    ensures var p := Consume(HeaderRead, tail);
            Consume(HeaderRead, slot + body + tail) == p.(posted := Dispatch(h, body) + p.posted)
  {
    hide DecodeHeader, Dispatch;
    var s := slot + body + tail;
    assert s[..SIZE_HEADER] == slot && s[SIZE_HEADER..] == body + tail;
    assert (body + tail)[..|body|] == body && (body + tail)[|body|..] == tail;
    assert Consume(HeaderRead, s) == Consume(BodyRead(h), body + tail);
  }

  /** The command of a request selects the handler that expects its content. */
  lemma RequestDispatch(r: ClientRequest, n: nat)
    ensures Dispatch(Header(1, RequestCommand(r), n), EncodeRequest(r)) == [TaskFor(r)]
  {
    hide DecodeRequest, EncodeRequest, RequestSize;
    RequestRoundTrip(r);
    assert CommandOf(Header(1, RequestCommand(r), n)) == RequestCommand(r);
  }

  /** A request's frame, cut where the reader cuts it, and what the reader makes of the pieces. */
  lemma RequestFrameParts(r: ClientRequest) returns (slot: Bytes, h: Header, body: Bytes)
    ensures RequestFrame(r) == slot + body && |slot| == SIZE_HEADER && h.length == |body|
    ensures DecodeHeader(slot) == Parse(h, true)
    ensures Dispatch(h, body) == [TaskFor(r)]
  {
    hide DecodeRequest, EncodeRequest, RequestSize, DecodeHeader, Frame, Dispatch;
    body := EncodeRequest(r);
    RequestRoundTrip(r);
    slot, h := FrameParts(RequestCommand(r), body);
    RequestDispatch(r, |body|);
  }

  /** One frame at the head of a stream becomes one task. */
  lemma ConsumeFrame(r: ClientRequest, tail: Bytes)
    ensures var p := Consume(HeaderRead, tail);
            Consume(HeaderRead, RequestFrame(r) + tail) == p.(posted := [TaskFor(r)] + p.posted)
  {
    hide RequestFrame, DecodeHeader, Consume, Dispatch;
    var slot, h, body := RequestFrameParts(r);
    ConsumeOne(slot, h, body, tail);
  }

  /** Less than one frame posts nothing. */
  lemma ConsumePartial(r: ClientRequest, part: Bytes)
    requires part < RequestFrame(r)
    ensures Consume(HeaderRead, part).posted == []
  {
    hide DecodeHeader, RequestFrame, Requestable, Dispatch;
    var slot, h, body := RequestFrameParts(r);
    if |part| >= SIZE_HEADER {
      assert part[..SIZE_HEADER] == slot;
      assert Consume(HeaderRead, part) == Consume(BodyRead(h), part[SIZE_HEADER..]);
    }
  }

  /** Nineteen bytes that are no header are skipped, and so is a body under a command the server does
      not know. */
  lemma Skipped(slot: Bytes, h: Header, body: Bytes, tail: Bytes)
    requires |slot| == SIZE_HEADER
    ensures !DecodeHeader(slot).ok ==> Consume(HeaderRead, slot + tail) == Consume(HeaderRead, tail)
    ensures DecodeHeader(slot) == Parse(h, true) && h.length == |body| && !Known(CommandOf(h)) ==>
              Consume(HeaderRead, slot + body + tail) == Consume(HeaderRead, tail)
  {
    hide DecodeHeader;
    assert (slot + tail)[..SIZE_HEADER] == slot && (slot + tail)[SIZE_HEADER..] == tail;
    if DecodeHeader(slot) == Parse(h, true) && h.length == |body| {
      ConsumeOne(slot, h, body, tail);
    }
  }

  /** Only the low 16 bits of the command matter, and a body is dispatched under a known command whether
      or not it parses. */
  lemma LowBitsDecide(version: nat, command: nat, high: nat, n: nat, bytes: Bytes)
    requires command < 0x1_0000
    ensures Dispatch(Header(version, command + 0x1_0000 * high, n), bytes) == Dispatch(Header(version, command, n), bytes)
    ensures Dispatch(Header(version, command, n), bytes)
         == if command in {1, 3, 5, 7} then [Posted(command, DecodeRequest(bytes).value)] else []
  {
    hide DecodeRequest;
    assert (command + 0x1_0000 * high) % 0x1_0000 == command;
  }

  /** However much of the client's byte stream has arrived, the server has posted exactly the first
      requests of it, each under the command whose handler expects that content; when all of it
      has arrived every request is posted and no byte is left over. */
  lemma {:induction false} ServerReadsRequests(rs: seq<ClientRequest>, arrived: Bytes)
    requires arrived <= Flatten(Frames(rs))
    ensures Consume(HeaderRead, arrived).posted <= Tasks(rs)
    ensures arrived == Flatten(Frames(rs)) ==> Consume(HeaderRead, arrived) == Progress(Tasks(rs), HeaderRead, [])
    decreases |rs|
  {
    hide RequestFrame, Requestable, Dispatch, AfterHeader;
    if rs != [] {
      var frame, later := RequestFrame(rs[0]), Flatten(Frames(rs[1..]));
      FlattenHead(Frames(rs));
      assert Frames(rs)[1..] == Frames(rs[1..]);
      PrefixOfJoin(arrived, frame, later);
      if |arrived| < |frame| {
        ConsumePartial(rs[0], arrived);
      } else {
        var tail := arrived[|frame|..];
        ConsumeFrame(rs[0], tail);
        ServerReadsRequests(rs[1..], tail);
        assert Tasks(rs) == [TaskFor(rs[0])] + Tasks(rs[1..]);
      }
    }
  }
}
