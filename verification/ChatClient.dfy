/** The client's read loop and the history it keeps for each room. */
module ChatClient {
  import opened Basics
  import opened Messages
  import opened MsgFactory

  /** What the client waits for. `Idle` is an open socket with no read issued. */
  datatype Waiting = ForHeader | ForBody(header: Header) | Idle | Closed

  datatype Client = Client(history: map<Id, seq<Text>>, clientId: Id, waiting: Waiting)

  function HistoryOf(c: Client, r: Id): seq<Text> {
    if r in c.history then c.history[r] else []
  }

  /** `do_read_pb_header` and `async_read_pb_msg`: bytes that do not parse, and commands the client
      does not read, leave no read outstanding. */
  function OnHeader(c: Client, bytes: Bytes): Client {
    var p := DecodeHeader(bytes);
    if !p.ok then c.(waiting := Idle)
    else
      var command := CommandOf(p.value);
      if || command == AUTORISATION_RESPONSE || command == REGISTRATION_RESPONSE
         || command == ECHO_RESPONSE || command == JOIN_ROOM_RESPONSE
      then c.(waiting := ForBody(p.value))
      else c.(waiting := Idle)
  }

  /** The text carried by a response; an absent one reads as all defaults. */
  function TextOf(r: Response): Text {
    if r.TextResponse? then Text(r.roomId, r.login, r.text) else Text(0, [], [])
  }

  function Remember(c: Client, m: Text): Client {
    c.(history := c.history[m.room := HistoryOf(c, m.room) + [m]])
  }

  /** The body handlers: `do_read_input_response`, `do_read_reg_response`, `do_read_echo_response`
      and `do_read_join_room_response`. */
  function OnBody(c: Client, h: Header, bytes: Bytes): Client {
    var p := DecodeResponse(bytes);
    var r := p.value;
    var command := CommandOf(h);
    if command == ECHO_RESPONSE then Remember(c, TextOf(r)).(waiting := ForHeader)
    else if !p.ok then c.(waiting := Closed)
    else if command == AUTORISATION_RESPONSE then
      if !r.InputResponse? then c.(waiting := Idle)
      else if r.status == STATUS_OK then c.(clientId := r.clientId, waiting := ForHeader)
      else c.(waiting := Closed)
    else if command == REGISTRATION_RESPONSE then
      if !r.RegResponse? then c.(waiting := Idle)
      else if r.status == STATUS_OK then c.(clientId := 0, waiting := ForHeader)
      else c.(waiting := Closed)
    else if command == JOIN_ROOM_RESPONSE then
      if !r.JoinRoomResponse? then c.(waiting := Idle)
      else if r.status == STATUS_OK then
        c.(history := c.history[r.roomId := HistoryOf(c, r.roomId)], waiting := ForHeader)
      else c.(waiting := Closed)
    else c.(waiting := Idle)
  }

  /** `close_connection`, which every failed read leads to. */
  function Close(c: Client): Client {
    c.(waiting := Closed)
  }

  predicate Reading(c: Client) {
    c.waiting.ForHeader? || c.waiting.ForBody?
  }

  function Need(c: Client): nat
    requires Reading(c)
  {
    if c.waiting.ForHeader? then SIZE_HEADER else c.waiting.header.length
  }

  /** The client after its read loop has taken all it can from `stream`. */
  function Consume(c: Client, stream: Bytes): Client
    decreases |stream| + (if c.waiting.ForBody? then 1 else 0)
  {
    if !Reading(c) || |stream| < Need(c) then c
    else
      var bytes, rest := stream[..Need(c)], stream[Need(c)..];
      match c.waiting
      case ForHeader => Consume(OnHeader(c, bytes), rest)
      case ForBody(h) => Consume(OnBody(c, h, bytes), rest)
  }

  lemma NothingToRead(c: Client)
    requires c.waiting.ForHeader? || c.waiting.Closed?
    ensures Consume(c, []) == c
  {
  }

  // ------------------------------------------------- what responses mean

  /** The effect a response is meant to have on a client that is waiting for one. */
  function Absorb(c: Client, r: ServerResponse): Client {
    if !c.waiting.ForHeader? then c
    else
      match r
      case TextResponse(l, i, t) => Remember(c, Text(i, l, t))
      case InputResponse(s, _, id, _) =>
        if s == STATUS_OK then c.(clientId := id) else c.(waiting := Closed)
      case RegResponse(s, _, _, _) =>
        if s == STATUS_OK then c.(clientId := 0) else c.(waiting := Closed)
      case JoinRoomResponse(s, i) =>
        if s == STATUS_OK then c.(history := c.history[i := HistoryOf(c, i)]) else c.(waiting := Closed)
  }

  function AbsorbAll(c: Client, rs: seq<ServerResponse>): Client
    decreases |rs|
  {
    if rs == [] then c else AbsorbAll(Absorb(c, rs[0]), rs[1..])
  }

  function Frames(rs: seq<ServerResponse>): seq<Bytes> {
    seq(|rs|, i requires 0 <= i < |rs| => ResponseFrame(rs[i]))
  }

  lemma ConsumeOne(c: Client, slot: Bytes, h: Header, body: Bytes, tail: Bytes)
    requires c.waiting.ForHeader?
    requires |slot| == SIZE_HEADER && h.length == |body| && OnHeader(c, slot) == c.(waiting := ForBody(h))
    ensures Consume(c, slot + body + tail) == Consume(OnBody(c.(waiting := ForBody(h)), h, body), tail)
  {
    hide OnHeader, OnBody;
    var s := slot + body + tail;
    assert s[..SIZE_HEADER] == slot && s[SIZE_HEADER..] == body + tail;
    assert (body + tail)[..|body|] == body && (body + tail)[|body|..] == tail;
    assert Consume(c, s) == Consume(c.(waiting := ForBody(h)), body + tail);
  }

  /** The command of a response selects the handler that understands it. */
  lemma BodyMeans(c: Client, r: ServerResponse, n: nat)
    requires c.waiting.ForHeader?
    ensures var h := Header(1, ResponseCommand(r), n);
            OnBody(c.(waiting := ForBody(h)), h, EncodeResponse(r)) == Absorb(c, r)
  {
    hide DecodeResponse, EncodeResponse, ResponseSize;
    ResponseRoundTrip(r);
    var h := Header(1, ResponseCommand(r), n);
    assert CommandOf(h) == ResponseCommand(r);
    assert c.(waiting := ForBody(h)).(waiting := ForHeader) == c;
  }

  lemma HeaderMeans(c: Client, slot: Bytes, h: Header)
    requires DecodeHeader(slot) == Parse(h, true)
    requires || h.command == AUTORISATION_RESPONSE || h.command == REGISTRATION_RESPONSE
             || h.command == ECHO_RESPONSE || h.command == JOIN_ROOM_RESPONSE
    ensures OnHeader(c, slot) == c.(waiting := ForBody(h))
  {
    hide DecodeHeader;
    assert CommandOf(h) == h.command;
  }

  lemma ResponseFrameParts(c: Client, r: ServerResponse) returns (slot: Bytes, h: Header, body: Bytes)
    requires c.waiting.ForHeader?
    ensures ResponseFrame(r) == slot + body && |slot| == SIZE_HEADER && h.length == |body|
    ensures OnHeader(c, slot) == c.(waiting := ForBody(h))
    ensures OnBody(c.(waiting := ForBody(h)), h, body) == Absorb(c, r)
  {
    hide DecodeResponse, EncodeResponse, ResponseSize, DecodeHeader, Frame, OnHeader, OnBody;
    body := EncodeResponse(r);
    ResponseRoundTrip(r);
    slot, h := FrameParts(ResponseCommand(r), body);
    HeaderMeans(c, slot, h);
    BodyMeans(c, r, |body|);
  }

  lemma ConsumeFrame(c: Client, r: ServerResponse, tail: Bytes)
    requires c.waiting.ForHeader?
    ensures Consume(c, ResponseFrame(r) + tail) == Consume(Absorb(c, r), tail)
  {
    hide ResponseFrame, OnHeader, OnBody, Consume;
    var slot, h, body := ResponseFrameParts(c, r);
    ConsumeOne(c, slot, h, body, tail);
  }

  lemma ConsumePartial(c: Client, r: ServerResponse, part: Bytes)
    requires c.waiting.ForHeader? && part < ResponseFrame(r)
    ensures Consume(c, part).history == c.history
  {
    hide ResponseFrame, OnHeader, OnBody, Sendable;
    var slot, h, body := ResponseFrameParts(c, r);
    if |part| >= SIZE_HEADER {
      assert part[..SIZE_HEADER] == slot;
      assert Consume(c, part) == Consume(c.(waiting := ForBody(h)), part[SIZE_HEADER..]);
    }
  }

  /** After nineteen bytes that are no header, or a header with a command it does not read, the client
      reads nothing more and keeps what it has. */
  lemma ClientStalls(c: Client, slot: Bytes, tail: Bytes)
    requires c.waiting.ForHeader? && |slot| == SIZE_HEADER
    requires !DecodeHeader(slot).ok || CommandOf(DecodeHeader(slot).value) !in {2, 4, 6, 8}
    ensures Consume(c, slot + tail) == c.(waiting := Idle)
  {
    hide DecodeHeader;
    assert (slot + tail)[..SIZE_HEADER] == slot && (slot + tail)[SIZE_HEADER..] == tail;
  }

  /** A text frame adds a line whether or not its body parses: what was read of it, and an empty line of
      room 0 if that holds no text. */
  lemma UnparsedText(c: Client, slot: Bytes, h: Header, body: Bytes, tail: Bytes)
    requires c.waiting.ForHeader? && |slot| == SIZE_HEADER
    requires DecodeHeader(slot) == Parse(h, true) && h.command % 0x1_0000 == 6 && h.length == |body|
    ensures var r := DecodeResponse(body).value;
            var m := if r.TextResponse? then Text(r.roomId, r.login, r.text) else Text(0, [], []);
            Consume(c, slot + body + tail) == Consume(c.(history := c.history[m.room := HistoryOf(c, m.room) + [m]]), tail)
  {
    hide DecodeHeader, DecodeResponse, Consume, HistoryOf;
    ConsumeOne(c, slot, h, body, tail);
    var r := DecodeResponse(body).value;
    var c' := c.(waiting := ForBody(h));
    assert HistoryOf(c', TextOf(r).room) == HistoryOf(c, TextOf(r).room) by {
      SameHistory(c, c', TextOf(r).room);
    }
  }

  /** A login, registration or join answer that does not parse closes the connection; one that parses to
      another kind of response leaves the client without a read; nothing else changes. */
  lemma WrongAnswer(c: Client, h: Header, bytes: Bytes)
    requires h.command % 0x1_0000 in {2, 4, 8}
    ensures var p, command := DecodeResponse(bytes), h.command % 0x1_0000;
            && (!p.ok ==> OnBody(c, h, bytes) == c.(waiting := Closed))
            && (p.ok && command == 4 && !p.value.InputResponse? ==> OnBody(c, h, bytes) == c.(waiting := Idle))
            && (p.ok && command == 2 && !p.value.RegResponse? ==> OnBody(c, h, bytes) == c.(waiting := Idle))
            && (p.ok && command == 8 && !p.value.JoinRoomResponse? ==> OnBody(c, h, bytes) == c.(waiting := Idle))
  {
    hide DecodeResponse;
  }

  lemma SameHistory(c: Client, c': Client, r: Id)
    requires c'.history == c.history
    ensures HistoryOf(c', r) == HistoryOf(c, r)
  {
  }

  lemma {:induction false} AbsorbStopped(c: Client, rs: seq<ServerResponse>)
    requires !c.waiting.ForHeader?
    ensures AbsorbAll(c, rs) == c
  {
    if rs != [] {
      AbsorbStopped(c, rs[1..]);
    }
  }

  /** However much of the server's byte stream has arrived, the client's history is what some
      first part of the responses in it means; all of them once the stream has arrived in full. */
  lemma {:induction false} ClientReads(c: Client, rs: seq<ServerResponse>, arrived: Bytes) returns (k: nat)
    requires c.waiting.ForHeader? || c.waiting.Closed?
    requires arrived <= Flatten(Frames(rs))
    ensures k <= |rs| && Consume(c, arrived).history == AbsorbAll(c, rs[..k]).history
    ensures arrived == Flatten(Frames(rs)) ==> k == |rs| && Consume(c, arrived) == AbsorbAll(c, rs)
    decreases |rs|
  {
    hide ResponseFrame, OnHeader, OnBody, Sendable, Absorb;
    if rs == [] {
      k := 0;
    } else if c.waiting.Closed? {
      k := |rs|;
      AbsorbStopped(c, rs);
      assert rs[..k] == rs;
    } else {
      var frame, later := ResponseFrame(rs[0]), Flatten(Frames(rs[1..]));
      FlattenHead(Frames(rs));
      assert Frames(rs)[1..] == Frames(rs[1..]);
      PrefixOfJoin(arrived, frame, later);
      if |arrived| < |frame| {
        ConsumePartial(c, rs[0], arrived);
        k := 0;
      } else {
        var tail := arrived[|frame|..];
        ConsumeFrame(c, rs[0], tail);
        AbsorbWaits(c, rs[0]);
        var j := ClientReads(Absorb(c, rs[0]), rs[1..], tail);
        k := j + 1;
        assert rs[..k][0] == rs[0] && rs[..k][1..] == rs[1..][..j];
      }
    }
  }

  lemma AbsorbWaits(c: Client, r: ServerResponse)
    requires c.waiting.ForHeader?
    ensures Absorb(c, r).waiting.ForHeader? || Absorb(c, r).waiting.Closed?
  {
  }

  // ------------------------------------------------------- text responses

  /** A line of chat that protobuf can hold. */
  predicate Fits(m: Text) {
    Sendable(CreateTextResponse(m))
  }

  function TextResponses(ms: seq<Text>): seq<Response> {
    seq(|ms|, i requires 0 <= i < |ms| => CreateTextResponse(ms[i]))
  }

  function LineOf(r: Response): seq<Text> {
    if r.TextResponse? then [Text(r.roomId, r.login, r.text)] else []
  }

  /** The lines of chat in a list of responses. */
  function LinesIn(rs: seq<Response>): seq<Text> {
    if rs == [] then [] else LineOf(rs[0]) + LinesIn(rs[1..])
  }

  /** A response at which the client closes the connection. */
  predicate Refusal(r: Response) {
    (r.InputResponse? || r.RegResponse? || r.JoinRoomResponse?) && r.status != STATUS_OK
  }

  /** The lines of chat before the first refusal. */
  function Heard(rs: seq<Response>): seq<Text> {
    if rs == [] || Refusal(rs[0]) then [] else LineOf(rs[0]) + Heard(rs[1..])
  }

  lemma {:induction false} HeardPrefix(rs: seq<Response>, k: nat)
    requires k <= |rs|
    ensures Heard(rs[..k]) <= Heard(rs)
    decreases |rs|
  {
    if k > 0 && !Refusal(rs[0]) {
      HeardPrefix(rs[1..], k - 1);
      assert rs[..k][1..] == rs[1..][..k - 1];
    }
  }

  /** Without a refusal every line is heard. */
  lemma {:induction false} HeardAll(rs: seq<Response>)
    ensures Heard(rs) <= LinesIn(rs)
    ensures (forall i :: 0 <= i < |rs| ==> !Refusal(rs[i])) ==> Heard(rs) == LinesIn(rs)
  {
    if rs != [] {
      HeardAll(rs[1..]);
      assert forall i :: 0 <= i < |rs| - 1 ==> rs[1..][i] == rs[i + 1];
    }
  }

  lemma AbsorbOne(c: Client, x: ServerResponse, r: Id)
    requires c.waiting.ForHeader?
    ensures HistoryOf(Absorb(c, x), r) == HistoryOf(c, r) + ForRoom(LineOf(x), r)
    ensures Absorb(c, x).waiting.ForHeader? <==> !Refusal(x)
    ensures x.JoinRoomResponse? && !Refusal(x) ==> x.roomId in Absorb(c, x).history
  {
    if x.TextResponse? {
      RememberOne(c, Text(x.roomId, x.login, x.text), r);
    }
  }

  /** A list of responses adds to each room what is heard of it before the first refusal. */
  lemma {:induction false} AbsorbHeard(c: Client, rs: seq<ServerResponse>, r: Id)
    requires c.waiting.ForHeader?
    ensures HistoryOf(AbsorbAll(c, rs), r) == HistoryOf(c, r) + ForRoom(Heard(rs), r)
    decreases |rs|
  {
    hide Sendable, HistoryOf, Remember, Absorb, Refusal, LineOf, ForRoom;
    if rs == [] {
      ForRoomUniform([], r, r);
    } else {
      var c' := Absorb(c, rs[0]);
      AbsorbOne(c, rs[0], r);
      if Refusal(rs[0]) {
        AbsorbStopped(c', rs[1..]);
        RefusalHasNoLine(rs[0]);
        ForRoomUniform([], r, r);
      } else {
        AbsorbHeard(c', rs[1..], r);
        ForRoomConcat(LineOf(rs[0]), Heard(rs[1..]), r);
      }
    }
  }

  lemma RefusalHasNoLine(x: Response)
    requires Refusal(x)
    ensures LineOf(x) == []
  {
  }

  lemma RememberOne(c: Client, m: Text, r: Id)
    ensures HistoryOf(Remember(c, m), r) == HistoryOf(c, r) + ForRoom([m], r)
    ensures Remember(c, m).waiting == c.waiting
  {
    ForRoomUniform([m], m.room, r);
  }

  // ------------------------------------------------------------ the client's id

  /** The id that the last login or registration response leaves; that of a registration response is
      read from a member it does not have. */
  function LastId(rs: seq<Response>, before: Id): Id {
    if rs == [] then before
    else
      var last := rs[|rs| - 1];
      if last.InputResponse? then last.clientId else if last.RegResponse? then 0
      else LastId(rs[..|rs| - 1], before)
  }

  lemma {:induction false} LastIdCons(rs: seq<Response>, before: Id)
    requires rs != []
    ensures LastId(rs, before) == LastId(rs[1..], LastId([rs[0]], before))
  {
    if |rs| > 1 {
      var front := rs[..|rs| - 1];
      assert rs[1..][..|rs| - 2] == front[1..] && rs[1..][|rs| - 2] == rs[|rs| - 1];
      LastIdCons(front, before);
    } else {
      assert rs == [rs[0]];
    }
  }

  lemma {:induction false} AbsorbIds(c: Client, rs: seq<ServerResponse>)
    requires c.waiting.ForHeader? && forall i :: 0 <= i < |rs| ==> !Refusal(rs[i])
    ensures AbsorbAll(c, rs).clientId == LastId(rs, c.clientId)
    decreases |rs|
  {
    hide Sendable, HistoryOf;
    if rs != [] {
      var c' := Absorb(c, rs[0]);
      assert c'.clientId == LastId([rs[0]], c.clientId) by {
        assert [rs[0]][..0] == [];
      }
      assert forall i :: 0 <= i < |rs| - 1 ==> rs[1..][i] == rs[i + 1];
      AbsorbIds(c', rs[1..]);
      LastIdCons(rs, c.clientId);
    }
  }

  /** After a stream of any responses without a refusal the client's id is the one that the last login
      response carried. */
  lemma ClientId(c: Client, rs: seq<ServerResponse>)
    requires c.waiting.ForHeader? && forall i :: 0 <= i < |rs| ==> !Refusal(rs[i])
    ensures Consume(c, Flatten(Frames(rs))).clientId == LastId(rs, c.clientId)
  {
    hide Sendable, ResponseFrame, Consume, Absorb, Refusal;
    var k := ClientReads(c, rs, Flatten(Frames(rs)));
    AbsorbIds(c, rs);
  }

  const FRESH := Client(map[], 0, ForHeader)

  /** A new client that has received any part of the frames of any responses remembers, for each
      room, a prefix of the lines of that room before the first refusal; all of those once
      everything has arrived. */
  lemma ClientRemembers(rs: seq<ServerResponse>, arrived: Bytes, r: Id)
    requires arrived <= Flatten(Frames(rs))
    ensures HistoryOf(Consume(FRESH, arrived), r) <= ForRoom(Heard(rs), r)
    ensures arrived == Flatten(Frames(rs)) ==> HistoryOf(Consume(FRESH, arrived), r) == ForRoom(Heard(rs), r)
  {
    hide Sendable, ResponseFrame, Consume, Absorb, Heard;
    var k := ClientReads(FRESH, rs, arrived);
    AbsorbHeard(FRESH, rs[..k], r);
    HeardPrefix(rs, k);
    ForRoomPrefix(Heard(rs[..k]), Heard(rs), r);
    assert k == |rs| ==> rs[..k] == rs;
  }
}
