/** `Protocol::MsgFactory`: message builders, the header and framed serialisation. */
module MsgFactory {
  import opened Basics
  import opened Wire
  import opened Messages

  const SIZE_HEADER := 2 * (4 + 1) + (8 + 1)

  // TypeCommand
  const REGISTRATION_REQUEST := 1
  const REGISTRATION_RESPONSE := 2
  const AUTHORISATION_REQUEST := 3
  const AUTORISATION_RESPONSE := 4
  const ECHO_REQUEST := 5
  const ECHO_RESPONSE := 6
  const JOIN_ROOM_REQUEST := 7
  const JOIN_ROOM_RESPONSE := 8

  /** `static_cast<TypeCommand>`: the header's command cut to 16 bits. */
  function CommandOf(h: Header): nat {
    h.command % 0x1_0000
  }

  // -------------------------------------------------------------- builders

  function LoginStatus(clientId: Id): Id {
    if clientId != -1 then STATUS_OK else STATUS_FAIL
  }

  function CreateInputResponse(clientId: Id): Response {
    InputResponse(LoginStatus(clientId), 0, clientId, 0)
  }

  function CreateRegResponse(clientId: Id): Response {
    RegResponse(LoginStatus(clientId), 0, clientId, 0)
  }

  function CreateTextResponse(m: Text): Response {
    TextResponse(m.login, m.room, m.text)
  }

  function CreateJoinRoomResponse(room: Id, flag: bool): Response {
    JoinRoomResponse(if flag then STATUS_OK else STATUS_FAIL, room)
  }

  function CreateHeader(command: nat, length: nat): Header {
    Header(1, command, length)
  }

  // ---------------------------------------------------------- header slot

  function Zeros(n: nat): Bytes {
    seq(n, _ => 0)
  }

  predicate AllFieldsSet(h: Header) {
    h.version != 0 && h.command != 0 && h.length != 0
  }

  lemma {:induction false} FieldsSizeConcat(a: seq<Field>, b: seq<Field>)
    ensures FieldsSize(a + b) == FieldsSize(a) + FieldsSize(b)
  {
    if a == [] {
      assert a + b == b;
    } else {
      assert (a + b)[1..] == a[1..] + b;
      FieldsSizeConcat(a[1..], b);
    }
  }

  lemma FourSizes(a: seq<Field>, b: seq<Field>, c: seq<Field>, d: seq<Field>)
    ensures FieldsSize(a + b + c + d) == FieldsSize(a) + FieldsSize(b) + FieldsSize(c) + FieldsSize(d)
  {
    FieldsSizeConcat(a + b + c, d);
    FieldsSizeConcat(a + b, c);
    FieldsSizeConcat(a, b);
  }

  lemma OneSize(f: Field)
    ensures FieldsSize([f]) == FieldSize(f)
  {
    assert FieldsSize([f]) == FieldSize(f) + FieldsSize([f][1..]);
  }

  /** The encoded header is 19 bytes exactly when all three of its fields are present. */
  lemma HeaderSize(h: Header)
    requires ValidHeader(h)
    ensures |EncodeHeader(h)| == (if h.version != 0 then 5 else 0) + (if h.command != 0 then 5 else 0)
                               + (if h.length != 0 then 9 else 0)
    ensures |EncodeHeader(h)| == SIZE_HEADER <==> AllFieldsSet(h)
    ensures AllWellFormed(HeaderFields(h))
  {
    var a, b, c := U32(1, h.version), U32(2, h.command), U64(3, h.length);
    FourInRange(a, b, c, []);
    FourSizes(a, b, c, []);
    OneSize(Field(1, Fixed32(h.version)));
    OneSize(Field(2, Fixed32(h.command)));
    OneSize(Field(3, Fixed64(h.length)));
    SmallIsWellFormed(HeaderFields(h));
    FieldsSizeCorrect(HeaderFields(h));
  }

  /** The 19 bytes in front of a body: the encoded header, then the zeros of the fresh buffer. */
  function HeaderSlot(h: Header): (r: Bytes)
    requires ValidHeader(h)
    ensures |r| == SIZE_HEADER
  {
    HeaderSize(h);
    EncodeHeader(h) + Zeros(SIZE_HEADER - |EncodeHeader(h)|)
  }

  lemma ZerosDoNotParse(n: nat)
    requires n > 0
    ensures DecodeFields(Zeros(n)) == Scan([], false)
  {
    assert DecodeVarint(Zeros(n), 5) == Some(Item(0, 1));
  }

  lemma HeaderFieldsReadBack(h: Header)
    requires ValidHeader(h)
    ensures var fs := HeaderFields(h);
            GetU32(fs, 1) == h.version && GetU32(fs, 2) == h.command && GetU64(fs, 3) == h.length
  {
    var a, b, c := U32(1, h.version), U32(2, h.command), U64(3, h.length);
    LastOfFour(a, b, c, [], 1, 5);
    LastOfFour(a, b, c, [], 2, 5);
    LastOfFour(a, b, c, [], 3, 1);
    LastOfOne(Field(1, Fixed32(h.version)), 1, 5);
    LastOfOne(Field(2, Fixed32(h.command)), 1, 5);
    LastOfOne(Field(2, Fixed32(h.command)), 2, 5);
    LastOfOne(Field(1, Fixed32(h.version)), 2, 5);
    LastOfOne(Field(3, Fixed64(h.length)), 3, 1);
    LastOfOne(Field(3, Fixed64(h.length)), 2, 5);
    LastOfOne(Field(3, Fixed64(h.length)), 1, 5);
    LastOfOne(Field(1, Fixed32(h.version)), 3, 1);
    LastOfOne(Field(2, Fixed32(h.command)), 3, 1);
  }

  /** A peer that reads the fixed 19 bytes gets the header back if and only if no field of it
      has the value proto3 omits; otherwise the zero padding makes the parse fail. */
  lemma HeaderSlotParses(h: Header)
    requires ValidHeader(h)
    ensures DecodeHeader(HeaderSlot(h)).ok <==> AllFieldsSet(h)
    ensures AllFieldsSet(h) ==> DecodeHeader(HeaderSlot(h)) == Parse(h, true)
  {
    HeaderSize(h);
    var pad := Zeros(SIZE_HEADER - |EncodeHeader(h)|);
    FieldsThenTail(HeaderFields(h), pad);
    if AllFieldsSet(h) {
      assert pad == [];
      assert HeaderFields(h) + [] == HeaderFields(h);
      HeaderFieldsReadBack(h);
    } else {
      ZerosDoNotParse(|pad|);
    }
  }

  // ---------------------------------------------------------------- frames

  predicate Frameable(command: nat, body: Bytes) {
    0 < command < 0x1_0000 && 0 < |body| <= MAX_LENGTH
  }

  /** A header slot followed by the body it announces. */
  function Frame(command: nat, body: Bytes): Bytes
    requires command < TWO32 && |body| <= MAX_LENGTH
  {
    HeaderSlot(CreateHeader(command, |body|)) + body
  }

  /** `SerializeToArray`: writes `s` into `buffer` from position `at`. */
  method WriteAt(buffer: array<Byte>, at: nat, s: Bytes)
    requires at + |s| <= buffer.Length
    modifies buffer
    ensures buffer[..] == old(buffer[..at]) + s + old(buffer[at + |s|..])
  {
    for i := 0 to |s|
      invariant buffer[..at] == old(buffer[..at])
      invariant buffer[at..at + i] == s[..i]
      invariant buffer[at + |s|..] == old(buffer[at + |s|..])
    {
      buffer[at + i] := s[i];
      assert buffer[at..at + i + 1] == buffer[at..at + i] + [s[i]];
    }
    assert buffer[..] == buffer[..at] + buffer[at..at + |s|] + buffer[at + |s|..];
  }

  /** The bytes that serialisation leaves in a zeroed buffer. The length is the size as a `size_t`;
      a body beyond protobuf's limit is refused by `SerializeToArray` and stays zero. */
  function RawFrame(header: Header, size: nat, encoded: Bytes): Bytes
    requires ValidHeader(header)
  {
    HeaderSlot(header.(length := size % TWO64)) + if size <= MAX_LENGTH then encoded else Zeros(size)
  }

  /** A body that fits gives the frame it should. */
  lemma RawIsFrame(command: nat, body: Bytes)
    requires command < TWO32 && |body| <= MAX_LENGTH
    ensures RawFrame(CreateHeader(command, 0), |body|, body) == Frame(command, body)
  {
    hide HeaderSlot;
    assert |body| % TWO64 == |body|;
  }

  /** `serialize_response`: whatever length the header carried, the frame announces the body's own. */
  method SerializeResponse(header: Header, response: Response) returns (buffer: array<Byte>)
    requires ValidHeader(header)
    ensures fresh(buffer)
    ensures buffer[..] == RawFrame(header, ResponseSize(response), EncodeResponse(response))
  {
    var size := ResponseSize(response);
    if size <= MAX_LENGTH {
      ResponseRoundTrip(response);
    }
    buffer := Serialize(header, size, EncodeResponse(response));
  }

  /** `serialize_request`. */
  method SerializeRequest(header: Header, request: Request) returns (buffer: array<Byte>)
    requires ValidHeader(header)
    ensures fresh(buffer)
    ensures buffer[..] == RawFrame(header, RequestSize(request), EncodeRequest(request))
  {
    var size := RequestSize(request);
    if size <= MAX_LENGTH {
      RequestRoundTrip(request);
    }
    buffer := Serialize(header, size, EncodeRequest(request));
  }

  /** Writing the encoded header at the start of a zeroed buffer leaves the slot there. */
  lemma SlotInBuffer(zeros: Bytes, encoded: Bytes)
    requires |encoded| <= SIZE_HEADER <= |zeros| && forall i :: 0 <= i < |zeros| ==> zeros[i] == 0
    ensures (zeros[..0] + encoded + zeros[0 + |encoded|..])[..SIZE_HEADER] == encoded + Zeros(SIZE_HEADER - |encoded|)
  {
  }

  method Serialize(header: Header, size: nat, encoded: Bytes) returns (buffer: array<Byte>)
    requires ValidHeader(header) && (size <= MAX_LENGTH ==> |encoded| == size)
    ensures fresh(buffer)
    ensures buffer[..] == RawFrame(header, size, encoded)
  {
    hide EncodeHeader;
    var stamped := header.(length := size % TWO64);
    HeaderSize(stamped);
    buffer := new Byte[SIZE_HEADER + size](_ => 0);
    var start := EncodeHeader(stamped);
    SlotInBuffer(buffer[..], start);
    WriteAt(buffer, 0, start);
    assert buffer[..SIZE_HEADER] == buffer[..][..SIZE_HEADER];
    if size <= MAX_LENGTH {
      WriteAt(buffer, SIZE_HEADER, encoded);
    }
  }

  /** Each response travels under its own command. */
  function ResponseCommand(r: Response): nat
    requires !r.NoResponse?
  {
    match r
    case InputResponse(_, _, _, _) => AUTORISATION_RESPONSE
    case RegResponse(_, _, _, _) => REGISTRATION_RESPONSE
    case JoinRoomResponse(_, _) => JOIN_ROOM_RESPONSE
    case TextResponse(_, _, _) => ECHO_RESPONSE
  }

  predicate Sendable(r: Response) {
    !r.NoResponse? && ResponseSize(r) <= MAX_LENGTH
  }

  /** A response the factory builds and protobuf can hold. */
  type ServerResponse = r: Response | Sendable(r) witness JoinRoomResponse(0, 0)

  function ResponseFrame(r: ServerResponse): Bytes {
    ResponseRoundTrip(r);
    Frame(ResponseCommand(r), EncodeResponse(r))
  }

  /** Each request the client builds travels under its own command
      (`connect_to_server`, `change_room`, `send_msg_to_server`). */
  function RequestCommand(r: Request): nat
    requires !r.NoRequest?
  {
    match r
    case RegRequest(_, _) => REGISTRATION_REQUEST
    case InRequest(_, _) => AUTHORISATION_REQUEST
    case JoinRoomRequest(_) => JOIN_ROOM_REQUEST
    case TextRequest(_, _, _) => ECHO_REQUEST
  }

  predicate Requestable(r: Request) {
    !r.NoRequest? && RequestSize(r) <= MAX_LENGTH
  }

  /** A request the client builds and protobuf can hold. */
  type ClientRequest = r: Request | Requestable(r) witness JoinRoomRequest(0)

  function RequestFrame(r: ClientRequest): Bytes {
    RequestRoundTrip(r);
    Frame(RequestCommand(r), EncodeRequest(r))
  }

  /** A frame opens with 19 bytes that parse to the header it was built from. */
  lemma FrameParts(command: nat, body: Bytes) returns (slot: Bytes, h: Header)
    requires Frameable(command, body)
    ensures Frame(command, body) == slot + body && |slot| == SIZE_HEADER
    ensures h == Header(1, command, |body|) && DecodeHeader(slot) == Parse(h, true)
  {
    h := CreateHeader(command, |body|);
    slot := HeaderSlot(h);
    HeaderSlotParses(h);
  }

  /** Responses made of numbers only are always small enough to send. */
  lemma NumbersFit(a: Id, b: Id, c: Id, d: Id)
    ensures FieldsSize(Int(1, a) + Int(2, b) + Int(3, c) + Int(4, d)) <= 44
  {
    FourSizes(Int(1, a), Int(2, b), Int(3, c), Int(4, d));
    forall n, i: Id | 1 <= n <= 4 ensures FieldsSize(Int(n, i)) <= 11 {
      if i != 0 {
        OneSize(Field(n, Varint(SignExtend(i))));
      }
    }
  }

  lemma LoginResponsesFit(id: Id)
    ensures Sendable(CreateInputResponse(id)) && Sendable(CreateRegResponse(id))
  {
    NumbersFit(LoginStatus(id), 0, id, 0);
  }

  lemma JoinResponseFits(room: Id, flag: bool)
    ensures Sendable(CreateJoinRoomResponse(room, flag))
  {
    NumbersFit(if flag then STATUS_OK else STATUS_FAIL, room, 0, 0);
    assert Int(3, 0) == Int(4, 0) == [];
  }

  lemma JoinRequestFits(room: Id)
    ensures Requestable(JoinRoomRequest(room))
  {
    NumbersFit(room, 0, 0, 0);
    assert Int(2, 0) == Int(3, 0) == Int(4, 0) == [];
  }
}
