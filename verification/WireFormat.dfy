/** The bytes on the wire, stated with the numbers of the schema and of the command table, without
    reference to any decoder. */
module WireFormat {
  import opened Basics
  import opened Wire
  import opened Messages
  import opened MsgFactory

  // ---------------------------------------------------------------- numbers

  /** The number that groups of seven bits stand for, the first group the lowest. */
  function Groups(bs: Bytes): nat {
    if bs == [] then 0 else bs[0] % 128 + 128 * Groups(bs[1..])
  }

  /** The one encoding of a number as a varint: every byte but the last has its top bit set, and the
      last group is not an empty one that could be left out. */
  predicate IsVarint(bs: Bytes, n: nat) {
    && bs != [] && Groups(bs) == n
    && (forall i :: 0 <= i < |bs| - 1 ==> bs[i] >= 128)
    && bs[|bs| - 1] < 128
    && (|bs| > 1 ==> bs[|bs| - 1] != 0)
  }

  lemma {:induction false} VarintBytes(n: nat)
    ensures IsVarint(EncodeVarint(n), n)
    decreases n
  {
    if n >= 128 {
      VarintBytes(n / 128);
      var tail := EncodeVarint(n / 128);
      assert EncodeVarint(n)[1..] == tail;
      assert forall i :: 0 < i < |EncodeVarint(n)| ==> EncodeVarint(n)[i] == tail[i - 1];
    } else {
      assert [n][1..] == [];
    }
  }

  /** Two such encodings of one number are equal, so the bytes are determined. */
  lemma {:induction false} VarintIsUnique(a: Bytes, b: Bytes, n: nat)
    requires IsVarint(a, n) && IsVarint(b, n)
    ensures a == b
    decreases |a|
  {
    hide IsVarint, Groups;
    VarintShape(a, n);
    VarintShape(b, n);
    if n >= 128 {
      VarintIsUnique(a[1..], b[1..], n / 128);
      assert a == [a[0]] + a[1..] && b == [b[0]] + b[1..];
    }
  }

  /** The number decides the first byte and what the rest encodes. */
  lemma VarintShape(bs: Bytes, n: nat)
    requires IsVarint(bs, n)
    ensures n < 128 ==> bs == [n]
    ensures n >= 128 ==> |bs| > 1 && bs[0] == 128 + n % 128 && IsVarint(bs[1..], n / 128)
  {
    if |bs| == 1 {
      assert bs[1..] == [];
    } else {
      LongIsLarge(bs);
      assert forall i :: 0 <= i < |bs| - 1 ==> bs[1..][i] == bs[i + 1];
    }
  }

  lemma {:induction false} LongIsLarge(bs: Bytes)
    requires |bs| > 1 && bs[|bs| - 1] % 128 != 0
    ensures Groups(bs) >= 128
    decreases |bs|
  {
    if |bs| == 2 {
      assert bs[1..][1..] == [];
    } else {
      LongIsLarge(bs[1..]);
    }
  }

  /** Fixed numbers are written low byte first. */
  lemma FixedBytes(n: nat)
    ensures EncodeFixed(n, 4) == [n % 256, n / 256 % 256, n / 0x1_0000 % 256, n / 0x100_0000 % 256]
    ensures EncodeFixed(n, 8) == EncodeFixed(n, 4) + EncodeFixed(n / 0x1_0000_0000, 4)
  {
    FixedSplit(n, 4);
    assert n / 256 / 256 == n / 0x1_0000 && n / 0x1_0000 / 256 == n / 0x100_0000;
    assert EncodeFixed(n / 0x100_0000, 1) == [n / 0x100_0000 % 256] + EncodeFixed(n / 0x100_0000 / 256, 0);
    assert EncodeFixed(n / 0x1_0000, 2) == [n / 0x1_0000 % 256] + EncodeFixed(n / 0x100_0000, 1);
    assert EncodeFixed(n / 256, 3) == [n / 256 % 256] + EncodeFixed(n / 0x1_0000, 2);
  }

  lemma FixedSplit(n: nat, k: nat)
    ensures EncodeFixed(n, 4 + k) == EncodeFixed(n, 4) + EncodeFixed(n / 0x1_0000_0000, k)
  {
    var a, b, c, d := n / 256, n / 0x1_0000, n / 0x100_0000, n / 0x1_0000_0000;
    assert a / 256 == b && b / 256 == c && c / 256 == d;
    assert EncodeFixed(n, 4 + k) == [n % 256] + EncodeFixed(a, 3 + k);
    assert EncodeFixed(a, 3 + k) == [a % 256] + EncodeFixed(b, 2 + k);
    assert EncodeFixed(b, 2 + k) == [b % 256] + EncodeFixed(c, 1 + k);
    assert EncodeFixed(c, 1 + k) == [c % 256] + EncodeFixed(d, k);
    assert EncodeFixed(n, 4) == [n % 256] + EncodeFixed(a, 3);
    assert EncodeFixed(a, 3) == [a % 256] + EncodeFixed(b, 2);
    assert EncodeFixed(b, 2) == [b % 256] + EncodeFixed(c, 1);
    assert EncodeFixed(c, 1) == [c % 256] + EncodeFixed(d, 0);
  }

  // ----------------------------------------------------------------- fields

  /** A string under a tag byte, left out when empty. */
  function StrBytes(tag: Byte, b: Bytes): Bytes {
    if b == [] then [] else [tag] + EncodeVarint(|b|) + b
  }

  /** A number under a tag byte, left out when 0; a negative one as its 64-bit two's complement. */
  function IntBytes(tag: Byte, i: Id): Bytes {
    if i == 0 then []
    else [tag] + EncodeVarint(if i < 0 then 0x1_0000_0000_0000_0000 + i else i)
  }

  /** A nested message under a tag byte, present even when empty. */
  function MemberBytes(tag: Byte, inner: Bytes): Bytes {
    [tag] + EncodeVarint(|inner|) + inner
  }

  lemma {:induction false} EncodeConcat(a: seq<Field>, b: seq<Field>)
    ensures EncodeFields(a + b) == EncodeFields(a) + EncodeFields(b)
  {
    if a == [] {
      assert a + b == b;
    } else {
      assert (a + b)[1..] == a[1..] + b;
      EncodeConcat(a[1..], b);
    }
  }

  lemma EncodeFour(a: seq<Field>, b: seq<Field>, c: seq<Field>, d: seq<Field>)
    ensures EncodeFields(a + b + c + d) == EncodeFields(a) + EncodeFields(b) + EncodeFields(c) + EncodeFields(d)
  {
    EncodeConcat(a + b + c, d);
    EncodeConcat(a + b, c);
    EncodeConcat(a, b);
  }

  lemma OneField(f: Field)
    requires 1 <= f.num <= 4
    ensures EncodeFields([f]) == [8 * f.num + WireType(f.payload)] + EncodePayload(f.payload)
  {
    assert [f][1..] == [];
  }

  /** The tag byte of every kind of field with a number from 1 to 4. */
  lemma TagBytes(num: nat, b: Bytes, i: Id)
    requires 1 <= num <= 4
    ensures EncodeFields(Str(num, b)) == StrBytes(8 * num + 2, b)
    ensures EncodeFields(Int(num, i)) == IntBytes(8 * num, i)
  {
    if b != [] {
      OneField(Field(num, Len(b)));
    }
    if i != 0 {
      OneField(Field(num, Varint(SignExtend(i))));
    }
  }

  lemma MemberTag(which: nat, body: seq<Field>)
    requires 1 <= which <= 4
    ensures EncodeOneOf(OneOf(which, body)) == MemberBytes(8 * which + 2, EncodeFields(body))
  {
  }

  lemma CredentialsBytes(l: Bytes, p: Bytes)
    ensures EncodeFields(Str(1, l) + Str(2, p) + [] + []) == StrBytes(10, l) + StrBytes(18, p)
  {
    EncodeFour(Str(1, l), Str(2, p), [], []);
    TagBytes(1, l, 0);
    TagBytes(2, p, 0);
  }

  lemma TextBytes(l: Bytes, i: Id, t: Bytes)
    ensures EncodeFields(Str(1, l) + Int(2, i) + Str(3, t) + []) == StrBytes(10, l) + IntBytes(16, i) + StrBytes(26, t)
  {
    EncodeFour(Str(1, l), Int(2, i), Str(3, t), []);
    TagBytes(1, l, 0);
    TagBytes(2, [], i);
    TagBytes(3, t, 0);
  }

  lemma NumberBytes(a: Id, b: Id, c: Id, d: Id)
    ensures EncodeFields(Int(1, a) + Int(2, b) + Int(3, c) + Int(4, d))
         == IntBytes(8, a) + IntBytes(16, b) + IntBytes(24, c) + IntBytes(32, d)
  {
    EncodeFour(Int(1, a), Int(2, b), Int(3, c), Int(4, d));
    TagBytes(1, [], a);
    TagBytes(2, [], b);
    TagBytes(3, [], c);
    TagBytes(4, [], d);
  }

  // --------------------------------------------------------------- messages

  /** Every request byte by byte, by the field numbers of request.proto. */
  lemma RequestBytes(r: Request)
    ensures EncodeRequest(r) ==
            match r
            case NoRequest => []
            case RegRequest(l, p) => MemberBytes(10, StrBytes(10, l) + StrBytes(18, p))
            case InRequest(l, p) => MemberBytes(18, StrBytes(10, l) + StrBytes(18, p))
            case JoinRoomRequest(i) => MemberBytes(26, IntBytes(8, i))
            case TextRequest(l, i, t) => MemberBytes(34, StrBytes(10, l) + IntBytes(16, i) + StrBytes(26, t))
  {
    hide EncodeFields, EncodeOneOf, MemberBytes, StrBytes, IntBytes, Str, Int;
    match r
    case NoRequest => NothingEncodes();
    case RegRequest(l, p) =>
      CredentialsBytes(l, p);
      MemberTag(1, Str(1, l) + Str(2, p) + [] + []);
    case InRequest(l, p) =>
      CredentialsBytes(l, p);
      MemberTag(2, Str(1, l) + Str(2, p) + [] + []);
    case JoinRoomRequest(i) =>
      TagBytes(1, [], i);
      assert Int(1, i) + [] + [] + [] == Int(1, i);
      MemberTag(3, Int(1, i) + [] + [] + []);
    case TextRequest(l, i, t) =>
      TextBytes(l, i, t);
      MemberTag(4, Str(1, l) + Int(2, i) + Str(3, t) + []);
  }

  lemma NothingEncodes()
    ensures EncodeOneOf(OneOf(0, [])) == []
  {
  }

  /** Every response byte by byte, by the field numbers of response.proto. */
  lemma ResponseBytes(r: Response)
    ensures EncodeResponse(r) ==
            match r
            case NoResponse => []
            case InputResponse(s, m, c, h) =>
              MemberBytes(10, IntBytes(8, s) + IntBytes(16, m) + IntBytes(24, c) + IntBytes(32, h))
            case RegResponse(s, m, c, h) =>
              MemberBytes(18, IntBytes(8, s) + IntBytes(16, m) + IntBytes(24, c) + IntBytes(32, h))
            case JoinRoomResponse(s, i) => MemberBytes(26, IntBytes(8, s) + IntBytes(16, i))
            case TextResponse(l, i, t) => MemberBytes(34, StrBytes(10, l) + IntBytes(16, i) + StrBytes(26, t))
  {
    hide EncodeFields, EncodeOneOf, MemberBytes, StrBytes, IntBytes, Str, Int;
    match r
    case NoResponse => NothingEncodes();
    case InputResponse(s, m, c, h) =>
      NumberBytes(s, m, c, h);
      MemberTag(1, Int(1, s) + Int(2, m) + Int(3, c) + Int(4, h));
    case RegResponse(s, m, c, h) =>
      NumberBytes(s, m, c, h);
      MemberTag(2, Int(1, s) + Int(2, m) + Int(3, c) + Int(4, h));
    case JoinRoomResponse(s, i) =>
      TwoNumbers(s, i);
      MemberTag(3, Int(1, s) + Int(2, i) + [] + []);
    case TextResponse(l, i, t) =>
      TextBytes(l, i, t);
      MemberTag(4, Str(1, l) + Int(2, i) + Str(3, t) + []);
  }

  lemma TwoNumbers(a: Id, b: Id)
    ensures EncodeFields(Int(1, a) + Int(2, b) + [] + []) == IntBytes(8, a) + IntBytes(16, b)
  {
    EncodeFour(Int(1, a), Int(2, b), [], []);
    TagBytes(1, [], a);
    TagBytes(2, [], b);
  }

  /** What the factory's responses look like on the wire: OK is 1, and FAIL is 0 and so left out. */
  lemma BuiltResponses(id: Id, room: Id, m: Text)
    ensures EncodeResponse(CreateInputResponse(id))
         == MemberBytes(10, (if id == -1 then [] else [8, 1]) + IntBytes(24, id))
    ensures EncodeResponse(CreateRegResponse(id))
         == MemberBytes(18, (if id == -1 then [] else [8, 1]) + IntBytes(24, id))
    ensures EncodeResponse(CreateJoinRoomResponse(room, true)) == MemberBytes(26, [8, 1] + IntBytes(16, room))
    ensures EncodeResponse(CreateJoinRoomResponse(room, false)) == MemberBytes(26, IntBytes(16, room))
    ensures EncodeResponse(CreateTextResponse(m))
         == MemberBytes(34, StrBytes(10, m.login) + IntBytes(16, m.room) + StrBytes(26, m.text))
  {
    hide EncodeResponse, MemberBytes, StrBytes;
    ResponseBytes(CreateInputResponse(id));
    ResponseBytes(CreateRegResponse(id));
    ResponseBytes(CreateJoinRoomResponse(room, true));
    ResponseBytes(CreateJoinRoomResponse(room, false));
    ResponseBytes(CreateTextResponse(m));
    assert IntBytes(8, 1) == [8, 1];
    var ok := if id == -1 then [] else [8, 1];
    assert IntBytes(8, LoginStatus(id)) + IntBytes(16, 0) + IntBytes(24, id) + IntBytes(32, 0) == ok + IntBytes(24, id);
    assert [] + IntBytes(16, room) == IntBytes(16, room);
  }

  // ---------------------------------------------------------------- samples

  lemma SampleNumbers()
    ensures EncodeVarint(0) == [0] && EncodeVarint(127) == [127] && EncodeVarint(128) == [128, 1]
    ensures EncodeVarint(300) == [172, 2]
  {
  }

  /** The id of a refusal, sign-extended to ten bytes. */
  lemma RefusedBytes()
    ensures IntBytes(24, -1) == [24, 255, 255, 255, 255, 255, 255, 255, 255, 255, 1]
  {
    hide EncodeVarint;
    MinusOne();
  }

  lemma SmallVarint(n: nat)
    requires n < 128
    ensures EncodeVarint(n) == [n]
  {
  }

  lemma MinusOne()
    ensures EncodeVarint(0xFFFF_FFFF_FFFF_FFFF) == [255, 255, 255, 255, 255, 255, 255, 255, 255, 1]
  {
    assert EncodeVarint(0xFF) == [255] + EncodeVarint(1);
    assert EncodeVarint(0x7FFF) == [255] + EncodeVarint(0xFF);
    assert EncodeVarint(0x3F_FFFF) == [255] + EncodeVarint(0x7FFF);
    assert EncodeVarint(0x1FFF_FFFF) == [255] + EncodeVarint(0x3F_FFFF);
    assert EncodeVarint(0xF_FFFF_FFFF) == [255] + EncodeVarint(0x1FFF_FFFF);
    assert EncodeVarint(0x7FF_FFFF_FFFF) == [255] + EncodeVarint(0xF_FFFF_FFFF);
    assert EncodeVarint(0x3_FFFF_FFFF_FFFF) == [255] + EncodeVarint(0x7FF_FFFF_FFFF);
    assert EncodeVarint(0x1FF_FFFF_FFFF_FFFF) == [255] + EncodeVarint(0x3_FFFF_FFFF_FFFF);
  }

  lemma SmallFields(tag: Byte, x: Byte, i: Id)
    requires 0 < i < 128
    ensures StrBytes(tag, [x]) == [tag, 1, x] && IntBytes(tag, i) == [tag, i]
  {
    SmallVarint(1);
    SmallVarint(i);
  }

  lemma SmallMember(tag: Byte, inner: Bytes)
    requires |inner| < 128
    ensures MemberBytes(tag, inner) == [tag, |inner|] + inner
  {
    SmallVarint(|inner|);
  }

  /** One request of each kind in literal bytes. */
  lemma SampleRequests()
    ensures EncodeRequest(RegRequest([97], [98])) == [10, 6, 10, 1, 97, 18, 1, 98]
    ensures EncodeRequest(InRequest([97], [98])) == [18, 6, 10, 1, 97, 18, 1, 98]
    ensures EncodeRequest(JoinRoomRequest(5)) == [26, 2, 8, 5]
    ensures EncodeRequest(TextRequest([97], 5, [98])) == [34, 8, 10, 1, 97, 16, 5, 26, 1, 98]
  {
    hide EncodeRequest, StrBytes, IntBytes, MemberBytes;
    RequestBytes(RegRequest([97], [98]));
    RequestBytes(InRequest([97], [98]));
    RequestBytes(JoinRoomRequest(5));
    RequestBytes(TextRequest([97], 5, [98]));
    SmallFields(10, 97, 5);
    SmallFields(18, 98, 5);
    SmallFields(8, 98, 5);
    SmallFields(16, 98, 5);
    SmallFields(26, 98, 5);
    var credentials := [10, 1, 97, 18, 1, 98];
    SmallMember(10, credentials);
    SmallMember(18, credentials);
    SmallMember(26, [8, 5]);
    SmallMember(34, [10, 1, 97, 16, 5, 26, 1, 98]);
    assert [10, 1, 97] + [18, 1, 98] == credentials;
    assert [10, 1, 97] + [16, 5] + [26, 1, 98] == [10, 1, 97, 16, 5, 26, 1, 98];
  }

  /** One response of each kind and each status in literal bytes. */
  lemma SampleAccepted()
    ensures EncodeResponse(CreateInputResponse(3)) == [10, 4, 8, 1, 24, 3]
    ensures EncodeResponse(CreateRegResponse(3)) == [18, 4, 8, 1, 24, 3]
    ensures EncodeResponse(CreateJoinRoomResponse(5, true)) == [26, 4, 8, 1, 16, 5]
    ensures EncodeResponse(CreateTextResponse(Text(5, [97], [98]))) == [34, 8, 10, 1, 97, 16, 5, 26, 1, 98]
  {
    hide EncodeResponse, StrBytes, IntBytes, MemberBytes, CreateInputResponse, CreateRegResponse,
      CreateJoinRoomResponse, CreateTextResponse;
    BuiltResponses(3, 5, Text(5, [97], [98]));
    SmallFields(10, 97, 5);
    SmallFields(16, 98, 5);
    SmallFields(24, 98, 3);
    SmallFields(26, 98, 5);
    var accepted := [8, 1, 24, 3];
    assert [8, 1] + [24, 3] == accepted && [8, 1] + [16, 5] == [8, 1, 16, 5];
    assert [10, 1, 97] + [16, 5] + [26, 1, 98] == [10, 1, 97, 16, 5, 26, 1, 98];
    SmallMember(10, accepted);
    SmallMember(18, accepted);
    SmallMember(26, [8, 1, 16, 5]);
    SmallMember(34, [10, 1, 97, 16, 5, 26, 1, 98]);
  }

  lemma SampleRefused()
    ensures EncodeResponse(CreateInputResponse(-1)) == [10, 11, 24, 255, 255, 255, 255, 255, 255, 255, 255, 255, 1]
    ensures EncodeResponse(CreateRegResponse(-1)) == [18, 11, 24, 255, 255, 255, 255, 255, 255, 255, 255, 255, 1]
    ensures EncodeResponse(CreateJoinRoomResponse(5, false)) == [26, 2, 16, 5]
  {
    hide EncodeResponse, StrBytes, IntBytes, MemberBytes, CreateInputResponse, CreateRegResponse,
      CreateJoinRoomResponse, CreateTextResponse;
    BuiltResponses(-1, 5, Text(5, [97], [98]));
    RefusedBytes();
    SmallFields(16, 98, 5);
    var refused := IntBytes(24, -1);
    assert [] + refused == refused;
    SmallMember(10, refused);
    SmallMember(18, refused);
    SmallMember(26, [16, 5]);
  }

  // ----------------------------------------------------------------- frames

  /** The 19 bytes in front of a body: version 1, the command and the length of the body. */
  function HeadBytes(command: Byte, n: nat): Bytes {
    [13, 1, 0, 0, 0, 21, command, 0, 0, 0,
     25, n % 256, n / 256 % 256, n / 0x1_0000 % 256, n / 0x100_0000 % 256, 0, 0, 0, 0]
  }

  lemma HeaderBytes(command: Byte, n: nat)
    requires command > 0 && 0 < n < 0x8000_0000
    ensures HeaderSlot(CreateHeader(command, n)) == HeadBytes(command, n)
  {
    hide EncodeFixed, EncodeFields, HeaderFields, EncodePayload;
    var h := CreateHeader(command, n);
    HeaderSize(h);
    HeaderParts(command, n);
    assert HeaderSlot(h) == EncodeHeader(h) + Zeros(0);
  }

  lemma HeaderParts(command: Byte, n: nat)
    requires command > 0 && 0 < n < 0x8000_0000
    ensures EncodeHeader(CreateHeader(command, n)) == HeadBytes(command, n)
  {
    hide EncodeFixed, EncodeFields;
    EncodeFour(U32(1, 1), U32(2, command), U64(3, n), []);
    OneField(Field(1, Fixed32(1)));
    OneField(Field(2, Fixed32(command)));
    OneField(Field(3, Fixed64(n)));
    NoFields();
    FixedBytes(1);
    FixedBytes(command);
    FixedBytes(n);
    FixedBytes(0);
    var first, second, third := [13, 1, 0, 0, 0], [21, command, 0, 0, 0],
      [25, n % 256, n / 256 % 256, n / 0x1_0000 % 256, n / 0x100_0000 % 256, 0, 0, 0, 0];
    assert EncodeFields([Field(1, Fixed32(1))]) == first;
    assert EncodeFields([Field(2, Fixed32(command))]) == second;
    assert EncodeFields([Field(3, Fixed64(n))]) == third;
    assert first + second + third + [] == HeadBytes(command, n);
  }

  lemma NoFields()
    ensures EncodeFields([]) == []
  {
  }

  /** Every request frame: its head with the command of the command table, then its body. */
  lemma RequestFrameBytes(r: ClientRequest)
    ensures var command := match r case RegRequest(_, _) => 1 case InRequest(_, _) => 3
                                   case JoinRoomRequest(_) => 7 case TextRequest(_, _, _) => 5;
            RequestFrame(r) == HeadBytes(command, |EncodeRequest(r)|) + EncodeRequest(r)
  {
    hide EncodeRequest, DecodeRequest, RequestSize, HeaderSlot, HeadBytes;
    RequestRoundTrip(r);
    HeaderBytes(RequestCommand(r), |EncodeRequest(r)|);
  }

  lemma ResponseFrameBytes(r: ServerResponse)
    ensures var command := match r case RegResponse(_, _, _, _) => 2 case InputResponse(_, _, _, _) => 4
                                   case TextResponse(_, _, _) => 6 case JoinRoomResponse(_, _) => 8;
            ResponseFrame(r) == HeadBytes(command, |EncodeResponse(r)|) + EncodeResponse(r)
  {
    hide EncodeResponse, DecodeResponse, ResponseSize, HeaderSlot, HeadBytes;
    ResponseRoundTrip(r);
    HeaderBytes(ResponseCommand(r), |EncodeResponse(r)|);
  }

  /** A whole frame in literal bytes: "a" says "b" in room 5. */
  lemma SampleFrame()
    ensures Requestable(TextRequest([97], 5, [98]))
    ensures RequestFrame(TextRequest([97], 5, [98]))
         == [13, 1, 0, 0, 0, 21, 5, 0, 0, 0, 25, 10, 0, 0, 0, 0, 0, 0, 0, 34, 8, 10, 1, 97, 16, 5, 26, 1, 98]
  {
    hide RequestFrame, EncodeRequest, Requestable;
    SampleRequests();
    SampleFits();
    RequestFrameBytes(TextRequest([97], 5, [98]));
  }

  lemma SampleFits()
    ensures Requestable(TextRequest([97], 5, [98]))
  {
    hide FieldsSize;
    FourSizes(Str(1, [97]), Int(2, 5), Str(3, [98]), []);
    OneSize(Field(1, Len([97])));
    OneSize(Field(2, Varint(5)));
    OneSize(Field(3, Len([98])));
    NoSize();
  }

  lemma NoSize()
    ensures FieldsSize([]) == 0
  {
  }
}
