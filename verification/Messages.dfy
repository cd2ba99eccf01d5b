/** The messages of request.proto, response.proto and messages.proto: their field lists,
    their bytes and what a parser makes of any bytes. */
module Messages {
  import opened Basics
  import opened Wire

  const STATUS_FAIL: Id := 0
  const STATUS_OK: Id := 1

  datatype Request =
    | NoRequest
    | RegRequest(login: Bytes, password: Bytes)
    | InRequest(login: Bytes, password: Bytes)
    | JoinRoomRequest(roomId: Id)
    | TextRequest(login: Bytes, roomId: Id, text: Bytes)

  datatype Response =
    | NoResponse
    | InputResponse(status: Id, msgId: Id, clientId: Id, chatId: Id)
    | RegResponse(status: Id, msgId: Id, clientId: Id, chatId: Id)
    | JoinRoomResponse(status: Id, roomId: Id)
    | TextResponse(login: Bytes, roomId: Id, text: Bytes)

  datatype Header = Header(version: nat, command: nat, length: nat)

  predicate ValidHeader(h: Header) {
    h.version < TWO32 && h.command < TWO32 && h.length < TWO64
  }

  /** A message with one `oneof`: the member that is set (0 for none) and its records. */
  datatype OneOf = OneOf(which: nat, body: seq<Field>)

  /** A message and whether the parser accepted the whole buffer; on failure the message
      holds what was read before the fault. */
  datatype Parse<+T> = Parse(value: T, ok: bool)

  // --------------------------------------------------------- scalar fields

  /** A string field; proto3 omits the empty string. */
  function Str(num: nat, b: Bytes): seq<Field> {
    if b == [] then [] else [Field(num, Len(b))]
  }

  function Int(num: nat, i: Id): seq<Field> {
    if i == 0 then [] else [Field(num, Varint(SignExtend(i)))]
  }

  function U32(num: nat, n: nat): seq<Field> {
    if n == 0 then [] else [Field(num, Fixed32(n))]
  }

  function U64(num: nat, n: nat): seq<Field> {
    if n == 0 then [] else [Field(num, Fixed64(n))]
  }

  function GetStr(fs: seq<Field>, num: nat): Bytes {
    match Last(fs, num, 2) case Some(Len(b)) => b case _ => []
  }

  function GetInt(fs: seq<Field>, num: nat): Id {
    match Last(fs, num, 0) case Some(Varint(v)) => Truncate(v) case _ => 0
  }

  function GetU32(fs: seq<Field>, num: nat): nat {
    match Last(fs, num, 5) case Some(Fixed32(n)) => n case _ => 0
  }

  function GetU64(fs: seq<Field>, num: nat): nat {
    match Last(fs, num, 1) case Some(Fixed64(n)) => n case _ => 0
  }

  // ----------------------------------------------- messages and field lists

  function RequestFields(r: Request): OneOf {
    match r
    case NoRequest => OneOf(0, [])
    case RegRequest(l, p) => OneOf(1, Str(1, l) + Str(2, p) + [] + [])
    case InRequest(l, p) => OneOf(2, Str(1, l) + Str(2, p) + [] + [])
    case JoinRoomRequest(i) => OneOf(3, Int(1, i) + [] + [] + [])
    case TextRequest(l, i, t) => OneOf(4, Str(1, l) + Int(2, i) + Str(3, t) + [])
  }

  function RequestOf(o: OneOf): Request {
    match o.which
    case 1 => RegRequest(GetStr(o.body, 1), GetStr(o.body, 2))
    case 2 => InRequest(GetStr(o.body, 1), GetStr(o.body, 2))
    case 3 => JoinRoomRequest(GetInt(o.body, 1))
    case 4 => TextRequest(GetStr(o.body, 1), GetInt(o.body, 2), GetStr(o.body, 3))
    case _ => NoRequest
  }

  function ResponseFields(r: Response): OneOf {
    match r
    case NoResponse => OneOf(0, [])
    case InputResponse(s, m, c, h) => OneOf(1, Int(1, s) + Int(2, m) + Int(3, c) + Int(4, h))
    case RegResponse(s, m, c, h) => OneOf(2, Int(1, s) + Int(2, m) + Int(3, c) + Int(4, h))
    case JoinRoomResponse(s, i) => OneOf(3, Int(1, s) + Int(2, i) + [] + [])
    case TextResponse(l, i, t) => OneOf(4, Str(1, l) + Int(2, i) + Str(3, t) + [])
  }

  function ResponseOf(o: OneOf): Response {
    match o.which
    case 1 => InputResponse(GetInt(o.body, 1), GetInt(o.body, 2), GetInt(o.body, 3), GetInt(o.body, 4))
    case 2 => RegResponse(GetInt(o.body, 1), GetInt(o.body, 2), GetInt(o.body, 3), GetInt(o.body, 4))
    case 3 => JoinRoomResponse(GetInt(o.body, 1), GetInt(o.body, 2))
    case 4 => TextResponse(GetStr(o.body, 1), GetInt(o.body, 2), GetStr(o.body, 3))
    case _ => NoResponse
  }

  /** Looking a number up in four short lists joined together. */
  lemma LastOfFour(a: seq<Field>, b: seq<Field>, c: seq<Field>, d: seq<Field>, num: nat, wireType: nat)
    ensures Last(a + b + c + d, num, wireType)
         == if Last(d, num, wireType).Some? then Last(d, num, wireType)
            else if Last(c, num, wireType).Some? then Last(c, num, wireType)
            else if Last(b, num, wireType).Some? then Last(b, num, wireType)
            else Last(a, num, wireType)
  {
    LastConcat(a + b + c, d, num, wireType);
    LastConcat(a + b, c, num, wireType);
    LastConcat(a, b, num, wireType);
  }

  lemma LastOfOne(f: Field, num: nat, wireType: nat)
    ensures Last([f], num, wireType)
         == if f.num == num && WireType(f.payload) == wireType then Some(f.payload) else None
  {
    assert Last([f][..0], num, wireType) == None;
  }

  lemma ReadBack(num: nat, k: nat, b: Bytes, i: Id)
    ensures Last(Str(k, b), num, 2) == if k == num && b != [] then Some(Len(b)) else None
    ensures Last(Str(k, b), num, 0) == None
    ensures Last(Int(k, i), num, 0) == if k == num && i != 0 then Some(Varint(SignExtend(i))) else None
    ensures Last(Int(k, i), num, 2) == None
    ensures Truncate(SignExtend(i)) == i
  {
    Int32RoundTrip(i);
    if b != [] {
      LastOfOne(Field(k, Len(b)), num, 2);
      LastOfOne(Field(k, Len(b)), num, 0);
    }
    if i != 0 {
      LastOfOne(Field(k, Varint(SignExtend(i))), num, 0);
      LastOfOne(Field(k, Varint(SignExtend(i))), num, 2);
    }
  }

  lemma CredentialsReadBack(l: Bytes, p: Bytes)
    ensures var fs := Str(1, l) + Str(2, p) + [] + []; GetStr(fs, 1) == l && GetStr(fs, 2) == p
  {
    forall n | n == 1 || n == 2
      ensures GetStr(Str(1, l) + Str(2, p) + [] + [], n) == if n == 1 then l else p
    {
      LastOfFour(Str(1, l), Str(2, p), [], [], n, 2);
      ReadBack(n, 1, l, 0);
      ReadBack(n, 2, p, 0);
    }
  }

  lemma TextReadBack(l: Bytes, i: Id, t: Bytes)
    ensures var fs := Str(1, l) + Int(2, i) + Str(3, t) + [];
            GetStr(fs, 1) == l && GetInt(fs, 2) == i && GetStr(fs, 3) == t
  {
    var fs := Str(1, l) + Int(2, i) + Str(3, t) + [];
    forall n, w | 1 <= n <= 3 && (w == 0 || w == 2)
      ensures Last(fs, n, w) == if n == 1 && w == 2 then Last(Str(1, l), 1, 2)
                                else if n == 2 && w == 0 then Last(Int(2, i), 2, 0)
                                else if n == 3 && w == 2 then Last(Str(3, t), 3, 2) else None
    {
      LastOfFour(Str(1, l), Int(2, i), Str(3, t), [], n, w);
      ReadBack(n, 1, l, i);
      ReadBack(n, 2, l, i);
      ReadBack(n, 3, t, i);
    }
    ReadBack(1, 1, l, i);
    ReadBack(2, 2, l, i);
    ReadBack(3, 3, t, i);
  }

  lemma NumbersReadBack(s: Id, m: Id, c: Id, h: Id)
    ensures var fs := Int(1, s) + Int(2, m) + Int(3, c) + Int(4, h);
            GetInt(fs, 1) == s && GetInt(fs, 2) == m && GetInt(fs, 3) == c && GetInt(fs, 4) == h
  {
    var fs := Int(1, s) + Int(2, m) + Int(3, c) + Int(4, h);
    forall n | 1 <= n <= 4
      ensures GetInt(fs, n) == [s, m, c, h][n - 1]
    {
      LastOfFour(Int(1, s), Int(2, m), Int(3, c), Int(4, h), n, 0);
      ReadBack(n, 1, [], s);
      ReadBack(n, 2, [], m);
      ReadBack(n, 3, [], c);
      ReadBack(n, 4, [], h);
    }
    assert GetInt(fs, 1) == [s, m, c, h][0];
    assert GetInt(fs, 2) == [s, m, c, h][1];
    assert GetInt(fs, 3) == [s, m, c, h][2];
    assert GetInt(fs, 4) == [s, m, c, h][3];
  }

  lemma RequestFromFields(r: Request)
    ensures RequestOf(RequestFields(r)) == r
  {
    match r
    case NoRequest =>
    case RegRequest(l, p) => CredentialsReadBack(l, p);
    case InRequest(l, p) => CredentialsReadBack(l, p);
    case JoinRoomRequest(i) =>
      NumbersReadBack(i, 0, 0, 0);
      assert Int(2, 0) == Int(3, 0) == Int(4, 0) == [];
    case TextRequest(l, i, t) => TextReadBack(l, i, t);
  }

  lemma ResponseFromFields(r: Response)
    ensures ResponseOf(ResponseFields(r)) == r
  {
    match r
    case NoResponse =>
    case InputResponse(s, m, c, h) => NumbersReadBack(s, m, c, h);
    case RegResponse(s, m, c, h) => NumbersReadBack(s, m, c, h);
    case JoinRoomResponse(s, i) =>
      NumbersReadBack(s, i, 0, 0);
      assert Int(3, 0) == Int(4, 0) == [];
    case TextResponse(l, i, t) => TextReadBack(l, i, t);
  }

  // ----------------------------------------------------------------- bytes

  function EncodeOneOf(o: OneOf): Bytes {
    if o.which == 0 then [] else EncodeField(Field(o.which, Len(EncodeFields(o.body))))
  }

  /** `ByteSizeLong`: the size computed from the fields alone. */
  function ByteSize(o: OneOf): nat {
    if o.which == 0 then 0
    else var n := FieldsSize(o.body); VarintSize(8 * o.which) + VarintSize(n) + n
  }

  /** Reads the records of a message whose members 1 to 4 form a `oneof` of messages. A member
      seen again is merged into what it held; another member replaces it; anything else is unknown. */
  function ParseMembers(fs: seq<Field>, acc: OneOf): Parse<OneOf> {
    if fs == [] then Parse(acc, true)
    else
      var f := fs[0];
      if 1 <= f.num <= 4 && f.payload.Len? then
        var sub := DecodeFields(f.payload.bytes);
        var next := OneOf(f.num, (if f.num == acc.which then acc.body else []) + sub.fields);
        if sub.ok then ParseMembers(fs[1..], next) else Parse(next, false)
      else ParseMembers(fs[1..], acc)
  }

  function DecodeOneOf(s: Bytes): Parse<OneOf> {
    var scan := DecodeFields(s);
    var p := ParseMembers(scan.fields, OneOf(0, []));
    Parse(p.value, p.ok && scan.ok)
  }

  predicate ProperOneOf(o: OneOf) {
    o.which <= 4 && (o.which == 0 ==> o.body == []) && AllInRange(o.body)
  }

  lemma OneRecord(f: Field)
    requires WellFormed(f)
    ensures DecodeFields(EncodeField(f)) == Scan([f], true)
  {
    FieldsRoundTrip([f]);
    assert EncodeFields([f]) == EncodeField(f) + EncodeFields([f][1..]);
    assert EncodeFields([f]) == EncodeField(f);
  }

  lemma OneMember(f: Field, body: seq<Field>)
    requires 1 <= f.num <= 4 && f.payload.Len? && DecodeFields(f.payload.bytes) == Scan(body, true)
    ensures ParseMembers([f], OneOf(0, [])) == Parse(OneOf(f.num, body), true)
  {
    assert [] + body == body;
    assert ParseMembers([f], OneOf(0, [])) == ParseMembers([f][1..], OneOf(f.num, body));
  }

  lemma OneOfSize(o: OneOf)
    requires ProperOneOf(o) && ByteSize(o) <= MAX_LENGTH
    ensures AllWellFormed(o.body)
    ensures |EncodeFields(o.body)| == FieldsSize(o.body) <= MAX_LENGTH
    ensures |EncodeOneOf(o)| == ByteSize(o)
    ensures o.which != 0 ==> |EncodeOneOf(o)| >= 2
  {
    SmallIsWellFormed(o.body);
    FieldsSizeCorrect(o.body);
    if o.which != 0 {
      VarintSizeCorrect(8 * o.which + 2);
      VarintSizeCorrect(FieldsSize(o.body));
    }
  }

  lemma OneOfRoundTrip(o: OneOf)
    requires ProperOneOf(o) && ByteSize(o) <= MAX_LENGTH
    ensures DecodeOneOf(EncodeOneOf(o)) == Parse(o, true)
  {
    if o.which != 0 {
      OneOfSize(o);
      FieldsRoundTrip(o.body);
      var f := Field(o.which, Len(EncodeFields(o.body)));
      OneRecord(f);
      OneMember(f, o.body);
    }
  }

  // ------------------------------------------------- bytes no builder makes

  /** What a message that already holds `held` becomes when another message is parsed into it. */
  function Merged(held: OneOf, o: OneOf): OneOf {
    if o.which == 0 then held
    else if o.which == held.which then OneOf(o.which, held.body + o.body)
    else o
  }

  lemma MemberMerges(o: OneOf, held: OneOf, rest: seq<Field>)
    requires o.which != 0 && ProperOneOf(o) && ByteSize(o) <= MAX_LENGTH
    ensures ParseMembers([Field(o.which, Len(EncodeFields(o.body)))] + rest, held) == ParseMembers(rest, Merged(held, o))
  {
    hide EncodeFields;
    OneOfSize(o);
    FieldsRoundTrip(o.body);
    var f := Field(o.which, Len(EncodeFields(o.body)));
    assert ([f] + rest)[0] == f && ([f] + rest)[1..] == rest;
    assert [] + o.body == o.body;
  }

  /** Whatever bytes follow a message: the parser continues with what it holds after the message. */
  lemma MessageThenTail(o: OneOf, tail: Bytes)
    requires ProperOneOf(o) && ByteSize(o) <= MAX_LENGTH
    ensures var scan := DecodeFields(tail);
            var p := ParseMembers(scan.fields, o);
            DecodeOneOf(EncodeOneOf(o) + tail) == Parse(p.value, p.ok && scan.ok)
  {
    hide EncodeFields, EncodeField, DecodeFields, ParseMembers;
    if o.which == 0 {
      assert EncodeOneOf(o) + tail == tail && o == OneOf(0, []);
    } else {
      OneOfSize(o);
      var f := Field(o.which, Len(EncodeFields(o.body)));
      DecodeFieldsCons(f, tail);
      MemberMerges(o, OneOf(0, []), DecodeFields(tail).fields);
    }
  }

  lemma ParseNothing(held: OneOf)
    ensures ParseMembers([], held) == Parse(held, true)
    ensures DecodeFields([]) == Scan([], true)
  {
  }

  /** Two messages one after the other parse as one: the same member is merged, its later fields
      winning, and another member replaces the first. */
  lemma ConcatenationMerges(first: OneOf, second: OneOf)
    requires ProperOneOf(first) && ByteSize(first) <= MAX_LENGTH && ProperOneOf(second) && ByteSize(second) <= MAX_LENGTH
    ensures DecodeOneOf(EncodeOneOf(first) + EncodeOneOf(second)) == Parse(Merged(first, second), true)
  {
    hide EncodeFields, EncodeField, DecodeFields, ParseMembers, DecodeOneOf, ByteSize, ProperOneOf;
    MessageThenTail(first, EncodeOneOf(second));
    ParseNothing(first);
    if second.which != 0 {
      SecondMember(first, second);
    }
  }

  lemma SecondMember(first: OneOf, second: OneOf)
    requires second.which != 0 && ProperOneOf(second) && ByteSize(second) <= MAX_LENGTH
    ensures var scan := DecodeFields(EncodeOneOf(second));
            scan.ok && ParseMembers(scan.fields, first) == Parse(Merged(first, second), true)
  {
    hide EncodeFields, EncodeField, DecodeFields, ParseMembers;
    OneOfSize(second);
    var f := Field(second.which, Len(EncodeFields(second.body)));
    OneRecord(f);
    MemberMerges(second, first, []);
    assert [f] + [] == [f];
    ParseNothing(Merged(first, second));
  }

  /** A record that is none of the four members is skipped. */
  lemma UnknownIsSkipped(f: Field, o: OneOf)
    requires WellFormed(f) && (f.num > 4 || !f.payload.Len?)
    requires ProperOneOf(o) && ByteSize(o) <= MAX_LENGTH
    ensures DecodeOneOf(EncodeField(f) + EncodeOneOf(o)) == Parse(o, true)
  {
    hide EncodeFields, EncodeField, DecodeFields, EncodeOneOf;
    DecodeFieldsCons(f, EncodeOneOf(o));
    var fs := DecodeFields(EncodeOneOf(o)).fields;
    assert ([f] + fs)[0] == f && ([f] + fs)[1..] == fs;
    OneOfRoundTrip(o);
  }

  /** A fault after a message makes the parse fail, but the message stays read. */
  lemma FaultAfterMessage(o: OneOf)
    requires ProperOneOf(o) && ByteSize(o) <= MAX_LENGTH
    ensures DecodeOneOf(EncodeOneOf(o) + [0]) == Parse(o, false)
  {
    hide DecodeOneOf, EncodeOneOf, ParseMembers;
    MessageThenTail(o, [0]);
    ParseNothing(o);
    assert DecodeVarint([0], 5) == Some(Item(0, 1));
  }

  function EncodeRequest(r: Request): Bytes { EncodeOneOf(RequestFields(r)) }

  function EncodeResponse(r: Response): Bytes { EncodeOneOf(ResponseFields(r)) }

  function RequestSize(r: Request): nat { ByteSize(RequestFields(r)) }

  function ResponseSize(r: Response): nat { ByteSize(ResponseFields(r)) }

  function DecodeRequest(s: Bytes): Parse<Request> {
    var p := DecodeOneOf(s);
    Parse(RequestOf(p.value), p.ok)
  }

  function DecodeResponse(s: Bytes): Parse<Response> {
    var p := DecodeOneOf(s);
    Parse(ResponseOf(p.value), p.ok)
  }

  lemma FourInRange(a: seq<Field>, b: seq<Field>, c: seq<Field>, d: seq<Field>)
    requires AllInRange(a) && AllInRange(b) && AllInRange(c) && AllInRange(d)
    ensures AllInRange(a + b + c + d)
  {
  }

  lemma RequestIsProper(r: Request)
    ensures ProperOneOf(RequestFields(r))
  {
    match r
    case NoRequest =>
    case RegRequest(l, p) => FourInRange(Str(1, l), Str(2, p), [], []);
    case InRequest(l, p) => FourInRange(Str(1, l), Str(2, p), [], []);
    case JoinRoomRequest(i) => FourInRange(Int(1, i), [], [], []);
    case TextRequest(l, i, t) => FourInRange(Str(1, l), Int(2, i), Str(3, t), []);
  }

  lemma ResponseIsProper(r: Response)
    ensures ProperOneOf(ResponseFields(r))
  {
    match r
    case NoResponse =>
    case InputResponse(s, m, c, h) => FourInRange(Int(1, s), Int(2, m), Int(3, c), Int(4, h));
    case RegResponse(s, m, c, h) => FourInRange(Int(1, s), Int(2, m), Int(3, c), Int(4, h));
    case JoinRoomResponse(s, i) => FourInRange(Int(1, s), Int(2, i), [], []);
    case TextResponse(l, i, t) => FourInRange(Str(1, l), Int(2, i), Str(3, t), []);
  }

  /** Every request that fits in a protobuf message survives encoding, in exactly the computed size. */
  lemma RequestRoundTrip(r: Request)
    requires RequestSize(r) <= MAX_LENGTH
    ensures DecodeRequest(EncodeRequest(r)) == Parse(r, true)
    ensures |EncodeRequest(r)| == RequestSize(r)
    ensures r.NoRequest? <==> EncodeRequest(r) == []
    ensures !r.NoRequest? ==> |EncodeRequest(r)| >= 2
  {
    RequestFromFields(r);
    RequestIsProper(r);
    OneOfSize(RequestFields(r));
    OneOfRoundTrip(RequestFields(r));
  }

  lemma ResponseRoundTrip(r: Response)
    requires ResponseSize(r) <= MAX_LENGTH
    ensures DecodeResponse(EncodeResponse(r)) == Parse(r, true)
    ensures |EncodeResponse(r)| == ResponseSize(r)
    ensures r.NoResponse? <==> EncodeResponse(r) == []
    ensures !r.NoResponse? ==> |EncodeResponse(r)| >= 2
  {
    ResponseFromFields(r);
    ResponseIsProper(r);
    OneOfSize(ResponseFields(r));
    OneOfRoundTrip(ResponseFields(r));
  }

  // ---------------------------------------------------------------- header

  function HeaderFields(h: Header): seq<Field> {
    U32(1, h.version) + U32(2, h.command) + U64(3, h.length) + []
  }

  function EncodeHeader(h: Header): Bytes { EncodeFields(HeaderFields(h)) }

  function DecodeHeader(s: Bytes): Parse<Header> {
    var scan := DecodeFields(s);
    Parse(Header(GetU32(scan.fields, 1), GetU32(scan.fields, 2), GetU64(scan.fields, 3)), scan.ok)
  }
}
