/** The Protocol Buffers byte format: Base 128 Varints, Length-Delimited Records and
    Non-varint Numbers, as a list of (field number, payload) records. */
module Wire {
  import opened Basics

  /** The largest message or length the protobuf library accepts (`INT_MAX`). */
  const MAX_LENGTH := TWO31 - 1

  /** A decoded item and the number of bytes it took. */
  datatype Item<+T> = Item(value: T, used: nat)

  // ---------------------------------------------------------------- varints

  function EncodeVarint(n: nat): (r: Bytes)
    ensures |r| >= 1
  {
    if n < 128 then [n] else [n % 128 + 128] + EncodeVarint(n / 128)
  }

  /** Reads a varint of at most `limit` bytes; a longer or truncated one is malformed. */
  function DecodeVarint(s: Bytes, limit: nat): (r: Option<Item<nat>>)
    ensures r.Some? ==> 1 <= r.value.used <= |s| && r.value.used <= limit
    decreases |s|
  {
    if limit == 0 || s == [] then None
    else if s[0] < 128 then Some(Item(s[0], 1))
    else
      match DecodeVarint(s[1..], limit - 1)
      case None => None
      case Some(tail) => Some(Item(s[0] - 128 + 128 * tail.value, tail.used + 1))
  }

  function Pow128(k: nat): nat {
    if k == 0 then 1 else 128 * Pow128(k - 1)
  }

  /** A number below 128^limit survives, whatever bytes follow it. */
  lemma {:induction false} VarintRoundTrip(n: nat, limit: nat, tail: Bytes)
    requires 1 <= limit && n < Pow128(limit)
    ensures DecodeVarint(EncodeVarint(n) + tail, limit) == Some(Item(n, |EncodeVarint(n)|))
    decreases n
  {
    var s := EncodeVarint(n) + tail;
    if n >= 128 {
      assert n / 128 < Pow128(limit - 1);
      VarintRoundTrip(n / 128, limit - 1, tail);
      assert s[1..] == EncodeVarint(n / 128) + tail;
    }
  }

  /** The size protobuf computes for a varint without producing its bytes. */
  function VarintSize(n: nat): nat {
    if n < 0x80 then 1
    else if n < 0x4000 then 2
    else if n < 0x20_0000 then 3
    else if n < 0x1000_0000 then 4
    else if n < 0x8_0000_0000 then 5
    else if n < 0x400_0000_0000 then 6
    else if n < 0x2_0000_0000_0000 then 7
    else if n < 0x100_0000_0000_0000 then 8
    else if n < 0x8000_0000_0000_0000 then 9
    else 10
  }

  lemma {:induction false} VarintSizeStep(n: nat)
    requires 128 <= n < TWO64
    ensures VarintSize(n) == 1 + VarintSize(n / 128)
  {
  }

  lemma {:induction false} VarintSizeCorrect(n: nat)
    requires n < TWO64
    ensures |EncodeVarint(n)| == VarintSize(n)
    decreases n
  {
    if n >= 128 {
      VarintSizeCorrect(n / 128);
      VarintSizeStep(n);
    }
  }

  /** An int32 is sign-extended to 64 bits before it is written. */
  function SignExtend(i: Id): (v: nat)
    ensures v < TWO64
  {
    if i < 0 then i + TWO64 else i
  }

  /** An int32 is read from the low 32 bits of the varint. */
  function Truncate(v: nat): (i: Id)
    ensures (i - v) % TWO32 == 0
  {
    var low := v % TWO32;
    assert (low - v) % TWO32 == 0;
    if low >= TWO31 then low - TWO32 else low
  }

  lemma Int32RoundTrip(i: Id)
    ensures Truncate(SignExtend(i)) == i
    ensures i < 0 ==> |EncodeVarint(SignExtend(i))| == 10
  {
    VarintSizeCorrect(SignExtend(i));
    if i < 0 {
      assert (i + TWO64) % TWO32 == (i + TWO32) % TWO32;
    }
  }

  // ---------------------------------------------------------- fixed numbers

  /** `k` bytes, least significant first. */
  function EncodeFixed(n: nat, k: nat): (r: Bytes)
    ensures |r| == k
  {
    if k == 0 then [] else [n % 256] + EncodeFixed(n / 256, k - 1)
  }

  function DecodeFixed(s: Bytes): nat {
    if s == [] then 0 else s[0] + 256 * DecodeFixed(s[1..])
  }

  function Pow256(k: nat): nat {
    if k == 0 then 1 else 256 * Pow256(k - 1)
  }

  lemma {:induction false} FixedRoundTrip(n: nat, k: nat)
    requires n < Pow256(k)
    ensures DecodeFixed(EncodeFixed(n, k)) == n
  {
    if k != 0 {
      FixedRoundTrip(n / 256, k - 1);
      assert EncodeFixed(n, k)[1..] == EncodeFixed(n / 256, k - 1);
    }
  }

  // ----------------------------------------------------------------- fields

  datatype Payload = Varint(number: nat) | Fixed64(number: nat) | Len(bytes: Bytes) | Fixed32(number: nat)

  datatype Field = Field(num: nat, payload: Payload)

  /** The field number and the number it carries are in range. */
  predicate InRange(f: Field) {
    && 1 <= f.num < 0x2000_0000
    && match f.payload
       case Varint(n) => n < TWO64
       case Fixed64(n) => n < TWO64
       case Len(_) => true
       case Fixed32(n) => n < TWO32
  }

  predicate WellFormed(f: Field) {
    InRange(f) && (f.payload.Len? ==> |f.payload.bytes| <= MAX_LENGTH)
  }

  predicate AllInRange(fs: seq<Field>) {
    forall i :: 0 <= i < |fs| ==> InRange(fs[i])
  }

  predicate AllWellFormed(fs: seq<Field>) {
    forall i :: 0 <= i < |fs| ==> WellFormed(fs[i])
  }

  function WireType(p: Payload): (t: nat)
    ensures t < 8
  {
    match p
    case Varint(_) => 0
    case Fixed64(_) => 1
    case Len(_) => 2
    case Fixed32(_) => 5
  }

  function EncodePayload(p: Payload): Bytes {
    match p
    case Varint(n) => EncodeVarint(n)
    case Fixed64(n) => EncodeFixed(n, 8)
    case Len(b) => EncodeVarint(|b|) + b
    case Fixed32(n) => EncodeFixed(n, 4)
  }

  /** Reads a payload of the given wire type; groups and unused wire types are malformed. */
  function DecodePayload(wireType: nat, s: Bytes): (r: Option<Item<Payload>>)
    ensures r.Some? ==> r.value.used <= |s|
  {
    if wireType == 0 then
      match DecodeVarint(s, 10)
      case None => None
      case Some(v) => Some(Item(Varint(v.value % TWO64), v.used))
    else if wireType == 1 then
      if |s| < 8 then None else Some(Item(Fixed64(DecodeFixed(s[..8])), 8))
    else if wireType == 2 then
      match DecodeVarint(s, 5)
      case None => None
      case Some(n) =>
        if n.value > MAX_LENGTH || n.value > |s| - n.used then None
        else Some(Item(Len(s[n.used..n.used + n.value]), n.used + n.value))
    else if wireType == 5 then
      if |s| < 4 then None else Some(Item(Fixed32(DecodeFixed(s[..4])), 4))
    else None
  }

  /** What the limits on numbers mean in powers of the two bases. */
  lemma Powers()
    ensures TWO64 <= Pow128(10) && TWO32 <= Pow128(5) && TWO64 == Pow256(8) && TWO32 == Pow256(4)
  {
    assert Pow128(5) == 128 * 128 * 128 * 128 * 128;
    assert Pow128(10) == 128 * 128 * 128 * 128 * 128 * Pow128(5);
    assert Pow256(4) == 256 * 256 * 256 * 256;
    assert Pow256(8) == 256 * 256 * 256 * 256 * Pow256(4);
  }

  lemma LenRoundTrip(b: Bytes, tail: Bytes)
    requires |b| <= MAX_LENGTH
    ensures DecodePayload(2, EncodePayload(Len(b)) + tail) == Some(Item(Len(b), |EncodePayload(Len(b))|))
  {
    Powers();
    VarintRoundTrip(|b|, 5, b + tail);
    var s := EncodePayload(Len(b)) + tail;
    var u := |EncodeVarint(|b|)|;
    assert s == EncodeVarint(|b|) + (b + tail);
    assert s[u..u + |b|] == b;
  }

  lemma FixedPayloadRoundTrip(n: nat, k: nat, tail: Bytes)
    requires n < Pow256(k)
    ensures (EncodeFixed(n, k) + tail)[..k] == EncodeFixed(n, k)
    ensures DecodeFixed((EncodeFixed(n, k) + tail)[..k]) == n
  {
    FixedRoundTrip(n, k);
    assert (EncodeFixed(n, k) + tail)[..k] == EncodeFixed(n, k);
  }

  lemma PayloadRoundTrip(p: Payload, tail: Bytes)
    requires WellFormed(Field(1, p))
    ensures DecodePayload(WireType(p), EncodePayload(p) + tail) == Some(Item(p, |EncodePayload(p)|))
  {
    hide DecodeFixed, EncodeFixed, DecodeVarint, EncodeVarint, Pow128, Pow256;
    Powers();
    match p
    case Varint(n) => VarintRoundTrip(n, 10, tail);
    case Fixed64(n) => FixedPayloadRoundTrip(n, 8, tail);
    case Len(b) => LenRoundTrip(b, tail);
    case Fixed32(n) => FixedPayloadRoundTrip(n, 4, tail);
  }

  function EncodeField(f: Field): (r: Bytes)
    ensures |r| >= 1
  {
    EncodeVarint(8 * f.num + WireType(f.payload)) + EncodePayload(f.payload)
  }

  function WithTag(tag: Item<nat>, payload: Option<Item<Payload>>): (r: Option<Item<Field>>)
    ensures r.Some? ==> payload.Some? && r.value.used == tag.used + payload.value.used
  {
    match payload
    case None => None
    case Some(p) => Some(Item(Field(tag.value / 8, p.value), tag.used + p.used))
  }

  /** Reads one tag and its payload. A tag is at most 32 bits and never has field number 0. */
  function DecodeField(s: Bytes): (r: Option<Item<Field>>)
    ensures r.Some? ==> 1 <= r.value.used <= |s|
  {
    match DecodeVarint(s, 5)
    case None => None
    case Some(tag) =>
      if tag.value >= TWO32 || tag.value < 8 then None
      else WithTag(tag, DecodePayload(tag.value % 8, s[tag.used..]))
  }

  lemma TagRoundTrip(num: nat, wireType: nat, rest: Bytes)
    requires 1 <= num < 0x2000_0000 && wireType < 8
    ensures var tag := EncodeVarint(8 * num + wireType);
            && DecodeVarint(tag + rest, 5) == Some(Item(8 * num + wireType, |tag|))
            && (tag + rest)[|tag|..] == rest
  {
    Powers();
    VarintRoundTrip(8 * num + wireType, 5, rest);
  }

  lemma DecodeFieldFrom(s: Bytes, tag: nat, used: nat, p: Item<Payload>)
    requires DecodeVarint(s, 5) == Some(Item(tag, used)) && 8 <= tag < TWO32
    requires DecodePayload(tag % 8, s[used..]) == Some(p)
    ensures DecodeField(s) == Some(Item(Field(tag / 8, p.value), used + p.used))
  {
    hide DecodeVarint, DecodePayload;
  }

  lemma FieldRoundTrip(f: Field, tail: Bytes)
    requires WellFormed(f)
    ensures DecodeField(EncodeField(f) + tail) == Some(Item(f, |EncodeField(f)|))
  {
    var w := WireType(f.payload);
    var t := 8 * f.num + w;
    var tag, body := EncodeVarint(t), EncodePayload(f.payload);
    var s := tag + (body + tail);
    assert EncodeField(f) + tail == s && |EncodeField(f)| == |tag| + |body| by {
      Associative(tag, body, tail);
    }
    assert DecodeVarint(s, 5) == Some(Item(t, |tag|)) && s[|tag|..] == body + tail by {
      TagRoundTrip(f.num, w, body + tail);
    }
    assert t % 8 == w && t / 8 == f.num;
    assert DecodePayload(t % 8, s[|tag|..]) == Some(Item(f.payload, |body|)) by {
      PayloadRoundTrip(f.payload, tail);
    }
    DecodeFieldFrom(s, t, |tag|, Item(f.payload, |body|));
  }

  // ----------------------------------------------------------- field lists

  /** The outcome of scanning a buffer: the records read, and whether the scan reached its end. */
  datatype Scan = Scan(fields: seq<Field>, ok: bool)

  function EncodeFields(fs: seq<Field>): Bytes {
    if fs == [] then [] else EncodeField(fs[0]) + EncodeFields(fs[1..])
  }

  function DecodeFields(s: Bytes): Scan
    decreases |s|
  {
    if s == [] then Scan([], true)
    else
      match DecodeField(s)
      case None => Scan([], false)
      case Some(f) =>
        var rest := DecodeFields(s[f.used..]);
        Scan([f.value] + rest.fields, rest.ok)
  }

  lemma DecodeFieldsCons(f: Field, rest: Bytes)
    requires WellFormed(f)
    ensures DecodeFields(EncodeField(f) + rest)
         == Scan([f] + DecodeFields(rest).fields, DecodeFields(rest).ok)
  {
    var s := EncodeField(f) + rest;
    FieldRoundTrip(f, rest);
    assert s[|EncodeField(f)|..] == rest;
  }

  /** Scanning the encoding of `fs` followed by `tail` yields `fs` and then whatever `tail` scans to. */
  lemma {:induction false} FieldsThenTail(fs: seq<Field>, tail: Bytes)
    requires AllWellFormed(fs)
    ensures DecodeFields(EncodeFields(fs) + tail)
         == Scan(fs + DecodeFields(tail).fields, DecodeFields(tail).ok)
    decreases |fs|
  {
    if fs == [] {
      assert EncodeFields(fs) + tail == tail;
    } else {
      var rest := EncodeFields(fs[1..]) + tail;
      assert EncodeFields(fs) + tail == EncodeField(fs[0]) + rest;
      DecodeFieldsCons(fs[0], rest);
      FieldsThenTail(fs[1..], tail);
      UnfoldHead(fs, DecodeFields(tail).fields);
    }
  }

  lemma FieldsRoundTrip(fs: seq<Field>)
    requires AllWellFormed(fs)
    ensures DecodeFields(EncodeFields(fs)) == Scan(fs, true)
  {
    FieldsThenTail(fs, []);
    assert EncodeFields(fs) + [] == EncodeFields(fs);
  }

  function FieldSize(f: Field): nat {
    VarintSize(8 * f.num) +
    match f.payload
    case Varint(n) => VarintSize(n)
    case Fixed64(_) => 8
    case Len(b) => VarintSize(|b|) + |b|
    case Fixed32(_) => 4
  }

  function FieldsSize(fs: seq<Field>): nat {
    if fs == [] then 0 else FieldSize(fs[0]) + FieldsSize(fs[1..])
  }

  lemma {:induction false} FieldsSizeCorrect(fs: seq<Field>)
    requires AllWellFormed(fs)
    ensures |EncodeFields(fs)| == FieldsSize(fs)
  {
    if fs != [] {
      var f := fs[0];
      VarintSizeCorrect(8 * f.num + WireType(f.payload));
      assert VarintSize(8 * f.num + WireType(f.payload)) == VarintSize(8 * f.num);
      match f.payload {
        case Varint(n) => VarintSizeCorrect(n);
        case Fixed64(_) =>
        case Len(b) => VarintSizeCorrect(|b|);
        case Fixed32(_) =>
      }
      FieldsSizeCorrect(fs[1..]);
    }
  }

  /** Records in range whose total size is within the limit each respect it. */
  lemma {:induction false} SmallIsWellFormed(fs: seq<Field>)
    requires AllInRange(fs)
    requires FieldsSize(fs) <= MAX_LENGTH
    ensures AllWellFormed(fs)
  {
    if fs != [] {
      SmallIsWellFormed(fs[1..]);
      assert fs == [fs[0]] + fs[1..];
    }
  }

  /** The payload of the last record with this number and wire type: for a scalar field the
      last occurrence wins, and records of another type are skipped as unknown. */
  function Last(fs: seq<Field>, num: nat, wireType: nat): (r: Option<Payload>)
    ensures r.Some? ==> WireType(r.value) == wireType
  {
    if fs == [] then None
    else
      var f := fs[|fs| - 1];
      if f.num == num && WireType(f.payload) == wireType then Some(f.payload)
      else Last(fs[..|fs| - 1], num, wireType)
  }

  lemma {:induction false} LastConcat(a: seq<Field>, b: seq<Field>, num: nat, wireType: nat)
    ensures Last(a + b, num, wireType)
         == if Last(b, num, wireType).Some? then Last(b, num, wireType) else Last(a, num, wireType)
  {
    if b == [] {
      assert a + b == a;
    } else {
      var n := |b| - 1;
      assert (a + b)[..|a + b| - 1] == a + b[..n];
      LastConcat(a, b[..n], num, wireType);
    }
  }
}
