/** Values shared by every part of the AppChat model. */
module Basics {

  type Byte = b: int | 0 <= b < 256

  /** A C++ string or byte buffer. */
  type Bytes = seq<Byte>

  /** `identifier_t`, a signed 32-bit number. */
  type Id = i: int | -0x8000_0000 <= i < 0x8000_0000

  /** Names one server-side connection object for the whole run. */
  type Handle = nat

  const TWO31 := 0x8000_0000
  const TWO32 := 0x1_0000_0000
  const TWO64 := 0x1_0000_0000_0000_0000

  /** `TextSendData`: one line of chat. */
  datatype Text = Text(room: Id, login: Bytes, text: Bytes)

  datatype Option<+T> = None | Some(value: T)

  /** The bytes of a string literal of the source. */
  function Ascii(s: string): Bytes {
    seq(|s|, i requires 0 <= i < |s| => (s[i] as int) % 256)
  }

  function Digits(n: nat): Bytes {
    if n < 10 then [48 + n] else Digits(n / 10) + [48 + n % 10]
  }

  /** `std::to_string` of an integer. */
  function Decimal(i: int): Bytes {
    if i < 0 then [45] + Digits(-i) else Digits(i)
  }

  /** The lines of `ms` that belong to room `r`, in order. */
  function ForRoom(ms: seq<Text>, r: Id): seq<Text> {
    if ms == [] then []
    else
      var last := ms[|ms| - 1];
      ForRoom(ms[..|ms| - 1], r) + (if last.room == r then [last] else [])
  }

  lemma {:induction false} ForRoomConcat(a: seq<Text>, b: seq<Text>, r: Id)
    ensures ForRoom(a + b, r) == ForRoom(a, r) + ForRoom(b, r)
  {
    if b == [] {
      assert a + b == a;
    } else {
      var n := |b| - 1;
      assert (a + b)[..|a + b| - 1] == a + b[..n];
      ForRoomConcat(a, b[..n], r);
    }
  }

  /** Lines that all belong to room `r` pass the filter for `r` untouched and vanish from any other. */
  lemma {:induction false} ForRoomUniform(ms: seq<Text>, r: Id, other: Id)
    requires forall i :: 0 <= i < |ms| ==> ms[i].room == r
    ensures ForRoom(ms, other) == if other == r then ms else []
  {
    if ms != [] {
      ForRoomUniform(ms[..|ms| - 1], r, other);
    }
  }

  lemma {:induction false} ForRoomMembers(ms: seq<Text>, r: Id)
    ensures forall i :: 0 <= i < |ForRoom(ms, r)| ==> ForRoom(ms, r)[i].room == r
  {
    if ms != [] {
      ForRoomMembers(ms[..|ms| - 1], r);
    }
  }

  lemma {:induction false} ForRoomPrefix(a: seq<Text>, b: seq<Text>, r: Id)
    requires a <= b
    ensures ForRoom(a, r) <= ForRoom(b, r)
  {
    assert b == a + b[|a|..];
    ForRoomConcat(a, b[|a|..], r);
  }

  function Flatten<T>(ss: seq<seq<T>>): seq<T> {
    if ss == [] then [] else Flatten(ss[..|ss| - 1]) + ss[|ss| - 1]
  }

  lemma {:induction false} FlattenConcat<T>(a: seq<seq<T>>, b: seq<seq<T>>)
    ensures Flatten(a + b) == Flatten(a) + Flatten(b)
  {
    if b == [] {
      assert a + b == a;
    } else {
      var n := |b| - 1;
      assert (a + b)[..|a + b| - 1] == a + b[..n];
      FlattenConcat(a, b[..n]);
    }
  }

  lemma FlattenHead<T>(ss: seq<seq<T>>)
    requires ss != []
    ensures Flatten(ss) == ss[0] + Flatten(ss[1..])
  {
    assert ss == [ss[0]] + ss[1..];
    FlattenConcat([ss[0]], ss[1..]);
    assert Flatten([ss[0]]) == Flatten([ss[0]][..0]) + ss[0];
  }

  /** Cutting a prefix of two joined sequences at the join. */
  lemma PrefixOfJoin<T>(p: seq<T>, a: seq<T>, b: seq<T>)
    requires p <= a + b
    ensures |p| < |a| ==> p <= a
    ensures |p| >= |a| ==> p == a + p[|a|..] && p[|a|..] <= b
  {
    if |p| >= |a| {
      assert p == (a + b)[..|p|];
      assert p[..|a|] == a;
      assert p[|a|..] == b[..|p| - |a|];
    } else {
      assert p == (a + b)[..|p|] == a[..|p|];
    }
  }

  lemma Associative<T>(a: seq<T>, b: seq<T>, c: seq<T>)
    ensures a + b + c == a + (b + c)
  {
  }

  lemma UnfoldHead<T>(a: seq<T>, b: seq<T>)
    requires a != []
    ensures a + b == [a[0]] + (a[1..] + b)
  {
  }

  function Repeat<T>(x: T, n: nat): seq<T> {
    if n == 0 then [] else Repeat(x, n - 1) + [x]
  }

  function Count(rs: seq<Id>, r: Id): nat {
    if rs == [] then 0
    else Count(rs[..|rs| - 1], r) + (if rs[|rs| - 1] == r then 1 else 0)
  }
}
