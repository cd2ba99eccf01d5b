/** What the join and leave notices say, in literal bytes, and how the room is read from them. */
module Notices {
  import opened Basics
  import opened Rooms

  // --------------------------------------------------------------- decimals

  predicate AllDigits(bs: Bytes) {
    forall i :: 0 <= i < |bs| ==> 48 <= bs[i] <= 57
  }

  /** Reads decimal digits from left to right. */
  function ReadDigits(bs: Bytes, sofar: nat): nat
    requires AllDigits(bs)
  {
    if bs == [] then sofar else ReadDigits(bs[1..], 10 * sofar + (bs[0] - 48))
  }

  lemma {:induction false} ReadOneMore(bs: Bytes, digit: Byte, sofar: nat)
    requires AllDigits(bs) && 48 <= digit <= 57
    ensures AllDigits(bs + [digit]) && ReadDigits(bs + [digit], sofar) == 10 * ReadDigits(bs, sofar) + (digit - 48)
    decreases |bs|
  {
    if bs == [] {
      assert (bs + [digit])[1..] == [];
    } else {
      assert (bs + [digit])[1..] == bs[1..] + [digit];
      ReadOneMore(bs[1..], digit, 10 * sofar + (bs[0] - 48));
    }
  }

  /** The digits of a number read back as the number, and do not start with a zero unless it is 0. */
  lemma {:induction false} DigitsRead(n: nat)
    ensures AllDigits(Digits(n)) && ReadDigits(Digits(n), 0) == n
    ensures Digits(n) != [] && (Digits(n)[0] == 48 <==> n == 0)
  {
    if n >= 10 {
      DigitsRead(n / 10);
      ReadOneMore(Digits(n / 10), 48 + n % 10, 0);
    } else {
      assert [48 + n][1..] == [];
    }
  }

  /** A minus sign and digits, or digits. */
  predicate IsDecimal(bs: Bytes) {
    if bs != [] && bs[0] == 45 then |bs| > 1 && AllDigits(bs[1..]) else bs != [] && AllDigits(bs)
  }

  function ReadDecimal(bs: Bytes): int
    requires IsDecimal(bs)
  {
    if bs[0] == 45 then -(ReadDigits(bs[1..], 0) as int) else ReadDigits(bs, 0)
  }

  /** `std::to_string` writes every number so that it is read back from left to right. */
  lemma DecimalReads(i: int)
    ensures IsDecimal(Decimal(i)) && ReadDecimal(Decimal(i)) == i
    ensures i > 0 ==> Decimal(i)[0] != 48
    ensures i < 0 ==> Decimal(i)[0] == 45 && Decimal(i)[1] != 48
  {
    DigitsRead(if i < 0 then -i else i);
    if i < 0 {
      assert ([45] + Digits(-i))[1..] == Digits(-i);
    } else {
      assert Digits(i)[0] != 45;
    }
  }

  // ---------------------------------------------------------------- notices

  /** " joined to room_id=" and " leave from room_id=". */
  const JOINED: Bytes := [32, 106, 111, 105, 110, 101, 100, 32, 116, 111, 32, 114, 111, 111, 109, 95, 105, 100, 61]
  const LEFT: Bytes := [32, 108, 101, 97, 118, 101, 32, 102, 114, 111, 109, 32, 114, 111, 111, 109, 95, 105, 100, 61]

  lemma Phrases()
    ensures Ascii(" joined to room_id=") == JOINED && Ascii(" leave from room_id=") == LEFT
  {
  }

  /** A line is the login, a phrase and a number that reads as the room. */
  predicate Says(m: Text, login: Bytes, phrase: Bytes, r: Id) {
    var head := login + phrase;
    && m.room == r && m.login == login
    && |head| <= |m.text| && m.text[..|head|] == head
    && IsDecimal(m.text[|head|..]) && ReadDecimal(m.text[|head|..]) == r
  }

  lemma PhraseAndRoom(login: Bytes, phrase: Bytes, r: Id)
    ensures Says(Text(r, login, login + phrase + Decimal(r)), login, phrase, r)
  {
    hide Decimal, ReadDecimal, IsDecimal;
    DecimalReads(r);
    var head := login + phrase;
    assert (head + Decimal(r))[..|head|] == head && (head + Decimal(r))[|head|..] == Decimal(r);
  }

  /** What every join notice and every leave notice says; the room can be read from its text. */
  lemma NoticesSay(login: Bytes, r: Id)
    ensures JoinNotice(login, r).notice && Says(JoinNotice(login, r).data, login, JOINED, r)
    ensures LeaveNotice(login, r).notice && Says(LeaveNotice(login, r).data, login, LEFT, r)
  {
    hide Says, Decimal;
    Phrases();
    PhraseAndRoom(login, JOINED, r);
    PhraseAndRoom(login, LEFT, r);
  }

  /** No join notice looks like a leave notice, whoever's and whichever room's. */
  lemma NoticesDiffer(login: Bytes, r: Id, login': Bytes, r': Id)
    ensures JoinNotice(login, r).data != LeaveNotice(login', r').data
  {
    hide Decimal;
    Phrases();
    if login == login' && r == r' {
      assert |JoinNotice(login, r).data.text| == |login| + 19 + |Decimal(r)|;
      assert |LeaveNotice(login, r).data.text| == |login| + 20 + |Decimal(r)|;
    }
  }

  /** "bob" joins room 12 and leaves it. */
  lemma SampleNotices()
    ensures JoinNotice([98, 111, 98], 12).data.text == [98, 111, 98] + JOINED + [49, 50]
    ensures LeaveNotice([98, 111, 98], 12).data.text == [98, 111, 98] + LEFT + [49, 50]
  {
    Phrases();
    assert Digits(1) == [49] && Digits(12) == Digits(1) + [50];
  }
}
