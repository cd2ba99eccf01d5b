/** The login table: registration, authorisation and the ids they hand out. */
module Accounts {
  import opened Basics
  import opened Rooms

  /** `get_loginid`: the id of the last row with this login, or -1. */
  function LoginId(rows: seq<Account>, login: Bytes): Id {
    if rows == [] then -1
    else
      var last := rows[|rows| - 1];
      if last.login == login then last.id else LoginId(rows[..|rows| - 1], login)
  }

  /** `check_client`: the id of the last row with this login and password, or -1. */
  function CheckClient(rows: seq<Account>, login: Bytes, password: Bytes): Id {
    if rows == [] then -1
    else
      var last := rows[|rows| - 1];
      if last.login == login && last.password == password then last.id
      else CheckClient(rows[..|rows| - 1], login, password)
  }

  /** Logins are distinct, and no account has the id -1 that stands for a refusal. */
  ghost predicate DistinctLogins(rows: seq<Account>) {
    && (forall i, j :: 0 <= i < j < |rows| ==> rows[i].login != rows[j].login)
    && (forall i :: 0 <= i < |rows| ==> rows[i].id != -1)
  }

  /** Logins are distinct, and so are ids, which are positive and no larger than the counter. */
  ghost predicate Sound(rows: seq<Account>, counter: nat) {
    && (forall i, j :: 0 <= i < j < |rows| ==> rows[i].login != rows[j].login && rows[i].id != rows[j].id)
    && (forall i :: 0 <= i < |rows| ==> 1 <= rows[i].id <= counter)
  }

  /** Row `i` is the only one with its login. */
  ghost predicate OnlyRow(rows: seq<Account>, i: nat) {
    i < |rows| && forall j :: 0 <= j < |rows| && rows[j].login == rows[i].login ==> j == i
  }

  /** Where a login has one row only, the last-match scans find exactly that row. */
  lemma {:induction false} LookupIsUnique(rows: seq<Account>, i: nat, password: Bytes)
    requires OnlyRow(rows, i)
    ensures LoginId(rows, rows[i].login) == rows[i].id
    ensures CheckClient(rows, rows[i].login, password) == if password == rows[i].password then rows[i].id else -1
  {
    var front := rows[..|rows| - 1];
    if i < |front| {
      assert front[i] == rows[i];
      LookupIsUnique(front, i, password);
    } else {
      LookupAbsent(front, rows[i].login, password);
    }
  }

  lemma {:induction false} LookupAbsent(rows: seq<Account>, login: Bytes, password: Bytes)
    requires forall i :: 0 <= i < |rows| ==> rows[i].login != login
    ensures LoginId(rows, login) == -1 && CheckClient(rows, login, password) == -1
  {
    if rows != [] {
      LookupAbsent(rows[..|rows| - 1], login, password);
    }
  }

  /** A login is free if and only if no row has it. */
  lemma {:induction false} FreeLogin(rows: seq<Account>, login: Bytes)
    requires forall i :: 0 <= i < |rows| && rows[i].login == login ==> rows[i].id != -1
    ensures LoginId(rows, login) == -1 <==> forall i :: 0 <= i < |rows| ==> rows[i].login != login
  {
    if rows != [] {
      var front := rows[..|rows| - 1];
      FreeLogin(front, login);
      if rows[|rows| - 1].login != login {
        assert rows == front + [rows[|rows| - 1]];
      }
    }
  }

  /** The outcome of `do_registration` on the table: the id given, -1 for a login already taken. */
  datatype Registration = Registration(rows: seq<Account>, counter: nat, id: Id)

  /** A new login needs one more id, and the counter is an int32. */
  predicate CanRegister(rows: seq<Account>, counter: nat, login: Bytes) {
    LoginId(rows, login) == -1 ==> counter < TWO31 - 1
  }

  function Register(rows: seq<Account>, counter: nat, login: Bytes, password: Bytes): Registration
    requires CanRegister(rows, counter, login)
  {
    if LoginId(rows, login) == -1
    then Registration(rows + [Account(login, counter + 1, password)], counter + 1, counter + 1)
    else Registration(rows, counter, -1)
  }

  /** Registration keeps logins distinct, whatever the counter and the ids in the table. */
  lemma RegisterKeepsLogins(rows: seq<Account>, counter: nat, login: Bytes, password: Bytes)
    requires DistinctLogins(rows) && CanRegister(rows, counter, login)
    ensures DistinctLogins(Register(rows, counter, login, password).rows)
  {
    FreeLogin(rows, login);
  }

  /** A registration never disturbs a login that has one row with an id. */
  lemma RegisterKeepsRow(rows: seq<Account>, counter: nat, login: Bytes, password: Bytes, i: nat)
    requires OnlyRow(rows, i) && rows[i].id != -1 && CanRegister(rows, counter, login)
    ensures OnlyRow(Register(rows, counter, login, password).rows, i)
    ensures rows <= Register(rows, counter, login, password).rows
  {
    if login == rows[i].login {
      LookupIsUnique(rows, i, password);
    }
  }

  /** Registration keeps the table sound; it succeeds exactly for a new login, with an id that no
      row had, and changes nothing for a taken one. */
  lemma RegisterKeepsSound(rows: seq<Account>, counter: nat, login: Bytes, password: Bytes)
    requires Sound(rows, counter) && CanRegister(rows, counter, login)
    ensures var reg := Register(rows, counter, login, password);
            && Sound(reg.rows, reg.counter)
            && (reg.id != -1 <==> forall i :: 0 <= i < |rows| ==> rows[i].login != login)
            && (reg.id == -1 ==> reg.rows == rows && reg.counter == counter)
            && (reg.id != -1 ==> reg.rows == rows + [Account(login, reg.id, password)]
                                 && forall i :: 0 <= i < |rows| ==> rows[i].id < reg.id)
  {
    FreeLogin(rows, login);
  }

  /** The counter restarts with the process while the table persists. A registration then keeps ids
      distinct if and only if the next value of the counter is not in the table. */
  lemma RegisterDistinctIds(rows: seq<Account>, counter: nat, login: Bytes, password: Bytes)
    requires counter < TWO31 - 1 && LoginId(rows, login) == -1
    requires forall i, j :: 0 <= i < j < |rows| ==> rows[i].id != rows[j].id
    ensures var after := Register(rows, counter, login, password).rows;
            (forall i, j :: 0 <= i < j < |after| ==> after[i].id != after[j].id) <==>
            (forall i :: 0 <= i < |rows| ==> rows[i].id != counter + 1)
  {
    var after := Register(rows, counter, login, password).rows;
    if i :| 0 <= i < |rows| && rows[i].id == counter + 1 {
      assert after[i].id == after[|rows|].id;
    }
  }

  /** After a restart the first registration repeats the id of the first account. */
  lemma RestartRepeatsId()
    ensures var table := Register([], 0, [65], []).rows;
            var after := Register(table, 0, [66], []).rows;
            |after| == 2 && after[0].login != after[1].login && after[0].id == after[1].id == 1
  {
    var table := Register([], 0, [65], []).rows;
    assert table == [Account([65], 1, [])];
    LookupAbsent(table, [66], []);
  }
}
