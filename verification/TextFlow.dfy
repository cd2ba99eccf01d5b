/** Every text that is received is stored once, in the order in which the pool runs the tasks. */
module TextFlow {
  import opened Basics
  import opened Messages
  import opened MsgFactory
  import opened Rooms
  import opened RoomProofs
  import opened Accounts
  import opened Server
  import Reader = ServerReader

  predicate IsText(t: Task) {
    t.DoTextMsg? && t.request.TextRequest?
  }

  function LineOf(t: Task): seq<Text> {
    if IsText(t) then [Text(t.request.roomId, t.request.login, t.request.text)] else []
  }

  function LinesOf(ts: seq<Task>): seq<Text> {
    if ts == [] then [] else LineOf(ts[0]) + LinesOf(ts[1..])
  }

  /** The text task that an event posts, and the one that it runs. */
  function ReceivedBy(e: Event): seq<Task> {
    if e.Receive? && Reader.Known(e.posted.command) && IsText(TaskOf(e.h, e.posted))
    then [TaskOf(e.h, e.posted)] else []
  }

  function ExecutedBy(e: Event): seq<Task> {
    if e.Execute? && IsText(e.task) then [e.task] else []
  }

  function Received(es: seq<Event>): seq<Task> {
    if es == [] then [] else ReceivedBy(es[0]) + Received(es[1..])
  }

  function Executed(es: seq<Event>): seq<Task> {
    if es == [] then [] else ExecutedBy(es[0]) + Executed(es[1..])
  }

  // ---------------------------------------------------------- conservation

  lemma FreeKeepsRows(s: State, h: Handle)
    requires h in s.conns
    ensures Free(s, h).rows == s.rows
  {
    var k := s.conns[h].clientId;
    LeaveRoomsFrame(s, k, if k in s.memberOf then s.memberOf[k] else []);
  }

  lemma StepStores(sys: Sys, e: Event)
    requires Enabled(sys, e)
    ensures NextState(sys, e).rows == sys.state.rows + LinesOf(ExecutedBy(e))
  {
    hide Free, Register, CheckClient, Notify, Enrol, Open;
    if e.Execute? {
      FreeKeepsRows(sys.state, e.task.h);
      JoinKeepsRows(sys.state, e.task.h);
    }
    if e.Drop? || e.Written? {
      FreeKeepsRows(sys.state, e.h);
    }
  }

  lemma JoinKeepsRows(s: State, h: Handle)
    requires h in s.conns
    ensures forall r :: JoinRoom(s, h, r).rows == s.rows
  {
  }

  lemma StepMoves(sys: Sys, e: Event, t: Task)
    requires Enabled(sys, e) && IsText(t)
    ensures NextPending(sys, e)[t] + multiset(ExecutedBy(e))[t] == sys.pending[t] + multiset(ReceivedBy(e))[t]
  {
    hide RunTask, TaskOf;
    match e
    case Execute(task) => PostsNoText(sys.state, task, t);
    case Receive(h, p) => OneMore(sys.pending, TaskOf(h, p), t);
    case Accept(_, _) =>
    case Drop(_) =>
    case Written(_, _) =>
  }

  lemma OneMore(pool: multiset<Task>, task: Task, t: Task)
    requires IsText(t)
    ensures (pool + multiset{task})[t] == pool[t] + multiset(if IsText(task) then [task] else [])[t]
  {
  }

  lemma PostsNoText(s: State, task: Task, t: Task)
    requires Runnable(s, task) && IsText(t)
    ensures RunTask(s, task).posts[t] == 0
  {
    hide Free, Register, CheckClient, JoinRoom, SayText;
  }

  lemma {:induction false} LinesOfConcat(a: seq<Task>, b: seq<Task>)
    ensures LinesOf(a + b) == LinesOf(a) + LinesOf(b)
  {
    if a == [] {
      assert a + b == b;
    } else {
      assert (a + b)[1..] == a[1..] + b;
      LinesOfConcat(a[1..], b);
    }
  }

  lemma StepParts(sys: Sys, e: Event)
    requires Enabled(sys, e)
    ensures Step(sys, e).state == NextState(sys, e) && Step(sys, e).pending == NextPending(sys, e)
  {
  }

  lemma CountConcat<T>(a: seq<T>, b: seq<T>, t: T)
    ensures multiset(a + b)[t] == multiset(a)[t] + multiset(b)[t]
  {
  }

  lemma TakeOut<T>(x: T, rest: seq<T>, left: seq<T>, right: seq<T>)
    requires multiset([x] + rest) == multiset(left + [x] + right)
    ensures multiset(rest) == multiset(left + right)
  {
    forall t ensures multiset(rest)[t] == multiset(left + right)[t] {
      CountConcat([x], rest, t);
      CountConcat(left + [x], right, t);
      CountConcat(left, [x], t);
      CountConcat(left, right, t);
    }
  }

  lemma PutIn<T>(rest: seq<T>, left: seq<T>, right: seq<T>, xs: seq<T>)
    requires multiset(rest) == multiset(left + right)
    ensures multiset(xs + rest) == multiset(left + xs + right)
  {
    forall t ensures multiset(xs + rest)[t] == multiset(left + xs + right)[t] {
      CountConcat(xs, rest, t);
      CountConcat(left + xs, right, t);
      CountConcat(left, xs, t);
      CountConcat(left, right, t);
    }
  }

  lemma Balance<T>(kept: seq<T>, ran: seq<T>, after: seq<T>, before: seq<T>, got: seq<T>)
    requires multiset(ran + after) == multiset(before + got)
    ensures multiset(kept + ran) + multiset(after) == multiset(kept) + multiset(before) + multiset(got)
  {
    forall t
      ensures (multiset(kept + ran) + multiset(after))[t] == (multiset(kept) + multiset(before) + multiset(got))[t]
    {
      CountConcat(ran, after, t);
      CountConcat(before, got, t);
      CountConcat(kept, ran, t);
    }
  }

  lemma LinesOfNone()
    ensures LinesOf([]) == []
  {
  }

  lemma {:induction false} RowsFollow(sys: Sys, es: seq<Event>)
    requires IsRun(sys, es)
    ensures Run(sys, es).state.rows == sys.state.rows + LinesOf(Executed(es))
    decreases |es|
  {
    hide Step, Enabled, LinesOf, ExecutedBy, NextState, NextPending;
    if es == [] {
      LinesOfNone();
    } else {
      var e := es[0];
      StepStores(sys, e);
      StepParts(sys, e);
      RowsFollow(Step(sys, e), es[1..]);
      LinesOfConcat(ExecutedBy(e), Executed(es[1..]));
    }
  }

  lemma {:induction false} TasksFollow(sys: Sys, es: seq<Event>, t: Task)
    requires IsRun(sys, es) && IsText(t)
    ensures Run(sys, es).pending[t] + multiset(Executed(es))[t] == sys.pending[t] + multiset(Received(es))[t]
    decreases |es|
  {
    hide Step, Enabled, IsText, ReceivedBy, ExecutedBy, NextState, NextPending;
    if es != [] {
      var e := es[0];
      StepMoves(sys, e, t);
      StepParts(sys, e);
      TasksFollow(Step(sys, e), es[1..], t);
      CountConcat(ExecutedBy(e), Executed(es[1..]), t);
      CountConcat(ReceivedBy(e), Received(es[1..]), t);
    }
  }

  /** Over every run the table gains the lines of the text tasks that were run, in that order, and a
      text task is pending as often as it was received and not yet run. */
  lemma TextsConserved(sys: Sys, es: seq<Event>)
    requires IsRun(sys, es)
    ensures Run(sys, es).state.rows == sys.state.rows + LinesOf(Executed(es))
    ensures forall t :: IsText(t) ==>
              Run(sys, es).pending[t] + multiset(Executed(es))[t] == sys.pending[t] + multiset(Received(es))[t]
  {
    hide IsRun, Run, IsText, LinesOf, Executed, Received;
    RowsFollow(sys, es);
    forall t | IsText(t)
      ensures Run(sys, es).pending[t] + multiset(Executed(es))[t] == sys.pending[t] + multiset(Received(es))[t]
    {
      TasksFollow(sys, es, t);
    }
  }

  /** `ts` lists the text tasks of a pool, each as often as it occurs. */
  ghost predicate Lists(ts: seq<Task>, pool: multiset<Task>) {
    && (forall i :: 0 <= i < |ts| ==> IsText(ts[i]))
    && (forall t :: IsText(t) ==> multiset(ts)[t] == pool[t])
  }

  lemma {:induction false} LinesOfPermuted(a: seq<Task>, b: seq<Task>)
    requires multiset(a) == multiset(b)
    ensures multiset(LinesOf(a)) == multiset(LinesOf(b))
  {
    hide LinesOf, LineOf;
    if a == [] {
      assert |multiset(b)| == 0;
      assert a == b;
    } else {
      var x, rest := a[0], a[1..];
      assert a == [x] + rest;
      assert x in multiset(b);
      var i :| 0 <= i < |b| && b[i] == x;
      var left, right := b[..i], b[i + 1..];
      assert b == left + [x] + right;
      TakeOut(x, rest, left, right);
      LinesOfPermuted(rest, left + right);
      LinesOfConcat([x], rest);
      LinesOfConcat(left + [x], right);
      LinesOfConcat(left, [x]);
      LinesOfConcat(left, right);
      PutIn(LinesOf(rest), LinesOf(left), LinesOf(right), LinesOf([x]));
    }
  }

  lemma {:induction false} AllTexts(es: seq<Event>)
    ensures forall i :: 0 <= i < |Received(es)| ==> IsText(Received(es)[i])
    ensures forall i :: 0 <= i < |Executed(es)| ==> IsText(Executed(es)[i])
  {
    hide TaskOf;
    if es != [] {
      AllTexts(es[1..]);
    }
  }

  lemma SameTasks(a: seq<Task>, b: seq<Task>)
    requires forall i :: 0 <= i < |a| ==> IsText(a[i])
    requires forall i :: 0 <= i < |b| ==> IsText(b[i])
    requires forall t :: IsText(t) ==> multiset(a)[t] == multiset(b)[t]
    ensures multiset(a) == multiset(b)
  {
    forall t ensures multiset(a)[t] == multiset(b)[t] {
      if !IsText(t) {
        assert t !in a && t !in b;
      }
    }
  }

  /** Stored lines and pending texts together are, as multisets, those at the start and the texts
      received since: no run loses, invents or doubles a line. */
  lemma NoLineIsLost(sys: Sys, es: seq<Event>, before: seq<Task>, after: seq<Task>)
    requires IsRun(sys, es) && Lists(before, sys.pending) && Lists(after, Run(sys, es).pending)
    ensures multiset(Run(sys, es).state.rows) + multiset(LinesOf(after))
         == multiset(sys.state.rows) + multiset(LinesOf(before)) + multiset(LinesOf(Received(es)))
  {
    hide IsRun, Run, Received, Executed, LinesOf, IsText;
    TextsConserved(sys, es);
    AllTexts(es);
    SameTasks(Executed(es) + after, before + Received(es));
    LinesOfPermuted(Executed(es) + after, before + Received(es));
    LinesOfConcat(Executed(es), after);
    LinesOfConcat(before, Received(es));
    Balance(sys.state.rows, LinesOf(Executed(es)), LinesOf(after), LinesOf(before), LinesOf(Received(es)));
  }

  // ------------------------------------------------------ order of a sender

  /** A text that connection `h` sent to room `r`. */
  predicate FromTo(t: Task, h: Handle, r: Id) {
    IsText(t) && t.h == h && t.request.roomId == r
  }

  /** Those of a list of tasks, in order. */
  function Of(ts: seq<Task>, h: Handle, r: Id): seq<Task> {
    if ts == [] then []
    else (if FromTo(ts[0], h, r) then [ts[0]] else []) + Of(ts[1..], h, r)
  }

  /** The event is not the arrival of a text while a different one of the same connection and room is
      still waiting in the pool. */
  ghost predicate NoOverlapAt(sys: Sys, e: Event, h: Handle, r: Id) {
    forall t, t' :: t in ReceivedBy(e) && FromTo(t, h, r) && t' in sys.pending && FromTo(t', h, r) ==> t == t'
  }

  ghost predicate NoOverlap(sys: Sys, es: seq<Event>, h: Handle, r: Id)
    requires IsRun(sys, es)
    decreases |es|
  {
    es == [] || (NoOverlapAt(sys, es[0], h, r) && NoOverlap(Step(sys, es[0]), es[1..], h, r))
  }

  /** Whichever pending text of the connection and room the pool picks next, those run so far and this
      one are the first ones received. */
  ghost predicate InTurn(pool: multiset<Task>, ran: seq<Task>, got: seq<Task>, h: Handle, r: Id) {
    forall t :: t in pool && FromTo(t, h, r) ==> ran + [t] <= got
  }

  /** That holds at every point of a run, given what was run and received before it. */
  ghost predicate AlwaysInTurn(sys: Sys, es: seq<Event>, h: Handle, r: Id, ran: seq<Task>, got: seq<Task>)
    requires IsRun(sys, es)
    decreases |es|
  {
    && InTurn(sys.pending, ran, got, h, r)
    && (es == [] ||
        AlwaysInTurn(Step(sys, es[0]), es[1..], h, r, ran + Of(ExecutedBy(es[0]), h, r), got + Of(ReceivedBy(es[0]), h, r)))
  }

  /** The texts received and not yet run are all the same one, and wait in the pool that often. */
  ghost predicate Lined(pool: multiset<Task>, ran: seq<Task>, got: seq<Task>, h: Handle, r: Id) {
    && ran <= got
    && (forall i :: |ran| <= i < |got| ==> got[i] == got[|ran|])
    && (forall t :: FromTo(t, h, r) ==>
          pool[t] == if |ran| < |got| && t == got[|ran|] then |got| - |ran| else 0)
    && (forall i :: |ran| <= i < |got| ==> FromTo(got[i], h, r))
  }

  lemma OfOne(t: Task, h: Handle, r: Id)
    ensures Of([t], h, r) == if FromTo(t, h, r) then [t] else []
    ensures Of([], h, r) == []
  {
    assert [t][1..] == [];
  }

  lemma OfEvent(e: Event, h: Handle, r: Id)
    ensures Of(ReceivedBy(e), h, r) == if ReceivedBy(e) != [] && FromTo(ReceivedBy(e)[0], h, r) then ReceivedBy(e) else []
    ensures Of(ExecutedBy(e), h, r) == if e.Execute? && FromTo(e.task, h, r) then [e.task] else []
    ensures |ReceivedBy(e)| <= 1
  {
    hide TaskOf;
    if ReceivedBy(e) != [] {
      OfOne(ReceivedBy(e)[0], h, r);
    }
    if ExecutedBy(e) != [] {
      OfOne(e.task, h, r);
    }
  }

  lemma LinedReceives(pool: multiset<Task>, pool': multiset<Task>, ran: seq<Task>, got: seq<Task>, x: Task, h: Handle, r: Id)
    requires Lined(pool, ran, got, h, r) && FromTo(x, h, r)
    requires forall t :: FromTo(t, h, r) ==> pool'[t] == pool[t] + if t == x then 1 else 0
    ensures Lined(pool', ran, got + [x], h, r) <==> forall t :: t in pool && FromTo(t, h, r) ==> x == t
    ensures InTurn(pool', ran, got + [x], h, r) ==> forall t :: t in pool && FromTo(t, h, r) ==> x == t
  {
    if |ran| < |got| {
      var first := got[|ran|];
      assert first in pool && (got + [x])[|ran|] == first;
      if x != first {
        assert pool'[x] > 0 && !(ran + [x] <= got + [x]) by {
          assert (ran + [x])[|ran|] == x;
        }
        assert (got + [x])[|got|] == x;
      }
    }
  }

  lemma LinedExecutes(pool: multiset<Task>, pool': multiset<Task>, ran: seq<Task>, got: seq<Task>, x: Task, h: Handle, r: Id)
    requires Lined(pool, ran, got, h, r) && FromTo(x, h, r) && x in pool
    requires forall t :: FromTo(t, h, r) ==> pool'[t] + (if t == x then 1 else 0) == pool[t]
    ensures Lined(pool', ran + [x], got, h, r)
  {
    assert |ran| < |got| && x == got[|ran|];
    assert ran + [x] == got[..|ran| + 1];
  }

  lemma LinedIsInTurn(pool: multiset<Task>, ran: seq<Task>, got: seq<Task>, h: Handle, r: Id)
    requires Lined(pool, ran, got, h, r)
    ensures InTurn(pool, ran, got, h, r)
  {
    forall t | t in pool && FromTo(t, h, r) ensures ran + [t] <= got {
      assert ran + [t] == got[..|ran| + 1];
    }
  }

  lemma LinedSame(pool: multiset<Task>, pool': multiset<Task>, ran: seq<Task>, got: seq<Task>, h: Handle, r: Id)
    requires Lined(pool, ran, got, h, r)
    requires forall t :: FromTo(t, h, r) ==> pool'[t] == pool[t]
    ensures Lined(pool', ran, got, h, r)
  {
  }

  /** What an event does to the pending texts of a connection and room. */
  lemma StepMovesOf(sys: Sys, e: Event, t: Task, h: Handle, r: Id)
    requires Enabled(sys, e) && FromTo(t, h, r)
    ensures NextPending(sys, e)[t] + multiset(Of(ExecutedBy(e), h, r))[t]
         == sys.pending[t] + multiset(Of(ReceivedBy(e), h, r))[t]
  {
    hide NextPending, TaskOf, Enabled;
    StepMoves(sys, e, t);
    OfEvent(e, h, r);
  }

  lemma OverlapMeans(sys: Sys, e: Event, h: Handle, r: Id)
    ensures Of(ReceivedBy(e), h, r) == [] ==> NoOverlapAt(sys, e, h, r)
    ensures Of(ReceivedBy(e), h, r) != [] ==>
              var x := Of(ReceivedBy(e), h, r)[0];
              && Of(ReceivedBy(e), h, r) == [x] && FromTo(x, h, r) && e.Receive?
              && (NoOverlapAt(sys, e, h, r) <==> forall t :: t in sys.pending && FromTo(t, h, r) ==> x == t)
  {
    hide TaskOf;
    OfEvent(e, h, r);
    if Of(ReceivedBy(e), h, r) != [] {
      assert ReceivedBy(e)[0] in ReceivedBy(e);
    }
  }

  lemma ExecutedMeans(sys: Sys, e: Event, h: Handle, r: Id)
    requires Enabled(sys, e)
    ensures Of(ExecutedBy(e), h, r) != [] ==>
              var x := Of(ExecutedBy(e), h, r)[0];
              Of(ExecutedBy(e), h, r) == [x] && FromTo(x, h, r) && x in sys.pending && Of(ReceivedBy(e), h, r) == []
  {
    hide TaskOf, Runnable;
    OfEvent(e, h, r);
  }

  /** The lists stay lined up through an event exactly when it is no overlap, and if it is one some
      pending text is out of turn. */
  lemma StepInTurn(sys: Sys, e: Event, h: Handle, r: Id, ran: seq<Task>, got: seq<Task>)
    requires Enabled(sys, e) && Lined(sys.pending, ran, got, h, r)
    ensures var pool, ran', got' := NextPending(sys, e), ran + Of(ExecutedBy(e), h, r), got + Of(ReceivedBy(e), h, r);
            && (NoOverlapAt(sys, e, h, r) ==> Lined(pool, ran', got', h, r))
            && (!NoOverlapAt(sys, e, h, r) ==> !InTurn(pool, ran', got', h, r))
  {
    hide NextPending, Lined, InTurn, Enabled, ExecutedBy, ReceivedBy, FromTo, Of, NoOverlapAt;
    var pool, ran', got' := NextPending(sys, e), Of(ExecutedBy(e), h, r), Of(ReceivedBy(e), h, r);
    assert ran + [] == ran && got + [] == got;
    OverlapMeans(sys, e, h, r);
    ExecutedMeans(sys, e, h, r);
    forall t | FromTo(t, h, r) ensures pool[t] + multiset(ran')[t] == sys.pending[t] + multiset(got')[t] {
      StepMovesOf(sys, e, t, h, r);
    }
    if ran' != [] {
      LinedExecutes(sys.pending, pool, ran, got, ran'[0], h, r);
    } else if got' != [] {
      LinedReceives(sys.pending, pool, ran, got, got'[0], h, r);
    } else {
      LinedSame(sys.pending, pool, ran, got, h, r);
    }
  }

  /** Over every run that starts with the texts lined up: at every point whichever text of a connection
      and room the pool picks is the one received first, if and only if no text of that connection
      and room arrives while a different one is still waiting. */
  lemma {:induction false} InTurnExactly(sys: Sys, es: seq<Event>, h: Handle, r: Id, ran: seq<Task>, got: seq<Task>)
    requires IsRun(sys, es) && Lined(sys.pending, ran, got, h, r)
    ensures NoOverlap(sys, es, h, r) <==> AlwaysInTurn(sys, es, h, r, ran, got)
    decreases |es|
  {
    hide Lined, InTurn, Step, Enabled, NoOverlapAt, NextPending;
    LinedIsInTurn(sys.pending, ran, got, h, r);
    if es != [] {
      var e, next := es[0], Step(sys, es[0]);
      var ran', got' := ran + Of(ExecutedBy(e), h, r), got + Of(ReceivedBy(e), h, r);
      StepInTurn(sys, e, h, r, ran, got);
      StepParts(sys, e);
      if NoOverlapAt(sys, e, h, r) {
        InTurnExactly(next, es[1..], h, r, ran', got');
      } else {
        assert !AlwaysInTurn(next, es[1..], h, r, ran', got');
      }
    }
  }

  /** So for a server that has just started: a sender keeps its order in a room by having no two
      different texts for it pending, and in no other way. */
  lemma SenderOrderExactly(rows: seq<Text>, accounts: seq<Account>, es: seq<Event>, h: Handle, r: Id)
    requires IsRun(Started(rows, accounts), es)
    ensures NoOverlap(Started(rows, accounts), es, h, r) <==> AlwaysInTurn(Started(rows, accounts), es, h, r, [], [])
  {
    hide IsRun, NoOverlap, AlwaysInTurn;
    InTurnExactly(Started(rows, accounts), es, h, r, [], []);
  }

  lemma {:induction false} OfConcat(a: seq<Task>, b: seq<Task>, h: Handle, r: Id)
    ensures Of(a + b, h, r) == Of(a, h, r) + Of(b, h, r)
  {
    if a == [] {
      assert a + b == b;
    } else {
      assert (a + b)[1..] == a[1..] + b;
      OfConcat(a[1..], b, h, r);
    }
  }

  lemma {:induction false} LinedRun(sys: Sys, es: seq<Event>, h: Handle, r: Id, ran: seq<Task>, got: seq<Task>)
    requires IsRun(sys, es) && NoOverlap(sys, es, h, r) && Lined(sys.pending, ran, got, h, r)
    ensures Lined(Run(sys, es).pending, ran + Of(Executed(es), h, r), got + Of(Received(es), h, r), h, r)
    decreases |es|
  {
    hide Lined, Step, Enabled, NoOverlapAt, NextPending, Of;
    if es == [] {
      OfConcat([], [], h, r);
      OfNone(h, r);
      assert ran + [] == ran && got + [] == got;
    } else {
      var e := es[0];
      StepInTurn(sys, e, h, r, ran, got);
      StepParts(sys, e);
      LinedRun(Step(sys, e), es[1..], h, r, ran + Of(ExecutedBy(e), h, r), got + Of(ReceivedBy(e), h, r));
      OfConcat(ExecutedBy(e), Executed(es[1..]), h, r);
      OfConcat(ReceivedBy(e), Received(es[1..]), h, r);
      Associative(ran, Of(ExecutedBy(e), h, r), Of(Executed(es[1..]), h, r));
      Associative(got, Of(ReceivedBy(e), h, r), Of(Received(es[1..]), h, r));
    }
  }

  lemma OfNone(h: Handle, r: Id)
    ensures Of([], h, r) == []
  {
  }

  /** Such a sender's texts to the room are run, and so broadcast and stored, in the order received. */
  lemma SenderKeepsOrder(rows: seq<Text>, accounts: seq<Account>, es: seq<Event>, h: Handle, r: Id)
    requires IsRun(Started(rows, accounts), es) && NoOverlap(Started(rows, accounts), es, h, r)
    ensures var end, ran, got := Run(Started(rows, accounts), es), Of(Executed(es), h, r), Of(Received(es), h, r);
            && end.state.rows == rows + LinesOf(Executed(es))
            && ran <= got
            && ((forall t :: t in end.pending ==> !FromTo(t, h, r)) ==> ran == got)
  {
    hide IsRun, Run, NoOverlap, Executed, Received, LinesOf, Of;
    RowsFollow(Started(rows, accounts), es);
    LinedRun(Started(rows, accounts), es, h, r, [], []);
    var end, ran, got := Run(Started(rows, accounts), es), Of(Executed(es), h, r), Of(Received(es), h, r);
    assert [] + ran == ran && [] + got == got;
    if |ran| < |got| {
      assert FromTo(got[|ran|], h, r) && got[|ran|] in end.pending;
    }
  }

  function TextTask(h: Handle, m: Text): Task {
    DoTextMsg(h, TextRequest(m.login, m.room, m.text))
  }

  function TextReceived(h: Handle, m: Text): Event {
    Receive(h, Reader.Posted(ECHO_REQUEST, TextRequest(m.login, m.room, m.text)))
  }

  /** One connection sends `first` and `second`, and the pool runs the second one first. */
  function Overtaking(first: Text, second: Text): seq<Event> {
    [Accept(7, 0), TextReceived(7, first), TextReceived(7, second),
     Execute(TextTask(7, second)), Execute(TextTask(7, first))]
  }

  lemma IsRunCons(sys: Sys, e: Event, es: seq<Event>)
    requires Enabled(sys, e) && IsRun(Step(sys, e), es)
    ensures IsRun(sys, [e] + es)
  {
    assert ([e] + es)[1..] == es;
  }

  lemma ReceiveText(sys: Sys, h: Handle, m: Text)
    requires h in sys.state.conns
    ensures Enabled(sys, TextReceived(h, m))
    ensures var next := Step(sys, TextReceived(h, m));
            next.state.conns.Keys == sys.state.conns.Keys && next.pending == sys.pending + multiset{TextTask(h, m)}
  {
  }

  lemma ExecuteText(sys: Sys, h: Handle, m: Text)
    requires h in sys.state.conns && TextTask(h, m) in sys.pending
    ensures Enabled(sys, Execute(TextTask(h, m)))
    ensures var next := Step(sys, Execute(TextTask(h, m)));
            next.state.conns.Keys == sys.state.conns.Keys && next.pending == sys.pending - multiset{TextTask(h, m)}
  {
    hide Enqueue;
  }

  /** The pool does not keep the order in which one connection sends to one room: whatever the two
      lines, some run stores them the other way round. */
  lemma PoolReorders(first: Text, second: Text)
    ensures IsRun(Started([], []), Overtaking(first, second))
    ensures Run(Started([], []), Overtaking(first, second)).state.rows == [second, first]
    ensures LinesOf(Received(Overtaking(first, second))) == [first, second]
    ensures first != second && first.room == second.room ==> !NoOverlap(Started([], []), Overtaking(first, second), 7, first.room)
  {
    var start, es := Started([], []), Overtaking(first, second);
    var s1 := Step(start, es[0]);
    OvertakingRuns(s1, first, second);
    IsRunCons(start, es[0], es[1..]);
    assert es == [es[0]] + es[1..];
    OvertakingTexts(first, second);
    TextsConserved(start, es);
    if first != second && first.room == second.room {
      OvertakingOrder(es, first, second);
    }
  }

  lemma OvertakingOrder(es: seq<Event>, first: Text, second: Text)
    requires es == Overtaking(first, second) && first != second && first.room == second.room
    requires IsRun(Started([], []), es)
    ensures !NoOverlap(Started([], []), es, 7, first.room)
  {
    hide IsRun, NoOverlap, Executed, Received, LinesOf, Overtaking;
    var t, t', r := TextTask(7, first), TextTask(7, second), first.room;
    OvertakingTexts(first, second);
    OfOne(t, 7, r);
    OfOne(t', 7, r);
    OfConcat([t], [t'], 7, r);
    OfConcat([t'], [t], 7, r);
    assert [t] + [t'] == [t, t'] && [t'] + [t] == [t', t];
    assert [t', t][0] != [t, t'][0];
    if NoOverlap(Started([], []), es, 7, r) {
      SenderKeepsOrder([], [], es, 7, r);
    }
  }

  lemma OvertakingRuns(s1: Sys, first: Text, second: Text)
    requires 7 in s1.state.conns
    ensures IsRun(s1, Overtaking(first, second)[1..])
  {
    hide Step, Enabled, IsRun, TextReceived, TextTask;
    var a, b := TextReceived(7, first), TextReceived(7, second);
    var c, d := Execute(TextTask(7, second)), Execute(TextTask(7, first));
    ReceiveText(s1, 7, first);
    var s2 := Step(s1, a);
    ReceiveText(s2, 7, second);
    var s3 := Step(s2, b);
    ExecuteText(s3, 7, second);
    var s4 := Step(s3, c);
    ExecuteText(s4, 7, first);
    EmptyRun(Step(s4, d));
    IsRunCons(s4, d, []);
    IsRunCons(s3, c, [d] + []);
    IsRunCons(s2, b, [c] + ([d] + []));
    IsRunCons(s1, a, [b] + ([c] + ([d] + [])));
    assert Overtaking(first, second)[1..] == [a] + ([b] + ([c] + ([d] + [])));
  }

  lemma EmptyRun(sys: Sys)
    ensures IsRun(sys, [])
  {
  }

  lemma TextsCons(e: Event, es: seq<Event>)
    ensures Executed([e] + es) == ExecutedBy(e) + Executed(es)
    ensures Received([e] + es) == ReceivedBy(e) + Received(es)
  {
    assert ([e] + es)[1..] == es;
  }

  lemma OvertakingTexts(first: Text, second: Text)
    ensures Executed(Overtaking(first, second)) == [TextTask(7, second), TextTask(7, first)]
    ensures Received(Overtaking(first, second)) == [TextTask(7, first), TextTask(7, second)]
    ensures LinesOf(Executed(Overtaking(first, second))) == [second, first]
    ensures LinesOf(Received(Overtaking(first, second))) == [first, second]
  {
    hide Executed, Received;
    var es := Overtaking(first, second);
    assert es == [es[0]] + ([es[1]] + ([es[2]] + ([es[3]] + ([es[4]] + []))));
    NoTexts();
    TextsCons(es[4], []);
    TextsCons(es[3], [es[4]] + []);
    TextsCons(es[2], [es[3]] + ([es[4]] + []));
    TextsCons(es[1], [es[2]] + ([es[3]] + ([es[4]] + [])));
    TextsCons(es[0], [es[1]] + ([es[2]] + ([es[3]] + ([es[4]] + []))));
    TwoLines(7, first, second);
    TwoLines(7, second, first);
    assert Executed(es) == [TextTask(7, second), TextTask(7, first)];
    assert Received(es) == [TextTask(7, first), TextTask(7, second)];
  }

  lemma NoTexts()
    ensures Executed([]) == [] && Received([]) == []
  {
  }

  lemma TwoLines(h: Handle, m: Text, m': Text)
    ensures LinesOf([TextTask(h, m), TextTask(h, m')]) == [m, m']
  {
    LinesOfConcat([TextTask(h, m)], [TextTask(h, m')]);
    assert [TextTask(h, m)] + [TextTask(h, m')] == [TextTask(h, m), TextTask(h, m')];
  }
}
