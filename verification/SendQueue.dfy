/** The outgoing queue that the server's `Connection` and the `Client` both keep: messages wait in
    order, the front one is being written, and a completion pops it and starts the next. */
module SendQueue {
  import opened Basics

  /** `pending` is the queue itself. The other fields record what happened on the socket:
      writes started and not completed, messages whose write was started, messages written
      in full, messages ever added, and whether a write has failed. */
  datatype Queue = Queue(
    pending: seq<Bytes>, inFlight: nat, failed: bool,
    started: seq<Bytes>, written: seq<Bytes>, added: seq<Bytes>)

  const EMPTY := Queue([], 0, false, [], [], [])

  /** `async_write` of the front message. */
  function Start(q: Queue): Queue
    requires q.pending != []
  {
    q.(inFlight := q.inFlight + 1, started := q.started + [q.pending[0]])
  }

  /** `add_msg_send_queue`, `add_msg_to_send`. */
  function Add(q: Queue, b: Bytes): Queue {
    var q' := q.(pending := q.pending + [b], added := q.added + [b]);
    if q.pending == [] then Start(q') else q'
  }

  /** The completion handler of a write. */
  function Complete(q: Queue, ok: bool): Queue
    requires q.inFlight > 0 && q.pending != []
  {
    var q' := q.(inFlight := q.inFlight - 1);
    if ok then
      var popped := q'.(pending := q.pending[1..], written := q.written + [q.pending[0]]);
      if popped.pending == [] then popped else Start(popped)
    else q'.(failed := true)
  }

  /** Written, then queued, is what was added; one write is in flight exactly when something is
      queued and no write has failed; the writes started are those completed and the front one. */
  ghost predicate Valid(q: Queue) {
    && q.written + q.pending == q.added
    && q.inFlight == (if q.pending != [] && !q.failed then 1 else 0)
    && q.started == q.written + (if q.pending != [] then [q.pending[0]] else [])
    && (q.failed ==> q.pending != [])
  }

  lemma AddKeepsValid(q: Queue, b: Bytes)
    requires Valid(q)
    ensures Valid(Add(q, b))
  {
    assert q.written + (q.pending + [b]) == q.added + [b];
  }

  lemma CompleteKeepsValid(q: Queue, ok: bool)
    requires Valid(q) && q.inFlight > 0
    ensures Valid(Complete(q, ok))
  {
    assert q.written + [q.pending[0]] + q.pending[1..] == q.written + q.pending;
  }

  datatype Event = Added(message: Bytes) | Completed(ok: bool)

  ghost predicate IsRun(q: Queue, es: seq<Event>)
    requires Valid(q)
    decreases |es|
  {
    es == [] ||
    match es[0]
    case Added(b) => AddKeepsValid(q, b); IsRun(Add(q, b), es[1..])
    case Completed(ok) => q.inFlight > 0 && (CompleteKeepsValid(q, ok); IsRun(Complete(q, ok), es[1..]))
  }

  ghost function Run(q: Queue, es: seq<Event>): (end: Queue)
    requires Valid(q) && IsRun(q, es)
    ensures Valid(end)
    decreases |es|
  {
    if es == [] then q
    else
      match es[0]
      case Added(b) => AddKeepsValid(q, b); Run(Add(q, b), es[1..])
      case Completed(ok) => CompleteKeepsValid(q, ok); Run(Complete(q, ok), es[1..])
  }

  /** The messages of the `Added` events, in order. */
  function AddedIn(es: seq<Event>): seq<Bytes> {
    if es == [] then []
    else (if es[0].Added? then [es[0].message] else []) + AddedIn(es[1..])
  }

  lemma AddFacts(q: Queue, b: Bytes)
    requires Valid(q)
    ensures var q' := Add(q, b);
            && Valid(q') && q'.added == q.added + [b] && q'.written == q.written && q'.failed == q.failed
            && (q.failed ==> q'.started == q.started)
  {
    AddKeepsValid(q, b);
  }

  lemma CompleteFacts(q: Queue, ok: bool)
    requires Valid(q) && q.inFlight > 0
    ensures !q.failed && q.pending != []
    ensures var q' := Complete(q, ok);
            && Valid(q') && q'.added == q.added && q'.failed == !ok
            && |q'.written| == |q.written| + if ok then 1 else 0
  {
    CompleteKeepsValid(q, ok);
  }

  lemma {:induction false} RunExtends(q: Queue, es: seq<Event>)
    requires Valid(q) && IsRun(q, es)
    ensures Run(q, es).added == q.added + AddedIn(es)
    ensures q.failed ==> Run(q, es).failed && Run(q, es).started == q.started && Run(q, es).written == q.written
    decreases |es|
  {
    hide Valid, Add, Complete;
    if es != [] {
      match es[0]
      case Added(b) =>
        AddFacts(q, b);
        RunExtends(Add(q, b), es[1..]);
        Associative(q.added, [b], AddedIn(es[1..]));
      case Completed(ok) =>
        CompleteFacts(q, ok);
        RunExtends(Complete(q, ok), es[1..]);
    }
  }

  /** Over every interleaving of additions and completions: what was written followed by what is
      queued is what was added, in order; at most one write is in flight, and one is exactly when
      the queue is non-empty and no write has failed. */
  lemma QueueRuns(es: seq<Event>)
    requires IsRun(EMPTY, es)
    ensures var q := Run(EMPTY, es);
            && q.written + q.pending == AddedIn(es)
            && q.inFlight <= 1
            && (q.inFlight == 1 <==> q.pending != [] && !q.failed)
  {
    RunExtends(EMPTY, es);
  }

  /** How many writes have completed without an error. */
  function Successes(es: seq<Event>): nat {
    if es == [] then 0 else (if es[0] == Completed(true) then 1 else 0) + Successes(es[1..])
  }

  lemma {:induction false} SuccessesWrite(q: Queue, es: seq<Event>)
    requires Valid(q) && IsRun(q, es)
    ensures |Run(q, es).written| == |q.written| + Successes(es)
    ensures Run(q, es).failed <==> q.failed || Completed(false) in es
    decreases |es|
  {
    hide Valid, Add, Complete;
    if es != [] {
      assert es == [es[0]] + es[1..];
      match es[0]
      case Added(b) =>
        AddFacts(q, b);
        SuccessesWrite(Add(q, b), es[1..]);
      case Completed(ok) =>
        CompleteFacts(q, ok);
        SuccessesWrite(Complete(q, ok), es[1..]);
    }
  }

  /** The queue after any run, from the run alone: every completion without an error has moved the front
      message to the written ones and started the next. So the queue is drained exactly when there
      were as many of them as additions. */
  lemma QueueAfter(es: seq<Event>)
    requires IsRun(EMPTY, es)
    ensures var q, n := Run(EMPTY, es), Successes(es);
            && n <= |AddedIn(es)|
            && q.written == AddedIn(es)[..n] && q.pending == AddedIn(es)[n..]
            && q.started == (if n < |AddedIn(es)| then AddedIn(es)[..n + 1] else AddedIn(es))
            && (q.failed <==> Completed(false) in es)
            && (q.pending == [] <==> n == |AddedIn(es)|)
  {
    hide IsRun, Run, AddedIn, Successes;
    RunExtends(EMPTY, es);
    SuccessesWrite(EMPTY, es);
    assert [] + AddedIn(es) == AddedIn(es);
    Divided(Run(EMPTY, es));
  }

  /** A queue in order divides what was added into what is written and what is queued. */
  lemma Divided(q: Queue)
    requires Valid(q)
    ensures var n := |q.written|;
            && n <= |q.added| && q.written == q.added[..n] && q.pending == q.added[n..]
            && q.started == (if n < |q.added| then q.added[..n + 1] else q.added)
  {
  }

  lemma {:induction false} IsRunSplit(q: Queue, es: seq<Event>, later: seq<Event>)
    requires Valid(q) && IsRun(q, es + later)
    ensures IsRun(q, es) && IsRun(Run(q, es), later) && Run(q, es + later) == Run(Run(q, es), later)
    decreases |es|
  {
    if es == [] {
      assert es + later == later;
    } else {
      assert (es + later)[0] == es[0] && (es + later)[1..] == es[1..] + later;
      match es[0]
      case Added(b) =>
        AddKeepsValid(q, b);
        IsRunSplit(Add(q, b), es[1..], later);
      case Completed(ok) =>
        CompleteKeepsValid(q, ok);
        IsRunSplit(Complete(q, ok), es[1..], later);
    }
  }

  /** Once a write has failed, no later event starts or completes another. */
  lemma NothingAfterFailure(es: seq<Event>, later: seq<Event>)
    requires IsRun(EMPTY, es + [Completed(false)] + later)
    ensures IsRun(EMPTY, es + [Completed(false)])
    ensures var q, end := Run(EMPTY, es + [Completed(false)]), Run(EMPTY, es + [Completed(false)] + later);
            end.started == q.started && end.written == q.written && end.inFlight == 0
  {
    var upTo := es + [Completed(false)];
    IsRunSplit(EMPTY, upTo, later);
    IsRunSplit(EMPTY, es, [Completed(false)]);
    var before, q := Run(EMPTY, es), Run(EMPTY, upTo);
    assert [Completed(false)][1..] == [];
    CompleteKeepsValid(before, false);
    assert q == Run(Complete(before, false), []);
    RunExtends(q, later);
  }

  /** The bytes that can have reached the peer by now: the messages written in full, and any
      part of the one whose write was started last. */
  ghost predicate OnTheWire(q: Queue, bytes: Bytes) {
    Flatten(q.written) <= bytes <= Flatten(q.started)
  }

  /** Whatever has reached the peer is a prefix of the messages added, and all of them once the
      queue is empty. */
  lemma WireIsPrefix(q: Queue, bytes: Bytes)
    requires Valid(q) && OnTheWire(q, bytes)
    ensures bytes <= Flatten(q.added)
    ensures q.pending == [] ==> bytes == Flatten(q.added)
  {
    if q.pending == [] {
      assert q.added == q.written;
    } else {
      assert q.added == q.started + q.pending[1..];
      FlattenConcat(q.started, q.pending[1..]);
    }
  }
}
