/** The cancellable merge of two channels: two readers, a closer and the caller, in any order. */
module Merge {
  import opened Wrappers

  datatype Side = A | B

  // One thing for each input.
  datatype Both<X> = Both(a: X, b: X) {
    function Of(x: Side): X { if x.A? then a else b }

    function With(x: Side, v: X): Both<X> { if x.A? then Both(v, b) else Both(a, v) }
  }

  // Where a reader is in its loop: about to poll the context, in the select that receives, holding
  // a received value that it must send, or returned.
  datatype Reader<T> = Polling | Receiving | Holding(value: T) | Returned

  // The goroutine that waits for the readers, closes the output and reports the context's error.
  datatype Closer = NotStarted | Waiting | Closed | Reported(failed: bool)

  datatype State<T> = State(
    cancelled: bool,
    readers: Both<Reader<T>>,
    taken: Both<nat>,              // how many values each reader has received
    closer: Closer,
    out: seq<T>,                   // everything sent on the output
    closes: nat,                   // how often the output was closed
    lateSends: nat,                // sends on the closed output
    result: Option<bool>)          // the caller's result: whether it is the context's error

  datatype Event =
    | Cancel             // the context is done, whenever that happens
    | Enter              // the check at the start, and the three goroutines spawned
    | Poll(side: Side)   // the first select of a reader's loop
    | Receive(side: Side)
    | SeeClosed(side: Side)
    | SeeCancel(side: Side)
    | Send(side: Side)
    | CloseOut
    | Report
    | Return

  // The values that will be sent on each input before it is closed.
  type Inputs<T> = Both<seq<T>>

  function Start<T>(): State<T> {
    State(false, Both(Polling, Polling), Both(0, 0), NotStarted, [], 0, 0, None)
  }

  ghost predicate Enabled<T>(i: Inputs<T>, s: State<T>, e: Event) {
    match e
    case Cancel => !s.cancelled
    case Enter => s.closer.NotStarted? && s.result.None?
    case Poll(x) => !s.closer.NotStarted? && s.readers.Of(x).Polling?
    case Receive(x) => !s.closer.NotStarted? && s.readers.Of(x).Receiving? && s.taken.Of(x) < |i.Of(x)|
    case SeeClosed(x) => !s.closer.NotStarted? && s.readers.Of(x).Receiving? && s.taken.Of(x) == |i.Of(x)|
    case SeeCancel(x) => !s.closer.NotStarted? && s.readers.Of(x).Receiving? && s.cancelled
    case Send(x) => !s.closer.NotStarted? && s.readers.Of(x).Holding?
    case CloseOut => s.closer.Waiting? && s.readers.a.Returned? && s.readers.b.Returned?
    case Report => s.closer.Closed?
    case Return => s.closer.Reported? && s.result.None?
  }

  ghost function Next<T>(i: Inputs<T>, s: State<T>, e: Event): State<T>
    requires Enabled(i, s, e)
  {
    match e
    case Cancel => s.(cancelled := true)
    case Enter =>
      if s.cancelled then s.(closes := s.closes + 1, result := Some(true))
      else s.(closer := Waiting)
    case Poll(x) =>
      s.(readers := s.readers.With(x, if s.cancelled then Returned else Receiving))
    case Receive(x) =>
      s.(readers := s.readers.With(x, Holding(i.Of(x)[s.taken.Of(x)])),
         taken := s.taken.With(x, s.taken.Of(x) + 1))
    case SeeClosed(x) => s.(readers := s.readers.With(x, Returned))
    case SeeCancel(x) => s.(readers := s.readers.With(x, Returned))
    case Send(x) =>
      s.(readers := s.readers.With(x, Polling), out := s.out + [s.readers.Of(x).value],
         lateSends := s.lateSends + if s.closes > 0 then 1 else 0)
    case CloseOut => s.(closer := Closed, closes := s.closes + 1)
    case Report => s.(closer := Reported(s.cancelled))
    case Return => s.(result := Some(s.closer.failed))
  }

  // The state after a sequence of events, if each was enabled in its turn.
  ghost function Run<T>(i: Inputs<T>, events: seq<Event>): Option<State<T>>
  {
    if events == [] then Some(Start())
    else
      var before := Run(i, events[..|events| - 1]);
      var e := events[|events| - 1];
      if before.Some? && Enabled(i, before.value, e) then Some(Next(i, before.value, e)) else None
  }

  // `out` interleaves `xs` and `ys`, each in its own order.
  ghost predicate Shuffle<T>(out: seq<T>, xs: seq<T>, ys: seq<T>)
    decreases |out|
  {
    if out == [] then xs == [] && ys == []
    else
      var (front, v) := (out[..|out| - 1], out[|out| - 1]);
      || (xs != [] && xs[|xs| - 1] == v && Shuffle(front, xs[..|xs| - 1], ys))
      || (ys != [] && ys[|ys| - 1] == v && Shuffle(front, xs, ys[..|ys| - 1]))
  }

  // What a reader has received and sent on.
  ghost function Sent<T>(i: Inputs<T>, s: State<T>, x: Side): nat
  {
    if s.readers.Of(x).Holding? && s.taken.Of(x) > 0 then s.taken.Of(x) - 1 else s.taken.Of(x)
  }

  ghost predicate ReaderOk<T>(i: Inputs<T>, s: State<T>, x: Side)
  {
    && s.taken.Of(x) <= |i.Of(x)|
    && (s.readers.Of(x).Holding? ==> s.taken.Of(x) > 0 && s.readers.Of(x).value == i.Of(x)[s.taken.Of(x) - 1])
    && (s.readers.Of(x).Returned? && !s.cancelled ==> s.taken.Of(x) == |i.Of(x)|)
    && (s.closer.NotStarted? ==> s.readers.Of(x).Polling? && s.taken.Of(x) == 0)
    && (s.closer.Closed? || s.closer.Reported? ==> s.readers.Of(x).Returned?)
  }

  ghost predicate Ok<T>(i: Inputs<T>, s: State<T>) {
    && ReaderOk(i, s, A) && ReaderOk(i, s, B)
    && Shuffle(s.out, i.a[..Sent(i, s, A)], i.b[..Sent(i, s, B)])
    && s.closes == (if s.closer.Closed? || s.closer.Reported? || (s.closer.NotStarted? && s.result.Some?)
                    then 1 else 0)
    && s.lateSends == 0
    && (s.result.Some? ==> s.closer.NotStarted? || s.closer.Reported?)
    && (s.closer.NotStarted? && s.result.Some? ==> s.cancelled && s.result == Some(true))
    && (s.closer.Reported? && s.result.Some? ==> s.result == Some(s.closer.failed))
    && (s.closer.Reported? && !s.closer.failed ==>
          s.taken.a == |i.a| && s.taken.b == |i.b|)
    && (s.closer.Reported? && s.closer.failed ==> s.cancelled)
  }

  lemma SendShuffles<T>(i: Inputs<T>, s: State<T>, x: Side)
    requires Ok(i, s) && Enabled(i, s, Send(x))
    ensures var s' := Next(i, s, Send(x));
            Shuffle(s'.out, i.a[..Sent(i, s', A)], i.b[..Sent(i, s', B)])
  {
    var s' := Next(i, s, Send(x));
    assert s'.out[..|s'.out| - 1] == s.out;
    var k := s.taken.Of(x);
    assert i.Of(x)[..k][..k - 1] == i.Of(x)[..k - 1];
  }

  lemma StepOk<T>(i: Inputs<T>, s: State<T>, e: Event)
    requires Ok(i, s) && Enabled(i, s, e)
    ensures Ok(i, Next(i, s, e))
  {
    if e.Send? {
      SendShuffles(i, s, e.side);
    } else {
      assert Sent(i, Next(i, s, e), A) == Sent(i, s, A);
      assert Sent(i, Next(i, s, e), B) == Sent(i, s, B);
    }
  }

  lemma {:induction false} RunOk<T>(i: Inputs<T>, events: seq<Event>)
    requires Run(i, events).Some?
    ensures Ok(i, Run(i, events).value)
  {
    if events != [] {
      RunOk(i, events[..|events| - 1]);
      StepOk(i, Run(i, events[..|events| - 1]).value, events[|events| - 1]);
    }
  }

  /** Safety of the merge in every interleaving.  The output is closed at most once and never sent
      on afterwards.  Once it is closed it is an order-preserving shuffle of the values received
      from the two inputs, each a prefix of its input.  A nil result means that both prefixes are
      the whole inputs; an error means that the context was done. */
  lemma MergeSafety<T>(i: Inputs<T>, events: seq<Event>)
    requires Run(i, events).Some?
    ensures var s := Run(i, events).value;
            && s.closes <= 1 && s.lateSends == 0
            && s.taken.a <= |i.a| && s.taken.b <= |i.b|
            && (s.closes == 1 ==> Shuffle(s.out, i.a[..s.taken.a], i.b[..s.taken.b]))
            && (s.result.Some? ==> s.closes == 1)
            && (s.result == Some(false) ==> Shuffle(s.out, i.a, i.b))
            && (s.result == Some(true) ==> s.cancelled)
  {
    RunOk(i, events);
    var s := Run(i, events).value;
    if s.result == Some(false) {
      assert i.a[..|i.a|] == i.a && i.b[..|i.b|] == i.b;
    }
  }

  /** Without a cancellation the merge drops nothing: whatever is closed holds both inputs.  This is
      the promise of the merge that takes no context, and of the one that reads fetchers. */
  lemma {:induction false} UncancelledMergeIsWhole<T>(i: Inputs<T>, events: seq<Event>)
    requires Run(i, events).Some? && Cancel !in events
    ensures var s := Run(i, events).value;
            !s.cancelled && (s.closes == 1 ==> Shuffle(s.out, i.a, i.b))
  {
    if events != [] {
      UncancelledMergeIsWhole(i, events[..|events| - 1]);
    }
    RunOk(i, events);
    assert i.a[..|i.a|] == i.a && i.b[..|i.b|] == i.b;
  }

  /** Once the output is closed, it and what was received stay as they are. */
  lemma {:induction false} ClosedIsFinal<T>(i: Inputs<T>, events: seq<Event>, k: nat)
    requires k <= |events| && Run(i, events).Some?
    ensures Run(i, events[..k]).Some?
    ensures var (s, s') := (Run(i, events[..k]).value, Run(i, events).value);
            s.closes == 1 ==> s'.closes == 1 && s'.out == s.out && s'.taken == s.taken
  {
    if k == |events| {
      assert events[..k] == events;
    } else {
      var before := events[..|events| - 1];
      ClosedIsFinal(i, before, k);
      assert before[..k] == events[..k];
      RunOk(i, before);
    }
  }

  // How many more steps a reader and the closing can take.
  ghost function ReaderWork<T>(i: Inputs<T>, s: State<T>, x: Side): int
  {
    3 * (|i.Of(x)| - s.taken.Of(x))
    + match s.readers.Of(x)
      case Polling => 2
      case Receiving => 1
      case Holding(_) => 3
      case Returned => 0
  }

  ghost function Work<T>(i: Inputs<T>, s: State<T>): int
  {
    (if s.cancelled then 0 else 1) + ReaderWork(i, s, A) + ReaderWork(i, s, B)
    + if s.result.Some? then 0
      else match s.closer
           case NotStarted => 4
           case Waiting => 3
           case Closed => 2
           case Reported(_) => 1
  }

  lemma StepWorks<T>(i: Inputs<T>, s: State<T>, e: Event)
    requires Ok(i, s) && Enabled(i, s, e)
    ensures Work(i, Next(i, s, e)) < Work(i, s)
  {
  }

  /** The merge ends: a run has at most 3(m + n) + 9 steps for inputs of m and n values, and while
      the caller has no result some goroutine other than the canceller can step. */
  lemma {:induction false} MergeEnds<T>(i: Inputs<T>, events: seq<Event>)
    requires Run(i, events).Some?
    ensures |events| + Work(i, Run(i, events).value) <= 3 * (|i.a| + |i.b|) + 9
    ensures Work(i, Run(i, events).value) >= 0
    ensures Run(i, events).value.result.None? ==>
              exists e :: e != Cancel && Enabled(i, Run(i, events).value, e)
  {
    if events != [] {
      MergeEnds(i, events[..|events| - 1]);
      RunOk(i, events[..|events| - 1]);
      StepWorks(i, Run(i, events[..|events| - 1]).value, events[|events| - 1]);
    }
    RunOk(i, events);
    if Run(i, events).value.result.None? {
      SomeStep(i, Run(i, events).value);
    }
  }

  lemma SomeStep<T>(i: Inputs<T>, s: State<T>)
    requires Ok(i, s) && s.result.None?
    ensures exists e :: e != Cancel && Enabled(i, s, e)
  {
    var e :=
      match s.closer
      case NotStarted => Enter
      case Waiting =>
        if s.readers.a.Returned? && s.readers.b.Returned? then CloseOut
        else
          var x := if s.readers.a.Returned? then B else A;
          match s.readers.Of(x) {
            case Polling => Poll(x)
            case Receiving => if s.taken.Of(x) < |i.Of(x)| then Receive(x) else SeeClosed(x)
            case _ => Send(x)
          }
      case Closed => Report
      case Reported(_) => Return;
    assert Enabled(i, s, e);
  }

  // ----- what a cancellation does -----

  lemma {:induction false} PrefixRuns<T>(i: Inputs<T>, events: seq<Event>, k: nat)
    requires Run(i, events).Some? && k <= |events|
    ensures Run(i, events[..k]).Some?
    ensures k < |events| ==> Enabled(i, Run(i, events[..k]).value, events[k])
  {
    if k == |events| {
      assert events[..k] == events;
    } else {
      var before := events[..|events| - 1];
      assert before[..k] == events[..k];
      if k < |before| {
        PrefixRuns(i, before, k);
      }
    }
  }

  /** A reader that looks at the context after the cancellation is done: it has nothing in hand, and
      receives and sends nothing more. */
  lemma {:induction false} CancelledReadersStop<T>(i: Inputs<T>, events: seq<Event>, k: nat, x: Side)
    requires Run(i, events).Some? && k < |events| && events[k] == Poll(x) && Cancel in events[..k]
    ensures Run(i, events[..k]).Some?
    ensures var (s, s') := (Run(i, events[..k]).value, Run(i, events).value);
            && s.cancelled && s'.cancelled && s'.readers.Of(x).Returned?
            && s'.taken.Of(x) == s.taken.Of(x)
  {
    PrefixRuns(i, events, k);
    StaysCancelled(i, events[..k]);
    var before := events[..|events| - 1];
    if k < |before| {
      assert before[..k] == events[..k] && before[k] == events[k];
      CancelledReadersStop(i, before, k, x);
      RunOk(i, before);
    } else {
      assert before == events[..k];
    }
  }

  lemma {:induction false} StaysCancelled<T>(i: Inputs<T>, events: seq<Event>)
    requires Run(i, events).Some?
    ensures Run(i, events).value.cancelled <==> Cancel in events
  {
    if events != [] {
      StaysCancelled(i, events[..|events| - 1]);
      assert events == events[..|events| - 1] + [events[|events| - 1]];
    }
  }

  /** The caller gets the context's error exactly when the context was done as the closer asked for it,
      after the output was closed; or as the merge began, and then nothing is read at all. */
  lemma {:induction false} ErrorTellsCancellation<T>(i: Inputs<T>, events: seq<Event>, k: nat)
    requires Run(i, events).Some? && k < |events|
    ensures var s := Run(i, events).value;
            && (events[k] == Report && s.result.Some? ==>
                  s.result == Some(Cancel in events[..k]))
            && (events[k] == Enter && Cancel in events[..k] ==>
                  && s.result == Some(true) && s.closes == 1 && s.out == []
                  && s.taken == Both(0, 0))
  {
    PrefixRuns(i, events, k);
    StaysCancelled(i, events[..k]);
    AfterReport(i, events, k);
    AfterEnter(i, events, k);
  }

  lemma {:induction false} AfterReport<T>(i: Inputs<T>, events: seq<Event>, k: nat)
    requires Run(i, events).Some? && k < |events| && Run(i, events[..k]).Some?
    ensures events[k] == Report ==>
              && Run(i, events).value.closer == Reported(Run(i, events[..k]).value.cancelled)
              && (Run(i, events).value.result.Some? ==>
                    Run(i, events).value.result == Some(Run(i, events[..k]).value.cancelled))
  {
    var before := events[..|events| - 1];
    RunOk(i, before);
    if k < |before| {
      assert before[..k] == events[..k] && before[k] == events[k];
      AfterReport(i, before, k);
    } else {
      assert before == events[..k];
    }
  }

  lemma {:induction false} AfterEnter<T>(i: Inputs<T>, events: seq<Event>, k: nat)
    requires Run(i, events).Some? && k < |events| && Run(i, events[..k]).Some?
    ensures events[k] == Enter && Run(i, events[..k]).value.cancelled ==>
              var s := Run(i, events).value;
              && s.closer.NotStarted? && s.result == Some(true) && s.closes == 1 && s.out == []
              && s.taken == Both(0, 0)
  {
    var before := events[..|events| - 1];
    RunOk(i, before);
    if k < |before| {
      assert before[..k] == events[..k] && before[k] == events[k];
      AfterEnter(i, before, k);
    } else {
      assert before == events[..k];
    }
  }

  // A step that needs nothing from the inputs: no value and no close.
  predicate OfItself(e: Event) {
    !e.Cancel? && !e.Receive? && !e.SeeClosed?
  }

  /** A cancelled merge can end on its own, whatever the inputs do: from every state after the
      cancellation there are steps, none of which receives or sees an input closed, to the caller's
      result. */
  lemma {:induction false} CancelledMergeCanEnd<T>(i: Inputs<T>, events: seq<Event>)
    returns (more: seq<Event>)
    requires Run(i, events).Some? && Cancel in events
    ensures Run(i, events + more).Some? && Run(i, events + more).value.result.Some?
    ensures forall e :: e in more ==> OfItself(e)
    decreases Work(i, Run(i, events).value)
  {
    RunOk(i, events);
    StaysCancelled(i, events);
    MergeEnds(i, events);
    var s := Run(i, events).value;
    if s.result.Some? {
      more := [];
      assert events + more == events;
    } else {
      var e := OwnStep(i, s);
      assert (events + [e])[..|events|] == events;
      StepWorks(i, s, e);
      RunOk(i, events + [e]);
      MergeEnds(i, events + [e]);
      more := CancelledMergeCanEnd(i, events + [e]);
      assert events + [e] + more == events + ([e] + more);
      more := [e] + more;
    }
  }

  lemma OwnStep<T>(i: Inputs<T>, s: State<T>) returns (e: Event)
    requires Ok(i, s) && s.result.None? && s.cancelled
    ensures OfItself(e) && Enabled(i, s, e)
  {
    e :=
      match s.closer
      case NotStarted => Enter
      case Waiting =>
        if s.readers.a.Returned? && s.readers.b.Returned? then CloseOut
        else
          var x := if s.readers.a.Returned? then B else A;
          match s.readers.Of(x) {
            case Polling => Poll(x)
            case Receiving => SeeCancel(x)
            case _ => Send(x)
          }
      case Closed => Report
      case Reported(_) => Return;
  }
}
