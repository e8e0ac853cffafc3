/** One call over the simulated network: the client, the carrier of the request, and the handler. */
module Labrpc {
  import opened Wrappers
  import opened RaftCore
  import Raft = Cluster

  // Where the carrying goroutine is.
  datatype Carrier<R> =
    | Reading               // about to look the server up
    | Choosing              // the server is there: drop the request or run it
    | Awaiting              // polling for the handler's result or the server's death
    | Checking(got: Option<R>)  // about to look at the server once more
    | Sending(rep: Option<R>)   // the reply is on its way, possibly much later; None is a failure
    | Over

  datatype Handler<R> = Idle | Spawned | Ran(result: R)

  datatype State<R> = State(
    dead: bool,             // the end is disabled, or its server gone or replaced
    carrier: Carrier<R>,
    handler: Handler<R>,
    runs: nat,              // how often the handler was dispatched
    replies: seq<Option<R>>,    // everything sent on the reply channel
    sawAlive: bool,         // what the last look at the server told
    returned: Option<Option<R>>)  // what the client's Call returned

  datatype Event<R> =
    | SetDead(b: bool)
    | Look
    | DropRequest
    | Spawn
    | Run(result: R)
    | TakeResult
    | Tick
    | Check(drop: bool)     // drop: an unreliable network loses the reply
    | Deliver
    | Return

  function Start<R>(): State<R> {
    State(false, Reading, Idle, 0, [], false, None)
  }

  predicate Enabled<R>(s: State<R>, e: Event<R>) {
    match e
    case SetDead(_) => true
    case Look => s.carrier.Reading?
    case DropRequest => s.carrier.Choosing?
    case Spawn => s.carrier.Choosing?
    case Run(_) => s.handler.Spawned?
    case TakeResult => s.carrier.Awaiting? && s.handler.Ran?
    case Tick => s.carrier.Awaiting?
    case Check(_) => s.carrier.Checking?
    case Deliver => s.carrier.Sending?
    case Return => s.returned.None? && s.replies != []
  }

  function Next<R>(s: State<R>, e: Event<R>): State<R>
    requires Enabled(s, e)
  {
    match e
    case SetDead(b) => s.(dead := b)
    case Look => s.(carrier := if s.dead then Sending(None) else Choosing)
    case DropRequest => s.(carrier := Sending(None))
    case Spawn => s.(carrier := Awaiting, handler := Spawned)
    case Run(r) => s.(handler := Ran(r), runs := s.runs + 1)
    case TakeResult => s.(carrier := Checking(Some(s.handler.result)))
    case Tick => if s.dead then s.(carrier := Checking(None)) else s
    case Check(drop) =>
      s.(sawAlive := !s.dead,
         carrier := Sending(if s.carrier.got.None? || s.dead || drop then None else s.carrier.got))
    case Deliver => s.(carrier := Over, replies := s.replies + [s.carrier.rep])
    case Return => s.(returned := Some(s.replies[0]))
  }

  function Play<R>(events: seq<Event<R>>): Option<State<R>> {
    if events == [] then Some(Start())
    else
      var before := Play(events[..|events| - 1]);
      var e := events[|events| - 1];
      if before.Some? && Enabled(before.value, e) then Some(Next(before.value, e)) else None
  }

  // A reply that says success carries the handler's result and follows a look that saw the server.
  ghost predicate Honest<R>(s: State<R>, rep: Option<R>) {
    rep.Some? ==> s.handler == Ran(rep.value) && s.sawAlive
  }

  ghost predicate Ok<R>(s: State<R>) {
    && s.runs == (if s.handler.Ran? then 1 else 0)
    && |s.replies| <= 1
    && (s.carrier.Over? <==> |s.replies| == 1)
    && (s.carrier.Reading? || s.carrier.Choosing? ==> s.handler.Idle?)
    && (s.carrier.Awaiting? ==> !s.handler.Idle?)
    && (s.carrier.Checking? ==> s.carrier.got.Some? ==> s.handler == Ran(s.carrier.got.value))
    && (s.carrier.Sending? ==> Honest(s, s.carrier.rep))
    && (s.replies != [] ==> Honest(s, s.replies[0]))
    && (s.returned.Some? ==> s.replies == [s.returned.value])
  }

  lemma StepOk<R>(s: State<R>, e: Event<R>)
    requires Ok(s) && Enabled(s, e)
    ensures Ok(Next(s, e))
  {
  }

  /** In every interleaving the handler runs at most once, at most one reply is sent, and a Call that
      reports success returns what the handler computed, from a server that was there at the last
      look after the handler ended. */
  lemma {:induction false} AtMostOnce<R>(events: seq<Event<R>>)
    requires Play(events).Some?
    ensures var s := Play(events).value;
            && Ok(s) && s.runs <= 1 && |s.replies| <= 1
            && (s.returned.Some? && s.returned.value.Some? ==>
                  s.runs == 1 && s.handler == Ran(s.returned.value.value) && s.sawAlive)
  {
    if events != [] {
      AtMostOnce(events[..|events| - 1]);
      StepOk(Play(events[..|events| - 1]).value, events[|events| - 1]);
    }
  }

  // ----- when a call succeeds, fails and ends -----

  // The network loses nothing and the server is there throughout.
  predicate Smooth<R>(e: Event<R>) {
    match e
    case SetDead(b) => !b
    case DropRequest => false
    case Check(drop) => !drop
    case _ => true
  }

  /** On a network that loses nothing, a Call to a server that stays there succeeds whenever it
      returns, with the handler's result. */
  lemma {:induction false} SmoothCallsSucceed<R>(events: seq<Event<R>>)
    requires Play(events).Some? && forall i :: 0 <= i < |events| ==> Smooth(events[i])
    ensures var s := Play(events).value;
            && !s.dead && (s.carrier.Checking? ==> s.carrier.got.Some?)
            && (s.carrier.Sending? ==> s.carrier.rep.Some?)
            && (forall rep :: rep in s.replies ==> rep.Some?)
            && (s.returned.Some? ==> s.handler.Ran? && s.returned.value == Some(s.handler.result))
  {
    if events != [] {
      var before := events[..|events| - 1];
      SmoothCallsSucceed(before);
      assert Smooth(events[|events| - 1]);
    }
    AtMostOnce(events);
  }

  // In this state this step loses the call: the server is not there, the request or the reply is lost.
  predicate Loses<R>(s: State<R>, e: Event<R>) {
    match e
    case Look => s.dead
    case DropRequest => true
    case Check(drop) => s.dead || drop
    case _ => false
  }

  // Whatever is sent or returned is a failure; and, unless the request had arrived, nothing runs.
  ghost predicate Lost<R>(s: State<R>) {
    && (s.carrier == Sending(None) || s.carrier.Over?)
    && (forall rep :: rep in s.replies ==> rep.None?)
    && (s.returned.Some? ==> s.returned.value.None?)
  }

  /** A call fails when it is lost: after a look that finds the server gone, a dropped request or a
      dropped reply, the Call returns nothing but a failure, and in the first two cases no handler
      ever runs. */
  lemma {:induction false} LostCallsFail<R>(events: seq<Event<R>>, i: nat)
    requires Play(events).Some? && i < |events|
    ensures Play(events[..i]).Some?
    ensures Loses(Play(events[..i]).value, events[i]) ==>
              && Lost(Play(events).value)
              && (!events[i].Check? ==> Play(events).value.handler.Idle? && Play(events).value.runs == 0)
  {
    PrefixPlays(events, i);
    var before := events[..|events| - 1];
    AtMostOnce(before);
    if i < |before| {
      LostCallsFail(before, i);
      assert before[..i] == events[..i];
    } else {
      assert before == events[..i];
    }
  }

  /** The last look is what a success vouches for: after it the carrier only sends, and what it saw
      stays on record. */
  lemma {:induction false} CheckIsLast<R>(events: seq<Event<R>>, i: nat)
    requires Play(events).Some? && i < |events| && events[i].Check?
    ensures Play(events[..i]).Some?
    ensures Play(events).value.carrier.Sending? || Play(events).value.carrier.Over?
    ensures Play(events).value.sawAlive == !Play(events[..i]).value.dead
  {
    PrefixPlays(events, i);
    var before := events[..|events| - 1];
    if i < |before| {
      CheckIsLast(before, i);
      assert before[..i] == events[..i];
    } else {
      assert before == events[..i];
    }
  }

  /** A server may be gone for a while: a Call after which it is back can succeed. */
  lemma ServersComeBack<R(!new)>(r: R)
    ensures exists events: seq<Event<R>> ::
              && Play(events).Some? && Play(events).value.returned == Some(Some(r))
              && events != [] && events[0] == SetDead(true)
  {
    var s: State<R> := Start();
    assert Play<R>([]) == Some(s);
    var events: seq<Event<R>> := [];
    events, s := PlayOne(events, s, SetDead(true));
    events, s := PlayOne(events, s, SetDead(false));
    events, s := PlayOne(events, s, Look);
    events, s := PlayOne(events, s, Spawn);
    events, s := PlayOne(events, s, Run(r));
    events, s := PlayOne(events, s, TakeResult);
    events, s := PlayOne(events, s, Check(false));
    events, s := PlayOne(events, s, Deliver);
    events, s := PlayOne(events, s, Return);
  }

  lemma PlayOne<R>(events: seq<Event<R>>, s: State<R>, e: Event<R>)
    returns (more: seq<Event<R>>, s': State<R>)
    requires Play(events) == Some(s) && Enabled(s, e)
    ensures more == events + [e] && s' == Next(s, e) && Play(more) == Some(s')
  {
    more, s' := events + [e], Next(s, e);
    assert more[..|events|] == events;
  }

  // How many more steps a call can take, polls of a server that is there left out.
  function Work<R>(s: State<R>): nat {
    (match s.carrier
     case Reading => 6
     case Choosing => 5
     case Awaiting => 3
     case Checking(_) => 2
     case Sending(_) => 1
     case Over => 0)
    + (if s.handler.Spawned? then 1 else 0) + (if s.returned.None? then 1 else 0)
  }

  // A step that brings the call on.
  predicate Moves<R>(s: State<R>, e: Event<R>) {
    Enabled(s, e) && !e.SetDead? && (e.Tick? ==> s.dead)
  }

  /** A call ends: a step that moves it leaves less work, any other leaves it as it was; and until it has
      returned it can move, to a server that is gone even if the handler never ends. */
  lemma CallsEnd<R(!new)>(events: seq<Event<R>>, e: Event<R>, some: R)
    requires Play(events).Some?
    ensures var s := Play(events).value;
            && Work(s) <= 7
            && (Moves(s, e) ==> Work(Next(s, e)) < Work(s))
            && (Enabled(s, e) && !Moves(s, e) ==> Work(Next(s, e)) == Work(s))
            && (s.returned.None? ==> exists m :: Moves(s, m) && (s.dead ==> !m.Run?))
  {
    AtMostOnce(events);
    var s := Play(events).value;
    if s.returned.None? {
      var m: Event<R> :=
        match s.carrier
        case Reading => Look
        case Choosing => Spawn
        case Awaiting => if s.dead then Tick else if s.handler.Ran? then TakeResult else Run(some)
        case Checking(_) => Check(false)
        case Sending(_) => Deliver
        case Over => Return;
      assert Moves(s, m);
    }
  }

  // What the Raft cluster has in its network of one call: `k` until it is handled, then the call
  // with its reply, and nothing once the client has the reply.  A call that fails stays, and is
  // never finished.
  function InFlight<R>(s: State<R>, k: Raft.Call, answered: R -> Raft.Call): set<Raft.Call> {
    if s.returned.Some? && s.returned.value.Some? then {}
    else if s.handler.Ran? then {answered(s.handler.result)}
    else {k}
  }

  predicate HandledIn(net: set<Raft.Call>, net': set<Raft.Call>, k: Raft.Call, k': Raft.Call) {
    k in net && net' == net - {k} + {k'}
  }

  predicate FinishedIn(net: set<Raft.Call>, net': set<Raft.Call>, k: Raft.Call) {
    k in net && net' == net - {k}
  }

  predicate Unanswered(k: Raft.Call) {
    match k
    case VoteCall(_, _, r) => r.None?
    case AppendCall(_, _, _, _, r) => r.None?
  }

  ghost predicate SameAnswers(net: set<Raft.Call>, net': set<Raft.Call>) {
    forall k :: !Unanswered(k) ==> (k in net' <==> k in net)
  }

  /** Every step of the network, on one call, is a step that the cluster takes on it, or none: it is
      handled at most once, finished at most once and only when handled, with the reply of then. */
  lemma CallRefinesCluster<R(!new)>(k: Raft.Call, answered: R -> Raft.Call, events: seq<Event<R>>, i: nat)
    requires Play(events).Some? && i < |events|
    ensures Play(events[..i]).Some? && Play(events[..i + 1]).Some?
    ensures var net := InFlight(Play(events[..i]).value, k, answered);
            var net' := InFlight(Play(events[..i + 1]).value, k, answered);
            || net' == net
            || (exists r :: HandledIn(net, net', k, answered(r)))
            || (exists r :: FinishedIn(net, net', answered(r)))
  {
    PrefixPlays(events, i);
    PrefixPlays(events, i + 1);
    assert events[..i + 1][..i] == events[..i];
    AtMostOnce(events[..i]);
    StepOfCall(Play(events[..i]).value, events[i], k, answered);
  }

  lemma StepOfCall<R(!new)>(s: State<R>, e: Event<R>, k: Raft.Call, answered: R -> Raft.Call)
    requires Ok(s) && Enabled(s, e)
    ensures var (net, net') := (InFlight(s, k, answered), InFlight(Next(s, e), k, answered));
            || net' == net
            || (exists r :: HandledIn(net, net', k, answered(r)))
            || (exists r :: FinishedIn(net, net', answered(r)))
  {
    var (net, net') := (InFlight(s, k, answered), InFlight(Next(s, e), k, answered));
    if e.Run? {
      assert HandledIn(net, net', k, answered(e.result));
    } else if e.Return? && s.replies[0].Some? {
      assert FinishedIn(net, net', answered(s.replies[0].value));
    }
  }

  // The cluster has an event that exchanges `net` for `net'` in its set of calls, or needs none.
  ghost predicate Matched(c: Raft.Cluster, net: set<Raft.Call>, net': set<Raft.Call>) {
    net' == net ||
    exists e :: Raft.Enabled(c, e) && Raft.Next(c, e).net == c.net - net + net'
  }

  /** In a cluster that holds a request for a vote, a step of the network that carries it, in which
      the handler of the addressed server computes the result, is an event of the cluster that can
      happen, with that effect on its calls, or no event. */
  lemma VoteCallMatched(c: Raft.Cluster, k: Raft.Call, s: State<VoteReply>, e: Event<VoteReply>)
    requires Raft.Shape(c) && k.VoteCall? && k.vr.None? && k.dst < |c.peers|
    requires Ok(s) && Enabled(s, e) && InFlight(s, k, r => k.(vr := Some(r))) <= c.net
    requires e.Run? ==> e.result == OnRequestVote(c.peers[k.dst], k.va).1
    ensures var answered := r => k.(vr := Some(r));
            Matched(c, InFlight(s, k, answered), InFlight(Next(s, e), k, answered))
  {
    if e.Run? {
      var ev := Raft.HandleVote(k);
      assert Raft.Enabled(c, ev);
    } else if e.Return? && s.replies[0].Some? {
      var ev := Raft.FinishVote(k.(vr := s.replies[0]));
      assert Raft.Enabled(c, ev);
    }
  }

  /** The same for a call to append. */
  lemma AppendCallMatched(c: Raft.Cluster, k: Raft.Call, s: State<AppendReply>, e: Event<AppendReply>)
    requires Raft.Shape(c) && k.AppendCall? && k.ar.None? && k.dst < |c.peers|
    requires Ok(s) && Enabled(s, e) && InFlight(s, k, r => k.(ar := Some(r))) <= c.net
    requires Indexed(c.peers[k.dst].log)
    requires e.Run? ==> e.result == OnAppend(c.peers[k.dst], k.aa).1
    ensures var answered := r => k.(ar := Some(r));
            Matched(c, InFlight(s, k, answered), InFlight(Next(s, e), k, answered))
  {
    if e.Run? {
      var ev := Raft.HandleAppend(k);
      assert Raft.Enabled(c, ev);
    } else if e.Return? && s.replies[0].Some? {
      var ev := Raft.FinishAppend(k.(ar := s.replies[0]));
      assert Raft.Enabled(c, ev);
    }
  }

  /** The other way round: handling a request and finishing a call change the network of the cluster
      so, and an event of any other kind answers no call and takes away no answer. */
  lemma ClusterSteps(c: Raft.Cluster, e: Raft.Event)
    requires Raft.Enabled(c, e)
    ensures var net' := Raft.Next(c, e).net;
            match e
            case HandleVote(k) => exists r :: HandledIn(c.net, net', k, k.(vr := Some(r)))
            case HandleAppend(k) => exists r :: HandledIn(c.net, net', k, k.(ar := Some(r)))
            case FinishVote(k) => k.vr.Some? && FinishedIn(c.net, net', k)
            case FinishAppend(k) => k.ar.Some? && FinishedIn(c.net, net', k)
            case Lose(k) => FinishedIn(c.net, net', k)
            case LateRead(_, _) => SameAnswers(c.net, net')
            case Overwrite(_) => SameAnswers(c.net, net')
            case _ => c.net <= net' && SameAnswers(c.net, net')
  {
    var net' := Raft.Next(c, e).net;
    match e
    case HandleVote(k) =>
      var r := OnRequestVote(c.peers[k.dst], k.va).1;
      assert HandledIn(c.net, net', k, k.(vr := Some(r)));
    case HandleAppend(k) =>
      var r := OnAppend(c.peers[k.dst], k.aa).1;
      assert HandledIn(c.net, net', k, k.(ar := Some(r)));
    case _ =>
  }

  lemma {:induction false} PrefixPlays<R>(events: seq<Event<R>>, k: nat)
    requires Play(events).Some? && k <= |events|
    ensures Play(events[..k]).Some?
  {
    if k == |events| {
      assert events[..k] == events;
    } else {
      PrefixPlays(events[..|events| - 1], k);
      assert events[..|events| - 1][..k] == events[..k];
    }
  }
}
