/** The engine and the worker pool of the dispatcher as one concurrent step system
    (src/noti_mapper/engine.py, src/noti_mapper/dispatcher.py).

    The core thread consumes the queue, fires timers and dispatches; workers take requests, look the output up, call
    apply and report; anything else may be submitted at any time. remote holds what the last successful apply to each
    output made of its remote end, and three histories are kept beside the state: the requests dispatched, the requests
    performed, and the outputs an apply has succeeded on. */
module Protocol {
  import opened Base
  import opened Rules
  import opened Records
  import opened Messages
  import opened Core

  datatype Worker =
    | Idle
    | Taken(request: Request)
    | Calling(request: Request)
    | Finished(request: Request, ok: bool, error: Option<string>)

  datatype System = System(
    core: State,
    inbox: seq<Message>,
    work: seq<Request>,
    workers: seq<Worker>,
    table: set<Name>,
    remote: map<Name, bool>,
    started: bool,
    sent: seq<Request>,
    performed: seq<Request>,
    touched: set<Name>)

  datatype Action =
    | Submit(message: Message)
    | Handle(act: Label)
    | Discard
    | Timer(act: Label)
    | Send(requests: seq<Request>)
    | Take(worker: nat)
    | LookUp(worker: nat)
    | Apply(worker: nat, ok: bool, error: Option<string>)
    | Report(worker: nat)

  /** The label by which the core handles a message. */
  ghost predicate Carries(m: Message, l: Label) {
    match m
    case InputEvent(i, e) => l == Trigger(i, e)
    case UnlatchRequest(o, _) => l == Unlatch(o)
    case PushResult(o, v, ok, error) => l == Result(o, v, ok, error)
    case ReconcileOutput(o, _) => l.Retry? && l.output == o
    case ReloadRequest(c, plugins) =>
      && l.Reload? && l.graph.rules == GraphRules(c)
      && l.live == (if plugins.Some? then Some(plugins.value.outputs) else None)
    case _ => false
  }

  function ResultOf(w: Worker): Message
    requires w.Finished?
  {
    PushResult(w.request.output, w.request.update.state, w.ok, w.error)
  }

  // -- the steps ------------------------------------------------------------------

  /** The core takes a step and nothing else moves. */
  ghost predicate CoreMoves(st: Settings, s: System, s': System, l: Label, now: Time, inbox: seq<Message>) {
    && Next(st, s.core, s'.core, l, now)
    && s' == s.(core := s'.core, inbox := inbox,
                table := if l.Reload? && l.live.Some? then l.live.value else s.table,
                started := s.started || l.Startup? || l.Reload?)
  }

  /** Worker w moves from one state to another. */
  function Set(s: System, w: nat, to: Worker): System
    requires w < |s.workers|
  {
    s.(workers := s.workers[w := to])
  }

  ghost predicate SystemNext(st: Settings, s: System, s': System, a: Action, now: Time) {
    match a
    case Submit(m) => !m.PushResult? && s' == s.(inbox := s.inbox + [m])
    case Handle(l) =>
      s.inbox != [] && Carries(s.inbox[0], l) && CoreMoves(st, s, s', l, now, s.inbox[1..])
    case Discard =>
      s.inbox != [] && !s.inbox[0].PushResult? && s' == s.(inbox := s.inbox[1..])
    case Timer(l) =>
      (l.Trigger? || l.Retry? || l.Startup? || l.Mirror?) && CoreMoves(st, s, s', l, now, s.inbox)
    case Send(requests) =>
      && Next(st, s.core, s'.core, Dispatch(requests), now)
      && s' == s.(core := s'.core, work := s.work + requests, sent := s.sent + requests)
    case Take(w) =>
      && w < |s.workers| && s.workers[w].Idle? && s.work != []
      && s' == Set(s, w, Taken(s.work[0])).(work := s.work[1..])
    case LookUp(w) =>
      && w < |s.workers| && s.workers[w].Taken?
      && var q := s.workers[w].request;
         s' == if q.output in s.table then Set(s, w, Calling(q))
               else Set(s, w, Finished(q, false, Some("output instance is no longer configured")))
                    .(performed := s.performed + [q])
    case Apply(w, ok, error) =>
      && w < |s.workers| && s.workers[w].Calling?
      && var q := s.workers[w].request;
         s' == Set(s, w, Finished(q, ok, error)).(
           performed := s.performed + [q],
           remote := if ok then s.remote[q.output := q.update.state] else s.remote,
           touched := if ok then s.touched + {q.output} else s.touched)
    case Report(w) =>
      && w < |s.workers| && s.workers[w].Finished?
      && s' == Set(s, w, Idle).(inbox := s.inbox + [ResultOf(s.workers[w])])
  }

  // -- where a push can be --------------------------------------------------------

  function RequestFor(o: Name): Request -> bool { (q: Request) => q.output == o }

  function HeldFor(o: Name): Worker -> bool { (w: Worker) => !w.Idle? && w.request.output == o }

  function ResultFor(o: Name): Message -> bool { (m: Message) => m.PushResult? && m.instance == o }

  /** The number of pushes to o queued, with a worker, or reported and not yet handled. */
  function Outstanding(s: System, o: Name): nat {
    |Filter(s.work, RequestFor(o))| + |Filter(s.workers, HeldFor(o))| + |Filter(s.inbox, ResultFor(o))|
  }

  /** Each output has one outstanding push exactly when the core counts it as in flight, and none otherwise. */
  ghost predicate SingleOutstanding(s: System) {
    forall o :: Outstanding(s, o) == if o in s.core.inFlight then 1 else 0
  }

  /** A success that the core has not learned of yet. */
  ghost predicate UnlearnedSuccess(s: System, o: Name, v: bool) {
    || (exists w :: 0 <= w < |s.workers| && s.workers[w].Finished? && s.workers[w].ok
                    && s.workers[w].request.output == o && s.workers[w].request.update.state == v)
    || (exists m :: m in s.inbox && m.PushResult? && m.ok && m.instance == o && m.value == v)
  }

  /** How far the core's record of an output can be from the truth, relative to the state at the start. */
  ghost predicate RemoteKnown(s0: System, s: System, o: Name) {
    && (forall v :: UnlearnedSuccess(s, o, v) ==> o in s.touched && Get(s.remote, o) == Some(v))
    && (o in s.touched && (forall v :: !UnlearnedSuccess(s, o, v)) ==>
          Applied(s.core, o).Some? && Get(s.remote, o) == Applied(s.core, o))
    && (o !in s.touched ==>
          Get(s.remote, o) == Get(s0.remote, o) && Applied(s.core, o) == Applied(s0.core, o))
  }

  ghost predicate RemotesKnown(s0: System, s: System) {
    forall o :: RemoteKnown(s0, s, o)
  }

  /** Nothing is under way: the state the daemon starts from, whatever its tables hold. */
  ghost predicate Initial(s: System) {
    && WellIndexed(s.core.graph)
    && Coherent(s.core)
    && s.core.inFlight == {} && s.inbox == [] && s.work == []
    && (forall w :: 0 <= w < |s.workers| ==> s.workers[w].Idle?)
    && !s.started && s.sent == [] && s.performed == [] && s.touched == {}
  }

  ghost predicate Invariant(s0: System, s: System) {
    && WellIndexed(s.core.graph)
    && Coherent(s.core)
    && (s.started ==> TableAgreement(s.core))
    && SingleOutstanding(s)
    && RemotesKnown(s0, s)
  }

  // -- single outstanding push -----------------------------------------------------

  lemma {:induction false} SentOnce(sent: seq<Request>, o: Name)
    requires OnePerOutput(sent)
    ensures |Filter(sent, RequestFor(o))| == if o in Targets(sent) then 1 else 0
  {
    if sent != [] {
      var n := |sent| - 1;
      assert sent == sent[..n] + [sent[n]];
      SentOnce(sent[..n], o);
    }
  }

  /** Moving one worker changes the count of an output by the difference between its two states. */
  lemma WorkerCount(s: System, w: nat, to: Worker, o: Name)
    requires w < |s.workers|
    ensures |Filter(s.workers[w := to], HeldFor(o))| + (if HeldFor(o)(s.workers[w]) then 1 else 0)
         == |Filter(s.workers, HeldFor(o))| + (if HeldFor(o)(to) then 1 else 0)
  {
    FilterUpdate(s.workers, w, to, HeldFor(o));
  }

  lemma OutstandingAfterHandle(st: Settings, s: System, s': System, l: Label, now: Time, o: Name)
    requires s.inbox != [] && Carries(s.inbox[0], l) && CoreMoves(st, s, s', l, now, s.inbox[1..])
    requires Outstanding(s, o) == if o in s.core.inFlight then 1 else 0
    ensures Outstanding(s', o) == if o in s'.core.inFlight then 1 else 0
  {
    assert Frame(s.core, s'.core, l, now);
    FilterHead(s.inbox, ResultFor(o));
  }

  lemma OutstandingAfterSend(st: Settings, s: System, s': System, requests: seq<Request>, now: Time, o: Name)
    requires SystemNext(st, s, s', Send(requests), now)
    requires Outstanding(s, o) == if o in s.core.inFlight then 1 else 0
    ensures Outstanding(s', o) == if o in s'.core.inFlight then 1 else 0
  {
    assert Sends(s.core, requests, now);
    FilterConcat(s.work, requests, RequestFor(o));
    SentOnce(requests, o);
    assert o in Targets(requests) ==> Ready(s.core, now, o);
  }

  lemma OutstandingAfterTake(st: Settings, s: System, s': System, w: nat, now: Time, o: Name)
    requires SystemNext(st, s, s', Take(w), now)
    ensures Outstanding(s', o) == Outstanding(s, o)
  {
    FilterHead(s.work, RequestFor(o));
    WorkerCount(s, w, Taken(s.work[0]), o);
  }

  lemma OutstandingAfterReport(st: Settings, s: System, s': System, w: nat, now: Time, o: Name)
    requires SystemNext(st, s, s', Report(w), now)
    ensures Outstanding(s', o) == Outstanding(s, o)
  {
    WorkerCount(s, w, Idle, o);
    FilterConcat(s.inbox, [ResultOf(s.workers[w])], ResultFor(o));
    FilterOne(ResultOf(s.workers[w]), ResultFor(o));
  }

  /** A worker that keeps its request keeps the count. */
  lemma OutstandingSame(s: System, s': System, w: nat, to: Worker, o: Name)
    requires w < |s.workers| && !s.workers[w].Idle? && !to.Idle? && to.request == s.workers[w].request
    requires s'.workers == s.workers[w := to] && s'.work == s.work && s'.inbox == s.inbox
    ensures Outstanding(s', o) == Outstanding(s, o)
  {
    WorkerCount(s, w, to, o);
  }

  lemma OutstandingAfterWorker(st: Settings, s: System, s': System, a: Action, now: Time, o: Name)
    requires a.Take? || a.LookUp? || a.Apply? || a.Report?
    requires SystemNext(st, s, s', a, now)
    ensures Outstanding(s', o) == Outstanding(s, o) && s'.core == s.core
  {
    if a.Take? {
      OutstandingAfterTake(st, s, s', a.worker, now, o);
    } else if a.Report? {
      OutstandingAfterReport(st, s, s', a.worker, now, o);
    } else {
      OutstandingSame(s, s', a.worker, s'.workers[a.worker], o);
    }
  }

  lemma SingleOutstandingAt(st: Settings, s: System, s': System, a: Action, now: Time, o: Name)
    requires SystemNext(st, s, s', a, now)
    requires Outstanding(s, o) == if o in s.core.inFlight then 1 else 0
    ensures Outstanding(s', o) == if o in s'.core.inFlight then 1 else 0
  {
    match a
    case Submit(m) => FilterConcat(s.inbox, [m], ResultFor(o)); FilterOne(m, ResultFor(o));
    case Handle(l) => OutstandingAfterHandle(st, s, s', l, now, o);
    case Discard => FilterHead(s.inbox, ResultFor(o));
    case Timer(l) => assert Frame(s.core, s'.core, l, now);
    case Send(requests) => OutstandingAfterSend(st, s, s', requests, now, o);
    case _ => OutstandingAfterWorker(st, s, s', a, now, o);
  }

  lemma SingleOutstandingKept(st: Settings, s: System, s': System, a: Action, now: Time)
    requires SystemNext(st, s, s', a, now)
    requires SingleOutstanding(s)
    ensures SingleOutstanding(s')
  {
    forall o ensures Outstanding(s', o) == if o in s'.core.inFlight then 1 else 0 {
      SingleOutstandingAt(st, s, s', a, now, o);
    }
  }

  /** A worker holding the push to o is the only place it can be. */
  lemma HolderAlone(s: System, o: Name, w: nat)
    requires Outstanding(s, o) <= 1
    requires w < |s.workers| && HeldFor(o)(s.workers[w])
    ensures forall v :: 0 <= v < |s.workers| && v != w ==> !HeldFor(o)(s.workers[v])
    ensures forall q :: q in s.work ==> q.output != o
    ensures forall m :: m in s.inbox ==> !ResultFor(o)(m)
  {
    FilterMember(s.workers, HeldFor(o), s.workers[w]);
    forall v | 0 <= v < |s.workers| && v != w ensures !HeldFor(o)(s.workers[v]) {
      if HeldFor(o)(s.workers[v]) {
        FilterTwo(s.workers, if v < w then v else w, if v < w then w else v, HeldFor(o));
      }
    }
    forall q | q in s.work ensures q.output != o { FilterMember(s.work, RequestFor(o), q); }
    forall m | m in s.inbox ensures !ResultFor(o)(m) { FilterMember(s.inbox, ResultFor(o), m); }
  }

  /** A result for o at the head of the queue is the only place its push can be. */
  lemma HeadAlone(s: System, o: Name)
    requires Outstanding(s, o) <= 1
    requires s.inbox != [] && ResultFor(o)(s.inbox[0])
    ensures forall v :: 0 <= v < |s.workers| ==> !HeldFor(o)(s.workers[v])
    ensures forall q :: q in s.work ==> q.output != o
    ensures forall m :: m in s.inbox[1..] ==> !ResultFor(o)(m)
  {
    FilterHead(s.inbox, ResultFor(o));
    forall v | 0 <= v < |s.workers| ensures !HeldFor(o)(s.workers[v]) {
      FilterMember(s.workers, HeldFor(o), s.workers[v]);
    }
    forall q | q in s.work ensures q.output != o { FilterMember(s.work, RequestFor(o), q); }
    forall m | m in s.inbox[1..] ensures !ResultFor(o)(m) { FilterMember(s.inbox[1..], ResultFor(o), m); }
  }

  // -- what the core knows of the remotes ----------------------------------------------

  /** The head of the queue is handled: a success is recorded as applied, anything else leaves the record alone. */
  lemma RemoteKnownAfterPop(s0: System, s: System, s': System, o: Name)
    requires s.inbox != [] && s'.inbox == s.inbox[1..] && s'.workers == s.workers
    requires s'.remote == s.remote && s'.touched == s.touched
    requires Applied(s'.core, o) == if ResultFor(o)(s.inbox[0]) && s.inbox[0].ok
                                    then Some(s.inbox[0].value) else Applied(s.core, o)
    requires Outstanding(s, o) <= 1
    requires RemoteKnown(s0, s, o)
    ensures RemoteKnown(s0, s', o)
  {
    var m := s.inbox[0];
    assert s.inbox == [m] + s.inbox[1..];
    if ResultFor(o)(m) && m.ok {
      assert m in s.inbox;
      assert UnlearnedSuccess(s, o, m.value);
      HeadAlone(s, o);
      assert forall v :: !UnlearnedSuccess(s', o, v);
    } else {
      assert forall v :: UnlearnedSuccess(s', o, v) <==> UnlearnedSuccess(s, o, v);
    }
  }

  lemma RemoteKnownAfterHandle(st: Settings, s0: System, s: System, s': System, l: Label, now: Time, o: Name)
    requires SystemNext(st, s, s', Handle(l), now)
    requires SingleOutstanding(s)
    requires RemoteKnown(s0, s, o)
    ensures RemoteKnown(s0, s', o)
  {
    assert Frame(s.core, s'.core, l, now);
    assert Outstanding(s, o) <= 1;
    RemoteKnownAfterPop(s0, s, s', o);
  }

  /** Nothing that bears on what is known of o moves. */
  lemma RemoteKnownSame(s0: System, s: System, s': System, o: Name)
    requires RemoteKnown(s0, s, o)
    requires Get(s'.remote, o) == Get(s.remote, o) && (o in s'.touched <==> o in s.touched)
    requires Applied(s'.core, o) == Applied(s.core, o)
    requires forall v :: UnlearnedSuccess(s', o, v) <==> UnlearnedSuccess(s, o, v)
    ensures RemoteKnown(s0, s', o)
  {
  }

  lemma RemoteKnownAfterApply(st: Settings, s0: System, s: System, s': System, a: Action, now: Time, o: Name)
    requires a.Apply?
    requires SystemNext(st, s, s', a, now)
    requires SingleOutstanding(s)
    requires RemoteKnown(s0, s, o)
    ensures RemoteKnown(s0, s', o)
  {
    var w := a.worker;
    var q := s.workers[w].request;
    if q.output == o && a.ok {
      assert Outstanding(s, o) <= 1;
      HolderAlone(s, o, w);
      assert s'.workers[w].Finished?;
      assert UnlearnedSuccess(s', o, q.update.state);
    } else {
      SameUnlearned(s, s', w, o);
      RemoteKnownSame(s0, s, s', o);
    }
  }

  /** A worker that does not finish with a success for o leaves the unlearned successes of o alone. */
  lemma SameUnlearned(s: System, s': System, w: nat, o: Name)
    requires w < |s.workers| == |s'.workers|
    requires forall v :: 0 <= v < |s.workers| && v != w ==> s'.workers[v] == s.workers[v]
    requires !s.workers[w].Finished?
    requires s'.workers[w].Finished? ==> !(s'.workers[w].ok && s'.workers[w].request.output == o)
    requires s'.inbox == s.inbox
    ensures forall v :: UnlearnedSuccess(s', o, v) <==> UnlearnedSuccess(s, o, v)
  {
  }

  lemma RemoteKnownAfterReport(st: Settings, s0: System, s: System, s': System, w: nat, now: Time, o: Name)
    requires SystemNext(st, s, s', Report(w), now)
    requires RemoteKnown(s0, s, o)
    ensures RemoteKnown(s0, s', o)
  {
    var m := ResultOf(s.workers[w]);
    assert m in s'.inbox;
    forall v ensures UnlearnedSuccess(s', o, v) <==> UnlearnedSuccess(s, o, v) {
      assert forall u :: 0 <= u < |s.workers| && u != w ==> s'.workers[u] == s.workers[u];
    }
    RemoteKnownSame(s0, s, s', o);
  }

  lemma RemoteKnownAfterInternal(st: Settings, s0: System, s: System, s': System, l: Label, now: Time, o: Name)
    requires !l.Result? && Next(st, s.core, s'.core, l, now)
    requires s'.workers == s.workers && s'.inbox == s.inbox && s'.remote == s.remote && s'.touched == s.touched
    requires RemoteKnown(s0, s, o)
    ensures RemoteKnown(s0, s', o)
  {
    assert Frame(s.core, s'.core, l, now);
    RemoteKnownSame(s0, s, s', o);
  }

  lemma SameResults(s: System, s': System, o: Name)
    requires s'.workers == s.workers
    requires forall m: Message :: m.PushResult? ==> (m in s'.inbox <==> m in s.inbox)
    ensures forall v :: UnlearnedSuccess(s', o, v) <==> UnlearnedSuccess(s, o, v)
  {
  }

  lemma RemoteKnownAfterQuiet(st: Settings, s0: System, s: System, s': System, a: Action, now: Time, o: Name)
    requires a.Submit? || a.Discard? || a.Take? || a.LookUp?
    requires SystemNext(st, s, s', a, now)
    requires RemoteKnown(s0, s, o)
    ensures RemoteKnown(s0, s', o)
  {
    if a.Take? || a.LookUp? {
      SameUnlearned(s, s', a.worker, o);
    } else {
      QuietInbox(st, s, s', a, now);
      SameResults(s, s', o);
    }
    RemoteKnownSame(s0, s, s', o);
  }

  /** Submitting or discarding leaves the results in the inbox alone. */
  lemma QuietInbox(st: Settings, s: System, s': System, a: Action, now: Time)
    requires (a.Submit? || a.Discard?) && SystemNext(st, s, s', a, now)
    ensures forall m: Message :: m.PushResult? ==> (m in s'.inbox <==> m in s.inbox)
  {
    assert a.Discard? ==> s.inbox == [s.inbox[0]] + s.inbox[1..];
  }

  lemma RemotesKnownKept(st: Settings, s0: System, s: System, s': System, a: Action, now: Time)
    requires SystemNext(st, s, s', a, now)
    requires SingleOutstanding(s)
    requires RemotesKnown(s0, s)
    ensures RemotesKnown(s0, s')
  {
    forall o ensures RemoteKnown(s0, s', o) {
      match a
      case Handle(l) => RemoteKnownAfterHandle(st, s0, s, s', l, now, o);
      case Apply(_, _, _) => RemoteKnownAfterApply(st, s0, s, s', a, now, o);
      case Report(w) => RemoteKnownAfterReport(st, s0, s, s', w, now, o);
      case Timer(l) => RemoteKnownAfterInternal(st, s0, s, s', l, now, o);
      case Send(requests) => RemoteKnownAfterInternal(st, s0, s, s', Dispatch(requests), now, o);
      case _ => RemoteKnownAfterQuiet(st, s0, s, s', a, now, o);
    }
  }

  // -- every run ---------------------------------------------------------------------------

  datatype Move = Move(action: Action, now: Time)

  ghost predicate Run(st: Settings, run: seq<System>, moves: seq<Move>) {
    && |run| == |moves| + 1
    && forall k :: 0 <= k < |moves| ==> SystemNext(st, run[k], run[k + 1], moves[k].action, moves[k].now)
  }

  lemma RunPrefix(st: Settings, run: seq<System>, moves: seq<Move>)
    requires Run(st, run, moves) && moves != []
    ensures Run(st, run[..|moves|], moves[..|moves| - 1])
  {
  }

  lemma InitialInvariant(s: System)
    requires Initial(s)
    ensures Invariant(s, s)
  {
    forall o ensures Outstanding(s, o) == 0 {
      if Filter(s.workers, HeldFor(o)) != [] {
        FilterMember(s.workers, HeldFor(o), Filter(s.workers, HeldFor(o))[0]);
      }
    }
    forall o ensures RemoteKnown(s, s, o) {}
  }

  lemma InvariantKept(st: Settings, s0: System, s: System, s': System, a: Action, now: Time)
    requires SystemNext(st, s, s', a, now)
    requires Invariant(s0, s)
    ensures Invariant(s0, s')
  {
    SingleOutstandingKept(st, s, s', a, now);
    RemotesKnownKept(st, s0, s, s', a, now);
    if a.Handle? || a.Timer? || a.Send? {
      var l := if a.Send? then Dispatch(a.requests) else a.act;
      CoherenceKept(st, s.core, s'.core, l, now);
      CoreInvariantKept(st, s.core, s'.core, l, now);
    }
  }

  lemma CoreInvariantKept(st: Settings, s: State, s': State, l: Label, now: Time)
    requires Next(st, s, s', l, now) && WellIndexed(s.graph)
    ensures WellIndexed(s'.graph)
    ensures TableAgreement(s) || l.Startup? || l.Reload? ==> TableAgreement(s')
  {
    if TableAgreement(s) || l.Startup? || l.Reload? {
      TableAgreementKept(st, s, s', l, now);
    }
  }

  /** Every reachable state satisfies the invariant, for every interleaving and every number of workers. */
  lemma {:induction false} RunInvariant(st: Settings, run: seq<System>, moves: seq<Move>)
    requires Run(st, run, moves) && Initial(run[0])
    ensures Invariant(run[0], run[|moves|])
  {
    if moves == [] {
      InitialInvariant(run[0]);
    } else {
      var n := |moves| - 1;
      RunPrefix(st, run, moves);
      RunInvariant(st, run[..n + 1], moves[..n]);
      InvariantKept(st, run[0], run[n], run[n + 1], moves[n].action, moves[n].now);
    }
  }

  /** An output at rest: in the graph, with a plugin, with no pending row and no push in flight. */
  ghost predicate AtRest(s: System, o: Name) {
    && o in s.core.graph.byOutput && o in s.core.live
    && o !in s.core.pending && o !in s.core.inFlight
  }

  /** The persisted last_applied of the output was true of its remote when the daemon started. */
  ghost predicate Truthful(s: System, o: Name) {
    Get(s.remote, o) == Applied(s.core, o)
  }

  /** Quiescent agreement, exactly: in every run, an output at rest shows the OR of the latches of its rules if and only
      if its persisted last_applied was truthful at the start or some apply to it has succeeded since. */
  lemma QuiescentAgreement(st: Settings, run: seq<System>, moves: seq<Move>, o: Name)
    requires Run(st, run, moves) && Initial(run[0])
    requires run[|moves|].started && AtRest(run[|moves|], o)
    ensures
      var s := run[|moves|];
      Get(s.remote, o) == Some(RenderedBy(s.core.graph, o) * Latched(s.core.cache) != {})
      <==> Truthful(run[0], o) || o in s.touched
  {
    RunInvariant(st, run, moves);
    var s := run[|moves|];
    DesiredIsOr(s.core.graph, o, Latched(s.core.cache));
    assert Agreed(s.core, o);
    assert Outstanding(s, o) == 0;
    assert RemoteKnown(run[0], s, o);
    forall v ensures !UnlearnedSuccess(s, o, v) {
      forall w | 0 <= w < |s.workers| ensures !HeldFor(o)(s.workers[w]) {
        FilterMember(s.workers, HeldFor(o), s.workers[w]);
      }
      forall m | m in s.inbox ensures !ResultFor(o)(m) {
        FilterMember(s.inbox, ResultFor(o), m);
      }
    }
  }

  /** Started from truthful tables, such as empty ones, every output at rest agrees with its rules. */
  lemma RemoteIsOrOfLatches(st: Settings, run: seq<System>, moves: seq<Move>, o: Name)
    requires Run(st, run, moves) && Initial(run[0])
    requires forall x :: Applied(run[0].core, x).Some? ==> Truthful(run[0], x)
    requires run[|moves|].started && AtRest(run[|moves|], o)
    ensures
      var s := run[|moves|];
      Get(s.remote, o) == Some(exists n :: n in s.core.graph.rules && o in s.core.graph.rules[n].outputs
                                           && LatchIn(s.core.rows, n).state)
  {
    RunInvariant(st, run, moves);
    var s := run[|moves|];
    QuiescentAgreement(st, run, moves, o);
    assert Agreed(s.core, o);
    assert RemoteKnown(run[0], s, o);
    var driving := RenderedBy(s.core.graph, o) * Latched(s.core.cache);
    forall n ensures n in driving <==> n in s.core.graph.rules && o in s.core.graph.rules[n].outputs
                                       && LatchIn(s.core.rows, n).state {
      assert LatchIn(s.core.cache, n) == LatchIn(s.core.rows, n);
    }
  }

  /** Why truthfulness matters: a push that fails while last_applied already equals the desired state leaves no row, so
      the output is at rest whatever its remote shows. This is how a forced startup push is dropped. */
  lemma FailedForcedPushIsDropped(st: Settings, s: State, s': State, o: Name, v: bool, error: Option<string>, now: Time)
    requires Next(st, s, s', Result(o, v, false, error), now)
    requires Applied(s, o) == Some(Desired(s, o))
    ensures o !in s'.pending && o !in s'.inFlight
    ensures Applied(s', o) == Applied(s, o) && Desired(s', o) == Desired(s, o)
  {
    var l := Result(o, v, false, error);
    assert Get(s'.pending, o) == RowAfter(st, s, s', l, now, o);
    forall n ensures n in Latched(s'.cache) <==> n in Latched(s.cache) {
      assert LatchIn(s'.cache, n) == LatchAfter(s, l, now, n);
    }
    assert Latched(s'.cache) == Latched(s.cache);
  }

  // -- pushes to one output are performed in dispatch order -----------------------------------

  /** A request for o that has been dispatched and not yet performed. */
  ghost predicate Open(s: System, o: Name, q: Request) {
    && q.output == o
    && (q in s.work
        || exists w :: 0 <= w < |s.workers| && (s.workers[w].Taken? || s.workers[w].Calling?)
                       && s.workers[w].request == q)
  }

  /** The requests performed for o are those dispatched for it, in the same order, but for one still open. */
  ghost predicate PerformedInOrder(s: System, o: Name) {
    && (forall q :: Open(s, o, q) ==>
          Filter(s.sent, RequestFor(o)) == Filter(s.performed, RequestFor(o)) + [q])
    && ((forall q :: !Open(s, o, q)) ==>
          Filter(s.sent, RequestFor(o)) == Filter(s.performed, RequestFor(o)))
  }

  /** Sending one request for an output that has none outstanding. */
  lemma InOrderAfterFirst(s: System, s': System, requests: seq<Request>, o: Name)
    requires s'.work == s.work + requests && s'.sent == s.sent + requests
    requires s'.workers == s.workers && s'.performed == s.performed
    requires Outstanding(s, o) == 0 && |Filter(requests, RequestFor(o))| == 1
    requires PerformedInOrder(s, o)
    ensures PerformedInOrder(s', o)
  {
    FilterConcat(s.sent, requests, RequestFor(o));
    NoneOpen(s, o);
    var only := Filter(requests, RequestFor(o));
    FilterMember(requests, RequestFor(o), only[0]);
    forall q | Open(s', o, q) ensures q == only[0] {
      assert !Open(s, o, q);
      FilterMember(requests, RequestFor(o), q);
    }
    assert Open(s', o, only[0]);
    assert only == [only[0]];
  }

  lemma InOrderAfterNone(s: System, s': System, requests: seq<Request>, o: Name)
    requires s'.work == s.work + requests && s'.sent == s.sent + requests
    requires s'.workers == s.workers && s'.performed == s.performed
    requires Filter(requests, RequestFor(o)) == []
    requires PerformedInOrder(s, o)
    ensures PerformedInOrder(s', o)
  {
    FilterConcat(s.sent, requests, RequestFor(o));
    forall q ensures Open(s', o, q) <==> Open(s, o, q) {
      FilterMember(requests, RequestFor(o), q);
    }
  }

  lemma InOrderAfterSend(st: Settings, s: System, s': System, requests: seq<Request>, now: Time, o: Name)
    requires SystemNext(st, s, s', Send(requests), now)
    requires SingleOutstanding(s) && PerformedInOrder(s, o)
    ensures PerformedInOrder(s', o)
  {
    assert Sends(s.core, requests, now);
    SentOnce(requests, o);
    if o in Targets(requests) {
      assert Ready(s.core, now, o) && Outstanding(s, o) == 0;
      InOrderAfterFirst(s, s', requests, o);
    } else {
      InOrderAfterNone(s, s', requests, o);
    }
  }

  lemma NoneOpen(s: System, o: Name)
    requires Outstanding(s, o) == 0
    ensures forall q :: !Open(s, o, q)
  {
    forall q | Open(s, o, q) ensures false {
      FilterMember(s.work, RequestFor(o), q);
      if w :| 0 <= w < |s.workers| && HeldFor(o)(s.workers[w]) {
        FilterMember(s.workers, HeldFor(o), s.workers[w]);
      }
    }
  }

  lemma InOrderAfterTake(st: Settings, s: System, s': System, w: nat, now: Time, o: Name)
    requires SystemNext(st, s, s', Take(w), now)
    requires PerformedInOrder(s, o)
    ensures PerformedInOrder(s', o)
  {
    assert s.work == [s.work[0]] + s.work[1..];
    assert s'.workers[w] == Taken(s.work[0]);
    forall q ensures Open(s', o, q) <==> Open(s, o, q) {
      assert forall v :: 0 <= v < |s.workers| && v != w ==> s'.workers[v] == s.workers[v];
    }
  }

  /** Worker w performs its request. */
  lemma InOrderAfterPerform(s: System, s': System, w: nat, to: Worker, o: Name)
    requires w < |s.workers| && (s.workers[w].Taken? || s.workers[w].Calling?) && to.Finished?
    requires s'.workers == s.workers[w := to] && s'.work == s.work && s'.sent == s.sent
    requires s'.performed == s.performed + [s.workers[w].request]
    requires Outstanding(s, o) <= 1 && PerformedInOrder(s, o)
    ensures PerformedInOrder(s', o)
  {
    var q := s.workers[w].request;
    FilterConcat(s.performed, [q], RequestFor(o));
    FilterOne(q, RequestFor(o));
    if q.output == o {
      NoneOpenAfter(s, s', w, to, o);
      assert Open(s, o, q);
    } else {
      SameOpenAfter(s, s', w, to, o);
    }
  }

  /** Once the worker has performed the push to o, none is open. */
  lemma NoneOpenAfter(s: System, s': System, w: nat, to: Worker, o: Name)
    requires w < |s.workers| && HeldFor(o)(s.workers[w]) && to.Finished? && Outstanding(s, o) <= 1
    requires s'.workers == s.workers[w := to] && s'.work == s.work
    ensures forall r :: !Open(s', o, r)
  {
    HolderAlone(s, o, w);
    forall v | 0 <= v < |s'.workers| && (s'.workers[v].Taken? || s'.workers[v].Calling?)
      ensures s'.workers[v].request.output != o
    {
      assert s'.workers[v] == s.workers[v];
    }
  }

  /** A push to another output leaves what is open for o as it was. */
  lemma SameOpenAfter(s: System, s': System, w: nat, to: Worker, o: Name)
    requires w < |s.workers| && !s.workers[w].Idle? && s.workers[w].request.output != o && to.Finished?
    requires s'.workers == s.workers[w := to] && s'.work == s.work
    ensures forall r :: Open(s', o, r) <==> Open(s, o, r)
  {
    forall r ensures Open(s', o, r) <==> Open(s, o, r) {
      assert forall v :: 0 <= v < |s.workers| && v != w ==> s'.workers[v] == s.workers[v];
    }
  }

  /** Nothing that is open, sent or performed moves. */
  lemma InOrderSame(s: System, s': System, o: Name)
    requires PerformedInOrder(s, o)
    requires s'.work == s.work && s'.sent == s.sent && s'.performed == s.performed && |s'.workers| == |s.workers|
    requires forall w :: 0 <= w < |s.workers| ==>
               || s'.workers[w] == s.workers[w]
               || (s.workers[w].Taken? && s'.workers[w] == Calling(s.workers[w].request))
               || (s.workers[w].Finished? && s'.workers[w].Idle?)
    ensures PerformedInOrder(s', o)
  {
    forall q ensures Open(s', o, q) <==> Open(s, o, q) {
      if w :| 0 <= w < |s.workers| && (s.workers[w].Taken? || s.workers[w].Calling?) && s.workers[w].request == q {
        assert s'.workers[w].request == q;
      }
    }
  }

  lemma InOrderKept(st: Settings, s: System, s': System, a: Action, now: Time, o: Name)
    requires SystemNext(st, s, s', a, now)
    requires SingleOutstanding(s) && PerformedInOrder(s, o)
    ensures PerformedInOrder(s', o)
  {
    match a
    case Send(requests) => InOrderAfterSend(st, s, s', requests, now, o);
    case Take(w) => InOrderAfterTake(st, s, s', w, now, o);
    case LookUp(w) =>
      if s.workers[w].request.output in s.table {
        InOrderSame(s, s', o);
      } else {
        assert Outstanding(s, o) <= 1;
        InOrderAfterPerform(s, s', w, s'.workers[w], o);
      }
    case Apply(w, _, _) =>
      assert Outstanding(s, o) <= 1;
      InOrderAfterPerform(s, s', w, s'.workers[w], o);
    case _ => InOrderSame(s, s', o);
  }

  /** In every run, however many workers there are, the pushes performed for an output are exactly those dispatched for
      it, in dispatch order, less at most the one still open. */
  lemma {:induction false} RunInOrder(st: Settings, run: seq<System>, moves: seq<Move>, o: Name)
    requires Run(st, run, moves) && Initial(run[0])
    ensures PerformedInOrder(run[|moves|], o)
  {
    if moves == [] {
      InitialInvariant(run[0]);
      assert Outstanding(run[0], o) == 0;
      NoneOpen(run[0], o);
    } else {
      var n := |moves| - 1;
      RunPrefix(st, run, moves);
      RunInvariant(st, run[..n + 1], moves[..n]);
      RunInOrder(st, run[..n + 1], moves[..n], o);
      InOrderKept(st, run[n], run[n + 1], moves[n].action, moves[n].now, o);
    }
  }
}
