/** The core thread as a transition system over values: what each handler of the engine does to the latches, the
    applied values, the pending-push table and the in-flight set (src/noti_mapper/engine.py).

    Every label is described point by point: the latch of each rule and the row of each output after the step are
    functions of the state before it. The class in Engine.dfy is proved to take exactly these steps. */
module Core {
  import opened Base
  import opened Rules
  import opened Records
  import opened Reconcile

  /** retry_initial_seconds and retry_max_seconds. */
  datatype Settings = Settings(retryInitial: Time, retryMax: Time)

  /** What an output is asked to render. */
  datatype Update = Update(
    state: bool, cause: string, detail: string, triggerCount: nat, rules: set<Name>, since: Option<Time>)

  datatype Request = Request(output: Name, update: Update)

  /** cache is the in-memory copy of the latch table rows; live is the set of outputs with a plugin. */
  datatype State = State(
    graph: Graph,
    cache: map<Name, Latch>,
    rows: map<Name, Latch>,
    outputs: map<Name, OutputState>,
    pending: map<Name, Push>,
    inFlight: set<Name>,
    live: set<Name>)

  function Applied(s: State, output: Name): Option<bool> {
    if output in s.outputs then s.outputs[output].lastApplied else None
  }

  function Desired(s: State, output: Name): bool {
    DesiredOutputState(s.graph, output, Latched(s.cache))
  }

  // -- labels ------------------------------------------------------------------

  datatype Label =
    | Trigger(input: Name, event: Event)
    | Unlatch(output: Name)
    | Result(output: Name, value: bool, ok: bool, error: Option<string>)
    | Reload(graph: Graph, live: Option<set<Name>>)
    | Retry(output: Name, report: RemoteState)
    | Startup(downtime: map<Name, seq<Event>>, reports: map<Name, RemoteState>)
    | Dispatch(sent: seq<Request>)
    | Mirror

  // -- latches -----------------------------------------------------------------

  function Triggered(l: Latch, cause: Name, e: Event): Latch {
    l.(state := true, setAt := Some(e.occurredAt), triggerCount := l.triggerCount + 1,
       lastCause := Some(cause), lastDetail := Some(e.summary))
  }

  function Unlatched(l: Latch, cause: Name, now: Time): Latch {
    l.(state := false, clearedAt := Some(now), lastCause := Some(cause))
  }

  function Reconciled(l: Latch, o: Outcome, extra: nat): Latch {
    l.(state := o.state, setAt := o.setAt, clearedAt := o.clearedAt, triggerCount := l.triggerCount + extra)
  }

  function Times(events: seq<Event>): seq<Time> {
    seq(|events|, i requires 0 <= i < |events| => events[i].occurredAt)
  }

  /** The times of the downtime events of the listed inputs, input by input. */
  function DowntimeTimes(downtime: map<Name, seq<Event>>, inputs: seq<Name>): seq<Time> {
    if inputs == [] then []
    else
      var last := inputs[|inputs| - 1];
      DowntimeTimes(downtime, inputs[..|inputs| - 1]) + if last in downtime then Times(downtime[last]) else []
  }

  /** The reports of the listed outputs; one that was not reached reports nothing. */
  function ReportsFor(reports: map<Name, RemoteState>, outputs: seq<Name>): seq<RemoteState> {
    if outputs == [] then []
    else
      var last := outputs[|outputs| - 1];
      ReportsFor(reports, outputs[..|outputs| - 1]) + if last in reports then [reports[last]] else []
  }

  /** A latch settled at startup from the downtime events of its inputs and the reports of its outputs. */
  ghost function StartupLatch(
    l: Latch, rule: Rule, downtime: map<Name, seq<Event>>, reports: map<Name, RemoteState>, now: Time): Latch
  {
    var times := DowntimeTimes(downtime, rule.inputs);
    Reconciled(l, Resolve(now, l, MaxTime(times), ReportsFor(reports, rule.outputs)), |times|)
  }

  /** A latch settled by the report of one output that answered late. */
  ghost function RetryLatch(l: Latch, report: RemoteState, now: Time): Latch {
    Reconciled(l, Resolve(now, l, None, [report]), 0)
  }

  /** The cached latch of rule n after the step. */
  ghost function LatchAfter(s: State, l: Label, now: Time, n: Name): Latch {
    var c := LatchIn(s.cache, n);
    match l
    case Trigger(i, e) => if n in TriggeredBy(s.graph, i) then Triggered(c, i, e) else c
    case Unlatch(o) => if n in RenderedBy(s.graph, o) && c.state then Unlatched(c, o, now) else c
    case Reload(_, _) => LatchIn(s.rows, n)
    case Retry(o, report) =>
      if n in RenderedBy(s.graph, o) then RetryLatch(c, report, now) else c
    case Startup(downtime, reports) =>
      if n in s.graph.rules then StartupLatch(c, s.graph.rules[n], downtime, reports, now) else c
    case Result(_, _, _, _) => c
    case Dispatch(_) => c
    case Mirror => c
  }

  // -- pending pushes ----------------------------------------------------------

  /** The delay before the next attempt once this many attempts have failed. */
  function Backoff(st: Settings, attempts: nat): Time {
    var delay := st.retryInitial * Pow(2, if attempts == 0 then 0 else attempts - 1);
    if delay > st.retryMax then st.retryMax else delay
  }

  /** The row that makes the table agree with what an output should be. */
  function SyncRow(desired: bool, applied: Option<bool>, existing: Option<Push>, now: Time, force: bool): Option<Push> {
    if !force && applied == Some(desired) then None
    else if !force && existing.Some? && existing.value.target == desired then existing
    else Some(Push(desired, 0, now, None))
  }

  /** The outputs whose row the step re-synchronises. */
  ghost function Resynced(s: State, l: Label): set<Name> {
    match l
    case Trigger(i, _) => Affected(s.graph, TriggeredBy(s.graph, i))
    case Unlatch(o) =>
      if RenderedBy(s.graph, o) * Latched(s.cache) == {} then {} else Affected(s.graph, RenderedBy(s.graph, o))
    case Result(o, _, _, _) => {o}
    case Reload(g, _) => s.graph.byOutput.Keys + g.byOutput.Keys
    case Retry(o, _) => Affected(s.graph, RenderedBy(s.graph, o))
    case Startup(_, _) => s.graph.byOutput.Keys
    case Dispatch(_) => {}
    case Mirror => {}
  }

  /** A row that a dispatch at this moment acts on. */
  predicate Ready(s: State, now: Time, o: Name) {
    o in s.pending && s.pending[o].due <= now && o !in s.inFlight
  }

  function FailureRow(st: Settings, existing: Option<Push>, value: bool, error: Option<string>, now: Time): Push {
    var attempts := if existing.None? then 1 else existing.value.attempts + 1;
    Push(value, attempts, now + Backoff(st, attempts), error)
  }

  /** The row of output o before any re-synchronisation. */
  function RowBetween(st: Settings, s: State, l: Label, now: Time, o: Name): Option<Push> {
    if l.Result? && !l.ok && o == l.output then Some(FailureRow(st, Get(s.pending, o), l.value, l.error, now))
    else if l.Dispatch? && Ready(s, now, o) then
      if o in s.live then Some(s.pending[o].(target := Desired(s, o))) else None
    else Get(s.pending, o)
  }

  ghost function RowAfter(st: Settings, s: State, s': State, l: Label, now: Time, o: Name): Option<Push> {
    var row := RowBetween(st, s, l, now, o);
    if o in Resynced(s, l) then SyncRow(Desired(s', o), Applied(s', o), row, now, l.Startup?) else row
  }

  // -- dispatch ------------------------------------------------------------------

  /** The rules that currently drive an output true. */
  function Driving(s: State, output: Name): set<Name> {
    RenderedBy(s.graph, output) * Latched(s.cache)
  }

  /** The latched ones among the rules, in the order listed. */
  function DrivingList(cache: map<Name, Latch>, rules: seq<Rule>): seq<Name> {
    if rules == [] then []
    else
      var last := rules[|rules| - 1].name;
      DrivingList(cache, rules[..|rules| - 1]) + if LatchIn(cache, last).state then [last] else []
  }

  function SumCounts(cache: map<Name, Latch>, names: seq<Name>): nat {
    if names == [] then 0
    else SumCounts(cache, names[..|names| - 1]) + LatchIn(cache, names[|names| - 1]).triggerCount
  }

  predicate IsNewer(candidate: Option<Time>, current: Option<Time>) {
    candidate.Some? && (current.None? || candidate.value > current.value)
  }

  /** The update describes the current state: the triggers of all driving rules, and the cause, detail and time of the
      one set most recently, the first listed of several. */
  ghost predicate Describes(s: State, output: Name, u: Update) {
    var list := DrivingList(s.cache, RulesFor(s.graph.byOutput, output));
    && u.state == Desired(s, output)
    && u.rules == (if u.state then Driving(s, output) else {})
    && u.triggerCount == (if u.state then SumCounts(s.cache, list) else 0)
    && (u.state ==> exists i :: NewestDriver(s.cache, list, u, i))
    && (!u.state ==> u.since == None && u.cause == "" && u.detail == "")
  }

  /** The update is about the i-th driving rule: it is newer than every one before it, and none after it is newer. */
  ghost predicate NewestDriver(cache: map<Name, Latch>, list: seq<Name>, u: Update, i: int) {
    && 0 <= i < |list|
    && AboutLatch(u, LatchIn(cache, list[i]))
    && (forall j :: 0 <= j < i ==> IsNewer(LatchIn(cache, list[i]).setAt, LatchIn(cache, list[j]).setAt))
    && (forall j :: i < j < |list| ==> !IsNewer(LatchIn(cache, list[j]).setAt, LatchIn(cache, list[i]).setAt))
  }

  predicate AboutLatch(u: Update, l: Latch) {
    && u.since == l.setAt
    && u.cause == (if l.lastCause.Some? then l.lastCause.value.text else "")
    && u.detail == (if l.lastDetail.Some? then l.lastDetail.value else "")
  }

  /** The outputs that requests are for. */
  function Targets(sent: seq<Request>): set<Name> {
    set q | q in sent :: q.output
  }

  predicate OnePerOutput(sent: seq<Request>) {
    forall i, j :: 0 <= i < j < |sent| ==> sent[i].output != sent[j].output
  }

  /** The requests go out by due time and then by name. */
  predicate InDueOrder(s: State, sent: seq<Request>) {
    forall i, j :: 0 <= i < j < |sent| ==> PushBefore(s.pending, sent[i].output, sent[j].output)
  }

  /** Exactly the due outputs that are live and not in flight are sent, once each, in order, with the state they should
      have now. */
  ghost predicate Sends(s: State, sent: seq<Request>, now: Time) {
    && OnePerOutput(sent) && InDueOrder(s, sent)
    && (forall o :: o in Targets(sent) <==> Ready(s, now, o) && o in s.live)
    && (forall q :: q in sent ==> Describes(s, q.output, q.update))
  }

  // -- the step relation -----------------------------------------------------------

  ghost predicate Enabled(s: State, l: Label, now: Time) {
    match l
    case Reload(g, _) => WellIndexed(g)
    case Retry(o, report) => o in s.live && !report.belief.Unknown?
    case Dispatch(sent) => Sends(s, sent, now)
    case _ => true
  }

  /** Everything but the latches and the rows. */
  ghost predicate Frame(s: State, s': State, l: Label, now: Time) {
    && s'.graph == (if l.Reload? then l.graph else s.graph)
    && s'.live == (if l.Reload? && l.live.Some? then l.live.value else s.live)
    && s'.inFlight == (if l.Result? then s.inFlight - {l.output}
                       else if l.Dispatch? then s.inFlight + Targets(l.sent) else s.inFlight)
    && s'.outputs == (if l.Result? && l.ok
                      then s.outputs[l.output := OutputState(Some(l.value), Some(l.value), Some(now))] else s.outputs)
  }

  /** A latch is written through to its row whenever the step changes it; a reload only reads the rows back. */
  ghost predicate LatchesStep(s: State, s': State, l: Label, now: Time) {
    && (forall n :: LatchIn(s'.cache, n) == LatchAfter(s, l, now, n))
    && (forall n :: LatchIn(s'.rows, n) ==
                    if !l.Reload? && LatchAfter(s, l, now, n) != LatchIn(s.cache, n)
                    then LatchAfter(s, l, now, n) else LatchIn(s.rows, n))
  }

  ghost predicate Next(st: Settings, s: State, s': State, l: Label, now: Time) {
    && Enabled(s, l, now)
    && Frame(s, s', l, now)
    && LatchesStep(s, s', l, now)
    && (forall o :: Get(s'.pending, o) == RowAfter(st, s, s', l, now, o))
  }

  // -- invariants of every step -----------------------------------------------------

  /** The row and the applied value of an output agree with its desired state. */
  ghost predicate Agreed(s: State, o: Name) {
    match Get(s.pending, o)
    case Some(row) => row.target == Desired(s, o)
    case None => Applied(s, o) == Some(Desired(s, o))
  }

  ghost predicate TableAgreement(s: State) {
    forall o :: o in s.graph.byOutput && o in s.live ==> Agreed(s, o)
  }

  /** The cache and the latch table say the same of every rule. */
  ghost predicate Coherent(s: State) {
    forall n :: LatchIn(s.cache, n) == LatchIn(s.rows, n)
  }

  /** Re-synchronising an output makes it agree, whatever its row was. */
  lemma ResyncedAgrees(st: Settings, s: State, s': State, l: Label, now: Time, o: Name)
    requires Next(st, s, s', l, now)
    requires o in Resynced(s, l)
    ensures Agreed(s', o)
  {
    assert Get(s'.pending, o) == RowAfter(st, s, s', l, now, o);
  }

  /** Frame: a step leaves the desired state of every output it does not re-synchronise as it was. */
  lemma DesiredFrame(st: Settings, s: State, s': State, l: Label, now: Time, o: Name)
    requires WellIndexed(s.graph)
    requires Next(st, s, s', l, now)
    requires !l.Reload? && o !in Resynced(s, l)
    ensures Desired(s', o) == Desired(s, o)
  {
    var before, after := Latched(s.cache), Latched(s'.cache);
    forall n ensures n in before <==> LatchIn(s.cache, n).state {}
    forall n ensures n in after <==> LatchAfter(s, l, now, n).state {
      assert LatchIn(s'.cache, n) == LatchAfter(s, l, now, n);
    }
    match l
    case Trigger(i, _) => OnlyAffectedChange(s.graph, TriggeredBy(s.graph, i), before, after, o);
    case Unlatch(u) =>
      if RenderedBy(s.graph, u) * before != {} {
        OnlyAffectedChange(s.graph, RenderedBy(s.graph, u), before, after, o);
      } else {
        forall n ensures n in before <==> n in after {
          assert n !in RenderedBy(s.graph, u) * before;
        }
        OnlyAffectedChange(s.graph, {}, before, after, o);
      }
    case Retry(u, _) => OnlyAffectedChange(s.graph, RenderedBy(s.graph, u), before, after, o);
    case Startup(_, _) =>
      assert RulesFor(s.graph.byOutput, o) == [];
    case _ => OnlyAffectedChange(s.graph, {}, before, after, o);
  }

  /** Every step keeps the table in agreement; startup reconciliation and a reload establish it. */
  lemma TableAgreementKept(st: Settings, s: State, s': State, l: Label, now: Time)
    requires WellIndexed(s.graph)
    requires Next(st, s, s', l, now)
    requires TableAgreement(s) || l.Startup? || l.Reload?
    ensures WellIndexed(s'.graph)
    ensures TableAgreement(s')
  {
    forall o | o in s'.graph.byOutput && o in s'.live ensures Agreed(s', o) {
      if o in Resynced(s, l) {
        ResyncedAgrees(st, s, s', l, now, o);
      } else {
        DesiredFrame(st, s, s', l, now, o);
        assert Get(s'.pending, o) == RowAfter(st, s, s', l, now, o);
        assert Agreed(s, o);
      }
    }
  }

  /** Startup owes every output of the graph a push of its desired state at once, whatever was applied or pending. */
  lemma StartupForces(st: Settings, s: State, s': State, downtime: map<Name, seq<Event>>,
                      reports: map<Name, RemoteState>, now: Time, o: Name)
    requires Next(st, s, s', Startup(downtime, reports), now)
    ensures Get(s'.pending, o) == if o in s.graph.byOutput then Some(Push(Desired(s', o), 0, now, None))
                                  else Get(s.pending, o)
  {
    assert Get(s'.pending, o) == RowAfter(st, s, s', Startup(downtime, reports), now, o);
  }

  /** So the dispatch that follows sends its state to every live output of the graph that is not in flight. */
  lemma StartupSends(st: Settings, s: State, mid: State, s': State, downtime: map<Name, seq<Event>>,
                     reports: map<Name, RemoteState>, sent: seq<Request>, now: Time, o: Name)
    requires Next(st, s, mid, Startup(downtime, reports), now) && Next(st, mid, s', Dispatch(sent), now)
    requires o in s.graph.byOutput && o in s.live && o !in s.inFlight
    ensures exists q :: q in sent && q.output == o && q.update.state == Desired(mid, o)
  {
    StartupForces(st, s, mid, downtime, reports, now, o);
    assert Frame(s, mid, Startup(downtime, reports), now);
    assert Sends(mid, sent, now);
    assert Ready(mid, now, o);
    assert o in Targets(sent);
    var q :| q in sent && q.output == o;
    assert Describes(mid, q.output, q.update);
  }

  lemma CoherenceKept(st: Settings, s: State, s': State, l: Label, now: Time)
    requires Next(st, s, s', l, now)
    requires Coherent(s)
    ensures Coherent(s')
    ensures forall o :: Desired(s', o) == DesiredOutputState(s'.graph, o, Latched(s'.rows))
  {
    forall n ensures LatchIn(s'.cache, n) == LatchIn(s'.rows, n) {
      assert LatchIn(s'.cache, n) == LatchAfter(s, l, now, n);
      assert LatchIn(s.cache, n) == LatchIn(s.rows, n);
    }
    forall n ensures n in Latched(s'.cache) <==> n in Latched(s'.rows) {
      assert LatchIn(s'.cache, n) == LatchIn(s'.rows, n);
    }
    assert Latched(s'.cache) == Latched(s'.rows);
  }

  // -- paths of the core --------------------------------------------------------------

  datatype Step = Step(act: Label, now: Time)

  /** trace[k] goes to trace[k + 1] by steps[k]. */
  ghost predicate Path(st: Settings, trace: seq<State>, steps: seq<Step>) {
    && |trace| == |steps| + 1
    && forall k :: 0 <= k < |steps| ==> Next(st, trace[k], trace[k + 1], steps[k].act, steps[k].now)
  }

  /** Two paths that meet make one. */
  lemma PathJoins(st: Settings, a: seq<State>, aSteps: seq<Step>, b: seq<State>, bSteps: seq<Step>)
    requires Path(st, a, aSteps) && Path(st, b, bSteps) && a[|aSteps|] == b[0]
    ensures Path(st, a + b[1..], aSteps + bSteps)
    ensures (a + b[1..])[0] == a[0] && (a + b[1..])[|aSteps + bSteps|] == b[|bSteps|]
  {
    var trace, steps := a + b[1..], aSteps + bSteps;
    forall k | 0 <= k < |steps| ensures Next(st, trace[k], trace[k + 1], steps[k].act, steps[k].now) {
      if k >= |aSteps| {
        assert trace[k] == b[k - |aSteps|] && trace[k + 1] == b[k + 1 - |aSteps|];
      }
    }
  }

  /** The path leads from one state to another. */
  ghost predicate Leads(st: Settings, from: State, to: State, trace: seq<State>, steps: seq<Step>) {
    Path(st, trace, steps) && trace[0] == from && trace[|steps|] == to
  }

  lemma LeadsNowhere(st: Settings, s: State)
    ensures Leads(st, s, s, [s], [])
  {
  }

  lemma LeadsByStep(st: Settings, s: State, s': State, l: Label, now: Time)
    requires Next(st, s, s', l, now)
    ensures Leads(st, s, s', [s, s'], [Step(l, now)])
  {
  }

  lemma LeadsOn(st: Settings, s: State, mid: State, s': State,
                a: seq<State>, aSteps: seq<Step>, b: seq<State>, bSteps: seq<Step>)
    requires Leads(st, s, mid, a, aSteps) && Leads(st, mid, s', b, bSteps)
    ensures Leads(st, s, s', a + b[1..], aSteps + bSteps)
  {
    PathJoins(st, a, aSteps, b, bSteps);
  }

  /** A path falls into the paths of its parts. */
  lemma LeadsSplit(st: Settings, s: State, s': State, trace: seq<State>, a: seq<Step>, b: seq<Step>)
    returns (mid: State, first: seq<State>, second: seq<State>)
    requires Leads(st, s, s', trace, a + b)
    ensures Leads(st, s, mid, first, a) && Leads(st, mid, s', second, b)
  {
    mid, first, second := trace[|a|], trace[..|a| + 1], trace[|a|..];
    forall k | 0 <= k < |a| ensures Next(st, first[k], first[k + 1], a[k].act, a[k].now) {
      assert (a + b)[k] == a[k];
    }
    forall k | 0 <= k < |b| ensures Next(st, second[k], second[k + 1], b[k].act, b[k].now) {
      assert (a + b)[|a| + k] == b[k];
      assert Next(st, trace[|a| + k], trace[|a| + k + 1], b[k].act, b[k].now);
    }
  }

  /** Dropping the last step leaves a path. */
  lemma PathPrefix(st: Settings, trace: seq<State>, steps: seq<Step>)
    requires Path(st, trace, steps) && steps != []
    ensures Path(st, trace[..|steps|], steps[..|steps| - 1])
  {
  }
}
