/** What whole runs of the core do to latches, trigger counts and retry rows (src/noti_mapper/engine.py). */
module History {
  import opened Base
  import opened Rules
  import opened Records
  import opened Reconcile
  import opened Core

  // -- trigger conservation ------------------------------------------------------------

  /** The events a step delivers to rule n: a live or retried event from one of its inputs, or its downtime events. */
  function Deliveries(s: State, l: Label, n: Name): nat {
    match l
    case Trigger(i, _) => if n in s.graph.rules && i in s.graph.rules[n].inputs then 1 else 0
    case Startup(downtime, _) =>
      if n in s.graph.rules then DowntimeCount(downtime, s.graph.rules[n].inputs) else 0
    case _ => 0
  }

  function DowntimeCount(downtime: map<Name, seq<Event>>, inputs: seq<Name>): nat {
    if inputs == [] then 0
    else
      var last := inputs[|inputs| - 1];
      DowntimeCount(downtime, inputs[..|inputs| - 1]) + if last in downtime then |downtime[last]| else 0
  }

  function TotalDeliveries(trace: seq<State>, steps: seq<Step>, n: Name): nat
    requires |trace| == |steps| + 1
  {
    if steps == [] then 0
    else
      var k := |steps| - 1;
      TotalDeliveries(trace[..k + 1], steps[..k], n) + Deliveries(trace[k], steps[k].act, n)
  }

  lemma {:induction false} DowntimeCounted(downtime: map<Name, seq<Event>>, inputs: seq<Name>)
    ensures |DowntimeTimes(downtime, inputs)| == DowntimeCount(downtime, inputs)
  {
    if inputs != [] {
      DowntimeCounted(downtime, inputs[..|inputs| - 1]);
    }
  }

  lemma StepDelivers(st: Settings, s: State, s': State, l: Label, now: Time, n: Name)
    requires Next(st, s, s', l, now) && Coherent(s)
    ensures LatchIn(s'.cache, n).triggerCount == LatchIn(s.cache, n).triggerCount + Deliveries(s, l, n)
  {
    assert LatchIn(s'.cache, n) == LatchAfter(s, l, now, n);
    assert LatchIn(s.cache, n) == LatchIn(s.rows, n);
    if l.Startup? && n in s.graph.rules {
      DowntimeCounted(l.downtime, s.graph.rules[n].inputs);
    }
  }

  /** In every run each rule's trigger count is its initial value plus the events delivered to it, each counted once;
      no clear, reload, retry or reconcile outcome changes it, and the stored row always says the same. */
  lemma {:induction false} TriggerConservation(st: Settings, trace: seq<State>, steps: seq<Step>, n: Name)
    requires Path(st, trace, steps) && Coherent(trace[0])
    ensures Coherent(trace[|steps|])
    ensures LatchIn(trace[|steps|].rows, n).triggerCount
         == LatchIn(trace[0].rows, n).triggerCount + TotalDeliveries(trace, steps, n)
  {
    if steps != [] {
      var k := |steps| - 1;
      PathPrefix(st, trace, steps);
      TriggerConservation(st, trace[..k + 1], steps[..k], n);
      StepDelivers(st, trace[k], trace[k + 1], steps[k].act, steps[k].now, n);
      CoherenceKept(st, trace[k], trace[k + 1], steps[k].act, steps[k].now);
      assert LatchIn(trace[k].cache, n) == LatchIn(trace[k].rows, n);
      assert LatchIn(trace[k + 1].cache, n) == LatchIn(trace[k + 1].rows, n);
    }
  }

  // -- refinement of a naive history -----------------------------------------------------

  /** Step k is an event from one of the inputs of rule n. */
  ghost predicate EventAt(g: Graph, steps: seq<Step>, n: Name, k: int) {
    && 0 <= k < |steps| && steps[k].act.Trigger?
    && n in g.rules && steps[k].act.input in g.rules[n].inputs
  }

  /** Step k is an unlatch from one of the outputs of rule n. */
  ghost predicate ClearAt(g: Graph, steps: seq<Step>, n: Name, k: int) {
    && 0 <= k < |steps| && steps[k].act.Unlatch?
    && n in g.rules && steps[k].act.output in g.rules[n].outputs
  }

  ghost predicate NoClearAfter(g: Graph, steps: seq<Step>, n: Name, k: int) {
    forall j :: k < j < |steps| ==> !ClearAt(g, steps, n, j)
  }

  ghost predicate NoEventAfter(g: Graph, steps: seq<Step>, n: Name, k: int) {
    forall j :: k < j < |steps| ==> !EventAt(g, steps, n, j)
  }

  /** The last operation that bears on rule n was an event, or there was none and it was set to begin with. */
  ghost predicate SetByHistory(g: Graph, initially: bool, steps: seq<Step>, n: Name) {
    || (exists k :: EventAt(g, steps, n, k) && NoClearAfter(g, steps, n, k))
    || (initially && NoClearAfter(g, steps, n, -1))
  }

  /** Step k clears rule n while it is set. */
  ghost predicate EffectiveClearAt(g: Graph, initially: bool, steps: seq<Step>, n: Name, k: int) {
    ClearAt(g, steps, n, k) && SetByHistory(g, initially, steps[..k], n)
  }

  ghost predicate NoEffectiveClearAfter(g: Graph, initially: bool, steps: seq<Step>, n: Name, k: int) {
    forall j :: k < j < |steps| ==> !EffectiveClearAt(g, initially, steps, n, j)
  }

  /** set_at is the time of the last event, if there was one. */
  ghost predicate SetAtMatches(g: Graph, first: Latch, steps: seq<Step>, n: Name, setAt: Option<Time>) {
    && (forall k :: EventAt(g, steps, n, k) && NoEventAfter(g, steps, n, k)
          ==> setAt == Some(steps[k].act.event.occurredAt))
    && (NoEventAfter(g, steps, n, -1) ==> setAt == first.setAt)
  }

  /** cleared_at is the moment of the last clear that found the latch set, if there was one. */
  ghost predicate ClearedAtMatches(g: Graph, first: Latch, steps: seq<Step>, n: Name, clearedAt: Option<Time>) {
    && (forall k :: EffectiveClearAt(g, first.state, steps, n, k)
                    && NoEffectiveClearAfter(g, first.state, steps, n, k)
          ==> clearedAt == Some(steps[k].now))
    && (NoEffectiveClearAfter(g, first.state, steps, n, -1) ==> clearedAt == first.clearedAt)
  }

  /** The record says what the history says. */
  ghost predicate MatchesHistory(g: Graph, first: Latch, steps: seq<Step>, n: Name, l: Latch) {
    && (l.state <==> SetByHistory(g, first.state, steps, n))
    && SetAtMatches(g, first, steps, n, l.setAt)
    && ClearedAtMatches(g, first, steps, n, l.clearedAt)
  }

  ghost predicate OnlyEventsAndClears(steps: seq<Step>) {
    forall k :: 0 <= k < |steps| ==> steps[k].act.Trigger? || steps[k].act.Unlatch?
  }

  /** Appending an operation: the rule is set afterwards if that was an event, or it was set and that was no clear. */
  lemma SetGrows(g: Graph, initially: bool, p: seq<Step>, x: Step, n: Name)
    ensures SetByHistory(g, initially, p + [x], n) <==>
              EventAt(g, p + [x], n, |p|) || (SetByHistory(g, initially, p, n) && !ClearAt(g, p + [x], n, |p|))
  {
    var q := p + [x];
    if SetByHistory(g, initially, p, n) && !ClearAt(g, q, n, |p|) {
      if k :| EventAt(g, p, n, k) && NoClearAfter(g, p, n, k) {
        assert EventAt(g, q, n, k);
        forall j | k < j < |q| ensures !ClearAt(g, q, n, j) { assert j < |p| ==> !ClearAt(g, p, n, j); }
      } else {
        forall j | -1 < j < |q| ensures !ClearAt(g, q, n, j) { assert j < |p| ==> !ClearAt(g, p, n, j); }
      }
    }
    if SetByHistory(g, initially, q, n) && !EventAt(g, q, n, |p|) {
      if k :| EventAt(g, q, n, k) && NoClearAfter(g, q, n, k) {
        assert EventAt(g, p, n, k) && !ClearAt(g, q, n, |p|);
        forall j | k < j < |p| ensures !ClearAt(g, p, n, j) { assert !ClearAt(g, q, n, j); }
      } else {
        assert !ClearAt(g, q, n, |p|);
        forall j | -1 < j < |p| ensures !ClearAt(g, p, n, j) { assert !ClearAt(g, q, n, j); }
      }
    }
    if EventAt(g, q, n, |p|) {
      assert NoClearAfter(g, q, n, |p|);
    }
  }

  lemma SetAtGrows(g: Graph, first: Latch, p: seq<Step>, x: Step, n: Name, before: Option<Time>, after: Option<Time>)
    requires SetAtMatches(g, first, p, n, before)
    requires after == if EventAt(g, p + [x], n, |p|) then Some(x.act.event.occurredAt) else before
    ensures SetAtMatches(g, first, p + [x], n, after)
  {
    var q := p + [x];
    if !EventAt(g, q, n, |p|) {
      forall k | EventAt(g, q, n, k) && NoEventAfter(g, q, n, k) ensures after == Some(q[k].act.event.occurredAt) {
        assert EventAt(g, p, n, k);
        forall j | k < j < |p| ensures !EventAt(g, p, n, j) { assert !EventAt(g, q, n, j); }
      }
      if NoEventAfter(g, q, n, -1) {
        forall j | -1 < j < |p| ensures !EventAt(g, p, n, j) { assert !EventAt(g, q, n, j); }
      }
    }
  }

  lemma EffectiveGrows(g: Graph, initially: bool, p: seq<Step>, x: Step, n: Name, k: int)
    requires 0 <= k < |p|
    ensures EffectiveClearAt(g, initially, p + [x], n, k) <==> EffectiveClearAt(g, initially, p, n, k)
  {
    assert (p + [x])[..k] == p[..k];
  }

  lemma ClearedAtGrows(
    g: Graph, first: Latch, p: seq<Step>, x: Step, n: Name, before: Option<Time>, after: Option<Time>)
    requires ClearedAtMatches(g, first, p, n, before)
    requires after == if EffectiveClearAt(g, first.state, p + [x], n, |p|) then Some(x.now) else before
    ensures ClearedAtMatches(g, first, p + [x], n, after)
  {
    var q, i := p + [x], first.state;
    if !EffectiveClearAt(g, i, q, n, |p|) {
      forall k | EffectiveClearAt(g, i, q, n, k) && NoEffectiveClearAfter(g, i, q, n, k)
        ensures after == Some(q[k].now)
      {
        EffectiveGrows(g, i, p, x, n, k);
        forall j | k < j < |p| ensures !EffectiveClearAt(g, i, p, n, j) { EffectiveGrows(g, i, p, x, n, j); }
      }
      if NoEffectiveClearAfter(g, i, q, n, -1) {
        forall j | -1 < j < |p| ensures !EffectiveClearAt(g, i, p, n, j) { EffectiveGrows(g, i, p, x, n, j); }
      }
    }
  }

  lemma HistoryStep(st: Settings, s: State, s': State, first: Latch, p: seq<Step>, x: Step, n: Name)
    requires x.act.Trigger? || x.act.Unlatch?
    requires Next(st, s, s', x.act, x.now)
    requires MatchesHistory(s.graph, first, p, n, LatchIn(s.cache, n))
    ensures MatchesHistory(s.graph, first, p + [x], n, LatchIn(s'.cache, n))
  {
    var before, after := LatchIn(s.cache, n), LatchIn(s'.cache, n);
    assert after == LatchAfter(s, x.act, x.now, n);
    assert (p + [x])[..|p|] == p && (p + [x])[|p|] == x;
    SetGrows(s.graph, first.state, p, x, n);
    SetAtGrows(s.graph, first, p, x, n, before.setAt, after.setAt);
    ClearedAtGrows(s.graph, first, p, x, n, before.clearedAt, after.clearedAt);
  }

  /** For a fixed graph and any sequence of events and unlatches, every latch is what a naive reading of the history
      says: set exactly when the last relevant operation was an event, with the time of the last event and the time of
      the last clear that found it set. */
  lemma {:induction false} LatchesMatchHistory(st: Settings, trace: seq<State>, steps: seq<Step>, n: Name)
    requires Path(st, trace, steps) && OnlyEventsAndClears(steps)
    ensures trace[|steps|].graph == trace[0].graph
    ensures MatchesHistory(trace[0].graph, LatchIn(trace[0].cache, n), steps, n, LatchIn(trace[|steps|].cache, n))
  {
    if steps != [] {
      var k := |steps| - 1;
      PathPrefix(st, trace, steps);
      LatchesMatchHistory(st, trace[..k + 1], steps[..k], n);
      assert steps == steps[..k] + [steps[k]];
      HistoryStep(st, trace[k], trace[k + 1], LatchIn(trace[0].cache, n), steps[..k], steps[k], n);
    }
  }

  // -- unlatch echoes ------------------------------------------------------------------------

  ghost predicate OnlyClears(steps: seq<Step>) {
    forall k :: 0 <= k < |steps| ==> steps[k].act.Unlatch?
  }

  /** Which outputs asked for an unlatch. */
  function Askers(steps: seq<Step>): set<Name> {
    set k | 0 <= k < |steps| && steps[k].act.Unlatch? :: steps[k].act.output
  }

  /** A rule stays set exactly when none of its outputs asked. */
  lemma {:induction false} ClearedBySet(st: Settings, trace: seq<State>, steps: seq<Step>, n: Name)
    requires Path(st, trace, steps) && OnlyClears(steps)
    ensures trace[|steps|].graph == trace[0].graph
    ensures LatchIn(trace[|steps|].cache, n).state <==>
              LatchIn(trace[0].cache, n).state && forall o :: o in Askers(steps) ==> n !in RenderedBy(trace[0].graph, o)
  {
    if steps != [] {
      var k := |steps| - 1;
      PathPrefix(st, trace, steps);
      ClearedBySet(st, trace[..k + 1], steps[..k], n);
      assert LatchIn(trace[k + 1].cache, n) == LatchAfter(trace[k], steps[k].act, steps[k].now, n);
      forall o ensures o in Askers(steps) <==> o in Askers(steps[..k]) || o == steps[k].act.output {
        if o in Askers(steps) {
          var j :| 0 <= j < |steps| && steps[j].act.output == o;
          assert j < k ==> steps[..k][j].act.output == o;
        }
        if o in Askers(steps[..k]) {
          var j :| 0 <= j < k && steps[..k][j].act.output == o;
          assert steps[j].act.output == o;
        }
        assert steps[k].act.output in Askers(steps);
      }
    }
  }

  /** Bursts of unlatches from the same outputs, in any order and with any repetition, leave the same latches set. */
  lemma EchoOrderInsensitive(st: Settings, a: seq<State>, aSteps: seq<Step>, b: seq<State>, bSteps: seq<Step>, n: Name)
    requires Path(st, a, aSteps) && OnlyClears(aSteps)
    requires Path(st, b, bSteps) && OnlyClears(bSteps)
    requires a[0] == b[0] && Askers(aSteps) == Askers(bSteps)
    ensures LatchIn(a[|aSteps|].cache, n).state == LatchIn(b[|bSteps|].cache, n).state
  {
    ClearedBySet(st, a, aSteps, n);
    ClearedBySet(st, b, bSteps, n);
  }

  /** Once a rule is clear, no further unlatch touches its record: it clears at most once. */
  lemma {:induction false} ClearsAtMostOnce(st: Settings, trace: seq<State>, steps: seq<Step>, n: Name)
    requires Path(st, trace, steps) && OnlyClears(steps)
    requires !LatchIn(trace[0].cache, n).state
    ensures LatchIn(trace[|steps|].cache, n) == LatchIn(trace[0].cache, n)
  {
    if steps != [] {
      var k := |steps| - 1;
      PathPrefix(st, trace, steps);
      ClearsAtMostOnce(st, trace[..k + 1], steps[..k], n);
      assert LatchIn(trace[k + 1].cache, n) == LatchAfter(trace[k], steps[k].act, steps[k].now, n);
    }
  }

  /** Once the rules of the asking outputs are clear, echoes change no latch, no pending row and no applied value. */
  lemma {:induction false} EchoesAreNoOps(st: Settings, trace: seq<State>, steps: seq<Step>)
    requires Path(st, trace, steps) && OnlyClears(steps)
    requires forall o :: o in Askers(steps) ==> RenderedBy(trace[0].graph, o) * Latched(trace[0].cache) == {}
    ensures trace[|steps|].graph == trace[0].graph && Latched(trace[|steps|].cache) == Latched(trace[0].cache)
    ensures forall n :: LatchIn(trace[|steps|].cache, n) == LatchIn(trace[0].cache, n)
    ensures forall n :: LatchIn(trace[|steps|].rows, n) == LatchIn(trace[0].rows, n)
    ensures trace[|steps|].pending == trace[0].pending && trace[|steps|].outputs == trace[0].outputs
    ensures trace[|steps|].inFlight == trace[0].inFlight
  {
    if steps != [] {
      var k := |steps| - 1;
      PathPrefix(st, trace, steps);
      forall o | o in Askers(steps[..k]) ensures o in Askers(steps) {
        var j :| 0 <= j < k && steps[..k][j].act.output == o;
        assert steps[j].act.output == o;
      }
      EchoesAreNoOps(st, trace[..k + 1], steps[..k]);
      assert steps[k].act.output in Askers(steps);
      EchoIsNoOp(st, trace[k], trace[k + 1], steps[k].act, steps[k].now);
    }
  }

  lemma EchoIsNoOp(st: Settings, s: State, s': State, l: Label, now: Time)
    requires l.Unlatch? && Next(st, s, s', l, now)
    requires RenderedBy(s.graph, l.output) * Latched(s.cache) == {}
    ensures s'.graph == s.graph && Latched(s'.cache) == Latched(s.cache)
    ensures forall n :: LatchIn(s'.cache, n) == LatchIn(s.cache, n)
    ensures forall n :: LatchIn(s'.rows, n) == LatchIn(s.rows, n)
    ensures s'.pending == s.pending && s'.outputs == s.outputs && s'.inFlight == s.inFlight
  {
    forall n ensures LatchIn(s'.cache, n) == LatchIn(s.cache, n) && LatchIn(s'.rows, n) == LatchIn(s.rows, n) {
      assert n !in RenderedBy(s.graph, l.output) * Latched(s.cache);
      assert LatchIn(s'.cache, n) == LatchAfter(s, l, now, n);
    }
    forall n ensures n in Latched(s'.cache) <==> n in Latched(s.cache) {
      assert LatchIn(s'.cache, n) == LatchIn(s.cache, n);
    }
    forall o ensures Get(s'.pending, o) == Get(s.pending, o) {
      assert Get(s'.pending, o) == RowAfter(st, s, s', l, now, o);
    }
    SameRows(s'.pending, s.pending);
  }

  // -- backoff --------------------------------------------------------------------------------

  ghost predicate ResultAt(steps: seq<Step>, o: Name, k: int) {
    0 <= k < |steps| && steps[k].act.Result? && steps[k].act.output == o
  }

  function Failures(steps: seq<Step>, o: Name): nat {
    if steps == [] then 0
    else
      var last := steps[|steps| - 1];
      Failures(steps[..|steps| - 1], o) + if last.act.Result? && last.act.output == o then 1 else 0
  }

  function LastFailure(steps: seq<Step>, o: Name): Option<Time> {
    if steps == [] then None
    else
      var last := steps[|steps| - 1];
      if last.act.Result? && last.act.output == o then Some(last.now) else LastFailure(steps[..|steps| - 1], o)
  }

  /** The output keeps wanting v, has a plugin, and no step reports anything for it but failures to push v. */
  ghost predicate KeepsFailing(trace: seq<State>, steps: seq<Step>, o: Name, v: bool) {
    && |trace| == |steps| + 1
    && (forall k :: 0 <= k < |trace| ==> Desired(trace[k], o) == v && o in trace[k].live)
    && (forall k :: ResultAt(steps, o, k) ==> !steps[k].act.ok && steps[k].act.value == v)
    && (forall k :: 0 <= k < |steps| ==> !steps[k].act.Startup?)
  }

  lemma BackoffStep(st: Settings, s: State, s': State, l: Label, now: Time, o: Name, v: bool)
    requires Next(st, s, s', l, now) && !l.Startup?
    requires Desired(s, o) == v && Desired(s', o) == v && o in s.live
    requires l.Result? && l.output == o ==> !l.ok && l.value == v
    requires Applied(s, o) != Some(v) && o in s.pending && s.pending[o].target == v
    ensures Applied(s', o) == Applied(s, o)
    ensures o in s'.pending && s'.pending[o].target == v
    ensures if l.Result? && l.output == o
            then s'.pending[o].attempts == s.pending[o].attempts + 1
                 && s'.pending[o].due == now + Backoff(st, s'.pending[o].attempts)
            else s'.pending[o] == s.pending[o]
  {
    assert Get(s'.pending, o) == RowAfter(st, s, s', l, now, o);
  }

  /** While an output keeps wanting v, v is not what was last applied, and its pushes keep failing, the row keeps its
      target and counts exactly the failures; it is due the backoff for that count after the last one. Nothing in
      between, neither re-triggers, nor other outputs' results, nor reloads, resets it. */
  lemma {:induction false} BackoffCountsFailures(
    st: Settings, trace: seq<State>, steps: seq<Step>, o: Name, v: bool)
    requires Path(st, trace, steps) && KeepsFailing(trace, steps, o, v)
    requires Applied(trace[0], o) != Some(v) && o in trace[0].pending && trace[0].pending[o].target == v
    ensures
      var last := trace[|steps|];
      && Applied(last, o) == Applied(trace[0], o)
      && o in last.pending && last.pending[o].target == v
      && last.pending[o].attempts == trace[0].pending[o].attempts + Failures(steps, o)
      && (Failures(steps, o) == 0 <==> LastFailure(steps, o).None?)
      && last.pending[o].due == (if Failures(steps, o) == 0 then trace[0].pending[o].due
                                 else LastFailure(steps, o).value + Backoff(st, last.pending[o].attempts))
  {
    if steps != [] {
      var k := |steps| - 1;
      PathPrefix(st, trace, steps);
      forall j | ResultAt(steps[..k], o, j) ensures !steps[..k][j].act.ok && steps[..k][j].act.value == v {
        assert ResultAt(steps, o, j);
      }
      BackoffCountsFailures(st, trace[..k + 1], steps[..k], o, v);
      assert steps[k].act.Result? && steps[k].act.output == o ==> ResultAt(steps, o, k);
      BackoffStep(st, trace[k], trace[k + 1], steps[k].act, steps[k].now, o, v);
    }
  }

  /** The delay after the k-th failure is the initial delay doubled k - 1 times, up to the cap; delays never shrink and
      never reach zero. */
  lemma BackoffShape(st: Settings, k: nat)
    requires 1 <= k && 1 <= st.retryInitial && 1 <= st.retryMax
    ensures Backoff(st, k) == if st.retryInitial * Pow(2, k - 1) <= st.retryMax
                              then st.retryInitial * Pow(2, k - 1) else st.retryMax
    ensures 1 <= Backoff(st, k) <= Backoff(st, k + 1) <= st.retryMax
  {
    PowPositive(2, k - 1);
    assert Pow(2, k) == 2 * Pow(2, k - 1);
    assert st.retryInitial * Pow(2, k) == 2 * (st.retryInitial * Pow(2, k - 1));
    assert st.retryInitial * Pow(2, k - 1) >= 1;
  }
}
