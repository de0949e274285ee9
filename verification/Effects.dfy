/** What every step and every message does to latches, rows and timers, said outright rather than by the functions the
    transition system is defined with (src/noti_mapper/engine.py). */
module Effects {
  import opened Base
  import opened Rules
  import opened Configuration
  import opened Records
  import opened Messages
  import opened Core
  import opened Loop
  import opened EngineThread
  import Startup
  import Loader

  // -- latches ----------------------------------------------------------------------------

  /** Rule n of the graph lists the input. */
  predicate ListsInput(g: Graph, n: Name, input: Name) {
    n in g.rules && input in g.rules[n].inputs
  }

  /** Rule n of the graph lists the output. */
  predicate ListsOutput(g: Graph, n: Name, output: Name) {
    n in g.rules && output in g.rules[n].outputs
  }

  /** An event sets every rule that lists its input, counts, and leaves its cause and detail; no other rule changes. */
  lemma EventSets(st: Settings, s: State, s': State, i: Name, e: Event, now: Time, n: Name)
    requires Next(st, s, s', Trigger(i, e), now)
    ensures
      var l := LatchIn(s.cache, n);
      LatchIn(s'.cache, n) ==
      if ListsInput(s.graph, n, i)
      then Latch(true, Some(e.occurredAt), l.clearedAt, l.triggerCount + 1, Some(i), Some(e.summary)) else l
  {
    assert LatchIn(s'.cache, n) == LatchAfter(s, Trigger(i, e), now, n);
  }

  /** An unlatch clears every set rule that lists its output and leaves its cause; no other rule changes. */
  lemma UnlatchClears(st: Settings, s: State, s': State, o: Name, now: Time, n: Name)
    requires Next(st, s, s', Unlatch(o), now)
    ensures
      var l := LatchIn(s.cache, n);
      LatchIn(s'.cache, n) ==
      if ListsOutput(s.graph, n, o) && l.state
      then Latch(false, l.setAt, Some(now), l.triggerCount, Some(o), l.lastDetail) else l
  {
    assert LatchIn(s'.cache, n) == LatchAfter(s, Unlatch(o), now, n);
  }

  /** A late answer clears the rules that list its output if it says CLEARED, dating the clear as it does, or now; what
      was set keeps when and how often and why it was. No other rule changes, and no other answer changes any. */
  lemma LateAnswerSettles(st: Settings, s: State, s': State, o: Name, report: RemoteState, now: Time, n: Name)
    requires Next(st, s, s', Retry(o, report), now)
    ensures
      var l := LatchIn(s.cache, n);
      LatchIn(s'.cache, n) ==
      if ListsOutput(s.graph, n, o) && report.belief.Cleared?
      then Latch(false, l.setAt, if report.clearedAt.Some? then report.clearedAt else Some(now),
                 l.triggerCount, l.lastCause, l.lastDetail)
      else l
  {
    var l, reports := LatchIn(s.cache, n), [report];
    assert LatchIn(s'.cache, n) == LatchAfter(s, Retry(o, report), now, n);
    assert report in reports;
    Reconcile.ResolvedState(now, l, None, reports);
    Reconcile.ResolvedTimes(now, l, None, reports);
    if report.belief.Cleared? {
      assert Reconcile.SomeCleared(reports);
      if report.clearedAt.Some? {
        assert report == RemoteState(Cleared, Some(report.clearedAt.value));
        assert Reconcile.LatestClear(reports, report.clearedAt.value);
      } else {
        assert Reconcile.NoDatedClear(reports);
      }
    } else {
      assert !Reconcile.SomeCleared(reports);
    }
  }

  /** A reload reads every latch back from the table, which it leaves alone. */
  lemma ReloadRereads(st: Settings, s: State, s': State, g: Graph, live: Option<set<Name>>, now: Time, n: Name)
    requires Next(st, s, s', Reload(g, live), now)
    ensures LatchIn(s'.cache, n) == LatchIn(s.rows, n) == LatchIn(s'.rows, n)
    ensures s'.graph == g && s'.live == if live.Some? then live.value else s.live
  {
    assert LatchIn(s'.cache, n) == LatchAfter(s, Reload(g, live), now, n);
  }

  /** Results, dispatches and mirrored configurations change no latch. */
  lemma NoLatchChanges(st: Settings, s: State, s': State, l: Label, now: Time, n: Name)
    requires (l.Result? || l.Dispatch? || l.Mirror?) && Next(st, s, s', l, now)
    ensures LatchIn(s'.cache, n) == LatchIn(s.cache, n) && LatchIn(s'.rows, n) == LatchIn(s.rows, n)
  {
    assert LatchIn(s'.cache, n) == LatchAfter(s, l, now, n);
  }

  // -- what is owed to an output -------------------------------------------------------------

  /** The row of an output after it has been looked at: none when its desired state is already applied; the row there
      was when that has the desired target, so that its backoff goes on; and otherwise a new one, due at once. */
  ghost predicate Owed(s': State, o: Name, before: Option<Push>, now: Time) {
    var after, desired := Get(s'.pending, o), Desired(s', o);
    if Applied(s', o) == Some(desired) then after == None
    else if before.Some? && before.value.target == desired then after == before
    else after == Some(Push(desired, 0, now, None))
  }

  lemma AffectedMeans(g: Graph, names: set<Name>, o: Name)
    ensures o in Affected(g, names) <==> exists n :: n in names && ListsOutput(g, n, o)
  {
    if n :| n in names && ListsOutput(g, n, o) {
      assert n in names && n in g.rules && o in g.rules[n].outputs;
    }
    if o in Affected(g, names) {
      var n :| n in names && n in g.rules && o in g.rules[n].outputs;
      assert ListsOutput(g, n, o);
    }
  }

  /** An event looks at the outputs of the rules that list its input, and at no other. */
  lemma EventOwes(st: Settings, s: State, s': State, i: Name, e: Event, now: Time, o: Name)
    requires Next(st, s, s', Trigger(i, e), now)
    ensures if exists n :: ListsInput(s.graph, n, i) && ListsOutput(s.graph, n, o)
            then Owed(s', o, Get(s.pending, o), now) else Get(s'.pending, o) == Get(s.pending, o)
  {
    assert Get(s'.pending, o) == RowAfter(st, s, s', Trigger(i, e), now, o);
    var names := TriggeredBy(s.graph, i);
    AffectedMeans(s.graph, names, o);
    assert forall n :: n in names <==> ListsInput(s.graph, n, i);
  }

  /** An unlatch that clears something looks at the outputs of all rules that list its output, and at no other. */
  lemma UnlatchOwes(st: Settings, s: State, s': State, u: Name, now: Time, o: Name)
    requires Next(st, s, s', Unlatch(u), now)
    ensures if (exists n :: ListsOutput(s.graph, n, u) && LatchIn(s.cache, n).state)
               && exists n :: ListsOutput(s.graph, n, u) && ListsOutput(s.graph, n, o)
            then Owed(s', o, Get(s.pending, o), now) else Get(s'.pending, o) == Get(s.pending, o)
  {
    assert Get(s'.pending, o) == RowAfter(st, s, s', Unlatch(u), now, o);
    SomethingSet(s, u);
    AffectedByListing(s.graph, u, o);
  }

  lemma SomethingSet(s: State, u: Name)
    ensures RenderedBy(s.graph, u) * Latched(s.cache) != {} <==>
            exists n :: ListsOutput(s.graph, n, u) && LatchIn(s.cache, n).state
  {
    if n :| ListsOutput(s.graph, n, u) && LatchIn(s.cache, n).state {
      assert n in RenderedBy(s.graph, u) * Latched(s.cache);
    }
    if n :| n in RenderedBy(s.graph, u) * Latched(s.cache) {
      assert ListsOutput(s.graph, n, u) && LatchIn(s.cache, n).state;
    }
  }

  lemma AffectedByListing(g: Graph, u: Name, o: Name)
    ensures o in Affected(g, RenderedBy(g, u)) <==> exists n :: ListsOutput(g, n, u) && ListsOutput(g, n, o)
  {
    AffectedMeans(g, RenderedBy(g, u), o);
    assert forall n :: n in RenderedBy(g, u) <==> ListsOutput(g, n, u);
  }

  /** A late answer looks at the outputs of all rules that list its output, and at no other. */
  lemma LateAnswerOwes(st: Settings, s: State, s': State, u: Name, report: RemoteState, now: Time, o: Name)
    requires Next(st, s, s', Retry(u, report), now)
    ensures if exists n :: ListsOutput(s.graph, n, u) && ListsOutput(s.graph, n, o)
            then Owed(s', o, Get(s.pending, o), now) else Get(s'.pending, o) == Get(s.pending, o)
  {
    assert Get(s'.pending, o) == RowAfter(st, s, s', Retry(u, report), now, o);
    AffectedByListing(s.graph, u, o);
  }

  /** A reload looks at the outputs of the old graph and of the new one. */
  lemma ReloadOwes(st: Settings, s: State, s': State, g: Graph, live: Option<set<Name>>, now: Time, o: Name)
    requires WellIndexed(s.graph) && Next(st, s, s', Reload(g, live), now)
    ensures if exists n :: ListsOutput(s.graph, n, o) || ListsOutput(g, n, o)
            then Owed(s', o, Get(s.pending, o), now) else Get(s'.pending, o) == Get(s.pending, o)
  {
    assert Get(s'.pending, o) == RowAfter(st, s, s', Reload(g, live), now, o);
    OutputIsListed(s.graph, o);
    OutputIsListed(g, o);
  }

  lemma OutputIsListed(g: Graph, o: Name)
    requires WellIndexed(g)
    ensures o in g.byOutput <==> exists n :: ListsOutput(g, n, o)
  {
    LookupsAreScans(g, o);
    if n :| n in RenderedBy(g, o) { assert ListsOutput(g, n, o); }
    if n :| ListsOutput(g, n, o) { assert n in RenderedBy(g, o); }
  }

  /** A success is recorded as applied, confirmed and synchronised now; the output is out of flight and looked at. */
  lemma SuccessRecords(st: Settings, s: State, s': State, o: Name, v: bool, error: Option<string>, now: Time)
    requires Next(st, s, s', Result(o, v, true, error), now)
    ensures s'.inFlight == s.inFlight - {o}
    ensures s'.outputs == s.outputs[o := OutputState(Some(v), Some(v), Some(now))]
    ensures Owed(s', o, Get(s.pending, o), now)
    ensures forall x :: x != o ==> Get(s'.pending, x) == Get(s.pending, x)
  {
    forall x ensures Get(s'.pending, x) == RowAfter(st, s, s', Result(o, v, true, error), now, x) {}
    assert Frame(s, s', Result(o, v, true, error), now);
  }

  /** A failure takes the output out of flight and changes no applied value. Its row says how often the push has failed,
      why, and when to try again; unless the desired state is already applied, when there is none, or has changed
      meanwhile, when the new one is owed at once. */
  lemma FailureRecords(st: Settings, s: State, s': State, o: Name, v: bool, error: Option<string>, now: Time)
    requires Next(st, s, s', Result(o, v, false, error), now)
    ensures s'.inFlight == s.inFlight - {o} && s'.outputs == s.outputs
    ensures
      var tries := if o in s.pending then s.pending[o].attempts + 1 else 1;
      Get(s'.pending, o) ==
      if Applied(s, o) == Some(Desired(s', o)) then None
      else if v == Desired(s', o) then Some(Push(v, tries, now + Backoff(st, tries), error))
      else Some(Push(Desired(s', o), 0, now, None))
    ensures forall x :: x != o ==> Get(s'.pending, x) == Get(s.pending, x)
  {
    forall x ensures Get(s'.pending, x) == RowAfter(st, s, s', Result(o, v, false, error), now, x) {}
    assert Frame(s, s', Result(o, v, false, error), now);
  }

  /** A dispatch acts on the rows that are due and not in flight: with a plugin the row is brought up to date, keeping
      its count, time and error, and the output goes into flight; without one the row goes. No other row changes. */
  lemma DispatchActs(st: Settings, s: State, s': State, sent: seq<Request>, now: Time, o: Name)
    requires Next(st, s, s', Dispatch(sent), now)
    ensures
      if o in s.pending && s.pending[o].due <= now && o !in s.inFlight then
        if o in s.live then
          && Get(s'.pending, o) == Some(s.pending[o].(target := Desired(s, o)))
          && o in s'.inFlight && exists q :: q in sent && q.output == o && q.update.state == Desired(s, o)
        else o !in s'.pending && o !in s'.inFlight
      else Get(s'.pending, o) == Get(s.pending, o) && (o in s'.inFlight <==> o in s.inFlight)
    ensures s'.outputs == s.outputs
  {
    assert Get(s'.pending, o) == RowAfter(st, s, s', Dispatch(sent), now, o);
    assert Frame(s, s', Dispatch(sent), now) && Sends(s, sent, now);
    assert o in Targets(sent) <==> Ready(s, now, o) && o in s.live;
    if o in Targets(sent) {
      var q :| q in sent && q.output == o;
      assert Describes(s, q.output, q.update);
    }
  }

  /** Requests are sent in the order of their due times, and of their names where those are equal. */
  lemma SentInOrder(st: Settings, s: State, s': State, sent: seq<Request>, now: Time, i: nat, j: nat)
    requires Next(st, s, s', Dispatch(sent), now) && i < j < |sent|
    ensures sent[i].output in s.pending && sent[j].output in s.pending
    ensures
      var a, b := sent[i].output, sent[j].output;
      && s.pending[a].due <= s.pending[b].due
      && (s.pending[a].due == s.pending[b].due ==> FirstDifference(a.text, b.text))
  {
    assert Sends(s, sent, now);
    assert PushBefore(s.pending, sent[i].output, sent[j].output);
    TextBeforeMeans(sent[i].output.text, sent[j].output.text);
  }

  // -- what is sent -------------------------------------------------------------------------------

  /** The triggers of these rules in all. */
  ghost function TriggersOf(cache: map<Name, Latch>, names: set<Name>): nat {
    if names == {} then 0
    else
      var n :| n in names;
      LatchIn(cache, n).triggerCount + TriggersOf(cache, names - {n})
  }

  lemma {:induction false} TriggersWithout(cache: map<Name, Latch>, names: set<Name>, x: Name)
    requires x in names
    ensures TriggersOf(cache, names) == LatchIn(cache, x).triggerCount + TriggersOf(cache, names - {x})
    decreases names
  {
    var n :| n in names && TriggersOf(cache, names) == LatchIn(cache, n).triggerCount + TriggersOf(cache, names - {n});
    if n != x {
      TriggersWithout(cache, names - {n}, x);
      TriggersWithout(cache, names - {x}, n);
      assert names - {n} - {x} == names - {x} - {n};
    }
  }

  lemma {:induction false} CountsAreTriggers(cache: map<Name, Latch>, list: seq<Name>)
    requires Distinct(list)
    ensures SumCounts(cache, list) == TriggersOf(cache, Elems(list))
  {
    if list != [] {
      var k := |list| - 1;
      var before, last := list[..k], list[k];
      CountsAreTriggers(cache, before);
      assert list == before + [last] && last !in before;
      assert Elems(list) == Elems(before) + {last} && Elems(list) - {last} == Elems(before);
      TriggersWithout(cache, Elems(list), last);
    }
  }

  lemma {:induction false} DrivingListDistinct(cache: map<Name, Latch>, rules: seq<Rule>)
    requires DistinctNames(rules)
    ensures Distinct(DrivingList(cache, rules))
  {
    if rules != [] {
      var k := |rules| - 1;
      DrivingListDistinct(cache, rules[..k]);
      DrivingListIs(cache, rules[..k]);
      assert rules == rules[..k] + [rules[k]];
      NamesGrow(rules, k);
      assert rules[k].name !in Elems(DrivingList(cache, rules[..k]));
    }
  }

  /** What an update says: whether any rule that lists the output is latched, which, how many triggers they have had
      between them, and when, by what and with what detail the one set last was set, the first listed of several. */
  lemma UpdateMeans(s: State, output: Name, u: Update)
    requires WellIndexed(s.graph) && Describes(s, output, u)
    ensures u.rules == set n | n in s.graph.rules && ListsOutput(s.graph, n, output) && LatchIn(s.cache, n).state
    ensures u.state <==> u.rules != {}
    ensures u.triggerCount == TriggersOf(s.cache, u.rules)
    ensures u.state ==> exists n :: n in u.rules && SaysWhy(s, u, n) && FirstOfNewest(s, output, u, n)
    ensures !u.state ==> u.since == None && u.cause == "" && u.detail == ""
  {
    DesiredIsOr(s.graph, output, Latched(s.cache));
    DrivingMeans(s, output);
    var list := DrivingList(s.cache, RulesFor(s.graph.byOutput, output));
    CountsAreTriggers(s.cache, list);
    if u.state {
      var i :| NewestDriver(s.cache, list, u, i);
      NewestSaysWhy(s, u, list, i);
      NewestIsFirst(s, output, u, list, i);
    } else {
      assert TriggersOf(s.cache, {}) == 0;
    }
  }

  /** The driving rules are the latched ones that list the output, each once. */
  lemma DrivingMeans(s: State, output: Name)
    requires WellIndexed(s.graph)
    ensures
      var list := DrivingList(s.cache, RulesFor(s.graph.byOutput, output));
      Distinct(list) && Elems(list) == Driving(s, output)
    ensures Driving(s, output) ==
            set n | n in s.graph.rules && ListsOutput(s.graph, n, output) && LatchIn(s.cache, n).state
  {
    LookupsAreScans(s.graph, output);
    DrivingListIs(s.cache, RulesFor(s.graph.byOutput, output));
    DrivingListDistinct(s.cache, RulesFor(s.graph.byOutput, output));
  }

  lemma NewestSaysWhy(s: State, u: Update, list: seq<Name>, i: int)
    requires NewestDriver(s.cache, list, u, i) && u.rules == Elems(list)
    ensures list[i] in u.rules && SaysWhy(s, u, list[i])
  {
    forall m | m in u.rules ensures !SetAfter(LatchIn(s.cache, m), LatchIn(s.cache, list[i])) {
      var j :| 0 <= j < |list| && list[j] == m;
      if j < i { assert IsNewer(LatchIn(s.cache, list[i]).setAt, LatchIn(s.cache, list[j]).setAt); }
    }
  }

  /** Every rule the update names that is listed before n was set earlier than n. */
  ghost predicate FirstOfNewest(s: State, output: Name, u: Update, n: Name) {
    var rules := RulesFor(s.graph.byOutput, output);
    forall j, k :: 0 <= j < k < |rules| && rules[k].name == n && rules[j].name in u.rules ==>
      SetAfter(LatchIn(s.cache, n), LatchIn(s.cache, rules[j].name))
  }

  lemma {:induction false} ListedInOrder(cache: map<Name, Latch>, rules: seq<Rule>, j: nat, k: nat)
    returns (a: nat, b: nat)
    requires j < k < |rules| && LatchIn(cache, rules[j].name).state && LatchIn(cache, rules[k].name).state
    ensures
      var list := DrivingList(cache, rules);
      a < b < |list| && list[a] == rules[j].name && list[b] == rules[k].name
    decreases |rules|
  {
    var n := |rules| - 1;
    var before := DrivingList(cache, rules[..n]);
    if k < n {
      a, b := ListedInOrder(cache, rules[..n], j, k);
    } else {
      DrivingListIs(cache, rules[..n]);
      assert rules[..n][j] in rules[..n] && rules[j].name in Latched(cache);
      assert rules[j].name in Elems(before);
      a :| 0 <= a < |before| && before[a] == rules[j].name;
      b := |before|;
    }
  }

  lemma NewestIsFirst(s: State, output: Name, u: Update, list: seq<Name>, i: int)
    requires list == DrivingList(s.cache, RulesFor(s.graph.byOutput, output)) && Distinct(list)
    requires NewestDriver(s.cache, list, u, i) && u.rules == Elems(list)
    requires forall n :: n in u.rules ==> LatchIn(s.cache, n).state
    ensures FirstOfNewest(s, output, u, list[i])
  {
    var rules := RulesFor(s.graph.byOutput, output);
    forall j, k | 0 <= j < k < |rules| && rules[k].name == list[i] && rules[j].name in u.rules
      ensures SetAfter(LatchIn(s.cache, list[i]), LatchIn(s.cache, rules[j].name))
    {
      assert list[i] in u.rules;
      var a, b := ListedInOrder(s.cache, rules, j, k);
      assert b == i;
      assert IsNewer(LatchIn(s.cache, list[i]).setAt, LatchIn(s.cache, list[a]).setAt);
    }
  }

  predicate SetAfter(a: Latch, b: Latch) {
    a.setAt.Some? && (b.setAt.None? || a.setAt.value > b.setAt.value)
  }

  /** The update speaks of rule n, and no rule it names was set after n. */
  ghost predicate SaysWhy(s: State, u: Update, n: Name) {
    var l := LatchIn(s.cache, n);
    && u.since == l.setAt
    && u.cause == (match l.lastCause case Some(c) => c.text case None => "")
    && u.detail == (match l.lastDetail case Some(d) => d case None => "")
    && forall m :: m in u.rules ==> !SetAfter(LatchIn(s.cache, m), l)
  }

  // -- messages ---------------------------------------------------------------------------------------

  /** Handling a message changes the state by exactly the step it stands for, or not at all. */
  lemma MessageSteps(st: Settings, s: State, s': State, trace: seq<State>, h: Handling, plugins: PluginSet, now: Time)
    requires Leads(st, s, s', trace, h.steps) && StepsFor(h.message, h.answer, plugins, h.steps, now)
    ensures match h.message
            case InputEvent(i, e) => Next(st, s, s', Trigger(i, e), now)
            case UnlatchRequest(o, _) => Next(st, s, s', Unlatch(o), now)
            case PushResult(o, v, ok, error) => Next(st, s, s', Result(o, v, ok, error), now)
            case ReloadRequest(c, p) =>
              && s'.graph.rules == GraphRules(c)
              && Next(st, s, s', Reload(s'.graph, if p.Some? then Some(p.value.outputs) else None), now)
            case ReconcileOutput(o, _) =>
              if o in plugins.outputs && h.answer.remote.belief != Unknown
              then Next(st, s, s', Retry(o, h.answer.remote), now) else s' == s
            case CatchUp(i, _, _) => i !in plugins.inputs || h.answer.events.None? ==> s' == s
            case PollHealth => s' == s
            case Shutdown => s' == s
  {
    if h.steps != [] {
      assert Next(st, trace[0], trace[1], h.steps[0].act, h.steps[0].now);
      if h.message.ReloadRequest? {
        assert Frame(trace[0], trace[1], h.steps[0].act, now);
      }
    }
  }

  /** The events a message delivers to rule n: its own, or what the plugin asked to catch up missed. */
  function DeliversTo(g: Graph, h: Handling, plugins: PluginSet, n: Name): nat {
    match h.message
    case InputEvent(i, _) => if ListsInput(g, n, i) then 1 else 0
    case CatchUp(i, _, _) =>
      if i in plugins.inputs && h.answer.events.Some? && ListsInput(g, n, i) then |h.answer.events.value| else 0
    case _ => 0
  }

  lemma {:induction false} ReplayDelivers(st: Settings, trace: seq<State>, i: Name, events: seq<Event>, now: Time,
                                          n: Name)
    requires Path(st, trace, Replay(i, events, now))
    ensures
      var s, s' := trace[0], trace[|events|];
      && s'.graph == s.graph
      && LatchIn(s'.cache, n).triggerCount ==
           LatchIn(s.cache, n).triggerCount + (if ListsInput(s.graph, n, i) then |events| else 0)
      && (ListsInput(s.graph, n, i) && events != [] ==>
            LatchIn(s'.cache, n).state && LatchIn(s'.cache, n).setAt == Some(events[|events| - 1].occurredAt))
  {
    if events != [] {
      var k := |events| - 1;
      var steps := Replay(i, events, now);
      PathPrefix(st, trace, steps);
      assert steps[..k] == Replay(i, events[..k], now);
      ReplayDelivers(st, trace[..k + 1], i, events[..k], now, n);
      assert Next(st, trace[k], trace[k + 1], steps[k].act, steps[k].now);
      assert Frame(trace[k], trace[k + 1], steps[k].act, now);
      EventSets(st, trace[k], trace[k + 1], i, events[k], now, n);
    }
  }

  lemma MessageDelivers(st: Settings, s: State, s': State, trace: seq<State>, h: Handling, plugins: PluginSet,
                        now: Time, n: Name)
    requires Leads(st, s, s', trace, h.steps) && StepsFor(h.message, h.answer, plugins, h.steps, now)
    requires !h.message.ReloadRequest?
    ensures s'.graph == s.graph
    ensures LatchIn(s'.cache, n).triggerCount == LatchIn(s.cache, n).triggerCount + DeliversTo(s.graph, h, plugins, n)
  {
    MessageSteps(st, s, s', trace, h, plugins, now);
    match h.message
    case InputEvent(i, e) =>
      EventSets(st, s, s', i, e, now, n);
      assert Frame(s, s', Trigger(i, e), now);
    case UnlatchRequest(o, _) =>
      UnlatchClears(st, s, s', o, now, n);
      assert Frame(s, s', Unlatch(o), now);
    case PushResult(o, v, ok, error) =>
      NoLatchChanges(st, s, s', Result(o, v, ok, error), now, n);
      assert Frame(s, s', Result(o, v, ok, error), now);
    case ReconcileOutput(o, _) =>
      if s' != s {
        LateAnswerSettles(st, s, s', o, h.answer.remote, now, n);
        assert Frame(s, s', Retry(o, h.answer.remote), now);
      }
    case CatchUp(i, _, _) =>
      if i in plugins.inputs && h.answer.events.Some? {
        ReplayDelivers(st, trace, i, h.answer.events.value, now, n);
      }
    case _ =>
  }

  function LogDelivers(g: Graph, log: seq<Handling>, plugins: PluginSet, n: Name): nat {
    if log == [] then 0
    else LogDelivers(g, log[..|log| - 1], plugins, n) + DeliversTo(g, log[|log| - 1], plugins, n)
  }

  /** No event is lost or doubled in the queue: handling messages without a reload raises the count of every rule by the
      events they deliver to it. */
  lemma {:induction false} LogDeliversAll(st: Settings, s: State, s': State, trace: seq<State>, log: seq<Handling>,
                                          plugins: PluginSet, now: Time, n: Name)
    requires Leads(st, s, s', trace, StepsOf(log)) && Logged(log, plugins, now)
    requires forall k :: 0 <= k < |log| ==> !log[k].message.ReloadRequest?
    ensures s'.graph == s.graph && PluginsAfter(plugins, log) == plugins
    ensures LatchIn(s'.cache, n).triggerCount ==
            LatchIn(s.cache, n).triggerCount + LogDelivers(s.graph, log, plugins, n)
    decreases |log|
  {
    if log != [] {
      var k := |log| - 1;
      var before, last := log[..k], log[k];
      LogPrefix(log, plugins, now);
      var mid, first, second := LeadsSplit(st, s, s', trace, StepsOf(before), last.steps);
      LogDeliversAll(st, s, mid, first, before, plugins, now, n);
      MessageDelivers(st, mid, s', second, last, plugins, now, n);
    }
  }

  /** Reloads replace the plugins by the ones they bring; nothing else does. */
  lemma PluginsMean(plugins: PluginSet, m: Message)
    ensures m.ReloadRequest? && m.plugins.Some? ==> PluginsNext(plugins, m) == m.plugins.value
    ensures !(m.ReloadRequest? && m.plugins.Some?) ==> PluginsNext(plugins, m) == plugins
  {
  }

  /** A plugin that does not answer is asked again, one attempt further, within a quarter of an hour; one that answers,
      or is gone, is not. */
  lemma SilentPluginsAreAskedAgain(m: Message, answer: Answer, plugins: PluginSet, now: Time)
    requires m.ReconcileOutput? || m.CatchUp?
    ensures
      var silent := if m.ReconcileOutput? then m.instance in plugins.outputs && answer.remote.belief == Unknown
                    else m.instance in plugins.inputs && answer.events == None;
      var timers := TimersFor(m, answer, plugins, now);
      if silent then
        && |timers| == 1 && now < timers[0].at <= now + 900_000_000
        && timers[0].message == (if m.ReconcileOutput? then ReconcileOutput(m.instance, m.attempt + 1)
                                 else CatchUp(m.instance, m.attempt + 1, m.since))
        && (m.attempt < 5 ==> timers[0].at == now + 30_000_000 * Pow(2, m.attempt))
      else timers == []
  {
    if m.attempt < 5 { FirstDelays(m.attempt); }
  }

  lemma FirstDelays(attempt: nat)
    requires attempt < 5
    ensures RetryDelay(attempt) == 30_000_000 * Pow(2, attempt)
  {
    assert Pow(2, 1) == 2 && Pow(2, 2) == 4 && Pow(2, 3) == 8 && Pow(2, 4) == 16;
  }

  /** Health is polled every half minute, and no other message sets a timer. */
  lemma HealthIsPolled(m: Message, answer: Answer, plugins: PluginSet, now: Time)
    requires !m.ReconcileOutput? && !m.CatchUp?
    ensures TimersFor(m, answer, plugins, now) ==
            if m.PollHealth? then [Scheduled(now + 30_000_000, PollHealth)] else []
  {
  }

  // -- the graph, from the documents ---------------------------------------------------------------------------

  /** The graph of loaded documents holds exactly the rules they define and do not say are disabled. */
  lemma GraphOfDocuments(book: Loader.Rulebook, documents: seq<Option<Loader.Document>>, c: Config, n: Name)
    requires Loader.Acceptable(book, documents) && c == Loader.Meaning(book, documents)
    ensures n in GraphRules(c) <==>
            exists k: nat, raw, body :: Loader.Defines(documents, k, "rules", raw, body) && body.JObject?
                                        && Name(book.normalize(raw)) == n && !Loader.SaysDisabled(body.fields)
  {
    Loader.MeaningIsWellFormed(book, documents);
    GraphRulesMean(c, n);
    Loader.NothingElseLoaded(book, documents, c, n);
    if n in GraphRules(c) {
      var k, raw, body :| Loader.Defines(documents, k, "rules", raw, body) && Name(book.normalize(raw)) == n;
      Loader.LoadedRule(book, documents, c, k, raw, body);
    }
    if k: nat, raw, body :| Loader.Defines(documents, k, "rules", raw, body) && body.JObject?
                            && Name(book.normalize(raw)) == n && !Loader.SaysDisabled(body.fields) {
      Loader.LoadedRule(book, documents, c, k, raw, body);
    }
  }

  // -- startup, from the answers of the plugins --------------------------------------------------------------

  /** Input i of the graph has a plugin that saw an event at t. */
  ghost predicate Saw(plugins: PluginSet, catchUp: Name -> Option<seq<Event>>, i: Name, t: Time) {
    i in plugins.inputs && catchUp(i).Some? && exists e :: e in catchUp(i).value && e.occurredAt == t
  }

  ghost predicate SomeSaw(plugins: PluginSet, catchUp: Name -> Option<seq<Event>>, inputs: seq<Name>, t: Time) {
    exists i :: i in inputs && Saw(plugins, catchUp, i, t)
  }

  ghost predicate LaterThanAll(plugins: PluginSet, query: Name -> RemoteState, outputs: seq<Name>, t: Time) {
    forall o, c :: DatedClear(plugins, query, outputs, o, c) ==> c < t
  }

  /** Output o of these has a plugin that reports it cleared at c. */
  predicate DatedClear(plugins: PluginSet, query: Name -> RemoteState, outputs: seq<Name>, o: Name, c: Time) {
    o in outputs && o in plugins.outputs && query(o) == RemoteState(Cleared, Some(c))
  }

  /** Startup decides every rule by what the plugins of its own inputs saw and those of its own outputs believe: with a
      clear, set exactly when an event is later than every dated clear; without, exactly when it was set or there is an
      event. */
  lemma StartupFromAnswers(st: Settings, s: State, s': State, plugins: PluginSet,
                           catchUp: Name -> Option<seq<Event>>, query: Name -> RemoteState, now: Time, n: Name)
    requires WellIndexed(s.graph) && plugins.outputs == s.live && n in s.graph.rules
    requires Next(st, s, s', Label.Startup(CaughtUp(s.graph, plugins.inputs, catchUp),
                                           Answered(s.graph, plugins.outputs, query)), now)
    ensures
      var rule := s.graph.rules[n];
      LatchIn(s'.cache, n).state <==>
      if exists o :: o in rule.outputs && o in s.live && query(o).belief == Cleared then
        exists t :: SomeSaw(plugins, catchUp, rule.inputs, t) && LaterThanAll(plugins, query, rule.outputs, t)
      else LatchIn(s.cache, n).state || exists t :: SomeSaw(plugins, catchUp, rule.inputs, t)
  {
    var rule := s.graph.rules[n];
    var downtime, reports := CaughtUp(s.graph, plugins.inputs, catchUp), Answered(s.graph, plugins.outputs, query);
    Startup.StartupDecides(st, s, s', downtime, reports, now, n);
    EventsFromAnswers(s.graph, plugins, catchUp, n);
    ClearsFromAnswers(s.graph, plugins, query, n);
    forall t
      ensures (forall c :: Startup.ReportsClearAt(reports, rule.outputs, c) ==> c < t)
              <==> LaterThanAll(plugins, query, rule.outputs, t)
    {
      LaterThanClears(s.graph, plugins, query, n, t);
    }
    forall t ensures Startup.DowntimeEvent(downtime, rule.inputs, t) <==> SomeSaw(plugins, catchUp, rule.inputs, t) {}
  }

  /** Being later than every dated clear, said of what was collected and of what the plugins answered. */
  lemma LaterThanClears(g: Graph, plugins: PluginSet, query: Name -> RemoteState, n: Name, t: Time)
    requires WellIndexed(g) && n in g.rules
    ensures (forall c :: Startup.ReportsClearAt(Answered(g, plugins.outputs, query), g.rules[n].outputs, c) ==> c < t)
            <==> LaterThanAll(plugins, query, g.rules[n].outputs, t)
  {
    var reports, outputs := Answered(g, plugins.outputs, query), g.rules[n].outputs;
    ClearsFromAnswers(g, plugins, query, n);
    if forall c :: Startup.ReportsClearAt(reports, outputs, c) ==> c < t {
      forall o, c | DatedClear(plugins, query, outputs, o, c) ensures c < t {
        assert Startup.ReportsClearAt(reports, outputs, c);
      }
    }
    if LaterThanAll(plugins, query, outputs, t) {
      forall c | Startup.ReportsClearAt(reports, outputs, c) ensures c < t {
        var o :| o in outputs && o in plugins.outputs && query(o) == RemoteState(Cleared, Some(c));
        assert DatedClear(plugins, query, outputs, o, c);
      }
    }
  }

  lemma EventsFromAnswers(g: Graph, plugins: PluginSet, catchUp: Name -> Option<seq<Event>>, n: Name)
    requires WellIndexed(g) && n in g.rules
    ensures forall t :: Startup.DowntimeEvent(CaughtUp(g, plugins.inputs, catchUp), g.rules[n].inputs, t) <==>
                        exists i :: i in g.rules[n].inputs && Saw(plugins, catchUp, i, t)
  {
    MembersIndexed(g, n);
    var downtime, inputs := CaughtUp(g, plugins.inputs, catchUp), g.rules[n].inputs;
    forall t
      ensures Startup.DowntimeEvent(downtime, inputs, t) <==> exists i :: i in inputs && Saw(plugins, catchUp, i, t)
    {
      if Startup.DowntimeEvent(downtime, inputs, t) {
        var i, e: Event :| i in inputs && i in downtime && e in downtime[i] && e.occurredAt == t;
        assert Saw(plugins, catchUp, i, t);
      }
      if i :| i in inputs && Saw(plugins, catchUp, i, t) {
        var e :| e in catchUp(i).value && e.occurredAt == t;
        assert i in downtime && e in downtime[i];
      }
    }
  }

  lemma ClearsFromAnswers(g: Graph, plugins: PluginSet, query: Name -> RemoteState, n: Name)
    requires WellIndexed(g) && n in g.rules
    ensures
      var reports, outputs := Answered(g, plugins.outputs, query), g.rules[n].outputs;
      && (Startup.ReportsClear(reports, outputs) <==>
            exists o :: o in outputs && o in plugins.outputs && query(o).belief == Cleared)
      && (forall c :: Startup.ReportsClearAt(reports, outputs, c) <==>
            exists o :: o in outputs && o in plugins.outputs && query(o) == RemoteState(Cleared, Some(c)))
  {
    MembersIndexed(g, n);
    var reports := Answered(g, plugins.outputs, query);
    forall o ensures o in g.rules[n].outputs && o in plugins.outputs && query(o).belief == Cleared ==>
                     o in reports && reports[o] == query(o) {}
  }

  /** The members of a rule of the graph are in its indices. */
  lemma MembersIndexed(g: Graph, n: Name)
    requires WellIndexed(g) && n in g.rules
    ensures forall i :: i in g.rules[n].inputs ==> i in g.byInput
    ensures forall o :: o in g.rules[n].outputs ==> o in g.byOutput
  {
    forall i | i in g.rules[n].inputs ensures i in g.byInput {
      assert g.rules[n] in RulesFor(g.byInput, i);
    }
    forall o | o in g.rules[n].outputs ensures o in g.byOutput {
      assert g.rules[n] in RulesFor(g.byOutput, o);
    }
  }

  /** The timers there were stay where they are, and each retry comes after them once. */
  lemma RetriesAreAdded(before: seq<Scheduled>, after: seq<Scheduled>, retries: set<Scheduled>, t: Scheduled)
    requires AskedAgain(before, after, retries)
    ensures |before| <= |after| && forall k :: 0 <= k < |before| ==> after[k] == before[k]
    ensures t in retries <==> exists k :: |before| <= k < |after| && after[k] == t
    ensures forall j, k :: |before| <= j < k < |after| ==> after[j] != after[k]
  {
    var added := after[|before|..];
    forall k | 0 <= k < |before| ensures after[k] == before[k] {
      assert after[k] == after[..|before|][k];
    }
    assert forall k :: |before| <= k < |after| ==> after[k] == added[k - |before|];
    if t in retries {
      assert t in Elems(added);
      var k :| 0 <= k < |added| && added[k] == t;
      assert after[|before| + k] == t;
    }
    if k :| |before| <= k < |after| && after[k] == t {
      assert added[k - |before|] in Elems(added);
    }
  }

  /** The retries startup leaves: one, in half a minute, for each input of the graph whose plugin failed and each output
      whose plugin does not know. */
  lemma StartupRetries(g: Graph, plugins: PluginSet, catchUp: Name -> Option<seq<Event>>, query: Name -> RemoteState,
                       since: Option<Time>, now: Time, t: Scheduled)
    ensures t in CatchUpRetries(g, plugins.inputs, catchUp, since, now) <==>
            && t.at == now + 30_000_000 && t.message.CatchUp? && t.message.attempt == 1 && t.message.since == since
            && t.message.instance in g.byInput && t.message.instance in plugins.inputs
            && catchUp(t.message.instance) == None
    ensures t in QueryRetries(g, plugins.outputs, query, now) <==>
            && t.at == now + 30_000_000 && t.message.ReconcileOutput? && t.message.attempt == 1
            && t.message.instance in g.byOutput && t.message.instance in plugins.outputs
            && query(t.message.instance).belief == Unknown
  {
    var failed := set i | i in g.byInput && i in plugins.inputs && catchUp(i).None?;
    var unknown := set o | o in g.byOutput && o in plugins.outputs && query(o).belief.Unknown?;
    if t.message.CatchUp? && t == CatchUpTimer(t.message.instance, since, now) {
      assert t in CatchUpTimers(failed, since, now) <==> t.message.instance in failed;
    }
    if t.message.ReconcileOutput? && t == QueryTimer(t.message.instance, now) {
      assert t in QueryTimers(unknown, now) <==> t.message.instance in unknown;
    }
  }
}
