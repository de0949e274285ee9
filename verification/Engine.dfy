/** The core thread, which alone writes latches (src/noti_mapper/engine.py).
    Each handler is proved to take exactly the step of the transition system in Core.dfy that carries its name. */
module EngineThread {
  import opened Base
  import opened Rules
  import opened Configuration
  import opened Records
  import opened Reconcile
  import opened Messages
  import opened Core
  import opened Storage
  import opened Loop

  /** The rows of every other table entry are untouched and this one is what synchronisation wants. */
  ghost predicate RowsSynced(s: State, before: map<Name, Push>, after: map<Name, Push>, names: set<Name>,
                             now: Time, force: bool) {
    forall o :: Get(after, o) ==
                if o in names then SyncRow(Desired(s, o), Applied(s, o), Get(before, o), now, force) else Get(before, o)
  }

  /** Desired and applied values look only at the graph, the cache and the output table. */
  lemma SameView(s: State, t: State)
    requires s.graph == t.graph && s.outputs == t.outputs
    requires forall n :: LatchIn(s.cache, n) == LatchIn(t.cache, n)
    ensures Latched(s.cache) == Latched(t.cache)
    ensures forall o :: Desired(s, o) == Desired(t, o) && Applied(s, o) == Applied(t, o)
  {
    forall n ensures n in Latched(s.cache) <==> n in Latched(t.cache) {
      assert LatchIn(s.cache, n) == LatchIn(t.cache, n);
    }
    assert Latched(s.cache) == Latched(t.cache);
  }

  class Engine {
    const store: Store
    const settings: Settings
    var graph: Graph
    var inputs: set<Name>
    var live: set<Name>
    var cache: map<Name, Latch>
    var inFlight: set<Name>
    var timers: seq<Scheduled>
    var queue: seq<Message>
    var stopping: bool

    /** The state the transition system speaks of. */
    ghost function Abs(): State
      reads this, store
    {
      State(graph, cache, store.latches, store.outputState, store.pending, inFlight, live)
    }

    ghost function Plugins(): PluginSet
      reads this
    {
      PluginSet(inputs, live)
    }

    /** What the loop works on. */
    ghost function LoopView(): View
      reads this
    {
      View(Plugins(), timers, queue)
    }

    /** Every output in flight has its result in the queue, as with a dispatcher that applies before it returns. */
    ghost predicate Attended()
      reads this
    {
      inFlight <= Reported(queue)
    }

    /** A reload message carries a configuration the loader accepted, already mirrored into the rule table. */
    ghost predicate Acceptable(m: Message)
      reads store
    {
      m.ReloadRequest? ==> WellFormed(m.configuration) && m.configuration.rules.Keys <= store.rules.Keys
    }

    ghost predicate Valid()
      reads this, store
    {
      && WellIndexed(graph)
      && graph.rules.Keys <= store.rules.Keys
      && Coherent(Abs())
      && (forall m :: m in queue ==> Acceptable(m))
      && (forall t :: t in timers ==> OnTimer(t.message))
    }

    constructor (store: Store, graph: Graph, plugins: PluginSet, settings: Settings, now: Time)
      requires WellIndexed(graph) && graph.rules.Keys <= store.rules.Keys
      ensures Valid() && Attended()
      ensures this.store == store && this.settings == settings
      ensures Abs() == State(graph, store.latches, store.latches, store.outputState, store.pending, {}, plugins.outputs)
      ensures queue == [] && timers == [Scheduled(now, PollHealth)] && inputs == plugins.inputs && !stopping
    {
      this.store, this.settings, this.graph := store, settings, graph;
      inputs, live := plugins.inputs, plugins.outputs;
      cache := store.latches;
      inFlight, queue, stopping := {}, [], false;
      timers := [Scheduled(now, PollHealth)];
    }

    /** Puts a message on the queue, as plugins, the dispatcher and the daemon do. */
    method Submit(m: Message)
      requires Valid() && Acceptable(m)
      modifies this`queue
      ensures Valid() && Abs() == old(Abs()) && queue == old(queue) + [m]
      ensures old(Attended()) ==> Attended()
    {
      queue := queue + [m];
    }

    // -- small helpers -----------------------------------------------------------------

    /** Reading a latch that is not cached caches the cleared record. */
    method LatchFor(rule: Name) returns (record: Latch)
      modifies this`cache
      ensures record == LatchIn(old(cache), rule)
      ensures forall n :: LatchIn(cache, n) == LatchIn(old(cache), n)
    {
      if rule in cache {
        return cache[rule];
      }
      cache := cache[rule := UNTOUCHED];
      return UNTOUCHED;
    }

    method SetLatch(rule: Name, record: Latch)
      requires rule in store.rules
      modifies this`cache, store`latches
      ensures forall n :: LatchIn(cache, n) == if n == rule then record else LatchIn(old(cache), n)
      ensures forall n :: LatchIn(store.latches, n) == if n == rule then record else LatchIn(old(store.latches), n)
    {
      store.WriteLatch(rule, record);
      cache := cache[rule := record];
    }

    // -- output synchronisation ---------------------------------------------------------

    method SyncOutput(output: Name, now: Time, force: bool)
      modifies store`pending
      ensures RowsSynced(Abs(), old(store.pending), store.pending, {output}, now, force)
    {
      var desired := DesiredOutputState(graph, output, Latched(cache));
      var lastApplied := if output in store.outputState then store.outputState[output].lastApplied else None;
      var existing := Get(store.pending, output);
      if !force && lastApplied == Some(desired) {
        if existing.Some? {
          store.DeletePendingPush(output);
        }
        return;
      }
      if !force && existing.Some? && existing.value.target == desired {
        return;
      }
      store.WritePendingPush(output, Push(desired, 0, now, None));
    }

    method SyncOutputs(outputs: set<Name>, now: Time, force: bool)
      modifies store`pending
      ensures RowsSynced(Abs(), old(store.pending), store.pending, outputs, now, force)
    {
      var names := ListOf(outputs);
      ghost var s := Abs();
      for k := 0 to |names|
        invariant Abs() == s.(pending := store.pending)
        invariant RowsSynced(s, old(store.pending), store.pending, Elems(names[..k]), now, force)
      {
        assert names[k] !in names[..k];
        assert Elems(names[..k + 1]) == Elems(names[..k]) + {names[k]};
        SyncOutput(names[k], now, force);
      }
      assert names[..|names|] == names;
    }

    // -- input events ----------------------------------------------------------------------

    method ApplyTrigger(rule: Name, cause: Name, e: Event)
      requires rule in store.rules
      modifies this`cache, store`latches
      ensures forall n :: LatchIn(cache, n) ==
                          if n == rule then Triggered(LatchIn(old(cache), n), cause, e) else LatchIn(old(cache), n)
      ensures forall n :: LatchIn(store.latches, n) ==
                          if n == rule then LatchIn(cache, n) else LatchIn(old(store.latches), n)
    {
      var record := LatchFor(rule);
      if record.state {
        // Re-triggering moves the counter and the timestamp but produces no output transition.
        SetLatch(rule, record.(setAt := Some(e.occurredAt), triggerCount := record.triggerCount + 1,
                               lastCause := Some(cause), lastDetail := Some(e.summary)));
        return;
      }
      SetLatch(rule, record.(state := true, setAt := Some(e.occurredAt), triggerCount := record.triggerCount + 1,
                             lastCause := Some(cause), lastDetail := Some(e.summary)));
    }

    method ApplyTriggers(rules: seq<Rule>, cause: Name, e: Event)
      requires DistinctNames(rules) && forall r :: r in rules ==> r.name in store.rules
      modifies this`cache, store`latches
      ensures forall n :: LatchIn(cache, n) ==
                          if n in NamesOf(rules) then Triggered(LatchIn(old(cache), n), cause, e)
                          else LatchIn(old(cache), n)
      ensures forall n :: LatchIn(store.latches, n) ==
                          if n in NamesOf(rules) then LatchIn(cache, n) else LatchIn(old(store.latches), n)
    {
      for k := 0 to |rules|
        invariant forall n :: LatchIn(cache, n) ==
                              if n in NamesOf(rules[..k]) then Triggered(LatchIn(old(cache), n), cause, e)
                              else LatchIn(old(cache), n)
        invariant forall n :: LatchIn(store.latches, n) ==
                              if n in NamesOf(rules[..k]) then LatchIn(cache, n) else LatchIn(old(store.latches), n)
      {
        assert rules[k] in rules;
        NamesGrow(rules, k);
        ApplyTrigger(rules[k].name, cause, e);
      }
      assert rules[..|rules|] == rules;
    }

    method HandleInputEvent(instance: Name, e: Event, now: Time)
      requires Valid()
      modifies this`cache, store`latches, store`pending
      ensures Valid()
      ensures Next(settings, old(Abs()), Abs(), Trigger(instance, e), now)
    {
      ghost var s := Abs();
      var rules := RulesFor(graph.byInput, instance);
      LookupsAreScans(graph, instance);
      ApplyTriggers(rules, instance, e);
      ghost var mid := Abs();
      var affected := AffectedByRules(rules);
      SyncOutputs(affected, now, false);
      TriggerLatches(s, mid, instance, e, now);
      StepHolds(settings, s, mid, Abs(), Trigger(instance, e), now);
    }

    // -- unlatch --------------------------------------------------------------------------------

    method ClearLatches(rules: seq<Rule>, cause: Name, now: Time)
      requires DistinctNames(rules) && forall r :: r in rules ==> r.name in store.rules
      modifies this`cache, store`latches
      ensures forall n :: LatchIn(cache, n) ==
                          if n in NamesOf(rules) then Unlatched(LatchIn(old(cache), n), cause, now)
                          else LatchIn(old(cache), n)
      ensures forall n :: LatchIn(store.latches, n) ==
                          if n in NamesOf(rules) then LatchIn(cache, n) else LatchIn(old(store.latches), n)
    {
      for k := 0 to |rules|
        invariant forall n :: LatchIn(cache, n) ==
                              if n in NamesOf(rules[..k]) then Unlatched(LatchIn(old(cache), n), cause, now)
                              else LatchIn(old(cache), n)
        invariant forall n :: LatchIn(store.latches, n) ==
                              if n in NamesOf(rules[..k]) then LatchIn(cache, n) else LatchIn(old(store.latches), n)
      {
        assert rules[k] in rules;
        NamesGrow(rules, k);
        var record := LatchFor(rules[k].name);
        SetLatch(rules[k].name, record.(state := false, clearedAt := Some(now), lastCause := Some(cause)));
      }
      assert rules[..|rules|] == rules;
    }

    method HandleUnlatch(instance: Name, now: Time)
      requires Valid()
      modifies this`cache, store`latches, store`pending
      ensures Valid()
      ensures Next(settings, old(Abs()), Abs(), Unlatch(instance), now)
    {
      ghost var s := Abs();
      var rules, setRules := RulesToClear(instance);
      if setRules == [] {
        NothingToClear(settings, s, Abs(), instance, now);
        return;
      }
      assert setRules[0].name in NamesOf(setRules);
      ghost var mid := ClearAndSync(rules, setRules, instance, now);
      UnlatchStep(settings, s, mid, Abs(), instance, now);
    }

    /** The rules of an output, and those of them that are set. */
    method RulesToClear(instance: Name) returns (rules: seq<Rule>, setRules: seq<Rule>)
      requires WellIndexed(graph) && graph.rules.Keys <= store.rules.Keys
      modifies this`cache
      ensures forall n :: LatchIn(cache, n) == LatchIn(old(cache), n)
      ensures NamesOf(rules) == RenderedBy(graph, instance)
      ensures NamesOf(setRules) == RenderedBy(graph, instance) * Latched(old(cache))
      ensures DistinctNames(setRules) && forall r :: r in setRules ==> r.name in store.rules
    {
      rules := RulesFor(graph.byOutput, instance);
      LookupsAreScans(graph, instance);
      setRules := SetAmong(rules);
      SetNames(old(Abs()), rules, setRules);
    }

    /** Clears the set rules and re-synchronises every output of the rules. */
    method ClearAndSync(rules: seq<Rule>, setRules: seq<Rule>, cause: Name, now: Time) returns (ghost mid: State)
      requires DistinctNames(setRules) && forall r :: r in setRules ==> r.name in store.rules
      modifies this`cache, store`latches, store`pending
      ensures mid == old(Abs()).(cache := cache, rows := store.latches) && Abs() == mid.(pending := store.pending)
      ensures forall n :: LatchIn(cache, n) ==
                          if n in NamesOf(setRules) then Unlatched(LatchIn(old(cache), n), cause, now)
                          else LatchIn(old(cache), n)
      ensures forall n :: LatchIn(store.latches, n) ==
                          if n in NamesOf(setRules) then LatchIn(cache, n) else LatchIn(old(store.latches), n)
      ensures RowsSynced(Abs(), mid.pending, store.pending, Affected(graph, NamesOf(rules)), now, false)
    {
      ClearLatches(setRules, cause, now);
      mid := Abs();
      var affected := AffectedByRules(rules);
      SyncOutputs(affected, now, false);
    }

    /** The rules whose latch is set, in order. */
    method SetAmong(rules: seq<Rule>) returns (setRules: seq<Rule>)
      requires DistinctNames(rules)
      modifies this`cache
      ensures forall n :: LatchIn(cache, n) == LatchIn(old(cache), n)
      ensures DistinctNames(setRules)
      ensures forall r :: r in setRules <==> r in rules && LatchIn(old(cache), r.name).state
    {
      setRules := [];
      for k := 0 to |rules|
        invariant forall n :: LatchIn(cache, n) == LatchIn(old(cache), n)
        invariant DistinctNames(setRules)
        invariant forall r :: r in setRules <==> r in rules[..k] && LatchIn(old(cache), r.name).state
      {
        assert rules[..k + 1] == rules[..k] + [rules[k]];
        var record := LatchFor(rules[k].name);
        if record.state {
          forall r | r in setRules ensures r.name != rules[k].name {
            assert r in rules[..k];
          }
          setRules := setRules + [rules[k]];
        }
      }
      assert rules[..|rules|] == rules;
    }

    // -- push results --------------------------------------------------------------------------

    method HandlePushResult(instance: Name, value: bool, ok: bool, error: Option<string>, now: Time)
      requires Valid()
      modifies this`inFlight, store`outputState, store`pending
      ensures Valid()
      ensures Next(settings, old(Abs()), Abs(), Result(instance, value, ok, error), now)
    {
      ghost var s := Abs();
      inFlight := inFlight - {instance};
      if ok {
        store.WriteOutputState(instance, OutputState(Some(value), Some(value), Some(now)));
      } else {
        RecordPushFailure(instance, value, error, now);
      }
      ghost var mid := Abs();
      SyncOutputs({instance}, now, false);
      ResultStep(settings, s, mid, Abs(), instance, value, ok, error, now);
    }

    method RecordPushFailure(instance: Name, value: bool, error: Option<string>, now: Time)
      modifies store`pending
      ensures store.pending == old(store.pending)[
                instance := FailureRow(settings, Get(old(store.pending), instance), value, error, now)]
    {
      var existing := Get(store.pending, instance);
      var attempts := if existing.None? then 1 else existing.value.attempts + 1;
      var delay := Backoff(settings, attempts);
      store.WritePendingPush(instance, Push(value, attempts, now + delay, error));
    }

    // -- dispatch ---------------------------------------------------------------------------------

    /** The names of the set rules, in order. */
    method DrivingRules(rules: seq<Rule>) returns (driving: seq<Name>)
      modifies this`cache
      ensures forall n :: LatchIn(cache, n) == LatchIn(old(cache), n)
      ensures driving == DrivingList(old(cache), rules)
    {
      driving := [];
      for k := 0 to |rules|
        invariant forall n :: LatchIn(cache, n) == LatchIn(old(cache), n)
        invariant driving == DrivingList(old(cache), rules[..k])
      {
        assert rules[..k + 1][..k] == rules[..k];
        var record := LatchFor(rules[k].name);
        if record.state {
          driving := driving + [rules[k].name];
        }
      }
      assert rules[..|rules|] == rules;
    }

    /** Says to what an output is driven, by which rules and since when. */
    method BuildUpdate(output: Name, desired: bool) returns (u: Update)
      requires WellIndexed(graph)
      requires desired == DesiredOutputState(graph, output, Latched(cache))
      modifies this`cache
      ensures forall n :: LatchIn(cache, n) == LatchIn(old(cache), n)
      ensures Describes(old(Abs()), output, u)
    {
      if !desired {
        return Update(false, "", "", 0, {}, None);
      }
      ghost var s := Abs();
      var rules := RulesFor(graph.byOutput, output);
      LookupsAreScans(graph, output);
      DesiredIsOr(graph, output, Latched(s.cache));
      DrivingListIs(s.cache, rules);
      var driving := DrivingRules(rules);
      assert driving != [];
      var i, total := NewestOf(driving);
      var record := LatchIn(cache, driving[i]);
      u := Update(true, if record.lastCause.Some? then record.lastCause.value.text else "",
                  if record.lastDetail.Some? then record.lastDetail.value else "",
                  total, Elems(driving), record.setAt);
      SameNewest(s.cache, cache, driving, u, i);
    }

    /** The most recently set of the driving rules, the first of them on a tie, and their triggers in all. */
    method NewestOf(driving: seq<Name>) returns (newest: nat, total: nat)
      requires driving != []
      ensures newest < |driving| && total == SumCounts(cache, driving)
      ensures forall j :: 0 <= j < newest ==>
                IsNewer(LatchIn(cache, driving[newest]).setAt, LatchIn(cache, driving[j]).setAt)
      ensures forall j :: newest < j < |driving| ==>
                !IsNewer(LatchIn(cache, driving[j]).setAt, LatchIn(cache, driving[newest]).setAt)
    {
      newest, total := 0, 0;
      for k := 0 to |driving|
        invariant newest < |driving| && newest <= k && total == SumCounts(cache, driving[..k])
        invariant forall j :: 0 <= j < newest ==>
                    IsNewer(LatchIn(cache, driving[newest]).setAt, LatchIn(cache, driving[j]).setAt)
        invariant forall j :: newest < j < k ==>
                    !IsNewer(LatchIn(cache, driving[j]).setAt, LatchIn(cache, driving[newest]).setAt)
      {
        assert driving[..k + 1][..k] == driving[..k];
        total := total + LatchIn(cache, driving[k]).triggerCount;
        if IsNewer(LatchIn(cache, driving[k]).setAt, LatchIn(cache, driving[newest]).setAt) {
          newest := k;
        }
      }
      assert driving[..|driving|] == driving;
    }

    /** Decides one due push: skipped while in flight, dropped without a plugin, otherwise brought up to date. */
    method Prepare(o: Name, now: Time) returns (request: Option<Request>)
      requires WellIndexed(graph) && o in store.pending && store.pending[o].due <= now
      modifies this`cache, store`pending
      ensures forall n :: LatchIn(cache, n) == LatchIn(old(cache), n)
      ensures forall x :: Get(store.pending, x) ==
                          if x == o then RowBetween(settings, old(Abs()), Dispatch([]), now, o)
                          else Get(old(store.pending), x)
      ensures request.Some? <==> o !in inFlight && o in live
      ensures request.Some? ==> request.value.output == o && Describes(old(Abs()), o, request.value.update)
    {
      ghost var s := Abs();
      if o in inFlight {
        return None;
      }
      if o !in live {
        store.DeletePendingPush(o);
        return None;
      }
      var desired := DesiredOutputState(graph, o, Latched(cache));
      if desired != store.pending[o].target {
        store.WritePendingPush(o, store.pending[o].(target := desired));
      }
      ghost var view := Abs();
      var update := BuildUpdate(o, desired);
      SameDescription(s, view, o, update);
      return Some(Request(o, update));
    }

    /** Sends every due push that is neither in flight nor without a plugin, with the state of this moment. */
    method DispatchDuePushes(now: Time) returns (sent: seq<Request>)
      requires Valid()
      modifies this`cache, this`inFlight, store`pending
      ensures Valid()
      ensures Next(settings, old(Abs()), Abs(), Dispatch(sent), now)
      ensures forall n :: LatchIn(cache, n) == LatchIn(old(cache), n)
    {
      ghost var s := Abs();
      var due := store.PendingPushesDue(now);
      sent := PrepareDue(due, now);
      ghost var t := Abs();
      MarkInFlight(sent);
      PreparedAll(settings, s, t, Abs(), due, now, sent);
    }

    /** Decides the due pushes one by one and collects what to send. */
    method PrepareDue(due: seq<Name>, now: Time) returns (sent: seq<Request>)
      requires WellIndexed(graph) && Distinct(due) && InPushOrder(store.pending, due)
      requires forall o :: o in due ==> o in store.pending && store.pending[o].due <= now
      modifies this`cache, store`pending
      ensures Abs() == old(Abs()).(cache := cache, pending := store.pending)
      ensures Preparing(settings, old(Abs()), Abs(), due, now, sent)
    {
      ghost var s := Abs();
      sent := [];
      for k := 0 to |due|
        invariant Abs() == s.(cache := cache, pending := store.pending)
        invariant Preparing(settings, s, Abs(), due[..k], now, sent)
      {
        var o := due[k];
        assert o in due && o !in due[..k];
        ComesAfter(s.pending, due, k);
        assert Get(store.pending, o) == Get(s.pending, o);
        ghost var t := Abs();
        var request := Prepare(o, now);
        PreparedOne(settings, s, t, Abs(), due[..k], o, now, sent, request);
        assert due[..k + 1] == due[..k] + [o];
        if request.Some? {
          sent := sent + [request.value];
        }
      }
      assert due[..|due|] == due;
    }

    method MarkInFlight(sent: seq<Request>)
      modifies this`inFlight
      ensures inFlight == old(inFlight) + Targets(sent)
    {
      for k := 0 to |sent|
        invariant inFlight == old(inFlight) + Targets(sent[..k])
      {
        assert sent[..k + 1] == sent[..k] + [sent[k]];
        inFlight := inFlight + {sent[k].output};
      }
      assert sent[..|sent|] == sent;
    }

    // -- reload ----------------------------------------------------------------------------------

    method HandleReload(configuration: Config, plugins: Option<PluginSet>, now: Time)
      requires Valid() && Acceptable(ReloadRequest(configuration, plugins))
      modifies this`graph, this`inputs, this`live, this`cache, store`pending
      ensures Valid()
      ensures Next(settings, old(Abs()), Abs(),
                   Reload(graph, if plugins.Some? then Some(plugins.value.outputs) else None), now)
      ensures graph.rules == GraphRules(configuration)
      ensures Plugins() == PluginsNext(old(Plugins()), ReloadRequest(configuration, plugins))
    {
      ghost var s := Abs();
      var previous := graph.byOutput.Keys;
      Rebuild(configuration, plugins);
      ghost var mid := Abs();
      SyncOutputs(previous + graph.byOutput.Keys, now, false);
      ReloadStep(settings, s, mid, Abs(), if plugins.Some? then Some(plugins.value.outputs) else None, now);
    }

    /** Takes over the plugins, if there are new ones, and the graph, and reads the latches back. */
    method Rebuild(configuration: Config, plugins: Option<PluginSet>)
      requires WellFormed(configuration)
      modifies this`graph, this`inputs, this`live, this`cache
      ensures WellIndexed(graph) && graph.rules == GraphRules(configuration) && cache == store.latches
      ensures Plugins() == PluginsNext(old(Plugins()), ReloadRequest(configuration, plugins))
    {
      if plugins.Some? {
        inputs, live := plugins.value.inputs, plugins.value.outputs;
      }
      graph := FromConfiguration(configuration);
      cache := store.latches;
    }

    // -- reconciliation ----------------------------------------------------------------------------

    method ApplyReconcileOutcome(rule: Name, outcome: Outcome, extra: nat)
      requires rule in store.rules
      modifies this`cache, store`latches
      ensures Rewrites(old(Abs()), Abs(), rule, Reconciled(LatchIn(old(cache), rule), outcome, extra))
    {
      var record := LatchFor(rule);
      var updated := record.(state := outcome.state, setAt := outcome.setAt, clearedAt := outcome.clearedAt,
                             triggerCount := record.triggerCount + extra);
      if updated != record {
        SetLatch(rule, updated);
      }
    }

    /** Settles the rules of an output that answered after startup. */
    method SettleRules(output: Name, rules: seq<Rule>, answer: RemoteState, now: Time)
      requires NamesOf(rules) == RenderedBy(graph, output)
      requires DistinctNames(rules) && forall r :: r in rules ==> r.name in store.rules
      modifies this`cache, store`latches
      ensures Settled(old(Abs()), Abs(), NamesOf(rules), Retry(output, answer), now)
    {
      ghost var s := Abs();
      for k := 0 to |rules|
        invariant Settled(s, Abs(), NamesOf(rules[..k]), Retry(output, answer), now)
      {
        assert rules[k] in rules && rules[k].name in NamesOf(rules);
        NamesGrow(rules, k);
        ghost var t := Abs();
        SettleLate(rules[k].name, answer, now);
        SettledOne(s, t, Abs(), NamesOf(rules[..k]), rules[k].name,
                   RetryLatch(LatchIn(t.cache, rules[k].name), answer, now), Retry(output, answer), now);
      }
      assert rules[..|rules|] == rules;
    }

    method SettleLate(rule: Name, answer: RemoteState, now: Time)
      requires rule in store.rules
      modifies this`cache, store`latches
      ensures Rewrites(old(Abs()), Abs(), rule, RetryLatch(LatchIn(old(cache), rule), answer, now))
    {
      var record := LatchFor(rule);
      var outcome := ResolveRule(now, record, None, [answer]);
      ApplyReconcileOutcome(rule, outcome, 0);
    }

    /** Settles the rules of an output that answered after startup, or asks it again later. */
    method HandleReconcileRetry(instance: Name, attempt: nat, answer: RemoteState, now: Time)
      returns (ghost trace: seq<State>, ghost steps: seq<Step>)
      requires Valid()
      modifies this`cache, this`timers, store`latches, store`pending
      ensures Valid()
      ensures Leads(settings, old(Abs()), Abs(), trace, steps)
      ensures steps == if instance in live && !answer.belief.Unknown? then [Step(Retry(instance, answer), now)] else []
      ensures timers == old(timers)
              + if instance in live && answer.belief.Unknown?
                then [Scheduled(now + RetryDelay(attempt), ReconcileOutput(instance, attempt + 1))] else []
    {
      trace, steps := [Abs()], [];
      LeadsNowhere(settings, Abs());
      if instance !in live {
        return;
      }
      if answer.belief.Unknown? {
        timers := timers + [Scheduled(now + RetryDelay(attempt), ReconcileOutput(instance, attempt + 1))];
        return;
      }
      ghost var s := Abs();
      SettleOutput(instance, answer, now);
      LeadsByStep(settings, s, Abs(), Retry(instance, answer), now);
      trace, steps := [s, Abs()], [Step(Retry(instance, answer), now)];
    }

    /** Settles the rules of an output from its answer and re-synchronises what they affect. */
    method SettleOutput(instance: Name, answer: RemoteState, now: Time)
      requires Valid() && instance in live && !answer.belief.Unknown?
      modifies this`cache, store`latches, store`pending
      ensures Valid() && Next(settings, old(Abs()), Abs(), Retry(instance, answer), now)
    {
      ghost var s := Abs();
      var rules := RulesFor(graph.byOutput, instance);
      LookupsAreScans(graph, instance);
      SettleRules(instance, rules, answer, now);
      ghost var mid := Abs();
      var affected := AffectedByRules(rules);
      SyncOutputs(affected, now, false);
      SettledStep(s, mid, RenderedBy(graph, instance), Retry(instance, answer), now);
      StepHolds(settings, s, mid, Abs(), Retry(instance, answer), now);
    }

    /** Asks every input with a plugin what it missed; one that fails is asked again later. */
    method CollectDowntimeEvents(catchUp: Name -> Option<seq<Event>>, since: Option<Time>, now: Time)
      returns (collected: map<Name, seq<Event>>)
      modifies this`timers
      ensures collected == CaughtUp(graph, inputs, catchUp)
      ensures AskedAgain(old(timers), timers, CatchUpRetries(graph, inputs, catchUp, since, now))
    {
      collected := map[];
      var names := ListOf(graph.byInput.Keys);
      ghost var failed: set<Name> := {};
      for k := 0 to |names|
        invariant forall i :: i in collected <==> i in names[..k] && i in inputs && catchUp(i).Some?
        invariant forall i :: i in collected ==> collected[i] == catchUp(i).value
        invariant failed == set i | i in names[..k] && i in inputs && catchUp(i).None?
        invariant AskedAgain(old(timers), timers, CatchUpTimers(failed, since, now))
      {
        assert names[..k + 1] == names[..k] + [names[k]];
        assert names[k] !in failed;
        if names[k] !in inputs {
          continue;
        }
        match catchUp(names[k]) {
          case Some(events) => collected := collected[names[k] := events];
          case None =>
            AskAgain(old(timers), timers, CatchUpTimers(failed, since, now), CatchUpTimer(names[k], since, now));
            assert CatchUpTimers(failed + {names[k]}, since, now)
                == CatchUpTimers(failed, since, now) + {CatchUpTimer(names[k], since, now)};
            timers := timers + [Scheduled(now + RECONCILE_RETRY_INITIAL, CatchUp(names[k], 1, since))];
            failed := failed + {names[k]};
        }
      }
      assert names[..|names|] == names;
      assert failed == set i | i in graph.byInput && i in inputs && catchUp(i).None?;
    }

    /** Asks every output with a plugin what its remote believes; one that does not know is asked again later. */
    method CollectRemoteStates(query: Name -> RemoteState, now: Time) returns (collected: map<Name, RemoteState>)
      modifies this`timers
      ensures collected == Answered(graph, live, query)
      ensures AskedAgain(old(timers), timers, QueryRetries(graph, live, query, now))
    {
      collected := map[];
      var names := ListOf(graph.byOutput.Keys);
      ghost var unknown: set<Name> := {};
      for k := 0 to |names|
        invariant forall o :: o in collected <==> o in names[..k] && o in live && !query(o).belief.Unknown?
        invariant forall o :: o in collected ==> collected[o] == query(o)
        invariant unknown == set o | o in names[..k] && o in live && query(o).belief.Unknown?
        invariant AskedAgain(old(timers), timers, QueryTimers(unknown, now))
      {
        assert names[..k + 1] == names[..k] + [names[k]];
        assert names[k] !in unknown;
        if names[k] !in live {
          continue;
        }
        var state := query(names[k]);
        if state.belief.Unknown? {
          AskAgain(old(timers), timers, QueryTimers(unknown, now), QueryTimer(names[k], now));
          assert QueryTimers(unknown + {names[k]}, now) == QueryTimers(unknown, now) + {QueryTimer(names[k], now)};
          timers := timers + [Scheduled(now + RECONCILE_RETRY_INITIAL, ReconcileOutput(names[k], 1))];
          unknown := unknown + {names[k]};
          continue;
        }
        collected := collected[names[k] := state];
      }
      assert names[..|names|] == names;
      assert unknown == set o | o in graph.byOutput && o in live && query(o).belief.Unknown?;
    }

    /** Settles one rule from what was collected of its inputs and outputs. */
    method SettleRule(rule: Rule, downtime: map<Name, seq<Event>>, reports: map<Name, RemoteState>, now: Time)
      requires rule.name in store.rules
      modifies this`cache, store`latches
      ensures Rewrites(old(Abs()), Abs(), rule.name,
                       StartupLatch(LatchIn(old(cache), rule.name), rule, downtime, reports, now))
    {
      var latest, count := Summarize(downtime, rule.inputs);
      var ruleReports := GatherReports(reports, rule.outputs);
      var record := LatchFor(rule.name);
      var outcome := ResolveRule(now, record, latest, ruleReports);
      ApplyReconcileOutcome(rule.name, outcome, count);
    }

    /** Settles every rule of the graph from what was collected. */
    method SettleAll(downtime: map<Name, seq<Event>>, reports: map<Name, RemoteState>, now: Time)
      requires graph.rules.Keys <= store.rules.Keys
      requires forall n :: n in graph.rules ==> graph.rules[n].name == n
      modifies this`cache, store`latches
      ensures Settled(old(Abs()), Abs(), graph.rules.Keys, Startup(downtime, reports), now)
    {
      ghost var s := Abs();
      var names := ListOf(graph.rules.Keys);
      for k := 0 to |names|
        invariant Settled(s, Abs(), Elems(names[..k]), Startup(downtime, reports), now)
      {
        ListedNext(names, k);
        ghost var t := Abs();
        SettleRule(graph.rules[names[k]], downtime, reports, now);
        SettledAtStartup(s, t, Abs(), Elems(names[..k]), names[k], downtime, reports, now);
      }
      assert Elems(names[..|names|]) == graph.rules.Keys;
    }

    /** Settles every rule and forces every output to be pushed. */
    method SettleAndForce(downtime: map<Name, seq<Event>>, reports: map<Name, RemoteState>, now: Time)
      returns (ghost settled: State)
      requires graph.rules.Keys <= store.rules.Keys
      requires forall n :: n in graph.rules ==> graph.rules[n].name == n
      modifies this`cache, store`latches, store`pending
      ensures Settled(old(Abs()), settled, graph.rules.Keys, Startup(downtime, reports), now)
      ensures Abs() == settled.(pending := store.pending)
      ensures RowsSynced(Abs(), settled.pending, store.pending, graph.byOutput.Keys, now, true)
    {
      SettleAll(downtime, reports, now);
      settled := Abs();
      SyncOutputs(graph.byOutput.Keys, now, true);
    }

    /** Startup: settles every rule from what plugins saw and believe, forces every output to be pushed,
        and dispatches. The plugins' answers are parameters; each plugin is asked once. */
    method Reconcile(catchUp: Name -> Option<seq<Event>>, query: Name -> RemoteState, since: Option<Time>, now: Time)
      returns (sent: seq<Request>, downtime: map<Name, seq<Event>>, reports: map<Name, RemoteState>, ghost mid: State)
      requires Valid()
      modifies this`cache, this`inFlight, this`timers, store`latches, store`pending
      ensures Valid()
      ensures downtime == CaughtUp(graph, inputs, catchUp) && reports == Answered(graph, live, query)
      ensures Next(settings, old(Abs()), mid, Startup(downtime, reports), now)
      ensures Next(settings, mid, Abs(), Dispatch(sent), now)
      ensures AskedAgain(old(timers), timers, CatchUpRetries(graph, inputs, catchUp, since, now)
                                              + QueryRetries(graph, live, query, now))
      ensures forall o :: o in graph.byOutput && o in live && o !in old(inFlight) ==> o in Targets(sent)
    {
      ghost var s := Abs();
      downtime, reports := CollectAndSettle(catchUp, query, since, now);
      mid := Abs();
      sent := DispatchDuePushes(now);
      StartupSendsAll(settings, s, mid, Abs(), downtime, reports, sent, now);
    }

    /** Asks every plugin of the graph. */
    method Collect(
      catchUp: Name -> Option<seq<Event>>, query: Name -> RemoteState, since: Option<Time>, now: Time)
      returns (downtime: map<Name, seq<Event>>, reports: map<Name, RemoteState>)
      requires Valid()
      modifies this`timers
      ensures Valid()
      ensures downtime == CaughtUp(graph, inputs, catchUp) && reports == Answered(graph, live, query)
      ensures AskedAgain(old(timers), timers, CatchUpRetries(graph, inputs, catchUp, since, now)
                                              + QueryRetries(graph, live, query, now))
    {
      downtime := CollectDowntimeEvents(catchUp, since, now);
      ghost var between := timers;
      reports := CollectRemoteStates(query, now);
      StartupTimers(old(timers), between, timers, graph, Plugins(), catchUp, query, since, now);
    }

    method CollectAndSettle(
      catchUp: Name -> Option<seq<Event>>, query: Name -> RemoteState, since: Option<Time>, now: Time)
      returns (downtime: map<Name, seq<Event>>, reports: map<Name, RemoteState>)
      requires Valid()
      modifies this`cache, this`timers, store`latches, store`pending
      ensures Valid()
      ensures downtime == CaughtUp(graph, inputs, catchUp) && reports == Answered(graph, live, query)
      ensures Next(settings, old(Abs()), Abs(), Startup(downtime, reports), now)
      ensures AskedAgain(old(timers), timers, CatchUpRetries(graph, inputs, catchUp, since, now)
                                              + QueryRetries(graph, live, query, now))
    {
      downtime, reports := Collect(catchUp, query, since, now);
      ghost var s := Abs();
      ghost var settled := SettleAndForce(downtime, reports, now);
      StartupStep(settings, s, settled, Abs(), downtime, reports, now);
    }

    // -- message dispatch ------------------------------------------------------------------------------

    /** Replays what an input missed, event by event, once it answers. */
    method HandleCatchUpRetry(instance: Name, attempt: nat, since: Option<Time>, answer: Option<seq<Event>>, now: Time)
      returns (ghost trace: seq<State>, ghost steps: seq<Step>)
      requires Valid()
      modifies this`cache, this`timers, store`latches, store`pending
      ensures Valid()
      ensures Leads(settings, old(Abs()), Abs(), trace, steps)
      ensures steps == if instance in inputs && answer.Some? then Replay(instance, answer.value, now) else []
      ensures timers == if instance in inputs && answer.None?
                        then old(timers) + [Scheduled(now + RetryDelay(attempt), CatchUp(instance, attempt + 1, since))]
                        else old(timers)
    {
      trace, steps := [Abs()], [];
      LeadsNowhere(settings, Abs());
      if instance !in inputs {
        return;
      }
      if answer.None? {
        timers := timers + [Scheduled(now + RetryDelay(attempt), CatchUp(instance, attempt + 1, since))];
        return;
      }
      var events := answer.value;
      for k := 0 to |events|
        invariant Valid() && timers == old(timers)
        invariant Leads(settings, old(Abs()), Abs(), trace, steps)
        invariant steps == Replay(instance, events[..k], now)
      {
        ghost var s := Abs();
        HandleInputEvent(instance, events[k], now);
        LeadsByStep(settings, s, Abs(), Trigger(instance, events[k]), now);
        LeadsOn(settings, old(Abs()), s, Abs(), trace, steps, [s, Abs()], [Step(Trigger(instance, events[k]), now)]);
        trace, steps := trace + [s, Abs()][1..], steps + [Step(Trigger(instance, events[k]), now)];
      }
      assert events[..|events|] == events;
    }

    /** Handles a message from a plugin: an event, or a request to unlatch. */
    method HandlePluginMessage(m: Message, answer: Answer, now: Time)
      returns (ghost trace: seq<State>, ghost steps: seq<Step>)
      requires Valid() && (m.InputEvent? || m.UnlatchRequest?)
      modifies this`cache, store`latches, store`pending
      ensures Valid()
      ensures Leads(settings, old(Abs()), Abs(), trace, steps)
      ensures StepsFor(m, answer, Plugins(), steps, now)
    {
      ghost var s := Abs();
      if m.InputEvent? {
        HandleInputEvent(m.instance, m.event, now);
        trace, steps := OneStep(settings, s, Abs(), Trigger(m.instance, m.event), now);
      } else {
        HandleUnlatch(m.instance, now);
        trace, steps := OneStep(settings, s, Abs(), Unlatch(m.instance), now);
      }
    }

    /** Handles what the dispatcher or the daemon sends: a result, or a reload. */
    method HandleResultOrReload(m: Message, answer: Answer, now: Time)
      returns (ghost trace: seq<State>, ghost steps: seq<Step>)
      requires Valid() && Acceptable(m) && (m.PushResult? || m.ReloadRequest?)
      modifies this`graph, this`inputs, this`live, this`cache, this`inFlight, store`outputState, store`pending
      ensures Valid()
      ensures Leads(settings, old(Abs()), Abs(), trace, steps)
      ensures StepsFor(m, answer, old(Plugins()), steps, now)
      ensures Plugins() == PluginsNext(old(Plugins()), m)
      ensures inFlight == if m.PushResult? then old(inFlight) - {m.instance} else old(inFlight)
    {
      ghost var s := Abs();
      if m.PushResult? {
        HandlePushResult(m.instance, m.value, m.ok, m.error, now);
        trace, steps := OneStep(settings, s, Abs(), Result(m.instance, m.value, m.ok, m.error), now);
      } else {
        HandleReload(m.configuration, m.plugins, now);
        ghost var outputs := if m.plugins.Some? then Some(m.plugins.value.outputs) else None;
        trace, steps := OneStep(settings, s, Abs(), Reload(graph, outputs), now);
      }
    }

    /** Handles a message the core scheduled for itself. */
    method HandleTimer(m: Message, answer: Answer, now: Time) returns (ghost trace: seq<State>, ghost steps: seq<Step>)
      requires Valid() && OnTimer(m)
      modifies this`cache, this`timers, store`latches, store`pending
      ensures Valid()
      ensures Leads(settings, old(Abs()), Abs(), trace, steps)
      ensures StepsFor(m, answer, Plugins(), steps, now)
      ensures timers == old(timers) + TimersFor(m, answer, Plugins(), now)
    {
      if m.ReconcileOutput? {
        trace, steps := HandleReconcileRetry(m.instance, m.attempt, answer.remote, now);
      } else if m.CatchUp? {
        trace, steps := HandleCatchUpRetry(m.instance, m.attempt, m.since, answer.events, now);
      } else {
        trace, steps := [Abs()], [];
        LeadsNowhere(settings, Abs());
        timers := timers + [Scheduled(now + HEALTH_POLL_INTERVAL, PollHealth)];
      }
    }

    /** Handles one message; the answers of the plugins it asks are parameters. */
    method HandleMessage(m: Message, answer: Answer, now: Time)
      returns (ghost trace: seq<State>, ghost steps: seq<Step>)
      requires Valid() && Acceptable(m)
      modifies this`graph, this`inputs, this`live, this`cache, this`inFlight, this`timers, this`stopping
      modifies store`latches, store`outputState, store`pending
      ensures Valid()
      ensures Leads(settings, old(Abs()), Abs(), trace, steps)
      ensures StepsFor(m, answer, old(Plugins()), steps, now)
      ensures timers == old(timers) + TimersFor(m, answer, old(Plugins()), now)
      ensures Plugins() == PluginsNext(old(Plugins()), m)
      ensures inFlight == if m.PushResult? then old(inFlight) - {m.instance} else old(inFlight)
      ensures stopping == (old(stopping) || m.Shutdown?)
    {
      if m.InputEvent? || m.UnlatchRequest? {
        trace, steps := HandlePluginMessage(m, answer, now);
      } else if m.PushResult? || m.ReloadRequest? {
        trace, steps := HandleResultOrReload(m, answer, now);
      } else if m.Shutdown? {
        trace, steps := [Abs()], [];
        LeadsNowhere(settings, Abs());
        stopping := true;
      } else {
        trace, steps := HandleTimer(m, answer, now);
      }
    }

    // -- the loop --------------------------------------------------------------------------------------

    /** Handles every due timer, in order; the others stay. */
    method FireDueTimers(now: Time) returns (ghost log: seq<Handling>, ghost trace: seq<State>)
      requires Valid()
      modifies this`graph, this`inputs, this`live, this`cache, this`inFlight, this`timers, this`stopping
      modifies store`latches, store`outputState, store`pending
      ensures Valid() && inFlight == old(inFlight) && Plugins() == old(Plugins())
      ensures Fires(Plugins(), old(timers), log, timers, now)
      ensures Leads(settings, old(Abs()), Abs(), trace, StepsOf(log))
    {
      var due, remaining := TakeDue(now);
      log, trace := [], [Abs()];
      LeadsNowhere(settings, Abs());
      ghost var s0, plugins := Abs(), Plugins();
      for k := 0 to |due|
        invariant Valid() && inFlight == old(inFlight) && Plugins() == plugins
        invariant forall t :: t in due ==> OnTimer(t.message)
        invariant FiredSoFar(due[..k], remaining, log, plugins, timers, now)
        invariant Leads(settings, s0, Abs(), trace, StepsOf(log))
      {
        assert due[k] in due;
        ghost var s, before := Abs(), timers;
        var answer: Answer := *;
        ghost var more, steps := HandleMessage(due[k].message, answer, now);
        log, trace := FiredOn(settings, due, k, remaining, log, Handling(due[k].message, answer, steps), plugins,
                              before, timers, s0, s, Abs(), trace, more, now);
      }
      assert due[..|due|] == due;
    }

    /** Takes the due timers off the list. */
    method TakeDue(now: Time) returns (due: seq<Scheduled>, remaining: seq<Scheduled>)
      requires Valid()
      modifies this`timers
      ensures Valid() && timers == remaining
      ensures due == Filter(old(timers), IsDue(now)) && remaining == Filter(old(timers), IsLater(now))
      ensures forall t :: t in due ==> OnTimer(t.message)
    {
      due, remaining := SplitTimers(now);
      forall t ensures t in due || t in remaining ==> t in timers {
        FilterMember(timers, IsDue(now), t);
        FilterMember(timers, IsLater(now), t);
      }
      timers := remaining;
    }

    method SplitTimers(now: Time) returns (due: seq<Scheduled>, remaining: seq<Scheduled>)
      ensures due == Filter(timers, IsDue(now)) && remaining == Filter(timers, IsLater(now))
    {
      due, remaining := [], [];
      for k := 0 to |timers|
        invariant due == Filter(timers[..k], IsDue(now)) && remaining == Filter(timers[..k], IsLater(now))
      {
        assert timers[..k + 1][..k] == timers[..k];
        if timers[k].at <= now {
          due := due + [timers[k]];
        } else {
          remaining := remaining + [timers[k]];
        }
      }
      assert timers[..|timers|] == timers;
    }

    /** One turn of the loop after a message, or with none: due timers first, then due pushes. */
    method Tick(now: Time)
      returns (sent: seq<Request>, ghost log: seq<Handling>, ghost trace: seq<State>, ghost mid: State)
      requires Valid()
      modifies this`graph, this`inputs, this`live, this`cache, this`inFlight, this`timers, this`stopping
      modifies store`latches, store`outputState, store`pending
      ensures Valid() && Plugins() == old(Plugins())
      ensures Fires(Plugins(), old(timers), log, timers, now)
      ensures Leads(settings, old(Abs()), mid, trace, StepsOf(log)) && mid.inFlight == old(inFlight)
      ensures forall k :: 0 <= k < |StepsOf(log)| ==> StepsOf(log)[k].act.Trigger? || StepsOf(log)[k].act.Retry?
      ensures Next(settings, mid, Abs(), Dispatch(sent), now)
    {
      log, trace := FireDueTimers(now);
      FiredOnTimer(old(timers), log, now);
      TimerLogFacts(log, Plugins(), now);
      mid := Abs();
      sent := DispatchDuePushes(now);
    }

    // -- draining with an inline dispatcher ------------------------------------------------------------------

    /** dispatch() of the inline dispatcher: apply, then report, before returning. */
    method ApplyInline(sent: seq<Request>)
      modifies this`queue
      ensures |queue| >= |old(queue)| && queue[..|old(queue)|] == old(queue) && Reports(sent, queue[|old(queue)|..])
      ensures Reported(queue) == Reported(old(queue)) + Targets(sent)
      ensures forall m :: m in queue ==> m in old(queue) || m.PushResult?
    {
      for k := 0 to |sent|
        invariant |queue| == |old(queue)| + k && queue[..|old(queue)|] == old(queue)
        invariant forall j :: 0 <= j < k ==> ReportOf(sent[j], queue[|old(queue)| + j])
        invariant Reported(queue) == Reported(old(queue)) + Targets(sent[..k])
        invariant forall m :: m in queue ==> m in old(queue) || m.PushResult?
      {
        assert sent[..k + 1] == sent[..k] + [sent[k]];
        var ok: bool := *;
        var error: Option<string> := *;
        ghost var m := PushResult(sent[k].output, sent[k].update.state, ok, error);
        ReportedGrows(queue, m);
        queue := queue + [PushResult(sent[k].output, sent[k].update.state, ok, error)];
      }
      assert sent[..|sent|] == sent;
    }

    /** Startup with an inline dispatcher: what is sent is reported before it returns. */
    method ReconcileInline(
      catchUp: Name -> Option<seq<Event>>, query: Name -> RemoteState, since: Option<Time>, now: Time)
      returns (sent: seq<Request>, ghost mid: State)
      requires Valid() && Attended()
      modifies this`cache, this`inFlight, this`timers, this`queue, store`latches, store`pending
      ensures Valid() && Attended() && TableAgreement(Abs())
      ensures Next(settings, old(Abs()), mid,
                   Startup(CaughtUp(graph, inputs, catchUp), Answered(graph, live, query)), now)
      ensures Next(settings, mid, Abs(), Dispatch(sent), now)
    {
      var downtime, reports;
      ghost var s := Abs();
      sent, downtime, reports, mid := Reconcile(catchUp, query, since, now);
      StartupAgrees(settings, s, mid, Abs(), downtime, reports, sent, now);
      ApplyInline(sent);
    }

    /** Takes the first message off the queue and handles it. */
    method HandleNext(now: Time) returns (ghost h: Handling, ghost trace: seq<State>)
      requires Valid() && 1 <= settings.retryInitial && 1 <= settings.retryMax && Attended() && queue != []
      modifies this`graph, this`inputs, this`live, this`cache, this`inFlight, this`timers, this`stopping, this`queue
      modifies store`latches, store`outputState, store`pending
      ensures Valid() && Attended() && old(queue) == [h.message] + queue
      ensures StepsFor(h.message, h.answer, old(Plugins()), h.steps, now)
      ensures Plugins() == PluginsNext(old(Plugins()), h.message)
      ensures timers == old(timers) + TimersFor(h.message, h.answer, old(Plugins()), now)
      ensures Leads(settings, old(Abs()), Abs(), trace, h.steps)
      ensures old(Armed(Abs(), queue, now)) ==> Armed(Abs(), queue, now)
    {
      ghost var s, q := Abs(), queue;
      var m := queue[0];
      assert queue == [m] + queue[1..];
      queue := queue[1..];
      var answer: Answer := *;
      ghost var steps;
      trace, steps := HandleMessage(m, answer, now);
      h := Handling(m, answer, steps);
      if Armed(s, q, now) {
        ArmedStep(settings, s, Abs(), q, trace, steps, now);
      }
    }

    /** Handles the queue, message by message; handlers never add to it. */
    method HandleAll(now: Time) returns (handled: nat, ghost log: seq<Handling>, ghost trace: seq<State>)
      requires Valid() && 1 <= settings.retryInitial && 1 <= settings.retryMax && Attended()
      modifies this`graph, this`inputs, this`live, this`cache, this`inFlight, this`timers, this`stopping, this`queue
      modifies store`latches, store`outputState, store`pending
      ensures Valid() && queue == [] && inFlight == {} && handled == |old(queue)|
      ensures HandledSoFar(old(LoopView()), log, LoopView(), now)
      ensures Leads(settings, old(Abs()), Abs(), trace, StepsOf(log))
      ensures old(Armed(Abs(), queue, now)) ==> Armed(Abs(), [], now)
    {
      handled := 0;
      log, trace := [], [Abs()];
      LeadsNowhere(settings, Abs());
      ghost var s0, v0, armed := Abs(), LoopView(), Armed(Abs(), queue, now);
      while queue != []
        invariant Valid() && Attended() && handled == |log|
        invariant HandledSoFar(v0, log, LoopView(), now)
        invariant Leads(settings, s0, Abs(), trace, StepsOf(log))
        invariant armed ==> Armed(Abs(), queue, now)
        decreases |queue|
      {
        ghost var s, v := Abs(), LoopView();
        ghost var h, more := HandleNext(now);
        HandledOne(v0, log, v, h, LoopView(), now);
        LeadsOn(settings, s0, s, Abs(), trace, StepsOf(log), more, h.steps);
        trace, log, handled := trace + more[1..], log + [h], handled + 1;
      }
    }

    /** A tick whose pushes are applied inline, from a state with nothing in flight and an empty queue. */
    method TickInline(now: Time) returns (ghost fired: seq<Handling>, ghost sent: seq<Request>, ghost trace: seq<State>)
      requires Valid() && queue == [] && inFlight == {}
      modifies this`graph, this`inputs, this`live, this`cache, this`inFlight, this`timers, this`stopping, this`queue
      modifies store`latches, store`outputState, store`pending
      ensures Valid() && Armed(Abs(), queue, now) && Plugins() == old(Plugins())
      ensures Fires(Plugins(), old(timers), fired, timers, now) && Reports(sent, queue)
      ensures Leads(settings, old(Abs()), Abs(), trace, StepsOf(fired) + [Step(Dispatch(sent), now)])
      ensures old(Armed(Abs(), [], now)) && (forall t :: t in old(timers) ==> t.at > now) ==> queue == []
    {
      ghost var s, before, calm := Abs(), timers, Armed(Abs(), [], now) && forall t :: t in timers ==> t.at > now;
      ghost var mid: State;
      var requests;
      requests, fired, trace, mid := Tick(now);
      ghost var s' := Abs();
      sent := requests;
      LeadsByStep(settings, mid, s', Dispatch(sent), now);
      LeadsOn(settings, s, mid, s', trace, StepsOf(fired), [mid, s'], [Step(Dispatch(sent), now)]);
      trace := trace + [mid, s'][1..];
      ApplyInline(requests);
      assert queue == queue[0..];
      DispatchArms(settings, mid, s', sent, queue, now);
      if calm {
        NoneFired(Plugins(), before, fired, timers, now);
        NothingDue(mid, sent, now);
      }
    }

    /** One round: the queue, then a tick. */
    method Round(now: Time) returns (handled: nat, ghost turn: Turn, ghost trace: seq<State>)
      requires Valid() && 1 <= settings.retryInitial && 1 <= settings.retryMax && Attended()
      modifies this`graph, this`inputs, this`live, this`cache, this`inFlight, this`timers, this`stopping, this`queue
      modifies store`latches, store`outputState, store`pending
      ensures Valid() && Attended() && Armed(Abs(), queue, now) && handled == |old(queue)|
      ensures forall t :: t in timers ==> t.at > now
      ensures Turns(old(LoopView()), turn, LoopView(), now) && SentIn(StepsOfTurn(turn, now)) == |queue|
      ensures Leads(settings, old(Abs()), Abs(), trace, StepsOfTurn(turn, now))
      ensures old(Armed(Abs(), queue, now)) && (forall t :: t in old(timers) ==> t.at > now) ==> queue == []
    {
      ghost var s, v := Abs(), LoopView();
      ghost var log, more, fired, sent;
      handled, log, trace := HandleAll(now);
      ghost var s1 := Abs();
      LogFacts(log, v.plugins, now);
      fired, sent, more := TickInline(now);
      LeadsOn(settings, s, s1, Abs(), trace, StepsOf(log), more, StepsOf(fired) + [Step(Dispatch(sent), now)]);
      turn, trace := Turn(log, fired, sent), trace + more[1..];
      TurnSteps(turn, now);
      TurnFacts(v, turn, LoopView(), now);
    }

    /** Rounds until one finds nothing to handle and leaves nothing queued: one to take in what is queued and push what
        is due, one to take in the results, one to see that nothing is left. */
    method RunRounds(now: Time)
      returns (handled: nat, ghost views: seq<View>, ghost turns: seq<Turn>, ghost trace: seq<State>)
      requires Valid() && 1 <= settings.retryInitial && 1 <= settings.retryMax && Attended()
      modifies this`graph, this`inputs, this`live, this`cache, this`inFlight, this`timers, this`stopping, this`queue
      modifies store`latches, store`outputState, store`pending
      ensures Valid() && |turns| <= 3 < MAX_DRAIN_ROUNDS
      ensures queue == [] && Armed(Abs(), [], now) && forall t :: t in timers ==> t.at > now
      ensures Drained(settings, old(Abs()), old(LoopView()), views, turns, trace, Abs(), LoopView(), now)
      ensures handled == |old(queue)| + SentIn(StepsOfTurns(turns, now))
    {
      handled := 0;
      turns, views, trace := [], [LoopView()], [Abs()];
      ghost var s0, v0 := Abs(), LoopView();
      var settled, rounds := false, 0;
      while rounds < MAX_DRAIN_ROUNDS && !settled
        invariant Valid() && Attended() && |turns| == rounds
        invariant handled + |queue| == |v0.queue| + SentIn(StepsOfTurns(turns, now))
        invariant rounds <= if settled then 3 else 2
        invariant rounds > 0 ==> Armed(Abs(), queue, now) && forall t :: t in timers ==> t.at > now
        invariant rounds > 1 || settled ==> queue == []
        invariant settled ==> rounds > 0
        invariant Drained(settings, s0, v0, views, turns, trace, Abs(), LoopView(), now)
      {
        ghost var s, v := Abs(), LoopView();
        var n: nat;
        ghost var turn, more;
        n, turn, more := Round(now);
        views, turns, trace :=
          DrainedOn(settings, s0, v0, views, turns, trace, s, v, turn, more, Abs(), LoopView(), now);
        handled, rounds := handled + n, rounds + 1;
        if n == 0 && queue == [] {
          settled := true;
        }
      }
    }

    /** Settles within three rounds, so that the cap on rounds is never reached. When every row was due and every apply
        succeeds, no row is left and every live output has its desired state applied. */
    method Drain(now: Time)
      returns (handled: nat, ghost views: seq<View>, ghost turns: seq<Turn>, ghost trace: seq<State>)
      requires Valid() && 1 <= settings.retryInitial && 1 <= settings.retryMax && Attended()
      modifies this`graph, this`inputs, this`live, this`cache, this`inFlight, this`timers, this`stopping, this`queue
      modifies store`latches, store`outputState, store`pending
      ensures Valid() && Attended() && |turns| <= 3 < MAX_DRAIN_ROUNDS
      ensures queue == [] && inFlight == {}
      ensures forall o :: o in store.pending ==> store.pending[o].due > now
      ensures forall t :: t in timers ==> t.at > now
      ensures Drained(settings, old(Abs()), old(LoopView()), views, turns, trace, Abs(), LoopView(), now)
      ensures handled == |old(queue)| + SentIn(StepsOfTurns(turns, now))
      ensures old(TableAgreement(Abs())) ==> TableAgreement(Abs())
      ensures old(TableAgreement(Abs()) && AllDue(Abs(), now)) && AllSucceed(StepsOfTurns(turns, now), now) ==>
                AllApplied(Abs())
    {
      ghost var s := Abs();
      handled, views, turns, trace := RunRounds(now);
      NothingOutstanding(Abs(), now);
      DrainKeepsAgreement(settings, s, Abs(), trace, StepsOfTurns(turns, now));
      DrainConverges(settings, s, Abs(), trace, StepsOfTurns(turns, now), now);
    }

    method AffectedByRules(rules: seq<Rule>) returns (affected: set<Name>)
      ensures affected == Affected(graph, NamesOf(rules))
    {
      var names := seq(|rules|, i requires 0 <= i < |rules| => rules[i].name);
      affected := OutputsAffectedBy(graph, names);
      assert Elems(names) == NamesOf(rules) by {
        forall n | n in NamesOf(rules) ensures n in Elems(names) {
          var r :| r in rules && r.name == n;
          var i :| 0 <= i < |rules| && rules[i] == r;
          assert names[i] == n;
        }
      }
    }
  }

  /** Assembling a step: the latches first, then the rows in the state with the new latches. */
  lemma StepHolds(st: Settings, s: State, mid: State, s': State, l: Label, now: Time)
    requires Enabled(s, l, now) && !l.Dispatch?
    requires Frame(s, mid, l, now) && LatchesStep(s, mid, l, now)
    requires forall o :: Get(mid.pending, o) == RowBetween(st, s, l, now, o)
    requires s' == mid.(pending := s'.pending)
    requires RowsSynced(s', mid.pending, s'.pending, Resynced(s, l), now, l.Startup?)
    ensures Next(st, s, s', l, now)
    ensures Coherent(s) ==> Coherent(s')
  {
    assert Next(st, s, s', l, now);
    if Coherent(s) { CoherenceKept(st, s, s', l, now); }
  }

  lemma OneStep(st: Settings, s: State, s': State, l: Label, now: Time)
    returns (trace: seq<State>, steps: seq<Step>)
    requires Next(st, s, s', l, now)
    ensures Leads(st, s, s', trace, steps) && steps == [Step(l, now)]
  {
    LeadsByStep(st, s, s', l, now);
    trace, steps := [s, s'], [Step(l, now)];
  }

  lemma ReloadStep(st: Settings, s: State, mid: State, s': State, live: Option<set<Name>>, now: Time)
    requires WellIndexed(mid.graph)
    requires mid == s.(graph := mid.graph, cache := s.rows, live := if live.Some? then live.value else s.live)
    requires s' == mid.(pending := s'.pending)
    requires RowsSynced(s', mid.pending, s'.pending, s.graph.byOutput.Keys + mid.graph.byOutput.Keys, now, false)
    ensures Next(st, s, s', Reload(mid.graph, live), now)
    ensures Coherent(s) ==> Coherent(s')
  {
    StepHolds(st, s, mid, s', Reload(mid.graph, live), now);
  }

  lemma ResultStep(st: Settings, s: State, mid: State, s': State,
                   o: Name, value: bool, ok: bool, error: Option<string>, now: Time)
    requires mid == s.(inFlight := s.inFlight - {o}, outputs := mid.outputs, pending := mid.pending)
    requires mid.outputs == if ok then s.outputs[o := OutputState(Some(value), Some(value), Some(now))] else s.outputs
    requires mid.pending == if ok then s.pending
                            else s.pending[o := FailureRow(st, Get(s.pending, o), value, error, now)]
    requires s' == mid.(pending := s'.pending)
    requires RowsSynced(s', mid.pending, s'.pending, {o}, now, false)
    ensures Next(st, s, s', Result(o, value, ok, error), now)
    ensures Coherent(s) ==> Coherent(s')
  {
    StepHolds(st, s, mid, s', Result(o, value, ok, error), now);
  }

  /** The set rules of an output are its rules among the latched ones. */
  lemma SetNames(s: State, rules: seq<Rule>, setRules: seq<Rule>)
    requires forall r :: r in setRules <==> r in rules && LatchIn(s.cache, r.name).state
    ensures NamesOf(setRules) == NamesOf(rules) * Latched(s.cache)
  {
    forall n | n in NamesOf(rules) * Latched(s.cache) ensures n in NamesOf(setRules) {
      var r :| r in rules && r.name == n;
      assert r in setRules;
    }
  }

  /** An unlatch that finds nothing set changes nothing. */
  lemma NothingToClear(st: Settings, s: State, s': State, output: Name, now: Time)
    requires RenderedBy(s.graph, output) * Latched(s.cache) == {}
    requires s' == s.(cache := s'.cache) && forall n :: LatchIn(s'.cache, n) == LatchIn(s.cache, n)
    ensures Next(st, s, s', Unlatch(output), now)
    ensures Coherent(s) ==> Coherent(s')
  {
    forall n ensures LatchAfter(s, Unlatch(output), now, n) == LatchIn(s.cache, n) {
      assert n !in RenderedBy(s.graph, output) * Latched(s.cache);
    }
  }

  lemma TriggerLatches(s: State, mid: State, input: Name, e: Event, now: Time)
    requires forall n :: LatchIn(mid.cache, n) ==
                         if n in TriggeredBy(s.graph, input) then Triggered(LatchIn(s.cache, n), input, e)
                         else LatchIn(s.cache, n)
    requires forall n :: LatchIn(mid.rows, n) ==
                         if n in TriggeredBy(s.graph, input) then LatchIn(mid.cache, n) else LatchIn(s.rows, n)
    ensures LatchesStep(s, mid, Trigger(input, e), now)
  {
  }

  lemma UnlatchStep(st: Settings, s: State, mid: State, s': State, output: Name, now: Time)
    requires RenderedBy(s.graph, output) * Latched(s.cache) != {}
    requires mid == s.(cache := mid.cache, rows := mid.rows) && s' == mid.(pending := s'.pending)
    requires forall n :: LatchIn(mid.cache, n) ==
                         if n in RenderedBy(s.graph, output) * Latched(s.cache)
                         then Unlatched(LatchIn(s.cache, n), output, now) else LatchIn(s.cache, n)
    requires forall n :: LatchIn(mid.rows, n) ==
                         if n in RenderedBy(s.graph, output) * Latched(s.cache)
                         then LatchIn(mid.cache, n) else LatchIn(s.rows, n)
    requires RowsSynced(s', mid.pending, s'.pending, Affected(s.graph, RenderedBy(s.graph, output)), now, false)
    ensures Next(st, s, s', Unlatch(output), now)
    ensures Coherent(s) ==> Coherent(s')
  {
    UnlatchLatches(s, mid, output, now);
    StepHolds(st, s, mid, s', Unlatch(output), now);
  }

  lemma UnlatchLatches(s: State, mid: State, output: Name, now: Time)
    requires forall n :: LatchIn(mid.cache, n) ==
                         if n in RenderedBy(s.graph, output) * Latched(s.cache)
                         then Unlatched(LatchIn(s.cache, n), output, now) else LatchIn(s.cache, n)
    requires forall n :: LatchIn(mid.rows, n) ==
                         if n in RenderedBy(s.graph, output) * Latched(s.cache)
                         then LatchIn(mid.cache, n) else LatchIn(s.rows, n)
    ensures LatchesStep(s, mid, Unlatch(output), now)
  {
  }

  lemma {:induction false} DrivingListIs(cache: map<Name, Latch>, rules: seq<Rule>)
    ensures Elems(DrivingList(cache, rules)) == NamesOf(rules) * Latched(cache)
  {
    if rules != [] {
      var n := |rules| - 1;
      var before, last := DrivingList(cache, rules[..n]), rules[n].name;
      DrivingListIs(cache, rules[..n]);
      assert rules[..n + 1] == rules;
      NamesGrow(rules, n);
      assert NamesOf(rules) == NamesOf(rules[..n]) + {last};
      assert Elems(before + [last]) == Elems(before) + {last};
      assert last in Latched(cache) <==> LatchIn(cache, last).state;
      assert !LatchIn(cache, last).state ==> DrivingList(cache, rules) == before;
    }
  }

  lemma {:induction false} SameCounts(a: map<Name, Latch>, b: map<Name, Latch>, names: seq<Name>)
    requires forall n :: LatchIn(a, n) == LatchIn(b, n)
    ensures SumCounts(a, names) == SumCounts(b, names)
  {
    if names != [] { SameCounts(a, b, names[..|names| - 1]); }
  }

  lemma {:induction false} SameDriving(a: map<Name, Latch>, b: map<Name, Latch>, rules: seq<Rule>)
    requires forall n :: LatchIn(a, n) == LatchIn(b, n)
    ensures DrivingList(a, rules) == DrivingList(b, rules)
  {
    if rules != [] { SameDriving(a, b, rules[..|rules| - 1]); }
  }

  lemma SameNewest(a: map<Name, Latch>, b: map<Name, Latch>, list: seq<Name>, u: Update, i: int)
    requires forall n :: LatchIn(a, n) == LatchIn(b, n)
    requires NewestDriver(b, list, u, i)
    ensures NewestDriver(a, list, u, i) && SumCounts(a, list) == SumCounts(b, list)
  {
    SameCounts(a, b, list);
    assert forall j :: 0 <= j < |list| ==> LatchIn(a, list[j]) == LatchIn(b, list[j]);
  }

  /** A description of one view of the latches describes every equal view. */
  lemma SameDescription(s: State, t: State, output: Name, u: Update)
    requires s.graph == t.graph && s.outputs == t.outputs
    requires forall n :: LatchIn(s.cache, n) == LatchIn(t.cache, n)
    requires Describes(t, output, u)
    ensures Describes(s, output, u)
  {
    SameView(s, t);
    SameDriving(s.cache, t.cache, RulesFor(s.graph.byOutput, output));
    if u.state {
      var list := DrivingList(t.cache, RulesFor(t.graph.byOutput, output));
      var i :| NewestDriver(t.cache, list, u, i);
      SameNewest(s.cache, t.cache, list, u, i);
    }
  }

  /** The due pushes of the list have been decided and these are the ones to send. */
  ghost predicate Preparing(st: Settings, s: State, t: State, done: seq<Name>, now: Time, sent: seq<Request>) {
    && (forall n :: LatchIn(t.cache, n) == LatchIn(s.cache, n))
    && (forall o :: Get(t.pending, o) ==
                    if o in done then RowBetween(st, s, Dispatch([]), now, o) else Get(s.pending, o))
    && OnePerOutput(sent) && InDueOrder(s, sent)
    && (forall o :: o in Targets(sent) <==> o in done && o !in s.inFlight && o in s.live)
    && (forall q :: q in sent ==> Describes(s, q.output, q.update))
  }

  lemma PreparedOne(st: Settings, s: State, t: State, t': State, done: seq<Name>, o: Name, now: Time,
                    sent: seq<Request>, request: Option<Request>)
    requires t == s.(cache := t.cache, pending := t.pending)
    requires Preparing(st, s, t, done, now, sent)
    requires o !in done && forall d :: d in done ==> PushBefore(s.pending, d, o)
    requires forall n :: LatchIn(t'.cache, n) == LatchIn(t.cache, n)
    requires forall x :: Get(t'.pending, x) ==
                         if x == o then RowBetween(st, t, Dispatch([]), now, o) else Get(t.pending, x)
    requires request.Some? <==> o !in s.inFlight && o in s.live
    requires request.Some? ==> request.value.output == o && Describes(t, o, request.value.update)
    ensures Preparing(st, s, t', done + [o], now, if request.Some? then sent + [request.value] else sent)
  {
    assert Get(t.pending, o) == Get(s.pending, o);
    SameDecision(st, s, t, now, o);
    forall n ensures LatchIn(t'.cache, n) == LatchIn(s.cache, n) {
      assert LatchIn(t.cache, n) == LatchIn(s.cache, n);
    }
    if request.Some? {
      SameDescription(s, t, o, request.value.update);
      SentOnceMore(s, sent, request.value);
    }
  }

  /** Deciding a push depends on its own row and on the latches. */
  lemma SameDecision(st: Settings, s: State, t: State, now: Time, o: Name)
    requires t == s.(cache := t.cache, pending := t.pending)
    requires forall n :: LatchIn(t.cache, n) == LatchIn(s.cache, n)
    requires Get(t.pending, o) == Get(s.pending, o)
    ensures RowBetween(st, t, Dispatch([]), now, o) == RowBetween(st, s, Dispatch([]), now, o)
  {
    SameView(s, t);
  }

  lemma SentOnceMore(s: State, sent: seq<Request>, q: Request)
    requires OnePerOutput(sent) && InDueOrder(s, sent)
    requires q.output !in Targets(sent) && forall o :: o in Targets(sent) ==> PushBefore(s.pending, o, q.output)
    ensures OnePerOutput(sent + [q]) && InDueOrder(s, sent + [q]) && Targets(sent + [q]) == Targets(sent) + {q.output}
  {
    var more := sent + [q];
    forall i | 0 <= i < |sent| ensures sent[i].output in Targets(sent) {
      assert sent[i] in sent;
    }
  }

  lemma ComesAfter(pending: map<Name, Push>, due: seq<Name>, k: nat)
    requires k < |due| && InPushOrder(pending, due)
    ensures forall d :: d in due[..k] ==> PushBefore(pending, d, due[k])
  {
  }

  lemma PreparedAll(st: Settings, s: State, t: State, s': State, due: seq<Name>, now: Time, sent: seq<Request>)
    requires t == s.(cache := t.cache, pending := t.pending)
    requires Preparing(st, s, t, due, now, sent)
    requires forall o :: o in due <==> o in s.pending && s.pending[o].due <= now
    requires s' == t.(inFlight := t.inFlight + Targets(sent))
    ensures Next(st, s, s', Dispatch(sent), now)
    ensures Coherent(s) ==> Coherent(s')
  {
    forall o ensures Get(s'.pending, o) == RowAfter(st, s, s', Dispatch(sent), now, o) {
      assert Get(t.pending, o) == if o in due then RowBetween(st, s, Dispatch([]), now, o) else Get(s.pending, o);
    }
  }

  /** One latch becomes the record, written through when it changes. */
  ghost predicate Rewrites(s: State, s': State, rule: Name, record: Latch) {
    && s' == s.(cache := s'.cache, rows := s'.rows)
    && (forall n :: LatchIn(s'.cache, n) == if n == rule then record else LatchIn(s.cache, n))
    && (forall n :: LatchIn(s'.rows, n) ==
                    if n == rule && record != LatchIn(s.cache, rule) then record else LatchIn(s.rows, n))
  }

  /** The latches of the named rules are what the step makes of them, written through where they changed. */
  ghost predicate Settled(s: State, s': State, done: set<Name>, l: Label, now: Time) {
    && s' == s.(cache := s'.cache, rows := s'.rows)
    && (forall n :: LatchIn(s'.cache, n) == if n in done then LatchAfter(s, l, now, n) else LatchIn(s.cache, n))
    && (forall n :: LatchIn(s'.rows, n) ==
                    if n in done && LatchAfter(s, l, now, n) != LatchIn(s.cache, n)
                    then LatchAfter(s, l, now, n) else LatchIn(s.rows, n))
  }

  lemma SettledOne(s: State, t: State, t': State, done: set<Name>, rule: Name, record: Latch, l: Label, now: Time)
    requires Settled(s, t, done, l, now) && rule !in done
    requires Rewrites(t, t', rule, record)
    requires LatchIn(t.cache, rule) == LatchIn(s.cache, rule) ==> record == LatchAfter(s, l, now, rule)
    ensures Settled(s, t', done + {rule}, l, now)
  {
    assert LatchIn(t.cache, rule) == LatchIn(s.cache, rule);
  }

  lemma SettledAtStartup(s: State, t: State, t': State, done: set<Name>, n: Name, downtime: map<Name, seq<Event>>,
                         reports: map<Name, RemoteState>, now: Time)
    requires Settled(s, t, done, Startup(downtime, reports), now) && n !in done && n in s.graph.rules
    requires Rewrites(t, t', n, StartupLatch(LatchIn(t.cache, n), s.graph.rules[n], downtime, reports, now))
    ensures Settled(s, t', done + {n}, Startup(downtime, reports), now)
  {
    SettledOne(s, t, t', done, n, StartupLatch(LatchIn(t.cache, n), s.graph.rules[n], downtime, reports, now),
               Startup(downtime, reports), now);
  }

  lemma ListedNext(names: seq<Name>, k: nat)
    requires k < |names| && Distinct(names)
    ensures names[k] in names && names[k] !in Elems(names[..k])
    ensures Elems(names[..k + 1]) == Elems(names[..k]) + {names[k]}
  {
  }

  // -- startup ---------------------------------------------------------------------------------------

  /** What the inputs that answered observed during downtime. */
  function CaughtUp(g: Graph, inputs: set<Name>, catchUp: Name -> Option<seq<Event>>): map<Name, seq<Event>> {
    map i | i in g.byInput && i in inputs && catchUp(i).Some? :: catchUp(i).value
  }

  /** What the outputs that answered report. */
  function Answered(g: Graph, live: set<Name>, query: Name -> RemoteState): map<Name, RemoteState> {
    map o | o in g.byOutput && o in live && !query(o).belief.Unknown? :: query(o)
  }

  lemma StartupStep(st: Settings, s: State, settled: State, s': State,
                    downtime: map<Name, seq<Event>>, reports: map<Name, RemoteState>, now: Time)
    requires Coherent(s)
    requires Settled(s, settled, s.graph.rules.Keys, Startup(downtime, reports), now)
    requires s' == settled.(pending := s'.pending)
    requires RowsSynced(s', settled.pending, s'.pending, s.graph.byOutput.Keys, now, true)
    ensures Next(st, s, s', Startup(downtime, reports), now)
    ensures Coherent(s')
  {
    SettledStep(s, settled, s.graph.rules.Keys, Startup(downtime, reports), now);
    StepHolds(st, s, settled, s', Startup(downtime, reports), now);
  }

  /** The latest downtime event across these inputs, and how many there were. */
  method Summarize(downtime: map<Name, seq<Event>>, inputs: seq<Name>) returns (latest: Option<Time>, count: nat)
    ensures latest == MaxTime(DowntimeTimes(downtime, inputs))
    ensures count == |DowntimeTimes(downtime, inputs)|
  {
    latest, count := None, 0;
    for k := 0 to |inputs|
      invariant latest == MaxTime(DowntimeTimes(downtime, inputs[..k]))
      invariant count == |DowntimeTimes(downtime, inputs[..k])|
    {
      assert inputs[..k + 1][..k] == inputs[..k];
      var events := if inputs[k] in downtime then downtime[inputs[k]] else [];
      ghost var before := DowntimeTimes(downtime, inputs[..k]);
      latest, count := SummarizeOne(before, events, latest, count);
      assert DowntimeTimes(downtime, inputs[..k + 1]) == before + Times(events);
    }
    assert inputs[..|inputs|] == inputs;
  }

  method SummarizeOne(ghost before: seq<Time>, events: seq<Event>, latest0: Option<Time>, count0: nat)
    returns (latest: Option<Time>, count: nat)
    requires latest0 == MaxTime(before) && count0 == |before|
    ensures latest == MaxTime(before + Times(events)) && count == |before + Times(events)|
  {
    latest, count := latest0, count0;
    ghost var times := Times(events);
    assert before + times[..0] == before;
    for j := 0 to |events|
      invariant latest == MaxTime(before + times[..j])
      invariant count == |before| + j
    {
      assert before + times[..j + 1] == (before + times[..j]) + [times[j]];
      MaxTimeGrows(before + times[..j], times[j]);
      count := count + 1;
      if latest.None? || events[j].occurredAt > latest.value {
        latest := Some(events[j].occurredAt);
      }
    }
    assert times[..|events|] == times;
  }

  method GatherReports(reports: map<Name, RemoteState>, outputs: seq<Name>) returns (gathered: seq<RemoteState>)
    ensures gathered == ReportsFor(reports, outputs)
  {
    gathered := [];
    for k := 0 to |outputs|
      invariant gathered == ReportsFor(reports, outputs[..k])
    {
      assert outputs[..k + 1][..k] == outputs[..k];
      if outputs[k] in reports {
        gathered := gathered + [reports[outputs[k]]];
      }
    }
    assert outputs[..|outputs|] == outputs;
  }

  // -- settling -------------------------------------------------------------------------------------------

  /** Only results of up-to-date pushes are queued, one for each output in flight, and nothing else is due. */
  ghost predicate Armed(s: State, queue: seq<Message>, now: Time) {
    && (forall m :: m in queue ==> m.PushResult? && m.value == Desired(s, m.instance))
    && (forall i, j :: 0 <= i < j < |queue| ==> queue[i].instance != queue[j].instance)
    && s.inFlight == Reported(queue)
    && (forall o :: o in s.pending && s.pending[o].due <= now ==> o in s.inFlight)
  }

  /** Handling a result leaves the latches, and so every desired state, alone. */
  lemma ResultKeepsDesired(st: Settings, s: State, s': State, l: Label, now: Time)
    requires l.Result? && Next(st, s, s', l, now)
    ensures forall o :: Desired(s', o) == Desired(s, o)
  {
    forall n ensures LatchIn(s'.cache, n) == LatchIn(s.cache, n) {
      assert LatchIn(s'.cache, n) == LatchAfter(s, l, now, n);
    }
    SameView(s'.(outputs := s.outputs), s);
    assert forall o :: Desired(s'.(outputs := s.outputs), o) == Desired(s', o);
  }

  /** Handling the result of an up-to-date push leaves nothing due for its output and touches no other row. */
  lemma ResultSettles(st: Settings, s: State, s': State, l: Label, now: Time)
    requires l.Result? && Next(st, s, s', l, now)
    requires l.value == Desired(s, l.output) && 1 <= st.retryInitial && 1 <= st.retryMax
    ensures forall o :: Desired(s', o) == Desired(s, o)
    ensures forall o :: o != l.output ==> Get(s'.pending, o) == Get(s.pending, o)
    ensures Get(s'.pending, l.output).Some? ==> Get(s'.pending, l.output).value.due > now
  {
    ResultKeepsDesired(st, s, s', l, now);
    forall o | o != l.output ensures Get(s'.pending, o) == Get(s.pending, o) {
      assert Get(s'.pending, o) == RowAfter(st, s, s', l, now, o);
    }
    ResultRow(st, s, s', l, now);
  }

  lemma ResultRow(st: Settings, s: State, s': State, l: Label, now: Time)
    requires l.Result? && Next(st, s, s', l, now)
    requires l.value == Desired(s', l.output) && 1 <= st.retryInitial && 1 <= st.retryMax
    ensures Get(s'.pending, l.output).Some? ==> Get(s'.pending, l.output).value.due > now
  {
    var o := l.output;
    var row := FailureRow(st, Get(s.pending, o), l.value, l.error, now);
    BackoffPositive(st, row.attempts);
    assert row.due > now && row.target == l.value;
    assert Get(s'.pending, o) == RowAfter(st, s, s', l, now, o);
    if l.ok {
      assert Applied(s', o) == Some(l.value);
    } else {
      assert RowBetween(st, s, l, now, o) == Some(row);
    }
  }

  lemma BackoffPositive(st: Settings, attempts: nat)
    requires 1 <= st.retryInitial && 1 <= st.retryMax
    ensures Backoff(st, attempts) >= 1
  {
    var e := if attempts == 0 then 0 else attempts - 1;
    PowPositive(2, e);
    assert st.retryInitial * Pow(2, e) >= 1;
  }

  lemma ArmedStep(st: Settings, s: State, s': State, queue: seq<Message>,
                  trace: seq<State>, steps: seq<Step>, now: Time)
    requires 1 <= st.retryInitial && 1 <= st.retryMax
    requires queue != [] && Armed(s, queue, now) && queue[0].PushResult?
    requires Leads(st, s, s', trace, steps)
    requires steps == [Step(Result(queue[0].instance, queue[0].value, queue[0].ok, queue[0].error), now)]
    ensures Armed(s', queue[1..], now)
  {
    var m := queue[0];
    assert Next(st, trace[0], trace[1], steps[0].act, steps[0].now);
    ResultSettles(st, s, s', steps[0].act, now);
    assert queue == [m] + queue[1..];
    forall o | o in s'.pending && s'.pending[o].due <= now ensures o in s'.inFlight {
      assert o != m.instance && Get(s'.pending, o) == Get(s.pending, o);
    }
    forall o ensures o in Reported(queue[1..]) <==> o in Reported(queue) && o != m.instance {
      if o in Reported(queue[1..]) {
        var r :| r in queue[1..] && r.PushResult? && r.instance == o;
        var i :| 0 <= i < |queue[1..]| && queue[1..][i] == r;
        assert queue[i + 1].instance != queue[0].instance;
      }
    }
  }

  /** From nothing in flight, a dispatch arms the system: what was due is now in flight with its result queued. */
  lemma DispatchArms(st: Settings, s: State, s': State, sent: seq<Request>, queue: seq<Message>, now: Time)
    requires Next(st, s, s', Dispatch(sent), now) && s.inFlight == {}
    requires Reports(sent, queue)
    ensures Armed(s', queue, now)
  {
    var l := Dispatch(sent);
    forall n ensures LatchIn(s'.cache, n) == LatchIn(s.cache, n) {
      assert LatchIn(s'.cache, n) == LatchAfter(s, l, now, n);
    }
    SameView(s', s);
    forall m | m in queue ensures m.PushResult? && m.value == Desired(s', m.instance) {
      var k :| 0 <= k < |queue| && queue[k] == m;
      assert sent[k] in sent && Describes(s, sent[k].output, sent[k].update);
    }
    forall o ensures o in Reported(queue) <==> o in Targets(sent) {
      if o in Reported(queue) {
        var m :| m in queue && m.PushResult? && m.instance == o;
        var k :| 0 <= k < |queue| && queue[k] == m;
        assert sent[k] in sent;
      }
      if o in Targets(sent) {
        var q :| q in sent && q.output == o;
        var k :| 0 <= k < |sent| && sent[k] == q;
        assert queue[k] in queue;
      }
    }
    forall o | o in s'.pending && s'.pending[o].due <= now ensures o in s'.inFlight {
      assert Get(s'.pending, o) == RowAfter(st, s, s', l, now, o);
    }
  }

  /** The timers asked for when a plugin does not answer at startup. */
  function CatchUpTimer(i: Name, since: Option<Time>, now: Time): Scheduled {
    Scheduled(now + RECONCILE_RETRY_INITIAL, CatchUp(i, 1, since))
  }

  function CatchUpTimers(names: set<Name>, since: Option<Time>, now: Time): set<Scheduled> {
    set i | i in names :: CatchUpTimer(i, since, now)
  }

  function CatchUpRetries(
    g: Graph, inputs: set<Name>, catchUp: Name -> Option<seq<Event>>, since: Option<Time>, now: Time): set<Scheduled>
  {
    var failed := set i | i in g.byInput && i in inputs && catchUp(i).None?;
    CatchUpTimers(failed, since, now)
  }

  function QueryTimer(o: Name, now: Time): Scheduled {
    Scheduled(now + RECONCILE_RETRY_INITIAL, ReconcileOutput(o, 1))
  }

  function QueryTimers(names: set<Name>, now: Time): set<Scheduled> {
    set o | o in names :: QueryTimer(o, now)
  }

  function QueryRetries(g: Graph, live: set<Name>, query: Name -> RemoteState, now: Time): set<Scheduled> {
    var unknown := set o | o in g.byOutput && o in live && query(o).belief.Unknown?;
    QueryTimers(unknown, now)
  }

  /** The timers there were are kept, followed by each of the retries once. */
  ghost predicate AskedAgain(before: seq<Scheduled>, after: seq<Scheduled>, retries: set<Scheduled>) {
    && |before| <= |after| && after[..|before|] == before
    && Distinct(after[|before|..]) && Elems(after[|before|..]) == retries
  }

  lemma AskAgain(before: seq<Scheduled>, after: seq<Scheduled>, retries: set<Scheduled>, t: Scheduled)
    requires AskedAgain(before, after, retries) && t !in retries
    ensures AskedAgain(before, after + [t], retries + {t})
  {
    var added := after[|before|..];
    assert (after + [t])[|before|..] == added + [t];
    assert forall k :: 0 <= k < |added| ==> added[k] in Elems(added);
  }

  lemma BothAskedAgain(before: seq<Scheduled>, between: seq<Scheduled>, after: seq<Scheduled>,
                       first: set<Scheduled>, second: set<Scheduled>)
    requires AskedAgain(before, between, first) && AskedAgain(between, after, second) && first !! second
    ensures AskedAgain(before, after, first + second)
  {
    var a, b := between[|before|..], after[|between|..];
    assert after[|before|..] == a + b;
    assert forall k :: 0 <= k < |a| ==> a[k] in Elems(a);
    assert forall k :: 0 <= k < |b| ==> b[k] in Elems(b);
  }

  lemma AskedOnTimer(before: seq<Scheduled>, after: seq<Scheduled>, retries: set<Scheduled>)
    requires AskedAgain(before, after, retries)
    requires (forall t :: t in before ==> OnTimer(t.message)) && forall t :: t in retries ==> OnTimer(t.message)
    ensures forall t :: t in after ==> OnTimer(t.message)
  {
    assert after == before + after[|before|..];
    assert forall t :: t in after[|before|..] ==> t in Elems(after[|before|..]);
  }

  /** The timers startup leaves: those there were, followed by every retry. */
  lemma StartupTimers(before: seq<Scheduled>, between: seq<Scheduled>, after: seq<Scheduled>,
                      g: Graph, plugins: PluginSet,
                      catchUp: Name -> Option<seq<Event>>, query: Name -> RemoteState, since: Option<Time>, now: Time)
    requires AskedAgain(before, between, CatchUpRetries(g, plugins.inputs, catchUp, since, now))
    requires AskedAgain(between, after, QueryRetries(g, plugins.outputs, query, now))
    requires forall t :: t in before ==> OnTimer(t.message)
    ensures AskedAgain(before, after, CatchUpRetries(g, plugins.inputs, catchUp, since, now)
                                      + QueryRetries(g, plugins.outputs, query, now))
    ensures forall t :: t in after ==> OnTimer(t.message)
  {
    var first := CatchUpRetries(g, plugins.inputs, catchUp, since, now);
    var second := QueryRetries(g, plugins.outputs, query, now);
    BothAskedAgain(before, between, after, first, second);
    AskedOnTimer(before, after, first + second);
  }

  lemma StartupSendsAll(st: Settings, s: State, mid: State, s': State, downtime: map<Name, seq<Event>>,
                        reports: map<Name, RemoteState>, sent: seq<Request>, now: Time)
    requires Next(st, s, mid, Startup(downtime, reports), now) && Next(st, mid, s', Dispatch(sent), now)
    ensures forall o :: o in s.graph.byOutput && o in s.live && o !in s.inFlight ==> o in Targets(sent)
  {
    forall o | o in s.graph.byOutput && o in s.live && o !in s.inFlight ensures o in Targets(sent) {
      StartupSends(st, s, mid, s', downtime, reports, sent, now, o);
    }
  }

  /** Startup establishes table agreement, and the dispatch after it keeps it. */
  lemma StartupAgrees(st: Settings, s: State, mid: State, s': State, downtime: map<Name, seq<Event>>,
                      reports: map<Name, RemoteState>, sent: seq<Request>, now: Time)
    requires WellIndexed(s.graph)
    requires Next(st, s, mid, Startup(downtime, reports), now) && Next(st, mid, s', Dispatch(sent), now)
    ensures TableAgreement(s')
  {
    TableAgreementKept(st, s, mid, Startup(downtime, reports), now);
    TableAgreementKept(st, mid, s', Dispatch(sent), now);
  }

  lemma NothingOutstanding(s: State, now: Time)
    requires Armed(s, [], now)
    ensures s.inFlight == {} && forall o :: o in s.pending ==> s.pending[o].due > now
  {
  }

  lemma NothingDue(s: State, sent: seq<Request>, now: Time)
    requires Sends(s, sent, now) && Armed(s, [], now)
    ensures sent == []
  {
    assert sent != [] ==> sent[0].output in Targets(sent);
  }

  // -- steps of the loops ------------------------------------------------------------------------------------

  lemma NamesGrow(rules: seq<Rule>, k: nat)
    requires k < |rules|
    ensures NamesOf(rules[..k + 1]) == NamesOf(rules[..k]) + {rules[k].name}
    ensures DistinctNames(rules) ==> rules[k].name !in NamesOf(rules[..k])
  {
    assert rules[..k + 1] == rules[..k] + [rules[k]];
  }

  lemma MaxTimeGrows(times: seq<Time>, t: Time)
    ensures MaxTime(times + [t]) == Some(Later(MaxTime(times), t))
  {
    assert (times + [t])[..|times|] == times;
  }

  /** A step that leaves the latches of all other rules alone is settled once these are. */
  lemma SettledStep(s: State, mid: State, done: set<Name>, l: Label, now: Time)
    requires Settled(s, mid, done, l, now) && !l.Reload?
    requires forall n :: n !in done ==> LatchAfter(s, l, now, n) == LatchIn(s.cache, n)
    ensures LatchesStep(s, mid, l, now)
  {
  }
}
