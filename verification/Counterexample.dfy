/** Runs in which an output has no push owed and shows the wrong state: its persisted last_applied was not truthful and
    the forced push that startup makes to repair it failed (src/noti_mapper/engine.py:498-501, 564-567), or it has no
    plugin (src/noti_mapper/engine.py:594-596). */
module Counterexample {
  import opened Base
  import opened Rules
  import opened Records
  import opened Messages
  import opened Core
  import opened Protocol
  import opened Refinement

  function OneRule(r: Name, i: Name, o: Name): Graph {
    var rule := Rule(r, [i], [o]);
    Graph(map[r := rule], map[i := [rule]], map[o := [rule]])
  }

  /** Nothing is latched, and the last value applied is believed to be false. */
  function Believing(r: Name, i: Name, o: Name, live: set<Name>): State {
    State(OneRule(r, i, o), map[], map[], map[o := OutputState(Some(false), None, None)], map[], {}, live)
  }

  /** The remote end shows true all the same. */
  function Mistaken(r: Name, i: Name, o: Name): System {
    System(Believing(r, i, o, {o}), [], [], [Idle], {o}, map[o := true], false, [], [], {})
  }

  const QUIET := Update(false, "", "", 0, {}, None)

  lemma OneRuleIsIndexed(r: Name, i: Name, o: Name)
    ensures WellIndexed(OneRule(r, i, o))
  {
  }

  /** Nothing happened during downtime, so startup only queues the forced push. */
  lemma ForcedRow(st: Settings, r: Name, i: Name, o: Name, live: set<Name>)
    ensures
      var s := Believing(r, i, o, live);
      Next(st, s, s.(pending := map[o := Push(false, 0, 0, None)]), Startup(map[], map[]), 0)
  {
    var s := Believing(r, i, o, live);
    var s' := s.(pending := map[o := Push(false, 0, 0, None)]);
    var l := Startup(map[], map[]);
    var rule := Rule(r, [i], [o]);
    assert DowntimeTimes(map[], [i]) == [] by { assert [i][..0] == []; }
    assert ReportsFor(map[], [o]) == [] by { assert [o][..0] == []; }
    assert StartupLatch(UNTOUCHED, rule, map[], map[], 0) == UNTOUCHED;
    forall x ensures Get(s'.pending, x) == RowAfter(st, s, s', l, 0, x) {
      assert !Desired(s', o);
    }
  }

  lemma PushSent(st: Settings, r: Name, i: Name, o: Name)
    ensures
      var s := Believing(r, i, o, {o}).(pending := map[o := Push(false, 0, 0, None)]);
      Next(st, s, s.(inFlight := {o}), Dispatch([Request(o, QUIET)]), 0)
  {
    var s := Believing(r, i, o, {o}).(pending := map[o := Push(false, 0, 0, None)]);
    var sent := [Request(o, QUIET)];
    assert sent[0] in sent;
    assert Targets(sent) == {o};
    assert !Desired(s, o);
    assert Describes(s, o, QUIET);
    forall x ensures Get(s.pending, x) == RowAfter(st, s, s.(inFlight := {o}), Dispatch(sent), 0, x) {}
  }

  lemma FailureDropsRow(st: Settings, r: Name, i: Name, o: Name)
    ensures
      var s := Believing(r, i, o, {o});
      Next(st, s.(pending := map[o := Push(false, 0, 0, None)], inFlight := {o}), s, Result(o, false, false, None), 0)
  {
    var s := Believing(r, i, o, {o});
    assert !Desired(s, o);
    assert {o} - {o} == {};
  }

  /** Startup, then the worker. */
  lemma ForcedPushFails(st: Settings, r: Name, i: Name, o: Name)
    returns (s': System, run: seq<System>, moves: seq<Move>)
    ensures RunsTo(st, Mistaken(r, i, o), s', run, moves)
    ensures
      s' == Mistaken(r, i, o).(
        core := Believing(r, i, o, {o}).(pending := map[o := Push(false, 0, 0, None)], inFlight := {o}),
        inbox := [PushResult(o, false, false, None)], started := true,
        sent := [Request(o, QUIET)], performed := [Request(o, QUIET)])
  {
    ForcedRow(st, r, i, o, {o});
    PushSent(st, r, i, o);
    var q, s0 := Request(o, QUIET), Mistaken(r, i, o);
    var c1 := s0.core.(pending := map[o := Push(false, 0, 0, None)]);
    run, moves := ReconcileIsARun(st, s0, c1, c1.(inFlight := {o}), map[], map[], [q], 0);
    var s1 := run[|moves|];
    var more, moreMoves;
    assert s1.work == [q] + [];
    s', more, moreMoves := ServeOne(st, s1, q, [], false, None);
    RunsOn(st, s0, s1, s', run, moves, more, moreMoves);
    run, moves := run + more[1..], moves + moreMoves;
  }

  /** Whatever the settings, one failed push leaves the output at rest in a state none of its rules asks for. */
  lemma UntruthfulStartStaysWrong(st: Settings, r: Name, i: Name, o: Name)
    returns (run: seq<System>, moves: seq<Move>)
    ensures Run(st, run, moves) && Initial(run[0]) && run[|moves|].started && AtRest(run[|moves|], o)
    ensures run[|moves|].core.graph == OneRule(r, i, o) && Latched(run[|moves|].core.cache) == {}
    ensures Get(run[|moves|].remote, o) == Some(true)
  {
    OneRuleIsIndexed(r, i, o);
    FailureDropsRow(st, r, i, o);
    var s;
    s, run, moves := ForcedPushFails(st, r, i, o);
    var s' := s.(core := Believing(r, i, o, {o}), inbox := []);
    var l := Result(o, false, false, None);
    assert SystemNext(st, s, s', Handle(l), 0);
    RunsByMove(st, s, s', Handle(l), 0);
    RunsOn(st, run[0], s, s', run, moves, [s, s'], [Move(Handle(l), 0)]);
    run, moves := run + [s, s'][1..], moves + [Move(Handle(l), 0)];
  }

  // -- an output without a plugin ---------------------------------------------------------------------

  /** The state once an event has latched the rule of an output that has no plugin. */
  function LatchedWithout(r: Name, i: Name, o: Name, e: Event): State {
    var l := Triggered(UNTOUCHED, i, e);
    Believing(r, i, o, {}).(cache := map[r := l], rows := map[r := l])
  }

  lemma OneAffected(r: Name, i: Name, o: Name)
    ensures Affected(OneRule(r, i, o), {r}) == {o}
  {
    var g := OneRule(r, i, o);
    assert r in {r} && r in g.rules && o in g.rules[r].outputs;
  }

  lemma EventOwesPush(st: Settings, r: Name, i: Name, o: Name, e: Event)
    ensures Next(st, Believing(r, i, o, {}).(pending := map[o := Push(false, 0, 0, None)]),
                 LatchedWithout(r, i, o, e).(pending := map[o := Push(true, 0, 0, None)]), Trigger(i, e), 0)
  {
    var s := Believing(r, i, o, {}).(pending := map[o := Push(false, 0, 0, None)]);
    var s' := LatchedWithout(r, i, o, e).(pending := map[o := Push(true, 0, 0, None)]);
    var l := Trigger(i, e);
    assert TriggeredBy(s.graph, i) == {r};
    forall n ensures LatchIn(s'.cache, n) == LatchAfter(s, l, 0, n) {}
    assert Rule(r, [i], [o]) in RulesFor(s'.graph.byOutput, o) && r in Latched(s'.cache);
    OneAffected(r, i, o);
    forall x ensures Get(s'.pending, x) == RowAfter(st, s, s', l, 0, x) {}
  }

  lemma PushDropped(st: Settings, r: Name, i: Name, o: Name, e: Event)
    ensures Next(st, LatchedWithout(r, i, o, e).(pending := map[o := Push(true, 0, 0, None)]),
                 LatchedWithout(r, i, o, e), Dispatch([]), 0)
  {
    var s := LatchedWithout(r, i, o, e).(pending := map[o := Push(true, 0, 0, None)]);
    assert Targets([]) == {};
    assert s.inFlight + Targets([]) == s.inFlight;
    forall x ensures Get(map[], x) == RowAfter(st, s, s.(pending := map[]), Dispatch([]), 0, x) {}
  }

  /** Nothing latched, the record truthful, and no plugin for the output. */
  function Unplugged(r: Name, i: Name, o: Name): System {
    System(Believing(r, i, o, {}), [], [], [Idle], {}, map[o := false], false, [], [], {})
  }

  /** The same once started and told of an event. */
  function Told(r: Name, i: Name, o: Name, e: Event): System {
    var s := Unplugged(r, i, o);
    s.(core := s.core.(pending := map[o := Push(false, 0, 0, None)]), inbox := [InputEvent(i, e)], started := true)
  }

  /** And once the event is handled and the push it owes is dropped. */
  function Dropped(r: Name, i: Name, o: Name, e: Event): System {
    Told(r, i, o, e).(core := LatchedWithout(r, i, o, e), inbox := [])
  }

  lemma StartAndTell(st: Settings, r: Name, i: Name, o: Name, e: Event) returns (run: seq<System>, moves: seq<Move>)
    ensures RunsTo(st, Unplugged(r, i, o), Told(r, i, o, e), run, moves)
  {
    var s0, s2 := Unplugged(r, i, o), Told(r, i, o, e);
    var s1 := s2.(inbox := []);
    ForcedRow(st, r, i, o, {});
    RunsByMove(st, s0, s1, Timer(Startup(map[], map[])), 0);
    RunsByMove(st, s1, s2, Submit(InputEvent(i, e)), 0);
    var start, tell := [Move(Timer(Startup(map[], map[])), 0)], [Move(Submit(InputEvent(i, e)), 0)];
    RunsOn(st, s0, s1, s2, [s0, s1], start, [s1, s2], tell);
    run, moves := [s0, s1] + [s1, s2][1..], start + tell;
  }

  lemma LatchAndDrop(st: Settings, r: Name, i: Name, o: Name, e: Event) returns (run: seq<System>, moves: seq<Move>)
    ensures RunsTo(st, Told(r, i, o, e), Dropped(r, i, o, e), run, moves)
  {
    var s0, s2 := Told(r, i, o, e), Dropped(r, i, o, e);
    var s1 := s2.(core := s2.core.(pending := map[o := Push(true, 0, 0, None)]));
    EventOwesPush(st, r, i, o, e);
    PushDropped(st, r, i, o, e);
    RunsByMove(st, s0, s1, Handle(Trigger(i, e)), 0);
    RunsByMove(st, s1, s2, Send([]), 0);
    run, moves := [s0, s1] + [s1, s2][1..], [Move(Handle(Trigger(i, e)), 0)] + [Move(Send([]), 0)];
    RunsOn(st, s0, s1, s2, [s0, s1], [Move(Handle(Trigger(i, e)), 0)], [s1, s2], [Move(Send([]), 0)]);
  }

  /** Why agreement at rest is promised only with a plugin: without one a due push is dropped, so an output whose record
      was truthful from the start has no row and nothing in flight while its remote ignores a latched rule. */
  lemma MissingPluginStaysWrong(st: Settings, r: Name, i: Name, o: Name, e: Event)
    returns (run: seq<System>, moves: seq<Move>)
    ensures Run(st, run, moves) && Initial(run[0]) && Truthful(run[0], o) && run[|moves|].started
    ensures
      var s := run[|moves|];
      && o in s.core.graph.byOutput && o !in s.core.pending && o !in s.core.inFlight && o !in s.core.live
      && r in RenderedBy(s.core.graph, o) * Latched(s.core.cache) && Get(s.remote, o) == Some(false)
  {
    OneRuleIsIndexed(r, i, o);
    assert r in RenderedBy(OneRule(r, i, o), o);
    run, moves := StartAndTell(st, r, i, o, e);
    var more, moreMoves := LatchAndDrop(st, r, i, o, e);
    RunsOn(st, Unplugged(r, i, o), Told(r, i, o, e), Dropped(r, i, o, e), run, moves, more, moreMoves);
    run, moves := run + more[1..], moves + moreMoves;
  }
}
