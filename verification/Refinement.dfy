/** What the engine class promises of its methods is a run of the concurrent system: so everything proved of runs holds
    of the class between any moves of the workers. */
module Refinement {
  import opened Base
  import opened Rules
  import opened Records
  import opened Messages
  import opened Core
  import opened Protocol
  import opened Storage
  import opened Loop

  /** A run from one system state to another. */
  ghost predicate RunsTo(st: Settings, s: System, s': System, run: seq<System>, moves: seq<Move>) {
    Run(st, run, moves) && run[0] == s && run[|moves|] == s'
  }

  lemma RunsOn(st: Settings, s: System, mid: System, s': System,
               a: seq<System>, aMoves: seq<Move>, b: seq<System>, bMoves: seq<Move>)
    requires RunsTo(st, s, mid, a, aMoves) && RunsTo(st, mid, s', b, bMoves)
    ensures RunsTo(st, s, s', a + b[1..], aMoves + bMoves)
  {
    var run, moves := a + b[1..], aMoves + bMoves;
    forall k | 0 <= k < |moves| ensures SystemNext(st, run[k], run[k + 1], moves[k].action, moves[k].now) {
      if k >= |aMoves| {
        assert run[k] == b[k - |aMoves|] && run[k + 1] == b[k + 1 - |aMoves|];
      }
    }
  }

  lemma RunsByMove(st: Settings, s: System, s': System, a: Action, now: Time)
    requires SystemNext(st, s, s', a, now)
    ensures RunsTo(st, s, s', [s, s'], [Move(a, now)])
  {
  }

  /** Steps that timers cause are moves of the core on its own. */
  lemma TimerStepsRun(st: Settings, s: System, c: State, trace: seq<State>, steps: seq<Step>)
    returns (run: seq<System>, moves: seq<Move>)
    requires Leads(st, s.core, c, trace, steps)
    requires forall k :: 0 <= k < |steps| ==> steps[k].act.Trigger? || steps[k].act.Retry?
    ensures RunsTo(st, s, s.(core := c), run, moves)
  {
    run := seq(|trace|, k requires 0 <= k < |trace| => s.(core := trace[k]));
    moves := seq(|steps|, k requires 0 <= k < |steps| => Move(Timer(steps[k].act), steps[k].now));
    forall k | 0 <= k < |moves| ensures SystemNext(st, run[k], run[k + 1], moves[k].action, moves[k].now) {
      assert Next(st, trace[k], trace[k + 1], steps[k].act, steps[k].now);
    }
  }

  /** The system after the core has handled the head of its queue. */
  function Handled(s: System, c: State, steps: seq<Step>): System
    requires s.inbox != []
  {
    var reloads := |steps| == 1 && steps[0].act.Reload?;
    s.(core := c, inbox := s.inbox[1..],
       table := if reloads && steps[0].act.live.Some? then steps[0].act.live.value else s.table,
       started := s.started || reloads)
  }

  /** Handling a message, as Engine.HandleMessage promises to do it, is a run. */
  lemma HandlingIsARun(st: Settings, s: System, answer: Answer, plugins: PluginSet, c: State,
                       trace: seq<State>, steps: seq<Step>, now: Time)
    returns (run: seq<System>, moves: seq<Move>)
    requires s.inbox != [] && Leads(st, s.core, c, trace, steps)
    requires plugins.outputs == s.core.live && StepsFor(s.inbox[0], answer, plugins, steps, now)
    ensures RunsTo(st, s, Handled(s, c, steps), run, moves)
  {
    var m, s' := s.inbox[0], Handled(s, c, steps);
    if m.CatchUp? || steps == [] {
      var popped := s.(inbox := s.inbox[1..]);
      RunsByMove(st, s, popped, Discard, now);
      run, moves := TimerStepsRun(st, popped, c, trace, steps);
      RunsOn(st, s, popped, popped.(core := c), [s, popped], [Move(Discard, now)], run, moves);
      run, moves := [s, popped] + run[1..], [Move(Discard, now)] + moves;
    } else {
      var l := steps[0].act;
      assert Next(st, trace[0], trace[1], l, now);
      assert Carries(m, l);
      RunsByMove(st, s, s', Handle(l), now);
      run, moves := [s, s'], [Move(Handle(l), now)];
    }
  }

  /** A tick, as Engine.Tick promises to do it, is a run that ends with the requests on the dispatcher's queue. */
  lemma TickIsARun(st: Settings, s: System, mid: State, c: State, trace: seq<State>, steps: seq<Step>,
                   sent: seq<Request>, now: Time)
    returns (run: seq<System>, moves: seq<Move>)
    requires Leads(st, s.core, mid, trace, steps)
    requires forall k :: 0 <= k < |steps| ==> steps[k].act.Trigger? || steps[k].act.Retry?
    requires Next(st, mid, c, Dispatch(sent), now)
    ensures RunsTo(st, s, s.(core := c, work := s.work + sent, sent := s.sent + sent), run, moves)
  {
    var s1, s2 := s.(core := mid), s.(core := c, work := s.work + sent, sent := s.sent + sent);
    run, moves := TimerStepsRun(st, s, mid, trace, steps);
    RunsByMove(st, s1, s2, Send(sent), now);
    RunsOn(st, s, s1, s2, run, moves, [s1, s2], [Move(Send(sent), now)]);
    run, moves := run + [s1, s2][1..], moves + [Move(Send(sent), now)];
  }

  /** Startup reconciliation, as Engine.Reconcile promises to do it, is a run. */
  lemma ReconcileIsARun(st: Settings, s: System, mid: State, c: State, downtime: map<Name, seq<Event>>,
                        reports: map<Name, RemoteState>, sent: seq<Request>, now: Time)
    returns (run: seq<System>, moves: seq<Move>)
    requires Next(st, s.core, mid, Startup(downtime, reports), now) && Next(st, mid, c, Dispatch(sent), now)
    ensures RunsTo(st, s, s.(core := c, started := true, work := s.work + sent, sent := s.sent + sent), run, moves)
  {
    var s1 := s.(core := mid, started := true);
    var s2 := s1.(core := c, work := s.work + sent, sent := s.sent + sent);
    RunsByMove(st, s, s1, Timer(Startup(downtime, reports)), now);
    RunsByMove(st, s1, s2, Send(sent), now);
    run, moves := [s, s1, s2], [Move(Timer(Startup(downtime, reports)), now), Move(Send(sent), now)];
  }

  /** Mirroring a configuration into the rule table, as Store.SyncRules promises to do it, is a step of the core that
      changes no latch, and so a move of the system on its own. */
  lemma MirroringIsARun(st: Settings, s: System, t: RuleTables, t': RuleTables, records: seq<RuleRecord>, now: Time)
    returns (run: seq<System>, moves: seq<Move>)
    requires Mirrored(t, t', records) && s.core.rows == t.latches
    ensures RunsTo(st, s, s.(core := s.core.(rows := t'.latches)), run, moves)
  {
    var s' := s.(core := s.core.(rows := t'.latches));
    forall n ensures LatchIn(t'.latches, n) == LatchIn(t.latches, n) {
      MirroringMeans(t, t', records, n);
    }
    RunsByMove(st, s, s', Timer(Mirror), now);
    run, moves := [s, s'], [Move(Timer(Mirror), now)];
  }

  // -- a drain is a run ------------------------------------------------------------------------------------

  /** The system as a dispatcher that applies before it returns leaves it: no work queued, a worker free, and the
      dispatcher's table of outputs the core's own. */
  ghost predicate Inline(s: System) {
    s.work == [] && s.workers != [] && s.workers[0].Idle? && s.table == s.core.live
  }

  lemma {:induction false} LiveKept(st: Settings, trace: seq<State>, steps: seq<Step>)
    requires Path(st, trace, steps) && forall k :: 0 <= k < |steps| ==> !steps[k].act.Reload?
    ensures trace[|steps|].live == trace[0].live
  {
    if steps != [] {
      var n := |steps| - 1;
      PathPrefix(st, trace, steps);
      LiveKept(st, trace[..n + 1], steps[..n]);
      assert Frame(trace[n], trace[n + 1], steps[n].act, steps[n].now);
    }
  }

  /** After a message the core's outputs are those of the plugins there are then. */
  lemma LiveAfterMessage(st: Settings, s: State, c: State, trace: seq<State>, h: Handling, plugins: PluginSet,
                         now: Time)
    requires Leads(st, s, c, trace, h.steps) && StepsFor(h.message, h.answer, plugins, h.steps, now)
    requires plugins.outputs == s.live
    ensures c.live == PluginsNext(plugins, h.message).outputs
  {
    if h.message.ReloadRequest? {
      assert Next(st, trace[0], trace[1], h.steps[0].act, now);
      assert Frame(trace[0], trace[1], h.steps[0].act, now);
    } else {
      LiveKept(st, trace, h.steps);
    }
  }

  /** Handling one message, with the dispatcher's table following the core's. */
  lemma MessageIsARun(st: Settings, s: System, h: Handling, rest: seq<Message>, plugins: PluginSet, c: State,
                      trace: seq<State>, now: Time)
    returns (s': System, run: seq<System>, moves: seq<Move>)
    requires s.inbox == [h.message] + rest && s.table == s.core.live == plugins.outputs
    requires Leads(st, s.core, c, trace, h.steps) && StepsFor(h.message, h.answer, plugins, h.steps, now)
    ensures RunsTo(st, s, s', run, moves) && (s.started ==> s'.started)
    ensures s' == s.(core := c, inbox := rest, table := c.live, started := s'.started)
    ensures c.live == PluginsNext(plugins, h.message).outputs
  {
    run, moves := HandlingIsARun(st, s, h.answer, plugins, c, trace, h.steps, now);
    s' := Handled(s, c, h.steps);
    LiveAfterMessage(st, s.core, c, trace, h, plugins, now);
  }

  /** Handling a log of messages is a run. */
  lemma {:induction false} LogIsARun(st: Settings, s: System, plugins: PluginSet, log: seq<Handling>,
                                     rest: seq<Message>, c: State, trace: seq<State>, now: Time)
    returns (s': System, run: seq<System>, moves: seq<Move>)
    requires s.inbox == MessagesOf(log) + rest && s.table == s.core.live == plugins.outputs
    requires Logged(log, plugins, now) && Leads(st, s.core, c, trace, StepsOf(log))
    ensures RunsTo(st, s, s', run, moves) && (s.started ==> s'.started)
    ensures s' == s.(core := c, inbox := rest, table := c.live, started := s'.started)
    ensures c.live == PluginsAfter(plugins, log).outputs
    decreases |log|
  {
    if log == [] {
      s', run, moves := s, [s], [];
    } else {
      var n := |log| - 1;
      var before, last := log[..n], log[n];
      LogPrefix(log, plugins, now);
      var mid, first, second := LeadsSplit(st, s.core, c, trace, StepsOf(before), last.steps);
      assert MessagesOf(log) == MessagesOf(before) + [last.message];
      ConcatAssociates(MessagesOf(before), [last.message], rest);
      var s1, more, moreMoves;
      s1, run, moves := LogIsARun(st, s, plugins, before, [last.message] + rest, mid, first, now);
      s', more, moreMoves := MessageIsARun(st, s1, last, rest, PluginsAfter(plugins, before), c, second, now);
      RunsOn(st, s, s1, s', run, moves, more, moreMoves);
      run, moves := run + more[1..], moves + moreMoves;
    }
  }

  /** The remote after a request that got this result. */
  function RemoteAfter(remote: map<Name, bool>, q: Request, ok: bool): map<Name, bool> {
    if ok then remote[q.output := q.update.state] else remote
  }

  /** The first worker takes the first request, applies it and reports. */
  lemma ServeOne(st: Settings, s: System, q: Request, rest: seq<Request>, ok: bool, error: Option<string>)
    returns (s': System, run: seq<System>, moves: seq<Move>)
    requires s.workers != [] && s.workers[0].Idle? && s.work == [q] + rest && q.output in s.table
    ensures RunsTo(st, s, s', run, moves)
    ensures s' == s.(work := rest, inbox := s.inbox + [PushResult(q.output, q.update.state, ok, error)],
                     performed := s.performed + [q], remote := RemoteAfter(s.remote, q, ok),
                     touched := if ok then s.touched + {q.output} else s.touched)
  {
    var s1 := Set(s, 0, Taken(q)).(work := rest);
    var s2 := Set(s1, 0, Calling(q));
    var s3 := Set(s2, 0, Finished(q, ok, error)).(
      performed := s.performed + [q], remote := RemoteAfter(s.remote, q, ok),
      touched := if ok then s.touched + {q.output} else s.touched);
    s' := Set(s3, 0, Idle).(inbox := s.inbox + [PushResult(q.output, q.update.state, ok, error)]);
    assert s'.workers == s.workers;
    assert SystemNext(st, s, s1, Take(0), 0);
    assert SystemNext(st, s1, s2, LookUp(0), 0);
    assert SystemNext(st, s2, s3, Apply(0, ok, error), 0);
    assert SystemNext(st, s3, s', Report(0), 0);
    run := [s, s1, s2, s3, s'];
    moves := [Move(Take(0), 0), Move(LookUp(0), 0), Move(Apply(0, ok, error), 0), Move(Report(0), 0)];
  }

  /** Serving every request in turn leaves their results in the inbox, in order. */
  lemma {:induction false} ServeAll(st: Settings, s: System, queue: seq<Message>)
    returns (s': System, run: seq<System>, moves: seq<Move>)
    requires s.workers != [] && s.workers[0].Idle? && Reports(s.work, queue)
    requires forall q :: q in s.work ==> q.output in s.table
    ensures RunsTo(st, s, s', run, moves)
    ensures s' == s.(work := [], inbox := s.inbox + queue, performed := s'.performed, remote := s'.remote,
                     touched := s'.touched)
    decreases |s.work|
  {
    if s.work == [] {
      assert s.inbox + queue == s.inbox;
      s', run, moves := s, [s], [];
    } else {
      var q, m, rest := s.work[0], queue[0], s.work[1..];
      assert s.work == [q] + rest && queue == [m] + queue[1..];
      assert ReportOf(q, m);
      var s1, more, moreMoves;
      s1, run, moves := ServeOne(st, s, q, rest, m.ok, m.error);
      forall k | 0 <= k < |rest| ensures ReportOf(rest[k], queue[1..][k]) {
        assert ReportOf(s.work[k + 1], queue[k + 1]);
      }
      s', more, moreMoves := ServeAll(st, s1, queue[1..]);
      ConcatAssociates(s.inbox, [m], queue[1..]);
      RunsOn(st, s, s1, s', run, moves, more, moreMoves);
      run, moves := run + more[1..], moves + moreMoves;
    }
  }

  /** Only live outputs are sent to, and they stay live. */
  lemma SentAreLive(st: Settings, s: State, c: State, sent: seq<Request>, now: Time)
    requires Next(st, s, c, Dispatch(sent), now)
    ensures c.live == s.live && forall q :: q in sent ==> q.output in s.live
  {
    assert Frame(s, c, Dispatch(sent), now) && Sends(s, sent, now);
    forall q | q in sent ensures q.output in s.live {
      assert q.output in Targets(sent);
    }
  }

  /** Dispatching inline is a run: the requests are sent and served before anything else happens. */
  lemma DispatchIsARun(st: Settings, s: System, c: State, sent: seq<Request>, queue: seq<Message>, now: Time)
    returns (s': System, run: seq<System>, moves: seq<Move>)
    requires Inline(s) && s.inbox == [] && Next(st, s.core, c, Dispatch(sent), now) && Reports(sent, queue)
    ensures RunsTo(st, s, s', run, moves)
    ensures Inline(s') && s'.core == c && s'.inbox == queue && s'.started == s.started
  {
    var s1 := s.(core := c, work := s.work + sent, sent := s.sent + sent);
    assert s.work + sent == sent && s.inbox + queue == queue;
    SentAreLive(st, s.core, c, sent, now);
    RunsByMove(st, s, s1, Send(sent), now);
    var more, moreMoves;
    s', more, moreMoves := ServeAll(st, s1, queue);
    RunsOn(st, s, s1, s', [s, s1], [Move(Send(sent), now)], more, moreMoves);
    run, moves := [s, s1] + more[1..], [Move(Send(sent), now)] + moreMoves;
  }

  /** The system stands where the loop's view says. */
  ghost predicate Stands(s: System, v: View) {
    && Inline(s) && s.inbox == v.queue && v.plugins.outputs == s.core.live
    && forall t :: t in v.timers ==> OnTimer(t.message)
  }

  /** Firing the due timers is a run. */
  lemma FiringIsARun(st: Settings, s: System, plugins: PluginSet, timers: seq<Scheduled>, fired: seq<Handling>,
                     timers': seq<Scheduled>, c: State, trace: seq<State>, now: Time)
    returns (run: seq<System>, moves: seq<Move>)
    requires Fires(plugins, timers, fired, timers', now) && forall t :: t in timers ==> OnTimer(t.message)
    requires Leads(st, s.core, c, trace, StepsOf(fired))
    ensures RunsTo(st, s, s.(core := c), run, moves) && c.live == s.core.live
    ensures forall t :: t in timers' ==> OnTimer(t.message)
  {
    FiredOnTimer(timers, fired, now);
    TimerLogFacts(fired, plugins, now);
    LogFacts(fired, plugins, now);
    LiveKept(st, trace, StepsOf(fired));
    forall t | t in timers' ensures OnTimer(t.message) {
      FilterMember(timers, IsLater(now), t);
    }
    run, moves := TimerStepsRun(st, s, c, trace, StepsOf(fired));
  }

  /** A round is a run. */
  lemma TurnIsARun(st: Settings, s: System, v: View, turn: Turn, v': View, c: State, trace: seq<State>, now: Time)
    returns (s': System, run: seq<System>, moves: seq<Move>)
    requires Stands(s, v) && Turns(v, turn, v', now) && Leads(st, s.core, c, trace, StepsOfTurn(turn, now))
    ensures RunsTo(st, s, s', run, moves) && Stands(s', v') && s'.core == c && (s.started ==> s'.started)
  {
    var last := [Step(Dispatch(turn.sent), now)];
    TurnSteps(turn, now);
    var a, handledTrace, after := LeadsSplit(st, s.core, c, trace, StepsOf(turn.handled), StepsOf(turn.fired) + last);
    var b, firedTrace, lastTrace := LeadsSplit(st, a, c, after, StepsOf(turn.fired), last);
    assert Next(st, lastTrace[0], lastTrace[1], last[0].act, last[0].now);
    var s1, more, moreMoves;
    assert s.inbox == MessagesOf(turn.handled) + [];
    s1, run, moves := LogIsARun(st, s, v.plugins, turn.handled, [], a, handledTrace, now);
    LogFacts(turn.handled, v.plugins, now);
    more, moreMoves := FiringIsARun(st, s1, v'.plugins, v.timers + TimersOf(turn.handled, v.plugins, now), turn.fired,
                                    v'.timers, b, firedTrace, now);
    var s2 := s1.(core := b);
    RunsOn(st, s, s1, s2, run, moves, more, moreMoves);
    run, moves := run + more[1..], moves + moreMoves;
    s', more, moreMoves := DispatchIsARun(st, s2, c, turn.sent, v'.queue, now);
    assert Frame(b, c, Dispatch(turn.sent), now);
    RunsOn(st, s, s2, s', run, moves, more, moreMoves);
    run, moves := run + more[1..], moves + moreMoves;
  }

  /** The rounds before the last, and the last. */
  lemma DrainedBefore(st: Settings, s: State, views: seq<View>, turns: seq<Turn>, c: State, v: View,
                      trace: seq<State>, now: Time)
    returns (mid: State, first: seq<State>, second: seq<State>)
    requires turns != [] && |views| > 0 && Drained(st, s, views[0], views, turns, trace, c, v, now)
    ensures var n := |turns| - 1;
            && |views| == n + 2 && Turns(views[n], turns[n], v, now)
            && Drained(st, s, views[0], views[..n + 1], turns[..n], first, mid, views[n], now)
            && Leads(st, mid, c, second, StepsOfTurn(turns[n], now))
  {
    var n := |turns| - 1;
    mid, first, second := LeadsSplit(st, s, c, trace, StepsOfTurns(turns[..n], now), StepsOfTurn(turns[n], now));
    RoundsBefore(views, turns, now);
  }

  lemma RoundsBefore(views: seq<View>, turns: seq<Turn>, now: Time)
    requires Rounds(views, turns, now) && turns != []
    ensures var n := |turns| - 1;
            Rounds(views[..n + 1], turns[..n], now) && Turns(views[n], turns[n], views[n + 1], now)
  {
    var n := |turns| - 1;
    forall k | 0 <= k < n ensures Turns(views[..n + 1][k], turns[..n][k], views[..n + 1][k + 1], now) {
      assert Turns(views[k], turns[k], views[k + 1], now);
    }
  }

  /** A drain, as Engine.Drain promises to do it, is a run. */
  lemma {:induction false} DrainIsARun(st: Settings, s: System, views: seq<View>, turns: seq<Turn>, c: State, v: View,
                                       trace: seq<State>, now: Time)
    returns (s': System, run: seq<System>, moves: seq<Move>)
    requires |views| > 0 && Stands(s, views[0]) && Drained(st, s.core, views[0], views, turns, trace, c, v, now)
    ensures RunsTo(st, s, s', run, moves) && Stands(s', v) && s'.core == c && (s.started ==> s'.started)
    decreases |turns|
  {
    if turns == [] {
      s', run, moves := s, [s], [];
    } else {
      var n := |turns| - 1;
      var mid, first, second := DrainedBefore(st, s.core, views, turns, c, v, trace, now);
      var s1, more, moreMoves;
      s1, run, moves := DrainIsARun(st, s, views[..n + 1], turns[..n], mid, views[n], first, now);
      s', more, moreMoves := TurnIsARun(st, s1, views[n], turns[n], v, c, second, now);
      RunsOn(st, s, s1, s', run, moves, more, moreMoves);
      run, moves := run + more[1..], moves + moreMoves;
    }
  }

  /** The remote of an output is the OR of the stored latches of the rules that list it. */
  ghost predicate ShowsOr(s: System, o: Name) {
    Get(s.remote, o) == Some(exists n :: n in s.core.graph.rules && o in s.core.graph.rules[n].outputs
                                         && LatchIn(s.core.rows, n).state)
  }

  /** Convergence of the remotes: from any started state that a run from truthful tables reaches, with every row due, a
      drain whose applies succeed is a further run, and at its end every live output of the graph shows the OR of its
      latches. */
  lemma DrainedRemotesAgree(st: Settings, run: seq<System>, moves: seq<Move>, views: seq<View>, turns: seq<Turn>,
                            c: State, v: View, trace: seq<State>, now: Time)
    returns (run': seq<System>, moves': seq<Move>)
    requires Run(st, run, moves) && Initial(run[0]) && run[|moves|].started
    requires forall x :: Applied(run[0].core, x).Some? ==> Truthful(run[0], x)
    requires |views| > 0 && Stands(run[|moves|], views[0])
    requires Drained(st, run[|moves|].core, views[0], views, turns, trace, c, v, now)
    requires AllDue(run[|moves|].core, now) && AllSucceed(StepsOfTurns(turns, now), now)
    requires c.inFlight == {} && forall o :: o in c.pending ==> c.pending[o].due > now
    ensures Run(st, run', moves') && run'[0] == run[0] && run'[|moves'|].core == c
    ensures forall o :: o in c.graph.byOutput && o in c.live ==> ShowsOr(run'[|moves'|], o)
  {
    var s := run[|moves|];
    RunInvariant(st, run, moves);
    SettledPathConverges(st, s.core, c, trace, StepsOfTurns(turns, now), now);
    var s', more, moreMoves := DrainIsARun(st, s, views, turns, c, v, trace, now);
    RunsOn(st, run[0], s, s', run, moves, more, moreMoves);
    run', moves' := run + more[1..], moves + moreMoves;
    forall o | o in c.graph.byOutput && o in c.live ensures ShowsOr(s', o) {
      RemoteIsOrOfLatches(st, run', moves', o);
    }
  }
}
