/** What one turn of the core loop does with messages and timers (src/noti_mapper/engine.py): the steps each message
    calls for, the timers it leaves, and the turns of a drain. */
module Loop {
  import opened Base
  import opened Rules
  import opened Records
  import opened Messages
  import opened Core

  datatype Scheduled = Scheduled(at: Time, message: Message)

  const SECOND: Time := 1_000_000
  const HEALTH_POLL_INTERVAL: Time := 30 * SECOND
  const RECONCILE_RETRY_INITIAL: Time := 30 * SECOND
  const RECONCILE_RETRY_MAX: Time := 900 * SECOND
  const MAX_DRAIN_ROUNDS := 100

  /** The messages the core schedules for itself. */
  predicate OnTimer(m: Message) {
    m.PollHealth? || m.ReconcileOutput? || m.CatchUp?
  }

  /** The delay before a plugin that did not answer is asked again. */
  function RetryDelay(attempt: nat): (d: Time)
    ensures 0 < d <= RECONCILE_RETRY_MAX
  {
    PowPositive(2, attempt);
    var d := RECONCILE_RETRY_INITIAL * Pow(2, attempt);
    if d > RECONCILE_RETRY_MAX then RECONCILE_RETRY_MAX else d
  }

  /** The delay starts at half a minute and doubles with every attempt until it stays at a quarter of an hour. */
  lemma RetryDelayDoubles(attempt: nat)
    ensures RetryDelay(0) == 30 * SECOND
    ensures RetryDelay(attempt + 1) ==
            if 2 * RetryDelay(attempt) > 900 * SECOND then 900 * SECOND else 2 * RetryDelay(attempt)
  {
    PowPositive(2, attempt);
    assert Pow(2, attempt + 1) == 2 * Pow(2, attempt);
    assert Pow(2, 0) == 1;
  }

  // -- one message -----------------------------------------------------------------------

  /** What the plugins answer while a message is handled: a remote state, and downtime events unless catch_up fails. */
  datatype Answer = Answer(remote: RemoteState, events: Option<seq<Event>>)

  function Replay(instance: Name, events: seq<Event>, now: Time): seq<Step> {
    seq(|events|, k requires 0 <= k < |events| => Step(Trigger(instance, events[k]), now))
  }

  /** The steps that handling the message takes. */
  ghost predicate StepsFor(m: Message, answer: Answer, plugins: PluginSet, steps: seq<Step>, now: Time) {
    match m
    case InputEvent(i, e) => steps == [Step(Trigger(i, e), now)]
    case UnlatchRequest(o, _) => steps == [Step(Unlatch(o), now)]
    case PushResult(o, v, ok, error) => steps == [Step(Result(o, v, ok, error), now)]
    case ReloadRequest(c, fresh_) =>
      && |steps| == 1 && steps[0].now == now && steps[0].act.Reload? && steps[0].act.graph.rules == GraphRules(c)
      && steps[0].act.live == if fresh_.Some? then Some(fresh_.value.outputs) else None
    case ReconcileOutput(o, _) =>
      steps == if o in plugins.outputs && !answer.remote.belief.Unknown?
               then [Step(Retry(o, answer.remote), now)] else []
    case CatchUp(i, _, _) =>
      steps == if i in plugins.inputs && answer.events.Some? then Replay(i, answer.events.value, now) else []
    case PollHealth => steps == []
    case Shutdown => steps == []
  }

  /** The timers that handling the message sets: the next health poll, or another try for a silent plugin. */
  function TimersFor(m: Message, answer: Answer, plugins: PluginSet, now: Time): seq<Scheduled> {
    match m
    case ReconcileOutput(o, attempt) =>
      if o in plugins.outputs && answer.remote.belief.Unknown?
      then [Scheduled(now + RetryDelay(attempt), ReconcileOutput(o, attempt + 1))] else []
    case CatchUp(i, attempt, since) =>
      if i in plugins.inputs && answer.events.None?
      then [Scheduled(now + RetryDelay(attempt), CatchUp(i, attempt + 1, since))] else []
    case PollHealth => [Scheduled(now + HEALTH_POLL_INTERVAL, PollHealth)]
    case _ => []
  }

  /** Only a reload that brings plugins changes them. */
  function PluginsNext(plugins: PluginSet, m: Message): PluginSet {
    if m.ReloadRequest? && m.plugins.Some? then m.plugins.value else plugins
  }

  // -- several messages ----------------------------------------------------------------------

  /** A message handled, with the answers it got and the steps it took. */
  datatype Handling = Handling(message: Message, answer: Answer, steps: seq<Step>)

  function MessagesOf(log: seq<Handling>): seq<Message> {
    seq(|log|, k requires 0 <= k < |log| => log[k].message)
  }

  function PluginsAfter(plugins: PluginSet, log: seq<Handling>): PluginSet {
    if log == [] then plugins
    else PluginsNext(PluginsAfter(plugins, log[..|log| - 1]), log[|log| - 1].message)
  }

  /** The steps of all the messages, one after another. */
  function StepsOf(log: seq<Handling>): seq<Step> {
    if log == [] then [] else StepsOf(log[..|log| - 1]) + log[|log| - 1].steps
  }

  function TimersOf(log: seq<Handling>, plugins: PluginSet, now: Time): seq<Scheduled> {
    if log == [] then []
    else
      var before, last := log[..|log| - 1], log[|log| - 1];
      TimersOf(before, plugins, now) + TimersFor(last.message, last.answer, PluginsAfter(plugins, before), now)
  }

  /** Every message took the steps it calls for, with the plugins there were by then. */
  ghost predicate Logged(log: seq<Handling>, plugins: PluginSet, now: Time) {
    forall k :: 0 <= k < |log| ==>
      StepsFor(log[k].message, log[k].answer, PluginsAfter(plugins, log[..k]), log[k].steps, now)
  }

  lemma LogGrows(log: seq<Handling>, h: Handling, plugins: PluginSet, now: Time)
    requires Logged(log, plugins, now)
    requires StepsFor(h.message, h.answer, PluginsAfter(plugins, log), h.steps, now)
    ensures Logged(log + [h], plugins, now)
    ensures MessagesOf(log + [h]) == MessagesOf(log) + [h.message] && StepsOf(log + [h]) == StepsOf(log) + h.steps
    ensures PluginsAfter(plugins, log + [h]) == PluginsNext(PluginsAfter(plugins, log), h.message)
    ensures TimersOf(log + [h], plugins, now) ==
            TimersOf(log, plugins, now) + TimersFor(h.message, h.answer, PluginsAfter(plugins, log), now)
  {
    var more := log + [h];
    assert more[..|log|] == log;
    forall k | 0 <= k < |more|
      ensures StepsFor(more[k].message, more[k].answer, PluginsAfter(plugins, more[..k]), more[k].steps, now)
    {
      assert k < |log| ==> more[..k] == log[..k];
    }
  }

  lemma LogPrefix(log: seq<Handling>, plugins: PluginSet, now: Time)
    requires Logged(log, plugins, now) && log != []
    ensures Logged(log[..|log| - 1], plugins, now)
    ensures MessagesOf(log[..|log| - 1]) == MessagesOf(log)[..|log| - 1]
  {
    var n := |log| - 1;
    forall k | 0 <= k < n
      ensures StepsFor(log[k].message, log[k].answer, PluginsAfter(plugins, log[..n][..k]), log[k].steps, now)
    {
      assert log[..n][..k] == log[..k];
    }
  }

  /** What one message calls for: timers in the future, and steps now that dispatch nothing. */
  lemma HandlingFacts(h: Handling, plugins: PluginSet, now: Time)
    requires StepsFor(h.message, h.answer, plugins, h.steps, now)
    ensures forall t :: t in TimersFor(h.message, h.answer, plugins, now) ==> t.at > now && OnTimer(t.message)
    ensures forall k :: 0 <= k < |h.steps| ==> h.steps[k].now == now && !h.steps[k].act.Dispatch?
    ensures SentIn(h.steps) == 0
  {
    NothingSent(h.steps);
  }

  /** Handling messages sets timers in the future only, takes every step now, and dispatches nothing. */
  lemma {:induction false} LogFacts(log: seq<Handling>, plugins: PluginSet, now: Time)
    requires Logged(log, plugins, now)
    ensures forall t :: t in TimersOf(log, plugins, now) ==> t.at > now && OnTimer(t.message)
    ensures forall k :: 0 <= k < |StepsOf(log)| ==> StepsOf(log)[k].now == now && !StepsOf(log)[k].act.Dispatch?
    ensures SentIn(StepsOf(log)) == 0
  {
    if log != [] {
      var before, last := log[..|log| - 1], log[|log| - 1];
      LogPrefix(log, plugins, now);
      LogFacts(before, plugins, now);
      HandlingFacts(last, PluginsAfter(plugins, before), now);
      assert StepsOf(log) == StepsOf(before) + last.steps;
      SentInBoth(StepsOf(before), last.steps);
    }
  }

  /** Timers cause only triggers and retries. */
  lemma {:induction false} TimerLogFacts(log: seq<Handling>, plugins: PluginSet, now: Time)
    requires Logged(log, plugins, now) && forall j :: 0 <= j < |log| ==> OnTimer(log[j].message)
    ensures forall k :: 0 <= k < |StepsOf(log)| ==> StepsOf(log)[k].act.Trigger? || StepsOf(log)[k].act.Retry?
  {
    if log != [] {
      var n := |log| - 1;
      LogPrefix(log, plugins, now);
      TimerLogFacts(log[..n], plugins, now);
    }
  }

  // -- what is sent ------------------------------------------------------------------------------

  /** How many requests the steps dispatch. */
  function SentIn(steps: seq<Step>): nat {
    if steps == [] then 0
    else
      var last := steps[|steps| - 1].act;
      SentIn(steps[..|steps| - 1]) + if last.Dispatch? then |last.sent| else 0
  }

  lemma {:induction false} SentInBoth(a: seq<Step>, b: seq<Step>)
    ensures SentIn(a + b) == SentIn(a) + SentIn(b)
  {
    if b == [] {
      assert a + b == a;
    } else {
      var n := |b| - 1;
      assert (a + b)[..|a + b| - 1] == a + b[..n];
      SentInBoth(a, b[..n]);
    }
  }

  lemma {:induction false} NothingSent(steps: seq<Step>)
    requires forall k :: 0 <= k < |steps| ==> !steps[k].act.Dispatch?
    ensures SentIn(steps) == 0
  {
    if steps != [] { NothingSent(steps[..|steps| - 1]); }
  }

  // -- turns ---------------------------------------------------------------------------------------

  function IsDue(now: Time): Scheduled -> bool { (t: Scheduled) => t.at <= now }

  function IsLater(now: Time): Scheduled -> bool { (t: Scheduled) => t.at > now }

  /** The messages of the due timers, in order. */
  function DueMessages(timers: seq<Scheduled>, now: Time): seq<Message> {
    var due := Filter(timers, IsDue(now));
    seq(|due|, k requires 0 <= k < |due| => due[k].message)
  }

  /** Firing the due timers: each is handled, in order, the others stay, and what the handling sets is added. */
  ghost predicate Fires(plugins: PluginSet, timers: seq<Scheduled>, log: seq<Handling>,
                        timers': seq<Scheduled>, now: Time) {
    && MessagesOf(log) == DueMessages(timers, now) && Logged(log, plugins, now)
    && timers' == Filter(timers, IsLater(now)) + TimersOf(log, plugins, now)
  }

  /** No timer is lost: one in the future stays, and a due one is handled, leaving whatever its handling sets. */
  lemma NoTimerLost(plugins: PluginSet, timers: seq<Scheduled>, log: seq<Handling>, timers': seq<Scheduled>, now: Time,
                    t: Scheduled)
    requires Fires(plugins, timers, log, timers', now) && t in timers
    requires forall x :: x in timers ==> OnTimer(x.message)
    ensures t.at > now ==> t in timers'
    ensures t.at <= now ==>
              exists h :: h in log && h.message == t.message
                          && forall x :: x in TimersFor(h.message, h.answer, plugins, now) ==> x in timers'
  {
    FilterMember(timers, IsLater(now), t);
    FilterMember(timers, IsDue(now), t);
    if t.at <= now {
      var due := Filter(timers, IsDue(now));
      var k :| 0 <= k < |due| && due[k] == t;
      assert MessagesOf(log)[k] == DueMessages(timers, now)[k];
      FiredOnTimer(timers, log, now);
      LogKeepsTimers(log, plugins, now, k);
      assert log[k] in log;
    }
  }

  lemma FiredOnTimer(timers: seq<Scheduled>, log: seq<Handling>, now: Time)
    requires MessagesOf(log) == DueMessages(timers, now) && forall x :: x in timers ==> OnTimer(x.message)
    ensures forall j :: 0 <= j < |log| ==> OnTimer(log[j].message)
  {
    var due := Filter(timers, IsDue(now));
    forall j | 0 <= j < |log| ensures OnTimer(log[j].message) {
      assert MessagesOf(log)[j] == DueMessages(timers, now)[j];
      FilterMember(timers, IsDue(now), due[j]);
    }
  }

  lemma {:induction false} PluginsStay(log: seq<Handling>, plugins: PluginSet)
    requires forall j :: 0 <= j < |log| ==> OnTimer(log[j].message)
    ensures PluginsAfter(plugins, log) == plugins
  {
    if log != [] { PluginsStay(log[..|log| - 1], plugins); }
  }

  lemma {:induction false} TimersStay(log: seq<Handling>, plugins: PluginSet, now: Time, m: nat)
    requires m <= |log|
    ensures forall x :: x in TimersOf(log[..m], plugins, now) ==> x in TimersOf(log, plugins, now)
    decreases |log| - m
  {
    if m == |log| {
      assert log[..m] == log;
    } else {
      TimersStay(log, plugins, now, m + 1);
      assert log[..m + 1][..m] == log[..m];
    }
  }

  lemma LogKeepsTimers(log: seq<Handling>, plugins: PluginSet, now: Time, k: nat)
    requires k < |log| && forall j :: 0 <= j < |log| ==> OnTimer(log[j].message)
    ensures forall x :: x in TimersFor(log[k].message, log[k].answer, plugins, now) ==> x in TimersOf(log, plugins, now)
  {
    PluginsStay(log[..k], plugins);
    TimersStay(log, plugins, now, k + 1);
    assert log[..k + 1][..k] == log[..k];
  }

  /** The outputs with a result waiting in the queue. */
  function Reported(queue: seq<Message>): set<Name> {
    set m | m in queue && m.PushResult? :: m.instance
  }

  lemma ReportedGrows(queue: seq<Message>, m: Message)
    requires m.PushResult?
    ensures Reported(queue + [m]) == Reported(queue) + {m.instance}
  {
    var more := queue + [m];
    assert m in more;
    forall o | o in Reported(queue) ensures o in Reported(more) {
      var x :| x in queue && x.PushResult? && x.instance == o;
      assert x in more;
    }
    forall o | o in Reported(more) ensures o in Reported(queue) + {m.instance} {
      var x :| x in more && x.PushResult? && x.instance == o;
      assert x in queue || x == m;
    }
  }

  predicate ReportOf(q: Request, m: Message) {
    m.PushResult? && m.instance == q.output && m.value == q.update.state
  }

  /** The queue holds one result for each request, in order. */
  ghost predicate Reports(sent: seq<Request>, queue: seq<Message>) {
    |queue| == |sent| && forall k :: 0 <= k < |sent| ==> ReportOf(sent[k], queue[k])
  }

  /** What the loop works on: the plugins, the timers and the queue. */
  datatype View = View(plugins: PluginSet, timers: seq<Scheduled>, queue: seq<Message>)

  /** One round: the queue handled, the due timers fired, and the due pushes sent. */
  datatype Turn = Turn(handled: seq<Handling>, fired: seq<Handling>, sent: seq<Request>)

  function StepsOfTurn(t: Turn, now: Time): seq<Step> {
    StepsOf(t.handled) + StepsOf(t.fired) + [Step(Dispatch(t.sent), now)]
  }

  function StepsOfTurns(turns: seq<Turn>, now: Time): seq<Step> {
    if turns == [] then [] else StepsOfTurns(turns[..|turns| - 1], now) + StepsOfTurn(turns[|turns| - 1], now)
  }

  /** A round handles the whole queue in order, fires every due timer, and leaves the results of what it sent. */
  ghost predicate Turns(v: View, t: Turn, v': View, now: Time) {
    && MessagesOf(t.handled) == v.queue && Logged(t.handled, v.plugins, now)
    && v'.plugins == PluginsAfter(v.plugins, t.handled)
    && Fires(v'.plugins, v.timers + TimersOf(t.handled, v.plugins, now), t.fired, v'.timers, now)
    && Reports(t.sent, v'.queue)
  }

  /** The rounds of a drain, one after another. */
  ghost predicate Rounds(views: seq<View>, turns: seq<Turn>, now: Time) {
    |views| == |turns| + 1 && forall k :: 0 <= k < |turns| ==> Turns(views[k], turns[k], views[k + 1], now)
  }

  // -- steps of the loops --------------------------------------------------------------------------------

  /** The due timers of the list have been fired. */
  ghost predicate FiredSoFar(done: seq<Scheduled>, remaining: seq<Scheduled>, log: seq<Handling>, plugins: PluginSet,
                             timers: seq<Scheduled>, now: Time) {
    && |log| == |done| && (forall k :: 0 <= k < |done| ==> log[k].message == done[k].message)
    && Logged(log, plugins, now) && PluginsAfter(plugins, log) == plugins
    && timers == remaining + TimersOf(log, plugins, now)
  }

  lemma FiredOne(due: seq<Scheduled>, k: nat, remaining: seq<Scheduled>, log: seq<Handling>, h: Handling,
                 plugins: PluginSet, now: Time)
    requires k < |due| && FiredSoFar(due[..k], remaining, log, plugins, remaining + TimersOf(log, plugins, now), now)
    requires h.message == due[k].message && OnTimer(h.message)
    requires StepsFor(h.message, h.answer, plugins, h.steps, now)
    ensures StepsOf(log + [h]) == StepsOf(log) + h.steps
    ensures FiredSoFar(due[..k + 1], remaining, log + [h], plugins,
                       remaining + TimersOf(log, plugins, now) + TimersFor(h.message, h.answer, plugins, now), now)
  {
    var more, next := log + [h], due[..k + 1];
    LogGrows(log, h, plugins, now);
    ConcatAssociates(remaining, TimersOf(log, plugins, now), TimersFor(h.message, h.answer, plugins, now));
    forall j | 0 <= j < |next| ensures more[j].message == next[j].message {
      assert j < k ==> log[j].message == due[..k][j].message;
    }
  }

  /** One more timer fired, and where it leads. */
  lemma FiredOn(st: Settings, due: seq<Scheduled>, k: nat, remaining: seq<Scheduled>, log: seq<Handling>, h: Handling,
                plugins: PluginSet, before: seq<Scheduled>, after: seq<Scheduled>,
                s0: State, s: State, s': State, trace: seq<State>, more: seq<State>, now: Time)
    returns (log': seq<Handling>, trace': seq<State>)
    requires k < |due| && FiredSoFar(due[..k], remaining, log, plugins, before, now)
    requires h.message == due[k].message && OnTimer(h.message)
    requires StepsFor(h.message, h.answer, plugins, h.steps, now)
    requires after == before + TimersFor(h.message, h.answer, plugins, now)
    requires Leads(st, s0, s, trace, StepsOf(log)) && Leads(st, s, s', more, h.steps)
    ensures FiredSoFar(due[..k + 1], remaining, log', plugins, after, now)
    ensures Leads(st, s0, s', trace', StepsOf(log'))
  {
    FiredOne(due, k, remaining, log, h, plugins, now);
    LeadsOn(st, s0, s, s', trace, StepsOf(log), more, h.steps);
    log', trace' := log + [h], trace + more[1..];
  }

  /** The messages of the log were at the head of the queue and have been handled. */
  ghost predicate HandledSoFar(v: View, log: seq<Handling>, v': View, now: Time) {
    && v.queue == MessagesOf(log) + v'.queue && Logged(log, v.plugins, now)
    && v'.plugins == PluginsAfter(v.plugins, log)
    && v'.timers == v.timers + TimersOf(log, v.plugins, now)
  }

  lemma HandledOne(v: View, log: seq<Handling>, w: View, h: Handling, w': View, now: Time)
    requires HandledSoFar(v, log, w, now) && w.queue == [h.message] + w'.queue
    requires StepsFor(h.message, h.answer, w.plugins, h.steps, now)
    requires w'.plugins == PluginsNext(w.plugins, h.message)
    requires w'.timers == w.timers + TimersFor(h.message, h.answer, w.plugins, now)
    ensures HandledSoFar(v, log + [h], w', now) && StepsOf(log + [h]) == StepsOf(log) + h.steps
  {
    LogGrows(log, h, v.plugins, now);
    ConcatAssociates(MessagesOf(log), [h.message], w'.queue);
    ConcatAssociates(v.timers, TimersOf(log, v.plugins, now), TimersFor(h.message, h.answer, w.plugins, now));
  }

  /** Without a due timer nothing fires. */
  lemma NoneFired(plugins: PluginSet, timers: seq<Scheduled>, log: seq<Handling>, timers': seq<Scheduled>, now: Time)
    requires Fires(plugins, timers, log, timers', now) && forall t :: t in timers ==> t.at > now
    ensures log == [] && StepsOf(log) == []
  {
    var due := Filter(timers, IsDue(now));
    if due != [] { FilterMember(timers, IsDue(now), due[0]); }
    assert |MessagesOf(log)| == 0;
  }

  /** A round leaves only timers in the future, and one message for each request it sent. */
  lemma TurnFacts(v: View, t: Turn, v': View, now: Time)
    requires Turns(v, t, v', now)
    ensures forall x :: x in v'.timers ==> x.at > now
    ensures SentIn(StepsOfTurn(t, now)) == |t.sent| == |v'.queue|
  {
    LogFacts(t.handled, v.plugins, now);
    LogFacts(t.fired, v'.plugins, now);
    var all := v.timers + TimersOf(t.handled, v.plugins, now);
    forall x | x in v'.timers ensures x.at > now {
      FilterMember(all, IsLater(now), x);
    }
    var last := [Step(Dispatch(t.sent), now)];
    SentInBoth(StepsOf(t.handled), StepsOf(t.fired));
    SentInBoth(StepsOf(t.handled) + StepsOf(t.fired), last);
    assert last[..0] == [];
  }

  lemma TurnSteps(t: Turn, now: Time)
    ensures StepsOfTurn(t, now) == StepsOf(t.handled) + (StepsOf(t.fired) + [Step(Dispatch(t.sent), now)])
  {
  }

  lemma RoundsGrow(views: seq<View>, turns: seq<Turn>, t: Turn, v: View, now: Time)
    requires Rounds(views, turns, now) && Turns(views[|turns|], t, v, now)
    ensures Rounds(views + [v], turns + [t], now)
  {
    var more, all := views + [v], turns + [t];
    forall k | 0 <= k < |all| ensures Turns(more[k], all[k], more[k + 1], now) {
      assert k < |turns| ==> Turns(views[k], turns[k], views[k + 1], now);
    }
  }

  lemma TurnsGrow(turns: seq<Turn>, t: Turn, now: Time)
    ensures StepsOfTurns(turns + [t], now) == StepsOfTurns(turns, now) + StepsOfTurn(t, now)
    ensures SentIn(StepsOfTurns(turns + [t], now)) == SentIn(StepsOfTurns(turns, now)) + SentIn(StepsOfTurn(t, now))
  {
    assert (turns + [t])[..|turns|] == turns;
    SentInBoth(StepsOfTurns(turns, now), StepsOfTurn(t, now));
  }

  /** The rounds lead from one state and view to another. */
  ghost predicate Drained(st: Settings, s0: State, v0: View, views: seq<View>, turns: seq<Turn>, trace: seq<State>,
                          s: State, v: View, now: Time) {
    && Rounds(views, turns, now) && views[0] == v0 && views[|turns|] == v
    && Leads(st, s0, s, trace, StepsOfTurns(turns, now))
  }

  /** One more round. */
  lemma DrainedOn(st: Settings, s0: State, v0: View, views: seq<View>, turns: seq<Turn>, trace: seq<State>,
                  s: State, v: View, turn: Turn, more: seq<State>, s': State, v': View, now: Time)
    returns (views': seq<View>, turns': seq<Turn>, trace': seq<State>)
    requires Drained(st, s0, v0, views, turns, trace, s, v, now)
    requires Turns(v, turn, v', now) && Leads(st, s, s', more, StepsOfTurn(turn, now))
    ensures Drained(st, s0, v0, views', turns', trace', s', v', now) && |turns'| == |turns| + 1
    ensures SentIn(StepsOfTurns(turns', now)) == SentIn(StepsOfTurns(turns, now)) + SentIn(StepsOfTurn(turn, now))
  {
    views', turns', trace' := views + [v'], turns + [turn], trace + more[1..];
    LeadsOn(st, s0, s, s', trace, StepsOfTurns(turns, now), more, StepsOfTurn(turn, now));
    RoundsGrow(views, turns, turn, v', now);
    TurnsGrow(turns, turn, now);
  }

  // -- convergence -----------------------------------------------------------------------------------

  /** Every step happens at this moment, and every result among them is a success. */
  ghost predicate AllSucceed(steps: seq<Step>, now: Time) {
    forall k :: 0 <= k < |steps| ==> steps[k].now == now && (steps[k].act.Result? ==> steps[k].act.ok)
  }

  ghost predicate AllDue(s: State, now: Time) {
    forall o :: o in s.pending ==> s.pending[o].due <= now
  }

  /** Without failures a step puts no row off. */
  lemma StepPutsOffNothing(st: Settings, s: State, s': State, l: Label, now: Time)
    requires Next(st, s, s', l, now) && (l.Result? ==> l.ok) && AllDue(s, now)
    ensures AllDue(s', now)
  {
    forall o | o in s'.pending ensures s'.pending[o].due <= now {
      assert Get(s'.pending, o) == RowAfter(st, s, s', l, now, o);
    }
  }

  /** Table agreement is kept along a path. */
  lemma {:induction false} PathKeepsAgreement(st: Settings, trace: seq<State>, steps: seq<Step>)
    requires Path(st, trace, steps) && WellIndexed(trace[0].graph) && TableAgreement(trace[0])
    ensures WellIndexed(trace[|steps|].graph) && TableAgreement(trace[|steps|])
  {
    if steps != [] {
      var n := |steps| - 1;
      PathPrefix(st, trace, steps);
      PathKeepsAgreement(st, trace[..n + 1], steps[..n]);
      TableAgreementKept(st, trace[n], trace[n + 1], steps[n].act, steps[n].now);
    }
  }

  /** Having only due rows is kept along a path without failures. */
  lemma {:induction false} PathPutsOffNothing(st: Settings, trace: seq<State>, steps: seq<Step>, now: Time)
    requires Path(st, trace, steps) && AllSucceed(steps, now) && AllDue(trace[0], now)
    ensures AllDue(trace[|steps|], now)
  {
    if steps != [] {
      var n := |steps| - 1;
      PathPrefix(st, trace, steps);
      PathPutsOffNothing(st, trace[..n + 1], steps[..n], now);
      StepPutsOffNothing(st, trace[n], trace[n + 1], steps[n].act, now);
    }
  }

  /** No row is left, and every live output of the graph has its desired state applied. */
  ghost predicate AllApplied(s: State) {
    s.pending == map[] && forall o :: o in s.graph.byOutput && o in s.live ==> Applied(s, o) == Some(Desired(s, o))
  }

  /** Convergence: from agreeing tables with every row due, a path of successes that leaves nothing due leaves no row at
      all, and every live output of the graph has its desired state applied. */
  lemma SettledPathConverges(st: Settings, s: State, s': State, trace: seq<State>, steps: seq<Step>, now: Time)
    requires Leads(st, s, s', trace, steps) && AllSucceed(steps, now)
    requires WellIndexed(s.graph) && TableAgreement(s) && AllDue(s, now)
    requires forall o :: o in s'.pending ==> s'.pending[o].due > now
    ensures AllApplied(s')
  {
    PathKeepsAgreement(st, trace, steps);
    PathPutsOffNothing(st, trace, steps, now);
    assert s'.pending.Keys == {};
    forall o | o in s'.graph.byOutput && o in s'.live ensures Applied(s', o) == Some(Desired(s', o)) {
      assert Agreed(s', o);
    }
  }

  lemma DrainKeepsAgreement(st: Settings, s: State, s': State, trace: seq<State>, steps: seq<Step>)
    requires Leads(st, s, s', trace, steps) && WellIndexed(s.graph)
    ensures TableAgreement(s) ==> TableAgreement(s')
  {
    if TableAgreement(s) { PathKeepsAgreement(st, trace, steps); }
  }

  lemma DrainConverges(st: Settings, s: State, s': State, trace: seq<State>, steps: seq<Step>, now: Time)
    requires Leads(st, s, s', trace, steps) && WellIndexed(s.graph)
    requires forall o :: o in s'.pending ==> s'.pending[o].due > now
    ensures TableAgreement(s) && AllDue(s, now) && AllSucceed(steps, now) ==> AllApplied(s')
  {
    if TableAgreement(s) && AllDue(s, now) && AllSucceed(steps, now) {
      SettledPathConverges(st, s, s', trace, steps, now);
    }
  }
}
