/** What startup reconciliation decides for every rule, over all of its inputs and outputs
    (Engine.reconcile of src/noti_mapper/engine.py with src/noti_mapper/reconcile.py). */
module Startup {
  import opened Base
  import opened Rules
  import opened Records
  import opened Reconcile
  import opened Core

  /** Some input of the rule observed an event at t while the daemon was down. */
  ghost predicate DowntimeEvent(downtime: map<Name, seq<Event>>, inputs: seq<Name>, t: Time) {
    exists i, e :: i in inputs && i in downtime && e in downtime[i] && e.occurredAt == t
  }

  /** Some output of the rule reports that it was cleared. */
  ghost predicate ReportsClear(reports: map<Name, RemoteState>, outputs: seq<Name>) {
    exists o :: o in outputs && o in reports && reports[o].belief.Cleared?
  }

  /** Some output of the rule reports that it was cleared at t. */
  ghost predicate ReportsClearAt(reports: map<Name, RemoteState>, outputs: seq<Name>, t: Time) {
    exists o :: o in outputs && o in reports && reports[o] == RemoteState(Cleared, Some(t))
  }

  lemma {:induction false} DowntimeTimesAre(downtime: map<Name, seq<Event>>, inputs: seq<Name>, t: Time)
    ensures t in DowntimeTimes(downtime, inputs) <==> DowntimeEvent(downtime, inputs, t)
  {
    if inputs != [] {
      var n := |inputs| - 1;
      var last := inputs[n];
      assert inputs == inputs[..n] + [last];
      DowntimeTimesAre(downtime, inputs[..n], t);
      if last in downtime {
        TimesAre(downtime[last], t);
      }
    }
  }

  lemma TimesAre(events: seq<Event>, t: Time)
    ensures t in Times(events) <==> exists e :: e in events && e.occurredAt == t
  {
    if t in Times(events) {
      var k :| 0 <= k < |events| && Times(events)[k] == t;
      assert events[k] in events;
    }
    if e :| e in events && e.occurredAt == t {
      var k :| 0 <= k < |events| && events[k] == e;
      assert Times(events)[k] == t;
    }
  }

  lemma {:induction false} ReportsAre(reports: map<Name, RemoteState>, outputs: seq<Name>, r: RemoteState)
    ensures r in ReportsFor(reports, outputs) <==> exists o :: o in outputs && o in reports && reports[o] == r
  {
    if outputs != [] {
      var n := |outputs| - 1;
      assert outputs == outputs[..n] + [outputs[n]];
      ReportsAre(reports, outputs[..n], r);
    }
  }

  /** After startup a rule that some output reports cleared is set exactly when one of its inputs observed an event
      later than every dated clear; any other rule is set exactly when it was persisted set or an event was observed. */
  lemma StartupDecides(st: Settings, s: State, s': State, downtime: map<Name, seq<Event>>,
                       reports: map<Name, RemoteState>, now: Time, n: Name)
    requires Next(st, s, s', Label.Startup(downtime, reports), now) && n in s.graph.rules
    ensures
      var rule := s.graph.rules[n];
      LatchIn(s'.cache, n).state <==>
      if ReportsClear(reports, rule.outputs) then
        exists t :: DowntimeEvent(downtime, rule.inputs, t)
                    && forall c :: ReportsClearAt(reports, rule.outputs, c) ==> c < t
      else LatchIn(s.cache, n).state || exists t :: DowntimeEvent(downtime, rule.inputs, t)
  {
    var rule := s.graph.rules[n];
    var times, heard := DowntimeTimes(downtime, rule.inputs), ReportsFor(reports, rule.outputs);
    var l := LatchIn(s.cache, n);
    assert LatchIn(s'.cache, n) == LatchAfter(s, Label.Startup(downtime, reports), now, n);
    ResolvedState(now, l, MaxTime(times), heard);
    MaxTimeIsLatest(times);
    forall t ensures t in times <==> DowntimeEvent(downtime, rule.inputs, t) {
      DowntimeTimesAre(downtime, rule.inputs, t);
    }
    forall c ensures ClearedAt(heard, c) <==> ReportsClearAt(reports, rule.outputs, c) {
      ReportsAre(reports, rule.outputs, RemoteState(Cleared, Some(c)));
    }
    forall r ensures r in heard <==> exists o :: o in rule.outputs && o in reports && reports[o] == r {
      ReportsAre(reports, rule.outputs, r);
    }
    assert SomeCleared(heard) <==> ReportsClear(reports, rule.outputs);
  }

  /** t is the time of the latest event the inputs observed. */
  ghost predicate LatestEvent(downtime: map<Name, seq<Event>>, inputs: seq<Name>, t: Time) {
    DowntimeEvent(downtime, inputs, t) && forall u :: DowntimeEvent(downtime, inputs, u) ==> u <= t
  }

  /** t is the time of the latest clear that the outputs date. */
  ghost predicate LatestReportedClear(reports: map<Name, RemoteState>, outputs: seq<Name>, t: Time) {
    ReportsClearAt(reports, outputs, t) && forall u :: ReportsClearAt(reports, outputs, u) ==> u <= t
  }

  lemma StartupHears(downtime: map<Name, seq<Event>>, reports: map<Name, RemoteState>, rule: Rule)
    ensures
      var times, heard := DowntimeTimes(downtime, rule.inputs), ReportsFor(reports, rule.outputs);
      && (SomeCleared(heard) <==> ReportsClear(reports, rule.outputs))
      && (forall t :: LatestClear(heard, t) <==> LatestReportedClear(reports, rule.outputs, t))
      && (NoDatedClear(heard) <==> forall t :: !ReportsClearAt(reports, rule.outputs, t))
      && (forall t :: MaxTime(times) == Some(t) <==> LatestEvent(downtime, rule.inputs, t))
      && (MaxTime(times).None? <==> forall t :: !DowntimeEvent(downtime, rule.inputs, t))
  {
    var times, heard := DowntimeTimes(downtime, rule.inputs), ReportsFor(reports, rule.outputs);
    MaxTimeIsLatest(times);
    forall t ensures t in times <==> DowntimeEvent(downtime, rule.inputs, t) {
      DowntimeTimesAre(downtime, rule.inputs, t);
    }
    if times != [] { assert DowntimeEvent(downtime, rule.inputs, MaxTime(times).value); }
    forall c ensures ClearedAt(heard, c) <==> ReportsClearAt(reports, rule.outputs, c) {
      ReportsAre(reports, rule.outputs, RemoteState(Cleared, Some(c)));
    }
    forall r ensures r in heard <==> exists o :: o in rule.outputs && o in reports && reports[o] == r {
      ReportsAre(reports, rule.outputs, r);
    }
  }

  /** What startup makes of the times of a rule that some output reports cleared. */
  lemma StartupTimesCleared(st: Settings, s: State, s': State, downtime: map<Name, seq<Event>>,
                            reports: map<Name, RemoteState>, now: Time, n: Name)
    requires Next(st, s, s', Label.Startup(downtime, reports), now) && n in s.graph.rules
    requires ReportsClear(reports, s.graph.rules[n].outputs)
    ensures
      var rule, l, l' := s.graph.rules[n], LatchIn(s.cache, n), LatchIn(s'.cache, n);
      && (forall t :: LatestReportedClear(reports, rule.outputs, t) ==> l'.clearedAt == Some(t))
      && ((forall t :: !ReportsClearAt(reports, rule.outputs, t)) ==>
            l'.clearedAt == if l'.state then l.clearedAt else Some(now))
      && (!l'.state ==> l'.setAt == l.setAt)
      && (l'.state ==> forall t :: LatestEvent(downtime, rule.inputs, t) ==> l'.setAt == Some(t))
  {
    var rule, l := s.graph.rules[n], LatchIn(s.cache, n);
    assert LatchIn(s'.cache, n) == LatchAfter(s, Label.Startup(downtime, reports), now, n);
    StartupHears(downtime, reports, rule);
    ResolvedTimes(now, l, MaxTime(DowntimeTimes(downtime, rule.inputs)), ReportsFor(reports, rule.outputs));
  }

  /** And of any other rule: cleared_at is kept, and set_at moves forward to the latest event, if there is one. */
  lemma StartupTimesUncleared(st: Settings, s: State, s': State, downtime: map<Name, seq<Event>>,
                              reports: map<Name, RemoteState>, now: Time, n: Name)
    requires Next(st, s, s', Label.Startup(downtime, reports), now) && n in s.graph.rules
    requires !ReportsClear(reports, s.graph.rules[n].outputs)
    ensures
      var rule, l, l' := s.graph.rules[n], LatchIn(s.cache, n), LatchIn(s'.cache, n);
      && l'.clearedAt == l.clearedAt
      && ((forall t :: !DowntimeEvent(downtime, rule.inputs, t)) ==> l'.setAt == l.setAt)
      && (forall t :: LatestEvent(downtime, rule.inputs, t) ==>
            l'.setAt == if l.state && l.setAt.Some? && t <= l.setAt.value then l.setAt else Some(t))
  {
    var rule, l := s.graph.rules[n], LatchIn(s.cache, n);
    assert LatchIn(s'.cache, n) == LatchAfter(s, Label.Startup(downtime, reports), now, n);
    StartupHears(downtime, reports, rule);
    ResolvedTimes(now, l, MaxTime(DowntimeTimes(downtime, rule.inputs)), ReportsFor(reports, rule.outputs));
  }

  /** The cause and the detail are kept, and a rule outside the graph is untouched. */
  lemma StartupKeeps(st: Settings, s: State, s': State, downtime: map<Name, seq<Event>>,
                     reports: map<Name, RemoteState>, now: Time, n: Name)
    requires Next(st, s, s', Label.Startup(downtime, reports), now)
    ensures LatchIn(s'.cache, n).lastCause == LatchIn(s.cache, n).lastCause
    ensures LatchIn(s'.cache, n).lastDetail == LatchIn(s.cache, n).lastDetail
    ensures n !in s.graph.rules ==> LatchIn(s'.cache, n) == LatchIn(s.cache, n)
  {
    assert LatchIn(s'.cache, n) == LatchAfter(s, Label.Startup(downtime, reports), now, n);
  }
}
