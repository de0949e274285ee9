/** How one latch is settled from what was persisted, observed and reported
    (src/noti_mapper/reconcile.py). */
module Reconcile {
  import opened Base
  import opened Records

  datatype Outcome = Outcome(state: bool, setAt: Option<Time>, clearedAt: Option<Time>)

  // -- what the reports say, independent of their order ------------------------

  ghost predicate SomeCleared(reports: seq<RemoteState>) {
    exists r :: r in reports && r.belief.Cleared?
  }

  /** t is the time of a dated clear among the reports. */
  ghost predicate ClearedAt(reports: seq<RemoteState>, t: Time) {
    RemoteState(Cleared, Some(t)) in reports
  }

  // -- the specification ---------------------------------------------------------

  /** The latest of a list of times. */
  function MaxTime(times: seq<Time>): Option<Time> {
    if times == [] then None else Some(Later(MaxTime(times[..|times| - 1]), times[|times| - 1]))
  }

  lemma {:induction false} MaxTimeIsLatest(times: seq<Time>)
    ensures MaxTime(times).None? <==> times == []
    ensures times != [] ==> MaxTime(times).value in times && forall t :: t in times ==> t <= MaxTime(times).value
  {
    if times != [] {
      var n := |times| - 1;
      assert times == times[..n] + [times[n]];
      MaxTimeIsLatest(times[..n]);
    }
  }

  function Later(first: Option<Time>, second: Time): Time {
    if first.None? || second > first.value then second else first.value
  }

  /** The dated clears, in report order. */
  function ClearTimes(reports: seq<RemoteState>): seq<Time> {
    if reports == [] then []
    else ClearTimes(reports[..|reports| - 1]) + DatedClear(reports[|reports| - 1])
  }

  /** The time of the report, if it is a dated clear. */
  function DatedClear(r: RemoteState): seq<Time> {
    if r.belief.Cleared? && r.clearedAt.Some? then [r.clearedAt.value] else []
  }

  lemma {:induction false} ClearTimesAre(reports: seq<RemoteState>, t: Time)
    ensures t in ClearTimes(reports) <==> ClearedAt(reports, t)
  {
    if reports != [] {
      var n := |reports| - 1;
      assert reports == reports[..n] + [reports[n]];
      ClearTimesAre(reports[..n], t);
    }
  }

  /** The outcome for one rule, given the latest downtime event and whether and when a clear was reported. */
  function Decide(now: Time, persisted: Latch, event: Option<Time>, cleared: bool, clearTime: Option<Time>): Outcome {
    if cleared then
      if event.Some? && (clearTime.None? || event.value > clearTime.value) then
        Outcome(true, event, if clearTime.Some? then clearTime else persisted.clearedAt)
      else
        Outcome(false, persisted.setAt, if clearTime.Some? then clearTime else Some(now))
    else if event.Some? then
      Outcome(true, if persisted.state then Some(Later(persisted.setAt, event.value)) else event, persisted.clearedAt)
    else
      Outcome(persisted.state, persisted.setAt, persisted.clearedAt)
  }

  ghost function Resolve(now: Time, persisted: Latch, event: Option<Time>, reports: seq<RemoteState>): Outcome {
    Decide(now, persisted, event, SomeCleared(reports), MaxTime(ClearTimes(reports)))
  }

  // -- the code ------------------------------------------------------------------

  /** The CLEARED reports, and whether any output reports ACTIVE. */
  method SiftReports(reports: seq<RemoteState>) returns (clearedReports: seq<RemoteState>, activeReported: bool)
    ensures clearedReports != [] <==> SomeCleared(reports)
    ensures ClearTimes(clearedReports) == ClearTimes(reports)
    ensures forall r :: r in clearedReports ==> r.belief.Cleared?
    ensures activeReported <==> exists r :: r in reports && r.belief.Active?
  {
    clearedReports, activeReported := [], false;
    for i := 0 to |reports|
      invariant clearedReports != [] <==> SomeCleared(reports[..i])
      invariant ClearTimes(clearedReports) == ClearTimes(reports[..i])
      invariant forall r :: r in clearedReports ==> r.belief.Cleared?
      invariant activeReported <==> exists r :: r in reports[..i] && r.belief.Active?
    {
      SiftOne(reports, i, clearedReports);
      if reports[i].belief.Cleared? {
        clearedReports := clearedReports + [reports[i]];
      } else if reports[i].belief.Active? {
        activeReported := true;
      }
    }
    assert reports[..|reports|] == reports;
  }

  /** One more report: it counts as a clear or as active, or not at all. */
  lemma SiftOne(reports: seq<RemoteState>, i: nat, sifted: seq<RemoteState>)
    requires i < |reports|
    ensures SomeCleared(reports[..i + 1]) <==> SomeCleared(reports[..i]) || reports[i].belief.Cleared?
    ensures (exists r :: r in reports[..i + 1] && r.belief.Active?) <==>
            (exists r :: r in reports[..i] && r.belief.Active?) || reports[i].belief.Active?
    ensures ClearTimes(reports[..i + 1]) == ClearTimes(reports[..i]) + DatedClear(reports[i])
    ensures ClearTimes(sifted + [reports[i]]) == ClearTimes(sifted) + DatedClear(reports[i])
  {
    assert reports[..i + 1] == reports[..i] + [reports[i]];
    assert reports[i] in reports[..i + 1];
    assert reports[..i + 1][..i] == reports[..i];
    assert (sifted + [reports[i]])[..|sifted|] == sifted;
  }

  method ResolveRule(now: Time, persisted: Latch, event: Option<Time>, reports: seq<RemoteState>)
    returns (outcome: Outcome)
    ensures outcome == Resolve(now, persisted, event, reports)
  {
    var clearedReports, activeReported := SiftReports(reports);
    if clearedReports != [] {
      outcome := ResolveWithClear(now, persisted, event, clearedReports);
      return;
    }
    if event.Some? {
      if persisted.state {
        return Outcome(true, Some(Later(persisted.setAt, event.value)), persisted.clearedAt);
      }
      return Outcome(true, event, persisted.clearedAt);
    }
    if activeReported && persisted.state {
      return Outcome(true, persisted.setAt, persisted.clearedAt);
    }
    if activeReported && !persisted.state {
      return Outcome(false, persisted.setAt, persisted.clearedAt);
    }
    return Outcome(persisted.state, persisted.setAt, persisted.clearedAt);
  }

  method ResolveWithClear(now: Time, persisted: Latch, event: Option<Time>, clearedReports: seq<RemoteState>)
    returns (outcome: Outcome)
    requires forall r :: r in clearedReports ==> r.belief.Cleared?
    ensures outcome == Decide(now, persisted, event, true, MaxTime(ClearTimes(clearedReports)))
  {
    var known: seq<Time> := [];
    for i := 0 to |clearedReports|
      invariant known == ClearTimes(clearedReports[..i])
    {
      assert clearedReports[..i + 1][..i] == clearedReports[..i];
      if clearedReports[i].clearedAt.Some? {
        known := known + [clearedReports[i].clearedAt.value];
      }
    }
    assert clearedReports[..|clearedReports|] == clearedReports;
    var clearTime := MaxTime(known);
    var eventIsNewer := event.Some? && (clearTime.None? || event.value > clearTime.value);
    if eventIsNewer {
      return Outcome(true, event, if clearTime.Some? then clearTime else persisted.clearedAt);
    }
    return Outcome(false, persisted.setAt, if clearTime.Some? then clearTime else Some(now));
  }

  // -- what the resolution means ---------------------------------------------------

  lemma SameTimesSameLatest(a: seq<Time>, b: seq<Time>)
    requires forall t :: t in a <==> t in b
    ensures MaxTime(a) == MaxTime(b)
  {
    MaxTimeIsLatest(a);
    MaxTimeIsLatest(b);
    if a != [] { assert MaxTime(a).value in a; }
    if b != [] { assert MaxTime(b).value in b; }
  }

  /** Whether the latch is set, said without any order on the reports: a clear beats everything except a strictly
      later event, an undated clear loses to any event, and without a clear an event or the persisted state sets it. */
  lemma ResolvedState(now: Time, persisted: Latch, event: Option<Time>, reports: seq<RemoteState>)
    ensures SomeCleared(reports) ==>
              (Resolve(now, persisted, event, reports).state <==>
               event.Some? && forall t :: ClearedAt(reports, t) ==> t < event.value)
    ensures !SomeCleared(reports) ==>
              (Resolve(now, persisted, event, reports).state <==> persisted.state || event.Some?)
  {
    var times := ClearTimes(reports);
    forall t ensures t in times <==> ClearedAt(reports, t) { ClearTimesAre(reports, t); }
    MaxTimeIsLatest(times);
    if times != [] { assert ClearedAt(reports, MaxTime(times).value); }
  }

  /** t is the time of the latest dated clear among the reports. */
  ghost predicate LatestClear(reports: seq<RemoteState>, t: Time) {
    ClearedAt(reports, t) && forall u :: ClearedAt(reports, u) ==> u <= t
  }

  ghost predicate NoDatedClear(reports: seq<RemoteState>) {
    forall t :: !ClearedAt(reports, t)
  }

  lemma LatestClearIs(reports: seq<RemoteState>)
    ensures NoDatedClear(reports) <==> MaxTime(ClearTimes(reports)).None?
    ensures forall t :: LatestClear(reports, t) <==> MaxTime(ClearTimes(reports)) == Some(t)
  {
    var times := ClearTimes(reports);
    forall t ensures t in times <==> ClearedAt(reports, t) { ClearTimesAre(reports, t); }
    MaxTimeIsLatest(times);
    if times == [] {
      assert NoDatedClear(reports);
    } else {
      var m := MaxTime(times).value;
      assert LatestClear(reports, m);
      forall t ensures LatestClear(reports, t) <==> t == m {
        if LatestClear(reports, t) { assert t <= m && m <= t; }
      }
    }
  }

  /** When the latch was last set and cleared, said without any order on the reports. A clear that wins dates the clear,
      with now for want of a date, and keeps set_at; an event that beats a clear dates the setting, and the clear as far
      as it is dated; without a clear cleared_at is kept, and an event moves set_at forward only. */
  lemma ResolvedTimes(now: Time, persisted: Latch, event: Option<Time>, reports: seq<RemoteState>)
    ensures NoDatedClear(reports) || exists t :: LatestClear(reports, t)
    ensures
      var r := Resolve(now, persisted, event, reports);
      && (SomeCleared(reports) && !r.state ==>
            && r.setAt == persisted.setAt
            && (forall t :: LatestClear(reports, t) ==> r.clearedAt == Some(t))
            && (NoDatedClear(reports) ==> r.clearedAt == Some(now)))
      && (SomeCleared(reports) && r.state ==>
            && r.setAt == event
            && (forall t :: LatestClear(reports, t) ==> r.clearedAt == Some(t))
            && (NoDatedClear(reports) ==> r.clearedAt == persisted.clearedAt))
      && (!SomeCleared(reports) ==>
            && r.clearedAt == persisted.clearedAt
            && (event.None? ==> r.setAt == persisted.setAt)
            && (event.Some? && !persisted.state ==> r.setAt == event)
            && (event.Some? && persisted.state ==>
                  r.setAt == if persisted.setAt.Some? && event.value <= persisted.setAt.value then persisted.setAt
                             else event))
  {
    LatestClearIs(reports);
    var latest := MaxTime(ClearTimes(reports));
    if latest.Some? { assert LatestClear(reports, latest.value); }
  }

  /** Only the set of CLEARED reports matters: permuting or repeating reports, and adding or removing
      ACTIVE or UNKNOWN ones, changes nothing. */
  lemma OrderInsensitive(now: Time, persisted: Latch, event: Option<Time>, a: seq<RemoteState>, b: seq<RemoteState>)
    requires forall r: RemoteState :: r.belief.Cleared? ==> (r in a <==> r in b)
    ensures Resolve(now, persisted, event, a) == Resolve(now, persisted, event, b)
  {
    if r :| r in a && r.belief.Cleared? { assert r in b; }
    if r :| r in b && r.belief.Cleared? { assert r in a; }
    forall t ensures t in ClearTimes(a) <==> t in ClearTimes(b) {
      ClearTimesAre(a, t);
      ClearTimesAre(b, t);
    }
    SameTimesSameLatest(ClearTimes(a), ClearTimes(b));
  }

  /** A later event never turns set into clear. */
  lemma LaterEventKeepsSet(now: Time, persisted: Latch, e: Option<Time>, later: Time, reports: seq<RemoteState>)
    requires e.Some? ==> e.value <= later
    requires Resolve(now, persisted, e, reports).state
    ensures Resolve(now, persisted, Some(later), reports).state
  {
    ResolvedState(now, persisted, e, reports);
    ResolvedState(now, persisted, Some(later), reports);
  }

  /** A further clear never turns clear into set, whenever it is dated. */
  lemma FurtherClearKeepsClear(now: Time, persisted: Latch, event: Option<Time>,
                               reports: seq<RemoteState>, extra: RemoteState)
    requires extra.belief.Cleared?
    requires !Resolve(now, persisted, event, reports).state
    ensures !Resolve(now, persisted, event, reports + [extra]).state
  {
    ResolvedState(now, persisted, event, reports);
    ResolvedState(now, persisted, event, reports + [extra]);
    assert extra in reports + [extra];
    if SomeCleared(reports) && event.Some? {
      var t :| ClearedAt(reports, t) && event.value <= t;
      assert ClearedAt(reports + [extra], t);
    }
  }
}
