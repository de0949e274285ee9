/** The file watcher's debounce and its memory of what it has reported (plugins/file_input/__init__.py).
    What a poll observes, the clock and the fingerprint of an observation are parameters. */
module FileInput {
  import opened Base

  datatype Path = Path(text: string)

  /** A path as a poll saw it; the path is its key. */
  datatype Observation = Observation(modifiedAt: Time, size: nat)

  datatype Watching = Watching(debounce: Time, emitOnModify: bool, fingerprint: Observation -> string)

  datatype Wait = Wait(seen: Observation, since: Time)

  /** All that is known of one path: the observation held back, if any, and the fingerprint last reported, if any. */
  datatype Spot = Spot(waiting: Option<Wait>, reported: Option<string>)

  predicate IsNew(w: Watching, reported: Option<string>, x: Observation) {
    reported.None? || (w.emitOnModify && reported.value != w.fingerprint(x))
  }

  /** The poll fires for the path: the same new observation has been held back for the debounce time. */
  predicate Fires(w: Watching, s: Spot, now: Time, x: Option<Observation>) {
    && x.Some? && IsNew(w, s.reported, x.value)
    && s.waiting.Some? && s.waiting.value.seen == x.value && now - s.waiting.value.since >= w.debounce
  }

  function AfterPoll(w: Watching, s: Spot, now: Time, x: Option<Observation>): Spot {
    if x.None? || !IsNew(w, s.reported, x.value) then s.(waiting := None)
    else if s.waiting.None? || s.waiting.value.seen != x.value then s.(waiting := Some(Wait(x.value, now)))
    else if now - s.waiting.value.since < w.debounce then s
    else Spot(None, Some(w.fingerprint(x.value)))
  }

  /** Catching up reports a new observation unless it predates the last run. */
  predicate CatchesUp(w: Watching, s: Spot, since: Option<Time>, x: Option<Observation>) {
    x.Some? && IsNew(w, s.reported, x.value) && (since.None? || x.value.modifiedAt >= since.value)
  }

  /** Catching up remembers a new observation whether or not it reports it. */
  function AfterCatchUp(w: Watching, s: Spot, x: Option<Observation>): Spot {
    if x.Some? && IsNew(w, s.reported, x.value) then s.(reported := Some(w.fingerprint(x.value))) else s
  }

  class FileWatcher {
    const watching: Watching
    var pending: map<Path, Observation>
    var quietSince: map<Path, Time>
    var seen: map<Path, string>

    /** A path is held back with a time or not at all. */
    predicate Valid()
      reads this
    {
      pending.Keys == quietSince.Keys
    }

    ghost function SpotOf(p: Path): Spot
      reads this
      requires Valid()
    {
      Spot(if p in pending then Some(Wait(pending[p], quietSince[p])) else None, Get(seen, p))
    }

    constructor (watching: Watching, seen: map<Path, string>)
      ensures Valid() && this.watching == watching && this.seen == seen && pending == map[]
    {
      this.watching, this.seen := watching, seen;
      pending, quietSince := map[], map[];
    }

    method ForgetPending(p: Path)
      requires Valid()
      modifies this`pending, this`quietSince
      ensures Valid()
      ensures pending == old(pending) - {p} && quietSince == old(quietSince) - {p}
    {
      pending, quietSince := pending - {p}, quietSince - {p};
    }

    /** One path of a poll. */
    method PollPath(p: Path, x: Observation, now: Time) returns (fired: bool)
      requires Valid()
      modifies this`pending, this`quietSince, this`seen
      ensures Valid()
      ensures fired == Fires(watching, old(SpotOf(p)), now, Some(x))
      ensures SpotOf(p) == AfterPoll(watching, old(SpotOf(p)), now, Some(x))
      ensures forall q :: q != p ==> SpotOf(q) == old(SpotOf(q))
      ensures pending.Keys <= old(pending.Keys) + {p}
    {
      if !IsNew(watching, Get(seen, p), x) {
        ForgetPending(p);
        return false;
      }
      if p !in pending || pending[p] != x {
        pending, quietSince := pending[p := x], quietSince[p := now];
        return false;
      }
      if now - quietSince[p] < watching.debounce {
        return false;
      }
      seen := seen[p := watching.fingerprint(x)];
      ForgetPending(p);
      return true;
    }

    /** One polling pass over what is there now; returns the paths it fired for. */
    method PollOnce(current: map<Path, Observation>, now: Time) returns (fired: seq<Path>)
      requires Valid()
      modifies this`pending, this`quietSince, this`seen
      ensures Valid() && Distinct(fired)
      ensures forall p :: SpotOf(p) == AfterPoll(watching, old(SpotOf(p)), now, Get(current, p))
      ensures forall p :: p in fired <==> Fires(watching, old(SpotOf(p)), now, Get(current, p))
      ensures forall p :: p in pending ==>
                p in current && pending[p] == current[p] && IsNew(watching, Get(seen, p), current[p])
    {
      fired := [];
      var paths := ListOf(current.Keys);
      for k := 0 to |paths|
        invariant Valid() && Distinct(fired)
        invariant forall p :: SpotOf(p) ==
                    if p in paths[..k] then AfterPoll(watching, old(SpotOf(p)), now, Get(current, p))
                    else old(SpotOf(p))
        invariant forall p :: p in fired <==> p in paths[..k] && Fires(watching, old(SpotOf(p)), now, Get(current, p))
      {
        var p := paths[k];
        assert p in paths && p !in paths[..k];
        assert paths[..k + 1] == paths[..k] + [p];
        var hit := PollPath(p, current[p], now);
        if hit {
          fired := fired + [p];
        }
      }
      assert paths[..|paths|] == paths;
      ForgetMissing(current.Keys);
      forall p ensures SpotOf(p) == AfterPoll(watching, old(SpotOf(p)), now, Get(current, p)) {
        assert p in paths <==> p in current;
      }
      forall p | p in pending
        ensures p in current && pending[p] == current[p] && IsNew(watching, Get(seen, p), current[p])
      {
        assert SpotOf(p) == AfterPoll(watching, old(SpotOf(p)), now, Get(current, p));
      }
    }

    /** Drops what is held back for paths that are gone. */
    method ForgetMissing(present: set<Path>)
      requires Valid()
      modifies this`pending, this`quietSince
      ensures Valid()
      ensures forall p :: SpotOf(p) == if p in present then old(SpotOf(p)) else old(SpotOf(p)).(waiting := None)
    {
      var paths := ListOf(pending.Keys);
      for k := 0 to |paths|
        invariant Valid()
        invariant forall p :: SpotOf(p) ==
                    if p in paths[..k] && p !in present then old(SpotOf(p)).(waiting := None) else old(SpotOf(p))
      {
        assert paths[..k + 1] == paths[..k] + [paths[k]];
        if paths[k] !in present {
          ForgetPending(paths[k]);
        }
      }
      assert paths[..|paths|] == paths;
    }

    /** Returns the paths that changed while the daemon was down, remembering each. */
    method CatchUp(current: map<Path, Observation>, since: Option<Time>) returns (events: seq<Path>)
      requires Valid()
      modifies this`seen
      ensures Valid() && Distinct(events)
      ensures forall p :: SpotOf(p) == AfterCatchUp(watching, old(SpotOf(p)), Get(current, p))
      ensures forall p :: p in events <==> CatchesUp(watching, old(SpotOf(p)), since, Get(current, p))
    {
      events := [];
      var paths := ListOf(current.Keys);
      for k := 0 to |paths|
        invariant Valid() && Distinct(events)
        invariant forall p :: SpotOf(p) ==
                    if p in paths[..k] then AfterCatchUp(watching, old(SpotOf(p)), Get(current, p)) else old(SpotOf(p))
        invariant forall p :: p in events <==>
                    p in paths[..k] && CatchesUp(watching, old(SpotOf(p)), since, Get(current, p))
      {
        var p := paths[k];
        assert p in paths && p !in paths[..k];
        assert paths[..k + 1] == paths[..k] + [p];
        var hit := CatchUpPath(p, current[p], since);
        if hit {
          events := events + [p];
        }
      }
      assert paths[..|paths|] == paths;
    }

    /** One path of a catch-up. */
    method CatchUpPath(p: Path, x: Observation, since: Option<Time>) returns (reported: bool)
      requires Valid()
      modifies this`seen
      ensures Valid()
      ensures reported == CatchesUp(watching, old(SpotOf(p)), since, Some(x))
      ensures SpotOf(p) == AfterCatchUp(watching, old(SpotOf(p)), Some(x))
      ensures forall q :: q != p ==> SpotOf(q) == old(SpotOf(q))
    {
      if !IsNew(watching, Get(seen, p), x) {
        return false;
      }
      reported := since.None? || x.modifiedAt >= since.value;
      seen := seen[p := watching.fingerprint(x)];
    }
  }

  // -- whole histories of one path --------------------------------------------------------------

  datatype Look =
    | Poll(now: Time, x: Option<Observation>)
    | CatchUp(since: Option<Time>, x: Option<Observation>)
    | Restart

  /** A restart of the daemon forgets what is held back and keeps the stored fingerprints. */
  function After(w: Watching, s: Spot, l: Look): Spot {
    match l
    case Poll(now, x) => AfterPoll(w, s, now, x)
    case CatchUp(since, x) => AfterCatchUp(w, s, x)
    case Restart => s.(waiting := None)
  }

  /** The look produces an event. */
  predicate Emits(w: Watching, s: Spot, l: Look) {
    match l
    case Poll(now, x) => Fires(w, s, now, x)
    case CatchUp(since, x) => CatchesUp(w, s, since, x)
    case Restart => false
  }

  ghost predicate Story(w: Watching, spots: seq<Spot>, looks: seq<Look>) {
    && |spots| == |looks| + 1
    && forall k :: 0 <= k < |looks| ==> spots[k + 1] == After(w, spots[k], looks[k])
  }

  /** From look j up to look k there is no restart, every poll saw x, and none comes the debounce time after look j. */
  ghost predicate UnbrokenRun(w: Watching, looks: seq<Look>, j: nat, k: nat, x: Observation) {
    && j < k <= |looks| && looks[j].Poll?
    && (forall i :: j <= i < k ==> !looks[i].Restart?)
    && (forall i :: j <= i < k && looks[i].Poll? ==> looks[i].x == Some(x))
    && (forall i :: j < i < k && looks[i].Poll? ==> looks[i].now - looks[j].now < w.debounce)
  }

  /** What is held back has been the same at every poll since the one it is timed from. */
  lemma {:induction false} HeldSince(w: Watching, spots: seq<Spot>, looks: seq<Look>) returns (j: nat)
    requires Story(w, spots, looks) && spots[0].waiting.None?
    requires spots[|looks|].waiting.Some?
    ensures UnbrokenRun(w, looks, j, |looks|, spots[|looks|].waiting.value.seen)
    ensures looks[j].now == spots[|looks|].waiting.value.since
  {
    var k := |looks| - 1;
    assert spots[k + 1] == After(w, spots[k], looks[k]);
    if spots[k].waiting == spots[k + 1].waiting {
      j := HeldSince(w, spots[..k + 1], looks[..k]);
    } else {
      j := k;
    }
  }

  /** A poll fires only after an unbroken run of polls with the same observation that spans at least the debounce time,
      and it is the first poll at which it does. */
  lemma FiresOnlyWhenSettled(w: Watching, spots: seq<Spot>, looks: seq<Look>, k: nat) returns (j: nat)
    requires Story(w, spots, looks) && spots[0].waiting.None?
    requires k < |looks| && looks[k].Poll? && Emits(w, spots[k], looks[k])
    ensures j < k && looks[k].x.Some? && UnbrokenRun(w, looks, j, k, looks[k].x.value)
    ensures looks[k].now - looks[j].now >= w.debounce
  {
    j := HeldSince(w, spots[..k + 1], looks[..k]);
  }

  /** Conversely a new file that stays the same for the debounce time is reported by the poll that sees it. */
  lemma {:induction false} SettledFires(w: Watching, spots: seq<Spot>, looks: seq<Look>, j: nat, k: nat, x: Observation)
    returns (i: nat)
    requires Story(w, spots, looks) && j < k < |looks|
    requires forall m :: j <= m <= k ==> looks[m].Poll? && looks[m].x == Some(x)
    requires forall m :: j <= m < k ==> looks[m].now <= looks[m + 1].now
    requires IsNew(w, spots[j].reported, x)
    requires spots[j].waiting.Some? ==> spots[j].waiting.value.since <= looks[j].now
    requires looks[k].now - looks[j].now >= w.debounce
    ensures j <= i <= k && Emits(w, spots[i], looks[i])
  {
    if Emits(w, spots[j], looks[j]) {
      i := j;
    } else {
      i := HeldUntilFires(w, spots, looks, j, j + 1, k, x);
    }
  }

  /** So the first version of a file is reported once it settles, whether or not modifications are. */
  lemma FirstVersionIsReported(w: Watching, spots: seq<Spot>, looks: seq<Look>, j: nat, k: nat, x: Observation)
    returns (i: nat)
    requires Story(w, spots, looks) && j < k < |looks|
    requires forall m :: j <= m <= k ==> looks[m].Poll? && looks[m].x == Some(x)
    requires forall m :: j <= m < k ==> looks[m].now <= looks[m + 1].now
    requires spots[j] == Spot(None, None) && looks[k].now - looks[j].now >= w.debounce
    ensures j <= i <= k && Emits(w, spots[i], looks[i])
  {
    i := SettledFires(w, spots, looks, j, k, x);
  }

  /** And a changed version is reported once it settles exactly when modifications are. */
  lemma ChangedVersionIsReported(w: Watching, spots: seq<Spot>, looks: seq<Look>, j: nat, k: nat, x: Observation)
    requires Story(w, spots, looks) && j < k < |looks|
    requires forall m :: j <= m <= k ==> looks[m].Poll? && looks[m].x == Some(x)
    requires forall m :: j <= m < k ==> looks[m].now <= looks[m + 1].now
    requires spots[j].waiting.None? && spots[j].reported.Some? && spots[j].reported.value != w.fingerprint(x)
    requires looks[k].now - looks[j].now >= w.debounce
    ensures (exists i :: j <= i <= k && Emits(w, spots[i], looks[i])) <==> w.emitOnModify
  {
    if w.emitOnModify {
      var i := SettledFires(w, spots, looks, j, k, x);
    } else {
      forall i | j <= i <= k ensures !Emits(w, spots[i], looks[i]) {
        OnceSeenNeverNew(w, spots, looks, j, i);
      }
    }
  }

  /** Catching up reports a version with nothing on record unless it predates the last run, and remembers it anyway. */
  lemma CatchUpReports(w: Watching, s: Spot, x: Observation, since: Option<Time>)
    requires s.reported.None?
    ensures Emits(w, s, CatchUp(since, Some(x))) <==> since.None? || since.value <= x.modifiedAt
    ensures After(w, s, CatchUp(since, Some(x))).reported == Some(w.fingerprint(x))
    ensures !Emits(w, s, CatchUp(since, None)) && After(w, s, CatchUp(since, None)) == s
  {
  }

  lemma {:induction false} HeldUntilFires(
    w: Watching, spots: seq<Spot>, looks: seq<Look>, j: nat, m: nat, k: nat, x: Observation) returns (i: nat)
    requires Story(w, spots, looks) && j < m <= k < |looks|
    requires forall n :: j <= n <= k ==> looks[n].Poll? && looks[n].x == Some(x)
    requires IsNew(w, spots[m].reported, x)
    requires spots[m].waiting.Some? && spots[m].waiting.value.seen == x && spots[m].waiting.value.since <= looks[j].now
    requires looks[k].now - looks[j].now >= w.debounce
    ensures j <= i <= k && Emits(w, spots[i], looks[i])
    decreases k - m
  {
    assert spots[m + 1] == After(w, spots[m], looks[m]);
    if Emits(w, spots[m], looks[m]) {
      i := m;
    } else {
      i := HeldUntilFires(w, spots, looks, j, m + 1, k, x);
    }
  }

  /** A catch-up that remembers a new version without reporting it, because it predates the last run. */
  predicate Silent(w: Watching, s: Spot, l: Look) {
    && l.CatchUp? && l.x.Some? && IsNew(w, s.reported, l.x.value)
    && l.since.Some? && l.x.value.modifiedAt < l.since.value
  }

  /** Look j is the last silent catch-up after look i and before look k. */
  ghost predicate LastSilent(w: Watching, spots: seq<Spot>, looks: seq<Look>, i: nat, j: nat, k: nat)
    requires Story(w, spots, looks) && k <= |looks|
  {
    i < j < k && Silent(w, spots[j], looks[j]) && forall m :: j < m < k ==> !Silent(w, spots[m], looks[m])
  }

  /** No catch-up since look i was silent, or the last one that was remembered what look i reported. */
  ghost predicate SilentlySame(w: Watching, spots: seq<Spot>, looks: seq<Look>, i: nat, k: nat)
    requires Story(w, spots, looks) && i < k <= |looks| && !looks[i].Restart? && looks[i].x.Some?
  {
    forall j: nat :: LastSilent(w, spots, looks, i, j, k) ==>
      w.fingerprint(looks[j].x.value) == w.fingerprint(looks[i].x.value)
  }

  ghost predicate NoEventBetween(w: Watching, spots: seq<Spot>, looks: seq<Look>, i: nat, k: nat)
    requires Story(w, spots, looks) && k <= |looks|
  {
    forall m :: i < m < k ==> !Emits(w, spots[m], looks[m])
  }

  /** What is on record after an event is what it reported, or what the last silent catch-up since remembered. */
  lemma {:induction false} OnRecord(w: Watching, spots: seq<Spot>, looks: seq<Look>, i: nat, k: nat)
    returns (j: Option<nat>)
    requires Story(w, spots, looks) && i < k <= |looks|
    requires Emits(w, spots[i], looks[i]) && NoEventBetween(w, spots, looks, i, k)
    ensures j.Some? ==> LastSilent(w, spots, looks, i, j.value, k)
    ensures j.None? ==> forall m :: i < m < k ==> !Silent(w, spots[m], looks[m])
    ensures spots[k].reported == Some(w.fingerprint(looks[if j.Some? then j.value else i].x.value))
  {
    assert spots[k] == After(w, spots[k - 1], looks[k - 1]);
    if k - 1 == i {
      j := None;
    } else if Silent(w, spots[k - 1], looks[k - 1]) {
      j := Some(k - 1);
    } else {
      j := OnRecord(w, spots, looks, i, k - 1);
    }
  }

  /** Exactly when the next event for a path must have a different fingerprint: modifications are not reported, so that
      there is none, or no catch-up silently put another version on record since the last event. */
  lemma NextEventDiffersExactly(w: Watching, spots: seq<Spot>, looks: seq<Look>, i: nat, k: nat)
    requires Story(w, spots, looks) && i < k <= |looks|
    requires Emits(w, spots[i], looks[i]) && NoEventBetween(w, spots, looks, i, k)
    ensures (forall l :: Emits(w, spots[k], l) ==> w.fingerprint(l.x.value) != w.fingerprint(looks[i].x.value))
            <==> !w.emitOnModify || SilentlySame(w, spots, looks, i, k)
  {
    var x := looks[i].x;
    var j := OnRecord(w, spots, looks, i, k);
    assert SilentlySame(w, spots, looks, i, k) <==> spots[k].reported == Some(w.fingerprint(x.value)) by {
      if j.Some? {
        assert LastSilent(w, spots, looks, i, j.value, k);
        assert forall m: nat :: LastSilent(w, spots, looks, i, m, k) ==> m == j.value;
      }
    }
    if w.emitOnModify && spots[k].reported != Some(w.fingerprint(x.value)) {
      assert Emits(w, spots[k], CatchUp(None, x));
    }
  }

  /** Two consecutive events for a path have different fingerprints when no catch-up was silent between them. */
  lemma ConsecutiveEventsDiffer(w: Watching, spots: seq<Spot>, looks: seq<Look>, i: nat, k: nat)
    requires Story(w, spots, looks) && i < k < |looks|
    requires Emits(w, spots[i], looks[i]) && Emits(w, spots[k], looks[k])
    requires NoEventBetween(w, spots, looks, i, k)
    requires forall m :: i < m < k ==> !Silent(w, spots[m], looks[m])
    ensures w.fingerprint(looks[k].x.value) != w.fingerprint(looks[i].x.value)
  {
    NextEventDiffersExactly(w, spots, looks, i, k);
  }

  /** With one they need not: a file reported once, replaced by an old one while the daemon was down, and restored as it
      was, is reported a second time with the same fingerprint. */
  lemma RestoredFileReportedTwice(w: Watching, a: Observation, b: Observation, since: Time, t: Time)
    requires w.emitOnModify && b.modifiedAt < since && w.fingerprint(a) != w.fingerprint(b)
    ensures
      var looks := [CatchUp(None, Some(a)), Restart, CatchUp(Some(since), Some(b)),
                    Poll(t, Some(a)), Poll(t + w.debounce, Some(a))];
      var s0, s1, s2 := Spot(None, None), Spot(None, Some(w.fingerprint(a))), Spot(None, Some(w.fingerprint(b)));
      var spots := [s0, s1, s1, s2, s2.(waiting := Some(Wait(a, t))), s1];
      && Story(w, spots, looks) && Emits(w, spots[0], looks[0]) && NoEventBetween(w, spots, looks, 0, 4)
      && Emits(w, spots[4], looks[4])
  {
  }

  /** When modifications are not reported, a path has at most one event ever, counting catch-up. */
  lemma {:induction false} AtMostOneEvent(w: Watching, spots: seq<Spot>, looks: seq<Look>, i: nat, k: nat)
    requires Story(w, spots, looks) && !w.emitOnModify
    requires i < k < |looks| && Emits(w, spots[i], looks[i])
    ensures !Emits(w, spots[k], looks[k])
  {
    OnceSeenNeverNew(w, spots, looks, i + 1, k);
    assert spots[i + 1] == After(w, spots[i], looks[i]);
  }

  lemma {:induction false} OnceSeenNeverNew(w: Watching, spots: seq<Spot>, looks: seq<Look>, i: nat, k: nat)
    requires Story(w, spots, looks) && !w.emitOnModify && i <= k <= |looks|
    ensures spots[i].reported.Some? ==> spots[k].reported.Some?
  {
    if i < k {
      OnceSeenNeverNew(w, spots, looks, i, k - 1);
      assert spots[k] == After(w, spots[k - 1], looks[k - 1]);
    }
  }
}
