/** The mail reader's UID cursor (plugins/imap_input/__init__.py), against a mailbox whose UIDs behave as section
    2.3.1.1 of RFC 3501 requires: within one UIDVALIDITY every message that arrives gets a larger UID than any before.
    Matching a message against the criteria is not part of this model: a message is evaluated or it is not. */
module ImapInput {
  import opened Base

  /** next is larger than every UID assigned so far in this epoch. */
  datatype Mailbox = Mailbox(validity: nat, uids: set<nat>, next: nat)

  /** The two values the reader persists; each may be missing or unreadable. */
  datatype Stored = Stored(validity: Option<nat>, cursor: Option<nat>)

  lemma {:induction false} GreatestExists(s: set<nat>)
    requires s != {}
    ensures exists m :: m in s && forall x :: x in s ==> x <= m
  {
    var x :| x in s;
    if s != {x} {
      var rest := s - {x};
      GreatestExists(rest);
      var m :| m in rest && forall y :: y in rest ==> y <= m;
      var top := if m < x then x else m;
      forall y | y in s ensures y <= top { assert y == x || y in rest; }
      assert top in s;
    }
  }

  ghost function Greatest(s: set<nat>): (m: nat)
    requires s != {}
    ensures m in s && forall x :: x in s ==> x <= m
  {
    GreatestExists(s);
    var m :| m in s && forall x :: x in s ==> x <= m; m
  }

  /** What the server returns for the UID range n:*, by section 6.4.8 of RFC 3501: the range runs between n and the
      largest UID in either order, so the largest is returned even when it is below n. */
  ghost predicate SearchResult(uids: set<nat>, n: nat, found: set<nat>) {
    found == if uids == {} then {} else (set u | u in uids && u >= n) + {Greatest(uids)}
  }

  /** The UIDs above the cursor. */
  function Above(uids: set<nat>, cursor: nat): set<nat> {
    set u | u in uids && u > cursor
  }

  /** Filtering the search result leaves exactly the UIDs above the cursor. */
  lemma FilterIsExact(uids: set<nat>, cursor: nat, found: set<nat>)
    requires SearchResult(uids, cursor + 1, found)
    ensures (set u | u in found && u > cursor) == Above(uids, cursor)
  {
  }

  predicate Ascending(s: seq<nat>) {
    forall i, j :: 0 <= i < j < |s| ==> s[i] < s[j]
  }

  /** The highest UID of a search result, 0 for an empty one. */
  method HighestUid(uids: set<nat>) returns (m: nat)
    ensures m == if uids == {} then 0 else Greatest(uids)
  {
    if uids == {} {
      return 0;
    }
    GreatestExists(uids);
    m :| m in uids && forall x :: x in uids ==> x <= m;
  }

  method Sorted(s: set<nat>) returns (r: seq<nat>)
    ensures Ascending(r) && Elems(r) == s
  {
    r := [];
    var rest := s;
    while rest != {}
      invariant rest <= s && Ascending(r) && Elems(r) == s - rest
      invariant r != [] ==> forall x :: x in rest ==> x < r[0]
      decreases rest
    {
      var m := HighestUid(rest);
      PrependKeepsOrder(m, r);
      r := [m] + r;
      rest := rest - {m};
    }
  }

  lemma PrependKeepsOrder(m: nat, r: seq<nat>)
    requires Ascending(r) && (r != [] ==> m < r[0])
    ensures Ascending([m] + r) && Elems([m] + r) == {m} + Elems(r)
  {
  }

  /** The stored values once the folder is selected: kept when they belong to this epoch, baselined otherwise. */
  ghost function Baselined(st: Stored, box: Mailbox): Stored {
    if st.validity == Some(box.validity) && st.cursor.Some? then st
    else Stored(Some(box.validity), Some(if box.uids == {} then 0 else Greatest(box.uids)))
  }

  /** The newest of the UIDs, at most limit of them. */
  ghost predicate Newest(all: set<nat>, kept: set<nat>, limit: nat) {
    && kept <= all && |kept| == (if |all| <= limit then |all| else limit)
    && forall u, v :: u in kept && v in all && v !in kept ==> v < u
  }

  /** The cursor after a pass over these UIDs. */
  ghost function Advanced(st: Stored, pass: set<nat>): Stored {
    if pass == {} then st else st.(cursor := Some(Greatest(pass)))
  }

  class ImapReader {
    const catchUpLimit: nat
    var stored: Stored

    constructor (catchUpLimit: nat, stored: Stored)
      ensures this.catchUpLimit == catchUpLimit && this.stored == stored
    {
      this.catchUpLimit, this.stored := catchUpLimit, stored;
    }

    method ReconcileUidvalidity(box: Mailbox)
      modifies this`stored
      ensures stored == Baselined(old(stored), box)
    {
      if stored.validity == Some(box.validity) && stored.cursor.Some? {
        return;
      }
      var highest := HighestUid(box.uids);
      stored := Stored(Some(box.validity), Some(highest));
    }

    /** The UIDs above the cursor, in order, from whatever the server returns for the search. */
    method NewUids(ghost uids: set<nat>, found: set<nat>) returns (uidsAbove: seq<nat>)
      requires stored.cursor.Some? ==> SearchResult(uids, stored.cursor.value + 1, found)
      ensures Ascending(uidsAbove)
      ensures Elems(uidsAbove) == if stored.cursor.Some? then Above(uids, stored.cursor.value) else {}
    {
      if stored.cursor.None? {
        return [];
      }
      FilterIsExact(uids, stored.cursor.value, found);
      uidsAbove := Sorted(set u | u in found && u > stored.cursor.value);
    }

    /** A live pass: evaluates everything above the cursor and moves the cursor to the last of it. */
    method ProcessNew(ghost box: Mailbox, found: set<nat>) returns (evaluated: seq<nat>)
      requires stored.cursor.Some? ==> SearchResult(box.uids, stored.cursor.value + 1, found)
      modifies this`stored
      ensures Ascending(evaluated)
      ensures Elems(evaluated) == if old(stored).cursor.Some? then Above(box.uids, old(stored).cursor.value) else {}
      ensures stored == Advanced(old(stored), Elems(evaluated))
    {
      evaluated := NewUids(box.uids, found);
      if evaluated == [] {
        return;
      }
      LastIsGreatest(evaluated);
      stored := stored.(cursor := Some(evaluated[|evaluated| - 1]));
    }

    /** Downtime recovery after the folder is selected: like a live pass, but examines only the newest messages. */
    method CatchUp(ghost box: Mailbox, found: set<nat>) returns (evaluated: seq<nat>)
      requires stored.cursor.Some? ==> SearchResult(box.uids, stored.cursor.value + 1, found)
      requires catchUpLimit >= 1
      modifies this`stored
      ensures Ascending(evaluated)
      ensures Newest(if old(stored).cursor.Some? then Above(box.uids, old(stored).cursor.value) else {},
                     Elems(evaluated), catchUpLimit)
      ensures stored == Advanced(old(stored), Elems(evaluated))
    {
      var uidsAbove := NewUids(box.uids, found);
      evaluated := TakeNewest(uidsAbove);
      if evaluated == [] {
        return;
      }
      LastIsGreatest(evaluated);
      stored := stored.(cursor := Some(evaluated[|evaluated| - 1]));
    }

    method TakeNewest(uids: seq<nat>) returns (kept: seq<nat>)
      requires Ascending(uids) && catchUpLimit >= 1
      ensures Ascending(kept) && Newest(Elems(uids), Elems(kept), catchUpLimit)
    {
      kept := uids;
      if |uids| > catchUpLimit {
        kept := uids[|uids| - catchUpLimit..];
      }
      TailIsNewest(uids, |uids| - |kept|, catchUpLimit);
    }
  }

  lemma LastIsGreatest(s: seq<nat>)
    requires s != [] && Ascending(s)
    ensures Elems(s) != {} && Greatest(Elems(s)) == s[|s| - 1]
  {
    assert s[|s| - 1] in Elems(s);
    var m := Greatest(Elems(s));
    var i :| 0 <= i < |s| && s[i] == m;
  }

  lemma {:induction false} AscendingSize(s: seq<nat>)
    requires Ascending(s)
    ensures |Elems(s)| == |s|
  {
    if s != [] {
      var n := |s| - 1;
      AscendingSize(s[..n]);
      assert s == s[..n] + [s[n]];
      assert Elems(s) == Elems(s[..n]) + {s[n]};
      assert s[n] !in s[..n];
    }
  }

  lemma TailIsNewest(s: seq<nat>, from: nat, limit: nat)
    requires Ascending(s) && limit >= 1
    requires from == if |s| > limit then |s| - limit else 0
    ensures Newest(Elems(s), Elems(s[from..]), limit)
  {
    AscendingSize(s);
    AscendingSize(s[from..]);
    forall u, v | u in Elems(s[from..]) && v in Elems(s) && v !in Elems(s[from..]) ensures v < u {
      var i :| 0 <= i < |s[from..]| && s[from..][i] == u;
      var j :| 0 <= j < |s| && s[j] == v;
      assert s[from + i] == u;
    }
  }

  // -- which messages a limited catch-up leaves out ------------------------------------------------

  /** Whether a catch-up about to start will leave u out: u is above the cursor with at least limit UIDs above it. */
  predicate Overflows(uids: set<nat>, cursor: nat, limit: nat, u: nat) {
    u in Above(uids, cursor) && |Above(uids, u)| >= limit
  }

  lemma {:induction false} SubsetSize(a: set<nat>, b: set<nat>)
    requires a <= b
    ensures |a| <= |b| && (|a| == |b| ==> a == b)
  {
    if a != {} {
      var x :| x in a;
      SubsetSize(a - {x}, b - {x});
      assert a == (a - {x}) + {x} && b == (b - {x}) + {x};
    } else {
      assert |b| == 0 ==> b == {};
    }
  }

  /** The newest of the UIDs above the cursor, up to the limit, are exactly those that do not overflow. */
  lemma NewestAreExact(uids: set<nat>, cursor: nat, kept: set<nat>, limit: nat, u: nat)
    requires Newest(Above(uids, cursor), kept, limit) && u in Above(uids, cursor)
    ensures u in kept <==> !Overflows(uids, cursor, limit, u)
  {
    var all := Above(uids, cursor);
    if u in kept {
      forall v | v in Above(uids, u) ensures v in kept - {u} {
        assert v in all;
      }
      SubsetSize(Above(uids, u), kept - {u});
    } else {
      SubsetSize(kept, Above(uids, u));
      SubsetSize(kept, all);
    }
  }

  // -- the reader and its server over whole runs -------------------------------------------------

  /** The mailbox, what the reader stores, and the history: every evaluation and every message that overflowed a
      catch-up, each with its epoch, and where the current epoch was baselined. */
  datatype World = World(
    box: Mailbox, stored: Stored, evaluated: seq<(nat, nat)>, baseline: nat, passedOver: set<(nat, nat)>)

  datatype Happening =
    | Arrive(uid: nat)
    | Expunge(uid: nat)
    | Rebuild(validity: nat, uids: set<nat>, next: nat)
    | Select
    | LivePass(pass: seq<nat>)
    | CatchUpPass(limit: nat, pass: seq<nat>)

  ghost predicate Selected(w: World) {
    w.stored.validity == Some(w.box.validity) && w.stored.cursor.Some?
  }

  function Tagged(validity: nat, pass: seq<nat>): seq<(nat, nat)> {
    seq(|pass|, i requires 0 <= i < |pass| => (validity, pass[i]))
  }

  /** A pass evaluates these UIDs and moves the cursor over all that was above it. */
  ghost predicate Passes(w: World, w': World, pass: seq<nat>, over: set<(nat, nat)>) {
    && Selected(w) && Ascending(pass)
    && w' == w.(stored := Advanced(w.stored, Elems(pass)),
                evaluated := w.evaluated + Tagged(w.box.validity, pass),
                passedOver := w.passedOver + over)
  }

  /** What overflows a catch-up with this limit. */
  function Overflow(box: Mailbox, cursor: nat, limit: nat): set<(nat, nat)> {
    set u | u in box.uids && Overflows(box.uids, cursor, limit, u) :: (box.validity, u)
  }

  ghost predicate Happens(w: World, w': World, h: Happening) {
    match h
    case Arrive(u) => u >= w.box.next && w' == w.(box := w.box.(uids := w.box.uids + {u}, next := u + 1))
    case Expunge(u) => w' == w.(box := w.box.(uids := w.box.uids - {u}))
    case Rebuild(v, uids, next) =>
      && v > w.box.validity && next >= 1 && (forall u :: u in uids ==> u < next)
      && w' == w.(box := Mailbox(v, uids, next))
    case Select =>
      && w' == w.(stored := Baselined(w.stored, w.box),
                  baseline := if Selected(w) then w.baseline else Baselined(w.stored, w.box).cursor.value)
    case LivePass(pass) => Passes(w, w', pass, {}) && Elems(pass) == Above(w.box.uids, w.stored.cursor.value)
    case CatchUpPass(limit, pass) =>
      && limit >= 1 && Selected(w)
      && Passes(w, w', pass, Overflow(w.box, w.stored.cursor.value, limit))
      && Newest(Above(w.box.uids, w.stored.cursor.value), Elems(pass), limit)
  }

  ghost predicate Consistent(w: World) {
    && w.box.next >= 1 && (forall u :: u in w.box.uids ==> u < w.box.next)
    && (w.stored.validity.Some? ==> w.stored.validity.value <= w.box.validity)
    && (Selected(w) ==> w.stored.cursor.value < w.box.next)
  }

  /** A message dealt with belongs to an earlier epoch, or to this one and is at or below the cursor. */
  ghost predicate DealtWith(w: World, m: (nat, nat)) {
    m.0 <= w.box.validity && (m.0 == w.box.validity ==> Selected(w) && m.1 <= w.stored.cursor.value)
  }

  ghost predicate BehindCursor(w: World) {
    && (forall m :: m in w.evaluated ==> DealtWith(w, m))
    && (forall m :: m in w.passedOver ==> DealtWith(w, m))
  }

  /** Everything still in the mailbox between the baseline and the cursor was evaluated or overflowed a catch-up. */
  ghost predicate NothingMissed(w: World) {
    Selected(w) ==>
      forall u :: u in w.box.uids && w.baseline < u <= w.stored.cursor.value ==>
        (w.box.validity, u) in w.evaluated || (w.box.validity, u) in w.passedOver
  }

  /** No message is evaluated twice in its epoch, and none that overflowed is evaluated at all. */
  ghost predicate AtMostOnce(w: World) {
    Distinct(w.evaluated) && forall m :: m in w.passedOver ==> m !in w.evaluated
  }

  ghost predicate WorldInvariant(w: World) {
    Consistent(w) && BehindCursor(w) && AtMostOnce(w) && NothingMissed(w)
  }

  /** The pass and what overflows it make up what is above the cursor, and the pass has its greatest. */
  ghost predicate Splits(w: World, pass: seq<nat>, over: set<(nat, nat)>)
    requires Selected(w)
  {
    var all := Above(w.box.uids, w.stored.cursor.value);
    && Elems(pass) <= all
    && (forall m :: m in over ==> m.0 == w.box.validity && m.1 in all)
    && (forall u :: u in all ==> (u in Elems(pass) <==> (w.box.validity, u) !in over))
    && (all != {} ==> Elems(pass) != {} && Greatest(Elems(pass)) == Greatest(all))
  }

  lemma TaggedAre(validity: nat, pass: seq<nat>, m: (nat, nat))
    ensures m in Tagged(validity, pass) <==> m.0 == validity && m.1 in Elems(pass)
  {
    if m.1 in Elems(pass) {
      var k :| 0 <= k < |pass| && pass[k] == m.1;
      assert Tagged(validity, pass)[k] == (validity, m.1);
    }
  }

  lemma PassKeepsOrder(w: World, w': World, pass: seq<nat>, over: set<(nat, nat)>)
    requires WorldInvariant(w) && Passes(w, w', pass, over) && Splits(w, pass, over)
    ensures w'.stored.cursor.value >= w.stored.cursor.value
    ensures forall u :: u in Above(w.box.uids, w.stored.cursor.value) ==> u <= w'.stored.cursor.value
    ensures Consistent(w') && BehindCursor(w')
  {
    forall m ensures m in w'.evaluated <==> m in w.evaluated || (m.0 == w.box.validity && m.1 in Elems(pass)) {
      TaggedAre(w.box.validity, pass, m);
    }
  }

  lemma PassKeepsOnce(w: World, w': World, pass: seq<nat>, over: set<(nat, nat)>)
    requires WorldInvariant(w) && Passes(w, w', pass, over) && Splits(w, pass, over)
    ensures AtMostOnce(w')
  {
    var v, c := w.box.validity, w.stored.cursor.value;
    forall m ensures m in w'.evaluated <==> m in w.evaluated || (m.0 == v && m.1 in Elems(pass)) {
      TaggedAre(v, pass, m);
    }
    forall i, j | 0 <= i < j < |w'.evaluated| ensures w'.evaluated[i] != w'.evaluated[j] {
      if j >= |w.evaluated| {
        var b := pass[j - |w.evaluated|];
        assert b in Elems(pass) && w'.evaluated[j] == (v, b);
        if i >= |w.evaluated| {
          assert w'.evaluated[i] == (v, pass[i - |w.evaluated|]);
        } else {
          assert w.evaluated[i] in w.evaluated;
        }
      }
    }
  }

  lemma PassMissesNothing(w: World, w': World, pass: seq<nat>, over: set<(nat, nat)>)
    requires WorldInvariant(w) && Passes(w, w', pass, over) && Splits(w, pass, over)
    ensures NothingMissed(w')
  {
    var v, c := w.box.validity, w.stored.cursor.value;
    forall u | u in w'.box.uids && w'.baseline < u <= w'.stored.cursor.value
      ensures (v, u) in w'.evaluated || (v, u) in w'.passedOver
    {
      TaggedAre(v, pass, (v, u));
      if u <= c {
        assert (v, u) in w.evaluated || (v, u) in w.passedOver;
      } else {
        assert u in Above(w.box.uids, c);
      }
    }
  }

  lemma NewestKeepsGreatest(all: set<nat>, kept: set<nat>, limit: nat)
    requires Newest(all, kept, limit) && limit >= 1 && all != {}
    ensures kept != {} && Greatest(kept) == Greatest(all)
  {
    assert |all| > 0 && kept != {};
    var g, k := Greatest(all), Greatest(kept);
    assert g in kept || g < k;
  }

  lemma CatchUpSplits(w: World, limit: nat, pass: seq<nat>)
    requires Selected(w) && limit >= 1 && Newest(Above(w.box.uids, w.stored.cursor.value), Elems(pass), limit)
    ensures Splits(w, pass, Overflow(w.box, w.stored.cursor.value, limit))
  {
    var all := Above(w.box.uids, w.stored.cursor.value);
    forall u | u in all
      ensures u in Elems(pass) <==> (w.box.validity, u) !in Overflow(w.box, w.stored.cursor.value, limit)
    {
      NewestAreExact(w.box.uids, w.stored.cursor.value, Elems(pass), limit, u);
    }
    if all != {} { NewestKeepsGreatest(all, Elems(pass), limit); }
  }

  lemma HappeningKeepsInvariant(w: World, w': World, h: Happening)
    requires WorldInvariant(w) && Happens(w, w', h)
    ensures WorldInvariant(w')
    ensures w'.box.validity == w.box.validity && Selected(w) ==>
              Selected(w') && w'.stored.cursor.value >= w.stored.cursor.value
  {
    if h.LivePass? || h.CatchUpPass? {
      var over := if h.LivePass? then {} else Overflow(w.box, w.stored.cursor.value, h.limit);
      if h.CatchUpPass? { CatchUpSplits(w, h.limit, h.pass); }
      PassKeepsOrder(w, w', h.pass, over);
      PassKeepsOnce(w, w', h.pass, over);
      PassMissesNothing(w, w', h.pass, over);
    }
  }

  ghost predicate Chronicle(worlds: seq<World>, happenings: seq<Happening>) {
    && |worlds| == |happenings| + 1
    && forall k :: 0 <= k < |happenings| ==> Happens(worlds[k], worlds[k + 1], happenings[k])
  }

  /** Nothing has been dealt with yet; a cursor that belongs to this epoch is the baseline. */
  ghost predicate Beginning(w: World) {
    && Consistent(w) && w.evaluated == [] && w.passedOver == {}
    && (Selected(w) ==> w.baseline == w.stored.cursor.value)
  }

  /** In every run, across any arrivals, deletions, rebuilds, reconnections and passes, no message of an epoch is
      evaluated twice, none that overflowed a catch-up is evaluated, and no other between the baseline and the cursor is
      missed. */
  lemma {:induction false} ExactlyOnce(worlds: seq<World>, happenings: seq<Happening>)
    requires Chronicle(worlds, happenings) && Beginning(worlds[0])
    ensures WorldInvariant(worlds[|happenings|])
  {
    if happenings != [] {
      var k := |happenings| - 1;
      ExactlyOnce(worlds[..k + 1], happenings[..k]);
      HappeningKeepsInvariant(worlds[k], worlds[k + 1], happenings[k]);
    }
  }

  /** At happening k a catch-up began in epoch v, with u above the cursor and at least its limit of UIDs above u. */
  ghost predicate FloodedAt(worlds: seq<World>, happenings: seq<Happening>, k: int, v: nat, u: nat) {
    && 0 <= k < |happenings| <= |worlds| && happenings[k].CatchUpPass?
    && Selected(worlds[k]) && worlds[k].box.validity == v
    && Overflows(worlds[k].box.uids, worlds[k].stored.cursor.value, happenings[k].limit, u)
  }

  ghost predicate Flooded(worlds: seq<World>, happenings: seq<Happening>, v: nat, u: nat) {
    exists k :: FloodedAt(worlds, happenings, k, v, u)
  }

  lemma {:induction false} PassedOverExactly(worlds: seq<World>, happenings: seq<Happening>, v: nat, u: nat)
    requires Chronicle(worlds, happenings) && worlds[0].passedOver == {}
    ensures (v, u) in worlds[|happenings|].passedOver <==> Flooded(worlds, happenings, v, u)
  {
    if happenings != [] {
      var n := |happenings| - 1;
      var before, hs := worlds[..n + 1], happenings[..n];
      PassedOverExactly(before, hs, v, u);
      assert Happens(worlds[n], worlds[n + 1], happenings[n]);
      assert forall k :: 0 <= k < n ==> (FloodedAt(worlds, happenings, k, v, u) <==> FloodedAt(before, hs, k, v, u));
      assert (v, u) in worlds[n + 1].passedOver <==>
               (v, u) in worlds[n].passedOver || FloodedAt(worlds, happenings, n, v, u);
      if Flooded(worlds, happenings, v, u) {
        var k :| FloodedAt(worlds, happenings, k, v, u);
        assert k < n ==> FloodedAt(before, hs, k, v, u);
      }
    }
  }

  /** Exactly which messages are evaluated: in every run that ends with a live pass, a message still there above the
      baseline has been evaluated if and only if no catch-up of this epoch began with it above the cursor and at least
      the limit of UIDs above it. */
  lemma EvaluatedExactly(worlds: seq<World>, happenings: seq<Happening>, u: nat)
    requires Chronicle(worlds, happenings) && Beginning(worlds[0])
    requires happenings != [] && happenings[|happenings| - 1].LivePass?
    requires u in worlds[|happenings|].box.uids && u > worlds[|happenings|].baseline
    ensures var v := worlds[|happenings|].box.validity;
            (v, u) in worlds[|happenings|].evaluated <==> !Flooded(worlds, happenings, v, u)
  {
    var n := |happenings| - 1;
    var w, w' := worlds[n], worlds[n + 1];
    assert Happens(w, w', happenings[n]);
    ExactlyOnce(worlds[..n + 1], happenings[..n]);
    PassKeepsOrder(w, w', happenings[n].pass, {});
    ExactlyOnce(worlds, happenings);
    PassedOverExactly(worlds, happenings, w'.box.validity, u);
    assert u <= w.stored.cursor.value || u in Above(w.box.uids, w.stored.cursor.value);
  }

  // -- what an epoch starts with ------------------------------------------------------------------------

  /** Selecting the folder in a new epoch, or without a cursor, puts the cursor at or above every message there is, so
      that none of them is new; in the same epoch it changes nothing. */
  lemma SelectBaselines(w: World, w': World)
    requires Happens(w, w', Select)
    ensures Selected(w') && w'.evaluated == w.evaluated
    ensures !Selected(w) ==> Above(w'.box.uids, w'.stored.cursor.value) == {}
    ensures !Selected(w) && w.box.uids != {} ==> w'.stored.cursor.value in w.box.uids
    ensures Selected(w) ==> w' == w
  {
  }

  /** The message is of an epoch that is over, or is at or below the cursor; and it has not been evaluated. */
  ghost predicate LeftBehind(w: World, m: (nat, nat)) {
    DealtWith(w, m) && m !in w.evaluated
  }

  lemma StaysBehind(w: World, w': World, h: Happening, m: (nat, nat))
    requires WorldInvariant(w) && Happens(w, w', h) && LeftBehind(w, m)
    ensures LeftBehind(w', m)
  {
    HappeningKeepsInvariant(w, w', h);
    if h.LivePass? || h.CatchUpPass? {
      TaggedAre(w.box.validity, h.pass, m);
    }
  }

  /** Baselining evaluates nothing, then or later: in every run, a message that was there when its epoch was baselined
      is never evaluated in that epoch. */
  lemma {:induction false} BaselinedNeverEvaluated(worlds: seq<World>, happenings: seq<Happening>, k: nat, u: nat)
    requires Chronicle(worlds, happenings) && Beginning(worlds[0])
    requires k < |happenings| && happenings[k].Select? && !Selected(worlds[k]) && u in worlds[k].box.uids
    ensures LeftBehind(worlds[|happenings|], (worlds[k].box.validity, u))
  {
    var n := |happenings| - 1;
    assert Happens(worlds[n], worlds[n + 1], happenings[n]);
    ExactlyOnce(worlds[..n + 1], happenings[..n]);
    if k == n {
      SelectBaselines(worlds[n], worlds[n + 1]);
      assert u !in Above(worlds[n + 1].box.uids, worlds[n + 1].stored.cursor.value);
    } else {
      BaselinedNeverEvaluated(worlds[..n + 1], happenings[..n], k, u);
      StaysBehind(worlds[n], worlds[n + 1], happenings[n], (worlds[k].box.validity, u));
    }
  }

  // -- a message that is never evaluated ------------------------------------------------------------

  function UpTo(low: nat, high: nat): seq<nat>
    requires low <= high
  {
    seq(high - low + 1, k => low + k)
  }

  lemma UpToIs(low: nat, high: nat)
    requires low <= high
    ensures Ascending(UpTo(low, high)) && |Elems(UpTo(low, high))| == high - low + 1
    ensures forall u :: u in UpTo(low, high) <==> low <= u <= high
    ensures Greatest(Elems(UpTo(low, high))) == high
  {
    var s := UpTo(low, high);
    forall u | low <= u <= high ensures u in s {
      assert s[u - low] == u;
    }
    AscendingSize(s);
    LastIsGreatest(s);
  }

  /** A mailbox with one message more than the limit, none of them seen. */
  function Flood(limit: nat): World {
    World(Mailbox(1, Elems(UpTo(1, limit + 1)), limit + 2), Stored(Some(1), Some(0)), [], 0, {})
  }

  /** The same after a catch-up has examined all but the oldest. */
  ghost function AfterFlood(limit: nat): World
    requires limit >= 1
  {
    var w, pass := Flood(limit), UpTo(2, limit + 1);
    w.(stored := Stored(Some(1), Some(limit + 1)), evaluated := Tagged(1, pass),
       passedOver := Overflow(w.box, 0, limit))
  }

  lemma FloodCatchesUp(limit: nat)
    requires limit >= 1
    ensures Happens(Flood(limit), AfterFlood(limit), CatchUpPass(limit, UpTo(2, limit + 1)))
  {
    var w, w', pass := Flood(limit), AfterFlood(limit), UpTo(2, limit + 1);
    UpToIs(2, limit + 1);
    FloodNewest(limit);
    assert w.evaluated + Tagged(1, pass) == w'.evaluated;
    assert w.passedOver + Overflow(w.box, 0, limit) == w'.passedOver;
    assert Advanced(w.stored, Elems(pass)) == w'.stored;
  }

  lemma FloodNewest(limit: nat)
    requires limit >= 1
    ensures Newest(Above(Flood(limit).box.uids, 0), Elems(UpTo(2, limit + 1)), limit)
  {
    var all, kept := Flood(limit).box.uids, Elems(UpTo(2, limit + 1));
    UpToIs(1, limit + 1);
    UpToIs(2, limit + 1);
    assert Above(all, 0) == all;
    forall u, v | u in kept && v in all && v !in kept ensures v < u {
      assert v in UpTo(1, limit + 1) && u in UpTo(2, limit + 1);
    }
  }

  lemma NothingLeftToExamine(limit: nat)
    requires limit >= 1
    ensures Happens(AfterFlood(limit), AfterFlood(limit), LivePass([]))
  {
    var w := AfterFlood(limit);
    UpToIs(1, limit + 1);
    assert Above(w.box.uids, limit + 1) == {};
    assert w.evaluated + Tagged(1, []) == w.evaluated && w.passedOver + {} == w.passedOver;
  }

  /** Whatever the limit, one message too many during downtime leaves the oldest unexamined for good. */
  lemma FloodLosesMail(limit: nat) returns (worlds: seq<World>, happenings: seq<Happening>)
    requires limit >= 1
    ensures Chronicle(worlds, happenings) && Beginning(worlds[0]) && worlds[0] == Flood(limit)
    ensures happenings == [CatchUpPass(limit, UpTo(2, limit + 1)), LivePass([])]
    ensures 1 in worlds[2].box.uids && 1 > worlds[2].baseline && (1, 1) !in worlds[2].evaluated
  {
    var pass := UpTo(2, limit + 1);
    worlds := [Flood(limit), AfterFlood(limit), AfterFlood(limit)];
    happenings := [CatchUpPass(limit, pass), LivePass([])];
    FloodCatchesUp(limit);
    NothingLeftToExamine(limit);
    UpToIs(1, limit + 1);
    UpToIs(2, limit + 1);
    TaggedAre(1, pass, (1, 1));
  }
}
