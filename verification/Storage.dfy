/** The state database as in-memory tables, and the typed operations over it (src/noti_mapper/storage.py).
    A transaction block is atomic, and foreign keys on rules(name) are preconditions of the writes they guard. */
module Storage {
  import opened Base
  import opened Records

  datatype RuleRow = RuleRow(enabled: bool, orphaned: bool)

  datatype InstanceRow = InstanceRow(plugin: string, enabled: bool, orphaned: bool)

  /** A configured rule as it is handed to the mirror. */
  datatype RuleRecord = RuleRecord(name: Name, enabled: bool, inputs: seq<Name>, outputs: seq<Name>)

  /** The rule table and the tables that refer to it; members are pairs of a rule and an instance. */
  datatype RuleTables = RuleTables(
    rules: map<Name, RuleRow>,
    ruleInputs: set<(Name, Name)>,
    ruleOutputs: set<(Name, Name)>,
    latches: map<Name, Latch>)

  /** Every child row refers to a rule that is there. */
  ghost predicate ForeignKeys(t: RuleTables) {
    && t.latches.Keys <= t.rules.Keys
    && (forall p :: p in t.ruleInputs ==> p.0 in t.rules)
    && (forall p :: p in t.ruleOutputs ==> p.0 in t.rules)
  }

  function Configured(records: seq<RuleRecord>): set<Name> {
    set r | r in records :: r.name
  }

  function Members(rule: Name, instances: seq<Name>): set<(Name, Name)> {
    set i | i in instances :: (rule, i)
  }

  /** The pairs that do not belong to the rule. */
  function Without(pairs: set<(Name, Name)>, rule: Name): set<(Name, Name)> {
    set p | p in pairs && p.0 != rule
  }

  // -- mirroring the configuration --------------------------------------------------------

  /** The record that counts for a rule: the last one of its name. */
  function LastOf(records: seq<RuleRecord>, n: Name): Option<RuleRecord> {
    if records == [] then None
    else
      var last := records[|records| - 1];
      if last.name == n then Some(last) else LastOf(records[..|records| - 1], n)
  }

  lemma {:induction false} LastOfConfigured(records: seq<RuleRecord>, n: Name)
    ensures LastOf(records, n).Some? <==> n in Configured(records)
    ensures LastOf(records, n).Some? ==> LastOf(records, n).value in records && LastOf(records, n).value.name == n
  {
    if records != [] {
      var before := records[..|records| - 1];
      LastOfConfigured(before, n);
      assert records == before + [records[|records| - 1]];
    }
  }

  lemma LastOfMore(done: seq<RuleRecord>, r: RuleRecord, n: Name)
    ensures LastOf(done + [r], n) == if n == r.name then Some(r) else LastOf(done, n)
  {
    assert (done + [r])[..|done|] == done;
  }

  /** The row of a rule after mirroring: as configured and adopted, or kept and orphaned. */
  function MirroredRow(before: Option<RuleRow>, record: Option<RuleRecord>): Option<RuleRow> {
    match record
    case Some(r) => Some(RuleRow(r.enabled, false))
    case None => if before.Some? then Some(before.value.(orphaned := true)) else None
  }

  /** The latch row of a rule after mirroring: never altered, and cleared for a new rule. */
  function MirroredLatch(before: Option<Latch>, record: Option<RuleRecord>): Option<Latch> {
    if before.None? && record.Some? then Some(UNTOUCHED) else before
  }

  /** Membership pairs are those configured for the rules that are, and as before for the others. */
  ghost predicate MembersAre(before: set<(Name, Name)>, after: set<(Name, Name)>, records: seq<RuleRecord>,
                             side: RuleRecord -> seq<Name>) {
    forall p: (Name, Name) ::
      p in after <==> match LastOf(records, p.0) case Some(r) => p.1 in side(r) case None => p in before
  }

  /** The tables after mirroring a configuration, rule by rule. */
  ghost predicate Mirrored(t: RuleTables, t': RuleTables, records: seq<RuleRecord>) {
    && (forall n :: Get(t'.rules, n) == MirroredRow(Get(t.rules, n), LastOf(records, n)))
    && (forall n :: Get(t'.latches, n) == MirroredLatch(Get(t.latches, n), LastOf(records, n)))
    && MembersAre(t.ruleInputs, t'.ruleInputs, records, InputsOf())
    && MembersAre(t.ruleOutputs, t'.ruleOutputs, records, OutputsOf())
  }

  /** One configured rule written over the tables. */
  function Upserted(t: RuleTables, r: RuleRecord): RuleTables {
    RuleTables(
      t.rules[r.name := RuleRow(r.enabled, false)],
      Without(t.ruleInputs, r.name) + Members(r.name, r.inputs),
      Without(t.ruleOutputs, r.name) + Members(r.name, r.outputs),
      if r.name in t.latches then t.latches else t.latches[r.name := UNTOUCHED])
  }

  function UpsertedRow(before: Option<RuleRow>, record: Option<RuleRecord>): Option<RuleRow> {
    match record
    case Some(r) => Some(RuleRow(r.enabled, false))
    case None => before
  }

  /** The tables once the first records have been written and nothing has been orphaned yet. */
  ghost predicate Upserting(t: RuleTables, u: RuleTables, done: seq<RuleRecord>) {
    && (forall n :: Get(u.rules, n) == UpsertedRow(Get(t.rules, n), LastOf(done, n)))
    && (forall n :: Get(u.latches, n) == MirroredLatch(Get(t.latches, n), LastOf(done, n)))
    && MembersAre(t.ruleInputs, u.ruleInputs, done, InputsOf())
    && MembersAre(t.ruleOutputs, u.ruleOutputs, done, OutputsOf())
  }

  /** The list names the rules that were orphaned before and are configured, each once. */
  ghost predicate Readopts(t: RuleTables, done: seq<RuleRecord>, readopted: seq<Name>) {
    && Distinct(readopted)
    && forall n :: n in readopted <==> n in t.rules && t.rules[n].orphaned && LastOf(done, n).Some?
  }

  lemma ReadoptOne(t: RuleTables, u: RuleTables, done: seq<RuleRecord>, r: RuleRecord, readopted: seq<Name>)
    requires Upserting(t, u, done) && Readopts(t, done, readopted)
    ensures Readopts(t, done + [r],
                     if r.name in u.rules && u.rules[r.name].orphaned then readopted + [r.name] else readopted)
  {
    forall n ensures LastOf(done + [r], n) == if n == r.name then Some(r) else LastOf(done, n) {
      LastOfMore(done, r, n);
    }
    assert Get(u.rules, r.name) == UpsertedRow(Get(t.rules, r.name), LastOf(done, r.name));
  }

  lemma MembersOne(before: set<(Name, Name)>, after: set<(Name, Name)>, done: seq<RuleRecord>, r: RuleRecord,
                   side: RuleRecord -> seq<Name>)
    requires MembersAre(before, after, done, side)
    ensures MembersAre(before, Without(after, r.name) + Members(r.name, side(r)), done + [r], side)
  {
    forall n ensures LastOf(done + [r], n) == if n == r.name then Some(r) else LastOf(done, n) {
      LastOfMore(done, r, n);
    }
  }

  lemma RowsOne(t: RuleTables, u: RuleTables, done: seq<RuleRecord>, r: RuleRecord, n: Name)
    requires Get(u.rules, n) == UpsertedRow(Get(t.rules, n), LastOf(done, n))
    requires Get(u.latches, n) == MirroredLatch(Get(t.latches, n), LastOf(done, n))
    ensures Get(Upserted(u, r).rules, n) == UpsertedRow(Get(t.rules, n), LastOf(done + [r], n))
    ensures Get(Upserted(u, r).latches, n) == MirroredLatch(Get(t.latches, n), LastOf(done + [r], n))
  {
    LastOfMore(done, r, n);
  }

  lemma UpsertOne(t: RuleTables, u: RuleTables, done: seq<RuleRecord>, r: RuleRecord)
    requires Upserting(t, u, done)
    ensures Upserting(t, Upserted(u, r), done + [r])
  {
    MembersOne(t.ruleInputs, u.ruleInputs, done, r, InputsOf());
    MembersOne(t.ruleOutputs, u.ruleOutputs, done, r, OutputsOf());
    var u' := Upserted(u, r);
    forall n
      ensures Get(u'.rules, n) == UpsertedRow(Get(t.rules, n), LastOf(done + [r], n))
      ensures Get(u'.latches, n) == MirroredLatch(Get(t.latches, n), LastOf(done + [r], n))
    {
      RowsOne(t, u, done, r, n);
    }
  }

  lemma UpsertNext(t: RuleTables, u: RuleTables, records: seq<RuleRecord>, k: nat, readopted: seq<Name>)
    requires k < |records| && Upserting(t, u, records[..k]) && Readopts(t, records[..k], readopted)
    ensures Upserting(t, Upserted(u, records[k]), records[..k + 1])
    ensures
      var n := records[k].name;
      Readopts(t, records[..k + 1], if n in u.rules && u.rules[n].orphaned then readopted + [n] else readopted)
  {
    assert records[..k + 1] == records[..k] + [records[k]];
    UpsertOne(t, u, records[..k], records[k]);
    ReadoptOne(t, u, records[..k], records[k], readopted);
  }

  function InputsOf(): RuleRecord -> seq<Name> { (r: RuleRecord) => r.inputs }

  function OutputsOf(): RuleRecord -> seq<Name> { (r: RuleRecord) => r.outputs }

  lemma OrphaningMirrors(t: RuleTables, u: RuleTables, t': RuleTables, records: seq<RuleRecord>)
    requires Upserting(t, u, records)
    requires t' == u.(rules := t'.rules) && t'.rules.Keys == u.rules.Keys
    requires forall n :: n in t'.rules ==>
               t'.rules[n] == u.rules[n].(orphaned := u.rules[n].orphaned || n !in Configured(records))
    ensures Mirrored(t, t', records)
  {
    forall n ensures Get(t'.rules, n) == MirroredRow(Get(t.rules, n), LastOf(records, n)) {
      LastOfConfigured(records, n);
      assert Get(u.rules, n) == UpsertedRow(Get(t.rules, n), LastOf(records, n));
    }
  }

  /** What mirroring means: a rule is orphaned exactly when the configuration lacks it, no rule is dropped, and no latch
      is altered or lost. */
  lemma MirroringMeans(t: RuleTables, t': RuleTables, records: seq<RuleRecord>, n: Name)
    requires Mirrored(t, t', records)
    ensures n in t'.rules <==> n in t.rules || n in Configured(records)
    ensures n in t'.rules ==> (t'.rules[n].orphaned <==> n !in Configured(records))
    ensures n in t'.latches <==> n in t.latches || n in Configured(records)
    ensures LatchIn(t'.latches, n) == LatchIn(t.latches, n)
  {
    LastOfConfigured(records, n);
    assert Get(t'.rules, n) == MirroredRow(Get(t.rules, n), LastOf(records, n));
    assert Get(t'.latches, n) == MirroredLatch(Get(t.latches, n), LastOf(records, n));
  }

  /** Writing the records touches only the rows of configured rules. */
  lemma OrphanedExactly(t: RuleTables, u: RuleTables, records: seq<RuleRecord>)
    requires Upserting(t, u, records)
    ensures forall n :: n in Configured(records) <==> LastOf(records, n).Some?
    ensures forall n :: n !in Configured(records) ==> Get(u.rules, n) == Get(t.rules, n)
  {
    forall n
      ensures n in Configured(records) <==> LastOf(records, n).Some?
      ensures n !in Configured(records) ==> Get(u.rules, n) == Get(t.rules, n)
    {
      LastOfConfigured(records, n);
    }
  }

  /** The record that counts is the last of its name. */
  lemma {:induction false} LastOfIsLast(records: seq<RuleRecord>, n: Name, r: RuleRecord)
    ensures LastOf(records, n) == Some(r) <==>
            exists k :: 0 <= k < |records| && records[k] == r && r.name == n
                        && forall j :: k < j < |records| ==> records[j].name != n
  {
    if records != [] {
      var m := |records| - 1;
      var before := records[..m];
      LastOfIsLast(before, n, r);
      if records[m].name == n && records[m] == r {
        assert records[m] == r && r.name == n;
      } else if records[m].name != n {
        if k :| 0 <= k < m && before[k] == r && r.name == n && forall j :: k < j < m ==> before[j].name != n {
          assert records[k] == r && forall j :: k < j < |records| ==> records[j].name != n;
        }
        if k :| 0 <= k < |records| && records[k] == r && r.name == n
                && forall j :: k < j < |records| ==> records[j].name != n {
          assert k < m && before[k] == r && forall j :: k < j < m ==> before[j].name != n;
        }
      }
    }
  }

  /** A configured rule has the flag and the members of its record, and a cleared latch with no triggers if it is new; a
      rule that is not configured keeps its flag and its members. */
  lemma MirroredContents(t: RuleTables, t': RuleTables, records: seq<RuleRecord>, n: Name, instance: Name)
    requires Mirrored(t, t', records)
    ensures forall r :: LastOf(records, n) == Some(r) ==>
              && n in t'.rules && t'.rules[n].enabled == r.enabled
              && ((n, instance) in t'.ruleInputs <==> instance in r.inputs)
              && ((n, instance) in t'.ruleOutputs <==> instance in r.outputs)
              && (n !in t.latches ==> t'.latches[n] == Latch(false, None, None, 0, None, None))
    ensures LastOf(records, n).None? ==>
              && (n in t.rules ==> t'.rules[n].enabled == t.rules[n].enabled)
              && ((n, instance) in t'.ruleInputs <==> (n, instance) in t.ruleInputs)
              && ((n, instance) in t'.ruleOutputs <==> (n, instance) in t.ruleOutputs)
  {
    assert Get(t'.rules, n) == MirroredRow(Get(t.rules, n), LastOf(records, n));
    assert Get(t'.latches, n) == MirroredLatch(Get(t.latches, n), LastOf(records, n));
    assert (n, instance).0 == n;
    LastOfConfigured(records, n);
    MirroringMeans(t, t', records, n);
  }

  // -- any number of configurations -----------------------------------------------------------

  /** Over any sequence of configurations, latch rows are never altered or lost, the foreign keys hold, and a rule is
      orphaned exactly when the latest configuration lacks it. */
  lemma {:induction false} MirrorLifecycle(trace: seq<RuleTables>, configs: seq<seq<RuleRecord>>)
    requires |trace| == |configs| + 1
    requires forall k :: 0 <= k < |configs| ==> Mirrored(trace[k], trace[k + 1], configs[k])
    requires ForeignKeys(trace[0])
    ensures ForeignKeys(trace[|configs|])
    ensures trace[0].latches.Keys <= trace[|configs|].latches.Keys
    ensures forall n :: LatchIn(trace[|configs|].latches, n) == LatchIn(trace[0].latches, n)
    ensures configs != [] ==> forall n :: n in trace[|configs|].rules ==>
              (trace[|configs|].rules[n].orphaned <==> n !in Configured(configs[|configs| - 1]))
  {
    if configs != [] {
      var k := |configs| - 1;
      MirrorLifecycle(trace[..k + 1], configs[..k]);
      assert Mirrored(trace[k], trace[k + 1], configs[k]);
      forall n
        ensures LatchIn(trace[k + 1].latches, n) == LatchIn(trace[0].latches, n)
        ensures n in trace[0].latches ==> n in trace[k + 1].latches
        ensures n in trace[k + 1].rules ==> (trace[k + 1].rules[n].orphaned <==> n !in Configured(configs[k]))
      {
        MirroringMeans(trace[k], trace[k + 1], configs[k], n);
        assert LatchIn(trace[k].latches, n) == LatchIn(trace[0].latches, n);
      }
      MirrorKeepsKeys(trace[k], trace[k + 1], configs[k]);
    }
  }

  lemma MirrorKeepsKeys(t: RuleTables, t': RuleTables, records: seq<RuleRecord>)
    requires Mirrored(t, t', records) && ForeignKeys(t)
    ensures ForeignKeys(t')
  {
    forall n
      ensures n in t'.latches ==> n in t'.rules
      ensures LastOf(records, n).Some? || n in t.rules ==> n in t'.rules
    {
      MirroringMeans(t, t', records, n);
      LastOfConfigured(records, n);
    }
  }

  // -- renaming ---------------------------------------------------------------------------------

  function Repointed(pairs: set<(Name, Name)>, old_: Name, new_: Name): set<(Name, Name)> {
    set p | p in pairs :: (if p.0 == old_ then new_ else p.0, p.1)
  }

  function MovedLatch(latches: map<Name, Latch>, old_: Name, new_: Name): map<Name, Latch> {
    if old_ in latches then (latches - {old_})[new_ := latches[old_]] else latches
  }

  /** The statements of a rename, one after another. */
  function RenameStatements(t: RuleTables, old_: Name, new_: Name): seq<RuleTables>
    requires old_ in t.rules
  {
    var t1 := t.(rules := t.rules[new_ := RuleRow(t.rules[old_].enabled, false)]);
    var t2 := t1.(latches := MovedLatch(t1.latches, old_, new_));
    var t3 := t2.(ruleInputs := Repointed(t2.ruleInputs, old_, new_));
    var t4 := t3.(ruleOutputs := Repointed(t3.ruleOutputs, old_, new_));
    [t1, t2, t3, t4, t4.(rules := t4.rules - {old_})]
  }

  function Renamed(t: RuleTables, old_: Name, new_: Name): RuleTables
    requires old_ in t.rules
  {
    RenameStatements(t, old_, new_)[4]
  }

  /** No statement of a rename leaves a child row without its rule. */
  lemma RenameKeepsKeys(t: RuleTables, old_: Name, new_: Name)
    requires ForeignKeys(t) && old_ in t.rules && new_ !in t.rules
    ensures forall k :: 0 <= k < 5 ==> ForeignKeys(RenameStatements(t, old_, new_)[k])
  {
  }

  /** Renaming back restores every table, except that the rule is no longer marked orphaned. */
  lemma RenameRoundTrip(t: RuleTables, old_: Name, new_: Name)
    requires ForeignKeys(t) && old_ in t.rules && new_ !in t.rules
    ensures Renamed(Renamed(t, old_, new_), new_, old_)
         == t.(rules := t.rules[old_ := RuleRow(t.rules[old_].enabled, false)])
  {
    var there := Renamed(t, old_, new_);
    var back := Renamed(there, new_, old_);
    assert back.rules == t.rules[old_ := RuleRow(t.rules[old_].enabled, false)];
    assert back.latches == t.latches;
    RepointRoundTrip(t.ruleInputs, old_, new_);
    RepointRoundTrip(t.ruleOutputs, old_, new_);
  }

  /** A rename carries the flag, the latch and the members of the rule over to its new name, orphaned no more, and
      leaves every other rule alone. */
  lemma RenamedMeans(t: RuleTables, old_: Name, new_: Name, n: Name, instance: Name)
    requires ForeignKeys(t) && old_ in t.rules && new_ !in t.rules
    ensures
      var t' := Renamed(t, old_, new_);
      var from := if n == new_ then old_ else n;
      && old_ !in t'.rules && Get(t'.rules, new_) == Some(RuleRow(t.rules[old_].enabled, false))
      && (n != old_ && n != new_ ==> Get(t'.rules, n) == Get(t.rules, n))
      && (n != old_ ==> Get(t'.latches, n) == Get(t.latches, from))
      && (n != old_ ==> ((n, instance) in t'.ruleInputs <==> (from, instance) in t.ruleInputs))
      && (n != old_ ==> ((n, instance) in t'.ruleOutputs <==> (from, instance) in t.ruleOutputs))
      && old_ !in t'.latches && (old_, instance) !in t'.ruleInputs + t'.ruleOutputs
  {
    RepointedMeans(t.ruleInputs, old_, new_, n, instance);
    RepointedMeans(t.ruleOutputs, old_, new_, n, instance);
  }

  lemma RepointedMeans(pairs: set<(Name, Name)>, old_: Name, new_: Name, n: Name, instance: Name)
    requires old_ != new_ && forall p :: p in pairs ==> p.0 != new_
    ensures (old_, instance) !in Repointed(pairs, old_, new_)
    ensures n != old_ ==> ((n, instance) in Repointed(pairs, old_, new_) <==>
                           (if n == new_ then old_ else n, instance) in pairs)
  {
    var p := (if n == new_ then old_ else n, instance);
    if n != old_ && p in pairs {
      assert (if p.0 == old_ then new_ else p.0, p.1) == (n, instance);
    }
  }

  lemma RepointRoundTrip(pairs: set<(Name, Name)>, old_: Name, new_: Name)
    requires forall p :: p in pairs ==> p.0 != new_
    ensures Repointed(Repointed(pairs, old_, new_), new_, old_) == pairs
  {
    var there := Repointed(pairs, old_, new_);
    forall p | p in pairs ensures p in Repointed(there, new_, old_) {
      var q := (if p.0 == old_ then new_ else p.0, p.1);
      assert q in there;
      assert p == (if q.0 == new_ then old_ else q.0, q.1);
    }
  }

  // -- purging -------------------------------------------------------------------------------------

  /** The tables without some rules and everything that refers to them. */
  function RulesOutside(t: RuleTables, gone: set<Name>): RuleTables {
    RuleTables(t.rules - gone, PairsOutside(t.ruleInputs, gone), PairsOutside(t.ruleOutputs, gone), t.latches - gone)
  }

  function PairsOutside(pairs: set<(Name, Name)>, gone: set<Name>): set<(Name, Name)> {
    set p | p in pairs && p.0 !in gone
  }

  function KeysOutside(kv: map<(Name, string), string>, gone: set<Name>): map<(Name, string), string> {
    map k | k in kv && k.0 !in gone :: kv[k]
  }

  /** Exactly the rules that are gone go, with their latches and members. */
  lemma PurgeMeans(t: RuleTables, gone: set<Name>, n: Name, instance: Name)
    ensures
      var t' := RulesOutside(t, gone);
      && Get(t'.rules, n) == (if n in gone then None else Get(t.rules, n))
      && Get(t'.latches, n) == (if n in gone then None else Get(t.latches, n))
      && ((n, instance) in t'.ruleInputs <==> (n, instance) in t.ruleInputs && n !in gone)
      && ((n, instance) in t'.ruleOutputs <==> (n, instance) in t.ruleOutputs && n !in gone)
  {
  }

  /** Exactly the stored values of the instances that are gone go. */
  lemma KeysOutsideMeans(kv: map<(Name, string), string>, gone: set<Name>, n: Name, key: string)
    ensures Get(KeysOutside(kv, gone), (n, key)) == if n in gone then None else Get(kv, (n, key))
  {
  }

  lemma MinusMore<K, V>(m: map<K, V>, gone: set<K>, x: K)
    ensures m - gone - {x} == m - (gone + {x})
  {
  }

  lemma RulesOutsideNone(t: RuleTables)
    ensures RulesOutside(t, {}) == t
  {
  }

  lemma RulesOutsideMore(t: RuleTables, gone: set<Name>, x: Name)
    ensures
      var u := RulesOutside(t, gone);
      RulesOutside(t, gone + {x}) ==
      RuleTables(u.rules - {x}, Without(u.ruleInputs, x), Without(u.ruleOutputs, x), u.latches - {x})
  {
    MinusMore(t.rules, gone, x);
    MinusMore(t.latches, gone, x);
  }

  lemma KeysOutsideMore(kv: map<(Name, string), string>, gone: set<Name>, x: Name)
    ensures KeysOutside(KeysOutside(kv, gone), {x}) == KeysOutside(kv, gone + {x})
  {
  }

  datatype StorageResult = Done | NoSuchRule | NameTaken

  // -- the store ------------------------------------------------------------------------------------

  class Store {
    var rules: map<Name, RuleRow>
    var ruleInputs: set<(Name, Name)>
    var ruleOutputs: set<(Name, Name)>
    var latches: map<Name, Latch>
    var instances: map<Name, InstanceRow>
    var pluginKv: map<(Name, string), string>
    var outputState: map<Name, OutputState>
    var pending: map<Name, Push>

    ghost function RuleSide(): RuleTables
      reads this
    {
      RuleTables(rules, ruleInputs, ruleOutputs, latches)
    }

    constructor ()
      ensures RuleSide() == RuleTables(map[], {}, {}, map[])
      ensures instances == map[] && pluginKv == map[] && outputState == map[] && pending == map[]
    {
      rules, ruleInputs, ruleOutputs, latches := map[], {}, {}, map[];
      instances, pluginKv, outputState, pending := map[], map[], map[], map[];
    }

    // -- configuration mirror ---------------------------------------------------------------

    /** Writes one configured rule over its row, its members and, unless it has one, its latch. */
    method UpsertRule(r: RuleRecord)
      modifies this`rules, this`ruleInputs, this`ruleOutputs, this`latches
      ensures RuleSide() == Upserted(old(RuleSide()), r)
    {
      rules := rules[r.name := RuleRow(r.enabled, false)];
      if r.name !in latches {
        latches := latches[r.name := UNTOUCHED];
      }
      ruleInputs := Without(ruleInputs, r.name) + Members(r.name, r.inputs);
      ruleOutputs := Without(ruleOutputs, r.name) + Members(r.name, r.outputs);
    }

    /** Writes every configured rule and lists those that were orphaned. */
    method UpsertRules(records: seq<RuleRecord>) returns (readopted: seq<Name>)
      modifies this`rules, this`ruleInputs, this`ruleOutputs, this`latches
      ensures Upserting(old(RuleSide()), RuleSide(), records)
      ensures Readopts(old(RuleSide()), records, readopted)
    {
      ghost var t := RuleSide();
      readopted := [];
      for k := 0 to |records|
        invariant Upserting(t, RuleSide(), records[..k])
        invariant Readopts(t, records[..k], readopted)
      {
        var r := records[k];
        UpsertNext(t, RuleSide(), records, k, readopted);
        if r.name in rules && rules[r.name].orphaned {
          readopted := readopted + [r.name];
        }
        UpsertRule(r);
      }
      assert records[..|records|] == records;
    }

    /** Mirrors the configured rules and reports the exact differences. */
    method SyncRules(records: seq<RuleRecord>) returns (newlyOrphaned: seq<Name>, readopted: seq<Name>)
      modifies this`rules, this`ruleInputs, this`ruleOutputs, this`latches
      ensures Mirrored(old(RuleSide()), RuleSide(), records)
      ensures Distinct(newlyOrphaned) && Distinct(readopted)
      ensures forall n :: n in newlyOrphaned <==>
                n in old(rules) && !old(rules)[n].orphaned && n !in Configured(records)
      ensures forall n :: n in readopted <==>
                n in old(rules) && old(rules)[n].orphaned && n in Configured(records)
    {
      ghost var t := RuleSide();
      readopted := UpsertRules(records);
      ghost var u := RuleSide();
      newlyOrphaned := OrphanMissing(Configured(records));
      OrphaningMirrors(t, u, RuleSide(), records);
      OrphanedExactly(t, u, records);
    }

    /** Marks every rule outside the configuration that is not marked yet. */
    method OrphanMissing(present: set<Name>) returns (newlyOrphaned: seq<Name>)
      modifies this`rules
      ensures Distinct(newlyOrphaned)
      ensures forall n :: n in newlyOrphaned <==> n in old(rules) && !old(rules)[n].orphaned && n !in present
      ensures rules.Keys == old(rules).Keys
      ensures forall n :: n in rules ==>
                rules[n] == old(rules)[n].(orphaned := old(rules)[n].orphaned || n !in present)
    {
      newlyOrphaned := [];
      var names := ListOf(set n | n in rules && !rules[n].orphaned);
      for k := 0 to |names|
        invariant Distinct(newlyOrphaned)
        invariant forall n :: n in newlyOrphaned <==> n in names[..k] && n !in present
        invariant rules.Keys == old(rules).Keys
        invariant forall n :: n in rules ==>
                    rules[n] == if n in names[..k] && n !in present then old(rules)[n].(orphaned := true)
                                else old(rules)[n]
      {
        assert names[..k + 1] == names[..k] + [names[k]];
        assert names[k] in names && names[k] !in names[..k];
        if names[k] !in present {
          rules := rules[names[k] := rules[names[k]].(orphaned := true)];
          newlyOrphaned := newlyOrphaned + [names[k]];
        }
      }
      assert names[..|names|] == names;
    }

    /** Renames a rule wherever it occurs; a refused rename changes nothing. */
    method RenameRule(oldName: Name, newName: Name) returns (r: StorageResult)
      requires ForeignKeys(RuleSide())
      modifies this`rules, this`ruleInputs, this`ruleOutputs, this`latches
      ensures r.NoSuchRule? <==> oldName !in old(rules)
      ensures r.NameTaken? <==> oldName in old(rules) && newName in old(rules)
      ensures RuleSide() == if r.Done? then Renamed(old(RuleSide()), oldName, newName) else old(RuleSide())
      ensures ForeignKeys(RuleSide())
    {
      if oldName !in rules {
        return NoSuchRule;
      }
      if newName in rules {
        return NameTaken;
      }
      RenameKeepsKeys(RuleSide(), oldName, newName);
      ghost var statements := RenameStatements(RuleSide(), oldName, newName);
      rules := rules[newName := RuleRow(rules[oldName].enabled, false)];
      assert RuleSide() == statements[0];
      if oldName in latches {
        latches := (latches - {oldName})[newName := latches[oldName]];
      }
      assert RuleSide() == statements[1];
      ruleInputs := Repointed(ruleInputs, oldName, newName);
      assert RuleSide() == statements[2];
      ruleOutputs := Repointed(ruleOutputs, oldName, newName);
      assert RuleSide() == statements[3];
      rules := rules - {oldName};
      assert RuleSide() == statements[4];
      return Done;
    }

    /** Deletes the orphaned rules with everything that refers to them, and the state of the orphaned instances. */
    method PurgeOrphans() returns (purgedRules: set<Name>, purgedInstances: set<Name>)
      requires ForeignKeys(RuleSide())
      modifies this
      ensures purgedRules == set n | n in old(rules) && old(rules)[n].orphaned
      ensures purgedInstances == set n | n in old(instances) && old(instances)[n].orphaned
      ensures RuleSide() == RulesOutside(old(RuleSide()), purgedRules) && ForeignKeys(RuleSide())
      ensures instances == old(instances) - purgedInstances
      ensures outputState == old(outputState) - purgedInstances && pending == old(pending) - purgedInstances
      ensures pluginKv == KeysOutside(old(pluginKv), purgedInstances)
    {
      purgedRules := set n | n in rules && rules[n].orphaned;
      purgedInstances := set n | n in instances && instances[n].orphaned;
      PurgeRules(purgedRules);
      PurgeInstances(purgedInstances);
    }

    method PurgeRules(gone: set<Name>)
      requires ForeignKeys(RuleSide())
      modifies this`rules, this`ruleInputs, this`ruleOutputs, this`latches
      ensures RuleSide() == RulesOutside(old(RuleSide()), gone) && ForeignKeys(RuleSide())
    {
      var names := ListOf(gone);
      ghost var t := RuleSide();
      RulesOutsideNone(t);
      for k := 0 to |names|
        invariant RuleSide() == RulesOutside(t, Elems(names[..k]))
      {
        assert Elems(names[..k + 1]) == Elems(names[..k]) + {names[k]};
        RulesOutsideMore(t, Elems(names[..k]), names[k]);
        latches := latches - {names[k]};
        ruleInputs := Without(ruleInputs, names[k]);
        ruleOutputs := Without(ruleOutputs, names[k]);
        rules := rules - {names[k]};
      }
      assert Elems(names[..|names|]) == gone;
    }

    method PurgeInstances(gone: set<Name>)
      modifies this`instances, this`pluginKv, this`outputState, this`pending
      ensures instances == old(instances) - gone
      ensures outputState == old(outputState) - gone && pending == old(pending) - gone
      ensures pluginKv == KeysOutside(old(pluginKv), gone)
    {
      var names := ListOf(gone);
      for k := 0 to |names|
        invariant instances == old(instances) - Elems(names[..k])
        invariant outputState == old(outputState) - Elems(names[..k]) && pending == old(pending) - Elems(names[..k])
        invariant pluginKv == KeysOutside(old(pluginKv), Elems(names[..k]))
      {
        assert Elems(names[..k + 1]) == Elems(names[..k]) + {names[k]};
        KeysOutsideMore(old(pluginKv), Elems(names[..k]), names[k]);
        MinusMore(old(instances), Elems(names[..k]), names[k]);
        MinusMore(old(outputState), Elems(names[..k]), names[k]);
        MinusMore(old(pending), Elems(names[..k]), names[k]);
        pluginKv := KeysOutside(pluginKv, {names[k]});
        outputState := outputState - {names[k]};
        pending := pending - {names[k]};
        instances := instances - {names[k]};
      }
      assert Elems(names[..|names|]) == gone;
    }

    // -- latches, output state and pending pushes --------------------------------------

    method WriteLatch(rule: Name, record: Latch)
      requires rule in rules
      modifies this`latches
      ensures latches == old(latches)[rule := record]
    {
      latches := latches[rule := record];
    }

    method WriteOutputState(instance: Name, record: OutputState)
      modifies this`outputState
      ensures outputState == old(outputState)[instance := record]
    {
      outputState := outputState[instance := record];
    }

    /** A row for an instance takes the place of the one there was. */
    method WritePendingPush(instance: Name, push: Push)
      modifies this`pending
      ensures pending == old(pending)[instance := push]
    {
      pending := pending[instance := push];
    }

    method DeletePendingPush(instance: Name)
      modifies this`pending
      ensures pending == old(pending) - {instance}
    {
      pending := pending - {instance};
    }

    /** The rows due by the moment, each once, by due time and then by name. */
    method PendingPushesDue(moment: Time) returns (due: seq<Name>)
      ensures forall o :: o in due <==> o in pending && pending[o].due <= moment
      ensures Distinct(due) && InPushOrder(pending, due)
    {
      var names := ListOf(set o | o in pending && pending[o].due <= moment);
      due := [];
      for k := 0 to |names|
        invariant InPushOrder(pending, due)
        invariant forall o :: o in due <==> o in names[..k]
      {
        assert names[..k + 1] == names[..k] + [names[k]];
        assert names[k] in names && names[k] !in names[..k];
        assert forall x :: x in names[..k] ==> x in names;
        due := InsertByDue(due, names[k]);
      }
      assert names[..|names|] == names;
      InOrderDistinct(pending, due);
    }

    /** Puts a row before the first that does not come before it. */
    method InsertByDue(due: seq<Name>, o: Name) returns (r: seq<Name>)
      requires InPushOrder(pending, due) && o in pending && o !in due && forall x :: x in due ==> x in pending
      ensures InPushOrder(pending, r) && forall x :: x in r <==> x in due || x == o
    {
      var k := 0;
      while k < |due| && PushBefore(pending, due[k], o)
        invariant 0 <= k <= |due|
        invariant forall i :: 0 <= i < k ==> PushBefore(pending, due[i], o)
      {
        k := k + 1;
      }
      r := due[..k] + [o] + due[k..];
      forall i | k <= i < |due| ensures PushBefore(pending, o, due[i]) {
        assert due[k] in due && due[i] in due;
        PushOrder(pending, o, due[k]);
        if i > k { PushTransitive(pending, o, due[k], due[i]); }
      }
      assert due == due[..k] + due[k..];
    }
  }

  lemma InOrderDistinct(pending: map<Name, Push>, names: seq<Name>)
    requires InPushOrder(pending, names)
    ensures Distinct(names)
  {
    forall i, j | 0 <= i < j < |names| ensures names[i] != names[j] {
      assert PushBefore(pending, names[i], names[j]);
      PushOrder(pending, names[i], names[j]);
    }
  }
}
