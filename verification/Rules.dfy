/** The rule graph, indexed by input and by output, and what the latches make of each output
    (src/noti_mapper/rules.py). */
module Rules {
  import opened Base
  import opened Configuration

  datatype Rule = Rule(name: Name, inputs: seq<Name>, outputs: seq<Name>)

  /** One listing of rules per instance name. */
  type Index = map<Name, seq<Rule>>

  datatype Graph = Graph(rules: map<Name, Rule>, byInput: Index, byOutput: Index)

  function RulesFor(index: Index, instance: Name): seq<Rule> {
    if instance in index then index[instance] else []
  }

  function NamesOf(rules: seq<Rule>): set<Name> {
    set r | r in rules :: r.name
  }

  /** The rule is the one the graph holds under its name. */
  predicate Holds(g: Graph, r: Rule) {
    r.name in g.rules && g.rules[r.name] == r
  }

  /** The rules whose latch an event from this input sets, by naive scan. */
  function TriggeredBy(g: Graph, input: Name): set<Name> {
    set n | n in g.rules && input in g.rules[n].inputs
  }

  /** The rules this output renders and can clear, by naive scan. */
  function RenderedBy(g: Graph, output: Name): set<Name> {
    set n | n in g.rules && output in g.rules[n].outputs
  }

  predicate DistinctNames(rules: seq<Rule>) {
    forall i, j :: 0 <= i < j < |rules| ==> rules[i].name != rules[j].name
  }

  /** Both indices agree with a scan over the rules, and list each rule once. */
  ghost predicate WellIndexed(g: Graph) {
    && (forall n :: n in g.rules ==> g.rules[n].name == n)
    && (forall x, r :: r in RulesFor(g.byInput, x) <==> Holds(g, r) && x in r.inputs)
    && (forall x, r :: r in RulesFor(g.byOutput, x) <==> Holds(g, r) && x in r.outputs)
    && (forall x :: DistinctNames(RulesFor(g.byInput, x)))
    && (forall x :: DistinctNames(RulesFor(g.byOutput, x)))
    && (forall x :: x in g.byInput <==> RulesFor(g.byInput, x) != [])
    && (forall x :: x in g.byOutput <==> RulesFor(g.byOutput, x) != [])
  }

  /** The index lookups are exactly the naive scans. */
  lemma LookupsAreScans(g: Graph, x: Name)
    requires WellIndexed(g)
    ensures NamesOf(RulesFor(g.byInput, x)) == TriggeredBy(g, x)
    ensures NamesOf(RulesFor(g.byOutput, x)) == RenderedBy(g, x)
    ensures x in g.byInput <==> TriggeredBy(g, x) != {}
    ensures x in g.byOutput <==> RenderedBy(g, x) != {}
  {
    forall n | n in TriggeredBy(g, x) ensures n in NamesOf(RulesFor(g.byInput, x)) {
      assert g.rules[n] in RulesFor(g.byInput, x);
    }
    forall n | n in RenderedBy(g, x) ensures n in NamesOf(RulesFor(g.byOutput, x)) {
      assert g.rules[n] in RulesFor(g.byOutput, x);
    }
    if x in g.byInput {
      assert RulesFor(g.byInput, x)[0] in RulesFor(g.byInput, x);
      assert RulesFor(g.byInput, x)[0].name in TriggeredBy(g, x);
    }
    if x in g.byOutput {
      assert RulesFor(g.byOutput, x)[0] in RulesFor(g.byOutput, x);
      assert RulesFor(g.byOutput, x)[0].name in RenderedBy(g, x);
    }
  }

  // -- latch semantics --------------------------------------------------------

  /** What an output should show, looked up through the index. */
  predicate DesiredOutputState(g: Graph, output: Name, latched: set<Name>) {
    exists r :: r in RulesFor(g.byOutput, output) && r.name in latched
  }

  /** Every output of the named rules; names the graph does not hold contribute nothing. */
  function Affected(g: Graph, names: set<Name>): set<Name> {
    set n, o | n in names && n in g.rules && o in g.rules[n].outputs :: o
  }

  method OutputsAffectedBy(g: Graph, names: seq<Name>) returns (affected: set<Name>)
    ensures affected == Affected(g, Elems(names))
  {
    affected := {};
    for i := 0 to |names|
      invariant affected == Affected(g, Elems(names[..i]))
    {
      assert names[..i + 1] == names[..i] + [names[i]];
      assert Elems(names[..i + 1]) == Elems(names[..i]) + {names[i]};
      if names[i] in g.rules {
        affected := affected + Elems(g.rules[names[i]].outputs);
      }
    }
    assert names[..|names|] == names;
  }

  /** The OR over the latches, said without the index. */
  lemma DesiredIsOr(g: Graph, output: Name, latched: set<Name>)
    requires WellIndexed(g)
    ensures DesiredOutputState(g, output, latched) <==> RenderedBy(g, output) * latched != {}
  {
    LookupsAreScans(g, output);
    if n :| n in RenderedBy(g, output) * latched {
      assert g.rules[n] in RulesFor(g.byOutput, output);
    }
    if DesiredOutputState(g, output, latched) {
      var r :| r in RulesFor(g.byOutput, output) && r.name in latched;
      assert r.name in RenderedBy(g, output) * latched;
    }
  }

  /** Frame: changing the latches of some rules can alter only the outputs affected by them. */
  lemma OnlyAffectedChange(g: Graph, names: set<Name>, before: set<Name>, after: set<Name>, output: Name)
    requires WellIndexed(g)
    requires forall n :: n !in names ==> (n in before <==> n in after)
    requires output !in Affected(g, names)
    ensures DesiredOutputState(g, output, before) == DesiredOutputState(g, output, after)
  {
    forall r | r in RulesFor(g.byOutput, output) ensures r.name !in names {
      assert Holds(g, r) && output in r.outputs;
    }
  }

  // -- construction -----------------------------------------------------------

  /** The rule, once per mention of x among the names. */
  function Mentions(r: Rule, names: seq<Name>, x: Name): seq<Rule> {
    if names == [] then []
    else Mentions(r, names[..|names| - 1], x) + (if names[|names| - 1] == x then [r] else [])
  }

  /** What a scan over the rules finds for one instance: a rule once per mention. */
  function Scan(rules: seq<Rule>, side: Rule -> seq<Name>, x: Name): seq<Rule> {
    if rules == [] then []
    else
      var last := rules[|rules| - 1];
      Scan(rules[..|rules| - 1], side, x) + Mentions(last, side(last), x)
  }

  function InputSide(): Rule -> seq<Name> { (r: Rule) => r.inputs }

  function OutputSide(): Rule -> seq<Name> { (r: Rule) => r.outputs }

  /** The index after filing a rule under the names, once per mention. */
  ghost predicate Filed(before: Index, after: Index, rule: Rule, names: seq<Name>) {
    forall x :: RulesFor(after, x) == RulesFor(before, x) + Mentions(rule, names, x)
  }

  lemma FiledOnce(before: Index, after: Index, rule: Rule, names: seq<Name>, i: nat)
    requires i < |names| && Filed(before, after, rule, names[..i])
    ensures Filed(before, after[names[i] := RulesFor(after, names[i]) + [rule]], rule, names[..i + 1])
  {
    var next := after[names[i] := RulesFor(after, names[i]) + [rule]];
    forall x ensures RulesFor(next, x) == RulesFor(before, x) + Mentions(rule, names[..i + 1], x) {
      MentionsGrow(rule, names, i, x);
      FiledAt(after, names[i], rule, x);
      ConcatAssociates(RulesFor(before, x), Mentions(rule, names[..i], x), if names[i] == x then [rule] else []);
    }
  }

  lemma FiledAt(index: Index, name: Name, rule: Rule, x: Name)
    ensures RulesFor(index[name := RulesFor(index, name) + [rule]], x)
         == RulesFor(index, x) + if name == x then [rule] else []
  {
  }

  lemma MentionsGrow(rule: Rule, names: seq<Name>, i: nat, x: Name)
    requires i < |names|
    ensures Mentions(rule, names[..i + 1], x) == Mentions(rule, names[..i], x) + if names[i] == x then [rule] else []
  {
    assert names[..i + 1][..i] == names[..i];
  }

  predicate NoEmptyListing(index: Index) {
    forall x :: x in index ==> index[x] != []
  }

  method FileUnder(index: Index, rule: Rule, names: seq<Name>) returns (r: Index)
    requires NoEmptyListing(index)
    ensures Filed(index, r, rule, names) && NoEmptyListing(r)
  {
    r := index;
    for i := 0 to |names|
      invariant Filed(index, r, rule, names[..i]) && NoEmptyListing(r)
    {
      FiledOnce(index, r, rule, names, i);
      r := r[names[i] := RulesFor(r, names[i]) + [rule]];
    }
    assert names[..|names|] == names;
  }

  /** The index is what a scan over the rules finds. */
  ghost predicate Scanned(index: Index, rules: seq<Rule>, side: Rule -> seq<Name>) {
    forall x :: RulesFor(index, x) == Scan(rules, side, x)
  }

  lemma ScannedOnce(before: Index, after: Index, rules: seq<Rule>, i: nat, side: Rule -> seq<Name>)
    requires i < |rules| && Scanned(before, rules[..i], side) && Filed(before, after, rules[i], side(rules[i]))
    ensures Scanned(after, rules[..i + 1], side)
  {
    forall x ensures RulesFor(after, x) == Scan(rules[..i + 1], side, x) {
      assert rules[..i + 1][..i] == rules[..i];
      assert RulesFor(before, x) == Scan(rules[..i], side, x);
    }
  }

  /** With a repeated name the last rule wins. */
  function LastByName(rules: seq<Rule>): (m: map<Name, Rule>)
    ensures m.Keys == NamesOf(rules)
    ensures forall n :: n in m ==> m[n] in rules && m[n].name == n
  {
    if rules == [] then map[]
    else
      var last := rules[|rules| - 1];
      assert rules == rules[..|rules| - 1] + [last];
      LastByName(rules[..|rules| - 1])[last.name := last]
  }

  /** Builds the graph; a repeated mention of an instance is filed twice. */
  method BuildGraph(rules: seq<Rule>) returns (g: Graph)
    ensures g.rules == LastByName(rules)
    ensures Scanned(g.byInput, rules, InputSide()) && Scanned(g.byOutput, rules, OutputSide())
    ensures CleanRules(rules) ==> WellIndexed(g) && forall r :: Holds(g, r) <==> r in rules
  {
    var held: map<Name, Rule>, ins: Index, outs: Index := map[], map[], map[];
    for i := 0 to |rules|
      invariant held == LastByName(rules[..i])
      invariant Scanned(ins, rules[..i], InputSide()) && Scanned(outs, rules[..i], OutputSide())
      invariant NoEmptyListing(ins) && NoEmptyListing(outs)
    {
      var rule := rules[i];
      assert rules[..i + 1][..i] == rules[..i];
      held := held[rule.name := rule];
      ghost var was := (ins, outs);
      ins := FileUnder(ins, rule, rule.inputs);
      outs := FileUnder(outs, rule, rule.outputs);
      ScannedOnce(was.0, ins, rules, i, InputSide());
      ScannedOnce(was.1, outs, rules, i, OutputSide());
    }
    assert rules[..|rules|] == rules;
    g := Graph(held, ins, outs);
    if CleanRules(rules) {
      BuiltWellIndexed(rules, g);
    }
  }

  /** What the configuration loader guarantees: distinct rule names, no instance listed twice. */
  predicate CleanRules(rules: seq<Rule>) {
    && DistinctNames(rules)
    && (forall r :: r in rules ==> Distinct(r.inputs) && Distinct(r.outputs))
  }

  lemma {:induction false} ScanFinds(rules: seq<Rule>, side: Rule -> seq<Name>, x: Name)
    requires DistinctNames(rules)
    requires forall r :: r in rules ==> Distinct(side(r))
    ensures forall r :: r in Scan(rules, side, x) <==> r in rules && x in side(r)
    ensures DistinctNames(Scan(rules, side, x))
  {
    if rules != [] {
      var n := |rules| - 1;
      var last := rules[n];
      assert rules == rules[..n] + [last];
      ScanFinds(rules[..n], side, x);
      MentionedOnce(last, side(last), x);
      assert forall r :: r in rules[..n] ==> r.name != last.name;
    }
  }

  lemma {:induction false} MentionedOnce(r: Rule, names: seq<Name>, x: Name)
    requires Distinct(names)
    ensures Mentions(r, names, x) == if x in names then [r] else []
  {
    if names != [] {
      var n := |names| - 1;
      assert names == names[..n] + [names[n]];
      MentionedOnce(r, names[..n], x);
    }
  }

  lemma HeldAreListed(rules: seq<Rule>, g: Graph)
    requires DistinctNames(rules) && g.rules == LastByName(rules)
    ensures forall r :: Holds(g, r) <==> r in rules
  {
    forall r ensures Holds(g, r) <==> r in rules {
      if r in rules {
        assert r.name in NamesOf(rules);
        assert g.rules[r.name] in rules && g.rules[r.name].name == r.name;
      }
    }
  }

  lemma BuiltWellIndexed(rules: seq<Rule>, g: Graph)
    requires CleanRules(rules)
    requires g.rules == LastByName(rules)
    requires Scanned(g.byInput, rules, InputSide()) && Scanned(g.byOutput, rules, OutputSide())
    requires NoEmptyListing(g.byInput) && NoEmptyListing(g.byOutput)
    ensures WellIndexed(g)
    ensures forall r :: Holds(g, r) <==> r in rules
  {
    HeldAreListed(rules, g);
    InputsFound(rules, g);
    OutputsFound(rules, g);
  }

  lemma InputsFound(rules: seq<Rule>, g: Graph)
    requires CleanRules(rules) && Scanned(g.byInput, rules, InputSide())
    requires forall r :: Holds(g, r) <==> r in rules
    ensures forall x, r :: r in RulesFor(g.byInput, x) <==> Holds(g, r) && x in r.inputs
    ensures forall x :: DistinctNames(RulesFor(g.byInput, x))
  {
    forall x
      ensures forall r :: r in RulesFor(g.byInput, x) <==> Holds(g, r) && x in r.inputs
      ensures DistinctNames(RulesFor(g.byInput, x))
    {
      ScanFinds(rules, InputSide(), x);
      assert RulesFor(g.byInput, x) == Scan(rules, InputSide(), x);
    }
  }

  lemma OutputsFound(rules: seq<Rule>, g: Graph)
    requires CleanRules(rules) && Scanned(g.byOutput, rules, OutputSide())
    requires forall r :: Holds(g, r) <==> r in rules
    ensures forall x, r :: r in RulesFor(g.byOutput, x) <==> Holds(g, r) && x in r.outputs
    ensures forall x :: DistinctNames(RulesFor(g.byOutput, x))
  {
    forall x
      ensures forall r :: r in RulesFor(g.byOutput, x) <==> Holds(g, r) && x in r.outputs
      ensures DistinctNames(RulesFor(g.byOutput, x))
    {
      ScanFinds(rules, OutputSide(), x);
      assert RulesFor(g.byOutput, x) == Scan(rules, OutputSide(), x);
    }
  }

  // -- from a configuration ---------------------------------------------------------

  function IsEnabled(c: Config): Name -> bool { (n: Name) => n in EnabledInstances(c) }

  /** The rule with its disabled instances removed, in the order listed. */
  function Pruned(c: Config, r: RuleConfig): Rule {
    Rule(r.name, Filter(r.inputs, IsEnabled(c)), Filter(r.outputs, IsEnabled(c)))
  }

  /** What the graph of a configuration holds: its enabled rules without their disabled instances. */
  function GraphRules(c: Config): map<Name, Rule> {
    map n | n in c.rules && c.rules[n].enabled :: Pruned(c, c.rules[n])
  }

  /** The graph of a configuration holds exactly its enabled rules, each with exactly its enabled members, in order. */
  lemma GraphRulesMean(c: Config, n: Name)
    requires WellFormed(c)
    ensures n in GraphRules(c) <==> n in c.rules && c.rules[n].enabled
    ensures n in GraphRules(c) ==>
              && GraphRules(c)[n].name == n
              && KeepsEnabled(c, c.rules[n].inputs, GraphRules(c)[n].inputs)
              && KeepsEnabled(c, c.rules[n].outputs, GraphRules(c)[n].outputs)
  {
    if n in GraphRules(c) {
      assert GoodRule(c, c.rules[n]);
      FilterKeeps(c, c.rules[n].inputs);
      FilterKeeps(c, c.rules[n].outputs);
    }
  }

  /** kept has the enabled instances of members, and no others, without changing their order. */
  ghost predicate KeepsEnabled(c: Config, members: seq<Name>, kept: seq<Name>) {
    && (forall x :: x in kept <==> x in members && x in c.instances && c.instances[x].enabled)
    && (forall a, b :: 0 <= a < b < |kept| ==> InOrderIn(members, kept[a], kept[b]))
  }

  /** x comes before y in the list. */
  ghost predicate InOrderIn(list: seq<Name>, x: Name, y: Name) {
    exists i, j :: 0 <= i < j < |list| && list[i] == x && list[j] == y
  }

  lemma InOrderInMore(list: seq<Name>, m: nat, x: Name, y: Name)
    requires m <= |list| && InOrderIn(list[..m], x, y)
    ensures InOrderIn(list, x, y)
  {
    var i, j :| 0 <= i < j < m && list[..m][i] == x && list[..m][j] == y;
    assert list[i] == x && list[j] == y;
  }

  lemma {:induction false} FilterKeeps(c: Config, members: seq<Name>)
    ensures KeepsEnabled(c, members, Filter(members, IsEnabled(c)))
  {
    if members != [] {
      var m := |members| - 1;
      var before, kept := Filter(members[..m], IsEnabled(c)), Filter(members, IsEnabled(c));
      FilterKeeps(c, members[..m]);
      forall x ensures x in kept <==> x in members && x in c.instances && c.instances[x].enabled {
        FilterMember(members, IsEnabled(c), x);
      }
      forall a, b | 0 <= a < b < |kept| ensures InOrderIn(members, kept[a], kept[b]) {
        if b < |before| {
          assert InOrderIn(members[..m], before[a], before[b]);
          InOrderInMore(members, m, before[a], before[b]);
        } else {
          assert before[a] in before && kept[b] == members[m];
          assert before[a] in members[..m];
          var i :| 0 <= i < m && members[..m][i] == before[a];
          assert members[i] == kept[a];
        }
      }
    }
  }

  method FromConfiguration(c: Config) returns (g: Graph)
    requires WellFormed(c)
    ensures WellIndexed(g)
    ensures g.rules == GraphRules(c)
  {
    var names := ListOf(set n | n in c.rules && c.rules[n].enabled);
    forall k | 0 <= k < |names| ensures names[k] in names && names[k] in c.rules {
      assert names[k] in names;
    }
    var rules: seq<Rule> := [];
    for i := 0 to |names|
      invariant |rules| == i
      invariant forall k :: 0 <= k < i ==> rules[k] == Pruned(c, c.rules[names[k]])
    {
      rules := rules + [Pruned(c, c.rules[names[i]])];
    }
    PrunedClean(c, names, rules);
    g := BuildGraph(rules);
    HeldArePruned(c, names, rules, g);
  }

  lemma HeldArePruned(c: Config, names: seq<Name>, rules: seq<Rule>, g: Graph)
    requires WellFormed(c)
    requires forall n :: n in names <==> n in c.rules && c.rules[n].enabled
    requires |rules| == |names|
    requires forall k :: 0 <= k < |names| ==> names[k] in names && rules[k] == Pruned(c, c.rules[names[k]])
    requires forall r :: Holds(g, r) <==> r in rules
    requires forall n :: n in g.rules ==> g.rules[n].name == n
    ensures g.rules == GraphRules(c)
  {
    forall n | n in GraphRules(c) ensures n in g.rules && g.rules[n] == GraphRules(c)[n] {
      var k :| 0 <= k < |names| && names[k] == n;
      assert rules[k] in rules;
    }
    forall n | n in g.rules ensures n in GraphRules(c) {
      assert Holds(g, g.rules[n]);
      var k :| 0 <= k < |rules| && rules[k] == g.rules[n];
      assert names[k] in names;
    }
  }

  lemma {:induction false} FilterDistinct(names: seq<Name>, p: Name -> bool)
    requires Distinct(names)
    ensures Distinct(Filter(names, p))
  {
    if names != [] {
      var n := |names| - 1;
      assert names == names[..n] + [names[n]];
      FilterDistinct(names[..n], p);
      FilterMember(names[..n], p, names[n]);
    }
  }

  lemma PrunedClean(c: Config, names: seq<Name>, rules: seq<Rule>)
    requires WellFormed(c)
    requires Distinct(names) && forall n :: n in names ==> n in c.rules
    requires |rules| == |names|
    requires forall k :: 0 <= k < |names| ==> rules[k] == Pruned(c, c.rules[names[k]])
    ensures CleanRules(rules)
  {
    forall r | r in rules ensures Distinct(r.inputs) && Distinct(r.outputs) {
      var k :| 0 <= k < |rules| && rules[k] == r;
      var rc := c.rules[names[k]];
      assert GoodRule(c, rc);
      FilterDistinct(rc.inputs, IsEnabled(c));
      FilterDistinct(rc.outputs, IsEnabled(c));
    }
  }
}
