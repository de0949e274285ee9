/** The configuration loader, as far as names, instances and rules go (_Loader of src/noti_mapper/config.py).
    Errors are counted rather than worded. Name normalisation, the uniqueness key, the test for a valid name, and the
    validation of daemon and plugin settings are parameters.

    The first half says, without any order or bookkeeping, which documents are acceptable and what they mean; the class
    is the loader, proved to accept exactly those and to return exactly that. */
module Loader {
  import opened Base
  import opened Configuration

  datatype Json =
    | JString(s: string)
    | JBool(b: bool)
    | JList(elements: seq<Json>)
    | JObject(fields: map<string, Json>)
    | JOther

  type Document = map<string, Json>

  datatype Namespace = Instances | Rules

  datatype Draft = Draft(name: Name, body: map<string, Json>)

  /** What the loader is told about names and plugins; problems counts what is wrong with settings. */
  datatype Rulebook = Rulebook(
    normalize: string -> string,
    key: string -> string,
    valid: string -> bool,
    plugins: map<string, set<Direction>>,
    problems: (string, Json) -> nat,
    daemonProblems: Json -> nat)
  {
    function NameFor(raw: string): Name { Name(normalize(raw)) }

    /** Two names with the same key are the same name to a user. */
    function Key(name: Name): string { key(normalize(name.text)) }
  }

  // -- what is acceptable ---------------------------------------------------------------

  /** A named body of one section of one document. */
  datatype Entry = Entry(document: nat, raw: string, body: Json)

  function EntriesIn(index: nat, container: map<string, Json>): set<Entry> {
    set raw | raw in container :: Entry(index, raw, container[raw])
  }

  function SectionName(ns: Namespace): string {
    if ns.Instances? then "instances" else "rules"
  }

  function SectionEntries(index: nat, document: Document, ns: Namespace): set<Entry> {
    var key := SectionName(ns);
    if key in document && document[key].JObject? then EntriesIn(index, document[key].fields) else {}
  }

  function AllEntries(documents: seq<Option<Document>>, ns: Namespace): set<Entry> {
    if documents == [] then {}
    else
      var n := |documents| - 1;
      AllEntries(documents[..n], ns)
      + if documents[n].Some? then SectionEntries(n, documents[n].value, ns) else {}
  }

  /** Every name is valid and has an object for a body, and no two entries have the same key. */
  ghost predicate GoodNames(book: Rulebook, entries: set<Entry>) {
    && (forall e :: e in entries ==> book.valid(e.raw) && e.body.JObject?)
    && (forall a, b :: a in entries && b in entries && EntryKey(book, a) == EntryKey(book, b) ==> a == b)
  }

  function EntryKey(book: Rulebook, e: Entry): string {
    book.Key(book.NameFor(e.raw))
  }

  function DraftOf(book: Rulebook, e: Entry): Draft
    requires e.body.JObject?
  {
    Draft(book.NameFor(e.raw), e.body.fields)
  }

  /** Only known sections, each an object. */
  predicate GoodSections(document: Document) {
    forall key :: key in document ==> GoodSection(key, document[key])
  }

  predicate GoodSection(key: string, value: Json) {
    key in {"daemon", "instances", "rules"} && value.JObject?
  }

  predicate HasDaemon(document: Document) {
    "daemon" in document && document["daemon"].JObject?
  }

  /** The daemon sections, in document order. */
  function Daemons(documents: seq<Option<Document>>): seq<Json> {
    if documents == [] then []
    else
      var n := |documents| - 1;
      Daemons(documents[..n])
      + if documents[n].Some? && HasDaemon(documents[n].value) then [documents[n].value["daemon"]] else []
  }

  predicate GoodDaemons(book: Rulebook, documents: seq<Option<Document>>) {
    var daemons := Daemons(documents);
    |daemons| <= 1 && forall d :: d in daemons ==> book.daemonProblems(d) == 0
  }

  /** Every document parses, holds only known sections, and no name or daemon section is defined twice. */
  ghost predicate Collectable(book: Rulebook, documents: seq<Option<Document>>) {
    && (forall d :: d in documents ==> d.Some? && GoodSections(d.value))
    && GoodDaemons(book, documents)
    && GoodNames(book, AllEntries(documents, Instances))
    && GoodNames(book, AllEntries(documents, Rules))
  }

  /** A flag is a boolean where it is given, and true where it is not. */
  predicate GoodFlag(body: map<string, Json>) {
    "enabled" in body ==> body["enabled"].JBool?
  }

  predicate Flag(body: map<string, Json>) {
    "enabled" in body ==> body["enabled"] == JBool(true)
  }

  function SettingsIn(body: map<string, Json>): Json {
    if "config" in body then body["config"] else JObject(map[])
  }

  predicate GoodInstance(book: Rulebook, body: map<string, Json>) {
    && body.Keys <= {"plugin", "config", "enabled"}
    && "plugin" in body && body["plugin"].JString? && body["plugin"].s in book.plugins
    && GoodFlag(body)
    && SettingsIn(body).JObject? && book.problems(body["plugin"].s, SettingsIn(body)) == 0
  }

  function InstanceFor(book: Rulebook, draft: Draft): InstanceConfig
    requires GoodInstance(book, draft.body)
  {
    var plugin := draft.body["plugin"].s;
    InstanceConfig(draft.name, plugin, book.plugins[plugin], Flag(draft.body))
  }

  predicate AllStrings(listed: seq<Json>) {
    forall k :: 0 <= k < |listed| ==> listed[k].JString?
  }

  function Named(book: Rulebook, listed: seq<Json>): seq<Name>
    requires AllStrings(listed)
  {
    seq(|listed|, k requires 0 <= k < |listed| => book.NameFor(listed[k].s))
  }

  /** The list under the key names instances of the direction, at least one, none twice. */
  predicate GoodList(book: Rulebook, body: map<string, Json>, key: string, d: Direction,
                     instances: map<Name, InstanceConfig>) {
    && key in body && body[key].JList? && GoodListed(book, body[key].elements, d, instances)
  }

  predicate GoodListed(book: Rulebook, listed: seq<Json>, d: Direction, instances: map<Name, InstanceConfig>) {
    AllStrings(listed) && GoodMembers(Config(instances, map[]), Named(book, listed), d)
  }

  predicate GoodRuleBody(book: Rulebook, body: map<string, Json>, instances: map<Name, InstanceConfig>) {
    && body.Keys <= {"inputs", "outputs", "enabled"}
    && GoodList(book, body, "inputs", Input, instances)
    && GoodList(book, body, "outputs", Output, instances)
    && Elems(Named(book, body["inputs"].elements)) * Elems(Named(book, body["outputs"].elements)) == {}
    && GoodFlag(body)
  }

  function RuleFor(book: Rulebook, draft: Draft, instances: map<Name, InstanceConfig>): RuleConfig
    requires GoodRuleBody(book, draft.body, instances)
  {
    RuleConfig(draft.name, Named(book, draft.body["inputs"].elements), Named(book, draft.body["outputs"].elements),
               Flag(draft.body))
  }

  ghost predicate GoodInstances(book: Rulebook, entries: set<Entry>) {
    GoodNames(book, entries) && forall e :: e in entries ==> GoodInstance(book, e.body.fields)
  }

  ghost predicate GoodRules(book: Rulebook, entries: set<Entry>, instances: map<Name, InstanceConfig>) {
    GoodNames(book, entries) && forall e :: e in entries ==> GoodRuleBody(book, e.body.fields, instances)
  }

  ghost function InstancesFor(book: Rulebook, entries: set<Entry>): map<Name, InstanceConfig>
    requires GoodInstances(book, entries)
  {
    map e | e in entries :: book.NameFor(e.raw) := InstanceFor(book, DraftOf(book, e))
  }

  ghost function RulesFor(book: Rulebook, entries: set<Entry>, instances: map<Name, InstanceConfig>)
    : map<Name, RuleConfig>
    requires GoodRules(book, entries, instances)
  {
    map e | e in entries :: book.NameFor(e.raw) := RuleFor(book, DraftOf(book, e), instances)
  }

  /** There is a document, all of them can be collected, and every instance and every rule is good. */
  ghost predicate Acceptable(book: Rulebook, documents: seq<Option<Document>>) {
    && documents != [] && Collectable(book, documents)
    && GoodInstances(book, AllEntries(documents, Instances))
    && GoodRules(book, AllEntries(documents, Rules), InstancesFor(book, AllEntries(documents, Instances)))
  }

  /** What acceptable documents mean. */
  ghost function Meaning(book: Rulebook, documents: seq<Option<Document>>): Config
    requires Acceptable(book, documents)
  {
    var instances := InstancesFor(book, AllEntries(documents, Instances));
    Config(instances, RulesFor(book, AllEntries(documents, Rules), instances))
  }

  /** Names of one namespace that a user could not tell apart are the same name. */
  ghost predicate UniquelyNamed(book: Rulebook, c: Config) {
    && (forall a, b :: a in c.instances && b in c.instances && book.Key(a) == book.Key(b) ==> a == b)
    && (forall a, b :: a in c.rules && b in c.rules && book.Key(a) == book.Key(b) ==> a == b)
  }

  /** Acceptable documents mean a well-formed configuration: this is what the graph and the engine rely on. */
  lemma MeaningIsWellFormed(book: Rulebook, documents: seq<Option<Document>>)
    requires Acceptable(book, documents)
    ensures WellFormed(Meaning(book, documents)) && UniquelyNamed(book, Meaning(book, documents))
  {
    var c := Meaning(book, documents);
    var ins, outs := AllEntries(documents, Instances), AllEntries(documents, Rules);
    forall n | n in c.rules ensures c.rules[n].name == n && GoodRule(c, c.rules[n]) {
      var e :| e in outs && book.NameFor(e.raw) == n;
      GoodRuleMeans(book, DraftOf(book, e), c.instances, c.rules);
    }
    forall a, b | a in c.instances && b in c.instances && book.Key(a) == book.Key(b) ensures a == b {
      var x :| x in ins && book.NameFor(x.raw) == a;
      var y :| y in ins && book.NameFor(y.raw) == b;
      assert EntryKey(book, x) == EntryKey(book, y);
    }
    forall a, b | a in c.rules && b in c.rules && book.Key(a) == book.Key(b) ensures a == b {
      var x :| x in outs && book.NameFor(x.raw) == a;
      var y :| y in outs && book.NameFor(y.raw) == b;
      assert EntryKey(book, x) == EntryKey(book, y);
    }
  }

  lemma GoodRuleMeans(book: Rulebook, draft: Draft, instances: map<Name, InstanceConfig>, rules: map<Name, RuleConfig>)
    requires GoodRuleBody(book, draft.body, instances)
    ensures GoodRule(Config(instances, rules), RuleFor(book, draft, instances))
  {
  }

  // -- the same, read off the documents ------------------------------------------------------

  /** Document k defines the name in the section, with this body. */
  ghost predicate Defines(documents: seq<Option<Document>>, k: int, section: string, raw: string, body: Json) {
    && 0 <= k < |documents| && documents[k].Some?
    && section in documents[k].value && documents[k].value[section].JObject?
    && raw in documents[k].value[section].fields && documents[k].value[section].fields[raw] == body
  }

  lemma {:induction false} EntriesAre(documents: seq<Option<Document>>, ns: Namespace, e: Entry)
    ensures e in AllEntries(documents, ns) <==>
            Defines(documents, e.document, if ns == Instances then "instances" else "rules", e.raw, e.body)
  {
    if documents != [] {
      EntriesAre(documents[..|documents| - 1], ns, e);
    }
  }

  /** Names are valid, have an object for a body, and differ under the key across documents. */
  ghost predicate NamesRight(book: Rulebook, documents: seq<Option<Document>>, section: string) {
    && (forall k, raw, body :: Defines(documents, k, section, raw, body) ==> book.valid(raw) && body.JObject?)
    && (forall k, raw, body, k', raw', body' ::
          Defines(documents, k, section, raw, body) && Defines(documents, k', section, raw', body')
          && book.key(book.normalize(book.normalize(raw))) == book.key(book.normalize(book.normalize(raw')))
          ==> k == k' && raw == raw')
  }

  lemma NamesExactly(book: Rulebook, documents: seq<Option<Document>>, ns: Namespace)
    ensures GoodNames(book, AllEntries(documents, ns)) <==>
            NamesRight(book, documents, if ns == Instances then "instances" else "rules")
  {
    var section, entries := if ns == Instances then "instances" else "rules", AllEntries(documents, ns);
    forall e ensures e in entries <==> Defines(documents, e.document, section, e.raw, e.body) {
      EntriesAre(documents, ns, e);
    }
    if GoodNames(book, entries) {
      forall k, raw, body | Defines(documents, k, section, raw, body) ensures book.valid(raw) && body.JObject? {
        assert Entry(k, raw, body) in entries;
      }
      forall k, raw, body, k', raw', body' |
        Defines(documents, k, section, raw, body) && Defines(documents, k', section, raw', body')
        && book.key(book.normalize(book.normalize(raw))) == book.key(book.normalize(book.normalize(raw')))
        ensures k == k' && raw == raw'
      {
        assert EntryKey(book, Entry(k, raw, body)) == EntryKey(book, Entry(k', raw', body'));
      }
    }
    if NamesRight(book, documents, section) {
      forall a, b | a in entries && b in entries && EntryKey(book, a) == EntryKey(book, b) ensures a == b {
        assert Defines(documents, a.document, section, a.raw, a.body);
        assert Defines(documents, b.document, section, b.raw, b.body);
      }
    }
  }

  /** Every file parses and holds only the three known sections, each an object. */
  ghost predicate SectionsRight(documents: seq<Option<Document>>) {
    forall k :: 0 <= k < |documents| ==>
      documents[k].Some? && forall key :: key in documents[k].value ==>
        (key == "daemon" || key == "instances" || key == "rules") && documents[k].value[key].JObject?
  }

  ghost predicate DaemonAt(documents: seq<Option<Document>>, k: int) {
    && 0 <= k < |documents| && documents[k].Some?
    && "daemon" in documents[k].value && documents[k].value["daemon"].JObject?
  }

  /** At most one document has a daemon section, and its settings have no problem. */
  ghost predicate DaemonsRight(book: Rulebook, documents: seq<Option<Document>>) {
    && (forall k, m :: DaemonAt(documents, k) && DaemonAt(documents, m) ==> k == m)
    && (forall k :: DaemonAt(documents, k) ==> book.daemonProblems(documents[k].value["daemon"]) == 0)
  }

  lemma {:induction false} DaemonsAre(documents: seq<Option<Document>>)
    ensures Daemons(documents) == [] <==> forall k :: !DaemonAt(documents, k)
    ensures |Daemons(documents)| <= 1 <==> forall k, m :: DaemonAt(documents, k) && DaemonAt(documents, m) ==> k == m
    ensures forall d :: d in Daemons(documents) <==>
              exists k :: DaemonAt(documents, k) && documents[k].value["daemon"] == d
  {
    if documents != [] {
      var n := |documents| - 1;
      var before := documents[..n];
      DaemonsAre(before);
      forall k ensures DaemonAt(before, k) <==> k != n && DaemonAt(documents, k) {}
      forall d ensures d in Daemons(documents) <==>
                       exists k :: DaemonAt(documents, k) && documents[k].value["daemon"] == d {
        if k :| DaemonAt(before, k) && before[k].value["daemon"] == d { assert DaemonAt(documents, k); }
        if k :| DaemonAt(documents, k) && documents[k].value["daemon"] == d {
          assert k != n ==> DaemonAt(before, k) && before[k].value["daemon"] == d;
        }
      }
      if DaemonAt(documents, n) {
        assert |Daemons(documents)| == |Daemons(before)| + 1;
        if k :| DaemonAt(before, k) { assert DaemonAt(documents, k) && k != n; }
      } else {
        assert Daemons(documents) == Daemons(before);
      }
    }
  }

  lemma DaemonsExactly(book: Rulebook, documents: seq<Option<Document>>)
    ensures GoodDaemons(book, documents) <==> DaemonsRight(book, documents)
  {
    DaemonsAre(documents);
    forall k | DaemonAt(documents, k) ensures documents[k].value["daemon"] in Daemons(documents) {}
  }

  /** The body of an instance: known keys only, a known plugin, settings that are an object and have no problem, and
      true or false where it says whether it is enabled. */
  ghost predicate InstanceRight(book: Rulebook, body: map<string, Json>) {
    && (forall key :: key in body ==> key == "plugin" || key == "config" || key == "enabled")
    && "plugin" in body && body["plugin"].JString? && body["plugin"].s in book.plugins
    && ("enabled" in body ==> body["enabled"].JBool?)
    && ("config" in body ==> body["config"].JObject? && book.problems(body["plugin"].s, body["config"]) == 0)
    && ("config" !in body ==> book.problems(body["plugin"].s, JObject(map[])) == 0)
  }

  lemma InstanceExactly(book: Rulebook, body: map<string, Json>)
    ensures GoodInstance(book, body) <==> InstanceRight(book, body)
  {
  }

  /** The list under the key names instances of the direction, at least one, none twice. */
  ghost predicate ListRight(book: Rulebook, body: map<string, Json>, key: string, d: Direction,
                            instances: map<Name, InstanceConfig>) {
    && key in body && body[key].JList? && body[key].elements != []
    && var listed := body[key].elements;
       && (forall j :: 0 <= j < |listed| ==>
             && listed[j].JString? && Name(book.normalize(listed[j].s)) in instances
             && d in instances[Name(book.normalize(listed[j].s))].directions)
       && (forall j, m :: 0 <= j < m < |listed| ==> book.normalize(listed[j].s) != book.normalize(listed[m].s))
  }

  lemma ListExactly(book: Rulebook, body: map<string, Json>, key: string, d: Direction,
                    instances: map<Name, InstanceConfig>)
    ensures GoodList(book, body, key, d, instances) <==> ListRight(book, body, key, d, instances)
  {
    if key in body && body[key].JList? && AllStrings(body[key].elements) {
      var listed := body[key].elements;
      var names := Named(book, listed);
      assert |names| == |listed|;
      assert forall j :: 0 <= j < |listed| ==> names[j] == Name(book.normalize(listed[j].s)) && names[j] in names;
      if ListRight(book, body, key, d, instances) {
        forall m | m in names ensures m in instances && d in instances[m].directions {
          var j :| 0 <= j < |names| && names[j] == m;
        }
      }
    }
  }

  /** The body of a rule: known keys only, right lists with nothing in common, and true or false where it says whether
      it is enabled. */
  ghost predicate RuleRight(book: Rulebook, body: map<string, Json>, instances: map<Name, InstanceConfig>) {
    && (forall key :: key in body ==> key == "inputs" || key == "outputs" || key == "enabled")
    && ListRight(book, body, "inputs", Input, instances) && ListRight(book, body, "outputs", Output, instances)
    && (forall j, m :: 0 <= j < |body["inputs"].elements| && 0 <= m < |body["outputs"].elements| ==>
          book.normalize(body["inputs"].elements[j].s) != book.normalize(body["outputs"].elements[m].s))
    && ("enabled" in body ==> body["enabled"].JBool?)
  }

  lemma RuleExactly(book: Rulebook, body: map<string, Json>, instances: map<Name, InstanceConfig>)
    ensures GoodRuleBody(book, body, instances) <==> RuleRight(book, body, instances)
  {
    ListExactly(book, body, "inputs", Input, instances);
    ListExactly(book, body, "outputs", Output, instances);
    if GoodList(book, body, "inputs", Input, instances) && GoodList(book, body, "outputs", Output, instances) {
      NothingInCommon(book, body["inputs"].elements, body["outputs"].elements);
    }
  }

  lemma NothingInCommon(book: Rulebook, a: seq<Json>, b: seq<Json>)
    requires AllStrings(a) && AllStrings(b)
    ensures Elems(Named(book, a)) * Elems(Named(book, b)) == {} <==>
            forall j, m :: 0 <= j < |a| && 0 <= m < |b| ==> book.normalize(a[j].s) != book.normalize(b[m].s)
  {
    var x, y := Named(book, a), Named(book, b);
    if Elems(x) * Elems(y) == {} {
      forall j, m | 0 <= j < |a| && 0 <= m < |b| ensures book.normalize(a[j].s) != book.normalize(b[m].s) {
        assert x[j] in Elems(x) && y[m] in Elems(y);
        assert x[j] !in Elems(x) * Elems(y);
      }
    } else {
      var n :| n in Elems(x) * Elems(y);
      var j :| 0 <= j < |x| && x[j] == n;
      var m :| 0 <= m < |y| && y[m] == n;
    }
  }

  /** Exactly which documents are accepted, said of the documents themselves. */
  lemma AcceptableExactly(book: Rulebook, documents: seq<Option<Document>>)
    ensures Acceptable(book, documents) <==>
            && documents != [] && SectionsRight(documents) && DaemonsRight(book, documents)
            && NamesRight(book, documents, "instances") && NamesRight(book, documents, "rules")
            && (forall k, raw, body :: Defines(documents, k, "instances", raw, body) ==>
                  body.JObject? && InstanceRight(book, body.fields))
            && GoodInstances(book, AllEntries(documents, Instances))
            && (forall k, raw, body :: Defines(documents, k, "rules", raw, body) ==>
                  body.JObject?
                  && RuleRight(book, body.fields, InstancesFor(book, AllEntries(documents, Instances))))
    ensures GoodInstances(book, AllEntries(documents, Instances)) <==>
            && NamesRight(book, documents, "instances")
            && (forall k, raw, body :: Defines(documents, k, "instances", raw, body) ==>
                  body.JObject? && InstanceRight(book, body.fields))
  {
    DaemonsExactly(book, documents);
    NamesExactly(book, documents, Instances);
    NamesExactly(book, documents, Rules);
    assert (forall d :: d in documents ==> d.Some? && GoodSections(d.value)) <==> SectionsRight(documents) by {
      SectionsExactly(documents);
    }
    InstancesExactly(book, documents);
    if GoodInstances(book, AllEntries(documents, Instances)) {
      RulesExactly(book, documents, InstancesFor(book, AllEntries(documents, Instances)));
    }
  }

  lemma SectionsExactly(documents: seq<Option<Document>>)
    ensures (forall d :: d in documents ==> d.Some? && GoodSections(d.value)) <==> SectionsRight(documents)
  {
    if SectionsRight(documents) {
      forall d | d in documents ensures d.Some? && GoodSections(d.value) {
        var k :| 0 <= k < |documents| && documents[k] == d;
      }
    }
    if forall d :: d in documents ==> d.Some? && GoodSections(d.value) {
      forall k | 0 <= k < |documents|
        ensures documents[k].Some? && forall key :: key in documents[k].value ==>
                  (key == "daemon" || key == "instances" || key == "rules") && documents[k].value[key].JObject?
      {
        assert documents[k] in documents;
        assert forall key :: key in documents[k].value ==> GoodSection(key, documents[k].value[key]);
      }
    }
  }

  lemma InstancesExactly(book: Rulebook, documents: seq<Option<Document>>)
    ensures GoodInstances(book, AllEntries(documents, Instances)) <==>
            && NamesRight(book, documents, "instances")
            && (forall k, raw, body :: Defines(documents, k, "instances", raw, body) ==>
                  body.JObject? && InstanceRight(book, body.fields))
  {
    var entries := AllEntries(documents, Instances);
    NamesExactly(book, documents, Instances);
    forall e ensures e in entries <==> Defines(documents, e.document, "instances", e.raw, e.body) {
      EntriesAre(documents, Instances, e);
    }
    if GoodInstances(book, entries) {
      forall k, raw, body | Defines(documents, k, "instances", raw, body)
        ensures body.JObject? && InstanceRight(book, body.fields)
      {
        assert Entry(k, raw, body) in entries;
        InstanceExactly(book, body.fields);
      }
    }
    forall e | e in entries && e.body.JObject?
      ensures GoodInstance(book, e.body.fields) <==> InstanceRight(book, e.body.fields)
    {
      InstanceExactly(book, e.body.fields);
    }
  }

  lemma RulesExactly(book: Rulebook, documents: seq<Option<Document>>, instances: map<Name, InstanceConfig>)
    ensures GoodRules(book, AllEntries(documents, Rules), instances) <==>
            && NamesRight(book, documents, "rules")
            && (forall k, raw, body :: Defines(documents, k, "rules", raw, body) ==>
                  body.JObject? && RuleRight(book, body.fields, instances))
  {
    var entries := AllEntries(documents, Rules);
    NamesExactly(book, documents, Rules);
    forall e ensures e in entries <==> Defines(documents, e.document, "rules", e.raw, e.body) {
      EntriesAre(documents, Rules, e);
    }
    if GoodRules(book, entries, instances) {
      forall k, raw, body | Defines(documents, k, "rules", raw, body)
        ensures body.JObject? && RuleRight(book, body.fields, instances)
      {
        assert Entry(k, raw, body) in entries;
        RuleExactly(book, body.fields, instances);
      }
    }
    forall e | e in entries && e.body.JObject?
      ensures GoodRuleBody(book, e.body.fields, instances) <==> RuleRight(book, e.body.fields, instances)
    {
      RuleExactly(book, e.body.fields, instances);
    }
  }

  /** A body is enabled unless it says that it is not. */
  predicate SaysDisabled(body: map<string, Json>) {
    "enabled" in body && body["enabled"] == JBool(false)
  }

  lemma InstancesForAt(book: Rulebook, entries: set<Entry>, e: Entry)
    requires GoodInstances(book, entries) && e in entries
    ensures e.body.JObject? && GoodInstance(book, e.body.fields)
    ensures Get(InstancesFor(book, entries), Name(book.normalize(e.raw))) == Some(InstanceFor(book, DraftOf(book, e)))
  {
    SameNameSameEntry(book, entries, e);
  }

  lemma SameNameSameEntry(book: Rulebook, entries: set<Entry>, e: Entry)
    requires GoodNames(book, entries) && e in entries
    ensures forall x :: x in entries && book.NameFor(x.raw) == book.NameFor(e.raw) ==> x == e
  {
    forall x | x in entries && book.NameFor(x.raw) == book.NameFor(e.raw) ensures x == e {
      assert EntryKey(book, x) == EntryKey(book, e);
    }
  }

  lemma RulesForAt(book: Rulebook, entries: set<Entry>, instances: map<Name, InstanceConfig>, e: Entry)
    requires GoodRules(book, entries, instances) && e in entries
    ensures e.body.JObject? && GoodRuleBody(book, e.body.fields, instances)
    ensures Get(RulesFor(book, entries, instances), Name(book.normalize(e.raw)))
         == Some(RuleFor(book, DraftOf(book, e), instances))
  {
    SameNameSameEntry(book, entries, e);
  }

  /** What is loaded for an instance: its normalised name, its plugin and the directions that provides, enabled unless
      the document says otherwise. */
  lemma LoadedInstance(book: Rulebook, documents: seq<Option<Document>>, c: Config, k: nat, raw: string, body: Json)
    requires Acceptable(book, documents) && c == Meaning(book, documents)
    requires Defines(documents, k, "instances", raw, body)
    ensures body.JObject? && "plugin" in body.fields && body.fields["plugin"].JString?
    ensures body.fields["plugin"].s in book.plugins
    ensures Get(c.instances, Name(book.normalize(raw))) ==
            Some(InstanceConfig(Name(book.normalize(raw)), body.fields["plugin"].s,
                                book.plugins[body.fields["plugin"].s], !SaysDisabled(body.fields)))
  {
    var e := Entry(k, raw, body);
    EntriesAre(documents, Instances, e);
    InstancesForAt(book, AllEntries(documents, Instances), e);
    InstanceExactly(book, body.fields);
  }

  /** What is loaded for a rule: its normalised name and those of its members in the order listed, enabled unless the
      document says otherwise. */
  lemma LoadedRule(book: Rulebook, documents: seq<Option<Document>>, c: Config, k: nat, raw: string, body: Json)
    requires Acceptable(book, documents) && c == Meaning(book, documents)
    requires Defines(documents, k, "rules", raw, body)
    ensures body.JObject? && Name(book.normalize(raw)) in c.rules
    ensures
      var r := c.rules[Name(book.normalize(raw))];
      && r.name == Name(book.normalize(raw))
      && Lists(book, body.fields, "inputs", r.inputs) && Lists(book, body.fields, "outputs", r.outputs)
      && (r.enabled <==> !SaysDisabled(body.fields))
  {
    var e := Entry(k, raw, body);
    EntriesAre(documents, Rules, e);
    RulesForAt(book, AllEntries(documents, Rules), c.instances, e);
    RuleForLists(book, DraftOf(book, e), c.instances);
  }

  lemma RuleForLists(book: Rulebook, draft: Draft, instances: map<Name, InstanceConfig>)
    requires GoodRuleBody(book, draft.body, instances)
    ensures
      var r := RuleFor(book, draft, instances);
      && r.name == draft.name
      && Lists(book, draft.body, "inputs", r.inputs) && Lists(book, draft.body, "outputs", r.outputs)
      && (r.enabled <==> !SaysDisabled(draft.body))
  {
  }

  /** Nothing is loaded that no document defines. */
  lemma NothingElseLoaded(book: Rulebook, documents: seq<Option<Document>>, c: Config, n: Name)
    requires Acceptable(book, documents) && c == Meaning(book, documents)
    ensures n in c.instances ==>
              exists k, raw, body :: Defines(documents, k, "instances", raw, body) && Name(book.normalize(raw)) == n
    ensures n in c.rules ==>
              exists k, raw, body :: Defines(documents, k, "rules", raw, body) && Name(book.normalize(raw)) == n
  {
    if n in c.instances {
      var e :| e in AllEntries(documents, Instances) && book.NameFor(e.raw) == n;
      EntriesAre(documents, Instances, e);
      assert Defines(documents, e.document, "instances", e.raw, e.body);
    }
    if n in c.rules {
      var e :| e in AllEntries(documents, Rules) && book.NameFor(e.raw) == n;
      EntriesAre(documents, Rules, e);
      assert Defines(documents, e.document, "rules", e.raw, e.body);
    }
  }

  /** The names are those of the list under the key, in order. */
  ghost predicate Lists(book: Rulebook, body: map<string, Json>, key: string, names: seq<Name>) {
    && key in body && body[key].JList? && |names| == |body[key].elements|
    && forall j :: 0 <= j < |names| ==>
         body[key].elements[j].JString? && names[j] == Name(book.normalize(body[key].elements[j].s))
  }

  // -- what has been collected ------------------------------------------------------------

  ghost function DraftsOf(book: Rulebook, entries: set<Entry>): set<Draft>
    requires forall e :: e in entries ==> e.body.JObject?
  {
    set e | e in entries :: DraftOf(book, e)
  }

  /** The entries seen so far are good, drafted, and registered under their keys. */
  ghost predicate Collected(book: Rulebook, entries: set<Entry>, drafts: seq<Draft>,
                            registry: map<(Namespace, string), Name>, ns: Namespace) {
    && GoodNames(book, entries)
    && Elems(drafts) == DraftsOf(book, entries)
    && (forall e :: e in entries ==> (ns, EntryKey(book, e)) in registry)
    && (forall k :: (ns, k) in registry ==> exists e :: e in entries && EntryKey(book, e) == k)
  }

  /** The part of an object under these keys. */
  function Among(fields: map<string, Json>, keys: seq<string>): map<string, Json> {
    map key | key in keys && key in fields :: fields[key]
  }

  lemma AmongGrows(fields: map<string, Json>, keys: seq<string>, k: nat)
    requires k < |keys| && Distinct(keys) && keys[k] in fields
    ensures keys[k] !in Among(fields, keys[..k])
    ensures Among(fields, keys[..k + 1]) == Among(fields, keys[..k])[keys[k] := fields[keys[k]]]
  {
    assert keys[..k + 1] == keys[..k] + [keys[k]];
  }

  lemma AllAmong(fields: map<string, Json>, keys: seq<string>)
    requires forall key :: key in keys <==> key in fields
    ensures Among(fields, keys[..|keys|]) == fields
  {
    assert keys[..|keys|] == keys;
  }

  lemma EntriesGrow(index: nat, container: map<string, Json>, raws: seq<string>, k: nat)
    requires k < |raws| && Distinct(raws) && forall raw :: raw in raws <==> raw in container
    ensures raws[k] in container
    ensures
      var part, e := Among(container, raws[..k]), Entry(index, raws[k], container[raws[k]]);
      EntriesIn(index, Among(container, raws[..k + 1])) == EntriesIn(index, part) + {e} && e !in EntriesIn(index, part)
  {
    assert raws[k] in raws;
    AmongGrows(container, raws, k);
    var part, more := Among(container, raws[..k]), Among(container, raws[..k + 1]);
    assert Entry(index, raws[k], more[raws[k]]) in EntriesIn(index, more);
    forall x | x in EntriesIn(index, part) ensures x in EntriesIn(index, more) {
      assert more[x.raw] == part[x.raw];
    }
  }

  function Other(ns: Namespace): Namespace {
    if ns.Instances? then Rules else Instances
  }

  /** A new entry with a fresh key keeps the names good; one without spoils them. */
  lemma EntryJoins(book: Rulebook, entries: set<Entry>, e: Entry)
    requires e !in entries && GoodNames(book, entries)
    ensures GoodNames(book, entries + {e}) <==>
              && book.valid(e.raw) && e.body.JObject?
              && forall x :: x in entries ==> EntryKey(book, x) != EntryKey(book, e)
  {
    var more := entries + {e};
    assert e in more;
    forall x | x in entries ensures x in more {}
  }

  lemma DraftJoins(book: Rulebook, entries: set<Entry>, e: Entry, drafts: seq<Draft>,
                   before: map<(Namespace, string), Name>, after: map<(Namespace, string), Name>, ns: Namespace)
    requires Collected(book, entries, drafts, before, ns) && GoodNames(book, entries + {e})
    requires after == before[(ns, EntryKey(book, e)) := book.NameFor(e.raw)]
    ensures e.body.JObject? && Collected(book, entries + {e}, drafts + [DraftOf(book, e)], after, ns)
  {
    assert e in entries + {e};
    assert Elems(drafts + [DraftOf(book, e)]) == Elems(drafts) + {DraftOf(book, e)};
    assert DraftsOf(book, entries + {e}) == DraftsOf(book, entries) + {DraftOf(book, e)};
    forall k | (ns, k) in after ensures exists x :: x in entries + {e} && EntryKey(book, x) == k {
      if k != EntryKey(book, e) {
        var x :| x in entries && EntryKey(book, x) == k;
        assert x in entries + {e};
      }
    }
  }

  // -- what has been built -------------------------------------------------------------------

  /** Drafts of collected entries with the same name are the same draft. */
  lemma DraftsUnique(book: Rulebook, entries: set<Entry>, drafts: seq<Draft>,
                     registry: map<(Namespace, string), Name>, ns: Namespace, a: Draft, b: Draft)
    requires Collected(book, entries, drafts, registry, ns)
    requires a in drafts && b in drafts && a.name == b.name
    ensures a == b
  {
    assert a in Elems(drafts) && b in Elems(drafts);
    var x :| x in entries && DraftOf(book, x) == a;
    var y :| y in entries && DraftOf(book, y) == b;
    assert EntryKey(book, x) == EntryKey(book, y);
  }

  ghost predicate InstancesBuilt(book: Rulebook, drafts: seq<Draft>, instances: map<Name, InstanceConfig>) {
    && instances.Keys == NamesOfDrafts(drafts)
    && forall d :: d in drafts ==> GoodInstance(book, d.body) && instances[d.name] == InstanceFor(book, d)
  }

  ghost predicate RulesBuilt(book: Rulebook, drafts: seq<Draft>, instances: map<Name, InstanceConfig>,
                             rules: map<Name, RuleConfig>) {
    && rules.Keys == NamesOfDrafts(drafts)
    && forall d :: d in drafts ==> GoodRuleBody(book, d.body, instances) && rules[d.name] == RuleFor(book, d, instances)
  }

  function NamesOfDrafts(drafts: seq<Draft>): set<Name> {
    set d | d in drafts :: d.name
  }

  lemma NamesOfEntries(book: Rulebook, entries: set<Entry>, drafts: seq<Draft>, n: Name)
    requires (forall e :: e in entries ==> e.body.JObject?) && Elems(drafts) == DraftsOf(book, entries)
    ensures n in NamesOfDrafts(drafts) <==> exists e :: e in entries && book.NameFor(e.raw) == n
  {
    if d :| d in drafts && d.name == n {
      assert d in Elems(drafts);
    }
    if e :| e in entries && book.NameFor(e.raw) == n {
      assert DraftOf(book, e) in Elems(drafts);
    }
  }

  predicate GoodSettings(book: Rulebook, drafts: seq<Draft>) {
    forall d :: d in drafts ==> GoodInstance(book, d.body)
  }

  lemma SettingsGrow(book: Rulebook, drafts: seq<Draft>, d: Draft)
    ensures GoodSettings(book, drafts + [d]) <==> GoodSettings(book, drafts) && GoodInstance(book, d.body)
  {
    assert d in drafts + [d];
  }

  lemma InstanceDraftsMean(book: Rulebook, entries: set<Entry>, drafts: seq<Draft>,
                           instances: map<Name, InstanceConfig>)
    requires GoodNames(book, entries) && Elems(drafts) == DraftsOf(book, entries)
    ensures GoodInstances(book, entries) <==> GoodSettings(book, drafts)
    ensures InstancesBuilt(book, drafts, instances) ==>
              GoodInstances(book, entries) && instances == InstancesFor(book, entries)
  {
    forall e | e in entries ensures DraftOf(book, e) in drafts {
      assert DraftOf(book, e) in Elems(drafts);
    }
    forall d | d in drafts ensures exists e :: e in entries && DraftOf(book, e) == d {
      assert d in Elems(drafts);
    }
    if InstancesBuilt(book, drafts, instances) {
      forall n ensures Get(instances, n) == Get(InstancesFor(book, entries), n) {
        NamesOfEntries(book, entries, drafts, n);
      }
      SameRows(instances, InstancesFor(book, entries));
    }
  }

  predicate GoodBodies(book: Rulebook, drafts: seq<Draft>, instances: map<Name, InstanceConfig>) {
    forall d :: d in drafts ==> GoodRuleBody(book, d.body, instances)
  }

  lemma BodiesGrow(book: Rulebook, drafts: seq<Draft>, d: Draft, instances: map<Name, InstanceConfig>)
    ensures GoodBodies(book, drafts + [d], instances) <==>
              GoodBodies(book, drafts, instances) && GoodRuleBody(book, d.body, instances)
  {
    assert d in drafts + [d];
  }

  lemma RuleDraftsMean(book: Rulebook, entries: set<Entry>, drafts: seq<Draft>, instances: map<Name, InstanceConfig>,
                       rules: map<Name, RuleConfig>)
    requires GoodNames(book, entries) && Elems(drafts) == DraftsOf(book, entries)
    ensures GoodRules(book, entries, instances) <==> GoodBodies(book, drafts, instances)
    ensures RulesBuilt(book, drafts, instances, rules) ==>
              GoodRules(book, entries, instances) && rules == RulesFor(book, entries, instances)
  {
    forall e | e in entries ensures DraftOf(book, e) in drafts {
      assert DraftOf(book, e) in Elems(drafts);
    }
    forall d | d in drafts ensures exists e :: e in entries && DraftOf(book, e) == d {
      assert d in Elems(drafts);
    }
    if RulesBuilt(book, drafts, instances, rules) {
      forall n ensures Get(rules, n) == Get(RulesFor(book, entries, instances), n) {
        NamesOfEntries(book, entries, drafts, n);
      }
      SameRows(rules, RulesFor(book, entries, instances));
    }
  }

  /** One more listed member, and what makes it a bad one. */
  lemma NextMember(book: Rulebook, listed: seq<Json>, d: Direction, instances: map<Name, InstanceConfig>, k: nat)
    requires k < |listed| && AllStrings(listed[..k])
    ensures !listed[k].JString? ==> !GoodListed(book, listed, d, instances)
    ensures listed[k].JString? ==>
              var name, names := book.NameFor(listed[k].s), Named(book, listed[..k]);
              && AllStrings(listed[..k + 1]) && Named(book, listed[..k + 1]) == names + [name]
              && (name in names || name !in instances || d !in instances[name].directions ==>
                    !GoodListed(book, listed, d, instances))
  {
    if listed[k].JString? && AllStrings(listed) {
      var all := Named(book, listed);
      var names := Named(book, listed[..k]);
      assert all[k] in all;
      assert forall j :: 0 <= j < k ==> all[j] == names[j];
      if all[k] in names {
        var j :| 0 <= j < k && names[j] == all[k];
        assert !Distinct(all);
      }
    }
  }

  // -- the loader -----------------------------------------------------------------------------

  class ConfigLoader {
    const book: Rulebook
    var errors: nat
    var registry: map<(Namespace, string), Name>
    var instanceDrafts: seq<Draft>
    var ruleDrafts: seq<Draft>
    var broken: set<Name>
    ghost var instanceEntries: set<Entry>
    ghost var ruleEntries: set<Entry>

    ghost function Entries(ns: Namespace): set<Entry>
      reads this
    {
      if ns.Instances? then instanceEntries else ruleEntries
    }

    /** While there is no error, everything seen is collected. */
    ghost predicate Valid()
      reads this
    {
      && (errors == 0 ==> Collected(book, instanceEntries, instanceDrafts, registry, Instances))
      && (errors == 0 ==> Collected(book, ruleEntries, ruleDrafts, registry, Rules))
      && (broken != {} ==> errors > 0)
    }

    constructor (book: Rulebook)
      ensures Valid() && this.book == book && errors == 0 && instanceEntries == {} && ruleEntries == {}
    {
      this.book := book;
      errors, registry, instanceDrafts, ruleDrafts, broken := 0, map[], [], [], {};
      instanceEntries, ruleEntries := {}, {};
    }

    // -- names ----------------------------------------------------------------------------

    /** One name of a section. */
    method CollectOne(raw: string, body: Json, ns: Namespace, ghost e: Entry)
      requires Valid() && e.raw == raw && e.body == body && e !in Entries(ns)
      modifies this`errors, this`registry, this`instanceDrafts, this`ruleDrafts, this`instanceEntries, this`ruleEntries
      ensures Valid()
      ensures Entries(ns) == old(Entries(ns)) + {e} && Entries(Other(ns)) == old(Entries(Other(ns)))
      ensures errors == 0 <==> old(errors) == 0 && GoodNames(book, Entries(ns))
    {
      ghost var known := Entries(ns);
      if errors == 0 {
        EntryJoins(book, known, e);
      }
      if ns.Instances? {
        instanceEntries := instanceEntries + {e};
      } else {
        ruleEntries := ruleEntries + {e};
      }
      if !book.valid(raw) {
        errors := errors + 1;
        return;
      }
      var name := book.NameFor(raw);
      if (ns, book.Key(name)) in registry {
        errors := errors + 1;
        return;
      }
      if !body.JObject? {
        errors := errors + 1;
        return;
      }
      if errors == 0 {
        DraftJoins(book, known, e, if ns.Instances? then instanceDrafts else ruleDrafts,
                   registry, registry[(ns, book.Key(name)) := name], ns);
      }
      registry := registry[(ns, book.Key(name)) := name];
      if ns.Instances? {
        instanceDrafts := instanceDrafts + [Draft(name, body.fields)];
      } else {
        ruleDrafts := ruleDrafts + [Draft(name, body.fields)];
      }
    }

    method CollectNamed(container: map<string, Json>, ns: Namespace, ghost index: nat)
      requires Valid() && forall e :: e in Entries(ns) ==> e.document < index
      modifies this`errors, this`registry, this`instanceDrafts, this`ruleDrafts, this`instanceEntries, this`ruleEntries
      ensures Valid()
      ensures Entries(ns) == old(Entries(ns)) + EntriesIn(index, container)
      ensures Entries(Other(ns)) == old(Entries(Other(ns)))
      ensures errors == 0 <==> old(errors) == 0 && GoodNames(book, Entries(ns))
    {
      var raws := ListOf(container.Keys);
      for k := 0 to |raws|
        invariant Valid()
        invariant Entries(ns) == old(Entries(ns)) + EntriesIn(index, Among(container, raws[..k]))
        invariant Entries(Other(ns)) == old(Entries(Other(ns)))
        invariant errors == 0 <==> old(errors) == 0 && GoodNames(book, Entries(ns))
      {
        var raw := raws[k];
        EntriesGrow(index, container, raws, k);
        ghost var known := Entries(ns);
        CollectOne(raw, container[raw], ns, Entry(index, raw, container[raw]));
        NamesShrink(book, known, Entries(ns));
      }
      AllAmong(container, raws);
    }

    // -- shared field helpers ---------------------------------------------------------------

    method RejectUnknownKeys(body: map<string, Json>, allowed: set<string>)
      modifies this`errors
      ensures errors >= old(errors)
      ensures errors == old(errors) <==> body.Keys <= allowed
    {
      var keys := ListOf(body.Keys);
      for k := 0 to |keys|
        invariant errors >= old(errors)
        invariant errors == old(errors) <==> forall j :: 0 <= j < k ==> keys[j] in allowed
      {
        if keys[k] !in allowed {
          errors := errors + 1;
        }
      }
      assert forall j :: 0 <= j < |keys| ==> keys[j] in keys;
    }

    method OptionalBool(body: map<string, Json>) returns (b: bool)
      modifies this`errors
      ensures errors >= old(errors)
      ensures errors == old(errors) <==> GoodFlag(body)
      ensures GoodFlag(body) ==> b == Flag(body)
    {
      if "enabled" !in body {
        return true;
      }
      if !body["enabled"].JBool? {
        errors := errors + 1;
        return true;
      }
      return body["enabled"].b;
    }

    // -- instances -----------------------------------------------------------------------------

    method BuildInstance(draft: Draft) returns (r: Option<InstanceConfig>)
      modifies this`errors
      ensures errors >= old(errors)
      ensures errors == old(errors) <==> GoodInstance(book, draft.body)
      ensures GoodInstance(book, draft.body) ==> r == Some(InstanceFor(book, draft))
    {
      RejectUnknownKeys(draft.body, {"plugin", "config", "enabled"});
      if "plugin" !in draft.body || !draft.body["plugin"].JString? {
        errors := errors + 1;
        return None;
      }
      var plugin := draft.body["plugin"].s;
      if plugin !in book.plugins {
        errors := errors + 1;
        return None;
      }
      var enabled := OptionalBool(draft.body);
      var settings := JObject(map[]);
      if "config" in draft.body {
        if !draft.body["config"].JObject? {
          errors := errors + 1;
          return None;
        }
        settings := draft.body["config"];
      }
      errors := errors + book.problems(plugin, settings);
      return Some(InstanceConfig(draft.name, plugin, book.plugins[plugin], enabled));
    }

    method BuildInstances() returns (instances: map<Name, InstanceConfig>)
      requires Valid()
      modifies this`errors, this`broken
      ensures Valid()
      ensures errors == 0 <==> old(errors) == 0 && GoodInstances(book, instanceEntries)
      ensures errors == 0 ==> instances == InstancesFor(book, instanceEntries)
    {
      instances := map[];
      for k := 0 to |instanceDrafts|
        invariant Valid() && errors >= old(errors)
        invariant errors == 0 <==> old(errors) == 0 && GoodSettings(book, instanceDrafts[..k])
        invariant errors == 0 ==> InstancesBuilt(book, instanceDrafts[..k], instances)
      {
        var draft := instanceDrafts[k];
        assert instanceDrafts[..k + 1] == instanceDrafts[..k] + [draft];
        if errors == 0 {
          forall d | d in instanceDrafts[..k] && d.name == draft.name ensures d == draft {
            DraftsUnique(book, instanceEntries, instanceDrafts, registry, Instances, d, draft);
          }
        }
        SettingsGrow(book, instanceDrafts[..k], draft);
        var instance := BuildInstance(draft);
        if instance.None? {
          broken := broken + {draft.name};
        } else {
          instances := instances[instance.value.name := instance.value];
        }
      }
      assert instanceDrafts[..|instanceDrafts|] == instanceDrafts;
      if old(errors) == 0 {
        InstanceDraftsMean(book, instanceEntries, instanceDrafts, instances);
      }
    }

    // -- rules ----------------------------------------------------------------------------------------

    /** Resolves listed members; a reference to a broken instance adds no error of its own. */
    method ResolveMembers(listed: seq<Json>, d: Direction, instances: map<Name, InstanceConfig>)
      returns (r: Option<seq<Name>>)
      requires Valid() && listed != []
      modifies this`errors
      ensures Valid()
      ensures errors == 0 <==> old(errors) == 0 && GoodListed(book, listed, d, instances)
      ensures errors == 0 ==> r == Some(Named(book, listed))
    {
      var names: seq<Name> := [];
      var ok := true;
      for k := 0 to |listed|
        invariant Valid()
        invariant errors == 0 ==> old(errors) == 0 && ok
        invariant ok && old(errors) == 0 ==> errors == 0
        invariant !ok ==> !GoodListed(book, listed, d, instances)
        invariant ok ==> AllStrings(listed[..k]) && names == Named(book, listed[..k])
        invariant Distinct(names)
        invariant forall m :: m in names ==> m in instances && d in instances[m].directions
      {
        if ok {
          NextMember(book, listed, d, instances, k);
        }
        if !listed[k].JString? {
          errors, ok := errors + 1, false;
          continue;
        }
        var name := book.NameFor(listed[k].s);
        if name in names {
          errors, ok := errors + 1, false;
          continue;
        }
        if name !in instances {
          if name !in broken {
            errors := errors + 1;
          }
          ok := false;
          continue;
        }
        if d !in instances[name].directions {
          errors, ok := errors + 1, false;
          continue;
        }
        names := names + [name];
      }
      assert listed[..|listed|] == listed;
      return if ok then Some(names) else None;
    }

    method RuleMembers(draft: Draft, key: string, d: Direction, instances: map<Name, InstanceConfig>)
      returns (r: Option<seq<Name>>)
      requires Valid()
      modifies this`errors
      ensures Valid()
      ensures errors == 0 <==> old(errors) == 0 && GoodList(book, draft.body, key, d, instances)
      ensures errors == 0 ==> r == Some(Named(book, draft.body[key].elements))
    {
      if key !in draft.body || !draft.body[key].JList? || draft.body[key].elements == [] {
        errors := errors + 1;
        return None;
      }
      r := ResolveMembers(draft.body[key].elements, d, instances);
    }

    method BuildRule(draft: Draft, instances: map<Name, InstanceConfig>) returns (r: Option<RuleConfig>)
      requires Valid()
      modifies this`errors
      ensures Valid()
      ensures errors == 0 <==> old(errors) == 0 && GoodRuleBody(book, draft.body, instances)
      ensures errors == 0 ==> r == Some(RuleFor(book, draft, instances))
    {
      RejectUnknownKeys(draft.body, {"inputs", "outputs", "enabled"});
      var inputs := RuleMembers(draft, "inputs", Input, instances);
      var outputs := RuleMembers(draft, "outputs", Output, instances);
      if inputs.None? || outputs.None? {
        return None;
      }
      var overlap := Elems(inputs.value) * Elems(outputs.value);
      errors := errors + |overlap|;
      if overlap != {} {
        assert |overlap| > 0;
        return None;
      }
      var enabled := OptionalBool(draft.body);
      return Some(RuleConfig(draft.name, inputs.value, outputs.value, enabled));
    }

    method BuildRules(instances: map<Name, InstanceConfig>) returns (rules: map<Name, RuleConfig>)
      requires Valid()
      modifies this`errors
      ensures Valid()
      ensures errors == 0 <==> old(errors) == 0 && GoodRules(book, ruleEntries, instances)
      ensures errors == 0 ==> rules == RulesFor(book, ruleEntries, instances)
    {
      rules := map[];
      for k := 0 to |ruleDrafts|
        invariant Valid()
        invariant errors == 0 <==> old(errors) == 0 && GoodBodies(book, ruleDrafts[..k], instances)
        invariant errors == 0 ==> RulesBuilt(book, ruleDrafts[..k], instances, rules)
      {
        var draft := ruleDrafts[k];
        assert ruleDrafts[..k + 1] == ruleDrafts[..k] + [draft];
        if errors == 0 {
          forall d | d in ruleDrafts[..k] && d.name == draft.name ensures d == draft {
            DraftsUnique(book, ruleEntries, ruleDrafts, registry, Rules, d, draft);
          }
        }
        BodiesGrow(book, ruleDrafts[..k], draft, instances);
        var rule := BuildRule(draft, instances);
        if rule.Some? {
          rules := rules[rule.value.name := rule.value];
        }
      }
      assert ruleDrafts[..|ruleDrafts|] == ruleDrafts;
      if old(errors) == 0 {
        RuleDraftsMean(book, ruleEntries, ruleDrafts, instances, rules);
      }
    }

    // -- loading -----------------------------------------------------------------------------------------

    /** One top-level key of a document. */
    method CollectSection(key: string, value: Json, daemonSeen: bool, ghost index: nat) returns (seen: bool)
      requires Valid()
      requires key == "instances" ==> forall e :: e in instanceEntries ==> e.document < index
      requires key == "rules" ==> forall e :: e in ruleEntries ==> e.document < index
      modifies this`errors, this`registry, this`instanceDrafts, this`ruleDrafts, this`instanceEntries, this`ruleEntries
      ensures Valid()
      ensures Reading(book, map[key := value], index,
                      old(Reader(instanceEntries, ruleEntries, daemonSeen, errors == 0)),
                      Reader(instanceEntries, ruleEntries, seen, errors == 0))
    {
      OneSection(key, value);
      seen := daemonSeen;
      if key !in {"daemon", "instances", "rules"} {
        errors := errors + 1;
        return;
      }
      if !value.JObject? {
        errors := errors + 1;
        return;
      }
      if key == "daemon" {
        errors := errors + if seen then 1 else book.daemonProblems(value);
        seen := true;
      } else if key == "instances" {
        CollectNamed(value.fields, Instances, index);
      } else {
        CollectNamed(value.fields, Rules, index);
      }
    }

    method CollectDocument(document: Document, daemonSeen: bool, ghost index: nat) returns (seen: bool)
      requires Valid()
      requires forall e :: e in instanceEntries + ruleEntries ==> e.document < index
      modifies this`errors, this`registry, this`instanceDrafts, this`ruleDrafts, this`instanceEntries, this`ruleEntries
      ensures Valid()
      ensures Reading(book, document, index,
                      old(Reader(instanceEntries, ruleEntries, daemonSeen, errors == 0)),
                      Reader(instanceEntries, ruleEntries, seen, errors == 0))
    {
      seen := daemonSeen;
      var keys := ListOf(document.Keys);
      ghost var start := Reader(instanceEntries, ruleEntries, seen, errors == 0);
      for k := 0 to |keys|
        invariant Valid()
        invariant Reading(book, Among(document, keys[..k]), index, start,
                          Reader(instanceEntries, ruleEntries, seen, errors == 0))
      {
        var key := keys[k];
        assert key in keys;
        AmongGrows(document, keys, k);
        ghost var before := Reader(instanceEntries, ruleEntries, seen, errors == 0);
        SectionsBelow(Among(document, keys[..k]), key, index, start, before);
        seen := CollectSection(key, document[key], seen, index);
        ReadOne(book, Among(document, keys[..k]), key, document[key], index, start, before,
                Reader(instanceEntries, ruleEntries, seen, errors == 0));
      }
      AllAmong(document, keys);
    }

    /** Collects every document; None stands for a file that does not parse. */
    method CollectAll(documents: seq<Option<Document>>)
      requires Valid() && errors == 0 && instanceEntries == {} && ruleEntries == {}
      modifies this`errors, this`registry, this`instanceDrafts, this`ruleDrafts, this`instanceEntries, this`ruleEntries
      ensures Valid()
      ensures instanceEntries == AllEntries(documents, Instances) && ruleEntries == AllEntries(documents, Rules)
      ensures errors == 0 <==> Collectable(book, documents)
    {
      var seen := false;
      for k := 0 to |documents|
        invariant Valid()
        invariant ReadAll(book, documents[..k], Reader(instanceEntries, ruleEntries, seen, errors == 0))
      {
        ghost var before := Reader(instanceEntries, ruleEntries, seen, errors == 0);
        ReadBelow(book, documents[..k], before);
        if documents[k].None? {
          errors := errors + 1;
        } else {
          seen := CollectDocument(documents[k].value, seen, k);
        }
        ReadNext(book, documents, k, before, Reader(instanceEntries, ruleEntries, seen, errors == 0));
      }
      assert documents[..|documents|] == documents;
    }

    /** Loads the documents. A configuration is returned exactly when they are acceptable, and then it is what they
        mean. */
    method Load(documents: seq<Option<Document>>) returns (r: Option<Config>)
      requires Valid() && errors == 0 && instanceEntries == {} && ruleEntries == {}
      modifies this
      ensures r.Some? <==> Acceptable(book, documents)
      ensures r.Some? ==> r.value == Meaning(book, documents)
    {
      CollectAll(documents);
      if documents == [] {
        errors := errors + 1;
      }
      var instances := BuildInstances();
      var rules := BuildRules(instances);
      if errors > 0 {
        return None;
      }
      return Some(Config(instances, rules));
    }
  }

  // -- growing what has been read -----------------------------------------------------------------

  /** The daemon section of the document, if any, is the first and has no problems. */
  predicate GoodDaemon(book: Rulebook, document: Document, daemonSeen: bool) {
    HasDaemon(document) ==> !daemonSeen && book.daemonProblems(document["daemon"]) == 0
  }

  /** Where reading stands: what has been seen and whether all of it was good. */
  datatype Reader = Reader(instances: set<Entry>, rules: set<Entry>, seen: bool, good: bool)

  /** Reading this part of a document leads from one standing to another. */
  ghost predicate Reading(book: Rulebook, part: Document, index: nat, start: Reader, r: Reader) {
    && r.instances == start.instances + SectionEntries(index, part, Instances)
    && r.rules == start.rules + SectionEntries(index, part, Rules)
    && r.seen == (start.seen || HasDaemon(part))
    && (r.good <==> start.good && GoodSections(part) && GoodDaemon(book, part, start.seen)
                    && GoodNames(book, r.instances) && GoodNames(book, r.rules))
  }

  lemma ReadOne(book: Rulebook, part: Document, key: string, value: Json, index: nat,
                start: Reader, r: Reader, r': Reader)
    requires key !in part && Reading(book, part, index, start, r)
    requires Reading(book, map[key := value], index, r, r')
    ensures Reading(book, part[key := value], index, start, r')
  {
    PartGrows(book, part, key, value, index, start.seen);
    NamesShrink(book, r.instances, r'.instances);
    NamesShrink(book, r.rules, r'.rules);
    OneSection(key, value);
  }

  /** Where reading stands after all of these documents. */
  ghost predicate ReadAll(book: Rulebook, documents: seq<Option<Document>>, r: Reader) {
    && r.instances == AllEntries(documents, Instances) && r.rules == AllEntries(documents, Rules)
    && r.seen == (Daemons(documents) != []) && (r.good <==> Collectable(book, documents))
  }

  lemma ReadBelow(book: Rulebook, documents: seq<Option<Document>>, r: Reader)
    requires ReadAll(book, documents, r)
    ensures forall e :: e in r.instances + r.rules ==> e.document < |documents|
  {
    EntriesBelow(documents, Instances);
    EntriesBelow(documents, Rules);
  }

  lemma ReadNext(book: Rulebook, documents: seq<Option<Document>>, k: nat, r: Reader, r': Reader)
    requires k < |documents| && ReadAll(book, documents[..k], r)
    requires documents[k].Some? ==> Reading(book, documents[k].value, k, r, r')
    requires documents[k].None? ==> r' == r.(good := false)
    ensures ReadAll(book, documents[..k + 1], r')
  {
    assert documents[..k + 1] == documents[..k] + [documents[k]];
    CollectableGrows(book, documents[..k], documents[k]);
  }

  lemma OneSection(key: string, value: Json)
    ensures GoodSections(map[key := value]) <==> GoodSection(key, value)
  {
    assert map[key := value][key] == value;
  }

  /** A section not read yet has contributed nothing. */
  lemma SectionsBelow(part: Document, key: string, index: nat, start: Reader, r: Reader)
    requires key !in part
    requires r.instances == start.instances + SectionEntries(index, part, Instances)
    requires r.rules == start.rules + SectionEntries(index, part, Rules)
    requires forall e :: e in start.instances + start.rules ==> e.document < index
    ensures key == "instances" ==> forall e :: e in r.instances ==> e.document < index
    ensures key == "rules" ==> forall e :: e in r.rules ==> e.document < index
  {
  }

  lemma PartGrows(book: Rulebook, part: Document, key: string, value: Json, index: nat, seen: bool)
    requires key !in part
    ensures
      var more, one := part[key := value], map[key := value];
      && (forall ns ::
            SectionEntries(index, more, ns) == SectionEntries(index, part, ns) + SectionEntries(index, one, ns))
      && (GoodSections(more) <==> GoodSections(part) && GoodSection(key, value))
      && (HasDaemon(more) <==> HasDaemon(part) || HasDaemon(one))
      && (GoodDaemon(book, more, seen) <==>
            GoodDaemon(book, part, seen) && GoodDaemon(book, one, seen || HasDaemon(part)))
  {
    var more := part[key := value];
    if GoodSections(more) {
      assert more[key] == value;
      forall k | k in part ensures GoodSection(k, part[k]) { assert more[k] == part[k]; }
    }
  }

  lemma NamesShrink(book: Rulebook, fewer: set<Entry>, entries: set<Entry>)
    requires fewer <= entries
    ensures GoodNames(book, entries) ==> GoodNames(book, fewer)
  {
  }

  lemma {:induction false} EntriesBelow(documents: seq<Option<Document>>, ns: Namespace)
    ensures forall e :: e in AllEntries(documents, ns) ==> e.document < |documents|
  {
    if documents != [] { EntriesBelow(documents[..|documents| - 1], ns); }
  }

  lemma CollectableGrows(book: Rulebook, documents: seq<Option<Document>>, d: Option<Document>)
    ensures
      var more := documents + [d];
      && (forall ns :: AllEntries(more, ns) == AllEntries(documents, ns)
                       + if d.Some? then SectionEntries(|documents|, d.value, ns) else {})
      && (Daemons(more) != [] <==> Daemons(documents) != [] || (d.Some? && HasDaemon(d.value)))
      && (Collectable(book, more) <==>
            && Collectable(book, documents) && d.Some? && GoodSections(d.value)
            && GoodDaemon(book, d.value, Daemons(documents) != [])
            && GoodNames(book, AllEntries(more, Instances)) && GoodNames(book, AllEntries(more, Rules)))
  {
    var more := documents + [d];
    assert more[..|documents|] == documents;
    NamesShrink(book, AllEntries(documents, Instances), AllEntries(more, Instances));
    NamesShrink(book, AllEntries(documents, Rules), AllEntries(more, Rules));
    assert forall x :: x in more <==> x in documents || x == d;
    DaemonsGrow(book, documents, d);
  }

  lemma DaemonsGrow(book: Rulebook, documents: seq<Option<Document>>, d: Option<Document>)
    ensures GoodDaemons(book, documents + [d]) <==>
              GoodDaemons(book, documents) && (d.Some? ==> GoodDaemon(book, d.value, Daemons(documents) != []))
  {
    assert (documents + [d])[..|documents|] == documents;
    var before, after := Daemons(documents), Daemons(documents + [d]);
    if d.Some? && HasDaemon(d.value) {
      assert after == before + [d.value["daemon"]];
      assert d.value["daemon"] in after;
    } else {
      assert after == before;
    }
  }
}
