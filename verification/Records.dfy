/** The rows of the state database that the core reads and writes (src/noti_mapper/storage.py). */
module Records {
  import opened Base

  /** Latch state of one rule; the rule name is the key it is stored under. */
  datatype Latch = Latch(
    state: bool,
    setAt: Option<Time>,
    clearedAt: Option<Time>,
    triggerCount: nat,
    lastCause: Option<Name>,
    lastDetail: Option<string>)

  /** The record of a rule nothing has happened to. */
  const UNTOUCHED := Latch(false, None, None, 0, None, None)

  /** A rule without a record is cleared. */
  function LatchIn(latches: map<Name, Latch>, rule: Name): Latch {
    if rule in latches then latches[rule] else UNTOUCHED
  }

  function Latched(latches: map<Name, Latch>): set<Name> {
    set n | n in latches && latches[n].state
  }

  datatype OutputState = OutputState(
    lastApplied: Option<bool>,
    lastConfirmed: Option<bool>,
    lastSyncAt: Option<Time>)

  /** A push that is still owed to an output, the output being its key. */
  datatype Push = Push(target: bool, attempts: nat, due: Time, lastError: Option<string>)

  /** The order in which due pushes are taken up: by due time, then by name. */
  predicate PushBefore(pending: map<Name, Push>, a: Name, b: Name) {
    && a in pending && b in pending
    && (pending[a].due < pending[b].due || (pending[a].due == pending[b].due && TextBefore(a.text, b.text)))
  }

  predicate InPushOrder(pending: map<Name, Push>, names: seq<Name>) {
    forall i, j :: 0 <= i < j < |names| ==> PushBefore(pending, names[i], names[j])
  }

  lemma PushOrder(pending: map<Name, Push>, a: Name, b: Name)
    requires a in pending && b in pending
    ensures !(PushBefore(pending, a, b) && PushBefore(pending, b, a))
    ensures a == b || PushBefore(pending, a, b) || PushBefore(pending, b, a)
  {
    TextOrder(a.text, b.text);
  }

  lemma PushTransitive(pending: map<Name, Push>, a: Name, b: Name, c: Name)
    requires PushBefore(pending, a, b) && PushBefore(pending, b, c)
    ensures PushBefore(pending, a, c)
  {
    if pending[a].due == pending[c].due { TextTransitive(a.text, b.text, c.text); }
  }

  datatype Event = Event(occurredAt: Time, summary: string)

  datatype Belief = Active | Cleared | Unknown

  /** What an output says when asked about its remote. */
  datatype RemoteState = RemoteState(belief: Belief, clearedAt: Option<Time>)
}
