/** A validated configuration (the frozen dataclasses of src/noti_mapper/config.py). */
module Configuration {
  import opened Base

  datatype Direction = Input | Output

  datatype InstanceConfig = InstanceConfig(name: Name, plugin: string, directions: set<Direction>, enabled: bool)

  datatype RuleConfig = RuleConfig(name: Name, inputs: seq<Name>, outputs: seq<Name>, enabled: bool)

  datatype Config = Config(instances: map<Name, InstanceConfig>, rules: map<Name, RuleConfig>)

  /** The member list names existing instances of the right direction, at least one, none twice. */
  predicate GoodMembers(c: Config, members: seq<Name>, d: Direction) {
    && members != []
    && Distinct(members)
    && forall m :: m in members ==> m in c.instances && d in c.instances[m].directions
  }

  predicate GoodRule(c: Config, r: RuleConfig) {
    && GoodMembers(c, r.inputs, Input)
    && GoodMembers(c, r.outputs, Output)
    && Elems(r.inputs) * Elems(r.outputs) == {}
  }

  /** What the loader promises of every configuration it returns. */
  predicate WellFormed(c: Config) {
    && (forall n :: n in c.instances ==> c.instances[n].name == n)
    && (forall n :: n in c.rules ==> c.rules[n].name == n && GoodRule(c, c.rules[n]))
  }

  /** The instances that are configured and enabled. */
  function EnabledInstances(c: Config): set<Name> {
    set n | n in c.instances && c.instances[n].enabled
  }
}
