/** What the core can be told (src/noti_mapper/messages.py). */
module Messages {
  import opened Base
  import opened Configuration
  import opened Records

  /** The names of the inputs and of the outputs that have a running plugin. */
  datatype PluginSet = PluginSet(inputs: set<Name>, outputs: set<Name>)

  datatype Message =
    | InputEvent(instance: Name, event: Event)
    | UnlatchRequest(instance: Name, cause: string)
    | PushResult(instance: Name, value: bool, ok: bool, error: Option<string>)
    | ReconcileOutput(instance: Name, attempt: nat)
    | CatchUp(instance: Name, attempt: nat, since: Option<Time>)
    | ReloadRequest(configuration: Config, plugins: Option<PluginSet>)
    | PollHealth
    | Shutdown
}
