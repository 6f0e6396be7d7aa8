/**
 The config flow (user and import steps) and the options flow.  The flow's
 state is the set of unique ids of the entries already configured; the
 device library's answers come in as a `Device` oracle.
 */
module ConfigFlow {
  import opened Types
  import opened Venstar

  /** What a flow step hands back to the host. */
  datatype FlowResult<D> =
    | ShowForm(stepId: string, errors: map<string, string>)
    | CreateEntry(title: string, data: D)
    | Abort(reason: string)

  /** A step's result and the unique ids configured once the host has acted
      on it (a created entry registers its unique id). */
  datatype Step = Step(result: FlowResult<ConfigData>, configured: set<string>)

  const CannotConnectErrors: map<string, string> := map["client" := "cannot_connect"]
  const AlreadyConfigured: string := "already_configured"

  /** `async_step_user`: no input shows the form; a connection that fails
      with `CannotConnect` shows it again with the connectivity error; a
      connection that succeeds sets the unique id `addr_lower(name)` and
      either aborts because an entry has it already, or creates an entry
      titled with the device's name holding the input unchanged.  Any other
      exception from validation escapes the step. */
  function StepUser(configured: set<string>, input: Option<ConfigData>, dev: Device): (r: Result<Step, Exc>)
    ensures input.None? ==> r == Success(Step(ShowForm("user", map[]), configured))
    ensures input.Some? && ValidateInput(input.value, dev).result == Failure(CannotConnect) ==>
              r == Success(Step(ShowForm("user", CannotConnectErrors), configured))
    ensures r.Failure? <==> input.Some? && dev.login.Raised?
    ensures r.Failure? ==> r.error == RequestException
    ensures r.Success? && r.value.result.CreateEntry? <==>
              && input.Some? && ValidateInput(input.value, dev).result.Success?
              && EntryUniqueId(input.value.host, dev.name) !in configured
    ensures r.Success? && r.value.result.CreateEntry? ==>
              && r.value.result == CreateEntry(dev.name, input.value)
              && r.value.configured == configured + {EntryUniqueId(input.value.host, dev.name)}
    ensures r.Success? && r.value.result.Abort? ==>
              && r.value.result.reason == AlreadyConfigured
              && EntryUniqueId(input.value.host, dev.name) in configured
    ensures input.Some? && ValidateInput(input.value, dev).result.Success?
            && EntryUniqueId(input.value.host, dev.name) in configured ==>
              r == Success(Step(Abort(AlreadyConfigured), configured))
    ensures r.Success? && !r.value.result.CreateEntry? ==> r.value.configured == configured
  {
    match input
    case None => Success(Step(ShowForm("user", map[]), configured))
    case Some(data) =>
      var v := ValidateInput(data, dev);
      match v.result
      case Failure(e) =>
        if e == CannotConnect then Success(Step(ShowForm("user", CannotConnectErrors), configured))
        else Failure(e)
      case Success(client) =>
        var uid := EntryUniqueId(client.addr, client.name);
        if uid in configured then Success(Step(Abort(AlreadyConfigured), configured))
        else Success(Step(CreateEntry(client.name, data), configured + {uid}))
  }

  /** `async_step_import`: the user step with the imported data. */
  function StepImport(configured: set<string>, importInfo: ConfigData, dev: Device): (r: Result<Step, Exc>)
    ensures r.Success? && r.value.result.ShowForm? ==> r.value.result.errors == CannotConnectErrors
    ensures r.Success? && r.value.result.CreateEntry? ==> r.value.result.data == importInfo
  {
    StepUser(configured, Some(importInfo), dev)
  }

  /** Importing the same host of the same device twice: whatever the first
      import did, the second aborts as already configured and leaves the
      configured ids as the first left them. */
  lemma ImportTwiceAborts(configured: set<string>, data: ConfigData, dev: Device, dev': Device)
    requires ValidateInput(data, dev).result.Success?
    requires ValidateInput(data, dev').result.Success?
    requires dev'.name == dev.name
    ensures var first := StepImport(configured, data, dev);
            && first.Success?
            && var second := StepImport(first.value.configured, data, dev');
            && second == Success(Step(Abort(AlreadyConfigured), first.value.configured))
  {
  }

  /** One connection attempt of an import. */
  datatype Attempt = Attempt(input: ConfigData, dev: Device)

  /** The ids configured after running the import step for each attempt in
      order, and the unique ids of the entries created along the way. */
  datatype Replayed = Replayed(configured: set<string>, created: seq<string>)

  /** The unique id an attempt's entry is created under. */
  function CreatedId(a: Attempt): string
  {
    EntryUniqueId(a.input.host, a.dev.name)
  }

  /** Running the import step over a list of attempts, one after another.
      An attempt whose validation raises ends that flow alone. */
  function Replay(configured: set<string>, attempts: seq<Attempt>): (r: Replayed)
    ensures r.configured == configured + (set id | id in r.created)
    ensures forall i :: 0 <= i < |r.created| ==> r.created[i] !in configured
    ensures forall i, j :: 0 <= i < j < |r.created| ==> r.created[i] != r.created[j]
    ensures |r.created| <= |attempts|
    decreases |attempts|
  {
    if |attempts| == 0 then Replayed(configured, [])
    else
      var a := attempts[0];
      var step := StepImport(configured, a.input, a.dev);
      if step.Success? && step.value.result.CreateEntry? then
        var id := CreatedId(a);
        var rest := Replay(configured + {id}, attempts[1..]);
        var created := [id] + rest.created;
        assert forall i :: 1 <= i < |created| ==> created[i] == rest.created[i - 1];
        assert (set x | x in created) == {id} + (set x | x in rest.created);
        Replayed(rest.configured, created)
      else
        Replay(configured, attempts[1..])
  }

  /** `OptionsFlowHandler.async_step_init`: no input shows the form; any
      input becomes the entry's options as it is, with no connection check. */
  function OptionsInit<D>(input: Option<D>): (r: FlowResult<D>)
    ensures input.None? <==> r == ShowForm("init", map[])
    ensures input.Some? <==> r.CreateEntry?
    ensures input.Some? ==> r.title == "" && r.data == input.value
  {
    match input
    case None => ShowForm("init", map[])
    case Some(d) => CreateEntry("", d)
  }

  /** The options step stores connection settings the user step would turn
      away: for a device that refuses the login, the user step shows the
      connectivity error, while the options step saves the same data. */
  lemma OptionsSkipValidation(configured: set<string>, data: ConfigData, dev: Device)
    requires dev.login == Returned(false)
    ensures StepUser(configured, Some(data), dev) == Success(Step(ShowForm("user", CannotConnectErrors), configured))
    ensures OptionsInit(Some(data)) == CreateEntry("", data)
  {
  }
}
