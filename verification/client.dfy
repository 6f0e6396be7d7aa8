/**
 The integration's entry module: the client wrapper around the device
 library (login, refresh, sensor accessor), connection validation, the
 configuration schema with its defaults, and the setup and unload
 bookkeeping of a config entry.  Calls into the device library are oracle
 parameters of type `Call`.
 */
module Venstar {
  import opened Types

  /** The calls into the device library, in the order they are made. */
  datatype LibCall = Login | UpdateInfo | UpdateSensors

  /** What an operation returned or raised, and the library calls it made. */
  datatype Run<T> = Run(result: Result<T, Exc>, calls: seq<LibCall>)

  /** Everything the device library reports for one connection attempt:
      the device's name and temperature units, the outcome of each call,
      and the raw sensor response the library holds afterwards. */
  datatype Device = Device(
    name: string,
    tempunits: int,
    login: Call,
    info: Call,
    sensors: Call,
    rawSensors: Option<map<string, seq<Record>>>)

  /** `VenstarClient.update_data`: fetch the thermostat info, then the
      sensors.  Both must report success; a `RequestException` from either
      is swallowed, and when fetching the info raises, the sensors are not
      fetched. */
  function UpdateData(info: Call, sensors: Call): (r: Run<bool>)
    ensures r.result.Success?
    ensures r.result.value <==> info == Returned(true) && sensors == Returned(true)
    ensures r.calls == [UpdateInfo] || r.calls == [UpdateInfo, UpdateSensors]
    ensures UpdateSensors in r.calls <==> !info.Raised?
  {
    if info.Raised? then Run(Success(false), [UpdateInfo])
    else if sensors.Raised? then Run(Success(false), [UpdateInfo, UpdateSensors])
    else Run(Success(info.truthy && sensors.truthy), [UpdateInfo, UpdateSensors])
  }

  /** `VenstarClient.setup`: log in, and only when that succeeds, refresh.
      A `RequestException` from the login itself is not caught. */
  function Setup(login: Call, info: Call, sensors: Call): (r: Run<bool>)
    ensures r.result == Success(true) <==>
              login == Returned(true) && info == Returned(true) && sensors == Returned(true)
    ensures r.result.Failure? <==> login.Raised?
    ensures r.result.Failure? ==> r.result.error == RequestException
    ensures |r.calls| > 0 && r.calls[0] == Login
    ensures UpdateInfo in r.calls <==> login == Returned(true)
    ensures login != Returned(true) ==> r.calls == [Login]
  {
    match login
    case Raised => Run(Failure(RequestException), [Login])
    case Returned(ok) =>
      if ok then
        var u := UpdateData(info, sensors);
        Run(u.result, [Login] + u.calls)
      else Run(Success(false), [Login])
  }

  /** A successful login makes `setup` exactly a refresh preceded by the login. */
  lemma SetupIsLoginThenUpdate(info: Call, sensors: Call)
    ensures Setup(Returned(true), info, sensors).result == UpdateData(info, sensors).result
    ensures Setup(Returned(true), info, sensors).calls == [Login] + UpdateData(info, sensors).calls
  {
  }

  /** The `sensors` property: absent when the raw response is absent or an
      empty dictionary, otherwise its "sensors" entry (absent if missing). */
  function Sensors(raw: Option<map<string, seq<Record>>>): (r: Option<seq<Record>>)
    ensures raw.None? || raw.value == map[] ==> r.None?
    ensures raw.Some? && raw.value != map[] ==> (r.Some? <==> SensorsKey in raw.value)
    ensures r.Some? ==> raw.Some? && SensorsKey in raw.value && r.value == raw.value[SensorsKey]
  {
    match raw
    case None => None
    case Some(m) =>
      if |m| == 0 then None
      else if SensorsKey in m then Some(m[SensorsKey])
      else None
  }

  /** The protocol a configuration asks for: https iff its ssl flag is truthy. */
  function ProtocolOf(data: ConfigData): (p: Protocol)
    ensures p == Https <==> data.ssl == Some(true)
  {
    if data.ssl == Some(true) then Https else Http
  }

  /** `validate_input`: build a client from the configuration and set it
      up; hand the client back iff setup succeeds, otherwise raise
      `CannotConnect`.  A login that raises propagates its exception. */
  function ValidateInput(data: ConfigData, dev: Device): (r: Run<Client>)
    ensures r.result.Success? <==>
              dev.login == Returned(true) && dev.info == Returned(true) && dev.sensors == Returned(true)
    ensures r.result == Failure(RequestException) <==> dev.login.Raised?
    ensures r.result.Failure? ==> r.result.error in {RequestException, CannotConnect}
    ensures r.result.Success? ==>
              var c := r.result.value;
              && c.addr == data.host && c.name == dev.name
              && (c.proto == Https <==> data.ssl == Some(true))
              && c.username == data.username && c.password == data.password
              && c.pin == data.pin && c.timeout == data.timeout
    ensures r.calls == Setup(dev.login, dev.info, dev.sensors).calls
  {
    var client := Client(data.host, dev.name, ProtocolOf(data), data.username, data.password,
                         data.pin, data.timeout, dev.tempunits, dev.rawSensors);
    var s := Setup(dev.login, dev.info, dev.sensors);
    match s.result
    case Failure(e) => Run(Failure(e), s.calls)
    case Success(ok) =>
      if ok then Run(Success(client), s.calls) else Run(Failure(CannotConnect), s.calls)
  }

  /** A configuration as written in YAML, before the schema is applied:
      every key may be missing. */
  datatype RawConfig = RawConfig(
    host: Option<string>,
    username: Option<string>,
    password: Option<string>,
    pin: Option<string>,
    humidifier: Option<bool>,
    ssl: Option<bool>,
    timeout: Option<int>,
    interval: Option<int>)

  datatype SchemaError = MissingHost | NotPositive(key: string)

  const DefaultHumidifier: bool := true
  const DefaultSsl: bool := false
  const DefaultTimeout: int := 5
  const DefaultInterval: int := 30

  /** A configuration the schema accepts unchanged: every defaulted key is
      present and both durations are positive. */
  predicate Normalized(c: ConfigData)
  {
    && c.humidifier.Some? && c.ssl.Some?
    && c.timeout.Some? && c.timeout.value > 0
    && c.interval.Some? && c.interval.value > 0
  }

  function ToRaw(c: ConfigData): RawConfig
  {
    RawConfig(Some(c.host), c.username, c.password, c.pin, c.humidifier, c.ssl, c.timeout, c.interval)
  }

  function OrElse<T>(o: Option<T>, d: T): T
  {
    match o
    case Some(v) => v
    case None => d
  }

  /** `DATA_SCHEMA`: the host is required, the humidifier flag defaults to
      true, ssl to false, the timeout to 5 and the interval to 30 seconds,
      and both durations must be positive. */
  function ApplySchema(raw: RawConfig): (r: Result<ConfigData, SchemaError>)
    ensures r.Success? <==>
              raw.host.Some? && (raw.timeout.None? || raw.timeout.value > 0)
              && (raw.interval.None? || raw.interval.value > 0)
    ensures r.Success? ==> Normalized(r.value)
    ensures r.Success? ==>
              var c := r.value;
              && Some(c.host) == raw.host && c.username == raw.username
              && c.password == raw.password && c.pin == raw.pin
              && c.humidifier == Some(OrElse(raw.humidifier, DefaultHumidifier))
              && c.ssl == Some(OrElse(raw.ssl, DefaultSsl))
              && c.timeout == Some(OrElse(raw.timeout, DefaultTimeout))
              && c.interval == Some(OrElse(raw.interval, DefaultInterval))
  {
    if raw.host.None? then Failure(MissingHost)
    else if raw.timeout.Some? && raw.timeout.value <= 0 then Failure(NotPositive("timeout"))
    else if raw.interval.Some? && raw.interval.value <= 0 then Failure(NotPositive("interval"))
    else Success(ConfigData(
      raw.host.value, raw.username, raw.password, raw.pin,
      Some(OrElse(raw.humidifier, DefaultHumidifier)),
      Some(OrElse(raw.ssl, DefaultSsl)),
      Some(OrElse(raw.timeout, DefaultTimeout)),
      Some(OrElse(raw.interval, DefaultInterval))))
  }

  /** The schema leaves a normalized configuration as it is, and so applying
      it twice is applying it once. */
  lemma SchemaIdempotent(raw: RawConfig)
    ensures forall c :: Normalized(c) ==> ApplySchema(ToRaw(c)) == Success(c)
    ensures ApplySchema(raw).Success? ==> ApplySchema(ToRaw(ApplySchema(raw).value)) == ApplySchema(raw)
  {
  }

  /** A YAML configuration naming only the host gets every default. */
  lemma SchemaDefaults(host: string)
    ensures ApplySchema(RawConfig(Some(host), None, None, None, None, None, None, None))
            == Success(ConfigData(host, None, None, None, Some(true), Some(false), Some(5), Some(30)))
  {
  }

  /** A config entry: its id, its data, and how many update listeners it has. */
  datatype Entry = Entry(id: string, data: ConfigData, listeners: nat)

  /** What the integration keeps per loaded entry: the client, the
      humidifier flag and the coordinator's refresh interval in seconds. */
  datatype Stored = Stored(client: Client, humidifier: Option<bool>, interval: int)

  type Store = map<string, Stored>

  datatype Loaded = Loaded(store: Store, entry: Entry)

  /** `async_setup_entry`: validate the connection, mapping `CannotConnect`
      to `ConfigEntryNotReady`; store the client, the humidifier flag and the
      coordinator under the entry id; add the update listener only when the
      entry has none yet.  A missing interval makes the coordinator's
      `timedelta` raise. */
  function SetupEntry(store: Store, entry: Entry, dev: Device): (r: Result<Loaded, Exc>)
    ensures r.Failure? ==> r.error != CannotConnect
    ensures ValidateInput(entry.data, dev).result == Failure(CannotConnect) <==> r == Failure(ConfigEntryNotReady)
    ensures ValidateInput(entry.data, dev).result == Failure(RequestException) ==> r == Failure(RequestException)
    ensures ValidateInput(entry.data, dev).result.Success? && entry.data.interval.None? ==> r == Failure(TypeError)
    ensures r.Success? <==> ValidateInput(entry.data, dev).result.Success? && entry.data.interval.Some?
    ensures r.Success? ==>
              && r.value.store.Keys == store.Keys + {entry.id}
              && (forall id :: id in store && id != entry.id ==> r.value.store[id] == store[id])
              && r.value.store[entry.id].client == ValidateInput(entry.data, dev).result.value
              && r.value.store[entry.id].humidifier == entry.data.humidifier
              && r.value.store[entry.id].interval == entry.data.interval.value
              && r.value.entry.id == entry.id && r.value.entry.data == entry.data
              && r.value.entry.listeners == (if entry.listeners == 0 then 1 else entry.listeners)
  {
    var v := ValidateInput(entry.data, dev);
    match v.result
    case Failure(e) => if e == CannotConnect then Failure(ConfigEntryNotReady) else Failure(e)
    case Success(client) =>
      match entry.data.interval
      case None => Failure(TypeError)
      case Some(seconds) =>
        var listeners := if entry.listeners == 0 then 1 else entry.listeners;
        Success(Loaded(store[entry.id := Stored(client, entry.data.humidifier, seconds)],
                       entry.(listeners := listeners)))
  }

  /** Setting an entry up again (a reload) never adds another update
      listener: the count a first setup leaves is the count every later
      setup leaves. */
  lemma SetupAgainKeepsListeners(store: Store, entry: Entry, dev: Device, dev': Device)
    requires SetupEntry(store, entry, dev).Success?
    ensures var l := SetupEntry(store, entry, dev).value;
            && l.entry.listeners >= 1
            && (SetupEntry(l.store, l.entry, dev').Success? ==>
                  SetupEntry(l.store, l.entry, dev').value.entry.listeners == l.entry.listeners)
  {
  }

  /** The coordinator's update method: refresh through the client and turn
      an unsuccessful refresh into `UpdateFailed`. */
  function CoordinatorUpdate(info: Call, sensors: Call): (r: Result<(), Exc>)
    ensures r.Success? <==> info == Returned(true) && sensors == Returned(true)
    ensures r.Failure? ==> r.error == UpdateFailed
  {
    if UpdateData(info, sensors).result == Success(true) then Success(()) else Failure(UpdateFailed)
  }

  /** The platforms an entry is forwarded to. */
  const Components: seq<string> := ["climate", "sensor"]

  datatype Unloaded = Unloaded(store: Store, ok: bool)

  /** `async_unload_entry`: `unloads[i]` is whether unloading platform
      `Components[i]` succeeded.  The entry's stored data is dropped iff
      every unload succeeded; dropping an id that is not stored raises. */
  function UnloadEntry(store: Store, id: string, unloads: seq<bool>): (r: Result<Unloaded, Exc>)
    requires |unloads| == |Components|
    ensures r.Failure? <==> (forall i :: 0 <= i < |unloads| ==> unloads[i]) && id !in store
    ensures r.Failure? ==> r.error == KeyError
    ensures r.Success? ==> (r.value.ok <==> forall i :: 0 <= i < |unloads| ==> unloads[i])
    ensures r.Success? && r.value.ok ==> r.value.store == store - {id}
    ensures r.Success? && !r.value.ok ==> r.value.store == store
  {
    var ok := unloads[0] && unloads[1];
    if !ok then Success(Unloaded(store, false))
    else if id !in store then Failure(KeyError)
    else Success(Unloaded(store - {id}, true))
  }

  /** Setting an entry up and then unloading every platform leaves the
      store as it was, provided the entry was not stored before. */
  lemma SetupThenUnload(store: Store, entry: Entry, dev: Device)
    requires entry.id !in store
    requires SetupEntry(store, entry, dev).Success?
    ensures UnloadEntry(SetupEntry(store, entry, dev).value.store, entry.id, [true, true])
            == Success(Unloaded(store, true))
  {
    var s' := SetupEntry(store, entry, dev).value.store;
    assert s' - {entry.id} == store;
  }
}
