# Venstar ColorTouch integration — a Dafny model of its decisions

This project models the decision logic of the home-automation platform's
Venstar ColorTouch thermostat integration. The device library and the host
platform are abstracted away. The model has three parts:

- **Sensor platform** (`sensor.dfy`, module `Sensor`). The device's
  auxiliary sensor list is a sequence of string-keyed records. Each record
  yields a temperature entity when it has a `"temp"` key and then a humidity
  entity when it has a `"hum"` key. The module also covers each entity's
  unique id, display name, device class and unit. An entity's state is
  looked up by name in the current sensor list, and only the *first*
  record with that name is consulted.
- **Client and entry lifecycle** (`client.dfy`, module `Venstar`). This
  covers the client wrapper's `setup`, `update_data` and `sensors`,
  connection validation, and the configuration schema and its defaults. It
  also covers entry setup, which maps `CannotConnect` to "not ready" and
  adds the update listener once. The coordinator's update method turns a
  failed refresh into `UpdateFailed`. Entry unload drops the stored data
  only when every platform unloaded.
- **Config and options flows** (`config_flow.dfy`, module `ConfigFlow`). These are steps over the set of unique ids already
  configured: show the form, show it with the connectivity error, abort as
  already configured, or create the entry. The options step stores its
  input without checking the connection.

`types.dfy` (module `Types`) holds the shared vocabulary:
- `Option`/`Result`, and the exceptions as a datatype `Exc`;
- `Call`, the outcome of one call into the device library: a return value
  of some truthiness, or a raised `RequestException`;
- sensor records as `map<string, Value>`;
- the configuration and client records;
- `str.lower()` and f-string rendering of a sensor name.

Calls into the device library are oracle parameters. These are `login`,
`update_info` and `update_sensors`, plus the device's reported name,
temperature units and raw sensor response. The client's `addr` is taken to
be the host it was constructed with.

Behaviours of the code a reader might not expect:
- **Reading a sensor can fail.** A sensor's `state` iterates
  `client.sensors`. That property is `None` when the device's sensor
  response is empty or has no `"sensors"` key, and iterating `None` raises a
  `TypeError`. `Sensor.State` and `Sensor.SetupEntities` model that error.
- **A login that raises is not a connectivity error.** Only `update_data`
  catches `RequestException`. A `login` that raises escapes `setup`,
  `validate_input`, entry setup and the user step instead of becoming
  `CannotConnect`. `Venstar.Setup`, `Venstar.ValidateInput`,
  `Venstar.SetupEntry` and `ConfigFlow.StepUser` return it as
  `Failure(RequestException)`.
- **A refresh is not atomic.** `update_data` calls `update_info` and then
  `update_sensors` and combines their truthiness, with no staging. Whatever
  the first call changed in the library stays changed when the second one
  fails. The model states the outcome and the call order
  (`Venstar.UpdateData`).
- **Entity ids can collide.** Ids are distinct when the record names render
  distinctly (`Sensor.EnumeratedIdsDistinct`). Two records with the same
  name and the same key give the same id (`Sensor.SameNameSameKeyCollide`).

## Model

| member | source | states |
|---|---|---|
| Types.EntryUniqueId | homeassistant/components/venstar/config_flow.py:48 | the entry's unique id starts with the address and an underscore, and is as long as the address, the underscore and the device name together |
| Types.EntryUniqueIdIgnoresCase | homeassistant/components/venstar/config_flow.py:48 | device names that differ only in letter case give the same entry unique id |
| Sensor.KindKey | homeassistant/components/venstar/const.py:15-16 | a temperature entity uses key "temp" and a humidity entity uses "hum", and each key belongs to exactly one kind |
| Sensor.EntitiesOf | homeassistant/components/venstar/sensor.py:27-34 | a record yields a temperature entity iff it has "temp", and then a humidity entity iff it has "hum", both named by the record's "name"; a record with neither key yields nothing |
| Sensor.Enumerate | homeassistant/components/venstar/sensor.py:26-34 | the number of entities is the number of records with "temp" plus the number with "hum" |
| Sensor.EnumerateLoop | homeassistant/components/venstar/sensor.py:23-34 | the append loop over the records yields exactly the enumeration, with its count of entities |
| Sensor.EnumerateAppend | homeassistant/components/venstar/sensor.py:26-34 | the entities follow list order: the entities of a concatenation are those of the first part followed by those of the second |
| Sensor.EnumerateMembers | homeassistant/components/venstar/sensor.py:26-34 | an entity is enumerated iff some record has its kind's key and its name |
| Sensor.SetupEntities | homeassistant/components/venstar/sensor.py:24-34 | a non-empty current list is enumerated as is and the client is not called; an absent or empty one triggers exactly one refresh (the library calls are those of one `update_data`) and the list after it is enumerated; an absent list raises TypeError |
| Sensor.UniqueId | homeassistant/components/venstar/sensor.py:52 | a sensor's unique id extends the entry's unique id with "_sensor_", and its length accounts for name and kind |
| Sensor.UniqueIdInjective | homeassistant/components/venstar/sensor.py:52 | for one client, equal unique ids mean the same kind and the same rendered sensor name |
| Sensor.EnumeratedIdsDistinct | homeassistant/components/venstar/sensor.py:26-52 | when record names render distinctly, all enumerated entities have pairwise distinct unique ids |
| Sensor.SameNameSameKeyCollide | homeassistant/components/venstar/sensor.py:27-32 | two records with the same name that both carry the key of one kind yield two entities with the same unique id |
| Sensor.TypeName | homeassistant/components/venstar/sensor.py:47 | the type name is "Temperature" iff the kind is temperature, and "Humidity" iff it is humidity |
| Sensor.DisplayName | homeassistant/components/venstar/sensor.py:57 | the display name starts with the client name, a space, the sensor name and a space, ends with the type name followed by " Sensor", and its length accounts for all of these |
| Sensor.DisplayNameInjective | homeassistant/components/venstar/sensor.py:57 | for one client, equal display names mean the same kind and the same rendered sensor name |
| Sensor.EntityDeviceClass | homeassistant/components/venstar/sensor.py:62-64 | the device class is temperature iff the kind is temperature, and humidity otherwise |
| Sensor.UnitOf | homeassistant/components/venstar/sensor.py:69-73 | the unit is °F iff temperature kind with tempunits 0, °C iff temperature kind with other tempunits, and percent iff humidity kind |
| Sensor.UnitMatchesDeviceClass | homeassistant/components/venstar/sensor.py:62-73 | a temperature device class always has a temperature unit, and a humidity class always has percent |
| Sensor.Lookup | homeassistant/components/venstar/sensor.py:78-81 | the value is absent when no record has the name; otherwise it is the key's value in the first record with that name (absent if that record lacks the key) |
| Sensor.State | homeassistant/components/venstar/sensor.py:76-81 | an absent sensor list raises TypeError; otherwise the state is the first-match lookup of the entity's kind key |
| Sensor.StateThroughAccessor | homeassistant/components/venstar/__init__.py:192-197 | reading a state through the client's `sensors` accessor succeeds iff the raw response is a non-empty dictionary with a "sensors" entry, and then looks that entry up; an empty response makes the read raise TypeError |
| Sensor.StateShadowed | homeassistant/components/venstar/sensor.py:78-81 | a later same-named record never supplies the value that the first same-named record lacks |
| Sensor.EnumeratedStateFound | homeassistant/components/venstar/sensor.py:26-81 | with distinct record names, every enumerated entity reads its value from the record that produced it |
| Sensor.OutdoorExample | homeassistant/components/venstar/sensor.py:26-81 | two "Outdoor" records (one temp, one hum) give two entities; the temperature reads 72 and the humidity reads nothing |
| Venstar.UpdateData | homeassistant/components/venstar/__init__.py:179-190 | the refresh never raises; it succeeds iff both fetches return truthy; the info is fetched first; the sensors are fetched iff fetching the info did not raise; each fetch is made at most once and nothing else is called |
| Venstar.Setup | homeassistant/components/venstar/__init__.py:173-177 | setup succeeds iff login and both fetches succeed; it raises iff login raises; it refreshes iff login returned truthy; login is always called first; after a falsy or raising login nothing but the login is called |
| Venstar.SetupIsLoginThenUpdate | homeassistant/components/venstar/__init__.py:173-177 | after a successful login, setup gives the refresh's outcome, with the login call prepended |
| Venstar.Sensors | homeassistant/components/venstar/__init__.py:192-197 | absent for an absent or empty raw response; otherwise present iff the response has "sensors", and then equal to that entry |
| Venstar.ProtocolOf | homeassistant/components/venstar/__init__.py:60 | https iff the ssl flag is truthy, otherwise http |
| Venstar.ValidateInput | homeassistant/components/venstar/__init__.py:53-78 | a client comes back iff setup succeeds; a login that raises gives RequestException; every other failure is CannotConnect; the client carries the host, credentials, timeout and the protocol picked by ssl |
| Venstar.ApplySchema | homeassistant/components/venstar/__init__.py:34-46 | accepted iff the host is present and any given timeout or interval is positive; the defaults are humidifier true, ssl false, timeout 5, interval 30 |
| Venstar.SchemaIdempotent | homeassistant/components/venstar/__init__.py:34-46 | the schema leaves a normalized configuration unchanged, so applying it twice equals applying it once |
| Venstar.SchemaDefaults | homeassistant/components/venstar/__init__.py:39-43 | a configuration with only a host gets humidifier true, ssl false, timeout 5 and interval 30 |
| Venstar.SetupEntry | homeassistant/components/venstar/__init__.py:97-137 | CannotConnect becomes ConfigEntryNotReady and never escapes; a raising login escapes as RequestException; a missing interval raises TypeError; on success only this entry's stored data changes (client, humidifier flag, interval); a listener is added only when there is none |
| Venstar.SetupAgainKeepsListeners | homeassistant/components/venstar/__init__.py:134-135 | after one setup the entry has a listener, and any later setup keeps the listener count unchanged |
| Venstar.CoordinatorUpdate | homeassistant/components/venstar/__init__.py:106-113 | the coordinator's update succeeds iff both fetches succeed, and otherwise raises UpdateFailed |
| Venstar.UnloadEntry | homeassistant/components/venstar/__init__.py:140-153 | the stored data is removed iff every platform unloaded; otherwise it is untouched; removing an id that is not stored raises KeyError |
| Venstar.SetupThenUnload | homeassistant/components/venstar/__init__.py:123-153 | a successful setup of a new entry, followed by a full unload, leaves the store as it was |
| ConfigFlow.StepUser | homeassistant/components/venstar/config_flow.py:37-68 | no input shows the form with no errors; CannotConnect shows it with {"client": "cannot_connect"}; after a successful validation, a new unique id creates an entry titled with the device name that holds the unchanged input, and a known id aborts as already configured; a login that raises escapes as RequestException |
| ConfigFlow.StepImport | homeassistant/components/venstar/config_flow.py:33-35 | an import never shows the empty form, and an entry it creates holds the imported data unchanged |
| ConfigFlow.ImportTwiceAborts | homeassistant/components/venstar/config_flow.py:33-50 | importing the same host of the same device twice aborts the second time, and the configured ids stay unchanged |
| ConfigFlow.Replay | homeassistant/components/venstar/config_flow.py:47-50 | over any run of imports, created unique ids are new and pairwise distinct, and the configured set grows by exactly those ids |
| ConfigFlow.OptionsInit | homeassistant/components/venstar/config_flow.py:78-96 | no input shows the form; any input creates an entry with an empty title whose data is exactly the input |
| ConfigFlow.OptionsSkipValidation | homeassistant/components/venstar/config_flow.py:78-81 | data that the user step rejects with the connectivity error is stored as is by the options step |

## Left out

- The device library's HTTP protocol, authentication and timeouts are not modelled. Its calls and attributes are oracle parameters.
- The update coordinator's scheduling, single-flight refresh and listener fan-out are not modelled, because they belong to the host platform. Only the update method handed to the coordinator is modelled (`Venstar.CoordinatorUpdate`).
- Offloading blocking calls to the executor, task creation and `asyncio.gather` are concurrency mechanics. They are modelled as sequential calls in source order.
- The host platform's `hass.data` registry is modelled only as the map `Venstar.Store` that entry setup and unload update.
- Forwarding to the climate and sensor platforms, `async_reload`, and the import fan-out of `async_setup` are host-platform calls and are not modelled. Unload takes each platform's unload result as a parameter.
- `async_added_to_hass` and `async_update` of the sensor entity only subscribe to the coordinator or request a refresh from it. They are host plumbing and are not modelled.
- Logging is not modelled, since it has no observable effect.
- The climate platform is not part of this model.
- Venstar.ApplySchema: it does not model voluptuous/`cv` coercion, such as strings to booleans or integers, and it does not model extra keys passing through. "Positive" is taken literally (at least 1). The platform's `cv.positive_int` is not part of this model.
- Types.Lower: it folds ASCII letters only. Python's `str.lower()` also folds non-ASCII letters.
- Sensor readings are modelled as text or integers; floating-point readings and JSON nulls are not modelled. Rendering a name covers text, integers and a missing name ("None").
- The dead branch `if not client: return False` in entry setup is omitted. `validate_input` either returns a client object, which is always truthy, or raises.
- Exceptions other than `RequestException` from the device library are not modelled.
- Sensor.SetupEntities: the list after the one refresh is an independent oracle parameter. It is not tied to the fetch outcomes, because the library's update of its sensor response is not part of this model.
