/**
 Shared vocabulary of the Venstar integration: the failure-carrying
 wrappers, the exceptions that cross the modelled functions, the oracle
 outcomes of calls into the device library, the device's sensor records,
 the connection configuration and the client object, and the two string
 helpers (`str.lower()` and f-string rendering) the identifiers are built from.
 */
module Types {

  datatype Option<+T> = None | Some(value: T)

  datatype Result<+T, +E> = Success(value: T) | Failure(error: E)

  /** The exceptions that can leave one of the modelled functions. */
  datatype Exc =
    | RequestException     // transport failure raised by the device library
    | CannotConnect        // the integration's own connectivity error
    | ConfigEntryNotReady  // host signal: retry the entry setup later
    | UpdateFailed         // host signal: this refresh of the coordinator failed
    | TypeError            // iterating a missing sensor list, or a missing interval
    | KeyError             // removing an entry id that is not stored

  /** Outcome of one blocking call into the device library: it returned a
      value of the given truthiness, or it raised a `RequestException`. */
  datatype Call = Returned(truthy: bool) | Raised

  /** A JSON scalar reported by the device. */
  datatype Value = Text(s: string) | Number(n: int)

  /** One entry of the device's sensor list, e.g. {"name": "Outdoor", "temp": 72}. */
  type Record = map<string, Value>

  const NameKey: string := "name"
  const TempKey: string := "temp"
  const HumKey: string := "hum"
  const SensorsKey: string := "sensors"

  /** `record.get(key)` */
  function Get(r: Record, key: string): (v: Option<Value>)
    ensures v.Some? <==> key in r
    ensures v.Some? ==> v.value == r[key]
  {
    if key in r then Some(r[key]) else None
  }

  datatype Protocol = Http | Https

  /** The connection configuration as stored in a config entry.  Every key
      but the host is optional in the dictionary, hence `Option`. */
  datatype ConfigData = ConfigData(
    host: string,
    username: Option<string>,
    password: Option<string>,
    pin: Option<string>,
    humidifier: Option<bool>,
    ssl: Option<bool>,
    timeout: Option<int>,
    interval: Option<int>)

  /** The client object: the connection parameters it was built with, and
      what the device library reports (its name, temperature units and the
      raw response of its sensor query, `_sensors`). */
  datatype Client = Client(
    addr: string,
    name: string,
    proto: Protocol,
    username: Option<string>,
    password: Option<string>,
    pin: Option<string>,
    timeout: Option<int>,
    tempunits: int,
    rawSensors: Option<map<string, seq<Record>>>)

  /** ASCII case folding of one character. */
  function LowerChar(c: char): (d: char)
  {
    if 'A' <= c <= 'Z' then (c as int - 'A' as int + 'a' as int) as char else c
  }

  /** `str.lower()` restricted to ASCII letters. */
  function Lower(s: string): (r: string)
    ensures |r| == |s|
    ensures forall i :: 0 <= i < |s| ==> r[i] == LowerChar(s[i])
  {
    seq(|s|, i requires 0 <= i < |s| => LowerChar(s[i]))
  }

  function DigitChar(d: nat): (c: char)
    requires d < 10
    ensures '0' <= c <= '9'
  {
    "0123456789"[d]
  }

  /** Decimal notation of a natural number, without leading zeros. */
  function NatToString(n: nat): (s: string)
    ensures |s| > 0
    ensures forall i :: 0 <= i < |s| ==> '0' <= s[i] <= '9'
    decreases n
  {
    if n < 10 then [DigitChar(n)] else NatToString(n / 10) + [DigitChar(n % 10)]
  }

  /** `str(value)` as an f-string renders it: `None` for a missing value. */
  function Render(v: Option<Value>): (s: string)
  {
    match v
    case None => "None"
    case Some(Text(t)) => t
    case Some(Number(n)) => if n < 0 then "-" + NatToString(-n) else NatToString(n)
  }

  /** Lower-casing twice is lower-casing once. */
  lemma LowerIdempotent(s: string)
    ensures Lower(Lower(s)) == Lower(s)
  {
  }

  /** The config entry's unique id, `f"{addr}_{name.lower()}"`. */
  function EntryUniqueId(addr: string, name: string): (id: string)
    ensures |id| == |addr| + 1 + |name|
    ensures id[..|addr|] == addr && id[|addr|] == '_'
  {
    addr + "_" + Lower(name)
  }

  /** Device names that differ only in ASCII letter case give the same
      entry id. */
  lemma EntryUniqueIdIgnoresCase(addr: string, name: string)
    ensures EntryUniqueId(addr, Lower(name)) == EntryUniqueId(addr, name)
  {
    LowerIdempotent(name);
  }
}
