/**
 The sensor platform: which entities a device's sensor list yields, how each
 entity is identified and displayed, and how it reads its state back out of
 the sensor list.
 */
module Sensor {
  import opened Types
  import opened Venstar

  datatype Kind = Temp | Hum

  /** The record key (and unique-id suffix) of a kind. */
  function KindKey(k: Kind): (key: string)
    ensures key == TempKey <==> k == Temp
    ensures key == HumKey <==> k == Hum
  {
    match k
    case Temp => TempKey
    case Hum => HumKey
  }

  /** A sensor entity: the name it was created with (`sensor.get("name")`,
      absent when the record has no name) and its kind. */
  datatype Entity = Entity(name: Option<Value>, kind: Kind)

  /** Record `r` gives rise to entity `e`. */
  ghost predicate Yields(r: Record, e: Entity)
  {
    KindKey(e.kind) in r && e.name == Get(r, NameKey)
  }

  /** The entities one record contributes: a temperature entity when it has
      a "temp" key, then a humidity entity when it has a "hum" key. */
  function EntitiesOf(r: Record): (es: seq<Entity>)
    ensures |es| == (if TempKey in r then 1 else 0) + (if HumKey in r then 1 else 0)
    ensures TempKey in r ==> es[0] == Entity(Get(r, NameKey), Temp)
    ensures HumKey in r ==> es[|es| - 1] == Entity(Get(r, NameKey), Hum)
    ensures forall e :: e in es <==> Yields(r, e)
  {
    var name := Get(r, NameKey);
    (if TempKey in r then [Entity(name, Temp)] else [])
    + (if HumKey in r then [Entity(name, Hum)] else [])
  }

  /** Number of records of `s` that carry `key`. */
  function CountKey(s: seq<Record>, key: string): (n: nat)
    ensures n <= |s|
  {
    if |s| == 0 then 0
    else CountKey(s[..|s| - 1], key) + (if key in s[|s| - 1] then 1 else 0)
  }

  /** The enumeration loop of the sensor platform's setup, record by record
      in list order. */
  function Enumerate(s: seq<Record>): (es: seq<Entity>)
    ensures |es| == CountKey(s, TempKey) + CountKey(s, HumKey)
  {
    if |s| == 0 then []
    else Enumerate(s[..|s| - 1]) + EntitiesOf(s[|s| - 1])
  }

  /** The same loop as the platform's setup writes it: append to a list while walking
      the records. */
  method EnumerateLoop(s: seq<Record>) returns (es: seq<Entity>)
    ensures es == Enumerate(s)
    ensures |es| == CountKey(s, TempKey) + CountKey(s, HumKey)
  {
    es := [];
    var i := 0;
    while i < |s|
      invariant 0 <= i <= |s|
      invariant es == Enumerate(s[..i])
    {
      var r := s[i];
      if TempKey in r {
        es := es + [Entity(Get(r, NameKey), Temp)];
      }
      if HumKey in r {
        es := es + [Entity(Get(r, NameKey), Hum)];
      }
      assert s[..i + 1][..i] == s[..i];
      i := i + 1;
    }
    assert s[..i] == s;
  }

  /** Enumeration distributes over concatenation: the entities of a list
      are those of its first part followed by those of its rest. */
  lemma {:induction false} EnumerateAppend(s: seq<Record>, t: seq<Record>)
    ensures Enumerate(s + t) == Enumerate(s) + Enumerate(t)
    decreases |t|
  {
    if |t| == 0 {
      assert s + t == s;
    } else {
      var t' := t[..|t| - 1];
      var u := s + t;
      assert u[..|u| - 1] == s + t';
      assert u[|u| - 1] == t[|t| - 1];
      calc {
        Enumerate(u);
        Enumerate(s + t') + EntitiesOf(t[|t| - 1]);
        { EnumerateAppend(s, t'); }
        Enumerate(s) + Enumerate(t') + EntitiesOf(t[|t| - 1]);
        Enumerate(s) + Enumerate(t);
      }
    }
  }

  /** An entity is enumerated iff some record of the list yields it. */
  lemma {:induction false} EnumerateMembers(s: seq<Record>, e: Entity)
    ensures e in Enumerate(s) <==> exists i :: 0 <= i < |s| && Yields(s[i], e)
    decreases |s|
  {
    if |s| > 0 {
      var p := s[..|s| - 1];
      EnumerateMembers(p, e);
      if exists i :: 0 <= i < |p| && Yields(p[i], e) {
        var i :| 0 <= i < |p| && Yields(p[i], e);
        assert Yields(s[i], e);
      }
      if exists i :: 0 <= i < |s| && Yields(s[i], e) {
        var i :| 0 <= i < |s| && Yields(s[i], e);
        if i < |p| {
          assert Yields(p[i], e);
        }
      }
    }
  }

  /** Sensor-platform setup.  `current` is the client's sensor list when the
      platform starts.  When it is falsy (absent or empty) the client is
      refreshed once, with fetch outcomes `info` and `sensors`, and
      `refreshed` is the list afterwards.  Iterating an absent list raises. */
  function SetupEntities(current: Option<seq<Record>>, info: Call, sensors: Call,
                         refreshed: Option<seq<Record>>): (r: Run<seq<Entity>>)
    ensures current.Some? && |current.value| > 0 ==>
              r == Run(Success(Enumerate(current.value)), [])
    ensures current.None? || current.value == [] ==>
              && r.calls == UpdateData(info, sensors).calls
              && (r.result.Success? <==> refreshed.Some?)
              && (r.result.Success? ==> r.result.value == Enumerate(refreshed.value))
    ensures r.result.Failure? ==> r.result.error == TypeError
    ensures Login !in r.calls && (|r.calls| == 0 || r.calls[0] == UpdateInfo)
  {
    var falsy := current.None? || |current.value| == 0;
    var calls := if falsy then UpdateData(info, sensors).calls else [];
    var list := if falsy then refreshed else current;
    match list
    case None => Run(Failure(TypeError), calls)
    case Some(s) => Run(Success(Enumerate(s)), calls)
  }

  /** The client's `sensors` accessor feeding a state read: the read
      succeeds iff the raw sensor response is a non-empty dictionary with a
      "sensors" entry, and then it looks up that entry; an empty response
      makes the read raise. */
  lemma StateThroughAccessor(e: Entity, raw: Option<map<string, seq<Record>>>)
    ensures State(e, Sensors(Some(map[]))) == Failure(TypeError)
    ensures State(e, Sensors(raw)).Success? <==> raw.Some? && raw.value != map[] && SensorsKey in raw.value
    ensures State(e, Sensors(raw)).Success? ==>
              State(e, Sensors(raw)).value == Lookup(raw.value[SensorsKey], e.name, KindKey(e.kind))
  {
  }

  /** `f"{addr}_{client_name.lower()}_sensor_{name}_{kind}"` */
  function UniqueId(c: Client, e: Entity): (id: string)
    ensures EntryUniqueId(c.addr, c.name) + "_sensor_" <= id
    ensures |id| == |EntryUniqueId(c.addr, c.name)| + 8 + |Render(e.name)| + 1 + |KindKey(e.kind)|
  {
    EntryUniqueId(c.addr, c.name) + "_sensor_" + Render(e.name) + "_" + KindKey(e.kind)
  }

  /** For one client the unique id determines the rendered sensor name and
      the kind: the last character of the id ('p' or 'm') fixes the kind, and
      then the length fixes the name. */
  lemma UniqueIdInjective(c: Client, e1: Entity, e2: Entity)
    requires UniqueId(c, e1) == UniqueId(c, e2)
    ensures e1.kind == e2.kind
    ensures Render(e1.name) == Render(e2.name)
  {
    var id := UniqueId(c, e1);
    var p := EntryUniqueId(c.addr, c.name) + "_sensor_";
    assert id[|id| - 1] == (if e1.kind == Temp then 'p' else 'm');
    assert UniqueId(c, e2)[|id| - 1] == (if e2.kind == Temp then 'p' else 'm');
    assert e1.kind == e2.kind;
    var k := "_" + KindKey(e1.kind);
    assert id == p + Render(e1.name) + k;
    assert UniqueId(c, e2) == p + Render(e2.name) + k;
    assert Render(e1.name) == id[|p|..|id| - |k|];
  }

  /** "Temperature" for a temperature entity, "Humidity" otherwise. */
  function TypeName(k: Kind): (t: string)
    ensures t == "Temperature" <==> k == Temp
    ensures t == "Humidity" <==> k == Hum
  {
    match k
    case Temp => "Temperature"
    case Hum => "Humidity"
  }

  /** `f"{client_name} {name} {type_name} Sensor"` */
  function DisplayName(c: Client, e: Entity): (n: string)
    ensures c.name + " " + Render(e.name) + " " <= n
    ensures |n| == |c.name| + |Render(e.name)| + |TypeName(e.kind)| + 9
    ensures n[|n| - |TypeName(e.kind)| - 7..] == TypeName(e.kind) + " Sensor"
  {
    c.name + " " + Render(e.name) + " " + TypeName(e.kind) + " Sensor"
  }

  /** The character 15 from the end of a display name tells the kinds
      apart: the "p" of "Temperature" or the "H" of "Humidity". */
  lemma DisplayNameKindChar(c: Client, e: Entity)
    ensures var n := DisplayName(c, e); n[|n| - 15] == (if e.kind == Temp then 'p' else 'H')
  {
    var n := DisplayName(c, e);
    var t := TypeName(e.kind) + " Sensor";
    assert n[|n| - |t|..] == t;
    assert n[|n| - 15] == t[|t| - 15];
  }

  /** The rendered record name sits right after the device name and a space. */
  lemma DisplayNameRenderPart(c: Client, e: Entity)
    ensures DisplayName(c, e)[|c.name| + 1..|c.name| + 1 + |Render(e.name)|] == Render(e.name)
  {
    var p := c.name + " " + Render(e.name) + " ";
    assert p <= DisplayName(c, e);
    assert p[|c.name| + 1..|c.name| + 1 + |Render(e.name)|] == Render(e.name);
  }

  /** For one client the display name determines the rendered sensor name
      and the kind: "Humidity Sensor" is not a suffix of "Temperature Sensor". */
  lemma DisplayNameInjective(c: Client, e1: Entity, e2: Entity)
    requires DisplayName(c, e1) == DisplayName(c, e2)
    ensures e1.kind == e2.kind
    ensures Render(e1.name) == Render(e2.name)
  {
    DisplayNameKindChar(c, e1);
    DisplayNameKindChar(c, e2);
    DisplayNameRenderPart(c, e1);
    DisplayNameRenderPart(c, e2);
  }

  datatype DeviceClass = TemperatureClass | HumidityClass

  function EntityDeviceClass(k: Kind): (d: DeviceClass)
    ensures d == TemperatureClass <==> k == Temp
    ensures d == HumidityClass <==> k == Hum
  {
    match k
    case Temp => TemperatureClass
    case Hum => HumidityClass
  }

  datatype Unit = Fahrenheit | Celsius | Percent

  /** Unit of measurement; `tempunits` 0 is the device's Fahrenheit setting. */
  function UnitOf(k: Kind, tempunits: int): (u: Unit)
    ensures u == Fahrenheit <==> k == Temp && tempunits == 0
    ensures u == Celsius <==> k == Temp && tempunits != 0
    ensures u == Percent <==> k == Hum
  {
    match k
    case Temp => if tempunits == 0 then Fahrenheit else Celsius
    case Hum => Percent
  }

  /** The unit always agrees with the device class. */
  lemma UnitMatchesDeviceClass(k: Kind, tempunits: int)
    ensures EntityDeviceClass(k) == TemperatureClass <==> UnitOf(k, tempunits) in {Fahrenheit, Celsius}
    ensures EntityDeviceClass(k) == HumidityClass <==> UnitOf(k, tempunits) == Percent
  {
  }

  /** `i` is the position of the first record of `s` named `name`. */
  ghost predicate IsFirstMatch(s: seq<Record>, name: Option<Value>, i: int)
  {
    && 0 <= i < |s|
    && Get(s[i], NameKey) == name
    && forall j :: 0 <= j < i ==> Get(s[j], NameKey) != name
  }

  /** The state lookup loop: the `key` field of the first record named
      `name`, absent when no record has that name. */
  function Lookup(s: seq<Record>, name: Option<Value>, key: string): (v: Option<Value>)
    ensures (forall i :: 0 <= i < |s| ==> Get(s[i], NameKey) != name) ==> v == None
    ensures forall i :: IsFirstMatch(s, name, i) ==> v == Get(s[i], key)
  {
    if |s| == 0 then None
    else if Get(s[0], NameKey) == name then Get(s[0], key)
    else
      var v := Lookup(s[1..], name, key);
      assert forall i :: IsFirstMatch(s, name, i) ==> IsFirstMatch(s[1..], name, i - 1);
      v
  }

  /** The entity's state read from the client's current sensor list.  An
      absent list is iterated and raises. */
  function State(e: Entity, sensors: Option<seq<Record>>): (r: Result<Option<Value>, Exc>)
    ensures sensors.None? <==> r == Failure(TypeError)
    ensures sensors.Some? ==> r.Success?
    ensures sensors.Some? ==> r.value == Lookup(sensors.value, e.name, KindKey(e.kind))
  {
    match sensors
    case None => Failure(TypeError)
    case Some(s) => Success(Lookup(s, e.name, KindKey(e.kind)))
  }

  /** A later record with the same name never supplies a value: when the
      first record named like the entity lacks the entity's key, the state is
      absent even if a later same-named record has it. */
  lemma StateShadowed(e: Entity, s: seq<Record>, i: nat, j: nat)
    requires i < j < |s|
    requires IsFirstMatch(s, e.name, i)
    requires KindKey(e.kind) !in s[i]
    requires Get(s[j], NameKey) == e.name && KindKey(e.kind) in s[j]
    ensures State(e, Some(s)) == Success(None)
  {
  }

  /** When record names are distinct, each enumerated entity reads its value
      from the very record that produced it. */
  lemma EnumeratedStateFound(s: seq<Record>, i: nat, k: Kind)
    requires i < |s|
    requires forall a, b :: 0 <= a < b < |s| ==> Get(s[a], NameKey) != Get(s[b], NameKey)
    requires KindKey(k) in s[i]
    ensures Entity(Get(s[i], NameKey), k) in Enumerate(s)
    ensures State(Entity(Get(s[i], NameKey), k), Some(s)) == Success(Some(s[i][KindKey(k)]))
  {
    var e := Entity(Get(s[i], NameKey), k);
    assert Yields(s[i], e);
    EnumerateMembers(s, e);
    assert IsFirstMatch(s, e.name, i);
  }

  /** No two entities of `es` share a unique id. */
  ghost predicate DistinctIds(c: Client, es: seq<Entity>)
  {
    forall a, b :: 0 <= a < b < |es| ==> UniqueId(c, es[a]) != UniqueId(c, es[b])
  }

  /** When the records' names render distinctly, the enumerated entities
      have pairwise distinct unique ids. */
  lemma {:induction false} EnumeratedIdsDistinct(c: Client, s: seq<Record>)
    requires forall a, b :: 0 <= a < b < |s| ==> Render(Get(s[a], NameKey)) != Render(Get(s[b], NameKey))
    ensures DistinctIds(c, Enumerate(s))
    decreases |s|
  {
    if |s| > 0 {
      var p := s[..|s| - 1];
      var r := s[|s| - 1];
      EnumeratedIdsDistinct(c, p);
      var front := Enumerate(p);
      var last := EntitiesOf(r);
      var es := front + last;
      assert Enumerate(s) == es;
      forall a, b | 0 <= a < b < |es|
        ensures UniqueId(c, es[a]) != UniqueId(c, es[b])
      {
        if b < |front| {
          assert es[a] == front[a] && es[b] == front[b];
        } else if a >= |front| {
          assert es[a] == last[a - |front|] && es[b] == last[b - |front|];
          assert es[a].kind != es[b].kind;
          if UniqueId(c, es[a]) == UniqueId(c, es[b]) {
            UniqueIdInjective(c, es[a], es[b]);
          }
        } else {
          assert es[a] in front;
          assert es[b] in last;
          EnumerateMembers(p, es[a]);
          var x :| 0 <= x < |p| && Yields(p[x], es[a]);
          assert Render(es[a].name) == Render(Get(s[x], NameKey));
          assert Render(es[b].name) == Render(Get(s[|s| - 1], NameKey));
          if UniqueId(c, es[a]) == UniqueId(c, es[b]) {
            UniqueIdInjective(c, es[a], es[b]);
          }
        }
      }
    }
  }

  /** Position of the entity of kind `k` among the entities of a record
      that has `k`'s key. */
  function KindPosition(r: Record, k: Kind): (p: nat)
    requires KindKey(k) in r
    ensures p < |EntitiesOf(r)| && EntitiesOf(r)[p] == Entity(Get(r, NameKey), k)
  {
    match k
    case Temp => 0
    case Hum => |EntitiesOf(r)| - 1
  }

  /** Two records with the same name that both carry the key of one kind
      collide: each yields an entity of that kind under the same name, so
      the two entities share a unique id. */
  lemma SameNameSameKeyCollide(c: Client, r1: Record, r2: Record, k: Kind)
    requires Get(r1, NameKey) == Get(r2, NameKey)
    requires KindKey(k) in r1 && KindKey(k) in r2
    ensures !DistinctIds(c, Enumerate([r1, r2]))
  {
    assert [r1, r2][..1] == [r1];
    assert [r1][..0] == [];
    assert Enumerate([r1]) == Enumerate([]) + EntitiesOf(r1) == EntitiesOf(r1);
    var es := Enumerate([r1, r2]);
    assert es == EntitiesOf(r1) + EntitiesOf(r2);
    var a := KindPosition(r1, k);
    var b := |EntitiesOf(r1)| + KindPosition(r2, k);
    assert es[a] == es[b];
    assert UniqueId(c, es[a]) == UniqueId(c, es[b]);
  }

  /** The two-record "Outdoor" device: two entities that share a name, one of
      each kind; the humidity entity finds the temperature-only record first
      and so reads no value. */
  lemma OutdoorExample()
    ensures
      var outdoor := Some(Text("Outdoor"));
      var s := [map[NameKey := Text("Outdoor"), TempKey := Number(72)],
                map[NameKey := Text("Outdoor"), HumKey := Number(45)]];
      && Enumerate(s) == [Entity(outdoor, Temp), Entity(outdoor, Hum)]
      && State(Entity(outdoor, Temp), Some(s)) == Success(Some(Number(72)))
      && State(Entity(outdoor, Hum), Some(s)) == Success(None)
  {
    var outdoor := Some(Text("Outdoor"));
    var r0 := map[NameKey := Text("Outdoor"), TempKey := Number(72)];
    var r1 := map[NameKey := Text("Outdoor"), HumKey := Number(45)];
    var s := [r0, r1];
    assert HumKey !in r0 && TempKey !in r1;
    assert s[..1] == [r0];
    assert [r0][..0] == [];
    assert IsFirstMatch(s, outdoor, 0);
  }
}
