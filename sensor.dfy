/** The sensor platform (custom_components/kstar_solar/sensor.py) and the
    sensor table it runs over (custom_components/kstar_solar/const.py).

    A sensor's attributes are assigned once, when it is built, and never
    change afterwards, so a sensor is a value here. Construction reads keys
    of its table entry and can fail with a KeyError, so building one gives a
    `Result`. */
module Sensor {
  import opened Basics
  import opened KstarApi

  /** One entry of the sensor table: attribute name to text. */
  type SensorInfo = map<string, string>

  /** `SENSOR_TYPES`, in its insertion order. The last five entries have no
      "device_class". */
  const SensorTypes: seq<(string, SensorInfo)> := [
    ("realPower", map["name" := "实时功率", "unit" := "W", "icon" := "mdi:solar-power", "device_class" := "power"]),
    ("dayGeneration", map["name" := "日发电量", "unit" := "kWh", "icon" := "mdi:solar-panel", "device_class" := "energy"]),
    ("monthGeneration", map["name" := "月发电量", "unit" := "kWh", "icon" := "mdi:solar-panel-large", "device_class" := "energy"]),
    ("yearGeneration", map["name" := "年发电量", "unit" := "kWh", "icon" := "mdi:solar-panel-large", "device_class" := "energy"]),
    ("totalGeneration", map["name" := "总发电量", "unit" := "kWh", "icon" := "mdi:solar-panel-large", "device_class" := "energy"]),
    ("dayEarn", map["name" := "日收益", "unit" := "元", "icon" := "mdi:currency-cny"]),
    ("totalEarn", map["name" := "总收益", "unit" := "元", "icon" := "mdi:currency-cny"]),
    ("co2", map["name" := "CO2减排量", "unit" := "kg", "icon" := "mdi:molecule-co2"]),
    ("coal", map["name" := "节煤量", "unit" := "kg", "icon" := "mdi:fire"]),
    ("forest", map["name" := "森林面积", "unit" := "m²", "icon" := "mdi:tree"])
  ]

  datatype DeviceClass = Power | Energy | Monetary | Weight | Area

  datatype StateClass = Measurement | Total

  /** The `device_class_map` of `_get_device_class`. */
  const DeviceClassMap: map<string, DeviceClass> := map[
    "power" := Power, "energy" := Energy, "monetary" := Monetary, "weight" := Weight, "area" := Area
  ]

  /** The sensor types `_get_state_class` gives the TOTAL state class. */
  const TotalTypes: seq<string> := [
    "day_generation", "month_generation", "year_generation", "total_generation",
    "day_earn", "total_earn", "co2", "coal", "forest"
  ]

  // The host platform's unit texts.
  const Watt := "W"
  const KiloWattHour := "kWh"
  const CurrencyYuan := "CNY"
  const Kilograms := "kg"
  const SquareMeters := "m²"

  /** The `unit_map` of `_get_unit_of_measurement`; its last key is the
      UTF-8 bytes of "m²" misread as Latin-1. */
  const UnitMap: map<string, string> := map[
    "W" := Watt, "kWh" := KiloWattHour, "CNY" := CurrencyYuan, "kg" := Kilograms, "mÂ²" := SquareMeters
  ]

  /** `_get_device_class`: defined on exactly the five known names. */
  function DeviceClassOf(name: string): (r: Option<DeviceClass>)
    ensures r.Some? <==> name in {"power", "energy", "monetary", "weight", "area"}
    ensures name == "power" ==> r == Some(Power)
    ensures name == "energy" ==> r == Some(Energy)
    ensures name == "monetary" ==> r == Some(Monetary)
    ensures name == "weight" ==> r == Some(Weight)
    ensures name == "area" ==> r == Some(Area)
  {
    if name in DeviceClassMap then Some(DeviceClassMap[name]) else None
  }

  /** `_get_state_class`: MEASUREMENT for "real_power", TOTAL for the nine
      listed snake_case types, nothing for any other type. */
  function StateClassOf(sensorType: string): (r: Option<StateClass>)
    ensures r == Some(Measurement) <==> sensorType == "real_power"
    ensures r == Some(Total) <==> sensorType in TotalTypes
    ensures r == None <==> sensorType != "real_power" && sensorType !in TotalTypes
  {
    if sensorType == "real_power" then Some(Measurement)
    else if sensorType in TotalTypes then Some(Total)
    else None
  }

  /** `_get_unit_of_measurement`: `unit_map.get(unit, unit)`. */
  function UnitOf(unit: string): (r: string)
    ensures unit !in UnitMap ==> r == unit
  {
    if unit in UnitMap then UnitMap[unit] else unit
  }

  /** The unit table changes only the misread square-metre key, and mapping
      twice is mapping once. */
  lemma UnitOfIsNearlyIdentity(unit: string)
    ensures unit != "mÂ²" ==> UnitOf(unit) == unit
    ensures unit == "mÂ²" ==> UnitOf(unit) == "m²"
    ensures UnitOf(UnitOf(unit)) == UnitOf(unit)
  {
  }

  /** A built sensor: its type and table entry, and the attributes its
      constructor assigns. */
  datatype Sensor = Sensor(
    sensorType: string,
    info: SensorInfo,
    name: string,
    uniqueId: string,
    deviceClass: Option<DeviceClass>,
    stateClass: Option<StateClass>,
    unit: string,
    icon: string)

  datatype KeyError = KeyError(key: string)

  /** The name a sensor shows. */
  function DisplayName(info: SensorInfo): (n: string)
    requires "name" in info
    ensures |n| == 12 + |info["name"]| && n[..12] == "Kstar Solar " && n[12..] == info["name"]
  {
    "Kstar Solar " + info["name"]
  }

  /** The unique id of a sensor of one config entry. */
  function UniqueId(entryId: string, sensorType: string): (u: string)
    ensures |u| == |entryId| + 1 + |sensorType|
    ensures u[..|entryId|] == entryId && u[|entryId|] == '_' && u[|entryId| + 1..] == sensorType
  {
    entryId + "_" + sensorType
  }

  /** `KstarSolarSensor.__init__`: the keys "name", "device_class", "unit"
      and "icon" are read in that order, and the first one missing raises. */
  function NewSensor(entryId: string, sensorType: string, info: SensorInfo): (r: Result<Sensor, KeyError>)
    ensures r.Success? <==> "name" in info && "device_class" in info && "unit" in info && "icon" in info
    ensures r.Failure? ==> r.error.key !in info
    ensures r == Failure(KeyError("name")) <==> "name" !in info
    ensures r == Failure(KeyError("device_class")) <==> "name" in info && "device_class" !in info
    ensures r == Failure(KeyError("unit")) <==> "name" in info && "device_class" in info && "unit" !in info
    ensures r == Failure(KeyError("icon")) <==>
      "name" in info && "device_class" in info && "unit" in info && "icon" !in info
    ensures r.Success? ==>
      && r.value.sensorType == sensorType && r.value.info == info
      && r.value.name == DisplayName(info)
      && r.value.uniqueId == UniqueId(entryId, sensorType)
      && r.value.deviceClass == DeviceClassOf(info["device_class"])
      && r.value.stateClass == StateClassOf(sensorType)
      && r.value.unit == UnitOf(info["unit"])
      && r.value.icon == info["icon"]
  {
    if "name" !in info then Failure(KeyError("name"))
    else if "device_class" !in info then Failure(KeyError("device_class"))
    else if "unit" !in info then Failure(KeyError("unit"))
    else if "icon" !in info then Failure(KeyError("icon"))
    else
      Success(Sensor(sensorType, info, DisplayName(info), UniqueId(entryId, sensorType),
                     DeviceClassOf(info["device_class"]), StateClassOf(sensorType),
                     UnitOf(info["unit"]), info["icon"]))
  }

  /** Within one config entry, distinct sensor types give distinct unique
      ids, and the id gives the type back. */
  lemma UniqueIdDeterminesType(entryId: string, t1: string, t2: string)
    ensures UniqueId(entryId, t1)[|entryId| + 1..] == t1
    ensures UniqueId(entryId, t1) == UniqueId(entryId, t2) ==> t1 == t2
  {
  }

  /** The table's types are pairwise distinct, so the sensors of one entry
      have pairwise distinct unique ids. */
  lemma ConfiguredIdsDistinct(entryId: string)
    ensures forall i, j :: 0 <= i < j < |SensorTypes| ==>
      UniqueId(entryId, SensorTypes[i].0) != UniqueId(entryId, SensorTypes[j].0)
  {
    forall i, j | 0 <= i < j < |SensorTypes|
      ensures UniqueId(entryId, SensorTypes[i].0) != UniqueId(entryId, SensorTypes[j].0)
    {
      UniqueIdDeterminesType(entryId, SensorTypes[i].0, SensorTypes[j].0);
    }
  }

  /** The first five entries of the configured table build, as one power
      sensor and four energy sensors. */
  lemma ConfiguredBuilds(entryId: string)
    ensures forall k :: 0 <= k < 5 ==>
      NewSensor(entryId, SensorTypes[k].0, SensorTypes[k].1).Success?
    ensures NewSensor(entryId, SensorTypes[0].0, SensorTypes[0].1).value.deviceClass == Some(Power)
    ensures forall k :: 1 <= k < 5 ==>
      NewSensor(entryId, SensorTypes[k].0, SensorTypes[k].1).value.deviceClass == Some(Energy)
  {
    forall k | 0 <= k < 5
      ensures NewSensor(entryId, SensorTypes[k].0, SensorTypes[k].1).Success?
      ensures k > 0 ==> NewSensor(entryId, SensorTypes[k].0, SensorTypes[k].1).value.deviceClass == Some(Energy)
    {
      assert SensorTypes[k].1["device_class"] == if k == 0 then "power" else "energy";
    }
  }

  /** The last five entries of the configured table have no "device_class",
      so building any of them raises a KeyError for that key. */
  lemma ConfiguredFailures(entryId: string)
    ensures forall k :: 5 <= k < |SensorTypes| ==>
      NewSensor(entryId, SensorTypes[k].0, SensorTypes[k].1) == Failure(KeyError("device_class"))
  {
    forall k | 5 <= k < |SensorTypes|
      ensures NewSensor(entryId, SensorTypes[k].0, SensorTypes[k].1) == Failure(KeyError("device_class"))
    {
      assert "name" in SensorTypes[k].1 && "device_class" !in SensorTypes[k].1;
    }
  }

  /** The camelCase types of the configured table are none of the names
      `_get_state_class` knows, so they get no state class; only "co2",
      "coal" and "forest" coincide with listed names and would be TOTAL. */
  lemma ConfiguredStateClasses()
    ensures forall k :: 0 <= k < 7 ==> StateClassOf(SensorTypes[k].0) == None
    ensures forall k :: 7 <= k < |SensorTypes| ==> StateClassOf(SensorTypes[k].0) == Some(Total)
  {
    forall k | 0 <= k < 7
      ensures StateClassOf(SensorTypes[k].0) == None
    {
      var t := SensorTypes[k].0;
      forall j | 0 <= j < |TotalTypes| ensures TotalTypes[j] != t {
        assert |TotalTypes[j]| != |t| || TotalTypes[j][0] != t[0];
      }
    }
    assert TotalTypes[6] == "co2" && TotalTypes[7] == "coal" && TotalTypes[8] == "forest";
  }

  /** The unit table leaves every configured unit as it is: "元" is not the
      "CNY" key and "m²" is not the misread key. */
  lemma ConfiguredUnits()
    ensures forall k :: 0 <= k < |SensorTypes| ==>
      "unit" in SensorTypes[k].1 && UnitOf(SensorTypes[k].1["unit"]) == SensorTypes[k].1["unit"]
  {
    forall k | 0 <= k < |SensorTypes|
      ensures "unit" in SensorTypes[k].1 && UnitOf(SensorTypes[k].1["unit"]) == SensorTypes[k].1["unit"]
    {
      UnitOfIsNearlyIdentity(SensorTypes[k].1["unit"]);
    }
  }

  /** `float(value)`. A number stays itself, a boolean becomes 1 or 0, a
      string goes to the (abstract, partial) text parser `parseText`, and
      null, lists and objects cannot be converted. */
  function ParseFloat(v: Raw, parseText: string -> Option<real>): (r: Option<real>)
    ensures v.JsonNumber? ==> r == Some(v.x)
    ensures v.JsonString? ==> r == parseText(v.s)
    ensures v.JsonBool? ==> r == Some(if v.b then 1.0 else 0.0)
    ensures v.JsonNull? || v.JsonComposite? ==> r == None
  {
    match v
    case JsonNumber(x) => Some(x)
    case JsonBool(b) => Some(if b then 1.0 else 0.0)
    case JsonString(s) => parseText(s)
    case _ => None
  }

  /** `native_value` of the sensor of type `sensorType`, reading the
      coordinator's last snapshot `data` (None when it has none). The value
      is None exactly when there is no snapshot or the key is missing from it
      or null; otherwise it is the number parsed from the value, or the value
      unchanged when it does not parse. */
  function NativeValue(data: Option<Snapshot>, sensorType: string, parseText: string -> Option<real>): (r: Option<Raw>)
    ensures r.None? <==> data.None? || sensorType !in data.value || data.value[sensorType] == JsonNull
    ensures r.Some? && ParseFloat(data.value[sensorType], parseText).Some? ==>
      r == Some(JsonNumber(ParseFloat(data.value[sensorType], parseText).value))
    ensures r.Some? && ParseFloat(data.value[sensorType], parseText).None? ==>
      r == Some(data.value[sensorType])
  {
    if data.None? then None
    else if sensorType !in data.value || data.value[sensorType] == JsonNull then None
    else
      var value := data.value[sensorType];
      match ParseFloat(value, parseText)
      case Some(x) => Some(JsonNumber(x))
      case None => Some(value)
  }

  /** A station reply with `code == 200` and no `data` yields the empty
      snapshot, and one with `"data": null` yields none: either way every
      sensor reads None. */
  lemma NoDataMeansNoValues(c: Client, status: int, body: StationBody, token: TokenOutcome, retry: GetOutcome,
                            sensorType: string, parseText: string -> Option<real>)
    requires status < 400 && body.code == Present(200) && !body.data.Present?
    ensures var (_, r) := Fetch(c, GetReply(status, body), token, retry);
      r.Success? && NativeValue(r.value, sensorType, parseText) == None
  {
    FetchFirstSuccess(c, status, body, token, retry);
  }

  /** The entity loop of `async_setup_entry`: one sensor per table entry,
      in table order; the first entry that cannot be built aborts the loop
      with its KeyError. */
  method BuildEntities(entryId: string, types: seq<(string, SensorInfo)>)
    returns (r: Result<seq<Sensor>, KeyError>)
    ensures r.Success? <==> forall i :: 0 <= i < |types| ==> NewSensor(entryId, types[i].0, types[i].1).Success?
    ensures r.Success? ==> |r.value| == |types|
    ensures r.Success? ==> forall i :: 0 <= i < |types| ==>
      r.value[i] == NewSensor(entryId, types[i].0, types[i].1).value
    ensures r.Failure? ==> exists k :: (0 <= k < |types|
      && NewSensor(entryId, types[k].0, types[k].1) == Failure(r.error)
      && forall j :: 0 <= j < k ==> NewSensor(entryId, types[j].0, types[j].1).Success?)
  {
    var entities: seq<Sensor> := [];
    var i := 0;
    while i < |types|
      invariant 0 <= i <= |types|
      invariant |entities| == i
      invariant forall j :: 0 <= j < i ==>
        NewSensor(entryId, types[j].0, types[j].1).Success? &&
        entities[j] == NewSensor(entryId, types[j].0, types[j].1).value
    {
      var made := NewSensor(entryId, types[i].0, types[i].1);
      if made.Failure? {
        return Failure(made.error);
      }
      entities := entities + [made.value];
      i := i + 1;
    }
    return Success(entities);
  }

  /** The loop over the configured table always fails, on the "device_class"
      key of "dayEarn", so no entity is ever added. */
  method SetupEntities(entryId: string) returns (r: Result<seq<Sensor>, KeyError>)
    ensures r == Failure(KeyError("device_class"))
  {
    ConfiguredFailures(entryId);
    r := BuildEntities(entryId, SensorTypes);
    assert !NewSensor(entryId, SensorTypes[5].0, SensorTypes[5].1).Success?;
  }
}
