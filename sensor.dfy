/** The Nest sensor platform (custom_components/badnest/sensor.py): one
    temperature sensor per temperature-capable device and eight value sensors
    per Protect device. */
module Sensor {
  import opened Const
  import opened Values
  import opened Api
  import opened Platform

  /** PROTECT_SENSOR_TYPES, in the order setup creates them. */
  const ProtectSensorTypes: seq<string> := [
    "co_status",
    "smoke_status",
    "battery_health_state",
    "battery_level",
    "auto_away",
    "line_power_present",
    "home_away_input",
    "health"
  ]

  /** The host framework's sensor classes, as abstract labels. */
  datatype SensorDeviceClass = Battery | CarbonMonoxide | Temperature

  /** The temperature sensor's unit, TEMP_CELSIUS, as an abstract label. */
  datatype Unit = Celsius

  /** ATTR_BATTERY_LEVEL, the temperature sensor's one attribute key. */
  const AttrBatteryLevel := "battery_level"

  /** Attributes of the protect health sensor: the self-test results, the last
      audio test time and the device information fields. */
  const HealthAttributeFields: seq<string> :=
    SelfTestFields + [LastAudioSelfTest, BornOnDate, ReplaceByDate, SerialNumber, WiredOrBattery]

  // ---------------------------------------------------------------------------
  // NestTemperatureSensor properties
  // ---------------------------------------------------------------------------

  /** `state` of a temperature sensor: the record's temperature, untouched. */
  function TemperatureState(data: DeviceData, id: string): (r: Outcome<Value>)
    ensures r.Ok? <==> id in data && SensorTemperature in data[id]
    ensures r.Ok? ==> r.value == data[id][SensorTemperature]
  {
    Field(data, id, SensorTemperature)
  }

  /** `name` of a temperature sensor: the record's name, whatever its type. */
  function TemperatureName(data: DeviceData, id: string): Outcome<Value> {
    Field(data, id, DeviceName)
  }

  /** `device_state_attributes` of a temperature sensor: the battery level alone. */
  function TemperatureAttributes(data: DeviceData, id: string): (r: Outcome<map<string, Value>>)
    ensures r.Ok? <==> id in data && SensorBatteryLevel in data[id]
    ensures r.Ok? ==> r.value.Keys == {AttrBatteryLevel} && r.value[AttrBatteryLevel] == data[id][SensorBatteryLevel]
  {
    var level :- Field(data, id, SensorBatteryLevel);
    Ok(map[AttrBatteryLevel := level])
  }

  const TemperatureDeviceClass := Temperature
  const TemperatureUnit := Celsius

  // ---------------------------------------------------------------------------
  // NestProtectSensor properties
  // ---------------------------------------------------------------------------

  /** `unique_id`: device id, an underscore, sensor type. */
  function UniqueId(id: string, sensorType: string): (r: string)
    ensures |r| == |id| + 1 + |sensorType|
    ensures r[..|id|] == id && r[|id|] == '_' && r[|id| + 1..] == sensorType
  {
    id + "_" + sensorType
  }

  /** `name`: the device's name, a space and the sensor type. */
  function Name(data: DeviceData, id: string, sensorType: string): (r: Outcome<string>)
    ensures r.Ok? <==> Field(data, id, DeviceName).Ok? && Field(data, id, DeviceName).value.Str?
    ensures r.Ok? ==> r.value == data[id][DeviceName].s + " " + sensorType
  {
    var name :- Field(data, id, DeviceName);
    ConcatStr(name, " " + sensorType)
  }

  /** `state`: the raw field for every type but health, which reports whether
      all five self-tests passed as "OK" or "Test failure". */
  function State(data: DeviceData, id: string, sensorType: string): (r: Outcome<Value>)
    ensures sensorType == "health" && r.Ok? ==> r.value == Str("OK") || r.value == Str("Test failure")
    ensures sensorType == "health" && r == Ok(Str("OK")) ==> HasFields(data, id, SelfTestFields) && SelfTestsPassed(data[id])
    ensures sensorType != "health" ==> (r.Ok? <==> id in data && sensorType in data[id])
    ensures sensorType != "health" && r.Ok? ==> r.value == data[id][sensorType]
  {
    if sensorType == "health" then
      var testsPassed :- AllTruthy(data, id, SelfTestFields);
      Ok(Str(if testsPassed then "OK" else "Test failure"))
    else
      Field(data, id, sensorType)
  }

  /** `device_class`: battery for the battery level, CO for the CO status, none otherwise. */
  function DeviceClass(sensorType: string): (r: Option<SensorDeviceClass>)
    ensures r == Some(Battery) <==> sensorType == "battery_level"
    ensures r == Some(CarbonMonoxide) <==> sensorType == "co_status"
    ensures r.None? <==> sensorType != "battery_level" && sensorType != "co_status"
  {
    var afterBattery := if sensorType == "battery_level" then Some(Battery) else None;
    if sensorType == "co_status" then Some(CarbonMonoxide) else afterBattery
  }

  /** What `update` does to the attributes after the refresh: `Some(m)` replaces
      them by m, `None` leaves them alone. */
  function RefreshedAttributes(data: DeviceData, id: string, sensorType: string): Outcome<Option<map<string, Value>>> {
    if sensorType == "health" then
      var attributes :- CopyFields(data, id, HealthAttributeFields);
      Ok(Some(attributes))
    else
      Ok(None)
  }

  /** The health sensor always holds the ten attribute keys; the others hold none. */
  predicate AttributesShape(sensorType: string, attributes: Option<map<string, Value>>) {
    if sensorType == "health" then attributes.Some? && attributes.value.Keys == (set k | k in HealthAttributeFields)
    else attributes.None?
  }

  /** The attributes set in `__init__`: the health sensor's ten keys, all None. */
  function InitialAttributes(sensorType: string): (r: Option<map<string, Value>>)
    ensures AttributesShape(sensorType, r)
    ensures r.Some? ==> forall k :: k in r.value ==> r.value[k] == Null
  {
    if sensorType == "health" then
      Some(map[
        WifiTestPassed := Null, CoTestPassed := Null, SmokeTestPassed := Null,
        SpeakerTestPassed := Null, LedTestPassed := Null, LastAudioSelfTest := Null,
        BornOnDate := Null, ReplaceByDate := Null, SerialNumber := Null, WiredOrBattery := Null
      ])
    else
      None
  }

  // ---------------------------------------------------------------------------
  // The entities
  // ---------------------------------------------------------------------------

  /** NestTemperatureSensor: it holds no state of its own. */
  class NestTemperatureSensor {
    const deviceId: string
    const api: NestApi

    constructor (deviceId: string, api: NestApi)
      ensures this.deviceId == deviceId && this.api == api
    {
      this.deviceId := deviceId;
      this.api := api;
    }

    /** `unique_id`: the device id itself, so two temperature sensors share an
        id only when they stand for the same device. */
    function UniqueId(): (r: string)
      ensures r == deviceId
    {
      deviceId
    }

    /** `update`: only polls the API. */
    method Update(polled: DeviceData)
      modifies api`deviceData
      ensures api.deviceData == polled
    {
      api.Update(polled);
    }
  }

  /** NestProtectSensor. Its identity never changes; `update` rewrites the
      health sensor's extra attributes. */
  class NestProtectSensor {
    const deviceId: string
    const sensorType: string
    const api: NestApi
    var extraAttributes: Option<map<string, Value>>

    ghost predicate Valid()
      reads this
    {
      AttributesShape(sensorType, extraAttributes)
    }

    constructor (deviceId: string, sensorType: string, api: NestApi)
      ensures this.deviceId == deviceId && this.sensorType == sensorType && this.api == api
      ensures extraAttributes == InitialAttributes(sensorType)
      ensures Valid()
    {
      this.deviceId := deviceId;
      this.sensorType := sensorType;
      this.api := api;
      extraAttributes := InitialAttributes(sensorType);
    }

    /** `update`: poll the API, then (health only) copy the ten fields.
        A lookup that raises leaves the attributes as they were. */
    method Update(polled: DeviceData) returns (outcome: Outcome<()>)
      requires Valid()
      modifies this`extraAttributes, api`deviceData
      ensures Valid()
      ensures api.deviceData == polled
      ensures outcome.Ok? <==> RefreshedAttributes(polled, deviceId, sensorType).Ok?
      ensures outcome.Raised? ==> outcome.error == RefreshedAttributes(polled, deviceId, sensorType).error
      ensures extraAttributes == match RefreshedAttributes(polled, deviceId, sensorType)
                                 case Ok(Some(m)) => Some(m)
                                 case _ => old(extraAttributes)
    {
      api.Update(polled);
      outcome := Ok(());
      if sensorType == "health" {
        var attributes := CopyFields(api.deviceData, deviceId, HealthAttributeFields);
        if attributes.Raised? {
          outcome := Raised(attributes.error);
          return;
        }
        extraAttributes := Some(attributes.value);
      }
    }
  }

  /** The device id of each temperature sensor in a list. */
  function TemperatureIds(sensors: seq<NestTemperatureSensor>): (r: seq<string>)
    ensures |r| == |sensors|
  {
    seq(|sensors|, k requires 0 <= k < |sensors| => sensors[k].deviceId)
  }

  /** The (device id, sensor type) of each protect sensor in a list. */
  function Identities(sensors: seq<NestProtectSensor>): (r: seq<(string, string)>)
    ensures |r| == |sensors|
  {
    seq(|sensors|, k requires 0 <= k < |sensors| => (sensors[k].deviceId, sensors[k].sensorType))
  }

  /** `async_setup_platform`: a temperature sensor per temperature-capable id,
      then one protect sensor per Protect id and sensor type, device after device. */
  method SetupPlatform(api: NestApi) returns (temperatureSensors: seq<NestTemperatureSensor>,
                                              protectSensors: seq<NestProtectSensor>)
    ensures TemperatureIds(temperatureSensors) == api.temperatureSensors
    ensures forall s :: s in temperatureSensors ==> fresh(s) && s.api == api
    ensures Identities(protectSensors) == Expand(api.protects, ProtectSensorTypes)
    ensures forall s :: s in protectSensors ==> fresh(s) && s.api == api && s.Valid()
  {
    temperatureSensors := [];
    for i := 0 to |api.temperatureSensors|
      invariant TemperatureIds(temperatureSensors) == api.temperatureSensors[..i]
      invariant forall s :: s in temperatureSensors ==> fresh(s) && s.api == api
    {
      var entity := new NestTemperatureSensor(api.temperatureSensors[i], api);
      assert TemperatureIds(temperatureSensors + [entity]) == TemperatureIds(temperatureSensors) + [entity.deviceId];
      temperatureSensors := temperatureSensors + [entity];
    }
    assert api.temperatureSensors[..|api.temperatureSensors|] == api.temperatureSensors;

    protectSensors := [];
    for i := 0 to |api.protects|
      invariant Identities(protectSensors) == Expand(api.protects[..i], ProtectSensorTypes)
      invariant forall s :: s in protectSensors ==> fresh(s) && s.api == api && s.Valid()
    {
      var sensor := api.protects[i];
      ghost var before := Identities(protectSensors);
      for j := 0 to |ProtectSensorTypes|
        invariant Identities(protectSensors) == before + Row(sensor, ProtectSensorTypes[..j])
        invariant forall s :: s in protectSensors ==> fresh(s) && s.api == api && s.Valid()
      {
        var sensorType := ProtectSensorTypes[j];
        var entity := new NestProtectSensor(sensor, sensorType, api);
        assert Identities(protectSensors + [entity]) == Identities(protectSensors) + [(sensor, sensorType)];
        protectSensors := protectSensors + [entity];
        assert Row(sensor, ProtectSensorTypes[..j + 1]) == Row(sensor, ProtectSensorTypes[..j]) + [(sensor, sensorType)];
      }
      assert ProtectSensorTypes[..|ProtectSensorTypes|] == ProtectSensorTypes;
      assert api.protects[..i + 1][..i] == api.protects[..i];
    }
    assert api.protects[..|api.protects|] == api.protects;
  }

  // ---------------------------------------------------------------------------
  // Properties of the rules
  // ---------------------------------------------------------------------------

  /** With the five self-test results present, health reads "OK" exactly when
      all of them are truthy and "Test failure" otherwise. */
  lemma HealthStateOkIffAllPassed(data: DeviceData, id: string)
    requires HasFields(data, id, SelfTestFields)
    ensures State(data, id, "health") == Ok(Str(if SelfTestsPassed(data[id]) then "OK" else "Test failure"))
  {
  }

  /** A self-test result that is still None counts as a failure. */
  lemma HealthStateNoneIsFailure(data: DeviceData, id: string, pending: string)
    requires HasFields(data, id, SelfTestFields)
    requires pending in SelfTestFields && data[id][pending] == Null
    ensures State(data, id, "health") == Ok(Str("Test failure"))
  {
  }

  /** Every type but health reports its raw field unchanged, errors included. */
  lemma StatePassthrough(data: DeviceData, id: string, sensorType: string)
    requires sensorType != "health"
    ensures State(data, id, sensorType) == Field(data, id, sensorType)
  {
  }

  /** Two protect sensors with different device ids or different types never
      share a unique id: no listed type ends in "_" followed by another listed
      type, so the underscore that separates id and type is found again. */
  lemma UniqueIdsDistinctAcrossDevices(id1: string, t1: string, id2: string, t2: string)
    requires t1 in ProtectSensorTypes && t2 in ProtectSensorTypes
    requires (id1, t1) != (id2, t2)
    ensures UniqueId(id1, t1) != UniqueId(id2, t2)
  {
    var u1, u2 := UniqueId(id1, t1), UniqueId(id2, t2);
    if u1 == u2 {
      if |id1| == |id2| {
        UniqueIdSplitsAtLength(id1, t1, id2, t2);
        assert false;
      } else if |id1| < |id2| {
        UniqueIdSuffixes(id1, t1, |t2|);
        UniqueIdSuffixes(id2, t2, |t2|);
        NoTypeEndsInAnother(t1, t2);
        assert false;
      } else {
        UniqueIdSuffixes(id2, t2, |t1|);
        UniqueIdSuffixes(id1, t1, |t1|);
        NoTypeEndsInAnother(t2, t1);
        assert false;
      }
    }
  }

  /** Ids of one length split a unique id at the same place. */
  lemma UniqueIdSplitsAtLength(id1: string, t1: string, id2: string, t2: string)
    requires |id1| == |id2| && UniqueId(id1, t1) == UniqueId(id2, t2)
    ensures id1 == id2 && t1 == t2
  {
    var u := UniqueId(id1, t1);
    assert id1 == u[..|id1|] && id2 == u[..|id2|];
    assert t1 == u[|id1| + 1..] && t2 == u[|id2| + 1..];
  }

  /** The last `n + 1` characters of a unique id whose type is at least `n`
      long: the type's own tail, which is "_" + the type when `n` is its length. */
  lemma UniqueIdSuffixes(id: string, sensorType: string, n: nat)
    requires n <= |sensorType|
    ensures n < |sensorType| ==>
              UniqueId(id, sensorType)[|UniqueId(id, sensorType)| - n - 1..] == sensorType[|sensorType| - n - 1..]
    ensures n == |sensorType| ==> UniqueId(id, sensorType)[|UniqueId(id, sensorType)| - n - 1..] == "_" + sensorType
  {
    var u := UniqueId(id, sensorType);
    assert u == id + "_" + sensorType;
    if n < |sensorType| {
      assert u[|u| - n - 1..] == sensorType[|sensorType| - n - 1..];
    } else {
      assert u[|u| - n - 1..] == "_" + sensorType;
    }
  }

  /** No listed type is "_" + another listed type preceded by more text. */
  lemma NoTypeEndsInAnother(longer: string, shorter: string)
    requires longer in ProtectSensorTypes && shorter in ProtectSensorTypes
    ensures |longer| > |shorter| ==> longer[|longer| - |shorter| - 1..] != "_" + shorter
  {
    if |longer| > |shorter| {
      var k := |longer| - |shorter| - 1;
      assert longer[k] != '_' || longer[|longer| - 1] != shorter[|shorter| - 1];
      assert ("_" + shorter)[0] == '_' && ("_" + shorter)[|shorter|] == shorter[|shorter| - 1];
    }
  }

  /** Setup creates eight protect sensors per Protect, sensor `8 * i + j` being
      the j-th type on the i-th device. */
  lemma SetupLayout(protects: seq<string>, i: nat, j: nat)
    requires i < |protects| && j < |ProtectSensorTypes|
    ensures |Expand(protects, ProtectSensorTypes)| == 8 * |protects|
    ensures Expand(protects, ProtectSensorTypes)[8 * i + j] == (protects[i], ProtectSensorTypes[j])
  {
    assert |ProtectSensorTypes| == 8;
    ExpandLength(protects, ProtectSensorTypes);
    ExpandAt(protects, ProtectSensorTypes, i, j);
  }
}
