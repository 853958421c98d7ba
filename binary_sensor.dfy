/** The Nest Protect binary sensor platform (custom_components/badnest/binary_sensor.py):
    seven on/off sensors per Protect device, each reading one rule off the
    device's polled record. */
module BinarySensor {
  import opened Const
  import opened Values
  import opened Api
  import opened Platform

  /** PROTECT_BINARY_SENSOR_TYPES, in the order setup creates them. */
  const ProtectBinarySensorTypes: seq<string> := [
    SensorCoStatus,
    SensorSmokeStatus,
    BinarySensorMotion,
    BinarySensorLinePower,
    BinarySensorOccupancy,
    "health",
    "device"
  ]

  /** friendly_names: the label appended to the device name. */
  const FriendlyNames: map<string, string> := map[
    SensorCoStatus := "CO Status",
    SensorSmokeStatus := "Smoke Status",
    BinarySensorMotion := "Motion",
    BinarySensorLinePower := "Line Power",
    BinarySensorOccupancy := "Occupancy",
    "health" := "Health",
    "device" := "Device"
  ]

  /** The host framework's binary sensor classes, as abstract labels. */
  datatype BinarySensorDeviceClass = Smoke | Gas | Motion | Occupancy | Power | Problem | Connectivity

  /** Attributes of the health sensor: the self-test results and the last audio test time. */
  const HealthAttributeFields: seq<string> := SelfTestFields + [LastAudioSelfTest]

  const DeviceAttributeKeys: set<string> := {"manufactured_on", "replace_by", "serial_number", "power_source"}

  /** A `datetime` as `datetime.fromisoformat` returns it: naive, or aware
      when the string carries a UTC offset. */
  datatype DateTime = DateTime(instant: int, aware: bool)

  /** The clock and the date parser `is_on` calls: `parse(s)` is None where
      `fromisoformat` raises ValueError, and `now` is `datetime.utcnow()`,
      which is always naive. */
  datatype Clock = Clock(parse: string -> Option<DateTime>, now: int)

  /** `fromisoformat(s)`. */
  function ParseDate(clock: Clock, s: string): (r: Outcome<DateTime>)
    ensures r.Ok? <==> clock.parse(s).Some?
    ensures r.Ok? ==> r.value == clock.parse(s).value
    ensures r.Raised? ==> r.error == ValueError
  {
    match clock.parse(s)
    case Some(d) => Ok(d)
    case None => Raised(ValueError)
  }

  /** `d < utcnow()`: Python refuses to order an aware datetime against a naive one. */
  function BeforeNow(clock: Clock, d: DateTime): (r: Outcome<bool>)
    ensures r.Raised? <==> d.aware
    ensures r.Raised? ==> r.error == TypeError
    ensures r.Ok? ==> (r.value <==> d.instant < clock.now)
  {
    if d.aware then Raised(TypeError) else Ok(d.instant < clock.now)
  }

  // ---------------------------------------------------------------------------
  // Properties read from the current record
  // ---------------------------------------------------------------------------

  /** `name`: the device's name, a space and the type's friendly name. */
  function Name(data: DeviceData, id: string, sensorType: string): (r: Outcome<string>)
    ensures r.Ok? <==> Field(data, id, DeviceName).Ok? && Field(data, id, DeviceName).value.Str?
                       && sensorType in FriendlyNames
    ensures r.Ok? ==> r.value == data[id][DeviceName].s + " " + FriendlyNames[sensorType]
    ensures Field(data, id, DeviceName).Raised? ==> r == Raised(Field(data, id, DeviceName).error)
    ensures Field(data, id, DeviceName).Ok? && !Field(data, id, DeviceName).value.Str? ==> r == Raised(TypeError)
    ensures Field(data, id, DeviceName).Ok? && Field(data, id, DeviceName).value.Str? && sensorType !in FriendlyNames ==>
              r == Raised(KeyError(sensorType))
  {
    var name :- Field(data, id, DeviceName);
    var head :- ConcatStr(name, " ");
    if sensorType in FriendlyNames then Ok(head + FriendlyNames[sensorType])
    else Raised(KeyError(sensorType))
  }

  /** `unique_id`: the device's name, a space and the sensor type (the device id is not part of it). */
  function UniqueId(data: DeviceData, id: string, sensorType: string): (r: Outcome<string>)
    ensures r.Ok? <==> Field(data, id, DeviceName).Ok? && Field(data, id, DeviceName).value.Str?
    ensures r.Ok? ==> r.value == data[id][DeviceName].s + " " + sensorType
  {
    var name :- Field(data, id, DeviceName);
    ConcatStr(name, " " + sensorType)
  }

  /** `is_on`: a Python value, normally True, False or None; only the health
      sensor consults the clock. */
  function IsOn(data: DeviceData, id: string, sensorType: string, clock: Clock): (r: Outcome<Value>)
    ensures sensorType != BinarySensorLinePower && r.Ok? ==> r.value.Bool? || r.value.Null?
    ensures r == Ok(Null) && sensorType != BinarySensorLinePower ==>
              sensorType == "health" || sensorType !in ProtectBinarySensorTypes
    ensures sensorType !in ProtectBinarySensorTypes ==> r == Ok(Null)
    ensures r.Raised? && r.error.TypeError? ==>
              sensorType == SensorCoStatus || sensorType == SensorSmokeStatus || sensorType == "health"
    ensures r.Raised? && r.error.ValueError? ==> sensorType == "health"
  {
    if sensorType == SensorCoStatus || sensorType == SensorSmokeStatus then
      var status :- Field(data, id, sensorType);
      var positive :- GreaterThanZero(status);
      Ok(Bool(positive))
    else if sensorType == BinarySensorMotion || sensorType == BinarySensorOccupancy then
      var raw :- Field(data, id, sensorType);
      Ok(Bool(!Truthy(raw)))
    else if sensorType == BinarySensorLinePower then
      Field(data, id, sensorType)
    else if sensorType == "device" then
      var serial :- Field(data, id, SerialNumber);
      Ok(Bool(serial != Null))
    else if sensorType == "health" then
      HealthIsOn(data, id, clock)
    else
      Ok(Null)
  }

  /** The health branch of `is_on`. The date is parsed before `tests_passed`
      is consulted; the comparison with now runs only when the tests passed. */
  function HealthIsOn(data: DeviceData, id: string, clock: Clock): (r: Outcome<Value>)
    ensures r.Raised? && r.error.ValueError? ==> Field(data, id, ReplaceByDate).Ok?
    ensures r.Raised? && r.error.TypeError? ==> AllTruthy(data, id, SelfTestFields) == Ok(true)
  {
    var wifi :- Field(data, id, WifiTestPassed);
    if wifi == Null then Ok(Null)
    else
      var testsPassed :- AllTruthy(data, id, SelfTestFields);
      var replaceBy :- Field(data, id, ReplaceByDate);
      if !replaceBy.Str? then Ok(Bool(!testsPassed))
      else
        var replaceByDate :- ParseDate(clock, replaceBy.s);
        if !testsPassed then Ok(Bool(true))
        else
          var due :- BeforeNow(clock, replaceByDate);
          Ok(Bool(!due))
  }

  /** `device_class`: every listed type has its own class, and no other type has one. */
  function DeviceClass(sensorType: string): (r: Option<BinarySensorDeviceClass>)
    ensures r.Some? <==> sensorType in ProtectBinarySensorTypes
    ensures r == Some(Smoke) <==> sensorType == SensorSmokeStatus
    ensures r == Some(Gas) <==> sensorType == SensorCoStatus
    ensures r == Some(Motion) <==> sensorType == BinarySensorMotion
    ensures r == Some(Occupancy) <==> sensorType == BinarySensorOccupancy
    ensures r == Some(Power) <==> sensorType == BinarySensorLinePower
    ensures r == Some(Problem) <==> sensorType == "health"
    ensures r == Some(Connectivity) <==> sensorType == "device"
  {
    if sensorType == SensorSmokeStatus then Some(Smoke)
    else if sensorType == SensorCoStatus then Some(Gas)
    else if sensorType == BinarySensorMotion then Some(Motion)
    else if sensorType == BinarySensorOccupancy then Some(Occupancy)
    else if sensorType == BinarySensorLinePower then Some(Power)
    else if sensorType == "health" then Some(Problem)
    else if sensorType == "device" then Some(Connectivity)
    else None
  }

  // ---------------------------------------------------------------------------
  // Attributes rebuilt by `update`
  // ---------------------------------------------------------------------------

  /** The power-source label: `wired_or_battery == 0` gives "Wired", `== 1`
      "Battery Operated" (the later test wins), anything else "Unknown". */
  function PowerSource(wiredOrBattery: Value): (r: string)
    ensures r == "Wired" <==> EqualsInt(wiredOrBattery, 0)
    ensures r == "Battery Operated" <==> EqualsInt(wiredOrBattery, 1)
    ensures r == "Unknown" <==> !EqualsInt(wiredOrBattery, 0) && !EqualsInt(wiredOrBattery, 1)
  {
    var afterWired := if EqualsInt(wiredOrBattery, 0) then "Wired" else "Unknown";
    if EqualsInt(wiredOrBattery, 1) then "Battery Operated" else afterWired
  }

  /** The device sensor's attributes: born-on date, replace-by date and serial
      number copied verbatim, plus the power-source label. */
  function DeviceAttributes(data: DeviceData, id: string): (r: Outcome<map<string, Value>>)
    ensures r.Ok? <==> HasFields(data, id, [WiredOrBattery, BornOnDate, ReplaceByDate, SerialNumber])
    ensures r.Ok? ==> r.value.Keys == DeviceAttributeKeys
    ensures r.Ok? ==> (&& r.value["manufactured_on"] == data[id][BornOnDate]
                       && r.value["replace_by"] == data[id][ReplaceByDate]
                       && r.value["serial_number"] == data[id][SerialNumber]
                       && r.value["power_source"] == Str(PowerSource(data[id][WiredOrBattery])))
    ensures r.Raised? ==> r.error.KeyError?
    ensures Field(data, id, WiredOrBattery).Raised? ==> r == Raised(Field(data, id, WiredOrBattery).error)
    ensures Field(data, id, WiredOrBattery).Ok? && Field(data, id, BornOnDate).Raised? ==>
              r == Raised(Field(data, id, BornOnDate).error)
    ensures Field(data, id, WiredOrBattery).Ok? && Field(data, id, BornOnDate).Ok? && Field(data, id, ReplaceByDate).Raised? ==>
              r == Raised(Field(data, id, ReplaceByDate).error)
    ensures && Field(data, id, WiredOrBattery).Ok? && Field(data, id, BornOnDate).Ok?
            && Field(data, id, ReplaceByDate).Ok? && Field(data, id, SerialNumber).Raised? ==>
              r == Raised(Field(data, id, SerialNumber).error)
  {
    var wiredOrBattery :- Field(data, id, WiredOrBattery);
    var powerSource := PowerSource(wiredOrBattery);
    var bornOn :- Field(data, id, BornOnDate);
    var replaceBy :- Field(data, id, ReplaceByDate);
    var serial :- Field(data, id, SerialNumber);
    Ok(map[
      "manufactured_on" := bornOn,
      "replace_by" := replaceBy,
      "serial_number" := serial,
      "power_source" := Str(powerSource)
    ])
  }

  /** What `update` does to the attributes after the refresh: `Some(m)` replaces
      them by m, `None` leaves them alone. */
  function RefreshedAttributes(data: DeviceData, id: string, sensorType: string): Outcome<Option<map<string, Value>>> {
    if sensorType == "health" then
      var attributes :- CopyFields(data, id, HealthAttributeFields);
      Ok(Some(attributes))
    else if sensorType == "device" then
      var attributes :- DeviceAttributes(data, id);
      Ok(Some(attributes))
    else
      Ok(None)
  }

  /** The attributes a sensor of the given type holds: the health and device
      sensors always hold their fixed key set, the others hold none. */
  predicate AttributesShape(sensorType: string, attributes: Option<map<string, Value>>) {
    if sensorType == "health" then attributes.Some? && attributes.value.Keys == (set k | k in HealthAttributeFields)
    else if sensorType == "device" then attributes.Some? && attributes.value.Keys == DeviceAttributeKeys
    else attributes.None?
  }

  /** The attributes set in `__init__`: every key present and None. */
  function InitialAttributes(sensorType: string): (r: Option<map<string, Value>>)
    ensures AttributesShape(sensorType, r)
    ensures r.Some? ==> forall k :: k in r.value ==> r.value[k] == Null
  {
    if sensorType == "health" then
      Some(map[
        WifiTestPassed := Null, CoTestPassed := Null, SmokeTestPassed := Null,
        SpeakerTestPassed := Null, LedTestPassed := Null, LastAudioSelfTest := Null
      ])
    else if sensorType == "device" then
      Some(map["manufactured_on" := Null, "replace_by" := Null, "serial_number" := Null, "power_source" := Null])
    else
      None
  }

  /** A successful refresh keeps the attribute key set of every sensor type. */
  lemma RefreshKeepsShape(data: DeviceData, id: string, sensorType: string, attributes: Option<map<string, Value>>)
    requires AttributesShape(sensorType, attributes)
    requires RefreshedAttributes(data, id, sensorType).Ok?
    ensures AttributesShape(sensorType,
              match RefreshedAttributes(data, id, sensorType).value
              case Some(m) => Some(m)
              case None => attributes)
  {
  }

  // ---------------------------------------------------------------------------
  // The entity
  // ---------------------------------------------------------------------------

  /** NestProtectBinarySensor. Its identity never changes; `update` rewrites
      the extra attributes of the health and device sensors. */
  class NestProtectBinarySensor {
    const deviceId: string
    const sensorType: string
    const api: NestApi
    var extraAttributes: Option<map<string, Value>>

    ghost predicate Valid()
      reads this
    {
      AttributesShape(sensorType, extraAttributes)
    }

    constructor (deviceId: string, sensorType: string, api: NestApi)
      ensures this.deviceId == deviceId && this.sensorType == sensorType && this.api == api
      ensures extraAttributes == InitialAttributes(sensorType)
      ensures Valid()
    {
      this.deviceId := deviceId;
      this.sensorType := sensorType;
      this.api := api;
      extraAttributes := InitialAttributes(sensorType);
    }

    /** `update`: poll the API, then rebuild the attributes from the new record.
        A lookup that raises leaves the attributes as they were. */
    method Update(polled: DeviceData) returns (outcome: Outcome<()>)
      requires Valid()
      modifies this`extraAttributes, api`deviceData
      ensures Valid()
      ensures api.deviceData == polled
      ensures outcome.Ok? <==> RefreshedAttributes(polled, deviceId, sensorType).Ok?
      ensures outcome.Raised? ==> outcome.error == RefreshedAttributes(polled, deviceId, sensorType).error
      ensures extraAttributes == match RefreshedAttributes(polled, deviceId, sensorType)
                                 case Ok(Some(m)) => Some(m)
                                 case _ => old(extraAttributes)
    {
      api.Update(polled);
      outcome := Ok(());
      if sensorType == "health" {
        var attributes := CopyFields(api.deviceData, deviceId, HealthAttributeFields);
        if attributes.Raised? {
          outcome := Raised(attributes.error);
          return;
        }
        extraAttributes := Some(attributes.value);
      }
      if sensorType == "device" {
        var attributes := DeviceAttributes(api.deviceData, deviceId);
        if attributes.Raised? {
          outcome := Raised(attributes.error);
          return;
        }
        extraAttributes := Some(attributes.value);
      }
    }
  }

  /** The (device id, sensor type) of each entity in a list. */
  function Identities(sensors: seq<NestProtectBinarySensor>): (r: seq<(string, string)>)
    ensures |r| == |sensors|
  {
    seq(|sensors|, k requires 0 <= k < |sensors| => (sensors[k].deviceId, sensors[k].sensorType))
  }

  /** `async_setup_platform`: one entity per Protect id and binary sensor type,
      device after device, all reading the same API client. */
  method SetupPlatform(api: NestApi) returns (protectSensors: seq<NestProtectBinarySensor>)
    ensures Identities(protectSensors) == Expand(api.protects, ProtectBinarySensorTypes)
    ensures forall s :: s in protectSensors ==> fresh(s) && s.api == api && s.Valid()
  {
    protectSensors := [];
    for i := 0 to |api.protects|
      invariant Identities(protectSensors) == Expand(api.protects[..i], ProtectBinarySensorTypes)
      invariant forall s :: s in protectSensors ==> fresh(s) && s.api == api && s.Valid()
    {
      var sensor := api.protects[i];
      ghost var before := Identities(protectSensors);
      for j := 0 to |ProtectBinarySensorTypes|
        invariant Identities(protectSensors) == before + Row(sensor, ProtectBinarySensorTypes[..j])
        invariant forall s :: s in protectSensors ==> fresh(s) && s.api == api && s.Valid()
      {
        var sensorType := ProtectBinarySensorTypes[j];
        var entity := new NestProtectBinarySensor(sensor, sensorType, api);
        assert Identities(protectSensors + [entity]) == Identities(protectSensors) + [(sensor, sensorType)];
        protectSensors := protectSensors + [entity];
        assert Row(sensor, ProtectBinarySensorTypes[..j + 1])
            == Row(sensor, ProtectBinarySensorTypes[..j]) + [(sensor, sensorType)];
      }
      assert ProtectBinarySensorTypes[..|ProtectBinarySensorTypes|] == ProtectBinarySensorTypes;
      assert api.protects[..i + 1][..i] == api.protects[..i];
    }
    assert api.protects[..|api.protects|] == api.protects;
  }

  // ---------------------------------------------------------------------------
  // Properties of the rules
  // ---------------------------------------------------------------------------

  /** CO and smoke sensors are on exactly when the status is greater than 0;
      a None or str status raises TypeError. */
  lemma StatusOnIffPositive(data: DeviceData, id: string, sensorType: string, clock: Clock, status: Value)
    requires sensorType == SensorCoStatus || sensorType == SensorSmokeStatus
    requires Field(data, id, sensorType) == Ok(status)
    ensures IsOn(data, id, sensorType, clock) == Ok(Bool(true))
            <==> AsNumber(status).Some? && AsNumber(status).value > 0.0
    ensures IsOn(data, id, sensorType, clock) == Raised(TypeError) <==> status.Null? || status.Str?
    ensures status.Int? ==> IsOn(data, id, sensorType, clock) == Ok(Bool(status.i > 0))
  {
  }

  /** Motion and occupancy invert the raw "away" flag by Python truthiness. */
  lemma AwayOnIffFalse(data: DeviceData, id: string, sensorType: string, clock: Clock, raw: Value)
    requires sensorType == BinarySensorMotion || sensorType == BinarySensorOccupancy
    requires Field(data, id, sensorType) == Ok(raw)
    ensures IsOn(data, id, sensorType, clock) == Ok(Bool(!Truthy(raw)))
    ensures raw.Bool? ==> IsOn(data, id, sensorType, clock) == Ok(Bool(!raw.b))
  {
  }

  /** Line power is the raw field itself, whatever its type. */
  lemma LinePowerPassthrough(data: DeviceData, id: string, clock: Clock)
    ensures IsOn(data, id, BinarySensorLinePower, clock) == Field(data, id, BinarySensorLinePower)
  {
  }

  /** The device pseudo-sensor is on exactly when the serial number is not None. */
  lemma DeviceOnIffSerial(data: DeviceData, id: string, clock: Clock, serial: Value)
    requires Field(data, id, SerialNumber) == Ok(serial)
    ensures IsOn(data, id, "device", clock) == Ok(Bool(serial != Null))
  {
  }

  /** Until the Wi-Fi test result arrives the health sensor is unknown,
      whatever the other fields hold and whatever the clock says. */
  lemma HealthUnknownWithoutWifi(data: DeviceData, id: string, clock: Clock)
    requires Field(data, id, WifiTestPassed) == Ok(Null)
    ensures IsOn(data, id, "health", clock) == Ok(Null)
  {
  }

  /** With test results but no replace-by string, health is on exactly when
      some self-test did not pass. */
  lemma HealthWithoutReplaceBy(data: DeviceData, id: string, clock: Clock)
    requires HasFields(data, id, SelfTestFields + [ReplaceByDate])
    requires data[id][WifiTestPassed] != Null
    requires !data[id][ReplaceByDate].Str?
    ensures IsOn(data, id, "health", clock) == Ok(Bool(!SelfTestsPassed(data[id])))
  {
  }

  /** With a replace-by string that parses to a naive datetime, health is off
      exactly when every self-test passed and the replace-by time is before
      now; otherwise it is on. */
  lemma HealthWithReplaceBy(data: DeviceData, id: string, clock: Clock)
    requires HasFields(data, id, SelfTestFields + [ReplaceByDate])
    requires data[id][WifiTestPassed] != Null
    requires data[id][ReplaceByDate].Str?
    requires clock.parse(data[id][ReplaceByDate].s).Some? && !clock.parse(data[id][ReplaceByDate].s).value.aware
    ensures IsOn(data, id, "health", clock).Ok?
    ensures IsOn(data, id, "health", clock) == Ok(Bool(false))
            <==> SelfTestsPassed(data[id]) && clock.parse(data[id][ReplaceByDate].s).value.instant < clock.now
    ensures IsOn(data, id, "health", clock) != Ok(Bool(false))
            ==> IsOn(data, id, "health", clock) == Ok(Bool(true))
  {
  }

  /** A replace-by string `fromisoformat` rejects raises ValueError, whatever
      the self-tests say. */
  lemma HealthUnparsableDateRaises(data: DeviceData, id: string, clock: Clock)
    requires HasFields(data, id, SelfTestFields + [ReplaceByDate])
    requires data[id][WifiTestPassed] != Null
    requires data[id][ReplaceByDate].Str? && clock.parse(data[id][ReplaceByDate].s).None?
    ensures IsOn(data, id, "health", clock) == Raised(ValueError)
  {
  }

  /** A replace-by string with a UTC offset parses to an aware datetime:
      comparing it with the naive `utcnow()` raises TypeError once every
      self-test passed, and a failed self-test reads on without comparing. */
  lemma HealthAwareDate(data: DeviceData, id: string, clock: Clock)
    requires HasFields(data, id, SelfTestFields + [ReplaceByDate])
    requires data[id][WifiTestPassed] != Null
    requires data[id][ReplaceByDate].Str?
    requires clock.parse(data[id][ReplaceByDate].s).Some? && clock.parse(data[id][ReplaceByDate].s).value.aware
    ensures SelfTestsPassed(data[id]) ==> IsOn(data, id, "health", clock) == Raised(TypeError)
    ensures !SelfTestsPassed(data[id]) ==> IsOn(data, id, "health", clock) == Ok(Bool(true))
  {
  }

  /** As written, the two health branches disagree on a healthy device: with
      every self-test passed, a replace-by date still in the future reads on
      (a problem), while the same record without a replace-by string reads off. */
  lemma HealthBranchesDisagree(data: DeviceData, id: string, clock: Clock, undated: Value)
    requires HasFields(data, id, SelfTestFields + [ReplaceByDate])
    requires SelfTestsPassed(data[id])
    requires data[id][ReplaceByDate].Str? && clock.parse(data[id][ReplaceByDate].s).Some?
    requires !clock.parse(data[id][ReplaceByDate].s).value.aware
    requires clock.parse(data[id][ReplaceByDate].s).value.instant >= clock.now
    requires !undated.Str?
    ensures IsOn(data, id, "health", clock) == Ok(Bool(true))
    ensures IsOn(data[id := data[id][ReplaceByDate := undated]], id, "health", clock) == Ok(Bool(false))
  {
  }

  /** The seven device classes are pairwise distinct. */
  lemma DeviceClassesDistinct(i: nat, j: nat)
    requires i < j < |ProtectBinarySensorTypes|
    ensures DeviceClass(ProtectBinarySensorTypes[i]) != DeviceClass(ProtectBinarySensorTypes[j])
  {
  }

  /** On one device, different sensor types get different names. */
  lemma NamesDistinct(data: DeviceData, id: string, t1: string, t2: string)
    requires t1 != t2
    requires Name(data, id, t1).Ok? && Name(data, id, t2).Ok?
    ensures Name(data, id, t1).value != Name(data, id, t2).value
  {
    var prefix := data[id][DeviceName].s + " ";
    if Name(data, id, t1).value == Name(data, id, t2).value {
      PrefixCancel(prefix, FriendlyNames[t1], FriendlyNames[t2]);
      assert false;
    }
  }

  /** On one device, different sensor types get different unique ids. */
  lemma UniqueIdsDistinct(data: DeviceData, id: string, t1: string, t2: string)
    requires t1 != t2
    requires UniqueId(data, id, t1).Ok?
    ensures UniqueId(data, id, t2).Ok?
    ensures UniqueId(data, id, t1).value != UniqueId(data, id, t2).value
  {
    var name := data[id][DeviceName].s;
    if UniqueId(data, id, t1).value == UniqueId(data, id, t2).value {
      assert name + " " + t1 == name + (" " + t1);
      assert name + " " + t2 == name + (" " + t2);
      PrefixCancel(name, " " + t1, " " + t2);
      PrefixCancel(" ", t1, t2);
    }
  }

  /** The unique id depends on the device's name only: two devices with the
      same name share the unique ids of their sensors. */
  lemma UniqueIdSharedByNamesakes(data: DeviceData, id1: string, id2: string, sensorType: string)
    requires Field(data, id1, DeviceName) == Field(data, id2, DeviceName)
    ensures UniqueId(data, id1, sensorType) == UniqueId(data, id2, sensorType)
  {
  }

  /** Setup creates seven entities per Protect, entity `7 * i + j` being the
      j-th type on the i-th device. */
  lemma SetupLayout(protects: seq<string>, i: nat, j: nat)
    requires i < |protects| && j < |ProtectBinarySensorTypes|
    ensures |Expand(protects, ProtectBinarySensorTypes)| == 7 * |protects|
    ensures Expand(protects, ProtectBinarySensorTypes)[7 * i + j] == (protects[i], ProtectBinarySensorTypes[j])
  {
    assert |ProtectBinarySensorTypes| == 7;
    ExpandLength(protects, ProtectBinarySensorTypes);
    ExpandAt(protects, ProtectBinarySensorTypes, i, j);
  }
}
