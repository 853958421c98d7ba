# badnest sensor rules in Dafny

This project models the two Home Assistant platforms of the `badnest` integration
that turn a polled Nest device record into sensor readings:

- the **Protect binary sensors** (`binary_sensor.py`): seven on/off sensors per
  Nest Protect (CO, smoke, motion, line power, occupancy, and the `health` and
  `device` pseudo-sensors), each with an `is_on` rule, a device class, a name,
  a unique id and, for `health` and `device`, extra attributes rebuilt by `update`;
- the **value sensors** (`sensor.py`): one temperature sensor per
  temperature-capable device, and eight value sensors per Protect whose state is
  the raw field, except `health`, which reads "OK" or "Test failure".

A device record is a `map<string, Value>` keyed by the field names of `const.py`
and the literal field names the two platforms read, and the API client's `device_data` maps device ids to records. A raw value is
`Null | Bool | Int | Float | Str` with Python's truthiness (`Values.Truthy`),
Python's comparison with an int (`Values.GreaterThanZero`, `Values.EqualsInt`,
where `True == 1` and `False == 0`) and Python's errors. Every read is
`device_data[id][key]`. A missing device or field raises `KeyError`. Ordering
None or a str against 0 (`> 0`, binary_sensor.py:95,97) raises `TypeError`, while
`==` with 0 or 1 (binary_sensor.py:148,150) never raises. Raised errors are
modelled as `Outcome.Raised` values and are not excluded by preconditions.

The entities are classes. Their device id, sensor type and API client are
constants. The two Protect entity classes have one mutable field, the
extra-attributes map that `update` replaces; the temperature sensor has none. The read-only properties (`is_on`, `state`, `name`, `unique_id`,
`device_class`) are functions of the entity's identity and, where they read the
record, of the API client's current `deviceData`; the temperature sensor's
`unique_id` is a function of its class and its `device_class` a constant. The setup functions are methods
with nested loops. Their result is stated through `Platform.Expand`: every
(device id, sensor type) pair, device after device.

Behaviour of the code as written, kept in the model:

- The health binary sensor's device class is "problem". With a replace-by string
  present, it reads **on** for a device whose tests all pass and whose replace-by
  date is still ahead. It reads **off** when the tests pass and the date has gone
  by. Without a replace-by string, the same healthy device reads off.
  `BinarySensor.HealthBranchesDisagree` states this.
- When `component_wifi_test_passed` is None, the health sensor's `is_on` is None
  (binary_sensor.py:106-107). The fallback `not tests_passed` applies only when
  the replace-by field is not a str (binary_sensor.py:115-116).
- A replace-by string is parsed before `tests_passed` is consulted, so a string
  `fromisoformat` rejects raises `ValueError` whatever the self-tests say. The
  comparison with `utcnow()` runs only when the tests passed. A string carrying a
  UTC offset parses to an aware datetime, and comparing that with the naive
  `utcnow()` raises `TypeError` (binary_sensor.py:119-123).
- A binary sensor's unique id is the device's *name* plus the type. Two Protects
  with the same name therefore share unique ids (`BinarySensor.UniqueIdSharedByNamesakes`).
  A value sensor's unique id uses the device id, and it never collides for the
  listed types (`Sensor.UniqueIdsDistinctAcrossDevices`).

## Model

| member | source | states |
|---|---|---|
| `Values.GreaterThanZero` | custom_components/badnest/binary_sensor.py:94-97 | Python `v > 0`: a bool compares as 0/1 and an int or float by value. None or a str raises TypeError, and nothing else raises. |
| `Values.ConcatStr` | custom_components/badnest/binary_sensor.py:82 | `v + suffix` succeeds exactly when v is a str. The result is v followed by the suffix. Otherwise it raises TypeError. |
| `Values.AllTruthy` | custom_components/badnest/binary_sensor.py:109-113 | The short-circuit `and` of record fields, evaluated left to right. When the first n fields are readable and truthy, an unreadable field n raises its own KeyError, and a readable falsy field n gives False without reading further. All fields readable and truthy gives True. With all fields present it is the conjunction of their truthiness. |
| `Values.CopyFields` | custom_components/badnest/binary_sensor.py:135-144 | A dict display copying record fields. It succeeds exactly when all keys are readable. Its key set is the listed keys and each value is the record's value verbatim. Keys are read in order: when the first n are readable, an unreadable key n raises its own KeyError. |
| `Platform.ExpandLength` | custom_components/badnest/binary_sensor.py:45-48 | The nested setup loops yield (number of ids) × (number of types) entities. |
| `Platform.ExpandAt` | custom_components/badnest/binary_sensor.py:45-48 | With T types, entity number i·T + j is the j-th type on the i-th device. |
| `Api.NestApi.Update` | custom_components/badnest/binary_sensor.py:132 | The API refresh replaces `device_data` with the polled records and changes nothing else. |
| `BinarySensor.Name` | custom_components/badnest/binary_sensor.py:79-82 | The name is the device name, a space and the friendly name. It raises the lookup's KeyError when the device or its name field is missing, TypeError when the name is not a str, and KeyError(type) for a type without a friendly name. |
| `BinarySensor.UniqueId` | custom_components/badnest/binary_sensor.py:84-88 | The unique id is the device name, a space and the sensor type. It succeeds exactly when the name field is a str. |
| `BinarySensor.IsOn` | custom_components/badnest/binary_sensor.py:90-128 | Except for line power, a successful result is True, False or None. None only for health or an unlisted type. An unlisted type always gives None. Only CO, smoke and health can raise TypeError, and only health can raise ValueError. |
| `BinarySensor.DeviceClass` | custom_components/badnest/binary_sensor.py:160-180 | The full table: smoke → Smoke, CO → Gas, motion → Motion, occupancy → Occupancy, line power → Power, health → Problem, device → Connectivity, each in both directions. A device class exists exactly for the seven listed types. |
| `BinarySensor.PowerSource` | custom_components/badnest/binary_sensor.py:147-151 | "Wired" iff the code equals 0, "Battery Operated" iff it equals 1, "Unknown" iff neither. Equality is Python's, so True counts as 1. |
| `BinarySensor.DeviceAttributes` | custom_components/badnest/binary_sensor.py:146-158 | The device attributes succeed exactly when the four fields are readable. They hold exactly four keys: born-on date, replace-by date and serial copied verbatim, plus the power-source label. The fields are read in the source's order, and the first unreadable one raises its own KeyError. |
| `BinarySensor.InitialAttributes` | custom_components/badnest/binary_sensor.py:62-77 | The constructor's attributes have the per-type key set, and every value is None. |
| `BinarySensor.RefreshKeepsShape` | custom_components/badnest/binary_sensor.py:134-158 | A successful refresh keeps each type's attribute key set. |
| `BinarySensor.NestProtectBinarySensor.constructor` | custom_components/badnest/binary_sensor.py:56-77 | It stores the id, type and API. The initial attributes are None-valued with the per-type keys, or absent for the other five types. |
| `BinarySensor.NestProtectBinarySensor.Update` | custom_components/badnest/binary_sensor.py:130-158 | After the poll, health copies the six self-test fields and device rebuilds its four attributes. Other types keep their attributes. A raise leaves them unchanged. The attribute shape invariant is preserved. |
| `BinarySensor.SetupPlatform` | custom_components/badnest/binary_sensor.py:39-50 | The entity list is every (Protect id, binary type) pair in loop order. Each entity is fresh, shares the API and satisfies its invariant. |
| `BinarySensor.StatusOnIffPositive` | custom_components/badnest/binary_sensor.py:94-97 | CO/smoke is on exactly when the raw value is numerically greater than 0. For an int it is `i > 0`. It raises TypeError exactly for None or a str. |
| `BinarySensor.AwayOnIffFalse` | custom_components/badnest/binary_sensor.py:98-103 | Motion and occupancy are `not raw` by truthiness, so a bool flag is negated. |
| `BinarySensor.LinePowerPassthrough` | custom_components/badnest/binary_sensor.py:100-101 | Line power is the raw field unchanged, errors included. |
| `BinarySensor.DeviceOnIffSerial` | custom_components/badnest/binary_sensor.py:104-105 | The device pseudo-sensor is on iff `serial_number` is not None. |
| `BinarySensor.HealthUnknownWithoutWifi` | custom_components/badnest/binary_sensor.py:106-128 | Health is None whenever the Wi-Fi test result is None, whatever the other fields and the clock. |
| `BinarySensor.HealthWithoutReplaceBy` | custom_components/badnest/binary_sensor.py:109-116 | With Wi-Fi data and a non-str replace-by field, health is the negation of "all five self-tests truthy". |
| `BinarySensor.ParseDate` | custom_components/badnest/binary_sensor.py:120-121 | `fromisoformat` yields the parser's datetime, or raises ValueError exactly where the parser rejects the string. |
| `BinarySensor.BeforeNow` | custom_components/badnest/binary_sensor.py:119-123 | Comparing with the naive `utcnow()` raises TypeError exactly for an aware datetime. Otherwise it is "instant before now". |
| `BinarySensor.HealthIsOn` | custom_components/badnest/binary_sensor.py:106-126 | A ValueError arises only after the replace-by field was read. A TypeError arises only when all five self-tests passed. |
| `BinarySensor.HealthWithReplaceBy` | custom_components/badnest/binary_sensor.py:119-126 | With a replace-by string that parses to a naive datetime, health is False iff all tests pass and the date is before now. Otherwise it is True, and it never raises. |
| `BinarySensor.HealthUnparsableDateRaises` | custom_components/badnest/binary_sensor.py:119-121 | A replace-by string the parser rejects raises ValueError, whatever the self-tests say. |
| `BinarySensor.HealthAwareDate` | custom_components/badnest/binary_sensor.py:119-126 | A replace-by string with a UTC offset raises TypeError when all tests pass. It reads True when some test failed. |
| `BinarySensor.HealthBranchesDisagree` | custom_components/badnest/binary_sensor.py:109-126 | A passing device with a naive replace-by date not yet reached reads True. The same record without a replace-by string reads False. |
| `BinarySensor.DeviceClassesDistinct` | custom_components/badnest/binary_sensor.py:160-180 | The seven types' device classes are pairwise distinct. |
| `BinarySensor.NamesDistinct` | custom_components/badnest/binary_sensor.py:28-36 | Different sensor types on one device get different names. |
| `BinarySensor.UniqueIdsDistinct` | custom_components/badnest/binary_sensor.py:84-88 | Different sensor types on one device get different unique ids. |
| `BinarySensor.UniqueIdSharedByNamesakes` | custom_components/badnest/binary_sensor.py:84-88 | Devices with equal name fields get equal unique ids for each type. |
| `BinarySensor.SetupLayout` | custom_components/badnest/binary_sensor.py:18-26 | Setup yields 7 entities per Protect. Entity `7i + j` is type j of Protect i. |
| `Sensor.TemperatureState` | custom_components/badnest/sensor.py:74-77 | The temperature state is the record's `temperature`, verbatim. |
| `Sensor.TemperatureAttributes` | custom_components/badnest/sensor.py:93-99 | The temperature attributes are exactly one key, the battery level, copied verbatim. |
| `Sensor.UniqueId` | custom_components/badnest/sensor.py:128-131 | The unique id splits back into the device id, an underscore and the sensor type. |
| `Sensor.Name` | custom_components/badnest/sensor.py:133-137 | The name is the device name, a space and the sensor type. It succeeds iff the name field is a str. |
| `Sensor.State` | custom_components/badnest/sensor.py:139-156 | Health gives "OK" or "Test failure", and "OK" only when all five tests are present and truthy. Other types give exactly the raw field. |
| `Sensor.DeviceClass` | custom_components/badnest/sensor.py:181-192 | `battery_level` maps to battery and `co_status` to CO. Every other type has none. |
| `Sensor.NestTemperatureSensor.UniqueId` | custom_components/badnest/sensor.py:64-67 | A temperature sensor's unique id is its device id. |
| `Sensor.NestTemperatureSensor.constructor` | custom_components/badnest/sensor.py:57-62 | It stores the device id and the API client. |
| `Sensor.NestTemperatureSensor.Update` | custom_components/badnest/sensor.py:89-91 | Update only refreshes the API's records. |
| `Sensor.InitialAttributes` | custom_components/badnest/sensor.py:111-123 | Health starts with exactly the ten attribute keys, every value None. Other types have none. |
| `Sensor.NestProtectSensor.constructor` | custom_components/badnest/sensor.py:105-126 | It stores the id, type and API, and sets the initial attributes. |
| `Sensor.NestProtectSensor.Update` | custom_components/badnest/sensor.py:158-179 | After the poll, health copies exactly the ten fields verbatim. Other types keep their attributes. A raise leaves them unchanged. The invariant is preserved. |
| `Sensor.SetupPlatform` | custom_components/badnest/sensor.py:29-51 | There is one temperature sensor per id, in order. The protect list is every (Protect id, type) pair in loop order. |
| `Sensor.HealthStateOkIffAllPassed` | custom_components/badnest/sensor.py:144-152 | With the five tests present, health is "OK" iff all are truthy and "Test failure" otherwise. |
| `Sensor.HealthStateNoneIsFailure` | custom_components/badnest/sensor.py:144-152 | A self-test result that is still None makes health "Test failure". |
| `Sensor.StatePassthrough` | custom_components/badnest/sensor.py:153-154 | Every non-health state is the raw field lookup, errors included. |
| `Sensor.UniqueIdsDistinctAcrossDevices` | custom_components/badnest/sensor.py:128-131 | Distinct (device id, listed type) pairs never share a unique id. |
| `Sensor.UniqueIdSplitsAtLength` | custom_components/badnest/sensor.py:128-131 | Two unique ids from device ids of equal length are equal only when both the ids and the types are equal. |
| `Sensor.UniqueIdSuffixes` | custom_components/badnest/sensor.py:128-131 | A unique id ends in its type's tail, and in "_" + the type at the type's full length. |
| `Sensor.NoTypeEndsInAnother` | custom_components/badnest/sensor.py:17-26 | No listed type ends in "_" followed by another listed type. |
| `Sensor.SetupLayout` | custom_components/badnest/sensor.py:45-51 | Setup yields 8 protect sensors per Protect. Sensor `8i + j` is type j of Protect i. |

## Left out

- The network poll behind `api.update()` is not modelled. `Update` takes the polled `device_data` as a parameter. The API client's authentication and polling belong to an external module that is not part of this model.
- The lookup of the shared API object in `hass.data` and the `async_add_entities` calls are framework plumbing. The setup methods return the entity lists those calls receive.
- `datetime.utcnow()` and `datetime.fromisoformat` are supplied as the parameter `BinarySensor.Clock`. It holds the current instant and a parser that yields a naive or aware datetime, or none where `fromisoformat` raises `ValueError`. ISO 8601 syntax, time zones and the instant a string denotes are not modelled.
- Logging calls are left out. They have no effect on any reading.
- The host framework's device-class enums, `TEMP_CELSIUS` and `DEVICE_CLASS_*` are abstract labels, not their string values. `ATTR_BATTERY_LEVEL` is taken to be "battery_level".
- Floats are real numbers. NaN, infinities and rounding are not modelled. The temperature is only passed through.
- `const.py` is used only for its field-name strings.
- The constant `_name` attributes set in the constructors are never read by the code, and they are not modelled.
- Python's `a and b and ...` returns an operand, not a bool. Only its truthiness is modelled, because the code uses it only in boolean contexts.
- `BinarySensor.IsOn`: its own contract states only the tri-state shape. The full rule for each sensor type is in the lemmas beside it.
- The temperature sensor's constant `device_class` and `unit_of_measurement` are constants `Sensor.TemperatureDeviceClass` and `Sensor.TemperatureUnit`. Its `name` is `Sensor.TemperatureName`. None of the three has a contract.
