/** Field names of a Nest device record, as custom_components/badnest/const.py
    and the two sensor platforms spell them. */
module Const {

  // Sensor attributes named in const.py
  const BinarySensorMotion := "auto_away"
  const BinarySensorLinePower := "line_power_present"
  const BinarySensorOccupancy := "home_away_input"
  const SensorCoStatus := "co_status"
  const SensorSmokeStatus := "smoke_status"
  const SensorBatteryLevel := "battery_level"
  const SensorTemperature := "temperature"

  // Record fields the platforms read by literal name
  const DeviceName := "name"
  const WifiTestPassed := "component_wifi_test_passed"
  const CoTestPassed := "component_co_test_passed"
  const SmokeTestPassed := "component_smoke_test_passed"
  const SpeakerTestPassed := "component_speaker_test_passed"
  const LedTestPassed := "component_led_test_passed"
  const LastAudioSelfTest := "last_audio_self_test_end_utc_secs"
  const BornOnDate := "device_born_on_date_utc_secs"
  const ReplaceByDate := "replace_by_date_utc_secs"
  const SerialNumber := "serial_number"
  const WiredOrBattery := "wired_or_battery"

  /** The five self-test results, in the order the health rules test them. */
  const SelfTestFields: seq<string> :=
    [WifiTestPassed, CoTestPassed, SmokeTestPassed, SpeakerTestPassed, LedTestPassed]
}
