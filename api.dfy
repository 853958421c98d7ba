/** The external Nest API client the platforms share. Only what they use is
    modelled: the polled `device_data`, the two id lists and the refresh call,
    whose network poll is replaced by the record it delivers. */
module Api {
  import opened Values

  class NestApi {
    var deviceData: DeviceData
    var protects: seq<string>
    var temperatureSensors: seq<string>

    constructor (deviceData: DeviceData, protects: seq<string>, temperatureSensors: seq<string>)
      ensures this.deviceData == deviceData
      ensures this.protects == protects
      ensures this.temperatureSensors == temperatureSensors
    {
      this.deviceData := deviceData;
      this.protects := protects;
      this.temperatureSensors := temperatureSensors;
    }

    /** `api.update()`: the poll may replace every record; `polled` is what it fetched. */
    method Update(polled: DeviceData)
      modifies this`deviceData
      ensures deviceData == polled
    {
      deviceData := polled;
    }
  }
}
