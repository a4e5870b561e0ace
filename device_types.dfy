/** The device's wire records and the product-type constants. */
module DeviceTypes {
  import opened Wrappers

  const WIFI_PI_METER := "HWE-P1"
  const WIFI_ENERGY_SOCKET := "HWE-SKT"
  const WIFI_WATER_METER := "HWE-WTR"
  const WIFI_KWH_METER_PHASE_1 := "SDM230-wifi"
  const WIFI_KWH_METER_PHASE_2 := "SDM630-wifi"

  /** The product type the plugin accepts during discovery. */
  const ENERGY_SOCKET_PRODUCT_TYPE := WIFI_ENERGY_SOCKET

  const PLATFORM_MANUFACTURER := "HomeWizard"

  /** The text record a device announces over multicast DNS. */
  datatype TxtRecord = TxtRecord(
    api_enabled: string,
    path: string,
    serial: string,
    product_name: string,
    product_type: string)

  /** Answer of `GET /api/v1/state`. */
  datatype StateResponse = StateResponse(power_on: bool, switch_lock: bool, brightness: int)

  /** Answer of `GET /api`. */
  datatype BasicInformation = BasicInformation(
    product_type: string,
    product_name: string,
    serial: string,
    firmware_version: string,
    api_version: string)

  /** Answer of `PUT /api/v1/identify`. */
  datatype IdentifyResponse = IdentifyResponse(identify: string)

  /** Answer of `GET /api/v1/data`; every data point is optional, only the
      active power is used by the plugin. */
  datatype DataResponse = DataResponse(active_power_w: Option<real>)
}
