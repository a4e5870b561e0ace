/** The first-generation accessory handler: fixed `v1` URLs built once, an
    identify handler that silently skips old or unknown firmware, and get/set
    handlers that turn every failure into one HomeKit status. */
module LegacySocketAccessory {
  import opened Wrappers
  import opened Http
  import opened Hap
  import opened DeviceTypes
  import FetchHomeWizardApi

  /** What a handler resolves with (or the HAP status it rejects with) and
      the requests it sends on the way. */
  datatype Handled<T> = Handled(result: Result<T, HapStatus>, requests: seq<Request>)

  /** The accessory as its constructor leaves it: the two URLs it keeps and
      the Outlet service's Name and OutletInUse characteristics. */
  datatype Accessory = Accessory(
    apiUrl: string,
    stateApiUrl: string,
    identifyApiUrl: string,
    serviceName: string,
    outletInUse: bool)

  function New(apiUrl: string, name: string): (a: Accessory)
    ensures a.apiUrl == apiUrl && a.serviceName == name
    ensures a.stateApiUrl == apiUrl + "/api/v1/state"
    ensures a.identifyApiUrl == apiUrl + "/api/v1/identify"
    ensures a.outletInUse
  {
    Accessory(apiUrl, apiUrl + "/api/v1/state", apiUrl + "/api/v1/identify", name, true)
  }

  /** The URLs this handler builds are the ones the node-fetch client
      builds for the same device. */
  lemma UrlsAgreeWithFetchClient(apiUrl: string, name: string)
    ensures New(apiUrl, name).stateApiUrl == FetchHomeWizardApi.NewClient(apiUrl).endpoints.state
    ensures New(apiUrl, name).identifyApiUrl == FetchHomeWizardApi.NewClient(apiUrl).endpoints.identify
  {
  }

  /** A fetch whose failure modes (a throw, a non-OK status, a body that is
      not JSON) all end in the same catch block. */
  function Guarded<T>(httpMethod: string, url: string, reply: FetchReply<T>): (h: Handled<T>)
    ensures h.requests == [Request(httpMethod, url)]
    ensures h.result.Success? <==> reply.FetchResponse? && FetchOk(reply.status) && reply.json.Success?
    ensures h.result.Success? ==> h.result.value == reply.json.value
    ensures h.result.Failure? ==> h.result.error == SERVICE_COMMUNICATION_FAILURE
  {
    var result :=
      if reply.FetchResponse? && FetchOk(reply.status) && reply.json.Success? then Success(reply.json.value)
      else Failure(SERVICE_COMMUNICATION_FAILURE);
    Handled(result, [Request(httpMethod, url)])
  }

  /** `handleIdentify`.  `firmware` is the FirmwareRevision characteristic
      already read as a number: None when it is unset or not a number. */
  function HandleIdentify(a: Accessory, firmware: Option<real>, reply: FetchReply<IdentifyResponse>)
    : (h: Handled<()>)
    ensures firmware.None? || firmware.value == 0.0 ==> h == Handled(Success(()), [])
    ensures firmware.Some? && firmware.value != 0.0 && firmware.value < 3.0 ==> h == Handled(Success(()), [])
    ensures firmware.Some? && firmware.value >= 3.0 ==>
      h.requests == [Request("PUT", a.identifyApiUrl)] &&
      (h.result.Success? <==> reply.FetchResponse? && FetchOk(reply.status) && reply.json.Success?)
    ensures h.result.Failure? ==> h.result.error == SERVICE_COMMUNICATION_FAILURE
  {
    if firmware.None? || firmware.value == 0.0 then Handled(Success(()), [])
    else if firmware.value < 3.0 then Handled(Success(()), [])
    else
      var g := Guarded("PUT", a.identifyApiUrl, reply);
      Handled(if g.result.Success? then Success(()) else Failure(g.result.error), g.requests)
  }

  /** Identify never rejects without having sent its request: old or
      missing firmware resolves quietly. */
  lemma HandleIdentifyRejectsOnlyAfterRequest(a: Accessory, firmware: Option<real>, reply: FetchReply<IdentifyResponse>)
    ensures var h := HandleIdentify(a, firmware, reply);
      (h.requests != [] <==> firmware.Some? && firmware.value >= 3.0) &&
      (h.result.Failure? ==> h.requests != [])
  {
  }

  /** Unlike the node-fetch client, which rejects on firmware below 3, this
      handler resolves: the two generations disagree on the same input. */
  lemma IdentifyDisagreesWithFetchClient(a: Accessory, reply: FetchReply<IdentifyResponse>)
    ensures HandleIdentify(a, Some(2.0), reply).result.Success?
    ensures FetchHomeWizardApi.PutIdentify(FetchHomeWizardApi.NewClient(a.apiUrl), Some(2.0), reply).result.Failure?
  {
  }

  /** `handleSetOn`: a PUT to the state URL (its `power_on` body is not
      modelled); any failure becomes SERVICE_COMMUNICATION_FAILURE. */
  function HandleSetOn(a: Accessory, reply: FetchReply<StateResponse>): (h: Handled<()>)
    ensures h.requests == [Request("PUT", a.stateApiUrl)]
    ensures h.result.Success? <==> reply.FetchResponse? && FetchOk(reply.status) && reply.json.Success?
    ensures h.result.Failure? ==> h.result.error == SERVICE_COMMUNICATION_FAILURE
  {
    var g := Guarded("PUT", a.stateApiUrl, reply);
    Handled(if g.result.Success? then Success(()) else Failure(g.result.error), g.requests)
  }

  /** `handleGetOn`: resolves with the device's `power_on`. */
  function HandleGetOn(a: Accessory, reply: FetchReply<StateResponse>): (h: Handled<bool>)
    ensures h.requests == [Request("GET", a.stateApiUrl)]
    ensures h.result.Success? <==> reply.FetchResponse? && FetchOk(reply.status) && reply.json.Success?
    ensures h.result.Success? ==> h.result.value == reply.json.value.power_on
    ensures h.result.Failure? ==> h.result.error == SERVICE_COMMUNICATION_FAILURE
  {
    var g := Guarded("GET", a.stateApiUrl, reply);
    Handled(if g.result.Success? then Success(g.result.value.power_on) else Failure(g.result.error), g.requests)
  }

  /** The AccessoryInformation characteristics filled in from `GET /api`. */
  datatype Information = Information(model: string, serialNumber: string, firmwareRevision: string)

  /** `setAsyncRequiredCharacteristic`: it does not look at the status, only
      at whether the body parses. */
  function SetAsyncRequiredCharacteristic(a: Accessory, reply: FetchReply<BasicInformation>)
    : (h: Handled<Information>)
    ensures h.requests == [Request("GET", a.apiUrl + "/api")]
    ensures h.result.Success? <==> reply.FetchResponse? && reply.json.Success?
    ensures h.result.Success? ==>
      var data := reply.json.value;
      h.result.value == Information(data.product_name + " (" + data.product_type + ")", data.serial, data.firmware_version)
    ensures h.result.Failure? ==> h.result.error == SERVICE_COMMUNICATION_FAILURE
  {
    var result :=
      match reply
      case FetchThrew(_) => Failure(SERVICE_COMMUNICATION_FAILURE)
      case FetchResponse(_, _, _, json) =>
        if json.Failure? then Failure(SERVICE_COMMUNICATION_FAILURE)
        else Success(Information(json.value.product_name + " (" + json.value.product_type + ")",
                                 json.value.serial, json.value.firmware_version));
    Handled(result, [Request("GET", a.apiUrl + "/api")])
  }

  /** A non-OK status with a parseable body still fills in the
      characteristics: only the get/set/identify handlers check the status. */
  lemma InformationIgnoresStatus(a: Accessory, data: BasicInformation, url: string, serialized: string)
    ensures SetAsyncRequiredCharacteristic(a, FetchResponse(url, 500, serialized, Success(data))).result.Success?
    ensures HandleGetOn(a, FetchResponse(url, 500, serialized, Success(StateResponse(true, false, 255)))).result
      == Failure(SERVICE_COMMUNICATION_FAILURE)
  {
  }
}
