/** The undici-based HomeWizard Energy client: endpoint construction, the
    2xx test, the response error, and the guards that run before a request
    is sent. */
module HomeWizardApi {
  import opened Wrappers
  import opened JsText
  import opened Http
  import opened DeviceTypes

  /** `HomeWizardApiError`, its subclass `HomeWizardApiResponseError`, and
      whatever the transport or the JSON parse throws (passed through). */
  datatype ApiError =
    | HomeWizardApiError(message: string)
    | HomeWizardApiResponseError(message: string, url: string, statusCode: int, response: string)
    | TransportError(message: string)

  /** What a client call resolves or rejects with, and the requests it sent. */
  datatype Outcome<T> = Outcome(result: Result<T, ApiError>, requests: seq<Request>)

  datatype ApiEndpoints = ApiEndpoints(basic: string, state: string, identify: string, data: string)

  const DEFAULT_API_VERSION := "v1"

  datatype Client = Client(url: string, apiVersion: string) {

    function Endpoints(): (e: ApiEndpoints)
      ensures e.basic == url + "/api"
      ensures e.state == url + "/api/" + apiVersion + "/state"
      ensures e.identify == url + "/api/" + apiVersion + "/identify"
      ensures e.data == url + "/api/" + apiVersion + "/data"
    {
      ApiEndpoints(
        url + "/api",
        url + "/api/" + apiVersion + "/state",
        url + "/api/" + apiVersion + "/identify",
        url + "/api/" + apiVersion + "/data")
    }
  }

  /** The constructor: `options.apiVersion || 'v1'`. */
  function NewClient(url: string, apiVersion: Option<string>): (c: Client)
    ensures c.url == url
    ensures apiVersion.None? ==> c.apiVersion == DEFAULT_API_VERSION
    ensures c.apiVersion != ""
  {
    Client(url, if apiVersion.Some? && apiVersion.value != "" then apiVersion.value else DEFAULT_API_VERSION)
  }

  /** With the default version the four endpoints are the documented paths. */
  lemma DefaultEndpoints(url: string)
    ensures NewClient(url, None).Endpoints() ==
      ApiEndpoints(url + "/api", url + "/api/v1/state", url + "/api/v1/identify", url + "/api/v1/data")
  {
    assert "/api/" + "v1" + "/state" == "/api/v1/state";
    assert "/api/" + "v1" + "/identify" == "/api/v1/identify";
    assert "/api/" + "v1" + "/data" == "/api/v1/data";
  }

  /** All four endpoints are different URLs, whatever the base URL and the
      version, so a call can never reach the wrong endpoint. */
  lemma {:induction false} EndpointsDistinct(c: Client)
    ensures var e := c.Endpoints();
      e.basic != e.state && e.basic != e.identify && e.basic != e.data &&
      e.state != e.identify && e.state != e.data && e.identify != e.data
  {
    var e := c.Endpoints();
    var k := |c.url + "/api/" + c.apiVersion + "/"|;
    assert |e.basic| < k;
    assert e.state[k] == 's';
    assert e.identify[k] == 'i';
    assert e.data[k] == 'd';
  }

  /** `isResponseOk`: the status is a 2xx. */
  predicate IsResponseOk(statusCode: int) {
    200 <= statusCode && statusCode < 300
  }

  function ResponseErrorMessage(url: string, httpMethod: string, statusCode: int, text: string): string {
    "Api " + httpMethod + " call at " + url + " failed with status " + IntText(statusCode)
      + " and response data: " + text
  }

  /** `throwApiResponseError`: the error carries the URL, the status and the
      body text next to its message. */
  function ThrowApiResponseError(url: string, httpMethod: string, statusCode: int, text: string): (e: ApiError)
    ensures e.HomeWizardApiResponseError?
    ensures e.url == url && e.statusCode == statusCode && e.response == text
    ensures e.message == ResponseErrorMessage(url, httpMethod, statusCode, text)
  {
    HomeWizardApiResponseError(ResponseErrorMessage(url, httpMethod, statusCode, text), url, statusCode, text)
  }

  /** The request-then-check sequence every call shares. */
  function Send<T>(httpMethod: string, url: string, reply: UndiciReply<T>): (o: Outcome<T>)
    ensures o.requests == [Request(httpMethod, url)]
    ensures o.result.Success? <==>
      reply.UndiciResponse? && IsResponseOk(reply.statusCode) && reply.json.Success?
    ensures o.result.Success? ==> o.result.value == reply.json.value
    ensures reply.UndiciResponse? && !IsResponseOk(reply.statusCode) ==>
      o.result == Failure(ThrowApiResponseError(url, httpMethod, reply.statusCode, reply.text))
  {
    var result :=
      match reply
      case UndiciThrew(m) => Failure(TransportError(m))
      case UndiciResponse(status, text, json) =>
        if !IsResponseOk(status) then Failure(ThrowApiResponseError(url, httpMethod, status, text))
        else match json
          case Success(v) => Success(v)
          case Failure(m) => Failure(TransportError(m));
    Outcome(result, [Request(httpMethod, url)])
  }

  function GetBasicInformation(c: Client, reply: UndiciReply<BasicInformation>): (o: Outcome<BasicInformation>)
    ensures o.requests == [Request("GET", c.Endpoints().basic)]
  {
    Send("GET", c.Endpoints().basic, reply)
  }

  function GetState(c: Client, reply: UndiciReply<StateResponse>): (o: Outcome<StateResponse>)
    ensures o.requests == [Request("GET", c.Endpoints().state)]
  {
    Send("GET", c.Endpoints().state, reply)
  }

  /** `putState`; the JSON body it sends is not part of the model. */
  function PutState(c: Client, reply: UndiciReply<StateResponse>): (o: Outcome<StateResponse>)
    ensures o.requests == [Request("PUT", c.Endpoints().state)]
  {
    Send("PUT", c.Endpoints().state, reply)
  }

  const FIRMWARE_NOT_SET_MESSAGE := "Cannot identify this Energy Socket. The firmware version is not set."

  function FirmwareTooLowMessage(version: real): string {
    "Cannot identify this Energy Socket. Firmware version is " + NumberText(version)
      + ". But the identify feature is only available on Energy Sockets with firmware version 3.00 or later."
  }

  /** `putIdentify`: a missing or zero firmware version, then a version below
      3, are rejected before any request; otherwise one PUT is sent to the
      identify endpoint. */
  function PutIdentify(c: Client, firmwareVersion: Option<real>, reply: UndiciReply<IdentifyResponse>)
    : (o: Outcome<IdentifyResponse>)
    ensures firmwareVersion.None? || firmwareVersion.value == 0.0 ==>
      o == Outcome(Failure(HomeWizardApiError(FIRMWARE_NOT_SET_MESSAGE)), [])
    ensures firmwareVersion.Some? && firmwareVersion.value != 0.0 && firmwareVersion.value < 3.0 ==>
      o == Outcome(Failure(HomeWizardApiError(FirmwareTooLowMessage(firmwareVersion.value))), [])
    ensures firmwareVersion.Some? && firmwareVersion.value >= 3.0 ==>
      o == Send("PUT", c.Endpoints().identify, reply)
  {
    if firmwareVersion.None? || firmwareVersion.value == 0.0 then
      Outcome(Failure(HomeWizardApiError(FIRMWARE_NOT_SET_MESSAGE)), [])
    else if firmwareVersion.value < 3.0 then
      Outcome(Failure(HomeWizardApiError(FirmwareTooLowMessage(firmwareVersion.value))), [])
    else
      Send("PUT", c.Endpoints().identify, reply)
  }

  /** A request is sent exactly when the firmware version is at least 3, and
      a request-free outcome is always one of the two firmware errors. */
  lemma PutIdentifySendsIffSupported(c: Client, firmwareVersion: Option<real>, reply: UndiciReply<IdentifyResponse>)
    ensures var o := PutIdentify(c, firmwareVersion, reply);
      (o.requests != [] <==> firmwareVersion.Some? && firmwareVersion.value >= 3.0) &&
      (o.requests == [] ==> o.result.Failure? && o.result.error.HomeWizardApiError?) &&
      (o.requests != [] ==> o.requests == [Request("PUT", c.Endpoints().identify)])
  {
  }

  /** The "too low" case from the client's tests: version 2 is named in the message. */
  lemma PutIdentifyTooLowExample(c: Client, reply: UndiciReply<IdentifyResponse>)
    ensures PutIdentify(c, Some(2.0), reply).result == Failure(HomeWizardApiError(
      "Cannot identify this Energy Socket. Firmware version is " + "2"
      + ". But the identify feature is only available on Energy Sockets with firmware version 3.00 or later."))
  {
    assert NumberText(2.0) == "2" by {
      assert DigitChar(2) == '2';
      assert NatText(2) == "2";
    }
  }

  /** The "not set" cases from the client's tests: `null` and `0`. */
  lemma PutIdentifyNotSetExamples(c: Client, reply: UndiciReply<IdentifyResponse>)
    ensures PutIdentify(c, None, reply).result == Failure(HomeWizardApiError(FIRMWARE_NOT_SET_MESSAGE))
    ensures PutIdentify(c, Some(0.0), reply).result == Failure(HomeWizardApiError(FIRMWARE_NOT_SET_MESSAGE))
  {
  }

  function UnsupportedProductTypeMessage(productType: string): string {
    "Product type \"" + productType + "\" is not supported for this API call."
  }

  /** `getData`: only the P1 meter and the Energy Socket may ask for data;
      any other product type is rejected before a request is sent. */
  function GetData(c: Client, productType: string, reply: UndiciReply<DataResponse>): (o: Outcome<DataResponse>)
    ensures productType != WIFI_PI_METER && productType != WIFI_ENERGY_SOCKET ==>
      o == Outcome(Failure(HomeWizardApiError(UnsupportedProductTypeMessage(productType))), [])
    ensures productType == WIFI_PI_METER || productType == WIFI_ENERGY_SOCKET ==>
      o == Send("GET", c.Endpoints().data, reply)
  {
    if productType != WIFI_PI_METER && productType != WIFI_ENERGY_SOCKET then
      Outcome(Failure(HomeWizardApiError(UnsupportedProductTypeMessage(productType))), [])
    else
      Send("GET", c.Endpoints().data, reply)
  }

  /** The server-error case from the client's tests. */
  lemma ResponseErrorExample()
    ensures ResponseErrorMessage("http://localhost/api", "GET", 500, "Server error!") ==
      "Api GET call at " + "http://localhost/api" + " failed with status " + "500"
      + " and response data: " + "Server error!"
  {
    assert IntText(500) == "500" by {
      assert DigitChar(5) == '5' && DigitChar(0) == '0';
      assert NatText(5) == "5";
      assert NatText(50) == "50";
      assert NatText(500) == "500";
    }
    assert "Api " + "GET" + " call at " == "Api GET call at ";
  }
}
