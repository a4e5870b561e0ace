/** The node-fetch based HomeWizard Energy client: fixed `v1` endpoints, one
    error constructor for every non-OK response, and the firmware guards of
    `putIdentify`. */
module FetchHomeWizardApi {
  import opened Wrappers
  import opened JsText
  import opened Http
  import opened DeviceTypes
  import HomeWizardApi

  /** A call resolves with a value or rejects with an `Error` message. */
  datatype Outcome<T> = Outcome(result: Result<T, string>, requests: seq<Request>)

  datatype Endpoints = Endpoints(basic: string, state: string, identify: string)

  datatype Client = Client(endpoints: Endpoints)

  function NewClient(apiUrl: string): (c: Client)
    ensures c.endpoints.basic == apiUrl + "/api"
    ensures c.endpoints.state == apiUrl + "/api/v1/state"
    ensures c.endpoints.identify == apiUrl + "/api/v1/identify"
  {
    Client(Endpoints(apiUrl + "/api", apiUrl + "/api/v1/state", apiUrl + "/api/v1/identify"))
  }

  /** Both clients address the same three URLs for a device when the
      undici client keeps its default version. */
  lemma EndpointsAgreeWithDefaultClient(apiUrl: string)
    ensures var e := HomeWizardApi.NewClient(apiUrl, None).Endpoints();
      NewClient(apiUrl).endpoints == Endpoints(e.basic, e.state, e.identify)
  {
    HomeWizardApi.DefaultEndpoints(apiUrl);
  }

  /** `throwApiError`: the message names the upper-cased method, the
      response URL, its status and its serialised form. */
  function ThrowApiError(httpMethod: string, url: string, status: int, serialized: string): (message: string)
    ensures |message| == 4 + |httpMethod| + 9 + |url| + 21 + |IntText(status)| + 19 + |serialized|
    ensures message[..4] == "Api "
    ensures message[4..4 + |httpMethod|] == Upper(httpMethod)
    ensures var u := 4 + |httpMethod| + 9;
      message[u - 9..u] == " call at " && message[u..u + |url|] == url
    ensures var s := 4 + |httpMethod| + 9 + |url| + 21;
      message[s - 21..s] == " failed, with status " && message[s..s + |IntText(status)|] == IntText(status)
    ensures var d := |message| - |serialized|;
      message[d - 19..d] == " and response data " && message[d..] == serialized
  {
    var head := "Api " + Upper(httpMethod);
    var details := ApiErrorDetails(url, status, serialized);
    var n, t := |url|, |IntText(status)|;
    MiddleSlice("Api ", Upper(httpMethod), details);
    ShiftedSlice(head, details, 0, 9);
    ShiftedSlice(head, details, 9, 9 + n);
    ShiftedSlice(head, details, 9 + n, 9 + n + 21);
    ShiftedSlice(head, details, 9 + n + 21, 9 + n + 21 + t);
    ShiftedSlice(head, details, |details| - |serialized| - 19, |details| - |serialized|);
    ShiftedSlice(head, details, |details| - |serialized|, |details|);
    head + details
  }

  /** What follows the method in the `throwApiError` message. */
  function ApiErrorDetails(url: string, status: int, serialized: string): (d: string)
    ensures |d| == 9 + |url| + 21 + |IntText(status)| + 19 + |serialized|
    ensures d[..9] == " call at " && d[9..9 + |url|] == url
    ensures var s := 9 + |url| + 21;
      d[s - 21..s] == " failed, with status " && d[s..s + |IntText(status)|] == IntText(status)
    ensures d[|d| - |serialized| - 19..|d| - |serialized|] == " and response data "
    ensures d[|d| - |serialized|..] == serialized
  {
    var statusText := IntText(status);
    var head := " call at " + url + " failed, with status ";
    MiddleSlice(" call at ", url, " failed, with status " + statusText + " and response data " + serialized);
    MiddleSlice(head, statusText, " and response data " + serialized);
    MiddleSlice(head + statusText, " and response data ", serialized);
    head + statusText + " and response data " + serialized
  }

  /** A lower-case method is shown upper-cased, the status in decimal. */
  lemma ThrowApiErrorExample()
    ensures ThrowApiError("put", "http://x/api", 500, "{}") ==
      "Api PUT" + " call at " + "http://x/api" + " failed, with status " + "500"
      + " and response data " + "{}"
  {
    assert Upper("put") == "PUT";
    assert IntText(500) == "500" by {
      assert DigitChar(5) == '5' && DigitChar(0) == '0';
      assert NatText(5) == "5";
      assert NatText(50) == "50";
    }
    assert "Api " + "PUT" == "Api PUT";
  }

  /** The request-then-check sequence every call shares. */
  function Send<T>(httpMethod: string, url: string, reply: FetchReply<T>): (o: Outcome<T>)
    ensures o.requests == [Request(httpMethod, url)]
    ensures reply.FetchResponse? && !FetchOk(reply.status) ==>
      o.result == Failure(ThrowApiError(httpMethod, reply.url, reply.status, reply.serialized))
    ensures o.result.Success? <==> reply.FetchResponse? && FetchOk(reply.status) && reply.json.Success?
    ensures o.result.Success? ==> o.result.value == reply.json.value
  {
    var result :=
      match reply
      case FetchThrew(m) => Failure(m)
      case FetchResponse(responseUrl, status, serialized, json) =>
        if !FetchOk(status) then Failure(ThrowApiError(httpMethod, responseUrl, status, serialized))
        else json;
    Outcome(result, [Request(httpMethod, url)])
  }

  function GetBasicInformation(c: Client, reply: FetchReply<BasicInformation>): (o: Outcome<BasicInformation>)
    ensures o.requests == [Request("GET", c.endpoints.basic)]
  {
    Send("GET", c.endpoints.basic, reply)
  }

  function GetState(c: Client, reply: FetchReply<StateResponse>): (o: Outcome<StateResponse>)
    ensures o.requests == [Request("GET", c.endpoints.state)]
  {
    Send("GET", c.endpoints.state, reply)
  }

  /** `putState`; the JSON body it sends is not part of the model. */
  function PutState(c: Client, reply: FetchReply<StateResponse>): (o: Outcome<StateResponse>)
    ensures o.requests == [Request("PUT", c.endpoints.state)]
  {
    Send("PUT", c.endpoints.state, reply)
  }

  const FIRMWARE_NOT_SET_MESSAGE := "Cannot identify, firmware version is not set"

  function FirmwareTooLowMessage(version: real): string {
    "Cannot identify, this Energy Socket uses firmware version " + NumberText(version)
      + ". But the identify feature is only available on Energy Sockets with firmware version 3.00 or later"
  }

  /** `putIdentify`: the same guard order as the undici client, with this
      client's own messages. */
  function PutIdentify(c: Client, firmwareVersion: Option<real>, reply: FetchReply<IdentifyResponse>)
    : (o: Outcome<IdentifyResponse>)
    ensures firmwareVersion.None? || firmwareVersion.value == 0.0 ==>
      o == Outcome(Failure(FIRMWARE_NOT_SET_MESSAGE), [])
    ensures firmwareVersion.Some? && firmwareVersion.value != 0.0 && firmwareVersion.value < 3.0 ==>
      o == Outcome(Failure(FirmwareTooLowMessage(firmwareVersion.value)), [])
    ensures firmwareVersion.Some? && firmwareVersion.value >= 3.0 ==>
      o == Send("PUT", c.endpoints.identify, reply)
  {
    if firmwareVersion.None? || firmwareVersion.value == 0.0 then
      Outcome(Failure(FIRMWARE_NOT_SET_MESSAGE), [])
    else if firmwareVersion.value < 3.0 then
      Outcome(Failure(FirmwareTooLowMessage(firmwareVersion.value)), [])
    else
      Send("PUT", c.endpoints.identify, reply)
  }

  /** A request is sent exactly when the firmware version is at least 3. */
  lemma PutIdentifySendsIffSupported(c: Client, firmwareVersion: Option<real>, reply: FetchReply<IdentifyResponse>)
    ensures var o := PutIdentify(c, firmwareVersion, reply);
      (o.requests != [] <==> firmwareVersion.Some? && firmwareVersion.value >= 3.0) &&
      (o.requests != [] ==> o.requests == [Request("PUT", c.endpoints.identify)]) &&
      (o.requests == [] ==> o.result.Failure?)
  {
  }

  /** The "too low" case from the client's tests. */
  lemma PutIdentifyTooLowExample(c: Client, reply: FetchReply<IdentifyResponse>)
    ensures PutIdentify(c, Some(2.0), reply).result == Failure(
      "Cannot identify, this Energy Socket uses firmware version " + "2"
      + ". But the identify feature is only available on Energy Sockets with firmware version 3.00 or later")
  {
    assert NumberText(2.0) == "2" by {
      assert DigitChar(2) == '2';
      assert NatText(2) == "2";
    }
  }

  /** A slice of a concatenation that lines up with its middle part. */
  lemma MiddleSlice(a: string, b: string, c: string)
    ensures (a + b + c)[|a|..|a| + |b|] == b
  {
    assert (a + b + c)[|a|..|a| + |b|] == (a + b)[|a|..];
  }

  /** A slice of the part that follows `a`, seen from the start of `a + b`. */
  lemma ShiftedSlice(a: string, b: string, i: nat, j: nat)
    requires i <= j <= |b|
    ensures (a + b)[|a| + i..|a| + j] == b[i..j]
  {
  }

  /** Every call that gets a non-OK response rejects with a message that
      names its method upper-cased; the methods the client passes are
      already upper-case, so the message shows them as written. */
  lemma NonOkNamesMethod(httpMethod: string, url: string, reply: FetchReply<StateResponse>)
    requires httpMethod == "GET" || httpMethod == "PUT"
    requires reply.FetchResponse? && !FetchOk(reply.status)
    ensures Send(httpMethod, url, reply).result.Failure?
    ensures var m := Send(httpMethod, url, reply).result.error;
      |m| >= 7 && m[4..7] == httpMethod
  {
    assert Upper(httpMethod) == httpMethod;
    var tail := ApiErrorDetails(reply.url, reply.status, reply.serialized);
    MiddleSlice("Api ", httpMethod, tail);
  }
}
