# HomeWizard Energy Socket for Homebridge — a Dafny model

This project models the core of a Homebridge plugin that exposes HomeWizard
Energy Sockets to Apple HomeKit. It models the parts that decide behaviour:

- **Two HTTP clients** for the socket's local API.
  - The undici client (`src/api/api.ts`) has versioned endpoints, a 2xx test, a
    response error that carries the URL, status and body, firmware guards on
    `identify`, and a product-type guard on `data`.
  - The fetch client (`src/api/index.ts`) has fixed `v1` endpoints, an
    `Api <METHOD> call at …` error, and the same firmware guards.
- **The configuration schema** (`src/config.schema.ts`), a zod object.
  - It requires a bridge `name`.
  - It takes an optional list of sockets: an IPv4 `ip`, a `name`, and an
    optional `outletInUse` block.
  - The block's bounds are 0.1–3680 W and 0–86400 s.
  - A cross-field rule demands a truthy `threshold` and `thresholdDuration`
    when `isActive` is true.
- **The current accessory handler** (`src/energy-socket-accessory.ts`), a class.
  - The poller drives the OutletInUse characteristic through a debounce with
    two timestamps: power has to stay on one side of the threshold for the
    configured duration before the characteristic flips.
  - It rate-limits the poller's error logs.
  - A socket whose switch lock is set refuses writes.
  - Each HomeKit handler maps any failure to a communication failure.
- **The accessory handler the platform creates** (`src/energySocketAccessory.ts`).
  - It does its own fetch calls.
  - It treats a low firmware version on identify as a silent no-op.
- **The dynamic platform** (`src/platform.ts`), a class.
  - It filters multicast DNS announcements: the API must be enabled and the
    product type must be `HWE-SKT`.
  - It derives a socket's properties, including the MAC built from the serial
    in pairs.
  - It either registers a new host accessory or refreshes the cached one with
    the same UUID.
- **`isNil`** (`src/utils/index.ts`) and the JavaScript value semantics the code
  relies on: truthiness, `||` defaults, ASCII `toUpperCase`, and number
  formatting for integers and decimals.

How source constructs become Dafny:

- **Replies.** A device's reply is a parameter: a status and a decoded body, or
  the exception the transport threw. Each operation returns what it resolves or
  rejects with, plus the list of requests it sent. The proofs can therefore say
  when no request is sent.
- **Time.** Time is a parameter too: `now`, in milliseconds.
- **The host.** The host framework's calls are recorded in order in the
  platform's `hostCalls`.
- **Classes.** The two classes whose fields the source updates in place are
  Dafny classes:
  - `EnergySocket.EnergySocketAccessory`, whose data handler is proved against
    the pure debounce function `EnergySocket.Observe`;
  - `Platform.HomebridgeHomeWizardEnergySocket`.

  Everything else is pure functions over datatypes.

Modules: `Wrappers`, `JsText`, `Utils`, `Hap`, `DeviceTypes`, `Http`,
`HomeWizardApi`, `FetchHomeWizardApi`, `ConfigSchema`, `LegacySocketAccessory`,
`EnergySocket`, `Platform`.

## Model

| member | source | states |
|---|---|---|
| Utils.IsNil | src/utils/index.ts:11-13 | a nil value is never truthy |
| Utils.IsNilOptionalNumber | src/utils/index.ts:11-13 | an optional number is nil exactly when it is absent |
| Utils.IsNilExamples | src/utils/index.ts:1-10 | null and undefined are nil; NaN, 0, false and "" are not nil, yet are all falsy |
| Utils.IsNilOnlyNullOrUndefined | src/utils/index.ts:11-13 | every value other than null and undefined is not nil |
| JsText.Upper | src/platform.ts:268-272 | `toUpperCase` keeps the length and upper-cases every ASCII letter, leaving every other character alone |
| JsText.UpperIdempotent | src/platform.ts:268-272 | upper-casing twice is upper-casing once |
| JsText.UpperAppend | src/platform.ts:268-272 | upper-casing distributes over concatenation |
| JsText.NumberText | src/api/api.ts:208-213 | an integral number prints as its integer text; a decimal point appears exactly when the number is not integral |
| JsText.DecimalPlaces | src/api/api.ts:208-213 | the number of fractional digits printed is the least count (at most 20) that makes the number integral when shifted by it |
| JsText.NoTrailingZero | src/api/api.ts:208-213 | a non-integral number with at most 20 fractional digits prints with a non-zero last digit, so never with a trailing zero |
| JsText.NumberTextFractionExample | src/api/api.ts:208-213 | 2.5 prints as "2.5" |
| JsText.NumberTextNegativeExample | src/api/api.ts:208-213 | -0.25 prints as "-0.25" |
| HomeWizardApi.Client.Endpoints | src/api/api.ts:65-74 | the basic endpoint is `<url>/api`; state, identify and data are `<url>/api/<version>/…` |
| HomeWizardApi.NewClient | src/api/api.ts:58-63 | a missing API version defaults to `v1`, and the version is never empty |
| HomeWizardApi.DefaultEndpoints | src/api/api.ts:58-74 | with the default version the endpoints are the documented `/api/v1/…` paths |
| HomeWizardApi.EndpointsDistinct | src/api/api.ts:65-74 | the four endpoints are pairwise different URLs for every base URL and version |
| HomeWizardApi.IsResponseOk | src/api/api.ts:80-82 | a response is ok exactly when its status code is in the 2xx range, 200 up to but not including 300 |
| HomeWizardApi.ThrowApiResponseError | src/api/api.ts:84-98 | the response error carries the URL, the status code and the body text, and its message names the method |
| HomeWizardApi.Send | src/api/api.ts:109-128 | exactly one request is sent; the call succeeds iff the status is 2xx and the body decodes; a non-2xx status rejects with the response error |
| HomeWizardApi.GetBasicInformation | src/api/api.ts:109-128 | one GET to the basic endpoint |
| HomeWizardApi.GetState | src/api/api.ts:135-157 | one GET to the state endpoint |
| HomeWizardApi.PutState | src/api/api.ts:164-192 | one PUT to the state endpoint |
| HomeWizardApi.PutIdentify | src/api/api.ts:201-234 | a missing or zero firmware version, then a version below 3, reject with their messages and send nothing; otherwise one PUT to identify |
| HomeWizardApi.PutIdentifySendsIffSupported | src/api/api.ts:201-234 | a request is sent iff the firmware version is at least 3; without a request the result is a client error |
| HomeWizardApi.PutIdentifyTooLowExample | src/api/api.test.ts:231-240 | version 2 is rejected with a message naming "2" |
| HomeWizardApi.PutIdentifyNotSetExamples | src/api/api.test.ts:242-262 | null and 0 are both rejected as "not set" |
| HomeWizardApi.GetData | src/api/api.ts:253-288 | any product type except the P1 meter and the socket is rejected before a request; those two send one GET to the data endpoint |
| HomeWizardApi.ResponseErrorExample | src/api/api.test.ts:62-79 | a 500 with body "Server error!" gives the message "Api GET call at … failed with status 500 and response data: Server error!" |
| FetchHomeWizardApi.NewClient | src/api/index.ts:27-36 | the endpoints are `<apiUrl>/api`, `/api/v1/state` and `/api/v1/identify` |
| FetchHomeWizardApi.EndpointsAgreeWithDefaultClient | src/api/index.ts:27-36 | both clients build the same three URLs for the default version |
| FetchHomeWizardApi.ThrowApiError | src/api/index.ts:38-46 | the message is "Api ", the upper-cased method, " call at ", the URL, " failed, with status ", the decimal status, " and response data " and the serialised response, each at its own offset, and nothing else |
| FetchHomeWizardApi.ThrowApiErrorExample | src/api/index.ts:38-46 | a PUT to "http://x/api" answered with 500 and "{}" gives "Api PUT call at http://x/api failed, with status 500 and response data {}" |
| FetchHomeWizardApi.Send | src/api/index.ts:57-81 | exactly one request; success iff the response is ok and the body decodes; a non-ok response rejects with the `throwApiError` message |
| FetchHomeWizardApi.GetBasicInformation | src/api/index.ts:57-81 | one GET to the basic endpoint |
| FetchHomeWizardApi.GetState | src/api/index.ts:88-111 | one GET to the state endpoint |
| FetchHomeWizardApi.PutState | src/api/index.ts:118-146 | one PUT to the state endpoint |
| FetchHomeWizardApi.PutIdentify | src/api/index.ts:155-192 | missing/zero and below-3 firmware versions reject without a request; otherwise one PUT to identify |
| FetchHomeWizardApi.PutIdentifySendsIffSupported | src/api/index.ts:155-192 | a request is sent iff the firmware version is at least 3, and that request is the PUT to the identify endpoint; without a request the result is an error |
| FetchHomeWizardApi.PutIdentifyTooLowExample | src/api/index.test.ts:74-88 | version 2 is rejected with a message naming "2" |
| FetchHomeWizardApi.NonOkNamesMethod | src/api/index.ts:38-46 | a non-ok GET or PUT rejects, and the message names the upper-cased method right after "Api " |
| ConfigSchema.Field | src/config.schema.ts:17-97 | a key is present iff it is in the object |
| ConfigSchema.TypeIssue | src/config.schema.ts:18-38 | a type issue uses the `required_error` (or "Required") for a missing value and the `invalid_type_error` for a wrong type |
| ConfigSchema.ParseString | src/config.schema.ts:18-38 | a string parses iff present and a string, with no issues; otherwise exactly one type issue |
| ConfigSchema.OptionalBoolean | src/config.schema.ts:41-45 | absent or boolean parses cleanly; any other type gives its `invalid_type_error` |
| ConfigSchema.BoundIssues | src/config.schema.ts:46-59 | no issues iff the number is within [min, max]; issues are only too-small/too-big |
| ConfigSchema.OptionalNumber | src/config.schema.ts:46-59 | absent or numeric keeps the value; it is clean iff absent or in bounds; a non-number gives its `invalid_type_error` |
| ConfigSchema.ParseOutletObject | src/config.schema.ts:39-66 | an unparsed block always has an issue |
| ConfigSchema.RefineIssues | src/config.schema.ts:68-93 | only custom issues; the threshold issue appears iff active with a falsy threshold, the duration issue iff active with a falsy duration; nothing when not active |
| ConfigSchema.ParseOutletInUse | src/config.schema.ts:39-93 | an absent block parses cleanly to "none"; an unparsed block has an issue |
| ConfigSchema.ParseIp | src/config.schema.ts:24-34 | a string ip is kept, and is clean iff it is IPv4 |
| ConfigSchema.ParseSocket | src/config.schema.ts:23-94 | an unparsed socket has an issue |
| ConfigSchema.ParseItems | src/config.schema.ts:21-96 | a parsed array has one socket per item; an unparsed one has an issue |
| ConfigSchema.ParseEnergySockets | src/config.schema.ts:21-96 | an unparsed list has an issue |
| ConfigSchema.ParseConfig | src/config.schema.ts:17-97 | an unparsed config has an issue |
| ConfigSchema.SafeParse | src/config.schema.ts:17-97 | success iff the parse raised no issue; a failure carries at least one issue |
| ConfigSchema.SocketsJson | src/config.schema.ts:21-96 | one JSON item per socket, in order |
| ConfigSchema.OutletInUseJsonFields | src/config.schema.ts:39-66 | the encoded block holds exactly the fields that are set |
| ConfigSchema.OutletInUseRoundTrip | src/config.schema.ts:39-93 | an encoded block parses back to itself, and is clean iff it is within bounds and satisfies the refinement |
| ConfigSchema.CleanOutletInUseIsValid | src/config.schema.ts:39-93 | a block that parses without issues is valid |
| ConfigSchema.ZeroThresholdTwoIssues | src/config.schema.ts:50-81 | an active block with threshold 0 gets both the too-small and the custom "threshold is required" issue |
| ConfigSchema.ZeroDurationRejectedWhenActive | src/config.schema.ts:83-89 | duration 0 passes the bounds but fails the refinement when active |
| ConfigSchema.DefaultsPass | src/config.schema.ts:5-13 | an active block with the default threshold and duration is clean |
| ConfigSchema.SocketRoundTrip | src/config.schema.ts:23-94 | an encoded socket parses back to itself, and is clean iff it is valid |
| ConfigSchema.CleanSocketIsValid | src/config.schema.ts:23-94 | a socket that parses without issues is valid |
| ConfigSchema.ValidSocketsSnoc | src/config.schema.ts:21-96 | a socket list is valid iff its prefix and its last socket are |
| ConfigSchema.ItemsRoundTrip | src/config.schema.ts:21-96 | an encoded socket list parses back to itself, and is clean iff every socket is valid |
| ConfigSchema.CleanItemsAreValid | src/config.schema.ts:21-96 | a list that parses without issues holds only valid sockets |
| ConfigSchema.SafeParseSound | src/config.schema.ts:17-97 | whatever `safeParse` accepts is a valid configuration |
| ConfigSchema.SafeParseRoundTrip | src/config.schema.ts:17-97 | an encoded configuration is accepted iff it is valid, and then it comes back unchanged |
| ConfigSchema.MissingNameIssue | src/config.schema.ts:18-20 | an empty object fails with the single issue "A bridge name is required" at `name` |
| LegacySocketAccessory.New | src/energySocketAccessory.ts:31-90 | the state and identify URLs are built from the API URL, and OutletInUse starts true |
| LegacySocketAccessory.UrlsAgreeWithFetchClient | src/energySocketAccessory.ts:49-50 | those URLs are the fetch client's endpoints |
| LegacySocketAccessory.Guarded | src/energySocketAccessory.ts:214-257 | one request; success iff ok and decoded; every failure is a communication failure |
| LegacySocketAccessory.HandleIdentify | src/energySocketAccessory.ts:98-163 | a missing, zero or below-3 firmware resolves without a request; otherwise one PUT, failing only as a communication failure |
| LegacySocketAccessory.HandleIdentifyRejectsOnlyAfterRequest | src/energySocketAccessory.ts:98-163 | identify rejects only after it has sent a request |
| LegacySocketAccessory.IdentifyDisagreesWithFetchClient | src/energySocketAccessory.ts:110-124 | for version 2 the handler resolves where the fetch client's `putIdentify` rejects |
| LegacySocketAccessory.HandleSetOn | src/energySocketAccessory.ts:214-257 | one PUT to the state URL; success iff ok and decoded |
| LegacySocketAccessory.HandleGetOn | src/energySocketAccessory.ts:272-318 | one GET to the state URL; on success the answer is `power_on` |
| LegacySocketAccessory.SetAsyncRequiredCharacteristic | src/energySocketAccessory.ts:165-208 | one GET to `<apiUrl>/api`; the status is not checked; from a parseable body the model name is "product_name (product_type)", the serial number is `serial` and the firmware revision is `firmware_version` |
| LegacySocketAccessory.InformationIgnoresStatus | src/energySocketAccessory.ts:165-208 | a 500 with a decodable body still sets the information, while getting the On state fails |
| EnergySocket.OrZero | src/energy-socket-accessory.ts:168-170 | `v \|\| 0` is 0 iff the value is missing or 0, and otherwise the value itself |
| EnergySocket.ThresholdDurationInMs | src/energy-socket-accessory.ts:168-170 | the configured duration times 1000, 0 when missing |
| EnergySocket.ValidConfigDurationBounds | src/energy-socket-accessory.ts:168-170 | for a configuration the schema accepts, the duration is between 0 and 24 h, and positive when active |
| EnergySocket.IsActivePowerAboveThreshold | src/energy-socket-accessory.ts:212-214 | above iff a non-zero sample exceeds the threshold (0 when missing) |
| EnergySocket.NilSampleIsNeverAbove | src/energy-socket-accessory.ts:212-214 | a null or undefined sample is never above the threshold |
| EnergySocket.InitialIsOutletInUse | src/energy-socket-accessory.ts:142-149 | in use when the feature is off; otherwise iff the cached power is above the threshold |
| EnergySocket.IsThresholdCrossedAfterDuration | src/energy-socket-accessory.ts:172-202 | null when inactive or no (or a zero) timestamp; true iff the elapsed time reaches the duration |
| EnergySocket.IsSwitchLockEnabled | src/energy-socket-accessory.ts:204-206 | the switch lock is on only when a state response is stored and its `switch_lock` is exactly true |
| EnergySocket.ModelName | src/energy-socket-accessory.ts:208-210 | "name (type)": the product name, then " (", the product type and ")" |
| EnergySocket.Observe | src/energy-socket-accessory.ts:270-345 | one data response: the sample first moves the crossing clocks, then a clock that has run for the duration flips OutletInUse; its properties are `ObserveKeepsAtMostOneTimer` and `ObserveTransitions` |
| EnergySocket.ArmRecordsFirstCrossing | src/energy-socket-accessory.ts:281-291 | a sample starts its side's clock only if it is not running, and stops the other side's clock |
| EnergySocket.ArmLeavesOwnSideTimer | src/energy-socket-accessory.ts:281-291 | after a sample only the clock of that sample's side runs |
| EnergySocket.ObserveKeepsAtMostOneTimer | src/energy-socket-accessory.ts:270-345 | the data handler never leaves both clocks running |
| EnergySocket.ObserveTransitions | src/energy-socket-accessory.ts:294-309 | OutletInUse turns on iff it was off and the "above" clock has run the duration, and turns off symmetrically; a flip stops both clocks |
| EnergySocket.InactiveNeverFlips | src/energy-socket-accessory.ts:172-202 | with the feature off, the data handler never changes OutletInUse |
| EnergySocket.RunExplainsClocks | src/energy-socket-accessory.ts:281-291 | over any run of samples, a running clock was started at a sample from which every sample is on that side |
| EnergySocket.RunSwitchesOnlyAfterHeldDuration | src/energy-socket-accessory.ts:281-309 | a sample flips OutletInUse on (off) only if every sample since some earlier sample was above (not above) and at least the duration has passed since it |
| EnergySocket.DebounceScenario | src/energy-socket-accessory.ts:281-309 | with 5 W for 60 s, samples 2, 6, 6 and 6 W at +0, +1, +59 and +61 s leave OutletInUse off with the above clock at +1 s, then turn it on |
| EnergySocket.PollErrorStep | src/energy-socket-accessory.ts:347-370 | an error is logged iff it is the first (count 0) or the count has passed the interval; passing the interval resets the count to 0, an unlogged error increments it, and the count stays within interval + 1 |
| EnergySocket.ErrorCountAfter | src/energy-socket-accessory.ts:347-370 | the count after any run of errors stays within interval + 1 |
| EnergySocket.ErrorCountAfterCycles | src/energy-socket-accessory.ts:354-369 | after m full cycles and r more errors, the count is r |
| EnergySocket.ErrorCountIsCyclic | src/energy-socket-accessory.ts:354-369 | after n errors the count is n mod (interval + 2) |
| EnergySocket.ErrorLoggedIff | src/energy-socket-accessory.ts:354-361 | error n is logged iff n mod (interval + 2) is 0 or interval + 1 |
| EnergySocket.ErrorLogsComeInPairs | src/energy-socket-accessory.ts:354-369 | the log closing a cycle is followed at once by another, then interval errors go unlogged |
| EnergySocket.HandleAccessoryApiError | src/energy-socket-accessory.ts:471-484 | always a communication failure; the log message is a plain error's message, else the fallback, else the default (a HomeKit status error gives none, see below) |
| EnergySocket.WillPollData | src/energy-socket-accessory.ts:250-264 | `/data` is polled only when the OutletInUse feature is active and the device is an Energy Socket (`HWE-SKT`) |
| EnergySocket.EnergySocketAccessory.constructor | src/energy-socket-accessory.ts:36-110 | OutletInUse is kept from the cache when the feature is on, and otherwise set to the initial value (true); both clocks are off, the count is 0, and there is no switch lock |
| EnergySocket.EnergySocketAccessory.SetOutletInUse | src/energy-socket-accessory.ts:216-223 | sets OutletInUse and stops both clocks |
| EnergySocket.EnergySocketAccessory.SyncOutletInUseStateWithOnState | src/energy-socket-accessory.ts:234-239 | OutletInUse follows the On state only when the feature is off |
| EnergySocket.EnergySocketAccessory.OnDataResponse | src/energy-socket-accessory.ts:270-345 | the new debounce state is `Observe` of the old one; a non-nil sample is stored; the error count resets |
| EnergySocket.EnergySocketAccessory.OnDataError | src/energy-socket-accessory.ts:347-370 | logging and the new count follow `PollErrorStep`; the message is the error's or the default |
| EnergySocket.EnergySocketAccessory.HandleIdentify | src/energy-socket-accessory.ts:379-389 | resolves with the library's answer, or fails with a communication failure |
| EnergySocket.EnergySocketAccessory.HandleSetOn | src/energy-socket-accessory.ts:398-429 | with the switch lock set nothing is written and it fails; otherwise `power_on` is written, and on success OutletInUse follows it when the feature is off |
| EnergySocket.EnergySocketAccessory.HandleGetOn | src/energy-socket-accessory.ts:444-469 | on success it answers `power_on`, stores the state and with it the switch lock, and syncs OutletInUse; on failure nothing changes |
| EnergySocket.SwitchLockScenario | src/energy-socket-accessory.ts:398-469 | a write goes through before any read; after reading a locked state the same write sends nothing and fails |
| Platform.IsDeviceApiEnabled | src/platform.ts:156-158 | the local API is enabled exactly when the TXT record's `api_enabled` is the string "1" |
| Platform.IsDeviceProductTypeSupported | src/platform.ts:160-162 | a device is supported exactly when its TXT record's `product_type` is `HWE-SKT` |
| Platform.Decide | src/platform.ts:164-185 | accepted iff the API is enabled and the type is `HWE-SKT`; a disabled API is reported first |
| Platform.DecideExamples | src/platform.test.ts:8-44 | the disabled, the enabled and the P1 announcements are decided as in the tests |
| Platform.Mac | src/platform.ts:268-272 | the matches joined by ":" and upper-cased; "" exactly when the serial has no match (the fallback to the empty string), otherwise as long as the joined matches; see `MacWithoutColons` and `MacLength` for its content and length |
| Platform.Chunks | src/platform.ts:268-272 | each `/.{1,2}/g` match has one or two characters and no line terminator |
| Platform.RemoveColons | src/platform.ts:268-272 | the result has no colon |
| Platform.ChunksCoverSerial | src/platform.ts:268-272 | without line terminators, the matches concatenate to the serial, all but the last are pairs, and there are ⌈n/2⌉ of them |
| Platform.RemoveColonsAppend | src/platform.ts:268-272 | removing colons distributes over concatenation |
| Platform.RemoveColonsKeeps | src/platform.ts:268-272 | a colon-free string is unchanged |
| Platform.RemoveColonsOfUpper | src/platform.ts:268-272 | removing colons commutes with upper-casing |
| Platform.RemoveColonsOfJoin | src/platform.ts:268-272 | removing the separators of a colon join of colon-free parts gives their concatenation |
| Platform.MacWithoutColons | src/platform.ts:268-272 | the MAC with its colons removed is the upper-cased serial |
| Platform.ConcatContains | src/platform.ts:268-272 | every character of a part occurs in the concatenation |
| Platform.JoinLength | src/platform.ts:268-272 | a join is as long as the parts plus one separator between each pair |
| Platform.MacLength | src/platform.ts:268-272 | an empty serial gives ""; a serial of n characters gives n + (n-1)/2 characters |
| Platform.MacSkipsLineTerminator | src/platform.ts:268-272 | a line terminator inside the serial is dropped: "ab\ncd" gives "AB:CD" |
| Platform.MacOfNoMatch | src/platform.ts:268-272 | when `match` finds nothing ("" or "\n") the `\|\| ""` default gives "" |
| Platform.FirstAddress | src/platform.ts:255-316 | an address is taken iff the list is present and non-empty |
| Platform.PropertiesFromService | src/platform.ts:255-316 | the UUID is generated from the serial; the MAC derives from the serial; the API URL is `http://<first address>:<port>`; the display name is "product_name serial" |
| Platform.HandlerUsesAnnouncedAddress | src/platform.ts:255-316 | the handler's state URL is on the first announced address and port |
| Platform.FindAccessory | src/platform.ts:194-196 | the index of the first cached accessory with the UUID, or none iff there is none |
| Platform.PlatformAccessory.constructor | src/platform.ts:210-218 | the accessory keeps its display name and UUID, with an empty context |
| Platform.HomebridgeHomeWizardEnergySocket.constructor | src/platform.ts:45-87 | no cached accessories and no host calls yet |
| Platform.HomebridgeHomeWizardEnergySocket.ConfigureAccessory | src/platform.ts:89-99 | a restored accessory is appended to the cache |
| Platform.HomebridgeHomeWizardEnergySocket.HandleDiscoveredService | src/platform.ts:164-250 | rejected announcements change nothing; a new UUID creates, stores the context of, and registers a fresh accessory; a cached UUID refreshes that accessory's context and updates it; the cache is never extended |
| Platform.RepeatedAnnouncementRegistersTwice | src/platform.ts:194-230 | announcing an uncached socket twice registers two distinct accessories with the same UUID |
| Platform.CachedAnnouncementIsRestored | src/platform.ts:194-244 | a cached socket is updated and never registered again |

## Left out

- The HTTP transport is not modelled: connections, timeouts, and the JSON request bodies of `putState` and `handleSetOn`. A reply is a parameter, either a status with a decoded body or a thrown message.
- Logging is not modelled: log text, log levels and verbose logging. Only whether the poller's error handler logs, and what message it would log, is modelled.
- The library's long-poll timer is not modelled (`polling.getData.start`). The two handlers are methods the caller invokes one sample at a time, and concurrency between the poller and the HomeKit handlers is not modelled; calls are sequential.
- Wall-clock time: `new Date()` becomes the `now` parameter. The two reads inside one data response are taken to be the same instant.
- EnergySocket.EnergySocketAccessory.HandleIdentify: the library's own identify call and its firmware check are not visible. The firmware getter (`Number()` of the FirmwareRevision characteristic) is not modelled, and the reply is a parameter.
- EnergySocket.HandleAccessoryApiError: a HomeKit status error is an `Error` whose message the source logs; that text is HomeKit's and is not modelled, so for that variant the message is None.
- EnergySocket.EnergySocketAccessory.OnDataError: the text of HomeKit's status error is not modelled. For that variant the message is None.
- Firmware versions and power values are rationals, so NaN, Infinity and exponent notation in number printing are not modelled.
- JsText.Upper: only ASCII letters are upper-cased, not full Unicode case mapping.
- The host's UUID generator and validator's `isIP(ip, 4)` are function parameters, not implementations.
- SHOW_POLLING_ERRORS_INTERVAL's value is not modelled; it is a constructor parameter.
- The accessory's `properties` is a copy, so its aliasing with the platform accessory's `context` is not modelled.
- Bonjour browsing (`discoverDevices`) is not modelled, nor the `down`/`error` events it only logs, nor the shutdown hook. Only the handling of one announcement is modelled.
- Marking a device offline, grace windows and removing stale accessories have no code in the source, so they are not modelled.
- `src/platformAccessory.ts` is not part of this model: it is a template accessory the platform does not create.
- The characteristic wiring (`getCharacteristic(...).onGet/onSet`) is not modelled. Neither handler's Manufacturer characteristic is modelled, and the current handler's SerialNumber and FirmwareRevision writes are not modelled either; they copy `properties` unchanged. The legacy handler's Model, SerialNumber and FirmwareRevision from `GET /api` are modelled by `LegacySocketAccessory.SetAsyncRequiredCharacteristic`.
