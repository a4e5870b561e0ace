/** The current accessory handler for one Energy Socket: the OutletInUse
    debounce driven by the polled active power, the rate limit on polling
    error logs, the switch-lock guard on writes, and the get/set/identify
    handlers.  Time is a parameter (`now`, milliseconds since the epoch);
    the device library's calls are replaced by their replies. */
module EnergySocket {
  import opened Wrappers
  import opened Hap
  import opened DeviceTypes
  import Utils
  import ConfigSchema

  /** The record the platform keeps in the accessory's context. */
  datatype AccessoryProperties = AccessoryProperties(
    uuid: string,
    ip: string,
    apiVersion: string,
    apiUrl: string,
    serialNumber: string,
    productName: string,
    productType: string,
    displayName: string,
    firmwareVersion: string,
    activePower: Option<real>,
    config: Option<ConfigSchema.EnergySocketConfig>)

  /** A value a handler caught: an `Error` with its message, HomeKit's own
      status error, or anything that is not an `Error`. */
  datatype Thrown = ErrorInstance(message: string) | HapStatusError(status: HapStatus) | NonErrorValue

  /** One data sample of the poller: when it arrived and its
      `active_power_w` (absent when the device left it out or sent null). */
  datatype Sample = Sample(at: int, activePower: Option<real>)

  /** The part of the accessory the data handler drives: the OutletInUse
      characteristic and the two "crossed at" timestamps. */
  datatype Debounce = Debounce(outletInUse: bool, crossedAboveAt: Option<int>, crossedBelowAt: Option<int>)

  // ----- Getters (pure) -----

  function OutletInUse(config: Option<ConfigSchema.EnergySocketConfig>): Option<ConfigSchema.OutletInUseConfig> {
    if config.Some? then config.value.outletInUse else None
  }

  /** `config?.outletInUse?.isActive` read as a condition. */
  predicate IsOutletInUseActive(config: Option<ConfigSchema.EnergySocketConfig>) {
    var o := OutletInUse(config);
    o.Some? && o.value.isActive == Some(true)
  }

  /** JavaScript's `v || 0` on an optional number. */
  function OrZero(v: Option<real>): (r: real)
    ensures r == 0.0 <==> v.None? || v.value == 0.0
    ensures r != 0.0 ==> v == Some(r)
  {
    if Utils.Truthy(Utils.OptionalNumber(v)) then v.value else 0.0
  }

  /** The configured threshold in watts, 0 when it is missing. */
  function Threshold(config: Option<ConfigSchema.EnergySocketConfig>): real {
    var o := OutletInUse(config);
    OrZero(if o.Some? then o.value.threshold else None)
  }

  /** `thresholdDurationInMs`. */
  function ThresholdDurationInMs(config: Option<ConfigSchema.EnergySocketConfig>): (ms: real)
    ensures var o := OutletInUse(config);
      ms == (if o.Some? && o.value.thresholdDuration.Some? then o.value.thresholdDuration.value * 1000.0 else 0.0)
  {
    var o := OutletInUse(config);
    OrZero(if o.Some? then o.value.thresholdDuration else None) * 1000.0
  }

  /** A configuration that passed the schema waits between 0 and 24 hours. */
  lemma ValidConfigDurationBounds(config: ConfigSchema.EnergySocketConfig, isIPv4: string -> bool)
    requires ConfigSchema.ValidSocket(config, isIPv4)
    ensures 0.0 <= ThresholdDurationInMs(Some(config)) <= 86400000.0
    ensures IsOutletInUseActive(Some(config)) ==>
      0.0 < ThresholdDurationInMs(Some(config)) && 0.1 <= Threshold(Some(config)) <= 3680.0
  {
  }

  /** `getIsActivePowerAboveThreshold`: truthy and strictly above. */
  function IsActivePowerAboveThreshold(config: Option<ConfigSchema.EnergySocketConfig>, activePower: Option<real>)
    : (above: bool)
    ensures above <==> activePower.Some? && activePower.value != 0.0 && activePower.value > Threshold(config)
  {
    Utils.Truthy(Utils.OptionalNumber(activePower)) && activePower.value > Threshold(config)
  }

  /** A missing sample is never above the threshold, whatever the threshold. */
  lemma NilSampleIsNeverAbove(config: Option<ConfigSchema.EnergySocketConfig>, activePower: Option<real>)
    requires Utils.IsNil(Utils.OptionalNumber(activePower))
    ensures !IsActivePowerAboveThreshold(config, activePower)
  {
    Utils.IsNilOptionalNumber(activePower);
  }

  /** `initialIsOutletInUse`: always in use unless the feature is on. */
  function InitialIsOutletInUse(config: Option<ConfigSchema.EnergySocketConfig>, activePower: Option<real>): (r: bool)
    ensures !IsOutletInUseActive(config) ==> r
    ensures IsOutletInUseActive(config) ==> (r <==> IsActivePowerAboveThreshold(config, activePower))
  {
    if !IsOutletInUseActive(config) then true else IsActivePowerAboveThreshold(config, activePower)
  }

  /** `isThresholdCrossedAbove/BelowAfterDuration` for the timestamp
      `crossedAt`: None when the feature is off or nothing was crossed (a
      timestamp of 0 ms reads as "not crossed", as `getTime()` is falsy
      then); otherwise whether the duration has passed. */
  function IsThresholdCrossedAfterDuration(config: Option<ConfigSchema.EnergySocketConfig>, crossedAt: Option<int>, now: int)
    : (r: Option<bool>)
    ensures r.Some? <==> IsOutletInUseActive(config) && crossedAt.Some? && crossedAt.value != 0
    ensures r == Some(true) ==> (now - crossedAt.value) as real >= ThresholdDurationInMs(config)
    ensures r == Some(false) ==> (now - crossedAt.value) as real < ThresholdDurationInMs(config)
  {
    if !IsOutletInUseActive(config) then None
    else if crossedAt.None? || crossedAt.value == 0 then None
    else Some((now - crossedAt.value) as real >= ThresholdDurationInMs(config))
  }

  /** `isSwitchLockEnabled`. */
  predicate IsSwitchLockEnabled(localStateResponse: Option<StateResponse>) {
    localStateResponse.Some? && localStateResponse.value.switch_lock == true
  }

  function ModelName(properties: AccessoryProperties): (name: string)
    ensures |name| == |properties.productName| + |properties.productType| + 3
    ensures name[..|properties.productName|] == properties.productName
    ensures name[|properties.productName|..] == " (" + properties.productType + ")"
  {
    properties.productName + " (" + properties.productType + ")"
  }

  // ----- The data handler, as a function of the state -----

  /** The first half of the data handler: record when the sample's side was
      first seen. */
  function Arm(config: Option<ConfigSchema.EnergySocketConfig>, d: Debounce, activePower: Option<real>, now: int): Debounce {
    var above := IsActivePowerAboveThreshold(config, activePower);
    var d1 := if above && d.crossedAboveAt.None? then d.(crossedAboveAt := Some(now), crossedBelowAt := None) else d;
    if !above && d1.crossedBelowAt.None? then d1.(crossedBelowAt := Some(now), crossedAboveAt := None) else d1
  }

  /** The second half: flip OutletInUse once the recorded side has been held
      long enough; each flip clears both timestamps. */
  function Settle(config: Option<ConfigSchema.EnergySocketConfig>, d: Debounce, now: int): Debounce {
    var d1 :=
      if IsThresholdCrossedAfterDuration(config, d.crossedAboveAt, now) == Some(true) && !d.outletInUse
      then Debounce(true, None, None) else d;
    if IsThresholdCrossedAfterDuration(config, d1.crossedBelowAt, now) == Some(true) && d1.outletInUse
    then Debounce(false, None, None) else d1
  }

  /** The effect of one data response. */
  function Observe(config: Option<ConfigSchema.EnergySocketConfig>, d: Debounce, activePower: Option<real>, now: int): Debounce {
    Settle(config, Arm(config, d, activePower, now), now)
  }

  predicate AtMostOneTimer(d: Debounce) {
    d.crossedAboveAt.None? || d.crossedBelowAt.None?
  }

  /** An above sample starts the "above" clock only if it is not running,
      and stops the "below" clock when it starts it; a below sample mirrors
      this. */
  lemma ArmRecordsFirstCrossing(config: Option<ConfigSchema.EnergySocketConfig>, d: Debounce, activePower: Option<real>, now: int)
    ensures var a := Arm(config, d, activePower, now);
      a.outletInUse == d.outletInUse
      && (IsActivePowerAboveThreshold(config, activePower) ==>
            a.crossedAboveAt == (if d.crossedAboveAt.None? then Some(now) else d.crossedAboveAt)
            && a.crossedBelowAt == (if d.crossedAboveAt.None? then None else d.crossedBelowAt))
      && (!IsActivePowerAboveThreshold(config, activePower) ==>
            a.crossedBelowAt == (if d.crossedBelowAt.None? then Some(now) else d.crossedBelowAt)
            && a.crossedAboveAt == (if d.crossedBelowAt.None? then None else d.crossedAboveAt))
  {
  }

  /** From a state with at most one clock running, a sample leaves exactly
      the clock of its own side running. */
  lemma ArmLeavesOwnSideTimer(config: Option<ConfigSchema.EnergySocketConfig>, d: Debounce, activePower: Option<real>, now: int)
    requires AtMostOneTimer(d)
    ensures var a := Arm(config, d, activePower, now);
      if IsActivePowerAboveThreshold(config, activePower)
      then a.crossedAboveAt.Some? && a.crossedBelowAt.None?
      else a.crossedBelowAt.Some? && a.crossedAboveAt.None?
  {
  }

  /** The data handler keeps at most one clock running. */
  lemma ObserveKeepsAtMostOneTimer(config: Option<ConfigSchema.EnergySocketConfig>, d: Debounce, activePower: Option<real>, now: int)
    requires AtMostOneTimer(d)
    ensures AtMostOneTimer(Observe(config, d, activePower, now))
  {
    ArmLeavesOwnSideTimer(config, d, activePower, now);
  }

  /** OutletInUse changes exactly when the clock of the opposite state has
      run for the configured duration; a change clears both clocks, so one
      sample changes it at most once. */
  lemma ObserveTransitions(config: Option<ConfigSchema.EnergySocketConfig>, d: Debounce, activePower: Option<real>, now: int)
    requires AtMostOneTimer(d)
    ensures var a := Arm(config, d, activePower, now);
      var r := Observe(config, d, activePower, now);
      && (!d.outletInUse && r.outletInUse <==>
            !d.outletInUse && IsThresholdCrossedAfterDuration(config, a.crossedAboveAt, now) == Some(true))
      && (d.outletInUse && !r.outletInUse <==>
            d.outletInUse && IsThresholdCrossedAfterDuration(config, a.crossedBelowAt, now) == Some(true))
      && (r.outletInUse != d.outletInUse ==> r.crossedAboveAt.None? && r.crossedBelowAt.None?)
      && (r.outletInUse == d.outletInUse ==> r == a)
  {
    ArmLeavesOwnSideTimer(config, d, activePower, now);
  }

  /** With the feature off the data handler never changes OutletInUse. */
  lemma InactiveNeverFlips(config: Option<ConfigSchema.EnergySocketConfig>, d: Debounce, activePower: Option<real>, now: int)
    requires !IsOutletInUseActive(config)
    ensures Observe(config, d, activePower, now).outletInUse == d.outletInUse
  {
  }

  // ----- A run of the data handler over a sequence of samples -----

  function Run(config: Option<ConfigSchema.EnergySocketConfig>, d: Debounce, samples: seq<Sample>): Debounce
    decreases |samples|
  {
    if samples == [] then d
    else
      var n := |samples| - 1;
      Observe(config, Run(config, d, samples[..n]), samples[n].activePower, samples[n].at)
  }

  predicate AboveFrom(config: Option<ConfigSchema.EnergySocketConfig>, samples: seq<Sample>, j: int)
    requires 0 <= j <= |samples|
  {
    forall k :: j <= k < |samples| ==> IsActivePowerAboveThreshold(config, samples[k].activePower)
  }

  predicate BelowFrom(config: Option<ConfigSchema.EnergySocketConfig>, samples: seq<Sample>, j: int)
    requires 0 <= j <= |samples|
  {
    forall k :: j <= k < |samples| ==> !IsActivePowerAboveThreshold(config, samples[k].activePower)
  }

  /** A running clock was started by a sample from which on every sample
      has been on that clock's side. */
  predicate ClocksExplained(config: Option<ConfigSchema.EnergySocketConfig>, samples: seq<Sample>, d: Debounce) {
    && AtMostOneTimer(d)
    && (d.crossedAboveAt.Some? ==>
          exists j :: 0 <= j < |samples| && samples[j].at == d.crossedAboveAt.value && AboveFrom(config, samples, j))
    && (d.crossedBelowAt.Some? ==>
          exists j :: 0 <= j < |samples| && samples[j].at == d.crossedBelowAt.value && BelowFrom(config, samples, j))
  }

  lemma {:induction false} RunExplainsClocks(config: Option<ConfigSchema.EnergySocketConfig>, o: bool, samples: seq<Sample>)
    ensures ClocksExplained(config, samples, Run(config, Debounce(o, None, None), samples))
    ensures samples != [] ==> ClocksExplained(config, samples, Arm(config, Run(config, Debounce(o, None, None), samples[..|samples| - 1]),
                                                                   samples[|samples| - 1].activePower, samples[|samples| - 1].at))
    decreases |samples|
  {
    if samples != [] {
      var n := |samples| - 1;
      var prev := samples[..n];
      var d := Run(config, Debounce(o, None, None), prev);
      RunExplainsClocks(config, o, prev);
      var s := samples[n];
      var a := Arm(config, d, s.activePower, s.at);
      ArmRecordsFirstCrossing(config, d, s.activePower, s.at);
      ArmLeavesOwnSideTimer(config, d, s.activePower, s.at);
      if IsActivePowerAboveThreshold(config, s.activePower) {
        if d.crossedAboveAt.None? {
          assert samples[n].at == a.crossedAboveAt.value && AboveFrom(config, samples, n);
        } else {
          var j :| 0 <= j < |prev| && prev[j].at == d.crossedAboveAt.value && AboveFrom(config, prev, j);
          assert samples[j].at == a.crossedAboveAt.value;
          forall k | j <= k < |samples| ensures IsActivePowerAboveThreshold(config, samples[k].activePower) {
            if k < n { assert samples[k] == prev[k]; }
          }
        }
      } else {
        if d.crossedBelowAt.None? {
          assert samples[n].at == a.crossedBelowAt.value && BelowFrom(config, samples, n);
        } else {
          var j :| 0 <= j < |prev| && prev[j].at == d.crossedBelowAt.value && BelowFrom(config, prev, j);
          assert samples[j].at == a.crossedBelowAt.value;
          forall k | j <= k < |samples| ensures !IsActivePowerAboveThreshold(config, samples[k].activePower) {
            if k < n { assert samples[k] == prev[k]; }
          }
        }
      }
      assert ClocksExplained(config, samples, a);
      ObserveTransitions(config, d, s.activePower, s.at);
    }
  }

  /** The debounce guarantee over any run: when a sample turns OutletInUse
      on, every sample since some earlier sample at least the configured
      duration before it was above the threshold (and off mirrors this with
      "below"). */
  lemma RunSwitchesOnlyAfterHeldDuration(config: Option<ConfigSchema.EnergySocketConfig>, o: bool, samples: seq<Sample>)
    requires samples != []
    ensures var n := |samples| - 1;
      var before := Run(config, Debounce(o, None, None), samples[..n]).outletInUse;
      var after := Run(config, Debounce(o, None, None), samples).outletInUse;
      && (!before && after ==>
            exists j :: 0 <= j <= n && AboveFrom(config, samples, j)
                        && (samples[n].at - samples[j].at) as real >= ThresholdDurationInMs(config))
      && (before && !after ==>
            exists j :: 0 <= j <= n && BelowFrom(config, samples, j)
                        && (samples[n].at - samples[j].at) as real >= ThresholdDurationInMs(config))
  {
    var n := |samples| - 1;
    var d := Run(config, Debounce(o, None, None), samples[..n]);
    var s := samples[n];
    var a := Arm(config, d, s.activePower, s.at);
    RunExplainsClocks(config, o, samples);
    RunExplainsClocks(config, o, samples[..n]);
    ObserveTransitions(config, d, s.activePower, s.at);
    if !d.outletInUse && Run(config, Debounce(o, None, None), samples).outletInUse {
      var j :| 0 <= j < |samples| && samples[j].at == a.crossedAboveAt.value && AboveFrom(config, samples, j);
      assert (samples[n].at - samples[j].at) as real >= ThresholdDurationInMs(config);
    }
    if d.outletInUse && !Run(config, Debounce(o, None, None), samples).outletInUse {
      var j :| 0 <= j < |samples| && samples[j].at == a.crossedBelowAt.value && BelowFrom(config, samples, j);
      assert (samples[n].at - samples[j].at) as real >= ThresholdDurationInMs(config);
    }
  }

  /** The worked example of the debounce: 5 W for 60 s; samples of 2, 6, 6
      and 6 W at 0, 1, 59 and 61 s after `t0`.  OutletInUse stays off through
      59 s (the "above" clock started at 1 s) and turns on at 61 s. */
  lemma DebounceScenario(t0: int)
    requires t0 >= 0
    ensures var config := Some(ConfigSchema.EnergySocketConfig("192.168.1.20", "Socket",
              Some(ConfigSchema.OutletInUseConfig(Some(true), Some(5.0), Some(60.0), None))));
      var samples := [Sample(t0, Some(2.0)), Sample(t0 + 1000, Some(6.0)),
                      Sample(t0 + 59000, Some(6.0)), Sample(t0 + 61000, Some(6.0))];
      && Run(config, Debounce(false, None, None), samples[..3]) == Debounce(false, Some(t0 + 1000), None)
      && Run(config, Debounce(false, None, None), samples) == Debounce(true, None, None)
  {
    var config := Some(ConfigSchema.EnergySocketConfig("192.168.1.20", "Socket",
      Some(ConfigSchema.OutletInUseConfig(Some(true), Some(5.0), Some(60.0), None))));
    var samples := [Sample(t0, Some(2.0)), Sample(t0 + 1000, Some(6.0)),
                    Sample(t0 + 59000, Some(6.0)), Sample(t0 + 61000, Some(6.0))];
    assert ThresholdDurationInMs(config) == 60000.0;
    assert samples[..1][..0] == [];
    assert samples[..2][..1] == samples[..1];
    assert samples[..3][..2] == samples[..2];
    var d0 := Debounce(false, None, None);
    var d1 := Run(config, d0, samples[..1]);
    assert samples[..1] == [Sample(t0, Some(2.0))] && Run(config, d0, []) == d0;
    assert d1 == Observe(config, d0, Some(2.0), t0);
    assert d1 == Debounce(false, None, Some(t0));
    var d2 := Run(config, d0, samples[..2]);
    assert d2 == Observe(config, d1, Some(6.0), t0 + 1000);
    assert d2 == Debounce(false, Some(t0 + 1000), None);
    var d3 := Run(config, d0, samples[..3]);
    assert d3 == Observe(config, d2, Some(6.0), t0 + 59000);
    assert d3 == Debounce(false, Some(t0 + 1000), None);
    assert Run(config, d0, samples) == Observe(config, d3, Some(6.0), t0 + 61000);
  }

  // ----- The polling error counter -----

  /** What one polling error does: whether it is logged, and the new count. */
  datatype ErrorStep = ErrorStep(logged: bool, count: nat)

  /** The error handler's rule: log the first error and the one after more
      than `interval` errors; the latter also restarts the count. */
  function PollErrorStep(count: nat, interval: nat): (s: ErrorStep)
    ensures count <= interval + 1 ==> s.count <= interval + 1
    ensures s.logged ==> s.count <= 1
    ensures !s.logged ==> s.count == count + 1
    ensures s.logged <==> count == 0 || count > interval
    ensures count > interval ==> s.count == 0
  {
    var isFirstError := count == 0;
    var isErrorCountAfterInterval := count > interval;
    ErrorStep(isErrorCountAfterInterval || isFirstError, if isErrorCountAfterInterval then 0 else count + 1)
  }

  /** The count after `n` consecutive errors, starting from 0. */
  function ErrorCountAfter(n: nat, interval: nat): (count: nat)
    ensures count <= interval + 1
  {
    if n == 0 then 0 else PollErrorStep(ErrorCountAfter(n - 1, interval), interval).count
  }

  /** After `m` full cycles and `r` more errors the count is `r`. */
  lemma {:induction false} ErrorCountAfterCycles(m: nat, r: nat, interval: nat)
    requires r < interval + 2
    ensures ErrorCountAfter((interval + 2) * m + r, interval) == r
    decreases m, r
  {
    var q := interval + 2;
    if r > 0 {
      ErrorCountAfterCycles(m, r - 1, interval);
    } else if m > 0 {
      assert q * m == q * (m - 1) + (q - 1) + 1;
      ErrorCountAfterCycles(m - 1, q - 1, interval);
    }
  }

  /** The count runs through 0, 1, …, interval + 1 and starts again. */
  lemma ErrorCountIsCyclic(n: nat, interval: nat)
    ensures ErrorCountAfter(n, interval) == n % (interval + 2)
  {
    var q := interval + 2;
    var m, r := n / q, n % q;
    DivMod(n, q);
    ErrorCountAfterCycles(m, r, interval);
  }

  /** Euclidean division of a natural number by a positive one. */
  lemma DivMod(n: nat, q: nat)
    requires q > 0
    ensures 0 <= n % q < q && n == q * (n / q) + n % q
  {
  }

  /** Error number `n` (counting from 0) of an unbroken run is logged exactly
      when it is at position 0 or `interval + 1` of its cycle. */
  lemma ErrorLoggedIff(n: nat, interval: nat)
    ensures PollErrorStep(ErrorCountAfter(n, interval), interval).logged
      <==> n % (interval + 2) == 0 || n % (interval + 2) == interval + 1
  {
    ErrorCountIsCyclic(n, interval);
  }

  /** As written, the log at the end of one cycle is followed at once by the
      log of the next cycle's first error, and then `interval` errors pass
      unlogged: logs come in pairs. */
  lemma ErrorLogsComeInPairs(m: nat, interval: nat)
    ensures var n := (interval + 2) * m + interval + 1;
      PollErrorStep(ErrorCountAfter(n, interval), interval).logged
      && PollErrorStep(ErrorCountAfter(n + 1, interval), interval).logged
      && (forall k :: n + 1 < k < n + interval + 2 ==> !PollErrorStep(ErrorCountAfter(k, interval), interval).logged)
  {
    var q := interval + 2;
    var n := q * m + interval + 1;
    ErrorCountAfterCycles(m, interval + 1, interval);
    assert n + 1 == q * (m + 1) + 0;
    ErrorCountAfterCycles(m + 1, 0, interval);
    forall k | n + 1 < k < n + interval + 2
      ensures !PollErrorStep(ErrorCountAfter(k, interval), interval).logged
    {
      assert k == q * (m + 1) + (k - n - 1);
      ErrorCountAfterCycles(m + 1, k - n - 1, interval);
    }
  }

  // ----- Errors thrown by the device library -----

  /** `handleAccessoryApiError`: the message to log (None: the message of a
      HomeKit status error, which is not part of the model) and the status
      HomeKit receives, which is always SERVICE_COMMUNICATION_FAILURE. */
  datatype ErrorReport = ErrorReport(message: Option<string>, status: HapStatus)

  function HandleAccessoryApiError(error: Thrown, fallbackErrorMessage: Option<string>): (r: ErrorReport)
    ensures r.status == SERVICE_COMMUNICATION_FAILURE
    ensures error.ErrorInstance? ==> r.message == Some(error.message)
    ensures error.NonErrorValue? && fallbackErrorMessage.Some? && fallbackErrorMessage.value != "" ==>
      r.message == fallbackErrorMessage
    ensures error.NonErrorValue? && (fallbackErrorMessage.None? || fallbackErrorMessage.value == "") ==>
      r.message == Some("A unknown error occurred")
  {
    var fallback :=
      if fallbackErrorMessage.Some? && Utils.Truthy(Utils.Str(fallbackErrorMessage.value))
      then fallbackErrorMessage.value else "A unknown error occurred";
    var message :=
      match error
      case ErrorInstance(m) => Some(m)
      case HapStatusError(_) => None
      case NonErrorValue => Some(fallback);
    ErrorReport(message, SERVICE_COMMUNICATION_FAILURE)
  }

  /** The guards of `longPollData`: it polls only an Energy Socket with the
      OutletInUse feature switched on. */
  predicate WillPollData(config: Option<ConfigSchema.EnergySocketConfig>, productType: string) {
    IsOutletInUseActive(config) && productType == WIFI_ENERGY_SOCKET
  }

  // ----- The accessory -----

  class EnergySocketAccessory {
    var properties: AccessoryProperties
    const config: Option<ConfigSchema.EnergySocketConfig>
    /** SHOW_POLLING_ERRORS_INTERVAL: its value is not part of the model. */
    const showPollingErrorsInterval: nat
    /** Whether `longPollData` started the poller and registered the
        response and error handlers. */
    const isPollingData: bool
    /** The OutletInUse characteristic of the Outlet service. */
    var outletInUse: bool
    var longPollErrorCount: nat
    var longPollCrossedThresholdAboveAt: Option<int>
    var longPollCrossedThresholdBelowAt: Option<int>
    var localStateResponse: Option<StateResponse>

    ghost predicate Valid()
      reads this
    {
      && properties.config == config
      && longPollErrorCount <= showPollingErrorsInterval + 1
      && AtMostOneTimer(State())
      && isPollingData == WillPollData(config, properties.productType)
      && (!isPollingData ==> longPollCrossedThresholdAboveAt.None? && longPollCrossedThresholdBelowAt.None?)
    }

    function State(): Debounce
      reads this
    {
      Debounce(outletInUse, longPollCrossedThresholdAboveAt, longPollCrossedThresholdBelowAt)
    }

    /** The constructor, ending with `longPollData`.  `cachedOutletInUse` is
        the value the OutletInUse characteristic already holds; it is only
        overwritten when the feature is off. */
    constructor(properties: AccessoryProperties, cachedOutletInUse: bool, showPollingErrorsInterval: nat)
      ensures Valid()
      ensures this.properties == properties && config == properties.config
      ensures this.showPollingErrorsInterval == showPollingErrorsInterval
      ensures outletInUse == (if IsOutletInUseActive(properties.config) then cachedOutletInUse else true)
      ensures State().crossedAboveAt.None? && State().crossedBelowAt.None?
      ensures longPollErrorCount == 0 && localStateResponse.None?
      ensures !IsSwitchLockEnabled(localStateResponse)
      ensures isPollingData == WillPollData(properties.config, properties.productType)
    {
      this.properties := properties;
      config := properties.config;
      this.showPollingErrorsInterval := showPollingErrorsInterval;
      longPollErrorCount := 0;
      longPollCrossedThresholdAboveAt := None;
      longPollCrossedThresholdBelowAt := None;
      localStateResponse := None;
      outletInUse := cachedOutletInUse;
      if !IsOutletInUseActive(properties.config) {
        outletInUse := InitialIsOutletInUse(properties.config, properties.activePower);
      }
      isPollingData := WillPollData(properties.config, properties.productType);
    }

    /** `setOutletInUse`: set the characteristic and stop both clocks. */
    method SetOutletInUse(value: bool)
      requires Valid()
      modifies this`outletInUse, this`longPollCrossedThresholdAboveAt, this`longPollCrossedThresholdBelowAt
      ensures Valid()
      ensures State() == Debounce(value, None, None)
    {
      outletInUse := value;
      longPollCrossedThresholdAboveAt := None;
      longPollCrossedThresholdBelowAt := None;
    }

    /** `syncOutletInUseStateWithOnState`: follow the On state unless the
        feature drives OutletInUse. */
    method SyncOutletInUseStateWithOnState(isOn: bool)
      requires Valid()
      modifies this`outletInUse
      ensures Valid()
      ensures outletInUse == if IsOutletInUseActive(config) then old(outletInUse) else isOn
    {
      if !IsOutletInUseActive(config) {
        outletInUse := isOn;
      }
    }

    /** The poller's response handler. */
    method OnDataResponse(activePower: Option<real>, now: int)
      requires Valid() && isPollingData
      modifies this
      ensures Valid()
      ensures State() == Observe(config, old(State()), activePower, now)
      ensures properties == if activePower.None? then old(properties) else old(properties).(activePower := activePower)
      ensures longPollErrorCount == 0
      ensures localStateResponse == old(localStateResponse)
    {
      ghost var d := State();
      if !Utils.IsNil(Utils.OptionalNumber(activePower)) {
        properties := properties.(activePower := activePower);
      }
      var isActivePowerAboveThreshold := IsActivePowerAboveThreshold(config, activePower);
      if isActivePowerAboveThreshold && longPollCrossedThresholdAboveAt.None? {
        longPollCrossedThresholdAboveAt := Some(now);
        longPollCrossedThresholdBelowAt := None;
      }
      if !isActivePowerAboveThreshold && longPollCrossedThresholdBelowAt.None? {
        longPollCrossedThresholdBelowAt := Some(now);
        longPollCrossedThresholdAboveAt := None;
      }
      assert State() == Arm(config, d, activePower, now);
      if IsThresholdCrossedAfterDuration(config, longPollCrossedThresholdAboveAt, now) == Some(true) && !outletInUse {
        SetOutletInUse(true);
      }
      if IsThresholdCrossedAfterDuration(config, longPollCrossedThresholdBelowAt, now) == Some(true) && outletInUse {
        SetOutletInUse(false);
      }
      longPollErrorCount := 0;
    }

    /** The poller's error handler: whether it logs, and what. */
    method OnDataError(error: Thrown) returns (logged: bool, message: Option<string>)
      requires Valid() && isPollingData
      modifies this`longPollErrorCount
      ensures Valid()
      ensures ErrorStep(logged, longPollErrorCount) == PollErrorStep(old(longPollErrorCount), showPollingErrorsInterval)
      ensures message == if error.ErrorInstance? then Some(error.message)
                         else if error.HapStatusError? then None
                         else Some("A unknown error happened while polling the /data endpoint.")
    {
      message := Some("A unknown error happened while polling the /data endpoint.");
      if error.ErrorInstance? {
        message := Some(error.message);
      } else if error.HapStatusError? {
        message := None;
      }
      var isFirstError := longPollErrorCount == 0;
      var isErrorCountAfterInterval := longPollErrorCount > showPollingErrorsInterval;
      logged := isErrorCountAfterInterval || isFirstError;
      if isErrorCountAfterInterval {
        longPollErrorCount := 0;
      } else {
        longPollErrorCount := longPollErrorCount + 1;
      }
    }

    /** `handleIdentify`: the library's answer, or the mapped error. */
    method HandleIdentify(reply: Result<IdentifyResponse, Thrown>) returns (result: Result<IdentifyResponse, HapStatus>)
      ensures result.Success? <==> reply.Success?
      ensures reply.Success? ==> result.value == reply.value
      ensures result.Failure? ==> result.error == SERVICE_COMMUNICATION_FAILURE
    {
      if reply.Success? {
        result := Success(reply.value);
      } else {
        var report := HandleAccessoryApiError(reply.error, Some("A unknown error occurred while identifying the Energy Socket"));
        result := Failure(report.status);
      }
    }

    /** `handleSetOn`.  `sent` is the `power_on` written to the device, None
        when nothing was written; `reply` is the library's answer to it. */
    method HandleSetOn(value: bool, reply: Result<StateResponse, Thrown>)
      returns (sent: Option<bool>, result: Result<(), HapStatus>)
      requires Valid()
      modifies this`outletInUse
      ensures Valid()
      ensures sent == if IsSwitchLockEnabled(localStateResponse) then None else Some(value)
      ensures result.Success? <==> sent.Some? && reply.Success?
      ensures result.Failure? ==> result.error == SERVICE_COMMUNICATION_FAILURE
      ensures outletInUse == if result.Success? && !IsOutletInUseActive(config) then reply.value.power_on else old(outletInUse)
    {
      var thrown: Option<Thrown> := None;
      sent := None;
      if IsSwitchLockEnabled(localStateResponse) {
        thrown := Some(HapStatusError(NOT_ALLOWED_IN_CURRENT_STATE));
      } else {
        sent := Some(value);
        if reply.Success? {
          SyncOutletInUseStateWithOnState(reply.value.power_on);
        } else {
          thrown := Some(reply.error);
        }
      }
      if thrown.Some? {
        var report := HandleAccessoryApiError(thrown.value, Some("A unknown error occurred while setting the ON state"));
        result := Failure(report.status);
      } else {
        result := Success(());
      }
    }

    /** `handleGetOn`: remember the state (and with it the switch lock) and
        answer with `power_on`. */
    method HandleGetOn(reply: Result<StateResponse, Thrown>) returns (result: Result<bool, HapStatus>)
      requires Valid()
      modifies this`localStateResponse, this`outletInUse
      ensures Valid()
      ensures result.Success? <==> reply.Success?
      ensures reply.Success? ==>
        && result.value == reply.value.power_on
        && localStateResponse == Some(reply.value)
        && IsSwitchLockEnabled(localStateResponse) == reply.value.switch_lock
        && outletInUse == (if IsOutletInUseActive(config) then old(outletInUse) else reply.value.power_on)
      ensures reply.Failure? ==>
        && result == Failure(SERVICE_COMMUNICATION_FAILURE)
        && localStateResponse == old(localStateResponse)
        && outletInUse == old(outletInUse)
    {
      if reply.Success? {
        localStateResponse := Some(reply.value);
        SyncOutletInUseStateWithOnState(reply.value.power_on);
        result := Success(reply.value.power_on);
      } else {
        var report := HandleAccessoryApiError(reply.error, Some("A unknown error occurred while getting the ON state"));
        result := Failure(report.status);
      }
    }
  }

  /** A locked socket: after a state with `switch_lock` set has been read, a
      write sends nothing and HomeKit sees a communication failure; before
      any read, the same write goes through. */
  method SwitchLockScenario(properties: AccessoryProperties, reply: Result<StateResponse, Thrown>)
    returns (before: Option<bool>, after: Option<bool>, result: Result<(), HapStatus>)
    ensures before == Some(true)
    ensures after.None? && result == Failure(SERVICE_COMMUNICATION_FAILURE)
  {
    var socket := new EnergySocketAccessory(properties, false, 0);
    var first;
    before, first := socket.HandleSetOn(true, reply);
    var got := socket.HandleGetOn(Success(StateResponse(true, true, 255)));
    after, result := socket.HandleSetOn(true, reply);
  }
}
