/** The plugin's configuration schema (a zod object schema): the bounds and
    defaults it exports, the issues a parse reports, and the conditional
    requirement that an active OutletInUse block names a threshold and a
    duration.

    The parse follows zod's rules: fields are visited in the order the
    schema declares them and each contributes its issues; a wrong type
    aborts that part of the value, while a failed bound only marks it dirty
    and keeps the value; a refinement runs on a dirty value but not on an
    aborted one; keys the schema does not name are dropped. */
module ConfigSchema {
  import opened Wrappers
  import opened JsText

  const DEFAULT_OUTLETINUSE_ISACTIVE := false
  const DEFAULT_OUTLETINUSE_THRESHOLD := 5.0
  const DEFAULT_OUTLETINUSE_THRESHOLD_MIN := 0.1
  const DEFAULT_OUTLETINUSE_THRESHOLD_MAX := 3680.0
  const DEFAULT_OUTLETINUSE_THRESHOLD_DURATION := 10.0
  const DEFAULT_OUTLETINUSE_THRESHOLD_DURATION_MIN := 0.0
  const DEFAULT_OUTLETINUSE_THRESHOLD_DURATION_MAX := 86400.0

  const THRESHOLD_REQUIRED := "A threshold is required when outletInUse.isActive is true"
  const THRESHOLD_DURATION_REQUIRED := "A thresholdDuration is required when outletInUse.isActive is true"

  /** A configuration value as read from JSON; a key that is absent from an
      object is `undefined`. */
  datatype Json =
    | JNull
    | JBool(b: bool)
    | JNum(n: real)
    | JStr(s: string)
    | JArr(items: seq<Json>)
    | JObj(fields: map<string, Json>)

  datatype PathItem = Key(key: string) | Index(index: nat)

  datatype IssueCode = InvalidType | TooSmall | TooBig | Custom

  datatype Issue = Issue(code: IssueCode, path: seq<PathItem>, message: string)

  /** The outcome of parsing one part of the input: its issues, and its value
      unless the parse of that part was aborted. */
  datatype Parsed<T> = Parsed(issues: seq<Issue>, value: Option<T>)

  datatype OutletInUseConfig = OutletInUseConfig(
    isActive: Option<bool>,
    threshold: Option<real>,
    thresholdDuration: Option<real>,
    verboseLogging: Option<bool>)

  datatype EnergySocketConfig = EnergySocketConfig(ip: string, name: string, outletInUse: Option<OutletInUseConfig>)

  datatype Config = Config(name: string, energySockets: Option<seq<EnergySocketConfig>>)

  /** The type name zod reports for a value it did not expect. */
  function TypeName(j: Json): string {
    match j
    case JNull => "null"
    case JBool(_) => "boolean"
    case JNum(_) => "number"
    case JStr(_) => "string"
    case JArr(_) => "array"
    case JObj(_) => "object"
  }

  function Field(fields: map<string, Json>, key: string): (v: Option<Json>)
    ensures v.Some? <==> key in fields
  {
    if key in fields then Some(fields[key]) else None
  }

  /** An `invalid_type` issue: a missing value reports the schema's
      `required_error` (or "Required"), a value of the wrong type its
      `invalid_type_error` (or zod's "Expected …, received …"). */
  function TypeIssue(path: seq<PathItem>, expected: string, received: Option<Json>,
                     requiredError: Option<string>, invalidTypeError: Option<string>): (i: Issue)
    ensures i.code == InvalidType && i.path == path
    ensures received.None? ==> i.message == requiredError.GetOr("Required")
    ensures received.Some? && invalidTypeError.Some? ==> i.message == invalidTypeError.value
  {
    var message :=
      if received.None? then requiredError.GetOr("Required")
      else invalidTypeError.GetOr("Expected " + expected + ", received " + TypeName(received.value));
    Issue(InvalidType, path, message)
  }

  function ParseString(path: seq<PathItem>, v: Option<Json>, requiredError: Option<string>,
                       invalidTypeError: Option<string>): (p: Parsed<string>)
    ensures p.value.Some? <==> v.Some? && v.value.JStr?
    ensures p.value.Some? ==> p.issues == [] && p.value.value == v.value.s
    ensures p.value.None? ==> p.issues == [TypeIssue(path, "string", v, requiredError, invalidTypeError)]
  {
    if v.Some? && v.value.JStr? then Parsed([], Some(v.value.s))
    else Parsed([TypeIssue(path, "string", v, requiredError, invalidTypeError)], None)
  }

  /** An optional boolean: absent is fine, anything but a boolean is not. */
  function OptionalBoolean(path: seq<PathItem>, v: Option<Json>, invalidTypeError: string): (p: Parsed<Option<bool>>)
    ensures p.value.Some? <==> v.None? || v.value.JBool?
    ensures p.value.Some? ==> p.issues == [] && p.value.value == (if v.None? then None else Some(v.value.b))
    ensures p.value.None? ==> p.issues == [Issue(InvalidType, path, invalidTypeError)]
  {
    if v.None? then Parsed([], Some(None))
    else if v.value.JBool? then Parsed([], Some(Some(v.value.b)))
    else Parsed([TypeIssue(path, "boolean", v, None, Some(invalidTypeError))], None)
  }

  /** The two checks of `.min(lo).max(hi)`; failing them keeps the value. */
  function BoundIssues(path: seq<PathItem>, n: real, lo: real, hi: real): (issues: seq<Issue>)
    ensures issues == [] <==> lo <= n <= hi
    ensures forall k :: 0 <= k < |issues| ==> issues[k].path == path && issues[k].code in {TooSmall, TooBig}
  {
    (if n < lo then [Issue(TooSmall, path, "Number must be greater than or equal to " + NumberText(lo))] else [])
    + (if n > hi then [Issue(TooBig, path, "Number must be less than or equal to " + NumberText(hi))] else [])
  }

  /** An optional bounded number. */
  function OptionalNumber(path: seq<PathItem>, v: Option<Json>, invalidTypeError: string, lo: real, hi: real)
    : (p: Parsed<Option<real>>)
    ensures p.value.Some? <==> v.None? || v.value.JNum?
    ensures p.value.Some? ==> p.value.value == (if v.None? then None else Some(v.value.n))
    ensures p.value.Some? ==> (p.issues == [] <==> v.None? || lo <= v.value.n <= hi)
    ensures p.value.None? ==> p.issues == [Issue(InvalidType, path, invalidTypeError)]
  {
    if v.None? then Parsed([], Some(None))
    else if v.value.JNum? then Parsed(BoundIssues(path, v.value.n, lo, hi), Some(Some(v.value.n)))
    else Parsed([TypeIssue(path, "number", v, None, Some(invalidTypeError))], None)
  }

  /** The inner object of `outletInUse`, before its refinement. */
  function ParseOutletObject(path: seq<PathItem>, j: Json): (p: Parsed<OutletInUseConfig>)
    ensures p.value.None? ==> p.issues != []
  {
    if !j.JObj? then Parsed([TypeIssue(path, "object", Some(j), None, None)], None)
    else
      var a := OptionalBoolean(path + [Key("isActive")], Field(j.fields, "isActive"), "'isActive' must be a boolean");
      var t := OptionalNumber(path + [Key("threshold")], Field(j.fields, "threshold"), "'threshold' must be a number",
                              DEFAULT_OUTLETINUSE_THRESHOLD_MIN, DEFAULT_OUTLETINUSE_THRESHOLD_MAX);
      var d := OptionalNumber(path + [Key("thresholdDuration")], Field(j.fields, "thresholdDuration"),
                              "'thresholdDuration' must be a number",
                              DEFAULT_OUTLETINUSE_THRESHOLD_DURATION_MIN, DEFAULT_OUTLETINUSE_THRESHOLD_DURATION_MAX);
      var v := OptionalBoolean(path + [Key("verboseLogging")], Field(j.fields, "verboseLogging"),
                               "'verboseLogging' must be a boolean");
      var value :=
        if a.value.Some? && t.value.Some? && d.value.Some? && v.value.Some?
        then Some(OutletInUseConfig(a.value.value, t.value.value, d.value.value, v.value.value))
        else None;
      Parsed(a.issues + t.issues + d.issues + v.issues, value)
  }

  /** The `superRefine`: an active block needs a truthy threshold and a
      truthy duration. */
  function RefineIssues(path: seq<PathItem>, o: Option<OutletInUseConfig>): (issues: seq<Issue>)
    ensures forall k :: 0 <= k < |issues| ==> issues[k].code == Custom
    ensures (Issue(Custom, path + [Key("threshold")], THRESHOLD_REQUIRED) in issues) <==>
      o.Some? && o.value.isActive == Some(true) && (o.value.threshold.None? || o.value.threshold == Some(0.0))
    ensures (Issue(Custom, path + [Key("thresholdDuration")], THRESHOLD_DURATION_REQUIRED) in issues) <==>
      o.Some? && o.value.isActive == Some(true)
      && (o.value.thresholdDuration.None? || o.value.thresholdDuration == Some(0.0))
    ensures o.None? || o.value.isActive != Some(true) ==> issues == []
  {
    if o.Some? && o.value.isActive == Some(true) then
      (if o.value.threshold.None? || o.value.threshold == Some(0.0)
       then [Issue(Custom, path + [Key("threshold")], THRESHOLD_REQUIRED)] else [])
      + (if o.value.thresholdDuration.None? || o.value.thresholdDuration == Some(0.0)
         then [Issue(Custom, path + [Key("thresholdDuration")], THRESHOLD_DURATION_REQUIRED)] else [])
    else []
  }

  /** `outletInUse`: optional, then refined unless the object parse was
      aborted. */
  function ParseOutletInUse(path: seq<PathItem>, v: Option<Json>): (p: Parsed<Option<OutletInUseConfig>>)
    ensures p.value.None? ==> p.issues != []
    ensures v.None? ==> p == Parsed([], Some(None))
  {
    if v.None? then Parsed([], Some(None))
    else
      var inner := ParseOutletObject(path, v.value);
      if inner.value.None? then Parsed(inner.issues, None)
      else Parsed(inner.issues + RefineIssues(path, Some(inner.value.value)), Some(Some(inner.value.value)))
  }

  /** `ip`: a string, then the IPv4 check (an outside validator, passed in). */
  function ParseIp(path: seq<PathItem>, v: Option<Json>, isIPv4: string -> bool): (p: Parsed<string>)
    ensures p.value.Some? <==> v.Some? && v.value.JStr?
    ensures p.value.Some? ==> p.value.value == v.value.s && (p.issues == [] <==> isIPv4(v.value.s))
    ensures p.value.None? ==> p.issues != []
  {
    var s := ParseString(path, v, Some("IP address is required for each Energy Socket"), Some("'ip' must be a string"));
    if s.value.None? || isIPv4(s.value.value) then s
    else Parsed([Issue(Custom, path, "'" + s.value.value + "' is not a valid IPv4 address")], s.value)
  }

  function ParseSocket(path: seq<PathItem>, j: Json, isIPv4: string -> bool): (p: Parsed<EnergySocketConfig>)
    ensures p.value.None? ==> p.issues != []
  {
    if !j.JObj? then Parsed([TypeIssue(path, "object", Some(j), None, None)], None)
    else
      var ip := ParseIp(path + [Key("ip")], Field(j.fields, "ip"), isIPv4);
      var name := ParseString(path + [Key("name")], Field(j.fields, "name"),
                              Some("Name is required for each Energy Socket"), Some("'name' must be a string"));
      var outlet := ParseOutletInUse(path + [Key("outletInUse")], Field(j.fields, "outletInUse"));
      var value :=
        if ip.value.Some? && name.value.Some? && outlet.value.Some?
        then Some(EnergySocketConfig(ip.value.value, name.value.value, outlet.value.value))
        else None;
      Parsed(ip.issues + name.issues + outlet.issues, value)
  }

  /** The array's items, each under its own index. */
  function ParseItems(path: seq<PathItem>, items: seq<Json>, isIPv4: string -> bool): (p: Parsed<seq<EnergySocketConfig>>)
    ensures p.value.None? ==> p.issues != []
    ensures p.value.Some? ==> |p.value.value| == |items|
  {
    if items == [] then Parsed([], Some([]))
    else
      var n := |items| - 1;
      var init := ParseItems(path, items[..n], isIPv4);
      var last := ParseSocket(path + [Index(n)], items[n], isIPv4);
      var value := if init.value.Some? && last.value.Some? then Some(init.value.value + [last.value.value]) else None;
      Parsed(init.issues + last.issues, value)
  }

  function ParseEnergySockets(path: seq<PathItem>, v: Option<Json>, isIPv4: string -> bool)
    : (p: Parsed<Option<seq<EnergySocketConfig>>>)
    ensures p.value.None? ==> p.issues != []
  {
    if v.None? then Parsed([], Some(None))
    else if !v.value.JArr? then Parsed([TypeIssue(path, "array", v, None, None)], None)
    else
      var items := ParseItems(path, v.value.items, isIPv4);
      Parsed(items.issues, if items.value.Some? then Some(Some(items.value.value)) else None)
  }

  function ParseConfig(j: Json, isIPv4: string -> bool): (p: Parsed<Config>)
    ensures p.value.None? ==> p.issues != []
  {
    if !j.JObj? then Parsed([TypeIssue([], "object", Some(j), None, None)], None)
    else
      var name := ParseString([Key("name")], Field(j.fields, "name"), Some("A bridge name is required"), None);
      var sockets := ParseEnergySockets([Key("energySockets")], Field(j.fields, "energySockets"), isIPv4);
      var value :=
        if name.value.Some? && sockets.value.Some? then Some(Config(name.value.value, sockets.value.value)) else None;
      Parsed(name.issues + sockets.issues, value)
  }

  /** `configSchema.safeParse`: success exactly when no issue was raised. */
  function SafeParse(j: Json, isIPv4: string -> bool): (r: Result<Config, seq<Issue>>)
    ensures r.Success? <==> ParseConfig(j, isIPv4).issues == []
    ensures r.Failure? ==> r.error != []
  {
    var p := ParseConfig(j, isIPv4);
    if p.issues == [] then Success(p.value.value) else Failure(p.issues)
  }

  // ----- What a configuration that passes looks like -----

  predicate ValidOutletInUse(o: OutletInUseConfig) {
    && (o.threshold.Some? ==>
          DEFAULT_OUTLETINUSE_THRESHOLD_MIN <= o.threshold.value <= DEFAULT_OUTLETINUSE_THRESHOLD_MAX)
    && (o.thresholdDuration.Some? ==>
          DEFAULT_OUTLETINUSE_THRESHOLD_DURATION_MIN <= o.thresholdDuration.value <= DEFAULT_OUTLETINUSE_THRESHOLD_DURATION_MAX)
    && (o.isActive == Some(true) ==>
          o.threshold.Some? && o.threshold.value != 0.0
          && o.thresholdDuration.Some? && o.thresholdDuration.value != 0.0)
  }

  predicate ValidSocket(s: EnergySocketConfig, isIPv4: string -> bool) {
    isIPv4(s.ip) && (s.outletInUse.Some? ==> ValidOutletInUse(s.outletInUse.value))
  }

  predicate ValidSockets(sockets: seq<EnergySocketConfig>, isIPv4: string -> bool) {
    forall k :: 0 <= k < |sockets| ==> ValidSocket(sockets[k], isIPv4)
  }

  predicate ValidConfig(c: Config, isIPv4: string -> bool) {
    c.energySockets.Some? ==> ValidSockets(c.energySockets.value, isIPv4)
  }

  // ----- The typed configuration written back as JSON -----

  function OptionalEntry(m: map<string, Json>, key: string, v: Option<Json>): map<string, Json> {
    if v.Some? then m[key := v.value] else m
  }

  function OutletInUseJson(o: OutletInUseConfig): (j: Json)
    ensures j.JObj?
  {
    var m1 := OptionalEntry(map[], "isActive", if o.isActive.Some? then Some(JBool(o.isActive.value)) else None);
    var m2 := OptionalEntry(m1, "threshold", if o.threshold.Some? then Some(JNum(o.threshold.value)) else None);
    var m3 := OptionalEntry(m2, "thresholdDuration",
                            if o.thresholdDuration.Some? then Some(JNum(o.thresholdDuration.value)) else None);
    JObj(OptionalEntry(m3, "verboseLogging", if o.verboseLogging.Some? then Some(JBool(o.verboseLogging.value)) else None))
  }

  function SocketJson(s: EnergySocketConfig): (j: Json)
    ensures j.JObj?
  {
    var m := map["ip" := JStr(s.ip), "name" := JStr(s.name)];
    JObj(if s.outletInUse.Some? then m["outletInUse" := OutletInUseJson(s.outletInUse.value)] else m)
  }

  function SocketsJson(sockets: seq<EnergySocketConfig>): (items: seq<Json>)
    ensures |items| == |sockets|
    ensures forall k :: 0 <= k < |sockets| ==> items[k] == SocketJson(sockets[k])
  {
    seq(|sockets|, k requires 0 <= k < |sockets| => SocketJson(sockets[k]))
  }

  function ConfigJson(c: Config): (j: Json) {
    var m := map["name" := JStr(c.name)];
    JObj(if c.energySockets.Some? then m["energySockets" := JArr(SocketsJson(c.energySockets.value))] else m)
  }

  // ----- Lemmas -----

  lemma OutletInUseJsonFields(o: OutletInUseConfig)
    ensures var f := OutletInUseJson(o).fields;
      && Field(f, "isActive") == (if o.isActive.Some? then Some(JBool(o.isActive.value)) else None)
      && Field(f, "threshold") == (if o.threshold.Some? then Some(JNum(o.threshold.value)) else None)
      && Field(f, "thresholdDuration") == (if o.thresholdDuration.Some? then Some(JNum(o.thresholdDuration.value)) else None)
      && Field(f, "verboseLogging") == (if o.verboseLogging.Some? then Some(JBool(o.verboseLogging.value)) else None)
  {
  }

  /** An OutletInUse block written as JSON parses back to itself, cleanly
      exactly when it is valid. */
  lemma OutletInUseRoundTrip(path: seq<PathItem>, o: OutletInUseConfig)
    ensures ParseOutletInUse(path, Some(OutletInUseJson(o))).value == Some(Some(o))
    ensures ParseOutletInUse(path, Some(OutletInUseJson(o))).issues == [] <==> ValidOutletInUse(o)
  {
    OutletInUseJsonFields(o);
    var p := ParseOutletObject(path, OutletInUseJson(o));
    assert p.value == Some(o);
    var refine := RefineIssues(path, Some(o));
    if o.isActive == Some(true) && (o.threshold.None? || o.threshold == Some(0.0)) {
      assert Issue(Custom, path + [Key("threshold")], THRESHOLD_REQUIRED) in refine;
    }
    if o.isActive == Some(true) && (o.thresholdDuration.None? || o.thresholdDuration == Some(0.0)) {
      assert Issue(Custom, path + [Key("thresholdDuration")], THRESHOLD_DURATION_REQUIRED) in refine;
    }
  }

  /** Whatever the input, a block that parses without issues is valid: its
      present numbers lie within their bounds, and when it is active both the
      threshold and the duration are present and non-zero. */
  lemma CleanOutletInUseIsValid(path: seq<PathItem>, v: Option<Json>)
    requires ParseOutletInUse(path, v).issues == []
    ensures ParseOutletInUse(path, v).value.Some?
    ensures var o := ParseOutletInUse(path, v).value.value; o.Some? ==> ValidOutletInUse(o.value)
  {
    if v.Some? {
      var p := ParseOutletObject(path, v.value);
      var o := p.value.value;
      var refine := RefineIssues(path, Some(o));
      assert p.issues == [] && refine == [];
      var f := v.value.fields;
      var t := OptionalNumber(path + [Key("threshold")], Field(f, "threshold"), "'threshold' must be a number",
                              DEFAULT_OUTLETINUSE_THRESHOLD_MIN, DEFAULT_OUTLETINUSE_THRESHOLD_MAX);
      var d := OptionalNumber(path + [Key("thresholdDuration")], Field(f, "thresholdDuration"),
                              "'thresholdDuration' must be a number",
                              DEFAULT_OUTLETINUSE_THRESHOLD_DURATION_MIN, DEFAULT_OUTLETINUSE_THRESHOLD_DURATION_MAX);
      assert t.issues == [] && d.issues == [];
      if o.isActive == Some(true) {
        assert Issue(Custom, path + [Key("threshold")], THRESHOLD_REQUIRED) !in refine;
        assert Issue(Custom, path + [Key("thresholdDuration")], THRESHOLD_DURATION_REQUIRED) !in refine;
      }
    }
  }

  /** Threshold 0 on an active block draws two issues on the same field: the
      lower bound, and the refinement (which still runs on the dirty value). */
  lemma ZeroThresholdTwoIssues(path: seq<PathItem>)
    ensures ParseOutletInUse(path, Some(JObj(map["isActive" := JBool(true), "threshold" := JNum(0.0),
                                                 "thresholdDuration" := JNum(10.0)]))).issues
      == [Issue(TooSmall, path + [Key("threshold")],
                "Number must be greater than or equal to " + NumberText(DEFAULT_OUTLETINUSE_THRESHOLD_MIN)),
          Issue(Custom, path + [Key("threshold")], THRESHOLD_REQUIRED)]
  {
    var f := map["isActive" := JBool(true), "threshold" := JNum(0.0), "thresholdDuration" := JNum(10.0)];
    assert Field(f, "isActive") == Some(JBool(true));
    assert Field(f, "threshold") == Some(JNum(0.0));
    assert Field(f, "thresholdDuration") == Some(JNum(10.0));
    assert Field(f, "verboseLogging") == None;
  }

  /** Duration 0 passes its own bound of 0 but not the refinement. */
  lemma ZeroDurationRejectedWhenActive(path: seq<PathItem>)
    ensures ParseOutletInUse(path, Some(JObj(map["isActive" := JBool(true), "threshold" := JNum(5.0),
                                                 "thresholdDuration" := JNum(0.0)]))).issues
      == [Issue(Custom, path + [Key("thresholdDuration")], THRESHOLD_DURATION_REQUIRED)]
  {
    var f := map["isActive" := JBool(true), "threshold" := JNum(5.0), "thresholdDuration" := JNum(0.0)];
    assert Field(f, "isActive") == Some(JBool(true));
    assert Field(f, "threshold") == Some(JNum(5.0));
    assert Field(f, "thresholdDuration") == Some(JNum(0.0));
    assert Field(f, "verboseLogging") == None;
  }

  /** The exported defaults, switched on, make a block that passes. */
  lemma DefaultsPass(path: seq<PathItem>)
    ensures ParseOutletInUse(path, Some(OutletInUseJson(OutletInUseConfig(
      Some(true), Some(DEFAULT_OUTLETINUSE_THRESHOLD), Some(DEFAULT_OUTLETINUSE_THRESHOLD_DURATION), None)))).issues == []
  {
    OutletInUseRoundTrip(path, OutletInUseConfig(
      Some(true), Some(DEFAULT_OUTLETINUSE_THRESHOLD), Some(DEFAULT_OUTLETINUSE_THRESHOLD_DURATION), None));
  }

  lemma SocketRoundTrip(path: seq<PathItem>, s: EnergySocketConfig, isIPv4: string -> bool)
    ensures ParseSocket(path, SocketJson(s), isIPv4).value == Some(s)
    ensures ParseSocket(path, SocketJson(s), isIPv4).issues == [] <==> ValidSocket(s, isIPv4)
  {
    var f := SocketJson(s).fields;
    assert Field(f, "ip") == Some(JStr(s.ip));
    assert Field(f, "name") == Some(JStr(s.name));
    if s.outletInUse.Some? {
      assert Field(f, "outletInUse") == Some(OutletInUseJson(s.outletInUse.value));
      OutletInUseRoundTrip(path + [Key("outletInUse")], s.outletInUse.value);
    } else {
      assert Field(f, "outletInUse") == None;
    }
  }

  lemma CleanSocketIsValid(path: seq<PathItem>, j: Json, isIPv4: string -> bool)
    requires ParseSocket(path, j, isIPv4).issues == []
    ensures ParseSocket(path, j, isIPv4).value.Some?
    ensures ValidSocket(ParseSocket(path, j, isIPv4).value.value, isIPv4)
  {
    var f := j.fields;
    var outlet := ParseOutletInUse(path + [Key("outletInUse")], Field(f, "outletInUse"));
    assert outlet.issues == [];
    CleanOutletInUseIsValid(path + [Key("outletInUse")], Field(f, "outletInUse"));
  }

  /** A list of sockets is valid iff its prefix and its last socket are. */
  lemma ValidSocketsSnoc(sockets: seq<EnergySocketConfig>, isIPv4: string -> bool)
    requires sockets != []
    ensures ValidSockets(sockets, isIPv4) <==>
      ValidSockets(sockets[..|sockets| - 1], isIPv4) && ValidSocket(sockets[|sockets| - 1], isIPv4)
  {
    var n := |sockets| - 1;
    if ValidSockets(sockets[..n], isIPv4) && ValidSocket(sockets[n], isIPv4) {
      forall k | 0 <= k < |sockets| ensures ValidSocket(sockets[k], isIPv4) {
        if k < n { assert sockets[..n][k] == sockets[k]; }
      }
    }
  }

  /** A non-empty list is its prefix followed by its last element. */
  lemma InitPlusLast<T>(s: seq<T>)
    requires s != []
    ensures s[..|s| - 1] + [s[|s| - 1]] == s
  {
  }

  /** The encoding of a list is the encoding of all but its last socket,
      then the last socket's. */
  lemma SocketsJsonSnoc(sockets: seq<EnergySocketConfig>)
    requires sockets != []
    ensures SocketsJson(sockets) == SocketsJson(sockets[..|sockets| - 1]) + [SocketJson(sockets[|sockets| - 1])]
  {
  }

  /** One unfolding of `ParseItems` on a list with a last item. */
  lemma ParseItemsSnoc(path: seq<PathItem>, init: seq<Json>, last: Json, isIPv4: string -> bool)
    ensures var a := ParseItems(path, init, isIPv4);
      var b := ParseSocket(path + [Index(|init|)], last, isIPv4);
      ParseItems(path, init + [last], isIPv4) ==
        Parsed(a.issues + b.issues, if a.value.Some? && b.value.Some? then Some(a.value.value + [b.value.value]) else None)
  {
    assert (init + [last])[..|init|] == init;
  }

  lemma {:induction false} ItemsRoundTrip(path: seq<PathItem>, sockets: seq<EnergySocketConfig>, isIPv4: string -> bool)
    ensures ParseItems(path, SocketsJson(sockets), isIPv4).value == Some(sockets)
    ensures ParseItems(path, SocketsJson(sockets), isIPv4).issues == [] <==> ValidSockets(sockets, isIPv4)
  {
    if sockets != [] {
      var n := |sockets| - 1;
      var init, last := SocketsJson(sockets[..n]), SocketJson(sockets[n]);
      SocketsJsonSnoc(sockets);
      ItemsRoundTrip(path, sockets[..n], isIPv4);
      SocketRoundTrip(path + [Index(n)], sockets[n], isIPv4);
      ParseItemsSnoc(path, init, last, isIPv4);
      var a := ParseItems(path, init, isIPv4);
      var b := ParseSocket(path + [Index(n)], last, isIPv4);
      assert a.value == Some(sockets[..n]) && b.value == Some(sockets[n]);
      InitPlusLast(sockets);
      assert ParseItems(path, SocketsJson(sockets), isIPv4) == Parsed(a.issues + b.issues, Some(sockets));
      ValidSocketsSnoc(sockets, isIPv4);
    }
  }

  lemma {:induction false} CleanItemsAreValid(path: seq<PathItem>, items: seq<Json>, isIPv4: string -> bool)
    requires ParseItems(path, items, isIPv4).issues == []
    ensures ParseItems(path, items, isIPv4).value.Some?
    ensures ValidSockets(ParseItems(path, items, isIPv4).value.value, isIPv4)
  {
    if items != [] {
      var n := |items| - 1;
      CleanItemsAreValid(path, items[..n], isIPv4);
      CleanSocketIsValid(path + [Index(n)], items[n], isIPv4);
      var init := ParseItems(path, items[..n], isIPv4).value.value;
      var all := ParseItems(path, items, isIPv4).value.value;
      assert all == init + [ParseSocket(path + [Index(n)], items[n], isIPv4).value.value];
      forall k | 0 <= k < |all| ensures ValidSocket(all[k], isIPv4) {
        if k < n { assert all[k] == init[k]; }
      }
    }
  }

  /** A configuration that passes `safeParse` is valid: every socket's IP
      passes the IPv4 check, and every OutletInUse block keeps its bounds and
      its conditional requirements. */
  lemma SafeParseSound(j: Json, isIPv4: string -> bool)
    requires SafeParse(j, isIPv4).Success?
    ensures ValidConfig(SafeParse(j, isIPv4).value, isIPv4)
  {
    var f := j.fields;
    var v := Field(f, "energySockets");
    if v.Some? {
      CleanItemsAreValid([Key("energySockets")], v.value.items, isIPv4);
    }
  }

  /** A typed configuration written as JSON passes `safeParse`, giving itself
      back, exactly when it is valid. */
  lemma SafeParseRoundTrip(c: Config, isIPv4: string -> bool)
    ensures SafeParse(ConfigJson(c), isIPv4).Success? <==> ValidConfig(c, isIPv4)
    ensures SafeParse(ConfigJson(c), isIPv4).Success? ==> SafeParse(ConfigJson(c), isIPv4).value == c
  {
    var f := ConfigJson(c).fields;
    assert Field(f, "name") == Some(JStr(c.name));
    if c.energySockets.Some? {
      assert Field(f, "energySockets") == Some(JArr(SocketsJson(c.energySockets.value)));
      ItemsRoundTrip([Key("energySockets")], c.energySockets.value, isIPv4);
    } else {
      assert Field(f, "energySockets") == None;
    }
  }

  /** A configuration without a bridge name fails on that field with the
      schema's own message. */
  lemma MissingNameIssue(isIPv4: string -> bool)
    ensures SafeParse(JObj(map[]), isIPv4) == Failure([Issue(InvalidType, [Key("name")], "A bridge name is required")])
  {
    var empty: map<string, Json> := map[];
    assert Field(empty, "name") == None && Field(empty, "energySockets") == None;
    assert ParseConfig(JObj(empty), isIPv4).issues
      == [TypeIssue([Key("name")], "string", None, Some("A bridge name is required"), None)];
  }
}
