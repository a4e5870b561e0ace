/** The dynamic platform: it keeps the accessories restored from the
    host's cache, filters the devices found by multicast DNS, derives each
    socket's properties from its announcement, and registers a new accessory
    or refreshes the cached one with the same UUID.  The host framework's
    calls are recorded, in order, as `hostCalls`. */
module Platform {
  import opened Wrappers
  import opened JsText
  import opened DeviceTypes
  import LegacySocketAccessory

  /** A multicast DNS announcement; `addresses` may be missing. */
  datatype BonjourService = BonjourService(host: string, addresses: Option<seq<string>>, port: int, txt: TxtRecord)

  /** The record `getEnergySocketPropertiesFromService` builds; `ip` is
      undefined when the announcement carries no address. */
  datatype DiscoveredProperties = DiscoveredProperties(
    uuid: string,
    id: string,
    ip: Option<string>,
    mac: string,
    port: int,
    hostname: string,
    path: string,
    apiUrl: string,
    serialNumber: string,
    name: string,
    displayName: string,
    productType: string)

  /** A host accessory: its identity is fixed, its context is replaced when
      the device is seen again. */
  class PlatformAccessory {
    const UUID: string
    const displayName: string
    var context: Option<DiscoveredProperties>

    constructor(displayName: string, uuid: string)
      ensures this.displayName == displayName && UUID == uuid && context.None?
    {
      this.displayName := displayName;
      UUID := uuid;
      context := None;
    }
  }

  /** What the platform asks of the host framework. */
  datatype HostCall =
    | RegisterPlatformAccessories(accessory: PlatformAccessory)
    | UpdatePlatformAccessories(accessory: PlatformAccessory)
    | CreateHandler(accessory: PlatformAccessory, handler: LegacySocketAccessory.Accessory)

  /** How `handleDiscoveredService` ended. */
  datatype Discovery =
    | SkippedApiDisabled
    | SkippedUnsupported
    | Registered(accessory: PlatformAccessory)
    | Restored(accessory: PlatformAccessory)

  // ----- Filtering -----

  predicate IsDeviceApiEnabled(txt: TxtRecord) {
    txt.api_enabled == "1"
  }

  predicate IsDeviceProductTypeSupported(txt: TxtRecord) {
    txt.product_type == ENERGY_SOCKET_PRODUCT_TYPE
  }

  datatype Decision = SkipApiDisabled | SkipUnsupported | Accept

  /** The two guards of `handleDiscoveredService`, in their order. */
  function Decide(txt: TxtRecord): (d: Decision)
    ensures d == Accept <==> txt.api_enabled == "1" && txt.product_type == "HWE-SKT"
    ensures txt.api_enabled != "1" ==> d == SkipApiDisabled
    ensures d == SkipUnsupported <==> txt.api_enabled == "1" && txt.product_type != "HWE-SKT"
  {
    if !IsDeviceApiEnabled(txt) then SkipApiDisabled
    else if !IsDeviceProductTypeSupported(txt) then SkipUnsupported
    else Accept
  }

  /** The two announcements of the platform's tests, and a P1 meter. */
  lemma DecideExamples(txt: TxtRecord)
    ensures Decide(txt.(api_enabled := "0", product_type := "HWE-SKT")) == SkipApiDisabled
    ensures Decide(txt.(api_enabled := "1", product_type := "HWE-SKT")) == Accept
    ensures Decide(txt.(api_enabled := "1", product_type := "HWE-P1")) == SkipUnsupported
    ensures Decide(txt.(api_enabled := "0", product_type := "HWE-P1")) == SkipApiDisabled
  {
  }

  // ----- The MAC address derived from the serial -----

  /** The matches of `/.{1,2}/g`: up to two characters at a time, left to
      right; a line terminator is never part of a match. */
  function Chunks(s: string): (chunks: seq<string>)
    ensures forall k :: 0 <= k < |chunks| ==> 1 <= |chunks[k]| <= 2
    ensures forall k, i :: 0 <= k < |chunks| && 0 <= i < |chunks[k]| ==> !IsLineTerminator(chunks[k][i])
  {
    if s == [] then []
    else if IsLineTerminator(s[0]) then Chunks(s[1..])
    else if |s| >= 2 && !IsLineTerminator(s[1]) then [s[..2]] + Chunks(s[2..])
    else [s[..1]] + Chunks(s[1..])
  }

  /** `serial.match(/.{1,2}/g)?.join(":").toUpperCase() || ""`. */
  function Mac(serial: string): (mac: string)
    ensures mac == "" <==> Chunks(serial) == []
    ensures Chunks(serial) != [] ==> |mac| == |Join(Chunks(serial), ":")|
  {
    var chunks := Chunks(serial);
    if chunks == [] then ""
    else
      JoinLength(chunks, ":");
      Upper(Join(chunks, ":"))
  }

  function Concat(parts: seq<string>): string {
    if parts == [] then "" else parts[0] + Concat(parts[1..])
  }

  function RemoveColons(s: string): (r: string)
    ensures ':' !in r
  {
    if s == [] then "" else (if s[0] == ':' then "" else [s[0]]) + RemoveColons(s[1..])
  }

  predicate NoLineTerminator(s: string) {
    forall i :: 0 <= i < |s| ==> !IsLineTerminator(s[i])
  }

  /** Without line terminators the chunks are the serial cut into pairs. */
  lemma {:induction false} ChunksCoverSerial(s: string)
    requires NoLineTerminator(s)
    ensures Concat(Chunks(s)) == s
    ensures forall k :: 0 <= k < |Chunks(s)| - 1 ==> |Chunks(s)[k]| == 2
    ensures |Chunks(s)| == (|s| + 1) / 2
  {
    if s != [] {
      if |s| >= 2 {
        ChunksCoverSerial(s[2..]);
        assert Chunks(s) == [s[..2]] + Chunks(s[2..]);
        assert Chunks(s)[1..] == Chunks(s[2..]);
        assert s == s[..2] + s[2..];
      } else {
        assert s[1..] == [];
      }
    }
  }

  lemma {:induction false} RemoveColonsAppend(a: string, b: string)
    ensures RemoveColons(a + b) == RemoveColons(a) + RemoveColons(b)
  {
    if a != [] {
      assert (a + b)[0] == a[0];
      assert (a + b)[1..] == a[1..] + b;
      RemoveColonsAppend(a[1..], b);
    } else {
      assert a + b == b;
    }
  }

  lemma {:induction false} RemoveColonsKeeps(s: string)
    requires ':' !in s
    ensures RemoveColons(s) == s
  {
    if s != [] {
      RemoveColonsKeeps(s[1..]);
    }
  }

  lemma {:induction false} RemoveColonsOfUpper(s: string)
    ensures RemoveColons(Upper(s)) == Upper(RemoveColons(s))
  {
    if s != [] {
      RemoveColonsOfUpper(s[1..]);
      assert Upper(s)[1..] == Upper(s[1..]);
      var head := if s[0] == ':' then "" else [s[0]];
      UpperAppend(head, RemoveColons(s[1..]));
    }
  }

  /** Removing the separators of a join gives the parts back, run
      together. */
  lemma {:induction false} RemoveColonsOfJoin(parts: seq<string>)
    requires forall k :: 0 <= k < |parts| ==> ':' !in parts[k]
    ensures RemoveColons(Join(parts, ":")) == Concat(parts)
  {
    if |parts| == 1 {
      RemoveColonsKeeps(parts[0]);
      assert Concat(parts[1..]) == "";
    } else if |parts| > 1 {
      RemoveColonsOfJoin(parts[1..]);
      RemoveColonsAppend(parts[0] + ":", Join(parts[1..], ":"));
      RemoveColonsAppend(parts[0], ":");
      RemoveColonsKeeps(parts[0]);
      assert RemoveColons(":") == "";
    }
  }

  /** Deleting the colons from the MAC gives back the serial, upper-cased. */
  lemma MacWithoutColons(serial: string)
    requires NoLineTerminator(serial) && ':' !in serial
    ensures RemoveColons(Mac(serial)) == Upper(serial)
  {
    var chunks := Chunks(serial);
    ChunksCoverSerial(serial);
    if chunks != [] {
      forall k | 0 <= k < |chunks| ensures ':' !in chunks[k] {
        if ':' in chunks[k] {
          var i :| 0 <= i < |chunks[k]| && chunks[k][i] == ':';
          ConcatContains(chunks, k, i);
        }
      }
      RemoveColonsOfJoin(chunks);
      RemoveColonsOfUpper(Join(chunks, ":"));
    }
  }

  /** A character of a part is a character of the concatenation. */
  lemma {:induction false} ConcatContains(parts: seq<string>, k: nat, i: nat)
    requires k < |parts| && i < |parts[k]|
    ensures parts[k][i] in Concat(parts)
  {
    if k == 0 {
      assert parts[0][i] == (parts[0] + Concat(parts[1..]))[i];
    } else {
      ConcatContains(parts[1..], k - 1, i);
      assert parts[1..][k - 1] == parts[k];
      var c := parts[k][i];
      var j :| 0 <= j < |Concat(parts[1..])| && Concat(parts[1..])[j] == c;
      assert (parts[0] + Concat(parts[1..]))[|parts[0]| + j] == c;
    }
  }

  lemma {:induction false} JoinLength(parts: seq<string>, sep: string)
    requires parts != []
    ensures |Join(parts, sep)| == |Concat(parts)| + (|parts| - 1) * |sep|
  {
    if |parts| == 1 {
      assert Concat(parts[1..]) == "";
    } else {
      JoinLength(parts[1..], sep);
    }
  }

  /** Pairs are separated by single colons: a serial of n characters gives a
      MAC of n + (n - 1) / 2 characters, and an empty serial gives "". */
  lemma MacLength(serial: string)
    requires NoLineTerminator(serial)
    ensures serial == [] ==> Mac(serial) == ""
    ensures serial != [] ==> |Mac(serial)| == |serial| + (|serial| - 1) / 2
  {
    ChunksCoverSerial(serial);
    if serial != [] {
      JoinLength(Chunks(serial), ":");
    }
  }

  /** A line terminator inside the serial is dropped, not turned into a
      pair of its own. */
  lemma MacSkipsLineTerminator()
    ensures Mac("ab\ncd") == "AB:CD"
  {
    assert Chunks("cd") == ["cd"] by {
      assert "cd"[..2] == "cd" && "cd"[2..] == [];
    }
    assert Chunks("\ncd") == ["cd"] by {
      assert "\ncd"[1..] == "cd";
    }
    assert Chunks("ab\ncd") == ["ab", "cd"] by {
      assert "ab\ncd"[..2] == "ab" && "ab\ncd"[2..] == "\ncd";
    }
    assert Join(["ab", "cd"], ":") == "ab:cd";
  }

  /** No match at all gives the empty MAC. */
  lemma MacOfNoMatch()
    ensures Mac("") == ""
    ensures Mac("\n") == ""
  {
    assert Chunks("\n") == [] by {
      assert "\n"[1..] == [];
    }
  }

  // ----- The properties of a discovered socket -----

  /** The text of `addresses?.[0]` inside a template literal. */
  function FirstAddress(addresses: Option<seq<string>>): (ip: Option<string>)
    ensures ip.Some? <==> addresses.Some? && addresses.value != []
  {
    if addresses.Some? && addresses.value != [] then Some(addresses.value[0]) else None
  }

  function IpText(ip: Option<string>): string {
    if ip.Some? then ip.value else "undefined"
  }

  /** `getEnergySocketPropertiesFromService`; `generate` is the host's
      UUID generator. */
  function PropertiesFromService(generate: string -> string, service: BonjourService): (p: DiscoveredProperties)
    ensures p.uuid == generate(service.txt.serial)
    ensures p.id == p.serialNumber == service.txt.serial
    ensures p.mac == Mac(service.txt.serial)
    ensures p.apiUrl == "http://" + IpText(FirstAddress(service.addresses)) + ":" + IntText(service.port)
    ensures p.displayName == service.txt.product_name + " " + service.txt.serial
    ensures p.name == service.txt.product_name && p.productType == service.txt.product_type
  {
    var txt := service.txt;
    var ip := FirstAddress(service.addresses);
    DiscoveredProperties(
      generate(txt.serial), txt.serial, ip, Mac(txt.serial), service.port, service.host, txt.path,
      "http://" + IpText(ip) + ":" + IntText(service.port),
      txt.serial, txt.product_name, txt.product_name + " " + txt.serial, txt.product_type)
  }

  /** The handler built for a socket talks to the address it announced. */
  lemma HandlerUsesAnnouncedAddress(generate: string -> string, service: BonjourService, ip: string)
    requires service.addresses.Some? && service.addresses.value != [] && service.addresses.value[0] == ip
    ensures var p := PropertiesFromService(generate, service);
      LegacySocketAccessory.New(p.apiUrl, p.name).stateApiUrl
        == "http://" + ip + ":" + IntText(service.port) + "/api/v1/state"
  {
  }

  /** The first cached accessory with this UUID (`Array.prototype.find`). */
  function FindAccessory(accessories: seq<PlatformAccessory>, uuid: string): (i: Option<nat>)
    ensures i.Some? ==> i.value < |accessories| && accessories[i.value].UUID == uuid
    ensures i.Some? ==> forall j :: 0 <= j < i.value ==> accessories[j].UUID != uuid
    ensures i.None? ==> forall j :: 0 <= j < |accessories| ==> accessories[j].UUID != uuid
  {
    if accessories == [] then None
    else if accessories[0].UUID == uuid then Some(0)
    else
      var rest := FindAccessory(accessories[1..], uuid);
      if rest.Some? then Some(rest.value + 1) else None
  }

  // ----- The platform -----

  class HomebridgeHomeWizardEnergySocket {
    /** `api.hap.uuid.generate`. */
    const generate: string -> string
    var cachedAccessories: seq<PlatformAccessory>
    var hostCalls: seq<HostCall>

    constructor(generate: string -> string)
      ensures this.generate == generate && cachedAccessories == [] && hostCalls == []
    {
      this.generate := generate;
      cachedAccessories := [];
      hostCalls := [];
    }

    /** `configureAccessory`: remember a restored accessory, duplicates
        included. */
    method ConfigureAccessory(accessory: PlatformAccessory)
      modifies this`cachedAccessories
      ensures cachedAccessories == old(cachedAccessories) + [accessory]
    {
      cachedAccessories := cachedAccessories + [accessory];
    }

    /** `handleDiscoveredService`. */
    method HandleDiscoveredService(service: BonjourService) returns (outcome: Discovery)
      modifies this`hostCalls, cachedAccessories
      ensures cachedAccessories == old(cachedAccessories)
      ensures Decide(service.txt) == SkipApiDisabled ==> outcome == SkippedApiDisabled
      ensures Decide(service.txt) == SkipUnsupported ==> outcome == SkippedUnsupported
      ensures Decide(service.txt) != Accept ==>
        hostCalls == old(hostCalls) && forall a :: a in cachedAccessories ==> a.context == old(a.context)
      ensures Decide(service.txt) == Accept ==>
        var p := PropertiesFromService(generate, service);
        var handler := LegacySocketAccessory.New(p.apiUrl, p.name);
        match FindAccessory(cachedAccessories, p.uuid)
        case None =>
          && outcome.Registered? && fresh(outcome.accessory)
          && outcome.accessory.UUID == p.uuid
          && outcome.accessory.displayName == p.name + " " + p.serialNumber
          && outcome.accessory.context == Some(p)
          && hostCalls == old(hostCalls) + [CreateHandler(outcome.accessory, handler),
                                             RegisterPlatformAccessories(outcome.accessory)]
          && (forall a :: a in cachedAccessories ==> a.context == old(a.context))
        case Some(i) =>
          && outcome == Restored(cachedAccessories[i])
          && cachedAccessories[i].context == Some(p)
          && hostCalls == old(hostCalls) + [UpdatePlatformAccessories(cachedAccessories[i]),
                                             CreateHandler(cachedAccessories[i], handler)]
          && (forall a :: a in cachedAccessories && a != cachedAccessories[i] ==> a.context == old(a.context))
    {
      var txt := service.txt;
      if !IsDeviceApiEnabled(txt) {
        return SkippedApiDisabled;
      }
      if !IsDeviceProductTypeSupported(txt) {
        return SkippedUnsupported;
      }
      var properties := PropertiesFromService(generate, service);
      var handler := LegacySocketAccessory.New(properties.apiUrl, properties.name);
      var existing := FindAccessory(cachedAccessories, properties.uuid);
      if existing.None? {
        var displayName := properties.name + " " + properties.serialNumber;
        var accessory := new PlatformAccessory(displayName, properties.uuid);
        accessory.context := Some(properties);
        hostCalls := hostCalls + [CreateHandler(accessory, handler)];
        hostCalls := hostCalls + [RegisterPlatformAccessories(accessory)];
        return Registered(accessory);
      }
      var accessory := cachedAccessories[existing.value];
      accessory.context := Some(properties);
      hostCalls := hostCalls + [UpdatePlatformAccessories(accessory)];
      hostCalls := hostCalls + [CreateHandler(accessory, handler)];
      return Restored(accessory);
    }
  }

  /** The cache only grows through `configureAccessory`: a socket that is
      announced twice, and was not restored from the cache, is registered
      twice under the same UUID. */
  method RepeatedAnnouncementRegistersTwice(generate: string -> string, service: BonjourService)
    returns (first: Discovery, second: Discovery)
    requires Decide(service.txt) == Accept
    ensures first.Registered? && second.Registered?
    ensures first.accessory != second.accessory
    ensures first.accessory.UUID == second.accessory.UUID == generate(service.txt.serial)
  {
    var platform := new HomebridgeHomeWizardEnergySocket(generate);
    first := platform.HandleDiscoveredService(service);
    second := platform.HandleDiscoveredService(service);
  }

  /** A socket restored from the cache is refreshed, not registered again. */
  method CachedAnnouncementIsRestored(generate: string -> string, service: BonjourService, displayName: string)
    returns (outcome: Discovery, calls: seq<HostCall>)
    requires Decide(service.txt) == Accept
    ensures outcome.Restored? && outcome.accessory.UUID == generate(service.txt.serial)
    ensures |calls| == 2 && calls[0] == UpdatePlatformAccessories(outcome.accessory)
    ensures forall k :: 0 <= k < |calls| ==> !calls[k].RegisterPlatformAccessories?
  {
    var platform := new HomebridgeHomeWizardEnergySocket(generate);
    var cached := new PlatformAccessory(displayName, generate(service.txt.serial));
    platform.ConfigureAccessory(cached);
    outcome := platform.HandleDiscoveredService(service);
    calls := platform.hostCalls;
  }
}
