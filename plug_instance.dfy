/**
 * One virtual smart plug: its identity (MAC, device ID, alias), how that
 * identity is generated from random bytes, how plugs are built from
 * configuration entries, and the reply a plug gives to a monitor query.
 *
 * Randomness is injected: every generator takes the bytes `random.randrange(256)`
 * would have produced, as a stream consumed in the order the generators draw.
 */
module PlugInstances {
  import opened Wrappers
  import opened Text
  import opened JsonValues
  import opened Octets

  /** How many bytes `random_bytes()` draws by default. */
  const DefaultDraw: nat := 6
  /** How many random bytes make a device ID. */
  const DeviceIdDraw: nat := 20
  /** The OUI `PlugInstance.__init__` passes to `generate_mac`. */
  const VendorOui: string := "53:75:31"
  const VendorOuiBytes: seq<nat> := [0x53, 0x75, 0x31]
  const AliasPrefix: string := "Spoofed TP-Link Kasa HS110 "

  // ---------------------------------------------------------------------
  // MAC addresses
  // ---------------------------------------------------------------------

  /**
   * How many random bytes `generate_mac` draws when the OUI has `n` bytes
   * (`n == 0`: no OUI): always six, and with an OUI another `6 - n` (none
   * when the OUI already has six or more).
   */
  function MacDrawCount(n: nat): nat {
    if n == 0 then DefaultDraw else DefaultDraw + (if n < 6 then 6 - n else 0)
  }

  /**
   * The bytes `generate_mac` formats, given the random `draw` and the parsed
   * OUI (`[]` when there is none).
   */
  function MacBytes(draw: seq<bv8>, uaa: bool, multicast: bool, oui: seq<nat>): (mac: seq<nat>)
    requires |draw| >= MacDrawCount(|oui|)
    ensures oui != [] && |oui| <= 6 ==>
      |mac| == 6 && mac[..|oui|] == oui && mac[|oui|..] == AsInts(draw[6 .. 12 - |oui|])
    ensures |oui| >= 6 ==> mac == oui
    ensures oui == [] ==>
      |mac| == 6 && mac[1..] == AsInts(draw[1..6]) && mac[0] == AddressOctet(draw[0], uaa, multicast) as int
    ensures AllBytes(oui) ==> AllBytes(mac)
  {
    if oui != [] then oui + AsInts(draw[DefaultDraw .. MacDrawCount(|oui|)])
    else [AddressOctet(draw[0], uaa, multicast) as int] + AsInts(draw[1..DefaultDraw])
  }

  /** `separator.join('%02x' % b for b in mac)`. */
  function FormatMac(mac: seq<nat>, sep: char): string {
    Join(HexGroups(mac), [sep])
  }

  /** The OUI text as `generate_mac` reads it: `[int(chunk, 16) for chunk in oui.split(separator)]`. */
  function ParseOui(oui: string, sep: char): (r: Option<seq<nat>>)
    ensures r.None? <==> exists k :: 0 <= k < |Split(oui, sep)| && ParseHex(Split(oui, sep)[k]).None?
    ensures r.Some? ==> |r.value| == |Split(oui, sep)|
    ensures r.Some? ==> forall k :: 0 <= k < |r.value| ==> r.value[k] == ParseHex(Split(oui, sep)[k]).value
  {
    ParseHexList(Split(oui, sep))
  }

  /** A formatted MAC parses back, as an OUI, to its bytes. */
  lemma {:induction false} FormatMacRoundTrip(mac: seq<nat>, sep: char)
    requires mac != [] && AllBytes(mac) && !IsLowerHexChar(sep)
    ensures ParseOui(FormatMac(mac, sep), sep) == Some(mac)
  {
    var groups := HexGroups(mac);
    forall k | 0 <= k < |groups|
      ensures sep !in groups[k]
    {
      HexGroupAvoids(mac[k], sep);
    }
    SplitJoin(groups, sep);
    ParseHexGroups(mac);
  }

  /** A six-byte MAC formats as 17 characters: two hex digits per byte and the separator between. */
  lemma MacTextShape(mac: seq<nat>, sep: char, k: nat)
    requires |mac| == 6 && AllBytes(mac) && k < 6
    ensures |FormatMac(mac, sep)| == 17
    ensures FormatMac(mac, sep)[3 * k] == HexDigit(mac[k] / 16)
    ensures FormatMac(mac, sep)[3 * k + 1] == HexDigit(mac[k] % 16)
    ensures k < 5 ==> FormatMac(mac, sep)[3 * k + 2] == sep
  {
    SeparatedHexAt(mac, sep, k);
  }

  lemma VendorOuiText()
    ensures FormatMac(VendorOuiBytes, ':') == VendorOui
  {
    Hex2OfByte(0x53);
    Hex2OfByte(0x75);
    Hex2OfByte(0x31);
    assert HexGroups(VendorOuiBytes) == ["53", "75", "31"];
  }

  lemma VendorOuiParses()
    ensures ParseOui(VendorOui, ':') == Some(VendorOuiBytes)
    ensures |Split(VendorOui, ':')| == 3
  {
    VendorOuiText();
    FormatMacRoundTrip(VendorOuiBytes, ':');
  }

  /**
   * `generate_mac(uaa, multicast, oui, separator)` with the default `'%02x'`
   * byte format. `oui` is the OUI text (`""` for none); `draw` supplies the
   * random bytes.
   */
  method GenerateMac(draw: seq<bv8>, uaa: bool, multicast: bool, oui: string, sep: char)
    returns (r: Result<string, Raised>)
    requires |draw| >= MacDrawCount(if oui == "" then 0 else |Split(oui, sep)|)
    ensures oui == "" ==> r == Ok(FormatMac(MacBytes(draw, uaa, multicast, []), sep))
    ensures oui != "" ==> r == match ParseOui(oui, sep)
      case None => Err(ValueError)
      case Some(o) => Ok(FormatMac(MacBytes(draw, uaa, multicast, o), sep))
  {
    var mac: seq<nat> := AsInts(draw[..DefaultDraw]);
    if oui != "" {
      var parsed := ParseOui(oui, sep);
      if parsed.None? {
        return Err(ValueError);
      }
      mac := parsed.value + AsInts(draw[DefaultDraw .. MacDrawCount(|parsed.value|)]);
    } else {
      var first := AdjustFirstOctet(draw[0], uaa, multicast);
      mac := mac[0 := first as nat];
      assert mac == [AddressOctet(draw[0], uaa, multicast) as int] + AsInts(draw[1..DefaultDraw]);
    }
    r := Ok(FormatMac(mac, sep));
  }

  /** The in-place edits of `mac[0]` for the multicast and locally-administered bits. */
  method AdjustFirstOctet(b: bv8, uaa: bool, multicast: bool) returns (first: bv8)
    ensures first == AddressOctet(b, uaa, multicast)
  {
    first := b;
    if multicast {
      first := first | 1;
    } else {
      first := first & !1;
    }
    if uaa {
      first := first & !2;
    } else {
      first := first | 2;
    }
    OctetFromBitOperations(b, uaa, multicast);
  }

  /** A MAC generated under the vendor OUI reads "53:75:31:" then three random bytes. */
  predicate IsVendorMac(m: string) {
    && |m| == 17 && m[..8] == VendorOui
    && m[8] == ':' && IsHexPair(m, 9)
    && m[11] == ':' && IsHexPair(m, 12)
    && m[14] == ':' && IsHexPair(m, 15)
  }

  /** Characters `i` and `i + 1` of `m` are lower-case hex digits, as `'%02x'` prints one byte. */
  predicate IsHexPair(m: string, i: nat)
    requires i + 1 < |m|
  {
    IsLowerHexChar(m[i]) && IsLowerHexChar(m[i + 1])
  }

  /** Byte `k` of a six-byte MAC prints as a hex pair, preceded by the separator. */
  lemma HexGroupAt(mac: seq<nat>, k: nat)
    requires |mac| == 6 && AllBytes(mac) && 0 < k < 6
    ensures |FormatMac(mac, ':')| == 17
    ensures FormatMac(mac, ':')[3 * k - 1] == ':' && IsHexPair(FormatMac(mac, ':'), 3 * k)
  {
    MacTextShape(mac, ':', k - 1);
    MacTextShape(mac, ':', k);
    DigitValueOfHexDigit(mac[k] / 16);
    DigitValueOfHexDigit(mac[k] % 16);
  }

  lemma VendorMacShape(draw: seq<bv8>)
    requires |draw| >= MacDrawCount(3)
    ensures IsVendorMac(FormatMac(MacBytes(draw, false, false, VendorOuiBytes), ':'))
  {
    var mac := MacBytes(draw, false, false, VendorOuiBytes);
    var m := FormatMac(mac, ':');
    MacTextShape(mac, ':', 0);
    MacTextShape(mac, ':', 1);
    MacTextShape(mac, ':', 2);
    HexGroupAt(mac, 3);
    HexGroupAt(mac, 4);
    HexGroupAt(mac, 5);
    assert mac[..3] == VendorOuiBytes;
    assert m[..8] == VendorOui;
  }

  // ---------------------------------------------------------------------
  // Device IDs and aliases
  // ---------------------------------------------------------------------

  /** `generate_deviceid()`: the first 20 random bytes as 40 lower-case hex digits. */
  function GenerateDeviceId(draw: seq<bv8>): string
    requires |draw| >= DeviceIdDraw
  {
    Join(HexGroups(AsInts(draw[..DeviceIdDraw])), [])
  }

  predicate IsDeviceIdText(d: string) {
    |d| == 40 && forall k :: 0 <= k < |d| ==> IsLowerHexChar(d[k])
  }

  /** Character `2k` and `2k + 1` of a generated device ID are the nibbles of random byte `k`. */
  lemma DeviceIdDigits(draw: seq<bv8>, k: nat)
    requires |draw| >= DeviceIdDraw && k < DeviceIdDraw
    ensures |GenerateDeviceId(draw)| == 40
    ensures GenerateDeviceId(draw)[2 * k] == HexDigit(draw[k] as int / 16)
    ensures GenerateDeviceId(draw)[2 * k + 1] == HexDigit(draw[k] as int % 16)
  {
    ConcatenatedHexAt(AsInts(draw[..DeviceIdDraw]), k);
  }

  lemma DeviceIdIsHex(draw: seq<bv8>)
    requires |draw| >= DeviceIdDraw
    ensures IsDeviceIdText(GenerateDeviceId(draw))
  {
    var d := GenerateDeviceId(draw);
    DeviceIdDigits(draw, 0);
    forall i | 0 <= i < |d|
      ensures IsLowerHexChar(d[i])
    {
      DeviceIdDigits(draw, i / 2);
      DigitValueOfHexDigit(draw[i / 2] as int / 16);
      DigitValueOfHexDigit(draw[i / 2] as int % 16);
    }
  }

  /** `"Spoofed TP-Link Kasa HS110 " + device_id[0:8]` (a shorter ID is taken whole). */
  function DefaultAlias(deviceId: string): string {
    AliasPrefix + deviceId[..if |deviceId| < 8 then |deviceId| else 8]
  }

  /** The default alias of a generated device ID ends in the hex of the first four random bytes. */
  lemma DefaultAliasOfGenerated(draw: seq<bv8>, k: nat)
    requires |draw| >= DeviceIdDraw && k < 4
    ensures |DefaultAlias(GenerateDeviceId(draw))| == |AliasPrefix| + 8
    ensures DefaultAlias(GenerateDeviceId(draw))[..|AliasPrefix|] == AliasPrefix
    ensures DefaultAlias(GenerateDeviceId(draw))[|AliasPrefix| + 2 * k] == HexDigit(draw[k] as int / 16)
    ensures DefaultAlias(GenerateDeviceId(draw))[|AliasPrefix| + 2 * k + 1] == HexDigit(draw[k] as int % 16)
  {
    DeviceIdDigits(draw, k);
  }

  // ---------------------------------------------------------------------
  // Configuration entries and data sources
  // ---------------------------------------------------------------------

  /** An instantaneous reading; the source's floats are modelled as reals. */
  datatype Reading = Reading(power: real, current: real, voltage: real)

  /** The connection parameters of a home-automation hub block. */
  datatype HubConfig = HubConfig(url: string, authToken: string)

  datatype SourceKind = StaticSource | HassSource

  /**
   * A plug's configuration mapping: the three identity keys `get` reads,
   * and the remaining keys, which only the data source consumes.
   */
  datatype Details = Details(
    alias: Option<string>,
    mac: Option<string>,
    deviceId: Option<string>,
    settings: map<string, Json>)

  /** One element of a `plugs` list: a mapping from the plug id to its details (None when left empty). */
  datatype PlugEntry = PlugEntry(id: string, details: Option<Details>)

  /** What `data_source_class(plug_id, details, data_controller)` is built from. */
  datatype DataSource = DataSource(kind: SourceKind, plugId: string, details: Details, hub: Option<HubConfig>)

  /** What a plug's reply depends on: its identity, its start time and its data source. */
  datatype PlugSnapshot = PlugSnapshot(mac: string, deviceId: string, alias: string, startTime: real, source: DataSource)

  /** The entries `configure_plugs` turns into plugs: those whose details are not None, in order. */
  function Kept(plugs: seq<PlugEntry>): (r: seq<PlugEntry>)
    ensures forall p {:trigger p in r} :: p in r <==> p in plugs && p.details.Some?
    ensures |r| <= |plugs|
  {
    if plugs == [] then []
    else
      assert plugs == [plugs[0]] + plugs[1..];
      (if plugs[0].details.Some? then [plugs[0]] else []) + Kept(plugs[1..])
  }

  lemma {:induction false} KeptAppend(a: seq<PlugEntry>, b: seq<PlugEntry>)
    ensures Kept(a + b) == Kept(a) + Kept(b)
  {
    if a == [] {
      assert a + b == b;
    } else {
      assert (a + b)[0] == a[0];
      assert (a + b)[1..] == a[1..] + b;
      KeptAppend(a[1..], b);
      var head := if a[0].details.Some? then [a[0]] else [];
      assert head + (Kept(a[1..]) + Kept(b)) == (head + Kept(a[1..])) + Kept(b);
    }
  }

  /** Random bytes one plug draws for its MAC: 9 when the MAC is missing, none otherwise. */
  function MacEntropy(mac: Option<string>): nat {
    if mac.None? then MacDrawCount(|VendorOuiBytes|) else 0
  }

  /** Random bytes one plug draws: those for a missing MAC, then 20 for a missing device ID. */
  function EntropyUse(mac: Option<string>, deviceId: Option<string>): nat {
    MacEntropy(mac) + (if deviceId.None? then DeviceIdDraw else 0)
  }

  /** Random bytes `configure_plugs` draws for one entry. */
  function PlugEntropy(p: PlugEntry): nat {
    match p.details
    case None => 0
    case Some(d) => EntropyUse(d.mac, d.deviceId)
  }

  /** Random bytes `configure_plugs` draws for `plugs`. */
  function EntropyNeeded(plugs: seq<PlugEntry>): nat {
    if plugs == [] then 0 else PlugEntropy(plugs[0]) + EntropyNeeded(plugs[1..])
  }

  lemma {:induction false} EntropyAppend(a: seq<PlugEntry>, b: seq<PlugEntry>)
    ensures EntropyNeeded(a + b) == EntropyNeeded(a) + EntropyNeeded(b)
  {
    if a == [] {
      assert a + b == b;
    } else {
      assert (a + b)[0] == a[0];
      assert (a + b)[1..] == a[1..] + b;
      EntropyAppend(a[1..], b);
    }
  }

  /** One loop step of `configure_plugs` moves one entry's draw from the unread suffix to the consumed prefix. */
  lemma EntropyStep(plugs: seq<PlugEntry>, i: nat)
    requires i < |plugs|
    ensures EntropyNeeded(plugs[..i + 1]) == EntropyNeeded(plugs[..i]) + PlugEntropy(plugs[i])
    ensures EntropyNeeded(plugs[i..]) == PlugEntropy(plugs[i]) + EntropyNeeded(plugs[i + 1..])
  {
    assert plugs[..i + 1] == plugs[..i] + [plugs[i]];
    EntropyAppend(plugs[..i], [plugs[i]]);
    assert [plugs[i]][1..] == [];
    assert plugs[i..][1..] == plugs[i + 1..];
  }

  /** The filter over one more entry keeps that entry exactly when its details are present. */
  lemma KeptStep(plugs: seq<PlugEntry>, i: nat)
    requires i < |plugs|
    ensures Kept(plugs[..i + 1]) == Kept(plugs[..i]) + if plugs[i].details.Some? then [plugs[i]] else []
  {
    assert plugs[..i + 1] == plugs[..i] + [plugs[i]];
    KeptAppend(plugs[..i], [plugs[i]]);
    assert [plugs[i]][1..] == [];
  }

  // ---------------------------------------------------------------------
  // The reply
  // ---------------------------------------------------------------------

  /** Every key of the `get_sysinfo` reply. */
  const SysinfoKeys: set<string> := {
    "err_code", "sw_ver", "hw_ver", "type", "model", "mac", "deviceId", "hwId", "fwId", "oemId",
    "alias", "dev_name", "icon_hash", "relay_state", "on_time", "active_mode", "feature",
    "updating", "rssi", "led_off", "latitude", "longitude" }

  /** Every key of the `get_realtime` reply. */
  const RealtimeKeys: set<string> := { "current", "voltage", "power", "total", "err_code" }

  /** The `get_realtime` part of the reply. */
  function RealtimeReply(reading: Reading): map<string, Json> {
    map[
      "current" := JReal(reading.current),
      "voltage" := JReal(reading.voltage),
      "power" := JReal(reading.power),
      "total" := JInt(0),
      "err_code" := JInt(0)]
  }

  /** The fields of the `get_sysinfo` reply that are the same for every plug. */
  const SysinfoDefaults: map<string, Json> := map[
    "err_code" := JInt(0),
    "sw_ver" := JStr("1.2.5 Build 171206 Rel.085954"),
    "hw_ver" := JStr("1.0"),
    "type" := JStr("IOT.SMARTPLUGSWITCH"),
    "model" := JStr("HS110(US)"),
    "hwId" := JStr("60FF6B258734EA6880E186F8C96DDC61"),
    "fwId" := JStr("00000000000000000000000000000000"),
    "oemId" := JStr("FFF22CFF774A0B89F7624BFC6F50D5DE"),
    "dev_name" := JStr("Wi-Fi Smart Plug With Energy Monitoring"),
    "icon_hash" := JStr(""),
    "relay_state" := JInt(1),
    "active_mode" := JStr("none"),
    "feature" := JStr("TIM:ENE"),
    "updating" := JInt(0),
    "rssi" := JInt(-60),
    "led_off" := JInt(0),
    "latitude" := JReal(39.8283),
    "longitude" := JReal(-98.5795)]

  /** The `get_sysinfo` part of the reply: the constant fields, the plug's identity and its uptime. */
  function SysinfoReply(mac: string, deviceId: string, alias: string, onTime: real): map<string, Json> {
    SysinfoDefaults + map[
      "mac" := JStr(Upper(mac)),
      "deviceId" := JStr(Upper(deviceId)),
      "alias" := JStr(alias),
      "on_time" := JReal(onTime)]
  }

  /** The reply dict of `generate_response`, given the plug's fields, its reading and its uptime. */
  function BuildResponse(mac: string, deviceId: string, alias: string, reading: Reading, onTime: real): Json
  {
    JObject(map[
      "emeter" := JObject(map["get_realtime" := JObject(RealtimeReply(reading))]),
      "system" := JObject(map["get_sysinfo" := JObject(SysinfoReply(mac, deviceId, alias, onTime))])])
  }

  /** Two subscripts into nested dicts that hold the keys. */
  lemma DescendTwoKeys(j: Json, a: string, b: string)
    requires j.JObject? && a in j.members && j.members[a].JObject? && b in j.members[a].members
    ensures Descend(j, [a, b]) == Reached(j.members[a].members[b])
  {
    var inner := j.members[a];
    assert [a, b][1..] == [b];
    assert [b][1..] == [];
    assert Descend(inner, [b]) == Descend(inner.members[b], []);
  }

  /** A third subscript, into the dict the first two reached. */
  lemma DescendThreeKeys(j: Json, a: string, b: string, c: string, m: map<string, Json>)
    requires Descend(j, [a, b]) == Reached(JObject(m)) && c in m
    ensures Descend(j, [a, b, c]) == Reached(m[c])
  {
    DescendExtend(j, [a, b], c);
    assert [a, b] + [c] == [a, b, c];
  }

  /** Paths the monitor reads in the `get_realtime` reply: the reading, then two zeros. */
  lemma ResponseRealtime(mac: string, deviceId: string, alias: string, reading: Reading, onTime: real)
    ensures var r := BuildResponse(mac, deviceId, alias, reading, onTime);
      && Descend(r, ["emeter", "get_realtime"]).Reached?
      && Descend(r, ["emeter", "get_realtime"]).value.JObject?
      && Descend(r, ["emeter", "get_realtime"]).value.members.Keys == RealtimeKeys
      && Descend(r, ["emeter", "get_realtime", "power"]) == Reached(JReal(reading.power))
      && Descend(r, ["emeter", "get_realtime", "current"]) == Reached(JReal(reading.current))
      && Descend(r, ["emeter", "get_realtime", "voltage"]) == Reached(JReal(reading.voltage))
      && Descend(r, ["emeter", "get_realtime", "total"]) == Reached(JInt(0))
      && Descend(r, ["emeter", "get_realtime", "err_code"]) == Reached(JInt(0))
  {
    var r := BuildResponse(mac, deviceId, alias, reading, onTime);
    var m := RealtimeReply(reading);
    DescendTwoKeys(r, "emeter", "get_realtime");
    DescendThreeKeys(r, "emeter", "get_realtime", "power", m);
    DescendThreeKeys(r, "emeter", "get_realtime", "current", m);
    DescendThreeKeys(r, "emeter", "get_realtime", "voltage", m);
    DescendThreeKeys(r, "emeter", "get_realtime", "total", m);
    DescendThreeKeys(r, "emeter", "get_realtime", "err_code", m);
  }

  /** Paths in the `get_sysinfo` reply: the exact key set, the upper-cased identity, the alias and the uptime. */
  lemma ResponseSysinfo(mac: string, deviceId: string, alias: string, reading: Reading, onTime: real)
    ensures var r := BuildResponse(mac, deviceId, alias, reading, onTime);
      && Descend(r, ["system", "get_sysinfo"]).Reached?
      && Descend(r, ["system", "get_sysinfo"]).value.JObject?
      && Descend(r, ["system", "get_sysinfo"]).value.members.Keys == SysinfoKeys
      && Descend(r, ["system", "get_sysinfo", "mac"]) == Reached(JStr(Upper(mac)))
      && Descend(r, ["system", "get_sysinfo", "deviceId"]) == Reached(JStr(Upper(deviceId)))
      && Descend(r, ["system", "get_sysinfo", "alias"]) == Reached(JStr(alias))
      && Descend(r, ["system", "get_sysinfo", "on_time"]) == Reached(JReal(onTime))
  {
    var r := BuildResponse(mac, deviceId, alias, reading, onTime);
    var m := SysinfoReply(mac, deviceId, alias, onTime);
    DescendTwoKeys(r, "system", "get_sysinfo");
    DescendThreeKeys(r, "system", "get_sysinfo", "mac", m);
    DescendThreeKeys(r, "system", "get_sysinfo", "deviceId", m);
    DescendThreeKeys(r, "system", "get_sysinfo", "alias", m);
    DescendThreeKeys(r, "system", "get_sysinfo", "on_time", m);
  }

  /** The fields every plug shares hold the listed constants in every `get_sysinfo` reply. */
  lemma ResponseSysinfoDefaults(mac: string, deviceId: string, alias: string, reading: Reading, onTime: real)
    ensures var r := BuildResponse(mac, deviceId, alias, reading, onTime);
      forall key :: key in SysinfoDefaults ==>
        Descend(r, ["system", "get_sysinfo", key]) == Reached(SysinfoDefaults[key])
  {
    var r := BuildResponse(mac, deviceId, alias, reading, onTime);
    var m := SysinfoReply(mac, deviceId, alias, onTime);
    DescendTwoKeys(r, "system", "get_sysinfo");
    forall key | key in SysinfoDefaults
      ensures Descend(r, ["system", "get_sysinfo", key]) == Reached(SysinfoDefaults[key])
    {
      SysinfoKeepsDefault(mac, deviceId, alias, onTime, key);
      DescendThreeKeys(r, "system", "get_sysinfo", key, m);
    }
  }

  /** No per-plug field overrides a constant one. */
  lemma SysinfoKeepsDefault(mac: string, deviceId: string, alias: string, onTime: real, key: string)
    requires key in SysinfoDefaults
    ensures key in SysinfoReply(mac, deviceId, alias, onTime)
    ensures SysinfoReply(mac, deviceId, alias, onTime)[key] == SysinfoDefaults[key]
  {
    assert "mac" !in SysinfoDefaults && "deviceId" !in SysinfoDefaults;
    assert "alias" !in SysinfoDefaults && "on_time" !in SysinfoDefaults;
  }

  // ---------------------------------------------------------------------
  // The plug object
  // ---------------------------------------------------------------------

  class PlugInstance {
    const identifier: string
    const alias: string
    const mac: string
    const deviceId: string
    /** Latched by the responder on the first query it answers. */
    var startTime: Option<real>
    /** Assigned by `ConfigurePlugs` right after construction. */
    var dataSource: Option<DataSource>

    /**
     * `PlugInstance(identifier, alias, mac, device_id)`: a missing MAC is
     * generated under the vendor OUI from the first 9 bytes of `entropy`, a
     * missing device ID from the next 20, and a missing alias is derived from
     * the device ID.
     */
    constructor (identifier: string, alias: Option<string>, mac: Option<string>, deviceId: Option<string>,
                 entropy: seq<bv8>)
      requires |entropy| >= EntropyUse(mac, deviceId)
      ensures this.identifier == identifier
      ensures this.mac == if mac.Some? then mac.value
                          else FormatMac(MacBytes(entropy, false, false, VendorOuiBytes), ':')
      ensures this.deviceId == if deviceId.Some? then deviceId.value
                               else GenerateDeviceId(entropy[MacEntropy(mac) ..])
      ensures this.alias == if alias.Some? then alias.value else DefaultAlias(this.deviceId)
      ensures startTime == None && dataSource == None
    {
      var m: string;
      if mac.None? {
        VendorOuiParses();
        var generated := GenerateMac(entropy, false, false, VendorOui, ':');
        m := generated.value;
      } else {
        m := mac.value;
      }
      var d: string;
      if deviceId.None? {
        d := GenerateDeviceId(entropy[MacEntropy(mac) ..]);
      } else {
        d := deviceId.value;
      }
      this.identifier := identifier;
      this.mac := m;
      this.deviceId := d;
      this.alias := if alias.Some? then alias.value else DefaultAlias(d);
      this.startTime := None;
      this.dataSource := None;
    }

    /**
     * The plug is bound to `entry`: it carries the entry's key, a data source
     * built from that key and the entry's details, and no start time yet.
     */
    predicate BoundTo(entry: PlugEntry, kind: SourceKind, hub: Option<HubConfig>)
      reads this
    {
      && entry.details.Some?
      && identifier == entry.id
      && dataSource == Some(DataSource(kind, entry.id, entry.details.value, hub))
      && startTime == None
    }

    /** The plug's identity is the one `d` supplies, or a generated one where `d` supplies none. */
    predicate IdentifiedBy(d: Details)
    {
      && (if d.mac.Some? then mac == d.mac.value else IsVendorMac(mac))
      && (if d.deviceId.Some? then deviceId == d.deviceId.value else IsDeviceIdText(deviceId))
      && alias == (if d.alias.Some? then d.alias.value else DefaultAlias(deviceId))
    }

    /** What a plug built by `ConfigurePlugs` from `entry` looks like. */
    predicate ConfiguredFrom(entry: PlugEntry, kind: SourceKind, hub: Option<HubConfig>)
      reads this
    {
      BoundTo(entry, kind, hub) && IdentifiedBy(entry.details.value)
    }

    /** One iteration of `configure_plugs` for an entry whose details are present. */
    static method ConfigureOne(entry: PlugEntry, kind: SourceKind, hub: Option<HubConfig>, entropy: seq<bv8>)
      returns (instance: PlugInstance)
      requires entry.details.Some? && |entropy| >= PlugEntropy(entry)
      ensures fresh(instance)
      ensures instance.ConfiguredFrom(entry, kind, hub)
    {
      var d := entry.details.value;
      instance := new PlugInstance(entry.id, d.alias, d.mac, d.deviceId, entropy);
      instance.dataSource := Some(DataSource(kind, entry.id, d, hub));
      if d.mac.None? {
        VendorMacShape(entropy);
      }
      if d.deviceId.None? {
        DeviceIdIsHex(entropy[MacEntropy(d.mac) ..]);
      }
    }

    /** One iteration of `configure_plugs`: entry `i` becomes one more plug when its details are present. */
    static method ConfigureNext(plugs: seq<PlugEntry>, kind: SourceKind, hub: Option<HubConfig>, entropy: seq<bv8>,
                                i: nat, instances: seq<PlugInstance>, ghost kept: seq<PlugEntry>)
      returns (next: seq<PlugInstance>, ghost nextKept: seq<PlugEntry>)
      requires i < |plugs| && |entropy| >= PlugEntropy(plugs[i])
      requires kept == Kept(plugs[..i]) && |instances| == |kept|
      ensures nextKept == Kept(plugs[..i + 1]) && |next| == |nextKept|
      ensures |instances| <= |next|
      ensures forall k :: 0 <= k < |instances| ==> next[k] == instances[k] && nextKept[k] == kept[k]
      ensures forall k :: |instances| <= k < |next| ==> fresh(next[k])
      ensures forall k :: |instances| <= k < |next| ==> next[k].ConfiguredFrom(nextKept[k], kind, hub)
    {
      KeptStep(plugs, i);
      next, nextKept := instances, kept;
      if plugs[i].details.Some? {
        var instance := ConfigureOne(plugs[i], kind, hub, entropy);
        next, nextKept := instances + [instance], kept + [plugs[i]];
      }
    }

    /**
     * `PlugInstance.configure_plugs(plugs, data_source_class, data_controller)`:
     * one fresh plug per entry whose details are not None, in input order,
     * each bound to a data source built from its own id and details. Returns
     * the entropy left over.
     */
    static method ConfigurePlugs(plugs: seq<PlugEntry>, kind: SourceKind, hub: Option<HubConfig>, entropy: seq<bv8>)
      returns (instances: seq<PlugInstance>, rest: seq<bv8>)
      requires |entropy| >= EntropyNeeded(plugs)
      ensures |instances| == |Kept(plugs)|
      ensures rest == entropy[EntropyNeeded(plugs)..]
      ensures forall k :: 0 <= k < |instances| ==> fresh(instances[k])
      ensures forall k :: 0 <= k < |instances| ==> instances[k].ConfiguredFrom(Kept(plugs)[k], kind, hub)
    {
      instances := [];
      var used := 0;
      ghost var kept: seq<PlugEntry> := [];
      var i := 0;
      while i < |plugs|
        invariant 0 <= i <= |plugs|
        invariant used == EntropyNeeded(plugs[..i]) && used + EntropyNeeded(plugs[i..]) == EntropyNeeded(plugs)
        invariant kept == Kept(plugs[..i]) && |instances| == |kept|
        invariant forall k :: 0 <= k < |instances| ==> fresh(instances[k])
        invariant forall k :: 0 <= k < |instances| ==> instances[k].ConfiguredFrom(kept[k], kind, hub)
      {
        EntropyStep(plugs, i);
        instances, kept := ConfigureNext(plugs, kind, hub, entropy[used..], i, instances, kept);
        used := used + PlugEntropy(plugs[i]);
        i := i + 1;
      }
      rest := entropy[used..];
      assert plugs[..i] == plugs;
    }
  }
}
