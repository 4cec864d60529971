/**
 * The SenseLink responder: `keys_exist`, building the plug registry from the
 * parsed configuration, and the loop that answers Sense energy-monitor
 * queries on behalf of every registered plug.
 *
 * The UDP endpoints are not modelled as I/O: opening the remote endpoint sets
 * `remoteEp`, and every datagram handed to it is appended to the ghost log
 * `sent`. The cipher, the JSON serialiser, `safekey` and the data sources'
 * readings are parameters whose bodies are not part of this model.
 */
module SenseLinks {
  import opened Wrappers
  import opened Text
  import opened JsonValues
  import opened PlugInstances

  // ---------------------------------------------------------------------
  // keys_exist
  // ---------------------------------------------------------------------

  /**
   * What `keys_exist(element, *keys)` returns (`Ok`) or raises (`Err`):
   * AttributeError for a non-dict element or no keys, False on the first
   * KeyError, and the TypeError of subscripting a non-dict, which it does
   * not catch.
   */
  function PathPresent(element: Json, keys: seq<string>): (r: Result<bool, Raised>)
    ensures r == Ok(true) ==> Descend(element, keys).Reached?
  {
    if !element.JObject? then Err(AttributeError)
    else if keys == [] then Err(AttributeError)
    else
      match Descend(element, keys)
      case Reached(_) => Ok(true)
      case KeyMissing(_) => Ok(false)
      case NotSubscriptable => Err(TypeError)
  }

  /** `keys_exist` walks the path one subscript at a time. */
  method KeysExist(element: Json, keys: seq<string>) returns (r: Result<bool, Raised>)
    ensures r == PathPresent(element, keys)
  {
    if !element.JObject? {
      return Err(AttributeError);
    }
    if |keys| == 0 {
      return Err(AttributeError);
    }
    var current := element;
    var i := 0;
    while i < |keys|
      invariant 0 <= i <= |keys|
      invariant Descend(element, keys) == Descend(current, keys[i..])
    {
      assert keys[i..][0] == keys[i] && keys[i..][1..] == keys[i + 1..];
      match current {
        case JObject(m) =>
          if keys[i] !in m {
            return Ok(false);
          }
          current := m[keys[i]];
        case _ =>
          return Err(TypeError);
      }
      i := i + 1;
    }
    assert keys[i..] == [];
    return Ok(true);
  }

  /** `keys_exist` is True exactly when the element is a dict, keys are given and every subscript in turn finds its key. */
  lemma PathPresentIffEveryStep(element: Json, keys: seq<string>)
    ensures PathPresent(element, keys) == Ok(true) <==>
      element.JObject? && keys != [] && forall i :: 0 <= i < |keys| ==> StepSucceeds(element, keys, i)
  {
    ReachedIffEveryStep(element, keys);
  }

  /** `keys_exist` is False exactly when some subscript misses its key after every earlier one succeeded. */
  lemma PathPresentIffFirstMiss(element: Json, keys: seq<string>)
    ensures PathPresent(element, keys) == Ok(false) <==>
      element.JObject? && exists i: nat :: i < |keys| && FirstMissAt(element, keys, keys[i], i)
  {
    if element.JObject? && keys != [] {
      var d := Descend(element, keys);
      if d.KeyMissing? {
        KeyMissingIffFirstMiss(element, keys, d.key);
        var i: nat :| FirstMissAt(element, keys, d.key, i);
        assert i < |keys| && FirstMissAt(element, keys, keys[i], i);
      }
      if exists i: nat :: i < |keys| && FirstMissAt(element, keys, keys[i], i) {
        var i: nat :| i < |keys| && FirstMissAt(element, keys, keys[i], i);
        KeyMissingIffFirstMiss(element, keys, keys[i]);
      }
    }
  }

  /** `keys_exist` raises exactly for a non-dict element, no keys, or a non-dict met on the way. */
  lemma PathPresentRaises(element: Json, keys: seq<string>)
    ensures PathPresent(element, keys) == Err(AttributeError) <==> !element.JObject? || keys == []
    ensures PathPresent(element, keys) == Err(TypeError) <==>
      element.JObject? && keys != [] && Descend(element, keys) == NotSubscriptable
    ensures PathPresent(element, keys).Err? ==> PathPresent(element, keys).error in {AttributeError, TypeError}
  {
  }

  // ---------------------------------------------------------------------
  // Classifying a datagram
  // ---------------------------------------------------------------------

  const RealtimePath: seq<string> := ["emeter", "get_realtime"]
  const SysinfoPath: seq<string> := ["system", "get_sysinfo"]
  /** The argument the loop passes to `safekey`. */
  const RealtimeKey: string := "emeter/get_realtime"

  datatype Kind =
    | Query      // a Sense broadcast: answer it
    | SelfEcho   // a non-empty `get_realtime`, i.e. one of our own replies: skip it
    | Unhandled  // anything else: log it

  /**
   * The test at the top of the loop: both paths through `keys_exist` (the
   * second only when the first holds), then the self-echo guard on
   * `safekey(json_data, 'emeter/get_realtime')`. `Err` is an exception that
   * escapes the loop.
   */
  function Classify(j: Json, safekey: (Json, string) -> Json): (r: Result<Kind, Raised>)
    ensures r == Ok(Query) ==> !Truthy(safekey(j, RealtimeKey))
  {
    match PathPresent(j, RealtimePath)
    case Err(e) => Err(e)
    case Ok(false) => Ok(Unhandled)
    case Ok(true) =>
      match PathPresent(j, SysinfoPath)
      case Err(e) => Err(e)
      case Ok(false) => Ok(Unhandled)
      case Ok(true) => if Truthy(safekey(j, RealtimeKey)) then Ok(SelfEcho) else Ok(Query)
  }

  /** The test as the loop runs it, through `keys_exist`. */
  method ClassifyMessage(j: Json, safekey: (Json, string) -> Json) returns (r: Result<Kind, Raised>)
    ensures r == Classify(j, safekey)
  {
    var hasRealtime := KeysExist(j, RealtimePath);
    if hasRealtime.Err? {
      return Err(hasRealtime.error);
    }
    if !hasRealtime.value {
      return Ok(Unhandled);
    }
    var hasSysinfo := KeysExist(j, SysinfoPath);
    if hasSysinfo.Err? {
      return Err(hasSysinfo.error);
    }
    if !hasSysinfo.value {
      return Ok(Unhandled);
    }
    if Truthy(safekey(j, RealtimeKey)) {
      return Ok(SelfEcho);
    }
    return Ok(Query);
  }

  /** A datagram is answered exactly when it is a dict holding both paths whose `get_realtime` is empty. */
  lemma QueryIff(j: Json, safekey: (Json, string) -> Json)
    ensures Classify(j, safekey) == Ok(Query) <==>
      && j.JObject?
      && (forall i :: 0 <= i < |RealtimePath| ==> StepSucceeds(j, RealtimePath, i))
      && (forall i :: 0 <= i < |SysinfoPath| ==> StepSucceeds(j, SysinfoPath, i))
      && !Truthy(safekey(j, RealtimeKey))
  {
    PathPresentIffEveryStep(j, RealtimePath);
    PathPresentIffEveryStep(j, SysinfoPath);
  }

  /** A dict missing `emeter/get_realtime`, or holding it but missing `system/get_sysinfo`, is logged and not answered. */
  lemma MissingPathUnhandled(j: Json, safekey: (Json, string) -> Json, i: nat)
    requires j.JObject?
    requires || (i < |RealtimePath| && FirstMissAt(j, RealtimePath, RealtimePath[i], i))
             || (Descend(j, RealtimePath).Reached? && i < |SysinfoPath| && FirstMissAt(j, SysinfoPath, SysinfoPath[i], i))
    ensures Classify(j, safekey) == Ok(Unhandled)
  {
    PathPresentIffFirstMiss(j, RealtimePath);
    PathPresentIffFirstMiss(j, SysinfoPath);
  }

  /** `safekey` follows the slash-separated path wherever the path can be followed. */
  ghost predicate SafeKeyFollowsPath(safekey: (Json, string) -> Json) {
    forall j: Json :: Descend(j, RealtimePath).Reached? ==> safekey(j, RealtimeKey) == Descend(j, RealtimePath).value
  }

  /** The path lookup `JsonValues.SafeKey` is one such `safekey`. */
  lemma {:induction false} SafeKeyLookupFollowsPath()
    ensures SafeKeyFollowsPath((j, path) => SafeKey(j, path))
  {
    RealtimeKeySplits();
  }

  lemma {:induction false} RealtimeKeySplits()
    ensures Split(RealtimeKey, '/') == RealtimePath
  {
    var front, back := "emeter", "get_realtime";
    assert RealtimeKey == front + ['/'] + back;
    SplitPair(front, back, '/');
  }

  lemma SplitPair(front: string, back: string, sep: char)
    requires sep !in front && sep !in back
    ensures Split(front + [sep] + back, sep) == [front, back]
  {
    SplitWithoutSeparator(back, sep);
    SplitAtFirstSeparator(front, back, sep);
  }

  /**
   * The loop-storm guard: a reply this program sends, received back, is a
   * self-echo and is not answered, because its `get_realtime` is a
   * non-empty dict.
   */
  lemma ReplyIsSelfEcho(mac: string, deviceId: string, alias: string, reading: Reading, onTime: real,
                        safekey: (Json, string) -> Json)
    requires SafeKeyFollowsPath(safekey)
    ensures Classify(BuildResponse(mac, deviceId, alias, reading, onTime), safekey) == Ok(SelfEcho)
  {
    var r := BuildResponse(mac, deviceId, alias, reading, onTime);
    ResponseRealtime(mac, deviceId, alias, reading, onTime);
    ResponseSysinfo(mac, deviceId, alias, reading, onTime);
    assert "current" in Descend(r, RealtimePath).value.members;
  }

  /** The query a Sense monitor broadcasts: both paths, with empty dicts. */
  const SenseBroadcast: Json :=
    JObject(map["emeter" := JObject(map["get_realtime" := JObject(map[])]),
                "system" := JObject(map["get_sysinfo" := JObject(map[])])])

  lemma SenseBroadcastIsQuery(safekey: (Json, string) -> Json)
    requires SafeKeyFollowsPath(safekey)
    ensures Classify(SenseBroadcast, safekey) == Ok(Query)
  {
    DescendTwoKeys(SenseBroadcast, "emeter", "get_realtime");
    DescendTwoKeys(SenseBroadcast, "system", "get_sysinfo");
  }

  // ---------------------------------------------------------------------
  // One datagram
  // ---------------------------------------------------------------------

  /** The address a reply goes to: the querying host and the server's port. */
  datatype Endpoint = Endpoint(host: string, port: int)

  /** One datagram handed to the remote endpoint. */
  datatype Send = Send(to: Endpoint, frame: seq<bv8>)

  /**
   * A received datagram after decryption: the sender's host, what
   * `json.loads` made of it (`None` where it raised ValueError), the clock
   * reading while it is answered, and what each data source reports then.
   */
  datatype Datagram = Datagram(host: string, payload: Option<Json>, now: real, sample: DataSource -> Reading)

  /** How one pass of the loop ends. */
  datatype Outcome =
    | Answered     // a genuine query: every plug replied
    | Skipped      // a self-echo
    | Logged       // an unhandled message
    | Returned     // not JSON: the loop returns
    | Escaped(error: Raised) // an exception escapes the loop

  predicate Continues(o: Outcome) {
    o.Answered? || o.Skipped? || o.Logged?
  }

  /** The outcome of one pass, by the payload alone. */
  function Verdict(payload: Option<Json>, safekey: (Json, string) -> Json): (o: Outcome)
    ensures o == Returned <==> payload.None?
    ensures o == Answered <==> payload.Some? && Classify(payload.value, safekey) == Ok(Query)
    ensures o.Escaped? <==> payload.Some? && Classify(payload.value, safekey).Err?
    ensures o.Escaped? ==> payload.Some? && Classify(payload.value, safekey) == Err(o.error)
  {
    match payload
    case None => Returned
    case Some(j) =>
      match Classify(j, safekey)
      case Err(e) => Escaped(e)
      case Ok(Query) => Answered
      case Ok(SelfEcho) => Skipped
      case Ok(Unhandled) => Logged
  }

  /**
   * How many datagrams of `msgs` the loop gets through before it stops: the
   * index of the first non-JSON datagram or the first one whose handling
   * raises, or `|msgs|` when there is none.
   */
  function Stop(msgs: seq<Datagram>, safekey: (Json, string) -> Json): (n: nat)
    ensures n <= |msgs|
    ensures forall k :: 0 <= k < n ==> Continues(Verdict(msgs[k].payload, safekey))
    ensures n < |msgs| ==> !Continues(Verdict(msgs[n].payload, safekey))
    decreases |msgs|
  {
    if msgs == [] || !Continues(Verdict(msgs[0].payload, safekey)) then 0
    else 1 + Stop(msgs[1..], safekey)
  }

  /** `Stop` is the first index at which the loop stops, when every earlier datagram lets it go on. */
  lemma {:induction false} StopAt(msgs: seq<Datagram>, safekey: (Json, string) -> Json, n: nat)
    requires n <= |msgs|
    requires forall k :: 0 <= k < n ==> Continues(Verdict(msgs[k].payload, safekey))
    requires n < |msgs| ==> !Continues(Verdict(msgs[n].payload, safekey))
    ensures Stop(msgs, safekey) == n
    decreases n
  {
    if n > 0 {
      StopAt(msgs[1..], safekey, n - 1);
    }
  }

  /** `encrypted_str[4:]`: the encrypted reply without its first four bytes. */
  function Trim(s: seq<bv8>): (r: seq<bv8>)
    ensures |s| >= 4 ==> |r| == |s| - 4 && s == s[..4] + r
    ensures |s| < 4 ==> r == []
  {
    if |s| >= 4 then s[4..] else []
  }

  /** When the cipher puts a four-byte header in front of the ciphertext, the trim removes exactly that header. */
  lemma TrimDropsHeader(header: seq<bv8>, body: seq<bv8>)
    requires |header| == 4
    ensures Trim(header + body) == body
  {
    assert (header + body)[4..] == body;
  }

  /** A cipher whose output is four bytes longer than its input, like the length-prefixed TCP framing. */
  ghost predicate LengthPrefixed(encrypt: string -> seq<bv8>) {
    forall text: string :: |encrypt(text)| == |text| + 4
  }

  /**
   * The frame a plug sends for a query answered at `now`: its response,
   * serialised, encrypted and trimmed.
   */
  function FrameFor(now: real, sample: DataSource -> Reading, encrypt: string -> seq<bv8>, dumps: Json -> string)
    : PlugSnapshot -> seq<bv8>
  {
    (s: PlugSnapshot) => Trim(encrypt(dumps(BuildResponse(s.mac, s.deviceId, s.alias, sample(s.source), now - s.startTime))))
  }

  /** The datagrams of one answered query, one per snapshot, in order. */
  function RepliesOf(snaps: seq<PlugSnapshot>, to: Endpoint, frame: PlugSnapshot -> seq<bv8>): (r: seq<Send>)
    ensures |r| == |snaps|
    decreases |snaps|
  {
    if snaps == [] then []
    else
      var n := |snaps| - 1;
      RepliesOf(snaps[..n], to, frame) + [Send(to, frame(snaps[n]))]
  }

  /** Every datagram goes to `to`, the `k`-th carrying the `k`-th plug's frame. */
  lemma {:induction false} RepliesOfElements(snaps: seq<PlugSnapshot>, to: Endpoint, frame: PlugSnapshot -> seq<bv8>)
    ensures forall k :: 0 <= k < |snaps| ==> RepliesOf(snaps, to, frame)[k] == Send(to, frame(snaps[k]))
    decreases |snaps|
  {
    if snaps != [] {
      var n := |snaps| - 1;
      RepliesOfElements(snaps[..n], to, frame);
    }
  }

  /** `start_time` after a query: set to the server's start only when it was None. */
  function Latch(startTime: Option<real>, serverStart: real): (r: Option<real>)
    ensures r.Some?
    ensures startTime.Some? ==> r == startTime
  {
    if startTime.None? then Some(serverStart) else startTime
  }

  /** Every plug has a data source: what `generate_response` needs to sample a reading. */
  predicate Sourced(plugs: seq<PlugInstance>)
    reads plugs
  {
    forall k :: 0 <= k < |plugs| ==> plugs[k].dataSource.Some?
  }

  /**
   * What plug `p` puts in its reply to a query answered by a server started at
   * `serverStart`: its identity, its data source and its latched start time.
   */
  function LatchedSnapshot(p: PlugInstance, serverStart: real): PlugSnapshot
    reads p
    requires p.dataSource.Some?
  {
    PlugSnapshot(p.mac, p.deviceId, p.alias, Latch(p.startTime, serverStart).value, p.dataSource.value)
  }

  function Latched(plugs: seq<PlugInstance>, serverStart: real): (r: seq<PlugSnapshot>)
    reads plugs
    requires Sourced(plugs)
    ensures |r| == |plugs|
    ensures forall k :: 0 <= k < |plugs| ==> r[k] == LatchedSnapshot(plugs[k], serverStart)
  {
    if plugs == [] then [] else [LatchedSnapshot(plugs[0], serverStart)] + Latched(plugs[1..], serverStart)
  }

  /** The datagrams the registry's plugs send for one query, given their state before it. */
  function Replies(plugs: seq<PlugInstance>, serverStart: real, to: Endpoint, now: real, sample: DataSource -> Reading,
                   encrypt: string -> seq<bv8>, dumps: Json -> string): seq<Send>
    reads plugs
    requires Sourced(plugs)
  {
    RepliesOf(Latched(plugs, serverStart), to, FrameFor(now, sample, encrypt, dumps))
  }

  /**
   * Each plug's datagram is its own reply: reply `k` of a query goes to the
   * querier and carries plug `k`'s frame, built from its latched snapshot.
   */
  lemma ReplyOfPlug(plugs: seq<PlugInstance>, serverStart: real, to: Endpoint, now: real,
                    sample: DataSource -> Reading, encrypt: string -> seq<bv8>, dumps: Json -> string, k: nat)
    requires Sourced(plugs) && k < |plugs|
    ensures Replies(plugs, serverStart, to, now, sample, encrypt, dumps)[k] ==
            Send(to, FrameFor(now, sample, encrypt, dumps)(LatchedSnapshot(plugs[k], serverStart)))
  {
    RepliesOfElements(Latched(plugs, serverStart), to, FrameFor(now, sample, encrypt, dumps));
  }

  /**
   * A plug's frame is the response `generate_response` builds from the
   * plug's identity, its data source's reading and the on-time measured from
   * its latched start time, serialised and encrypted, less its first four
   * bytes; with a length-prefixed cipher it is as long as the JSON text.
   */
  lemma FrameIsSealedResponse(s: PlugSnapshot, now: real, sample: DataSource -> Reading,
                              encrypt: string -> seq<bv8>, dumps: Json -> string)
    ensures var sealed := encrypt(dumps(BuildResponse(s.mac, s.deviceId, s.alias, sample(s.source), now - s.startTime)));
      && FrameFor(now, sample, encrypt, dumps)(s) == Trim(sealed)
      && (|sealed| >= 4 ==> |FrameFor(now, sample, encrypt, dumps)(s)| == |sealed| - 4)
      && (LengthPrefixed(encrypt) ==>
            |FrameFor(now, sample, encrypt, dumps)(s)| ==
            |dumps(BuildResponse(s.mac, s.deviceId, s.alias, sample(s.source), now - s.startTime))|)
  {
  }

  // ---------------------------------------------------------------------
  // The configuration
  // ---------------------------------------------------------------------

  /** The dict under a source's key; `None` marks a key that is absent. */
  datatype SourceBlock = SourceBlock(plugs: Option<seq<PlugEntry>>, url: Option<string>, authToken: Option<string>)

  /** One element of `sources`: a dict with the single key `tag`, whose value may be None. */
  datatype SourceEntry = SourceEntry(tag: string, block: Option<SourceBlock>)

  /** A plug entry together with the data source it is to be bound to. */
  datatype Binding = Binding(entry: PlugEntry, kind: SourceKind, hub: Option<HubConfig>)

  function Bind(plugs: seq<PlugEntry>, kind: SourceKind, hub: Option<HubConfig>): (r: seq<Binding>)
    ensures |r| == |Kept(plugs)|
    ensures forall k :: 0 <= k < |r| ==> r[k] == Binding(Kept(plugs)[k], kind, hub)
  {
    seq(|Kept(plugs)|, k requires 0 <= k < |Kept(plugs)| => Binding(Kept(plugs)[k], kind, hub))
  }

  /** A binding is made for exactly the listed entries whose details are not None, each with the source's kind and hub. */
  lemma BindMembers(plugs: seq<PlugEntry>, kind: SourceKind, hub: Option<HubConfig>, b: Binding)
    ensures b in Bind(plugs, kind, hub) <==> b.entry in plugs && b.entry.details.Some? && b.kind == kind && b.hub == hub
  {
    var r := Bind(plugs, kind, hub);
    if b.entry in Kept(plugs) && b.kind == kind && b.hub == hub {
      var k :| 0 <= k < |Kept(plugs)| && Kept(plugs)[k] == b.entry;
      assert r[k] == b;
    }
  }

  /**
   * What one source contributes, or the exception it raises. The tag is
   * compared case-insensitively but the block is then looked up under the
   * lower-case literal, and a None block is subscripted all the same.
   */
  function SourcePlan(s: SourceEntry): Result<seq<Binding>, Raised> {
    var tag := Lower(s.tag);
    if tag == "static" then
      if s.tag != "static" then Err(KeyError("static"))
      else if s.block.None? then Err(TypeError)
      else if s.block.value.plugs.None? then Err(KeyError("plugs"))
      else Ok(Bind(s.block.value.plugs.value, StaticSource, None))
    else if tag == "hass" then
      if s.tag != "hass" then Err(KeyError("hass"))
      else if s.block.None? then Err(TypeError)
      else if s.block.value.url.None? then Err(KeyError("url"))
      else if s.block.value.authToken.None? then Err(KeyError("auth_token"))
      else if s.block.value.plugs.None? then Err(KeyError("plugs"))
      else
        var b := s.block.value;
        Ok(Bind(b.plugs.value, HassSource, Some(HubConfig(b.url.value, b.authToken.value))))
    else Ok([])
  }

  /**
   * The outcomes of one source. An unrecognised tag adds nothing. A
   * recognised tag written in any other case raises KeyError on its
   * lower-case spelling. TypeError arises exactly when the block under an
   * exact tag is None. Plugs are only ever added under an exact tag.
   */
  lemma SourceOutcomes(s: SourceEntry)
    ensures Lower(s.tag) != "static" && Lower(s.tag) != "hass" ==> SourcePlan(s) == Ok([])
    ensures (Lower(s.tag) == "static" || Lower(s.tag) == "hass") && s.tag != Lower(s.tag) ==>
              SourcePlan(s) == Err(KeyError(Lower(s.tag)))
    ensures SourcePlan(s) == Err(TypeError) <==> (s.tag == "static" || s.tag == "hass") && s.block.None?
    ensures SourcePlan(s).Ok? && SourcePlan(s).value != [] ==> (s.tag == "static" || s.tag == "hass") && s.block.Some?
  {
    if s.tag == "static" || s.tag == "hass" {
      assert forall k :: 0 <= k < |s.tag| ==> !('A' <= s.tag[k] <= 'Z');
      assert Lower(s.tag) == s.tag;
    }
  }

  /** The plugs a whole configuration registers, in order, and the exception that stops it, if any. */
  datatype Plan = Plan(bindings: seq<Binding>, failure: Option<Raised>)

  function PlanOf(config: seq<SourceEntry>): (p: Plan)
  {
    if config == [] then Plan([], None)
    else
      match SourcePlan(config[0])
      case Err(e) => Plan([], Some(e))
      case Ok(bs) =>
        var rest := PlanOf(config[1..]);
        Plan(bs + rest.bindings, rest.failure)
  }

  /** A configuration fails exactly when one of its sources raises, and then with the first such exception. */
  lemma {:induction false} PlanFailsAtFirstRaise(config: seq<SourceEntry>)
    ensures PlanOf(config).failure.None? <==> forall i :: 0 <= i < |config| ==> SourcePlan(config[i]).Ok?
    ensures PlanOf(config).failure.Some? ==>
      exists i :: 0 <= i < |config| && SourcePlan(config[i]) == Err(PlanOf(config).failure.value) &&
        forall j :: 0 <= j < i ==> SourcePlan(config[j]).Ok?
    decreases |config|
  {
    if config != [] {
      var rest := config[1..];
      PlanFailsAtFirstRaise(rest);
      if SourcePlan(config[0]).Ok? && PlanOf(config).failure.Some? {
        var i :| 0 <= i < |rest| && SourcePlan(rest[i]) == Err(PlanOf(rest).failure.value) &&
          forall j :: 0 <= j < i ==> SourcePlan(rest[j]).Ok?;
        FirstRaiseShifts(config, i);
      }
      if SourcePlan(config[0]).Ok? && PlanOf(config).failure.None? {
        forall i | 0 <= i < |config| ensures SourcePlan(config[i]).Ok? {
          if i > 0 { assert config[i] == rest[i - 1]; }
        }
      }
    }
  }

  /** A first raise at index `i` of the tail, after a head that succeeds, is a first raise at `i + 1`. */
  lemma FirstRaiseShifts(config: seq<SourceEntry>, i: nat)
    requires 0 < |config| && i < |config| - 1 && SourcePlan(config[0]).Ok?
    requires forall j :: 0 <= j < i ==> SourcePlan(config[1..][j]).Ok?
    ensures SourcePlan(config[i + 1]) == SourcePlan(config[1..][i])
    ensures forall j :: 0 <= j < i + 1 ==> SourcePlan(config[j]).Ok?
  {
    forall j | 0 <= j < i + 1 ensures SourcePlan(config[j]).Ok? {
      if j > 0 { assert config[j] == config[1..][j - 1]; }
    }
  }

  /** Sources are processed in order: a later source only adds after an earlier one, and nothing runs after a failure. */
  lemma {:induction false} PlanAppend(a: seq<SourceEntry>, b: seq<SourceEntry>)
    ensures PlanOf(a + b) ==
      if PlanOf(a).failure.Some? then PlanOf(a)
      else Plan(PlanOf(a).bindings + PlanOf(b).bindings, PlanOf(b).failure)
  {
    if a == [] {
      assert a + b == b;
    } else {
      assert (a + b)[0] == a[0];
      assert (a + b)[1..] == a[1..] + b;
      PlanAppend(a[1..], b);
      match SourcePlan(a[0])
      case Err(_) =>
      case Ok(bs) =>
        assert bs + (PlanOf(a[1..]).bindings + PlanOf(b).bindings) ==
               (bs + PlanOf(a[1..]).bindings) + PlanOf(b).bindings;
    }
  }

  /** A source whose tag is neither static nor hass adds no plug and raises nothing. */
  lemma {:induction false} UnrecognisedSourceAddsNone(s: SourceEntry, config: seq<SourceEntry>)
    requires Lower(s.tag) != "static" && Lower(s.tag) != "hass"
    ensures PlanOf([s] + config) == PlanOf(config)
  {
    assert ([s] + config)[0] == s;
    assert ([s] + config)[1..] == config;
    assert SourcePlan(s) == Ok([]);
    assert [] + PlanOf(config).bindings == PlanOf(config).bindings;
  }

  /** Random bytes the plugs of one source may draw. */
  function SourceEntropy(s: SourceEntry): nat {
    if s.block.Some? && s.block.value.plugs.Some? then EntropyNeeded(s.block.value.plugs.value) else 0
  }

  lemma AppendAssociates<T>(a: seq<T>, b: seq<T>, c: seq<T>)
    ensures (a + b) + c == a + (b + c)
  {
  }

  lemma AppendEmpty<T>(a: seq<T>, b: seq<T>)
    requires b == []
    ensures a + b == a
  {
  }

  lemma WholePrefix<T>(s: seq<T>, i: nat)
    requires i == |s|
    ensures s[..i] == s
  {
  }

  predicate BuiltFrom(p: PlugInstance, b: Binding)
    reads p
  {
    p.BoundTo(b.entry, b.kind, b.hub)
  }

  /** Instance `k` of `ps` was configured from binding `k` of `bs`, and there is one instance per binding. */
  predicate BuiltAll(ps: seq<PlugInstance>, bs: seq<Binding>)
    reads ps
    decreases |ps|
  {
    |ps| == |bs| && (ps == [] || (BuiltFrom(ps[0], bs[0]) && BuiltAll(ps[1..], bs[1..])))
  }

  lemma {:induction false} BuiltAllAt(ps: seq<PlugInstance>, bs: seq<Binding>, k: nat)
    requires BuiltAll(ps, bs) && k < |ps|
    ensures |ps| == |bs| && BuiltFrom(ps[k], bs[k])
    decreases k
  {
    if k > 0 {
      BuiltAllAt(ps[1..], bs[1..], k - 1);
    }
  }

  lemma {:induction false} BuiltAllOfEach(ps: seq<PlugInstance>, bs: seq<Binding>)
    requires |ps| == |bs| && forall k :: 0 <= k < |ps| ==> BuiltFrom(ps[k], bs[k])
    ensures BuiltAll(ps, bs)
    decreases |ps|
  {
    if ps != [] {
      assert forall k :: 0 <= k < |ps| - 1 ==> ps[1..][k] == ps[k + 1] && bs[1..][k] == bs[k + 1];
      BuiltAllOfEach(ps[1..], bs[1..]);
    }
  }

  lemma {:induction false} BuiltAllAppend(ps: seq<PlugInstance>, qs: seq<PlugInstance>, bs: seq<Binding>, cs: seq<Binding>)
    requires BuiltAll(ps, bs) && BuiltAll(qs, cs)
    ensures BuiltAll(ps + qs, bs + cs)
    decreases |ps|
  {
    if ps == [] {
      assert ps + qs == qs && bs + cs == cs;
    } else {
      BuiltAllAppend(ps[1..], qs, bs[1..], cs);
      assert (ps + qs)[1..] == ps[1..] + qs;
      assert (bs + cs)[1..] == bs[1..] + cs;
    }
  }

  /** A source that succeeds after a clean prefix adds its bindings to the plan. */
  lemma PlanExtends(config: seq<SourceEntry>, i: nat)
    requires i < |config| && PlanOf(config[..i]).failure.None? && SourcePlan(config[i]).Ok?
    ensures PlanOf(config[..i + 1]) == Plan(PlanOf(config[..i]).bindings + SourcePlan(config[i]).value, None)
  {
    assert config[..i + 1] == config[..i] + [config[i]];
    PlanAppend(config[..i], [config[i]]);
    assert [config[i]][1..] == [];
    assert SourcePlan(config[i]).value + [] == SourcePlan(config[i]).value;
  }

  /** A source that raises after a clean prefix ends the plan with that exception. */
  lemma PlanStops(config: seq<SourceEntry>, i: nat)
    requires i < |config| && PlanOf(config[..i]).failure.None? && SourcePlan(config[i]).Err?
    ensures PlanOf(config) == Plan(PlanOf(config[..i]).bindings, Some(SourcePlan(config[i]).error))
  {
    PlanAppend(config[..i], config[i..]);
    assert config[i..][0] == config[i];
    assert config[..i] + config[i..] == config;
    assert PlanOf(config[..i]).bindings + [] == PlanOf(config[..i]).bindings;
  }

  /**
   * One source of `create_instances` that succeeds after a clean prefix: the
   * registry built so far, extended by that source's plugs, is built from the
   * longer prefix.
   */
  lemma CreationStep(config: seq<SourceEntry>, i: nat, built: seq<PlugInstance>, more: seq<PlugInstance>)
    requires i < |config| && PlanOf(config[..i]).failure.None? && SourcePlan(config[i]).Ok?
    requires BuiltAll(built, PlanOf(config[..i]).bindings)
    requires BuiltAll(more, SourcePlan(config[i]).value)
    ensures PlanOf(config[..i + 1]).failure.None?
    ensures BuiltAll(built + more, PlanOf(config[..i + 1]).bindings)
  {
    PlanExtends(config, i);
    BuiltAllAppend(built, more, PlanOf(config[..i]).bindings, SourcePlan(config[i]).value);
  }

  // ---------------------------------------------------------------------
  // The registry and the responder
  // ---------------------------------------------------------------------

  /**
   * The fan-out of one answered query, in registry order: latch each plug's
   * start time if it is unset, build its frame (`frame` is the pipeline of
   * `generate_response`, `json.dumps`, `encrypt` and the trim), and keep it
   * for `to` when `respond` is set.
   */
  method FanOut(plugs: seq<PlugInstance>, to: Endpoint, respond: bool, serverStart: real,
                frame: PlugSnapshot -> seq<bv8>)
    returns (replies: seq<Send>)
    requires Sourced(plugs)
    modifies plugs`startTime
    ensures forall p :: p in plugs ==> p.startTime == Latch(old(p.startTime), serverStart)
    ensures replies == if respond then old(RepliesOf(Latched(plugs, serverStart), to, frame)) else []
  {
    replies := [];
    ghost var snaps: seq<PlugSnapshot> := [];
    var i := 0;
    while i < |plugs|
      invariant 0 <= i <= |plugs| && |snaps| == i
      invariant forall k :: 0 <= k < |plugs| ==> Latch(plugs[k].startTime, serverStart) == Latch(old(plugs[k].startTime), serverStart)
      invariant forall k :: 0 <= k < i ==> plugs[k].startTime.Some?
      invariant forall k :: 0 <= k < i ==> snaps[k] == old(LatchedSnapshot(plugs[k], serverStart))
      invariant |replies| == if respond then i else 0
      invariant forall k :: 0 <= k < |replies| ==> replies[k] == Send(to, frame(snaps[k]))
    {
      var p := plugs[i];
      if p.startTime.None? {
        p.startTime := Some(serverStart);
      }
      var s := PlugSnapshot(p.mac, p.deviceId, p.alias, p.startTime.value, p.dataSource.value);
      if respond {
        replies := replies + [Send(to, frame(s))];
      }
      snaps := snaps + [s];
      i := i + 1;
    }
    assert snaps == old(Latched(plugs, serverStart));
    RepliesOfElements(snaps, to, frame);
  }

  /** The class-level `_instances` list, shared by every SenseLink object. */
  class Registry {
    var instances: seq<PlugInstance>

    constructor ()
      ensures instances == []
    {
      instances := [];
    }

    /** Every registered plug has its data source, as `configure_plugs` leaves it. */
    predicate Configured()
      reads this, instances
    {
      Sourced(instances)
    }
  }

  class SenseLink {
    const registry: Registry
    const port: int
    /** `_remote_ep`: opened on the first genuine query. */
    var remoteEp: Option<Endpoint>
    var shouldRespond: bool
    /** Every datagram handed to the remote endpoint, in order. */
    ghost var sent: seq<Send>

    constructor (registry: Registry, port: int)
      ensures this.registry == registry && this.port == port
      ensures remoteEp == None && shouldRespond && sent == []
    {
      this.registry := registry;
      this.port := port;
      remoteEp := None;
      shouldRespond := true;
      sent := [];
    }

    /**
     * One source of `create_instances`: the plugs it configures are appended
     * to the registry, or the exception it raises is returned.
     */
    method AddSource(s: SourceEntry, draw: seq<bv8>) returns (failure: Option<Raised>, ghost added: seq<PlugInstance>)
      requires |draw| >= SourceEntropy(s)
      modifies registry
      ensures failure.Some? <==> SourcePlan(s).Err?
      ensures failure.Some? ==> failure.value == SourcePlan(s).error && added == []
      ensures failure.None? ==> BuiltAll(added, SourcePlan(s).value)
      ensures failure.None? ==> forall k :: 0 <= k < |added| ==>
        var b := SourcePlan(s).value[k]; added[k].ConfiguredFrom(b.entry, b.kind, b.hub)
      ensures registry.instances == old(registry.instances) + added
      ensures fresh(added)
      ensures old(registry.Configured()) ==> registry.Configured()
    {
      var tag := Lower(s.tag);
      var kind: SourceKind;
      var hub: Option<HubConfig>;
      if tag == "static" {
        if s.tag != "static" {
          return Some(KeyError("static")), [];
        }
        if s.block.None? {
          return Some(TypeError), [];
        }
        kind, hub := StaticSource, None;
      } else if tag == "hass" {
        if s.tag != "hass" {
          return Some(KeyError("hass")), [];
        }
        if s.block.None? {
          return Some(TypeError), [];
        }
        if s.block.value.url.None? {
          return Some(KeyError("url")), [];
        }
        if s.block.value.authToken.None? {
          return Some(KeyError("auth_token")), [];
        }
        kind, hub := HassSource, Some(HubConfig(s.block.value.url.value, s.block.value.authToken.value));
      } else {
        return None, [];
      }
      if s.block.value.plugs.None? {
        return Some(KeyError("plugs")), [];
      }
      var plugs := s.block.value.plugs.value;
      var instances, _ := PlugInstance.ConfigurePlugs(plugs, kind, hub, draw);
      assert SourcePlan(s) == Ok(Bind(plugs, kind, hub));
      BuiltAllOfEach(instances, Bind(plugs, kind, hub));
      registry.instances := registry.instances + instances;
      failure, added := None, instances;
    }

    /**
     * `create_instances` over the parsed `sources` list, with `draws[i]` the
     * random bytes source `i` may use: the registry is extended source by
     * source, in order, until a source raises.
     */
    method CreateInstances(config: seq<SourceEntry>, draws: seq<seq<bv8>>)
      returns (failure: Option<Raised>, ghost added: seq<PlugInstance>)
      requires |draws| == |config|
      requires forall i {:trigger draws[i]} :: 0 <= i < |config| ==> |draws[i]| >= SourceEntropy(config[i])
      modifies registry
      ensures failure == PlanOf(config).failure
      ensures registry.instances == old(registry.instances) + added
      ensures BuiltAll(added, PlanOf(config).bindings)
      ensures forall p :: p in added ==> fresh(p)
      ensures old(registry.Configured()) ==> registry.Configured()
    {
      added := [];
      AppendEmpty(registry.instances, added);
      var i := 0;
      while i < |config|
        invariant 0 <= i <= |config|
        invariant PlanOf(config[..i]).failure == None
        invariant registry.instances == old(registry.instances) + added
        invariant BuiltAll(added, PlanOf(config[..i]).bindings)
        invariant forall p :: p in added ==> fresh(p)
        invariant old(registry.Configured()) ==> registry.Configured()
      {
        failure, added := AddNext(config, i, draws[i], old(registry.instances), added);
        if failure.Some? {
          return;
        }
        i := i + 1;
      }
      WholePrefix(config, i);
      failure := None;
    }

    /**
     * One iteration of the loop of `create_instances`, after every earlier
     * source succeeded: `built` are the plugs registered so far after `base`,
     * and `grown` are those registered after this source.
     */
    method AddNext(config: seq<SourceEntry>, i: nat, draw: seq<bv8>, ghost base: seq<PlugInstance>, ghost built: seq<PlugInstance>)
      returns (failure: Option<Raised>, ghost grown: seq<PlugInstance>)
      requires i < |config| && |draw| >= SourceEntropy(config[i])
      requires PlanOf(config[..i]).failure.None? && BuiltAll(built, PlanOf(config[..i]).bindings)
      requires registry.instances == base + built
      modifies registry
      ensures registry.instances == base + grown
      ensures forall p :: p in grown ==> p in built || fresh(p)
      ensures old(registry.Configured()) ==> registry.Configured()
      ensures failure.Some? ==> failure == PlanOf(config).failure && grown == built && BuiltAll(built, PlanOf(config).bindings)
      ensures failure.None? ==> PlanOf(config[..i + 1]).failure.None? && BuiltAll(grown, PlanOf(config[..i + 1]).bindings)
    {
      ghost var more;
      failure, more := AddSource(config[i], draw);
      grown := built + more;
      AppendAssociates(base, built, more);
      if failure.Some? {
        AppendEmpty(built, more);
        PlanStops(config, i);
      } else {
        CreationStep(config, i, built, more);
      }
    }

    /**
     * The answer to a genuine query: open the remote endpoint if it is not
     * open yet, then reply for every plug in registry order.
     */
    method Answer(host: string, now: real, serverStart: real,
                  sample: DataSource -> Reading, encrypt: string -> seq<bv8>, dumps: Json -> string)
      requires registry.Configured()
      modifies this`remoteEp, this`sent, registry.instances`startTime
      ensures remoteEp == if old(remoteEp).None? then Some(Endpoint(host, port)) else old(remoteEp)
      ensures forall p :: p in registry.instances ==> p.startTime == Latch(old(p.startTime), serverStart)
      ensures var to := remoteEp.value;
        sent == old(sent) + if shouldRespond then old(Replies(registry.instances, serverStart, to, now, sample, encrypt, dumps))
                            else []
    {
      var to := if remoteEp.Some? then remoteEp.value else Endpoint(host, port);
      var replies := FanOut(registry.instances, to, shouldRespond, serverStart, FrameFor(now, sample, encrypt, dumps));
      remoteEp := Some(to);
      sent := sent + replies;
    }

    /**
     * One pass of the `_serve` loop on a received datagram: classify it and
     * answer it when it is a genuine query.
     */
    method HandleDatagram(msg: Datagram, serverStart: real, safekey: (Json, string) -> Json,
                          encrypt: string -> seq<bv8>, dumps: Json -> string)
      returns (outcome: Outcome)
      requires registry.Configured()
      modifies this`remoteEp, this`sent, registry.instances`startTime
      ensures outcome == Verdict(msg.payload, safekey)
      ensures remoteEp == if outcome == Answered && old(remoteEp).None? then Some(Endpoint(msg.host, port))
                          else old(remoteEp)
      ensures forall p :: p in registry.instances ==>
        p.startTime == if outcome == Answered && old(p.startTime).None? then Some(serverStart) else old(p.startTime)
      ensures outcome != Answered ==> sent == old(sent)
      ensures outcome == Answered ==>
        var to := remoteEp.value;
        sent == old(sent) + if shouldRespond then old(Replies(registry.instances, serverStart, to, msg.now, msg.sample, encrypt, dumps))
                            else []
    {
      if msg.payload.None? {
        return Returned;
      }
      var kind := ClassifyMessage(msg.payload.value, safekey);
      match kind
      case Err(e) =>
        return Escaped(e);
      case Ok(Unhandled) =>
        return Logged;
      case Ok(SelfEcho) =>
        return Skipped;
      case Ok(Query) =>
        Answer(msg.host, msg.now, serverStart, msg.sample, encrypt, dumps);
        return Answered;
    }

    /** One pass of the `_serve` loop, as the loop sees it: the log only grows, the endpoint stays once opened, start times are only latched. */
    method Pass(msg: Datagram, serverStart: real, safekey: (Json, string) -> Json,
                encrypt: string -> seq<bv8>, dumps: Json -> string)
      returns (outcome: Outcome)
      requires registry.Configured()
      modifies this`remoteEp, this`sent, registry.instances`startTime
      ensures outcome == Verdict(msg.payload, safekey)
      ensures registry.Configured()
      ensures old(sent) <= sent
      ensures old(remoteEp).Some? ==> remoteEp == old(remoteEp)
      ensures forall p :: p in registry.instances ==>
        p.startTime == old(p.startTime) || (old(p.startTime).None? && p.startTime == Some(serverStart))
    {
      outcome := HandleDatagram(msg, serverStart, safekey, encrypt, dumps);
    }

    /**
     * The `_serve` loop over a finite stream of datagrams: it handles them in
     * order and stops at the first non-JSON one (`return True`) or the first
     * whose handling raises. `serverStart` is read once, before the loop.
     */
    method Serve(msgs: seq<Datagram>, serverStart: real, safekey: (Json, string) -> Json,
                 encrypt: string -> seq<bv8>, dumps: Json -> string)
      returns (handled: nat, last: Option<Outcome>)
      requires registry.Configured()
      modifies this`remoteEp, this`sent, registry.instances`startTime
      ensures handled == Stop(msgs, safekey)
      ensures last == if handled < |msgs| then Some(Verdict(msgs[handled].payload, safekey)) else None
      ensures old(sent) <= sent
      ensures old(remoteEp).Some? ==> remoteEp == old(remoteEp)
      ensures forall p :: p in registry.instances ==>
        p.startTime == old(p.startTime) || (old(p.startTime).None? && p.startTime == Some(serverStart))
    {
      handled, last := 0, None;
      while handled < |msgs|
        invariant handled <= |msgs|
        invariant forall k :: 0 <= k < handled ==> Continues(Verdict(msgs[k].payload, safekey))
        invariant registry.Configured()
        invariant old(sent) <= sent
        invariant old(remoteEp).Some? ==> remoteEp == old(remoteEp)
        invariant forall p :: p in registry.instances ==>
          p.startTime == old(p.startTime) || (old(p.startTime).None? && p.startTime == Some(serverStart))
      {
        var outcome := Pass(msgs[handled], serverStart, safekey, encrypt, dumps);
        if !Continues(outcome) {
          last := Some(outcome);
          StopAt(msgs, safekey, handled);
          return;
        }
        handled := handled + 1;
      }
      StopAt(msgs, safekey, handled);
    }
  }
}
