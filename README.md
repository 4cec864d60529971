# SenseLink responder: a Dafny model

SenseLink makes a Sense energy monitor see virtual TP-Link Kasa HS110 smart
plugs. It listens for the monitor's UDP broadcast and answers it once per
configured plug. Each answer is a `get_realtime` / `get_sysinfo` record that
carries the plug's identity and its current reading.

This project models the core of that responder:

- `keys_exist`, which walks a nested dict path (`sense_link.dfy`, module `SenseLinks`).
- `create_instances`, which builds the registry of plugs from the parsed `sources` list in order. The registry is the class-level `_instances` list, shared by every `SenseLink` object (`SenseLinks.Registry`).
- One pass of the `_serve` loop, and the loop itself over a finite stream of datagrams. A pass covers:
  - classification through `keys_exist`;
  - the self-echo guard on `safekey(json_data, 'emeter/get_realtime')`;
  - lazy opening of the remote endpoint;
  - latching each plug's `start_time`;
  - the fan-out: build, serialise, encrypt and drop the first four bytes, then send only when `should_respond` is set;
  - the two ways the loop ends: `return True` on non-JSON input, or an exception that escapes.
- `generate_mac` and its bit manipulation (`octets.dfy`, module `Octets`); `generate_deviceid`; the plug constructor with its defaults; `configure_plugs`; and the fixed-shape reply of `generate_response` (`plug_instance.dfy`, module `PlugInstances`).
- Supporting definitions:
  - Python values as a JSON datatype, with Python truthiness and subscripting (`json_values.dfy`);
  - hex formatting and parsing, `str.split` / `str.join` and ASCII case mapping (`text.dfy`);
  - `Option` / `Result` and the Python exceptions that can escape (`wrappers.dfy`).

Randomness is injected: every generator takes the bytes `random.randrange(256)`
would have produced. The loop's side effects are state:

- `remoteEp` is the cached `_remote_ep`.
- `sent` is a ghost log of every datagram handed to the remote endpoint.
- Each plug's `startTime` is a field of that plug's object.

The model keeps these behaviours of the code, which a reader might not expect:

- **Non-JSON input ends the loop.** `except ValueError: return True` leaves `_serve` rather than dropping the datagram (SenseLink.py:141-143). `Verdict` gives `Returned`, and `Serve` stops there.
- **A `static` or `hass` block that is None raises.** It is logged and then subscripted anyway, which raises TypeError (SenseLink.py:53-56, 64-66). `SourcePlan` gives `Err(TypeError)`, and `CreateInstances` stops at that source.
- **Tag spelling.** The tag is compared case-insensitively, but its block is looked up under the lower-case literal. A source tagged `Static` or `HASS` therefore raises KeyError (SenseLink.py:50-52, 61-63).
- **Non-dict values escape the loop.** `keys_exist` raises AttributeError for a non-dict payload and TypeError for a non-dict on the path. Neither is caught, because only ValueError is (SenseLink.py:103-143). The model reports these as `Escaped(e)`, and `Serve` stops.

## Model

| member | source | states |
|---|---|---|
| SenseLinks.PathPresent | SenseLink.py:15-27 | `Ok(true)` only when every key of the path is reached |
| SenseLinks.KeysExist | SenseLink.py:15-27 | the loop that reassigns `_element` returns exactly `PathPresent`: AttributeError for a non-dict or no keys, False at a missing key, an uncaught TypeError at a non-dict on the path |
| SenseLinks.PathPresentIffEveryStep | SenseLink.py:21-27 | True exactly when the element is a dict, keys are given and every subscript in turn finds its key |
| SenseLinks.PathPresentIffFirstMiss | SenseLink.py:22-26 | False exactly when some subscript misses its key after every earlier one succeeded |
| SenseLinks.PathPresentRaises | SenseLink.py:16-19 | AttributeError exactly for a non-dict element or no keys; TypeError exactly when a non-dict is met on the way; no other exception |
| JsonValues.DescendExtend | SenseLink.py:22-24 | one more key applies one more subscript to what the shorter path reached |
| JsonValues.ReachedIffEveryStep | SenseLink.py:22-27 | `Descend`: a path is reached exactly when every subscript along it succeeds |
| JsonValues.KeyMissingIffFirstMiss | SenseLink.py:22-26 | the walk stops with KeyError on `k` exactly when the first failing subscript misses `k` |
| SenseLinks.Classify | SenseLink.py:106-111 | a message is a query only when its `safekey(..., 'emeter/get_realtime')` is falsy |
| JsonValues.FalsyValues | SenseLink.py:108 | `bool(...)` (`Truthy`) is false for exactly None, False, 0, 0.0, the empty string, `[]` and `{}` |
| SenseLinks.ClassifyMessage | SenseLink.py:106-111 | the test the loop runs through two `keys_exist` calls is `Classify` |
| SenseLinks.QueryIff | SenseLink.py:106-111 | a message is a genuine query exactly when it is a dict with both paths present and a falsy `get_realtime` |
| SenseLinks.MissingPathUnhandled | SenseLink.py:106-138 | a dict missing `emeter/get_realtime`, or holding it but missing `system/get_sysinfo`, is logged as unhandled |
| SenseLinks.SafeKeyLookupFollowsPath | SenseLink.py:108 | the slash-split path lookup follows `emeter`, `get_realtime` wherever that path exists |
| SenseLinks.RealtimeKeySplits | SenseLink.py:108 | `'emeter/get_realtime'` splits into the two keys that `keys_exist` checks |
| SenseLinks.ReplyIsSelfEcho | SenseLink.py:107-111 | a reply this program sends, received back, is classified as a self-echo and not answered |
| SenseLinks.SenseBroadcastIsQuery | SenseLink.py:106-108 | the monitor's broadcast with empty dicts is a genuine query |
| SenseLinks.Verdict | SenseLink.py:103-143 | the pass returns exactly on non-JSON input, answers exactly a genuine query, and lets an exception escape exactly when classifying the payload raises, with that exception |
| SenseLinks.Stop | SenseLink.py:98-143 | the loop gets through every datagram before the first one on which it returns or raises, and stops at that one |
| SenseLinks.StopAt | SenseLink.py:98-143 | that stopping index is unique |
| SenseLinks.Trim | SenseLink.py:127 | `[4:]` keeps all but the first four bytes, or nothing when there are fewer than four |
| SenseLinks.TrimDropsHeader | SenseLink.py:126-127 | with a four-byte header, the trim removes exactly the header |
| SenseLinks.RepliesOf | SenseLink.py:119-136 | one datagram per plug |
| SenseLinks.RepliesOfElements | SenseLink.py:119-133 | datagram `k` goes to the cached endpoint and carries plug `k`'s frame, in registry order |
| SenseLinks.Latch | SenseLink.py:120-121 | a start time is always set afterwards, and one already set is kept |
| SenseLinks.Latched | SenseLink.py:119-121 | one snapshot per plug, in registry order, with the latched start time |
| SenseLinks.ReplyOfPlug | SenseLink.py:119-133 | datagram `k` of a query goes to the querier and carries plug `k`'s frame, built from its snapshot with the start time latched |
| SenseLinks.FrameIsSealedResponse | SenseLink.py:122-127 | `FrameFor`: a plug's frame is `encrypt(dumps(response))[4:]`, where response is the plug's reply (`BuildResponse`) with its reading and `on_time` measured from its latched start; it is the encrypted length less four, and with a length-prefixed cipher as long as the JSON text |
| SenseLinks.FanOut | SenseLink.py:119-136 | every plug's start time is latched; the datagrams are one frame per plug, computed from its snapshot after latching, in registry order, when `should_respond` is set, and none otherwise |
| SenseLinks.BindMembers | SenseLink.py:55-57 | a source binds exactly its listed entries whose details are not None, each with the source's data-source kind and hub |
| SenseLinks.SourceOutcomes | SenseLink.py:47-83 | `SourcePlan`: an unrecognised tag adds nothing; a recognised tag in any other case raises KeyError on its lower-case spelling; TypeError exactly when the block under an exact tag is None; plugs only under an exact tag |
| SenseLinks.PlanFailsAtFirstRaise | SenseLink.py:44-83 | `PlanOf`: creation fails exactly when some source raises, and then with the exception of the first source that raises |
| SenseLinks.PlanAppend | SenseLink.py:45-83 | sources are processed in order: a later source only adds after an earlier one, and nothing runs after an exception |
| SenseLinks.PlanExtends | SenseLink.py:45-77 | a source that succeeds after a clean prefix appends its plugs |
| SenseLinks.PlanStops | SenseLink.py:45-66 | a source that raises after a clean prefix ends creation with that exception |
| SenseLinks.UnrecognisedSourceAddsNone | SenseLink.py:82-83 | a source whose tag is neither static nor hass adds no plug and raises nothing |
| SenseLinks.Registry.constructor | SenseLink.py:33 | the shared registry starts empty |
| SenseLinks.SenseLink.constructor | SenseLink.py:31-39 | no endpoint is open, `should_respond` is set, nothing has been sent |
| SenseLinks.CreationStep | SenseLink.py:45-77 | plugs built for a clean prefix of sources, followed by those of the next source that succeeds, are built for the longer prefix |
| SenseLinks.SenseLink.AddSource | SenseLink.py:47-83 | a source raises exactly when its plan is an exception, and then adds nothing; otherwise its fresh plugs are appended, each bound to its entry and carrying the supplied or generated identity; a registry whose plugs all have data sources keeps that property |
| SenseLinks.SenseLink.AddNext | SenseLink.py:44-83 | one pass of the source loop: either it stops creation with the exception of the whole plan and registers nothing, or the plugs registered so far extend, with fresh plugs, to those of one more source |
| SenseLinks.SenseLink.CreateInstances | SenseLink.py:41-83 | the registry keeps its old plugs and gains fresh plugs, one per binding of the sources up to the first exception, in source order; that exception is returned; every plug still has a data source afterwards, as serving requires |
| SenseLinks.SenseLink.Answer | SenseLink.py:113-136 | the endpoint is opened toward the first querying host and then reused; start times are latched; the replies of every plug are appended to the sent log only when `should_respond` is set |
| SenseLinks.SenseLink.HandleDatagram | SenseLink.py:99-143 | the outcome is the verdict on the payload; only a genuine query opens the endpoint, latches start times and sends, with the readings the data sources give while that datagram is answered; a skipped, logged, non-JSON or raising datagram changes nothing |
| SenseLinks.SenseLink.Serve | SenseLink.py:93-143 | the loop handles datagrams up to the first non-JSON or raising one and reports that one; the sent log only grows, an open endpoint is never replaced, and a start time only goes from None to the server start |
| SenseLinks.SenseLink.Pass | SenseLink.py:99-143 | one pass of the loop has the verdict's outcome, keeps every plug's data source, only appends to the sent log, never replaces an open endpoint and only latches start times |
| Octets.AddressOctet | PlugInstance.py:20-28 | bit 0 of the first byte is set iff `multicast`, bit 1 is set iff not `uaa`, and bits 2-7 are the random byte's |
| Octets.OctetFromBitOperations | PlugInstance.py:21-28 | the `|=` / `&= ~` statements compute that byte |
| PlugInstances.AdjustFirstOctet | PlugInstance.py:21-28 | the in-place `|=` / `&= ~` edits of the first byte leave exactly `AddressOctet` |
| PlugInstances.MacBytes | PlugInstance.py:15-28 | with an OUI of up to six bytes: six bytes starting with the OUI, then fresh random bytes; without one: the adjusted first byte and five random bytes unchanged |
| PlugInstances.ParseOui | PlugInstance.py:17-18 | value `k` is `int(chunk_k, 16)` of the `k`-th separator-delimited chunk, and ValueError (`None`) arises exactly when some chunk does not parse |
| Text.ParseHex | PlugInstance.py:18 | `int(chunk, 16)` succeeds exactly on a non-empty chunk of hex digits |
| Text.ParseHexList | PlugInstance.py:18 | the list comprehension succeeds exactly when every chunk parses, and then holds each chunk's value in order |
| PlugInstances.FormatMacRoundTrip | PlugInstance.py:18-29 | `FormatMac`: a formatted MAC parses back, as an OUI, to its bytes |
| PlugInstances.MacTextShape | PlugInstance.py:29 | a six-byte MAC is 17 characters: two hex digits per byte with the separator between |
| PlugInstances.VendorOuiText | PlugInstance.py:44 | the vendor OUI text is the formatting of bytes 0x53, 0x75, 0x31 |
| PlugInstances.VendorOuiParses | PlugInstance.py:44 | the vendor OUI text parses to those three bytes |
| PlugInstances.GenerateMac | PlugInstance.py:14-29 | the MAC text is the bytes above joined by the separator, or ValueError for an OUI chunk that is not hexadecimal |
| PlugInstances.VendorMacShape | PlugInstance.py:43-46 | a MAC generated for a plug reads `53:75:31:` followed by three groups of two lower-case hex digits separated by `:` |
| PlugInstances.DeviceIdDigits | PlugInstance.py:32-34 | `GenerateDeviceId`: a device ID is 40 characters; characters `2k` and `2k+1` are the hex nibbles of random byte `k` |
| PlugInstances.DeviceIdIsHex | PlugInstance.py:32-34 | a generated device ID is 40 lower-case hex characters |
| PlugInstances.DefaultAliasOfGenerated | PlugInstance.py:57-58 | `DefaultAlias`: the default alias is the fixed prefix followed by the first 8 characters of the device ID, the hex of its first four random bytes |
| PlugInstances.Kept | PlugInstance.py:67-72 | an entry is kept exactly when it is in the input and its details are not None |
| PlugInstances.KeptAppend | PlugInstance.py:67-83 | the filter keeps input order across concatenation |
| PlugInstances.ResponseRealtime | PlugInstance.py:95-108 | `BuildResponse`: `get_realtime` holds exactly current, voltage, power, total and err_code: the reading, then two zeros |
| PlugInstances.ResponseSysinfo | PlugInstance.py:110-133 | `get_sysinfo` holds exactly the listed keys, with the upper-cased MAC and device ID, the alias unchanged and the uptime |
| PlugInstances.ResponseSysinfoDefaults | PlugInstance.py:110-133 | every field of `get_sysinfo` other than the plug's identity and uptime holds its listed constant |
| PlugInstances.PlugInstance.constructor | PlugInstance.py:41-60 | supplied mac, device id and alias are stored verbatim; a missing one is generated under the vendor OUI, from 20 random bytes, or as the default alias |
| PlugInstances.PlugInstance.ConfigureOne | PlugInstance.py:74-82 | a fresh plug with the entry's key, a data source from that key and details, and the supplied or generated identity |
| PlugInstances.PlugInstance.ConfigureNext | PlugInstance.py:67-83 | one pass of the plug loop: an entry with details adds one fresh plug configured from it, an entry without adds none, and the plugs before are kept |
| PlugInstances.PlugInstance.ConfigurePlugs | PlugInstance.py:64-87 | one fresh plug per entry whose details are not None, in input order, each configured from its own entry |
| Text.DigitValue | PlugInstance.py:18 | `int(c, 16)` of a hex digit, lower or upper case, is its value; any other character raises ValueError (`None`) |
| Text.SplitJoin | PlugInstance.py:18-29 | splitting a join on a separator absent from the parts gives back the parts |
| Text.Upper | PlugInstance.py:117-118 | `.upper()` keeps the length, turns each lower-case ASCII letter into its upper-case letter and keeps every other character |
| Text.Lower | SenseLink.py:50-61 | `.lower()` keeps the length, turns each upper-case ASCII letter into its lower-case letter and keeps every other character |

## Left out

- asyncio endpoint plumbing is not modelled as I/O: the local endpoint, `receive`, `open_remote_endpoint` and `send`. Opening the remote endpoint sets `remoteEp`. Every datagram sent is appended to the ghost log `sent`, the replies of one query together after its fan-out.
- `decrypt` and `json.loads` are not modelled. A `Datagram` carries what they produced: a JSON value, or `None` where `json.loads` raised ValueError.
- `encrypt`, `json.dumps` and the data sources' readings are function parameters, because their code is not part of this model. The compact separators of `dumps` are not modelled. `LengthPrefixed` is the hypothesis used to state frame lengths.
- `safekey` is not part of this model. It is a parameter, and `SafeKeyFollowsPath` is the hypothesis under which replies are recognised as self-echoes. `JsonValues.SafeKey` is one function that satisfies it.
- The data-source classes and the HASS controller are not modelled: `HASSController`, its `connect()`, its websocket and `print_instance_wattages`. A plug's data source is recorded as the values it is built from.
- A data source that raises while the reply is built is not modelled, because `sample` is total.
- YAML loading, `print`, logging, `main` and argparse are not modelled. `create_instances` takes the `sources` list already parsed.
- Configuration shapes the model's types cannot express are not modelled, with the exceptions they raise:
  - a missing or non-list `sources`;
  - a source entry with several keys, or none: `next(iter({}.keys()))` raises StopIteration (SenseLink.py:47);
  - a tag that is not a string: `.lower()` raises AttributeError (SenseLink.py:50);
  - a `static` or `hass` block that is neither a dict nor None: subscripting it raises TypeError (SenseLink.py:56, 66);
  - a `plugs` key that is present but None: iterating None raises TypeError (PlugInstance.py:67);
  - a plug entry that is not a dict, or is an empty dict: `.keys()` raises AttributeError, or `next` raises StopIteration (PlugInstance.py:69);
  - details that are not a dict.
- A block's `plugs` is either a list or absent, and absent raises KeyError (SenseLink.py:56, 72).
- SenseLinks.SenseLink.Serve: models a finite stream of datagrams rather than the endless loop. Its contract states the outcome and how the state evolves. The sends of each pass are stated by `HandleDatagram`.
- SenseLinks.SenseLink.CreateInstances: states each new plug's binding (its key, its data source, no start time) but not its generated identity. `SenseLinks.SenseLink.AddSource` and `PlugInstances.PlugInstance.ConfigurePlugs` state the identity, source by source.
- SenseLinks.FanOut: takes the per-plug pipeline (reply, `dumps`, `encrypt`, trim) as a function value, `FrameFor`. `FrameIsSealedResponse` states what that function computes.
- SenseLinks.SenseLink.Answer: `time()` is read once per datagram (`now`) instead of once per plug, so plugs latched together report the same `on_time` for one query where the code can differ by the time between two calls. Floats are modelled as reals. Each datagram carries its own `sample`, the readings its data sources give while it is answered. Two plugs with equal data sources therefore get the same reading within one query, where the code reads each plug's source separately.
- SenseLinks.SenseLink.Answer: the endpoint is chosen before the fan-out and recorded after it. No datagram can observe the difference.
- PlugInstances.GenerateMac: covers only an OUI given as text and the default `'%02x'` byte format, with a one-character separator. Each OUI chunk must be plain ASCII hexadecimal digits. Python's `int(chunk, 16)` also accepts surrounding whitespace, a leading `+` or `-`, a `0x` prefix, underscores and non-ASCII Unicode digits; the model rejects all of these.
- `generate_response` is not a member of the plug class here. Its reply is `BuildResponse` on the plug's identity, its reading and its uptime, which `FrameFor` applies to each plug's latched snapshot.
- PlugInstances.BuildResponse: a reply is a map, so the key order of the serialised dict is not modelled. Key order plays no part in the protocol.
- Text.Upper: maps only ASCII letters, not the rest of Unicode. `Text.Lower` is limited in the same way.
- Random bytes are a parameter: the stream for a plug's constructor, and one stream per source for `create_instances`.
