/** The OpenClaw agent-reach service: private-key parsing, the persisted card
    state, the service-card and heartbeat events it publishes, the
    online/offline transitions of `updateServiceCard` and the agent listing
    of `discoverAgents`. Relays are an append-only log of published events,
    timers a table of running intervals. */
module Publisher {
  import opened Common
  import opened Text
  import HB = Heartbeat
  import SC = ServiceCardCodec
  import WN = WebNostr

  const NAMESPACE := "agent-reach"
  const KIND_SERVICE_CARD := 31990
  const KIND_HEARTBEAT := 31991
  const DEFAULT_RELAYS: seq<string> := ["wss://relay.damus.io", "wss://nos.lol", "wss://relay.nostr.band"]
  const DEFAULT_HEARTBEAT_INTERVAL_MS := 600000
  /** A heartbeat younger than this many seconds marks an agent online. */
  const ONLINE_WINDOW_S := 900

  newtype byte = x: int | 0 <= x < 256

  // ----- private key -----

  /** What the bech32 decoder returns: the entity type and its payload. */
  datatype Decoded = Decoded(kind: string, data: seq<byte>)

  /** The hex form the key regex accepts: exactly 64 hex digits, either case. */
  predicate IsHexKey(t: string) {
    |t| == 64 && forall i :: 0 <= i < 64 ==> IsHexDigit(t[i])
  }

  /** Byte i is the value of hex digits 2i and 2i+1. */
  function HexKeyBytes(t: string): (r: seq<byte>)
    requires IsHexKey(t)
    ensures |r| == 32
  {
    seq(32, i requires 0 <= i < 32 => (16 * HexValue(t[2 * i]) + HexValue(t[2 * i + 1])) as byte)
  }

  const HEX_KEY_ERROR := "Private key must be 64 hex characters or nsec format"

  /** `parsePrivateKey`: the trimmed key is bech32 when it starts with
      "nsec1" (the decoder's failure propagates, a non-nsec entity is
      refused), and 64 hex digits otherwise. */
  function PrivateKeyOf(key: string, nip19Decode: string -> Result<Decoded, string>): Result<seq<byte>, string> {
    var t := Trim(key);
    if StartsWith(t, "nsec1") then
      match nip19Decode(t)
      case Err(e) => Err(e)
      case Ok(d) => if d.kind != "nsec" then Err("Invalid nsec key") else Ok(d.data)
    else if !IsHexKey(t) then Err(HEX_KEY_ERROR)
    else Ok(HexKeyBytes(t))
  }

  /** Outside the nsec form a key parses exactly when its trimmed text is
      64 hex digits, and then byte i is the value of digits 2i and 2i+1. */
  lemma HexKeyMeaning(key: string, nip19Decode: string -> Result<Decoded, string>)
    requires !StartsWith(Trim(key), "nsec1")
    ensures PrivateKeyOf(key, nip19Decode).Ok? <==> IsHexKey(Trim(key))
    ensures PrivateKeyOf(key, nip19Decode).Ok? ==>
      var bytes := PrivateKeyOf(key, nip19Decode).value;
      |bytes| == 32 && forall i :: 0 <= i < 32 ==>
        bytes[i] as int == 16 * HexValue(Trim(key)[2 * i]) + HexValue(Trim(key)[2 * i + 1])
  {
    var t := Trim(key);
    if IsHexKey(t) {
      assert PrivateKeyOf(key, nip19Decode) == Ok(HexKeyBytes(t));
      HexKeyBytesValues(t);
    } else {
      assert PrivateKeyOf(key, nip19Decode) == Err(HEX_KEY_ERROR);
    }
  }

  lemma HexKeyBytesValues(t: string)
    requires IsHexKey(t)
    ensures forall i :: 0 <= i < 32 ==> HexKeyBytes(t)[i] as int == 16 * HexValue(t[2 * i]) + HexValue(t[2 * i + 1])
  {
  }

  /** `parsePrivateKey`: the nsec branch defers to the decoder, the hex
      branch fills a 32-byte buffer. */
  method ParsePrivateKey(key: string, nip19Decode: string -> Result<Decoded, string>) returns (r: Result<seq<byte>, string>)
    ensures r == PrivateKeyOf(key, nip19Decode)
  {
    var trimmed := Trim(key);
    if StartsWith(trimmed, "nsec1") {
      var decoded := nip19Decode(trimmed);
      if decoded.Err? {
        return Err(decoded.error);
      }
      if decoded.value.kind != "nsec" {
        return Err("Invalid nsec key");
      }
      return Ok(decoded.value.data);
    }
    if !IsHexKey(trimmed) {
      return Err(HEX_KEY_ERROR);
    }
    var bytes := DecodeHexKey(trimmed);
    return Ok(bytes);
  }

  /** The hex loop of `parsePrivateKey`: one byte per pair of digits. */
  method DecodeHexKey(t: string) returns (r: seq<byte>)
    requires IsHexKey(t)
    ensures r == HexKeyBytes(t)
  {
    var bytes := new byte[32];
    for i := 0 to 32
      invariant forall j :: 0 <= j < i ==> bytes[j] == HexKeyBytes(t)[j]
    {
      bytes[i] := (16 * HexValue(t[2 * i]) + HexValue(t[2 * i + 1])) as byte;
    }
    r := bytes[..];
  }

  function HexDigitChar(v: nat): (c: char)
    requires v < 16
    ensures IsHexDigit(c) && HexValue(c) == v && !IsJsSpace(c) && c != 'n'
  {
    if v < 10 then ('0' as int + v) as char else ('a' as int + v - 10) as char
  }

  /** Lower-case hex rendering of a byte string, two digits per byte. */
  function HexOf(bytes: seq<byte>): (s: string)
    ensures |s| == 2 * |bytes|
  {
    seq(2 * |bytes|, i requires 0 <= i < 2 * |bytes| =>
      if i % 2 == 0 then HexDigitChar(bytes[i / 2] as nat / 16) else HexDigitChar(bytes[i / 2] as nat % 16))
  }

  /** Any 32-byte key written as hex, surrounded by any whitespace, parses
      back to the same bytes. */
  lemma HexKeyRoundTrip(bytes: seq<byte>, pre: string, post: string, nip19Decode: string -> Result<Decoded, string>)
    requires |bytes| == 32
    requires forall i :: 0 <= i < |pre| ==> IsJsSpace(pre[i])
    requires forall i :: 0 <= i < |post| ==> IsJsSpace(post[i])
    ensures PrivateKeyOf(pre + HexOf(bytes) + post, nip19Decode) == Ok(bytes)
  {
    var h := HexOf(bytes);
    HexOfIsKey(bytes);
    TrimAround(pre, h, post);
    HexOfBytes(bytes);
  }

  lemma HexOfIsKey(bytes: seq<byte>)
    requires |bytes| == 32
    ensures IsHexKey(HexOf(bytes)) && !StartsWith(HexOf(bytes), "nsec1")
    ensures !IsJsSpace(HexOf(bytes)[0]) && !IsJsSpace(HexOf(bytes)[63])
  {
    var h := HexOf(bytes);
    assert h[0] != 'n';
    assert h[..5][0] == h[0];
  }

  lemma HexOfBytes(bytes: seq<byte>)
    requires |bytes| == 32
    ensures IsHexKey(HexOf(bytes)) && HexKeyBytes(HexOf(bytes)) == bytes
  {
    var h := HexOf(bytes);
    HexOfIsKey(bytes);
    var r := HexKeyBytes(h);
    forall i | 0 <= i < 32
      ensures r[i] == bytes[i]
    {
      assert h[2 * i] == HexDigitChar(bytes[i] as nat / 16);
      assert h[2 * i + 1] == HexDigitChar(bytes[i] as nat % 16);
    }
  }

  /** Trimming removes exactly the surrounding whitespace of a string whose
      ends are not whitespace. */
  lemma TrimAround(pre: string, s: string, post: string)
    requires |s| > 0 && !IsJsSpace(s[0]) && !IsJsSpace(s[|s| - 1])
    requires forall i :: 0 <= i < |pre| ==> IsJsSpace(pre[i])
    requires forall i :: 0 <= i < |post| ==> IsJsSpace(post[i])
    ensures Trim(pre + s + post) == s
  {
    TrimStartSpaces(pre, s + post);
    assert pre + s + post == pre + (s + post);
    TrimEndSpaces(s, post);
  }

  lemma {:induction false} TrimStartSpaces(pre: string, rest: string)
    requires rest != [] && !IsJsSpace(rest[0])
    requires forall i :: 0 <= i < |pre| ==> IsJsSpace(pre[i])
    ensures TrimStart(pre + rest) == rest
    decreases |pre|
  {
    if pre == [] {
      assert pre + rest == rest;
    } else {
      assert (pre + rest)[1..] == pre[1..] + rest;
      TrimStartSpaces(pre[1..], rest);
    }
  }

  lemma {:induction false} TrimEndSpaces(s: string, post: string)
    requires s != [] && !IsJsSpace(s[|s| - 1])
    requires forall i :: 0 <= i < |post| ==> IsJsSpace(post[i])
    ensures TrimEnd(s + post) == s
    decreases |post|
  {
    if post == [] {
      assert s + post == s;
    } else {
      assert (s + post)[..|s + post| - 1] == s + post[..|post| - 1];
      TrimEndSpaces(s, post[..|post| - 1]);
    }
  }

  // ----- persisted card state -----

  /** The contents of `service-card.json`. Capabilities have the shape of the
      discovery crate's `Capability`. */
  datatype CardState = CardState(
    capabilities: seq<SC.Capability>,
    heartbeatIntervalMs: int,
    name: Option<string>,
    about: Option<string>,
    online: Option<bool>)

  const DefaultState := CardState([], DEFAULT_HEARTBEAT_INTERVAL_MS, None, None, None)

  /** `loadState`: the stored state, or the defaults when the file is missing
      or does not parse (`None`). */
  function LoadState(file: Option<CardState>): CardState {
    if file.Some? then file.value else DefaultState
  }

  /** Only an explicit `online: false` pauses heartbeats. */
  predicate IsOnline(s: CardState) {
    s.online != Some(false)
  }

  lemma MissingStateDefaults()
    ensures LoadState(None).capabilities == [] && LoadState(None).heartbeatIntervalMs == 600000
    ensures LoadState(None).name.None? && LoadState(None).about.None?
    ensures IsOnline(LoadState(None))
  {
  }

  // ----- updateServiceCard: the merge -----

  /** The tool's parameters; `None` is an omitted parameter. */
  datatype UpdateParams = UpdateParams(
    capabilities: Option<seq<string>>,
    name: Option<string>,
    about: Option<string>,
    heartbeatIntervalMs: Option<int>,
    online: Option<bool>)

  const NoParams := UpdateParams(None, None, None, None, None)

  /** Capability ids become capabilities with empty descriptions. */
  function EmptyDescriptions(ids: seq<string>): (r: seq<SC.Capability>)
    ensures |r| == |ids|
  {
    seq(|ids|, i requires 0 <= i < |ids| => SC.Capability(ids[i], ""))
  }

  /** The merge of `updateServiceCard`: a supplied parameter replaces its
      field (any array, even an empty one, replaces the capabilities). */
  function Merge(s: CardState, p: UpdateParams): CardState {
    CardState(
      if p.capabilities.Some? then EmptyDescriptions(p.capabilities.value) else s.capabilities,
      if p.heartbeatIntervalMs.Some? then p.heartbeatIntervalMs.value else s.heartbeatIntervalMs,
      if p.name.Some? then p.name else s.name,
      if p.about.Some? then p.about else s.about,
      if p.online.Some? then p.online else s.online)
  }

  /** Omitted parameters leave their fields alone; supplied ones are stored
      as given, capabilities with their ids in order and empty
      descriptions. */
  lemma MergeFields(s: CardState, p: UpdateParams)
    ensures p.name.None? ==> Merge(s, p).name == s.name
    ensures p.name.Some? ==> Merge(s, p).name == p.name
    ensures p.about.None? ==> Merge(s, p).about == s.about
    ensures p.about.Some? ==> Merge(s, p).about == p.about
    ensures p.heartbeatIntervalMs.None? ==> Merge(s, p).heartbeatIntervalMs == s.heartbeatIntervalMs
    ensures p.online.None? ==> IsOnline(Merge(s, p)) == IsOnline(s)
    ensures p.online.Some? ==> IsOnline(Merge(s, p)) == p.online.value
    ensures p.capabilities.None? ==> Merge(s, p).capabilities == s.capabilities
    ensures p.capabilities.Some? ==>
      |Merge(s, p).capabilities| == |p.capabilities.value|
      && forall i :: 0 <= i < |p.capabilities.value| ==>
           Merge(s, p).capabilities[i] == SC.Capability(p.capabilities.value[i], "")
  {
  }

  /** Applying the same update twice is the same as applying it once, and an
      update with no parameters changes nothing. */
  lemma MergeIdempotent(s: CardState, p: UpdateParams)
    ensures Merge(Merge(s, p), p) == Merge(s, p)
    ensures Merge(s, NoParams) == s
  {
  }

  // ----- updateServiceCard: online transitions -----

  datatype Change = GoingOffline | ComingOnline | NoChange

  function ChangeOf(before: CardState, after: CardState): Change {
    if IsOnline(before) && !IsOnline(after) then GoingOffline
    else if !IsOnline(before) && IsOnline(after) then ComingOnline
    else NoChange
  }

  /** A published event: its kind and its tags (content and signature are
      not modelled). */
  datatype Published = Published(kind: int, tags: seq<Tag>)

  /** The heartbeat tag layout of `sendHeartbeat` and `updateServiceCard`. */
  function HeartbeatTags(cardId: string, st: HB.Status): seq<Tag> {
    [["d", cardId], ["s", HB.StatusName(st)], ["L", NAMESPACE], ["l", "heartbeat", NAMESPACE]]
  }

  function HeartbeatEvent(cardId: string, st: HB.Status): Published {
    Published(KIND_HEARTBEAT, HeartbeatTags(cardId, st))
  }

  /** The heartbeat an update publishes for its transition. */
  function ChangeHeartbeats(c: Change, cardId: string): seq<Published> {
    match c
    case GoingOffline => [HeartbeatEvent(cardId, HB.Maintenance)]
    case ComingOnline => [HeartbeatEvent(cardId, HB.Available)]
    case NoChange => []
  }

  /** Exactly one heartbeat when the online flag flips, none otherwise; it
      says `maintenance` when going offline and `available` when coming
      online. */
  lemma TransitionHeartbeats(before: CardState, p: UpdateParams, cardId: string)
    ensures var hbs := ChangeHeartbeats(ChangeOf(before, Merge(before, p)), cardId);
      && (|hbs| == 1 <==> IsOnline(before) != IsOnline(Merge(before, p)))
      && (|hbs| == 0 <==> IsOnline(before) == IsOnline(Merge(before, p)))
      && (forall e :: e in hbs ==>
            e.kind == KIND_HEARTBEAT
            && e.tags[1] == ["s", if IsOnline(Merge(before, p)) then "available" else "maintenance"])
  {
  }

  /** Repeating an update publishes no heartbeat the second time. */
  lemma RepeatedUpdateIsQuiet(s: CardState, p: UpdateParams, cardId: string)
    ensures ChangeOf(Merge(s, p), Merge(Merge(s, p), p)) == NoChange
    ensures ChangeHeartbeats(ChangeOf(Merge(s, p), Merge(Merge(s, p), p)), cardId) == []
  {
    MergeIdempotent(s, p);
  }

  // ----- timers -----

  /** The interval timers: the one held by the service closure (`local`),
      the one held by the module (`shared`), the running ones with their
      period, and the next timer id. */
  datatype Timers = Timers(local: Option<nat>, shared: Option<nat>, active: map<nat, int>, next: nat)

  const NoTimers := Timers(None, None, map[], 0)

  /** Every running timer is still reachable through one of the two handles,
      and ids are fresh. */
  predicate TimersValid(t: Timers) {
    && (forall id :: id in t.active ==> id < t.next && (t.local == Some(id) || t.shared == Some(id)))
    && (t.local.Some? ==> t.local.value < t.next)
    && (t.shared.Some? ==> t.shared.value < t.next)
  }

  /** `start` when online: one new timer, held by both handles. */
  function StartTimer(t: Timers, ms: int): Timers {
    Timers(Some(t.next), Some(t.next), t.active[t.next := ms], t.next + 1)
  }

  lemma StartTimerValid(t: Timers, ms: int)
    requires TimersValid(t) && t.active == map[]
    ensures TimersValid(StartTimer(t, ms)) && StartTimer(t, ms).shared.Some?
  {
  }

  /** Going offline clears the module's timer, if any. */
  function PauseTimer(t: Timers): Timers {
    if t.shared.Some? then t.(shared := None, active := t.active - {t.shared.value}) else t
  }

  /** Coming online starts a new timer held by the module only. */
  function ResumeTimer(t: Timers, ms: int): Timers {
    t.(shared := Some(t.next), active := t.active[t.next := ms], next := t.next + 1)
  }

  /** `heartbeatIntervalMs || DEFAULT_HEARTBEAT_INTERVAL_MS`. */
  function IntervalOrDefault(ms: int): int {
    if ms == 0 then DEFAULT_HEARTBEAT_INTERVAL_MS else ms
  }

  function ChangeTimers(c: Change, t: Timers, after: CardState): Timers {
    match c
    case GoingOffline => PauseTimer(t)
    case ComingOnline => ResumeTimer(t, IntervalOrDefault(after.heartbeatIntervalMs))
    case NoChange => t
  }

  /** `stop` as written: it clears only the closure's timer, and forgets the
      module's handle without clearing it. */
  function StopTimersAsWritten(t: Timers): Timers {
    if t.local.Some? then t.(local := None, shared := None, active := t.active - {t.local.value}) else t
  }

  function Handles(o: Option<nat>): set<nat> {
    if o.Some? then {o.value} else {}
  }

  /** `stop` as intended: both handles are cleared. */
  function StopTimers(t: Timers): Timers {
    Timers(None, None, t.active - Handles(t.local) - Handles(t.shared), t.next)
  }

  /** A service started offline and brought online by an update has a
      timer only the module holds; the `stop` as written leaves it running. */
  lemma StopLeaksResumedTimer()
    ensures TimersValid(ResumeTimer(NoTimers, DEFAULT_HEARTBEAT_INTERVAL_MS))
    ensures StopTimersAsWritten(ResumeTimer(NoTimers, DEFAULT_HEARTBEAT_INTERVAL_MS)).active
      == map[0 := DEFAULT_HEARTBEAT_INTERVAL_MS]
  {
  }

  /** The corrected `stop` leaves no timer running. */
  lemma StopClearsAll(t: Timers)
    requires TimersValid(t)
    ensures StopTimers(t).active == map[]
    ensures TimersValid(StopTimers(t))
  {
    forall id | id in t.active
      ensures id in Handles(t.local) + Handles(t.shared)
    {
    }
    assert StopTimers(t).active.Keys == {};
  }

  lemma TimersPreserved(t: Timers, c: Change, after: CardState)
    requires TimersValid(t)
    requires c == ComingOnline ==> t.shared.None?
    ensures TimersValid(ChangeTimers(c, t, after))
    ensures ChangeTimers(c, t, after).shared.Some? <==>
      (if c == GoingOffline then false else if c == ComingOnline then true else t.shared.Some?)
  {
  }

  // ----- the service card -----

  /** A protocol entry of the card; `relays` and `url` are optional. */
  datatype ProtocolEntry = ProtocolEntry(protocolType: string, relays: Option<string>, url: Option<string>)

  /** `proto.relays ?? proto.url ?? ""`. */
  function EntryEndpoint(p: ProtocolEntry): string {
    if p.relays.Some? then p.relays.value else if p.url.Some? then p.url.value else ""
  }

  function EntryTags(ps: seq<ProtocolEntry>): seq<Tag> {
    seq(|ps|, i requires 0 <= i < |ps| => ["r", ps[i].protocolType, EntryEndpoint(ps[i])])
  }

  function CardHeader(id: string, name: string, about: string): seq<Tag> {
    [["d", id], ["name", name], ["about", about], ["L", NAMESPACE], ["l", "service-card", NAMESPACE]]
  }

  /** The card tag layout of `publishServiceCard` and `updateServiceCard`. */
  function CardTags(id: string, name: string, about: string, caps: seq<SC.Capability>, protos: seq<ProtocolEntry>): seq<Tag> {
    CardHeader(id, name, about) + SC.CapabilityTags(caps) + EntryTags(protos)
  }

  /** The tag builder: header, then one `c` tag per capability, then one `r`
      tag per protocol, pushed in order. */
  method BuildCardTags(id: string, name: string, about: string, caps: seq<SC.Capability>, protos: seq<ProtocolEntry>)
    returns (tags: seq<Tag>)
    ensures tags == CardTags(id, name, about, caps, protos)
    ensures |tags| == 5 + |caps| + |protos|
    ensures forall i :: 0 <= i < |caps| ==> tags[5 + i] == ["c", caps[i].id, caps[i].description]
    ensures forall i :: 0 <= i < |protos| ==>
      tags[5 + |caps| + i] == ["r", protos[i].protocolType, EntryEndpoint(protos[i])]
  {
    tags := CardHeader(id, name, about);
    for i := 0 to |caps|
      invariant tags == CardHeader(id, name, about) + SC.CapabilityTags(caps[..i])
    {
      assert SC.CapabilityTags(caps[..i + 1]) == SC.CapabilityTags(caps[..i]) + [SC.CapabilityTag(caps[i])];
      tags := tags + [["c", caps[i].id, caps[i].description]];
    }
    assert caps[..|caps|] == caps;
    ghost var before := tags;
    for i := 0 to |protos|
      invariant tags == before + EntryTags(protos[..i])
    {
      assert EntryTags(protos[..i + 1]) == EntryTags(protos[..i]) + [["r", protos[i].protocolType, EntryEndpoint(protos[i])]];
      tags := tags + [["r", protos[i].protocolType, EntryEndpoint(protos[i])]];
    }
    assert protos[..|protos|] == protos;
  }

  /** The `channels.nostr` section of the host configuration; `None` is an
      absent key. */
  datatype NostrConfig = NostrConfig(
    privateKey: Option<string>,
    relays: Option<seq<string>>,
    enabled: Option<bool>,
    profileName: Option<string>,
    profileAbout: Option<string>)

  const EmptyConfig := NostrConfig(None, None, None, None, None)

  /** A DM protocol over the relays, joined by commas, unless the channel is
      explicitly disabled. */
  function AdvertisedProtocols(cfg: NostrConfig, relays: seq<string>): seq<ProtocolEntry> {
    if cfg.enabled != Some(false) then [ProtocolEntry("dm", Some(Join(relays, ",")), None)] else []
  }

  /** `state.name ?? profile.name ?? "Agent"`. */
  function CardName(s: CardState, cfg: NostrConfig): string {
    if s.name.Some? then s.name.value else if cfg.profileName.Some? then cfg.profileName.value else "Agent"
  }

  /** `state.about ?? profile.about ?? ""`. */
  function CardAbout(s: CardState, cfg: NostrConfig): string {
    if s.about.Some? then s.about.value else if cfg.profileAbout.Some? then cfg.profileAbout.value else ""
  }

  function CardEvent(cardId: string, s: CardState, cfg: NostrConfig, relays: seq<string>): Published {
    Published(KIND_SERVICE_CARD,
      CardTags(cardId, CardName(s, cfg), CardAbout(s, cfg), s.capabilities, AdvertisedProtocols(cfg, relays)))
  }

  /** The card id: the first 8 hex digits of the public key and "-v1". */
  function CardIdOf(publicKeyHex: string): string {
    Prefix(publicKeyHex, 8) + "-v1"
  }

  /** The message of a successful update: the capability ids joined by
      ", ", or "none". */
  function UpdateMessage(s: CardState): string {
    var ids := Join(seq(|s.capabilities|, i requires 0 <= i < |s.capabilities| => s.capabilities[i].id), ", ");
    "Service card updated. Capabilities: " + (if ids == "" then "none" else ids)
  }

  lemma NoCapabilitiesMessage(s: CardState)
    requires s.capabilities == []
    ensures UpdateMessage(s) == "Service card updated. Capabilities: none"
  {
  }

  /** The public key the service runs under, when the configured private key
      is present, parses, and yields a public key. */
  function StartKey(cfg: NostrConfig, nip19Decode: string -> Result<Decoded, string>,
                    getPublicKey: seq<byte> -> Option<string>): Option<string> {
    if cfg.privateKey.None? || cfg.privateKey.value == "" then None
    else match PrivateKeyOf(cfg.privateKey.value, nip19Decode)
      case Err(_) => None
      case Ok(k) => getPublicKey(k)
  }

  /** `nostrConfig.relays ?? DEFAULT_RELAYS`. */
  function RelaysOf(cfg: NostrConfig): seq<string> {
    if cfg.relays.Some? then cfg.relays.value else DEFAULT_RELAYS
  }

  /** The key steps of `start`: a missing or empty key, a key that does not
      parse and a key without a public key all stop it. */
  method StartPublicKey(cfg: NostrConfig, nip19Decode: string -> Result<Decoded, string>,
                        getPublicKey: seq<byte> -> Option<string>) returns (publicKey: Option<string>)
    ensures publicKey == StartKey(cfg, nip19Decode, getPublicKey)
  {
    if cfg.privateKey.None? || cfg.privateKey.value == "" {
      return None;
    }
    var key := ParsePrivateKey(cfg.privateKey.value, nip19Decode);
    if key.Err? {
      return None;
    }
    publicKey := getPublicKey(key.value);
  }

  /** The service created by `createAgentDiscoveryService`, together with the
      module-level state `updateServiceCard` reads. */
  class DiscoveryService {
    var config: NostrConfig
    /** The relay pool is open. */
    var running: bool
    var serviceCardId: string
    var relays: seq<string>
    /** `service-card.json`; `None` when missing or unreadable. */
    var stateFile: Option<CardState>
    var timers: Timers
    var published: seq<Published>

    /** The timer handles agree with the stored online flag while running,
        and nothing is left over when not running. */
    predicate Valid()
      reads this
    {
      && TimersValid(timers)
      && (!running ==> timers.local.None? && timers.shared.None? && timers.active == map[])
      && (running ==> (timers.shared.Some? <==> IsOnline(LoadState(stateFile))))
    }

    constructor (file: Option<CardState>)
      ensures Valid() && !running
      ensures stateFile == file && published == [] && timers == NoTimers
      ensures config == EmptyConfig && relays == DEFAULT_RELAYS
    {
      config := EmptyConfig;
      running := false;
      serviceCardId := "";
      relays := DEFAULT_RELAYS;
      stateFile := file;
      timers := NoTimers;
      published := [];
    }

    /** `start`: without a usable key nothing is started; otherwise the card
        is published, and when the stored state is online an `available`
        heartbeat is published and the heartbeat timer started. */
    method Start(cfg: NostrConfig, nip19Decode: string -> Result<Decoded, string>,
                 getPublicKey: seq<byte> -> Option<string>)
      requires Valid() && !running
      modifies this
      ensures Valid()
      ensures config == cfg && stateFile == old(stateFile)
      ensures StartKey(cfg, nip19Decode, getPublicKey).None? ==>
        !running && published == old(published) && timers == old(timers)
        && serviceCardId == old(serviceCardId) && relays == old(relays)
      ensures StartKey(cfg, nip19Decode, getPublicKey).Some? ==>
        var s := LoadState(stateFile);
        && running
        && serviceCardId == CardIdOf(StartKey(cfg, nip19Decode, getPublicKey).value)
        && relays == RelaysOf(cfg)
        && published == old(published) + [CardEvent(serviceCardId, s, cfg, relays)]
             + (if IsOnline(s) then [HeartbeatEvent(serviceCardId, HB.Available)] else [])
        && timers == (if IsOnline(s) then StartTimer(old(timers), s.heartbeatIntervalMs) else old(timers))
    {
      config := cfg;
      var publicKey := StartPublicKey(cfg, nip19Decode, getPublicKey);
      if publicKey.None? {
        return;
      }
      Launch(cfg, CardIdOf(publicKey.value));
    }

    /** The part of `start` after the key checks: the relay pool opens, the
        card is published, and an online state also gets an `available`
        heartbeat and the heartbeat timer. */
    method Launch(cfg: NostrConfig, cardId: string)
      requires Valid() && !running
      modifies this
      ensures Valid() && running
      ensures config == old(config) && stateFile == old(stateFile)
      ensures serviceCardId == cardId && relays == RelaysOf(cfg)
      ensures var s := LoadState(stateFile);
        && published == old(published) + [CardEvent(cardId, s, cfg, relays)]
             + (if IsOnline(s) then [HeartbeatEvent(cardId, HB.Available)] else [])
        && timers == (if IsOnline(s) then StartTimer(old(timers), s.heartbeatIntervalMs) else old(timers))
    {
      relays := RelaysOf(cfg);
      serviceCardId := cardId;
      running := true;
      var state := LoadState(stateFile);
      published := published + [CardEvent(cardId, state, cfg, relays)];
      if IsOnline(state) {
        published := published + [HeartbeatEvent(cardId, HB.Available)];
        StartTimerValid(timers, state.heartbeatIntervalMs);
        timers := StartTimer(timers, state.heartbeatIntervalMs);
      }
    }

    /** `stop`, with both timer handles cleared: no timer keeps running, and a
        running service says goodbye with a `maintenance` heartbeat. */
    method Stop()
      requires Valid()
      modifies this
      ensures Valid() && !running
      ensures timers == StopTimers(old(timers)) && timers.active == map[]
      ensures published == old(published)
        + (if old(running) then [HeartbeatEvent(serviceCardId, HB.Maintenance)] else [])
      ensures config == old(config) && serviceCardId == old(serviceCardId)
      ensures relays == old(relays) && stateFile == old(stateFile)
    {
      StopClearsAll(timers);
      timers := StopTimers(timers);
      if running {
        published := published + [HeartbeatEvent(serviceCardId, HB.Maintenance)];
      }
      running := false;
    }

    /** `updateServiceCard`: refused when the service is not running;
        otherwise the merged state is saved, the transition's heartbeat and
        the new card are published, and the timers follow the online flag. */
    method UpdateServiceCard(p: UpdateParams) returns (success: bool, message: string)
      requires Valid()
      modifies this
      ensures Valid()
      ensures !old(running) ==>
        !success && message == "agent-reach service not running"
        && stateFile == old(stateFile) && published == old(published) && timers == old(timers)
      ensures old(running) ==>
        var before := LoadState(old(stateFile));
        var after := Merge(before, p);
        var c := ChangeOf(before, after);
        && success && message == UpdateMessage(after)
        && stateFile == Some(after)
        && timers == ChangeTimers(c, old(timers), after)
        && published == old(published) + ChangeHeartbeats(c, serviceCardId)
             + [CardEvent(serviceCardId, after, config, relays)]
      ensures running == old(running) && config == old(config)
      ensures serviceCardId == old(serviceCardId) && relays == old(relays)
    {
      if !running {
        return false, "agent-reach service not running";
      }
      var state := LoadState(stateFile);
      var wasOnline := IsOnline(state);
      state := Merge(state, p);
      var isOnline := IsOnline(state);
      var c := ChangeOf(LoadState(stateFile), state);
      TimersPreserved(timers, c, state);
      if wasOnline && !isOnline {
        timers := PauseTimer(timers);
        published := published + [HeartbeatEvent(serviceCardId, HB.Maintenance)];
      } else if !wasOnline && isOnline {
        published := published + [HeartbeatEvent(serviceCardId, HB.Available)];
        timers := ResumeTimer(timers, IntervalOrDefault(state.heartbeatIntervalMs));
      }
      stateFile := Some(state);
      published := published + [CardEvent(serviceCardId, state, config, relays)];
      return true, UpdateMessage(state);
    }
  }

  // ----- the published events as other readers see them -----

  /** A heartbeat the service publishes parses, under the crate's parser, to
      the same card id and status. */
  lemma HeartbeatReadByCrate(cardId: string, st: HB.Status)
    ensures HB.Decode(HeartbeatTags(cardId, st)) == Ok(HB.Heartbeat(cardId, st))
  {
    var t := HeartbeatTags(cardId, st);
    HB.StatusRoundTrip(st);
    var p := Ok(HB.Partial(Some(cardId), Some(st)));
    assert t[..1][..0] == [];
    assert t[..2][..1] == t[..1];
    assert t[..3][..2] == t[..2];
    assert t[..4][..3] == t[..3];
    assert t[..4] == t;
    assert HB.ScanFrom(HB.Start, t[..1]) == Ok(HB.Partial(Some(cardId), None));
    assert HB.ScanFrom(HB.Start, t[..2]) == p;
    assert HB.ScanFrom(HB.Start, t[..3]) == p;
    assert HB.ScanFrom(HB.Start, t) == p;
  }

  /** The web page shows a published `maintenance` heartbeat as offline and
      the other two statuses as themselves. */
  lemma HeartbeatReadByWeb(cardId: string, st: HB.Status)
    ensures WN.ScanStatus(HeartbeatTags(cardId, st)) ==
      match st
      case Available => WN.Available
      case Busy => WN.Busy
      case Maintenance => WN.Offline
  {
    var t := HeartbeatTags(cardId, st);
    var name := HB.StatusName(st);
    assert ToLower(name) == name;
    assert WN.IsStatusTag(t[1]);
    WN.ScanStatusLast(t, 1);
  }

  /** A card the service publishes parses, under the crate's parser, to the
      same id, name, about and capabilities, with the DM protocol exactly
      when the channel is enabled. */
  lemma CardReadByCrate(cardId: string, s: CardState, cfg: NostrConfig, relays: seq<string>)
    ensures SC.Decode(CardEvent(cardId, s, cfg, relays).tags) == Ok(SC.ServiceCard(
      cardId, CardName(s, cfg), CardAbout(s, cfg), s.capabilities,
      if cfg.enabled != Some(false) then [SC.Dm(Join(relays, ","))] else []))
  {
    var name := CardName(s, cfg);
    var about := CardAbout(s, cfg);
    var h := CardHeader(cardId, name, about);
    var c := SC.CapabilityTags(s.capabilities);
    var r := EntryTags(AdvertisedProtocols(cfg, relays));
    var acc := SC.Partial(Some(cardId), Some(name), Some(about), s.capabilities, [], []);
    CardBodyScan(cardId, name, about, s.capabilities);
    SC.ScanAppend(SC.Start, h + c, r);
    if cfg.enabled != Some(false) {
      var e := ["r", "dm", Join(relays, ",")];
      assert r == [e];
      SC.ScanOne(acc, e);
      var done := acc.(protos := [SC.Dm(Join(relays, ","))]);
      assert SC.ScanFrom(SC.Start, h + c + r) == done;
      assert SC.AttachKinds(done.protos, []) == [SC.Dm(Join(relays, ","))];
    } else {
      assert r == [];
    }
  }

  lemma CardBodyScan(id: string, name: string, about: string, caps: seq<SC.Capability>)
    ensures SC.ScanFrom(SC.Start, CardHeader(id, name, about) + SC.CapabilityTags(caps))
         == SC.Partial(Some(id), Some(name), Some(about), caps, [], [])
  {
    var h := CardHeader(id, name, about);
    CardHeaderScan(id, name, about);
    SC.ScanAppend(SC.Start, h, SC.CapabilityTags(caps));
    SC.ScanCapabilities(SC.Start.(id := Some(id), name := Some(name), about := Some(about)), caps);
    assert [] + caps == caps;
  }

  lemma CardHeaderScan(id: string, name: string, about: string)
    ensures SC.ScanFrom(SC.Start, CardHeader(id, name, about)) == SC.Partial(Some(id), Some(name), Some(about), [], [], [])
  {
    var h := CardHeader(id, name, about);
    var st := SC.Start;
    assert SC.ScanFrom(st, h[..0]) == st;
    SC.ScanPrefix(st, h, 0);
    assert SC.ScanFrom(st, h[..1]) == st.(id := Some(id));
    SC.ScanPrefix(st, h, 1);
    assert SC.ScanFrom(st, h[..2]) == st.(id := Some(id), name := Some(name));
    SC.ScanPrefix(st, h, 2);
    assert SC.ScanFrom(st, h[..3]) == st.(id := Some(id), name := Some(name), about := Some(about));
    SC.ScanPrefix(st, h, 3);
    SC.ScanPrefix(st, h, 4);
    assert h[..5] == h;
  }

  // ----- discoverAgents -----

  datatype FoundCapability = FoundCapability(id: Option<string>, description: string)
  datatype FoundProtocol = FoundProtocol(protocolType: Option<string>, endpoint: string)

  /** An entry of the `discoverAgents` result; `lastSeen` is in unix seconds. */
  datatype FoundAgent = FoundAgent(
    name: string,
    npub: string,
    pubkey: string,
    about: string,
    capabilities: seq<FoundCapability>,
    protocols: seq<FoundProtocol>,
    online: bool,
    lastSeen: Option<int>)

  predicate HasName(t: Tag, key: string) {
    |t| > 0 && t[0] == key
  }

  /** `tags.find(t => t[0] === key)`: the index of the first tag named `key`. */
  function FindTag(tags: seq<Tag>, key: string): (r: Option<nat>)
    ensures r.Some? ==>
      (r.value < |tags| && HasName(tags[r.value], key)
       && forall j :: 0 <= j < r.value ==> !HasName(tags[j], key))
    ensures r.None? ==> forall j :: 0 <= j < |tags| ==> !HasName(tags[j], key)
  {
    if tags == [] then None
    else if HasName(tags[0], key) then Some(0)
    else match FindTag(tags[1..], key)
      case None => None
      case Some(i) => Some(i + 1)
  }

  /** `tags.find(t => t[0] === key)?.[1] ?? default`. */
  function FirstValue(tags: seq<Tag>, key: string, default: string): string {
    match FindTag(tags, key)
    case None => default
    case Some(i) => if |tags[i]| >= 2 then tags[i][1] else default
  }

  /** The `c` tags, in order, as `{id: t[1], description: t[2] ?? ""}`. */
  function FoundCapabilities(tags: seq<Tag>): seq<FoundCapability>
    decreases |tags|
  {
    if tags == [] then []
    else
      var t := tags[|tags| - 1];
      FoundCapabilities(tags[..|tags| - 1])
        + (if HasName(t, "c") then
             [FoundCapability(if |t| >= 2 then Some(t[1]) else None, if |t| >= 3 then t[2] else "")]
           else [])
  }

  /** The `r` tags, in order, as `{type: t[1], endpoint: t[2] ?? ""}`. */
  function FoundProtocols(tags: seq<Tag>): seq<FoundProtocol>
    decreases |tags|
  {
    if tags == [] then []
    else
      var t := tags[|tags| - 1];
      FoundProtocols(tags[..|tags| - 1])
        + (if HasName(t, "r") then
             [FoundProtocol(if |t| >= 2 then Some(t[1]) else None, if |t| >= 3 then t[2] else "")]
           else [])
  }

  /** One card event as `discoverAgents` lists it; `None` when the npub
      encoding throws and the event is skipped. */
  function ParseFound(ev: Event, npubEncode: string -> Option<string>): Option<FoundAgent> {
    match npubEncode(ev.pubkey)
    case None => None
    case Some(npub) =>
      Some(FoundAgent(
        FirstValue(ev.tags, "name", "Unknown"),
        npub,
        ev.pubkey,
        FirstValue(ev.tags, "about", ""),
        FoundCapabilities(ev.tags),
        FoundProtocols(ev.tags),
        false,
        None))
  }

  function ParseAll(events: seq<Event>, npubEncode: string -> Option<string>): seq<FoundAgent>
    decreases |events|
  {
    if events == [] then []
    else
      var init := ParseAll(events[..|events| - 1], npubEncode);
      match ParseFound(events[|events| - 1], npubEncode)
      case None => init
      case Some(a) => init + [a]
  }

  function Pubkeys(agents: seq<FoundAgent>): (r: seq<string>)
    ensures |r| == |agents|
  {
    seq(|agents|, i requires 0 <= i < |agents| => agents[i].pubkey)
  }

  /** `agents.find(a => a.pubkey === pk)`: the first agent with that key. */
  function FirstWith(pks: seq<string>, pk: string): (r: Option<nat>)
    ensures r.Some? ==>
      (r.value < |pks| && pks[r.value] == pk
       && forall j :: 0 <= j < r.value ==> pks[j] != pk)
    ensures r.None? ==> pk !in pks
  {
    if pks == [] then None
    else if pks[0] == pk then Some(0)
    else match FirstWith(pks[1..], pk)
      case None => None
      case Some(i) => Some(i + 1)
  }

  /** Some heartbeat from `pk` is younger than the online window. */
  function AnyRecent(hbs: seq<Event>, pk: string, now: int): (r: bool)
    ensures r <==> exists j :: 0 <= j < |hbs| && hbs[j].pubkey == pk && now - hbs[j].createdAt < ONLINE_WINDOW_S
    decreases |hbs|
  {
    if hbs == [] then false
    else
      var h := hbs[|hbs| - 1];
      var r := AnyRecent(hbs[..|hbs| - 1], pk, now) || (h.pubkey == pk && now - h.createdAt < ONLINE_WINDOW_S);
      assert forall j :: 0 <= j < |hbs| - 1 ==> hbs[..|hbs| - 1][j] == hbs[j];
      r
  }

  function MaxSeen(a: Option<int>, b: int): int {
    if a.None? then b else Max(a.value, b)
  }

  /** The newest `created_at` among the heartbeats from `pk`. */
  function Latest(hbs: seq<Event>, pk: string): (r: Option<int>)
    ensures r.None? <==> forall j :: 0 <= j < |hbs| ==> hbs[j].pubkey != pk
    ensures r.Some? ==>
      (exists j :: 0 <= j < |hbs| && hbs[j].pubkey == pk && hbs[j].createdAt == r.value)
      && forall j :: 0 <= j < |hbs| && hbs[j].pubkey == pk ==> hbs[j].createdAt <= r.value
    decreases |hbs|
  {
    if hbs == [] then None
    else
      var h := hbs[|hbs| - 1];
      var init := Latest(hbs[..|hbs| - 1], pk);
      assert forall j :: 0 <= j < |hbs| - 1 ==> hbs[..|hbs| - 1][j] == hbs[j];
      if h.pubkey == pk then Some(MaxSeen(init, h.createdAt)) else init
  }

  /** `lastSeen` after folding the heartbeats over a starting value. */
  function Seen(start: Option<int>, hbs: seq<Event>, pk: string): Option<int> {
    match Latest(hbs, pk)
    case None => start
    case Some(l) => Some(MaxSeen(start, l))
  }

  /** Agent i after the heartbeat loop over `hbs`: only the first agent
      with a given key takes the heartbeats of that key. */
  function Marked(agents: seq<FoundAgent>, hbs: seq<Event>, now: int, i: nat): FoundAgent
    requires i < |agents|
  {
    var a := agents[i];
    if FirstWith(Pubkeys(agents), a.pubkey) == Some(i) then
      a.(online := a.online || AnyRecent(hbs, a.pubkey, now), lastSeen := Seen(a.lastSeen, hbs, a.pubkey))
    else a
  }

  /** One iteration of the heartbeat loop on the agent it matched. */
  function Touch(a: FoundAgent, hb: Event, now: int): FoundAgent {
    a.(online := if now - hb.createdAt < ONLINE_WINDOW_S then true else a.online,
       lastSeen := if a.lastSeen.None? || hb.createdAt > a.lastSeen.value then Some(hb.createdAt) else a.lastSeen)
  }

  lemma SeenSnoc(start: Option<int>, hbs: seq<Event>, hb: Event, pk: string)
    ensures Seen(start, hbs + [hb], pk) ==
      if hb.pubkey != pk then Seen(start, hbs, pk)
      else Some(MaxSeen(Seen(start, hbs, pk), hb.createdAt))
  {
    var s := hbs + [hb];
    assert s[..|s| - 1] == hbs;
  }

  lemma AnyRecentSnoc(hbs: seq<Event>, hb: Event, pk: string, now: int)
    ensures AnyRecent(hbs + [hb], pk, now) ==
      (AnyRecent(hbs, pk, now) || (hb.pubkey == pk && now - hb.createdAt < ONLINE_WINDOW_S))
  {
    var s := hbs + [hb];
    assert s[..|s| - 1] == hbs;
  }

  /** A heartbeat touches exactly the first agent with its key. */
  lemma MarkedSnoc(agents: seq<FoundAgent>, hbs: seq<Event>, hb: Event, now: int, i: nat)
    requires i < |agents|
    ensures Marked(agents, hbs + [hb], now, i) ==
      if FirstWith(Pubkeys(agents), hb.pubkey) == Some(i) then Touch(Marked(agents, hbs, now, i), hb, now)
      else Marked(agents, hbs, now, i)
  {
    var pk := agents[i].pubkey;
    SeenSnoc(agents[i].lastSeen, hbs, hb, pk);
    AnyRecentSnoc(hbs, hb, pk, now);
    assert Pubkeys(agents)[i] == pk;
  }

  /** The heartbeat loop of `discoverAgents`, updating the agents in place. */
  method MarkHeartbeats(agents: seq<FoundAgent>, hbs: seq<Event>, now: int) returns (r: seq<FoundAgent>)
    ensures |r| == |agents|
    ensures forall i :: 0 <= i < |agents| ==> r[i] == Marked(agents, hbs, now, i)
  {
    r := agents;
    for k := 0 to |hbs|
      invariant |r| == |agents| && Pubkeys(r) == Pubkeys(agents)
      invariant forall i :: 0 <= i < |agents| ==> r[i] == Marked(agents, hbs[..k], now, i)
    {
      var hb := hbs[k];
      var found := FirstWith(Pubkeys(r), hb.pubkey);
      if found.Some? {
        r := r[found.value := Touch(r[found.value], hb, now)];
        assert Pubkeys(r) == Pubkeys(agents) by {
          assert forall i :: 0 <= i < |r| ==> Pubkeys(r)[i] == Pubkeys(agents)[i];
        }
      }
      assert hbs[..k + 1] == hbs[..k] + [hb];
      forall i | 0 <= i < |agents|
        ensures r[i] == Marked(agents, hbs[..k + 1], now, i)
      {
        MarkedSnoc(agents, hbs[..k], hb, now, i);
      }
    }
    assert hbs[..|hbs|] == hbs;
  }

  /** `discoverAgents`, given what the two relay queries returned and the
      current unix time in seconds. */
  method DiscoverAgents(cards: seq<Event>, hbs: seq<Event>, npubEncode: string -> Option<string>, now: int)
    returns (r: seq<FoundAgent>)
    ensures |r| == |ParseAll(cards, npubEncode)|
    ensures forall i :: 0 <= i < |r| ==>
      var a := ParseAll(cards, npubEncode)[i];
      var first := FirstWith(Pubkeys(ParseAll(cards, npubEncode)), a.pubkey) == Some(i);
      && r[i].(online := false, lastSeen := None) == a
      && r[i].online == (first && AnyRecent(hbs, a.pubkey, now))
      && r[i].lastSeen == (if first then Latest(hbs, a.pubkey) else None)
  {
    var agents: seq<FoundAgent> := [];
    for k := 0 to |cards|
      invariant agents == ParseAll(cards[..k], npubEncode)
    {
      assert cards[..k + 1][..k] == cards[..k];
      var parsed := ParseFound(cards[k], npubEncode);
      if parsed.Some? {
        agents := agents + [parsed.value];
      }
    }
    assert cards[..|cards|] == cards;
    ParsedAreFresh(cards, npubEncode);
    if |agents| > 0 {
      r := MarkHeartbeats(agents, hbs, now);
    } else {
      r := agents;
    }
  }

  lemma {:induction false} ParsedAreFresh(events: seq<Event>, npubEncode: string -> Option<string>)
    ensures forall i :: 0 <= i < |ParseAll(events, npubEncode)| ==>
      !ParseAll(events, npubEncode)[i].online && ParseAll(events, npubEncode)[i].lastSeen.None?
    decreases |events|
  {
    if events != [] {
      ParsedAreFresh(events[..|events| - 1], npubEncode);
    }
  }

  /** `discoverAgents` reads a card the service published back: its name,
      about, capabilities and protocols as published. */
  lemma CardReadByDiscovery(ev: Event, npub: string, npubEncode: string -> Option<string>,
                            id: string, name: string, about: string,
                            caps: seq<SC.Capability>, protos: seq<ProtocolEntry>)
    requires ev.tags == CardTags(id, name, about, caps, protos)
    requires npubEncode(ev.pubkey) == Some(npub)
    ensures ParseFound(ev, npubEncode) == Some(FoundAgent(
      name, npub, ev.pubkey, about,
      seq(|caps|, i requires 0 <= i < |caps| => FoundCapability(Some(caps[i].id), caps[i].description)),
      seq(|protos|, i requires 0 <= i < |protos| => FoundProtocol(Some(protos[i].protocolType), EntryEndpoint(protos[i]))),
      false, None))
  {
    CardFirstValues(id, name, about, caps, protos);
    CardLists(id, name, about, caps, protos);
  }

  lemma CardFirstValues(id: string, name: string, about: string, caps: seq<SC.Capability>, protos: seq<ProtocolEntry>)
    ensures FirstValue(CardTags(id, name, about, caps, protos), "name", "Unknown") == name
    ensures FirstValue(CardTags(id, name, about, caps, protos), "about", "") == about
  {
    var t := CardTags(id, name, about, caps, protos);
    assert t[0] == ["d", id] && t[1] == ["name", name] && t[2] == ["about", about];
    assert FindTag(t[1..], "name") == Some(0);
    assert FindTag(t, "name") == Some(1);
    assert t[1..][1..] == t[2..];
    assert FindTag(t[2..], "about") == Some(0);
    assert FindTag(t[1..], "about") == Some(1);
    assert FindTag(t, "about") == Some(2);
  }

  lemma CardLists(id: string, name: string, about: string, caps: seq<SC.Capability>, protos: seq<ProtocolEntry>)
    ensures FoundCapabilities(CardTags(id, name, about, caps, protos))
      == seq(|caps|, i requires 0 <= i < |caps| => FoundCapability(Some(caps[i].id), caps[i].description))
    ensures FoundProtocols(CardTags(id, name, about, caps, protos))
      == seq(|protos|, i requires 0 <= i < |protos| => FoundProtocol(Some(protos[i].protocolType), EntryEndpoint(protos[i])))
  {
    CardCapabilityList(id, name, about, caps, protos);
    CardProtocolList(id, name, about, caps, protos);
  }

  lemma CardCapabilityList(id: string, name: string, about: string, caps: seq<SC.Capability>, protos: seq<ProtocolEntry>)
    ensures FoundCapabilities(CardTags(id, name, about, caps, protos))
      == seq(|caps|, i requires 0 <= i < |caps| => FoundCapability(Some(caps[i].id), caps[i].description))
  {
    var h := CardHeader(id, name, about);
    var c := SC.CapabilityTags(caps);
    var r := EntryTags(protos);
    FoundCapabilitiesAppend(h + c, r);
    FoundCapabilitiesAppend(h, c);
    NoCapabilities(h);
    NoCapabilities(r);
    CapabilitiesFound(caps);
  }

  lemma CardProtocolList(id: string, name: string, about: string, caps: seq<SC.Capability>, protos: seq<ProtocolEntry>)
    ensures FoundProtocols(CardTags(id, name, about, caps, protos))
      == seq(|protos|, i requires 0 <= i < |protos| => FoundProtocol(Some(protos[i].protocolType), EntryEndpoint(protos[i])))
  {
    var h := CardHeader(id, name, about);
    var c := SC.CapabilityTags(caps);
    var r := EntryTags(protos);
    FoundProtocolsAppend(h + c, r);
    FoundProtocolsAppend(h, c);
    NoProtocols(h);
    NoProtocols(c);
    ProtocolsFound(protos);
  }

  lemma {:induction false} FoundCapabilitiesAppend(a: seq<Tag>, b: seq<Tag>)
    ensures FoundCapabilities(a + b) == FoundCapabilities(a) + FoundCapabilities(b)
    decreases |b|
  {
    if b == [] {
      assert a + b == a;
    } else {
      assert (a + b)[..|a + b| - 1] == a + b[..|b| - 1];
      FoundCapabilitiesAppend(a, b[..|b| - 1]);
    }
  }

  lemma {:induction false} FoundProtocolsAppend(a: seq<Tag>, b: seq<Tag>)
    ensures FoundProtocols(a + b) == FoundProtocols(a) + FoundProtocols(b)
    decreases |b|
  {
    if b == [] {
      assert a + b == a;
    } else {
      assert (a + b)[..|a + b| - 1] == a + b[..|b| - 1];
      FoundProtocolsAppend(a, b[..|b| - 1]);
    }
  }

  lemma {:induction false} NoCapabilities(tags: seq<Tag>)
    requires forall i :: 0 <= i < |tags| ==> !HasName(tags[i], "c")
    ensures FoundCapabilities(tags) == []
    decreases |tags|
  {
    if tags != [] {
      NoCapabilities(tags[..|tags| - 1]);
    }
  }

  lemma {:induction false} NoProtocols(tags: seq<Tag>)
    requires forall i :: 0 <= i < |tags| ==> !HasName(tags[i], "r")
    ensures FoundProtocols(tags) == []
    decreases |tags|
  {
    if tags != [] {
      NoProtocols(tags[..|tags| - 1]);
    }
  }

  lemma {:induction false} CapabilitiesFound(caps: seq<SC.Capability>)
    ensures FoundCapabilities(SC.CapabilityTags(caps))
      == seq(|caps|, i requires 0 <= i < |caps| => FoundCapability(Some(caps[i].id), caps[i].description))
    decreases |caps|
  {
    if caps != [] {
      var init := caps[..|caps| - 1];
      CapabilitiesFound(init);
      assert SC.CapabilityTags(caps)[..|caps| - 1] == SC.CapabilityTags(init);
    }
  }

  lemma {:induction false} ProtocolsFound(protos: seq<ProtocolEntry>)
    ensures FoundProtocols(EntryTags(protos))
      == seq(|protos|, i requires 0 <= i < |protos| => FoundProtocol(Some(protos[i].protocolType), EntryEndpoint(protos[i])))
    decreases |protos|
  {
    if protos != [] {
      var init := protos[..|protos| - 1];
      ProtocolsFound(init);
      assert EntryTags(protos)[..|protos| - 1] == EntryTags(init);
    }
  }

  /** A card whose first `name` tag carries no value is listed as "Unknown",
      even when a later `name` tag has one. */
  lemma BareNameIsUnknown(rest: seq<Tag>)
    ensures FirstValue([["name"]] + rest, "name", "Unknown") == "Unknown"
  {
  }
}
