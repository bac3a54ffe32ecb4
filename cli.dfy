/** The agent-reach command-line tool: its argument parsers, relay
    selection, identity loading, the service card `publish` builds, and the
    liveness report of `status`. Key decoding and derivation are functions
    given as parameters. */
module Cli {
  import opened Common
  import opened Text
  import opened ServiceCardCodec
  import HB = Heartbeat
  import Publisher

  const DEFAULT_RELAYS: seq<string> := ["wss://relay.damus.io", "wss://nos.lol", "wss://relay.nostr.band"]
  const CAPABILITY_FORMAT_ERROR := "Capability must be in format 'id:description'"
  const PROTOCOL_FORMAT_ERROR := "Protocol must be in format 'type:endpoint'"
  /** A heartbeat younger than this many seconds means online. */
  const ONLINE_WINDOW_S := 900

  // ----- argument parsers -----

  /** `parse_capability`: split at the first ':' only. */
  function ParseCapability(s: string): (r: Result<Capability, string>)
    ensures r.Err? <==> ':' !in s
    ensures r.Err? ==> r.error == CAPABILITY_FORMAT_ERROR
    ensures r.Ok? ==> s == r.value.id + ":" + r.value.description && ':' !in r.value.id
  {
    SplitOnceSpec(s, ':');
    match SplitOnce(s, ':')
    case None => Err(CAPABILITY_FORMAT_ERROR)
    case Some((id, description)) => Ok(Capability(id, description))
  }

  /** An id without ':' and any description (colons allowed) come back
      from their `id:description` form. */
  lemma CapabilityRoundTrip(c: Capability)
    requires ':' !in c.id
    ensures ParseCapability(c.id + ":" + c.description) == Ok(c)
  {
    SplitOnceJoin(c.id, c.description, ':');
  }

  /** `parse_protocol`: split at the first ':'; the five built-in type names
      select their variant (DVM with no job kinds), any other is custom. */
  function ParseProtocol(s: string): (r: Result<Protocol, string>)
    ensures r.Err? <==> ':' !in s
    ensures r.Err? ==> r.error == PROTOCOL_FORMAT_ERROR
  {
    SplitOnceSpec(s, ':');
    match SplitOnce(s, ':')
    case None => Err(PROTOCOL_FORMAT_ERROR)
    case Some((kind, endpoint)) =>
      if kind == "dm" then Ok(Dm(endpoint))
      else if kind == "dvm" then Ok(Dvm(endpoint, []))
      else if kind == "a2a" then Ok(A2a(endpoint))
      else if kind == "mcp" then Ok(Mcp(endpoint))
      else if kind == "http" then Ok(Http(endpoint))
      else Ok(Custom(kind, endpoint))
  }

  /** The CLI reads `type:endpoint` exactly as the crate's parser reads an
      `r` tag with those two values: same id, same endpoint, custom exactly
      for unknown types, never an ambiguous custom protocol, never DVM job
      kinds. */
  lemma ParseProtocolMeaning(s: string)
    requires ':' in s
    ensures var (kind, endpoint) := SplitOnce(s, ':').value;
      && ParseProtocol(s) == Ok(ProtocolFromTag(kind, endpoint))
      && ProtocolId(ParseProtocol(s).value) == kind
      && ProtocolEndpoint(ParseProtocol(s).value) == endpoint
      && s == kind + ":" + endpoint
      && !Ambiguous(ParseProtocol(s).value)
      && KindsOf(ParseProtocol(s).value) == []
  {
    SplitOnceSpec(s, ':');
  }

  /** A protocol whose id has no ':' comes back from its `type:endpoint`
      form, without job kinds, unless it is an ambiguous custom one. */
  lemma ProtocolRoundTrip(p: Protocol)
    requires ':' !in ProtocolId(p) && !Ambiguous(p)
    ensures ParseProtocol(ProtocolId(p) + ":" + ProtocolEndpoint(p)) == Ok(Stripped(p))
  {
    SplitOnceJoin(ProtocolId(p), ProtocolEndpoint(p), ':');
    ProtocolFromOwnTag(p);
    ParseProtocolMeaning(ProtocolId(p) + ":" + ProtocolEndpoint(p));
  }

  // ----- relays and identity -----

  /** `get_relays`: the command-line relays, else the configured ones, else
      the three defaults. */
  function GetRelays(cliRelays: seq<string>, configRelays: seq<string>): (r: seq<string>)
    ensures r != []
    ensures cliRelays != [] ==> r == cliRelays
    ensures cliRelays == [] && configRelays != [] ==> r == configRelays
    ensures cliRelays == [] && configRelays == [] ==> r == DEFAULT_RELAYS
  {
    var relays := if cliRelays == [] then configRelays else cliRelays;
    if relays == [] then DEFAULT_RELAYS else relays
  }

  /** The card id used when none is given: the first 8 hex digits of the
      public key and "-v1". */
  function DefaultCardId(pubkeyHex: string): (r: string)
    requires |pubkeyHex| >= 8
    ensures |r| == 11 && r[..8] == pubkeyHex[..8] && r[8..] == "-v1"
  {
    pubkeyHex[..8] + "-v1"
  }

  /** The CLI and the OpenClaw service derive the same card id from a key. */
  lemma SameDefaultCardId(pubkeyHex: string)
    requires |pubkeyHex| >= 8
    ensures DefaultCardId(pubkeyHex) == Publisher.CardIdOf(pubkeyHex)
  {
  }

  /** The `channels.nostr` section of the OpenClaw configuration. */
  datatype NostrSection = NostrSection(
    privateKey: Option<string>,
    relays: Option<seq<string>>,
    profileName: Option<string>,
    profileAbout: Option<string>)

  /** The secret key is a byte string; `KeyCodecs` decode and derive from it. */
  datatype KeyCodecs = KeyCodecs(
    fromBech32: string -> Result<seq<int>, string>,
    fromHex: string -> Result<seq<int>, string>,
    publicHex: seq<int> -> string,
    npubOf: seq<int> -> Result<string, string>)

  datatype Identity = Identity(
    secretKey: seq<int>,
    pubkeyHex: string,
    npub: string,
    name: string,
    about: string,
    relays: seq<string>)

  /** `load_identity` after the file is read and parsed (`nostr` is `None`
      when `channels` or `channels.nostr` is absent). */
  function LoadIdentity(nostr: Option<NostrSection>, codecs: KeyCodecs): (r: Result<Identity, string>)
    ensures nostr.None? ==> r == Err("channels.nostr not configured")
    ensures nostr.Some? && nostr.value.privateKey.None? ==> r == Err("channels.nostr.privateKey not set")
    ensures r.Ok? ==>
      var n := nostr.value;
      var key := n.privateKey.value;
      && (StartsWith(key, "nsec1") ==> codecs.fromBech32(key) == Ok(r.value.secretKey))
      && (!StartsWith(key, "nsec1") ==> codecs.fromHex(key) == Ok(r.value.secretKey))
      && r.value.name == (if n.profileName.Some? then n.profileName.value else "Agent")
      && r.value.about == (if n.profileAbout.Some? then n.profileAbout.value else "")
      && r.value.relays == (if n.relays.Some? then n.relays.value else DEFAULT_RELAYS)
    ensures r.Ok? ==>
      && r.value.pubkeyHex == codecs.publicHex(r.value.secretKey)
      && codecs.npubOf(r.value.secretKey) == Ok(r.value.npub)
    ensures nostr.Some? && nostr.value.privateKey.Some? ==>
      var key := nostr.value.privateKey.value;
      var decoded := if StartsWith(key, "nsec1") then codecs.fromBech32(key) else codecs.fromHex(key);
      (r.Ok? <==> decoded.Ok? && codecs.npubOf(decoded.value).Ok?)
  {
    if nostr.None? then Err("channels.nostr not configured")
    else if nostr.value.privateKey.None? then Err("channels.nostr.privateKey not set")
    else
      var n := nostr.value;
      var key := n.privateKey.value;
      var secret :=
        if StartsWith(key, "nsec1") then
          match codecs.fromBech32(key)
          case Ok(k) => Ok(k)
          case Err(e) => Err("Invalid nsec key: " + e)
        else codecs.fromHex(key);
      if secret.Err? then Err(secret.error)
      else match codecs.npubOf(secret.value)
        case Err(e) => Err(e)
        case Ok(npub) =>
          Ok(Identity(
            secret.value,
            codecs.publicHex(secret.value),
            npub,
            if n.profileName.Some? then n.profileName.value else "Agent",
            if n.profileAbout.Some? then n.profileAbout.value else "",
            if n.relays.Some? then n.relays.value else DEFAULT_RELAYS))
  }

  /** A key beginning with "nsec1" is only ever decoded as bech32, and a
      bech32 failure is reported as an invalid nsec key. */
  lemma NsecKeysAreBech32(n: NostrSection, codecs: KeyCodecs)
    requires n.privateKey.Some? && StartsWith(n.privateKey.value, "nsec1")
    requires codecs.fromBech32(n.privateKey.value).Err?
    ensures LoadIdentity(Some(n), codecs) == Err("Invalid nsec key: " + codecs.fromBech32(n.privateKey.value).error)
  {
  }

  // ----- publish -----

  /** The capability arguments parsed in order; the first malformed one
      fails the command. */
  function ParseCapabilities(args: seq<string>): (r: Result<seq<Capability>, string>)
    ensures r.Ok? <==> forall i :: 0 <= i < |args| ==> ':' in args[i]
    ensures r.Ok? ==> |r.value| == |args| && forall i :: 0 <= i < |args| ==> Ok(r.value[i]) == ParseCapability(args[i])
    ensures r.Err? ==> r.error == CAPABILITY_FORMAT_ERROR
    decreases |args|
  {
    if args == [] then Ok([])
    else
      var init := ParseCapabilities(args[..|args| - 1]);
      assert forall i :: 0 <= i < |args| - 1 ==> args[..|args| - 1][i] == args[i];
      if init.Err? then init
      else match ParseCapability(args[|args| - 1])
        case Err(e) => Err(e)
        case Ok(c) => Ok(init.value + [c])
  }

  /** The protocol arguments parsed in order; the first malformed one fails
      the command. */
  function ParseProtocols(args: seq<string>): (r: Result<seq<Protocol>, string>)
    ensures r.Ok? <==> forall i :: 0 <= i < |args| ==> ':' in args[i]
    ensures r.Ok? ==> |r.value| == |args| && forall i :: 0 <= i < |args| ==> Ok(r.value[i]) == ParseProtocol(args[i])
    ensures r.Err? ==> r.error == PROTOCOL_FORMAT_ERROR
    decreases |args|
  {
    if args == [] then Ok([])
    else
      var init := ParseProtocols(args[..|args| - 1]);
      assert forall i :: 0 <= i < |args| - 1 ==> args[..|args| - 1][i] == args[i];
      if init.Err? then init
      else match ParseProtocol(args[|args| - 1])
        case Err(e) => Err(e)
        case Ok(p) => Ok(init.value + [p])
  }

  /** The card `publish` sends: the given id, name and about or the
      identity's defaults, the parsed capabilities and protocols in order. */
  function PublishCard(identity: Identity, id: Option<string>, name: Option<string>, about: Option<string>,
                       capArgs: seq<string>, protoArgs: seq<string>): Result<ServiceCard, string>
    requires |identity.pubkeyHex| >= 8
  {
    match ParseCapabilities(capArgs)
    case Err(e) => Err(e)
    case Ok(caps) =>
      match ParseProtocols(protoArgs)
      case Err(e) => Err(e)
      case Ok(protos) =>
        Ok(ServiceCard(
          if id.Some? then id.value else DefaultCardId(identity.pubkeyHex),
          if name.Some? then name.value else identity.name,
          if about.Some? then about.value else identity.about,
          caps, protos))
  }

  /** `cmd_publish` up to the network: the builder folded over the
      capability and protocol arguments. */
  method BuildPublishCard(identity: Identity, id: Option<string>, name: Option<string>, about: Option<string>,
                          capArgs: seq<string>, protoArgs: seq<string>) returns (r: Result<ServiceCard, string>)
    requires |identity.pubkeyHex| >= 8
    ensures r == PublishCard(identity, id, name, about, capArgs, protoArgs)
  {
    var cardId := if id.Some? then id.value else DefaultCardId(identity.pubkeyHex);
    var cardName := if name.Some? then name.value else identity.name;
    var cardAbout := if about.Some? then about.value else identity.about;
    var builder := new ServiceCardBuilder(cardId, cardName);
    builder.WithAbout(cardAbout);
    var capError := AddCapabilities(builder, capArgs);
    if capError.Some? {
      return Err(capError.value);
    }
    assert builder.capabilities == ParseCapabilities(capArgs).value;
    var protoError := AddProtocols(builder, protoArgs);
    if protoError.Some? {
      return Err(protoError.value);
    }
    assert builder.protocols == ParseProtocols(protoArgs).value;
    var card := builder.Build();
    return Ok(card);
  }

  /** The capability loop of `cmd_publish`: each argument parsed and added
      in turn, stopping at the first malformed one. */
  method AddCapabilities(builder: ServiceCardBuilder, args: seq<string>) returns (error: Option<string>)
    modifies builder
    ensures builder.id == old(builder.id) && builder.name == old(builder.name)
    ensures builder.about == old(builder.about) && builder.protocols == old(builder.protocols)
    ensures error.None? <==> ParseCapabilities(args).Ok?
    ensures error.Some? ==> Err(error.value) == ParseCapabilities(args)
    ensures error.None? ==> builder.capabilities == old(builder.capabilities) + ParseCapabilities(args).value
  {
    for i := 0 to |args|
      invariant ParseCapabilities(args[..i]).Ok?
      invariant builder.capabilities == old(builder.capabilities) + ParseCapabilities(args[..i]).value
      invariant builder.id == old(builder.id) && builder.name == old(builder.name)
      invariant builder.about == old(builder.about) && builder.protocols == old(builder.protocols)
    {
      assert args[..i + 1][..i] == args[..i];
      var cap := ParseCapability(args[i]);
      if cap.Err? {
        ParseCapabilitiesErrorPersists(args, i + 1);
        return Some(cap.error);
      }
      builder.WithCapability(cap.value.id, cap.value.description);
    }
    assert args[..|args|] == args;
    return None;
  }

  /** The protocol loop of `cmd_publish`. */
  method AddProtocols(builder: ServiceCardBuilder, args: seq<string>) returns (error: Option<string>)
    modifies builder
    ensures builder.id == old(builder.id) && builder.name == old(builder.name)
    ensures builder.about == old(builder.about) && builder.capabilities == old(builder.capabilities)
    ensures error.None? <==> ParseProtocols(args).Ok?
    ensures error.Some? ==> Err(error.value) == ParseProtocols(args)
    ensures error.None? ==> builder.protocols == old(builder.protocols) + ParseProtocols(args).value
  {
    for i := 0 to |args|
      invariant ParseProtocols(args[..i]).Ok?
      invariant builder.protocols == old(builder.protocols) + ParseProtocols(args[..i]).value
      invariant builder.id == old(builder.id) && builder.name == old(builder.name)
      invariant builder.about == old(builder.about) && builder.capabilities == old(builder.capabilities)
    {
      assert args[..i + 1][..i] == args[..i];
      var proto := ParseProtocol(args[i]);
      if proto.Err? {
        ParseProtocolsErrorPersists(args, i + 1);
        return Some(proto.error);
      }
      builder.WithProtocol(proto.value);
    }
    assert args[..|args|] == args;
    return None;
  }

  lemma ParseCapabilitiesErrorPersists(args: seq<string>, n: nat)
    requires n <= |args| && ParseCapabilities(args[..n]).Err?
    ensures ParseCapabilities(args).Err?
  {
    assert forall i :: 0 <= i < n ==> args[..n][i] == args[i];
  }

  lemma ParseProtocolsErrorPersists(args: seq<string>, n: nat)
    requires n <= |args| && ParseProtocols(args[..n]).Err?
    ensures ParseProtocols(args).Err?
  {
    assert forall i :: 0 <= i < n ==> args[..n][i] == args[i];
  }

  /** Every card `publish` can build survives the wire: the crate's parser
      reads its event tags back to the same card. */
  lemma PublishedCardRoundTrips(identity: Identity, id: Option<string>, name: Option<string>, about: Option<string>,
                                capArgs: seq<string>, protoArgs: seq<string>, ns: string)
    requires |identity.pubkeyHex| >= 8
    requires PublishCard(identity, id, name, about, capArgs, protoArgs).Ok?
    ensures var card := PublishCard(identity, id, name, about, capArgs, protoArgs).value;
      Decode(Encode(card, ns)) == Ok(card)
  {
    var card := PublishCard(identity, id, name, about, capArgs, protoArgs).value;
    var ps := card.protocols;
    forall i | 0 <= i < |ps|
      ensures !Ambiguous(ps[i]) && KindsOf(ps[i]) == []
    {
      ParseProtocolMeaning(protoArgs[i]);
    }
    NoKinds(ps);
    RoundTrip(card, ns);
  }

  lemma {:induction false} NoKinds(ps: seq<Protocol>)
    requires forall i :: 0 <= i < |ps| ==> KindsOf(ps[i]) == []
    ensures AllKinds(ps) == []
    decreases |ps|
  {
    if ps != [] {
      NoKinds(ps[..|ps| - 1]);
    }
  }

  // ----- heartbeat -----

  /** `cmd_heartbeat` up to the network: the status argument parsed with
      the crate's parser and the card id defaulted as for `publish`. */
  function HeartbeatCommand(identity: Identity, statusArg: string, cardId: Option<string>): (r: Result<HB.Heartbeat, string>)
    requires |identity.pubkeyHex| >= 8
    ensures r.Ok? <==> HB.ParseStatus(statusArg).Ok?
    ensures r.Ok? ==> HB.StatusName(r.value.status) == statusArg
    ensures r.Ok? && cardId.Some? ==> r.value.serviceCardId == cardId.value
    ensures r.Ok? && cardId.None? ==> r.value.serviceCardId == Publisher.CardIdOf(identity.pubkeyHex)
  {
    match HB.ParseStatus(statusArg)
    case Err(_) => Err("Parse error: unknown status: " + statusArg)
    case Ok(status) =>
      Ok(HB.Heartbeat(if cardId.Some? then cardId.value else DefaultCardId(identity.pubkeyHex), status))
  }

  /** The heartbeat the CLI sends with a default card id names the card
      the OpenClaw service publishes for the same key. */
  lemma HeartbeatMatchesServiceCard(identity: Identity, st: HB.Status)
    requires |identity.pubkeyHex| >= 8
    ensures HeartbeatCommand(identity, HB.StatusName(st), None)
      == Ok(HB.Heartbeat(Publisher.CardIdOf(identity.pubkeyHex), st))
  {
    HB.StatusRoundTrip(st);
    SameDefaultCardId(identity.pubkeyHex);
  }

  // ----- status -----

  /** `now.saturating_sub(created_at)` on unsigned seconds. */
  function StatusAge(now: nat, createdAt: nat): (age: nat)
    ensures createdAt <= now ==> age == now - createdAt
    ensures createdAt > now ==> age == 0
  {
    if createdAt <= now then now - createdAt else 0
  }

  /** Online means a heartbeat younger than 15 minutes; its status is not
      looked at. */
  predicate StatusOnline(age: nat) {
    age < ONLINE_WINDOW_S
  }

  /** The CLI and the OpenClaw `discoverAgents` agree on a single
      heartbeat, including one stamped in the future. */
  lemma OnlineAgreesWithDiscovery(now: nat, createdAt: nat)
    ensures StatusOnline(StatusAge(now, createdAt)) <==> now - createdAt < Publisher.ONLINE_WINDOW_S
  {
  }

  /** The age text: seconds under a minute, whole minutes under an hour,
      whole hours otherwise. */
  function AgeText(age: nat): (r: string)
    ensures age < 60 ==> r == NatToString(age) + "s ago"
    ensures 60 <= age < 3600 ==> r == NatToString(age / 60) + "m ago"
    ensures age >= 3600 ==> r == NatToString(age / 3600) + "h ago"
  {
    if age < 60 then NatToString(age) + "s ago"
    else if age < 3600 then NatToString(age / 60) + "m ago"
    else NatToString(age / 3600) + "h ago"
  }

  /** The number printed is the age in its unit rounded down and reads
      back as that number; the unit is the largest of seconds, minutes and
      hours that gives a non-zero count, and below hours the count stays
      under 60. */
  lemma AgeTextMeaning(age: nat)
    ensures var unit := if age < 60 then 1 else if age < 3600 then 60 else 3600;
      var n := age / unit;
      && AgeText(age) == NatToString(n) + [if unit == 1 then 's' else if unit == 60 then 'm' else 'h'] + " ago"
      && DigitsValue(NatToString(n)) == n
      && n * unit <= age < (n + 1) * unit
      && (unit < 3600 ==> n < 60)
      && (unit > 1 ==> n >= 1)
  {
    var unit := if age < 60 then 1 else if age < 3600 then 60 else 3600;
    NatToStringValue(age / unit);
  }

  /** What `status` reports. */
  datatype StatusReport =
    | NoServiceCard
    | NoHeartbeat(name: string)
    | Seen(name: string, status: HB.Status, ageSecs: nat, online: bool)

  /** `cmd_status` after its two queries: the agent's first card and its
      first heartbeat with that heartbeat's timestamp. */
  function StatusOf(card: Option<ServiceCard>, heartbeat: Option<(HB.Heartbeat, nat)>, now: nat): (r: StatusReport)
    ensures card.None? <==> r.NoServiceCard?
    ensures card.Some? && heartbeat.None? ==> r == NoHeartbeat(card.value.name)
    ensures r.Seen? ==> (r.online <==> r.ageSecs < ONLINE_WINDOW_S)
    ensures card.Some? && heartbeat.Some? ==> r.Seen?
    ensures r.Seen? ==> r.status == heartbeat.value.0.status && r.name == card.value.name
    ensures r.Seen? ==> r.ageSecs == StatusAge(now, heartbeat.value.1)
  {
    match card
    case None => NoServiceCard
    case Some(c) =>
      match heartbeat
      case None => NoHeartbeat(c.name)
      case Some((hb, createdAt)) =>
        var age := StatusAge(now, createdAt);
        Seen(c.name, hb.status, age, StatusOnline(age))
  }

  /** A heartbeat announcing maintenance still counts as online when it is
      recent. */
  lemma MaintenanceCanBeOnline(c: ServiceCard, now: nat)
    requires now >= 10
    ensures StatusOf(Some(c), Some((HB.Heartbeat(c.id, HB.Maintenance), now - 10)), now)
      == Seen(c.name, HB.Maintenance, 10, true)
  {
  }
}
