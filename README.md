# agent-relay in Dafny

A verified model of the core of agent-relay. agent-relay is a discovery and
reachability layer for AI agents on Nostr. An agent publishes a *service card*
(kind 31990: name, about, capabilities, protocols) and periodic *heartbeats*
(kind 31991: card id and status). Clients find agents by reading these events back.

The model covers every producer and consumer of those two event kinds:

- **The Rust `agent-discovery` crate's codec.** This is the tag layout
  and the defensive parser, in `heartbeat.dfy` and `service_card.dfy`. The
  crate's constants and error type are in `discovery.dfy`.
- **The OpenClaw plug-in's publishing service**, in `publisher.dfy`. It
  covers key parsing, the persisted card state and its merge, online/offline
  transitions and their heartbeat timers, the card tag layout, and
  `discoverAgents`.
- **The OpenClaw plug-in's DM listener**, in `dm_listener.dfy`. It covers
  dedup, the cursor, message injection and the saved state.
- **The web client**, in `web_nostr.dfy` and `web_app.dfy`. The Nostr
  client keeps agents and buffered heartbeats. The app filters, sorts and
  formats them, and toggles the debug panel.
- **The `agent-reach` command-line tool**, in `cli.dfy`. It covers
  argument parsing, relay selection, identity loading, `publish`,
  `heartbeat` and `status`.
- **The registry server**, in `handlers.dfy` and `reach_error.dfy`. It
  covers the challenge/proof handshake, bearer sessions, register, lookup
  and deregister, and the error-to-HTTP mapping.

`common.dfy` holds shared values: `Option`, `Result`, tags and events,
plus string helpers (decimal rendering, ASCII lower-casing, splitting,
JavaScript whitespace trimming, hex digits).

## How code is modelled

- **Stateful code is a class.** The web client, the publishing service,
  the DM listener, the registry server and the card builder each keep their
  state in class fields. Each method's contract ties the new state to a pure
  function of the old state, for example
  `State() == ApplyCard(old(State()), ev, ...)`. The lemmas then prove the
  source's promises about those functions.
- **Loops are methods.** Loops over tags, heartbeats and arguments are
  methods with invariants, proved equal to a fold.
- **The outside world is a parameter.** Cryptography, bech32 and hex
  codecs, URL decoding, the clock, the relay pool and the file system all
  enter as parameters or as plain data:
  - `npubEncode`, `nip19Decode`, `getPublicKey`, `decrypt` and the
    `Crypto`/`KeyCodecs` records are function parameters;
  - the clock is a `now` argument;
  - a state file is an `Option` value.

## Model

| member | source | states |
|---|---|---|
| Heartbeat.ParseStatus | crates/agent-discovery/src/heartbeat.rs:28-39 | accepts exactly "available", "busy" and "maintenance", reads back the displayed name, and otherwise fails with `unknown status: <s>` |
| Heartbeat.StatusRoundTrip | crates/agent-discovery/src/heartbeat.rs:18-39 | parsing the display name of a status gives that status |
| Heartbeat.TryFrom | crates/agent-discovery/src/heartbeat.rs:92-118 | the tag loop computes the fold `Decode` |
| Heartbeat.RoundTrip | crates/agent-discovery/src/heartbeat.rs:67-118 | decoding the tags `to_tags` writes gives back the heartbeat, whatever the namespace label |
| Heartbeat.DecodeMeaning | crates/agent-discovery/src/heartbeat.rs:99-117 | the card id is the last `d` value; a status is present exactly when some `s` tag is, and it parses from the last `s` value; a missing `d` or `s` makes decoding fail |
| Heartbeat.ShortTagIgnored | crates/agent-discovery/src/heartbeat.rs:101-103 | a tag with fewer than two values can be removed without changing the result |
| Heartbeat.UnknownStatusAborts | crates/agent-discovery/src/heartbeat.rs:107 | the first `s` tag with an unknown status makes the whole parse fail with that status's error, whatever follows |
| Heartbeat.ErrorIsFinal | crates/agent-discovery/src/heartbeat.rs:107 | once the parse has failed, later tags never undo the error |
| ServiceCardCodec.ProtocolFromTag | crates/agent-discovery/src/service_card.rs:201-221 | the protocol read from an `r` tag has the tag's id and endpoint, has no DVM job kinds, and is custom exactly when the id is not dm, dvm, a2a, mcp or http |
| ServiceCardCodec.ProtocolFromOwnTag | crates/agent-discovery/src/service_card.rs:87-107 | rebuilding a protocol from its own `id()` and `endpoint()` gives it back without job kinds, unless it is a custom protocol with a reserved id |
| ServiceCardCodec.ProtocolToTags | crates/agent-discovery/src/service_card.rs:109-120 | one `r` tag with id and endpoint, then one `k` tag per DVM job kind in order |
| ServiceCardCodec.ToTags | crates/agent-discovery/src/service_card.rs:137-159 | the tag-building loops compute `Encode` |
| ServiceCardCodec.PushCapabilityTags | crates/agent-discovery/src/service_card.rs:148-151 | the capability loop appends exactly one `c` tag per capability, in order |
| ServiceCardCodec.PushProtocolTags | crates/agent-discovery/src/service_card.rs:153-156 | the protocol loop appends each protocol's tags, in order |
| ServiceCardCodec.EncodeLayout | crates/agent-discovery/src/service_card.rs:137-159 | the five label and identity tags come first, then one `c` tag per capability in order, then the protocol tags |
| ServiceCardCodec.TryFrom | crates/agent-discovery/src/service_card.rs:180-245 | the tag loop and the in-place attachment of job kinds compute `Decode` |
| ServiceCardCodec.AttachKinds | crates/agent-discovery/src/service_card.rs:232-236 | attaching job kinds keeps the number of protocols |
| ServiceCardCodec.ScanCapabilities | crates/agent-discovery/src/service_card.rs:198-200 | reading a run of `c` tags appends exactly those capabilities, in order |
| ServiceCardCodec.ScanKinds | crates/agent-discovery/src/service_card.rs:222-226 | reading rendered `k` tags collects exactly those job kinds |
| ServiceCardCodec.ScanProtocols | crates/agent-discovery/src/service_card.rs:201-226 | reading the tags of unambiguous protocols yields them stripped of kinds, and collects all their kinds in order |
| ServiceCardCodec.AttachRestores | crates/agent-discovery/src/service_card.rs:232-236 | when every DVM protocol carries all the card's kinds, attaching the collected kinds restores the protocols |
| ServiceCardCodec.RoundTrip | crates/agent-discovery/src/service_card.rs:137-245 | every card with no reserved-id custom protocol, whose DVM protocols all carry the card's full kind list, decodes back from its tags |
| ServiceCardCodec.ScanEncode | crates/agent-discovery/src/service_card.rs:137-245 | the parser loop over an encoded card recovers its id, name, about and capabilities, its protocols stripped of kinds, and all kinds in order |
| ServiceCardCodec.SplitKindsMerge | crates/agent-discovery/src/service_card.rs:232-236 | two DVM protocols with different kinds come back both carrying the union, so the round trip needs its precondition |
| ServiceCardCodec.DecodeFields | crates/agent-discovery/src/service_card.rs:194-244 | id, name and about are the last such tag's values; decoding succeeds exactly when `d` and `name` tags exist; a missing about reads as "" |
| ServiceCardCodec.DvmKindsShared | crates/agent-discovery/src/service_card.rs:232-236 | every decoded DVM protocol carries the same kind list, the one collected from all `k` tags |
| ServiceCardCodec.IgnoredTag | crates/agent-discovery/src/service_card.rs:188-228 | an empty tag, a known tag that is too short, a `k` tag that is not a u16, or an unknown tag can be removed without changing the result |
| ServiceCardCodec.BareCustomProtocol | crates/agent-discovery/src/service_card.rs:201-221 | an `r` tag without an endpoint gives a custom protocol with endpoint "" |
| ServiceCardCodec.ServiceCardBuilder.constructor | crates/agent-discovery/src/service_card.rs:258-264 | a new builder holds the id and name, an empty about and no capabilities or protocols |
| ServiceCardCodec.ServiceCardBuilder.WithAbout | crates/agent-discovery/src/service_card.rs:266-269 | sets about and leaves every other field alone |
| ServiceCardCodec.ServiceCardBuilder.WithCapability | crates/agent-discovery/src/service_card.rs:271-274 | appends one capability and leaves every other field alone |
| ServiceCardCodec.ServiceCardBuilder.WithProtocol | crates/agent-discovery/src/service_card.rs:276-279 | appends one protocol and leaves every other field alone |
| ServiceCardCodec.ServiceCardBuilder.Build | crates/agent-discovery/src/service_card.rs:281-290 | the card holds exactly the builder's fields |
| WebNostr.ParseCardTags | web/src/nostr.ts:238-254 | the service-card tag loop computes the fold `ScanCard` |
| WebNostr.ScanCardText | web/src/nostr.ts:230-254 | d, name and about are the last non-empty value of their tag, else "default", "Unknown Agent" and "" |
| WebNostr.ScanCardStyle | web/src/nostr.ts:233-253 | color, avatar and banner are the last non-empty value of their tag, else absent |
| WebNostr.ScanCardCapabilities | web/src/nostr.ts:236-246 | the capabilities are the non-empty `c` values, all of them |
| WebNostr.NewCardDefaults | web/src/nostr.ts:256-269 | an event without tags gives the id `<pubkey[:8]>-default`, "Unknown Agent", no description, capabilities or picture, and an npub label of at most 23 characters |
| WebNostr.ParseHeartbeatStatus | web/src/nostr.ts:306-315 | the heartbeat tag loop computes the fold `ScanStatus` |
| WebNostr.ScanStatusDefault | web/src/nostr.ts:306 | without a recognised `s` tag the status is available |
| WebNostr.ScanStatusLast | web/src/nostr.ts:308-315 | the last recognised `s` tag decides the status, case-insensitively |
| WebNostr.MaintenanceIsOffline | web/src/nostr.ts:310-313 | an `s` tag whose value lower-cases to "maintenance" (any casing) reads as offline |
| WebNostr.RefreshAll | web/src/nostr.ts:365-368 | the refresh recomputes every agent's online flag from its heartbeat and changes nothing else |
| WebNostr.LivenessWindow | web/src/nostr.ts:350-359 | an agent is online up to 899 999 ms after a non-offline heartbeat, not at 900 000 ms, and never with an offline heartbeat |
| WebNostr.ApplyCardPreserves | web/src/nostr.ts:274-297 | handling a card keeps the tables consistent: no pubkey both known and pending, entries under their own key, lastSeen equal to the held heartbeat's time |
| WebNostr.ApplyHeartbeatPreserves | web/src/nostr.ts:325-344 | handling a heartbeat keeps the tables consistent |
| WebNostr.ApplyAllPreserves | web/src/nostr.ts:46-62 | any sequence of deliveries keeps the tables consistent |
| WebNostr.MatchAllIsNoOp | web/src/nostr.ts:79-90 | on consistent tables, matching pending heartbeats changes no agent |
| WebNostr.HeartbeatReplaceIfNewer | web/src/nostr.ts:316-335 | a known agent takes a heartbeat only when its time is a valid date and it holds none or an older one; lastSeen always matches the held heartbeat and the card is untouched |
| WebNostr.HeartbeatIdempotent | web/src/nostr.ts:326-344 | delivering the same heartbeat twice equals delivering it once |
| WebNostr.PendingKeepsNewest | web/src/nostr.ts:316-344 | in either phase, a heartbeat for an unknown pubkey creates no agent, the agents get only the online-flag refresh that follows a handled event (none while loading), and the buffer holds the newer of the stored and the new heartbeat (ties keep the stored one); a heartbeat that is not a valid date changes nothing; other buffered entries are untouched |
| WebNostr.PendingHoldsNewest | web/src/nostr.ts:316-344 | in either phase, after any run of heartbeats from an unknown pubkey, no agent exists for it; the buffer holds an entry iff some of them has a valid date, and then one of those with the latest time |
| WebNostr.UndatedHeartbeatDropped | web/src/nostr.ts:316-347 | a heartbeat whose `created_at` in milliseconds is beyond the `Date` range (±8.64e15) makes `toISOString` throw and is dropped by the catch: nothing changes |
| WebNostr.LastDeliveredCardWins | web/src/nostr.ts:274-277 | a card for a known agent replaces its card whatever its age, and keeps heartbeat and lastSeen |
| WebNostr.OlderCardReplacesNewer | web/src/nostr.ts:274-277 | an older card replaces a newer one |
| WebNostr.CardIdempotent | web/src/nostr.ts:274-297 | delivering the same card twice equals delivering it once |
| WebNostr.CardHeartbeatCommute | web/src/nostr.ts:225-348 | a card and a heartbeat from the same pubkey give the same tables in either order |
| WebNostr.NotifyBeforeHeartbeat | web/src/nostr.ts:361-371 | an extra refresh before a heartbeat changes nothing |
| WebNostr.NostrClient.constructor | web/src/nostr.ts:27-30 | no agents, no buffered heartbeats, loading, nothing rendered |
| WebNostr.NostrClient.NotifyAgentUpdate | web/src/nostr.ts:361-371 | while loading nothing happens; otherwise every online flag is refreshed and one render is emitted |
| WebNostr.RefreshLoop | web/src/nostr.ts:366-368 | the loop over the agents computes `RefreshAll`: every agent's online flag recomputed, nothing else changed |
| WebNostr.NostrClient.HandleServiceCard | web/src/nostr.ts:225-301 | the new tables are `ApplyCard` of the old, with a render unless loading or npub encoding failed |
| WebNostr.NostrClient.HandleHeartbeat | web/src/nostr.ts:303-348 | the new tables are `ApplyHeartbeat` of the old (an invalid date drops the event); a render unless loading or dropped |
| WebNostr.NostrClient.MatchPendingHeartbeats | web/src/nostr.ts:79-90 | the buffer is emptied and agents become `MatchAll` of the old tables, unchanged when consistent |
| WebNostr.NostrClient.Connect | web/src/nostr.ts:46-77 | after the initial load, loading ends with an empty buffer and exactly one render of the refreshed agents |
| WebApp.SelectedMembers | web/src/main.ts:107-133 | the filters keep exactly the agents matching the search text and the category, and never add any |
| WebApp.NameHitIsFound | web/src/main.ts:111-119 | an agent whose name contains the typed text is found by the lower-cased query |
| WebApp.OnlineFirst | web/src/main.ts:136-141 | in sorted output online agents precede offline ones, and names are ordered within each group |
| WebApp.SortAgents | web/src/main.ts:136-141 | the in-place sort leaves the array ordered online-first-then-name and a permutation of the input |
| WebApp.Insert | web/src/main.ts:136-141 | one insertion step extends the sorted prefix by one element and permutes the array |
| WebApp.FormatTimeAgo | web/src/main.ts:339-346 | "Just now" exactly below 60 s (also for future times), else whole minutes, hours or days with the count in range |
| WebApp.TimeAgoRoundsDown | web/src/main.ts:340-345 | 119.999 s reads "1m ago"; a time 59.999 s in the future reads "Just now" |
| WebApp.Recent | web/src/main.ts:25 | keeps exactly the presses less than 500 ms old |
| WebApp.ToggleIffRecentPress | web/src/main.ts:21-31 | the panel toggles exactly when an earlier held press lies within 500 ms of this one |
| WebApp.AgentReachApp.constructor | web/src/main.ts:6-9 | no agents, filter "all", empty query, no key presses, panel hidden |
| WebApp.AgentReachApp.OnAgentUpdate | web/src/main.ts:37-38 | the agent list is replaced, nothing else changes |
| WebApp.AgentReachApp.OnSearchInput | web/src/main.ts:68-69 | the query becomes the lower-cased input, nothing else changes |
| WebApp.AgentReachApp.OnFilterClick | web/src/main.ts:87-95 | the filter becomes the button's value, or "all" when it is missing or empty |
| WebApp.AgentReachApp.FilterAgents | web/src/main.ts:107-144 | the result holds exactly the kept agents, as a sub-multiset of the list, sorted online first then by name |
| WebApp.AgentReachApp.OnKeyDown | web/src/main.ts:20-33 | other keys change nothing; a plain `d` keeps the recent presses and toggles the panel and clears them when two are recent |
| Publisher.ParsePrivateKey | openclaw/src/service.ts:339-361 | the method computes `PrivateKeyOf`: after trimming, `nsec1` keys go to the bech32 decoder and must decode as "nsec"; other keys go through the 64-digit check and the byte loop |
| Publisher.HexKeyMeaning | openclaw/src/service.ts:351-360 | outside the nsec form a key parses exactly when its trimmed text is 64 hex digits, and then gives 32 bytes, byte i being 16 times digit 2i plus digit 2i+1 |
| Publisher.DecodeHexKey | openclaw/src/service.ts:355-359 | the 32-iteration loop fills the buffer with exactly `HexKeyBytes` of the digits |
| Publisher.HexKeyRoundTrip | openclaw/src/service.ts:339-361 | the hex rendering of any 32 bytes, wrapped in whitespace, parses back to those bytes |
| Publisher.MissingStateDefaults | openclaw/src/service.ts:74-85 | a missing state file reads as no capabilities, a 600 000 ms interval, no name or about, and online |
| Publisher.MergeFields | openclaw/src/service.ts:383-397 | each given field replaces the stored one; omitted fields are kept; capabilities get empty descriptions |
| Publisher.MergeIdempotent | openclaw/src/service.ts:383-397 | merging the same update twice equals merging it once, and an empty update changes nothing |
| Publisher.TransitionHeartbeats | openclaw/src/service.ts:399-478 | one heartbeat is sent exactly when the online flag flips ("available" coming online, "maintenance" going offline), none otherwise |
| Publisher.RepeatedUpdateIsQuiet | openclaw/src/service.ts:399-478 | repeating an update causes no transition and sends no heartbeat |
| Publisher.StopLeaksResumedTimer | openclaw/src/service.ts:222-228 | as written, `stop` after a resume that followed an offline start leaves the resumed timer running |
| Publisher.StopClearsAll | openclaw/src/service.ts:222-228 | the corrected stop clears every running timer and keeps the timer table valid |
| Publisher.TimersPreserved | openclaw/src/service.ts:401-478 | transitions keep the timer table valid; the shared timer exists after going offline never, after coming online always, otherwise as before |
| Publisher.BuildCardTags | openclaw/src/service.ts:271-288 | the label and identity tags, then one `c` tag per capability, then one `r` tag per protocol, all in order |
| Publisher.NoCapabilitiesMessage | openclaw/src/service.ts:539-542 | with no capabilities the update reports "Capabilities: none" |
| Publisher.DiscoveryService.constructor | openclaw/src/service.ts:61-99 | the shared handles (lines 61-70) and the service's own closure state (lines 92-99) start empty: not running, no timers, nothing published, default relays |
| Publisher.DiscoveryService.Start | openclaw/src/service.ts:105-220 | without a usable key nothing changes; otherwise the card is published, plus a heartbeat and one timer exactly when the stored state is online |
| Publisher.StartPublicKey | openclaw/src/service.ts:119-137 | a missing or empty key, a key that does not parse and a key with no public key all yield no key; otherwise the public key of the parsed key (`StartKey`) |
| Publisher.DiscoveryService.Launch | openclaw/src/service.ts:139-219 | after the key checks: relays and card id set, the card published, and an `available` heartbeat plus one new timer exactly when the stored state is online; the timer invariant is kept |
| Publisher.DiscoveryService.Stop | openclaw/src/service.ts:222-248 | the corrected stop (see Findings): both timer handles are cleared so no timer keeps running, and a maintenance heartbeat is sent when the service was running |
| Publisher.DiscoveryService.UpdateServiceCard | openclaw/src/service.ts:367-543 | refused when not running; otherwise the merged state is saved, the transition heartbeat and timer change happen, and the rebuilt card is published |
| Publisher.HeartbeatReadByCrate | openclaw/src/service.ts:313-318 | the crate's parser reads the plug-in's heartbeat tags back to the same card id and status |
| Publisher.HeartbeatReadByWeb | openclaw/src/service.ts:313-318 | the web client reads available, busy and maintenance heartbeats as available, busy and offline |
| Publisher.CardReadByCrate | openclaw/src/service.ts:271-288 | the crate's parser reads the plug-in's card back with its name, about and capabilities, and one DM protocol when DMs are enabled |
| Publisher.FindTag | openclaw/src/service.ts:607-609 | the index of the first tag with that name, or none when there is none |
| Publisher.AnyRecent | openclaw/src/service.ts:652-658 | true exactly when some heartbeat from the pubkey is under 900 s old |
| Publisher.Latest | openclaw/src/service.ts:659-661 | the greatest `created_at` among the pubkey's heartbeats, absent exactly when there are none |
| Publisher.MarkHeartbeats | openclaw/src/service.ts:640-664 | each agent becomes its heartbeat-marked form |
| Publisher.DiscoverAgents | openclaw/src/service.ts:549-668 | one entry per parsed card; only the first entry per pubkey is marked, online exactly when a heartbeat is under 900 s old, lastSeen the newest heartbeat |
| Publisher.ParsedAreFresh | openclaw/src/service.ts:630-631 | parsed cards start offline with no lastSeen |
| Publisher.CardReadByDiscovery | openclaw/src/service.ts:604-634 | `discoverAgents` reads the plug-in's own card tags back to its name, about, capabilities and protocols |
| Publisher.BareNameIsUnknown | openclaw/src/service.ts:607 | a first `name` tag without a value gives "Unknown" even when a later `name` tag has one |
| DmListener.LoadState | openclaw/src/dm-listener.ts:40-50 | a missing file gives no ids and a cursor 120 s in the past; a present file is used as is |
| DmListener.Since | openclaw/src/dm-listener.ts:70 | the subscription start is the cursor minus 60 s, floored at 0 |
| DmListener.DefaultWindow | openclaw/src/dm-listener.ts:46-70 | on a first start the listener asks for the last 180 s |
| DmListener.HandledCases | openclaw/src/dm-listener.ts:83-128 | every new id is recorded; only a new, foreign, addressed and decryptable message advances the cursor and injects `[Nostr DM from <sender>]` and the text |
| DmListener.RedeliveryIsNoOp | openclaw/src/dm-listener.ts:85-87 | handling the same event again changes nothing |
| DmListener.InjectionsBoundedByNewIds | openclaw/src/dm-listener.ts:83-128 | over any delivery sequence, injections never exceed the number of new ids |
| DmListener.KnownIdsNeverInject | openclaw/src/dm-listener.ts:85 | events whose ids are all known change nothing |
| DmListener.Saved | openclaw/src/dm-listener.ts:52-57 | the saved state keeps at most the last 500 ids, all of them when there are fewer |
| DmListener.RestartKeepsRecentIds | openclaw/src/dm-listener.ts:52-69 | an id among the last 500 is in the dedup set after a restart, and the cursor survives |
| DmListener.Listener.constructor | openclaw/src/dm-listener.ts:68-70 | the dedup set and id list come from the loaded state, and the filter asks for kind 4 addressed to us since the lookback |
| DmListener.Listener.HandleEvent | openclaw/src/dm-listener.ts:83-128 | the new state is `Handled` of the old |
| DmListener.Listener.SaveState | openclaw/src/dm-listener.ts:52-57 | writes the last 500 ids and the cursor, and trims the in-memory list the same way |
| DmListener.Listener.SaveTimerFires | openclaw/src/dm-listener.ts:74-81 | a pending save is written, otherwise nothing happens |
| DmListener.Listener.Stop | openclaw/src/dm-listener.ts:158-171 | the state is saved and no save stays pending |
| Cli.ParseCapability | cli/src/main.rs:245-251 | fails exactly when there is no ':'; otherwise splits at the first ':' so the input is `id:description` |
| Cli.CapabilityRoundTrip | cli/src/main.rs:245-251 | `id:description` parses back for any id without ':' |
| Cli.ParseProtocol | cli/src/main.rs:253-267 | fails exactly when there is no ':' |
| Cli.ParseProtocolMeaning | cli/src/main.rs:253-267 | agrees with the crate's `r`-tag reading, keeps type and endpoint, is never an ambiguous custom protocol and has no job kinds |
| Cli.ProtocolRoundTrip | cli/src/main.rs:253-267 | `type:endpoint` of an unambiguous protocol parses back to it without job kinds |
| Cli.GetRelays | cli/src/main.rs:227-243 | command-line relays win, then configured ones, then the three defaults, and the result is never empty |
| Cli.DefaultCardId | cli/src/main.rs:307 | the first 8 characters of the public key followed by "-v1" |
| Cli.SameDefaultCardId | cli/src/main.rs:307 | the CLI and the plug-in derive the same default card id |
| Cli.LoadIdentity | cli/src/main.rs:180-225 | errors for a missing section or key; with a key, succeeds iff it decodes (`nsec1` keys as bech32, others as hex) and its npub encodes; the public hex and npub are derived from the decoded key; profile defaults "Agent" and "", relays default only when absent |
| Cli.NsecKeysAreBech32 | cli/src/main.rs:197-202 | a failing `nsec1` key is reported as `Invalid nsec key: <error>` |
| Cli.ParseCapabilities | cli/src/main.rs:313-316 | succeeds exactly when every argument has ':', parsing each in order |
| Cli.ParseProtocols | cli/src/main.rs:318-321 | succeeds exactly when every argument has ':', parsing each in order |
| Cli.BuildPublishCard | cli/src/main.rs:295-325 | the builder loops produce `PublishCard`: defaults for id, name and about, the first bad argument as the error |
| Cli.AddCapabilities | cli/src/main.rs:313-316 | appends the parsed capabilities to the builder, or reports the first bad one |
| Cli.AddProtocols | cli/src/main.rs:318-321 | appends the parsed protocols to the builder, or reports the first bad one |
| Cli.PublishedCardRoundTrips | cli/src/main.rs:311-325 | every card `publish` builds decodes back from its tags |
| Cli.HeartbeatCommand | cli/src/main.rs:352-362 | succeeds exactly for a known status name and uses the given or the default card id |
| Cli.HeartbeatMatchesServiceCard | cli/src/main.rs:361-362 | a default-id heartbeat names the card the plug-in publishes for the same key |
| Cli.StatusAge | cli/src/main.rs:551 | the age saturates at 0 for a heartbeat from the future |
| Cli.OnlineAgreesWithDiscovery | cli/src/main.rs:551-552 | `status` and `discoverAgents` agree on whether one heartbeat means online |
| Cli.AgeText | cli/src/main.rs:564-570 | seconds under a minute, minutes under an hour, hours otherwise |
| Cli.AgeTextMeaning | cli/src/main.rs:564-570 | the printed number reads back as the age rounded down to its unit, non-zero above seconds and under 60 below hours |
| Cli.StatusOf | cli/src/main.rs:499-577 | no card, no heartbeat, or, whenever both exist, the card name and heartbeat status with the saturating age `now - created_at` and an online flag exactly when that age is under 900 s |
| Cli.MaintenanceCanBeOnline | cli/src/main.rs:547-552 | a recent maintenance heartbeat still reports online |
| Handlers.HelloStoresChallenge | src/handlers.rs:68-93 | a successful hello stores the challenge and the DID under the challenge's hash; failures change nothing; a bad DID is InvalidDid |
| Handlers.ChallengeSingleUse | src/handlers.rs:105-107 | whatever the first proof's outcome, a second proof for the same challenge is InvalidChallenge |
| Handlers.ProofOpensSession | src/handlers.rs:98-130 | the challenge is always consumed; a session for the responder DID at the current time exists exactly after a verified and accepted proof |
| Handlers.GetSession | src/handlers.rs:137-160 | succeeds exactly for a `Bearer ` header naming a known session at most 300 s old; otherwise Unauthorized or SessionExpired |
| Handlers.GetSessionCases | src/handlers.rs:138-157 | missing header, missing prefix and unknown session are Unauthorized; a known session is SessionExpired exactly when older than 300 s |
| Handlers.SessionLifetime | src/handlers.rs:154-157 | a new session is accepted at 300 s of age and expired after that |
| Handlers.RegisterStores | src/handlers.rs:165-195 | stores the session's DID with the endpoint, registered now, expiring ttl (default 3600) later; refusals change nothing |
| Handlers.HugeTtlWraps | src/handlers.rs:176-177 | a ttl of 2^64-1 wraps in the signed cast and expires one second before registration |
| Handlers.Lookup | src/handlers.rs:200-223 | InvalidDid on a decoding failure, NotFound for an absent DID, Expired exactly when the registry says so, else the stored entry |
| Handlers.RegisterThenLookup | src/handlers.rs:165-223 | a lookup right after registering returns the stored endpoint and times, unless the registry reports it expired |
| Handlers.DeregisterRemoves | src/handlers.rs:228-241 | `ok` is whether the DID was registered, and a later lookup is NotFound |
| Handlers.RegistryServer.Hello | src/handlers.rs:68-93 | the tables change as `HelloStep` says |
| Handlers.RegistryServer.Proof | src/handlers.rs:98-130 | the tables change as `ProofStep` says |
| Handlers.RegistryServer.Register | src/handlers.rs:165-195 | the tables change as `RegisterStep` says |
| Handlers.RegistryServer.LookupAgent | src/handlers.rs:200-223 | answers `Lookup` on the current registry |
| Handlers.RegistryServer.Deregister | src/handlers.rs:228-241 | the tables change as `DeregisterStep` says |
| ReachErrors.IntoResponse | server/src/error.rs:39-57 | the status is 400, 401, 404, 410 or 500 as the variant says; the body has the single key "error", holding the display text or "Internal error" |
| ReachErrors.InternalHidesDetail | server/src/error.rs:49 | internal errors with different details give the same response |
| ReachErrors.DisplayReadsBack | server/src/error.rs:10-35 | every display text reads back as the error that produced it |
| ReachErrors.DisplayInjective | server/src/error.rs:10-35 | distinct errors have distinct display texts |

## Left out

- Signing, event ids, NIP-04 encryption, bech32 and hex key derivation
  are cryptography. They are parameters (`npubEncode`, `nip19Decode`,
  `getPublicKey`, `decrypt`, `Crypto`, `KeyCodecs`) with no properties assumed.
- Relay connections, `SimplePool` queries and subscriptions, and relay
  status callbacks are I/O. `Connect` takes the delivered events as a
  sequence, and `discoverAgents` takes the queried cards and heartbeats.
- The file system is not modelled. State files are `Option` values: a
  read or parse failure is `None`. Writes are assumed to succeed; the
  listener's own saves catch and log a failure, the publisher's do not
  (see the `UpdateServiceCard` line below).
- Timers are not modelled as scheduled callbacks. The heartbeat
  `setInterval`s are entries in a timer table; the periodic heartbeats
  they send, and the 5 s debounce of the listener's save, are not
  modelled.
- Profile and picture queries of the web client, DOM rendering and the
  copy-prompt button are left out. They are UI with no state the model
  depends on.
- `String.prototype.toLowerCase` and `localeCompare` are not modelled
  faithfully. Lower-casing is ASCII only. The sort takes the name order
  as a parameter, required to be a total preorder.
- The MCP server, the other CLI binary, `server/src/main.rs` and the
  crate's relay client are not part of this model.
- Handlers.Lookup: the registry's `status()` rule is not part of this
  model, so it is a parameter `statusOf`.
- Handlers.RegisterStores: stated only for ttl below 2^63. `HugeTtlWraps`
  covers the wrapping case. The addition `now + ttl` is taken as not
  overflowing.
- Publisher.DiscoveryService.Start: requires the service not to be
  running, because the host starts a service once. The heartbeat interval
  is used as stored; only `updateServiceCard` substitutes the default for 0.
- Publisher.DiscoveryService.Stop: models the corrected stop, which
  clears both timer handles. The stop as written in
  openclaw/src/service.ts:222-228 clears only the timer `start` created;
  that behaviour is `StopTimersAsWritten`, and `StopLeaksResumedTimer`
  shows the timer it leaves running (see Findings). The class's `Valid`
  (no timer while stopped) holds only for the corrected stop.
- Publisher.DiscoveryService.UpdateServiceCard: the state save is assumed
  to succeed. In the source a failed write rejects the update after the
  state was read and merged and, when the online flag flipped, after the
  transition heartbeat was sent and the timer started or cleared; the new
  card is then not republished and no message is returned.
- Publisher.DiscoverAgents: the pool side effect is not modelled. When
  the shared pool is missing, `discoverAgents` creates a new one, and
  `stop` leaves the key, card id, state directory and library handles set.
  After stop then discover, `updateServiceCard` passes its guard again,
  publishes, and with `online: true` starts a timer nothing clears. The
  model's single `running` flag does not capture this revival; in the
  model the service stays stopped until `Start`.
- DmListener.Listener.HandleEvent: injection into the main session is
  assumed to succeed. Its failure is only logged.
- DmListener.Saved: only the saved id list is capped at 500. The
  in-memory dedup set grows without bound, as in the source.
- The web client's `new Date(created_at * 1000)` is taken in whole
  milliseconds. Dates are integers; the `Date` range (±8.64e15 ms) is
  modelled only where it matters: a heartbeat beyond it is dropped. A card
  beyond it is stored with its time, where the source holds an invalid
  date.

## Findings

| source | as written | input that shows it | evidently intended | confidence | as-written member | corrected member |
|---|---|---|---|---|---|---|
| openclaw/src/service.ts:222-228 | `stop` clears only the interval created by `start` (`heartbeatInterval`), and nulls the shared handle only when that interval exists | Start with a stored `online: false` state, so there is no timer. Then `updateServiceCard({online: true})` creates a timer held only in `sharedHeartbeatInterval` (line 453). Then `stop` leaves that timer running. | `stop` clears whichever heartbeat timer is running, so no heartbeats are sent after the service stops | not executed | Publisher.StopLeaksResumedTimer | Publisher.StopClearsAll |
