/** The web directory's reconciliation engine (`NostrClient`): unordered,
    duplicated service-card and heartbeat events are merged into a map from
    pubkey to agent, with a buffer for heartbeats that arrive before their
    card. Times are integer milliseconds and the current time is a parameter
    of every operation that reads the clock. */
module WebNostr {
  import opened Common
  import opened Text

  /** 15 minutes, in milliseconds. */
  const HEARTBEAT_TIMEOUT_MS: int := 15 * 60 * 1000

  datatype WebStatus = Available | Busy | Offline

  datatype AgentCard = AgentCard(
    id: string,
    pubkey: string,
    npub: string,
    npubFull: string,
    name: string,
    description: string,
    capabilities: seq<string>,
    version: string,
    createdAtMs: int,
    picture: Option<string>,
    color: Option<string>,
    banner: Option<string>)

  datatype AgentHeartbeat = AgentHeartbeat(pubkey: string, status: WebStatus, timestampMs: int)

  datatype Agent = Agent(card: AgentCard, heartbeat: Option<AgentHeartbeat>, isOnline: bool, lastSeenMs: Option<int>)

  /** The client's two maps. */
  datatype Tables = Tables(agents: map<string, Agent>, pending: map<string, AgentHeartbeat>)

  /** An event as it arrives from either initial query or subscription. */
  datatype Delivery = CardEvent(card: Event) | HeartbeatEvent(heartbeat: Event)

  // ----- tag parsing -----

  /** JavaScript truthiness of `tag[1]`: present and not the empty string. */
  predicate HasValue(t: Tag) {
    |t| >= 2 && t[1] != ""
  }

  predicate IsValued(t: Tag, key: string) {
    |t| >= 2 && t[0] == key && t[1] != ""
  }

  /** Value of the last tag named `key` with a non-empty value. */
  function LastValued(tags: seq<Tag>, key: string): (r: Option<string>)
    ensures r.Some? ==>
      exists i :: 0 <= i < |tags| && IsValued(tags[i], key) && tags[i][1] == r.value
        && (forall j :: i < j < |tags| ==> !IsValued(tags[j], key))
    ensures r.None? ==> forall i :: 0 <= i < |tags| ==> !IsValued(tags[i], key)
  {
    if tags == [] then None
    else
      var t := tags[|tags| - 1];
      if IsValued(t, key) then Some(t[1])
      else
        var r := LastValued(tags[..|tags| - 1], key);
        assert forall i :: 0 <= i < |tags| - 1 ==> tags[..|tags| - 1][i] == tags[i];
        r
  }

  /** The non-empty values of the tags named `key`, in order. */
  function ValuesOf(tags: seq<Tag>, key: string): (r: seq<string>)
    ensures |r| <= |tags|
    ensures forall x :: x in r <==> exists i :: 0 <= i < |tags| && IsValued(tags[i], key) && tags[i][1] == x
  {
    if tags == [] then []
    else
      var init := ValuesOf(tags[..|tags| - 1], key);
      var t := tags[|tags| - 1];
      assert forall i :: 0 <= i < |tags| - 1 ==> tags[..|tags| - 1][i] == tags[i];
      if IsValued(t, key) then init + [t[1]] else init
  }

  function OrElse(o: Option<string>, d: string): string {
    if o.Some? then o.value else d
  }

  /** The local variables of the service-card tag loop. */
  datatype CardFields = CardFields(
    d: string,
    name: string,
    about: string,
    capabilities: seq<string>,
    color: Option<string>,
    avatar: Option<string>,
    banner: Option<string>)

  const CardDefaults := CardFields("default", "Unknown Agent", "", [], None, None, None)

  /** One iteration of the service-card tag loop (an `else if` chain, so a tag
      with an empty value changes nothing). */
  function CardStep(f: CardFields, t: Tag): CardFields {
    if !HasValue(t) then f
    else if t[0] == "d" then f.(d := t[1])
    else if t[0] == "name" then f.(name := t[1])
    else if t[0] == "about" then f.(about := t[1])
    else if t[0] == "c" then f.(capabilities := f.capabilities + [t[1]])
    else if t[0] == "color" then f.(color := Some(t[1]))
    else if t[0] == "avatar" then f.(avatar := Some(t[1]))
    else if t[0] == "banner" then f.(banner := Some(t[1]))
    else f
  }

  function ScanCard(tags: seq<Tag>): CardFields
    decreases |tags|
  {
    if tags == [] then CardDefaults else CardStep(ScanCard(tags[..|tags| - 1]), tags[|tags| - 1])
  }

  /** The tag loop of `handleServiceCard`. */
  method ParseCardTags(tags: seq<Tag>) returns (f: CardFields)
    ensures f == ScanCard(tags)
  {
    var dTag := "default";
    var name := "Unknown Agent";
    var about := "";
    var capabilities: seq<string> := [];
    var color: Option<string> := None;
    var avatar: Option<string> := None;
    var banner: Option<string> := None;
    var i := 0;
    while i < |tags|
      invariant 0 <= i <= |tags|
      invariant ScanCard(tags[..i]) == CardFields(dTag, name, about, capabilities, color, avatar, banner)
    {
      var tag := tags[i];
      assert tags[..i + 1][..i] == tags[..i];
      if HasValue(tag) {
        if tag[0] == "d" {
          dTag := tag[1];
        } else if tag[0] == "name" {
          name := tag[1];
        } else if tag[0] == "about" {
          about := tag[1];
        } else if tag[0] == "c" {
          capabilities := capabilities + [tag[1]];
        } else if tag[0] == "color" {
          color := Some(tag[1]);
        } else if tag[0] == "avatar" {
          avatar := Some(tag[1]);
        } else if tag[0] == "banner" {
          banner := Some(tag[1]);
        }
      }
      i := i + 1;
    }
    assert tags[..i] == tags;
    f := CardFields(dTag, name, about, capabilities, color, avatar, banner);
  }

  /** One loop step sets a field exactly when the tag names it and has a value. */
  lemma CardStepFields(f: CardFields, t: Tag)
    ensures CardStep(f, t).d == if IsValued(t, "d") then t[1] else f.d
    ensures CardStep(f, t).name == if IsValued(t, "name") then t[1] else f.name
    ensures CardStep(f, t).about == if IsValued(t, "about") then t[1] else f.about
    ensures CardStep(f, t).color == if IsValued(t, "color") then Some(t[1]) else f.color
    ensures CardStep(f, t).avatar == if IsValued(t, "avatar") then Some(t[1]) else f.avatar
    ensures CardStep(f, t).banner == if IsValued(t, "banner") then Some(t[1]) else f.banner
  {
  }

  /** Each scalar field comes from the last tag with a non-empty value and
      falls back to its default. */
  lemma {:induction false} ScanCardText(tags: seq<Tag>)
    ensures ScanCard(tags).d == OrElse(LastValued(tags, "d"), "default")
    ensures ScanCard(tags).name == OrElse(LastValued(tags, "name"), "Unknown Agent")
    ensures ScanCard(tags).about == OrElse(LastValued(tags, "about"), "")
    decreases |tags|
  {
    if tags != [] {
      var init := tags[..|tags| - 1];
      ScanCardText(init);
      CardStepFields(ScanCard(init), tags[|tags| - 1]);
    }
  }

  /** The optional styling fields are the last non-empty values, if any. */
  lemma {:induction false} ScanCardStyle(tags: seq<Tag>)
    ensures ScanCard(tags).color == LastValued(tags, "color")
    ensures ScanCard(tags).avatar == LastValued(tags, "avatar")
    ensures ScanCard(tags).banner == LastValued(tags, "banner")
    decreases |tags|
  {
    if tags != [] {
      var init := tags[..|tags| - 1];
      ScanCardStyle(init);
      CardStepFields(ScanCard(init), tags[|tags| - 1]);
    }
  }

  /** The capabilities are the non-empty `c` values, in tag order. */
  lemma {:induction false} ScanCardCapabilities(tags: seq<Tag>)
    ensures ScanCard(tags).capabilities == ValuesOf(tags, "c")
    decreases |tags|
  {
    if tags != [] {
      ScanCardCapabilities(tags[..|tags| - 1]);
    }
  }

  /** The card `handleServiceCard` builds from an event and the event's
      encoded pubkey. */
  function NewCard(ev: Event, npub: string): AgentCard {
    var f := ScanCard(ev.tags);
    AgentCard(
      Prefix(ev.pubkey, 8) + "-" + f.d,
      ev.pubkey,
      Prefix(npub, 12) + "..." + LastN(npub, 8),
      npub,
      f.name,
      f.about,
      f.capabilities,
      "1.0",
      ev.createdAt * 1000,
      f.avatar,
      f.color,
      f.banner)
  }

  /** A card event with no tags gets the default id suffix, name and
      description, and the display npub keeps at most 23 characters. */
  lemma NewCardDefaults(ev: Event, npub: string)
    requires ev.tags == []
    ensures NewCard(ev, npub).id == Prefix(ev.pubkey, 8) + "-default"
    ensures NewCard(ev, npub).name == "Unknown Agent" && NewCard(ev, npub).description == ""
    ensures NewCard(ev, npub).capabilities == [] && NewCard(ev, npub).picture.None?
    ensures |NewCard(ev, npub).npub| <= 23
  {
  }

  /** The status loop of `handleHeartbeat`: the last `s` tag whose lower-cased
      value is a known status wins, `maintenance` shows as offline, and the
      default is available. */
  predicate IsKnownStatus(s: string) {
    s == "available" || s == "busy" || s == "maintenance"
  }

  predicate IsStatusTag(t: Tag) {
    IsValued(t, "s") && IsKnownStatus(ToLower(t[1]))
  }

  function WebStatusOf(s: string): WebStatus
    requires IsKnownStatus(s)
  {
    if s == "available" then Available else if s == "busy" then Busy else Offline
  }

  function StatusStep(st: WebStatus, t: Tag): WebStatus {
    if IsStatusTag(t) then WebStatusOf(ToLower(t[1])) else st
  }

  function ScanStatus(tags: seq<Tag>): WebStatus
    decreases |tags|
  {
    if tags == [] then Available else StatusStep(ScanStatus(tags[..|tags| - 1]), tags[|tags| - 1])
  }

  method ParseHeartbeatStatus(tags: seq<Tag>) returns (status: WebStatus)
    ensures status == ScanStatus(tags)
  {
    status := Available;
    var i := 0;
    while i < |tags|
      invariant 0 <= i <= |tags|
      invariant status == ScanStatus(tags[..i])
    {
      var tag := tags[i];
      assert tags[..i + 1][..i] == tags[..i];
      if |tag| >= 2 && tag[0] == "s" && tag[1] != "" {
        var s := ToLower(tag[1]);
        if s == "available" || s == "busy" || s == "maintenance" {
          status := if s == "maintenance" then Offline else WebStatusOf(s);
        }
      }
      i := i + 1;
    }
    assert tags[..i] == tags;
  }

  /** Without a recognised `s` tag the status stays available. */
  lemma {:induction false} ScanStatusDefault(tags: seq<Tag>)
    requires forall i :: 0 <= i < |tags| ==> !IsStatusTag(tags[i])
    ensures ScanStatus(tags) == Available
    decreases |tags|
  {
    if tags != [] {
      var init := tags[..|tags| - 1];
      assert forall i :: 0 <= i < |init| ==> init[i] == tags[i];
      ScanStatusDefault(init);
    }
  }

  /** The last recognised `s` tag decides the status. */
  lemma {:induction false} ScanStatusLast(tags: seq<Tag>, i: nat)
    requires i < |tags| && IsStatusTag(tags[i])
    requires forall j :: i < j < |tags| ==> !IsStatusTag(tags[j])
    ensures ScanStatus(tags) == WebStatusOf(ToLower(tags[i][1]))
    decreases |tags|
  {
    if i < |tags| - 1 {
      var init := tags[..|tags| - 1];
      assert forall j :: 0 <= j < |init| ==> init[j] == tags[j];
      ScanStatusLast(init, i);
    }
  }

  /** Status names are compared after lower-casing: an `s` tag reading
      "Maintenance", "MAINTENANCE" or any other casing takes an agent
      offline. */
  lemma MaintenanceIsOffline(value: string)
    requires ToLower(value) == "maintenance"
    ensures ScanStatus([["s", value]]) == Offline
  {
    assert [["s", value]][..0] == [];
  }

  /** The largest distance from the epoch, in milliseconds, that a
      JavaScript `Date` can hold; `new Date` of anything further is an
      invalid date, on which `toISOString` throws a RangeError. */
  const MAX_DATE_MS := 8_640_000_000_000_000

  predicate ValidDateMs(ms: int) {
    -MAX_DATE_MS <= ms <= MAX_DATE_MS
  }

  function NewHeartbeat(ev: Event): AgentHeartbeat {
    AgentHeartbeat(ev.pubkey, ScanStatus(ev.tags), ev.createdAt * 1000)
  }

  // ----- online status -----

  /** `updateOnlineStatus`: online while the held heartbeat is younger than
      15 minutes and does not say offline. */
  predicate IsOnline(hb: Option<AgentHeartbeat>, now: int) {
    hb.Some? && now - hb.value.timestampMs < HEARTBEAT_TIMEOUT_MS && hb.value.status != Offline
  }

  function Refreshed(a: Agent, now: int): Agent {
    a.(isOnline := IsOnline(a.heartbeat, now))
  }

  /** The refresh loop of `notifyAgentUpdate`: only `isOnline` changes. */
  function RefreshAll(m: map<string, Agent>, now: int): (r: map<string, Agent>)
    ensures r.Keys == m.Keys
    ensures forall k :: k in r ==> r[k].isOnline == IsOnline(m[k].heartbeat, now)
    ensures forall k :: k in r ==> r[k].(isOnline := m[k].isOnline) == m[k]
  {
    map k | k in m :: Refreshed(m[k], now)
  }

  /** A heartbeat is live strictly before the 15-minute mark. */
  lemma LivenessWindow(hb: AgentHeartbeat)
    requires hb.status != Offline
    ensures IsOnline(Some(hb), hb.timestampMs + 899_999)
    ensures !IsOnline(Some(hb), hb.timestampMs + 900_000)
    ensures !IsOnline(Some(hb.(status := Offline)), hb.timestampMs)
  {
  }

  // ----- the handlers as functions of the two maps -----

  /** `notifyAgentUpdate` on the maps: nothing while loading, otherwise every
      agent's online flag is recomputed. */
  function Notified(t: Tables, now: int, loading: bool): Tables {
    if loading then t else t.(agents := RefreshAll(t.agents, now))
  }

  /** The update-or-create part of `handleServiceCard`. */
  function PlaceCard(t: Tables, card: AgentCard, now: int): Tables {
    var pk := card.pubkey;
    if pk in t.agents then
      t.(agents := t.agents[pk := Refreshed(t.agents[pk].(card := card), now)])
    else if pk in t.pending then
      var hb := t.pending[pk];
      Tables(t.agents[pk := Refreshed(Agent(card, Some(hb), false, Some(hb.timestampMs)), now)], t.pending - {pk})
    else
      t.(agents := t.agents[pk := Agent(card, None, false, None)])
  }

  /** `handleServiceCard`; a pubkey that cannot be encoded skips the event. */
  function ApplyCard(t: Tables, ev: Event, npubEncode: string -> Option<string>, now: int, loading: bool): Tables {
    match npubEncode(ev.pubkey)
    case None => t
    case Some(npub) => Notified(PlaceCard(t, NewCard(ev, npub), now), now, loading)
  }

  /** The update part of `handleHeartbeat`: a known agent takes the heartbeat
      only when it is strictly newer; otherwise the pending buffer keeps the
      newer of the two. */
  function PlaceHeartbeat(t: Tables, hb: AgentHeartbeat, now: int): Tables {
    var pk := hb.pubkey;
    if pk in t.agents then
      var a := t.agents[pk];
      if a.heartbeat.None? || hb.timestampMs > a.heartbeat.value.timestampMs then
        t.(agents := t.agents[pk := Refreshed(a.(heartbeat := Some(hb), lastSeenMs := Some(hb.timestampMs)), now)])
      else t
    else if pk !in t.pending || hb.timestampMs > t.pending[pk].timestampMs then
      t.(pending := t.pending[pk := hb])
    else t
  }

  /** `handleHeartbeat`. A `created_at` outside the `Date` range makes the
      log line's `toISOString` throw before any update; the handler's catch
      then drops the event, with no change and no notification. */
  function ApplyHeartbeat(t: Tables, ev: Event, now: int, loading: bool): Tables {
    if !ValidDateMs(ev.createdAt * 1000) then t
    else Notified(PlaceHeartbeat(t, NewHeartbeat(ev), now), now, loading)
  }

  function Apply(t: Tables, d: Delivery, npubEncode: string -> Option<string>, now: int, loading: bool): Tables {
    match d
    case CardEvent(ev) => ApplyCard(t, ev, npubEncode, now, loading)
    case HeartbeatEvent(ev) => ApplyHeartbeat(t, ev, now, loading)
  }

  function ApplyAll(t: Tables, ds: seq<Delivery>, npubEncode: string -> Option<string>, now: int, loading: bool): Tables
    decreases |ds|
  {
    if ds == [] then t else Apply(ApplyAll(t, ds[..|ds| - 1], npubEncode, now, loading), ds[|ds| - 1], npubEncode, now, loading)
  }

  /** `matchPendingHeartbeats` on the agent map: every agent with a buffered
      heartbeat takes it. */
  function MatchAll(agents: map<string, Agent>, pending: map<string, AgentHeartbeat>, now: int): (r: map<string, Agent>)
    ensures r.Keys == agents.Keys
  {
    map k | k in agents ::
      if k in pending then Refreshed(agents[k].(heartbeat := Some(pending[k]), lastSeenMs := Some(pending[k].timestampMs)), now)
      else agents[k]
  }

  // ----- the invariant -----

  predicate AgentConsistent(k: string, a: Agent) {
    && a.card.pubkey == k
    && (a.heartbeat.Some? ==> a.heartbeat.value.pubkey == k && a.lastSeenMs == Some(a.heartbeat.value.timestampMs))
    && (a.heartbeat.None? ==> a.lastSeenMs.None?)
  }

  /** No pubkey is both a known agent and a buffered heartbeat; every entry is
      filed under its own pubkey; `lastSeen` is the held heartbeat's time. */
  predicate Consistent(t: Tables) {
    && (forall k :: k in t.agents ==> k !in t.pending)
    && (forall k :: k in t.agents ==> AgentConsistent(k, t.agents[k]))
    && (forall k :: k in t.pending ==> t.pending[k].pubkey == k)
  }

  lemma NotifiedPreserves(t: Tables, now: int, loading: bool)
    requires Consistent(t)
    ensures Consistent(Notified(t, now, loading))
    ensures Notified(t, now, loading).pending == t.pending
  {
  }

  lemma ApplyCardPreserves(t: Tables, ev: Event, npubEncode: string -> Option<string>, now: int, loading: bool)
    requires Consistent(t)
    ensures Consistent(ApplyCard(t, ev, npubEncode, now, loading))
  {
    if npubEncode(ev.pubkey).Some? {
      var p := PlaceCard(t, NewCard(ev, npubEncode(ev.pubkey).value), now);
      assert Consistent(p);
      NotifiedPreserves(p, now, loading);
    }
  }

  lemma ApplyHeartbeatPreserves(t: Tables, ev: Event, now: int, loading: bool)
    requires Consistent(t)
    ensures Consistent(ApplyHeartbeat(t, ev, now, loading))
  {
    if !ValidDateMs(ev.createdAt * 1000) {
      return;
    }
    var p := PlaceHeartbeat(t, NewHeartbeat(ev), now);
    assert Consistent(p);
    NotifiedPreserves(p, now, loading);
  }

  lemma {:induction false} ApplyAllPreserves(t: Tables, ds: seq<Delivery>, npubEncode: string -> Option<string>, now: int, loading: bool)
    requires Consistent(t)
    ensures Consistent(ApplyAll(t, ds, npubEncode, now, loading))
    decreases |ds|
  {
    if ds != [] {
      var init := ApplyAll(t, ds[..|ds| - 1], npubEncode, now, loading);
      ApplyAllPreserves(t, ds[..|ds| - 1], npubEncode, now, loading);
      match ds[|ds| - 1]
      case CardEvent(ev) => ApplyCardPreserves(init, ev, npubEncode, now, loading);
      case HeartbeatEvent(ev) => ApplyHeartbeatPreserves(init, ev, now, loading);
    }
  }

  /** With the invariant, matching the buffer against the agents changes
      nothing: a heartbeat is only ever buffered for a pubkey without an agent. */
  lemma MatchAllIsNoOp(t: Tables, now: int)
    requires Consistent(t)
    ensures MatchAll(t.agents, t.pending, now) == t.agents
  {
  }

  // ----- properties of the handlers -----

  /** A heartbeat for a known agent is taken only when its time is a valid
      date and strictly newer than the held one; afterwards `lastSeen` is the
      held heartbeat's time and the card is untouched. */
  lemma HeartbeatReplaceIfNewer(t: Tables, ev: Event, now: int, loading: bool)
    requires Consistent(t) && ev.pubkey in t.agents
    ensures var a := t.agents[ev.pubkey];
      var a' := ApplyHeartbeat(t, ev, now, loading).agents[ev.pubkey];
      var hb := NewHeartbeat(ev);
      && a'.heartbeat ==
           (if ValidDateMs(hb.timestampMs) && (a.heartbeat.None? || hb.timestampMs > a.heartbeat.value.timestampMs)
            then Some(hb) else a.heartbeat)
      && AgentConsistent(ev.pubkey, a')
      && a'.card == a.card
    ensures ApplyHeartbeat(t, ev, now, loading).pending == t.pending
  {
  }

  /** Delivering the same heartbeat twice has the effect of delivering it once. */
  lemma HeartbeatIdempotent(t: Tables, ev: Event, now: int, loading: bool)
    requires Consistent(t)
    ensures ApplyHeartbeat(ApplyHeartbeat(t, ev, now, loading), ev, now, loading) == ApplyHeartbeat(t, ev, now, loading)
  {
    if !ValidDateMs(ev.createdAt * 1000) {
      return;
    }
    var once := ApplyHeartbeat(t, ev, now, loading);
    ApplyHeartbeatPreserves(t, ev, now, loading);
    var hb := NewHeartbeat(ev);
    var pk := ev.pubkey;
    if pk in t.agents {
      assert once.agents[pk].heartbeat.Some? && once.agents[pk].heartbeat.value.timestampMs >= hb.timestampMs;
      assert PlaceHeartbeat(once, hb, now) == once;
    } else {
      assert PlaceHeartbeat(once, hb, now) == once;
    }
    if !loading {
      assert RefreshAll(once.agents, now) == once.agents;
    }
  }

  /** A heartbeat for an unknown pubkey leaves the agents alone and buffers the
      newer of itself and the buffered one (ties keep the buffered one); one
      whose time is not a valid date is dropped. */
  lemma PendingKeepsNewest(t: Tables, ev: Event, now: int, loading: bool)
    requires ev.pubkey !in t.agents
    ensures var t' := ApplyHeartbeat(t, ev, now, loading);
      var dated := ValidDateMs(ev.createdAt * 1000);
      && ev.pubkey !in t'.agents
      && t'.agents == (if dated then Notified(t, now, loading).agents else t.agents)
      && (ev.pubkey in t'.pending <==> dated || ev.pubkey in t.pending)
      && (ev.pubkey in t'.pending ==>
           t'.pending[ev.pubkey] ==
             (if ev.pubkey in t.pending && (!dated || t.pending[ev.pubkey].timestampMs >= ev.createdAt * 1000)
              then t.pending[ev.pubkey] else NewHeartbeat(ev)))
      && (forall k :: k in t.pending && k != ev.pubkey ==> k in t'.pending && t'.pending[k] == t.pending[k])
  {
  }

  /** A heartbeat whose time no `Date` can hold changes nothing, whatever
      the tables hold. */
  lemma UndatedHeartbeatDropped(t: Tables, ev: Event, now: int, loading: bool)
    requires ev.createdAt > MAX_DATE_MS / 1000 || ev.createdAt < -MAX_DATE_MS / 1000
    ensures ApplyHeartbeat(t, ev, now, loading) == t
  {
  }

  /** The heartbeats of `evs` whose times are valid dates, in order. */
  function Dated(evs: seq<Event>): seq<Event>
    decreases |evs|
  {
    if evs == [] then []
    else Dated(evs[..|evs| - 1]) + (if ValidDateMs(evs[|evs| - 1].createdAt * 1000) then [evs[|evs| - 1]] else [])
  }

  function HeartbeatsOf(evs: seq<Event>): seq<Delivery> {
    seq(|evs|, i requires 0 <= i < |evs| => HeartbeatEvent(evs[i]))
  }

  function LatestMs(evs: seq<Event>): int
    requires |evs| > 0
    decreases |evs|
  {
    if |evs| == 1 then evs[0].createdAt * 1000 else Max(LatestMs(evs[..|evs| - 1]), evs[|evs| - 1].createdAt * 1000)
  }

  /** However many heartbeats for an unknown pubkey arrive and in whatever
      order, no agent appears, and the buffer holds exactly one for it when
      any of them has a valid date: one with the newest such time. */
  lemma {:induction false} PendingHoldsNewest(t: Tables, evs: seq<Event>, pk: string, npubEncode: string -> Option<string>, now: int, loading: bool)
    requires pk !in t.agents && pk !in t.pending
    requires forall i :: 0 <= i < |evs| ==> evs[i].pubkey == pk
    ensures var t' := ApplyAll(t, HeartbeatsOf(evs), npubEncode, now, loading);
      var dated := Dated(evs);
      && pk !in t'.agents
      && (pk in t'.pending <==> |dated| > 0)
      && (|dated| > 0 ==> t'.pending[pk].timestampMs == LatestMs(dated) && t'.pending[pk] in NewHeartbeats(dated))
    decreases |evs|
  {
    if evs == [] {
      assert HeartbeatsOf(evs) == [];
      return;
    }
    var n := |evs| - 1;
    assert HeartbeatsOf(evs)[..n] == HeartbeatsOf(evs[..n]);
    var prev := ApplyAll(t, HeartbeatsOf(evs[..n]), npubEncode, now, loading);
    PendingHoldsNewest(t, evs[..n], pk, npubEncode, now, loading);
    PendingKeepsNewest(prev, evs[n], now, loading);
    var before := Dated(evs[..n]);
    if ValidDateMs(evs[n].createdAt * 1000) {
      var after := before + [evs[n]];
      assert Dated(evs) == after;
      assert after[..|before|] == before;
      assert NewHeartbeats(after) == NewHeartbeats(before) + [NewHeartbeat(evs[n])];
    } else {
      assert Dated(evs) == before;
    }
  }

  function NewHeartbeats(evs: seq<Event>): seq<AgentHeartbeat> {
    seq(|evs|, i requires 0 <= i < |evs| => NewHeartbeat(evs[i]))
  }

  /** A card for a known pubkey replaces the stored card whatever its
      `created_at` (the last delivered card wins) and keeps the heartbeat. */
  lemma LastDeliveredCardWins(t: Tables, ev: Event, npubEncode: string -> Option<string>, now: int, loading: bool)
    requires Consistent(t) && ev.pubkey in t.agents && npubEncode(ev.pubkey).Some?
    ensures var a := t.agents[ev.pubkey];
      var a' := ApplyCard(t, ev, npubEncode, now, loading).agents[ev.pubkey];
      && a'.card == NewCard(ev, npubEncode(ev.pubkey).value)
      && a'.heartbeat == a.heartbeat && a'.lastSeenMs == a.lastSeenMs
      && a'.isOnline == IsOnline(a.heartbeat, now)
  {
  }

  /** An older card delivered after a newer one still replaces it. */
  lemma OlderCardReplacesNewer(t: Tables, older: Event, npubEncode: string -> Option<string>, now: int)
    requires Consistent(t) && older.pubkey in t.agents && npubEncode(older.pubkey).Some?
    requires older.createdAt * 1000 < t.agents[older.pubkey].card.createdAtMs
    ensures ApplyCard(t, older, npubEncode, now, false).agents[older.pubkey].card.createdAtMs == older.createdAt * 1000
  {
  }

  /** Delivering the same card twice has the effect of delivering it once. */
  lemma CardIdempotent(t: Tables, ev: Event, npubEncode: string -> Option<string>, now: int, loading: bool)
    requires Consistent(t)
    ensures ApplyCard(ApplyCard(t, ev, npubEncode, now, loading), ev, npubEncode, now, loading) == ApplyCard(t, ev, npubEncode, now, loading)
  {
    if npubEncode(ev.pubkey).Some? {
      var card := NewCard(ev, npubEncode(ev.pubkey).value);
      var pk := ev.pubkey;
      var placed := PlaceCard(t, card, now);
      assert pk in placed.agents && placed.agents[pk].card == card;
      assert placed.agents[pk] == Refreshed(placed.agents[pk], now);
      var once := Notified(placed, now, loading);
      assert once.agents[pk] == Refreshed(once.agents[pk], now);
      assert PlaceCard(once, card, now).agents == once.agents;
      if !loading {
        RefreshAllTwice(placed.agents, now);
      }
    }
  }

  lemma RefreshAllTwice(m: map<string, Agent>, now: int)
    ensures RefreshAll(RefreshAll(m, now), now) == RefreshAll(m, now)
  {
  }

  /** `Refreshed` does not read the stored online flag. */
  lemma RefreshedIgnoresFlag(a: Agent, b: Agent, now: int)
    requires a.(isOnline := false) == b.(isOnline := false)
    ensures Refreshed(a, now) == Refreshed(b, now)
  {
    assert a.heartbeat == b.heartbeat;
  }

  /** Recomputing online flags before a heartbeat is placed makes no
      difference once they are recomputed after it. */
  lemma NotifyBeforeHeartbeat(t: Tables, h: AgentHeartbeat, now: int, loading: bool)
    ensures Notified(PlaceHeartbeat(Notified(t, now, loading), h, now), now, loading)
         == Notified(PlaceHeartbeat(t, h, now), now, loading)
  {
    if !loading {
      var p1 := PlaceHeartbeat(Notified(t, now, false), h, now);
      var p2 := PlaceHeartbeat(t, h, now);
      assert p1.agents.Keys == p2.agents.Keys && p1.pending == p2.pending;
      forall k | k in p1.agents
        ensures Refreshed(p1.agents[k], now) == Refreshed(p2.agents[k], now)
      {
        RefreshedIgnoresFlag(p1.agents[k], p2.agents[k], now);
      }
      assert RefreshAll(p1.agents, now) == RefreshAll(p2.agents, now);
    }
  }

  /** The same for placing a card. */
  lemma NotifyBeforeCard(t: Tables, c: AgentCard, now: int, loading: bool)
    ensures Notified(PlaceCard(Notified(t, now, loading), c, now), now, loading)
         == Notified(PlaceCard(t, c, now), now, loading)
  {
    if !loading {
      var p1 := PlaceCard(Notified(t, now, false), c, now);
      var p2 := PlaceCard(t, c, now);
      assert p1.agents.Keys == p2.agents.Keys && p1.pending == p2.pending;
      forall k | k in p1.agents
        ensures Refreshed(p1.agents[k], now) == Refreshed(p2.agents[k], now)
      {
        RefreshedIgnoresFlag(p1.agents[k], p2.agents[k], now);
      }
      assert RefreshAll(p1.agents, now) == RefreshAll(p2.agents, now);
    }
  }

  /** Placing a card and a heartbeat of the same pubkey commute. */
  lemma PlaceCommute(t: Tables, c: AgentCard, h: AgentHeartbeat, now: int)
    requires c.pubkey == h.pubkey
    ensures PlaceHeartbeat(PlaceCard(t, c, now), h, now) == PlaceCard(PlaceHeartbeat(t, h, now), c, now)
  {
    if c.pubkey in t.agents {
      PlaceCommuteKnown(t, c, h, now);
    } else if c.pubkey in t.pending {
      PlaceCommutePending(t, c, h, now);
    } else {
      PlaceCommuteNew(t, c, h, now);
    }
  }

  lemma PlaceCommuteKnown(t: Tables, c: AgentCard, h: AgentHeartbeat, now: int)
    requires c.pubkey == h.pubkey && c.pubkey in t.agents
    ensures PlaceHeartbeat(PlaceCard(t, c, now), h, now) == PlaceCard(PlaceHeartbeat(t, h, now), c, now)
  {
    var a := t.agents[c.pubkey];
    if a.heartbeat.None? || h.timestampMs > a.heartbeat.value.timestampMs {
      var b := a.(card := c, heartbeat := Some(h), lastSeenMs := Some(h.timestampMs));
      RefreshedIgnoresFlag(Refreshed(a.(card := c), now).(heartbeat := Some(h), lastSeenMs := Some(h.timestampMs)), b, now);
      RefreshedIgnoresFlag(Refreshed(a.(heartbeat := Some(h), lastSeenMs := Some(h.timestampMs)), now).(card := c), b, now);
    }
  }

  lemma PlaceCommutePending(t: Tables, c: AgentCard, h: AgentHeartbeat, now: int)
    requires c.pubkey == h.pubkey && c.pubkey !in t.agents && c.pubkey in t.pending
    ensures PlaceHeartbeat(PlaceCard(t, c, now), h, now) == PlaceCard(PlaceHeartbeat(t, h, now), c, now)
  {
    var pk := c.pubkey;
    var p := t.pending[pk];
    if h.timestampMs > p.timestampMs {
      RefreshedIgnoresFlag(Refreshed(Agent(c, Some(p), false, Some(p.timestampMs)), now).(heartbeat := Some(h), lastSeenMs := Some(h.timestampMs)),
        Agent(c, Some(h), false, Some(h.timestampMs)), now);
      assert t.pending[pk := h] - {pk} == t.pending - {pk};
    }
  }

  lemma PlaceCommuteNew(t: Tables, c: AgentCard, h: AgentHeartbeat, now: int)
    requires c.pubkey == h.pubkey && c.pubkey !in t.agents && c.pubkey !in t.pending
    ensures PlaceHeartbeat(PlaceCard(t, c, now), h, now) == PlaceCard(PlaceHeartbeat(t, h, now), c, now)
  {
    assert t.pending[c.pubkey := h] - {c.pubkey} == t.pending;
  }

  /** A card and a heartbeat from the same pubkey lead to the same maps in
      either delivery order. */
  lemma CardHeartbeatCommute(t: Tables, card: Event, hb: Event, npubEncode: string -> Option<string>, now: int, loading: bool)
    requires Consistent(t) && card.pubkey == hb.pubkey
    ensures ApplyHeartbeat(ApplyCard(t, card, npubEncode, now, loading), hb, now, loading)
         == ApplyCard(ApplyHeartbeat(t, hb, now, loading), card, npubEncode, now, loading)
  {
    var h := NewHeartbeat(hb);
    if ValidDateMs(hb.createdAt * 1000) && npubEncode(card.pubkey).Some? {
      var c := NewCard(card, npubEncode(card.pubkey).value);
      NotifyBeforeHeartbeat(PlaceCard(t, c, now), h, now, loading);
      NotifyBeforeCard(PlaceHeartbeat(t, h, now), c, now, loading);
      PlaceCommute(t, c, h, now);
    }
  }

  /** The `for ... of` loop of `notifyAgentUpdate`: each agent's online
      flag recomputed, one key at a time. */
  method RefreshLoop(current: map<string, Agent>, now: int) returns (refreshed: map<string, Agent>)
    ensures refreshed == RefreshAll(current, now)
  {
    refreshed := current;
    var todo := current.Keys;
    while todo != {}
      invariant todo <= current.Keys && refreshed.Keys == current.Keys
      invariant forall k :: k in current ==> refreshed[k] == if k in todo then current[k] else Refreshed(current[k], now)
      decreases |todo|
    {
      var k :| k in todo;
      refreshed := refreshed[k := Refreshed(current[k], now)];
      todo := todo - {k};
    }
  }

  // ----- the client -----

  /** `NostrClient`: the two maps, the loading flag, and the list of agent
      snapshots handed to the render callback. */
  class NostrClient {
    var agents: map<string, Agent>
    var pendingHeartbeats: map<string, AgentHeartbeat>
    var isLoading: bool
    var renders: seq<map<string, Agent>>

    function State(): Tables
      reads this
    {
      Tables(agents, pendingHeartbeats)
    }

    predicate Valid()
      reads this
    {
      Consistent(State())
    }

    constructor ()
      ensures Valid() && agents == map[] && pendingHeartbeats == map[]
      ensures isLoading && renders == []
    {
      agents := map[];
      pendingHeartbeats := map[];
      isLoading := true;
      renders := [];
    }

    /** `notifyAgentUpdate`: skipped while loading; otherwise refreshes every
        agent's online flag and hands the agents to the render callback. */
    method NotifyAgentUpdate(now: int)
      requires Valid()
      modifies this
      ensures Valid() && isLoading == old(isLoading)
      ensures State() == Notified(old(State()), now, isLoading)
      ensures renders == old(renders) + (if isLoading then [] else [agents])
    {
      if isLoading {
        return;
      }
      var refreshed := RefreshLoop(agents, now);
      NotifiedPreserves(State(), now, false);
      agents := refreshed;
      renders := renders + [agents];
    }

    /** `handleServiceCard`: parse the tags, update or create the agent (taking
        a buffered heartbeat), then notify. */
    method HandleServiceCard(ev: Event, npubEncode: string -> Option<string>, now: int)
      requires Valid()
      modifies this
      ensures Valid() && isLoading == old(isLoading)
      ensures State() == ApplyCard(old(State()), ev, npubEncode, now, isLoading)
      ensures renders == old(renders) + (if isLoading || npubEncode(ev.pubkey).None? then [] else [agents])
    {
      var encoded := npubEncode(ev.pubkey);
      if encoded.None? {
        return;
      }
      var npub := encoded.value;
      var fields := ParseCardTags(ev.tags);
      var card := AgentCard(
        Prefix(ev.pubkey, 8) + "-" + fields.d, ev.pubkey, Prefix(npub, 12) + "..." + LastN(npub, 8), npub,
        fields.name, fields.about, fields.capabilities, "1.0", ev.createdAt * 1000,
        fields.avatar, fields.color, fields.banner);
      assert card == NewCard(ev, npub);
      ghost var placed := PlaceCard(State(), card, now);
      ApplyCardPreserves(State(), ev, npubEncode, now, true);
      if ev.pubkey in agents {
        var existing := agents[ev.pubkey];
        agents := agents[ev.pubkey := Refreshed(existing.(card := card), now)];
      } else {
        var agent := Agent(card, None, false, None);
        if ev.pubkey in pendingHeartbeats {
          var pendingHeartbeat := pendingHeartbeats[ev.pubkey];
          agent := agent.(heartbeat := Some(pendingHeartbeat), lastSeenMs := Some(pendingHeartbeat.timestampMs));
          pendingHeartbeats := pendingHeartbeats - {ev.pubkey};
          agent := Refreshed(agent, now);
        }
        agents := agents[ev.pubkey := agent];
      }
      assert State() == placed;
      NotifyAgentUpdate(now);
    }

    /** `handleHeartbeat`: parse the status; a time outside the `Date` range
        throws at the log line and the event is dropped; otherwise either
        update the known agent (only with a strictly newer heartbeat) or
        buffer it (keeping the newer), then notify. */
    method HandleHeartbeat(ev: Event, now: int)
      requires Valid()
      modifies this
      ensures Valid() && isLoading == old(isLoading)
      ensures State() == ApplyHeartbeat(old(State()), ev, now, isLoading)
      ensures renders == old(renders) + (if isLoading || !ValidDateMs(ev.createdAt * 1000) then [] else [agents])
    {
      var status := ParseHeartbeatStatus(ev.tags);
      var heartbeat := AgentHeartbeat(ev.pubkey, status, ev.createdAt * 1000);
      if !ValidDateMs(heartbeat.timestampMs) {
        return;
      }
      ghost var placed := PlaceHeartbeat(State(), heartbeat, now);
      ApplyHeartbeatPreserves(State(), ev, now, true);
      if ev.pubkey in agents {
        var agent := agents[ev.pubkey];
        if agent.heartbeat.None? || heartbeat.timestampMs > agent.heartbeat.value.timestampMs {
          agent := agent.(heartbeat := Some(heartbeat), lastSeenMs := Some(heartbeat.timestampMs));
          agents := agents[ev.pubkey := Refreshed(agent, now)];
        }
      } else {
        if ev.pubkey !in pendingHeartbeats || heartbeat.timestampMs > pendingHeartbeats[ev.pubkey].timestampMs {
          pendingHeartbeats := pendingHeartbeats[ev.pubkey := heartbeat];
        }
      }
      assert State() == placed;
      NotifyAgentUpdate(now);
    }

    /** `matchPendingHeartbeats`: every buffered heartbeat whose agent is now
        known is attached to it, then the buffer is cleared. */
    method MatchPendingHeartbeats(now: int)
      modifies this
      ensures agents == MatchAll(old(agents), old(pendingHeartbeats), now) && pendingHeartbeats == map[]
      ensures old(Valid()) ==> Valid() && agents == old(agents)
      ensures isLoading == old(isLoading) && renders == old(renders)
    {
      var current := agents;
      var pending := pendingHeartbeats;
      var matched := current;
      var todo := pending.Keys;
      while todo != {}
        invariant todo <= pending.Keys && matched.Keys == current.Keys
        invariant forall k :: k in current ==>
          (matched[k] ==
             if k in pending && k !in todo
             then Refreshed(current[k].(heartbeat := Some(pending[k]), lastSeenMs := Some(pending[k].timestampMs)), now)
             else current[k])
        decreases |todo|
      {
        var pubkey :| pubkey in todo;
        var heartbeat := pending[pubkey];
        if pubkey in matched {
          var agent := matched[pubkey].(heartbeat := Some(heartbeat), lastSeenMs := Some(heartbeat.timestampMs));
          matched := matched[pubkey := Refreshed(agent, now)];
        }
        todo := todo - {pubkey};
      }
      assert matched == MatchAll(current, pending, now);
      if Valid() {
        MatchAllIsNoOp(State(), now);
      }
      agents := matched;
      pendingHeartbeats := map[];
    }

    /** `connect`: both initial queries deliver their events (in any
        interleaving) while renders are suppressed, the buffer is matched,
        loading ends, and exactly one render shows the complete data. */
    method Connect(deliveries: seq<Delivery>, npubEncode: string -> Option<string>, now: int)
      requires Valid()
      modifies this
      ensures Valid() && !isLoading && pendingHeartbeats == map[]
      ensures old(isLoading) ==> renders == old(renders) + [agents]
      ensures old(isLoading) ==> agents == RefreshAll(ApplyAll(old(State()), deliveries, npubEncode, now, true).agents, now)
    {
      ghost var start := State();
      ghost var loading := isLoading;
      var i := 0;
      while i < |deliveries|
        invariant 0 <= i <= |deliveries|
        invariant Valid() && isLoading == loading
        invariant loading ==> State() == ApplyAll(start, deliveries[..i], npubEncode, now, true)
        invariant loading ==> renders == old(renders)
        decreases |deliveries| - i
      {
        assert deliveries[..i + 1][..i] == deliveries[..i];
        match deliveries[i] {
          case CardEvent(ev) => HandleServiceCard(ev, npubEncode, now);
          case HeartbeatEvent(ev) => HandleHeartbeat(ev, now);
        }
        i := i + 1;
      }
      assert deliveries[..i] == deliveries;
      MatchPendingHeartbeats(now);
      isLoading := false;
      NotifyAgentUpdate(now);
    }
  }
}
