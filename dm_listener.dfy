/** The OpenClaw DM listener: the persisted cursor and dedup ledger, the
    subscription window, and the filtering of incoming direct messages
    before they are injected into the main session. Decryption and npub
    encoding are partial functions given as parameters. */
module DmListener {
  import opened Common
  import opened Text

  /** Only this many event ids are written to the state file. */
  const MAX_SAVED_IDS := 500
  /** How far the subscription looks back before the cursor, in seconds. */
  const LOOKBACK_S := 60
  /** Where the cursor starts when there is no state file, in seconds before now. */
  const DEFAULT_CURSOR_AGE_S := 120
  const KIND_ENCRYPTED_DM := 4

  /** `dm-listener-state.json`. */
  datatype ListenerState = ListenerState(lastSeenAt: int, seenIds: seq<string>)

  /** `loadState`: the stored state, or a cursor two minutes before now (in
      unix seconds) and no ids when the file is missing or unreadable. */
  function LoadState(file: Option<ListenerState>, nowMs: int): (s: ListenerState)
    ensures file.None? ==> s.seenIds == [] && s.lastSeenAt == nowMs / 1000 - DEFAULT_CURSOR_AGE_S
    ensures file.Some? ==> s == file.value
  {
    if file.Some? then file.value else ListenerState(nowMs / 1000 - DEFAULT_CURSOR_AGE_S, [])
  }

  /** The `since` of the subscription: a minute before the cursor, never
      before the epoch. */
  function Since(lastSeenAt: int): (r: int)
    ensures r >= 0 && r >= lastSeenAt - LOOKBACK_S
    ensures r == 0 || r == lastSeenAt - LOOKBACK_S
  {
    Max(0, lastSeenAt - LOOKBACK_S)
  }

  /** Without a state file the subscription starts three minutes before
      now (or at the epoch). */
  lemma DefaultWindow(nowMs: int)
    requires nowMs >= 180000
    ensures Since(LoadState(None, nowMs).lastSeenAt) == nowMs / 1000 - 180
  {
  }

  /** The relay subscription filter. */
  datatype Filter = Filter(kinds: seq<int>, pTags: seq<string>, since: int)

  /** The event carries a `["p", me, ...]` tag. */
  predicate TargetsUs(tags: seq<Tag>, me: string) {
    exists i :: 0 <= i < |tags| && |tags[i]| >= 2 && tags[i][0] == "p" && tags[i][1] == me
  }

  /** The sender as shown to the agent: its npub, or the hex key when the
      encoding fails. */
  function SenderLabel(pubkey: string, npubEncode: string -> Option<string>): string {
    match npubEncode(pubkey)
    case Some(npub) => npub
    case None => pubkey
  }

  function InjectedText(sender: string, plaintext: string): string {
    "[Nostr DM from " + sender + "]\n" + plaintext
  }

  /** The listener's mutable state: the in-memory dedup set, the id list
      that gets saved, the cursor, the texts injected into the main
      session so far, and whether a save is scheduled. */
  datatype Ledger = Ledger(
    seenSet: set<string>,
    seenIds: seq<string>,
    lastSeenAt: int,
    injected: seq<string>,
    savePending: bool)

  /** `handleEvent`: a known id is ignored; otherwise the id is recorded
      first, then own messages, messages not addressed to us and messages
      that do not decrypt are dropped; a decrypted message moves the cursor
      forward, schedules a save and is injected. */
  function Handled(l: Ledger, ev: Event, me: string,
                   decrypt: (string, string) -> Option<string>,
                   npubEncode: string -> Option<string>): Ledger {
    if ev.id in l.seenSet then l
    else
      var recorded := l.(seenSet := l.seenSet + {ev.id}, seenIds := l.seenIds + [ev.id]);
      if ev.pubkey == me || !TargetsUs(ev.tags, me) then recorded
      else match decrypt(ev.pubkey, ev.content)
        case None => recorded
        case Some(text) =>
          recorded.(
            lastSeenAt := Max(l.lastSeenAt, ev.createdAt),
            savePending := true,
            injected := l.injected + [InjectedText(SenderLabel(ev.pubkey, npubEncode), text)])
  }

  /** What one delivery does, case by case. */
  lemma HandledCases(l: Ledger, ev: Event, me: string,
                     decrypt: (string, string) -> Option<string>, npubEncode: string -> Option<string>)
    ensures var r := Handled(l, ev, me, decrypt, npubEncode);
      && l.seenSet <= r.seenSet && ev.id in r.seenSet
      && r.lastSeenAt >= l.lastSeenAt
      && (ev.id in l.seenSet ==> r == l)
      && (ev.pubkey == me || !TargetsUs(ev.tags, me) || decrypt(ev.pubkey, ev.content).None? ==>
            r.injected == l.injected && r.lastSeenAt == l.lastSeenAt)
      && (ev.id !in l.seenSet && ev.pubkey != me && TargetsUs(ev.tags, me)
          && decrypt(ev.pubkey, ev.content).Some? ==>
            r.lastSeenAt == Max(l.lastSeenAt, ev.createdAt)
            && r.injected == l.injected
                 + [InjectedText(SenderLabel(ev.pubkey, npubEncode), decrypt(ev.pubkey, ev.content).value)])
  {
  }

  /** A second delivery of the same event changes nothing. */
  lemma RedeliveryIsNoOp(l: Ledger, ev: Event, me: string,
                         decrypt: (string, string) -> Option<string>, npubEncode: string -> Option<string>)
    ensures var once := Handled(l, ev, me, decrypt, npubEncode);
      Handled(once, ev, me, decrypt, npubEncode) == once
  {
  }

  function HandledAll(l: Ledger, evs: seq<Event>, me: string,
                      decrypt: (string, string) -> Option<string>,
                      npubEncode: string -> Option<string>): Ledger
    decreases |evs|
  {
    if evs == [] then l
    else Handled(HandledAll(l, evs[..|evs| - 1], me, decrypt, npubEncode), evs[|evs| - 1], me, decrypt, npubEncode)
  }

  /** Over any sequence of deliveries, each injection is paid for by a new
      event id: no more injections than ids not seen before. Duplicates,
      however many, inject at most once. */
  lemma {:induction false} InjectionsBoundedByNewIds(l: Ledger, evs: seq<Event>, me: string,
                                                     decrypt: (string, string) -> Option<string>,
                                                     npubEncode: string -> Option<string>)
    ensures var r := HandledAll(l, evs, me, decrypt, npubEncode);
      && l.seenSet <= r.seenSet
      && |r.injected| - |l.injected| <= |r.seenSet - l.seenSet|
    decreases |evs|
  {
    if evs != [] {
      var init := evs[..|evs| - 1];
      var ev := evs[|evs| - 1];
      InjectionsBoundedByNewIds(l, init, me, decrypt, npubEncode);
      var m := HandledAll(l, init, me, decrypt, npubEncode);
      var r := Handled(m, ev, me, decrypt, npubEncode);
      if ev.id !in m.seenSet {
        assert r.seenSet - l.seenSet == (m.seenSet - l.seenSet) + {ev.id};
        assert |r.injected| <= |m.injected| + 1;
      }
    }
  }

  /** Ids already in the ledger never inject, whatever else happens. */
  lemma {:induction false} KnownIdsNeverInject(l: Ledger, evs: seq<Event>, me: string,
                                               decrypt: (string, string) -> Option<string>,
                                               npubEncode: string -> Option<string>)
    requires forall i :: 0 <= i < |evs| ==> evs[i].id in l.seenSet
    ensures HandledAll(l, evs, me, decrypt, npubEncode) == l
    decreases |evs|
  {
    if evs != [] {
      KnownIdsNeverInject(l, evs[..|evs| - 1], me, decrypt, npubEncode);
    }
  }

  /** `saveState`: only the last 500 ids are kept. */
  function Saved(l: Ledger): (s: ListenerState)
    ensures |s.seenIds| <= MAX_SAVED_IDS
    ensures |l.seenIds| <= MAX_SAVED_IDS ==> s.seenIds == l.seenIds
    ensures |l.seenIds| > MAX_SAVED_IDS ==> s.seenIds == l.seenIds[|l.seenIds| - MAX_SAVED_IDS..]
  {
    ListenerState(l.lastSeenAt, LastN(l.seenIds, MAX_SAVED_IDS))
  }

  /** After a save and a restart, the last 500 ids recorded are still
      deduplicated and the cursor is where it was. */
  lemma RestartKeepsRecentIds(l: Ledger, nowMs: int, id: string)
    requires id in LastN(l.seenIds, MAX_SAVED_IDS)
    ensures id in ToSet(LoadState(Some(Saved(l)), nowMs).seenIds)
    ensures LoadState(Some(Saved(l)), nowMs).lastSeenAt == l.lastSeenAt
  {
  }

  function ToSet(ids: seq<string>): (r: set<string>)
    ensures forall x :: x in r <==> x in ids
  {
    set x | x in ids
  }

  /** The listener started by `startDmListener`. */
  class Listener {
    const publicKey: string
    const filter: Filter
    var seenSet: set<string>
    var seenIds: seq<string>
    var lastSeenAt: int
    var injected: seq<string>
    var savePending: bool
    /** The state file; `None` when missing or unreadable. */
    var stateFile: Option<ListenerState>

    function State(): Ledger
      reads this
    {
      Ledger(seenSet, seenIds, lastSeenAt, injected, savePending)
    }

    /** Every id in the saved list is in the dedup set. */
    predicate Valid()
      reads this
    {
      forall x :: x in seenIds ==> x in seenSet
    }

    /** `startDmListener`: loads the state, seeds the dedup set from it and
        subscribes to encrypted DMs addressed to us from a minute before the
        cursor. */
    constructor (publicKey: string, file: Option<ListenerState>, nowMs: int)
      ensures Valid()
      ensures this.publicKey == publicKey && stateFile == file
      ensures var s := LoadState(file, nowMs);
        && seenIds == s.seenIds && seenSet == ToSet(s.seenIds) && lastSeenAt == s.lastSeenAt
        && filter == Filter([KIND_ENCRYPTED_DM], [publicKey], Since(s.lastSeenAt))
      ensures injected == [] && !savePending
    {
      var s := LoadState(file, nowMs);
      this.publicKey := publicKey;
      filter := Filter([KIND_ENCRYPTED_DM], [publicKey], Since(s.lastSeenAt));
      seenSet := ToSet(s.seenIds);
      seenIds := s.seenIds;
      lastSeenAt := s.lastSeenAt;
      injected := [];
      savePending := false;
      stateFile := file;
    }

    /** `handleEvent`. */
    method HandleEvent(ev: Event, decrypt: (string, string) -> Option<string>,
                       npubEncode: string -> Option<string>)
      requires Valid()
      modifies this
      ensures Valid()
      ensures State() == Handled(old(State()), ev, publicKey, decrypt, npubEncode)
      ensures stateFile == old(stateFile)
    {
      if ev.id in seenSet {
        return;
      }
      seenSet := seenSet + {ev.id};
      seenIds := seenIds + [ev.id];
      if ev.pubkey == publicKey {
        return;
      }
      if !TargetsUs(ev.tags, publicKey) {
        return;
      }
      var plaintext := decrypt(ev.pubkey, ev.content);
      if plaintext.None? {
        return;
      }
      lastSeenAt := Max(lastSeenAt, ev.createdAt);
      savePending := true;
      injected := injected + [InjectedText(SenderLabel(ev.pubkey, npubEncode), plaintext.value)];
    }

    /** `saveState`: writes the cursor and the last 500 ids, and keeps only
        those in memory too (the dedup set is untouched). */
    method SaveState()
      requires Valid()
      modifies this
      ensures Valid()
      ensures stateFile == Some(Saved(old(State())))
      ensures seenIds == LastN(old(seenIds), MAX_SAVED_IDS)
      ensures seenSet == old(seenSet) && lastSeenAt == old(lastSeenAt)
      ensures injected == old(injected) && savePending == old(savePending)
    {
      seenIds := LastN(seenIds, MAX_SAVED_IDS);
      stateFile := Some(ListenerState(lastSeenAt, seenIds));
    }

    /** The debounced save timer fires. */
    method SaveTimerFires()
      requires Valid()
      modifies this
      ensures Valid() && !savePending
      ensures old(savePending) ==> stateFile == Some(Saved(old(State())))
      ensures !old(savePending) ==> stateFile == old(stateFile) && seenIds == old(seenIds)
      ensures seenSet == old(seenSet) && lastSeenAt == old(lastSeenAt) && injected == old(injected)
    {
      if savePending {
        SaveState();
        savePending := false;
      }
    }

    /** `stop`: cancels the pending save and saves immediately. */
    method Stop()
      requires Valid()
      modifies this
      ensures Valid() && !savePending
      ensures stateFile == Some(Saved(old(State())))
      ensures seenSet == old(seenSet) && lastSeenAt == old(lastSeenAt) && injected == old(injected)
    {
      savePending := false;
      SaveState();
    }
  }
}
