/** The web directory's page logic (`AgentReachApp`): the search and
    category filter with its online-first sort, the relative-time label and
    the double-press debug toggle. `localeCompare` is an abstract total
    preorder on names, passed in as `le`. */
module WebApp {
  import opened Common
  import opened Text
  import opened WebNostr

  const DEBUG_WINDOW_MS: int := 500

  // ----- filtering -----

  /** The lower-cased space-join of the name, description and capabilities. */
  function SearchText(a: Agent): string {
    ToLower(Join([a.card.name, a.card.description] + a.card.capabilities, " "))
  }

  /** An empty query keeps everything; otherwise the search text must
      contain it. */
  predicate MatchesSearch(a: Agent, query: string) {
    query == "" || Contains(SearchText(a), query)
  }

  predicate CapabilityMatches(c: string, filter: string) {
    Contains(ToLower(c), filter)
  }

  /** "all" keeps everything, "online" keeps online agents, and any other
      filter keeps agents with a capability whose lower-cased form contains
      it. */
  predicate MatchesCategory(a: Agent, filter: string) {
    if filter == "all" then true
    else if filter == "online" then a.isOnline
    else exists i :: 0 <= i < |a.card.capabilities| && CapabilityMatches(a.card.capabilities[i], filter)
  }

  predicate Keep(a: Agent, query: string, filter: string) {
    MatchesSearch(a, query) && MatchesCategory(a, filter)
  }

  /** The two `Array.prototype.filter` passes, in list order. */
  function Selected(agents: seq<Agent>, query: string, filter: string): seq<Agent>
    decreases |agents|
  {
    if agents == [] then []
    else
      var rest := Selected(agents[..|agents| - 1], query, filter);
      var a := agents[|agents| - 1];
      if Keep(a, query, filter) then rest + [a] else rest
  }

  /** The selection is a sub-multiset of the agents holding exactly the
      agents that pass both filters. */
  lemma {:induction false} SelectedMembers(agents: seq<Agent>, query: string, filter: string)
    ensures multiset(Selected(agents, query, filter)) <= multiset(agents)
    ensures forall a :: a in Selected(agents, query, filter) <==> a in agents && Keep(a, query, filter)
    decreases |agents|
  {
    if agents != [] {
      var init := agents[..|agents| - 1];
      SelectedMembers(init, query, filter);
      assert agents == init + [agents[|agents| - 1]];
    }
  }

  /** An occurrence in a prefix survives appending and lower-casing. */
  lemma OccursInLower(s: string, t: string, sub: string, i: nat)
    requires OccursAt(s, sub, i)
    ensures OccursAt(ToLower(s + t), ToLower(sub), i)
  {
    var low := ToLower(s + t);
    forall k | 0 <= k < |sub|
      ensures low[i + k] == ToLower(sub)[k]
    {
      assert (s + t)[i + k] == s[i + k] == s[i..i + |sub|][k];
    }
    assert low[i..i + |sub|] == ToLower(sub);
  }

  /** A name that contains the typed query is found whatever the case of
      either (the query is lower-cased as it is typed). */
  lemma NameHitIsFound(a: Agent, typed: string)
    requires Contains(a.card.name, typed)
    ensures MatchesSearch(a, ToLower(typed))
  {
    var parts := [a.card.name, a.card.description] + a.card.capabilities;
    var rest := " " + Join(parts[1..], " ");
    assert Join(parts, " ") == a.card.name + rest;
    var i :| 0 <= i <= |a.card.name| && OccursAt(a.card.name, typed, i);
    OccursInLower(a.card.name, rest, typed, i);
  }

  // ----- ordering -----

  /** `localeCompare` is taken to be some total preorder. */
  ghost predicate TotalPreorder(le: (string, string) -> bool) {
    && (forall x, y :: le(x, y) || le(y, x))
    && (forall x, y, z :: le(x, y) && le(y, z) ==> le(x, z))
  }

  /** The comparator of the sort: online agents first, then by name. */
  predicate Before(x: Agent, y: Agent, le: (string, string) -> bool) {
    if x.isOnline != y.isOnline then x.isOnline else le(x.card.name, y.card.name)
  }

  ghost predicate SortedBy(s: seq<Agent>, le: (string, string) -> bool) {
    forall p, q :: 0 <= p < q < |s| ==> Before(s[p], s[q], le)
  }

  /** In a sorted list every online agent precedes every offline agent, and
      names do not decrease within each group. */
  lemma OnlineFirst(s: seq<Agent>, le: (string, string) -> bool, p: nat, q: nat)
    requires SortedBy(s, le) && p < q < |s|
    ensures s[q].isOnline ==> s[p].isOnline
    ensures s[p].isOnline == s[q].isOnline ==> le(s[p].card.name, s[q].card.name)
  {
  }

  /** The in-place sort (a stable insertion sort by adjacent swaps). */
  method SortAgents(a: array<Agent>, le: (string, string) -> bool)
    requires TotalPreorder(le)
    modifies a
    ensures SortedBy(a[..], le)
    ensures multiset(a[..]) == multiset(old(a[..]))
  {
    var i := 0;
    while i < a.Length
      invariant 0 <= i <= a.Length
      invariant SortedBy(a[..i], le)
      invariant multiset(a[..]) == multiset(old(a[..]))
    {
      Insert(a, i, le);
      i := i + 1;
    }
    assert a[..i] == a[..];
  }

  /** One pass of the sort: moves `a[i]` left past every element that must
      come after it. */
  method Insert(a: array<Agent>, i: nat, le: (string, string) -> bool)
    requires TotalPreorder(le)
    requires i < a.Length && SortedBy(a[..i], le)
    modifies a
    ensures SortedBy(a[..i + 1], le)
    ensures multiset(a[..]) == multiset(old(a[..]))
  {
    var j := i;
    assert InsertInv(a[..], i, j, le);
    while j > 0 && !Before(a[j - 1], a[j], le)
      invariant 0 <= j <= i
      invariant multiset(a[..]) == multiset(old(a[..]))
      invariant InsertInv(a[..], i, j, le)
    {
      ghost var s := a[..];
      a[j - 1], a[j] := a[j], a[j - 1];
      assert a[..] == s[j - 1 := s[j]][j := s[j - 1]];
      InsertStep(s, i, j, le);
      j := j - 1;
    }
    InsertDone(a[..], i, j, le);
  }

  /** The invariant of the insertion pass: the prefix up to `i` is in order
      except around the hole at `j`. */
  ghost predicate InsertInv(s: seq<Agent>, i: nat, j: nat, le: (string, string) -> bool)
    requires j <= i < |s|
  {
    && (forall p, q :: 0 <= p < q <= i && q != j ==> Before(s[p], s[q], le))
    && (0 < j < i ==> Before(s[j - 1], s[j + 1], le))
  }

  lemma InsertStep(s: seq<Agent>, i: nat, j: nat, le: (string, string) -> bool)
    requires TotalPreorder(le)
    requires 0 < j <= i < |s| && InsertInv(s, i, j, le) && !Before(s[j - 1], s[j], le)
    ensures InsertInv(s[j - 1 := s[j]][j := s[j - 1]], i, j - 1, le)
  {
    assert Before(s[j], s[j - 1], le);
  }

  lemma InsertDone(s: seq<Agent>, i: nat, j: nat, le: (string, string) -> bool)
    requires TotalPreorder(le)
    requires j <= i < |s| && InsertInv(s, i, j, le)
    requires j == 0 || Before(s[j - 1], s[j], le)
    ensures SortedBy(s[..i + 1], le)
  {
    forall p, q | 0 <= p < q <= i
      ensures Before(s[p], s[q], le)
    {
      if q == j && p < j - 1 {
        assert Before(s[p], s[j - 1], le);
      }
    }
  }

  // ----- relative time -----

  /** Whole seconds elapsed, rounded down (`Math.floor` of the quotient). */
  function ElapsedSeconds(nowMs: int, dateMs: int): int {
    (nowMs - dateMs) / 1000
  }

  /** `formatTimeAgo`: "Just now" under a minute (also for times in the
      future), then whole minutes, hours or days. */
  function FormatTimeAgo(nowMs: int, dateMs: int): (r: string)
    ensures var s := ElapsedSeconds(nowMs, dateMs);
      && (r == "Just now" <==> s < 60)
      && (60 <= s < 3600 ==> 1 <= s / 60 < 60 && r == NatToString(s / 60) + "m" + " ago")
      && (3600 <= s < 86400 ==> 1 <= s / 3600 < 24 && r == NatToString(s / 3600) + "h" + " ago")
      && (86400 <= s ==> 1 <= s / 86400 && r == NatToString(s / 86400) + "d" + " ago")
  {
    var seconds := ElapsedSeconds(nowMs, dateMs);
    if seconds < 60 then "Just now"
    else if seconds < 3600 then Ago(seconds / 60, "m")
    else if seconds < 86400 then Ago(seconds / 3600, "h")
    else Ago(seconds / 86400, "d")
  }

  function Ago(n: nat, unit: string): (r: string)
    ensures r == NatToString(n) + unit + " ago" && r != "Just now"
  {
    var r := NatToString(n) + unit + " ago";
    assert r[|r| - 1] == 'o';
    r
  }

  /** The label rounds down: 119.999 s ago still reads "1m ago". */
  lemma TimeAgoRoundsDown()
    ensures FormatTimeAgo(119_999, 0) == "1m ago"
    ensures FormatTimeAgo(0, 59_999) == "Just now"
  {
  }

  // ----- the debug double-press -----

  /** `filter(t => now - t < 500)`. */
  function Recent(presses: seq<int>, now: int): (r: seq<int>)
    ensures |r| <= |presses|
    ensures forall t :: t in r <==> t in presses && now - t < DEBUG_WINDOW_MS
  {
    if presses == [] then []
    else
      var rest := Recent(presses[1..], now);
      if now - presses[0] < DEBUG_WINDOW_MS then [presses[0]] + rest else rest
  }

  predicate IsDebugKey(key: string, ctrl: bool, meta: bool) {
    ToLower(key) == "d" && !ctrl && !meta
  }

  /** The panel toggles exactly when an earlier held press lies within the
      window of this one. */
  lemma ToggleIffRecentPress(held: seq<int>, now: int)
    ensures |Recent(held + [now], now)| >= 2 <==> exists t :: t in held && now - t < DEBUG_WINDOW_MS
  {
    RecentAppend(held, now);
    var r := Recent(held, now);
    if |r| > 0 {
      assert r[0] in r;
    }
    if exists t :: t in held && now - t < DEBUG_WINDOW_MS {
      var t :| t in held && now - t < DEBUG_WINDOW_MS;
      assert t in r;
    }
  }

  lemma {:induction false} RecentAppend(held: seq<int>, now: int)
    ensures Recent(held + [now], now) == Recent(held, now) + [now]
    decreases |held|
  {
    if held == [] {
      assert Recent([now][1..], now) == [];
    } else {
      assert (held + [now])[1..] == held[1..] + [now];
      RecentAppend(held[1..], now);
    }
  }

  // ----- the page -----

  /** `AgentReachApp`: the agent list last handed over by the client, the
      filter state and the debug key presses. */
  class AgentReachApp {
    var agents: seq<Agent>
    var currentFilter: string
    var searchQuery: string
    var debugKeyPresses: seq<int>
    var debugVisible: bool

    /** After every key event at most one press is held: two presses toggle
        and clear the list. */
    predicate Valid()
      reads this
    {
      |debugKeyPresses| <= 1
    }

    constructor ()
      ensures Valid() && agents == [] && currentFilter == "all" && searchQuery == ""
      ensures debugKeyPresses == [] && !debugVisible
    {
      agents := [];
      currentFilter := "all";
      searchQuery := "";
      debugKeyPresses := [];
      debugVisible := false;
    }

    /** The `onAgentUpdate` callback stores the new list. */
    method OnAgentUpdate(update: seq<Agent>)
      modifies this
      ensures agents == update
      ensures currentFilter == old(currentFilter) && searchQuery == old(searchQuery)
      ensures debugKeyPresses == old(debugKeyPresses) && debugVisible == old(debugVisible)
    {
      agents := update;
    }

    /** The search box stores its value lower-cased. */
    method OnSearchInput(value: string)
      modifies this
      ensures searchQuery == ToLower(value)
      ensures agents == old(agents) && currentFilter == old(currentFilter)
      ensures debugKeyPresses == old(debugKeyPresses) && debugVisible == old(debugVisible)
    {
      searchQuery := ToLower(value);
    }

    /** A filter button stores its `data-filter`, or "all" when it has none. */
    method OnFilterClick(dataFilter: Option<string>)
      modifies this
      ensures currentFilter == if dataFilter.None? || dataFilter.value == "" then "all" else dataFilter.value
      ensures agents == old(agents) && searchQuery == old(searchQuery)
      ensures debugKeyPresses == old(debugKeyPresses) && debugVisible == old(debugVisible)
    {
      currentFilter := if dataFilter.None? || dataFilter.value == "" then "all" else dataFilter.value;
    }

    /** `filterAgents`: the agents passing the search and category filters,
        sorted online first and then by name. */
    method FilterAgents(le: (string, string) -> bool) returns (r: seq<Agent>)
      requires TotalPreorder(le)
      ensures multiset(r) == multiset(Selected(agents, searchQuery, currentFilter))
      ensures multiset(r) <= multiset(agents)
      ensures forall a :: a in r <==> a in agents && Keep(a, searchQuery, currentFilter)
      ensures SortedBy(r, le)
    {
      var filtered := Selected(agents, searchQuery, currentFilter);
      SelectedMembers(agents, searchQuery, currentFilter);
      var arr := new Agent[|filtered|](i requires 0 <= i < |filtered| => filtered[i]);
      assert arr[..] == filtered;
      SortAgents(arr, le);
      r := arr[..];
      assert forall a :: a in r <==> a in multiset(r);
    }

    /** The `keydown` handler: a plain `d` press is recorded, presses older
        than 500 ms are dropped, and two held presses toggle the panel and
        clear the list. */
    method OnKeyDown(key: string, ctrl: bool, meta: bool, now: int)
      requires Valid()
      modifies this
      ensures Valid()
      ensures agents == old(agents) && currentFilter == old(currentFilter) && searchQuery == old(searchQuery)
      ensures !IsDebugKey(key, ctrl, meta) ==>
        debugKeyPresses == old(debugKeyPresses) && debugVisible == old(debugVisible)
      ensures IsDebugKey(key, ctrl, meta) ==>
        var kept := Recent(old(debugKeyPresses) + [now], now);
        if |kept| >= 2 then debugKeyPresses == [] && debugVisible == !old(debugVisible)
        else debugKeyPresses == kept && debugVisible == old(debugVisible)
    {
      if ToLower(key) == "d" && !ctrl && !meta {
        debugKeyPresses := debugKeyPresses + [now];
        debugKeyPresses := Recent(debugKeyPresses, now);
        if |debugKeyPresses| >= 2 {
          debugVisible := !debugVisible;
          debugKeyPresses := [];
        }
      }
    }
  }
}
