/** The service-card event of the agent-discovery crate: capabilities,
    protocols, the tag layout `to_tags` produces, the parser
    `TryFrom<&Event>` and the builder. */
module ServiceCardCodec {
  import opened Common
  import opened Text
  import opened Discovery

  newtype u16 = x: int | 0 <= x < 0x1_0000

  datatype Capability = Capability(id: string, description: string)

  /** How an agent can be reached; each variant carries exactly its data. */
  datatype Protocol =
    | Dm(relays: string)
    | Dvm(relays: string, kinds: seq<u16>)
    | A2a(url: string)
    | Mcp(url: string)
    | Http(url: string)
    | Custom(id: string, endpoint: string)

  datatype ServiceCard = ServiceCard(
    id: string,
    name: string,
    about: string,
    capabilities: seq<Capability>,
    protocols: seq<Protocol>)

  // ----- Protocol -----

  /** `Protocol::id`. */
  function ProtocolId(p: Protocol): string {
    match p
    case Dm(_) => "dm"
    case Dvm(_, _) => "dvm"
    case A2a(_) => "a2a"
    case Mcp(_) => "mcp"
    case Http(_) => "http"
    case Custom(id, _) => id
  }

  /** `Protocol::endpoint`. */
  function ProtocolEndpoint(p: Protocol): string {
    match p
    case Dm(relays) => relays
    case Dvm(relays, _) => relays
    case A2a(url) => url
    case Mcp(url) => url
    case Http(url) => url
    case Custom(_, endpoint) => endpoint
  }

  /** The protocol ids that name a built-in variant. */
  predicate IsReservedId(id: string) {
    id == "dm" || id == "dvm" || id == "a2a" || id == "mcp" || id == "http"
  }

  /** The parser's `match proto_id`: the protocol an `r` tag denotes, with the
      DVM job kinds still empty. Its id and endpoint are the tag's values. */
  function ProtocolFromTag(id: string, endpoint: string): (p: Protocol)
    ensures ProtocolId(p) == id && ProtocolEndpoint(p) == endpoint
    ensures p.Dvm? ==> p.kinds == []
    ensures p.Custom? <==> !IsReservedId(id)
  {
    if id == "dm" then Dm(endpoint)
    else if id == "dvm" then Dvm(endpoint, [])
    else if id == "a2a" then A2a(endpoint)
    else if id == "mcp" then Mcp(endpoint)
    else if id == "http" then Http(endpoint)
    else Custom(id, endpoint)
  }

  /** A custom protocol whose id shadows a built-in one cannot be told apart
      from it on the wire. */
  predicate Ambiguous(p: Protocol) {
    p.Custom? && IsReservedId(p.id)
  }

  /** The job kinds a protocol advertises (only DVM has any). */
  function KindsOf(p: Protocol): seq<u16> {
    if p.Dvm? then p.kinds else []
  }

  /** A protocol as the parser first builds it, before job kinds are attached. */
  function Stripped(p: Protocol): Protocol {
    if p.Dvm? then Dvm(p.relays, []) else p
  }

  /** Building a protocol from its own id and endpoint gives it back (minus
      the job kinds), unless it is an ambiguous custom protocol. */
  lemma ProtocolFromOwnTag(p: Protocol)
    requires !Ambiguous(p)
    ensures ProtocolFromTag(ProtocolId(p), ProtocolEndpoint(p)) == Stripped(p)
  {
  }

  // ----- encoding -----

  /** `Capability::to_tag`. */
  function CapabilityTag(c: Capability): Tag {
    ["c", c.id, c.description]
  }

  function CapabilityTags(cs: seq<Capability>): seq<Tag> {
    seq(|cs|, i requires 0 <= i < |cs| => CapabilityTag(cs[i]))
  }

  function KindTag(k: u16): Tag {
    ["k", NatToString(k as nat)]
  }

  function KindTags(ks: seq<u16>): seq<Tag> {
    seq(|ks|, i requires 0 <= i < |ks| => KindTag(ks[i]))
  }

  lemma KindTagsSnoc(ks: seq<u16>, n: nat)
    requires n < |ks|
    ensures KindTags(ks[..n + 1]) == KindTags(ks[..n]) + [KindTag(ks[n])]
  {
    assert ks[..n + 1][n] == ks[n];
  }

  lemma CapabilityTagsSnoc(cs: seq<Capability>, n: nat)
    requires n < |cs|
    ensures CapabilityTags(cs[..n + 1]) == CapabilityTags(cs[..n]) + [CapabilityTag(cs[n])]
  {
    assert cs[..n + 1][n] == cs[n];
  }

  lemma ProtocolsTagsSnoc(ps: seq<Protocol>, n: nat)
    requires n < |ps|
    ensures ProtocolsTags(ps[..n + 1]) == ProtocolsTags(ps[..n]) + ProtocolTags(ps[n])
  {
    assert ps[..n + 1][..n] == ps[..n];
  }

  /** `Protocol::to_tags`: one `r` tag, then one `k` tag per DVM job kind. */
  function ProtocolTags(p: Protocol): seq<Tag> {
    [["r", ProtocolId(p), ProtocolEndpoint(p)]] + KindTags(KindsOf(p))
  }

  function ProtocolsTags(ps: seq<Protocol>): seq<Tag>
    decreases |ps|
  {
    if ps == [] then [] else ProtocolsTags(ps[..|ps| - 1]) + ProtocolTags(ps[|ps| - 1])
  }

  function HeaderTags(card: ServiceCard, ns: string): seq<Tag> {
    [["L", ns], ["l", LABEL_SERVICE_CARD, ns], ["d", card.id], ["name", card.name], ["about", card.about]]
  }

  /** The tag list `ServiceCard::to_tags` builds, with the namespace label as
      a parameter. */
  function Encode(card: ServiceCard, ns: string): seq<Tag> {
    HeaderTags(card, ns) + CapabilityTags(card.capabilities) + ProtocolsTags(card.protocols)
  }

  /** `Protocol::to_tags`: pushes the `r` tag, then a `k` tag per job kind. */
  method ProtocolToTags(p: Protocol) returns (tags: seq<Tag>)
    ensures tags == ProtocolTags(p)
    ensures |tags| == 1 + |KindsOf(p)| && tags[0] == ["r", ProtocolId(p), ProtocolEndpoint(p)]
    ensures forall i :: 0 <= i < |KindsOf(p)| ==> tags[1 + i] == ["k", NatToString(KindsOf(p)[i] as nat)]
  {
    tags := [["r", ProtocolId(p), ProtocolEndpoint(p)]];
    if p.Dvm? {
      var i := 0;
      while i < |p.kinds|
        invariant 0 <= i <= |p.kinds|
        invariant tags == [["r", ProtocolId(p), ProtocolEndpoint(p)]] + KindTags(p.kinds[..i])
      {
        KindTagsSnoc(p.kinds, i);
        tags := tags + [["k", NatToString(p.kinds[i] as nat)]];
        i := i + 1;
      }
      assert p.kinds[..i] == p.kinds;
    } else {
      assert KindTags([]) == [];
    }
  }

  /** `ServiceCard::to_tags`: the labels, `d`, `name` and `about` first, then one
      `c` tag per capability in order, then each protocol's tags in order. */
  method ToTags(card: ServiceCard, ns: string) returns (tags: seq<Tag>)
    ensures tags == Encode(card, ns)
  {
    tags := HeaderTags(card, ns);
    tags := PushCapabilityTags(tags, card.capabilities);
    tags := PushProtocolTags(tags, card.protocols);
  }

  /** The capability loop of `to_tags`: one `c` tag pushed per capability. */
  method PushCapabilityTags(start: seq<Tag>, caps: seq<Capability>) returns (tags: seq<Tag>)
    ensures tags == start + CapabilityTags(caps)
  {
    tags := start;
    var i := 0;
    while i < |caps|
      invariant 0 <= i <= |caps|
      invariant tags == start + CapabilityTags(caps[..i])
    {
      CapabilityTagsSnoc(caps, i);
      AppendAssoc(start, CapabilityTags(caps[..i]), [CapabilityTag(caps[i])]);
      tags := tags + [CapabilityTag(caps[i])];
      i := i + 1;
    }
    assert caps[..i] == caps;
  }

  /** The protocol loop of `to_tags`: each protocol's tags pushed in order. */
  method PushProtocolTags(start: seq<Tag>, protos: seq<Protocol>) returns (tags: seq<Tag>)
    ensures tags == start + ProtocolsTags(protos)
  {
    tags := start;
    var j := 0;
    while j < |protos|
      invariant 0 <= j <= |protos|
      invariant tags == start + ProtocolsTags(protos[..j])
    {
      ProtocolsTagsSnoc(protos, j);
      var more := ProtocolToTags(protos[j]);
      AppendAssoc(start, ProtocolsTags(protos[..j]), more);
      tags := tags + more;
      j := j + 1;
    }
    assert protos[..j] == protos;
  }

  /** The layout of the encoded tags: the labels, `d`, `name` and `about`
      first, then one `c` tag per capability in order, then each protocol's
      tags in order. */
  lemma EncodeLayout(card: ServiceCard, ns: string)
    ensures |Encode(card, ns)| >= 5 + |card.capabilities|
    ensures Encode(card, ns)[..5] ==
      [["L", ns], ["l", LABEL_SERVICE_CARD, ns], ["d", card.id], ["name", card.name], ["about", card.about]]
    ensures forall i :: 0 <= i < |card.capabilities| ==>
      Encode(card, ns)[5 + i] == ["c", card.capabilities[i].id, card.capabilities[i].description]
    ensures Encode(card, ns)[5 + |card.capabilities|..] == ProtocolsTags(card.protocols)
  {
    var h := HeaderTags(card, ns);
    var c := CapabilityTags(card.capabilities);
    assert Encode(card, ns) == h + c + ProtocolsTags(card.protocols);
    assert (h + c + ProtocolsTags(card.protocols))[|h + c|..] == ProtocolsTags(card.protocols);
  }

  // ----- parsing: the loop of `TryFrom<&Event>` as a left fold -----

  /** The accumulators of the parser loop. */
  datatype Partial = Partial(
    id: Option<string>,
    name: Option<string>,
    about: Option<string>,
    caps: seq<Capability>,
    protos: seq<Protocol>,
    kinds: seq<u16>)

  const Start := Partial(None, None, None, [], [], [])

  /** One iteration of the parser loop. A tag too short for its name, a `k`
      value that is not a u16 and any other tag name leave it unchanged. */
  function Step(acc: Partial, t: Tag): Partial {
    if |t| == 0 then acc
    else if t[0] == "d" && |t| >= 2 then acc.(id := Some(t[1]))
    else if t[0] == "name" && |t| >= 2 then acc.(name := Some(t[1]))
    else if t[0] == "about" && |t| >= 2 then acc.(about := Some(t[1]))
    else if t[0] == "c" && |t| >= 3 then acc.(caps := acc.caps + [Capability(t[1], t[2])])
    else if t[0] == "r" && |t| >= 2 then
      acc.(protos := acc.protos + [ProtocolFromTag(t[1], if |t| >= 3 then t[2] else "")])
    else if t[0] == "k" && |t| >= 2 then
      match ParseU16(t[1])
      case Some(k) => acc.(kinds := acc.kinds + [k as u16])
      case None => acc
    else acc
  }

  function ScanFrom(acc: Partial, tags: seq<Tag>): Partial
    decreases |tags|
  {
    if tags == [] then acc else Step(ScanFrom(acc, tags[..|tags| - 1]), tags[|tags| - 1])
  }

  /** Every DVM protocol gets the whole list of collected job kinds. */
  function AttachKinds(ps: seq<Protocol>, kinds: seq<u16>): (r: seq<Protocol>)
    ensures |r| == |ps|
  {
    seq(|ps|, i requires 0 <= i < |ps| => if ps[i].Dvm? then Dvm(ps[i].relays, kinds) else ps[i])
  }

  /** The checks after the loop: `d` and `name` are required, `about`
      defaults to the empty string. */
  function Complete(acc: Partial): Result<ServiceCard, Error> {
    if acc.id.None? then Err(ParseError("missing 'd' tag"))
    else if acc.name.None? then Err(ParseError("missing 'name' tag"))
    else Ok(ServiceCard(
      acc.id.value,
      acc.name.value,
      if acc.about.Some? then acc.about.value else "",
      acc.caps,
      AttachKinds(acc.protos, acc.kinds)))
  }

  /** What `TryFrom<&Event> for ServiceCard` computes from the event's tags. */
  function Decode(tags: seq<Tag>): Result<ServiceCard, Error> {
    Complete(ScanFrom(Start, tags))
  }

  /** `TryFrom<&Event> for ServiceCard`: one pass over the tags, then the job
      kinds are written into every DVM protocol in place. */
  method TryFrom(tags: seq<Tag>) returns (r: Result<ServiceCard, Error>)
    ensures r == Decode(tags)
  {
    var id: Option<string> := None;
    var name: Option<string> := None;
    var about: Option<string> := None;
    var capabilities: seq<Capability> := [];
    var protocols: seq<Protocol> := [];
    var dvmKinds: seq<u16> := [];
    var i := 0;
    while i < |tags|
      invariant 0 <= i <= |tags|
      invariant ScanFrom(Start, tags[..i]) == Partial(id, name, about, capabilities, protocols, dvmKinds)
    {
      var values := tags[i];
      assert tags[..i + 1][..i] == tags[..i];
      if |values| > 0 {
        if values[0] == "d" && |values| >= 2 {
          id := Some(values[1]);
        } else if values[0] == "name" && |values| >= 2 {
          name := Some(values[1]);
        } else if values[0] == "about" && |values| >= 2 {
          about := Some(values[1]);
        } else if values[0] == "c" && |values| >= 3 {
          capabilities := capabilities + [Capability(values[1], values[2])];
        } else if values[0] == "r" && |values| >= 2 {
          var endpoint := if |values| >= 3 then values[2] else "";
          protocols := protocols + [ProtocolFromTag(values[1], endpoint)];
        } else if values[0] == "k" && |values| >= 2 {
          var kind := ParseU16(values[1]);
          if kind.Some? {
            dvmKinds := dvmKinds + [kind.value as u16];
          }
        }
      }
      i := i + 1;
    }
    assert tags[..i] == tags;
    ghost var parsed := protocols;
    var j := 0;
    while j < |protocols|
      invariant 0 <= j <= |protocols| && |protocols| == |parsed|
      invariant forall k :: 0 <= k < j ==> protocols[k] == AttachKinds(parsed, dvmKinds)[k]
      invariant forall k :: j <= k < |protocols| ==> protocols[k] == parsed[k]
    {
      if protocols[j].Dvm? {
        protocols := protocols[j := Dvm(protocols[j].relays, dvmKinds)];
      }
      j := j + 1;
    }
    assert protocols == AttachKinds(parsed, dvmKinds);
    if id.None? {
      return Err(ParseError("missing 'd' tag"));
    }
    if name.None? {
      return Err(ParseError("missing 'name' tag"));
    }
    r := Ok(ServiceCard(id.value, name.value, if about.Some? then about.value else "", capabilities, protocols));
  }

  // ----- properties of the parser -----

  lemma {:induction false} ScanAppend(acc: Partial, a: seq<Tag>, b: seq<Tag>)
    ensures ScanFrom(acc, a + b) == ScanFrom(ScanFrom(acc, a), b)
    decreases |b|
  {
    if b == [] {
      assert a + b == a;
    } else {
      assert (a + b)[..|a + b| - 1] == a + b[..|b| - 1];
      ScanAppend(acc, a, b[..|b| - 1]);
    }
  }

  lemma ScanOne(acc: Partial, t: Tag)
    ensures ScanFrom(acc, [t]) == Step(acc, t)
  {
    assert [t][..0] == [];
  }

  lemma {:induction false} ScanCapabilities(acc: Partial, cs: seq<Capability>)
    ensures ScanFrom(acc, CapabilityTags(cs)) == acc.(caps := acc.caps + cs)
    decreases |cs|
  {
    if cs == [] {
      assert CapabilityTags(cs) == [];
      assert acc.caps + cs == acc.caps;
    } else {
      var n := |cs| - 1;
      CapabilityTagsSnoc(cs, n);
      assert cs[..n + 1] == cs;
      ScanSnoc(acc, CapabilityTags(cs[..n]), CapabilityTag(cs[n]));
      ScanCapabilities(acc, cs[..n]);
      assert cs[..n] + [cs[n]] == cs;
    }
  }

  lemma {:induction false} ScanKinds(acc: Partial, ks: seq<u16>)
    ensures ScanFrom(acc, KindTags(ks)) == acc.(kinds := acc.kinds + ks)
    decreases |ks|
  {
    if ks == [] {
      assert KindTags(ks) == [];
      assert acc.kinds + ks == acc.kinds;
    } else {
      var n := |ks| - 1;
      KindTagsSnoc(ks, n);
      assert ks[..n + 1] == ks;
      ScanSnoc(acc, KindTags(ks[..n]), KindTag(ks[n]));
      ScanKinds(acc, ks[..n]);
      StepKind(acc.(kinds := acc.kinds + ks[..n]), ks[n]);
      assert ks[..n] + [ks[n]] == ks;
    }
  }

  lemma StepKind(acc: Partial, k: u16)
    ensures Step(acc, KindTag(k)) == acc.(kinds := acc.kinds + [k])
  {
    ParseU16Rendered(k as nat);
  }

  lemma ScanProtocol(acc: Partial, p: Protocol)
    requires !Ambiguous(p)
    ensures ScanFrom(acc, ProtocolTags(p)) == acc.(protos := acc.protos + [Stripped(p)], kinds := acc.kinds + KindsOf(p))
  {
    var r: Tag := ["r", ProtocolId(p), ProtocolEndpoint(p)];
    ScanAppend(acc, [r], KindTags(KindsOf(p)));
    ScanOne(acc, r);
    ScanKinds(Step(acc, r), KindsOf(p));
  }

  /** All the job kinds the protocols carry, in order. */
  function AllKinds(ps: seq<Protocol>): seq<u16>
    decreases |ps|
  {
    if ps == [] then [] else AllKinds(ps[..|ps| - 1]) + KindsOf(ps[|ps| - 1])
  }

  function StrippedAll(ps: seq<Protocol>): (r: seq<Protocol>)
    ensures |r| == |ps|
  {
    seq(|ps|, i requires 0 <= i < |ps| => Stripped(ps[i]))
  }

  predicate NoneAmbiguous(ps: seq<Protocol>) {
    forall i :: 0 <= i < |ps| ==> !Ambiguous(ps[i])
  }

  lemma {:induction false} ScanProtocols(acc: Partial, ps: seq<Protocol>)
    requires NoneAmbiguous(ps)
    ensures ScanFrom(acc, ProtocolsTags(ps)) == acc.(protos := acc.protos + StrippedAll(ps), kinds := acc.kinds + AllKinds(ps))
    decreases |ps|
  {
    if ps == [] {
      assert acc.protos + StrippedAll(ps) == acc.protos;
      assert acc.kinds + AllKinds(ps) == acc.kinds;
    } else {
      var n := |ps| - 1;
      var init := ps[..n];
      var last := ps[n];
      ProtocolsTagsSnoc(ps, n);
      assert ps[..n + 1] == ps;
      ScanAppend(acc, ProtocolsTags(init), ProtocolTags(last));
      ScanProtocols(acc, init);
      var mid := acc.(protos := acc.protos + StrippedAll(init), kinds := acc.kinds + AllKinds(init));
      ScanProtocol(mid, last);
      StrippedAllSnoc(ps, n);
      AppendAssoc(acc.protos, StrippedAll(init), [Stripped(last)]);
      AppendAssoc(acc.kinds, AllKinds(init), KindsOf(last));
    }
  }

  lemma StrippedAllSnoc(ps: seq<Protocol>, n: nat)
    requires n == |ps| - 1
    ensures StrippedAll(ps) == StrippedAll(ps[..n]) + [Stripped(ps[n])]
  {
  }

  lemma AppendAssoc<T>(a: seq<T>, b: seq<T>, c: seq<T>)
    ensures a + b + c == a + (b + c)
  {
  }

  lemma ScanSnoc(acc: Partial, a: seq<Tag>, t: Tag)
    ensures ScanFrom(acc, a + [t]) == Step(ScanFrom(acc, a), t)
  {
    assert (a + [t])[..|a|] == a;
  }

  lemma ScanHeader(card: ServiceCard, ns: string)
    ensures ScanFrom(Start, HeaderTags(card, ns)) == Partial(Some(card.id), Some(card.name), Some(card.about), [], [], [])
  {
    var h := HeaderTags(card, ns);
    assert ScanFrom(Start, h[..0]) == Start;
    ScanPrefix(Start, h, 0);
    assert ScanFrom(Start, h[..1]) == Start;
    ScanPrefix(Start, h, 1);
    assert ScanFrom(Start, h[..2]) == Start;
    ScanPrefix(Start, h, 2);
    assert ScanFrom(Start, h[..3]) == Start.(id := Some(card.id));
    ScanPrefix(Start, h, 3);
    assert ScanFrom(Start, h[..4]) == Start.(id := Some(card.id), name := Some(card.name));
    ScanPrefix(Start, h, 4);
    assert h[..5] == h;
  }

  lemma ScanPrefix(acc: Partial, tags: seq<Tag>, k: nat)
    requires k < |tags|
    ensures ScanFrom(acc, tags[..k + 1]) == Step(ScanFrom(acc, tags[..k]), tags[k])
  {
    assert tags[..k + 1][..k] == tags[..k];
  }

  /** The wire form can carry a card exactly when no custom protocol uses a
      built-in id and every DVM protocol carries the whole list of job kinds
      (the parser gives every DVM protocol all `k` values it saw). */
  predicate Encodable(card: ServiceCard) {
    && NoneAmbiguous(card.protocols)
    && (forall p :: p in card.protocols && p.Dvm? ==> p.kinds == AllKinds(card.protocols))
  }

  lemma AttachRestores(ps: seq<Protocol>)
    requires forall p :: p in ps && p.Dvm? ==> p.kinds == AllKinds(ps)
    ensures AttachKinds(StrippedAll(ps), AllKinds(ps)) == ps
  {
    var r := AttachKinds(StrippedAll(ps), AllKinds(ps));
    forall i | 0 <= i < |ps|
      ensures r[i] == ps[i]
    {
      assert ps[i] in ps;
    }
  }

  /** Parsing the tags of an encodable card gives the card back, whatever the
      namespace label. */
  lemma RoundTrip(card: ServiceCard, ns: string)
    requires Encodable(card)
    ensures Decode(Encode(card, ns)) == Ok(card)
  {
    ScanEncode(card, ns);
    AttachRestores(card.protocols);
  }

  /** The parser loop over an encoded card collects its fields, its
      capabilities, its protocols stripped of their kinds, and all kinds. */
  lemma ScanEncode(card: ServiceCard, ns: string)
    requires NoneAmbiguous(card.protocols)
    ensures ScanFrom(Start, Encode(card, ns)) ==
      Partial(Some(card.id), Some(card.name), Some(card.about), card.capabilities,
              StrippedAll(card.protocols), AllKinds(card.protocols))
  {
    var h := HeaderTags(card, ns);
    var c := CapabilityTags(card.capabilities);
    var p := ProtocolsTags(card.protocols);
    var afterHeader := Partial(Some(card.id), Some(card.name), Some(card.about), [], [], []);
    ScanHeader(card, ns);
    ScanCapabilities(afterHeader, card.capabilities);
    assert [] + card.capabilities == card.capabilities;
    var afterCaps := afterHeader.(caps := card.capabilities);
    ScanAppend(Start, h, c);
    assert ScanFrom(Start, h + c) == afterCaps;
    ScanProtocols(afterCaps, card.protocols);
    assert [] + StrippedAll(card.protocols) == StrippedAll(card.protocols);
    assert [] + AllKinds(card.protocols) == AllKinds(card.protocols);
    ScanAppend(Start, h + c, p);
  }

  /** Two DVM protocols with one job kind each do not survive the round trip:
      both come back with both kinds. */
  lemma SplitKindsMerge(ns: string)
    ensures
      var card := ServiceCard("x", "y", "", [], [Dvm("a", [5]), Dvm("b", [7])]);
      Decode(Encode(card, ns)) == Ok(card.(protocols := [Dvm("a", [5, 7]), Dvm("b", [5, 7])]))
  {
    var ps := [Dvm("a", [5]), Dvm("b", [7])];
    var card := ServiceCard("x", "y", "", [], ps);
    assert NoneAmbiguous(ps);
    ScanEncode(card, ns);
    assert ps[..1] == [Dvm("a", [5])];
    assert [Dvm("a", [5])][..0] == [];
    assert AllKinds([Dvm("a", [5])]) == [5];
    assert AllKinds(ps) == [5, 7];
    assert StrippedAll(ps) == [Dvm("a", []), Dvm("b", [])];
    assert AttachKinds([Dvm("a", []), Dvm("b", [])], [5, 7]) == [Dvm("a", [5, 7]), Dvm("b", [5, 7])];
  }

  /** A successful parse takes `d`, `name` and `about` from the last such tag
      with a value, and fails exactly when there is no `d` or no `name` tag. */
  lemma {:induction false} DecodeFields(tags: seq<Tag>)
    ensures ScanFrom(Start, tags).id == LastTagValue(tags, "d")
    ensures ScanFrom(Start, tags).name == LastTagValue(tags, "name")
    ensures ScanFrom(Start, tags).about == LastTagValue(tags, "about")
    ensures Decode(tags).Ok? <==> LastTagValue(tags, "d").Some? && LastTagValue(tags, "name").Some?
    ensures Decode(tags).Ok? ==>
      Decode(tags).value.about == (if LastTagValue(tags, "about").Some? then LastTagValue(tags, "about").value else "")
    decreases |tags|
  {
    if tags != [] {
      DecodeFields(tags[..|tags| - 1]);
    }
  }

  /** Whatever the tags, every DVM protocol of a parsed card carries the same
      list of job kinds: all `k` values, in order. */
  lemma DvmKindsShared(tags: seq<Tag>)
    requires Decode(tags).Ok?
    ensures forall p :: p in Decode(tags).value.protocols && p.Dvm? ==> p.kinds == ScanFrom(Start, tags).kinds
  {
  }

  /** A tag that the parser ignores (too short for its name, a `k` value that
      is not a u16, or an unknown name) can be removed without changing the
      result. */
  lemma IgnoredTag(pre: seq<Tag>, t: Tag, post: seq<Tag>)
    requires || |t| == 0
             || (|t| < 2 && (t[0] == "d" || t[0] == "name" || t[0] == "about" || t[0] == "r" || t[0] == "k"))
             || (|t| < 3 && t[0] == "c")
             || (|t| >= 2 && t[0] == "k" && ParseU16(t[1]).None?)
             || (t[0] != "d" && t[0] != "name" && t[0] != "about" && t[0] != "c" && t[0] != "r" && t[0] != "k")
    ensures Decode(pre + [t] + post) == Decode(pre + post)
  {
    ScanAppend(Start, pre + [t], post);
    ScanAppend(Start, pre, post);
    assert (pre + [t])[..|pre + [t]| - 1] == pre;
  }

  /** An `r` tag with an unknown id and no endpoint gives a custom protocol
      with an empty endpoint. */
  lemma BareCustomProtocol()
    ensures Decode([["d", "x"], ["name", "y"], ["r", "gopher"]]) == Ok(ServiceCard("x", "y", "", [], [Custom("gopher", "")]))
  {
    var t0: Tag, t1: Tag, t2: Tag := ["d", "x"], ["name", "y"], ["r", "gopher"];
    ScanSnoc(Start, [], t0);
    ScanSnoc(Start, [t0], t1);
    ScanSnoc(Start, [t0, t1], t2);
    assert [] + [t0] == [t0];
    assert [t0] + [t1] == [t0, t1];
    assert [t0, t1] + [t2] == [t0, t1, t2];
    assert ScanFrom(Start, [t0]) == Start.(id := Some("x"));
    assert ScanFrom(Start, [t0, t1]) == Start.(id := Some("x"), name := Some("y"));
    assert ScanFrom(Start, [t0, t1, t2]) == Start.(id := Some("x"), name := Some("y"), protos := [Custom("gopher", "")]);
    assert AttachKinds([Custom("gopher", "")], []) == [Custom("gopher", "")];
  }

  // ----- ServiceCardBuilder -----

  /** `ServiceCardBuilder`: fields set at creation, capabilities and
      protocols appended in call order. */
  class ServiceCardBuilder {
    var id: string
    var name: string
    var about: string
    var capabilities: seq<Capability>
    var protocols: seq<Protocol>

    constructor (id: string, name: string)
      ensures this.id == id && this.name == name && about == ""
      ensures capabilities == [] && protocols == []
    {
      this.id := id;
      this.name := name;
      about := "";
      capabilities := [];
      protocols := [];
    }

    method WithAbout(about: string)
      modifies this
      ensures this.about == about
      ensures id == old(id) && name == old(name)
      ensures capabilities == old(capabilities) && protocols == old(protocols)
    {
      this.about := about;
    }

    method WithCapability(id: string, description: string)
      modifies this
      ensures capabilities == old(capabilities) + [Capability(id, description)]
      ensures this.id == old(this.id) && name == old(name) && about == old(about) && protocols == old(protocols)
    {
      capabilities := capabilities + [Capability(id, description)];
    }

    method WithProtocol(protocol: Protocol)
      modifies this
      ensures protocols == old(protocols) + [protocol]
      ensures id == old(id) && name == old(name) && about == old(about) && capabilities == old(capabilities)
    {
      protocols := protocols + [protocol];
    }

    method Build() returns (card: ServiceCard)
      ensures card.id == id && card.name == name && card.about == about
      ensures card.capabilities == capabilities && card.protocols == protocols
    {
      card := ServiceCard(id, name, about, capabilities, protocols);
    }
  }
}
