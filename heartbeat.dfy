/** The heartbeat event of the agent-discovery crate: its status enum, its tag
    layout and its defensive parser. */
module Heartbeat {
  import opened Common
  import opened Discovery

  datatype Status = Available | Busy | Maintenance

  /** `Display for Status`: the lower-case variant name. */
  function StatusName(s: Status): string {
    match s
    case Available => "available"
    case Busy => "busy"
    case Maintenance => "maintenance"
  }

  /** `FromStr for Status`: accepts exactly the three lower-case names. */
  function ParseStatus(s: string): (r: Result<Status, Error>)
    ensures r.Ok? <==> s == "available" || s == "busy" || s == "maintenance"
    ensures r.Ok? ==> StatusName(r.value) == s
    ensures r.Err? ==> r.error == ParseError("unknown status: " + s)
  {
    if s == "available" then Ok(Available)
    else if s == "busy" then Ok(Busy)
    else if s == "maintenance" then Ok(Maintenance)
    else Err(ParseError("unknown status: " + s))
  }

  /** Printing a status and parsing it back gives the same status. */
  lemma StatusRoundTrip(st: Status)
    ensures ParseStatus(StatusName(st)) == Ok(st)
  {
  }

  datatype Heartbeat = Heartbeat(serviceCardId: string, status: Status)

  /** `Heartbeat::to_tags`, with the namespace label as a parameter. */
  function ToTags(hb: Heartbeat, ns: string): seq<Tag> {
    [["L", ns], ["l", LABEL_HEARTBEAT, ns], ["d", hb.serviceCardId], ["s", StatusName(hb.status)]]
  }

  // ----- parsing: the loop of `TryFrom<&Event>` as a left fold -----

  /** The two accumulators of the parser loop. */
  datatype Partial = Partial(cardId: Option<string>, status: Option<Status>)

  const Start: Result<Partial, Error> := Ok(Partial(None, None))

  /** One iteration of the parser loop; an error is final (the `?` returns). */
  function Step(acc: Result<Partial, Error>, t: Tag): Result<Partial, Error> {
    if acc.Err? || |t| < 2 then acc
    else if t[0] == "d" then Ok(acc.value.(cardId := Some(t[1])))
    else if t[0] == "s" then
      match ParseStatus(t[1])
      case Ok(st) => Ok(acc.value.(status := Some(st)))
      case Err(e) => Err(e)
    else acc
  }

  function ScanFrom(acc: Result<Partial, Error>, tags: seq<Tag>): Result<Partial, Error>
    decreases |tags|
  {
    if tags == [] then acc else Step(ScanFrom(acc, tags[..|tags| - 1]), tags[|tags| - 1])
  }

  /** The checks after the loop: a missing `d` tag is reported before a
      missing `s` tag. */
  function Complete(p: Result<Partial, Error>): Result<Heartbeat, Error> {
    match p
    case Err(e) => Err(e)
    case Ok(Partial(id, st)) =>
      if id.None? then Err(ParseError("missing 'd' tag"))
      else if st.None? then Err(ParseError("missing 'status' tag"))
      else Ok(Heartbeat(id.value, st.value))
  }

  /** What `TryFrom<&Event> for Heartbeat` computes from the event's tags. */
  function Decode(tags: seq<Tag>): Result<Heartbeat, Error> {
    Complete(ScanFrom(Start, tags))
  }

  /** `TryFrom<&Event> for Heartbeat`: one pass over the tags with two
      accumulators; the first unknown status aborts the parse. */
  method TryFrom(tags: seq<Tag>) returns (r: Result<Heartbeat, Error>)
    ensures r == Decode(tags)
  {
    var cardId: Option<string> := None;
    var status: Option<Status> := None;
    var i := 0;
    while i < |tags|
      invariant 0 <= i <= |tags|
      invariant ScanFrom(Start, tags[..i]) == Ok(Partial(cardId, status))
    {
      var values := tags[i];
      assert tags[..i + 1][..i] == tags[..i];
      if |values| >= 2 {
        if values[0] == "d" {
          cardId := Some(values[1]);
        } else if values[0] == "s" {
          var parsed := ParseStatus(values[1]);
          if parsed.Err? {
            ScanErrorPersists(tags[..i + 1], tags[i + 1..]);
            assert tags[..i + 1] + tags[i + 1..] == tags;
            return Err(parsed.error);
          }
          status := Some(parsed.value);
        }
      }
      i := i + 1;
    }
    assert tags[..i] == tags;
    if cardId.None? {
      return Err(ParseError("missing 'd' tag"));
    }
    if status.None? {
      return Err(ParseError("missing 'status' tag"));
    }
    r := Ok(Heartbeat(cardId.value, status.value));
  }

  // ----- properties of the parser -----

  lemma {:induction false} ScanAppend(acc: Result<Partial, Error>, a: seq<Tag>, b: seq<Tag>)
    ensures ScanFrom(acc, a + b) == ScanFrom(ScanFrom(acc, a), b)
    decreases |b|
  {
    if b == [] {
      assert a + b == a;
    } else {
      assert (a + b)[..|a + b| - 1] == a + b[..|b| - 1];
      ScanAppend(acc, a, b[..|b| - 1]);
    }
  }

  lemma {:induction false} ErrorIsFinal(e: Error, b: seq<Tag>)
    ensures ScanFrom(Err(e), b) == Err(e)
    decreases |b|
  {
    if b != [] {
      ErrorIsFinal(e, b[..|b| - 1]);
    }
  }

  lemma ScanErrorPersists(a: seq<Tag>, b: seq<Tag>)
    requires ScanFrom(Start, a).Err?
    ensures ScanFrom(Start, a + b) == ScanFrom(Start, a)
  {
    ScanAppend(Start, a, b);
    ErrorIsFinal(ScanFrom(Start, a).error, b);
  }

  /** Parsing the tags a heartbeat is encoded to gives the heartbeat back,
      whatever the namespace label. */
  lemma RoundTrip(hb: Heartbeat, ns: string)
    ensures Decode(ToTags(hb, ns)) == Ok(hb)
  {
    var t := ToTags(hb, ns);
    assert t[..3][..2][..1][..0] == [];
    assert ScanFrom(Start, t[..3][..2][..1]) == Start;
    assert ScanFrom(Start, t[..3][..2]) == Start;
    assert ScanFrom(Start, t[..3]) == Ok(Partial(Some(hb.serviceCardId), None));
  }

  /** A tag with fewer than two values is skipped wherever it appears. */
  lemma ShortTagIgnored(pre: seq<Tag>, t: Tag, post: seq<Tag>)
    requires |t| < 2
    ensures Decode(pre + [t] + post) == Decode(pre + post)
  {
    ScanAppend(Start, pre + [t], post);
    ScanAppend(Start, pre, post);
    assert (pre + [t])[..|pre + [t]| - 1] == pre;
  }

  /** The first `s` tag with an unknown status fails the whole parse with that
      status's error, whatever follows it (even a valid `s` tag). */
  lemma UnknownStatusAborts(pre: seq<Tag>, t: Tag, post: seq<Tag>)
    requires ScanFrom(Start, pre).Ok?
    requires |t| >= 2 && t[0] == "s" && ParseStatus(t[1]).Err?
    ensures Decode(pre + [t] + post) == Err(ParseError("unknown status: " + t[1]))
  {
    assert (pre + [t])[..|pre + [t]| - 1] == pre;
    ScanErrorPersists(pre + [t], post);
  }

  /** A successful parse returns the value of the last `d` tag and the status
      named by the last `s` tag; with no `d` or no `s` tag the parse fails. */
  lemma {:induction false} DecodeMeaning(tags: seq<Tag>)
    ensures ScanFrom(Start, tags).Ok? ==>
      ScanFrom(Start, tags).value.cardId == LastTagValue(tags, "d")
      && (ScanFrom(Start, tags).value.status.Some? <==> LastTagValue(tags, "s").Some?)
      && (ScanFrom(Start, tags).value.status.Some? ==>
            ParseStatus(LastTagValue(tags, "s").value) == Ok(ScanFrom(Start, tags).value.status.value))
    ensures LastTagValue(tags, "d").None? ==> Decode(tags).Err?
    ensures LastTagValue(tags, "s").None? ==> Decode(tags).Err?
    decreases |tags|
  {
    if tags != [] {
      DecodeMeaning(tags[..|tags| - 1]);
      var init := tags[..|tags| - 1];
      if ScanFrom(Start, init).Err? {
        ErrorIsFinal(ScanFrom(Start, init).error, [tags[|tags| - 1]]);
      }
    }
  }
}
