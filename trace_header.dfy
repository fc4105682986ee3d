/** The X-Ray trace header value: root trace id, parent (span) id and sampling
    decision. The recorder library's own `TraceHeader.toString`/`fromString`
    are not part of this model; `ToText`/`FromText` below are a stand-in
    grammar of the same shape (`Root=<id>;Parent=<id>;Sampled=<1|0|?>`, each
    part present only when set, UNKNOWN written as no `Sampled` part), with the
    round trip the propagation codec relies on proved rather than assumed. */
module TraceHeaders {
  import opened Values

  type TraceId = string

  datatype SampleDecision = Sampled | NotSampled | Requested | Unknown

  datatype TraceHeader = TraceHeader(root: Option<TraceId>, parent: Option<string>, sampled: SampleDecision)

  const Separator: char := ';'
  const RootKey := "Root="
  const ParentKey := "Parent="

  /** Identifiers that can be written into a header: no separator inside. */
  predicate IdText(s: string)
  {
    Separator !in s
  }

  predicate WellFormed(h: TraceHeader)
  {
    (h.root.Some? ==> IdText(h.root.value)) && (h.parent.Some? ==> IdText(h.parent.value))
  }

  function Join(parts: seq<string>): string
    requires |parts| > 0
  {
    if |parts| == 1 then parts[0] else parts[0] + [Separator] + Join(parts[1..])
  }

  function Split(s: string): (r: seq<string>)
    ensures |r| > 0
  {
    if s == [] then [""]
    else if s[0] == Separator then [""] + Split(s[1..])
    else
      var rest := Split(s[1..]);
      [[s[0]] + rest[0]] + rest[1..]
  }

  function SampledPart(d: SampleDecision): seq<string>
  {
    match d
    case Sampled => ["Sampled=1"]
    case NotSampled => ["Sampled=0"]
    case Requested => ["Sampled=?"]
    case Unknown => []
  }

  function Parts(h: TraceHeader): seq<string>
  {
    (if h.root.Some? then [RootKey + h.root.value] else [])
    + (if h.parent.Some? then [ParentKey + h.parent.value] else [])
    + SampledPart(h.sampled)
  }

  function ToText(h: TraceHeader): string
  {
    if Parts(h) == [] then "" else Join(Parts(h))
  }

  function ParsePart(part: string, h: TraceHeader): TraceHeader
  {
    if |part| >= |RootKey| && part[..|RootKey|] == RootKey then h.(root := Some(part[|RootKey|..]))
    else if |part| >= |ParentKey| && part[..|ParentKey|] == ParentKey then h.(parent := Some(part[|ParentKey|..]))
    else if part == "Sampled=1" then h.(sampled := Sampled)
    else if part == "Sampled=0" then h.(sampled := NotSampled)
    else if part == "Sampled=?" then h.(sampled := Requested)
    else h
  }

  function ParseParts(parts: seq<string>, h: TraceHeader): TraceHeader
  {
    if parts == [] then h else ParseParts(parts[1..], ParsePart(parts[0], h))
  }

  /** Unrecognised parts are ignored; absent fields stay unset (UNKNOWN). */
  function FromText(s: string): TraceHeader
  {
    ParseParts(Split(s), TraceHeader(None, None, Unknown))
  }

  lemma {:induction false} SplitNoSeparator(p: string)
    requires Separator !in p
    ensures Split(p) == [p]
  {
    if p != [] {
      SplitNoSeparator(p[1..]);
      assert [p[0]] + p[1..] == p;
    }
  }

  lemma {:induction false} SplitAtSeparator(p: string, rest: string)
    requires Separator !in p
    ensures Split(p + [Separator] + rest) == [p] + Split(rest)
  {
    if p == [] {
      assert p + [Separator] + rest == [Separator] + rest;
    } else {
      var s := p + [Separator] + rest;
      assert s[0] == p[0] && s[1..] == p[1..] + [Separator] + rest;
      SplitAtSeparator(p[1..], rest);
      assert [p[0]] + p[1..] == p;
    }
  }

  /** Splitting a join of separator-free parts gives the parts back. */
  lemma {:induction false} SplitJoin(parts: seq<string>)
    requires |parts| > 0
    requires forall i :: 0 <= i < |parts| ==> Separator !in parts[i]
    ensures Split(Join(parts)) == parts
  {
    if |parts| == 1 {
      SplitNoSeparator(parts[0]);
    } else {
      SplitJoin(parts[1..]);
      SplitAtSeparator(parts[0], Join(parts[1..]));
    }
  }

  lemma {:induction false} ParsePartsAppend(a: seq<string>, b: seq<string>, h: TraceHeader)
    ensures ParseParts(a + b, h) == ParseParts(b, ParseParts(a, h))
  {
    if a != [] {
      assert (a + b)[0] == a[0] && (a + b)[1..] == a[1..] + b;
      ParsePartsAppend(a[1..], b, ParsePart(a[0], h));
    } else {
      assert a + b == b;
    }
  }

  lemma ParseRootPart(r: string, h: TraceHeader)
    ensures ParsePart(RootKey + r, h) == h.(root := Some(r))
  {
    assert (RootKey + r)[..|RootKey|] == RootKey;
    assert (RootKey + r)[|RootKey|..] == r;
  }

  lemma ParseParentPart(p: string, h: TraceHeader)
    ensures ParsePart(ParentKey + p, h) == h.(parent := Some(p))
  {
    var part := ParentKey + p;
    assert part[0] == 'P';
    assert part[..|ParentKey|] == ParentKey;
    assert part[|ParentKey|..] == p;
  }

  lemma ParseSampledPart(d: SampleDecision, h: TraceHeader)
    ensures ParseParts(SampledPart(d), h) == h.(sampled := if d == Unknown then h.sampled else d)
  {
    if d != Unknown {
      var part := SampledPart(d)[0];
      assert part[0] == 'S' && |part| == 9;
      assert part[..|RootKey|] != RootKey && part[..|ParentKey|] != ParentKey;
      assert SampledPart(d)[1..] == [];
    }
  }

  /** Parsing the parts of a header, starting from nothing set, rebuilds it. */
  lemma ParseOwnParts(h: TraceHeader)
    ensures ParseParts(Parts(h), TraceHeader(None, None, Unknown)) == h
  {
    var empty := TraceHeader(None, None, Unknown);
    var rootPart := if h.root.Some? then [RootKey + h.root.value] else [];
    var parentPart := if h.parent.Some? then [ParentKey + h.parent.value] else [];
    assert Parts(h) == rootPart + parentPart + SampledPart(h.sampled);
    ParsePartsAppend(rootPart + parentPart, SampledPart(h.sampled), empty);
    ParsePartsAppend(rootPart, parentPart, empty);
    var h1 := ParseParts(rootPart, empty);
    if h.root.Some? { ParseRootPart(h.root.value, empty); }
    assert h1 == empty.(root := h.root);
    var h2 := ParseParts(parentPart, h1);
    if h.parent.Some? { ParseParentPart(h.parent.value, h1); }
    assert h2 == h1.(parent := h.parent);
    ParseSampledPart(h.sampled, h2);
  }

  /** The header grammar round-trips every well-formed header. */
  lemma HeaderRoundTrip(h: TraceHeader)
    requires WellFormed(h)
    ensures FromText(ToText(h)) == h
  {
    var ps := Parts(h);
    ParseOwnParts(h);
    if ps == [] {
      assert Split("") == [""];
      assert ParsePart("", TraceHeader(None, None, Unknown)) == TraceHeader(None, None, Unknown);
    } else {
      forall i | 0 <= i < |ps|
        ensures Separator !in ps[i]
      {
      }
      SplitJoin(ps);
    }
  }

  /** The text is empty exactly when the header carries nothing; otherwise it
      starts with a letter and so is never blank. */
  lemma TextEmptyIffNothingSet(h: TraceHeader)
    ensures ToText(h) == [] <==> (h.root.None? && h.parent.None? && h.sampled == Unknown)
    ensures ToText(h) != [] ==> ToText(h)[0] in "RPS"
  {
    var ps := Parts(h);
    if ps != [] {
      assert Join(ps)[0] == ps[0][0];
    }
  }
}
