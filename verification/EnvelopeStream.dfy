/** The streaming extractor: cutting the input into chunks changes nothing, built envelopes are found verbatim
    and in order between noise, and nothing is invented. */
module EnvelopeStream {
  import opened Text
  import opened EnvelopeCodec
  import opened EnvelopeAttributes
  import opened EnvelopeRoundTrip

  const MARKER := "<iap "

  // ---------------------------------------------------------------- decisions that more input cannot change

  lemma LeadingSpacesStable(s: string, t: string)
    requires LeadingSpaces(s) < |s|
    ensures LeadingSpaces(s + t) == LeadingSpaces(s)
  {
    if IsSpace(s[0]) {
      assert (s + t)[1..] == s[1..] + t;
      LeadingSpacesStable(s[1..], t);
    }
  }

  lemma OpenTagStable(s: string, t: string)
    requires MatchOpenTag(s).Some?
    ensures MatchOpenTag(s + t) == MatchOpenTag(s)
  {
    hide LeadingSpaces, IndexOf, At;
    var n := LeadingSpaces(s[4..]);
    var body := s[4 + n..];
    var k := IndexOf(body, ">").value;
    AtLeft(s, t, "<iap", 0);
    LeadingSpacesStable(s[4..], t);
    IndexOfStable(body, t, ">");
    Slices(s, t, 4);
    Slices(s, t, 4 + n);
    SamePrefix(body, t, k);
    OpenTagIs(s + t, n, k, body[..k]);
  }

  lemma Slices(s: string, t: string, k: nat)
    requires k <= |s|
    ensures (s + t)[k..] == s[k..] + t
  {
  }

  lemma SamePrefix(s: string, t: string, k: nat)
    requires k <= |s|
    ensures (s + t)[..k] == s[..k]
  {
  }

  lemma OpenTagIs(s: string, n: nat, k: nat, attrs: string)
    requires At(s, "<iap", 0) && LeadingSpaces(s[4..]) == n > 0
    requires IndexOf(s[4 + n..], ">") == Some(k) && k <= |s[4 + n..]| && s[4 + n..][..k] == attrs
    ensures MatchOpenTag(s) == Some(OpenTag(attrs, 4 + n + k + 1))
  {
    hide LeadingSpaces, IndexOf, At;
  }

  /** After the marker a tag is matched as soon as a '>' has been seen. */
  lemma OpenTagNeedsAngle(s: string)
    requires At(s, MARKER, 0)
    ensures match IndexOf(s, ">")
            case None => MatchOpenTag(s) == None
            case Some(k) => MatchOpenTag(s).Some? && MatchOpenTag(s).value.length == k + 1
  {
    MarkerHead(s);
    var n := LeadingSpaces(s[4..]);
    var u, t := s[..4 + n], s[4 + n..];
    assert s == u + t;
    forall i | 0 <= i < |u|
      ensures u[i] != '>'
    {
      if i >= 4 { assert IsSpace(s[4..][i - 4]); }
    }
    hide IndexOf;
    ClearIfNoChar(u, t, ">");
    IndexOfAfter(u, t, ">");
  }

  lemma MarkerHead(s: string)
    requires At(s, MARKER, 0)
    ensures At(s, "<iap", 0) && |s| >= 5 && LeadingSpaces(s[4..]) >= 1
    ensures s[0] == '<' && s[1] == 'i' && s[2] == 'a' && s[3] == 'p'
  {
    assert s[0..5] == MARKER;
    assert s[0..4] == s[0..5][..4] == "<iap";
    assert s[4..][0] == s[0..5][4] == ' ';
    assert forall i :: 0 <= i < 4 ==> s[i] == s[0..5][i];
  }

  lemma VerdictStable(s: string, t: string)
    requires At(s, MARKER, 0) && OpenTagVerdict(s) != IncompleteTag
    ensures OpenTagVerdict(s + t) == OpenTagVerdict(s)
  {
    IndexOfIsFirst(s, ">");
    IndexOfIsFirst(s + t, ">");
    AtLeft(s, t, MARKER, 0);
    OpenTagNeedsAngle(s);
    OpenTagNeedsAngle(s + t);
    if MatchOpenTag(s).Some? {
      OpenTagStable(s, t);
    } else if IndexOf(s + t, ">").Some? {
      var last := IndexOf(s + t, ">").value;
      if last < |s| {
        AtLeft(s, t, ">", last);
      }
    }
  }

  /** A closing tag found outside CDATA stays found: a CDATA opener cannot grow over it. */
  lemma {:induction false} OutsideStable(s: string, t: string, needle: string)
    requires Marker(needle) && needle[1] != '!' && OutsideCdata(s, needle).Some?
    ensures OutsideCdata(s + t, needle) == OutsideCdata(s, needle)
    decreases |s|
  {
    OutsideUnfolds(s, needle);
    OutsideUnfolds(s + t, needle);
    hide OutsideCdata, IndexOf, Marker, At;
    if At(s, CDATA_OPEN, 0) {
      SectionStable(s, t);
      OutsideStable(s[AfterSection(s)..], t, needle);
    } else {
      OpenerDoesNotGrow(s, t, needle, OutsideCdata(s, needle).value);
      if !At(s, needle, 0) {
        assert (s + t)[1..] == s[1..] + t;
        OutsideStable(s[1..], t, needle);
      }
    }
  }

  /** What is found at the end of `c` in a longer text is found there in `c` alone. */
  lemma {:induction false} OutsideCut(c: string, t: string, needle: string)
    requires Marker(needle) && |needle| <= |c| && OutsideCdata(c + t, needle) == Some(|c| - |needle|)
    ensures OutsideCdata(c, needle) == Some(|c| - |needle|)
    decreases |c|
  {
    OutsideUnfolds(c + t, needle);
    OutsideUnfolds(c, needle);
    assert c != "" && needle != "";
    hide OutsideCdata, IndexOf, Marker, At;
    if At(c + t, CDATA_OPEN, 0) {
      SectionCut(c, t, |c| - |needle|);
      OutsideCut(c[AfterSection(c)..], t, needle);
    } else {
      HeadCut(c, t, CDATA_OPEN);
      AtLeft(c, t, needle, 0);
      if !At(c, needle, 0) {
        Slices(c, t, 1);
        OutsideCut(c[1..], t, needle);
      }
    }
  }

  lemma HeadCut(c: string, t: string, p: string)
    requires !At(c + t, p, 0)
    ensures !At(c, p, 0)
  {
    if |p| <= |c| {
      AtLeft(c, t, p, 0);
    }
  }

  lemma SectionCut(c: string, t: string, k: nat)
    requires At(c + t, CDATA_OPEN, 0) && IndexOf((c + t)[|CDATA_OPEN|..], CDATA_CLOSE).Some?
    requires AfterSection(c + t) <= k <= |c|
    ensures At(c, CDATA_OPEN, 0) && IndexOf(c[|CDATA_OPEN|..], CDATA_CLOSE).Some?
    ensures AfterSection(c) == AfterSection(c + t) && (c + t)[AfterSection(c)..] == c[AfterSection(c)..] + t
  {
    hide IndexOf, At;
    AtLeft(c, t, CDATA_OPEN, 0);
    Slices(c, t, |CDATA_OPEN|);
    IndexOfCut(c[|CDATA_OPEN|..], t, CDATA_CLOSE);
    Slices(c, t, AfterSection(c));
  }

  lemma IndexOfCut(c: string, t: string, p: string)
    requires p != "" && IndexOf(c + t, p).Some? && IndexOf(c + t, p).value + |p| <= |c|
    ensures IndexOf(c, p) == IndexOf(c + t, p)
  {
    var k := IndexOf(c + t, p).value;
    IndexOfIsFirst(c + t, p);
    hide IndexOf, At;
    forall i: nat | i <= k
      ensures At(c, p, i) == At(c + t, p, i)
    {
      AtLeft(c, t, p, i);
    }
    IndexOfIs(c, p, k);
  }

  lemma SectionStable(s: string, t: string)
    requires At(s, CDATA_OPEN, 0) && IndexOf(s[|CDATA_OPEN|..], CDATA_CLOSE).Some?
    ensures At(s + t, CDATA_OPEN, 0) && IndexOf((s + t)[|CDATA_OPEN|..], CDATA_CLOSE).Some?
    ensures AfterSection(s + t) == AfterSection(s) && (s + t)[AfterSection(s)..] == s[AfterSection(s)..] + t
  {
    AtLeft(s, t, CDATA_OPEN, 0);
    var body := s[|CDATA_OPEN|..];
    assert (s + t)[|CDATA_OPEN|..] == body + t;
    IndexOfStable(body, t, CDATA_CLOSE);
  }

  lemma FoundCharacters(s: string, needle: string, k: nat)
    requires Marker(needle) && At(s, needle, k)
    ensures k + 1 < |s| && s[k] == '<' && s[k + 1] == needle[1]
  {
    assert s[k..k + |needle|][0] == s[k] && s[k..k + |needle|][1] == s[k + 1];
  }

  /** With the needle found in `s`, neither a CDATA opener nor the needle can be completed at its head by more text. */
  lemma OpenerDoesNotGrow(s: string, t: string, needle: string, k: nat)
    requires Marker(needle) && needle[1] != '!' && At(s, needle, k) && !At(s, CDATA_OPEN, 0)
    ensures !At(s + t, CDATA_OPEN, 0) && At(s + t, needle, 0) == At(s, needle, 0)
  {
    FoundCharacters(s, needle, k);
    AtLeft(s, t, needle, 0);
    if |CDATA_OPEN| <= |s| {
      AtLeft(s, t, CDATA_OPEN, 0);
    } else {
      Mismatch(s + t, CDATA_OPEN, 0, if k == 0 then 1 else k);
    }
  }

  // ---------------------------------------------------------------- chunk independence

  /** The kept tail is enough: a marker that more input completes starts inside it. */
  lemma TailIsEnough(a: string, b: string)
    requires Absent(a, MARKER)
    ensures Extract(a + b) == Extract(Tail(a) + b)
  {
    var cut := |a| - |Tail(a)|;
    var x := a[..cut];
    assert a == x + Tail(a);
    assert a + b == x + (Tail(a) + b);
    forall i: nat | i < |x|
      ensures !At(x + (Tail(a) + b), MARKER, i)
    {
      AtLeft(a, b, MARKER, i);
      assert !At(a, MARKER, i);
    }
    ExtractPast(x, Tail(a) + b);
  }

  /** Text in which no marker starts, before a rest of at least five characters or none to find, is dropped. */
  lemma ExtractPast(x: string, t: string)
    requires Clear(x, t, MARKER) && (x == "" || |t| >= 5 || IndexOf(t, MARKER).Some?)
    ensures Extract(x + t) == Extract(t)
  {
    hide IndexOf, ExtractAt;
    IndexOfAfter(x, t, MARKER);
    match IndexOf(t, MARKER) {
      case Some(k) =>
        DropInto(x, t, k);
      case None =>
        assert x == "" ==> x + t == t;
        assert |t| >= 5 ==> (x + t)[|x + t| - 5..] == t[|t| - 5..];
    }
  }

  lemma DropInto(x: string, t: string, k: nat)
    requires k <= |t|
    ensures (x + t)[|x| + k..] == t[k..]
  {
  }

  lemma AfterNothing(e: Extraction)
    ensures After([], e) == e
  {
    assert [] + e.envelopes == e.envelopes;
  }

  /** Extracting from a buffer and then from its rest with more input appended is extracting from the whole. */
  lemma {:induction false} ChunkIndependence(a: string, b: string)
    ensures Extract(a + b) == After(Extract(a).envelopes, Extract(Extract(a).rest + b))
    decreases |a|, 1
  {
    match IndexOf(a, MARKER) {
      case None =>
        IndexOfIsFirst(a, MARKER);
        TailIsEnough(a, b);
        AfterNothing(Extract(Tail(a) + b));
      case Some(k) =>
        IndexOfStable(a, b, MARKER);
        AtDrop(a, MARKER, k, 0);
        assert (a + b)[k..] == a[k..] + b;
        AtLeft(a[k..], b, MARKER, 0);
        ChunkIndependenceAt(a[k..], b);
    }
  }

  lemma {:induction false} ChunkIndependenceAt(r: string, b: string)
    requires At(r, MARKER, 0) && At(r + b, MARKER, 0)
    ensures ExtractAt(r + b) == After(ExtractAt(r).envelopes, Extract(ExtractAt(r).rest + b))
    decreases |r|, 0
  {
    hide Extract, OutsideCdata, DecodeEnvelope, OpenTagVerdict;
    match Action(r) {
      case Wait =>
        ExtractAtHead(r + b);
        AfterNothing(ExtractAt(r + b));
      case Skip =>
        ActionStable(r, b);
        assert (r + b)[1..] == r[1..] + b;
        ChunkIndependence(r[1..], b);
      case Take(end) =>
        ActionStable(r, b);
        assert (r + b)[..end] == r[..end] && (r + b)[end..] == r[end..] + b;
        ChunkIndependence(r[end..], b);
        AfterAfter([r[..end]], Extract(r[end..]).envelopes, Extract(Extract(r[end..]).rest + b));
    }
  }

  lemma ExtractAtHead(r: string)
    requires At(r, MARKER, 0)
    ensures Extract(r) == ExtractAt(r)
  {
    IndexOfIs(r, MARKER, 0);
    assert r[0..] == r;
  }

  /** What the extractor does at a marker: wait for more input, skip a false start, or take an envelope. */
  datatype Step = Wait | Skip | Take(end: nat)

  function Action(r: string): (step: Step)
    requires At(r, MARKER, 0)
    ensures step.Take? ==> 0 < step.end <= |r|
    ensures ExtractAt(r) == match step
                            case Wait => Extraction([], r)
                            case Skip => Extract(r[1..])
                            case Take(end) => After([r[..end]], Extract(r[end..]))
  {
    match OpenTagVerdict(r)
    case IncompleteTag => Wait
    case InvalidTag => Skip
    case ValidTag =>
      match OutsideCdata(r[5..], Close("iap"))
      case None => Wait
      case Some(close) =>
        if DecodeEnvelope(r[..5 + close + 6]).Invalid? then Skip else Take(5 + close + 6)
  }

  /** Only waiting can be revised by more input. */
  lemma ActionStable(r: string, b: string)
    requires At(r, MARKER, 0) && At(r + b, MARKER, 0) && Action(r) != Wait
    ensures Action(r + b) == Action(r)
  {
    hide OutsideCdata, DecodeEnvelope, OpenTagVerdict, ExtractAt, Extract;
    VerdictStable(r, b);
    if OpenTagVerdict(r) == ValidTag {
      assert (r + b)[5..] == r[5..] + b;
      CloseIsMarker();
      OutsideStable(r[5..], b, Close("iap"));
      var end := 5 + OutsideCdata(r[5..], Close("iap")).value + 6;
      assert (r + b)[..end] == r[..end];
    }
  }

  /** The extractor takes `w` on its own, whole. */
  ghost predicate Whole(w: string) {
    At(w, MARKER, 0) && Action(w) == Take(|w|)
  }

  /** What is taken from a longer text would be taken on its own. */
  lemma TakenStandsAlone(c: string, t: string)
    requires At(c + t, MARKER, 0) && Action(c + t) == Take(|c|)
    ensures Whole(c)
  {
    hide OutsideCdata, DecodeEnvelope, OpenTagVerdict, ExtractAt, Extract, At;
    CloseIsMarker();
    AtLeft(c, t, MARKER, 0);
    Slices(c, t, 5);
    SamePrefix(c, t, |c|);
    OutsideCut(c[5..], t, Close("iap"));
    ClosedTagIsSeen(c);
    ValidCut(c, t);
    SamePrefix(c, "", |c|);
    AppendNothing(c);
  }

  lemma ClosedTagIsSeen(c: string)
    requires |c| >= 11 && At(c[5..], Close("iap"), |c| - 11)
    ensures IndexOf(c, ">").Some?
  {
    var d := c[5..];
    assert d[|c| - 11..|c| - 5][5] == d[|c| - 6] == c[|c| - 1];
    assert c[|c| - 1..|c|] == ">";
    hide IndexOf;
    assert At(c, ">", |c| - 1);
    IndexOfIsFirst(c, ">");
  }

  lemma ValidCut(c: string, t: string)
    requires At(c, MARKER, 0) && IndexOf(c, ">").Some? && OpenTagVerdict(c + t) == ValidTag
    ensures OpenTagVerdict(c) == ValidTag
  {
    hide IndexOf, At, MatchOpenTag, HasKey;
    OpenTagNeedsAngle(c);
    OpenTagStable(c, t);
  }

  lemma CloseIsMarker()
    ensures Marker(Close("iap")) && Close("iap")[1] != '!' && |Close("iap")| == 6
  {
  }

  /** A consumer that prepends the rest of each pass to the next chunk. */
  function Feed(chunks: seq<string>, rest: string): Extraction {
    if chunks == [] then Extraction([], rest)
    else
      var e := Extract(rest + chunks[0]);
      After(e.envelopes, Feed(chunks[1..], e.rest))
  }

  function Concat(chunks: seq<string>): string {
    if chunks == [] then "" else chunks[0] + Concat(chunks[1..])
  }

  /** However a stream is cut into chunks, the same envelopes come out in the same order with the same rest. */
  lemma {:induction false} AnyChunking(chunks: seq<string>, rest: string)
    requires chunks != []
    ensures Feed(chunks, rest) == Extract(rest + Concat(chunks))
  {
    var e := Extract(rest + chunks[0]);
    if |chunks| == 1 {
      assert chunks[0] + "" == chunks[0];
      assert e.envelopes + [] == e.envelopes;
    } else {
      AnyChunking(chunks[1..], e.rest);
      ChunkIndependence(rest + chunks[0], Concat(chunks[1..]));
      assert rest + chunks[0] + Concat(chunks[1..]) == rest + Concat(chunks);
    }
  }

  // ---------------------------------------------------------------- nothing invented

  /** `gaps[0] + envelopes[0] + gaps[1] + …`. */
  function Weave(gaps: seq<string>, envelopes: seq<string>): string
    requires |gaps| == |envelopes| + 1
  {
    if envelopes == [] then gaps[0] else gaps[0] + (envelopes[0] + Weave(gaps[1..], envelopes[1..]))
  }

  lemma WeaveWiden(x: string, gaps: seq<string>, envelopes: seq<string>)
    requires |gaps| == |envelopes| + 1
    ensures Weave(gaps[0 := x + gaps[0]], envelopes) == x + Weave(gaps, envelopes)
  {
    var wide := gaps[0 := x + gaps[0]];
    assert wide[1..] == gaps[1..];
    if envelopes != [] {
      var more := envelopes[0] + Weave(gaps[1..], envelopes[1..]);
      assert (x + gaps[0]) + more == x + (gaps[0] + more);
    }
  }

  /** The envelopes of `e` are pieces of the buffer, disjoint and in order, each decodable and extracted again on its
      own, and the rest of `e` is the end of the buffer. */
  ghost predicate Verbatim(buffer: string, e: Extraction, gaps: seq<string>) {
    && |gaps| == |e.envelopes| + 1
    && Weave(gaps, e.envelopes) == buffer
    && (forall i :: 0 <= i < |e.envelopes| ==> Whole(e.envelopes[i]) && DecodeEnvelope(e.envelopes[i]).Ok?)
    && |e.rest| <= |buffer| && buffer[|buffer| - |e.rest|..] == e.rest
  }

  lemma VerbatimWiden(x: string, t: string, e: Extraction, gaps: seq<string>)
    requires Verbatim(t, e, gaps)
    ensures Verbatim(x + t, e, gaps[0 := x + gaps[0]])
  {
    hide DecodeEnvelope, Whole;
    WeaveWiden(x, gaps, e.envelopes);
  }

  lemma VerbatimCons(x: string, envelope: string, t: string, e: Extraction, gaps: seq<string>)
    requires Verbatim(t, e, gaps) && Whole(envelope) && DecodeEnvelope(envelope).Ok?
    ensures Verbatim(x + (envelope + t), After([envelope], e), [x] + gaps)
  {
    hide DecodeEnvelope, Whole;
    WeaveCons(x, envelope, gaps, e.envelopes);
  }

  /** Nothing is invented: whatever is extracted was in the buffer, and the rest is what to keep. */
  lemma {:induction false} ExtractedVerbatim(buffer: string) returns (gaps: seq<string>)
    ensures gaps != [] && Verbatim(buffer, Extract(buffer), gaps)
    decreases |buffer|
  {
    hide IndexOf, At, Extract, ExtractAt, Action, Verbatim, Tail, Whole, Weave;
    ExtractUnfolds(buffer);
    var start := IndexOf(buffer, MARKER);
    if start.None? {
      TailIsEnd(buffer);
      KeptVerbatim(buffer, Extract(buffer));
      return [buffer];
    }
    var k := start.value;
    var r := buffer[k..];
    match Action(r) {
      case Wait =>
        KeptVerbatim(buffer, Extract(buffer));
        return [buffer];
      case Skip =>
        gaps := ExtractedVerbatim(r[1..]);
        SplitTwice(buffer, k, 1);
        VerbatimWiden(buffer[..k + 1], r[1..], Extract(r[1..]), gaps);
        return gaps[0 := buffer[..k + 1] + gaps[0]];
      case Take(end) =>
        TakenDecodes(r);
        gaps := ExtractedVerbatim(r[end..]);
        SplitTwice(buffer, k, end);
        VerbatimCons(buffer[..k], r[..end], r[end..], Extract(r[end..]), gaps);
        return [buffer[..k]] + gaps;
    }
  }

  lemma TailIsEnd(s: string)
    ensures |Tail(s)| <= |s| && s[|s| - |Tail(s)|..] == Tail(s)
  {
  }

  lemma KeptVerbatim(buffer: string, e: Extraction)
    requires e.envelopes == [] && |e.rest| <= |buffer| && buffer[|buffer| - |e.rest|..] == e.rest
    ensures Verbatim(buffer, e, [buffer])
  {
  }

  lemma SplitTwice(s: string, k: nat, end: nat)
    requires k + end <= |s|
    ensures s == s[..k] + (s[k..][..end] + s[k..][end..])
    ensures s == s[..k + end] + s[k..][end..]
  {
  }

  lemma WeaveCons(gap: string, envelope: string, gaps: seq<string>, envelopes: seq<string>)
    requires |gaps| == |envelopes| + 1
    ensures Weave([gap] + gaps, [envelope] + envelopes) == gap + (envelope + Weave(gaps, envelopes))
  {
    assert ([gap] + gaps)[1..] == gaps && ([envelope] + envelopes)[1..] == envelopes;
  }

  lemma TakenDecodes(r: string)
    requires At(r, MARKER, 0) && Action(r).Take?
    ensures Whole(r[..Action(r).end]) && DecodeEnvelope(r[..Action(r).end]).Ok?
  {
    hide DecodeEnvelope, ExtractAt, OutsideCdata, OpenTagVerdict, At;
    var end := Action(r).end;
    SplitTwice(r, 0, end);
    TakenStandsAlone(r[..end], r[end..]);
  }

  /** A text can come out of the extractor, from some buffer, exactly when the extractor takes it on its own. */
  lemma ExtractedIffWhole(w: string)
    ensures (exists s :: w in Extract(s).envelopes) <==> Whole(w)
  {
    hide Extract, Whole, DecodeEnvelope;
    if s :| w in Extract(s).envelopes {
      var gaps := ExtractedVerbatim(s);
    }
    if Whole(w) {
      WholeComesOut(w);
    }
  }

  lemma WholeComesOut(w: string)
    requires Whole(w)
    ensures w in Extract(w).envelopes
  {
    hide OpenTagVerdict, OutsideCdata, DecodeEnvelope, ExtractAt, Extract, At;
    ExtractAtHead(w);
    SamePrefix(w, "", |w|);
    AppendNothing(w);
    assert Extract(w).envelopes[0] == w;
  }

  // ---------------------------------------------------------------- what counts as an open tag

  /** The name occurs as a key: anywhere for a long name, and for a short one at the start or behind whitespace, so that
      the tail of a long name does not pass for it. */
  ghost predicate Names(attrs: string, long: string, short: string) {
    (exists i: nat :: At(attrs, long + "=\"", i))
    || exists i: nat :: At(attrs, short + "=\"", i) && (i == 0 || (i <= |attrs| && IsSpace(attrs[i - 1])))
  }

  /** A tag is valid exactly when it is closed within 1024 characters and names a personality and a runtime, by long or
      by short names; it waits for more exactly while it has no angle in at most 1024 characters. */
  lemma VerdictIff(s: string)
    ensures OpenTagVerdict(s) == ValidTag <==>
            MatchOpenTag(s).Some? && MatchOpenTag(s).value.length <= 1024
            && Names(MatchOpenTag(s).value.attrs, "from-personality", "from")
            && Names(MatchOpenTag(s).value.attrs, "from-runtime", "runtime")
    ensures OpenTagVerdict(s) == IncompleteTag <==> '>' !in s && |s| <= 1024
  {
    hide At, IndexOf, HasKey, Names, LeadingSpaces;
    IndexOfIsFirst(s, ">");
    AngleAt(s);
    if MatchOpenTag(s).Some? {
      KeyIff(MatchOpenTag(s).value.attrs, "from-personality", "from");
      KeyIff(MatchOpenTag(s).value.attrs, "from-runtime", "runtime");
      MatchHasAngle(s);
    }
  }

  lemma AngleAt(s: string)
    ensures (exists i: nat :: At(s, ">", i)) <==> '>' in s
  {
    if '>' in s {
      var i: nat :| i < |s| && s[i] == '>';
      assert At(s, ">", i);
    }
    if i: nat :| At(s, ">", i) {
      assert s[i..i + 1][0] == s[i];
    }
  }

  lemma MatchHasAngle(s: string)
    requires MatchOpenTag(s).Some?
    ensures '>' in s
  {
    hide At, LeadingSpaces;
    var skipped := 4 + LeadingSpaces(s[4..]);
    var rest := s[skipped..];
    IndexOfIsFirst(rest, ">");
    AngleAt(rest);
    var i :| 0 <= i < |rest| && rest[i] == '>';
    assert s[skipped + i] == '>';
  }

  lemma KeyIff(attrs: string, long: string, short: string)
    ensures HasKey(attrs, long, short) <==> Names(attrs, long, short)
  {
    hide At, IsSpace;
    AnchoredIff(attrs, short);
    hide AnchoredKey;
  }

  lemma AnchoredIff(s: string, name: string)
    ensures AnchoredKey(s, name) <==>
            exists i: nat :: At(s, name + "=\"", i) && (i == 0 || (i <= |s| && IsSpace(s[i - 1])))
  {
    hide At, IsSpace;
    AfterSpaceIff(s, name);
    hide AnchoredKeyAfterSpace;
  }

  lemma {:induction false} AfterSpaceIff(s: string, name: string)
    ensures AnchoredKeyAfterSpace(s, name) <==>
            exists i: nat :: 0 < i <= |s| && At(s, name + "=\"", i) && IsSpace(s[i - 1])
  {
    hide At, IsSpace;
    if s != "" {
      AfterSpaceIff(s[1..], name);
      forall i: nat | 0 < i
        ensures At(s, name + "=\"", i) <==> At(s[1..], name + "=\"", i - 1)
      {
        AtDrop(s, name + "=\"", 1, i - 1);
      }
      assert At(s, name + "=\"", 1) <==> At(s[1..], name + "=\"", 0);
      if AnchoredKeyAfterSpace(s[1..], name) {
        var i: nat :| 0 < i <= |s[1..]| && At(s[1..], name + "=\"", i) && IsSpace(s[1..][i - 1]);
        assert At(s, name + "=\"", i + 1) && s[i] == s[1..][i - 1];
      }
      if exists i: nat :: 0 < i <= |s| && At(s, name + "=\"", i) && IsSpace(s[i - 1]) {
        var i: nat :| 0 < i <= |s| && At(s, name + "=\"", i) && IsSpace(s[i - 1]);
        if i > 1 {
          assert At(s[1..], name + "=\"", i - 1) && s[1..][i - 2] == s[i - 1];
        }
      }
    }
  }

  // ---------------------------------------------------------------- resynchronisation

  /** The extractor's bound on an open tag, which a long escaped topic can exceed. */
  predicate TagFits(input: EnvelopeInput) {
    |OpenTagText(WireAttrs(input))| <= MAX_OPEN_TAG_LEN
  }

  lemma WireTag(input: EnvelopeInput)
    requires Sendable(input)
    ensures At(BuildEnvelope(input), MARKER, 0) && BuildEnvelope(input)[0] == '<'
    ensures MatchOpenTag(BuildEnvelope(input))
            == Some(OpenTag(RenderAttrs(WireAttrs(input)), |OpenTagText(WireAttrs(input))|))
  {
    WireIsLayout(input);
    WireAttrsReadable(input);
    var attrs := WireAttrs(input);
    OpenTagOfLayout(attrs, Content(WireAttachments(input), "message", Cdata(input.message)));
    HeaderAtMarker(attrs, Content(WireAttachments(input), "message", Cdata(input.message)));
  }

  lemma HeaderAtMarker(attrs: seq<Attr>, t: string)
    ensures At(Header(attrs) + t, MARKER, 0) && (Header(attrs) + t)[0] == '<'
  {
    hide RenderAttrs;
    var s := Header(attrs) + t;
    assert s[..5] == MARKER;
    assert s[0..5] == s[..5];
    assert s[0] == MARKER[0];
  }

  lemma WireNamesBoth(input: EnvelopeInput)
    ensures HasKey(RenderAttrs(WireAttrs(input)), "from-personality", "from")
    ensures HasKey(RenderAttrs(WireAttrs(input)), "from-runtime", "runtime")
  {
    WireKeys(input);
    hide Includes, AnchoredKey, RenderAttrs, WireAttrs;
  }

  lemma WireKeys(input: EnvelopeInput)
    ensures Includes(RenderAttrs(WireAttrs(input)), "from-personality" + "=\"")
    ensures Includes(RenderAttrs(WireAttrs(input)), "from-runtime" + "=\"")
  {
    var attrs := WireAttrs(input);
    var rest := attrs[1..];
    assert rest != [] && rest[0] == Attr("from-runtime", input.fromRuntime);
    hide WireAttrs, Includes, EscapeAttr;
    KeyOfHead(attrs);
    RenderAttrsCons(attrs);
    KeyOfHead(rest);
    var after := KeyPlace(rest);
    KeyAt(RenderAttr(attrs[0]) + " ", "from-runtime", after, RenderAttrs(attrs));
  }

  lemma KeyPlace(attrs: seq<Attr>) returns (after: string)
    requires attrs != []
    ensures RenderAttrs(attrs) == attrs[0].name + "=\"" + after
  {
    RenderAttrsCons(attrs);
    after := EscapeAttr(attrs[0].value) + "\"" + (if |attrs| == 1 then "" else " " + RenderAttrs(attrs[1..]));
  }

  lemma KeyOfHead(attrs: seq<Attr>)
    requires attrs != []
    ensures Includes(RenderAttrs(attrs), attrs[0].name + "=\"")
  {
    var after := KeyPlace(attrs);
    KeyAt("", attrs[0].name, after, RenderAttrs(attrs));
  }

  lemma KeyAt(u: string, name: string, t: string, s: string)
    requires s == u + (name + "=\"" + t)
    ensures Includes(s, name + "=\"")
  {
    var key := name + "=\"";
    assert s == u + (key + t);
    AtHead(key, t);
    AtRight(u, key + t, key, |u|);
  }

  lemma WireClose(input: EnvelopeInput)
    requires Sendable(input)
    ensures |BuildEnvelope(input)| >= 11
    ensures OutsideCdata(BuildEnvelope(input)[5..], Close("iap")) == Some(|BuildEnvelope(input)| - 11)
  {
    hide OutsideCdata, Layout, BuildEnvelope, Readable, Sendable, WireAttrs, Join, Cdata, Close, Absent;
    WireIsLayout(input);
    WireAttrsReadable(input);
    var a, av, body := WireAttachments(input), Join(input.attachments, "\n"), Cdata(input.message);
    assert Carries(body, input.message) && (a.Some? ==> Carries(a.value, av)) && BodyTag("message");
    hide *;
    CarriesStands("message", body, input.message);
    LayoutClose(WireAttrs(input), a, av, body, input.message);
  }

  lemma LayoutClose(attrs: seq<Attr>, a: Option<string>, av: string, body: string, message: string)
    requires Readable(attrs) && Stands("message", body, message) && (a.Some? ==> Carries(a.value, av))
    ensures var w := Layout(attrs, a, "message", body);
            |w| >= 11 && OutsideCdata(w[5..], Close("iap")) == Some(|w| - 11)
  {
    IapIsNoBodyTag();
    hide OutsideCdata, Layout, Header, MessageOffset, Close, Open, Searched, BodyTag, Carries, Stands, Readable;
    ScanToMessage(attrs, a, av, "message", body, Close("iap"));
    CloseOfMessage(body, message);
  }

  lemma CloseOfMessage(body: string, message: string)
    requires Stands("message", body, message)
    ensures |Message("message", body)| >= 6
    ensures OutsideCdata(Message("message", body), Close("iap")) == Some(|Message("message", body)| - 6)
  {
    IapIsNoBodyTag();
    hide OutsideCdata, Close, Open, Searched, BodyTag, ReadsAs;
    PastElement("message", body, message, "\n" + Close("iap"), Close("iap"));
    PastNewline(Close("iap"), Close("iap"));
    FoundAtHead(Close("iap"), "");
    AppendNothing(Close("iap"));
  }

  lemma IapIsNoBodyTag()
    ensures Searched(Close("iap")) && BodyTag("message") && Marker(Close("iap")) && Close("iap")[1] != '!'
    ensures |Close("iap")| == 6
    ensures Close("iap") != Open("message") && Close("iap") != Close("message")
    ensures Close("iap") != Open("attachments") && Close("iap") != Close("attachments")
  {
    assert Close("iap")[1] == '/' && Close("iap")[2] == 'i';
    assert Close("message")[2] == 'm' && Close("attachments")[2] == 'a';
    assert Open("message")[1] == 'm' && Open("attachments")[1] == 'a';
  }

  lemma WireIsTaken(input: EnvelopeInput)
    requires Sendable(input) && TagFits(input)
    ensures Whole(BuildEnvelope(input))
  {
    hide BuildEnvelope, DecodeEnvelope, MatchOpenTag, OutsideCdata, Close, HasKey, Sendable, Received, ExtractAt,
         WireAttrs, RenderAttrs, OpenTagText, At, Action;
    var w := BuildEnvelope(input);
    WireTag(input);
    WireNamesBoth(input);
    WireClose(input);
    WireRoundTrip(input);
    CloseIsMarker();
    assert w[..|w|] == w;
    TakesWhole(w, RenderAttrs(WireAttrs(input)));
  }

  lemma TakesWhole(w: string, attrs: string)
    requires At(w, MARKER, 0) && |w| >= 11 && OutsideCdata(w[5..], Close("iap")) == Some(|w| - 11)
    requires MatchOpenTag(w).Some? && MatchOpenTag(w).value.attrs == attrs
    requires MatchOpenTag(w).value.length <= MAX_OPEN_TAG_LEN
    requires HasKey(attrs, "from-personality", "from") && HasKey(attrs, "from-runtime", "runtime")
    requires DecodeEnvelope(w).Ok?
    ensures Whole(w)
  {
    hide DecodeEnvelope, MatchOpenTag, OutsideCdata, HasKey, ExtractAt;
    assert OpenTagVerdict(w) == ValidTag;
    assert w[..5 + (|w| - 11) + 6] == w;
  }

  /** Noise in which no envelope is left open: a scan of it does not end at a marker that waits for more. */
  ghost predicate Settled(noise: string) {
    Absent(Extract(noise).rest, MARKER)
  }

  /** Text at a marker is reached behind settled noise of any kind, false starts and other envelopes included. */
  lemma ReachedBehindNoise(noise: string, r: string)
    requires Settled(noise) && At(r, MARKER, 0)
    ensures Extract(noise + r) == After(Extract(noise).envelopes, ExtractAt(r))
  {
    ChunkIndependence(noise, r);
    var rest := Extract(noise).rest;
    hide Extract, ExtractAt, At;
    MarkerHead(r);
    assert Marker(MARKER);
    MarkerDoesNotStraddle(rest, r, MARKER);
    hide *;
    ExtractPast(rest, r);
    ExtractAtHead(r);
  }

  lemma WholeBehindNoise(noise: string, w: string, t: string)
    requires Settled(noise) && Whole(w)
    ensures Extract(noise + (w + t)) == After(Extract(noise).envelopes + [w], Extract(t))
  {
    hide Action, Extract, ExtractAt, At, Settled;
    AtLeft(w, t, MARKER, 0);
    ActionStable(w, t);
    ReachedBehindNoise(noise, w + t);
    SamePrefix(w, t, |w|);
    Slices(w, t, |w|);
    AfterAfter(Extract(noise).envelopes, [w], Extract(t));
  }

  /** A built envelope is found behind noise and taken whole, however the stream goes on. */
  lemma FoundBehindNoise(noise: string, input: EnvelopeInput, t: string)
    requires Settled(noise) && Sendable(input) && TagFits(input)
    ensures Extract(noise + (BuildEnvelope(input) + t))
            == After(Extract(noise).envelopes + [BuildEnvelope(input)], Extract(t))
  {
    WireIsTaken(input);
    hide *;
    WholeBehindNoise(noise, BuildEnvelope(input), t);
  }

  /** A marker that opens nothing: its tag is invalid, or the text it closes does not decode. */
  ghost predicate FalseStart(s: string) {
    At(s, MARKER, 0) ==> Action(s) == Skip
  }

  ghost predicate FalseStarts(noise: string) {
    forall i: nat :: i <= |noise| ==> FalseStart(noise[i..])
  }

  /** Noise of false starts is the noise that yields nothing and leaves nothing open. */
  lemma {:induction false} FalseStartsYieldNothing(noise: string)
    ensures FalseStarts(noise) <==> Extract(noise).envelopes == [] && Settled(noise)
    ensures FalseStarts(noise) ==> Extract(noise) == Extraction([], Tail(noise))
    decreases |noise|
  {
    hide IndexOf, At, Extract, ExtractAt, FalseStart, FalseStarts, Absent, Settled, Action, Tail;
    match IndexOf(noise, MARKER) {
      case None =>
        NothingStarts(noise);
      case Some(k) =>
        AtFirstMarker(noise, k);
        if Action(noise[k..]) == Skip {
          FalseStartsYieldNothing(noise[k + 1..]);
          FalseStartsFrom(noise, k);
          SameTail(noise, k + 1);
          SameYield(noise, noise[k + 1..]);
        }
    }
  }

  lemma SameYield(a: string, b: string)
    requires Extract(a) == Extract(b)
    ensures Settled(a) <==> Settled(b)
  {
    hide Extract, Absent;
  }

  lemma NothingStarts(noise: string)
    requires IndexOf(noise, MARKER).None?
    ensures FalseStarts(noise) && Extract(noise) == Extraction([], Tail(noise)) && Settled(noise)
  {
    hide FalseStarts;
    BeforeMarker(noise);
    NoMarkerInTail(noise);
  }

  lemma AtFirstMarker(noise: string, k: nat)
    requires IndexOf(noise, MARKER) == Some(k)
    ensures k <= |noise| && At(noise[k..], MARKER, 0)
    ensures Action(noise[k..]) == Skip ==>
              && k + 6 <= |noise| && Extract(noise) == Extract(noise[k + 1..])
              && forall i: nat :: i <= k ==> FalseStart(noise[i..])
    ensures Action(noise[k..]) != Skip ==> !FalseStarts(noise) && (Extract(noise).envelopes != [] || !Settled(noise))
  {
    hide IndexOf, At, Extract, ExtractAt, FalseStart, Absent, Action, Tail;
    BeforeMarker(noise);
    ExtractUnfolds(noise);
    if Action(noise[k..]) == Skip {
      SkippedIsLong(noise[k..]);
      DropDrop(noise, k, 1);
    } else {
      NotSkipped(noise[k..]);
    }
  }

  lemma BeforeMarker(noise: string)
    ensures match IndexOf(noise, MARKER)
            case None => Absent(noise, MARKER) && FalseStarts(noise)
            case Some(k) =>
              At(noise[k..], MARKER, 0)
              && (FalseStart(noise[k..]) <==> Action(noise[k..]) == Skip)
              && forall i: nat :: i < k ==> FalseStart(noise[i..])
  {
    IndexOfIsFirst(noise, MARKER);
    hide Action, IndexOf, At;
    forall i: nat | i <= |noise|
      ensures At(noise[i..], MARKER, 0) == At(noise, MARKER, i)
    {
      AtDrop(noise, MARKER, i, 0);
    }
  }

  lemma NotSkipped(r: string)
    requires At(r, MARKER, 0) && Action(r) != Skip
    ensures ExtractAt(r).envelopes != [] || !Absent(ExtractAt(r).rest, MARKER)
  {
    hide OpenTagVerdict, OutsideCdata, DecodeEnvelope, ExtractAt, Extract, At;
    if Action(r) == Wait {
      assert At(ExtractAt(r).rest, MARKER, 0);
    } else {
      assert ExtractAt(r).envelopes != [];
    }
  }

  lemma FalseStartsFrom(noise: string, k: nat)
    requires k < |noise| && forall i: nat :: i <= k ==> FalseStart(noise[i..])
    ensures FalseStarts(noise) <==> FalseStarts(noise[k + 1..])
  {
    hide FalseStart;
    var rest := noise[k + 1..];
    forall i: nat | i <= |rest|
      ensures rest[i..] == noise[k + 1 + i..]
    {
      DropDrop(noise, k + 1, i);
    }
    forall i: nat | k < i <= |noise|
      ensures noise[i..] == rest[i - k - 1..]
    {
      DropDrop(noise, k + 1, i - k - 1);
    }
  }

  lemma SameTail(s: string, k: nat)
    requires k + 5 <= |s|
    ensures Tail(s[k..]) == Tail(s)
  {
  }

  lemma NoMarkerInTail(s: string)
    requires Absent(s, MARKER)
    ensures Absent(Tail(s), MARKER)
  {
    var cut := |s| - |Tail(s)|;
    assert s[cut..] == Tail(s);
    forall i: nat
      ensures !At(Tail(s), MARKER, i)
    {
      AtDrop(s, MARKER, cut, i);
    }
  }

  lemma SkippedIsLong(r: string)
    requires At(r, MARKER, 0) && Action(r) == Skip
    ensures |r| >= 6
  {
    hide DecodeEnvelope, HasKey, ExtractAt;
    MarkerHead(r);
    OpenTagNeedsAngle(r);
    IndexOfIsFirst(r, ">");
    assert |r| == 5 ==> r == MARKER;
  }

  datatype Item = Item(noise: string, input: EnvelopeInput)

  function Stream(items: seq<Item>, last: string): string {
    if items == [] then last
    else items[0].noise + (BuildEnvelope(items[0].input) + Stream(items[1..], last))
  }

  function Built(items: seq<Item>): seq<string> {
    if items == [] then [] else [BuildEnvelope(items[0].input)] + Built(items[1..])
  }

  /** Any interleaving of built envelopes with noise of false starts yields exactly those envelopes, in order, and
      then whatever the rest of the stream yields. */
  lemma {:induction false} ResyncLosesNothing(items: seq<Item>, last: string)
    requires forall i :: 0 <= i < |items| ==>
               FalseStarts(items[i].noise) && Sendable(items[i].input) && TagFits(items[i].input)
    ensures Extract(Stream(items, last)) == After(Built(items), Extract(last))
  {
    hide Extract, FalseStarts, BuildEnvelope, Sendable, TagFits;
    if items == [] {
      AfterNothing(Extract(last));
    } else {
      FalseStartsYieldNothing(items[0].noise);
      FoundBehindNoise(items[0].noise, items[0].input, Stream(items[1..], last));
      ResyncLosesNothing(items[1..], last);
      var w := BuildEnvelope(items[0].input);
      assert [] + [w] == [w];
      AfterAfter([w], Built(items[1..]), Extract(last));
    }
  }

  // ---------------------------------------------------------------- open tags over the limit

  lemma WireIsSkipped(input: EnvelopeInput)
    requires Sendable(input) && !TagFits(input)
    ensures At(BuildEnvelope(input), MARKER, 0) && Action(BuildEnvelope(input)) == Skip
  {
    WireTag(input);
    hide BuildEnvelope, MatchOpenTag, ExtractAt, OutsideCdata, DecodeEnvelope, HasKey, Sendable, WireAttrs, RenderAttrs,
         At;
    assert OpenTagVerdict(BuildEnvelope(input)) == InvalidTag;
  }

  /** The length of its open tag decides whether a built envelope can ever be extracted, whatever surrounds it. */
  lemma ExtractedIffTagFits(input: EnvelopeInput)
    requires Sendable(input)
    ensures (exists s :: BuildEnvelope(input) in Extract(s).envelopes) <==> TagFits(input)
  {
    if TagFits(input) {
      WireIsTaken(input);
    } else {
      WireIsSkipped(input);
    }
    ExtractedIffWhole(BuildEnvelope(input));
  }

  /** What follows the header of a built envelope. */
  function WireContent(input: EnvelopeInput): string {
    Content(WireAttachments(input), "message", Cdata(input.message))
  }

  /** Of an envelope whose open tag is too long only the header is dropped: what it carries is scanned as if it
      had been sent outside any envelope. */
  lemma ContentIsScanned(noise: string, input: EnvelopeInput, t: string)
    requires Settled(noise) && Sendable(input) && !TagFits(input)
    ensures Extract(noise + (BuildEnvelope(input) + t))
            == After(Extract(noise).envelopes, Extract(WireContent(input) + t))
  {
    hide Action, Extract, ExtractAt, Sendable, TagFits, Settled, At, Layout, Header, BuildEnvelope, Readable;
    var w, h := BuildEnvelope(input), Header(WireAttrs(input));
    WireIsSkipped(input);
    AtLeft(w, t, MARKER, 0);
    ActionStable(w, t);
    ReachedBehindNoise(noise, w + t);
    WireIsLayout(input);
    WireAttrsReadable(input);
    LayoutAfterHead(input, t);
    HeaderShape(WireAttrs(input));
    ClearIfNoChar(h[1..], WireContent(input) + t, MARKER);
    ExtractPast(h[1..], WireContent(input) + t);
  }

  lemma LayoutAfterHead(input: EnvelopeInput, t: string)
    ensures |Header(WireAttrs(input))| >= 1 && |WireContent(input)| >= 5
    ensures (Layout(WireAttrs(input), WireAttachments(input), "message", Cdata(input.message)) + t)[1..]
         == Header(WireAttrs(input))[1..] + (WireContent(input) + t)
  {
    hide WireAttrs, RenderAttrs, Cdata;
    assert |Open("message")| == 9 && |Open("attachments")| == 13;
  }

  const MESSAGE_START := Open("message") + CDATA_OPEN
  const MESSAGE_END := CDATA_CLOSE + (Close("message") + ("\n" + Close("iap")))

  /** An envelope quoted in the message of such an envelope is extracted as if it had been sent. */
  lemma QuotedIsExtracted(input: EnvelopeInput, pre: string, q: string, post: string, t: string)
    requires Sendable(input) && !TagFits(input) && input.attachments == []
    requires input.message == pre + (q + post) && Absent(input.message, CDATA_CLOSE)
    requires Settled(pre) && Whole(q)
    ensures Extract(BuildEnvelope(input) + t)
         == After(Extract(pre).envelopes + [q], Extract(post + (MESSAGE_END + t)))
  {
    hide Extract, Sendable, TagFits, BuildEnvelope, Whole, Action;
    var rest := pre + (q + (post + (MESSAGE_END + t)));
    NoNoise();
    ContentIsScanned("", input, t);
    AfterNothing(Extract(WireContent(input) + t));
    assert "" + (BuildEnvelope(input) + t) == BuildEnvelope(input) + t;
    PlainContent(input, pre, q, post, t);
    MessageStartIsClear(rest);
    ExtractPast(MESSAGE_START, rest);
    WholeBehindNoise(pre, q, post + (MESSAGE_END + t));
  }

  lemma NoNoise()
    ensures Settled("") && Extract("").envelopes == []
  {
    FalseStartsYieldNothing("");
  }

  lemma PlainContent(input: EnvelopeInput, pre: string, q: string, post: string, t: string)
    requires input.attachments == [] && input.message == pre + (q + post) && Absent(input.message, CDATA_CLOSE)
    ensures WireContent(input) + t == MESSAGE_START + (pre + (q + (post + (MESSAGE_END + t))))
  {
    var m := input.message;
    ReplaceAbsent(m, CDATA_CLOSE, CDATA_SPLIT);
    hide ReplaceAll, Open, Close, Absent;
    GroupContent(Open("message"), CDATA_OPEN, m, CDATA_CLOSE, Close("message"), "\n" + Close("iap"), t);
    GroupMessage(MESSAGE_START, pre, q, post, MESSAGE_END + t);
  }

  lemma GroupContent(a: string, b: string, m: string, c: string, d: string, e: string, t: string)
    ensures (a + ((b + m + c) + (d + e))) + t == (a + b) + (m + ((c + (d + e)) + t))
  {
  }

  lemma GroupMessage(a: string, pre: string, q: string, post: string, t: string)
    ensures a + ((pre + (q + post)) + t) == a + (pre + (q + (post + t)))
  {
  }

  lemma MessageStartIsClear(t: string)
    ensures Clear(MESSAGE_START, t, MARKER)
  {
    forall i: nat | i < |MESSAGE_START|
      ensures !At(MESSAGE_START + t, MARKER, i)
    {
      Mismatch(MESSAGE_START + t, MARKER, i, if i == 0 || i == 9 then 1 else 0);
    }
  }

  lemma {:induction false} QuotesEscapeToSix(n: nat)
    ensures |EscapeAttr(seq(n, _ => '"'))| == 6 * n
  {
    var s := seq(n, _ => '"');
    EscapeAttrIsEscaped(s);
    if n > 0 {
      var rest := seq((n - 1) as nat, _ => '"');
      assert s[1..] == rest;
      QuotesEscapeToSix(n - 1);
      EscapeAttrIsEscaped(rest);
    }
  }

  /** A topic of two hundred quotes, well inside the topic limit, makes an envelope no stream delivers. */
  lemma LongTopicIsDropped(input: EnvelopeInput)
    requires Sendable(input) && input.topic == Some(seq(200, _ => '"'))
    ensures !TagFits(input) && forall s :: BuildEnvelope(input) !in Extract(s).envelopes
  {
    var topic := seq(200, _ => '"');
    QuotesEscapeToSix(200);
    assert WireTopic(input.topic) == Some(topic);
    var attrs := WireAttrs(input);
    assert attrs[|attrs| - 1] == Attr("topic", topic);
    RenderedAttrFits(attrs, |attrs| - 1);
    ExtractedIffTagFits(input);
  }

  lemma {:induction false} RenderedAttrFits(attrs: seq<Attr>, i: nat)
    requires i < |attrs|
    ensures |EscapeAttr(attrs[i].value)| <= |RenderAttrs(attrs)|
  {
    hide *;
    RenderedHeadFits(attrs);
    if i > 0 {
      RenderedAttrFits(attrs[1..], i - 1);
    }
  }

  lemma RenderedHeadFits(attrs: seq<Attr>)
    requires attrs != []
    ensures |EscapeAttr(attrs[0].value)| <= |RenderAttrs(attrs)|
    ensures |attrs| > 1 ==> |RenderAttrs(attrs[1..])| <= |RenderAttrs(attrs)|
  {
    RenderAttrsCons(attrs);
    hide RenderAttrs, EscapeAttr;
  }
}
