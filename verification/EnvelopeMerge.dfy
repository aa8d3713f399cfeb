/** Prose that opens an envelope and does not finish it: the next envelope may be taken for its remainder. */
module EnvelopeMerge {
  import opened Text
  import opened EnvelopeCodec
  import opened EnvelopeAttributes
  import opened EnvelopeRoundTrip
  import opened EnvelopeStream

  // ---------------------------------------------------------------- the next close tag ends it

  /** A marker with no closing tag and no CDATA section behind it. */
  ghost predicate LeftOpen(x: string) {
    At(x, MARKER, 0) && Absent(x, Close("iap")) && Absent(x, CDATA_OPEN)
  }

  /** An envelope left open ends where the next built envelope ends: the two are taken as one when they decode
      together, and the marker is skipped otherwise. */
  lemma LeftOpenEndsWithNext(x: string, input: EnvelopeInput, t: string)
    requires LeftOpen(x) && Sendable(input)
    ensures var w := BuildEnvelope(input);
            At(x + (w + t), MARKER, 0)
            && Action(x + (w + t))
            == if OpenTagVerdict(x + w) == ValidTag && DecodeEnvelope(x + w).Ok? then Take(|x| + |w|) else Skip
  {
    hide BuildEnvelope, OpenTagVerdict, OutsideCdata, DecodeEnvelope, ExtractAt, Extract, At, Sendable;
    var w := BuildEnvelope(input);
    WireTag(input);
    AtLeft(x, w, MARKER, 0);
    AtLeft(x, w + t, MARKER, 0);
    NextClose(x, input, t);
    VerdictOfBoth(x, w, t, input);
    TakeBoth(x, w, t);
  }

  lemma NextClose(x: string, input: EnvelopeInput, t: string)
    requires LeftOpen(x) && Sendable(input)
    ensures var w := BuildEnvelope(input);
            |x| >= 5 && |w| >= 11 && OutsideCdata((x + (w + t))[5..], Close("iap")) == Some(|x| + |w| - 11)
  {
    hide BuildEnvelope, OutsideCdata, At, Sendable, Close, Marker, Absent, Clear;
    var w, close := BuildEnvelope(input), Close("iap");
    MarkerHead(x);
    CloseIsMarker();
    WireTag(input);
    WireClose(input);
    WireCloseWhole(input);
    OutsideStable(w, t, close);
    OpenerIsMarker();
    SamePrefix(w, t, 1);
    assert (w + t)[0] == (w + t)[..1][0] == w[..1][0];
    StillAbsent(x, 5, close);
    StillAbsent(x, 5, CDATA_OPEN);
    MarkerDoesNotStraddle(x[5..], w + t, close);
    MarkerDoesNotStraddle(x[5..], w + t, CDATA_OPEN);
    Slices(x, w + t, 5);
    hide *;
    ScanPastText(x[5..], w + t, close);
  }

  lemma OpenerIsMarker()
    ensures Marker(CDATA_OPEN)
  {
  }

  lemma StillAbsent(x: string, k: nat, p: string)
    requires Absent(x, p) && k <= |x|
    ensures Absent(x[k..], p)
  {
    hide At;
    forall i: nat
      ensures !At(x[k..], p, i)
    {
      AtDrop(x, p, k, i);
    }
  }

  lemma WireCloseWhole(input: EnvelopeInput)
    requires Sendable(input)
    ensures |BuildEnvelope(input)| >= 11
    ensures OutsideCdata(BuildEnvelope(input), Close("iap")) == Some(|BuildEnvelope(input)| - 6)
  {
    hide OutsideCdata, Layout, BuildEnvelope, Readable, Sendable, WireAttrs, Join, Cdata, Close, Absent;
    WireIsLayout(input);
    WireAttrsReadable(input);
    WireClose(input);
    var a, av, body := WireAttachments(input), Join(input.attachments, "\n"), Cdata(input.message);
    hide *;
    WireBodies(input);
    IapIsNoBodyTag();
    ScanToMessage(WireAttrs(input), a, av, "message", body, Close("iap"));
    CloseOfMessage(body, input.message);
  }

  /** The printed texts of a built envelope stand for what was sent. */
  lemma WireBodies(input: EnvelopeInput)
    ensures Stands("message", Cdata(input.message), input.message)
    ensures var a := WireAttachments(input); a.Some? ==> Carries(a.value, Join(input.attachments, "\n"))
  {
    hide Cdata, Join, Stands;
    CarriesStands("message", Cdata(input.message), input.message);
  }

  lemma VerdictOfBoth(x: string, w: string, t: string, input: EnvelopeInput)
    requires At(x + w, MARKER, 0) && w == BuildEnvelope(input) && Sendable(input)
    ensures OpenTagVerdict(x + w) != IncompleteTag
    ensures OpenTagVerdict(x + (w + t)) == OpenTagVerdict(x + w)
  {
    hide BuildEnvelope, OpenTagVerdict, At, Sendable, IndexOf, MatchOpenTag, Absent;
    WireTag(input);
    OpenTagNeedsAngle(w);
    var k := IndexOf(w, ">").value;
    AtRight(x, w, ">", |x| + k);
    IndexOfIsFirst(x + w, ">");
    AngleSettles(x + w, |x| + k);
    assert x + w + t == x + (w + t);
    VerdictStable(x + w, t);
  }

  lemma AngleSettles(s: string, k: nat)
    requires At(s, ">", k)
    ensures OpenTagVerdict(s) != IncompleteTag
  {
    hide At, IndexOf, MatchOpenTag, HasKey;
    IndexOfIsFirst(s, ">");
  }

  lemma TakeBoth(x: string, w: string, t: string)
    requires At(x + (w + t), MARKER, 0) && |x| >= 5 && |w| >= 11
    requires OutsideCdata((x + (w + t))[5..], Close("iap")) == Some(|x| + |w| - 11)
    requires OpenTagVerdict(x + (w + t)) == OpenTagVerdict(x + w) != IncompleteTag
    ensures Action(x + (w + t))
         == if OpenTagVerdict(x + w) == ValidTag && DecodeEnvelope(x + w).Ok? then Take(|x| + |w|) else Skip
  {
    hide OpenTagVerdict, OutsideCdata, DecodeEnvelope, ExtractAt, Extract, At, Close;
    assert x + (w + t) == (x + w) + t;
    SamePrefix(x + w, t, |x + w|);
    AppendNothing(x + w);
    SamePrefix(x + w, "", |x + w|);
  }

  // ---------------------------------------------------------------- a marker without its angle

  /** What the decoder takes for the attributes: the prose, and the whole open tag behind it. */
  function MergedAttrs(x: string, input: EnvelopeInput): string
    requires |x| >= 4
  {
    x[4 + LeadingSpaces(x[4..])..] + ("<iap " + RenderAttrs(WireAttrs(input)))
  }

  lemma LeadingSpacesBefore(s: string, t: string)
    requires t != "" && !IsSpace(t[0])
    ensures LeadingSpaces(s + t) == LeadingSpaces(s)
  {
    hide IsSpace;
    if s == "" {
      assert s + t == t;
    } else if IsSpace(s[0]) {
      assert (s + t)[1..] == s[1..] + t;
      LeadingSpacesBefore(s[1..], t);
    }
  }

  /** The open tag of a built envelope and what follows it. */
  lemma WireHead(input: EnvelopeInput) returns (rest: string)
    ensures BuildEnvelope(input) == "<iap " + (RenderAttrs(WireAttrs(input)) + (">" + rest))
  {
    hide RenderAttrs, WireAttrs, Content, BuildEnvelope;
    WireIsLayout(input);
    rest := "\n" + IAP_INSTRUCTION + "\n" + WireContent(input);
    HeaderGroups(WireAttrs(input), WireContent(input));
    AngleGroups("<iap", " ", RenderAttrs(WireAttrs(input)) + (">" + rest));
  }

  lemma AngleGroups(a: string, b: string, t: string)
    ensures a + (b + t) == (a + b) + t
  {
  }

  lemma MergedTag(x: string, input: EnvelopeInput)
    requires At(x, MARKER, 0) && '>' !in x && Sendable(input)
    ensures |x| >= 5
    ensures MatchOpenTag(x + BuildEnvelope(input))
         == Some(OpenTag(MergedAttrs(x, input), |x| + |OpenTagText(WireAttrs(input))|))
  {
    hide BuildEnvelope, RenderAttrs, WireAttrs, MatchOpenTag, IndexOf, Sendable, Readable, IsSpace, LeadingSpaces, At;
    var w, r := BuildEnvelope(input), RenderAttrs(WireAttrs(input));
    MarkerHead(x);
    AtLeft(x, w, "<iap", 0);
    WireTag(input);
    OpenTagLength(WireAttrs(input));
    var rest := WireHead(input);
    WireAttrsReadable(input);
    NoAngleInAttrs(WireAttrs(input));
    AngleIsNoSpace();
    var n := LeadingSpaces(x[4..]);
    LeadingSpacesBefore(x[4..], w);
    Slices(x, w, 4);
    Slices(x, w, 4 + n);
    var attrs := MergedAttrs(x, input);
    Regroups(x[4 + n..], "<iap ", r, ">" + rest);
    NoAngle(x, 4 + n, r);
    AngleEnds(attrs, rest);
    assert n >= 1 && |attrs| == |x| - 4 - n + 5 + |r|;
    OpenTagIs(x + w, n, |attrs|, attrs);
  }

  lemma AngleEnds(attrs: string, rest: string)
    requires '>' !in attrs
    ensures IndexOf(attrs + (">" + rest), ">") == Some(|attrs|) && (attrs + (">" + rest))[..|attrs|] == attrs
  {
    hide IndexOf;
    ClearIfNoChar(attrs, ">" + rest, ">");
    IndexOfAfter(attrs, ">" + rest, ">");
    AtHead(">", rest);
    IndexOfIs(">" + rest, ">", 0);
  }

  lemma AngleIsNoSpace()
    ensures !IsSpace('<')
  {
  }

  lemma Regroups(a: string, b: string, c: string, d: string)
    ensures a + (b + (c + d)) == (a + (b + c)) + d
  {
  }

  lemma NoAngle(x: string, k: nat, r: string)
    requires k <= |x| && '>' !in x && '>' !in r
    ensures '>' !in x[k..] + ("<iap " + r)
  {
  }

  lemma KeyStays(u: string, s: string, key: string)
    requires Includes(s, key)
    ensures Includes(u + s, key)
  {
    hide At;
    var i: nat :| i <= |s| && At(s, key, i);
    AtRight(u, s, key, |u| + i);
  }

  lemma MergedNamesBoth(x: string, input: EnvelopeInput)
    requires |x| >= 4
    ensures HasKey(MergedAttrs(x, input), "from-personality", "from")
    ensures HasKey(MergedAttrs(x, input), "from-runtime", "runtime")
  {
    WireKeys(input);
    hide Includes, AnchoredKey, RenderAttrs, WireAttrs;
    var u, r := x[4 + LeadingSpaces(x[4..])..], RenderAttrs(WireAttrs(input));
    KeyStays("<iap ", r, "from-personality" + "=\"");
    KeyStays("<iap ", r, "from-runtime" + "=\"");
    KeyStays(u, "<iap " + r, "from-personality" + "=\"");
    KeyStays(u, "<iap " + r, "from-runtime" + "=\"");
  }

  /** Prose without a '>' leaves the verdict to the length of the merged tag. */
  lemma MergedVerdictIff(x: string, input: EnvelopeInput)
    requires At(x, MARKER, 0) && '>' !in x && Sendable(input)
    ensures OpenTagVerdict(x + BuildEnvelope(input)) == ValidTag <==>
            |x| + |OpenTagText(WireAttrs(input))| <= MAX_OPEN_TAG_LEN
  {
    MergedTag(x, input);
    MergedNamesBoth(x, input);
    hide BuildEnvelope, OpenTagText, WireAttrs, MergedAttrs, MatchOpenTag, HasKey, Sendable, At;
  }

  // ---------------------------------------------------------------- what the merged text decodes to

  lemma NoTagWithoutAngle(x: string, tag: string)
    requires '>' !in x
    ensures Absent(x, Open(tag)) && Absent(x, Close(tag))
  {
    forall i: nat, p | p == Open(tag) || p == Close(tag)
      ensures !At(x, p, i)
    {
      assert p[|p| - 1] == '>';
      if i + |p| <= |x| {
        Mismatch(x, p, i, |p| - 1);
      }
    }
  }

  /** Elements are found where they are in the built envelope. */
  lemma SameContent(x: string, w: string, tag: string)
    requires '>' !in x && Absent(x, CDATA_OPEN) && w != "" && w[0] == '<' && BodyTag(tag)
    ensures TagContent(x + w, tag) == TagContent(w, tag)
  {
    hide OutsideCdata, ReadSections, Absent, Searched, BodyTag, At, Open, Close;
    BodyTagName(tag);
    TagShape(tag);
    NoTagWithoutAngle(x, tag);
    OpenerIsMarker();
    MarkerDoesNotStraddle(x, w, Open(tag));
    MarkerDoesNotStraddle(x, w, CDATA_OPEN);
    ScanPastText(x, w, Open(tag));
    if OutsideCdata(w, Open(tag)).Some? {
      var k := OutsideCdata(w, Open(tag)).value;
      DropPast(x, w, k + |Open(tag)|);
    }
  }

  lemma DropPast(x: string, w: string, k: nat)
    requires k <= |w|
    ensures (x + w)[|x| + k..] == w[k..]
  {
  }

  function SentAttachments(input: EnvelopeInput): Option<string> {
    if input.attachments == [] then None else Some(Join(input.attachments, "\n"))
  }

  lemma WireElements(input: EnvelopeInput)
    requires Sendable(input)
    ensures TagContent(BuildEnvelope(input), "message") == Some(input.message)
    ensures TagContent(BuildEnvelope(input), "attachments") == SentAttachments(input)
    ensures Trim(BuildEnvelope(input)) == BuildEnvelope(input)
  {
    WireIsLayout(input);
    WireAttrsReadable(input);
    var a, av, body := WireAttachments(input), Join(input.attachments, "\n"), Cdata(input.message);
    hide *;
    WireBodies(input);
    LayoutIsTrimmed(WireAttrs(input), a, "message", body);
    ReadMessage(WireAttrs(input), a, av, "message", body, input.message);
    ReadAttachments(WireAttrs(input), a, av, "message", body, input.message);
  }

  lemma WireEnds(input: EnvelopeInput)
    requires Sendable(input)
    ensures BuildEnvelope(input) != "" && BuildEnvelope(input)[|BuildEnvelope(input)| - 1] == '>'
  {
    hide BuildEnvelope, OutsideCdata, Sendable;
    WireCloseWhole(input);
    var w := BuildEnvelope(input);
    assert w[|w| - 6..|w|][5] == w[|w| - 1];
  }

  /** The message and the attachments of the built envelope, under the merged attributes. */
  lemma MergedDecodes(x: string, input: EnvelopeInput)
    requires At(x, MARKER, 0) && '>' !in x && Absent(x, CDATA_OPEN) && Sendable(input)
    ensures |x| >= 5
    ensures DecodeEnvelope(x + BuildEnvelope(input))
         == DecodeFields(MergedAttrs(x, input), Some(input.message), SentAttachments(input))
  {
    hide BuildEnvelope, OutsideCdata, TagContent, MatchOpenTag, Sendable, DecodeFields, MergedAttrs, Trim, Absent, At,
         WireAttrs, OpenTagText;
    MarkerHead(x);
    WireTag(input);
    MergedTag(x, input);
    WireElements(input);
    WireEnds(input);
    EndsTrimmed(x, BuildEnvelope(input));
    SameContent(x, BuildEnvelope(input), "message");
    SameContent(x, BuildEnvelope(input), "attachments");
  }

  lemma WireDecodes(input: EnvelopeInput)
    requires Sendable(input)
    ensures DecodeEnvelope(BuildEnvelope(input))
         == DecodeFields(RenderAttrs(WireAttrs(input)), Some(input.message), SentAttachments(input))
  {
    hide BuildEnvelope, TagContent, MatchOpenTag, Sendable, DecodeFields, Trim, WireAttrs, RenderAttrs, OpenTagText;
    WireTag(input);
    WireElements(input);
  }

  // ---------------------------------------------------------------- the next envelope is swallowed

  /** The attribute text names a sender. */
  predicate NamesSender(attrs: string) {
    NonEmpty(AttrValue(attrs, "from").OrElse(AttrValue(attrs, "from-personality"))).Some?
    && NonEmpty(AttrValue(attrs, "runtime").OrElse(AttrValue(attrs, "from-runtime"))).Some?
  }

  predicate Swallows(x: string, input: EnvelopeInput)
    requires |x| >= 4
  {
    |x| + |OpenTagText(WireAttrs(input))| <= MAX_OPEN_TAG_LEN && NamesSender(MergedAttrs(x, input))
  }

  /** A marker that never sees its '>' swallows the envelope behind it, and one text comes out for both, exactly when
      the merged open tag is within the bound and names a sender; otherwise the envelope comes out as it was sent. */
  lemma OpenMarkerSwallowsIff(noise: string, x: string, input: EnvelopeInput, t: string)
    requires Settled(noise) && Sendable(input) && TagFits(input)
    requires At(x, MARKER, 0) && '>' !in x && Absent(x, CDATA_OPEN)
    requires |x| >= 4 && Absent(x[1..], MARKER)
    ensures var w := BuildEnvelope(input);
            Extract(noise + (x + (w + t)))
            == After(Extract(noise).envelopes + [if Swallows(x, input) then x + w else w], Extract(t))
  {
    hide Action, Extract, ExtractAt, At, Settled, BuildEnvelope, Absent, OpenTagVerdict, DecodeEnvelope, MergedAttrs,
         WireAttrs, OpenTagText, NamesSender, Sendable, TagFits;
    var w := BuildEnvelope(input);
    SwallowAction(x, input, t);
    ReachedBehindNoise(noise, x + (w + t));
    if Swallows(x, input) {
      assert x + (w + t) == (x + w) + t;
      TakesFirst(x + w, t);
      AfterAfter(Extract(noise).envelopes, [x + w], Extract(t));
    } else {
      SkipsFirst(x, w, t);
      LoneSettled(x);
      FoundBehindNoise(x[1..], input, t);
      assert [] + [w] == [w];
      AfterAfter(Extract(noise).envelopes, [w], Extract(t));
    }
  }

  lemma SwallowAction(x: string, input: EnvelopeInput, t: string)
    requires At(x, MARKER, 0) && '>' !in x && Absent(x, CDATA_OPEN) && Sendable(input) && |x| >= 4
    ensures var w := BuildEnvelope(input);
            At(x + (w + t), MARKER, 0) && Action(x + (w + t)) == if Swallows(x, input) then Take(|x| + |w|) else Skip
  {
    hide Action, At, BuildEnvelope, Absent, OpenTagVerdict, DecodeEnvelope, MergedAttrs, WireAttrs, OpenTagText,
         Sendable, AttrValue;
    NoTagWithoutAngle(x, "iap");
    LeftOpenEndsWithNext(x, input, t);
    MergedVerdictIff(x, input);
    MergedDecodes(x, input);
  }

  lemma TakesFirst(c: string, t: string)
    requires At(c + t, MARKER, 0) && Action(c + t) == Take(|c|)
    ensures ExtractAt(c + t) == After([c], Extract(t))
  {
    hide OpenTagVerdict, OutsideCdata, DecodeEnvelope, ExtractAt, Extract, At;
    SamePrefix(c, t, |c|);
    Slices(c, t, |c|);
    AppendNothing(c);
    SamePrefix(c, "", |c|);
  }

  lemma SkipsFirst(x: string, w: string, t: string)
    requires x != "" && At(x + (w + t), MARKER, 0) && Action(x + (w + t)) == Skip
    ensures ExtractAt(x + (w + t)) == Extract(x[1..] + (w + t))
  {
    hide OpenTagVerdict, OutsideCdata, DecodeEnvelope, ExtractAt, Extract, At;
    Slices(x, w + t, 1);
  }

  lemma LoneSettled(x: string)
    requires x != "" && Absent(x[1..], MARKER)
    ensures Settled(x[1..]) && Extract(x[1..]).envelopes == []
  {
    BeforeMarker(x[1..]);
    IndexOfIsFirst(x[1..], MARKER);
    FalseStartsYieldNothing(x[1..]);
  }

  // ---------------------------------------------------------------- prose, and a name of its own

  /** No key is read from text without a '=', nor across the '<' of the tag behind it. */
  lemma NoMatchInProse(p: string, t: string, wanted: string)
    requires '=' !in p && PlainName(wanted)
    ensures AttrMatch(p + ("<iap " + t), wanted) == None
  {
    hide IndexOf;
    var s, key := p + ("<iap " + t), wanted + "=\"";
    if |wanted| < |p| {
      assert s[|wanted|] == p[|wanted|];
      Mismatch(s, key, 0, |wanted|);
    } else if |p| < |key| {
      assert s[|p|] == '<';
      Mismatch(s, key, 0, |p|);
    }
  }

  /** A lookup that has come to the prose goes on to the open tag behind it. */
  lemma ScanProse(p: string, attrs: seq<Attr>, wanted: string)
    requires '=' !in p && PlainName(wanted) && attrs != [] && Readable(attrs)
    ensures AttrScan(p + ("<iap " + RenderAttrs(attrs)), wanted)
         == AttrMatch(RenderAttrs(attrs), wanted).OrElse(AttrScan(RenderAttrs(attrs), wanted))
  {
    hide AttrMatch, AttrScan, RenderAttrs, Readable, PlainName, IsSpace;
    var r := RenderAttrs(attrs);
    forall i: nat | i < |p| && IsSpace(p[i])
      ensures AttrMatch((p + ("<iap " + r))[i + 1..], wanted) == None
    {
      Slices(p, "<iap " + r, i + 1);
      NoMatchInProse(p[i + 1..], r, wanted);
    }
    ScanPast(p, "<iap " + r, wanted);
    NoSpaceInMarker();
    ScanPast("<iap", " " + r, wanted);
    assert "<iap " + r == "<iap" + (" " + r);
    ScanSeparator(r, wanted);
  }

  lemma NoSpaceInMarker()
    ensures forall i :: 0 <= i < 4 ==> !IsSpace("<iap"[i])
  {
  }

  /** Through prose without a '=' every attribute of the envelope behind it is read. */
  lemma ProseAttr(p: string, attrs: seq<Attr>, wanted: string)
    requires '=' !in p && PlainName(wanted) && attrs != [] && Readable(attrs)
    ensures AttrValue(p + ("<iap " + RenderAttrs(attrs)), wanted) == AttrValue(RenderAttrs(attrs), wanted)
  {
    hide AttrMatch, AttrScan, RenderAttrs, Readable, PlainName, UnescapeAttr;
    NoMatchInProse(p, RenderAttrs(attrs), wanted);
    ScanProse(p, attrs, wanted);
  }

  predicate SameButSender(a: string, b: string) {
    forall n | n in {"runtime", "from-runtime", "intelligence", "from-intelligence", "ts", "topic"} ::
      AttrValue(a, n) == AttrValue(b, n)
  }

  lemma SameFields(a: string, b: string, message: Option<string>, attachments: Option<string>)
    requires AttrValue(a, "from") == AttrValue(b, "from")
    requires AttrValue(a, "from-personality") == AttrValue(b, "from-personality")
    requires SameButSender(a, b)
    ensures DecodeFields(a, message, attachments) == DecodeFields(b, message, attachments)
  {
    hide AttrValue, AttachmentList, NormalizeIntelligence;
  }

  /** Ordinary prose behind the marker, without '=' and '>', swallows the next envelope exactly when the merged tag is
      within the bound; what comes out then decodes to that envelope, prose and all. */
  lemma ProseSwallowsIff(x: string, input: EnvelopeInput)
    requires At(x, MARKER, 0) && '>' !in x && '=' !in x && Absent(x, CDATA_OPEN) && Sendable(input)
    ensures |x| >= 4 && (Swallows(x, input) <==> |x| + |OpenTagText(WireAttrs(input))| <= MAX_OPEN_TAG_LEN)
    ensures DecodeEnvelope(x + BuildEnvelope(input)) == Ok(Received(input))
  {
    hide BuildEnvelope, DecodeEnvelope, WireAttrs, RenderAttrs, OpenTagText, Sendable, AttrValue, Absent, At, Readable,
         PlainName, DecodeFields, Received;
    MergedDecodes(x, input);
    WireDecodes(input);
    WireRoundTrip(input);
    WireAttrsReadable(input);
    CodecNames();
    var p, attrs := x[4 + LeadingSpaces(x[4..])..], WireAttrs(input);
    assert '=' !in p;
    ProseAttr(p, attrs, "from");
    ProseAttr(p, attrs, "from-personality");
    forall n | n in {"runtime", "from-runtime", "intelligence", "from-intelligence", "ts", "topic"}
      ensures AttrValue(MergedAttrs(x, input), n) == AttrValue(RenderAttrs(attrs), n)
    {
      ProseAttr(p, attrs, n);
    }
    hide MergedAttrs;
    SameFields(MergedAttrs(x, input), RenderAttrs(attrs), Some(input.message), SentAttachments(input));
    OkNamesSender(MergedAttrs(x, input), Some(input.message), SentAttachments(input));
  }

  lemma OkNamesSender(attrs: string, message: Option<string>, attachments: Option<string>)
    requires message.Some?
    ensures DecodeFields(attrs, message, attachments).Ok? <==> NamesSender(attrs)
  {
    hide AttrValue, AttachmentList, NormalizeIntelligence;
  }

  /** Prose that names a sender of its own. */
  function NamedStart(name: string): string {
    "<iap " + (RenderAttr(Attr("from-personality", name)) + " ")
  }

  /** The first attribute is that name, and every other one is the envelope's. */
  lemma NamedAttr(name: string, attrs: seq<Attr>, wanted: string)
    requires QuietValue(name) && PlainName(wanted) && attrs != [] && Readable(attrs)
    ensures AttrValue(RenderAttr(Attr("from-personality", name)) + (" " + ("<iap " + RenderAttrs(attrs))), wanted)
         == if wanted == "from-personality" then Some(name) else AttrValue(RenderAttrs(attrs), wanted)
  {
    CodecNames();
    QuietEscaped(name);
    UnescapeEscape(name);
    hide AttrMatch, AttrScan, RenderAttrs, Readable, PlainName, UnescapeAttr, EscapeAttr, IsSpace, QuietValue;
    var u, t := RenderAttr(Attr("from-personality", name)), " " + ("<iap " + RenderAttrs(attrs));
    assert u == RawAttr("from-personality", EscapeAttr(name));
    MatchAtAttr("from-personality", EscapeAttr(name), t, wanted);
    forall i: nat | i < |u| && IsSpace(u[i])
      ensures AttrMatch((u + t)[i + 1..], wanted) == None
    {
      NoMatchInside("from-personality", EscapeAttr(name), t, wanted, i);
    }
    ScanPast(u, t, wanted);
    ScanProse(" ", attrs, wanted);
  }

  lemma NamedStartShape(name: string, input: EnvelopeInput)
    requires QuietValue(name)
    ensures var x := NamedStart(name);
            && At(x, MARKER, 0) && '>' !in x && Absent(x, CDATA_OPEN) && |x| >= 5 && Absent(x[1..], MARKER)
            && MergedAttrs(x, input)
            == RenderAttr(Attr("from-personality", name)) + (" " + ("<iap " + RenderAttrs(WireAttrs(input))))
  {
    hide RenderAttrs, RenderAttr, WireAttrs, At, Absent, IsSpace, LeadingSpaces;
    var a := RenderAttr(Attr("from-personality", name));
    NamedAttrText(name);
    StartShape(a);
    AngleGroups(a, " ", "<iap " + RenderAttrs(WireAttrs(input)));
  }

  lemma NamedAttrText(name: string)
    ensures var a := RenderAttr(Attr("from-personality", name)); a != "" && a[0] == 'f' && '<' !in a && '>' !in a
  {
    EscapeAttrIsEscaped(name);
    EscapedChars(name);
    hide EscapeAttr, Escaped;
  }

  lemma StartShape(a: string)
    requires a != "" && a[0] == 'f' && '<' !in a && '>' !in a
    ensures var x := "<iap " + (a + " ");
            && At(x, MARKER, 0) && '>' !in x && Absent(x, CDATA_OPEN) && |x| >= 5 && Absent(x[1..], MARKER)
            && LeadingSpaces(x[4..]) == 1 && x[5..] == a + " "
  {
    hide At, Absent, LeadingSpaces;
    var x := "<iap " + (a + " ");
    AtHead("<iap ", a + " ");
    OneSpaceAhead(a);
    StartTail(a);
    hide *;
    NoAngleAbsent(x[1..], MARKER);
    NoAngleAbsent(x[1..], CDATA_OPEN);
    FirstIsMarker(x);
  }

  lemma StartTail(a: string)
    requires '<' !in a && '>' !in a
    ensures var x := "<iap " + (a + " ");
            |x| >= 5 && x[1..] == "iap " + (a + " ") && '<' !in x[1..] && '>' !in x && x[4..] == " " + (a + " ")
  {
  }

  lemma NoAngleAbsent(u: string, p: string)
    requires '<' !in u && (p == MARKER || p == CDATA_OPEN)
    ensures Absent(u, p)
  {
    hide At;
    ClearIfNoChar(u, "", p);
    ClearIsAbsent(u, p);
  }

  lemma ClearIsAbsent(u: string, p: string)
    requires p != "" && Clear(u, "", p)
    ensures Absent(u, p)
  {
    AppendNothing(u);
  }

  lemma FirstIsMarker(x: string)
    requires At(x, MARKER, 0) && Absent(x[1..], CDATA_OPEN)
    ensures Absent(x, CDATA_OPEN)
  {
    MarkerHead(x);
    Mismatch(x, CDATA_OPEN, 0, 1);
    hide At;
    forall i: nat | i > 0
      ensures !At(x, CDATA_OPEN, i)
    {
      AtDrop(x, CDATA_OPEN, 1, i - 1);
    }
  }

  lemma OneSpaceAhead(a: string)
    requires a != "" && a[0] == 'f'
    ensures LeadingSpaces(" " + (a + " ")) == 1
  {
    assert !IsSpace((a + " ")[0]);
    hide IsSpace;
    OneSpace(a + " ");
  }

  lemma OtherSender(a: string, b: string, name: string, message: Option<string>, attachments: Option<string>)
    requires AttrValue(a, "from") == None && AttrValue(a, "from-personality") == Some(name) && name != ""
    requires SameButSender(a, b)
    requires DecodeFields(b, message, attachments).Ok?
    ensures DecodeFields(a, message, attachments)
         == Ok(DecodeFields(b, message, attachments).envelope.(fromPersonality := name))
  {
    hide AttrValue, AttachmentList, NormalizeIntelligence;
  }

  /** A start that names another sender takes the next envelope for its own, within the same bound: message, runtime
      and all the rest come out under that name. */
  lemma NamedStartMisattributes(name: string, input: EnvelopeInput)
    requires name != "" && QuietValue(name) && Sendable(input)
    ensures var x := NamedStart(name);
            && At(x, MARKER, 0) && '>' !in x && Absent(x, CDATA_OPEN) && |x| >= 4 && Absent(x[1..], MARKER)
            && (Swallows(x, input) <==> |x| + |OpenTagText(WireAttrs(input))| <= MAX_OPEN_TAG_LEN)
            && DecodeEnvelope(x + BuildEnvelope(input)) == Ok(Received(input).(fromPersonality := name))
  {
    NamedStartShape(name, input);
    CodecNames();
    hide BuildEnvelope, DecodeEnvelope, WireAttrs, RenderAttrs, RenderAttr, OpenTagText, Sendable, AttrValue, Absent,
         At, Readable, PlainName, QuietValue, DecodeFields, Received, NamedStart, MergedAttrs, Lookup;
    var x := NamedStart(name);
    MergedDecodes(x, input);
    WireDecodes(input);
    WireRoundTrip(input);
    WireAttrsReadable(input);
    WireLookups(input);
    var attrs := WireAttrs(input);
    AttrValueIsLookup(attrs, "from");
    NamedAttr(name, attrs, "from");
    NamedAttr(name, attrs, "from-personality");
    forall n | n in {"runtime", "from-runtime", "intelligence", "from-intelligence", "ts", "topic"}
      ensures AttrValue(MergedAttrs(x, input), n) == AttrValue(RenderAttrs(attrs), n)
    {
      NamedAttr(name, attrs, n);
    }
    OtherSender(MergedAttrs(x, input), RenderAttrs(attrs), name, Some(input.message), SentAttachments(input));
    OkNamesSender(MergedAttrs(x, input), Some(input.message), SentAttachments(input));
    ReceivedSender(input, name);
  }

  lemma ReceivedSender(input: EnvelopeInput, name: string)
    ensures Ok(Received(input)).envelope.(fromPersonality := name) == Received(input).(fromPersonality := name)
  {
  }

  // ---------------------------------------------------------------- an envelope torn inside its message

  /** A built envelope up to where its message is printed. */
  function UpToMessage(input: EnvelopeInput): string {
    Header(WireAttrs(input))
    + ((match WireAttachments(input)
        case None => ""
        case Some(a) => Open("attachments") + a + Close("attachments") + "\n")
       + Open("message"))
  }

  const MESSAGE_TAIL := Close("message") + ("\n" + Close("iap"))
  const BETWEEN := Close("attachments") + "\n" + Open("message")

  lemma LayoutParts(input: EnvelopeInput, body: string)
    ensures Layout(WireAttrs(input), WireAttachments(input), "message", body)
         == UpToMessage(input) + (body + MESSAGE_TAIL)
  {
    hide Header, WireAttrs, Open, Close;
    var h := Header(WireAttrs(input));
    match WireAttachments(input) {
      case None =>
        AppendFront(Open("message"));
        AngleGroups(h, Open("message"), body + MESSAGE_TAIL);
      case Some(a) =>
        PartGroups(h, Open("attachments"), a, Close("attachments"), "\n", Open("message"), body + MESSAGE_TAIL);
    }
  }

  lemma WireParts(input: EnvelopeInput)
    ensures BuildEnvelope(input) == UpToMessage(input) + (Cdata(input.message) + MESSAGE_TAIL)
  {
    hide Layout, UpToMessage, WireAttrs, Cdata, BuildEnvelope;
    WireIsLayout(input);
    LayoutParts(input, Cdata(input.message));
  }

  lemma AppendFront(s: string)
    ensures "" + s == s
  {
  }

  lemma PartGroups(h: string, o: string, a: string, c: string, nl: string, m: string, t: string)
    ensures h + (o + (a + (c + (nl + (m + t))))) == (h + ((o + a + c + nl) + m)) + t
  {
  }

  /** The envelope torn after some of its printed message. */
  function Torn(input: EnvelopeInput, part: string): string {
    UpToMessage(input) + (CDATA_OPEN + part)
  }

  lemma TornIsPrefix(input: EnvelopeInput, part: string)
    requires part <= ReplaceAll(input.message, CDATA_CLOSE, CDATA_SPLIT)
    ensures Torn(input, part) <= BuildEnvelope(input)
  {
    hide UpToMessage, BuildEnvelope, ReplaceAll;
    WireParts(input);
    PrefixOfPrint(UpToMessage(input), CDATA_OPEN, part, ReplaceAll(input.message, CDATA_CLOSE, CDATA_SPLIT),
                  CDATA_CLOSE, MESSAGE_TAIL);
  }

  lemma PrefixOfPrint(u: string, open: string, part: string, whole: string, close: string, t: string)
    requires part <= whole
    ensures u + (open + part) <= u + ((open + whole + close) + t)
  {
    var more := whole[|part|..];
    assert whole == part + more;
    assert u + ((open + (part + more) + close) + t) == (u + (open + part)) + (more + (close + t));
  }

  /** A built envelope up to its first printed text, and that text. */
  function Lead(next: EnvelopeInput): string {
    Header(WireAttrs(next)) + Open(if next.attachments == [] then "message" else "attachments")
  }

  function LeadText(next: EnvelopeInput): string {
    if next.attachments == [] then next.message else Join(next.attachments, "\n")
  }

  /** What the open section of a torn envelope takes over: its own part, and the next envelope up to the end of its
      first printed text. */
  function TakenText(part: string, next: EnvelopeInput): string {
    (part + Lead(next) + CDATA_OPEN) + LeadText(next)
  }

  /** The message that comes out: with attachments, the next message follows in a section of its own. */
  function TakenOver(part: string, next: EnvelopeInput): string {
    if next.attachments == [] then TakenText(part, next) else TakenText(part, next) + (BETWEEN + next.message)
  }

  /** What stands for it in the stream. */
  function Remainder(part: string, next: EnvelopeInput): string {
    if next.attachments == [] then Cdata(TakenText(part, next))
    else Cdata(TakenText(part, next)) + (BETWEEN + Cdata(next.message))
  }

  /** In the open section nothing before the next message ends it. */
  lemma NoTerminatorBefore(part: string, r: string, tail: string, v: string)
    requires Absent(part, CDATA_CLOSE) && '>' !in r && r != "" && r[|r| - 1] == '"' && ']' !in tail
    ensures Clear(part + ("<iap " + (r + (">" + tail))), v, CDATA_CLOSE)
  {
    hide Absent;
    var p := part + ("<iap " + (r + (">" + tail)));
    var s := p + v;
    forall i: nat | i < |p|
      ensures !At(s, CDATA_CLOSE, i)
    {
      if i + 3 <= |part| {
        PartHasNone(part, i);
        assert s == part + (("<iap " + (r + (">" + tail))) + v);
        AtLeft(part, ("<iap " + (r + (">" + tail))) + v, CDATA_CLOSE, i);
      } else if i < |part| {
        assert s[|part|] == '<';
        Mismatch(s, CDATA_CLOSE, i, |part| - i);
      } else {
        BehindThePart(part, r, tail, v, i);
      }
    }
  }

  lemma PartHasNone(part: string, i: nat)
    requires Absent(part, CDATA_CLOSE)
    ensures !At(part, CDATA_CLOSE, i)
  {
  }

  lemma BehindThePart(part: string, r: string, tail: string, v: string, i: nat)
    requires '>' !in r && r != "" && r[|r| - 1] == '"' && ']' !in tail
    requires |part| <= i < |part + ("<iap " + (r + (">" + tail)))|
    ensures !At(part + ("<iap " + (r + (">" + tail))) + v, CDATA_CLOSE, i)
  {
    hide At;
    var q := "<iap " + (r + (">" + tail));
    var s := part + q + v;
    var k := i - |part|;
    assert s[i] == q[k];
    if k < 5 {
      assert q[k] == "<iap "[k];
      Mismatch(s, CDATA_CLOSE, i, 0);
    } else if k + 2 < 5 + |r| {
      assert s[i + 2] == q[k + 2] == r[k + 2 - 5];
      Mismatch(s, CDATA_CLOSE, i, 2);
    } else if k + 1 < 5 + |r| {
      assert s[i + 1] == q[k + 1] == r[|r| - 1];
      Mismatch(s, CDATA_CLOSE, i, 1);
    } else if k < 5 + |r| {
      assert q[k] == r[|r| - 1];
      Mismatch(s, CDATA_CLOSE, i, 0);
    } else if k == 5 + |r| {
      assert q[k] == '>';
      Mismatch(s, CDATA_CLOSE, i, 0);
    } else {
      assert q[k] == tail[k - 6 - |r|];
      Mismatch(s, CDATA_CLOSE, i, 0);
    }
  }

  lemma {:induction false} AttrsEndInQuote(attrs: seq<Attr>)
    requires attrs != []
    ensures RenderAttrs(attrs) != "" && RenderAttrs(attrs)[|RenderAttrs(attrs)| - 1] == '"'
  {
    RenderAttrsCons(attrs);
    if |attrs| > 1 {
      AttrsEndInQuote(attrs[1..]);
    }
  }

  /** One section: the print of a text behind an open section is the print of the text taken over. */
  lemma OneSection(part: string, next: EnvelopeInput)
    requires Absent(part, CDATA_CLOSE) && Sendable(next)
    ensures (CDATA_OPEN + part) + (Lead(next) + Cdata(LeadText(next))) == Cdata(TakenText(part, next))
  {
    hide RenderAttrs, WireAttrs, ReplaceAll, Absent, Sendable, Readable, Lead, LeadText;
    var r, v := RenderAttrs(WireAttrs(next)), LeadText(next);
    WireAttrsReadable(next);
    NoAngleInAttrs(WireAttrs(next));
    AttrsEndInQuote(WireAttrs(next));
    var tail := LeadShape(next);
    OpenEnds(part, "<iap ", r, ">", tail, CDATA_OPEN);
    NoTerminatorBefore(part, r, tail + CDATA_OPEN, v);
    hide *;
    ReplaceAfter(part + Lead(next) + CDATA_OPEN, v, CDATA_CLOSE, CDATA_SPLIT);
    PrintGroups(CDATA_OPEN, part, Lead(next), ReplaceAll(v, CDATA_CLOSE, CDATA_SPLIT), CDATA_CLOSE);
  }

  lemma LeadShape(next: EnvelopeInput) returns (tail: string)
    ensures Lead(next) == "<iap " + (RenderAttrs(WireAttrs(next)) + (">" + tail)) && ']' !in tail + CDATA_OPEN
  {
    var tag := if next.attachments == [] then "message" else "attachments";
    tail := "\n" + IAP_INSTRUCTION + "\n" + Open(tag);
    NoBracket(tail, tag);
    hide RenderAttrs, WireAttrs, Open;
    StartGroups("<iap ", RenderAttrs(WireAttrs(next)), ">", "\n", IAP_INSTRUCTION, "\n", Open(tag));
  }

  lemma StartGroups(a: string, r: string, b: string, c: string, d: string, e: string, m: string)
    ensures ((a + r + b) + c + d + e) + m == a + (r + (b + (c + d + e + m)))
  {
  }

  lemma NoBracket(tail: string, tag: string)
    requires tail == "\n" + IAP_INSTRUCTION + "\n" + Open(tag) && (tag == "message" || tag == "attachments")
    ensures ']' !in tail + CDATA_OPEN
  {
  }

  lemma OpenEnds(part: string, a: string, r: string, b: string, tail: string, open: string)
    ensures part + (a + (r + (b + tail))) + open == part + (a + (r + (b + (tail + open))))
  {
  }

  lemma PrintGroups(open: string, part: string, u: string, v: string, close: string)
    ensures (open + part) + (u + (open + v + close)) == open + ((part + u + open) + v) + close
  {
  }

  /** The next envelope, from its first printed text on. */
  function LeadTail(next: EnvelopeInput): string {
    if next.attachments == [] then MESSAGE_TAIL else BETWEEN + (Cdata(next.message) + MESSAGE_TAIL)
  }

  lemma LeadParts(next: EnvelopeInput)
    ensures BuildEnvelope(next) == Lead(next) + (Cdata(LeadText(next)) + LeadTail(next))
  {
    hide Header, WireAttrs, Cdata, BuildEnvelope, Open, Close, Join;
    WireIsLayout(next);
    var h := Header(WireAttrs(next));
    if next.attachments == [] {
      AngleGroups(h, Open("message"), Cdata(next.message) + MESSAGE_TAIL);
    } else {
      LeadGroups(h, Open("attachments"), Cdata(LeadText(next)), Close("attachments"), "\n", Open("message"),
                 Cdata(next.message) + MESSAGE_TAIL);
    }
  }

  lemma LeadGroups(h: string, o: string, a: string, c: string, nl: string, m: string, t: string)
    ensures h + (o + (a + (c + (nl + (m + t))))) == (h + o) + (a + ((c + nl + m) + t))
  {
  }

  /** A torn envelope and the whole one behind it have the layout of one envelope of the torn sender. */
  lemma TornReadsAsOne(input: EnvelopeInput, part: string, next: EnvelopeInput)
    requires Absent(part, CDATA_CLOSE) && Sendable(next)
    ensures Torn(input, part) + BuildEnvelope(next)
         == Layout(WireAttrs(input), WireAttachments(input), "message", Remainder(part, next))
  {
    hide BuildEnvelope, UpToMessage, Cdata, TakenText, Lead, LeadText, Absent, Sendable, Layout, WireAttrs;
    LeadParts(next);
    OneSection(part, next);
    LayoutParts(input, Remainder(part, next));
    var u, c := UpToMessage(input), Cdata(LeadText(next));
    TornGroups(u, CDATA_OPEN + part, Lead(next), c, LeadTail(next));
    if next.attachments != [] {
      AngleGroups(Cdata(TakenText(part, next)), BETWEEN, Cdata(next.message));
      SectionsGroup(Cdata(TakenText(part, next)), BETWEEN, Cdata(next.message), MESSAGE_TAIL);
    }
  }

  lemma TornGroups(u: string, o: string, n: string, c: string, t: string)
    ensures (u + o) + (n + (c + t)) == u + ((o + (n + c)) + t)
  {
  }

  lemma SectionsGroup(a: string, b: string, c: string, t: string)
    ensures a + (b + (c + t)) == (a + (b + c)) + t
  {
  }

  /** The text between the two sections holds none of the tags that are searched for across a message. */
  lemma BetweenIsText(t: string, needle: string)
    requires needle == Close("message") || needle == Close("iap") || needle == Open("attachments")
    requires t != "" && t[0] == '<'
    ensures needle != "" && Clear(BETWEEN, t, needle) && Clear(BETWEEN, t, CDATA_OPEN)
  {
    BetweenHolds(needle);
    BetweenHolds(CDATA_OPEN);
    hide Absent, Close, Open;
    MarkerDoesNotStraddle(BETWEEN, t, needle);
    MarkerDoesNotStraddle(BETWEEN, t, CDATA_OPEN);
  }

  lemma BetweenHolds(p: string)
    requires p == Close("message") || p == Close("iap") || p == Open("attachments") || p == CDATA_OPEN
    ensures Marker(p) && Absent(BETWEEN, p)
  {
    forall i: nat
      ensures !At(BETWEEN, p, i)
    {
      if i + |p| <= |BETWEEN| {
        var j := if BETWEEN[i] != '<' then 0 else if i == 0 && p[1] == '/' then 2 else 1;
        assert BETWEEN[i + j] != p[j];
        Mismatch(BETWEEN, p, i, j);
      }
    }
  }

  lemma RemainderReads(part: string, next: EnvelopeInput, needle: string)
    requires needle == Close("message") || needle == Close("iap") || needle == Open("attachments")
    ensures ReadsAs(Remainder(part, next), TakenOver(part, next), needle)
  {
    hide OutsideCdata, ReadSections, TakenText, Close, Open;
    var v, m := TakenText(part, next), next.message;
    forall t: string | t != "" && t[0] == '<'
      ensures OutsideCdata(Remainder(part, next) + t, needle)
           == Shift(OutsideCdata(t, needle), |Remainder(part, next)|)
      ensures ReadSections(Remainder(part, next) + t, needle)
           == Prepend(TakenOver(part, next), ReadSections(t, needle))
    {
      if next.attachments == [] {
        PastCdata(v, t, needle);
      } else {
        PastTwoSections(v, m, t, needle);
      }
    }
  }

  lemma CdataHead(m: string, t: string)
    ensures Cdata(m) + t != "" && (Cdata(m) + t)[0] == '<'
  {
    hide ReplaceAll;
    assert (Cdata(m) + t)[0] == CDATA_OPEN[0];
  }

  lemma PastBetween(m: string, t: string, needle: string)
    requires needle == Close("message") || needle == Close("iap") || needle == Open("attachments")
    requires t != "" && t[0] == '<'
    ensures OutsideCdata(BETWEEN + (Cdata(m) + t), needle) == Shift(OutsideCdata(t, needle), |BETWEEN| + |Cdata(m)|)
    ensures ReadSections(BETWEEN + (Cdata(m) + t), needle) == Prepend(BETWEEN + m, ReadSections(t, needle))
  {
    hide *;
    var rest := Cdata(m) + t;
    CdataHead(m, t);
    BetweenIsText(rest, needle);
    ScanPastText(BETWEEN, rest, needle);
    ReadPastText(BETWEEN, rest, needle);
    PastCdata(m, t, needle);
    PrependPrepend(BETWEEN, m, ReadSections(t, needle));
    ShiftTwice(OutsideCdata(t, needle), |Cdata(m)|, |BETWEEN|);
  }

  lemma PastTwoSections(v: string, m: string, t: string, needle: string)
    requires needle == Close("message") || needle == Close("iap") || needle == Open("attachments")
    requires t != "" && t[0] == '<'
    ensures var body := Cdata(v) + (BETWEEN + Cdata(m));
            && OutsideCdata(body + t, needle) == Shift(OutsideCdata(t, needle), |body|)
            && ReadSections(body + t, needle) == Prepend(v + (BETWEEN + m), ReadSections(t, needle))
  {
    hide *;
    SectionsGroup(Cdata(v), BETWEEN, Cdata(m), t);
    PastCdata(v, BETWEEN + (Cdata(m) + t), needle);
    PastBetween(m, t, needle);
    PrependPrepend(v, BETWEEN + m, ReadSections(t, needle));
    ShiftTwice(OutsideCdata(t, needle), |BETWEEN| + |Cdata(m)|, |Cdata(v)|);
    Lengths(Cdata(v), BETWEEN, Cdata(m));
  }

  lemma Lengths(a: string, b: string, c: string)
    ensures |a + (b + c)| == |a| + |b| + |c|
  {
  }

  lemma RemainderStands(part: string, next: EnvelopeInput)
    ensures Stands("message", Remainder(part, next), TakenOver(part, next))
  {
    hide ReadsAs, Remainder, TakenOver, Open, Close;
    RemainderReads(part, next, Close("message"));
    RemainderReads(part, next, Close("iap"));
    RemainderReads(part, next, Open("attachments"));
  }

  /** Whatever stands for its message, a text with the layout of a built envelope is taken whole and decoded. */
  lemma LayoutIsTaken(input: EnvelopeInput, body: string, message: string)
    requires Sendable(input) && TagFits(input) && Stands("message", body, message)
    ensures var w := Layout(WireAttrs(input), WireAttachments(input), "message", body);
            Whole(w) && DecodeEnvelope(w) == Ok(Received(input).(message := message))
  {
    hide *;
    LayoutDecodes(input, body, message);
    LayoutTag(input, body);
    LayoutEnds(input, body, message);
    WireNamesBoth(input);
    TagBound(input);
    TakesWhole(Layout(WireAttrs(input), WireAttachments(input), "message", body), RenderAttrs(WireAttrs(input)));
  }

  lemma TagBound(input: EnvelopeInput)
    requires TagFits(input)
    ensures |OpenTagText(WireAttrs(input))| <= MAX_OPEN_TAG_LEN
  {
  }

  lemma LayoutTag(input: EnvelopeInput, body: string)
    requires Sendable(input)
    ensures var w := Layout(WireAttrs(input), WireAttachments(input), "message", body);
            At(w, MARKER, 0)
            && MatchOpenTag(w) == Some(OpenTag(RenderAttrs(WireAttrs(input)), |OpenTagText(WireAttrs(input))|))
  {
    hide Header, WireAttrs, WireAttachments, Content, RenderAttrs, OpenTagText, MatchOpenTag, At, Readable;
    var content := Content(WireAttachments(input), "message", body);
    WireAttrsReadable(input);
    OpenTagOfLayout(WireAttrs(input), content);
    HeaderAtMarker(WireAttrs(input), content);
  }

  lemma LayoutEnds(input: EnvelopeInput, body: string, message: string)
    requires Sendable(input) && Stands("message", body, message)
    ensures var w := Layout(WireAttrs(input), WireAttachments(input), "message", body);
            |w| >= 11 && OutsideCdata(w[5..], Close("iap")) == Some(|w| - 11)
  {
    hide *;
    WireAttrsReadable(input);
    WireBodies(input);
    LayoutClose(WireAttrs(input), WireAttachments(input), Join(input.attachments, "\n"), body, message);
  }

  lemma LayoutDecodes(input: EnvelopeInput, body: string, message: string)
    requires Sendable(input) && Stands("message", body, message)
    ensures DecodeEnvelope(Layout(WireAttrs(input), WireAttachments(input), "message", body))
         == Ok(Received(input).(message := message))
  {
    var av := Join(input.attachments, "\n");
    var attachments := if input.attachments == [] then None else Some(av);
    var one := input.(message := message);
    WireAttrsReadable(input);
    AssembleWire(one, attachments);
    assert WireAttrs(one) == WireAttrs(input) && Received(one) == Received(input).(message := message);
    hide Readable, WireAttrs, DecodeEnvelope, Layout, Cdata, Join, Received, Assemble, Stands;
    DecodeStanding(WireAttrs(input), WireAttachments(input), av, "message", body, message);
  }

  /** An envelope torn inside its message, with no terminator in what is left of it, swallows the next one whole: both
      come out as one text, which decodes to the torn sender's envelope with the next one, header and message, at the
      end of its own. */
  lemma TornSwallowsNext(noise: string, input: EnvelopeInput, part: string, next: EnvelopeInput, t: string)
    requires Settled(noise) && Sendable(input) && TagFits(input) && Sendable(next)
    requires Absent(part, CDATA_CLOSE)
    ensures var both := Torn(input, part) + BuildEnvelope(next);
            Extract(noise + (Torn(input, part) + (BuildEnvelope(next) + t)))
            == After(Extract(noise).envelopes + [both], Extract(t))
            && DecodeEnvelope(both) == Ok(Received(input).(message := TakenOver(part, next)))
  {
    hide BuildEnvelope, Layout, Remainder, TakenOver, Torn, Absent, Sendable, Settled, TagFits, Extract,
         DecodeEnvelope, Received, Whole, Stands;
    TornReadsAsOne(input, part, next);
    RemainderStands(part, next);
    LayoutIsTaken(input, Remainder(part, next), TakenOver(part, next));
    WholeBehindNoise(noise, Torn(input, part) + BuildEnvelope(next), t);
    AngleGroups(Torn(input, part), BuildEnvelope(next), t);
  }
}
