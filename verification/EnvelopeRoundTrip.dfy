/** Decoding undoes both printers: the wire form returns every field of the input, and the agent-facing form
    returns what the wire form decodes to, with only the time stamp compacted. */
module EnvelopeRoundTrip {
  import opened Text
  import opened EnvelopeCodec
  import opened EnvelopeAttributes

  // ---------------------------------------------------------------- passing over text

  /** A scan passes over a prefix in which neither the needle nor a CDATA section starts. */
  lemma {:induction false} ScanPastText(u: string, t: string, needle: string)
    requires needle != "" && Clear(u, t, needle) && Clear(u, t, CDATA_OPEN)
    ensures OutsideCdata(u + t, needle) == Shift(OutsideCdata(t, needle), |u|)
  {
    if |u| == 0 {
      assert u + t == t;
    } else {
      OutsideUnfolds(u + t, needle);
      ClearTail(u, t, needle);
      ClearTail(u, t, CDATA_OPEN);
      hide *;
      ScanPastText(u[1..], t, needle);
      ShiftTwice(OutsideCdata(t, needle), |u[1..]|, 1);
    }
  }

  lemma {:induction false} ReadPastText(u: string, t: string, close: string)
    requires close != "" && Clear(u, t, close) && Clear(u, t, CDATA_OPEN)
    ensures ReadSections(u + t, close) == Prepend(u, ReadSections(t, close))
  {
    if |u| == 0 {
      assert u + t == t;
      assert ReadSections(t, close).Some? ==> "" + ReadSections(t, close).value == ReadSections(t, close).value;
    } else {
      ReadUnfolds(u + t, close);
      ClearTail(u, t, close);
      ClearTail(u, t, CDATA_OPEN);
      hide *;
      ReadPastText(u[1..], t, close);
      PrependPrepend([u[0]], u[1..], ReadSections(t, close));
      HeadAndTail(u, "");
      AppendNothing(u);
      AppendNothing(u[1..]);
    }
  }

  /** One CDATA section whose content holds no terminator. */
  function Section(w: string): string {
    CDATA_OPEN + w + CDATA_CLOSE
  }

  lemma ClearOfClose(w: string, t: string)
    requires Absent(w, CDATA_CLOSE)
    ensures Clear(w, CDATA_CLOSE + t, CDATA_CLOSE)
  {
    var s := w + (CDATA_CLOSE + t);
    forall i: nat | i < |w|
      ensures !At(s, CDATA_CLOSE, i)
    {
      if i + 3 <= |w| {
        AtLeft(w, CDATA_CLOSE + t, CDATA_CLOSE, i);
        assert !At(w, CDATA_CLOSE, i);
      } else {
        assert s[i..i + 3][2] == s[i + 2] == CDATA_CLOSE[i + 2 - |w|];
      }
    }
  }

  lemma PastSection(w: string, t: string, needle: string)
    requires Absent(w, CDATA_CLOSE)
    ensures OutsideCdata(Section(w) + t, needle) == Shift(OutsideCdata(t, needle), |Section(w)|)
    ensures ReadSections(Section(w) + t, needle) == Prepend(w, ReadSections(t, needle))
  {
    var s := Section(w) + t;
    var body := w + (CDATA_CLOSE + t);
    hide OutsideCdata, ReadSections, IndexOf, Absent, At;
    SectionGroups(CDATA_OPEN, w, CDATA_CLOSE, t);
    AtHead(CDATA_OPEN, body);
    ClearOfClose(w, t);
    IndexOfAfter(w, CDATA_CLOSE + t, CDATA_CLOSE);
    AtHead(CDATA_CLOSE, t);
    IndexOfIs(CDATA_CLOSE + t, CDATA_CLOSE, 0);
    OutsideUnfolds(s, needle);
    ReadUnfolds(s, needle);
  }

  lemma SectionGroups(open: string, w: string, close: string, t: string)
    ensures (open + w + close) + t == open + (w + (close + t))
    ensures (w + (close + t))[..|w|] == w
    ensures (open + (w + (close + t)))[|open| + |w| + |close|..] == t
  {
  }

  /** A value with a terminator at `k` is printed as one section ending inside that terminator, followed by
      the print of the remainder. */
  lemma CdataSplits(v: string, k: nat)
    requires IndexOf(v, CDATA_CLOSE) == Some(k)
    ensures Cdata(v) == Section(v[..k] + "]]") + Cdata(">" + v[k + 3..])
    ensures Absent(v[..k] + "]]", CDATA_CLOSE)
    ensures v == v[..k] + "]]" + (">" + v[k + 3..])
  {
    IndexOfIsFirst(v, CDATA_CLOSE);
    var a, b := v[..k], v[k + 3..];
    CutAt(v, k);
    assert Clear(a, CDATA_CLOSE + b, CDATA_CLOSE);
    hide *;
    SplitReplaced(a, b);
    PrefixHoldsNoClose(a, CDATA_CLOSE + b);
  }

  lemma CutAt(v: string, k: nat)
    requires At(v, CDATA_CLOSE, k)
    ensures v == v[..k] + (CDATA_CLOSE + v[k + 3..]) && v == v[..k] + "]]" + (">" + v[k + 3..])
  {
    assert v[k..k + 3] == CDATA_CLOSE;
  }

  lemma SplitReplaced(a: string, b: string)
    requires Clear(a, CDATA_CLOSE + b, CDATA_CLOSE)
    ensures Cdata(a + (CDATA_CLOSE + b)) == Section(a + "]]") + Cdata(">" + b)
  {
    Unfold(a, b);
    UnfoldAngle(b);
    assert CDATA_SPLIT == "]]" + CDATA_CLOSE + CDATA_OPEN + ">";
    Regroup(CDATA_OPEN, a, "]]", CDATA_CLOSE, ">", ReplaceAll(b, CDATA_CLOSE, CDATA_SPLIT));
  }

  lemma Regroup(open: string, a: string, x: string, close: string, y: string, rest: string)
    ensures open + (a + ((x + close + open + y) + rest)) + close
            == (open + (a + x) + close) + (open + (y + rest) + close)
  {
  }

  lemma Unfold(a: string, b: string)
    requires Clear(a, CDATA_CLOSE + b, CDATA_CLOSE)
    ensures ReplaceAll(a + (CDATA_CLOSE + b), CDATA_CLOSE, CDATA_SPLIT)
         == a + (CDATA_SPLIT + ReplaceAll(b, CDATA_CLOSE, CDATA_SPLIT))
  {
    ReplaceAfter(a, CDATA_CLOSE + b, CDATA_CLOSE, CDATA_SPLIT);
    AtHead(CDATA_CLOSE, b);
  }

  lemma UnfoldAngle(b: string)
    ensures ReplaceAll(">" + b, CDATA_CLOSE, CDATA_SPLIT) == ">" + ReplaceAll(b, CDATA_CLOSE, CDATA_SPLIT)
  {
    Mismatch(">" + b, CDATA_CLOSE, 0, 0);
    AtHead(">", b);
  }

  lemma PrefixHoldsNoClose(a: string, t: string)
    requires Clear(a, t, CDATA_CLOSE)
    ensures Absent(a + "]]", CDATA_CLOSE)
  {
    forall i: nat
      ensures !At(a + "]]", CDATA_CLOSE, i)
    {
      if i + 3 <= |a| {
        AtLeft(a, "]]", CDATA_CLOSE, i);
        AtLeft(a, t, CDATA_CLOSE, i);
        assert !At(a + t, CDATA_CLOSE, i);
      } else if i + 2 < |a + "]]"| {
        Mismatch(a + "]]", CDATA_CLOSE, i, 2);
      }
    }
  }

  /** Reading what `Cdata` printed returns the value, terminators included, and a scan passes over it whole. */
  lemma {:induction false} PastCdata(v: string, t: string, needle: string)
    ensures OutsideCdata(Cdata(v) + t, needle) == Shift(OutsideCdata(t, needle), |Cdata(v)|)
    ensures ReadSections(Cdata(v) + t, needle) == Prepend(v, ReadSections(t, needle))
    decreases |v|
  {
    hide OutsideCdata, ReadSections, IndexOf, ReplaceAll;
    match IndexOf(v, CDATA_CLOSE) {
      case None =>
        IndexOfIsFirst(v, CDATA_CLOSE);
        ReplaceAbsent(v, CDATA_CLOSE, CDATA_SPLIT);
        PastSection(v, t, needle);
      case Some(k) =>
        CdataSplits(v, k);
        var w, rest := v[..k] + "]]", ">" + v[k + 3..];
        assert Cdata(v) + t == Section(w) + (Cdata(rest) + t);
        PastSection(w, Cdata(rest) + t, needle);
        PastCdata(rest, t, needle);
        PrependPrepend(w, rest, ReadSections(t, needle));
    }
  }

  // ---------------------------------------------------------------- elements

  /** The tags the codec searches for. */
  ghost predicate Searched(needle: string) {
    || needle == Close("iap")
    || needle == Open("message") || needle == Close("message")
    || needle == Open("msg") || needle == Close("msg")
    || needle == Open("attachments") || needle == Close("attachments")
  }

  predicate TagName(tag: string) {
    tag != "" && '<' !in tag && '>' !in tag && tag[0] !in {'/', '!', 'i'}
  }

  predicate BodyTag(tag: string) {
    tag == "message" || tag == "msg" || tag == "attachments"
  }

  lemma BodyTagName(tag: string)
    requires BodyTag(tag)
    ensures TagName(tag) && Searched(Open(tag)) && Searched(Close(tag))
  {
  }

  lemma TagShape(tag: string)
    requires TagName(tag) || tag == "iap"
    ensures Marker(Open(tag)) && Open(tag)[1] == tag[0] && AngleFirst(Open(tag))
    ensures Marker(Close(tag)) && Close(tag)[1] == '/' && AngleFirst(Close(tag))
    ensures Close(tag) != "" && Close(tag)[0] == '<'
  {
  }

  lemma SearchedShape(needle: string)
    requires Searched(needle)
    ensures Marker(needle) && needle[1] != 'i' && needle[1] != '!'
    ensures Marker(CDATA_OPEN) && CDATA_OPEN[1] == '!'
  {
    var tag := SearchedTag(needle);
    if tag != "iap" {
      BodyTagName(tag);
    }
    TagShape(tag);
    hide Searched, Open, Close, AngleFirst;
  }

  lemma SearchedTag(needle: string) returns (tag: string)
    requires Searched(needle)
    ensures (tag == "iap" && needle == Close("iap"))
            || (tag != "iap" && BodyTag(tag) && (needle == Open(tag) || needle == Close(tag)))
  {
    hide Open, Close;
    if needle == Close("iap") {
      return "iap";
    } else if needle == Open("message") || needle == Close("message") {
      return "message";
    } else if needle == Open("msg") || needle == Close("msg") {
      return "msg";
    } else {
      return "attachments";
    }
  }

  /** A printed body stands for a value: in CDATA, or raw when the value holds no tag and no CDATA opener. */
  ghost predicate Carries(body: string, value: string) {
    || body == Cdata(value)
    || (body == value && Absent(value, CDATA_OPEN) && forall n :: Searched(n) ==> Absent(value, n))
  }

  lemma PastBody(body: string, value: string, t: string, needle: string)
    requires Carries(body, value) && Searched(needle) && t != "" && t[0] == '<'
    ensures OutsideCdata(body + t, needle) == Shift(OutsideCdata(t, needle), |body|)
    ensures ReadSections(body + t, needle) == Prepend(value, ReadSections(t, needle))
  {
    SearchedShape(needle);
    hide Searched;
    if body == Cdata(value) {
      PastCdata(value, t, needle);
    } else {
      MarkerDoesNotStraddle(body, t, needle);
      MarkerDoesNotStraddle(body, t, CDATA_OPEN);
      ScanPastText(body, t, needle);
      ReadPastText(body, t, needle);
    }
  }

  /** A search for `needle` passes over the body, and reads it as the value, wherever a tag follows. */
  ghost predicate ReadsAs(body: string, value: string, needle: string) {
    forall t: string :: t != "" && t[0] == '<' ==>
      OutsideCdata(body + t, needle) == Shift(OutsideCdata(t, needle), |body|)
      && ReadSections(body + t, needle) == Prepend(value, ReadSections(t, needle))
  }

  lemma CarriesReads(body: string, value: string, needle: string)
    requires Carries(body, value) && Searched(needle)
    ensures ReadsAs(body, value, needle)
  {
    hide Carries, Searched, OutsideCdata, ReadSections;
    forall t: string | t != "" && t[0] == '<'
      ensures OutsideCdata(body + t, needle) == Shift(OutsideCdata(t, needle), |body|)
      ensures ReadSections(body + t, needle) == Prepend(value, ReadSections(t, needle))
    {
      PastBody(body, value, t, needle);
    }
  }

  lemma ScanPastBody(body: string, value: string, t: string, needle: string)
    requires ReadsAs(body, value, needle) && t != "" && t[0] == '<'
    ensures OutsideCdata(body + t, needle) == Shift(OutsideCdata(t, needle), |body|)
    ensures ReadSections(body + t, needle) == Prepend(value, ReadSections(t, needle))
  {
    hide OutsideCdata, ReadSections;
  }

  /** Text in which '<' occurs at most at the head, with another tag there, is passed over. */
  lemma PastTag(u: string, t: string, needle: string)
    requires Marker(needle) && !At(u + t, needle, 0) && !At(u + t, CDATA_OPEN, 0)
    requires AngleFirst(u)
    ensures OutsideCdata(u + t, needle) == Shift(OutsideCdata(t, needle), |u|)
  {
    forall i: nat, p | i < |u| && (p == needle || p == CDATA_OPEN)
      ensures !At(u + t, p, i)
    {
      if 0 < i {
        assert (u + t)[i] == u[i];
        Mismatch(u + t, p, i, 0);
      }
    }
    ScanPastText(u, t, needle);
  }

  /** Two tags that start at the same place are the same tag. */
  lemma DifferentTag(a: string, b: string, t: string)
    requires TagName(a) && TagName(b) && a != b
    ensures !At(Open(a) + t, Open(b), 0) && !At(Close(a) + t, Close(b), 0)
  {
    DifferentEnd("<", a, b, t);
    DifferentEnd("</", a, b, t);
  }

  lemma DifferentEnd(p: string, a: string, b: string, t: string)
    requires '>' !in a && '>' !in b && a != b
    ensures !At(p + a + ">" + t, p + b + ">", 0)
  {
    var s, q := p + a + ">" + t, p + b + ">";
    if |a| < |b| {
      Mismatch(s, q, 0, |p| + |a|);
    } else if |b| < |a| {
      Mismatch(s, q, 0, |p| + |b|);
    } else {
      var j :| 0 <= j < |a| && a[j] != b[j];
      Mismatch(s, q, 0, |p| + j);
    }
  }

  /** No other searched tag, and no CDATA section, starts where a body tag stands. */
  lemma NotAtTag(tag: string, needle: string, t: string)
    requires BodyTag(tag) && Searched(needle) && needle != Open(tag) && needle != Close(tag)
    ensures !At(Open(tag) + t, needle, 0) && !At(Open(tag) + t, CDATA_OPEN, 0)
    ensures !At(Close(tag) + t, needle, 0) && !At(Close(tag) + t, CDATA_OPEN, 0)
  {
    BodyTagName(tag);
    TagShape(tag);
    var other := SearchedTag(needle);
    hide Open, Close, Searched, BodyTag, Marker, AngleFirst;
    Mismatch(Open(tag) + t, CDATA_OPEN, 0, 1);
    Mismatch(Close(tag) + t, CDATA_OPEN, 0, 1);
    if other == "iap" {
      CloseOfIapNotAtTag(tag, t);
    } else {
      NeedleNotAtTag(tag, other, needle, t);
    }
  }

  lemma CloseOfIapNotAtTag(tag: string, t: string)
    requires TagName(tag)
    ensures !At(Open(tag) + t, Close("iap"), 0) && !At(Close(tag) + t, Close("iap"), 0)
  {
    DifferentEnd("</", tag, "iap", t);
    TagShape(tag);
    TagShape("iap");
    assert tag[0] != 'i' && "iap"[0] == 'i';
    hide AngleFirst, Marker;
    Mismatch(Open(tag) + t, Close("iap"), 0, 1);
  }

  lemma NeedleNotAtTag(tag: string, other: string, needle: string, t: string)
    requires BodyTag(tag) && BodyTag(other) && needle in {Open(other), Close(other)} && tag != other
    ensures !At(Open(tag) + t, needle, 0) && !At(Close(tag) + t, needle, 0)
  {
    BodyTagName(tag);
    BodyTagName(other);
    TagShape(tag);
    TagShape(other);
    DifferentTag(tag, other, t);
    hide Open, Close;
    if needle == Open(other) {
      Mismatch(Close(tag) + t, needle, 0, 1);
    } else {
      Mismatch(Open(tag) + t, needle, 0, 1);
    }
  }

  /** An element followed by `t`, grouped from the right. */
  function Framed(tag: string, body: string, t: string): string {
    Open(tag) + (body + (Close(tag) + t))
  }

  /** A scan for another tag passes over an element. */
  lemma PastElement(tag: string, body: string, value: string, t: string, needle: string)
    requires BodyTag(tag) && ReadsAs(body, value, needle)
    requires Searched(needle) && needle != Open(tag) && needle != Close(tag)
    ensures OutsideCdata(Framed(tag, body, t), needle)
         == Shift(OutsideCdata(t, needle), |Open(tag)| + |body| + |Close(tag)|)
  {
    hide ReadsAs;
    NotAtTag(tag, needle, body + (Close(tag) + t));
    NotAtTag(tag, needle, t);
    BodyTagName(tag);
    PastFramed(tag, body, value, t, needle);
  }

  lemma PastFramed(tag: string, body: string, value: string, t: string, needle: string)
    requires TagName(tag) && ReadsAs(body, value, needle) && Searched(needle)
    requires !At(Open(tag) + (body + (Close(tag) + t)), needle, 0)
    requires !At(Open(tag) + (body + (Close(tag) + t)), CDATA_OPEN, 0)
    requires !At(Close(tag) + t, needle, 0) && !At(Close(tag) + t, CDATA_OPEN, 0)
    ensures OutsideCdata(Framed(tag, body, t), needle)
         == Shift(OutsideCdata(t, needle), |Open(tag)| + |body| + |Close(tag)|)
  {
    hide OutsideCdata, ReadSections, At, ReadsAs, Searched, Open, Close, AngleFirst, TagName;
    SearchedShape(needle);
    TagShape(tag);
    assert (Close(tag) + t)[0] == '<';
    assert Framed(tag, body, t) == Open(tag) + (body + (Close(tag) + t));
    hide *;
    PastTag(Open(tag), body + (Close(tag) + t), needle);
    ScanPastBody(body, value, Close(tag) + t, needle);
    PastTag(Close(tag), t, needle);
    ShiftThrice(OutsideCdata(t, needle), |Open(tag)|, |body|, |Close(tag)|);
  }

  lemma ShiftThrice(r: Option<nat>, a: nat, b: nat, c: nat)
    ensures Shift(Shift(Shift(r, c), b), a) == Shift(r, a + b + c)
  {
  }

  /** The content of an element met first outside CDATA is the value its body stands for. */
  lemma ReadElement(xml: string, k: nat, tag: string, body: string, value: string, t: string)
    requires BodyTag(tag) && ReadsAs(body, value, Close(tag))
    requires k <= |xml| && xml[k..] == Framed(tag, body, t)
    requires OutsideCdata(xml, Open(tag)) == Shift(OutsideCdata(xml[k..], Open(tag)), k)
    ensures TagContent(xml, tag) == Some(value)
  {
    hide OutsideCdata, ReadSections, TagContent, Open, Close, ReadsAs, Searched, At, AngleFirst, Marker, TagName,
         BodyTag;
    BodyTagName(tag);
    TagShape(tag);
    BodyTagIsNoSection(tag);
    FoundAtHead(Open(tag), body + (Close(tag) + t));
    FoundAtHead(Close(tag), t);
    ScanPastBody(body, value, Close(tag) + t, Close(tag));
    AppendNothing(value);
    AtHead(Open(tag), body + (Close(tag) + t));
    DropDrop(xml, k, |Open(tag)|);
    TagContentIs(xml, tag, k, body + (Close(tag) + t), Some(value));
  }

  lemma BodyTagIsNoSection(tag: string)
    requires BodyTag(tag)
    ensures Open(tag)[1] != '!' && Close(tag)[1] != '!' && |Close(tag)| >= 1
    ensures forall body, t :: Framed(tag, body, t) == Open(tag) + (body + (Close(tag) + t))
  {
    hide Open, Close;
    TagShape(tag);
  }

  lemma AppendNothing(s: string)
    ensures s + "" == s
  {
  }

  lemma TagContentIs(xml: string, tag: string, k: nat, rest: string, r: Option<string>)
    requires OutsideCdata(xml, Open(tag)) == Some(k) && k + |Open(tag)| <= |xml|
    requires xml[k + |Open(tag)|..] == rest && ReadSections(rest, Close(tag)) == r
    ensures TagContent(xml, tag) == r
  {
    hide OutsideCdata, ReadSections, Open, Close;
  }

  lemma FoundAtHead(tag: string, t: string)
    requires Marker(tag) && tag[1] != '!'
    ensures OutsideCdata(tag + t, tag) == Some(0)
    ensures ReadSections(tag + t, tag) == Some("")
  {
    AtHead(tag, t);
    Mismatch(tag + t, CDATA_OPEN, 0, 1);
  }

  // ---------------------------------------------------------------- the common layout

  function Header(attrs: seq<Attr>): string {
    OpenTagText(attrs) + "\n" + IAP_INSTRUCTION + "\n"
  }

  /** Both printers produce this text: header, optional attachments, one message element, close tag. */
  function Layout(attrs: seq<Attr>, attachments: Option<string>, tag: string, body: string): string {
    Header(attrs) + Content(attachments, tag, body)
  }

  function Content(attachments: Option<string>, tag: string, body: string): string {
    match attachments
    case None => Message(tag, body)
    case Some(a) => Framed("attachments", a, "\n" + Message(tag, body))
  }

  function Message(tag: string, body: string): string {
    Framed(tag, body, "\n" + Close("iap"))
  }

  lemma {:induction false} NoAngleInAttrs(attrs: seq<Attr>)
    requires Readable(attrs)
    ensures '<' !in RenderAttrs(attrs) && '>' !in RenderAttrs(attrs)
  {
    if attrs != [] {
      RenderAttrsCons(attrs);
      EscapeAttrIsEscaped(attrs[0].value);
      EscapedChars(attrs[0].value);
      NoAngleInAttrs(attrs[1..]);
    }
  }

  lemma HeaderShape(attrs: seq<Attr>)
    requires Readable(attrs)
    ensures |Header(attrs)| > 5 && Header(attrs)[0] == '<' && Header(attrs)[1] == 'i' && AngleFirst(Header(attrs))
  {
    NoAngleInAttrs(attrs);
    hide RenderAttrs;
    var tail := ">" + "\n" + IAP_INSTRUCTION + "\n";
    assert '<' !in tail;
    RegroupHead("<iap ", RenderAttrs(attrs), ">", "\n", IAP_INSTRUCTION, "\n");
    OnlyHeadAngle("<iap ", RenderAttrs(attrs) + tail);
  }

  lemma RegroupHead(a: string, r: string, b: string, c: string, d: string, e: string)
    ensures (a + r + b) + c + d + e == a + (r + (b + c + d + e))
  {
  }

  lemma OnlyHeadAngle(u: string, tail: string)
    requires AngleFirst(u) && |u| == 5 && '<' !in tail && tail != ""
    ensures AngleFirst(u + tail) && |u + tail| > 5 && (u + tail)[0] == u[0] && (u + tail)[1] == u[1]
  {
  }

  lemma PastHeader(attrs: seq<Attr>, t: string, needle: string)
    requires Readable(attrs) && Searched(needle)
    ensures OutsideCdata(Header(attrs) + t, needle) == Shift(OutsideCdata(t, needle), |Header(attrs)|)
    ensures OutsideCdata((Header(attrs) + t)[5..], needle) == Shift(OutsideCdata(t, needle), |Header(attrs)| - 5)
  {
    HeaderShape(attrs);
    SearchedShape(needle);
    hide OutsideCdata, ReadSections, Header, Searched, Readable, At;
    var h := Header(attrs);
    Mismatch(h + t, needle, 0, 1);
    Mismatch(h + t, CDATA_OPEN, 0, 1);
    PastTag(h, t, needle);
    DropFive(h, t);
    hide *;
    ClearIfNoChar(h[5..], t, needle);
    ClearIfNoChar(h[5..], t, CDATA_OPEN);
    ScanPastText(h[5..], t, needle);
  }

  lemma DropFive(h: string, t: string)
    requires |h| > 5 && AngleFirst(h)
    ensures (h + t)[5..] == h[5..] + t && |h[5..]| == |h| - 5 && '<' !in h[5..]
  {
  }

  lemma OpenTagOfLayout(attrs: seq<Attr>, t: string)
    requires attrs != [] && Readable(attrs) && attrs[0].name != ""
    ensures MatchOpenTag(Header(attrs) + t) == Some(OpenTag(RenderAttrs(attrs), |OpenTagText(attrs)|))
  {
    hide *;
    NoAngleInAttrs(attrs);
    FirstOfAttrs(attrs);
    OpenTagLength(attrs);
    MatchTagOf(RenderAttrs(attrs), "\n" + IAP_INSTRUCTION + "\n" + t);
    HeaderGroups(attrs, t);
  }

  lemma OpenTagLength(attrs: seq<Attr>)
    ensures |OpenTagText(attrs)| == 5 + |RenderAttrs(attrs)| + 1
  {
    hide RenderAttrs;
  }

  lemma FirstOfAttrs(attrs: seq<Attr>)
    requires attrs != [] && Readable(attrs) && attrs[0].name != ""
    ensures RenderAttrs(attrs) != "" && !IsSpace(RenderAttrs(attrs)[0])
  {
    RenderAttrsCons(attrs);
    hide RenderAttrs, IsSpace, EscapeAttr;
    assert RenderAttrs(attrs)[0] == attrs[0].name[0];
  }

  lemma HeaderGroups(attrs: seq<Attr>, t: string)
    ensures Header(attrs) + t
         == "<iap" + (" " + (RenderAttrs(attrs) + (">" + ("\n" + IAP_INSTRUCTION + "\n" + t))))
  {
    hide RenderAttrs;
    assert "<iap " == "<iap" + " ";
    RegroupHeader("<iap", " ", RenderAttrs(attrs), ">", "\n", IAP_INSTRUCTION, "\n", t);
  }

  lemma RegroupHeader(a: string, b: string, r: string, c: string, d: string, e: string, f: string, t: string)
    ensures ((a + b) + r + c) + d + e + f + t == a + (b + (r + (c + (d + e + f + t))))
  {
  }

  lemma MatchTagOf(r: string, after: string)
    requires r != "" && !IsSpace(r[0]) && '>' !in r
    ensures MatchOpenTag("<iap" + (" " + (r + (">" + after)))) == Some(OpenTag(r, 5 + |r| + 1))
  {
    hide IndexOf;
    var s := r + (">" + after);
    AtHead("<iap", " " + s);
    AtHead(" ", s);
    OneSpace(s);
    ClearIfNoChar(r, ">" + after, ">");
    IndexOfAfter(r, ">" + after, ">");
    AtHead(">", after);
    IndexOfIs(">" + after, ">", 0);
    assert ("<iap" + (" " + s))[5..] == s;
    assert s[..|r|] == r;
  }

  lemma OneSpace(t: string)
    requires t != "" && !IsSpace(t[0])
    ensures LeadingSpaces(" " + t) == 1
  {
    AtHead(" ", t);
  }

  lemma PastNewline(t: string, needle: string)
    requires Searched(needle)
    ensures OutsideCdata("\n" + t, needle) == Shift(OutsideCdata(t, needle), 1)
  {
    SearchedShape(needle);
    hide Searched;
    ClearIfNoChar("\n", t, needle);
    ClearIfNoChar("\n", t, CDATA_OPEN);
    ScanPastText("\n", t, needle);
  }

  function MessageOffset(a: Option<string>): nat {
    match a
    case None => 0
    case Some(x) => |Open("attachments")| + |x| + |Close("attachments")| + 1
  }

  /** A scan for anything but the attachments reaches the message element. */
  lemma ScanToMessage(attrs: seq<Attr>, a: Option<string>, av: string, tag: string, body: string, needle: string)
    requires Readable(attrs) && (a.Some? ==> Carries(a.value, av))
    requires Searched(needle) && needle != Open("attachments") && needle != Close("attachments")
    ensures var xml, k := Layout(attrs, a, tag, body), |Header(attrs)| + MessageOffset(a);
            && k <= |xml| && xml[k..] == Message(tag, body)
            && OutsideCdata(xml, needle) == Shift(OutsideCdata(xml[k..], needle), k)
            && OutsideCdata(xml[5..], needle) == Shift(OutsideCdata(xml[k..], needle), k - 5)
  {
    hide OutsideCdata, Header, Carries, Message, Searched, Open, Close, Content, MessageOffset, Readable;
    var h, c, k := Header(attrs), Content(a, tag, body), MessageOffset(a);
    assert |h| >= 5 by { HeaderShape(attrs); }
    PastHeader(attrs, c, needle);
    ScanContent(a, av, tag, body, needle);
    assert Layout(attrs, a, tag, body) == h + c;
    hide *;
    DropMore(h, c, k);
    ShiftTwice(OutsideCdata(Message(tag, body), needle), k, |h|);
    ShiftTwice(OutsideCdata(Message(tag, body), needle), k, |h| - 5);
  }

  lemma DropMore(h: string, c: string, k: nat)
    requires k <= |c|
    ensures (h + c)[|h| + k..] == c[k..]
  {
  }

  lemma ScanContent(a: Option<string>, av: string, tag: string, body: string, needle: string)
    requires a.Some? ==> Carries(a.value, av)
    requires Searched(needle) && needle != Open("attachments") && needle != Close("attachments")
    ensures var c, k := Content(a, tag, body), MessageOffset(a);
            && k <= |c| && c[k..] == Message(tag, body)
            && OutsideCdata(c, needle) == Shift(OutsideCdata(Message(tag, body), needle), k)
  {
    hide OutsideCdata, Carries, ReadsAs, Message, Searched, Open, Close;
    if a.Some? {
      CarriesReads(a.value, av, needle);
      PastElement("attachments", a.value, av, "\n" + Message(tag, body), needle);
      PastNewline(Message(tag, body), needle);
      DropFramed(Open("attachments"), a.value, Close("attachments"), "\n", Message(tag, body));
    }
  }

  lemma DropFramed(open: string, body: string, close: string, nl: string, t: string)
    ensures (open + (body + (close + (nl + t))))[|open| + |body| + |close| + |nl|..] == t
  {
  }

  /** A message body stands for its text, whatever is searched for across it. */
  ghost predicate Stands(tag: string, body: string, message: string) {
    && ReadsAs(body, message, Close(tag)) && ReadsAs(body, message, Close("iap"))
    && ReadsAs(body, message, Open("attachments")) && (tag == "msg" ==> ReadsAs(body, message, Open("message")))
  }

  lemma CarriesStands(tag: string, body: string, message: string)
    requires BodyTag(tag) && Carries(body, message)
    ensures Stands(tag, body, message)
  {
    BodyTagName(tag);
    assert Searched(Close("iap")) && Searched(Open("attachments")) && Searched(Open("message"));
    hide Carries, ReadsAs, Searched, Open, Close;
    CarriesReads(body, message, Close(tag));
    CarriesReads(body, message, Close("iap"));
    CarriesReads(body, message, Open("attachments"));
    CarriesReads(body, message, Open("message"));
  }

  lemma ReadMessage(attrs: seq<Attr>, a: Option<string>, av: string, tag: string, body: string, message: string)
    requires Readable(attrs) && (tag == "message" || tag == "msg") && Stands(tag, body, message)
    requires a.Some? ==> Carries(a.value, av)
    ensures TagContent(Layout(attrs, a, tag, body), tag) == Some(message)
    ensures tag == "msg" ==> TagContent(Layout(attrs, a, tag, body), "message") == None
  {
    hide OutsideCdata, ReadSections, TagContent, Header, Carries, ReadsAs, Layout, Searched, Open, Close, Readable;
    BodyTagName(tag);
    MessageTagDiffers(tag);
    assert ReadsAs(body, message, Close(tag)) && BodyTag(tag);
    assert Message(tag, body) == Framed(tag, body, "\n" + Close("iap"));
    hide *;
    ScanToMessage(attrs, a, av, tag, body, Open(tag));
    ReadElement(Layout(attrs, a, tag, body), |Header(attrs)| + MessageOffset(a), tag, body, message,
                "\n" + Close("iap"));
    if tag == "msg" {
      NoLongName(attrs, a, av, body, message);
    }
  }

  lemma MessageTagDiffers(tag: string)
    requires tag == "message" || tag == "msg"
    ensures Open(tag) != Open("attachments") && Open(tag) != Close("attachments")
  {
    assert Open(tag)[1] == 'm' && Open("attachments")[1] == 'a' && Close("attachments")[1] == '/';
  }

  lemma NoLongName(attrs: seq<Attr>, a: Option<string>, av: string, body: string, message: string)
    requires Readable(attrs) && Stands("msg", body, message) && (a.Some? ==> Carries(a.value, av))
    ensures TagContent(Layout(attrs, a, "msg", body), "message") == None
  {
    hide OutsideCdata, ReadSections, Header, Carries, ReadsAs, Layout, Searched, Readable, MessageOffset;
    BodyTagName("message");
    ScanToMessage(attrs, a, av, "msg", body, Open("message"));
    PastElement("msg", body, message, "\n" + Close("iap"), Open("message"));
    PastNewline(Close("iap"), Open("message"));
    NoTagInClose(Open("message"));
  }

  lemma ReadAttachments(attrs: seq<Attr>, a: Option<string>, av: string, tag: string, body: string, message: string)
    requires Readable(attrs) && (tag == "message" || tag == "msg") && Stands(tag, body, message)
    requires a.Some? ==> Carries(a.value, av)
    ensures TagContent(Layout(attrs, a, tag, body), "attachments") == (if a.Some? then Some(av) else None)
  {
    hide TagContent, OutsideCdata, ReadSections, Header, Carries, ReadsAs, Searched, Readable, Open, Close;
    BodyTagName("attachments");
    var xml := Layout(attrs, a, tag, body);
    PastHeader(attrs, Content(a, tag, body), Open("attachments"));
    AtHead(Header(attrs), Content(a, tag, body));
    if a.Some? {
      CarriesReads(a.value, av, Close("attachments"));
      ReadElement(xml, |Header(attrs)|, "attachments", a.value, av, "\n" + Message(tag, body));
    } else {
      NoAttachments(tag, body, message);
      NotFound(xml, "attachments");
    }
  }

  lemma NoAttachments(tag: string, body: string, message: string)
    requires (tag == "message" || tag == "msg") && ReadsAs(body, message, Open("attachments"))
    ensures OutsideCdata(Message(tag, body), Open("attachments")) == None
  {
    var needle := Open("attachments");
    BodyTagName("attachments");
    assert needle[1] == 'a' && Open(tag)[1] == 'm' && Close(tag)[1] == '/';
    hide OutsideCdata, ReadSections, ReadsAs, Searched;
    PastElement(tag, body, message, "\n" + Close("iap"), needle);
    PastNewline(Close("iap"), needle);
    NoTagInClose(needle);
  }

  lemma NotFound(xml: string, tag: string)
    requires OutsideCdata(xml, Open(tag)) == None
    ensures TagContent(xml, tag) == None
  {
    hide OutsideCdata, ReadSections, Open, Close;
  }

  lemma NoTagInClose(needle: string)
    requires Searched(needle) && needle[1] != '/'
    ensures OutsideCdata(Close("iap"), needle) == None
  {
    SearchedShape(needle);
    TagShape("iap");
    assert Close("iap") + "" == Close("iap");
    Mismatch(Close("iap"), needle, 0, 1);
    Mismatch(Close("iap"), CDATA_OPEN, 0, 1);
    PastTag(Close("iap"), "", needle);
  }

  // ---------------------------------------------------------------- decoding a layout

  /** What the decoder makes of an attribute list, an attachment text and a message. */
  function Assemble(attrs: seq<Attr>, attachments: Option<string>, message: string): Decoded {
    var personality := NonEmpty(Lookup(attrs, "from").OrElse(Lookup(attrs, "from-personality")));
    var runtime := NonEmpty(Lookup(attrs, "runtime").OrElse(Lookup(attrs, "from-runtime")));
    if personality.None? || runtime.None? then Invalid(MissingSender)
    else
      Ok(Envelope(
           personality.value,
           runtime.value,
           NormalizeIntelligence(Lookup(attrs, "intelligence").OrElse(Lookup(attrs, "from-intelligence"))),
           NonEmpty(Lookup(attrs, "ts")),
           NonEmpty(Lookup(attrs, "topic")),
           AttachmentList(attachments),
           message))
  }

  lemma LayoutIsTrimmed(attrs: seq<Attr>, a: Option<string>, tag: string, body: string)
    ensures Trim(Layout(attrs, a, tag, body)) == Layout(attrs, a, tag, body)
  {
    var m := Message(tag, body);
    assert Header(attrs)[0] == '<';
    assert m[|m| - 1] == Close("iap")[5] == '>';
    hide Trim, RenderAttrs, Header, Message, Open, Close;
    var c := Content(a, tag, body);
    assert c != "" && c[|c| - 1] == '>';
    EndsTrimmed(Header(attrs), c);
  }

  lemma EndsTrimmed(u: string, v: string)
    requires u != "" && v != "" && u[0] == '<' && v[|v| - 1] == '>'
    ensures Trim(u + v) == u + v
  {
    assert !IsSpace('<') && !IsSpace('>');
    hide IsSpace;
    assert (u + v)[0] == u[0] && (u + v)[|u + v| - 1] == v[|v| - 1];
  }

  /** Decoding a layout is lookup in its attribute list: no text it carries is taken for markup. */
  lemma DecodeLayout(attrs: seq<Attr>, a: Option<string>, av: string, tag: string, body: string, message: string)
    requires attrs != [] && Readable(attrs) && attrs[0].name != ""
    requires (tag == "message" || tag == "msg") && Carries(body, message) && (a.Some? ==> Carries(a.value, av))
    ensures DecodeEnvelope(Layout(attrs, a, tag, body))
         == Assemble(attrs, if a.Some? then Some(av) else None, message)
  {
    hide Carries, Stands, Readable, Layout, DecodeEnvelope, Assemble;
    CarriesStands(tag, body, message);
    DecodeStanding(attrs, a, av, tag, body, message);
  }

  lemma DecodeStanding(attrs: seq<Attr>, a: Option<string>, av: string, tag: string, body: string, message: string)
    requires attrs != [] && Readable(attrs) && attrs[0].name != ""
    requires (tag == "message" || tag == "msg") && Stands(tag, body, message) && (a.Some? ==> Carries(a.value, av))
    ensures DecodeEnvelope(Layout(attrs, a, tag, body))
         == Assemble(attrs, if a.Some? then Some(av) else None, message)
  {
    LayoutIsTrimmed(attrs, a, tag, body);
    OpenTagOfLayout(attrs, Content(a, tag, body));
    ReadMessage(attrs, a, av, tag, body, message);
    ReadAttachments(attrs, a, av, tag, body, message);
    FieldsAreLookups(attrs, if a.Some? then Some(av) else None, message);
    hide *;
    DecodeParts(Layout(attrs, a, tag, body), attrs, if a.Some? then Some(av) else None, message);
  }

  lemma DecodeParts(xml: string, attrs: seq<Attr>, attachments: Option<string>, message: string)
    requires MatchOpenTag(Trim(xml)).Some? && MatchOpenTag(Trim(xml)).value.attrs == RenderAttrs(attrs)
    requires TagContent(xml, "message").OrElse(TagContent(xml, "msg")) == Some(message)
    requires TagContent(xml, "attachments") == attachments
    ensures DecodeEnvelope(xml) == DecodeFields(RenderAttrs(attrs), Some(message), attachments)
  {
  }

  lemma FieldsAreLookups(attrs: seq<Attr>, attachments: Option<string>, message: string)
    requires attrs != [] && Readable(attrs)
    ensures DecodeFields(RenderAttrs(attrs), Some(message), attachments) == Assemble(attrs, attachments, message)
  {
    CodecNames();
    hide Lookup, AttrValue, Readable, AttachmentList, PlainName, RenderAttrs, NormalizeIntelligence;
    AttrValueIsLookup(attrs, "from");
    AttrValueIsLookup(attrs, "from-personality");
    AttrValueIsLookup(attrs, "runtime");
    AttrValueIsLookup(attrs, "from-runtime");
    AttrValueIsLookup(attrs, "intelligence");
    AttrValueIsLookup(attrs, "from-intelligence");
    AttrValueIsLookup(attrs, "ts");
    AttrValueIsLookup(attrs, "topic");
  }

  // ---------------------------------------------------------------- the wire form

  lemma JoinCons(a: string, rest: seq<string>, sep: string)
    requires rest != []
    ensures Join([a] + rest, sep) == a + sep + Join(rest, sep)
  {
    assert ([a] + rest)[1..] == rest;
  }

  /** Joining the lines of an envelope gives its layout. */
  lemma JoinedLines(attrs: seq<Attr>, a: Option<string>, tag: string, body: string)
    ensures Join(
              [OpenTagText(attrs), IAP_INSTRUCTION]
              + (if a.Some? then [Element("attachments", a.value)] else [])
              + [Element(tag, body), Close("iap")],
              "\n") == Layout(attrs, a, tag, body)
  {
    var o, e := OpenTagText(attrs), Element(tag, body);
    var last := [e, Close("iap")];
    assert last == [e] + [Close("iap")];
    JoinCons(e, [Close("iap")], "\n");
    GroupMessage(tag, body);
    if a.Some? {
      var x := Element("attachments", a.value);
      JoinCons(x, last, "\n");
      JoinCons(IAP_INSTRUCTION, [x] + last, "\n");
      JoinCons(o, [IAP_INSTRUCTION] + ([x] + last), "\n");
      assert [o, IAP_INSTRUCTION] + [x] + last == [o] + ([IAP_INSTRUCTION] + ([x] + last));
      GroupAttachments(a.value, Message(tag, body));
      GroupHeader(o, IAP_INSTRUCTION, "\n", Framed("attachments", a.value, "\n" + Message(tag, body)));
    } else {
      JoinCons(IAP_INSTRUCTION, last, "\n");
      JoinCons(o, [IAP_INSTRUCTION] + last, "\n");
      assert [o, IAP_INSTRUCTION] + [] + last == [o] + ([IAP_INSTRUCTION] + last);
      GroupHeader(o, IAP_INSTRUCTION, "\n", Message(tag, body));
    }
  }

  lemma GroupMessage(tag: string, body: string)
    ensures Element(tag, body) + "\n" + Join([Close("iap")], "\n") == Message(tag, body)
  {
    Group(Open(tag), body, Close(tag), "\n", Close("iap"));
  }

  lemma GroupAttachments(a: string, t: string)
    ensures Element("attachments", a) + "\n" + t == Framed("attachments", a, "\n" + t)
  {
    Group(Open("attachments"), a, Close("attachments"), "\n", t);
  }

  lemma Group(open: string, body: string, close: string, nl: string, t: string)
    ensures open + body + close + nl + t == open + (body + (close + (nl + t)))
  {
  }

  lemma GroupHeader(o: string, i: string, nl: string, t: string)
    ensures o + nl + (i + nl + t) == o + nl + i + nl + t
  {
  }

  /** The senders a wire envelope can name: a non-empty personality and runtime, and a time stamp, that hold no
      whitespace or do not end in '='. Valid names and ISO stamps are such. */
  predicate Sendable(input: EnvelopeInput) {
    && input.fromPersonality != "" && QuietValue(input.fromPersonality)
    && input.fromRuntime != "" && QuietValue(input.fromRuntime)
    && (input.sentAt.Some? ==> QuietValue(input.sentAt.value))
  }

  /** What a receiver is owed: every field of the input, the topic as the wire carries it. */
  function Received(input: EnvelopeInput): Envelope {
    Envelope(
      input.fromPersonality,
      input.fromRuntime,
      Some(input.fromIntelligence),
      NonEmpty(input.sentAt),
      WireTopic(input.topic),
      AttachmentList(Some(Join(input.attachments, "\n"))),
      input.message)
  }

  function WireAttachments(input: EnvelopeInput): Option<string> {
    if input.attachments == [] then None else Some(Cdata(Join(input.attachments, "\n")))
  }

  lemma WireIsLayout(input: EnvelopeInput)
    ensures BuildEnvelope(input) == Layout(WireAttrs(input), WireAttachments(input), "message", Cdata(input.message))
  {
    JoinedLines(WireAttrs(input), WireAttachments(input), "message", Cdata(input.message));
  }

  lemma WireAttrsReadable(input: EnvelopeInput)
    requires Sendable(input)
    ensures Readable(WireAttrs(input)) && WireAttrs(input) != [] && WireAttrs(input)[0].name != ""
  {
    CodecNames();
    QuietIntelligence(input.fromIntelligence);
    hide PlainName, QuietValue;
  }

  lemma QuietIntelligence(i: Intelligence)
    ensures QuietValue(IntelligenceName(i))
  {
  }

  /** Lower-case names, such as valid personalities and runtimes, are plain. */
  lemma LowerCaseIsPlain(s: string)
    requires forall i :: 0 <= i < |s| ==> 'a' <= s[i] <= 'z' || '0' <= s[i] <= '9' || s[i] == '-'
    ensures PlainName(s) && QuietValue(s)
  {
  }

  lemma CodecNames()
    ensures PlainName("from-personality") && PlainName("from-runtime") && PlainName("from-intelligence")
    ensures PlainName("from") && PlainName("runtime") && PlainName("intelligence") && PlainName("ts")
    ensures PlainName("topic")
  {
    hide PlainName;
    LowerCaseIsPlain("from-personality");
    LowerCaseIsPlain("from-runtime");
    LowerCaseIsPlain("from-intelligence");
    LowerCaseIsPlain("from");
    LowerCaseIsPlain("runtime");
    LowerCaseIsPlain("intelligence");
    LowerCaseIsPlain("ts");
    LowerCaseIsPlain("topic");
  }

  lemma LookupAppend(a: seq<Attr>, b: seq<Attr>, name: string)
    ensures Lookup(a + b, name) == Lookup(a, name).OrElse(Lookup(b, name))
  {
    if a == [] {
      assert a + b == b;
    } else {
      assert (a + b)[1..] == a[1..] + b;
    }
  }

  lemma LookupOptional(key: string, value: Option<string>, name: string)
    ensures Lookup(OptionalAttr(key, value), name) == if name == key then NonEmpty(value) else None
  {
  }

  lemma WireLookups(input: EnvelopeInput)
    ensures var attrs := WireAttrs(input);
            && Lookup(attrs, "from") == None && Lookup(attrs, "from-personality") == Some(input.fromPersonality)
            && Lookup(attrs, "runtime") == None && Lookup(attrs, "from-runtime") == Some(input.fromRuntime)
            && Lookup(attrs, "intelligence") == None
            && Lookup(attrs, "from-intelligence") == Some(IntelligenceName(input.fromIntelligence))
            && Lookup(attrs, "ts") == NonEmpty(input.sentAt) && Lookup(attrs, "topic") == WireTopic(input.topic)
  {
    WireNamesDiffer();
    hide Lookup, WireAttrs, IntelligenceName, WireTopic, NonEmpty;
    WireLookup(input, "from");
    WireLookup(input, "from-personality");
    WireLookup(input, "runtime");
    WireLookup(input, "from-runtime");
    WireLookup(input, "intelligence");
    WireLookup(input, "from-intelligence");
    WireLookup(input, "ts");
    WireLookup(input, "topic");
  }

  lemma WireLookup(input: EnvelopeInput, name: string)
    ensures Lookup(WireAttrs(input), name)
         == (if name == "from-personality" then Some(input.fromPersonality)
             else if name == "from-runtime" then Some(input.fromRuntime)
             else if name == "from-intelligence" then Some(IntelligenceName(input.fromIntelligence))
             else None).OrElse(
              if name == "ts" then NonEmpty(input.sentAt) else None).OrElse(
              if name == "topic" then WireTopic(input.topic) else None)
  {
    var a := Attr("from-personality", input.fromPersonality);
    var b := Attr("from-runtime", input.fromRuntime);
    var c := Attr("from-intelligence", IntelligenceName(input.fromIntelligence));
    var ts, topic := OptionalAttr("ts", input.sentAt), OptionalAttr("topic", WireTopic(input.topic));
    assert NonEmpty(WireTopic(input.topic)) == WireTopic(input.topic);
    assert WireAttrs(input) == [a, b, c] + ts + topic;
    hide Lookup, OptionalAttr, WireAttrs, IntelligenceName, WireTopic;
    LookupAppend([a, b, c] + ts, topic, name);
    LookupAppend([a, b, c], ts, name);
    LookupThree(a, b, c, name);
    LookupOptional("ts", input.sentAt, name);
    LookupOptional("topic", WireTopic(input.topic), name);
  }

  /** The other names differ in length. */
  lemma WireNamesDiffer()
    ensures "intelligence" != "from-runtime"
  {
    assert "intelligence"[0] == 'i' && "from-runtime"[0] == 'f';
  }

  lemma LookupCons(a: Attr, rest: seq<Attr>, name: string)
    ensures Lookup([a] + rest, name) == if a.name == name then Some(a.value) else Lookup(rest, name)
  {
    assert ([a] + rest)[1..] == rest;
  }

  lemma LookupThree(a: Attr, b: Attr, c: Attr, name: string)
    ensures Lookup([a, b, c], name)
         == if name == a.name then Some(a.value) else if name == b.name then Some(b.value)
            else if name == c.name then Some(c.value) else None
  {
    assert [a, b, c] == [a] + [b, c] && [b, c] == [b] + [c] && [c] == [c] + [];
    LookupCons(a, [b, c], name);
    LookupCons(b, [c], name);
    LookupCons(c, [], name);
  }

  lemma AssembleWire(input: EnvelopeInput, attachments: Option<string>)
    requires Sendable(input)
    requires AttachmentList(attachments) == AttachmentList(Some(Join(input.attachments, "\n")))
    ensures Assemble(WireAttrs(input), attachments, input.message) == Ok(Received(input))
  {
    WireLookups(input);
    hide Lookup, WireAttrs, AttachmentList, Join, QuietValue;
    assert NonEmpty(WireTopic(input.topic)) == WireTopic(input.topic);
  }

  /** Decoding what the wire printer built returns every field, for any message and any topic text. */
  lemma WireRoundTrip(input: EnvelopeInput)
    requires Sendable(input)
    ensures DecodeEnvelope(BuildEnvelope(input)) == Ok(Received(input))
  {
    var av := Join(input.attachments, "\n");
    var attachments := if input.attachments == [] then None else Some(av);
    WireIsLayout(input);
    WireAttrsReadable(input);
    AssembleWire(input, attachments);
    hide Readable, WireAttrs, BuildEnvelope, DecodeEnvelope, Layout, Cdata, Join, Received, Assemble;
    DecodeLayout(WireAttrs(input), WireAttachments(input), av, "message", Cdata(input.message), input.message);
  }

  // ---------------------------------------------------------------- attachments

  /** A path that survives the one-path-a-line list: trimmed, not empty, on one line. */
  predicate CleanPath(path: string) {
    path != "" && Trim(path) == path && '\n' !in path
  }

  lemma {:induction false} TrimAllClean(lines: seq<string>)
    requires forall i :: 0 <= i < |lines| ==> '\n' !in lines[i]
    ensures forall i :: 0 <= i < |TrimAll(lines)| ==> CleanPath(TrimAll(lines)[i])
    ensures (forall i :: 0 <= i < |lines| ==> CleanPath(lines[i])) ==> TrimAll(lines) == lines
  {
    if lines != [] {
      TrimAllClean(lines[1..]);
      TrimIdempotent(lines[0]);
      assert lines == [lines[0]] + lines[1..];
    }
  }

  lemma ListedPathsAreClean(raw: Option<string>)
    ensures forall i :: 0 <= i < |AttachmentList(raw)| ==> CleanPath(AttachmentList(raw)[i])
  {
    if raw.Some? {
      TrimAllClean(Split(raw.value));
    }
  }

  /** A list of attachments comes back as it was sent exactly when every path is clean. */
  lemma AttachmentsRoundTrip(paths: seq<string>)
    ensures AttachmentList(Some(Join(paths, "\n"))) == paths <==> forall i :: 0 <= i < |paths| ==> CleanPath(paths[i])
  {
    var text := Join(paths, "\n");
    ListedPathsAreClean(Some(text));
    if paths != [] && forall i :: 0 <= i < |paths| ==> CleanPath(paths[i]) {
      SplitJoin(paths);
      TrimAllClean(paths);
      assert paths[0] != "" && |text| >= |paths[0]|;
    }
  }

  // ---------------------------------------------------------------- the agent-facing form

  lemma PresentBodyCarries(value: string)
    ensures Carries(PresentBody(value), value)
  {
    if PresentBody(value) != Cdata(value) {
      forall n | Searched(n) || n == CDATA_OPEN
        ensures Absent(value, n)
      {
        MarkersCoverTags(n);
        assert !Includes(value, n);
        assert forall i: nat :: i > |value| ==> !At(value, n, i);
      }
    }
  }

  lemma MarkersCoverTags(n: string)
    requires Searched(n) || n == CDATA_OPEN
    ensures n in PRESENTATION_CDATA_MARKERS
  {
    var m := PRESENTATION_CDATA_MARKERS;
    assert m[1] == Close("iap") && m[2] == Open("message") && m[3] == Close("message");
    assert m[4] == Open("msg") && m[5] == Close("msg");
    assert m[6] == Open("attachments") && m[7] == Close("attachments") && m[8] == CDATA_OPEN;
  }

  lemma RenderedTsIsQuiet(sentAt: string, instant: Option<LocalTime>, now: LocalTime)
    requires sentAt != "" && QuietValue(sentAt)
    ensures RenderTs(sentAt, instant, now) != "" && QuietValue(RenderTs(sentAt, instant, now))
  {
  }

  // ---------------------------------------------------------------- what is printed and what is read

  /** One more attribute behind others, or nothing when its value is missing or empty. */
  function Further(name: string, value: Option<string>): string {
    match NonEmpty(value)
    case None => ""
    case Some(v) => " " + Named(name, v)
  }

  lemma RenderFurther(attrs: seq<Attr>, name: string, value: Option<string>)
    requires attrs != []
    ensures RenderAttrs(attrs + OptionalAttr(name, value)) == RenderAttrs(attrs) + Further(name, value)
  {
    hide RenderAttrs, EscapeAttr;
    RenderOne(attrs, OptionalAttr(name, value));
  }

  lemma Appended(a: string, b: string, c: string, d: string)
    ensures a + (b + (c + d)) == (a + (b + c)) + d
  {
  }

  /** The wire text, as other parsers of it know it: the long names in this order, and every body in CDATA. */
  lemma WireText(input: EnvelopeInput)
    ensures RenderAttrs(WireAttrs(input))
         == Named("from-personality", input.fromPersonality) + " " + Named("from-runtime", input.fromRuntime) + " "
            + Named("from-intelligence", IntelligenceName(input.fromIntelligence))
            + Further("ts", input.sentAt) + Further("topic", WireTopic(input.topic))
    ensures var message := Printed("message", Cdata(input.message), "</iap>");
            BuildEnvelope(input)
            == "<iap " + RenderAttrs(WireAttrs(input)) + ">" + "\n" + "Reply via send_to_peer." + "\n"
               + if input.attachments == [] then message
                 else Printed("attachments", Cdata(Join(input.attachments, "\n")), message)
  {
    var sender := [Attr("from-personality", input.fromPersonality), Attr("from-runtime", input.fromRuntime),
                   Attr("from-intelligence", IntelligenceName(input.fromIntelligence))];
    assert WireAttrs(input)
           == sender + OptionalAttr("ts", input.sentAt) + OptionalAttr("topic", WireTopic(input.topic));
    WireIsLayout(input);
    assert Close("iap") == "</iap>";
    hide RenderAttrs, EscapeAttr, Cdata, Join, WireTopic, OptionalAttr, BuildEnvelope, WireAttrs;
    RenderThree(sender);
    RenderFurther(sender, "ts", input.sentAt);
    RenderFurther(sender + OptionalAttr("ts", input.sentAt), "topic", WireTopic(input.topic));
  }

  /** A topic travels exactly when something is left of it trimmed, and then the first two hundred characters of
      that. */
  lemma WireTopicIs(topic: Option<string>, x: string)
    ensures WireTopic(topic) == Some(x) <==>
            topic.Some? && x != "" && x <= Trim(topic.value)
            && |x| == if |Trim(topic.value)| < 200 then |Trim(topic.value)| else 200
  {
    if topic.Some? {
      var t := Trim(topic.value);
      hide Trim;
      var n := if |t| < 200 then |t| else 200;
      assert t[..|t|] == t;
      assert x <= t && |x| == n <==> x == t[..n];
    }
  }

  function Named(name: string, value: string): string {
    name + "=\"" + EscapeAttr(value) + "\""
  }

  function Printed(tag: string, body: string, rest: string): string {
    "<" + tag + ">" + (body + ("</" + tag + ">" + ("\n" + rest)))
  }

  /** What the agent sees of an envelope: short names and no long ones, and the bodies as they are presented. A text
      that does not decode is shown as it is. */
  lemma AgentText(xml: string, parse: string -> Option<LocalTime>, now: LocalTime)
    ensures match DecodeEnvelope(xml)
            case Invalid(_) => RenderForAgent(xml, parse, now) == xml
            case Ok(env) =>
              && RenderAttrs(AgentAttrs(env, parse, now)) == AgentAttrText(env, parse, now)
              && var message := Printed("msg", PresentBody(env.message), "</iap>");
                 RenderForAgent(xml, parse, now)
                 == "<iap " + RenderAttrs(AgentAttrs(env, parse, now)) + ">" + "\n" + "Reply via send_to_peer." + "\n"
                    + if env.attachments == [] then message
                      else Printed("attachments", PresentBody(Join(env.attachments, "\n")), message)
  {
    if DecodeEnvelope(xml).Ok? {
      var env := DecodeEnvelope(xml).envelope;
      var a := if env.attachments == [] then None else Some(PresentBody(Join(env.attachments, "\n")));
      AgentAttrsText(env, parse, now);
      AgentIsLayout(xml, parse, now);
      LayoutText(AgentAttrs(env, parse, now), a, "msg", PresentBody(env.message));
      hide RenderAttrs, PresentBody, AgentAttrs, AgentAttrText, DecodeEnvelope, Join, RenderForAgent, Layout, Printed;
    }
  }

  lemma LayoutText(attrs: seq<Attr>, a: Option<string>, tag: string, body: string)
    ensures var message := Printed(tag, body, "</iap>");
            Layout(attrs, a, tag, body)
            == "<iap " + RenderAttrs(attrs) + ">" + "\n" + "Reply via send_to_peer." + "\n"
               + match a case None => message case Some(x) => Printed("attachments", x, message)
  {
    hide RenderAttrs;
    assert Close("iap") == "</iap>";
  }

  lemma AgentIsLayout(xml: string, parse: string -> Option<LocalTime>, now: LocalTime)
    requires DecodeEnvelope(xml).Ok?
    ensures var env := DecodeEnvelope(xml).envelope;
            var a := if env.attachments == [] then None else Some(PresentBody(Join(env.attachments, "\n")));
            RenderForAgent(xml, parse, now) == Layout(AgentAttrs(env, parse, now), a, "msg", PresentBody(env.message))
  {
    var env := DecodeEnvelope(xml).envelope;
    var attrs, av := AgentAttrs(env, parse, now), Join(env.attachments, "\n");
    var a := if env.attachments == [] then None else Some(PresentBody(av));
    hide DecodeEnvelope, AgentAttrs, PresentBody, OpenTagText, Element, Layout;
    JoinedLines(attrs, a, "msg", PresentBody(env.message));
  }

  function AgentAttrText(env: Envelope, parse: string -> Option<LocalTime>, now: LocalTime): string {
    Named("from", env.fromPersonality) + " " + Named("runtime", env.fromRuntime)
    + (match env.fromIntelligence case None => "" case Some(i) => " " + Named("intelligence", IntelligenceName(i)))
    + (match NonEmpty(env.sentAt) case None => "" case Some(t) => " " + Named("ts", RenderTs(t, parse(t), now)))
    + Further("topic", env.topic)
  }

  lemma AgentAttrsText(env: Envelope, parse: string -> Option<LocalTime>, now: LocalTime)
    ensures RenderAttrs(AgentAttrs(env, parse, now)) == AgentAttrText(env, parse, now)
  {
    var sender := [Attr("from", env.fromPersonality), Attr("runtime", env.fromRuntime)];
    var mind := if env.fromIntelligence.None? then []
                else [Attr("intelligence", IntelligenceName(env.fromIntelligence.value))];
    var ts := if NonEmpty(env.sentAt).None? then []
              else [Attr("ts", RenderTs(env.sentAt.value, parse(env.sentAt.value), now))];
    assert AgentAttrs(env, parse, now) == sender + mind + ts + OptionalAttr("topic", env.topic);
    hide RenderAttrs, EscapeAttr, OptionalAttr, AgentAttrs, RenderTs;
    RenderTwo(sender);
    RenderOne(sender, mind);
    RenderOne(sender + mind, ts);
    RenderFurther(sender + mind + ts, "topic", env.topic);
  }

  lemma RenderTwo(attrs: seq<Attr>)
    requires |attrs| == 2
    ensures RenderAttrs(attrs) == RenderAttr(attrs[0]) + " " + RenderAttr(attrs[1])
  {
    RenderAttrsCons(attrs);
    RenderAttrsCons(attrs[1..]);
  }

  lemma {:induction false} RenderOne(attrs: seq<Attr>, more: seq<Attr>)
    requires attrs != [] && |more| <= 1
    ensures RenderAttrs(attrs + more)
         == RenderAttrs(attrs) + if more == [] then "" else " " + RenderAttr(more[0])
  {
    if more == [] {
      assert attrs + more == attrs;
    } else {
      RenderAttrsCons(attrs);
      RenderAttrsCons(attrs + more);
      hide RenderAttrs, RenderAttr;
      if |attrs| == 1 {
        assert (attrs + more)[1..] == more;
        RenderAttrsCons(more);
      } else {
        assert (attrs + more)[1..] == attrs[1..] + more;
        RenderOne(attrs[1..], more);
        Appended(RenderAttr(attrs[0]), " ", RenderAttrs(attrs[1..]), " " + RenderAttr(more[0]));
      }
    }
  }

  lemma RenderThree(attrs: seq<Attr>)
    requires |attrs| == 3
    ensures RenderAttrs(attrs) == RenderAttr(attrs[0]) + " " + RenderAttr(attrs[1]) + " " + RenderAttr(attrs[2])
  {
    RenderAttrsCons(attrs);
    RenderAttrsCons(attrs[1..]);
    RenderAttrsCons(attrs[1..][1..]);
  }

  /** The first attribute of that name has that value. */
  predicate FirstNamed(attrs: seq<Attr>, name: string, v: string) {
    exists i :: 0 <= i < |attrs| && attrs[i] == Attr(name, v) && forall j :: 0 <= j < i ==> attrs[j].name != name
  }

  /** The short name says it, or there is none and the long name does. */
  predicate Says(attrs: seq<Attr>, short: string, long: string, v: string) {
    FirstNamed(attrs, short, v)
    || ((forall i :: 0 <= i < |attrs| ==> attrs[i].name != short) && FirstNamed(attrs, long, v))
  }

  lemma {:induction false} LookupIsFirst(attrs: seq<Attr>, name: string)
    ensures forall v :: Lookup(attrs, name) == Some(v) <==> FirstNamed(attrs, name, v)
    ensures Lookup(attrs, name) == None <==> forall i :: 0 <= i < |attrs| ==> attrs[i].name != name
  {
    if attrs != [] {
      LookupIsFirst(attrs[1..], name);
      assert forall i :: 1 <= i < |attrs| ==> attrs[i] == attrs[1..][i - 1];
      forall v
        ensures Lookup(attrs, name) == Some(v) <==> FirstNamed(attrs, name, v)
      {
        FirstNamedCons(attrs, name, v);
      }
    }
  }

  lemma FirstNamedCons(attrs: seq<Attr>, name: string, v: string)
    requires attrs != []
    ensures FirstNamed(attrs, name, v) <==>
            if attrs[0].name == name then attrs[0].value == v else FirstNamed(attrs[1..], name, v)
  {
    var rest := attrs[1..];
    assert forall i :: 0 <= i < |rest| ==> rest[i] == attrs[i + 1];
    if attrs[0].name != name && FirstNamed(rest, name, v) {
      var i :| 0 <= i < |rest| && rest[i] == Attr(name, v) && forall j :: 0 <= j < i ==> rest[j].name != name;
      assert attrs[i + 1] == rest[i];
      assert forall j :: 1 <= j < i + 1 ==> attrs[j] == rest[j - 1];
    }
    if attrs[0].name != name && FirstNamed(attrs, name, v) {
      var i :| 0 <= i < |attrs| && attrs[i] == Attr(name, v) && forall j :: 0 <= j < i ==> attrs[j].name != name;
      assert rest[i - 1] == attrs[i];
    }
  }

  /** Reading both: a layout decodes exactly when it names a personality and a runtime, short names or long; short names
      win, an unknown intelligence is dropped, and the two old spellings are understood. */
  lemma LayoutSays(attrs: seq<Attr>, a: Option<string>, av: string, tag: string, body: string, message: string)
    requires attrs != [] && Readable(attrs) && attrs[0].name != ""
    requires (tag == "message" || tag == "msg") && Carries(body, message) && (a.Some? ==> Carries(a.value, av))
    ensures var d := DecodeEnvelope(Layout(attrs, a, tag, body));
            && (d.Ok? <==> (exists p :: p != "" && Says(attrs, "from", "from-personality", p))
                           && exists r :: r != "" && Says(attrs, "runtime", "from-runtime", r))
            && (d.Ok? ==> Understands(attrs, d.envelope) && d.envelope.message == message
                          && d.envelope.attachments == AttachmentList(if a.Some? then Some(av) else None))
  {
    DecodeLayout(attrs, a, av, tag, body, message);
    AssembleSays(attrs, if a.Some? then Some(av) else None, message);
    hide DecodeEnvelope, Layout, Assemble, Says, Understands, Readable, Carries, AttachmentList;
  }

  lemma AssembleSays(attrs: seq<Attr>, attachments: Option<string>, message: string)
    ensures var d := Assemble(attrs, attachments, message);
            && (d.Ok? <==> (exists p :: p != "" && Says(attrs, "from", "from-personality", p))
                           && exists r :: r != "" && Says(attrs, "runtime", "from-runtime", r))
            && (d.Ok? ==> Understands(attrs, d.envelope) && d.envelope.message == message
                          && d.envelope.attachments == AttachmentList(attachments))
  {
    SaysIff(attrs, "from", "from-personality");
    SaysIff(attrs, "runtime", "from-runtime");
    var d := Assemble(attrs, attachments, message);
    if d.Ok? {
      AssembleUnderstands(attrs, attachments, message);
    }
    hide Lookup, FirstNamed, Says, AttachmentList, NormalizeIntelligence, Understands;
    if d.Ok? {
      assert Says(attrs, "from", "from-personality", d.envelope.fromPersonality);
      assert Says(attrs, "runtime", "from-runtime", d.envelope.fromRuntime);
    }
  }

  lemma AssembleUnderstands(attrs: seq<Attr>, attachments: Option<string>, message: string)
    requires Assemble(attrs, attachments, message).Ok?
    ensures Understands(attrs, Assemble(attrs, attachments, message).envelope)
  {
    SaysIff(attrs, "from", "from-personality");
    SaysIff(attrs, "runtime", "from-runtime");
    SaysIff(attrs, "intelligence", "from-intelligence");
    LookupIsFirst(attrs, "ts");
    LookupIsFirst(attrs, "topic");
    IntelligenceIs(Lookup(attrs, "intelligence").OrElse(Lookup(attrs, "from-intelligence")));
    hide Lookup, FirstNamed, Says, AttachmentList, NormalizeIntelligence;
  }

  lemma IntelligenceIs(v: Option<string>)
    ensures NormalizeIntelligence(v) == Some(Artificial) <==> v == Some("artificial")
    ensures NormalizeIntelligence(v) == Some(Natural) <==> v == Some("natural") || v == Some("human")
    ensures NormalizeIntelligence(v) == Some(NoIntelligence) <==> v == Some("absent") || v == Some("scripted")
  {
    assert "artificial"[1] == 'r' && "natural"[1] == 'a' && "human"[1] == 'u';
    assert "absent"[1] == 'b' && "scripted"[1] == 'c';
  }

  lemma SaysIff(attrs: seq<Attr>, short: string, long: string)
    ensures forall v :: Lookup(attrs, short).OrElse(Lookup(attrs, long)) == Some(v) <==> Says(attrs, short, long, v)
  {
    LookupIsFirst(attrs, short);
    LookupIsFirst(attrs, long);
    hide Lookup, FirstNamed;
  }

  ghost predicate Understands(attrs: seq<Attr>, env: Envelope) {
    && Says(attrs, "from", "from-personality", env.fromPersonality)
    && Says(attrs, "runtime", "from-runtime", env.fromRuntime)
    && (env.fromIntelligence == Some(Artificial) <==> Says(attrs, "intelligence", "from-intelligence", "artificial"))
    && (env.fromIntelligence == Some(Natural) <==>
          Says(attrs, "intelligence", "from-intelligence", "natural")
          || Says(attrs, "intelligence", "from-intelligence", "human"))
    && (env.fromIntelligence == Some(NoIntelligence) <==>
          Says(attrs, "intelligence", "from-intelligence", "absent")
          || Says(attrs, "intelligence", "from-intelligence", "scripted"))
    && (forall v :: env.sentAt == Some(v) <==> v != "" && FirstNamed(attrs, "ts", v))
    && (forall v :: env.topic == Some(v) <==> v != "" && FirstNamed(attrs, "topic", v))
  }

  // ---------------------------------------------------------------- the compact stamp

  /** The number a string of decimal digits stands for. */
  function Number(s: string): int {
    if s == "" then 0 else Number(s[..|s| - 1]) * 10 + (s[|s| - 1] as int - '0' as int)
  }

  lemma {:induction false} DecimalReads(n: nat)
    ensures Number(Decimal(n)) == n
  {
    if n >= 10 {
      DecimalReads(n / 10);
      assert Decimal(n)[..|Decimal(n)| - 1] == Decimal(n / 10);
      DigitReads(n % 10);
    } else {
      DigitReads(n);
    }
  }

  lemma DigitReads(d: nat)
    requires d < 10
    ensures Digit(d) as int - '0' as int == d
  {
  }

  lemma Pad2Reads(n: nat)
    requires n < 100
    ensures |Pad2(n)| == 2 && Number(Pad2(n)) == n
  {
    DecimalReads(n);
    if n < 10 {
      assert Pad2(n) == ['0', Digit(n)];
      assert Number(Pad2(n)[..1]) == 0;
      DigitReads(n);
    } else {
      assert |Decimal(n / 10)| == 1;
    }
  }

  /** The parts of an instant but the year take two digits. */
  predicate TwoDigits(d: LocalTime) {
    d.month < 100 && d.day < 100 && d.hour < 100 && d.minute < 100 && d.second < 100
  }

  predicate SameDay(d: LocalTime, now: LocalTime) {
    d.year == now.year && d.month == now.month && d.day == now.day
  }

  /** What a stamp says: hours, minutes and seconds at its end, and before them, unless they are all of it, year, month
      and day. */
  lemma StampReads(sentAt: string, d: LocalTime, now: LocalTime)
    requires TwoDigits(d)
    ensures var s, n := RenderTs(sentAt, Some(d), now), |RenderTs(sentAt, Some(d), now)|;
            && (n == 8 <==> SameDay(d, now)) && (n != 8 ==> n >= 16)
            && Number(s[n - 8..n - 6]) == d.hour && Number(s[n - 5..n - 3]) == d.minute
            && Number(s[n - 2..]) == d.second
            && s[n - 6] == ':' == s[n - 3]
            && (n >= 16 ==>
                  && Number(s[..n - 15]) == d.year && Number(s[n - 14..n - 12]) == d.month
                  && Number(s[n - 11..n - 9]) == d.day && s[n - 15] == '-' == s[n - 12] && s[n - 9] == ' ')
  {
    DecimalReads(d.year);
    Pad2Reads(d.month);
    Pad2Reads(d.day);
    Pad2Reads(d.hour);
    Pad2Reads(d.minute);
    Pad2Reads(d.second);
    hide Pad2, Decimal, Number;
    StampParts(Decimal(d.year), Pad2(d.month), Pad2(d.day), Pad2(d.hour), Pad2(d.minute), Pad2(d.second));
  }

  lemma StampParts(y: string, mo: string, d: string, h: string, mi: string, se: string)
    requires y != "" && |mo| == |d| == |h| == |mi| == |se| == 2
    ensures var clock := h + ":" + mi + ":" + se;
            && |clock| == 8 && clock[..2] == h && clock[3..5] == mi && clock[6..] == se && clock[2] == ':' == clock[5]
            && var s, n := y + "-" + mo + "-" + d + " " + clock, |y| + 15;
               && |s| == n && s[..n - 15] == y && s[n - 14..n - 12] == mo && s[n - 11..n - 9] == d
               && s[n - 8..n - 6] == h && s[n - 5..n - 3] == mi && s[n - 2..] == se
               && s[n - 15] == '-' == s[n - 12] && s[n - 9] == ' ' && s[n - 6] == ':' == s[n - 3]
  {
  }

  /** A stale message never passes for a fresh one: on one day of reading, equal stamps are of equal instants, and a
      stamp is a bare clock exactly when its instant falls on that day. */
  lemma StampTellsInstant(a: string, d: LocalTime, b: string, e: LocalTime, now: LocalTime)
    requires TwoDigits(d) && TwoDigits(e)
    ensures |RenderTs(a, Some(d), now)| <= 8 <==> SameDay(d, now)
    ensures RenderTs(a, Some(d), now) == RenderTs(b, Some(e), now) ==> d == e
  {
    StampReads(a, d, now);
    StampReads(b, e, now);
    hide RenderTs, Number;
  }

  /** A body is shown raw exactly when it quotes no envelope machinery and no carriage return. */
  lemma PresentedRawIff(value: string)
    ensures PresentBody(value) == value <==>
            && !Includes(value, "<iap ") && !Includes(value, Close("iap"))
            && (forall tag :: tag == "message" || tag == "msg" || tag == "attachments" ==>
                  !Includes(value, Open(tag)) && !Includes(value, Close(tag)))
            && !Includes(value, CDATA_OPEN) && !Includes(value, CDATA_CLOSE) && !Includes(value, "\r")
  {
    CdataIsLonger(value);
    MarkersAre();
    hide Includes, Cdata, Open, Close;
    hide PRESENTATION_CDATA_MARKERS;
    if PresentBody(value) == value {
      forall tag | tag == "message" || tag == "msg" || tag == "attachments"
        ensures Open(tag) in PRESENTATION_CDATA_MARKERS && Close(tag) in PRESENTATION_CDATA_MARKERS
      {
      }
    }
  }

  lemma MarkersAre()
    ensures forall m :: m in PRESENTATION_CDATA_MARKERS <==>
              m == "<iap " || m == Close("iap") || m == Open("message") || m == Close("message") || m == Open("msg")
              || m == Close("msg") || m == Open("attachments") || m == Close("attachments") || m == CDATA_OPEN
              || m == CDATA_CLOSE || m == "\r"
  {
    assert Close("iap") == "</iap>" && Open("message") == "<message>" && Close("message") == "</message>";
    assert Open("msg") == "<msg>" && Close("msg") == "</msg>";
    assert Open("attachments") == "<attachments>" && Close("attachments") == "</attachments>";
    hide Open, Close;
  }

  lemma CdataIsLonger(value: string)
    ensures |Cdata(value)| > |value|
  {
    ReplaceGrows(value);
    hide ReplaceAll;
  }

  lemma {:induction false} ReplaceGrows(value: string)
    ensures |ReplaceAll(value, CDATA_CLOSE, CDATA_SPLIT)| >= |value|
    decreases |value|
  {
    hide At;
    if value != "" {
      if At(value, CDATA_CLOSE, 0) {
        ReplaceGrows(value[3..]);
      } else {
        ReplaceGrows(value[1..]);
      }
    }
  }

  /** The envelope an agent sees: the same, with the time stamp compacted. */
  function Presented(env: Envelope, parse: string -> Option<LocalTime>, now: LocalTime): Envelope {
    env.(sentAt := match env.sentAt case None => None case Some(ts) => Some(RenderTs(ts, parse(ts), now)))
  }

  predicate Nameable(env: Envelope) {
    QuietValue(env.fromPersonality) && QuietValue(env.fromRuntime)
      && (env.sentAt.Some? ==> QuietValue(env.sentAt.value))
  }

  /** What decoding leaves true of an envelope. */
  predicate WellDecoded(env: Envelope) {
    && env.fromPersonality != "" && env.fromRuntime != ""
    && env.sentAt != Some("") && env.topic != Some("")
    && forall i :: 0 <= i < |env.attachments| ==> CleanPath(env.attachments[i])
  }

  lemma DecodedIsWellDecoded(xml: string)
    requires DecodeEnvelope(xml).Ok?
    ensures WellDecoded(DecodeEnvelope(xml).envelope)
  {
    ListedPathsAreClean(TagContent(xml, "attachments"));
  }

  lemma AgentAttrsReadable(env: Envelope, parse: string -> Option<LocalTime>, now: LocalTime)
    requires WellDecoded(env) && Nameable(env)
    ensures var attrs := AgentAttrs(env, parse, now); Readable(attrs) && attrs != [] && attrs[0].name != ""
  {
    CodecNames();
    if env.fromIntelligence.Some? {
      QuietIntelligence(env.fromIntelligence.value);
    }
    if env.sentAt.Some? {
      RenderedTsIsQuiet(env.sentAt.value, parse(env.sentAt.value), now);
    }
    hide PlainName, QuietValue;
  }

  lemma LookupOptionals(sender: seq<Attr>, intelligence: Option<string>, ts: Option<string>, topic: Option<string>,
                        name: string)
    ensures Lookup(sender + OptionalAttr("intelligence", intelligence) + OptionalAttr("ts", ts)
                   + OptionalAttr("topic", topic), name)
         == Lookup(sender, name).OrElse(
              if name == "intelligence" then NonEmpty(intelligence) else None).OrElse(
              if name == "ts" then NonEmpty(ts) else None).OrElse(
              if name == "topic" then NonEmpty(topic) else None)
  {
    LookupAppend(sender + OptionalAttr("intelligence", intelligence) + OptionalAttr("ts", ts),
                 OptionalAttr("topic", topic), name);
    LookupAppend(sender + OptionalAttr("intelligence", intelligence), OptionalAttr("ts", ts), name);
    LookupAppend(sender, OptionalAttr("intelligence", intelligence), name);
    LookupOptional("intelligence", intelligence, name);
    LookupOptional("ts", ts, name);
    LookupOptional("topic", topic, name);
  }

  lemma LookupTwo(a: Attr, b: Attr, name: string)
    ensures Lookup([a, b], name)
         == if name == a.name then Some(a.value) else if name == b.name then Some(b.value) else None
  {
    assert [a, b] == [a] + [b] && [b] == [b] + [];
    LookupCons(a, [b], name);
    LookupCons(b, [], name);
  }

  lemma AgentLookup(env: Envelope, parse: string -> Option<LocalTime>, now: LocalTime, name: string)
    requires WellDecoded(env) && Nameable(env)
    ensures Lookup(AgentAttrs(env, parse, now), name)
         == (if name == "from" then Some(env.fromPersonality)
             else if name == "runtime" then Some(env.fromRuntime)
             else None).OrElse(
              if name == "intelligence" && env.fromIntelligence.Some?
              then Some(IntelligenceName(env.fromIntelligence.value)) else None).OrElse(
              if name == "ts" then Presented(env, parse, now).sentAt else None).OrElse(
              if name == "topic" then env.topic else None)
  {
    var intelligence := if env.fromIntelligence.None? then None else Some(IntelligenceName(env.fromIntelligence.value));
    var a, b := Attr("from", env.fromPersonality), Attr("runtime", env.fromRuntime);
    if env.sentAt.Some? {
      RenderedTsIsQuiet(env.sentAt.value, parse(env.sentAt.value), now);
    }
    LookupOptionals([a, b], intelligence, Presented(env, parse, now).sentAt, env.topic, name);
    LookupTwo(a, b, name);
    hide Lookup, Nameable, RenderTs;
  }

  lemma AgentLookups(env: Envelope, parse: string -> Option<LocalTime>, now: LocalTime)
    requires WellDecoded(env) && Nameable(env)
    ensures Assemble(AgentAttrs(env, parse, now), Some(Join(env.attachments, "\n")), env.message)
         == Ok(Presented(env, parse, now))
  {
    AttachmentsRoundTrip(env.attachments);
    if env.sentAt.Some? {
      RenderedTsIsQuiet(env.sentAt.value, parse(env.sentAt.value), now);
    }
    NamesDiffer();
    hide Lookup, AgentAttrs, AttachmentList, Join, Nameable, RenderTs;
    AgentLookup(env, parse, now, "from");
    AgentLookup(env, parse, now, "runtime");
    AgentLookup(env, parse, now, "intelligence");
    AgentLookup(env, parse, now, "from-intelligence");
    AgentLookup(env, parse, now, "ts");
    AgentLookup(env, parse, now, "topic");
  }

  lemma NamesDiffer()
    ensures "intelligence" != "from" && "intelligence" != "runtime" && "ts" != "from" && "topic" != "intelligence"
    ensures "from-intelligence" != "runtime" && "from-intelligence" != "intelligence"
  {
  }

  /** The agent-facing render of anything that decodes reads back as the same envelope, time stamp compacted,
      whether each body went out raw or in CDATA. */
  lemma PresentationPreservesMeaning(xml: string, parse: string -> Option<LocalTime>, now: LocalTime)
    requires DecodeEnvelope(xml).Ok? && Nameable(DecodeEnvelope(xml).envelope)
    ensures DecodeEnvelope(RenderForAgent(xml, parse, now)) == Ok(Presented(DecodeEnvelope(xml).envelope, parse, now))
  {
    DecodedIsWellDecoded(xml);
    var env := DecodeEnvelope(xml).envelope;
    var attrs := AgentAttrs(env, parse, now);
    var av := Join(env.attachments, "\n");
    var a := if env.attachments == [] then None else Some(PresentBody(av));
    JoinedLines(attrs, a, "msg", PresentBody(env.message));
    AgentAttrsReadable(env, parse, now);
    PresentBodyCarries(av);
    PresentBodyCarries(env.message);
    AgentLookups(env, parse, now);
    assert AttachmentList(if a.Some? then Some(av) else None) == AttachmentList(Some(av));
    hide Readable, AgentAttrs, DecodeEnvelope, Layout, Cdata, Join, Presented, PresentBody, AttachmentList, Carries;
    DecodeLayout(attrs, a, av, "msg", PresentBody(env.message), env.message);
  }

  /** On wire envelopes: every field of the input reaches the agent. */
  lemma WirePresentation(input: EnvelopeInput, parse: string -> Option<LocalTime>, now: LocalTime)
    requires Sendable(input)
    ensures DecodeEnvelope(RenderForAgent(BuildEnvelope(input), parse, now))
            == Ok(Presented(Received(input), parse, now))
  {
    WireRoundTrip(input);
    PresentationPreservesMeaning(BuildEnvelope(input), parse, now);
  }
}
