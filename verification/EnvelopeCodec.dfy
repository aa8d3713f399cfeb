/** The IAP envelope codec: the wire printer, the CDATA-aware read-both parser, the streaming extractor and
    the compact agent-facing printer. Functions give the meaning of each loop; the methods are the loops. */
module EnvelopeCodec {
  import opened Text

  const CDATA_OPEN := "<![CDATA["
  const CDATA_CLOSE := "]]>"
  const CDATA_SPLIT := "]]]]><![CDATA[>"
  const IAP_INSTRUCTION := "Reply via send_to_peer."
  const MAX_TOPIC_LEN := 200
  const MAX_OPEN_TAG_LEN := 1024

  // ---------------------------------------------------------------- data

  datatype Intelligence = Artificial | Natural | NoIntelligence

  datatype EnvelopeInput = EnvelopeInput(
    fromPersonality: string,
    fromRuntime: string,
    fromIntelligence: Intelligence,
    sentAt: Option<string>,
    topic: Option<string>,
    attachments: seq<string>,
    message: string)

  datatype Envelope = Envelope(
    fromPersonality: string,
    fromRuntime: string,
    fromIntelligence: Option<Intelligence>,
    sentAt: Option<string>,
    topic: Option<string>,
    attachments: seq<string>,
    message: string)

  datatype DecodeError = MissingOpenTag | MissingSender | MissingMessage

  datatype Decoded = Ok(envelope: Envelope) | Invalid(error: DecodeError)

  function IntelligenceName(i: Intelligence): string {
    match i
    case Artificial => "artificial"
    case Natural => "natural"
    case NoIntelligence => "absent"
  }

  /** The contract vocabulary plus the two legacy spellings; anything else is dropped. */
  function NormalizeIntelligence(v: Option<string>): Option<Intelligence> {
    match v
    case None => None
    case Some(s) =>
      if s == "artificial" then Some(Artificial)
      else if s == "natural" || s == "human" then Some(Natural)
      else if s == "absent" || s == "scripted" then Some(NoIntelligence)
      else None
  }

  /** An optional field tested for truthiness: empty text counts as absent. */
  function NonEmpty(v: Option<string>): Option<string> {
    if v == Some("") then None else v
  }

  // ---------------------------------------------------------------- printing

  function EscapeAttr(value: string): string {
    ReplaceAll(ReplaceAll(ReplaceAll(ReplaceAll(value, "&", "&amp;"), "\"", "&quot;"), "<", "&lt;"), ">", "&gt;")
  }

  function UnescapeAttr(value: string): string {
    ReplaceAll(ReplaceAll(ReplaceAll(ReplaceAll(value, "&quot;", "\""), "&lt;", "<"), "&gt;", ">"), "&amp;", "&")
  }

  function Cdata(value: string): string {
    CDATA_OPEN + ReplaceAll(value, CDATA_CLOSE, CDATA_SPLIT) + CDATA_CLOSE
  }

  datatype Attr = Attr(name: string, value: string)

  function RenderAttr(a: Attr): string {
    a.name + "=\"" + EscapeAttr(a.value) + "\""
  }

  function RenderAttrs(attrs: seq<Attr>): string {
    Join(seq(|attrs|, i requires 0 <= i < |attrs| => RenderAttr(attrs[i])), " ")
  }

  function OptionalAttr(name: string, value: Option<string>): seq<Attr> {
    match NonEmpty(value)
    case None => []
    case Some(v) => [Attr(name, v)]
  }

  /** The topic an envelope carries: trimmed, cut to 200 characters, absent when nothing is left. */
  function WireTopic(topic: Option<string>): Option<string> {
    match topic
    case None => None
    case Some(t) =>
      var trimmed := Trim(t);
      NonEmpty(Some(if |trimmed| > MAX_TOPIC_LEN then trimmed[..MAX_TOPIC_LEN] else trimmed))
  }

  function WireAttrs(input: EnvelopeInput): seq<Attr> {
    [Attr("from-personality", input.fromPersonality),
     Attr("from-runtime", input.fromRuntime),
     Attr("from-intelligence", IntelligenceName(input.fromIntelligence))]
    + OptionalAttr("ts", input.sentAt)
    + OptionalAttr("topic", WireTopic(input.topic))
  }

  function OpenTagText(attrs: seq<Attr>): string {
    "<iap " + RenderAttrs(attrs) + ">"
  }

  function Open(tag: string): string {
    "<" + tag + ">"
  }

  function Close(tag: string): string {
    "</" + tag + ">"
  }

  function Element(tag: string, body: string): string {
    Open(tag) + body + Close(tag)
  }

  function BuildEnvelope(input: EnvelopeInput): string {
    Join(
      [OpenTagText(WireAttrs(input)), IAP_INSTRUCTION]
      + (if input.attachments != [] then [Element("attachments", Cdata(Join(input.attachments, "\n")))] else [])
      + [Element("message", Cdata(input.message)), Close("iap")],
      "\n")
  }

  // ---------------------------------------------------------------- scanning outside CDATA

  /** The first place `needle` starts outside every CDATA section of `s`; none when an unterminated section
      is met before it. */
  function OutsideCdata(s: string, needle: string): (r: Option<nat>)
    ensures r.Some? ==> At(s, needle, r.value)
    decreases |s|
  {
    if s == "" then None
    else if At(s, CDATA_OPEN, 0) then
      match IndexOf(s[|CDATA_OPEN|..], CDATA_CLOSE)
      case None => None
      case Some(k) =>
        var next := |CDATA_OPEN| + k + |CDATA_CLOSE|;
        var r := OutsideCdata(s[next..], needle);
        assert r.Some? ==> At(s, needle, next + r.value) by {
          if r.Some? { AtDrop(s, needle, next, r.value); }
        }
        Shift(r, next)
    else if At(s, needle, 0) then Some(0)
    else
      var r := OutsideCdata(s[1..], needle);
      assert r.Some? ==> At(s, needle, 1 + r.value) by {
        if r.Some? { AtDrop(s, needle, 1, r.value); }
      }
      Shift(r, 1)
  }

  /** The content of an element up to its close tag: CDATA sections concatenated with the stray raw text. */
  function ReadSections(s: string, close: string): Option<string>
    decreases |s|
  {
    if s == "" then None
    else if At(s, CDATA_OPEN, 0) then
      var body := s[|CDATA_OPEN|..];
      match IndexOf(body, CDATA_CLOSE)
      case None => Some(body)
      case Some(k) => Prepend(body[..k], ReadSections(body[k + |CDATA_CLOSE|..], close))
    else if At(s, close, 0) then Some("")
    else Prepend([s[0]], ReadSections(s[1..], close))
  }

  function TagContent(xml: string, tag: string): Option<string> {
    match OutsideCdata(xml, Open(tag))
    case None => None
    case Some(k) => ReadSections(xml[k + |Open(tag)|..], Close(tag))
  }

  /** The end of the CDATA section at the head of `s`. */
  function AfterSection(s: string): (next: nat)
    requires At(s, CDATA_OPEN, 0) && IndexOf(s[|CDATA_OPEN|..], CDATA_CLOSE).Some?
    ensures 0 < next <= |s|
  {
    |CDATA_OPEN| + IndexOf(s[|CDATA_OPEN|..], CDATA_CLOSE).value + |CDATA_CLOSE|
  }

  lemma OutsideUnfolds(s: string, needle: string)
    ensures s == "" ==> OutsideCdata(s, needle) == None
    ensures At(s, CDATA_OPEN, 0) ==>
              OutsideCdata(s, needle)
              == if IndexOf(s[|CDATA_OPEN|..], CDATA_CLOSE).None? then None
                 else Shift(OutsideCdata(s[AfterSection(s)..], needle), AfterSection(s))
    ensures s != "" && !At(s, CDATA_OPEN, 0) && At(s, needle, 0) ==> OutsideCdata(s, needle) == Some(0)
    ensures s != "" && !At(s, CDATA_OPEN, 0) && !At(s, needle, 0) ==>
            OutsideCdata(s, needle) == Shift(OutsideCdata(s[1..], needle), 1)
  {
  }

  lemma ReadUnfolds(s: string, close: string)
    ensures s == "" ==> ReadSections(s, close) == None
    ensures At(s, CDATA_OPEN, 0) ==>
              ReadSections(s, close)
              == var body := s[|CDATA_OPEN|..];
                 if IndexOf(body, CDATA_CLOSE).None? then Some(body)
                 else Prepend(body[..IndexOf(body, CDATA_CLOSE).value], ReadSections(s[AfterSection(s)..], close))
    ensures s != "" && !At(s, CDATA_OPEN, 0) && At(s, close, 0) ==> ReadSections(s, close) == Some("")
    ensures s != "" && !At(s, CDATA_OPEN, 0) && !At(s, close, 0) ==>
              ReadSections(s, close) == Prepend([s[0]], ReadSections(s[1..], close))
  {
    hide At;
    if At(s, CDATA_OPEN, 0) && IndexOf(s[|CDATA_OPEN|..], CDATA_CLOSE).Some? {
      var body := s[|CDATA_OPEN|..];
      assert body[IndexOf(body, CDATA_CLOSE).value + |CDATA_CLOSE|..] == s[AfterSection(s)..];
    }
  }

  lemma NothingAtTheEnd(buffer: string, needle: string)
    ensures OutsideCdata(buffer[|buffer|..], needle) == None
    ensures ReadSections(buffer[|buffer|..], needle) == None
  {
  }

  /** The scan at position `i` of a buffer, in the buffer's own indices. */
  lemma OutsideCdataAt(buffer: string, needle: string, i: nat)
    requires i < |buffer|
    ensures At(buffer, CDATA_OPEN, i) ==>
              OutsideCdata(buffer[i..], needle)
              == match IndexOf(buffer[i + |CDATA_OPEN|..], CDATA_CLOSE)
                 case None => None
                 case Some(k) => Shift(OutsideCdata(buffer[i + |CDATA_OPEN| + k + |CDATA_CLOSE|..], needle),
                                       |CDATA_OPEN| + k + |CDATA_CLOSE|)
    ensures !At(buffer, CDATA_OPEN, i) && At(buffer, needle, i) ==> OutsideCdata(buffer[i..], needle) == Some(0)
    ensures !At(buffer, CDATA_OPEN, i) && !At(buffer, needle, i) ==>
              OutsideCdata(buffer[i..], needle) == Shift(OutsideCdata(buffer[i + 1..], needle), 1)
  {
    hide At, OutsideCdata, IndexOf;
    AtDrop(buffer, CDATA_OPEN, i, 0);
    AtDrop(buffer, needle, i, 0);
    var s := buffer[i..];
    OutsideUnfolds(s, needle);
    DropDrop(buffer, i, 1);
    if At(s, CDATA_OPEN, 0) {
      DropDrop(buffer, i, |CDATA_OPEN|);
      if IndexOf(s[|CDATA_OPEN|..], CDATA_CLOSE).Some? {
        DropDrop(buffer, i, AfterSection(s));
      }
    }
  }

  lemma ReadSectionsAt(xml: string, close: string, i: nat)
    requires i < |xml|
    ensures At(xml, CDATA_OPEN, i) ==>
              ReadSections(xml[i..], close)
              == var body := xml[i + |CDATA_OPEN|..];
                 match IndexOf(body, CDATA_CLOSE)
                 case None => Some(body)
                 case Some(k) => Prepend(body[..k], ReadSections(xml[i + |CDATA_OPEN| + k + |CDATA_CLOSE|..], close))
    ensures !At(xml, CDATA_OPEN, i) && At(xml, close, i) ==> ReadSections(xml[i..], close) == Some("")
    ensures !At(xml, CDATA_OPEN, i) && !At(xml, close, i) ==>
              ReadSections(xml[i..], close) == Prepend([xml[i]], ReadSections(xml[i + 1..], close))
  {
    hide At, ReadSections, IndexOf;
    AtDrop(xml, CDATA_OPEN, i, 0);
    AtDrop(xml, close, i, 0);
    var s := xml[i..];
    ReadUnfolds(s, close);
    DropDrop(xml, i, 1);
    if At(s, CDATA_OPEN, 0) {
      DropDrop(xml, i, |CDATA_OPEN|);
      if IndexOf(s[|CDATA_OPEN|..], CDATA_CLOSE).Some? {
        DropDrop(xml, i, AfterSection(s));
      }
    }
  }

  lemma PrependPrepend(a: string, b: string, r: Option<string>)
    ensures Prepend(a, Prepend(b, r)) == Prepend(a + b, r)
  {
    if r.Some? {
      assert a + (b + r.value) == (a + b) + r.value;
    }
  }

  /** The index loop behind every "find this tag" of the codec; -1 when there is none. */
  method IndexOfOutsideCdata(buffer: string, needle: string, start: nat) returns (r: int)
    requires start <= |buffer|
    ensures match OutsideCdata(buffer[start..], needle) case None => r == -1 case Some(k) => r == start + k
  {
    hide OutsideCdata, IndexOf, At;
    var i := start;
    while i < |buffer|
      invariant start <= i <= |buffer|
      invariant OutsideCdata(buffer[start..], needle) == Shift(OutsideCdata(buffer[i..], needle), i - start)
    {
      OutsideCdataAt(buffer, needle, i);
      if At(buffer, CDATA_OPEN, i) {
        var term := IndexOf(buffer[i + |CDATA_OPEN|..], CDATA_CLOSE);
        if term.None? {
          return -1;
        }
        i := i + |CDATA_OPEN| + term.value + |CDATA_CLOSE|;
      } else if At(buffer, needle, i) {
        return i;
      } else {
        i := i + 1;
      }
    }
    NothingAtTheEnd(buffer, needle);
    return -1;
  }

  /** The content loop: sections and stray raw text are appended to `out` until the close tag. */
  method ReadTagContent(xml: string, tag: string) returns (r: Option<string>)
    ensures r == TagContent(xml, tag)
  {
    hide ReadSections, OutsideCdata, IndexOf, At, Open, Close;
    var open, close := Open(tag), Close(tag);
    var openIdx := IndexOfOutsideCdata(xml, open, 0);
    assert xml[0..] == xml;
    if openIdx < 0 {
      return None;
    }
    var i, out: string := openIdx + |open|, "";
    ghost var all := ReadSections(xml[i..], close);
    assert all.Some? ==> "" + all.value == all.value;
    while i < |xml|
      invariant 0 <= i <= |xml|
      invariant all == Prepend(out, ReadSections(xml[i..], close))
    {
      ReadSectionsAt(xml, close, i);
      if At(xml, CDATA_OPEN, i) {
        var body := xml[i + |CDATA_OPEN|..];
        var term := IndexOf(body, CDATA_CLOSE);
        if term.None? {
          return Some(out + body);
        }
        i := i + |CDATA_OPEN| + term.value + |CDATA_CLOSE|;
        PrependPrepend(out, body[..term.value], ReadSections(xml[i..], close));
        out := out + body[..term.value];
      } else if At(xml, close, i) {
        assert out + "" == out;
        return Some(out);
      } else {
        PrependPrepend(out, [xml[i]], ReadSections(xml[i + 1..], close));
        out := out + [xml[i]];
        i := i + 1;
      }
    }
    NothingAtTheEnd(xml, close);
    return None;
  }

  // ---------------------------------------------------------------- attributes

  /** `name="…"` at the head of `s`: the text up to the next quote. */
  function AttrMatch(s: string, name: string): Option<string> {
    var key := name + "=\"";
    if !At(s, key, 0) then None
    else
      match IndexOf(s[|key|..], "\"")
      case None => None
      case Some(k) => Some(s[|key|..][..k])
  }

  /** The leftmost `name="…"` preceded by whitespace. */
  function AttrScan(s: string, name: string): Option<string> {
    if s == "" then None
    else if IsSpace(s[0]) && AttrMatch(s[1..], name).Some? then AttrMatch(s[1..], name)
    else AttrScan(s[1..], name)
  }

  /** Name-anchored lookup: at the start of the attribute text or after whitespace, never in a longer name. */
  function AttrValue(attrs: string, name: string): Option<string> {
    match AttrMatch(attrs, name).OrElse(AttrScan(attrs, name))
    case None => None
    case Some(raw) => Some(UnescapeAttr(raw))
  }

  // ---------------------------------------------------------------- decoding

  datatype OpenTag = OpenTag(attrs: string, length: nat)

  /** The match of `^<iap\s+([^>]*)>`. */
  function MatchOpenTag(s: string): Option<OpenTag> {
    if !At(s, "<iap", 0) then None
    else
      var skipped := 4 + LeadingSpaces(s[4..]);
      if skipped == 4 then None
      else
        match IndexOf(s[skipped..], ">")
        case None => None
        case Some(k) => Some(OpenTag(s[skipped..][..k], skipped + k + 1))
  }

  function TrimAll(lines: seq<string>): seq<string> {
    if lines == [] then []
    else
      var line := Trim(lines[0]);
      (if line == "" then [] else [line]) + TrimAll(lines[1..])
  }

  /** Attachments as the decoder lists them: one trimmed non-empty path a line. */
  function AttachmentList(raw: Option<string>): seq<string> {
    match NonEmpty(raw)
    case None => []
    case Some(text) => TrimAll(Split(text))
  }

  /** The fields read from the attribute text, the message content and the attachment content. */
  function DecodeFields(attrs: string, message: Option<string>, attachments: Option<string>): Decoded {
    var personality := NonEmpty(AttrValue(attrs, "from").OrElse(AttrValue(attrs, "from-personality")));
    var runtime := NonEmpty(AttrValue(attrs, "runtime").OrElse(AttrValue(attrs, "from-runtime")));
    if personality.None? || runtime.None? then Invalid(MissingSender)
    else if message.None? then Invalid(MissingMessage)
    else
      Ok(Envelope(
           personality.value,
           runtime.value,
           NormalizeIntelligence(AttrValue(attrs, "intelligence").OrElse(AttrValue(attrs, "from-intelligence"))),
           NonEmpty(AttrValue(attrs, "ts")),
           NonEmpty(AttrValue(attrs, "topic")),
           AttachmentList(attachments),
           message.value))
  }

  /** Read-both: short names win over the legacy long ones, `<message>` over `<msg>`. */
  function DecodeEnvelope(xml: string): Decoded {
    match MatchOpenTag(Trim(xml))
    case None => Invalid(MissingOpenTag)
    case Some(open) =>
      DecodeFields(open.attrs, TagContent(xml, "message").OrElse(TagContent(xml, "msg")),
        TagContent(xml, "attachments"))
  }

  // ---------------------------------------------------------------- extraction from a stream

  datatype Verdict = ValidTag | InvalidTag | IncompleteTag

  /** `(?:^|\s)name="` occurs in `s`. */
  predicate AnchoredKey(s: string, name: string) {
    At(s, name + "=\"", 0) || AnchoredKeyAfterSpace(s, name)
  }

  predicate AnchoredKeyAfterSpace(s: string, name: string) {
    s != "" && ((IsSpace(s[0]) && At(s[1..], name + "=\"", 0)) || AnchoredKeyAfterSpace(s[1..], name))
  }

  predicate HasKey(attrs: string, long: string, short: string) {
    Includes(attrs, long + "=\"") || AnchoredKey(attrs, short)
  }

  function OpenTagVerdict(candidate: string): Verdict {
    match MatchOpenTag(candidate)
    case None =>
      if IndexOf(candidate, ">").None? && |candidate| <= MAX_OPEN_TAG_LEN then IncompleteTag else InvalidTag
    case Some(m) =>
      if m.length > MAX_OPEN_TAG_LEN then InvalidTag
      else if HasKey(m.attrs, "from-personality", "from") && HasKey(m.attrs, "from-runtime", "runtime") then ValidTag
      else InvalidTag
  }

  datatype Extraction = Extraction(envelopes: seq<string>, rest: string)

  /** The last five characters: all of a split `<iap ` marker that a noisy buffer can hold. */
  function Tail(s: string): string {
    if |s| > 5 then s[|s| - 5..] else s
  }

  function After(envelopes: seq<string>, more: Extraction): Extraction {
    Extraction(envelopes + more.envelopes, more.rest)
  }

  /** What one pass over the buffer yields, by suffixes of the buffer. */
  function Extract(buffer: string): Extraction
    decreases |buffer|, 1
  {
    match IndexOf(buffer, "<iap ")
    case None => Extraction([], Tail(buffer))
    case Some(k) => AtDrop(buffer, "<iap ", k, 0); ExtractAt(buffer[k..])
  }

  function ExtractAt(rest: string): Extraction
    requires At(rest, "<iap ", 0)
    decreases |rest|, 0
  {
    match OpenTagVerdict(rest)
    case IncompleteTag => Extraction([], rest)
    case InvalidTag => Extract(rest[1..])
    case ValidTag =>
      match OutsideCdata(rest[5..], Close("iap"))
      case None => Extraction([], rest)
      case Some(close) =>
        var end := 5 + close + 6;
        if DecodeEnvelope(rest[..end]).Invalid? then Extract(rest[1..])
        else
          After([rest[..end]], Extract(rest[end..]))
  }

  lemma AfterAfter(a: seq<string>, b: seq<string>, more: Extraction)
    ensures After(a, After(b, more)) == After(a + b, more)
  {
    assert a + (b + more.envelopes) == a + b + more.envelopes;
  }

  lemma ExtractUnfolds(buffer: string)
    ensures match IndexOf(buffer, "<iap ")
            case None => Extract(buffer) == Extraction([], Tail(buffer))
            case Some(k) =>
              At(buffer[k..], "<iap ", 0) && |buffer[k..]| >= 5 && Extract(buffer) == ExtractAt(buffer[k..])
  {
    hide ExtractAt, At;
    if IndexOf(buffer, "<iap ").Some? {
      AtDrop(buffer, "<iap ", IndexOf(buffer, "<iap ").value, 0);
    }
  }

  lemma ExtractAtUnfolds(rest: string)
    requires At(rest, "<iap ", 0)
    ensures match OpenTagVerdict(rest)
            case IncompleteTag => ExtractAt(rest) == Extraction([], rest)
            case InvalidTag => ExtractAt(rest) == Extract(rest[1..])
            case ValidTag =>
              match OutsideCdata(rest[5..], Close("iap"))
              case None => ExtractAt(rest) == Extraction([], rest)
              case Some(close) =>
                var end := 5 + close + 6;
                end <= |rest|
                && ExtractAt(rest) == if DecodeEnvelope(rest[..end]).Invalid? then Extract(rest[1..])
                                      else After([rest[..end]], Extract(rest[end..]))
  {
    hide OpenTagVerdict, OutsideCdata, DecodeEnvelope, Extract, At;
  }

  method ExtractEnvelopes(buffer: string) returns (envelopes: seq<string>, rest: string)
    ensures Extraction(envelopes, rest) == Extract(buffer)
  {
    hide Extract, ExtractAt, OpenTagVerdict, OutsideCdata, DecodeEnvelope, IndexOf, At, Tail, Close;
    envelopes, rest := [], buffer;
    ghost var all := Extract(buffer);
    assert all == After([], all);
    while true
      invariant all == After(envelopes, Extract(rest))
      decreases |rest|
    {
      assert envelopes + [] == envelopes;
      var start := IndexOf(rest, "<iap ");
      ExtractUnfolds(rest);
      if start.None? {
        rest := Tail(rest);
        return;
      }
      rest := rest[start.value..];
      ExtractAtUnfolds(rest);
      var verdict := OpenTagVerdict(rest);
      if verdict == IncompleteTag {
        return;
      }
      if verdict == InvalidTag {
        rest := rest[1..];
        continue;
      }
      var close := IndexOfOutsideCdata(rest, Close("iap"), 5);
      if close < 0 {
        return;
      }
      var end := close + 6;
      var candidate := rest[..end];
      if DecodeEnvelope(candidate).Invalid? {
        rest := rest[1..];
        continue;
      }
      AfterAfter(envelopes, [candidate], Extract(rest[end..]));
      envelopes := envelopes + [candidate];
      rest := rest[end..];
    }
  }

  // ---------------------------------------------------------------- the agent-facing printer

  const PRESENTATION_CDATA_MARKERS: seq<string> :=
    ["<iap ", "</iap>", "<message>", "</message>", "<msg>", "</msg>", "<attachments>", "</attachments>",
     "<![CDATA[", "]]>", "\r"]

  function PresentBody(value: string): string {
    if exists m | m in PRESENTATION_CDATA_MARKERS :: Includes(value, m) then Cdata(value) else value
  }

  /** Local date and time components of an instant. */
  datatype LocalTime = LocalTime(year: nat, month: nat, day: nat, hour: nat, minute: nat, second: nat)

  function Digit(d: nat): char
    requires d < 10
  {
    "0123456789"[d]
  }

  function Decimal(n: nat): (s: string)
    ensures s != "" && forall i :: 0 <= i < |s| ==> '0' <= s[i] <= '9'
  {
    if n < 10 then [Digit(n)] else Decimal(n / 10) + [Digit(n % 10)]
  }

  function Pad2(n: nat): string {
    if n < 10 then "0" + Decimal(n) else Decimal(n)
  }

  function ClockText(t: LocalTime): string {
    Pad2(t.hour) + ":" + Pad2(t.minute) + ":" + Pad2(t.second)
  }

  /** Time only when the send happened on the day of the render, date-prefixed otherwise; a stamp that does
      not parse (`instant` absent) passes through. */
  function RenderTs(sentAt: string, instant: Option<LocalTime>, now: LocalTime): string {
    match instant
    case None => sentAt
    case Some(d) =>
      if d.year == now.year && d.month == now.month && d.day == now.day then ClockText(d)
      else Decimal(d.year) + "-" + Pad2(d.month) + "-" + Pad2(d.day) + " " + ClockText(d)
  }

  function AgentAttrs(env: Envelope, parse: string -> Option<LocalTime>, now: LocalTime): seq<Attr> {
    [Attr("from", env.fromPersonality), Attr("runtime", env.fromRuntime)]
    + (match env.fromIntelligence case None => [] case Some(i) => [Attr("intelligence", IntelligenceName(i))])
    + (match NonEmpty(env.sentAt) case None => [] case Some(ts) => [Attr("ts", RenderTs(ts, parse(ts), now))])
    + OptionalAttr("topic", env.topic)
  }

  function RenderForAgent(wire: string, parse: string -> Option<LocalTime>, now: LocalTime): string {
    match DecodeEnvelope(wire)
    case Invalid(_) => wire
    case Ok(env) =>
      Join(
        [OpenTagText(AgentAttrs(env, parse, now)), IAP_INSTRUCTION]
        + (if env.attachments != [] then [Element("attachments", PresentBody(Join(env.attachments, "\n")))] else [])
        + [Element("msg", PresentBody(env.message)), Close("iap")],
        "\n")
  }
}
