/** Attribute text: unescaping undoes escaping, and a name-anchored lookup in a rendered attribute list
    returns exactly the value stored under that name. */
module EnvelopeAttributes {
  import opened Text
  import opened EnvelopeCodec

  // ---------------------------------------------------------------- escaping

  const SPECIAL: set<char> := {'&', '"', '<', '>'}

  function Code(c: char): string
    requires c in SPECIAL
  {
    if c == '&' then "&amp;" else if c == '"' then "&quot;" else if c == '<' then "&lt;" else "&gt;"
  }

  /** `s` with the characters of `done` replaced by their entities. */
  function Escaped(s: string, done: set<char>): string
    requires done <= SPECIAL
  {
    if s == "" then "" else Piece(s[0], done) + Escaped(s[1..], done)
  }

  function Piece(c: char, done: set<char>): string
    requires done <= SPECIAL
  {
    if c in done then Code(c) else [c]
  }

  lemma ClearIfNoChar(u: string, t: string, p: string)
    requires p != "" && p[0] !in u
    ensures Clear(u, t, p)
  {
    forall i: nat | i < |u|
      ensures !At(u + t, p, i)
    {
      assert (u + t)[i] == u[i];
      Mismatch(u + t, p, i, 0);
    }
  }

  lemma {:induction false} EscapeStep(s: string, done: set<char>, c: char)
    requires done <= SPECIAL && c in SPECIAL && c !in done && (c == '&' ==> done == {})
    ensures ReplaceAll(Escaped(s, done), [c], Code(c)) == Escaped(s, done + {c})
  {
    if s != "" {
      var w, rest := Piece(s[0], done), Escaped(s[1..], done);
      EscapeStep(s[1..], done, c);
      if s[0] == c {
        assert w + rest == [c] + rest;
        assert ([c] + rest)[1..] == rest;
      } else {
        ClearIfNoChar(w, rest, [c]);
        ReplaceAfter(w, rest, [c], Code(c));
      }
    }
  }

  lemma {:induction false} EscapedNothing(s: string)
    ensures Escaped(s, {}) == s
  {
    if s != "" {
      EscapedNothing(s[1..]);
    }
  }

  lemma EscapeAttrIsEscaped(s: string)
    ensures EscapeAttr(s) == Escaped(s, SPECIAL)
  {
    EscapedNothing(s);
    EscapeStep(s, {}, '&');
    EscapeStep(s, {'&'}, '"');
    EscapeStep(s, {'&', '"'}, '<');
    EscapeStep(s, {'&', '"', '<'}, '>');
    assert {} + {'&'} == {'&'} && {'&'} + {'"'} == {'&', '"'} && {'&', '"'} + {'<'} == {'&', '"', '<'};
    assert {'&', '"', '<'} + {'>'} == SPECIAL;
  }

  /** One entity is decoded while '&' itself is still escaped, or last of all. */
  lemma {:induction false} UnescapeStep(s: string, done: set<char>, c: char)
    requires done <= SPECIAL && c in done && (if c == '&' then done == {'&'} else '&' in done)
    ensures ReplaceAll(Escaped(s, done), Code(c), [c]) == Escaped(s, done - {c})
  {
    if s != "" {
      var w, rest := Piece(s[0], done), Escaped(s[1..], done);
      UnescapeStep(s[1..], done, c);
      if s[0] == c {
        assert At(Code(c) + rest, Code(c), 0);
        assert (Code(c) + rest)[|Code(c)|..] == rest;
      } else {
        NoOtherCode(s[0], done, c, rest);
        ReplaceAfter(w, rest, Code(c), [c]);
      }
    }
  }

  /** Inside the text of another character no entity for `c` starts. */
  lemma NoOtherCode(x: char, done: set<char>, c: char, rest: string)
    requires done <= SPECIAL && c in done && x != c && (if c == '&' then done == {'&'} else '&' in done)
    ensures Clear(Piece(x, done), rest, Code(c))
  {
    var w := Piece(x, done);
    forall i: nat | i < |w|
      ensures !At(w + rest, Code(c), i)
    {
      assert (w + rest)[i] == w[i];
      if i == 0 && x in done {
        assert (w + rest)[1] == w[1];
        Mismatch(w + rest, Code(c), 0, 1);
      } else {
        Mismatch(w + rest, Code(c), i, 0);
      }
    }
  }

  /** The escaper and the unescaper are inverse on every text. */
  lemma UnescapeEscape(s: string)
    ensures UnescapeAttr(EscapeAttr(s)) == s
  {
    EscapeAttrIsEscaped(s);
    UnescapeStep(s, SPECIAL, '"');
    UnescapeStep(s, {'&', '<', '>'}, '<');
    UnescapeStep(s, {'&', '>'}, '>');
    UnescapeStep(s, {'&'}, '&');
    EscapedNothing(s);
    assert SPECIAL - {'"'} == {'&', '<', '>'};
    assert {'&', '<', '>'} - {'<'} == {'&', '>'};
    assert {'&', '>'} - {'>'} == {'&'};
    assert {'&'} - {'&'} == {};
  }

  /** Escaped text holds no quote or angle bracket, and neither creates nor removes whitespace or a final '='. */
  lemma {:induction false} EscapedChars(s: string)
    ensures var e := Escaped(s, SPECIAL);
            && '"' !in e && '<' !in e && '>' !in e
            && (NoSpace(s) ==> NoSpace(e))
            && (s == "" <==> e == "")
            && (s != "" && s[|s| - 1] != '=' ==> e[|e| - 1] != '=')
  {
    EscapedUnfolds(s);
    hide Piece, Escaped, NoSpace, SPECIAL;
    if s != "" {
      EscapedChars(s[1..]);
      PieceChars(s[0]);
      NoSpaceParts(s);
      LastOfTwo(Piece(s[0], SPECIAL), Escaped(s[1..], SPECIAL));
    }
  }

  lemma EscapedUnfolds(s: string)
    ensures s == "" ==> Escaped(s, SPECIAL) == "" && NoSpace("")
    ensures s != "" ==> Escaped(s, SPECIAL) == Piece(s[0], SPECIAL) + Escaped(s[1..], SPECIAL)
  {
  }

  lemma PieceChars(c: char)
    ensures var w := Piece(c, SPECIAL);
            && w != "" && '"' !in w && '<' !in w && '>' !in w
            && (!IsSpace(c) ==> NoSpace(w))
            && (c != '=' ==> w[|w| - 1] != '=')
  {
    if c in SPECIAL {
      CodeChars(c);
    }
  }

  lemma CodeChars(c: char)
    requires c in SPECIAL
    ensures var w := Code(c); |w| >= 2 && forall i :: 0 <= i < |w| ==> w[i] == '&' || w[i] == ';' || 'a' <= w[i] <= 'z'
  {
  }

  lemma NoSpaceParts(s: string)
    requires s != ""
    ensures NoSpace(s) ==> !IsSpace(s[0]) && NoSpace(s[1..])
  {
    hide IsSpace;
  }

  lemma LastOfTwo(w: string, rest: string)
    requires w != ""
    ensures (w + rest)[|w + rest| - 1] == if rest == "" then w[|w| - 1] else rest[|rest| - 1]
    ensures NoSpace(w) && NoSpace(rest) ==> NoSpace(w + rest)
  {
    hide IsSpace;
  }

  // ---------------------------------------------------------------- lookup

  /** The first value stored under `name`. */
  function Lookup(attrs: seq<Attr>, name: string): Option<string> {
    if attrs == [] then None
    else if attrs[0].name == name then Some(attrs[0].value)
    else Lookup(attrs[1..], name)
  }

  /** A name the codec uses: no whitespace, '=', quote or angle bracket in it. */
  predicate PlainName(name: string) {
    NoSpace(name) && '=' !in name && '"' !in name && '<' !in name && '>' !in name
  }

  /** A value that cannot be mistaken for the start of another attribute: it holds no whitespace or does not
      end in '='. */
  predicate QuietValue(value: string) {
    NoSpace(value) || value[|value| - 1] != '='
  }

  /** Every value but the last is quiet. The last one may be any text: nothing follows its closing quote. */
  predicate Readable(attrs: seq<Attr>) {
    && (forall i :: 0 <= i < |attrs| ==> PlainName(attrs[i].name))
    && (forall i :: 0 <= i < |attrs| - 1 ==> QuietValue(attrs[i].value))
  }

  function RawAttr(name: string, escaped: string): string {
    name + "=\"" + escaped + "\""
  }

  lemma MatchAtAttr(name: string, escaped: string, t: string, wanted: string)
    requires PlainName(name) && PlainName(wanted) && '"' !in escaped
    ensures AttrMatch(RawAttr(name, escaped) + t, wanted) == if wanted == name then Some(escaped) else None
  {
    var s := RawAttr(name, escaped) + t;
    var key := wanted + "=\"";
    assert s[|name|] == '=' && s[..|name|] == name;
    if |key| <= |s| && s[0..|key|] == key {
      assert s[|wanted|] == s[0..|key|][|wanted|] == '=';
      assert s[..|wanted|] == s[0..|key|][..|wanted|] == wanted;
      // Both names end at the first '='.
      assert forall k :: 0 <= k < |name| ==> s[k] == name[k];
      assert forall k :: 0 <= k < |wanted| ==> s[k] == wanted[k];
      assert |wanted| == |name|;
    }
    if wanted == name {
      assert s == key + (escaped + "\"" + t);
      assert At(s, key, 0);
      assert s[|key|..] == escaped + ("\"" + t);
      ClearIfNoChar(escaped, "\"" + t, "\"");
      IndexOfAfter(escaped, "\"" + t, "\"");
      assert At("\"" + t, "\"", 0);
    }
  }

  /** No attribute starts inside the text of another one. */
  lemma NoMatchInside(name: string, escaped: string, t: string, wanted: string, i: nat)
    requires PlainName(name) && PlainName(wanted) && '"' !in escaped
    requires t == "" || QuietValue(escaped)
    requires i < |RawAttr(name, escaped)| && IsSpace(RawAttr(name, escaped)[i])
    ensures AttrMatch((RawAttr(name, escaped) + t)[i + 1..], wanted) == None
  {
    var u := RawAttr(name, escaped);
    var start := |name| + 2;
    var s := (u + t)[i + 1..];
    var key := wanted + "=\"";
    assert u[..|name|] == name;
    assert start <= i < |u| - 1 && u[i] == escaped[i - start];
    if At(s, key, 0) {
      // The key's quote is the first quote after position i, which is the closing one.
      var q := |wanted| + 1;
      assert forall k :: 0 <= k <= q ==> s[k] == s[0..|key|][k] == key[k];
      assert s[q] == '"' && forall k :: 0 <= k < q ==> s[k] != '"';
      var close := |u| - 1 - (i + 1);
      assert s[close] == u[|u| - 1] == '"';
      assert forall k :: 0 <= k < close ==> s[k] == escaped[i + 1 - start + k];
      assert q == close;
      assert escaped[|escaped| - 1] == u[|u| - 2] == s[q - 1] == key[q - 1] == '=';
      assert t == "";
      assert s[|key|..] == "";
    }
  }

  lemma {:induction false} ScanPast(u: string, t: string, wanted: string)
    requires forall i: nat :: i < |u| && IsSpace(u[i]) ==> AttrMatch((u + t)[i + 1..], wanted) == None
    ensures AttrScan(u + t, wanted) == AttrScan(t, wanted)
  {
    if u == "" {
      assert u + t == t;
    } else {
      assert (u + t)[1..] == u[1..] + t;
      forall i: nat | i < |u[1..]| && IsSpace(u[1..][i])
        ensures AttrMatch((u[1..] + t)[i + 1..], wanted) == None
      {
        assert (u[1..] + t)[i + 1..] == (u + t)[i + 1 + 1..];
      }
      ScanPast(u[1..], t, wanted);
    }
  }

  lemma RenderAttrsCons(attrs: seq<Attr>)
    requires attrs != []
    ensures |attrs| == 1 ==> RenderAttrs(attrs) == RenderAttr(attrs[0])
    ensures |attrs| > 1 ==> RenderAttrs(attrs) == RenderAttr(attrs[0]) + (" " + RenderAttrs(attrs[1..]))
  {
    var texts := seq(|attrs|, i requires 0 <= i < |attrs| => RenderAttr(attrs[i]));
    var rest := attrs[1..];
    assert texts[1..] == seq(|rest|, i requires 0 <= i < |rest| => RenderAttr(rest[i]));
  }

  lemma QuietEscaped(value: string)
    ensures '"' !in EscapeAttr(value) && (QuietValue(value) ==> QuietValue(EscapeAttr(value)))
  {
    EscapeAttrIsEscaped(value);
    EscapedChars(value);
  }

  /** After the separator of two attributes the scan tries the next one. */
  lemma ScanSeparator(s: string, wanted: string)
    ensures AttrScan(" " + s, wanted) == AttrMatch(s, wanted).OrElse(AttrScan(s, wanted))
  {
    assert (" " + s)[1..] == s;
  }

  /** What a list entry leaves to find: nothing in itself, the rest after its separator. */
  lemma {:induction false} LookupRaw(attrs: seq<Attr>, wanted: string)
    requires attrs != [] && Readable(attrs) && PlainName(wanted)
    ensures AttrMatch(RenderAttrs(attrs), wanted).OrElse(AttrScan(RenderAttrs(attrs), wanted))
         == match Lookup(attrs, wanted) case None => None case Some(v) => Some(EscapeAttr(v))
  {
    var a := attrs[0];
    QuietEscaped(a.value);
    var escaped := EscapeAttr(a.value);
    var u := RawAttr(a.name, escaped);
    RenderAttrsCons(attrs);
    hide EscapeAttr, AttrMatch, RenderAttrs, QuietValue, PlainName;
    var t := if |attrs| == 1 then "" else " " + RenderAttrs(attrs[1..]);
    assert RenderAttrs(attrs) == u + t;
    MatchAtAttr(a.name, escaped, t, wanted);
    forall i: nat | i < |u| && IsSpace(u[i])
      ensures AttrMatch((u + t)[i + 1..], wanted) == None
    {
      NoMatchInside(a.name, escaped, t, wanted, i);
    }
    ScanPast(u, t, wanted);
    if |attrs| > 1 {
      ScanSeparator(RenderAttrs(attrs[1..]), wanted);
      hide AttrMatch, AttrScan, RenderAttrs, EscapeAttr;
      LookupRaw(attrs[1..], wanted);
    }
  }

  /** Lookup in the rendered text is lookup in the list, whatever the values hold. */
  lemma AttrValueIsLookup(attrs: seq<Attr>, wanted: string)
    requires attrs != [] && Readable(attrs) && PlainName(wanted)
    ensures AttrValue(RenderAttrs(attrs), wanted) == Lookup(attrs, wanted)
  {
    LookupRaw(attrs, wanted);
    if Lookup(attrs, wanted).Some? {
      UnescapeEscape(Lookup(attrs, wanted).value);
    }
  }
}
