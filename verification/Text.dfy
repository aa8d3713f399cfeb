/** The string operations the envelope codec is written with: literal search and replacement,
    whitespace trimming, splitting and joining. Searches return `None` where JavaScript returns -1. */
module Text {

  datatype Option<+T> = None | Some(value: T) {
    function OrElse(other: Option<T>): Option<T> {
      if Some? then this else other
    }
  }

  function Shift(r: Option<nat>, offset: nat): Option<nat> {
    match r
    case None => None
    case Some(k) => Some(offset + k)
  }

  lemma ShiftTwice(r: Option<nat>, a: nat, b: nat)
    ensures Shift(Shift(r, a), b) == Shift(r, a + b)
  {
  }

  function Prepend(head: string, r: Option<string>): Option<string> {
    match r
    case None => None
    case Some(t) => Some(head + t)
  }

  // ---------------------------------------------------------------- search

  /** `s.startsWith(p, i)`. */
  predicate At(s: string, p: string, i: nat): (r: bool)
    ensures r ==> i + |p| <= |s|
  {
    i + |p| <= |s| && s[i..i + |p|] == p
  }

  /** `p` starts at no position of `s`. */
  ghost predicate Absent(s: string, p: string) {
    forall i: nat :: !At(s, p, i)
  }

  /** `s.includes(p)`. */
  predicate Includes(s: string, p: string) {
    exists i: nat | i <= |s| :: At(s, p, i)
  }

  /** `s.indexOf(p)` for a non-empty `p`; `IndexOfIsFirst` says that it is the least occurrence. */
  function IndexOf(s: string, p: string): (r: Option<nat>)
    requires p != ""
    ensures r.Some? ==> At(s, p, r.value)
  {
    if At(s, p, 0) then Some(0)
    else if s == "" then None
    else
      var r := Shift(IndexOf(s[1..], p), 1);
      assert r.Some? ==> At(s, p, r.value) by {
        if r.Some? { AtDrop(s, p, 1, r.value - 1); }
      }
      r
  }

  lemma {:induction false} IndexOfIsFirst(s: string, p: string)
    requires p != ""
    ensures IndexOf(s, p).Some? ==> forall i: nat :: i < IndexOf(s, p).value ==> !At(s, p, i)
    ensures IndexOf(s, p).None? <==> Absent(s, p)
  {
    if s != "" && !At(s, p, 0) {
      IndexOfIsFirst(s[1..], p);
      forall i: nat | 1 <= i
        ensures At(s, p, i) == At(s[1..], p, i - 1)
      {
        AtDrop(s, p, 1, i - 1);
      }
    }
  }

  lemma IndexOfIs(s: string, p: string, k: nat)
    requires p != "" && At(s, p, k)
    requires forall i: nat :: i < k ==> !At(s, p, i)
    ensures IndexOf(s, p) == Some(k)
  {
    IndexOfIsFirst(s, p);
  }

  lemma AtHead(p: string, t: string)
    ensures At(p + t, p, 0) && (p + t)[|p|..] == t
  {
    assert (p + t)[0..|p|] == p;
  }

  lemma DropDrop(s: string, i: nat, j: nat)
    requires i + j <= |s|
    ensures s[i..][j..] == s[i + j..]
  {
  }

  /** One differing character rules an occurrence out. */
  lemma Mismatch(s: string, p: string, i: nat, j: nat)
    requires j < |p| && i + j < |s| && s[i + j] != p[j]
    ensures !At(s, p, i)
  {
    if i + |p| <= |s| {
      assert s[i..i + |p|][j] == s[i + j];
    }
  }

  /** Occurrences in a concatenation: those inside either part keep their place. */
  lemma AtLeft(u: string, t: string, p: string, i: nat)
    requires i + |p| <= |u|
    ensures At(u + t, p, i) == At(u, p, i)
  {
    assert (u + t)[i..i + |p|] == u[i..i + |p|];
  }

  lemma AtRight(u: string, t: string, p: string, i: nat)
    requires |u| <= i
    ensures At(u + t, p, i) == At(t, p, i - |u|)
  {
    if i + |p| <= |u + t| {
      assert (u + t)[i..i + |p|] == t[i - |u|..i - |u| + |p|];
    }
  }

  lemma AtDrop(s: string, p: string, k: nat, i: nat)
    requires k <= |s|
    ensures At(s[k..], p, i) == At(s, p, k + i)
  {
    if k + i + |p| <= |s| {
      assert s[k + i..k + i + |p|] == s[k..][i..i + |p|];
    }
  }

  /** `p` does not start inside `u` when `t` follows it. */
  ghost predicate Clear(u: string, t: string, p: string) {
    forall i: nat :: i < |u| ==> !At(u + t, p, i)
  }

  /** A literal whose only '<' is its first character, as every tag and the CDATA opener is. */
  predicate Marker(p: string) {
    |p| >= 2 && p[0] == '<' && AngleFirst(p)
  }

  predicate AngleFirst(u: string) {
    u != "" && forall i :: 1 <= i < |u| ==> u[i] != '<'
  }

  /** A marker cannot straddle into a text that itself begins with '<'. */
  lemma MarkerDoesNotStraddle(u: string, t: string, p: string)
    requires Marker(p) && Absent(u, p)
    requires t == "" || t[0] == '<'
    ensures Clear(u, t, p)
  {
    forall i: nat | i < |u|
      ensures !At(u + t, p, i)
    {
      if i + |p| <= |u| {
        AtLeft(u, t, p, i);
        assert !At(u, p, i);
      } else if i + |p| <= |u + t| {
        assert (u + t)[i..i + |p|][|u| - i] == t[0];
      }
    }
  }

  lemma ClearTail(u: string, t: string, p: string)
    requires u != "" && Clear(u, t, p)
    ensures (u + t)[1..] == u[1..] + t && (u + t)[0] == u[0]
    ensures Clear(u[1..], t, p) && !At(u + t, p, 0)
  {
    assert (u + t)[1..] == u[1..] + t;
    forall i: nat | i < |u[1..]|
      ensures !At(u[1..] + t, p, i)
    {
      AtDrop(u + t, p, 1, i);
    }
  }

  lemma IndexOfStep(s: string, p: string)
    requires p != "" && s != "" && !At(s, p, 0)
    ensures IndexOf(s, p) == Shift(IndexOf(s[1..], p), 1)
  {
  }

  lemma {:induction false} IndexOfAfter(u: string, t: string, p: string)
    requires p != "" && Clear(u, t, p)
    ensures IndexOf(u + t, p) == Shift(IndexOf(t, p), |u|)
  {
    if |u| == 0 {
      assert u + t == t;
    } else {
      ClearTail(u, t, p);
      IndexOfStep(u + t, p);
      hide *;
      IndexOfAfter(u[1..], t, p);
      ShiftTwice(IndexOf(t, p), |u[1..]|, 1);
    }
  }

  /** An occurrence stays the first one however the text goes on. */
  lemma IndexOfStable(s: string, t: string, p: string)
    requires p != "" && IndexOf(s, p).Some?
    ensures IndexOf(s + t, p) == IndexOf(s, p)
  {
    var k := IndexOf(s, p).value;
    IndexOfIsFirst(s, p);
    forall i: nat | i <= k
      ensures At(s + t, p, i) == At(s, p, i)
    {
      AtLeft(s, t, p, i);
    }
    IndexOfIs(s + t, p, k);
  }

  // ---------------------------------------------------------------- replacement

  /** `s.replaceAll(p, r)`: leftmost, non-overlapping. */
  function ReplaceAll(s: string, p: string, r: string): string
    requires p != ""
  {
    if s == "" then ""
    else if At(s, p, 0) then r + ReplaceAll(s[|p|..], p, r)
    else [s[0]] + ReplaceAll(s[1..], p, r)
  }

  lemma {:induction false} ReplaceAfter(u: string, t: string, p: string, r: string)
    requires p != "" && Clear(u, t, p)
    ensures ReplaceAll(u + t, p, r) == u + ReplaceAll(t, p, r)
  {
    if |u| == 0 {
      assert u + t == t;
    } else {
      ClearTail(u, t, p);
      assert ReplaceAll(u + t, p, r) == [u[0]] + ReplaceAll((u + t)[1..], p, r);
      hide *;
      ReplaceAfter(u[1..], t, p, r);
      HeadAndTail(u, ReplaceAll(t, p, r));
    }
  }

  lemma HeadAndTail(u: string, t: string)
    requires u != ""
    ensures [u[0]] + (u[1..] + t) == u + t
  {
  }

  lemma ReplaceAbsent(s: string, p: string, r: string)
    requires p != "" && Absent(s, p)
    ensures ReplaceAll(s, p, r) == s
  {
    assert s + "" == s;
    ReplaceAfter(s, "", p, r);
  }

  // ---------------------------------------------------------------- whitespace

  /** JavaScript whitespace and line terminators, the class of `\s` and of `trim`. */
  predicate IsSpace(c: char) {
    c in {'\t', '\n', '\U{000B}', '\U{000C}', '\r', ' ', '\U{00A0}', '\U{1680}', '\U{2028}', '\U{2029}', '\U{202F}',
          '\U{205F}', '\U{3000}', '\U{FEFF}'}
    || '\U{2000}' <= c <= '\U{200A}'
  }

  predicate NoSpace(s: string) {
    forall i :: 0 <= i < |s| ==> !IsSpace(s[i])
  }

  /** The number of leading whitespace characters. */
  function LeadingSpaces(s: string): (n: nat)
    ensures n <= |s| && (forall i :: 0 <= i < n ==> IsSpace(s[i])) && (n < |s| ==> !IsSpace(s[n]))
  {
    if s == "" || !IsSpace(s[0]) then 0 else 1 + LeadingSpaces(s[1..])
  }

  function TrimEnd(s: string): (r: string)
    ensures |r| <= |s| && (forall i :: 0 <= i < |r| ==> r[i] == s[i]) && (r == "" || !IsSpace(r[|r| - 1]))
    ensures s == "" || !IsSpace(s[|s| - 1]) ==> r == s
  {
    if s == "" || !IsSpace(s[|s| - 1]) then s else TrimEnd(s[..|s| - 1])
  }

  function Trim(s: string): (r: string)
    ensures r == "" || (!IsSpace(r[0]) && !IsSpace(r[|r| - 1]))
    ensures s == "" || (!IsSpace(s[0]) && !IsSpace(s[|s| - 1])) ==> r == s
    ensures forall c :: c in r ==> c in s
  {
    TrimEnd(s[LeadingSpaces(s)..])
  }

  lemma TrimIdempotent(s: string)
    ensures Trim(Trim(s)) == Trim(s)
  {
  }

  // ---------------------------------------------------------------- lines

  function Join(parts: seq<string>, sep: string): string {
    if parts == [] then ""
    else if |parts| == 1 then parts[0]
    else parts[0] + sep + Join(parts[1..], sep)
  }

  lemma NoNewlineBefore(s: string)
    ensures match IndexOf(s, "\n") case None => '\n' !in s case Some(k) => '\n' !in s[..k]
  {
    IndexOfIsFirst(s, "\n");
    forall i: nat | i < |s|
      ensures s[i] == '\n' ==> At(s, "\n", i)
    {
      assert s[i..i + 1] == [s[i]];
    }
  }

  /** `s.split('\n')`. */
  function Split(s: string): (parts: seq<string>)
    ensures parts != []
    ensures forall i :: 0 <= i < |parts| ==> '\n' !in parts[i]
  {
    NoNewlineBefore(s);
    match IndexOf(s, "\n")
    case None => [s]
    case Some(k) => [s[..k]] + Split(s[k + 1..])
  }

  /** Splitting undoes joining when no part holds a newline. */
  lemma {:induction false} SplitJoin(parts: seq<string>)
    requires parts != [] && forall i :: 0 <= i < |parts| ==> '\n' !in parts[i]
    ensures Split(Join(parts, "\n")) == parts
  {
    var s := Join(parts, "\n");
    var a := parts[0];
    forall i: nat | i < |a|
      ensures !At(s, "\n", i)
    {
      assert s[i] == a[i] && (i < |s| ==> s[i..i + 1][0] == s[i]);
    }
    if |parts| == 1 {
      assert Absent(s, "\n");
      assert parts == [a];
    } else {
      var t := Join(parts[1..], "\n");
      assert s == a + "\n" + t;
      IndexOfIs(s, "\n", |a|);
      assert s[..|a|] == a && s[|a| + 1..] == t;
      SplitJoin(parts[1..]);
      assert parts == [a] + parts[1..];
    }
  }
}
