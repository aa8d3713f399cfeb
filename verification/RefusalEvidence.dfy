/** Does a native transcript prove that the provider refused a task before the model did any work on it?
    Rows are parsed JSON lines reduced to the fields the proof reads. */
module RefusalEvidence {
  import opened Text

  // ---------------------------------------------------------------- rows

  /** One part of a message: its strings, and whether it is a text part. */
  datatype Part = Part(isText: bool, text: string, strs: seq<string>)

  /** A message content or a prompt: a string, a list of parts, or anything else with the strings found in it. */
  datatype Content = Str(text: string) | Parts(parts: seq<Part>) | Other(strs: seq<string>)

  function StripCr(s: string): string {
    ReplaceAll(s, "\r", "")
  }

  function StripAll(strs: seq<string>): seq<string> {
    if strs == [] then [] else [StripCr(strs[0])] + StripAll(strs[1..])
  }

  function PartStrings(parts: seq<Part>): seq<string> {
    if parts == [] then [] else StripAll(parts[0].strs) + PartStrings(parts[1..])
  }

  function Strings(c: Content): seq<string> {
    match c
    case Str(text) => [StripCr(text)]
    case Parts(parts) => PartStrings(parts)
    case Other(strs) => StripAll(strs)
  }

  /** Every needle occurs in some string of the content. */
  predicate Carries(c: Content, needles: seq<string>) {
    forall n | n in needles :: exists t | t in Strings(c) :: Includes(t, n)
  }

  /** A carriage return in a text makes no difference to what it carries. */
  lemma ReturnsDontCount(c: Content, d: Content, needles: seq<string>)
    requires c.Str? && d.Str? && ReplaceAll(c.text, "\r", "") == ReplaceAll(d.text, "\r", "")
    ensures Carries(c, needles) <==> Carries(d, needles)
  {
  }

  /** The strings of a content, in order and without carriage returns; parts one after the other. */
  lemma StringsInOrder(strs: seq<string>, parts: seq<Part>, p: Part)
    ensures |Strings(Other(strs))| == |strs|
    ensures forall i :: 0 <= i < |strs| ==> Strings(Other(strs))[i] == ReplaceAll(strs[i], "\r", "")
    ensures Strings(Parts([])) == [] && Strings(Parts([p] + parts)) == Strings(Other(p.strs)) + Strings(Parts(parts))
    ensures |strs| == 1 ==> Strings(Str(strs[0])) == Strings(Other(strs))
  {
    hide ReplaceAll;
    StripEach(strs);
    assert ([p] + parts)[1..] == parts;
  }

  lemma {:induction false} StripEach(strs: seq<string>)
    ensures |StripAll(strs)| == |strs| && forall i :: 0 <= i < |strs| ==> StripAll(strs)[i] == StripCr(strs[i])
  {
    hide ReplaceAll;
    if strs != [] {
      StripEach(strs[1..]);
    }
  }

  /** These texts, one below the other, are some text with every needle in it. */
  predicate Quoted(texts: seq<string>, needles: seq<string>) {
    var whole := Join(texts, "\n");
    whole != "" && forall n | n in needles :: Includes(whole, n)
  }

  predicate TextInput(c: Content) {
    c.Str? || (c.Parts? && forall p | p in c.parts :: p.isText)
  }

  /** A transcript as read: torn in its last line, not JSON, or complete rows. */
  datatype Transcript<R> = Torn | Malformed | Rows(rows: seq<R>)

  datatype Failure = Failure(atMs: int, sessionId: Option<string>)

  datatype Reason =
    | IncompleteEvidence | MissingTaskMarker | MalformedEvidence | MissingNativeInput | NativeSessionMismatch
    | MissingInputUuid | MissingTurnStart | ModelWorkAfterInput | ModelWorkBeforeQueuedInput
    | ToolResultAfterInput | AmbiguousBootstrap | MissingNativeRefusal

  /** `Safe` authorises a replay of the original task; anything else sends it to review. */
  datatype Verdict = Safe | Review(reason: Reason)

  /** A present, non-empty string, as a truthiness test asks for. */
  predicate Truthy(s: Option<string>) {
    s.Some? && s.value != ""
  }

  // ---------------------------------------------------------------- searching rows

  function FindFirst<R>(rows: seq<R>, p: R -> bool): (r: Option<nat>)
    ensures r.Some? ==> r.value < |rows| && p(rows[r.value]) && forall i :: 0 <= i < r.value ==> !p(rows[i])
    ensures r.None? ==> forall i :: 0 <= i < |rows| ==> !p(rows[i])
  {
    if rows == [] then None
    else if p(rows[0]) then Some(0)
    else Shift(FindFirst(rows[1..], p), 1)
  }

  lemma FindFirstStable<R>(rows: seq<R>, more: seq<R>, p: R -> bool)
    requires FindFirst(rows, p).Some?
    ensures FindFirst(rows + more, p) == FindFirst(rows, p)
  {
    FindFirstIs(rows + more, p, FindFirst(rows, p).value);
  }

  lemma FindFirstIs<R>(rows: seq<R>, p: R -> bool, k: nat)
    requires k < |rows| && p(rows[k]) && forall i :: 0 <= i < k ==> !p(rows[i])
    ensures FindFirst(rows, p) == Some(k)
  {
  }

  lemma FirstAfter<R>(rows: seq<R>, p: R -> bool, from: nat, k: nat)
    requires from <= |rows| && from <= k
    ensures FindFirst(rows[from..], p) == Some(k - from) <==>
            k < |rows| && p(rows[k]) && forall i :: from <= i < k ==> !p(rows[i])
  {
    hide FindFirst;
    var rest := rows[from..];
    assert forall i :: from <= i < |rows| ==> rows[i] == rest[i - from];
    if k < |rows| && p(rows[k]) && forall i :: from <= i < k ==> !p(rows[i]) {
      FindFirstIs(rest, p, k - from);
    }
  }

  lemma NoneUpTo<R>(rows: seq<R>, p: R -> bool, to: nat)
    requires to <= |rows|
    ensures FindFirst(rows[..to], p).None? <==> forall i :: 0 <= i < to ==> !p(rows[i])
  {
    hide FindFirst;
    var init := rows[..to];
    assert forall i :: 0 <= i < to ==> rows[i] == init[i];
  }

  function FindLast<R>(rows: seq<R>, p: R -> bool): (r: Option<nat>)
    ensures r.Some? ==> r.value < |rows| && p(rows[r.value]) && forall i :: r.value < i < |rows| ==> !p(rows[i])
    ensures r.None? ==> forall i :: 0 <= i < |rows| ==> !p(rows[i])
  {
    if rows == [] then None
    else if p(rows[|rows| - 1]) then Some(|rows| - 1)
    else FindLast(rows[..|rows| - 1], p)
  }
}
