/** Claude transcripts: the descendants of an input, the refusal verdict, and the walk from a refusal back to the
    input it answers. */
module ClaudeEvidence {
  import opened Text
  import opened RefusalEvidence

  datatype ClaudeType = User | Assistant | Attachment | OtherRow

  /** A flag tested both for `=== true` and for truthiness. */
  datatype Flag = Falsy | True | OtherTruthy

  datatype ClaudeRow = ClaudeRow(
    typ: ClaudeType,
    sidechain: bool,
    uuid: Option<string>,
    parentUuid: Option<string>,
    sessionId: Option<string>,
    content: Content,
    apiError: Flag,
    synthetic: bool,
    endsTurn: bool,
    attachmentType: string,
    prompt: Content,
    at: Option<int>)

  // ---------------------------------------------------------------- claude: descendants of the input

  /** The `k`-th row of a chain has a uuid, and names the row before it, or `root`, as its parent. */
  ghost predicate Link(rows: seq<ClaudeRow>, root: string, chain: seq<nat>, k: nat)
    requires k < |chain|
  {
    chain[k] < |rows| && Truthy(rows[chain[k]].uuid)
    && if k == 0 then rows[chain[k]].parentUuid == Some(root)
       else chain[k - 1] < |rows| && rows[chain[k]].parentUuid == rows[chain[k - 1]].uuid
  }

  /** Row indices leading from `root` along parent links, each to the next. */
  ghost predicate Chain(rows: seq<ClaudeRow>, root: string, chain: seq<nat>) {
    forall k: nat :: k < |chain| ==> Link(rows, root, chain, k)
  }

  ghost predicate EndsAt(rows: seq<ClaudeRow>, chain: seq<nat>, u: string) {
    chain != [] && chain[|chain| - 1] < |rows| && rows[chain[|chain| - 1]].uuid == Some(u)
  }

  /** `u` is the input's uuid or the uuid of a row that descends from it. */
  ghost predicate Reachable(rows: seq<ClaudeRow>, root: string, u: string) {
    root != "" && (u == root || exists chain: seq<nat> ::
                     Chain(rows, root, chain) && EndsAt(rows, chain, u))
  }

  function Uuids(rows: seq<ClaudeRow>): (s: set<string>)
    ensures |s| <= |rows|
    ensures forall u :: u in s <==> exists i :: 0 <= i < |rows| && rows[i].uuid == Some(u) && u != ""
  {
    if rows == [] then {}
    else
      var rest := Uuids(rows[..|rows| - 1]);
      var last := rows[|rows| - 1];
      assert forall i :: 0 <= i < |rows| ==> rows[i] == if i < |rows| - 1 then rows[..|rows| - 1][i] else last;
      if Truthy(last.uuid) then rest + {last.uuid.value} else rest
  }

  /** The repeated-pass loop. Whatever the append order of the rows, it ends within one pass a row and yields
      exactly the descendants of the input. */
  method Descendants(rows: seq<ClaudeRow>, input: nat) returns (ids: set<string>)
    requires input < |rows| && rows[input].uuid.Some?
    ensures forall u :: u in ids <==> Reachable(rows, rows[input].uuid.value, u)
  {
    hide Reachable, Uuids;
    var root := rows[input].uuid.value;
    ids := if root != "" then {root} else {};
    RootReachable(rows, root);
    var pass := 0;
    while pass < |rows|
      invariant 0 <= pass <= |rows|
      invariant ids <= Uuids(rows) && (root != "" <==> root in ids)
      invariant forall u :: u in ids ==> Reachable(rows, root, u)
      invariant root == "" ==> ids == {}
      invariant root != "" ==> |ids| > pass
      invariant pass == |rows| ==> forall j :: 0 <= j < |rows| ==> Closed(rows[j], ids)
    {
      var changed := false;
      ghost var before := ids;
      for i := 0 to |rows|
        invariant before <= ids <= Uuids(rows)
        invariant forall u :: u in ids ==> Reachable(rows, root, u)
        invariant changed ==> |ids| > |before|
        invariant !changed ==> ids == before && forall j :: 0 <= j < i ==> Closed(rows[j], ids)
        invariant root == "" ==> ids == {}
      {
        var r := rows[i];
        if Truthy(r.uuid) && Truthy(r.parentUuid) && r.parentUuid.value in ids && r.uuid.value !in ids {
          Extend(rows, root, i);
          Grows(before, ids, r.uuid.value);
          ids := ids + {r.uuid.value};
          changed := true;
        }
      }
      if !changed {
        break;
      }
      // Every changing pass adds a uuid, and there are at most |rows| of them.
      SubsetSize(ids, Uuids(rows));
      pass := pass + 1;
    }
    forall u | Reachable(rows, root, u)
      ensures u in ids
    {
      ClosedHoldsReachable(rows, root, ids, u);
    }
  }

  lemma RootReachable(rows: seq<ClaudeRow>, root: string)
    ensures root != "" ==> Reachable(rows, root, root)
  {
  }

  predicate Closed(r: ClaudeRow, ids: set<string>) {
    Truthy(r.uuid) && Truthy(r.parentUuid) && r.parentUuid.value in ids ==> r.uuid.value in ids
  }

  lemma SubsetSize<T>(a: set<T>, b: set<T>)
    requires a <= b
    ensures |a| <= |b|
  {
    if a != {} {
      var x :| x in a;
      SubsetSize(a - {x}, b - {x});
      assert |a - {x}| == |a| - 1 && |b - {x}| == |b| - 1;
    }
  }

  lemma Grows<T>(before: set<T>, ids: set<T>, x: T)
    requires before <= ids && x !in ids
    ensures |ids + {x}| > |before|
  {
    SubsetSize(before, ids);
  }

  lemma Extend(rows: seq<ClaudeRow>, root: string, i: nat)
    requires i < |rows| && Truthy(rows[i].uuid) && rows[i].parentUuid.Some?
    requires Reachable(rows, root, rows[i].parentUuid.value)
    ensures Reachable(rows, root, rows[i].uuid.value)
  {
    var p := rows[i].parentUuid.value;
    var chain: seq<nat> := [];
    if p != root {
      chain :| Chain(rows, root, chain) && EndsAt(rows, chain, p);
    }
    var longer := chain + [i];
    forall k: nat | k < |longer|
      ensures Link(rows, root, longer, k)
    {
      assert k < |chain| ==> Link(rows, root, chain, k);
    }
    assert EndsAt(rows, longer, rows[i].uuid.value);
  }

  lemma {:induction false} ChainIn(rows: seq<ClaudeRow>, root: string, ids: set<string>, chain: seq<nat>, k: nat)
    requires Chain(rows, root, chain) && k < |chain| && root != "" && root in ids
    requires forall j :: 0 <= j < |rows| ==> Closed(rows[j], ids)
    ensures chain[k] < |rows| && rows[chain[k]].uuid.Some? && rows[chain[k]].uuid.value in ids
  {
    assert Link(rows, root, chain, k);
    if k > 0 {
      assert Link(rows, root, chain, k - 1);
      ChainIn(rows, root, ids, chain, k - 1);
    }
    assert Closed(rows[chain[k]], ids);
  }

  lemma ClosedHoldsReachable(rows: seq<ClaudeRow>, root: string, ids: set<string>, u: string)
    requires Reachable(rows, root, u) && (root != "" ==> root in ids)
    requires forall j :: 0 <= j < |rows| ==> Closed(rows[j], ids)
    ensures u in ids
  {
    if u != root {
      var chain: seq<nat> :| Chain(rows, root, chain) && EndsAt(rows, chain, u);
      ChainIn(rows, root, ids, chain, |chain| - 1);
    }
  }

  // ---------------------------------------------------------------- claude: the verdict

  const ALLOWED_ATTACHMENTS := {
    "queued_command", "environment", "model", "deferred_tools_delta", "agent_listing_delta", "mcp_instructions_delta",
    "skill_listing", "instructions", "auto_mode", "session_context", "date", "remote_session_change", "prompt_snapshot"}

  predicate IsInput(r: ClaudeRow, needles: seq<string>) {
    !r.sidechain
    && ((r.typ == User && TextInput(r.content) && Carries(r.content, needles))
        || (r.typ == Attachment && r.attachmentType == "queued_command" && Carries(r.prompt, needles)))
  }

  /** A model answer: an assistant row that is not the record of an API error. */
  predicate ModelAnswer(r: ClaudeRow) {
    r.typ == Assistant && r.apiError != True
  }

  predicate TurnEnd(r: ClaudeRow) {
    r.typ == Assistant && r.apiError == Falsy && r.endsTurn
  }

  predicate WorkRow(r: ClaudeRow) {
    !r.sidechain && (ModelAnswer(r) || (r.typ == User && !TextInput(r.content)))
  }

  /** What makes a row after the input incompatible with an untouched task. */
  function Offence(r: ClaudeRow): Option<Reason> {
    if r.sidechain then None
    else if r.typ == User && !TextInput(r.content) then Some(ToolResultAfterInput)
    else if r.typ == Attachment && r.attachmentType !in ALLOWED_ATTACHMENTS then Some(AmbiguousBootstrap)
    else if r.typ == Assistant && !(r.apiError == True && r.synthetic) then Some(ModelWorkAfterInput)
    else None
  }

  predicate IsRefusal(r: ClaudeRow, atMs: int) {
    !r.sidechain && r.typ == Assistant && r.apiError == True && r.synthetic && r.at == Some(atMs)
  }

  ghost predicate WorkDescends(rows: seq<ClaudeRow>, root: string) {
    exists i :: 0 <= i < |rows| && ModelAnswer(rows[i]) && rows[i].uuid.Some?
      && Reachable(rows, root, rows[i].uuid.value)
  }

  /** Work in the turn the input interrupts: a work row with no turn end from it up to the input. */
  ghost predicate WorkBefore(rows: seq<ClaudeRow>, input: nat)
    requires input <= |rows|
  {
    exists k :: 0 <= k < input && WorkRow(rows[k]) && forall j :: k <= j < input ==> !TurnEnd(rows[j])
  }

  /** The first offence decides; without one, a matching refusal is required. */
  function AfterInput(rows: seq<ClaudeRow>, atMs: int): Verdict {
    match FindFirst(rows, r => Offence(r).Some?)
    case Some(k) => Review(Offence(rows[k]).value)
    case None => if FindFirst(rows, r => IsRefusal(r, atMs)).Some? then Safe else Review(MissingNativeRefusal)
  }

  ghost function Judge(rows: seq<ClaudeRow>, needles: seq<string>, failure: Failure): Verdict {
    match FindFirst(rows, r => IsInput(r, needles))
    case None => Review(MissingNativeInput)
    case Some(input) =>
      if !Truthy(failure.sessionId) || rows[input].sessionId != failure.sessionId then Review(NativeSessionMismatch)
      else if rows[input].uuid.None? then Review(MissingInputUuid)
      else if WorkDescends(rows, rows[input].uuid.value) then Review(ModelWorkAfterInput)
      else if WorkBefore(rows, input) then Review(ModelWorkBeforeQueuedInput)
      else AfterInput(rows[input + 1..], failure.atMs)
  }

  ghost function Decision(transcript: Transcript<ClaudeRow>, needles: seq<string>, failure: Failure): Verdict {
    if transcript.Torn? then Review(IncompleteEvidence)
    else if needles == [] || "" in needles then Review(MissingTaskMarker)
    else if transcript.Malformed? then Review(MalformedEvidence)
    else Judge(transcript.rows, needles, failure)
  }

  /** The decision procedure: loops that look for one row each, and early returns. */
  method RefusalReviewReason(transcript: Transcript<ClaudeRow>, needles: seq<string>, failure: Failure)
    returns (v: Verdict)
    ensures v == Decision(transcript, needles, failure)
  {
    hide Reachable, WorkBefore, AfterInput, IsInput, ModelAnswer, TurnEnd, WorkRow;
    if transcript.Torn? {
      return Review(IncompleteEvidence);
    }
    if needles == [] || "" in needles {
      return Review(MissingTaskMarker);
    }
    if transcript.Malformed? {
      return Review(MalformedEvidence);
    }
    var rows := transcript.rows;
    var found := FindFirst(rows, r => IsInput(r, needles));
    if found.None? {
      return Review(MissingNativeInput);
    }
    var input := found.value;
    if !Truthy(failure.sessionId) || rows[input].sessionId != failure.sessionId {
      return Review(NativeSessionMismatch);
    }
    if rows[input].uuid.None? {
      return Review(MissingInputUuid);
    }
    var ids := Descendants(rows, input);
    if FindFirst(rows, (r: ClaudeRow) => ModelAnswer(r) && r.uuid.Some? && r.uuid.value in ids).Some? {
      return Review(ModelWorkAfterInput);
    }
    assert !WorkDescends(rows, rows[input].uuid.value);
    var boundary := FindLast(rows[..input], r => TurnEnd(r));
    var from := if boundary.Some? then boundary.value + 1 else 0;
    TurnWork(rows, input, from);
    if FindFirst(rows[from..input], r => WorkRow(r)).Some? {
      return Review(ModelWorkBeforeQueuedInput);
    }
    v := ScanAfterInput(rows[input + 1..], failure.atMs);
  }

  method ScanAfterInput(rest: seq<ClaudeRow>, atMs: int) returns (v: Verdict)
    ensures v == AfterInput(rest, atMs)
  {
    var refusal := false;
    var i := 0;
    while i < |rest|
      invariant 0 <= i <= |rest|
      invariant forall j :: 0 <= j < i ==> Offence(rest[j]).None?
      invariant refusal <==> exists j :: 0 <= j < i && IsRefusal(rest[j], atMs)
    {
      var r := rest[i];
      if Offence(r).Some? {
        FindFirstIs(rest, r => Offence(r).Some?, i);
        return Review(Offence(r).value);
      }
      if IsRefusal(r, atMs) {
        refusal := true;
      }
      i := i + 1;
    }
    return if refusal then Safe else Review(MissingNativeRefusal);
  }

  lemma TurnWork(rows: seq<ClaudeRow>, input: nat, from: nat)
    requires from <= input <= |rows|
    requires from > 0 ==> TurnEnd(rows[from - 1])
    requires forall j :: from <= j < input ==> !TurnEnd(rows[j])
    ensures WorkBefore(rows, input) <==> FindFirst(rows[from..input], r => WorkRow(r)).Some?
  {
    var turn := rows[from..input];
    var f := FindFirst(turn, r => WorkRow(r));
    if f.Some? {
      assert WorkRow(rows[from + f.value]);
    }
    forall k | 0 <= k < input && WorkRow(rows[k]) && forall j :: k <= j < input ==> !TurnEnd(rows[j])
      ensures f.Some?
    {
      Occurs(rows, from, input, k);
    }
  }

  lemma Occurs(rows: seq<ClaudeRow>, from: nat, input: nat, k: nat)
    requires from <= k < input <= |rows|
    ensures rows[k] in rows[from..input]
  {
    assert rows[from..input][k - from] == rows[k];
  }

  // ---------------------------------------------------------------- claude: evidence is irrevocable

  /** The verdicts that report work, or what cannot be told from work. */
  predicate ReportsWork(v: Verdict) {
    v.Review? && v.reason in {ModelWorkAfterInput, ModelWorkBeforeQueuedInput, ToolResultAfterInput, AmbiguousBootstrap}
  }

  lemma ReachableStable(rows: seq<ClaudeRow>, more: seq<ClaudeRow>, root: string, u: string)
    requires Reachable(rows, root, u)
    ensures Reachable(rows + more, root, u)
  {
    if u != root {
      var chain: seq<nat> :| Chain(rows, root, chain) && EndsAt(rows, chain, u);
      forall k: nat | k < |chain|
        ensures Link(rows + more, root, chain, k)
      {
        assert Link(rows, root, chain, k);
      }
      assert EndsAt(rows + more, chain, u);
    }
  }

  lemma WorkDescendsStable(rows: seq<ClaudeRow>, more: seq<ClaudeRow>, root: string)
    requires WorkDescends(rows, root)
    ensures WorkDescends(rows + more, root)
  {
    var i :| 0 <= i < |rows| && ModelAnswer(rows[i]) && rows[i].uuid.Some? && Reachable(rows, root, rows[i].uuid.value);
    ReachableStable(rows, more, root, rows[i].uuid.value);
    assert (rows + more)[i] == rows[i];
  }

  /** Once a prefix of the transcript has shown work, no continuation of it is ever judged safe, whichever refusal the
      later judgement is about: a refusal of another session is a mismatch. */
  lemma WorkIsIrrevocable(rows: seq<ClaudeRow>, more: seq<ClaudeRow>, needles: seq<string>, before: Failure,
                          now: Failure)
    requires ReportsWork(Judge(rows, needles, before))
    ensures var v := Judge(rows + more, needles, now);
            if now.sessionId == before.sessionId then ReportsWork(v) else v == Review(NativeSessionMismatch)
  {
    hide IsInput, FindFirst, Offence, AfterInput, WorkDescends, WorkBefore, Truthy;
    var all := rows + more;
    FindFirstStable(rows, more, r => IsInput(r, needles));
    var input := FindFirst(rows, r => IsInput(r, needles)).value;
    assert all[input] == rows[input];
    var root := rows[input].uuid.value;
    if WorkDescends(rows, root) {
      WorkDescendsStable(rows, more, root);
    } else if WorkBefore(rows, input) {
      WorkBeforeStable(rows, more, input);
    } else {
      assert all[input + 1..] == rows[input + 1..] + more;
      OffenceStable(rows[input + 1..], more, before.atMs, now.atMs);
    }
  }

  lemma WorkBeforeStable(rows: seq<ClaudeRow>, more: seq<ClaudeRow>, input: nat)
    requires input <= |rows| && WorkBefore(rows, input)
    ensures WorkBefore(rows + more, input)
  {
    hide WorkRow, TurnEnd;
    var k :| 0 <= k < input && WorkRow(rows[k]) && forall j :: k <= j < input ==> !TurnEnd(rows[j]);
    assert forall i :: 0 <= i < input ==> (rows + more)[i] == rows[i];
    assert WorkRow((rows + more)[k]);
  }

  lemma OffenceStable(rest: seq<ClaudeRow>, more: seq<ClaudeRow>, before: int, now: int)
    requires ReportsWork(AfterInput(rest, before))
    ensures AfterInput(rest + more, now) == AfterInput(rest, before)
  {
    hide Offence, IsRefusal;
    FindFirstStable(rest, more, r => Offence(r).Some?);
    var k := FindFirst(rest, r => Offence(r).Some?).value;
    assert (rest + more)[k] == rest[k];
  }

  /** A safe verdict rules out model work at every earlier moment, and any answer descending from the input. */
  lemma SafeMeansNoWork(rows: seq<ClaudeRow>, needles: seq<string>, failure: Failure)
    requires Judge(rows, needles, failure) == Safe
    ensures forall n, earlier: Failure :: 0 <= n <= |rows| ==> !ReportsWork(Judge(rows[..n], needles, earlier))
    ensures exists input :: 0 <= input < |rows| && IsInput(rows[input], needles) && rows[input].uuid.Some?
              && (forall i :: 0 <= i < |rows| && ModelAnswer(rows[i]) && rows[i].uuid.Some? ==>
                    !Reachable(rows, rows[input].uuid.value, rows[i].uuid.value))
              && (forall i :: input < i < |rows| && !rows[i].sidechain && rows[i].typ == Assistant ==>
                    rows[i].apiError == True)
              && (exists i :: input < i < |rows| && IsRefusal(rows[i], failure.atMs))
  {
    forall n, earlier: Failure | 0 <= n <= |rows|
      ensures !ReportsWork(Judge(rows[..n], needles, earlier))
    {
      assert rows == rows[..n] + rows[n..];
      if ReportsWork(Judge(rows[..n], needles, earlier)) {
        WorkIsIrrevocable(rows[..n], rows[n..], needles, earlier, failure);
      }
    }
    var input := FindFirst(rows, r => IsInput(r, needles)).value;
    var rest := rows[input + 1..];
    forall i | input < i < |rows| && !rows[i].sidechain && rows[i].typ == Assistant
      ensures rows[i].apiError == True
    {
      assert rest[i - input - 1] == rows[i];
    }
    var k := FindFirst(rest, r => IsRefusal(r, failure.atMs)).value;
    assert rest[k] == rows[input + 1 + k];
  }

  /** What the rows show of a task nobody started on, `input` being the first row that carries it. No model answer
      descends from it, wherever it was appended; whatever the model did before it belongs to a turn that ended before
      it; and behind it the main chain holds no tool result, no attachment but session furniture, and no assistant row
      but records of synthetic API errors. */
  ghost predicate Unstarted(rows: seq<ClaudeRow>, needles: seq<string>, input: nat) {
    && input < |rows| && PutsIn(rows[input], needles) && (forall i :: 0 <= i < input ==> !PutsIn(rows[i], needles))
    && rows[input].uuid.Some?
    && NothingDescends(rows, rows[input].uuid.value)
    && (forall i :: 0 <= i < input && !rows[i].sidechain && DoneByModel(rows[i]) ==> EndedBefore(rows, i, input))
    && (forall i :: input < i < |rows| && !rows[i].sidechain ==> Expected(rows[i]))
  }

  /** A main-chain row that gives the model text with every needle in it: a user's message, all of it text, or a command
      queued for later. */
  predicate PutsIn(r: ClaudeRow, needles: seq<string>) {
    match r.typ
    case User =>
      !r.sidechain && (r.content.Str? || (r.content.Parts? && forall p | p in r.content.parts :: p.isText))
      && forall n | n in needles :: exists t | t in Strings(r.content) :: Includes(t, n)
    case Attachment =>
      !r.sidechain && r.attachmentType == "queued_command"
      && forall n | n in needles :: exists t | t in Strings(r.prompt) :: Includes(t, n)
    case _ => false
  }

  lemma PutsInIff(rows: seq<ClaudeRow>, needles: seq<string>)
    ensures forall i :: 0 <= i < |rows| ==> (IsInput(rows[i], needles) <==> PutsIn(rows[i], needles))
  {
    hide Strings, Includes;
  }

  ghost predicate NothingDescends(rows: seq<ClaudeRow>, root: string) {
    forall i :: 0 <= i < |rows| && rows[i].typ == Assistant && rows[i].apiError != True && rows[i].uuid.Some? ==>
      !Reachable(rows, root, rows[i].uuid.value)
  }

  /** An assistant row that records no API error, or a user row that is not text: a tool result. */
  predicate DoneByModel(r: ClaudeRow) {
    (r.typ == Assistant && r.apiError != True) || (r.typ == User && !TextInput(r.content))
  }

  /** An assistant row between them, the first included, ended its turn, and is no error. */
  ghost predicate EndedBefore(rows: seq<ClaudeRow>, from: nat, to: nat)
    requires to <= |rows|
  {
    exists e :: from <= e < to && rows[e].typ == Assistant && rows[e].endsTurn && rows[e].apiError == Falsy
  }

  predicate Expected(r: ClaudeRow) {
    match r.typ
    case User => TextInput(r.content)
    case Attachment => r.attachmentType in ALLOWED_ATTACHMENTS
    case Assistant => r.apiError == True && r.synthetic
    case OtherRow => true
  }

  /** Behind `input` the main chain records the provider's refusal at that time. */
  ghost predicate RefusedAfter(rows: seq<ClaudeRow>, input: nat, atMs: int) {
    exists i :: input < i < |rows| && !rows[i].sidechain && rows[i].typ == Assistant && rows[i].apiError == True
      && rows[i].synthetic && rows[i].at == Some(atMs)
  }

  /** The verdict authorises a replay exactly when the rows show a task nobody started on, in the session that failed,
      and the refusal behind it. */
  lemma SafeIff(rows: seq<ClaudeRow>, needles: seq<string>, failure: Failure)
    ensures Judge(rows, needles, failure) == Safe <==>
            exists input: nat ::
              Unstarted(rows, needles, input) && RefusedAfter(rows, input, failure.atMs)
              && Truthy(failure.sessionId) && rows[input].sessionId == failure.sessionId
  {
    PutsInIff(rows, needles);
    hide IsInput, PutsIn, Reachable, TextInput;
    var first := FindFirst(rows, r => IsInput(r, needles));
    if first.Some? {
      var input := first.value;
      BeforeIff(rows, input);
      AfterIff(rows, input, failure.atMs);
      if rows[input].uuid.Some? {
        DescentIff(rows, rows[input].uuid.value);
      }
      hide WorkBefore, AfterInput, WorkDescends, NothingDescends, DoneByModel, EndedBefore, Expected, RefusedAfter;
    }
  }

  lemma DescentIff(rows: seq<ClaudeRow>, root: string)
    ensures WorkDescends(rows, root) <==> !NothingDescends(rows, root)
  {
    hide Reachable;
  }

  lemma BeforeIff(rows: seq<ClaudeRow>, input: nat)
    requires input <= |rows|
    ensures WorkBefore(rows, input) <==>
            !(forall i :: 0 <= i < input && !rows[i].sidechain && DoneByModel(rows[i]) ==>
                EndedBefore(rows, i, input))
  {
    hide TextInput;
    if WorkBefore(rows, input) {
      var k :| 0 <= k < input && WorkRow(rows[k]) && forall j :: k <= j < input ==> !TurnEnd(rows[j]);
      assert DoneByModel(rows[k]) && !EndedBefore(rows, k, input);
    }
  }

  lemma AfterIff(rows: seq<ClaudeRow>, input: nat, atMs: int)
    requires input < |rows|
    ensures AfterInput(rows[input + 1..], atMs) == Safe <==>
            (forall i :: input < i < |rows| && !rows[i].sidechain ==> Expected(rows[i]))
            && RefusedAfter(rows, input, atMs)
  {
    hide TextInput;
    var rest := rows[input + 1..];
    assert forall i :: input < i < |rows| ==> rows[i] == rest[i - input - 1];
    forall i | 0 <= i < |rest|
      ensures Offence(rest[i]).None? <==> rest[i].sidechain || Expected(rest[i])
    {
    }
    hide Offence, Expected, IsRefusal;
    if FindFirst(rest, r => Offence(r).Some?).None? {
      forall i | input < i < |rows| && !rows[i].sidechain
        ensures Expected(rows[i])
      {
        assert rows[i] == rest[i - input - 1];
      }
    }
  }

  // ---------------------------------------------------------------- claude: from a refusal back to its input

  /** The last row of each uuid, as a map built from the rows in order holds it. */
  function ByUuid(rows: seq<ClaudeRow>): map<string, ClaudeRow> {
    if rows == [] then map[]
    else
      var m, last := ByUuid(rows[..|rows| - 1]), rows[|rows| - 1];
      if Truthy(last.uuid) then m[last.uuid.value := last] else m
  }

  lemma {:induction false} ByUuidIsLast(rows: seq<ClaudeRow>, u: string) returns (i: nat)
    requires u in ByUuid(rows)
    ensures u != "" && i < |rows| && rows[i] == ByUuid(rows)[u] && rows[i].uuid == Some(u)
    ensures forall j :: i < j < |rows| ==> rows[j].uuid != Some(u)
  {
    var last := |rows| - 1;
    if rows[last].uuid == Some(u) && u != "" {
      return last;
    }
    i := ByUuidIsLast(rows[..last], u);
  }

  /** A row the walk may not pass: a completed answer, or another text input. */
  predicate Stops(r: ClaudeRow) {
    (r.typ == Assistant && r.endsTurn && r.apiError != True)
    || (r.typ == User && (r.content.Str? || (r.content.Parts? && exists p | p in r.content.parts :: p.isText)))
  }

  /** `n` parent links lead from `p` to the target, none of them through a missing, stopping or repeated target row. */
  ghost predicate LeadsIn(m: map<string, ClaudeRow>, p: Option<string>, target: Option<string>, n: nat)
    decreases n
  {
    Truthy(p)
    && if n == 0 then p == target
       else p != target && p.value in m && !Stops(m[p.value]) && LeadsIn(m, m[p.value].parentUuid, target, n - 1)
  }

  ghost predicate Leads(m: map<string, ClaudeRow>, p: Option<string>, target: Option<string>) {
    exists n: nat :: LeadsIn(m, p, target, n)
  }

  /** From `q` the target is more than `left` links away. */
  ghost predicate Behind(m: map<string, ClaudeRow>, q: string, target: Option<string>, left: nat) {
    exists longer: nat :: longer > left && LeadsIn(m, Some(q), target, longer)
  }

  lemma {:induction false} LeadsOneWay(m: map<string, ClaudeRow>, p: Option<string>, target: Option<string>, a: nat,
                                       b: nat)
    requires LeadsIn(m, p, target, a) && LeadsIn(m, p, target, b)
    ensures a == b
    decreases a
  {
    if a > 0 && b > 0 {
      LeadsOneWay(m, m[p.value].parentUuid, target, a - 1, b - 1);
    }
  }

  /** The walk along parent links. It ends on cyclic and dangling links, and finds the input exactly when a chain
      of links reaches it. */
  method WalkBack(m: map<string, ClaudeRow>, start: Option<string>, target: Option<string>) returns (found: bool)
    ensures found <==> Leads(m, start, target)
  {
    var parent := start;
    var seen: set<string> := {};
    // The links still to follow, when there is a way to the target at all.
    ghost var left: nat := 0;
    if Leads(m, start, target) {
      left :| LeadsIn(m, start, target, left);
    }
    while Truthy(parent) && parent.value !in seen
      invariant seen <= m.Keys
      invariant Leads(m, start, target) ==> LeadsIn(m, parent, target, left)
      invariant Leads(m, parent, target) ==> Leads(m, start, target)
      invariant Leads(m, start, target) ==> forall q :: q in seen ==> Behind(m, q, target, left)
      decreases m.Keys - seen
    {
      if parent == target {
        assert LeadsIn(m, parent, target, 0);
        return true;
      }
      seen := seen + {parent.value};
      if parent.value !in m {
        return false;
      }
      var e := m[parent.value];
      if Stops(e) {
        return false;
      }
      forall n: nat | LeadsIn(m, e.parentUuid, target, n)
        ensures Leads(m, start, target)
      {
        assert LeadsIn(m, parent, target, n + 1);
      }
      ghost var was := left;
      left := if left > 0 then left - 1 else 0;
      forall q | q in seen && Leads(m, start, target)
        ensures Behind(m, q, target, left)
      {
        if q == parent.value {
          assert LeadsIn(m, Some(q), target, was);
        } else {
          assert Behind(m, q, target, was);
        }
      }
      parent := e.parentUuid;
    }
    if Leads(m, start, target) && Truthy(parent) {
      var longer: nat :| longer > left && LeadsIn(m, parent, target, longer);
      LeadsOneWay(m, parent, target, left, longer);
    }
    return false;
  }

  function TextParts(parts: seq<Part>): seq<string> {
    if parts == [] then []
    else (if parts[0].isText then [parts[0].text] else []) + TextParts(parts[1..])
  }

  /** The text searched for the task: text parts of a user message, any string of a queued command. */
  function InputText(r: ClaudeRow): string {
    if r.typ == User && r.content.Parts? then Join(TextParts(r.content.parts), "\n")
    else if r.typ == User then Join(Strings(r.content), "\n")
    else if r.typ == Attachment && r.attachmentType == "queued_command" then Join(Strings(r.prompt), "\n")
    else ""
  }

  predicate Mentions(r: ClaudeRow, needles: seq<string>) {
    InputText(r) != "" && forall n | n in needles :: Includes(InputText(r), n)
  }

  predicate ErrorAt(r: ClaudeRow, atMs: int) {
    r.apiError == True && r.at == Some(atMs)
  }

  /** The first row mentioning the task, and the first error of that time answers it. */
  ghost predicate Answers(rows: seq<ClaudeRow>, needles: seq<string>, atMs: int, input: nat, error: nat) {
    FindFirst(rows, r => Mentions(r, needles)) == Some(input)
    && FindFirst(rows, r => ErrorAt(r, atMs)) == Some(error)
    && Leads(ByUuid(rows), rows[error].parentUuid, rows[input].uuid)
  }

  method FailureContainsTask(transcript: Transcript<ClaudeRow>, needles: seq<string>, atMs: int)
    returns (contained: bool)
    ensures contained <==>
            transcript.Rows? && exists input, error: nat :: Answers(transcript.rows, needles, atMs, input, error)
  {
    if !transcript.Rows? {
      return false;
    }
    var rows := transcript.rows;
    var input := FindFirst(rows, r => Mentions(r, needles));
    if input.None? {
      return false;
    }
    var error := FindFirst(rows, r => ErrorAt(r, atMs));
    if error.None? {
      return false;
    }
    contained := WalkBack(ByUuid(rows), rows[error.value].parentUuid, rows[input.value].uuid);
    assert contained <==> Answers(rows, needles, atMs, input.value, error.value);
  }

  /** The texts of the text parts, in order. */
  lemma {:induction false} TextPartsInOrder(parts: seq<Part>, more: seq<Part>, p: Part)
    ensures TextParts(parts + more) == TextParts(parts) + TextParts(more)
    ensures TextParts([p]) == (if p.isText then [p.text] else []) && TextParts([]) == []
  {
    assert [p][1..] == [];
    if parts == [] {
      assert parts + more == more;
    } else {
      assert (parts + more)[1..] == parts[1..] + more;
      TextPartsInOrder(parts[1..], more, p);
    }
  }

  /** A user's message or a queued command that quotes the needles; of a message in parts, its text parts do. */
  predicate Quotes(r: ClaudeRow, needles: seq<string>) {
    match r.typ
    case User => Quoted(if r.content.Parts? then TextParts(r.content.parts) else Strings(r.content), needles)
    case Attachment => r.attachmentType == "queued_command" && Quoted(Strings(r.prompt), needles)
    case _ => false
  }

  /** Neither an answer that ended its turn, unless it records an API error, nor a message of the user with text in it:
      tool results are his too. */
  predicate Passable(r: ClaudeRow) {
    match r.typ
    case Assistant => !r.endsTurn || r.apiError == True
    case User =>
      match r.content {
        case Str(_) => false
        case Parts(parts) => forall p | p in parts :: !p.isText
        case Other(_) => true
      }
    case _ => true
  }

  /** Row `j` is the last one with the uuid that row `i` names as its parent, and the walk may go on from it. */
  ghost predicate GoesOn(rows: seq<ClaudeRow>, i: nat, j: nat) {
    && i < |rows| && j < |rows| && Truthy(rows[i].parentUuid) && rows[i].parentUuid == rows[j].uuid
    && (forall k :: j < k < |rows| ==> rows[k].uuid != rows[j].uuid) && Passable(rows[j])
  }

  /** A way back through the rows, each naming the next as its parent and the last one naming the target. */
  ghost predicate WayBack(rows: seq<ClaudeRow>, way: seq<nat>, from: nat, target: Option<string>) {
    && way != [] && way[0] == from && way[|way| - 1] < |rows|
    && Truthy(target) && rows[way[|way| - 1]].parentUuid == target
    && forall k: nat :: k + 1 < |way| ==> GoesOn(rows, way[k], way[k + 1])
  }

  /** On the rows: the first one that quotes the task, the first API error of that time, and a way back from it. */
  lemma AnswersTaskIff(rows: seq<ClaudeRow>, needles: seq<string>, atMs: int, input: nat, error: nat)
    ensures Answers(rows, needles, atMs, input, error) <==>
            && input < |rows| && Quotes(rows[input], needles)
            && (forall i :: 0 <= i < input ==> !Quotes(rows[i], needles))
            && error < |rows| && rows[error].apiError == True && rows[error].at == Some(atMs)
            && (forall i :: 0 <= i < error ==> !(rows[i].apiError == True && rows[i].at == Some(atMs)))
            && exists way :: WayBack(rows, way, error, rows[input].uuid)
  {
    hide FindFirst, Mentions, Quotes, ErrorAt, Leads, WayBack;
    FirstQuote(rows, needles, input);
    FirstError(rows, atMs, error);
    if input < |rows| && error < |rows| {
      LeadsIff(rows, error, rows[input].uuid);
    }
  }

  lemma FirstQuote(rows: seq<ClaudeRow>, needles: seq<string>, input: nat)
    ensures FindFirst(rows, r => Mentions(r, needles)) == Some(input) <==>
            input < |rows| && Quotes(rows[input], needles) && forall i :: 0 <= i < input ==> !Quotes(rows[i], needles)
  {
    QuotesIff(rows, needles);
    hide FindFirst, Mentions, Quotes;
    var k := FindFirst(rows, r => Mentions(r, needles));
    if input < |rows| && Quotes(rows[input], needles) && (forall i :: 0 <= i < input ==> !Quotes(rows[i], needles)) {
      assert k.Some? && k.value == input;
    }
  }

  lemma QuotesIff(rows: seq<ClaudeRow>, needles: seq<string>)
    ensures forall i :: 0 <= i < |rows| ==> (Mentions(rows[i], needles) <==> Quotes(rows[i], needles))
  {
    hide Strings, Includes, Join, TextParts;
  }

  lemma FirstError(rows: seq<ClaudeRow>, atMs: int, error: nat)
    ensures FindFirst(rows, r => ErrorAt(r, atMs)) == Some(error) <==>
            && error < |rows| && rows[error].apiError == True && rows[error].at == Some(atMs)
            && forall i :: 0 <= i < error ==> !(rows[i].apiError == True && rows[i].at == Some(atMs))
  {
    hide FindFirst;
    FirstAfter(rows, r => ErrorAt(r, atMs), 0, error);
    assert rows[0..] == rows;
  }

  lemma LeadsIff(rows: seq<ClaudeRow>, error: nat, target: Option<string>)
    requires error < |rows|
    ensures Leads(ByUuid(rows), rows[error].parentUuid, target) <==>
            exists way :: WayBack(rows, way, error, target)
  {
    hide WayBack;
    if Leads(ByUuid(rows), rows[error].parentUuid, target) {
      var n: nat :| LeadsIn(ByUuid(rows), rows[error].parentUuid, target, n);
      var way := WayOf(rows, error, target, n);
    }
    forall way | WayBack(rows, way, error, target)
      ensures Leads(ByUuid(rows), rows[error].parentUuid, target)
    {
      var n := WayLeads(rows, way, error, target);
    }
  }

  lemma {:induction false} WayOf(rows: seq<ClaudeRow>, i: nat, target: Option<string>, n: nat) returns (way: seq<nat>)
    requires i < |rows| && LeadsIn(ByUuid(rows), rows[i].parentUuid, target, n)
    ensures WayBack(rows, way, i, target)
    decreases n
  {
    if n == 0 {
      return [i];
    }
    var j := ByUuidIsLast(rows, rows[i].parentUuid.value);
    var on := WayOf(rows, j, target, n - 1);
    assert GoesOn(rows, i, j);
    return [i] + on;
  }

  lemma {:induction false} WayLeads(rows: seq<ClaudeRow>, way: seq<nat>, from: nat, target: Option<string>)
    returns (n: nat)
    requires WayBack(rows, way, from, target)
    ensures from < |rows| && LeadsIn(ByUuid(rows), rows[from].parentUuid, target, n)
    decreases |way|
  {
    if |way| == 1 {
      return 0;
    }
    assert GoesOn(rows, way[0], way[1]);
    var p := rows[from].parentUuid;
    if p == target {
      return 0;
    }
    var rest := way[1..];
    forall k: nat | k + 1 < |rest|
      ensures GoesOn(rows, rest[k], rest[k + 1])
    {
      assert GoesOn(rows, way[k + 1], way[k + 1 + 1]);
    }
    var on := WayLeads(rows, rest, way[1], target);
    LastIsByUuid(rows, way[1]);
    return on + 1;
  }

  lemma {:induction false} LastIsByUuid(rows: seq<ClaudeRow>, i: nat)
    requires i < |rows| && Truthy(rows[i].uuid) && forall j :: i < j < |rows| ==> rows[j].uuid != rows[i].uuid
    ensures rows[i].uuid.value in ByUuid(rows) && ByUuid(rows)[rows[i].uuid.value] == rows[i]
  {
    if i < |rows| - 1 {
      LastIsByUuid(rows[..|rows| - 1], i);
    }
  }

  /** What the walk accepts, the closure also reaches: the failed row descends from the input. */
  lemma AnswersDescends(rows: seq<ClaudeRow>, needles: seq<string>, atMs: int, input: nat, error: nat)
    requires Answers(rows, needles, atMs, input, error) && Truthy(rows[error].uuid)
    ensures Truthy(rows[input].uuid) && Reachable(rows, rows[input].uuid.value, rows[error].uuid.value)
  {
    var m, p, target := ByUuid(rows), rows[error].parentUuid, rows[input].uuid;
    var n: nat :| LeadsIn(m, p, target, n);
    LeadsReachable(rows, p, target, n);
    Extend(rows, target.value, error);
  }

  lemma {:induction false} LeadsReachable(rows: seq<ClaudeRow>, p: Option<string>, target: Option<string>, n: nat)
    requires LeadsIn(ByUuid(rows), p, target, n)
    ensures Truthy(target) && Truthy(p) && Reachable(rows, target.value, p.value)
    decreases n
  {
    if n > 0 {
      var i := ByUuidIsLast(rows, p.value);
      hide Reachable, ByUuid, Stops;
      LeadsReachable(rows, rows[i].parentUuid, target, n - 1);
      Extend(rows, target.value, i);
    }
  }

  /** A refusal that belongs to the input `a` is claimed for an earlier input `b` exactly when the walk goes on past
      `a`: never past a text input, so an earlier request still in the history is safe, but past a queued command,
      whose whole batch the refusal answers. */
  lemma {:induction false} RefusalReachesEarlierIff(m: map<string, ClaudeRow>, p: Option<string>, a: string, b: string,
                                                    i: nat)
    requires LeadsIn(m, p, Some(a), i) && a != b && forall j: nat :: j < i ==> !LeadsIn(m, p, Some(b), j)
    ensures Leads(m, p, Some(b)) <==> a in m && !Stops(m[a]) && Leads(m, m[a].parentUuid, Some(b))
    decreases i
  {
    if i == 0 {
      LeadsOn(m, p, b);
    } else {
      var parent := m[p.value].parentUuid;
      assert LeadsIn(m, p, Some(b), 0) <==> p == Some(b);
      forall j: nat | j < i - 1
        ensures !LeadsIn(m, parent, Some(b), j)
      {
        assert !LeadsIn(m, p, Some(b), j + 1);
      }
      RefusalReachesEarlierIff(m, parent, a, b, i - 1);
      LeadsOn(m, p, b);
    }
  }

  lemma LeadsOn(m: map<string, ClaudeRow>, p: Option<string>, b: string)
    requires Truthy(p) && p != Some(b)
    ensures Leads(m, p, Some(b)) <==> p.value in m && !Stops(m[p.value]) && Leads(m, m[p.value].parentUuid, Some(b))
  {
    if Leads(m, p, Some(b)) {
      var n: nat :| LeadsIn(m, p, Some(b), n);
      assert LeadsIn(m, m[p.value].parentUuid, Some(b), n - 1);
    }
    if p.value in m && !Stops(m[p.value]) && Leads(m, m[p.value].parentUuid, Some(b)) {
      var n: nat :| LeadsIn(m, m[p.value].parentUuid, Some(b), n);
      assert LeadsIn(m, p, Some(b), n + 1);
    }
  }

  /** Two text inputs never share a refusal. */
  lemma RefusalHasOneInput(m: map<string, ClaudeRow>, p: Option<string>, a: string, b: string, i: nat, j: nat)
    requires a in m && Stops(m[a]) && b in m && Stops(m[b])
    requires LeadsIn(m, p, Some(a), i) && LeadsIn(m, p, Some(b), j)
    ensures a == b
  {
    if a != b && i <= j {
      Nearest(m, p, b, i, j);
      RefusalReachesEarlierIff(m, p, a, b, i);
    } else if a != b {
      Nearest(m, p, a, j, i);
      RefusalReachesEarlierIff(m, p, b, a, j);
    }
  }

  lemma Nearest(m: map<string, ClaudeRow>, p: Option<string>, b: string, i: nat, j: nat)
    requires LeadsIn(m, p, Some(b), j) && i <= j
    ensures forall k: nat :: k < i ==> !LeadsIn(m, p, Some(b), k)
  {
    forall k: nat | LeadsIn(m, p, Some(b), k)
      ensures k == j
    {
      LeadsOneWay(m, p, Some(b), k, j);
    }
  }
}
