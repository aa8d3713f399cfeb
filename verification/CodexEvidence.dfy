/** Codex rollouts: the refusal verdict, with the automaton that decides whether an earlier response of the turn had
    ended before the input, and the link from an input to the refusal that ends its turn. */
module CodexEvidence {
  import opened Text
  import opened RefusalEvidence

  datatype Role = UserRole | DeveloperRole | SystemRole | OtherRole

  /** A call id as found in the row: missing, a string, or some other JSON value. */
  datatype CallId = Missing | Id(id: string) | Strange(code: int)

  datatype CodexItem =
    | Message(role: Role)
    | AdditionalTools(role: Role)
    | Call(callId: CallId)
    | CallOutput(callId: CallId)
    | OtherItem

  datatype CodexEvent =
    | RawResponseCompleted(hasId: bool)
    | UserMessage(content: Content)
    | ItemStarted(userItem: bool)
    | ItemCompleted(userItem: bool, content: Content)
    | AgentActivity
    | TurnAborted
    | TaskStarted
    | TaskComplete(completedAt: Option<int>, lastMessageNull: bool)
    | OtherEvent

  datatype CodexRow =
    | SessionMeta(sessionId: Option<string>, id: Option<string>)
    | ResponseItem(item: CodexItem)
    | EventMsg(event: CodexEvent, at: Option<int>)
    | OtherCodexRow

  // ---------------------------------------------------------------- rows

  /** The content of a row that records a user's message. */
  function InputContent(r: CodexRow): Option<Content> {
    match r
    case EventMsg(UserMessage(content), _) => Some(content)
    case EventMsg(ItemCompleted(true, content), _) => Some(content)
    case _ => None
  }

  predicate IsInput(r: CodexRow, needles: seq<string>) {
    InputContent(r).Some? && Carries(InputContent(r).value, needles)
  }

  predicate Bootstrap(i: CodexItem) {
    (i.Message? || i.AdditionalTools?) && i.role != OtherRole
  }

  /** Activity of the model or of its tools. */
  predicate Activity(r: CodexRow) {
    match r
    case ResponseItem(i) => !Bootstrap(i)
    case EventMsg(e, _) =>
      ((e.ItemStarted? || e.ItemCompleted?) && !e.userItem) || e.AgentActivity? || e.TurnAborted?
    case _ => false
  }

  predicate Completes(r: CodexRow) {
    r.EventMsg? && r.event == RawResponseCompleted(true)
  }

  /** The call a row opens; a call without an id is filed under `unknown`. */
  function Opened(r: CodexRow): Option<CallId> {
    if !(r.ResponseItem? && r.item.Call?) then None
    else if r.item.callId.Missing? then Some(Id("unknown"))
    else Some(r.item.callId)
  }

  /** The call a row answers, when it names one by a string. */
  function Answered(r: CodexRow): Option<CallId> {
    if r.ResponseItem? && r.item.CallOutput? && r.item.callId.Id? then Some(r.item.callId) else None
  }

  predicate TaskStart(r: CodexRow) {
    r.EventMsg? && r.event.TaskStarted?
  }

  predicate TaskEnd(r: CodexRow) {
    r.EventMsg? && r.event.TaskComplete?
  }

  function EndedAt(r: CodexRow): Option<int>
    requires TaskEnd(r)
  {
    if r.event.completedAt.Some? then Some(r.event.completedAt.value * 1000) else r.at
  }

  // ---------------------------------------------------------------- the turn before the input

  /** After the first `n` rows, call `x` was opened and not answered since. */
  ghost predicate Open(turn: seq<CodexRow>, x: CallId, n: nat)
    requires n <= |turn|
  {
    exists i :: 0 <= i < n && Opened(turn[i]) == Some(x) && forall k :: i < k < n ==> Answered(turn[k]) != Some(x)
  }

  /** A row that leaves a finished response finished: no activity, or the answer to an open call. */
  ghost predicate Harmless(turn: seq<CodexRow>, j: nat)
    requires j < |turn|
  {
    !Activity(turn[j]) || (Answered(turn[j]).Some? && Open(turn, Answered(turn[j]).value, j))
  }

  /** Some completed response among the first `n` rows is followed by nothing but answers to open calls. */
  ghost predicate Ended(turn: seq<CodexRow>, n: nat)
    requires n <= |turn|
  {
    exists c :: 0 <= c < n && Completes(turn[c]) && forall j :: c < j < n ==> Harmless(turn, j)
  }

  /** Nothing of the model is under way at the end of the turn so far. */
  ghost predicate Quiet(turn: seq<CodexRow>) {
    (forall j :: 0 <= j < |turn| ==> !Activity(turn[j]))
    || (Ended(turn, |turn|) && forall x :: !Open(turn, x, |turn|))
  }

  /** One pass with three variables accepts exactly the quiet turns. */
  method TurnIsQuiet(turn: seq<CodexRow>) returns (quiet: bool)
    ensures quiet <==> Quiet(turn)
  {
    var modelBefore, completed := false, false;
    var pendingCalls: set<CallId> := {};
    for i := 0 to |turn|
      invariant modelBefore <==> exists j :: 0 <= j < i && Activity(turn[j])
      invariant completed <==> Ended(turn, i)
      invariant forall x :: x in pendingCalls <==> Open(turn, x, i)
    {
      var r := turn[i];
      CallStep(turn, i);
      EndedStep(turn, i);
      if Completes(r) {
        completed := true;
        continue;
      }
      if Activity(r) {
        modelBefore := true;
        if r.ResponseItem? && r.item.CallOutput? {
          if !r.item.callId.Id? || r.item.callId !in pendingCalls {
            completed := false;
          }
          if r.item.callId.Id? {
            pendingCalls := pendingCalls - {r.item.callId};
          }
        } else {
          completed := false;
          if Opened(r).Some? {
            pendingCalls := pendingCalls + {Opened(r).value};
          }
        }
      }
    }
    return !modelBefore || (completed && pendingCalls == {});
  }

  lemma CallStep(turn: seq<CodexRow>, n: nat)
    requires n < |turn|
    ensures forall x :: Open(turn, x, n + 1) <==>
                          Opened(turn[n]) == Some(x) || (Open(turn, x, n) && Answered(turn[n]) != Some(x))
  {
  }

  lemma EndedStep(turn: seq<CodexRow>, n: nat)
    requires n < |turn|
    ensures Ended(turn, n + 1) <==> Completes(turn[n]) || (Ended(turn, n) && Harmless(turn, n))
  {
    hide Harmless, Completes;
  }

  /** In a quiet turn every call has been answered after it was opened. */
  lemma QuietAnswersEveryCall(turn: seq<CodexRow>, i: nat)
    requires Quiet(turn) && i < |turn| && Opened(turn[i]).Some?
    ensures exists k :: i < k < |turn| && Answered(turn[k]) == Opened(turn[i])
  {
    assert Activity(turn[i]);
    assert !Open(turn, Opened(turn[i]).value, |turn|);
  }

  /** What only the model or its tools put into a rollout. */
  predicate ByModel(r: CodexRow) {
    match r
    case ResponseItem(Message(role)) => role == OtherRole
    case ResponseItem(AdditionalTools(role)) => role == OtherRole
    case ResponseItem(_) => true
    case EventMsg(ItemStarted(byUser), _) => !byUser
    case EventMsg(ItemCompleted(byUser, _), _) => !byUser
    case EventMsg(e, _) => e.AgentActivity? || e.TurnAborted?
    case _ => false
  }

  /** The row opens this call; one without an id is filed under `unknown`. */
  predicate Opens(r: CodexRow, x: CallId) {
    r.ResponseItem? && r.item.Call? && x == if r.item.callId.Missing? then Id("unknown") else r.item.callId
  }

  /** The row answers this call, by a string. */
  predicate Replies(r: CodexRow, x: CallId) {
    r.ResponseItem? && r.item.CallOutput? && r.item.callId.Id? && r.item.callId == x
  }

  /** The row answers a call that is open. */
  ghost predicate AnswersOpen(turn: seq<CodexRow>, j: nat)
    requires j < |turn|
  {
    exists i, x :: 0 <= i < j && Opens(turn[i], x) && Replies(turn[j], x)
                   && forall k :: i < k < j ==> !Replies(turn[k], x)
  }

  /** A response is seen to complete, by its id. */
  ghost predicate CompletedAfter(turn: seq<CodexRow>, j: nat) {
    exists c :: j < c < |turn| && turn[c].EventMsg? && turn[c].event == RawResponseCompleted(true)
  }

  ghost predicate RepliedAfter(turn: seq<CodexRow>, i: nat, x: CallId) {
    exists k :: i < k < |turn| && Replies(turn[k], x)
  }

  /** A quiet turn is one in which every response begun was completed and every call opened was answered: what the model
      or its tools did, unless it answers an open call, is followed by a completion. */
  lemma QuietIff(turn: seq<CodexRow>)
    ensures Quiet(turn) <==>
            && (forall j :: 0 <= j < |turn| && ByModel(turn[j]) && !AnswersOpen(turn, j) ==> CompletedAfter(turn, j))
            && (forall i, x :: 0 <= i < |turn| && Opens(turn[i], x) ==> RepliedAfter(turn, i, x))
  {
    HarmlessIff(turn);
    AnsweredIff(turn);
    NoActivityIff(turn);
    hide Activity, ByModel, Opens, Replies, Opened, Answered, Open, Harmless, AnswersOpen;
    if exists j :: 0 <= j < |turn| && !Harmless(turn, j) {
      var k := LastHarm(turn, |turn|);
      if CompletedAfter(turn, k) {
        var c :| k < c < |turn| && turn[c].EventMsg? && turn[c].event == RawResponseCompleted(true);
        assert Ended(turn, |turn|);
      }
    }
  }

  lemma RowIs(r: CodexRow, x: CallId)
    ensures Activity(r) <==> ByModel(r)
    ensures Opened(r) == Some(x) <==> Opens(r, x)
    ensures Answered(r) == Some(x) <==> Replies(r, x)
  {
  }

  lemma OpenIff(turn: seq<CodexRow>, x: CallId, n: nat)
    requires n <= |turn|
    ensures Open(turn, x, n) <==>
            exists i :: 0 <= i < n && Opens(turn[i], x) && forall k :: i < k < n ==> !Replies(turn[k], x)
  {
    forall i | 0 <= i < n
      ensures Opened(turn[i]) == Some(x) <==> Opens(turn[i], x)
      ensures Answered(turn[i]) == Some(x) <==> Replies(turn[i], x)
    {
      RowIs(turn[i], x);
    }
    hide Opened, Answered, Opens, Replies;
  }

  lemma HarmlessIff(turn: seq<CodexRow>)
    ensures forall j :: 0 <= j < |turn| ==> (Harmless(turn, j) <==> !ByModel(turn[j]) || AnswersOpen(turn, j))
  {
    forall j | 0 <= j < |turn|
      ensures Harmless(turn, j) <==> !ByModel(turn[j]) || AnswersOpen(turn, j)
    {
      RowIs(turn[j], Id(""));
      AnswersIff(turn, j);
      hide Activity, ByModel, AnswersOpen;
    }
  }

  lemma AnswersIff(turn: seq<CodexRow>, j: nat)
    requires j < |turn|
    ensures AnswersOpen(turn, j) <==> Answered(turn[j]).Some? && Open(turn, Answered(turn[j]).value, j)
  {
    forall x
      ensures Answered(turn[j]) == Some(x) <==> Replies(turn[j], x)
      ensures Open(turn, x, j) <==>
              exists i :: 0 <= i < j && Opens(turn[i], x) && forall k :: i < k < j ==> !Replies(turn[k], x)
    {
      RowIs(turn[j], x);
      OpenIff(turn, x, j);
    }
    hide Opened, Answered, Opens, Replies, Open;
    if Answered(turn[j]).Some? {
      assert Replies(turn[j], Answered(turn[j]).value);
    }
  }

  lemma AnsweredIff(turn: seq<CodexRow>)
    ensures (forall x :: !Open(turn, x, |turn|)) <==>
            (forall i, x :: 0 <= i < |turn| && Opens(turn[i], x) ==> RepliedAfter(turn, i, x))
  {
    forall x
      ensures Open(turn, x, |turn|) <==> exists i :: 0 <= i < |turn| && Opens(turn[i], x) && !RepliedAfter(turn, i, x)
    {
      OpenIff(turn, x, |turn|);
      hide Open, Opens, Replies;
    }
    hide Open, Opens, RepliedAfter;
    forall i, x | 0 <= i < |turn| && Opens(turn[i], x)
      ensures Open(turn, x, |turn|) || RepliedAfter(turn, i, x)
    {
    }
  }

  /** A call is opened, and a response completed, by no answer; and the first activity of a turn answers nothing. */
  lemma NoActivityIff(turn: seq<CodexRow>)
    ensures forall i :: 0 <= i < |turn| && Completes(turn[i]) ==> Harmless(turn, i)
    ensures forall i, x :: 0 <= i < |turn| && Opens(turn[i], x) ==> !Harmless(turn, i)
    ensures (forall j :: 0 <= j < |turn| ==> Harmless(turn, j)) <==> forall j :: 0 <= j < |turn| ==> !Activity(turn[j])
  {
    forall i | 0 <= i < |turn|
      ensures Completes(turn[i]) ==> Harmless(turn, i)
      ensures forall x :: Opens(turn[i], x) ==> !Harmless(turn, i)
    {
    }
    if forall j :: 0 <= j < |turn| ==> Harmless(turn, j) {
      forall j | 0 <= j < |turn|
        ensures !Activity(turn[j])
      {
        if Activity(turn[j]) {
          AnswersAnOpening(turn, j);
        }
      }
    }
  }

  lemma AnswersAnOpening(turn: seq<CodexRow>, j: nat)
    requires j < |turn| && Activity(turn[j]) && Harmless(turn, j)
    ensures exists i :: 0 <= i < j && !Harmless(turn, i)
  {
    var i :| 0 <= i < j && Opened(turn[i]) == Answered(turn[j]);
    assert !Harmless(turn, i);
  }

  lemma {:induction false} LastHarm(turn: seq<CodexRow>, n: nat) returns (k: nat)
    requires n <= |turn| && exists j :: 0 <= j < n && !Harmless(turn, j)
    ensures k < n && !Harmless(turn, k) && forall j :: k < j < n ==> Harmless(turn, j)
  {
    hide Harmless;
    if Harmless(turn, n - 1) {
      k := LastHarm(turn, n - 1);
    } else {
      k := n - 1;
    }
  }

  // ---------------------------------------------------------------- the verdict

  predicate WorkAfter(r: CodexRow) {
    Activity(r) || (TaskEnd(r) && !r.event.lastMessageNull)
  }

  predicate IsRefusal(r: CodexRow, atMs: int) {
    TaskEnd(r) && EndedAt(r) == Some(atMs)
  }

  function NativeId(rows: seq<CodexRow>): Option<string> {
    match FindFirst(rows, (r: CodexRow) => r.SessionMeta?)
    case None => None
    case Some(k) => if rows[k].sessionId.Some? then rows[k].sessionId else rows[k].id
  }

  function AfterInput(rows: seq<CodexRow>, atMs: int): Verdict {
    if FindFirst(rows, r => WorkAfter(r)).Some? then Review(ModelWorkAfterInput)
    else if FindFirst(rows, r => IsRefusal(r, atMs)).Some? then Safe
    else Review(MissingNativeRefusal)
  }

  ghost function Judge(rows: seq<CodexRow>, needles: seq<string>, failure: Failure): Verdict {
    match FindFirst(rows, r => IsInput(r, needles))
    case None => Review(MissingNativeInput)
    case Some(input) =>
      if !Truthy(failure.sessionId) || NativeId(rows) != failure.sessionId then Review(NativeSessionMismatch)
      else match FindLast(rows[..input], r => TaskStart(r))
        case None => Review(MissingTurnStart)
        case Some(start) =>
          if !Quiet(rows[start + 1..input]) then Review(ModelWorkBeforeQueuedInput)
          else AfterInput(rows[input + 1..], failure.atMs)
  }

  ghost function Decision(transcript: Transcript<CodexRow>, needles: seq<string>, failure: Failure): Verdict {
    if transcript.Torn? then Review(IncompleteEvidence)
    else if needles == [] || "" in needles then Review(MissingTaskMarker)
    else if transcript.Malformed? then Review(MalformedEvidence)
    else Judge(transcript.rows, needles, failure)
  }

  method RefusalReviewReason(transcript: Transcript<CodexRow>, needles: seq<string>, failure: Failure)
    returns (v: Verdict)
    ensures v == Decision(transcript, needles, failure)
  {
    hide Quiet, AfterInput, IsInput, NativeId, TaskStart;
    if transcript.Torn? {
      return Review(IncompleteEvidence);
    }
    if needles == [] || "" in needles {
      return Review(MissingTaskMarker);
    }
    if transcript.Malformed? {
      return Review(MalformedEvidence);
    }
    var rows := transcript.rows;
    var found := FindFirst(rows, r => IsInput(r, needles));
    if found.None? {
      return Review(MissingNativeInput);
    }
    var input := found.value;
    if !Truthy(failure.sessionId) || NativeId(rows) != failure.sessionId {
      return Review(NativeSessionMismatch);
    }
    var start := FindLast(rows[..input], r => TaskStart(r));
    if start.None? {
      return Review(MissingTurnStart);
    }
    var quiet := TurnIsQuiet(rows[start.value + 1..input]);
    if !quiet {
      return Review(ModelWorkBeforeQueuedInput);
    }
    v := ScanAfterInput(rows[input + 1..], failure.atMs);
  }

  method ScanAfterInput(rest: seq<CodexRow>, atMs: int) returns (v: Verdict)
    ensures v == AfterInput(rest, atMs)
  {
    var refusal := false;
    var i := 0;
    while i < |rest|
      invariant 0 <= i <= |rest|
      invariant forall j :: 0 <= j < i ==> !WorkAfter(rest[j])
      invariant refusal <==> exists j :: 0 <= j < i && IsRefusal(rest[j], atMs)
    {
      var r := rest[i];
      if Activity(r) {
        FindFirstIs(rest, r => WorkAfter(r), i);
        return Review(ModelWorkAfterInput);
      }
      if TaskEnd(r) {
        if !r.event.lastMessageNull {
          FindFirstIs(rest, r => WorkAfter(r), i);
          return Review(ModelWorkAfterInput);
        }
        if EndedAt(r) == Some(atMs) {
          refusal := true;
        }
      }
      i := i + 1;
    }
    return if refusal then Safe else Review(MissingNativeRefusal);
  }

  // ---------------------------------------------------------------- evidence is irrevocable

  predicate ReportsWork(v: Verdict) {
    v.Review? && v.reason in {ModelWorkAfterInput, ModelWorkBeforeQueuedInput}
  }

  /** Once a prefix of the rollout has shown work, no continuation of it is ever judged safe, whichever refusal the
      later judgement is about: a refusal of another session is a mismatch. */
  lemma WorkIsIrrevocable(rows: seq<CodexRow>, more: seq<CodexRow>, needles: seq<string>, before: Failure, now: Failure)
    requires ReportsWork(Judge(rows, needles, before))
    ensures var v := Judge(rows + more, needles, now);
            if now.sessionId == before.sessionId then ReportsWork(v) else v == Review(NativeSessionMismatch)
  {
    hide Quiet, IsInput, TaskStart, WorkAfter, IsRefusal, AfterInput, NativeId;
    var all := rows + more;
    FindFirstStable(rows, more, r => IsInput(r, needles));
    var input := FindFirst(rows, r => IsInput(r, needles)).value;
    assert all[..input] == rows[..input];
    NativeIdStable(rows, more);
    var start := FindLast(rows[..input], r => TaskStart(r)).value;
    assert all[start + 1..input] == rows[start + 1..input];
    assert all[input + 1..] == rows[input + 1..] + more;
    AfterInputStable(rows[input + 1..], more, before.atMs, now.atMs);
  }

  lemma AfterInputStable(rest: seq<CodexRow>, more: seq<CodexRow>, before: int, now: int)
    ensures AfterInput(rest, before) != Review(ModelWorkBeforeQueuedInput)
    ensures AfterInput(rest, before) == Review(ModelWorkAfterInput) ==>
              AfterInput(rest + more, now) == Review(ModelWorkAfterInput)
  {
    if FindFirst(rest, r => WorkAfter(r)).Some? {
      FindFirstStable(rest, more, r => WorkAfter(r));
    }
  }

  lemma NativeIdStable(rows: seq<CodexRow>, more: seq<CodexRow>)
    ensures NativeId(rows).Some? ==> NativeId(rows + more) == NativeId(rows)
  {
    if FindFirst(rows, (r: CodexRow) => r.SessionMeta?).Some? {
      FindFirstStable(rows, more, (r: CodexRow) => r.SessionMeta?);
    }
  }

  /** A safe verdict rules out work at every earlier moment, and any activity of the model after the input. */
  lemma SafeMeansNoWork(rows: seq<CodexRow>, needles: seq<string>, failure: Failure)
    requires Judge(rows, needles, failure) == Safe
    ensures forall n, earlier: Failure :: 0 <= n <= |rows| ==> !ReportsWork(Judge(rows[..n], needles, earlier))
    ensures exists start, input ::
              0 <= start < input < |rows| && TaskStart(rows[start]) && IsInput(rows[input], needles)
              && Quiet(rows[start + 1..input])
              && (forall i :: input < i < |rows| ==> !WorkAfter(rows[i]))
              && (exists i :: input < i < |rows| && IsRefusal(rows[i], failure.atMs))
  {
    hide Quiet, IsInput, TaskStart, WorkAfter, IsRefusal;
    forall n, earlier: Failure | 0 <= n <= |rows|
      ensures !ReportsWork(Judge(rows[..n], needles, earlier))
    {
      assert rows == rows[..n] + rows[n..];
      if ReportsWork(Judge(rows[..n], needles, earlier)) {
        WorkIsIrrevocable(rows[..n], rows[n..], needles, earlier, failure);
      }
    }
    var input := FindFirst(rows, r => IsInput(r, needles)).value;
    var start := FindLast(rows[..input], r => TaskStart(r)).value;
    assert rows[..input][start] == rows[start];
    var rest := rows[input + 1..];
    forall i | input < i < |rows|
      ensures !WorkAfter(rows[i])
    {
      assert rest[i - input - 1] == rows[i];
    }
    var k := FindFirst(rest, r => IsRefusal(r, failure.atMs)).value;
    assert rest[k] == rows[input + 1 + k];
  }

  /** What the rows show of a task nobody started on: it was first put in at `input`, during the turn begun at `start`,
      which is quiet by then, and behind it nothing comes from the model or its tools, no last word of a turn either. */
  ghost predicate Unstarted(rows: seq<CodexRow>, needles: seq<string>, start: nat, input: nat) {
    && start < input < |rows| && PutsIn(rows[input], needles)
    && (forall i :: 0 <= i < input ==> !PutsIn(rows[i], needles))
    && rows[start].EventMsg? && rows[start].event.TaskStarted?
    && (forall i :: start < i < input ==> !(rows[i].EventMsg? && rows[i].event.TaskStarted?))
    && Quiet(rows[start + 1..input])
    && (forall i :: input < i < |rows| ==> FromOutside(rows[i]))
  }

  /** An event that records a message of the user with every needle in it, as such or as a completed item of his. */
  predicate PutsIn(r: CodexRow, needles: seq<string>) {
    match r
    case EventMsg(UserMessage(content), _) =>
      forall n | n in needles :: exists t | t in Strings(content) :: Includes(t, n)
    case EventMsg(ItemCompleted(byUser, content), _) =>
      byUser && forall n | n in needles :: exists t | t in Strings(content) :: Includes(t, n)
    case _ => false
  }

  lemma PutsInIff(rows: seq<CodexRow>, needles: seq<string>)
    ensures forall i :: 0 <= i < |rows| ==> (IsInput(rows[i], needles) <==> PutsIn(rows[i], needles))
  {
    hide Strings, Includes;
  }

  /** A row that needs no work of the model, a last word of a turn being such work. */
  predicate FromOutside(r: CodexRow) {
    !ByModel(r) && (r.EventMsg? && r.event.TaskComplete? ==> r.event.lastMessageNull)
  }

  /** The first session header names this session, by its id when it has no session id of its own. */
  ghost predicate SessionIs(rows: seq<CodexRow>, id: string) {
    exists k :: 0 <= k < |rows| && rows[k].SessionMeta? && (forall j :: 0 <= j < k ==> !rows[j].SessionMeta?)
      && (rows[k].sessionId == Some(id) || (rows[k].sessionId.None? && rows[k].id == Some(id)))
  }

  /** Behind `input` a turn ends at that time, by its own clock in whole seconds, or else by the time of its row. */
  ghost predicate RefusedAfter(rows: seq<CodexRow>, input: nat, atMs: int) {
    exists i :: input < i < |rows| && EndsTurnAt(rows[i], atMs)
  }

  predicate EndsTurnAt(r: CodexRow, atMs: int) {
    r.EventMsg? && r.event.TaskComplete?
    && if r.event.completedAt.Some? then r.event.completedAt.value * 1000 == atMs else r.at == Some(atMs)
  }

  /** The verdict authorises a replay exactly when the rows show a task nobody started on, in the session that failed,
      and the refusal behind it. */
  lemma SafeIff(rows: seq<CodexRow>, needles: seq<string>, failure: Failure)
    ensures Judge(rows, needles, failure) == Safe <==>
            && Truthy(failure.sessionId) && SessionIs(rows, failure.sessionId.value)
            && exists start: nat, input: nat ::
                 Unstarted(rows, needles, start, input) && RefusedAfter(rows, input, failure.atMs)
  {
    hide IsInput, Quiet, TaskStart, AfterInput, FromOutside, RefusedAfter, NativeId, SessionIs, Unstarted;
    if Truthy(failure.sessionId) {
      NativeIdIs(rows, failure.sessionId.value);
    }
    PutsInIff(rows, needles);
    hide PutsIn;
    forall start: nat, input: nat | Unstarted(rows, needles, start, input)
      ensures Judge(rows, needles, failure) == Safe <==>
                Truthy(failure.sessionId) && NativeId(rows) == failure.sessionId
                && RefusedAfter(rows, input, failure.atMs)
    {
      UnstartedIs(rows, needles, start, input);
      AfterIff(rows, input, failure.atMs);
    }
    if Judge(rows, needles, failure) == Safe {
      var input := FindFirst(rows, r => IsInput(r, needles)).value;
      AfterIff(rows, input, failure.atMs);
      IsUnstarted(rows, needles, FindLast(rows[..input], r => TaskStart(r)).value, input);
    }
  }

  lemma UnstartedIs(rows: seq<CodexRow>, needles: seq<string>, start: nat, input: nat)
    requires Unstarted(rows, needles, start, input)
    ensures FindFirst(rows, r => IsInput(r, needles)) == Some(input)
    ensures FindLast(rows[..input], r => TaskStart(r)) == Some(start)
    ensures Quiet(rows[start + 1..input]) && forall i :: input < i < |rows| ==> FromOutside(rows[i])
  {
    PutsInIff(rows, needles);
    hide IsInput, PutsIn, Quiet, FromOutside;
    assert forall i :: 0 <= i < input ==> rows[..input][i] == rows[i];
  }

  lemma IsUnstarted(rows: seq<CodexRow>, needles: seq<string>, start: nat, input: nat)
    requires FindFirst(rows, r => IsInput(r, needles)) == Some(input)
    requires FindLast(rows[..input], r => TaskStart(r)) == Some(start)
    requires Quiet(rows[start + 1..input]) && forall i :: input < i < |rows| ==> FromOutside(rows[i])
    ensures Unstarted(rows, needles, start, input)
  {
    PutsInIff(rows, needles);
    hide IsInput, PutsIn, Quiet, FromOutside, FindFirst, FindLast;
    assert forall i :: 0 <= i < input ==> rows[..input][i] == rows[i];
  }

  lemma NativeIdIs(rows: seq<CodexRow>, id: string)
    ensures NativeId(rows) == Some(id) <==> SessionIs(rows, id)
  {
  }

  lemma AfterIff(rows: seq<CodexRow>, input: nat, atMs: int)
    requires input < |rows|
    ensures AfterInput(rows[input + 1..], atMs) == Safe <==>
            (forall i :: input < i < |rows| ==> FromOutside(rows[i])) && RefusedAfter(rows, input, atMs)
  {
    var rest := rows[input + 1..];
    assert forall i :: input < i < |rows| ==> rows[i] == rest[i - input - 1];
    forall i | 0 <= i < |rest|
      ensures WorkAfter(rest[i]) <==> !FromOutside(rest[i])
    {
    }
    hide WorkAfter, FromOutside;
    if FindFirst(rest, r => WorkAfter(r)).None? {
      forall i | input < i < |rows|
        ensures FromOutside(rows[i])
      {
        assert rows[i] == rest[i - input - 1];
      }
    }
  }

  // ---------------------------------------------------------------- from an input to the refusal of its turn

  function InputText(r: CodexRow): string {
    if InputContent(r).Some? then Join(Strings(InputContent(r).value), "\n") else ""
  }

  predicate Mentions(r: CodexRow, needles: seq<string>) {
    InputText(r) != "" && forall n | n in needles :: Includes(InputText(r), n)
  }

  predicate TurnBoundary(r: CodexRow) {
    r.EventMsg? && (r.event.TaskStarted? || r.event.TaskComplete? || r.event.TurnAborted?)
  }

  /** The turn of the input, the first row mentioning the task, ends with this refusal: it is the first turn boundary
      after the input, and no task end up to the input has its time. */
  predicate Answers(rows: seq<CodexRow>, needles: seq<string>, atMs: int, input: nat, error: nat) {
    input < error && FindFirst(rows, r => Mentions(r, needles)) == Some(input)
    && FindFirst(rows[input + 1..], r => TurnBoundary(r)) == Some(error - input - 1)
    && IsRefusal(rows[error], atMs) && FindFirst(rows[..input + 1], r => IsRefusal(r, atMs)).None?
  }

  /** An event that records a message of the user, as such or as a completed item of his, which quotes the needles. */
  predicate Quotes(r: CodexRow, needles: seq<string>) {
    match r
    case EventMsg(UserMessage(content), _) => Quoted(Strings(content), needles)
    case EventMsg(ItemCompleted(byUser, content), _) => byUser && Quoted(Strings(content), needles)
    case _ => false
  }

  predicate Bounds(r: CodexRow) {
    match r
    case EventMsg(TaskStarted, _) => true
    case EventMsg(TaskComplete(_, _), _) => true
    case EventMsg(TurnAborted, _) => true
    case _ => false
  }

  /** On the rows: the first one that quotes the task, and behind it, before any other bound of a turn, the end of a
      turn at that time, which no turn had ended at before. */
  lemma AnswersTaskIff(rows: seq<CodexRow>, needles: seq<string>, atMs: int, input: nat, error: nat)
    ensures Answers(rows, needles, atMs, input, error) <==>
            && input < error < |rows| && Quotes(rows[input], needles) && EndsTurnAt(rows[error], atMs)
            && (forall i :: 0 <= i < input ==> !Quotes(rows[i], needles))
            && (forall i :: input < i < error ==> !Bounds(rows[i]))
            && (forall i :: 0 <= i <= input ==> !EndsTurnAt(rows[i], atMs))
  {
    hide FindFirst, Mentions, TurnBoundary, IsRefusal, Quotes, Bounds, EndsTurnAt;
    forall i | 0 <= i < |rows|
      ensures Mentions(rows[i], needles) <==> Quotes(rows[i], needles)
      ensures TurnBoundary(rows[i]) <==> Bounds(rows[i])
      ensures IsRefusal(rows[i], atMs) <==> EndsTurnAt(rows[i], atMs)
      ensures EndsTurnAt(rows[i], atMs) ==> Bounds(rows[i])
    {
      RowQuotes(rows[i], needles, atMs);
    }
    FirstAfter(rows, r => Mentions(r, needles), 0, input);
    assert rows[0..] == rows;
    if input < |rows| {
      NoneUpTo(rows, r => IsRefusal(r, atMs), input + 1);
      if input < error {
        FirstAfter(rows, r => TurnBoundary(r), input + 1, error);
      }
    }
  }

  lemma RowQuotes(r: CodexRow, needles: seq<string>, atMs: int)
    ensures Mentions(r, needles) <==> Quotes(r, needles)
    ensures TurnBoundary(r) <==> Bounds(r)
    ensures IsRefusal(r, atMs) <==> EndsTurnAt(r, atMs)
    ensures EndsTurnAt(r, atMs) ==> Bounds(r)
  {
  }

  /** The search takes the first task end of that time anywhere and looks for boundaries between; what it finds is the
      end of the input's own turn. */
  method FailureContainsTask(transcript: Transcript<CodexRow>, needles: seq<string>, atMs: int)
    returns (contained: bool)
    ensures contained <==>
            transcript.Rows? && exists input, error: nat :: Answers(transcript.rows, needles, atMs, input, error)
  {
    if !transcript.Rows? {
      return false;
    }
    var rows := transcript.rows;
    var input := FindFirst(rows, r => Mentions(r, needles));
    if input.None? {
      return false;
    }
    var error := FindFirst(rows, r => IsRefusal(r, atMs));
    if error.None? {
      NoRefusalNoAnswer(rows, needles, atMs, input.value);
      return false;
    }
    contained := error.value > input.value && forall i :: input.value < i < error.value ==> !TurnBoundary(rows[i]);
    SearchFindsTurnEnd(rows, needles, atMs, input.value, error.value);
  }

  lemma NoRefusalNoAnswer(rows: seq<CodexRow>, needles: seq<string>, atMs: int, input: nat)
    requires input < |rows| && forall i :: 0 <= i < |rows| ==> !IsRefusal(rows[i], atMs)
    ensures forall i, error: nat :: !Answers(rows, needles, atMs, i, error)
  {
  }

  lemma SearchFindsTurnEnd(rows: seq<CodexRow>, needles: seq<string>, atMs: int, input: nat, error: nat)
    requires FindFirst(rows, r => Mentions(r, needles)) == Some(input)
    requires FindFirst(rows, r => IsRefusal(r, atMs)) == Some(error)
    ensures (input < error && forall i :: input < i < error ==> !TurnBoundary(rows[i])) <==>
            Answers(rows, needles, atMs, input, error)
    ensures forall i, e: nat :: Answers(rows, needles, atMs, i, e) ==> i == input && e == error
  {
    hide FindFirst, Mentions, TurnBoundary, IsRefusal;
    NoneUpTo(rows, r => IsRefusal(r, atMs), input + 1);
    forall e: nat | input < e
      ensures FindFirst(rows[input + 1..], r => TurnBoundary(r)) == Some((e - input - 1) as nat) <==>
              e < |rows| && TurnBoundary(rows[e]) && forall i :: input < i < e ==> !TurnBoundary(rows[i])
    {
      FirstAfter(rows, r => TurnBoundary(r), input + 1, e);
    }
    assert IsRefusal(rows[error], atMs) ==> TurnBoundary(rows[error]) by {
      RefusalEndsTurn(rows[error], atMs);
    }
    forall e: nat | Answers(rows, needles, atMs, input, e)
      ensures e == error
    {
    }
  }

  lemma RefusalEndsTurn(r: CodexRow, atMs: int)
    requires IsRefusal(r, atMs)
    ensures TurnBoundary(r)
  {
  }

  /** A task is tied to the refusal of one time at most: no later refusal can take over its custody. */
  lemma {:induction false} OneRefusalPerTask(rows: seq<CodexRow>, needles: seq<string>, a: int, b: int, i: nat, j: nat,
                                             e: nat, f: nat)
    requires Answers(rows, needles, a, i, e) && Answers(rows, needles, b, j, f)
    ensures a == b
  {
    assert e - i - 1 == f - j - 1;
  }
}
