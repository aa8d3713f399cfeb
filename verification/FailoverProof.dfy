/** The proof that authorises a replay: what the files of a failed session show about a task. */
module FailoverProof {
  import opened Text
  import E = RefusalEvidence
  import Claude = ClaudeEvidence
  import Codex = CodexEvidence

  datatype ReviewReason =
    | HostingReplaced | HostingChangedDuringClaim | DispatchUncertain | DispatchFailed
    | Refuted(reason: E.Reason) | EvidenceMismatch | OversizedEvidence | UnreadableEvidence

  /** The evidence at hand: it belongs to another session or an earlier time, its file is too big or cannot be read,
      or it is a transcript with the task's needles and the failure to match. */
  datatype Evidence =
    | Mismatch | Oversized | Unreadable
    | ClaudeTranscript(claude: E.Transcript<Claude.ClaudeRow>, needles: seq<string>, failure: E.Failure)
    | CodexRollout(codex: E.Transcript<Codex.CodexRow>, needles: seq<string>, failure: E.Failure)
    | OtherJournal(verdict: E.Verdict)

  function ReasonOf(v: E.Verdict): Option<ReviewReason> {
    if v.Safe? then None else Some(Refuted(v.reason))
  }

  /** Why the evidence does not authorise a replay; nothing when it does. */
  ghost function Reason(e: Evidence): Option<ReviewReason> {
    match e
    case Mismatch => Some(EvidenceMismatch)
    case Oversized => Some(OversizedEvidence)
    case Unreadable => Some(UnreadableEvidence)
    case ClaudeTranscript(t, needles, failure) => ReasonOf(Claude.Decision(t, needles, failure))
    case CodexRollout(t, needles, failure) => ReasonOf(Codex.Decision(t, needles, failure))
    case OtherJournal(v) => ReasonOf(v)
  }

  method RefusalReviewReason(e: Evidence) returns (reason: Option<ReviewReason>)
    ensures reason == Reason(e)
  {
    hide Claude.Decision, Codex.Decision;
    match e
    case Mismatch => return Some(EvidenceMismatch);
    case Oversized => return Some(OversizedEvidence);
    case Unreadable => return Some(UnreadableEvidence);
    case ClaudeTranscript(t, needles, failure) =>
      var v := Claude.RefusalReviewReason(t, needles, failure);
      return ReasonOf(v);
    case CodexRollout(t, needles, failure) =>
      var v := Codex.RefusalReviewReason(t, needles, failure);
      return ReasonOf(v);
    case OtherJournal(v) => return ReasonOf(v);
  }

  /** The rows show that nobody started on the task, nor left anything else unfinished in the turn it was queued into,
      and no earlier moment of the transcript was judged to show work. */
  ghost predicate Untouched(e: Evidence) {
    match e
    case ClaudeTranscript(t, needles, failure) =>
      t.Rows? && (exists input: nat :: Claude.Unstarted(t.rows, needles, input))
      && forall n :: 0 <= n <= |t.rows| ==> !Claude.ReportsWork(Claude.Judge(t.rows[..n], needles, failure))
    case CodexRollout(t, needles, failure) =>
      t.Rows? && (exists start: nat, input: nat :: Codex.Unstarted(t.rows, needles, start, input))
      && forall n :: 0 <= n <= |t.rows| ==> !Codex.ReportsWork(Codex.Judge(t.rows[..n], needles, failure))
    case OtherJournal(v) => v.Safe?
    case _ => false
  }

  lemma AuthorisedIsUntouched(e: Evidence)
    requires Reason(e).None?
    ensures Untouched(e)
  {
    hide Claude.Judge, Codex.Judge, Claude.ReportsWork, Codex.ReportsWork, Claude.Unstarted, Codex.Unstarted;
    if e.ClaudeTranscript? {
      Claude.SafeMeansNoWork(e.claude.rows, e.needles, e.failure);
      Claude.SafeIff(e.claude.rows, e.needles, e.failure);
    } else if e.CodexRollout? {
      Codex.SafeMeansNoWork(e.codex.rows, e.needles, e.failure);
      Codex.SafeIff(e.codex.rows, e.needles, e.failure);
    }
  }

  /** The evidence names the task by a marker, is complete, and shows the refusal of the recorded session behind a task
      nobody started on. */
  ghost predicate Acquits(e: Evidence) {
    match e
    case ClaudeTranscript(t, needles, failure) =>
      t.Rows? && needles != [] && "" !in needles && E.Truthy(failure.sessionId)
      && exists input: nat :: Claude.Unstarted(t.rows, needles, input) && t.rows[input].sessionId == failure.sessionId
                              && Claude.RefusedAfter(t.rows, input, failure.atMs)
    case CodexRollout(t, needles, failure) =>
      t.Rows? && needles != [] && "" !in needles && E.Truthy(failure.sessionId)
      && Codex.SessionIs(t.rows, failure.sessionId.value)
      && exists start: nat, input: nat :: Codex.Unstarted(t.rows, needles, start, input)
                                          && Codex.RefusedAfter(t.rows, input, failure.atMs)
    case OtherJournal(v) => v.Safe?
    case _ => false
  }

  /** A replay is authorised exactly on such evidence. */
  lemma AuthorisedIff(e: Evidence)
    ensures Reason(e).None? <==> Acquits(e)
  {
    hide Claude.Judge, Codex.Judge, Claude.Unstarted, Codex.Unstarted, Claude.RefusedAfter, Codex.RefusedAfter;
    hide Codex.SessionIs;
    if e.ClaudeTranscript? && e.claude.Rows? {
      Claude.SafeIff(e.claude.rows, e.needles, e.failure);
    } else if e.CodexRollout? && e.codex.Rows? {
      Codex.SafeIff(e.codex.rows, e.needles, e.failure);
    }
  }

  /** The evidence a task is judged by is of the runtime that failed, named, not older than the task and readable, or it
      authorises nothing. */
  lemma EvidenceIsTheTasks(ts: int, needles: seq<string>, failure: E.Failure, named: bool, file: NativeFile)
    ensures EvidenceFor(ts, needles, failure, named, file).Mismatch? <==> !named || file.Foreign? || failure.atMs < ts
    ensures var e := EvidenceFor(ts, needles, failure, named, file);
            Reason(e).None? ==>
              && named && ts <= failure.atMs && (file.ClaudeFile? || file.CodexFile? || file.OtherFile?)
              && Concerns(e, needles, failure) && Acquits(e)
              && (e.ClaudeTranscript? ==> file == ClaudeFile(e.claude))
              && (e.CodexRollout? ==> file == CodexFile(e.codex))
  {
    hide Acquits, Claude.Decision, Codex.Decision;
    AuthorisedIff(EvidenceFor(ts, needles, failure, named, file));
  }

  /** Evidence, and the reason it is said to yield. */
  datatype Judgement = Judgement(evidence: Evidence, reason: Option<ReviewReason>)

  ghost predicate Sincere(j: Judgement) {
    j.reason == Reason(j.evidence)
  }

  /** What reading a failed session's file yields: the file of another runtime or personality, one over the size limit
      or unreadable, or the transcript. */
  datatype NativeFile =
    | Foreign | TooBig | Broken
    | ClaudeFile(claude: E.Transcript<Claude.ClaudeRow>) | CodexFile(codex: E.Transcript<Codex.CodexRow>)
    | OtherFile(verdict: E.Verdict)

  /** The evidence for a task delivered at `ts` with these needles, against the failure recorded for it. */
  function EvidenceFor(ts: int, needles: seq<string>, failure: E.Failure, named: bool, file: NativeFile): Evidence {
    if !named || file.Foreign? || ts > failure.atMs then Mismatch
    else match file
      case TooBig => Oversized
      case Broken => Unreadable
      case ClaudeFile(t) => ClaudeTranscript(t, needles, failure)
      case CodexFile(t) => CodexRollout(t, needles, failure)
      case OtherFile(v) => OtherJournal(v)
  }

  /** The evidence concerns the task with these needles and the failure recorded for it. */
  predicate Concerns(e: Evidence, needles: seq<string>, failure: E.Failure) {
    e.ClaudeTranscript? || e.CodexRollout? ==> e.needles == needles && e.failure == failure
  }
}
