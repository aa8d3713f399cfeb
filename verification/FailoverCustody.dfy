/** Failover custody: the durable task record that a daemon pass moves from `Watching` to a terminal state, with a
    crash possible between any two writes, kills and sends. A run is judged by a law on its trace of events. */
module FailoverCustody {
  import opened Text
  import E = RefusalEvidence
  import opened P = FailoverProof

  // ---------------------------------------------------------------- the durable task

  datatype State = Watching | Claimed | Dispatching | Transferred | Review | Finished

  predicate Terminal(s: State) {
    s == Transferred || s == Review || s == Finished
  }

  datatype Trouble = Replaced | ChangedDuringClaim | Restarted | NotTerminated | SendRefused | SendThrew | SaveThrew

  datatype ProviderFailure = ProviderFailure(atMs: int, sessionId: Option<string>, file: Option<string>)

  datatype Record = Record(
    state: State,
    reason: Option<ReviewReason>,
    target: Option<string>,
    failure: Option<ProviderFailure>,
    error: Option<Trouble>)

  const FRESH := Record(Watching, None, None, None, None)

  /** The fields of a task that never change, the text that marks it in a transcript among them. */
  datatype Note = Note(id: string, ts: int, sessionToken: Option<string>, needles: seq<string>)

  /** The files of one task: its record, its marker in the active index, the claim on its hosting identity (shared
      with the other tasks of that identity) and the quarantined sessions. */
  datatype Disk = Disk(record: Option<Record>, active: bool, claim: Option<string>, quarantined: set<string>)

  const BLANK := Disk(None, false, None, {})

  // ---------------------------------------------------------------- events

  datatype Outcome = Accepted | Refused | Threw

  datatype Event =
    | Reload                                             // a pass reads the task; a crash may have come before
    | MarkActive | WriteClaim | WriteRecord(record: Record) | DropActive | DropClaim
    | Quarantine(session: string) | MarkFresh | ClearPark | SettleInflight
    | Kill | SawDead | Proved(judgement: Judgement)
    | Send(original: bool, target: string, outcome: Outcome)
    | RaiseNotice
    | RivalClaims(rival: string) | RivalReleases         // another task of the identity writes or drops the claim

  /** The index is written first and the record second, and the marker is removed after a terminal record. */
  function Save(r: Record): seq<Event> {
    Opt(!Terminal(r.state), MarkActive) + Opt(r.state == Claimed || r.state == Dispatching, WriteClaim)
    + [WriteRecord(r)] + Opt(Terminal(r.state), DropActive) + Opt(Terminal(r.state), DropClaim)
  }

  function Opt(present: bool, e: Event): seq<Event> {
    if present then [e] else []
  }

  // ---------------------------------------------------------------- one pass over one task

  /** What the world answers during one pass, in the order the pass asks. */
  datatype Answers = Answers(
    eligible: bool,                        // peer known, not managed by launchd, failover enabled
    failure: Option<ProviderFailure>,      // this task's refusal, from the newest one recorded
    processed: bool, completed: bool, belongs: bool, candidate: Option<string>, stopped: bool,
    alive: bool, token: Option<string>,
    stillAlive: bool, claimToken: Option<string>, died: bool,
    file: NativeFile,                      // the failed session's transcript, read once the host is dead
    stoppedLater: bool,                    // stopped by the operator, or managed by launchd by now
    laterCandidate: Option<string>,
    outcome: Outcome,
    torn: Option<nat>)                     // the save after the send threw after this many of its writes

  datatype Watched = Wait | Settle(record: Record) | Claim(record: Record)

  /** The decision on a `Watching` task. Failure evidence wins over native completion. */
  function Watch(note: Note, r: Record, a: Answers): Watched {
    var failure := if r.failure.Some? then r.failure else a.failure;
    if failure.None? || failure.value.atMs < note.ts then
      if a.processed && a.completed then Settle(r.(state := Finished)) else Wait
    else if !E.Truthy(failure.value.sessionId) || !E.Truthy(failure.value.file) then Wait
    else if !a.belongs then
      if a.completed then Settle(r.(state := Finished)) else Wait
    else if !E.Truthy(a.candidate) || a.stopped then Wait
    else if !E.Truthy(note.sessionToken) || (a.alive && a.token != note.sessionToken) then
      Settle(r.(state := Review, reason := Some(HostingReplaced), error := Some(Replaced)))
    else Claim(r.(state := Claimed, target := a.candidate, failure := failure))
  }

  /** The record saved once a send has answered. A send that threw leaves the record dispatching. */
  function Settled(r: Record, outcome: Outcome): Record {
    match outcome
    case Accepted => r.(state := if r.reason.None? then Transferred else Review)
    case Refused =>
      r.(state := Review, reason := if r.reason.None? then Some(DispatchFailed) else r.reason,
         error := Some(SendRefused))
    case Threw => r.(error := Some(SendThrew))
  }

  /** When the save after the send throws, the handler saves the same state once more. */
  function Settling(r: Record, a: Answers): seq<Event> {
    var settled := Settled(r, a.outcome);
    if a.torn.Some? && a.torn.value <= |Save(settled)| && a.outcome != Threw
    then Save(settled)[..a.torn.value] + Save(settled.(error := Some(SaveThrew)))
    else Save(settled)
  }

  /** The evidence judged: the transcript of the recorded failure, for this task. */
  function EvidenceOf(note: Note, f: ProviderFailure, file: NativeFile): Evidence {
    EvidenceFor(note.ts, note.needles, E.Failure(f.atMs, f.sessionId), E.Truthy(f.file), file)
  }

  ghost function Proof(note: Note, r: Record, a: Answers): Judgement
    requires r.failure.Some?
  {
    var e := EvidenceOf(note, r.failure.value, a.file);
    Judgement(e, Reason(e))
  }

  ghost function Dispatched(note: Note, r: Record, a: Answers): seq<Event>
    requires r.failure.Some?
  {
    if a.stoppedLater || !E.Truthy(a.laterCandidate) then []
    else
      var reason := Proof(note, r, a).reason;
      var sending := r.(state := Dispatching, reason := reason, target := a.laterCandidate);
      Save(sending) + ([Send(reason.None?, a.laterCandidate.value, a.outcome)] + Settling(sending, a))
  }

  /** From a durable claim to the dispatch: quarantine, stop the old host, judge the evidence, dispatch. */
  ghost function Transfer(note: Note, r: Record, a: Answers): seq<Event> {
    if r.failure.None? || !E.Truthy(r.failure.value.sessionId) then []
    else
      [Quarantine(r.failure.value.sessionId.value)]
      + ([MarkFresh] + ([ClearPark] + ([SettleInflight] + Stopping(note, r, a))))
  }

  ghost function Stopping(note: Note, r: Record, a: Answers): seq<Event>
    requires r.failure.Some?
  {
    if !a.stillAlive then [SawDead] + ([Proved(Proof(note, r, a))] + Dispatched(note, r, a))
    else if a.claimToken != note.sessionToken then
      Save(r.(state := Review, reason := Some(HostingChangedDuringClaim), error := Some(ChangedDuringClaim)))
    else if !a.died then [Kill] + Save(r.(error := Some(NotTerminated)))
    else [Kill] + ([SawDead] + ([Proved(Proof(note, r, a))] + Dispatched(note, r, a)))
  }

  /** A `Dispatching` record found by a pass is a send of unknown fate: it goes to review, never to a second send. */
  function Reconcile(r: Record): seq<Event> {
    Save(r.(state := Review, reason := if r.reason.None? then Some(DispatchUncertain) else r.reason,
            error := Some(Restarted))) + [RaiseNotice]
  }

  ghost function PassEvents(note: Note, d: Disk, a: Answers): seq<Event> {
    [Reload] + Handling(note, d, a)
  }

  ghost function Handling(note: Note, d: Disk, a: Answers): seq<Event> {
    if !d.active || d.record.None? || Terminal(d.record.value.state) || !a.eligible then []
    else
      var r := d.record.value;
      match r.state
      case Dispatching => Reconcile(r)
      case Claimed => Transfer(note, r, a)
      case _ =>
        match Watch(note, r, a)
        case Wait => []
        case Settle(settled) => Save(settled)
        case Claim(claimed) => Save(claimed) + Transfer(note, claimed, a)
  }

  // ---------------------------------------------------------------- the law a trace is judged by

  /** What an observer of the trace knows: the files, the sends so far, and what the running pass has established. */
  datatype Observed = Observed(
    disk: Disk, sends: nat, delivered: bool,
    dead: bool, proof: Option<Judgement>, armed: bool)

  const START := Observed(BLANK, 0, false, false, None, false)

  function Observe(note: Note, o: Observed, e: Event): Observed {
    match e
    case Reload => o.(dead := false, proof := None, armed := false)
    case MarkActive => o.(disk := o.disk.(active := true))
    case WriteClaim => o.(disk := o.disk.(claim := Some(note.id)))
    case WriteRecord(r) =>
      o.(disk := o.disk.(record := Some(r)),
         armed := r.state == Dispatching && (o.armed || (o.disk.record.Some? && o.disk.record.value.state == Claimed)))
    case DropActive => o.(disk := o.disk.(active := false))
    case DropClaim => o.(disk := o.disk.(claim := if o.disk.claim == Some(note.id) then None else o.disk.claim))
    case Quarantine(s) => o.(disk := o.disk.(quarantined := o.disk.quarantined + {s}))
    case SawDead => o.(dead := true, proof := None)
    case Proved(judgement) => o.(proof := Some(judgement))
    case Send(original, _, outcome) =>
      o.(sends := o.sends + 1, delivered := o.delivered || (original && outcome == Accepted), armed := false)
    case RivalClaims(rival) => o.(disk := o.disk.(claim := Some(rival)))
    case RivalReleases => o.(disk := o.disk.(claim := if o.disk.claim == Some(note.id) then o.disk.claim else None))
    case _ => o
  }

  /** The permitted moves of the durable state. */
  predicate Successor(before: State, after: State) {
    match before
    case Watching => after == Claimed || after == Review || after == Finished
    case Claimed => after == Claimed || after == Dispatching || after == Review
    case Dispatching => after == Dispatching || after == Transferred || after == Review
    case _ => after == before
  }

  predicate Quarantined(d: Disk) {
    d.record.Some? && d.record.value.failure.Some? && d.record.value.failure.value.sessionId.Some?
    && d.record.value.failure.value.sessionId.value in d.quarantined
  }

  /** The record's reason is the one of the judgement, and that concerns this task and the failure of the record. */
  predicate Rests(note: Note, r: Record, proof: Option<Judgement>) {
    proof.Some? && r.failure.Some? && proof.value.reason == r.reason
    && Concerns(proof.value.evidence, note.needles, E.Failure(r.failure.value.atMs, r.failure.value.sessionId))
  }

  /** The law: what may happen next. */
  ghost predicate Permits(note: Note, o: Observed, e: Event) {
    var rec := o.disk.record;
    match e
    case MarkActive => rec.None? || !Terminal(rec.value.state)
    case WriteClaim => rec.None? || !Terminal(rec.value.state)
    case WriteRecord(r) =>
      && (if rec.None? then r == FRESH else Successor(rec.value.state, r.state))
      && (!Terminal(r.state) ==> o.disk.active)
      && (r.state == Claimed || r.state == Dispatching ==> o.disk.claim == Some(note.id))
      && (r.state == Dispatching && rec.value.state == Claimed ==>
            o.dead && Rests(note, r, o.proof) && Quarantined(o.disk) && r.failure == rec.value.failure)
      && (r.state == Dispatching && rec.value.state == Dispatching ==> r.failure == rec.value.failure)
      && (r.state == Transferred ==> o.delivered && r.reason.None?)
    case DropActive => rec.Some? && Terminal(rec.value.state)
    case DropClaim => rec.Some? && Terminal(rec.value.state)
    case Quarantine(session) =>
      rec.Some? && rec.value.state == Claimed && rec.value.failure.Some?
      && rec.value.failure.value.sessionId == Some(session)
    case Kill => rec.Some? && rec.value.state == Claimed && Quarantined(o.disk)
    case Proved(judgement) => Sincere(judgement)
    case Send(original, target, _) =>
      && o.armed && o.sends == 0 && o.dead && o.disk.active && o.disk.claim == Some(note.id) && Quarantined(o.disk)
      && rec.Some? && rec.value.state == Dispatching && rec.value.target == Some(target)
      && Rests(note, rec.value, o.proof) && (original <==> rec.value.reason.None?)
    case RivalClaims(rival) => rival != note.id
    case _ => true
  }

  function After(note: Note, o: Observed, events: seq<Event>): Observed
    decreases |events|
  {
    if events == [] then o else After(note, Observe(note, o, events[0]), events[1..])
  }

  ghost predicate Lawful(note: Note, o: Observed, events: seq<Event>)
    decreases |events|
  {
    events == [] || (Permits(note, o, events[0]) && Lawful(note, Observe(note, o, events[0]), events[1..]))
  }

  // ---------------------------------------------------------------- runs

  /** A step of a run: the delivery records its task, a pass runs, or another task moves the claim. Either of the
      first two may be cut short by a crash after any number of its events. */
  datatype Step = Create(cut: nat) | Pass(answers: Answers, cut: nat) | Rival(claims: Option<string>)

  ghost function Uncut(note: Note, d: Disk, s: Step): seq<Event> {
    match s
    case Create(_) => if d.record.None? then Save(FRESH) else []
    case Pass(a, _) => PassEvents(note, d, a)
    case Rival(claims) =>
      if claims.None? then [RivalReleases] else if claims.value == note.id then [] else [RivalClaims(claims.value)]
  }

  ghost function StepEvents(note: Note, d: Disk, s: Step): seq<Event> {
    var all := Uncut(note, d, s);
    if !s.Rival? && s.cut < |all| then all[..s.cut] else all
  }

  /** The trace of a run from an empty store. */
  ghost function Trace(note: Note, steps: seq<Step>): seq<Event> {
    if steps == [] then []
    else
      var before := Trace(note, steps[..|steps| - 1]);
      before + StepEvents(note, After(note, START, before).disk, steps[|steps| - 1])
  }

  // ---------------------------------------------------------------- every run is lawful

  /** What every moment of a run satisfies. */
  predicate Sound(note: Note, o: Observed) {
    var rec := o.disk.record;
    && o.sends <= 1
    && (rec.Some? && rec.value.state == Watching ==> rec.value == FRESH)
    && (rec.None? ==> o.sends == 0 && !o.armed && !o.delivered)
    && (rec.Some? && !Terminal(rec.value.state) ==> o.disk.active)
    && (rec.Some? && (rec.value.state == Watching || rec.value.state == Claimed) ==> o.sends == 0)
    && (o.sends == 0 ==> !o.delivered)
    && (rec.Some? && rec.value.state == Transferred ==> o.delivered && rec.value.reason.None?)
    && (o.armed ==> o.sends == 0 && rec.Some? && rec.value.state == Dispatching)
  }

  /** A settled task has left the index and released its claim. */
  predicate Clean(note: Note, o: Observed) {
    o.disk.record.Some? && Terminal(o.disk.record.value.state) ==> !o.disk.active && o.disk.claim != Some(note.id)
  }

  lemma SoundStep(note: Note, o: Observed, e: Event)
    requires Sound(note, o) && Permits(note, o, e)
    ensures Sound(note, Observe(note, o, e))
  {
  }

  lemma {:induction false} AfterConcat(note: Note, o: Observed, a: seq<Event>, b: seq<Event>)
    ensures After(note, o, a + b) == After(note, After(note, o, a), b)
    ensures Lawful(note, o, a + b) <==> Lawful(note, o, a) && Lawful(note, After(note, o, a), b)
    decreases |a|
  {
    hide Permits, Observe;
    if a == [] {
      assert a + b == b;
    } else {
      assert (a + b)[1..] == a[1..] + b;
      AfterConcat(note, Observe(note, o, a[0]), a[1..], b);
    }
  }

  lemma {:induction false} SoundAfter(note: Note, o: Observed, events: seq<Event>)
    requires Sound(note, o) && Lawful(note, o, events)
    ensures Sound(note, After(note, o, events))
    decreases |events|
  {
    if events != [] {
      SoundStep(note, o, events[0]);
      hide Sound, Permits, Observe;
      SoundAfter(note, Observe(note, o, events[0]), events[1..]);
    }
  }

  lemma LawfulPrefix(note: Note, o: Observed, events: seq<Event>, n: nat)
    requires Lawful(note, o, events) && n <= |events|
    ensures Lawful(note, o, events[..n])
  {
    assert events == events[..n] + events[n..];
    AfterConcat(note, o, events[..n], events[n..]);
  }

  lemma One(note: Note, o: Observed, e: Event)
    ensures Lawful(note, o, [e]) <==> Permits(note, o, e)
    ensures After(note, o, [e]) == Observe(note, o, e)
  {
    hide Permits, Observe;
    assert [e][1..] == [];
  }

  lemma First(note: Note, o: Observed, e: Event, rest: seq<Event>)
    ensures Lawful(note, o, [e] + rest) <==> Permits(note, o, e) && Lawful(note, Observe(note, o, e), rest)
    ensures After(note, o, [e] + rest) == After(note, Observe(note, o, e), rest)
  {
    hide *;
    One(note, o, e);
    AfterConcat(note, o, [e], rest);
  }

  /** Whether a record may be saved: the write itself is permitted once the index and the claim are in place. */
  ghost predicate MaySave(note: Note, o: Observed, r: Record) {
    && (o.disk.record.None? || !Terminal(o.disk.record.value.state)
        || (Terminal(r.state) && o.disk.record.value.state == r.state))
    && Permits(note, o.(disk := o.disk.(active := true, claim := Some(note.id))), WriteRecord(r))
  }

  function Saved(note: Note, o: Observed, r: Record): Observed {
    var active := !Terminal(r.state);
    var claim := if r.state == Claimed || r.state == Dispatching then Some(note.id)
                 else if Terminal(r.state) && o.disk.claim == Some(note.id) then None
                 else o.disk.claim;
    Observe(note, o, WriteRecord(r)).(disk := o.disk.(record := Some(r), active := active, claim := claim))
  }

  lemma SaveIsLawful(note: Note, o: Observed, r: Record)
    requires MaySave(note, o, r)
    ensures Lawful(note, o, Save(r)) && After(note, o, Save(r)) == Saved(note, o, r)
  {
    var a, b, c, d, e := Opt(!Terminal(r.state), MarkActive),
                         Opt(r.state == Claimed || r.state == Dispatching, WriteClaim), [WriteRecord(r)],
                         Opt(Terminal(r.state), DropActive), Opt(Terminal(r.state), DropClaim);
    var oa := OptIsLawful(note, o, !Terminal(r.state), MarkActive);
    var ob := OptIsLawful(note, oa, r.state == Claimed || r.state == Dispatching, WriteClaim);
    One(note, ob, WriteRecord(r));
    var oc := Observe(note, ob, WriteRecord(r));
    var od := OptIsLawful(note, oc, Terminal(r.state), DropActive);
    var oe := OptIsLawful(note, od, Terminal(r.state), DropClaim);
    assert oe == Saved(note, o, r);
    assert Save(r) == a + b + c + d + e;
    hide *;
    AfterConcat(note, o, a, b);
    AfterConcat(note, o, a + b, c);
    AfterConcat(note, o, a + b + c, d);
    AfterConcat(note, o, a + b + c + d, e);
  }

  lemma OptIsLawful(note: Note, o: Observed, present: bool, e: Event) returns (next: Observed)
    requires present ==> Permits(note, o, e)
    ensures Lawful(note, o, Opt(present, e)) && After(note, o, Opt(present, e)) == next
    ensures next == if present then Observe(note, o, e) else o
  {
    One(note, o, e);
    next := if present then Observe(note, o, e) else o;
  }

  lemma ProofConcerns(note: Note, r: Record, a: Answers)
    requires r.failure.Some?
    ensures Concerns(Proof(note, r, a).evidence, note.needles,
            E.Failure(r.failure.value.atMs, r.failure.value.sessionId))
  {
    hide Reason;
  }

  lemma DispatchedIsLawful(note: Note, o: Observed, r: Record, a: Answers)
    requires o.disk.record == Some(r) && r.state == Claimed && Sound(note, o)
    requires Quarantined(o.disk) && o.dead && o.proof == Some(Proof(note, r, a))
    ensures Lawful(note, o, Dispatched(note, r, a)) && Clean(note, After(note, o, Dispatched(note, r, a)))
  {
    if !(a.stoppedLater || !E.Truthy(a.laterCandidate)) {
      hide Lawful, After, Save, Settling;
      var reason := Proof(note, r, a).reason;
      ProofConcerns(note, r, a);
      var sending := r.(state := Dispatching, reason := reason, target := a.laterCandidate);
      var send := Send(reason.None?, a.laterCandidate.value, a.outcome);
      var settled := Settled(sending, a.outcome);
      SaveIsLawful(note, o, sending);
      var sent := Observe(note, Saved(note, o, sending), send);
      First(note, Saved(note, o, sending), send, Settling(sending, a));
      SettlingIsLawful(note, sent, sending, a);
      AfterConcat(note, o, Save(sending), [send] + Settling(sending, a));
    }
  }

  /** A terminal save cut after any number of its writes leaves either the old record or the new one. */
  lemma TornSave(note: Note, o: Observed, r: Record, n: nat)
    requires Terminal(r.state) && n <= |Save(r)|
    ensures After(note, o, Save(r)[..n]).disk.record == if n == 0 then o.disk.record else Some(r)
    ensures After(note, o, Save(r)[..n]).delivered == o.delivered
  {
    assert Save(r) == [WriteRecord(r), DropActive, DropClaim];
    var w, d, c := WriteRecord(r), DropActive, DropClaim;
    var p := Observe(note, o, w);
    if n == 1 {
      assert Save(r)[..n] == [w];
      One(note, o, w);
    } else if n == 2 {
      assert Save(r)[..n] == [w] + [d];
      First(note, o, w, [d]);
      One(note, p, d);
    } else if n == 3 {
      assert Save(r)[..n] == [w] + ([d] + [c]);
      First(note, o, w, [d] + [c]);
      First(note, p, d, [c]);
      One(note, Observe(note, p, d), c);
    }
  }

  lemma SettlingIsLawful(note: Note, o: Observed, r: Record, a: Answers)
    requires o.disk.record == Some(r) && r.state == Dispatching
    requires r.reason.None? && a.outcome == Accepted ==> o.delivered
    ensures Lawful(note, o, Settling(r, a)) && Clean(note, After(note, o, Settling(r, a)))
  {
    var settled := Settled(r, a.outcome);
    SaveIsLawful(note, o, settled);
    if a.torn.Some? && a.torn.value <= |Save(settled)| && a.outcome != Threw {
      LawfulPrefix(note, o, Save(settled), a.torn.value);
      var torn := Save(settled)[..a.torn.value];
      TornSave(note, o, settled, a.torn.value);
      SaveIsLawful(note, After(note, o, torn), settled.(error := Some(SaveThrew)));
      AfterConcat(note, o, torn, Save(settled.(error := Some(SaveThrew))));
    }
  }

  lemma TransferIsLawful(note: Note, o: Observed, r: Record, a: Answers)
    requires o.disk.record == Some(r) && r.state == Claimed && Sound(note, o)
    ensures Lawful(note, o, Transfer(note, r, a)) && Clean(note, After(note, o, Transfer(note, r, a)))
  {
    if r.failure.Some? && E.Truthy(r.failure.value.sessionId) {
      hide Lawful, After, Stopping;
      var s := r.failure.value.sessionId.value;
      var rest := Stopping(note, r, a);
      var o1 := Observe(note, o, Quarantine(s));
      StoppingIsLawful(note, o1, r, a);
      QuietIsLawful(note, o1, rest);
      First(note, o, Quarantine(s), [MarkFresh] + ([ClearPark] + ([SettleInflight] + rest)));
    }
  }

  lemma QuietIsLawful(note: Note, o: Observed, rest: seq<Event>)
    requires Lawful(note, o, rest)
    ensures Lawful(note, o, [MarkFresh] + ([ClearPark] + ([SettleInflight] + rest)))
    ensures After(note, o, [MarkFresh] + ([ClearPark] + ([SettleInflight] + rest))) == After(note, o, rest)
  {
    hide Lawful, After;
    First(note, o, MarkFresh, [ClearPark] + ([SettleInflight] + rest));
    First(note, o, ClearPark, [SettleInflight] + rest);
    First(note, o, SettleInflight, rest);
  }

  lemma StoppingIsLawful(note: Note, o: Observed, r: Record, a: Answers)
    requires o.disk.record == Some(r) && r.state == Claimed && Sound(note, o) && Quarantined(o.disk)
    ensures Lawful(note, o, Stopping(note, r, a)) && Clean(note, After(note, o, Stopping(note, r, a)))
  {
    hide Lawful, After, Dispatched, Save;
    var o1 := Observe(note, o, SawDead);
    var o2 := Observe(note, o1, Proved(Proof(note, r, a)));
    DispatchedIsLawful(note, o2, r, a);
    First(note, o1, Proved(Proof(note, r, a)), Dispatched(note, r, a));
    First(note, o, SawDead, [Proved(Proof(note, r, a))] + Dispatched(note, r, a));
    if a.stillAlive {
      if a.claimToken != note.sessionToken {
        SaveIsLawful(note, o,
          r.(state := Review, reason := Some(HostingChangedDuringClaim), error := Some(ChangedDuringClaim)));
      } else {
        SaveIsLawful(note, o, r.(error := Some(NotTerminated)));
        First(note, o, Kill, if a.died then [SawDead] + ([Proved(Proof(note, r, a))] + Dispatched(note, r, a))
                             else Save(r.(error := Some(NotTerminated))));
      }
    }
  }

  lemma PassIsLawful(note: Note, o: Observed, a: Answers)
    requires Sound(note, o)
    ensures Lawful(note, o, PassEvents(note, o.disk, a))
    ensures Clean(note, o) ==> Clean(note, After(note, o, PassEvents(note, o.disk, a)))
  {
    var o1 := Observe(note, o, Reload);
    First(note, o, Reload, Handling(note, o.disk, a));
    HandlingIsLawful(note, o1, a);
  }

  lemma HandlingIsLawful(note: Note, o: Observed, a: Answers)
    requires Sound(note, o)
    ensures Lawful(note, o, Handling(note, o.disk, a))
    ensures Clean(note, o) ==> Clean(note, After(note, o, Handling(note, o.disk, a)))
  {
    hide Reconcile, Transfer, Watch, Sound, Permits, Save;
    if !(!o.disk.active || o.disk.record.None? || Terminal(o.disk.record.value.state) || !a.eligible) {
      var r := o.disk.record.value;
      match r.state
      case Dispatching => ReconcileIsLawful(note, o, r);
      case Claimed => TransferIsLawful(note, o, r, a);
      case _ => WatchedIsLawful(note, o, r, a);
    }
  }

  lemma WatchedIsLawful(note: Note, o: Observed, r: Record, a: Answers)
    requires Sound(note, o) && o.disk.record == Some(r) && r.state == Watching && o.disk.active && a.eligible
    ensures Lawful(note, o, Handling(note, o.disk, a)) && Clean(note, After(note, o, Handling(note, o.disk, a)))
  {
    hide Transfer, Save;
    match Watch(note, r, a)
    case Wait =>
    case Settle(settled) => SaveIsLawful(note, o, settled);
    case Claim(claimed) =>
      SaveIsLawful(note, o, claimed);
      AfterConcat(note, o, Save(claimed), Transfer(note, claimed, a));
      TransferIsLawful(note, Saved(note, o, claimed), claimed, a);
  }

  lemma ReconcileIsLawful(note: Note, o: Observed, r: Record)
    requires o.disk.record == Some(r) && r.state == Dispatching
    ensures Lawful(note, o, Reconcile(r)) && Clean(note, After(note, o, Reconcile(r)))
  {
    var settled := r.(state := Review, reason := if r.reason.None? then Some(DispatchUncertain) else r.reason,
                      error := Some(Restarted));
    SaveIsLawful(note, o, settled);
    One(note, Saved(note, o, settled), RaiseNotice);
    AfterConcat(note, o, Save(settled), [RaiseNotice]);
  }

  lemma UncutIsLawful(note: Note, o: Observed, s: Step)
    requires Sound(note, o)
    ensures Lawful(note, o, Uncut(note, o.disk, s))
    ensures Clean(note, o) ==> Clean(note, After(note, o, Uncut(note, o.disk, s)))
  {
    hide PassEvents, Save;
    match s
    case Pass(a, _) => PassIsLawful(note, o, a);
    case Create(_) =>
      if o.disk.record.None? {
        SaveIsLawful(note, o, FRESH);
      }
    case Rival(claims) =>
      One(note, o, RivalReleases);
      if claims.Some? {
        One(note, o, RivalClaims(claims.value));
      }
  }

  lemma StepIsLawful(note: Note, o: Observed, s: Step)
    requires Sound(note, o)
    ensures Lawful(note, o, StepEvents(note, o.disk, s))
  {
    hide Uncut, Lawful;
    UncutIsLawful(note, o, s);
    if !s.Rival? && s.cut < |Uncut(note, o.disk, s)| {
      LawfulPrefix(note, o, Uncut(note, o.disk, s), s.cut);
    }
  }

  /** Every run obeys the law at every moment, wherever passes are cut and whatever the world answers. */
  lemma {:induction false} EveryRunIsLawful(note: Note, steps: seq<Step>)
    ensures Lawful(note, START, Trace(note, steps)) && Sound(note, After(note, START, Trace(note, steps)))
  {
    if steps != [] {
      var init := steps[..|steps| - 1];
      var before := Trace(note, init);
      EveryRunIsLawful(note, init);
      var o := After(note, START, before);
      StepIsLawful(note, o, steps[|steps| - 1]);
      AfterConcat(note, START, before, StepEvents(note, o.disk, steps[|steps| - 1]));
    }
    SoundAfter(note, START, Trace(note, steps));
  }

  // ---------------------------------------------------------------- what the law means

  /** What an observer knows after the first `k` events of a run. */
  ghost function At(note: Note, steps: seq<Step>, k: nat): Observed
    requires k <= |Trace(note, steps)|
  {
    After(note, START, Trace(note, steps)[..k])
  }

  lemma Moment(note: Note, steps: seq<Step>, k: nat)
    requires k <= |Trace(note, steps)|
    ensures Sound(note, At(note, steps, k))
    ensures k < |Trace(note, steps)| ==>
              Permits(note, At(note, steps, k), Trace(note, steps)[k])
              && At(note, steps, k + 1) == Observe(note, At(note, steps, k), Trace(note, steps)[k])
  {
    hide Trace, Sound, Permits, Observe;
    var t := Trace(note, steps);
    EveryRunIsLawful(note, steps);
    LawfulPrefix(note, START, t, k);
    StartIsSound(note);
    SoundAfter(note, START, t[..k]);
    if k < |t| {
      LawfulPrefix(note, START, t, k + 1);
      assert t[..k + 1] == t[..k] + [t[k]];
      AfterConcat(note, START, t[..k], [t[k]]);
      One(note, At(note, steps, k), t[k]);
    }
  }

  lemma StartIsSound(note: Note)
    ensures Sound(note, START)
  {
  }

  function Rank(s: State): nat {
    match s
    case Watching => 0
    case Claimed => 1
    case Dispatching => 2
    case _ => 3
  }

  /** The state is no earlier, a terminal state is kept, and no send is forgotten. */
  predicate Onward(before: Observed, after: Observed) {
    before.sends <= after.sends
    && (before.disk.record.Some? ==>
          after.disk.record.Some?
          && Rank(before.disk.record.value.state) <= Rank(after.disk.record.value.state)
          && (Terminal(before.disk.record.value.state) ==>
                after.disk.record.value.state == before.disk.record.value.state))
  }

  lemma OnwardStep(note: Note, o: Observed, e: Event)
    requires Permits(note, o, e)
    ensures Onward(o, Observe(note, o, e))
  {
  }

  lemma OnwardTwice(a: Observed, b: Observed, c: Observed)
    requires Onward(a, b) && Onward(b, c)
    ensures Onward(a, c)
  {
  }

  /** The durable state never moves backwards, and a terminal state is never left. */
  lemma {:induction false} NeverBackwards(note: Note, steps: seq<Step>, i: nat, j: nat)
    requires i <= j <= |Trace(note, steps)|
    ensures Onward(At(note, steps, i), At(note, steps, j))
    decreases j - i
  {
    hide At, Trace, Sound, Permits, Observe;
    if i < j {
      hide Onward;
      NeverBackwards(note, steps, i, j - 1);
      Moment(note, steps, j - 1);
      OnwardStep(note, At(note, steps, j - 1), Trace(note, steps)[j - 1]);
      OnwardTwice(At(note, steps, i), At(note, steps, j - 1), At(note, steps, j));
    }
  }

  /** Over any run, with crashes anywhere, a task causes at most one send. */
  lemma AtMostOneSend(note: Note, steps: seq<Step>, i: nat, j: nat)
    requires i < |Trace(note, steps)| && j < |Trace(note, steps)|
    requires Trace(note, steps)[i].Send? && Trace(note, steps)[j].Send?
    ensures i == j
  {
    hide At, Trace;
    Moment(note, steps, i);
    Moment(note, steps, j);
    if i < j {
      NeverBackwards(note, steps, i + 1, j);
    } else if j < i {
      NeverBackwards(note, steps, j + 1, i);
    }
  }

  /** The running pass saw the old host dead at `p`, then judged the evidence at `q`. */
  predicate JudgedAfterDeath(t: seq<Event>, p: nat, q: nat, k: nat, proof: Judgement) {
    p < q < k <= |t| && t[p] == SawDead && t[q] == Proved(proof) && forall m :: p < m < k ==> t[m] != Reload
  }

  lemma {:induction false} DeathAndProof(note: Note, steps: seq<Step>, k: nat)
    requires k <= |Trace(note, steps)|
    ensures At(note, steps, k).dead ==>
              exists p: nat :: p < k && Trace(note, steps)[p] == SawDead
                && forall m :: p < m < k ==> Trace(note, steps)[m] != Reload
    ensures At(note, steps, k).dead && At(note, steps, k).proof.Some? ==>
              exists p, q: nat :: JudgedAfterDeath(Trace(note, steps), p, q, k, At(note, steps, k).proof.value)
  {
    hide At, Trace, Observe, Permits, Sound;
    if k == 0 {
      Nothing(note, steps);
    } else {
      ProofStep(note, At(note, steps, k - 1), Trace(note, steps)[k - 1]);
      var t, o, next := Trace(note, steps), At(note, steps, k - 1), At(note, steps, k);
      DeathAndProof(note, steps, k - 1);
      Moment(note, steps, k - 1);
      if next.dead && next.proof.Some? && o.dead && o.proof.Some? && !t[k - 1].Proved? {
        var p, q: nat :| JudgedAfterDeath(t, p, q, k - 1, o.proof.value);
        assert JudgedAfterDeath(t, p, q, k, next.proof.value);
      } else if next.dead && next.proof.Some? {
        var p: nat :| p < k - 1 && t[p] == SawDead && forall m :: p < m < k - 1 ==> t[m] != Reload;
        assert JudgedAfterDeath(t, p, k - 1, k, next.proof.value);
      }
    }
  }

  lemma ProofStep(note: Note, o: Observed, e: Event)
    ensures var next := Observe(note, o, e);
            (next.dead ==> e == SawDead || (o.dead && e != Reload))
            && (next.proof.Some? ==> if e.Proved? then next.proof.value == e.judgement else next.proof == o.proof)
            && (e == SawDead ==> next.proof.None?)
  {
  }

  lemma Nothing(note: Note, steps: seq<Step>)
    ensures At(note, steps, 0) == START
  {
    hide Trace;
  }

  /** Every send is covered: the record on disk says `Dispatching`, to that target; the task is indexed and holds the
      claim, its failed session is quarantined; and in the same pass the old host was seen dead before the evidence
      was judged. The original message goes out exactly when that judgement found it untouched. */
  lemma SendIsCovered(note: Note, steps: seq<Step>, k: nat)
    requires k < |Trace(note, steps)| && Trace(note, steps)[k].Send?
    ensures var d := At(note, steps, k).disk;
            d.record.Some? && d.record.value.state == Dispatching
              && d.record.value.target == Some(Trace(note, steps)[k].target)
            && d.active && d.claim == Some(note.id) && Quarantined(d)
            && (Trace(note, steps)[k].original <==> d.record.value.reason.None?)
            && exists p, q: nat, proof: Judgement ::
                 JudgedAfterDeath(Trace(note, steps), p, q, k, proof) && Rests(note, d.record.value, Some(proof))
  {
    hide At, Trace, JudgedAfterDeath, Concerns;
    Moment(note, steps, k);
    DeathAndProof(note, steps, k);
    var o := At(note, steps, k);
    assert Rests(note, o.disk.record.value, o.proof) && o.proof == Some(o.proof.value);
  }

  /** The original message leaves only on evidence about this task and the failure in its record, judged after the old
      host was seen dead, that shows no work of the model at any moment up to then. */
  lemma OriginalMeansUntouched(note: Note, steps: seq<Step>, k: nat)
    requires k < |Trace(note, steps)| && Trace(note, steps)[k].Send? && Trace(note, steps)[k].original
    ensures var d := At(note, steps, k).disk;
            d.record.Some? && d.record.value.failure.Some?
            && var f := d.record.value.failure.value;
               exists p, q: nat, proof: Judgement ::
                 JudgedAfterDeath(Trace(note, steps), p, q, k, proof) && Untouched(proof.evidence)
                 && Concerns(proof.evidence, note.needles, E.Failure(f.atMs, f.sessionId))
  {
    hide At, Trace, Untouched, Reason, Concerns, JudgedAfterDeath;
    SendIsCovered(note, steps, k);
    var r := At(note, steps, k).disk.record.value;
    var p, q: nat, proof: Judgement :|
      JudgedAfterDeath(Trace(note, steps), p, q, k, proof) && Rests(note, r, Some(proof));
    JudgedIsSincere(note, steps, p, q, k, proof);
    AuthorisedIsUntouched(proof.evidence);
  }

  lemma JudgedIsSincere(note: Note, steps: seq<Step>, p: nat, q: nat, k: nat, proof: Judgement)
    requires k <= |Trace(note, steps)| && JudgedAfterDeath(Trace(note, steps), p, q, k, proof)
    ensures proof.reason == Reason(proof.evidence)
  {
    hide At, Trace, Reason, Sound;
    Moment(note, steps, q);
  }

  /** A transferred task was sent once, as the original message, and the send was accepted. */
  lemma TransferredWasDelivered(note: Note, steps: seq<Step>, k: nat)
    requires k <= |Trace(note, steps)|
    requires At(note, steps, k).disk.record.Some? && At(note, steps, k).disk.record.value.state == Transferred
    ensures exists j :: 0 <= j < k && Trace(note, steps)[j].Send? && Trace(note, steps)[j].original
                        && Trace(note, steps)[j].outcome == Accepted
  {
    hide At, Trace;
    Moment(note, steps, k);
    DeliveredBySend(note, steps, k);
  }

  lemma {:induction false} DeliveredBySend(note: Note, steps: seq<Step>, k: nat)
    requires k <= |Trace(note, steps)| && At(note, steps, k).delivered
    ensures exists j :: 0 <= j < k && Trace(note, steps)[j].Send? && Trace(note, steps)[j].original
                        && Trace(note, steps)[j].outcome == Accepted
  {
    hide At, Trace;
    if k == 0 {
      Nothing(note, steps);
    } else {
      Moment(note, steps, k - 1);
      if At(note, steps, k - 1).delivered {
        DeliveredBySend(note, steps, k - 1);
      }
    }
  }

  /** A record that is not terminal is always in the index a later pass lists. */
  lemma AlwaysIndexed(note: Note, steps: seq<Step>, k: nat)
    requires k <= |Trace(note, steps)| && At(note, steps, k).disk.record.Some?
    requires !Terminal(At(note, steps, k).disk.record.value.state)
    ensures At(note, steps, k).disk.active
  {
    hide At, Trace;
    Moment(note, steps, k);
  }

  /** A pass that finds `Dispatching` sends nothing, and wherever it is cut the record stays or goes to review. */
  lemma DispatchingOnlyToReview(note: Note, o: Observed, a: Answers, n: nat)
    requires o.disk.record.Some? && o.disk.record.value.state == Dispatching && n <= |PassEvents(note, o.disk, a)|
    ensures forall e :: e in PassEvents(note, o.disk, a) ==> !e.Send? && !e.Kill?
    ensures var r := After(note, o, PassEvents(note, o.disk, a)[..n]).disk.record;
            r == o.disk.record || (r.Some? && r.value.state == Review)
    ensures o.disk.active && a.eligible ==>
              var r, was := After(note, o, PassEvents(note, o.disk, a)).disk.record, o.disk.record.value.reason;
              && RaiseNotice in PassEvents(note, o.disk, a)
              && r.Some? && r.value.state == Review && r.value.error == Some(Restarted)
              && r.value.reason == if was.Some? then was else Some(DispatchUncertain)
  {
    DispatchingEvents(note, o.disk, a);
    if o.disk.active && a.eligible {
      DispatchingEnds(note, o, a);
    }
    hide PassEvents, After;
    OnlyReviews(note, o, PassEvents(note, o.disk, a)[..n]);
  }

  lemma DispatchingEnds(note: Note, o: Observed, a: Answers)
    requires o.disk.record.Some? && o.disk.record.value.state == Dispatching && o.disk.active && a.eligible
    ensures var r, was := After(note, o, PassEvents(note, o.disk, a)).disk.record, o.disk.record.value.reason;
            && RaiseNotice in PassEvents(note, o.disk, a)
            && r.Some? && r.value.state == Review && r.value.error == Some(Restarted)
            && r.value.reason == if was.Some? then was else Some(DispatchUncertain)
  {
    hide Save;
    var was := o.disk.record.value;
    var settled := was.(state := Review, reason := if was.reason.None? then Some(DispatchUncertain) else was.reason,
                        error := Some(Restarted));
    assert PassEvents(note, o.disk, a) == [Reload] + (Save(settled) + [RaiseNotice]);
    SaveWritten(settled);
    WrittenConcat([Reload], Save(settled) + [RaiseNotice]);
    WrittenConcat(Save(settled), [RaiseNotice]);
    AfterWritten(note, o, PassEvents(note, o.disk, a));
  }

  lemma DispatchingEvents(note: Note, d: Disk, a: Answers)
    requires d.record.Some? && d.record.value.state == Dispatching
    ensures forall e :: e in PassEvents(note, d, a) ==>
            !e.Send? && !e.Kill? && (e.WriteRecord? ==> e.record.state == Review)
  {
  }

  lemma {:induction false} OnlyReviews(note: Note, o: Observed, events: seq<Event>)
    requires forall e :: e in events && e.WriteRecord? ==> e.record.state == Review
    ensures var r := After(note, o, events).disk.record;
            r == o.disk.record || (r.Some? && r.value.state == Review)
    decreases |events|
  {
    if events != [] {
      OnlyReviews(note, Observe(note, o, events[0]), events[1..]);
    }
  }

  // ---------------------------------------------------------------- when custody is taken

  /** A failure no older than the task, that names a session and its file. */
  predicate Names(note: Note, f: Option<ProviderFailure>) {
    f.Some? && note.ts <= f.value.atMs && E.Truthy(f.value.sessionId) && E.Truthy(f.value.file)
  }

  /** The failure is this task's, and there is a runtime to move it to that nobody has stopped. */
  predicate Movable(note: Note, a: Answers) {
    a.eligible && Names(note, a.failure) && a.belongs && E.Truthy(a.candidate) && !a.stopped
  }

  /** The host that runs, if one does, is the one the task was delivered to. */
  predicate SameHost(note: Note, a: Answers) {
    E.Truthy(note.sessionToken) && (a.alive ==> a.token == note.sessionToken)
  }

  /** The receiver is done, and no failure that names a session and belongs to the task says otherwise. */
  predicate Done(note: Note, a: Answers) {
    a.eligible && a.completed
    && if a.failure.None? || a.failure.value.atMs < note.ts then a.processed else Names(note, a.failure) && !a.belongs
  }

  ghost predicate Writes(events: seq<Event>, s: State) {
    exists e :: e in events && e.WriteRecord? && e.record.state == s
  }

  /** A pass over a watched task takes custody exactly when the failure is the task's, a runtime is free and the host
      is still the same; it finishes the task exactly when the receiver is done; it asks for review exactly when the
      host was replaced; and otherwise it does nothing. */
  lemma WatchingPass(note: Note, d: Disk, a: Answers)
    requires d.active && d.record == Some(FRESH)
    ensures Writes(PassEvents(note, d, a), Claimed) <==> Movable(note, a) && SameHost(note, a)
    ensures Writes(PassEvents(note, d, a), Finished) <==> Done(note, a)
    ensures WriteRecord(REPLACED) in PassEvents(note, d, a) <==> Movable(note, a) && !SameHost(note, a)
    ensures PassEvents(note, d, a) == [Reload] <==> !Movable(note, a) && !Done(note, a)
    ensures forall e :: e in PassEvents(note, d, a) && e.WriteRecord? && e.record.state == Claimed ==>
              e.record.failure == a.failure && e.record.target == a.candidate
  {
    WatchIs(note, a);
    hide Transfer, Watch, Movable, SameHost, Done, Save;
    match Watch(note, FRESH, a)
    case Claim(claimed) =>
      TransferWrites(note, claimed, a);
      SaveWrites(claimed);
    case Settle(settled) =>
      SaveWrites(settled);
    case Wait =>
  }

  const REPLACED := FRESH.(state := Review, reason := Some(HostingReplaced), error := Some(Replaced))

  lemma WatchIs(note: Note, a: Answers)
    ensures var w := Watch(note, FRESH, a);
            && (a.eligible && w.Claim? <==> Movable(note, a) && SameHost(note, a))
            && (a.eligible && w.Settle? && w.record.state == Finished <==> Done(note, a))
            && (a.eligible && w.Settle? && w.record.state != Finished <==> Movable(note, a) && !SameHost(note, a))
            && (w.Claim? ==> w.record == FRESH.(state := Claimed, target := a.candidate, failure := a.failure))
            && (w.Settle? ==> w.record == REPLACED || w.record == FRESH.(state := Finished))
  {
  }

  lemma SaveWrites(r: Record)
    ensures WriteRecord(r) in Save(r) && forall e :: e in Save(r) ==> !e.WriteRecord? || e == WriteRecord(r)
    ensures forall e :: e in Save(r) ==> !e.Kill? && !e.Quarantine? && !e.Send? && !e.SawDead? && !e.Reload?
  {
    var first := Opt(!Terminal(r.state), MarkActive) + Opt(r.state == Claimed || r.state == Dispatching, WriteClaim);
    assert (first + [WriteRecord(r)])[|first|] == WriteRecord(r);
  }

  /** Moving a claimed task never finishes it, and while it stays claimed its failure and target stay. */
  lemma TransferWrites(note: Note, r: Record, a: Answers)
    requires r.state == Claimed && r.error.None?
    ensures forall e :: e in Transfer(note, r, a) && e.WriteRecord? ==> Moving(r, e.record)
  {
    hide Save, Reason, Dispatched;
    if r.failure.Some? {
      DispatchedWrites(note, r, a);
      SaveWrites(r.(state := Review, reason := Some(HostingChangedDuringClaim), error := Some(ChangedDuringClaim)));
      SaveWrites(r.(error := Some(NotTerminated)));
    }
  }

  predicate Moving(r: Record, next: Record) {
    && next.state != Finished && next.state != Watching && next.error != Some(Replaced)
    && (next.state == Claimed ==> next.failure == r.failure && next.target == r.target)
  }

  lemma DispatchedWrites(note: Note, r: Record, a: Answers)
    requires r.failure.Some? && r.state == Claimed && r.error.None?
    ensures forall e :: e in Dispatched(note, r, a) && e.WriteRecord? ==> Moving(r, e.record)
  {
    hide Save, Reason, Proof;
    var sending := r.(state := Dispatching, reason := Proof(note, r, a).reason, target := a.laterCandidate);
    SaveWrites(sending);
    SaveWrites(Settled(sending, a.outcome));
    SaveWrites(Settled(sending, a.outcome).(error := Some(SaveThrew)));
  }

  /** The record whose custody the pass holds: one found claimed, or the one it claims. */
  function Held(note: Note, d: Disk, a: Answers): Option<Record> {
    if !d.active || d.record.None? || !a.eligible then None
    else if d.record.value.state == Claimed then d.record
    else if d.record.value == FRESH && Movable(note, a) && SameHost(note, a) then
      Some(FRESH.(state := Claimed, target := a.candidate, failure := a.failure))
    else None
  }

  /** The old host is not running, or was the one claimed and has stopped. */
  predicate HostGone(note: Note, a: Answers) {
    a.stillAlive ==> a.claimToken == note.sessionToken && a.died
  }

  predicate Dispatches(note: Note, a: Answers) {
    HostGone(note, a) && !a.stoppedLater && E.Truthy(a.laterCandidate)
  }

  /** The transcript of the failure recorded shows a task nobody started on. */
  ghost predicate Acquitted(note: Note, r: Record, a: Answers) {
    r.failure.Some? && Acquits(EvidenceOf(note, r.failure.value, a.file))
  }

  predicate Moves(e: Event) {
    e.Kill? || e.Quarantine? || e.Send? || e.SawDead?
  }

  /** What custody calls for: the failed session is quarantined; the host the task was delivered to is killed if it
      still runs; and once it is gone and a runtime is free there is a send, of the original exactly when the evidence
      acquits it and otherwise of a request for review. */
  ghost predicate CalledFor(note: Note, r: Record, a: Answers, e: Event) {
    r.failure.Some? && E.Truthy(r.failure.value.sessionId)
    && match e
       case Quarantine(session) => r.failure.value.sessionId == Some(session)
       case Kill => a.stillAlive && a.claimToken == note.sessionToken
       case SawDead => HostGone(note, a)
       case Send(original, target, outcome) =>
         Dispatches(note, a) && a.laterCandidate == Some(target) && outcome == a.outcome
         && (original <==> Acquitted(note, r, a))
       case _ => false
  }

  /** With custody a pass makes exactly the moves that are called for, and without it none. */
  lemma CustodyPass(note: Note, d: Disk, a: Answers, e: Event)
    requires d.record.Some? ==> d.record.value == FRESH || d.record.value.state != Watching
    requires Moves(e)
    ensures var held := Held(note, d, a);
            e in PassEvents(note, d, a) <==> held.Some? && CalledFor(note, held.value, a, e)
  {
    PassMoves(note, d, a, e);
    if Held(note, d, a).Some? {
      TransferMoves(note, Held(note, d, a).value, a, e);
    }
    hide PassEvents, Transfer, CalledFor;
  }

  lemma PassMoves(note: Note, d: Disk, a: Answers, e: Event)
    requires d.record.Some? ==> d.record.value == FRESH || d.record.value.state != Watching
    requires Moves(e)
    ensures var held := Held(note, d, a);
            e in PassEvents(note, d, a) <==> held.Some? && e in Transfer(note, held.value, a)
  {
    WatchIs(note, a);
    hide Transfer, Watch, Movable, SameHost, Save;
    if d.record.Some? && d.record.value.state == Dispatching {
      var r := d.record.value;
      SaveWrites(r.(state := Review, reason := if r.reason.None? then Some(DispatchUncertain) else r.reason,
                    error := Some(Restarted)));
    } else if d.record.Some? && d.record.value.state == Watching {
      match Watch(note, FRESH, a)
      case Claim(claimed) => SaveWrites(claimed);
      case Settle(settled) => SaveWrites(settled);
      case Wait =>
    }
  }

  lemma TransferMoves(note: Note, r: Record, a: Answers, e: Event)
    requires r.state == Claimed && Moves(e)
    ensures e in Transfer(note, r, a) <==> CalledFor(note, r, a, e)
  {
    if r.failure.Some? && E.Truthy(r.failure.value.sessionId) {
      StoppingMoves(note, r, a, e);
      TransferEvents(note, r, a);
      hide Transfer, Stopping, Dispatches, HostGone, Acquitted;
    }
  }

  lemma StoppingMoves(note: Note, r: Record, a: Answers, e: Event)
    requires r.failure.Some? && E.Truthy(r.failure.value.sessionId) && Moves(e)
    ensures e in Stopping(note, r, a) <==> !e.Quarantine? && CalledFor(note, r, a, e)
  {
    DispatchedMoves(note, r, a, e);
    if HostGone(note, a) {
      GoneMoves(note, r, a, e);
    } else {
      StuckMoves(note, r, a, e);
    }
    hide Stopping, Dispatched, Acquitted, Moves;
  }

  lemma GoneMoves(note: Note, r: Record, a: Answers, e: Event)
    requires r.failure.Some? && HostGone(note, a) && Moves(e)
    ensures e in Stopping(note, r, a) <==>
              (e == Kill && a.stillAlive) || e == SawDead || e in Dispatched(note, r, a)
  {
    StoppingEvents(note, r, a);
    hide Stopping, Dispatched, Proof;
    var killed := if a.stillAlive then [Kill] else [];
    AmongFour(e, killed, [SawDead], [Proved(Proof(note, r, a))], Dispatched(note, r, a));
  }

  lemma StuckMoves(note: Note, r: Record, a: Answers, e: Event)
    requires r.failure.Some? && !HostGone(note, a) && Moves(e)
    ensures e in Stopping(note, r, a) <==> e == Kill && a.claimToken == note.sessionToken
  {
    SaveWrites(r.(state := Review, reason := Some(HostingChangedDuringClaim), error := Some(ChangedDuringClaim)));
    SaveWrites(r.(error := Some(NotTerminated)));
    hide Save, Proof, Dispatched;
    AmongFour(e, [Kill], Save(r.(error := Some(NotTerminated))), [], []);
  }

  lemma AmongFour<T>(e: T, a: seq<T>, b: seq<T>, c: seq<T>, d: seq<T>)
    ensures e in a + (b + (c + d)) <==> e in a || e in b || e in c || e in d
  {
  }

  lemma DispatchedMoves(note: Note, r: Record, a: Answers, e: Event)
    requires r.failure.Some? && Moves(e)
    ensures e in Dispatched(note, r, a) <==>
              !a.stoppedLater && E.Truthy(a.laterCandidate)
              && e == Send(Acquitted(note, r, a), a.laterCandidate.value, a.outcome)
  {
    AuthorisedIff(EvidenceOf(note, r.failure.value, a.file));
    hide Save, Reason, Acquits, EvidenceOf;
    var sending := r.(state := Dispatching, reason := Proof(note, r, a).reason, target := a.laterCandidate);
    var settled := Settled(sending, a.outcome);
    SaveWrites(sending);
    SaveWrites(settled);
    SaveWrites(settled.(error := Some(SaveThrew)));
  }

  /** The `m`-th event of the run, in its `i`-th step, takes a watched task to its next state, as the answers of that
      pass allow: into custody, to its end, or to review. */
  ghost predicate LeavesAt(note: Note, steps: seq<Step>, i: nat, m: nat) {
    && i < |steps| && steps[i].Pass? && Within(note, steps, i, m) && Trace(note, steps)[m].WriteRecord?
    && Leaves(note, steps[i].answers, Trace(note, steps)[m].record)
  }

  predicate Leaves(note: Note, a: Answers, r: Record) {
    match r.state
    case Claimed => Movable(note, a) && SameHost(note, a) && r.failure == a.failure && r.target == a.candidate
    case Finished => Done(note, a)
    case Review => Movable(note, a) && !SameHost(note, a) && r.reason == Some(HostingReplaced)
    case _ => false
  }

  ghost predicate Within(note: Note, steps: seq<Step>, i: nat, m: nat)
    requires i < |steps|
  {
    |Trace(note, steps[..i])| <= m < |Trace(note, steps[..i + 1])| <= |Trace(note, steps)|
  }

  lemma {:induction false} WatchedIsLeft(note: Note, steps: seq<Step>, m: nat)
    requires m < |Trace(note, steps)| && Trace(note, steps)[m].WriteRecord?
    requires IsWatched(At(note, steps, m))
    ensures exists i :: LeavesAt(note, steps, i, m)
    decreases |steps|
  {
    hide StepEvents, After, Leaves, Sound;
    var init, last := steps[..|steps| - 1], steps[|steps| - 1];
    var before, t := Trace(note, init), Trace(note, steps);
    var d := After(note, START, before).disk;
    assert t == before + StepEvents(note, d, last);
    if m < |before| {
      assert t[..m] == before[..m];
      WatchedIsLeft(note, init, m);
      var i :| LeavesAt(note, init, i, m);
      LeavesLater(note, init, last, i, m);
      assert init + [last] == steps;
    } else {
      assert t[..|before|] == before && steps == init + [last];
      LeftInLast(note, init, last, m);
    }
  }

  lemma LeftInLast(note: Note, init: seq<Step>, last: Step, m: nat)
    requires var t := Trace(note, init + [last]);
             |Trace(note, init)| <= m < |t| && t[m].WriteRecord? && IsWatched(At(note, init + [last], m))
    ensures LeavesAt(note, init + [last], |init|, m)
  {
    hide StepEvents, After, Leaves, Sound;
    var steps, before := init + [last], Trace(note, init);
    var t, d := Trace(note, steps), After(note, START, before).disk;
    assert steps[..|init|] == init && steps[..|init| + 1] == steps;
    assert t == before + StepEvents(note, d, last) && t[..|before|] == before;
    assert At(note, steps, |before|).disk == d;
    hide Trace, At;
    Moment(note, steps, |before|);
    Moment(note, steps, m);
    if d.record.None? {
      NewbornIsFresh(note, d, last, m - |before|);
      FreshIsNoStep(note, At(note, steps, m), t[m]);
    }
    forall x: nat | |before| <= x < m
      ensures !t[x].WriteRecord?
    {
      NeverBackwards(note, steps, |before|, x);
      StillWatched(note, steps, x, m);
    }
    NeverBackwards(note, steps, |before|, m);
    LeftByPass(note, At(note, steps, |before|), last, m - |before|);
  }

  lemma FreshIsNoStep(note: Note, o: Observed, e: Event)
    requires IsWatched(o) && e.WriteRecord? && Permits(note, o, e)
    ensures e.record.state != Watching
  {
  }

  lemma NewbornIsFresh(note: Note, d: Disk, s: Step, j: nat)
    requires d.record.None? && j < |StepEvents(note, d, s)| && StepEvents(note, d, s)[j].WriteRecord?
    ensures StepEvents(note, d, s)[j].record == FRESH
  {
    SaveWrites(FRESH);
    hide Save;
    assert StepEvents(note, d, s)[j] == Uncut(note, d, s)[j];
  }

  lemma WholeTrace(note: Note, steps: seq<Step>)
    ensures steps[..|steps|] == steps
  {
  }

  lemma LeavesLater(note: Note, init: seq<Step>, last: Step, i: nat, m: nat)
    requires LeavesAt(note, init, i, m)
    ensures LeavesAt(note, init + [last], i, m)
  {
    hide Leaves, StepEvents, After;
    var steps := init + [last];
    assert steps[..|init|] == init && steps[..i] == init[..i] && steps[..i + 1] == init[..i + 1];
    assert Trace(note, steps) == Trace(note, init) + StepEvents(note, After(note, START, Trace(note, init)).disk, last);
  }

  /** A record found watched has not been written since it was. */
  lemma StillWatched(note: Note, steps: seq<Step>, x: nat, m: nat)
    requires x < m <= |Trace(note, steps)| && At(note, steps, x).disk.record.Some? && IsWatched(At(note, steps, m))
    ensures !Trace(note, steps)[x].WriteRecord?
  {
    hide At, Trace, Sound;
    Moment(note, steps, x);
    NeverBackwards(note, steps, x, m);
    NeverBackwards(note, steps, x + 1, m);
  }

  predicate IsWatched(o: Observed) {
    o.disk.record.Some? && o.disk.record.value.state == Watching
  }

  /** The first record a step writes over a watched one. */
  lemma LeftByPass(note: Note, o: Observed, s: Step, j: nat)
    requires Sound(note, o) && IsWatched(o) && j < |StepEvents(note, o.disk, s)|
    requires StepEvents(note, o.disk, s)[j].WriteRecord?
    requires forall x :: 0 <= x < j ==> !StepEvents(note, o.disk, s)[x].WriteRecord?
    ensures s.Pass? && Leaves(note, s.answers, StepEvents(note, o.disk, s)[j].record)
  {
    if s.Pass? {
      WatchIs(note, s.answers);
      hide Transfer, Watch, Movable, SameHost, Done, Save, Sound;
      var a, events := s.answers, StepEvents(note, o.disk, s);
      assert events[j] == PassEvents(note, o.disk, a)[j];
      match Watch(note, FRESH, a)
      case Claim(claimed) => FirstSaved(claimed, Transfer(note, claimed, a), events, j);
      case Settle(settled) => FirstSaved(settled, [], events, j);
      case Wait =>
    }
  }

  lemma FirstSaved(r: Record, rest: seq<Event>, events: seq<Event>, j: nat)
    requires events <= [Reload] + (Save(r) + rest) && j < |events| && events[j].WriteRecord?
    requires forall x :: 0 <= x < j ==> !events[x].WriteRecord?
    ensures events[j] == WriteRecord(r)
  {
    SaveWrites(r);
    hide Save;
    if j < 1 + |Save(r)| {
      assert events[j] == Save(r)[j - 1];
    } else {
      var k: nat :| k < |Save(r)| && Save(r)[k] == WriteRecord(r);
      SavedAt(Save(r), rest, events, k);
    }
  }

  lemma SavedAt(save: seq<Event>, rest: seq<Event>, events: seq<Event>, k: nat)
    requires events <= [Reload] + (save + rest) && k < |save| && k + 1 < |events|
    ensures events[k + 1] == save[k]
  {
  }

  /** What became of a task, and on which answers: a finished one was done; one in custody or transferred was taken into
      custody when its failure called for it; one for review was taken so, or had lost its host before. */
  lemma {:induction false} WatchedWasLeft(note: Note, steps: seq<Step>, k: nat)
    requires k <= |Trace(note, steps)| && At(note, steps, k).disk.record.Some?
    requires At(note, steps, k).disk.record.value.state != Watching
    ensures exists i, m: nat :: m < k && LeavesAt(note, steps, i, m)
              && var now, before := At(note, steps, k).disk.record.value.state, Trace(note, steps)[m].record.state;
                 if now == Finished || now == Review then before == now || (now == Review && before == Claimed)
                 else before == Claimed
  {
    hide At, Trace, LeavesAt, Sound, Permits, Observe;
    if k == 0 {
      Nothing(note, steps);
    } else {
      Moment(note, steps, k - 1);
      var o := At(note, steps, k - 1);
      StateStep(note, o, Trace(note, steps)[k - 1]);
      if IsWatched(o) {
        WatchedIsLeft(note, steps, k - 1);
        var i :| LeavesAt(note, steps, i, k - 1);
      } else if o.disk.record.Some? {
        WatchedWasLeft(note, steps, k - 1);
      }
    }
  }

  lemma StateStep(note: Note, o: Observed, e: Event)
    requires Permits(note, o, e)
    ensures Observe(note, o, e).disk.record == if e.WriteRecord? then Some(e.record) else o.disk.record
    ensures e.WriteRecord? && o.disk.record.Some? ==> Successor(o.disk.record.value.state, e.record.state)
    ensures e.WriteRecord? && o.disk.record.None? ==> e.record == FRESH
  {
    RecordStep(note, o, e);
  }

  /** Whatever a run quarantines, kills or sends follows a pass that took the task into custody, on answers that called
      for it: its own failure, a free runtime, nobody's stop, and the host it was delivered to. */
  lemma CustodyWasTaken(note: Note, steps: seq<Step>, k: nat)
    requires k < |Trace(note, steps)|
    requires var e := Trace(note, steps)[k]; e.Quarantine? || e.Kill? || e.Send?
    ensures exists i, m: nat :: m < k && LeavesAt(note, steps, i, m) && Trace(note, steps)[m].record.state == Claimed
  {
    hide At, Trace, LeavesAt, Sound;
    Moment(note, steps, k);
    WatchedWasLeft(note, steps, k);
  }

  // ---------------------------------------------------------------- where an uncut pass ends

  /** The last record written. */
  function Written(events: seq<Event>): Option<Record> {
    if events == [] then None
    else if events[|events| - 1].WriteRecord? then Some(events[|events| - 1].record)
    else Written(events[..|events| - 1])
  }

  lemma {:induction false} WrittenConcat(a: seq<Event>, b: seq<Event>)
    ensures Written(a + b) == if Written(b).Some? then Written(b) else Written(a)
  {
    if b == [] {
      assert a + b == a;
    } else {
      assert (a + b)[..|a + b| - 1] == a + b[..|b| - 1];
      WrittenConcat(a, b[..|b| - 1]);
    }
  }

  lemma {:induction false} AfterWritten(note: Note, o: Observed, events: seq<Event>)
    ensures After(note, o, events).disk.record
         == if Written(events).Some? then Written(events) else o.disk.record
  {
    if events != [] {
      var init, last := events[..|events| - 1], events[|events| - 1];
      assert events == init + [last];
      RecordStep(note, After(note, o, init), last);
      hide Observe, Permits, Lawful, After;
      AfterWritten(note, o, init);
      AfterConcat(note, o, init, [last]);
      One(note, After(note, o, init), last);
    }
  }

  lemma RecordStep(note: Note, o: Observed, e: Event)
    ensures Observe(note, o, e).disk.record == if e.WriteRecord? then Some(e.record) else o.disk.record
  {
    match e
    case WriteRecord(_) =>
    case _ =>
  }

  lemma SaveWritten(r: Record)
    ensures Written(Save(r)) == Some(r)
  {
    var last := Opt(Terminal(r.state), DropActive) + Opt(Terminal(r.state), DropClaim);
    var first := Opt(!Terminal(r.state), MarkActive) + Opt(r.state == Claimed || r.state == Dispatching, WriteClaim);
    assert Save(r) == (first + [WriteRecord(r)]) + last;
    WrittenConcat(first + [WriteRecord(r)], last);
    WrittenConcat(first, [WriteRecord(r)]);
  }

  /** Where the send of a claimed task leaves its record. */
  ghost predicate Answered(note: Note, r: Record, a: Answers, end: Record) {
    && (end.state == Transferred <==> Acquitted(note, r, a) && a.outcome == Accepted)
    && (end.state == Dispatching <==> a.outcome == Threw)
    && (end.state != Transferred && end.state != Dispatching ==> end.state == Review)
    && (a.outcome == Refused && Acquitted(note, r, a) ==> end.reason == Some(DispatchFailed))
    && (!(a.outcome == Refused && Acquitted(note, r, a)) ==>
          r.failure.Some? && end.reason == Reason(EvidenceOf(note, r.failure.value, a.file)))
    && end.target == a.laterCandidate && end.failure == r.failure
    && end.error == if a.outcome == Threw then Some(SendThrew)
                    else if a.torn.Some? && a.torn.value <= 3 then Some(SaveThrew)
                    else if a.outcome == Refused then Some(SendRefused) else r.error
  }

  /** An uncut pass with custody leaves the task claimed while the old host has not gone or no runtime is free; sends it
      to review when another host runs; and otherwise leaves what the answer to its send says: transferred exactly
      when the original was accepted, dispatching exactly when the send threw, and for review in every other case. */
  lemma CustodyEnds(note: Note, o: Observed, a: Answers)
    requires o.disk.record.Some? ==> o.disk.record.value == FRESH || o.disk.record.value.state != Watching
    requires var h := Held(note, o.disk, a);
             h.Some? && h.value.failure.Some? && E.Truthy(h.value.failure.value.sessionId)
    ensures var h, end := Held(note, o.disk, a).value, After(note, o, PassEvents(note, o.disk, a)).disk.record;
            && end.Some?
            && (a.stillAlive && a.claimToken != note.sessionToken ==>
                  end.value.state == Review && end.value.reason == Some(HostingChangedDuringClaim))
            && ((a.stillAlive ==> a.claimToken == note.sessionToken) && !Dispatches(note, a) ==>
                  end == Some(if HostGone(note, a) then h else h.(error := Some(NotTerminated))))
            && (Dispatches(note, a) ==> Answered(note, h, a, end.value))
  {
    var r, d := Held(note, o.disk, a).value, o.disk;
    WatchIs(note, a);
    TransferEnds(note, r, a);
    hide Transfer, Reconcile, Watch, Movable, SameHost, Save, Answered, Dispatches, HostGone;
    hide Written, After;
    var start := if d.record.value.state == Claimed then [] else Save(r);
    assert PassEvents(note, d, a) == ([Reload] + start) + Transfer(note, r, a);
    hide PassEvents;
    SaveWritten(r);
    NothingWritten([Reload]);
    NothingWritten([]);
    WrittenConcat([Reload] + start, Transfer(note, r, a));
    WrittenConcat([Reload], start);
    AfterWritten(note, o, PassEvents(note, d, a));
  }

  lemma TransferEnds(note: Note, r: Record, a: Answers)
    requires r.state == Claimed && r.failure.Some? && E.Truthy(r.failure.value.sessionId)
    ensures var end := Written(Transfer(note, r, a));
            && (a.stillAlive && a.claimToken != note.sessionToken ==>
                  end.Some? && end.value.state == Review && end.value.reason == Some(HostingChangedDuringClaim))
            && ((a.stillAlive ==> a.claimToken == note.sessionToken) && !Dispatches(note, a) ==>
                  end == if HostGone(note, a) then None else Some(r.(error := Some(NotTerminated))))
            && (Dispatches(note, a) ==> end.Some? && Answered(note, r, a, end.value))
  {
    StoppingEnds(note, r, a);
    NothingWritten(QuietPart(r));
    TransferEvents(note, r, a);
    hide Answered, Stopping, Transfer, Written, QuietPart;
    WrittenConcat(QuietPart(r), Stopping(note, r, a));
  }

  lemma StoppingEnds(note: Note, r: Record, a: Answers)
    requires r.state == Claimed && r.failure.Some?
    ensures var end := Written(Stopping(note, r, a));
            && (a.stillAlive && a.claimToken != note.sessionToken ==>
                  end.Some? && end.value.state == Review && end.value.reason == Some(HostingChangedDuringClaim))
            && ((a.stillAlive ==> a.claimToken == note.sessionToken) && !Dispatches(note, a) ==>
                  end == if HostGone(note, a) then None else Some(r.(error := Some(NotTerminated))))
            && (Dispatches(note, a) ==> end.Some? && Answered(note, r, a, end.value))
  {
    DispatchedEnds(note, r, a);
    hide Answered, Dispatched, Save, Proof, Written;
    SaveWritten(r.(state := Review, reason := Some(HostingChangedDuringClaim), error := Some(ChangedDuringClaim)));
    var waiting := r.(error := Some(NotTerminated));
    SaveWritten(waiting);
    NothingWritten([Kill]);
    WrittenConcat([Kill], Save(waiting));
    if HostGone(note, a) {
      StoppingEvents(note, r, a);
      hide Stopping;
      var killed, judged := if a.stillAlive then [Kill] else [], [Proved(Proof(note, r, a))];
      NothingWritten(killed);
      NothingWritten([SawDead]);
      NothingWritten(judged);
      WrittenConcat(judged, Dispatched(note, r, a));
      WrittenConcat([SawDead], judged + Dispatched(note, r, a));
      WrittenConcat(killed, [SawDead] + (judged + Dispatched(note, r, a)));
    }
  }

  lemma {:induction false} NothingWritten(events: seq<Event>)
    requires forall e :: e in events ==> !e.WriteRecord?
    ensures Written(events).None?
  {
    if events != [] {
      NothingWritten(events[..|events| - 1]);
    }
  }

  lemma TerminalSaveIsThree(r: Record)
    requires Terminal(r.state)
    ensures |Save(r)| == 3
  {
  }

  lemma DispatchedEnds(note: Note, r: Record, a: Answers)
    requires r.state == Claimed && r.failure.Some?
    ensures var end := Written(Dispatched(note, r, a));
            if a.stoppedLater || !E.Truthy(a.laterCandidate) then end.None?
            else end.Some? && Answered(note, r, a, end.value)
  {
    if !a.stoppedLater && E.Truthy(a.laterCandidate) {
      AuthorisedIff(EvidenceOf(note, r.failure.value, a.file));
      hide Save, Reason, Acquits, EvidenceOf, Written;
      var reason := Proof(note, r, a).reason;
      var sending := r.(state := Dispatching, reason := reason, target := a.laterCandidate);
      var settled := Settled(sending, a.outcome);
      var thrown := settled.(error := Some(SaveThrew));
      assert Answered(note, r, a, if a.outcome != Threw && a.torn.Some? && a.torn.value <= 3 then thrown else settled);
      if a.outcome != Threw {
        TerminalSaveIsThree(settled);
      }
      hide Answered;
      SaveWritten(settled);
      SaveWritten(settled.(error := Some(SaveThrew)));
      if a.torn.Some? && a.torn.value <= |Save(settled)| {
        WrittenConcat(Save(settled)[..a.torn.value], Save(settled.(error := Some(SaveThrew))));
      }
      var send := [Send(reason.None?, a.laterCandidate.value, a.outcome)];
      WrittenConcat(Save(sending), send + Settling(sending, a));
      WrittenConcat(send, Settling(sending, a));
    }
  }

  // ---------------------------------------------------------------- the claim

  /** The last claim written for the identity is this task's. */
  predicate LastClaimIsOurs(t: seq<Event>) {
    t != [] && (t[|t| - 1] == WriteClaim || (!t[|t| - 1].RivalClaims? && LastClaimIsOurs(t[..|t| - 1])))
  }

  predicate Terminated(o: Observed) {
    o.disk.record.Some? && Terminal(o.disk.record.value.state)
  }

  /** While custody moves, the claim that keeps new work off the failed host is held exactly as long as no other
      task of the identity has written its own since. */
  lemma {:induction false} ClaimHeldIffNoRival(note: Note, steps: seq<Step>, k: nat)
    requires k <= |Trace(note, steps)| && !Terminated(At(note, steps, k))
    ensures At(note, steps, k).disk.claim == Some(note.id) <==> LastClaimIsOurs(Trace(note, steps)[..k])
  {
    hide At, Trace;
    if k == 0 {
      Nothing(note, steps);
    } else {
      var t := Trace(note, steps);
      assert t[..k][..k - 1] == t[..k - 1];
      Moment(note, steps, k - 1);
      NeverBackwards(note, steps, k - 1, k);
      ClaimHeldIffNoRival(note, steps, k - 1);
    }
  }

  /** A task that found its host still alive and keeps waiting. */
  predicate WaitsForExit(note: Note, a: Answers) {
    a.eligible && Watch(note, FRESH, a).Claim? && a.stillAlive && a.claimToken == note.sessionToken && !a.died
  }

  /** The guard fails when two tasks of one identity are in transfer: the second overwrites the first one's claim,
      settles, and releases it, while the first is still `Claimed`. */
  lemma ClaimCanBeLost(note: Note, a: Answers, rival: string)
    requires WaitsForExit(note, a) && rival != note.id
    ensures var steps := [Create(100)] + [Pass(a, 100)] + [Rival(Some(rival))] + [Rival(None)];
            var d := After(note, START, Trace(note, steps)).disk;
            d.record.Some? && d.record.value.state == Claimed && d.claim == None
  {
    hide Trace, After, Observe, Permits, StepEvents;
    var s2 := [Create(100)] + [Pass(a, 100)];
    ClaimedRun(note, a);
    Extend(note, s2, Rival(Some(rival)));
    Extend(note, s2 + [Rival(Some(rival))], Rival(None));
    RivalComesAndGoes(note, After(note, START, Trace(note, s2)), rival);
  }

  lemma RivalComesAndGoes(note: Note, o: Observed, rival: string)
    requires rival != note.id
    ensures var o1 := After(note, o, StepEvents(note, o.disk, Rival(Some(rival))));
            After(note, o1, StepEvents(note, o1.disk, Rival(None))).disk == o.disk.(claim := None)
  {
    One(note, o, RivalClaims(rival));
    One(note, Observe(note, o, RivalClaims(rival)), RivalReleases);
  }

  lemma ClaimedRun(note: Note, a: Answers)
    requires WaitsForExit(note, a)
    ensures var d := After(note, START, Trace(note, [Create(100)] + [Pass(a, 100)])).disk;
            d.record.Some? && d.record.value.state == Claimed
  {
    hide Watch, WaitsForExit, PassEvents;
    Extend(note, [], Create(100));
    assert [] + [Create(100)] == [Create(100)];
    SaveIsLawful(note, START, FRESH);
    var o := Saved(note, START, FRESH);
    assert After(note, START, Trace(note, [Create(100)])) == o;
    Extend(note, [Create(100)], Pass(a, 100));
    WaitingPass(note, o, a);
  }

  lemma Extend(note: Note, steps: seq<Step>, s: Step)
    ensures After(note, START, Trace(note, steps + [s])) ==
            var o := After(note, START, Trace(note, steps)); After(note, o, StepEvents(note, o.disk, s))
  {
    assert (steps + [s])[..|steps|] == steps;
    var o := After(note, START, Trace(note, steps));
    AfterConcat(note, START, Trace(note, steps), StepEvents(note, o.disk, s));
  }

  lemma WaitingPass(note: Note, o: Observed, a: Answers)
    requires WaitsForExit(note, a) && o.disk.record == Some(FRESH) && o.disk.active && Sound(note, o)
    ensures |PassEvents(note, o.disk, a)| < 100
    ensures var d := After(note, o, PassEvents(note, o.disk, a)).disk; d.record.Some? && d.record.value.state == Claimed
  {
    var claimed := Watch(note, FRESH, a).record;
    assert PassEvents(note, o.disk, a) == [Reload] + (Save(claimed) + Transfer(note, claimed, a));
    WaitingPassEnds(note, o, claimed, a);
  }

  lemma WaitingPassEnds(note: Note, o: Observed, claimed: Record, a: Answers)
    requires o.disk.record == Some(FRESH) && o.disk.active && Sound(note, o)
    requires Watch(note, FRESH, a) == Watched.Claim(claimed) && a.eligible
    requires a.stillAlive && a.claimToken == note.sessionToken && !a.died
    ensures var d := After(note, o, [Reload] + (Save(claimed) + Transfer(note, claimed, a))).disk;
            d.record.Some? && d.record.value.state == Claimed
  {
    hide Lawful, After, Save, Transfer;
    var o1 := Observe(note, o, Reload);
    First(note, o, Reload, Save(claimed) + Transfer(note, claimed, a));
    SaveIsLawful(note, o1, claimed);
    AfterConcat(note, o1, Save(claimed), Transfer(note, claimed, a));
    WaitingForExit(note, Saved(note, o1, claimed), claimed, a);
  }

  lemma WaitingForExit(note: Note, o: Observed, r: Record, a: Answers)
    requires o.disk.record == Some(r) && r.state == Claimed && r.failure.Some? && E.Truthy(r.failure.value.sessionId)
    requires a.stillAlive && a.claimToken == note.sessionToken && !a.died
    ensures var d := After(note, o, Transfer(note, r, a)).disk; d.record.Some? && d.record.value.state == Claimed
  {
    hide Lawful, After, Save, Transfer;
    var waiting := r.(error := Some(NotTerminated));
    var next := Observe(note, o, Quarantine(r.failure.value.sessionId.value));
    assert Stopping(note, r, a) == [Kill] + Save(waiting);
    WaitingTransfer(note, o, next, r, a);
    First(note, next, Kill, Save(waiting));
    SaveIsLawful(note, Observe(note, next, Kill), waiting);
  }

  lemma WaitingTransfer(note: Note, o: Observed, next: Observed, r: Record, a: Answers)
    requires r.failure.Some? && E.Truthy(r.failure.value.sessionId)
    requires next == Observe(note, o, Quarantine(r.failure.value.sessionId.value))
    ensures After(note, o, Transfer(note, r, a)) == After(note, next, Stopping(note, r, a))
  {
    hide Observe, After, Stopping;
    var rest := [MarkFresh] + ([ClearPark] + ([SettleInflight] + Stopping(note, r, a)));
    First(note, o, Quarantine(r.failure.value.sessionId.value), rest);
    QuietIsIdle(note, next, Stopping(note, r, a));
  }

  lemma QuietIsIdle(note: Note, o: Observed, rest: seq<Event>)
    ensures After(note, o, [MarkFresh] + ([ClearPark] + ([SettleInflight] + rest))) == After(note, o, rest)
  {
    hide Lawful, After;
    First(note, o, MarkFresh, [ClearPark] + ([SettleInflight] + rest));
    First(note, o, ClearPark, [SettleInflight] + rest);
    First(note, o, SettleInflight, rest);
  }

  /** The `m`-th event settles the task. */
  ghost predicate SettlesAt(note: Note, steps: seq<Step>, m: nat) {
    m < |Trace(note, steps)| && Trace(note, steps)[m].WriteRecord? && Terminal(Trace(note, steps)[m].record.state)
    && !Terminated(At(note, steps, m))
  }

  /** A settled task still holds the claim exactly when it held it as it settled, the save that settled it has not come
      to dropping it, and no other task of the identity has claimed since; and it is still indexed exactly when that
      save has not come to dropping the marker. */
  lemma {:induction false} SettledHoldsClaimIff(note: Note, steps: seq<Step>, m: nat, k: nat)
    requires SettlesAt(note, steps, m) && m < k <= |Trace(note, steps)|
    ensures var t := Trace(note, steps);
            At(note, steps, k).disk.claim == Some(note.id) <==>
            && At(note, steps, m).disk.claim == Some(note.id)
            && forall x :: m < x < k ==> t[x] != DropClaim && !t[x].RivalClaims?
    ensures At(note, steps, k).disk.active <==> forall x :: m < x < k ==> Trace(note, steps)[x] != DropActive
    ensures Terminated(At(note, steps, k))
    decreases k
  {
    hide At, Trace;
    Moment(note, steps, k - 1);
    if k > m + 1 {
      hide Sound, Successor;
      SettledHoldsClaimIff(note, steps, m, k - 1);
      SettledStep(note, At(note, steps, k - 1), Trace(note, steps)[k - 1]);
    }
  }

  lemma SettledStep(note: Note, o: Observed, e: Event)
    requires Permits(note, o, e) && Terminated(o)
    ensures var next := Observe(note, o, e);
            Terminated(next) && (next.disk.active <==> o.disk.active && e != DropActive)
            && (next.disk.claim == Some(note.id) <==>
                o.disk.claim == Some(note.id) && e != DropClaim && !e.RivalClaims?)
  {
  }

  /** A claim held at the end of the pass that settled the task means that this pass was cut, and from then on the
      task's own passes write nothing: the claim is gone only when another task takes it. */
  lemma HeldMeansCut(note: Note, steps: seq<Step>, s: Step, later: seq<Step>)
    requires !Terminated(After(note, START, Trace(note, steps)))
    requires var o := After(note, START, Trace(note, steps + [s])); Terminated(o) && o.disk.claim == Some(note.id)
    ensures !s.Rival? && s.cut < |Uncut(note, After(note, START, Trace(note, steps)).disk, s)|
    ensures (forall x :: x in later ==> !x.Rival?) ==>
            Settles(note, After(note, START, Trace(note, steps + [s])).disk, later)
  {
    hide Uncut, Trace, Sound;
    var o := After(note, START, Trace(note, steps));
    EveryRunIsLawful(note, steps);
    Extend(note, steps, s);
    UncutIsLawful(note, o, s);
    RivalSettlesNothing(note, o, s);
    var d := After(note, START, Trace(note, steps + [s])).disk;
    forall x | x in later && !x.Rival?
      ensures StepEvents(note, d, x) == [] || StepEvents(note, d, x) == [Reload]
    {
      SettledIdles(note, d, x);
    }
  }

  lemma RivalSettlesNothing(note: Note, o: Observed, s: Step)
    ensures s.Rival? ==> After(note, o, StepEvents(note, o.disk, s)).disk.record == o.disk.record
  {
    One(note, o, RivalReleases);
    if s.Rival? && s.claims.Some? {
      One(note, o, RivalClaims(s.claims.value));
    }
  }

  lemma SettledIdles(note: Note, d: Disk, s: Step)
    requires d.record.Some? && Terminal(d.record.value.state) && !s.Rival?
    ensures StepEvents(note, d, s) == [] || StepEvents(note, d, s) == [Reload]
  {
  }

  /** Passes that are never cut leave no settled task in the index and none holding the claim. */
  ghost predicate Uninterrupted(note: Note, steps: seq<Step>) {
    forall i :: 0 <= i < |steps| ==> Whole(note, steps, i)
  }

  ghost predicate Whole(note: Note, steps: seq<Step>, i: nat)
    requires i < |steps|
  {
    steps[i].Rival? || steps[i].cut >= |Uncut(note, After(note, START, Trace(note, steps[..i])).disk, steps[i])|
  }

  lemma {:induction false} UninterruptedIsClean(note: Note, steps: seq<Step>)
    requires Uninterrupted(note, steps)
    ensures Clean(note, After(note, START, Trace(note, steps)))
  {
    hide After, Uncut, Trace, Clean;
    if steps == [] {
      StartIsClean(note);
    } else {
      var init, last := steps[..|steps| - 1], steps[|steps| - 1];
      forall i | 0 <= i < |init|
        ensures Whole(note, init, i)
      {
        assert init[..i] == steps[..i] && Whole(note, steps, i);
      }
      UninterruptedIsClean(note, init);
      assert steps == init + [last] && Whole(note, steps, |init|);
      Extend(note, init, last);
      EveryRunIsLawful(note, init);
      UncutIsLawful(note, After(note, START, Trace(note, init)), last);
    }
  }

  lemma StartIsClean(note: Note)
    ensures Clean(note, After(note, START, Trace(note, [])))
  {
  }

  /** A crash after the terminal record and before the claim is dropped leaves the claim in place for good: no later
      pass over the settled task writes anything, so only another task of the identity can clear the host. */
  lemma CutSettlementKeepsClaim(note: Note, o: Observed, r: Record, n: nat, steps: seq<Step>)
    requires Terminal(r.state) && 1 <= n <= 2 && o.disk.claim == Some(note.id)
    requires forall s :: s in steps ==> !s.Rival?
    ensures var cut := After(note, o, Save(r)[..n]).disk;
            cut.record == Some(r) && cut.claim == Some(note.id) && Settles(note, cut, steps)
  {
    var w, d := WriteRecord(r), DropActive;
    if n == 1 {
      assert Save(r)[..n] == [w];
      One(note, o, w);
    } else {
      assert Save(r)[..n] == [w] + [d];
      First(note, o, w, [d]);
      One(note, Observe(note, o, w), d);
    }
    var cut := After(note, o, Save(r)[..n]).disk;
    forall s | s in steps
      ensures StepEvents(note, cut, s) == [] || StepEvents(note, cut, s) == [Reload]
    {
    }
  }

  /** Every one of the steps leaves the files as they are. */
  ghost predicate Settles(note: Note, d: Disk, steps: seq<Step>) {
    forall s :: s in steps ==> StepEvents(note, d, s) == [] || StepEvents(note, d, s) == [Reload]
  }

  // ---------------------------------------------------------------- the pass as the daemon runs it

  function QuietPart(r: Record): seq<Event>
    requires r.failure.Some? && r.failure.value.sessionId.Some?
  {
    [Quarantine(r.failure.value.sessionId.value), MarkFresh, ClearPark, SettleInflight]
  }

  lemma TransferEvents(note: Note, r: Record, a: Answers)
    ensures !(r.failure.Some? && E.Truthy(r.failure.value.sessionId)) ==> Transfer(note, r, a) == []
    ensures r.failure.Some? && E.Truthy(r.failure.value.sessionId) ==>
              Transfer(note, r, a) == QuietPart(r) + Stopping(note, r, a)
  {
    hide Stopping;
  }

  lemma StoppingEvents(note: Note, r: Record, a: Answers)
    requires r.failure.Some? && (a.stillAlive ==> a.claimToken == note.sessionToken && a.died)
    ensures Stopping(note, r, a) ==
            (if a.stillAlive then [Kill] else []) + ([SawDead] + ([Proved(Proof(note, r, a))] + Dispatched(note, r, a)))
  {
    hide Dispatched;
  }

  lemma HandlingNothing(note: Note, d: Disk, a: Answers)
    requires !d.active || d.record.None?
    ensures Handling(note, d, a) == []
  {
  }

  lemma Flatten<T>(s: seq<T>, a: seq<T>, b: seq<T>, c: seq<T>, d: seq<T>)
    ensures s + a + b + c + d == s + (a + (b + (c + d)))
  {
  }

  /** The files of one task, and the daemon that works on them. */
  class Custody {
    const note: Note
    var record: Option<Record>
    var active: bool
    var claim: Option<string>
    var quarantined: set<string>
    var running: bool
    ghost var trace: seq<Event>

    constructor (note: Note)
      ensures this.note == note && Valid() && trace == [] && !running
    {
      this.note := note;
      record, active, claim, quarantined, running, trace := None, false, None, {}, false, [];
    }

    ghost function Files(): Disk
      reads this
    {
      Disk(record, active, claim, quarantined)
    }

    /** The files are what the trace says they are. */
    ghost predicate Valid()
      reads this
    {
      Files() == After(note, START, trace).disk
    }

    method Happen(e: Event)
      requires Valid()
      modifies `record, `active, `claim, `quarantined, `trace
      ensures Valid() && trace == old(trace) + [e]
    {
      AfterConcat(note, START, trace, [e]);
      One(note, After(note, START, trace), e);
      trace := trace + [e];
      match e
      case MarkActive => active := true;
      case WriteClaim => claim := Some(note.id);
      case WriteRecord(r) => record := Some(r);
      case DropActive => active := false;
      case DropClaim => if claim == Some(note.id) { claim := None; }
      case Quarantine(session) => quarantined := quarantined + {session};
      case RivalClaims(rival) => claim := Some(rival);
      case RivalReleases => if claim != Some(note.id) { claim := None; }
      case _ =>
    }

    /** Performs the writes of a save in order, and stops as an exception would after `writes` of them. */
    method SaveFailoverTask(task: Record, writes: Option<nat>) returns (threw: bool)
      requires Valid()
      modifies `record, `active, `claim, `quarantined, `trace
      ensures Valid()
      ensures threw <==> writes.Some? && writes.value <= |Save(task)|
      ensures trace == old(trace) + if threw then Save(task)[..writes.value] else Save(task)
    {
      hide After, Observe;
      ghost var start, all := trace, Save(task);
      var done := 0;
      var terminal := Terminal(task.state);
      if !terminal {
        if writes == Some(done) { return true; }
        Happen(MarkActive);
        done := done + 1;
      }
      assert trace == start + all[..done];
      if task.state == Claimed || task.state == Dispatching {
        if writes == Some(done) { return true; }
        Happen(WriteClaim);
        done := done + 1;
      }
      assert trace == start + all[..done];
      if writes == Some(done) { return true; }
      Happen(WriteRecord(task));
      done := done + 1;
      assert trace == start + all[..done];
      if terminal {
        if writes == Some(done) { return true; }
        Happen(DropActive);
        if writes == Some(done + 1) { return true; }
        Happen(DropClaim);
        done := done + 2;
      }
      assert trace == start + all[..done] && done == |all|;
      return writes == Some(done);
    }

    /** What listing the index yields for this task. */
    method Load() returns (task: Option<Record>)
      requires Valid()
      modifies `trace
      ensures Valid() && trace == old(trace) + [Reload] && Files() == old(Files())
      ensures task == if active then record else None
    {
      AfterConcat(note, START, trace, [Reload]);
      One(note, After(note, START, trace), Reload);
      trace := trace + [Reload];
      return if active then record else None;
    }

    /** One pass over the task. */
    method ProcessFailovers(a: Answers)
      requires Valid()
      modifies this
      ensures Valid() && running == old(running)
      ensures trace == old(trace) + if old(running) then [] else PassEvents(note, old(Files()), a)
    {
      hide After, Observe, Handling;
      if !running {
        ghost var files, start := Files(), trace;
        running := true;
        Pass(a);
        running := false;
        assert trace == start + PassEvents(note, files, a);
      }
    }

    method Pass(a: Answers)
      requires Valid()
      modifies `record, `active, `claim, `quarantined, `trace
      ensures Valid()
      ensures trace == old(trace) + PassEvents(note, old(Files()), a)
    {
      hide After, Observe, Handling;
      ghost var files, start := Files(), trace;
      var loaded := Load();
      if loaded.Some? {
        Handle(loaded.value, a);
      } else {
        HandlingNothing(note, files, a);
      }
      assert trace == start + [Reload] + Handling(note, files, a);
    }

    method Handle(loaded: Record, a: Answers)
      requires Valid() && active && record == Some(loaded)
      modifies `record, `active, `claim, `quarantined, `trace
      ensures Valid() && trace == old(trace) + Handling(note, old(Files()), a)
    {
      hide After, Observe, Save, Transfer, Watch, Reconcile, Reason;
      if Terminal(loaded.state) || !a.eligible {
        return;
      }
      if loaded.state == Watching {
        var claimed := WatchTask(loaded, a);
        if claimed.Some? {
          TransferCustody(claimed.value, a);
        }
        return;
      }
      if loaded.state == Dispatching {
        ReconcileTask(loaded);
        return;
      }
      TransferCustody(loaded, a);
    }

    /** What becomes of a watched task; the claimed record when it goes on to the transfer. */
    method WatchTask(loaded: Record, a: Answers) returns (claimed: Option<Record>)
      requires Valid() && loaded.state == Watching
      modifies `record, `active, `claim, `quarantined, `trace
      ensures Valid()
      ensures var w := Watch(note, loaded, a);
              trace == old(trace) + (if w.Wait? then [] else Save(w.record))
              && claimed == if w.Claim? then Some(w.record) else None
    {
      hide After, Observe, Save;
      var task := loaded;
      claimed := None;
      var failure := if task.failure.Some? then task.failure else a.failure;
      if failure.None? || failure.value.atMs < note.ts {
        if a.processed && a.completed {
          task := task.(state := Finished);
          var _ := SaveFailoverTask(task, None);
        }
        return;
      }
      if !E.Truthy(failure.value.sessionId) || !E.Truthy(failure.value.file) {
        return;
      }
      if !a.belongs {
        if a.completed {
          task := task.(state := Finished);
          var _ := SaveFailoverTask(task, None);
        }
        return;
      }
      if !E.Truthy(a.candidate) || a.stopped {
        return;
      }
      if !E.Truthy(note.sessionToken) || (a.alive && a.token != note.sessionToken) {
        task := task.(state := Review, reason := Some(HostingReplaced), error := Some(Replaced));
        var _ := SaveFailoverTask(task, None);
        return;
      }
      task := task.(state := Claimed, target := a.candidate, failure := failure);
      var _ := SaveFailoverTask(task, None);
      claimed := Some(task);
    }

    method ReconcileTask(loaded: Record)
      requires Valid()
      modifies `record, `active, `claim, `quarantined, `trace
      ensures Valid() && trace == old(trace) + Reconcile(loaded)
    {
      hide After, Observe, Save;
      var task := loaded;
      if task.reason.None? {
        task := task.(reason := Some(DispatchUncertain));
      }
      task := task.(state := Review, error := Some(Restarted));
      var _ := SaveFailoverTask(task, None);
      Happen(RaiseNotice);
    }

    method TransferCustody(claimed: Record, a: Answers)
      requires Valid()
      modifies `record, `active, `claim, `quarantined, `trace
      ensures Valid() && trace == old(trace) + Transfer(note, claimed, a)
    {
      hide After, Observe, Save, Dispatched, Transfer, Stopping, Reason;
      TransferEvents(note, claimed, a);
      if claimed.failure.None? || !E.Truthy(claimed.failure.value.sessionId) {
        return;
      }
      ghost var start := trace;
      Happen(Quarantine(claimed.failure.value.sessionId.value));
      Happen(MarkFresh);
      Happen(ClearPark);
      Happen(SettleInflight);
      assert trace == start + QuietPart(claimed);
      StopHost(claimed, a);
    }

    /** Stops the old host if it runs; the evidence is judged once it is seen dead. */
    method StopHost(claimed: Record, a: Answers)
      requires Valid() && claimed.failure.Some?
      modifies `record, `active, `claim, `quarantined, `trace
      ensures Valid() && trace == old(trace) + Stopping(note, claimed, a)
    {
      hide After, Observe, Save, Dispatched, Reason;
      var task := claimed;
      ghost var start := trace;
      if a.stillAlive {
        if a.claimToken != note.sessionToken {
          task := task.(state := Review, reason := Some(HostingChangedDuringClaim), error := Some(ChangedDuringClaim));
          var _ := SaveFailoverTask(task, None);
          return;
        }
        Happen(Kill);
        if !a.died {
          task := task.(error := Some(NotTerminated));
          var _ := SaveFailoverTask(task, None);
          return;
        }
      }
      ghost var killed := if a.stillAlive then [Kill] else [];
      assert trace == start + killed;
      JudgeAndDispatch(task, a);
      StoppingEvents(note, claimed, a);
      Flatten(start, killed, [SawDead], [Proved(Proof(note, claimed, a))], Dispatched(note, claimed, a));
    }

    method JudgeAndDispatch(claimed: Record, a: Answers)
      requires Valid() && claimed.failure.Some?
      modifies `record, `active, `claim, `quarantined, `trace
      ensures Valid()
      ensures trace == old(trace) + [SawDead] + [Proved(Proof(note, claimed, a))] + Dispatched(note, claimed, a)
    {
      hide After, Observe, Save, Dispatched, Reason;
      Happen(SawDead);
      var evidence := EvidenceOf(note, claimed.failure.value, a.file);
      var reason := RefusalReviewReason(evidence);
      var judgement := Judgement(evidence, reason);
      Happen(Proved(judgement));
      Dispatch(claimed, a, reason);
    }

    method Dispatch(claimed: Record, a: Answers, reason: Option<ReviewReason>)
      requires Valid() && claimed.failure.Some? && reason == Proof(note, claimed, a).reason
      modifies `record, `active, `claim, `quarantined, `trace
      ensures Valid() && trace == old(trace) + Dispatched(note, claimed, a)
    {
      hide After, Observe, Save, Settling;
      var task := claimed.(reason := reason);
      if a.stoppedLater || !E.Truthy(a.laterCandidate) {
        return;
      }
      task := task.(target := a.laterCandidate, state := Dispatching);
      var _ := SaveFailoverTask(task, None);
      Happen(Send(reason.None?, task.target.value, a.outcome));
      SettleTask(task, a);
    }

    /** Saves what the send answered; when that save throws, the same state is saved once more. */
    method SettleTask(sending: Record, a: Answers)
      requires Valid()
      modifies `record, `active, `claim, `quarantined, `trace
      ensures Valid() && trace == old(trace) + Settling(sending, a)
    {
      hide After, Observe, Save;
      var task := sending;
      if a.outcome == Threw {
        task := task.(error := Some(SendThrew));
        var _ := SaveFailoverTask(task, None);
        return;
      }
      var accepted := a.outcome == Accepted;
      task := task.(state := if task.reason.None? && accepted then Transferred else Review);
      if !accepted {
        if task.reason.None? {
          task := task.(reason := Some(DispatchFailed));
        }
        task := task.(error := Some(SendRefused));
      }
      assert task == Settled(sending, a.outcome);
      var threw := SaveFailoverTask(task, a.torn);
      if threw {
        task := task.(error := Some(SaveThrew));
        var _ := SaveFailoverTask(task, None);
      }
    }
  }
}
