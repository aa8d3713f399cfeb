/** The delivery acceptance reconciler: one durable record, its writer, the operator's closure and the passes that
    settle the record and notify. A pass acts on the copy it listed and may be cut between any two events. */
module AcceptanceReconciler {
  import opened Text

  const ALERT_AFTER_MS := 120000
  const DEAD_DRAIN_MS := 5000
  const FINAL_KEEP_MS := 7 * 24 * 60 * 60000

  // ---------------------------------------------------------------- the store

  datatype Status = Prepared | Sending | Pending | Delivered | Failed | Unresolved | Rejected

  /** A notification slot: nothing claimed, claimed before a send, or known to be accepted. */
  datatype Slot = Unset | Claimed | Sent

  datatype Rec = Rec(
    status: Status, managed: bool, createdAt: int, updatedAt: int, deadSince: Option<int>,
    caller: Slot, operator: Slot, alertAt: Option<int>)

  datatype Disk = Disk(record: Option<Rec>, resolved: bool, notice: Slot)

  /** Who sent the original input: nobody known, the core itself, or a caller that is owed an answer. */
  datatype From = Unknown | Core | Caller

  /** A pass keeps the time it began and the record as it listed it. */
  datatype View = View(record: Rec, resolved: bool, now: int)

  // ---------------------------------------------------------------- events

  datatype Outcome = Accepted | Refused | Threw

  datatype Event =
    | Tick(at: int)
    | WriterWrites(r: Rec, last: bool) | WriterDies | Imports(r: Rec)
    | Resolve
    | Look | Take
    | Sighted(dead: bool, now: int)
    | Write(r: Rec) | Remove(operator: bool) | NoticeWrite(slot: Slot)
    | SendCaller(outcome: Outcome) | SendOperator(outcome: Outcome) | SendResolution(outcome: Outcome)
    | Board

  // ---------------------------------------------------------------- one pass over one record

  datatype Answers = Answers(
    pidReused: bool,       // the writer's process id answers although the writer is gone
    landed: bool, nativeDead: bool, operator: bool,
    closes: bool,          // the operator closes the case while the caller is being told
    toCaller: Outcome, toOperator: Outcome, toResolved: Outcome)

  predicate Settled(r: Rec) {
    r.status == Rejected || (r.status == Delivered && !r.managed)
  }

  /** The record once native evidence has been looked at. A change of status opens fresh notification slots. */
  function Judged(r: Rec, now: int, a: Answers): Rec {
    var since := if a.landed then r.deadSince
                 else if !a.nativeDead then None
                 else if r.deadSince.Some? then r.deadSince else Some(now);
    var status := if a.landed then Delivered
                  else if now - r.createdAt >= ALERT_AFTER_MS || r.status == Sending
                          || (a.nativeDead && now - since.value >= DEAD_DRAIN_MS) then Unresolved
                  else r.status;
    if status == r.status then r.(managed := true, deadSince := since)
    else r.(managed := true, deadSince := since, status := status, caller := Unset, operator := Unset, alertAt := None,
            updatedAt := now)
  }

  function Judging(r: Rec, now: int, a: Answers): seq<Event> {
    var j := Judged(r, now, a);
    (if a.landed then [] else [Sighted(a.nativeDead, now)])
    + (if j.status != r.status || j.deadSince != r.deadSince then [Write(j)] else [])
  }

  function SlotAfter(slot: Slot, wanted: bool, outcome: Outcome): Slot {
    if !wanted || slot != Unset then slot
    else match outcome case Accepted => Sent case Refused => Unset case Threw => Claimed
  }

  /** The claim is durable before the send; a claim found on the record is reported, never sent again. */
  function NotifyCaller(r: Rec, wanted: bool, closes: bool, o: Outcome): seq<Event> {
    if !wanted || r.caller == Sent then []
    else if r.caller == Claimed then [Board]
    else
      [Write(r.(caller := Claimed))]
      + ([SendCaller(o)] + ((if closes then [Resolve] else []) + [Write(r.(caller := SlotAfter(Unset, true, o)))]))
  }

  /** The closure lands while a notice is under way. */
  predicate ClosedMeanwhile(r: Rec, wanted: bool, closes: bool) {
    closes && wanted && r.caller == Unset
  }

  function NotifyOperator(r: Rec, wanted: bool, o: Outcome): seq<Event> {
    if !wanted || r.operator == Sent then []
    else if r.operator == Claimed then [Board]
    else [Write(r.(operator := Claimed))] + ([SendOperator(o)] + [Write(r.(operator := SlotAfter(Unset, true, o)))])
  }

  predicate OwesOperator(from: From, r: Rec, a: Answers) {
    a.operator && r.status != Delivered && from != Core
  }

  predicate MayRemove(from: From, r: Rec, now: int, a: Answers) {
    (r.status == Delivered || r.status == Failed) && now - r.updatedAt > FINAL_KEEP_MS
    && (from != Caller || r.caller == Sent)
    && (r.status == Delivered || !a.operator || r.operator == Sent)
  }

  function Closing(from: From, r: Rec, now: int, a: Answers): seq<Event> {
    (if r.status == Unresolved && r.alertAt.None? then [Write(r.(alertAt := Some(now)))] else [])
    + (if MayRemove(from, r, now, a) then [Remove(a.operator)] else [])
  }

  function Notify(from: From, r: Rec, resolved: bool, now: int, a: Answers): seq<Event> {
    var toCaller := from == Caller && !resolved;
    var r1 := r.(caller := SlotAfter(r.caller, toCaller, a.toCaller));
    // The case is read again before the second notice.
    var toOperator := OwesOperator(from, r, a) && !resolved && !ClosedMeanwhile(r, toCaller, a.closes);
    var r2 := r1.(operator := SlotAfter(r.operator, toOperator, a.toOperator));
    (if r.status == Unresolved || r.status == Failed then [Board] else [])
    + (NotifyCaller(r, toCaller, a.closes, a.toCaller)
      + (NotifyOperator(r1, toOperator, a.toOperator) + Closing(from, r2, now, a)))
  }

  /** After an operator's closure only the caller is told, under its own claim. */
  function Release(from: From, notice: Slot, o: Outcome): seq<Event> {
    if from != Caller || notice == Sent then []
    else if notice == Claimed then [Board]
    else
      [NoticeWrite(Claimed)]
      + ([SendResolution(o)] + (if o == Threw then [] else [NoticeWrite(SlotAfter(Unset, true, o))]))
  }

  function Reconcile(from: From, v: View, d: Disk, writerSeen: bool, a: Answers): seq<Event> {
    var r, now := v.record, v.now;
    if v.resolved then Release(from, d.notice, a.toResolved)
    else if Settled(r) then
      if now - r.updatedAt > FINAL_KEEP_MS then [Remove(a.operator)] else []
    else if r.status == Sending && now - r.createdAt < ALERT_AFTER_MS && writerSeen then []
    else match r.status
      case Prepared =>
        if writerSeen then []
        else
          var failed := r.(status := Failed, managed := true, updatedAt := now);
          [Write(failed)] + Notify(from, failed, d.resolved, now, a)
      case Delivered => Notify(from, r, d.resolved, now, a)
      case Failed => Notify(from, r, d.resolved, now, a)
      case _ =>
        var j := Judged(r, now, a);
        Judging(r, now, a) + if j.status == Pending then [] else Notify(from, j, d.resolved, now, a)
  }

  // ---------------------------------------------------------------- the world and its observer

  /** Sends of one kind that were accepted or whose fate is unknown: in this status, and in all. */
  datatype Tally = Tally(done: nat, total: nat, accepted: bool)

  datatype World = World(
    disk: Disk, held: Option<View>, clock: int,
    begun: bool, alive: bool, entered: bool, finished: bool, created: int,   // the writer
    caller: Tally, operator: Tally, notice: Tally,
    deadFrom: Option<int>,    // every sighting since the pass that began then saw the native processes dead
    lost: bool,               // a live process was seen and a recorded death was not yet cleared
    overtaken: bool)          // some pass has acted on a copy that the writer had overtaken

  const ZERO := Tally(0, 0, false)
  const START :=
    World(Disk(None, false, Unset), None, 0, false, true, false, false, 0, ZERO, ZERO, ZERO, None, false, false)

  function Count(t: Tally, o: Outcome): Tally {
    if o == Refused then t else Tally(t.done + 1, t.total + 1, t.accepted || o == Accepted)
  }

  function Fresh(t: Tally): Tally {
    t.(done := 0, accepted := false)
  }

  function Observe(w: World, e: Event): World {
    match e
    case Tick(at) => w.(clock := at)
    case WriterWrites(r, last) =>
      w.(disk := w.disk.(record := Some(r)), begun := true, finished := last, created := r.createdAt,
         entered := w.entered || r.status == Sending || (last && r.status != Rejected))
    case WriterDies => w.(alive := false)
    case Imports(r) =>
      w.(disk := w.disk.(record := Some(r)), begun := true, entered := true, finished := true, created := r.createdAt,
         caller := ZERO, operator := ZERO)
    case Resolve => w.(disk := w.disk.(resolved := true))
    case Look =>
      w.(held := if w.disk.record.Some? then Some(View(w.disk.record.value, w.disk.resolved, w.clock)) else None)
    case Take =>
      w.(held := None,
         overtaken := w.overtaken || (w.held.Some? && w.disk.record != Some(w.held.value.record)))
    case Sighted(dead, now) =>
      w.(deadFrom := if !dead then None else if w.deadFrom.Some? then w.deadFrom else Some(now),
         lost := w.lost || (!dead && w.disk.record.Some? && w.disk.record.value.deadSince.Some?))
    case Write(r) =>
      var same := w.disk.record.Some? && w.disk.record.value.status == r.status;
      w.(disk := w.disk.(record := Some(r)), lost := w.lost && r.deadSince.Some?,
         caller := if same then w.caller else Fresh(w.caller),
         operator := if same then w.operator else Fresh(w.operator))
    case Remove(_) => w.(disk := w.disk.(record := None))
    case NoticeWrite(slot) => w.(disk := w.disk.(notice := slot))
    case SendCaller(o) => w.(caller := Count(w.caller, o))
    case SendOperator(o) => w.(operator := Count(w.operator, o))
    case SendResolution(o) => w.(notice := Count(w.notice, o))
    case Board => w
  }

  // ---------------------------------------------------------------- the law

  predicate Moves(before: Status, after: Status) {
    match before
    case Prepared => after == Failed
    case Sending => after == Unresolved || after == Delivered
    case Pending => after == Pending || after == Unresolved || after == Delivered
    case Unresolved => after == Unresolved || after == Delivered
    case Delivered => after == Delivered
    case Failed => after == Failed
    case Rejected => false
  }

  /** A claim is given back only after a refusal, and a send that is accepted or uncertain keeps its slot. */
  predicate SlotMoves(before: Slot, after: Slot, t: Tally) {
    before == after || (before == Unset && after == Claimed)
    || (before == Claimed && after == Sent && t.accepted) || (before == Claimed && after == Unset && t.done == 0)
  }

  predicate Owed(from: From, w: World, operator: bool)
    requires w.disk.record.Some?
  {
    (from == Caller ==> w.caller.accepted) && (w.disk.record.value.status == Failed && operator ==> w.operator.accepted)
  }

  /** A write that follows from the record on disk. */
  predicate Follows(from: From, w: World, r: Rec) {
    var rec := w.disk.record;
    && rec.Some? && !Settled(rec.value) && r.createdAt == rec.value.createdAt && r.managed && r.updatedAt <= w.clock
    && (r.status == Pending ==> r.caller == Unset && r.operator == Unset)
    && Moves(rec.value.status, r.status)
    && (r.status == rec.value.status ==>
          SlotMoves(rec.value.caller, r.caller, w.caller) && SlotMoves(rec.value.operator, r.operator, w.operator))
    && (r.status != rec.value.status ==> r.caller == Unset && r.operator == Unset)
    && (r.status == Delivered ==> r.operator == Unset)
    && (from == Core ==> r.operator == Unset || r.operator == rec.value.operator)
    && (rec.value.status == Prepared ==> !w.entered && !w.finished && !w.alive)
    && (rec.value.status == Sending ==> !w.alive || w.finished || w.clock - w.created >= ALERT_AFTER_MS)
    && (rec.value.status == Pending && r.status == Unresolved && !w.lost
        && r.updatedAt - r.createdAt < ALERT_AFTER_MS ==>
          w.deadFrom.Some? && r.updatedAt - w.deadFrom.value >= DEAD_DRAIN_MS)
  }

  /** A write from a copy that the writer had overtaken: the writer is gone, and nobody has been told anything. */
  predicate Overwrites(w: World, r: Rec) {
    && w.overtaken && w.disk.record.Some? && !w.alive && Rank(r.status) > 0
    && r.createdAt == w.created && r.managed && r.updatedAt <= w.clock
    && r.caller == Unset && r.operator == Unset && w.caller.total == 0 && w.operator.total == 0
  }

  /** What may happen next. */
  predicate Permits(from: From, w: World, e: Event) {
    var rec := w.disk.record;
    match e
    case Tick(at) => at >= w.clock
    case WriterWrites(r, last) =>
      && w.caller.total == 0 && w.operator.total == 0 && r.caller == Unset && r.operator == Unset && r.deadSince.None?
      && !w.finished && r.updatedAt <= w.clock && (!last ==> r.createdAt <= w.clock)
      && (if !w.begun then rec.None? && !w.disk.resolved && !last && r.status == Prepared
          else w.alive && rec.Some? && r.createdAt == w.created && w.clock - w.created < ALERT_AFTER_MS
               && (if last then (r.status == Rejected || (w.entered && (r.status == Pending || r.status == Delivered)))
                   else r.status == Sending)
               && rec.value.status == (if w.entered then Sending else Prepared)
               && (r.status == Delivered ==> !r.managed))
    case Imports(r) =>
      rec.None? && r.status == Pending && r.caller == Unset && r.operator == Unset && r.deadSince.None?
      && r.updatedAt <= w.clock
    case Resolve => rec.Some?
    case Sighted(_, now) => rec.Some? && now <= w.clock && w.held.None?
    case Write(r) =>
      && w.held.None? && (Follows(from, w, r) || Overwrites(w, r))
      && (!w.lost && r.deadSince.Some? ==> w.deadFrom.Some? && w.deadFrom.value <= r.deadSince.value)
    case Remove(operator) =>
      && rec.Some? && w.held.None? && w.clock - rec.value.updatedAt > FINAL_KEEP_MS
      && (Settled(rec.value)
         || ((rec.value.status == Delivered || rec.value.status == Failed) && Owed(from, w, operator)))
    case NoticeWrite(slot) => w.disk.resolved && SlotMoves(w.disk.notice, slot, w.notice)
    case SendCaller(_) =>
      && rec.Some? && w.held.None? && rec.value.caller == Claimed && w.caller.done == 0
      && !w.disk.resolved && from == Caller
    case SendOperator(_) =>
      && rec.Some? && w.held.None? && rec.value.operator == Claimed && w.operator.done == 0
      && !w.disk.resolved && from != Core
      && (rec.value.status == Failed || rec.value.status == Unresolved)
    case SendResolution(_) =>
      w.disk.resolved && w.disk.notice == Claimed && w.notice.done == 0 && from == Caller
    case _ => true
  }

  /** How many statuses that are notified a record has been in at most. */
  function Rank(s: Status): nat {
    match s
    case Unresolved => 1
    case Failed => 1
    case Delivered => 2
    case _ => 0
  }

  predicate SlotSound(slot: Slot, t: Tally) {
    t.done <= 1 && t.done <= t.total && (t.done > 0 ==> slot != Unset) && (slot == Sent ==> t.accepted)
      && (t.accepted ==> t.done == 1)
  }

  predicate RecordSound(w: World, r: Rec) {
    && r.createdAt == w.created && r.updatedAt <= w.clock
    && SlotSound(r.caller, w.caller) && SlotSound(r.operator, w.operator)
    && (Rank(r.status) == 0 || Settled(r) ==>
          r.caller == Unset && r.operator == Unset && w.caller.total == 0 && w.operator.total == 0)
    && (Rank(r.status) > 0 ==> w.caller.total + 1 <= Rank(r.status) + w.caller.done)
    && (r.status == Delivered ==> r.operator == Unset)
    && (Rank(r.status) == 1 ==> r.managed)
    && (Rank(r.status) == 1 ==> w.operator.total <= w.operator.done)
    && (r.status == Prepared ==> !w.entered && !w.finished)
    && (r.status == Prepared || r.status == Sending ==> r.deadSince.None?)
    && (r.status == Failed ==> !w.alive && (!w.overtaken ==> !w.entered))
    && (!w.lost && r.deadSince.Some? ==> w.deadFrom.Some? && w.deadFrom.value <= r.deadSince.value)
  }

  /** The copy was listed before the writer moved on: it says `Prepared` or `Sending`, and nobody has been told
      anything. */
  predicate Overtaken(w: World, v: View) {
    && w.disk.record.Some? && (v.record.status == Prepared || v.record.status == Sending)
    && v.record.createdAt == w.created && v.record.updatedAt <= w.clock && v.now - w.created < ALERT_AFTER_MS
    && v.record.caller == Unset && v.record.operator == Unset && v.record.deadSince.None?
    && w.caller.total == 0 && w.operator.total == 0
  }

  /** What every moment of a run with a prompt writer satisfies. */
  predicate Sound(w: World) {
    && (w.disk.record.Some? ==> RecordSound(w, w.disk.record.value))
    && w.caller.total <= 2 && w.operator.total <= 1 && w.notice.total == w.notice.done
    && SlotSound(w.disk.notice, w.notice)
    && (!w.begun ==> w.disk.record.None? && !w.disk.resolved && w.caller == ZERO && w.operator == ZERO && !w.finished
                     && w.disk.notice == Unset && w.held.None? && !w.entered)
    && (w.begun && !w.finished ==> w.created <= w.clock)
    && (w.begun && w.alive && !w.finished ==>
          (w.disk.record.Some? && w.disk.record.value.status == (if w.entered then Sending else Prepared))
          || w.clock - w.created >= ALERT_AFTER_MS)
    && (w.held.Some? ==> w.held.value.now <= w.clock && (w.held.value.resolved ==> w.disk.resolved))
    && (w.held.Some? ==> w.disk.record == Some(w.held.value.record) || Overtaken(w, w.held.value))
    && (w.deadFrom.Some? ==> w.deadFrom.value <= w.clock && (w.held.Some? ==> w.deadFrom.value <= w.held.value.now))
  }

  lemma SlotStep(before: Slot, after: Slot, t: Tally)
    requires SlotSound(before, t) && SlotMoves(before, after, t)
    ensures SlotSound(after, t)
  {
  }

  lemma WriteKeepsSound(from: From, w: World, r: Rec)
    requires Sound(w) && Permits(from, w, Write(r))
    ensures Sound(Observe(w, Write(r)))
  {
    hide SlotSound, SlotMoves, RecordSound;
    if Follows(from, w, r) {
      FollowingIsSound(from, w, r);
    } else {
      OverwritingIsSound(w, r);
    }
  }

  lemma FollowingIsSound(from: From, w: World, r: Rec)
    requires Sound(w) && Permits(from, w, Write(r)) && Follows(from, w, r)
    ensures RecordSound(Observe(w, Write(r)), r)
    ensures Observe(w, Write(r)).caller.total == w.caller.total
    ensures Observe(w, Write(r)).operator.total == w.operator.total
  {
    var was := w.disk.record.value;
    if r.status == was.status {
      SlotStep(was.caller, r.caller, w.caller);
      SlotStep(was.operator, r.operator, w.operator);
    }
    hide SlotSound, SlotMoves;
    FreshIsSound(w.caller);
    FreshIsSound(w.operator);
    var next := Observe(w, Write(r));
    assert SlotSound(r.caller, next.caller) && SlotSound(r.operator, next.operator);
    assert Rank(r.status) > 0 ==> next.caller.total + 1 <= Rank(r.status) + next.caller.done;
    assert Rank(r.status) == 1 ==> next.operator.total <= next.operator.done;
  }

  lemma OverwritingIsSound(w: World, r: Rec)
    requires Sound(w) && w.held.None? && Overwrites(w, r)
    requires !w.lost && r.deadSince.Some? ==> w.deadFrom.Some? && w.deadFrom.value <= r.deadSince.value
    ensures RecordSound(Observe(w, Write(r)), r)
    ensures Observe(w, Write(r)).caller.total == w.caller.total
    ensures Observe(w, Write(r)).operator.total == w.operator.total
  {
  }

  lemma FreshIsSound(t: Tally)
    ensures SlotSound(Unset, Fresh(t))
  {
  }

  lemma SendKeepsSound(from: From, w: World, e: Event)
    requires Sound(w) && Permits(from, w, e) && (e.SendCaller? || e.SendOperator? || e.SendResolution?)
    ensures Sound(Observe(w, e))
  {
    hide SlotSound, SlotMoves, Settled;
    if e.SendResolution? {
      CountIsSound(w.notice, e.outcome);
    } else if e.SendCaller? {
      CountIsSound(w.caller, e.outcome);
    } else {
      CountIsSound(w.operator, e.outcome);
    }
    assert w.disk.record.Some? ==> RecordSound(Observe(w, e), w.disk.record.value);
  }

  lemma CountIsSound(t: Tally, o: Outcome)
    requires SlotSound(Claimed, t) && t.done == 0
    ensures SlotSound(Claimed, Count(t, o))
  {
  }

  lemma WriterKeepsSound(from: From, w: World, r: Rec, last: bool)
    requires Sound(w) && Permits(from, w, WriterWrites(r, last))
    ensures Sound(Observe(w, WriterWrites(r, last)))
  {
    var next := Observe(w, WriterWrites(r, last));
    assert w.begun ==> RecordSound(w, w.disk.record.value);
    assert SlotSound(r.caller, next.caller) && SlotSound(r.operator, next.operator);
    assert RecordSound(next, r);
  }

  lemma ImportKeepsSound(from: From, w: World, r: Rec)
    requires Sound(w) && Permits(from, w, Imports(r))
    ensures Sound(Observe(w, Imports(r)))
  {
    hide SlotMoves;
    assert RecordSound(Observe(w, Imports(r)), r);
  }

  lemma OtherKeepsSound(from: From, w: World, e: Event)
    requires Sound(w) && Permits(from, w, e)
    requires !e.Write? && !e.SendCaller? && !e.SendOperator? && !e.SendResolution? && !e.WriterWrites? && !e.Imports?
    ensures Sound(Observe(w, e))
  {
    hide SlotSound, SlotMoves;
    match e
    case NoticeWrite(slot) => SlotStep(w.disk.notice, slot, w.notice);
    case Sighted(_, _) =>
    case Look =>
    case _ =>
  }

  lemma SoundStep(from: From, w: World, e: Event)
    requires Sound(w) && Permits(from, w, e)
    ensures Sound(Observe(w, e))
  {
    hide *;
    match e
    case Write(r) => WriteKeepsSound(from, w, r);
    case WriterWrites(r, last) => WriterKeepsSound(from, w, r, last);
    case Imports(r) => ImportKeepsSound(from, w, r);
    case SendCaller(_) => SendKeepsSound(from, w, e);
    case SendOperator(_) => SendKeepsSound(from, w, e);
    case SendResolution(_) => SendKeepsSound(from, w, e);
    case _ => OtherKeepsSound(from, w, e);
  }

  // ---------------------------------------------------------------- traces

  function After(w: World, events: seq<Event>): World
    decreases |events|
  {
    if events == [] then w else After(Observe(w, events[0]), events[1..])
  }

  predicate Lawful(from: From, w: World, events: seq<Event>)
    decreases |events|
  {
    events == [] || (Permits(from, w, events[0]) && Lawful(from, Observe(w, events[0]), events[1..]))
  }

  lemma {:induction false} AfterConcat(from: From, w: World, a: seq<Event>, b: seq<Event>)
    ensures After(w, a + b) == After(After(w, a), b)
    ensures Lawful(from, w, a + b) <==> Lawful(from, w, a) && Lawful(from, After(w, a), b)
    decreases |a|
  {
    hide Permits, Observe;
    if a == [] {
      assert a + b == b;
    } else {
      assert (a + b)[1..] == a[1..] + b;
      AfterConcat(from, Observe(w, a[0]), a[1..], b);
    }
  }

  lemma {:induction false} SoundAfter(from: From, w: World, events: seq<Event>)
    requires Sound(w) && Lawful(from, w, events)
    ensures Sound(After(w, events))
    decreases |events|
  {
    hide Sound, Permits, Observe;
    if events != [] {
      SoundStep(from, w, events[0]);
      SoundAfter(from, Observe(w, events[0]), events[1..]);
    }
  }

  lemma LawfulPrefix(from: From, w: World, events: seq<Event>, n: nat)
    requires Lawful(from, w, events) && n <= |events|
    ensures Lawful(from, w, events[..n])
  {
    hide Lawful;
    assert events == events[..n] + events[n..];
    AfterConcat(from, w, events[..n], events[n..]);
  }

  lemma One(from: From, w: World, e: Event)
    ensures Lawful(from, w, [e]) <==> Permits(from, w, e)
    ensures After(w, [e]) == Observe(w, e)
  {
    hide Permits, Observe;
    assert [e][1..] == [];
  }

  lemma First(from: From, w: World, e: Event, rest: seq<Event>)
    ensures Lawful(from, w, [e] + rest) <==> Permits(from, w, e) && Lawful(from, Observe(w, e), rest)
    ensures After(w, [e] + rest) == After(Observe(w, e), rest)
  {
    hide Permits, Observe, After, Lawful;
    One(from, w, e);
    AfterConcat(from, w, [e], rest);
  }

  // ---------------------------------------------------------------- a pass over a fresh copy is lawful

  /** The copy in hand is the record on disk, in a status that is notified. */
  predicate Ready(w: World, r: Rec) {
    Sound(w) && w.held.None? && w.disk.record == Some(r) && Rank(r.status) > 0 && r.managed
  }

  predicate SameScene(w: World, next: World) {
    next.clock == w.clock && next.disk.resolved == w.disk.resolved
  }

  lemma RewriteIsLawful(from: From, w: World, r: Rec, next: Rec)
    requires Ready(w, r) && r.status == next.status
    requires next == r.(caller := next.caller, operator := next.operator, alertAt := next.alertAt)
    requires SlotMoves(r.caller, next.caller, w.caller) && SlotMoves(r.operator, next.operator, w.operator)
    requires from == Core ==> next.operator == r.operator
    requires r.status == Delivered ==> next.operator == Unset
    ensures Permits(from, w, Write(next)) && Ready(Observe(w, Write(next)), next)
    ensures SameScene(w, Observe(w, Write(next)))
    ensures Observe(w, Write(next)).caller == w.caller && Observe(w, Write(next)).operator == w.operator
  {
    hide SlotMoves;
    WriteKeepsSound(from, w, next);
  }

  lemma NotifyCallerIsLawful(from: From, w: World, r: Rec, wanted: bool, closes: bool, o: Outcome)
    requires Ready(w, r) && (wanted ==> from == Caller && !w.disk.resolved)
    ensures Lawful(from, w, NotifyCaller(r, wanted, closes, o))
    ensures Ready(After(w, NotifyCaller(r, wanted, closes, o)), r.(caller := SlotAfter(r.caller, wanted, o)))
    ensures var next := After(w, NotifyCaller(r, wanted, closes, o));
            next.clock == w.clock && next.disk.resolved == (w.disk.resolved || ClosedMeanwhile(r, wanted, closes))
  {
    if wanted && r.caller == Unset {
      var claimed, done := r.(caller := Claimed), r.(caller := SlotAfter(Unset, true, o));
      var w1 := Observe(w, Write(claimed));
      var w2 := Observe(w1, SendCaller(o));
      var landed := if closes then [Resolve] else [];
      var w3 := if closes then Observe(w2, Resolve) else w2;
      ClaimThenSend(from, w, r, o);
      SettleIsLawful(from, w2, r, closes, o);
      assert NotifyCaller(r, wanted, closes, o) == [Write(claimed)] + ([SendCaller(o)] + (landed + [Write(done)]));
      hide *;
      First(from, w, Write(claimed), [SendCaller(o)] + (landed + [Write(done)]));
      First(from, w1, SendCaller(o), landed + [Write(done)]);
    } else if wanted && r.caller == Claimed {
      One(from, w, Board);
    }
  }

  lemma ClaimThenSend(from: From, w: World, r: Rec, o: Outcome)
    requires Ready(w, r) && from == Caller && !w.disk.resolved && r.caller == Unset
    ensures var claimed := r.(caller := Claimed);
            var w1 := Observe(w, Write(claimed));
            var w2 := Observe(w1, SendCaller(o));
            Permits(from, w, Write(claimed)) && Permits(from, w1, SendCaller(o)) && Ready(w2, claimed)
              && SameScene(w, w2)
            && SlotMoves(Claimed, SlotAfter(Unset, true, o), w2.caller)
  {
    var claimed := r.(caller := Claimed);
    assert w.caller.done == 0;
    RewriteIsLawful(from, w, r, claimed);
    SendKeepsSound(from, Observe(w, Write(claimed)), SendCaller(o));
  }

  lemma SettleIsLawful(from: From, w: World, r: Rec, closes: bool, o: Outcome)
    requires Ready(w, r.(caller := Claimed)) && SlotMoves(Claimed, SlotAfter(Unset, true, o), w.caller)
    ensures var done := r.(caller := SlotAfter(Unset, true, o));
            var events := (if closes then [Resolve] else []) + [Write(done)];
            Lawful(from, w, events) && Ready(After(w, events), done)
            && After(w, events).clock == w.clock && After(w, events).disk.resolved == (w.disk.resolved || closes)
  {
    hide SlotSound;
    var claimed, done := r.(caller := Claimed), r.(caller := SlotAfter(Unset, true, o));
    var landed := if closes then [Resolve] else [];
    var next := if closes then Observe(w, Resolve) else w;
    if closes {
      OtherKeepsSound(from, w, Resolve);
    }
    RewriteIsLawful(from, next, claimed, done);
    One(from, w, Resolve);
    One(from, next, Write(done));
    AfterConcat(from, w, landed, [Write(done)]);
  }

  lemma NotifyOperatorIsLawful(from: From, w: World, r: Rec, wanted: bool, o: Outcome)
    requires Ready(w, r) && (wanted ==> from != Core && r.status != Delivered && !w.disk.resolved)
    ensures Lawful(from, w, NotifyOperator(r, wanted, o))
    ensures Ready(After(w, NotifyOperator(r, wanted, o)), r.(operator := SlotAfter(r.operator, wanted, o)))
    ensures SameScene(w, After(w, NotifyOperator(r, wanted, o)))
  {
    if wanted && r.operator == Unset {
      var claimed, done := r.(operator := Claimed), r.(operator := SlotAfter(Unset, true, o));
      assert w.operator.done == 0;
      RewriteIsLawful(from, w, r, claimed);
      var w1 := Observe(w, Write(claimed));
      var w2 := Observe(w1, SendOperator(o));
      SendKeepsSound(from, w1, SendOperator(o));
      RewriteIsLawful(from, w2, claimed, done);
      hide *;
      First(from, w, Write(claimed), [SendOperator(o)] + [Write(done)]);
      First(from, w1, SendOperator(o), [Write(done)]);
      One(from, w2, Write(done));
    } else if wanted && r.operator == Claimed {
      One(from, w, Board);
    }
  }

  lemma ClosingIsLawful(from: From, w: World, r: Rec, now: int, a: Answers)
    requires Ready(w, r) && now <= w.clock
    ensures Lawful(from, w, Closing(from, r, now, a))
  {
    var alert := r.(alertAt := Some(now));
    var remove := if MayRemove(from, r, now, a) then [Remove(a.operator)] else [];
    if r.status == Unresolved && r.alertAt.None? {
      RewriteIsLawful(from, w, r, alert);
      One(from, w, Write(alert));
      assert Closing(from, r, now, a) == [Write(alert)];
    } else if MayRemove(from, r, now, a) {
      One(from, w, Remove(a.operator));
      assert Closing(from, r, now, a) == [Remove(a.operator)];
    }
  }

  lemma NotifyIsLawful(from: From, w: World, r: Rec, now: int, a: Answers)
    requires Ready(w, r) && now <= w.clock
    ensures Lawful(from, w, Notify(from, r, w.disk.resolved, now, a))
  {
    hide Ready, SlotAfter, MayRemove;
    var resolved := w.disk.resolved;
    var toCaller := from == Caller && !resolved;
    var r1 := r.(caller := SlotAfter(r.caller, toCaller, a.toCaller));
    var toOperator := OwesOperator(from, r, a) && !resolved && !ClosedMeanwhile(r, toCaller, a.closes);
    var r2 := r1.(operator := SlotAfter(r.operator, toOperator, a.toOperator));
    var told := NotifyCaller(r, toCaller, a.closes, a.toCaller);
    var board := if r.status == Unresolved || r.status == Failed then [Board] else [];
    One(from, w, Board);
    assert Lawful(from, w, board) && After(w, board) == w;
    NotifyCallerIsLawful(from, w, r, toCaller, a.closes, a.toCaller);
    var w1 := After(w, told);
    NotifyOperatorIsLawful(from, w1, r1, toOperator, a.toOperator);
    var w2 := After(w1, NotifyOperator(r1, toOperator, a.toOperator));
    ClosingIsLawful(from, w2, r2, now, a);
    var rest := NotifyOperator(r1, toOperator, a.toOperator) + Closing(from, r2, now, a);
    assert Notify(from, r, resolved, now, a) == board + (told + rest);
    hide *;
    AfterConcat(from, w1, NotifyOperator(r1, toOperator, a.toOperator), Closing(from, r2, now, a));
    AfterConcat(from, w, told, rest);
    AfterConcat(from, w, board, told + rest);
  }

  lemma ReleaseIsLawful(from: From, w: World, o: Outcome)
    requires Sound(w) && w.disk.resolved
    ensures Lawful(from, w, Release(from, w.disk.notice, o))
  {
    if from == Caller && w.disk.notice == Unset {
      var w1 := Observe(w, NoticeWrite(Claimed));
      var w2 := Observe(w1, SendResolution(o));
      var last := NoticeWrite(SlotAfter(Unset, true, o));
      var rest := if o == Threw then [] else [last];
      First(from, w, NoticeWrite(Claimed), [SendResolution(o)] + rest);
      First(from, w1, SendResolution(o), rest);
      One(from, w2, last);
    } else if from == Caller && w.disk.notice == Claimed {
      One(from, w, Board);
    }
  }

  lemma JudgingIsLawful(from: From, w: World, r: Rec, now: int, a: Answers)
    requires Sound(w) && w.disk.record == Some(r) && now <= w.clock
    requires r.status == Sending || r.status == Pending || r.status == Unresolved
    requires r.status == Sending ==> now - r.createdAt >= ALERT_AFTER_MS || !w.alive
    requires w.held.None? && (w.deadFrom.Some? ==> w.deadFrom.value <= now)
    ensures Lawful(from, w, Judging(r, now, a))
    ensures var j := Judged(r, now, a); j.status != Pending ==> Ready(After(w, Judging(r, now, a)), j)
    ensures SameScene(w, After(w, Judging(r, now, a)))
  {
    var j := Judged(r, now, a);
    var sighted := Sighted(a.nativeDead, now);
    var seen := if a.landed then w else Observe(w, sighted);
    var look := if a.landed then [] else [sighted];
    var save := if j.status != r.status || j.deadSince != r.deadSince then [Write(j)] else [];
    hide Permits, Observe, RecordSound, Judged, Sound;
    VerdictIsPermitted(from, w, seen, r, now, a);
    One(from, w, sighted);
    One(from, seen, Write(j));
    AfterConcat(from, w, look, save);
    WriteKeepsSound(from, seen, j);
    WriteScene(seen, j);
  }

  lemma WriteScene(w: World, r: Rec)
    ensures SameScene(w, Observe(w, Write(r))) && Observe(w, Write(r)).disk.record == Some(r)
    ensures Observe(w, Write(r)).held == w.held
  {
  }

  lemma VerdictIsPermitted(from: From, w: World, seen: World, r: Rec, now: int, a: Answers)
    requires Sound(w) && w.disk.record == Some(r) && now <= w.clock
    requires r.status == Sending || r.status == Pending || r.status == Unresolved
    requires r.status == Sending ==> now - r.createdAt >= ALERT_AFTER_MS || !w.alive
    requires w.held.None? && (w.deadFrom.Some? ==> w.deadFrom.value <= now)
    requires seen == if a.landed then w else Observe(w, Sighted(a.nativeDead, now))
    ensures Permits(from, seen, Write(Judged(r, now, a))) && Judged(r, now, a).managed
    ensures Rank(Judged(r, now, a).status) > 0 || Judged(r, now, a).status == Pending
    ensures Permits(from, w, Sighted(a.nativeDead, now)) && SameScene(w, seen) && seen.disk.record == Some(r)
    ensures seen.held.None?
    ensures Sound(seen)
    ensures var j := Judged(r, now, a);
            j.status == r.status && j.deadSince == r.deadSince && j.status != Pending ==> j == r
  {
    hide SlotSound, Judged, Observe;
    SightingKeepsScene(from, w, seen, r, now, a);
    VerdictShape(r, now, a);
  }

  lemma SightingKeepsScene(from: From, w: World, seen: World, r: Rec, now: int, a: Answers)
    requires Sound(w) && w.disk.record == Some(r) && now <= w.clock
    requires w.held.None? && (w.deadFrom.Some? ==> w.deadFrom.value <= now)
    requires seen == if a.landed then w else Observe(w, Sighted(a.nativeDead, now))
    ensures Permits(from, w, Sighted(a.nativeDead, now)) && Sound(seen)
    ensures SameScene(w, seen) && seen.disk == w.disk && seen.held.None?
    ensures seen.alive == w.alive && seen.finished == w.finished && seen.entered == w.entered
    ensures seen.created == w.created && seen.overtaken == w.overtaken
    ensures seen.caller == w.caller && seen.operator == w.operator
    ensures !a.landed ==>
              seen.deadFrom == if !a.nativeDead then None else if w.deadFrom.Some? then w.deadFrom else Some(now)
    ensures seen.lost == (w.lost || (!a.landed && !a.nativeDead && r.deadSince.Some?))
  {
    OtherKeepsSound(from, w, Sighted(a.nativeDead, now));
    hide RecordSound, SlotSound;
  }

  /** What a look at the evidence may change. */
  lemma VerdictShape(r: Rec, now: int, a: Answers)
    requires r.status == Sending || r.status == Pending || r.status == Unresolved
    ensures var j := Judged(r, now, a);
            j.managed && j.createdAt == r.createdAt
            && j.status == (if a.landed then Delivered else j.status)
            && (j.status == r.status || j.status == Unresolved || j.status == Delivered) && j.status != Sending
            && (j.status == r.status ==> j == r.(managed := true, deadSince := j.deadSince))
            && (j.status != r.status ==> j.caller == Unset && j.operator == Unset && j.updatedAt == now)
            && j.deadSince == (if a.landed then r.deadSince else if !a.nativeDead then None
                               else if r.deadSince.Some? then r.deadSince else Some(now))
            && (r.status == Pending && j.status == Unresolved ==>
                  !a.landed && (now - r.createdAt >= ALERT_AFTER_MS
                                || (a.nativeDead && now - j.deadSince.value >= DEAD_DRAIN_MS)))
  {
  }

  /** The copy in hand has not been overtaken, as when nothing else touched the record since it was listed. */
  predicate FreshView(w: World) {
    w.held.Some? ==> w.disk.record == Some(w.held.value.record)
  }

  lemma ActIsLawful(from: From, w: World, a: Answers)
    requires Sound(w)
    ensures Lawful(from, w, ActEvents(from, w, a))
  {
    hide Reconcile, RecordSound, SlotSound, SlotMoves, Rank;
    var rest := if w.held.None? then [] else Reconcile(from, w.held.value, w.disk, w.alive || a.pidReused, a);
    var w0 := Observe(w, Take);
    First(from, w, Take, rest);
    OtherKeepsSound(from, w, Take);
    if w.held.Some? && FreshView(w) {
      ReconcileIsLawful(from, w0, w.held.value, w.alive || a.pidReused, a);
    } else if w.held.Some? {
      OvertakenIsLawful(from, w0, w.held.value, w.alive || a.pidReused, a);
    }
  }

  /** A pass over an overtaken copy acts only when the writer is gone, and then nobody has been told anything. */
  lemma OvertakenIsLawful(from: From, w: World, v: View, writerSeen: bool, a: Answers)
    requires Sound(w) && w.held.None? && w.overtaken && Overtaken(w, v) && (v.resolved ==> w.disk.resolved)
    requires v.now <= w.clock && (w.deadFrom.Some? ==> w.deadFrom.value <= v.now) && (w.alive ==> writerSeen)
    ensures Lawful(from, w, Reconcile(from, v, w.disk, writerSeen, a))
  {
    hide Notify, Release, Judging, Judged, SlotSound, SlotMoves, After;
    var r, now := v.record, v.now;
    if v.resolved {
      ReleaseIsLawful(from, w, a.toResolved);
    } else if writerSeen {
    } else if r.status == Prepared {
      var failed := r.(status := Failed, managed := true, updatedAt := now);
      WriteKeepsSound(from, w, failed);
      NotifyIsLawful(from, Observe(w, Write(failed)), failed, now, a);
      First(from, w, Write(failed), Notify(from, failed, w.disk.resolved, now, a));
    } else {
      var j := Judged(r, now, a);
      JudgingOvertaken(from, w, v, a);
      var w1 := After(w, Judging(r, now, a));
      NotifyIsLawful(from, w1, j, now, a);
      AfterConcat(from, w, Judging(r, now, a), Notify(from, j, w.disk.resolved, now, a));
    }
  }

  lemma OverwriteIsPermitted(from: From, w: World, seen: World, v: View, a: Answers)
    requires Sound(w) && w.held.None? && w.overtaken && Overtaken(w, v) && v.record.status == Sending && !w.alive
    requires v.now <= w.clock && (w.deadFrom.Some? ==> w.deadFrom.value <= v.now)
    requires seen == if a.landed then w else Observe(w, Sighted(a.nativeDead, v.now))
    ensures var j := Judged(v.record, v.now, a);
            (j.status == Unresolved || j.status == Delivered) && Permits(from, seen, Write(j))
            && Ready(Observe(seen, Write(j)), j)
    ensures Permits(from, w, Sighted(a.nativeDead, v.now)) && SameScene(w, seen) && Sound(seen)
  {
    SightingKeepsScene(from, w, seen, w.disk.record.value, v.now, a);
    var j := Judged(v.record, v.now, a);
    assert Overwrites(seen, j);
    WriteKeepsSound(from, seen, j);
  }

  lemma JudgingOvertaken(from: From, w: World, v: View, a: Answers)
    requires Sound(w) && w.held.None? && w.overtaken && Overtaken(w, v) && v.record.status == Sending && !w.alive
    requires v.now <= w.clock && (w.deadFrom.Some? ==> w.deadFrom.value <= v.now)
    ensures var j := Judged(v.record, v.now, a); j.status == Unresolved || j.status == Delivered
    ensures Lawful(from, w, Judging(v.record, v.now, a))
    ensures Ready(After(w, Judging(v.record, v.now, a)), Judged(v.record, v.now, a))
    ensures SameScene(w, After(w, Judging(v.record, v.now, a)))
  {
    var r, now := v.record, v.now;
    var j, sighted := Judged(r, now, a), Sighted(a.nativeDead, now);
    var seen := if a.landed then w else Observe(w, sighted);
    var look := if a.landed then [] else [sighted];
    assert Judging(r, now, a) == look + [Write(j)];
    OverwriteIsPermitted(from, w, seen, v, a);
    hide Permits, Observe, RecordSound, Judged, Judging, Sound, Overtaken;
    One(from, w, sighted);
    One(from, seen, Write(j));
    AfterConcat(from, w, look, [Write(j)]);
    WriteKeepsSound(from, seen, j);
    WriteScene(seen, j);
  }

  lemma ReconcileIsLawful(from: From, w: World, v: View, writerSeen: bool, a: Answers)
    requires Sound(w) && w.held.None? && w.disk.record == Some(v.record) && (v.resolved ==> w.disk.resolved)
    requires v.now <= w.clock && (w.deadFrom.Some? ==> w.deadFrom.value <= v.now) && (w.alive ==> writerSeen)
    ensures Lawful(from, w, Reconcile(from, v, w.disk, writerSeen, a))
  {
    hide Notify, Release, Judging, Judged, SlotSound, SlotMoves, After;
    var r, now := v.record, v.now;
    if v.resolved {
      ReleaseIsLawful(from, w, a.toResolved);
    } else if Settled(r) {
      One(from, w, Remove(a.operator));
    } else if r.status == Sending && now - r.createdAt < ALERT_AFTER_MS && writerSeen {
    } else {
      match r.status
      case Prepared =>
        if !writerSeen {
          var failed := r.(status := Failed, managed := true, updatedAt := now);
          WriteKeepsSound(from, w, failed);
          var w1 := Observe(w, Write(failed));
          NotifyIsLawful(from, w1, failed, now, a);
          First(from, w, Write(failed), Notify(from, failed, w.disk.resolved, now, a));
        }
      case Delivered => NotifyIsLawful(from, w, r, now, a);
      case Failed => NotifyIsLawful(from, w, r, now, a);
      case _ =>
        var j := Judged(r, now, a);
        JudgingIsLawful(from, w, r, now, a);
        var w1 := After(w, Judging(r, now, a));
        if j.status != Pending {
          NotifyIsLawful(from, w1, j, now, a);
          AfterConcat(from, w, Judging(r, now, a), Notify(from, j, w.disk.resolved, now, a));
        } else {
          AfterConcat(from, w, Judging(r, now, a), []);
        }
    }
  }

  // ---------------------------------------------------------------- runs

  /** What can happen: the writer prepares, passes the send checkpoint, finishes or dies; an orphaned input is filed
      as pending; the operator closes the case; a pass lists the record, and later acts on it, cut anywhere. */
  datatype Action =
    | Import(created: int) | Prepare | BeginSend | Finish(status: Status) | Die | Close
    | List | Act(answers: Answers, cut: nat)

  datatype Step = Step(at: int, action: Action)

  function ActEvents(from: From, w: World, a: Answers): seq<Event> {
    [Take] + if w.held.None? then [] else Reconcile(from, w.held.value, w.disk, w.alive || a.pidReused, a)
  }

  predicate MayFinish(w: World, status: Status) {
    w.begun && w.alive && !w.finished
      && (status == Rejected || (w.entered && (status == Pending || status == Delivered)))
  }

  /** The writer writes its own copy of the record, which never holds slots or a recorded death. */
  function WriterRec(status: Status, created: int, updated: int): Rec {
    Rec(status, status == Pending, created, updated, None, Unset, Unset, None)
  }

  function ActionEvents(from: From, w: World, s: Step): seq<Event> {
    match s.action
    case Import(created) => if w.disk.record.Some? then [] else [Imports(WriterRec(Pending, created, s.at))]
    case Prepare => if w.begun then [] else [WriterWrites(WriterRec(Prepared, s.at, s.at), false)]
    case BeginSend =>
      if w.begun && w.alive && !w.finished && !w.entered then
        [WriterWrites(WriterRec(Sending, w.created, w.created), false)]
      else []
    case Finish(status) => if MayFinish(w, status) then [WriterWrites(WriterRec(status, w.created, s.at), true)] else []
    case Die => [WriterDies]
    case Close => if w.disk.record.Some? then [Resolve] else []
    case List => [Look]
    case Act(a, _) => ActEvents(from, w, a)
  }

  function StepEvents(from: From, w: World, s: Step): seq<Event> {
    var events := ActionEvents(from, Observe(w, Tick(s.at)), s);
    [Tick(s.at)] + if s.action.Act? && s.action.cut < |events| then events[..s.action.cut] else events
  }

  /** Time does not run backwards, and the writer's own writes come within the alert time of its first one. */
  predicate Prompt(w: World, s: Step) {
    s.at >= w.clock
    && ((s.action.BeginSend? || s.action.Finish?) && w.begun ==> s.at - w.created < ALERT_AFTER_MS)
  }

  ghost predicate PromptRun(from: From, steps: seq<Step>) {
    steps == [] || (PromptRun(from, steps[..|steps| - 1])
                    && Prompt(After(START, Trace(from, steps[..|steps| - 1])), steps[|steps| - 1]))
  }

  /** Moreover a pass acts on a copy that nobody has overtaken. */
  predicate Disciplined(w: World, s: Step) {
    Prompt(w, s) && (s.action.Act? ==> FreshView(w))
  }

  ghost predicate DisciplinedRun(from: From, steps: seq<Step>) {
    steps == [] || (DisciplinedRun(from, steps[..|steps| - 1])
                    && Disciplined(After(START, Trace(from, steps[..|steps| - 1])), steps[|steps| - 1]))
  }

  function Trace(from: From, steps: seq<Step>): seq<Event> {
    if steps == [] then []
    else
      var before := Trace(from, steps[..|steps| - 1]);
      before + StepEvents(from, After(START, before), steps[|steps| - 1])
  }

  lemma ActionIsLawful(from: From, w: World, s: Step)
    requires Sound(w) && w.clock == s.at
    requires (s.action.BeginSend? || s.action.Finish?) && w.begun ==> s.at - w.created < ALERT_AFTER_MS
    ensures Lawful(from, w, ActionEvents(from, w, s))
  {
    match s.action
    case Act(a, _) => ActIsLawful(from, w, a);
    case Import(created) => One(from, w, Imports(WriterRec(Pending, created, s.at)));
    case Prepare => One(from, w, WriterWrites(WriterRec(Prepared, s.at, s.at), false));
    case BeginSend => One(from, w, WriterWrites(WriterRec(Sending, w.created, w.created), false));
    case Finish(status) => One(from, w, WriterWrites(WriterRec(status, w.created, s.at), true));
    case Die => One(from, w, WriterDies);
    case Close => One(from, w, Resolve);
    case List => One(from, w, Look);
  }

  lemma StepIsLawful(from: From, w: World, s: Step)
    requires Sound(w) && Prompt(w, s)
    ensures Lawful(from, w, StepEvents(from, w, s))
  {
    var w1 := Observe(w, Tick(s.at));
    OtherKeepsSound(from, w, Tick(s.at));
    ActionIsLawful(from, w1, s);
    var events := ActionEvents(from, w1, s);
    hide ActionEvents, Lawful, After;
    if s.action.Act? && s.action.cut < |events| {
      LawfulPrefix(from, w1, events, s.action.cut);
      First(from, w, Tick(s.at), events[..s.action.cut]);
    } else {
      First(from, w, Tick(s.at), events);
    }
  }

  lemma {:induction false} PromptRunIsLawful(from: From, steps: seq<Step>)
    requires PromptRun(from, steps)
    ensures Lawful(from, START, Trace(from, steps)) && Sound(After(START, Trace(from, steps)))
  {
    if steps != [] {
      var init, last := steps[..|steps| - 1], steps[|steps| - 1];
      var before := Trace(from, init);
      PromptRunIsLawful(from, init);
      var w := After(START, before);
      StepIsLawful(from, w, last);
      hide StepEvents, Lawful, After, Sound;
      AfterConcat(from, START, before, StepEvents(from, w, last));
      SoundAfter(from, w, StepEvents(from, w, last));
    }
  }

  // ---------------------------------------------------------------- what the law means

  function At(from: From, steps: seq<Step>, k: nat): World
    requires k <= |Trace(from, steps)|
  {
    After(START, Trace(from, steps)[..k])
  }

  lemma Moment(from: From, steps: seq<Step>, k: nat)
    requires PromptRun(from, steps) && k <= |Trace(from, steps)|
    ensures Sound(At(from, steps, k))
    ensures k < |Trace(from, steps)| ==>
              Permits(from, At(from, steps, k), Trace(from, steps)[k])
              && At(from, steps, k + 1) == Observe(At(from, steps, k), Trace(from, steps)[k])
  {
    hide Trace, Sound, Permits, Observe, PromptRun;
    var t := Trace(from, steps);
    PromptRunIsLawful(from, steps);
    LawfulPrefix(from, START, t, k);
    StartIsSound();
    SoundAfter(from, START, t[..k]);
    if k < |t| {
      LawfulPrefix(from, START, t, k + 1);
      assert t[..k + 1] == t[..k] + [t[k]];
      AfterConcat(from, START, t[..k], [t[k]]);
      One(from, At(from, steps, k), t[k]);
    }
  }

  lemma StartIsSound()
    ensures Sound(START)
  {
  }

  lemma Begins(from: From, steps: seq<Step>)
    ensures At(from, steps, 0) == START
  {
  }

  lemma {:induction false} DisciplinedIsPrompt(from: From, steps: seq<Step>)
    requires DisciplinedRun(from, steps)
    ensures PromptRun(from, steps)
  {
    hide Trace, After, FreshView;
    if steps != [] {
      DisciplinedIsPrompt(from, steps[..|steps| - 1]);
    }
  }

  /** In a disciplined run no pass ever acts on an overtaken copy. */
  lemma {:induction false} NeverOvertaken(from: From, steps: seq<Step>, k: nat)
    requires DisciplinedRun(from, steps) && k <= |Trace(from, steps)|
    ensures !At(from, steps, k).overtaken
    decreases |steps|
  {
    hide StepEvents, After, Disciplined;
    if steps == [] {
      Begins(from, steps);
      assert k == 0;
    } else {
      var init, last := steps[..|steps| - 1], steps[|steps| - 1];
      var before := Trace(from, init);
      var w, t := After(START, before), Trace(from, steps);
      assert t == before + StepEvents(from, w, last);
      if k <= |before| {
        assert t[..k] == before[..k];
        NeverOvertaken(from, init, k);
      } else {
        var i := k - |before|;
        assert before[..|before|] == before;
        NeverOvertaken(from, init, |before|);
        assert t[..k] == before + StepEvents(from, w, last)[..i];
        AfterConcat(from, START, before, StepEvents(from, w, last)[..i]);
        StepNotOvertaken(from, w, last, i);
      }
    }
  }

  lemma StepNotOvertaken(from: From, w: World, s: Step, i: nat)
    requires Disciplined(w, s) && !w.overtaken && i <= |StepEvents(from, w, s)|
    ensures !After(w, StepEvents(from, w, s)[..i]).overtaken
  {
    if i > 0 {
      var w1 := Observe(w, Tick(s.at));
      var actions, done := ActionEvents(from, w1, s), StepEvents(from, w, s)[..i];
      hide ActionEvents, After;
      var rest := if s.action.Act? && s.action.cut < |actions| then actions[..s.action.cut] else actions;
      assert StepEvents(from, w, s) == [Tick(s.at)] + rest;
      assert done == [Tick(s.at)] + rest[..i - 1];
      assert rest[..i - 1] == actions[..i - 1];
      First(from, w, Tick(s.at), actions[..i - 1]);
      ActionNotOvertaken(from, w1, s, i - 1);
    }
  }

  lemma ActionNotOvertaken(from: From, w: World, s: Step, i: nat)
    requires !w.overtaken && (s.action.Act? ==> FreshView(w)) && i <= |ActionEvents(from, w, s)|
    ensures !After(w, ActionEvents(from, w, s)[..i]).overtaken
  {
    hide After, Reconcile;
    var done := ActionEvents(from, w, s)[..i];
    if s.action.Act? && i > 0 {
      assert done == [Take] + done[1..];
      First(from, w, Take, done[1..]);
      if w.held.Some? {
        var a := s.action.answers;
        ReconcileEvents(from, w.held.value, w.disk, w.alive || a.pidReused, a);
        assert forall e :: e in done[1..] ==> e in Reconcile(from, w.held.value, w.disk, w.alive || a.pidReused, a);
      }
      NoTake(Observe(w, Take), done[1..]);
    } else {
      NoTake(w, done);
    }
  }

  lemma {:induction false} NoTake(w: World, events: seq<Event>)
    requires forall e :: e in events ==> !e.Take?
    ensures After(w, events).overtaken == w.overtaken
    decreases |events|
  {
    hide Observe;
    if events != [] {
      assert !events[0].Take?;
      OvertakenStep(w, events[0]);
      NoTake(Observe(w, events[0]), events[1..]);
    }
  }

  lemma OvertakenStep(w: World, e: Event)
    requires !e.Take?
    ensures Observe(w, e).overtaken == w.overtaken
  {
    match e
    case Tick(_) =>
    case _ =>
  }

  /** How far a status is along its way; the last three are final. */
  function Progress(s: Status): nat {
    match s
    case Prepared => 0
    case Sending => 1
    case Pending => 2
    case Unresolved => 3
    case _ => 4
  }

  /** The status moves forward, a final one is kept, and a removed record does not come back. An import starts anew. */
  predicate Onward(before: World, after: World) {
    (before.begun ==> after.begun)
    && (before.begun && before.disk.record.None? ==> after.disk.record.None?)
    && (before.disk.record.Some? && after.disk.record.Some? ==>
          var b, a := before.disk.record.value.status, after.disk.record.value.status;
          Progress(b) <= Progress(a) && (Progress(b) == 4 ==> a == b))
    && (before.disk.record.Some? ==> before.begun)
  }

  lemma OnwardStep(from: From, w: World, e: Event)
    requires Sound(w) && Permits(from, w, e) && !e.Imports? && !w.overtaken
    ensures Onward(w, Observe(w, e))
  {
    hide SlotMoves, SlotSound;
  }

  lemma OnwardTwice(a: World, b: World, c: World)
    requires Onward(a, b) && Onward(b, c)
    ensures Onward(a, c)
  {
  }

  /** Over a disciplined run, from one import of the delivery to the next, the status never moves backwards, and a
      removed record stays removed. */
  lemma {:induction false} StatusIsMonotone(from: From, steps: seq<Step>, i: nat, j: nat)
    requires DisciplinedRun(from, steps) && i <= j <= |Trace(from, steps)|
    requires forall m :: i <= m < j ==> !Trace(from, steps)[m].Imports?
    ensures Onward(At(from, steps, i), At(from, steps, j))
    decreases j - i
  {
    hide At, Trace, Permits, Observe, DisciplinedRun, PromptRun, Onward, Sound;
    DisciplinedIsPrompt(from, steps);
    Moment(from, steps, i);
    if i < j {
      StatusIsMonotone(from, steps, i, j - 1);
      Moment(from, steps, j - 1);
      NeverOvertaken(from, steps, j - 1);
      OnwardStep(from, At(from, steps, j - 1), Trace(from, steps)[j - 1]);
      OnwardTwice(At(from, steps, i), At(from, steps, j - 1), At(from, steps, j));
    } else {
      OnwardSelf(At(from, steps, i));
    }
  }

  lemma OnwardSelf(w: World)
    requires Sound(w)
    ensures Onward(w, w)
  {
  }

  /** A notice of the core never takes an operator slot, so it is never told to the operator. */
  lemma {:induction false} CoreSlotStaysUnset(steps: seq<Step>, k: nat)
    requires PromptRun(Core, steps) && k <= |Trace(Core, steps)| && At(Core, steps, k).disk.record.Some?
    ensures At(Core, steps, k).disk.record.value.operator == Unset
  {
    hide At, Trace, PromptRun, Sound, Permits, Observe;
    if k == 0 {
      Begins(Core, steps);
    } else {
      Moment(Core, steps, k - 1);
      if At(Core, steps, k - 1).disk.record.Some? {
        CoreSlotStaysUnset(steps, k - 1);
      }
      CoreSlotStep(At(Core, steps, k - 1), Trace(Core, steps)[k - 1]);
    }
  }

  lemma CoreSlotStep(w: World, e: Event)
    requires Permits(Core, w, e) && (w.disk.record.Some? ==> w.disk.record.value.operator == Unset)
    ensures Observe(w, e).disk.record.Some? ==> Observe(w, e).disk.record.value.operator == Unset
  {
    hide SlotMoves, Moves, Owed, Settled;
    match e
    case Write(r) =>
    case _ =>
  }

  /** `Failed` is honest: the writer died before the send checkpoint, so nothing was pasted. */
  lemma FailedMeansNeverEntered(from: From, steps: seq<Step>, k: nat)
    requires DisciplinedRun(from, steps) && k <= |Trace(from, steps)|
    requires At(from, steps, k).disk.record.Some? && At(from, steps, k).disk.record.value.status == Failed
    ensures !At(from, steps, k).entered && !At(from, steps, k).alive
  {
    hide At, Trace, DisciplinedRun, PromptRun;
    DisciplinedIsPrompt(from, steps);
    Moment(from, steps, k);
    NeverOvertaken(from, steps, k);
  }

  datatype Notice = ToCaller | ToOperator | OnClosure

  /** A notice of that kind that was accepted, or whose fate is unknown. */
  predicate Custody(e: Event, n: Notice) {
    match e
    case SendCaller(o) => n == ToCaller && o != Refused
    case SendOperator(o) => n == ToOperator && o != Refused
    case SendResolution(o) => n == OnClosure && o != Refused
    case _ => false
  }

  /** An import files the delivery anew; the release after a closure is not forgotten by it. */
  predicate Anew(e: Event, n: Notice) {
    e.Imports? && n != OnClosure
  }

  /** The notices of a kind since the record was filed. */
  function Sends(t: seq<Event>, n: Notice): nat {
    if t == [] || Anew(t[|t| - 1], n) then 0 else Sends(t[..|t| - 1], n) + if Custody(t[|t| - 1], n) then 1 else 0
  }

  function Total(w: World, n: Notice): nat {
    match n
    case ToCaller => w.caller.total
    case ToOperator => w.operator.total
    case OnClosure => w.notice.total
  }

  lemma TotalStep(w: World, e: Event, n: Notice)
    ensures Total(Observe(w, e), n) == if Anew(e, n) then 0 else Total(w, n) + if Custody(e, n) then 1 else 0
  {
  }

  lemma {:induction false} TotalsAreSends(from: From, steps: seq<Step>, n: Notice, k: nat)
    requires PromptRun(from, steps) && k <= |Trace(from, steps)|
    ensures Sends(Trace(from, steps)[..k], n) == Total(At(from, steps, k), n)
  {
    hide At, Trace, PromptRun, Sound, Permits, Observe, Custody, Anew, Total;
    if k == 0 {
      Begins(from, steps);
      StartsAtZero(n);
    } else {
      var t := Trace(from, steps);
      TotalsAreSends(from, steps, n, k - 1);
      Moment(from, steps, k - 1);
      TotalStep(At(from, steps, k - 1), t[k - 1], n);
      assert t[..k][..k - 1] == t[..k - 1] && t[..k][k - 1] == t[k - 1];
    }
  }

  lemma StartsAtZero(n: Notice)
    ensures Total(START, n) == 0
  {
  }

  /** Wherever passes are cut, at every moment since a record was filed: at most two accepted-or-uncertain notices to
      the caller and one to the operator, and one on closure ever. */
  lemma NoticesAreBounded(from: From, steps: seq<Step>, n: Notice, k: nat)
    requires PromptRun(from, steps) && k <= |Trace(from, steps)|
    ensures Sends(Trace(from, steps)[..k], n) <= if n == ToCaller then 2 else 1
  {
    hide At, Trace, PromptRun, Sends;
    Moment(from, steps, k);
    TotalsAreSends(from, steps, n, k);
  }

  /** Every notice leaves with its slot durably claimed and the case not closed; only a closed case is released. */
  lemma SendIsClaimed(from: From, steps: seq<Step>, k: nat)
    requires PromptRun(from, steps) && k < |Trace(from, steps)|
    ensures var e, d := Trace(from, steps)[k], At(from, steps, k).disk;
            (e.SendCaller? ==> d.record.Some? && d.record.value.caller == Claimed && !d.resolved && from == Caller)
            && (e.SendOperator? ==> d.record.Some? && d.record.value.operator == Claimed && !d.resolved && from != Core
                                    && (d.record.value.status == Failed || d.record.value.status == Unresolved))
            && (e.SendResolution? ==> d.notice == Claimed && d.resolved && from == Caller)
  {
    hide At, Trace, PromptRun, Sound;
    Moment(from, steps, k);
  }

  /** A closure is never taken back. */
  lemma {:induction false} ClosedStays(from: From, steps: seq<Step>, i: nat, j: nat)
    requires PromptRun(from, steps) && i <= j <= |Trace(from, steps)| && At(from, steps, i).disk.resolved
    ensures At(from, steps, j).disk.resolved
    decreases j - i
  {
    hide At, Trace, PromptRun, Sound, Permits, Observe;
    if i < j {
      ClosedStays(from, steps, i, j - 1);
      Moment(from, steps, j - 1);
      ClosedStep(At(from, steps, j - 1), Trace(from, steps)[j - 1]);
    }
  }

  lemma ClosedStep(w: World, e: Event)
    ensures w.disk.resolved || e.Resolve? ==> Observe(w, e).disk.resolved
  {
    if !e.WriterWrites? && !e.Imports? {
      DiskAfter(w, e);
      hide Observe;
    }
  }

  /** Once the operator has closed the case, even while its caller was being told of it, neither the caller nor the
      operator is notified again. */
  lemma ClosureSilences(from: From, steps: seq<Step>, i: nat, j: nat)
    requires PromptRun(from, steps) && i < j < |Trace(from, steps)| && Trace(from, steps)[i].Resolve?
    ensures !Trace(from, steps)[j].SendCaller? && !Trace(from, steps)[j].SendOperator?
  {
    hide At, Trace, PromptRun, Sound, Observe;
    Moment(from, steps, i);
    ClosedStep(At(from, steps, i), Trace(from, steps)[i]);
    ClosedStays(from, steps, i + 1, j);
    Moment(from, steps, j);
  }

  predicate Counts(e: Event) {
    (e.SendCaller? || e.SendOperator?) && e.outcome != Refused
  }

  /** A write that changes the status, or an import that files the record anew. */
  predicate Changes(w: World, e: Event) {
    e.Imports? || (e.Write? && w.disk.record.Some? && w.disk.record.value.status != e.r.status)
  }

  lemma {:induction false} DoneStays(from: From, steps: seq<Step>, i: nat, j: nat)
    requires PromptRun(from, steps) && i < j <= |Trace(from, steps)| && Counts(Trace(from, steps)[i])
    requires forall m :: i < m < j ==> !Changes(At(from, steps, m), Trace(from, steps)[m])
    ensures Trace(from, steps)[i].SendCaller? ==> At(from, steps, j).caller.done > 0
    ensures Trace(from, steps)[i].SendOperator? ==> At(from, steps, j).operator.done > 0
    decreases j
  {
    hide At, Trace, PromptRun, Sound, Permits, Observe, Changes;
    Moment(from, steps, j - 1);
    DoneStep(from, At(from, steps, j - 1), Trace(from, steps)[j - 1]);
    if j > i + 1 {
      DoneStays(from, steps, i, j - 1);
      assert !Changes(At(from, steps, j - 1), Trace(from, steps)[j - 1]);
    }
  }

  lemma DoneStep(from: From, w: World, e: Event)
    requires Permits(from, w, e)
    ensures !Changes(w, e) ==>
            Observe(w, e).caller.done >= w.caller.done && Observe(w, e).operator.done >= w.operator.done
    ensures Counts(e) && e.SendCaller? ==> Observe(w, e).caller.done > 0
    ensures Counts(e) && e.SendOperator? ==> Observe(w, e).operator.done > 0
  {
  }

  /** Within one status a slot gets one accepted-or-uncertain notice: between two of them the status changed. */
  lemma OncePerStatus(from: From, steps: seq<Step>, i: nat, j: nat)
    requires PromptRun(from, steps) && i < j < |Trace(from, steps)| && Counts(Trace(from, steps)[i])
    requires var t := Trace(from, steps); if t[i].SendCaller? then t[j].SendCaller? else t[j].SendOperator?
    ensures exists m :: i < m < j && Changes(At(from, steps, m), Trace(from, steps)[m])
  {
    hide At, Trace, PromptRun, Sound, Changes;
    Moment(from, steps, j);
    if forall m :: i < m < j ==> !Changes(At(from, steps, m), Trace(from, steps)[m]) {
      DoneStays(from, steps, i, j);
    }
  }

  /** From `p` to `k` every look at the native processes saw all of them dead, first by the pass begun at `since`. */
  predicate DeadFrom(t: seq<Event>, p: nat, k: nat, since: int) {
    p < k <= |t| && t[p] == Sighted(true, since) && forall m :: p < m < k && t[m].Sighted? ==> t[m].dead
  }

  lemma {:induction false} DeathWasSeen(from: From, steps: seq<Step>, k: nat)
    requires PromptRun(from, steps) && k <= |Trace(from, steps)| && At(from, steps, k).deadFrom.Some?
    ensures exists p: nat :: DeadFrom(Trace(from, steps), p, k, At(from, steps, k).deadFrom.value)
  {
    hide At, Trace, PromptRun, Sound, Permits;
    if k == 0 {
      Begins(from, steps);
    } else {
      hide Observe;
      var t, w := Trace(from, steps), At(from, steps, k - 1);
      Moment(from, steps, k - 1);
      DeathStep(w, t[k - 1]);
      if w.deadFrom.Some? {
        DeathWasSeen(from, steps, k - 1);
        var p: nat :| DeadFrom(t, p, k - 1, w.deadFrom.value);
        assert DeadFrom(t, p, k, w.deadFrom.value);
      } else {
        assert DeadFrom(t, k - 1, k, At(from, steps, k).deadFrom.value);
      }
    }
  }

  lemma DeathStep(w: World, e: Event)
    ensures var next := Observe(w, e).deadFrom;
            next == w.deadFrom || (e.Sighted? && next == if e.dead then Some(e.now) else None)
    ensures e.Sighted? && !e.dead ==> Observe(w, e).deadFrom == None
    ensures e.Sighted? && w.deadFrom.Some? && e.dead ==> Observe(w, e).deadFrom == w.deadFrom
  {
    match e
    case Sighted(_, _) =>
    case _ =>
  }

  /** A pending record declared unresolved before the alert time has been dead for at least the drain time, with no
      pass seeing a live process in between, unless a sighting was lost to a crash. */
  lemma EarlyUnresolvedWasDrained(from: From, steps: seq<Step>, k: nat)
    requires DisciplinedRun(from, steps) && k < |Trace(from, steps)| && Trace(from, steps)[k].Write?
    requires var w, r := At(from, steps, k), Trace(from, steps)[k].r;
             w.disk.record.Some? && w.disk.record.value.status == Pending && r.status == Unresolved
             && r.updatedAt - r.createdAt < ALERT_AFTER_MS && !w.lost
    ensures exists p: nat, since ::
              DeadFrom(Trace(from, steps), p, k, since) && Trace(from, steps)[k].r.updatedAt - since >= DEAD_DRAIN_MS
  {
    hide At, Trace, DisciplinedRun, PromptRun, Sound, DeadFrom;
    DisciplinedIsPrompt(from, steps);
    Moment(from, steps, k);
    NeverOvertaken(from, steps, k);
    DeathWasSeen(from, steps, k);
  }

  /** A pass saw a live process while a death was recorded and was cut before it wrote that down: what follows is the
      next step, or nothing yet. No later write up to `k` clears the recorded death either. */
  ghost predicate CutSighting(from: From, steps: seq<Step>, m: nat, k: nat)
    requires k <= |Trace(from, steps)|
  {
    var t := Trace(from, steps);
    m < k && t[m].Sighted? && !t[m].dead && RecordsDeath(At(from, steps, m))
    && (m + 1 < k ==> t[m + 1].Tick?) && forall x :: m < x < k ==> !Clears(t[x])
  }

  predicate RecordsDeath(w: World) {
    w.disk.record.Some? && w.disk.record.value.deadSince.Some?
  }

  predicate Clears(e: Event) {
    e.Write? && e.r.deadSince.None?
  }

  /** A sighting is lost exactly when a pass was cut between seeing a live process and writing it. */
  lemma {:induction false} LostIffCut(from: From, steps: seq<Step>, k: nat)
    requires PromptRun(from, steps) && k <= |Trace(from, steps)|
    ensures At(from, steps, k).lost <==> exists m: nat :: CutSighting(from, steps, m, k)
  {
    hide At, Trace, PromptRun, Sound, Permits, Observe, RecordsDeath, Clears;
    if k == 0 {
      Begins(from, steps);
    } else {
      var t, w := Trace(from, steps), At(from, steps, k - 1);
      LostIffCut(from, steps, k - 1);
      Moment(from, steps, k - 1);
      LostStep(w, t[k - 1]);
      forall m: nat | m < k - 1 && t[m].Sighted? && !t[m].dead && RecordsDeath(At(from, steps, m))
        ensures t[m + 1].Tick? || Clears(t[m + 1])
      {
        SightingIsWritten(from, steps, m);
      }
      if w.lost && !Clears(t[k - 1]) {
        var m: nat :| CutSighting(from, steps, m, k - 1);
        assert CutSighting(from, steps, m, k);
      } else if At(from, steps, k).lost {
        assert CutSighting(from, steps, k - 1, k);
      }
      forall m: nat | CutSighting(from, steps, m, k)
        ensures At(from, steps, k).lost
      {
        assert m < k - 1 ==> CutSighting(from, steps, m, k - 1);
      }
    }
  }

  lemma LostStep(w: World, e: Event)
    ensures Observe(w, e).lost <==> (w.lost && !Clears(e)) || (e.Sighted? && !e.dead && RecordsDeath(w))
  {
    match e
    case Sighted(_, _) =>
    case Write(_) =>
    case _ =>
  }

  /** Unless the pass is cut there, what it writes next clears the recorded death. */
  lemma {:induction false} SightingIsWritten(from: From, steps: seq<Step>, m: nat)
    requires PromptRun(from, steps) && m + 1 < |Trace(from, steps)|
    requires Trace(from, steps)[m].Sighted? && !Trace(from, steps)[m].dead && RecordsDeath(At(from, steps, m))
    ensures Trace(from, steps)[m + 1].Tick? || Clears(Trace(from, steps)[m + 1])
    decreases |steps|
  {
    hide StepEvents, After, Prompt, RecordsDeath, Clears, Sound, Lawful;
    var init, last := steps[..|steps| - 1], steps[|steps| - 1];
    var before := Trace(from, init);
    PromptRunIsLawful(from, init);
    var w, t := After(START, before), Trace(from, steps);
    var events := StepEvents(from, w, last);
    assert t == before + events;
    assert events != [] && events[0].Tick? by {
      StepTicks(from, w, last);
    }
    if m + 1 < |before| {
      assert t[..m] == before[..m];
      SightingIsWritten(from, init, m);
    } else if m + 1 > |before| {
      var i := m - |before|;
      assert t[..m] == before + events[..i];
      AfterConcat(from, START, before, events[..i]);
      SightingInStep(from, w, last, i);
    }
  }

  lemma StepTicks(from: From, w: World, s: Step)
    ensures StepEvents(from, w, s) != [] && StepEvents(from, w, s)[0].Tick?
  {
    hide ActionEvents;
  }

  lemma SightingInStep(from: From, w: World, s: Step, i: nat)
    requires Sound(w) && Prompt(w, s) && i < |StepEvents(from, w, s)|
    requires StepEvents(from, w, s)[i].Sighted? && !StepEvents(from, w, s)[i].dead
    requires RecordsDeath(After(w, StepEvents(from, w, s)[..i]))
    ensures i + 1 < |StepEvents(from, w, s)| ==> Clears(StepEvents(from, w, s)[i + 1])
  {
    var w1 := Observe(w, Tick(s.at));
    var actions, events := ActionEvents(from, w1, s), StepEvents(from, w, s);
    hide ActionEvents, After, Reconcile, RecordSound, SlotSound;
    assert 0 < i && forall x :: 1 <= x < |events| ==> x - 1 < |actions| && events[x] == actions[x - 1];
    ActsSight(from, w1, s, i - 1);
    assert events[..2] == [Tick(s.at)] + [Take];
    Pair(w, Tick(s.at), Take);
    PassSights(from, w1, s.action.answers, i - 2);
  }

  lemma ActsSight(from: From, w: World, s: Step, i: nat)
    requires i < |ActionEvents(from, w, s)| && ActionEvents(from, w, s)[i].Sighted?
    ensures s.action.Act? && i >= 1 && ActionEvents(from, w, s)[0] == Take && w.held.Some?
    ensures var events :=
            Reconcile(from, w.held.value, w.disk, w.alive || s.action.answers.pidReused, s.action.answers);
            ActionEvents(from, w, s) == [Take] + events
  {
    hide Reconcile;
  }

  /** A pass looks once, first of all, and writes what it saw next. */
  lemma PassSights(from: From, w: World, a: Answers, i: nat)
    requires w.held.Some? && (FreshView(w) || Overtaken(w, w.held.value))
    requires i < |Reconcile(from, w.held.value, w.disk, w.alive || a.pidReused, a)|
    requires Reconcile(from, w.held.value, w.disk, w.alive || a.pidReused, a)[i].Sighted?
    ensures i == 0
    ensures var events := Reconcile(from, w.held.value, w.disk, w.alive || a.pidReused, a);
            !events[0].dead && RecordsDeath(w) ==> |events| >= 2 && Clears(events[1])
  {
    NoSightings(from, a);
    hide Notify, Release;
  }

  lemma NoSightings(from: From, a: Answers)
    ensures forall r: Rec, resolved, now :: forall e :: e in Notify(from, r, resolved, now, a) ==> !e.Sighted?
    ensures forall slot, o :: forall e :: e in Release(from, slot, o) ==> !e.Sighted?
  {
    forall r: Rec, resolved, now, e | e in Notify(from, r, resolved, now, a)
      ensures !e.Sighted?
    {
      NotifySightsNothing(from, r, resolved, now, a);
    }
  }

  lemma NotifySightsNothing(from: From, r: Rec, resolved: bool, now: int, a: Answers)
    ensures forall e :: e in Notify(from, r, resolved, now, a) ==> !e.Sighted?
  {
    var toCaller := from == Caller && !resolved;
    var r1 := r.(caller := SlotAfter(r.caller, toCaller, a.toCaller));
    var toOperator := OwesOperator(from, r, a) && !resolved && !ClosedMeanwhile(r, toCaller, a.closes);
    var r2 := r1.(operator := SlotAfter(r.operator, toOperator, a.toOperator));
    NoticesSightNothing(r, toCaller, a.closes, a.toCaller);
    NoticesSightNothing(r1, toOperator, false, a.toOperator);
    assert forall e :: e in Closing(from, r2, now, a) ==> !e.Sighted?;
    hide NotifyCaller, NotifyOperator, Closing, SlotAfter, OwesOperator;
  }

  lemma NoticesSightNothing(r: Rec, wanted: bool, closes: bool, o: Outcome)
    ensures forall e :: e in NotifyCaller(r, wanted, closes, o) ==> !e.Sighted?
    ensures forall e :: e in NotifyOperator(r, wanted, o) ==> !e.Sighted?
  {
    hide SlotAfter;
  }

  lemma {:induction false} AcceptedWasSent(from: From, steps: seq<Step>, k: nat)
    requires PromptRun(from, steps) && k <= |Trace(from, steps)|
    ensures At(from, steps, k).caller.accepted ==> SendCaller(Accepted) in Trace(from, steps)[..k]
    ensures At(from, steps, k).operator.accepted ==> SendOperator(Accepted) in Trace(from, steps)[..k]
  {
    hide At, Trace, PromptRun, Sound, Permits, Observe;
    if k == 0 {
      Begins(from, steps);
    } else {
      var t := Trace(from, steps);
      AcceptedWasSent(from, steps, k - 1);
      Moment(from, steps, k - 1);
      AcceptedStep(At(from, steps, k - 1), t[k - 1]);
      assert t[..k] == t[..k - 1] + [t[k - 1]];
    }
  }

  lemma AcceptedStep(w: World, e: Event)
    ensures Observe(w, e).caller.accepted ==> w.caller.accepted || e == SendCaller(Accepted)
    ensures Observe(w, e).operator.accepted ==> w.operator.accepted || e == SendOperator(Accepted)
  {
  }

  /** A record is removed after a week in its final state, and, unless the writer itself settled it, only when the
      notices it owes were accepted. */
  lemma RemovedOnlyWhenTold(from: From, steps: seq<Step>, k: nat)
    requires PromptRun(from, steps) && k < |Trace(from, steps)| && Trace(from, steps)[k].Remove?
    ensures var w, t := At(from, steps, k), Trace(from, steps);
            w.disk.record.Some? && w.clock - w.disk.record.value.updatedAt > FINAL_KEEP_MS
            && Progress(w.disk.record.value.status) == 4
            && (Settled(w.disk.record.value)
                || ((from == Caller ==> SendCaller(Accepted) in t[..k])
                    && (w.disk.record.value.status == Failed && t[k].operator ==> SendOperator(Accepted) in t[..k])))
  {
    hide At, Trace, PromptRun, Sound;
    Moment(from, steps, k);
    AcceptedWasSent(from, steps, k);
  }

  // ---------------------------------------------------------------- what an uncut pass does

  /** The pass looks at the native evidence: the record waits for it, and no live writer may still bring it on. */
  predicate Examined(v: View, writerSeen: bool) {
    v.record.status == Pending || v.record.status == Unresolved
    || (v.record.status == Sending && (v.now - v.record.createdAt >= ALERT_AFTER_MS || !writerSeen))
  }

  /** All native processes are dead, and were so for the drain time since a pass first saw it. */
  predicate Drained(v: View, a: Answers) {
    a.nativeDead && v.record.deadSince.Some? && v.now - v.record.deadSince.value >= DEAD_DRAIN_MS
  }

  /** The record a pass over an open case goes on to tell of. */
  function Told(v: View, writerSeen: bool, a: Answers): Option<Rec> {
    if v.record.status == Prepared then
      if writerSeen then None else Some(v.record.(status := Failed, managed := true, updatedAt := v.now))
    else if Examined(v, writerSeen) then
      var j := Judged(v.record, v.now, a); if j.status == Pending then None else Some(j)
    else if v.record.status == Failed || (v.record.status == Delivered && v.record.managed) then Some(v.record)
    else None
  }

  /** What is told, and when: a receipt, and only a receipt, makes an examined record delivered; without one it is
      unresolved exactly when it was so, the writer has left it sending, the alert time is over or the dead have
      drained; and a prepared one has failed exactly when its writer is gone. A change opens fresh slots. */
  lemma ToldIff(v: View, writerSeen: bool, a: Answers)
    ensures var told, r := Told(v, writerSeen, a), v.record;
            && (told.Some? && told.value.status == Delivered <==>
                  (Examined(v, writerSeen) && a.landed) || (r.status == Delivered && r.managed))
            && (told.Some? && told.value.status == Unresolved <==>
                  Examined(v, writerSeen) && !a.landed
                  && (r.status != Pending || v.now - r.createdAt >= ALERT_AFTER_MS || Drained(v, a)))
            && (told.Some? && told.value.status == Failed <==>
                  (r.status == Prepared && !writerSeen) || r.status == Failed)
            && (told.Some? ==> told.value.status in {Delivered, Unresolved, Failed})
            && (told.Some? && told.value.status != r.status && r.status != Prepared ==>
                  told.value.caller == Unset && told.value.operator == Unset && told.value.updatedAt == v.now
                  && told.value.alertAt == None)
            && (told.Some? && told.value.status == r.status ==>
                  told.value == r.(managed := told.value.managed, deadSince := told.value.deadSince))
  {
  }

  /** The record on file after the events, from the one before. */
  function Filed(rec: Option<Rec>, events: seq<Event>): Option<Rec>
    decreases |events|
  {
    if events == [] then rec else Filed(FiledBy(rec, events[0]), events[1..])
  }

  function FiledBy(rec: Option<Rec>, e: Event): Option<Rec> {
    match e
    case Write(r) => Some(r)
    case Remove(_) => None
    case _ => rec
  }

  lemma {:induction false} FiledConcat(rec: Option<Rec>, a: seq<Event>, b: seq<Event>)
    ensures Filed(rec, a + b) == Filed(Filed(rec, a), b)
    decreases |a|
  {
    if a == [] {
      assert a + b == b;
    } else {
      assert (a + b)[1..] == a[1..] + b;
      FiledConcat(FiledBy(rec, a[0]), a[1..], b);
    }
  }

  lemma {:induction false} AfterFiled(w: World, events: seq<Event>)
    requires forall e :: e in events ==> PassEvent(e)
    ensures After(w, events).disk.record == Filed(w.disk.record, events)
    decreases |events|
  {
    if events != [] {
      assert PassEvent(events[0]);
      DiskAfter(w, events[0]);
      hide Observe, PassEvent;
      AfterFiled(Observe(w, events[0]), events[1..]);
    }
  }

  /** On file is that record, but for the mark that it is managed. */
  predicate Files(rec: Option<Rec>, r: Rec) {
    rec.Some? && rec.value == r.(managed := rec.value.managed)
  }

  lemma JudgingFiles(r: Rec, now: int, a: Answers)
    requires r.status == Sending || r.status == Pending || r.status == Unresolved
    ensures Files(Filed(Some(r), Judging(r, now, a)), Judged(r, now, a))
  {
    var j := Judged(r, now, a);
    var look := if a.landed then [] else [Sighted(a.nativeDead, now)];
    var save := if j.status != r.status || j.deadSince != r.deadSince then [Write(j)] else [];
    FiledConcat(Some(r), look, save);
  }

  lemma CallerFiles(rec: Option<Rec>, r: Rec, wanted: bool, closes: bool, o: Outcome)
    requires Files(rec, r)
    ensures Files(Filed(rec, NotifyCaller(r, wanted, closes, o)), r.(caller := SlotAfter(r.caller, wanted, o)))
  {
    if wanted && r.caller == Unset {
      var claimed, told := r.(caller := Claimed), r.(caller := SlotAfter(Unset, true, o));
      FiledFour(rec, Write(claimed), SendCaller(o), if closes then [Resolve] else [], Write(told));
    }
  }

  lemma OperatorFiles(rec: Option<Rec>, r: Rec, wanted: bool, o: Outcome)
    requires Files(rec, r)
    ensures Files(Filed(rec, NotifyOperator(r, wanted, o)), r.(operator := SlotAfter(r.operator, wanted, o)))
  {
    if wanted && r.operator == Unset {
      var claimed, told := r.(operator := Claimed), r.(operator := SlotAfter(Unset, true, o));
      FiledFour(rec, Write(claimed), SendOperator(o), [], Write(told));
      assert [] + [Write(told)] == [Write(told)];
    }
  }

  lemma FiledFour(rec: Option<Rec>, a: Event, b: Event, c: seq<Event>, d: Event)
    requires d.Write?
    ensures Filed(rec, [a] + ([b] + (c + [d]))) == Some(d.r)
  {
    assert [a] + ([b] + (c + [d])) == ([a] + ([b] + c)) + [d];
    FiledConcat(rec, [a] + ([b] + c), [d]);
  }

  /** A caller of an open case is told when its slot is free. */
  predicate TellsCaller(from: From, r: Rec, resolved: bool) {
    from == Caller && !resolved && r.caller == Unset
  }

  /** An operator is told of what is not delivered, unless it comes from the core or the case is closed by then. */
  predicate TellsOperator(from: From, r: Rec, resolved: bool, a: Answers) {
    a.operator && from != Core && r.status != Delivered && r.operator == Unset
    && !resolved && !(a.closes && TellsCaller(from, r, resolved))
  }

  /** The record is final for a week and whoever is owed a notice has accepted one. */
  predicate Expires(from: From, r: Rec, resolved: bool, now: int, a: Answers) {
    && r.status != Unresolved && now - r.updatedAt > FINAL_KEEP_MS
    && (from == Caller ==> r.caller == Sent || (TellsCaller(from, r, resolved) && a.toCaller == Accepted))
    && (a.operator && r.status == Failed ==>
          r.operator == Sent || (TellsOperator(from, r, resolved, a) && a.toOperator == Accepted))
  }

  /** What the pass does with a record it tells of. */
  predicate Does(from: From, r: Rec, resolved: bool, now: int, a: Answers, e: Event) {
    match e
    case SendCaller(o) => TellsCaller(from, r, resolved) && o == a.toCaller
    case SendOperator(o) => TellsOperator(from, r, resolved, a) && o == a.toOperator
    case Remove(operator) => Expires(from, r, resolved, now, a) && operator == a.operator
    case Board => r.status != Delivered || (from == Caller && !resolved && r.caller == Claimed)
    case _ => false
  }

  predicate Tells(e: Event) {
    e.SendCaller? || e.SendOperator? || e.Remove? || e.Board?
  }

  /** How the record is left: the slots say who has been told, and an unresolved one when that was first reported. */
  predicate Leaves(from: From, r: Rec, resolved: bool, now: int, a: Answers, end: Rec) {
    && end == r.(managed := end.managed, caller := end.caller, operator := end.operator, alertAt := end.alertAt)
    && (end.caller == Sent <==> r.caller == Sent || (TellsCaller(from, r, resolved) && a.toCaller == Accepted))
    && (end.caller == Unset <==> r.caller == Unset && (TellsCaller(from, r, resolved) ==> a.toCaller == Refused))
    && (end.operator == Sent <==>
          r.operator == Sent || (TellsOperator(from, r, resolved, a) && a.toOperator == Accepted))
    && (end.operator == Unset <==>
          r.operator == Unset && (TellsOperator(from, r, resolved, a) ==> a.toOperator == Refused))
    && end.alertAt == if r.status == Unresolved && r.alertAt.None? then Some(now) else r.alertAt
  }

  /** How a record is left that there is nothing to tell of: as it was, but for the time its natives were seen dead. */
  predicate Waits(v: View, writerSeen: bool, a: Answers, end: Rec) {
    && end == v.record.(managed := end.managed, deadSince := end.deadSince)
    && if !Examined(v, writerSeen) then end == v.record
       else if !a.nativeDead then end.deadSince.None?
       else end.deadSince == Some(if v.record.deadSince.Some? then v.record.deadSince.value else v.now)
  }

  lemma NotifyDoes(from: From, r: Rec, resolved: bool, now: int, a: Answers, e: Event)
    requires r.status in {Delivered, Failed, Unresolved} && Tells(e)
    ensures e in Notify(from, r, resolved, now, a) <==> Does(from, r, resolved, now, a, e)
  {
    var toCaller := from == Caller && !resolved;
    var r1 := r.(caller := SlotAfter(r.caller, toCaller, a.toCaller));
    var toOperator := OwesOperator(from, r, a) && !resolved && !ClosedMeanwhile(r, toCaller, a.closes);
    var r2 := r1.(operator := SlotAfter(r.operator, toOperator, a.toOperator));
    var board := if r.status == Unresolved || r.status == Failed then [Board] else [];
    CallerDoes(r, toCaller, a.closes, a.toCaller, e);
    OperatorDoes(r1, toOperator, a.toOperator, e);
    ClosingDoes(from, r2, now, a, e);
    SlotsLeave(from, r, resolved, now, a, None);
    hide NotifyCaller, NotifyOperator, Closing, SlotAfter, MayRemove, Expires, Files;
    AmongFour(e, board, NotifyCaller(r, toCaller, a.closes, a.toCaller), NotifyOperator(r1, toOperator, a.toOperator),
              Closing(from, r2, now, a));
  }

  lemma CallerDoes(r: Rec, wanted: bool, closes: bool, o: Outcome, e: Event)
    requires Tells(e)
    ensures e in NotifyCaller(r, wanted, closes, o) <==>
              wanted && ((r.caller == Unset && e == SendCaller(o)) || (r.caller == Claimed && e == Board))
  {
    hide SlotAfter;
    if wanted && r.caller == Unset {
      var told := Write(r.(caller := SlotAfter(Unset, true, o)));
      AmongFour(e, [Write(r.(caller := Claimed))], [SendCaller(o)], if closes then [Resolve] else [], [told]);
    }
  }

  lemma OperatorDoes(r: Rec, wanted: bool, o: Outcome, e: Event)
    requires Tells(e)
    ensures e in NotifyOperator(r, wanted, o) <==>
              wanted && ((r.operator == Unset && e == SendOperator(o)) || (r.operator == Claimed && e == Board))
  {
    hide SlotAfter;
    if wanted && r.operator == Unset {
      var told := Write(r.(operator := SlotAfter(Unset, true, o)));
      AmongFour(e, [Write(r.(operator := Claimed))], [SendOperator(o)], [told], []);
    }
  }

  lemma ClosingDoes(from: From, r: Rec, now: int, a: Answers, e: Event)
    requires Tells(e)
    ensures e in Closing(from, r, now, a) <==> MayRemove(from, r, now, a) && e == Remove(a.operator)
  {
    hide MayRemove;
  }

  lemma AmongFour<T>(e: T, a: seq<T>, b: seq<T>, c: seq<T>, d: seq<T>)
    ensures e in a + (b + (c + d)) <==> e in a || e in b || e in c || e in d
  {
  }

  lemma NotifyLeaves(from: From, rec: Option<Rec>, r: Rec, resolved: bool, now: int, a: Answers)
    requires r.status in {Delivered, Failed, Unresolved} && Files(rec, r)
    ensures var end := Filed(rec, Notify(from, r, resolved, now, a));
            if Expires(from, r, resolved, now, a) then end.None?
            else end.Some? && Leaves(from, r, resolved, now, a, end.value)
  {
    var toCaller := from == Caller && !resolved;
    var r1 := r.(caller := SlotAfter(r.caller, toCaller, a.toCaller));
    var toOperator := OwesOperator(from, r, a) && !resolved && !ClosedMeanwhile(r, toCaller, a.closes);
    var r2 := r1.(operator := SlotAfter(r.operator, toOperator, a.toOperator));
    var board := if r.status == Unresolved || r.status == Failed then [Board] else [];
    var f1 := NotifyCaller(r, toCaller, a.closes, a.toCaller);
    var f2 := NotifyOperator(r1, toOperator, a.toOperator);
    var f3 := Closing(from, r2, now, a);
    assert Filed(rec, board) == rec;
    hide Filed, NotifyCaller, NotifyOperator, Closing, SlotAfter, Expires, Leaves, MayRemove, OwesOperator;
    hide ClosedMeanwhile;
    assert Notify(from, r, resolved, now, a) == board + (f1 + (f2 + f3));
    CallerFiles(rec, r, toCaller, a.closes, a.toCaller);
    OperatorFiles(Filed(rec, f1), r1, toOperator, a.toOperator);
    var last := Filed(Filed(rec, f1), f2);
    ClosingFiles(from, last, r2, now, a);
    SlotsLeave(from, r, resolved, now, a, Filed(last, f3));
    hide *;
    FiledConcat(rec, board, f1 + (f2 + f3));
    FiledConcat(rec, f1, f2 + f3);
    FiledConcat(Filed(rec, f1), f2, f3);
  }

  lemma SlotsLeave(from: From, r: Rec, resolved: bool, now: int, a: Answers, end: Option<Rec>)
    requires r.status in {Delivered, Failed, Unresolved}
    ensures var toCaller := from == Caller && !resolved;
            var toOperator := OwesOperator(from, r, a) && !resolved && !ClosedMeanwhile(r, toCaller, a.closes);
            var r2 := r.(caller := SlotAfter(r.caller, toCaller, a.toCaller),
                         operator := SlotAfter(r.operator, toOperator, a.toOperator));
            var alertAt := if r.status == Unresolved && r.alertAt.None? then Some(now) else r.alertAt;
            && (MayRemove(from, r2, now, a) <==> Expires(from, r, resolved, now, a))
            && (Files(end, r2.(alertAt := alertAt)) ==> Leaves(from, r, resolved, now, a, end.value))
  {
  }

  lemma ClosingFiles(from: From, rec: Option<Rec>, r: Rec, now: int, a: Answers)
    requires Files(rec, r)
    ensures var end := Filed(rec, Closing(from, r, now, a));
            if MayRemove(from, r, now, a) then end.None?
            else Files(end, r.(alertAt := if r.status == Unresolved && r.alertAt.None? then Some(now) else r.alertAt))
  {
    hide MayRemove;
    var alert := if r.status == Unresolved && r.alertAt.None? then [Write(r.(alertAt := Some(now)))] else [];
    var removal := if MayRemove(from, r, now, a) then [Remove(a.operator)] else [];
    FiledConcat(rec, alert, removal);
  }

  /** An uncut pass over an open case sends, reports and removes exactly what the record it tells of calls for; a
      settled record it tells nobody of goes after its week. */
  lemma PassDoes(from: From, v: View, d: Disk, writerSeen: bool, a: Answers, e: Event)
    requires !v.resolved && Tells(e)
    ensures var told := Told(v, writerSeen, a);
            e in Reconcile(from, v, d, writerSeen, a) <==>
            if told.Some? then Does(from, told.value, d.resolved, v.now, a, e)
            else Settled(v.record) && v.now - v.record.updatedAt > FINAL_KEEP_MS && e == Remove(a.operator)
  {
    ToldIff(v, writerSeen, a);
    var told, r := Told(v, writerSeen, a), v.record;
    if told.Some? {
      NotifyDoes(from, told.value, d.resolved, v.now, a, e);
    }
    hide Notify, Does, Judged;
    if Examined(v, writerSeen) {
      JudgingTells(r, v.now, a, e);
      hide Judging;
    }
  }

  lemma JudgingTells(r: Rec, now: int, a: Answers, e: Event)
    requires Tells(e)
    ensures e !in Judging(r, now, a)
  {
    hide Judged;
  }

  /** Where an uncut pass over an open case leaves a record that nobody has touched since it was listed. */
  lemma PassLeaves(from: From, w: World, v: View, writerSeen: bool, a: Answers)
    requires !v.resolved && w.disk.record == Some(v.record)
    ensures var end := After(w, Reconcile(from, v, w.disk, writerSeen, a)).disk.record;
            var told := Told(v, writerSeen, a);
            if told.Some? then
              if Expires(from, told.value, w.disk.resolved, v.now, a) then end.None?
              else end.Some? && Leaves(from, told.value, w.disk.resolved, v.now, a, end.value)
            else if Settled(v.record) && v.now - v.record.updatedAt > FINAL_KEEP_MS then end.None?
            else end.Some? && Waits(v, writerSeen, a, end.value)
  {
    ToldIff(v, writerSeen, a);
    ReconcileEvents(from, v, w.disk, writerSeen, a);
    AfterFiled(w, Reconcile(from, v, w.disk, writerSeen, a));
    ReconcileFiles(from, v, w.disk, writerSeen, a);
    hide *;
  }

  lemma ReconcileFiles(from: From, v: View, d: Disk, writerSeen: bool, a: Answers)
    requires !v.resolved && d.record == Some(v.record)
    ensures var end := Filed(d.record, Reconcile(from, v, d, writerSeen, a));
            var told := Told(v, writerSeen, a);
            if told.Some? then
              if Expires(from, told.value, d.resolved, v.now, a) then end.None?
              else end.Some? && Leaves(from, told.value, d.resolved, v.now, a, end.value)
            else if Settled(v.record) && v.now - v.record.updatedAt > FINAL_KEEP_MS then end.None?
            else end.Some? && Waits(v, writerSeen, a, end.value)
  {
    ToldIff(v, writerSeen, a);
    var told, r := Told(v, writerSeen, a), v.record;
    hide Notify, Expires, Leaves, Judged;
    if told.Some? {
      var before := if r.status == Prepared then [Write(told.value)]
                    else if r.status == Delivered || r.status == Failed then []
                    else Judging(r, v.now, a);
      var notices := Notify(from, told.value, d.resolved, v.now, a);
      assert Reconcile(from, v, d, writerSeen, a) == before + notices;
      if before == Judging(r, v.now, a) && Examined(v, writerSeen) {
        JudgingFiles(r, v.now, a);
      }
      FiledConcat(d.record, before, notices);
      NotifyLeaves(from, Filed(d.record, before), told.value, d.resolved, v.now, a);
    } else if Examined(v, writerSeen) {
      JudgingFiles(r, v.now, a);
      PendingStays(r, v.now, a);
      assert Reconcile(from, v, d, writerSeen, a) == Judging(r, v.now, a) + [];
      FiledConcat(d.record, Judging(r, v.now, a), []);
    }
  }

  lemma PendingStays(r: Rec, now: int, a: Answers)
    requires Judged(r, now, a).status == Pending && r.status != Prepared
    ensures Judged(r, now, a) == r.(managed := true, deadSince := Judged(r, now, a).deadSince)
    ensures Judged(r, now, a).deadSince
         == if !a.nativeDead then None else Some(if r.deadSince.Some? then r.deadSince.value else now)
  {
  }

  /** After an uncut pass past the alert time no open record still says `Sending` or `Pending`, and a caller that is
      owed word of an unresolved or failed delivery has been sent a notice, or its slot is taken. */
  lemma NothingHangs(from: From, w: World, v: View, writerSeen: bool, a: Answers)
    requires !v.resolved && w.disk.record == Some(v.record) && v.now - v.record.createdAt >= ALERT_AFTER_MS
    ensures var end := After(w, Reconcile(from, v, w.disk, writerSeen, a)).disk.record;
            && (end.Some? ==> end.value.status != Sending && end.value.status != Pending)
            && (end.Some? && end.value.status == Prepared ==> writerSeen)
            && (end.Some? && end.value.status in {Unresolved, Failed} && from == Caller && !w.disk.resolved ==>
                  end.value.caller != Unset || SendCaller(Refused) in Reconcile(from, v, w.disk, writerSeen, a))
  {
    ToldIff(v, writerSeen, a);
    PassLeaves(from, w, v, writerSeen, a);
    PassDoes(from, v, w.disk, writerSeen, a, SendCaller(Refused));
    hide Reconcile, After, Told, Expires;
  }

  /** Once the operator has closed the case, a pass tells the caller so when the checkpoint of that is free, touches the
      record no more, and leaves the checkpoint as the answer says. */
  lemma PassReleases(from: From, w: World, v: View, writerSeen: bool, a: Answers)
    requires v.resolved
    ensures var events := Reconcile(from, v, w.disk, writerSeen, a);
            var tells := from == Caller && w.disk.notice == Unset;
            && (forall o :: SendResolution(o) in events <==> tells && o == a.toResolved)
            && (Board in events <==> from == Caller && w.disk.notice == Claimed)
            && (forall e :: e in events ==> !e.SendCaller? && !e.SendOperator? && !e.Write? && !e.Remove?)
            && After(w, events).disk.record == w.disk.record
            && After(w, events).disk.notice
               == if !tells then w.disk.notice
                  else if a.toResolved == Accepted then Sent else if a.toResolved == Refused then Unset else Claimed
  {
    ReleaseMoves(from, w.disk.notice, a.toResolved);
    ReleaseLeaves(from, w, a.toResolved);
    hide Release, After, Observe;
  }

  lemma ReleaseMoves(from: From, notice: Slot, o: Outcome)
    ensures forall e :: e in Release(from, notice, o) ==>
              !e.SendCaller? && !e.SendOperator? && !e.Write? && !e.Remove?
    ensures Board in Release(from, notice, o) <==> from == Caller && notice == Claimed
    ensures forall x :: SendResolution(x) in Release(from, notice, o) <==>
              from == Caller && notice == Unset && x == o
  {
    if from == Caller && notice == Unset {
      assert Release(from, notice, o)[1] == SendResolution(o);
    }
  }

  lemma ReleaseLeaves(from: From, w: World, o: Outcome)
    ensures var next := After(w, Release(from, w.disk.notice, o));
            && next.disk.record == w.disk.record
            && next.disk.notice == if from != Caller || w.disk.notice != Unset then w.disk.notice
                                   else if o == Accepted then Sent else if o == Refused then Unset else Claimed
  {
    if from == Caller && w.disk.notice == Unset {
      var last := if o == Threw then [] else [NoticeWrite(SlotAfter(Unset, true, o))];
      var w1 := Observe(w, NoticeWrite(Claimed));
      var w2 := Observe(w1, SendResolution(o));
      assert Release(from, w.disk.notice, o) == [NoticeWrite(Claimed)] + ([SendResolution(o)] + last);
      hide After, Release;
      First(from, w, NoticeWrite(Claimed), [SendResolution(o)] + last);
      First(from, w1, SendResolution(o), last);
      if last == [] {
        NoEvents(w2);
      } else {
        One(from, w2, last[0]);
      }
    } else {
      One(from, w, Board);
    }
  }

  lemma NoEvents(w: World)
    ensures After(w, []) == w
  {
  }

  // ---------------------------------------------------------------- outside the discipline

  /** What any run keeps, disciplined or not: a record that says `Prepared`, on disk or in hand, had a writer that
      had not moved on when it was read. */
  predicate Coherent(w: World) {
    (!w.begun ==> w.disk.record.None? && w.held.None? && !w.entered && !w.finished)
    && (SaysPrepared(w) ==> !w.entered && !w.finished)
    && (w.held.Some? ==> w.disk.record.Some?)
    && (w.held.Some? && w.held.value.record.status == Prepared ==> SaysPrepared(w) || w.entered || w.finished)
  }

  predicate SaysPrepared(w: World) {
    w.disk.record.Some? && w.disk.record.value.status == Prepared
  }

  /** Passes take their copy before they write, and never write `Prepared`. */
  predicate Mild(w: World, e: Event) {
    match e
    case WriterWrites(r, last) =>
      if w.begun then r.status != Prepared && (last || r.status == Sending)
      else r.status == Prepared && !last && w.held.None?
    case Imports(r) => w.disk.record.None? && r.status != Prepared
    case Write(r) => w.begun && w.held.None? && r.status != Prepared
    case Remove(_) => w.held.None?
    case _ => true
  }

  lemma {:induction false} MildKeepsCoherent(w: World, events: seq<Event>)
    requires Coherent(w) && AllMild(w, events)
    ensures Coherent(After(w, events))
    decreases |events|
  {
    if events != [] {
      MildStep(w, events[0]);
      hide Coherent, Mild, Observe;
      MildKeepsCoherent(Observe(w, events[0]), events[1..]);
    }
  }

  lemma MildStep(w: World, e: Event)
    requires Coherent(w) && Mild(w, e)
    ensures Coherent(Observe(w, e))
  {
  }

  predicate AllMild(w: World, events: seq<Event>)
    decreases |events|
  {
    events == [] || (Mild(w, events[0]) && AllMild(Observe(w, events[0]), events[1..]))
  }

  /** The events of a pass once its copy is taken. */
  predicate PassEvent(e: Event) {
    !e.WriterWrites? && !e.Imports? && !e.Look? && !e.Take? && (e.Write? ==> e.r.status != Prepared)
  }

  lemma {:induction false} PassIsMild(w: World, events: seq<Event>)
    requires w.begun && w.held.None? && forall e :: e in events ==> PassEvent(e)
    ensures AllMild(w, events)
    decreases |events|
  {
    if events != [] {
      assert PassEvent(events[0]);
      PassIsMild(Observe(w, events[0]), events[1..]);
    }
  }

  lemma ReconcileEvents(from: From, v: View, d: Disk, writerSeen: bool, a: Answers)
    ensures forall e :: e in Reconcile(from, v, d, writerSeen, a) ==> PassEvent(e)
  {
    hide Notify, Release, Judging, Judged;
    ReleaseEvents(from, d.notice, a.toResolved);
    JudgingEvents(v.record, v.now, a);
    var failed := v.record.(status := Failed, managed := true, updatedAt := v.now);
    NotifyEvents(from, failed, d.resolved, v.now, a);
    if v.record.status != Prepared {
      NotifyEvents(from, v.record, d.resolved, v.now, a);
      NotifyEvents(from, Judged(v.record, v.now, a), d.resolved, v.now, a);
    }
  }

  lemma ReleaseEvents(from: From, notice: Slot, o: Outcome)
    ensures forall e :: e in Release(from, notice, o) ==> PassEvent(e)
  {
  }

  lemma JudgingEvents(r: Rec, now: int, a: Answers)
    ensures r.status != Prepared ==> Judged(r, now, a).status != Prepared
    ensures r.status != Prepared ==> forall e :: e in Judging(r, now, a) ==> PassEvent(e)
  {
  }

  lemma NotifyEvents(from: From, r: Rec, resolved: bool, now: int, a: Answers)
    requires r.status != Prepared
    ensures forall e :: e in Notify(from, r, resolved, now, a) ==> PassEvent(e)
  {
    var toCaller := from == Caller && !resolved;
    var r1 := r.(caller := SlotAfter(r.caller, toCaller, a.toCaller));
    var toOperator := OwesOperator(from, r, a) && !resolved && !ClosedMeanwhile(r, toCaller, a.closes);
    var r2 := r1.(operator := SlotAfter(r.operator, toOperator, a.toOperator));
    NoticeEvents(r, toCaller, a.closes, a.toCaller);
    NoticeEvents(r1, toOperator, false, a.toOperator);
    ClosingEvents(from, r2, now, a);
    hide NotifyCaller, NotifyOperator, Closing, SlotAfter, OwesOperator;
  }

  lemma NoticeEvents(r: Rec, wanted: bool, closes: bool, o: Outcome)
    requires r.status != Prepared
    ensures forall e :: e in NotifyCaller(r, wanted, closes, o) ==> PassEvent(e)
    ensures forall e :: e in NotifyOperator(r, wanted, o) ==> PassEvent(e)
  {
    hide SlotAfter;
  }

  lemma ClosingEvents(from: From, r: Rec, now: int, a: Answers)
    requires r.status != Prepared
    ensures forall e :: e in Closing(from, r, now, a) ==> PassEvent(e)
  {
    hide MayRemove;
  }

  lemma ActIsMild(from: From, w: World, a: Answers, n: nat)
    requires Coherent(w) && n <= |ActEvents(from, w, a)|
    ensures Coherent(After(w, ActEvents(from, w, a)[..n]))
  {
    var done := ActEvents(from, w, a)[..n];
    if n > 0 {
      var w1 := Observe(w, Take);
      assert done == [Take] + done[1..];
      First(from, w, Take, done[1..]);
      if w.held.Some? {
        ReconcileEvents(from, w.held.value, w.disk, w.alive || a.pidReused, a);
        hide Reconcile, PassEvent, After, AllMild;
        assert ActEvents(from, w, a)[1..] == Reconcile(from, w.held.value, w.disk, w.alive || a.pidReused, a);
        assert forall i :: 0 <= i < |done[1..]| ==> done[1..][i] == ActEvents(from, w, a)[1..][i];
        PassIsMild(w1, done[1..]);
        MildKeepsCoherent(w1, done[1..]);
      }
    }
  }

  lemma StepIsMild(from: From, w: World, s: Step)
    requires Coherent(w)
    ensures Coherent(After(w, StepEvents(from, w, s)))
  {
    var w1 := Observe(w, Tick(s.at));
    var events := ActionEvents(from, w1, s);
    var done := if s.action.Act? && s.action.cut < |events| then events[..s.action.cut] else events;
    First(from, w, Tick(s.at), done);
    if s.action.Act? {
      hide ActEvents, After;
      assert events[..|events|] == events;
      ActIsMild(from, w1, s.action.answers, if s.action.cut < |events| then s.action.cut else |events|);
    } else {
      OtherIsMild(from, w1, s);
    }
  }

  lemma OtherIsMild(from: From, w: World, s: Step)
    requires Coherent(w) && !s.action.Act?
    ensures Coherent(After(w, ActionEvents(from, w, s)))
  {
    var events := ActionEvents(from, w, s);
    if events != [] {
      assert events == [events[0]];
      var e := events[0];
      One(from, w, e);
      hide After;
      match s.action
      case Import(_) =>
      case Prepare =>
      case BeginSend =>
      case Finish(_) =>
      case _ =>
    }
  }

  lemma {:induction false} AnyRunIsCoherent(from: From, steps: seq<Step>)
    ensures Coherent(After(START, Trace(from, steps)))
  {
    hide StepEvents, Coherent;
    if steps == [] {
      assert Coherent(START) by { StartIsCoherent(); }
    } else {
      var init, last := steps[..|steps| - 1], steps[|steps| - 1];
      AnyRunIsCoherent(from, init);
      var w := After(START, Trace(from, init));
      StepIsMild(from, w, last);
      AfterConcat(from, START, Trace(from, init), StepEvents(from, w, last));
    }
  }

  lemma StartIsCoherent()
    ensures Coherent(START)
  {
  }

  /** A pass that took its copy while the record said `Prepared` declares it failed once the writer is gone. That
      contradicts the writer exactly when the record on disk no longer says `Prepared`: reading it again before the
      write would tell. */
  lemma FailedIsHonestIffRereadAgrees(from: From, steps: seq<Step>, a: Answers)
    requires var w := After(START, Trace(from, steps));
             w.held.Some? && w.held.value.record.status == Prepared && !w.held.value.resolved && !w.alive
               && !a.pidReused
    ensures var w := After(START, Trace(from, steps));
            exists r :: Write(r) in ActEvents(from, w, a) && r.status == Failed
    ensures var w := After(START, Trace(from, steps)); (w.entered || w.finished) <==> !SaysPrepared(w)
  {
    AnyRunIsCoherent(from, steps);
    var w := After(START, Trace(from, steps));
    var r := w.held.value.record.(status := Failed, managed := true, updatedAt := w.held.value.now);
    assert ActEvents(from, w, a)[1] == Write(r);
  }

  lemma Extend(from: From, steps: seq<Step>, s: Step, w: World)
    requires w == After(START, Trace(from, steps))
    ensures After(START, Trace(from, steps + [s])) == After(w, StepEvents(from, w, s))
  {
    assert (steps + [s])[..|steps|] == steps;
    AfterConcat(from, START, Trace(from, steps), StepEvents(from, w, s));
  }

  lemma Pair(w: World, a: Event, b: Event)
    ensures After(w, [a] + [b]) == Observe(Observe(w, a), b)
  {
    One(Unknown, Observe(w, a), b);
    First(Unknown, w, a, [b]);
  }

  /** A step that neither passes nor acts: its clock and its one event. */
  lemma Simple(from: From, steps: seq<Step>, s: Step, w: World, e: Event)
    requires w == After(START, Trace(from, steps)) && !s.action.Act?
    requires ActionEvents(from, Observe(w, Tick(s.at)), s) == [e]
    ensures After(START, Trace(from, steps + [s])) == Observe(Observe(w, Tick(s.at)), e)
  {
    Extend(from, steps, s, w);
    Pair(w, Tick(s.at), e);
  }

  const QUIET := Answers(false, false, false, false, false, Accepted, Accepted, Accepted)

  /** A stale copy: the pass lists the record while it says `Prepared`, the writer passes its send checkpoint and
      dies, and the pass reports a failure before the paste boundary. */
  lemma StaleListingFailsAfterPaste(from: From)
    ensures var steps := [Step(0, Prepare)] + [Step(1, List)] + [Step(2, BeginSend)] + [Step(3, Die)]
            + [Step(4, Act(QUIET, 2))];
            var w := After(START, Trace(from, steps));
            w.disk.record.Some? && w.disk.record.value.status == Failed && w.entered
  {
    hide ActEvents, Trace, After;
    var listed := [Step(0, Prepare)] + [Step(1, List)];
    var w1 := PreparedAndListed(from);
    Simple(from, listed, Step(2, BeginSend), w1, WriterWrites(WriterRec(Sending, 0, 0), false));
    var w2 := Observe(Observe(w1, Tick(2)), WriterWrites(WriterRec(Sending, 0, 0), false));
    Simple(from, listed + [Step(2, BeginSend)], Step(3, Die), w2, WriterDies);
    var w3 := Observe(Observe(w2, Tick(3)), WriterDies);
    Extend(from, listed + [Step(2, BeginSend)] + [Step(3, Die)], Step(4, Act(QUIET, 2)), w3);
    StaleAct(from, w3);
  }

  lemma PreparedAndListed(from: From) returns (w: World)
    ensures w == After(START, Trace(from, [Step(0, Prepare)] + [Step(1, List)]))
    ensures w.held == Some(View(WriterRec(Prepared, 0, 0), false, 1))
    ensures w.disk.record == Some(WriterRec(Prepared, 0, 0))
    ensures w.begun && w.alive && !w.entered && !w.finished && w.created == 0 && w.clock == 1
  {
    hide ActEvents, Trace, After;
    StartTrace(from);
    assert [] + [Step(0, Prepare)] == [Step(0, Prepare)];
    Simple(from, [], Step(0, Prepare), START, WriterWrites(WriterRec(Prepared, 0, 0), false));
    var w0 := Observe(Observe(START, Tick(0)), WriterWrites(WriterRec(Prepared, 0, 0), false));
    Simple(from, [Step(0, Prepare)], Step(1, List), w0, Look);
    w := Observe(Observe(w0, Tick(1)), Look);
  }

  lemma StartTrace(from: From)
    ensures After(START, Trace(from, [])) == START
  {
  }

  lemma StaleAct(from: From, w: World)
    requires w.held == Some(View(WriterRec(Prepared, 0, 0), false, 1)) && !w.alive
    ensures var next := After(w, StepEvents(from, w, Step(4, Act(QUIET, 2))));
            next.disk.record.Some? && next.disk.record.value.status == Failed && next.entered == w.entered
  {
    var w1 := Observe(w, Tick(4));
    var failed := WriterRec(Prepared, 0, 0).(status := Failed, managed := true, updatedAt := 1);
    hide *;
    StaleEvents(from, w, failed);
    StaleWorld(w, failed);
    First(from, w, Tick(4), [Take] + [Write(failed)]);
    Pair(w1, Take, Write(failed));
  }

  lemma StaleWorld(w: World, failed: Rec)
    ensures var next := Observe(Observe(Observe(w, Tick(4)), Take), Write(failed));
            next.disk.record == Some(failed) && next.entered == w.entered
  {
  }

  lemma StaleEvents(from: From, w: World, failed: Rec)
    requires w.held == Some(View(WriterRec(Prepared, 0, 0), false, 1)) && !w.alive
    requires failed == WriterRec(Prepared, 0, 0).(status := Failed, managed := true, updatedAt := 1)
    ensures StepEvents(from, w, Step(4, Act(QUIET, 2))) == [Tick(4)] + ([Take] + [Write(failed)])
  {
    hide Notify;
    var events := ActEvents(from, Observe(w, Tick(4)), QUIET);
    assert |events| >= 2 && events[..2] == [Take] + [Write(failed)];
  }

  function Then(from: From, w: World, s: Step): World {
    After(w, StepEvents(from, w, s))
  }

  lemma Listed(from: From, w: World, at: int)
    requires w.disk.record.Some?
    ensures Then(from, w, Step(at, List)) ==
            w.(clock := at, held := Some(View(w.disk.record.value, w.disk.resolved, at)))
  {
    Pair(w, Tick(at), Look);
  }

  /** The writer is alive and has passed the send checkpoint. */
  predicate WriterAtWork(w: World) {
    w.begun && w.alive && w.entered && !w.finished && w.disk.record == Some(WriterRec(Sending, w.created, w.created))
    && !w.disk.resolved
  }

  /** A writer that finishes after the alert time overwrites what a pass recorded meanwhile: the record goes back
      from unresolved to pending and forgets that its caller was told, so the next alert is sent again. */
  lemma LateWriterRegresses(w: World, at: int)
    requires WriterAtWork(w) && at - w.created >= ALERT_AFTER_MS
    ensures var listed := Then(Caller, w, Step(at, List));
            var told := Then(Caller, listed, Step(at, Act(QUIET, 7)));
            var late := Then(Caller, told, Step(at + 1, Finish(Pending)));
            && told.disk.record.Some? && told.disk.record.value.status == Unresolved
            && told.disk.record.value.caller == Sent
            && told.caller.total == w.caller.total + 1
            && late.disk.record.Some? && late.disk.record.value.status == Pending
            && late.disk.record.value.caller == Unset
  {
    hide ActEvents, After;
    Listed(Caller, w, at);
    var listed := Then(Caller, w, Step(at, List));
    var told := ToldLate(w, listed, at);
    Pair(told, Tick(at + 1), WriterWrites(WriterRec(Pending, w.created, at + 1), true));
  }

  lemma ToldLate(w: World, listed: World, at: int) returns (told: World)
    requires WriterAtWork(w) && at - w.created >= ALERT_AFTER_MS
    requires listed == w.(clock := at, held := Some(View(w.disk.record.value, false, at)))
    ensures told == Then(Caller, listed, Step(at, Act(QUIET, 7)))
    ensures told.disk.record.Some? && told.disk.record.value.status == Unresolved
    ensures told.disk.record.value.caller == Sent
    ensures told.caller.total == w.caller.total + 1
    ensures told.begun && told.alive && told.entered && !told.finished && told.created == w.created
  {
    var r := WriterRec(Sending, w.created, w.created);
    var j := r.(managed := true, status := Unresolved, updatedAt := at);
    assert Judged(r, at, QUIET) == j;
    LateAct(listed, j, at);
    var w0 := Observe(listed, Tick(at));
    told := After(w0, Telling(j, at));
    TellingTells(w0, j, at);
    hide ActEvents, Observe, After, Telling;
    First(Caller, listed, Tick(at), Telling(j, at));
  }

  function Telling(j: Rec, at: int): seq<Event> {
    [Take, Sighted(false, at), Write(j), Board, Write(j.(caller := Claimed)), SendCaller(Accepted),
      Write(j.(caller := Sent))]
  }

  lemma TellingTells(w: World, j: Rec, at: int)
    ensures var told := After(w, Telling(j, at));
            told.disk.record == Some(j.(caller := Sent)) && told.caller.total == w.caller.total + 1
            && told.begun == w.begun && told.alive == w.alive && told.entered == w.entered
            && told.finished == w.finished && told.created == w.created
  {
    Seven(w, Take, Sighted(false, at), Write(j), Board, Write(j.(caller := Claimed)), SendCaller(Accepted),
      Write(j.(caller := Sent)));
  }

  lemma Seven(w: World, a: Event, b: Event, c: Event, d: Event, e: Event, f: Event, g: Event)
    ensures After(w, [a, b, c, d, e, f, g])
            == Observe(Observe(Observe(Observe(Observe(Observe(Observe(w, a), b), c), d), e), f), g)
  {
    hide Observe, After;
    assert [a, b, c, d, e, f, g] == [a] + ([b] + ([c] + ([d] + ([e] + ([f] + [g])))));
    First(Unknown, w, a, [b] + ([c] + ([d] + ([e] + ([f] + [g])))));
    var w1 := Observe(w, a);
    First(Unknown, w1, b, [c] + ([d] + ([e] + ([f] + [g]))));
    var w2 := Observe(w1, b);
    First(Unknown, w2, c, [d] + ([e] + ([f] + [g])));
    var w3 := Observe(w2, c);
    First(Unknown, w3, d, [e] + ([f] + [g]));
    var w4 := Observe(w3, d);
    First(Unknown, w4, e, [f] + [g]);
    Pair(Observe(w4, e), f, g);
  }

  /** The first events of the pass that takes over from a slow writer. */
  lemma LateAct(listed: World, j: Rec, at: int)
    requires listed.held.Some? && listed.held.value.now == at && !listed.held.value.resolved && !listed.disk.resolved
    requires listed.alive && j == Judged(listed.held.value.record, at, QUIET)
    requires listed.held.value.record.status == Sending && at - listed.held.value.record.createdAt >= ALERT_AFTER_MS
    requires j.status == Unresolved && j.caller == Unset
    ensures |ActEvents(Caller, Observe(listed, Tick(at)), QUIET)| > 7
    ensures ActEvents(Caller, Observe(listed, Tick(at)), QUIET)[..7] ==
            Telling(j, at)
  {
  }

  /** Crash between seeing a live process and clearing the recorded death: the drain time then runs from a death that
      had been refuted, and the record is unresolved as soon as the processes die, not five seconds later. */
  lemma LostSightingExpiresEarly(from: From, w: World, r: Rec, seen: int, died: int)
    requires w.disk.record == Some(r) && r.status == Pending && r.managed && !w.disk.resolved
    requires r.deadSince.Some? && r.deadSince.value < seen < died
    requires died - r.deadSince.value >= DEAD_DRAIN_MS && died - r.createdAt < ALERT_AFTER_MS
    ensures var w1 := Then(from, w, Step(seen, List));
            var w2 := Then(from, w1, Step(seen, Act(QUIET, 2)));
            var w3 := Then(from, w2, Step(died, List));
            var w4 := Then(from, w3, Step(died, Act(QUIET.(nativeDead := true), 3)));
            w2.lost && w2.deadFrom == None && w4.deadFrom == Some(died)
            && w4.disk.record.Some? && w4.disk.record.value.status == Unresolved
  {
    hide ActEvents, After;
    Listed(from, w, seen);
    var w1 := Then(from, w, Step(seen, List));
    LiveSighted(from, w1, r, seen);
    var w2 := Then(from, w1, Step(seen, Act(QUIET, 2)));
    Listed(from, w2, died);
    DeathSighted(from, Then(from, w2, Step(died, List)), r, died);
  }

  lemma LiveSighted(from: From, w: World, r: Rec, at: int)
    requires w.held == Some(View(r, false, at)) && w.disk.record == Some(r) && r.status == Pending && r.deadSince.Some?
    ensures var next := Then(from, w, Step(at, Act(QUIET, 2)));
            next.disk == w.disk && next.lost && next.deadFrom == None && next.held == None
  {
    var w0 := Observe(w, Tick(at));
    assert ActEvents(from, w0, QUIET)[..2] == [Take] + [Sighted(false, at)];
    hide ActEvents;
    First(from, w, Tick(at), [Take] + [Sighted(false, at)]);
    Pair(w0, Take, Sighted(false, at));
  }

  lemma DeathSighted(from: From, w: World, r: Rec, at: int)
    requires w.held == Some(View(r, false, at)) && r.status == Pending && w.deadFrom == None
    requires r.deadSince.Some? && at - r.deadSince.value >= DEAD_DRAIN_MS
    ensures var next := Then(from, w, Step(at, Act(QUIET.(nativeDead := true), 3)));
            next.deadFrom == Some(at) && next.disk.record.Some? && next.disk.record.value.status == Unresolved
  {
    var a := QUIET.(nativeDead := true);
    var w0, j := Observe(w, Tick(at)), Judged(r, at, a);
    assert ActEvents(from, w0, a)[..3] == [Take] + ([Sighted(true, at)] + [Write(j)]);
    assert j.status == Unresolved;
    assert Then(from, w, Step(at, Act(a, 3))) == After(w, [Tick(at)] + ([Take] + ([Sighted(true, at)] + [Write(j)])));
    SightedThenWritten(w, at, j);
    hide *;
    First(from, w, Tick(at), [Take] + ([Sighted(true, at)] + [Write(j)]));
    First(from, w0, Take, [Sighted(true, at)] + [Write(j)]);
    Pair(Observe(w0, Take), Sighted(true, at), Write(j));
  }

  lemma SightedThenWritten(w: World, at: int, j: Rec)
    requires w.deadFrom == None
    ensures var next := Observe(Observe(Observe(Observe(w, Tick(at)), Take), Sighted(true, at)), Write(j));
            next.deadFrom == Some(at) && next.disk.record == Some(j)
  {
  }

  /** A failed notice of the core itself, open and with no operator slot taken (`CoreSlotStaysUnset`), is told to
      nobody, and it is removed exactly when a week has passed and no operator is configured: with one, removal waits
      for a notice that is never sent. */
  lemma FailedCoreRemovedIff(v: View, d: Disk, writerSeen: bool, a: Answers)
    requires v.record.status == Failed && v.record.operator == Unset && !v.resolved
    ensures (exists e :: e in Reconcile(Core, v, d, writerSeen, a) && e.Remove?) <==>
            !a.operator && v.now - v.record.updatedAt > FINAL_KEEP_MS
    ensures forall e :: e in Reconcile(Core, v, d, writerSeen, a) ==> !e.SendOperator? && !e.SendCaller?
  {
    var r := v.record;
    var closing := Closing(Core, r, v.now, a);
    assert SlotAfter(r.caller, false, a.toCaller) == r.caller
           && SlotAfter(r.operator, false, a.toOperator) == r.operator;
    assert Reconcile(Core, v, d, writerSeen, a) == [Board] + ([] + ([] + closing));
    if MayRemove(Core, r, v.now, a) {
      assert closing == [Remove(a.operator)];
      assert ([Board] + ([] + ([] + closing)))[1] == Remove(a.operator);
    } else {
      assert closing == [];
    }
  }

  // ---------------------------------------------------------------- the pass as the daemon runs it

  lemma Unwanted(r: Rec, a: Answers)
    ensures NotifyCaller(r, false, a.closes, a.toCaller) == [] && SlotAfter(r.caller, false, a.toCaller) == r.caller
    ensures NotifyOperator(r, false, a.toOperator) == [] && SlotAfter(r.operator, false, a.toOperator) == r.operator
  {
  }

  lemma Flatten<T>(s: seq<T>, a: seq<T>, b: seq<T>, c: seq<T>, d: seq<T>)
    ensures s + a + b + c + d == s + (a + (b + (c + d)))
  {
  }

  lemma DiskAfter(w: World, e: Event)
    requires !e.WriterWrites? && !e.Imports?
    ensures Observe(w, e).disk == match e
                                  case Resolve => w.disk.(resolved := true)
                                  case Write(r) => w.disk.(record := Some(r))
                                  case Remove(_) => w.disk.(record := None)
                                  case NoticeWrite(slot) => w.disk.(notice := slot)
                                  case _ => w.disk
  {
  }

  /** The files of one delivery, as a daemon finds them, and the passes it runs on them. */
  class Reconciler {
    const from: From
    ghost const found: Disk
    var record: Option<Rec>
    var resolved: bool
    var notice: Slot
    var running: bool
    ghost var trace: seq<Event>

    constructor (from: From, record: Option<Rec>, resolved: bool, notice: Slot)
      ensures this.from == from && found == Files() == Disk(record, resolved, notice) && Valid() && trace == []
      ensures !running
    {
      this.from, this.record, this.resolved, this.notice := from, record, resolved, notice;
      found, running, trace := Disk(record, resolved, notice), false, [];
    }

    ghost function Files(): Disk
      reads this
    {
      Disk(record, resolved, notice)
    }

    /** The files are what the trace made of the ones found. */
    ghost predicate Valid()
      reads this
    {
      Files() == After(START.(disk := found), trace).disk
    }

    method Happen(e: Event)
      requires Valid() && !e.WriterWrites? && !e.Imports?
      modifies this
      ensures Valid() && trace == old(trace) + [e] && running == old(running)
      ensures resolved == (old(resolved) || e.Resolve?)
    {
      AfterConcat(from, START.(disk := found), trace, [e]);
      One(from, After(START.(disk := found), trace), e);
      DiskAfter(After(START.(disk := found), trace), e);
      hide After, Observe;
      trace := trace + [e];
      match e
      case Write(r) => record := Some(r);
      case Remove(_) => record := None;
      case NoticeWrite(slot) => notice := slot;
      case Resolve => resolved := true;
      case _ =>
    }

    /** One pass; passes of one daemon do not overlap. */
    method ProcessAcceptance(now: int, writerSeen: bool, a: Answers)
      requires Valid()
      modifies this
      ensures Valid() && running == old(running)
      ensures trace == old(trace) +
                if old(running) || old(record).None? then []
                else Reconcile(from, View(old(record).value, old(resolved), now), old(Files()), writerSeen, a)
    {
      if !running {
        running := true;
        if record.Some? {
          ReconcileRecord(record.value, resolved, now, writerSeen, a);
        }
        running := false;
      }
    }

    method ReconcileRecord(listed: Rec, closed: bool, now: int, writerSeen: bool, a: Answers)
      requires Valid()
      modifies this
      ensures Valid() && running == old(running)
      ensures trace == old(trace) + Reconcile(from, View(listed, closed, now), old(Files()), writerSeen, a)
    {
      hide After, Observe, Notify, Release, Judged;
      var r := listed;
      if closed {
        ReleaseCaller(a.toResolved);
        return;
      }
      if r.status == Rejected || (r.status == Delivered && !r.managed) {
        if now - r.updatedAt > FINAL_KEEP_MS {
          Happen(Remove(a.operator));
        }
        return;
      }
      if r.status == Sending && now - r.createdAt < ALERT_AFTER_MS && writerSeen {
        return;
      }
      if r.status == Prepared {
        if writerSeen {
          return;
        }
        r := r.(status := Failed, managed := true, updatedAt := now);
        Happen(Write(r));
      } else if r.status != Delivered && r.status != Failed {
        r := Judge(r, now, a);
        if r.status == Pending {
          return;
        }
      }
      NotifyAll(r, now, a);
    }

    /** Looks at the native evidence and writes the record when its status or its recorded death changed. */
    method Judge(listed: Rec, now: int, a: Answers) returns (r: Rec)
      requires Valid()
      modifies this
      ensures Valid() && running == old(running) && resolved == old(resolved)
      ensures r == Judged(listed, now, a) && trace == old(trace) + Judging(listed, now, a)
    {
      r := listed.(managed := true);
      var previous, previousDeadSince := listed.status, listed.deadSince;
      if a.landed {
        r := r.(status := Delivered);
      } else {
        Happen(Sighted(a.nativeDead, now));
        if a.nativeDead {
          if r.deadSince.None? {
            r := r.(deadSince := Some(now));
          }
        } else {
          r := r.(deadSince := None);
        }
        if now - r.createdAt >= ALERT_AFTER_MS || r.status == Sending
           || (a.nativeDead && now - r.deadSince.value >= DEAD_DRAIN_MS) {
          r := r.(status := Unresolved);
        }
      }
      if r.status != previous {
        r := r.(caller := Unset, operator := Unset, alertAt := None, updatedAt := now);
        Happen(Write(r));
      } else if r.deadSince != previousDeadSince {
        Happen(Write(r));
      }
    }

    method NotifyAll(judged: Rec, now: int, a: Answers)
      requires Valid()
      modifies this
      ensures Valid() && running == old(running)
      ensures trace == old(trace) + Notify(from, judged, old(resolved), now, a)
    {
      hide After, Observe, NotifyCaller, NotifyOperator, Closing, SlotAfter;
      var r := judged;
      ghost var start, closed := trace, resolved;
      ghost var board := if r.status == Unresolved || r.status == Failed then [Board] else [];
      if r.status == Unresolved || r.status == Failed {
        Happen(Board);
      }
      ghost var toCaller := NotifyCaller(r, from == Caller && !closed, a.closes, a.toCaller);
      ghost var meanwhile := ClosedMeanwhile(r, from == Caller && !closed, a.closes);
      Unwanted(r, a);
      if from == Caller {
        r := TellCaller(r, a.closes, a.toCaller);
      }
      assert trace == start + board + toCaller;
      ghost var wanted := OwesOperator(from, r, a) && !closed && !meanwhile;
      ghost var toOperator := NotifyOperator(r, wanted, a.toOperator);
      Unwanted(r, a);
      if a.operator && r.status != Delivered && from != Core {
        r := TellOperator(r, a.toOperator);
      }
      assert trace == start + board + toCaller + toOperator;
      Close(r, now, a);
      Flatten(start, board, toCaller, toOperator, Closing(from, r, now, a));
    }

    /** The operator may close the case from another process while the notice is under way. */
    method TellCaller(judged: Rec, closes: bool, o: Outcome) returns (r: Rec)
      requires Valid()
      modifies this
      ensures Valid() && running == old(running)
      ensures resolved == (old(resolved) || ClosedMeanwhile(judged, !old(resolved), closes))
      ensures r == judged.(caller := SlotAfter(judged.caller, !old(resolved), o))
      ensures trace == old(trace) + NotifyCaller(judged, !old(resolved), closes, o)
    {
      hide After, Observe;
      r := judged;
      if resolved || r.caller == Sent {
        return;
      }
      ghost var start := trace;
      if r.caller == Claimed {
        Happen(Board);
        return;
      }
      r := r.(caller := Claimed);
      Happen(Write(r));
      Happen(SendCaller(o));
      if closes {
        Happen(Resolve);
      }
      if o == Accepted {
        r := r.(caller := Sent);
      } else if o == Refused {
        r := r.(caller := Unset);
      }
      Happen(Write(r));
      ghost var closed := if closes then [Resolve] else [];
      assert trace == start + [Write(judged.(caller := Claimed))] + [SendCaller(o)] + closed + [Write(r)];
      Flatten(start, [Write(judged.(caller := Claimed))], [SendCaller(o)], closed, [Write(r)]);
    }

    method TellOperator(judged: Rec, o: Outcome) returns (r: Rec)
      requires Valid()
      modifies this
      ensures Valid() && running == old(running) && resolved == old(resolved)
      ensures r == judged.(operator := SlotAfter(judged.operator, !resolved, o))
      ensures trace == old(trace) + NotifyOperator(judged, !resolved, o)
    {
      r := judged;
      if resolved || r.operator == Sent {
        return;
      }
      if r.operator == Claimed {
        Happen(Board);
        return;
      }
      r := r.(operator := Claimed);
      Happen(Write(r));
      Happen(SendOperator(o));
      if o == Accepted {
        r := r.(operator := Sent);
      } else if o == Refused {
        r := r.(operator := Unset);
      }
      Happen(Write(r));
    }

    method Close(told: Rec, now: int, a: Answers)
      requires Valid()
      modifies this
      ensures Valid() && running == old(running)
      ensures trace == old(trace) + Closing(from, told, now, a)
    {
      var r := told;
      if r.status == Unresolved && r.alertAt.None? {
        r := r.(alertAt := Some(now));
        Happen(Write(r));
      }
      if (r.status == Delivered || r.status == Failed) && now - r.updatedAt > FINAL_KEEP_MS
         && (from != Caller || r.caller == Sent) && (r.status == Delivered || !a.operator || r.operator == Sent) {
        Happen(Remove(a.operator));
      }
    }

    method ReleaseCaller(o: Outcome)
      requires Valid()
      modifies this
      ensures Valid() && running == old(running)
      ensures trace == old(trace) + Release(from, old(notice), o)
    {
      if from != Caller || notice == Sent {
        return;
      }
      if notice == Claimed {
        Happen(Board);
        return;
      }
      Happen(NoticeWrite(Claimed));
      Happen(SendResolution(o));
      if o == Accepted {
        Happen(NoticeWrite(Sent));
      } else if o == Refused {
        Happen(NoticeWrite(Unset));
      }
    }
  }
}
