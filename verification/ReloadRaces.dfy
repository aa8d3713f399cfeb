/** One reload request under lock-free processes. A reader looks at the payload and then at the marker; an update takes
    a snapshot of owed requests that way, and before each save reads the request once more; a completion looks and then
    marks; a collector drops the payload and then the marker; and any of them may crash in between. */
module ReloadRaces {
  import opened Text
  import ReloadStore

  const TTL := ReloadStore.APPLIED_TTL_MS

  /** An operation in flight; updates remember when they began to read for their snapshot. A read is overtaken when the
      marker is collected under it. */
  datatype Op =
    | Reading(since: int, overtaken: bool)     // has read the payload, for a look at the queue or for a snapshot
    | Holding(since: int)                      // holds the request in a snapshot, having read it as owed
    | Rereading(since: int, overtaken: bool)   // has read the payload again
    | Saving(since: int)                       // has read it as owed again, and will save it
    | Completing                               // has seen the payload, and will write the marker
    | Collecting(dropped: bool)                // has seen an old marker, and maybe dropped the payload

  datatype Sys = Sys(clock: int, requested: bool, payload: bool, marker: Option<int>, applied: Option<int>,
                     ops: map<nat, Op>)

  const EMPTY := Sys(0, false, false, None, None, map[])

  datatype Event =
    | Tick(at: int) | Request
    | StartRead(p: nat) | CheckMarker(p: nat)                 // the snapshot
    | Reread(p: nat) | Recheck(p: nat) | Save(p: nat)         // one round of the status loop over it
    | StartComplete(p: nat) | Complete(p: nat)
    | StartCollect(p: nat) | DropPayload(p: nat) | DropMarker(p: nat)
    | Crash(p: nat)

  predicate Enabled(s: Sys, e: Event) {
    match e
    case Tick(at) => at >= s.clock
    case Request => !s.requested
    case StartRead(p) => s.payload && p !in s.ops
    case CheckMarker(p) => p in s.ops && s.ops[p].Reading?
    case Reread(p) => p in s.ops && s.ops[p].Holding?
    case Recheck(p) => p in s.ops && s.ops[p].Rereading?
    case Save(p) => p in s.ops && s.ops[p].Saving?
    case StartComplete(p) => s.payload && p !in s.ops
    case Complete(p) => p in s.ops && s.ops[p].Completing?
    case StartCollect(p) => s.marker.Some? && s.clock - s.marker.value >= TTL && p !in s.ops
    case DropPayload(p) => p in s.ops && s.ops[p] == Collecting(false)
    case DropMarker(p) => p in s.ops && s.ops[p] == Collecting(true)
    case Crash(p) => true
  }

  function Overtake(ops: map<nat, Op>): map<nat, Op> {
    map p | p in ops :: if ops[p].Reading? || ops[p].Rereading? then ops[p].(overtaken := true) else ops[p]
  }

  function Apply(s: Sys, e: Event): Sys
    requires Enabled(s, e)
  {
    match e
    case Tick(at) => s.(clock := at)
    case Request => s.(requested := true, payload := true)
    case StartRead(p) => s.(ops := s.ops[p := Reading(s.clock, false)])
    case CheckMarker(p) => s.(ops := if s.marker.None? then s.ops[p := Holding(s.ops[p].since)] else s.ops - {p})
    // A payload that is gone is skipped; the snapshot stays, for the status of a later attempt.
    case Reread(p) => s.(ops := if s.payload then s.ops[p := Rereading(s.ops[p].since, false)] else s.ops)
    case Recheck(p) =>
      s.(ops := s.ops[p := (if s.marker.None? then Saving(s.ops[p].since) else Holding(s.ops[p].since))])
    case Save(p) => s.(payload := true, ops := s.ops[p := Holding(s.ops[p].since)])
    case StartComplete(p) => s.(ops := s.ops[p := Completing])
    case Complete(p) =>
      s.(marker := Some(s.clock), applied := if s.applied.Some? then s.applied else Some(s.clock), ops := s.ops - {p})
    case StartCollect(p) => s.(ops := s.ops[p := Collecting(false)])
    case DropPayload(p) => s.(payload := false, ops := s.ops[p := Collecting(true)])
    case DropMarker(p) => s.(marker := None, ops := Overtake(s.ops - {p}))
    case Crash(p) => s.(ops := s.ops - {p})
  }

  ghost predicate Reaches(s: Sys, events: seq<Event>, t: Sys)
    decreases |events|
  {
    if events == [] then t == s
    else Enabled(s, events[0]) && Reaches(Apply(s, events[0]), events[1..], t)
  }

  /** An update saves within the time an applied request is kept, counted from its snapshot. */
  predicate Timely(s: Sys, e: Event) {
    e.Save? && e.p in s.ops && s.ops[e.p].Saving? ==> s.clock - s.ops[e.p].since < TTL
  }

  /** A run in which every update is timely. */
  ghost predicate Orderly(s: Sys, events: seq<Event>)
    decreases |events|
  {
    events == [] || (Enabled(s, events[0]) && Timely(s, events[0]) && Orderly(Apply(s, events[0]), events[1..]))
  }

  // ---------------------------------------------------------------- completion never rewinds

  predicate OpSound(s: Sys, op: Op) {
    match op
    case Reading(since, overtaken) =>
      since <= s.clock && (overtaken ==> s.applied.Some?) && (s.applied.Some? && s.marker.None? ==> overtaken)
    // Only a read that was overtaken can hold an applied request, and then its payload is gone for good.
    case Holding(since) => since <= s.clock && (s.applied.Some? ==> since <= s.applied.value || !s.payload)
    case Rereading(since, overtaken) =>
      since <= s.clock && (s.applied.Some? ==> since <= s.applied.value)
      && (overtaken ==> s.applied.Some?) && (s.applied.Some? && s.marker.None? ==> overtaken)
    case Saving(since) => since <= s.clock && (s.applied.Some? ==> since <= s.applied.value)
    case Completing => true
    case Collecting(dropped) => s.applied.Some? && s.clock - s.applied.value >= TTL && (dropped ==> !s.payload)
  }

  predicate Sound(s: Sys) {
    && (!s.requested ==> !s.payload && s.applied.None? && s.ops == map[])
    && (s.applied.None? ==> s.marker.None? && (s.requested ==> s.payload))
    && (s.applied.Some? ==>
          s.applied.value <= s.clock && (s.payload ==> s.marker.Some?)
          && (s.clock - s.applied.value < TTL ==> s.payload))
    && (s.marker.Some? ==> s.applied.Some? && s.applied.value <= s.marker.value <= s.clock)
    && forall p :: p in s.ops ==> OpSound(s, s.ops[p])
  }

  lemma SoundSave(s: Sys, p: nat)
    requires Sound(s) && Enabled(s, Save(p)) && Timely(s, Save(p))
    ensures Sound(Apply(s, Save(p)))
  {
    assert OpSound(s, s.ops[p]);
  }

  lemma SoundComplete(s: Sys, p: nat)
    requires Sound(s) && Enabled(s, Complete(p))
    ensures Sound(Apply(s, Complete(p)))
  {
    var t := Apply(s, Complete(p));
    forall q | q in t.ops
      ensures OpSound(t, t.ops[q])
    {
      assert OpSound(s, s.ops[q]);
    }
  }

  lemma SoundDrop(s: Sys, p: nat, e: Event)
    requires Sound(s) && Enabled(s, e) && (e == DropPayload(p) || e == DropMarker(p))
    ensures Sound(Apply(s, e))
  {
    var t := Apply(s, e);
    assert OpSound(s, s.ops[p]);
    forall q | q in t.ops
      ensures OpSound(t, t.ops[q])
    {
      assert OpSound(s, s.ops[q]);
    }
  }

  lemma SoundOther(s: Sys, e: Event)
    requires Sound(s) && Enabled(s, e) && !e.Save? && !e.Complete? && !e.DropPayload? && !e.DropMarker?
    ensures Sound(Apply(s, e))
  {
    var t := Apply(s, e);
    if e.CheckMarker? || e.Reread? || e.Recheck? {
      assert OpSound(s, s.ops[e.p]);
    }
    forall q | q in t.ops
      ensures OpSound(t, t.ops[q])
    {
      assert q in s.ops ==> OpSound(s, s.ops[q]);
    }
  }

  lemma SoundStep(s: Sys, e: Event)
    requires Sound(s) && Enabled(s, e) && Timely(s, e)
    ensures Sound(Apply(s, e))
  {
    hide *;
    match e
    case Save(p) => SoundSave(s, p);
    case Complete(p) => SoundComplete(s, p);
    case DropPayload(p) => SoundDrop(s, p, e);
    case DropMarker(p) => SoundDrop(s, p, e);
    case _ => SoundOther(s, e);
  }

  /** What reading the request yields: it is owed when its payload is there and its marker is not. */
  predicate Owed(s: Sys) {
    s.payload && s.marker.None?
  }

  /** At every moment of a run with timely updates a request is owed exactly from its registration until it is
      applied. */
  lemma {:induction false} OwedIffNotApplied(s: Sys, events: seq<Event>, t: Sys)
    requires Sound(s) && Orderly(s, events) && Reaches(s, events, t)
    ensures Sound(t) && (Owed(t) <==> t.requested && t.applied.None?)
    decreases |events|
  {
    if events != [] {
      SoundStep(s, events[0]);
      hide Sound, Apply, Enabled;
      OwedIffNotApplied(Apply(s, events[0]), events[1..], t);
    }
  }

  /** An applied request stays applied, whatever follows. */
  lemma {:induction false} AppliedStays(s: Sys, events: seq<Event>, t: Sys)
    requires s.applied.Some? && Reaches(s, events, t)
    ensures t.applied == s.applied
    decreases |events|
  {
    if events != [] {
      AppliedStays(Apply(s, events[0]), events[1..], t);
    }
  }

  /** Completion never rewinds: after a request was applied no moment of a run with timely updates shows it owed again,
      whatever reads span a collection and wherever collectors crash. */
  lemma CompletionNeverRewinds(before: seq<Event>, s: Sys, after: seq<Event>, t: Sys)
    requires Reaches(EMPTY, before, s) && Orderly(EMPTY, before) && s.applied.Some?
    requires Reaches(s, after, t) && Orderly(s, after)
    ensures !Owed(t)
  {
    OwedIffNotApplied(EMPTY, before, s);
    OwedIffNotApplied(s, after, t);
    AppliedStays(s, after, t);
  }

  /** A request that was never applied is never collected: it is still owed. */
  lemma UnappliedIsKept(events: seq<Event>, t: Sys)
    requires Reaches(EMPTY, events, t) && Orderly(EMPTY, events) && t.requested && t.applied.None?
    ensures t.payload && t.marker.None?
  {
    OwedIffNotApplied(EMPTY, events, t);
  }

  /** A reader that finds no marker is wrong exactly when the marker was collected between its two looks. */
  lemma FooledIffOvertaken(events: seq<Event>, s: Sys, p: nat)
    requires Reaches(EMPTY, events, s) && Orderly(EMPTY, events)
    requires p in s.ops && (s.ops[p].Reading? || s.ops[p].Rereading?) && s.marker.None?
    ensures s.applied.Some? <==> s.ops[p].overtaken
  {
    OwedIffNotApplied(EMPTY, events, s);
    assert OpSound(s, s.ops[p]);
  }

  /** The request was collected, and no launch has applied it since. */
  ghost predicate CollectedLast(events: seq<Event>) {
    exists k :: 0 <= k < |events| && events[k].DropMarker? && forall j :: k < j < |events| ==> !events[j].Complete?
  }

  lemma {:induction false} MarkerIsGoneIff(s: Sys, events: seq<Event>, t: Sys)
    requires Reaches(s, events, t)
    ensures t.marker.None? <==>
            CollectedLast(events) || (s.marker.None? && forall j :: 0 <= j < |events| ==> !events[j].Complete?)
    decreases |events|
  {
    if events != [] {
      var rest := events[1..];
      MarkerIsGoneIff(Apply(s, events[0]), rest, t);
      MarkerStep(s, events[0]);
      hide Apply, Enabled;
      assert forall j :: 0 <= j < |rest| ==> rest[j] == events[j + 1];
      CollectedCons(events);
      assert (forall j :: 0 <= j < |events| ==> !events[j].Complete?)
        <==> !events[0].Complete? && forall j :: 0 <= j < |rest| ==> !rest[j].Complete? by {
        assert forall j :: 1 <= j < |events| ==> events[j] == rest[j - 1];
      }
    }
  }

  lemma MarkerStep(s: Sys, e: Event)
    requires Enabled(s, e)
    ensures Apply(s, e).marker.None? <==> e.DropMarker? || (s.marker.None? && !e.Complete?)
  {
  }

  lemma CollectedCons(events: seq<Event>)
    requires events != []
    ensures CollectedLast(events) <==>
            CollectedLast(events[1..])
            || (events[0].DropMarker? && forall j :: 0 <= j < |events[1..]| ==> !events[1..][j].Complete?)
  {
    var rest := events[1..];
    assert forall j :: 1 <= j < |events| ==> events[j] == rest[j - 1];
    if CollectedLast(rest) {
      var k :| 0 <= k < |rest| && rest[k].DropMarker? && forall j :: k < j < |rest| ==> !rest[j].Complete?;
      assert events[k + 1].DropMarker?;
    }
    if CollectedLast(events) {
      var k :| 0 <= k < |events| && events[k].DropMarker? && forall j :: k < j < |events| ==> !events[j].Complete?;
      assert k > 0 ==> rest[k - 1].DropMarker?;
      forall j | 0 <= j < |rest| && k - 1 < j
        ensures !rest[j].Complete?
      {
        assert rest[j] == events[j + 1];
      }
    }
  }

  /** The save of an update brings an applied request back exactly when it has been collected and not applied again
      since; that takes a snapshot a time to live old. */
  lemma SaveRevivesIffCollected(events: seq<Event>, s: Sys, p: nat)
    requires Reaches(EMPTY, events, s) && Orderly(EMPTY, events) && s.applied.Some? && Enabled(s, Save(p))
    ensures Owed(Apply(s, Save(p))) <==> CollectedLast(events)
    ensures CollectedLast(events) ==> !s.payload && s.clock - s.ops[p].since >= TTL
  {
    OwedIffNotApplied(EMPTY, events, s);
    MarkerIsGoneIff(EMPTY, events, s);
    AppliedByComplete(EMPTY, events, s);
    assert OpSound(s, s.ops[p]);
  }

  lemma {:induction false} AppliedByComplete(s: Sys, events: seq<Event>, t: Sys)
    requires Reaches(s, events, t) && s.applied.None? && t.applied.Some?
    ensures exists j :: 0 <= j < |events| && events[j].Complete?
    decreases |events|
  {
    var next := Apply(s, events[0]);
    if next.applied.None? {
      AppliedByComplete(next, events[1..], t);
      var j :| 0 <= j < |events[1..]| && events[1..][j].Complete?;
      assert events[j + 1].Complete?;
    } else {
      assert events[0].Complete?;
    }
  }

  // ---------------------------------------------------------------- an update that is not timely

  /** One event after another, when it can happen. */
  function Then(s: Option<Sys>, e: Event): Option<Sys> {
    if s.Some? && Enabled(s.value, e) then Some(Apply(s.value, e)) else None
  }

  /** A process reads the request into its snapshot and reads it again, up to the save. */
  function Update(s: Option<Sys>, p: nat): Option<Sys> {
    Then(Then(Then(Then(s, StartRead(p)), CheckMarker(p)), Reread(p)), Recheck(p))
  }

  function Collection(s: Option<Sys>, p: nat): Option<Sys> {
    Then(Then(Then(s, StartCollect(p)), DropPayload(p)), DropMarker(p))
  }

  /** The time bound is needed, whatever the request: an update saved after it has been applied and collected brings
      it back, and the next launch applies it a second time. */
  lemma LateUpdateRevives(s: Sys, updater: nat, launcher: nat, collector: nat)
    requires Sound(s) && Owed(s) && updater !in s.ops && launcher !in s.ops && collector !in s.ops
    requires updater != launcher && updater != collector && launcher != collector
    ensures var applied := Then(Then(Update(Some(s), updater), StartComplete(launcher)), Complete(launcher));
            var collected := Collection(Then(applied, Tick(s.clock + TTL)), collector);
            var revived := Then(collected, Save(updater));
            collected.Some? && !collected.value.payload && revived.Some? && revived.value.applied.Some?
              && Owed(revived.value)
  {
    UpdateReads(s, updater);
    var read := s.(ops := s.ops[updater := Saving(s.clock)]);
    LaunchApplies(read, launcher);
    var applied := Then(Then(Some(read), StartComplete(launcher)), Complete(launcher)).value;
    CollectionDrops(Apply(applied, Tick(s.clock + TTL)), collector);
  }

  lemma UpdateReads(s: Sys, p: nat)
    requires Owed(s) && p !in s.ops
    ensures Update(Some(s), p) == Some(s.(ops := s.ops[p := Saving(s.clock)]))
  {
    assert s.ops[p := Reading(s.clock, false)][p := Holding(s.clock)] == s.ops[p := Holding(s.clock)];
    assert s.ops[p := Holding(s.clock)][p := Rereading(s.clock, false)] == s.ops[p := Rereading(s.clock, false)];
    assert s.ops[p := Rereading(s.clock, false)][p := Saving(s.clock)] == s.ops[p := Saving(s.clock)];
  }

  lemma LaunchApplies(s: Sys, p: nat)
    requires s.payload && s.applied.None? && p !in s.ops
    ensures Then(Then(Some(s), StartComplete(p)), Complete(p))
            == Some(s.(marker := Some(s.clock), applied := Some(s.clock)))
  {
    assert s.ops[p := Completing] - {p} == s.ops;
  }

  lemma CollectionDrops(s: Sys, p: nat)
    requires s.marker.Some? && s.clock - s.marker.value >= TTL && p !in s.ops
    ensures Collection(Some(s), p) == Some(s.(payload := false, marker := None, ops := Overtake(s.ops)))
  {
    assert s.ops[p := Collecting(false)][p := Collecting(true)] == s.ops[p := Collecting(true)];
    assert s.ops[p := Collecting(true)] - {p} == s.ops;
  }
}
