/** The surface watch: a live endpoint whose configuration files differ from what its launch recorded is owed a
    reload. Writers of the files, the watch, and the steps of a launch interleave freely. */
module SurfaceWatch {
  import opened Text

  // ---------------------------------------------------------------- one sweep of the watch

  /** A hosted endpoint as the sweep sees it: whether it is watched at all, and the fingerprint of its files. */
  datatype Hosted = Hosted(identity: string, watched: bool, fingerprint: Option<string>)

  class Watch {
    var baselines: map<string, string>
    var owed: map<string, nat>

    constructor (baselines: map<string, string>, owed: map<string, nat>)
      ensures this.baselines == baselines && this.owed == owed
    {
      this.baselines, this.owed := baselines, owed;
    }

    function Pending(identity: string): nat
      reads this
    {
      Count(owed, identity)
    }

    /** After a sweep every watched endpoint has a baseline, and a request if that baseline is not what is on disk.
        A request is added for a difference without one, a baseline only where there was none. */
    method WatchSurfaces(hosted: seq<Hosted>) returns (requested: seq<string>)
      requires forall i, j :: 0 <= i < j < |hosted| ==> hosted[i].identity != hosted[j].identity
      modifies this
      ensures forall h :: h in hosted && h.watched && h.fingerprint.Some? ==>
                && h.identity in baselines
                && (baselines[h.identity] == h.fingerprint.value || (h.identity in owed && owed[h.identity] > 0))
      ensures forall id :: id in old(baselines) ==> id in baselines && baselines[id] == old(baselines)[id]
      ensures forall id :: id in baselines && id !in old(baselines) ==>
                exists h :: h in hosted && h.watched && h.identity == id && h.fingerprint == Some(baselines[id])
      ensures forall id :: Pending(id) == old(Pending(id)) + if id in requested then 1 else 0
      ensures forall id :: id in requested <==>
                && id in old(baselines) && (id in old(owed) ==> old(owed)[id] == 0)
                && exists h :: h in hosted && h.watched && h.identity == id
                               && h.fingerprint.Some? && h.fingerprint.value != old(baselines)[id]
    {
      requested := [];
      ghost var was, owing := baselines, owed;
      for i := 0 to |hosted|
        invariant Swept(was, owing, hosted[..i], baselines, owed, requested)
      {
        hide Swept;
        var h := hosted[i];
        assert hosted[..i + 1] == hosted[..i] + [h];
        SweptNext(was, owing, hosted[..i], h, baselines, owed, requested);
        if !h.watched {
          continue;
        }
        if h.fingerprint.None? {
          continue;
        }
        var now := h.fingerprint.value;
        if h.identity !in baselines {
          baselines := baselines[h.identity := now];
          continue;
        }
        if baselines[h.identity] == now {
          continue;
        }
        if Pending(h.identity) > 0 {
          continue;
        }
        owed := owed[h.identity := 1];
        requested := requested + [h.identity];
      }
      assert hosted[..|hosted|] == hosted;
    }
  }

  predicate Seen(h: Hosted) {
    h.watched && h.fingerprint.Some?
  }

  function Count(owed: map<string, nat>, identity: string): nat {
    if identity in owed then owed[identity] else 0
  }

  /** What a sweep over `hosted` makes of the baselines and the requests it found. */
  ghost predicate Swept(was: map<string, string>, owing: map<string, nat>, hosted: seq<Hosted>,
                        baselines: map<string, string>, owed: map<string, nat>, requested: seq<string>) {
    && (forall h :: h in hosted && Seen(h) ==>
          h.identity in baselines && (baselines[h.identity] == h.fingerprint.value || Count(owed, h.identity) > 0))
    && (forall id :: id in was ==> id in baselines && baselines[id] == was[id])
    && (forall id :: id in baselines && id !in was ==>
          exists h :: h in hosted && Seen(h) && h.identity == id && baselines[id] == h.fingerprint.value)
    && (forall id :: Count(owed, id) == Count(owing, id) + if id in requested then 1 else 0)
    && (forall id :: id in requested <==>
          id in was && Count(owing, id) == 0
          && exists h :: h in hosted && Seen(h) && h.identity == id && was[id] != h.fingerprint.value)
  }

  lemma SweptNext(was: map<string, string>, owing: map<string, nat>, hosted: seq<Hosted>, h: Hosted,
                  baselines: map<string, string>, owed: map<string, nat>, requested: seq<string>)
    requires Swept(was, owing, hosted, baselines, owed, requested)
    requires forall g :: g in hosted ==> g.identity != h.identity
    ensures var k, more := h.identity, hosted + [h];
            if !Seen(h) then Swept(was, owing, more, baselines, owed, requested)
            else if k !in baselines then Swept(was, owing, more, baselines[k := h.fingerprint.value], owed, requested)
            else if baselines[k] == h.fingerprint.value || Count(owed, k) > 0 then
              Swept(was, owing, more, baselines, owed, requested)
            else Swept(was, owing, more, baselines, owed[k := 1], requested + [k])
  {
    hide Swept;
    if !Seen(h) || (h.identity in baselines
                    && (baselines[h.identity] == h.fingerprint.value || Count(owed, h.identity) > 0)) {
      SweptIdle(was, owing, hosted, h, baselines, owed, requested);
    } else if h.identity !in baselines {
      SweptAdopt(was, owing, hosted, h, baselines, owed, requested);
    } else {
      SweptRequest(was, owing, hosted, h, baselines, owed, requested);
    }
  }

  lemma Member<T>(s: seq<T>, x: T)
    ensures forall y :: y in s + [x] <==> y in s || y == x
  {
  }

  lemma SweptIdle(was: map<string, string>, owing: map<string, nat>, hosted: seq<Hosted>, h: Hosted,
                  baselines: map<string, string>, owed: map<string, nat>, requested: seq<string>)
    requires Swept(was, owing, hosted, baselines, owed, requested)
    requires forall g :: g in hosted ==> g.identity != h.identity
    requires Seen(h) ==>
               h.identity in baselines && (baselines[h.identity] == h.fingerprint.value || Count(owed, h.identity) > 0)
    ensures Swept(was, owing, hosted + [h], baselines, owed, requested)
  {
    hide Seen, Count;
    Member(hosted, h);
    assert Seen(h) ==> h.fingerprint.Some? by { SeenHasOne(h); }
    if Seen(h) {
      MatchedOrOwed(was, owing, hosted, h, baselines, owed, requested);
    }
  }

  lemma SeenHasOne(h: Hosted)
    ensures Seen(h) ==> h.fingerprint.Some?
  {
  }

  /** A baseline met by the sweep either was there before it, or came from this sweep and another endpoint; so what
      differs now differed then, and then a request was owed already. */
  lemma MatchedOrOwed(was: map<string, string>, owing: map<string, nat>, hosted: seq<Hosted>, h: Hosted,
                      baselines: map<string, string>, owed: map<string, nat>, requested: seq<string>)
    requires Swept(was, owing, hosted, baselines, owed, requested)
    requires forall g :: g in hosted ==> g.identity != h.identity
    requires Seen(h) && h.identity in baselines
    ensures h.identity in was && baselines[h.identity] == was[h.identity] && h.identity !in requested
    ensures Count(owed, h.identity) == Count(owing, h.identity)
  {
    hide Count, Seen;
    var k := h.identity;
    assert k !in requested;
    assert Count(owed, k) == Count(owing, k) + if k in requested then 1 else 0;
  }

  lemma SweptAdopt(was: map<string, string>, owing: map<string, nat>, hosted: seq<Hosted>, h: Hosted,
                   baselines: map<string, string>, owed: map<string, nat>, requested: seq<string>)
    requires Swept(was, owing, hosted, baselines, owed, requested)
    requires forall g :: g in hosted ==> g.identity != h.identity
    requires Seen(h) && h.identity !in baselines
    ensures Swept(was, owing, hosted + [h], baselines[h.identity := h.fingerprint.value], owed, requested)
  {
    hide Seen, Count;
    SeenHasOne(h);
    Member(hosted, h);
  }

  lemma SweptRequest(was: map<string, string>, owing: map<string, nat>, hosted: seq<Hosted>, h: Hosted,
                     baselines: map<string, string>, owed: map<string, nat>, requested: seq<string>)
    requires Swept(was, owing, hosted, baselines, owed, requested)
    requires forall g :: g in hosted ==> g.identity != h.identity
    requires Seen(h) && h.identity in baselines && baselines[h.identity] != h.fingerprint.value
    requires Count(owed, h.identity) == 0
    ensures Swept(was, owing, hosted + [h], baselines, owed[h.identity := 1], requested + [h.identity])
  {
    SeenHasOne(h);
    MatchedOrOwed(was, owing, hosted, h, baselines, owed, requested);
    CountOne(owed, h.identity);
    Member(hosted, h);
    Member(requested, h.identity);
    hide Seen, Count;
  }

  lemma CountOne(owed: map<string, nat>, k: string)
    ensures forall id :: Count(owed[k := 1], id) == if id == k then 1 else Count(owed, id)
  {
    var more := owed[k := 1];
    forall id: string
      ensures Count(more, id) == if id == k then 1 else Count(owed, id)
    {
      assert id in more <==> id in owed || id == k;
    }
  }

  // ---------------------------------------------------------------- one endpoint over time

  /** A launch: the requests it found owed, the fingerprint it took, and what its process has read by now. */
  datatype Launch = Launch(snapshot: set<nat>, taken: Option<Option<string>>, spawned: bool, version: nat,
                           completed: bool)

  datatype World = World(
    disk: string, writes: nat,          // the surfaces, and how many writes there have been
    baseline: Option<string>,
    read: Option<string>,               // what the live process read at its launch
    owed: map<nat, nat>,                // requests, with the writes that preceded each
    applied: map<nat, nat>,             // completed requests, with the writes the completing launch had read
    asked: map<nat, nat>,               // every request ever made
    launch: Option<Launch>)

  datatype Event =
    | Put(surfaces: string)             // somebody writes the files
    | Ask(id: nat)                      // a writer that goes through the core requests a reload
    | Tick(id: nat)                     // the watch, with an id for the request it may make
    | Start | Fingerprint(ok: bool) | Spawn | Complete | Record
    | Abandon                           // a crash, or a launch that failed and left its process running
    | Die

  predicate Enabled(w: World, e: Event) {
    match e
    case Ask(id) => id !in w.asked
    case Tick(id) => id !in w.asked
    case Start => w.launch.None?
    case Fingerprint(_) => w.launch.Some? && w.launch.value.taken.None?
    case Spawn => w.launch.Some? && w.launch.value.taken.Some? && !w.launch.value.spawned
    case Complete => w.launch.Some? && w.launch.value.spawned && !w.launch.value.completed
    case Record => w.launch.Some? && w.launch.value.completed && w.launch.value.taken.Some?
    case _ => true
  }

  function Request(w: World, id: nat): World {
    w.(owed := w.owed[id := w.writes], asked := w.asked[id := w.writes])
  }

  function Watched(w: World, id: nat): World {
    if w.read.None? then w
    else if w.baseline.None? then w.(baseline := Some(w.disk))
    else if w.baseline.value == w.disk || w.owed != map[] then w
    else Request(w, id)
  }

  function Apply(w: World, e: Event): World
    requires Enabled(w, e)
  {
    match e
    case Put(surfaces) => w.(disk := surfaces, writes := w.writes + 1)
    case Ask(id) => Request(w, id)
    case Tick(id) => Watched(w, id)
    case Start => w.(read := None, launch := Some(Launch(w.owed.Keys, None, false, 0, false)))
    case Fingerprint(ok) => w.(launch := Some(w.launch.value.(taken := Some(if ok then Some(w.disk) else None))))
    case Spawn => w.(read := Some(w.disk), launch := Some(w.launch.value.(spawned := true, version := w.writes)))
    case Complete =>
      w.(owed := w.owed - w.launch.value.snapshot,
         applied := w.applied + map id | id in w.owed && id in w.launch.value.snapshot :: w.launch.value.version,
         launch := Some(w.launch.value.(completed := true)))
    case Record =>
      w.(baseline := if w.launch.value.taken.value.Some? then w.launch.value.taken.value else w.baseline,
         launch := None)
    case Abandon => w.(launch := None)
    case Die => w.(read := None)
  }

  // ---------------------------------------------------------------- no difference goes unnoticed

  /** The live process runs what is on disk, or a reload is owed. */
  predicate Covered(w: World) {
    w.read.Some? && w.baseline.Some? ==> w.read.value == w.disk || w.owed != map[]
  }

  /** A live process with a baseline is covered by the next sweep, whatever anybody writes before it, exactly when its
      baseline is what it has read or a reload is already owed. */
  lemma CoveredWhateverIsWrittenIff(w: World, id: nat)
    requires Enabled(w, Tick(id)) && w.read.Some? && w.baseline.Some?
    ensures (forall d: string :: Covered(Watched(w.(disk := d), id))) <==> w.baseline == w.read || w.owed != map[]
  {
    forall d: string | w.baseline == w.read || w.owed != map[]
      ensures Covered(Watched(w.(disk := d), id))
    {
      assert id in Request(w.(disk := d), id).owed;
    }
    var back := w.(disk := w.baseline.value);
    assert Watched(back, id) == back;
  }

  ghost predicate Run(w: World, events: seq<Event>, t: World)
    decreases |events|
  {
    if events == [] then t == w
    else Enabled(w, events[0]) && Run(Apply(w, events[0]), events[1..], t)
  }

  /** Nobody writes back surfaces that were on disk before the current ones, and a baseline is adopted only from a
      process that runs what is on disk. `seen` holds the surfaces there have been. */
  ghost predicate NothingRestored(w: World, seen: set<string>, events: seq<Event>)
    decreases |events|
  {
    events == [] || (Enabled(w, events[0]) && NewOrSame(w, seen, events[0]) && FairAdoption(w, events[0])
                     && NothingRestored(Apply(w, events[0]), Noted(seen, events[0]), events[1..]))
  }

  predicate NewOrSame(w: World, seen: set<string>, e: Event) {
    e.Put? ==> e.surfaces == w.disk || e.surfaces !in seen
  }

  predicate FairAdoption(w: World, e: Event) {
    e.Tick? && w.read.Some? && w.baseline.None? ==> w.read.value == w.disk
  }

  function Noted(seen: set<string>, e: Event): set<string> {
    if e.Put? then seen + {e.surfaces} else seen
  }

  function Taken(w: World): Option<string> {
    if w.launch.Some? && w.launch.value.taken.Some? then w.launch.value.taken.value else None
  }

  /** A baseline, or the fingerprint of a launch that has started its process, is what is on disk only if the live
      process has read it. */
  predicate Current(w: World, seen: set<string>) {
    && w.disk in seen && (w.baseline.Some? ==> w.baseline.value in seen) && (Taken(w).Some? ==> Taken(w).value in seen)
    && (w.launch.Some? ==> if w.launch.value.spawned then w.launch.value.taken.Some? else w.read.None?)
    && (w.read.Some? && (w.baseline == Some(w.disk) || Taken(w) == Some(w.disk)) ==> w.read.value == w.disk)
  }

  lemma CurrentStep(w: World, seen: set<string>, e: Event)
    requires Current(w, seen) && Enabled(w, e) && NewOrSame(w, seen, e) && FairAdoption(w, e)
    ensures Current(Apply(w, e), Noted(seen, e))
  {
  }

  lemma {:induction false} CurrentStays(w: World, seen: set<string>, events: seq<Event>, t: World)
    requires Current(w, seen) && NothingRestored(w, seen, events) && Run(w, events, t)
    ensures exists later: set<string> :: Current(t, later)
    decreases |events|
  {
    if events != [] {
      CurrentStep(w, seen, events[0]);
      hide Current, Apply, Enabled, NewOrSame, FairAdoption, Noted;
      CurrentStays(Apply(w, events[0]), Noted(seen, events[0]), events[1..], t);
    }
  }

  /** Wherever writes land, between the fingerprint and the process reading the files included, and wherever launches
      crash or leave their process running: unless earlier surfaces are written back, every sweep leaves the live
      process running what is on disk or owed a reload. */
  lemma SweepMissesNothing(w: World, seen: set<string>, events: seq<Event>, t: World, id: nat)
    requires Current(w, seen) && NothingRestored(w, seen, events) && Run(w, events, t)
    requires Enabled(t, Tick(id)) && FairAdoption(t, Tick(id))
    ensures Covered(Watched(t, id))
  {
    CurrentStays(w, seen, events, t);
    assert id in Request(t, id).owed;
  }

  /** Every launch reads what it fingerprinted, none leaves its process running unrecorded, and a baseline is adopted
      only from a process that runs what is on disk. */
  predicate Disciplined(w: World, e: Event) {
    match e
    case Spawn => w.launch.Some? && w.launch.value.taken.Some? ==> w.launch.value.taken.value == Some(w.disk)
    case Abandon => w.launch.Some? ==> w.read.None?
    case Tick(_) => w.read.Some? && w.baseline.None? ==> w.read.value == w.disk
    case _ => true
  }

  /** Outside a launch the baseline is what the live process read; inside, the fingerprint taken is. */
  predicate Honest(w: World) {
    if w.launch.None? then w.read.Some? ==> w.baseline.None? || w.baseline == w.read
    else
      var l := w.launch.value;
      (l.completed ==> l.spawned)
      && if l.spawned then l.taken.Some? && l.taken.value.Some? && (w.read.Some? ==> w.read == l.taken.value)
         else w.read.None?
  }

  lemma HonestStep(w: World, e: Event)
    requires Honest(w) && Enabled(w, e) && Disciplined(w, e)
    ensures Honest(Apply(w, e))
  {
  }

  ghost predicate DisciplinedRun(w: World, events: seq<Event>, t: World)
    decreases |events|
  {
    if events == [] then t == w
    else Enabled(w, events[0]) && Disciplined(w, events[0]) && DisciplinedRun(Apply(w, events[0]), events[1..], t)
  }

  lemma {:induction false} HonestRun(w: World, events: seq<Event>, t: World)
    requires Honest(w) && DisciplinedRun(w, events, t)
    ensures Honest(t)
    decreases |events|
  {
    if events != [] {
      HonestStep(w, events[0]);
      HonestRun(Apply(w, events[0]), events[1..], t);
    }
  }

  /** When every launch reads what it fingerprinted and is recorded, writing back earlier surfaces does no harm either,
      and a sweep outside a launch asks for a reload exactly when the live process runs something else and none is
      owed. */
  lemma RecordedLaunchesSweepExactly(w: World, events: seq<Event>, t: World, id: nat)
    requires Honest(w) && DisciplinedRun(w, events, t)
    requires t.launch.None? && Enabled(t, Tick(id)) && Disciplined(t, Tick(id))
    ensures Covered(Watched(t, id))
    ensures id in Watched(t, id).asked <==> t.read.Some? && t.read.value != t.disk && t.owed == map[]
  {
    HonestRun(w, events, t);
    assert id in Request(t, id).owed;
  }

  /** When the writing stops, one launch settles everything: the process runs what is on disk, the baseline says so,
      nothing is owed, and no later sweep asks for anything. */
  lemma LaunchConverges(w: World, id: nat)
    requires w.launch.None? && id !in w.asked
    ensures var t := Then(Then(Then(Then(Then(Some(w), Start), Fingerprint(true)), Spawn), Complete), Record);
            t.Some? && t.value.read == Some(w.disk) && t.value.baseline == Some(w.disk) && t.value.disk == w.disk
            && t.value.owed == map[] && Watched(t.value, id) == t.value
  {
    var launched := Apply(Apply(Apply(w, Start), Fingerprint(true)), Spawn);
    var t := Apply(Apply(launched, Complete), Record);
    assert t.owed == w.owed - w.owed.Keys == map[];
  }

  function Then(w: Option<World>, e: Event): Option<World> {
    if w.Some? && Enabled(w.value, e) then Some(Apply(w.value, e)) else None
  }

  // ---------------------------------------------------------------- no request is lost, and none acknowledged early

  /** Every request ever made is owed or applied, and applied only by a launch that had read every write before it. */
  predicate Kept(w: World) {
    && w.asked.Keys == w.owed.Keys + w.applied.Keys
    && (forall id :: id in w.asked ==> w.asked[id] <= w.writes)
    && (forall id :: id in w.owed ==> w.owed[id] == w.asked[id])
    && (forall id :: id in w.applied ==> w.asked[id] <= w.applied[id] <= w.writes)
    && (w.launch.Some? ==>
          var l := w.launch.value;
          l.snapshot <= w.asked.Keys && (l.spawned ==> l.version <= w.writes)
          && forall id :: id in l.snapshot ==> w.asked[id] <= if l.spawned then l.version else w.writes)
  }

  lemma KeptRequest(w: World, id: nat)
    requires Kept(w) && id !in w.asked
    ensures Kept(Request(w, id))
  {
  }

  lemma KeptComplete(w: World)
    requires Kept(w) && Enabled(w, Complete)
    ensures Kept(Apply(w, Complete))
  {
    var t := Apply(w, Complete);
    assert t.owed.Keys == w.owed.Keys - w.launch.value.snapshot;
    assert t.applied.Keys == w.applied.Keys + (w.owed.Keys * w.launch.value.snapshot);
  }

  lemma KeptOtherwise(w: World, e: Event)
    requires Kept(w) && Enabled(w, e) && !e.Ask? && !e.Tick? && !e.Complete?
    ensures Kept(Apply(w, e))
  {
  }

  lemma KeptAdopt(w: World, s: string)
    requires Kept(w)
    ensures Kept(w.(baseline := Some(s)))
  {
  }

  lemma KeptStep(w: World, e: Event)
    requires Kept(w) && Enabled(w, e)
    ensures Kept(Apply(w, e))
  {
    hide Kept, Request;
    match e
    case Ask(id) => KeptRequest(w, id);
    case Tick(id) =>
      KeptRequest(w, id);
      KeptAdopt(w, w.disk);
    case Complete => KeptComplete(w);
    case _ => KeptOtherwise(w, e);
  }

  /** Over any run, with any interleaving of writes, requests, launches and crashes. */
  lemma {:induction false} NoRequestIsLost(w: World, events: seq<Event>, t: World)
    requires Kept(w) && Run(w, events, t)
    ensures Kept(t)
    decreases |events|
  {
    if events != [] {
      KeptStep(w, events[0]);
      hide Kept, Apply, Enabled;
      NoRequestIsLost(Apply(w, events[0]), events[1..], t);
    }
  }

  /** An endpoint nobody has hosted yet: no process, no baseline and no request. */
  function Blank(disk: string): World {
    World(disk, 0, None, None, map[], map[], map[], None)
  }

  /** From there on every run keeps its requests, and one that restores nothing is covered by every sweep. */
  lemma FromTheStart(disk: string, events: seq<Event>, t: World, id: nat)
    requires Run(Blank(disk), events, t)
    ensures Kept(t)
    ensures NothingRestored(Blank(disk), {disk}, events) && Enabled(t, Tick(id)) && FairAdoption(t, Tick(id)) ==>
              Covered(Watched(t, id))
    ensures DisciplinedRun(Blank(disk), events, t) && t.launch.None? && Enabled(t, Tick(id))
            && Disciplined(t, Tick(id)) ==>
              Covered(Watched(t, id))
  {
    BlankMeets(disk);
    hide Kept, Current, Honest, Blank;
    NoRequestIsLost(Blank(disk), events, t);
    if NothingRestored(Blank(disk), {disk}, events) && Enabled(t, Tick(id)) && FairAdoption(t, Tick(id)) {
      SweepMissesNothing(Blank(disk), {disk}, events, t, id);
    }
    if DisciplinedRun(Blank(disk), events, t) && t.launch.None? && Enabled(t, Tick(id)) && Disciplined(t, Tick(id)) {
      RecordedLaunchesSweepExactly(Blank(disk), events, t, id);
    }
  }

  lemma BlankMeets(disk: string)
    ensures Kept(Blank(disk)) && Current(Blank(disk), {disk}) && Honest(Blank(disk))
  {
  }

  // ---------------------------------------------------------------- how a difference is missed

  /** A write that lands after the fingerprint and is taken back after the process has read it. */
  lemma WriteDuringLaunchIsMissed(w: World, other: string, id: nat)
    requires w.launch.None? && other != w.disk && id !in w.asked
    ensures var spawned := Then(Then(Then(Then(Some(w), Start), Fingerprint(true)), Put(other)), Spawn);
            var t := Then(Then(Then(Then(spawned, Put(w.disk)), Complete), Record), Tick(id));
            t.Some? && t.value.disk == w.disk && t.value.read == Some(other) && !Covered(t.value)
  {
    var launched := Apply(Apply(Apply(Apply(w, Start), Fingerprint(true)), Put(other)), Spawn);
    var t := Apply(Apply(Apply(launched, Put(w.disk)), Complete), Record);
    assert t.owed == w.owed - w.owed.Keys == map[];
  }

  /** A crash after the requests were completed and before the baseline was written, followed by a write of the old
      surfaces. */
  lemma UnrecordedLaunchIsMissed(w: World, id: nat)
    requires w.launch.None? && w.baseline.Some? && w.baseline.value != w.disk && id !in w.asked
    ensures var completed := Then(Then(Then(Then(Some(w), Start), Fingerprint(true)), Spawn), Complete);
            var t := Then(Then(Then(completed, Abandon), Put(w.baseline.value)), Tick(id));
            t.Some? && t.value.read == Some(w.disk) && t.value.disk == w.baseline.value && !Covered(t.value)
  {
    var launched := Apply(Apply(Apply(w, Start), Fingerprint(true)), Spawn);
    var t := Apply(Apply(Apply(launched, Complete), Abandon), Put(w.baseline.value));
    assert t.owed == w.owed - w.owed.Keys == map[];
  }

  /** A baseline adopted from the disk while the process runs something older. */
  lemma AdoptionHidesDifference(w: World, id: nat)
    requires w.launch.None? && w.read.Some? && w.read.value != w.disk && w.baseline.None? && w.owed == map[]
    requires id !in w.asked
    ensures !Covered(Watched(w, id)) && Watched(Watched(w, id), id) == Watched(w, id)
  {
  }
}
