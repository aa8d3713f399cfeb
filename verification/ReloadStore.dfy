/** Capability reload requests: one payload file and one completion marker a request, shared by processes that
    request, update, complete and collect without a lock. */
module ReloadStore {
  import opened Text

  const APPLIED_TTL_MS := 60 * 60 * 1000

  // ---------------------------------------------------------------- the store of one endpoint

  datatype State = Pending | Replacing | Failed | Applied

  datatype Request = Request(id: string, requestedAt: int, state: State, detail: string, resumeRef: Option<string>,
                             attemptAt: Option<int>, retire: bool)

  const LAUNCHED := "runtime launched with the current capability configuration"
  const REMOVAL := "remove-runtime owed after the current turn"
  const WAITING := "waiting for a native idle turn boundary"

  function Owed(payloads: map<string, Request>, markers: map<string, int>): (s: set<string>)
    ensures forall id :: id in s <==> id in payloads && id !in markers && payloads[id].state != Applied
  {
    set id | id in payloads && id !in markers && payloads[id].state != Applied
  }

  /** The requests applied long enough ago to be collected. */
  function Expired(markers: map<string, int>, now: int): (s: set<string>)
    ensures forall id :: id in s <==> id in markers && now - markers[id] >= APPLIED_TTL_MS
  {
    set id | id in markers && now - markers[id] >= APPLIED_TTL_MS
  }

  /** Collecting completed requests, payload and marker, changes nothing that is owed. */
  lemma CollectingKeepsOwed(payloads: map<string, Request>, markers: map<string, int>, gone: set<string>)
    requires gone <= markers.Keys
    ensures Owed(payloads - gone, markers - gone) == Owed(payloads, markers)
  {
  }

  lemma Without<T>(m: map<string, T>, gone: set<string>, id: string)
    ensures m - gone - {id} == m - (gone + {id})
  {
  }

  lemma AllCollected(files: seq<string>, m: map<string, int>, expired: set<string>, gone: set<string>)
    requires gone <= expired <= m.Keys && forall id :: id in files <==> id in m
    requires forall k :: 0 <= k < |files| ==> (files[k] in expired ==> files[k] in gone)
    ensures gone == expired
  {
    forall id | id in expired
      ensures id in gone
    {
      var k :| 0 <= k < |files| && files[k] == id;
    }
  }

  /** A request with a new status; a resume reference is only ever replaced. */
  function Reported(r: Request, state: State, detail: string, resumeRef: Option<string>, now: int): Request {
    r.(state := state, detail := detail, attemptAt := Some(now),
       resumeRef := if resumeRef.Some? then resumeRef else r.resumeRef)
  }

  /** Reporting twice is reporting once. */
  lemma ReportedAgain(r: Request, state: State, detail: string, resumeRef: Option<string>, now: int)
    ensures Reported(Reported(r, state, detail, resumeRef, now), state, detail, resumeRef, now)
         == Reported(r, state, detail, resumeRef, now)
    ensures Reported(r, state, detail, resumeRef, now).state == state
  {
  }

  /** The queue directory: payloads by id, and the time each completion marker was written. */
  class Store {
    var payloads: map<string, Request>
    var markers: map<string, int>

    /** A directory as it is found. */
    constructor (payloads: map<string, Request>, markers: map<string, int>)
      ensures this.payloads == payloads && this.markers == markers
    {
      this.payloads, this.markers := payloads, markers;
    }

    /** Completion is a separate fact, which no payload can contradict. */
    function ReadReload(id: string): (r: Option<Request>)
      reads this
      ensures r.Some? <==> id in payloads
      ensures r.Some? && id in markers ==> r.value == payloads[id].(state := Applied, detail := LAUNCHED)
      ensures r.Some? && id !in markers ==> r.value == payloads[id]
    {
      if id !in payloads then None
      else if id in markers then Some(payloads[id].(state := Applied, detail := LAUNCHED))
      else Some(payloads[id])
    }

    /** The ids of the requests still owed. */
    function PendingReloads(): (s: set<string>)
      reads this
      ensures s == Owed(payloads, markers)
    {
      Owed(payloads, markers)
    }

    method SaveReload(r: Request)
      modifies this
      ensures payloads == old(payloads)[r.id := r] && markers == old(markers)
      ensures r.id in markers ==> PendingReloads() == old(PendingReloads())
    {
      payloads := payloads[r.id := r];
    }

    method RequestReload(id: string, now: int) returns (r: Request)
      requires id !in payloads && id !in markers
      modifies this
      ensures payloads == old(payloads)[id := r] && markers == old(markers) && r.id == id && r.requestedAt == now
      ensures !r.retire && r.state == Pending && r.detail == WAITING && r.resumeRef.None? && r.attemptAt.None?
      ensures PendingReloads() == old(PendingReloads()) + {id}
    {
      r := Request(id, now, Pending, WAITING, None, None, false);
      SaveReload(r);
    }

    /** The request of a removal is a reload request that asks for retirement. */
    method RequestRetire(id: string, now: int) returns (r: Request)
      requires id !in payloads && id !in markers
      modifies this
      ensures payloads == old(payloads)[id := r] && markers == old(markers) && r.id == id && r.requestedAt == now
      ensures r.retire && r.state == Pending && r.detail == REMOVAL && r.resumeRef.None? && r.attemptAt.None?
      ensures PendingReloads() == old(PendingReloads()) + {id}
    {
      r := Request(id, now, Pending, REMOVAL, None, None, true);
      SaveReload(r);
    }

    /** Marks the snapshot: nothing else stops being owed, and nothing of it stays owed. */
    method CompleteReloads(requests: seq<Request>, now: int)
      modifies this
      ensures payloads == old(payloads)
      ensures forall id :: id in markers <==>
                id in old(markers) || (id in payloads && exists r :: r in requests && r.id == id)
      ensures forall id :: id in old(markers) && (forall r :: r in requests ==> r.id != id) ==>
                markers[id] == old(markers)[id]
      ensures forall r :: r in requests && r.id in payloads ==> markers[r.id] == now
      ensures PendingReloads() == old(PendingReloads()) - set r | r in requests :: r.id
    {
      for i := 0 to |requests|
        invariant payloads == old(payloads)
        invariant forall id :: id in markers <==>
                    id in old(markers) || (id in payloads && exists r :: r in requests[..i] && r.id == id)
        invariant forall id :: id in old(markers) && (forall r :: r in requests[..i] ==> r.id != id) ==>
                    markers[id] == old(markers)[id]
        invariant forall r :: r in requests[..i] && r.id in payloads ==> markers[r.id] == now
      {
        assert requests[..i + 1] == requests[..i] + [requests[i]];
        if requests[i].id in payloads {
          markers := markers[requests[i].id := now];
        }
      }
      assert requests[..|requests|] == requests;
      ghost var done := set r | r in requests :: r.id;
      assert forall id :: id in done <==> exists r :: r in requests && r.id == id;
    }

    /** Collects the requests applied long enough ago, payload first: what is owed does not change. An endpoint that
        left the registry takes its whole queue with it. */
    method GcReloads(files: seq<string>, endpointExists: bool, now: int) returns (removed: nat)
      requires forall id :: id in files <==> id in markers
      requires forall i, j :: 0 <= i < j < |files| ==> files[i] != files[j]
      modifies this
      ensures !endpointExists ==> payloads == map[] && markers == map[] && removed == |old(payloads)|
      ensures endpointExists ==>
              && payloads == old(payloads) - Expired(old(markers), now)
              && markers == old(markers) - Expired(old(markers), now)
      ensures endpointExists ==> removed == |Expired(old(markers), now)| && PendingReloads() == old(PendingReloads())
    {
      if !endpointExists {
        removed := |payloads|;
        payloads, markers := map[], map[];
        return;
      }
      CollectingKeepsOwed(payloads, markers, Expired(markers, now));
      removed := CollectExpired(files, now);
    }

    method CollectExpired(files: seq<string>, now: int) returns (removed: nat)
      requires forall id :: id in files <==> id in markers
      requires forall i, j :: 0 <= i < j < |files| ==> files[i] != files[j]
      modifies this
      ensures payloads == old(payloads) - Expired(old(markers), now)
      ensures markers == old(markers) - Expired(old(markers), now)
      ensures removed == |Expired(old(markers), now)|
    {
      ghost var p, m, expired := payloads, markers, Expired(markers, now);
      ghost var gone: set<string> := {};
      removed := 0;
      for i := 0 to |files|
        invariant gone <= expired && removed == |gone|
        invariant forall k :: 0 <= k < i ==> (files[k] in expired ==> files[k] in gone)
        invariant forall k :: i <= k < |files| ==>
                  files[k] !in gone && files[k] in markers && markers[files[k]] == m[files[k]]
        invariant payloads == p - gone && markers == m - gone
      {
        if now - markers[files[i]] >= APPLIED_TTL_MS {
          Without(p, gone, files[i]);
          Without(m, gone, files[i]);
          Drop(files[i]);
          gone := gone + {files[i]};
          removed := removed + 1;
        }
      }
      AllCollected(files, m, expired, gone);
    }

    /** The payload goes before its marker. */
    method Drop(id: string)
      modifies this
      ensures payloads == old(payloads) - {id} && markers == old(markers) - {id}
    {
      payloads := payloads - {id};
      markers := markers - {id};
    }

    /** The status loop over a snapshot of owed requests: an applied or collected request is left alone. */
    method Update(requests: seq<string>, state: State, detail: string, resumeRef: Option<string>, now: int)
      returns (changed: bool)
      requires state != Applied
      modifies this
      ensures markers == old(markers) && payloads.Keys == old(payloads.Keys)
      ensures forall id :: id in payloads ==>
                if id in requests && id in old(PendingReloads()) then
                  payloads[id] == old(payloads)[id].(
                    state := state, detail := detail, attemptAt := Some(now),
                    resumeRef := if resumeRef.Some? then resumeRef else old(payloads)[id].resumeRef)
                else payloads[id] == old(payloads)[id]
      ensures PendingReloads() == old(PendingReloads())
      ensures changed <==> AnyDiffers(old(payloads), old(markers), requests, state, detail)
    {
      changed := false;
      ghost var was := payloads;
      for i := 0 to |requests|
        invariant markers == old(markers)
        invariant ReportedIn(was, markers, payloads, requests[..i], state, detail, resumeRef, now)
        invariant changed <==> AnyDiffers(was, markers, requests[..i], state, detail)
      {
        AnyDiffersStep(was, markers, payloads, requests[..i], requests[i], state, detail, resumeRef, now);
        hide ReportedIn, AnyDiffers;
        ReportOne(was, markers, payloads, requests[..i], requests[i], state, detail, resumeRef, now);
        assert requests[..i + 1] == requests[..i] + [requests[i]];
        var current := ReadReload(requests[i]);
        if current.Some? && current.value.state != Applied {
          var r := current.value;
          if r.state != state || r.detail != detail {
            changed := true;
          }
          payloads := payloads[requests[i] := r.(state := state, detail := detail, attemptAt := Some(now),
                                                 resumeRef := if resumeRef.Some? then resumeRef else r.resumeRef)];
        }
      }
      assert requests[..|requests|] == requests;
    }
  }

  /** Some owed request among `ids` had another status. */
  ghost predicate AnyDiffers(was: map<string, Request>, markers: map<string, int>, ids: seq<string>, state: State,
                             detail: string) {
    exists id :: id in ids && id in Owed(was, markers) && (was[id].state != state || was[id].detail != detail)
  }

  lemma AnyDiffersStep(was: map<string, Request>, markers: map<string, int>, p: map<string, Request>, ids: seq<string>,
                       x: string, state: State, detail: string, resumeRef: Option<string>, now: int)
    requires state != Applied && ReportedIn(was, markers, p, ids, state, detail, resumeRef, now)
    ensures AnyDiffers(was, markers, ids + [x], state, detail) <==>
              AnyDiffers(was, markers, ids, state, detail)
              || (x in p && x !in markers && p[x].state != Applied && (p[x].state != state || p[x].detail != detail))
  {
    if x in Owed(was, markers) && (was[x].state != state || was[x].detail != detail) {
      assert x in ids + [x];
    }
    if AnyDiffers(was, markers, ids, state, detail) {
      var id :| id in ids && id in Owed(was, markers) && (was[id].state != state || was[id].detail != detail);
      assert id in ids + [x];
    }
  }

  /** The payloads with the status of the owed requests among `ids` reported. */
  ghost predicate ReportedIn(was: map<string, Request>, markers: map<string, int>, p: map<string, Request>,
                             ids: seq<string>, state: State, detail: string, resumeRef: Option<string>, now: int) {
    p.Keys == was.Keys
    && forall id :: id in p ==>
         p[id] == if id in ids && id in Owed(was, markers)
                  then Reported(was[id], state, detail, resumeRef, now) else was[id]
  }

  lemma ReportOne(was: map<string, Request>, markers: map<string, int>, p: map<string, Request>, ids: seq<string>,
                  x: string, state: State, detail: string, resumeRef: Option<string>, now: int)
    requires state != Applied && ReportedIn(was, markers, p, ids, state, detail, resumeRef, now)
    ensures var next := if x in p && x !in markers && p[x].state != Applied
                        then p[x := Reported(p[x], state, detail, resumeRef, now)] else p;
            ReportedIn(was, markers, next, ids + [x], state, detail, resumeRef, now)
  {
    hide Owed;
    if x in p && x in ids && x in Owed(was, markers) {
      ReportedAgain(was[x], state, detail, resumeRef, now);
    }
  }
}
