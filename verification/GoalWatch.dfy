/** The goal watch: overlapping sweeps over stalled goals, feeding the notice board without a state file. */
module GoalWatch {
  import opened Text
  import N = NoticeBoard

  const SCAN_OVERLAP_MS := 15000

  // ---------------------------------------------------------------- one sweep

  /** A row of the goal table; a time stamp that is no finite number is missing. */
  datatype GoalRow = GoalRow(threadId: string, goalId: string, objective: string, status: string,
                             updatedAtMs: Option<int>)

  datatype Detection = Detection(personality: string, row: GoalRow, cwd: string, atMs: int)

  predicate Stalled(status: string) {
    status == "blocked" || status == "usage_limited" || status == "budget_limited"
  }

  /** What attributes a goal: the directory of each thread, the peer of a directory, and the current thread of it. */
  datatype Registry = Registry(cwdByThread: map<string, string>, peerByCwd: map<string, string>,
                               currentByCwd: Option<map<string, string>>)

  /** A present, non-empty entry. */
  function Entry(m: map<string, string>, k: string): Option<string> {
    if k in m && m[k] != "" then Some(m[k]) else None
  }

  /** A stalled goal on the current thread of a registered peer. */
  function Attribute(g: GoalRow, r: Registry): Option<Detection> {
    if !Stalled(g.status) || g.updatedAtMs.None? then None
    else
      var cwd := Entry(r.cwdByThread, g.threadId);
      if cwd.None? then None
      else
        var personality := Entry(r.peerByCwd, cwd.value);
        if personality.None? then None
        else if r.currentByCwd.Some? && Entry(r.currentByCwd.value, cwd.value) != Some(g.threadId) then None
        else Some(Detection(personality.value, g, cwd.value, g.updatedAtMs.value))
  }

  /** The goal stalled strictly after the floor. */
  function Detect(g: GoalRow, r: Registry, floor: int): Option<Detection> {
    if g.updatedAtMs.Some? && g.updatedAtMs.value <= floor then None else Attribute(g, r)
  }

  function Selected(goals: seq<GoalRow>, r: Registry, floor: int): seq<Detection> {
    if goals == [] then []
    else
      var last := Detect(goals[|goals| - 1], r, floor);
      Selected(goals[..|goals| - 1], r, floor) + if last.Some? then [last.value] else []
  }

  method SelectStalledGoals(goals: seq<GoalRow>, r: Registry, sinceMs: int) returns (out: seq<Detection>)
    ensures out == Selected(goals, r, sinceMs)
    ensures forall g :: g in goals && Detect(g, r, sinceMs).Some? ==> Detect(g, r, sinceMs).value in out
    ensures forall d :: d in out ==> d.row in goals && Detect(d.row, r, sinceMs) == Some(d)
  {
    out := [];
    for i := 0 to |goals|
      invariant out == Selected(goals[..i], r, sinceMs)
    {
      var g := goals[i];
      SelectedStep(goals, r, sinceMs, i);
      hide Selected, Stalled;
      if !Stalled(g.status) || g.updatedAtMs.None? || g.updatedAtMs.value <= sinceMs {
        continue;
      }
      var cwd := Entry(r.cwdByThread, g.threadId);
      if cwd.None? {
        continue;
      }
      var personality := Entry(r.peerByCwd, cwd.value);
      if personality.None? {
        continue;
      }
      if r.currentByCwd.Some? && Entry(r.currentByCwd.value, cwd.value) != Some(g.threadId) {
        continue;
      }
      out := out + [Detection(personality.value, g, cwd.value, g.updatedAtMs.value)];
    }
    assert goals[..|goals|] == goals;
    SelectedAre(goals, r, sinceMs);
  }

  lemma SelectedStep(goals: seq<GoalRow>, r: Registry, floor: int, i: nat)
    requires i < |goals|
    ensures var d := Detect(goals[i], r, floor);
            Selected(goals[..i + 1], r, floor)
            == if d.Some? then Selected(goals[..i], r, floor) + [d.value] else Selected(goals[..i], r, floor)
  {
    hide Detect;
    assert goals[..i + 1][..i] == goals[..i];
  }

  function NoticeOf(d: Detection, content: string): N.Input {
    N.Input(d.personality, "codex", "peer-goal-stalled", d.row.status, None, true, content, Some(d.atMs))
  }

  /** What a sweep raises, in order. */
  function Calls(found: seq<Detection>, content: Detection -> string, now: int): seq<N.Call> {
    if found == [] then []
    else
      Calls(found[..|found| - 1], content, now)
      + [N.Call(NoticeOf(found[|found| - 1], content(found[|found| - 1])), now)]
  }

  function RaiseAll(b: N.Board, ttlMs: int, calls: seq<N.Call>): N.Board {
    if calls == [] then b
    else N.Raised(RaiseAll(b, ttlMs, calls[..|calls| - 1]), ttlMs, calls[|calls| - 1].input, calls[|calls| - 1].now)
  }

  class Watch {
    const board: N.Notices
    var since: int

    constructor (board: N.Notices, now: int)
      ensures this.board == board && since == now
    {
      this.board, since := board, now;
    }

    /** One sweep. A read that fails raises nothing, but the boundary moves all the same. */
    method Tick(goals: Option<seq<GoalRow>>, r: Registry, content: Detection -> string, started: int, now: int)
      returns (raised: nat)
      modifies this, board
      ensures since == started
      ensures goals.None? ==> board.Contents() == old(board.Contents()) && raised == 0
      ensures goals.Some? ==>
                var calls := Calls(Selected(goals.value, r, old(since) - SCAN_OVERLAP_MS), content, now);
                board.Contents() == RaiseAll(old(board.Contents()), board.ttlMs, calls) && raised <= |calls|
    {
      hide N.Raised, N.DedupKey, N.Dedups, Selected, Detect, NoticeOf;
      raised := 0;
      if goals.Some? {
        var found := SelectStalledGoals(goals.value, r, since - SCAN_OVERLAP_MS);
        ghost var calls := Calls(found, content, now);
        CallsPrefix(found, content, now);
        for i := 0 to |found|
          invariant board.Contents() == RaiseAll(old(board.Contents()), board.ttlMs, calls[..i])
          invariant since == old(since) && raised <= i
        {
          var _, deduped := board.Raise(NoticeOf(found[i], content(found[i])), now);
          assert calls[..i + 1][..i] == calls[..i];
          if !deduped {
            raised := raised + 1;
          }
        }
        assert calls[..|found|] == calls;
      }
      since := started;
    }

    /** The watch from its start on a blank board: what the board holds is the fold of every call its sweeps made. */
    method Run(passes: seq<Pass>, content: Detection -> string)
      requires passes != [] && since == passes[0].started && board.Contents() == N.BLANK
      modifies this, board
      ensures since == passes[|passes| - 1].started
      ensures board.Contents() == N.Fold(board.ttlMs, WatchCalls(passes, content))
    {
      hide N.Raised, N.DedupKey, N.Dedups, Selected, Attribute, Detect, NoticeOf, Calls, PassCalls, N.Fold, RaiseAll;
      BlankFold(board.ttlMs, passes, content);
      for i := 1 to |passes|
        invariant since == passes[i - 1].started
        invariant board.Contents() == N.Fold(board.ttlMs, WatchCalls(passes[..i], content))
      {
        var p := passes[i];
        ghost var before, since0 := board.Contents(), since;
        var _ := Tick(p.goals, p.registry, content, p.started, p.raiseAt);
        TickRaises(before, board.Contents(), board.ttlMs, since0, p, content);
        WatchCallsStep(passes, content, i);
        RaiseAllFolds(board.ttlMs, WatchCalls(passes[..i], content), PassCalls(passes[i - 1].started, p, content));
      }
      assert passes[..|passes|] == passes;
    }
  }

  /** One sweep of the watch and what it reads: nothing when one of its reads fails. The first pass only sets the
      boundary. */
  datatype Pass = Pass(started: int, readAt: int, goals: Option<seq<GoalRow>>, registry: Registry, raiseAt: int)

  function PassCalls(since: int, p: Pass, content: Detection -> string): seq<N.Call> {
    if p.goals.None? then []
    else Calls(Selected(p.goals.value, p.registry, since - SCAN_OVERLAP_MS), content, p.raiseAt)
  }

  /** Every call the watch makes, in order: each sweep reads from the start of the one before. */
  function WatchCalls(passes: seq<Pass>, content: Detection -> string): seq<N.Call> {
    if |passes| <= 1 then []
    else
      var n := |passes| - 1;
      WatchCalls(passes[..n], content) + PassCalls(passes[n - 1].started, passes[n], content)
  }

  lemma BlankFold(ttlMs: int, passes: seq<Pass>, content: Detection -> string)
    requires passes != []
    ensures N.Fold(ttlMs, WatchCalls(passes[..1], content)) == N.BLANK
  {
  }

  lemma TickRaises(before: N.Board, after: N.Board, ttlMs: int, since: int, p: Pass, content: Detection -> string)
    requires p.goals.None? ==> after == before
    requires p.goals.Some? ==>
               after == RaiseAll(before, ttlMs,
                 Calls(Selected(p.goals.value, p.registry, since - SCAN_OVERLAP_MS), content, p.raiseAt))
    ensures after == RaiseAll(before, ttlMs, PassCalls(since, p, content))
  {
  }

  lemma WatchCallsStep(passes: seq<Pass>, content: Detection -> string, i: nat)
    requires 1 <= i < |passes|
    ensures WatchCalls(passes[..i + 1], content) ==
            WatchCalls(passes[..i], content) + PassCalls(passes[i - 1].started, passes[i], content)
  {
    hide WatchCalls, PassCalls;
    assert passes[..i + 1] == passes[..i] + [passes[i]];
    WatchCallsLast(passes[..i], passes[i], content);
  }

  lemma WatchCallsLast(init: seq<Pass>, last: Pass, content: Detection -> string)
    requires init != []
    ensures WatchCalls(init + [last], content)
            == WatchCalls(init, content) + PassCalls(init[|init| - 1].started, last, content)
  {
    hide PassCalls;
    assert (init + [last])[..|init|] == init;
  }

  lemma {:induction false} RaiseAllFolds(ttlMs: int, a: seq<N.Call>, b: seq<N.Call>)
    ensures RaiseAll(N.Fold(ttlMs, a), ttlMs, b) == N.Fold(ttlMs, a + b)
    decreases |b|
  {
    hide N.Raised;
    if b == [] {
      assert a + b == a;
    } else {
      RaiseAllFolds(ttlMs, a, b[..|b| - 1]);
      assert (a + b)[..|a + b| - 1] == a + b[..|b| - 1] && (a + b)[|a + b| - 1] == b[|b| - 1];
    }
  }

  lemma {:induction false} CallsPrefix(found: seq<Detection>, content: Detection -> string, now: int)
    ensures |Calls(found, content, now)| == |found|
    ensures forall i :: 0 <= i < |found| ==>
              Calls(found, content, now)[i] == N.Call(NoticeOf(found[i], content(found[i])), now)
  {
    if found != [] {
      CallsPrefix(found[..|found| - 1], content, now);
    }
  }

  // ---------------------------------------------------------------- what the watch tells

  /** The owner is told of a row: its goal stalled after the floor, on a thread of a known directory of a known peer,
      and that thread is the current one of the directory where one is known. */
  ghost predicate ToldOf(g: GoalRow, r: Registry, content: Detection -> string, floor: int, now: int, c: N.Call) {
    && g.status in {"blocked", "usage_limited", "budget_limited"} && g.updatedAtMs.Some? && g.updatedAtMs.value > floor
    && g.threadId in r.cwdByThread
    && var cwd := r.cwdByThread[g.threadId];
       && cwd != "" && cwd in r.peerByCwd && r.peerByCwd[cwd] != ""
       && (r.currentByCwd.Some? ==>
             cwd in r.currentByCwd.value && r.currentByCwd.value[cwd] == g.threadId && g.threadId != "")
       && var told := content(Detection(r.peerByCwd[cwd], g, cwd, g.updatedAtMs.value));
          && c.now == now
          && c.input == N.Input(r.peerByCwd[cwd], "codex", "peer-goal-stalled", g.status, None, true, told,
                                g.updatedAtMs)
  }

  /** The calls of the watch are exactly these: one for each row that a sweep reads and that stalled since fifteen
      seconds before the sweep in front of it began. */
  lemma {:induction false} WatchTellsIff(passes: seq<Pass>, content: Detection -> string, c: N.Call)
    ensures c in WatchCalls(passes, content) <==>
            exists n: nat, g ::
              0 < n < |passes| && passes[n].goals.Some? && g in passes[n].goals.value
              && ToldOf(g, passes[n].registry, content, passes[n - 1].started - 15000, passes[n].raiseAt, c)
  {
    hide ToldOf, PassCalls;
    if |passes| > 1 {
      var last := |passes| - 1;
      WatchTellsIff(passes[..last], content, c);
      PassTellsIff(passes[last - 1].started, passes[last], content, c);
      assert forall n :: 0 <= n < last ==> passes[..last][n] == passes[n];
    }
  }

  lemma PassTellsIff(since: int, p: Pass, content: Detection -> string, c: N.Call)
    ensures c in PassCalls(since, p, content) <==>
            p.goals.Some? && exists g ::
              g in p.goals.value && ToldOf(g, p.registry, content, since - 15000, p.raiseAt, c)
  {
    if p.goals.Some? {
      var floor := since - SCAN_OVERLAP_MS;
      var found := Selected(p.goals.value, p.registry, floor);
      SelectedAre(p.goals.value, p.registry, floor);
      CallsPrefix(found, content, p.raiseAt);
      forall g | g in p.goals.value
        ensures ToldOf(g, p.registry, content, floor, p.raiseAt, c) <==>
                var d := Detect(g, p.registry, floor);
                d.Some? && c == N.Call(NoticeOf(d.value, content(d.value)), p.raiseAt)
      {
        DetectTells(g, p.registry, content, floor, p.raiseAt, c);
      }
      hide ToldOf, Selected, Detect, NoticeOf, Calls;
      var calls := Calls(found, content, p.raiseAt);
      forall g | g in p.goals.value && ToldOf(g, p.registry, content, floor, p.raiseAt, c)
        ensures c in calls
      {
        var k :| 0 <= k < |found| && found[k] == Detect(g, p.registry, floor).value;
        assert calls[k] == c;
      }
      if c in calls {
        var k :| 0 <= k < |calls| && calls[k] == c;
        assert found[k] in found;
      }
    }
  }

  lemma DetectTells(g: GoalRow, r: Registry, content: Detection -> string, floor: int, now: int, c: N.Call)
    ensures ToldOf(g, r, content, floor, now, c) <==>
            var d := Detect(g, r, floor); d.Some? && c == N.Call(NoticeOf(d.value, content(d.value)), now)
  {
  }

  // ---------------------------------------------------------------- sweeps over time

  /** A sweep starts, reads the table, successfully or not, and raises what it selected. The first entry is the start
      of the watch, which only sets the boundary. */
  datatype Sweep = Sweep(started: int, readAt: int, ok: bool, raiseAt: int)

  predicate InOrder(sweeps: seq<Sweep>) {
    (forall i :: 0 <= i < |sweeps| ==> sweeps[i].started <= sweeps[i].readAt <= sweeps[i].raiseAt)
    && forall i, j :: 0 <= i < j < |sweeps| ==> sweeps[i].raiseAt <= sweeps[j].started
  }

  /** A goal stalled at `at`, in a row that successful reads return from `visible` on. */
  datatype Stall = Stall(at: int, visible: int)

  predicate Reads(sweeps: seq<Sweep>, i: nat, s: Stall)
    requires i < |sweeps|
  {
    i > 0 && sweeps[i].ok && sweeps[i].readAt >= s.visible
  }

  predicate Selects(sweeps: seq<Sweep>, i: nat, s: Stall)
    requires i < |sweeps|
  {
    Reads(sweeps, i, s) && s.at > sweeps[i - 1].started - SCAN_OVERLAP_MS
  }

  /** A stall is ever selected exactly when the sweep before its first successful reader started less than the overlap
      after it. */
  lemma SelectedIffFirstReaderReaches(sweeps: seq<Sweep>, s: Stall, first: nat)
    requires InOrder(sweeps) && first < |sweeps| && Reads(sweeps, first, s)
    requires forall i :: 0 < i < first ==> !Reads(sweeps, i, s)
    ensures (exists i :: 0 <= i < |sweeps| && Selects(sweeps, i, s))
            <==> sweeps[first - 1].started < s.at + SCAN_OVERLAP_MS
  {
    forall i | 0 <= i < |sweeps| && Selects(sweeps, i, s)
      ensures sweeps[first - 1].started < s.at + SCAN_OVERLAP_MS
    {
      assert first <= i;
    }
    assert sweeps[first - 1].started < s.at + SCAN_OVERLAP_MS ==> Selects(sweeps, first, s);
  }

  /** A stall that becomes readable within the overlap, after the watch began, is selected by its first successful
      reader, unless the sweep just before that one failed to read. */
  lemma NeverMissed(sweeps: seq<Sweep>, s: Stall, first: nat)
    requires InOrder(sweeps) && first < |sweeps| && Reads(sweeps, first, s)
    requires forall i :: 0 < i < first ==> !Reads(sweeps, i, s)
    requires s.visible - s.at <= SCAN_OVERLAP_MS && s.visible > sweeps[0].started
    requires first > 1 ==> sweeps[first - 1].ok
    ensures Selects(sweeps, first, s)
  {
    assert first > 1 ==> !Reads(sweeps, first - 1, s);
  }

  /** Some sweep that selects the stall raises at that time. */
  predicate RaisesAt(sweeps: seq<Sweep>, s: Stall, now: int) {
    exists i :: 0 <= i < |sweeps| && Selects(sweeps, i, s) && sweeps[i].raiseAt == now
  }

  /** Under the key the board sees this stall only, once for every sweep that selects it. */
  ghost predicate OnlyEventOnKey(sweeps: seq<Sweep>, s: Stall, calls: seq<N.Call>, key: string) {
    && (forall c :: c in calls && N.DedupKey(c.input) == key ==> c.input.eventAtMs == Some(s.at))
    && (forall k :: 0 <= k < |calls| && N.DedupKey(calls[k].input) == key ==> RaisesAt(sweeps, s, calls[k].now))
    && (forall now :: RaisesAt(sweeps, s, now) ==> CalledAt(calls, key, now))
  }

  ghost predicate CalledAt(calls: seq<N.Call>, key: string, now: int) {
    exists k :: 0 <= k < |calls| && N.DedupKey(calls[k].input) == key && calls[k].now == now
  }

  /** The call raises a notice under the key. */
  predicate RaisedAs(ttlMs: int, calls: seq<N.Call>, k: nat, key: string)
    requires k < |calls|
  {
    N.DedupKey(calls[k].input) == key && N.IsNew(ttlMs, calls, k)
  }

  predicate AtMostOne(ttlMs: int, calls: seq<N.Call>, key: string) {
    forall j, k :: 0 <= j < k < |calls| ==> !(RaisedAs(ttlMs, calls, j, key) && RaisedAs(ttlMs, calls, k, key))
  }

  /** All raises of the stall fall within one time to live. */
  ghost predicate WithinTtl(sweeps: seq<Sweep>, s: Stall, ttlMs: int) {
    forall a, b :: RaisesAt(sweeps, s, a) && RaisesAt(sweeps, s, b) ==> b - a < ttlMs
  }

  /** One-shot without a state file: a stall that some sweep selects raises a notice, counting one occurrence, and it
      raises no second one exactly when all its raises fall within one time to live. */
  lemma OneNoticeIffWithinTtl(sweeps: seq<Sweep>, s: Stall, calls: seq<N.Call>, key: string, ttlMs: int, i: nat)
    requires N.Timed(calls) && OnlyEventOnKey(sweeps, s, calls, key) && ttlMs > 0
    requires i < |sweeps| && Selects(sweeps, i, s)
    ensures exists k :: 0 <= k < |calls| && RaisedAs(ttlMs, calls, k, key)
    ensures AtMostOne(ttlMs, calls, key) <==> WithinTtl(sweeps, s, ttlMs)
    ensures var live := N.Fold(ttlMs, calls).live; key in live ==> live[key].count == 1
  {
    hide N.DedupKey, N.Fold, N.Timed, Selects, RaisedAs, CalledAt;
    assert RaisesAt(sweeps, s, sweeps[i].raiseAt) && CalledAt(calls, key, sweeps[i].raiseAt);
    CalledIsRaised(calls, key, ttlMs, sweeps[i].raiseAt);
    forall j, k | 0 <= j < k < |calls| && WithinTtl(sweeps, s, ttlMs)
      ensures !(RaisedAs(ttlMs, calls, j, key) && RaisedAs(ttlMs, calls, k, key))
    {
      NotTwice(sweeps, s, calls, key, ttlMs, j, k);
    }
    forall a, b | RaisesAt(sweeps, s, a) && RaisesAt(sweeps, s, b) && b - a >= ttlMs
      ensures !AtMostOne(ttlMs, calls, key)
    {
      assert CalledAt(calls, key, a) && CalledAt(calls, key, b);
      Twice(calls, key, ttlMs, a, b);
    }
    N.OneEventCountsOnce(ttlMs, calls, key, s.at);
  }

  lemma NotTwice(sweeps: seq<Sweep>, s: Stall, calls: seq<N.Call>, key: string, ttlMs: int, j: nat, k: nat)
    requires WithinTtl(sweeps, s, ttlMs) && N.Timed(calls) && OnlyEventOnKey(sweeps, s, calls, key)
    requires ttlMs > 0 && j < k < |calls|
    ensures !(RaisedAs(ttlMs, calls, j, key) && RaisedAs(ttlMs, calls, k, key))
  {
    hide N.DedupKey, N.IsNew, N.Timed, RaisesAt, CalledAt;
    if N.DedupKey(calls[j].input) == key && N.DedupKey(calls[k].input) == key {
      assert calls[k].now - calls[j].now < ttlMs;
      if N.IsNew(ttlMs, calls, j) && N.IsNew(ttlMs, calls, k) {
        N.RaisesAreApart(ttlMs, calls, j, k);
      }
    }
  }

  /** Two calls a time to live apart raise two notices. */
  lemma Twice(calls: seq<N.Call>, key: string, ttlMs: int, a: int, b: int)
    requires N.Timed(calls) && ttlMs > 0 && b - a >= ttlMs && CalledAt(calls, key, a) && CalledAt(calls, key, b)
    ensures !AtMostOne(ttlMs, calls, key)
  {
    hide N.DedupKey, N.IsNew, AtMostOne;
    var i :| 0 <= i < |calls| && N.DedupKey(calls[i].input) == key && calls[i].now == a;
    var j :| 0 <= j < |calls| && N.DedupKey(calls[j].input) == key && calls[j].now == b;
    var first := FirstIsNew(ttlMs, calls, key, i);
    assert calls[first].now <= a;
    var second := LaterIsNew(ttlMs, calls, key, a, j);
    Pair(ttlMs, calls, key, first, second);
  }

  lemma Pair(ttlMs: int, calls: seq<N.Call>, key: string, j: nat, k: nat)
    requires j < k < |calls| && N.DedupKey(calls[j].input) == key && N.IsNew(ttlMs, calls, j)
    requires N.DedupKey(calls[k].input) == key && N.IsNew(ttlMs, calls, k)
    ensures !AtMostOne(ttlMs, calls, key)
  {
    hide N.DedupKey, N.IsNew;
    assert RaisedAs(ttlMs, calls, j, key) && RaisedAs(ttlMs, calls, k, key);
  }

  /** A call a time to live after `a` raises, or one after `a` did. */
  lemma LaterIsNew(ttlMs: int, calls: seq<N.Call>, key: string, a: int, m: nat) returns (k: nat)
    requires N.Timed(calls) && ttlMs > 0 && m < |calls| && N.DedupKey(calls[m].input) == key
    requires calls[m].now >= a + ttlMs
    ensures k <= m && N.DedupKey(calls[k].input) == key && N.IsNew(ttlMs, calls, k) && calls[k].now > a
  {
    hide N.DedupKey, N.Dedups, N.Fold, N.LastRaise;
    k := m;
    if !N.IsNew(ttlMs, calls, m) {
      N.RaisedIffExpired(ttlMs, calls, m);
      var before := calls[..m];
      N.LastRaiseIsNew(ttlMs, before, key);
      k := N.LastRaise(ttlMs, before, key).value;
      assert before[..k] == calls[..k];
    }
  }

  /** Every sweep raises within `gap` of the start of the one before. */
  predicate Paced(sweeps: seq<Sweep>, gap: int) {
    forall i :: 0 < i < |sweeps| ==> sweeps[i].raiseAt - sweeps[i - 1].started <= gap
  }

  /** All raises of one stall fall within the gap and the overlap. */
  lemma Window(sweeps: seq<Sweep>, s: Stall, a: int, b: int, gap: int)
    requires InOrder(sweeps) && Paced(sweeps, gap) && s.at <= s.visible && RaisesAt(sweeps, s, a)
    requires RaisesAt(sweeps, s, b)
    ensures b - a < gap + SCAN_OVERLAP_MS
  {
  }

  lemma CalledIsRaised(calls: seq<N.Call>, key: string, ttlMs: int, now: int)
    requires N.Timed(calls) && ttlMs > 0 && CalledAt(calls, key, now)
    ensures exists k :: 0 <= k < |calls| && RaisedAs(ttlMs, calls, k, key)
  {
    hide N.DedupKey, N.IsNew, N.Timed;
    var m :| 0 <= m < |calls| && N.DedupKey(calls[m].input) == key && calls[m].now == now;
    var first := FirstIsNew(ttlMs, calls, key, m);
    assert RaisedAs(ttlMs, calls, first, key);
  }

  /** Without a live notice under the key a call raises one: either it does, or an earlier one did. */
  lemma FirstIsNew(ttlMs: int, calls: seq<N.Call>, key: string, m: nat) returns (k: nat)
    requires N.Timed(calls) && ttlMs > 0 && m < |calls| && N.DedupKey(calls[m].input) == key
    ensures k <= m && N.DedupKey(calls[k].input) == key && N.IsNew(ttlMs, calls, k)
  {
    hide N.DedupKey, N.Dedups, N.Fold, N.LastRaise;
    k := m;
    if !N.IsNew(ttlMs, calls, m) {
      N.RaisedIffExpired(ttlMs, calls, m);
      var before := calls[..m];
      N.LastRaiseIsNew(ttlMs, before, key);
      k := N.LastRaise(ttlMs, before, key).value;
      assert before[..k] == calls[..k];
    }
  }

  // ---------------------------------------------------------------- the watch over time

  function Sweeps(passes: seq<Pass>): seq<Sweep> {
    seq(|passes|, i requires 0 <= i < |passes| =>
      Sweep(passes[i].started, passes[i].readAt, passes[i].goals.Some?, passes[i].raiseAt))
  }

  function KeyOf(d: Detection): string {
    N.DedupKey(NoticeOf(d, ""))
  }

  lemma KeyIgnoresContent(d: Detection, content: string)
    ensures N.DedupKey(NoticeOf(d, content)) == KeyOf(d)
  {
  }

  /** The row is in the table and its notice has the key. */
  predicate Tells(gs: seq<GoalRow>, r: Registry, g: GoalRow, key: string): (b: bool)
    ensures b ==> g.updatedAtMs.Some?
  {
    g in gs && Attribute(g, r).Some? && KeyOf(Attribute(g, r).value) == key
  }

  /** The stall of this row, and of no other, has the key: successful reads return it from `s.visible` on. */
  ghost predicate OneRowOnKey(passes: seq<Pass>, s: Stall, g: GoalRow, key: string) {
    g.updatedAtMs == Some(s.at)
    && forall i :: 0 < i < |passes| && passes[i].goals.Some? ==>
         RowOnKey(passes[i].goals.value, passes[i].registry, s, g, key, passes[i].readAt)
  }

  ghost predicate RowOnKey(gs: seq<GoalRow>, r: Registry, s: Stall, g: GoalRow, key: string, readAt: int) {
    (Tells(gs, r, g, key) <==> readAt >= s.visible) && forall h :: h in gs && h != g ==> !Tells(gs, r, h, key)
  }

  /** What the watch calls under a key: one of its passes detected a row for it. */
  ghost predicate CalledBy(passes: seq<Pass>, c: N.Call, key: string, i: nat, h: GoalRow) {
    0 < i < |passes| && passes[i].goals.Some? && c.now == passes[i].raiseAt && c.input.eventAtMs == h.updatedAtMs
    && Tells(passes[i].goals.value, passes[i].registry, h, key)
    && h.updatedAtMs.value > passes[i - 1].started - SCAN_OVERLAP_MS
  }

  lemma {:induction false} SelectedAre(goals: seq<GoalRow>, r: Registry, floor: int)
    ensures forall d :: d in Selected(goals, r, floor) <==> d.row in goals && Detect(d.row, r, floor) == Some(d)
  {
    if goals != [] {
      var init, last := goals[..|goals| - 1], goals[|goals| - 1];
      SelectedAre(init, r, floor);
      assert goals == init + [last];
      hide Attribute;
    }
  }

  lemma PassCallsAre(since: int, p: Pass, content: Detection -> string, key: string)
    requires p.goals.Some?
    ensures forall c :: c in PassCalls(since, p, content) && N.DedupKey(c.input) == key ==>
              exists h :: Tells(p.goals.value, p.registry, h, key) && c.input.eventAtMs == h.updatedAtMs
                          && h.updatedAtMs.value > since - SCAN_OVERLAP_MS && c.now == p.raiseAt
    ensures forall h :: Tells(p.goals.value, p.registry, h, key) && h.updatedAtMs.value > since - SCAN_OVERLAP_MS ==>
              exists c :: c in PassCalls(since, p, content) && N.DedupKey(c.input) == key && c.now == p.raiseAt
  {
    var floor := since - SCAN_OVERLAP_MS;
    var found := Selected(p.goals.value, p.registry, floor);
    hide N.DedupKey, Selected, Calls, Attribute, Detect, NoticeOf, Tells;
    SelectedAre(p.goals.value, p.registry, floor);
    CallsPrefix(found, content, p.raiseAt);
    CallsTell(p, found, content, key, floor);
    TellsCall(p, found, content, key, floor);
  }

  /** The notices of detected rows, in their order. */
  ghost predicate Notices(p: Pass, found: seq<Detection>, content: Detection -> string, floor: int)
    requires p.goals.Some?
  {
    var calls := Calls(found, content, p.raiseAt);
    (forall d :: d in found <==> d.row in p.goals.value && Detect(d.row, p.registry, floor) == Some(d))
    && |calls| == |found|
    && forall i :: 0 <= i < |found| ==> calls[i] == N.Call(NoticeOf(found[i], content(found[i])), p.raiseAt)
  }

  lemma CallsTell(p: Pass, found: seq<Detection>, content: Detection -> string, key: string, floor: int)
    requires p.goals.Some? && Notices(p, found, content, floor)
    ensures forall c :: c in Calls(found, content, p.raiseAt) && N.DedupKey(c.input) == key ==>
              exists h :: Tells(p.goals.value, p.registry, h, key) && c.input.eventAtMs == h.updatedAtMs
                          && h.updatedAtMs.value > floor && c.now == p.raiseAt
  {
    hide N.DedupKey, Calls;
    var calls := Calls(found, content, p.raiseAt);
    forall c | c in calls && N.DedupKey(c.input) == key
      ensures exists h :: Tells(p.goals.value, p.registry, h, key) && c.input.eventAtMs == h.updatedAtMs
                          && h.updatedAtMs.value > floor && c.now == p.raiseAt
    {
      var k :| 0 <= k < |calls| && calls[k] == c;
      KeyIgnoresContent(found[k], content(found[k]));
      assert found[k] in found;
      assert Tells(p.goals.value, p.registry, found[k].row, key);
    }
  }

  lemma TellsCall(p: Pass, found: seq<Detection>, content: Detection -> string, key: string, floor: int)
    requires p.goals.Some? && Notices(p, found, content, floor)
    ensures forall h :: Tells(p.goals.value, p.registry, h, key) && h.updatedAtMs.value > floor ==>
              exists c :: c in Calls(found, content, p.raiseAt) && N.DedupKey(c.input) == key && c.now == p.raiseAt
  {
    hide N.DedupKey, Calls;
    var calls := Calls(found, content, p.raiseAt);
    forall h | Tells(p.goals.value, p.registry, h, key) && h.updatedAtMs.value > floor
      ensures exists c :: c in calls && N.DedupKey(c.input) == key && c.now == p.raiseAt
    {
      var d := Attribute(h, p.registry).value;
      assert d in found;
      var k :| 0 <= k < |found| && found[k] == d;
      KeyIgnoresContent(d, content(d));
      assert calls[k] in calls;
    }
  }

  lemma {:induction false} CallOrigin(passes: seq<Pass>, content: Detection -> string, key: string, n: nat)
    requires n <= |passes|
    ensures forall c :: c in WatchCalls(passes[..n], content) && N.DedupKey(c.input) == key ==>
              exists i: nat, h :: 0 < i < n && CalledBy(passes, c, key, i, h)
  {
    hide N.DedupKey, Tells;
    if n > 1 {
      CallOrigin(passes, content, key, n - 1);
      WatchCallsStep(passes, content, n - 1);
      if passes[n - 1].goals.Some? {
        PassCallsAre(passes[n - 2].started, passes[n - 1], content, key);
        forall c | c in PassCalls(passes[n - 2].started, passes[n - 1], content) && N.DedupKey(c.input) == key
          ensures exists i: nat, h :: 0 < i < n && CalledBy(passes, c, key, i, h)
        {
          var h :| Tells(passes[n - 1].goals.value, passes[n - 1].registry, h, key)
            && c.input.eventAtMs == h.updatedAtMs
                   && h.updatedAtMs.value > passes[n - 2].started - SCAN_OVERLAP_MS && c.now == passes[n - 1].raiseAt;
          assert CalledBy(passes, c, key, n - 1, h);
        }
      }
    }
  }

  lemma {:induction false} CallMade(passes: seq<Pass>, content: Detection -> string, key: string, n: nat, i: nat,
                                    h: GoalRow)
    requires 0 < i < n <= |passes| && passes[i].goals.Some? && Tells(passes[i].goals.value, passes[i].registry, h, key)
    requires h.updatedAtMs.value > passes[i - 1].started - SCAN_OVERLAP_MS
    ensures CalledAt(WatchCalls(passes[..n], content), key, passes[i].raiseAt)
  {
    hide N.DedupKey, Tells, WatchCalls, PassCalls, CalledAt;
    WatchCallsStep(passes, content, n - 1);
    var before, last := WatchCalls(passes[..n - 1], content), PassCalls(passes[n - 2].started, passes[n - 1], content);
    CalledInEither(before, last, key, passes[i].raiseAt);
    if i < n - 1 {
      CallMade(passes, content, key, n - 1, i, h);
    } else {
      PassCallsAre(passes[n - 2].started, passes[n - 1], content, key);
    }
  }

  lemma CalledInEither(a: seq<N.Call>, b: seq<N.Call>, key: string, now: int)
    ensures CalledAt(a, key, now) ==> CalledAt(a + b, key, now)
    ensures (exists c :: c in b && N.DedupKey(c.input) == key && c.now == now) ==> CalledAt(a + b, key, now)
  {
    hide N.DedupKey;
    forall k | 0 <= k < |a| && N.DedupKey(a[k].input) == key && a[k].now == now
      ensures CalledAt(a + b, key, now)
    {
      assert (a + b)[k] == a[k];
    }
    forall k | 0 <= k < |b| && N.DedupKey(b[k].input) == key && b[k].now == now
      ensures CalledAt(a + b, key, now)
    {
      assert (a + b)[|a| + k] == b[k];
    }
  }

  /** When one row alone has the key, what the watch calls under it is that row, once for every sweep that selects
      it. */
  lemma WatchCallsOneRow(passes: seq<Pass>, content: Detection -> string, s: Stall, g: GoalRow, key: string)
    requires OneRowOnKey(passes, s, g, key)
    ensures OnlyEventOnKey(Sweeps(passes), s, WatchCalls(passes, content), key)
  {
    hide N.DedupKey, WatchCalls, CalledAt, OneRowOnKey, CalledBy, Sweeps, RaisesAt;
    var calls, sweeps := WatchCalls(passes, content), Sweeps(passes);
    assert passes[..|passes|] == passes;
    CallOrigin(passes, content, key, |passes|);
    forall c | c in calls && N.DedupKey(c.input) == key
      ensures c.input.eventAtMs == Some(s.at) && RaisesAt(sweeps, s, c.now)
    {
      var i: nat, h :| 0 < i < |passes| && CalledBy(passes, c, key, i, h);
      CalledIsSelected(passes, s, g, key, c, i, h);
    }
    forall now | RaisesAt(sweeps, s, now)
      ensures CalledAt(calls, key, now)
    {
      SelectedIsCalled(passes, content, s, g, key, now);
    }
  }

  lemma CalledIsSelected(passes: seq<Pass>, s: Stall, g: GoalRow, key: string, c: N.Call, i: nat, h: GoalRow)
    requires OneRowOnKey(passes, s, g, key) && CalledBy(passes, c, key, i, h)
    ensures c.input.eventAtMs == Some(s.at) && RaisesAt(Sweeps(passes), s, c.now)
  {
    hide N.DedupKey, KeyOf, Attribute;
    assert RowOnKey(passes[i].goals.value, passes[i].registry, s, g, key, passes[i].readAt);
    assert h == g && Selects(Sweeps(passes), i, s);
  }

  lemma SelectedIsCalled(passes: seq<Pass>, content: Detection -> string, s: Stall, g: GoalRow, key: string, now: int)
    requires OneRowOnKey(passes, s, g, key) && RaisesAt(Sweeps(passes), s, now)
    ensures CalledAt(WatchCalls(passes, content), key, now)
  {
    hide N.DedupKey, Tells, WatchCalls, Attribute, CalledAt;
    var sweeps := Sweeps(passes);
    assert passes[..|passes|] == passes;
    var i :| 0 <= i < |sweeps| && Selects(sweeps, i, s) && sweeps[i].raiseAt == now;
    assert RowOnKey(passes[i].goals.value, passes[i].registry, s, g, key, passes[i].readAt);
    CallMade(passes, content, key, |passes|, i, g);
  }

  lemma {:induction false} CallsAtMost(passes: seq<Pass>, content: Detection -> string, n: nat)
    requires InOrder(Sweeps(passes)) && 0 < n <= |passes|
    ensures CallsUpTo(WatchCalls(passes[..n], content), passes[n - 1].raiseAt)
  {
    if n > 1 {
      CallsAtMost(passes, content, n - 1);
      WatchCallsStep(passes, content, n - 1);
      PassCallsAt(passes[n - 2].started, passes[n - 1], content);
      InTurn(passes, n);
      hide *;
      AppendCalls(WatchCalls(passes[..n - 1], content), PassCalls(passes[n - 2].started, passes[n - 1], content),
                  passes[n - 2].raiseAt, passes[n - 1].raiseAt);
    }
  }

  predicate CallsUpTo(calls: seq<N.Call>, now: int) {
    N.Timed(calls) && forall c :: c in calls ==> c.now <= now
  }

  lemma InTurn(passes: seq<Pass>, n: nat)
    requires InOrder(Sweeps(passes)) && 1 < n <= |passes|
    ensures passes[n - 2].raiseAt <= passes[n - 1].raiseAt
  {
    var s := Sweeps(passes);
    assert s[n - 2].raiseAt <= s[n - 1].started <= s[n - 1].raiseAt;
  }

  lemma PassCallsAt(since: int, p: Pass, content: Detection -> string)
    ensures forall k :: 0 <= k < |PassCalls(since, p, content)| ==> PassCalls(since, p, content)[k].now == p.raiseAt
  {
    if p.goals.Some? {
      CallsPrefix(Selected(p.goals.value, p.registry, since - SCAN_OVERLAP_MS), content, p.raiseAt);
    }
  }

  lemma AppendCalls(a: seq<N.Call>, b: seq<N.Call>, early: int, late: int)
    requires CallsUpTo(a, early) && early <= late && forall k :: 0 <= k < |b| ==> b[k].now == late
    ensures CallsUpTo(a + b, late)
  {
    forall i, j | 0 <= i < j < |a + b|
      ensures (a + b)[i].now <= (a + b)[j].now
    {
      assert i < |a| ==> a[i] in a;
    }
  }

  /** The watch over time: a stall that one of its sweeps selects raises a notice with one occurrence, and exactly one
      notice if and only if all its raises fall within one time to live. */
  lemma WatchRaisesOnceIff(passes: seq<Pass>, content: Detection -> string, s: Stall, g: GoalRow, key: string,
                           ttlMs: int, i: nat)
    requires InOrder(Sweeps(passes)) && OneRowOnKey(passes, s, g, key) && ttlMs > 0
    requires i < |passes| && Selects(Sweeps(passes), i, s)
    ensures var calls := WatchCalls(passes, content);
            (exists k :: 0 <= k < |calls| && RaisedAs(ttlMs, calls, k, key))
            && (AtMostOne(ttlMs, calls, key) <==> WithinTtl(Sweeps(passes), s, ttlMs))
            && (key in N.Fold(ttlMs, calls).live ==> N.Fold(ttlMs, calls).live[key].count == 1)
  {
    assert passes[..|passes|] == passes;
    CallsAtMost(passes, content, |passes|);
    WatchCallsOneRow(passes, content, s, g, key);
    hide *;
    OneNoticeIffWithinTtl(Sweeps(passes), s, WatchCalls(passes, content), key, ttlMs, i);
  }

  /** With pace and overlap together within the time to live it is exactly one. */
  lemma WatchRaisesOnce(passes: seq<Pass>, content: Detection -> string, s: Stall, g: GoalRow, key: string, ttlMs: int,
                        gap: int, i: nat)
    requires InOrder(Sweeps(passes)) && OneRowOnKey(passes, s, g, key) && ttlMs > 0
    requires i < |passes| && Selects(Sweeps(passes), i, s)
    requires Paced(Sweeps(passes), gap) && gap + SCAN_OVERLAP_MS <= ttlMs && s.at <= s.visible
    ensures var calls := WatchCalls(passes, content);
            (exists k :: 0 <= k < |calls| && RaisedAs(ttlMs, calls, k, key)) && AtMostOne(ttlMs, calls, key)
  {
    WatchRaisesOnceIff(passes, content, s, g, key, ttlMs, i);
    forall a, b | RaisesAt(Sweeps(passes), s, a) && RaisesAt(Sweeps(passes), s, b)
      ensures b - a < ttlMs
    {
      Window(Sweeps(passes), s, a, b, gap);
    }
  }

  /** The boundary moves over a read that failed: a stall that became readable after the sweep before it is raised at
      all only if its stamp is less than an overlap before the failed sweep began. */
  lemma {:induction false} FailedReadLosesStall(passes: seq<Pass>, content: Detection -> string, s: Stall, g: GoalRow,
                                                key: string, f: nat)
    requires InOrder(Sweeps(passes)) && OneRowOnKey(passes, s, g, key)
    requires 0 < f < |passes| && passes[f].goals.None? && s.visible > passes[f - 1].readAt
    ensures (exists c :: c in WatchCalls(passes, content) && N.DedupKey(c.input) == key) ==>
              s.at > passes[f].started - SCAN_OVERLAP_MS
  {
    assert passes[..|passes|] == passes;
    CallOrigin(passes, content, key, |passes|);
    forall c, i: nat, h | CalledBy(passes, c, key, i, h)
      ensures s.at > passes[f].started - SCAN_OVERLAP_MS
    {
      ReachesOver(passes, s, g, key, f, c, i, h);
    }
  }

  /** With sweeps at 0, 20000 and 40000, the second of them failing, a stall at 4000, readable at once, is never
      selected, although the third sweep reads it. */
  lemma StallLostToOneFailure()
    ensures var sweeps := [Sweep(0, 0, true, 0), Sweep(20000, 20000, false, 20000), Sweep(40000, 40000, true, 40000)];
            var s := Stall(4000, 4000);
            InOrder(sweeps) && Reads(sweeps, 2, s) && forall i :: 0 <= i < |sweeps| ==> !Selects(sweeps, i, s)
  {
    var sweeps := [Sweep(0, 0, true, 0), Sweep(20000, 20000, false, 20000), Sweep(40000, 40000, true, 40000)];
    SelectedIffFirstReaderReaches(sweeps, Stall(4000, 4000), 2);
  }

  lemma ReachesOver(passes: seq<Pass>, s: Stall, g: GoalRow, key: string, f: nat, c: N.Call, i: nat, h: GoalRow)
    requires InOrder(Sweeps(passes)) && OneRowOnKey(passes, s, g, key)
    requires 0 < f < |passes| && passes[f].goals.None? && s.visible > passes[f - 1].readAt
    requires CalledBy(passes, c, key, i, h)
    ensures s.at > passes[f].started - SCAN_OVERLAP_MS
  {
    hide N.DedupKey, KeyOf, Attribute;
    assert RowOnKey(passes[i].goals.value, passes[i].registry, s, g, key, passes[i].readAt);
    Later(Sweeps(passes), i, f);
  }

  lemma Later(sweeps: seq<Sweep>, i: nat, f: nat)
    requires InOrder(sweeps) && 0 < i < |sweeps| && 0 < f < |sweeps|
    ensures i < f ==> sweeps[i].readAt <= sweeps[f - 1].readAt
    ensures i > f ==> sweeps[f].started <= sweeps[i - 1].started
  {
  }
}
