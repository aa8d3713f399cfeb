/** The notice board: one live notice a condition, folded while it lives, dropped when it expires. */
module NoticeBoard {
  import opened Text

  datatype Input = Input(personality: string, runtime: string, kind: string, errorType: string, model: Option<string>,
                         owner: bool, content: string, eventAtMs: Option<int>)

  datatype Notice = Notice(id: nat, input: Input, createdMs: int, lastMs: int, expiresMs: int, count: nat,
                           lastEventMs: Option<int>)

  /** A missing model counts as an empty one. */
  function ModelText(i: Input): string {
    if i.model.Some? then i.model.value else ""
  }

  /** The identity of a condition. */
  function DedupKey(i: Input): string {
    i.personality + "|" + (i.runtime + "|" + (i.kind + "|" + (i.errorType + "|" + ModelText(i))))
  }

  datatype Board = Board(live: map<string, Notice>, counter: nat)

  function Pruned(live: map<string, Notice>, now: int): map<string, Notice> {
    map k | k in live && live[k].expiresMs > now :: live[k]
  }

  predicate Dedups(b: Board, i: Input, now: int) {
    DedupKey(i) in Pruned(b.live, now)
  }

  /** A live notice takes in a call: only an event newer than the newest counted one is an occurrence. */
  function Folded(n: Notice, i: Input, now: int): Notice {
    if i.eventAtMs.Some? && n.lastEventMs.Some? && i.eventAtMs.value <= n.lastEventMs.value then n
    else n.(count := n.count + 1, lastMs := now,
            lastEventMs := if i.eventAtMs.Some? then i.eventAtMs else n.lastEventMs)
  }

  function Raised(b: Board, ttlMs: int, i: Input, now: int): Board {
    var live, key := Pruned(b.live, now), DedupKey(i);
    if key in live then Board(live[key := Folded(live[key], i, now)], b.counter)
    else Board(live[key := Notice(b.counter + 1, i, now, now, now + ttlMs, 1, i.eventAtMs)], b.counter + 1)
  }

  /** Every notice sits under its own key with an id of its own. */
  predicate Sound(b: Board) {
    (forall k :: k in b.live ==> DedupKey(b.live[k].input) == k && 0 < b.live[k].id <= b.counter && b.live[k].count > 0)
    && forall j, k :: j in b.live && k in b.live && b.live[j].id == b.live[k].id ==> j == k
  }

  lemma SoundRaised(b: Board, ttlMs: int, i: Input, now: int)
    requires Sound(b)
    ensures Sound(Raised(b, ttlMs, i, now))
  {
    hide DedupKey;
  }

  lemma SoundPruned(b: Board, now: int)
    requires Sound(b)
    ensures Sound(b.(live := Pruned(b.live, now)))
  {
    hide DedupKey;
  }

  datatype Audience = Owner | Operator | All

  predicate For(n: Notice, a: Audience) {
    a == All || (a == Owner <==> n.input.owner)
  }

  predicate Before(m: Notice, n: Notice) {
    m.createdMs < n.createdMs || (m.createdMs == n.createdMs && m.id < n.id)
  }

  lemma BeforeIsOrder(m: Notice, n: Notice)
    ensures Before(m, n) || Before(n, m) || (m.createdMs == n.createdMs && m.id == n.id)
  {
  }

  lemma BeforeTransitive(m: Notice, n: Notice, o: Notice)
    ensures Before(m, n) && Before(n, o) ==> Before(m, o)
  {
  }

  predicate Among(live: map<string, Notice>, keys: set<string>, n: Notice) {
    exists k :: k in keys && k in live && live[k] == n
  }

  class Notices {
    const ttlMs: int
    var live: map<string, Notice>
    var counter: nat

    constructor (ttlMs: int)
      ensures this.ttlMs == ttlMs && Contents() == Board(map[], 0)
    {
      this.ttlMs, live, counter := ttlMs, map[], 0;
    }

    ghost function Contents(): Board
      reads this
    {
      Board(live, counter)
    }

    method Prune(now: int)
      modifies this`live
      ensures live == Pruned(old(live), now)
    {
      var keys := live.Keys;
      ghost var before := live;
      while keys != {}
        invariant keys <= before.Keys
        invariant forall k :: k in live <==> k in before && (k in keys || before[k].expiresMs > now)
        invariant forall k :: k in live ==> live[k] == before[k]
        decreases |keys|
      {
        var k :| k in keys;
        keys := keys - {k};
        if live[k].expiresMs <= now {
          live := live - {k};
        }
      }
    }

    method Raise(i: Input, now: int) returns (n: Notice, deduped: bool)
      modifies this
      ensures Contents() == Raised(old(Contents()), ttlMs, i, now)
      ensures deduped <==> Dedups(old(Contents()), i, now)
      ensures DedupKey(i) in live && n == live[DedupKey(i)]
    {
      Prune(now);
      var key := DedupKey(i);
      if key in live {
        n := live[key];
        deduped := true;
        if i.eventAtMs.None? || n.lastEventMs.None? || i.eventAtMs.value > n.lastEventMs.value {
          n := n.(count := n.count + 1, lastMs := now);
          if i.eventAtMs.Some? {
            n := n.(lastEventMs := i.eventAtMs);
          }
        }
        live := live[key := n];
      } else {
        deduped := false;
        counter := counter + 1;
        n := Notice(counter, i, now, now, now + ttlMs, 1, i.eventAtMs);
        live := live[key := n];
      }
    }

    /** The live notices of an audience, oldest first; notices of one time in the order they were raised. */
    method List(a: Audience, now: int) returns (ns: seq<Notice>)
      requires Sound(Contents())
      modifies this`live
      ensures live == Pruned(old(live), now)
      ensures forall n :: n in ns <==>
                n in live.Values && (a == Owner ==> n.input.owner) && (a == Operator ==> !n.input.owner)
      ensures forall i, j :: 0 <= i < j < |ns| ==>
                ns[i].createdMs <= ns[j].createdMs && (ns[i].createdMs == ns[j].createdMs ==> ns[i].id < ns[j].id)
    {
      SoundPruned(Contents(), now);
      Prune(now);
      ns := Ordered(set k | k in live && For(live[k], a));
      assert forall n :: n in live.Values <==> Among(live, live.Keys, n);
    }

    method Ordered(keys: set<string>) returns (ns: seq<Notice>)
      requires keys <= live.Keys && Sound(Contents())
      ensures forall n :: n in ns <==> Among(live, keys, n)
      ensures forall i, j :: 0 <= i < j < |ns| ==> Before(ns[i], ns[j])
    {
      hide Sound, Before;
      ns := [];
      var rest := keys;
      while rest != {}
        invariant rest <= keys
        invariant forall k :: k in keys && k !in rest ==> live[k] in ns
        invariant forall i :: 0 <= i < |ns| ==> Among(live, keys, ns[i])
        invariant forall i, j :: 0 <= i < j < |ns| ==> Before(ns[i], ns[j])
        invariant forall i, k :: 0 <= i < |ns| && k in rest ==> Before(ns[i], live[k])
        decreases |rest|
      {
        var k := Oldest(rest);
        rest := rest - {k};
        ns := ns + [live[k]];
        assert ns[|ns| - 1] == live[k] && Among(live, keys, live[k]);
      }
    }

    method Oldest(keys: set<string>) returns (k: string)
      requires keys != {} && keys <= live.Keys && Sound(Contents())
      ensures k in keys && forall j :: j in keys && j != k ==> Before(live[k], live[j])
    {
      k :| k in keys;
      var rest := keys - {k};
      while rest != {}
        invariant k in keys && k !in rest && rest <= keys
        invariant forall j :: j in keys && j != k && j !in rest ==> Before(live[k], live[j])
        decreases |rest|
      {
        var j :| j in rest;
        rest := rest - {j};
        hide Sound, Before;
        BeforeIsOrder(live[j], live[k]);
        forall i | i in keys
          ensures Before(live[j], live[k]) && Before(live[k], live[i]) ==> Before(live[j], live[i])
        {
          BeforeTransitive(live[j], live[k], live[i]);
        }
        if Before(live[j], live[k]) {
          k := j;
        }
      }
    }
  }

  // ---------------------------------------------------------------- keys

  predicate NoBar(s: string) {
    forall i :: 0 <= i < |s| ==> s[i] != '|'
  }

  lemma BarSplits(a: string, x: string, b: string, y: string)
    requires NoBar(a) && NoBar(b) && a + "|" + x == b + "|" + y
    ensures a == b && x == y
  {
    var s := a + "|" + x;
    assert s[|a|] == '|' && s[|b|] == '|';
    assert forall i :: 0 <= i < |a| ==> s[i] == a[i];
    assert forall i :: 0 <= i < |b| ==> s[i] == b[i];
    assert |a| == |b|;
    assert s[..|a|] == a && s[..|b|] == b;
    assert s[|a| + 1..] == x && s[|b| + 1..] == y;
  }

  predicate SameCondition(i: Input, j: Input) {
    i.personality == j.personality && i.runtime == j.runtime && i.kind == j.kind && i.errorType == j.errorType
    && ModelText(i) == ModelText(j)
  }

  predicate NamesBarFree(i: Input) {
    NoBar(i.personality) && NoBar(i.runtime) && NoBar(i.kind) && NoBar(i.errorType)
  }

  /** Conditions whose first four parts hold no bar share a key only when they are the same condition. */
  lemma KeyIdentifies(i: Input, j: Input)
    requires NamesBarFree(i) && NamesBarFree(j) && DedupKey(i) == DedupKey(j)
    ensures SameCondition(i, j)
  {
    var ie, je := i.errorType + "|" + ModelText(i), j.errorType + "|" + ModelText(j);
    var ik, jk := i.kind + "|" + ie, j.kind + "|" + je;
    var ir, jr := i.runtime + "|" + ik, j.runtime + "|" + jk;
    BarSplits(i.personality, ir, j.personality, jr);
    BarSplits(i.runtime, ik, j.runtime, jk);
    BarSplits(i.kind, ie, j.kind, je);
    BarSplits(i.errorType, ModelText(i), j.errorType, ModelText(j));
  }

  function Bars(s: string): nat {
    if s == "" then 0 else (if s[0] == '|' then 1 else 0) + Bars(s[1..])
  }

  lemma {:induction false} BarsAppend(a: string, b: string)
    ensures Bars(a + "|" + b) == Bars(a) + 1 + Bars(b)
  {
    if a == "" {
      assert (a + "|" + b)[1..] == b;
    } else {
      assert (a + "|" + b)[1..] == a[1..] + "|" + b;
      BarsAppend(a[1..], b);
    }
  }

  lemma {:induction false} NoBarIff(s: string)
    ensures NoBar(s) <==> Bars(s) == 0
  {
    if s != "" {
      NoBarIff(s[1..]);
      assert forall i :: 1 <= i < |s| ==> s[i] == s[1..][i - 1];
    }
  }

  /** A key holds the four bars that join it and those of its parts. */
  lemma KeyBars(i: Input)
    ensures Bars(DedupKey(i))
         == 4 + Bars(i.personality) + Bars(i.runtime) + Bars(i.kind) + Bars(i.errorType) + Bars(ModelText(i))
  {
    hide Bars;
    var e := i.errorType + "|" + ModelText(i);
    var k := i.kind + "|" + e;
    var r := i.runtime + "|" + k;
    BarsAppend(i.errorType, ModelText(i));
    BarsAppend(i.kind, e);
    BarsAppend(i.runtime, k);
    BarsAppend(i.personality, r);
  }

  lemma BarFreeIff(i: Input)
    ensures NamesBarFree(i) && NoBar(ModelText(i)) <==> Bars(DedupKey(i)) == 4
  {
    hide NoBar, Bars, DedupKey;
    KeyBars(i);
    NoBarIff(i.personality);
    NoBarIff(i.runtime);
    NoBarIff(i.kind);
    NoBarIff(i.errorType);
    NoBarIff(ModelText(i));
  }

  /** A key stands for one condition exactly when no part of the condition holds a bar. */
  lemma KeyIdentifiesIff(i: Input)
    ensures (forall j :: DedupKey(j) == DedupKey(i) ==> SameCondition(i, j)) <==> NamesBarFree(i) && NoBar(ModelText(i))
  {
    if NamesBarFree(i) && NoBar(ModelText(i)) {
      forall j | DedupKey(j) == DedupKey(i)
        ensures SameCondition(i, j)
      {
        BarFreeIff(i);
        BarFreeIff(j);
        KeyIdentifies(i, j);
      }
    } else {
      var j := BarConfuses(i);
    }
  }

  /** The split between two parts can be moved to any bar inside one of them: a condition that holds a bar shares its
      key with a different one, and whichever is told second is folded into the first and never raised. */
  lemma BarConfuses(i: Input) returns (j: Input)
    requires !NamesBarFree(i) || !NoBar(ModelText(i))
    ensures DedupKey(j) == DedupKey(i) && !SameCondition(i, j)
  {
    var m := ModelText(i);
    var e := i.errorType + "|" + m;
    var k := i.kind + "|" + e;
    if !NoBar(i.personality) {
      var a, b := AtBar(i.personality);
      MoveBar(a, b, i.runtime, k);
      return i.(personality := a, runtime := b + "|" + i.runtime);
    } else if !NoBar(i.runtime) {
      var a, b := AtBar(i.runtime);
      MoveBar(a, b, i.kind, e);
      return i.(runtime := a, kind := b + "|" + i.kind);
    } else if !NoBar(i.kind) {
      var a, b := AtBar(i.kind);
      MoveBar(a, b, i.errorType, m);
      return i.(kind := a, errorType := b + "|" + i.errorType);
    } else if !NoBar(i.errorType) {
      var a, b := AtBar(i.errorType);
      GrowModel(a, b, m);
      return i.(errorType := a, model := Some(b + "|" + m));
    } else {
      var a, b := AtBar(m);
      GrowModel(i.errorType, a, b);
      return i.(errorType := i.errorType + "|" + a, model := Some(b));
    }
  }

  lemma AtBar(s: string) returns (a: string, b: string)
    requires !NoBar(s)
    ensures s == a + "|" + b
  {
    var k :| 0 <= k < |s| && s[k] == '|';
    a, b := s[..k], s[k + 1..];
  }

  lemma MoveBar(a: string, b: string, c: string, t: string)
    ensures a + "|" + ((b + "|" + c) + "|" + t) == (a + "|" + b) + "|" + (c + "|" + t)
  {
  }

  lemma GrowModel(a: string, b: string, c: string)
    ensures a + "|" + (b + "|" + c) == (a + "|" + b) + "|" + c
  {
  }

  // ---------------------------------------------------------------- runs of the board

  datatype Call = Call(input: Input, now: int)

  const BLANK := Board(map[], 0)

  /** The board after some calls. */
  function Fold(ttlMs: int, calls: seq<Call>): Board {
    if calls == [] then BLANK
    else Raised(Fold(ttlMs, calls[..|calls| - 1]), ttlMs, calls[|calls| - 1].input, calls[|calls| - 1].now)
  }

  predicate Timed(calls: seq<Call>) {
    forall i, j :: 0 <= i < j < |calls| ==> calls[i].now <= calls[j].now
  }

  /** The `i`-th call raises a notice instead of being folded. */
  predicate IsNew(ttlMs: int, calls: seq<Call>, i: nat)
    requires i < |calls|
  {
    !Dedups(Fold(ttlMs, calls[..i]), calls[i].input, calls[i].now)
  }

  /** The last call that raised a notice under the key. */
  function LastRaise(ttlMs: int, calls: seq<Call>, key: string): (r: Option<nat>)
    ensures r.Some? ==> r.value < |calls|
  {
    if calls == [] then None
    else
      var last := |calls| - 1;
      if DedupKey(calls[last].input) == key && IsNew(ttlMs, calls, last) then Some(last)
      else LastRaise(ttlMs, calls[..last], key)
  }

  lemma {:induction false} LastRaiseIsLast(ttlMs: int, calls: seq<Call>, key: string, i: nat)
    requires i < |calls| && DedupKey(calls[i].input) == key && IsNew(ttlMs, calls, i)
    ensures LastRaise(ttlMs, calls, key).Some? && LastRaise(ttlMs, calls, key).value >= i
  {
    hide DedupKey, Dedups;
    if i < |calls| - 1 {
      var init := calls[..|calls| - 1];
      assert init[..i] == calls[..i];
      LastRaiseIsLast(ttlMs, init, key, i);
    }
  }

  lemma {:induction false} LastRaiseIsNew(ttlMs: int, calls: seq<Call>, key: string)
    requires LastRaise(ttlMs, calls, key).Some?
    ensures var l := LastRaise(ttlMs, calls, key).value; DedupKey(calls[l].input) == key && IsNew(ttlMs, calls, l)
  {
    hide DedupKey, Dedups;
    var last := |calls| - 1;
    if !(DedupKey(calls[last].input) == key && IsNew(ttlMs, calls, last)) {
      var init := calls[..last];
      LastRaiseIsNew(ttlMs, init, key);
      var l := LastRaise(ttlMs, init, key).value;
      assert init[..l] == calls[..l];
    }
  }

  lemma {:induction false} BoardRemembers(ttlMs: int, calls: seq<Call>, key: string)
    requires Timed(calls) && ttlMs > 0
    ensures var live, last := Fold(ttlMs, calls).live, LastRaise(ttlMs, calls, key);
            (key in live ==> last.Some? && live[key].expiresMs == calls[last.value].now + ttlMs)
            && (last.Some? && key !in live ==> calls[|calls| - 1].now >= calls[last.value].now + ttlMs)
  {
    hide DedupKey;
    if calls != [] {
      var init := calls[..|calls| - 1];
      BoardRemembers(ttlMs, init, key);
      assert forall i :: 0 <= i < |init| ==> init[i] == calls[i];
      LastRaiseStep(ttlMs, calls, key);
    }
  }

  lemma LastRaiseStep(ttlMs: int, calls: seq<Call>, key: string)
    requires calls != []
    ensures var last := |calls| - 1;
            LastRaise(ttlMs, calls, key) ==
              if DedupKey(calls[last].input) == key && IsNew(ttlMs, calls, last) then Some(last)
              else LastRaise(ttlMs, calls[..last], key)
  {
  }

  /** While time moves on, a call raises a notice exactly when no notice was raised for its key within the last
      time to live. */
  lemma RaisedIffExpired(ttlMs: int, calls: seq<Call>, i: nat)
    requires Timed(calls) && ttlMs > 0 && i < |calls|
    ensures IsNew(ttlMs, calls, i) <==>
            match LastRaise(ttlMs, calls[..i], DedupKey(calls[i].input))
            case None => true
            case Some(l) => calls[i].now >= calls[l].now + ttlMs
  {
    hide DedupKey, Raised, LastRaise;
    BoardRemembers(ttlMs, calls[..i], DedupKey(calls[i].input));
  }

  /** Two notices raised for one condition are at least a time to live apart. */
  lemma RaisesAreApart(ttlMs: int, calls: seq<Call>, i: nat, j: nat)
    requires Timed(calls) && ttlMs > 0 && i < j < |calls|
    requires DedupKey(calls[i].input) == DedupKey(calls[j].input) && IsNew(ttlMs, calls, i) && IsNew(ttlMs, calls, j)
    ensures calls[j].now - calls[i].now >= ttlMs
  {
    hide DedupKey, Dedups;
    RaisedIffExpired(ttlMs, calls, j);
    var before := calls[..j];
    assert before[..i] == calls[..i];
    assert IsNew(ttlMs, before, i);
    LastRaiseIsLast(ttlMs, before, DedupKey(calls[j].input), i);
  }

  /** Re-reading one event never inflates its notice. */
  lemma {:induction false} OneEventCountsOnce(ttlMs: int, calls: seq<Call>, key: string, at: int)
    requires forall c :: c in calls && DedupKey(c.input) == key ==> c.input.eventAtMs == Some(at)
    ensures var live := Fold(ttlMs, calls).live; key in live ==>
            live[key].count == 1 && live[key].lastEventMs == Some(at)
  {
    hide DedupKey;
    if calls != [] {
      OneEventCountsOnce(ttlMs, calls[..|calls| - 1], key, at);
      assert calls[|calls| - 1] in calls;
    }
  }

  // ---------------------------------------------------------------- what a notice counts

  /** The `j`-th call tells of an occurrence that no call since the `l`-th has told of: it has no event clock, or its
      event is newer than every event told of since. */
  predicate Occurrence(calls: seq<Call>, key: string, l: nat, j: nat)
    requires j < |calls|
  {
    DedupKey(calls[j].input) == key
    && forall k :: l <= k < j && DedupKey(calls[k].input) == key ==> Newer(calls[j].input, calls[k].input)
  }

  predicate Newer(i: Input, before: Input) {
    i.eventAtMs.Some? && before.eventAtMs.Some? ==> before.eventAtMs.value < i.eventAtMs.value
  }

  ghost function Occurrences(calls: seq<Call>, key: string, l: nat): set<nat> {
    set j: nat | l < j < |calls| && Occurrence(calls, key, l, j)
  }

  /** The newest event told of under the key since the `l`-th call. */
  predicate Newest(calls: seq<Call>, key: string, l: nat, at: Option<int>) {
    && (at.Some? ==> exists k :: l <= k < |calls| && DedupKey(calls[k].input) == key && calls[k].input.eventAtMs == at)
    && forall k :: l <= k < |calls| && DedupKey(calls[k].input) == key && calls[k].input.eventAtMs.Some? ==>
         at.Some? && calls[k].input.eventAtMs.value <= at.value
  }

  /** When the notice last took something in. */
  predicate LastTaken(calls: seq<Call>, key: string, l: nat, at: int) {
    exists k: nat :: l <= k < |calls| && calls[k].now == at && (k == l || Occurrence(calls, key, l, k))
      && forall j :: k < j < |calls| ==> !Occurrence(calls, key, l, j)
  }

  /** A live notice is the one last raised under its key, and it counts that raise and every later occurrence. */
  lemma {:induction false} CountsOccurrences(ttlMs: int, calls: seq<Call>, key: string)
    requires key in Fold(ttlMs, calls).live
    ensures LastRaise(ttlMs, calls, key).Some?
    ensures var n, l := Fold(ttlMs, calls).live[key], LastRaise(ttlMs, calls, key).value;
            && n.count == 1 + |Occurrences(calls, key, l)| && Newest(calls, key, l, n.lastEventMs)
            && LastTaken(calls, key, l, n.lastMs)
            && n.input == calls[l].input && n.createdMs == calls[l].now && n.expiresMs == calls[l].now + ttlMs
            && DedupKey(n.input) == key
  {
    var last := |calls| - 1;
    var init, c := calls[..last], calls[last];
    LastRaiseStep(ttlMs, calls, key);
    if DedupKey(c.input) == key && IsNew(ttlMs, calls, last) {
      assert Occurrences(calls, key, last) == {};
    } else {
      CountsOccurrences(ttlMs, init, key);
      var l := LastRaise(ttlMs, init, key).value;
      OccurrencesStep(calls, key, l);
      FoldStep(ttlMs, calls, key, l);
    }
  }

  lemma OccurrencesStep(calls: seq<Call>, key: string, l: nat)
    requires l < |calls| - 1
    ensures forall j: nat :: j < |calls| - 1 ==>
              (Occurrence(calls, key, l, j) <==> Occurrence(calls[..|calls| - 1], key, l, j))
    ensures Occurrences(calls, key, l) == Occurrences(calls[..|calls| - 1], key, l)
              + if Occurrence(calls, key, l, |calls| - 1) then {|calls| - 1} else {}
    ensures |Occurrences(calls, key, l)| == |Occurrences(calls[..|calls| - 1], key, l)|
              + if Occurrence(calls, key, l, |calls| - 1) then 1 else 0
  {
    hide DedupKey, Newer;
    var last := |calls| - 1;
    var init := calls[..last];
    assert forall j :: 0 <= j < last ==> init[j] == calls[j];
    hide Occurrence;
    forall j: nat | j < last
      ensures Occurrence(calls, key, l, j) <==> Occurrence(init, key, l, j)
    {
      OccurrenceEarlier(calls, init, key, l, j);
    }
    assert last !in Occurrences(init, key, l);
  }

  lemma OccurrenceEarlier(calls: seq<Call>, init: seq<Call>, key: string, l: nat, j: nat)
    requires init <= calls && j < |init|
    ensures Occurrence(calls, key, l, j) <==> Occurrence(init, key, l, j)
  {
    hide DedupKey, Newer;
    assert forall k :: 0 <= k < |init| ==> init[k] == calls[k];
  }

  lemma FoldStep(ttlMs: int, calls: seq<Call>, key: string, l: nat)
    requires calls != [] && l < |calls| - 1
    requires var init := calls[..|calls| - 1];
             key in Fold(ttlMs, calls).live && key in Fold(ttlMs, init).live
             && var n := Fold(ttlMs, init).live[key];
                Newest(init, key, l, n.lastEventMs) && LastTaken(init, key, l, n.lastMs)
    requires !(DedupKey(calls[|calls| - 1].input) == key && IsNew(ttlMs, calls, |calls| - 1))
    ensures var before, n := Fold(ttlMs, calls[..|calls| - 1]).live[key], Fold(ttlMs, calls).live[key];
            && n.count == before.count + (if Occurrence(calls, key, l, |calls| - 1) then 1 else 0)
            && Newest(calls, key, l, n.lastEventMs) && LastTaken(calls, key, l, n.lastMs)
            && n.input == before.input && n.createdMs == before.createdMs && n.expiresMs == before.expiresMs
  {
    var last := |calls| - 1;
    var init := calls[..last];
    var before := Fold(ttlMs, init).live[key];
    FoldedIffOccurrence(calls, key, l, before.lastEventMs);
    LastTakenStep(calls, key, l, before.lastMs);
    hide DedupKey, Occurrence, Newest, LastTaken;
  }

  /** The board's own test is whether the call tells of an occurrence. */
  lemma FoldedIffOccurrence(calls: seq<Call>, key: string, l: nat, at: Option<int>)
    requires calls != [] && l < |calls| - 1 && Newest(calls[..|calls| - 1], key, l, at)
    ensures var i := calls[|calls| - 1].input;
            var counts := DedupKey(i) == key
                          && !(i.eventAtMs.Some? && at.Some? && i.eventAtMs.value <= at.value);
            && (Occurrence(calls, key, l, |calls| - 1) <==> counts)
            && Newest(calls, key, l, if counts && i.eventAtMs.Some? then i.eventAtMs else at)
  {
    hide DedupKey;
    var init := calls[..|calls| - 1];
    assert forall k :: 0 <= k < |init| ==> init[k] == calls[k];
    if at.Some? {
      var k :| l <= k < |init| && DedupKey(init[k].input) == key && init[k].input.eventAtMs == at;
      assert calls[k] == init[k];
    }
  }

  lemma LastTakenStep(calls: seq<Call>, key: string, l: nat, at: int)
    requires calls != [] && l < |calls| - 1 && LastTaken(calls[..|calls| - 1], key, l, at)
    ensures LastTaken(calls, key, l, if Occurrence(calls, key, l, |calls| - 1) then calls[|calls| - 1].now else at)
  {
    hide Occurrence;
    var last := |calls| - 1;
    var init := calls[..last];
    if !Occurrence(calls, key, l, last) {
      var k: nat :| l <= k < |init| && init[k].now == at && (k == l || Occurrence(init, key, l, k))
        && forall j :: k < j < |init| ==> !Occurrence(init, key, l, j);
      OccurrenceEarlier(calls, init, key, l, k);
      forall j | k < j < |calls|
        ensures !Occurrence(calls, key, l, j)
      {
        if j < last {
          OccurrenceEarlier(calls, init, key, l, j);
        }
      }
    }
  }

  /** The calls that raised a notice. */
  function Raises(ttlMs: int, calls: seq<Call>): nat {
    if calls == [] then 0
    else Raises(ttlMs, calls[..|calls| - 1]) + if IsNew(ttlMs, calls, |calls| - 1) then 1 else 0
  }

  /** Notices are numbered as they are raised. */
  lemma {:induction false} IdsCountRaises(ttlMs: int, calls: seq<Call>, key: string)
    ensures Fold(ttlMs, calls).counter == Raises(ttlMs, calls)
    ensures key in Fold(ttlMs, calls).live ==>
              LastRaise(ttlMs, calls, key).Some?
              && Fold(ttlMs, calls).live[key].id == Raises(ttlMs, calls[..LastRaise(ttlMs, calls, key).value + 1])
  {
    hide DedupKey;
    if calls != [] {
      var init := calls[..|calls| - 1];
      IdsCountRaises(ttlMs, init, key);
      LastRaiseStep(ttlMs, calls, key);
      assert calls[..|calls|] == calls;
      if key in Fold(ttlMs, init).live {
        var l := LastRaise(ttlMs, init, key).value;
        assert init[..l + 1] == calls[..l + 1];
      }
    }
  }

  /** From the `f`-th call on, the events told of under the key have increasing times. */
  predicate Increasing(calls: seq<Call>, key: string, f: nat) {
    forall j, k | f <= k < j < |calls| && DedupKey(calls[k].input) == key && DedupKey(calls[j].input) == key ::
      calls[k].input.eventAtMs.Some? && calls[j].input.eventAtMs.Some?
      && calls[k].input.eventAtMs.value < calls[j].input.eventAtMs.value
  }

  /** Occurrences with increasing event times, told of within one time to live, are all counted. */
  lemma IncreasingEventsCount(ttlMs: int, calls: seq<Call>, key: string, f: nat)
    requires Timed(calls) && f < |calls| && DedupKey(calls[f].input) == key
    requires forall k :: 0 <= k < f ==> DedupKey(calls[k].input) != key
    requires calls[|calls| - 1].now < calls[f].now + ttlMs
    requires Increasing(calls, key, f)
    ensures key in Fold(ttlMs, calls).live
    ensures Fold(ttlMs, calls).live[key].count
         == |set j: nat | j < |calls| && DedupKey(calls[j].input) == key|
  {
    assert ttlMs > 0;
    hide DedupKey, Fold, LastRaise, Occurrence, Newest, LastTaken, Increasing, Timed;
    RaisedOnce(ttlMs, calls, key, f);
    BoardRemembers(ttlMs, calls, key);
    CountsOccurrences(ttlMs, calls, key);
    CountAll(calls, key, f);
  }

  lemma CountAll(calls: seq<Call>, key: string, f: nat)
    requires f < |calls| && DedupKey(calls[f].input) == key && Increasing(calls, key, f)
    requires forall k :: 0 <= k < f ==> DedupKey(calls[k].input) != key
    ensures |set j: nat | j < |calls| && DedupKey(calls[j].input) == key| == 1 + |Occurrences(calls, key, f)|
  {
    AllOccur(calls, key, f);
    hide DedupKey, Increasing, Occurrence;
    var all := set j: nat | j < |calls| && DedupKey(calls[j].input) == key;
    assert all == {f} + Occurrences(calls, key, f);
  }

  lemma AllOccur(calls: seq<Call>, key: string, f: nat)
    requires Increasing(calls, key, f)
    ensures forall j: nat :: f < j < |calls| ==>
              (Occurrence(calls, key, f, j) <==> DedupKey(calls[j].input) == key)
  {
    hide DedupKey;
  }

  lemma {:induction false} RaisedOnce(ttlMs: int, calls: seq<Call>, key: string, f: nat)
    requires Timed(calls) && f < |calls| && DedupKey(calls[f].input) == key
    requires forall k :: 0 <= k < f ==> DedupKey(calls[k].input) != key
    requires calls[|calls| - 1].now < calls[f].now + ttlMs
    ensures LastRaise(ttlMs, calls, key) == Some(f)
  {
    hide DedupKey, IsNew, LastRaise;
    var last := |calls| - 1;
    LastRaiseStep(ttlMs, calls, key);
    assert forall k :: 0 <= k < last ==> calls[..last][k] == calls[k];
    if f == last {
      NeverRaised(ttlMs, calls[..last], key);
    } else {
      RaisedOnce(ttlMs, calls[..last], key, f);
    }
    if DedupKey(calls[last].input) == key {
      RaisedIffExpired(ttlMs, calls, last);
    }
  }

  lemma {:induction false} NeverRaised(ttlMs: int, calls: seq<Call>, key: string)
    requires forall k :: 0 <= k < |calls| ==> DedupKey(calls[k].input) != key
    ensures LastRaise(ttlMs, calls, key) == None
  {
    hide DedupKey, IsNew;
    if calls != [] {
      NeverRaised(ttlMs, calls[..|calls| - 1], key);
    }
  }
}
