/** The fleet event tailer: polls append-only logs, splits what was appended into lines, and restarts a file that was
    rotated away. Files hold one-byte characters, and a read returns everything asked for or fails. */
module FleetTailer {
  import opened Text

  datatype TailState = TailState(offset: nat, partial: string)

  const FRESH := TailState(0, "")

  /** What a poll finds of one file: nothing, or its content and whether reading it works this time. */
  datatype Poll = Gone | File(content: string, readable: bool)

  // ---------------------------------------------------------------- one file, one tick

  function Restarted(f: TailState, p: Poll): TailState {
    if p.Gone? || |p.content| < f.offset then FRESH else f
  }

  predicate Reads(f: TailState, p: Poll) {
    p.File? && p.readable && |p.content| != Restarted(f, p).offset
  }

  /** The text a tick splits: the unfinished line and what was appended behind it. */
  function Unread(f: TailState, p: Poll): string
    requires Reads(f, p)
  {
    Restarted(f, p).partial + p.content[Restarted(f, p).offset..]
  }

  function Next(f: TailState, p: Poll): TailState {
    if !Reads(f, p) then Restarted(f, p)
    else TailState(|p.content|, Split(Unread(f, p))[|Split(Unread(f, p))| - 1])
  }

  function Lines(f: TailState, p: Poll): seq<string> {
    if !Reads(f, p) then [] else Split(Unread(f, p))[..|Split(Unread(f, p))| - 1]
  }

  // ---------------------------------------------------------------- the tailer

  class FleetEventTailer {
    var files: seq<TailState>
    var subs: set<nat>
    /** Every line handed to the subscribers, with the index of its file. */
    ghost var delivered: seq<(nat, string)>

    constructor (n: nat)
      ensures |files| == n && subs == {} && delivered == []
    {
      files, subs, delivered := seq(n, _ => FRESH), {}, [];
    }

    /** The first subscriber primes every offset to the end of its file. */
    method Subscribe(sub: nat, sizes: seq<Option<nat>>)
      requires |sizes| == |files|
      modifies this
      ensures subs == old(subs) + {sub} && delivered == old(delivered) && |files| == old(|files|)
      ensures old(subs) != {} ==> files == old(files)
      ensures old(subs) == {} ==>
                forall i :: 0 <= i < |files| ==> files[i] == TailState(if sizes[i].Some? then sizes[i].value else 0, "")
    {
      if subs == {} {
        for i := 0 to |files|
          invariant |files| == old(|files|) && subs == old(subs) && delivered == old(delivered)
          invariant forall k :: 0 <= k < i ==> files[k] == TailState(if sizes[k].Some? then sizes[k].value else 0, "")
        {
          files := files[i := TailState(if sizes[i].Some? then sizes[i].value else 0, "")];
        }
      }
      subs := subs + {sub};
    }

    method Tick(polls: seq<Poll>)
      requires |polls| == |files|
      modifies this
      ensures subs == old(subs) && |files| == old(|files|)
      ensures forall i :: 0 <= i < |files| ==> files[i] == Next(old(files)[i], polls[i])
      ensures delivered == old(delivered) + AllLines(old(files), polls, |polls|)
    {
      hide Next, Lines, Tagged;
      for i := 0 to |files|
        invariant |files| == old(|files|) && subs == old(subs)
        invariant forall k :: 0 <= k < i ==> files[k] == Next(old(files)[k], polls[k])
        invariant forall k :: i <= k < |files| ==> files[k] == old(files)[k]
        invariant delivered == old(delivered) + AllLines(old(files), polls, i)
      {
        Poll(i, polls[i]);
      }
    }

    method Poll(i: nat, p: Poll)
      requires i < |files|
      modifies this
      ensures subs == old(subs) && files == old(files)[i := Next(old(files)[i], p)]
      ensures delivered == old(delivered) + Tagged(i, Lines(old(files)[i], p))
    {
      var f := files[i];
      if p.Gone? {
        files := files[i := FRESH];
        return;
      }
      var size := |p.content|;
      if size < f.offset {
        f := FRESH;
      }
      if size == f.offset || !p.readable {
        files := files[i := f];
        return;
      }
      var lines := Split(f.partial + p.content[f.offset..]);
      var last := |lines| - 1;
      files := files[i := TailState(size, lines[last])];
      Deliver(i, lines[..last]);
    }

    method Deliver(i: nat, lines: seq<string>)
      modifies this
      ensures subs == old(subs) && files == old(files) && delivered == old(delivered) + Tagged(i, lines)
    {
      assert lines[..|lines|] == lines;
      for k := 0 to |lines|
        invariant subs == old(subs) && files == old(files) && delivered == old(delivered) + Tagged(i, lines[..k])
      {
        assert lines[..k + 1][..k] == lines[..k];
        delivered := delivered + [(i, lines[k])];
      }
    }
  }

  function Tagged(file: nat, lines: seq<string>): seq<(nat, string)> {
    if lines == [] then [] else Tagged(file, lines[..|lines| - 1]) + [(file, lines[|lines| - 1])]
  }

  function AllLines(files: seq<TailState>, polls: seq<Poll>, n: nat): seq<(nat, string)>
    requires n <= |files| == |polls|
  {
    if n == 0 then [] else AllLines(files, polls, n - 1) + Tagged(n - 1, Lines(files[n - 1], polls[n - 1]))
  }

  // ---------------------------------------------------------------- lines of a growing text

  lemma {:induction false} JoinSplit(s: string)
    ensures Join(Split(s), "\n") == s
    decreases |s|
  {
    var k := IndexOf(s, "\n");
    if k.Some? {
      var rest := s[k.value + 1..];
      JoinSplit(rest);
      IndexOfIsFirst(s, "\n");
      assert s[k.value..k.value + 1] == "\n";
      assert s == s[..k.value] + "\n" + rest;
      assert ([s[..k.value]] + Split(rest))[1..] == Split(rest);
    }
  }

  lemma {:induction false} JoinLast(parts: seq<string>, p: string, b: string)
    ensures Join(parts + [p + b], "\n") == Join(parts + [p], "\n") + b
  {
    if parts != [] {
      JoinLast(parts[1..], p, b);
      assert (parts + [p])[1..] == parts[1..] + [p];
      assert (parts + [p + b])[1..] == parts[1..] + [p + b];
    }
  }

  lemma {:induction false} JoinNested(parts: seq<string>, more: seq<string>)
    requires more != []
    ensures Join(parts + more, "\n") == Join(parts + [Join(more, "\n")], "\n")
  {
    if parts == [] {
      assert parts + more == more;
    } else {
      JoinNested(parts[1..], more);
      assert (parts + more)[1..] == parts[1..] + more;
      assert (parts + [Join(more, "\n")])[1..] == parts[1..] + [Join(more, "\n")];
    }
  }

  /** Appending to a text only affects its unfinished last line. */
  lemma SplitAppend(a: string, b: string)
    ensures var parts := Split(a); var last := |parts| - 1;
            Split(a + b) == parts[..last] + Split(parts[last] + b)
  {
    var parts := Split(a);
    var done, p := parts[..|parts| - 1], parts[|parts| - 1];
    assert parts == done + [p];
    var more := Split(p + b);
    JoinSplit(a);
    JoinSplit(p + b);
    JoinNested(done, more);
    JoinLast(done, p, b);
    assert Join(done + more, "\n") == a + b;
    SplitJoin(done + more);
  }

  // ---------------------------------------------------------------- exactly once

  /** The lines of the ticks in order, and the state they lead to. */
  function Run(f: TailState, polls: seq<Poll>): (TailState, seq<string>) {
    if polls == [] then (f, [])
    else
      var (g, lines) := Run(f, polls[..|polls| - 1]);
      (Next(g, polls[|polls| - 1]), lines + Lines(g, polls[|polls| - 1]))
  }

  /** The file is there at every tick, and each tick finds what the one before found, or more. */
  ghost predicate Grows(start: string, polls: seq<Poll>) {
    && (forall i :: 0 <= i < |polls| ==> polls[i].File? && start <= polls[i].content)
    && (forall i, j :: 0 <= i < j < |polls| ==> polls[i].content <= polls[j].content)
  }

  /** The complete lines read so far and the unfinished one make up the content from the primed offset on. */
  ghost predicate Follows(primed: nat, content: string, f: TailState, lines: seq<string>) {
    primed <= f.offset <= |content| && Split(content[primed..f.offset]) == lines + [f.partial]
  }

  lemma FollowStep(primed: nat, content: string, f: TailState, lines: seq<string>, p: Poll)
    requires Follows(primed, content, f, lines) && p.File? && content <= p.content
    ensures Follows(primed, p.content, Next(f, p), lines + Lines(f, p))
    ensures p.readable ==> Next(f, p).offset == |p.content|
    ensures !p.readable ==> Next(f, p) == f && Lines(f, p) == []
  {
    hide Split;
    assert p.content[primed..f.offset] == content[primed..f.offset];
    if Reads(f, p) {
      var a, b := p.content[primed..f.offset], p.content[f.offset..];
      assert p.content[primed..] == a + b;
      SplitAppend(a, b);
      assert Split(a) == lines + [f.partial];
      assert Split(a)[..|lines|] == lines;
      var parts := Split(f.partial + b);
      assert lines + parts == lines + parts[..|parts| - 1] + [parts[|parts| - 1]];
      assert p.content[primed..|p.content|] == p.content[primed..];
    } else {
      assert lines + Lines(f, p) == lines;
    }
  }

  /** However the file grows, whenever it is polled, and whichever reads fail: the lines delivered are exactly the
      complete lines of what was read after the primed offset, each once and in order, the unfinished line is kept,
      and a poll that can read leaves nothing unread. */
  lemma {:induction false} ExactlyOnce(start: string, polls: seq<Poll>)
    requires Grows(start, polls)
    ensures var (f, lines) := Run(TailState(|start|, ""), polls);
            var content := if polls == [] then start else polls[|polls| - 1].content;
            Follows(|start|, content, f, lines)
            && (polls != [] && polls[|polls| - 1].readable ==> Split(content[|start|..]) == lines + [f.partial])
            && (polls != [] && !polls[|polls| - 1].readable ==>
                  (f, lines) == Run(TailState(|start|, ""), polls[..|polls| - 1]))
  {
    if polls == [] {
      assert start[|start|..|start|] == "";
      assert Split("") == [""];
    } else {
      var init, p := polls[..|polls| - 1], polls[|polls| - 1];
      ExactlyOnce(start, init);
      var before := if init == [] then start else init[|init| - 1].content;
      var (g, lines) := Run(TailState(|start|, ""), init);
      FollowStep(|start|, before, g, lines, p);
      assert lines + [] == lines;
      assert p.content[|start|..|p.content|] == p.content[|start|..];
    }
  }

  // ---------------------------------------------------------------- rotation

  /** A tick that finds a shorter file, or none, forgets the old one; the next lines are those of the new file. */
  lemma RotationRestarts(f: TailState, p: Poll, polls: seq<Poll>)
    requires p.Gone? || |p.content| < f.offset
    requires p.File? ==> Grows("", [p] + polls)
    requires p.Gone? ==> Grows("", polls)
    ensures Run(f, [p] + polls) == Run(FRESH, [p] + polls)
    ensures var (g, lines) := Run(f, [p] + polls);
            var content := if polls != [] then polls[|polls| - 1].content else if p.File? then p.content else "";
            Follows(0, content, g, lines)
  {
    Restarts(f, p);
    SameFrom(f, FRESH, p, polls);
    hide Next, Lines, Run, Split;
    if p.File? {
      ExactlyOnce("", [p] + polls);
    } else {
      Skip(p, polls);
      ExactlyOnce("", polls);
    }
  }

  lemma Restarts(f: TailState, p: Poll)
    requires p.Gone? || |p.content| < f.offset
    ensures Next(f, p) == Next(FRESH, p) && Lines(f, p) == Lines(FRESH, p)
  {
    hide Split;
  }

  lemma {:induction false} SameFrom(f: TailState, g: TailState, p: Poll, polls: seq<Poll>)
    requires Next(f, p) == Next(g, p) && Lines(f, p) == Lines(g, p)
    ensures Run(f, [p] + polls) == Run(g, [p] + polls)
  {
    hide Next, Lines;
    if polls == [] {
      assert ([p] + polls)[..0] == [];
    } else {
      SameFrom(f, g, p, polls[..|polls| - 1]);
      assert ([p] + polls)[..|polls|] == [p] + polls[..|polls| - 1];
    }
  }

  lemma {:induction false} Skip(p: Poll, polls: seq<Poll>)
    requires p.Gone?
    ensures Run(FRESH, [p] + polls) == Run(FRESH, polls)
  {
    var all := [p] + polls;
    if polls == [] {
      assert all[..|all| - 1] == polls && all[|all| - 1] == p;
      assert Run(FRESH, polls) == (FRESH, []) && Run(FRESH, polls).1 + Lines(FRESH, p) == [];
    } else {
      var init := polls[..|polls| - 1];
      Skip(p, init);
      assert all[..|all| - 1] == [p] + init && all[|all| - 1] == polls[|polls| - 1];
    }
  }

  /** What a file's state always is: the unfinished line holds no newline, and none is kept at offset zero. */
  predicate Held(f: TailState) {
    '\n' !in f.partial && (f.offset == 0 ==> f.partial == "")
  }

  lemma {:induction false} RunKeepsHeld(f: TailState, polls: seq<Poll>)
    requires Held(f)
    ensures Held(Run(f, polls).0)
  {
    hide Next, Lines, Held;
    if polls != [] {
      RunKeepsHeld(f, polls[..|polls| - 1]);
      NextKeepsHeld(Run(f, polls[..|polls| - 1]).0, polls[|polls| - 1]);
    }
  }

  lemma NextKeepsHeld(f: TailState, p: Poll)
    requires Held(f)
    ensures Held(Next(f, p))
  {
    hide Split;
  }

  function Newlines(n: nat): (s: string)
    ensures |s| == n
  {
    if n == 0 then "" else "\n" + Newlines(n - 1)
  }

  lemma {:induction false} NewlinesDrop(n: nat, k: nat)
    requires k <= n
    ensures Newlines(n)[k..] == Newlines(n - k)
  {
    if k > 0 {
      NewlinesDrop(n - 1, k - 1);
      assert Newlines(n)[k..] == Newlines(n - 1)[k - 1..];
    }
  }

  lemma {:induction false} SplitNewlines(p: string, n: nat)
    requires '\n' !in p
    ensures |Split(p + Newlines(n))| == n + 1
    decreases n
  {
    if n == 0 {
      assert p + Newlines(n) == p;
      SplitWhole(p);
    } else {
      SplitFirst(p, Newlines(n - 1));
      assert p + Newlines(n) == p + ("\n" + Newlines(n - 1));
      SplitNewlines("", n - 1);
      assert "" + Newlines(n - 1) == Newlines(n - 1);
    }
  }

  lemma SplitWhole(p: string)
    requires '\n' !in p
    ensures Split(p) == [p]
  {
    SplitJoin([p]);
  }

  lemma SplitFirst(p: string, t: string)
    requires '\n' !in p
    ensures Split(p + ("\n" + t)) == [p] + Split(t)
  {
    var s := p + ("\n" + t);
    forall i: nat | i < |p|
      ensures !At(s, "\n", i)
    {
      Mismatch(s, "\n", i, 0);
    }
    assert s[|p|..|p| + 1] == "\n";
    IndexOfIs(s, "\n", |p|);
    assert s[..|p|] == p && s[|p| + 1..] == t;
  }

  /** The next file is read from its beginning, whatever it holds, exactly when it is shorter than the offset held, or
      nothing had been read: any other length hides a rotation and costs lines. */
  lemma RotationSeenIff(f: TailState, n: nat)
    requires Held(f)
    ensures (forall c: string :: |c| == n ==> Lines(f, File(c, true)) == Lines(FRESH, File(c, true))) <==>
            n < f.offset || f.offset == 0
  {
    if n >= f.offset > 0 {
      NewlinesAreLost(f, n);
    } else if f.offset == 0 {
      assert f == FRESH;
    } else {
      forall c: string | |c| == n
        ensures Lines(f, File(c, true)) == Lines(FRESH, File(c, true))
      {
        Restarts(f, File(c, true));
      }
    }
  }

  /** Of a file of newlines only those behind the offset are delivered. */
  lemma NewlinesAreLost(f: TailState, n: nat)
    requires Held(f) && n >= f.offset
    ensures |Lines(f, File(Newlines(n), true))| == n - f.offset
    ensures |Lines(FRESH, File(Newlines(n), true))| == n
  {
    hide Split;
    var c := Newlines(n);
    NewlinesDrop(n, f.offset);
    SplitNewlines(f.partial, n - f.offset);
    SplitNewlines("", n);
    assert c[0..] == c;
  }

  /** Two files polled side by side that never shrink and agree from `n` on. */
  ghost predicate SameBehind(n: nat, p: seq<Poll>, q: seq<Poll>) {
    |p| == |q|
    && (forall i :: 0 <= i < |p| ==> SamePoll(n, p[i], q[i]))
    && forall i, j :: 0 <= i < j < |p| && p[i].File? && p[j].File? ==> |p[i].content| <= |p[j].content|
  }

  ghost predicate SamePoll(n: nat, p: Poll, q: Poll) {
    p.File? && q.File? && p.readable == q.readable && n <= |p.content| == |q.content|
      && p.content[n..] == q.content[n..]
  }

  /** When a rotation goes unseen the head of the new file is lost for good: two files that differ only before the
      offset held deliver the same lines over any number of polls. */
  lemma {:induction false} UnseenRotationLosesTheHead(f: TailState, p: seq<Poll>, q: seq<Poll>)
    requires SameBehind(f.offset, p, q)
    ensures Run(f, p) == Run(f, q)
    ensures f.offset <= Run(f, p).0.offset
    ensures p != [] ==> Run(f, p).0.offset <= |p[|p| - 1].content|
    ensures p == [] ==> Run(f, p).0 == f
  {
    if p != [] {
      var k := |p| - 1;
      UnseenRotationLosesTheHead(f, p[..k], q[..k]);
      var g := Run(f, p[..k]).0;
      assert SamePoll(f.offset, p[k], q[k]);
      assert k > 0 ==> SamePoll(f.offset, p[k - 1], q[k - 1]);
      BehindIsSame(f.offset, g, p[k], q[k]);
    }
  }

  lemma BehindIsSame(n: nat, g: TailState, p: Poll, q: Poll)
    requires SamePoll(n, p, q) && n <= g.offset <= |p.content|
    ensures Next(g, p) == Next(g, q) && Lines(g, p) == Lines(g, q) && g.offset <= Next(g, p).offset <= |p.content|
  {
    hide Split;
    assert p.content[g.offset..] == p.content[n..][g.offset - n..];
    assert q.content[g.offset..] == q.content[n..][g.offset - n..];
  }
}
