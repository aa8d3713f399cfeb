/** The approval toggle: installing and removing this project's group in a runtime's settings file. */
module ApprovalSettings {
  import opened Text
  import opened Json

  // ---------------------------------------------------------------- the three places

  /** The claude hook group, the claude permission rule and the codex hook group. */
  datatype Place = ClaudeHook | ClaudeRule | CodexHook

  function Section(p: Place): string {
    if p == ClaudeRule then "permissions" else "hooks"
  }

  function List(p: Place): string {
    match p
    case ClaudeHook => "PermissionRequest"
    case ClaudeRule => "allow"
    case CodexHook => "PreToolUse"
  }

  const ALLOW_RULE := "mcp__iapeer__send_to_peer"
  const CODEX_MATCHER := "^(Bash|Shell|shell|local_shell|exec|apply_patch|ApplyPatch)$"
  const HOOK_TIMEOUT_SECS := 900
  const MARK := "approval-hook"

  function Command(bin: string): string {
    bin + (" " + MARK)
  }

  predicate RunsOurHook(h: Value) {
    h.Object? && Get(h.fields, "command").Some? && Get(h.fields, "command").value.Text?
    && Includes(Get(h.fields, "command").value.text, MARK)
  }

  /** A group is ours when one of its hooks runs our command; a rule is ours when it is our rule. */
  predicate IsOurs(p: Place, v: Value) {
    if p == ClaudeRule then v == Text(ALLOW_RULE)
    else v.Object? && Get(v.fields, "hooks").Some? && Get(v.fields, "hooks").value.Array?
         && exists h | h in Get(v.fields, "hooks").value.items :: RunsOurHook(h)
  }

  /** What is installed. */
  function Own(p: Place, bin: string): Value {
    var hook := Object([Field("type", Text("command")), Field("command", Text(Command(bin))),
                        Field("timeout", Scalar(HOOK_TIMEOUT_SECS))]);
    match p
    case ClaudeHook => Object([Field("hooks", Array([hook]))])
    case ClaudeRule => Text(ALLOW_RULE)
    case CodexHook => Object([Field("matcher", Text(CODEX_MATCHER)), Field("hooks", Array([hook]))])
  }

  predicate HasOurs(p: Place, items: seq<Value>) {
    exists v | v in items :: IsOurs(p, v)
  }

  function Foreign(p: Place, items: seq<Value>): seq<Value> {
    if items == [] then []
    else Foreign(p, items[..|items| - 1]) + if IsOurs(p, items[|items| - 1]) then [] else [items[|items| - 1]]
  }

  // ---------------------------------------------------------------- install and remove

  /** The fields of the section, or none when it is missing or no object. */
  function SectionOf(o: seq<Field>, p: Place): seq<Field> {
    var s := Get(o, Section(p));
    if s.Some? && s.value.Object? then s.value.fields else []
  }

  /** The items of the list, or none when it is missing or no array. */
  function ListOf(h: seq<Field>, p: Place): seq<Value> {
    var l := Get(h, List(p));
    if l.Some? && l.value.Array? then l.value.items else []
  }

  function Seeded(p: Place, items: seq<Value>, bin: string): seq<Value> {
    if HasOurs(p, items) then items else items + [Own(p, bin)]
  }

  function SeededSection(h: seq<Field>, p: Place, bin: string): Value {
    Object(Set(h, List(p), Array(Seeded(p, ListOf(h, p), bin))))
  }

  function Seed(o: seq<Field>, p: Place, bin: string): seq<Field> {
    Set(o, Section(p), SeededSection(SectionOf(o, p), p, bin))
  }

  /** The section with our items gone, and the list with them when nothing else was in it. */
  function StripSection(h: seq<Field>, p: Place): seq<Field>
    requires Get(h, List(p)).Some? && Get(h, List(p)).value.Array?
  {
    var left := Foreign(p, Get(h, List(p)).value.items);
    if left == [] then Delete(h, List(p)) else Set(h, List(p), Array(left))
  }

  predicate Strippable(o: seq<Field>, p: Place) {
    var s := Get(o, Section(p));
    s.Some? && s.value.Object? && Get(s.value.fields, List(p)).Some? && Get(s.value.fields, List(p)).value.Array?
  }

  function Strip(o: seq<Field>, p: Place): seq<Field> {
    if !Strippable(o, p) then o
    else
      var h := StripSection(Get(o, Section(p)).value.fields, p);
      if h == [] then Delete(o, Section(p)) else Set(o, Section(p), Object(h))
  }

  /** Parsed settings: no key occurs twice, in the file or in the section. */
  predicate Parsed(o: seq<Field>, p: Place) {
    Unique(o) && Unique(SectionOf(o, p))
  }

  // ---------------------------------------------------------------- our own group

  lemma {:induction false} ForeignIdle(p: Place, items: seq<Value>)
    requires !HasOurs(p, items)
    ensures Foreign(p, items) == items
  {
    hide IsOurs;
    if items != [] {
      assert items[|items| - 1] in items;
      assert forall v :: v in items[..|items| - 1] ==> v in items;
      ForeignIdle(p, items[..|items| - 1]);
      assert items == items[..|items| - 1] + [items[|items| - 1]];
    }
  }

  lemma {:induction false} ForeignHasNone(p: Place, items: seq<Value>)
    ensures !HasOurs(p, Foreign(p, items)) && (HasOurs(p, items) ==> Foreign(p, items) != items)
  {
    if items != [] {
      ForeignHasNone(p, items[..|items| - 1]);
    }
  }

  lemma OwnIsOurs(p: Place, bin: string)
    ensures IsOurs(p, Own(p, bin))
  {
    assert At(Command(bin), MARK, |bin| + 1) by {
      assert Command(bin)[|bin| + 1..|bin| + 1 + |MARK|] == MARK;
    }
    var hook := Object([Field("type", Text("command")), Field("command", Text(Command(bin))),
                        Field("timeout", Scalar(HOOK_TIMEOUT_SECS))]);
    assert hook.fields[1..][0] == Field("command", Text(Command(bin)));
    assert RunsOurHook(hook) && hook in [hook];
    assert [Field("matcher", Text(CODEX_MATCHER)), Field("hooks", Array([hook]))][1..]
           == [Field("hooks", Array([hook]))];
  }

  lemma ForeignOwn(p: Place, items: seq<Value>, bin: string)
    ensures HasOurs(p, items + [Own(p, bin)]) && Foreign(p, items + [Own(p, bin)]) == Foreign(p, items)
  {
    var own := Own(p, bin);
    OwnIsOurs(p, bin);
    assert own in items + [own];
    assert (items + [own])[..|items|] == items;
  }

  /** Installing keeps the foreign items as they are. */
  lemma ForeignSeeded(p: Place, items: seq<Value>, bin: string)
    ensures Foreign(p, Seeded(p, items, bin)) == Foreign(p, items) && HasOurs(p, Seeded(p, items, bin))
  {
    ForeignOwn(p, items, bin);
  }

  // ---------------------------------------------------------------- remove undoes install

  predicate CleanSection(s: Option<Value>, p: Place) {
    s.None? || (s.value.Object? && s.value.fields != []
                && var l := Get(s.value.fields, List(p));
                   l.None? || (l.value.Array? && l.value.items != [] && !HasOurs(p, l.value.items)))
  }

  /** No item of ours, and no empty or foreign-typed container where ours would go. */
  predicate Clean(o: seq<Field>, p: Place) {
    CleanSection(Get(o, Section(p)), p)
  }

  /** What install and remove leave of a section. */
  function RoundTrip(s: Option<Value>, p: Place, bin: string): Option<Value> {
    var h := if s.Some? && s.value.Object? then s.value.fields else [];
    var left := Foreign(p, Seeded(p, ListOf(h, p), bin));
    var h2 := if left == [] then Delete(h, List(p)) else Set(h, List(p), Array(left));
    if h2 == [] then None else Some(Object(h2))
  }

  lemma StripSeedSection(o: seq<Field>, p: Place, bin: string)
    ensures var r := RoundTrip(Get(o, Section(p)), p, bin);
            Strip(Seed(o, p, bin), p) == if r.None? then Delete(o, Section(p)) else Set(o, Section(p), r.value)
  {
    hide IsOurs, Foreign, Get, Set, Delete, Own, List, Section, Unique, HasOurs;
    var h, k := SectionOf(o, p), List(p);
    var items := Seeded(p, ListOf(h, p), bin);
    var h1 := Set(h, k, Array(items));
    GetSet(o, Section(p), Object(h1), Section(p));
    GetSet(h, k, Array(items), k);
    DeleteSet(h, k, Array(items));
    SetSet(h, k, Array(items), Array(Foreign(p, items)));
    var r := RoundTrip(Get(o, Section(p)), p, bin);
    DeleteSet(o, Section(p), Object(h1));
    if r.Some? {
      SetSet(o, Section(p), Object(h1), r.value);
    }
  }

  lemma RoundTripIff(s: Option<Value>, p: Place, bin: string)
    requires s.Some? && s.value.Object? ==> Unique(s.value.fields)
    ensures RoundTrip(s, p, bin) == s <==> CleanSection(s, p)
  {
    hide IsOurs, Foreign, Get, Set, Delete;
    var h := if s.Some? && s.value.Object? then s.value.fields else [];
    var items, k := ListOf(h, p), List(p);
    ForeignSeeded(p, items, bin);
    ForeignHasNone(p, items);
    var left := Foreign(p, items);
    if !HasOurs(p, items) {
      ForeignIdle(p, items);
    }
    if left == [] {
      ListGone(h, p);
    } else {
      ListKept(h, p, left);
    }
  }

  /** With nothing left of the list the section is as it was exactly when it had no list. */
  lemma ListGone(h: seq<Field>, p: Place)
    requires Unique(h)
    ensures Delete(h, List(p)) == h <==> Get(h, List(p)) == None
    ensures Get([], List(p)) == None && Delete([], List(p)) == []
  {
    GetDelete(h, List(p), List(p));
    if Get(h, List(p)).None? {
      SetNew(h, List(p), Array([]));
    }
  }

  lemma ListKept(h: seq<Field>, p: Place, left: seq<Value>)
    ensures Set(h, List(p), Array(left)) == h <==> Get(h, List(p)) == Some(Array(left))
    ensures Set(h, List(p), Array(left)) != [] && Get([], List(p)) == None
  {
    GetSet(h, List(p), Array(left), List(p));
    if Get(h, List(p)) == Some(Array(left)) {
      SetSame(h, List(p), Array(left));
    }
  }

  /** Removing undoes installing, order of keys included, exactly on clean settings. */
  lemma RemoveUndoesInstallIff(o: seq<Field>, p: Place, bin: string)
    requires Parsed(o, p)
    ensures Strip(Seed(o, p, bin), p) == o <==> Clean(o, p)
    ensures Get(Strip(Seed(o, p, bin), p), Section(p)) == RoundTrip(Get(o, Section(p)), p, bin)
  {
    var s, k := Get(o, Section(p)), Section(p);
    var r := RoundTrip(s, p, bin);
    StripSeedSection(o, p, bin);
    RoundTripIff(s, p, bin);
    GetDelete(o, k, k);
    if r.Some? {
      GetSet(o, k, r.value, k);
    }
    if r == s {
      if s.None? {
        SetNew(o, k, Object([]));
      } else {
        SetSame(o, k, s.value);
      }
    }
  }

  // ---------------------------------------------------------------- idempotence

  predicate Installed(o: seq<Field>, p: Place) {
    Strippable(o, p) && HasOurs(p, Get(Get(o, Section(p)).value.fields, List(p)).value.items)
  }

  predicate Stripped(o: seq<Field>, p: Place) {
    Strippable(o, p) ==>
      var items := Get(Get(o, Section(p)).value.fields, List(p)).value.items;
      items != [] && !HasOurs(p, items)
  }

  lemma SeedInstalls(o: seq<Field>, p: Place, bin: string)
    ensures Installed(Seed(o, p, bin), p)
  {
    var h, k := SectionOf(o, p), List(p);
    var items := Seeded(p, ListOf(h, p), bin);
    GetSet(o, Section(p), Object(Set(h, k, Array(items))), Section(p));
    GetSet(h, k, Array(items), k);
    ForeignSeeded(p, ListOf(h, p), bin);
  }

  lemma SeedInstalledIdle(o: seq<Field>, p: Place, bin: string)
    requires Installed(o, p)
    ensures Seed(o, p, bin) == o
  {
    var s := Get(o, Section(p)).value;
    SetSame(s.fields, List(p), Get(s.fields, List(p)).value);
    SetSame(o, Section(p), s);
  }

  lemma StripStrips(o: seq<Field>, p: Place)
    requires Parsed(o, p)
    ensures Stripped(Strip(o, p), p)
  {
    if Strippable(o, p) {
      var h, k := Get(o, Section(p)).value.fields, List(p);
      var items := Get(h, k).value.items;
      ForeignHasNone(p, items);
      var h1 := StripSection(h, p);
      GetDelete(o, Section(p), Section(p));
      GetSet(o, Section(p), Object(h1), Section(p));
      GetDelete(h, k, k);
      GetSet(h, k, Array(Foreign(p, items)), k);
    }
  }

  lemma StripStrippedIdle(o: seq<Field>, p: Place)
    requires Stripped(o, p)
    ensures Strip(o, p) == o
  {
    if Strippable(o, p) {
      var s := Get(o, Section(p)).value;
      var items := Get(s.fields, List(p)).value.items;
      ForeignIdle(p, items);
      SetSame(s.fields, List(p), Array(items));
      SetSame(o, Section(p), s);
    }
  }

  /** Both edits are idempotent on any settings. */
  lemma EditsAreIdempotent(o: seq<Field>, p: Place, bin: string)
    requires Parsed(o, p)
    ensures Seed(Seed(o, p, bin), p, bin) == Seed(o, p, bin)
    ensures Strip(Strip(o, p), p) == Strip(o, p)
  {
    SeedInstalls(o, p, bin);
    SeedInstalledIdle(Seed(o, p, bin), p, bin);
    StripStrips(o, p);
    StripStrippedIdle(Strip(o, p), p);
  }

  // ---------------------------------------------------------------- foreign settings

  /** Installing keeps every foreign key, item and order; a new section comes last. */
  lemma InstallKeepsForeign(o: seq<Field>, p: Place, bin: string, k: string)
    requires Parsed(o, p)
    ensures k != Section(p) ==> Get(Seed(o, p, bin), k) == Get(o, k)
    ensures k != List(p) ==> Get(SectionOf(Seed(o, p, bin), p), k) == Get(SectionOf(o, p), k)
    ensures Foreign(p, ListOf(SectionOf(Seed(o, p, bin), p), p)) == Foreign(p, ListOf(SectionOf(o, p), p))
    ensures Keys(Seed(o, p, bin)) == if Get(o, Section(p)).Some? then Keys(o) else Keys(o) + [Section(p)]
    ensures Parsed(Seed(o, p, bin), p)
  {
    hide IsOurs, Foreign, Get, Set, Delete, Own, List, Section, Unique, HasOurs, Keys, Seeded;
    var h, l := SectionOf(o, p), List(p);
    var items := Seeded(p, ListOf(h, p), bin);
    var h1 := Set(h, l, Array(items));
    GetSet(o, Section(p), Object(h1), k);
    GetSet(o, Section(p), Object(h1), Section(p));
    GetSet(h, l, Array(items), k);
    GetSet(h, l, Array(items), l);
    ForeignSeeded(p, ListOf(h, p), bin);
    UniqueSet(o, Section(p), Object(h1));
    UniqueSet(h, l, Array(items));
  }

  lemma ForeignTwice(p: Place, items: seq<Value>)
    ensures Foreign(p, Foreign(p, items)) == Foreign(p, items)
  {
    ForeignHasNone(p, items);
    ForeignIdle(p, Foreign(p, items));
  }

  /** Removing keeps every foreign key, item and order. */
  lemma RemoveKeepsForeign(o: seq<Field>, p: Place, k: string)
    requires Parsed(o, p)
    ensures k != Section(p) ==> Get(Strip(o, p), k) == Get(o, k)
    ensures k != List(p) ==> Get(SectionOf(Strip(o, p), p), k) == Get(SectionOf(o, p), k)
    ensures Foreign(p, ListOf(SectionOf(Strip(o, p), p), p)) == Foreign(p, ListOf(SectionOf(o, p), p))
    ensures Get(Strip(o, p), Section(p)).Some? ==> Keys(Strip(o, p)) == Keys(o)
    ensures Parsed(Strip(o, p), p)
  {
    if Strippable(o, p) {
      SectionKeepsForeign(SectionOf(o, p), p, k);
      StrippedSection(o, p, k);
      hide *;
    }
  }

  lemma StrippedSection(o: seq<Field>, p: Place, k: string)
    requires Parsed(o, p) && Strippable(o, p)
    ensures SectionOf(Strip(o, p), p) == StripSection(SectionOf(o, p), p)
    ensures k != Section(p) ==> Get(Strip(o, p), k) == Get(o, k)
    ensures Get(Strip(o, p), Section(p)).Some? ==> Keys(Strip(o, p)) == Keys(o)
    ensures Unique(Strip(o, p))
  {
    hide Foreign, Get, Set, Delete, StripSection, IsOurs, Section, List, Keys, ListOf, Unique;
    var h1 := StripSection(SectionOf(o, p), p);
    GetDelete(o, Section(p), k);
    GetDelete(o, Section(p), Section(p));
    UniqueDelete(o, Section(p));
    GetSet(o, Section(p), Object(h1), k);
    GetSet(o, Section(p), Object(h1), Section(p));
    UniqueSet(o, Section(p), Object(h1));
  }

  lemma SectionKeepsForeign(h: seq<Field>, p: Place, k: string)
    requires Get(h, List(p)).Some? && Get(h, List(p)).value.Array? && Unique(h)
    ensures k != List(p) ==> Get(StripSection(h, p), k) == Get(h, k)
    ensures Foreign(p, ListOf(StripSection(h, p), p)) == Foreign(p, ListOf(h, p))
    ensures Unique(StripSection(h, p))
  {
    hide Get, Set, Delete, IsOurs;
    var l, left := List(p), Foreign(p, Get(h, List(p)).value.items);
    ForeignTwice(p, Get(h, l).value.items);
    GetDelete(h, l, k);
    GetDelete(h, l, l);
    GetSet(h, l, Array(left), k);
    GetSet(h, l, Array(left), l);
    UniqueDelete(h, l);
    UniqueSet(h, l, Array(left));
  }

  // ---------------------------------------------------------------- install again after a removal

  /** Our item is the last of its list and is what would be installed; alone in the list, the list is the last of its
      section. */
  predicate EndsWithOurs(h: seq<Field>, p: Place, bin: string)
    requires Get(h, List(p)).Some? && Get(h, List(p)).value.Array?
  {
    var items := Get(h, List(p)).value.items;
    items == Foreign(p, items) + [Own(p, bin)] && (Foreign(p, items) == [] ==> h[|h| - 1].key == List(p))
  }

  /** A section after a removal and a new installation. */
  function Again(h: seq<Field>, p: Place, bin: string): seq<Field>
    requires Get(h, List(p)).Some? && Get(h, List(p)).value.Array?
  {
    var h1 := StripSection(h, p);
    Set(h1, List(p), Array(Seeded(p, ListOf(h1, p), bin)))
  }

  lemma AgainIff(h: seq<Field>, p: Place, bin: string)
    requires Unique(h) && Get(h, List(p)).Some? && Get(h, List(p)).value.Array?
    ensures Again(h, p, bin) == h <==> EndsWithOurs(h, p, bin)
  {
    hide IsOurs, Own, List;
    var k, items := List(p), Get(h, List(p)).value.items;
    var left := Foreign(p, items);
    var back := left + [Own(p, bin)];
    ForeignHasNone(p, items);
    if left == [] {
      GetDelete(h, k, k);
      assert !HasOurs(p, []);
      assert Again(h, p, bin) == Set(Delete(h, k), k, Array(back));
      GetSet(Delete(h, k), k, Array(back), k);
      if items == back {
        SetDeleted(h, k, Array(items));
      }
    } else {
      GetSet(h, k, Array(left), k);
      assert Again(h, p, bin) == Set(Set(h, k, Array(left)), k, Array(back));
      SetSet(h, k, Array(left), Array(back));
      GetSet(h, k, Array(back), k);
      if items == back {
        SetSame(h, k, Array(items));
      }
    }
  }

  /** Removing and installing again restores installed settings exactly when our item ends its list, a list with
      nothing else ends its section, and a section with nothing else ends the file. */
  lemma ToggleRestoresIff(o: seq<Field>, p: Place, bin: string)
    requires Parsed(o, p) && Installed(o, p)
    ensures var h := Get(o, Section(p)).value.fields;
            Seed(Strip(o, p), p, bin) == o <==>
            EndsWithOurs(h, p, bin) && (StripSection(h, p) == [] ==> o[|o| - 1].key == Section(p))
  {
    hide IsOurs, Own, List, EndsWithOurs, Foreign, Section;
    var s, k := Get(o, Section(p)).value, Section(p);
    var h, h1 := s.fields, StripSection(s.fields, p);
    AgainIff(h, p, bin);
    var back := Object(Again(h, p, bin));
    StrippedSection(o, p, k);
    if h1 == [] {
      GetDelete(o, k, k);
      assert Seed(Strip(o, p), p, bin) == Set(Delete(o, k), k, back);
      GetSet(Delete(o, k), k, back, k);
      if back == s {
        SetDeleted(o, k, s);
      }
    } else {
      assert Seed(Strip(o, p), p, bin) == Set(Set(o, k, Object(h1)), k, back);
      SetSet(o, k, Object(h1), back);
      GetSet(o, k, back, k);
      if back == s {
        SetSame(o, k, s);
      }
    }
  }

  /** On clean settings the toggle is stable: install, remove, install is install. */
  lemma CleanToggleIsStable(o: seq<Field>, p: Place, bin: string)
    requires Parsed(o, p) && Clean(o, p)
    ensures Seed(Strip(Seed(o, p, bin), p), p, bin) == Seed(o, p, bin)
  {
    RemoveUndoesInstallIff(o, p, bin);
  }

  // ---------------------------------------------------------------- claude: two places in one file

  function InstallClaude(o: seq<Field>, bin: string): seq<Field> {
    Seed(Seed(o, ClaudeHook, bin), ClaudeRule, bin)
  }

  function RemoveClaude(o: seq<Field>): seq<Field> {
    Strip(Strip(o, ClaudeHook), ClaudeRule)
  }

  predicate ParsedClaude(o: seq<Field>) {
    Parsed(o, ClaudeHook) && Parsed(o, ClaudeRule)
  }

  lemma OtherSection(o: seq<Field>, p: Place, q: Place, bin: string)
    requires Parsed(o, p) && Parsed(o, q) && Section(p) != Section(q)
    ensures Parsed(Seed(o, p, bin), q) && Parsed(Strip(o, p), q) && Parsed(Seed(o, p, bin), p) && Parsed(Strip(o, p), p)
    ensures Get(Seed(o, p, bin), Section(q)) == Get(o, Section(q)) && Get(Strip(o, p), Section(q)) == Get(o, Section(q))
  {
    InstallKeepsForeign(o, p, bin, Section(q));
    RemoveKeepsForeign(o, p, Section(q));
  }

  /** Stripping one section commutes with seeding another. */
  lemma StripSeedCommute(o: seq<Field>, p: Place, q: Place, bin: string)
    requires Parsed(o, p) && Parsed(o, q) && Section(p) != Section(q)
    ensures Strip(Seed(o, q, bin), p) == Seed(Strip(o, p), q, bin)
  {
    hide Get, Set, Delete, Section, List, Foreign, IsOurs, StripSection, SeededSection, Unique, Parsed;
    OtherSection(o, p, q, bin);
    OtherSection(o, q, p, bin);
    var w := SeededSection(SectionOf(o, q), q, bin);
    assert SectionOf(Strip(o, p), q) == SectionOf(o, q);
    StripUnder(o, p, Section(q), w);
  }

  lemma StripUnder(o: seq<Field>, p: Place, k: string, w: Value)
    requires k != Section(p) && Get(Set(o, k, w), Section(p)) == Get(o, Section(p))
    ensures Strip(Set(o, k, w), p) == Set(Strip(o, p), k, w)
  {
    hide Get, Set, Delete, Section, List, Foreign, IsOurs, StripSection;
    if Strippable(o, p) {
      var h1 := StripSection(Get(o, Section(p)).value.fields, p);
      SetsCommute(o, Section(p), Object(h1), k, w);
      DeleteSetCommute(o, Section(p), k, w);
    }
  }

  /** Removing undoes installing in a claude settings file, order of keys included, exactly when both places are
      clean. */
  lemma ClaudeRoundTripIff(o: seq<Field>, bin: string)
    requires ParsedClaude(o)
    ensures RemoveClaude(InstallClaude(o, bin)) == o <==> Clean(o, ClaudeHook) && Clean(o, ClaudeRule)
  {
    var o1 := Seed(o, ClaudeHook, bin);
    OtherSection(o, ClaudeHook, ClaudeRule, bin);
    StripSeedCommute(o1, ClaudeHook, ClaudeRule, bin);
    var o2 := Strip(o1, ClaudeHook);
    RemoveUndoesInstallIff(o, ClaudeHook, bin);
    OtherSection(o1, ClaudeHook, ClaudeRule, bin);
    RemoveUndoesInstallIff(o2, ClaudeRule, bin);
    RoundTripIff(Get(o, "permissions"), ClaudeRule, bin);
    RoundTripIff(Get(o, "hooks"), ClaudeHook, bin);
    OtherSection(o2, ClaudeRule, ClaudeHook, bin);
    OtherSection(Seed(o2, ClaudeRule, bin), ClaudeRule, ClaudeHook, bin);
    assert Get(o2, "permissions") == Get(o, "permissions");
  }

  /** Installing and removing a claude settings file twice changes nothing more. */
  lemma ClaudeIdempotent(o: seq<Field>, bin: string)
    requires ParsedClaude(o)
    ensures InstallClaude(InstallClaude(o, bin), bin) == InstallClaude(o, bin)
    ensures RemoveClaude(RemoveClaude(o)) == RemoveClaude(o)
  {
    var o1 := Seed(o, ClaudeHook, bin);
    var o2 := Seed(o1, ClaudeRule, bin);
    OtherSection(o, ClaudeHook, ClaudeRule, bin);
    OtherSection(o1, ClaudeRule, ClaudeHook, bin);
    SeedInstalls(o, ClaudeHook, bin);
    SeedInstalls(o1, ClaudeRule, bin);
    SeedInstalledIdle(o2, ClaudeHook, bin);
    SeedInstalledIdle(o2, ClaudeRule, bin);
    var r1 := Strip(o, ClaudeHook);
    var r2 := Strip(r1, ClaudeRule);
    OtherSection(r1, ClaudeRule, ClaudeHook, bin);
    StripStrips(o, ClaudeHook);
    StripStrips(r1, ClaudeRule);
    StripStrippedIdle(r2, ClaudeHook);
    StripStrippedIdle(r2, ClaudeRule);
  }

  /** Flipping an installed claude file off and on again restores each of its two sections exactly when our item ends
      the section's list. */
  lemma ClaudeToggleRestoresSectionIff(o: seq<Field>, p: Place, bin: string)
    requires ParsedClaude(o) && Installed(o, ClaudeHook) && Installed(o, ClaudeRule) && p != CodexHook
    ensures Get(InstallClaude(RemoveClaude(o), bin), Section(p)) == Get(o, Section(p)) <==>
            EndsWithOurs(Get(o, Section(p)).value.fields, p, bin)
  {
    hide *;
    ClaudeAgain(o, p, bin);
    AgainOfSection(o, p, bin);
  }

  lemma ClaudeAgain(o: seq<Field>, p: Place, bin: string)
    requires ParsedClaude(o) && Installed(o, ClaudeHook) && Installed(o, ClaudeRule) && p != CodexHook
    ensures Parsed(o, p)
    ensures Installed(o, p)
    ensures Get(InstallClaude(RemoveClaude(o), bin), Section(p)) ==
            Some(SeededSection(StripSection(Get(o, Section(p)).value.fields, p), p, bin))
  {
    var h, r := ClaudeHook, ClaudeRule;
    var o1 := Strip(o, h);
    var o2 := Strip(o1, r);
    var o3 := Seed(o2, h, bin);
    hide Get, Set, Delete, IsOurs, Foreign, StripSection, SeededSection, Unique, Keys, List;
    OtherSection(o, h, r, bin);
    OtherSection(o1, r, h, bin);
    OtherSection(o2, h, r, bin);
    OtherSection(o3, r, h, bin);
    hide Strip, Seed, Parsed, Strippable;
    if p == h {
      StrippedSectionOf(o, h);
      SeedSection(o2, h, bin);
    } else {
      StrippedSectionOf(o1, r);
      SeedSection(o3, r, bin);
    }
  }

  lemma StrippedSectionOf(o: seq<Field>, p: Place)
    requires Parsed(o, p) && Strippable(o, p)
    ensures SectionOf(Strip(o, p), p) == StripSection(SectionOf(o, p), p)
  {
    StrippedSection(o, p, Section(p));
  }

  lemma SeedSection(o: seq<Field>, p: Place, bin: string)
    ensures Get(Seed(o, p, bin), Section(p)) == Some(SeededSection(SectionOf(o, p), p, bin))
  {
    GetSet(o, Section(p), SeededSection(SectionOf(o, p), p, bin), Section(p));
  }

  lemma AgainOfSection(o: seq<Field>, p: Place, bin: string)
    requires Parsed(o, p) && Installed(o, p)
    ensures var h := Get(o, Section(p)).value.fields;
            Some(SeededSection(StripSection(h, p), p, bin)) == Get(o, Section(p)) <==> EndsWithOurs(h, p, bin)
  {
    AgainIff(Get(o, Section(p)).value.fields, p, bin);
  }

  /** Removing one place and installing it again. */
  function Toggled(o: seq<Field>, p: Place, bin: string): seq<Field> {
    Seed(Strip(o, p), p, bin)
  }

  /** When our item ends the list, toggling moves a section it alone fills to the end and changes nothing otherwise. */
  lemma ToggleMoves(o: seq<Field>, p: Place, bin: string)
    requires Parsed(o, p) && Installed(o, p) && EndsWithOurs(Get(o, Section(p)).value.fields, p, bin)
    ensures Toggled(o, p, bin)
         == if StripSection(Get(o, Section(p)).value.fields, p) == [] then MovedLast(o, Section(p)) else o
  {
    hide IsOurs, Own, List, EndsWithOurs, Foreign, Section;
    var s, k := Get(o, Section(p)).value, Section(p);
    AgainIff(s.fields, p, bin);
    StrippedSection(o, p, k);
    if StripSection(s.fields, p) == [] {
      GetDelete(o, k, k);
      SetNew(Delete(o, k), k, s);
      assert Toggled(o, p, bin) == Set(Delete(o, k), k, s);
    } else {
      ToggleRestoresIff(o, p, bin);
    }
  }

  lemma ClaudeToggles(o: seq<Field>, bin: string)
    requires ParsedClaude(o)
    ensures InstallClaude(RemoveClaude(o), bin) == Toggled(Toggled(o, ClaudeHook, bin), ClaudeRule, bin)
  {
    var o1 := Strip(o, ClaudeHook);
    OtherSection(o, ClaudeHook, ClaudeRule, bin);
    hide Strip, Seed, Parsed;
    StripSeedCommute(o1, ClaudeRule, ClaudeHook, bin);
  }

  /** The sections our items alone fill are where the toggle puts them back: the last of the file, in the order in which
      they are installed. */
  predicate EndInOrder(o: seq<Field>, hooksGo: bool, permissionsGo: bool) {
    if hooksGo && permissionsGo then |o| >= 2 && o[|o| - 2].key == "hooks" && o[|o| - 1].key == "permissions"
    else if hooksGo then o != [] && o[|o| - 1].key == "hooks"
    else if permissionsGo then o != [] && o[|o| - 1].key == "permissions"
    else true
  }

  /** Flipping an installed claude file off and on again restores it, order of keys included, exactly when our item ends
      both lists and the sections that go and come back end the file in order. */
  lemma ClaudeToggleRestoresIff(o: seq<Field>, bin: string)
    requires ParsedClaude(o) && Installed(o, ClaudeHook) && Installed(o, ClaudeRule)
    ensures var h, r := Get(o, "hooks").value.fields, Get(o, "permissions").value.fields;
            InstallClaude(RemoveClaude(o), bin) == o <==>
            EndsWithOurs(h, ClaudeHook, bin) && EndsWithOurs(r, ClaudeRule, bin)
            && EndInOrder(o, StripSection(h, ClaudeHook) == [], StripSection(r, ClaudeRule) == [])
  {
    ClaudeToggleRestoresSectionIff(o, ClaudeHook, bin);
    ClaudeToggleRestoresSectionIff(o, ClaudeRule, bin);
    var h, r := Get(o, "hooks").value.fields, Get(o, "permissions").value.fields;
    hide InstallClaude, RemoveClaude, EndsWithOurs, IsOurs, Foreign, StripSection, MovedLast, Get, EndInOrder, Moved;
    if EndsWithOurs(h, ClaudeHook, bin) && EndsWithOurs(r, ClaudeRule, bin) {
      ClaudeToggleMoves(o, bin);
      MovedIff(o, StripSection(h, ClaudeHook) == [], StripSection(r, ClaudeRule) == []);
    }
  }

  function Moved(o: seq<Field>, hooksGo: bool, permissionsGo: bool): seq<Field>
    requires Unique(o) && Get(o, "hooks").Some? && Get(o, "permissions").Some?
  {
    MovedLastKeeps(o, "hooks", "permissions");
    var o1 := if hooksGo then MovedLast(o, "hooks") else o;
    if permissionsGo then MovedLast(o1, "permissions") else o1
  }

  lemma MovedIff(o: seq<Field>, hooksGo: bool, permissionsGo: bool)
    requires Unique(o) && Get(o, "hooks").Some? && Get(o, "permissions").Some?
    ensures Moved(o, hooksGo, permissionsGo) == o <==> EndInOrder(o, hooksGo, permissionsGo)
  {
    assert o != [];
    hide MovedLast, Get, Unique;
    MovedLastIff(o, "hooks");
    MovedLastIff(o, "permissions");
    MovedBothIff(o, "hooks", "permissions");
  }

  lemma ClaudeToggleMoves(o: seq<Field>, bin: string)
    requires ParsedClaude(o) && Installed(o, ClaudeHook) && Installed(o, ClaudeRule)
    requires EndsWithOurs(Get(o, "hooks").value.fields, ClaudeHook, bin)
    requires EndsWithOurs(Get(o, "permissions").value.fields, ClaudeRule, bin)
    ensures InstallClaude(RemoveClaude(o), bin)
         == Moved(o, StripSection(Get(o, "hooks").value.fields, ClaudeHook) == [],
                  StripSection(Get(o, "permissions").value.fields, ClaudeRule) == [])
  {
    hide IsOurs, Own, EndsWithOurs, Foreign, StripSection, Toggled, MovedLast, Get, InstallClaude, RemoveClaude;
    ClaudeToggles(o, bin);
    ToggleMoves(o, ClaudeHook, bin);
    StillInstalled(o, bin);
    ToggleMoves(Toggled(o, ClaudeHook, bin), ClaudeRule, bin);
  }

  lemma StillInstalled(o: seq<Field>, bin: string)
    requires ParsedClaude(o) && Installed(o, ClaudeHook) && Installed(o, ClaudeRule)
    ensures var o1 := Toggled(o, ClaudeHook, bin);
            Parsed(o1, ClaudeRule) && Installed(o1, ClaudeRule) && Get(o1, "permissions") == Get(o, "permissions")
  {
    OtherSection(o, ClaudeHook, ClaudeRule, bin);
    OtherSection(Strip(o, ClaudeHook), ClaudeHook, ClaudeRule, bin);
    hide Strip, Seed, IsOurs, Get, Unique;
  }

  // ---------------------------------------------------------------- the files

  /** A settings file: absent, refused because it is no JSON object, or parsed. */
  datatype File = Missing | Refused | Settings(fields: seq<Field>)

  function Installing(f: File, edit: seq<Field> -> seq<Field>): File {
    match f
    case Missing => Settings(edit([]))
    case Refused => Refused
    case Settings(o) => Settings(edit(o))
  }

  function InstallClaudeFile(f: File, bin: string): File {
    Installing(f, o => InstallClaude(o, bin))
  }

  function RemoveClaudeFile(f: File): File {
    if f.Settings? then Settings(RemoveClaude(f.fields)) else f
  }

  function InstallCodexFile(f: File, bin: string): File {
    Installing(f, o => Seed(o, CodexHook, bin))
  }

  /** The codex file goes when nothing is left in it. */
  function RemoveCodexFile(f: File): File {
    if !f.Settings? then f
    else if Strip(f.fields, CodexHook) == [] then Missing
    else Settings(Strip(f.fields, CodexHook))
  }

  /** A claude file is restored exactly when it was there and clean, or refused: a file that was absent stays behind
      as an empty object. */
  lemma ClaudeFileRoundTripIff(f: File, bin: string)
    requires f.Settings? ==> ParsedClaude(f.fields)
    ensures RemoveClaudeFile(InstallClaudeFile(f, bin)) == f <==>
            f.Refused? || (f.Settings? && Clean(f.fields, ClaudeHook) && Clean(f.fields, ClaudeRule))
    ensures RemoveClaudeFile(InstallClaudeFile(Missing, bin)) == Settings([])
  {
    ClaudeRoundTripIff([], bin);
    if f.Settings? {
      ClaudeRoundTripIff(f.fields, bin);
    }
  }

  /** A codex file is restored exactly when it was absent or refused, or was there with something in it and clean. */
  lemma CodexFileRoundTripIff(f: File, bin: string)
    requires f.Settings? ==> Parsed(f.fields, CodexHook)
    ensures RemoveCodexFile(InstallCodexFile(f, bin)) == f <==>
            f.Missing? || f.Refused? || (f.Settings? && f.fields != [] && Clean(f.fields, CodexHook))
  {
    RemoveUndoesInstallIff([], CodexHook, bin);
    if f.Settings? {
      RemoveUndoesInstallIff(f.fields, CodexHook, bin);
    }
  }

  // ---------------------------------------------------------------- what the runtime finds

  /** Some group in this list of the file's hooks runs the approval hook. */
  predicate Hooked(o: seq<Field>, list: string) {
    var s := Get(o, "hooks");
    s.Some? && s.value.Object?
    && var l := Get(s.value.fields, list); l.Some? && l.value.Array? && exists g | g in l.value.items :: RunsApproval(g)
  }

  predicate RunsApproval(g: Value) {
    g.Object?
    && var hooks := Get(g.fields, "hooks");
       hooks.Some? && hooks.value.Array?
       && exists h | h in hooks.value.items ::
            h.Object? && var c := Get(h.fields, "command");
                         c.Some? && c.value.Text? && Includes(c.value.text, "approval-hook")
  }

  /** The peer's own message tool is allowed without asking. */
  predicate Allowed(o: seq<Field>) {
    var s := Get(o, "permissions");
    s.Some? && s.value.Object?
    && var l := Get(s.value.fields, "allow");
       l.Some? && l.value.Array? && Value.Text("mcp__iapeer__send_to_peer") in l.value.items
  }

  /** Whatever else is in the file, it gates calls once the toggle is on, and does not once it is off. */
  lemma GateFollowsToggle(o: seq<Field>, bin: string)
    requires ParsedClaude(o) && Parsed(o, CodexHook)
    ensures Hooked(InstallClaude(o, bin), "PermissionRequest") && Allowed(InstallClaude(o, bin))
    ensures !Hooked(RemoveClaude(o), "PermissionRequest") && !Allowed(RemoveClaude(o))
    ensures Hooked(Seed(o, CodexHook, bin), "PreToolUse") && !Hooked(Strip(o, CodexHook), "PreToolUse")
  {
    var on, off := Seed(o, ClaudeHook, bin), Strip(o, ClaudeHook);
    OtherSection(o, ClaudeHook, ClaudeRule, bin);
    OtherSection(on, ClaudeRule, ClaudeHook, bin);
    OtherSection(off, ClaudeRule, ClaudeHook, bin);
    GateOfPlace(o, ClaudeHook, bin);
    GateOfPlace(on, ClaudeRule, bin);
    GateOfPlace(off, ClaudeRule, bin);
    GateOfPlace(o, CodexHook, bin);
    assert Section(ClaudeHook) == Section(CodexHook) == "hooks" && Section(ClaudeRule) == "permissions";
    hide Seed, Strip, RunsApproval;
  }

  predicate Gates(o: seq<Field>, p: Place) {
    match p
    case ClaudeHook => Hooked(o, "PermissionRequest")
    case ClaudeRule => Allowed(o)
    case CodexHook => Hooked(o, "PreToolUse")
  }

  lemma GateOfPlace(o: seq<Field>, p: Place, bin: string)
    requires Parsed(o, p)
    ensures Gates(Seed(o, p, bin), p) && !Gates(Strip(o, p), p)
  {
    SeedInstalls(o, p, bin);
    StripStrips(o, p);
    GatesIff(Seed(o, p, bin), p);
    GatesIff(Strip(o, p), p);
    hide Gates, Strippable, Seed, Strip;
  }

  lemma GatesIff(o: seq<Field>, p: Place)
    ensures Gates(o, p) <==> Strippable(o, p) && HasOurs(p, Get(Get(o, Section(p)).value.fields, List(p)).value.items)
  {
  }

  /** What a file holds that was absent before: the group with its one command and time-out, and for claude the rule. */
  lemma FreshFiles(bin: string)
    ensures var hook := Object([Field("type", Value.Text("command")),
                                Field("command", Value.Text(bin + " approval-hook")), Field("timeout", Scalar(900))]);
            var group := Object([Field("hooks", Array([hook]))]);
            && InstallClaude([], bin)
               == [Field("hooks", Object([Field("PermissionRequest", Array([group]))])),
                   Field("permissions", Object([Field("allow", Array([Value.Text("mcp__iapeer__send_to_peer")]))]))]
            && Seed([], CodexHook, bin)
               == [Field("hooks", Object([Field("PreToolUse", Array([Object(
                    [Field("matcher", Value.Text("^(Bash|Shell|shell|local_shell|exec|apply_patch|ApplyPatch)$")),
                     Field("hooks", Array([hook]))])]))]))]
  {
    assert " " + MARK == " approval-hook";
    FreshPlace([], ClaudeHook, bin);
    FreshPlace(Seed([], ClaudeHook, bin), ClaudeRule, bin);
    FreshPlace([], CodexHook, bin);
    hide Seed, Get;
  }

  lemma FreshPlace(o: seq<Field>, p: Place, bin: string)
    requires |o| <= 1 && forall f :: f in o ==> f.key != Section(p)
    ensures Seed(o, p, bin) == o + [Field(Section(p), Object([Field(List(p), Array([Own(p, bin)]))]))]
  {
    hide Own;
    assert Get(o, Section(p)).None?;
    assert SectionOf(o, p) == [] && ListOf([], p) == [] && !HasOurs(p, []);
    assert Seeded(p, [], bin) == [] + [Own(p, bin)] == [Own(p, bin)];
    SetNew(o, Section(p), SeededSection([], p, bin));
  }

  // ---------------------------------------------------------------- the edits in place

  class SettingsFile {
    var content: File

    constructor (content: File)
      ensures this.content == content
    {
      this.content := content;
    }

    method InstallClaudeApproval(bin: string) returns (written: bool)
      modifies this
      ensures content == InstallClaudeFile(old(content), bin) && (written <==> !old(content).Refused?)
    {
      if content.Refused? {
        return false;
      }
      var obj := if content.Settings? then content.fields else [];
      obj := PushGroup(obj, ClaudeHook, bin);
      obj := PushGroup(obj, ClaudeRule, bin);
      content := Settings(obj);
      return true;
    }

    method RemoveClaudeApproval() returns (written: bool)
      modifies this
      ensures content == RemoveClaudeFile(old(content)) && (written <==> old(content).Settings?)
    {
      if !content.Settings? {
        return false;
      }
      var obj := content.fields;
      obj := DropGroup(obj, ClaudeHook);
      obj := DropGroup(obj, ClaudeRule);
      content := Settings(obj);
      return true;
    }

    method InstallCodexApproval(bin: string) returns (written: bool)
      modifies this
      ensures content == InstallCodexFile(old(content), bin) && (written <==> !old(content).Refused?)
    {
      if content.Refused? {
        return false;
      }
      var obj := PushGroup(if content.Settings? then content.fields else [], CodexHook, bin);
      content := Settings(obj);
      return true;
    }

    method RemoveCodexApproval() returns (written: bool)
      modifies this
      ensures content == RemoveCodexFile(old(content)) && (written <==> old(content).Settings?)
    {
      if !content.Settings? {
        return false;
      }
      var obj := DropGroup(content.fields, CodexHook);
      content := if |obj| == 0 then Missing else Settings(obj);
      return true;
    }

    method PushGroup(o: seq<Field>, p: Place, bin: string) returns (obj: seq<Field>)
      ensures obj == Seed(o, p, bin)
    {
      var section := Get(o, Section(p));
      var hooks := if section.Some? && section.value.Object? then section.value.fields else [];
      var list := Get(hooks, List(p));
      var pre := if list.Some? && list.value.Array? then list.value.items else [];
      if !HasOurs(p, pre) {
        pre := pre + [Own(p, bin)];
      }
      hooks := Set(hooks, List(p), Array(pre));
      obj := Set(o, Section(p), Object(hooks));
    }

    method DropGroup(o: seq<Field>, p: Place) returns (obj: seq<Field>)
      ensures obj == Strip(o, p)
    {
      obj := o;
      var section := Get(o, Section(p));
      if section.Some? && section.value.Object? {
        var hooks := section.value.fields;
        var list := Get(hooks, List(p));
        if list.Some? && list.value.Array? {
          var left := FilterForeign(p, list.value.items);
          DeleteSet(hooks, List(p), Array(left));
          hooks := Set(hooks, List(p), Array(left));
          if |left| == 0 {
            hooks := Delete(hooks, List(p));
          }
          DeleteSet(o, Section(p), Object(hooks));
          obj := Set(o, Section(p), Object(hooks));
          if |hooks| == 0 {
            obj := Delete(obj, Section(p));
          }
        }
      }
    }

    method FilterForeign(p: Place, items: seq<Value>) returns (left: seq<Value>)
      ensures left == Foreign(p, items)
    {
      left := [];
      for i := 0 to |items|
        invariant left == Foreign(p, items[..i])
      {
        assert items[..i + 1][..i] == items[..i];
        if !IsOurs(p, items[i]) {
          left := left + [items[i]];
        }
      }
      assert items[..|items|] == items;
    }
  }
}
