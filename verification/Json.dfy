/** Parsed JSON with objects as key-value lists in insertion order, and the edits a settings file undergoes. */
module Json {
  import opened Text

  datatype Value = Object(fields: seq<Field>) | Array(items: seq<Value>) | Text(text: string) | Scalar(code: int)

  datatype Field = Field(key: string, value: Value)

  /** Parsing never yields a key twice. */
  predicate Unique(o: seq<Field>) {
    forall i, j :: 0 <= i < j < |o| ==> o[i].key != o[j].key
  }

  function Get(o: seq<Field>, k: string): (v: Option<Value>)
    ensures v.None? <==> forall i :: 0 <= i < |o| ==> o[i].key != k
    ensures v.Some? ==> exists i :: 0 <= i < |o| && o[i] == Field(k, v.value)
  {
    if o == [] then None else if o[0].key == k then Some(o[0].value) else Get(o[1..], k)
  }

  /** Assigning to a key keeps its place; a new key comes last. */
  function Set(o: seq<Field>, k: string, v: Value): seq<Field> {
    if o == [] then [Field(k, v)]
    else if o[0].key == k then [Field(k, v)] + o[1..]
    else [o[0]] + Set(o[1..], k, v)
  }

  function Delete(o: seq<Field>, k: string): seq<Field> {
    if o == [] then [] else if o[0].key == k then o[1..] else [o[0]] + Delete(o[1..], k)
  }

  function Keys(o: seq<Field>): seq<string> {
    if o == [] then [] else [o[0].key] + Keys(o[1..])
  }

  lemma {:induction false} GetSet(o: seq<Field>, k: string, v: Value, j: string)
    ensures Get(Set(o, k, v), j) == if j == k then Some(v) else Get(o, j)
  {
    if o != [] && o[0].key != k {
      GetSet(o[1..], k, v, j);
      assert Set(o, k, v)[1..] == Set(o[1..], k, v);
    } else if o != [] {
      assert Set(o, k, v)[1..] == o[1..];
    }
  }

  lemma {:induction false} GetDelete(o: seq<Field>, k: string, j: string)
    requires Unique(o)
    ensures Get(Delete(o, k), j) == if j == k then None else Get(o, j)
  {
    if o != [] && o[0].key != k {
      assert Unique(o[1..]);
      GetDelete(o[1..], k, j);
      assert Delete(o, k)[1..] == Delete(o[1..], k);
    } else if o != [] {
      assert forall i :: 0 <= i < |o[1..]| ==> o[1..][i] == o[i + 1];
    }
  }

  lemma {:induction false} SetSet(o: seq<Field>, k: string, v: Value, w: Value)
    ensures Set(Set(o, k, v), k, w) == Set(o, k, w)
  {
    if o != [] && o[0].key != k {
      SetSet(o[1..], k, v, w);
      assert Set(o, k, v)[1..] == Set(o[1..], k, v);
    } else if o != [] {
      assert Set(o, k, v)[1..] == o[1..];
    }
  }

  lemma {:induction false} SetSame(o: seq<Field>, k: string, v: Value)
    requires Get(o, k) == Some(v)
    ensures Set(o, k, v) == o
  {
    if o[0].key != k {
      SetSame(o[1..], k, v);
      assert o == [o[0]] + o[1..];
    } else {
      assert o == [Field(k, v)] + o[1..];
    }
  }

  lemma {:induction false} SetNew(o: seq<Field>, k: string, v: Value)
    requires Get(o, k) == None
    ensures Set(o, k, v) == o + [Field(k, v)] && Delete(o + [Field(k, v)], k) == o && Delete(o, k) == o
  {
    if o != [] {
      SetNew(o[1..], k, v);
      assert (o + [Field(k, v)])[1..] == o[1..] + [Field(k, v)];
      assert o == [o[0]] + o[1..];
    } else {
      assert o + [Field(k, v)] == [Field(k, v)];
    }
  }

  lemma {:induction false} DeleteSet(o: seq<Field>, k: string, v: Value)
    ensures Delete(Set(o, k, v), k) == Delete(o, k)
  {
    if o != [] && o[0].key != k {
      DeleteSet(o[1..], k, v);
      assert Set(o, k, v)[1..] == Set(o[1..], k, v);
    } else if o != [] {
      assert Set(o, k, v)[1..] == o[1..];
    }
  }

  /** Putting a deleted key back restores the object exactly when the key was the last one. */
  lemma {:induction false} SetDeleted(o: seq<Field>, k: string, v: Value)
    requires Unique(o) && Get(o, k) == Some(v)
    ensures Set(Delete(o, k), k, v) == o <==> o[|o| - 1].key == k
  {
    var rest := o[1..];
    UniqueRest(o);
    Unfolds(o, k);
    hide Get, Set, Delete, Unique;
    if o[0].key == k {
      SetNew(rest, k, v);
      LastField(o, rest, k, v);
    } else {
      assert rest != [] && o[|o| - 1] == rest[|rest| - 1];
      SetDeleted(rest, k, v);
      SetUnderHead(o[0], Delete(rest, k), k, v);
      SameTail(o[0], Set(Delete(rest, k), k, v), rest);
    }
  }

  lemma Unfolds(o: seq<Field>, k: string)
    requires o != []
    ensures o == [o[0]] + o[1..]
    ensures o[0].key == k ==> Get(o, k) == Some(o[0].value) && Delete(o, k) == o[1..]
    ensures o[0].key != k ==> Get(o, k) == Get(o[1..], k) && Delete(o, k) == [o[0]] + Delete(o[1..], k)
  {
  }

  lemma UniqueRest(o: seq<Field>)
    requires o != [] && Unique(o)
    ensures Unique(o[1..]) && Get(o[1..], o[0].key) == None
    ensures forall i :: 0 <= i < |o[1..]| ==> o[1..][i].key != o[0].key
  {
    var rest := o[1..];
    assert forall i :: 0 <= i < |rest| ==> rest[i] == o[i + 1];
  }

  lemma LastField(o: seq<Field>, rest: seq<Field>, k: string, v: Value)
    requires o != [] && o[0] == Field(k, v) && rest == o[1..] && forall i :: 0 <= i < |rest| ==> rest[i].key != k
    ensures rest + [Field(k, v)] == o <==> o[|o| - 1].key == k
  {
    if rest != [] {
      assert o[|o| - 1] == rest[|rest| - 1];
      assert (rest + [Field(k, v)])[|rest|].key == k;
    } else {
      assert o == [Field(k, v)];
    }
  }

  lemma SetUnderHead(f: Field, t: seq<Field>, k: string, v: Value)
    requires f.key != k
    ensures Set([f] + t, k, v) == [f] + Set(t, k, v)
  {
    assert ([f] + t)[1..] == t;
  }

  lemma SameTail(f: Field, s: seq<Field>, t: seq<Field>)
    ensures [f] + s == [f] + t <==> s == t
  {
    assert ([f] + s)[1..] == s && ([f] + t)[1..] == t;
  }

  lemma {:induction false} SetsCommute(o: seq<Field>, j: string, v: Value, k: string, w: Value)
    requires j != k && Get(o, j).Some?
    ensures Set(Set(o, j, v), k, w) == Set(Set(o, k, w), j, v)
  {
    if o[0].key == j {
      assert Set(o, j, v)[1..] == o[1..];
      assert Set(o, k, w)[1..] == Set(o[1..], k, w);
    } else if o[0].key == k {
      assert Set(o, k, w)[1..] == o[1..];
      assert Set(o, j, v)[1..] == Set(o[1..], j, v);
    } else {
      SetsCommute(o[1..], j, v, k, w);
      assert Set(o, j, v)[1..] == Set(o[1..], j, v);
      assert Set(o, k, w)[1..] == Set(o[1..], k, w);
    }
  }

  lemma {:induction false} DeleteSetCommute(o: seq<Field>, j: string, k: string, w: Value)
    requires j != k
    ensures Delete(Set(o, k, w), j) == Set(Delete(o, j), k, w)
  {
    if o == [] {
    } else if o[0].key == j {
      assert Set(o, k, w)[1..] == Set(o[1..], k, w);
    } else if o[0].key == k {
      assert Set(o, k, w)[1..] == o[1..];
      assert Delete(o, j)[1..] == Delete(o[1..], j);
    } else {
      DeleteSetCommute(o[1..], j, k, w);
      assert Set(o, k, w)[1..] == Set(o[1..], k, w);
      assert Delete(o, j)[1..] == Delete(o[1..], j);
    }
  }

  lemma UniqueSet(o: seq<Field>, k: string, v: Value)
    requires Unique(o)
    ensures Unique(Set(o, k, v)) && Keys(Set(o, k, v)) == if Get(o, k).Some? then Keys(o) else Keys(o) + [k]
  {
    KeysSet(o, k, v);
    KeysTell(o);
    KeysTell(Set(o, k, v));
    GetTells(o, k);
  }

  lemma {:induction false} KeysTell(o: seq<Field>)
    ensures |Keys(o)| == |o| && forall i :: 0 <= i < |o| ==> Keys(o)[i] == o[i].key
  {
    if o != [] {
      KeysTell(o[1..]);
      assert forall i :: 0 < i < |o| ==> o[1..][i - 1] == o[i] && Keys(o)[i] == Keys(o[1..])[i - 1];
    }
  }

  lemma GetTells(o: seq<Field>, k: string)
    ensures Get(o, k).None? ==> forall i :: 0 <= i < |o| ==> o[i].key != k
  {
  }

  lemma {:induction false} KeysSet(o: seq<Field>, k: string, v: Value)
    ensures Keys(Set(o, k, v)) == if Get(o, k).Some? then Keys(o) else Keys(o) + [k]
  {
    if o != [] && o[0].key != k {
      KeysSet(o[1..], k, v);
      assert Set(o, k, v)[1..] == Set(o[1..], k, v);
      assert [o[0].key] + (Keys(o[1..]) + [k]) == [o[0].key] + Keys(o[1..]) + [k];
    } else if o != [] {
      assert Set(o, k, v)[1..] == o[1..];
    }
  }

  lemma {:induction false} UniqueDelete(o: seq<Field>, k: string)
    requires Unique(o)
    ensures Unique(Delete(o, k)) && |Delete(o, k)| == if Get(o, k).Some? then |o| - 1 else |o|
  {
    if o != [] {
      UniqueRest(o);
      Unfolds(o, k);
      if o[0].key != k {
        UniqueDelete(o[1..], k);
        GetDelete(o[1..], k, o[0].key);
        hide Get, Delete, Unique;
        UniqueCons(o[0], Delete(o[1..], k));
      }
    }
  }

  lemma UniqueCons(f: Field, t: seq<Field>)
    requires Unique(t) && Get(t, f.key) == None
    ensures Unique([f] + t)
  {
    hide Get;
  }

  /** The object with the field of that key put last. */
  function MovedLast(o: seq<Field>, k: string): seq<Field>
    requires Get(o, k).Some?
  {
    Delete(o, k) + [Field(k, Get(o, k).value)]
  }

  lemma GetAt(o: seq<Field>, i: nat)
    requires Unique(o) && i < |o|
    ensures Get(o, o[i].key) == Some(o[i].value)
  {
  }

  lemma {:induction false} DeleteAppend(o: seq<Field>, f: Field, k: string)
    requires f.key != k
    ensures Delete(o + [f], k) == Delete(o, k) + [f]
  {
    if o == [] {
      assert [f][1..] == [];
      assert o + [f] == [f];
    } else {
      assert (o + [f])[1..] == o[1..] + [f];
      DeleteAppend(o[1..], f, k);
    }
  }

  /** Moving one key last restores the object exactly when it was last. */
  lemma MovedLastIff(o: seq<Field>, k: string)
    requires Unique(o) && Get(o, k).Some?
    ensures MovedLast(o, k) == o <==> o[|o| - 1].key == k
  {
    GetDelete(o, k, k);
    SetNew(Delete(o, k), k, Get(o, k).value);
    SetDeleted(o, k, Get(o, k).value);
  }

  lemma MovedLastKeeps(o: seq<Field>, j: string, k: string)
    requires Unique(o) && j != k && Get(o, j).Some?
    ensures Get(MovedLast(o, j), k) == Get(o, k)
  {
    hide Get, Delete, Set, Unique;
    var v := Get(o, j).value;
    GetDelete(o, j, j);
    SetNew(Delete(o, j), j, v);
    GetSet(Delete(o, j), j, v, k);
    GetDelete(o, j, k);
  }

  /** Moving two keys last, one after the other, restores the object exactly when they were its last two in that
      order. */
  lemma MovedBothIff(o: seq<Field>, j: string, k: string)
    requires Unique(o) && j != k && Get(o, j).Some? && Get(o, k).Some?
    ensures Get(MovedLast(o, j), k).Some?
    ensures MovedLast(MovedLast(o, j), k) == o <==> |o| >= 2 && o[|o| - 2].key == j && o[|o| - 1].key == k
  {
    MovedLastKeeps(o, j, k);
    var fj, fk := Field(j, Get(o, j).value), Field(k, Get(o, k).value);
    DeleteAppend(Delete(o, j), fj, k);
    if |o| >= 2 && o[|o| - 2].key == j && o[|o| - 1].key == k {
      TwoLast(o, j, k);
    } else {
      LastTwoOf(Delete(Delete(o, j), k), fj, fk);
    }
  }

  lemma LastTwoOf(d: seq<Field>, f: Field, g: Field)
    ensures var o := d + [f] + [g]; |o| >= 2 && o[|o| - 2] == f && o[|o| - 1] == g
  {
  }

  lemma TwoLast(o: seq<Field>, j: string, k: string)
    requires Unique(o) && j != k && |o| >= 2 && o[|o| - 2].key == j && o[|o| - 1].key == k
    ensures Get(o, j).Some? && Get(o, k).Some?
    ensures Delete(Delete(o, j), k) + [Field(j, Get(o, j).value)] + [Field(k, Get(o, k).value)] == o
  {
    hide Get, Delete;
    var d, fj, fk := o[..|o| - 2], o[|o| - 2], o[|o| - 1];
    GetAt(o, |o| - 2);
    GetAt(o, |o| - 1);
    assert o == d + [fj] + [fk];
    assert forall i :: 0 <= i < |d| ==> d[i] == o[i];
    NotThere(d, j);
    NotThere(d, k);
    DeleteAppend(d + [fj], fk, j);
    SetNew(d, j, fj.value);
    SetNew(d, k, fk.value);
    assert fj == Field(j, fj.value) && fk == Field(k, fk.value);
  }

  lemma NotThere(d: seq<Field>, k: string)
    requires forall i :: 0 <= i < |d| ==> d[i].key != k
    ensures Get(d, k) == None
  {
  }
}
