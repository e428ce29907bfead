/**
 * Nested configuration arrays as the post-processor sees them: a PHP array
 * with string keys whose entries are scalars or further arrays. Paths address
 * an entry by the keys leading to it.
 */
module ConfigTree {
  import opened Wrappers

  datatype Value = Str(s: string) | Int(i: int) | Bool(b: bool) | Obj(fields: map<string, Value>)

  type Config = map<string, Value>

  type Path = seq<string>

  /** The entry at path `p`; the empty path is the whole array. */
  function GetIn(c: Config, p: Path): Option<Value>
    decreases |p|
  {
    if p == [] then Some(Obj(c))
    else if p[0] !in c then None
    else match c[p[0]]
      case Obj(m) => GetIn(m, p[1..])
      case v => if |p| == 1 then Some(v) else None
  }

  /** There is an array at path `p` of `c`. */
  predicate ArrayAt(c: Config, p: Path) {
    GetIn(c, p).Some? && GetIn(c, p).value.Obj?
  }

  /** A one-key path reads the top-level entry. */
  lemma GetInTopLevel(c: Config, k: string)
    ensures GetIn(c, [k]) == if k in c then Some(c[k]) else None
  {
    if k in c && c[k].Obj? {
      assert [k][1..] == [];
    }
  }

  /**
   * Writes `x` at path `p`, creating every missing intermediate array and
   * replacing an intermediate scalar by an array.
   */
  function SetIn(c: Config, p: Path, x: Value): Config
    requires p != []
    decreases |p|
  {
    if |p| == 1 then c[p[0] := x]
    else c[p[0] := Obj(SetIn(Child(c, p[0]), p[1..], x))]
  }

  /** The array under key `k`, or an empty one when there is none. */
  function Child(c: Config, k: string): Config {
    if k in c && c[k].Obj? then c[k].fields else map[]
  }

  /** A write two levels down, spelled out. */
  lemma SetInTwo(c: Config, a: string, b: string, x: Value)
    ensures SetIn(c, [a, b], x) == c[a := Obj(Child(c, a)[b := x])]
  {
    assert [a, b][1..] == [b];
  }

  /** A write three levels down, spelled out. */
  lemma SetInThree(c: Config, a: string, b: string, d: string, x: Value)
    ensures SetIn(c, [a, b, d], x) == c[a := Obj(Child(c, a)[b := Obj(Child(Child(c, a), b)[d := x])])]
  {
    assert [a, b, d][1..] == [b, d];
    SetInTwo(Child(c, a), b, d, x);
  }

  /** Two writes side by side in the same array, two levels down. */
  lemma SetInTwoSiblings(c: Config, a: string, b: string, x: Value, d: string, y: Value)
    ensures SetIn(SetIn(c, [a, b], x), [a, d], y) == c[a := Obj(Child(c, a)[b := x][d := y])]
  {
    SetInTwo(c, a, b, x);
    SetInTwo(SetIn(c, [a, b], x), a, d, y);
    Overwrite(c, a, Obj(Child(c, a)[b := x]), Obj(Child(c, a)[b := x][d := y]));
  }

  /** Two writes side by side in the same array, three levels down. */
  lemma SetInThreeSiblings(c: Config, a: string, b: string, d: string, x: Value, e: string, y: Value)
    ensures SetIn(SetIn(c, [a, b, d], x), [a, b, e], y) ==
      c[a := Obj(Child(c, a)[b := Obj(Child(Child(c, a), b)[d := x][e := y])])]
  {
    var inner := Child(c, a);
    var deeper := Child(inner, b)[d := x];
    SetInThree(c, a, b, d, x);
    var written := SetIn(c, [a, b, d], x);
    SetInThree(written, a, b, e, y);
    assert Child(written, a) == inner[b := Obj(deeper)];
    assert Child(Child(written, a), b) == deeper;
    Overwrite(inner, b, Obj(deeper), Obj(deeper[e := y]));
    Overwrite(c, a, Obj(inner[b := Obj(deeper)]), Obj(inner[b := Obj(deeper[e := y])]));
  }

  /** Adding an entry on the right of a union adds it to the union. */
  lemma UnionUpdate(a: Config, b: Config, k: string, v: Value)
    ensures a + b[k := v] == (a + b)[k := v]
  {
  }

  /** Updating an entry of a map replaces what an earlier update of the same key wrote. */
  lemma Overwrite(c: Config, k: string, y: Value, x: Value)
    ensures c[k := y][k := x] == c[k := x]
  {
  }

  /** Two paths that part ways at some key, so that neither is a prefix of the other. */
  predicate Diverge(p: Path, q: Path)
    decreases |p|
  {
    p != [] && q != [] && (p[0] != q[0] || Diverge(p[1..], q[1..]))
  }

  lemma {:induction false} DivergeSymmetric(p: Path, q: Path)
    requires Diverge(p, q)
    ensures Diverge(q, p)
    decreases |p|
  {
    if p[0] == q[0] {
      DivergeSymmetric(p[1..], q[1..]);
    }
  }

  /** What is written at a path is read back there. */
  lemma {:induction false} GetInSetInSame(c: Config, p: Path, x: Value)
    requires p != []
    ensures GetIn(SetIn(c, p, x), p) == Some(x)
    decreases |p|
  {
    if |p| > 1 {
      GetInSetInSame(Child(c, p[0]), p[1..], x);
    } else {
      assert p[1..] == [];
    }
  }

  /** A write at one path leaves every path that diverges from it as it was. */
  lemma {:induction false} GetInSetInOther(c: Config, p: Path, x: Value, q: Path)
    requires p != [] && Diverge(p, q)
    ensures GetIn(SetIn(c, p, x), q) == GetIn(c, q)
    decreases |p|
  {
    if p[0] == q[0] {
      assert Diverge(p[1..], q[1..]);
      GetInSetInOther(Child(c, p[0]), p[1..], x, q[1..]);
      if !(p[0] in c && c[p[0]].Obj?) {
        assert GetIn(Child(c, p[0]), q[1..]) == None;
      }
    }
  }

  /**
   * Recursive merge of two configuration arrays, the right one winning:
   * an entry the right array supplies replaces the left one unless both
   * are arrays, in which case the two are merged in turn; an entry only
   * the left array has is kept.
   */
  function Merge(a: Config, b: Config): (r: Config)
    decreases Obj(b)
    ensures r.Keys == a.Keys + b.Keys
    ensures forall k :: k in a && k !in b ==> r[k] == a[k]
    ensures forall k :: k in b && !(k in a && a[k].Obj? && b[k].Obj?) ==> r[k] == b[k]
    ensures forall k :: k in a && k in b && a[k].Obj? && b[k].Obj? ==>
      r[k].Obj? && r[k].fields.Keys == a[k].fields.Keys + b[k].fields.Keys
  {
    map k | k in a.Keys + b.Keys ::
      if k in a && k in b && a[k].Obj? && b[k].Obj? then Obj(Merge(a[k].fields, b[k].fields))
      else if k in b then b[k]
      else a[k]
  }

  /** Every entry of a map is a scalar. */
  predicate Flat(m: Config) {
    forall k :: k in m ==> !m[k].Obj?
  }

  /** Merging a flat array on top is a plain right-biased union. */
  lemma MergeFlat(a: Config, b: Config)
    requires Flat(b)
    ensures Merge(a, b) == a + b
  {
  }
}
