/**
 * A JSON-like document: the decoded form of composer.json (`json_decode(..., true)`)
 * and of a YAML configuration layer. PHP arrays with string keys are `Obj`,
 * PHP lists are `Arr`.
 */
module Json {
  import opened Results

  datatype Json =
    | Null
    | Bool(b: bool)
    | Num(n: int)
    | Str(s: string)
    | Arr(items: seq<Json>)
    | Obj(fields: map<string, Json>)

  /** A nested key such as `extra.drupal-scaffold.allowed-packages`. */
  type Path = seq<string>

  /** The value at `p`, if every key on the way exists in an object. */
  function Get(j: Json, p: Path): Option<Json>
    decreases |p|
  {
    if p == [] then Some(j)
    else if j.Obj? && p[0] in j.fields then Get(j.fields[p[0]], p[1..])
    else None
  }

  /**
   * `$j[p0][p1]... = v`: missing keys on the way are created, as PHP does when
   * it writes through an absent key (a non-object on the way becomes an object).
   */
  function Set(j: Json, p: Path, v: Json): Json
    decreases |p|
  {
    if p == [] then v
    else
      var f := if j.Obj? then j.fields else map[];
      var child := if p[0] in f then f[p[0]] else Null;
      Obj(f[p[0] := Set(child, p[1..], v)])
  }

  /** Neither path is a prefix of the other: they part at some key. */
  predicate Diverge(p: Path, q: Path)
    decreases |p|
  {
    |p| > 0 && |q| > 0 && (p[0] != q[0] || Diverge(p[1..], q[1..]))
  }

  /** PHP's `$j[...] ?? $default`: the default for a missing key or a null. */
  function Coalesce(j: Json, p: Path, default: Json): (r: Json)
    ensures Get(j, p) == None ==> r == default
    ensures Get(j, p).Some? && Get(j, p).value != Null ==> r == Get(j, p).value
  {
    match Get(j, p)
    case Some(v) => if v == Null then default else v
    case None => default
  }

  /** PHP's `empty()` of a value that may be missing. */
  predicate IsEmpty(v: Option<Json>) {
    match v
    case None => true
    case Some(x) =>
      x == Null || x == Bool(false) || x == Num(0) || (x.Str? && EmptyString(x.s))
      || x == Arr([]) || x == Obj(map[])
  }

  /** PHP truthiness of a present value. */
  predicate Truthy(x: Json) {
    !IsEmpty(Some(x))
  }

  /** `$j[...] ?? []` read as a list; anything but a list reads as empty. */
  function List(j: Json, p: Path): seq<Json> {
    match Get(j, p)
    case Some(Arr(xs)) => xs
    case _ => []
  }

  /** `$j[...][] = $v`. */
  function Append(j: Json, p: Path, v: Json): (r: Json)
    ensures List(r, p) == List(j, p) + [v]
  {
    GetSet(j, p, Arr(List(j, p) + [v]));
    Set(j, p, Arr(List(j, p) + [v]))
  }

  /** `in_array($x, $j[...] ?? [])`: $x among the values of a list or an object. */
  predicate InValues(x: Json, j: Json, p: Path) {
    match Get(j, p)
    case Some(Arr(xs)) => x in xs
    case Some(Obj(f)) => x in f.Values
    case _ => false
  }

  /** A written value can be read back. */
  lemma {:induction false} GetSet(j: Json, p: Path, v: Json)
    ensures Get(Set(j, p, v), p) == Some(v)
    decreases |p|
  {
    if p != [] {
      var f := if j.Obj? then j.fields else map[];
      var child := if p[0] in f then f[p[0]] else Null;
      GetSet(child, p[1..], v);
    }
  }

  /** Writing at `p` leaves every diverging path untouched. */
  lemma {:induction false} GetSetOther(j: Json, p: Path, q: Path, v: Json)
    requires Diverge(p, q)
    ensures Get(Set(j, p, v), q) == Get(j, q)
    decreases |p|
  {
    var f := if j.Obj? then j.fields else map[];
    var child := if p[0] in f then f[p[0]] else Null;
    if p[0] == q[0] {
      GetSetOther(child, p[1..], q[1..], v);
      if !(j.Obj? && q[0] in j.fields) {
        GetNull(p[1..], q[1..], v);
      }
    }
  }

  /** Below a freshly created key there is only what was written. */
  lemma {:induction false} GetNull(p: Path, q: Path, v: Json)
    requires Diverge(p, q)
    ensures Get(Set(Null, p, v), q) == None
    decreases |p|
  {
    if p[0] == q[0] {
      GetNull(p[1..], q[1..], v);
    }
  }

  /** Writing back the value already there changes nothing. */
  lemma {:induction false} SetGet(j: Json, p: Path, v: Json)
    requires Get(j, p) == Some(v)
    ensures Set(j, p, v) == j
    decreases |p|
  {
    if p != [] {
      SetGet(j.fields[p[0]], p[1..], v);
      assert j.fields[p[0] := Set(j.fields[p[0]], p[1..], v)] == j.fields;
    }
  }

  /** Only the last of two writes to the same path is visible. */
  lemma {:induction false} SetSet(j: Json, p: Path, a: Json, b: Json)
    ensures Set(Set(j, p, a), p, b) == Set(j, p, b)
    decreases |p|
  {
    if p != [] {
      var f := if j.Obj? then j.fields else map[];
      var child := if p[0] in f then f[p[0]] else Null;
      var ca := Set(child, p[1..], a);
      var f1 := f[p[0] := ca];
      assert Set(j, p, a) == Obj(f1);
      assert Set(Obj(f1), p, b) == Obj(f1[p[0] := Set(ca, p[1..], b)]);
      SetSet(child, p[1..], a, b);
      MapOverwrite(f, p[0], ca, Set(child, p[1..], b));
    }
  }

  lemma MapOverwrite(f: map<string, Json>, k: string, x: Json, y: Json)
    ensures f[k := x][k := y] == f[k := y]
  {
  }

  /** After `$j[p][k] = v`, the object at `p` holds `v` under `k`. */
  lemma {:induction false} InValuesSet(j: Json, p: Path, k: string, v: Json)
    ensures InValues(v, Set(j, p + [k], v), p)
    decreases |p|
  {
    if p == [] {
      assert Set(j, [k], v).fields[k] == Set(if j.Obj? && k in j.fields then j.fields[k] else Null, [], v);
    } else {
      var f := if j.Obj? then j.fields else map[];
      var child := if p[0] in f then f[p[0]] else Null;
      assert (p + [k])[0] == p[0] && (p + [k])[1..] == p[1..] + [k];
      InValuesSet(child, p[1..], k, v);
    }
  }

  /** The list view after a write of a list at a diverging path. */
  lemma ListSetOther(j: Json, p: Path, q: Path, v: Json)
    requires Diverge(p, q)
    ensures List(Set(j, p, v), q) == List(j, q)
    ensures InValues(v, Set(j, p, v), q) == InValues(v, j, q)
  {
    GetSetOther(j, p, q, v);
  }
}
