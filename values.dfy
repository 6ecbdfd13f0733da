/** The dynamically typed values that flow through the core: JSON-like
    argument values, tool schemas, memory metadata and configuration trees.
    A Python `dict` keeps its keys in insertion order, so a dictionary is an
    association list whose iteration order is the list order. */
module Values {

  datatype Option<T> = None | Some(value: T) {
    function GetOr(default: T): T {
      match this
      case Some(v) => v
      case None => default
    }
  }

  /** A Python value as produced by `json.loads` or a YAML loader. A Python
      `bool` is also an `int`, which `IsNumber` accounts for. */
  datatype Value =
    | Null
    | Bool(b: bool)
    | Int(i: int)
    | Float(f: real)
    | Str(s: string)
    | Array(elems: seq<Value>)
    | Object(fields: Dict<Value>)

  /** A dictionary in insertion order. */
  type Dict<V> = seq<(string, V)>

  /** Python's truth value of `v` (`bool(v)`). */
  predicate Truthy(v: Value) {
    match v
    case Null => false
    case Bool(b) => b
    case Int(i) => i != 0
    case Float(f) => f != 0.0
    case Str(s) => s != ""
    case Array(xs) => xs != []
    case Object(fs) => fs != []
  }

  /** No key occurs twice, as in every Python `dict`. */
  predicate UniqueKeys<V>(d: Dict<V>) {
    forall i, j :: 0 <= i < j < |d| ==> d[i].0 != d[j].0
  }

  /** Python `k in d`. */
  predicate HasKey<V>(d: Dict<V>, k: string) {
    exists i | 0 <= i < |d| :: d[i].0 == k
  }

  /** A key is in a non-empty dictionary when it is the first key or in the rest. */
  lemma HasKeyCons<V>(d: Dict<V>, k: string)
    requires d != []
    ensures HasKey(d, k) <==> d[0].0 == k || HasKey(d[1..], k)
  {
    if HasKey(d[1..], k) {
      var i :| 0 <= i < |d[1..]| && d[1..][i].0 == k;
      assert d[i + 1].0 == k;
    }
    if HasKey(d, k) && d[0].0 != k {
      var i :| 0 <= i < |d| && d[i].0 == k;
      assert d[1..][i - 1].0 == k;
    }
  }

  /** The position of key `k` in `d`, if present. */
  function IndexOf<V>(d: Dict<V>, k: string): (r: Option<nat>)
    ensures r.None? <==> !HasKey(d, k)
    ensures r.Some? ==> r.value < |d| && d[r.value].0 == k
    ensures r.Some? ==> forall j :: 0 <= j < r.value ==> d[j].0 != k
  {
    if d == [] then None
    else if d[0].0 == k then Some(0)
    else match IndexOf(d[1..], k)
      case None => None
      case Some(j) => Some(j + 1)
  }

  /** Python `d.get(k)`. */
  function Get<V>(d: Dict<V>, k: string): (r: Option<V>)
    ensures r.None? <==> !HasKey(d, k)
    ensures r.Some? ==> exists i | 0 <= i < |d| :: d[i] == (k, r.value)
  {
    match IndexOf(d, k)
    case None => None
    case Some(i) => Some(d[i].1)
  }

  /** Python `d[k] = v`: an existing key keeps its position and takes the
      new value; a new key goes at the end. */
  function Set<V>(d: Dict<V>, k: string, v: V): (r: Dict<V>)
    ensures HasKey(d, k) ==> |r| == |d|
    ensures !HasKey(d, k) ==> r == d + [(k, v)]
    ensures forall j :: 0 <= j < |r| ==> r[j] == (k, v) || (j < |d| && r[j] == d[j])
  {
    match IndexOf(d, k)
    case None => d + [(k, v)]
    case Some(i) => d[i := (k, v)]
  }

  /** Reading a key just written gives the written value. */
  lemma GetSetSame<V>(d: Dict<V>, k: string, v: V)
    ensures Get(Set(d, k, v), k) == Some(v)
  {
    var r := Set(d, k, v);
    match IndexOf(d, k)
    case None =>
      assert r[|d|] == (k, v);
      assert forall j :: 0 <= j < |d| ==> r[j].0 != k;
    case Some(i) =>
      assert r[i] == (k, v);
      assert forall j :: 0 <= j < i ==> r[j].0 != k;
  }

  /** Writing one key leaves every other key as it was. */
  lemma GetSetOther<V>(d: Dict<V>, k: string, v: V, k': string)
    requires k' != k
    ensures Get(Set(d, k, v), k') == Get(d, k')
  {
    var r := Set(d, k, v);
    match IndexOf(d, k') {
      case None =>
        assert forall j :: 0 <= j < |r| ==> r[j].0 != k' by {
          forall j | 0 <= j < |r| ensures r[j].0 != k' {
            if j < |d| { assert r[j].0 == d[j].0 || r[j].0 == k; }
          }
        }
      case Some(i) =>
        assert r[i] == d[i];
        assert forall j :: 0 <= j < i ==> r[j].0 != k' by {
          forall j | 0 <= j < i ensures r[j].0 != k' {
            assert r[j].0 == d[j].0 || r[j].0 == k;
          }
        }
    }
  }

  /** Writing a key adds that key and keeps every other. */
  lemma SetKeys<V>(d: Dict<V>, k: string, v: V, c: string)
    ensures HasKey(Set(d, k, v), c) <==> HasKey(d, c) || c == k
  {
    if c == k {
      GetSetSame(d, k, v);
    } else {
      GetSetOther(d, k, v, c);
    }
  }

  /** Writing a key keeps a dictionary free of duplicate keys. */
  lemma SetKeepsUniqueKeys<V>(d: Dict<V>, k: string, v: V)
    requires UniqueKeys(d)
    ensures UniqueKeys(Set(d, k, v))
  {
    var r := Set(d, k, v);
    match IndexOf(d, k)
    case None =>
      assert forall j :: 0 <= j < |d| ==> r[j] == d[j];
    case Some(i) =>
      assert forall j :: 0 <= j < |d| ==> r[j].0 == d[j].0;
  }
}
