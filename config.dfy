/** Dotted-key access to a configuration tree (config/config_loader.py).
    A configuration is a dictionary whose values may themselves be
    dictionaries; the key "server.host" names `config["server"]["host"]`. */
module Config {
  import opened Values
  import opened Text

  /** The segments of a dotted key, as `key.split(".")`. */
  function Segments(key: string): (r: seq<string>)
    ensures |r| >= 1
  {
    Split(key, ".")
  }

  /** Follows `keys` from `v`, falling back to `default` as soon as a step
      meets a value that is not a dictionary or lacks the key. */
  function GetPath(v: Value, keys: seq<string>, default: Value): Value
    decreases |keys|
  {
    if keys == [] then v
    else if v.Object? && HasKey(v.fields, keys[0]) then GetPath(Get(v.fields, keys[0]).value, keys[1..], default)
    else default
  }

  /** `get_config_value(config, key, default)`. */
  function GetConfigValue(config: Dict<Value>, key: string, default: Value): Value {
    GetPath(Object(config), Segments(key), default)
  }

  /** Writes `value` at `keys` below `d`. On the way down, a segment that is
      missing or holds something other than a dictionary is replaced by an
      empty dictionary; every other entry keeps its value and position. */
  function SetPath(d: Dict<Value>, keys: seq<string>, value: Value): (r: Dict<Value>)
    requires |keys| >= 1
    ensures HasKey(r, keys[0])
    decreases |keys|
  {
    if |keys| == 1 then
      GetSetSame(d, keys[0], value);
      Set(d, keys[0], value)
    else
      var child := Get(d, keys[0]);
      var sub := if child.Some? && child.value.Object? then child.value.fields else [];
      GetSetSame(d, keys[0], Object(SetPath(sub, keys[1..], value)));
      Set(d, keys[0], Object(SetPath(sub, keys[1..], value)))
  }

  /** `set_config_value(config, key, value)`: the updated configuration. */
  function SetConfigValue(config: Dict<Value>, key: string, value: Value): Dict<Value> {
    SetPath(config, Segments(key), value)
  }

  /** A key without a dot is a plain dictionary lookup with a default. */
  lemma GetPlainKey(config: Dict<Value>, key: string, default: Value)
    requires !Contains(key, ".")
    ensures GetConfigValue(config, key, default) == Get(config, key).GetOr(default)
  {
    var keys := Segments(key);
    assert keys == [key];
    if HasKey(config, key) {
      assert GetPath(Object(config), keys, default) == GetPath(Get(config, key).value, keys[1..], default);
      assert keys[1..] == [];
    }
  }

  /** A path that runs into a value that is not a dictionary yields the default. */
  lemma GetThroughLeaf(v: Value, keys: seq<string>, default: Value)
    requires keys != [] && !v.Object?
    ensures GetPath(v, keys, default) == default
  {
  }

  /** Reading a path just written gives the written value. */
  lemma {:induction false} GetSetPath(d: Dict<Value>, keys: seq<string>, value: Value, default: Value)
    requires |keys| >= 1
    ensures GetPath(Object(SetPath(d, keys, value)), keys, default) == value
    decreases |keys|
  {
    var r := SetPath(d, keys, value);
    if |keys| == 1 {
      GetSetSame(d, keys[0], value);
    } else {
      var child := Get(d, keys[0]);
      var sub := if child.Some? && child.value.Object? then child.value.fields else [];
      GetSetSame(d, keys[0], Object(SetPath(sub, keys[1..], value)));
      GetSetPath(sub, keys[1..], value, default);
    }
  }

  /** `get_config_value` after `set_config_value` on the same key returns the value set. */
  lemma GetAfterSet(config: Dict<Value>, key: string, value: Value, default: Value)
    ensures GetConfigValue(SetConfigValue(config, key, value), key, default) == value
  {
    GetSetPath(config, Segments(key), value, default);
  }

  /** Two paths part ways: at some position both have a segment and the
      segments differ, and up to there they agree. */
  predicate Diverge(p: seq<string>, q: seq<string>)
    decreases |p|
  {
    p != [] && q != [] && (p[0] != q[0] || Diverge(p[1..], q[1..]))
  }

  /** One step of a dotted read on an object: the first key's value, read
      further, or the default when that key is missing. */
  lemma GetPathFirst(d: Dict<Value>, p: seq<string>, default: Value)
    requires |p| >= 1
    ensures GetPath(Object(d), p, default)
      == if Get(d, p[0]).Some? then GetPath(Get(d, p[0]).value, p[1..], default) else default
  {
  }

  /** A path whose first key differs from the written one reads the same. */
  lemma SetKeepsOtherKey(d: Dict<Value>, keys: seq<string>, value: Value, p: seq<string>, default: Value)
    requires |keys| >= 1 && |p| >= 1 && p[0] != keys[0]
    ensures GetPath(Object(SetPath(d, keys, value)), p, default) == GetPath(Object(d), p, default)
  {
    var child := Get(d, keys[0]);
    var sub := if child.Some? && child.value.Object? then child.value.fields else [];
    var w := if |keys| == 1 then value else Object(SetPath(sub, keys[1..], value));
    assert SetPath(d, keys, value) == Set(d, keys[0], w);
    GetSetOther(d, keys[0], w, p[0]);
    GetPathFirst(SetPath(d, keys, value), p, default);
    GetPathFirst(d, p, default);
  }


  /** Writing one path leaves every path that parts from it as it was. */
  lemma {:induction false} SetKeepsDivergent(d: Dict<Value>, keys: seq<string>, value: Value, p: seq<string>, default: Value)
    requires |keys| >= 1 && Diverge(p, keys)
    ensures GetPath(Object(SetPath(d, keys, value)), p, default) == GetPath(Object(d), p, default)
    decreases |keys|
  {
    if p[0] != keys[0] {
      SetKeepsOtherKey(d, keys, value, p, default);
    } else {
      assert |keys| >= 2 && |p| >= 2;
      var child := Get(d, keys[0]);
      var sub := if child.Some? && child.value.Object? then child.value.fields else [];
      var written := SetPath(sub, keys[1..], value);
      GetSetSame(d, keys[0], Object(written));
      GetPathFirst(SetPath(d, keys, value), p, default);
      SetKeepsDivergent(sub, keys[1..], value, p[1..], default);
      GetPathFirst(d, p, default);
      GetPathFirst(sub, p[1..], default);
    }
  }

  /** `set_config_value` on one key leaves every key that parts from it unchanged. */
  lemma SetKeepsOtherKeys(config: Dict<Value>, key: string, value: Value, other: string, default: Value)
    requires Diverge(Segments(other), Segments(key))
    ensures GetConfigValue(SetConfigValue(config, key, value), other, default) == GetConfigValue(config, other, default)
  {
    SetKeepsDivergent(config, Segments(key), value, Segments(other), default);
  }

  /** Writing below a key that holds a plain value replaces that value by a
      dictionary holding only the new entry. */
  lemma SetReplacesLeaf(key: string, leaf: Value, sub: string, value: Value)
    requires !Contains(key, ".") && !Contains(sub, ".") && !leaf.Object?
    ensures SetConfigValue([(key, leaf)], key + "." + sub, value) == [(key, Object([(sub, value)]))]
  {
    var full := key + "." + sub;
    assert Find(full, ".") == |key| by {
      assert OccursAt(full, ".", |key|);
      forall j | 0 <= j < |key| ensures !OccursAt(full, ".", j) {
        if OccursAt(full, ".", j) {
          assert key[j..j + 1] == full[j..j + 1];
          assert OccursAt(key, ".", j);
        }
      }
    }
    assert full[..|key|] == key;
    assert full[|key| + 1..] == sub;
    assert Split(sub, ".") == [sub];
    assert Segments(full) == [key, sub];
    var keys := Segments(full);
    assert keys[1..] == [sub];
    assert SetPath([], [sub], value) == [(sub, value)];
    assert Get([(key, leaf)], key) == Some(leaf);
    assert IndexOf([(key, leaf)], key) == Some(0);
  }
}
