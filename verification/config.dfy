/** ConfigManager: dot-path lookup and update over a nested configuration map,
    with environment variables taking precedence on lookup. The process
    environment is an explicit input map; loading the YAML file is not modelled,
    the manager simply starts from a given map. */
module Config {
  import opened Common
  import opened Values
  import Text

  datatype ConfigManager = ConfigManager(config: map<string, Value>)

  /** `set` fails when the path runs through an existing value that is not a
      mapping (including an explicit `None`): Python raises a `TypeError` there.
      `depth` is the index of the segment holding that value. */
  datatype SetError = NotAMapping(depth: nat)

  /** The environment variable consulted for `key`: upper-cased, dots turned
      into underscores (`db.host` becomes `DB_HOST`). */
  function EnvKey(key: string): (r: string)
    ensures |r| == |key|
    ensures forall i :: 0 <= i < |r| ==> r[i] != '.' && !Text.IsLowerAscii(r[i])
    ensures forall i :: 0 <= i < |key| && key[i] != '.' ==> r[i] == Text.UpperChar(key[i])
    ensures forall i :: 0 <= i < |key| && key[i] == '.' ==> r[i] == '_'
  {
    Text.ReplaceChar(Text.Upper(key), '.', '_')
  }

  /** The dot-separated segments of a key. */
  function Segments(key: string): (r: seq<string>)
    ensures |r| >= 1
    ensures Text.Join(r, '.') == key
  {
    Text.JoinSplit(key, '.');
    Text.Split(key, '.')
  }

  /** The walk of `get` below the top level: `None` stands for "return the
      default", reached when a segment is missing or `None`, or when a value
      before the last segment is not a mapping. */
  function Walk(m: map<string, Value>, path: seq<string>): (r: Option<Value>)
    requires |path| >= 1
    ensures r.Some? ==> r.value != Null
    ensures path[0] !in m ==> r == None
    ensures path[0] in m && m[path[0]] == Null ==> r == None
    ensures |path| == 1 && path[0] in m && m[path[0]] != Null ==> r == Some(m[path[0]])
    ensures |path| > 1 && path[0] in m && !m[path[0]].Obj? ==> r == None
    decreases |path|
  {
    var v := Lookup(m, path[0], Null);
    if v.Null? then None
    else if |path| == 1 then Some(v)
    else match v
      case Obj(sub) => Walk(sub, path[1..])
      case _ => None
  }

  /** The walk of a path longer than one segment, taken one segment from the
      end: it finds a value exactly when the walk of the path without its last
      segment finds a mapping holding a non-`None` value under the last
      segment. So a missing or `None` segment anywhere along the path, or a
      non-mapping before the last segment, gives the default. */
  lemma {:induction false} WalkLast(m: map<string, Value>, path: seq<string>)
    requires |path| > 1
    ensures var prefix := Walk(m, path[..|path| - 1]);
            var last := path[|path| - 1];
            Walk(m, path) ==
              if prefix.Some? && prefix.value.Obj? && Lookup(prefix.value.fields, last, Null) != Null
              then Some(prefix.value.fields[last]) else None
    decreases |path|
  {
    var v := Lookup(m, path[0], Null);
    if v.Obj? && |path| > 2 {
      assert path[1..][..|path[1..]| - 1] == path[..|path| - 1][1..];
      WalkLast(v.fields, path[1..]);
    }
  }

  /** `get(key, default)`. */
  function Get(cm: ConfigManager, env: map<string, string>, key: string, default: Value): (r: Value)
    ensures EnvKey(key) in env ==> r == Str(env[EnvKey(key)])
    ensures EnvKey(key) !in env && Walk(cm.config, Segments(key)).None? ==> r == default
    ensures EnvKey(key) !in env && Walk(cm.config, Segments(key)).Some? ==> r == Walk(cm.config, Segments(key)).value
  {
    var envKey := EnvKey(key);
    if envKey in env then Str(env[envKey])
    else Walk(cm.config, Segments(key)).GetOr(default)
  }

  /** The path can be written: every existing value before the last segment is
      a mapping (missing segments are fine; `set` creates them). */
  predicate Writable(m: map<string, Value>, path: seq<string>)
    requires |path| >= 1
    decreases |path|
  {
    || |path| == 1
    || path[0] !in m
    || (m[path[0]].Obj? && Writable(m[path[0]].fields, path[1..]))
  }

  /** The update of `set` below the top level: missing intermediate maps are
      created, the last segment receives `value`. */
  function Store(m: map<string, Value>, path: seq<string>, value: Value): (r: Result<map<string, Value>, SetError>)
    requires |path| >= 1
    ensures r.Ok? <==> Writable(m, path)
    ensures r.Ok? ==> r.value.Keys == m.Keys + {path[0]}
    ensures r.Ok? ==> forall k :: k in m && k != path[0] ==> r.value[k] == m[k]
    ensures r.Err? ==> r.error.depth < |path| - 1
    decreases |path|
  {
    if |path| == 1 then Ok(m[path[0] := value])
    else
      var sub: map<string, Value> :=
        if path[0] !in m then map[] else match m[path[0]] case Obj(f) => f case _ => map[];
      if path[0] in m && !m[path[0]].Obj? then Err(NotAMapping(0))
      else match Store(sub, path[1..], value)
        case Ok(sub') => Ok(m[path[0] := Obj(sub')])
        case Err(NotAMapping(d)) => Err(NotAMapping(d + 1))
  }

  /** `set(key, value)`. */
  function Set(cm: ConfigManager, key: string, value: Value): (r: Result<ConfigManager, SetError>)
    ensures r.Ok? <==> Writable(cm.config, Segments(key))
    ensures r.Ok? ==> r.value.config.Keys == cm.config.Keys + {Segments(key)[0]}
  {
    match Store(cm.config, Segments(key), value)
    case Ok(m) => Ok(ConfigManager(m))
    case Err(e) => Err(e)
  }

  /** `get_all()`: the top-level configuration map, as a copy. */
  function GetAll(cm: ConfigManager): map<string, Value> {
    cm.config
  }

  /** Storing a non-`None` value and walking the same path finds it again. */
  lemma {:induction false} WalkStore(m: map<string, Value>, path: seq<string>, value: Value)
    requires |path| >= 1
    requires Store(m, path, value).Ok?
    ensures Walk(Store(m, path, value).value, path) == (if value.Null? then None else Some(value))
    decreases |path|
  {
    if |path| > 1 {
      var sub: map<string, Value> := if path[0] !in m then map[] else m[path[0]].fields;
      WalkStore(sub, path[1..], value);
    }
  }

  /** Storing at one path leaves the walk of any diverging path unchanged: two
      paths diverge when they differ at some segment both have. */
  lemma {:induction false} WalkStoreFrame(m: map<string, Value>, path: seq<string>, value: Value, other: seq<string>)
    requires |path| >= 1 && |other| >= 1
    requires Store(m, path, value).Ok?
    requires exists i :: 0 <= i < |path| && i < |other| && path[i] != other[i]
    ensures Walk(Store(m, path, value).value, other) == Walk(m, other)
    decreases |path|
  {
    var m' := Store(m, path, value).value;
    if path[0] != other[0] {
      assert Lookup(m', other[0], Null) == Lookup(m, other[0], Null);
    } else {
      var i :| 0 <= i < |path| && i < |other| && path[i] != other[i];
      assert i > 0;
      assert |path| > 1 && |other| > 1;
      var sub: map<string, Value> := if path[0] !in m then map[] else m[path[0]].fields;
      var sub' := Store(sub, path[1..], value).value;
      assert path[1..][i - 1] != other[1..][i - 1];
      WalkStoreFrame(sub, path[1..], value, other[1..]);
      assert m'[path[0]] == Obj(sub');
      if path[0] !in m {
        assert Walk(sub, other[1..]) == None;
      }
    }
  }

  /** Round trip of the public interface: with no environment override and no
      non-mapping on the path, `set(key, v)` followed by `get(key, d)` gives back
      `v` when `v` is not `None` (even when `v` is falsy), and `d` when it is. */
  lemma SetThenGet(cm: ConfigManager, env: map<string, string>, key: string, v: Value, d: Value)
    requires EnvKey(key) !in env
    requires Set(cm, key, v).Ok?
    ensures Get(Set(cm, key, v).value, env, key, d) == (if v.Null? then d else v)
  {
    WalkStore(cm.config, Segments(key), v);
  }

  /** `set(key, v)` does not disturb `get` of a key whose dotted path diverges
      from `key`'s. */
  lemma SetPreservesOtherKeys(cm: ConfigManager, env: map<string, string>, key: string, v: Value, other: string, d: Value)
    requires Set(cm, key, v).Ok?
    requires exists i :: 0 <= i < |Segments(key)| && i < |Segments(other)| && Segments(key)[i] != Segments(other)[i]
    ensures Get(Set(cm, key, v).value, env, other, d) == Get(cm, env, other, d)
  {
    WalkStoreFrame(cm.config, Segments(key), v, Segments(other));
  }

  /** For a key without dots and no environment override, `get` reads the
      top-level map that `get_all` returns. */
  lemma GetTopLevel(cm: ConfigManager, env: map<string, string>, key: string, d: Value)
    requires '.' !in key
    requires EnvKey(key) !in env
    ensures Get(cm, env, key, d) == (if key in GetAll(cm) && GetAll(cm)[key] != Null then GetAll(cm)[key] else d)
  {
    Text.SplitJoin([key], '.');
    assert Text.Join([key], '.') == key;
  }
}
