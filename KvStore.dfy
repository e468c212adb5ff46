/** The main process's key-value store: an in-memory cache of top-level
    JSON values, read and written by dotted paths, written through to the
    SQLite key-value table one top-level key at a time; plus the defaults
    filler and the one-shot migration runner. */
module KvStore {
  import opened Common

  // ---------------------------------------------------------------------
  // JSON values
  // ---------------------------------------------------------------------

  /** A JSON-like value. An object is its entries in insertion order, as
      JavaScript keeps them. */
  datatype Value =
    | Undef
    | Null
    | Bool(b: bool)
    | Num(n: real)
    | Str(s: string)
    | Arr(items: seq<Value>)
    | Obj(fields: seq<(string, Value)>)

  /** `acc == null`: null or undefined. */
  predicate Nullish(v: Value) {
    v.Undef? || v.Null?
  }

  predicate HasKey(fields: seq<(string, Value)>, k: string) {
    exists i :: 0 <= i < |fields| && fields[i].0 == k
  }

  /** `obj[k]` on an object: the value of the entry, or undefined. */
  function Lookup(fields: seq<(string, Value)>, k: string): (r: Value)
    ensures !HasKey(fields, k) ==> r == Undef
    decreases |fields|
  {
    if |fields| == 0 then Undef
    else if fields[0].0 == k then fields[0].1
    else
      assert !HasKey(fields, k) ==> !HasKey(fields[1..], k) by {
        if HasKey(fields[1..], k) {
          var i :| 0 <= i < |fields[1..]| && fields[1..][i].0 == k;
          assert fields[i + 1].0 == k;
        }
      }
      Lookup(fields[1..], k)
  }

  /** `{...obj, [k]: v}`: an existing key keeps its place and gets the new
      value; a new key goes last. */
  function SetField(fields: seq<(string, Value)>, k: string, v: Value): (r: seq<(string, Value)>)
    ensures HasKey(r, k)
    decreases |fields|
  {
    if |fields| == 0 then
      var r := [(k, v)];
      assert r[0].0 == k;
      r
    else if fields[0].0 == k then
      var r := [(k, v)] + fields[1..];
      assert r[0].0 == k;
      r
    else
      var rest := SetField(fields[1..], k, v);
      var r := [fields[0]] + rest;
      assert HasKey(r, k) by {
        var i :| 0 <= i < |rest| && rest[i].0 == k;
        assert r[i + 1].0 == k;
      }
      r
  }

  lemma {:induction false} LookupSetSame(fields: seq<(string, Value)>, k: string, v: Value)
    ensures Lookup(SetField(fields, k, v), k) == v
    decreases |fields|
  {
    if |fields| > 0 && fields[0].0 != k {
      LookupSetSame(fields[1..], k, v);
      assert ([fields[0]] + SetField(fields[1..], k, v))[1..] == SetField(fields[1..], k, v);
    }
  }

  lemma {:induction false} LookupSetOther(fields: seq<(string, Value)>, k: string, v: Value, j: string)
    requires j != k
    ensures Lookup(SetField(fields, k, v), j) == Lookup(fields, j)
    decreases |fields|
  {
    if |fields| > 0 {
      if fields[0].0 == k {
        assert ([(k, v)] + fields[1..])[1..] == fields[1..];
      } else {
        LookupSetOther(fields[1..], k, v, j);
        assert ([fields[0]] + SetField(fields[1..], k, v))[1..] == SetField(fields[1..], k, v);
      }
    }
  }

  lemma {:induction false} SetFieldTwice(fields: seq<(string, Value)>, k: string, a: Value, b: Value)
    ensures SetField(SetField(fields, k, a), k, b) == SetField(fields, k, b)
    decreases |fields|
  {
    if |fields| > 0 && fields[0].0 != k {
      SetFieldTwice(fields[1..], k, a, b);
      assert ([fields[0]] + SetField(fields[1..], k, a))[1..] == SetField(fields[1..], k, a);
    } else if |fields| > 0 {
      assert ([(k, a)] + fields[1..])[1..] == fields[1..];
    }
  }

  /** Writing back the value a key already has changes nothing. */
  lemma {:induction false} SetFieldSame(fields: seq<(string, Value)>, k: string)
    requires HasKey(fields, k)
    ensures SetField(fields, k, Lookup(fields, k)) == fields
    decreases |fields|
  {
    if fields[0].0 != k {
      var i :| 0 <= i < |fields| && fields[i].0 == k;
      assert fields[1..][i - 1].0 == k;
      SetFieldSame(fields[1..], k);
      assert [fields[0]] + fields[1..] == fields;
    } else {
      assert [(k, fields[0].1)] + fields[1..] == fields;
    }
  }

  /** `acc[part]` on a value that is not null or undefined: objects look the
      key up; property reads on arrays and primitives are not modelled and
      give undefined. */
  function Member(v: Value, part: string): Value {
    if v.Obj? then Lookup(v.fields, part) else Undef
  }

  /** `deepGet`: the reduce over the path, which stays undefined from the
      first null or undefined on. */
  function DeepGet(v: Value, parts: seq<string>): (r: Value)
    ensures |parts| > 0 && Nullish(v) ==> r == Undef
    decreases |parts|
  {
    if |parts| == 0 then v
    else DeepGet(if Nullish(v) then Undef else Member(v, parts[0]), parts[1..])
  }

  /** Reading along a path in two legs. */
  lemma {:induction false} DeepGetAppend(v: Value, p: seq<string>, q: seq<string>)
    ensures DeepGet(v, p + q) == DeepGet(DeepGet(v, p), q)
    decreases |p|
  {
    if |p| == 0 {
      assert p + q == q;
    } else {
      assert (p + q)[0] == p[0] && (p + q)[1..] == p[1..] + q;
      DeepGetAppend(if Nullish(v) then Undef else Member(v, p[0]), p[1..], q);
    }
  }

  /** Once a null or undefined is met, the rest of the path reads
      undefined. */
  lemma DeepGetStopsAtNullish(v: Value, p: seq<string>, k: string, q: seq<string>)
    requires Nullish(DeepGet(v, p))
    ensures DeepGet(v, p + [k] + q) == Undef
  {
    DeepGetAppend(v, p, [k] + q);
    assert p + [k] + q == p + ([k] + q);
  }

  /** `deepSet`: the empty path replaces the whole value; otherwise the
      target (an object, or `{}` in place of anything else) gets its key
      rebuilt. */
  function DeepSet(v: Value, parts: seq<string>, x: Value): (r: Value)
    ensures |parts| == 0 ==> r == x
    ensures |parts| > 0 ==> r.Obj?
    decreases |parts|
  {
    if |parts| == 0 then x
    else
      var target := if v.Obj? then v.fields else [];
      Obj(SetField(target, parts[0], if |parts| == 1 then x else DeepSet(Lookup(target, parts[0]), parts[1..], x)))
  }

  /** Reading back what was written. */
  lemma {:induction false} DeepGetSet(v: Value, parts: seq<string>, x: Value)
    requires |parts| > 0
    ensures DeepGet(DeepSet(v, parts, x), parts) == x
    decreases |parts|
  {
    var target := if v.Obj? then v.fields else [];
    var inner := if |parts| == 1 then x else DeepSet(Lookup(target, parts[0]), parts[1..], x);
    var d := DeepSet(v, parts, x);
    assert d == Obj(SetField(target, parts[0], inner));
    assert Member(d, parts[0]) == inner by {
      LookupSetSame(target, parts[0], inner);
    }
    assert DeepGet(d, parts) == DeepGet(inner, parts[1..]);
    if |parts| > 1 {
      DeepGetSet(Lookup(target, parts[0]), parts[1..], x);
    }
  }

  /** Every other key of an object target keeps its value; a target that
      is not an object is replaced by `{}`, so it keeps none. */
  lemma DeepSetSiblings(v: Value, parts: seq<string>, x: Value, j: string)
    requires |parts| > 0 && j != parts[0]
    ensures Member(DeepSet(v, parts, x), j) == Member(v, j)
  {
    var target := if v.Obj? then v.fields else [];
    var inner := if |parts| == 1 then x else DeepSet(Lookup(target, parts[0]), parts[1..], x);
    LookupSetOther(target, parts[0], inner, j);
  }

  /** Writing twice to the same path keeps the second value. */
  lemma {:induction false} DeepSetTwice(v: Value, parts: seq<string>, x: Value, y: Value)
    ensures DeepSet(DeepSet(v, parts, x), parts, y) == DeepSet(v, parts, y)
    decreases |parts|
  {
    if |parts| > 0 {
      var target := if v.Obj? then v.fields else [];
      var k := parts[0];
      var inner := if |parts| == 1 then x else DeepSet(Lookup(target, k), parts[1..], x);
      var t2 := SetField(target, k, inner);
      LookupSetSame(target, k, inner);
      if |parts| > 1 {
        DeepSetTwice(Lookup(target, k), parts[1..], x, y);
      }
      SetFieldTwice(target, k, inner, if |parts| == 1 then y else DeepSet(Lookup(target, k), parts[1..], y));
    }
  }

  /** Below anything but an object, every non-empty path reads undefined. */
  lemma DeepGetBelowNonObject(v: Value, p: seq<string>)
    ensures |p| > 0 && !v.Obj? ==> DeepGet(v, p) == Undef
  {
  }

  /** Writing one key below an existing object is writing that object with
      the key set. */
  lemma {:induction false} DeepSetExtend(v: Value, p: seq<string>, k: string, x: Value)
    requires DeepGet(v, p).Obj?
    ensures DeepSet(v, p + [k], x) == DeepSet(v, p, Obj(SetField(DeepGet(v, p).fields, k, x)))
    decreases |p|
  {
    if |p| > 0 {
      assert (p + [k])[0] == p[0] && (p + [k])[1..] == p[1..] + [k];
      var next := if Nullish(v) then Undef else Member(v, p[0]);
      DeepGetBelowNonObject(v, p);
      if |p| > 1 {
        DeepSetExtend(next, p[1..], k, x);
      }
    }
  }

  // ---------------------------------------------------------------------
  // Paths
  // ---------------------------------------------------------------------

  /** The key of the cache a path reads or writes: the text before the
      first dot. */
  function TopKey(path: string): string {
    TakeUntil(path, '.')
  }

  /** A dotted path splits into at least two pieces. */
  lemma SplitAtDot(path: string)
    requires '.' in path
    ensures |Split(path, '.')| >= 2 && Split(path, '.')[0] == TopKey(path)
  {
    var h := TakeUntil(path, '.');
    assert |h| < |path|;
    var t := path[|h| + 1..];
    assert path == h + ['.'] + t;
    SplitAfterHead(h, '.', t);
  }

  /** A cache entry, undefined when absent. */
  function At(cache: map<string, Value>, k: string): Value {
    if k in cache then cache[k] else Undef
  }

  /** `store.get(path)` on a cache: the empty path reads undefined; a dotted
      path reads below its top-level key. */
  function GetFrom(cache: map<string, Value>, path: string): Value {
    if path == "" then Undef
    else if '.' in path then
      var parts := Split(path, '.');
      DeepGet(At(cache, parts[0]), parts[1..])
    else At(cache, path)
  }

  /** `store.set(path, v)` on a cache: the empty path is ignored; a dotted
      path rewrites its top-level key with `deepSet`. */
  function SetIn(cache: map<string, Value>, path: string, v: Value): (r: map<string, Value>)
    ensures path == "" ==> r == cache
    ensures path != "" ==> r.Keys == cache.Keys + {TopKey(path)}
  {
    if path == "" then cache
    else if '.' in path then
      var parts := Split(path, '.');
      SplitAtDot(path);
      cache[parts[0] := DeepSet(At(cache, parts[0]), parts[1..], v)]
    else cache[path := v]
  }

  /** `set` then `get` on the same non-empty path gives the value back. */
  lemma SetThenGet(cache: map<string, Value>, path: string, v: Value)
    requires path != ""
    ensures GetFrom(SetIn(cache, path, v), path) == v
  {
    if '.' in path {
      SplitAtDot(path);
      var parts := Split(path, '.');
      DeepGetSet(At(cache, parts[0]), parts[1..], v);
    }
  }

  /** A write touches only its own top-level key. */
  lemma SetLeavesOtherKeys(cache: map<string, Value>, path: string, v: Value, k: string)
    requires path != "" && k != TopKey(path)
    ensures At(SetIn(cache, path, v), k) == At(cache, k)
  {
    if '.' in path {
      SplitAtDot(path);
    }
  }

  /** A path without a dot names a top-level key: `get` and `set` act on
      that key alone. */
  lemma PlainKey(k: string)
    requires k != "" && '.' !in k
    ensures TopKey(k) == k
    ensures forall c: map<string, Value> {:trigger GetFrom(c, k)} :: GetFrom(c, k) == At(c, k)
    ensures forall c: map<string, Value>, v: Value {:trigger SetIn(c, k, v)} :: SetIn(c, k, v) == c[k := v]
  {
  }

  /** What the store sends to the SQLite key-value table. */
  datatype KvOp = Put(key: string) | Remove(key: string)

  /** The store: the cache, and the writes sent to the key-value table in
      order (each one persists the current cache value of that key). */
  class Store {
    var cache: map<string, Value>
    var kvLog: seq<KvOp>

    constructor (initial: map<string, Value>)
      ensures cache == initial && kvLog == []
    {
      cache := initial;
      kvLog := [];
    }

    /** `store.get`. */
    function Get(path: string): Value
      reads this
    {
      GetFrom(cache, path)
    }

    /** `store.set`: updates the cache and persists the top-level key. */
    method Set(path: string, v: Value)
      modifies this
      ensures cache == SetIn(old(cache), path, v)
      ensures kvLog == old(kvLog) + (if path == "" then [] else [Put(TopKey(path))])
    {
      if path == "" {
        return;
      }
      if '.' in path {
        var parts := Split(path, '.');
        SplitAtDot(path);
        var top := parts[0];
        cache := cache[top := DeepSet(At(cache, top), parts[1..], v)];
        kvLog := kvLog + [Put(top)];
        return;
      }
      cache := cache[path := v];
      assert TakeUntil(path, '.') == path;
      kvLog := kvLog + [Put(path)];
    }

    /** `store.delete`: drops a top-level key from the cache and the table. */
    method Delete(key: string)
      modifies this
      ensures key == "" ==> cache == old(cache) && kvLog == old(kvLog)
      ensures key != "" ==> cache == old(cache) - {key} && kvLog == old(kvLog) + [Remove(key)]
    {
      if key == "" {
        return;
      }
      cache := cache - {key};
      kvLog := kvLog + [Remove(key)];
    }

    /** `runMigrations(store, migrations)`: reads the applied ids, runs in
        order every migration not yet applied, records the ones that
        finished, and writes the applied list back. Returns false when the
        stored list is not iterable and the runner throws before running
        anything. */
    method RunMigrations(ms: seq<Migration>) returns (ok: bool)
      modifies this
      ensures ok <==> AppliedFrom(At(old(cache), AppliedMigrationsKey)).Some?
      ensures !ok ==> cache == old(cache) && kvLog == old(kvLog)
      ensures ok ==>
        var fin := Migrate(MigrationState(old(cache), old(kvLog), AppliedFrom(At(old(cache), AppliedMigrationsKey)).value, []), ms);
        && cache == fin.cache[AppliedMigrationsKey := Arr(fin.applied)]
        && kvLog == fin.log + [Put(AppliedMigrationsKey)]
    {
      NoDotInAppliedMigrationsKey();
      var start := AppliedFrom(Get(AppliedMigrationsKey));
      if start.None? {
        return false;
      }
      var applied := start.value;
      ghost var attempts: seq<(string, bool)> := [];
      ghost var st0 := MigrationState(cache, kvLog, applied, []);
      var i := 0;
      while i < |ms|
        invariant 0 <= i <= |ms|
        invariant Migrate(MigrationState(cache, kvLog, applied, attempts), ms[i..]) == Migrate(st0, ms)
      {
        var m := ms[i];
        assert ms[i..] == [m] + ms[i + 1..];
        if Str(m.id) !in applied {
          var out := m.run(cache);
          cache := out.cache;
          kvLog := kvLog + Puts(out.writes);
          if out.completed {
            applied := applied + [Str(m.id)];
          }
          attempts := attempts + [(m.id, out.completed)];
        }
        i := i + 1;
      }
      Set(AppliedMigrationsKey, Arr(applied));
      ok := true;
    }

    /** `ensureDefaultsDeep(store, defaults, basePath, exclude)`: walks the
        defaults entry by entry, reading and writing through `Get` and `Set`
        at `basePath.key`. `base` is the list of keys `basePath` joins. */
    method EnsureDefaultsDeep(defaults: Value, basePath: string, exclude: set<string>, ghost base: seq<string>)
      requires WellFormedDefaults(defaults)
      requires ValidPath(base) && basePath == Join(base, ".")
      requires |base| >= 1 ==> ObjAt(cache, base).Obj?
      modifies this
      ensures |base| == 0 ==> cache == FillTop(old(cache), defaults, 0, exclude)
      ensures |base| == 0 && CompleteTop(old(cache), defaults, 0, exclude) ==> kvLog == old(kvLog)
      ensures |base| >= 1 ==>
        cache == old(cache)[base[0] := DeepSet(At(old(cache), base[0]), base[1..],
                                               FillFrom(ObjAt(old(cache), base), defaults, 0, exclude))]
      ensures |base| >= 1 && CompleteFrom(ObjAt(old(cache), base), defaults, 0, exclude) ==> kvLog == old(kvLog)
      decreases defaults, 0
    {
      ghost var c0 := cache;
      ghost var x0 := if |base| >= 1 then ObjAt(cache, base) else Obj([]);
      ghost var x := x0;
      if |base| >= 1 {
        DeepSetOfGet(At(c0, base[0]), base[1..]);
        assert c0[base[0] := DeepSet(At(c0, base[0]), base[1..], x)] == c0;
      }
      var i := 0;
      while i < |defaults.fields|
        invariant 0 <= i <= |defaults.fields|
        invariant |base| == 0 ==> FillTop(cache, defaults, i, exclude) == FillTop(c0, defaults, 0, exclude)
        invariant |base| == 0 && CompleteTop(c0, defaults, 0, exclude) ==>
          cache == c0 && kvLog == old(kvLog) && CompleteTop(cache, defaults, i, exclude)
        invariant |base| >= 1 ==> x.Obj? && cache == c0[base[0] := DeepSet(At(c0, base[0]), base[1..], x)]
        invariant |base| >= 1 ==> FillFrom(x, defaults, i, exclude) == FillFrom(x0, defaults, 0, exclude)
        invariant |base| >= 1 && CompleteFrom(x0, defaults, 0, exclude) ==>
          x == x0 && kvLog == old(kvLog) && CompleteFrom(x, defaults, i, exclude)
      {
        var key := defaults.fields[i].0;
        var dv := defaults.fields[i].1;
        if |base| == 0 {
          FillTopStep(cache, defaults, i, exclude);
        } else {
          FillFromStep(x, defaults, i, exclude);
        }
        if key in exclude {
          i := i + 1;
          continue;
        }
        var path := if basePath != "" then basePath + "." + key else key;
        ghost var before := cache;
        ghost var xBefore := x;
        x := EnsureDefault(key, dv, path, exclude, base, c0, x);
        if |base| == 0 && EntryComplete(At(before, key), key, dv, exclude) {
          TopStepOfComplete(before, key, dv, exclude);
        }
        if |base| >= 1 && EntryComplete(Lookup(xBefore.fields, key), key, dv, exclude) {
          ObjStepOfComplete(xBefore, key, dv, exclude);
        }
        i := i + 1;
      }
      if |base| >= 1 {
        assert FillFrom(x, defaults, i, exclude) == x;
      }
    }

    /** One entry of `ensureDefaultsDeep`, at `path`, the key's path below
        `basePath`: a leaf default fills only an undefined value, an object
        default replaces anything but an object and is merged into an
        object. `x` is the object at `base` as the loop has written it. */
    method EnsureDefault(key: string, dv: Value, path: string, exclude: set<string>,
                         ghost base: seq<string>, ghost c0: map<string, Value>, ghost x: Value)
      returns (ghost x': Value)
      requires ValidKey(key) && key !in exclude && (dv.Obj? ==> WellFormedDefaults(dv))
      requires ValidPath(base)
      requires path == (if Join(base, ".") != "" then Join(base, ".") + "." + key else key)
      requires |base| >= 1 ==> x.Obj? && cache == c0[base[0] := DeepSet(At(c0, base[0]), base[1..], x)]
      modifies this
      ensures |base| == 0 ==> cache == TopStep(old(cache), key, dv, exclude)
      ensures |base| == 0 && EntryComplete(At(old(cache), key), key, dv, exclude) ==> kvLog == old(kvLog)
      ensures |base| >= 1 ==>
        x' == ObjStep(x, key, dv, exclude) && cache == c0[base[0] := DeepSet(At(c0, base[0]), base[1..], x')]
      ensures |base| >= 1 && EntryComplete(Lookup(x.fields, key), key, dv, exclude) ==> kvLog == old(kvLog)
      decreases dv, 1
    {
      ChildObjAt(cache, base, key);
      if |base| >= 1 {
        ChildWrite(c0, base, x, key, dv);
      } else {
        TopWrite(cache, key, dv);
      }
      var current := Get(path);
      x' := if |base| >= 1 then ObjStep(x, key, dv, exclude) else x;
      if !dv.Obj? {
        if current.Undef? {
          Set(path, dv);
        }
      } else if !current.Obj? {
        Set(path, dv);
      } else {
        EnsureDefaultsDeep(dv, path, exclude, base + [key]);
        if |base| >= 1 {
          ChildFill(c0, base, x, key, FillFrom(current, dv, 0, exclude));
        } else {
          assert base + [key] == [key];
        }
        if CompleteFrom(current, dv, 0, exclude) {
          FillOfComplete(current, dv, 0, exclude);
        }
      }
    }
  }

  // ---------------------------------------------------------------------
  // Filling in defaults
  // ---------------------------------------------------------------------

  /** A key that a dotted path can name: non-empty and without dots. */
  predicate ValidKey(k: string) {
    k != "" && '.' !in k
  }

  predicate ValidPath(parts: seq<string>) {
    forall i :: 0 <= i < |parts| ==> ValidKey(parts[i])
  }

  predicate DistinctKeys(fields: seq<(string, Value)>) {
    forall i, j :: 0 <= i < j < |fields| ==> fields[i].0 != fields[j].0
  }

  /** A defaults tree as an object literal writes it: distinct valid keys
      and no undefined value, all the way down. */
  predicate WellFormedDefaults(def: Value)
    decreases def
  {
    && def.Obj?
    && DistinctKeys(def.fields)
    && forall i :: 0 <= i < |def.fields| ==>
         && ValidKey(def.fields[i].0)
         && !def.fields[i].1.Undef?
         && (def.fields[i].1.Obj? ==> WellFormedDefaults(def.fields[i].1))
  }

  /** What a key holding `c` ends up holding under the default `dv`: a
      primitive or array default fills only an undefined value; an object
      default replaces anything but an object, and is merged into an
      object. */
  function FilledValue(c: Value, dv: Value, ex: set<string>): Value
    decreases dv, 1
  {
    if !dv.Obj? then (if c.Undef? then dv else c)
    else if !c.Obj? then dv
    else FillFrom(c, dv, 0, ex)
  }

  /** `ensureDefaultsDeep` below an object `cur`, from the i-th entry of
      the defaults on: excluded keys and defined values under a leaf
      default are left alone. */
  function FillFrom(cur: Value, def: Value, i: nat, ex: set<string>): (r: Value)
    requires cur.Obj? && def.Obj? && i <= |def.fields|
    ensures r.Obj?
    decreases def, 0, |def.fields| - i
  {
    if i == |def.fields| then cur
    else
      var k := def.fields[i].0;
      var dv := def.fields[i].1;
      var c := Lookup(cur.fields, k);
      var next := if k in ex || (!dv.Obj? && !c.Undef?) then cur
                  else Obj(SetField(cur.fields, k, FilledValue(c, dv, ex)));
      FillFrom(next, def, i + 1, ex)
  }

  /** Nothing from the i-th entry on would be written below `cur`. */
  predicate CompleteFrom(cur: Value, def: Value, i: nat, ex: set<string>)
    requires cur.Obj? && def.Obj? && i <= |def.fields|
    decreases def, |def.fields| - i
  {
    || i == |def.fields|
    || (var k := def.fields[i].0;
        var dv := def.fields[i].1;
        var c := Lookup(cur.fields, k);
        && (k in ex || (!dv.Obj? && !c.Undef?) || (dv.Obj? && c.Obj? && CompleteFrom(c, dv, 0, ex)))
        && CompleteFrom(cur, def, i + 1, ex))
  }

  /** `ensureDefaultsDeep` at the top level of the cache. */
  function FillTop(cache: map<string, Value>, def: Value, i: nat, ex: set<string>): map<string, Value>
    requires def.Obj? && i <= |def.fields|
    decreases |def.fields| - i
  {
    if i == |def.fields| then cache
    else
      var k := def.fields[i].0;
      var dv := def.fields[i].1;
      var c := At(cache, k);
      var next := if k in ex || (!dv.Obj? && !c.Undef?) then cache
                  else cache[k := FilledValue(c, dv, ex)];
      FillTop(next, def, i + 1, ex)
  }

  /** Nothing from the i-th entry on would be written at the top level. */
  predicate CompleteTop(cache: map<string, Value>, def: Value, i: nat, ex: set<string>)
    requires def.Obj? && i <= |def.fields|
    decreases |def.fields| - i
  {
    || i == |def.fields|
    || (var k := def.fields[i].0;
        var dv := def.fields[i].1;
        var c := At(cache, k);
        && (k in ex || (!dv.Obj? && !c.Undef?) || (dv.Obj? && c.Obj? && CompleteFrom(c, dv, 0, ex)))
        && CompleteTop(cache, def, i + 1, ex))
  }

  /** One entry of the defaults applied below the object `cur`. */
  function ObjStep(cur: Value, k: string, dv: Value, ex: set<string>): Value
    requires cur.Obj?
  {
    var c := Lookup(cur.fields, k);
    if k in ex || (!dv.Obj? && !c.Undef?) then cur
    else Obj(SetField(cur.fields, k, FilledValue(c, dv, ex)))
  }

  /** One entry of the defaults applied at the top level of the cache. */
  function TopStep(cache: map<string, Value>, k: string, dv: Value, ex: set<string>): map<string, Value> {
    var c := At(cache, k);
    if k in ex || (!dv.Obj? && !c.Undef?) then cache
    else cache[k := FilledValue(c, dv, ex)]
  }

  /** The entry `k: dv` would write nothing over the value `c`. */
  predicate EntryComplete(c: Value, k: string, dv: Value, ex: set<string>) {
    k in ex || (!dv.Obj? && !c.Undef?) || (dv.Obj? && c.Obj? && CompleteFrom(c, dv, 0, ex))
  }

  /** The walk below an object is its first step, then the rest. */
  lemma FillFromStep(cur: Value, def: Value, i: nat, ex: set<string>)
    requires cur.Obj? && def.Obj? && i < |def.fields|
    ensures var k := def.fields[i].0;
      var dv := def.fields[i].1;
      && FillFrom(cur, def, i, ex) == FillFrom(ObjStep(cur, k, dv, ex), def, i + 1, ex)
      && (CompleteFrom(cur, def, i, ex) <==>
            EntryComplete(Lookup(cur.fields, k), k, dv, ex) && CompleteFrom(cur, def, i + 1, ex))
  {
  }

  /** The walk at the top level is its first step, then the rest. */
  lemma FillTopStep(cache: map<string, Value>, def: Value, i: nat, ex: set<string>)
    requires def.Obj? && i < |def.fields|
    ensures var k := def.fields[i].0;
      var dv := def.fields[i].1;
      && FillTop(cache, def, i, ex) == FillTop(TopStep(cache, k, dv, ex), def, i + 1, ex)
      && (CompleteTop(cache, def, i, ex) <==>
            EntryComplete(At(cache, k), k, dv, ex) && CompleteTop(cache, def, i + 1, ex))
  {
  }

  /** A complete entry changes nothing below an object. */
  lemma ObjStepOfComplete(cur: Value, k: string, dv: Value, ex: set<string>)
    requires cur.Obj? && EntryComplete(Lookup(cur.fields, k), k, dv, ex)
    ensures ObjStep(cur, k, dv, ex) == cur
  {
    var c := Lookup(cur.fields, k);
    if !(k in ex || (!dv.Obj? && !c.Undef?)) {
      FillOfComplete(c, dv, 0, ex);
      SetFieldSame(cur.fields, k);
    }
  }

  /** A complete entry changes nothing at the top level. */
  lemma TopStepOfComplete(cache: map<string, Value>, k: string, dv: Value, ex: set<string>)
    requires EntryComplete(At(cache, k), k, dv, ex)
    ensures TopStep(cache, k, dv, ex) == cache
  {
    var c := At(cache, k);
    if !(k in ex || (!dv.Obj? && !c.Undef?)) {
      FillOfComplete(c, dv, 0, ex);
    }
  }

  lemma {:induction false} LookupDistinct(fields: seq<(string, Value)>, i: nat)
    requires DistinctKeys(fields) && i < |fields|
    ensures Lookup(fields, fields[i].0) == fields[i].1
    decreases |fields|
  {
    if i > 0 {
      assert fields[0].0 != fields[i].0;
      LookupDistinct(fields[1..], i - 1);
    }
  }

  /** Keys that no remaining default names keep their value. */
  lemma {:induction false} FillKeepsOtherKeys(cur: Value, def: Value, i: nat, ex: set<string>, j: string)
    requires cur.Obj? && def.Obj? && i <= |def.fields|
    requires forall m :: i <= m < |def.fields| ==> def.fields[m].0 != j
    ensures Lookup(FillFrom(cur, def, i, ex).fields, j) == Lookup(cur.fields, j)
    decreases |def.fields| - i
  {
    if i < |def.fields| {
      var k := def.fields[i].0;
      var dv := def.fields[i].1;
      var c := Lookup(cur.fields, k);
      if !(k in ex || (!dv.Obj? && !c.Undef?)) {
        LookupSetOther(cur.fields, k, FilledValue(c, dv, ex), j);
      }
      var next := if k in ex || (!dv.Obj? && !c.Undef?) then cur
                  else Obj(SetField(cur.fields, k, FilledValue(c, dv, ex)));
      FillKeepsOtherKeys(next, def, i + 1, ex, j);
    }
  }

  /** What each default's key ends up holding: excluded keys keep their
      value, the others hold `FilledValue` of what they held. */
  lemma {:induction false} FillEntry(cur: Value, def: Value, i: nat, ex: set<string>, j: nat)
    requires cur.Obj? && def.Obj? && DistinctKeys(def.fields) && i <= j < |def.fields|
    ensures var k := def.fields[j].0;
      var c := Lookup(cur.fields, k);
      Lookup(FillFrom(cur, def, i, ex).fields, k) == if k in ex then c else FilledValue(c, def.fields[j].1, ex)
    decreases |def.fields| - i
  {
    var k := def.fields[i].0;
    var dv := def.fields[i].1;
    var c := Lookup(cur.fields, k);
    var next := if k in ex || (!dv.Obj? && !c.Undef?) then cur
                else Obj(SetField(cur.fields, k, FilledValue(c, dv, ex)));
    if i == j {
      if !(k in ex || (!dv.Obj? && !c.Undef?)) {
        LookupSetSame(cur.fields, k, FilledValue(c, dv, ex));
      }
      FillKeepsOtherKeys(next, def, i + 1, ex, k);
    } else {
      assert def.fields[i].0 != def.fields[j].0;
      if !(k in ex || (!dv.Obj? && !c.Undef?)) {
        LookupSetOther(cur.fields, k, FilledValue(c, dv, ex), def.fields[j].0);
      }
      FillEntry(next, def, i + 1, ex, j);
    }
  }

  /** Filling an object that needs nothing changes nothing. */
  lemma {:induction false} FillOfComplete(cur: Value, def: Value, i: nat, ex: set<string>)
    requires cur.Obj? && def.Obj? && i <= |def.fields|
    requires CompleteFrom(cur, def, i, ex)
    ensures FillFrom(cur, def, i, ex) == cur
    decreases def, |def.fields| - i
  {
    if i < |def.fields| {
      var k := def.fields[i].0;
      var dv := def.fields[i].1;
      var c := Lookup(cur.fields, k);
      if !(k in ex || (!dv.Obj? && !c.Undef?)) {
        FillOfComplete(c, dv, 0, ex);
        SetFieldSame(cur.fields, k);
      }
      FillOfComplete(cur, def, i + 1, ex);
    }
  }

  /** A defaults tree already holds all of itself. */
  lemma {:induction false} SelfComplete(def: Value, i: nat, ex: set<string>)
    requires WellFormedDefaults(def) && i <= |def.fields|
    ensures CompleteFrom(def, def, i, ex)
    decreases def, |def.fields| - i
  {
    if i < |def.fields| {
      LookupDistinct(def.fields, i);
      var dv := def.fields[i].1;
      if dv.Obj? {
        SelfComplete(dv, 0, ex);
      }
      SelfComplete(def, i + 1, ex);
    }
  }

  /** After filling, nothing is left to fill. */
  lemma {:induction false} FillCompletes(cur: Value, def: Value, i: nat, ex: set<string>)
    requires cur.Obj? && WellFormedDefaults(def) && i <= |def.fields|
    ensures CompleteFrom(FillFrom(cur, def, i, ex), def, i, ex)
    decreases def, |def.fields| - i
  {
    if i < |def.fields| {
      var k := def.fields[i].0;
      var dv := def.fields[i].1;
      var c := Lookup(cur.fields, k);
      var next := if k in ex || (!dv.Obj? && !c.Undef?) then cur
                  else Obj(SetField(cur.fields, k, FilledValue(c, dv, ex)));
      FillCompletes(next, def, i + 1, ex);
      FillKeepsOtherKeys(next, def, i + 1, ex, k);
      if !(k in ex || (!dv.Obj? && !c.Undef?)) {
        LookupSetSame(cur.fields, k, FilledValue(c, dv, ex));
        if dv.Obj? && !c.Obj? {
          SelfComplete(dv, 0, ex);
        } else if dv.Obj? {
          FillCompletes(c, dv, 0, ex);
        }
      }
    }
  }

  /** Filling twice is filling once. */
  lemma FillIdempotent(cur: Value, def: Value, ex: set<string>)
    requires cur.Obj? && WellFormedDefaults(def)
    ensures FillFrom(FillFrom(cur, def, 0, ex), def, 0, ex) == FillFrom(cur, def, 0, ex)
  {
    FillCompletes(cur, def, 0, ex);
    FillOfComplete(FillFrom(cur, def, 0, ex), def, 0, ex);
  }

  lemma {:induction false} FillTopKeepsOtherKeys(cache: map<string, Value>, def: Value, i: nat, ex: set<string>, j: string)
    requires def.Obj? && i <= |def.fields|
    requires forall m :: i <= m < |def.fields| ==> def.fields[m].0 != j
    ensures At(FillTop(cache, def, i, ex), j) == At(cache, j)
    decreases |def.fields| - i
  {
    if i < |def.fields| {
      var k := def.fields[i].0;
      var dv := def.fields[i].1;
      var c := At(cache, k);
      var next := if k in ex || (!dv.Obj? && !c.Undef?) then cache
                  else cache[k := FilledValue(c, dv, ex)];
      FillTopKeepsOtherKeys(next, def, i + 1, ex, j);
    }
  }

  /** What each top-level default's key ends up holding. */
  lemma {:induction false} FillTopEntry(cache: map<string, Value>, def: Value, i: nat, ex: set<string>, j: nat)
    requires def.Obj? && DistinctKeys(def.fields) && i <= j < |def.fields|
    ensures var k := def.fields[j].0;
      var c := At(cache, k);
      At(FillTop(cache, def, i, ex), k) == if k in ex then c else FilledValue(c, def.fields[j].1, ex)
    decreases |def.fields| - i
  {
    var k := def.fields[i].0;
    var dv := def.fields[i].1;
    var c := At(cache, k);
    var next := if k in ex || (!dv.Obj? && !c.Undef?) then cache
                else cache[k := FilledValue(c, dv, ex)];
    if i == j {
      FillTopKeepsOtherKeys(next, def, i + 1, ex, k);
    } else {
      assert def.fields[i].0 != def.fields[j].0;
      FillTopEntry(next, def, i + 1, ex, j);
    }
  }

  lemma {:induction false} FillTopOfComplete(cache: map<string, Value>, def: Value, i: nat, ex: set<string>)
    requires def.Obj? && i <= |def.fields|
    requires CompleteTop(cache, def, i, ex)
    ensures FillTop(cache, def, i, ex) == cache
    decreases |def.fields| - i
  {
    if i < |def.fields| {
      var k := def.fields[i].0;
      var dv := def.fields[i].1;
      var c := At(cache, k);
      if !(k in ex || (!dv.Obj? && !c.Undef?)) {
        FillOfComplete(c, dv, 0, ex);
        assert cache[k := c] == cache;
      }
      FillTopOfComplete(cache, def, i + 1, ex);
    }
  }

  lemma {:induction false} FillTopCompletes(cache: map<string, Value>, def: Value, i: nat, ex: set<string>)
    requires WellFormedDefaults(def) && i <= |def.fields|
    ensures CompleteTop(FillTop(cache, def, i, ex), def, i, ex)
    decreases |def.fields| - i
  {
    if i < |def.fields| {
      var k := def.fields[i].0;
      var dv := def.fields[i].1;
      var c := At(cache, k);
      var next := if k in ex || (!dv.Obj? && !c.Undef?) then cache
                  else cache[k := FilledValue(c, dv, ex)];
      FillTopCompletes(next, def, i + 1, ex);
      FillTopKeepsOtherKeys(next, def, i + 1, ex, k);
      if !(k in ex || (!dv.Obj? && !c.Undef?)) {
        if dv.Obj? && !c.Obj? {
          SelfComplete(dv, 0, ex);
        } else if dv.Obj? {
          FillCompletes(c, dv, 0, ex);
        }
      }
    }
  }

  /** Filling the cache twice is filling it once. */
  lemma FillTopIdempotent(cache: map<string, Value>, def: Value, ex: set<string>)
    requires WellFormedDefaults(def)
    ensures FillTop(FillTop(cache, def, 0, ex), def, 0, ex) == FillTop(cache, def, 0, ex)
  {
    FillTopCompletes(cache, def, 0, ex);
    FillTopOfComplete(FillTop(cache, def, 0, ex), def, 0, ex);
  }

  /** The key the defaults filler never touches. */
  const AppliedMigrationsKey := "appliedMigrations"

  // ---------------------------------------------------------------------
  // Paths below a top-level key
  // ---------------------------------------------------------------------

  lemma {:induction false} JoinSnoc(parts: seq<string>, k: string)
    requires |parts| >= 1
    ensures Join(parts + [k], ".") == Join(parts, ".") + "." + k
    decreases |parts|
  {
    assert (parts + [k])[1..] == parts[1..] + [k];
    if |parts| > 1 {
      JoinSnoc(parts[1..], k);
    }
  }

  /** The value at the object path `base` of the cache. */
  function ObjAt(cache: map<string, Value>, base: seq<string>): Value
    requires |base| >= 1
  {
    DeepGet(At(cache, base[0]), base[1..])
  }

  /** The dotted path of a key below `base`: reads and writes go through the
      top-level key `base[0]` and the rest of the parts. */
  lemma ChildPath(cache: map<string, Value>, base: seq<string>, key: string, v: Value)
    requires |base| >= 1 && ValidPath(base) && ValidKey(key)
    ensures Join(base, ".") != ""
    ensures var p := Join(base, ".") + "." + key;
      && p == Join(base + [key], ".")
      && GetFrom(cache, p) == DeepGet(At(cache, base[0]), base[1..] + [key])
      && SetIn(cache, p, v) == cache[base[0] := DeepSet(At(cache, base[0]), base[1..] + [key], v)]
  {
    ChildPathSplits(base, key);
    var parts := base + [key];
    assert parts[0] == base[0] && parts[1..] == base[1..] + [key];
  }

  /** The path `ensureDefaultsDeep` builds for a key below `base` joins
      `base + [key]`, and the value read there is the object at that path. */
  lemma ChildObjAt(cache: map<string, Value>, base: seq<string>, key: string)
    requires ValidPath(base) && ValidKey(key)
    ensures ValidPath(base + [key])
    ensures var bp := Join(base, ".");
      var p := if bp != "" then bp + "." + key else key;
      p == Join(base + [key], ".") && ObjAt(cache, base + [key]) == GetFrom(cache, p)
  {
    var parts := base + [key];
    assert ValidPath(parts) by {
      forall i | 0 <= i < |parts| ensures ValidKey(parts[i]) {
        if i < |base| {
          assert parts[i] == base[i];
        }
      }
    }
    if |base| == 0 {
      assert parts == [key];
    } else {
      ChildPath(cache, base, key, Undef);
      assert parts[0] == base[0] && parts[1..] == base[1..] + [key];
    }
  }

  /** Reading and writing one key below the object `x` written at `base`. */
  lemma ChildWrite(c0: map<string, Value>, base: seq<string>, x: Value, key: string, v: Value)
    requires |base| >= 1 && ValidPath(base) && ValidKey(key) && x.Obj?
    ensures var b := base[0];
      var cache := c0[b := DeepSet(At(c0, b), base[1..], x)];
      var p := Join(base, ".") + "." + key;
      && Join(base, ".") != ""
      && GetFrom(cache, p) == Lookup(x.fields, key)
      && SetIn(cache, p, v) == c0[b := DeepSet(At(c0, b), base[1..], Obj(SetField(x.fields, key, v)))]
  {
    var cache := c0[base[0] := DeepSet(At(c0, base[0]), base[1..], x)];
    ChildPath(cache, base, key, v);
    SetBelow(c0, base, x, key, v);
  }

  /** Filling the object at `base + [key]` is writing that key of `x`. */
  lemma ChildFill(c0: map<string, Value>, base: seq<string>, x: Value, key: string, f: Value)
    requires |base| >= 1 && x.Obj?
    ensures var b := base[0];
      var cache := c0[b := DeepSet(At(c0, b), base[1..], x)];
      var child := base + [key];
      cache[child[0] := DeepSet(At(cache, child[0]), child[1..], f)]
        == c0[b := DeepSet(At(c0, b), base[1..], Obj(SetField(x.fields, key, f)))]
  {
    var child := base + [key];
    assert child[0] == base[0] && child[1..] == base[1..] + [key];
    SetBelow(c0, base, x, key, f);
  }

  /** Reading and writing a key at the top level. */
  lemma TopWrite(cache: map<string, Value>, key: string, v: Value)
    requires ValidKey(key)
    ensures GetFrom(cache, key) == At(cache, key)
    ensures SetIn(cache, key, v) == cache[key := v]
  {
  }

  /** The path of a child key splits back into the keys it joins. */
  lemma ChildPathSplits(base: seq<string>, key: string)
    requires |base| >= 1 && ValidPath(base) && ValidKey(key)
    ensures Join(base, ".") != ""
    ensures var p := Join(base, ".") + "." + key;
      p == Join(base + [key], ".") && p != "" && '.' in p && Split(p, '.') == base + [key]
  {
    if |base| == 1 {
      assert Join(base, ".") == base[0];
    } else {
      assert Join(base, ".") == base[0] + "." + Join(base[1..], ".");
    }
    var parts := base + [key];
    JoinSnoc(base, key);
    var p := Join(parts, ".");
    assert p[|Join(base, ".")|] == '.';
    assert forall i :: 0 <= i < |parts| ==> '.' !in parts[i] by {
      forall i | 0 <= i < |parts| ensures '.' !in parts[i] {
        if i < |base| {
          assert parts[i] == base[i];
        }
      }
    }
    SplitJoin(parts, '.');
  }

  /** Writing back the object read at a path changes nothing. */
  lemma {:induction false} DeepSetOfGet(v: Value, p: seq<string>)
    requires DeepGet(v, p).Obj?
    ensures DeepSet(v, p, DeepGet(v, p)) == v
    decreases |p|
  {
    if |p| > 0 {
      DeepGetBelowNonObject(v, p);
      var inner := Lookup(v.fields, p[0]);
      if |p| > 1 {
        DeepGetBelowNonObject(inner, p[1..]);
        DeepSetOfGet(inner, p[1..]);
      }
      SetFieldSame(v.fields, p[0]);
    }
  }

  /** With the object at `base` written as `x`, reading and writing one key
      below it. */
  lemma SetBelow(c0: map<string, Value>, base: seq<string>, x: Value, key: string, v: Value)
    requires |base| >= 1 && x.Obj?
    ensures var b := base[0];
      var cache := c0[b := DeepSet(At(c0, b), base[1..], x)];
      && DeepGet(At(cache, b), base[1..] + [key]) == Lookup(x.fields, key)
      && cache[b := DeepSet(At(cache, b), base[1..] + [key], v)]
         == c0[b := DeepSet(At(c0, b), base[1..], Obj(SetField(x.fields, key, v)))]
  {
    WriteBelow(At(c0, base[0]), base[1..], x, key, v);
  }

  /** Reading and writing one key below the object written at `rest`. */
  lemma WriteBelow(a: Value, rest: seq<string>, x: Value, key: string, v: Value)
    requires x.Obj?
    ensures DeepGet(DeepSet(a, rest, x), rest + [key]) == Lookup(x.fields, key)
    ensures DeepSet(DeepSet(a, rest, x), rest + [key], v) == DeepSet(a, rest, Obj(SetField(x.fields, key, v)))
  {
    var b := DeepSet(a, rest, x);
    if |rest| > 0 {
      DeepGetSet(a, rest, x);
    }
    assert DeepGet(b, rest) == x;
    DeepGetAppend(b, rest, [key]);
    DeepSetExtend(b, rest, key, v);
    DeepSetTwice(a, rest, x, Obj(SetField(x.fields, key, v)));
  }

  // ---------------------------------------------------------------------
  // Migrations
  // ---------------------------------------------------------------------

  /** JavaScript truthiness of a value. */
  predicate Truthy(v: Value) {
    !(v.Undef? || v.Null? || v == Bool(false) || v == Num(0.0) || v == Str(""))
  }

  /** `Array.from(new Set(xs))`: the distinct items in order of first
      appearance. */
  function Dedup(xs: seq<Value>): (r: seq<Value>)
    ensures forall x :: x in r <==> x in xs
    ensures Distinct(r)
    decreases |xs|
  {
    if |xs| == 0 then []
    else
      var r := Dedup(xs[..|xs| - 1]);
      var last := xs[|xs| - 1];
      assert xs == xs[..|xs| - 1] + [last];
      if last in r then r else r + [last]
  }

  lemma {:induction false} DedupOfDistinct(xs: seq<Value>)
    requires Distinct(xs)
    ensures Dedup(xs) == xs
    decreases |xs|
  {
    if |xs| > 0 {
      DedupOfDistinct(xs[..|xs| - 1]);
      assert xs == xs[..|xs| - 1] + [xs[|xs| - 1]];
    }
  }

  /** The one-character strings a string iterates over. */
  function Chars(s: string): seq<Value>
    decreases |s|
  {
    if |s| == 0 then [] else [Str([s[0]])] + Chars(s[1..])
  }

  /** `new Set(s.get('appliedMigrations') || [])`: an array gives its
      distinct items, a string its distinct characters, a falsy value the
      empty set; anything else is not iterable and the runner throws. */
  function AppliedFrom(v: Value): (r: Option<seq<Value>>)
    ensures !Truthy(v) ==> r == Some([])
    ensures v.Arr? ==> r == Some(Dedup(v.items))
    ensures r.None? <==> Truthy(v) && !v.Arr? && !v.Str?
  {
    if !Truthy(v) then Some([])
    else match v
      case Arr(items) => Some(Dedup(items))
      case Str(s) => Some(Dedup(Chars(s)))
      case _ => None
  }

  /** The list the runner writes back reads back as itself. */
  lemma ReadBackApplied(applied: seq<Value>)
    requires Distinct(applied)
    ensures AppliedFrom(Arr(applied)) == Some(applied)
  {
    DedupOfDistinct(applied);
  }

  /** What running a migration does to the cache: the new cache, the
      top-level keys it wrote, and whether it finished (false when it
      threw part-way). */
  datatype MigrationRun = MigrationRun(cache: map<string, Value>, writes: seq<string>, completed: bool)

  datatype Migration = Migration(id: string, run: map<string, Value> -> MigrationRun)

  /** The runner's state: the cache, the table writes, the applied ids, and
      every migration it ran with whether it finished. */
  datatype MigrationState = MigrationState(
    cache: map<string, Value>, log: seq<KvOp>, applied: seq<Value>, attempts: seq<(string, bool)>)

  function Puts(keys: seq<string>): seq<KvOp> {
    seq(|keys|, i requires 0 <= i < |keys| => Put(keys[i]))
  }

  /** One migration: skipped when its id is applied; otherwise run, and its
      id recorded only when it finished. */
  function MigrationStep(st: MigrationState, m: Migration): MigrationState {
    if Str(m.id) in st.applied then st
    else
      var out := m.run(st.cache);
      MigrationState(out.cache, st.log + Puts(out.writes),
                     if out.completed then st.applied + [Str(m.id)] else st.applied,
                     st.attempts + [(m.id, out.completed)])
  }

  /** The runner's loop over the migrations, in order. */
  function Migrate(st: MigrationState, ms: seq<Migration>): MigrationState
    decreases |ms|
  {
    if |ms| == 0 then st else Migrate(MigrationStep(st, ms[0]), ms[1..])
  }

  /** The ids of the attempts that finished, in order. */
  function Succeeded(attempts: seq<(string, bool)>): seq<Value>
    decreases |attempts|
  {
    if |attempts| == 0 then []
    else
      var last := attempts[|attempts| - 1];
      Succeeded(attempts[..|attempts| - 1]) + (if last.1 then [Str(last.0)] else [])
  }

  /** The applied list only grows: it gains exactly the ids of the
      migrations that finished, in the order they ran. */
  lemma {:induction false} MigrateRecordsOnlySuccesses(st: MigrationState, ms: seq<Migration>)
    ensures var fin := Migrate(st, ms);
      && |st.attempts| <= |fin.attempts| && fin.attempts[..|st.attempts|] == st.attempts
      && fin.applied == st.applied + Succeeded(fin.attempts[|st.attempts|..])
    decreases |ms|
  {
    MigrateExtendsAttempts(st, ms);
    if |ms| == 0 {
      assert st.attempts[|st.attempts|..] == [];
    } else {
      var st' := MigrationStep(st, ms[0]);
      MigrateRecordsOnlySuccesses(st', ms[1..]);
      var fin := Migrate(st', ms[1..]);
      assert fin == Migrate(st, ms);
      if Str(ms[0].id) !in st.applied {
        var a := st'.attempts[|st.attempts|];
        assert [a][..0] == [];
        assert st'.applied == st.applied + Succeeded([a]);
        AppliedAfterRun(st, st', fin);
      }
    }
  }

  /** The bookkeeping of one run migration followed by the rest. */
  lemma AppliedAfterRun(st: MigrationState, st': MigrationState, fin: MigrationState)
    requires |st'.attempts| == |st.attempts| + 1 && st'.attempts[..|st.attempts|] == st.attempts
    requires st'.applied == st.applied + Succeeded([st'.attempts[|st.attempts|]])
    requires |st'.attempts| <= |fin.attempts| && fin.attempts[..|st'.attempts|] == st'.attempts
    requires fin.applied == st'.applied + Succeeded(fin.attempts[|st'.attempts|..])
    ensures fin.applied == st.applied + Succeeded(fin.attempts[|st.attempts|..])
  {
    var a := st'.attempts[|st.attempts|];
    var t := fin.attempts[|st'.attempts|..];
    assert fin.attempts[|st.attempts|..] == [a] + t by {
      assert st'.attempts == st.attempts + [a];
      assert fin.attempts == st'.attempts + t;
    }
    SucceededAppend([a], t);
  }

  lemma {:induction false} MigrateExtendsAttempts(st: MigrationState, ms: seq<Migration>)
    ensures var fin := Migrate(st, ms);
      |st.attempts| <= |fin.attempts| && fin.attempts[..|st.attempts|] == st.attempts
    decreases |ms|
  {
    if |ms| > 0 {
      var st' := MigrationStep(st, ms[0]);
      MigrateExtendsAttempts(st', ms[1..]);
      var fin := Migrate(st', ms[1..]);
      assert st'.attempts[..|st.attempts|] == st.attempts;
      assert fin.attempts[..|st.attempts|] == fin.attempts[..|st'.attempts|][..|st.attempts|];
    }
  }

  lemma {:induction false} SucceededAppend(a: seq<(string, bool)>, b: seq<(string, bool)>)
    ensures Succeeded(a + b) == Succeeded(a) + Succeeded(b)
    decreases |b|
  {
    if |b| == 0 {
      assert a + b == a;
    } else {
      SucceededAppend(a, b[..|b| - 1]);
      assert (a + b)[..|a + b| - 1] == a + b[..|b| - 1];
    }
  }

  /** Only migrations whose id was not applied are run, and one that
      finished is never run again in the same pass. */
  lemma {:induction false} MigrateRunsOnlyPending(st: MigrationState, ms: seq<Migration>)
    requires forall j :: 0 <= j < |st.attempts| && st.attempts[j].1 ==> Str(st.attempts[j].0) in st.applied
    ensures var fin := Migrate(st, ms);
      && |st.attempts| <= |fin.attempts|
      && (forall j :: |st.attempts| <= j < |fin.attempts| ==> Str(fin.attempts[j].0) !in st.applied)
      && (forall j, j' :: |st.attempts| <= j < j' < |fin.attempts| && fin.attempts[j].1 ==>
            fin.attempts[j].0 != fin.attempts[j'].0)
      && (forall j :: 0 <= j < |fin.attempts| && fin.attempts[j].1 ==> Str(fin.attempts[j].0) in fin.applied)
    decreases |ms|
  {
    if |ms| > 0 {
      var st' := MigrationStep(st, ms[0]);
      MigrateRunsOnlyPending(st', ms[1..]);
      MigrateRecordsOnlySuccesses(st', ms[1..]);
      var fin := Migrate(st, ms);
      if Str(ms[0].id) !in st.applied {
        var n := |st.attempts|;
        assert fin.attempts[n] == st'.attempts[n];
        forall j, j' | n <= j < j' < |fin.attempts| && fin.attempts[j].1
          ensures fin.attempts[j].0 != fin.attempts[j'].0
        {
          if j == n {
            assert Str(fin.attempts[j].0) in st'.applied;
          }
        }
      }
    }
  }

  /** The applied list stays free of duplicates. */
  lemma {:induction false} MigrateKeepsAppliedDistinct(st: MigrationState, ms: seq<Migration>)
    requires Distinct(st.applied)
    ensures Distinct(Migrate(st, ms).applied)
    decreases |ms|
  {
    if |ms| > 0 {
      MigrateKeepsAppliedDistinct(MigrationStep(st, ms[0]), ms[1..]);
    }
  }

  lemma NoDotInAppliedMigrationsKey()
    ensures '.' !in AppliedMigrationsKey && AppliedMigrationsKey != ""
  {
  }

  // ---------------------------------------------------------------------
  // The keyboard-shortcut rename migration
  // ---------------------------------------------------------------------

  const ShortcutRenameId := "2025-08-15-keyboard-shortcut-rename"
  const SettingsKey := "settings"
  const LegacyShortcutKey := "keyboardShortcut"
  const ShortcutsKey := "keyboardShortcuts"

  /** `ItoMode.TRANSCRIBE`, mode 0 of the protocol. */
  const TranscribeMode: real := 0.0

  predicate NonEmptyArray(v: Value) {
    v.Arr? && |v.items| > 0
  }

  /** `delete obj[k]`. */
  function RemoveKey(fields: seq<(string, Value)>, k: string): (r: seq<(string, Value)>)
    ensures !HasKey(r, k)
    ensures forall j :: j != k ==> Lookup(r, j) == Lookup(fields, j)
    decreases |fields|
  {
    if |fields| == 0 then []
    else if fields[0].0 == k then RemoveKey(fields[1..], k)
    else
      var rest := RemoveKey(fields[1..], k);
      var r := [fields[0]] + rest;
      assert r[1..] == rest;
      assert forall i :: 1 <= i < |r| ==> r[i] == rest[i - 1];
      r
  }

  /** The shortcut the migration builds from the legacy key list. */
  function ShortcutEntry(uuid: string, keys: Value): Value {
    Obj([("id", Str(uuid)), ("keys", keys), ("mode", Num(TranscribeMode))])
  }

  /** The settings need converting: no non-empty shortcut list, and a
      non-empty legacy key list. */
  predicate Converts(fields: seq<(string, Value)>) {
    !NonEmptyArray(Lookup(fields, ShortcutsKey)) && NonEmptyArray(Lookup(fields, LegacyShortcutKey))
  }

  /** The settings the migration reads: `s.get('settings') || {}`. */
  function SettingsRead(cache: map<string, Value>): Value {
    if Truthy(At(cache, SettingsKey)) then At(cache, SettingsKey) else Obj([])
  }

  /** The migration as the source writes it: the converted list is written
      through the store, and then the settings object read at the start,
      minus the legacy key, is written over it. `in` on a primitive
      throws. */
  function ShortcutRenameAsWritten(cache: map<string, Value>, uuid: string): (r: MigrationRun)
    ensures !SettingsRead(cache).Obj? ==> r.cache == cache && r.writes == []
  {
    var settings := SettingsRead(cache);
    if settings.Arr? then MigrationRun(cache, [], true)
    else if !settings.Obj? then MigrationRun(cache, [], false)
    else
      var f := settings.fields;
      var newList := Arr([ShortcutEntry(uuid, Lookup(f, LegacyShortcutKey))]);
      var c1 := if Converts(f) then cache[SettingsKey := DeepSet(At(cache, SettingsKey), [ShortcutsKey], newList)] else cache;
      var w1 := if Converts(f) then [SettingsKey] else [];
      if HasKey(f, LegacyShortcutKey) then
        MigrationRun(c1[SettingsKey := Obj(RemoveKey(f, LegacyShortcutKey))], w1 + [SettingsKey], true)
      else MigrationRun(c1, w1, true)
  }

  /** As written, a conversion never survives: the settings end up with the
      shortcut list they had before, and the legacy keys are gone. */
  lemma ShortcutRenameAsWrittenLosesConversion(cache: map<string, Value>, uuid: string)
    requires SettingsRead(cache).Obj? && Converts(SettingsRead(cache).fields)
    ensures var r := ShortcutRenameAsWritten(cache, uuid);
      var after := At(r.cache, SettingsKey);
      && after.Obj?
      && Lookup(after.fields, ShortcutsKey) == Lookup(SettingsRead(cache).fields, ShortcutsKey)
      && !NonEmptyArray(Lookup(after.fields, ShortcutsKey))
      && !HasKey(after.fields, LegacyShortcutKey)
  {
    assert LegacyShortcutKey != ShortcutsKey by {
      assert |LegacyShortcutKey| != |ShortcutsKey|;
    }
  }

  /** A stored legacy shortcut beside an empty list: the rename as written
      leaves the user with no shortcut at all. */
  lemma ShortcutRenameAsWrittenExample(uuid: string)
    ensures var settings := Obj([(LegacyShortcutKey, Arr([Str("fn")])), (ShortcutsKey, Arr([]))]);
      var r := ShortcutRenameAsWritten(map[SettingsKey := settings], uuid);
      At(r.cache, SettingsKey) == Obj([(ShortcutsKey, Arr([]))])
  {
    assert LegacyShortcutKey != ShortcutsKey by {
      assert |LegacyShortcutKey| != |ShortcutsKey|;
    }
    var f := [(LegacyShortcutKey, Arr([Str("fn")])), (ShortcutsKey, Arr([]))];
    assert f[1..] == [(ShortcutsKey, Arr([]))];
    assert RemoveKey(f, LegacyShortcutKey) == RemoveKey(f[1..], LegacyShortcutKey);
    assert f[1..][1..] == [];
  }

  /** The rename as intended: the legacy key is removed from the settings
      as they are after the conversion. */
  function ShortcutRename(cache: map<string, Value>, uuid: string): (r: MigrationRun)
    ensures !SettingsRead(cache).Obj? ==> r.cache == cache && r.writes == []
  {
    var settings := SettingsRead(cache);
    if settings.Arr? then MigrationRun(cache, [], true)
    else if !settings.Obj? then MigrationRun(cache, [], false)
    else
      var f := settings.fields;
      var newList := Arr([ShortcutEntry(uuid, Lookup(f, LegacyShortcutKey))]);
      var f1 := if Converts(f) then SetField(f, ShortcutsKey, newList) else f;
      var w1 := if Converts(f) then [SettingsKey] else [];
      if HasKey(f, LegacyShortcutKey) then
        MigrationRun(cache[SettingsKey := Obj(RemoveKey(f1, LegacyShortcutKey))], w1 + [SettingsKey], true)
      else MigrationRun(if Converts(f) then cache[SettingsKey := Obj(f1)] else cache, w1, true)
  }

  /** Converting settings: the list holds the one shortcut built from the
      legacy keys, the legacy key is gone, every other setting and every
      other top-level key is kept. */
  lemma ShortcutRenameConverts(cache: map<string, Value>, uuid: string)
    requires SettingsRead(cache).Obj? && Converts(SettingsRead(cache).fields)
    ensures var f := SettingsRead(cache).fields;
      var r := ShortcutRename(cache, uuid);
      var after := At(r.cache, SettingsKey);
      && r.completed
      && after.Obj?
      && Lookup(after.fields, ShortcutsKey) == Arr([ShortcutEntry(uuid, Lookup(f, LegacyShortcutKey))])
      && !HasKey(after.fields, LegacyShortcutKey)
      && (forall j :: j != ShortcutsKey && j != LegacyShortcutKey ==> Lookup(after.fields, j) == Lookup(f, j))
      && (forall k :: k != SettingsKey ==> At(r.cache, k) == At(cache, k))
  {
    assert LegacyShortcutKey != ShortcutsKey by {
      assert |LegacyShortcutKey| != |ShortcutsKey|;
    }
    var f := SettingsRead(cache).fields;
    var newList := Arr([ShortcutEntry(uuid, Lookup(f, LegacyShortcutKey))]);
    LookupSetSame(f, ShortcutsKey, newList);
    forall j | j != ShortcutsKey {
      LookupSetOther(f, ShortcutsKey, newList, j);
    }
  }

  /** Settings that need no conversion keep everything but the legacy
      key. */
  lemma ShortcutRenameOnlyDropsLegacy(cache: map<string, Value>, uuid: string)
    requires SettingsRead(cache).Obj? && !Converts(SettingsRead(cache).fields)
    ensures var f := SettingsRead(cache).fields;
      var r := ShortcutRename(cache, uuid);
      && r.completed
      && (HasKey(f, LegacyShortcutKey) ==> At(r.cache, SettingsKey) == Obj(RemoveKey(f, LegacyShortcutKey)))
      && (!HasKey(f, LegacyShortcutKey) ==> r.cache == cache && r.writes == [])
  {
  }

  /** Running the rename on its own result changes nothing and writes
      nothing. */
  lemma ShortcutRenameIdempotent(cache: map<string, Value>, uuid: string, uuid2: string)
    ensures var r := ShortcutRename(cache, uuid);
      var r2 := ShortcutRename(r.cache, uuid2);
      r2.cache == r.cache && r2.writes == []
  {
    var settings := SettingsRead(cache);
    if settings.Obj? {
      var r := ShortcutRename(cache, uuid);
      var after := At(r.cache, SettingsKey);
      if HasKey(settings.fields, LegacyShortcutKey) {
        assert !HasKey(after.fields, LegacyShortcutKey);
      } else if Converts(settings.fields) {
        assert false;
      }
    }
  }

  /** The migrations the store runs, with the shortcut rename as intended;
      `uuid` stands for `crypto.randomUUID()`. */
  function Migrations(uuid: string): (ms: seq<Migration>)
    ensures |ms| == 1 && ms[0].id == ShortcutRenameId
  {
    [Migration(ShortcutRenameId, (c: map<string, Value>) => ShortcutRename(c, uuid))]
  }
}
