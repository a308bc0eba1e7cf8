/**
 * The start-up configuration rewrite: each update names a dotted key path and
 * an optional value; the YAML document is walked down the path, missing
 * intermediate maps are created, the leaf is written when it differs, and the
 * file is saved only when something changed.
 */
module UpdateConfig {
  import opened Text

  /** A YAML document as `yaml.safe_load` returns it, restricted to string keys. */
  datatype Yaml =
    | Null
    | Bool(b: bool)
    | Int(i: int)
    | Str(s: string)
    | List(items: seq<Yaml>)
    | Node(entries: map<string, Yaml>)

  /** Python's truth value of a loaded document: `None`, `False`, `0`, `""`, `[]` and `{}` are false. */
  predicate Falsy(doc: Yaml) {
    doc == Null || doc == Bool(false) || doc == Int(0) || doc == Str("") || doc == List([]) || doc == Node(map[])
  }

  /** `yaml.safe_load(f) or {}` */
  function Loaded(doc: Yaml): (config: Yaml)
    ensures Falsy(doc) ==> config == Node(map[])
    ensures !Falsy(doc) ==> config == doc
  {
    if Falsy(doc) then Node(map[]) else doc
  }

  /** The value at a key path, when every step finds its key in a map. */
  function Lookup(y: Yaml, keys: seq<string>): Option<Yaml>
    decreases |keys|
  {
    if keys == [] then Some(y)
    else if y.Node? && keys[0] in y.entries then Lookup(y.entries[keys[0]], keys[1..])
    else None
  }

  /** The result of walking one path: an exception, or the new document and whether the leaf was written. */
  datatype Walk = Failed | Walked(config: Yaml, changed: bool)

  /**
   * One update of `update_yaml`: every key but the last selects a child,
   * created as `{}` when missing; the last key is written when its value
   * differs from the new string. A value that is not a map anywhere on the
   * way raises (a `TypeError` from `in` or from indexing, an `AttributeError`
   * from `.get`).
   */
  function SetPath(y: Yaml, keys: seq<string>, value: string): Walk
    requires |keys| >= 1
    decreases |keys|
  {
    if !y.Node? then Failed
    else if |keys| == 1 then
      if keys[0] in y.entries && y.entries[keys[0]] == Str(value) then Walked(y, false)
      else Walked(Node(y.entries[keys[0] := Str(value)]), true)
    else
      var child := if keys[0] in y.entries then y.entries[keys[0]] else Node(map[]);
      match SetPath(child, keys[1..], value)
      case Failed => Failed
      case Walked(c, changed) => Walked(Node(y.entries[keys[0] := c]), changed)
  }

  /** Afterwards the path leads to the new value. */
  lemma {:induction false} SetPathGet(y: Yaml, keys: seq<string>, value: string)
    requires |keys| >= 1 && SetPath(y, keys, value).Walked?
    ensures Lookup(SetPath(y, keys, value).config, keys) == Some(Str(value))
    decreases |keys|
  {
    if |keys| > 1 {
      var child := if keys[0] in y.entries then y.entries[keys[0]] else Node(map[]);
      SetPathGet(child, keys[1..], value);
    }
  }

  /** The leaf is written, and `changed` set, exactly when the document is different afterwards. */
  lemma {:induction false} SetPathChanged(y: Yaml, keys: seq<string>, value: string)
    requires |keys| >= 1 && SetPath(y, keys, value).Walked?
    ensures SetPath(y, keys, value).changed <==> SetPath(y, keys, value).config != y
    decreases |keys|
  {
    var k := keys[0];
    if |keys| == 1 {
      if !(k in y.entries && y.entries[k] == Str(value)) {
        assert SetPath(y, keys, value).config.entries[k] == Str(value);
      }
    } else {
      var child := if k in y.entries then y.entries[k] else Node(map[]);
      SetPathChanged(child, keys[1..], value);
      var w := SetPath(child, keys[1..], value);
      if w.changed {
        assert SetPath(y, keys, value).config.entries[k] == w.config;
      } else {
        NeverCreatesUnchanged(child, keys[1..], value, k in y.entries);
        assert y.entries[k := w.config] == y.entries;
      }
    }
  }

  /** A created map is empty, so a walk through it always writes its leaf. */
  lemma {:induction false} NeverCreatesUnchanged(child: Yaml, keys: seq<string>, value: string, existed: bool)
    requires |keys| >= 1 && SetPath(child, keys, value).Walked?
    requires !existed ==> child == Node(map[])
    ensures !SetPath(child, keys, value).changed ==> existed
    decreases |keys|
  {
    if !existed && |keys| > 1 {
      NeverCreatesUnchanged(Node(map[]), keys[1..], value, false);
    }
  }

  /** A walk below a freshly created map never raises. */
  lemma {:induction false} EmptyNeverFails(keys: seq<string>, value: string)
    requires |keys| >= 1
    ensures SetPath(Node(map[]), keys, value).Walked?
    decreases |keys|
  {
    if |keys| > 1 {
      EmptyNeverFails(keys[1..], value);
    }
  }

  /** The walk raises exactly when some proper prefix of the path leads to a value that is not a map. */
  lemma {:induction false} SetPathFails(y: Yaml, keys: seq<string>, value: string)
    requires |keys| >= 1
    ensures SetPath(y, keys, value).Failed? <==>
      exists n :: 0 <= n < |keys| && Lookup(y, keys[..n]).Some? && !Lookup(y, keys[..n]).value.Node?
    decreases |keys|
  {
    if !y.Node? {
      assert Lookup(y, keys[..0]) == Some(y);
    } else if |keys| == 1 {
      forall n | 0 <= n < |keys| && Lookup(y, keys[..n]).Some?
        ensures Lookup(y, keys[..n]).value.Node?
      {
        assert keys[..n] == [];
      }
    } else {
      var k := keys[0];
      if k in y.entries {
        var child := y.entries[k];
        SetPathFails(child, keys[1..], value);
        if SetPath(y, keys, value).Failed? {
          var m :| 0 <= m < |keys[1..]| && Lookup(child, keys[1..][..m]).Some? && !Lookup(child, keys[1..][..m]).value.Node?;
          assert keys[..m + 1][1..] == keys[1..][..m];
          assert Lookup(y, keys[..m + 1]) == Lookup(child, keys[1..][..m]);
        } else {
          forall n | 0 <= n < |keys| && Lookup(y, keys[..n]).Some?
            ensures Lookup(y, keys[..n]).value.Node?
          {
            if n > 0 {
              assert keys[..n][1..] == keys[1..][..n - 1];
              assert Lookup(y, keys[..n]) == Lookup(child, keys[1..][..n - 1]);
            }
          }
        }
      } else {
        EmptyNeverFails(keys[1..], value);
        forall n | 0 < n < |keys|
          ensures Lookup(y, keys[..n]) == None
        {
          assert keys[..n][0] == k;
        }
      }
    }
  }

  /** Two paths part ways: at some position both have a key and the keys differ. */
  predicate Diverge(p: seq<string>, q: seq<string>)
    decreases |p|
  {
    p != [] && q != [] && (p[0] != q[0] || Diverge(p[1..], q[1..]))
  }

  /** Paths that part ways from the updated one lead where they led before. */
  lemma {:induction false} SetPathPreserves(y: Yaml, keys: seq<string>, value: string, q: seq<string>)
    requires |keys| >= 1 && SetPath(y, keys, value).Walked?
    requires Diverge(keys, q)
    ensures Lookup(SetPath(y, keys, value).config, q) == Lookup(y, q)
    decreases |keys|
  {
    var k := keys[0];
    var c := SetPath(y, keys, value).config;
    if q[0] != k {
      assert (q[0] in c.entries <==> q[0] in y.entries) && (q[0] in y.entries ==> c.entries[q[0]] == y.entries[q[0]]);
    } else {
      var child := if k in y.entries then y.entries[k] else Node(map[]);
      SetPathPreserves(child, keys[1..], value, q[1..]);
      if k !in y.entries {
        assert Lookup(Node(map[]), q[1..]) == None by {
          assert q[1..] != [];
        }
      }
    }
  }

  /** An update that is already in place: walking it again neither raises nor writes. */
  predicate InPlace(y: Yaml, keys: seq<string>, value: string)
    requires |keys| >= 1
  {
    SetPath(y, keys, value) == Walked(y, false)
  }

  /** Right after an update, applying it again writes nothing. */
  lemma {:induction false} SetPathIdempotent(y: Yaml, keys: seq<string>, value: string)
    requires |keys| >= 1 && SetPath(y, keys, value).Walked?
    ensures InPlace(SetPath(y, keys, value).config, keys, value)
    decreases |keys|
  {
    var k := keys[0];
    var c := SetPath(y, keys, value).config;
    if |keys| > 1 {
      var child := if k in y.entries then y.entries[k] else Node(map[]);
      SetPathIdempotent(child, keys[1..], value);
      assert c.entries[k] == SetPath(child, keys[1..], value).config;
      assert c.entries[k := c.entries[k]] == c.entries;
    }
  }

  /** An update in place stays in place when another path that parts ways from it is written. */
  lemma {:induction false} InPlacePreserved(y: Yaml, keys: seq<string>, value: string, q: seq<string>, w: string)
    requires |keys| >= 1 && |q| >= 1 && SetPath(y, keys, value).Walked?
    requires Diverge(keys, q) && InPlace(y, q, w)
    ensures InPlace(SetPath(y, keys, value).config, q, w)
    decreases |keys|
  {
    var k := keys[0];
    var c := SetPath(y, keys, value).config;
    if q[0] != k {
      assert c.entries[q[0]] == y.entries[q[0]] && (q[0] in c.entries <==> q[0] in y.entries);
      if |q| > 1 {
        NeverCreatesUnchanged(if q[0] in y.entries then y.entries[q[0]] else Node(map[]), q[1..], w, q[0] in y.entries);
        assert c.entries[q[0] := c.entries[q[0]]] == c.entries;
      }
    } else {
      NeverCreatesUnchanged(if k in y.entries then y.entries[k] else Node(map[]), q[1..], w, k in y.entries);
      var child := y.entries[k];
      assert Node(y.entries[k := SetPath(child, q[1..], w).config]) == y;
      assert SetPath(child, q[1..], w) == Walked(child, false) by {
        assert y.entries[k := SetPath(child, q[1..], w).config][k] == y.entries[k];
      }
      InPlacePreserved(child, keys[1..], value, q[1..], w);
      assert c.entries[k := c.entries[k]] == c.entries;
    }
  }

  // ---------------------------------------------------------------------------
  // A whole file

  /** One entry of the `updates` dictionary: a dotted key path and an environment value that may be unset. */
  datatype Update = Update(keyPath: string, value: Option<string>)

  /** `key_path.split('.')` */
  function PathOf(u: Update): (keys: seq<string>)
    ensures |keys| >= 1
  {
    Split(u.keyPath, '.')
  }

  /** The updates in dictionary order; an unset value is skipped, and the first exception stops the run. */
  function ApplyUpdates(config: Yaml, updates: seq<Update>): Walk
    decreases |updates|
  {
    if updates == [] then Walked(config, false)
    else
      var u := updates[|updates| - 1];
      match ApplyUpdates(config, updates[..|updates| - 1])
      case Failed => Failed
      case Walked(c, changed) =>
        if u.value.None? then Walked(c, changed)
        else
          match SetPath(c, PathOf(u), u.value.value)
          case Failed => Failed
          case Walked(c2, changed2) => Walked(c2, changed || changed2)
  }

  /** What happened to the file. */
  datatype Outcome = NotFound | Error | Unchanged | Saved(config: Yaml)

  /** `update_yaml` with the file read and written as values; `None` is a missing file. */
  method UpdateYaml(file: Option<Yaml>, updates: seq<Update>) returns (outcome: Outcome)
    ensures file.None? ==> outcome == NotFound
    ensures file.Some? ==> outcome == match ApplyUpdates(Loaded(file.value), updates)
      case Failed => Error
      case Walked(c, changed) => if changed then Saved(c) else Unchanged
  {
    if file.None? {
      return NotFound;
    }
    var config := Loaded(file.value);
    var changed := false;
    for i := 0 to |updates|
      invariant ApplyUpdates(Loaded(file.value), updates[..i]) == Walked(config, changed)
    {
      assert updates[..i + 1][..i] == updates[..i];
      var u := updates[i];
      if u.value.Some? {
        var keys := Split(u.keyPath, '.');
        var w := SetPath(config, keys, u.value.value);
        if w.Failed? {
          ApplyFailedStays(Loaded(file.value), updates, i + 1);
          return Error;
        }
        config := w.config;
        changed := changed || w.changed;
      }
    }
    assert updates[..|updates|] == updates;
    if changed {
      outcome := Saved(config);
    } else {
      outcome := Unchanged;
    }
  }

  /** Once an update raises, the rest of the run is abandoned. */
  lemma {:induction false} ApplyFailedStays(config: Yaml, updates: seq<Update>, n: nat)
    requires n <= |updates| && ApplyUpdates(config, updates[..n]).Failed?
    ensures ApplyUpdates(config, updates).Failed?
    decreases |updates| - n
  {
    if n < |updates| {
      assert updates[..n + 1][..n] == updates[..n];
      ApplyFailedStays(config, updates, n + 1);
    } else {
      assert updates[..n] == updates;
    }
  }

  /** The file is rewritten only when the document differs from what was read. */
  lemma {:induction false} ApplyUnchangedIsIdentity(config: Yaml, updates: seq<Update>)
    requires ApplyUpdates(config, updates).Walked?
    ensures !ApplyUpdates(config, updates).changed ==> ApplyUpdates(config, updates).config == config
    decreases |updates|
  {
    if updates != [] {
      var front := updates[..|updates| - 1];
      ApplyUnchangedIsIdentity(config, front);
      var u := updates[|updates| - 1];
      if u.value.Some? {
        SetPathChanged(ApplyUpdates(config, front).config, PathOf(u), u.value.value);
      }
    }
  }

  /** Set paths that never contain one another, as distinct dotted names like `DB.user` and `DB.name` do. */
  predicate Independent(updates: seq<Update>) {
    forall i, j ::
      (0 <= i < |updates| && 0 <= j < |updates| && i != j && updates[i].value.Some? && updates[j].value.Some?)
      ==> Diverge(PathOf(updates[i]), PathOf(updates[j]))
  }

  /** After a run, every set update is in place: its path leads to its value and walking it writes nothing. */
  lemma {:induction false} ApplyLeavesInPlace(config: Yaml, updates: seq<Update>, i: nat)
    requires Independent(updates) && ApplyUpdates(config, updates).Walked?
    requires i < |updates| && updates[i].value.Some?
    ensures InPlace(ApplyUpdates(config, updates).config, PathOf(updates[i]), updates[i].value.value)
    ensures Lookup(ApplyUpdates(config, updates).config, PathOf(updates[i])) == Some(Str(updates[i].value.value))
    decreases |updates|
  {
    var n := |updates|;
    var front := updates[..n - 1];
    var u := updates[n - 1];
    var c := ApplyUpdates(config, front).config;
    assert Independent(front) by {
      forall a, b | 0 <= a < |front| && 0 <= b < |front| && a != b && front[a].value.Some? && front[b].value.Some?
        ensures Diverge(PathOf(front[a]), PathOf(front[b]))
      {
        assert front[a] == updates[a] && front[b] == updates[b];
      }
    }
    if i == n - 1 {
      SetPathIdempotent(c, PathOf(u), u.value.value);
    } else {
      assert front[i] == updates[i];
      ApplyLeavesInPlace(config, front, i);
      if u.value.Some? {
        assert Diverge(PathOf(u), PathOf(updates[i]));
        InPlacePreserved(c, PathOf(u), u.value.value, PathOf(updates[i]), updates[i].value.value);
      }
    }
    var r := ApplyUpdates(config, updates).config;
    SetPathGet(r, PathOf(updates[i]), updates[i].value.value);
  }

  /** Running the same updates on the saved document writes nothing. */
  lemma ReapplyWritesNothing(config: Yaml, updates: seq<Update>)
    requires Independent(updates) && ApplyUpdates(config, updates).Walked?
    ensures ApplyUpdates(ApplyUpdates(config, updates).config, updates) == Walked(ApplyUpdates(config, updates).config, false)
  {
    var c := ApplyUpdates(config, updates).config;
    forall i | 0 <= i < |updates| && updates[i].value.Some?
      ensures InPlace(c, PathOf(updates[i]), updates[i].value.value)
    {
      ApplyLeavesInPlace(config, updates, i);
    }
    AllInPlace(c, updates, |updates|);
    assert updates[..|updates|] == updates;
  }

  lemma {:induction false} AllInPlace(c: Yaml, updates: seq<Update>, n: nat)
    requires n <= |updates|
    requires forall i :: 0 <= i < |updates| && updates[i].value.Some? ==> InPlace(c, PathOf(updates[i]), updates[i].value.value)
    ensures ApplyUpdates(c, updates[..n]) == Walked(c, false)
  {
    if n > 0 {
      AllInPlace(c, updates, n - 1);
      assert updates[..n][..n - 1] == updates[..n - 1];
      assert updates[..n][n - 1] == updates[n - 1];
    }
  }

  /** Paths that part ways from every set path lead where they led before the run. */
  lemma {:induction false} ApplyPreservesOthers(config: Yaml, updates: seq<Update>, q: seq<string>)
    requires ApplyUpdates(config, updates).Walked?
    requires forall i :: 0 <= i < |updates| && updates[i].value.Some? ==> Diverge(PathOf(updates[i]), q)
    ensures Lookup(ApplyUpdates(config, updates).config, q) == Lookup(config, q)
    decreases |updates|
  {
    if updates != [] {
      var n := |updates|;
      var front := updates[..n - 1];
      forall i | 0 <= i < |front| && front[i].value.Some?
        ensures Diverge(PathOf(front[i]), q)
      {
        assert front[i] == updates[i];
      }
      ApplyPreservesOthers(config, front, q);
      var u := updates[n - 1];
      if u.value.Some? {
        SetPathPreserves(ApplyUpdates(config, front).config, PathOf(u), u.value.value, q);
      }
    }
  }

  /** Unset values are skipped: dropping them changes nothing. */
  lemma {:induction false} UnsetSkipped(config: Yaml, updates: seq<Update>, path: string)
    ensures ApplyUpdates(config, updates + [Update(path, None)]) == ApplyUpdates(config, updates)
  {
    assert (updates + [Update(path, None)])[..|updates|] == updates;
  }
}
