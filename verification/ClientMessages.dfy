/**
 Picking the messages a page needs out of the catalog. The picked tree shares sub-trees with the catalog
 and later entries write through what is shared.
 */
module ClientMessages {
  import opened Wrappers

  type Path = seq<string>

  // ---------------------------------------------------------------------------------------------
  // Trees as values. A leaf is whatever is no tree.

  datatype Tree = Leaf(text: string) | Branch(fields: map<string, Tree>)

  function At(t: Tree, path: Path): Option<Tree>
    decreases |path|
  {
    if path == [] then Some(t)
    else if t.Branch? && path[0] in t.fields then At(t.fields[path[0]], path[1..])
    else None
  }

  function Tails(paths: set<Path>, key: string): set<Path> {
    set p | p in paths && p != [] && p[0] == key :: p[1..]
  }

  /** The projection of a tree onto the union of the paths: what lies under one of them, and the way there. */
  function Select(t: Tree, paths: set<Path>): Option<Tree>
    decreases t, 1
  {
    if [] in paths then Some(t)
    else if t.Leaf? then None
    else
      var fields := Chosen(t, paths);
      if fields == map[] then None else Some(Branch(fields))
  }

  /** The fields that have a part in the projection. */
  function Chosen(t: Tree, paths: set<Path>): map<string, Tree>
    requires t.Branch?
    decreases t, 0
  {
    map k | k in t.fields && Select(t.fields[k], Tails(paths, k)).Some? :: Select(t.fields[k], Tails(paths, k)).value
  }

  function OrEmpty(t: Option<Tree>): Tree {
    if t.Some? then t.value else Branch(map[])
  }

  /** `mergeTrees`. */
  function Merge(a: Tree, b: Tree): Tree
    requires a.Branch? && b.Branch?
    decreases b
  {
    Branch(map k | k in a.fields.Keys + b.fields.Keys ::
      if k !in b.fields then a.fields[k]
      else if k in a.fields && a.fields[k].Branch? && b.fields[k].Branch? then Merge(a.fields[k], b.fields[k])
      else b.fields[k])
  }

  /** No leaf of the tree stands on the way. */
  predicate NoLeafOn(t: Tree, path: Path)
    decreases |path|
  {
    t.Branch? && (path != [] && path[0] in t.fields ==> NoLeafOn(t.fields[path[0]], path[1..]))
  }

  /** The merge has the second tree's leaves, and those of the first that the second has nothing at or on the way to. */
  lemma {:induction false} MergedLeaves(a: Tree, b: Tree, path: Path, text: string)
    requires a.Branch? && b.Branch?
    ensures At(Merge(a, b), path) == Some(Leaf(text)) <==>
            || At(b, path) == Some(Leaf(text))
            || (At(a, path) == Some(Leaf(text)) && At(b, path).None? && NoLeafOn(b, path))
    decreases |path|
  {
    if path != [] && path[0] in a.fields && path[0] in b.fields && a.fields[path[0]].Branch? && b.fields[path[0]].Branch? {
      MergedLeaves(a.fields[path[0]], b.fields[path[0]], path[1..], text);
    }
  }

  /** What one entry of the list does: trees on the way are made where there are none. */
  function Put(t: Option<Tree>, path: Path, v: Tree): Tree
    decreases |path|
  {
    if path == [] then
      if v.Branch? && t.Some? && t.value.Branch? then Merge(t.value, v) else v
    else
      var fields := if t.Some? && t.value.Branch? then t.value.fields else map[];
      Branch(fields[path[0] := Put(if path[0] in fields then Some(fields[path[0]]) else None, path[1..], v)])
  }

  function Pick(catalog: Tree, paths: seq<Path>): Tree
    decreases |paths|
  {
    if paths == [] then Branch(map[])
    else
      var before, path := Pick(catalog, paths[..|paths| - 1]), paths[|paths| - 1];
      match At(catalog, path)
      case None => before
      case Some(v) => Put(Some(before), path, v)
  }

  function SetOf(paths: seq<Path>): set<Path> {
    set p | p in paths
  }

  lemma {:induction false} MergeSame(t: Tree)
    requires t.Branch?
    ensures Merge(t, t) == t
    decreases t
  {
    forall k | k in t.fields && t.fields[k].Branch? ensures Merge(t.fields[k], t.fields[k]) == t.fields[k] {
      MergeSame(t.fields[k]);
    }
    assert Merge(t, t).fields == t.fields;
  }

  /** Putting what is there already changes nothing. */
  lemma {:induction false} PutSame(t: Tree, path: Path, v: Tree)
    requires At(t, path) == Some(v)
    ensures Put(Some(t), path, v) == t
    decreases |path|
  {
    if path == [] {
      if v.Branch? { MergeSame(v); }
    } else {
      PutSame(t.fields[path[0]], path[1..], v);
      assert t.fields[path[0] := t.fields[path[0]]] == t.fields;
    }
  }

  /** A projection merged with the whole is the whole. */
  lemma {:induction false} MergeSelect(t: Tree, paths: set<Path>)
    requires t.Branch? && Select(t, paths).Some? && Select(t, paths).value.Branch?
    ensures Merge(Select(t, paths).value, t) == t
    decreases t
  {
    if [] in paths {
      MergeSame(t);
    } else {
      var s := Select(t, paths).value;
      forall k | k in s.fields && s.fields[k].Branch? && t.fields[k].Branch? ensures Merge(s.fields[k], t.fields[k]) == t.fields[k] {
        MergeSelect(t.fields[k], Tails(paths, k));
      }
      assert s.fields.Keys + t.fields.Keys == t.fields.Keys;
      assert Merge(s, t).fields == t.fields;
    }
  }

  lemma ChosenWithMore(t: Tree, paths: set<Path>, path: Path, x: Tree)
    requires t.Branch? && path != [] && path[0] in t.fields
    requires Select(t.fields[path[0]], Tails(paths, path[0]) + {path[1..]}) == Some(x)
    ensures Chosen(t, paths + {path}) == Chosen(t, paths)[path[0] := x]
  {
    forall k ensures Tails(paths + {path}, k) == if path[0] == k then Tails(paths, k) + {path[1..]} else Tails(paths, k) {
    }
  }

  /** One more path that leads somewhere. */
  lemma {:induction false} PutSelect(t: Tree, paths: set<Path>, path: Path, v: Tree)
    requires At(t, path) == Some(v)
    ensures Select(t, paths + {path}) == Some(Put(Select(t, paths), path, v))
    decreases |path|
  {
    if path == [] {
      if t.Branch? && Select(t, paths).Some? && Select(t, paths).value.Branch? { MergeSelect(t, paths); }
    } else if [] in paths {
      PutSame(t, path, v);
    } else {
      var key := path[0];
      PutSelect(t.fields[key], Tails(paths, key), path[1..], v);
      var x := Put(Select(t.fields[key], Tails(paths, key)), path[1..], v);
      ChosenWithMore(t, paths, path, x);
      assert key in Chosen(t, paths + {path});
      assert Put(Select(t, paths), path, v) == Branch(Chosen(t, paths)[key := x]);
    }
  }

  /** One more path that leads nowhere. */
  lemma {:induction false} AbsentSelect(t: Tree, paths: set<Path>, path: Path)
    requires At(t, path).None?
    ensures Select(t, paths + {path}) == Select(t, paths)
    decreases |path|
  {
    if [] !in paths && t.Branch? {
      var key := path[0];
      forall k ensures Tails(paths + {path}, k) == if key == k then Tails(paths, k) + {path[1..]} else Tails(paths, k) {
      }
      if key in t.fields { AbsentSelect(t.fields[key], Tails(paths, key), path[1..]); }
      assert Chosen(t, paths + {path}) == Chosen(t, paths);
    }
  }

  lemma {:induction false} SelectNothing(t: Tree)
    ensures Select(t, {}) == None
    decreases t
  {
    if t.Branch? {
      forall k | k in t.fields ensures Select(t.fields[k], Tails({}, k)) == None {
        assert Tails({}, k) == {};
        SelectNothing(t.fields[k]);
      }
    }
  }

  /** `pickMessages` is the projection onto the union of the listed paths. */
  lemma {:induction false} PickIsSelect(catalog: Tree, paths: seq<Path>)
    requires catalog.Branch? && forall p :: p in paths ==> p != []
    ensures Pick(catalog, paths) == OrEmpty(Select(catalog, SetOf(paths)))
    decreases |paths|
  {
    if paths == [] {
      assert SetOf(paths) == {};
      SelectNothing(catalog);
    } else {
      var front, path := paths[..|paths| - 1], paths[|paths| - 1];
      forall p | p in front ensures p != [] { assert p in paths; }
      PickIsSelect(catalog, front);
      assert SetOf(paths) == SetOf(front) + {path};
      match At(catalog, path)
      case None => AbsentSelect(catalog, SetOf(front), path);
      case Some(v) =>
        PutSelect(catalog, SetOf(front), path, v);
        assert Put(Some(Branch(map[])), path, v) == Put(None, path, v);
    }
  }

  /** Neither the order of the entries nor repeating one matters. */
  lemma OrderDoesNotMatter(catalog: Tree, paths: seq<Path>, others: seq<Path>)
    requires catalog.Branch? && (forall p :: p in paths ==> p != []) && forall p :: p in paths <==> p in others
    ensures Pick(catalog, paths) == Pick(catalog, others)
  {
    PickIsSelect(catalog, paths);
    PickIsSelect(catalog, others);
    assert SetOf(paths) == SetOf(others);
  }

  /** Everything under a listed path is there, unchanged. */
  lemma {:induction false} SelectHasAll(t: Tree, paths: set<Path>, p: Path, v: Tree)
    requires p in paths && At(t, p) == Some(v)
    ensures Select(t, paths).Some? && At(Select(t, paths).value, p) == Some(v)
    decreases |p|
  {
    if [] !in paths {
      assert p[1..] in Tails(paths, p[0]);
      SelectHasAll(t.fields[p[0]], Tails(paths, p[0]), p[1..], v);
      assert p[0] in Chosen(t, paths);
    }
  }

  /** And whatever there is, is in the catalog too; a leaf, or a tree without fields, lies under a listed path. */
  lemma {:induction false} SelectHasNothingElse(t: Tree, paths: set<Path>, q: Path, v: Tree)
    requires Select(t, paths).Some? && At(Select(t, paths).value, q) == Some(v)
    ensures At(t, q).Some? && (v.Leaf? || v.fields == map[] ==> At(t, q) == Some(v) && exists p :: p in paths && p <= q)
    decreases |q|
  {
    if [] in paths {
      assert [] <= q;
    } else if q != [] {
      SelectHasNothingElse(t.fields[q[0]], Tails(paths, q[0]), q[1..], v);
      if v.Leaf? || v.fields == map[] {
        var tail :| tail in Tails(paths, q[0]) && tail <= q[1..];
        var p :| p in paths && p != [] && p[0] == q[0] && p[1..] == tail;
        assert p == [q[0]] + tail && q == [q[0]] + q[1..];
        assert p in paths && p <= q;
      }
    }
  }

  // ---------------------------------------------------------------------------------------------
  // Writing at one place.

  function SetAt(t: Tree, path: Path, k: string, x: Tree): Tree
    requires At(t, path).Some? && At(t, path).value.Branch?
    decreases |path|
  {
    if path == [] then Branch(t.fields[k := x])
    else Branch(t.fields[path[0] := SetAt(t.fields[path[0]], path[1..], k, x)])
  }

  lemma {:induction false} AtNext(t: Tree, path: Path, k: string)
    ensures At(t, path + [k]) ==
            match At(t, path)
            case None => None
            case Some(u) => if u.Branch? && k in u.fields then Some(u.fields[k]) else None
    decreases |path|
  {
    if path == [] {
      assert (path + [k])[1..] == [];
    } else {
      assert (path + [k])[1..] == path[1..] + [k];
      if t.Branch? && path[0] in t.fields { AtNext(t.fields[path[0]], path[1..], k); }
    }
  }

  /** Where the way is there already, one entry sets the last field. */
  lemma {:induction false} PutIsSet(t: Tree, path: Path, k: string, v: Tree)
    requires At(t, path).Some? && At(t, path).value.Branch?
    ensures var fields := At(t, path).value.fields;
            Put(Some(t), path + [k], v) ==
            SetAt(t, path, k, if v.Branch? && k in fields && fields[k].Branch? then Merge(fields[k], v) else v)
    decreases |path|
  {
    if path == [] {
      assert (path + [k])[1..] == [];
    } else {
      assert (path + [k])[1..] == path[1..] + [k];
      PutIsSet(t.fields[path[0]], path[1..], k, v);
    }
  }

  /** Making an empty tree on the way does not change what the entry comes to. */
  lemma {:induction false} PutMakesTheWay(t: Tree, path: Path, k: string, rest: Path, v: Tree)
    requires At(t, path).Some? && At(t, path).value.Branch? && k !in At(t, path).value.fields && rest != []
    ensures Put(Some(SetAt(t, path, k, Branch(map[]))), path + [k] + rest, v) == Put(Some(t), path + [k] + rest, v)
    decreases |path|
  {
    var all := path + [k] + rest;
    if path == [] {
      assert all[1..] == rest;
      var empty: Tree := Branch(map[]);
      assert Put(Some(empty), rest, v) == Put(None, rest, v);
      assert t.fields[k := empty][k := Put(None, rest, v)] == t.fields[k := Put(None, rest, v)];
    } else {
      assert all[1..] == path[1..] + [k] + rest;
      PutMakesTheWay(t.fields[path[0]], path[1..], k, rest, v);
      var x := SetAt(t.fields[path[0]], path[1..], k, Branch(map[]));
      var y := Put(Some(x), all[1..], v);
      assert t.fields[path[0] := x][path[0] := y] == t.fields[path[0] := y];
    }
  }
}
