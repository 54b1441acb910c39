/**
 The same picking on objects. Trees are objects in a store; a picked tree refers to objects of the
 catalog, and entries that come later write into them. Shapes are book-keeping for the proof.
 */
module MessageObjects {
  import opened Wrappers
  import opened ClientMessages

  datatype Value = Text(text: string) | Ref(id: nat)

  /** An object is the picked tree's own, at one place of it, or may be shared. */
  datatype Kind = Shared | Own(path: Path)

  datatype Shape = Shape(height: nat, kind: Kind)

  datatype Heap = Heap(objects: seq<map<string, Value>>, shapes: seq<Shape>)

  /** A field refers to a lower object; an own object is referred to only from the place before its own. */
  predicate FieldOk(h: Heap, r: int, k: string)
    requires 0 <= r < |h.objects| == |h.shapes| && k in h.objects[r]
  {
    h.objects[r][k].Ref? ==>
      var c := h.objects[r][k].id;
      && c < |h.objects| && h.shapes[c].height < h.shapes[r].height
      && (h.shapes[c].kind.Own? ==>
            && h.shapes[r].kind.Own? && h.shapes[c].kind.path == h.shapes[r].kind.path + [k]
            && h.shapes[c].height + 1 == h.shapes[r].height)
  }

  /** There are no dangling references and no cycles. */
  ghost predicate Valid(h: Heap) {
    && |h.objects| == |h.shapes|
    && forall r, k :: 0 <= r < |h.objects| && k in h.objects[r] ==> FieldOk(h, r, k)
  }

  /** The tree an object stands for. */
  ghost function TreeOf(h: Heap, r: nat): Tree
    requires Valid(h) && r < |h.objects|
    decreases h.shapes[r].height, 1
  {
    Branch(map k | k in h.objects[r] :: FieldOf(h, r, k))
  }

  ghost function FieldOf(h: Heap, r: nat, k: string): Tree
    requires Valid(h) && r < |h.objects| && k in h.objects[r]
    decreases h.shapes[r].height, 0
  {
    assert FieldOk(h, r, k);
    match h.objects[r][k]
    case Text(text) => Leaf(text)
    case Ref(c) => TreeOf(h, c)
  }

  ghost function TreeOfValue(h: Heap, v: Value): Tree
    requires Valid(h) && (v.Ref? ==> v.id < |h.objects|)
  {
    match v
    case Text(text) => Leaf(text)
    case Ref(r) => TreeOf(h, r)
  }

  /** What there is agrees with tree `t`; objects that may be shared stand for all of it. */
  ghost predicate Good(h: Heap, r: nat, t: Tree)
    requires Valid(h) && r < |h.objects|
    decreases h.shapes[r].height, 1
  {
    if h.shapes[r].kind.Shared? then TreeOf(h, r) == t
    else t.Branch? && forall k :: k in h.objects[r] ==> k in t.fields && GoodField(h, r, k, t.fields[k])
  }

  ghost predicate GoodField(h: Heap, r: nat, k: string, t: Tree)
    requires Valid(h) && r < |h.objects| && k in h.objects[r]
    decreases h.shapes[r].height, 0
  {
    assert FieldOk(h, r, k);
    match h.objects[r][k]
    case Text(text) => t == Leaf(text)
    case Ref(c) => Good(h, c, t)
  }

  lemma GoodFields(h: Heap, r: nat, t: Tree, k: string)
    requires Valid(h) && r < |h.objects| && Good(h, r, t)
    ensures t.Branch?
    ensures k in h.objects[r] ==> k in t.fields && GoodField(h, r, k, t.fields[k]) && (t.fields[k].Branch? <==> h.objects[r][k].Ref?)
    ensures h.shapes[r].kind.Shared? && k in t.fields ==> k in h.objects[r]
  {
    if h.shapes[r].kind.Shared? {
      assert t.fields.Keys == h.objects[r].Keys;
      if k in h.objects[r] { assert t.fields[k] == FieldOf(h, r, k) && FieldOk(h, r, k); }
    } else if k in h.objects[r] {
      assert GoodField(h, r, k, t.fields[k]) && FieldOk(h, r, k);
      if h.objects[r][k].Ref? { GoodIsBranch(h, h.objects[r][k].id, t.fields[k]); }
    }
  }

  lemma GoodIsBranch(h: Heap, r: nat, t: Tree)
    requires Valid(h) && r < |h.objects| && Good(h, r, t)
    ensures t.Branch?
  {}

  /** A good tree merged with the whole gives the whole. */
  lemma {:induction false} MergeGood(h: Heap, r: nat, t: Tree)
    requires Valid(h) && r < |h.objects| && Good(h, r, t)
    ensures t.Branch? && Merge(TreeOf(h, r), t) == t
    decreases h.shapes[r].height
  {
    if h.shapes[r].kind.Shared? {
      MergeSame(t);
    } else {
      var a := TreeOf(h, r);
      forall k | k in a.fields && a.fields[k].Branch? && t.fields[k].Branch? ensures Merge(a.fields[k], t.fields[k]) == t.fields[k] {
        assert a.fields[k] == FieldOf(h, r, k) && GoodField(h, r, k, t.fields[k]) && FieldOk(h, r, k);
        MergeGood(h, h.objects[r][k].id, t.fields[k]);
      }
      assert a.fields.Keys + t.fields.Keys == t.fields.Keys;
      assert Merge(a, t).fields == t.fields;
    }
  }

  // ---------------------------------------------------------------------------------------------
  // What changes to the store leave alone.

  /** The objects in `us` are the same in both heaps, and refer only to one another. */
  ghost predicate Untouched(h: Heap, i: Heap, us: nat -> bool)
    requires Valid(h) && Valid(i)
  {
    forall r: nat :: us(r) ==>
      && r < |h.objects| && r < |i.objects| && i.objects[r] == h.objects[r] && i.shapes[r] == h.shapes[r]
      && forall k :: k in h.objects[r] && h.objects[r][k].Ref? ==> us(h.objects[r][k].id)
  }

  lemma {:induction false} UntouchedTree(h: Heap, i: Heap, us: nat -> bool, r: nat)
    requires Valid(h) && Valid(i) && Untouched(h, i, us) && us(r)
    ensures TreeOf(i, r) == TreeOf(h, r)
    decreases h.shapes[r].height
  {
    forall k | k in h.objects[r] ensures FieldOf(i, r, k) == FieldOf(h, r, k) {
      assert FieldOk(h, r, k);
      if h.objects[r][k].Ref? { UntouchedTree(h, i, us, h.objects[r][k].id); }
    }
  }

  lemma {:induction false} UntouchedGood(h: Heap, i: Heap, us: nat -> bool, r: nat, t: Tree)
    requires Valid(h) && Valid(i) && Untouched(h, i, us) && us(r) && Good(h, r, t)
    ensures Good(i, r, t)
    decreases h.shapes[r].height
  {
    UntouchedTree(h, i, us, r);
    if h.shapes[r].kind.Own? {
      forall k | k in h.objects[r] ensures GoodField(i, r, k, t.fields[k]) {
        assert FieldOk(h, r, k) && GoodField(h, r, k, t.fields[k]);
        if h.objects[r][k].Ref? { UntouchedGood(h, i, us, h.objects[r][k].id, t.fields[k]); }
      }
    }
  }

  /** A new object. */
  function Added(h: Heap, fields: map<string, Value>, shape: Shape): Heap {
    Heap(h.objects + [fields], h.shapes + [shape])
  }

  /** `h` with more objects. */
  predicate Extends(h: Heap, i: Heap) {
    h.objects <= i.objects && h.shapes <= i.shapes
  }

  ghost function All(h: Heap): nat -> bool {
    (r: nat) => r < |h.objects|
  }

  lemma ExtensionKeepsTree(h: Heap, i: Heap, r: nat)
    requires Valid(h) && Valid(i) && Extends(h, i) && r < |h.objects|
    ensures TreeOf(i, r) == TreeOf(h, r)
  {
    UntouchedTree(h, i, All(h), r);
  }

  lemma ExtensionKeepsGood(h: Heap, i: Heap, r: nat, t: Tree)
    requires Valid(h) && Valid(i) && Extends(h, i) && r < |h.objects| && Good(h, r, t)
    ensures Good(i, r, t)
  {
    UntouchedGood(h, i, All(h), r, t);
  }

  /** Assigning a field. */
  function Written(h: Heap, r: nat, k: string, v: Value): Heap
    requires r < |h.objects|
  {
    h.(objects := h.objects[r := h.objects[r][k := v]])
  }

  lemma WrittenIsValid(h: Heap, r: nat, k: string, v: Value)
    requires Valid(h) && r < |h.objects| && FieldOk(Written(h, r, k, v), r, k)
    ensures Valid(Written(h, r, k, v))
  {
    var i := Written(h, r, k, v);
    forall q, j | 0 <= q < |i.objects| && j in i.objects[q] ensures FieldOk(i, q, j) {
      if q != r || j != k { assert FieldOk(h, q, j); }
    }
  }

  /** Writing a value that stands for the same tree as the one it replaces changes no tree. */
  lemma {:induction false} SameValueKeepsTree(h: Heap, r: nat, k: string, v: Value, q: nat)
    requires Valid(h) && r < |h.objects| && q < |h.objects| && Valid(Written(h, r, k, v))
    requires k in h.objects[r] && (v.Ref? ==> v.id < |h.objects|) && TreeOfValue(h, v) == FieldOf(h, r, k)
    ensures TreeOf(Written(h, r, k, v), q) == TreeOf(h, q)
    decreases h.shapes[q].height
  {
    var i := Written(h, r, k, v);
    forall j | j in i.objects[q] ensures j in h.objects[q] && FieldOf(i, q, j) == FieldOf(h, q, j) {
      assert FieldOk(i, q, j);
      if q == r && j == k {
        if v.Ref? { SameValueKeepsTree(h, r, k, v, v.id); }
      } else {
        assert FieldOk(h, q, j);
        if h.objects[q][j].Ref? { SameValueKeepsTree(h, r, k, v, h.objects[q][j].id); }
      }
    }
    assert TreeOf(i, q).fields == TreeOf(h, q).fields;
  }

  lemma {:induction false} SameValueKeepsGood(h: Heap, r: nat, k: string, v: Value, q: nat, t: Tree)
    requires Valid(h) && r < |h.objects| && q < |h.objects| && Valid(Written(h, r, k, v))
    requires k in h.objects[r] && (v.Ref? ==> v.id < |h.objects|) && TreeOfValue(h, v) == FieldOf(h, r, k)
    requires h.shapes[r].kind.Shared? && Good(h, q, t)
    ensures Good(Written(h, r, k, v), q, t)
    decreases h.shapes[q].height
  {
    var i := Written(h, r, k, v);
    SameValueKeepsTree(h, r, k, v, q);
    if h.shapes[q].kind.Own? {
      forall j | j in h.objects[q] ensures GoodField(i, q, j, t.fields[j]) {
        assert FieldOk(h, q, j) && GoodField(h, q, j, t.fields[j]);
        if h.objects[q][j].Ref? { SameValueKeepsGood(h, r, k, v, h.objects[q][j].id, t.fields[j]); }
      }
    }
  }

  /** The objects that are not on the way to the own object at `path`. */
  ghost function OffTheWay(h: Heap, path: Path): nat -> bool {
    (r: nat) => r < |h.objects| && r < |h.shapes| && !(h.shapes[r].kind.Own? && h.shapes[r].kind.path <= path)
  }

  // ---------------------------------------------------------------------------------------------
  // Writing into the picked tree.

  /** Following `path` from `r` leads to `t`. */
  ghost predicate Leads(h: Heap, r: nat, path: Path, t: nat)
    requires Valid(h) && r < |h.objects|
    decreases |path|
  {
    if path == [] then r == t
    else path[0] in h.objects[r] && h.objects[r][path[0]].Ref? &&
         assert FieldOk(h, r, path[0]); Leads(h, h.objects[r][path[0]].id, path[1..], t)
  }

  lemma {:induction false} LeadsFurther(h: Heap, r: nat, path: Path, t: nat, k: string)
    requires Valid(h) && r < |h.objects| && Leads(h, r, path, t) && t < |h.objects|
    requires k in h.objects[t] && h.objects[t][k].Ref?
    ensures Leads(h, r, path + [k], h.objects[t][k].id)
    decreases |path|
  {
    assert FieldOk(h, t, k);
    if path == [] {
      assert (path + [k])[1..] == [];
    } else {
      assert FieldOk(h, r, path[0]) && (path + [k])[1..] == path[1..] + [k];
      LeadsFurther(h, h.objects[r][path[0]].id, path[1..], t, k);
    }
  }

  lemma {:induction false} LeadsToTree(h: Heap, r: nat, path: Path, t: nat)
    requires Valid(h) && r < |h.objects| && Leads(h, r, path, t)
    ensures t < |h.objects| && At(TreeOf(h, r), path) == Some(TreeOf(h, t))
    decreases |path|
  {
    if path != [] {
      assert FieldOk(h, r, path[0]);
      LeadsToTree(h, h.objects[r][path[0]].id, path[1..], t);
      assert FieldOf(h, r, path[0]) == TreeOf(h, h.objects[r][path[0]].id);
    }
  }

  /** What leads to an own object is own, and the places fit together. */
  lemma {:induction false} OnTheWay(h: Heap, r: nat, path: Path, t: nat)
    requires Valid(h) && r < |h.objects| && Leads(h, r, path, t) && t < |h.objects| && h.shapes[t].kind.Own?
    ensures h.shapes[r].kind.Own? && h.shapes[r].kind.path + path == h.shapes[t].kind.path
    decreases |path|
  {
    if path != [] {
      assert FieldOk(h, r, path[0]);
      OnTheWay(h, h.objects[r][path[0]].id, path[1..], t);
      assert [path[0]] + path[1..] == path;
      assert h.shapes[r].kind.path + ([path[0]] + path[1..]) == (h.shapes[r].kind.path + [path[0]]) + path[1..];
    }
  }

  /** Fields that do not lead on to the object written are as before. */
  lemma OtherFieldsStay(h: Heap, t: nat, k: string, v: Value, r: nat, j: string)
    requires Valid(h) && t < |h.objects| && h.shapes[t].kind.Own? && Valid(Written(h, t, k, v))
    requires r < |h.objects| && j in h.objects[r] && h.shapes[r].kind.Own? && (r == t ==> j != k)
    requires !(h.shapes[r].kind.path + [j] <= h.shapes[t].kind.path)
    ensures var i := Written(h, t, k, v);
            && j in i.objects[r] && FieldOf(i, r, j) == FieldOf(h, r, j)
            && forall m :: GoodField(h, r, j, m) ==> GoodField(i, r, j, m)
  {
    var i := Written(h, t, k, v);
    var us := OffTheWay(h, h.shapes[t].kind.path);
    assert FieldOk(h, r, j);
    if h.objects[r][j].Ref? {
      var c := h.objects[r][j].id;
      assert us(c);
      UntouchedTree(h, i, us, c);
      forall m | GoodField(h, r, j, m) ensures GoodField(i, r, j, m) { UntouchedGood(h, i, us, c, m); }
    }
  }

  /** The value written is not on the way to where it is written. */
  lemma WrittenFieldIsValue(h: Heap, t: nat, k: string, v: Value)
    requires Valid(h) && t < |h.objects| && h.shapes[t].kind.Own? && Valid(Written(h, t, k, v))
    requires v.Ref? ==> v.id < |h.objects|
    ensures FieldOf(Written(h, t, k, v), t, k) == TreeOfValue(h, v)
    ensures forall m :: (v.Text? ==> m == Leaf(v.text)) && (v.Ref? ==> Good(h, v.id, m)) ==> GoodField(Written(h, t, k, v), t, k, m)
  {
    var i := Written(h, t, k, v);
    var us := OffTheWay(h, h.shapes[t].kind.path);
    assert FieldOk(i, t, k);
    if v.Ref? {
      assert us(v.id);
      UntouchedTree(h, i, us, v.id);
      forall m | Good(h, v.id, m) ensures Good(i, v.id, m) { UntouchedGood(h, i, us, v.id, m); }
    }
  }

  lemma OneFieldDiffers(h: Heap, i: Heap, r: nat, key: string, x: Tree)
    requires Valid(h) && Valid(i) && r < |h.objects| && r < |i.objects| && i.objects[r].Keys == h.objects[r].Keys + {key}
    requires FieldOf(i, r, key) == x
    requires forall j :: j in h.objects[r] && j != key ==> FieldOf(i, r, j) == FieldOf(h, r, j)
    ensures TreeOf(i, r) == Branch(TreeOf(h, r).fields[key := x])
  {
    assert TreeOf(i, r).fields == TreeOf(h, r).fields[key := x];
  }

  lemma WritingSetsField(h: Heap, t: nat, k: string, v: Value)
    requires Valid(h) && t < |h.objects| && h.shapes[t].kind.Own?
    requires (v.Ref? ==> v.id < |h.objects|) && Valid(Written(h, t, k, v))
    ensures TreeOf(Written(h, t, k, v), t) == Branch(TreeOf(h, t).fields[k := TreeOfValue(h, v)])
  {
    var i := Written(h, t, k, v);
    forall j | j in h.objects[t] && j != k ensures FieldOf(i, t, j) == FieldOf(h, t, j) {
      OtherFieldsStay(h, t, k, v, t, j);
    }
    WrittenFieldIsValue(h, t, k, v);
    OneFieldDiffers(h, i, t, k, TreeOfValue(h, v));
  }

  /** Above the object written, only the field on the way changes. */
  lemma WritingSetsAbove(h: Heap, r: nat, key: string, t: nat, k: string, v: Value)
    requires Valid(h) && r < |h.objects| && t < |h.objects| && h.shapes[r].kind.Own? && h.shapes[t].kind.Own?
    requires h.shapes[r].kind.path + [key] <= h.shapes[t].kind.path && key in h.objects[r] && h.objects[r][key].Ref?
    requires Valid(Written(h, t, k, v))
    ensures var i := Written(h, t, k, v);
            assert FieldOk(i, r, key);
            TreeOf(i, r) == Branch(TreeOf(h, r).fields[key := TreeOf(i, h.objects[r][key].id)])
  {
    var i := Written(h, t, k, v);
    assert r != t;
    assert FieldOk(i, r, key) && FieldOf(i, r, key) == TreeOf(i, h.objects[r][key].id);
    forall j | j in h.objects[r] && j != key ensures FieldOf(i, r, j) == FieldOf(h, r, j) {
      assert h.shapes[t].kind.path[|h.shapes[r].kind.path|] == key;
      OtherFieldsStay(h, t, k, v, r, j);
    }
    OneFieldDiffers(h, i, r, key, FieldOf(i, r, key));
  }

  /** Writing into an own object changes exactly that place of the picked tree. */
  lemma {:induction false} WritingSets(h: Heap, r: nat, path: Path, t: nat, k: string, v: Value)
    requires Valid(h) && r < |h.objects| && Leads(h, r, path, t) && t < |h.objects| && h.shapes[t].kind.Own?
    requires (v.Ref? ==> v.id < |h.objects|) && Valid(Written(h, t, k, v))
    ensures At(TreeOf(h, r), path) == Some(TreeOf(h, t))
    ensures TreeOf(Written(h, t, k, v), r) == SetAt(TreeOf(h, r), path, k, TreeOfValue(h, v))
    decreases |path|
  {
    LeadsToTree(h, r, path, t);
    if path == [] {
      WritingSetsField(h, t, k, v);
    } else {
      OnTheWay(h, r, path, t);
      assert FieldOk(h, r, path[0]) && FieldOf(h, r, path[0]) == TreeOf(h, h.objects[r][path[0]].id);
      assert h.shapes[r].kind.path + path == h.shapes[r].kind.path + [path[0]] + path[1..];
      WritingSetsAbove(h, r, path[0], t, k, v);
      WritingSets(h, h.objects[r][path[0]].id, path[1..], t, k, v);
    }
  }

  lemma {:induction false} WritingKeepsGood(h: Heap, r: nat, path: Path, t: nat, k: string, v: Value, m: Tree, n: Tree)
    requires Valid(h) && r < |h.objects| && Leads(h, r, path, t) && t < |h.objects| && h.shapes[t].kind.Own?
    requires (v.Ref? ==> v.id < |h.objects|) && Valid(Written(h, t, k, v))
    requires Good(h, r, m) && At(m, path).Some? && At(m, path).value.Branch? && k in At(m, path).value.fields
    requires n == At(m, path).value.fields[k] && (v.Text? ==> n == Leaf(v.text)) && (v.Ref? ==> Good(h, v.id, n))
    ensures Good(Written(h, t, k, v), r, m)
    decreases |path|
  {
    var i := Written(h, t, k, v);
    OnTheWay(h, r, path, t);
    if path == [] {
      WrittenFieldIsValue(h, t, k, v);
      forall j | j in i.objects[t] ensures j in m.fields && GoodField(i, t, j, m.fields[j]) {
        if j != k { OtherFieldsStay(h, t, k, v, t, j); }
      }
    } else {
      var key := path[0];
      assert FieldOk(h, r, key) && GoodField(h, r, key, m.fields[key]);
      WritingKeepsGood(h, h.objects[r][key].id, path[1..], t, k, v, m.fields[key], n);
      assert r != t;
      forall j | j in i.objects[r] ensures j in m.fields && GoodField(i, r, j, m.fields[j]) {
        if j != key {
          assert (h.shapes[r].kind.path + path)[|h.shapes[r].kind.path|] == key;
          OtherFieldsStay(h, t, k, v, r, j);
        } else {
          assert FieldOk(i, r, key);
        }
      }
    }
  }

  // ---------------------------------------------------------------------------------------------
  // Merging.

  /** A field value for an object of this height that stands for `t` and may be shared. */
  ghost predicate StandsFor(h: Heap, v: Value, height: int, t: Tree)
    requires Valid(h)
  {
    && (v.Ref? ==> v.id < |h.objects| && h.shapes[v.id].kind.Shared? && h.shapes[v.id].height < height)
    && TreeOfValue(h, v) == t
  }

  lemma StandsForStays(h: Heap, i: Heap, v: Value, height: int, t: Tree)
    requires Valid(h) && Valid(i) && Extends(h, i) && StandsFor(h, v, height, t)
    ensures StandsFor(i, v, height, t)
  {
    if v.Ref? { ExtensionKeepsTree(h, i, v.id); }
  }

  /** The fields with these keys are as they are to be. */
  ghost predicate Done(h: Heap, fields: map<string, Value>, keys: set<string>, height: int, t: Tree)
    requires Valid(h) && t.Branch? && keys <= t.fields.Keys
  {
    keys <= fields.Keys && forall k :: k in keys ==> StandsFor(h, fields[k], height, t.fields[k])
  }

  lemma DoneWithOneMore(h: Heap, i: Heap, fields: map<string, Value>, keys: set<string>, height: int, t: Tree, key: string, v: Value)
    requires Valid(h) && Valid(i) && Extends(h, i) && t.Branch? && keys <= t.fields.Keys && key in t.fields
    requires Done(h, fields, keys, height, t) && StandsFor(i, v, height, t.fields[key])
    ensures Done(i, fields[key := v], keys + {key}, height, t)
  {
    forall k | k in keys && k != key ensures StandsFor(i, fields[k], height, t.fields[k]) {
      StandsForStays(h, i, fields[k], height, t.fields[k]);
    }
  }

  lemma AddedIsValid(h: Heap, fields: map<string, Value>, height: nat, t: Tree)
    requires Valid(h) && t.Branch? && fields.Keys == t.fields.Keys
    requires Done(h, fields, t.fields.Keys, height, t)
    ensures var i := Added(h, fields, Shape(height, Shared));
            Valid(i) && Extends(h, i) && TreeOf(i, |h.objects|) == t
  {
    var i := Added(h, fields, Shape(height, Shared));
    forall r, k | 0 <= r < |i.objects| && k in i.objects[r] ensures FieldOk(i, r, k) {
      if r < |h.objects| { assert FieldOk(h, r, k); } else { assert StandsFor(h, fields[k], height, t.fields[k]); }
    }
    forall k | k in fields ensures FieldOf(i, |h.objects|, k) == t.fields[k] {
      StandsForStays(h, i, fields[k], height, t.fields[k]);
    }
    assert TreeOf(i, |h.objects|).fields == t.fields;
  }

  /** `a` can be merged with the catalog's object `b`. */
  ghost predicate Mergeable(h: Heap, a: nat, b: nat)
    requires Valid(h)
  {
    && a < |h.objects| && b < |h.objects| && h.shapes[b].kind.Shared? && Good(h, a, TreeOf(h, b))
    && (h.shapes[a].kind.Own? ==> h.shapes[b].height <= h.shapes[a].height)
  }

  lemma MergeableStays(h: Heap, i: Heap, a: nat, b: nat)
    requires Valid(h) && Valid(i) && Extends(h, i) && Mergeable(h, a, b)
    ensures Mergeable(i, a, b)
  {
    ExtensionKeepsTree(h, i, b);
    ExtensionKeepsGood(h, i, a, TreeOf(h, b));
  }

  /** Field by field. */
  lemma MergeableField(h: Heap, a: nat, b: nat, k: string)
    requires Valid(h) && Mergeable(h, a, b) && k in h.objects[b]
    ensures if k in h.objects[a] && h.objects[a][k].Ref? && h.objects[b][k].Ref?
            then Mergeable(h, h.objects[a][k].id, h.objects[b][k].id)
                 && h.shapes[h.objects[a][k].id].height < h.shapes[a].height
                 && TreeOf(h, h.objects[b][k].id) == FieldOf(h, b, k)
            else StandsFor(h, h.objects[b][k], h.shapes[a].height, FieldOf(h, b, k))
  {
    assert FieldOk(h, b, k) && TreeOf(h, b).fields[k] == FieldOf(h, b, k);
    if h.shapes[a].kind.Shared? {
      assert k in TreeOf(h, a).fields && TreeOf(h, a).fields[k] == FieldOf(h, a, k);
      assert FieldOk(h, a, k);
    } else if k in h.objects[a] {
      assert FieldOk(h, a, k) && GoodField(h, a, k, FieldOf(h, b, k));
    }
  }

  lemma MergeableKeys(h: Heap, a: nat, b: nat)
    requires Valid(h) && Mergeable(h, a, b)
    ensures h.objects[a].Keys <= h.objects[b].Keys
    ensures Merge(TreeOf(h, a), TreeOf(h, b)) == TreeOf(h, b)
  {
    MergeGood(h, a, TreeOf(h, b));
    assert TreeOf(h, b).fields.Keys == h.objects[b].Keys;
    if h.shapes[a].kind.Shared? { assert TreeOf(h, a).fields.Keys == h.objects[a].Keys; }
  }

  /** All objects from the `from`-th on may be shared. */
  predicate SharedFrom(h: Heap, from: nat) {
    forall r :: from <= r < |h.shapes| ==> h.shapes[r].kind.Shared?
  }

  // ---------------------------------------------------------------------------------------------
  // Picking.

  /** Between two entries: the catalog stands for `m`, and what has been picked agrees with it. */
  ghost predicate Picking(h: Heap, messages: nat, picked: nat, m: Tree) {
    && Valid(h) && messages < |h.objects| && picked < |h.objects|
    && h.shapes[messages].kind.Shared? && TreeOf(h, messages) == m
    && h.shapes[picked] == Shape(h.shapes[messages].height, Own([])) && Good(h, picked, m)
  }

  /** What may be shared keeps its value. */
  ghost predicate KeepsShared(h: Heap, i: Heap)
    requires Valid(h) && Valid(i)
  {
    |h.objects| <= |i.objects| && forall r :: 0 <= r < |h.objects| && h.shapes[r].kind.Shared? ==> SameTree(h, i, r)
  }

  ghost predicate SameTree(h: Heap, i: Heap, r: nat)
    requires Valid(h) && Valid(i) && r < |h.objects| && r < |i.objects|
  {
    i.shapes[r] == h.shapes[r] && TreeOf(i, r) == TreeOf(h, r)
  }

  lemma KeepsSharedTrans(h: Heap, i: Heap, j: Heap)
    requires Valid(h) && Valid(i) && Valid(j) && KeepsShared(h, i) && KeepsShared(i, j)
    ensures KeepsShared(h, j)
  {
    forall r | 0 <= r < |h.objects| && h.shapes[r].kind.Shared? ensures SameTree(h, j, r) {
      assert SameTree(h, i, r) && SameTree(i, j, r);
    }
  }

  lemma ExtensionKeepsShared(h: Heap, i: Heap)
    requires Valid(h) && Valid(i) && Extends(h, i)
    ensures KeepsShared(h, i)
  {
    forall r | 0 <= r < |h.objects| ensures SameTree(h, i, r) { ExtensionKeepsTree(h, i, r); }
  }

  /** On the way along an entry: the first `n` keys lead to `target`, which agrees with the catalog there. */
  ghost predicate Reached(h: Heap, messages: nat, picked: nat, m: Tree, path: Path, n: nat, target: nat) {
    && Picking(h, messages, picked, m) && n <= |path| && target < |h.objects|
    && Leads(h, picked, path[..n], target)
    && At(m, path[..n]).Some? && Good(h, target, At(m, path[..n]).value)
    && (h.shapes[target].kind.Own? ==> h.shapes[target].height + n == h.shapes[messages].height)
  }

  lemma {:induction false} AtPrefix(t: Tree, path: Path, n: nat)
    requires n <= |path| && At(t, path).Some?
    ensures At(t, path[..n]).Some? && (n < |path| ==> At(t, path[..n]).value.Branch? && path[n] in At(t, path[..n]).value.fields)
    ensures n < |path| ==> At(t, path[..n + 1]) == Some(At(t, path[..n]).value.fields[path[n]])
    decreases |path| - n
  {
    if n < |path| {
      AtPrefix(t, path, n + 1);
      AtNext(t, path[..n], path[n]);
      assert path[..n] + [path[n]] == path[..n + 1];
    } else {
      assert path[..n] == path;
    }
  }

  /** A field on the way that is a tree leads on. */
  lemma ReachedNext(h: Heap, messages: nat, picked: nat, m: Tree, path: Path, n: nat, target: nat)
    requires Reached(h, messages, picked, m, path, n, target) && n < |path| && At(m, path).Some?
    requires path[n] in h.objects[target] && h.objects[target][path[n]].Ref?
    ensures Reached(h, messages, picked, m, path, n + 1, h.objects[target][path[n]].id)
  {
    var key := path[n];
    AtPrefix(m, path, n);
    assert FieldOk(h, target, key);
    LeadsFurther(h, picked, path[..n], target, key);
    assert path[..n] + [key] == path[..n + 1];
    if h.shapes[target].kind.Shared? {
      assert TreeOf(h, target).fields[key] == FieldOf(h, target, key);
    } else {
      assert GoodField(h, target, key, At(m, path[..n]).value.fields[key]);
    }
  }

  /** A field on the way that is no tree yet is absent, and the object is the picked tree's own. */
  lemma NothingThere(h: Heap, messages: nat, picked: nat, m: Tree, path: Path, n: nat, target: nat)
    requires Reached(h, messages, picked, m, path, n, target) && n + 1 < |path| && At(m, path).Some?
    requires !(path[n] in h.objects[target] && h.objects[target][path[n]].Ref?)
    ensures path[n] !in h.objects[target] && h.shapes[target].kind.Own? && h.shapes[target].height > 0
    ensures h.shapes[target].kind.path == path[..n]
  {
    var key := path[n];
    AtPrefix(m, path, n);
    AtPrefix(m, path, n + 1);
    GoodFields(h, target, At(m, path[..n]).value, key);
    OnTheWay(h, picked, path[..n], target);
    assert [] + path[..n] == path[..n];
    DeepEnough(h, messages, path, n + 1);
  }

  /** The catalog is at least as high as its paths are long. */
  lemma {:induction false} DeepEnough(h: Heap, r: nat, path: Path, n: nat)
    requires Valid(h) && r < |h.objects| && n <= |path| && At(TreeOf(h, r), path[..n]).Some? && At(TreeOf(h, r), path[..n]).value.Branch?
    ensures n <= h.shapes[r].height
    decreases n
  {
    if n > 0 {
      var key := path[0];
      assert path[..n][0] == key && path[..n][1..] == path[1..][..n - 1];
      assert FieldOk(h, r, key) && TreeOf(h, r).fields[key] == FieldOf(h, r, key);
      if h.objects[r][key].Ref? {
        DeepEnough(h, h.objects[r][key].id, path[1..], n - 1);
      }
    }
  }

  /** The last step: the heap after the last field has been written. */
  lemma WriteShared(h: Heap, messages: nat, picked: nat, m: Tree, path: Path, target: nat, v: Value)
    requires path != [] && Reached(h, messages, picked, m, path, |path| - 1, target) && At(m, path).Some?
    requires h.shapes[target].kind.Shared? && StandsFor(h, v, h.shapes[target].height, At(m, path).value)
    ensures var i := Written(h, target, path[|path| - 1], v);
            && Picking(i, messages, picked, m) && KeepsShared(h, i)
            && TreeOf(i, picked) == Put(Some(TreeOf(h, picked)), path, At(m, path).value)
  {
    var n, k := |path| - 1, path[|path| - 1];
    AtPrefix(m, path, n);
    assert path[..n + 1] == path;
    GoodFields(h, target, At(m, path[..n]).value, k);
    assert TreeOf(h, target).fields[k] == FieldOf(h, target, k);
    WrittenIsValid(h, target, k, v);
    var i := Written(h, target, k, v);
    forall r | 0 <= r < |h.objects| ensures SameTree(h, i, r) { SameValueKeepsTree(h, target, k, v, r); }
    SameValueKeepsGood(h, target, k, v, picked, m);
    LeadsToTree(h, picked, path[..n], target);
    AtNext(TreeOf(h, picked), path[..n], k);
    assert path[..n] + [k] == path;
    PutSame(TreeOf(h, picked), path, At(m, path).value);
    assert SameTree(h, i, picked) && SameTree(h, i, messages);
  }

  lemma OwnWriteKeepsShared(h: Heap, r: nat, k: string, v: Value)
    requires Valid(h) && r < |h.objects| && h.shapes[r].kind.Own? && Valid(Written(h, r, k, v))
    ensures KeepsShared(h, Written(h, r, k, v))
  {
    var i := Written(h, r, k, v);
    var us := OffTheWay(h, h.shapes[r].kind.path);
    forall q | 0 <= q < |h.objects| && h.shapes[q].kind.Shared? ensures SameTree(h, i, q) {
      UntouchedTree(h, i, us, q);
    }
  }

  lemma WriteOwn(h: Heap, messages: nat, picked: nat, m: Tree, path: Path, target: nat, v: Value)
    requires path != [] && Reached(h, messages, picked, m, path, |path| - 1, target) && At(m, path).Some?
    requires h.shapes[target].kind.Own? && StandsFor(h, v, h.shapes[target].height, At(m, path).value)
    ensures var i := Written(h, target, path[|path| - 1], v);
            && Picking(i, messages, picked, m) && KeepsShared(h, i)
            && TreeOf(i, picked) == Put(Some(TreeOf(h, picked)), path, At(m, path).value)
  {
    var n, k, x := |path| - 1, path[|path| - 1], At(m, path).value;
    AtPrefix(m, path, n);
    assert path[..n + 1] == path && path[..n] + [k] == path;
    WrittenIsValid(h, target, k, v);
    OwnWriteKeepsShared(h, target, k, v);
    assert SameTree(h, Written(h, target, k, v), messages);
    WritingKeepsGood(h, picked, path[..n], target, k, v, m, x);
    WritingSets(h, picked, path[..n], target, k, v);
    PutIsSet(TreeOf(h, picked), path[..n], k, x);
    MergesToWhole(h, target, k, At(m, path[..n]).value);
  }

  /** What is there already, merged with the whole, gives the whole. */
  lemma MergesToWhole(h: Heap, r: nat, k: string, t: Tree)
    requires Valid(h) && r < |h.objects| && Good(h, r, t) && k in t.fields
    ensures var fields := TreeOf(h, r).fields;
            k in fields && fields[k].Branch? && t.fields[k].Branch? ==> Merge(fields[k], t.fields[k]) == t.fields[k]
  {
    MergeGood(h, r, t);
    var fields := TreeOf(h, r).fields;
    if k in fields && fields[k].Branch? && t.fields[k].Branch? {
      assert Merge(TreeOf(h, r), t).fields[k] == Merge(fields[k], t.fields[k]);
    }
  }

  /** An empty object that is to be the picked tree's own. */
  lemma AddEmpty(h: Heap, height: nat, path: Path)
    requires Valid(h)
    ensures var i := Added(h, map[], Shape(height, Own(path)));
            Valid(i) && Extends(h, i) && KeepsShared(h, i) && TreeOf(i, |h.objects|) == Branch(map[])
            && forall m: Tree :: m.Branch? ==> Good(i, |h.objects|, m)
  {
    var i := Added(h, map[], Shape(height, Own(path)));
    forall r, k | 0 <= r < |i.objects| && k in i.objects[r] ensures FieldOk(i, r, k) { assert FieldOk(h, r, k); }
    ExtensionKeepsShared(h, i);
  }

  /** There is an empty object that can become the next one on the way. */
  ghost predicate CanHangOn(h: Heap, messages: nat, picked: nat, m: Tree, path: Path, n: nat, target: nat, added: nat) {
    && Reached(h, messages, picked, m, path, n, target) && n + 1 < |path| && At(m, path).Some?
    && h.shapes[target].kind == Own(path[..n]) && path[n] !in h.objects[target]
    && added < |h.objects| && h.objects[added] == map[] && h.shapes[target].height > 0
    && h.shapes[added] == Shape(h.shapes[target].height - 1, Own(path[..n + 1]))
  }

  lemma HangOnKeeps(h: Heap, messages: nat, picked: nat, m: Tree, path: Path, n: nat, target: nat, added: nat)
    requires CanHangOn(h, messages, picked, m, path, n, target, added)
    ensures var j := Written(h, target, path[n], Ref(added));
            Valid(j) && KeepsShared(h, j) && Picking(j, messages, picked, m)
  {
    var key, j := path[n], Written(h, target, path[n], Ref(added));
    AtPrefix(m, path, n);
    AtPrefix(m, path, n + 1);
    assert path[..n] + [key] == path[..n + 1];
    WrittenIsValid(h, target, key, Ref(added));
    OwnWriteKeepsShared(h, target, key, Ref(added));
    assert SameTree(h, j, messages);
    WritingKeepsGood(h, picked, path[..n], target, key, Ref(added), m, At(m, path[..n + 1]).value);
  }

  lemma HangOnReaches(h: Heap, messages: nat, picked: nat, m: Tree, path: Path, n: nat, target: nat, added: nat)
    requires CanHangOn(h, messages, picked, m, path, n, target, added)
    ensures Reached(Written(h, target, path[n], Ref(added)), messages, picked, m, path, n + 1, added)
  {
    var key, j := path[n], Written(h, target, path[n], Ref(added));
    HangOnKeeps(h, messages, picked, m, path, n, target, added);
    AtPrefix(m, path, n);
    AtPrefix(m, path, n + 1);
    WayStays(h, picked, path[..n], target, key, Ref(added));
    LeadsFurther(j, picked, path[..n], target, key);
    assert path[..n] + [key] == path[..n + 1];
  }

  lemma HangOnPuts(h: Heap, messages: nat, picked: nat, m: Tree, path: Path, n: nat, target: nat, added: nat, v: Tree)
    requires CanHangOn(h, messages, picked, m, path, n, target, added) && Valid(Written(h, target, path[n], Ref(added)))
    ensures Put(Some(TreeOf(Written(h, target, path[n], Ref(added)), picked)), path, v) == Put(Some(TreeOf(h, picked)), path, v)
  {
    assert TreeOf(h, added) == Branch(map[]);
    WritingSets(h, picked, path[..n], target, path[n], Ref(added));
    assert TreeOf(h, target).fields.Keys == h.objects[target].Keys;
    assert path == path[..n] + [path[n]] + path[n + 1..];
    PutMakesTheWay(TreeOf(h, picked), path[..n], path[n], path[n + 1..], v);
  }

  lemma ReadyToHangOn(h: Heap, messages: nat, picked: nat, m: Tree, path: Path, n: nat, target: nat)
    requires Reached(h, messages, picked, m, path, n, target) && n + 1 < |path| && At(m, path).Some?
    requires !(path[n] in h.objects[target] && h.objects[target][path[n]].Ref?)
    ensures h.shapes[target].height > 0
    ensures var i := Added(h, map[], Shape(h.shapes[target].height - 1, Own(path[..n + 1])));
            CanHangOn(i, messages, picked, m, path, n, target, |h.objects|) && KeepsShared(h, i) && TreeOf(i, picked) == TreeOf(h, picked)
  {
    NothingThere(h, messages, picked, m, path, n, target);
    var shape := Shape(h.shapes[target].height - 1, Own(path[..n + 1]));
    AddEmpty(h, shape.height, shape.kind.path);
    var i := Added(h, map[], shape);
    StillReached(h, i, messages, picked, m, path, n, target);
    assert i.objects[target] == h.objects[target] && i.shapes[target] == h.shapes[target];
    assert i.objects[|h.objects|] == map[] && i.shapes[|h.objects|] == shape;
    ExtensionKeepsTree(h, i, picked);
  }

  /** From heap `h` to `j` the way has become one key longer, and the picked tree has not lost anything by it. */
  ghost predicate OneFurther(h: Heap, j: Heap, messages: nat, picked: nat, m: Tree, path: Path, n: nat, next: nat)
    requires Valid(h) && picked < |h.objects| && At(m, path).Some?
  {
    && Reached(j, messages, picked, m, path, n + 1, next) && KeepsShared(h, j)
    && Put(Some(TreeOf(j, picked)), path, At(m, path).value) == Put(Some(TreeOf(h, picked)), path, At(m, path).value)
  }

  /** A new empty object on the way. */
  lemma MakeTheWay(h: Heap, messages: nat, picked: nat, m: Tree, path: Path, n: nat, target: nat, shape: Shape)
    requires Reached(h, messages, picked, m, path, n, target) && n + 1 < |path| && At(m, path).Some?
    requires !(path[n] in h.objects[target] && h.objects[target][path[n]].Ref?)
    requires shape.height + 1 == h.shapes[target].height && shape.kind == Own(path[..n + 1])
    ensures OneFurther(h, Written(Added(h, map[], shape), target, path[n], Ref(|h.objects|)), messages, picked, m, path, n, |h.objects|)
  {
    ReadyToHangOn(h, messages, picked, m, path, n, target);
    var i := Added(h, map[], shape);
    HangOnKeeps(i, messages, picked, m, path, n, target, |h.objects|);
    HangOnReaches(i, messages, picked, m, path, n, target, |h.objects|);
    HangOnPuts(i, messages, picked, m, path, n, target, |h.objects|, At(m, path).value);
    KeepsSharedTrans(h, i, Written(i, target, path[n], Ref(|h.objects|)));
  }

  lemma {:induction false} WayStaysExtended(h: Heap, i: Heap, r: nat, path: Path, t: nat)
    requires Valid(h) && Valid(i) && Extends(h, i) && r < |h.objects| && Leads(h, r, path, t)
    ensures Leads(i, r, path, t)
    decreases |path|
  {
    if path != [] {
      assert FieldOk(h, r, path[0]);
      WayStaysExtended(h, i, h.objects[r][path[0]].id, path[1..], t);
    }
  }

  lemma StillReached(h: Heap, i: Heap, messages: nat, picked: nat, m: Tree, path: Path, n: nat, target: nat)
    requires Reached(h, messages, picked, m, path, n, target) && Valid(i) && Extends(h, i)
    ensures Reached(i, messages, picked, m, path, n, target)
  {
    ExtensionKeepsTree(h, i, messages);
    ExtensionKeepsGood(h, i, picked, m);
    ExtensionKeepsGood(h, i, target, At(m, path[..n]).value);
    WayStaysExtended(h, i, picked, path[..n], target);
  }

  /** Writing at the end of a way leaves the way as it is. */
  lemma {:induction false} WayStays(h: Heap, r: nat, path: Path, t: nat, k: string, v: Value)
    requires Valid(h) && r < |h.objects| && Leads(h, r, path, t) && t < |h.objects| && h.shapes[t].kind.Own?
    requires Valid(Written(h, t, k, v))
    ensures Leads(Written(h, t, k, v), r, path, t)
    decreases |path|
  {
    if path != [] {
      OnTheWay(h, r, path, t);
      assert FieldOk(h, r, path[0]);
      assert r != t;
      WayStays(h, h.objects[r][path[0]].id, path[1..], t, k, v);
    }
  }

  lemma StandsForKept(h: Heap, i: Heap, v: Value, height: int, t: Tree)
    requires Valid(h) && Valid(i) && KeepsShared(h, i) && StandsFor(h, v, height, t)
    ensures StandsFor(i, v, height, t)
  {
    if v.Ref? { assert SameTree(h, i, v.id); }
  }

  /** Before the last field is written: either both trees can be merged, or the catalog's value will do. */
  lemma LastField(h: Heap, messages: nat, picked: nat, m: Tree, path: Path, target: nat, source: Value)
    requires path != [] && Reached(h, messages, picked, m, path, |path| - 1, target) && At(m, path).Some?
    requires StandsFor(h, source, h.shapes[messages].height + 1 - |path|, At(m, path).value)
    ensures var k := path[|path| - 1];
            if k in h.objects[target] && h.objects[target][k].Ref? && source.Ref?
            then Mergeable(h, h.objects[target][k].id, source.id) && h.shapes[h.objects[target][k].id].height < h.shapes[target].height
                 && TreeOf(h, source.id) == At(m, path).value
            else StandsFor(h, source, h.shapes[target].height, At(m, path).value)
  {
    var n, k := |path| - 1, path[|path| - 1];
    AtPrefix(m, path, n);
    assert path[..n + 1] == path;
    GoodFields(h, target, At(m, path[..n]).value, k);
    if k in h.objects[target] { assert FieldOk(h, target, k); }
  }

  /** After one entry. */
  ghost predicate Entered(h: Heap, i: Heap, messages: nat, picked: nat, m: Tree, path: Path)
    requires Picking(h, messages, picked, m)
  {
    && Picking(i, messages, picked, m) && KeepsShared(h, i)
    && TreeOf(i, picked) == match At(m, path)
                            case None => TreeOf(h, picked)
                            case Some(v) => Put(Some(TreeOf(h, picked)), path, v)
  }

  /** When nothing is being picked any more, every object may be shared again. */
  lemma Released(h: Heap, i: Heap)
    requires Valid(h) && i.objects == h.objects && |i.shapes| == |h.shapes|
    requires forall r :: 0 <= r < |h.shapes| ==> i.shapes[r] == Shape(h.shapes[r].height, Shared)
    ensures Valid(i)
    ensures forall r: nat :: r < |h.objects| ==> TreeOf(i, r) == TreeOf(h, r)
  {
    forall r, k | 0 <= r < |i.objects| && k in i.objects[r] ensures FieldOk(i, r, k) { assert FieldOk(h, r, k); }
    forall r: nat | r < |h.objects| ensures TreeOf(i, r) == TreeOf(h, r) { ReleasedTree(h, i, r); }
  }

  lemma {:induction false} ReleasedTree(h: Heap, i: Heap, r: nat)
    requires Valid(h) && Valid(i) && i.objects == h.objects && r < |h.objects|
    ensures TreeOf(i, r) == TreeOf(h, r)
    decreases h.shapes[r].height
  {
    forall k | k in h.objects[r] ensures FieldOf(i, r, k) == FieldOf(h, r, k) {
      assert FieldOk(h, r, k);
      if h.objects[r][k].Ref? { ReleasedTree(h, i, h.objects[r][k].id); }
    }
  }

  // ---------------------------------------------------------------------------------------------
  // The code.

  class Objects {
    var objects: seq<map<string, Value>>
    ghost var shapes: seq<Shape>

    ghost function View(): Heap
      reads this
    {
      Heap(objects, shapes)
    }

    constructor (objects: seq<map<string, Value>>, ghost shapes: seq<Shape>)
      requires Valid(Heap(objects, shapes))
      ensures View() == Heap(objects, shapes)
    {
      this.objects, this.shapes := objects, shapes;
    }

    method New(fields: map<string, Value>, ghost shape: Shape) returns (r: nat)
      modifies this
      ensures View() == Added(old(View()), fields, shape) && r == |old(objects)|
    {
      r := |objects|;
      objects, shapes := objects + [fields], shapes + [shape];
    }

    method Assign(r: nat, k: string, v: Value)
      requires r < |objects|
      modifies this`objects
      ensures View() == Written(old(View()), r, k, v)
    {
      objects := objects[r := objects[r][k := v]];
    }

    /** A new object that stands for the tree `t`. */
    method Add(fields: map<string, Value>, ghost height: nat, ghost t: Tree) returns (r: nat)
      requires Valid(View()) && t.Branch? && fields.Keys == t.fields.Keys && Done(View(), fields, t.fields.Keys, height, t)
      modifies this
      ensures Valid(View()) && Extends(old(View()), View())
      ensures r == |old(objects)| && |objects| == |old(objects)| + 1
      ensures shapes[r] == Shape(height, Shared) && TreeOf(View(), r) == t
    {
      AddedIsValid(View(), fields, height, t);
      r := New(fields, Shape(height, Shared));
    }

    /** `mergeTrees`: a new object; what is there stays as it is. */
    method MergeTrees(a: nat, b: nat) returns (merged: nat)
      requires Valid(View()) && Mergeable(View(), a, b)
      modifies this
      ensures Valid(View()) && Extends(old(View()), View()) && SharedFrom(View(), |old(objects)|)
      ensures |old(objects)| <= merged < |objects| && shapes[merged] == Shape(old(shapes[a].height), Shared)
      ensures TreeOf(View(), merged) == Merge(TreeOf(old(View()), a), TreeOf(old(View()), b)) == TreeOf(old(View()), b)
      decreases shapes[a].height, 1
    {
      ghost var h, height := View(), shapes[a].height;
      ghost var whole := TreeOf(h, b);
      MergeableKeys(h, a, b);
      var fields := objects[a];
      var entries := objects[b];
      var todo := entries.Keys;
      assert todo == whole.fields.Keys;
      while todo != {}
        invariant todo <= entries.Keys == whole.fields.Keys && fields.Keys == h.objects[a].Keys + (entries.Keys - todo)
        invariant Valid(View()) && Extends(h, View()) && SharedFrom(View(), |h.objects|)
        invariant forall k :: k in todo && k in fields ==> fields[k] == h.objects[a][k]
        invariant Done(View(), fields, entries.Keys - todo, height, whole)
        decreases todo
      {
        var key :| key in todo;
        ghost var before := View();
        var v := MergeField(a, b, key, if key in fields then Some(fields[key]) else None, entries[key], h);
        DoneWithOneMore(before, View(), fields, entries.Keys - todo, height, whole, key, v);
        assert entries.Keys - (todo - {key}) == entries.Keys - todo + {key};
        fields := fields[key := v];
        todo := todo - {key};
      }
      assert entries.Keys - todo == whole.fields.Keys;
      merged := Add(fields, height, whole);
    }

    /** One entry of the loop in `mergeTrees`; the merge began in heap `h`. */
    method MergeField(ghost a: nat, ghost b: nat, ghost key: string, existing: Option<Value>, value: Value, ghost h: Heap) returns (v: Value)
      requires Valid(h) && Mergeable(h, a, b) && Valid(View()) && Extends(h, View()) && SharedFrom(View(), |h.objects|)
      requires key in h.objects[b] && value == h.objects[b][key]
      requires existing == if key in h.objects[a] then Some(h.objects[a][key]) else None
      modifies this
      ensures Valid(View()) && Extends(old(View()), View()) && SharedFrom(View(), |h.objects|)
      ensures StandsFor(View(), v, h.shapes[a].height, FieldOf(h, b, key))
      decreases h.shapes[a].height, 0
    {
      MergeableField(h, a, b, key);
      if existing.Some? && existing.value.Ref? && value.Ref? {
        MergeableStays(h, View(), existing.value.id, value.id);
        ExtensionKeepsTree(h, View(), value.id);
        var n := MergeTrees(existing.value.id, value.id);
        v := Ref(n);
      } else {
        StandsForStays(h, View(), value, h.shapes[a].height, FieldOf(h, b, key));
        v := value;
      }
    }

    /** The first loop: what the catalog has at the path. */
    method Find(messages: nat, path: Path) returns (source: Option<Value>)
      requires Valid(View()) && messages < |objects| && shapes[messages].kind.Shared?
      ensures source.Some? <==> At(TreeOf(View(), messages), path).Some?
      ensures source.Some? ==> StandsFor(View(), source.value, shapes[messages].height + 1 - |path|, At(TreeOf(View(), messages), path).value)
    {
      ghost var m, height := TreeOf(View(), messages), shapes[messages].height;
      source := Some(Ref(messages));
      for n := 0 to |path|
        invariant source.Some? <==> At(m, path[..n]).Some?
        invariant source.Some? ==> StandsFor(View(), source.value, height + 1 - n, At(m, path[..n]).value)
      {
        var key := path[n];
        AtNext(m, path[..n], key);
        assert path[..n] + [key] == path[..n + 1];
        if source.Some? && source.value.Ref? && key in objects[source.value.id] {
          ghost var r := source.value.id;
          assert FieldOk(View(), r, key) && TreeOf(View(), r).fields[key] == FieldOf(View(), r, key);
          source := Some(objects[source.value.id][key]);
        } else {
          source := None;
        }
      }
      assert path[..|path|] == path;
    }

    /** One key of the second loop: what it refers to, made if it is missing. */
    method Step(ghost messages: nat, ghost picked: nat, path: Path, n: nat, target: nat, ghost m: Tree) returns (next: nat)
      requires Reached(View(), messages, picked, m, path, n, target) && n + 1 < |path| && At(m, path).Some?
      modifies this
      ensures OneFurther(old(View()), View(), messages, picked, m, path, n, next)
    {
      var key := path[n];
      ghost var h := View();
      if key in objects[target] && objects[target][key].Ref? {
        next := objects[target][key].id;
        ReachedNext(h, messages, picked, m, path, n, target);
        ExtensionKeepsShared(h, h);
      } else {
        NothingThere(h, messages, picked, m, path, n, target);
        ghost var shape := Shape(shapes[target].height - 1, Own(path[..n + 1]));
        MakeTheWay(h, messages, picked, m, path, n, target, shape);
        next := Make(target, key, shape);
      }
    }

    /** A new empty object, assigned to a field. */
    method Make(target: nat, key: string, ghost shape: Shape) returns (next: nat)
      requires target < |objects|
      modifies this
      ensures next == |old(objects)| && View() == Written(Added(old(View()), map[], shape), target, key, Ref(next))
    {
      next := New(map[], shape);
      Assign(target, key, Ref(next));
    }

    /** The second loop: down to the object to be written. */
    method Walk(messages: nat, picked: nat, path: Path, ghost m: Tree) returns (target: nat)
      requires Picking(View(), messages, picked, m) && path != [] && At(m, path).Some?
      modifies this
      ensures Reached(View(), messages, picked, m, path, |path| - 1, target) && KeepsShared(old(View()), View())
      ensures Put(Some(TreeOf(View(), picked)), path, At(m, path).value) == Put(Some(TreeOf(old(View()), picked)), path, At(m, path).value)
    {
      target := picked;
      assert path[..0] == [];
      ExtensionKeepsShared(View(), View());
      for n := 0 to |path| - 1
        invariant Reached(View(), messages, picked, m, path, n, target) && KeepsShared(old(View()), View())
        invariant Put(Some(TreeOf(View(), picked)), path, At(m, path).value) == Put(Some(TreeOf(old(View()), picked)), path, At(m, path).value)
      {
        ghost var h := View();
        target := Step(messages, picked, path, n, target, m);
        KeepsSharedTrans(old(View()), h, View());
      }
    }

    /** The assignment at the end of an entry. */
    method WriteLeaf(ghost messages: nat, ghost picked: nat, path: Path, target: nat, source: Value, ghost m: Tree)
      requires path != [] && Reached(View(), messages, picked, m, path, |path| - 1, target) && At(m, path).Some?
      requires StandsFor(View(), source, shapes[messages].height + 1 - |path|, At(m, path).value)
      modifies this
      ensures Entered(old(View()), View(), messages, picked, m, path)
    {
      ghost var h := View();
      LastField(h, messages, picked, m, path, target, source);
      var leaf, value := path[|path| - 1], source;
      if leaf in objects[target] && objects[target][leaf].Ref? && source.Ref? {
        var merged := MergeTrees(objects[target][leaf].id, source.id);
        value := Ref(merged);
        StillReached(h, View(), messages, picked, m, path, |path| - 1, target);
      }
      ghost var i := View();
      ExtensionKeepsShared(h, i);
      ExtensionKeepsTree(h, i, picked);
      if shapes[target].kind.Shared? {
        WriteShared(i, messages, picked, m, path, target, value);
      } else {
        WriteOwn(i, messages, picked, m, path, target, value);
      }
      Assign(target, leaf, value);
      KeepsSharedTrans(h, i, View());
    }

    /** What one entry of the list does. */
    method PickOne(messages: nat, picked: nat, path: Path, ghost m: Tree)
      requires Picking(View(), messages, picked, m) && path != []
      modifies this
      ensures Entered(old(View()), View(), messages, picked, m, path)
    {
      ghost var h := View();
      var source := Find(messages, path);
      if source.None? {
        ExtensionKeepsShared(h, h);
        return;
      }
      var target := Walk(messages, picked, path, m);
      ghost var i := View();
      StandsForKept(h, i, source.value, h.shapes[messages].height + 1 - |path|, At(m, path).value);
      assert SameTree(h, i, messages);
      WriteLeaf(messages, picked, path, target, source.value, m);
      KeepsSharedTrans(h, i, View());
    }

    /**
     `pickMessages`. The picked tree is the projection of the catalog onto the entries, and every object
     there was, the catalog's above all, stands for the same tree as before, although it may have been
     written to.
     */
    method PickMessages(messages: nat, namespaces: seq<Path>) returns (picked: nat)
      requires Valid(View()) && messages < |objects| && SharedFrom(View(), 0)
      requires forall p :: p in namespaces ==> p != []
      modifies this
      ensures Valid(View()) && SharedFrom(View(), 0) && |old(objects)| <= picked < |objects|
      ensures TreeOf(View(), picked) == OrEmpty(Select(TreeOf(old(View()), messages), SetOf(namespaces)))
      ensures forall r: nat :: r < |old(objects)| ==> TreeOf(View(), r) == TreeOf(old(View()), r)
    {
      ghost var h, m := View(), TreeOf(View(), messages);
      AddEmpty(h, shapes[messages].height, []);
      picked := New(map[], Shape(shapes[messages].height, Own([])));
      ExtensionKeepsTree(h, View(), messages);
      for n := 0 to |namespaces|
        invariant Picking(View(), messages, picked, m) && KeepsShared(h, View()) && picked == |h.objects|
        invariant TreeOf(View(), picked) == Pick(m, namespaces[..n])
      {
        ghost var i := View();
        assert namespaces[n] in namespaces;
        PickOne(messages, picked, namespaces[n], m);
        assert namespaces[..n + 1][..n] == namespaces[..n];
        KeepsSharedTrans(h, i, View());
      }
      assert namespaces[..|namespaces|] == namespaces;
      ghost var j := View();
      forall r: nat | r < |h.objects| ensures TreeOf(j, r) == TreeOf(h, r) { assert SameTree(h, j, r); }
      shapes := seq(|shapes|, r requires 0 <= r < |j.shapes| => Shape(j.shapes[r].height, Shared));
      Released(j, View());
      PickIsSelect(m, namespaces);
    }
  }
}
