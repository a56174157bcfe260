/** Merging named layers in order, and remembering which one each leaf came from. */
module Provenance {
  import opened Wrappers
  import opened Merge

  datatype Layer = Layer(name: Name, data: Tree)

  datatype Merged = Merged(data: Tree, provenance: map<Path, Name>)

  /** A leaf of a configuration; an empty block is one too. */
  predicate Leafish(t: Tree) {
    !t.Block? || t.fields == map[]
  }

  function Lookup<V>(m: map<Path, V>, p: Path): Option<V> {
    if p in m then Some(m[p]) else None
  }

  // ---------------------------------------------------------------------------
  // What one layer does to the record
  // ---------------------------------------------------------------------------

  /** The record of a path `r` below a node of the layer, when `was` is what it was before. */
  function Below(node: Tree, r: Path, was: Option<Name>, survives: bool, layer: Name): Option<Name>
    decreases |r|
  {
    if node.Delete? then None
    else if Leafish(node) then (if r == [] && survives then Some(layer) else was)
    else if r != [] && r[0] in node.fields then Below(node.fields[r[0]], r[1..], was, survives, layer)
    else was
  }

  function Tracked(was: map<Path, Name>, node: Tree, path: Path, layer: Name, merged: Tree, q: Path): Option<Name> {
    if path <= q then Below(node, q[|path|..], Lookup(was, q), At(merged, q).Some?, layer) else Lookup(was, q)
  }

  class Tracker {
    var provenance: map<Path, Name>

    constructor ()
      ensures provenance == map[]
    {
      provenance := map[];
    }

    method Register(path: Path, layer: Name)
      modifies this
      ensures provenance == old(provenance)[path := layer]
    {
      provenance := provenance[path := layer];
    }

    /** Forgets a subtree that the sentinel removed. */
    method Prune(path: Path)
      modifies this
      ensures forall q :: Lookup(provenance, q) == if path <= q then None else Lookup(old(provenance), q)
    {
      provenance := map q | q in provenance && !(path <= q) :: provenance[q];
    }

    /** Records what `node` of the layer, at `path`, left in the merged tree. */
    method Track(node: Tree, path: Path, layer: Name, merged: Tree)
      modifies this
      ensures forall q :: Lookup(provenance, q) == Tracked(old(provenance), node, path, layer, merged, q)
      decreases node
    {
      if node.Delete? {
        Prune(path);
      } else if node.Block? && node.fields != map[] {
        var todo := node.fields.Keys;
        while todo != {}
          invariant todo <= node.fields.Keys
          invariant forall q {:trigger Lookup(provenance, q)} :: Lookup(provenance, q) ==
                      if path < q && q[|path|] in todo then Lookup(old(provenance), q)
                      else Tracked(old(provenance), node, path, layer, merged, q)
          decreases |todo|
        {
          var key :| key in todo;
          todo := todo - {key};
          ghost var before := provenance;
          Track(node.fields[key], path + [key], layer, merged);
          forall q ensures Lookup(provenance, q) ==
                      if path < q && q[|path|] in todo then Lookup(old(provenance), q)
                      else Tracked(old(provenance), node, path, layer, merged, q)
          {
            KeyTracked(old(provenance), before, node, path, key, layer, merged, q);
          }
        }
      } else {
        assert forall q {:trigger Lookup(provenance, q)} | path <= q
               && q[|path|..] == [] :: q == path[..] + q[|path|..] == path;
        if At(merged, path).Some? {
          Register(path, layer);
        }
      }
    }
  }

  /** What tracking one key does for any path. */
  lemma {:induction false} KeyTracked(old0: map<Path, Name>, before: map<Path, Name>, node: Tree, path: Path,
                                      key: Key, layer: Name, merged: Tree, q: Path)
    requires node.Block? && key in node.fields
    ensures path + [key] <= q <==> path < q && q[|path|] == key
    ensures path + [key] <= q && Lookup(before, q) == Lookup(old0, q) ==>
              Tracked(before, node.fields[key], path + [key], layer, merged, q) == Tracked(old0, node, path, layer,
                  merged, q)
    ensures !(path + [key] <= q) ==>
            Tracked(before, node.fields[key], path + [key], layer, merged, q) == Lookup(before, q)
  {
    if path < q && q[|path|] == key {
      assert q[|path|..][1..] == q[|path + [key]|..];
      assert path + [key] == q[..|path| + 1];
    }
  }

  // ---------------------------------------------------------------------------
  // Every live leaf
  // ---------------------------------------------------------------------------

  predicate Scalar(t: Tree) {
    t.Leaf? || t.Null?
  }

  /**
   A scalar of the result comes from the upper layer if that one declares its path, else from below,
   whatever the upper layer deletes. So does an empty block, unless deletions emptied it.
   */
  lemma {:induction false} LeafComesFrom(x: Tree, y: Tree, p: Path)
    requires x.Block? && y.Block? && Fits(x, y) && p != []
    requires At(Over(x, y), p).Some? && Leafish(At(Over(x, y), p).value)
    requires Scalar(At(Over(x, y), p).value) || Clean(y)
    ensures At(y, p).Some? ==> At(y, p) == At(Over(x, y), p)
    ensures At(y, p).None? ==> At(x, p) == At(Over(x, y), p)
    decreases |p|
  {
    var k, rest := p[0], p[1..];
    if k in y.fields && k in x.fields && x.fields[k].Block? && y.fields[k].Block? {
      if rest != [] {
        LeafComesFrom(x.fields[k], y.fields[k], rest);
      } else {
        var z := Over(x.fields[k], y.fields[k]);
        assert Clean(y.fields[k]);
        forall j | j in y.fields[k].fields ensures j in z.fields {
          assert Clean(y.fields[k].fields[j]);
        }
      }
    }
  }

  /** What the upper layer declares and does not delete is there in the result. */
  lemma {:induction false} DeclaredSurvives(x: Tree, y: Tree, p: Path)
    requires x.Block? && y.Block? && Fits(x, y) && At(y, p).Some? && !At(y, p).value.Delete?
    ensures At(Over(x, y), p).Some?
  {
    OverByPaths(x, y);
    var i := Parting(x, y, p);
    assert DecidedAt(x, y, Over(x, y), p[..i], p);
    if i < |p| {
      BlocksAbove(y, p, i);
    } else {
      assert p[..i] == p;
    }
  }

  /** The record of `p` by the layers alone: the last that declares it a leaf, unless deleted since. */
  ghost function Recorded(layers: seq<Layer>, p: Path): Option<Name> {
    if layers == [] then None
    else
      var top := layers[|layers| - 1];
      if Deleted(top.data, p) then None
      else if At(top.data, p).Some? && Leafish(At(top.data, p).value) then Some(top.name)
      else Recorded(layers[..|layers| - 1], p)
  }

  lemma {:induction false} DeletedBelow(y: Tree, p: Path)
    requires p != [] && y.Block?
    ensures Deleted(y, p) <==> p[0] in y.fields && Deleted(y.fields[p[0]], p[1..])
  {
    if Deleted(y, p) {
      var i :| 0 <= i <= |p| && At(y, p[..i]) == Some(Delete);
      assert i > 0 && p[..i][1..] == p[1..][..i - 1];
    }
    if p[0] in y.fields && Deleted(y.fields[p[0]], p[1..]) {
      var i :| 0 <= i <= |p| - 1 && At(y.fields[p[0]], p[1..][..i]) == Some(Delete);
      assert p[..i + 1][1..] == p[1..][..i];
    }
  }

  /** What a layer records below it. */
  lemma {:induction false} BelowRecords(y: Tree, p: Path, was: Option<Name>, layer: Name)
    ensures Below(y, p, was, true, layer) == if Deleted(y, p) then None
            else if At(y, p).Some? && Leafish(At(y, p).value) then Some(layer) else was
    decreases |p|
  {
    assert p[..0] == [];
    if p != [] && y.Block? {
      DeletedBelow(y, p);
      if p[0] in y.fields {
        BelowRecords(y.fields[p[0]], p[1..], was, layer);
      }
    } else {
      assert forall i | 0 < i <= |p| :: At(y, p[..i]).None?;
    }
  }

  /** One more layer keeps the record exact. */
  lemma {:induction false} LayerKeepsRecord(layers: seq<Layer>, m: Merged, layer: Layer, n: Merged, p: Path)
    requires p != [] && m.data.Block? && layer.data.Block?
    requires Fits(m.data, layer.data) && n.data == Over(m.data, layer.data)
    requires Lookup(n.provenance, p) == Tracked(m.provenance, layer.data, [], layer.name, n.data, p)
    requires Lookup(m.provenance, p) == Recorded(layers, p)
    ensures Lookup(n.provenance, p) == Recorded(layers + [layer], p)
  {
    assert p[0..] == p && (layers + [layer])[..|layers|] == layers;
    var was, survives := Lookup(m.provenance, p), At(n.data, p).Some?;
    BelowRecords(layer.data, p, was, layer.name);
    if At(layer.data, p).Some? && !At(layer.data, p).value.Delete? {
      DeclaredSurvives(m.data, layer.data, p);
    } else {
      OnlyLeavesCare(layer.data, p, was, layer.name);
    }
  }

  lemma {:induction false} OnlyLeavesCare(y: Tree, p: Path, was: Option<Name>, layer: Name)
    requires At(y, p).None? || At(y, p).value.Delete?
    ensures Below(y, p, was, false, layer) == Below(y, p, was, true, layer)
    decreases |p|
  {
    if p != [] && y.Block? && p[0] in y.fields {
      OnlyLeavesCare(y.fields[p[0]], p[1..], was, layer);
    }
  }

  /** `layers[i]` is the last layer that declares `p`, and it holds `t` there. */
  predicate Declares(layers: seq<Layer>, i: nat, p: Path, t: Tree)
    requires i < |layers|
  {
    At(layers[i].data, p) == Some(t) && forall j | i < j < |layers| :: At(layers[j].data, p).None?
  }

  /** The record names the last layer that declares the leaf, with the value it declares. */
  ghost predicate Attributed(layers: seq<Layer>, m: Merged, p: Path)
    requires At(m.data, p).Some?
  {
    exists i: nat :: i < |layers| && Declares(layers, i, p, At(m.data, p).value)
        && Lookup(m.provenance, p) == Some(layers[i].name)
  }

  predicate LiveLeaf(m: Merged, p: Path) {
    p != [] && At(m.data, p).Some? && Leafish(At(m.data, p).value)
  }

  predicate AllClean(layers: seq<Layer>) {
    forall i | 0 <= i < |layers| :: Clean(layers[i].data)
  }

  /** Every live scalar is attributed, and without sentinels every live empty block too. */
  ghost predicate AllAttributed(layers: seq<Layer>, m: Merged) {
    forall p | LiveLeaf(m, p) :: Scalar(At(m.data, p).value) || AllClean(layers) ==> Attributed(layers, m, p)
  }

  /** Layers in order, the first one below; None is a conflict. */
  function Stack(base: Tree, layers: seq<Layer>): Option<Tree> {
    if layers == [] then Some(base)
    else Join(Stack(base, layers[..|layers| - 1]), Some(layers[|layers| - 1].data))
  }

  /** One more layer keeps every live leaf attributed. */
  lemma {:induction false} LayerKeepsAttribution(layers: seq<Layer>, m: Merged, layer: Layer, n: Merged, p: Path)
    requires AllAttributed(layers, m) && m.data.Block? && layer.data.Block?
    requires Fits(m.data, layer.data) && n.data == Over(m.data, layer.data)
    requires Lookup(n.provenance, p) == Tracked(m.provenance, layer.data, [], layer.name, n.data, p)
    requires LiveLeaf(n, p) && (Scalar(At(n.data, p).value) || (AllClean(layers) && Clean(layer.data)))
    ensures Attributed(layers + [layer], n, p)
  {
    var all := layers + [layer];
    LeafComesFrom(m.data, layer.data, p);
    NoSentinelAt(layer.data, p);
    BelowRecords(layer.data, p, Lookup(m.provenance, p), layer.name);
    if Deleted(layer.data, p) {
      DeletedIsGone(m.data, layer.data, p);
    }
    assert p[0..] == p && [] <= p;
    if At(layer.data, p).Some? {
      assert Declares(all, |layers|, p, At(n.data, p).value);
    } else {
      assert LiveLeaf(m, p);
      var i: nat :| i < |layers| && Declares(layers, i, p, At(m.data, p).value)
          && Lookup(m.provenance, p) == Some(layers[i].name);
      assert Declares(all, i, p, At(n.data, p).value);
    }
  }

  lemma {:induction false} NoSentinelAt(t: Tree, p: Path)
    ensures Clean(t) ==> At(t, p) != Some(Delete) && !Deleted(t, p)
  {
    if Clean(t) {
      forall i | 0 <= i <= |p| ensures At(t, p[..i]) != Some(Delete) {
        CleanAt(t, p[..i]);
      }
      assert p[..|p|] == p;
    }
  }

  lemma {:induction false} CleanAt(t: Tree, p: Path)
    requires Clean(t)
    ensures At(t, p) != Some(Delete)
    decreases |p|
  {
    if p != [] && t.Block? && p[0] in t.fields {
      CleanAt(t.fields[p[0]], p[1..]);
    }
  }

  /** An empty layer changes nothing. */
  lemma {:induction false} EmptyLayerIsSkipped(layers: seq<Layer>, m: Merged, layer: Layer)
    requires AllAttributed(layers, m) && m.data.Block? && layer.data == EMPTY
    ensures Fits(m.data, EMPTY) && Over(m.data, EMPTY) == m.data
    ensures AllAttributed(layers + [layer], m)
    ensures forall p | p != [] :: Recorded(layers + [layer], p) == Recorded(layers, p)
  {
    assert (layers + [layer])[..|layers|] == layers;
    assert Over(m.data, EMPTY).fields == m.data.fields;
    forall p | p != [] ensures Recorded(layers + [layer], p) == Recorded(layers, p) {
      NoSentinelAt(EMPTY, p);
    }
    assert AllClean(layers + [layer]) ==> AllClean(layers) by {
      assert forall i | 0 <= i < |layers| :: layers[i] == (layers + [layer])[i];
    }
    forall p | LiveLeaf(m, p) && (Scalar(At(m.data, p).value) || AllClean(layers + [layer]))
      ensures Attributed(layers + [layer], m, p)
    {
      var i: nat :| i < |layers| && Declares(layers, i, p, At(m.data, p).value)
          && Lookup(m.provenance, p) == Some(layers[i].name);
      assert Declares(layers + [layer], i, p, At(m.data, p).value);
    }
  }

  /** Where a merge failed: the layer that brought the conflict, and the path. */
  datatype Conflict = Conflict(layer: Name, path: Path)

  /**
   Merges the layers in order. Every live scalar of the result is attributed to the last layer that
   declares it, and every record is the one that the layers alone say; an error names a layer that
   really clashes with the ones before it.
   */
  method MergeLayers(layers: seq<Layer>) returns (r: Result<Merged, Conflict>)
    requires forall i | 0 <= i < |layers| :: layers[i].data.Block?
    ensures r.Ok? <==> Stack(EMPTY, layers).Some?
    ensures r.Ok? ==> Some(r.value.data) == Stack(EMPTY, layers)
    ensures r.Ok? ==> AllAttributed(layers, r.value)
    ensures r.Ok? ==> forall p | p != [] :: Lookup(r.value.provenance, p) == Recorded(layers, p)
    ensures r.Err? ==>
              exists i: nat ::
                && i < |layers| && layers[i].name == r.error.layer && Stack(EMPTY, layers[..i]).Some?
                && ClashAt(Stack(EMPTY, layers[..i]).value, layers[i].data, r.error.path)
  {
    var data := EMPTY;
    var tracker := new Tracker();
    var i := 0;
    assert layers[..0] == [];
    while i < |layers|
      invariant 0 <= i <= |layers|
      invariant data.Block? && Stack(EMPTY, layers[..i]) == Some(data)
      invariant AllAttributed(layers[..i], Merged(data, tracker.provenance))
      invariant forall p | p != [] :: Lookup(tracker.provenance, p) == Recorded(layers[..i], p)
    {
      var layer := layers[i];
      ghost var before := Merged(data, tracker.provenance);
      assert layers[..i + 1] == layers[..i] + [layer];
      assert layers[..i + 1][..i] == layers[..i];
      if layer.data == EMPTY {
        EmptyLayerIsSkipped(layers[..i], before, layer);
      } else {
        var merged := DeepMerge(data, layer.data);
        if merged.Err? {
          StackFailsOnce(layers, i);
          return Err(Conflict(layer.name, merged.error));
        }
        data := merged.value;
        tracker.Track(layer.data, [], layer.name, data);
        LayerKeepsAll(layers[..i], before, layer, Merged(data, tracker.provenance));
      }
      i := i + 1;
    }
    assert layers[..i] == layers;
    return Ok(Merged(data, tracker.provenance));
  }

  lemma {:induction false} LayerKeepsAll(layers: seq<Layer>, m: Merged, layer: Layer, n: Merged)
    requires AllAttributed(layers, m) && m.data.Block? && layer.data.Block?
    requires Fits(m.data, layer.data) && n.data == Over(m.data, layer.data)
    requires forall q :: Lookup(n.provenance, q) == Tracked(m.provenance, layer.data, [], layer.name, n.data, q)
    requires forall p | p != [] :: Lookup(m.provenance, p) == Recorded(layers, p)
    ensures AllAttributed(layers + [layer], n)
    ensures forall p | p != [] :: Lookup(n.provenance, p) == Recorded(layers + [layer], p)
  {
    forall p | p != [] ensures Lookup(n.provenance, p) == Recorded(layers + [layer], p) {
      LayerKeepsRecord(layers, m, layer, n, p);
    }
    if AllClean(layers + [layer]) {
      assert forall i | 0 <= i < |layers| :: layers[i] == (layers + [layer])[i];
      assert layer == (layers + [layer])[|layers|];
    }
    forall p | LiveLeaf(n, p) && (Scalar(At(n.data, p).value) || AllClean(layers + [layer]))
      ensures Attributed(layers + [layer], n, p)
    {
      LayerKeepsAttribution(layers, m, layer, n, p);
    }
  }

  const BASE := Layer("base", Single("a", X1))
  const TOP := Layer("top", Single("a", Single("x", Delete)))

  lemma {:induction false} EmptiedByDeletion()
    ensures Stack(EMPTY, [BASE, TOP]).Some? && At(Stack(EMPTY, [BASE, TOP]).value, ["a"]) == Some(EMPTY)
  {
    hide Recorded, Deleted;
    assert [BASE, TOP][..1] == [BASE] && [BASE][..0] == [];
    OverNothing(BASE.data);
    assert Stack(EMPTY, [BASE]) == Some(BASE.data);
    assert Over(X1, Single("x", Delete)).fields == map[];
    assert Over(BASE.data, TOP.data).fields["a"] == EMPTY;
    AtBelow(Over(BASE.data, TOP.data), "a", []);
    assert ["a"] + [] == ["a"];
  }

  /** A block that a deletion emptied is a live leaf, and no layer is named for it. */
  lemma {:induction false} EmptiedIsUnattributed()
    ensures Stack(EMPTY, [BASE, TOP]).Some? && At(Stack(EMPTY, [BASE, TOP]).value, ["a"]) == Some(EMPTY)
    ensures Recorded([BASE, TOP], ["a"]).None?
  {
    EmptiedByDeletion();
    hide Stack, Over, Fits;
    assert ["a"][..0] == [] && ["a"][..1] == ["a"] == ["a"] + [];
    AtBelow(BASE.data, "a", []);
    AtBelow(TOP.data, "a", []);
    assert !Deleted(TOP.data, ["a"]) && !Deleted(BASE.data, ["a"]);
    assert "x" in X1.fields && "x" in Single("x", Delete).fields;
    assert [BASE, TOP][..1] == [BASE] && [BASE][..0] == [];
    assert Recorded([BASE], ["a"]) == Recorded([BASE][..0], ["a"]) == None;
    assert Recorded([BASE, TOP], ["a"]) == Recorded([BASE, TOP][..1], ["a"]);
  }

  /** A conflict is not repaired by later layers. */
  lemma {:induction false} StackFailsOnce(layers: seq<Layer>, i: nat)
    requires i < |layers| && Stack(EMPTY, layers[..i + 1]).None?
    ensures Stack(EMPTY, layers).None?
    decreases |layers|
  {
    if i + 1 < |layers| {
      assert layers[..|layers| - 1][..i + 1] == layers[..i + 1];
      StackFailsOnce(layers[..|layers| - 1], i);
    } else {
      assert layers[..i + 1] == layers;
    }
  }

  // ---------------------------------------------------------------------------
  // Paths as dotted strings
  // ---------------------------------------------------------------------------

  predicate DotFree(p: Path) {
    forall i | 0 <= i < |p| :: '.' !in p[i]
  }

  /** The text that the source keeps a path as. */
  function Dotted(p: Path): string
    requires p != []
  {
    if |p| == 1 then p[0] else p[0] + "." + Dotted(p[1..])
  }

  lemma {:induction false} NoDotInside(s: string, key: Key)
    requires '.' !in key
    ensures !(s + "." <= key)
  {
    var t := s + ".";
    assert t[|s|] == '.';
    assert forall i | 0 <= i < |key| :: key[i] in key;
    assert forall i | 0 <= i < |t| && |t| <= |key| :: key[..|t|][i] == key[i];
  }

  /** A first key without dots can be read back. */
  lemma {:induction false} FirstKey(a: Key, b: Key, rest: string)
    requires '.' !in a && '.' !in b
    ensures a + "." <= b + "." + rest <==> a == b
  {
    var s, t := b + "." + rest, a + ".";
    assert a == b ==> s == t + rest;
    assert s[|b|] == '.' == t[|a|];
    assert forall i | 0 <= i < |b| :: s[i] == b[i];
    assert forall i | 0 <= i < |a| :: t[i] == a[i];
    if t <= s {
      assert forall i | 0 <= i < |t| :: t[i] == s[i];
      assert |a| == |b|;
    }
  }

  lemma {:induction false} SharedHead(h: string, x: string, y: string)
    ensures h + x == h + y <==> x == y
    ensures h + x <= h + y <==> x <= y
  {
    assert (h + x)[|h|..] == x && (h + y)[|h|..] == y;
    if h + x <= h + y {
      assert h + y == (h + x) + (h + y)[|h + x|..];
      assert y == x + y[|x|..];
    }
  }

  /** For keys without dots, the source's test on strings finds exactly the subtree below a path. */
  lemma {:induction false} DottedPrefix(p: Path, q: Path)
    requires p != [] && q != [] && DotFree(p) && DotFree(q)
    ensures Dotted(q) == Dotted(p) || Dotted(p) + "." <= Dotted(q) <==> p <= q
    decreases |p|
  {
    NoDotInside(p[0], q[0]);
    NoDotInside(q[0], p[0]);
    if |q| == 1 {
      NoDotInside(Dotted(p), q[0]);
      assert |p| > 1 ==> Dotted(p) == p[0] + "." + Dotted(p[1..]);
    } else {
      FirstKey(p[0], q[0], Dotted(q[1..]));
      if |p| > 1 {
        HeadsDecide(p, q);
        DottedPrefix(p[1..], q[1..]);
        assert p <= q <==> p[0] == q[0] && p[1..] <= q[1..];
      }
    }
  }

  lemma {:induction false} HeadsDecide(p: Path, q: Path)
    requires |p| > 1 && |q| > 1 && DotFree(p) && DotFree(q)
    ensures Dotted(q) == Dotted(p) <==> p[0] == q[0] && Dotted(q[1..]) == Dotted(p[1..])
    ensures Dotted(p) + "." <= Dotted(q) <==> p[0] == q[0] && Dotted(p[1..]) + "." <= Dotted(q[1..])
  {
    FirstKey(p[0], q[0], Dotted(q[1..]));
    var h, x, y := p[0] + ".", Dotted(p[1..]), Dotted(q[1..]);
    assert h + x + "." == h + (x + ".");
    assert h <= h + x && h <= h + x + ".";
    SharedHead(h, x, y);
    SharedHead(h, x + ".", y);
  }
}
