/** The merge of configuration layers: one tree over another, and where each leaf came from. */
module Merge {
  import opened Wrappers

  type Key = string
  type Path = seq<Key>
  type Name = string

  /** A boolean is no string: only the boolean opts into inheritance. */
  datatype Value = Flag(on: bool) | Text(text: string)

  /** A configuration node. `Leaf` is a scalar or a list (replaced whole); `Delete` is the sentinel. */
  datatype Tree = Null | Leaf(value: Value) | Delete | Block(fields: map<Key, Tree>)

  const EMPTY := Block(map[])

  // ---------------------------------------------------------------------------
  // One layer over another
  // ---------------------------------------------------------------------------

  /** A key cannot change between block and value; null is never a conflict. */
  predicate Clash(x: Tree, y: Tree) {
    !x.Null? && !y.Null? && x.Block? != y.Block?
  }

  /** `y` can be laid over `x`. */
  predicate Fits(x: Tree, y: Tree)
    decreases y
  {
    if x.Block? && y.Block? then forall k | k in x.fields && k in y.fields :: Fits(x.fields[k], y.fields[k])
    else y.Delete? || !Clash(x, y)
  }

  /** `y` over `x`: blocks merge, everything else is replaced, the sentinel removes the key. */
  function Over(x: Tree, y: Tree): Tree
    requires Fits(x, y)
    decreases y
  {
    if x.Block? && y.Block? then
      Block(map k | k in x.fields.Keys + y.fields.Keys && !(k in y.fields && y.fields[k].Delete?) ::
        if k !in y.fields then x.fields[k]
        else if k in x.fields then Over(x.fields[k], y.fields[k])
        else y.fields[k])
    else y
  }

  function Find(m: map<Key, Tree>, k: Key): Option<Tree> {
    if k in m then Some(m[k]) else None
  }

  predicate FitsAt(base: map<Key, Tree>, override: map<Key, Tree>, k: Key) {
    k in base && k in override ==> Fits(base[k], override[k])
  }

  /** What one key becomes. */
  function Entry(base: map<Key, Tree>, override: map<Key, Tree>, k: Key): Option<Tree>
    requires FitsAt(base, override, k)
  {
    if k !in override then Find(base, k)
    else if override[k].Delete? then None
    else if k in base then Some(Over(base[k], override[k]))
    else Some(override[k])
  }

  lemma {:induction false} OverByEntry(x: Tree, y: Tree, result: map<Key, Tree>)
    requires x.Block? && y.Block? && Fits(x, y)
    requires forall k {:trigger Find(result, k)} :: Find(result, k) == Entry(x.fields, y.fields, k)
    ensures Over(x, y) == Block(result)
  {
    var all := Over(x, y).fields;
    forall k ensures k in all <==> k in result
      ensures k in all ==> all[k] == result[k]
    {
      assert Find(result, k) == Entry(x.fields, y.fields, k);
    }
    assert all == result;
  }

  /** The node at a path. */
  function At(t: Tree, p: Path): Option<Tree>
    decreases |p|
  {
    if p == [] then Some(t)
    else if t.Block? && p[0] in t.fields then At(t.fields[p[0]], p[1..])
    else None
  }

  lemma {:induction false} AtBelow(t: Tree, k: Key, p: Path)
    requires t.Block?
    ensures At(t, [k] + p) == if k in t.fields then At(t.fields[k], p) else None
  {
    assert ([k] + p)[1..] == p;
  }

  predicate ClashAt(x: Tree, y: Tree, p: Path) {
    At(x, p).Some? && At(y, p).Some? && !At(y, p).value.Delete? && Clash(At(x, p).value, At(y, p).value)
  }

  /** A clash anywhere below keeps the layers apart. */
  lemma {:induction false} ClashMeansUnfit(x: Tree, y: Tree, p: Path)
    requires ClashAt(x, y, p)
    ensures !Fits(x, y)
    decreases |p|
  {
    if p != [] {
      ClashMeansUnfit(x.fields[p[0]], y.fields[p[0]], p[1..]);
    }
  }

  // ---------------------------------------------------------------------------
  // The merge by paths
  // ---------------------------------------------------------------------------

  predicate BlockAt(t: Tree, p: Path) {
    At(t, p).Some? && At(t, p).value.Block?
  }

  /** The two layers go on side by side until `q`: above it both hold blocks. */
  ghost predicate Meet(x: Tree, y: Tree, q: Path) {
    forall i {:trigger q[..i]} | 0 <= i < |q| :: BlockAt(x, q[..i]) && BlockAt(y, q[..i])
  }

  /**
   What `z` holds at `p`, when the layers go on side by side until `q`, at or above `p`: nothing if
   `y` deletes `q`, the lower layer if `y` says nothing of `q`, the upper one if it replaces `q`.
   */
  ghost predicate DecidedAt(x: Tree, y: Tree, z: Tree, q: Path, p: Path) {
    Meet(x, y, q) && q <= p ==>
      && (At(y, q) == Some(Delete) ==> At(z, p).None?)
      && (At(y, q).None? ==> At(z, p) == At(x, p))
      && (At(y, q).Some? && At(y, q) != Some(Delete) && !(BlockAt(x, q) && BlockAt(y, q)) ==> At(z, p) == At(y, p))
      && (BlockAt(x, q) && BlockAt(y, q) ==> BlockAt(z, q))
  }

  /** `z` is `y` over `x`, path by path. */
  ghost predicate ByPaths(x: Tree, y: Tree, z: Tree) {
    forall q, p {:trigger DecidedAt(x, y, z, q, p)} :: DecidedAt(x, y, z, q, p)
  }

  lemma {:induction false} MeetBelow(x: Tree, y: Tree, q: Path)
    requires Meet(x, y, q) && q != []
    ensures x.Block? && y.Block?
    ensures q[0] in x.fields && q[0] in y.fields ==> Meet(x.fields[q[0]], y.fields[q[0]], q[1..])
    ensures |q| > 1 ==> BlockAt(x, [q[0]]) && BlockAt(y, [q[0]])
  {
    assert q[..0] == [];
    assert BlockAt(x, q[..0]) && BlockAt(y, q[..0]);
    if |q| > 1 {
      assert BlockAt(x, q[..1]) && BlockAt(y, q[..1]);
      assert q[..1] == [q[0]];
    }
    forall i | 0 <= i < |q| - 1 && q[0] in x.fields && q[0] in y.fields
      ensures BlockAt(x.fields[q[0]], q[1..][..i]) && BlockAt(y.fields[q[0]], q[1..][..i])
    {
      assert BlockAt(x, q[..i + 1]) && BlockAt(y, q[..i + 1]);
      assert q[..i + 1][1..] == q[1..][..i];
    }
  }

  lemma {:induction false} MeetAbove(x: Tree, y: Tree, k: Key, q: Path)
    requires x.Block? && y.Block?
    requires q == [] || (k in x.fields && k in y.fields && Meet(x.fields[k], y.fields[k], q))
    ensures Meet(x, y, [k] + q)
  {
    forall i | 0 <= i < |q| + 1 ensures BlockAt(x, ([k] + q)[..i]) && BlockAt(y, ([k] + q)[..i]) {
      if i > 0 {
        assert ([k] + q)[..i][1..] == q[..i - 1];
        assert q != [] ==> BlockAt(x.fields[k], q[..i - 1]) && BlockAt(y.fields[k], q[..i - 1]);
      }
    }
  }

  lemma {:induction false} OverDecided(x: Tree, y: Tree, q: Path, p: Path)
    requires x.Block? && y.Block? && Fits(x, y)
    ensures DecidedAt(x, y, Over(x, y), q, p)
    decreases |q|
  {
    if q != [] && q <= p && Meet(x, y, q) {
      MeetBelow(x, y, q);
      var k := q[0];
      assert p[0] == k && q[1..] <= p[1..];
      if k in x.fields && k in y.fields && x.fields[k].Block? && y.fields[k].Block? {
        OverDecided(x.fields[k], y.fields[k], q[1..], p[1..]);
      } else {
        AtBelow(x, k, []);
        AtBelow(y, k, []);
        AtBelow(Over(x, y), k, []);
        assert [k] + [] == [k];
        assert q == [k];
      }
    }
  }

  lemma {:induction false} OverByPaths(x: Tree, y: Tree)
    requires x.Block? && y.Block? && Fits(x, y)
    ensures ByPaths(x, y, Over(x, y))
  {
    forall q, p ensures DecidedAt(x, y, Over(x, y), q, p) {
      OverDecided(x, y, q, p);
    }
  }

  /** The paths leave nothing open. */
  lemma {:induction false} PathsDetermine(x: Tree, y: Tree, z: Tree)
    requires x.Block? && y.Block? && Fits(x, y) && ByPaths(x, y, z)
    ensures z == Over(x, y)
    decreases y
  {
    assert DecidedAt(x, y, z, [], []);
    forall k ensures Find(z.fields, k) == Entry(x.fields, y.fields, k) {
      MeetAbove(x, y, k, []);
      assert DecidedAt(x, y, z, [k] + [], [k] + []);
      AtBelow(x, k, []);
      AtBelow(y, k, []);
      AtBelow(z, k, []);
      if k in x.fields && k in y.fields && x.fields[k].Block? && y.fields[k].Block? {
        forall q, p ensures DecidedAt(x.fields[k], y.fields[k], z.fields[k], q, p) {
          if Meet(x.fields[k], y.fields[k], q) && q <= p {
            MeetAbove(x, y, k, q);
            assert DecidedAt(x, y, z, [k] + q, [k] + p);
            AtBelow(x, k, q);
            AtBelow(y, k, q);
            AtBelow(z, k, q);
            AtBelow(x, k, p);
            AtBelow(y, k, p);
            AtBelow(z, k, p);
          }
        }
        PathsDetermine(x.fields[k], y.fields[k], z.fields[k]);
      }
    }
    OverByEntry(x, y, z.fields);
  }

  /** Above a node that is there, there are blocks. */
  lemma {:induction false} BlocksAbove(t: Tree, p: Path, i: nat)
    requires At(t, p).Some? && i < |p|
    ensures BlockAt(t, p[..i])
    decreases i
  {
    if i > 0 {
      BlocksAbove(t.fields[p[0]], p[1..], i - 1);
      assert p[..i][1..] == p[1..][..i - 1];
    }
  }

  lemma {:induction false} NothingBelow(t: Tree, p: Path, i: nat)
    requires i < |p| && !BlockAt(t, p[..i])
    ensures At(t, p).None?
  {
    if At(t, p).Some? {
      BlocksAbove(t, p, i);
    }
  }

  /** `y` deletes the key at `p` of a lower layer that has blocks down to it. */
  ghost predicate Deletes(x: Tree, y: Tree, p: Path) {
    At(y, p) == Some(Delete) && forall i {:trigger p[..i]} | 0 <= i < |p| :: BlockAt(x, p[..i])
  }

  /** The upper layer takes a leaf at `p` away: it deletes it, or it nulls or deletes a block above it. */
  ghost predicate TakesAway(y: Tree, p: Path) {
    exists i {:trigger p[..i]} :: 0 < i <= |p|
      && (At(y, p[..i]) == Some(Delete) || (i < |p| && At(y, p[..i]) == Some(Null)))
  }

  /** What becomes of a leaf of the lower layer: taken away, overridden, or kept. */
  ghost predicate LeafKept(x: Tree, y: Tree, z: Tree, p: Path) {
    At(x, p).Some? && At(x, p).value.Leaf? ==>
      At(z, p) == if TakesAway(y, p) then None else if At(y, p).Some? then At(y, p) else At(x, p)
  }

  lemma {:induction false} DeletionRemoves(x: Tree, y: Tree, z: Tree, p: Path)
    requires ByPaths(x, y, z) && Deletes(x, y, p)
    ensures At(z, p).None?
  {
    forall i | 0 <= i < |p| ensures BlockAt(y, p[..i]) {
      BlocksAbove(y, p, i);
    }
    assert DecidedAt(x, y, z, p, p);
  }

  /** Where the layers stop going on side by side above or at `p`: there one of them has no block. */
  lemma {:induction false} Parting(x: Tree, y: Tree, p: Path) returns (i: nat)
    ensures i <= |p| && Meet(x, y, p[..i])
    ensures forall j | 0 <= j < i :: BlockAt(x, p[..j]) && BlockAt(y, p[..j])
    ensures i < |p| ==> !(BlockAt(x, p[..i]) && BlockAt(y, p[..i]))
  {
    i := 0;
    while i < |p| && BlockAt(x, p[..i]) && BlockAt(y, p[..i])
      invariant i <= |p|
      invariant forall j | 0 <= j < i :: BlockAt(x, p[..j]) && BlockAt(y, p[..j])
    {
      i := i + 1;
    }
    assert forall j | 0 <= j < i :: p[..i][..j] == p[..j];
  }

  /** A leaf of the upper layer is a leaf of the result. */
  lemma {:induction false} UpperLeafWins(x: Tree, y: Tree, z: Tree, p: Path)
    requires ByPaths(x, y, z) && At(y, p).Some? && At(y, p).value.Leaf?
    ensures At(z, p) == At(y, p)
  {
    var i := Parting(x, y, p);
    assert DecidedAt(x, y, z, p[..i], p);
    if i < |p| {
      BlocksAbove(y, p, i);
    } else {
      assert p[..i] == p;
    }
  }

  lemma {:induction false} LeafSurvives(x: Tree, y: Tree, z: Tree, p: Path)
    requires x.Block? && y.Block? && Fits(x, y) && ByPaths(x, y, z)
    ensures LeafKept(x, y, z, p)
  {
    if At(x, p).Some? && At(x, p).value.Leaf? {
      var i := Parting(x, y, p);
      var q := p[..i];
      assert DecidedAt(x, y, z, q, p);
      if i < |p| {
        BlocksAbove(x, p, i);
        forall j | i < j <= |p| ensures At(y, p[..j]).None? {
          assert p[..j][..i] == q;
          NothingBelow(y, p[..j], i);
        }
      }
      assert i == |p| ==> q == p;
      if At(y, q).Some? && Clash(At(x, q).value, At(y, q).value) && !At(y, q).value.Delete? {
        ClashMeansUnfit(x, y, q);
      }
      assert p[..|p|] == p;
      if At(y, q) == Some(Delete) || (i < |p| && At(y, q) == Some(Null)) {
        assert i > 0;
        assert TakesAway(y, p);
      } else {
        assert !TakesAway(y, p);
      }
    }
  }

  /** A layer deletes `p`, or something above it. */
  ghost predicate Deleted(y: Tree, p: Path) {
    exists i {:trigger p[..i]} :: 0 <= i <= |p| && At(y, p[..i]) == Some(Delete)
  }

  /** What the upper layer deletes is gone, or it is a sentinel that met nothing to delete. */
  lemma {:induction false} DeletedIsGone(x: Tree, y: Tree, p: Path)
    requires x.Block? && y.Block? && Fits(x, y) && Deleted(y, p)
    ensures At(Over(x, y), p).None? || At(Over(x, y), p) == Some(Delete)
  {
    OverByPaths(x, y);
    var i := Parting(x, y, p);
    var d :| 0 <= d <= |p| && At(y, p[..d]) == Some(Delete);
    assert DecidedAt(x, y, Over(x, y), p[..i], p);
    assert p[..|p|] == p;
    assert i <= d;
    if i < d {
      BlocksAbove(y, p[..d], i);
      assert p[..d][..i] == p[..i];
    }
    if d < |p| {
      NothingBelow(y, p, d);
    }
  }

  // ---------------------------------------------------------------------------
  // The merge, key by key
  // ---------------------------------------------------------------------------

  /**
   Lays `override` over `base`, key by key, without touching either; the error is a path where the
   two really clash.
   */
  method DeepMerge(base: Tree, override: Tree) returns (r: Result<Tree, Path>)
    requires base.Block? && override.Block?
    ensures r.Ok? <==> Fits(base, override)
    ensures r.Ok? ==> r.value == Over(base, override)
    ensures r.Err? ==> ClashAt(base, override, r.error)
    ensures r.Ok? ==> forall p | Deletes(base, override, p) :: At(r.value, p).None?
    ensures r.Ok? ==> forall p :: LeafKept(base, override, r.value, p)
    ensures r.Ok? ==> ByPaths(base, override, r.value)
    decreases override
  {
    var result := base.fields;
    var todo := override.fields.Keys;
    while todo != {}
      invariant todo <= override.fields.Keys
      invariant forall k {:trigger FitsAt(base.fields, override.fields, k)} | k !in todo :: FitsAt(base.fields,
                override.fields, k)
      invariant forall k {:trigger Find(result, k)} | k !in todo :: Find(result, k) == Entry(base.fields,
                override.fields, k)
      invariant forall k {:trigger Find(result, k)} | k in todo :: Find(result, k) == Find(base.fields, k)
      decreases |todo|
    {
      var key :| key in todo;
      assert Find(result, key) == Find(base.fields, key);
      var value := override.fields[key];
      todo := todo - {key};
      ghost var before := result;
      if value.Delete? {
        result := result - {key};
      } else if key in result && result[key].Block? && value.Block? {
        var below := DeepMerge(result[key], value);
        if below.Err? {
          ClashBelow(base, override, key, below.error);
          return Err([key] + below.error);
        }
        result := result[key := below.value];
      } else if key in result && Clash(result[key], value) {
        ClashBelow(base, override, key, []);
        return Err([key] + []);
      } else {
        result := result[key := value];
      }
      assert FitsAt(base.fields, override.fields, key);
      assert Find(result, key) == Entry(base.fields, override.fields, key);
      assert forall k {:trigger Find(result, k)} | k != key :: Find(result, k) == Find(before, k);
    }
    forall k | k in base.fields && k in override.fields ensures Fits(base.fields[k], override.fields[k]) {
      assert FitsAt(base.fields, override.fields, k);
    }
    OverByEntry(base, override, result);
    OverByPaths(base, override);
    forall p | Deletes(base, override, p) ensures At(Block(result), p).None? {
      DeletionRemoves(base, override, Block(result), p);
    }
    forall p ensures LeafKept(base, override, Block(result), p) {
      LeafSurvives(base, override, Block(result), p);
    }
    return Ok(Block(result));
  }

  lemma {:induction false} ClashBelow(x: Tree, y: Tree, k: Key, p: Path)
    requires x.Block? && y.Block? && k in x.fields && k in y.fields && ClashAt(x.fields[k], y.fields[k], p)
    ensures ClashAt(x, y, [k] + p) && !Fits(x, y)
  {
    assert ([k] + p)[1..] == p;
    ClashMeansUnfit(x, y, [k] + p);
  }

  // ---------------------------------------------------------------------------
  // Stacking layers
  // ---------------------------------------------------------------------------

  /** One layer over another, with errors: None is a conflict. */
  function Join(x: Option<Tree>, y: Option<Tree>): Option<Tree> {
    if x.Some? && y.Some? && Fits(x.value, y.value) then Some(Over(x.value, y.value)) else None
  }

  /** No sentinel anywhere. */
  predicate Clean(t: Tree) {
    match t
    case Delete => false
    case Block(fields) => forall k | k in fields :: Clean(fields[k])
    case _ => true
  }

  /** No sentinel and no null anywhere. */
  predicate Plain(t: Tree) {
    match t
    case Null => false
    case Delete => false
    case Leaf(_) => true
    case Block(fields) => forall k | k in fields :: Plain(fields[k])
  }

  lemma {:induction false} OverIsPlain(x: Tree, y: Tree)
    requires Plain(x) && Plain(y) && Fits(x, y)
    ensures Plain(Over(x, y))
    decreases y
  {
    if x.Block? && y.Block? {
      forall k | k in x.fields && k in y.fields ensures Plain(Over(x.fields[k], y.fields[k])) {
        OverIsPlain(x.fields[k], y.fields[k]);
      }
    }
  }

  /** One key of a block: absent, a tree, or a conflict. */
  datatype Slot = Absent | Bad | Has(tree: Tree)

  function SlotOf(t: Tree, k: Key): Slot
    requires t.Block?
  {
    if k in t.fields then Has(t.fields[k]) else Absent
  }

  function Put(x: Slot, y: Slot): Slot {
    if x.Bad? || y.Bad? then Bad
    else if y.Absent? then x
    else if x.Absent? then y
    else if Fits(x.tree, y.tree) then Has(Over(x.tree, y.tree))
    else Bad
  }

  predicate NoBad(x: Tree, y: Tree)
    requires x.Block? && y.Block?
  {
    forall k | k in x.fields && k in y.fields :: Put(SlotOf(x, k), SlotOf(y, k)) != Bad
  }

  /** Blocks merge slot by slot. */
  lemma {:induction false} BlockSlots(x: Tree, y: Tree, k: Key)
    requires x.Block? && y.Block? && Clean(x) && Clean(y)
    ensures Fits(x, y) ==> Put(SlotOf(x, k), SlotOf(y, k)) == SlotOf(Over(x, y), k)
    ensures Put(SlotOf(x, k), SlotOf(y, k)) == Bad ==> !Fits(x, y)
  {
  }

  lemma {:induction false} UnfitHasBadSlot(x: Tree, y: Tree) returns (k: Key)
    requires x.Block? && y.Block? && !Fits(x, y)
    ensures k in x.fields && k in y.fields && Put(SlotOf(x, k), SlotOf(y, k)) == Bad
  {
    k :| k in x.fields && k in y.fields && !Fits(x.fields[k], y.fields[k]);
  }

  /** The slots of a block, or of a conflict: all Bad. */
  function Slots(t: Option<Tree>, k: Key): Slot
    requires t.Some? ==> t.value.Block?
  {
    if t.Some? then SlotOf(t.value, k) else Bad
  }

  predicate BadAt(x: Option<Tree>, y: Option<Tree>, k: Key)
    requires (x.Some? ==> x.value.Block?) && (y.Some? ==> y.value.Block?)
  {
    Put(Slots(x, k), Slots(y, k)) == Bad
  }

  /** `z` is `y` over `x`, slot by slot; it is a conflict exactly when some slot is. */
  ghost predicate Joined(x: Option<Tree>, y: Option<Tree>, z: Option<Tree>) {
    && (x.Some? ==> x.value.Block?) && (y.Some? ==> y.value.Block?) && (z.Some? ==> z.value.Block?)
    && (z.Some? ==> forall k {:trigger Slots(z, k)} :: Slots(z, k) == Put(Slots(x, k), Slots(y, k)))
    && (z.None? ==> exists k :: BadAt(x, y, k))
  }

  lemma {:induction false} JoinIsJoined(x: Option<Tree>, y: Option<Tree>)
    requires x.Some? ==> x.value.Block? && Clean(x.value)
    requires y.Some? ==> y.value.Block? && Clean(y.value)
    ensures Joined(x, y, Join(x, y))
  {
    if x.Some? && y.Some? {
      if Fits(x.value, y.value) {
        forall k ensures Slots(Join(x, y), k) == Put(Slots(x, k), Slots(y, k)) {
          BlockSlots(x.value, y.value, k);
        }
      } else {
        var bad := UnfitHasBadSlot(x.value, y.value);
        assert BadAt(x, y, bad);
      }
    } else {
      assert BadAt(x, y, []);
    }
  }

  /** Grouping does not matter where the upper layers hold no null; nor for whether it errs. */
  lemma {:induction false} GroupingPlain(a: Tree, b: Tree, c: Tree)
    requires Clean(a) && Plain(b) && Plain(c)
    ensures Join(Join(Some(a), Some(b)), Some(c)) == Join(Some(a), Join(Some(b), Some(c)))
    decreases c
  {
    if a.Block? && b.Block? && c.Block? {
      forall k ensures SameGrouping(SlotOf(a, k), SlotOf(b, k), SlotOf(c, k)) {
        if k in a.fields && k in b.fields && k in c.fields {
          GroupingPlain(a.fields[k], b.fields[k], c.fields[k]);
        }
      }
      CleanIfPlain(b);
      CleanIfPlain(c);
      if Fits(a, b) {
        OverIsClean(a, b);
      }
      if Fits(b, c) {
        OverIsPlain(b, c);
        CleanIfPlain(Over(b, c));
      }
      GroupingBlocks(a, b, c);
    }
  }

  lemma {:induction false} CleanIfPlain(t: Tree)
    requires Plain(t)
    ensures Clean(t)
  {
    if t.Block? {
      forall k | k in t.fields ensures Clean(t.fields[k]) {
        CleanIfPlain(t.fields[k]);
      }
    }
  }

  predicate SameGrouping(a: Slot, b: Slot, c: Slot) {
    Put(Put(a, b), c) == Put(a, Put(b, c))
  }

  /** If one grouping of blocks is a conflict, so is the other. */
  lemma {:induction false} ConflictsAgree(a: Option<Tree>, b: Option<Tree>, c: Option<Tree>, ab: Option<Tree>,
                                          bc: Option<Tree>,
                       left: Option<Tree>, right: Option<Tree>)
    requires Joined(a, b, ab) && Joined(b, c, bc) && Joined(ab, c, left) && Joined(a, bc, right)
    requires forall k :: SameGrouping(Slots(a, k), Slots(b, k), Slots(c, k))
    ensures left.Some? <==> right.Some?
    ensures left.Some? ==> ab.Some? && bc.Some?
  {
    if ab.None? {
      var k :| BadAt(a, b, k);
      LeftBad(a, b, c, bc, right, k);
      assert left.Some? ==> Slots(left, k) == Put(Slots(ab, k), Slots(c, k));
    }
    if bc.None? {
      var k :| BadAt(b, c, k);
      RightBad(a, b, c, ab, left, k);
      assert right.Some? ==> Slots(right, k) == Put(Slots(a, k), Slots(bc, k));
    }
    if ab.Some? && bc.Some? {
      if left.None? {
        var k :| BadAt(ab, c, k);
        assert Slots(ab, k) == Put(Slots(a, k), Slots(b, k));
        assert SameGrouping(Slots(a, k), Slots(b, k), Slots(c, k));
        assert Slots(bc, k) == Put(Slots(b, k), Slots(c, k));
        assert right.Some? ==> Slots(right, k) != Bad;
      }
      if right.None? {
        var k :| BadAt(a, bc, k);
        assert Slots(bc, k) == Put(Slots(b, k), Slots(c, k));
        assert SameGrouping(Slots(a, k), Slots(b, k), Slots(c, k));
        assert Slots(ab, k) == Put(Slots(a, k), Slots(b, k));
        assert left.Some? ==> Slots(left, k) != Bad;
      }
    }
  }

  lemma {:induction false} LeftBad(a: Option<Tree>, b: Option<Tree>, c: Option<Tree>, bc: Option<Tree>,
                                   right: Option<Tree>, k: Key)
    requires Joined(b, c, bc) && Joined(a, bc, right) && (a.Some? ==> a.value.Block?) && BadAt(a, b, k)
    requires SameGrouping(Slots(a, k), Slots(b, k), Slots(c, k))
    ensures right.None?
  {
    assert Put(Slots(a, k), Put(Slots(b, k), Slots(c, k))) == Bad;
    assert bc.Some? ==> Slots(bc, k) == Put(Slots(b, k), Slots(c, k));
    assert right.Some? ==> Slots(right, k) == Put(Slots(a, k), Slots(bc, k));
  }

  lemma {:induction false} RightBad(a: Option<Tree>, b: Option<Tree>, c: Option<Tree>, ab: Option<Tree>,
                                    left: Option<Tree>, k: Key)
    requires Joined(a, b, ab) && Joined(ab, c, left) && (c.Some? ==> c.value.Block?) && BadAt(b, c, k)
    requires SameGrouping(Slots(a, k), Slots(b, k), Slots(c, k))
    ensures left.None?
  {
    assert Put(Put(Slots(a, k), Slots(b, k)), Slots(c, k)) == Bad;
    assert ab.Some? ==> Slots(ab, k) == Put(Slots(a, k), Slots(b, k));
    assert left.Some? ==> Slots(left, k) == Put(Slots(ab, k), Slots(c, k));
  }

  lemma {:induction false} SameSlotsSameTree(x: Tree, y: Tree)
    requires x.Block? && y.Block? && forall k :: SlotOf(x, k) == SlotOf(y, k)
    ensures x == y
  {
    forall k ensures k in x.fields <==> k in y.fields
      ensures k in x.fields ==> x.fields[k] == y.fields[k]
    {
      assert SlotOf(x, k) == SlotOf(y, k);
    }
    assert x.fields == y.fields;
  }

  /** Block over block over block, given every key. */
  lemma {:induction false} GroupingBlocks(a: Tree, b: Tree, c: Tree)
    requires a.Block? && b.Block? && c.Block? && Clean(a) && Clean(b) && Clean(c)
    requires forall k :: SameGrouping(SlotOf(a, k), SlotOf(b, k), SlotOf(c, k))
    requires Fits(a, b) ==> Clean(Over(a, b))
    requires Fits(b, c) ==> Clean(Over(b, c))
    ensures Join(Join(Some(a), Some(b)), Some(c)) == Join(Some(a), Join(Some(b), Some(c)))
  {
    var ab, bc := Join(Some(a), Some(b)), Join(Some(b), Some(c));
    var left, right := Join(ab, Some(c)), Join(Some(a), bc);
    JoinIsJoined(Some(a), Some(b));
    JoinIsJoined(Some(b), Some(c));
    JoinIsJoined(ab, Some(c));
    JoinIsJoined(Some(a), bc);
    ConflictsAgree(Some(a), Some(b), Some(c), ab, bc, left, right);
    if left.Some? {
      forall k ensures SlotOf(left.value, k) == SlotOf(right.value, k) {
        assert SameGrouping(SlotOf(a, k), SlotOf(b, k), SlotOf(c, k));
        assert Slots(left, k) == Put(Slots(ab, k), SlotOf(c, k)) && Slots(right, k) == Put(SlotOf(a, k), Slots(bc, k));
      }
      SameSlotsSameTree(left.value, right.value);
    }
  }

  // ---------------------------------------------------------------------------
  // Where there are nulls
  // ---------------------------------------------------------------------------

  /** Every key of `x`, at every depth, is overridden by `y`. */
  predicate Covers(x: Tree, y: Tree)
    decreases y
  {
    x.Block? && y.Block? ==> forall k | k in x.fields :: k in y.fields && Covers(x.fields[k], y.fields[k])
  }

  lemma {:induction false} CoversMeansReplaces(x: Tree, y: Tree)
    requires Clean(y) && Fits(x, y)
    ensures Over(x, y) == y <==> Covers(x, y)
    decreases y
  {
    if x.Block? && y.Block? {
      forall k | k in x.fields && k in y.fields
        ensures Over(x.fields[k], y.fields[k]) == y.fields[k] <==> Covers(x.fields[k], y.fields[k])
      {
        CoversMeansReplaces(x.fields[k], y.fields[k]);
      }
      var all := Over(x, y).fields;
      if Covers(x, y) {
        assert all == y.fields;
      } else {
        var k :| k in x.fields && !(k in y.fields && Covers(x.fields[k], y.fields[k]));
        assert k in all && (k in y.fields ==> all[k] != y.fields[k]);
      }
    }
  }

  lemma {:induction false} OverIsClean(x: Tree, y: Tree)
    requires Clean(x) && Clean(y) && Fits(x, y)
    ensures Clean(Over(x, y))
    decreases y
  {
    if x.Block? && y.Block? {
      forall k | k in x.fields && k in y.fields ensures Clean(Over(x.fields[k], y.fields[k])) {
        OverIsClean(x.fields[k], y.fields[k]);
      }
    }
  }

  lemma {:induction false} OverNothing(t: Tree)
    requires Clean(t) && t.Block?
    ensures Fits(EMPTY, t) && Over(EMPTY, t) == t
  {
    forall k | k in t.fields ensures !t.fields[k].Delete? {
      assert Clean(t.fields[k]);
    }
    assert Over(EMPTY, t).fields == t.fields;
  }

  function Single(k: Key, t: Tree): Tree {
    Block(map[k := t])
  }

  lemma {:induction false} SingleJoin(k: Key, x: Tree, y: Tree)
    requires Clean(y)
    ensures Join(Some(EMPTY), Some(Single(k, y))) == Some(Single(k, y))
    ensures Join(Some(Single(k, x)), Some(Single(k, y))) == if Fits(x, y) then Some(Single(k, Over(x, y))) else None
  {
    OverNothing(Single(k, y));
    if Fits(x, y) {
      assert Over(Single(k, x), Single(k, y)).fields == Single(k, Over(x, y)).fields;
    } else {
      assert k in Single(k, x).fields && k in Single(k, y).fields;
    }
  }

  const X1 := Block(map["x" := Leaf(Text("1"))])
  const Y2 := Block(map["y" := Leaf(Text("2"))])
  const BOTH := Block(map["x" := Leaf(Text("1")), "y" := Leaf(Text("2"))])

  lemma {:induction false} BothMerge()
    ensures Fits(X1, Y2) && Over(X1, Y2) == BOTH
  {
    assert Over(X1, Y2).fields == BOTH.fields;
  }

  /** A block, then null, then a block: compacting the last two first brings the old block back. */
  lemma {:induction false} NullIsForgotten()
    ensures var a, b, c := Single("k", X1), Single("k", Null), Single("k", Y2);
            && Join(Join(Some(a), Some(b)), Some(c)) == Some(Single("k", Y2))
            && Join(Some(b), Some(c)) == Some(c)
            && Join(Some(a), Join(Some(b), Some(c))) == Some(Single("k", BOTH))
  {
    SingleJoin("k", X1, Null);
    SingleJoin("k", Null, Y2);
    SingleJoin("k", X1, Y2);
    BothMerge();
  }

  // ---------------------------------------------------------------------------
  // Inheritance by block
  // ---------------------------------------------------------------------------

  const INHERIT: Key := "inherit"
  const YES := Leaf(Flag(true))

  /** The block that a child may inherit from. */
  function ParentBlock(parent: Tree, k: Key): Tree {
    if parent.Block? && k in parent.fields && parent.fields[k].Block? then parent.fields[k] else EMPTY
  }

  predicate Opts(child: Tree) {
    child.Block? && INHERIT in child.fields
  }

  /** One top-level block of a child; None when it clashes with its parent's. */
  function Inherited(child: Tree, parent: Tree, k: Key): Option<Tree>
  {
    if !Opts(child) then Some(child)
    else if child.fields[INHERIT] != YES then Some(Block(child.fields - {INHERIT}))
    else Join(Some(ParentBlock(parent, k)), Some(Block(child.fields - {INHERIT})))
  }

  /** Resolves `inherit` block by block: only a block that says so is laid over its parent's. */
  method ResolveInherit(child: Tree, parent: Tree) returns (r: Result<Tree, Path>)
    requires child.Block?
    ensures r.Ok? <==> forall k | k in child.fields :: Inherited(child.fields[k], parent, k).Some?
    ensures r.Ok? ==> r.value.Block? && r.value.fields.Keys == child.fields.Keys
    ensures r.Ok? ==> forall k | k in child.fields :: Some(r.value.fields[k]) == Inherited(child.fields[k], parent, k)
  {
    var result: map<Key, Tree> := map[];
    var todo := child.fields.Keys;
    while todo != {}
      invariant todo <= child.fields.Keys
      invariant result.Keys == child.fields.Keys - todo
      invariant forall k | k in result :: Some(result[k]) == Inherited(child.fields[k], parent, k)
      decreases |todo|
    {
      var key :| key in todo;
      var value := child.fields[key];
      todo := todo - {key};
      if !Opts(value) {
        result := result[key := value];
      } else {
        var own := Block(value.fields - {INHERIT});
        if value.fields[INHERIT] != YES {
          result := result[key := own];
        } else {
          var merged := DeepMerge(ParentBlock(parent, key), own);
          if merged.Err? {
            return Err([key] + merged.error);
          }
          result := result[key := merged.value];
        }
      }
    }
    return Ok(Block(result));
  }

  /**
   An opted-in block, path by path: a leaf of the child's is there, what the child says nothing of is
   the parent's, and a leaf of the parent's goes only where the child takes it away or overrides it.
   Without `inherit: true` the block stays the child's.
   */
  lemma {:induction false} InheritedByPaths(child: Tree, parent: Tree, k: Key, p: Path)
    requires Opts(child) && Inherited(child, parent, k).Some? && p != [] && p[0] != INHERIT
    ensures var z := Inherited(child, parent, k).value;
            && (child.fields[INHERIT] != YES ==> At(z, p) == At(child, p))
            && (child.fields[INHERIT] == YES ==>
                  && (At(child, p).Some? && At(child, p).value.Leaf? ==> At(z, p) == At(child, p))
                  && (At(child, [p[0]]).None? && BlockAt(parent, [k]) ==> At(z, p) == At(parent, [k] + p))
                  && ((BlockAt(parent, [k]) && At(parent, [k] + p).Some? && At(parent, [k] + p).value.Leaf?
                       && At(child, p).None? && !TakesAway(child, p)) ==> At(z, p) == At(parent, [k] + p))
                  && (At(child, [p[0]]).None? && !BlockAt(parent, [k]) ==> At(z, p).None?))
  {
    var own, from := Block(child.fields - {INHERIT}), ParentBlock(parent, k);
    assert forall i | 0 < i <= |p| :: p[..i][0] == p[0];
    assert forall i | 0 < i <= |p| :: At(own, p[..i]) == At(child, p[..i]);
    assert p[..|p|] == p;
    if child.fields[INHERIT] == YES {
      var z := Over(from, own);
      OverByPaths(from, own);
      LeafSurvives(from, own, z, p);
      assert TakesAway(own, p) ==> TakesAway(child, p);
      if At(own, p).Some? && At(own, p).value.Leaf? {
        UpperLeafWins(from, own, z, p);
      }
      MeetAbove(from, own, p[0], []);
      assert [p[0]] + [] == [p[0]];
      assert DecidedAt(from, own, z, [p[0]], p);
      if parent.Block? {
        AtBelow(parent, k, p);
        AtBelow(parent, k, []);
        assert [k] + [] == [k];
      }
    }
  }

  /**
   The instruction is stripped from every block that carries it, unless the block inherits and its
   parent's block carries one too: then the parent's reaches the result.
   */
  lemma {:induction false} InstructionIsStripped(child: Tree, parent: Tree, k: Key)
    requires Opts(child) && Inherited(child, parent, k).Some?
    ensures INHERIT in Inherited(child, parent, k).value.fields
            <==> child.fields[INHERIT] == YES && INHERIT in ParentBlock(parent, k).fields
  {
  }

  /** It does reach it: a child that only says `inherit`, under a parent that says it too. */
  lemma {:induction false} InstructionSurvives()
    ensures var child := Block(map[INHERIT := YES]);
            var parent := Block(map["k" := Block(map[INHERIT := Leaf(Flag(false))])]);
            Inherited(child, parent, "k") == Some(Block(map[INHERIT := Leaf(Flag(false))]))
  {
    var child := Block(map[INHERIT := YES]);
    var block := Block(map[INHERIT := Leaf(Flag(false))]);
    var parent := Block(map["k" := block]);
    assert child.fields - {INHERIT} == map[];
    assert ParentBlock(parent, "k") == block;
    assert Over(block, EMPTY).fields == block.fields;
  }
}
