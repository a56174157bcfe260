/**
 Layers stacked in turn over a base, against the same layers compacted first: with nulls the two may
 differ, in their values and in whether they err. This module says exactly when they agree.
 */
module Stacks {
  import opened Wrappers
  import opened Merge

  // ---------------------------------------------------------------------------
  // One key through a stack of layers
  // ---------------------------------------------------------------------------

  /** The slots `ss` laid in turn over `x`. */
  function Pile(x: Slot, ss: seq<Slot>): Slot
    decreases |ss|
  {
    if ss == [] then x else Put(Pile(x, ss[..|ss| - 1]), ss[|ss| - 1])
  }

  predicate CleanSlot(s: Slot) {
    s.Absent? || (s.Has? && Clean(s.tree))
  }

  predicate AllClean(ss: seq<Slot>) {
    forall i | 0 <= i < |ss| :: CleanSlot(ss[i])
  }

  predicate NullSlot(s: Slot) {
    s.Has? && s.tree.Null?
  }

  predicate BlockSlot(s: Slot) {
    s.Has? ==> s.tree.Block?
  }

  predicate AllBlocks(ss: seq<Slot>) {
    forall i | 0 <= i < |ss| :: BlockSlot(ss[i])
  }

  predicate NoNulls(ss: seq<Slot>) {
    forall i | 0 <= i < |ss| :: !NullSlot(ss[i])
  }

  /** What a slot holding a block says of one of its keys. */
  function Below(s: Slot, k: Key): Slot {
    if s.Has? && s.tree.Block? then SlotOf(s.tree, k) else Absent
  }

  function AllBelow(ss: seq<Slot>, k: Key): seq<Slot> {
    seq(|ss|, i requires 0 <= i < |ss| => Below(ss[i], k))
  }

  lemma {:induction false} PileSplits(x: Slot, ss: seq<Slot>, n: nat)
    requires n <= |ss|
    ensures Pile(x, ss) == Pile(Pile(x, ss[..n]), ss[n..])
    decreases |ss|
  {
    if n == |ss| {
      assert ss[..n] == ss && ss[n..] == [];
    } else {
      var before := ss[..|ss| - 1];
      assert before[..n] == ss[..n] && before[n..] == ss[n..][..|ss| - n - 1];
      assert ss[n..][|ss| - n - 1] == ss[|ss| - 1];
      PileSplits(x, before, n);
    }
  }

  lemma {:induction false} BadStays(ss: seq<Slot>)
    ensures Pile(Bad, ss) == Bad
    decreases |ss|
  {
    if ss != [] {
      BadStays(ss[..|ss| - 1]);
    }
  }

  /** A null underneath is as good as nothing. */
  lemma {:induction false} NullIsNothing(ss: seq<Slot>)
    ensures Pile(Has(Null), ss) == if Pile(Absent, ss).Absent? then Has(Null) else Pile(Absent, ss)
    decreases |ss|
  {
    if ss != [] {
      NullIsNothing(ss[..|ss| - 1]);
    }
  }

  lemma {:induction false} PutIsClean(x: Slot, y: Slot)
    requires (x.Bad? || CleanSlot(x)) && CleanSlot(y)
    ensures Put(x, y).Bad? || CleanSlot(Put(x, y))
  {
    if x.Has? && y.Has? && Fits(x.tree, y.tree) {
      OverIsClean(x.tree, y.tree);
    }
  }

  lemma {:induction false} PileIsClean(x: Slot, ss: seq<Slot>)
    requires CleanSlot(x) && AllClean(ss)
    ensures Pile(x, ss).Bad? || CleanSlot(Pile(x, ss))
    decreases |ss|
  {
    if ss != [] {
      PileIsClean(x, ss[..|ss| - 1]);
      PutIsClean(Pile(x, ss[..|ss| - 1]), ss[|ss| - 1]);
    }
  }

  // ---------------------------------------------------------------------------
  // A conflict of the layers is a conflict over any base
  // ---------------------------------------------------------------------------

  /** `a` holds what `c` holds, and perhaps more below. */
  predicate Extends(a: Tree, c: Tree)
    decreases c
  {
    if a.Block? && c.Block? then forall k | k in c.fields :: k in a.fields && Extends(a.fields[k], c.fields[k])
    else a == c
  }

  predicate ExtendsSlot(a: Slot, c: Slot) {
    a.Bad? || c.Absent? || (a.Has? && c.Has? && Extends(a.tree, c.tree))
  }

  lemma {:induction false} ExtendsItself(t: Tree)
    ensures Extends(t, t)
  {
    if t.Block? {
      forall k | k in t.fields ensures Extends(t.fields[k], t.fields[k]) {
        ExtendsItself(t.fields[k]);
      }
    }
  }

  lemma {:induction false} OverExtends(x: Tree, y: Tree)
    requires Clean(y) && Fits(x, y)
    ensures Extends(Over(x, y), y)
    decreases y
  {
    if x.Block? && y.Block? {
      forall k | k in y.fields ensures k in Over(x, y).fields && Extends(Over(x, y).fields[k], y.fields[k]) {
        if k in x.fields {
          OverExtends(x.fields[k], y.fields[k]);
        } else {
          ExtendsItself(y.fields[k]);
        }
      }
    } else {
      ExtendsItself(y);
    }
  }

  lemma {:induction false} ExtendsOver(a: Tree, c: Tree, e: Tree)
    requires Extends(a, c) && Clean(e)
    ensures Fits(a, e) ==> Fits(c, e) && Extends(Over(a, e), Over(c, e))
    decreases e
  {
    if a.Block? && c.Block? && e.Block? {
      if Fits(a, e) {
        forall k | k in c.fields && k in e.fields
          ensures Fits(c.fields[k], e.fields[k])
                  && Extends(Over(a.fields[k], e.fields[k]), Over(c.fields[k], e.fields[k]))
        {
          ExtendsOver(a.fields[k], c.fields[k], e.fields[k]);
        }
        forall k | k in e.fields && k !in c.fields ensures Extends(Over(a, e).fields[k], e.fields[k]) {
          if k in a.fields {
            OverExtends(a.fields[k], e.fields[k]);
          } else {
            ExtendsItself(e.fields[k]);
          }
        }
      }
    } else if Fits(a, e) {
      ExtendsItself(e);
    }
  }

  lemma {:induction false} PutExtends(a: Slot, c: Slot, e: Slot)
    requires ExtendsSlot(a, c) && CleanSlot(e) && !c.Bad?
    ensures ExtendsSlot(Put(a, e), Put(c, e)) && (Put(c, e).Bad? ==> Put(a, e).Bad?)
  {
    if a.Has? && e.Has? {
      if c.Has? {
        ExtendsOver(a.tree, c.tree, e.tree);
      } else if Fits(a.tree, e.tree) {
        OverExtends(a.tree, e.tree);
      }
    } else if e.Has? {
      ExtendsItself(e.tree);
    }
  }

  /** What conflicts without the base conflicts over it. */
  lemma {:induction false} ConflictsStay(x: Slot, ss: seq<Slot>)
    requires AllClean(ss)
    ensures ExtendsSlot(Pile(x, ss), Pile(Absent, ss))
    ensures Pile(Absent, ss).Bad? ==> Pile(x, ss).Bad?
    decreases |ss|
  {
    if ss != [] {
      ConflictsStay(x, ss[..|ss| - 1]);
      if !Pile(Absent, ss[..|ss| - 1]).Bad? {
        PutExtends(Pile(x, ss[..|ss| - 1]), Pile(Absent, ss[..|ss| - 1]), ss[|ss| - 1]);
      }
    }
  }

  // ---------------------------------------------------------------------------
  // Blocks, key by key
  // ---------------------------------------------------------------------------

  predicate BadBelow(x: Slot, ss: seq<Slot>, k: Key) {
    Pile(Below(x, k), AllBelow(ss, k)).Bad?
  }

  /** `p` is what becomes of `x`: a conflict exactly when some key is, else what its keys become. */
  ghost predicate Grown(x: Slot, ss: seq<Slot>, p: Slot) {
    && (p.Bad? <==> exists k :: BadBelow(x, ss, k))
    && (!p.Bad? ==> BlockSlot(p)
                    && forall k {:trigger Below(p, k)} :: Below(p, k) == Pile(Below(x, k), AllBelow(ss, k)))
  }

  lemma {:induction false} BelowSplits(ss: seq<Slot>, k: Key)
    requires ss != []
    ensures AllBelow(ss, k) != [] && AllBelow(ss, k)[|ss| - 1] == Below(ss[|ss| - 1], k)
    ensures AllBelow(ss, k)[..|ss| - 1] == AllBelow(ss[..|ss| - 1], k)
  {
  }

  lemma {:induction false} PutBlocks(x: Slot, y: Slot)
    requires x.Has? && y.Has? && CleanSlot(x) && CleanSlot(y) && x.tree.Block? && y.tree.Block?
    ensures Put(x, y).Bad? ==> exists k :: Put(Below(x, k), Below(y, k)).Bad?
    ensures !Put(x, y).Bad? ==>
            forall k {:trigger Below(Put(x, y), k)} :: Below(Put(x, y), k) == Put(Below(x, k), Below(y, k))
  {
    if Fits(x.tree, y.tree) {
      forall k ensures Below(Put(x, y), k) == Put(Below(x, k), Below(y, k)) {
        BlockSlots(x.tree, y.tree, k);
      }
    } else {
      var bad := UnfitHasBadSlot(x.tree, y.tree);
      assert Put(Below(x, bad), Below(y, bad)).Bad?;
    }
  }

  lemma {:induction false} PileGrows(x: Slot, ss: seq<Slot>)
    requires CleanSlot(x) && BlockSlot(x) && AllClean(ss) && AllBlocks(ss)
    ensures Grown(x, ss, Pile(x, ss))
    decreases |ss|
  {
    if ss == [] {
      forall k ensures Pile(Below(x, k), AllBelow(ss, k)) == Below(x, k) {
        assert AllBelow(ss, k) == [];
      }
      assert forall k :: !BadBelow(x, ss, k);
    } else {
      var before, last := ss[..|ss| - 1], ss[|ss| - 1];
      var p := Pile(x, before);
      PileGrows(x, before);
      PileIsClean(x, before);
      assert before + [last] == ss;
      forall k ensures Pile(Below(x, k), AllBelow(ss, k)) == Put(Pile(Below(x, k), AllBelow(before, k)), Below(last,
          k)) {
        BelowSplits(ss, k);
      }
      GrowsOneMore(x, before, last, p);
    }
  }

  lemma {:induction false} GrowsOneMore(x: Slot, before: seq<Slot>, last: Slot, p: Slot)
    requires Grown(x, before, p) && (p.Bad? || CleanSlot(p)) && CleanSlot(last) && BlockSlot(last)
    requires forall k :: Pile(Below(x, k), AllBelow(before + [last], k))
                         == Put(Pile(Below(x, k), AllBelow(before, k)), Below(last, k))
    ensures Grown(x, before + [last], Put(p, last))
  {
    var ss := before + [last];
    if p.Bad? {
      var k :| BadBelow(x, before, k);
      assert BadBelow(x, ss, k);
    } else {
      if p.Has? && last.Has? {
        PutBlocks(p, last);
      }
      forall k ensures !Put(p, last).Bad? ==> Below(Put(p, last), k) == Pile(Below(x, k), AllBelow(ss, k)) {
        assert Below(p, k) == Pile(Below(x, k), AllBelow(before, k));
      }
      if Put(p, last).Bad? {
        var k :| Put(Below(p, k), Below(last, k)).Bad?;
        assert BadBelow(x, ss, k);
      } else {
        forall k ensures !BadBelow(x, ss, k) {
          assert Below(Put(p, last), k) == Pile(Below(x, k), AllBelow(ss, k));
        }
      }
    }
  }

  // ---------------------------------------------------------------------------
  // One layer after another, of one kind
  // ---------------------------------------------------------------------------

  predicate SameKind(t: Tree, ss: seq<Slot>) {
    forall i | 0 <= i < |ss| :: ss[i].Has? ==> ss[i].tree.Block? == t.Block?
  }

  /** Without nulls and sentinels, values of another kind conflict, in turn and compacted. */
  lemma {:induction false} KindsConflict(x: Tree, ss: seq<Slot>)
    requires Clean(x) && !x.Null? && AllClean(ss) && NoNulls(ss)
    ensures Pile(Has(x), ss).Bad? || (Pile(Has(x), ss).Has? && !Pile(Has(x), ss).tree.Null?
                                      && Pile(Has(x), ss).tree.Block? == x.Block? && SameKind(x, ss))
    decreases |ss|
  {
    if ss != [] {
      KindsConflict(x, ss[..|ss| - 1]);
    }
  }

  lemma {:induction false} CompactedKinds(x: Tree, ss: seq<Slot>)
    requires AllClean(ss) && NoNulls(ss)
    ensures var c := Pile(Absent, ss);
            c.Bad? || (c.Absent? && SameKind(x, ss)) || (c.Has? && !c.tree.Null? && (SameKind(x, ss) <==>
                c.tree.Block? == x.Block?))
    decreases |ss|
  {
    if ss != [] {
      CompactedKinds(x, ss[..|ss| - 1]);
    }
  }

  lemma {:induction false} LeavesReplace(x: Slot, ss: seq<Slot>)
    requires x.Has? && x.tree.Leaf? && AllClean(ss) && NoNulls(ss) && SameKind(x.tree, ss)
    ensures Pile(x, ss) == Put(x, Pile(Absent, ss))
    ensures Pile(x, ss).Has? && Pile(x, ss).tree.Leaf?
    ensures Pile(Absent, ss).Absent? || (Pile(Absent, ss).Has? && Pile(Absent, ss).tree.Leaf?)
    decreases |ss|
  {
    if ss != [] {
      LeavesReplace(x, ss[..|ss| - 1]);
    }
  }

  // ---------------------------------------------------------------------------
  // The exact condition
  // ---------------------------------------------------------------------------

  function LastNull(ss: seq<Slot>): (n: nat)
    requires !NoNulls(ss)
    ensures n < |ss| && NullSlot(ss[n]) && NoNulls(ss[n + 1..])
    decreases |ss|
  {
    var before := ss[..|ss| - 1];
    if NullSlot(ss[|ss| - 1]) then |ss| - 1
    else
      assert forall i | 0 <= i < |before| :: before[i] == ss[i];
      assert ss[LastNull(before) + 1..] == before[LastNull(before) + 1..] + [ss[|ss| - 1]];
      LastNull(before)
  }

  /**
   A null wrote the base away and compaction forgot it. What was written since the last null must
   replace everything the base has here; where that or the layers below it conflict, both must.
   */
  predicate NullsAreFinal(x: Tree, ss: seq<Slot>)
    requires !NoNulls(ss)
  {
    var n := LastNull(ss);
    var since := Pile(Has(Null), ss[n + 1..]);
    if Pile(Has(x), ss[..n]).Bad? then Pile(Absent, ss[..n]).Bad? || Put(Has(x), since).Bad?
    else since.Bad? || (since.Has? && Fits(x, since.tree) && Covers(x, since.tree))
  }

  ghost predicate ErrsInTurn(x: Tree, ss: seq<Slot>) {
    exists k :: BadBelow(Has(x), ss, k)
  }

  predicate BadCompacted(x: Tree, ss: seq<Slot>, k: Key) {
    Put(Below(Has(x), k), Pile(Absent, AllBelow(ss, k))).Bad?
  }

  ghost predicate ErrsCompacted(x: Tree, ss: seq<Slot>) {
    exists k :: BadCompacted(x, ss, k)
  }

  /**
   Compacting the layers loses nothing over `x`: at every depth every null is final, unless both ways
   end in a conflict.
   */
  ghost predicate Faithful(x: Tree, ss: seq<Slot>)
    decreases x
  {
    if !NoNulls(ss) then NullsAreFinal(x, ss)
    else if x.Block? && AllBlocks(ss) then
      (forall k | k in x.fields :: Faithful(x.fields[k], AllBelow(ss, k))) || (ErrsInTurn(x, ss)
          && ErrsCompacted(x, ss))
    else true
  }

  predicate Agrees(x: Slot, ss: seq<Slot>) {
    Pile(x, ss) == Put(x, Pile(Absent, ss))
  }

  lemma {:induction false} FinalExactly(x: Tree, ss: seq<Slot>)
    requires Clean(x) && AllClean(ss) && !NoNulls(ss)
    ensures Agrees(Has(x), ss) <==> NullsAreFinal(x, ss)
  {
    var n := LastNull(ss);
    var tail := ss[n + 1..];
    var since := Pile(Has(Null), tail);
    PileFromNull(Has(x), ss, n);
    PileFromNull(Absent, ss, n);
    assert AllClean(ss[..n]) && AllClean(tail);
    ConflictsStay(Has(x), ss[..n]);
    PileIsClean(Has(Null), tail);
    NullIsNothing(tail);
    if since.Has? && Fits(x, since.tree) {
      CoversMeansReplaces(x, since.tree);
    }
  }

  /** After a null only what follows it matters, unless there was a conflict before. */
  lemma {:induction false} PileFromNull(x: Slot, ss: seq<Slot>, n: nat)
    requires n < |ss| && NullSlot(ss[n])
    ensures Pile(x, ss) == if Pile(x, ss[..n]).Bad? then Bad else Pile(Has(Null), ss[n + 1..])
  {
    PileSplits(x, ss, n + 1);
    assert ss[..n + 1][..n] == ss[..n];
    BadStays(ss[n + 1..]);
  }

  lemma {:induction false} BelowIsClean(ss: seq<Slot>, k: Key)
    requires AllClean(ss)
    ensures AllClean(AllBelow(ss, k))
  {
    forall i | 0 <= i < |ss| ensures CleanSlot(AllBelow(ss, k)[i]) {
      assert CleanSlot(ss[i]);
    }
  }

  /** The compacted layers over a block, key by key. */
  lemma {:induction false} CompactedGrows(x: Tree, ss: seq<Slot>) returns (g: Slot)
    requires Clean(x) && x.Block? && AllClean(ss) && AllBlocks(ss)
    ensures g == Put(Has(x), Pile(Absent, ss))
    ensures g.Bad? <==> ErrsCompacted(x, ss)
    ensures !g.Bad? ==> g.Has? && g.tree.Block?
    ensures !g.Bad? ==> forall k {:trigger Below(g, k)} :: Below(g, k) == Put(Below(Has(x), k), Pile(Absent,
            AllBelow(ss, k)))
  {
    var c := Pile(Absent, ss);
    g := Put(Has(x), c);
    PileGrows(Absent, ss);
    PileIsClean(Absent, ss);
    if c.Bad? {
      var k :| BadBelow(Absent, ss, k);
      assert BadCompacted(x, ss, k);
    } else {
      forall k ensures Pile(Absent, AllBelow(ss, k)) == Below(c, k) {
      }
      if c.Has? {
        PutBlocks(Has(x), c);
      }
      if g.Bad? {
        var k :| Put(Below(Has(x), k), Below(c, k)).Bad?;
        assert BadCompacted(x, ss, k);
      } else {
        forall k ensures !BadCompacted(x, ss, k) {
          assert Below(g, k) == Put(Below(Has(x), k), Below(c, k));
        }
      }
    }
  }

  lemma {:induction false} BlocksExactly(x: Tree, ss: seq<Slot>)
    requires Clean(x) && x.Block? && AllClean(ss) && AllBlocks(ss)
    requires forall k | k in x.fields :: Agrees(Below(Has(x), k), AllBelow(ss, k)) <==>
             Faithful(x.fields[k], AllBelow(ss, k))
    ensures Agrees(Has(x), ss) <==> (forall k | k in x.fields :: Faithful(x.fields[k], AllBelow(ss, k)))
                                    || (ErrsInTurn(x, ss) && ErrsCompacted(x, ss))
  {
    var p := Pile(Has(x), ss);
    var g := CompactedGrows(x, ss);
    PileGrows(Has(x), ss);
    KindsHold(x, ss);
    forall k ensures KeyAgrees(x, ss, k) <==> k in x.fields ==> Faithful(x.fields[k], AllBelow(ss, k)) {
      assert k !in x.fields ==> Below(Has(x), k) == Absent;
    }
    if p.Bad? && !g.Bad? {
      var k :| BadBelow(Has(x), ss, k);
      assert !BadCompacted(x, ss, k);
      assert !KeyAgrees(x, ss, k);
    } else if !p.Bad? && g.Bad? {
      var k :| BadCompacted(x, ss, k);
      assert !BadBelow(Has(x), ss, k);
      assert !KeyAgrees(x, ss, k);
    } else if !p.Bad? && !g.Bad? {
      if forall k :: KeyAgrees(x, ss, k) {
        forall k ensures SlotOf(p.tree, k) == SlotOf(g.tree, k) {
          assert KeyAgrees(x, ss, k);
          assert Below(p, k) == SlotOf(p.tree, k) && Below(g, k) == SlotOf(g.tree, k);
        }
        SameSlotsSameTree(p.tree, g.tree);
      } else {
        var k :| !KeyAgrees(x, ss, k);
        assert Below(p, k) != Below(g, k);
      }
    }
  }

  predicate KeyAgrees(x: Tree, ss: seq<Slot>, k: Key) {
    Agrees(Below(Has(x), k), AllBelow(ss, k))
  }

  /** Blocks over a block are a block, or a conflict. */
  lemma {:induction false} KindsHold(x: Tree, ss: seq<Slot>)
    requires x.Block? && AllBlocks(ss)
    ensures Pile(Has(x), ss).Bad? || (Pile(Has(x), ss).Has? && Pile(Has(x), ss).tree.Block?)
    decreases |ss|
  {
    if ss != [] {
      KindsHold(x, ss[..|ss| - 1]);
    }
  }

  /** In turn and compacted first agree, values and conflicts alike, exactly when nothing is forgotten. */
  lemma {:induction false} FaithfulExactly(x: Tree, ss: seq<Slot>)
    requires Clean(x) && AllClean(ss)
    ensures Agrees(Has(x), ss) <==> Faithful(x, ss)
    decreases x
  {
    if !NoNulls(ss) {
      FinalExactly(x, ss);
    } else if x.Block? && AllBlocks(ss) {
      forall k | k in x.fields
        ensures Agrees(Below(Has(x), k), AllBelow(ss, k)) <==> Faithful(x.fields[k], AllBelow(ss, k))
      {
        BelowIsClean(ss, k);
        FaithfulExactly(x.fields[k], AllBelow(ss, k));
      }
      BlocksExactly(x, ss);
    } else if x.Null? {
      NullIsNothing(ss);
    } else {
      OtherKindsAgree(x, ss);
    }
  }

  lemma {:induction false} OtherKindsAgree(x: Tree, ss: seq<Slot>)
    requires Clean(x) && !x.Null? && AllClean(ss) && NoNulls(ss) && !(x.Block? && AllBlocks(ss))
    ensures Agrees(Has(x), ss)
  {
    KindsConflict(x, ss);
    CompactedKinds(x, ss);
    PileIsClean(Absent, ss);
    if x.Leaf? && SameKind(x, ss) {
      LeavesReplace(Has(x), ss);
    }
  }

  // ---------------------------------------------------------------------------
  // Two layers over a third
  // ---------------------------------------------------------------------------

  /** A tree, or a conflict. */
  function AsSlot(t: Option<Tree>): Slot {
    if t.Some? then Has(t.value) else Bad
  }

  lemma {:induction false} JoinIsPut(x: Option<Tree>, y: Option<Tree>)
    ensures AsSlot(Join(x, y)) == Put(AsSlot(x), AsSlot(y))
  {
  }

  lemma {:induction false} PileOfTwo(x: Slot, s: Slot, t: Slot)
    ensures Pile(x, [s, t]) == Put(Put(x, s), t)
  {
    assert [s, t][..1] == [s] && [s][..0] == [];
    assert Pile(x, [s]) == Put(Pile(x, [s][..0]), s);
  }

  /**
   Grouping two layers first changes nothing, values and errors alike, exactly when nothing is
   forgotten: for a null in the middle, when the last layer fits and covers what is below; for a null
   on top, when the two below do not conflict.
   */
  lemma {:induction false} GroupingExactly(a: Tree, b: Tree, c: Tree)
    requires Clean(a) && Clean(b) && Clean(c)
    ensures var same := Join(Join(Some(a), Some(b)), Some(c)) == Join(Some(a), Join(Some(b), Some(c)));
            && (same <==> Faithful(a, [Has(b), Has(c)]))
            && (b.Null? ==> (same <==> Fits(a, c) && Covers(a, c)))
            && (c.Null? ==> (same <==> Fits(a, b)))
  {
    var ss := [Has(b), Has(c)];
    FaithfulExactly(a, ss);
    PileOfTwo(Has(a), Has(b), Has(c));
    PileOfTwo(Absent, Has(b), Has(c));
    if b.Null? && !c.Null? && Fits(a, c) {
      CoversMeansReplaces(a, c);
    }
  }
}
