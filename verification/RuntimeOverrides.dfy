/** Overrides of the configuration that live in memory, stacked over the layers on disk. */
module RuntimeOverrides {
  import opened Wrappers
  import opened Merge
  import opened Stacks

  type AgentId = string

  /** An accepted `set`: None goes to the global layer, else to the layer of that agent. */
  datatype Entry = Entry(agent: Option<AgentId>, path: Path, value: Tree)

  datatype Notice = Notice(agent: AgentId, channel: string, chat: string, text: string)

  /** A value at a path, as a tree. */
  function Nest(path: Path, value: Tree): Tree {
    if path == [] then value else Block(map[path[0] := Nest(path[1..], value)])
  }

  lemma {:induction false} NestHolds(path: Path, value: Tree)
    ensures At(Nest(path, value), path) == Some(value)
    ensures forall q | q != path && q < path :: At(Nest(path, value), q).Some? && At(Nest(path, value), q).value.Block?
    ensures Plain(value) ==> Plain(Nest(path, value))
    ensures Clean(value) ==> Clean(Nest(path, value))
    decreases |path|
  {
    if path != [] {
      NestHolds(path[1..], value);
      forall q | q != path && q < path
        ensures At(Nest(path, value), q).Some? && At(Nest(path, value), q).value.Block?
      {
        if q != [] {
          assert q[1..] < path[1..];
        }
      }
    }
  }

  /** Builds the tree from the last key of the path to the first. */
  method NestFromInside(path: Path, value: Tree) returns (node: Tree)
    ensures node == Nest(path, value)
  {
    node := value;
    var i := |path|;
    assert path[i..] == [];
    while i > 0
      invariant 0 <= i <= |path|
      invariant node == Nest(path[i..], value)
    {
      i := i - 1;
      assert path[i..][1..] == path[i + 1..];
      node := Block(map[path[i] := node]);
    }
    assert path[0..] == path;
  }

  /** The layer of one target: its entries in order, each over the ones before. */
  function Compacted(entries: seq<Entry>, agent: Option<AgentId>): Option<Tree> {
    Applied(Some(EMPTY), entries, agent)
  }

  /** Each override in turn, over a base. */
  function Applied(base: Option<Tree>, entries: seq<Entry>, agent: Option<AgentId>): Option<Tree>
    decreases |entries|
  {
    if entries == [] then base
    else
      var last := entries[|entries| - 1];
      var before := Applied(base, entries[..|entries| - 1], agent);
      if last.agent == agent then Join(before, Some(Nest(last.path, last.value))) else before
  }

  class OverrideStack {
    var entries: seq<Entry>
    var notices: seq<Notice>

    constructor ()
      ensures Valid() && entries == [] && notices == []
    {
      entries, notices := [], [];
    }

    /** Every layer can be materialised, and every path leads somewhere. */
    ghost predicate Valid()
      reads this
    {
      && (forall i | 0 <= i < |entries| :: entries[i].path != [])
      && (forall agent :: Compacted(entries, agent).Some?)
    }

    /** A copy with one more entry; nothing is committed. */
    method With(entry: Entry) returns (candidate: OverrideStack)
      ensures fresh(candidate) && candidate.entries == entries + [entry] && candidate.notices == []
    {
      candidate := new OverrideStack();
      candidate.entries := entries + [entry];
    }

    /** Stacks the entries of one target. */
    method Materialize(agent: Option<AgentId>) returns (layer: Option<Tree>)
      requires forall i | 0 <= i < |entries| :: entries[i].path != []
      ensures layer == Compacted(entries, agent)
      ensures layer.Some? ==> layer.value.Block?
    {
      var merged := EMPTY;
      var i := 0;
      assert entries[..0] == [];
      while i < |entries|
        invariant 0 <= i <= |entries|
        invariant merged.Block? && Some(merged) == Compacted(entries[..i], agent)
      {
        assert entries[..i + 1][..i] == entries[..i];
        if entries[i].agent == agent {
          var node := NestFromInside(entries[i].path, entries[i].value);
          var r := DeepMerge(merged, node);
          if r.Err? {
            ConflictStays(entries, agent, i + 1);
            return None;
          }
          merged := r.value;
        }
        i := i + 1;
      }
      assert entries[..i] == entries;
      return Some(merged);
    }

    /** The agents that have entries, each once, in order. */
    method Agents() returns (agents: seq<AgentId>)
      ensures forall i | 0 <= i < |entries| && entries[i].agent.Some? :: entries[i].agent.value in agents
      ensures forall a | a in agents :: exists i :: 0 <= i < |entries| && entries[i].agent == Some(a)
      ensures forall i, j | 0 <= i < j < |agents| :: agents[i] != agents[j]
    {
      agents := [];
      var i := 0;
      while i < |entries|
        invariant 0 <= i <= |entries|
        invariant forall j | 0 <= j < i && entries[j].agent.Some? :: entries[j].agent.value in agents
        invariant forall a | a in agents :: exists j :: 0 <= j < i && entries[j].agent == Some(a)
        invariant forall j, k | 0 <= j < k < |agents| :: agents[j] != agents[k]
      {
        if entries[i].agent.Some? && entries[i].agent.value !in agents {
          agents := agents + [entries[i].agent.value];
        }
        i := i + 1;
      }
    }

    /** Can every layer be materialised? */
    method Materializes() returns (ok: bool)
      requires forall i | 0 <= i < |entries| :: entries[i].path != []
      ensures ok <==> forall agent :: Compacted(entries, agent).Some?
    {
      var top := Materialize(None);
      if top.None? {
        return false;
      }
      var agents := Agents();
      var i := 0;
      while i < |agents|
        invariant 0 <= i <= |agents|
        invariant forall j | 0 <= j < i :: Compacted(entries, Some(agents[j])).Some?
      {
        var layer := Materialize(Some(agents[i]));
        if layer.None? {
          assert Compacted(entries, Some(agents[i])).None?;
          return false;
        }
        i := i + 1;
      }
      forall agent ensures Compacted(entries, agent).Some? {
        if agent.Some? && agent.value !in agents {
          NothingForOthers(Some(EMPTY), entries, agent);
        }
      }
      return true;
    }

    /** Commits an entry if every layer still materialises; otherwise the store is left as it was. */
    method Add(entry: Entry, notice: Option<Notice>) returns (ok: bool)
      requires Valid() && entry.path != []
      modifies this
      ensures Valid()
      ensures ok <==> Compacted(old(entries) + [entry], entry.agent).Some?
      ensures ok ==> entries == old(entries) + [entry]
                     && notices == old(notices) + if notice.Some? then [notice.value] else []
      ensures !ok ==> entries == old(entries) && notices == old(notices)
      ensures forall agent | agent != entry.agent :: Compacted(entries, agent) == Compacted(old(entries), agent)
      ensures ok && entry.value.Leaf? ==> At(Compacted(entries, entry.agent).value, entry.path) == Some(entry.value)
      ensures ok && entry.value.Delete? ==>
                At(Compacted(entries, entry.agent).value, entry.path) in {None, Some(Delete)}
    {
      var candidate := With(entry);
      ok := candidate.Materializes();
      forall agent | agent != entry.agent ensures Compacted(entries + [entry], agent) == Compacted(entries, agent) {
        assert (entries + [entry])[..|entries|] == entries;
      }
      if ok {
        LastSetWins(entries, entry);
        entries := candidate.entries;
        if notice.Some? {
          notices := notices + [notice.value];
        }
      }
    }

    /** Empties the store, and returns what was dropped, in order. */
    method DiscardAll() returns (dropped: seq<Entry>)
      requires Valid()
      modifies this
      ensures Valid() && entries == [] && notices == [] && dropped == old(entries)
    {
      dropped := entries;
      entries, notices := [], [];
    }

    /** Each notice is handed out once. */
    method TakeNotices() returns (taken: seq<Notice>)
      requires Valid()
      modifies `notices
      ensures Valid() && taken == old(notices) && notices == []
    {
      taken := notices;
      notices := [];
    }
  }

  /** The layer holds the last value that was set, and nothing but a sentinel where the last one deletes. */
  lemma {:induction false} LastSetWins(entries: seq<Entry>, entry: Entry)
    requires forall i | 0 <= i < |entries| :: entries[i].path != []
    requires entry.path != [] && Compacted(entries + [entry], entry.agent).Some?
    ensures var z := Compacted(entries + [entry], entry.agent).value;
            && (entry.value.Leaf? ==> At(z, entry.path) == Some(entry.value))
            && (entry.value.Delete? ==> At(z, entry.path) in {None, Some(Delete)})
  {
    var node := Nest(entry.path, entry.value);
    assert (entries + [entry])[..|entries|] == entries;
    var below := Compacted(entries, entry.agent).value;
    var z := Compacted(entries + [entry], entry.agent).value;
    NestHolds(entry.path, entry.value);
    LayerIsBlock(entries, entry.agent);
    OverByPaths(below, node);
    if entry.value.Leaf? {
      UpperLeafWins(below, node, z, entry.path);
    }
    if entry.value.Delete? {
      assert entry.path[..|entry.path|] == entry.path;
      DeletedIsGone(below, node, entry.path);
    }
  }

  lemma {:induction false} LayerIsBlock(entries: seq<Entry>, agent: Option<AgentId>)
    requires forall i | 0 <= i < |entries| :: entries[i].path != []
    ensures Compacted(entries, agent).Some? ==> Compacted(entries, agent).value.Block?
    decreases |entries|
  {
    if entries != [] {
      LayerIsBlock(entries[..|entries| - 1], agent);
    }
  }

  /** A conflict is not repaired by later entries. */
  lemma {:induction false} ConflictStays(entries: seq<Entry>, agent: Option<AgentId>, i: nat)
    requires i <= |entries| && Compacted(entries[..i], agent).None?
    ensures Compacted(entries, agent).None?
    decreases |entries|
  {
    if i == |entries| {
      assert entries[..i] == entries;
    } else {
      assert entries[..|entries| - 1][..i] == entries[..i];
      ConflictStays(entries[..|entries| - 1], agent, i);
    }
  }

  lemma {:induction false} NothingForOthers(base: Option<Tree>, entries: seq<Entry>, agent: Option<AgentId>)
    requires forall i | 0 <= i < |entries| :: entries[i].agent != agent
    ensures Applied(base, entries, agent) == base
    decreases |entries|
  {
    if entries != [] {
      NothingForOthers(base, entries[..|entries| - 1], agent);
    }
  }

  // ---------------------------------------------------------------------------
  // Compaction
  // ---------------------------------------------------------------------------

  lemma {:induction false} CompactedIsPlain(entries: seq<Entry>, agent: Option<AgentId>)
    requires forall i | 0 <= i < |entries| :: entries[i].path != [] && Plain(entries[i].value)
    ensures Compacted(entries, agent).Some? ==> Plain(Compacted(entries, agent).value)
                                                && Compacted(entries, agent).value.Block?
    decreases |entries|
  {
    if entries != [] {
      var last := entries[|entries| - 1];
      var before := Compacted(entries[..|entries| - 1], agent);
      CompactedIsPlain(entries[..|entries| - 1], agent);
      NestHolds(last.path, last.value);
      if before.Some? && Fits(before.value, Nest(last.path, last.value)) {
        OverIsPlain(before.value, Nest(last.path, last.value));
      }
    }
  }

  lemma {:induction false} NothingOver(base: Tree)
    requires base.Block?
    ensures Join(Some(base), Some(EMPTY)) == Some(base)
  {
    assert Over(base, EMPTY).fields == base.fields;
  }

  /** The compacted layer over a base is every override in turn, errors included, if no value holds a null. */
  lemma {:induction false} CompactionIsTransparent(base: Tree, entries: seq<Entry>, agent: Option<AgentId>)
    requires base.Block? && Clean(base)
    requires forall i | 0 <= i < |entries| :: entries[i].path != [] && Plain(entries[i].value)
    ensures Join(Some(base), Compacted(entries, agent)) == Applied(Some(base), entries, agent)
    decreases |entries|
  {
    if entries == [] {
      NothingOver(base);
    } else {
      var last := entries[|entries| - 1];
      var before := entries[..|entries| - 1];
      CompactionIsTransparent(base, before, agent);
      CompactedIsPlain(before, agent);
      NestHolds(last.path, last.value);
      if last.agent == agent && Compacted(before, agent).Some? {
        GroupingPlain(base, Compacted(before, agent).value, Nest(last.path, last.value));
      }
    }
  }

  /** The entries of one target as layers; those of others leave it alone. */
  function Layers(entries: seq<Entry>, agent: Option<AgentId>): seq<Slot> {
    seq(|entries|, i requires 0 <= i < |entries| => LayerOf(entries[i], agent))
  }

  function LayerOf(entry: Entry, agent: Option<AgentId>): Slot {
    if entry.agent == agent then Has(Nest(entry.path, entry.value)) else Absent
  }

  lemma {:induction false} AppliedIsPile(base: Option<Tree>, entries: seq<Entry>, agent: Option<AgentId>)
    ensures AsSlot(Applied(base, entries, agent)) == Pile(AsSlot(base), Layers(entries, agent))
    decreases |entries|
  {
    if entries != [] {
      var before := entries[..|entries| - 1];
      assert Layers(entries, agent)[..|entries| - 1] == Layers(before, agent);
      AppliedIsPile(base, before, agent);
    }
  }

  lemma {:induction false} LayersAreBlocks(entries: seq<Entry>, agent: Option<AgentId>)
    requires forall i | 0 <= i < |entries| :: entries[i].path != [] && Clean(entries[i].value)
    ensures AllClean(Layers(entries, agent)) && AllBlocks(Layers(entries, agent))
  {
    forall i | 0 <= i < |entries|
      ensures CleanSlot(Layers(entries, agent)[i]) && BlockSlot(Layers(entries, agent)[i])
    {
      NestHolds(entries[i].path, entries[i].value);
    }
  }

  /** An empty block underneath is as good as nothing. */
  lemma {:induction false} EmptyIsNothing(ss: seq<Slot>)
    requires AllClean(ss) && AllBlocks(ss)
    ensures Pile(Has(EMPTY), ss) == if Pile(Absent, ss).Absent? then Has(EMPTY) else Pile(Absent, ss)
    decreases |ss|
  {
    if ss != [] {
      EmptyIsNothing(ss[..|ss| - 1]);
      var last := ss[|ss| - 1];
      assert CleanSlot(last) && BlockSlot(last);
      if last.Has? {
        OverNothing(last.tree);
      }
    }
  }

  /**
   The compacted layer over a base is every override in turn, errors included, exactly when nothing is
   forgotten: wherever an entry wrote null, what was written since replaces all that the base has there.
   */
  lemma {:induction false} CompactionExactly(base: Tree, entries: seq<Entry>, agent: Option<AgentId>)
    requires base.Block? && Clean(base)
    requires forall i | 0 <= i < |entries| :: entries[i].path != [] && Clean(entries[i].value)
    ensures Join(Some(base), Compacted(entries, agent)) == Applied(Some(base), entries, agent)
            <==> Faithful(base, Layers(entries, agent))
  {
    var ss := Layers(entries, agent);
    LayersAreBlocks(entries, agent);
    AppliedIsPile(Some(base), entries, agent);
    AppliedIsPile(Some(EMPTY), entries, agent);
    EmptyIsNothing(ss);
    NothingOver(base);
    assert Put(Has(base), Has(EMPTY)) == Has(base);
    JoinIsPut(Some(base), Compacted(entries, agent));
    FaithfulExactly(base, ss);
  }

  lemma {:induction false} AppliedTwice(base: Option<Tree>, e0: Entry, e1: Entry)
    requires e0.agent == e1.agent
    ensures Applied(base, [e0, e1], e0.agent)
         == Join(Join(base, Some(Nest(e0.path, e0.value))), Some(Nest(e1.path, e1.value)))
  {
    assert [e0, e1][..1] == [e0] && [e0][..0] == [];
    assert Applied(base, [e0], e0.agent) == Join(base, Some(Nest(e0.path, e0.value)));
  }

  lemma {:induction false} NestIsSingle(k: Key, t: Tree)
    ensures Nest([k], t) == Single(k, t)
  {
    assert [k][1..] == [];
  }

  /** With a null it is not: over a block, null and then a key below it bring the old block back. */
  lemma {:induction false} CompactionForgetsNull()
    ensures var base, entries := Single("k", X1), [Entry(None, ["k"], Null), Entry(None, ["k"], Y2)];
            && Applied(Some(base), entries, None) == Some(Single("k", Y2))
            && Join(Some(base), Compacted(entries, None)) == Some(Single("k", BOTH))
  {
    AppliedTwice(Some(Single("k", X1)), Entry(None, ["k"], Null), Entry(None, ["k"], Y2));
    AppliedTwice(Some(EMPTY), Entry(None, ["k"], Null), Entry(None, ["k"], Y2));
    NestIsSingle("k", Null);
    NestIsSingle("k", Y2);
    SingleJoin("k", EMPTY, Null);
    NullIsForgotten();
  }

  /**
   Nor need it even merge: over a block, null and then a value in its place are accepted by the stack
   and apply in turn, but their compacted layer conflicts with the base.
   */
  lemma {:induction false} CompactionInventsConflict()
    ensures var base, entries := Single("k", X1), [Entry(None, ["k"], Null), Entry(None, ["k"], Leaf(Text("2")))];
            && Applied(Some(base), entries, None) == Some(Single("k", Leaf(Text("2"))))
            && Compacted(entries, None).Some?
            && Join(Some(base), Compacted(entries, None)) == None
  {
    var two := Leaf(Text("2"));
    AppliedTwice(Some(Single("k", X1)), Entry(None, ["k"], Null), Entry(None, ["k"], two));
    AppliedTwice(Some(EMPTY), Entry(None, ["k"], Null), Entry(None, ["k"], two));
    NestIsSingle("k", Null);
    NestIsSingle("k", two);
    SingleJoin("k", X1, Null);
    SingleJoin("k", Null, two);
    SingleJoin("k", X1, two);
  }
}
