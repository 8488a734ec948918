// core/recovery.go: what a new engine gets back from the block store.
module Recovery {
  import opened Domain
  import opened Crypto
  import opened Stake
  import opened Tree
  import opened Storage
  import opened Engine
  import opened Invariant
  import opened Theorems

  // ------------------------------------------------------- rebuilding the tree

  // The map that inserting the blocks one by one gives.
  function BlocksOf(p: seq<Block>): Blocks {
    if p == [] then map[] else BlocksOf(p[..|p| - 1])[p[|p| - 1].hash := p[|p| - 1]]
  }

  // A chain as the engine makes them.
  ghost predicate Chainlike(p: seq<Block>) {
    && p != [] && IsGenesis(p[0]) && Linked(p)
    && (forall i :: 0 <= i < |p| ==> p[i].hash != "" && p[i].hash != GENESIS_PARENT)
    && (forall i, j :: 0 <= i < j < |p| ==> p[i].hash != p[j].hash)
  }

  ghost predicate Named(p: seq<Block>, h: string) {
    exists i :: 0 <= i < |p| && p[i].hash == h
  }

  lemma {:induction false} BlocksNamed(p: seq<Block>, h: string)
    ensures h in BlocksOf(p) <==> Named(p, h)
  {
    if p != [] {
      var front, last := p[..|p| - 1], p[|p| - 1];
      BlocksNamed(front, h);
      if h != last.hash && Named(p, h) {
        var i :| 0 <= i < |p| && p[i].hash == h;
        assert front[i].hash == h;
      }
    }
  }

  lemma {:induction false} ChainTree(p: seq<Block>)
    requires Chainlike(p)
    ensures IsTree(BlocksOf(p), p[0]) && p[|p| - 1].hash in BlocksOf(p)
    ensures Path(BlocksOf(p), p[0], p[|p| - 1].hash) == p
  {
    hide IsTree, Path;
    var front, last := p[..|p| - 1], p[|p| - 1];
    if |p| == 1 {
      assert p == [last] && BlocksOf(front) == map[];
      SingleTree(last);
    } else {
      FrontChainlike(p);
      ChainTree(front);
      BlocksNamed(front, last.hash);
      TipExtends(front, last);
      InsertKeepsTree(BlocksOf(front), p[0], last);
      assert p == front + [last];
    }
  }

  lemma SingleTree(g: Block)
    requires Chainlike([g])
    ensures IsTree(map[g.hash := g], g) && Path(map[g.hash := g], g, g.hash) == [g]
  {
    assert [g][0] == g;
  }

  lemma FrontChainlike(p: seq<Block>)
    requires Chainlike(p) && |p| > 1
    ensures var front, last := p[..|p| - 1], p[|p| - 1];
      && Chainlike(front) && !Named(front, last.hash) && last.hash != "" && last.hash != GENESIS_PARENT
      && last.prevHash == front[|front| - 1].hash && last.index == front[|front| - 1].index + 1
      && last.slot > front[|front| - 1].slot && last.tick > front[|front| - 1].tick
  {
    hide IsGenesis;
  }

  lemma TipExtends(front: seq<Block>, b: Block)
    requires front != [] && front[|front| - 1].hash in BlocksOf(front)
    requires b.prevHash == front[|front| - 1].hash && b.index == front[|front| - 1].index + 1
    requires b.slot > front[|front| - 1].slot && b.tick > front[|front| - 1].tick
    ensures Extends(BlocksOf(front), b)
  {
  }

  // The store answers with this chain.
  ghost predicate Holds(s: Store, p: seq<Block>) {
    Chainlike(p) && GetTip(s) == Some(p[|p| - 1]) && Indexes(s, p)
  }

  // Blocks by height, as a store without a gap gives them: none twice, and each
  // parent that is among them just below its child.
  ghost predicate Layered(p: seq<Block>) {
    && (forall i :: 0 <= i < |p| ==> p[i].index == i)
    && (forall i, j :: 0 <= i < j < |p| ==> p[i].hash != p[j].hash)
    && (forall i, j :: 0 <= i < |p| && 0 <= j < |p| && p[i].prevHash == p[j].hash ==> i == j + 1)
  }

  lemma RangeLayered(s: Store)
    requires Stacked(s) && GetTip(s).Some? && !Gap(s)
    ensures Layered(RangeOf(s)) && RangeOf(s) != []
  {
    hide RangeOf, Gap;
    var p := RangeOf(s);
    forall i | 0 <= i < |p| ensures p[i].index == i && p[i].hash in s.blocks && s.blocks[p[i].hash] == p[i] {
      assert AtHeight(s, i) == Some(p[i]);
    }
  }

  // The walk back from the last block ends at a first block, or where the block
  // below is another one than the parent.
  function LinkedFrom(p: seq<Block>): (k: nat)
    requires p != []
    ensures k < |p|
    ensures forall i :: k < i < |p| ==> p[i].prevHash == p[i - 1].hash && p[i].prevHash != GENESIS_PARENT
    ensures k > 0 ==> p[k].prevHash == GENESIS_PARENT || p[k].prevHash != p[k - 1].hash
  {
    var last := |p| - 1;
    if last == 0 || p[last].prevHash == GENESIS_PARENT || p[last].prevHash != p[last - 1].hash then last
    else LinkedFrom(p[..last])
  }

  lemma {:induction false} BlocksAt(p: seq<Block>, i: nat)
    requires Layered(p) && i < |p|
    ensures p[i].hash in BlocksOf(p) && BlocksOf(p)[p[i].hash] == p[i]
    decreases |p|
  {
    var last := |p| - 1;
    if i < last {
      BlocksAt(p[..last], i);
    }
  }

  // A parent that is there is the block below.
  lemma ParentBelow(p: seq<Block>, i: nat)
    requires Layered(p) && i < |p|
    ensures p[i].prevHash in BlocksOf(p) <==> i > 0 && p[i].prevHash == p[i - 1].hash
  {
    hide BlocksOf;
    BlocksNamed(p, p[i].prevHash);
    if i > 0 {
      BlocksAt(p, i - 1);
    }
  }

  lemma LinkedStep(p: seq<Block>)
    requires p != []
    ensures var last := |p| - 1;
      LinkedFrom(p) == if last > 0 && p[last].prevHash != GENESIS_PARENT && p[last].prevHash == p[last - 1].hash
        then LinkedFrom(p[..last]) else last
  {
  }

  // One step of the walk: on to the block below if that is the parent, and no
  // further otherwise.
  lemma WalkOn(p: seq<Block>, i: nat)
    requires Layered(p) && i < |p|
    ensures var on := p[i].prevHash != GENESIS_PARENT && p[i].prevHash in BlocksOf(p);
      && (on ==> i > 0 && p[i].prevHash == p[i - 1].hash && LinkedFrom(p[..i + 1]) == LinkedFrom(p[..i]))
      && (!on ==> LinkedFrom(p[..i + 1]) == i)
  {
    hide BlocksOf, LinkedFrom, Layered;
    ParentBelow(p, i);
    LinkedStep(p[..i + 1]);
    assert p[..i + 1][..i] == p[..i];
  }

  // RestoreFromStorage on a store with a tip whose blocks by height are p:
  // blocks, parents, tip, chain, slot map, state and finality come from the
  // store, nothing else does.
  ghost function Restored(c: Primitives, r: Node, p: seq<Block>): Node
    requires p != []
  {
    var chain := p[LinkedFrom(p)..];
    var replayed := Replay(c, r.genesis, KeysOf(r.validators), chain);
    r.(
      blocks := BlocksOf(p),
      parents := ParentsOf(BlocksOf(p)),
      tip := p[|p| - 1].hash,
      chain := chain,
      slotProduced := SlotMap(chain),
      state := if replayed.Ok? then replayed.value else r.state,
      finalized := Finality(r.finalized, TipSlot(chain), r.cfg.finalitySlots))
  }

  lemma ChainIsChainlike(c: Primitives, n: Node)
    requires Inv(c, n)
    ensures Chainlike(n.chain)
  {
    hide Path, Ticking, Sealed, UniqueSlots, AllLed, Registry, Covered, Clocked, SnapshotsGood, SlotMap,
      Mempool.Consistent, CleanRecord;
    PathLinked(n.blocks, n.chain[0], n.tip);
    forall i, j | 0 <= i < j < |n.chain| ensures n.chain[i].hash != n.chain[j].hash {
      assert n.chain[i].index == i && n.chain[j].index == j;
    }
  }

  lemma NonEmpty(p: seq<Block>)
    requires Chainlike(p)
    ensures p != []
  {
  }

  lemma WholeChain(p: seq<Block>)
    requires Chainlike(p)
    ensures LinkedFrom(p) == 0 && p[0..] == p
  {
    hide IsGenesis, LinkedFrom;
    forall i | 0 < i < |p| ensures p[i].prevHash == p[i - 1].hash && p[i].prevHash != GENESIS_PARENT {
      assert p[i - 1].hash != GENESIS_PARENT;
    }
    assert LinkedFrom(p) == 0;
  }

  // The round trip: from a store that holds the canonical chain a new engine with
  // the same finality window gets back the chain, its tip, its slot map, the
  // finalised slot, and a tree that consists of that chain.
  lemma RoundTrip(c: Primitives, n: Node, r: Node)
    requires Inv(c, n) && n.store.Some? && Holds(n.store.value, n.chain)
    requires r.finalized == 0 && r.cfg.finalitySlots == n.cfg.finalitySlots
    ensures GetTip(n.store.value).Some? && !Gap(n.store.value) && RangeOf(n.store.value) == n.chain && n.chain != []
    ensures var m := Restored(c, r, n.chain);
      && m.chain == n.chain && m.tip == n.tip && m.slotProduced == n.slotProduced && m.finalized == n.finalized
      && IsTree(m.blocks, m.chain[0]) && m.tip in m.blocks && Path(m.blocks, m.chain[0], m.tip) == m.chain
  {
    hide TreeInv, CacheInv, Replay, SlotMap, Path, IsTree, RangeOf, BlocksOf, LinkedFrom, Chainlike, Holds, Finality,
      TipSlot;
    HeldIsRange(n.store.value, n.chain);
    WholeChain(n.chain);
    ChainTree(n.chain);
    FinalityBack(c, n, r);
  }

  lemma FinalityBack(c: Primitives, n: Node, r: Node)
    requires Inv(c, n) && r.finalized == 0 && r.cfg.finalitySlots == n.cfg.finalitySlots
    ensures n.chain != [] && n.chain[|n.chain| - 1].hash == n.tip && SlotMap(n.chain) == n.slotProduced
    ensures Finality(0, TipSlot(n.chain), r.cfg.finalitySlots) == n.finalized
  {
    hide TreeInv, SlotMap, Mempool.Consistent, CleanRecord, TipSlot;
    InvSane(c, n);
    TipInTree(n);
  }

  lemma HeldIsRange(s: Store, chain: seq<Block>)
    requires Holds(s, chain)
    ensures GetTip(s).Some? && !Gap(s) && RangeOf(s) == chain && Chainlike(chain)
  {
    hide RangeOf, IsGenesis;
    assert chain[|chain| - 1].index == |chain| - 1;
    forall h | 0 <= h <= GetTip(s).value.index ensures AtHeight(s, h) == Some(chain[h]) {
    }
    var p := RangeOf(s);
    forall i | 0 <= i < |p| ensures p[i] == chain[i] {
      assert AtHeight(s, i) == Some(p[i]);
    }
  }

  // Nothing else gives the chain back: from a store that an engine has filled, a
  // new engine gets it only if the store holds it.
  lemma OnlyHeldComesBack(c: Primitives, s: Store, r: Node, chain: seq<Block>)
    requires Stacked(s) && GetTip(s).Some? && !Gap(s) && Chainlike(chain)
    ensures Restored(c, r, RangeOf(s)).chain == chain ==> Holds(s, chain)
  {
    hide Restored, RangeOf, Gap, GetTip, Chainlike, Layered, Stacked, LinkedFrom, Holds, Indexes;
    RangeLayered(s);
    RestoredChain(c, r, RangeOf(s));
    if Restored(c, r, RangeOf(s)).chain == chain {
      EndIsWhole(RangeOf(s), chain);
      RangeHeld(s);
    }
  }

  lemma RangeHeld(s: Store)
    requires Stacked(s) && GetTip(s).Some? && !Gap(s) && Chainlike(RangeOf(s))
    ensures Holds(s, RangeOf(s))
  {
    hide RangeOf, Gap, GetTip, Stacked, Linked, IsGenesis;
    StackedTidy(s);
    RangeEnds(s);
  }

  lemma RestoredChain(c: Primitives, r: Node, p: seq<Block>)
    requires p != []
    ensures Restored(c, r, p).chain == p[LinkedFrom(p)..]
  {
    hide Replay, LinkedFrom, BlocksOf, SlotMap;
  }

  lemma StackedTidy(s: Store)
    requires Stacked(s)
    ensures Tidy(s)
  {
    hide Tidy;
  }

  lemma EndIsWhole(p: seq<Block>, chain: seq<Block>)
    requires p != [] && Layered(p) && Chainlike(chain) && p[LinkedFrom(p)..] == chain
    ensures p == chain
  {
    hide LinkedFrom;
    var k := LinkedFrom(p);
    assert p[k..][0] == p[k] && chain[0].index == 0;
  }

  // ------------------------------------------------- what one save does to it

  // A chain that grows by a block just saved is held exactly when the rest of it
  // was on record already and no higher block had been saved.
  lemma SaveHolds(s: Store, b: Block, q: seq<Block>)
    requires Tidy(s) && Unclashing(s, b) && Chainlike(q + [b])
    ensures Holds(SaveBlock(s, b, BothWritten), q + [b]) <==> Indexes(s, q) && b.index >= s.tipHeight
  {
    var t, p := SaveBlock(s, b, BothWritten), q + [b];
    assert b.index == |q| by { LastIndex(q, b); }
    assert p[|p| - 1] == b && AtHeight(t, |q|) == Some(b);
    forall i | 0 <= i < |q| ensures AtHeight(t, i) == Some(p[i]) <==> AtHeight(s, i) == Some(q[i]) {
      assert p[i] == q[i] && p[i].hash != p[|q|].hash;
    }
    assert Indexes(t, p) <==> Indexes(s, q) by {
      if Indexes(t, p) {
        assert forall i :: 0 <= i < |q| ==> AtHeight(t, i) == Some(p[i]);
      }
    }
    assert GetTip(t) == Some(b) <==> b.index >= s.tipHeight by { TipAfterSave(s, b, p); }
  }

  lemma LastIndex(q: seq<Block>, b: Block)
    requires Chainlike(q + [b])
    ensures b.index == |q| && b.hash != ""
  {
    assert (q + [b])[|q|] == b;
  }

  lemma TipAfterSave(s: Store, b: Block, p: seq<Block>)
    requires Tidy(s) && Unclashing(s, b) && b.hash != ""
    ensures GetTip(SaveBlock(s, b, BothWritten)) == Some(b) <==> b.index >= s.tipHeight
  {
  }

  // A block saved and not adopted leaves a store that does not hold the
  // canonical chain: it takes the place of a block of the chain or comes above
  // its end.
  lemma SavedAside(s: Store, b: Block, io: WriteOutcome, chain: seq<Block>)
    requires Tidy(s) && Unclashing(s, b) && Chainlike(chain) && !io.BlockNotWritten?
    requires forall i :: 0 <= i < |chain| ==> chain[i].hash != b.hash
    ensures !Holds(SaveBlock(s, b, io), chain)
  {
    var t := SaveBlock(s, b, io);
    assert chain[|chain| - 1].index == |chain| - 1;
    if b.index < |chain| {
      assert AtHeight(t, b.index) == Some(b);
    }
  }
}
