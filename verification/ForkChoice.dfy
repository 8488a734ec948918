// What moving the canonical tip can and cannot do: updateCanonical against the
// invariant, finality, the reorg bound and canonical progress.
module ForkChoice {
  import opened Domain
  import opened Crypto
  import opened Stake
  import opened Tree
  import opened Engine
  import opened Invariant
  import opened Upkeep

  // ------------------------------------------------------------------ election

  lemma LeaderInSnapshot(c: Primitives, snaps: Snapshots, epochLength: nat, slot: nat)
    requires epochLength > 0
    ensures var v := LeaderAt(c, snaps, epochLength, slot);
      v == GENESIS_NAME || (HasSnapshot(snaps, epochLength, slot) && v in snaps[slot / epochLength].validators)
  {
    if HasSnapshot(snaps, epochLength, slot) {
      LeaderListed(c, slot, snaps[slot / epochLength].validators);
    }
  }

  // ---------------------------------------------------------------- invariance

  ghost predicate Latest(blocks: Blocks, h: string) {
    h in blocks && forall k :: k in blocks ==> blocks[k].slot <= blocks[h].slot
  }

  lemma AdoptInv(c: Primitives, n: Node, h: string)
    requires Inv(c, n) && Sane(n) && Latest(n.blocks, h)
    ensures Inv(c, Adopt(c, n, h))
  {
    hide Sane, Ticking, Sealed, UniqueSlots, AllLed, SnapshotsGood, Replay, Path, IsTree, SlotMap, Mempool.Consistent,
      CleanRecord;
    SaneTree(n);
    AdoptSane(c, n, h);
    PathPrefixRoot(n, h);
    TipIsLast(n, h);
    TipIsLast(n, n.tip);
  }

  lemma TipIsLast(n: Node, h: string)
    requires Sane(n) && h in n.blocks
    ensures TipSlot(Path(n.blocks, n.chain[0], h)) == n.blocks[h].slot
  {
    hide Path, Sane, IsTree;
    SaneTree(n);
  }

  lemma PathPrefixRoot(n: Node, h: string)
    requires Sane(n) && h in n.blocks
    ensures Path(n.blocks, n.chain[0], h)[0] == n.chain[0]
  {
    hide Path, Sane, IsTree;
    SaneTree(n);
  }

  lemma UpdateCanonicalInv(c: Primitives, n: Node, h: string)
    requires Inv(c, n) && Sane(n) && Latest(n.blocks, h)
    ensures Inv(c, UpdateCanonical(c, n, h))
  {
    hide TreeInv, Sane, Adopts, Adopt, SlotMap, Mempool.Consistent, CleanRecord;
    EnsureSnapshotSane(n, 0);
    EnsureSnapshotInv(c, n, 0);
    AdoptInv(c, EnsureSnapshot(n, 0), h);
  }

  // -------------------------------------------------------- finality and depth

  // The canonical blocks up to the finalised slot.
  ghost predicate KeepsFinal(a: seq<Block>, finalized: nat, b: seq<Block>) {
    forall i :: 0 <= i < |a| && a[i].slot <= finalized ==> i < |b| && b[i] == a[i]
  }

  // The first block that an adoption abandons lies after the finalised slot,
  // also while that slot is 0 and the guard is skipped: the genesis block is
  // shared by all chains.
  lemma AbandonsAfterFinal(n: Node, h: string)
    requires Sane(n) && h in n.blocks && Adopts(n, h)
    ensures var d := Diverge(n.chain, Path(n.blocks, n.chain[0], h));
      d >= 1 && (d < |n.chain| ==> n.chain[d].slot > n.finalized)
  {
    hide Path, BetterScore, WeightDeltaSatisfied, Registry, Covered, Clocked;
    var next := Path(n.blocks, n.chain[0], h);
    PathLinked(n.blocks, n.chain[0], n.tip);
    PathPrefixRoot(n, h);
    assert n.chain[0].hash == next[0].hash;
    var d := Diverge(n.chain, next);
    assert d >= 1;
    if d < |n.chain| {
      assert n.chain[0].slot < n.chain[d].slot;
    }
  }

  lemma AdoptKeepsFinal(n: Node, h: string)
    requires Sane(n) && h in n.blocks && Adopts(n, h)
    ensures KeepsFinal(n.chain, n.finalized, Path(n.blocks, n.chain[0], h))
  {
    hide Path, Adopts, Sane, IsTree, KeepsFinal, Linked;
    SaneTree(n);
    var next := Path(n.blocks, n.chain[0], h);
    var d := Diverge(n.chain, next);
    AbandonsAfterFinal(n, h);
    PathLinked(n.blocks, n.chain[0], n.tip);
    PathLinked(n.blocks, n.chain[0], h);
    forall i | 0 <= i < d ensures next[i] == n.chain[i] {
      assert n.chain[i].hash == next[i].hash;
    }
    SharedKeepsFinal(n.chain, next, d, n.finalized);
  }

  lemma SharedKeepsFinal(a: seq<Block>, b: seq<Block>, d: nat, finalized: nat)
    requires Linked(a) && d <= |a| && d <= |b| && (d < |a| ==> a[d].slot > finalized)
    requires forall i :: 0 <= i < d ==> b[i] == a[i]
    ensures KeepsFinal(a, finalized, b)
  {
    assert forall j :: d < j < |a| ==> a[d].slot < a[j].slot;
    forall i | 0 <= i < |a| && a[i].slot <= finalized ensures i < |b| && b[i] == a[i] {
      assert i < d;
    }
  }

  // The real bound on a reorg: the configured depth and, through the finality
  // guard and strictly increasing slots, also the finality window.
  lemma AdoptDepthBound(n: Node, h: string)
    requires Sane(n) && h in n.blocks && Adopts(n, h)
    requires n.finalized == FinalOf(TipSlot(n.chain), n.cfg.finalitySlots)
    ensures var abandoned := Abandoned(n.blocks, n.chain[0], n.tip, h);
      |abandoned| <= n.cfg.maxReorgDepth && |abandoned| <= n.cfg.finalitySlots
  {
    hide Path, Registry, Covered, Clocked, BetterScore, WeightDeltaSatisfied, IsTree, Linked, FinalOf, TipSlot,
      DivergeSlot, Diverge;
    ReorgDepthExact(n.blocks, n.chain[0], n.tip, h);
    AbandonsAfterFinal(n, h);
    PathLinked(n.blocks, n.chain[0], n.tip);
    TailFitsWindow(n.chain, Diverge(n.chain, Path(n.blocks, n.chain[0], h)), n.finalized, n.cfg.finalitySlots);
  }

  lemma TailFitsWindow(chain: seq<Block>, d: nat, finalized: nat, finalitySlots: nat)
    requires Linked(chain) && d <= |chain| && (d < |chain| ==> chain[d].slot > finalized)
    requires finalized == FinalOf(TipSlot(chain), finalitySlots)
    ensures |chain| - d <= finalitySlots
  {
    if d < |chain| {
      SlotsBound(chain, d, |chain| - 1);
    }
  }

  // ------------------------------------------------------------------ progress

  // Every adoption improves the score; with a positive percentage it raises the
  // weight by that share of the active stake, and by 1 at least.
  lemma AdoptImproves(n: Node, h: string)
    requires Sane(n) && h in n.blocks && Adopts(n, h)
    ensures BetterScore(Score(n, h), Score(n, n.tip))
    ensures n.cfg.minReorgWeightDeltaP > 0 ==>
      && Score(n, h).weight >= Score(n, n.tip).weight + 1
      && Score(n, h).weight >= Score(n, n.tip).weight + ActiveStake(n) * n.cfg.minReorgWeightDeltaP / 100
  {
  }

  // The guard applies to plain extensions too: a block on the tip is adopted
  // exactly when its producer's stake reaches the required delta.
  lemma ExtensionAdopted(n: Node, h: string)
    requires Sane(n) && h in n.blocks && h != n.chain[0].hash && n.blocks[h].prevHash == n.tip
    requires n.cfg.maxReorgDepth >= 0 && n.finalized <= TipSlot(n.chain)
    ensures Adopts(n, h) <==>
      || n.cfg.minReorgWeightDeltaP <= 0
      || StakeIn(n.snapshots, n.cfg.epochLength, n.blocks[h].slot, n.blocks[h].validator)
           >= RequiredDelta(ActiveStake(n), n.cfg.minReorgWeightDeltaP)
  {
    hide Registry, Covered, Clocked, StakeIn, ActiveStake, RequiredDelta;
    var b := n.blocks[h];
    var next := Path(n.blocks, n.chain[0], h);
    assert Extends(n.blocks, b);
    assert next == n.chain + [b];
    DivergeUnique(n.chain, next, |n.chain|);
    WeightExtend(n.snapshots, n.cfg.epochLength, n.chain, b);
    RequiredPositive(ActiveStake(n), n.cfg.minReorgWeightDeltaP);
    TipIsLast(n, n.tip);
  }

  lemma RequiredPositive(active: nat, percent: int)
    ensures percent > 0 ==> RequiredDelta(active, percent) > 0
  {
  }
}
