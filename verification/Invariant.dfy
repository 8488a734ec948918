// What every step of the engine keeps, whatever its callers do, as long as the
// hashes of new blocks are new. What further holds of the ledger is the subject
// of Replays.
module Invariant {
  import opened Domain
  import opened Crypto
  import opened Poh
  import opened Stake
  import opened Mempool
  import opened Tree
  import opened Engine

  // ------------------------------------------------------------ the conjuncts

  // Every block is stored under the hash of its header.
  ghost predicate Sealed(c: Primitives, blocks: Blocks) {
    forall h :: h in blocks ==> h == HashBlock(c, blocks[h])
  }

  // One clock, never set back, has stamped every block of every fork.
  ghost predicate Ticking(c: Primitives, blocks: Blocks, g: Block, poh: PohState) {
    match ParsePoHHashHex(g.pohHash)
    case None => false
    case Some(seed) =>
      && poh.hash == Advance(c, seed, 0, poh.tick)
      && forall h :: h in blocks ==> blocks[h].pohHash == PoHHashHex(Advance(c, seed, 0, blocks[h].tick))
  }

  ghost predicate UniqueSlots(blocks: Blocks) {
    forall h, k :: h in blocks && k in blocks && blocks[h].slot == blocks[k].slot ==> h == k
  }

  // The block was produced by the leader of its slot.
  ghost predicate Led(c: Primitives, snaps: Snapshots, epochLength: nat, b: Block)
    requires epochLength > 0
  {
    HasSnapshot(snaps, epochLength, b.slot) && LeaderAt(c, snaps, epochLength, b.slot) == b.validator
  }

  ghost predicate AllLed(c: Primitives, blocks: Blocks, g: Block, snaps: Snapshots, epochLength: nat)
    requires epochLength > 0
  {
    forall h :: h in blocks && h != g.hash ==> Led(c, snaps, epochLength, blocks[h])
  }

  ghost predicate SnapshotsGood(snaps: Snapshots) {
    forall e :: e in snaps ==> GoodSnapshot(snaps[e])
  }

  // Only slots of stored blocks have a producer on record, and nobody has been
  // convicted of producing twice.
  ghost predicate CleanRecord(equivocations: seq<EquivocationProof>, slotProducers: map<nat, map<string, string>>,
                              blocks: Blocks) {
    equivocations == [] && forall s :: s in slotProducers ==> s in Slots(blocks)
  }

  function Slots(blocks: Blocks): set<nat> {
    set h | h in blocks :: blocks[h].slot
  }

  function FinalOf(tipSlot: nat, finalitySlots: nat): nat {
    if tipSlot < finalitySlots then 0 else tipSlot - finalitySlots
  }

  ghost predicate TreeInv(c: Primitives, n: Node) {
    && Sane(n)
    && Sealed(c, n.blocks)
    && Ticking(c, n.blocks, n.chain[0], n.poh)
    && UniqueSlots(n.blocks)
    && AllLed(c, n.blocks, n.chain[0], n.snapshots, n.cfg.epochLength)
    && SnapshotsGood(n.snapshots)
  }

  // The derived fields agree with the tree.
  ghost predicate CacheInv(c: Primitives, n: Node) {
    && n.slotProduced == SlotMap(n.chain)
    && n.finalized == FinalOf(TipSlot(n.chain), n.cfg.finalitySlots)
    && CleanRecord(n.equivocations, n.slotProducers, n.blocks)
    && Consistent(c, n.pool)
  }

  ghost predicate Inv(c: Primitives, n: Node) {
    TreeInv(c, n) && CacheInv(c, n)
  }

  lemma TreeIsSane(c: Primitives, n: Node)
    requires TreeInv(c, n)
    ensures Sane(n)
  {
  }

  lemma InvSane(c: Primitives, n: Node)
    requires Inv(c, n)
    ensures Sane(n)
  {
  }

  lemma InvTree(c: Primitives, n: Node)
    requires Inv(c, n)
    ensures TreeInv(c, n)
  {
  }

  // The fields that the invariant of the tree reads, but for the registry.
  ghost predicate SameTree(n: Node, m: Node) {
    && m.cfg == n.cfg && m.chain == n.chain && m.blocks == n.blocks && m.parents == n.parents && m.tip == n.tip
    && m.poh == n.poh && m.snapshots == n.snapshots
  }

  lemma TreeFree(c: Primitives, n: Node, m: Node)
    requires TreeInv(c, n) && SameTree(n, m) && Registry(m.validators)
    ensures TreeInv(c, m)
  {
    hide Path, Ticking, Sealed, UniqueSlots, AllLed, Covered, Clocked, IsTree, SnapshotsGood, Registry;
  }

  // Nothing but the registry has changed, and that is in order.
  lemma RegistryFree(c: Primitives, n: Node, m: Node)
    requires Inv(c, n) && Registry(m.validators)
    requires m == n.(validators := m.validators, stats := m.stats, judged := m.judged)
    ensures Inv(c, m)
  {
    hide TreeInv, SlotMap, Mempool.Consistent, CleanRecord;
    TreeFree(c, n, m);
  }

  lemma InvRegistry(c: Primitives, n: Node)
    requires Inv(c, n)
    ensures Registry(n.validators)
  {
  }

  lemma PathLed(c: Primitives, n: Node, h: string)
    requires TreeInv(c, n) && h in n.blocks
    ensures forall i :: 0 < i < |Path(n.blocks, n.chain[0], h)| ==>
      Led(c, n.snapshots, n.cfg.epochLength, Path(n.blocks, n.chain[0], h)[i])
  {
    hide Led, Path, Ticking, Registry, Covered, Clocked;
    var p := Path(n.blocks, n.chain[0], h);
    PathLinked(n.blocks, n.chain[0], h);
    forall i | 0 < i < |p| ensures Led(c, n.snapshots, n.cfg.epochLength, p[i]) {
      assert p[i].index != p[0].index;
    }
  }

  // ---------------------------------------------------------------- snapshots

  lemma LedFrozen(c: Primitives, snaps: Snapshots, after: Snapshots, epochLength: nat, b: Block)
    requires epochLength > 0 && Frozen(snaps, after) && Led(c, snaps, epochLength, b)
    ensures Led(c, after, epochLength, b)
  {
    hide LeaderFromSnapshot;
  }

  lemma AllLedFrozen(c: Primitives, blocks: Blocks, g: Block, snaps: Snapshots, after: Snapshots, epochLength: nat)
    requires epochLength > 0 && Frozen(snaps, after) && AllLed(c, blocks, g, snaps, epochLength)
    ensures AllLed(c, blocks, g, after, epochLength)
  {
    hide Led;
    forall h | h in blocks && h != g.hash ensures Led(c, after, epochLength, blocks[h]) {
      LedFrozen(c, snaps, after, epochLength, blocks[h]);
    }
  }

  lemma SnapshotGoodToo(n: Node, epoch: nat)
    requires SnapshotsGood(n.snapshots) && Registry(n.validators)
    ensures SnapshotsGood(EnsureSnapshot(n, epoch).snapshots)
  {
    hide TakeSnapshot, GoodSnapshot, Registry;
    TakeSnapshotGood(n.validators, n.stats, epoch, n.cfg.epochLength);
  }

  lemma EnsureSnapshotInv(c: Primitives, n: Node, epoch: nat)
    requires TreeInv(c, n)
    ensures TreeInv(c, EnsureSnapshot(n, epoch))
    ensures Frozen(n.snapshots, EnsureSnapshot(n, epoch).snapshots)
  {
    hide Sane, Ticking, Sealed, UniqueSlots, AllLed, SnapshotsGood, EnsureSnapshot, Registry;
    SaneTree(n);
    SaneRegistry(n);
    EnsureSnapshotSane(n, epoch);
    AllLedFrozen(c, n.blocks, n.chain[0], n.snapshots, EnsureSnapshot(n, epoch).snapshots, n.cfg.epochLength);
    SnapshotGoodToo(n, epoch);
  }

  lemma StartSlotInv(c: Primitives, n: Node)
    requires Inv(c, n)
    ensures Inv(c, StartSlot(c, n))
    ensures Frozen(n.snapshots, StartSlot(c, n).snapshots)
  {
    hide Sane, Ticking, Sealed, UniqueSlots, AllLed, SnapshotsGood, EnsureSnapshot, Registry, Mempool.Consistent,
      SlotMap, Advance, CleanRecord;
    SaneTree(n);
    SaneRegistry(n);
    StartSlotSane(c, n);
    var tick := n.poh.tick + TICKS_PER_SLOT;
    var ticked := n.(poh := PohState(tick, Advance(c, n.poh.hash, n.poh.tick, tick)));
    EnsureSnapshotHas(ticked, SlotOf(tick) / n.cfg.epochLength);
    AllLedFrozen(c, n.blocks, n.chain[0], n.snapshots, StartSlot(c, n).snapshots, n.cfg.epochLength);
    SnapshotGoodToo(ticked, SlotOf(tick) / n.cfg.epochLength);
    TicksOn(c, n.blocks, n.chain[0], n.poh, tick);
  }

  lemma TicksOn(c: Primitives, blocks: Blocks, g: Block, poh: PohState, tick: nat)
    requires Ticking(c, blocks, g, poh) && poh.tick <= tick
    ensures Ticking(c, blocks, g, PohState(tick, Advance(c, poh.hash, poh.tick, tick)))
  {
    hide Advance;
    AdvanceComposes(c, ParsePoHHashHex(g.pohHash).value, 0, poh.tick, tick);
  }

  // ------------------------------------------------------------ a new block in

  // What AddBlock and AddBlockExternal have established of the tree when they
  // insert b.
  ghost predicate Admissible(c: Primitives, n: Node, b: Block)
    requires Sane(n)
  {
    && Extends(n.blocks, b) && b.hash !in n.blocks && b.hash != "" && b.hash != GENESIS_PARENT
    && b.tick == n.poh.tick && b.slot == SlotOf(n.poh.tick) && b.tick == b.slot * TICKS_PER_SLOT
    && (forall h :: h in n.blocks ==> n.blocks[h].tick < b.tick)
    && b.pohHash == PoHHashHex(n.poh.hash) && b.hash == HashBlock(c, b)
    && b.validator in n.validators
    && Led(c, n.snapshots, n.cfg.epochLength, b)
  }

  lemma AdmissibleStorable(c: Primitives, n: Node, b: Block)
    requires Sane(n) && Admissible(c, n, b)
    ensures Storable(n, b)
  {
  }

  lemma NewSlot(c: Primitives, n: Node, b: Block)
    requires Sane(n) && Admissible(c, n, b)
    ensures forall h :: h in n.blocks ==> n.blocks[h].slot < b.slot
    ensures b.slot > 0 && b.slot !in Slots(n.blocks)
  {
    hide Path, Led, Registry, IsTree, Covered, HashBlock;
  }

  lemma InsertTicking(c: Primitives, n: Node, b: Block)
    requires TreeInv(c, n) && Admissible(c, n, b)
    ensures Ticking(c, n.blocks[b.hash := b], n.chain[0], n.poh)
    ensures Sealed(c, n.blocks[b.hash := b])
    ensures UniqueSlots(n.blocks[b.hash := b])
    ensures AllLed(c, n.blocks[b.hash := b], n.chain[0], n.snapshots, n.cfg.epochLength)
  {
    hide Registry, Covered, SnapshotsGood, Path, LeaderAt, HashBlock, IsTree, Advance, Led;
    NewSlot(c, n, b);
  }

  // Taking an admissible block in keeps the invariant, and finds no
  // equivocation.
  lemma InsertInv(c: Primitives, n: Node, b: Block)
    requires Inv(c, n) && Sane(n) && Admissible(c, n, b)
    ensures b.validator in n.validators && !Equivocates(n, b)
    ensures Inv(c, Stored(n, b))
  {
    hide Sane, Ticking, Sealed, AllLed, SnapshotsGood, UniqueSlots, Mempool.Consistent, SlotMap, RegisterProducer,
      Admissible, Equivocates, CleanRecord;
    AdmissibleStorable(c, n, b);
    StorableProducer(n, b);
    StoredSane(n, b);
    NewSlot(c, n, b);
    InsertTicking(c, n, b);
    InsertRecord(n, b);
  }

  lemma StorableProducer(n: Node, b: Block)
    requires Storable(n, b)
    ensures b.validator in n.validators && b.hash !in n.blocks
  {
  }

  lemma InsertRecord(n: Node, b: Block)
    requires CleanRecord(n.equivocations, n.slotProducers, n.blocks) && b.slot !in Slots(n.blocks)
    requires b.hash !in n.blocks
    ensures !Equivocates(n, b)
    ensures CleanRecord(RegisterProducer(n, b).equivocations, RegisterProducer(n, b).slotProducers,
      n.blocks[b.hash := b])
  {
    assert b.slot !in n.slotProducers;
    assert Slots(n.blocks[b.hash := b]) == Slots(n.blocks) + {b.slot} by {
      var after := n.blocks[b.hash := b];
      assert forall h :: h in n.blocks ==> h in after && after[h] == n.blocks[h];
      assert b.hash in after && after[b.hash] == b;
    }
  }
}
