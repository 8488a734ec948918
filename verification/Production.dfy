// Building a block: from a draft of a new slot to a node that satisfies the
// invariant, whatever goes wrong on the way.
module Production {
  import opened Domain
  import opened Text
  import opened Crypto
  import opened Poh
  import opened Ledger
  import opened Stake
  import opened Mempool
  import opened Tree
  import opened Storage
  import opened Engine
  import opened Invariant
  import opened ForkChoice
  import opened Misses
  import opened Steps

  // The stored blocks have other headers than b, or at least other hashes.
  ghost predicate NoCollision(c: Primitives, blocks: Blocks, b: Block) {
    forall h :: h in blocks && c.sha256(BlockPreimage(blocks[h])) == c.sha256(BlockPreimage(b)) ==>
      BlockPreimage(blocks[h]) == BlockPreimage(b)
  }

  // A block of a new slot has a preimage of its own, so unless SHA-256 collides
  // its hash is new.
  lemma NewSlotFreshHash(c: Primitives, n: Node, b: Block)
    requires TreeInv(c, n) && NoCollision(c, n.blocks, b) && '|' !in b.prevHash
    requires forall h :: h in n.blocks ==> n.blocks[h].slot < b.slot
    ensures HashBlock(c, b) !in n.blocks
  {
    hide Ticking, UniqueSlots, AllLed, Registry, Covered, Clocked, Path, SnapshotsGood, BlockPreimage;
    var h := HashBlock(c, b);
    if h in n.blocks {
      HexRoundTrip(c.sha256(BlockPreimage(b)));
      HexRoundTrip(c.sha256(BlockPreimage(n.blocks[h])));
      assert BlockPreimage(n.blocks[h]) == BlockPreimage(b);
      ParentHashClean(c, n, h);
      BlockPreimageHead(n.blocks[h], b);
    }
  }

  lemma ParentHashClean(c: Primitives, n: Node, h: string)
    requires TreeInv(c, n) && h in n.blocks
    ensures '|' !in n.blocks[h].prevHash && '|' !in h
  {
    hide Ticking, UniqueSlots, AllLed, Registry, Covered, Clocked, Path, SnapshotsGood, HashBlock;
    assert '|' !in HashBlock(c, n.blocks[h]);
    if h != n.chain[0].hash {
      assert Extends(n.blocks, n.blocks[h]);
      assert '|' !in HashBlock(c, n.blocks[n.blocks[h].prevHash]);
    }
  }

  // The block that is built, if one is, does not collide with a stored one.
  ghost predicate BuildCollisionFree(c: Primitives, n: Node, parent: Block, base: Result<State, TxError>,
                                     leader: string, txs: seq<Transaction>, entropy: nat)
    requires n.cfg.epochLength > 0
  {
    Build(c, n, parent, base, leader, txs, entropy).Ok? ==>
      NoCollision(c, n.blocks, Build(c, n, parent, base, leader, txs, entropy).value)
  }

  lemma BuildIsFresh(c: Primitives, n: Node, parent: Block, base: Result<State, TxError>, leader: string,
                     txs: seq<Transaction>, entropy: nat)
    requires TreeInv(c, n) && n.cfg.epochLength > 0 && BuildCollisionFree(c, n, parent, base, leader, txs, entropy)
    requires parent.hash in n.blocks && n.blocks[parent.hash] == parent
    requires forall h :: h in n.blocks ==> n.blocks[h].tick < n.poh.tick
    ensures BuildFresh(c, n, parent, base, leader, txs, entropy)
  {
    hide Ticking, UniqueSlots, AllLed, Registry, Covered, Path, SnapshotsGood, Sealed, IsTree, HashBlock, NoCollision,
      Build;
    if Build(c, n, parent, base, leader, txs, entropy).Ok? {
      var b := Build(c, n, parent, base, leader, txs, entropy).value;
      BuiltHeader(c, n, parent, base, leader, txs, entropy);
      ParentHashClean(c, n, parent.hash);
      forall h | h in n.blocks ensures n.blocks[h].slot < b.slot {
        SlotBefore(n.blocks[h].tick, n.blocks[h].slot, n.poh.tick);
      }
      NewSlotFreshHash(c, n, b);
    }
  }

  lemma BuiltHeader(c: Primitives, n: Node, parent: Block, base: Result<State, TxError>, leader: string,
                    txs: seq<Transaction>, entropy: nat)
    requires n.cfg.epochLength > 0 && Build(c, n, parent, base, leader, txs, entropy).Ok?
    ensures var b := Build(c, n, parent, base, leader, txs, entropy).value;
      b.prevHash == parent.hash && b.slot == SlotOf(n.poh.tick) && b.hash == HashBlock(c, b) && b.txs == txs
  {
    hide Apply, FeeAddress, CheckTransactions, CheckContents, HashBlock, LeaderAt, TxRoot, StateRoot, PoHHashHex;
    var b := Build(c, n, parent, base, leader, txs, entropy).value;
    var next := Apply(base.value, txs, FeeAddress(c, KeysOf(n.validators), leader)).value;
    HeaderHash(c, b, Draft(c, n, parent, next, leader, txs));
  }

  lemma SlotBefore(tick: nat, slot: nat, now: nat)
    requires tick == slot * TICKS_PER_SLOT && tick < now && now % TICKS_PER_SLOT == 0
    ensures slot < SlotOf(now)
  {
  }

  // What Build returns is admissible.
  lemma BuiltIsAdmissible(c: Primitives, n: Node, parent: Block, base: Result<State, TxError>, leader: string,
                          txs: seq<Transaction>, entropy: nat)
    requires Sane(n) && HasSnapshot(n.snapshots, n.cfg.epochLength, SlotOf(n.poh.tick))
    requires forall h :: h in n.blocks ==> n.blocks[h].tick < n.poh.tick
    requires parent.hash in n.blocks && n.blocks[parent.hash] == parent
    requires BuildFresh(c, n, parent, base, leader, txs, entropy) && Build(c, n, parent, base, leader, txs, entropy).Ok?
    ensures var b := Build(c, n, parent, base, leader, txs, entropy).value;
      Admissible(c, n, b) && Storable(n, b) && b.prevHash == parent.hash && b.tick == n.poh.tick
  {
    hide Sane, Path, IsTree, Apply, FeeAddress, CheckTransactions, CheckContents, HashBlock, BlockSignatureOk, TxRoot,
      StateRoot, PoHHashHex, LeaderAt, Extends, Storable;
    SaneTree(n);
    BuildStorable(c, n, parent, base, leader, txs, entropy);
    var b := Build(c, n, parent, base, leader, txs, entropy).value;
    var next := Apply(base.value, txs, FeeAddress(c, KeysOf(n.validators), leader)).value;
    DraftExtends(c, n, parent, next, leader, txs, b);
    HeaderHash(c, b, Draft(c, n, parent, next, leader, txs));
    StorableProducer(n, b);
  }

  // A step that builds no block, or whose block is refused, leaves the tree and
  // the history alone, and charges nobody.
  ghost predicate Quiet(n: Node, m: Node) {
    && m == n.(validators := m.validators, stats := m.stats, store := m.store, pool := m.pool, state := m.state,
      genesis := m.genesis)
    && SameCounters(n.stats, m.stats)
  }

  lemma RefusalKeeps(c: Primitives, n: Node, m: Node)
    requires Good(c, n) && Inv(c, m) && Quiet(n, m)
    ensures StepOk(c, n, m)
  {
    hide TreeInv, CacheInv, SameCounters;
    InvSane(c, n);
    InvSane(c, m);
    AccountsCarry(c, n, m);
    KeepsFinalSame(n.chain, n.finalized);
    StaysPut(n, m);
  }

  // What the invariant of the tree does not read.
  lemma StateFree(c: Primitives, n: Node, m: Node)
    requires Inv(c, n) && m == n.(store := m.store, pool := m.pool, state := m.state, genesis := m.genesis)
    requires Consistent(c, m.pool)
    ensures Inv(c, m)
  {
    hide TreeInv, SlotMap, Mempool.Consistent, CleanRecord;
    InvRegistry(c, n);
    TreeFree(c, n, m);
  }

  predicate Saves(n: Node, io: WriteOutcome) {
    n.store.None? || io.BothWritten?
  }

  // Saving an admissible block and taking it in.
  lemma SaveAndAcceptKeeps(c: Primitives, n: Node, b: Block, io: WriteOutcome)
    requires Good(c, n) && Sane(n) && Admissible(c, n, b) && Storable(n, b)
    ensures var o := SaveAndAccept(c, n, b, io);
      && StepOk(c, n, o.node)
      && (Saves(n, io) ==> o.result == Ok(b.hash) && b.hash in o.node.blocks && b.hash !in n.blocks)
  {
    hide Good, Inv, Sane, Accept, StepOk, Admissible, Storable, SaveBlock, Save, IsTree, Path, Extends;
    SavedGood(c, n, b, io);
    SavedAccepts(c, n, b, io);
  }

  lemma SavedAccepts(c: Primitives, n: Node, b: Block, io: WriteOutcome)
    requires Good(c, n) && Sane(n) && Admissible(c, n, b) && Storable(n, b)
    ensures Storable(Save(n, b, io), b) && b.hash !in n.blocks
    ensures var o := Accept(c, Save(n, b, io), b);
      StepOk(c, n, o.node) && o.result == Ok(b.hash) && b.hash in o.node.blocks
  {
    hide *;
    var saved := Save(n, b, io);
    SavedGood(c, n, b, io);
    SaveStorable(n, b, io);
    SavedAdmissible(c, n, saved, b);
    StorableProducer(n, b);
    AcceptKeeps(c, saved, b);
    SavedStep(c, n, saved, Accept(c, saved, b).node);
  }

  lemma SavedGood(c: Primitives, n: Node, b: Block, io: WriteOutcome)
    requires Good(c, n)
    ensures Good(c, Save(n, b, io)) && Sane(Save(n, b, io))
    ensures StepOk(c, n, Save(n, b, io))
  {
    hide Good, TreeInv, StepOk, SaveBlock, SlotMap, Mempool.Consistent, CleanRecord;
    var saved := Save(n, b, io);
    GoodInv(c, n);
    StateFree(c, n, saved);
    RefusalKeeps(c, n, saved);
    StepOkGood(c, n, saved);
  }

  lemma StepOkGood(c: Primitives, n: Node, m: Node)
    requires StepOk(c, n, m)
    ensures Good(c, m) && Sane(m)
  {
  }

  lemma GoodInv(c: Primitives, n: Node)
    requires Good(c, n)
    ensures Inv(c, n)
  {
  }

  lemma GoodSane(c: Primitives, n: Node)
    requires Good(c, n)
    ensures Sane(n)
  {
  }

  lemma SavedAdmissible(c: Primitives, n: Node, saved: Node, b: Block)
    requires Sane(n) && Admissible(c, n, b) && saved == n.(store := saved.store)
    ensures Sane(saved) && Admissible(c, saved, b)
  {
    hide Path, Registry, IsTree, Led, Covered, Clocked, Extends, HashBlock;
  }

  lemma SavedStep(c: Primitives, n: Node, saved: Node, m: Node)
    requires saved == n.(store := saved.store) && StepOk(c, saved, m)
    ensures StepOk(c, n, m)
  {
    hide Sane, Good, Path, IsTree, Score, Abandoned, KeepsFinal, Just, BetterScore, DrawnFrom;
  }

  lemma ProduceKeeps(c: Primitives, n: Node, parent: Block, base: Result<State, TxError>, leader: string,
                     txs: seq<Transaction>, entropy: nat, io: WriteOutcome)
    requires Good(c, n) && Sane(n) && HasSnapshot(n.snapshots, n.cfg.epochLength, SlotOf(n.poh.tick))
    requires (forall h :: h in n.blocks ==> n.blocks[h].tick < n.poh.tick)
    requires parent.hash in n.blocks && n.blocks[parent.hash] == parent
    requires BuildFresh(c, n, parent, base, leader, txs, entropy)
    ensures StepOk(c, n, Produce(c, n, parent, base, leader, txs, entropy, io).node)
  {
    hide Good, Inv, Sane, SaveAndAccept, Build, StepOk, Path, IsTree, Admissible, Storable, HasSnapshot, BuildFresh;
    SaneTree(n);
    GoodInv(c, n);
    if Build(c, n, parent, base, leader, txs, entropy).Ok? {
      BuiltIsAdmissible(c, n, parent, base, leader, txs, entropy);
      SaveAndAcceptKeeps(c, n, Build(c, n, parent, base, leader, txs, entropy).value, io);
    } else {
      SlashInv(c, n, leader);
      RefusalKeeps(c, n, n);
      RefusalKeeps(c, n, SlashLeader(n, leader));
    }
  }

  // A block that is produced was built, saved and taken in.
  lemma ProduceAccepts(c: Primitives, n: Node, parent: Block, base: Result<State, TxError>, leader: string,
                       txs: seq<Transaction>, entropy: nat, io: WriteOutcome)
    requires Sane(n) && HasSnapshot(n.snapshots, n.cfg.epochLength, SlotOf(n.poh.tick))
    requires (forall h :: h in n.blocks ==> n.blocks[h].tick < n.poh.tick)
    requires parent.hash in n.blocks && n.blocks[parent.hash] == parent
    requires BuildFresh(c, n, parent, base, leader, txs, entropy)
    requires Produce(c, n, parent, base, leader, txs, entropy, io).result.Ok?
    ensures Build(c, n, parent, base, leader, txs, entropy).Ok?
    ensures var b := Build(c, n, parent, base, leader, txs, entropy).value;
      && Admissible(c, n, b) && Storable(n, b) && Storable(Save(n, b, io), b) && b.prevHash == parent.hash
      && Produce(c, n, parent, base, leader, txs, entropy, io) == Accept(c, Save(n, b, io), b)
  {
    hide Sane, Accept, Build, Path, IsTree, Admissible, Storable, HasSnapshot, BuildFresh, Save;
    SaneTree(n);
    if Build(c, n, parent, base, leader, txs, entropy).Ok? {
      BuiltIsAdmissible(c, n, parent, base, leader, txs, entropy);
      SaveStorable(n, Build(c, n, parent, base, leader, txs, entropy).value, io);
    }
  }
}
