// What an honest producer gets: its block passes its own checks, a body from the
// pool is never refused, and the block on the tip is adopted exactly when the
// weight rule says so.
module Liveness {
  import opened Domain
  import opened Crypto
  import opened Poh
  import opened Ledger
  import opened Stake
  import opened Mempool
  import opened Tree
  import opened Storage
  import opened Engine
  import opened Invariant
  import opened ForkChoice
  import opened Misses
  import opened Steps
  import opened Production
  import opened Runs
  import opened Upkeep

  // The leader is registered with the key that it signs with, and signing works.
  ghost predicate CanSign(c: Primitives, vs: Validators, leader: string, entropy: nat) {
    && leader in vs && vs[leader].privKey.Some?
    && c.publicKey(vs[leader].privKey.value) == vs[leader].pubKey
    && forall d :: c.sign(vs[leader].privKey.value, d, entropy).Some?
  }

  // The block that an honest leader drafts passes verifyBlockOnAccept.
  lemma OwnBlockPasses(c: Primitives, n: Node, parent: Block, state: State, leader: string, txs: seq<Transaction>,
                       entropy: nat)
    requires SignatureContract(c) && n.cfg.epochLength > 0 && CanSign(c, n.validators, leader, entropy)
    requires LeaderAt(c, n.snapshots, n.cfg.epochLength, SlotOf(n.poh.tick)) == leader
    requires CheckTransactions(c, txs).None? && Apply(state, txs, FeeAddress(c, KeysOf(n.validators), leader)).Ok?
    ensures var next := Apply(state, txs, FeeAddress(c, KeysOf(n.validators), leader)).value;
      var signed := SignBlock(c, n.validators[leader].privKey.value, Draft(c, n, parent, next, leader, txs), entropy);
      signed.Some? && CheckOnAccept(c, n, parent, signed.value, state).None?
  {
    hide Apply, FeeAddress, LeaderAt, TxRoot, StateRoot, BlockSignatureOk, HashBlock, CheckTransactions,
      SignatureContract, PoHHashHex;
    var next := Apply(state, txs, FeeAddress(c, KeysOf(n.validators), leader)).value;
    SignedBlockVerifies(c, n.validators[leader].privKey.value, Draft(c, n, parent, next, leader, txs), entropy);
  }

  // So building it cannot fail.
  lemma HonestProduceSucceeds(c: Primitives, n: Node, parent: Block, state: State, leader: string,
                              txs: seq<Transaction>, entropy: nat, io: WriteOutcome)
    requires SignatureContract(c) && CanSign(c, n.validators, leader, entropy) && Saves(n, io)
    requires Good(c, n) && Sane(n) && HasSnapshot(n.snapshots, n.cfg.epochLength, SlotOf(n.poh.tick))
    requires (forall h :: h in n.blocks ==> n.blocks[h].tick < n.poh.tick)
    requires parent.hash in n.blocks && n.blocks[parent.hash] == parent
    requires BuildFresh(c, n, parent, Ok(state), leader, txs, entropy)
    requires LeaderAt(c, n.snapshots, n.cfg.epochLength, SlotOf(n.poh.tick)) == leader
    requires CheckTransactions(c, txs).None? && Apply(state, txs, FeeAddress(c, KeysOf(n.validators), leader)).Ok?
    ensures var o := Produce(c, n, parent, Ok(state), leader, txs, entropy, io);
      o.result.Ok? && o.result.value in o.node.blocks && o.result.value !in n.blocks
  {
    hide Good, Sane, SaveAndAccept, StepOk, Path, IsTree, Admissible, Storable, HasSnapshot, CheckOnAccept, SignBlock,
      Apply, FeeAddress, CheckTransactions, LeaderAt, SignatureContract, CanSign, Draft, BuildFresh;
    SaneTree(n);
    CanSignRegistered(c, n.validators, leader, entropy);
    OwnBlockPasses(c, n, parent, state, leader, txs, entropy);
    BuiltIsAdmissible(c, n, parent, Ok(state), leader, txs, entropy);
    SaveAndAcceptKeeps(c, n, Build(c, n, parent, Ok(state), leader, txs, entropy).value, io);
  }

  lemma CanSignRegistered(c: Primitives, vs: Validators, leader: string, entropy: nat)
    requires CanSign(c, vs, leader, entropy)
    ensures leader in vs && vs[leader].privKey.Some?
  {
  }

  // ------------------------------------------------------- AddBlock, at the tip

  lemma GoodBodyNotBad(c: Primitives, n: Node, parent: Block, state: State, leader: string, txs: seq<Transaction>,
                       entropy: nat, io: WriteOutcome)
    requires Sane(n) && (forall h :: h in n.blocks ==> n.blocks[h].tick < n.poh.tick)
    requires parent.hash in n.blocks && n.blocks[parent.hash] == parent
    requires BuildFresh(c, n, parent, Ok(state), leader, txs, entropy)
    requires CheckTransactions(c, txs).None? && Apply(state, txs, FeeAddress(c, KeysOf(n.validators), leader)).Ok?
    ensures var r := Produce(c, n, parent, Ok(state), leader, txs, entropy, io).result;
      r.Err? ==> !r.error.BadBody? && !r.error.ReplayFailed?
  {
    hide Sane, FeeAddress, CheckTransactions, Apply, Rewarded, ProcessMissed, CheckOnAccept, HashBlock, Path,
      LeaderAt, BlockSignatureOk, SaveBlock, HasSnapshot, Storable;
  }

  // A body from the pool passes both transaction checks, so a leader is never
  // slashed for what the pool gave it.
  lemma PoolBodyNeverBad(c: Primitives, n: Node, entropy: nat, io: WriteOutcome)
    requires Good(c, n) && Sane(n) && AddBlockFresh(c, n, [], entropy)
    ensures var r := AddBlock(c, n, [], entropy, io).result;
      r.Err? ==> !r.error.BadBody? && !r.error.ReplayFailed?
  {
    hide Good, Inv, Sane, StartSlot, CurrentLeader, BuildFresh, FeeAddress, TakeBody, Body, CheckTransactions, Apply,
      Produce, Path, HasSnapshot, IsTree, AddBlockFresh;
    SaneTree(n);
    TipStart(c, n, []);
    PoolBodyGood(c, n);
    FreshBuild(c, n, [], entropy);
    var n1 := StartSlot(c, n);
    GoodBodyNotBad(c, TakeBody(c, n1, []), n.blocks[n.tip], n.state, CurrentLeader(c, n1), Body(c, n1, []), entropy,
      io);
  }

  lemma PoolBodyGood(c: Primitives, n: Node)
    requires Good(c, n) && Sane(n)
    ensures StartSlot(c, n).cfg.epochLength > 0
    ensures var n1 := StartSlot(c, n);
      && CheckTransactions(c, Body(c, n1, [])).None?
      && Apply(n.state, Body(c, n1, []), FeeAddress(c, KeysOf(n.validators), CurrentLeader(c, n1))).Ok?
  {
    hide TreeInv, StartSlot, CurrentLeader, FeeAddress, Popped, AfterPop, Apply, Sane, SlotMap, Mempool.Consistent,
      CleanRecord, Accounts, AllSigned, TxSignatureOk, CheckTransactions;
    StartSlotSane(c, n);
    SaneTree(n);
    var n1 := StartSlot(c, n);
    var addr := FeeAddress(c, KeysOf(n.validators), CurrentLeader(c, n1));
    PopKeepsConsistent(c, n.pool, n.state, n.cfg.maxBlockTxs, addr);
    CheckedIsSigned(c, Body(c, n1, []));
  }

  // With a leader that can sign and a body that is in order (one from the pool
  // always is), AddBlock succeeds: the block is stored under the hash returned.
  lemma HonestAddBlockSucceeds(c: Primitives, n: Node, txs: seq<Transaction>, entropy: nat, io: WriteOutcome)
    requires SignatureContract(c) && Good(c, n) && Sane(n)
    requires CollisionFree(c, n, BlockAdded(txs, entropy, io)) && Saves(n, io)
    requires CanSign(c, n.validators, CurrentLeader(c, StartSlot(c, n)), entropy)
    requires txs != [] ==>
      && CheckTransactions(c, txs).None?
      && Apply(n.state, txs, FeeAddress(c, KeysOf(n.validators), CurrentLeader(c, StartSlot(c, n)))).Ok?
    ensures AddBlockFresh(c, n, txs, entropy)
    ensures var o := AddBlock(c, n, txs, entropy, io);
      o.result.Ok? && o.result.value in o.node.blocks && o.result.value !in n.blocks
  {
    hide Inv, Good, StartSlot, BuildCollisionFree, BuildFresh, Produce, StepOk, TakeBody, Body, Path, IsTree, Sane,
      CanSign, DrawnFrom, FeeAddress, Apply, CheckTransactions, LeaderAt, HasSnapshot, SignatureContract,
      AddBlockFresh;
    SaneTree(n);
    AddBlockKeeps(c, n, txs, entropy, io);
    TipStart(c, n, txs);
    var n1 := StartSlot(c, n);
    var n2 := TakeBody(c, n1, txs);
    var leader := CurrentLeader(c, n1);
    CanSignRegistered(c, n.validators, leader, entropy);
    PoolBodyGood(c, n);
    FreshBuild(c, n, txs, entropy);
    assert Body(c, n1, txs) == if txs == [] then Body(c, n1, []) else txs by { BodyCases(c, n1, txs); }
    HonestProduceSucceeds(c, n2, n.blocks[n.tip], n.state, leader, Body(c, n1, txs), entropy, io);
    assert |n.validators| != 0;
  }

  lemma BodyCases(c: Primitives, n: Node, txs: seq<Transaction>)
    requires n.cfg.epochLength > 0
    ensures Body(c, n, txs) == if txs == [] then Body(c, n, []) else txs
  {
    hide Popped, LeaderAt, FeeAddress;
  }

  // ----------------------------------------------------------------- adoption

  // The stake of a producer against the weight that a new tip has to add.
  ghost predicate WeighsEnough(cfg: Config, snaps: Snapshots, oldTipSlot: nat, slot: nat, producer: string)
    requires cfg.epochLength > 0
  {
    || cfg.minReorgWeightDeltaP <= 0
    || StakeIn(snaps, cfg.epochLength, slot, producer)
      >= RequiredDelta(TotalAt(snaps, cfg.epochLength, oldTipSlot), cfg.minReorgWeightDeltaP)
  }

  function TotalAt(snaps: Snapshots, epochLength: nat, slot: nat): nat
    requires epochLength > 0
  {
    if slot / epochLength in snaps then snaps[slot / epochLength].totalStake else 0
  }

  lemma StoredAdopts(c: Primitives, n: Node, b: Block)
    requires Good(c, n) && Sane(n) && Admissible(c, n, b) && Storable(n, b)
    requires b.prevHash == n.tip && n.cfg.maxReorgDepth >= 0
    ensures n.cfg.epochLength > 0
    ensures Sane(EnsureSnapshot(Stored(n, b), 0)) && b.hash in EnsureSnapshot(Stored(n, b), 0).blocks
    ensures var scored := EnsureSnapshot(Stored(n, b), 0);
      && (Adopts(scored, b.hash) <==> WeighsEnough(n.cfg, scored.snapshots, TipSlot(n.chain), b.slot, b.validator))
      && TipSlot(n.chain) / n.cfg.epochLength in scored.snapshots && b.slot / n.cfg.epochLength in scored.snapshots
  {
    hide Inv, TreeInv, CacheInv, Adopts, Admissible, Sane, Extends, EnsureSnapshot, StakeIn, RequiredDelta,
      RegisterProducer, Accounts, DrawnFrom;
    StoredSane(n, b);
    InsertInv(c, n, b);
    InsertAdvances(c, n, b);
    var n2 := Stored(n, b);
    ScoringKeeps(c, n2);
    var scored := EnsureSnapshot(n2, 0);
    SaneTree(n);
    SaneTree(scored);
    AdmissibleSlot(c, n, b);
    assert b.slot / n.cfg.epochLength in scored.snapshots by {
      FrozenHas(n.snapshots, n2.snapshots, scored.snapshots, b.slot / n.cfg.epochLength);
    }
    assert scored.blocks[b.hash] == b && scored.tip == n.tip && scored.chain == n.chain;
    NotRoot(scored, b);
    InvTree(c, scored);
    FinalBelowTip(c, scored);
    ExtensionAdopted(scored, b.hash);
    assert ActiveStake(scored) == TotalAt(scored.snapshots, n.cfg.epochLength, TipSlot(n.chain));
  }

  lemma FrozenHas(snaps: Snapshots, mid: Snapshots, after: Snapshots, e: nat)
    requires e in snaps && Frozen(snaps, mid) && Frozen(mid, after)
    ensures e in after
  {
  }

  lemma AdmissibleSlot(c: Primitives, n: Node, b: Block)
    requires Sane(n) && Admissible(c, n, b)
    ensures n.cfg.epochLength > 0 && b.slot / n.cfg.epochLength in n.snapshots && b.hash !in n.blocks
  {
    hide Path, IsTree, LeaderAt, HashBlock;
  }

  lemma NotRoot(n: Node, b: Block)
    requires Sane(n) && b.hash in n.blocks && n.blocks[b.hash] == b && b.prevHash in n.blocks
    ensures b.hash != n.chain[0].hash
  {
    hide Path, Registry, Covered, Clocked;
  }

  lemma FinalBelowTip(c: Primitives, n: Node)
    requires Inv(c, n)
    ensures n.finalized <= TipSlot(n.chain) && n.cfg.epochLength > 0
  {
    hide Path, IsTree, SlotMap, Mempool.Consistent, CleanRecord, Ticking, Sealed, UniqueSlots, AllLed;
  }

  // A block on the tip becomes the tip exactly when it weighs enough, and is
  // stored beside the chain otherwise.
  lemma AcceptAdopts(c: Primitives, n: Node, b: Block)
    requires Good(c, n) && Sane(n) && Admissible(c, n, b) && Storable(n, b)
    requires b.prevHash == n.tip && n.cfg.maxReorgDepth >= 0
    ensures n.cfg.epochLength > 0
    ensures var m := Accept(c, n, b).node;
      && m.blocks == n.blocks[b.hash := b]
      && (m.tip == b.hash <==> WeighsEnough(n.cfg, m.snapshots, TipSlot(n.chain), b.slot, b.validator))
  {
    hide Inv, Accounts, Admissible, Adopts, Sane, WeighsEnough, RegisterProducer, ProcessMissed, Storable,
      EnsureSnapshot, Extends, DrawnFrom, Advances, MovesTip;
    RewardedKeeps(c, n, b);
    StoredAdopts(c, n, b);
    AcceptEffects(c, n, b);
    var m := Rewarded(c, n, b);
    TipClocked(c, m);
    ProcessMissedKeeps(c, m, TipSlot(m.chain));
    AdmissibleSlot(c, n, b);
    assert n.tip != b.hash by { SaneTree(n); }
    RewardedSnapshots(c, n, b);
  }

  lemma RewardedSnapshots(c: Primitives, n: Node, b: Block)
    requires Storable(n, b)
    ensures Rewarded(c, n, b).snapshots == EnsureSnapshot(Stored(n, b), 0).snapshots
  {
    hide Sane, Stored, Adopts, TakeSnapshot, Path, Replay, SlotMap;
    StoredSane(n, b);
    EnsureSnapshotSane(Stored(n, b), 0);
  }

  lemma AcceptSnapshots(c: Primitives, n: Node, b: Block)
    requires Good(c, n) && Sane(n) && Admissible(c, n, b) && Storable(n, b)
    ensures Accept(c, n, b).node.snapshots == EnsureSnapshot(Stored(n, b), 0).snapshots
  {
    hide Inv, Accounts, Admissible, Adopts, Sane, RegisterProducer, ProcessMissed, Storable, EnsureSnapshot, Rewarded,
      Extends, DrawnFrom, Advances, MovesTip;
    RewardedKeeps(c, n, b);
    var m := Rewarded(c, n, b);
    TipClocked(c, m);
    ProcessMissedKeeps(c, m, TipSlot(m.chain));
    RewardedSnapshots(c, n, b);
  }

  // What becomes of the tree, the store and the tip when a block is taken in.
  lemma AcceptEffects(c: Primitives, n: Node, b: Block)
    requires Good(c, n) && Sane(n) && Admissible(c, n, b) && Storable(n, b)
    ensures Sane(EnsureSnapshot(Stored(n, b), 0)) && b.hash in EnsureSnapshot(Stored(n, b), 0).blocks
    ensures var m := Accept(c, n, b).node;
      && m.blocks == n.blocks[b.hash := b] && m.store == n.store
      && m.tip == (if Adopts(EnsureSnapshot(Stored(n, b), 0), b.hash) then b.hash else n.tip)
  {
    hide Inv, Accounts, Admissible, Adopts, Sane, Stored, Rewarded, ProcessMissed, Storable, EnsureSnapshot,
      DrawnFrom, Advances, MovesTip;
    RewardedKeeps(c, n, b);
    StorableProducer(n, b);
    var m := Rewarded(c, n, b);
    TipClocked(c, m);
    ProcessMissedKeeps(c, m, TipSlot(m.chain));
    RewardedTip(c, n, b);
    RewardedBlocks(c, n, b);
  }

  lemma RewardedTip(c: Primitives, n: Node, b: Block)
    requires Storable(n, b)
    ensures Sane(EnsureSnapshot(Stored(n, b), 0)) && b.hash in EnsureSnapshot(Stored(n, b), 0).blocks
    ensures Rewarded(c, n, b).tip == if Adopts(EnsureSnapshot(Stored(n, b), 0), b.hash) then b.hash else n.tip
  {
    hide Sane, Stored, Adopts, TakeSnapshot, Path, Replay, SlotMap;
    StoredSane(n, b);
    EnsureSnapshotSane(Stored(n, b), 0);
  }

  lemma ProduceAdopts(c: Primitives, n: Node, parent: Block, state: State, leader: string,
                      txs: seq<Transaction>, entropy: nat, io: WriteOutcome)
    requires Good(c, n) && Sane(n) && HasSnapshot(n.snapshots, n.cfg.epochLength, SlotOf(n.poh.tick))
    requires (forall h :: h in n.blocks ==> n.blocks[h].tick < n.poh.tick)
    requires parent.hash in n.blocks && n.blocks[parent.hash] == parent && parent.hash == n.tip
    requires BuildFresh(c, n, parent, Ok(state), leader, txs, entropy)
    requires n.cfg.maxReorgDepth >= 0 && Produce(c, n, parent, Ok(state), leader, txs, entropy, io).result.Ok?
    ensures var o := Produce(c, n, parent, Ok(state), leader, txs, entropy, io);
      TipRule(n, o.node, o.result.value)
  {
    hide Good, Sane, Accept, Build, StepOk, Path, IsTree, Admissible, Storable, SaveBlock, HasSnapshot, WeighsEnough,
      BuildFresh;
    SaneTree(n);
    BuiltIsAdmissible(c, n, parent, Ok(state), leader, txs, entropy);
    var b := Build(c, n, parent, Ok(state), leader, txs, entropy).value;
    SaveStorable(n, b, io);
    SavedAdmissible(c, n, Save(n, b, io), b);
    SavedGood(c, n, b, io);
    SaveAndAcceptKeeps(c, n, b, io);
    AcceptAdopts(c, Save(n, b, io), b);
  }

  // Block h has been put on the tip of n, and is the new tip exactly when its
  // producer weighs enough.
  ghost predicate TipRule(n: Node, m: Node, h: string) {
    && n.cfg.epochLength > 0 && h in m.blocks && m.blocks[h].prevHash == n.tip
    && (m.tip == h <==> WeighsEnough(n.cfg, m.snapshots, TipSlot(n.chain), m.blocks[h].slot, m.blocks[h].validator))
  }

  // Canonical progress: what AddBlock builds extends the tip, and is adopted
  // exactly when there is no weight rule or the snapshot stake of its leader
  // reaches the required share of the active stake.
  lemma AddBlockAdoption(c: Primitives, n: Node, txs: seq<Transaction>, entropy: nat, io: WriteOutcome)
    requires Good(c, n) && Sane(n) && n.cfg.maxReorgDepth >= 0
    requires AddBlockFresh(c, n, txs, entropy) && AddBlock(c, n, txs, entropy, io).result.Ok?
    ensures var o := AddBlock(c, n, txs, entropy, io);
      TipRule(n, o.node, o.result.value)
  {
    hide Inv, Good, StartSlot, BuildFresh, Produce, TakeBody, Body, Path, IsTree, Sane, LeaderAt, HasSnapshot,
      AddBlockFresh, WeighsEnough, DrawnFrom;
    SaneTree(n);
    TipStart(c, n, txs);
    FreshBuild(c, n, txs, entropy);
    var n1 := StartSlot(c, n);
    ProduceAdopts(c, TakeBody(c, n1, txs), n.blocks[n.tip], n.state, CurrentLeader(c, n1), Body(c, n1, txs), entropy,
      io);
  }

  // H4: with a negative depth limit no block is ever adopted.
  lemma NegativeDepthFreezes(n: Node, h: string)
    requires Sane(n) && h in n.blocks && n.cfg.maxReorgDepth < 0
    ensures !Adopts(n, h)
  {
    hide Sane;
  }
}
