// The start of an engine, the events of a run, and what each event keeps. The one
// hypothesis is that new blocks have new hashes.
module Runs {
  import opened Domain
  import opened Text
  import opened Crypto
  import opened Poh
  import opened Stake
  import opened Mempool
  import opened Tree
  import opened Storage
  import opened Engine
  import opened Invariant
  import opened ForkChoice
  import opened Misses
  import opened Steps
  import opened Production

  // -------------------------------------------------------------------- start

  const DEFAULT_REORG_DEPTH: int := 2
  const DEFAULT_FINALITY_SLOTS: nat := 2
  const DEFAULT_BLOCK_TXS: int := 100

  // The zero fields of a configuration take their defaults.
  function Defaulted(cfg: Config): Config {
    Config(
      if cfg.maxReorgDepth == 0 then DEFAULT_REORG_DEPTH else cfg.maxReorgDepth,
      if cfg.finalitySlots == 0 then DEFAULT_FINALITY_SLOTS else cfg.finalitySlots,
      cfg.minReorgWeightDeltaP,
      if cfg.epochLength == 0 then SLOTS_PER_EPOCH else cfg.epochLength,
      if cfg.maxBlockTxs == 0 then DEFAULT_BLOCK_TXS else cfg.maxBlockTxs)
  }

  function GenesisBlock(c: Primitives, seed: Digest): Block {
    var g := Block(0, GENESIS_PARENT, 0, 0, GENESIS_NAME, TxRoot(c, []), StateRoot(c, map[]), PoHHashHex(seed), "",
      "", []);
    g.(hash := HashBlock(c, g))
  }

  // NewBlockchain, with the seed that its random source gives.
  function NewNode(c: Primitives, cfg: Config, seed: Digest, store: Option<Store>): Node {
    var g := GenesisBlock(c, seed);
    Node(Defaulted(cfg), [g], map[g.hash := g], map[g.hash := GENESIS_PARENT], g.hash, map[], map[],
         PohState(0, seed), map[], map[], map[], map[], [], 0, 0, map[], Pool(map[], []), store, map[], [])
  }

  // A new engine: genesis alone, at slot and tick 0 and at the seed's hash, no money,
  // no validators, nothing pooled, and 2, 2, 50 and 100 for settings that are zero.
  lemma NewNodeStart(c: Primitives, cfg: Config, seed: Digest, store: Option<Store>)
    ensures var n := NewNode(c, cfg, seed, store);
      && n.chain == [n.blocks[n.tip]] && n.blocks.Keys == {n.tip} && n.poh == PohState(0, seed) && n.store == store
      && n.state == map[] && n.genesis == map[] && n.validators == map[] && n.pool.list == []
      && n.cfg == cfg.(
           maxReorgDepth := if cfg.maxReorgDepth == 0 then 2 else cfg.maxReorgDepth,
           finalitySlots := if cfg.finalitySlots == 0 then 2 else cfg.finalitySlots,
           epochLength := if cfg.epochLength == 0 then 50 else cfg.epochLength,
           maxBlockTxs := if cfg.maxBlockTxs == 0 then 100 else cfg.maxBlockTxs)
    ensures var n := NewNode(c, cfg, seed, store);
      var g := n.blocks[n.tip];
      && IsGenesis(g) && g.txs == [] && g.hash == HashBlock(c, g) && ParsePoHHashHex(g.pohHash) == Some(seed)
      && g.txRoot == HexEncode(c.sha256("")) && g.stateRoot == HexEncode(c.sha256(""))
  {
    hide BlockPreimage, Sorted;
    var g := GenesisBlock(c, seed);
    PoHHashHexRoundTrip(seed);
    HeaderHash(c, g, g.(hash := ""));
    assert SortedKeys({}) == [];
  }

  lemma NewNodeGood(c: Primitives, cfg: Config, seed: Digest, store: Option<Store>)
    ensures Good(c, NewNode(c, cfg, seed, store))
  {
    hide HashBlock, TxRoot, StateRoot;
    var n := NewNode(c, cfg, seed, store);
    PoHHashHexRoundTrip(seed);
    assert |HashBlock(c, n.chain[0])| == 64;
    assert HashBlock(c, n.chain[0]) == n.tip by { HeaderHash(c, n.chain[0], GenesisBlock(c, seed).(hash := "")); }
  }

  // -------------------------------------------------------------------- events

  datatype Event =
    | ValidatorAdded(name: string, stake: int, pubKey: string, key: Option<PrivateKey>)
    | BalanceSet(address: string, amount: Int64)
    | TxAdded(tx: Transaction)
    | BlockAdded(txs: seq<Transaction>, entropy: nat, io: WriteOutcome)
    | ExternalBlockAdded(prevHash: string, txs: seq<Transaction>, entropy: nat, io: WriteOutcome)

  // Hypothesis H0 on one event: the block it builds, if any, does not collide
  // with a stored one under SHA-256.
  ghost predicate CollisionFree(c: Primitives, n: Node, e: Event)
    requires Sane(n)
  {
    match e
    case BlockAdded(txs, entropy, _) =>
      var n1 := StartSlot(c, n);
      BuildCollisionFree(c, TakeBody(c, n1, txs), n.blocks[n.tip], Ok(n.state), CurrentLeader(c, n1),
        Body(c, n1, txs), entropy)
    case ExternalBlockAdded(prevHash, txs, entropy, _) =>
      prevHash in n.blocks ==>
        var n1 := StartSlot(c, n);
        BuildCollisionFree(c, n1, n.blocks[prevHash], StateAtTip(c, n, prevHash), CurrentLeader(c, n1), txs, entropy)
    case _ => true
  }

  // One step, whether the operation succeeds or returns an error.
  ghost predicate Next(c: Primitives, n: Node, e: Event, m: Node)
    requires Sane(n)
  {
    match e
    case ValidatorAdded(name, stake, pubKey, key) => m == AddValidator(n, name, stake, pubKey, key)
    case BalanceSet(address, amount) => m == SetBalance(n, address, amount)
    case TxAdded(tx) => m == n.(pool := m.pool) && Adds(c, n.pool, tx, m.pool)
    case BlockAdded(txs, entropy, io) =>
      AddBlockFresh(c, n, txs, entropy) ==> m == AddBlock(c, n, txs, entropy, io).node
    case ExternalBlockAdded(prevHash, txs, entropy, io) =>
      AddBlockExternalFresh(c, n, prevHash, txs, entropy) ==>
        m == AddBlockExternal(c, n, prevHash, txs, entropy, io).node
  }

  // ------------------------------------------------------- one step at a time

  lemma AddValidatorKeeps(c: Primitives, n: Node, name: string, stake: int, pubKey: string, key: Option<PrivateKey>)
    requires Good(c, n)
    ensures StepOk(c, n, AddValidator(n, name, stake, pubKey, key))
  {
    hide Inv, Good, Register, StepOk;
    var m := AddValidator(n, name, stake, pubKey, key);
    GoodInv(c, n);
    InvRegistry(c, n);
    RegisterKeeps(n.validators, name, stake, pubKey, key);
    RegistryFree(c, n, m);
    RefusalKeeps(c, n, m);
  }

  lemma SetBalanceKeeps(c: Primitives, n: Node, address: string, amount: Int64)
    requires Good(c, n)
    ensures StepOk(c, n, SetBalance(n, address, amount))
  {
    hide Inv, Mempool.Consistent, Good, StepOk, Quiet, SetBalance;
    GoodInv(c, n);
    GoodPool(c, n);
    SetBalanceQuiet(n, address, amount);
    StateFree(c, n, SetBalance(n, address, amount));
    RefusalKeeps(c, n, SetBalance(n, address, amount));
  }

  lemma SetBalanceQuiet(n: Node, address: string, amount: Int64)
    ensures Quiet(n, SetBalance(n, address, amount))
  {
    hide SetBalance;
  }

  lemma GoodPool(c: Primitives, n: Node)
    requires Good(c, n)
    ensures Consistent(c, n.pool)
  {
    hide TreeInv, SlotMap, Mempool.Consistent, CleanRecord, Accounts;
  }

  lemma AddTxKeeps(c: Primitives, n: Node, tx: Transaction, m: Node)
    requires Good(c, n) && m == n.(pool := m.pool) && Adds(c, n.pool, tx, m.pool)
    ensures StepOk(c, n, m)
  {
    hide TreeInv, SlotMap, Mempool.Consistent, CleanRecord, Good, Adds, StepOk;
    GoodInv(c, n);
    AddKeepsConsistent(c, n.pool, tx, m.pool);
    StateFree(c, n, m);
    RefusalKeeps(c, n, m);
  }

  lemma StartSlotGood(c: Primitives, n: Node)
    requires Good(c, n)
    ensures Good(c, StartSlot(c, n)) && Advances(n, StartSlot(c, n))
    ensures DrawnFrom(n.snapshots, StartSlot(c, n).snapshots, n.validators, n.stats, n.cfg.epochLength)
  {
    hide TreeInv, CacheInv, EnsureSnapshot, Sane, Balanced, JudgedLeaders, JudgedInOrder, DrawnFrom, KeepsFinal,
      Advance;
    GoodInv(c, n);
    InvSane(c, n);
    SaneTree(n);
    SaneRegistry(n);
    StartSlotInv(c, n);
    StartSlotSane(c, n);
    AccountsCarry(c, n, StartSlot(c, n));
    KeepsFinalSame(n.chain, n.finalized);
    var tick := n.poh.tick + TICKS_PER_SLOT;
    SnapshotDrawn(n.(poh := PohState(tick, Advance(c, n.poh.hash, n.poh.tick, tick))),
      SlotOf(tick) / n.cfg.epochLength);
  }

  lemma TakeBodyGood(c: Primitives, n: Node, txs: seq<Transaction>)
    requires Good(c, n) && n.cfg.epochLength > 0
    ensures Good(c, TakeBody(c, n, txs))
    ensures TakeBody(c, n, txs) == n.(pool := TakeBody(c, n, txs).pool)
  {
    hide TreeInv, SlotMap, Mempool.Consistent, CleanRecord, Accounts, AfterPop, LeaderAt, FeeAddress;
    PopKeepsConsistent(c, n.pool, n.state, n.cfg.maxBlockTxs, FeeAddress(c, KeysOf(n.validators), CurrentLeader(c, n)));
    StateFree(c, n, TakeBody(c, n, txs));
    AccountsCarry(c, n, TakeBody(c, n, txs));
  }

  // A step taken after the clock has moved and the pool has been read is a step
  // from the node before.
  lemma StepAfterStart(c: Primitives, n: Node, n2: Node, m: Node)
    requires Sane(n) && n2 == n.(poh := n2.poh, snapshots := n2.snapshots, pool := n2.pool)
    requires Frozen(n.snapshots, n2.snapshots) && StepOk(c, n2, m)
    requires DrawnFrom(n.snapshots, n2.snapshots, n.validators, n.stats, n.cfg.epochLength)
    ensures StepOk(c, n, m)
  {
    hide Sane, Good, Path, IsTree, Score, Abandoned, KeepsFinal, Just, BetterScore, DrawnFrom, MovesTip;
    DrawnBoth(n.snapshots, n2.snapshots, m.snapshots, n.validators, n.stats, n.cfg.epochLength);
    MovesTipFrom(n, n2, m);
  }

  // Where AddBlock starts building: the clock moved, the body taken.
  lemma TipStart(c: Primitives, n: Node, txs: seq<Transaction>)
    requires Good(c, n) && Sane(n)
    ensures StartSlot(c, n).cfg.epochLength > 0
    ensures var n1 := StartSlot(c, n);
      var n2 := TakeBody(c, n1, txs);
      && Good(c, n2) && Sane(n2) && n2 == n.(poh := n2.poh, snapshots := n2.snapshots, pool := n2.pool)
      && n2.poh == n1.poh && n2.snapshots == n1.snapshots && n2.poh.tick > 0
      && HasSnapshot(n2.snapshots, n2.cfg.epochLength, SlotOf(n2.poh.tick))
      && (forall h :: h in n2.blocks ==> n2.blocks[h].tick < n2.poh.tick)
      && Frozen(n.snapshots, n2.snapshots)
        && DrawnFrom(n.snapshots, n2.snapshots, n.validators, n.stats, n.cfg.epochLength)
      && LeaderAt(c, n2.snapshots, n2.cfg.epochLength, SlotOf(n2.poh.tick)) == CurrentLeader(c, n1)
    ensures n.tip in n.blocks && n.blocks[n.tip].hash == n.tip
  {
    hide Inv, Good, Sane, StartSlot, TakeBody, Path, IsTree, LeaderAt, HasSnapshot, KeepsFinal, DrawnFrom;
    SaneTree(n);
    StartSlotSane(c, n);
    StartSlotGood(c, n);
    TakeBodyGood(c, StartSlot(c, n), txs);
    GoodSane(c, TakeBody(c, StartSlot(c, n), txs));
    StoredUnderHash(n, n.tip);
  }

  lemma StoredUnderHash(n: Node, h: string)
    requires Sane(n) && h in n.blocks
    ensures n.blocks[h].hash == h
  {
  }

  lemma AddBlockKeeps(c: Primitives, n: Node, txs: seq<Transaction>, entropy: nat, io: WriteOutcome)
    requires Good(c, n) && Sane(n) && CollisionFree(c, n, BlockAdded(txs, entropy, io))
    ensures AddBlockFresh(c, n, txs, entropy) && StepOk(c, n, AddBlock(c, n, txs, entropy, io).node)
  {
    hide Inv, Good, Sane, StartSlot, BuildCollisionFree, BuildFresh, Produce, StepOk, TakeBody, Body, LeaderAt, Path,
      IsTree, HasSnapshot, DrawnFrom;
    SaneTree(n);
    TipStart(c, n, txs);
    var n1 := StartSlot(c, n);
    var n2 := TakeBody(c, n1, txs);
    GoodTree(c, n2);
    BuildIsFresh(c, n2, n.blocks[n.tip], Ok(n.state), CurrentLeader(c, n1), Body(c, n1, txs), entropy);
    if |n.validators| != 0 {
      ProduceKeeps(c, n2, n.blocks[n.tip], Ok(n.state), CurrentLeader(c, n1), Body(c, n1, txs), entropy, io);
      StepAfterStart(c, n, n2, AddBlock(c, n, txs, entropy, io).node);
    } else {
      GoodInv(c, n);
      RefusalKeeps(c, n, n);
    }
  }

  lemma GoodTree(c: Primitives, n: Node)
    requires Good(c, n)
    ensures TreeInv(c, n)
  {
  }

  lemma ExternalStart(c: Primitives, n: Node, prevHash: string)
    requires Good(c, n) && Sane(n) && prevHash in n.blocks
    ensures var n1 := StartSlot(c, n);
      && Good(c, n1) && TreeInv(c, n1) && Sane(n1) && Frozen(n.snapshots, n1.snapshots)
      && n1 == n.(poh := n1.poh, snapshots := n1.snapshots)
      && DrawnFrom(n.snapshots, n1.snapshots, n.validators, n.stats, n.cfg.epochLength)
    ensures n.blocks[prevHash].hash == prevHash
  {
    hide Inv, TreeInv, Good, StartSlot, Path, IsTree, KeepsFinal, Sane, DrawnFrom;
    SaneTree(n);
    StartSlotSane(c, n);
    StartSlotGood(c, n);
    GoodTree(c, StartSlot(c, n));
    StoredUnderHash(n, prevHash);
  }

  lemma ExternalProduces(c: Primitives, n: Node, prevHash: string, txs: seq<Transaction>, entropy: nat,
                         io: WriteOutcome)
    requires Good(c, n) && Sane(n) && prevHash in n.blocks
    requires CollisionFree(c, n, ExternalBlockAdded(prevHash, txs, entropy, io))
    ensures AddBlockExternalFresh(c, n, prevHash, txs, entropy)
    ensures |n.validators| != 0 ==> StepOk(c, n, AddBlockExternal(c, n, prevHash, txs, entropy, io).node)
  {
    hide Good, Sane, TreeInv, StartSlot, BuildCollisionFree, BuildFresh, Produce, StepOk, LeaderAt, Path, IsTree,
      Replay, StateAtTip, HasSnapshot, DrawnFrom;
    SaneTree(n);
    ExternalStart(c, n, prevHash);
    StartSlotSane(c, n);
    var n1 := StartSlot(c, n);
    BuildIsFresh(c, n1, n.blocks[prevHash], StateAtTip(c, n, prevHash), CurrentLeader(c, n1), txs, entropy);
    if |n.validators| != 0 {
      ProduceKeeps(c, n1, n.blocks[prevHash], StateAtTip(c, n, prevHash), CurrentLeader(c, n1), txs, entropy, io);
      StepAfterStart(c, n, n1, AddBlockExternal(c, n, prevHash, txs, entropy, io).node);
    }
  }

  lemma AddBlockExternalKeeps(c: Primitives, n: Node, prevHash: string, txs: seq<Transaction>, entropy: nat,
                              io: WriteOutcome)
    requires Good(c, n) && Sane(n) && CollisionFree(c, n, ExternalBlockAdded(prevHash, txs, entropy, io))
    ensures AddBlockExternalFresh(c, n, prevHash, txs, entropy)
    ensures StepOk(c, n, AddBlockExternal(c, n, prevHash, txs, entropy, io).node)
  {
    hide Good, Sane, StartSlot, BuildCollisionFree, BuildFresh, Produce, StepOk, Path, StateAtTip;
    if prevHash in n.blocks {
      ExternalProduces(c, n, prevHash, txs, entropy, io);
    }
    GoodInv(c, n);
    RefusalKeeps(c, n, n);
  }

  // Every event keeps everything, whether it succeeds or fails.
  lemma StepKeeps(c: Primitives, n: Node, e: Event, m: Node)
    requires Good(c, n) && Sane(n) && CollisionFree(c, n, e) && Next(c, n, e, m)
    ensures StepOk(c, n, m)
  {
    hide Good, Sane, StepOk, AddBlock, AddBlockExternal, BuildCollisionFree, Adds, AddBlockFresh,
      AddBlockExternalFresh, StartSlot, Body, TakeBody, CurrentLeader, StateAtTip;
    match e
    case ValidatorAdded(name, stake, pubKey, key) => AddValidatorKeeps(c, n, name, stake, pubKey, key);
    case BalanceSet(address, amount) => SetBalanceKeeps(c, n, address, amount);
    case TxAdded(tx) => AddTxKeeps(c, n, tx, m);
    case BlockAdded(txs, entropy, io) => AddBlockKeeps(c, n, txs, entropy, io);
    case ExternalBlockAdded(prevHash, txs, entropy, io) => AddBlockExternalKeeps(c, n, prevHash, txs, entropy, io);
  }
}
