// core/blockchain.go as the object that it is. Every method is proved against
// the step function of the engine: View() is the value that the object holds,
// and each ensures says what the method makes of it.
module Core {
  import opened Domain
  import opened Crypto
  import opened Poh
  import opened Ledger
  import opened Stake
  import opened Mempool
  import opened Tree
  import opened Storage
  import opened Engine
  import opened Invariant
  import opened Upkeep
  import opened Steps
  import opened Auditor
  import opened Forks
  import opened Recovery
  import opened Restarts
  import opened Assembly
  import opened Walks
  import opened Runs

  class Blockchain {
    const c: Primitives
    const config: Config
    var chain: seq<Block>
    var blocks: Blocks
    var parents: map<string, string>
    var canonicalTip: string
    // The Validators and Stats maps, which consensus/pos.go updates in place.
    const registry: ValidatorRegistry
    const poh: PoH
    var state: State
    var genesis: State
    var slotProduced: map<nat, string>
    var slotProducers: map<nat, map<string, string>>
    var equivocations: seq<EquivocationProof>
    var lastProcessedSlot: nat
    var finalizedSlot: nat
    var snapshots: Snapshots
    const mempool: TxPool
    var blockStore: FileBlockStore?
    // History.
    ghost var keys: map<string, string>
    ghost var judged: seq<Judgement>

    ghost function View(): Node
      requires mempool.Valid()
      reads this, registry, poh, mempool, mempool.cells, blockStore
    {
      Node(config, chain, blocks, parents, canonicalTip, registry.validators, registry.stats,
           PohState(poh.currentTick, poh.hash), state, genesis, slotProduced, slotProducers, equivocations,
           lastProcessedSlot, finalizedSlot, snapshots, mempool.View(),
           if blockStore == null then None else Some(blockStore.View()), keys, judged)
    }

    ghost predicate Valid()
      reads this, registry, poh, mempool, mempool.cells, blockStore
    {
      mempool.Valid() && Sane(View()) && Consistent(c, View().pool)
    }

    constructor (c: Primitives, cfg: Config, seed: Digest)
      ensures Valid() && View() == NewNode(c, cfg, seed, None) && this.c == c
      ensures fresh(registry) && fresh(poh) && fresh(mempool) && fresh(mempool.cells)
    {
      var g := GenesisBlock(c, seed);
      this.c, config := c, Defaulted(cfg);
      chain, blocks, parents, canonicalTip := [g], map[g.hash := g], map[g.hash := g.prevHash], g.hash;
      registry := new ValidatorRegistry();
      poh := new PoH(seed);
      mempool := new TxPool();
      state, genesis := map[], map[];
      slotProduced, slotProducers, equivocations := map[], map[], [];
      lastProcessedSlot, finalizedSlot, snapshots := 0, 0, map[];
      blockStore := null;
      keys, judged := map[], [];
      new;
      NewNodeGood(c, cfg, seed, None);
      GoodStart(c, View());
    }

    // ------------------------------------------------------------- snapshots

    method EnsureSnapshot(epoch: nat)
      requires mempool.Valid() && Registry(registry.validators)
      modifies this`snapshots
      ensures old(Valid()) ==> Valid()
      ensures View() == Engine.EnsureSnapshot(old(View()), epoch)
    {
      hide Sane, Consistent;
      if Valid() {
        EnsureSnapshotSane(View(), epoch);
      }
      if epoch in snapshots {
        return;
      }
      var snap := BuildSnapshot(registry.validators, registry.stats, epoch, config.epochLength);
      snapshots := snapshots[epoch := snap];
    }

    method SnapshotStake(slot: nat, name: string) returns (stake: nat)
      requires Valid() && config.epochLength > 0
      modifies this`snapshots
      ensures Valid() && View() == Engine.EnsureSnapshot(old(View()), slot / config.epochLength)
      ensures stake == StakeIn(snapshots, config.epochLength, slot, name)
    {
      hide Sane, Consistent;
      SaneRegistry(View());
      EnsureSnapshot(slot / config.epochLength);
      var snap := snapshots[slot / config.epochLength];
      stake := if name in snap.validators then snap.validators[name] else 0;
    }

    method LeaderForSlot(slot: nat) returns (leader: string)
      requires Valid() && config.epochLength > 0
      modifies this`snapshots
      ensures Valid() && View() == Engine.EnsureSnapshot(old(View()), slot / config.epochLength)
      ensures leader == LeaderAt(c, snapshots, config.epochLength, slot)
    {
      hide Sane, Consistent, LeaderFromSnapshot;
      SaneRegistry(View());
      EnsureSnapshot(slot / config.epochLength);
      leader := PickLeader(c, slot, snapshots[slot / config.epochLength].validators);
    }

    // ----------------------------------------------------------- fork choice

    // Scoring asks for the snapshot of every slot down to genesis; all but the
    // genesis epoch's are there already.
    method ScoreTip(tipHash: string) returns (score: ChainScore)
      requires Valid()
      modifies this`snapshots
      ensures Valid()
      ensures tipHash !in blocks ==> View() == old(View()) && score == ChainScore(0, 0, "")
      ensures tipHash in blocks ==> View() == Engine.EnsureSnapshot(old(View()), 0) && score == Score(View(), tipHash)
    {
      hide Sane, Consistent, IsTree, Path, StakeIn, Engine.EnsureSnapshot;
      if tipHash !in blocks {
        return ChainScore(0, 0, "");
      }
      SaneTree(View());
      ghost var g, target := chain[0], Engine.EnsureSnapshot(View(), 0);
      EnsureSnapshotSane(View(), 0);
      var weight := 0;
      var cur := blocks[tipHash];
      StoredBlock(blocks, g, tipHash);
      while cur.prevHash != GENESIS_PARENT
        invariant Valid() && View() == old(View())
        invariant cur.hash in blocks && blocks[cur.hash] == cur
        invariant weight + Weight(target.snapshots, config.epochLength, Path(blocks, g, cur.hash))
               == Weight(target.snapshots, config.epochLength, Path(blocks, g, tipHash))
        decreases cur.index
      {
        PathStep(blocks, g, cur.hash);
        StakeCovered(View(), cur.hash);
        var stake := SnapshotStake(cur.slot, cur.validator);
        WeightExtend(target.snapshots, config.epochLength, Path(blocks, g, cur.prevHash), cur);
        weight := weight + stake;
        StoredBlock(blocks, g, cur.prevHash);
        cur := blocks[cur.prevHash];
      }
      PathEnd(blocks, g, cur.hash);
      GenesisSlot(View());
      var stake := SnapshotStake(cur.slot, cur.validator);
      WeightExtend(target.snapshots, config.epochLength, [], cur);
      weight := weight + stake;
      score := ChainScore(blocks[tipHash].slot, weight, tipHash);
    }

    // The active stake is that of the tip's epoch, whose snapshot is taken if it
    // has to be looked at.
    method WeightDeltaOk(oldWeight: nat, newWeight: nat) returns (ok: bool)
      requires Valid() && config.epochLength > 0
      modifies this`snapshots
      ensures Valid() && ok == WeightDeltaSatisfied(View(), oldWeight, newWeight)
      ensures View() == if config.minReorgWeightDeltaP > 0 && newWeight > oldWeight
        then Engine.EnsureSnapshot(old(View()), TipSlot(chain) / config.epochLength) else old(View())
    {
      hide Sane, Consistent, TakeSnapshot;
      if config.minReorgWeightDeltaP <= 0 {
        return true;
      }
      if newWeight <= oldWeight {
        return false;
      }
      SaneRegistry(View());
      EnsureSnapshot(TipSlot(chain) / config.epochLength);
      var active := snapshots[TipSlot(chain) / config.epochLength].totalStake;
      var minDelta := active * config.minReorgWeightDeltaP / 100;
      if minDelta == 0 {
        minDelta := 1;
      }
      ok := newWeight >= oldWeight + minDelta;
    }

    method UpdateFinality()
      modifies this`finalizedSlot
      ensures finalizedSlot == Finality(old(finalizedSlot), TipSlot(chain), config.finalitySlots)
    {
      var tipSlot := TipSlot(chain);
      if tipSlot < config.finalitySlots {
        return;
      }
      var finalized := tipSlot - config.finalitySlots;
      if finalized > finalizedSlot {
        finalizedSlot := finalized;
      }
    }

    // The tail of updateCanonical, past the guards.
    method AdoptChain(tipHash: string, newChain: seq<Block>)
      requires Valid() && tipHash in blocks && chain != [] && IsTree(blocks, chain[0])
      requires newChain == Path(blocks, chain[0], tipHash)
      modifies this`canonicalTip, this`chain, this`slotProduced, this`state, this`finalizedSlot
      ensures Valid() && View() == Adopt(c, old(View()), tipHash)
    {
      hide Sane, Consistent, Path, IsTree, Replay, SlotMap, Finality, KeysOf, TipSlot;
      AdoptSane(c, View(), tipHash);
      canonicalTip, chain := tipHash, newChain;
      RebuildCaches();
    }

    // What is derived from the chain, in the order in which the source does it.
    method RebuildCaches()
      modifies this`slotProduced, this`state, this`finalizedSlot
      ensures slotProduced == SlotMap(chain)
      ensures var r := Replay(c, genesis, KeysOf(registry.validators), chain);
        state == if r.Ok? then r.value else old(state)
      ensures finalizedSlot == Finality(old(finalizedSlot), TipSlot(chain), config.finalitySlots)
    {
      hide Replay, SlotMap, Finality, KeysOf;
      RebuildSlotMap();
      RebuildState();
      UpdateFinality();
    }

    method RebuildSlotMap()
      modifies this`slotProduced
      ensures slotProduced == SlotMap(chain)
    {
      slotProduced := BuildSlotMap(chain);
    }

    // rebuildStateFromCanonical: the state stays as it was when the replay fails.
    method RebuildState()
      modifies this`state
      ensures var r := Replay(c, genesis, KeysOf(registry.validators), chain);
        state == if r.Ok? then r.value else old(state)
    {
      hide Replay, KeysOf;
      var replayed := ReplayChain(c, genesis, registry.validators, chain);
      if replayed.Ok? {
        state := replayed.value;
      }
    }

    // The hash of no stored block moves nothing.
    method UpdateCanonical(tipHash: string) returns (moved: bool)
      requires Valid()
      modifies this`snapshots, this`canonicalTip, this`chain, this`slotProduced, this`state, this`finalizedSlot
      ensures Valid()
      ensures tipHash in old(blocks) ==>
        View() == Engine.UpdateCanonical(c, old(View()), tipHash) && moved == WouldAdopt(old(View()), tipHash)
      ensures tipHash !in old(blocks) ==> View() == Engine.EnsureSnapshot(old(View()), 0) && !moved
    {
      hide Sane, Consistent, Path, IsTree, Adopt, Score, Engine.EnsureSnapshot, BetterScore, WeightDeltaSatisfied;
      ghost var start := View();
      SaneTree(start);
      var currentScore := ScoreTip(canonicalTip);
      ScoredOnce(start);
      var newScore := ScoreTip(tipHash);
      if !BetterScore(newScore, currentScore) {
        return false;
      }
      if tipHash !in blocks {
        return false;
      }
      var newChain := WalkFrom(blocks, chain[0], tipHash);
      var reorgDepth, divergeSlot := ComputeReorgDepthAndSlot(chain, newChain);
      if finalizedSlot > 0 && divergeSlot <= finalizedSlot {
        return false;
      }
      if reorgDepth > config.maxReorgDepth {
        return false;
      }
      TipScored(start);
      var enough := WeightDeltaOk(currentScore.weight, newScore.weight);
      if !enough {
        return false;
      }
      AdoptChain(tipHash, newChain);
      return true;
    }

    // ----------------------------------------------------------- equivocation

    method HandleEquivocation(validator: string, slot: nat, first: string, second: string)
      requires mempool.Valid()
      modifies this`equivocations, registry
      ensures equivocations == old(equivocations) + [EquivocationProof(slot, validator, first, second)]
      ensures registry.validators == SlashPercent(old(registry.validators), validator, SLASH_PERCENT)
      ensures registry.stats == old(registry.stats)[validator := StatsOf(old(registry.stats), validator).(
        slashed := true, jailedUntilEpoch := slot / SLOTS_PER_EPOCH + JAIL_EPOCHS)]
    {
      hide SlashPercent;
      equivocations := equivocations + [EquivocationProof(slot, validator, first, second)];
      var stats := StatsOf(registry.stats, validator).(slashed := true);
      registry.SlashValidatorPercent(validator, SLASH_PERCENT);
      stats := stats.(jailedUntilEpoch := slot / SLOTS_PER_EPOCH + JAIL_EPOCHS);
      registry.stats := registry.stats[validator := stats];
    }

    method RegisterSlotProducer(b: Block) returns (equivocated: bool)
      requires Valid()
      modifies this`equivocations, this`slotProducers, registry
      ensures Valid() && View() == RegisterProducer(old(View()), b)
      ensures equivocated == Equivocates(old(View()), b)
    {
      hide Sane, Consistent, SlashPercent;
      RegisterProducerSane(View(), b);
      var slotMap := if b.slot in slotProducers then slotProducers[b.slot] else map[];
      if b.validator in slotMap && slotMap[b.validator] != b.hash {
        slotProducers := slotProducers[b.slot := slotMap];
        HandleEquivocation(b.validator, b.slot, slotMap[b.validator], b.hash);
        return true;
      }
      slotMap := slotMap[b.validator := b.hash];
      slotProducers := slotProducers[b.slot := slotMap];
      return false;
    }

    // With the history of the key that the block was accepted under.
    method InsertNewBlock(b: Block, ghost pubKey: string)
      requires Valid() && Sane(InsertBlock(View(), b, pubKey))
      modifies this`blocks, this`parents, this`keys
      ensures Valid() && View() == InsertBlock(old(View()), b, pubKey)
    {
      hide Sane, Consistent;
      blocks := blocks[b.hash := b];
      parents := parents[b.hash := b.prevHash];
      keys := keys[b.validator := pubKey];
    }

    // ----------------------------------------------------------- missed slots

    method JudgeOneSlot(slot: nat)
      requires Valid() && config.epochLength > 0
      modifies this`snapshots, this`judged, registry
      ensures Valid() && View() == JudgeSlot(c, old(View()), slot)
    {
      hide Sane, Consistent, SlashPercent, LeaderAt, Engine.EnsureSnapshot;
      JudgeSlotSane(c, View(), slot);
      var leader := LeaderForSlot(slot);
      ghost var j := VerdictAt(c, View(), slot);
      judged := judged + [j];
      if leader == GENESIS_NAME {
        return;
      }
      var producedBy := if slot in slotProduced then slotProduced[slot] else "";
      if producedBy != leader {
        var stats := StatsOf(registry.stats, leader);
        stats := stats.(missedSlots := stats.missedSlots + 1);
        if stats.missedSlots > MAX_MISSED_SLOTS {
          registry.SlashValidatorPercent(leader, SLASH_PERCENT);
          stats := stats.(missedSlots := 0, jailedUntilEpoch := slot / SLOTS_PER_EPOCH + JAIL_EPOCHS);
        }
        registry.stats := registry.stats[leader := stats];
      }
    }

    method ProcessMissedSlots(targetSlot: nat)
      requires Valid() && config.epochLength > 0
      modifies this`snapshots, this`judged, this`lastProcessedSlot, registry
      ensures Valid() && View() == ProcessMissed(c, old(View()), targetSlot)
    {
      hide Sane, Consistent, JudgeSlot;
      ghost var start := View();
      if targetSlot <= lastProcessedSlot {
        return;
      }
      for slot := lastProcessedSlot + 1 to targetSlot + 1
        invariant Valid() && View() == JudgeUpTo(c, start, slot - 1)
        invariant lastProcessedSlot == start.lastProcessed
      {
        JudgeOneSlot(slot);
      }
      ProcessMissedSane(c, start, targetSlot);
      lastProcessedSlot := targetSlot;
    }

    // ---------------------------------------------------------- callers' input

    method SetBalance(address: string, amount: Int64)
      requires Valid()
      modifies this`state, this`genesis
      ensures Valid() && View() == Engine.SetBalance(old(View()), address, amount)
    {
      hide Consistent, Path, IsTree;
      if amount < 0 {
        return;
      }
      var acct := AccountOf(state, address);
      acct := acct.(balance := amount);
      state := state[address := acct];
      if |chain| <= 1 {
        genesis := genesis[address := acct];
      }
    }

    method AddTx(tx: Transaction) returns (e: Option<AddError>)
      requires Valid()
      modifies mempool, mempool.cells
      ensures Valid()
      ensures e == CheckAdd(c, old(View()).pool, tx)
      ensures View() == old(View()).(pool := View().pool) && Adds(c, old(View()).pool, tx, View().pool)
    {
      hide Sane, Adds, CheckAdd;
      ghost var before := View();
      e := mempool.Add(c, tx);
      SaneRegistry(before);
      SaneFree(before, View());
      AddKeepsConsistent(c, before.pool, tx, View().pool);
    }

    method AddValidator(name: string, stake: int, pubKey: string, key: Option<PrivateKey>)
      returns (e: Option<StakeError>)
      requires Valid()
      modifies registry
      ensures Valid() && View() == Engine.AddValidator(old(View()), name, stake, pubKey, key)
      ensures e == CheckRegistration(old(registry.validators), name, stake, pubKey)
    {
      hide Sane, Consistent, Register, RegisterStats;
      AddValidatorSane(View(), name, stake, pubKey, key);
      e := registry.AddValidator(name, stake, pubKey, key);
    }

    // -------------------------------------------------------------- acceptance

    method StateAt(tipHash: string) returns (r: Result<State, TxError>)
      requires Valid() && tipHash in blocks
      ensures Sane(View()) && r == StateAtTip(c, View(), tipHash)
    {
      hide Sane, Consistent, Path, IsTree, Replay;
      SaneTree(View());
      var p := WalkFrom(blocks, chain[0], tipHash);
      r := ReplayChain(c, genesis, registry.validators, p);
    }

    method VerifyBlockOnAccept(prev: Block, b: Block, before: State) returns (e: Option<AcceptError>)
      requires Valid() && config.epochLength > 0
      modifies this`snapshots
      ensures Valid() && e == CheckOnAccept(c, View(), prev, b, before)
      ensures View() == if b.prevHash != prev.hash
        then old(View()) else Engine.EnsureSnapshot(old(View()), b.slot / config.epochLength)
    {
      hide Sane, Consistent, LeaderAt, CheckContents, TakeSnapshot;
      if b.prevHash != prev.hash {
        return Some(WrongParent);
      }
      var leader := LeaderForSlot(b.slot);
      if leader != b.validator {
        return Some(WrongLeader);
      }
      e := VerifyContents(c, registry.validators, b, before);
    }

    // ---------------------------------------------------------- block building

    // The first steps of AddBlock and AddBlockExternal.
    method StartSlot()
      requires Valid()
      modifies this`snapshots, poh
      ensures Valid() && View() == Engine.StartSlot(c, old(View()))
    {
      hide Sane, Consistent, Engine.EnsureSnapshot, Advance;
      StartSlotSane(c, View());
      SaneTree(View());
      SaneRegistry(View());
      poh.Tick(c, TICKS_PER_SLOT);
      EnsureSnapshot(poh.Slot() / config.epochLength);
    }

    method AcceptBlock(b: Block) returns (equivocated: bool)
      requires Valid() && Storable(View(), b)
      modifies this, registry
      ensures Valid() && View() == Accept(c, old(View()), b).node
      ensures equivocated == Equivocates(old(View()), b)
    {
      hide Sane, Consistent, RegisterProducer, InsertBlock, Engine.UpdateCanonical, ProcessMissed, Equivocates,
        Extends, Reward, TipSlot, Stored;
      ghost var start := View();
      StoredSane(start, b);
      UpdateCanonicalSane(c, Stored(start, b), b.hash);
      equivocated := StoreBlock(b);
      var moved := UpdateCanonical(b.hash);
      RewardSane(View(), b.validator);
      registry.RewardValidator(b.validator);
      assert View() == Rewarded(c, start, b);
      SaneEpoch(View());
      ProcessMissedSlots(TipSlot(chain));
    }

    // registerSlotProducer and insertBlock.
    method StoreBlock(b: Block) returns (equivocated: bool)
      requires Valid() && Storable(View(), b)
      modifies this`equivocations, this`slotProducers, this`blocks, this`parents, this`keys, registry
      ensures Valid() && View() == Stored(old(View()), b)
      ensures equivocated == Equivocates(old(View()), b)
    {
      hide Sane, Consistent, RegisterProducer, InsertBlock, Equivocates, Extends;
      StoredSane(View(), b);
      ghost var pubKey := registry.validators[b.validator].pubKey;
      equivocated := RegisterSlotProducer(b);
      InsertNewBlock(b, pubKey);
    }

    method SlashProducer(name: string)
      requires Valid()
      modifies registry`validators
      ensures Valid() && View() == SlashLeader(old(View()), name)
    {
      hide Sane, Consistent, Slash;
      SlashLeaderSane(View(), name);
      registry.SlashValidator(name, SLASH_PENALTY);
    }

    // The write to the store, if there is one, and what follows it.
    method SaveAndAccept(b: Block, io: WriteOutcome) returns (r: Result<string, EngineError>)
      requires Valid() && Storable(View(), b)
      modifies this, registry, blockStore
      ensures Valid()
      ensures Outcome(View(), r) == Engine.SaveAndAccept(c, old(View()), b, io)
    {
      hide Sane, Consistent, Accept, SaveBlock, Storable;
      ghost var start := View();
      SaveSane(start, b, io);
      SaveStorable(start, b, io);
      StorableProducer(start, b);
      if blockStore != null {
        var ok := blockStore.Save(b, io);
        if !ok {
          return Err(NotSaved);
        }
      }
      ghost var saved := View();
      var equivocated := AcceptBlock(b);
      AcceptResult(c, saved, b);
      r := if equivocated then Err(EquivocationDetected) else Ok(b.hash);
    }

    method BuildBlock(parent: Block, base: Result<State, TxError>, leader: string, txs: seq<Transaction>, entropy: nat)
      returns (r: Result<Block, EngineError>)
      requires Valid() && config.epochLength > 0 && HasSnapshot(snapshots, config.epochLength, SlotOf(poh.currentTick))
      modifies this`snapshots
      ensures Valid() && View() == old(View()) && r == Build(c, View(), parent, base, leader, txs, entropy)
    {
      hide Sane, Consistent, SignedDraft, CheckOnAccept, HasSnapshot;
      SlotReady(View());
      r := SignDraft(c, View(), registry.validators, poh.currentTick, poh.hash, parent, base, leader, txs, entropy);
      if r.Err? {
        return;
      }
      var refused := VerifyBlockOnAccept(parent, r.value, base.value);
      if refused.Some? {
        r := Err(Rejected(refused.value));
      }
    }

    // What AddBlock and AddBlockExternal do with a parent, the state there and a
    // body.
    method Produce(parent: Block, base: Result<State, TxError>, leader: string, txs: seq<Transaction>, entropy: nat,
                   io: WriteOutcome)
      returns (r: Result<string, EngineError>)
      requires Valid() && config.epochLength > 0 && HasSnapshot(snapshots, config.epochLength, SlotOf(poh.currentTick))
      requires forall h :: h in blocks ==> blocks[h].tick < poh.currentTick
      requires parent.hash in blocks && blocks[parent.hash] == parent
      requires BuildFresh(c, View(), parent, base, leader, txs, entropy)
      modifies this, registry, blockStore
      ensures Valid() && Outcome(View(), r) == Engine.Produce(c, old(View()), parent, base, leader, txs, entropy, io)
    {
      hide Sane, Consistent, Accept, Build, Engine.SaveAndAccept, SaveBlock, Slash, Storable, HasSnapshot, BuildFresh;
      BuildStorableIf(c, View(), parent, base, leader, txs, entropy);
      var built := BuildBlock(parent, base, leader, txs, entropy);
      if built.Err? {
        if !built.error.ReplayFailed? {
          SlashProducer(leader);
        }
        return Err(built.error);
      }
      r := SaveAndAccept(built.value, io);
    }

    method SelectTxs(producer: string) returns (txs: seq<Transaction>)
      requires Valid()
      modifies mempool, mempool.cells
      ensures Valid() && txs == Popped(old(View()).pool, state, config.maxBlockTxs, producer)
      ensures View() == old(View()).(pool := AfterPop(old(View()).pool, state, config.maxBlockTxs, producer))
    {
      hide Sane, Consistent, Popped, AfterPop;
      ghost var start := View();
      PopKeepsConsistent(c, start.pool, state, config.maxBlockTxs, producer);
      SaneRegistry(start);
      txs := mempool.PopForBlock(state, config.maxBlockTxs, producer);
      SaneFree(start, View());
    }

    // The step is specified as long as the block it builds has a new hash.
    method AddBlock(txs: seq<Transaction>, entropy: nat, io: WriteOutcome) returns (r: Result<string, EngineError>)
      requires Valid() && AddBlockFresh(c, View(), txs, entropy)
      modifies this, registry, poh, mempool, mempool.cells, blockStore
      ensures Valid() && Outcome(View(), r) == Engine.AddBlock(c, old(View()), txs, entropy, io)
    {
      hide Sane, Consistent, Engine.StartSlot, Popped, AfterPop, FeeAddress, LeaderAt, Engine.Produce, BuildFresh,
        AddBlockFresh, HasSnapshot, IsTree, Path;
      ghost var start := View();
      if |registry.validators| == 0 {
        return Err(NoValidators);
      }
      FreshBuild(c, start, txs, entropy);
      SaneTree(start);
      StoredUnderHash(start, canonicalTip);
      StartSlotSane(c, start);
      var prev := blocks[canonicalTip];
      StartSlot();
      SlotReady(View());
      var leader := LeaderForSlot(poh.Slot());
      var producer := RewardAddress(c, registry.validators, leader);
      var body := txs;
      if |body| == 0 {
        body := SelectTxs(producer);
      }
      r := Produce(prev, Ok(state), leader, body, entropy, io);
    }

    method AddBlockExternal(prevHash: string, txs: seq<Transaction>, entropy: nat, io: WriteOutcome)
      returns (r: Result<string, EngineError>)
      requires Valid() && AddBlockExternalFresh(c, View(), prevHash, txs, entropy)
      modifies this, registry, poh, blockStore
      ensures Valid() && Outcome(View(), r) == Engine.AddBlockExternal(c, old(View()), prevHash, txs, entropy, io)
    {
      hide Sane, Consistent, Engine.StartSlot, FeeAddress, LeaderAt, Engine.Produce, BuildFresh,
        AddBlockExternalFresh, HasSnapshot, StateAtTip;
      ghost var start := View();
      if |registry.validators| == 0 {
        return Err(NoValidators);
      }
      if prevHash !in blocks {
        return Err(UnknownParent);
      }
      FreshExternal(c, start, prevHash, txs, entropy);
      StartSlotSane(c, start);
      var parent := blocks[prevHash];
      var parentState := StateAt(prevHash);
      StartSlot();
      SlotReady(View());
      var leader := LeaderForSlot(poh.Slot());
      r := Produce(parent, parentState, leader, txs, entropy, io);
    }

    // ------------------------------------------------------------------- audit

    method CheckHeader(t: Trail, prev: Block, cur: Block) returns (fault: Option<Fault>, hash: Digest)
      ensures fault == AuditHeader(c, t, prev, cur)
      ensures fault.None? ==> CheckPoH(c, t.hash, t.tick, cur) == Some(hash)
    {
      hide HashBlock, Advance, ParsePoHHashHex;
      hash := t.hash;
      if cur.prevHash != prev.hash || cur.slot < prev.slot {
        return Some(BadLink), hash;
      }
      var tick, ok;
      hash, tick, ok := VerifyPoH(c, t.hash, t.tick, cur);
      if !ok {
        return Some(BadPoH), hash;
      }
      if cur.hash != HashBlock(c, cur) {
        return Some(BadHash), hash;
      }
      return None, hash;
    }

    method CheckBody(t: Trail, cur: Block) returns (r: Result<State, Fault>)
      requires Valid() && config.epochLength > 0 && cur.slot / config.epochLength in snapshots
      ensures r == AuditBody(c, View(), t, cur)
    {
      hide Sane, Consistent, LeaderFromSnapshot, CheckTransactions, TxRoot, StateRoot, Apply, FeeAddress,
        BlockSignatureOk;
      var leader := PickLeader(c, cur.slot, snapshots[cur.slot / config.epochLength].validators);
      if leader != cur.validator {
        return Err(NotTheLeader);
      }
      if cur.slot in t.seen && t.seen[cur.slot] != "" {
        return Err(DoubleProduce);
      }
      if cur.validator !in registry.validators || registry.validators[cur.validator].stake < MIN_STAKE {
        return Err(UnknownValidator);
      }
      if !BlockSignatureOk(c, cur, registry.validators[cur.validator].pubKey) {
        return Err(Fault.BadSignature);
      }
      var bad := VerifyTransactions(c, cur.txs);
      if bad.Some? {
        return Err(BadTransactions);
      }
      var txRoot := ComputeTxRoot(c, cur.txs);
      if txRoot != cur.txRoot {
        return Err(BadTxRoot);
      }
      var producer := RewardAddress(c, registry.validators, cur.validator);
      var next := ApplyTransactions(t.state, cur.txs, producer);
      if next.Err? {
        return Err(BadTransition);
      }
      var stateRoot := ComputeStateRoot(c, next.value);
      if stateRoot != cur.stateRoot {
        return Err(BadStateRoot);
      }
      return Ok(next.value);
    }

    method VerifyChain() returns (e: Option<AuditError>)
      requires Valid()
      modifies this`snapshots, registry`validators
      ensures Valid() && Report(View(), e) == Audit(c, old(View()), chain)
    {
      hide Sane, Consistent, HashBlock, AuditHeader, AuditBody, CheckPoH, Advance, Engine.EnsureSnapshot,
        ParsePoHHashHex, SlashLeader;
      ghost var start := View();
      SaneEpoch(start);
      if |chain| == 0 {
        return Some(AuditError(EmptyChain, 0));
      }
      if chain[0].hash != HashBlock(c, chain[0]) {
        return Some(AuditError(BadGenesisHash, 0));
      }
      var seed := ParsePoHHashHex(chain[0].pohHash);
      if seed.None? {
        return Some(AuditError(BadGenesisPoH, 0));
      }
      var t := Trail(seed.value, chain[0].tick, map[], genesis);
      for i := 1 to |chain|
        invariant Valid() && chain == old(chain)
        invariant Audit(c, start, chain) == AuditFrom(c, View(), chain, i, t)
      {
        var cur := chain[i];
        var fault, hash := CheckHeader(t, chain[i - 1], cur);
        if fault.Some? {
          SlashProducer(cur.validator);
          return Some(AuditError(fault.value, i));
        }
        SaneRegistry(View());
        EnsureSnapshotHas(View(), cur.slot / config.epochLength);
        EnsureSnapshot(cur.slot / config.epochLength);
        var next := CheckBody(t, cur);
        if next.Err? {
          SlashProducer(cur.validator);
          return Some(AuditError(next.error, i));
        }
        t := Trail(hash, cur.tick, t.seen[cur.slot := cur.validator], next.value);
      }
      return None;
    }

    // ------------------------------------------------------------------- forks

    // The recursion stops at weights that the memo holds; whatever leaf filled
    // it, they are the weights that scoreTip computes. The first walk to genesis
    // asks for the genesis epoch's snapshot.
    method CumulativeWeightCached(hash: string, cache: WeightCache, ghost scored: Node) returns (weight: nat)
      requires Valid()
      requires Sane(scored) && scored == Engine.EnsureSnapshot(View(), 0) && CacheRight(scored, cache.weights)
      requires cache.weights != map[] ==> View() == scored
      modifies this`snapshots, cache
      ensures Valid() && CacheRight(scored, cache.weights)
      ensures hash in blocks ==> View() == scored && weight == Score(scored, hash).weight
      ensures hash !in blocks ==> View() == old(View()) && weight == 0
      decreases if hash in blocks then blocks[hash].index + 1 else 0
    {
      hide Sane, Consistent, Score, StakeIn, Engine.EnsureSnapshot, CacheRight;
      if hash in cache.weights {
        CacheHit(scored, cache.weights, hash);
        return cache.weights[hash];
      }
      ScoringFrame(View());
      if hash !in blocks {
        return 0;
      }
      var block := blocks[hash];
      if block.prevHash != GENESIS_PARENT {
        StakeCovered(View(), hash);
        weight := SnapshotStake(block.slot, block.validator);
        WeightOfChild(scored, hash);
        var above := CumulativeWeightCached(block.prevHash, cache, scored);
        weight := weight + above;
      } else {
        WeightOfRoot(scored, hash);
        GenesisSlot(View());
        weight := SnapshotStake(block.slot, block.validator);
      }
      CacheNext(scored, cache.weights, hash, weight);
      cache.weights := cache.weights[hash := weight];
    }

    // One entry of the list, with scoreTipCached.
    method ScoreCandidate(hash: string, cache: WeightCache, ghost scored: Node) returns (f: ForkCandidate)
      requires Valid() && hash in blocks
      requires Sane(scored) && scored == Engine.EnsureSnapshot(View(), 0) && CacheRight(scored, cache.weights)
      requires cache.weights != map[] ==> View() == scored
      modifies this`snapshots, cache
      ensures Valid() && View() == scored && CacheRight(scored, cache.weights)
      ensures f.hash == hash && CandidateRight(scored, f)
    {
      hide Sane, Consistent, CacheRight;
      ghost var start := View();
      ScoringFrame(start);
      var weight := CumulativeWeightCached(hash, cache, scored);
      f := ForkCandidate(hash, blocks[hash].slot, weight, blocks[hash].prevHash);
    }

    method GetForkCandidates() returns (out: seq<ForkCandidate>)
      requires Valid()
      modifies this`snapshots
      ensures Valid() && View() == Engine.EnsureSnapshot(old(View()), 0) && Ranked(View(), out)
    {
      hide Sane, Consistent, Score, Engine.EnsureSnapshot, IsLeaf, CacheRight, CandidateRight, Gathered;
      ghost var start := View();
      ghost var scored := Engine.EnsureSnapshot(start, 0);
      ScoredOnce(start);
      ScoringFrame(start);
      var hasChild := ParentsNamed(parents);
      var cache := new WeightCache();
      var candidates: seq<ForkCandidate> := [];
      var todo := blocks.Keys;
      NothingYet(scored);
      assert start.blocks.Keys - todo == {};
      while todo != {}
        invariant Valid() && todo <= start.blocks.Keys
        invariant View() == scored || (View() == start && cache.weights == map[] && candidates == [])
        invariant CacheRight(scored, cache.weights)
        invariant Gathered(scored, start.blocks.Keys - todo, candidates)
        decreases todo
      {
        var hash :| hash in todo;
        LeafIsNoParent(start, hasChild, hash);
        if hash == "" || hash in hasChild {
          GatheredOther(scored, start.blocks.Keys - todo, candidates, hash);
        } else {
          var f := ScoreCandidate(hash, cache, scored);
          GatheredLeaf(scored, start.blocks.Keys - todo, candidates, f);
          candidates := candidates + [f];
        }
        assert start.blocks.Keys - (todo - {hash}) == (start.blocks.Keys - todo) + {hash};
        todo := todo - {hash};
      }
      GatheredDistinct(scored, start.blocks.Keys - todo, candidates);
      out := SortCandidates(candidates);
      assert start.blocks.Keys - todo == start.blocks.Keys;
      SomeCandidate(scored, candidates);
      SortedRanked(scored, candidates, out);
    }

    // ---------------------------------------------------------------- recovery

    // SetStorage, and then every new block is saved.
    method SetStorage(store: FileBlockStore)
      requires Valid()
      modifies this`blockStore
      ensures Valid() && blockStore == store && View() == old(View()).(store := Some(store.View()))
    {
      hide Sane, Consistent;
      ghost var start := View();
      SaneRegistry(start);
      blockStore := store;
      SaneFree(start, View());
    }

    method InsertAll(range: seq<Block>)
      modifies this`blocks, this`parents
      ensures blocks == BlocksOf(range) && parents == ParentsOf(blocks)
    {
      blocks, parents := map[], map[];
      for i := 0 to |range|
        invariant blocks == BlocksOf(range[..i]) && parents == ParentsOf(blocks)
      {
        assert range[..i + 1][..i] == range[..i];
        blocks := blocks[range[i].hash := range[i]];
        parents := parents[range[i].hash := range[i].prevHash];
      }
      assert range[..|range|] == range;
    }

    // A store without a tip gets the genesis block; one that misses a height
    // below its tip is refused; from any other the object is rebuilt. The store
    // may be the attached one.
    method RestoreFromStorage(store: FileBlockStore, io: WriteOutcome) returns (ok: bool)
      requires mempool.Valid() && Stacked(store.View())
      modifies this`blocks, this`parents, this`canonicalTip, this`chain, this`slotProduced, this`state,
        this`finalizedSlot, store
      ensures blockStore == old(blockStore)
      ensures ok == !Gap(old(store.View()))
      ensures GetTip(old(store.View())).None? ==>
        && store.View() == (if chain == [] then old(store.View()) else SaveBlock(old(store.View()), chain[0], io))
        && View() == old(View()).(store := if blockStore == store then Some(store.View()) else old(View()).store)
      ensures GetTip(old(store.View())).Some? ==>
        && store.View() == old(store.View())
        && View() == if ok then Restored(c, old(View()), RangeOf(store.View())) else old(View())
    {
      hide Restored, SaveBlock, Layered, Stacked, RangeOf;
      var tip := store.Tip();
      if tip.None? {
        if |chain| > 0 {
          var saved := store.Save(chain[0], io);
        }
        return true;
      }
      var range := store.GetRange(0, tip.value.index);
      if range.None? {
        return false;
      }
      RangeRead(store.View(), range.value);
      Rebuild(range.value);
      ok := true;
    }

    // Replaces the tree by the blocks of a range, and all that is derived from
    // it.
    method Rebuild(p: seq<Block>)
      requires mempool.Valid() && p != [] && Layered(p)
      modifies this`blocks, this`parents, this`canonicalTip, this`chain, this`slotProduced, this`state,
        this`finalizedSlot
      ensures View() == Restored(c, old(View()), p)
    {
      hide Replay, SlotMap, Finality, KeysOf, BlocksOf, ParentsOf, Layered, TipSlot, LinkedFrom;
      ghost var start := View();
      ReplaceTree(p);
      assert View() == start.(blocks := BlocksOf(p), parents := ParentsOf(BlocksOf(p)), tip := p[|p| - 1].hash,
        chain := p[LinkedFrom(p)..]);
      RebuildCaches();
    }

    method ReplaceTree(p: seq<Block>)
      requires p != [] && Layered(p)
      modifies this`blocks, this`parents, this`canonicalTip, this`chain
      ensures blocks == BlocksOf(p) && parents == ParentsOf(blocks)
      ensures canonicalTip == p[|p| - 1].hash && chain == p[LinkedFrom(p)..]
    {
      hide BlocksOf, ParentsOf, Layered, LinkedFrom;
      InsertAll(p);
      canonicalTip := p[|p| - 1].hash;
      chain := WalkBack(blocks, p, canonicalTip);
    }
  }

  // Whether updateCanonical moves the tip: its guards, once scoring has asked
  // for the genesis epoch's snapshot.
  ghost predicate WouldAdopt(n: Node, h: string)
    requires Sane(n) && h in n.blocks
  {
    EnsureSnapshotSane(n, 0);
    Adopts(Engine.EnsureSnapshot(n, 0), h)
  }

  // app.NewNode with a data directory: the new engine is given its store and
  // restored from it. On an empty directory that is the start of the runs that
  // Restarts is about.
  method StartNode(c: Primitives, cfg: Config, seed: Digest, store: FileBlockStore, io: WriteOutcome)
    returns (node: Blockchain, ok: bool)
    requires Stacked(store.View())
    modifies store
    ensures fresh(node) && node.blockStore == store && node.mempool.Valid()
    ensures ok == !Gap(old(store.View()))
    ensures GetTip(old(store.View())).None? ==>
      && node.View() == NewNode(c, cfg, seed, Some(SaveBlock(old(store.View()), GenesisBlock(c, seed), io)))
      && (old(store.View()) == EMPTY_STORE && !io.BlockNotWritten? ==> FreshWithStore(c, node.View()))
    ensures GetTip(old(store.View())).Some? ==>
      && store.View() == old(store.View())
      && var r := NewNode(c, cfg, seed, Some(store.View()));
         node.View() == if ok then Restored(c, r, RangeOf(store.View())) else r
  {
    hide Sane, Consistent, Restored, SaveBlock, GenesisBlock, Stacked, Gap, RangeOf;
    node := new Blockchain(c, cfg, seed);
    node.SetStorage(store);
    ok := node.RestoreFromStorage(store, io);
    if old(store.View()) == EMPTY_STORE && !io.BlockNotWritten? {
      FirstSave(c, cfg, seed, io);
    }
  }

  lemma FirstSave(c: Primitives, cfg: Config, seed: Digest, io: WriteOutcome)
    requires !io.BlockNotWritten?
    ensures FreshWithStore(c, NewNode(c, cfg, seed, Some(SaveBlock(EMPTY_STORE, GenesisBlock(c, seed), io))))
  {
    hide NewNode, GenesisBlock;
    var g := GenesisBlock(c, seed);
    assert SaveBlock(EMPTY_STORE, g, io) == SaveBlock(EMPTY_STORE, g, BothWritten);
  }

  // What GetRange gave is the range.
  lemma RangeRead(s: Store, range: seq<Block>)
    requires Stacked(s) && GetTip(s).Some? && !Gap(s) && |range| == GetTip(s).value.index + 1
    requires forall i :: 0 <= i < |range| ==> AtHeight(s, 0 + i) == Some(range[i])
    ensures range == RangeOf(s) && range != [] && Layered(range)
  {
    hide RangeOf, Gap, Stacked, GetTip, Layered;
    RangeLayered(s);
    var p := RangeOf(s);
    forall i | 0 <= i < |p| ensures range[i] == p[i] {
      assert AtHeight(s, 0 + i) == Some(range[i]);
    }
  }

  lemma ScoringFrame(n: Node)
    ensures Engine.EnsureSnapshot(n, 0) == n.(snapshots := Engine.EnsureSnapshot(n, 0).snapshots)
    ensures 0 in Engine.EnsureSnapshot(n, 0).snapshots
    ensures 0 in n.snapshots ==> Engine.EnsureSnapshot(n, 0) == n
  {
    hide TakeSnapshot;
  }

  // The epoch of the current slot has its snapshot: asking again adds nothing.
  lemma SlotReady(n: Node)
    requires Sane(n)
    ensures n.cfg.epochLength > 0
    ensures HasSnapshot(n.snapshots, n.cfg.epochLength, SlotOf(n.poh.tick)) ==>
      Engine.EnsureSnapshot(n, SlotOf(n.poh.tick) / n.cfg.epochLength) == n
  {
    hide Sane, TakeSnapshot;
    SaneTree(n);
  }

  lemma AcceptResult(c: Primitives, n: Node, b: Block)
    requires Storable(n, b)
    ensures Accept(c, n, b).result == if Equivocates(n, b) then Err(EquivocationDetected) else Ok(b.hash)
  {
    hide Storable, Rewarded, ProcessMissed, Equivocates;
  }

  lemma BuildStorableIf(c: Primitives, n: Node, parent: Block, base: Result<State, TxError>, leader: string,
                        txs: seq<Transaction>, entropy: nat)
    requires Sane(n) && forall h :: h in n.blocks ==> n.blocks[h].tick < n.poh.tick
    requires parent.hash in n.blocks && n.blocks[parent.hash] == parent
    requires BuildFresh(c, n, parent, base, leader, txs, entropy)
    ensures n.cfg.epochLength > 0
    ensures Build(c, n, parent, base, leader, txs, entropy).Ok? ==>
      Storable(n, Build(c, n, parent, base, leader, txs, entropy).value)
  {
    hide Sane, Build, BuildFresh, Storable;
    SaneTree(n);
    if Build(c, n, parent, base, leader, txs, entropy).Ok? {
      BuildStorable(c, n, parent, base, leader, txs, entropy);
    }
  }

  lemma GoodStart(c: Primitives, n: Node)
    requires Good(c, n)
    ensures Sane(n) && Consistent(c, n.pool)
  {
  }

  // The slot of a stored block after genesis has its snapshot, and the one that
  // scoring adds does not change its stake.
  lemma StakeCovered(n: Node, h: string)
    requires Sane(n) && h in n.blocks && n.blocks[h].prevHash != GENESIS_PARENT
    ensures n.cfg.epochLength > 0 && n.blocks[h].slot / n.cfg.epochLength in n.snapshots
    ensures Engine.EnsureSnapshot(n, n.blocks[h].slot / n.cfg.epochLength) == n
    ensures StakeIn(Engine.EnsureSnapshot(n, 0).snapshots, n.cfg.epochLength, n.blocks[h].slot, n.blocks[h].validator)
         == StakeIn(n.snapshots, n.cfg.epochLength, n.blocks[h].slot, n.blocks[h].validator)
  {
    hide Path, Registry, TakeSnapshot;
    var b := n.blocks[h];
    assert Extends(n.blocks, b);
    assert b.slot >= 1;
    SlotPassed(b.tick, b.slot, n.poh.tick);
    assert HasSnapshot(n.snapshots, n.cfg.epochLength, b.slot);
  }

  lemma SlotPassed(tick: nat, slot: nat, now: nat)
    requires tick == slot * TICKS_PER_SLOT && tick <= now
    ensures slot <= SlotOf(now)
  {
  }

  // Scoring a second time changes nothing.
  lemma ScoredOnce(n: Node)
    requires Sane(n)
    ensures var scored := Engine.EnsureSnapshot(n, 0);
      && Sane(scored) && Engine.EnsureSnapshot(scored, 0) == scored && scored.tip in scored.blocks
      && scored.chain != [] && IsTree(scored.blocks, scored.chain[0])
  {
    hide Sane, TakeSnapshot, IsTree, Path;
    SaneTree(n);
    EnsureSnapshotSane(n, 0);
  }

  lemma TipScored(n: Node)
    requires Sane(n)
    ensures var scored := Engine.EnsureSnapshot(n, 0);
      scored.cfg.epochLength > 0
        && Engine.EnsureSnapshot(scored, TipSlot(scored.chain) / scored.cfg.epochLength) == scored
  {
    hide Sane, TakeSnapshot;
    EnsureSnapshotSane(n, 0);
    SaneTree(n);
    TipCovered(Engine.EnsureSnapshot(n, 0));
  }

  lemma GenesisSlot(n: Node)
    requires Sane(n)
    ensures n.chain[0].slot == 0 && n.blocks[n.chain[0].hash] == n.chain[0]
    ensures n.cfg.epochLength > 0 && 0 / n.cfg.epochLength == 0
  {
    hide Path, Registry, Covered, Clocked;
  }
}
