// A new engine with one validator that can sign: each slot is its own, each of
// its blocks is adopted. The concrete runs that show what the hypotheses are for
// start here.
module Solo {
  import opened Domain
  import opened Crypto
  import opened Poh
  import opened Ledger
  import opened Stake
  import opened Sums
  import opened Storage
  import opened Tree
  import opened Engine
  import opened Invariant
  import opened ForkChoice
  import opened Misses
  import opened Steps
  import opened Production
  import opened Runs
  import opened Theorems
  import opened Liveness
  import opened Upkeep
  import opened Restarts
  import opened Adoptions

  // The only validator, with its key; the tip is in the current slot, and there is
  // no weight rule.
  ghost predicate Alone(c: Primitives, n: Node, name: string, k: PrivateKey, slot: nat) {
    && Good(c, n) && Sane(n)
    && n.validators.Keys == {name} && n.validators[name].privKey == Some(k)
      && n.validators[name].pubKey == c.publicKey(k)
    && n.cfg.epochLength > slot && n.cfg.maxReorgDepth >= 0 && n.cfg.minReorgWeightDeltaP <= 0
    && SlotOf(n.poh.tick) == slot && TipSlot(n.chain) == slot
    && if slot == 0 then n.snapshots == map[] && !IsJailed(n.stats, name, 0) && n.validators[name].stake <= MAX_UINT64
       else 0 in n.snapshots && OnlyOne(n.snapshots[0].validators, name)
  }

  ghost predicate OnlyOne(stakes: map<string, nat>, name: string) {
    stakes.Keys == {name} && 0 < stakes[name] <= MAX_UINT64
  }

  function Joining(c: Primitives, name: string, stake: int, k: PrivateKey): Event {
    ValidatorAdded(name, stake, c.publicKey(k), Some(k))
  }

  // The first call.
  lemma Joins(c: Primitives, cfg: Config, seed: Digest, store: Option<Store>, name: string, stake: int,
              k: PrivateKey, n: Node)
    requires name != "" && MIN_STAKE <= stake <= MAX_UINT64 && c.publicKey(k) != ""
    requires Defaulted(cfg).epochLength > 0 && cfg.maxReorgDepth >= 0 && cfg.minReorgWeightDeltaP <= 0
    requires Step(c, NewNode(c, cfg, seed, store), Joining(c, name, stake, k), n)
    ensures Alone(c, n, name, k, 0) && n.validators[name].stake == stake && n.cfg == Defaulted(cfg)
    ensures n.keys == map[] && n.state == map[] && n.genesis == map[] && |n.chain| == 1 && |n.blocks| == 1
  {
    hide Good, Sane, StepOk, GenesisBlock;
    NewNodeGood(c, cfg, seed, store);
    GoodSane(c, NewNode(c, cfg, seed, store));
    StepKeeps(c, NewNode(c, cfg, seed, store), Joining(c, name, stake, k), n);
    StepOkGood(c, NewNode(c, cfg, seed, store), n);
    JoinsFields(c, cfg, seed, store, name, stake, k);
  }

  lemma JoinsFields(c: Primitives, cfg: Config, seed: Digest, store: Option<Store>, name: string, stake: int,
                    k: PrivateKey)
    requires name != "" && stake >= MIN_STAKE && c.publicKey(k) != ""
    ensures var n := AddValidator(NewNode(c, cfg, seed, store), name, stake, c.publicKey(k), Some(k));
      && n.validators == map[name := Validator(name, stake, c.publicKey(k), Some(k))]
      && !IsJailed(n.stats, name, 0) && SlotOf(n.poh.tick) == 0 && TipSlot(n.chain) == 0
  {
    hide HashBlock, Defaulted, TxRoot, StateRoot;
  }

  lemma AloneSane(c: Primitives, n: Node, name: string, k: PrivateKey, slot: nat)
    requires Alone(c, n, name, k, slot)
    ensures Good(c, n) && Sane(n) && name in n.validators && n.validators.Keys == {name}
  {
    hide Good, Sane;
  }

  lemma AloneEpochs(c: Primitives, n: Node, name: string, k: PrivateKey, slot: nat)
    requires Alone(c, n, name, k, slot)
    ensures n.cfg.epochLength > 0
  {
    hide Good, Sane;
  }

  // A key that can sign is a key.
  lemma KeyNamed(c: Primitives, k: PrivateKey, entropy: nat)
    requires SignatureContract(c) && forall d :: c.sign(k, d, entropy).Some?
    ensures c.publicKey(k) != "" && PublicKeyOk(c, c.publicKey(k))
  {
    assert c.sign(k, "", entropy).Some?;
  }

  lemma LeadsAlone(c: Primitives, snaps: Snapshots, epochLength: nat, slot: nat, name: string)
    requires slot < epochLength && 0 in snaps && OnlyOne(snaps[0].validators, name)
    ensures LeaderAt(c, snaps, epochLength, slot) == name
  {
    hide LeaderFromSnapshot;
    var stakes := snaps[0].validators;
    var none: map<string, nat> := map[];
    SumUpdate(none, name, stakes[name]);
    assert none[name := stakes[name]] == stakes;
    LeaderHasStake(c, slot, stakes);
    assert slot / epochLength == 0;
  }

  lemma StartSlotCfg(c: Primitives, n: Node)
    requires n.cfg.epochLength > 0
    ensures StartSlot(c, n) == n.(poh := StartSlot(c, n).poh, snapshots := StartSlot(c, n).snapshots)
    ensures StartSlot(c, n).poh.tick == n.poh.tick + TICKS_PER_SLOT
    ensures SlotOf(StartSlot(c, n).poh.tick) == SlotOf(n.poh.tick) + 1
  {
    hide EnsureSnapshot, Advance;
    assert (n.poh.tick + TICKS_PER_SLOT) / TICKS_PER_SLOT == n.poh.tick / TICKS_PER_SLOT + 1;
  }

  lemma FirstSnapshot(c: Primitives, n: Node, name: string, k: PrivateKey, slot: nat)
    requires Alone(c, n, name, k, slot) && slot + 1 < n.cfg.epochLength
    ensures 0 in StartSlot(c, n).snapshots && OnlyOne(StartSlot(c, n).snapshots[0].validators, name)
  {
    hide Good, Sane, StartSlot, TakeSnapshot;
    StartSlotCfg(c, n);
    AskedEpoch(c, n);
    SaneRegistry(n);
    assert (slot + 1) / n.cfg.epochLength == 0;
    if slot == 0 {
      TakeSnapshotGood(n.validators, n.stats, 0, n.cfg.epochLength);
      TakenStakes(n.validators, n.stats, 0, n.cfg.epochLength);
      assert TakeSnapshot(n.validators, n.stats, 0, n.cfg.epochLength).validators.Keys == {name};
    }
  }

  lemma AskedEpoch(c: Primitives, n: Node)
    requires n.cfg.epochLength > 0
    ensures var e := SlotOf(n.poh.tick + TICKS_PER_SLOT) / n.cfg.epochLength;
      StartSlot(c, n).snapshots == if e in n.snapshots then n.snapshots
        else n.snapshots[e := TakeSnapshot(n.validators, n.stats, e, n.cfg.epochLength)]
  {
    hide TakeSnapshot, Advance;
  }

  lemma AloneLeads(c: Primitives, n: Node, name: string, k: PrivateKey, slot: nat)
    requires Alone(c, n, name, k, slot) && slot + 1 < n.cfg.epochLength
    ensures CurrentLeader(c, StartSlot(c, n)) == name
  {
    hide Good, Sane, StartSlot, LeaderAt;
    FirstSnapshot(c, n, name, k, slot);
    StartSlotCfg(c, n);
    LeadsAlone(c, StartSlot(c, n).snapshots, n.cfg.epochLength, slot + 1, name);
  }

  // --------------------------------------------------------------- its next block

  lemma {:induction false} ChargesAtMost(js: seq<Judgement>, v: string)
    ensures Charges(js, v) <= |js|
  {
    if js != [] {
      ChargesAtMost(js[..|js| - 1], v);
    }
  }

  // Within the first slots nobody can have been charged so often that one more
  // miss costs stake.
  lemma FewMisses(c: Primitives, n: Node, v: string)
    requires Accounts(c, n) && n.lastProcessed < MAX_MISSED_SLOTS
    ensures StatsOf(n.stats, v).missedSlots < MAX_MISSED_SLOTS
  {
    hide Charges, MissSlashes, JailTerm, JudgedLeaders, StatsOf;
    ChargesAtMost(n.judged, v);
    assert Charges(n.judged, v) == (MAX_MISSED_SLOTS + 1) * MissSlashes(n.judged, v) + StatsOf(n.stats, v).missedSlots;
  }

  lemma FewMissesAreFree(c: Primitives, n: Node, target: nat)
    requires n.cfg.epochLength > 0 && target <= n.lastProcessed + 1
    requires forall v :: StatsOf(n.stats, v).missedSlots < MAX_MISSED_SLOTS
    ensures var m := ProcessMissed(c, n, target); m.validators == n.validators && m.keys == n.keys
  {
    hide LeaderAt, TakeSnapshot;
    if target > n.lastProcessed {
      var n1 := EnsureSnapshot(n, target / n.cfg.epochLength);
      assert JudgeUpTo(c, n, target - 1) == n;
      assert !VerdictAt(c, n1, target).slashed;
    }
  }

  lemma EarlyBlockRegistry(c: Primitives, n: Node, b: Block)
    requires Good(c, n) && Sane(n) && Admissible(c, n, b) && Storable(n, b)
    requires n.lastProcessed < MAX_MISSED_SLOTS && SlotOf(n.poh.tick) == n.lastProcessed + 1
    ensures b.validator in n.validators
    ensures var m := Accept(c, n, b).node;
      m.validators == Reward(n.validators, b.validator)
        && m.keys == n.keys[b.validator := n.validators[b.validator].pubKey]
  {
    hide Sane, Inv, Accounts, Admissible, Storable, Rewarded, ProcessMissed, Equivocates, Advances, MovesTip,
      DrawnFrom, StatsOf, Reward;
    StorableProducer(n, b);
    RewardedKeeps(c, n, b);
    RewardedRegistry(c, n, b);
    var m := Rewarded(c, n, b);
    TipClocked(c, m);
    forall v ensures StatsOf(m.stats, v).missedSlots < MAX_MISSED_SLOTS {
      FewMisses(c, n, v);
    }
    FewMissesAreFree(c, m, TipSlot(m.chain));
  }

  // What AddBlock gives when it succeeds for the validator that is alone.
  ghost predicate Extended(c: Primitives, n: Node, m: Node, name: string, txs: seq<Transaction>) {
    && n.cfg.epochLength > 0 && m.validators == Reward(n.validators, name)
    && name in n.validators && m.keys == n.keys[name := n.validators[name].pubKey]
    && |m.chain| == |n.chain| + 1 && m.chain[..|n.chain|] == n.chain
    && m.chain[|n.chain|].txs == txs && m.chain[|n.chain|].validator == name
    && StateStep(c, n, m) && m.poh == StartSlot(c, n).poh && TipSlot(m.chain) == SlotOf(m.poh.tick)
  }

  lemma TakenExtends(c: Primitives, n: Node, saved: Node, b: Block, name: string, k: PrivateKey)
    requires Alone(c, n, name, k, n.lastProcessed) && b.validator == name && n.lastProcessed < MAX_MISSED_SLOTS
    requires Good(c, saved) && Sane(saved) && Admissible(c, saved, b) && Storable(saved, b)
    requires saved == n.(poh := StartSlot(c, n).poh, snapshots := saved.snapshots, pool := saved.pool,
      store := saved.store)
    requires b.prevHash == n.tip && Accept(c, saved, b).node.tip != n.tip
    ensures Extended(c, n, Accept(c, saved, b).node, name, b.txs)
  {
    hide Good, Admissible, Storable, Accept, StartSlot, Reward, Replay, KeysOf, Registry, Covered, Clocked, Path,
      IsTree;
    StartSlotCfg(c, n);
    InCurrentSlot(c, saved, b);
    EarlyBlockRegistry(c, saved, b);
    AcceptChain(c, saved, b);
    AcceptState(c, saved, b);
  }

  lemma InCurrentSlot(c: Primitives, n: Node, b: Block)
    requires Sane(n) && Admissible(c, n, b)
    ensures b.slot == SlotOf(n.poh.tick)
  {
    hide Sane, Led, HashBlock, Extends;
  }

  // Its block is built, saved and taken in.
  lemma AloneAccepts(c: Primitives, n: Node, name: string, k: PrivateKey, slot: nat, txs: seq<Transaction>,
                     entropy: nat)
    requires Alone(c, n, name, k, slot) && slot < MAX_MISSED_SLOTS && slot + 1 < n.cfg.epochLength
    requires AddBlockFresh(c, n, txs, entropy)
    requires var o := AddBlock(c, n, txs, entropy, BothWritten); o.result.Ok? && o.node.tip != n.tip
    ensures Extended(c, n, AddBlock(c, n, txs, entropy, BothWritten).node, name, Body(c, StartSlot(c, n), txs))
  {
    hide Good, Sane, StartSlot, TakeBody, Body, AddBlockFresh, BuildFresh, LeaderAt, HasSnapshot, DrawnFrom, Produce,
      Path, IsTree, Admissible, Storable, Accept, Build, Save, Extended, TipSlot;
    AloneLeads(c, n, name, k, slot);
    TipStart(c, n, txs);
    FreshBuild(c, n, txs, entropy);
    var n1 := StartSlot(c, n);
    StartSlotCfg(c, n);
    var n2 := TakeBody(c, n1, txs);
    var parent, body := n.blocks[n.tip], Body(c, n1, txs);
    assert |n.validators| != 0 by { assert name in n.validators; }
    ProduceAccepts(c, n2, parent, Ok(n.state), name, body, entropy, BothWritten);
    var b := Build(c, n2, parent, Ok(n.state), name, body, entropy).value;
    var saved := Save(n2, b, BothWritten);
    BuiltHeader(c, n2, parent, Ok(n.state), name, body, entropy);
    SavedGood(c, n2, b, BothWritten);
    SavedAdmissible(c, n2, saved, b);
    AloneSettled(c, n, name, k, slot);
    LedByName(c, saved, b, name);
    TakenExtends(c, n, saved, b, name, k);
  }

  lemma AloneSettled(c: Primitives, n: Node, name: string, k: PrivateKey, slot: nat)
    requires Alone(c, n, name, k, slot)
    ensures n.lastProcessed == slot
  {
    hide Inv, Sane, Accounts;
  }

  lemma LedByName(c: Primitives, n: Node, b: Block, name: string)
    requires Sane(n) && Admissible(c, n, b) && n.cfg.epochLength > 0
    requires LeaderAt(c, n.snapshots, n.cfg.epochLength, SlotOf(n.poh.tick)) == name
    ensures b.validator == name
  {
    hide Sane, LeaderAt, HashBlock, Extends;
  }

  // Every block of the validator that is alone becomes the tip, and it stays
  // alone.
  lemma AloneBlock(c: Primitives, n: Node, name: string, k: PrivateKey, slot: nat, txs: seq<Transaction>,
                   entropy: nat, m: Node)
    requires SignatureContract(c) && forall d :: c.sign(k, d, entropy).Some?
    requires Alone(c, n, name, k, slot) && slot < MAX_MISSED_SLOTS && slot + 1 < n.cfg.epochLength
    requires Step(c, n, BlockAdded(txs, entropy, BothWritten), m)
    requires txs != [] ==>
      && CheckTransactions(c, txs).None?
      && Apply(n.state, txs, FeeAddress(c, KeysOf(n.validators), name)).Ok?
    ensures StepOk(c, n, m) && Alone(c, m, name, k, slot + 1) && Extended(c, n, m, name, Body(c, StartSlot(c, n), txs))
  {
    hide SignatureContract, Good, Sane, CollisionFree, AddBlockFresh, AddBlock, StepOk, StartSlot, Extended, LeaderAt,
      Apply, CheckTransactions, Body, FeeAddress;
    AloneLeads(c, n, name, k, slot);
    AddBlockKeeps(c, n, txs, entropy, BothWritten);
    HonestAddBlockSucceeds(c, n, txs, entropy, BothWritten);
    AddBlockAdoption(c, n, txs, entropy, BothWritten);
    StepOkGood(c, n, m);
    SaneTree(n);
    StartSlotCfg(c, n);
    AloneAccepts(c, n, name, k, slot, txs, entropy);
    FirstSnapshot(c, n, name, k, slot);
    StartFreezes(c, n, txs, entropy);
    StaysAlone(c, n, m, name, k, slot, Body(c, StartSlot(c, n), txs));
  }

  // The snapshots that the slot started with are kept.
  lemma StartFreezes(c: Primitives, n: Node, txs: seq<Transaction>, entropy: nat)
    requires Good(c, n) && Sane(n) && CollisionFree(c, n, BlockAdded(txs, entropy, BothWritten)) && |n.validators| != 0
    ensures AddBlockFresh(c, n, txs, entropy)
    ensures Frozen(StartSlot(c, n).snapshots, AddBlock(c, n, txs, entropy, BothWritten).node.snapshots)
  {
    hide Inv, Good, Sane, StartSlot, BuildCollisionFree, BuildFresh, Produce, StepOk, TakeBody, Body, LeaderAt, Path,
      IsTree, HasSnapshot, DrawnFrom, Frozen;
    SaneTree(n);
    TipStart(c, n, txs);
    var n1 := StartSlot(c, n);
    var n2 := TakeBody(c, n1, txs);
    GoodTree(c, n2);
    BuildIsFresh(c, n2, n.blocks[n.tip], Ok(n.state), CurrentLeader(c, n1), Body(c, n1, txs), entropy);
    ProduceKeeps(c, n2, n.blocks[n.tip], Ok(n.state), CurrentLeader(c, n1), Body(c, n1, txs), entropy, BothWritten);
    StepFreezes(c, n2, AddBlock(c, n, txs, entropy, BothWritten).node);
  }

  lemma StepFreezes(c: Primitives, n: Node, m: Node)
    requires StepOk(c, n, m)
    ensures Frozen(n.snapshots, m.snapshots) && m.cfg == n.cfg
  {
    hide Good, Sane, MovesTip, JudgesJustly, DrawnFrom, KeepsFinal;
  }

  lemma StaysAlone(c: Primitives, n: Node, m: Node, name: string, k: PrivateKey, slot: nat, txs: seq<Transaction>)
    requires Alone(c, n, name, k, slot) && slot + 1 < n.cfg.epochLength && StepOk(c, n, m)
    requires Extended(c, n, m, name, txs)
    requires 0 in StartSlot(c, n).snapshots && OnlyOne(StartSlot(c, n).snapshots[0].validators, name)
    requires Frozen(StartSlot(c, n).snapshots, m.snapshots)
    ensures Alone(c, m, name, k, slot + 1)
  {
    hide Sane, Inv, Accounts, StartSlot, MovesTip, JudgesJustly, DrawnFrom, KeepsFinal, StateStep, TipSlot;
    StartSlotCfg(c, n);
  }

  lemma AloneKeys(c: Primitives, n: Node, m: Node, name: string, k: PrivateKey, slot: nat, txs: seq<Transaction>)
    requires Alone(c, n, name, k, slot) && Extended(c, n, m, name, txs)
    ensures KeysOf(m.validators) == KeysOf(n.validators) && m.keys == n.keys[name := c.publicKey(k)]
  {
    hide Good, Sane, StateStep, StartSlot, TipSlot;
  }

  lemma BodyGiven(c: Primitives, n: Node, txs: seq<Transaction>)
    requires n.cfg.epochLength > 0 && txs != []
    ensures Body(c, n, txs) == txs
  {
    hide LeaderAt, FeeAddress;
  }

  // The body of an empty call on an empty pool is empty.
  lemma NothingPooled(c: Primitives, n: Node)
    requires n.cfg.epochLength > 0 && n.pool.list == []
    ensures Body(c, n, []) == []
  {
    hide LeaderAt, FeeAddress;
  }

  lemma PoolEmpty(c: Primitives, cfg: Config, seed: Digest, store: Option<Store>, name: string, stake: int,
                  k: PrivateKey, n: Node)
    requires Step(c, NewNode(c, cfg, seed, store), Joining(c, name, stake, k), n)
    ensures n.pool.list == []
  {
    hide GenesisBlock, Defaulted, Sane;
    NewNodeGood(c, cfg, seed, store);
    GoodSane(c, NewNode(c, cfg, seed, store));
  }

  lemma FirstKeys(c: Primitives, cfg: Config, seed: Digest, store: Option<Store>)
    ensures NewNode(c, cfg, seed, store).keys == map[]
  {
  }

  lemma ChainGrown(c: Primitives, n: Node, m: Node, name: string, txs: seq<Transaction>)
    requires Extended(c, n, m, name, txs)
    ensures |m.chain| == |n.chain| + 1 && m.chain[..|n.chain|] == n.chain && m.chain[|n.chain|].txs == txs
  {
    hide StateStep, StartSlot, TipSlot, Reward;
  }
}
