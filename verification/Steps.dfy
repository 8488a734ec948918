// The steps of the engine, and what each keeps.
module Steps {
  import opened Domain
  import opened Crypto
  import opened Stake
  import opened Tree
  import opened Engine
  import opened Invariant
  import opened ForkChoice
  import opened Misses

  // Between steps every slot up to the tip has been judged.
  ghost predicate Settled(n: Node) {
    n.lastProcessed == TipSlot(n.chain)
  }

  ghost predicate Good(c: Primitives, n: Node) {
    Inv(c, n) && Accounts(c, n) && Settled(n)
  }

  // ---------------------------------------------- what never goes back

  ghost predicate Grows<T>(a: map<string, T>, b: map<string, T>) {
    forall k :: k in a ==> k in b && b[k] == a[k]
  }

  // Stored blocks, snapshots, verdicts and finalised history are only ever added
  // to.
  ghost predicate Advances(n: Node, m: Node) {
    && m.cfg == n.cfg && n.chain != [] && m.chain != [] && m.chain[0] == n.chain[0]
    && Grows(n.blocks, m.blocks)
    && Frozen(n.snapshots, m.snapshots)
    && n.judged <= m.judged
    && n.finalized <= m.finalized && KeepsFinal(n.chain, n.finalized, m.chain)
  }

  lemma AdvancesTransitive(n: Node, m: Node, k: Node)
    requires Advances(n, m) && Advances(m, k)
    ensures Advances(n, k)
  {
    forall i | 0 <= i < |n.chain| && n.chain[i].slot <= n.finalized ensures i < |k.chain| && k.chain[i] == n.chain[i] {
      assert m.chain[i] == n.chain[i];
    }
  }

  // ------------------------------------------------------ moving the tip

  // The stake that a reorg away from the tip of n is measured against.
  function StakeAtTip(n: Node, snaps: Snapshots): nat
    requires n.cfg.epochLength > 0
  {
    var e := TipSlot(n.chain) / n.cfg.epochLength;
    if e in snaps then snaps[e].totalStake else 0
  }

  // The step left the tip alone, or moved it as far as the guards allow:
  // abandoning no more blocks than the depth limit and the finality window,
  // to a better score, with the required gain in weight.
  ghost predicate MovesTip(n: Node, m: Node)
    requires Sane(m)
  {
    m.chain == n.chain ||
    (&& n.tip in m.blocks && m.tip in m.blocks
     && |Abandoned(m.blocks, m.chain[0], n.tip, m.tip)| <= n.cfg.maxReorgDepth
     && |Abandoned(m.blocks, m.chain[0], n.tip, m.tip)| <= n.cfg.finalitySlots
     && BetterScore(Score(m, m.tip), Score(m, n.tip))
     && (n.cfg.minReorgWeightDeltaP > 0 && n.cfg.epochLength > 0 ==>
          Score(m, m.tip).weight
            >= Score(m, n.tip).weight + RequiredDelta(StakeAtTip(n, m.snapshots), n.cfg.minReorgWeightDeltaP)))
  }

  // Every verdict the step added is right for the chain it leaves.
  ghost predicate JudgesJustly(n: Node, m: Node) {
    forall i :: |n.judged| <= i < |m.judged| ==> Just(m.judged[i], m.chain)
  }

  // Whoever produced a new block was registered.
  ghost predicate MinedByRegistered(n: Node, m: Node) {
    forall h :: h in m.blocks && h !in n.blocks ==> m.blocks[h].validator in n.validators
  }

  // What every step guarantees.
  ghost predicate StepOk(c: Primitives, n: Node, m: Node) {
    && Good(c, m) && Sane(m) && Advances(n, m) && MovesTip(n, m) && JudgesJustly(n, m)
    && DrawnFrom(n.snapshots, m.snapshots, n.validators, n.stats, n.cfg.epochLength)
    && MinedByRegistered(n, m)
  }

  // The snapshot of the genesis epoch is there already, or not yet, or gives
  // nothing to the name of the genesis block's producer.
  ghost predicate RootSettled(snaps: Snapshots, after: Snapshots) {
    0 in snaps || 0 !in after || GENESIS_NAME !in after[0].validators
  }

  // The score of a stored block changes exactly when the genesis block gets a
  // weight between two states.
  lemma ScoreStable(c: Primitives, n: Node, m: Node, h: string)
    requires TreeInv(c, n) && TreeInv(c, m) && m.cfg == n.cfg && m.chain[0] == n.chain[0]
    requires Grows(n.blocks, m.blocks) && Frozen(n.snapshots, m.snapshots) && h in n.blocks
    ensures h in m.blocks && (Score(m, h) == Score(n, h) <==> RootSettled(n.snapshots, m.snapshots))
  {
    hide Ticking, Sealed, UniqueSlots, AllLed, Registry, Covered, Clocked, IsTree, Path, LeaderAt, GoodSnapshot,
      Weight, SnapshotsGood, StakeIn;
    PathStable(n.blocks, m.blocks, n.chain[0], h);
    PathLed(c, n, h);
    var p := Path(n.blocks, n.chain[0], h);
    PathPrefixRoot(n, h);
    forall i | 0 < i < |p| ensures p[i].slot / n.cfg.epochLength in n.snapshots {
      assert Led(c, n.snapshots, n.cfg.epochLength, p[i]);
    }
    WeightShift(n.snapshots, m.snapshots, n.cfg.epochLength, p);
    RootIsGenesis(n);
    RootStake(n.snapshots, m.snapshots, n.cfg.epochLength, n.chain[0]);
  }

  lemma RootStake(snaps: Snapshots, after: Snapshots, epochLength: nat, g: Block)
    requires epochLength > 0 && IsGenesis(g) && Frozen(snaps, after) && SnapshotsGood(after)
    ensures StakeIn(after, epochLength, g.slot, g.validator) == StakeIn(snaps, epochLength, g.slot, g.validator)
        <==> RootSettled(snaps, after)
  {
    assert g.slot / epochLength == 0;
  }

  // Without that condition its weight grows, by the stake that the snapshot of
  // the genesis epoch gives to that name.
  lemma ScoreMonotone(n: Node, m: Node, h: string)
    requires Sane(n) && Sane(m) && m.cfg == n.cfg && m.chain[0] == n.chain[0]
    requires Grows(n.blocks, m.blocks) && Frozen(n.snapshots, m.snapshots) && h in n.blocks
    ensures h in m.blocks && Score(m, h).hash == Score(n, h).hash && Score(m, h).slot == Score(n, h).slot
    ensures Score(m, h).weight >= Score(n, h).weight
  {
    hide Registry, Covered, Clocked, IsTree, Path, Weight;
    PathStable(n.blocks, m.blocks, n.chain[0], h);
    WeightMonotone(n.snapshots, m.snapshots, n.cfg.epochLength, Path(n.blocks, n.chain[0], h));
  }

  lemma RootIsGenesis(n: Node)
    requires Sane(n)
    ensures IsGenesis(n.chain[0])
  {
  }

  lemma AdoptMoves(c: Primitives, n: Node, h: string)
    requires Inv(c, n) && Sane(n) && Latest(n.blocks, h) && Adopts(n, h)
    requires Sane(Adopt(c, n, h))
    ensures Advances(n, Adopt(c, n, h)) && MovesTip(n, Adopt(c, n, h))
    ensures TipSlot(Adopt(c, n, h).chain) >= TipSlot(n.chain)
  {
    hide TreeInv, Replay, SlotMap, Mempool.Consistent, Path, IsTree, BetterScore, Score, Abandoned, KeepsFinal, Sane,
      Adopts, CleanRecord;
    SaneTree(n);
    var u := Adopt(c, n, h);
    AdoptKeepsFinal(n, h);
    AdoptDepthBound(n, h);
    AdoptImproves(n, h);
    PathPrefixRoot(n, h);
    TipIsLast(n, h);
    TipIsLast(n, n.tip);
    ScoreSameTree(n, u);
    assert ActiveStake(n) == StakeAtTip(n, u.snapshots) by { ActiveAtTip(n, u.snapshots); }
  }

  lemma ActiveAtTip(n: Node, snaps: Snapshots)
    requires n.cfg.epochLength > 0 && snaps == n.snapshots
    ensures ActiveStake(n) == StakeAtTip(n, snaps)
  {
  }

  // MovesTip looks at the chain, the tip and the configuration of its start.
  lemma MovesTipFrom(n: Node, n2: Node, m: Node)
    requires Sane(m) && n2.chain == n.chain && n2.tip == n.tip && n2.cfg == n.cfg && MovesTip(n2, m)
    ensures MovesTip(n, m)
  {
    hide Sane, Path, IsTree, Abandoned, Score, BetterScore, RequiredDelta, StakeAtTip;
    SaneTree(m);
    if n.cfg.epochLength > 0 {
      StakeAtTipSame(n2, n, m.snapshots);
    }
  }

  // The first part of updateCanonical: scoring takes the genesis epoch's
  // snapshot.
  lemma ScoringKeeps(c: Primitives, n: Node)
    requires Inv(c, n)
    ensures Inv(c, EnsureSnapshot(n, 0)) && Sane(EnsureSnapshot(n, 0)) && Advances(n, EnsureSnapshot(n, 0))
    ensures TipSlot(n.chain) / EnsureSnapshot(n, 0).cfg.epochLength in EnsureSnapshot(n, 0).snapshots
    ensures DrawnFrom(n.snapshots, EnsureSnapshot(n, 0).snapshots, n.validators, n.stats, n.cfg.epochLength)
  {
    hide Sane, TreeInv, CacheInv, EnsureSnapshot, KeepsFinal, Frozen, IsTree, Path, DrawnFrom;
    TreeIsSane(c, n);
    SaneTree(n);
    EnsureSnapshotInv(c, n, 0);
    EnsureSnapshotHas(n, 0);
    EnsureSnapshotSane(n, 0);
    TipCovered(EnsureSnapshot(n, 0));
    CacheFree(c, n, EnsureSnapshot(n, 0));
    KeepsFinalSame(n.chain, n.finalized);
    InvRegistry(c, n);
    SnapshotDrawn(n, 0);
  }

  lemma CacheFree(c: Primitives, n: Node, m: Node)
    requires CacheInv(c, n) && m == n.(snapshots := m.snapshots)
    ensures CacheInv(c, m)
  {
    hide SlotMap, Mempool.Consistent;
  }

  lemma UpdateCanonicalMoves(c: Primitives, n: Node, h: string)
    requires Inv(c, n) && Latest(n.blocks, h)
    ensures Inv(c, UpdateCanonical(c, n, h))
    ensures Advances(n, UpdateCanonical(c, n, h)) && MovesTip(n, UpdateCanonical(c, n, h))
    ensures TipSlot(UpdateCanonical(c, n, h).chain) >= TipSlot(n.chain)
    ensures TipSlot(n.chain) / n.cfg.epochLength in UpdateCanonical(c, n, h).snapshots
    ensures DrawnFrom(n.snapshots, UpdateCanonical(c, n, h).snapshots, n.validators, n.stats, n.cfg.epochLength)
  {
    hide Inv, Sane, Adopts, Adopt, EnsureSnapshot, Advances, MovesTip, DrawnFrom;
    InvSane(c, n);
    SaneTree(n);
    UpdateCanonicalInv(c, n, h);
    ScoringKeeps(c, n);
    var scored := EnsureSnapshot(n, 0);
    if Adopts(scored, h) {
      var u := Adopt(c, scored, h);
      AdoptSnapshots(c, scored, h);
      InvSane(c, u);
      AdoptMoves(c, scored, h);
      AdvancesTransitive(n, scored, u);
      MovesTipFrom(n, scored, u);
    } else {
      StaysPut(n, scored);
    }
  }

  lemma StaysPut(n: Node, m: Node)
    requires Sane(m) && m.chain == n.chain
    ensures MovesTip(n, m)
  {
  }

  lemma AdoptSnapshots(c: Primitives, n: Node, h: string)
    requires Sane(n) && h in n.blocks
    ensures Adopt(c, n, h).snapshots == n.snapshots && Adopt(c, n, h).cfg == n.cfg && Adopt(c, n, h).judged == n.judged
  {
    hide Path, Replay;
  }

  lemma ScoreSameTree(n: Node, m: Node)
    requires Sane(n) && Sane(m) && m.blocks == n.blocks && m.chain[0] == n.chain[0] && m.snapshots == n.snapshots
    requires m.cfg == n.cfg
    ensures forall h :: h in n.blocks ==> Score(m, h) == Score(n, h)
  {
  }

  lemma KeepsFinalSame(a: seq<Block>, finalized: nat)
    ensures KeepsFinal(a, finalized, a)
  {
  }

  // Once the genesis epoch is there, the epoch of any tip is.
  lemma TipCovered(n: Node)
    requires Sane(n) && 0 in n.snapshots
    ensures TipSlot(n.chain) / n.cfg.epochLength in n.snapshots
  {
    hide Path, IsTree, Registry;
    TipIsLast(n, n.tip);
    if TipSlot(n.chain) >= 1 {
      assert HasSnapshot(n.snapshots, n.cfg.epochLength, TipSlot(n.chain));
    }
  }

  // ------------------------------------------------------------ taking a block in

  lemma AccountsCarry(c: Primitives, n: Node, m: Node)
    requires Accounts(c, n) && m.cfg == n.cfg && m.judged == n.judged && m.lastProcessed == n.lastProcessed
    requires Frozen(n.snapshots, m.snapshots) && SameCounters(n.stats, m.stats)
    ensures Accounts(c, m)
  {
    hide LeaderAt;
    forall i | 0 <= i < |n.judged|
      ensures HasSnapshot(m.snapshots, n.cfg.epochLength, n.judged[i].slot)
      ensures n.judged[i].leader == LeaderAt(c, m.snapshots, n.cfg.epochLength, n.judged[i].slot)
    {
      LeaderStays(c, n.snapshots, m.snapshots, n.cfg.epochLength, n.judged[i].slot);
    }
  }

  lemma RewardInv(c: Primitives, n: Node, name: string)
    requires Inv(c, n)
    ensures Inv(c, n.(validators := Reward(n.validators, name)))
  {
    hide Inv;
    InvRegistry(c, n);
    RegistryFree(c, n, n.(validators := Reward(n.validators, name)));
  }

  lemma SlashInv(c: Primitives, n: Node, name: string)
    requires Inv(c, n)
    ensures Inv(c, SlashLeader(n, name))
  {
    hide Inv, Slash;
    InvRegistry(c, n);
    SlashKeeps(n.validators, name, SLASH_PENALTY);
    RegistryFree(c, n, SlashLeader(n, name));
  }

  // Inserting changes nothing that the accounts or the finalised history read.
  lemma InsertAdvances(c: Primitives, n: Node, b: Block)
    requires Inv(c, n) && Sane(n) && Admissible(c, n, b)
    ensures b.validator in n.validators
    ensures Advances(n, Stored(n, b)) && Latest(Stored(n, b).blocks, b.hash)
  {
    hide Sane, TreeInv, CacheInv, RegisterProducer, Admissible, KeepsFinal, Path, IsTree;
    SaneTree(n);
    AdmissibleStorable(c, n, b);
    StorableProducer(n, b);
    NewSlot(c, n, b);
    KeepsFinalSame(n.chain, n.finalized);
  }

  // Up to the judging of missed slots.
  lemma RewardedKeeps(c: Primitives, n: Node, b: Block)
    requires Good(c, n) && Sane(n) && Admissible(c, n, b) && Storable(n, b)
    ensures !Equivocates(n, b)
    ensures var m := Rewarded(c, n, b);
      && Inv(c, m) && Accounts(c, m) && m.lastProcessed == TipSlot(n.chain)
      && Advances(n, m) && MovesTip(n, m) && b.hash in m.blocks
      && TipSlot(m.chain) >= TipSlot(n.chain) && TipSlot(n.chain) / n.cfg.epochLength in m.snapshots
      && DrawnFrom(n.snapshots, m.snapshots, n.validators, n.stats, n.cfg.epochLength)
  {
    hide TreeInv, CacheInv, UpdateCanonical, Accounts, Advances, MovesTip, Reward, RegisterProducer, Admissible, Sane,
      Extends, DrawnFrom, Equivocates;
    StoredSane(n, b);
    InsertInv(c, n, b);
    InsertAdvances(c, n, b);
    var n2 := Stored(n, b);
    UpdateCanonicalMoves(c, n2, b.hash);
    var n3 := UpdateCanonical(c, n2, b.hash);
    AdvancesTransitive(n, n2, n3);
    RewardInv(c, n3, b.validator);
    InvSane(c, n3);
    InvSane(c, Rewarded(c, n, b));
    RewardedSame(n, b, n2, n3, Rewarded(c, n, b));
    AdvancesFrozen(n, Rewarded(c, n, b));
    RewardedAccounts(c, n, b);
    StoredStats(n, b);
  }

  lemma AdvancesFrozen(n: Node, m: Node)
    requires Advances(n, m)
    ensures Frozen(n.snapshots, m.snapshots)
  {
    hide KeepsFinal;
  }

  lemma StoredStats(n: Node, b: Block)
    requires b.validator in n.validators && !Equivocates(n, b)
    ensures Stored(n, b).stats == n.stats && Stored(n, b).snapshots == n.snapshots
    ensures Stored(n, b).validators == n.validators
  {
  }

  lemma RewardedSame(n: Node, b: Block, n2: Node, n3: Node, n4: Node)
    requires Sane(n3) && Sane(n4) && b.hash in n2.blocks
    requires n2.chain == n.chain && n2.tip == n.tip && n2.cfg == n.cfg
    requires n4 == n3.(validators := n4.validators)
    requires Advances(n, n3) && MovesTip(n2, n3) && Advances(n2, n3)
    ensures Advances(n, n4) && MovesTip(n, n4)
    ensures b.hash in n4.blocks
  {
    hide Sane, Path, IsTree, Abandoned, Score, BetterScore, KeepsFinal, RequiredDelta, StakeAtTip;
    SaneTree(n3);
    SaneTree(n4);
    ScoreSameTree(n3, n4);
    MovesTipFrom(n, n2, n3);
  }

  lemma StakeAtTipSame(n: Node, m: Node, snaps: Snapshots)
    requires n.cfg == m.cfg && n.chain == m.chain && n.cfg.epochLength > 0
    ensures StakeAtTip(n, snaps) == StakeAtTip(m, snaps)
  {
  }

  lemma RewardedAccounts(c: Primitives, n: Node, b: Block)
    requires Good(c, n) && Storable(n, b) && !Equivocates(n, b)
    requires Frozen(n.snapshots, Rewarded(c, n, b).snapshots)
    ensures Accounts(c, Rewarded(c, n, b)) && Rewarded(c, n, b).lastProcessed == TipSlot(n.chain)
  {
    hide Inv, Sane, Accounts, Adopts, Path, TakeSnapshot, Replay, SlotMap, Storable, Frozen;
    AccountsCarry(c, n, Rewarded(c, n, b));
  }

  // The tail of AddBlock and AddBlockExternal on an admissible block.
  lemma AcceptKeeps(c: Primitives, n: Node, b: Block)
    requires Good(c, n) && Sane(n) && Admissible(c, n, b) && Storable(n, b)
    ensures Accept(c, n, b).result == Ok(b.hash)
    ensures StepOk(c, n, Accept(c, n, b).node) && b.hash in Accept(c, n, b).node.blocks
  {
    hide Inv, Rewarded, ProcessMissed, Balanced, JudgedLeaders, Advances, MovesTip, Admissible, Storable, Just,
      DrawnFrom, Sane;
    RewardedKeeps(c, n, b);
    RewardedBlocks(c, n, b);
    StorableProducer(n, b);
    var m := Rewarded(c, n, b);
    TipClocked(c, m);
    ProcessMissedKeeps(c, m, TipSlot(m.chain));
    InvSane(c, m);
    InvSane(c, ProcessMissed(c, m, TipSlot(m.chain)));
    FinishAdvances(n, m, ProcessMissed(c, m, TipSlot(m.chain)));
  }

  lemma RewardedRegistry(c: Primitives, n: Node, b: Block)
    requires Storable(n, b) && b.validator in n.validators && !Equivocates(n, b)
    ensures var m := Rewarded(c, n, b);
      && m.validators == Reward(n.validators, b.validator) && m.stats == n.stats && m.lastProcessed == n.lastProcessed
      && m.judged == n.judged && m.keys == n.keys[b.validator := n.validators[b.validator].pubKey]
  {
    hide Sane, Adopts, TakeSnapshot, Path, Replay, SlotMap, Equivocates;
    StoredSane(n, b);
    StoredFields(n, b);
    EnsureSnapshotSane(Stored(n, b), 0);
  }

  lemma StoredFields(n: Node, b: Block)
    requires b.validator in n.validators && !Equivocates(n, b)
    ensures var m := Stored(n, b);
      && m.stats == n.stats && m.validators == n.validators && m.lastProcessed == n.lastProcessed
      && m.judged == n.judged && m.keys == n.keys[b.validator := n.validators[b.validator].pubKey]
  {
  }

  lemma StoredBlocks(n: Node, b: Block)
    requires b.validator in n.validators
    ensures Stored(n, b).blocks == n.blocks[b.hash := b] && Stored(n, b).store == n.store
  {
    hide RegisterProducer;
  }

  lemma RewardedBlocks(c: Primitives, n: Node, b: Block)
    requires Storable(n, b)
    ensures Rewarded(c, n, b).blocks == n.blocks[b.hash := b] && Rewarded(c, n, b).store == n.store
  {
    hide Sane, Stored, Adopts, TakeSnapshot, Path, Replay, SlotMap;
    StoredSane(n, b);
    StoredBlocks(n, b);
    EnsureSnapshotSane(Stored(n, b), 0);
  }

  lemma TipClocked(c: Primitives, n: Node)
    requires Inv(c, n)
    ensures TipSlot(n.chain) <= SlotOf(n.poh.tick)
  {
    hide Path, Ticking, Sealed, UniqueSlots, AllLed, Covered, Registry, SlotMap, IsTree, Mempool.Consistent,
      SnapshotsGood, CleanRecord;
    TipIsLast(n, n.tip);
  }

  // The judging phase changes nothing that the tip move or the history is
  // about.
  lemma FinishAdvances(n: Node, n3: Node, n5: Node)
    requires Sane(n3) && Sane(n5) && Advances(n, n3) && MovesTip(n, n3)
    requires n5 == n3.(validators := n5.validators, stats := n5.stats, judged := n5.judged,
      lastProcessed := n5.lastProcessed)
    requires n3.judged <= n5.judged
    ensures Advances(n, n5) && MovesTip(n, n5)
  {
    hide Sane, KeepsFinal, Score, Abandoned, Path, IsTree, BetterScore, RequiredDelta;
    SaneTree(n3);
    SaneTree(n5);
    ScoreSameTree(n3, n5);
  }
}
