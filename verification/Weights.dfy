// The weights of blocks over whole runs: when they change, how they grow with
// the height, and what the name of the genesis block's producer has to do with
// it.
module Weights {
  import opened Domain
  import opened Crypto
  import opened Stake
  import opened Mempool
  import opened Tree
  import opened Storage
  import opened Engine
  import opened Invariant
  import opened ForkChoice
  import opened Misses
  import opened Steps
  import opened Production
  import opened Runs
  import opened Upkeep
  import opened Theorems

  // ------------------------------------------------------------ constant scores

  // Nothing is ever removed from the tree, and the score of a stored block is
  // the same at two moments, whatever rewards, slashes and jailings lie between,
  // except when the genesis epoch gets its snapshot in between and that gives a
  // stake to the name of the genesis block's producer.
  lemma ScoreExact(c: Primitives, ns: seq<Node>, es: seq<Event>, i: nat, j: nat, h: string)
    requires |ns| > 0 && Fresh(c, ns[0]) && Run(c, ns[0], ns, es) && i <= j < |ns|
    requires h in ns[i].blocks
    ensures Sane(ns[i]) && Sane(ns[j])
    ensures h in ns[j].blocks && ns[j].blocks[h] == ns[i].blocks[h]
    ensures Score(ns[j], h) == Score(ns[i], h)
        <==> 0 in ns[i].snapshots || 0 !in ns[j].snapshots || GENESIS_NAME !in ns[j].snapshots[0].validators
  {
    hide Run, Fresh, Sane, Score, Accounts, TreeInv, CacheInv, KeepsFinal;
    RunGood(c, ns, es, i);
    RunGood(c, ns, es, j);
    RunAdvances(c, ns, es, i, j);
    ScoreStable(c, ns[i], ns[j], h);
  }

  // So with epochs of more than one slot, scores are final once a slot has been
  // started, whatever the validators are called.
  lemma ScoreSettles(c: Primitives, ns: seq<Node>, es: seq<Event>, i: nat, j: nat, h: string)
    requires |ns| > 0 && Fresh(c, ns[0]) && Run(c, ns[0], ns, es) && i <= j < |ns|
    requires h in ns[i].blocks && ns[i].poh.tick > 0 && ns[i].cfg.epochLength > 1
    ensures Sane(ns[i]) && Sane(ns[j]) && h in ns[j].blocks && Score(ns[j], h) == Score(ns[i], h)
  {
    hide Run, Fresh, Sane, Score, Good;
    ScoreExact(c, ns, es, i, j, h);
    GenesisEpochTaken(ns[i]);
  }

  lemma GenesisEpochTaken(n: Node)
    requires Sane(n) && n.poh.tick > 0 && n.cfg.epochLength > 1
    ensures 0 in n.snapshots
  {
    hide Path, IsTree, Registry;
    assert SlotOf(n.poh.tick) >= 1;
    assert HasSnapshot(n.snapshots, n.cfg.epochLength, 1);
  }

  // Hypothesis H3: no validator takes the name of the genesis block's producer,
  // which is also what the lottery falls back to.
  ghost predicate NameFree(es: seq<Event>) {
    forall i :: 0 <= i < |es| && es[i].ValidatorAdded? ==> es[i].name != GENESIS_NAME
  }

  lemma StepUnclaimed(c: Primitives, n: Node, e: Event, m: Node)
    requires Good(c, n) && Step(c, n, e, m) && GENESIS_NAME !in n.validators
    requires e.ValidatorAdded? ==> e.name != GENESIS_NAME
    ensures GENESIS_NAME !in m.validators
  {
    hide Good, BuildCollisionFree, StartSlot, Body, TakeBody, CurrentLeader, StateAtTip, Produce, Sane, StepOk,
      AddBlockFresh, AddBlockExternalFresh, Adds;
    GoodSane(c, n);
    if e.BlockAdded? {
      AddBlockKeeps(c, n, e.txs, e.entropy, e.io);
      AddBlockOnly(c, n, e.txs, e.entropy, e.io);
    } else if e.ExternalBlockAdded? {
      AddBlockExternalKeeps(c, n, e.prevHash, e.txs, e.entropy, e.io);
      AddBlockExternalOnly(c, n, e.prevHash, e.txs, e.entropy, e.io);
    }
  }

  lemma {:induction false} RunUnclaimed(c: Primitives, ns: seq<Node>, es: seq<Event>, i: nat)
    requires |ns| > 0 && Fresh(c, ns[0]) && Run(c, ns[0], ns, es) && NameFree(es) && i < |ns|
    ensures GENESIS_NAME !in ns[i].validators
    ensures forall e :: e in ns[i].snapshots ==> GENESIS_NAME !in ns[i].snapshots[e].validators
  {
    hide Step, Good, Sane, StepOk, IsJailed, TakeSnapshot;
    if i == 0 {
      FreshEmpty(c, ns[0]);
    } else {
      RunUnclaimed(c, ns, es, i - 1);
      RunSteps(c, ns, es, i - 1);
      assert Step(c, ns[i - 1], es[i - 1], ns[i]);
      StepUnclaimed(c, ns[i - 1], es[i - 1], ns[i]);
      forall e | e in ns[i].snapshots ensures GENESIS_NAME !in ns[i].snapshots[e].validators {
        var k := SnapshotsAsTaken(c, ns, es, i, e);
        RunUnclaimed(c, ns, es, k);
      }
    }
  }

  // Under H3 scores never change at all.
  lemma WeightIsForever(c: Primitives, ns: seq<Node>, es: seq<Event>, i: nat, j: nat, h: string)
    requires |ns| > 0 && Fresh(c, ns[0]) && Run(c, ns[0], ns, es) && NameFree(es) && i <= j < |ns|
    requires h in ns[i].blocks
    ensures Sane(ns[i]) && Sane(ns[j]) && h in ns[j].blocks && Score(ns[j], h) == Score(ns[i], h)
  {
    hide Run, Fresh, Sane, Score, NameFree;
    ScoreExact(c, ns, es, i, j, h);
    RunUnclaimed(c, ns, es, j);
  }

  // ------------------------------------------------------ why H3 is a hypothesis

  // A run of two calls in which the genesis block gains weight: a validator takes
  // its producer's name, and any AddBlock starts the first slot. No signing key is
  // needed, and the block may fail.
  lemma ClaimedNameGainsWeight(c: Primitives, cfg: Config, seed: Digest, store: Option<Store>, stake: int,
                               pubKey: string,
                               key: Option<PrivateKey>, txs: seq<Transaction>, entropy: nat, io: WriteOutcome,
                                 ns: seq<Node>)
    requires stake >= MIN_STAKE && pubKey != "" && Defaulted(cfg).epochLength > 1
    requires |ns| == 3 && Run(c, NewNode(c, cfg, seed, store), ns,
      [ValidatorAdded(GENESIS_NAME, stake, pubKey, key), BlockAdded(txs, entropy, io)])
    ensures Sane(ns[1]) && Sane(ns[2]) && ns[1].chain[0].hash in ns[1].blocks && ns[1].chain[0].hash in ns[2].blocks
    ensures Score(ns[1], ns[1].chain[0].hash).weight == 0 && Score(ns[2], ns[1].chain[0].hash).weight > 0
  {
    hide Score, Good, Step, NewNode, Registry, StartSlot, AddValidator;
    var es := [ValidatorAdded(GENESIS_NAME, stake, pubKey, key), BlockAdded(txs, entropy, io)];
    assert Step(c, ns[0], es[0], ns[1]) && Step(c, ns[1], es[1], ns[2]);
    RunGood(c, ns, es, 1);
    RunGood(c, ns, es, 2);
    NameClaimed(c, cfg, seed, store, stake, pubKey, key, ns[1]);
    ClockMoved(c, ns[1], es[1], ns[2]);
    GenesisEpochTaken(ns[2]);
    var k := SnapshotsAsTaken(c, ns, es, 2, 0);
    var g := ns[1].chain[0].hash;
    RootStored(ns[1]);
    ScoreExact(c, ns, es, 1, 2, g);
    NotLighter(c, ns, es, 1, 2, g);
  }

  lemma NameClaimed(c: Primitives, cfg: Config, seed: Digest, store: Option<Store>, stake: int, pubKey: string,
                    key: Option<PrivateKey>, n: Node)
    requires stake >= MIN_STAKE && pubKey != ""
    requires Step(c, NewNode(c, cfg, seed, store), ValidatorAdded(GENESIS_NAME, stake, pubKey, key), n)
    ensures n.snapshots == map[] && n.validators.Keys == {GENESIS_NAME} && n.cfg == Defaulted(cfg)
    ensures !IsJailed(n.stats, GENESIS_NAME, 0)
  {
    hide GenesisBlock, Defaulted, Sane;
    NewNodeGood(c, cfg, seed, store);
    GoodSane(c, NewNode(c, cfg, seed, store));
  }

  // With a validator, AddBlock moves the clock, whatever becomes of the block.
  lemma ClockMoved(c: Primitives, n: Node, e: Event, m: Node)
    requires Good(c, n) && Sane(n) && e.BlockAdded? && Step(c, n, e, m) && n.validators != map[]
    ensures m.poh == StartSlot(c, n).poh && m.poh.tick > 0 && m.cfg == n.cfg
  {
    hide Good, Sane, CollisionFree, AddBlockFresh, AddBlock, StepOk, StartSlot;
    AddBlockKeeps(c, n, e.txs, e.entropy, e.io);
    AddBlockTicks(c, n, e.txs, e.entropy, e.io);
    StepKeepsCfg(c, n, m);
  }

  lemma StepKeepsCfg(c: Primitives, n: Node, m: Node)
    requires StepOk(c, n, m)
    ensures m.cfg == n.cfg
  {
    hide Good, Sane, MovesTip, JudgesJustly, DrawnFrom, KeepsFinal;
  }

  lemma AddBlockTicks(c: Primitives, n: Node, txs: seq<Transaction>, entropy: nat, io: WriteOutcome)
    requires Sane(n) && AddBlockFresh(c, n, txs, entropy) && n.validators != map[]
    ensures AddBlock(c, n, txs, entropy, io).node.poh == StartSlot(c, n).poh && StartSlot(c, n).poh.tick > 0
  {
    hide Produce, AddBlockFresh, Sane, LeaderAt, StartSlot, TakeBody, Body;
    assert |n.validators| != 0;
    StartSlotSane(c, n);
    FreshBuild(c, n, txs, entropy);
  }

  lemma RootStored(n: Node)
    requires Sane(n)
    ensures n.chain[0].hash in n.blocks && (n.snapshots == map[] ==> Score(n, n.chain[0].hash).weight == 0)
  {
    hide Registry, Covered, Clocked;
    var g := n.chain[0];
    WeightExtend(n.snapshots, n.cfg.epochLength, [], g);
    assert [] + [g] == [g];
  }


  // ----------------------------------------------------------- weight and height

  // A stored block after genesis weighs the minimum stake at least exactly when
  // its producer is listed in the snapshot of its epoch. The one that may not be
  // is the fallback of the lottery, and then the block weighs nothing.
  lemma BlockWeighs(c: Primitives, ns: seq<Node>, es: seq<Event>, i: nat, h: string)
    requires |ns| > 0 && Fresh(c, ns[0]) && Run(c, ns[0], ns, es) && i < |ns|
    requires h in ns[i].blocks && ns[i].blocks[h].prevHash != GENESIS_PARENT
    ensures ns[i].cfg.epochLength > 0
    ensures var b := ns[i].blocks[h];
      var weight := StakeIn(ns[i].snapshots, ns[i].cfg.epochLength, b.slot, b.validator);
      && (weight >= MIN_STAKE <==> Listed(ns[i].snapshots, ns[i].cfg.epochLength, b))
      && (!Listed(ns[i].snapshots, ns[i].cfg.epochLength, b) ==> weight == 0 && b.validator == GENESIS_NAME)
  {
    hide Run, Fresh, Accounts, CacheInv, Sane, Sealed, Ticking, UniqueSlots, Led, SnapshotsGood, StakeIn, Listed;
    RunGood(c, ns, es, i);
    SaneTree(ns[i]);
    NotFirst(ns[i], h);
    LedStake(c, ns[i].snapshots, ns[i].cfg.epochLength, ns[i].blocks[h]);
  }

  lemma NotFirst(n: Node, h: string)
    requires Sane(n) && h in n.blocks && n.blocks[h].prevHash != GENESIS_PARENT
    ensures h != n.chain[0].hash
  {
    hide Path, Registry, Covered, Clocked;
  }

  lemma LedStake(c: Primitives, snaps: Snapshots, epochLength: nat, b: Block)
    requires epochLength > 0 && SnapshotsGood(snaps) && Led(c, snaps, epochLength, b)
    ensures StakeIn(snaps, epochLength, b.slot, b.validator) >= MIN_STAKE <==> Listed(snaps, epochLength, b)
    ensures !Listed(snaps, epochLength, b) ==>
      StakeIn(snaps, epochLength, b.slot, b.validator) == 0 && b.validator == GENESIS_NAME
  {
    hide LeaderFromSnapshot;
    LeaderInSnapshot(c, snaps, epochLength, b.slot);
  }

  // Every path weighs the minimum stake at least for each block on it whose
  // producer is listed, and so at least for its height when all of them are.
  lemma WeightGrowsWithHeight(c: Primitives, ns: seq<Node>, es: seq<Event>, i: nat, h: string)
    requires |ns| > 0 && Fresh(c, ns[0]) && Run(c, ns[0], ns, es) && i < |ns| && h in ns[i].blocks
    ensures Sane(ns[i])
    ensures var n := ns[i];
      var p := Path(n.blocks, n.chain[0], h);
      && Score(n, h).weight >= MIN_STAKE * ListedBlocks(n.snapshots, n.cfg.epochLength, p)
      && ((forall k :: 0 < k < |p| ==> Listed(n.snapshots, n.cfg.epochLength, p[k])) ==>
           ListedBlocks(n.snapshots, n.cfg.epochLength, p) == n.blocks[h].index)
  {
    hide Run, Fresh, Accounts, CacheInv, TreeInv, Path, Score, Listed, ListedBlocks, IsTree;
    RunGood(c, ns, es, i);
    WeighsByHeight(c, ns[i], h);
  }

  lemma WeighsByHeight(c: Primitives, n: Node, h: string)
    requires TreeInv(c, n) && h in n.blocks
    ensures Sane(n)
    ensures var p := Path(n.blocks, n.chain[0], h);
      && Score(n, h).weight >= MIN_STAKE * ListedBlocks(n.snapshots, n.cfg.epochLength, p)
      && ((forall k :: 0 < k < |p| ==> Listed(n.snapshots, n.cfg.epochLength, p[k])) ==>
           ListedBlocks(n.snapshots, n.cfg.epochLength, p) == n.blocks[h].index)
  {
    hide Path, Ticking, Sealed, UniqueSlots, AllLed, SnapshotsGood, StakeIn, Registry, Covered, Clocked, Led, Listed,
      ListedBlocks, Weight, IsTree;
    var p := Path(n.blocks, n.chain[0], h);
    PathLed(c, n, h);
    PathLinked(n.blocks, n.chain[0], h);
    forall i | 0 < i < |p| && Listed(n.snapshots, n.cfg.epochLength, p[i])
      ensures StakeIn(n.snapshots, n.cfg.epochLength, p[i].slot, p[i].validator) >= MIN_STAKE
    {
      LedStake(c, n.snapshots, n.cfg.epochLength, p[i]);
    }
    WeightAtLeast(n.snapshots, n.cfg.epochLength, p, MIN_STAKE);
    if forall k :: 0 < k < |p| ==> Listed(n.snapshots, n.cfg.epochLength, p[k]) {
      AllListed(n.snapshots, n.cfg.epochLength, p);
    }
  }

  // Canonical weight grows by the minimum stake for each such block at least, in
  // every state.
  lemma CanonicalWeight(c: Primitives, ns: seq<Node>, es: seq<Event>, i: nat)
    requires |ns| > 0 && Fresh(c, ns[0]) && Run(c, ns[0], ns, es) && i < |ns|
    ensures Sane(ns[i])
    ensures var n := ns[i];
      && Score(n, n.tip).weight >= MIN_STAKE * ListedBlocks(n.snapshots, n.cfg.epochLength, n.chain)
      && ((forall k :: 0 < k < |n.chain| ==> Listed(n.snapshots, n.cfg.epochLength, n.chain[k])) ==>
           Score(n, n.tip).weight >= MIN_STAKE * (|n.chain| - 1))
  {
    hide Run, Fresh, Good, Score, Path, Registry, Covered, Clocked, IsTree, Listed, ListedBlocks;
    RunGood(c, ns, es, i);
    WeightGrowsWithHeight(c, ns, es, i, ns[i].tip);
    if forall k :: 0 < k < |ns[i].chain| ==> Listed(ns[i].snapshots, ns[i].cfg.epochLength, ns[i].chain[k]) {
      AllListed(ns[i].snapshots, ns[i].cfg.epochLength, ns[i].chain);
    }
  }

  // Under H3 all producers are listed.
  lemma NamedAreListed(c: Primitives, ns: seq<Node>, es: seq<Event>, i: nat, h: string)
    requires |ns| > 0 && Fresh(c, ns[0]) && Run(c, ns[0], ns, es) && NameFree(es) && i < |ns|
    requires h in ns[i].blocks && ns[i].blocks[h].prevHash != GENESIS_PARENT
    ensures ns[i].cfg.epochLength > 0 && Listed(ns[i].snapshots, ns[i].cfg.epochLength, ns[i].blocks[h])
  {
    hide Run, Fresh, NameFree, Listed, StakeIn;
    BlockWeighs(c, ns, es, i, h);
    RunProducersNamed(c, ns, es, i);
  }

  // No block but genesis names the fallback as its producer.
  ghost predicate ProducersNamed(blocks: Blocks) {
    forall h :: h in blocks && blocks[h].prevHash != GENESIS_PARENT ==> blocks[h].validator != GENESIS_NAME
  }

  lemma {:induction false} RunProducersNamed(c: Primitives, ns: seq<Node>, es: seq<Event>, i: nat)
    requires |ns| > 0 && Fresh(c, ns[0]) && Run(c, ns[0], ns, es) && NameFree(es) && i < |ns|
    ensures ProducersNamed(ns[i].blocks)
  {
    hide Run, NameFree, Good, Sane, MovesTip, JudgesJustly, DrawnFrom, KeepsFinal;
    if i == 0 {
      FreshRoot(c, ns[0]);
    } else {
      RunProducersNamed(c, ns, es, i - 1);
      RunUnclaimed(c, ns, es, i - 1);
      RunSteps(c, ns, es, i - 1);
      forall h | h in ns[i].blocks && ns[i].blocks[h].prevHash != GENESIS_PARENT
        ensures ns[i].blocks[h].validator != GENESIS_NAME {
        if h in ns[i - 1].blocks {
          assert ns[i].blocks[h] == ns[i - 1].blocks[h];
        }
      }
    }
  }

  lemma FreshRoot(c: Primitives, n: Node)
    requires Fresh(c, n)
    ensures ProducersNamed(n.blocks)
  {
    hide HashBlock, TxRoot, StateRoot;
  }
}
