// What a step makes of the balances: a block that is refused leaves them alone,
// and so does one that is not adopted; an adoption replays the chain, and leaves
// them alone too if that fails.
module Adoptions {
  import opened Domain
  import opened Crypto
  import opened Ledger
  import opened Stake
  import opened Tree
  import opened Storage
  import opened Engine
  import opened Invariant
  import opened Steps
  import opened Production
  import opened Runs
  import opened Theorems
  import opened Upkeep
  import opened Misses

  // ------------------------------------------------------- the shape of a step

  // No block is taken in.
  ghost predicate Refused(n: Node, m: Node) {
    m == n.(poh := m.poh, snapshots := m.snapshots, pool := m.pool, store := m.store, validators := m.validators)
  }

  // Block b is taken in where the step has got to.
  ghost predicate Taken(c: Primitives, n: Node, m: Node, saved: Node, b: Block) {
    && Good(c, saved) && Sane(saved) && Admissible(c, saved, b) && Storable(saved, b)
    && saved == n.(poh := saved.poh, snapshots := saved.snapshots, pool := saved.pool, store := saved.store)
    && m == Accept(c, saved, b).node
  }

  ghost predicate Shaped(c: Primitives, n: Node, m: Node) {
    Refused(n, m) || exists saved, b :: Taken(c, n, m, saved, b)
  }

  lemma SavedShape(c: Primitives, n: Node, b: Block, io: WriteOutcome)
    requires Good(c, n) && Sane(n) && Admissible(c, n, b) && Storable(n, b)
    ensures Shaped(c, n, SaveAndAccept(c, n, b, io).node)
  {
    hide Good, Sane, Admissible, Storable, Accept;
    var saved := Save(n, b, io);
    SavedGood(c, n, b, io);
    SaveStorable(n, b, io);
    SavedAdmissible(c, n, saved, b);
    if n.store.None? || io.BothWritten? {
      assert Taken(c, n, SaveAndAccept(c, n, b, io).node, saved, b);
    }
  }

  lemma ProduceShape(c: Primitives, n: Node, parent: Block, base: Result<State, TxError>, leader: string,
                     txs: seq<Transaction>, entropy: nat, io: WriteOutcome)
    requires Good(c, n) && Sane(n) && HasSnapshot(n.snapshots, n.cfg.epochLength, SlotOf(n.poh.tick))
    requires (forall h :: h in n.blocks ==> n.blocks[h].tick < n.poh.tick)
    requires parent.hash in n.blocks && n.blocks[parent.hash] == parent
    requires BuildFresh(c, n, parent, base, leader, txs, entropy)
    ensures Shaped(c, n, Produce(c, n, parent, base, leader, txs, entropy, io).node)
  {
    hide Good, Sane, SaveAndAccept, Build, Path, IsTree, Admissible, Storable, HasSnapshot, BuildFresh, Taken, Slash;
    SaneTree(n);
    if Build(c, n, parent, base, leader, txs, entropy).Ok? {
      BuiltIsAdmissible(c, n, parent, base, leader, txs, entropy);
      SavedShape(c, n, Build(c, n, parent, base, leader, txs, entropy).value, io);
    }
  }

  lemma ShapeFrom(c: Primitives, n: Node, n2: Node, m: Node)
    requires n2 == n.(poh := n2.poh, snapshots := n2.snapshots, pool := n2.pool) && Shaped(c, n2, m)
    ensures Shaped(c, n, m)
  {
    hide Good, Sane, Admissible, Storable, Accept;
    if !Refused(n2, m) {
      var saved, b :| Taken(c, n2, m, saved, b);
      assert Taken(c, n, m, saved, b);
    }
  }

  lemma AddBlockShape(c: Primitives, n: Node, txs: seq<Transaction>, entropy: nat, io: WriteOutcome)
    requires Good(c, n) && Sane(n) && AddBlockFresh(c, n, txs, entropy)
    ensures Shaped(c, n, AddBlock(c, n, txs, entropy, io).node)
  {
    hide Inv, Good, StartSlot, BuildFresh, Produce, TakeBody, Body, Path, IsTree, Sane, LeaderAt, HasSnapshot,
      AddBlockFresh, Shaped, DrawnFrom;
    SaneTree(n);
    TipStart(c, n, txs);
    FreshBuild(c, n, txs, entropy);
    var n1 := StartSlot(c, n);
    if |n.validators| != 0 {
      ProduceShape(c, TakeBody(c, n1, txs), n.blocks[n.tip], Ok(n.state), CurrentLeader(c, n1), Body(c, n1, txs),
        entropy, io);
      ShapeFrom(c, n, TakeBody(c, n1, txs), AddBlock(c, n, txs, entropy, io).node);
    } else {
      StaysShaped(c, n);
    }
  }

  lemma StaysShaped(c: Primitives, n: Node)
    ensures Shaped(c, n, n)
  {
    hide Taken;
  }

  lemma AddBlockExternalShape(c: Primitives, n: Node, prevHash: string, txs: seq<Transaction>, entropy: nat,
                              io: WriteOutcome)
    requires Good(c, n) && Sane(n) && AddBlockExternalFresh(c, n, prevHash, txs, entropy)
    ensures Shaped(c, n, AddBlockExternal(c, n, prevHash, txs, entropy, io).node)
  {
    hide Good, Sane, StartSlot, LeaderAt, Produce, BuildFresh, AddBlockExternalFresh, HasSnapshot, Path, IsTree,
      DrawnFrom, StateAtTip, Shaped;
    StaysShaped(c, n);
    if |n.validators| != 0 && prevHash in n.blocks {
      SaneTree(n);
      ExternalStart(c, n, prevHash);
      StartSlotSane(c, n);
      FreshExternal(c, n, prevHash, txs, entropy);
      var n1 := StartSlot(c, n);
      ProduceShape(c, n1, n.blocks[prevHash], StateAtTip(c, n, prevHash), CurrentLeader(c, n1), txs, entropy, io);
      ShapeFrom(c, n, n1, AddBlockExternal(c, n, prevHash, txs, entropy, io).node);
    }
  }

  lemma StepShape(c: Primitives, n: Node, e: Event, m: Node)
    requires Good(c, n) && Sane(n) && Step(c, n, e, m) && (e.BlockAdded? || e.ExternalBlockAdded?)
    ensures Shaped(c, n, m)
  {
    hide Good, Sane, CollisionFree, AddBlock, AddBlockExternal, StepOk, AddBlockFresh, AddBlockExternalFresh, Shaped;
    if e.BlockAdded? {
      AddBlockKeeps(c, n, e.txs, e.entropy, e.io);
      AddBlockShape(c, n, e.txs, e.entropy, e.io);
    } else {
      AddBlockExternalKeeps(c, n, e.prevHash, e.txs, e.entropy, e.io);
      AddBlockExternalShape(c, n, e.prevHash, e.txs, e.entropy, e.io);
    }
  }

  // ---------------------------------------------------------------- the balances

  // The balances after an adoption: those of the replay, or those of before.
  function StateAfter(c: Primitives, n: Node, vs: Validators, chain: seq<Block>): State {
    match Replay(c, n.genesis, KeysOf(vs), chain)
    case Err(_) => n.state
    case Ok(s) => s
  }

  ghost predicate StateStep(c: Primitives, n: Node, m: Node) {
    m.genesis == n.genesis && m.state == if m.chain == n.chain then n.state else StateAfter(c, n, n.validators, m.chain)
  }

  lemma AcceptState(c: Primitives, n: Node, b: Block)
    requires Good(c, n) && Sane(n) && Admissible(c, n, b) && Storable(n, b)
    ensures StateStep(c, n, Accept(c, n, b).node)
  {
    hide Good, Sane, Inv, Admissible, Storable, Rewarded, ProcessMissed, Equivocates, Advances, MovesTip, DrawnFrom,
      Accounts, Replay;
    GoodInv(c, n);
    InsertInv(c, n, b);
    StorableProducer(n, b);
    RewardedState(c, n, b);
    ProcessMissedState(c, Rewarded(c, n, b), TipSlot(Rewarded(c, n, b).chain));
  }

  lemma ProcessMissedState(c: Primitives, n: Node, target: nat)
    requires n.cfg.epochLength > 0
    ensures var m := ProcessMissed(c, n, target);
      m.genesis == n.genesis && m.state == n.state && m.chain == n.chain
  {
    hide JudgeUpTo;
  }

  lemma RewardedState(c: Primitives, n: Node, b: Block)
    requires Sane(n) && Storable(n, b) && b.validator in n.validators && b.hash !in n.blocks && !Equivocates(n, b)
    ensures StateStep(c, n, Rewarded(c, n, b))
  {
    hide Sane, Adopts, TakeSnapshot, Path, Replay, SlotMap, Equivocates, Stored, Extends;
    StoredSane(n, b);
    StoredStats(n, b);
    StoredSide(n, b);
    var n2 := Stored(n, b);
    EnsureSnapshotSane(n2, 0);
    if Adopts(EnsureSnapshot(n2, 0), b.hash) {
      AdoptSane(c, EnsureSnapshot(n2, 0), b.hash);
      TipInTree(Adopt(c, EnsureSnapshot(n2, 0), b.hash));
      TipInTree(n);
    }
  }

  lemma StoredSide(n: Node, b: Block)
    requires b.validator in n.validators
    ensures Stored(n, b).state == n.state && Stored(n, b).genesis == n.genesis
  {
  }

  lemma ShapedState(c: Primitives, n: Node, m: Node)
    requires Shaped(c, n, m)
    ensures StateStep(c, n, m)
  {
    hide Good, Sane, Admissible, Storable, Accept, Replay, KeysOf;
    if !Refused(n, m) {
      var saved, b :| Taken(c, n, m, saved, b);
      AcceptState(c, saved, b);
    }
  }

  lemma StepState(c: Primitives, n: Node, e: Event, m: Node)
    requires Good(c, n) && Sane(n) && Step(c, n, e, m) && !e.BalanceSet?
    ensures StateStep(c, n, m)
  {
    hide Good, Sane, Step, Shaped, Replay;
    if e.BlockAdded? || e.ExternalBlockAdded? {
      StepShape(c, n, e, m);
      ShapedState(c, n, m);
    } else {
      OtherStep(c, n, e, m);
    }
  }

  lemma OtherStep(c: Primitives, n: Node, e: Event, m: Node)
    requires Sane(n) && Step(c, n, e, m) && !e.BalanceSet? && !e.BlockAdded? && !e.ExternalBlockAdded?
    ensures m.state == n.state && m.genesis == n.genesis && m.chain == n.chain
  {
    hide Sane, CollisionFree, Mempool.Adds, Register, RegisterStats;
  }
}
