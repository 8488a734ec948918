// When the snapshot of an epoch is taken: over every run, with the start of the
// epoch's first slot and not before.
module Epochs {
  import opened Domain
  import opened Crypto
  import opened Poh
  import opened Ledger
  import opened Stake
  import opened Mempool
  import opened Tree
  import opened Storage
  import opened Engine
  import opened Invariant
  import opened ForkChoice
  import opened Misses
  import opened Steps
  import opened Production
  import opened Runs
  import opened Theorems
  import opened Liveness
  import opened Upkeep

  // No snapshot is ahead of the clock.
  ghost predicate InTime(n: Node) {
    forall e :: e in n.snapshots ==> e * n.cfg.epochLength <= SlotOf(n.poh.tick)
  }

  lemma EnsuredInTime(n: Node, e: nat)
    requires InTime(n) && e * n.cfg.epochLength <= SlotOf(n.poh.tick)
    ensures InTime(EnsureSnapshot(n, e))
  {
    hide TakeSnapshot;
  }

  lemma SlotsGrow(tick: nat)
    ensures SlotOf(tick) <= SlotOf(tick + TICKS_PER_SLOT)
  {
  }

  lemma StartInTime(c: Primitives, n: Node)
    requires InTime(n) && n.cfg.epochLength > 0
    ensures InTime(StartSlot(c, n))
  {
    hide TakeSnapshot, EnsureSnapshot, Advance, SlotOf;
    var tick := n.poh.tick + TICKS_PER_SLOT;
    SlotsGrow(n.poh.tick);
    EnsuredInTime(n.(poh := PohState(tick, Advance(c, n.poh.hash, n.poh.tick, tick))),
      SlotOf(tick) / n.cfg.epochLength);
  }

  lemma AcceptInTime(c: Primitives, n: Node, b: Block)
    requires Good(c, n) && Sane(n) && Admissible(c, n, b) && Storable(n, b) && InTime(n)
    ensures InTime(Accept(c, n, b).node)
  {
    hide Good, Sane, Admissible, Storable, Accept, TakeSnapshot, EnsureSnapshot, RegisterProducer, MovesTip, DrawnFrom,
      JudgesJustly, KeepsFinal;
    StorableProducer(n, b);
    AcceptSnapshots(c, n, b);
    AcceptKeeps(c, n, b);
    EnsuredInTime(Stored(n, b), 0);
  }

  lemma SavedInTime(c: Primitives, n: Node, b: Block, io: WriteOutcome)
    requires Good(c, n) && Sane(n) && Admissible(c, n, b) && Storable(n, b) && InTime(n)
    ensures InTime(SaveAndAccept(c, n, b, io).node)
  {
    hide Good, Sane, Accept, Admissible, Storable, Save, InTime, StepOk;
    var saved := Save(n, b, io);
    SaveStorable(n, b, io);
    SavedAdmissible(c, n, saved, b);
    SavedGood(c, n, b, io);
    PoolUnread(n, saved);
    AcceptInTime(c, saved, b);
  }

  lemma ProduceInTime(c: Primitives, n: Node, parent: Block, base: Result<State, TxError>, leader: string,
                      txs: seq<Transaction>, entropy: nat, io: WriteOutcome)
    requires Good(c, n) && Sane(n) && HasSnapshot(n.snapshots, n.cfg.epochLength, SlotOf(n.poh.tick))
    requires (forall h :: h in n.blocks ==> n.blocks[h].tick < n.poh.tick)
    requires parent.hash in n.blocks && n.blocks[parent.hash] == parent
    requires BuildFresh(c, n, parent, base, leader, txs, entropy) && InTime(n)
    ensures InTime(Produce(c, n, parent, base, leader, txs, entropy, io).node)
  {
    hide Good, Sane, SaveAndAccept, Build, BuildFresh, Admissible, Storable, HasSnapshot, Slash, InTime;
    SaneEpoch(n);
    if Build(c, n, parent, base, leader, txs, entropy).Ok? {
      var b := Build(c, n, parent, base, leader, txs, entropy).value;
      BuiltIsAdmissible(c, n, parent, base, leader, txs, entropy);
      SavedInTime(c, n, b, io);
    } else {
      PoolUnread(n, SlashLeader(n, leader));
    }
  }

  lemma StepInTime(c: Primitives, n: Node, e: Event, m: Node)
    requires Good(c, n) && Sane(n) && CollisionFree(c, n, e) && Next(c, n, e, m) && InTime(n)
    ensures InTime(m)
  {
    hide Good, Sane, CollisionFree, AddBlockFresh, AddBlockExternalFresh, Produce, BuildFresh, StartSlot, TakeBody,
      Body, LeaderAt, HasSnapshot, DrawnFrom, Adds, Register, StateAtTip, InTime, StepOk, TreeInv;
    SaneTree(n);
    StartSlotSane(c, n);
    var n1 := StartSlot(c, n);
    StartInTime(c, n);
    match e
    case BlockAdded(txs, entropy, io) =>
      AddBlockKeeps(c, n, txs, entropy, io);
      TipStart(c, n, txs);
      FreshBuild(c, n, txs, entropy);
      PoolUnread(n1, TakeBody(c, n1, txs));
      ProduceInTime(c, TakeBody(c, n1, txs), n.blocks[n.tip], Ok(n.state), CurrentLeader(c, n1), Body(c, n1, txs),
        entropy, io);
    case ExternalBlockAdded(prevHash, txs, entropy, io) =>
      AddBlockExternalKeeps(c, n, prevHash, txs, entropy, io);
      if prevHash in n.blocks {
        ExternalStart(c, n, prevHash);
        FreshExternal(c, n, prevHash, txs, entropy);
        ProduceInTime(c, n1, n.blocks[prevHash], StateAtTip(c, n, prevHash), CurrentLeader(c, n1), txs, entropy, io);
      }
    case _ =>
      PoolUnread(n, m);
  }

  lemma PoolUnread(n: Node, m: Node)
    requires InTime(n) && m.snapshots == n.snapshots && m.poh == n.poh && m.cfg == n.cfg
    ensures InTime(m)
  {
  }

  lemma NoneIsInTime(n: Node)
    requires n.snapshots == map[]
    ensures InTime(n)
  {
  }

  lemma {:induction false} RunInTime(c: Primitives, ns: seq<Node>, es: seq<Event>, i: nat)
    requires |ns| > 0 && Fresh(c, ns[0]) && Run(c, ns[0], ns, es) && i < |ns|
    ensures InTime(ns[i])
  {
    hide Good, Sane, Fresh, StepOk, CollisionFree, Next, InTime;
    if i == 0 {
      FreshEmpty(c, ns[0]);
      NoneIsInTime(ns[0]);
    } else {
      RunInTime(c, ns, es, i - 1);
      RunSteps(c, ns, es, i - 1);
      assert Step(c, ns[i - 1], es[i - 1], ns[i]);
      StepInTime(c, ns[i - 1], es[i - 1], ns[i]);
    }
  }

  // In every state: an epoch after the first has its snapshot exactly when its
  // first slot has been started, and the first one when a slot of it has.
  lemma SnapshotsInTime(c: Primitives, ns: seq<Node>, es: seq<Event>, i: nat, epoch: nat)
    requires |ns| > 0 && Fresh(c, ns[0]) && Run(c, ns[0], ns, es) && i < |ns|
    ensures var length, slot := ns[i].cfg.epochLength, SlotOf(ns[i].poh.tick);
      && length > 0
      && (epoch > 0 ==> (epoch in ns[i].snapshots <==> epoch * length <= slot))
      && (length > 1 && slot > 0 ==> 0 in ns[i].snapshots)
  {
    hide Run, Fresh, Good, SlotOf, IsTree, Path, Registry, Clocked;
    RunGood(c, ns, es, i);
    RunInTime(c, ns, es, i);
    var n := ns[i];
    if epoch > 0 && epoch * n.cfg.epochLength <= SlotOf(n.poh.tick) {
      FirstOfEpoch(epoch, n.cfg.epochLength);
      assert HasSnapshot(n.snapshots, n.cfg.epochLength, epoch * n.cfg.epochLength);
    }
    if n.cfg.epochLength > 1 && SlotOf(n.poh.tick) > 0 {
      assert HasSnapshot(n.snapshots, n.cfg.epochLength, 1);
    }
  }

  lemma FirstOfEpoch(epoch: nat, length: nat)
    requires epoch > 0 && length > 0
    ensures epoch * length >= 1 && epoch * length / length == epoch
  {
    DivExact(length, epoch, 0);
  }
}
