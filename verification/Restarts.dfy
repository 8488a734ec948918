// Restarts over whole runs: what each step saves, and whether a new engine would
// get the canonical chain back.
module Restarts {
  import opened Domain
  import opened Crypto
  import opened Ledger
  import opened Stake
  import opened Tree
  import opened Storage
  import opened Engine
  import opened Invariant
  import opened Misses
  import opened Steps
  import opened Production
  import opened Runs
  import opened Liveness
  import opened Upkeep
  import opened Theorems
  import opened Replays
  import opened Recovery

  // ----------------------------------------------------------- what a step saves

  // One block was saved, and the canonical chain is as it was or the path to
  // its parent and the block.
  ghost predicate SavedOne(n: Node, m: Node, b: Block, io: WriteOutcome)
    requires Sane(n)
  {
    && n.store.Some? && m.store == Some(SaveBlock(n.store.value, b, io))
    && Extends(n.blocks, b) && b.hash !in n.blocks && b.hash != "" && b.hash != GENESIS_PARENT
    && (m.blocks == n.blocks || (io.BothWritten? && m.blocks == n.blocks[b.hash := b]))
    && (m.chain == n.chain || (io.BothWritten? && m.chain == Path(n.blocks, n.chain[0], b.prevHash) + [b]))
  }

  // At most one block, on top of at, and without one the chain stays.
  ghost predicate StoreStep(n: Node, at: string, m: Node)
    requires Sane(n)
  {
    || (m.store == n.store && m.blocks == n.blocks && m.chain == n.chain)
    || exists b, io :: SavedOne(n, m, b, io) && b.prevHash == at
  }

  // The chain after a block was taken in: the same, or the path to it.
  lemma AcceptChain(c: Primitives, n: Node, b: Block)
    requires Good(c, n) && Sane(n) && Admissible(c, n, b) && Storable(n, b)
    ensures Extends(n.blocks, b) && b.hash !in n.blocks && b.hash != "" && b.hash != GENESIS_PARENT
    ensures var m := Accept(c, n, b).node;
      && m.store == n.store && m.blocks == n.blocks[b.hash := b]
      && m.chain == if m.tip == n.tip then n.chain else Path(n.blocks, n.chain[0], b.prevHash) + [b]
  {
    hide Good, Inv, Admissible, Adopts, Accept, Path, Registry, Covered, Clocked, EnsureSnapshot, Stored, StepOk;
    AcceptEffects(c, n, b);
    AcceptKeeps(c, n, b);
    var m := Accept(c, n, b).node;
    StepKeepsRoot(c, n, m);
    PathOfNew(n.blocks, n.chain[0], b);
    PathStable(n.blocks, n.blocks[b.hash := b], n.chain[0], n.tip);
  }

  lemma PathOfNew(blocks: Blocks, g: Block, b: Block)
    requires IsTree(blocks, g) && Extends(blocks, b) && b.hash !in blocks && b.hash != "" && b.hash != GENESIS_PARENT
    ensures IsTree(blocks[b.hash := b], g) && b.prevHash in blocks
    ensures Path(blocks[b.hash := b], g, b.hash) == Path(blocks, g, b.prevHash) + [b]
  {
    hide Path, IsTree;
    InsertKeepsTree(blocks, g, b);
  }

  lemma StepKeepsRoot(c: Primitives, n: Node, m: Node)
    requires StepOk(c, n, m)
    ensures Sane(m) && n.chain != [] && m.chain != [] && m.chain[0] == n.chain[0]
  {
    hide Good, Sane, MovesTip;
  }

  lemma SaveAndAcceptStores(c: Primitives, n: Node, b: Block, io: WriteOutcome)
    requires Good(c, n) && Sane(n) && Admissible(c, n, b) && Storable(n, b) && n.store.Some?
    ensures b.hash !in n.blocks && SavedOne(n, SaveAndAccept(c, n, b, io).node, b, io)
  {
    hide Good, Sane, Admissible, Accept, SaveBlock, Storable, Path;
    SaveStorable(n, b, io);
    SavedAdmissible(c, n, Save(n, b, io), b);
    SavedGood(c, n, b, io);
    AcceptChain(c, Save(n, b, io), b);
  }

  lemma ProduceStores(c: Primitives, n: Node, parent: Block, base: Result<State, TxError>, leader: string,
                      txs: seq<Transaction>, entropy: nat, io: WriteOutcome)
    requires Good(c, n) && Sane(n) && HasSnapshot(n.snapshots, n.cfg.epochLength, SlotOf(n.poh.tick)) && n.store.Some?
    requires (forall h :: h in n.blocks ==> n.blocks[h].tick < n.poh.tick)
    requires parent.hash in n.blocks && n.blocks[parent.hash] == parent
    requires BuildFresh(c, n, parent, base, leader, txs, entropy)
    ensures StoreStep(n, parent.hash, Produce(c, n, parent, base, leader, txs, entropy, io).node)
  {
    hide Good, Sane, SaveAndAccept, Build, Path, IsTree, Admissible, Storable, HasSnapshot, BuildFresh, SavedOne,
      Slash, StoreStep;
    SaneTree(n);
    if Build(c, n, parent, base, leader, txs, entropy).Ok? {
      BuiltIsAdmissible(c, n, parent, base, leader, txs, entropy);
      var b := Build(c, n, parent, base, leader, txs, entropy).value;
      SaveAndAcceptStores(c, n, b, io);
      StoreSteps(n, SaveAndAccept(c, n, b, io).node, b, io);
    } else {
      StoreStays(n, parent.hash, n);
      StoreStays(n, parent.hash, SlashLeader(n, leader));
    }
  }

  lemma StoreSteps(n: Node, m: Node, b: Block, io: WriteOutcome)
    requires Sane(n) && SavedOne(n, m, b, io)
    ensures StoreStep(n, b.prevHash, m)
  {
    hide Sane, SavedOne;
  }

  lemma StoreStays(n: Node, at: string, m: Node)
    requires Sane(n) && m.store == n.store && m.blocks == n.blocks && m.chain == n.chain
    ensures StoreStep(n, at, m)
  {
    hide Sane;
  }

  lemma StoreStepFrom(n: Node, n2: Node, at: string, m: Node)
    requires Sane(n) && Sane(n2) && n2 == n.(poh := n2.poh, snapshots := n2.snapshots, pool := n2.pool)
    requires StoreStep(n2, at, m)
    ensures StoreStep(n, at, m)
  {
    hide Sane, Path, SaveBlock, Extends;
    if !(m.store == n.store && m.blocks == n.blocks && m.chain == n.chain) {
      var b, io :| SavedOne(n2, m, b, io) && b.prevHash == at;
      assert SavedOne(n, m, b, io);
    }
  }

  lemma AddBlockStores(c: Primitives, n: Node, txs: seq<Transaction>, entropy: nat, io: WriteOutcome)
    requires Good(c, n) && Sane(n) && n.store.Some? && AddBlockFresh(c, n, txs, entropy)
    ensures StoreStep(n, n.tip, AddBlock(c, n, txs, entropy, io).node)
  {
    hide Inv, Good, StartSlot, BuildFresh, Produce, TakeBody, Body, Path, IsTree, Sane, LeaderAt, HasSnapshot,
      AddBlockFresh, StoreStep, DrawnFrom;
    SaneTree(n);
    TipStart(c, n, txs);
    FreshBuild(c, n, txs, entropy);
    var n1 := StartSlot(c, n);
    if |n.validators| != 0 {
      ProduceStores(c, TakeBody(c, n1, txs), n.blocks[n.tip], Ok(n.state), CurrentLeader(c, n1), Body(c, n1, txs),
        entropy, io);
      StoreStepFrom(n, TakeBody(c, n1, txs), n.tip, AddBlock(c, n, txs, entropy, io).node);
    } else {
      StoreStays(n, n.tip, n);
    }
  }

  lemma AddBlockExternalStores(c: Primitives, n: Node, prevHash: string, txs: seq<Transaction>, entropy: nat,
                               io: WriteOutcome)
    requires Good(c, n) && Sane(n) && n.store.Some? && AddBlockExternalFresh(c, n, prevHash, txs, entropy)
    ensures StoreStep(n, prevHash, AddBlockExternal(c, n, prevHash, txs, entropy, io).node)
  {
    hide Good, Sane, StartSlot, LeaderAt, Produce, BuildFresh, AddBlockExternalFresh, HasSnapshot, Path, IsTree,
      DrawnFrom, StateAtTip, StoreStep;
    StoreStays(n, prevHash, n);
    if |n.validators| != 0 && prevHash in n.blocks {
      SaneTree(n);
      ExternalStart(c, n, prevHash);
      StartSlotSane(c, n);
      FreshExternal(c, n, prevHash, txs, entropy);
      var n1 := StartSlot(c, n);
      ProduceStores(c, n1, n.blocks[prevHash], StateAtTip(c, n, prevHash), CurrentLeader(c, n1), txs, entropy, io);
      StoreStepFrom(n, n1, prevHash, AddBlockExternal(c, n, prevHash, txs, entropy, io).node);
    }
  }

  // The block that an event builds on, if it builds one.
  function ParentOf(n: Node, e: Event): string {
    if e.ExternalBlockAdded? then e.prevHash else n.tip
  }

  lemma StepStores(c: Primitives, n: Node, e: Event, m: Node)
    requires Good(c, n) && Sane(n) && n.store.Some? && Step(c, n, e, m)
    ensures StoreStep(n, ParentOf(n, e), m)
  {
    hide Good, Sane, Step, CollisionFree, AddBlock, AddBlockExternal, StepOk, AddBlockFresh, AddBlockExternalFresh,
      StoreStep;
    StepTaken(c, n, e, m);
    if e.BlockAdded? {
      AddBlockKeeps(c, n, e.txs, e.entropy, e.io);
      AddBlockStores(c, n, e.txs, e.entropy, e.io);
    } else if e.ExternalBlockAdded? {
      AddBlockExternalKeeps(c, n, e.prevHash, e.txs, e.entropy, e.io);
      AddBlockExternalStores(c, n, e.prevHash, e.txs, e.entropy, e.io);
    } else {
      StoreStays(n, ParentOf(n, e), m);
    }
  }

  lemma StepTaken(c: Primitives, n: Node, e: Event, m: Node)
    requires Sane(n) && Step(c, n, e, m)
    ensures CollisionFree(c, n, e)
    ensures e.BlockAdded? && AddBlockFresh(c, n, e.txs, e.entropy) ==> m == AddBlock(c, n, e.txs, e.entropy, e.io).node
    ensures e.ExternalBlockAdded? && AddBlockExternalFresh(c, n, e.prevHash, e.txs, e.entropy) ==>
      m == AddBlockExternal(c, n, e.prevHash, e.txs, e.entropy, e.io).node
    ensures !e.BlockAdded? && !e.ExternalBlockAdded? ==>
      m.store == n.store && m.blocks == n.blocks && m.chain == n.chain
  {
    hide Sane, CollisionFree, AddBlock, AddBlockExternal, AddBlockFresh, AddBlockExternalFresh, Mempool.Adds,
      Register, RegisterStats, SetBalance;
  }

  // ------------------------------------------------------------- over all runs

  // H0 for the store: no save overwrites another block.
  ghost predicate NoOverwrites(ns: seq<Node>) {
    forall i :: 0 < i < |ns| && ns[i - 1].store.Some? && ns[i].store.Some? ==>
      Grows(ns[i - 1].store.value.blocks, ns[i].store.value.blocks)
  }

  lemma StoreStepTidy(n: Node, at: string, m: Node)
    requires Sane(n) && StoreStep(n, at, m) && n.store.Some? && Tidy(n.store.value)
    requires m.store.Some? ==> Grows(n.store.value.blocks, m.store.value.blocks)
    ensures m.store.Some? && Tidy(m.store.value)
  {
    hide Sane, Path, Tidy;
    if m.store != n.store {
      var b, io :| SavedOne(n, m, b, io) && b.prevHash == at;
      if !io.BlockNotWritten? {
        assert m.store.value.blocks[b.hash] == b;
      }
      SaveTidyIf(n.store.value, b, io);
    }
  }

  lemma SaveTidyIf(s: Store, b: Block, io: WriteOutcome)
    requires Tidy(s) && (io.BlockNotWritten? || Unclashing(s, b))
    ensures Tidy(SaveBlock(s, b, io))
  {
    hide Tidy;
    if !io.BlockNotWritten? {
      SaveTidy(s, b, io);
    }
  }

  lemma {:induction false} RunTidy(c: Primitives, ns: seq<Node>, es: seq<Event>, i: nat)
    requires |ns| > 0 && Fresh(c, ns[0]) && Run(c, ns[0], ns, es) && i < |ns|
    requires ns[0].store.Some? && Tidy(ns[0].store.value) && NoOverwrites(ns)
    ensures ns[i].store.Some? && Tidy(ns[i].store.value)
  {
    hide Fresh, Good, Sane, Step, StoreStep, Tidy;
    if i > 0 {
      RunTidy(c, ns, es, i - 1);
      RunGood(c, ns, es, i - 1);
      assert Step(c, ns[i - 1], es[i - 1], ns[i]);
      StepStores(c, ns[i - 1], es[i - 1], ns[i]);
      StoreStepTidy(ns[i - 1], ParentOf(ns[i - 1], es[i - 1]), ns[i]);
    }
  }

  // The path to h is on record, and no block was saved above the one that would
  // follow h.
  ghost predicate Ready(n: Node, h: string)
    requires Sane(n)
  {
    && n.store.Some? && h in n.blocks && Indexes(n.store.value, Path(n.blocks, n.chain[0], h))
    && n.blocks[h].index + 1 >= n.store.value.tipHeight
  }

  lemma SavedOneHolds(n: Node, m: Node, b: Block, io: WriteOutcome)
    requires Sane(n) && SavedOne(n, m, b, io) && Tidy(n.store.value) && Chainlike(m.chain) && Chainlike(n.chain)
    requires Grows(n.store.value.blocks, m.store.value.blocks)
    requires forall i :: 0 <= i < |n.chain| ==> n.chain[i].hash in n.blocks
    ensures m.chain != n.chain ==>
      (Holds(m.store.value, m.chain) <==> Ready(n, b.prevHash))
    ensures m.chain == n.chain && m.store != n.store ==> !Holds(m.store.value, m.chain)
  {
    hide Sane, Path, Tidy, Holds, Chainlike, Indexes, IsTree;
    SaneTree(n);
    if !io.BlockNotWritten? {
      assert m.store.value.blocks[b.hash] == b;
      if m.chain == n.chain {
        SavedAside(n.store.value, b, io, m.chain);
      } else {
        var q := Path(n.blocks, n.chain[0], b.prevHash);
        LastIndex(q, b);
        SaveHolds(n.store.value, b, q);
      }
    }
  }

  // Exactly when a restart would lose the chain, for any calls of AddBlock and
  // AddBlockExternal. After an adoption the store holds the canonical chain if
  // and only if, before the call, the path to the parent was on record and no
  // higher block had been saved. After any other save it does not; and without
  // one nothing changes.
  lemma HoldsExactly(c: Primitives, ns: seq<Node>, es: seq<Event>, i: nat)
    requires |ns| > 0 && Fresh(c, ns[0]) && Run(c, ns[0], ns, es) && i + 1 < |ns|
    requires ns[0].store.Some? && Tidy(ns[0].store.value) && NoOverwrites(ns)
    ensures |ns| == |es| + 1 && Sane(ns[i]) && ns[i].store.Some? && ns[i + 1].store.Some?
    ensures var s, t, before, after := ns[i].store.value, ns[i + 1].store.value, ns[i].chain, ns[i + 1].chain;
      && (after != before ==> (Holds(t, after) <==> Ready(ns[i], ParentOf(ns[i], es[i]))))
      && (after == before && t != s ==> !Holds(t, after))
  {
    hide Run, Fresh, Inv, Accounts, Sane, Step, SavedOne, Tidy, Holds, Indexes, Chainlike, Grows;
    RunTidy(c, ns, es, i);
    RunTidy(c, ns, es, i + 1);
    RunSteps(c, ns, es, i);
    RunStores(c, ns, es, i);
    ChainIsChainlike(c, ns[i]);
    ChainIsChainlike(c, ns[i + 1]);
    ChainStored(ns[i]);
    if ns[i + 1].store != ns[i].store || ns[i + 1].blocks != ns[i].blocks || ns[i + 1].chain != ns[i].chain {
      var b, io :| SavedOne(ns[i], ns[i + 1], b, io) && b.prevHash == ParentOf(ns[i], es[i]);
      SavedOneHolds(ns[i], ns[i + 1], b, io);
    }
  }

  lemma RunStores(c: Primitives, ns: seq<Node>, es: seq<Event>, i: nat)
    requires |ns| > 0 && Fresh(c, ns[0]) && Run(c, ns[0], ns, es) && i + 1 < |ns| && ns[i].store.Some?
    ensures |ns| == |es| + 1 && Sane(ns[i]) && StoreStep(ns[i], ParentOf(ns[i], es[i]), ns[i + 1])
  {
    hide Fresh, Good, Sane, Step, StoreStep;
    RunGood(c, ns, es, i);
    assert Step(c, ns[i], es[i], ns[i + 1]);
    StepStores(c, ns[i], es[i], ns[i + 1]);
  }

  lemma ChainStored(n: Node)
    requires Sane(n)
    ensures forall i :: 0 <= i < |n.chain| ==> n.chain[i].hash in n.blocks
  {
    hide Path, Registry, Covered, Clocked;
    PathLinked(n.blocks, n.chain[0], n.tip);
  }

  // ----------------------------------------------------- what a restart gives

  // A new engine whose store holds its genesis block, which is where StartNode in
  // Core begins on an empty directory.
  ghost predicate FreshWithStore(c: Primitives, n: Node) {
    exists cfg, seed :: n == NewNode(c, cfg, seed, Some(SaveBlock(EMPTY_STORE, GenesisBlock(c, seed), BothWritten)))
  }

  // A store that has been there from the start: it agrees with the tree, it holds
  // a block at every height of the tree, and whatever it holds has its parent in
  // the tree.
  ghost predicate Filled(s: Store, blocks: Blocks) {
    && Stacked(s) && s.tipHash != ""
    && (forall i :: 0 <= i <= s.tipHeight ==> i in s.heightToHash)
    && (forall h :: h in s.blocks ==> s.blocks[h].prevHash == GENESIS_PARENT || s.blocks[h].prevHash in blocks)
    && (forall h :: h in s.blocks && h in blocks ==> s.blocks[h] == blocks[h])
    && (forall h :: h in blocks ==> blocks[h].index <= s.tipHeight)
  }

  lemma FilledSave(s: Store, blocks: Blocks, b: Block, io: WriteOutcome, after: Blocks)
    requires Filled(s, blocks) && Unclashing(s, b) && !io.BlockNotWritten?
    requires Extends(blocks, b) && b.hash !in blocks && b.hash != "" && b.hash != GENESIS_PARENT
    requires after == blocks || after == blocks[b.hash := b]
    ensures Filled(SaveBlock(s, b, io), after)
  {
    hide Stacked;
    SaveStacked(s, b, io) by { StackedParent(s, blocks, b); }
  }

  lemma StackedParent(s: Store, blocks: Blocks, b: Block)
    requires Filled(s, blocks) && Extends(blocks, b) && b.hash !in blocks && b.hash != GENESIS_PARENT
    ensures b.prevHash != b.hash && (b.prevHash in s.blocks ==> s.blocks[b.prevHash].index + 1 == b.index)
    ensures forall h :: h in s.blocks ==> s.blocks[h].prevHash != b.hash
  {
    hide Stacked;
  }

  lemma FilledStep(n: Node, at: string, m: Node)
    requires Sane(n) && n.store.Some? && Filled(n.store.value, n.blocks) && StoreStep(n, at, m)
    requires m.store.Some? ==> Grows(n.store.value.blocks, m.store.value.blocks)
    ensures m.store.Some? && Filled(m.store.value, m.blocks)
  {
    hide Sane, Path, Filled, Extends;
    if !(m.store == n.store && m.blocks == n.blocks && m.chain == n.chain) {
      var b, io :| SavedOne(n, m, b, io) && b.prevHash == at;
      if !io.BlockNotWritten? {
        assert m.store.value.blocks[b.hash] == b;
        FilledSave(n.store.value, n.blocks, b, io, m.blocks);
      }
    }
  }

  lemma FilledRange(s: Store, blocks: Blocks)
    requires Filled(s, blocks)
    ensures Stacked(s) && GetTip(s).Some? && !Gap(s)
  {
    forall h | 0 <= h <= s.tipHeight ensures AtHeight(s, h).Some? {
      assert h in s.heightToHash;
    }
  }

  lemma {:induction false} RunFilled(c: Primitives, ns: seq<Node>, es: seq<Event>, i: nat)
    requires |ns| > 0 && FreshWithStore(c, ns[0]) && Run(c, ns[0], ns, es) && NoOverwrites(ns) && i < |ns|
    ensures Fresh(c, ns[0]) && ns[i].store.Some? && Filled(ns[i].store.value, ns[i].blocks)
  {
    hide FreshWithStore, Fresh, Run, Sane, StoreStep, Filled, Recorded, Synced;
    FreshRecorded(c, ns[0]);
    if i > 0 {
      RunFilled(c, ns, es, i - 1);
      RunStores(c, ns, es, i - 1);
      FilledStep(ns[i - 1], ParentOf(ns[i - 1], es[i - 1]), ns[i]);
    }
  }

  // In every state of every run with a store, a new engine that is restored from
  // it gets the canonical chain back, with all that hangs on it, if and only if
  // the store holds it; HoldsExactly says when it does.
  lemma RestartIff(c: Primitives, ns: seq<Node>, es: seq<Event>, i: nat, r: Node)
    requires |ns| > 0 && FreshWithStore(c, ns[0]) && Run(c, ns[0], ns, es) && NoOverwrites(ns) && i < |ns|
    requires r.finalized == 0 && r.cfg.finalitySlots == ns[i].cfg.finalitySlots
    ensures ns[i].store.Some? && GetTip(ns[i].store.value).Some? && !Gap(ns[i].store.value)
    ensures var n, m := ns[i], Restored(c, r, RangeOf(ns[i].store.value));
      && (m.chain == n.chain <==> Holds(n.store.value, n.chain))
      && (m.chain == n.chain ==> m.tip == n.tip && m.slotProduced == n.slotProduced && m.finalized == n.finalized)
  {
    hide FreshWithStore, Fresh, Run, Inv, Accounts, Filled, Stacked, Restored, Holds, RangeOf, Gap, GetTip, Path,
      IsTree;
    RunFilled(c, ns, es, i);
    FilledRange(ns[i].store.value, ns[i].blocks);
    RunGood(c, ns, es, i);
    ChainIsChainlike(c, ns[i]);
    OnlyHeldComesBack(c, ns[i].store.value, r, ns[i].chain);
    if Holds(ns[i].store.value, ns[i].chain) {
      RoundTrip(c, ns[i], r);
    }
  }

  // The balances come back too, in an orderly state, if the new engine was first given
  // the same genesis balances and validators with the same keys; they are not in the
  // store. Without those it has what a replay from its own genesis balances gives, and
  // its own balances when that replay fails.
  lemma BalancesBack(c: Primitives, n: Node, r: Node)
    requires Ledgered(c, n) && Registered(n.keys, n.validators) && Chainlike(n.chain)
    ensures var m := Restored(c, r, n.chain);
      && (r.genesis == n.genesis && KeysOf(r.validators) == KeysOf(n.validators) ==> m.state == n.state)
      && var replayed := Replay(c, r.genesis, KeysOf(r.validators), n.chain);
        m.state == if replayed.Ok? then replayed.value else r.state
  {
    hide Sane, Vetted, Replay, KeysOf, Path, IsTree, SlotMap, BlocksOf, Finality, LinkedFrom, Registered;
    SaneTree(n);
    WholeChain(n.chain);
    ReplayWithRegistry(c, n, n.tip);
  }

  lemma RunBalancesBack(c: Primitives, ns: seq<Node>, es: seq<Event>, i: nat, r: Node)
    requires |ns| > 0 && Fresh(c, ns[0]) && Run(c, ns[0], ns, es) && Orderly(ns, es) && i < |ns|
    requires Registered(ns[i].keys, ns[i].validators)
    requires ns[i].store.Some? && Holds(ns[i].store.value, ns[i].chain)
    requires r.genesis == ns[i].genesis && KeysOf(r.validators) == KeysOf(ns[i].validators)
    ensures GetTip(ns[i].store.value).Some? && !Gap(ns[i].store.value)
    ensures Restored(c, r, RangeOf(ns[i].store.value)).state == ns[i].state
  {
    hide Run, Fresh, Orderly, Good, Ledgered, Registered, Restored, Chainlike, KeysOf, Replay, RangeOf, Holds, Gap,
      GetTip;
    RunLedgered(c, ns, es, i);
    HeldIsRange(ns[i].store.value, ns[i].chain);
    BalancesBack(c, ns[i], r);
  }

  // ------------------------------------------------------------ runs of AddBlock

  // The store has the canonical chain, and at most one block above it.
  ghost predicate Recorded(n: Node) {
    n.store.Some? && Records(n.store.value, n.chain)
  }

  // And the last block saved was adopted.
  ghost predicate Synced(n: Node) {
    n.store.Some? && EndsWith(n.store.value, n.chain)
  }

  lemma RecordHolds(c: Primitives, n: Node)
    requires Inv(c, n) && Recorded(n) && Synced(n)
    ensures Holds(n.store.value, n.chain)
  {
    hide Inv, Linked, IsGenesis;
    ChainIsChainlike(c, n);
    NonEmpty(n.chain);
    assert AtHeight(n.store.value, |n.chain| - 1) == Some(n.chain[|n.chain| - 1]);
  }

  lemma ExtendsChain(n: Node, b: Block)
    requires Sane(n) && Extends(n.blocks, b) && b.hash !in n.blocks && b.prevHash == n.tip
    ensures b.index == |n.chain| && forall i :: 0 <= i < |n.chain| ==> n.chain[i].hash != b.hash
  {
    hide Registry, Covered, Clocked, Path;
    PathLinked(n.blocks, n.chain[0], n.tip);
  }

  // One block on the tip: the record is kept, and is up to date if the tip moved.
  lemma StoreStepRecords(n: Node, m: Node)
    requires Sane(n) && Recorded(n) && StoreStep(n, n.tip, m)
    ensures Recorded(m) && (m.chain != n.chain ==> Synced(m))
  {
    hide Sane, Records, EndsWith, SaveBlock, Path, Extends;
    if !(m.store == n.store && m.blocks == n.blocks && m.chain == n.chain) {
      var b, io :| SavedOne(n, m, b, io) && b.prevHash == n.tip;
      ExtendsChain(n, b);
      SaveRecords(n.store.value, n.chain, b, io);
      assert Path(n.blocks, n.chain[0], n.tip) == n.chain by { ChainPath(n); }
    }
  }

  lemma ChainPath(n: Node)
    requires Sane(n)
    ensures n.tip in n.blocks && n.chain != [] && IsTree(n.blocks, n.chain[0])
    ensures Path(n.blocks, n.chain[0], n.tip) == n.chain
  {
    hide Path, IsTree;
  }

  lemma FreshRecorded(c: Primitives, n: Node)
    requires FreshWithStore(c, n)
    ensures Fresh(c, n) && n.store.Some? && Recorded(n) && Synced(n) && Filled(n.store.value, n.blocks)
  {
    hide GenesisBlock, Defaulted;
    var cfg, seed :| n == NewNode(c, cfg, seed, Some(SaveBlock(EMPTY_STORE, GenesisBlock(c, seed), BothWritten)));
    GenesisFirst(c, seed);
  }

  lemma GenesisFirst(c: Primitives, seed: Digest)
    ensures var g := GenesisBlock(c, seed); g.index == 0 && g.prevHash == GENESIS_PARENT && |g.hash| == 64
  {
    hide HashBlock;
  }

  lemma {:induction false} RunRecords(c: Primitives, ns: seq<Node>, es: seq<Event>, i: nat)
    requires |ns| > 0 && FreshWithStore(c, ns[0]) && Run(c, ns[0], ns, es) && i < |ns|
    requires forall k :: 0 <= k < |es| ==> !es[k].ExternalBlockAdded?
    ensures Fresh(c, ns[0]) && Recorded(ns[i])
    ensures i > 0 && ns[i].chain != ns[i - 1].chain ==> Synced(ns[i])
  {
    hide FreshWithStore, Fresh, Good, Run, Recorded, Synced, Sane, StoreStep;
    FreshRecorded(c, ns[0]);
    if i > 0 {
      RunRecords(c, ns, es, i - 1);
      RecordedStore(ns[i - 1]);
      RunStores(c, ns, es, i - 1);
      StoreStepRecords(ns[i - 1], ns[i]);
    }
  }

  lemma RecordedStore(n: Node)
    requires Recorded(n)
    ensures n.store.Some?
  {
  }

  // In every run that uses AddBlock alone, right after a block was adopted, the
  // store gives the canonical chain back, whatever blocks the weight rule had
  // refused or whatever writes had failed before, and whatever the store
  // overwrites.
  lemma RestoreAfterAdoption(c: Primitives, ns: seq<Node>, es: seq<Event>, i: nat, r: Node)
    requires |ns| > 0 && FreshWithStore(c, ns[0]) && Run(c, ns[0], ns, es) && 0 < i < |ns|
    requires forall k :: 0 <= k < |es| ==> !es[k].ExternalBlockAdded?
    requires ns[i].chain != ns[i - 1].chain
    requires r.finalized == 0 && r.cfg.finalitySlots == ns[i].cfg.finalitySlots
    ensures ns[i].store.Some? && GetTip(ns[i].store.value).Some? && !Gap(ns[i].store.value)
    ensures var m := Restored(c, r, RangeOf(ns[i].store.value));
      m.chain == ns[i].chain && m.tip == ns[i].tip && m.slotProduced == ns[i].slotProduced
        && m.finalized == ns[i].finalized
  {
    hide FreshWithStore, Fresh, Run, Inv, Accounts, Recorded, Synced, Restored, Holds, RangeOf, Gap, GetTip, Path,
      IsTree;
    RunRecords(c, ns, es, i);
    RunGood(c, ns, es, i);
    RecordedStore(ns[i]);
    RecordHolds(c, ns[i]);
    RoundTrip(c, ns[i], r);
  }
}
