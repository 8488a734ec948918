// When a new block becomes the canonical tip, on whatever stored block it was
// built: the exact condition of updateCanonical, in the terms of its documentation.
module Reorgs {
  import opened Domain
  import opened Crypto
  import opened Ledger
  import opened Stake
  import opened Tree
  import opened Storage
  import opened Engine
  import opened Invariant
  import opened ForkChoice
  import opened Misses
  import opened Steps
  import opened Production
  import opened Runs
  import opened Theorems
  import opened Liveness
  import opened Upkeep
  import opened Restarts
  import opened Adoptions
  import opened Solo
  import opened Repeats
  import opened NewBlocks

  // With the tip of n, and by what m has stored, block h takes the lead: it weighs
  // no less than that tip, none of the blocks abandoned for it is finalised, there
  // are no more of them than allowed, and with a percentage it weighs that share of
  // the active stake more, and 1 at least. (It is later than the tip, so that equal
  // weights are enough without a percentage.)
  ghost predicate TakesOver(n: Node, m: Node, h: string)
    requires Sane(m) && h in m.blocks && n.tip in m.blocks
    requires TipSlot(n.chain) / m.cfg.epochLength in m.snapshots
  {
    var abandoned := Abandoned(m.blocks, m.chain[0], n.tip, h);
    var active := m.snapshots[TipSlot(n.chain) / m.cfg.epochLength].totalStake;
    var share := active * m.cfg.minReorgWeightDeltaP / 100;
    && Score(m, h).weight >= Score(m, n.tip).weight
    && (forall b :: b in abandoned ==> b.slot > FinalOf(TipSlot(n.chain), m.cfg.finalitySlots))
    && |abandoned| <= m.cfg.maxReorgDepth
    && (m.cfg.minReorgWeightDeltaP > 0 ==>
         Score(m, h).weight - Score(m, n.tip).weight >= if share > 1 then share else 1)
  }

  lemma AbandonedAreLate(n: Node, h: string)
    requires Sane(n) && h in n.blocks && n.blocks[n.tip].slot < n.blocks[h].slot
    requires n.finalized <= TipSlot(n.chain)
    ensures n.finalized > 0 && DivergeSlot(n.chain, Path(n.blocks, n.chain[0], h)) <= n.finalized <==>
      exists b :: b in Abandoned(n.blocks, n.chain[0], n.tip, h) && b.slot <= n.finalized
  {
    hide Path, Registry, Covered, Clocked, IsTree;
    var next := Path(n.blocks, n.chain[0], h);
    PathLinked(n.blocks, n.chain[0], n.tip);
    PathLinked(n.blocks, n.chain[0], h);
    PathPrefixRoot(n, h);
    assert n.chain[0].hash == next[0].hash;
    var d := Diverge(n.chain, next);
    forall b ensures b in Abandoned(n.blocks, n.chain[0], n.tip, h) <==> b in n.chain[d..] {
      AbandonedIsTail(n.blocks, n.chain[0], n.tip, h, b);
    }
    TipIsLast(n, n.tip);
    TipIsLast(n, h);
    forall i | 0 <= i < d ensures n.chain[i] == next[i] {
      assert n.chain[i].hash == next[i].hash;
    }
    LateTail(n.chain, next, d, n.finalized);
  }

  lemma LateTail(a: seq<Block>, b: seq<Block>, d: nat, finalized: nat)
    requires a != [] && b != [] && Linked(a) && Linked(b) && a[0].hash == b[0].hash && d == Diverge(a, b)
    requires forall i :: 0 <= i < d ==> a[i] == b[i]
    requires TipSlot(a) < TipSlot(b) && finalized <= TipSlot(a)
    ensures finalized > 0 && DivergeSlot(a, b) <= finalized <==> exists x :: x in a[d..] && x.slot <= finalized
  {
    hide Linked, Diverge, TipSlot;
    SharedRoot(a, b);
    if d < |a| {
      TailIsLater(a, d);
    } else {
      assert a[d..] == [];
      TailOfLonger(a, b, d);
    }
  }

  lemma SharedRoot(a: seq<Block>, b: seq<Block>)
    requires a != [] && b != [] && a[0].hash == b[0].hash
    ensures Diverge(a, b) >= 1
  {
  }

  lemma TailIsLater(a: seq<Block>, d: nat)
    requires Linked(a) && 1 <= d < |a|
    ensures a[d].slot > 0 && a[d] in a[d..] && forall x :: x in a[d..] ==> a[d].slot <= x.slot
  {
    assert a[0].slot < a[d].slot;
    assert a[d..][0] == a[d];
    forall x | x in a[d..] ensures a[d].slot <= x.slot {
      var j :| 0 <= j < |a[d..]| && a[d..][j] == x;
      assert x == a[d + j];
    }
  }

  lemma TailOfLonger(a: seq<Block>, b: seq<Block>, d: nat)
    requires Linked(b) && 1 <= d == |a| <= |b| && a[d - 1] == b[d - 1] && TipSlot(a) < TipSlot(b)
    ensures d < |b| && b[d].slot > TipSlot(a)
  {
    assert d < |b| ==> b[d - 1].slot < b[d].slot;
  }

  // What the guards of updateCanonical come to.
  lemma AdoptsExactly(n: Node, h: string)
    requires Sane(n) && h in n.blocks && n.blocks[n.tip].slot < n.blocks[h].slot
    requires n.finalized == FinalOf(TipSlot(n.chain), n.cfg.finalitySlots)
    requires TipSlot(n.chain) / n.cfg.epochLength in n.snapshots
    ensures Adopts(n, h) <==> TakesOver(n, n, h)
  {
    hide Path, Registry, Covered, Clocked, IsTree, DivergeSlot, Diverge, ReorgDepth, Abandoned, Weight;
    ReorgDepthExact(n.blocks, n.chain[0], n.tip, h);
    AbandonedAreLate(n, h);
  }

  // -------------------------------------------------- taking in a new block

  // Between storing a block and deciding about the tip.
  lemma ScoredStart(c: Primitives, n: Node, b: Block)
    requires Good(c, n) && Sane(n) && Admissible(c, n, b) && Storable(n, b)
    ensures Sane(EnsureSnapshot(Stored(n, b), 0))
    ensures var scored := EnsureSnapshot(Stored(n, b), 0);
      && n.cfg.epochLength > 0 && scored.blocks == n.blocks[b.hash := b] && scored.cfg == n.cfg
      && scored.tip == n.tip && scored.chain == n.chain && scored.blocks[n.tip].slot < b.slot
      && scored.finalized == FinalOf(TipSlot(n.chain), n.cfg.finalitySlots)
      && TipSlot(n.chain) / n.cfg.epochLength in scored.snapshots
  {
    hide Sane, TreeInv, Accounts, Stored, EnsureSnapshot, Storable, Admissible, SlotMap, Mempool.Consistent,
      CleanRecord, TipSlot;
    SaneTree(n);
    StoredSane(n, b);
    InsertInv(c, n, b);
    NewSlot(c, n, b);
    StorableProducer(n, b);
    StoredBlocks(n, b);
    ScoringKeeps(c, Stored(n, b));
    assert n.blocks[n.tip].slot < b.slot;
  }

  lemma SameVerdict(n: Node, scored: Node, m: Node, h: string)
    requires Sane(scored) && Sane(m) && h in scored.blocks && n.tip in scored.blocks
    requires scored.blocks == m.blocks && scored.cfg == m.cfg && scored.snapshots == m.snapshots
    requires scored.chain[0] == m.chain[0] && scored.tip == n.tip && scored.chain == n.chain
    requires TipSlot(n.chain) / m.cfg.epochLength in m.snapshots
    ensures TakesOver(scored, scored, h) <==> TakesOver(n, m, h)
  {
    hide Sane, Score, Abandoned, TipSlot;
    SaneTree(scored);
    SaneTree(m);
    ScoreSameTree(scored, m);
  }

  // Block h is stored on another one and becomes the tip exactly when it takes
  // over; otherwise the tip stays.
  ghost predicate TipDecided(n: Node, m: Node, h: string)
    requires Sane(m)
  {
    && h in m.blocks && h !in n.blocks && n.tip in m.blocks && TipSlot(n.chain) / m.cfg.epochLength in m.snapshots
    && m.blocks == n.blocks[h := m.blocks[h]]
    && m.tip == if TakesOver(n, m, h) then h else n.tip
  }

  lemma AcceptDecides(c: Primitives, n: Node, b: Block)
    requires Good(c, n) && Sane(n) && Admissible(c, n, b) && Storable(n, b)
    ensures Sane(Accept(c, n, b).node) && TipDecided(n, Accept(c, n, b).node, b.hash)
  {
    hide Good, Sane, Admissible, Storable, Accept, TakesOver, EnsureSnapshot, Stored, Adopts, TipSlot, KeepsFinal,
      MovesTip, JudgesJustly, DrawnFrom;
    SaneTree(n);
    StorableProducer(n, b);
    AcceptEffects(c, n, b);
    AcceptKeeps(c, n, b);
    ScoredStart(c, n, b);
    AcceptSnapshots(c, n, b);
    var m, scored := Accept(c, n, b).node, EnsureSnapshot(Stored(n, b), 0);
    AdoptsExactly(scored, b.hash);
    StepKeepsRoot(c, n, m);
    SameVerdict(n, scored, m, b.hash);
  }

  lemma ProduceDecides(c: Primitives, n: Node, parent: Block, base: Result<State, TxError>, leader: string,
                       txs: seq<Transaction>, entropy: nat, io: WriteOutcome)
    requires Good(c, n) && Sane(n) && HasSnapshot(n.snapshots, n.cfg.epochLength, SlotOf(n.poh.tick))
    requires (forall h :: h in n.blocks ==> n.blocks[h].tick < n.poh.tick)
    requires parent.hash in n.blocks && n.blocks[parent.hash] == parent
    requires BuildFresh(c, n, parent, base, leader, txs, entropy)
    requires Produce(c, n, parent, base, leader, txs, entropy, io).result.Ok?
    ensures var o := Produce(c, n, parent, base, leader, txs, entropy, io);
      && Sane(o.node) && TipDecided(n, o.node, o.result.value)
      && o.node.blocks[o.result.value].prevHash == parent.hash
  {
    hide Good, Sane, Accept, Build, StepOk, Path, IsTree, Admissible, Storable, SaveBlock, HasSnapshot, TakesOver,
      BuildFresh, TipSlot, TipDecided, Save, MovesTip, DrawnFrom;
    SaneTree(n);
    ProduceAccepts(c, n, parent, base, leader, txs, entropy, io);
    var b := Build(c, n, parent, base, leader, txs, entropy).value;
    SavedAdmissible(c, n, Save(n, b, io), b);
    SavedGood(c, n, b, io);
    AcceptDecides(c, Save(n, b, io), b);
    AcceptEffects(c, Save(n, b, io), b);
    AcceptKeeps(c, Save(n, b, io), b);
    DecidedFrom(n, Save(n, b, io), Accept(c, Save(n, b, io), b).node, b.hash);
  }

  // ----------------------------------------------------------- over a whole run

  lemma DecidedFrom(n: Node, n2: Node, m: Node, h: string)
    requires Sane(m) && n2.tip == n.tip && n2.chain == n.chain && n2.blocks == n.blocks && TipDecided(n2, m, h)
    ensures TipDecided(n, m, h)
  {
    hide Sane, Score, Abandoned, TipSlot;
  }

  lemma ExternalDecides(c: Primitives, n: Node, prevHash: string, txs: seq<Transaction>, entropy: nat,
                        io: WriteOutcome)
    requires Good(c, n) && Sane(n) && AddBlockExternalFresh(c, n, prevHash, txs, entropy)
    requires AddBlockExternal(c, n, prevHash, txs, entropy, io).result.Ok?
    ensures var o := AddBlockExternal(c, n, prevHash, txs, entropy, io);
      && Sane(o.node) && TipDecided(n, o.node, o.result.value)
      && prevHash in n.blocks && o.node.blocks[o.result.value].prevHash == prevHash
  {
    hide Good, Sane, TreeInv, StartSlot, BuildFresh, Produce, LeaderAt, StateAtTip, HasSnapshot, DrawnFrom,
      TipDecided, AddBlockExternalFresh;
    SaneTree(n);
    ExternalStart(c, n, prevHash);
    StartSlotSane(c, n);
    FreshExternal(c, n, prevHash, txs, entropy);
    var n1 := StartSlot(c, n);
    ProduceDecides(c, n1, n.blocks[prevHash], StateAtTip(c, n, prevHash), CurrentLeader(c, n1), txs, entropy, io);
    DecidedFrom(n, n1, AddBlockExternal(c, n, prevHash, txs, entropy, io).node,
      AddBlockExternal(c, n, prevHash, txs, entropy, io).result.value);
  }

  lemma AddBlockDecides(c: Primitives, n: Node, txs: seq<Transaction>, entropy: nat, io: WriteOutcome)
    requires Good(c, n) && Sane(n) && AddBlockFresh(c, n, txs, entropy)
    requires AddBlock(c, n, txs, entropy, io).result.Ok?
    ensures var o := AddBlock(c, n, txs, entropy, io);
      && Sane(o.node) && TipDecided(n, o.node, o.result.value) && o.node.blocks[o.result.value].prevHash == n.tip
  {
    hide Inv, Good, StartSlot, BuildFresh, Produce, TakeBody, Body, Path, IsTree, Sane, LeaderAt, HasSnapshot,
      AddBlockFresh, DrawnFrom, TipDecided;
    SaneTree(n);
    TipStart(c, n, txs);
    FreshBuild(c, n, txs, entropy);
    var n1 := StartSlot(c, n);
    ProduceDecides(c, TakeBody(c, n1, txs), n.blocks[n.tip], Ok(n.state), CurrentLeader(c, n1), Body(c, n1, txs),
      entropy, io);
    DecidedFrom(n, TakeBody(c, n1, txs), AddBlock(c, n, txs, entropy, io).node,
      AddBlock(c, n, txs, entropy, io).result.value);
  }

  // In every reachable state a block that AddBlockExternal has built, on any
  // stored parent, is the tip afterwards if and only if it weighs no less than the
  // old tip, abandons no finalised block and no more blocks than allowed, and gains
  // the share of the active stake that is asked for. Otherwise the tip stays.
  lemma ReorgExactly(c: Primitives, ns: seq<Node>, es: seq<Event>, i: nat, prevHash: string, txs: seq<Transaction>,
                     entropy: nat, io: WriteOutcome)
    requires |ns| > 0 && Fresh(c, ns[0]) && Run(c, ns[0], ns, es) && i < |es| < |ns|
    requires es[i] == ExternalBlockAdded(prevHash, txs, entropy, io)
    ensures Sane(ns[i]) && AddBlockExternalFresh(c, ns[i], prevHash, txs, entropy) && Sane(ns[i + 1])
    ensures var o := AddBlockExternal(c, ns[i], prevHash, txs, entropy, io);
      ns[i + 1] == o.node && (o.result.Ok? ==>
        && TipDecided(ns[i], ns[i + 1], o.result.value)
        && prevHash in ns[i].blocks && ns[i + 1].blocks[o.result.value].prevHash == prevHash)
  {
    hide Good, Sane, Fresh, Run, StepOk, BuildCollisionFree, AddBlockExternal, AddBlockExternalFresh, TipDecided,
      StartSlot;
    RunSteps(c, ns, es, i);
    RunEvent(c, ns, es, i);
    AddBlockExternalKeeps(c, ns[i], prevHash, txs, entropy, io);
    if AddBlockExternal(c, ns[i], prevHash, txs, entropy, io).result.Ok? {
      ExternalDecides(c, ns[i], prevHash, txs, entropy, io);
    }
  }

  // ---------------------------------------------------------- a reorg that happens

  // The paths to the tip and to a new block on the one before.
  lemma SidePaths(n: Node, m: Node, h: string)
    requires Sane(n) && Sane(m) && m.chain[0] == n.chain[0] && |n.chain| == 3
    requires h in m.blocks && h !in n.blocks && m.blocks == n.blocks[h := m.blocks[h]]
    requires m.blocks[h].prevHash == n.chain[1].hash
    ensures n.tip in m.blocks && Path(m.blocks, m.chain[0], n.tip) == n.chain
    ensures Path(m.blocks, m.chain[0], h) == n.chain[..2] + [m.blocks[h]]
  {
    hide Registry, Covered, Clocked, Path;
    PathLinked(n.blocks, n.chain[0], n.tip);
    PathStable(n.blocks, m.blocks, n.chain[0], n.tip);
    PathPrefix(n.blocks, n.chain[0], n.tip, 1);
    PathStable(n.blocks, m.blocks, n.chain[0], n.chain[1].hash);
    assert h != m.chain[0].hash;
    PathNext(m.blocks, m.chain[0], h);
  }

  lemma SideWeighsSame(n: Node, m: Node, h: string)
    requires Sane(n) && Sane(m) && m.chain[0] == n.chain[0] && |n.chain| == 3
    requires h in m.blocks && h !in n.blocks && m.blocks == n.blocks[h := m.blocks[h]]
    requires m.blocks[h].prevHash == n.chain[1].hash && m.blocks[h].validator == n.chain[2].validator
    requires m.blocks[h].slot < m.cfg.epochLength && n.chain[2].slot < m.cfg.epochLength
    ensures n.tip in m.blocks && Score(m, h).weight == Score(m, n.tip).weight
    ensures Abandoned(m.blocks, m.chain[0], n.tip, h) == {n.chain[2]}
  {
    hide Sane, Path, IsTree, Weight, StakeIn;
    SaneTree(m);
    SidePaths(n, m, h);
    var x := m.blocks[h];
    WeightExtend(m.snapshots, m.cfg.epochLength, n.chain[..2], x);
    WeightExtend(m.snapshots, m.cfg.epochLength, n.chain[..2], n.chain[2]);
    assert n.chain == n.chain[..2] + [n.chain[2]];
    SameStake(m.snapshots, m.cfg.epochLength, x, n.chain[2]);
    StoredUnderHash(m, h);
    OnlyTipGone(n, h, x);
    OnlyOneGone(m.blocks, m.chain[0], n.tip, h, n.chain[2]);
  }

  lemma SameStake(snaps: Snapshots, epochLength: nat, x: Block, y: Block)
    requires x.slot < epochLength && y.slot < epochLength && x.validator == y.validator
    ensures StakeIn(snaps, epochLength, x.slot, x.validator) == StakeIn(snaps, epochLength, y.slot, y.validator)
  {
    assert x.slot / epochLength == 0 && y.slot / epochLength == 0;
  }

  lemma OnlyOneGone(blocks: Blocks, g: Block, x: string, y: string, b: Block)
    requires IsTree(blocks, g) && x in blocks && y in blocks
    requires forall e :: e in Path(blocks, g, x) && e !in Path(blocks, g, y) <==> e == b
    ensures Abandoned(blocks, g, x, y) == {b}
  {
    hide IsTree, Path;
  }

  lemma OnlyTipGone(n: Node, h: string, x: Block)
    requires Sane(n) && |n.chain| == 3 && h !in n.blocks && x.hash == h
    ensures forall b :: b in n.chain && b !in n.chain[..2] + [x] <==> b == n.chain[2]
  {
    hide Path, Registry, Covered, Clocked;
    PathLinked(n.blocks, n.chain[0], n.tip);
    assert n.chain == [n.chain[0], n.chain[1], n.chain[2]];
    assert n.chain[..2] == [n.chain[0], n.chain[1]];
  }

  lemma SideTakesOver(n: Node, m: Node, h: string)
    requires Sane(n) && Sane(m) && m.chain[0] == n.chain[0] && |n.chain| == 3 && TipDecided(n, m, h)
    requires m.blocks[h].prevHash == n.chain[1].hash && m.blocks[h].validator == n.chain[2].validator
    requires m.blocks[h].slot < m.cfg.epochLength && TipSlot(n.chain) < m.cfg.epochLength
    requires m.cfg.minReorgWeightDeltaP <= 0 && m.cfg.maxReorgDepth >= 1 && m.cfg.finalitySlots >= 1
    requires TipSlot(n.chain) > 0
    ensures m.tip == h && h !in n.blocks && Abandoned(m.blocks, m.chain[0], n.tip, h) == {n.chain[2]}
    ensures m.chain == n.chain[..2] + [m.blocks[h]]
  {
    hide Registry, Covered, Clocked, Path, IsTree, Score, Abandoned;
    SideWeighsSame(n, m, h);
    SidePaths(n, m, h);
    assert |{n.chain[2]}| == 1;
  }

  // AddBlockExternal on a stored block builds and stores one for the validator that
  // is alone.
  lemma SideBlock(c: Primitives, n: Node, prev: string, name: string, k: PrivateKey, entropy: nat)
    requires SignatureContract(c) && forall d :: c.sign(k, d, entropy).Some?
    requires Alone(c, n, name, k, 2) && n.cfg.epochLength > 3 && prev in n.blocks && n.genesis == map[]
    requires CollisionFree(c, n, ExternalBlockAdded(prev, [], entropy, BothWritten))
    requires Replay(c, map[], KeysOf(n.validators), Path(n.blocks, n.chain[0], prev)) == Ok(map[])
    ensures AddBlockExternalFresh(c, n, prev, [], entropy)
    ensures var o := AddBlockExternal(c, n, prev, [], entropy, BothWritten);
      && o.result.Ok? && Sane(o.node) && TipDecided(n, o.node, o.result.value)
      && var b := o.node.blocks[o.result.value];
        b.prevHash == prev && b.validator == name && b.slot == 3
  {
    hide Good, Sane, TreeInv, StartSlot, BuildFresh, Produce, LeaderAt, Replay, HasSnapshot, DrawnFrom, TakesOver,
      AddBlockExternalFresh, KeysOf, SignatureContract, FeeAddress, Path, TipSlot, Explains, Settles, StepOk,
      BuildCollisionFree;
    AloneSane(c, n, name, k, 2);
    SaneTree(n);
    AddBlockExternalKeeps(c, n, prev, [], entropy, BothWritten);
    ExternalStart(c, n, prev);
    StartSlotSane(c, n);
    StartSlotCfg(c, n);
    FreshExternal(c, n, prev, [], entropy);
    AloneLeads(c, n, name, k, 2);
    var n1 := StartSlot(c, n);
    assert CanSign(c, n1.validators, name, entropy);
    NothingIsSigned(c, map[], FeeAddress(c, KeysOf(n.validators), name));
    HonestProduceSucceeds(c, n1, n.blocks[prev], map[], name, [], entropy, BothWritten);
    assert |n.validators| != 0 by { assert name in n.validators; }
    ExternalDecides(c, n, prev, [], entropy, BothWritten);
    AddBlockExternalAdds(c, n, prev, [], entropy, BothWritten);
  }

  lemma NothingIsSigned(c: Primitives, s: State, producer: string)
    ensures CheckTransactions(c, []).None? && Apply(s, [], producer) == Ok(s)
  {
    CheckedIsSigned(c, []);
  }

  function Forking(c: Primitives, name: string, stake: int, k: PrivateKey, entropy: nat, fork: string): seq<Event> {
    [Joining(c, name, stake, k), BlockAdded([], entropy, BothWritten), BlockAdded([], entropy, BothWritten),
     ExternalBlockAdded(fork, [], entropy, BothWritten)]
  }

  // The second block on the tip, and what the next step needs of it.
  lemma SecondBlock(c: Primitives, n: Node, m: Node, name: string, k: PrivateKey, entropy: nat)
    requires SignatureContract(c) && forall d :: c.sign(k, d, entropy).Some?
    requires Alone(c, n, name, k, 1) && |n.chain| == 2 && n.cfg.epochLength > 3 && n.genesis == map[]
    requires forall keys :: Replay(c, map[], keys, n.chain) == Ok(map[])
    requires Step(c, n, BlockAdded([], entropy, BothWritten), m)
    ensures Alone(c, m, name, k, 2) && m.cfg == n.cfg && m.genesis == map[] && m.chain != [] && m.chain[0] == n.chain[0]
    ensures |m.chain| == 3 && m.chain[..2] == n.chain && m.chain[2].validator == name
    ensures n.tip == m.chain[1].hash && n.tip in m.blocks && Sane(m)
    ensures Replay(c, map[], KeysOf(m.validators), Path(m.blocks, m.chain[0], n.tip)) == Ok(map[])
  {
    hide SignatureContract, Good, StartSlot, Body, Replay, Registry, Covered, Clocked, KeysOf, Path, IsTree, StateStep,
      CollisionFree, AddBlock, AddBlockFresh, MovesTip, DrawnFrom, TipSlot;
    AloneSane(c, n, name, k, 1);
    AloneBlock(c, n, name, k, 1, [], entropy, m);
    AddBlockKeeps(c, n, [], entropy, BothWritten);
    AddBlockOnly(c, n, [], entropy, BothWritten);
    SaneTree(n);
    SaneTree(m);
    assert m.chain[..2][1] == m.chain[1];
    PathPrefix(m.blocks, m.chain[0], m.tip, 1);
  }

  // A new engine, one validator, two blocks on the tip, and a third on the first of
  // them: the third becomes the tip and the second is abandoned.
  lemma ReorgHappens(c: Primitives, cfg: Config, seed: Digest, store: Option<Store>, name: string, stake: int,
                     k: PrivateKey, entropy: nat, ns: seq<Node>)
    requires SignatureContract(c) && forall d :: c.sign(k, d, entropy).Some?
    requires name != "" && MIN_STAKE <= stake <= MAX_UINT64
    requires Defaulted(cfg).epochLength > 3 && cfg.maxReorgDepth >= 0 && cfg.minReorgWeightDeltaP <= 0
    requires |ns| == 5
      && Run(c, NewNode(c, cfg, seed, store), ns, Forking(c, name, stake, k, entropy, ns[2].tip))
    ensures |ns[3].chain| == 3 && |ns[4].chain| == 3 && ns[4].chain[..2] == ns[3].chain[..2]
    ensures Sane(ns[4]) && ns[3].tip in ns[4].blocks && ns[4].tip !in ns[3].blocks
    ensures Abandoned(ns[4].blocks, ns[4].chain[0], ns[3].tip, ns[4].tip) == {ns[3].chain[2]}
  {
    hide SignatureContract, Step, Alone, NewNode, Replay, Sane, TipDecided, Abandoned, Path, KeysOf;
    var es := Forking(c, name, stake, k, entropy, ns[2].tip);
    assert Step(c, ns[0], es[0], ns[1]) && Step(c, ns[1], es[1], ns[2]) && Step(c, ns[2], es[2], ns[3]);
    assert Step(c, ns[3], es[3], ns[4]);
    FirstEmpty(c, cfg, seed, store, name, stake, k, entropy, ns[1], ns[2]);
    SecondBlock(c, ns[2], ns[3], name, k, entropy);
    ThirdBlock(c, ns[3], ns[4], name, k, entropy);
  }

  lemma ThirdBlock(c: Primitives, n: Node, m: Node, name: string, k: PrivateKey, entropy: nat)
    requires SignatureContract(c) && forall d :: c.sign(k, d, entropy).Some?
    requires Alone(c, n, name, k, 2) && n.cfg.epochLength > 3 && n.genesis == map[] && Sane(n)
    requires n.cfg.maxReorgDepth >= 1 && n.cfg.finalitySlots >= 1
    requires |n.chain| == 3 && n.chain[2].validator == name && n.chain[1].hash in n.blocks
    requires Replay(c, map[], KeysOf(n.validators), Path(n.blocks, n.chain[0], n.chain[1].hash)) == Ok(map[])
    requires Step(c, n, ExternalBlockAdded(n.chain[1].hash, [], entropy, BothWritten), m)
    ensures Sane(m) && n.tip in m.blocks && m.tip !in n.blocks && m.tip in m.blocks
    ensures Abandoned(m.blocks, m.chain[0], n.tip, m.tip) == {n.chain[2]}
    ensures |m.chain| == 3 && m.chain[..2] == n.chain[..2]
  {
    hide SignatureContract, Good, Sane, Replay, KeysOf, Path, CollisionFree, AddBlockExternal, AddBlockExternalFresh,
      TakesOver, Abandoned, StepOk;
    var prev := n.chain[1].hash;
    SaneTree(n);
    SideBlock(c, n, prev, name, k, entropy);
    AddBlockExternalKeeps(c, n, prev, [], entropy, BothWritten);
    StepFreezes(c, n, m);
    StepKeepsRoot(c, n, m);
    SideTakesOver(n, m, AddBlockExternal(c, n, prev, [], entropy, BothWritten).result.value);
  }
}
