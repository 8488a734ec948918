// What holds over every run of the engine, whatever its callers do: late
// balances, removed producers and odd names included. Weights are in Weights, and
// what needs more than H0 is in Replays.
module Theorems {
  import opened Domain
  import opened Crypto
  import opened Stake
  import opened Mempool
  import opened Tree
  import opened Storage
  import opened Engine
  import opened Invariant
  import opened ForkChoice
  import opened Forks
  import opened Misses
  import opened Steps
  import opened Production
  import opened Runs
  import opened Upkeep

  // ---------------------------------------------------------------------- runs

  // One step of a run; H0 is its one hypothesis.
  ghost predicate Step(c: Primitives, n: Node, e: Event, m: Node) {
    Sane(n) ==> CollisionFree(c, n, e) && Next(c, n, e, m)
  }

  ghost predicate Run(c: Primitives, start: Node, ns: seq<Node>, es: seq<Event>) {
    && |ns| == |es| + 1 && ns[0] == start
    && forall i :: 0 <= i < |es| ==> Step(c, ns[i], es[i], ns[i + 1])
  }

  // The start of a run: a new engine, any configuration, seed and store.
  ghost predicate Fresh(c: Primitives, n: Node) {
    exists cfg, seed, store :: n == NewNode(c, cfg, seed, store)
  }

  lemma FreshGood(c: Primitives, n: Node)
    requires Fresh(c, n)
    ensures Good(c, n)
  {
    hide NewNode, Good;
    var cfg, seed, store :| n == NewNode(c, cfg, seed, store);
    NewNodeGood(c, cfg, seed, store);
  }

  // The invariant holds in every state of every run.
  lemma {:induction false} RunGood(c: Primitives, ns: seq<Node>, es: seq<Event>, i: nat)
    requires |ns| > 0 && Fresh(c, ns[0]) && Run(c, ns[0], ns, es) && i < |ns|
    ensures Good(c, ns[i]) && Sane(ns[i])
  {
    hide Good, Sane, Fresh, StepOk, CollisionFree, Next;
    if i == 0 {
      FreshGood(c, ns[0]);
    } else {
      RunGood(c, ns, es, i - 1);
      RunStep(c, ns, es, i - 1);
      StepOkGood(c, ns[i - 1], ns[i]);
    }
    GoodSane(c, ns[i]);
  }

  // And every step guarantees what StepOk says.
  lemma {:induction false} RunStep(c: Primitives, ns: seq<Node>, es: seq<Event>, i: nat)
    requires |ns| > 0 && Run(c, ns[0], ns, es) && i < |es| && Good(c, ns[i])
    ensures StepOk(c, ns[i], ns[i + 1])
  {
    hide Good, Sane, Fresh, StepOk, CollisionFree, Next;
    GoodSane(c, ns[i]);
    assert Step(c, ns[i], es[i], ns[i + 1]);
    StepKeeps(c, ns[i], es[i], ns[i + 1]);
  }

  lemma RunEvent(c: Primitives, ns: seq<Node>, es: seq<Event>, i: nat)
    requires |ns| > 0 && Run(c, ns[0], ns, es) && i < |es|
    ensures i + 1 < |ns| && Step(c, ns[i], es[i], ns[i + 1])
  {
  }

  lemma RunLength(c: Primitives, ns: seq<Node>, es: seq<Event>)
    requires |ns| > 0 && Run(c, ns[0], ns, es)
    ensures |ns| == |es| + 1
  {
  }

  // A step of a run, with the invariant on both sides.
  lemma RunSteps(c: Primitives, ns: seq<Node>, es: seq<Event>, i: nat)
    requires |ns| > 0 && Fresh(c, ns[0]) && Run(c, ns[0], ns, es) && i + 1 < |ns|
    ensures |ns| == |es| + 1
    ensures Good(c, ns[i]) && Sane(ns[i]) && Good(c, ns[i + 1]) && Sane(ns[i + 1]) && StepOk(c, ns[i], ns[i + 1])
  {
    hide Good, Sane, Fresh, StepOk, Run;
    RunLength(c, ns, es);
    RunGood(c, ns, es, i);
    RunGood(c, ns, es, i + 1);
    RunStep(c, ns, es, i);
  }

  // ------------------------------------------------------------------ finality

  lemma {:induction false} RunAdvances(c: Primitives, ns: seq<Node>, es: seq<Event>, i: nat, j: nat)
    requires |ns| > 0 && Fresh(c, ns[0]) && Run(c, ns[0], ns, es) && i <= j < |ns|
    ensures Advances(ns[i], ns[j])
    decreases j
  {
    hide Good, Sane, Fresh, Advances, MovesTip, JudgesJustly, Run, DrawnFrom;
    RunGood(c, ns, es, i);
    if i == j {
      AdvancesNowhere(ns[i]);
    } else {
      RunAdvances(c, ns, es, i, j - 1);
      RunSteps(c, ns, es, j - 1);
      AdvancesTransitive(ns[i], ns[j - 1], ns[j]);
    }
  }

  lemma AdvancesNowhere(n: Node)
    requires Sane(n)
    ensures Advances(n, n)
  {
    hide Sane;
    SaneTree(n);
    KeepsFinalSame(n.chain, n.finalized);
  }

  // Finalised history never changes, whatever the network does afterwards: the
  // finalised slot does not go back, and the canonical blocks up to it keep
  // their places, also while that slot is still 0.
  lemma FinalityIsForever(c: Primitives, ns: seq<Node>, es: seq<Event>, i: nat, j: nat, k: nat)
    requires |ns| > 0 && Fresh(c, ns[0]) && Run(c, ns[0], ns, es) && i <= j < |ns|
    requires k < |ns[i].chain| && ns[i].chain[k].slot <= ns[i].finalized
    ensures ns[i].finalized <= ns[j].finalized
    ensures k < |ns[j].chain| && ns[j].chain[k] == ns[i].chain[k]
  {
    hide Run, Fresh;
    RunAdvances(c, ns, es, i, j);
  }

  // The finalised slot is the tip's less the window, and 0 until there is one.
  lemma FinalisedSlot(c: Primitives, ns: seq<Node>, es: seq<Event>, i: nat)
    requires |ns| > 0 && Fresh(c, ns[0]) && Run(c, ns[0], ns, es) && i < |ns|
    ensures ns[i].chain != [] && ns[i].tip == ns[i].chain[|ns[i].chain| - 1].hash
    ensures var window, slot := ns[i].cfg.finalitySlots, ns[i].chain[|ns[i].chain| - 1].slot;
      ns[i].finalized == if slot < window then 0 else slot - window
  {
    hide Run, Fresh, Sane, Accounts, Sealed, Ticking, AllLed, SnapshotsGood, SlotMap, Mempool.Consistent, CleanRecord;
    RunGood(c, ns, es, i);
    TipInTree(ns[i]);
  }

  // ------------------------------------------------------------------ the tree

  // No two blocks of any forks share a slot.
  lemma SlotsAreUnique(c: Primitives, ns: seq<Node>, es: seq<Event>, i: nat, h: string, k: string)
    requires |ns| > 0 && Fresh(c, ns[0]) && Run(c, ns[0], ns, es) && i < |ns|
    requires h in ns[i].blocks && k in ns[i].blocks && h != k
    ensures ns[i].blocks[h].slot != ns[i].blocks[k].slot
  {
    hide Run, Fresh, Sane, Accounts, Sealed, Ticking, AllLed, SnapshotsGood, CacheInv;
    RunGood(c, ns, es, i);
  }

  // So nobody is ever convicted of producing twice.
  lemma NobodyIsConvicted(c: Primitives, ns: seq<Node>, es: seq<Event>, i: nat)
    requires |ns| > 0 && Fresh(c, ns[0]) && Run(c, ns[0], ns, es) && i < |ns|
    ensures ns[i].equivocations == []
  {
    hide Run, Fresh, Sane, Accounts, TreeInv, SlotMap, Mempool.Consistent;
    RunGood(c, ns, es, i);
  }

  // The canonical chain is the walk from the tip to genesis, turned around:
  // linked, numbered by height, later block by block, all of it stored.
  lemma ChainIsThePath(c: Primitives, ns: seq<Node>, es: seq<Event>, i: nat)
    requires |ns| > 0 && Fresh(c, ns[0]) && Run(c, ns[0], ns, es) && i < |ns|
    ensures var n := ns[i];
      && ns[0].chain != [] && n.chain != []
      && Linked(n.chain) && n.chain[|n.chain| - 1].hash == n.tip
      && n.chain[0] == ns[0].chain[0] && n.chain[0].prevHash == GENESIS_PARENT
      && forall k :: 0 <= k < |n.chain| ==> n.chain[k].hash in n.blocks && n.blocks[n.chain[k].hash] == n.chain[k]
  {
    hide Run, Fresh, Good, Advances, Path, Registry, Covered, Clocked, Linked;
    RunGood(c, ns, es, i);
    RunRoot(c, ns, es, i);
    PathLinked(ns[i].blocks, ns[i].chain[0], ns[i].tip);
  }

  lemma RunRoot(c: Primitives, ns: seq<Node>, es: seq<Event>, i: nat)
    requires |ns| > 0 && Fresh(c, ns[0]) && Run(c, ns[0], ns, es) && i < |ns|
    ensures ns[0].chain != [] && ns[i].chain != [] && ns[i].chain[0] == ns[0].chain[0]
  {
    hide Run, Fresh, KeepsFinal;
    RunAdvances(c, ns, es, 0, i);
  }

  // The pool never holds a transaction twice, loses track of one, or gets out
  // of order.
  lemma PoolStaysConsistent(c: Primitives, ns: seq<Node>, es: seq<Event>, i: nat)
    requires |ns| > 0 && Fresh(c, ns[0]) && Run(c, ns[0], ns, es) && i < |ns|
    ensures Consistent(c, ns[i].pool)
  {
    hide Run, Fresh, Sane, Accounts, TreeInv, Consistent;
    RunGood(c, ns, es, i);
  }

  // ----------------------------------------------------------------- progress

  // Each step leaves the tip alone or moves it to a strictly better one,
  // abandoning no more blocks than either limit allows, with the gain in weight
  // that is required.
  lemma RunReorgBound(c: Primitives, ns: seq<Node>, es: seq<Event>, i: nat)
    requires |ns| > 0 && Fresh(c, ns[0]) && Run(c, ns[0], ns, es) && i + 1 < |ns|
    ensures Sane(ns[i + 1]) && MovesTip(ns[i], ns[i + 1])
  {
    hide Run, Fresh, Good, Sane, MovesTip, Advances, JudgesJustly, DrawnFrom;
    RunSteps(c, ns, es, i);
  }

  // The tip of a run never gets worse.
  lemma {:induction false} TipNeverWorse(c: Primitives, ns: seq<Node>, es: seq<Event>, i: nat, j: nat)
    requires |ns| > 0 && Fresh(c, ns[0]) && Run(c, ns[0], ns, es) && i <= j < |ns|
    ensures Sane(ns[i]) && Sane(ns[j])
    ensures ns[j].tip == ns[i].tip || BetterScore(Score(ns[j], ns[j].tip), Score(ns[i], ns[i].tip))
    decreases j
  {
    hide Run, Fresh, Good, Sane, MovesTip, Advances, Score, BetterScore;
    RunGood(c, ns, es, i);
    RunGood(c, ns, es, j);
    if i < j {
      TipNeverWorse(c, ns, es, i, j - 1);
      RunReorgBound(c, ns, es, j - 1);
      TipInTree(ns[i]);
      TipInTree(ns[j - 1]);
      TipMoved(ns[j - 1], ns[j]);
      NotLighter(c, ns, es, i, j, ns[i].tip);
      NotLighter(c, ns, es, j - 1, j, ns[j - 1].tip);
      var start, before, now := Score(ns[i], ns[i].tip), Score(ns[j - 1], ns[j - 1].tip), Score(ns[j], ns[j - 1].tip);
      if ns[j].tip == ns[j - 1].tip {
        HeavierIsBetter(before, now, start);
      } else if ns[j - 1].tip == ns[i].tip {
        BetterThanLighter(Score(ns[j], ns[j].tip), now, start);
      } else {
        BetterThanLighter(Score(ns[j], ns[j].tip), now, before);
        BetterScoreTotalOrder(Score(ns[j], ns[j].tip), before, start);
      }
    }
  }

  // The score of a stored block keeps its slot and hash and loses no weight.
  lemma NotLighter(c: Primitives, ns: seq<Node>, es: seq<Event>, i: nat, j: nat, h: string)
    requires |ns| > 0 && Fresh(c, ns[0]) && Run(c, ns[0], ns, es) && i <= j < |ns|
    requires Sane(ns[i]) && Sane(ns[j]) && h in ns[i].blocks
    ensures h in ns[j].blocks && Score(ns[j], h) == Score(ns[i], h).(weight := Score(ns[j], h).weight)
    ensures Score(ns[j], h).weight >= Score(ns[i], h).weight
  {
    hide Run, Fresh, Sane, Score, KeepsFinal;
    RunAdvances(c, ns, es, i, j);
    ScoreMonotone(ns[i], ns[j], h);
  }

  lemma BetterThanLighter(a: ChainScore, b: ChainScore, lighter: ChainScore)
    requires BetterScore(a, b) && b == lighter.(weight := b.weight) && b.weight >= lighter.weight
    ensures BetterScore(a, lighter)
  {
  }

  lemma HeavierIsBetter(a: ChainScore, heavier: ChainScore, b: ChainScore)
    requires heavier == a.(weight := heavier.weight) && heavier.weight >= a.weight
    ensures BetterScore(a, b) ==> BetterScore(heavier, b)
  {
  }

  lemma TipInTree(n: Node)
    requires Sane(n)
    ensures n.tip in n.blocks && n.chain != [] && n.chain[|n.chain| - 1].hash == n.tip
  {
    hide Path;
  }

  lemma TipMoved(n: Node, m: Node)
    requires Sane(n) && Sane(m) && MovesTip(n, m)
    ensures m.tip == n.tip || (n.tip in m.blocks && m.tip in m.blocks && BetterScore(Score(m, m.tip), Score(m, n.tip)))
  {
    hide Sane, Score, BetterScore;
    TipInTree(n);
    TipInTree(m);
  }

  // What GetForkCandidates puts first beats every other stored block, not only
  // the other leaves.
  lemma FirstForkBeatsAll(c: Primitives, ns: seq<Node>, es: seq<Event>, i: nat, out: seq<ForkCandidate>)
    requires |ns| > 0 && Fresh(c, ns[0]) && Run(c, ns[0], ns, es) && i < |ns|
    requires Sane(EnsureSnapshot(ns[i], 0)) && Ranked(EnsureSnapshot(ns[i], 0), out)
    ensures out != [] && out[0].hash in ns[i].blocks
    ensures forall k :: k in ns[i].blocks && k != out[0].hash ==>
      BetterScore(Score(EnsureSnapshot(ns[i], 0), out[0].hash), Score(EnsureSnapshot(ns[i], 0), k))
  {
    hide Run, Fresh, Sane, BetterScore, Score, EnsureSnapshot, Ranked;
    FirstCandidateBeatsAll(EnsureSnapshot(ns[i], 0), out);
  }

  // ------------------------------------------------------------- missed slots

  // In every state: slots 1 .. tip judged once each, in order, each for the
  // leader that the frozen snapshot of its epoch elects, and every charge is in
  // a counter or slashed for.
  lemma MissesBalance(c: Primitives, ns: seq<Node>, es: seq<Event>, i: nat, v: string)
    requires |ns| > 0 && Fresh(c, ns[0]) && Run(c, ns[0], ns, es) && i < |ns|
    ensures var n := ns[i];
      && n.cfg.epochLength > 0
      && n.lastProcessed == TipSlot(n.chain) && JudgedInOrder(n.judged, TipSlot(n.chain))
      && JudgedLeaders(c, n.judged, n.snapshots, n.cfg.epochLength)
      && Charges(n.judged, v) == (MAX_MISSED_SLOTS + 1) * MissSlashes(n.judged, v) + StatsOf(n.stats, v).missedSlots
      && StatsOf(n.stats, v).missedSlots <= MAX_MISSED_SLOTS
      && StatsOf(n.stats, v).jailedUntilEpoch == JailTerm(n.judged, v)
  {
    hide Run, Fresh, Sane, Inv, Charges, MissSlashes, JailTerm, JudgedLeaders, TipSlot, JudgedInOrder, StatsOf;
    RunGood(c, ns, es, i);
    assert Balanced(ns[i].judged, ns[i].stats);
  }

  // A slot was charged, to the leader that its snapshot elects, exactly when it
  // had a leader and no canonical block at the end of the step that judged it.
  lemma JudgedJustly(c: Primitives, ns: seq<Node>, es: seq<Event>, i: nat, slot: nat)
    requires |ns| > 0 && Fresh(c, ns[0]) && Run(c, ns[0], ns, es) && i + 1 < |ns|
    requires TipSlot(ns[i].chain) < slot <= TipSlot(ns[i + 1].chain)
    ensures ns[i + 1].cfg.epochLength > 0
    ensures slot - 1 < |ns[i + 1].judged| && ns[i + 1].judged[slot - 1].slot == slot
    ensures ns[i + 1].judged[slot - 1].leader == LeaderAt(c, ns[i + 1].snapshots, ns[i + 1].cfg.epochLength, slot)
    ensures Just(ns[i + 1].judged[slot - 1], ns[i + 1].chain)
  {
    hide Run, Fresh, Sane, Inv, Balanced, LeaderAt, TipSlot, Just, Advances, MovesTip, DrawnFrom;
    RunSteps(c, ns, es, i);
  }

  // One leader is never charged, whether elected or the fallback: the name of the
  // genesis block's producer.
  lemma {:induction false} FallbackNeverCharged(c: Primitives, ns: seq<Node>, es: seq<Event>, i: nat, k: nat)
    requires |ns| > 0 && Fresh(c, ns[0]) && Run(c, ns[0], ns, es) && i < |ns|
    requires k < |ns[i].judged| && ns[i].judged[k].leader == GENESIS_NAME
    ensures !ns[i].judged[k].missed
  {
    hide Run, Fresh, Good, Sane, MovesTip, DrawnFrom, KeepsFinal, Frozen, CanonicalAt;
    if i == 0 {
      FreshUnjudged(c, ns[0]);
    }
    RunSteps(c, ns, es, i - 1);
    if k < |ns[i - 1].judged| {
      assert ns[i].judged[k] == ns[i - 1].judged[k];
      FallbackNeverCharged(c, ns, es, i - 1, k);
    } else {
      assert Just(ns[i].judged[k], ns[i].chain);
    }
  }

  lemma FreshUnjudged(c: Primitives, n: Node)
    requires Fresh(c, n)
    ensures n.judged == []
  {
    hide GenesisBlock;
  }

  // ---------------------------------------------------------------- snapshots

  // Every snapshot of every state is the one that the registry and the stats of
  // the step that took it gave: exactly the validators then registered and not in
  // jail at the start of the epoch, each with its stake of then.
  lemma {:induction false} SnapshotsAsTaken(c: Primitives, ns: seq<Node>, es: seq<Event>, i: nat, epoch: nat)
    returns (k: nat)
    requires |ns| > 0 && Fresh(c, ns[0]) && Run(c, ns[0], ns, es) && i < |ns| && epoch in ns[i].snapshots
    ensures k < i && epoch !in ns[k].snapshots && epoch in ns[k + 1].snapshots
    ensures ns[i].snapshots[epoch] == TakeSnapshot(ns[k].validators, ns[k].stats, epoch, ns[i].cfg.epochLength)
    ensures forall v :: v in ns[i].snapshots[epoch].validators <==>
      && v in ns[k].validators
      && StatsOf(ns[k].stats, v).jailedUntilEpoch <= epoch * ns[i].cfg.epochLength / SLOTS_PER_EPOCH
    ensures forall v :: v in ns[i].snapshots[epoch].validators ==>
      ns[i].snapshots[epoch].validators[v] == ns[k].validators[v].stake
  {
    hide Run, Fresh, Good, Sane, MovesTip, JudgesJustly, KeepsFinal, IsJailed, TakeSnapshot;
    if i == 0 {
      FreshEmpty(c, ns[0]);
    }
    RunSteps(c, ns, es, i - 1);
    if epoch in ns[i - 1].snapshots {
      k := SnapshotsAsTaken(c, ns, es, i - 1, epoch);
    } else {
      k := i - 1;
      SaneRegistry(ns[k]);
      TakeSnapshotGood(ns[k].validators, ns[k].stats, epoch, ns[i].cfg.epochLength);
      JailedExactly(ns[k].stats, epoch * ns[i].cfg.epochLength);
      TakenStakes(ns[k].validators, ns[k].stats, epoch, ns[i].cfg.epochLength);
    }
  }

  lemma JailedExactly(stats: Stats, slot: nat)
    ensures forall v :: IsJailed(stats, v, slot) <==> slot / SLOTS_PER_EPOCH < StatsOf(stats, v).jailedUntilEpoch
  {
  }

  lemma TakenStakes(vs: Validators, stats: Stats, epoch: nat, epochLength: nat)
    ensures forall v :: v in TakeSnapshot(vs, stats, epoch, epochLength).validators ==>
      v in vs && TakeSnapshot(vs, stats, epoch, epochLength).validators[v] == vs[v].stake
  {
    hide IsJailed;
  }

  // ------------------------------------------------------------------- jail

  // A jail term never gets shorter.
  lemma TermsNeverShrink(c: Primitives, ns: seq<Node>, es: seq<Event>, i: nat, j: nat, v: string)
    requires |ns| > 0 && Fresh(c, ns[0]) && Run(c, ns[0], ns, es) && i <= j < |ns|
    ensures StatsOf(ns[i].stats, v).jailedUntilEpoch <= StatsOf(ns[j].stats, v).jailedUntilEpoch
  {
    hide Run, Fresh, Sane, TipSlot, StatsOf, KeepsFinal, JudgedLeaders, JailTerm;
    MissesBalance(c, ns, es, i, v);
    MissesBalance(c, ns, es, j, v);
    RunAdvances(c, ns, es, i, j);
    JailTermGrows(ns[i].judged, ns[j].judged, v);
  }

  // Who was slashed for missing is in no snapshot that is first taken later in
  // the run for an epoch that starts before the term ends.
  lemma JailedStaysOut(c: Primitives, ns: seq<Node>, es: seq<Event>, i: nat, j: nat, k: nat, epoch: nat)
    requires |ns| > 0 && Fresh(c, ns[0]) && Run(c, ns[0], ns, es) && i <= j < |ns|
    requires k < |ns[i].judged| && ns[i].judged[k].slashed
    requires epoch !in ns[i].snapshots && epoch in ns[j].snapshots
    requires epoch * ns[i].cfg.epochLength / SLOTS_PER_EPOCH < ns[i].judged[k].slot / SLOTS_PER_EPOCH + JAIL_EPOCHS
    ensures ns[i].judged[k].leader !in ns[j].snapshots[epoch].validators
  {
    hide Run, Fresh, Sane, JailTerm, JudgedLeaders, KeepsFinal, TipSlot, IsJailed, StatsOf, TakeSnapshot;
    var v := ns[i].judged[k].leader;
    RunAdvances(c, ns, es, i, j);
    var t := SnapshotsAsTaken(c, ns, es, j, epoch);
    if t < i {
      RunAdvances(c, ns, es, t + 1, i);
      assert false;
    } else {
      MissesBalance(c, ns, es, i, v);
      TermsNeverShrink(c, ns, es, i, t, v);
      JailTermKept(ns[i].judged, k);
    }
  }

  // -------------------------------------------------------- what blocks leave alone

  // Adding blocks registers nobody and leaves the genesis balances alone.
  lemma AddBlockOnly(c: Primitives, n: Node, txs: seq<Transaction>, entropy: nat, io: WriteOutcome)
    requires Sane(n) && AddBlockFresh(c, n, txs, entropy)
    ensures Narrows(n.validators, AddBlock(c, n, txs, entropy, io).node.validators)
    ensures AddBlock(c, n, txs, entropy, io).node.genesis == n.genesis
  {
    hide Produce, AddBlockFresh, Sane, LeaderAt, StartSlot, TakeBody, Body;
    StartSlotSane(c, n);
    FreshBuild(c, n, txs, entropy);
  }

  lemma AddBlockExternalOnly(c: Primitives, n: Node, prevHash: string, txs: seq<Transaction>, entropy: nat,
                             io: WriteOutcome)
    requires Sane(n) && AddBlockExternalFresh(c, n, prevHash, txs, entropy)
    ensures Narrows(n.validators, AddBlockExternal(c, n, prevHash, txs, entropy, io).node.validators)
    ensures AddBlockExternal(c, n, prevHash, txs, entropy, io).node.genesis == n.genesis
  {
    hide Produce, AddBlockExternalFresh, Sane, LeaderAt, StartSlot;
    StartSlotSane(c, n);
  }

  lemma FreshEmpty(c: Primitives, n: Node)
    requires Fresh(c, n)
    ensures n.validators == map[] && n.snapshots == map[] && n.genesis == map[] && n.state == map[] && n.keys == map[]
  {
    hide GenesisBlock;
  }
}
