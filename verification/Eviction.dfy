// A producer who is slashed out of the registry, reached from a new engine in
// three calls: why H2 is a hypothesis.
module Eviction {
  import opened Domain
  import opened Crypto
  import opened Ledger
  import opened Stake
  import opened Storage
  import opened Tree
  import opened Engine
  import opened Invariant
  import opened Steps
  import opened Runs
  import opened Theorems
  import opened Replays
  import opened Solo
  import opened Auditor

  // The three calls.
  function Calls(c: Primitives, name: string, stake: int, k: PrivateKey, entropy: nat,
                 txs: seq<Transaction>, later: nat, io: WriteOutcome): seq<Event> {
    [Joining(c, name, stake, k), BlockAdded([], entropy, BothWritten), BlockAdded(txs, later, io)]
  }

  // The first two.
  lemma FirstBlockAdopted(c: Primitives, cfg: Config, seed: Digest, store: Option<Store>, name: string, stake: int,
                          k: PrivateKey, entropy: nat, n1: Node, n2: Node)
    requires SignatureContract(c) && forall d :: c.sign(k, d, entropy).Some?
    requires name != "" && MIN_STAKE <= stake <= MAX_UINT64
    requires Defaulted(cfg).epochLength > 2 && cfg.maxReorgDepth >= 0 && cfg.minReorgWeightDeltaP <= 0
    requires Step(c, NewNode(c, cfg, seed, store), Joining(c, name, stake, k), n1)
    requires Step(c, n1, BlockAdded([], entropy, BothWritten), n2)
    ensures n1.keys == map[] && n1.cfg.epochLength > 2 && n2.cfg == n1.cfg
    ensures Alone(c, n2, name, k, 1) && Ledgered(c, n2) && n2.keys.Keys == {name}
    ensures n2.validators[name].stake == stake + BLOCK_REWARD && |n2.chain| == 2 && n2.chain[1].validator == name
  {
    hide SignatureContract, Good, Ledgered, Sane, Step, Alone, StepOk, NewNode, Body;
    KeyNamed(c, k, entropy);
    Joins(c, cfg, seed, store, name, stake, k, n1);
    AloneSane(c, n1, name, k, 0);
    AloneBlock(c, n1, name, k, 0, [], entropy, n2);
    StepFreezes(c, n1, n2);
    NewNodeLedgered(c, cfg, seed, store);
    StepLedgered(c, NewNode(c, cfg, seed, store), Joining(c, name, stake, k), n1);
    StepLedgered(c, n1, BlockAdded([], entropy, BothWritten), n2);
  }

  lemma NewNodeLedgered(c: Primitives, cfg: Config, seed: Digest, store: Option<Store>)
    ensures Good(c, NewNode(c, cfg, seed, store))
    ensures Ledgered(c, NewNode(c, cfg, seed, store)) && NewNode(c, cfg, seed, store).keys == map[]
  {
    hide Ledgered, Good, GenesisBlock;
    NewNodeGood(c, cfg, seed, store);
    FreshLedgered(c, NewNode(c, cfg, seed, store));
  }

  lemma SecondIsEvicted(c: Primitives, n: Node, m: Node, e: Event, name: string, k: PrivateKey)
    requires Alone(c, m, name, k, 1) && Ledgered(c, m) && m.keys.Keys == {name} && m.cfg.epochLength > 2
    requires |m.chain| == 2 && m.chain[1].validator == name && m.validators[name].stake < MIN_STAKE + SLASH_PENALTY
    requires e.BlockAdded? && e.txs != [] && CheckTransactions(c, e.txs).Some? && Step(c, m, e, n)
    ensures Registered(m.keys, m.validators)
    ensures Audit(c, m, m.chain).error == None
    ensures n.cfg.epochLength > 0 && n.chain == m.chain && name !in n.validators
    ensures Audit(c, n, n.chain) == Report(n, Some(AuditError(UnknownValidator, 1)))
  {
    hide Good, Ledgered, Sane, CollisionFree, AddBlockFresh, AddBlock, StartSlot, CheckTransactions, LeaderAt, Audit,
      TipSlot;
    AloneLeads(c, m, name, k, 1);
    SlashedProducerBreaksAudit(c, m, e.txs, e.entropy, e.io, 1);
    PassesYet(c, m);
  }

  lemma PassesYet(c: Primitives, n: Node)
    requires Good(c, n) && Ledgered(c, n) && |n.chain| == 2 && n.chain[1].validator in n.validators
    ensures n.cfg.epochLength > 0 && Audit(c, n, n.chain).error == None
  {
    hide Good, TreeInv, Vetted, Audit, Path, IsTree, Replay;
    GoodTree(c, n);
    AuditVerdict(c, n, n.tip);
  }

  // A new engine, one validator, a block of its own that is adopted, and a call
  // of AddBlock with a transaction that nobody signed: a run, with H0, H1 and H2
  // at every step of it, after which VerifyChain rejects the engine's own chain,
  // for its one producer is gone.
  lemma EvictedProducer(c: Primitives, cfg: Config, seed: Digest, store: Option<Store>, name: string, stake: int,
                        k: PrivateKey,
                        entropy: nat, txs: seq<Transaction>, later: nat, io: WriteOutcome, ns: seq<Node>)
    requires SignatureContract(c) && forall d :: c.sign(k, d, entropy).Some?
    requires name != "" && MIN_STAKE <= stake && stake + BLOCK_REWARD < MIN_STAKE + SLASH_PENALTY
    requires Defaulted(cfg).epochLength > 2 && cfg.maxReorgDepth >= 0 && cfg.minReorgWeightDeltaP <= 0
    requires txs != [] && CheckTransactions(c, txs).Some?
    requires var es := Calls(c, name, stake, k, entropy, txs, later, io);
      |ns| == 4 && Run(c, NewNode(c, cfg, seed, store), ns, es)
    ensures Orderly(ns, Calls(c, name, stake, k, entropy, txs, later, io))
    ensures ns[3].cfg.epochLength > 0 && |ns[3].chain| == 2 && ns[3].chain[1].validator == name
    ensures name !in ns[3].validators
    ensures ns[2].cfg.epochLength > 0 && Audit(c, ns[2], ns[2].chain).error == None
    ensures Audit(c, ns[3], ns[3].chain) == Report(ns[3], Some(AuditError(UnknownValidator, 1)))
  {
    hide SignatureContract, Ledgered, Step, Alone, CheckTransactions, Audit, NewNode, Registered;
    var es := Calls(c, name, stake, k, entropy, txs, later, io);
    assert Step(c, ns[0], es[0], ns[1]);
    assert Step(c, ns[1], es[1], ns[2]);
    assert Step(c, ns[2], es[2], ns[3]);
    FirstBlockAdopted(c, cfg, seed, store, name, stake, k, entropy, ns[1], ns[2]);
    SecondIsEvicted(c, ns[3], ns[2], es[2], name, k);
    NewNodeLedgered(c, cfg, seed, store);
    NoneRecorded(ns[0].validators);
    NoneRecorded(ns[1].validators);
  }
}
