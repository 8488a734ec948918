// One transaction twice on the canonical chain, reached from a new engine in five
// calls: what a late SetBalance can do, since the balances stay as they are when
// the replay of an adopted chain fails.
module Repeats {
  import opened Domain
  import opened Crypto
  import opened Ledger
  import opened Stake
  import opened Storage
  import opened Engine
  import opened Steps
  import opened Production
  import opened Runs
  import opened Theorems
  import opened Replays
  import opened ChainLedger
  import opened Solo

  // A signed transaction of a sender's first nonce whose cost fits.
  ghost predicate FirstTx(c: Primitives, tx: Transaction) {
    TxSignatureOk(c, tx) && tx.amount > 0 && tx.fee >= 0 && tx.nonce == 1 && CostFits(tx) && tx.from != ""
  }

  lemma FirstTxApplies(c: Primitives, s: State, tx: Transaction, balance: Int64, producer: string)
    requires FirstTx(c, tx) && balance >= tx.amount + tx.fee
    ensures CheckTransactions(c, [tx]).None?
    ensures Apply(s[tx.from := Account(balance, 0)], [tx], producer).Ok?
    ensures tx.from !in s ==> Apply(s, [tx], producer).Err?
  {
    hide TxSignatureOk;
    CheckedIsSigned(c, [tx]);
    assert [tx][..0] == [];
  }

  function Calls(c: Primitives, name: string, stake: int, k: PrivateKey, entropy: nat, balance: Int64,
                 tx: Transaction): seq<Event> {
    [Joining(c, name, stake, k), BlockAdded([], entropy, BothWritten), BalanceSet(tx.from, balance),
     BlockAdded([tx], entropy, BothWritten), BlockAdded([tx], entropy, BothWritten)]
  }

  // An empty block adopted on genesis without balances leaves none.
  lemma EmptyBlock(c: Primitives, n: Node, m: Node, name: string)
    requires Extended(c, n, m, name, []) && |n.chain| == 1 && n.cfg.epochLength > 0 && n.state == map[]
    requires n.genesis == map[]
    ensures m.state == map[] && m.genesis == map[] && Replay(c, map[], KeysOf(n.validators), m.chain) == Ok(map[])
    ensures forall keys :: Replay(c, map[], keys, m.chain) == Ok(map[])
  {
    hide FeeAddress, KeysOf;
    forall keys ensures Replay(c, map[], keys, m.chain) == Ok(map[]) {
      EmptyReplay(c, map[], keys, m.chain);
    }
  }

  // Money that only SetBalance has given out, late: the balances are that, and a
  // replay of the chain, if it succeeds, gives none.
  ghost predicate Late(c: Primitives, n: Node, name: string, k: PrivateKey, slot: nat, address: string,
                       balance: Int64) {
    && Alone(c, n, name, k, slot) && n.cfg.epochLength > 3 && n.keys.Keys == {name}
    && n.state == map[address := Account(balance, 0)] && n.genesis == map[] && n.chain != []
    && (Replay(c, map[], KeysOf(n.validators), n.chain).Ok? ==>
         Replay(c, map[], KeysOf(n.validators), n.chain) == Ok(map[]))
  }

  lemma LateBalance(c: Primitives, n: Node, m: Node, address: string, amount: Int64, name: string, k: PrivateKey,
                    slot: nat)
    requires Alone(c, n, name, k, slot) && |n.chain| > 1 && amount >= 0 && Step(c, n, BalanceSet(address, amount), m)
    requires n.state == map[] && n.genesis == map[] && n.cfg.epochLength > 3 && n.keys.Keys == {name}
    requires forall keys :: Replay(c, map[], keys, n.chain) == Ok(map[])
    ensures Late(c, m, name, k, slot, address, amount) && m.chain == n.chain
  {
    hide Good, Sane, StepOk, TipSlot, Replay, KeysOf;
    AloneSane(c, n, name, k, slot);
    StepKeeps(c, n, BalanceSet(address, amount), m);
    StepOkGood(c, n, m);
  }

  lemma UnreplayedChain(c: Primitives, keys: map<string, string>, p: seq<Block>, tx: Transaction)
    requires |p| > 1 && p[|p| - 1].txs == [tx] && FirstTx(c, tx)
    requires Replay(c, map[], keys, p[..|p| - 1]).Ok? ==> Replay(c, map[], keys, p[..|p| - 1]) == Ok(map[])
    ensures Replay(c, map[], keys, p).Err?
  {
    hide FirstTx, FeeAddress, Apply;
    Positive(c, tx);
    if Replay(c, map[], keys, p[..|p| - 1]).Ok? {
      FirstTxApplies(c, map[], tx, MAX_INT64, FeeAddress(c, keys, p[|p| - 1].validator));
    }
  }

  lemma StateKept(c: Primitives, n: Node, m: Node, name: string, tx: Transaction)
    requires Extended(c, n, m, name, [tx]) && n.genesis == map[] && Replay(c, map[], KeysOf(n.validators), m.chain).Err?
    ensures m.state == n.state && m.genesis == map[]
  {
    hide Replay, KeysOf, StartSlot, TipSlot, Reward;
  }

  // The block with the transaction is adopted, its replay fails, and the balances
  // stay.
  lemma UnreplayedBlock(c: Primitives, n: Node, m: Node, name: string, k: PrivateKey, slot: nat, tx: Transaction,
                        balance: Int64, entropy: nat)
    requires SignatureContract(c) && forall d :: c.sign(k, d, entropy).Some?
    requires Late(c, n, name, k, slot, tx.from, balance) && slot < 3 && FirstTx(c, tx) && balance >= tx.amount + tx.fee
    requires Step(c, n, BlockAdded([tx], entropy, BothWritten), m)
    ensures Late(c, m, name, k, slot + 1, tx.from, balance) && !AdoptionReplays(c, n, m)
    ensures |m.chain| == |n.chain| + 1 && m.chain[..|n.chain|] == n.chain && m.chain[|n.chain|].txs == [tx]
  {
    hide SignatureContract, Alone, Step, FirstTx, Apply, FeeAddress, CheckTransactions, StepOk, Replay, KeysOf,
      Extended, StartSlot, Body;
    AloneEpochs(c, n, name, k, slot);
    FirstTxApplies(c, map[], tx, balance, FeeAddress(c, KeysOf(n.validators), name));
    AloneBlock(c, n, name, k, slot, [tx], entropy, m);
    StepFreezes(c, n, m);
    StartSlotCfg(c, n);
    BodyGiven(c, StartSlot(c, n), [tx]);
    AloneKeys(c, n, m, name, k, slot, [tx]);
    ChainGrown(c, n, m, name, [tx]);
    assert m.chain[..|m.chain| - 1] == n.chain;
    UnreplayedChain(c, KeysOf(n.validators), m.chain, tx);
    StateKept(c, n, m, name, tx);
  }

  lemma FirstAdopted(c: Primitives, cfg: Config, seed: Digest, store: Option<Store>, name: string, stake: int,
                     k: PrivateKey, entropy: nat, n1: Node, n2: Node)
    requires SignatureContract(c) && forall d :: c.sign(k, d, entropy).Some?
    requires name != "" && MIN_STAKE <= stake <= MAX_UINT64
    requires Defaulted(cfg).epochLength > 3 && cfg.maxReorgDepth >= 0 && cfg.minReorgWeightDeltaP <= 0
    requires Step(c, NewNode(c, cfg, seed, store), Joining(c, name, stake, k), n1)
    requires Step(c, n1, BlockAdded([], entropy, BothWritten), n2)
    ensures Alone(c, n1, name, k, 0) && Alone(c, n2, name, k, 1) && Extended(c, n1, n2, name, [])
    ensures n1.cfg == Defaulted(cfg) && n2.cfg == Defaulted(cfg)
    ensures n1.keys == map[] && n1.state == map[] && n1.genesis == map[] && |n1.chain| == 1
  {
    hide SignatureContract, Sane, Step, Alone, StepOk, NewNode, Body, Replay, StartSlot, Extended;
    KeyNamed(c, k, entropy);
    Joins(c, cfg, seed, store, name, stake, k, n1);
    AloneSane(c, n1, name, k, 0);
    AloneBlock(c, n1, name, k, 0, [], entropy, n2);
    StepFreezes(c, n1, n2);
    StartSlotCfg(c, n1);
    PoolEmpty(c, cfg, seed, store, name, stake, k, n1);
    NothingPooled(c, StartSlot(c, n1));
  }

  lemma FirstEmpty(c: Primitives, cfg: Config, seed: Digest, store: Option<Store>, name: string, stake: int,
                   k: PrivateKey, entropy: nat, n1: Node, n2: Node)
    requires SignatureContract(c) && forall d :: c.sign(k, d, entropy).Some?
    requires name != "" && MIN_STAKE <= stake <= MAX_UINT64
    requires Defaulted(cfg).epochLength > 3 && cfg.maxReorgDepth >= 0 && cfg.minReorgWeightDeltaP <= 0
    requires Step(c, NewNode(c, cfg, seed, store), Joining(c, name, stake, k), n1)
    requires Step(c, n1, BlockAdded([], entropy, BothWritten), n2)
    ensures Alone(c, n2, name, k, 1) && n2.cfg == Defaulted(cfg) && n2.state == map[] && n2.genesis == map[]
    ensures n1.keys == map[] && n2.keys.Keys == {name} && |n2.chain| == 2
    ensures forall keys :: Replay(c, map[], keys, n2.chain) == Ok(map[])
  {
    hide SignatureContract, Step, Alone, NewNode, Replay, Extended;
    FirstAdopted(c, cfg, seed, store, name, stake, k, entropy, n1, n2);
    EmptyBlock(c, n1, n2, name);
    AloneKeys(c, n1, n2, name, k, 0, []);
    ChainGrown(c, n1, n2, name, []);
  }

  // The two calls with the transaction.
  lemma TwiceFrom(c: Primitives, n: Node, m: Node, q: Node, name: string, k: PrivateKey, tx: Transaction,
                  balance: Int64, entropy: nat)
    requires SignatureContract(c) && forall d :: c.sign(k, d, entropy).Some?
    requires Late(c, n, name, k, 1, tx.from, balance) && |n.chain| == 2 && FirstTx(c, tx)
    requires balance >= tx.amount + tx.fee
    requires Step(c, n, BlockAdded([tx], entropy, BothWritten), m)
    requires Step(c, m, BlockAdded([tx], entropy, BothWritten), q)
    ensures Late(c, m, name, k, 2, tx.from, balance) && Late(c, q, name, k, 3, tx.from, balance)
    ensures |q.chain| == 4 && q.chain[2].txs == [tx] && q.chain[3].txs == [tx]
    ensures !AdoptionReplays(c, n, m) && !AdoptionReplays(c, m, q)
  {
    hide SignatureContract, Step, Late, FirstTx, AdoptionReplays;
    UnreplayedBlock(c, n, m, name, k, 1, tx, balance, entropy);
    UnreplayedBlock(c, m, q, name, k, 2, tx, balance, entropy);
    assert q.chain[2] == q.chain[..3][2];
  }

  lemma LateFields(c: Primitives, n: Node, name: string, k: PrivateKey, slot: nat, address: string, balance: Int64)
    requires Late(c, n, name, k, slot, address, balance)
    ensures Registered(n.keys, n.validators)
    ensures n.state == map[address := Account(balance, 0)] && n.genesis == map[]
  {
    hide Good, Sane, Replay, TipSlot;
  }

  // A new engine, one validator, an empty block that is adopted, a late
  // SetBalance, and two calls of AddBlock with one signed transfer of that money:
  // the transfer stands twice on the canonical chain. H2 holds at every step, and
  // both adoptions leave the balances as they were, because their replays fail.
  lemma TransferStandsTwice(c: Primitives, cfg: Config, seed: Digest, store: Option<Store>, name: string, stake: int,
                            k: PrivateKey, entropy: nat, balance: Int64, tx: Transaction, ns: seq<Node>)
    requires SignatureContract(c) && forall d :: c.sign(k, d, entropy).Some?
    requires name != "" && MIN_STAKE <= stake <= MAX_UINT64
    requires Defaulted(cfg).epochLength > 3 && cfg.maxReorgDepth >= 0 && cfg.minReorgWeightDeltaP <= 0
    requires FirstTx(c, tx) && balance >= tx.amount + tx.fee
    requires |ns| == 6 && Run(c, NewNode(c, cfg, seed, store), ns, Calls(c, name, stake, k, entropy, balance, tx))
    ensures forall i :: 0 <= i < 5 ==> Registered(ns[i].keys, ns[i].validators)
    ensures |ns[5].chain| == 4 && ns[5].chain[2].txs == [tx] && ns[5].chain[3].txs == [tx]
    ensures ns[5].state == map[tx.from := Account(balance, 0)] && ns[5].genesis == map[]
    ensures !AdoptionReplays(c, ns[3], ns[4]) && !AdoptionReplays(c, ns[4], ns[5])
  {
    hide SignatureContract, Step, Alone, NewNode, FirstTx, Replay, Late, AdoptionReplays, Registered;
    var es := Calls(c, name, stake, k, entropy, balance, tx);
    assert Step(c, ns[0], es[0], ns[1]) && Step(c, ns[1], es[1], ns[2]) && Step(c, ns[2], es[2], ns[3]);
    assert Step(c, ns[3], es[3], ns[4]) && Step(c, ns[4], es[4], ns[5]);
    FirstEmpty(c, cfg, seed, store, name, stake, k, entropy, ns[1], ns[2]);
    Positive(c, tx);
    LateBalance(c, ns[2], ns[3], tx.from, balance, name, k, 1);
    TwiceFrom(c, ns[3], ns[4], ns[5], name, k, tx, balance, entropy);
    LateFields(c, ns[3], name, k, 1, tx.from, balance);
    LateFields(c, ns[4], name, k, 2, tx.from, balance);
    LateFields(c, ns[5], name, k, 3, tx.from, balance);
    FirstKeys(c, cfg, seed, store);
    FirstRegistered(c, ns[0], ns[1], ns[2], name, k);
  }

  lemma FirstRegistered(c: Primitives, n: Node, n1: Node, n2: Node, name: string, k: PrivateKey)
    requires n.keys == map[] && n1.keys == map[] && n2.keys.Keys == {name} && Alone(c, n2, name, k, 1)
    ensures Registered(n.keys, n.validators) && Registered(n1.keys, n1.validators) && Registered(n2.keys, n2.validators)
  {
    hide Good, Sane, TipSlot;
  }

  lemma Positive(c: Primitives, tx: Transaction)
    requires FirstTx(c, tx)
    ensures 0 < tx.amount + tx.fee <= MAX_INT64
  {
    hide TxSignatureOk;
  }

}
