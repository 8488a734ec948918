// The ledger along whole chains: money and nonces from genesis to any block of
// the tree, on any fork.
module ChainLedger {
  import opened Domain
  import opened Crypto
  import opened Text
  import opened Ledger
  import opened Tree
  import opened Engine
  import opened Steps
  import opened Runs
  import opened Theorems
  import opened Adoptions
  import opened Invariant
  import opened Stake
  import opened Misses
  import opened ForkChoice
  import opened Replays

  // The transactions of a chain, from its first block after genesis on.
  function ChainTxs(p: seq<Block>): seq<Transaction> {
    if |p| <= 1 then [] else ChainTxs(p[..|p| - 1]) + p[|p| - 1].txs
  }

  // The fees of the blocks whose producer has no address to collect them.
  function ChainBurned(c: Primitives, keys: map<string, string>, p: seq<Block>): int {
    if |p| <= 1 then 0
    else ChainBurned(c, keys, p[..|p| - 1]) + Burned(p[|p| - 1].txs, FeeAddress(c, keys, p[|p| - 1].validator))
  }

  ghost predicate AllCostsFit(txs: seq<Transaction>) {
    forall i :: 0 <= i < |txs| ==> CostFits(txs[i])
  }

  // Along the replay of a chain each sender covers what its transactions take on
  // balance.
  ghost predicate ChainCovers(c: Primitives, genesis: State, keys: map<string, string>, p: seq<Block>) {
    |p| > 1 ==>
      var front, b := p[..|p| - 1], p[|p| - 1];
      && ChainCovers(c, genesis, keys, front)
      && (Replay(c, genesis, keys, front).Ok? ==>
           CoversAll(Replay(c, genesis, keys, front).value, b.txs, FeeAddress(c, keys, b.validator)))
  }

  ghost predicate CoversIfReplayed(c: Primitives, genesis: State, keys: map<string, string>, p: seq<Block>) {
    Replay(c, genesis, keys, p).Ok? ==> ChainCovers(c, genesis, keys, p)
  }

  // So it is on a chain that replays and has no overflowing cost.
  lemma {:induction false} FittingCostsCovered(c: Primitives, genesis: State, keys: map<string, string>, p: seq<Block>)
    requires AllCostsFit(ChainTxs(p)) && Replay(c, genesis, keys, p).Ok?
    ensures ChainCovers(c, genesis, keys, p)
    decreases |p|
  {
    hide Apply, FeeAddress, CoversAll;
    if |p| > 1 {
      var front, b := p[..|p| - 1], p[|p| - 1];
      var earlier := ChainTxs(front);
      assert forall i :: 0 <= i < |earlier| ==> earlier[i] == ChainTxs(p)[i];
      FittingCostsCovered(c, genesis, keys, front);
      assert forall i :: 0 <= i < |b.txs| ==> b.txs[i] == ChainTxs(p)[|earlier| + i];
      FitIsCovered(Replay(c, genesis, keys, front).value, b.txs, FeeAddress(c, keys, b.validator));
    }
  }

  lemma {:induction false} ReplayConserves(c: Primitives, genesis: State, keys: map<string, string>, p: seq<Block>)
    requires Sound(genesis) && ChainCovers(c, genesis, keys, p) && Replay(c, genesis, keys, p).Ok?
    ensures var s := Replay(c, genesis, keys, p).value;
      Sound(s) && Total(s) == Total(genesis) - ChainBurned(c, keys, p)
    decreases |p|
  {
    hide Apply, FeeAddress, Burned, CoversAll;
    if |p| > 1 {
      var front, b := p[..|p| - 1], p[|p| - 1];
      ReplayConserves(c, genesis, keys, front);
      ApplyConserves(Replay(c, genesis, keys, front).value, b.txs, FeeAddress(c, keys, b.validator));
    }
  }

  lemma {:induction false} ReplayNonces(c: Primitives, genesis: State, keys: map<string, string>, p: seq<Block>,
                                        sender: string)
    requires Replay(c, genesis, keys, p).Ok?
    ensures var s := Replay(c, genesis, keys, p).value;
      var sent := SentBy(ChainTxs(p), sender);
      && AccountOf(s, sender).nonce == AccountOf(genesis, sender).nonce + |sent|
      && forall i :: 0 <= i < |sent| ==> sent[i].nonce == AccountOf(genesis, sender).nonce + i + 1
    decreases |p|
  {
    hide Apply, FeeAddress;
    if |p| > 1 {
      var front, b := p[..|p| - 1], p[|p| - 1];
      ReplayNonces(c, genesis, keys, front, sender);
      ApplyNonces(Replay(c, genesis, keys, front).value, b.txs, FeeAddress(c, keys, b.validator), sender);
      SentByAppend(ChainTxs(front), b.txs, sender);
    }
  }

  // ---------------------------------------------------------- in every run

  // Genesis balances are what SetBalance put there, and nothing was spent before
  // the first block.
  ghost predicate Plain(n: Node) {
    && (forall k :: k in n.genesis ==> n.genesis[k].nonce == 0 && n.genesis[k].balance >= 0)
    && (|n.chain| <= 1 ==> forall k :: k in n.state ==> n.state[k].nonce == 0)
  }

  // The chain never goes back to genesis alone.
  lemma StillAlone(c: Primitives, n: Node, m: Node)
    requires StepOk(c, n, m) && Good(c, n) && Sane(n) && |m.chain| <= 1
    ensures m.chain == n.chain
  {
    hide Inv, MovesTip, JudgesJustly, DrawnFrom, KeepsFinal, Sane, Balanced, JudgedLeaders;
    AloneAtZero(n);
    AloneAtZero(m);
  }

  lemma AloneAtZero(n: Node)
    requires Sane(n)
    ensures n.chain != [] && (|n.chain| <= 1 <==> TipSlot(n.chain) == 0)
  {
    hide Path, Registry, Covered, Clocked;
    PathLinked(n.blocks, n.chain[0], n.tip);
  }

  lemma StepKeepsPlain(c: Primitives, n: Node, e: Event, m: Node)
    requires Good(c, n) && Sane(n) && Step(c, n, e, m) && Plain(n)
    ensures Plain(m)
  {
    hide Good, Sane, CollisionFree, Step, StepOk, Replay;
    if e.BalanceSet? {
      assert m == SetBalance(n, e.address, e.amount) by { BalanceStep(c, n, e, m); }
    } else {
      StepTaken(c, n, e, m);
      StepState(c, n, e, m);
      if |m.chain| <= 1 {
        StillAlone(c, n, m);
      }
    }
  }

  lemma BalanceStep(c: Primitives, n: Node, e: Event, m: Node)
    requires Sane(n) && Step(c, n, e, m) && e.BalanceSet?
    ensures m == SetBalance(n, e.address, e.amount)
  {
    hide Sane, SetBalance;
  }

  lemma StepTaken(c: Primitives, n: Node, e: Event, m: Node)
    requires Good(c, n) && Sane(n) && Step(c, n, e, m)
    ensures StepOk(c, n, m)
  {
    hide Good, Sane, CollisionFree, Next, StepOk;
    StepKeeps(c, n, e, m);
  }

  lemma {:induction false} RunPlain(c: Primitives, ns: seq<Node>, es: seq<Event>, i: nat)
    requires |ns| > 0 && Fresh(c, ns[0]) && Run(c, ns[0], ns, es) && i < |ns|
    ensures Plain(ns[i])
  {
    hide Step, Plain, Good, Sane, Fresh;
    if i > 0 {
      RunPlain(c, ns, es, i - 1);
      RunGood(c, ns, es, i - 1);
      assert Step(c, ns[i - 1], es[i - 1], ns[i]);
      StepKeepsPlain(c, ns[i - 1], es[i - 1], ns[i]);
    } else {
      PlainStart(c, ns[0]);
    }
  }

  lemma PlainStart(c: Primitives, n: Node)
    requires Fresh(c, n)
    ensures Plain(n)
  {
    hide Fresh;
    FreshEmpty(c, n);
  }

  // A producer whose block was accepted can collect fees.
  lemma {:induction false} NothingBurned(c: Primitives, keys: map<string, string>, p: seq<Block>)
    requires forall i :: 0 < i < |p| ==> p[i].validator in keys && PublicKeyOk(c, keys[p[i].validator])
    ensures ChainBurned(c, keys, p) == 0
    decreases |p|
  {
    if |p| > 1 {
      NothingBurned(c, keys, p[..|p| - 1]);
      assert FeeAddress(c, keys, p[|p| - 1].validator) != "";
    }
  }

  lemma PathBurnsNothing(c: Primitives, n: Node, h: string)
    requires Sane(n) && Vetted(c, n) && h in n.blocks
    ensures ChainBurned(c, n.keys, Path(n.blocks, n.chain[0], h)) == 0
  {
    hide Vetted, Path, Vouched, IsTree, Sane, ChainBurned, PublicKeyOk;
    SaneTree(n);
    var p := Path(n.blocks, n.chain[0], h);
    PathVouched(c, n, h);
    forall k | 0 < k < |p| ensures p[k].validator in n.keys && PublicKeyOk(c, n.keys[p[k].validator]) {
      VouchedKey(c, n.keys, p[k]);
    }
    NothingBurned(c, n.keys, p);
  }

  // No money is made on any chain of any run, and none is lost but fees of
  // producers who are gone: wherever the replay up to a stored block succeeds, its
  // balances are non-negative and add up to what genesis gave out, less those
  // fees, as long as that fits in an int and each sender covers what it spends.
  lemma MoneyIsConserved(c: Primitives, ns: seq<Node>, es: seq<Event>, i: nat, h: string)
    requires |ns| > 0 && Fresh(c, ns[0]) && Run(c, ns[0], ns, es) && i < |ns|
    requires Sane(ns[i]) && h in ns[i].blocks && StateAtTip(c, ns[i], h).Ok?
    requires Total(ns[i].genesis) <= MAX_INT64
    requires ChainCovers(c, ns[i].genesis, KeysOf(ns[i].validators), Path(ns[i].blocks, ns[i].chain[0], h))
    ensures var s := StateAtTip(c, ns[i], h).value;
      && Total(s) == Total(ns[i].genesis)
           - ChainBurned(c, KeysOf(ns[i].validators), Path(ns[i].blocks, ns[i].chain[0], h))
      && forall k :: k in s ==> s[k].balance >= 0
  {
    hide Run, Fresh, Path, Replay, Total, Sane, ChainCovers, ChainBurned, IsTree, KeysOf;
    RunPlain(c, ns, es, i);
    SaneTree(ns[i]);
    ReplayConserves(c, ns[i].genesis, KeysOf(ns[i].validators), Path(ns[i].blocks, ns[i].chain[0], h));
  }

  // In an orderly state with all producers registered every replay succeeds, and
  // no fee is ever burned.
  lemma NothingIsBurned(c: Primitives, ns: seq<Node>, es: seq<Event>, i: nat, h: string)
    requires |ns| > 0 && Fresh(c, ns[0]) && Run(c, ns[0], ns, es) && Orderly(ns, es) && i < |ns|
    requires Registered(ns[i].keys, ns[i].validators) && h in ns[i].blocks
    ensures Sane(ns[i]) && StateAtTip(c, ns[i], h).Ok?
    ensures ChainBurned(c, KeysOf(ns[i].validators), Path(ns[i].blocks, ns[i].chain[0], h)) == 0
  {
    hide Run, Fresh, Orderly, Good, Vetted, Path, Replay, StateAtTip, Sane, ChainBurned, IsTree, PublicKeyOk;
    RunLedgered(c, ns, es, i);
    var n := ns[i];
    SaneTree(n);
    ReplayWithRegistry(c, n, h);
    PathReplays(c, n, h);
    var p := Path(n.blocks, n.chain[0], h);
    PathVouched(c, n, h);
    LedgeredKeys(c, n);
    forall k | 0 < k < |p|
      ensures p[k].validator in KeysOf(n.validators) && PublicKeyOk(c, KeysOf(n.validators)[p[k].validator])
    {
      VouchedKey(c, n.keys, p[k]);
    }
    NothingBurned(c, KeysOf(n.validators), p);
  }

  lemma VouchedKey(c: Primitives, keys: map<string, string>, b: Block)
    requires Vouched(c, keys, b)
    ensures b.validator in keys && PublicKeyOk(c, keys[b.validator])
  {
  }

  // No transaction is replayed on any fork: wherever the replay up to a stored
  // block succeeds, the transactions of a sender along the path carry the nonces
  // 1, 2, 3, ... without gap or repeat, and the account's nonce is their number.
  lemma NoReplayOnAnyFork(c: Primitives, ns: seq<Node>, es: seq<Event>, i: nat, h: string, sender: string)
    requires |ns| > 0 && Fresh(c, ns[0]) && Run(c, ns[0], ns, es) && i < |ns|
    requires Sane(ns[i]) && h in ns[i].blocks && StateAtTip(c, ns[i], h).Ok?
    ensures var sent := SentBy(ChainTxs(Path(ns[i].blocks, ns[i].chain[0], h)), sender);
      && AccountOf(StateAtTip(c, ns[i], h).value, sender).nonce == |sent|
      && InSequence(sent)
  {
    hide Run, Fresh, Path, Replay, Sane, ChainTxs, SentBy, IsTree, KeysOf;
    RunPlain(c, ns, es, i);
    SaneTree(ns[i]);
    ReplayNonces(c, ns[i].genesis, KeysOf(ns[i].validators), Path(ns[i].blocks, ns[i].chain[0], h), sender);
  }

  ghost predicate InSequence(sent: seq<Transaction>) {
    forall k :: 0 <= k < |sent| ==> sent[k].nonce == k + 1
  }

  // --------------------------------------------------- the canonical chain itself

  // Whatever chain was adopted in a run, its replay at that moment succeeded.
  ghost predicate AdoptionsReplay(c: Primitives, ns: seq<Node>) {
    forall i :: 0 < i < |ns| ==> AdoptionReplays(c, ns[i - 1], ns[i])
  }

  ghost predicate AdoptionReplays(c: Primitives, n: Node, m: Node) {
    m.chain != n.chain ==> Replay(c, m.genesis, KeysOf(n.validators), m.chain).Ok?
  }

  // As long as no adoption's replay fails, whoever sets balances late or leaves
  // the registry, no transaction stands twice on the canonical chain.
  lemma {:induction false} CanonicalNonces(c: Primitives, ns: seq<Node>, es: seq<Event>, i: nat, sender: string)
    requires |ns| > 0 && Fresh(c, ns[0]) && Run(c, ns[0], ns, es) && AdoptionsReplay(c, ns) && i < |ns|
    ensures InSequence(SentBy(ChainTxs(ns[i].chain), sender))
  {
    hide Run, Fresh, Good, Sane, ChainTxs, SentBy, Replay, KeysOf, InSequence, AdoptionReplays;
    if i == 0 {
      FreshAlone(c, ns[0]);
      OnlyGenesisTxs(ns[0].chain, sender);
    } else {
      CanonicalNonces(c, ns, es, i - 1, sender);
      assert AdoptionReplays(c, ns[i - 1], ns[i]);
      if ns[i].chain != ns[i - 1].chain {
        RunPlain(c, ns, es, i);
        ReplayedInSequence(c, ns[i - 1], ns[i], sender);
      }
    }
  }

  lemma ReplayedInSequence(c: Primitives, n: Node, m: Node, sender: string)
    requires AdoptionReplays(c, n, m) && m.chain != n.chain && Plain(m)
    ensures InSequence(SentBy(ChainTxs(m.chain), sender))
  {
    hide Replay, ChainTxs, SentBy, KeysOf;
    ReplayNonces(c, m.genesis, KeysOf(n.validators), m.chain, sender);
  }

  lemma OnlyGenesisTxs(p: seq<Block>, sender: string)
    requires |p| <= 1
    ensures InSequence(SentBy(ChainTxs(p), sender))
  {
  }

  lemma FreshAlone(c: Primitives, n: Node)
    requires Fresh(c, n)
    ensures |n.chain| == 1
  {
    hide GenesisBlock;
  }

  // And its balances, as each adoption leaves them, add up to what genesis gave
  // out, less the fees of producers who were gone by then.
  lemma AdoptionConserves(c: Primitives, ns: seq<Node>, es: seq<Event>, i: nat)
    requires |ns| > 0 && Fresh(c, ns[0]) && Run(c, ns[0], ns, es) && i + 1 < |ns|
    requires ns[i + 1].chain != ns[i].chain && AdoptionReplays(c, ns[i], ns[i + 1])
    requires Total(ns[i + 1].genesis) <= MAX_INT64
    requires ChainCovers(c, ns[i + 1].genesis, KeysOf(ns[i].validators), ns[i + 1].chain)
    ensures Total(ns[i + 1].state)
      == Total(ns[i + 1].genesis) - ChainBurned(c, KeysOf(ns[i].validators), ns[i + 1].chain)
    ensures var s := ns[i + 1].state; forall k :: k in s ==> s[k].balance >= 0
  {
    hide Fresh, Good, Sane, Step, Total, Replay, ChainCovers, ChainBurned, KeysOf;
    RunGood(c, ns, es, i);
    RunPlain(c, ns, es, i + 1);
    assert Step(c, ns[i], es[i], ns[i + 1]);
    if es[i].BalanceSet? {
      BalanceStep(c, ns[i], es[i], ns[i + 1]);
      assert false;
    } else {
      StepState(c, ns[i], es[i], ns[i + 1]);
      ReplayConserves(c, ns[i + 1].genesis, KeysOf(ns[i].validators), ns[i + 1].chain);
    }
  }

  // --------------------------------------------------- the state and its replay

  lemma {:induction false} ApplyFeeless(s: State, txs: seq<Transaction>, producer: string)
    requires Apply(s, txs, producer).Ok? && Burned(txs, "") == 0
    ensures Apply(s, txs, "") == Apply(s, txs, producer)
    decreases |txs|
  {
    hide ApplyOne;
    if txs != [] {
      var last := |txs| - 1;
      FeesCount(s, txs[..last], producer);
      LastFee(Apply(s, txs[..last], producer).value, txs[last], producer);
      ApplyFeeless(s, txs[..last], producer);
    }
  }

  lemma LastFee(s: State, tx: Transaction, producer: string)
    requires ApplyOne(s, tx, producer).Ok?
    ensures tx.fee >= 0 && (tx.fee == 0 ==> ApplyOne(s, tx, "") == ApplyOne(s, tx, producer))
  {
    hide WrapInt64, WrapUint64;
  }

  // The fees of an accepted list are no less than 0.
  lemma {:induction false} FeesCount(s: State, txs: seq<Transaction>, producer: string)
    requires Apply(s, txs, producer).Ok?
    ensures Burned(txs, "") >= 0 && Burned(txs, producer) >= 0
    decreases |txs|
  {
    hide ApplyOne;
    if txs != [] {
      var last := |txs| - 1;
      FeesCount(s, txs[..last], producer);
      LastFee(Apply(s, txs[..last], producer).value, txs[last], producer);
    }
  }

  // Either the registry gives a producer the address of the time, or none.
  ghost predicate SameOrNone(c: Primitives, j: map<string, string>, k: map<string, string>, p: seq<Block>) {
    forall i :: 0 < i < |p| ==>
      FeeAddress(c, j, p[i].validator) == FeeAddress(c, k, p[i].validator) || FeeAddress(c, j, p[i].validator) == ""
  }

  // When none of the fees that are lost now is more than 0, nothing is lost.
  lemma {:induction false} BurnsNothingReplaysSame(c: Primitives, genesis: State, j: map<string, string>,
                                                   k: map<string, string>, p: seq<Block>)
    requires SameOrNone(c, j, k, p) && Replay(c, genesis, k, p).Ok?
    ensures ChainBurned(c, j, p) >= 0
    ensures ChainBurned(c, j, p) == 0 ==> Replay(c, genesis, j, p) == Replay(c, genesis, k, p)
    decreases |p|
  {
    hide Apply, FeeAddress, Burned;
    if |p| > 1 {
      var front, b := p[..|p| - 1], p[|p| - 1];
      var before := Replay(c, genesis, k, front).value;
      BurnsNothingReplaysSame(c, genesis, j, k, front);
      FeesCount(before, b.txs, FeeAddress(c, k, b.validator));
      var now := FeeAddress(c, j, b.validator);
      assert now == FeeAddress(c, k, b.validator) || now == "";
      if ChainBurned(c, j, p) == 0 && now == "" {
        ApplyFeeless(before, b.txs, FeeAddress(c, k, b.validator));
      }
    }
  }

  // In every state of an orderly run, producers gone or not: the replay under the
  // recorded keys succeeds up to any stored block, gives the state whose root the
  // block carries, and up to the tip the balances kept up to date. What the
  // engine replays with the registry of now is that state exactly when no fee is
  // lost to a producer who is gone.
  lemma StateRefinesReplay(c: Primitives, ns: seq<Node>, es: seq<Event>, i: nat, h: string)
    requires |ns| > 0 && Fresh(c, ns[0]) && Run(c, ns[0], ns, es) && Orderly(ns, es) && i < |ns| && h in ns[i].blocks
    ensures Sane(ns[i])
    ensures var n := ns[i];
      var recorded := Replay(c, n.genesis, n.keys, Path(n.blocks, n.chain[0], h));
      && recorded.Ok?
      && (h == n.tip ==> recorded.value == n.state)
      && (h != n.chain[0].hash ==> StateRoot(c, recorded.value) == n.blocks[h].stateRoot)
    ensures var n, vs := ns[i], KeysOf(ns[i].validators);
      var p := Path(n.blocks, n.chain[0], h);
      Total(n.genesis) <= MAX_INT64 && CoversIfReplayed(c, n.genesis, vs, p) && ChainCovers(c, n.genesis, n.keys, p) ==>
        (StateAtTip(c, n, h) == Replay(c, n.genesis, n.keys, p) <==> ChainBurned(c, vs, p) == 0)
  {
    hide Run, Fresh, Orderly, Good, AllVouched, AllRooted, KeysCurrent, Replay, StateRoot, Sane, Path, IsTree,
      ChainCovers, ChainBurned, KeysOf, Total;
    RunLedgered(c, ns, es, i);
    RunPlain(c, ns, es, i);
    var n := ns[i];
    SaneTree(n);
    PathReplays(c, n, h);
    PathRooted(c, n, h);
    var p := Path(n.blocks, n.chain[0], h);
    PathBurnsNothing(c, n, h);
    PathSameOrNone(c, n, h);
    BurnsNothingReplaysSame(c, n.genesis, KeysOf(n.validators), n.keys, p);
    if Total(n.genesis) <= MAX_INT64 && CoversIfReplayed(c, n.genesis, KeysOf(n.validators), p)
      && ChainCovers(c, n.genesis, n.keys, p) && Replay(c, n.genesis, KeysOf(n.validators), p).Ok? {
      ReplayConserves(c, n.genesis, n.keys, p);
      ReplayConserves(c, n.genesis, KeysOf(n.validators), p);
    }
  }

  lemma PathRooted(c: Primitives, n: Node, h: string)
    requires Ledgered(c, n) && h in n.blocks
    ensures Sane(n) && Replay(c, n.genesis, n.keys, Path(n.blocks, n.chain[0], h)).Ok?
    ensures h != n.chain[0].hash ==>
      StateRoot(c, Replay(c, n.genesis, n.keys, Path(n.blocks, n.chain[0], h)).value) == n.blocks[h].stateRoot
  {
    hide AllVouched, KeysCurrent, Replay, StateRoot, Registry, Covered, Clocked, Path;
    PathReplays(c, n, h);
    if h != n.chain[0].hash {
      assert Roots(c, n.genesis, n.keys, Path(n.blocks, n.chain[0], h));
    }
  }

  lemma PathSameOrNone(c: Primitives, n: Node, h: string)
    requires Sane(n) && Vetted(c, n) && h in n.blocks
    ensures SameOrNone(c, KeysOf(n.validators), n.keys, Path(n.blocks, n.chain[0], h))
  {
    hide AllVouched, AllRooted, Sane, Path, IsTree, AddressFromPubKey;
    SaneTree(n);
    PathProducers(c, n, h);
  }

  // ------------------------------------------------------ why H1 is a hypothesis

  // What the call does to every account, of the state and of genesis.
  lemma SetBalanceExact(n: Node, address: string, amount: Int64, k: string)
    ensures var m := SetBalance(n, address, amount);
      && AccountOf(m.state, k).nonce == AccountOf(n.state, k).nonce
      && AccountOf(m.state, k).balance
        == (if amount >= 0 && k == address then amount else AccountOf(n.state, k).balance)
      && AccountOf(m.genesis, k)
        == if amount >= 0 && k == address && |n.chain| <= 1 then AccountOf(m.state, k) else AccountOf(n.genesis, k)
  {
  }

  // With blocks on the chain, a call of SetBalance leaves the state equal to its
  // replay exactly when it changes nothing.
  lemma LateSetBalance(c: Primitives, n: Node, address: string, amount: Int64)
    requires Ledgered(c, n) && |n.chain| > 1
    ensures Replay(c, n.genesis, n.keys, n.chain) == Ok(SetBalance(n, address, amount).state)
        <==> amount < 0 || (address in n.state && n.state[address].balance == amount)
    ensures SetBalance(n, address, amount).genesis == n.genesis
  {
    hide Sane, Vetted, Replay;
    if amount >= 0 {
      var s := SetBalance(n, address, amount).state;
      if address in n.state && n.state[address].balance == amount {
        assert s == n.state;
      } else {
        assert address in s && s[address].balance == amount;
      }
    }
  }

  // With genesis alone on the chain but other blocks stored beside it, the
  // genesis balances do change, and the state goes with them; what may be lost
  // is the state root of a block beside the chain.
  lemma SetBalanceBeside(c: Primitives, n: Node, address: string, amount: Int64)
    requires Ledgered(c, n) && |n.chain| == 1 && amount >= 0
    ensures var m := SetBalance(n, address, amount);
      && m.genesis == n.genesis[address := AccountOf(n.genesis, address).(balance := amount)]
      && Replay(c, m.genesis, m.keys, m.chain) == Ok(m.state)
  {
    hide Sane, Vetted;
  }

  // Along a path of empty blocks the replay is the genesis balances, so the root
  // of its last block is lost exactly when the root of the genesis balances
  // changes.
  lemma EmptyPathLosesRoot(c: Primitives, n: Node, h: string, address: string, amount: Int64)
    requires Ledgered(c, n) && Sane(n) && |n.chain| == 1 && h in n.blocks && h != n.chain[0].hash
    requires forall i :: 0 < i < |Path(n.blocks, n.chain[0], h)| ==> Path(n.blocks, n.chain[0], h)[i].txs == []
    ensures Roots(c, SetBalance(n, address, amount).genesis, n.keys, Path(n.blocks, n.chain[0], h))
        <==> StateRoot(c, SetBalance(n, address, amount).genesis) == StateRoot(c, n.genesis)
  {
    hide Sane, IsTree, Path, StateRoot, AllVouched, KeysCurrent, Replay;
    SaneTree(n);
    var p := Path(n.blocks, n.chain[0], h);
    EmptyReplay(c, n.genesis, n.keys, p);
    EmptyReplay(c, SetBalance(n, address, amount).genesis, n.keys, p);
    assert Roots(c, n.genesis, n.keys, p);
  }

  lemma {:induction false} EmptyReplay(c: Primitives, genesis: State, keys: map<string, string>, p: seq<Block>)
    requires forall i :: 0 < i < |p| ==> p[i].txs == []
    ensures Replay(c, genesis, keys, p) == Ok(genesis)
    decreases |p|
  {
    hide FeeAddress;
    if |p| > 1 {
      EmptyReplay(c, genesis, keys, p[..|p| - 1]);
    }
  }

  // What all blocks of a chain give to an account and take from it.
  function ChainMoved(c: Primitives, keys: map<string, string>, p: seq<Block>, k: string): int {
    if |p| <= 1 then 0
    else ChainMoved(c, keys, p[..|p| - 1], k) + MovedAll(p[|p| - 1].txs, FeeAddress(c, keys, p[|p| - 1].validator), k)
  }

  lemma {:induction false} ReplayMoves(c: Primitives, genesis: State, keys: map<string, string>, p: seq<Block>,
                                       k: string)
    requires Sound(genesis) && ChainCovers(c, genesis, keys, p) && Replay(c, genesis, keys, p).Ok?
    ensures AccountOf(Replay(c, genesis, keys, p).value, k).balance
      == AccountOf(genesis, k).balance + ChainMoved(c, keys, p, k)
    decreases |p|
  {
    hide Apply, FeeAddress, MovedAll, Burned, Total, CoversAll;
    if |p| > 1 {
      var front, b := p[..|p| - 1], p[|p| - 1];
      ReplayMoves(c, genesis, keys, front, k);
      ReplayConserves(c, genesis, keys, front);
      ApplyMoves(Replay(c, genesis, keys, front).value, b.txs, FeeAddress(c, keys, b.validator), k);
    }
  }

  // And on any path whose costs fit: once the call changes a balance, the root
  // of a block beside the chain is lost, unless it is the root of two states.
  lemma SideRootLost(c: Primitives, n: Node, h: string, address: string, amount: Int64)
    requires Ledgered(c, n) && Sane(n) && |n.chain| == 1 && h in n.blocks && h != n.chain[0].hash
    requires amount >= 0 && AccountOf(n.genesis, address).balance != amount
    requires Sound(n.genesis) && Sound(SetBalance(n, address, amount).genesis)
    requires ChainCovers(c, n.genesis, n.keys, Path(n.blocks, n.chain[0], h))
    requires CoversIfReplayed(c, SetBalance(n, address, amount).genesis, n.keys, Path(n.blocks, n.chain[0], h))
    ensures var p := Path(n.blocks, n.chain[0], h);
      var was, now := Replay(c, n.genesis, n.keys, p), Replay(c, SetBalance(n, address, amount).genesis, n.keys, p);
      && was.Ok? && StateRoot(c, was.value) == n.blocks[h].stateRoot
      && (Roots(c, SetBalance(n, address, amount).genesis, n.keys, p) ==>
           now.Ok? && now.value != was.value && StateRoot(c, now.value) == StateRoot(c, was.value))
  {
    hide Sane, IsTree, Path, StateRoot, AllVouched, KeysCurrent, Replay, Sound, ChainCovers, ChainMoved;
    SaneTree(n);
    var p := Path(n.blocks, n.chain[0], h);
    var genesis := SetBalance(n, address, amount).genesis;
    assert Roots(c, n.genesis, n.keys, p);
    ReplayMoves(c, n.genesis, n.keys, p, address);
    SetBalanceBeside(c, n, address, amount);
    if Replay(c, genesis, n.keys, p).Ok? {
      ReplayMoves(c, genesis, n.keys, p, address);
    }
  }

  // For addresses without ':', and unless SHA-256 collides on the two preimages,
  // the root of the genesis balances changes exactly when they do.
  lemma GenesisRootKept(c: Primitives, n: Node, address: string, amount: Int64)
    requires forall k :: k in n.genesis ==> ':' !in k
    requires ':' !in address
    requires c.sha256(StatePreimage(n.genesis)) == c.sha256(StatePreimage(SetBalance(n, address, amount).genesis)) ==>
      StatePreimage(n.genesis) == StatePreimage(SetBalance(n, address, amount).genesis)
    ensures StateRoot(c, SetBalance(n, address, amount).genesis) == StateRoot(c, n.genesis)
        <==> SetBalance(n, address, amount).genesis == n.genesis
  {
    hide StatePreimage, HexEncode;
    var after := SetBalance(n, address, amount).genesis;
    StatePreimageInjective(n.genesis, after);
    HexRoundTrip(c.sha256(StatePreimage(n.genesis)));
    HexRoundTrip(c.sha256(StatePreimage(after)));
  }
}
