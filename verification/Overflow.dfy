// Money from nothing, reached from a new engine in two calls: why conservation
// asks that senders cover what they spend.
module Overflow {
  import opened Domain
  import opened Crypto
  import opened Ledger
  import opened Stake
  import opened Storage
  import opened Engine
  import opened Runs
  import opened Theorems
  import opened Replays
  import opened Steps
  import opened Solo

  // What its sender signs.
  function Unsigned(to: string): Transaction {
    Transaction("", to, MAX_INT64, MAX_INT64, 1, "", "", "")
  }

  lemma SignedOverflow(c: Primitives, u: PrivateKey, to: string, entropy: nat, producer: string)
    requires SignatureContract(c) && SignTransaction(c, u, Unsigned(to), entropy).Some?
    requires producer != "" && to != producer
    requires AddressFromPubKey(c, c.publicKey(u)) != Some(producer) && AddressFromPubKey(c, c.publicKey(u)) != Some(to)
    ensures var tx := SignTransaction(c, u, Unsigned(to), entropy).value;
      TxSignatureOk(c, tx) && Overflowing(tx, producer)
  {
    hide SignatureContract, TxSignatureOk, HashTx;
    SignedTransactionVerifies(c, u, Unsigned(to), entropy);
    assert |AddressFromPubKey(c, c.publicKey(u)).value| == 64;
  }

  lemma OneTx(c: Primitives, keys: map<string, string>, p: seq<Block>, front: seq<Block>, tx: Transaction,
              producer: string)
    requires |p| == 2 && |front| == 1 && p[..1] == front && p[1].txs == [tx]
    requires FeeAddress(c, keys, p[1].validator) == producer
    requires Overflowing(tx, producer)
    ensures Apply(map[], [tx], producer).Ok? && Replay(c, map[], keys, p) == Apply(map[], [tx], producer)
    ensures Total(Apply(map[], [tx], producer).value) == TWO_64
  {
    hide ApplyOne, FeeAddress, Total;
    WrappedCostCreatesMoney(tx, producer);
    assert [tx][..0] == [];
  }

  lemma OverflowApplies(c: Primitives, tx: Transaction, producer: string)
    requires TxSignatureOk(c, tx) && Overflowing(tx, producer)
    ensures CheckTransactions(c, [tx]).None? && Apply(map[], [tx], producer).Ok?
  {
    hide TxSignatureOk, ApplyOne;
    CheckedIsSigned(c, [tx]);
    WrappedCostCreatesMoney(tx, producer);
    assert [tx][..0] == [];
  }

  // The address that the validator's fees go to.
  lemma AloneCollects(c: Primitives, n: Node, name: string, k: PrivateKey, slot: nat)
    requires Alone(c, n, name, k, slot) && PublicKeyOk(c, c.publicKey(k))
    ensures AddressFromPubKey(c, c.publicKey(k)) == Some(FeeAddress(c, KeysOf(n.validators), name))
    ensures FeeAddress(c, KeysOf(n.validators), name) != ""
  {
    hide Good, Sane, TipSlot;
    assert |AddressFromPubKey(c, c.publicKey(k)).value| == 64;
  }

  lemma StateMade(c: Primitives, n: Node, m: Node, name: string, tx: Transaction)
    requires Extended(c, n, m, name, [tx]) && |n.chain| == 1 && n.genesis == map[]
    requires Overflowing(tx, FeeAddress(c, KeysOf(n.validators), name))
    ensures m.genesis == map[] && Total(m.state) == TWO_64
  {
    hide Replay, FeeAddress, KeysOf, StartSlot, TipSlot, Reward, Apply, Overflowing, Total;
    OneTx(c, KeysOf(n.validators), m.chain, n.chain, tx, FeeAddress(c, KeysOf(n.validators), name));
  }

  function Calls(c: Primitives, name: string, stake: int, k: PrivateKey, entropy: nat, tx: Transaction): seq<Event> {
    [Joining(c, name, stake, k), BlockAdded([tx], entropy, BothWritten)]
  }

  // A new engine, one validator, and one call of AddBlock with a signed
  // transaction whose cost overflows: an orderly run, at whose end the balances
  // add up to 2^64, while genesis has given out nothing.
  lemma BalancesFromNothing(c: Primitives, cfg: Config, seed: Digest, store: Option<Store>, name: string, stake: int,
                            k: PrivateKey, entropy: nat, u: PrivateKey, to: string, ns: seq<Node>)
    requires SignatureContract(c) && (forall d :: c.sign(k, d, entropy).Some?)
    requires SignTransaction(c, u, Unsigned(to), entropy).Some?
    requires name != "" && MIN_STAKE <= stake <= MAX_UINT64
    requires Defaulted(cfg).epochLength > 1 && cfg.maxReorgDepth >= 0 && cfg.minReorgWeightDeltaP <= 0
    requires AddressFromPubKey(c, c.publicKey(u)) != AddressFromPubKey(c, c.publicKey(k))
    requires AddressFromPubKey(c, c.publicKey(u)) != Some(to) && AddressFromPubKey(c, c.publicKey(k)) != Some(to)
    requires var tx := SignTransaction(c, u, Unsigned(to), entropy).value;
      |ns| == 3 && Run(c, NewNode(c, cfg, seed, store), ns, Calls(c, name, stake, k, entropy, tx))
    ensures Orderly(ns, Calls(c, name, stake, k, entropy, SignTransaction(c, u, Unsigned(to), entropy).value))
    ensures ns[2].genesis == map[] && Total(ns[2].state) == TWO_64 && |ns[2].chain| == 2
  {
    hide SignatureContract, Step, Alone, NewNode, SignTransaction, AddressFromPubKey, Extended, Total, Overflowing,
      TxSignatureOk, CheckTransactions, Apply, FeeAddress, StepOk, Registered, StartSlot, KeysOf;
    var tx := SignTransaction(c, u, Unsigned(to), entropy).value;
    var es := Calls(c, name, stake, k, entropy, tx);
    assert Step(c, ns[0], es[0], ns[1]) && Step(c, ns[1], es[1], ns[2]);
    KeyNamed(c, k, entropy);
    Joins(c, cfg, seed, store, name, stake, k, ns[1]);
    AloneCollects(c, ns[1], name, k, 0);
    var producer := FeeAddress(c, KeysOf(ns[1].validators), name);
    SignedOverflow(c, u, to, entropy, producer);
    OverflowApplies(c, tx, producer);
    AloneBlock(c, ns[1], name, k, 0, [tx], entropy, ns[2]);
    AloneEpochs(c, ns[1], name, k, 0);
    StartSlotCfg(c, ns[1]);
    BodyGiven(c, StartSlot(c, ns[1]), [tx]);
    StateMade(c, ns[1], ns[2], name, tx);
    ChainGrown(c, ns[1], ns[2], name, [tx]);
    FirstKeys(c, cfg, seed, store);
    NoneRecorded(ns[0].validators);
    NoneRecorded(ns[1].validators);
  }
}
