// The parts of AddBlock, AddBlockExternal and verifyBlockOnAccept that change
// nothing: putting a block together, and looking it over.
module Assembly {
  import opened Domain
  import opened Crypto
  import opened Poh
  import opened Ledger
  import opened Stake
  import opened Engine
  import opened Walks

  method VerifyContents(c: Primitives, vs: Validators, b: Block, before: State) returns (e: Option<AcceptError>)
    ensures e == CheckContents(c, vs, b, before)
  {
    hide CheckTransactions, TxRoot, StateRoot, Apply, FeeAddress, BlockSignatureOk, KeysOf;
    var bad := VerifyTransactions(c, b.txs);
    if bad.Some? {
      return Some(BadTransaction(bad.value));
    }
    var txRoot := ComputeTxRoot(c, b.txs);
    if txRoot != b.txRoot {
      return Some(WrongTxRoot);
    }
    var producer := RewardAddress(c, vs, b.validator);
    var next := ApplyTransactions(before, b.txs, producer);
    if next.Err? {
      return Some(BadTransaction(next.error));
    }
    var stateRoot := ComputeStateRoot(c, next.value);
    if stateRoot != b.stateRoot {
      return Some(WrongStateRoot);
    }
    if b.validator !in vs {
      return Some(UnknownProducer);
    }
    if !BlockSignatureOk(c, b, vs[b.validator].pubKey) {
      return Some(BadBlockSignature);
    }
    return None;
  }

  // n is the node whose registry and clock these are.
  method SignDraft(c: Primitives, ghost n: Node, vs: Validators, tick: nat, hash: Digest, parent: Block,
                   base: Result<State, TxError>, leader: string, txs: seq<Transaction>, entropy: nat)
    returns (r: Result<Block, EngineError>)
    requires n.validators == vs && n.poh == PohState(tick, hash)
    ensures r == SignedDraft(c, n, parent, base, leader, txs, entropy)
    ensures r.Ok? ==> r.value.slot == SlotOf(tick)
  {
    hide Apply, CheckTransactions, FeeAddress, HashBlock, TxRoot, StateRoot, PoHHashHex, KeysOf;
    var bad := VerifyTransactions(c, txs);
    if bad.Some? {
      return Err(BadBody(bad.value));
    }
    if base.Err? {
      return Err(ReplayFailed(base.error));
    }
    var producer := RewardAddress(c, vs, leader);
    var next := ApplyTransactions(base.value, txs, producer);
    if next.Err? {
      return Err(BadBody(next.error));
    }
    var txRoot := ComputeTxRoot(c, txs);
    var stateRoot := ComputeStateRoot(c, next.value);
    var draft := Block(parent.index + 1, parent.hash, SlotOf(tick), tick, leader, txRoot, stateRoot,
      PoHHashHex(hash), "", "", txs);
    assert draft == Draft(c, n, parent, next.value, leader, txs);
    if leader !in vs || vs[leader].privKey.None? {
      return Err(MissingSigningKey);
    }
    var signed := SignBlock(c, vs[leader].privKey.value, draft, entropy);
    if signed.None? {
      return Err(SigningFailed);
    }
    return Ok(signed.value);
  }
}
