// Where stored blocks come from, and who can move money: whatever is on any fork
// or in the pool was signed with a key that owns the sender's address.
module Ownership {
  import opened Domain
  import opened Text
  import opened Crypto
  import opened Poh
  import opened Ledger
  import opened Stake
  import opened Mempool
  import opened Tree
  import opened Storage
  import opened Engine
  import opened ForkChoice
  import opened Misses
  import opened Steps
  import opened Production
  import opened Runs
  import opened Theorems
  import opened NewBlocks

  // What ECDSA promises besides SignatureContract, as an ideal: nothing verifies
  // under a public key but what its private key has signed.
  ghost predicate Unforgeable(c: Primitives) {
    forall raw, d, sig :: c.verify(raw, d, sig) ==> SomeoneSigned(c, raw, d, sig)
  }

  ghost predicate SomeoneSigned(c: Primitives, raw: string, d: string, sig: string) {
    exists k, e :: HexDecode(c.publicKey(k)) == Some(raw) && c.sign(k, d, e) == Some(sig)
  }

  // Someone whose key hashes to the sender's address has signed these six fields.
  ghost predicate SignedByOwner(c: Primitives, tx: Transaction) {
    exists k, e ::
      && AddressFromPubKey(c, c.publicKey(k)) == Some(tx.from)
      && HexDecode(tx.signature).Some? && c.sign(k, HashTx(c, tx), e) == HexDecode(tx.signature)
  }

  lemma CheckedByOwner(c: Primitives, tx: Transaction)
    requires Unforgeable(c) && TxSignatureOk(c, tx)
    ensures SignedByOwner(c, tx)
  {
    hide HashTx, HexDecode;
    var raw, sig := HexDecode(tx.pubKey).value, HexDecode(tx.signature).value;
    assert SomeoneSigned(c, raw, HashTx(c, tx), sig);
    var k, e :| HexDecode(c.publicKey(k)) == Some(raw) && c.sign(k, HashTx(c, tx), e) == Some(sig);
    assert AddressFromPubKey(c, c.publicKey(k)) == AddressFromPubKey(c, tx.pubKey);
  }

  // The step of a run that stored a block: whoever the block names was registered
  // then, with a key that verifies the block's signature, and all transactions in
  // it had passed the check.
  lemma {:induction false} BlockOrigin(c: Primitives, ns: seq<Node>, es: seq<Event>, i: nat, h: string) returns (k: nat)
    requires |ns| > 0 && Fresh(c, ns[0]) && Run(c, ns[0], ns, es) && i < |ns| && |ns| == |es| + 1
    requires h in ns[i].blocks && ns[i].blocks[h].prevHash != GENESIS_PARENT
    ensures k < i && h !in ns[k].blocks && h in ns[k + 1].blocks && (es[k].BlockAdded? || es[k].ExternalBlockAdded?)
    ensures var b := ns[i].blocks[h];
      && b.validator in ns[k].validators && BlockSignatureOk(c, b, ns[k].validators[b.validator].pubKey)
      && AllSigned(c, b.txs)
      && b.tick == ns[k].poh.tick + TICKS_PER_SLOT
  {
    hide Run, Fresh, Good, Sane, MovesTip, JudgesJustly, DrawnFrom, KeepsFinal, BlockSignatureOk, AllSigned;
    if i == 0 {
      FreshStored(c, ns[0], h);
    }
    RunSteps(c, ns, es, i - 1);
    if h in ns[i - 1].blocks {
      assert ns[i].blocks[h] == ns[i - 1].blocks[h];
      k := BlockOrigin(c, ns, es, i - 1, h);
    } else {
      k := i - 1;
      NewBlockSigned(c, ns, es, k, h);
    }
  }

  lemma FreshStored(c: Primitives, n: Node, h: string)
    requires Fresh(c, n) && h in n.blocks
    ensures n.blocks[h].prevHash == GENESIS_PARENT
  {
    hide HashBlock, TxRoot, StateRoot;
  }

  // What the two ways to add a block say of the block.
  ghost predicate Checked(c: Primitives, n: Node, b: Block) {
    && b.validator in n.validators && BlockSignatureOk(c, b, n.validators[b.validator].pubKey)
    && AllSigned(c, b.txs) && b.tick == n.poh.tick + TICKS_PER_SLOT
  }

  lemma ConcludesChecked(c: Primitives, n: Node, start: Node, parent: Block, base: Result<State, TxError>,
                         leader: string, txs: seq<Transaction>, entropy: nat, io: WriteOutcome, o: Outcome, h: string)
    requires start.blocks == n.blocks && start.validators == n.validators && start.poh == Ticked(c, n).poh
    requires Concludes(c, start, parent, base, leader, txs, entropy, io, o) && h in o.node.blocks && h !in n.blocks
    ensures Checked(c, n, o.node.blocks[h])
  {
    hide Explains, Settles, RefusalCosts, BlockSignatureOk, AllSigned, Apply, FeeAddress, KeysOf, Advance;
  }

  lemma AddedSigned(c: Primitives, n: Node, txs: seq<Transaction>, entropy: nat, io: WriteOutcome, o: Outcome,
                    h: string)
    requires n.cfg.epochLength > 0 && n.tip in n.blocks && AddsBlock(c, n, txs, entropy, io, o)
    requires h in o.node.blocks && h !in n.blocks
    ensures Checked(c, n, o.node.blocks[h])
  {
    hide Concludes, ChoosesBody, Checked, LeaderAt, FeeAddress, KeysOf, Advance;
    var start := Ticked(c, n).(pool := o.node.pool);
    var leader := LeaderAt(c, o.node.snapshots, n.cfg.epochLength, SlotOf(start.poh.tick));
    var body :| && ChoosesBody(n, o.node.pool, FeeAddress(c, KeysOf(n.validators), leader), txs, body)
      && Concludes(c, start, n.blocks[n.tip], Ok(n.state), leader, body, entropy, io, o);
    ConcludesChecked(c, n, start, n.blocks[n.tip], Ok(n.state), leader, body, entropy, io, o, h);
  }

  lemma AddedExternalSigned(c: Primitives, n: Node, prevHash: string, txs: seq<Transaction>, entropy: nat,
                            io: WriteOutcome, o: Outcome, h: string)
    requires Sane(n) && AddsExternalBlock(c, n, prevHash, txs, entropy, io, o)
    requires h in o.node.blocks && h !in n.blocks
    ensures Checked(c, n, o.node.blocks[h])
  {
    hide Sane, Concludes, Checked, LeaderAt, Replay, KeysOf, Advance, Path, IsTree;
    SaneTree(n);
    if |n.validators| != 0 && prevHash in n.blocks {
      var start := Ticked(c, n);
      ConcludesChecked(c, n, start, n.blocks[prevHash],
        Replay(c, n.genesis, KeysOf(n.validators), Path(n.blocks, n.chain[0], prevHash)),
        LeaderAt(c, o.node.snapshots, n.cfg.epochLength, SlotOf(start.poh.tick)), txs, entropy, io, o, h);
    }
  }

  lemma NewBlockSigned(c: Primitives, ns: seq<Node>, es: seq<Event>, k: nat, h: string)
    requires |ns| > 0 && Fresh(c, ns[0]) && Run(c, ns[0], ns, es) && k < |es| && |ns| == |es| + 1
    requires h !in ns[k].blocks && h in ns[k + 1].blocks
    ensures es[k].BlockAdded? || es[k].ExternalBlockAdded?
    ensures var b := ns[k + 1].blocks[h];
      && b.validator in ns[k].validators && BlockSignatureOk(c, b, ns[k].validators[b.validator].pubKey)
      && AllSigned(c, b.txs) && b.tick == ns[k].poh.tick + TICKS_PER_SLOT
  {
    hide Run, Fresh, Good, Sane, AddBlock, AddBlockExternal, AddBlockFresh, AddBlockExternalFresh, AddsBlock,
      AddsExternalBlock, BlockSignatureOk, AllSigned, BuildCollisionFree, StartSlot, Register, Adds;
    RunSteps(c, ns, es, k);
    RunEvent(c, ns, es, k);
    match es[k]
    case BlockAdded(txs, entropy, io) =>
      RunAddsBlock(c, ns, es, k, txs, entropy, io);
      AddedSigned(c, ns[k], txs, entropy, io, AddBlock(c, ns[k], txs, entropy, io), h);
    case ExternalBlockAdded(prevHash, txs, entropy, io) =>
      RunAddsExternalBlock(c, ns, es, k, prevHash, txs, entropy, io);
      AddedExternalSigned(c, ns[k], prevHash, txs, entropy, io,
        AddBlockExternal(c, ns[k], prevHash, txs, entropy, io), h);
    case _ =>
  }

  lemma GenesisIsEmpty(c: Primitives, ns: seq<Node>, es: seq<Event>, i: nat, h: string)
    requires |ns| > 0 && Fresh(c, ns[0]) && Run(c, ns[0], ns, es) && i < |ns|
    requires h in ns[i].blocks && ns[i].blocks[h].prevHash == GENESIS_PARENT
    ensures ns[i].blocks[h].txs == []
  {
    hide Run, Fresh, Sane, Good;
    RunGood(c, ns, es, i);
    RunRoot(c, ns, es, i);
    RootOnly(ns[i], h);
    FreshFirst(c, ns[0]);
  }

  lemma RootOnly(n: Node, h: string)
    requires Sane(n) && h in n.blocks && n.blocks[h].prevHash == GENESIS_PARENT
    ensures n.chain != [] && n.blocks[h] == n.chain[0]
  {
    hide Path, Registry, Covered, Clocked;
    assert h != n.chain[0].hash ==> Extends(n.blocks, n.blocks[h]);
  }

  lemma FreshFirst(c: Primitives, n: Node)
    requires Fresh(c, n)
    ensures n.chain != [] && n.chain[0].txs == []
  {
    hide HashBlock, TxRoot, StateRoot;
  }

  // Under that ideal nobody moves money but its owner: whoever sends a transaction
  // of a stored block, on any fork, or of the pool, in any state of any run, has
  // signed it with a key that hashes to the sender's address.
  lemma OwnersOnly(c: Primitives, ns: seq<Node>, es: seq<Event>, i: nat, tx: Transaction)
    requires |ns| > 0 && Fresh(c, ns[0]) && Run(c, ns[0], ns, es) && i < |ns| && Unforgeable(c)
    requires tx in ns[i].pool.list || exists h :: h in ns[i].blocks && tx in ns[i].blocks[h].txs
    ensures SignedByOwner(c, tx)
  {
    hide Run, Fresh, Unforgeable, SignedByOwner, BlockSignatureOk, TxSignatureOk, InOrder, DistinctHashes;
    if tx in ns[i].pool.list {
      PoolStaysConsistent(c, ns, es, i);
    } else {
      var h :| h in ns[i].blocks && tx in ns[i].blocks[h].txs;
      RunLength(c, ns, es);
      if ns[i].blocks[h].prevHash == GENESIS_PARENT {
        GenesisIsEmpty(c, ns, es, i, h);
      } else {
        var k := BlockOrigin(c, ns, es, i, h);
      }
    }
    CheckedByOwner(c, tx);
  }
}
