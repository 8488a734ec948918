// consensus/crypto.go and domain/crypto.go: what is hashed and what is signed.
// SHA-256 and ECDSA are foreign code: they are function values that every
// definition takes as a parameter, so nothing is assumed about them except
// where a lemma says so.
module Crypto {
  import opened Domain
  import opened Text

  // A 32-byte hash value.
  type Digest = s: string | |s| == 32 && Bytes(s) witness "................................"

  datatype Primitives = Primitives(
    sha256: string -> Digest,
    validPoint: string -> bool,                       // elliptic.Unmarshal accepts the raw bytes
    verify: (string, string, string) -> bool,         // public key (raw), digest, signature (raw)
    sign: (PrivateKey, string, nat) -> Option<string>, // the nat is the randomness of the signature
    publicKey: PrivateKey -> string)                  // the key in hexadecimal

  // What ECDSA promises: a signature made with a key verifies under its public
  // key, which is well-formed hexadecimal, and is never empty.
  ghost predicate SignatureContract(c: Primitives) {
    forall k, d, e :: c.sign(k, d, e).Some? ==>
      && PublicKeyOk(c, c.publicKey(k))
      && c.sign(k, d, e).value != ""
      && c.verify(HexDecode(c.publicKey(k)).value, d, c.sign(k, d, e).value)
  }

  // ------------------------------------------------------------------- keys

  predicate PublicKeyOk(c: Primitives, pubKey: string) {
    pubKey != "" && HexDecode(pubKey).Some? && c.validPoint(HexDecode(pubKey).value)
  }

  // domain.AddressFromPubKey; None is its error.
  function AddressFromPubKey(c: Primitives, pubKey: string): Option<string> {
    match HexDecode(pubKey)
    case None => None
    case Some(raw) => Some(HexEncode(c.sha256(raw)))
  }

  // ----------------------------------------------------------------- blocks

  function BlockPreimage(b: Block): string {
    FormatUint(b.index) + ['|'] + (b.prevHash + ['|'] + (FormatUint(b.slot) + ['|'] +
    (FormatUint(b.tick) + ['|'] + (b.validator + ['|'] + b.txRoot + ['|'] + b.stateRoot + ['|'] + b.pohHash))))
  }

  // The fields a block hash covers, without the three that it does not.
  function Header(b: Block): Block {
    b.(signature := "", hash := "", txs := [])
  }

  function HashBlock(c: Primitives, b: Block): (h: string)
    ensures |h| == 64 && '|' !in h
  {
    HexEncode(c.sha256(BlockPreimage(b)))
  }

  // Four fields are read from the left and three from the right of the name.
  lemma BlockPreimageInjective(a: Block, b: Block)
    requires '|' !in a.prevHash && '|' !in a.txRoot && '|' !in a.stateRoot && '|' !in a.pohHash
    requires '|' !in b.prevHash && '|' !in b.txRoot && '|' !in b.stateRoot && '|' !in b.pohHash
    ensures BlockPreimage(a) == BlockPreimage(b) <==> Header(a) == Header(b)
  {
    if BlockPreimage(a) == BlockPreimage(b) {
      BlockPreimageHead(a, b);
      var x, y := a.validator + ['|'] + a.txRoot, b.validator + ['|'] + b.txRoot;
      SplitRight(x + ['|'] + a.stateRoot, y + ['|'] + b.stateRoot, a.pohHash, b.pohHash, '|');
      SplitRight(x, y, a.stateRoot, b.stateRoot, '|');
      SplitRight(a.validator, b.validator, a.txRoot, b.txRoot, '|');
    }
  }

  // The part that needs no more than a parent hash free of '|'.
  lemma BlockPreimageHead(a: Block, b: Block)
    requires '|' !in a.prevHash && '|' !in b.prevHash
    requires BlockPreimage(a) == BlockPreimage(b)
    ensures a.index == b.index && a.prevHash == b.prevHash && a.slot == b.slot && a.tick == b.tick
    ensures a.validator + ['|'] + a.txRoot + ['|'] + a.stateRoot + ['|'] + a.pohHash
         == b.validator + ['|'] + b.txRoot + ['|'] + b.stateRoot + ['|'] + b.pohHash
  {
    var a4 := a.validator + ['|'] + a.txRoot + ['|'] + a.stateRoot + ['|'] + a.pohHash;
    var b4 := b.validator + ['|'] + b.txRoot + ['|'] + b.stateRoot + ['|'] + b.pohHash;
    var a3, b3 := FormatUint(a.tick) + ['|'] + a4, FormatUint(b.tick) + ['|'] + b4;
    var a2, b2 := FormatUint(a.slot) + ['|'] + a3, FormatUint(b.slot) + ['|'] + b3;
    var a1, b1 := a.prevHash + ['|'] + a2, b.prevHash + ['|'] + b2;
    SplitLeft(FormatUint(a.index), FormatUint(b.index), a1, b1, '|');
    SplitLeft(a.prevHash, b.prevHash, a2, b2, '|');
    SplitLeft(FormatUint(a.slot), FormatUint(b.slot), a3, b3, '|');
    SplitLeft(FormatUint(a.tick), FormatUint(b.tick), a4, b4, '|');
    FormatUintInjective(a.index, b.index);
    FormatUintInjective(a.slot, b.slot);
    FormatUintInjective(a.tick, b.tick);
  }

  // A block hash does not cover the hash, the signature or the transactions.
  lemma HeaderHash(c: Primitives, a: Block, b: Block)
    requires Header(a) == Header(b)
    ensures HashBlock(c, a) == HashBlock(c, b)
  {
    assert BlockPreimage(a) == BlockPreimage(b);
  }

  // VerifyBlockSignature
  predicate BlockSignatureOk(c: Primitives, b: Block, pubKey: string) {
    && PublicKeyOk(c, pubKey)
    && b.signature != ""
    && c.verify(HexDecode(pubKey).value, HashBlock(c, b), b.signature)
    && b.hash == HashBlock(c, b)
  }

  // SignBlock; None is its error (the source reports a missing key before).
  function SignBlock(c: Primitives, key: PrivateKey, b: Block, entropy: nat): Option<Block> {
    match c.sign(key, HashBlock(c, b), entropy)
    case None => None
    case Some(sig) => Some(b.(signature := sig, hash := HashBlock(c, b)))
  }

  lemma SignedBlockVerifies(c: Primitives, key: PrivateKey, b: Block, entropy: nat)
    requires SignatureContract(c)
    requires SignBlock(c, key, b, entropy).Some?
    ensures BlockSignatureOk(c, SignBlock(c, key, b, entropy).value, c.publicKey(key))
  {
    var s := SignBlock(c, key, b, entropy).value;
    assert BlockPreimage(s) == BlockPreimage(b);
    assert c.sign(key, HashBlock(c, b), entropy).Some?;
  }

  // ------------------------------------------------------------ transactions

  function TxPreimage(tx: Transaction): string {
    tx.from + ['|'] + tx.to + ['|'] + Itoa(tx.amount) + ['|'] + Itoa(tx.fee) + ['|']
    + FormatUint(tx.nonce) + ['|'] + tx.pubKey
  }

  function HashTx(c: Primitives, tx: Transaction): Digest {
    c.sha256(TxPreimage(tx))
  }

  // The receiver is free text: it is what is left between the sender, read
  // from the left, and the four fields read from the right.
  lemma TxPreimageInjective(a: Transaction, b: Transaction)
    requires '|' !in a.from && '|' !in a.pubKey && '|' !in b.from && '|' !in b.pubKey
    requires TxPreimage(a) == TxPreimage(b)
    ensures a.(signature := "", hash := "") == b.(signature := "", hash := "")
  {
    hide FormatUint, Itoa;
    var a1, b1 := a.from + ['|'] + a.to, b.from + ['|'] + b.to;
    var a2, b2 := a1 + ['|'] + Itoa(a.amount), b1 + ['|'] + Itoa(b.amount);
    var a3, b3 := a2 + ['|'] + Itoa(a.fee), b2 + ['|'] + Itoa(b.fee);
    SplitRight(a3 + ['|'] + FormatUint(a.nonce), b3 + ['|'] + FormatUint(b.nonce), a.pubKey, b.pubKey, '|');
    SplitRight(a3, b3, FormatUint(a.nonce), FormatUint(b.nonce), '|');
    SplitRight(a2, b2, Itoa(a.fee), Itoa(b.fee), '|');
    SplitRight(a1, b1, Itoa(a.amount), Itoa(b.amount), '|');
    SplitLeft(a.from, b.from, a.to, b.to, '|');
    FormatUintInjective(a.nonce, b.nonce);
    ItoaInjective(a.fee, b.fee);
    ItoaInjective(a.amount, b.amount);
  }

  // VerifyTransactionSignature
  predicate TxSignatureOk(c: Primitives, tx: Transaction) {
    && tx.signature != ""
    && PublicKeyOk(c, tx.pubKey)
    && AddressFromPubKey(c, tx.pubKey) == Some(tx.from)
    && HexDecode(tx.signature).Some?
    && tx.hash != ""
    && tx.hash == HexEncode(HashTx(c, tx))
    && c.verify(HexDecode(tx.pubKey).value, HashTx(c, tx), HexDecode(tx.signature).value)
  }

  // SignTransaction; None is one of its errors.
  function SignTransaction(c: Primitives, key: PrivateKey, tx: Transaction, entropy: nat): Option<Transaction> {
    match AddressFromPubKey(c, c.publicKey(key))
    case None => None
    case Some(addr) =>
      var filled := tx.(pubKey := c.publicKey(key), from := addr);
      match c.sign(key, HashTx(c, filled), entropy)
      case None => None
      case Some(sig) =>
        if Bytes(sig) then Some(filled.(hash := HexEncode(HashTx(c, filled)), signature := HexEncode(sig))) else None
  }

  lemma SignedTransactionVerifies(c: Primitives, key: PrivateKey, tx: Transaction, entropy: nat)
    requires SignatureContract(c)
    requires SignTransaction(c, key, tx, entropy).Some?
    ensures TxSignatureOk(c, SignTransaction(c, key, tx, entropy).value)
  {
    var addr := AddressFromPubKey(c, c.publicKey(key)).value;
    var filled := tx.(pubKey := c.publicKey(key), from := addr);
    assert c.sign(key, HashTx(c, filled), entropy).Some?;
    HexRoundTrip(c.sign(key, HashTx(c, filled), entropy).value);
    var s := SignTransaction(c, key, tx, entropy).value;
    assert TxPreimage(s) == TxPreimage(filled);
  }

  // ------------------------------------------------------------------- roots

  function TxRootText(c: Primitives, txs: seq<Transaction>): string {
    if txs == [] then "" else HashTx(c, txs[0]) + TxRootText(c, txs[1..])
  }

  function TxRoot(c: Primitives, txs: seq<Transaction>): (r: string)
    ensures '|' !in r
  {
    HexEncode(c.sha256(TxRootText(c, txs)))
  }

  method ComputeTxRoot(c: Primitives, txs: seq<Transaction>) returns (r: string)
    ensures r == TxRoot(c, txs)
  {
    hide HashTx;
    if |txs| == 0 {
      return HexEncode(c.sha256(""));
    }
    var h := "";
    for i := 0 to |txs|
      invariant h + TxRootText(c, txs[i..]) == TxRootText(c, txs)
    {
      assert txs[i..][1..] == txs[i + 1..];
      assert h + (HashTx(c, txs[i]) + TxRootText(c, txs[i + 1..]))
        == (h + HashTx(c, txs[i])) + TxRootText(c, txs[i + 1..]);
      h := h + HashTx(c, txs[i]);
    }
    assert txs[|txs|..] == [];
    assert h + "" == h;
    r := HexEncode(c.sha256(h));
  }

  // The i-th digest stands in the i-th place.
  lemma {:induction false} TxRootTextAt(c: Primitives, txs: seq<Transaction>, i: nat)
    requires i < |txs|
    ensures |TxRootText(c, txs)| == 32 * |txs|
    ensures TxRootText(c, txs)[32 * i..32 * i + 32] == HashTx(c, txs[i])
  {
    hide HashTx;
    var rest := TxRootText(c, txs[1..]);
    if i > 0 {
      TxRootTextAt(c, txs[1..], i - 1);
      assert TxRootText(c, txs)[32 * i..32 * i + 32] == rest[32 * (i - 1)..32 * (i - 1) + 32];
    } else if |txs| > 1 {
      TxRootTextAt(c, txs[1..], 0);
    }
  }

  // A root stands for the list of the transactions' hashes, in order.
  lemma {:induction false} TxRootTextInjective(c: Primitives, a: seq<Transaction>, b: seq<Transaction>)
    requires TxRootText(c, a) == TxRootText(c, b)
    ensures |a| == |b| && forall i :: 0 <= i < |a| ==> HashTx(c, a[i]) == HashTx(c, b[i])
  {
    hide HashTx;
    if a != [] && b != [] {
      var s, t := TxRootText(c, a), TxRootText(c, b);
      assert HashTx(c, a[0]) == s[..32] && TxRootText(c, a[1..]) == s[32..];
      assert HashTx(c, b[0]) == t[..32] && TxRootText(c, b[1..]) == t[32..];
      TxRootTextInjective(c, a[1..], b[1..]);
      forall i | 0 <= i < |a| ensures HashTx(c, a[i]) == HashTx(c, b[i]) {
        assert i > 0 ==> a[i] == a[1..][i - 1] && b[i] == b[1..][i - 1];
      }
    }
  }

  function AccountText(k: string, a: Account): string {
    k + [':'] + (Itoa(a.balance) + ['|'] + (FormatUint(a.nonce) + [';']))
  }

  function StateText(names: seq<string>, state: State): string
    requires forall k :: k in names ==> k in state
  {
    if names == [] then ""
    else AccountText(names[0], state[names[0]]) + StateText(names[1..], state)
  }

  // The accounts follow each other in the order of the names.
  lemma {:induction false} StateTextAppend(a: seq<string>, b: seq<string>, state: State)
    requires (forall k :: k in a ==> k in state) && forall k :: k in b ==> k in state
    ensures StateText(a + b, state) == StateText(a, state) + StateText(b, state)
  {
    hide AccountText;
    if a == [] {
      assert a + b == b;
    } else {
      StateTextAppend(a[1..], b, state);
      assert (a + b)[1..] == a[1..] + b;
    }
  }

  function StatePreimage(state: State): string {
    StateText(SortedKeys(state.Keys), state)
  }

  function StateRoot(c: Primitives, state: State): (r: string)
    ensures '|' !in r
  {
    HexEncode(c.sha256(StatePreimage(state)))
  }

  // The keys of a Go map come out in any order; names is the order of this run.
  method ComputeStateRoot(c: Primitives, state: State) returns (r: string)
    ensures r == StateRoot(c, state)
  {
    hide AccountText, SortedKeys, HexEncode, Itoa, FormatUint, Sorted;
    if |state| == 0 {
      assert state.Keys == {};
      return HexEncode(c.sha256(""));
    }
    var keys := SortedKeys(state.Keys);
    var h := "";
    for i := 0 to |keys|
      invariant h + StateText(keys[i..], state) == StateText(keys, state)
    {
      assert keys[i..][1..] == keys[i + 1..];
      assert h + (AccountText(keys[i], state[keys[i]]) + StateText(keys[i + 1..], state))
          == (h + AccountText(keys[i], state[keys[i]])) + StateText(keys[i + 1..], state);
      h := h + AccountText(keys[i], state[keys[i]]);
    }
    assert keys[|keys|..] == [];
    assert h + "" == h;
    r := HexEncode(c.sha256(h));
  }

  // Two states with the same preimage are the same state, as long as no
  // address contains ':'.
  lemma StatePreimageInjective(s: State, t: State)
    requires forall k :: k in s ==> ':' !in k
    requires forall k :: k in t ==> ':' !in k
    ensures StatePreimage(s) == StatePreimage(t) <==> s == t
  {
    hide StateText, SortedKeys;
    if StatePreimage(s) == StatePreimage(t) {
      var a, b := SortedKeys(s.Keys), SortedKeys(t.Keys);
      StateTextInjective(a, s, b, t);
      forall k ensures k in s <==> k in t {
        assert k in s.Keys <==> k in a;
        assert k in t.Keys <==> k in b;
      }
    }
  }

  lemma {:induction false} StateTextInjective(a: seq<string>, s: State, b: seq<string>, t: State)
    requires forall k :: k in a ==> k in s && ':' !in k
    requires forall k :: k in b ==> k in t && ':' !in k
    requires StateText(a, s) == StateText(b, t)
    ensures a == b && forall k :: k in a ==> s[k] == t[k]
  {
    hide FormatUint, Itoa;
    if a != [] && b != [] {
      var x, y := s[a[0]], t[b[0]];
      var s1, t1 := StateText(a[1..], s), StateText(b[1..], t);
      var s2, t2 := FormatUint(x.nonce) + [';'] + s1, FormatUint(y.nonce) + [';'] + t1;
      var s3, t3 := Itoa(x.balance) + ['|'] + s2, Itoa(y.balance) + ['|'] + t2;
      assert StateText(a, s) == a[0] + [':'] + s3;
      assert StateText(b, t) == b[0] + [':'] + t3;
      SplitLeft(a[0], b[0], s3, t3, ':');
      SplitLeft(Itoa(x.balance), Itoa(y.balance), s2, t2, '|');
      SplitLeft(FormatUint(x.nonce), FormatUint(y.nonce), s1, t1, ';');
      ItoaInjective(x.balance, y.balance);
      FormatUintInjective(x.nonce, y.nonce);
      StateTextInjective(a[1..], s, b[1..], t);
      assert a == [a[0]] + a[1..] && b == [b[0]] + b[1..];
    }
  }

  // Without that condition the encoding is not injective: an address may hold
  // the text of another account.
  lemma StatePreimageAmbiguous() returns (s: State, t: State)
    ensures s != t && StatePreimage(s) == StatePreimage(t)
  {
    var zero := Account(0, 0);
    s := map["x" := zero, "y" := zero];
    t := map["x:0|0;y" := zero];
    assert "x" in s && "x" !in t;
    assert s.Keys == {"x", "y"} && t.Keys == {"x:0|0;y"};
    TwoKeys();
    assert StateText(["x", "y"], s) == AccountText("x", zero) + StateText(["y"], s) by {
      assert ["x", "y"][1..] == ["y"];
    }
    OneEntry("y", s);
    OneEntry("x:0|0;y", t);
    assert AccountText("x", zero) == "x:0|0;" && AccountText("y", zero) == "y:0|0;";
    assert AccountText("x:0|0;y", zero) == "x:0|0;y:0|0;";
  }

  lemma TwoKeys()
    ensures SortedKeys({"x", "y"}) == ["x", "y"]
    ensures SortedKeys({"x:0|0;y"}) == ["x:0|0;y"]
  {
    hide SortedKeys;
    assert Less("x", "y");
    assert Lists(["x", "y"], {"x", "y"});
    ListingUnique(["x", "y"], SortedKeys({"x", "y"}), {"x", "y"});
    assert Lists(["x:0|0;y"], {"x:0|0;y"});
    ListingUnique(["x:0|0;y"], SortedKeys({"x:0|0;y"}), {"x:0|0;y"});
  }

  lemma OneEntry(k: string, s: State)
    requires k in s
    ensures StateText([k], s) == AccountText(k, s[k])
  {
    assert [k][1..] == [];
    assert AccountText(k, s[k]) + "" == AccountText(k, s[k]);
  }
}
