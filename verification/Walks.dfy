// The loops over chains in core/blockchain.go: the walk along parents and its
// reversal in place, the replay, and the slot map.
module Walks {
  import opened Domain
  import opened Text
  import opened Crypto
  import opened Ledger
  import opened Stake
  import opened Tree
  import opened Engine
  import opened Recovery

  // -------------------------------------------------------- walks to the root

  function Backwards(s: seq<Block>): (r: seq<Block>)
    ensures |r| == |s|
  {
    seq(|s|, i requires 0 <= i < |s| => s[|s| - 1 - i])
  }

  // The loop that turns a walk around, on the walk's own memory.
  method TurnAround(walk: array<Block>)
    modifies walk
    ensures walk[..] == Backwards(old(walk[..]))
  {
    ghost var was := walk[..];
    var i, j := 0, walk.Length - 1;
    while i < j
      invariant 0 <= i <= j + 1 && i + j == walk.Length - 1
      invariant forall k :: i <= k <= j ==> walk[k] == was[k]
      invariant forall k :: 0 <= k < i ==> walk[k] == was[walk.Length - 1 - k]
      invariant forall k :: j < k < walk.Length ==> walk[k] == was[walk.Length - 1 - k]
    {
      walk[i], walk[j] := walk[j], walk[i];
      i, j := i + 1, j - 1;
    }
  }

  method TurnedAround(walked: seq<Block>) returns (chain: seq<Block>)
    ensures chain == Backwards(walked)
  {
    hide Backwards;
    var walk := new Block[|walked|](k requires 0 <= k < |walked| => walked[k]);
    assert walk[..] == walked;
    TurnAround(walk);
    chain := walk[..];
  }

  lemma WalkStep(front: seq<Block>, b: Block, walked: seq<Block>)
    ensures front + [b] + Backwards(walked) == front + Backwards(walked + [b])
  {
    assert Backwards(walked + [b]) == [b] + Backwards(walked);
  }

  // The path to a block, found by following parents until genesis.
  method WalkFrom(blocks: Blocks, ghost g: Block, tip: string) returns (chain: seq<Block>)
    requires IsTree(blocks, g) && tip in blocks
    ensures chain == Path(blocks, g, tip)
  {
    hide IsTree;
    var walked: seq<Block> := [];
    var cur := blocks[tip];
    StoredBlock(blocks, g, tip);
    while cur.prevHash != GENESIS_PARENT
      invariant cur.hash in blocks && blocks[cur.hash] == cur
      invariant Path(blocks, g, tip) == Path(blocks, g, cur.hash) + Backwards(walked)
      decreases cur.index
    {
      PathStep(blocks, g, cur.hash);
      WalkStep(Path(blocks, g, cur.prevHash), cur, walked);
      walked := walked + [cur];
      StoredBlock(blocks, g, cur.prevHash);
      cur := blocks[cur.prevHash];
    }
    PathEnd(blocks, g, cur.hash);
    WalkStep([], cur, walked);
    walked := walked + [cur];
    assert Path(blocks, g, tip) == Backwards(walked);
    chain := TurnedAround(walked);
  }

  // The walk of rebuildCanonicalChain over blocks by height, which stops where a
  // parent is missing.
  method WalkBack(blocks: Blocks, ghost p: seq<Block>, tip: string) returns (chain: seq<Block>)
    requires p != [] && Layered(p) && blocks == BlocksOf(p) && tip == p[|p| - 1].hash
    ensures chain == p[LinkedFrom(p)..]
  {
    hide Layered, LinkedFrom, BlocksOf, Backwards;
    var walked: seq<Block> := [];
    var curHash := tip;
    ghost var i := |p|;
    BackStart(p);
    BlocksAt(p, |p| - 1);
    while curHash in blocks
      invariant 0 <= i <= |p| && walked == Backwards(p[i..])
      invariant curHash in blocks ==> i > 0 && curHash == p[i - 1].hash && LinkedFrom(p) == LinkedFrom(p[..i])
      invariant curHash !in blocks ==> LinkedFrom(p) == i
      decreases i
    {
      i := i - 1;
      BlocksAt(p, i);
      WalkOn(p, i);
      BackStep(p, i);
      var cur := blocks[curHash];
      walked := walked + [cur];
      if cur.prevHash == GENESIS_PARENT {
        break;
      }
      curHash := cur.prevHash;
    }
    BackTwice(p[i..]);
    chain := TurnedAround(walked);
  }

  lemma BackStart(p: seq<Block>)
    ensures p[..|p|] == p && Backwards(p[|p|..]) == []
  {
  }

  lemma BackStep(p: seq<Block>, i: nat)
    requires i < |p|
    ensures Backwards(p[i..]) == Backwards(p[i + 1..]) + [p[i]]
  {
  }

  lemma BackTwice(s: seq<Block>)
    ensures Backwards(Backwards(s)) == s
  {
  }

  lemma StoredBlock(blocks: Blocks, g: Block, h: string)
    requires IsTree(blocks, g) && h in blocks
    ensures blocks[h].hash == h
  {
  }

  lemma PathStep(blocks: Blocks, g: Block, h: string)
    requires IsTree(blocks, g) && h in blocks && blocks[h].prevHash != GENESIS_PARENT
    ensures blocks[h].prevHash in blocks && blocks[blocks[h].prevHash].index < blocks[h].index
    ensures Path(blocks, g, h) == Path(blocks, g, blocks[h].prevHash) + [blocks[h]]
    ensures h != g.hash
  {
    assert Extends(blocks, blocks[h]);
  }

  lemma PathEnd(blocks: Blocks, g: Block, h: string)
    requires IsTree(blocks, g) && h in blocks && blocks[h].prevHash == GENESIS_PARENT
    ensures h == g.hash && Path(blocks, g, h) == [blocks[h]]
  {
    assert h != g.hash ==> Extends(blocks, blocks[h]);
  }

  // ------------------------------------------------------------------- replay

  method RewardAddress(c: Primitives, vs: Validators, name: string) returns (a: string)
    ensures a == FeeAddress(c, KeysOf(vs), name)
  {
    hide HexDecode, HexEncode;
    if name !in vs || vs[name].pubKey == "" {
      return "";
    }
    match AddressFromPubKey(c, vs[name].pubKey)
    case None => return "";
    case Some(addr) => return addr;
  }

  lemma {:induction false} ReplayStops(c: Primitives, genesis: State, keys: map<string, string>, p: seq<Block>, i: nat)
    requires 0 < i <= |p| && Replay(c, genesis, keys, p[..i]).Err?
    ensures Replay(c, genesis, keys, p) == Replay(c, genesis, keys, p[..i])
    decreases |p|
  {
    hide Apply, FeeAddress;
    if i == |p| {
      assert p[..i] == p;
    } else {
      assert p[..|p| - 1][..i] == p[..i];
      ReplayStops(c, genesis, keys, p[..|p| - 1], i);
    }
  }

  // The loop that rebuildStateFromCanonical and stateAtTip share.
  method ReplayChain(c: Primitives, genesis: State, vs: Validators, p: seq<Block>) returns (r: Result<State, TxError>)
    ensures r == Replay(c, genesis, KeysOf(vs), p)
  {
    hide Apply, FeeAddress;
    var state := genesis;
    if |p| == 0 {
      return Ok(state);
    }
    for i := 1 to |p|
      invariant Replay(c, genesis, KeysOf(vs), p[..i]) == Ok(state)
    {
      var producer := RewardAddress(c, vs, p[i].validator);
      assert p[..i + 1][..i] == p[..i];
      var next := ApplyTransactions(state, p[i].txs, producer);
      if next.Err? {
        ReplayStops(c, genesis, KeysOf(vs), p, i + 1);
        return next;
      }
      state := next.value;
    }
    assert p[..|p|] == p;
    r := Ok(state);
  }

  method BuildSlotMap(chain: seq<Block>) returns (m: map<nat, string>)
    ensures m == SlotMap(chain)
  {
    m := map[];
    if |chain| == 0 {
      return;
    }
    for i := 1 to |chain|
      invariant m == SlotMap(chain[..i])
    {
      assert chain[..i + 1][..i] == chain[..i];
      m := m[chain[i].slot := chain[i].validator];
    }
    assert chain[..|chain|] == chain;
  }
}
