// The block tree of core/blockchain.go, its fork choice and its reorg measure,
// as mathematics: Blocks is an unbounded tree rooted in the genesis block.
module Tree {
  import opened Domain
  import opened Text
  import opened Sums
  import opened Stake

  type Blocks = map<string, Block>
  type Snapshots = map<nat, EpochSnapshot>

  ghost predicate IsGenesis(g: Block) {
    g.prevHash == GENESIS_PARENT && g.index == 0 && g.slot == 0 && g.tick == 0 && g.validator == GENESIS_NAME
  }

  // b hangs below a stored block: one higher, and strictly later.
  ghost predicate Extends(blocks: Blocks, b: Block) {
    && b.prevHash in blocks
    && var p := blocks[b.prevHash]; b.index == p.index + 1 && b.slot > p.slot && b.tick > p.tick
  }

  ghost predicate IsTree(blocks: Blocks, g: Block) {
    && IsGenesis(g) && g.hash in blocks && blocks[g.hash] == g
    && "" !in blocks && GENESIS_PARENT !in blocks
    && (forall h :: h in blocks ==> blocks[h].hash == h)
    && (forall h :: h in blocks && h != g.hash ==> Extends(blocks, blocks[h]))
  }

  // The blocks from genesis to h. Index is the rank that ends every walk.
  ghost function Path(blocks: Blocks, g: Block, h: string): (p: seq<Block>)
    requires IsTree(blocks, g) && h in blocks
    ensures |p| == blocks[h].index + 1
    ensures p[0] == g && p[|p| - 1] == blocks[h]
    decreases blocks[h].index
  {
    if h == g.hash then [g] else Path(blocks, g, blocks[h].prevHash) + [blocks[h]]
  }

  // A chain whose blocks are linked, numbered from 0 and strictly later each.
  ghost predicate Linked(p: seq<Block>) {
    && (forall i :: 0 <= i < |p| ==> p[i].index == i)
    && (forall i :: 0 < i < |p| ==> p[i].prevHash == p[i - 1].hash)
    && (forall i, j :: 0 <= i < j < |p| ==> p[i].slot < p[j].slot && p[i].tick < p[j].tick)
  }

  lemma {:induction false} PathLinked(blocks: Blocks, g: Block, h: string)
    requires IsTree(blocks, g) && h in blocks
    ensures Linked(Path(blocks, g, h))
    ensures forall i :: 0 <= i < |Path(blocks, g, h)| ==>
      Path(blocks, g, h)[i].hash in blocks && blocks[Path(blocks, g, h)[i].hash] == Path(blocks, g, h)[i]
    decreases blocks[h].index
  {
    if h != g.hash {
      assert Extends(blocks, blocks[h]);
      PathLinked(blocks, g, blocks[h].prevHash);
    }
  }

  lemma PathNext(blocks: Blocks, g: Block, h: string)
    requires IsTree(blocks, g) && h in blocks && h != g.hash
    ensures Extends(blocks, blocks[h]) && Path(blocks, g, h) == Path(blocks, g, blocks[h].prevHash) + [blocks[h]]
  {
    assert Extends(blocks, blocks[h]);
  }

  lemma LinkedBelow(p: seq<Block>)
    requires Linked(p)
    ensures forall i :: 0 <= i < |p| ==> p[i].index < |p|
  {
  }

  // The path to a block of a path is what precedes it there.
  lemma {:induction false} PathPrefix(blocks: Blocks, g: Block, h: string, i: nat)
    requires IsTree(blocks, g) && h in blocks && i < |Path(blocks, g, h)|
    ensures Path(blocks, g, h)[i].hash in blocks
    ensures Path(blocks, g, Path(blocks, g, h)[i].hash) == Path(blocks, g, h)[..i + 1]
    decreases blocks[h].index
  {
    var p := Path(blocks, g, h);
    if i == |p| - 1 {
      assert p[..i + 1] == p;
    } else {
      assert Extends(blocks, blocks[h]);
      var q := Path(blocks, g, blocks[h].prevHash);
      assert p[..i + 1] == q[..i + 1];
      PathPrefix(blocks, g, blocks[h].prevHash, i);
    }
  }

  // Storing a block under a new hash keeps the tree and every old path.
  lemma InsertKeepsTree(blocks: Blocks, g: Block, b: Block)
    requires IsTree(blocks, g) && Extends(blocks, b)
    requires b.hash !in blocks && b.hash != "" && b.hash != GENESIS_PARENT
    ensures IsTree(blocks[b.hash := b], g)
    ensures Path(blocks[b.hash := b], g, b.hash) == Path(blocks, g, b.prevHash) + [b]
  {
    var after := blocks[b.hash := b];
    forall h | h in after && h != g.hash ensures Extends(after, after[h]) {
      assert h != b.hash ==> Extends(blocks, blocks[h]);
    }
    PathStable(blocks, after, g, b.prevHash);
  }

  lemma {:induction false} PathStable(blocks: Blocks, after: Blocks, g: Block, h: string)
    requires IsTree(blocks, g) && IsTree(after, g) && h in blocks
    requires forall k :: k in blocks ==> k in after && after[k] == blocks[k]
    ensures Path(after, g, h) == Path(blocks, g, h)
    decreases blocks[h].index
  {
    if h != g.hash {
      assert Extends(blocks, blocks[h]);
      PathStable(blocks, after, g, blocks[h].prevHash);
    }
  }

  // ------------------------------------------------------- weight and score

  // The stake a name holds in the snapshot of a slot's epoch.
  function StakeIn(snaps: Snapshots, epochLength: nat, slot: nat, name: string): nat
    requires epochLength > 0
  {
    var e := slot / epochLength;
    if e in snaps && name in snaps[e].validators then snaps[e].validators[name] else 0
  }

  function Weight(snaps: Snapshots, epochLength: nat, p: seq<Block>): nat
    requires epochLength > 0
  {
    if p == [] then 0
    else Weight(snaps, epochLength, p[..|p| - 1]) + StakeIn(snaps, epochLength, p[|p| - 1].slot, p[|p| - 1].validator)
  }

  datatype ChainScore = ChainScore(slot: nat, weight: nat, hash: string)

  ghost function ScoreOf(blocks: Blocks, g: Block, snaps: Snapshots, epochLength: nat, h: string): ChainScore
    requires IsTree(blocks, g) && h in blocks && epochLength > 0
  {
    ChainScore(blocks[h].slot, Weight(snaps, epochLength, Path(blocks, g, h)), h)
  }

  // What the snapshot of each block's epoch, if it was taken and lists its producer,
  // gives that: for the stored blocks of a list.
  ghost function StakesOf(blocks: Blocks, p: seq<Block>, snaps: Snapshots, epochLength: nat): map<string, int>
    requires epochLength > 0
  {
    map k | k in blocks && blocks[k] in p ::
      if && blocks[k].slot / epochLength in snaps
         && blocks[k].validator in snaps[blocks[k].slot / epochLength].validators
      then snaps[blocks[k].slot / epochLength].validators[blocks[k].validator] else 0
  }

  // The weight of a block is the sum of those stakes over its path.
  lemma {:induction false} WeightIsSum(blocks: Blocks, g: Block, snaps: Snapshots, epochLength: nat, h: string)
    requires IsTree(blocks, g) && h in blocks && epochLength > 0
    ensures ScoreOf(blocks, g, snaps, epochLength, h).weight
         == Sum(StakesOf(blocks, Path(blocks, g, h), snaps, epochLength))
    decreases blocks[h].index
  {
    hide Sum, StakesOf, IsTree, Path, Weight;
    var b := blocks[h];
    UnderOwnHash(blocks, g);
    if h == g.hash {
      NoStakes(blocks, snaps, epochLength);
      RootPath(blocks, g, snaps, epochLength);
      OneMoreStake(blocks, [], snaps, epochLength, h);
      WeightExtend(snaps, epochLength, [], b);
    } else {
      PathNext(blocks, g, h);
      WeightIsSum(blocks, g, snaps, epochLength, b.prevHash);
      var q := Path(blocks, g, b.prevHash);
      PathLinked(blocks, g, b.prevHash);
      LinkedBelow(q);
      OneMoreStake(blocks, q, snaps, epochLength, h);
      WeightExtend(snaps, epochLength, q, b);
    }
  }

  lemma UnderOwnHash(blocks: Blocks, g: Block)
    requires IsTree(blocks, g)
    ensures g.hash in blocks && forall h :: h in blocks ==> blocks[h].hash == h
  {
  }

  lemma RootPath(blocks: Blocks, g: Block, snaps: Snapshots, epochLength: nat)
    requires IsTree(blocks, g) && epochLength > 0
    ensures Path(blocks, g, g.hash) == [] + [g] && blocks[g.hash] == g && Weight(snaps, epochLength, []) == 0
  {
  }

  lemma NoStakes(blocks: Blocks, snaps: Snapshots, epochLength: nat)
    requires epochLength > 0
    ensures Sum(StakesOf(blocks, [], snaps, epochLength)) == 0
  {
    SumOfNone();
    assert StakesOf(blocks, [], snaps, epochLength) == map[];
  }

  lemma OneMoreStake(blocks: Blocks, q: seq<Block>, snaps: Snapshots, epochLength: nat, h: string)
    requires h in blocks && blocks[h] !in q && epochLength > 0 && forall k :: k in blocks ==> blocks[k].hash == k
    ensures Sum(StakesOf(blocks, q + [blocks[h]], snaps, epochLength))
      == Sum(StakesOf(blocks, q, snaps, epochLength))
       + StakeIn(snaps, epochLength, blocks[h].slot, blocks[h].validator)
  {
    hide Sum;
    var before, b := StakesOf(blocks, q, snaps, epochLength), blocks[h];
    var mine := StakeIn(snaps, epochLength, b.slot, b.validator);
    SumUpdate(before, h, mine);
    assert StakesOf(blocks, q + [b], snaps, epochLength) == before[h := mine];
  }

  predicate BetterScore(a: ChainScore, b: ChainScore) {
    if a.weight != b.weight then a.weight > b.weight
    else if a.slot != b.slot then a.slot > b.slot
    else Less(a.hash, b.hash)
  }

  // Fork choice is deterministic: among scores of different tips, exactly one
  // of two is better, and better is transitive.
  lemma BetterScoreTotalOrder(a: ChainScore, b: ChainScore, d: ChainScore)
    ensures !(BetterScore(a, b) && BetterScore(b, a))
    ensures a.hash != b.hash ==> BetterScore(a, b) || BetterScore(b, a)
    ensures BetterScore(a, b) && BetterScore(b, d) ==> BetterScore(a, d)
  {
    LessTotal(a.hash, b.hash);
    if Less(a.hash, b.hash) && Less(b.hash, a.hash) {
      LessTransitive(a.hash, b.hash, a.hash);
      LessIrreflexive(a.hash);
    }
    if Less(a.hash, b.hash) && Less(b.hash, d.hash) {
      LessTransitive(a.hash, b.hash, d.hash);
    }
  }

  // Snapshots are never taken again.
  ghost predicate Frozen(snaps: Snapshots, after: Snapshots) {
    forall e :: e in snaps ==> e in after && after[e] == snaps[e]
  }

  // Later snapshots change the weight of a path by what they give to its first
  // block, if the epochs of the others have theirs.
  lemma {:induction false} WeightShift(snaps: Snapshots, after: Snapshots, epochLength: nat, p: seq<Block>)
    requires epochLength > 0 && Frozen(snaps, after) && p != []
    requires forall i :: 0 < i < |p| ==> p[i].slot / epochLength in snaps
    ensures Weight(after, epochLength, p) - Weight(snaps, epochLength, p)
         == StakeIn(after, epochLength, p[0].slot, p[0].validator) - StakeIn(snaps, epochLength, p[0].slot,
           p[0].validator)
  {
    if |p| > 1 {
      assert p[|p| - 1].slot / epochLength in snaps;
      WeightShift(snaps, after, epochLength, p[..|p| - 1]);
    } else {
      assert p[..0] == [];
    }
  }

  // More snapshots never take weight away.
  lemma {:induction false} WeightMonotone(snaps: Snapshots, after: Snapshots, epochLength: nat, p: seq<Block>)
    requires epochLength > 0 && Frozen(snaps, after)
    ensures Weight(after, epochLength, p) >= Weight(snaps, epochLength, p)
  {
    if p != [] {
      WeightMonotone(snaps, after, epochLength, p[..|p| - 1]);
    }
  }

  lemma WeightExtend(snaps: Snapshots, epochLength: nat, p: seq<Block>, b: Block)
    requires epochLength > 0
    ensures Weight(snaps, epochLength, p + [b])
      == Weight(snaps, epochLength, p) + StakeIn(snaps, epochLength, b.slot, b.validator)
  {
    assert (p + [b])[..|p|] == p;
  }

  // The producer has a stake in the snapshot of the block's epoch.
  predicate Listed(snaps: Snapshots, epochLength: nat, b: Block)
    requires epochLength > 0
  {
    b.slot / epochLength in snaps && b.validator in snaps[b.slot / epochLength].validators
  }

  // The blocks after the first whose producers are listed.
  function ListedBlocks(snaps: Snapshots, epochLength: nat, p: seq<Block>): nat
    requires epochLength > 0
  {
    if |p| <= 1 then 0
    else ListedBlocks(snaps, epochLength, p[..|p| - 1]) + if Listed(snaps, epochLength, p[|p| - 1]) then 1 else 0
  }

  lemma {:induction false} AllListed(snaps: Snapshots, epochLength: nat, p: seq<Block>)
    requires epochLength > 0 && p != [] && forall i :: 0 < i < |p| ==> Listed(snaps, epochLength, p[i])
    ensures ListedBlocks(snaps, epochLength, p) == |p| - 1
  {
    hide Listed;
    if |p| > 1 {
      AllListed(snaps, epochLength, p[..|p| - 1]);
    }
  }

  lemma {:induction false} WeightAtLeast(snaps: Snapshots, epochLength: nat, p: seq<Block>, least: nat)
    requires epochLength > 0
    requires forall i :: 0 < i < |p| && Listed(snaps, epochLength, p[i]) ==>
      StakeIn(snaps, epochLength, p[i].slot, p[i].validator) >= least
    ensures Weight(snaps, epochLength, p) >= least * ListedBlocks(snaps, epochLength, p)
  {
    hide Listed, StakeIn;
    if |p| > 1 {
      WeightAtLeast(snaps, epochLength, p[..|p| - 1], least);
      var before := ListedBlocks(snaps, epochLength, p[..|p| - 1]);
      assert least * (before + 1) == least * before + least;
    }
  }

  // And no more than the largest snapshot: the bound under which a 64-bit
  // weight does not wrap around.
  lemma {:induction false} WeightAtMost(snaps: Snapshots, epochLength: nat, p: seq<Block>, most: nat)
    requires epochLength > 0
    requires forall i :: 0 <= i < |p| ==> StakeIn(snaps, epochLength, p[i].slot, p[i].validator) <= most
    ensures Weight(snaps, epochLength, p) <= most * |p|
  {
    if p != [] {
      WeightAtMost(snaps, epochLength, p[..|p| - 1], most);
      assert most * |p| == most * (|p| - 1) + most;
    }
  }

  // ------------------------------------------------------------ reorg measure

  // The first position where two chains differ, or the length of the shorter.
  function Diverge(a: seq<Block>, b: seq<Block>): (d: nat)
    ensures d <= |a| && d <= |b|
    ensures forall i :: 0 <= i < d ==> a[i].hash == b[i].hash
    ensures d < |a| && d < |b| ==> a[d].hash != b[d].hash
  {
    if a == [] || b == [] || a[0].hash != b[0].hash then 0 else 1 + Diverge(a[1..], b[1..])
  }

  lemma DivergeUnique(a: seq<Block>, b: seq<Block>, d: nat)
    requires d <= |a| && d <= |b|
    requires forall i :: 0 <= i < d ==> a[i].hash == b[i].hash
    requires d == |a| || d == |b| || a[d].hash != b[d].hash
    ensures d == Diverge(a, b)
  {
  }

  function ReorgDepth(a: seq<Block>, b: seq<Block>): nat {
    |a| - Diverge(a, b)
  }

  function DivergeSlot(a: seq<Block>, b: seq<Block>): nat {
    var d := Diverge(a, b);
    if d < |a| then a[d].slot else if d < |b| then b[d].slot else 0
  }

  method ComputeReorgDepthAndSlot(oldChain: seq<Block>, newChain: seq<Block>) returns (depth: nat, slot: nat)
    ensures depth == ReorgDepth(oldChain, newChain)
    ensures slot == DivergeSlot(oldChain, newChain)
  {
    var minLen := |oldChain|;
    if |newChain| < minLen {
      minLen := |newChain|;
    }
    var diverge := minLen;
    for i := 0 to minLen
      invariant diverge == minLen
      invariant forall k :: 0 <= k < i ==> oldChain[k].hash == newChain[k].hash
    {
      if oldChain[i].hash != newChain[i].hash {
        diverge := i;
        break;
      }
    }
    DivergeUnique(oldChain, newChain, diverge);
    depth := |oldChain| - diverge;
    slot := 0;
    if diverge < |oldChain| {
      slot := oldChain[diverge].slot;
    } else if diverge < |newChain| {
      slot := newChain[diverge].slot;
    }
  }

  // Between paths of one tree, a block of the old path is an ancestor of the
  // new tip exactly when it comes before the divergence.
  lemma SharedIsBeforeDivergence(blocks: Blocks, g: Block, x: string, y: string, i: nat)
    requires IsTree(blocks, g) && x in blocks && y in blocks
    requires i < |Path(blocks, g, x)|
    ensures Path(blocks, g, x)[i] in Path(blocks, g, y) <==> i < Diverge(Path(blocks, g, x), Path(blocks, g, y))
  {
    var p, q := Path(blocks, g, x), Path(blocks, g, y);
    var d := Diverge(p, q);
    PathLinked(blocks, g, x);
    PathLinked(blocks, g, y);
    if i < d {
      assert p[i].hash == q[i].hash;
      assert p[i] == q[i];
    }
    if p[i] in q {
      var j :| 0 <= j < |q| && q[j] == p[i];
      assert i == j;
      PathPrefix(blocks, g, x, i);
      PathPrefix(blocks, g, y, j);
      SamePrefix(p, q, i + 1);
    }
  }

  lemma SamePrefix(p: seq<Block>, q: seq<Block>, k: nat)
    requires k <= |p| && k <= |q| && p[..k] == q[..k]
    ensures k <= Diverge(p, q)
  {
    forall i | 0 <= i < k ensures p[i].hash == q[i].hash {
      assert p[i] == p[..k][i] && q[i] == q[..k][i];
    }
  }

  // The blocks that a switch from x to y abandons.
  ghost function Abandoned(blocks: Blocks, g: Block, x: string, y: string): set<Block>
    requires IsTree(blocks, g) && x in blocks && y in blocks
  {
    set b | b in Path(blocks, g, x) && b !in Path(blocks, g, y)
  }

  lemma ReorgDepthExact(blocks: Blocks, g: Block, x: string, y: string)
    requires IsTree(blocks, g) && x in blocks && y in blocks
    ensures ReorgDepth(Path(blocks, g, x), Path(blocks, g, y)) == |Abandoned(blocks, g, x, y)|
  {
    hide IsTree, Path, Diverge;
    var p, q := Path(blocks, g, x), Path(blocks, g, y);
    var tail := p[Diverge(p, q)..];
    PathLinked(blocks, g, x);
    DistinctSize(tail);
    forall b ensures b in p && b !in q <==> b in tail {
      AbandonedIsTail(blocks, g, x, y, b);
    }
    assert Abandoned(blocks, g, x, y) == set b | b in tail;
  }

  lemma AbandonedIsTail(blocks: Blocks, g: Block, x: string, y: string, b: Block)
    requires IsTree(blocks, g) && x in blocks && y in blocks
    ensures var p, q := Path(blocks, g, x), Path(blocks, g, y);
      b in p && b !in q <==> b in p[Diverge(p, q)..]
  {
    hide IsTree, Path, Diverge;
    var p, q := Path(blocks, g, x), Path(blocks, g, y);
    var d := Diverge(p, q);
    if b in p[d..] {
      var j :| 0 <= j < |p[d..]| && p[d..][j] == b;
      assert p[d + j] == b;
      SharedIsBeforeDivergence(blocks, g, x, y, d + j);
    }
    if b in p && b !in q {
      var i :| 0 <= i < |p| && p[i] == b;
      SharedIsBeforeDivergence(blocks, g, x, y, i);
      assert p[d..][i - d] == b;
    }
  }

  lemma {:induction false} DistinctSize(s: seq<Block>)
    requires forall i, j :: 0 <= i < j < |s| ==> s[i].index < s[j].index
    ensures |set b | b in s| == |s|
  {
    if s != [] {
      var front, last := s[..|s| - 1], s[|s| - 1];
      DistinctSize(front);
      assert s == front + [last];
      assert (set b | b in s) == (set b | b in front) + {last};
      assert last !in front;
    }
  }

  // At most as many blocks as there are slots fit between two slots.
  lemma {:induction false} SlotsBound(p: seq<Block>, i: nat, j: nat)
    requires Linked(p) && i <= j < |p|
    ensures p[j].slot - p[i].slot >= j - i
    decreases j
  {
    if i < j {
      SlotsBound(p, i, j - 1);
      assert p[j - 1].slot < p[j].slot;
    }
  }

  // ------------------------------------------------------------- fork ranking

  ghost predicate IsLeaf(blocks: Blocks, h: string) {
    h in blocks && forall k :: k in blocks ==> blocks[k].prevHash != h
  }

  ghost predicate Beats(blocks: Blocks, g: Block, snaps: Snapshots, epochLength: nat, h: string, k: string)
    requires IsTree(blocks, g) && h in blocks && k in blocks && epochLength > 0
  {
    BetterScore(ScoreOf(blocks, g, snaps, epochLength, h), ScoreOf(blocks, g, snaps, epochLength, k))
  }

  // It weighs no less, and its slot is later.
  lemma ChildBeatsParent(blocks: Blocks, g: Block, snaps: Snapshots, epochLength: nat, h: string)
    requires IsTree(blocks, g) && epochLength > 0
    requires h in blocks && h != g.hash
    ensures blocks[h].prevHash in blocks && Beats(blocks, g, snaps, epochLength, h, blocks[h].prevHash)
  {
    assert Extends(blocks, blocks[h]);
    WeightExtend(snaps, epochLength, Path(blocks, g, blocks[h].prevHash), blocks[h]);
  }

  ghost predicate IsBest(scores: map<string, ChainScore>, among: set<string>, h: string) {
    h in among && h in scores && forall k :: k in among && k in scores && k != h ==> BetterScore(scores[h], scores[k])
  }

  lemma {:induction false} BestExists(scores: map<string, ChainScore>, among: set<string>)
    requires forall h :: h in scores ==> scores[h].hash == h
    requires among != {} && among <= scores.Keys
    ensures exists h :: IsBest(scores, among, h)
  {
    hide BetterScore;
    var h :| h in among;
    var rest := among - {h};
    if rest == {} {
      assert among == {h};
      assert IsBest(scores, among, h);
    } else {
      BestExists(scores, rest);
      var m :| IsBest(scores, rest, m);
      BetterScoreTotalOrder(scores[h], scores[m], scores[m]);
      if BetterScore(scores[h], scores[m]) {
        forall k | k in among && k != h ensures BetterScore(scores[h], scores[k]) {
          BetterScoreTotalOrder(scores[h], scores[m], scores[k]);
        }
        assert IsBest(scores, among, h);
      } else {
        assert IsBest(scores, among, m);
      }
    }
  }

  // The leaf that beats the other leaves beats every other block of the tree.
  lemma BestLeafBeatsAll(blocks: Blocks, g: Block, snaps: Snapshots, epochLength: nat, top: string)
    requires IsTree(blocks, g) && epochLength > 0
    requires IsLeaf(blocks, top)
    requires forall k :: IsLeaf(blocks, k) && k != top ==> Beats(blocks, g, snaps, epochLength, top, k)
    ensures forall k :: k in blocks && k != top ==> Beats(blocks, g, snaps, epochLength, top, k)
  {
    hide BetterScore, Weight;
    var best := BestIsLeaf(blocks, g, snaps, epochLength);
    if best != top {
      NotBoth(blocks, g, snaps, epochLength, best, top);
    }
  }

  // The best block of all is a leaf, because a child beats its parent.
  lemma BestIsLeaf(blocks: Blocks, g: Block, snaps: Snapshots, epochLength: nat) returns (best: string)
    requires IsTree(blocks, g) && epochLength > 0
    ensures IsLeaf(blocks, best)
    ensures forall k :: k in blocks && k != best ==> Beats(blocks, g, snaps, epochLength, best, k)
  {
    hide BetterScore, Weight;
    var scores := map h | h in blocks :: ScoreOf(blocks, g, snaps, epochLength, h);
    BestExists(scores, blocks.Keys);
    best :| IsBest(scores, blocks.Keys, best);
    assert forall k :: k in blocks && k != best ==> Beats(blocks, g, snaps, epochLength, best, k);
    forall k | k in blocks ensures blocks[k].prevHash != best {
      Lower(blocks, g, k);
      if blocks[k].prevHash == best {
        ChildBeatsParent(blocks, g, snaps, epochLength, k);
        NotBoth(blocks, g, snaps, epochLength, k, best);
      }
    }
  }

  lemma SomeLeaf(blocks: Blocks, g: Block) returns (leaf: string)
    requires IsTree(blocks, g)
    ensures IsLeaf(blocks, leaf)
  {
    var scores := map h | h in blocks :: ChainScore(blocks[h].slot, 0, h);
    BestExists(scores, blocks.Keys);
    leaf :| IsBest(scores, blocks.Keys, leaf);
    forall k | k in blocks ensures blocks[k].prevHash != leaf {
      assert k != g.hash ==> Extends(blocks, blocks[k]);
    }
  }

  lemma NotBoth(blocks: Blocks, g: Block, snaps: Snapshots, epochLength: nat, h: string, k: string)
    requires IsTree(blocks, g) && epochLength > 0 && h in blocks && k in blocks
    ensures !(Beats(blocks, g, snaps, epochLength, h, k) && Beats(blocks, g, snaps, epochLength, k, h))
  {
    BetterScoreTotalOrder(ScoreOf(blocks, g, snaps, epochLength, h), ScoreOf(blocks, g, snaps, epochLength, k),
      ScoreOf(blocks, g, snaps, epochLength, h));
  }

  lemma Lower(blocks: Blocks, g: Block, k: string)
    requires IsTree(blocks, g) && k in blocks
    ensures blocks[k].prevHash != k
  {
    if k != g.hash {
      assert Extends(blocks, blocks[k]);
    }
  }
}
