// GetForkCandidates: the leaves of the tree, best first.
module Forks {
  import opened Domain
  import opened Stake
  import opened Tree
  import opened Engine

  datatype ForkCandidate = ForkCandidate(hash: string, slot: nat, weight: nat, parent: string)

  function CandidateScore(f: ForkCandidate): ChainScore {
    ChainScore(f.slot, f.weight, f.hash)
  }

  // The memo that weights are kept in while candidates are scored.
  class WeightCache {
    var weights: map<string, nat>

    constructor ()
      ensures weights == map[]
    {
      weights := map[];
    }
  }

  ghost predicate CacheRight(n: Node, weights: map<string, nat>)
    requires Sane(n)
  {
    forall h :: h in weights ==> h in n.blocks && weights[h] == Score(n, h).weight
  }

  ghost predicate CandidateRight(n: Node, f: ForkCandidate)
    requires Sane(n)
  {
    f.hash in n.blocks && CandidateScore(f) == Score(n, f.hash) && f.parent == n.blocks[f.hash].prevHash
  }

  ghost predicate Offers(out: seq<ForkCandidate>, h: string) {
    exists i :: 0 <= i < |out| && out[i].hash == h
  }

  // The leaves of the tree and nothing else, each once, in strict order.
  ghost predicate Ranked(n: Node, out: seq<ForkCandidate>)
    requires Sane(n)
  {
    && (forall i :: 0 <= i < |out| ==> CandidateRight(n, out[i]))
    && (forall h :: Offers(out, h) <==> IsLeaf(n.blocks, h))
    && (forall i, j :: 0 <= i < j < |out| ==> BetterScore(CandidateScore(out[i]), CandidateScore(out[j])))
  }

  // ----------------------------------------------------------------- the memo

  lemma WeightOfChild(n: Node, h: string)
    requires Sane(n) && h in n.blocks && n.blocks[h].prevHash != GENESIS_PARENT
    ensures n.blocks[h].prevHash in n.blocks && n.blocks[n.blocks[h].prevHash].index < n.blocks[h].index
    ensures Score(n, h).weight == Score(n, n.blocks[h].prevHash).weight
      + StakeIn(n.snapshots, n.cfg.epochLength, n.blocks[h].slot, n.blocks[h].validator)
  {
    hide Registry, Covered, Clocked, StakeIn;
    assert Extends(n.blocks, n.blocks[h]);
    WeightExtend(n.snapshots, n.cfg.epochLength, Path(n.blocks, n.chain[0], n.blocks[h].prevHash), n.blocks[h]);
  }

  lemma WeightOfRoot(n: Node, h: string)
    requires Sane(n) && h in n.blocks && n.blocks[h].prevHash == GENESIS_PARENT
    ensures h == n.chain[0].hash && n.blocks[h].slot == 0
    ensures Score(n, h).weight == StakeIn(n.snapshots, n.cfg.epochLength, 0, n.blocks[h].validator)
  {
    hide Registry, Covered, Clocked, StakeIn;
    assert h != n.chain[0].hash ==> Extends(n.blocks, n.blocks[h]);
    WeightExtend(n.snapshots, n.cfg.epochLength, [], n.blocks[h]);
  }

  lemma NothingYet(n: Node)
    requires Sane(n)
    ensures CacheRight(n, map[]) && Gathered(n, {}, [])
  {
    hide Sane;
  }

  lemma CacheHit(n: Node, weights: map<string, nat>, h: string)
    requires Sane(n) && CacheRight(n, weights) && h in weights
    ensures h in n.blocks && weights[h] == Score(n, h).weight
  {
    hide Sane, Score;
  }

  lemma CacheNext(n: Node, weights: map<string, nat>, h: string, weight: nat)
    requires Sane(n) && CacheRight(n, weights) && h in n.blocks && weight == Score(n, h).weight
    ensures CacheRight(n, weights[h := weight])
  {
    hide Sane, Score;
  }

  // ------------------------------------------------------------------- leaves

  // The parents named by the stored blocks, without the two that are no block.
  method ParentsNamed(parents: map<string, string>) returns (hasChild: set<string>)
    ensures forall h :: h in hasChild <==> h != "" && h != GENESIS_PARENT && exists k :: k in parents && parents[k] == h
  {
    hasChild := {};
    var todo := parents.Keys;
    while todo != {}
      invariant todo <= parents.Keys
      invariant forall h :: h in hasChild <==>
        h != "" && h != GENESIS_PARENT && exists k :: k in parents.Keys - todo && parents[k] == h
      decreases todo
    {
      var k :| k in todo;
      todo := todo - {k};
      if parents[k] != "" && parents[k] != GENESIS_PARENT {
        hasChild := hasChild + {parents[k]};
      }
    }
  }

  lemma LeafIsNoParent(n: Node, hasChild: set<string>, h: string)
    requires Sane(n) && h in n.blocks
    requires h in hasChild <==> h != "" && h != GENESIS_PARENT && exists k :: k in n.parents && n.parents[k] == h
    ensures IsLeaf(n.blocks, h) <==> h !in hasChild
  {
    hide Registry, Covered, Clocked, Path;
    assert forall k :: k in n.parents <==> k in n.blocks;
    assert forall k :: k in n.parents ==> n.parents[k] == n.blocks[k].prevHash;
  }

  // ------------------------------------------------------------------ sorting

  ghost predicate Descending(fs: seq<ForkCandidate>) {
    forall i, j :: 0 <= i < j < |fs| ==> BetterScore(CandidateScore(fs[i]), CandidateScore(fs[j]))
  }

  // sort.Slice is foreign code: only its contract matters. This body inserts one
  // candidate after the other.
  method SortCandidates(fs: seq<ForkCandidate>) returns (out: seq<ForkCandidate>)
    requires Distinct(fs)
    ensures Descending(out) && forall f :: f in out <==> f in fs
  {
    hide BetterScore;
    out := [];
    for i := 0 to |fs|
      invariant Descending(out)
      invariant forall f :: f in out <==> f in fs[..i]
    {
      var k := 0;
      while k < |out| && BetterScore(CandidateScore(out[k]), CandidateScore(fs[i]))
        invariant k <= |out|
        invariant forall j :: 0 <= j < k ==> BetterScore(CandidateScore(out[j]), CandidateScore(fs[i]))
      {
        k := k + 1;
      }
      if k < |out| {
        assert out[k] in fs[..i];
        BetterScoreTotalOrder(CandidateScore(out[k]), CandidateScore(fs[i]), CandidateScore(fs[i]));
      }
      InsertDescending(out, k, fs[i]);
      out := out[..k] + [fs[i]] + out[k..];
      assert forall f :: f in out <==> f in fs[..i] || f == fs[i];
    }
    assert fs[..|fs|] == fs;
  }

  lemma InsertDescending(fs: seq<ForkCandidate>, k: nat, f: ForkCandidate)
    requires Descending(fs) && k <= |fs|
    requires forall j :: 0 <= j < k ==> BetterScore(CandidateScore(fs[j]), CandidateScore(f))
    requires k < |fs| ==> BetterScore(CandidateScore(f), CandidateScore(fs[k]))
    ensures Descending(fs[..k] + [f] + fs[k..])
  {
    hide BetterScore;
    var l := fs[..k] + [f] + fs[k..];
    forall i, j | 0 <= i < j < |l| ensures BetterScore(CandidateScore(l[i]), CandidateScore(l[j])) {
      if i == k {
        assert l[j] == fs[j - 1];
        BetterScoreTotalOrder(CandidateScore(f), CandidateScore(fs[k]), CandidateScore(fs[j - 1]));
      } else if j == k {
        assert l[i] == fs[i];
      } else {
        assert l[i] == fs[if i < k then i else i - 1] && l[j] == fs[if j < k then j else j - 1];
      }
    }
  }

  // The leaves among the blocks looked at so far.
  ghost predicate Gathered(n: Node, seen: set<string>, fs: seq<ForkCandidate>)
    requires Sane(n)
  {
    && (forall i :: 0 <= i < |fs| ==> CandidateRight(n, fs[i]))
    && (forall h :: Offers(fs, h) <==> IsLeaf(n.blocks, h) && h in seen)
    && Distinct(fs)
  }

  ghost predicate Distinct(fs: seq<ForkCandidate>) {
    forall i, j :: 0 <= i < j < |fs| ==> fs[i].hash != fs[j].hash
  }

  // Every tree has a leaf: a block of the latest slot.
  lemma SomeCandidate(n: Node, fs: seq<ForkCandidate>)
    requires Sane(n) && Gathered(n, n.blocks.Keys, fs)
    ensures fs != []
  {
    hide Sane, CandidateRight, BetterScore;
    SaneTree(n);
    var leaf := SomeLeaf(n.blocks, n.chain[0]);
    assert Offers(fs, leaf);
  }

  lemma GatheredDistinct(n: Node, seen: set<string>, fs: seq<ForkCandidate>)
    requires Sane(n) && Gathered(n, seen, fs)
    ensures Distinct(fs)
  {
    hide Sane;
  }

  lemma GatheredLeaf(n: Node, seen: set<string>, fs: seq<ForkCandidate>, f: ForkCandidate)
    requires Sane(n) && Gathered(n, seen, fs) && CandidateRight(n, f) && IsLeaf(n.blocks, f.hash) && f.hash !in seen
    ensures Gathered(n, seen + {f.hash}, fs + [f])
  {
    hide Sane, CandidateRight, IsLeaf;
    var l := fs + [f];
    forall h ensures Offers(l, h) <==> Offers(fs, h) || h == f.hash {
      assert l[|fs|] == f;
      assert forall i :: 0 <= i < |fs| ==> l[i] == fs[i];
    }
    assert !Offers(fs, f.hash);
  }

  lemma GatheredOther(n: Node, seen: set<string>, fs: seq<ForkCandidate>, h: string)
    requires Sane(n) && Gathered(n, seen, fs) && !IsLeaf(n.blocks, h)
    ensures Gathered(n, seen + {h}, fs)
  {
    hide Sane, CandidateRight, IsLeaf;
  }

  // --------------------------------------------------------------- the result

  lemma SortedRanked(n: Node, fs: seq<ForkCandidate>, out: seq<ForkCandidate>)
    requires Sane(n) && Descending(out) && Gathered(n, n.blocks.Keys, fs) && forall f :: f in out <==> f in fs
    ensures Ranked(n, out)
  {
    hide Sane, CandidateRight, BetterScore;
    forall i | 0 <= i < |out| ensures CandidateRight(n, out[i]) {
      assert out[i] in fs;
    }
    forall h ensures Offers(out, h) <==> Offers(fs, h) {
      assert forall i :: 0 <= i < |out| ==> out[i] in fs;
      assert forall i :: 0 <= i < |fs| ==> fs[i] in out;
    }
  }

  // The first candidate beats every other stored block, not only the other
  // leaves.
  lemma FirstCandidateBeatsAll(n: Node, out: seq<ForkCandidate>)
    requires Sane(n) && Ranked(n, out)
    ensures out != [] && out[0].hash in n.blocks
    ensures forall k :: k in n.blocks && k != out[0].hash ==> BetterScore(Score(n, out[0].hash), Score(n, k))
  {
    hide Sane, Path, IsTree, BetterScore, Weight, IsLeaf;
    SaneTree(n);
    var g := n.chain[0];
    var leaf := BestIsLeaf(n.blocks, g, n.snapshots, n.cfg.epochLength);
    assert Offers(out, leaf);
    var top := out[0].hash;
    assert Offers(out, top) && CandidateRight(n, out[0]);
    forall k | IsLeaf(n.blocks, k) && k != top ensures Beats(n.blocks, g, n.snapshots, n.cfg.epochLength, top, k) {
      assert Offers(out, k);
      var j :| 0 <= j < |out| && out[j].hash == k;
      assert CandidateRight(n, out[j]);
      assert BetterScore(CandidateScore(out[0]), CandidateScore(out[j]));
    }
    BestLeafBeatsAll(n.blocks, g, n.snapshots, n.cfg.epochLength, top);
    forall k | k in n.blocks && k != top ensures BetterScore(Score(n, top), Score(n, k)) {
      assert Beats(n.blocks, g, n.snapshots, n.cfg.epochLength, top, k);
    }
  }
}
