// adapters/storage_file.go: the index that FileBlockStore keeps in memory. The
// files behind it are not modelled; whether a write succeeds is an input.
module Storage {
  import opened Domain

  datatype Store = Store(blocks: map<string, Block>, heightToHash: map<nat, string>, tipHash: string, tipHeight: nat)

  const EMPTY_STORE := Store(map[], map[], "", 0)

  // What the two writes of SaveBlock did: the block line, then the index file.
  datatype WriteOutcome = BothWritten | BlockNotWritten | IndexNotWritten

  function SaveBlock(s: Store, b: Block, io: WriteOutcome): Store {
    if io.BlockNotWritten? then s
    else Store(
      s.blocks[b.hash := b],
      s.heightToHash[b.index := b.hash],
      if b.index >= s.tipHeight then b.hash else s.tipHash,
      if b.index >= s.tipHeight then b.index else s.tipHeight)
  }

  function GetTip(s: Store): Option<Block> {
    if s.tipHash == "" || s.tipHash !in s.blocks then None else Some(s.blocks[s.tipHash])
  }

  // What GetRange reads at one height.
  function AtHeight(s: Store, h: nat): Option<Block> {
    if h in s.heightToHash && s.heightToHash[h] in s.blocks then Some(s.blocks[s.heightToHash[h]]) else None
  }

  // The index answers with this chain: GetTip and GetRange(0, tip) give it back.
  ghost predicate Indexes(s: Store, chain: seq<Block>) {
    forall i :: 0 <= i < |chain| ==> AtHeight(s, i) == Some(chain[i])
  }

  // The chain is on record, and at most one block above it.
  ghost predicate Records(s: Store, chain: seq<Block>) {
    && |chain| - 1 <= s.tipHeight <= |chain|
    && forall i :: 0 <= i < |chain| ==> AtHeight(s, i) == Some(chain[i]) && s.heightToHash[i] == chain[i].hash
  }

  // The last block saved is the end of the chain.
  ghost predicate EndsWith(s: Store, chain: seq<Block>) {
    chain != [] && s.tipHeight == |chain| - 1 && s.tipHash == chain[|chain| - 1].hash
  }

  // A block saved at the height above the chain leaves the chain on record, and
  // so it does what stood at that height before; if the block is adopted, the
  // record is of the longer chain and ends with it.
  lemma SaveRecords(s: Store, chain: seq<Block>, b: Block, io: WriteOutcome)
    requires Records(s, chain) && b.index == |chain| && forall i :: 0 <= i < |chain| ==> chain[i].hash != b.hash
    ensures Records(SaveBlock(s, b, io), chain)
    ensures !io.BlockNotWritten? ==>
      Records(SaveBlock(s, b, io), chain + [b]) && EndsWith(SaveBlock(s, b, io), chain + [b])
  {
  }

  // What every store is that nothing but SaveBlock has filled, as long as no two
  // blocks share a hash.
  ghost predicate Tidy(s: Store) {
    && (forall h :: h in s.blocks ==> s.blocks[h].hash == h)
    && (forall i :: i in s.heightToHash ==> s.heightToHash[i] in s.blocks && s.blocks[s.heightToHash[i]].index == i)
    && (s.tipHash != "" ==>
         && s.tipHash in s.blocks && s.blocks[s.tipHash].index == s.tipHeight
         && s.tipHeight in s.heightToHash && s.heightToHash[s.tipHeight] == s.tipHash)
  }

  // And the parent of a block, if it is there, stands one lower.
  ghost predicate Stacked(s: Store) {
    Tidy(s) && forall h :: h in s.blocks && s.blocks[h].prevHash in s.blocks ==>
      s.blocks[s.blocks[h].prevHash].index + 1 == s.blocks[h].index
  }

  // The store holds no other block under the hash of b.
  predicate Unclashing(s: Store, b: Block) {
    b.hash in s.blocks ==> s.blocks[b.hash] == b
  }

  lemma SaveTidy(s: Store, b: Block, io: WriteOutcome)
    requires Tidy(s) && Unclashing(s, b)
    ensures Tidy(SaveBlock(s, b, io))
  {
  }

  lemma SaveStacked(s: Store, b: Block, io: WriteOutcome)
    requires Stacked(s) && Unclashing(s, b)
    requires b.prevHash != b.hash && (b.prevHash in s.blocks ==> s.blocks[b.prevHash].index + 1 == b.index)
    requires forall h :: h in s.blocks ==> s.blocks[h].prevHash != b.hash
    ensures Stacked(SaveBlock(s, b, io))
  {
    hide Tidy;
    SaveTidy(s, b, io);
  }

  // Some height up to the tip's has no block, and GetRange fails.
  ghost predicate Gap(s: Store) {
    GetTip(s).Some? && exists h :: 0 <= h <= GetTip(s).value.index && AtHeight(s, h).None?
  }

  // What GetRange gives from height 0 to the tip's.
  ghost function RangeOf(s: Store): (p: seq<Block>)
    requires GetTip(s).Some? && !Gap(s)
    ensures |p| == GetTip(s).value.index + 1 && Indexes(s, p)
  {
    seq(GetTip(s).value.index + 1, i requires 0 <= i <= GetTip(s).value.index => AtHeight(s, i).value)
  }

  lemma RangeEnds(s: Store)
    requires Tidy(s) && GetTip(s).Some? && !Gap(s)
    ensures RangeOf(s)[|RangeOf(s)| - 1] == GetTip(s).value
  {
    var p := RangeOf(s);
    assert AtHeight(s, |p| - 1) == Some(p[|p| - 1]);
  }

  class FileBlockStore {
    var blocks: map<string, Block>
    var heightToHash: map<nat, string>
    var tipHash: string
    var tipHeight: nat

    ghost function View(): Store
      reads this
    {
      Store(blocks, heightToHash, tipHash, tipHeight)
    }

    constructor ()
      ensures View() == EMPTY_STORE
    {
      blocks, heightToHash, tipHash, tipHeight := map[], map[], "", 0;
    }

    method Save(block: Block, io: WriteOutcome) returns (ok: bool)
      modifies this
      ensures View() == SaveBlock(old(View()), block, io)
      ensures ok == io.BothWritten?
    {
      if io == BlockNotWritten {
        return false;
      }
      blocks := blocks[block.hash := block];
      heightToHash := heightToHash[block.index := block.hash];
      if block.index >= tipHeight {
        tipHeight := block.index;
        tipHash := block.hash;
      }
      return io != IndexNotWritten;
    }

    method Tip() returns (b: Option<Block>)
      ensures b == GetTip(View())
    {
      if tipHash == "" {
        return None;
      }
      if tipHash !in blocks {
        return None;
      }
      return Some(blocks[tipHash]);
    }

    // None is the error of a height without a block.
    method GetRange(startHeight: nat, endHeight: nat) returns (r: Option<seq<Block>>)
      ensures r.None? <==> exists h :: startHeight <= h <= endHeight && AtHeight(View(), h).None?
      ensures r.Some? ==> |r.value| == if endHeight < startHeight then 0 else endHeight - startHeight + 1
      ensures r.Some? ==> forall i :: 0 <= i < |r.value| ==> AtHeight(View(), startHeight + i) == Some(r.value[i])
    {
      if endHeight < startHeight {
        return Some([]);
      }
      var out: seq<Block> := [];
      for h := startHeight to endHeight + 1
        invariant |out| == h - startHeight
        invariant forall i :: 0 <= i < |out| ==> AtHeight(View(), startHeight + i) == Some(out[i])
      {
        assert startHeight <= h <= endHeight;
        if h !in heightToHash {
          assert AtHeight(View(), h).None?;
          return None;
        }
        if heightToHash[h] !in blocks {
          assert AtHeight(View(), h).None?;
          return None;
        }
        out := out + [blocks[heightToHash[h]]];
      }
      forall h | startHeight <= h <= endHeight ensures AtHeight(View(), h).Some? {
        assert AtHeight(View(), startHeight + (h - startHeight)) == Some(out[h - startHeight]);
      }
      return Some(out);
    }
  }
}
