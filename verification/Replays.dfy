// The ledger over the tree: signatures under recorded keys, replays, and the
// state cache. It takes two hypotheses more than the tree does, because a
// replay asks the registry of today for the addresses of the producers of the
// past.
module Replays {
  import opened Domain
  import opened Crypto
  import opened Ledger
  import opened Stake
  import opened Tree
  import opened Storage
  import opened Engine
  import opened Invariant
  import opened ForkChoice
  import opened Misses
  import opened Steps
  import opened Production
  import opened Runs
  import opened Theorems
  import opened Upkeep

  // ------------------------------------------------------------ the conjuncts

  // The block is signed with the key on record and holds what it says.
  ghost predicate Vouched(c: Primitives, keys: map<string, string>, b: Block) {
    && b.validator in keys && BlockSignatureOk(c, b, keys[b.validator])
    && CheckTransactions(c, b.txs).None?
    && TxRoot(c, b.txs) == b.txRoot
  }

  ghost predicate AllVouched(c: Primitives, blocks: Blocks, g: Block, keys: map<string, string>) {
    forall h :: h in blocks && h != g.hash ==> Vouched(c, keys, blocks[h])
  }

  // The chain up to a block replays, and gives the state whose root it carries.
  ghost predicate Roots(c: Primitives, genesis: State, keys: map<string, string>, p: seq<Block>) {
    p != [] && Replay(c, genesis, keys, p).Ok?
    && StateRoot(c, Replay(c, genesis, keys, p).value) == p[|p| - 1].stateRoot
  }

  ghost predicate AllRooted(c: Primitives, blocks: Blocks, g: Block, genesis: State, keys: map<string, string>)
    requires IsTree(blocks, g)
  {
    forall h :: h in blocks && h != g.hash ==> Roots(c, genesis, keys, Path(blocks, g, h))
  }

  // No registered producer has another key than the one on record.
  ghost predicate KeysCurrent(keys: map<string, string>, vs: Validators) {
    forall v :: v in keys && v in vs ==> vs[v].pubKey == keys[v]
  }

  // Hypothesis H2 at one moment: whoever produced a stored block is still
  // registered.
  ghost predicate Registered(keys: map<string, string>, vs: Validators) {
    keys.Keys <= vs.Keys
  }

  lemma NoneRecorded(vs: Validators)
    ensures Registered(map[], vs)
  {
  }

  ghost predicate Vetted(c: Primitives, n: Node)
    requires Sane(n)
  {
    && AllVouched(c, n.blocks, n.chain[0], n.keys)
    && AllRooted(c, n.blocks, n.chain[0], n.genesis, n.keys)
    && KeysCurrent(n.keys, n.validators)
  }

  // And the balances kept up to date are those of the canonical replay.
  ghost predicate Ledgered(c: Primitives, n: Node) {
    Sane(n) && Vetted(c, n) && Replay(c, n.genesis, n.keys, n.chain) == Ok(n.state)
  }

  // ------------------------------------------------------------------- replay

  // Only the keys of the producers on the chain matter to a replay.
  lemma {:induction false} ReplaySame(c: Primitives, genesis: State, j: map<string, string>, k: map<string, string>,
                                      p: seq<Block>)
    requires forall i :: 0 < i < |p| ==> FeeAddress(c, j, p[i].validator) == FeeAddress(c, k, p[i].validator)
    ensures Replay(c, genesis, j, p) == Replay(c, genesis, k, p)
    decreases |p|
  {
    hide Apply, FeeAddress;
    if |p| > 1 {
      ReplaySame(c, genesis, j, k, p[..|p| - 1]);
    }
  }

  lemma ReplayExtend(c: Primitives, genesis: State, keys: map<string, string>, p: seq<Block>, b: Block)
    requires p != [] && Replay(c, genesis, keys, p).Ok?
    ensures Replay(c, genesis, keys, p + [b])
         == Apply(Replay(c, genesis, keys, p).value, b.txs, FeeAddress(c, keys, b.validator))
  {
    hide Apply, FeeAddress;
    assert (p + [b])[..|p|] == p;
  }

  lemma PathVouched(c: Primitives, n: Node, h: string)
    requires Sane(n) && Vetted(c, n) && h in n.blocks
    ensures forall i :: 0 < i < |Path(n.blocks, n.chain[0], h)| ==> Vouched(c, n.keys, Path(n.blocks, n.chain[0], h)[i])
  {
    hide Vouched, Path, AllRooted, Registry, Covered, Clocked;
    var p := Path(n.blocks, n.chain[0], h);
    PathLinked(n.blocks, n.chain[0], h);
    forall i | 0 < i < |p| ensures Vouched(c, n.keys, p[i]) {
      assert p[i].index != p[0].index;
    }
  }

  lemma PathProducers(c: Primitives, n: Node, h: string)
    requires Sane(n) && Vetted(c, n) && h in n.blocks
    ensures forall i :: 0 < i < |Path(n.blocks, n.chain[0], h)| ==> Path(n.blocks, n.chain[0], h)[i].validator in n.keys
  {
    hide Path, Sane, IsTree, BlockSignatureOk, Vetted;
    SaneTree(n);
    PathVouched(c, n, h);
    var p := Path(n.blocks, n.chain[0], h);
    forall i | 0 < i < |p| ensures p[i].validator in n.keys {
      assert Vouched(c, n.keys, p[i]);
    }
  }

  lemma ReplayAgrees(c: Primitives, genesis: State, keys: map<string, string>, vs: Validators, p: seq<Block>)
    requires KeysCurrent(keys, vs) && Registered(keys, vs)
    requires forall i :: 0 < i < |p| ==> p[i].validator in keys
    ensures Replay(c, genesis, KeysOf(vs), p) == Replay(c, genesis, keys, p)
  {
    hide Replay, AddressFromPubKey;
    forall i | 0 < i < |p| ensures FeeAddress(c, KeysOf(vs), p[i].validator) == FeeAddress(c, keys, p[i].validator) {
      assert p[i].validator in vs;
    }
    ReplaySame(c, genesis, KeysOf(vs), keys, p);
  }

  // What the engine replays with the current registry is what the history
  // says, as long as the producers are registered.
  lemma ReplayWithRegistry(c: Primitives, n: Node, h: string)
    requires Sane(n) && Vetted(c, n) && h in n.blocks && Registered(n.keys, n.validators)
    ensures StateAtTip(c, n, h) == Replay(c, n.genesis, n.keys, Path(n.blocks, n.chain[0], h))
  {
    hide AllRooted, AllVouched, Sane, Path, IsTree, Replay, Registered, KeysCurrent;
    SaneTree(n);
    PathProducers(c, n, h);
    ReplayAgrees(c, n.genesis, n.keys, n.validators, Path(n.blocks, n.chain[0], h));
  }

  // Every path of the tree replays, the genesis block's trivially.
  lemma PathReplays(c: Primitives, n: Node, h: string)
    requires Sane(n) && Vetted(c, n) && h in n.blocks
    ensures Replay(c, n.genesis, n.keys, Path(n.blocks, n.chain[0], h)).Ok?
  {
    hide AllVouched, Registry, Covered, Clocked, Apply;
    if h != n.chain[0].hash {
      assert Roots(c, n.genesis, n.keys, Path(n.blocks, n.chain[0], h));
    }
  }

  // ------------------------------------------------- what does not touch it

  ghost predicate SameLedger(n: Node, m: Node) {
    && m.cfg == n.cfg && m.chain == n.chain && m.blocks == n.blocks && m.tip == n.tip
    && m.genesis == n.genesis && m.keys == n.keys && m.state == n.state
  }

  lemma LedgerFree(c: Primitives, n: Node, m: Node)
    requires Ledgered(c, n) && Sane(m) && SameLedger(n, m) && KeysCurrent(m.keys, m.validators)
    ensures Ledgered(c, m)
  {
    hide AllVouched, AllRooted, KeysCurrent, Replay, Path, IsTree, Registry, Covered, Clocked;
  }

  lemma KeysNarrow(keys: map<string, string>, vs: Validators, ws: Validators)
    requires KeysCurrent(keys, vs) && Narrows(vs, ws)
    ensures KeysCurrent(keys, ws)
  {
  }

  lemma LedgeredKeys(c: Primitives, n: Node)
    requires Ledgered(c, n)
    ensures Sane(n) && KeysCurrent(n.keys, n.validators)
  {
  }

  // ------------------------------------------------------------ a new block in

  // What AddBlock and AddBlockExternal have established of an admissible block
  // on top of the state base.
  ghost predicate Acceptable(c: Primitives, n: Node, b: Block, base: State)
    requires Sane(n)
  {
    && Admissible(c, n, b) && b.validator in n.validators
    && BlockSignatureOk(c, b, n.validators[b.validator].pubKey)
    && CheckTransactions(c, b.txs).None?
    && TxRoot(c, b.txs) == b.txRoot
    && b.prevHash in n.blocks
    && Replay(c, n.genesis, n.keys, Path(n.blocks, n.chain[0], b.prevHash)) == Ok(base)
    && Apply(base, b.txs, FeeAddress(c, KeysOf(n.validators), b.validator)).Ok?
    && StateRoot(c, Apply(base, b.txs, FeeAddress(c, KeysOf(n.validators), b.validator)).value) == b.stateRoot
  }

  lemma AcceptableProducer(c: Primitives, n: Node, b: Block, base: State)
    requires Sane(n) && Acceptable(c, n, b, base)
    ensures Admissible(c, n, b) && b.validator in n.validators && b.hash !in n.blocks && Storable(n, b)
  {
    hide BlockSignatureOk, Path, IsTree, Replay, Apply, Led, HashBlock;
  }

  function WithKey(n: Node, b: Block): map<string, string>
    requires b.validator in n.validators
  {
    n.keys[b.validator := n.validators[b.validator].pubKey]
  }

  lemma WithKeyGrows(n: Node, b: Block)
    requires KeysCurrent(n.keys, n.validators) && Registered(n.keys, n.validators) && b.validator in n.validators
    ensures forall k :: k in n.keys ==> k in WithKey(n, b) && WithKey(n, b)[k] == n.keys[k]
    ensures KeysCurrent(WithKey(n, b), n.validators) && Registered(WithKey(n, b), n.validators)
  {
  }

  lemma InsertVouched(c: Primitives, n: Node, b: Block, base: State)
    requires Ledgered(c, n) && Acceptable(c, n, b, base) && Registered(n.keys, n.validators)
    ensures AllVouched(c, n.blocks[b.hash := b], n.chain[0], WithKey(n, b))
  {
    hide Path, AllRooted, IsTree, Registry, Covered, Clocked, Replay, LeaderAt, BlockSignatureOk, CheckTransactions,
      TxRoot, Admissible;
    WithKeyGrows(n, b);
    var after := n.blocks[b.hash := b];
    forall h | h in after && h != n.chain[0].hash ensures Vouched(c, WithKey(n, b), after[h]) {
      assert h != b.hash ==> Vouched(c, n.keys, n.blocks[h]);
    }
  }

  // Replays of stored paths do not notice the new key.
  lemma OldPathSame(c: Primitives, n: Node, b: Block, h: string)
    requires Ledgered(c, n) && Registered(n.keys, n.validators) && b.validator in n.validators && h in n.blocks
    ensures Replay(c, n.genesis, WithKey(n, b), Path(n.blocks, n.chain[0], h))
         == Replay(c, n.genesis, n.keys, Path(n.blocks, n.chain[0], h))
  {
    hide AllRooted, AllVouched, Sane, Path, IsTree, Replay, AddressFromPubKey;
    SaneTree(n);
    PathProducers(c, n, h);
    WithKeyGrows(n, b);
    ReplaySame(c, n.genesis, WithKey(n, b), n.keys, Path(n.blocks, n.chain[0], h));
  }

  lemma NewPathRooted(c: Primitives, n: Node, b: Block, base: State)
    requires Ledgered(c, n) && Acceptable(c, n, b, base) && Registered(n.keys, n.validators)
    ensures Roots(c, n.genesis, WithKey(n, b), Path(n.blocks, n.chain[0], b.prevHash) + [b])
  {
    hide Sane, Vetted, IsTree, Replay, AddressFromPubKey, Apply, Path, Admissible, BlockSignatureOk, Registered;
    SaneTree(n);
    OldPathSame(c, n, b, b.prevHash);
    assert FeeAddress(c, KeysOf(n.validators), b.validator) == FeeAddress(c, WithKey(n, b), b.validator);
    ReplayExtend(c, n.genesis, WithKey(n, b), Path(n.blocks, n.chain[0], b.prevHash), b);
  }

  lemma OldRooted(c: Primitives, n: Node, b: Block, h: string)
    requires Ledgered(c, n) && Registered(n.keys, n.validators) && b.validator in n.validators
    requires h in n.blocks && h != n.chain[0].hash
    ensures Roots(c, n.genesis, WithKey(n, b), Path(n.blocks, n.chain[0], h))
  {
    hide AllVouched, Registry, Covered, Clocked, Replay, Path, IsTree, Registered;
    OldPathSame(c, n, b, h);
    assert Roots(c, n.genesis, n.keys, Path(n.blocks, n.chain[0], h));
  }

  lemma InsertRooted(c: Primitives, n: Node, b: Block, base: State)
    requires Ledgered(c, n) && Acceptable(c, n, b, base) && Registered(n.keys, n.validators)
    ensures IsTree(n.blocks[b.hash := b], n.chain[0])
    ensures AllRooted(c, n.blocks[b.hash := b], n.chain[0], n.genesis, WithKey(n, b))
  {
    hide Sane, Vetted, Replay, Path, Roots, BlockSignatureOk, Apply, Acceptable, Admissible, IsTree, Extends,
      Registered;
    SaneTree(n);
    AcceptableProducer(c, n, b, base);
    var g, after := n.chain[0], n.blocks[b.hash := b];
    StorableExtends(n, b);
    InsertKeepsTree(n.blocks, g, b);
    forall h | h in after && h != g.hash ensures Roots(c, n.genesis, WithKey(n, b), Path(after, g, h)) {
      if h == b.hash {
        NewPathRooted(c, n, b, base);
      } else {
        PathStable(n.blocks, after, g, h);
        OldRooted(c, n, b, h);
      }
    }
  }

  lemma StorableExtends(n: Node, b: Block)
    requires Storable(n, b)
    ensures Extends(n.blocks, b) && b.prevHash in n.blocks && b.hash !in n.blocks && b.hash != ""
    ensures b.hash != GENESIS_PARENT
  {
  }

  // The first steps of taking an acceptable block in: on record, stored.
  lemma StoredLedgered(c: Primitives, n: Node, b: Block, base: State)
    requires Ledgered(c, n) && Acceptable(c, n, b, base) && Registered(n.keys, n.validators)
    requires b.validator in n.validators && !Equivocates(n, b) && Storable(n, b)
    ensures Ledgered(c, Stored(n, b)) && Registered(Stored(n, b).keys, Stored(n, b).validators)
  {
    hide Sane, AllVouched, AllRooted, Replay, Path, IsTree, Acceptable, Equivocates, Storable, RegisterProducer;
    SaneTree(n);
    StoredSane(n, b);
    StoredStats(n, b);
    InsertVouched(c, n, b, base);
    InsertRooted(c, n, b, base);
    OldPathSame(c, n, b, n.tip);
    WithKeyGrows(n, b);
  }

  // In a vetted node the replay of an adopted chain never fails, so the early
  // return of rebuildStateFromCanonical is never taken.
  lemma AdoptReplays(c: Primitives, n: Node, h: string)
    requires Sane(n) && Vetted(c, n) && Registered(n.keys, n.validators) && h in n.blocks
    ensures StateAtTip(c, n, h).Ok?
    ensures Adopt(c, n, h).state == StateAtTip(c, n, h).value
    ensures StateAtTip(c, n, h) == Replay(c, n.genesis, n.keys, Path(n.blocks, n.chain[0], h))
  {
    hide Path, Vetted, Sane, IsTree, Replay;
    SaneTree(n);
    ReplayWithRegistry(c, n, h);
    PathReplays(c, n, h);
  }

  lemma AdoptLedgered(c: Primitives, n: Node, h: string)
    requires Ledgered(c, n) && Registered(n.keys, n.validators) && h in n.blocks
    ensures Ledgered(c, Adopt(c, n, h))
  {
    hide Sane, Path, IsTree, Replay, AllVouched, AllRooted, KeysCurrent, Registered, StateAtTip, SlotMap;
    SaneTree(n);
    AdoptSane(c, n, h);
    AdoptReplays(c, n, h);
    PathPrefixRoot(n, h);
    assert Adopt(c, n, h).chain == Path(n.blocks, n.chain[0], h);
  }

  lemma UpdateCanonicalLedgered(c: Primitives, n: Node, h: string)
    requires Ledgered(c, n) && Registered(n.keys, n.validators) && h in n.blocks && Sane(n)
    ensures Ledgered(c, UpdateCanonical(c, n, h))
    ensures UpdateCanonical(c, n, h).keys == n.keys && UpdateCanonical(c, n, h).validators == n.validators
  {
    hide Sane, Ledgered, Adopts, EnsureSnapshot, Registered, Path, Replay, SlotMap;
    EnsureSnapshotSane(n, 0);
    LedgeredKeys(c, n);
    LedgerFree(c, n, EnsureSnapshot(n, 0));
    AdoptLedgered(c, EnsureSnapshot(n, 0), h);
  }

  // The tail of AddBlock and AddBlockExternal on an acceptable block.
  lemma AcceptLedgered(c: Primitives, n: Node, b: Block, base: State)
    requires Good(c, n) && Ledgered(c, n) && Registered(n.keys, n.validators)
    requires Sane(n) && Acceptable(c, n, b, base) && Storable(n, b)
    ensures Ledgered(c, Accept(c, n, b).node)
  {
    hide Sane, Good, Ledgered, Registered, Stored, UpdateCanonical, ProcessMissed, Acceptable, Storable, Admissible,
      Reward, KeysCurrent, TipSlot;
    GoodInv(c, n);
    AcceptableProducer(c, n, b, base);
    InsertInv(c, n, b);
    StoredSane(n, b);
    StoredLedgered(c, n, b, base);
    UpdateCanonicalLedgered(c, Stored(n, b), b.hash);
    var n3 := UpdateCanonical(c, Stored(n, b), b.hash);
    LedgeredKeys(c, n3);
    RewardSane(n3, b.validator);
    var m := Rewarded(c, n, b);
    KeysNarrow(n3.keys, n3.validators, m.validators);
    LedgerFree(c, n3, m);
    ProcessMissedSane(c, m, TipSlot(m.chain));
    ProcessMissedFrame(c, m, TipSlot(m.chain));
    KeysNarrow(m.keys, m.validators, ProcessMissed(c, m, TipSlot(m.chain)).validators);
    LedgerFree(c, m, ProcessMissed(c, m, TipSlot(m.chain)));
  }

  lemma ProcessMissedFrame(c: Primitives, n: Node, target: nat)
    requires n.cfg.epochLength > 0
    ensures SameLedger(n, ProcessMissed(c, n, target)) && ProcessMissed(c, n, target).keys == n.keys
    ensures Narrows(n.validators, ProcessMissed(c, n, target).validators)
  {
    hide JudgeUpTo;
  }

  // ------------------------------------------------------------- each operation

  lemma SaveAndAcceptLedgered(c: Primitives, n: Node, b: Block, base: State, io: WriteOutcome)
    requires Good(c, n) && Ledgered(c, n) && Registered(n.keys, n.validators)
    requires Sane(n) && Acceptable(c, n, b, base) && Storable(n, b)
    ensures Ledgered(c, SaveAndAccept(c, n, b, io).node)
  {
    hide Good, Sane, Ledgered, Registered, Acceptable, Storable, Accept, Save, KeysCurrent;
    SavedGood(c, n, b, io);
    SaveStorable(n, b, io);
    LedgeredKeys(c, n);
    LedgerFree(c, n, Save(n, b, io));
    SavedAcceptable(c, n, Save(n, b, io), b, base);
    AcceptLedgered(c, Save(n, b, io), b, base);
  }

  lemma SavedAcceptable(c: Primitives, n: Node, saved: Node, b: Block, base: State)
    requires Sane(n) && Acceptable(c, n, b, base) && saved == n.(store := saved.store) && Sane(saved)
    ensures Acceptable(c, saved, b, base)
  {
    hide Sane, Path, IsTree, Admissible, Replay, Apply, BlockSignatureOk;
    AcceptableProducer(c, n, b, base);
    SaneTree(n);
    SavedAdmissible(c, n, saved, b);
  }

  // What Build returns is acceptable.
  lemma BuiltIsAcceptable(c: Primitives, n: Node, parent: Block, state: State, leader: string,
                          txs: seq<Transaction>, entropy: nat)
    requires Sane(n) && HasSnapshot(n.snapshots, n.cfg.epochLength, SlotOf(n.poh.tick))
    requires forall h :: h in n.blocks ==> n.blocks[h].tick < n.poh.tick
    requires parent.hash in n.blocks && n.blocks[parent.hash] == parent
    requires Replay(c, n.genesis, n.keys, Path(n.blocks, n.chain[0], parent.hash)) == Ok(state)
    requires BuildFresh(c, n, parent, Ok(state), leader, txs, entropy)
    requires Build(c, n, parent, Ok(state), leader, txs, entropy).Ok?
    ensures var b := Build(c, n, parent, Ok(state), leader, txs, entropy).value;
      Acceptable(c, n, b, state) && Storable(n, b)
  {
    hide Sane, Path, IsTree, Apply, FeeAddress, CheckTransactions, HashBlock, BlockSignatureOk, TxRoot, StateRoot,
      LeaderAt, Storable, Replay, SignedDraft, Admissible, BuildFresh, HasSnapshot;
    SaneTree(n);
    BuiltIsAdmissible(c, n, parent, Ok(state), leader, txs, entropy);
    StorableProducer(n, Build(c, n, parent, Ok(state), leader, txs, entropy).value);
  }

  lemma ProduceLedgered(c: Primitives, n: Node, parent: Block, base: Result<State, TxError>, leader: string,
                        txs: seq<Transaction>, entropy: nat, io: WriteOutcome)
    requires Good(c, n) && Ledgered(c, n) && Registered(n.keys, n.validators)
    requires Sane(n) && HasSnapshot(n.snapshots, n.cfg.epochLength, SlotOf(n.poh.tick))
    requires (forall h :: h in n.blocks ==> n.blocks[h].tick < n.poh.tick)
    requires parent.hash in n.blocks && n.blocks[parent.hash] == parent
    requires BuildFresh(c, n, parent, base, leader, txs, entropy)
    requires base.Ok? ==> Replay(c, n.genesis, n.keys, Path(n.blocks, n.chain[0], parent.hash)) == base
    ensures Ledgered(c, Produce(c, n, parent, base, leader, txs, entropy, io).node)
  {
    hide Good, Ledgered, Sane, SaveAndAccept, Build, Replay, Path, IsTree, Acceptable, Storable, HasSnapshot,
      Registered, BuildFresh, Slash, KeysCurrent;
    SaneTree(n);
    if Build(c, n, parent, base, leader, txs, entropy).Ok? {
      BuiltOnState(c, n, parent, base, leader, txs, entropy);
      BuiltIsAcceptable(c, n, parent, base.value, leader, txs, entropy);
      SaveAndAcceptLedgered(c, n, Build(c, n, parent, base, leader, txs, entropy).value, base.value, io);
    } else {
      LedgeredKeys(c, n);
      SlashLeaderSane(n, leader);
      KeysNarrow(n.keys, n.validators, SlashLeader(n, leader).validators);
      LedgerFree(c, n, SlashLeader(n, leader));
    }
  }

  lemma BuiltOnState(c: Primitives, n: Node, parent: Block, base: Result<State, TxError>, leader: string,
                     txs: seq<Transaction>, entropy: nat)
    requires n.cfg.epochLength > 0 && Build(c, n, parent, base, leader, txs, entropy).Ok?
    ensures base.Ok?
  {
    hide SignedDraft;
  }

  // The clock moved, the pool read: nothing of the ledger is touched, and the
  // replay up to the tip is the state.
  lemma StartLedgered(c: Primitives, n: Node, n2: Node)
    requires Ledgered(c, n) && Sane(n2) && n2 == n.(poh := n2.poh, snapshots := n2.snapshots, pool := n2.pool)
    ensures Ledgered(c, n2) && Sane(n) && n.tip in n.blocks
    ensures Replay(c, n2.genesis, n2.keys, Path(n2.blocks, n2.chain[0], n.tip)) == Ok(n.state)
  {
    hide Sane, Vetted, Replay, Path, IsTree, KeysCurrent;
    LedgeredKeys(c, n);
    SaneTree(n);
    LedgerFree(c, n, n2);
  }

  lemma AddBlockLedgered(c: Primitives, n: Node, txs: seq<Transaction>, entropy: nat, io: WriteOutcome)
    requires Good(c, n) && Ledgered(c, n) && Registered(n.keys, n.validators) && Sane(n)
    requires AddBlockFresh(c, n, txs, entropy)
    ensures Ledgered(c, AddBlock(c, n, txs, entropy, io).node)
  {
    hide Good, Ledgered, Registered, Sane, StartSlot, TakeBody, Body, LeaderAt, Produce, BuildFresh, AddBlockFresh,
      HasSnapshot, Path, IsTree, Replay, DrawnFrom;
    if |n.validators| != 0 {
      SaneTree(n);
      TipStart(c, n, txs);
      FreshBuild(c, n, txs, entropy);
      var n1 := StartSlot(c, n);
      StartLedgered(c, n, TakeBody(c, n1, txs));
      ProduceLedgered(c, TakeBody(c, n1, txs), n.blocks[n.tip], Ok(n.state), CurrentLeader(c, n1), Body(c, n1, txs),
        entropy, io);
    }
  }

  lemma AddBlockExternalLedgered(c: Primitives, n: Node, prevHash: string, txs: seq<Transaction>, entropy: nat,
                                 io: WriteOutcome)
    requires Good(c, n) && Ledgered(c, n) && Registered(n.keys, n.validators) && Sane(n)
    requires AddBlockExternalFresh(c, n, prevHash, txs, entropy)
    ensures Ledgered(c, AddBlockExternal(c, n, prevHash, txs, entropy, io).node)
  {
    hide Good, Ledgered, Registered, Sane, StartSlot, LeaderAt, Produce, BuildFresh, AddBlockExternalFresh,
      HasSnapshot, Path, IsTree, Replay, DrawnFrom, StateAtTip;
    if |n.validators| != 0 && prevHash in n.blocks {
      SaneTree(n);
      ExternalStart(c, n, prevHash);
      StartSlotSane(c, n);
      FreshExternal(c, n, prevHash, txs, entropy);
      var n1 := StartSlot(c, n);
      StartLedgered(c, n, n1);
      LedgeredReplay(c, n, prevHash);
      ProduceLedgered(c, n1, n.blocks[prevHash], StateAtTip(c, n, prevHash), CurrentLeader(c, n1), txs, entropy, io);
    }
  }

  lemma LedgeredReplay(c: Primitives, n: Node, h: string)
    requires Ledgered(c, n) && Registered(n.keys, n.validators) && h in n.blocks
    ensures Sane(n) && StateAtTip(c, n, h) == Replay(c, n.genesis, n.keys, Path(n.blocks, n.chain[0], h))
  {
    hide Sane, Vetted, Replay, Path, StateAtTip, IsTree;
    ReplayWithRegistry(c, n, h);
  }

  lemma AddValidatorLedgered(c: Primitives, n: Node, name: string, stake: int, pubKey: string, key: Option<PrivateKey>)
    requires Ledgered(c, n) && Registered(n.keys, n.validators)
    ensures Ledgered(c, AddValidator(n, name, stake, pubKey, key))
  {
    hide Ledgered, Sane, Register;
    LedgeredKeys(c, n);
    AddValidatorSane(n, name, stake, pubKey, key);
    SaneRegistry(n);
    RegisterKeeps(n.validators, name, stake, pubKey, key);
    LedgerFree(c, n, AddValidator(n, name, stake, pubKey, key));
  }

  // While genesis is the only block, its balances may change.
  lemma SetBalanceLedgered(c: Primitives, n: Node, address: string, amount: Int64)
    requires Ledgered(c, n) && |n.blocks| == 1
    ensures Ledgered(c, SetBalance(n, address, amount))
  {
    hide Sane, AllVouched, AllRooted, KeysCurrent, IsTree, Path, SetBalance;
    OnlyGenesis(c, n);
    LedgeredKeys(c, n);
    SaneTree(n);
    SaneRegistry(n);
    SetBalanceAlone(n, address, amount);
    SaneFree(n, SetBalance(n, address, amount));
    RootedAlone(c, n.blocks, n.chain[0], SetBalance(n, address, amount).genesis, n.keys);
  }

  lemma SetBalanceAlone(n: Node, address: string, amount: Int64)
    requires |n.chain| == 1 && n.state == n.genesis
    ensures var m := SetBalance(n, address, amount); m == n.(state := m.state, genesis := m.state)
  {
  }

  lemma RootedAlone(c: Primitives, blocks: Blocks, g: Block, genesis: State, keys: map<string, string>)
    requires IsTree(blocks, g) && blocks.Keys == {g.hash}
    ensures AllRooted(c, blocks, g, genesis, keys)
  {
    hide Roots, Path;
    assert forall h :: h in blocks ==> h == g.hash;
  }

  lemma OnlyGenesis(c: Primitives, n: Node)
    requires Ledgered(c, n) && |n.blocks| == 1
    ensures n.chain != [] && n.blocks.Keys == {n.chain[0].hash} && n.chain == [n.chain[0]] && n.state == n.genesis
  {
    hide AllRooted, AllVouched, Covered, Clocked, Registry, KeysCurrent;
    var g := n.chain[0].hash;
    assert |n.blocks.Keys - {g}| == 0;
    assert n.tip == g;
  }

  // --------------------------------------------------------------- whole runs

  // Hypotheses H1 and H2 on a run: balances are set while the genesis block is
  // the only one, and before each step every producer of a stored block is
  // still registered.
  ghost predicate Orderly(ns: seq<Node>, es: seq<Event>) {
    |ns| == |es| + 1 && forall i :: 0 <= i < |es| ==>
      Registered(ns[i].keys, ns[i].validators) && (es[i].BalanceSet? ==> |ns[i].blocks| == 1)
  }

  lemma StepLedgered(c: Primitives, n: Node, e: Event, m: Node)
    requires Good(c, n) && Ledgered(c, n) && Step(c, n, e, m)
    requires Registered(n.keys, n.validators) && (e.BalanceSet? ==> |n.blocks| == 1)
    ensures Ledgered(c, m)
  {
    hide Good, Ledgered, Sane, Registered, BuildCollisionFree, Mempool.Adds, StartSlot, Body, TakeBody, LeaderAt,
      StateAtTip, Produce, StepOk, AddBlockFresh, AddBlockExternalFresh;
    LedgeredKeys(c, n);
    match e
    case ValidatorAdded(name, stake, pubKey, key) => AddValidatorLedgered(c, n, name, stake, pubKey, key);
    case BalanceSet(address, amount) => SetBalanceLedgered(c, n, address, amount);
    case TxAdded(tx) =>
      AddTxKeeps(c, n, tx, m);
      StepOkGood(c, n, m);
      LedgerFree(c, n, m);
    case BlockAdded(txs, entropy, io) =>
      AddBlockKeeps(c, n, txs, entropy, io);
      AddBlockLedgered(c, n, txs, entropy, io);
    case ExternalBlockAdded(prevHash, txs, entropy, io) =>
      AddBlockExternalKeeps(c, n, prevHash, txs, entropy, io);
      AddBlockExternalLedgered(c, n, prevHash, txs, entropy, io);
  }

  lemma FreshLedgered(c: Primitives, n: Node)
    requires Fresh(c, n)
    ensures Ledgered(c, n)
  {
    hide Good, HashBlock, TxRoot, StateRoot;
    FreshGood(c, n);
    GoodSane(c, n);
  }

  lemma {:induction false} RunLedgered(c: Primitives, ns: seq<Node>, es: seq<Event>, i: nat)
    requires |ns| > 0 && Fresh(c, ns[0]) && Run(c, ns[0], ns, es) && Orderly(ns, es) && i < |ns|
    ensures Good(c, ns[i]) && Sane(ns[i]) && Ledgered(c, ns[i])
  {
    hide Good, Sane, Ledgered, Step, Fresh, Registered;
    RunGood(c, ns, es, i);
    if i == 0 {
      FreshLedgered(c, ns[0]);
    } else {
      RunLedgered(c, ns, es, i - 1);
      assert Step(c, ns[i - 1], es[i - 1], ns[i]);
      StepLedgered(c, ns[i - 1], es[i - 1], ns[i]);
    }
  }
}
