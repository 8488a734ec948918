// What AddBlock and AddBlockExternal put into a block, what becomes of the
// mempool, and which error they return at what cost.
module NewBlocks {
  import opened Domain
  import opened Crypto
  import opened Poh
  import opened Ledger
  import opened Stake
  import opened Mempool
  import opened Tree
  import opened Storage
  import opened Engine
  import opened Invariant
  import opened ForkChoice
  import opened Misses
  import opened Steps
  import opened Production
  import opened Runs
  import opened Theorems
  import opened Liveness
  import opened Upkeep

  // ------------------------------------------------------------ what is built

  // Block b holds these transactions, stands on a parent at a moment of the
  // clock, names who leads, and commits to the transactions and to the balances
  // that they lead to from the given ones; whoever leads is registered and has
  // signed it.
  ghost predicate Carries(c: Primitives, b: Block, parent: Block, clock: PohState, vs: Validators, leader: string,
                          base: State, txs: seq<Transaction>) {
    && b.txs == txs && b.validator == leader
    && b.prevHash == parent.hash && b.index == parent.index + 1
    && b.tick == clock.tick && b.slot == SlotOf(clock.tick) && b.pohHash == PoHHashHex(clock.hash)
    && b.txRoot == TxRoot(c, txs)
    && Apply(base, txs, FeeAddress(c, KeysOf(vs), leader)).Ok?
    && b.stateRoot == StateRoot(c, Apply(base, txs, FeeAddress(c, KeysOf(vs), leader)).value)
    && leader in vs && BlockSignatureOk(c, b, vs[leader].pubKey) && AllSigned(c, txs)
  }

  lemma BuiltCarries(c: Primitives, n: Node, parent: Block, base: Result<State, TxError>, leader: string,
                     txs: seq<Transaction>, entropy: nat)
    requires n.cfg.epochLength > 0 && Build(c, n, parent, base, leader, txs, entropy).Ok?
    ensures base.Ok?
    ensures Carries(c, Build(c, n, parent, base, leader, txs, entropy).value, parent, n.poh, n.validators, leader,
      base.value, txs)
  {
    hide Apply, FeeAddress, CheckTransactions, HashBlock, LeaderAt, TxRoot, StateRoot, PoHHashHex, BlockSignatureOk,
      TxSignatureOk;
    CheckedIsSigned(c, txs);
  }

  // -------------------------------------------------------------- what it costs

  // A leader pays for a body that is bad, a key that is missing, a signature that
  // fails and a block that its own check rejects; nobody pays for anything else.
  ghost predicate RefusalCosts(vs: Validators, ws: Validators, leader: string, e: EngineError) {
    if e.BadBody? || e.MissingSigningKey? || e.SigningFailed? || e.Rejected? then Fined(vs, ws, leader, SLASH_PENALTY)
    else ws == vs
  }

  // What an outcome says of the transactions, the replay of the parent, the
  // leader and the store.
  ghost predicate Explains(c: Primitives, vs: Validators, base: Result<State, TxError>, leader: string,
                           txs: seq<Transaction>, entropy: nat, saves: bool, r: Result<string, EngineError>) {
    if r.Err? && r.error.BadBody? then
      !AllSigned(c, txs) || (base.Ok? && Apply(base.value, txs, FeeAddress(c, KeysOf(vs), leader)).Err?)
    else if r.Err? && r.error.ReplayFailed? then AllSigned(c, txs) && base.Err?
    else
      && AllSigned(c, txs) && base.Ok? && Apply(base.value, txs, FeeAddress(c, KeysOf(vs), leader)).Ok?
      && if r.Err? && r.error.MissingSigningKey? then leader !in vs || vs[leader].privKey.None?
         else
           && leader in vs && vs[leader].privKey.Some?
           && match r
              case Ok(_) => saves
              case Err(SigningFailed) => exists d :: c.sign(vs[leader].privKey.value, d, entropy).None?
              case Err(Rejected(why)) =>
                why == BadBlockSignature
                  && (SignatureContract(c) ==> c.publicKey(vs[leader].privKey.value) != vs[leader].pubKey)
              case Err(NotSaved) => !saves
              case Err(_) => false
  }

  // Of its own block a leader can only reject the signature.
  lemma SelfRejection(c: Primitives, n: Node, parent: Block, state: State, leader: string, txs: seq<Transaction>,
                      entropy: nat, b: Block)
    requires n.cfg.epochLength > 0 && LeaderAt(c, n.snapshots, n.cfg.epochLength, SlotOf(n.poh.tick)) == leader
    requires SignedDraft(c, n, parent, Ok(state), leader, txs, entropy) == Ok(b)
    requires CheckOnAccept(c, n, parent, b, state).Some?
    ensures leader in n.validators && n.validators[leader].privKey.Some?
    ensures CheckOnAccept(c, n, parent, b, state) == Some(BadBlockSignature)
    ensures SignatureContract(c) ==> c.publicKey(n.validators[leader].privKey.value) != n.validators[leader].pubKey
  {
    hide Apply, FeeAddress, CheckTransactions, HashBlock, LeaderAt, TxRoot, StateRoot, PoHHashHex, BlockSignatureOk,
      SignatureContract;
    if SignatureContract(c) {
      var next := Apply(state, txs, FeeAddress(c, KeysOf(n.validators), leader)).value;
      SignedBlockVerifies(c, n.validators[leader].privKey.value, Draft(c, n, parent, next, leader, txs), entropy);
    }
  }

  lemma DraftExplains(c: Primitives, n: Node, parent: Block, base: Result<State, TxError>, leader: string,
                      txs: seq<Transaction>, entropy: nat, saves: bool)
    requires n.cfg.epochLength > 0
    ensures var r := SignedDraft(c, n, parent, base, leader, txs, entropy);
      match r
      case Err(e) => Explains(c, n.validators, base, leader, txs, entropy, saves, Err(e))
      case Ok(_) => Explains(c, n.validators, base, leader, txs, entropy, true, Ok(""))
  {
    hide Apply, FeeAddress, CheckTransactions, HashBlock, TxRoot, StateRoot, PoHHashHex, AllSigned, SignatureContract;
    CheckedIsSigned(c, txs);
    var vs := n.validators;
    if SignedDraft(c, n, parent, base, leader, txs, entropy) == Err(SigningFailed) {
      var next := Apply(base.value, txs, FeeAddress(c, KeysOf(vs), leader)).value;
      assert c.sign(vs[leader].privKey.value, HashBlock(c, Draft(c, n, parent, next, leader, txs)), entropy).None?;
    }
  }

  lemma BuildExplains(c: Primitives, n: Node, parent: Block, base: Result<State, TxError>, leader: string,
                      txs: seq<Transaction>, entropy: nat, saves: bool, r: Result<string, EngineError>)
    requires n.cfg.epochLength > 0 && LeaderAt(c, n.snapshots, n.cfg.epochLength, SlotOf(n.poh.tick)) == leader
    requires match Build(c, n, parent, base, leader, txs, entropy)
      case Err(e) => r == Err(e)
      case Ok(_) => if saves then r.Ok? else r == Err(NotSaved)
    ensures Explains(c, n.validators, base, leader, txs, entropy, saves, r)
  {
    hide Apply, FeeAddress, SignedDraft, LeaderAt, CheckOnAccept, AllSigned, SignatureContract;
    DraftExplains(c, n, parent, base, leader, txs, entropy, saves);
    match SignedDraft(c, n, parent, base, leader, txs, entropy)
    case Err(e) =>
    case Ok(b) =>
      if CheckOnAccept(c, n, parent, b, base.value).Some? {
        SelfRejection(c, n, parent, base.value, leader, txs, entropy, b);
      }
  }

  // ------------------------------------------------- reward and missed slots

  // The producer earns the block reward, and nobody else anything.
  ghost predicate Rewards(vs: Validators, ws: Validators, name: string) {
    && ws.Keys == vs.Keys
    && forall v :: v in vs ==> ws[v] == if v == name then vs[v].(stake := vs[v].stake + BLOCK_REWARD) else vs[v]
  }

  // A verdict that is a slash takes the share in percent of the leader's stake, if
  // it is still registered; any other verdict takes nothing.
  ghost predicate ChargedOnce(vs: Validators, ws: Validators, j: Judgement) {
    if j.slashed && j.leader in vs then Loses(vs, ws, j.leader, ShareOf(vs[j.leader].stake, SLASH_PERCENT))
    else ws == vs
  }

  // The registry before, between and after these verdicts.
  ghost predicate Charged(vss: seq<Validators>, js: seq<Judgement>) {
    |vss| == |js| + 1 && forall k :: 0 <= k < |js| ==> ChargedOnce(vss[k], vss[k + 1], js[k])
  }

  lemma VerdictCharges(n: Node, j: Judgement)
    requires Registry(n.validators) && (j.slashed ==> j.missed)
    ensures ChargedOnce(n.validators, PassVerdict(n, j).validators, j)
  {
    hide SlashPercent;
    SlashPercentKeeps(n.validators, j.leader, SLASH_PERCENT);
  }

  // A missed slot costs stake when it is the leader's fourth in a row of charges.
  lemma JudgeSlotCharges(c: Primitives, n: Node, slot: nat)
    requires Sane(n) && n.cfg.epochLength > 0
    ensures var m := JudgeSlot(c, n, slot);
      && |m.judged| == |n.judged| + 1 && n.judged <= m.judged
      && var j := m.judged[|n.judged|];
        && ChargedOnce(n.validators, m.validators, j)
        && (j.slashed <==> j.missed && StatsOf(n.stats, j.leader).missedSlots >= MAX_MISSED_SLOTS)
  {
    hide Sane, EnsureSnapshot, SlashPercent, LeaderAt, ChargedOnce, Registry;
    SaneRegistry(n);
    var n1 := EnsureSnapshot(n, slot / n.cfg.epochLength);
    VerdictCharges(n1, VerdictAt(c, n1, slot));
  }

  lemma {:induction false} JudgeUpToCharges(c: Primitives, n: Node, target: nat) returns (vss: seq<Validators>)
    requires Sane(n) && n.cfg.epochLength > 0
    ensures var m := JudgeUpTo(c, n, target);
      && n.judged <= m.judged && Charged(vss, m.judged[|n.judged|..])
      && vss[0] == n.validators && vss[|vss| - 1] == m.validators
    decreases target
  {
    hide Sane, JudgeSlot, ChargedOnce;
    vss := [n.validators];
    if target > n.lastProcessed {
      var k := JudgeUpTo(c, n, target - 1);
      var m := JudgeSlot(c, k, target);
      vss := JudgeUpToCharges(c, n, target - 1);
      vss := vss + [m.validators];
      JudgeUpToSane(c, n, target - 1);
      JudgeSlotCharges(c, k, target);
      assert m.judged[|n.judged|..] == k.judged[|n.judged|..] + [m.judged[|k.judged|]];
    }
  }

  // Whoever produced a block that is taken in earns the reward, and then the
  // leaders of the slots judged with it are charged.
  ghost predicate Settles(n: Node, m: Node, producer: string) {
    && n.judged <= m.judged
    && exists vss ::
      Charged(vss, m.judged[|n.judged|..]) && Rewards(n.validators, vss[0], producer) && vss[|vss| - 1] == m.validators
  }

  lemma RewardedSettles(c: Primitives, n: Node, b: Block)
    requires Good(c, n) && Sane(n) && Admissible(c, n, b) && Storable(n, b)
    ensures var m := Rewarded(c, n, b);
      m.cfg.epochLength > 0 && Sane(m) && m.judged == n.judged && Rewards(n.validators, m.validators, b.validator)
  {
    hide Inv, Sane, Accounts, Admissible, Storable, Rewarded, Advances, MovesTip, DrawnFrom, Equivocates;
    StorableProducer(n, b);
    RewardedKeeps(c, n, b);
    RewardedRegistry(c, n, b);
    InvSane(c, Rewarded(c, n, b));
  }

  lemma AcceptSettles(c: Primitives, n: Node, b: Block)
    requires Good(c, n) && Sane(n) && Admissible(c, n, b) && Storable(n, b)
    ensures Settles(n, Accept(c, n, b).node, b.validator)
  {
    hide Good, Sane, Admissible, Storable, Rewarded, ChargedOnce, Rewards;
    var m := Rewarded(c, n, b);
    RewardedSettles(c, n, b);
    var vss := JudgeUpToCharges(c, m, TipSlot(m.chain));
    assert Charged([m.validators], []);
    assert m.judged[|m.judged|..] == [];
  }

  // ------------------------------------------------------------ both together

  // The outcome of building a block on a parent, from a node whose clock has been
  // moved and whose pool has been read.
  ghost predicate Concludes(c: Primitives, n: Node, parent: Block, base: Result<State, TxError>, leader: string,
                            txs: seq<Transaction>, entropy: nat, io: WriteOutcome, o: Outcome) {
    && o.node.pool == n.pool && Explains(c, n.validators, base, leader, txs, entropy, Saves(n, io), o.result)
    && match o.result
       case Err(e) =>
         && o.node == n.(snapshots := o.node.snapshots, store := o.node.store, validators := o.node.validators)
         && (!e.NotSaved? ==> o.node.store == n.store)
         && RefusalCosts(n.validators, o.node.validators, leader, e)
       case Ok(h) =>
         && h in o.node.blocks && h !in n.blocks && o.node.blocks == n.blocks[h := o.node.blocks[h]]
         && base.Ok? && Carries(c, o.node.blocks[h], parent, n.poh, n.validators, leader, base.value, txs)
         && Settles(n, o.node, leader)
  }

  lemma BuildErrors(c: Primitives, n: Node, parent: Block, base: Result<State, TxError>, leader: string,
                    txs: seq<Transaction>, entropy: nat)
    requires n.cfg.epochLength > 0 && Build(c, n, parent, base, leader, txs, entropy).Err?
    ensures var e := Build(c, n, parent, base, leader, txs, entropy).error;
      e.BadBody? || e.ReplayFailed? || e.MissingSigningKey? || e.SigningFailed? || e.Rejected?
  {
    hide Apply, FeeAddress, CheckTransactions, CheckOnAccept, SignBlock, Draft;
  }

  lemma RefusedConcludes(c: Primitives, n: Node, parent: Block, base: Result<State, TxError>, leader: string,
                         txs: seq<Transaction>, entropy: nat, io: WriteOutcome)
    requires Sane(n) && (forall h :: h in n.blocks ==> n.blocks[h].tick < n.poh.tick)
    requires parent.hash in n.blocks && n.blocks[parent.hash] == parent
    requires BuildFresh(c, n, parent, base, leader, txs, entropy)
    requires LeaderAt(c, n.snapshots, n.cfg.epochLength, SlotOf(n.poh.tick)) == leader
    requires Build(c, n, parent, base, leader, txs, entropy).Err?
    ensures Concludes(c, n, parent, base, leader, txs, entropy, io,
      Produce(c, n, parent, base, leader, txs, entropy, io))
  {
    hide Sane, Build, BuildFresh, Explains, Carries, Settles, LeaderAt, SlashLeader, SaveAndAccept, Fined;
    var o := Produce(c, n, parent, base, leader, txs, entropy, io);
    SaneEpoch(n);
    SaneRegistry(n);
    BuildErrors(c, n, parent, base, leader, txs, entropy);
    BuildExplains(c, n, parent, base, leader, txs, entropy, Saves(n, io), o.result);
    SlashFines(n, leader);
  }

  lemma SlashFines(n: Node, leader: string)
    requires Registry(n.validators)
    ensures SlashLeader(n, leader) == n.(validators := SlashLeader(n, leader).validators)
    ensures Fined(n.validators, SlashLeader(n, leader).validators, leader, SLASH_PENALTY)
  {
    hide Slash, Fined;
    SlashKeeps(n.validators, leader, SLASH_PENALTY);
  }

  lemma SavedSettles(c: Primitives, n: Node, b: Block, io: WriteOutcome)
    requires Good(c, n) && Sane(n) && Admissible(c, n, b) && Storable(n, b)
    ensures var o := SaveAndAccept(c, n, b, io);
      if Saves(n, io) then
        && o.result == Ok(b.hash) && b.hash !in n.blocks && o.node.blocks == n.blocks[b.hash := b]
        && Settles(n, o.node, b.validator)
      else o.result == Err(NotSaved) && o.node == n.(store := o.node.store)
  {
    hide Good, Sane, Charged, Rewards, Accept, Admissible, Storable, Save, MovesTip, DrawnFrom, StepOk;
    SaveStorable(n, b, io);
    StorableProducer(n, b);
    SavedAdmissible(c, n, Save(n, b, io), b);
    SavedGood(c, n, b, io);
    AcceptKeeps(c, Save(n, b, io), b);
    AcceptEffects(c, Save(n, b, io), b);
    AcceptSettles(c, Save(n, b, io), b);
  }

  lemma AcceptedConcludes(c: Primitives, n: Node, parent: Block, base: Result<State, TxError>, leader: string,
                          txs: seq<Transaction>, entropy: nat, io: WriteOutcome)
    requires Good(c, n) && Sane(n) && HasSnapshot(n.snapshots, n.cfg.epochLength, SlotOf(n.poh.tick))
    requires (forall h :: h in n.blocks ==> n.blocks[h].tick < n.poh.tick)
    requires parent.hash in n.blocks && n.blocks[parent.hash] == parent
    requires BuildFresh(c, n, parent, base, leader, txs, entropy)
    requires LeaderAt(c, n.snapshots, n.cfg.epochLength, SlotOf(n.poh.tick)) == leader
    requires Build(c, n, parent, base, leader, txs, entropy).Ok?
    ensures Concludes(c, n, parent, base, leader, txs, entropy, io,
      Produce(c, n, parent, base, leader, txs, entropy, io))
  {
    hide Good, Sane, Build, BuildFresh, Explains, Settles, LeaderAt, SaveAndAccept, Admissible, Storable, HasSnapshot,
      Loses, Apply, FeeAddress, KeysOf, BlockSignatureOk, AllSigned;
    SaneEpoch(n);
    var b := Build(c, n, parent, base, leader, txs, entropy).value;
    BuiltIsAdmissible(c, n, parent, base, leader, txs, entropy);
    BuiltCarries(c, n, parent, base, leader, txs, entropy);
    SavedSettles(c, n, b, io);
    BuildExplains(c, n, parent, base, leader, txs, entropy, Saves(n, io), SaveAndAccept(c, n, b, io).result);
  }

  lemma ProduceConcludes(c: Primitives, n: Node, parent: Block, base: Result<State, TxError>, leader: string,
                         txs: seq<Transaction>, entropy: nat, io: WriteOutcome)
    requires Good(c, n) && Sane(n) && HasSnapshot(n.snapshots, n.cfg.epochLength, SlotOf(n.poh.tick))
    requires (forall h :: h in n.blocks ==> n.blocks[h].tick < n.poh.tick)
    requires parent.hash in n.blocks && n.blocks[parent.hash] == parent
    requires BuildFresh(c, n, parent, base, leader, txs, entropy)
    requires LeaderAt(c, n.snapshots, n.cfg.epochLength, SlotOf(n.poh.tick)) == leader
    ensures var o := Produce(c, n, parent, base, leader, txs, entropy, io);
      && Concludes(c, n, parent, base, leader, txs, entropy, io, o)
      && LeaderAt(c, o.node.snapshots, n.cfg.epochLength, SlotOf(n.poh.tick)) == leader && o.node.poh == n.poh
  {
    hide Good, Sane, Build, BuildFresh, LeaderAt, HasSnapshot, Concludes, Produce, MovesTip, JudgesJustly, DrawnFrom,
      KeepsFinal;
    SaneEpoch(n);
    if Build(c, n, parent, base, leader, txs, entropy).Ok? {
      AcceptedConcludes(c, n, parent, base, leader, txs, entropy, io);
    } else {
      RefusedConcludes(c, n, parent, base, leader, txs, entropy, io);
    }
    ProduceKeeps(c, n, parent, base, leader, txs, entropy, io);
    LeaderStays(c, n.snapshots, Produce(c, n, parent, base, leader, txs, entropy, io).node.snapshots,
      n.cfg.epochLength, SlotOf(n.poh.tick));
  }

  // ----------------------------------------------------------------- AddBlock

  // The node with its clock moved on by one slot.
  function Ticked(c: Primitives, n: Node): Node {
    var tick := n.poh.tick + TICKS_PER_SLOT;
    n.(poh := PohState(tick, Advance(c, n.poh.hash, n.poh.tick, tick)))
  }

  lemma SnapshotsUnread(c: Primitives, n: Node, n2: Node, parent: Block, base: Result<State, TxError>, leader: string,
                        txs: seq<Transaction>, entropy: nat, io: WriteOutcome, o: Outcome)
    requires n2 == n.(snapshots := n2.snapshots) && Concludes(c, n2, parent, base, leader, txs, entropy, io, o)
    ensures Concludes(c, n, parent, base, leader, txs, entropy, io, o)
  {
    hide Explains, Carries, Charged, Rewards, Loses;
  }

  // The greedy choice from the pool: never too many, and none lost.
  ghost predicate FromPool(n: Node, q: Pool, collector: string, body: seq<Transaction>) {
    && SplitsGreedily(n.pool, n.state, n.cfg.maxBlockTxs, collector, body, q)
    && |body| <= (if n.cfg.maxBlockTxs < 0 then 0 else n.cfg.maxBlockTxs)
    && multiset(body) + multiset(q.list) == multiset(n.pool.list)
  }

  // The body is what the caller gives, and then the pool is left alone, or else the
  // greedy choice from the pool for the balances and the leader's fee address. It
  // has left the pool even when the block fails.
  ghost predicate ChoosesBody(n: Node, q: Pool, collector: string, txs: seq<Transaction>, body: seq<Transaction>) {
    if txs != [] then body == txs && q == n.pool else FromPool(n, q, collector, body)
  }

  lemma BodyChosen(c: Primitives, n: Node, txs: seq<Transaction>)
    requires n.cfg.epochLength > 0 && Consistent(c, n.pool)
    ensures ChoosesBody(n, TakeBody(c, n, txs).pool, FeeAddress(c, KeysOf(n.validators), CurrentLeader(c, n)), txs,
      Body(c, n, txs))
  {
    hide FeeAddress, CurrentLeader, Popped, AfterPop, SplitsGreedily, Consistent;
    var addr := FeeAddress(c, KeysOf(n.validators), CurrentLeader(c, n));
    PopIsGreedy(n.pool, n.state, n.cfg.maxBlockTxs, addr, Popped(n.pool, n.state, n.cfg.maxBlockTxs, addr),
      AfterPop(n.pool, n.state, n.cfg.maxBlockTxs, addr));
    PopKeepsConsistent(c, n.pool, n.state, n.cfg.maxBlockTxs, addr);
  }

  // What AddBlock does: the clock moves, the leader of the slot is who its snapshot
  // elects, a body is chosen, and building it on the tip concludes as it does on
  // any parent.
  ghost predicate AddsBlock(c: Primitives, n: Node, txs: seq<Transaction>, entropy: nat, io: WriteOutcome, o: Outcome)
    requires n.cfg.epochLength > 0 && n.tip in n.blocks
  {
    if |n.validators| == 0 then o == Outcome(n, Err(NoValidators))
    else
      var start := Ticked(c, n).(pool := o.node.pool);
      var leader := LeaderAt(c, o.node.snapshots, n.cfg.epochLength, SlotOf(start.poh.tick));
      && o.node.poh == start.poh
      && exists body ::
        && ChoosesBody(n, o.node.pool, FeeAddress(c, KeysOf(n.validators), leader), txs, body)
        && Concludes(c, start, n.blocks[n.tip], Ok(n.state), leader, body, entropy, io, o)
  }

  lemma AddBlockAdds(c: Primitives, n: Node, txs: seq<Transaction>, entropy: nat, io: WriteOutcome)
    requires Good(c, n) && Sane(n) && AddBlockFresh(c, n, txs, entropy)
    ensures n.cfg.epochLength > 0 && n.tip in n.blocks
    ensures AddsBlock(c, n, txs, entropy, io, AddBlock(c, n, txs, entropy, io))
  {
    hide Good, StartSlot, BuildFresh, Produce, TakeBody, Body, Path, IsTree, Sane, LeaderAt, HasSnapshot,
      AddBlockFresh, DrawnFrom, Concludes, ChoosesBody, FeeAddress, KeysOf, Advance;
    SaneTree(n);
    if |n.validators| != 0 {
      TipStart(c, n, txs);
      FreshBuild(c, n, txs, entropy);
      var n1 := StartSlot(c, n);
      var n2, body := TakeBody(c, n1, txs), Body(c, n1, txs);
      StartTicks(c, n);
      GoodPool(c, n);
      BodyChosen(c, n1, txs);
      SamePool(n, n1, n2.pool, FeeAddress(c, KeysOf(n.validators), CurrentLeader(c, n1)), txs, body);
      ProduceConcludes(c, n2, n.blocks[n.tip], Ok(n.state), CurrentLeader(c, n1), body, entropy, io);
      var o := AddBlock(c, n, txs, entropy, io);
      assert o.node.pool == n2.pool;
      SnapshotsUnread(c, Ticked(c, n).(pool := n2.pool), n2, n.blocks[n.tip], Ok(n.state), CurrentLeader(c, n1), body,
        entropy, io, o);
    }
  }

  lemma StartTicks(c: Primitives, n: Node)
    requires n.cfg.epochLength > 0
    ensures StartSlot(c, n) == Ticked(c, n).(snapshots := StartSlot(c, n).snapshots)
  {
    hide Advance, EnsureSnapshot;
  }

  lemma SamePool(n: Node, n1: Node, q: Pool, collector: string, txs: seq<Transaction>, body: seq<Transaction>)
    requires n1.pool == n.pool && n1.state == n.state && n1.cfg == n.cfg && ChoosesBody(n1, q, collector, txs, body)
    ensures ChoosesBody(n, q, collector, txs, body)
  {
    hide SplitsGreedily;
  }

  // -------------------------------------------------------- AddBlockExternal

  // The same on the parent that the caller names and on the balances that the
  // replay of its path gives, with the caller's transactions and no others.
  ghost predicate AddsExternalBlock(c: Primitives, n: Node, prevHash: string, txs: seq<Transaction>, entropy: nat,
                                    io: WriteOutcome, o: Outcome)
    requires Sane(n)
  {
    if |n.validators| == 0 then o == Outcome(n, Err(NoValidators))
    else if prevHash !in n.blocks then o == Outcome(n, Err(UnknownParent))
    else
      var start := Ticked(c, n);
      var leader := LeaderAt(c, o.node.snapshots, n.cfg.epochLength, SlotOf(start.poh.tick));
      && o.node.poh == start.poh
      && Concludes(c, start, n.blocks[prevHash],
           Replay(c, n.genesis, KeysOf(n.validators), Path(n.blocks, n.chain[0], prevHash)), leader, txs, entropy,
           io, o)
  }

  lemma AddBlockExternalAdds(c: Primitives, n: Node, prevHash: string, txs: seq<Transaction>, entropy: nat,
                             io: WriteOutcome)
    requires Good(c, n) && Sane(n) && AddBlockExternalFresh(c, n, prevHash, txs, entropy)
    ensures AddsExternalBlock(c, n, prevHash, txs, entropy, io, AddBlockExternal(c, n, prevHash, txs, entropy, io))
  {
    hide Good, TreeInv, StartSlot, BuildFresh, Produce, LeaderAt, Replay, HasSnapshot, DrawnFrom, Concludes, Registry,
      Clocked, Covered, IsTree, Advance, AddBlockExternalFresh, KeysOf;
    SaneTree(n);
    if |n.validators| != 0 && prevHash in n.blocks {
      ExternalStart(c, n, prevHash);
      StartSlotSane(c, n);
      FreshExternal(c, n, prevHash, txs, entropy);
      StartTicks(c, n);
      var n1, parent, base := StartSlot(c, n), n.blocks[prevHash], StateAtTip(c, n, prevHash);
      ProduceConcludes(c, n1, parent, base, CurrentLeader(c, n1), txs, entropy, io);
      SnapshotsUnread(c, Ticked(c, n), n1, parent, base, CurrentLeader(c, n1), txs, entropy, io,
        AddBlockExternal(c, n, prevHash, txs, entropy, io));
    }
  }

  // ------------------------------------------------------------ in every run

  // Each AddBlock of a run: what its block holds, what it leaves in the pool, what
  // its error means and who pays.
  lemma RunAddsBlock(c: Primitives, ns: seq<Node>, es: seq<Event>, i: nat, txs: seq<Transaction>, entropy: nat,
                     io: WriteOutcome)
    requires |ns| > 0 && Fresh(c, ns[0]) && Run(c, ns[0], ns, es) && i < |es| < |ns|
    requires es[i] == BlockAdded(txs, entropy, io)
    ensures Sane(ns[i]) && ns[i].cfg.epochLength > 0 && ns[i].tip in ns[i].blocks
    ensures AddBlockFresh(c, ns[i], txs, entropy)
    ensures var o := AddBlock(c, ns[i], txs, entropy, io);
      ns[i + 1] == o.node && AddsBlock(c, ns[i], txs, entropy, io, o)
  {
    hide Good, Sane, Fresh, Run, StepOk, BuildCollisionFree, AddBlock, AddBlockFresh, StartSlot, AddsBlock;
    RunSteps(c, ns, es, i);
    RunEvent(c, ns, es, i);
    AddBlockKeeps(c, ns[i], txs, entropy, io);
    AddBlockAdds(c, ns[i], txs, entropy, io);
  }

  // And each AddBlockExternal.
  lemma RunAddsExternalBlock(c: Primitives, ns: seq<Node>, es: seq<Event>, i: nat, prevHash: string,
                             txs: seq<Transaction>, entropy: nat, io: WriteOutcome)
    requires |ns| > 0 && Fresh(c, ns[0]) && Run(c, ns[0], ns, es) && i < |es| < |ns|
    requires es[i] == ExternalBlockAdded(prevHash, txs, entropy, io)
    ensures Sane(ns[i]) && AddBlockExternalFresh(c, ns[i], prevHash, txs, entropy)
    ensures var o := AddBlockExternal(c, ns[i], prevHash, txs, entropy, io);
      ns[i + 1] == o.node && AddsExternalBlock(c, ns[i], prevHash, txs, entropy, io, o)
  {
    hide Good, Sane, Fresh, Run, StepOk, BuildCollisionFree, AddBlockExternal, AddBlockExternalFresh, StartSlot,
      AddsExternalBlock;
    RunSteps(c, ns, es, i);
    RunEvent(c, ns, es, i);
    AddBlockExternalKeeps(c, ns[i], prevHash, txs, entropy, io);
    AddBlockExternalAdds(c, ns[i], prevHash, txs, entropy, io);
  }
}
