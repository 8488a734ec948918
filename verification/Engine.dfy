// core/blockchain.go as a state machine: Node is everything a Blockchain object
// holds, and each function here is what one of its methods does to that value.
module Engine {
  import opened Domain
  import opened Crypto
  import opened Poh
  import opened Ledger
  import opened Stake
  import opened Mempool
  import opened Tree
  import opened Storage

  datatype Config = Config(
    maxReorgDepth: int,
    finalitySlots: nat,
    minReorgWeightDeltaP: int,
    epochLength: nat,
    maxBlockTxs: int)

  datatype PohState = PohState(tick: nat, hash: Digest)

  datatype EquivocationProof = EquivocationProof(slot: nat, validator: string, blockA: string, blockB: string)

  // One turn of the loop of processMissedSlots.
  datatype Judgement = Judgement(slot: nat, leader: string, missed: bool, slashed: bool)

  datatype Node = Node(
    cfg: Config,
    chain: seq<Block>,
    blocks: Blocks,
    parents: map<string, string>,
    tip: string,
    validators: Validators,
    stats: Stats,
    poh: PohState,
    state: State,
    genesis: State,
    slotProduced: map<nat, string>,
    slotProducers: map<nat, map<string, string>>,
    equivocations: seq<EquivocationProof>,
    lastProcessed: nat,
    finalized: nat,
    snapshots: Snapshots,
    pool: Pool,
    store: Option<Store>,
    // History, read by no operation: the public key each producer of a stored
    // block was accepted under, and every judgement passed so far.
    keys: map<string, string>,
    judged: seq<Judgement>)

  datatype AcceptError =
    | WrongParent
    | WrongLeader
    | BadTransaction(tx: TxError)
    | WrongTxRoot
    | WrongStateRoot
    | UnknownProducer
    | BadBlockSignature

  datatype EngineError =
    | NoValidators
    | UnknownParent
    | ReplayFailed(replay: TxError)
    | BadBody(body: TxError)
    | MissingSigningKey
    | SigningFailed
    | Rejected(why: AcceptError)
    | NotSaved
    | EquivocationDetected

  datatype Outcome = Outcome(node: Node, result: Result<string, EngineError>)

  // ------------------------------------------------------- what always holds

  // The part of the invariant that the walks themselves rely on.
  ghost predicate Sane(n: Node) {
    && n.cfg.epochLength > 0
    && n.chain != [] && IsTree(n.blocks, n.chain[0])
    && n.tip in n.blocks && n.chain == Path(n.blocks, n.chain[0], n.tip)
    && n.parents == ParentsOf(n.blocks)
    && Registry(n.validators)
    && Clocked(n.blocks, n.poh.tick)
    && Covered(n.snapshots, n.cfg.epochLength, n.poh.tick)
  }

  lemma SaneTree(n: Node)
    requires Sane(n)
    ensures n.cfg.epochLength > 0 && n.chain != [] && IsTree(n.blocks, n.chain[0])
    ensures n.tip in n.blocks && n.chain == Path(n.blocks, n.chain[0], n.tip)
  {
  }

  lemma SaneEpoch(n: Node)
    requires Sane(n)
    ensures n.cfg.epochLength > 0
  {
  }

  lemma SaneRegistry(n: Node)
    requires Sane(n)
    ensures Registry(n.validators)
  {
  }

  function ParentsOf(blocks: Blocks): map<string, string> {
    map h | h in blocks :: blocks[h].prevHash
  }

  // Blocks lie on slot boundaries the clock has passed.
  ghost predicate Clocked(blocks: Blocks, tick: nat) {
    && tick % TICKS_PER_SLOT == 0
    && forall h :: h in blocks ==> blocks[h].tick <= tick && blocks[h].tick == blocks[h].slot * TICKS_PER_SLOT
  }

  // Every slot the clock has passed lies in an epoch that has its snapshot.
  ghost predicate Covered(snaps: Snapshots, epochLength: nat, tick: nat)
    requires epochLength > 0
  {
    forall s :: 1 <= s <= SlotOf(tick) ==> HasSnapshot(snaps, epochLength, s)
  }

  ghost predicate HasSnapshot(snaps: Snapshots, epochLength: nat, slot: nat)
    requires epochLength > 0
  {
    slot / epochLength in snaps
  }

  function SlotOf(tick: nat): nat {
    tick / TICKS_PER_SLOT
  }

  function TipSlot(chain: seq<Block>): nat {
    if chain == [] then 0 else chain[|chain| - 1].slot
  }

  // -------------------------------------------------------------- snapshots

  ghost function EnsureSnapshot(n: Node, epoch: nat): (m: Node)
    ensures m == n.(snapshots := m.snapshots)
  {
    if epoch in n.snapshots then n
    else n.(snapshots := n.snapshots[epoch := TakeSnapshot(n.validators, n.stats, epoch, n.cfg.epochLength)])
  }

  lemma EnsureSnapshotSane(n: Node, epoch: nat)
    requires Sane(n)
    ensures Sane(EnsureSnapshot(n, epoch))
    ensures Frozen(n.snapshots, EnsureSnapshot(n, epoch).snapshots)
  {
    hide Path, TakeSnapshot;
    var after := EnsureSnapshot(n, epoch);
    forall s | 1 <= s <= SlotOf(n.poh.tick) ensures HasSnapshot(after.snapshots, n.cfg.epochLength, s) {
      assert HasSnapshot(n.snapshots, n.cfg.epochLength, s);
    }
  }

  ghost function LeaderAt(c: Primitives, snaps: Snapshots, epochLength: nat, slot: nat): string
    requires epochLength > 0
  {
    if slot / epochLength in snaps then LeaderFromSnapshot(c, slot, snaps[slot / epochLength].validators)
    else GENESIS_NAME
  }

  // ------------------------------------------------------------------ replay

  // The address that collects the fees of a name; keys are public keys.
  function FeeAddress(c: Primitives, keys: map<string, string>, name: string): string {
    if name !in keys || keys[name] == "" then ""
    else match AddressFromPubKey(c, keys[name])
      case None => ""
      case Some(a) => a
  }

  function KeysOf(vs: Validators): map<string, string> {
    map v | v in vs :: vs[v].pubKey
  }

  // The transactions of a chain applied block by block to the genesis balances.
  function Replay(c: Primitives, genesis: State, keys: map<string, string>, p: seq<Block>): Result<State, TxError> {
    if |p| <= 1 then Ok(genesis)
    else
      var b := p[|p| - 1];
      match Replay(c, genesis, keys, p[..|p| - 1])
      case Err(e) => Err(e)
      case Ok(s) => Apply(s, b.txs, FeeAddress(c, keys, b.validator))
  }

  // ---------------------------------------------------- starting a new slot

  ghost function StartSlot(c: Primitives, n: Node): Node
    requires n.cfg.epochLength > 0
  {
    var tick := n.poh.tick + TICKS_PER_SLOT;
    EnsureSnapshot(
      n.(poh := PohState(tick, Advance(c, n.poh.hash, n.poh.tick, tick))),
      SlotOf(tick) / n.cfg.epochLength)
  }

  ghost function CurrentLeader(c: Primitives, n: Node): string
    requires n.cfg.epochLength > 0
  {
    LeaderAt(c, n.snapshots, n.cfg.epochLength, SlotOf(n.poh.tick))
  }

  // ---------------------------------------------------------- block assembly

  function Draft(c: Primitives, n: Node, parent: Block, next: State, leader: string, txs: seq<Transaction>): Block {
    Block(parent.index + 1, parent.hash, SlotOf(n.poh.tick), n.poh.tick, leader,
          TxRoot(c, txs), StateRoot(c, next), PoHHashHex(n.poh.hash), "", "", txs)
  }

  // The checks of verifyBlockOnAccept on what a block holds and who signed it.
  function CheckContents(c: Primitives, vs: Validators, b: Block, state: State): Option<AcceptError> {
    if CheckTransactions(c, b.txs).Some? then Some(BadTransaction(CheckTransactions(c, b.txs).value))
    else if TxRoot(c, b.txs) != b.txRoot then Some(WrongTxRoot)
    else match Apply(state, b.txs, FeeAddress(c, KeysOf(vs), b.validator))
      case Err(e) => Some(BadTransaction(e))
      case Ok(next) =>
        if StateRoot(c, next) != b.stateRoot then Some(WrongStateRoot)
        else if b.validator !in vs then Some(UnknownProducer)
        else if !BlockSignatureOk(c, b, vs[b.validator].pubKey) then Some(BadBlockSignature)
        else None
  }

  // verifyBlockOnAccept; None is success.
  ghost function CheckOnAccept(c: Primitives, n: Node, parent: Block, b: Block, state: State): Option<AcceptError>
    requires n.cfg.epochLength > 0
  {
    if b.prevHash != parent.hash then Some(WrongParent)
    else if LeaderAt(c, n.snapshots, n.cfg.epochLength, b.slot) != b.validator then Some(WrongLeader)
    else CheckContents(c, n.validators, b, state)
  }

  function SlashLeader(n: Node, leader: string): Node {
    n.(validators := Slash(n.validators, leader, SLASH_PENALTY))
  }

  // From the transaction checks to the signature, as AddBlock and
  // AddBlockExternal share it. base is the state the block builds on.
  function SignedDraft(c: Primitives, n: Node, parent: Block, base: Result<State, TxError>, leader: string,
                       txs: seq<Transaction>, entropy: nat): (r: Result<Block, EngineError>)
    ensures r.Ok? ==> base.Ok?
  {
    hide Apply, CheckTransactions, FeeAddress, HashBlock;
    match CheckTransactions(c, txs)
    case Some(e) => Err(BadBody(e))
    case None =>
      match base
      case Err(e) => Err(ReplayFailed(e))
      case Ok(state) =>
        match Apply(state, txs, FeeAddress(c, KeysOf(n.validators), leader))
        case Err(e) => Err(BadBody(e))
        case Ok(next) =>
          if leader !in n.validators || n.validators[leader].privKey.None? then Err(MissingSigningKey)
          else
            match SignBlock(c, n.validators[leader].privKey.value, Draft(c, n, parent, next, leader, txs), entropy)
            case None => Err(SigningFailed)
            case Some(b) => Ok(b)
  }

  // And to the producer's own check of the block.
  ghost function Build(c: Primitives, n: Node, parent: Block, base: Result<State, TxError>, leader: string,
                       txs: seq<Transaction>, entropy: nat): Result<Block, EngineError>
    requires n.cfg.epochLength > 0
  {
    hide SignedDraft, CheckOnAccept;
    match SignedDraft(c, n, parent, base, leader, txs, entropy)
    case Err(e) => Err(e)
    case Ok(b) =>
      match CheckOnAccept(c, n, parent, b, base.value)
      case Some(e) => Err(Rejected(e))
      case None => Ok(b)
  }

  // The block that is built, if one is, has a hash that no stored block has.
  ghost predicate BuildFresh(c: Primitives, n: Node, parent: Block, base: Result<State, TxError>, leader: string,
                             txs: seq<Transaction>, entropy: nat)
    requires n.cfg.epochLength > 0
  {
    Build(c, n, parent, base, leader, txs, entropy).Ok? ==>
      Build(c, n, parent, base, leader, txs, entropy).value.hash !in n.blocks
  }

  // What was built is ready to be stored.
  lemma BuildStorable(c: Primitives, n: Node, parent: Block, base: Result<State, TxError>, leader: string,
                      txs: seq<Transaction>, entropy: nat)
    requires Sane(n) && forall h :: h in n.blocks ==> n.blocks[h].tick < n.poh.tick
    requires parent.hash in n.blocks && n.blocks[parent.hash] == parent
    requires BuildFresh(c, n, parent, base, leader, txs, entropy) && Build(c, n, parent, base, leader, txs, entropy).Ok?
    ensures Storable(n, Build(c, n, parent, base, leader, txs, entropy).value)
  {
    hide Apply, CheckTransactions, CheckOnAccept, FeeAddress, BlockSignatureOk, HashBlock, Extends, Sane, TxRoot,
      StateRoot, PoHHashHex;
    SaneTree(n);
    var b := Build(c, n, parent, base, leader, txs, entropy).value;
    DraftExtends(c, n, parent, Apply(base.value, txs, FeeAddress(c, KeysOf(n.validators), leader)).value, leader,
      txs, b);
  }

  ghost function SaveAndAccept(c: Primitives, n: Node, b: Block, io: WriteOutcome): (o: Outcome)
    requires Storable(n, b)
    ensures o.node.genesis == n.genesis && o.node.poh == n.poh && o.node.pool == n.pool
    ensures Narrows(n.validators, o.node.validators)
  {
    hide Accept, Sane, Extends, SaveBlock;
    SaveStorable(n, b, io);
    var saved := Save(n, b, io);
    if n.store.Some? && !io.BothWritten? then Outcome(saved, Err(NotSaved)) else Accept(c, saved, b)
  }

  lemma SaveStorable(n: Node, b: Block, io: WriteOutcome)
    requires Storable(n, b)
    ensures Storable(Save(n, b, io), b)
  {
    hide SaveBlock, Extends, Path, IsTree, Registry, Clocked, Covered;
  }

  // From the transaction checks to the return. A leader whose block fails is
  // slashed, unless it is the replay that fails.
  ghost function Produce(c: Primitives, n: Node, parent: Block, base: Result<State, TxError>, leader: string,
                         txs: seq<Transaction>, entropy: nat, io: WriteOutcome): (o: Outcome)
    requires Sane(n) && forall h :: h in n.blocks ==> n.blocks[h].tick < n.poh.tick
    requires parent.hash in n.blocks && n.blocks[parent.hash] == parent
    requires BuildFresh(c, n, parent, base, leader, txs, entropy)
    ensures o.node.genesis == n.genesis && o.node.poh == n.poh && o.node.pool == n.pool
    ensures Narrows(n.validators, o.node.validators)
  {
    hide Build, SaveAndAccept, BuildFresh, Path, IsTree, Registry, Clocked, Covered;
    match Build(c, n, parent, base, leader, txs, entropy)
    case Err(e) => Outcome(if e.ReplayFailed? then n else SlashLeader(n, leader), Err(e))
    case Ok(b) =>
      BuildStorable(c, n, parent, base, leader, txs, entropy);
      SaveAndAccept(c, n, b, io)
  }

  lemma DraftExtends(c: Primitives, n: Node, parent: Block, next: State, leader: string, txs: seq<Transaction>,
                     b: Block)
    requires Sane(n) && forall h :: h in n.blocks ==> n.blocks[h].tick < n.poh.tick
    requires parent.hash in n.blocks && n.blocks[parent.hash] == parent
    requires var d := Draft(c, n, parent, next, leader, txs);
      b == d.(signature := b.signature, hash := HashBlock(c, d))
    ensures Extends(n.blocks, b) && b.hash != "" && b.hash != GENESIS_PARENT
    ensures b.tick == n.poh.tick && b.slot == SlotOf(n.poh.tick) && b.tick == b.slot * TICKS_PER_SLOT
  {
    hide HashBlock, Path;
    assert |b.hash| == 64;
  }

  // The write to the store, if there is one.
  function Save(n: Node, b: Block, io: WriteOutcome): (m: Node)
    ensures m == n.(store := m.store) && (m.store.Some? <==> n.store.Some?)
  {
    n.(store := if n.store.None? then None else Some(SaveBlock(n.store.value, b, io)))
  }

  // --------------------------------------------------------- taking a block in

  function SlotProducersAt(n: Node, slot: nat): map<string, string> {
    if slot in n.slotProducers then n.slotProducers[slot] else map[]
  }

  predicate Equivocates(n: Node, b: Block) {
    var m := SlotProducersAt(n, b.slot);
    b.validator in m && m[b.validator] != b.hash
  }

  function StatsOf(stats: Stats, name: string): ValidatorStats {
    if name in stats then stats[name] else NO_STATS
  }

  // registerSlotProducer, with handleEquivocation
  function RegisterProducer(n: Node, b: Block): (m: Node)
    ensures m == n.(slotProducers := m.slotProducers, equivocations := m.equivocations, validators := m.validators,
      stats := m.stats)
    ensures Narrows(n.validators, m.validators)
  {
    var m := SlotProducersAt(n, b.slot);
    if Equivocates(n, b) then
      n.(
        slotProducers := n.slotProducers[b.slot := m],
        equivocations := n.equivocations + [EquivocationProof(b.slot, b.validator, m[b.validator], b.hash)],
        validators := SlashPercent(n.validators, b.validator, SLASH_PERCENT),
        stats := n.stats[b.validator := StatsOf(n.stats, b.validator).(
          slashed := true, jailedUntilEpoch := b.slot / SLOTS_PER_EPOCH + JAIL_EPOCHS)])
    else
      n.(slotProducers := n.slotProducers[b.slot := m[b.validator := b.hash]])
  }

  // insertBlock; pubKey is the key the block was accepted under.
  function InsertBlock(n: Node, b: Block, pubKey: string): Node {
    n.(
      blocks := n.blocks[b.hash := b],
      parents := n.parents[b.hash := b.prevHash],
      keys := n.keys[b.validator := pubKey])
  }

  // registerSlotProducer and insertBlock
  function Stored(n: Node, b: Block): Node
    requires b.validator in n.validators
  {
    InsertBlock(RegisterProducer(n, b), b, n.validators[b.validator].pubKey)
  }

  // A block ready to be stored in n.
  ghost predicate Storable(n: Node, b: Block) {
    && Sane(n) && Extends(n.blocks, b) && b.hash !in n.blocks && b.hash != "" && b.hash != GENESIS_PARENT
    && b.tick <= n.poh.tick && b.tick == b.slot * TICKS_PER_SLOT
    && b.validator in n.validators
  }

  // The node before the missed slots are judged.
  ghost function Rewarded(c: Primitives, n: Node, b: Block): (m: Node)
    requires Storable(n, b)
    ensures m.cfg.epochLength > 0 && m.genesis == n.genesis && m.poh == n.poh && m.pool == n.pool
    ensures Narrows(n.validators, m.validators)
  {
    StoredSane(n, b);
    var moved := UpdateCanonical(c, Stored(n, b), b.hash);
    moved.(validators := Reward(moved.validators, b.validator))
  }

  ghost function Accept(c: Primitives, n: Node, b: Block): (o: Outcome)
    requires Storable(n, b)
    ensures o.node.genesis == n.genesis && o.node.poh == n.poh && o.node.pool == n.pool
    ensures Narrows(n.validators, o.node.validators)
  {
    var m := Rewarded(c, n, b);
    Outcome(
      ProcessMissed(c, m, TipSlot(m.chain)),
      if Equivocates(n, b) then Err(EquivocationDetected) else Ok(b.hash))
  }

  lemma StoredSane(n: Node, b: Block)
    requires Storable(n, b)
    ensures Sane(Stored(n, b)) && b.hash in Stored(n, b).blocks
    ensures Stored(n, b).chain == n.chain && Stored(n, b).tip == n.tip && Stored(n, b).cfg == n.cfg
  {
    hide Sane, RegisterProducer;
    RegisterProducerSane(n, b);
    InsertSane(RegisterProducer(n, b), b, n.validators[b.validator].pubKey);
  }

  lemma RegisterProducerSane(n: Node, b: Block)
    requires Sane(n)
    ensures Sane(RegisterProducer(n, b))
    ensures RegisterProducer(n, b).blocks == n.blocks && RegisterProducer(n, b).poh == n.poh
    ensures RegisterProducer(n, b).chain == n.chain && RegisterProducer(n, b).tip == n.tip
    ensures RegisterProducer(n, b).cfg == n.cfg
  {
    hide Path, SlashPercent, IsTree, Registry, Clocked, Covered, ParentsOf, KeysKept;
    SlashPercentKeeps(n.validators, b.validator, SLASH_PERCENT);
  }

  lemma InsertSane(n: Node, b: Block, pubKey: string)
    requires Sane(n) && Extends(n.blocks, b) && b.hash !in n.blocks && b.hash != "" && b.hash != GENESIS_PARENT
    requires b.tick <= n.poh.tick && b.tick == b.slot * TICKS_PER_SLOT
    ensures Sane(InsertBlock(n, b, pubKey))
  {
    hide Path, Registry, Covered;
    InsertKeepsTree(n.blocks, n.chain[0], b);
    PathStable(n.blocks, n.blocks[b.hash := b], n.chain[0], n.tip);
  }

  // ---------------------------------------------------------------- fork choice

  ghost function Score(n: Node, h: string): ChainScore
    requires Sane(n) && h in n.blocks
  {
    ScoreOf(n.blocks, n.chain[0], n.snapshots, n.cfg.epochLength, h)
  }

  function ActiveStake(n: Node): nat
    requires n.cfg.epochLength > 0
  {
    var e := TipSlot(n.chain) / n.cfg.epochLength;
    if e in n.snapshots then n.snapshots[e].totalStake else 0
  }

  function RequiredDelta(active: nat, percent: nat): nat {
    if active * percent / 100 == 0 then 1 else active * percent / 100
  }

  predicate WeightDeltaSatisfied(n: Node, oldWeight: nat, newWeight: nat)
    requires n.cfg.epochLength > 0
  {
    n.cfg.minReorgWeightDeltaP <= 0
    || (newWeight > oldWeight && newWeight >= oldWeight + RequiredDelta(ActiveStake(n), n.cfg.minReorgWeightDeltaP))
  }

  // The four guards of updateCanonical. Scoring has looked at the genesis
  // block, so its epoch has a snapshot by now.
  ghost predicate Adopts(n: Node, h: string)
    requires Sane(n) && h in n.blocks
  {
    var next := Path(n.blocks, n.chain[0], h);
    && BetterScore(Score(n, h), Score(n, n.tip))
    && !(n.finalized > 0 && DivergeSlot(n.chain, next) <= n.finalized)
    && ReorgDepth(n.chain, next) <= n.cfg.maxReorgDepth
    && WeightDeltaSatisfied(n, Score(n, n.tip).weight, Score(n, h).weight)
  }

  function SlotMap(chain: seq<Block>): map<nat, string> {
    if |chain| <= 1 then map[]
    else SlotMap(chain[..|chain| - 1])[chain[|chain| - 1].slot := chain[|chain| - 1].validator]
  }

  function Finality(finalized: nat, tipSlot: nat, finalitySlots: nat): nat {
    if tipSlot < finalitySlots || tipSlot - finalitySlots <= finalized then finalized
    else tipSlot - finalitySlots
  }

  ghost function Adopt(c: Primitives, n: Node, h: string): Node
    requires Sane(n) && h in n.blocks
  {
    var chain := Path(n.blocks, n.chain[0], h);
    n.(
      tip := h,
      chain := chain,
      slotProduced := SlotMap(chain),
      state := match Replay(c, n.genesis, KeysOf(n.validators), chain)
        case Err(_) => n.state
        case Ok(s) => s,
      finalized := Finality(n.finalized, TipSlot(chain), n.cfg.finalitySlots))
  }

  ghost function UpdateCanonical(c: Primitives, n: Node, h: string): Node
    requires Sane(n) && h in n.blocks
  {
    EnsureSnapshotSane(n, 0);
    var scored := EnsureSnapshot(n, 0);
    if Adopts(scored, h) then Adopt(c, scored, h) else scored
  }

  // -------------------------------------------------------------- missed slots

  // Whether the leader of a slot is charged, and whether that is once too often.
  ghost function VerdictAt(c: Primitives, n: Node, slot: nat): Judgement
    requires n.cfg.epochLength > 0
  {
    var leader := LeaderAt(c, n.snapshots, n.cfg.epochLength, slot);
    var produced := if slot in n.slotProduced then n.slotProduced[slot] else "";
    var missed := leader != GENESIS_NAME && produced != leader;
    Judgement(slot, leader, missed, missed && StatsOf(n.stats, leader).missedSlots + 1 > MAX_MISSED_SLOTS)
  }

  function PassVerdict(n: Node, j: Judgement): (m: Node)
    ensures m == n.(validators := m.validators, stats := m.stats, judged := m.judged)
    ensures Narrows(n.validators, m.validators)
  {
    var s := StatsOf(n.stats, j.leader);
    var noted := n.(judged := n.judged + [j]);
    if !j.missed then noted
    else if j.slashed then
      noted.(
        validators := SlashPercent(n.validators, j.leader, SLASH_PERCENT),
        stats := n.stats[j.leader := s.(missedSlots := 0, jailedUntilEpoch := j.slot / SLOTS_PER_EPOCH + JAIL_EPOCHS)])
    else
      noted.(stats := n.stats[j.leader := s.(missedSlots := s.missedSlots + 1)])
  }

  ghost function JudgeSlot(c: Primitives, n: Node, slot: nat): (m: Node)
    requires n.cfg.epochLength > 0
    ensures m == n.(validators := m.validators, stats := m.stats, snapshots := m.snapshots, judged := m.judged)
    ensures Narrows(n.validators, m.validators)
  {
    hide EnsureSnapshot, PassVerdict, VerdictAt;
    var n1 := EnsureSnapshot(n, slot / n.cfg.epochLength);
    PassVerdict(n1, VerdictAt(c, n1, slot))
  }

  // The slots after the last processed one, up to target.
  ghost function JudgeUpTo(c: Primitives, n: Node, target: nat): (m: Node)
    requires n.cfg.epochLength > 0
    ensures m == n.(validators := m.validators, stats := m.stats, snapshots := m.snapshots, judged := m.judged)
    ensures Narrows(n.validators, m.validators)
    decreases target
  {
    if target <= n.lastProcessed then n
    else JudgeSlot(c, JudgeUpTo(c, n, target - 1), target)
  }

  ghost function ProcessMissed(c: Primitives, n: Node, target: nat): Node
    requires n.cfg.epochLength > 0
  {
    if target <= n.lastProcessed then n else JudgeUpTo(c, n, target).(lastProcessed := target)
  }

  // ---------------------------------------------------------------- operations

  function SetBalance(n: Node, address: string, amount: Int64): (m: Node)
    ensures m == n.(state := m.state, genesis := m.genesis)
  {
    if amount < 0 then n
    else
      var acct := AccountOf(n.state, address).(balance := amount);
      n.(
        state := n.state[address := acct],
        genesis := if |n.chain| <= 1 then n.genesis[address := acct] else n.genesis)
  }

  function AddValidator(n: Node, name: string, stake: int, pubKey: string, key: Option<PrivateKey>): Node {
    n.(
      validators := Register(n.validators, name, stake, pubKey, key),
      stats := RegisterStats(n.validators, n.stats, name, stake, pubKey))
  }

  // What AddBlock selects: the given transactions, or a pass over the pool.
  ghost function Body(c: Primitives, n: Node, txs: seq<Transaction>): seq<Transaction>
    requires n.cfg.epochLength > 0
  {
    if txs != [] then txs
    else Popped(n.pool, n.state, n.cfg.maxBlockTxs, FeeAddress(c, KeysOf(n.validators), CurrentLeader(c, n)))
  }

  ghost function TakeBody(c: Primitives, n: Node, txs: seq<Transaction>): (m: Node)
    requires n.cfg.epochLength > 0
    ensures m == n.(pool := m.pool)
  {
    if txs != [] then n
    else n.(pool := AfterPop(n.pool, n.state, n.cfg.maxBlockTxs,
      FeeAddress(c, KeysOf(n.validators), CurrentLeader(c, n))))
  }

  // The step is defined as long as the block it builds, if any, has a new hash.
  ghost predicate AddBlockFresh(c: Primitives, n: Node, txs: seq<Transaction>, entropy: nat)
    requires Sane(n)
  {
    var n1 := StartSlot(c, n);
    BuildFresh(c, TakeBody(c, n1, txs), n.blocks[n.tip], Ok(n.state), CurrentLeader(c, n1), Body(c, n1, txs), entropy)
  }

  ghost function AddBlock(c: Primitives, n: Node, txs: seq<Transaction>, entropy: nat, io: WriteOutcome): Outcome
    requires Sane(n) && AddBlockFresh(c, n, txs, entropy)
  {
    if |n.validators| == 0 then Outcome(n, Err(NoValidators))
    else
      StartSlotSane(c, n);
      var n1 := StartSlot(c, n);
      Produce(c, TakeBody(c, n1, txs), n.blocks[n.tip], Ok(n.state), CurrentLeader(c, n1), Body(c, n1, txs), entropy,
        io)
  }

  ghost function StateAtTip(c: Primitives, n: Node, h: string): Result<State, TxError>
    requires Sane(n) && h in n.blocks
  {
    Replay(c, n.genesis, KeysOf(n.validators), Path(n.blocks, n.chain[0], h))
  }

  ghost predicate AddBlockExternalFresh(c: Primitives, n: Node, prevHash: string, txs: seq<Transaction>, entropy: nat)
    requires Sane(n)
  {
    prevHash in n.blocks ==>
      var n1 := StartSlot(c, n);
      BuildFresh(c, n1, n.blocks[prevHash], StateAtTip(c, n, prevHash), CurrentLeader(c, n1), txs, entropy)
  }

  ghost function AddBlockExternal(c: Primitives, n: Node, prevHash: string, txs: seq<Transaction>, entropy: nat,
                                  io: WriteOutcome): Outcome
    requires Sane(n) && AddBlockExternalFresh(c, n, prevHash, txs, entropy)
  {
    if |n.validators| == 0 then Outcome(n, Err(NoValidators))
    else if prevHash !in n.blocks then Outcome(n, Err(UnknownParent))
    else
      StartSlotSane(c, n);
      var n1 := StartSlot(c, n);
      Produce(c, n1, n.blocks[prevHash], StateAtTip(c, n, prevHash), CurrentLeader(c, n1), txs, entropy, io)
  }

  lemma StartSlotSane(c: Primitives, n: Node)
    requires Sane(n)
    ensures var n1 := StartSlot(c, n);
      && Sane(n1) && n1.poh.tick == n.poh.tick + TICKS_PER_SLOT
        && HasSnapshot(n1.snapshots, n1.cfg.epochLength, SlotOf(n1.poh.tick))
      && (forall h :: h in n1.blocks ==> n1.blocks[h].tick < n1.poh.tick)
      && n1 == n.(poh := n1.poh, snapshots := n1.snapshots)
  {
    hide Advance, Path, IsTree, Registry, EnsureSnapshot, Covered, Clocked, SlotOf;
    var tick := n.poh.tick + TICKS_PER_SLOT;
    var ticked := n.(poh := PohState(tick, Advance(c, n.poh.hash, n.poh.tick, tick)));
    EnsureSnapshotHas(ticked, SlotOf(tick) / n.cfg.epochLength);
    CoveredNext(n.snapshots, StartSlot(c, n).snapshots, n.cfg.epochLength, n.poh.tick);
    ClockedNext(n.blocks, n.poh.tick);
  }

  lemma EnsureSnapshotHas(n: Node, epoch: nat)
    ensures Frozen(n.snapshots, EnsureSnapshot(n, epoch).snapshots) && epoch in EnsureSnapshot(n, epoch).snapshots
  {
    hide TakeSnapshot;
  }

  lemma ClockedNext(blocks: Blocks, tick: nat)
    requires Clocked(blocks, tick)
    ensures Clocked(blocks, tick + TICKS_PER_SLOT)
    ensures forall h :: h in blocks ==> blocks[h].tick < tick + TICKS_PER_SLOT
  {
  }

  lemma CoveredNext(snaps: Snapshots, after: Snapshots, epochLength: nat, tick: nat)
    requires epochLength > 0 && Covered(snaps, epochLength, tick) && Frozen(snaps, after)
    requires SlotOf(tick + TICKS_PER_SLOT) / epochLength in after
    ensures Covered(after, epochLength, tick + TICKS_PER_SLOT)
  {
    forall s | 1 <= s <= SlotOf(tick + TICKS_PER_SLOT) ensures HasSnapshot(after, epochLength, s) {
      if s <= SlotOf(tick) {
        assert HasSnapshot(snaps, epochLength, s);
      }
    }
  }
}
