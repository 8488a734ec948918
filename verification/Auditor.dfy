// VerifyChain, the independent auditor of core/blockchain.go, and its agreement
// with the producers.
module Auditor {
  import opened Domain
  import opened Crypto
  import opened Poh
  import opened Ledger
  import opened Stake
  import opened Tree
  import opened Storage
  import opened Engine
  import opened Invariant
  import opened ForkChoice
  import opened Steps
  import opened Production
  import opened Runs
  import opened Theorems
  import opened Replays

  datatype Fault =
    | EmptyChain
    | BadGenesisHash
    | BadGenesisPoH
    | BadLink
    | BadPoH
    | BadHash
    | NotTheLeader
    | DoubleProduce
    | UnknownValidator
    | BadSignature
    | BadTransactions
    | BadTxRoot
    | BadTransition
    | BadStateRoot

  // What is wrong, and with which block of the chain.
  datatype AuditError = AuditError(fault: Fault, at: nat)

  // What the auditor carries from block to block.
  datatype Trail = Trail(hash: Digest, tick: nat, seen: map<nat, string>, state: State)

  datatype Report = Report(node: Node, error: Option<AuditError>)

  // The checks before the snapshot is looked up.
  function AuditHeader(c: Primitives, t: Trail, prev: Block, cur: Block): Option<Fault> {
    if cur.prevHash != prev.hash || cur.slot < prev.slot then Some(BadLink)
    else if CheckPoH(c, t.hash, t.tick, cur).None? then Some(BadPoH)
    else if cur.hash != HashBlock(c, cur) then Some(BadHash)
    else None
  }

  predicate SlotSeen(seen: map<nat, string>, slot: nat) {
    slot in seen && seen[slot] != ""
  }

  // The checks after it.
  ghost function AuditBody(c: Primitives, n: Node, t: Trail, cur: Block): Result<State, Fault>
    requires n.cfg.epochLength > 0
  {
    if LeaderAt(c, n.snapshots, n.cfg.epochLength, cur.slot) != cur.validator then Err(NotTheLeader)
    else if SlotSeen(t.seen, cur.slot) then Err(DoubleProduce)
    else if cur.validator !in n.validators || n.validators[cur.validator].stake < MIN_STAKE then Err(UnknownValidator)
    else if !BlockSignatureOk(c, cur, n.validators[cur.validator].pubKey) then Err(BadSignature)
    else if CheckTransactions(c, cur.txs).Some? then Err(BadTransactions)
    else if TxRoot(c, cur.txs) != cur.txRoot then Err(BadTxRoot)
    else match Apply(t.state, cur.txs, FeeAddress(c, KeysOf(n.validators), cur.validator))
      case Err(_) => Err(BadTransition)
      case Ok(next) => if StateRoot(c, next) != cur.stateRoot then Err(BadStateRoot) else Ok(next)
  }

  function Follow(c: Primitives, t: Trail, cur: Block, next: State): Trail
    requires CheckPoH(c, t.hash, t.tick, cur).Some?
  {
    Trail(CheckPoH(c, t.hash, t.tick, cur).value, cur.tick, t.seen[cur.slot := cur.validator], next)
  }

  // The audit of a chain from position i on. Whoever signed a block that fails
  // is slashed.
  ghost function AuditFrom(c: Primitives, n: Node, p: seq<Block>, i: nat, t: Trail): Report
    requires n.cfg.epochLength > 0 && 1 <= i <= |p|
    decreases |p| - i
  {
    hide AuditBody, Advance, ParsePoHHashHex, HashBlock, EnsureSnapshot, SlashLeader;
    if i == |p| then Report(n, None)
    else
      match AuditHeader(c, t, p[i - 1], p[i])
      case Some(f) => Report(SlashLeader(n, p[i].validator), Some(AuditError(f, i)))
      case None =>
        var n1 := EnsureSnapshot(n, p[i].slot / n.cfg.epochLength);
        match AuditBody(c, n1, t, p[i])
        case Err(f) => Report(SlashLeader(n1, p[i].validator), Some(AuditError(f, i)))
        case Ok(next) => AuditFrom(c, n1, p, i + 1, Follow(c, t, p[i], next))
  }

  ghost function Audit(c: Primitives, n: Node, p: seq<Block>): Report
    requires n.cfg.epochLength > 0
  {
    if p == [] then Report(n, Some(AuditError(EmptyChain, 0)))
    else if p[0].hash != HashBlock(c, p[0]) then Report(n, Some(AuditError(BadGenesisHash, 0)))
    else match ParsePoHHashHex(p[0].pohHash)
      case None => Report(n, Some(AuditError(BadGenesisPoH, 0)))
      case Some(seed) => AuditFrom(c, n, p, 1, Trail(seed, p[0].tick, map[], n.genesis))
  }

  // ------------------------------------------------- what the auditor accepts

  ghost predicate SlotTaken(p: seq<Block>, i: nat, slot: nat)
    requires i <= |p|
  {
    exists j :: 0 < j < i && p[j].slot == slot && p[j].validator != ""
  }

  // The leader of a slot, by the snapshot of its epoch or by the one that would
  // be taken now.
  ghost function LeaderFound(c: Primitives, n: Node, slot: nat): string
    requires n.cfg.epochLength > 0
  {
    LeaderAt(c, EnsureSnapshot(n, slot / n.cfg.epochLength).snapshots, n.cfg.epochLength, slot)
  }

  // A block in its place on a chain, said without an auditor: linked, on time,
  // sealed, by the leader of its slot and nobody twice, signed with a registered
  // key, with signed transactions that turn the state before it, replayed from
  // genesis, into the state that it names.
  ghost predicate ValidAt(c: Primitives, n: Node, p: seq<Block>, i: nat)
    requires n.cfg.epochLength > 0 && 0 < i < |p|
  {
    var b, prev := p[i], p[i - 1];
    && b.prevHash == prev.hash && prev.slot <= b.slot
    && prev.tick < b.tick && b.tick / TICKS_PER_SLOT == b.slot
    && (match ParsePoHHashHex(p[0].pohHash)
        case None => false
        case Some(seed) => ParsePoHHashHex(b.pohHash) == Some(Advance(c, seed, p[0].tick, b.tick)))
    && b.hash == HashBlock(c, b)
    && LeaderFound(c, n, b.slot) == b.validator
    && !SlotTaken(p, i, b.slot)
    && b.validator in n.validators && n.validators[b.validator].stake >= MIN_STAKE
    && BlockSignatureOk(c, b, n.validators[b.validator].pubKey)
    && AllSigned(c, b.txs)
    && TxRoot(c, b.txs) == b.txRoot
    && Roots(c, n.genesis, KeysOf(n.validators), p[..i + 1])
  }

  // What an audit adds to a node as it goes: snapshots as they would be taken at
  // its start.
  ghost predicate OnlySnapshotsAdded(n: Node, m: Node) {
    && m == n.(snapshots := m.snapshots) && Frozen(n.snapshots, m.snapshots)
    && forall e :: e in m.snapshots && e !in n.snapshots ==>
         m.snapshots[e] == TakeSnapshot(n.validators, n.stats, e, n.cfg.epochLength)
  }

  lemma AskedSnapshot(n: Node, m: Node, e: nat)
    requires OnlySnapshotsAdded(n, m)
    ensures var now, asked := EnsureSnapshot(n, e).snapshots, EnsureSnapshot(m, e).snapshots;
      e in now && e in asked && asked[e] == now[e]
  {
    hide TakeSnapshot;
  }

  lemma AskingAdds(n: Node, m: Node, e: nat)
    requires OnlySnapshotsAdded(n, m)
    ensures OnlySnapshotsAdded(n, EnsureSnapshot(m, e))
  {
    hide TakeSnapshot;
  }

  lemma AuditSnapshots(c: Primitives, n: Node, m: Node, slot: nat)
    requires n.cfg.epochLength > 0 && OnlySnapshotsAdded(n, m)
    ensures var m1 := EnsureSnapshot(m, slot / n.cfg.epochLength);
      && OnlySnapshotsAdded(n, m1) && HasSnapshot(m1.snapshots, n.cfg.epochLength, slot)
      && LeaderAt(c, m1.snapshots, n.cfg.epochLength, slot) == LeaderFound(c, n, slot)
  {
    hide OnlySnapshotsAdded, EnsureSnapshot, LeaderFromSnapshot;
    AskedSnapshot(n, m, slot / n.cfg.epochLength);
    AskingAdds(n, m, slot / n.cfg.epochLength);
  }

  ghost predicate Remembers(seen: map<nat, string>, p: seq<Block>, i: nat)
    requires i <= |p|
  {
    forall s :: SlotSeen(seen, s) <==> SlotTaken(p, i, s)
  }

  // The trail after i valid blocks.
  ghost predicate Tracks(c: Primitives, n: Node, p: seq<Block>, i: nat, t: Trail) {
    && 1 <= i <= |p| && p[0].tick <= p[i - 1].tick == t.tick
    && (match ParsePoHHashHex(p[0].pohHash)
        case None => false
        case Some(seed) => t.hash == Advance(c, seed, p[0].tick, t.tick))
    && Remembers(t.seen, p, i)
    && Replay(c, n.genesis, KeysOf(n.validators), p[..i]) == Ok(t.state)
  }

  lemma PoHTracks(c: Primitives, n: Node, p: seq<Block>, i: nat, t: Trail)
    requires Tracks(c, n, p, i, t) && i < |p| && t.tick < p[i].tick
    ensures Advance(c, t.hash, t.tick, p[i].tick)
      == Advance(c, ParsePoHHashHex(p[0].pohHash).value, p[0].tick, p[i].tick)
  {
    hide Replay, Advance, SlotTaken, SlotSeen;
    AdvanceComposes(c, ParsePoHHashHex(p[0].pohHash).value, p[0].tick, t.tick, p[i].tick);
  }

  lemma RemembersNext(seen: map<nat, string>, p: seq<Block>, i: nat)
    requires 0 < i < |p| && Remembers(seen, p, i) && !SlotSeen(seen, p[i].slot)
    ensures Remembers(seen[p[i].slot := p[i].validator], p, i + 1)
  {
    hide SlotTaken;
    var after := seen[p[i].slot := p[i].validator];
    forall s ensures SlotSeen(after, s) <==> SlotTaken(p, i + 1, s) {
      SlotTakenNext(p, i, s);
      assert SlotSeen(seen, s) <==> SlotTaken(p, i, s);
    }
  }

  lemma SlotTakenNext(p: seq<Block>, i: nat, s: nat)
    requires 0 < i < |p|
    ensures SlotTaken(p, i + 1, s) <==> SlotTaken(p, i, s) || (p[i].slot == s && p[i].validator != "")
  {
  }

  // The two parts of the audit of one block accept exactly a valid block, and
  // carry the trail on. m is the node after the snapshot has been asked for.
  lemma OneBlock(c: Primitives, n: Node, m: Node, p: seq<Block>, i: nat, t: Trail)
    requires n.cfg.epochLength > 0 && Tracks(c, n, p, i, t) && i < |p| && m == n.(snapshots := m.snapshots)
    requires LeaderAt(c, m.snapshots, n.cfg.epochLength, p[i].slot) == LeaderFound(c, n, p[i].slot)
    ensures AuditHeader(c, t, p[i - 1], p[i]).None? && AuditBody(c, m, t, p[i]).Ok? <==> ValidAt(c, n, p, i)
    ensures ValidAt(c, n, p, i) ==>
      CheckPoH(c, t.hash, t.tick, p[i]).Some?
        && Tracks(c, n, p, i + 1, Follow(c, t, p[i], AuditBody(c, m, t, p[i]).value))
  {
    hide Replay, Advance, SlotTaken, HashBlock, LeaderAt, LeaderFound, BlockSignatureOk, TxRoot, StateRoot, Apply,
      FeeAddress, CheckTransactions, SlotSeen, TxSignatureOk, AllSigned, ParsePoHHashHex;
    CheckedIsSigned(c, p[i].txs);
    assert p[..i + 1] == p[..i] + [p[i]];
    ReplayExtend(c, n.genesis, KeysOf(n.validators), p[..i], p[i]);
    assert SlotSeen(t.seen, p[i].slot) <==> SlotTaken(p, i, p[i].slot);
    if t.tick < p[i].tick {
      PoHTracks(c, n, p, i, t);
    }
    if !SlotSeen(t.seen, p[i].slot) {
      RemembersNext(t.seen, p, i);
    }
  }

  lemma {:induction false} AuditFromExact(c: Primitives, n: Node, m: Node, p: seq<Block>, i: nat, t: Trail)
    requires n.cfg.epochLength > 0 && OnlySnapshotsAdded(n, m) && Tracks(c, n, p, i, t)
    ensures 1 <= i <= |p|
    ensures AuditFrom(c, m, p, i, t).error.None? <==> forall k :: i <= k < |p| ==> ValidAt(c, n, p, k)
    decreases |p| - i
  {
    hide ValidAt, AuditHeader, AuditBody, Tracks, CheckPoH, EnsureSnapshot, OnlySnapshotsAdded, LeaderAt, LeaderFound;
    assert 1 <= i <= |p| by { TracksWithin(c, n, p, i, t); }
    AddedFrame(n, m);
    if i < |p| {
      var m1 := EnsureSnapshot(m, p[i].slot / n.cfg.epochLength);
      AuditSnapshots(c, n, m, p[i].slot);
      OneBlock(c, n, m1, p, i, t);
      if ValidAt(c, n, p, i) {
        AuditFromExact(c, n, m1, p, i + 1, Follow(c, t, p[i], AuditBody(c, m1, t, p[i]).value));
      }
    }
  }

  lemma AddedFrame(n: Node, m: Node)
    requires OnlySnapshotsAdded(n, m)
    ensures m == n.(snapshots := m.snapshots)
  {
    hide TakeSnapshot;
  }

  lemma TracksWithin(c: Primitives, n: Node, p: seq<Block>, i: nat, t: Trail)
    requires Tracks(c, n, p, i, t)
    ensures 1 <= i <= |p|
  {
  }

  // For any node and any chain, reachable or not: the audit passes exactly when
  // the chain starts with a sealed block with a readable seed and each further
  // block is valid in its place.
  lemma AuditExact(c: Primitives, n: Node, p: seq<Block>)
    requires n.cfg.epochLength > 0
    ensures Audit(c, n, p).error.None? <==>
      && p != [] && p[0].hash == HashBlock(c, p[0]) && ParsePoHHashHex(p[0].pohHash).Some?
      && forall k :: 1 <= k < |p| ==> ValidAt(c, n, p, k)
  {
    hide ValidAt, HashBlock, AuditFrom, ParsePoHHashHex, Advance, OnlySnapshotsAdded, Tracks;
    if p != [] && ParsePoHHashHex(p[0].pohHash).Some? {
      var t := Trail(ParsePoHHashHex(p[0].pohHash).value, p[0].tick, map[], n.genesis);
      StartTracks(c, n, p, t);
      AddedNothing(n);
      AuditFromExact(c, n, n, p, 1, t);
    }
  }

  lemma AddedNothing(n: Node)
    ensures OnlySnapshotsAdded(n, n)
  {
    hide TakeSnapshot;
  }

  lemma StartTracks(c: Primitives, n: Node, p: seq<Block>, t: Trail)
    requires p != [] && ParsePoHHashHex(p[0].pohHash).Some?
    requires t == Trail(ParsePoHHashHex(p[0].pohHash).value, p[0].tick, map[], n.genesis)
    ensures Tracks(c, n, p, 1, t)
  {
    hide HashBlock, ParsePoHHashHex;
  }

  // The check on acceptance against the audit: the auditor finds a block valid in
  // its place if and only if the check accepts it on the block before it and on the
  // replayed balances, and the clock, the slot and the stake are as the audit alone
  // asks.
  lemma AuditRefinesAccept(c: Primitives, n: Node, p: seq<Block>, i: nat, state: State)
    requires n.cfg.epochLength > 0 && 0 < i < |p| && HasSnapshot(n.snapshots, n.cfg.epochLength, p[i].slot)
    requires Replay(c, n.genesis, KeysOf(n.validators), p[..i]) == Ok(state)
    ensures ValidAt(c, n, p, i) <==>
      && CheckOnAccept(c, n, p[i - 1], p[i], state).None?
      && p[i - 1].slot <= p[i].slot && p[i - 1].tick < p[i].tick && p[i].tick / TICKS_PER_SLOT == p[i].slot
      && ParsePoHHashHex(p[0].pohHash).Some?
      && ParsePoHHashHex(p[i].pohHash)
        == Some(Advance(c, ParsePoHHashHex(p[0].pohHash).value, p[0].tick, p[i].tick))
      && !SlotTaken(p, i, p[i].slot) && n.validators[p[i].validator].stake >= MIN_STAKE
  {
    hide Replay, Advance, SlotTaken, HashBlock, LeaderFromSnapshot, BlockSignatureOk, TxRoot, StateRoot, Apply,
      FeeAddress, CheckTransactions, AllSigned, ParsePoHHashHex;
    CheckedIsSigned(c, p[i].txs);
    SealedBySignature(c, p[i]);
    ReplayExtend(c, n.genesis, KeysOf(n.validators), p[..i], p[i]);
    assert p[..i + 1] == p[..i] + [p[i]];
  }

  lemma SealedBySignature(c: Primitives, b: Block)
    ensures forall key :: BlockSignatureOk(c, b, key) ==> b.hash == HashBlock(c, b)
  {
    hide HashBlock;
  }

  // ------------------------------------------------------------------ the blame

  // The audit has stopped at the first block that is not valid in its place, and
  // fined whoever it names as its producer, or has found nothing and fined nobody.
  ghost predicate Blames(c: Primitives, n: Node, p: seq<Block>, i: nat, r: Report)
    requires n.cfg.epochLength > 0 && 1 <= i <= |p|
  {
    && r.node == n.(snapshots := r.node.snapshots, validators := r.node.validators)
    && match r.error
       case None => r.node.validators == n.validators
       case Some(e) =>
         && i <= e.at < |p| && !ValidAt(c, n, p, e.at) && (forall k :: i <= k < e.at ==> ValidAt(c, n, p, k))
         && Fined(n.validators, r.node.validators, p[e.at].validator, SLASH_PENALTY)
  }

  // The end of the chain is reached.
  lemma BlamesNobody(c: Primitives, n: Node, m: Node, p: seq<Block>)
    requires n.cfg.epochLength > 0 && p != [] && m == n.(snapshots := m.snapshots)
    ensures Blames(c, n, p, |p|, Report(m, None))
  {
    hide ValidAt, Fined;
  }

  // It stops here.
  lemma BlamesHere(c: Primitives, n: Node, m: Node, p: seq<Block>, i: nat, f: Fault)
    requires n.cfg.epochLength > 0 && 1 <= i < |p| && !ValidAt(c, n, p, i) && Registry(n.validators)
    requires m == n.(snapshots := m.snapshots)
    ensures Blames(c, n, p, i, Report(SlashLeader(m, p[i].validator), Some(AuditError(f, i))))
  {
    hide ValidAt, Slash, Fined, Registry;
    SlashKeeps(n.validators, p[i].validator, SLASH_PENALTY);
  }

  // Or goes on.
  lemma BlamesLater(c: Primitives, n: Node, p: seq<Block>, i: nat, r: Report)
    requires n.cfg.epochLength > 0 && 1 <= i < |p| && ValidAt(c, n, p, i) && Blames(c, n, p, i + 1, r)
    ensures Blames(c, n, p, i, r)
  {
    hide ValidAt, Fined;
  }

  lemma {:induction false} AuditFromBlames(c: Primitives, n: Node, m: Node, p: seq<Block>, i: nat, t: Trail)
    requires n.cfg.epochLength > 0 && OnlySnapshotsAdded(n, m) && Tracks(c, n, p, i, t) && Registry(n.validators)
    ensures 1 <= i <= |p| && Blames(c, n, p, i, AuditFrom(c, m, p, i, t))
    decreases |p| - i
  {
    hide ValidAt, AuditHeader, AuditBody, Tracks, CheckPoH, EnsureSnapshot, OnlySnapshotsAdded, LeaderAt, LeaderFound,
      SlashLeader, Blames, Registry, Follow;
    assert 1 <= i <= |p| by { TracksWithin(c, n, p, i, t); }
    AddedFrame(n, m);
    if i == |p| {
      BlamesNobody(c, n, m, p);
    } else {
      var m1 := EnsureSnapshot(m, p[i].slot / n.cfg.epochLength);
      AuditSnapshots(c, n, m, p[i].slot);
      AddedFrame(n, m1);
      OneBlock(c, n, m1, p, i, t);
      if ValidAt(c, n, p, i) {
        AuditFromBlames(c, n, m1, p, i + 1, Follow(c, t, p[i], AuditBody(c, m1, t, p[i]).value));
        BlamesLater(c, n, p, i, AuditFrom(c, m, p, i, t));
      } else {
        BlamesHere(c, n, if AuditHeader(c, t, p[i - 1], p[i]).Some? then m else m1, p, i,
          AuditFrom(c, m, p, i, t).error.value.fault);
      }
    }
  }

  // Who pays for a chain that fails: the producer that the first block which is not
  // valid in its place names loses the penalty or its membership, if it is
  // registered. A bad first block costs nobody anything, and neither does success.
  lemma AuditBlames(c: Primitives, n: Node, p: seq<Block>)
    requires n.cfg.epochLength > 0 && Registry(n.validators)
    ensures var r := Audit(c, n, p);
      if p != [] && p[0].hash == HashBlock(c, p[0]) && ParsePoHHashHex(p[0].pohHash).Some? then Blames(c, n, p, 1, r)
      else r.error.Some? && r.error.value.at == 0 && r.node == n
  {
    hide HashBlock, AuditFrom, ParsePoHHashHex, Advance, OnlySnapshotsAdded, Tracks, Blames;
    if p != [] && ParsePoHHashHex(p[0].pohHash).Some? {
      var t := Trail(ParsePoHHashHex(p[0].pohHash).value, p[0].tick, map[], n.genesis);
      StartTracks(c, n, p, t);
      AddedNothing(n);
      AuditFromBlames(c, n, n, p, 1, t);
    }
  }

  // ---------------------------------------------------------------- agreement

  // The trail is where it should be after the first i blocks of a path.
  ghost predicate OnTrack(c: Primitives, n: Node, p: seq<Block>, i: nat, t: Trail) {
    && 1 <= i <= |p| && n.chain != [] && p[0] == n.chain[0]
    && (match ParsePoHHashHex(p[0].pohHash)
        case None => false
        case Some(seed) => t.hash == Advance(c, seed, 0, p[i - 1].tick))
    && t.tick == p[i - 1].tick
    && (forall s :: s in t.seen ==> s <= p[i - 1].slot)
    && Replay(c, n.genesis, n.keys, p[..i]) == Ok(t.state)
  }

  lemma OnPath(c: Primitives, n: Node, h: string, i: nat)
    requires TreeInv(c, n) && Vetted(c, n) && h in n.blocks && 0 < i < |Path(n.blocks, n.chain[0], h)|
    ensures var b := Path(n.blocks, n.chain[0], h)[i];
      && b.hash in n.blocks && n.blocks[b.hash] == b && b.hash != n.chain[0].hash
      && Path(n.blocks, n.chain[0], b.hash) == Path(n.blocks, n.chain[0], h)[..i + 1]
  {
    hide Vetted, Ticking, Sealed, UniqueSlots, AllLed, Registry, Covered, Clocked, SnapshotsGood, Path;
    PathLinked(n.blocks, n.chain[0], h);
    PathPrefix(n.blocks, n.chain[0], h, i);
    assert Path(n.blocks, n.chain[0], h)[i].index == i;
  }

  lemma HeaderPasses(c: Primitives, n: Node, h: string, i: nat, t: Trail)
    requires TreeInv(c, n) && Vetted(c, n) && h in n.blocks && i < |Path(n.blocks, n.chain[0], h)|
    requires OnTrack(c, n, Path(n.blocks, n.chain[0], h), i, t)
    ensures var p := Path(n.blocks, n.chain[0], h);
      && AuditHeader(c, t, p[i - 1], p[i]) == None
      && CheckPoH(c, t.hash, t.tick, p[i]) == Some(Advance(c, ParsePoHHashHex(n.chain[0].pohHash).value, 0, p[i].tick))
  {
    hide Vetted, UniqueSlots, AllLed, Registry, Covered, SnapshotsGood, Path, IsTree, CheckPoH, HashBlock, Advance,
      Replay;
    var p := Path(n.blocks, n.chain[0], h);
    PathLinked(n.blocks, n.chain[0], h);
    var b := p[i];
    assert p[i - 1].slot < b.slot && p[i - 1].tick < b.tick;
    assert b.hash in n.blocks && n.blocks[b.hash] == b;
    TickSlot(b.tick, b.slot);
    PublishedHashAccepted(c, ParsePoHHashHex(n.chain[0].pohHash).value, t.tick, b);
  }

  lemma TickSlot(tick: nat, slot: nat)
    requires tick == slot * TICKS_PER_SLOT
    ensures tick / TICKS_PER_SLOT == slot
  {
  }

  // What the block applies to gives the state whose root it carries.
  lemma StateFollows(c: Primitives, n: Node, h: string, i: nat, t: Trail)
    requires TreeInv(c, n) && Vetted(c, n) && h in n.blocks && 0 < i < |Path(n.blocks, n.chain[0], h)|
    requires Replay(c, n.genesis, n.keys, Path(n.blocks, n.chain[0], h)[..i]) == Ok(t.state)
    ensures var b := Path(n.blocks, n.chain[0], h)[i];
      var next := Apply(t.state, b.txs, FeeAddress(c, n.keys, b.validator));
      && next.Ok? && StateRoot(c, next.value) == b.stateRoot
      && Replay(c, n.genesis, n.keys, Path(n.blocks, n.chain[0], h)[..i + 1]) == next
  {
    hide TreeInv, Vetted, Sane, Path, IsTree, Apply, FeeAddress, Replay;
    TreeIsSane(c, n);
    SaneTree(n);
    OnPath(c, n, h, i);
    var p := Path(n.blocks, n.chain[0], h);
    BlockRooted(c, n, p[i].hash);
    assert p[..i + 1] == p[..i] + [p[i]];
    ReplayExtend(c, n.genesis, n.keys, p[..i], p[i]);
  }

  lemma BlockRooted(c: Primitives, n: Node, h: string)
    requires TreeInv(c, n) && Vetted(c, n) && h in n.blocks && h != n.chain[0].hash
    ensures Roots(c, n.genesis, n.keys, Path(n.blocks, n.chain[0], h))
  {
    hide Sane, AllVouched, Ticking, Sealed, UniqueSlots, AllLed, SnapshotsGood, KeysCurrent, Path, IsTree, Roots;
  }

  // The second part of the audit of a block finds no fault but a producer who is
  // gone.
  ghost predicate BodyVerdict(c: Primitives, n: Node, t: Trail, b: Block)
    requires n.cfg.epochLength > 0
  {
    && EnsureSnapshot(n, b.slot / n.cfg.epochLength) == n
    && (b.validator !in n.validators ==> AuditBody(c, n, t, b) == Err(UnknownValidator))
    && (b.validator in n.validators ==>
         && Apply(t.state, b.txs, FeeAddress(c, n.keys, b.validator)).Ok?
         && AuditBody(c, n, t, b) == Ok(Apply(t.state, b.txs, FeeAddress(c, n.keys, b.validator)).value))
  }

  lemma BodyPasses(c: Primitives, n: Node, h: string, i: nat, t: Trail)
    requires TreeInv(c, n) && Vetted(c, n) && h in n.blocks && i < |Path(n.blocks, n.chain[0], h)|
    requires OnTrack(c, n, Path(n.blocks, n.chain[0], h), i, t)
    ensures n.cfg.epochLength > 0 && BodyVerdict(c, n, t, Path(n.blocks, n.chain[0], h)[i])
  {
    hide AllRooted, AllVouched, AllLed, Ticking, Sealed, UniqueSlots, Covered, Clocked, SnapshotsGood, Path, IsTree,
      Apply, Replay, LeaderAt, BlockSignatureOk, CheckTransactions, TxRoot, StateRoot, AddressFromPubKey;
    var p := Path(n.blocks, n.chain[0], h);
    PathVouched(c, n, h);
    PathLed(c, n, h);
    PathLinked(n.blocks, n.chain[0], h);
    assert Vouched(c, n.keys, p[i]) && Led(c, n.snapshots, n.cfg.epochLength, p[i]);
    assert p[i - 1].slot < p[i].slot;
    StateFollows(c, n, h, i, t);
    if p[i].validator in n.validators {
      assert FeeAddress(c, KeysOf(n.validators), p[i].validator) == FeeAddress(c, n.keys, p[i].validator);
    }
  }

  // The first position from i on whose producer is no longer registered.
  function FirstGone(vs: Validators, p: seq<Block>, i: nat): (k: nat)
    requires i <= |p|
    ensures i <= k <= |p|
    ensures forall j :: i <= j < k ==> p[j].validator in vs
    ensures k < |p| ==> p[k].validator !in vs
    decreases |p| - i
  {
    if i == |p| || p[i].validator !in vs then i else FirstGone(vs, p, i + 1)
  }

  lemma {:induction false} AuditFromVerdict(c: Primitives, n: Node, h: string, i: nat, t: Trail)
    requires TreeInv(c, n) && Vetted(c, n) && h in n.blocks && n.cfg.epochLength > 0
    requires OnTrack(c, n, Path(n.blocks, n.chain[0], h), i, t)
    ensures var p := Path(n.blocks, n.chain[0], h);
      var k := FirstGone(n.validators, p, i);
      AuditFrom(c, n, p, i, t) == Report(n, if k == |p| then None else Some(AuditError(UnknownValidator, k)))
    decreases |Path(n.blocks, n.chain[0], h)| - i
  {
    hide TreeInv, Vetted, IsTree, Path, AuditHeader, AuditBody, CheckPoH, Advance, Replay, EnsureSnapshot, Apply,
      FeeAddress;
    TreeIsSane(c, n);
    var p := Path(n.blocks, n.chain[0], h);
    if i < |p| {
      HeaderPasses(c, n, h, i, t);
      BodyPasses(c, n, h, i, t);
      if p[i].validator in n.validators {
        StateFollows(c, n, h, i, t);
        PathLinked(n.blocks, n.chain[0], h);
        var next := Apply(t.state, p[i].txs, FeeAddress(c, n.keys, p[i].validator)).value;
        assert p[i - 1].slot < p[i].slot;
        AuditFromVerdict(c, n, h, i + 1, Follow(c, t, p[i], next));
      } else {
        assert SlashLeader(n, p[i].validator) == n;
      }
    }
  }

  // Producers and auditor agree. On the path to any stored block, canonical or
  // not, the audit passes exactly when the producers on it are still registered;
  // otherwise it stops at the first who is not, for that reason alone. Either
  // way it slashes nobody.
  lemma AuditVerdict(c: Primitives, n: Node, h: string)
    requires TreeInv(c, n) && Vetted(c, n) && h in n.blocks
    ensures var p := Path(n.blocks, n.chain[0], h);
      var k := FirstGone(n.validators, p, 1);
      && n.cfg.epochLength > 0
      && Audit(c, n, p) == Report(n, if k == |p| then None else Some(AuditError(UnknownValidator, k)))
  {
    hide Vetted, AllLed, UniqueSlots, Registry, Covered, Clocked, SnapshotsGood, Path, IsTree, HashBlock, AuditFrom;
    var p, g := Path(n.blocks, n.chain[0], h), n.chain[0];
    PathPrefixRoot(n, h);
    assert g.hash == HashBlock(c, g) by { RootSealed(c, n); }
    var seed := ParsePoHHashHex(g.pohHash).value;
    var t := Trail(seed, g.tick, map[], n.genesis);
    assert g.tick == 0 by { RootIsGenesis(n); }
    assert p[..1] == [g];
    AuditFromVerdict(c, n, h, 1, t);
  }

  lemma RootSealed(c: Primitives, n: Node)
    requires TreeInv(c, n)
    ensures n.chain[0].hash == HashBlock(c, n.chain[0])
  {
    hide AllLed, UniqueSlots, Registry, Covered, Clocked, SnapshotsGood, Path, HashBlock;
  }

  // ------------------------------------------------------------- over all runs

  // In every state of every orderly run VerifyChain accepts the canonical chain
  // if and only if its producers are all still registered, and it changes
  // nothing.
  lemma AuditorAgrees(c: Primitives, ns: seq<Node>, es: seq<Event>, i: nat)
    requires |ns| > 0 && Fresh(c, ns[0]) && Run(c, ns[0], ns, es) && Orderly(ns, es) && i < |ns|
    ensures ns[i].cfg.epochLength > 0 && Audit(c, ns[i], ns[i].chain).node == ns[i]
    ensures Audit(c, ns[i], ns[i].chain).error.None?
        <==> forall k :: 0 < k < |ns[i].chain| ==> ns[i].chain[k].validator in ns[i].validators
  {
    hide Run, Fresh, Orderly, Good, TreeInv, Vetted, Audit, Path, IsTree, Replay;
    RunLedgered(c, ns, es, i);
    GoodTree(c, ns[i]);
    AuditVerdict(c, ns[i], ns[i].tip);
  }

  // While H2 holds, it accepts every fork.
  lemma AuditorAcceptsEveryFork(c: Primitives, ns: seq<Node>, es: seq<Event>, i: nat, h: string)
    requires |ns| > 0 && Fresh(c, ns[0]) && Run(c, ns[0], ns, es) && Orderly(ns, es) && i < |ns|
    requires Registered(ns[i].keys, ns[i].validators) && h in ns[i].blocks
    ensures Sane(ns[i]) && Audit(c, ns[i], Path(ns[i].blocks, ns[i].chain[0], h)) == Report(ns[i], None)
  {
    hide Run, Fresh, Orderly, Good, TreeInv, Vetted, Audit, Path, IsTree, Replay;
    RunLedgered(c, ns, es, i);
    GoodTree(c, ns[i]);
    AuditVerdict(c, ns[i], h);
    PathProducers(c, ns[i], h);
  }

  // ------------------------------------------------------ why H2 is a hypothesis

  // A leader of the canonical chain with less than the minimum stake and one
  // penalty, who then leads a slot whose transactions are not signed, leaves
  // the registry; and from then on VerifyChain rejects the chain that it
  // helped to build.
  lemma SlashedProducerBreaksAudit(c: Primitives, n: Node, txs: seq<Transaction>, entropy: nat, io: WriteOutcome,
                                   k: nat)
    requires Good(c, n) && Ledgered(c, n) && Registered(n.keys, n.validators) && Sane(n)
    requires CollisionFree(c, n, BlockAdded(txs, entropy, io)) && txs != [] && CheckTransactions(c, txs).Some?
    requires 0 < k < |n.chain| && n.chain[k].validator == CurrentLeader(c, StartSlot(c, n))
    requires CurrentLeader(c, StartSlot(c, n)) in n.validators
    requires n.validators[CurrentLeader(c, StartSlot(c, n))].stake < MIN_STAKE + SLASH_PENALTY
    ensures AddBlockFresh(c, n, txs, entropy)
    ensures var m := AddBlock(c, n, txs, entropy, io).node;
      && Good(c, m) && m.chain == n.chain && m.cfg.epochLength > 0 && n.chain[k].validator !in m.validators
      && Audit(c, m, m.chain) == Report(m, Some(AuditError(UnknownValidator, FirstGone(m.validators, m.chain, 1))))
  {
    hide Good, Ledgered, StepOk, Advances, Sane, BuildCollisionFree, BuildFresh, CheckTransactions, LeaderAt, Audit,
      TakeSnapshot, Registered;
    AddBlockKeeps(c, n, txs, entropy, io);
    AddBlockLedgered(c, n, txs, entropy, io);
    var m := AddBlock(c, n, txs, entropy, io).node;
    StepOkGood(c, n, m);
    StartSlotSane(c, n);
    assert |n.validators| != 0;
    var leader := CurrentLeader(c, StartSlot(c, n));
    assert m == SlashLeader(StartSlot(c, n), leader);
    GoneRejects(c, m, k);
  }

  lemma GoneRejects(c: Primitives, m: Node, k: nat)
    requires Good(c, m) && Ledgered(c, m) && 0 < k < |m.chain| && m.chain[k].validator !in m.validators
    ensures m.cfg.epochLength > 0
    ensures Audit(c, m, m.chain) == Report(m, Some(AuditError(UnknownValidator, FirstGone(m.validators, m.chain, 1))))
  {
    hide Good, TreeInv, Vetted, Audit, Path, IsTree, Replay;
    GoodTree(c, m);
    AuditVerdict(c, m, m.tip);
  }
}
