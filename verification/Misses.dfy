// Missed-slot accounting: what processMissedSlots charges, to whom, and how the
// charges, the counters and the slashes balance over a whole run.
module Misses {
  import opened Domain
  import opened Crypto
  import opened Stake
  import opened Tree
  import opened Engine
  import opened Invariant
  import opened ForkChoice

  // ------------------------------------------------------------- the ledger

  function Charges(js: seq<Judgement>, v: string): nat {
    if js == [] then 0
    else Charges(js[..|js| - 1], v) + if js[|js| - 1].missed && js[|js| - 1].leader == v then 1 else 0
  }

  function MissSlashes(js: seq<Judgement>, v: string): nat {
    if js == [] then 0
    else MissSlashes(js[..|js| - 1], v) + if js[|js| - 1].slashed && js[|js| - 1].leader == v then 1 else 0
  }

  // Slots 1, 2, 3, ... have been judged once each, in order, up to the last
  // processed one.
  ghost predicate JudgedInOrder(js: seq<Judgement>, upTo: nat) {
    |js| == upTo && forall i :: 0 <= i < |js| ==> js[i].slot == i + 1
  }

  // The epoch that the last slash sends a validator to jail until.
  function JailTerm(js: seq<Judgement>, v: string): nat {
    if js == [] then 0
    else if js[|js| - 1].slashed && js[|js| - 1].leader == v then js[|js| - 1].slot / SLOTS_PER_EPOCH + JAIL_EPOCHS
    else JailTerm(js[..|js| - 1], v)
  }

  // Every charge is in the counter or has been paid for by a slash, and the jail
  // term on record is that of the last slash.
  ghost predicate Balanced(js: seq<Judgement>, stats: Stats) {
    forall v :: Charges(js, v) == (MAX_MISSED_SLOTS + 1) * MissSlashes(js, v) + StatsOf(stats, v).missedSlots
             && StatsOf(stats, v).missedSlots <= MAX_MISSED_SLOTS
             && StatsOf(stats, v).jailedUntilEpoch == JailTerm(js, v)
  }

  // Nobody is charged or jailed between two stats.
  ghost predicate SameCounters(stats: Stats, after: Stats) {
    forall v :: StatsOf(after, v).missedSlots == StatsOf(stats, v).missedSlots
             && StatsOf(after, v).jailedUntilEpoch == StatsOf(stats, v).jailedUntilEpoch
  }

  // The leader that was judged is the one the frozen snapshot elects.
  ghost predicate JudgedLeaders(c: Primitives, js: seq<Judgement>, snaps: Snapshots, epochLength: nat)
    requires epochLength > 0
  {
    forall i :: 0 <= i < |js| ==>
      HasSnapshot(snaps, epochLength, js[i].slot) && js[i].leader == LeaderAt(c, snaps, epochLength, js[i].slot)
  }

  ghost predicate Accounts(c: Primitives, n: Node) {
    && n.cfg.epochLength > 0
    && JudgedInOrder(n.judged, n.lastProcessed)
    && Balanced(n.judged, n.stats)
    && JudgedLeaders(c, n.judged, n.snapshots, n.cfg.epochLength)
  }

  // ------------------------------------------------------------------- jail

  // Slots are judged in order, so a later slash never shortens a term.
  lemma {:induction false} JailTermGrows(js: seq<Judgement>, ks: seq<Judgement>, v: string)
    requires JudgedInOrder(ks, |ks|) && js <= ks
    ensures JailTerm(js, v) <= JailTerm(ks, v) <= |ks| / SLOTS_PER_EPOCH + JAIL_EPOCHS
    decreases |ks|
  {
    if ks != [] {
      var front := ks[..|ks| - 1];
      if js == ks {
        JailTermGrows(front, front, v);
      } else {
        assert js <= front;
        JailTermGrows(js, front, v);
      }
    }
  }

  // The term that a verdict sets is kept by all later ones.
  lemma JailTermKept(js: seq<Judgement>, k: nat)
    requires JudgedInOrder(js, |js|) && k < |js| && js[k].slashed
    ensures js[k].slot / SLOTS_PER_EPOCH + JAIL_EPOCHS <= JailTerm(js, js[k].leader)
  {
    assert js[..k + 1][..k] == js[..k];
    JailTermGrows(js[..k + 1], js, js[k].leader);
  }

  // Every snapshot added is the one that this registry and these stats give.
  ghost predicate DrawnFrom(snaps: Snapshots, after: Snapshots, vs: Validators, stats: Stats, epochLength: nat) {
    forall e :: e in after && e !in snaps ==> after[e] == TakeSnapshot(vs, stats, e, epochLength)
  }

  lemma SnapshotDrawn(n: Node, epoch: nat)
    ensures DrawnFrom(n.snapshots, EnsureSnapshot(n, epoch).snapshots, n.validators, n.stats, n.cfg.epochLength)
  {
    hide TakeSnapshot;
  }

  lemma DrawnBoth(snaps: Snapshots, mid: Snapshots, after: Snapshots, vs: Validators, stats: Stats, epochLength: nat)
    requires DrawnFrom(snaps, mid, vs, stats, epochLength) && DrawnFrom(mid, after, vs, stats, epochLength)
    requires Frozen(mid, after)
    ensures DrawnFrom(snaps, after, vs, stats, epochLength)
  {
    hide TakeSnapshot;
    forall e | e in after && e !in snaps ensures after[e] == TakeSnapshot(vs, stats, e, epochLength) {
      if e in mid {
        assert after[e] == mid[e];
      }
    }
  }

  // -------------------------------------------------------------- the slot map

  ghost predicate CanonicalAt(chain: seq<Block>, slot: nat) {
    exists i :: 0 < i < |chain| && chain[i].slot == slot
  }

  lemma {:induction false} SlotMapExact(chain: seq<Block>, slot: nat)
    requires Linked(chain)
    ensures slot in SlotMap(chain) <==> CanonicalAt(chain, slot)
    ensures forall i :: 0 < i < |chain| && chain[i].slot == slot ==>
      slot in SlotMap(chain) && SlotMap(chain)[slot] == chain[i].validator
    decreases |chain|
  {
    if |chain| > 1 {
      var front, last := chain[..|chain| - 1], |chain| - 1;
      assert Linked(front);
      SlotMapExact(front, slot);
      assert CanonicalAt(chain, slot) <==> CanonicalAt(front, slot) || chain[last].slot == slot by {
        assert forall i :: 0 < i < last ==> front[i] == chain[i];
      }
    }
  }

  // On a chain of vouched blocks, the map names the leader of a slot exactly
  // when the slot has a canonical block.
  lemma ProducedByLeader(c: Primitives, n: Node, slot: nat)
    requires Inv(c, n) && slot > 0 && HasSnapshot(n.snapshots, n.cfg.epochLength, slot)
    requires LeaderAt(c, n.snapshots, n.cfg.epochLength, slot) != GENESIS_NAME
    ensures (slot in n.slotProduced && n.slotProduced[slot] == LeaderAt(c, n.snapshots, n.cfg.epochLength, slot))
        <==> CanonicalAt(n.chain, slot)
    ensures LeaderAt(c, n.snapshots, n.cfg.epochLength, slot) != ""
  {
    hide Path, Ticking, Sealed, UniqueSlots, AllLed, Registry, Covered, Clocked, LeaderAt, SlotMap, Linked, IsTree,
      Mempool.Consistent, GoodSnapshot, CleanRecord;
    PathLinked(n.blocks, n.chain[0], n.tip);
    PathLed(c, n, n.tip);
    SlotMapExact(n.chain, slot);
    NamedLeader(c, n.snapshots, n.cfg.epochLength, slot);
    if CanonicalAt(n.chain, slot) {
      var i :| 0 < i < |n.chain| && n.chain[i].slot == slot;
      assert Led(c, n.snapshots, n.cfg.epochLength, n.chain[i]);
    }
  }

  lemma NamedLeader(c: Primitives, snaps: Snapshots, epochLength: nat, slot: nat)
    requires epochLength > 0 && SnapshotsGood(snaps) && LeaderAt(c, snaps, epochLength, slot) != GENESIS_NAME
    ensures LeaderAt(c, snaps, epochLength, slot) != ""
  {
    hide LeaderAt;
    LeaderInSnapshot(c, snaps, epochLength, slot);
  }

  // ------------------------------------------------------------ one judgement

  // A verdict is right: charged if and only if there was a leader and no block
  // of the slot was canonical.
  ghost predicate Just(j: Judgement, chain: seq<Block>) {
    && (j.missed <==> j.leader != GENESIS_NAME && !CanonicalAt(chain, j.slot))
    && (j.slashed ==> j.missed)
  }

  // What a judgement leaves alone.
  ghost predicate SameExceptVerdict(n: Node, m: Node) {
    m == n.(validators := m.validators, stats := m.stats, snapshots := m.snapshots, judged := m.judged)
  }

  lemma JudgeSlotInv(c: Primitives, n: Node, slot: nat)
    requires Inv(c, n)
    ensures var m := JudgeSlot(c, n, slot);
      Inv(c, m) && SameExceptVerdict(n, m) && Frozen(n.snapshots, m.snapshots)
  {
    hide TreeInv, VerdictAt, PassVerdict, Frozen, SlotMap, Mempool.Consistent, CleanRecord;
    assert n.cfg.epochLength > 0 by { TreeIsSane(c, n); }
    var n1 := EnsureSnapshot(n, slot / n.cfg.epochLength);
    EnsureSnapshotInv(c, n, slot / n.cfg.epochLength);
    PassVerdictInv(c, n1, VerdictAt(c, n1, slot));
  }

  lemma PassVerdictInv(c: Primitives, n: Node, j: Judgement)
    requires Inv(c, n)
    ensures Inv(c, PassVerdict(n, j))
    ensures PassVerdict(n, j) == n.(validators := PassVerdict(n, j).validators, stats := PassVerdict(n, j).stats,
      judged := PassVerdict(n, j).judged)
  {
    hide Inv, SlashPercent;
    InvRegistry(c, n);
    SlashPercentKeeps(n.validators, j.leader, SLASH_PERCENT);
    RegistryFree(c, n, PassVerdict(n, j));
  }

  lemma PassVerdictBalanced(n: Node, j: Judgement)
    requires Balanced(n.judged, n.stats)
    requires j.slashed <==> j.missed && StatsOf(n.stats, j.leader).missedSlots + 1 > MAX_MISSED_SLOTS
    ensures Balanced(PassVerdict(n, j).judged, PassVerdict(n, j).stats)
  {
    hide Charges, MissSlashes, JailTerm;
    var m := PassVerdict(n, j);
    forall v
      ensures Charges(m.judged, v) == (MAX_MISSED_SLOTS + 1) * MissSlashes(m.judged, v)
        + StatsOf(m.stats, v).missedSlots
      ensures StatsOf(m.stats, v).missedSlots <= MAX_MISSED_SLOTS
      ensures StatsOf(m.stats, v).jailedUntilEpoch == JailTerm(m.judged, v)
    {
      OneMoreVerdict(n.judged, j, v);
      assert Charges(n.judged, v) == (MAX_MISSED_SLOTS + 1) * MissSlashes(n.judged, v)
        + StatsOf(n.stats, v).missedSlots;
    }
  }

  // What the accounts of a validator gain by one more verdict.
  lemma OneMoreVerdict(js: seq<Judgement>, j: Judgement, v: string)
    ensures Charges(js + [j], v) == Charges(js, v) + if j.missed && j.leader == v then 1 else 0
    ensures MissSlashes(js + [j], v) == MissSlashes(js, v) + if j.slashed && j.leader == v then 1 else 0
    ensures JailTerm(js + [j], v)
      == if j.slashed && j.leader == v then j.slot / SLOTS_PER_EPOCH + JAIL_EPOCHS else JailTerm(js, v)
  {
    assert (js + [j])[..|js|] == js;
  }

  lemma JudgeSlotAccounts(c: Primitives, n: Node, slot: nat)
    requires Inv(c, n) && slot > 0 && n.cfg.epochLength > 0 && HasSnapshot(n.snapshots, n.cfg.epochLength, slot)
    requires Balanced(n.judged, n.stats)
    ensures var m, j := JudgeSlot(c, n, slot), VerdictAt(c, n, slot);
      && Balanced(m.judged, m.stats) && m.judged == n.judged + [j]
      && j.slot == slot && j.leader == LeaderAt(c, n.snapshots, n.cfg.epochLength, slot) && Just(j, n.chain)
  {
    hide Inv, LeaderAt, SlashPercent, Just, Balanced, PassVerdict, EnsureSnapshot;
    JudgeCovered(c, n, slot);
    VerdictIsJust(c, n, slot);
    PassVerdictBalanced(n, VerdictAt(c, n, slot));
    PassVerdictNotes(n, VerdictAt(c, n, slot));
  }

  // In a slot whose epoch has its snapshot, judging is passing the verdict.
  lemma JudgeCovered(c: Primitives, n: Node, slot: nat)
    requires n.cfg.epochLength > 0 && HasSnapshot(n.snapshots, n.cfg.epochLength, slot)
    ensures JudgeSlot(c, n, slot) == PassVerdict(n, VerdictAt(c, n, slot))
  {
    hide PassVerdict, VerdictAt, TakeSnapshot;
  }

  lemma PassVerdictNotes(n: Node, j: Judgement)
    ensures PassVerdict(n, j).judged == n.judged + [j]
  {
    hide SlashPercent;
  }

  lemma VerdictIsJust(c: Primitives, n: Node, slot: nat)
    requires Inv(c, n) && slot > 0 && n.cfg.epochLength > 0 && HasSnapshot(n.snapshots, n.cfg.epochLength, slot)
    ensures Just(VerdictAt(c, n, slot), n.chain)
  {
    hide Inv, LeaderAt, CanonicalAt;
    if LeaderAt(c, n.snapshots, n.cfg.epochLength, slot) != GENESIS_NAME {
      ProducedByLeader(c, n, slot);
    }
  }

  // ------------------------------------------------------------ equivocation

  // Whoever produced another block of the slot before is convicted: the proof
  // names both blocks, the penalty takes stake or membership, a jail term
  // starts, and the record keeps the first block.
  lemma EquivocationPunished(n: Node, b: Block)
    requires Registry(n.validators) && Equivocates(n, b)
    ensures b.slot in n.slotProducers && b.validator in n.slotProducers[b.slot]
    ensures n.slotProducers[b.slot][b.validator] != b.hash
    ensures RegisterProducer(n, b).slotProducers == n.slotProducers
    ensures RegisterProducer(n, b).equivocations
         == n.equivocations + [EquivocationProof(b.slot, b.validator, n.slotProducers[b.slot][b.validator], b.hash)]
    ensures StatsOf(RegisterProducer(n, b).stats, b.validator).slashed
    ensures StatsOf(RegisterProducer(n, b).stats, b.validator).jailedUntilEpoch
      == b.slot / SLOTS_PER_EPOCH + JAIL_EPOCHS
    ensures if b.validator in n.validators
      then Loses(n.validators, RegisterProducer(n, b).validators, b.validator,
        ShareOf(n.validators[b.validator].stake, SLASH_PERCENT))
      else RegisterProducer(n, b).validators == n.validators
  {
    hide SlashPercent;
    SlashPercentKeeps(n.validators, b.validator, SLASH_PERCENT);
  }

  // Nobody else is, and the block goes on record.
  lemma FirstBlockRecorded(n: Node, b: Block)
    requires !Equivocates(n, b)
    ensures var m := RegisterProducer(n, b);
      && m.equivocations == n.equivocations && m.validators == n.validators && m.stats == n.stats
      && b.slot in m.slotProducers && b.validator in m.slotProducers[b.slot]
        && m.slotProducers[b.slot][b.validator] == b.hash
  {
    hide SlashPercent;
  }

  // ---------------------------------------------------------- a range of slots

  lemma {:induction false} JudgeUpToInv(c: Primitives, n: Node, target: nat)
    requires Inv(c, n) && n.cfg.epochLength > 0
    ensures var m := JudgeUpTo(c, n, target);
      Inv(c, m) && SameExceptVerdict(n, m) && Frozen(n.snapshots, m.snapshots)
    decreases target
  {
    hide Inv, JudgeSlot;
    if target > n.lastProcessed {
      JudgeUpToInv(c, n, target - 1);
      JudgeSlotInv(c, JudgeUpTo(c, n, target - 1), target);
    }
  }

  lemma {:induction false} JudgeUpToAccounts(c: Primitives, n: Node, target: nat)
    requires Inv(c, n) && Accounts(c, n) && n.lastProcessed <= target <= SlotOf(n.poh.tick)
    ensures var m := JudgeUpTo(c, n, target);
      && JudgedInOrder(m.judged, target) && Balanced(m.judged, m.stats)
      && JudgedLeaders(c, m.judged, m.snapshots, n.cfg.epochLength)
      && m.judged[..n.lastProcessed] == n.judged
      && (forall i :: n.lastProcessed <= i < target ==> Just(m.judged[i], n.chain))
    decreases target
  {
    hide Inv, JudgeSlot, VerdictAt, Just, Balanced, LeaderAt, Frozen, JudgedLeaders;
    if target > n.lastProcessed {
      JudgeUpToAccounts(c, n, target - 1);
      JudgeUpToInv(c, n, target - 1);
      var k := JudgeUpTo(c, n, target - 1);
      InvCovers(c, k, target);
      JudgeSlotAccounts(c, k, target);
      JudgeSlotInv(c, k, target);
      var m := JudgeSlot(c, k, target);
      var j := VerdictAt(c, k, target);
      OneMoreLeader(c, k.judged, j, k.snapshots, m.snapshots, n.cfg.epochLength);
    } else {
      assert n.judged[..n.lastProcessed] == n.judged;
    }
  }

  // All slots that the clock has passed have their snapshots already.
  lemma {:induction false} JudgeUpToCovered(c: Primitives, n: Node, target: nat)
    requires n.cfg.epochLength > 0 && Covered(n.snapshots, n.cfg.epochLength, n.poh.tick)
    requires target <= SlotOf(n.poh.tick)
    ensures JudgeUpTo(c, n, target).snapshots == n.snapshots
    decreases target
  {
    hide Covered, PassVerdict, VerdictAt;
    if target > n.lastProcessed {
      JudgeUpToCovered(c, n, target - 1);
      assert HasSnapshot(n.snapshots, n.cfg.epochLength, target) by {
        CoveredSlot(n.snapshots, n.cfg.epochLength, n.poh.tick, target);
      }
      JudgeCovered(c, JudgeUpTo(c, n, target - 1), target);
    }
  }

  lemma CoveredSlot(snaps: Snapshots, epochLength: nat, tick: nat, slot: nat)
    requires epochLength > 0 && Covered(snaps, epochLength, tick) && 1 <= slot <= SlotOf(tick)
    ensures HasSnapshot(snaps, epochLength, slot)
  {
  }

  lemma InvCovered(c: Primitives, n: Node)
    requires Inv(c, n)
    ensures n.cfg.epochLength > 0 && Covered(n.snapshots, n.cfg.epochLength, n.poh.tick)
  {
  }

  lemma InvCovers(c: Primitives, n: Node, slot: nat)
    requires Inv(c, n) && n.cfg.epochLength > 0 && 1 <= slot <= SlotOf(n.poh.tick)
    ensures HasSnapshot(n.snapshots, n.cfg.epochLength, slot)
  {
  }

  lemma LeaderStays(c: Primitives, snaps: Snapshots, after: Snapshots, epochLength: nat, slot: nat)
    requires epochLength > 0 && Frozen(snaps, after) && HasSnapshot(snaps, epochLength, slot)
    ensures HasSnapshot(after, epochLength, slot)
    ensures LeaderAt(c, after, epochLength, slot) == LeaderAt(c, snaps, epochLength, slot)
  {
  }

  lemma OneMoreLeader(c: Primitives, js: seq<Judgement>, j: Judgement, snaps: Snapshots, after: Snapshots,
                      epochLength: nat)
    requires epochLength > 0 && Frozen(snaps, after) && JudgedLeaders(c, js, snaps, epochLength)
    requires HasSnapshot(snaps, epochLength, j.slot) && j.leader == LeaderAt(c, snaps, epochLength, j.slot)
    ensures JudgedLeaders(c, js + [j], after, epochLength)
  {
    hide LeaderAt;
    var all := js + [j];
    forall i | 0 <= i < |all|
      ensures HasSnapshot(after, epochLength, all[i].slot)
      ensures all[i].leader == LeaderAt(c, after, epochLength, all[i].slot)
    {
      LeaderStays(c, snaps, after, epochLength, all[i].slot);
    }
  }

  // processMissedSlots up to the slot of the tip: the accounts stay balanced,
  // and each verdict passed is right for the chain that is canonical now.
  lemma ProcessMissedKeeps(c: Primitives, n: Node, target: nat)
    requires Inv(c, n) && Accounts(c, n) && target <= SlotOf(n.poh.tick)
    ensures var m := ProcessMissed(c, n, target);
      && Inv(c, m) && Accounts(c, m)
      && m.lastProcessed == (if target < n.lastProcessed then n.lastProcessed else target)
      && m == n.(validators := m.validators, stats := m.stats, snapshots := m.snapshots, judged := m.judged,
        lastProcessed := m.lastProcessed)
      && m.snapshots == n.snapshots
      && n.judged <= m.judged
      && (forall i :: n.lastProcessed <= i < |m.judged| ==> Just(m.judged[i], n.chain))
  {
    hide TreeInv, JudgeUpTo, Just, Balanced, LeaderAt, SlotMap, Mempool.Consistent, CleanRecord;
    if target > n.lastProcessed {
      JudgeUpToInv(c, n, target);
      JudgeUpToAccounts(c, n, target);
      JudgeUpToCovered(c, n, target) by { InvCovered(c, n); }
      var k := JudgeUpTo(c, n, target);
      InvRegistry(c, k);
      TreeFree(c, k, k.(lastProcessed := target));
    } else {
      assert n.judged[..n.lastProcessed] == n.judged;
    }
  }
}
