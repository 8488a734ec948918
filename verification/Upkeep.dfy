// Sanity, the part of the invariant that the code itself relies on, is kept by
// every operation, whatever the callers do: it needs none of the hypotheses but
// fresh hashes.
module Upkeep {
  import opened Domain
  import opened Crypto
  import opened Stake
  import opened Tree
  import opened Storage
  import opened Engine

  // Fields that sanity does not read, and a registry that is in order.
  ghost predicate SaneFields(n: Node, m: Node) {
    && m.cfg == n.cfg && m.chain == n.chain && m.blocks == n.blocks && m.parents == n.parents && m.tip == n.tip
    && m.poh == n.poh && m.snapshots == n.snapshots && Registry(m.validators)
  }

  lemma SaneFree(n: Node, m: Node)
    requires Sane(n) && SaneFields(n, m)
    ensures Sane(m)
  {
    hide Path, IsTree, Clocked, Covered, Registry;
  }

  lemma SlashLeaderSane(n: Node, leader: string)
    requires Sane(n)
    ensures Sane(SlashLeader(n, leader))
  {
    hide Sane, Slash;
    SaneRegistry(n);
    SlashKeeps(n.validators, leader, SLASH_PENALTY);
    SaneFree(n, SlashLeader(n, leader));
  }

  lemma SaveSane(n: Node, b: Block, io: WriteOutcome)
    requires Sane(n)
    ensures Sane(Save(n, b, io))
  {
    hide Sane, SaveBlock;
    SaneRegistry(n);
    SaneFree(n, Save(n, b, io));
  }

  lemma AdoptSane(c: Primitives, n: Node, h: string)
    requires Sane(n) && h in n.blocks
    ensures Sane(Adopt(c, n, h))
  {
    hide Path, IsTree, Clocked, Covered, Registry, Replay, SlotMap;
  }

  lemma UpdateCanonicalSane(c: Primitives, n: Node, h: string)
    requires Sane(n) && h in n.blocks
    ensures Sane(UpdateCanonical(c, n, h))
  {
    hide Sane, Adopt, Adopts, TakeSnapshot;
    EnsureSnapshotSane(n, 0);
    AdoptSane(c, EnsureSnapshot(n, 0), h);
  }

  lemma RewardSane(n: Node, name: string)
    requires Sane(n)
    ensures Sane(n.(validators := Reward(n.validators, name)))
  {
    hide Sane;
    SaneRegistry(n);
    SaneFree(n, n.(validators := Reward(n.validators, name)));
  }

  lemma JudgeSlotSane(c: Primitives, n: Node, slot: nat)
    requires Sane(n) && n.cfg.epochLength > 0
    ensures Sane(JudgeSlot(c, n, slot))
  {
    hide Sane, VerdictAt, PassVerdict, EnsureSnapshot;
    var n1 := EnsureSnapshot(n, slot / n.cfg.epochLength);
    EnsureSnapshotSane(n, slot / n.cfg.epochLength);
    PassVerdictSane(n1, VerdictAt(c, n1, slot));
  }

  lemma PassVerdictSane(n: Node, j: Judgement)
    requires Sane(n)
    ensures Sane(PassVerdict(n, j))
  {
    hide Sane, SlashPercent, Registry;
    SaneRegistry(n);
    SlashPercentKeeps(n.validators, j.leader, SLASH_PERCENT);
    SaneFree(n, PassVerdict(n, j));
  }

  lemma {:induction false} JudgeUpToSane(c: Primitives, n: Node, target: nat)
    requires Sane(n) && n.cfg.epochLength > 0
    ensures Sane(JudgeUpTo(c, n, target))
    decreases target
  {
    hide Sane, JudgeSlot;
    if target > n.lastProcessed {
      JudgeUpToSane(c, n, target - 1);
      JudgeSlotSane(c, JudgeUpTo(c, n, target - 1), target);
    }
  }

  lemma ProcessMissedSane(c: Primitives, n: Node, target: nat)
    requires Sane(n) && n.cfg.epochLength > 0
    ensures Sane(ProcessMissed(c, n, target))
  {
    hide Sane, JudgeUpTo;
    JudgeUpToSane(c, n, target);
    var k := JudgeUpTo(c, n, target);
    SaneRegistry(k);
    SaneFree(k, k.(lastProcessed := target));
  }

  lemma AddValidatorSane(n: Node, name: string, stake: int, pubKey: string, key: Option<PrivateKey>)
    requires Sane(n)
    ensures Sane(AddValidator(n, name, stake, pubKey, key))
  {
    hide Sane, Register;
    SaneRegistry(n);
    RegisterKeeps(n.validators, name, stake, pubKey, key);
    SaneFree(n, AddValidator(n, name, stake, pubKey, key));
  }

  // What AddBlock hands on to the building of the block.
  lemma FreshBuild(c: Primitives, n: Node, txs: seq<Transaction>, entropy: nat)
    requires Sane(n) && AddBlockFresh(c, n, txs, entropy)
    ensures var n1 := StartSlot(c, n);
      n1.cfg.epochLength > 0 && n.tip in n.blocks &&
      BuildFresh(c, TakeBody(c, n1, txs), n.blocks[n.tip], Ok(n.state), CurrentLeader(c, n1), Body(c, n1, txs), entropy)
  {
    hide Sane, BuildFresh, TakeBody, CurrentLeader, Body, StartSlot, Path, IsTree;
    SaneTree(n);
    StartSlotSane(c, n);
  }

  lemma FreshExternal(c: Primitives, n: Node, prevHash: string, txs: seq<Transaction>, entropy: nat)
    requires Sane(n) && AddBlockExternalFresh(c, n, prevHash, txs, entropy) && prevHash in n.blocks
    ensures var n1 := StartSlot(c, n);
      n1.cfg.epochLength > 0 && n.blocks[prevHash].hash == prevHash &&
      BuildFresh(c, n1, n.blocks[prevHash], StateAtTip(c, n, prevHash), CurrentLeader(c, n1), txs, entropy)
  {
    hide BuildFresh, CurrentLeader, StartSlot, Path, StateAtTip, Registry, Clocked, Covered;
    StartSlotSane(c, n);
  }
}
