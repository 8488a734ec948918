// consensus/pos.go: the validator registry, jailing, and the leader lottery.
module Stake {
  import opened Domain
  import opened Text
  import opened Sums
  import opened Crypto

  const MIN_STAKE: int := 10
  const BLOCK_REWARD: int := 1
  const SLASH_PENALTY: int := 5
  const SLASH_PERCENT: int := 2
  const MAX_MISSED_SLOTS: nat := 3
  const SLOTS_PER_EPOCH: nat := 50
  const JAIL_EPOCHS: nat := 2

  type Validators = map<string, Validator>
  type Stats = map<string, ValidatorStats>

  const NO_STATS := ValidatorStats(0, 0, false)

  datatype StakeError =
    | NameRequired
    | StakeNotPositive
    | PubKeyRequired
    | StakeBelowMinimum
    | ValidatorNotFound
    | UnstakeExceedsStake

  // ---------------------------------------------------------------- registry

  // What every operation keeps: who is registered holds the minimum stake and
  // can be identified.
  ghost predicate Registry(vs: Validators) {
    forall n :: n in vs ==> vs[n].name == n && n != "" && vs[n].stake >= MIN_STAKE && vs[n].pubKey != ""
  }

  // And what none of them does: give a registered validator another key.
  ghost predicate KeysKept(vs: Validators, ws: Validators) {
    forall n :: n in vs && n in ws ==> vs[n].pubKey == ws[n].pubKey
  }

  // Nobody has been added or given another key.
  ghost predicate Narrows(vs: Validators, ws: Validators) {
    forall n :: n in ws ==> n in vs && ws[n].pubKey == vs[n].pubKey
  }

  function CheckRegistration(vs: Validators, name: string, stake: int, pubKey: string): Option<StakeError> {
    if name == "" then Some(NameRequired)
    else if stake <= 0 then Some(StakeNotPositive)
    else if pubKey == "" then Some(PubKeyRequired)
    else if name !in vs && stake < MIN_STAKE then Some(StakeBelowMinimum)
    else None
  }

  function Register(vs: Validators, name: string, stake: int, pubKey: string, key: Option<PrivateKey>): Validators {
    if CheckRegistration(vs, name, stake, pubKey).Some? then vs
    else if name !in vs then vs[name := Validator(name, stake, pubKey, key)]
    else
      var v := vs[name];
      vs[name := v.(
        stake := v.stake + stake,
        pubKey := if v.pubKey == "" then pubKey else v.pubKey,
        privKey := if v.privKey.None? then key else v.privKey)]
  }

  function RegisterStats(vs: Validators, stats: Stats, name: string, stake: int, pubKey: string): Stats {
    if CheckRegistration(vs, name, stake, pubKey).None? && name !in vs && name !in stats
    then stats[name := NO_STATS]
    else stats
  }

  function Reward(vs: Validators, name: string): (ws: Validators)
    ensures Narrows(vs, ws)
  {
    if name in vs then vs[name := vs[name].(stake := vs[name].stake + BLOCK_REWARD)] else vs
  }

  function Slash(vs: Validators, name: string, amount: int): (ws: Validators)
    ensures Narrows(vs, ws)
  {
    if amount <= 0 || name !in vs then vs
    else if vs[name].stake - amount < MIN_STAKE then vs - {name}
    else vs[name := vs[name].(stake := vs[name].stake - amount)]
  }

  function SlashPercent(vs: Validators, name: string, percent: int): (ws: Validators)
    ensures Narrows(vs, ws)
  {
    if percent <= 0 || name !in vs then vs
    else
      var amount := vs[name].stake * percent / 100;
      Slash(vs, name, if amount == 0 then 1 else amount)
  }

  lemma RegisterKeeps(vs: Validators, name: string, stake: int, pubKey: string, key: Option<PrivateKey>)
    requires Registry(vs)
    ensures var ws := Register(vs, name, stake, pubKey, key);
      && Registry(ws) && KeysKept(vs, ws) && vs.Keys <= ws.Keys <= vs.Keys + {name}
      && (forall n :: n in vs && n != name ==> ws[n] == vs[n])
      && (if name == "" || stake <= 0 || pubKey == "" || (name !in vs && stake < MIN_STAKE) then ws == vs
          else if name !in vs then name in ws && ws[name] == Validator(name, stake, pubKey, key)
          else
            && ws[name].stake == vs[name].stake + stake
            && (vs[name].privKey.Some? ==> ws[name].privKey == vs[name].privKey)
            && (vs[name].privKey.None? ==> ws[name].privKey == key))
  {
  }

  // A reward is for the producer alone.
  lemma RewardKeeps(vs: Validators, name: string)
    requires Registry(vs)
    ensures var ws := Reward(vs, name);
      && Registry(ws) && KeysKept(vs, ws) && ws.Keys == vs.Keys
      && (forall n :: n in vs ==> ws[n].stake == vs[n].stake + if n == name then BLOCK_REWARD else 0)
  {
  }

  // One validator has this much less stake, or is gone because less than the
  // minimum would remain; nothing else changes.
  ghost predicate Loses(vs: Validators, ws: Validators, name: string, amount: int) {
    && name in vs && (forall n :: n != name ==> (n in ws <==> n in vs) && (n in vs ==> ws[n] == vs[n]))
    && (name in ws <==> vs[name].stake - amount >= MIN_STAKE)
    && (name in ws ==> ws[name] == vs[name].(stake := vs[name].stake - amount))
  }

  // It loses that much if it is registered.
  ghost predicate Fined(vs: Validators, ws: Validators, name: string, amount: int) {
    if name in vs then Loses(vs, ws, name, amount) else ws == vs
  }

  // A slash takes the amount. A registered validator leaves by it exactly when
  // less than the minimum would remain; nobody else is touched, and no key
  // changes.
  lemma SlashKeeps(vs: Validators, name: string, amount: int)
    requires Registry(vs)
    ensures var ws := Slash(vs, name, amount);
      && Registry(ws) && KeysKept(vs, ws)
      && (forall n :: n != name ==> (n in ws <==> n in vs) && (n in vs ==> ws[n] == vs[n]))
      && (name in ws <==> name in vs && (amount > 0 ==> vs[name].stake - amount >= MIN_STAKE))
      && (if amount > 0 then Fined(vs, ws, name, amount) else ws == vs)
  {
  }

  // A share of a stake in percent, rounded down, and 1 at least.
  function ShareOf(stake: int, percent: int): int {
    if 100 <= stake * percent then stake * percent / 100 else 1
  }

  lemma SlashPercentKeeps(vs: Validators, name: string, percent: int)
    requires Registry(vs)
    ensures var ws := SlashPercent(vs, name, percent);
      && Registry(ws) && KeysKept(vs, ws) && ws.Keys <= vs.Keys
      && (name in vs && percent > 0 ==> name !in ws || ws[name].stake < vs[name].stake)
      && (if percent > 0 && name in vs then Loses(vs, ws, name, ShareOf(vs[name].stake, percent)) else ws == vs)
  {
    if percent > 0 && name in vs {
      var amount := vs[name].stake * percent / 100;
      SlashKeeps(vs, name, if amount == 0 then 1 else amount);
      assert vs[name].stake * percent >= 0;
    }
  }

  // The maps that the functions of consensus/pos.go update in place.
  class ValidatorRegistry {
    var validators: Validators
    var stats: Stats

    constructor ()
      ensures validators == map[] && stats == map[]
    {
      validators, stats := map[], map[];
    }

    ghost predicate Valid()
      reads this
    {
      Registry(validators)
    }

    method AddValidator(name: string, stake: int, pubKey: string, key: Option<PrivateKey>)
      returns (e: Option<StakeError>)
      modifies this
      ensures e == CheckRegistration(old(validators), name, stake, pubKey)
      ensures validators == Register(old(validators), name, stake, pubKey, key)
      ensures stats == RegisterStats(old(validators), old(stats), name, stake, pubKey)
    {
      if name == "" { return Some(NameRequired); }
      if stake <= 0 { return Some(StakeNotPositive); }
      if pubKey == "" { return Some(PubKeyRequired); }
      if name !in validators {
        if stake < MIN_STAKE { return Some(StakeBelowMinimum); }
        validators := validators[name := Validator(name, stake, pubKey, key)];
        if name !in stats {
          stats := stats[name := NO_STATS];
        }
        return None;
      }
      var v := validators[name];
      v := v.(stake := v.stake + stake);
      if v.pubKey == "" { v := v.(pubKey := pubKey); }
      if v.privKey == None { v := v.(privKey := key); }
      validators := validators[name := v];
      return None;
    }

    method AddStake(name: string, amount: int) returns (e: Option<StakeError>)
      requires Valid()
      modifies this`validators
      ensures Valid() && KeysKept(old(validators), validators)
      ensures e == if amount <= 0 then Some(StakeNotPositive) else if name !in old(validators)
        then Some(ValidatorNotFound) else None
      ensures e.Some? ==> validators == old(validators)
      ensures e.None? ==> name in validators && validators - {name} == old(validators) - {name}
      ensures e.None? ==> validators[name].stake - amount == old(validators)[name].stake
    {
      if amount <= 0 { return Some(StakeNotPositive); }
      if name !in validators { return Some(ValidatorNotFound); }
      validators := validators[name := validators[name].(stake := validators[name].stake + amount)];
      return None;
    }

    // Stake can be taken out as long as all of it or the minimum remains.
    method Unstake(name: string, amount: int) returns (e: Option<StakeError>)
      requires Valid()
      modifies this`validators
      ensures Valid() && KeysKept(old(validators), validators)
      ensures e.Some? ==> validators == old(validators)
      ensures e.None? <==>
        && amount > 0 && name in old(validators)
        && (amount == old(validators)[name].stake || amount <= old(validators)[name].stake - MIN_STAKE)
      ensures e.None? ==> validators - {name} == old(validators) - {name}
      ensures e.None? ==>
        if name in validators then validators[name].stake + amount == old(validators)[name].stake
        else amount == old(validators)[name].stake
    {
      if amount <= 0 { return Some(StakeNotPositive); }
      if name !in validators { return Some(ValidatorNotFound); }
      var v := validators[name];
      if amount > v.stake { return Some(UnstakeExceedsStake); }
      var newStake := v.stake - amount;
      if newStake > 0 && newStake < MIN_STAKE { return Some(StakeBelowMinimum); }
      if newStake == 0 {
        validators := validators - {name};
        return None;
      }
      validators := validators[name := v.(stake := newStake)];
      return None;
    }

    method RewardValidator(name: string)
      modifies this`validators
      ensures validators == Reward(old(validators), name)
    {
      if name in validators {
        validators := validators[name := validators[name].(stake := validators[name].stake + BLOCK_REWARD)];
      }
    }

    method SlashValidator(name: string, amount: int)
      modifies this`validators
      ensures validators == Slash(old(validators), name, amount)
    {
      if amount <= 0 { return; }
      if name !in validators { return; }
      if amount >= validators[name].stake {
        validators := validators - {name};
        return;
      }
      validators := validators[name := validators[name].(stake := validators[name].stake - amount)];
      if validators[name].stake < MIN_STAKE {
        validators := validators - {name};
      }
    }

    method SlashValidatorPercent(name: string, percent: int)
      modifies this`validators
      ensures validators == SlashPercent(old(validators), name, percent)
    {
      if percent <= 0 { return; }
      if name !in validators { return; }
      var amount := validators[name].stake * percent / 100;
      if amount == 0 { amount := 1; }
      SlashValidator(name, amount);
    }
  }

  // -------------------------------------------------------- epoch snapshots

  predicate IsJailed(stats: Stats, name: string, slot: nat) {
    name in stats && slot / SLOTS_PER_EPOCH < stats[name].jailedUntilEpoch
  }

  predicate IsActive(vs: Validators, stats: Stats, name: string, slot: nat) {
    name in vs && vs[name].stake >= MIN_STAKE && !IsJailed(stats, vs[name].name, slot)
  }

  datatype EpochSnapshot = EpochSnapshot(epoch: nat, totalStake: nat, validators: map<string, nat>)

  // A snapshot as it should be: the minimum stake for each, and their total.
  ghost predicate GoodSnapshot(s: EpochSnapshot) {
    && s.totalStake == Sum(s.validators)
    && forall n :: n in s.validators ==> n != "" && s.validators[n] >= MIN_STAKE
  }

  ghost function TakeSnapshot(vs: Validators, stats: Stats, epoch: nat, epochLength: nat): EpochSnapshot {
    var active := map n | n in vs && IsActive(vs, stats, n, epoch * epochLength) :: vs[n].stake as nat;
    SumNonNegative(active);
    EpochSnapshot(epoch, Sum(active), active)
  }

  // Go iterates over the registry in any order.
  method BuildSnapshot(vs: Validators, stats: Stats, epoch: nat, epochLength: nat) returns (s: EpochSnapshot)
    requires Registry(vs)
    ensures s == TakeSnapshot(vs, stats, epoch, epochLength)
  {
    var epochSlot := epoch * epochLength;
    var chosen: map<string, nat>, total: nat := map[], 0;
    var todo := vs.Keys;
    while todo != {}
      invariant todo <= vs.Keys
      invariant chosen == map n | n in vs.Keys - todo && IsActive(vs, stats, n, epochSlot) :: vs[n].stake as nat
      invariant total == Sum(chosen)
      decreases todo
    {
      var n :| n in todo;
      todo := todo - {n};
      var v := vs[n];
      if v.stake < MIN_STAKE { continue; }
      if IsJailed(stats, v.name, epochSlot) { continue; }
      SumUpdate(chosen, n, v.stake);
      chosen := chosen[v.name := v.stake];
      total := total + v.stake;
    }
    assert vs.Keys - todo == vs.Keys;
    s := EpochSnapshot(epoch, total, chosen);
  }

  lemma TakeSnapshotGood(vs: Validators, stats: Stats, epoch: nat, epochLength: nat)
    requires Registry(vs)
    ensures GoodSnapshot(TakeSnapshot(vs, stats, epoch, epochLength))
    ensures var taken := TakeSnapshot(vs, stats, epoch, epochLength).validators;
      forall n :: n in taken <==> n in vs && !IsJailed(stats, n, epoch * epochLength)
  {
  }

  // ------------------------------------------------------------------ lottery

  function LittleEndian(n: nat, width: nat): (s: string)
    ensures |s| == width && Bytes(s)
  {
    if width == 0 then "" else [(n % 256) as char] + LittleEndian(n / 256, width - 1)
  }

  function LittleEndianValue(s: string): (n: nat)
    requires Bytes(s)
  {
    if s == "" then 0 else s[0] as int + 256 * LittleEndianValue(s[1..])
  }

  // 256 to the power of a width.
  function Bound(width: nat): (b: nat)
    ensures b > 0
  {
    if width == 0 then 1 else 256 * Bound(width - 1)
  }

  // Text and number determine each other, and byte i counts the multiples of
  // 256^i.
  lemma {:induction false} LittleEndianDenotes(n: nat, width: nat)
    requires n < Bound(width)
    ensures LittleEndianValue(LittleEndian(n, width)) == n
  {
    if width > 0 {
      LittleEndianDenotes(n / 256, width - 1);
      var s := LittleEndian(n, width);
      assert s[1..] == LittleEndian(n / 256, width - 1);
    }
  }

  lemma {:induction false} LittleEndianWrites(s: string)
    requires Bytes(s)
    ensures LittleEndianValue(s) < Bound(|s|) && LittleEndian(LittleEndianValue(s), |s|) == s
  {
    if s != "" {
      assert Bytes(s[1..]);
      LittleEndianWrites(s[1..]);
      assert s == [s[0]] + s[1..];
      assert LittleEndianValue(s) / 256 == LittleEndianValue(s[1..]);
    }
  }

  lemma {:induction false} LittleEndianByte(n: nat, width: nat, i: nat)
    requires i < width
    ensures LittleEndian(n, width)[i] as int == n / Bound(i) % 256
  {
    if i > 0 {
      LittleEndianByte(n / 256, width - 1, i - 1);
      DivTwice(n, Bound(i - 1));
    }
  }

  lemma DivTwice(n: nat, b: nat)
    requires b > 0
    ensures n / 256 / b == n / (256 * b)
  {
    var q, r := n / (256 * b), n % (256 * b);
    assert n == 256 * b * q + r;
    assert n / 256 == b * q + r / 256;
    assert 0 <= r / 256 < b;
    DivExact(b, q, r / 256);
  }

  lemma DivExact(b: nat, q: nat, r: nat)
    requires r < b
    ensures (b * q + r) / b == q
  {
    var x := b * q + r;
    var e := x / b - q;
    assert b * (x / b) + x % b == b * q + r;
    assert b * e == b * (x / b) - b * q;
    Scaled(b, e);
  }

  lemma Scaled(b: nat, e: int)
    ensures e >= 1 ==> b * e >= b
    ensures e <= -1 ==> b * e + b <= 0
  {
  }

  // The 64-bit word a slot's hash gives.
  function DrawWord(c: Primitives, slot: nat): Uint64 {
    WrapUint64(LittleEndianValue(c.sha256(LittleEndian(slot, 8))[..8]))
  }

  function DeterministicDraw(c: Primitives, slot: nat, max: Int64): Int64
    requires max != 0
  {
    WrapInt64(DrawWord(c, slot) % WrapUint64(max))
  }

  // The first name whose running sum passes the draw.
  function PickFrom(names: seq<string>, stakes: map<string, nat>, running: Uint64, draw: Uint64): string
    requires forall n :: n in names ==> n in stakes
  {
    if names == [] then GENESIS_NAME
    else
      var next := WrapUint64(running + stakes[names[0]]);
      if draw < next then names[0] else PickFrom(names[1..], stakes, next, draw)
  }

  ghost function LeaderFromSnapshot(c: Primitives, slot: nat, stakes: map<string, nat>): string {
    var total := WrapUint64(Sum(stakes));
    if total == 0 then GENESIS_NAME
    else PickFrom(SortedKeys(stakes.Keys), stakes, 0, WrapUint64(DeterministicDraw(c, slot, WrapInt64(total))))
  }

  method SumStakes(stakes: map<string, nat>) returns (totalStake: Uint64)
    ensures totalStake == WrapUint64(Sum(stakes))
  {
    totalStake := 0;
    var todo := stakes.Keys;
    ghost var seen: map<string, int> := map[];
    while todo != {}
      invariant todo <= stakes.Keys
      invariant seen == map n | n in stakes.Keys - todo :: stakes[n]
      invariant totalStake == WrapUint64(Sum(seen))
      decreases todo
    {
      var n :| n in todo;
      todo := todo - {n};
      SumUpdate(seen, n, stakes[n]);
      seen := seen[n := stakes[n]];
      totalStake := WrapUint64(totalStake + stakes[n]);
    }
    assert seen == stakes;
  }

  method PickLeader(c: Primitives, slot: nat, stakes: map<string, nat>) returns (leader: string)
    ensures leader == LeaderFromSnapshot(c, slot, stakes)
  {
    hide WrapUint64, WrapInt64, DrawWord, SortedKeys, Sorted;
    var totalStake := SumStakes(stakes);
    if totalStake == 0 {
      return GENESIS_NAME;
    }
    ThereAndBack(totalStake);
    var draw := DeterministicDraw(c, slot, WrapInt64(totalStake));
    var names := SortedKeys(stakes.Keys);
    var running: Uint64 := 0;
    for i := 0 to |names|
      invariant PickFrom(names, stakes, 0, WrapUint64(draw)) == PickFrom(names[i..], stakes, running, WrapUint64(draw))
    {
      assert names[i..][1..] == names[i + 1..];
      running := WrapUint64(running + stakes[names[i]]);
      if WrapUint64(draw) < running {
        return names[i];
      }
    }
    leader := GENESIS_NAME;
  }

  // ------------------------------------------- the lottery is proportional

  function SumOver(names: seq<string>, stakes: map<string, nat>): nat
    requires forall n :: n in names ==> n in stakes
  {
    if names == [] then 0 else stakes[names[0]] + SumOver(names[1..], stakes)
  }

  // The stake listed before a name.
  function Before(names: seq<string>, stakes: map<string, nat>, name: string): nat
    requires forall n :: n in names ==> n in stakes
  {
    if names == [] || names[0] == name then 0 else stakes[names[0]] + Before(names[1..], stakes, name)
  }

  lemma {:induction false} SumOverListing(names: seq<string>, keys: set<string>, stakes: map<string, nat>)
    requires Lists(names, keys) && keys <= stakes.Keys
    ensures SumOver(names, stakes) == Sum(map n | n in keys :: stakes[n])
  {
    var m: map<string, int> := map n | n in keys :: stakes[n];
    if names == [] {
      assert m == map[];
    } else {
      assert names[0] in names;
      SumSplit(m, names[0]);
      ListsTail(names, keys);
      SumOverListing(names[1..], keys - {names[0]}, stakes);
      assert m - {names[0]} == map n | n in keys - {names[0]} :: stakes[n];
    }
  }

  // Each name owns an interval of draws as long as its stake.
  lemma {:induction false} PickInterval(names: seq<string>, stakes: map<string, nat>, running: Uint64, name: string,
                                        draw: Uint64)
    requires Sorted(names) && forall n :: n in names ==> n in stakes
    requires name in names
    requires running <= draw < running + SumOver(names, stakes) <= MAX_UINT64
    ensures PickFrom(names, stakes, running, draw) == name <==>
      running + Before(names, stakes, name) <= draw < running + Before(names, stakes, name) + stakes[name]
  {
    var next := running + stakes[names[0]];
    var rest := names[1..];
    if draw >= next {
      assert Sorted(rest);
      if name == names[0] {
        PickMember(rest, stakes, next, draw);
        forall n | n in rest ensures n != name {
          var i :| 0 <= i < |rest| && rest[i] == n;
          assert names[i + 1] == n && Less(names[0], names[i + 1]);
          LessIrreflexive(name);
        }
      } else {
        PickInterval(rest, stakes, next, name, draw);
      }
    }
  }

  lemma {:induction false} PickMember(names: seq<string>, stakes: map<string, nat>, running: Uint64, draw: Uint64)
    requires forall n :: n in names ==> n in stakes
    requires running <= draw < running + SumOver(names, stakes) <= MAX_UINT64
    ensures PickFrom(names, stakes, running, draw) in names
    ensures stakes[PickFrom(names, stakes, running, draw)] > 0
  {
    var next := running + stakes[names[0]];
    if draw >= next {
      PickMember(names[1..], stakes, next, draw);
    }
  }

  // A leader is either the fallback or a name of the snapshot, even when the
  // sums wrap around.
  lemma {:induction false} PickFromListed(names: seq<string>, stakes: map<string, nat>, running: Uint64, draw: Uint64)
    requires forall n :: n in names ==> n in stakes
    ensures var n := PickFrom(names, stakes, running, draw); n == GENESIS_NAME || n in stakes
  {
    if names != [] {
      PickFromListed(names[1..], stakes, WrapUint64(running + stakes[names[0]]), draw);
    }
  }

  lemma LeaderListed(c: Primitives, slot: nat, stakes: map<string, nat>)
    ensures var n := LeaderFromSnapshot(c, slot, stakes); n == GENESIS_NAME || n in stakes
  {
    var total := WrapUint64(Sum(stakes));
    if total != 0 {
      PickFromListed(SortedKeys(stakes.Keys), stakes, 0, WrapUint64(DeterministicDraw(c, slot, WrapInt64(total))));
    }
  }

  // The conversions to int and back do nothing, whatever the total.
  lemma CastsHarmless(c: Primitives, slot: nat, total: Uint64)
    requires total > 0
    ensures WrapUint64(DeterministicDraw(c, slot, WrapInt64(total))) == DrawWord(c, slot) % total
  {
    hide DrawWord;
    ThereAndBack(total);
    ThereAndBack(DrawWord(c, slot) % total);
  }

  lemma ThereAndBack(n: Uint64)
    ensures WrapUint64(WrapInt64(n)) == n
    ensures n > 0 ==> WrapInt64(n) != 0
  {
  }

  // A non-empty total always yields a leader with stake.
  lemma LeaderHasStake(c: Primitives, slot: nat, stakes: map<string, nat>)
    requires 0 < Sum(stakes) <= MAX_UINT64
    ensures var n := LeaderFromSnapshot(c, slot, stakes); n in stakes && stakes[n] > 0
  {
    var names := SortedKeys(stakes.Keys);
    SumOverListing(names, stakes.Keys, stakes);
    assert stakes == map n | n in stakes.Keys :: stakes[n];
    CastsHarmless(c, slot, Sum(stakes));
    PickMember(names, stakes, 0, DrawWord(c, slot) % Sum(stakes));
  }

  // The stakes of these names that come before one of them.
  ghost function Below(keys: set<string>, stakes: map<string, nat>, name: string): map<string, int>
    requires keys <= stakes.Keys
  {
    map n | n in keys && Less(n, name) :: stakes[n]
  }

  lemma {:induction false} BeforeIsBelow(names: seq<string>, keys: set<string>, stakes: map<string, nat>, name: string)
    requires Lists(names, keys) && keys <= stakes.Keys && name in keys
    ensures Before(names, stakes, name) == Sum(Below(keys, stakes, name))
  {
    hide Sum, Less, Sorted;
    assert names[0] in keys by { assert name in names; assert names[0] in names; }
    if names[0] == name {
      BelowFirst(names, keys, stakes);
      SumOfNone();
    } else {
      ListsTail(names, keys);
      BeforeIsBelow(names[1..], keys - {names[0]}, stakes, name);
      BelowOthers(names, keys, name);
      BelowSplit(keys, stakes, name, names[0]);
    }
  }

  lemma BelowFirst(names: seq<string>, keys: set<string>, stakes: map<string, nat>)
    requires Lists(names, keys) && keys <= stakes.Keys && names != []
    ensures Below(keys, stakes, names[0]) == map[]
  {
    hide Less, Lists;
    forall n | n in keys ensures !Less(n, names[0]) {
      NotBelowFirst(names, keys, n);
    }
  }

  lemma BelowSplit(keys: set<string>, stakes: map<string, nat>, name: string, first: string)
    requires keys <= stakes.Keys && first in keys && Less(first, name)
    ensures Sum(Below(keys, stakes, name)) == stakes[first] + Sum(Below(keys - {first}, stakes, name))
  {
    hide Less, Sum;
    SumSplit(Below(keys, stakes, name), first);
    assert Below(keys, stakes, name) - {first} == Below(keys - {first}, stakes, name);
  }

  lemma NotBelowFirst(names: seq<string>, keys: set<string>, n: string)
    requires Lists(names, keys) && n in keys && names != []
    ensures !Less(n, names[0])
  {
    var i :| 0 <= i < |names| && names[i] == n;
    LessIrreflexive(n);
    if i > 0 && Less(n, names[0]) {
      LessTransitive(n, names[0], n);
    }
  }

  lemma BelowOthers(names: seq<string>, keys: set<string>, name: string)
    requires Lists(names, keys) && name in keys && names != [] && name != names[0]
    ensures Less(names[0], name)
  {
    var i :| 0 <= i < |names| && names[i] == name;
  }

  // Who leads a slot. Let m be the slot as eight bytes, the low one first, and x
  // the number whose eight bytes, the low one first, begin the hash of m. The
  // leader is the name in whose stretch of the stakes, laid end to end in the order
  // of the names, x modulo their total lies.
  lemma LeaderOfSlot(c: Primitives, slot: nat, stakes: map<string, nat>, name: string, m: string, x: nat)
    requires 0 < Sum(stakes) <= MAX_UINT64 && name in stakes
    requires |m| == 8 && Bytes(m) && LittleEndianValue(m) == slot
    requires x < TWO_64 && LittleEndian(x, 8) == c.sha256(m)[..8]
    ensures var start := Sum(Below(stakes.Keys, stakes, name));
      LeaderFromSnapshot(c, slot, stakes) == name <==> start <= x % Sum(stakes) < start + stakes[name]
  {
    hide *;
    WordOfSlot(c, slot, m, x);
    WinnerOfDraw(c, slot, stakes, name);
  }

  lemma WinnerOfDraw(c: Primitives, slot: nat, stakes: map<string, nat>, name: string)
    requires 0 < Sum(stakes) <= MAX_UINT64 && name in stakes
    ensures var start := Sum(Below(stakes.Keys, stakes, name));
      LeaderFromSnapshot(c, slot, stakes) == name <==>
      start <= DrawWord(c, slot) % Sum(stakes) < start + stakes[name]
  {
    hide Sum, SortedKeys, Before, SumOver, PickFrom, Less, Sorted, DrawWord, Below;
    var names, total := SortedKeys(stakes.Keys), Sum(stakes);
    SumOverListing(names, stakes.Keys, stakes);
    assert stakes == map n | n in stakes.Keys :: stakes[n];
    CastsHarmless(c, slot, total);
    PickInterval(names, stakes, 0, name, DrawWord(c, slot) % total);
    BeforeIsBelow(names, stakes.Keys, stakes, name);
  }

  lemma WordOfSlot(c: Primitives, slot: nat, m: string, x: nat)
    requires |m| == 8 && Bytes(m) && LittleEndianValue(m) == slot
    requires x < TWO_64 && LittleEndian(x, 8) == c.sha256(m)[..8]
    ensures DrawWord(c, slot) == x
  {
    hide LittleEndian, LittleEndianValue;
    LittleEndianWrites(m);
    assert Bound(8) == TWO_64 by { BoundEight(); }
    LittleEndianDenotes(x, 8);
  }

  lemma BoundEight()
    ensures Bound(8) == TWO_64
  {
    assert Bound(4) == 0x1_0000_0000;
  }

  ghost function Interval(lo: int, hi: int): (s: set<int>)
    requires lo <= hi
    ensures forall d :: d in s <==> lo <= d < hi
    ensures |s| == hi - lo
    decreases hi - lo
  {
    if lo == hi then {} else Interval(lo, hi - 1) + {hi - 1}
  }

  // The draws below the total that a name wins.
  ghost function WinningDraws(stakes: map<string, nat>, name: string): set<int>
    requires Sum(stakes) <= MAX_UINT64
  {
    SumNonNegative(stakes);
    set d | d in Interval(0, Sum(stakes)) && PickFrom(SortedKeys(stakes.Keys), stakes, 0, WrapUint64(d)) == name
  }

  // Over all draws below the total, a name wins exactly as often as its stake.
  lemma LotteryProportional(stakes: map<string, nat>, name: string)
    requires Sum(stakes) <= MAX_UINT64 && name in stakes
    ensures |WinningDraws(stakes, name)| == stakes[name]
  {
    hide Sum, SortedKeys, SumOver, Before, PickFrom, Interval, Sorted, Less;
    var names, total := SortedKeys(stakes.Keys), Sum(stakes);
    SumOverListing(names, stakes.Keys, stakes);
    assert stakes == map n | n in stakes.Keys :: stakes[n];
    var lo := Before(names, stakes, name);
    BeforeWithin(names, stakes, name);
    forall d ensures d in WinningDraws(stakes, name) <==> d in Interval(lo, lo + stakes[name]) {
      if 0 <= d < total {
        PickInterval(names, stakes, 0, name, d);
      }
    }
    assert WinningDraws(stakes, name) == Interval(lo, lo + stakes[name]);
  }

  lemma {:induction false} BeforeWithin(names: seq<string>, stakes: map<string, nat>, name: string)
    requires forall n :: n in names ==> n in stakes
    requires name in names
    ensures Before(names, stakes, name) + stakes[name] <= SumOver(names, stakes)
  {
    if names[0] != name {
      BeforeWithin(names[1..], stakes, name);
    }
  }
}
