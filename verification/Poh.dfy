// consensus/poh.go, and its verifier in consensus/pov.go.
module Poh {
  import opened Domain
  import opened Text
  import opened Crypto

  const TICKS_PER_SLOT: nat := 20

  function HashPoH(c: Primitives, prev: Digest, tick: nat): Digest {
    c.sha256(prev + FormatUint(tick))
  }

  function PoHHashHex(h: Digest): (s: string)
    ensures '|' !in s
  {
    HexEncode(h)
  }

  // ParsePoHHashHex; None is one of its two errors.
  function ParsePoHHashHex(s: string): Option<Digest> {
    match HexDecode(s)
    case None => None
    case Some(raw) => if |raw| == 32 then Some(raw) else None
  }

  lemma PoHHashHexRoundTrip(h: Digest)
    ensures ParsePoHHashHex(PoHHashHex(h)) == Some(h)
  {
    HexRoundTrip(h);
  }

  // The hash after the ticks from+1 .. last, starting from h.
  function Advance(c: Primitives, h: Digest, from: nat, last: nat): Digest
    decreases last
  {
    if last <= from then h else HashPoH(c, Advance(c, h, from, last - 1), last)
  }

  // One tick: the hash before it and the number of the tick in decimal.
  lemma AdvanceTick(c: Primitives, h: Digest, tick: nat)
    ensures Advance(c, h, tick, tick) == h
    ensures Advance(c, h, tick, tick + 1) == c.sha256(h + FormatUint(tick + 1))
  {
  }

  // Ticking m times and then n times is ticking m + n times: a verifier may
  // resume from any tick on the way, whatever siblings used those ticks.
  lemma {:induction false} AdvanceComposes(c: Primitives, h: Digest, from: nat, mid: nat, last: nat)
    requires from <= mid <= last
    ensures Advance(c, Advance(c, h, from, mid), mid, last) == Advance(c, h, from, last)
    decreases last
  {
    if mid < last {
      AdvanceComposes(c, h, from, mid, last - 1);
    }
  }

  class PoH {
    var currentTick: nat
    var hash: Digest

    constructor (seed: Digest)
      ensures currentTick == 0 && hash == seed
    {
      currentTick := 0;
      hash := seed;
    }

    method Tick(c: Primitives, n: nat)
      modifies this
      ensures currentTick == old(currentTick) + n
      ensures hash == Advance(c, old(hash), old(currentTick), currentTick)
    {
      for i := 0 to n
        invariant currentTick == old(currentTick) + i
        invariant hash == Advance(c, old(hash), old(currentTick), currentTick)
      {
        currentTick := currentTick + 1;
        hash := HashPoH(c, hash, currentTick);
      }
    }

    function Slot(): nat
      reads this
    {
      currentTick / TICKS_PER_SLOT
    }
  }

  // VerifyPoH: the hash and tick to carry on from, or None for an error.
  function CheckPoH(c: Primitives, h: Digest, tick: nat, b: Block): Option<Digest> {
    if b.tick <= tick || b.tick / TICKS_PER_SLOT != b.slot then None
    else
      var next := Advance(c, h, tick, b.tick);
      if ParsePoHHashHex(b.pohHash) == Some(next) then Some(next) else None
  }

  method VerifyPoH(c: Primitives, expectedHash: Digest, expectedTick: nat, b: Block)
    returns (hash: Digest, tick: nat, ok: bool)
    ensures ok == CheckPoH(c, expectedHash, expectedTick, b).Some?
    ensures ok ==> hash == CheckPoH(c, expectedHash, expectedTick, b).value && tick == b.tick
  {
    hash, tick := expectedHash, expectedTick;
    if b.tick <= expectedTick {
      return hash, tick, false;
    }
    if b.tick / TICKS_PER_SLOT != b.slot {
      return hash, tick, false;
    }
    var t := expectedTick + 1;
    while t <= b.tick
      invariant expectedTick + 1 <= t <= b.tick + 1
      invariant hash == Advance(c, expectedHash, expectedTick, t - 1)
    {
      hash := HashPoH(c, hash, t);
      t := t + 1;
    }
    match ParsePoHHashHex(b.pohHash)
    case None =>
      return hash, tick, false;
    case Some(claimed) =>
      if claimed != hash {
        return hash, tick, false;
      }
      return hash, b.tick, true;
  }

  // What one ticker publishes along a chain of increasing ticks, the verifier
  // accepts, however far apart the ticks are.
  lemma PublishedHashAccepted(c: Primitives, seed: Digest, tick: nat, b: Block)
    requires tick < b.tick && b.tick / TICKS_PER_SLOT == b.slot
    requires b.pohHash == PoHHashHex(Advance(c, seed, 0, b.tick))
    ensures CheckPoH(c, Advance(c, seed, 0, tick), tick, b) == Some(Advance(c, seed, 0, b.tick))
  {
    AdvanceComposes(c, seed, 0, tick, b.tick);
    PoHHashHexRoundTrip(Advance(c, seed, 0, b.tick));
  }
}
