// core/mempool.go: the fee-ordered pool and its greedy, in-place selection.
module Mempool {
  import opened Domain
  import opened Text
  import opened Crypto
  import opened Ledger

  // The comparison of Mempool.Add: higher fee, then sender, then nonce.
  predicate Precedes(a: Transaction, b: Transaction) {
    if a.fee != b.fee then a.fee > b.fee
    else if a.from != b.from then Less(a.from, b.from)
    else a.nonce < b.nonce
  }

  ghost predicate InOrder(list: seq<Transaction>) {
    forall i, j :: 0 <= i < j < |list| ==> !Precedes(list[j], list[i])
  }

  lemma PrecedesOrder(a: Transaction, b: Transaction, d: Transaction)
    ensures Precedes(a, b) ==> !Precedes(b, a)
    ensures !Precedes(b, a) && !Precedes(d, b) ==> !Precedes(d, a)
  {
    LessIrreflexive(a.from);
    LessTotal(a.from, b.from);
    LessTotal(b.from, d.from);
    if Less(a.from, b.from) && Less(b.from, a.from) { LessTransitive(a.from, b.from, a.from); }
    if Less(d.from, a.from) && Less(a.from, b.from) { LessTransitive(d.from, a.from, b.from); }
    if Less(b.from, d.from) && Less(d.from, a.from) { LessTransitive(b.from, d.from, a.from); }
    if Less(d.from, b.from) && Less(b.from, d.from) { LessTransitive(d.from, b.from, d.from); }
    LessIrreflexive(d.from);
  }

  ghost predicate DistinctHashes(list: seq<Transaction>) {
    forall i, j :: 0 <= i < j < |list| ==> list[i].hash != list[j].hash
  }

  datatype Pool = Pool(byHash: map<string, Transaction>, list: seq<Transaction>)

  // The index and the list hold the same transactions, each once, all of them
  // correctly signed, in order.
  ghost predicate Consistent(c: Primitives, p: Pool) {
    && InOrder(p.list)
    && DistinctHashes(p.list)
    && (forall h :: h in p.byHash <==> exists tx :: tx in p.list && tx.hash == h)
    && (forall tx :: tx in p.list ==> p.byHash[tx.hash] == tx)
    && (forall tx :: tx in p.list ==> TxSignatureOk(c, tx))
  }

  // ---------------------------------------------------------------------- Add

  datatype AddError = MissingTxHash | BadSignature | DuplicateTx

  function CheckAdd(c: Primitives, p: Pool, tx: Transaction): Option<AddError> {
    if tx.hash == "" then Some(MissingTxHash)
    else if !TxSignatureOk(c, tx) then Some(BadSignature)
    else if tx.hash in p.byHash then Some(DuplicateTx)
    else None
  }

  // sort.Slice does not promise an order among equals, so what an addition
  // leaves is a relation and not a function.
  ghost predicate Adds(c: Primitives, p: Pool, tx: Transaction, q: Pool) {
    if CheckAdd(c, p, tx).Some? then q == p
    else
      && q.byHash == p.byHash[tx.hash := tx]
      && multiset(q.list) == multiset(p.list) + multiset{tx}
      && InOrder(q.list)
  }

  lemma AddKeepsConsistent(c: Primitives, p: Pool, tx: Transaction, q: Pool)
    requires Consistent(c, p) && Adds(c, p, tx, q)
    ensures Consistent(c, q)
  {
    hide Precedes, TxSignatureOk, InOrder, DistinctHashes;
    if CheckAdd(c, p, tx).None? {
      Members(p.list, tx, q.list);
      assert forall x :: x in p.list ==> x.hash in p.byHash;
      AddDistinct(p.list, tx, q.list);
    }
  }

  // A transaction gets in if and only if it is correctly signed and the pool holds
  // none with its hash; then nothing else changes, and otherwise nothing does.
  lemma AddExact(c: Primitives, p: Pool, tx: Transaction, q: Pool)
    requires Consistent(c, p) && Adds(c, p, tx, q)
    ensures if TxSignatureOk(c, tx) && (forall x :: x in p.list ==> x.hash != tx.hash)
      then tx !in p.list && multiset(q.list) == multiset(p.list) + multiset{tx} && InOrder(q.list)
      else q == p
  {
    hide Precedes, InOrder, DistinctHashes;
    assert forall x :: x in p.list ==> x.hash in p.byHash;
  }

  lemma Members(l: seq<Transaction>, tx: Transaction, m: seq<Transaction>)
    requires multiset(m) == multiset(l) + multiset{tx}
    ensures forall x :: x in m <==> x in l || x == tx
  {
    forall x ensures x in m <==> x in l || x == tx {
      assert x in m <==> x in multiset(m);
      assert x in l <==> x in multiset(l);
    }
  }

  lemma AddDistinct(l: seq<Transaction>, tx: Transaction, m: seq<Transaction>)
    requires DistinctHashes(l) && forall x :: x in l ==> x.hash != tx.hash
    requires multiset(m) == multiset(l) + multiset{tx}
    ensures DistinctHashes(m)
  {
    Members(l, tx, m);
    forall i, j | 0 <= i < j < |m| ensures m[i].hash != m[j].hash {
      assert m[i] in m && m[j] in m;
      OnceAdded(l, tx, m[i]);
      if m[i] == m[j] {
        Twice(m, i, j);
      } else if m[i] != tx && m[j] != tx {
        OwnHash(l, m[i], m[j]);
      }
    }
  }

  lemma OnceAdded(l: seq<Transaction>, tx: Transaction, x: Transaction)
    requires DistinctHashes(l) && tx !in l
    ensures (multiset(l) + multiset{tx})[x] <= 1
  {
    AtMostOnce(l, x);
    assert tx in multiset(l) <==> tx in l;
  }

  lemma OwnHash(l: seq<Transaction>, x: Transaction, y: Transaction)
    requires DistinctHashes(l) && x in l && y in l && x != y
    ensures x.hash != y.hash
  {
    var i :| 0 <= i < |l| && l[i] == x;
    var j :| 0 <= j < |l| && l[j] == y;
    assert l[if i < j then i else j].hash != l[if i < j then j else i].hash;
  }

  lemma Twice(l: seq<Transaction>, i: nat, j: nat)
    requires i < j < |l| && l[i] == l[j]
    ensures multiset(l)[l[i]] >= 2
  {
    assert l == l[..j] + l[j..];
    assert l[i] in l[..j] && l[j] in l[j..];
    assert multiset(l) == multiset(l[..j]) + multiset(l[j..]);
  }

  lemma {:induction false} AtMostOnce(l: seq<Transaction>, tx: Transaction)
    requires DistinctHashes(l)
    ensures multiset(l)[tx] <= 1
  {
    if l != [] {
      var front, last := l[..|l| - 1], l[|l| - 1];
      AtMostOnce(front, tx);
      assert l == front + [last];
      if last == tx {
        assert tx !in front;
      }
    }
  }

  // ------------------------------------------------------------- PopForBlock

  datatype Selection = Selection(chosen: seq<Transaction>, kept: seq<Transaction>, state: State)

  function Consider(s: Selection, tx: Transaction, max: int, producer: string): Selection {
    if |s.chosen| >= max then s.(kept := s.kept + [tx])
    else
      match Apply(s.state, [tx], producer)
      case Err(_) => s.(kept := s.kept + [tx])
      case Ok(t) => Selection(s.chosen + [tx], s.kept, t)
  }

  // One greedy pass over the list.
  function Select(list: seq<Transaction>, state: State, max: int, producer: string): Selection {
    if list == [] then Selection([], [], state)
    else Consider(Select(list[..|list| - 1], state, max, producer), list[|list| - 1], max, producer)
  }

  lemma SelectStep(list: seq<Transaction>, i: nat, state: State, max: int, producer: string)
    requires i < |list|
    ensures Select(list[..i + 1], state, max, producer)
         == Consider(Select(list[..i], state, max, producer), list[i], max, producer)
  {
    hide Consider;
    assert list[..i + 1][..i] == list[..i];
  }

  function Hashes(txs: seq<Transaction>): set<string> {
    set tx | tx in txs :: tx.hash
  }

  function Popped(p: Pool, state: State, max: int, producer: string): seq<Transaction> {
    if max <= 0 then [] else Select(p.list, state, max, producer).chosen
  }

  function AfterPop(p: Pool, state: State, max: int, producer: string): Pool {
    if max <= 0 then p
    else
      var s := Select(p.list, state, max, producer);
      Pool(p.byHash - Hashes(s.chosen), s.kept)
  }

  // What was chosen applies, as a block, to the state it was chosen for, and
  // gives the state that the pass had reached.
  lemma {:induction false} SelectionApplies(list: seq<Transaction>, state: State, max: int, producer: string)
    ensures var s := Select(list, state, max, producer);
      Apply(state, s.chosen, producer) == Ok(s.state) && (max >= 0 ==> |s.chosen| <= max)
    decreases |list|
  {
    hide ApplyOne;
    if list != [] {
      var last := |list| - 1;
      SelectionApplies(list[..last], state, max, producer);
      var s := Select(list[..last], state, max, producer);
      if |s.chosen| < max && Apply(s.state, [list[last]], producer).Ok? {
        ApplyAppend(state, s.chosen, [list[last]], producer);
      }
    }
  }

  // The transactions of a list that are marked, or those that are not.
  function Part(list: seq<Transaction>, taken: seq<bool>, want: bool): seq<Transaction>
    requires |taken| == |list|
  {
    if list == [] then []
    else
      var last := |list| - 1;
      Part(list[..last], taken[..last], want) + if taken[last] == want then [list[last]] else []
  }

  // There is room for a transaction, and it applies in the state that those
  // chosen before it lead to.
  ghost predicate Fits(before: seq<Transaction>, tx: Transaction, state: State, max: int, producer: string) {
    && |before| < max
    && Apply(state, before, producer).Ok?
    && Apply(Apply(state, before, producer).value, [tx], producer).Ok?
  }

  // Position by position, a transaction is taken if and only if it fits.
  ghost predicate Greedy(list: seq<Transaction>, taken: seq<bool>, state: State, max: int, producer: string) {
    && |taken| == |list|
    && forall i :: 0 <= i < |list| ==>
      (taken[i] <==> Fits(Part(list[..i], taken[..i], true), list[i], state, max, producer))
  }

  // What one greedy pass over a pool takes out and what it leaves.
  ghost predicate SplitsGreedily(p: Pool, state: State, max: int, producer: string, out: seq<Transaction>, q: Pool) {
    exists taken ::
      && Greedy(p.list, taken, state, max, producer)
      && out == Part(p.list, taken, true)
      && q == Pool(p.byHash - Hashes(out), Part(p.list, taken, false))
  }

  lemma GreedyPrefix(list: seq<Transaction>, taken: seq<bool>, state: State, max: int, producer: string, k: nat)
    requires Greedy(list, taken, state, max, producer) && k <= |list|
    ensures Greedy(list[..k], taken[..k], state, max, producer)
  {
    hide Fits, Part;
    forall i | 0 <= i < k
      ensures taken[..k][i] <==> Fits(Part(list[..k][..i], taken[..k][..i], true), list[..k][i], state, max, producer)
    {
      assert list[..k][..i] == list[..i] && taken[..k][..i] == taken[..i];
    }
  }

  // There is no choice in being greedy.
  lemma {:induction false} GreedyUnique(list: seq<Transaction>, a: seq<bool>, b: seq<bool>, state: State, max: int,
                                        producer: string)
    requires Greedy(list, a, state, max, producer) && Greedy(list, b, state, max, producer)
    ensures a == b
    decreases |list|
  {
    hide Fits, Part;
    if list != [] {
      var last := |list| - 1;
      GreedyPrefix(list, a, state, max, producer, last);
      GreedyPrefix(list, b, state, max, producer, last);
      GreedyUnique(list[..last], a[..last], b[..last], state, max, producer);
      assert a == a[..last] + [a[last]] && b == b[..last] + [b[last]];
    }
  }

  lemma {:induction false} SelectIsGreedy(list: seq<Transaction>, state: State, max: int, producer: string)
    returns (taken: seq<bool>)
    ensures Greedy(list, taken, state, max, producer)
    ensures var s := Select(list, state, max, producer);
      s.chosen == Part(list, taken, true) && s.kept == Part(list, taken, false)
    decreases |list|
  {
    hide Apply;
    taken := [];
    if list != [] {
      var last := |list| - 1;
      var front := SelectIsGreedy(list[..last], state, max, producer);
      SelectionApplies(list[..last], state, max, producer);
      var s := Select(list[..last], state, max, producer);
      var t := Fits(s.chosen, list[last], state, max, producer);
      taken := front + [t];
      assert taken[..last] == front;
      GreedyExtends(list, front, t, state, max, producer);
    }
  }

  lemma GreedyExtends(list: seq<Transaction>, front: seq<bool>, t: bool, state: State, max: int, producer: string)
    requires list != [] && Greedy(list[..|list| - 1], front, state, max, producer)
    requires t <==> Fits(Part(list[..|list| - 1], front, true), list[|list| - 1], state, max, producer)
    ensures Greedy(list, front + [t], state, max, producer)
  {
    hide Fits, Part;
    var last := |list| - 1;
    var taken := front + [t];
    forall i | 0 <= i < |list|
      ensures taken[i] <==> Fits(Part(list[..i], taken[..i], true), list[i], state, max, producer)
    {
      if i < last {
        assert list[..last][..i] == list[..i] && front[..i] == taken[..i] && list[..last][i] == list[i];
      } else {
        assert taken[..i] == front;
      }
    }
  }

  lemma NothingFits(list: seq<Transaction>, taken: seq<bool>, state: State, max: int, producer: string)
    requires max <= 0 && Greedy(list, taken, state, max, producer)
    ensures Part(list, taken, true) == [] && Part(list, taken, false) == list
  {
    NoneTaken(list, taken);
  }

  lemma {:induction false} NoneTaken(list: seq<Transaction>, taken: seq<bool>)
    requires |taken| == |list| && forall i :: 0 <= i < |taken| ==> !taken[i]
    ensures Part(list, taken, true) == [] && Part(list, taken, false) == list
    decreases |list|
  {
    if list != [] {
      var last := |list| - 1;
      NoneTaken(list[..last], taken[..last]);
      assert list == list[..last] + [list[last]];
    }
  }

  // A pass is greedy throughout: a transaction stays in the pool if and only if
  // enough were chosen before it, or it does not apply in the state that those
  // lead to. That determines what is taken, and what is left.
  lemma PopIsGreedy(p: Pool, state: State, max: int, producer: string, out: seq<Transaction>, q: Pool)
    ensures SplitsGreedily(p, state, max, producer, out, q) <==>
      out == Popped(p, state, max, producer) && q == AfterPop(p, state, max, producer)
  {
    hide Fits, Select, Part;
    var taken := PopWitness(p, state, max, producer);
    if SplitsGreedily(p, state, max, producer, out, q) {
      var other :| && Greedy(p.list, other, state, max, producer) && out == Part(p.list, other, true)
        && q == Pool(p.byHash - Hashes(out), Part(p.list, other, false));
      GreedyUnique(p.list, taken, other, state, max, producer);
    }
  }

  lemma PopWitness(p: Pool, state: State, max: int, producer: string) returns (taken: seq<bool>)
    ensures Greedy(p.list, taken, state, max, producer)
    ensures Popped(p, state, max, producer) == Part(p.list, taken, true)
    ensures AfterPop(p, state, max, producer)
      == Pool(p.byHash - Hashes(Part(p.list, taken, true)), Part(p.list, taken, false))
  {
    hide Fits, Select, Part;
    taken := SelectIsGreedy(p.list, state, max, producer);
    if max <= 0 {
      NothingFits(p.list, taken, state, max, producer);
      assert p.byHash - Hashes([]) == p.byHash;
    }
  }

  // The pass is greedy: the first transaction of the pool that applies on its
  // own is taken, and taken first.
  lemma {:induction false} TakesFirstApplicable(list: seq<Transaction>, state: State, max: int, producer: string,
                                                i: nat)
    requires max > 0 && i < |list| && Apply(state, [list[i]], producer).Ok?
    requires forall j :: 0 <= j < i ==> Apply(state, [list[j]], producer).Err?
    ensures var s := Select(list, state, max, producer);
      s.chosen != [] && s.chosen[0] == list[i]
    decreases |list|
  {
    hide Apply;
    var last := |list| - 1;
    if i < last {
      TakesFirstApplicable(list[..last], state, max, producer, i);
    } else {
      TakesNothing(list[..last], state, max, producer);
    }
  }

  lemma {:induction false} TakesNothing(list: seq<Transaction>, state: State, max: int, producer: string)
    requires forall j :: 0 <= j < |list| ==> Apply(state, [list[j]], producer).Err?
    ensures Select(list, state, max, producer) == Selection([], list, state)
    decreases |list|
  {
    hide Apply, Select;
    if list == [] {
      SelectNothing(state, max, producer);
    } else {
      var last := |list| - 1;
      TakesNothing(list[..last], state, max, producer);
      assert list[..last + 1] == list;
      SelectStep(list, last, state, max, producer);
      assert Apply(state, [list[last]], producer).Err?;
      assert list[..last] + [list[last]] == list;
    }
  }

  // list is a and b merged, each in its own order.
  ghost predicate Merges(list: seq<Transaction>, a: seq<Transaction>, b: seq<Transaction>) {
    if list == [] then a == [] && b == []
    else
      var last := |list| - 1;
      || (a != [] && a[|a| - 1] == list[last] && Merges(list[..last], a[..|a| - 1], b))
      || (b != [] && b[|b| - 1] == list[last] && Merges(list[..last], a, b[..|b| - 1]))
  }

  lemma {:induction false} SelectionMerges(list: seq<Transaction>, state: State, max: int, producer: string)
    ensures var s := Select(list, state, max, producer); Merges(list, s.chosen, s.kept)
    decreases |list|
  {
    hide Apply;
    if list != [] {
      var last := |list| - 1;
      SelectionMerges(list[..last], state, max, producer);
      var s := Select(list[..last], state, max, producer);
      assert (s.chosen + [list[last]])[..|s.chosen|] == s.chosen;
      assert (s.kept + [list[last]])[..|s.kept|] == s.kept;
    }
  }

  lemma LastOut(s: seq<Transaction>)
    requires s != []
    ensures multiset(s) == multiset(s[..|s| - 1]) + multiset{s[|s| - 1]}
  {
    assert s == s[..|s| - 1] + [s[|s| - 1]];
  }

  lemma {:induction false} MergesMultiset(list: seq<Transaction>, a: seq<Transaction>, b: seq<Transaction>)
    requires Merges(list, a, b)
    ensures multiset(list) == multiset(a) + multiset(b)
    decreases |list|
  {
    if list != [] {
      var front, tx := list[..|list| - 1], list[|list| - 1];
      LastOut(list);
      if a != [] && a[|a| - 1] == tx && Merges(front, a[..|a| - 1], b) {
        LastOut(a);
        MergesMultiset(front, a[..|a| - 1], b);
      } else {
        LastOut(b);
        MergesMultiset(front, a, b[..|b| - 1]);
      }
    }
  }

  lemma MergesMembers(list: seq<Transaction>, a: seq<Transaction>, b: seq<Transaction>)
    requires Merges(list, a, b)
    ensures forall x :: x in list <==> x in a || x in b
  {
    hide Merges;
    MergesMultiset(list, a, b);
    forall x ensures x in list <==> x in a || x in b {
      assert x in multiset(list) <==> x in list;
    }
  }

  // What holds between any two transactions of a list, in order, holds within
  // the second part and between the parts.
  lemma {:induction false} MergesPairwise(list: seq<Transaction>, a: seq<Transaction>, b: seq<Transaction>,
                                          r: (Transaction, Transaction) -> bool)
    requires Merges(list, a, b)
    requires forall i, j :: 0 <= i < j < |list| ==> r(list[i], list[j])
    ensures forall i, j :: 0 <= i < j < |b| ==> r(b[i], b[j])
    ensures forall x, y :: x in a && y in b ==> r(x, y) || r(y, x)
    decreases |list|
  {
    if list != [] {
      var last := |list| - 1;
      var tx, front := list[last], list[..last];
      assert forall x :: x in front ==> r(x, tx) by {
        forall x | x in front ensures r(x, tx) {
          var k :| 0 <= k < |front| && front[k] == x;
          assert r(list[k], list[last]);
        }
      }
      if a != [] && a[|a| - 1] == tx && Merges(front, a[..|a| - 1], b) {
        MergesPairwise(front, a[..|a| - 1], b, r);
        MergesMembers(front, a[..|a| - 1], b);
        assert a == a[..|a| - 1] + [tx];
      } else {
        var rest := b[..|b| - 1];
        MergesPairwise(front, a, rest, r);
        MergesMembers(front, a, rest);
        assert b == rest + [tx];
        forall i, j | 0 <= i < j < |b| ensures r(b[i], b[j]) {
          assert rest[i] == b[i] && rest[i] in front;
          if j < |b| - 1 { assert rest[j] == b[j]; }
        }
      }
    }
  }

  // The second part of a merge keeps the order and the distinctness, and has
  // no hash in common with the first.
  lemma MergesKeep(list: seq<Transaction>, a: seq<Transaction>, b: seq<Transaction>)
    requires Merges(list, a, b) && InOrder(list) && DistinctHashes(list)
    ensures InOrder(b) && DistinctHashes(b)
    ensures Hashes(a) !! Hashes(b)
  {
    hide Precedes, Merges;
    var r := (x: Transaction, y: Transaction) => !Precedes(y, x) && x.hash != y.hash;
    assert forall i, j :: 0 <= i < j < |list| ==> r(list[i], list[j]);
    MergesPairwise(list, a, b, r);
    assert forall i, j :: 0 <= i < j < |b| ==> r(b[i], b[j]);
    forall x, y | x in a && y in b ensures x.hash != y.hash {
      assert r(x, y) || r(y, x);
    }
  }

  // Taking a selection out keeps the pool consistent, loses nothing, and what
  // is taken is a valid block body.
  lemma PopKeepsConsistent(c: Primitives, p: Pool, state: State, max: int, producer: string)
    requires Consistent(c, p)
    ensures Consistent(c, AfterPop(p, state, max, producer))
    ensures AllSigned(c, Popped(p, state, max, producer))
    ensures Apply(state, Popped(p, state, max, producer), producer).Ok?
    ensures |Popped(p, state, max, producer)| <= if max < 0 then 0 else max
    ensures multiset(Popped(p, state, max, producer)) + multiset(AfterPop(p, state, max, producer).list)
      == multiset(p.list)
  {
    hide Precedes, TxSignatureOk, Apply, Select, Merges, InOrder, DistinctHashes;
    assert Apply(state, [], producer) == Ok(state) by { ApplyNothing(state, producer); }
    if max > 0 {
      var s := Select(p.list, state, max, producer);
      SelectionApplies(p.list, state, max, producer);
      SelectionMerges(p.list, state, max, producer);
      MergesMultiset(p.list, s.chosen, s.kept);
      MergesMembers(p.list, s.chosen, s.kept);
      MergesKeep(p.list, s.chosen, s.kept);
      var q := AfterPop(p, state, max, producer);
      assert Hashes(p.list) == Hashes(s.chosen) + Hashes(s.kept);
      forall h ensures h in q.byHash <==> exists tx :: tx in q.list && tx.hash == h {
        assert h in p.byHash <==> h in Hashes(p.list);
        assert h in q.byHash <==> h in Hashes(q.list);
      }
      forall tx | tx in q.list ensures q.byHash[tx.hash] == tx {
        assert tx.hash in Hashes(s.kept);
      }
    }
  }

  lemma ApplyNothing(state: State, producer: string)
    ensures Apply(state, [], producer) == Ok(state)
  {
  }

  // ------------------------------------------------------------ the pool itself

  // The list lives in the first len cells of a backing array, as a Go slice
  // does; PopForBlock writes the cells that it has already read.
  class TxPool {
    var byHash: map<string, Transaction>
    var cells: array<Transaction>
    var len: nat

    ghost predicate Valid()
      reads this
    {
      len <= cells.Length
    }

    ghost function View(): Pool
      requires Valid()
      reads this, cells
    {
      Pool(byHash, cells[..len])
    }

    constructor ()
      ensures Valid() && fresh(cells)
      ensures View() == Pool(map[], [])
    {
      byHash := map[];
      cells := new Transaction[0];
      len := 0;
    }

    // append(m.list, tx)
    method Append(tx: Transaction)
      requires Valid()
      modifies this`cells, this`len, cells
      ensures Valid() && (cells == old(cells) || fresh(cells))
      ensures cells[..len] == old(cells[..len]) + [tx]
    {
      if len == cells.Length {
        var before := cells[..len];
        cells := new Transaction[2 * len + 1](i => if 0 <= i < |before| then before[i] else tx);
        assert cells[..len] == before;
      }
      cells[len] := tx;
      len := len + 1;
    }

    // sort.Slice is foreign code: only its contract matters. This body sinks
    // the last element into a list that is in order before it.
    method SortSlice()
      requires Valid() && len > 0
      requires InOrder(cells[..len - 1])
      modifies cells
      ensures InOrder(cells[..len])
      ensures multiset(cells[..len]) == multiset(old(cells[..len]))
    {
      hide Precedes, InOrder;
      var tx := cells[len - 1];
      ghost var front := cells[..len - 1];
      assert cells[..len] == front + [tx];
      var k := len - 1;
      while k > 0 && Precedes(tx, cells[k - 1])
        invariant 0 <= k < len
        invariant cells[..len] == front + [tx]
        invariant forall j :: k <= j < len - 1 ==> Precedes(tx, front[j])
      {
        k := k - 1;
      }
      forall j | k <= j < len {
        cells[j] := if j == k then tx else cells[j - 1];
      }
      assert cells[..len] == Insert(front, k, tx);
      Inserted(front, k, tx);
      InsertedMultiset(front, k, tx);
    }

    method Add(c: Primitives, tx: Transaction) returns (e: Option<AddError>)
      requires Valid() && InOrder(View().list)
      modifies this, cells
      ensures Valid() && (cells == old(cells) || fresh(cells))
      ensures e == CheckAdd(c, old(View()), tx)
      ensures Adds(c, old(View()), tx, View())
    {
      hide Precedes, TxSignatureOk, InOrder;
      if tx.hash == "" { return Some(MissingTxHash); }
      if !TxSignatureOk(c, tx) { return Some(BadSignature); }
      if tx.hash in byHash { return Some(DuplicateTx); }
      byHash := byHash[tx.hash := tx];
      Append(tx);
      assert cells[..len - 1] == old(View().list);
      SortSlice();
      return None;
    }

    method PopForBlock(state: State, max: int, producer: string) returns (out: seq<Transaction>)
      requires Valid()
      modifies this`byHash, this`len, cells
      ensures Valid()
      ensures out == Popped(old(View()), state, max, producer)
      ensures View() == AfterPop(old(View()), state, max, producer)
    {
      hide Apply, Select;
      out := [];
      if max <= 0 {
        return;
      }
      ghost var list := cells[..len];
      ghost var done := Selection([], [], state);
      assert Select(list[..0], state, max, producer) == done by { SelectNothing(state, max, producer); }
      var nextState := state;
      var remaining := 0;
      for i := 0 to len
        invariant len == old(len) && cells == old(cells) && Valid()
        invariant forall k :: i <= k < len ==> cells[k] == list[k]
        invariant done == Select(list[..i], state, max, producer)
        invariant out == done.chosen && nextState == done.state && remaining == |done.kept|
        invariant remaining <= i && cells[..remaining] == done.kept
        invariant byHash == old(byHash) - Hashes(out)
      {
        var tx := cells[i];
        SelectStep(list, i, state, max, producer);
        done := Consider(done, tx, max, producer);
        if |out| >= max {
          cells[remaining] := tx;
          remaining := remaining + 1;
        } else {
          var applied := ApplyTransactions(nextState, [tx], producer);
          if applied.Err? {
            cells[remaining] := tx;
            remaining := remaining + 1;
          } else {
            assert Hashes(out + [tx]) == Hashes(out) + {tx.hash};
            out := out + [tx];
            nextState := applied.value;
            byHash := byHash - {tx.hash};
          }
        }
      }
      assert list[..len] == list;
      len := remaining;
    }
  }

  lemma SelectNothing(state: State, max: int, producer: string)
    ensures Select([], state, max, producer) == Selection([], [], state)
  {
  }

  function Insert(front: seq<Transaction>, k: nat, tx: Transaction): seq<Transaction>
    requires k <= |front|
  {
    front[..k] + [tx] + front[k..]
  }

  lemma Inserted(front: seq<Transaction>, k: nat, tx: Transaction)
    requires k <= |front| && InOrder(front)
    requires k > 0 ==> !Precedes(tx, front[k - 1])
    requires forall j :: k <= j < |front| ==> Precedes(tx, front[j])
    ensures InOrder(Insert(front, k, tx))
  {
    hide Precedes;
    var l := Insert(front, k, tx);
    forall i, j | 0 <= i < j < |l| ensures !Precedes(l[j], l[i]) {
      if j == k {
        assert l[i] == front[i] && l[j] == tx;
        PrecedesOrder(front[i], front[k - 1], tx);
      } else if i == k {
        assert l[i] == tx && l[j] == front[j - 1];
        PrecedesOrder(tx, front[j - 1], tx);
      } else {
        assert l[i] == front[if i < k then i else i - 1] && l[j] == front[if j < k then j else j - 1];
      }
    }
  }

  lemma InsertedMultiset(front: seq<Transaction>, k: nat, tx: Transaction)
    requires k <= |front|
    ensures multiset(Insert(front, k, tx)) == multiset(front + [tx])
  {
    assert front == front[..k] + front[k..];
  }
}
