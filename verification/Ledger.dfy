// consensus/pov.go: the ledger transition, with the arithmetic of 64-bit int
// and uint64.
module Ledger {
  import opened Domain
  import opened Sums
  import opened Crypto

  datatype Refusal =
    | InvalidSignature
    | InvalidAmount
    | MissingSender
    | InvalidNonce
    | InvalidFee
    | NonceMismatch
    | InsufficientBalance

  // The source's errors: what is wrong, and at which index.
  datatype TxError = TxError(why: Refusal, at: nat)

  // --------------------------------------------------------- VerifyTransactions

  ghost predicate AllSigned(c: Primitives, txs: seq<Transaction>) {
    forall i :: 0 <= i < |txs| ==> TxSignatureOk(c, txs[i])
  }

  // None is success.
  function CheckTransactions(c: Primitives, txs: seq<Transaction>): Option<TxError> {
    if txs == [] then None
    else
      var last := |txs| - 1;
      match CheckTransactions(c, txs[..last])
      case Some(e) => Some(e)
      case None => if TxSignatureOk(c, txs[last]) then None else Some(TxError(InvalidSignature, last))
  }

  lemma {:induction false} CheckedIsSigned(c: Primitives, txs: seq<Transaction>)
    ensures CheckTransactions(c, txs).None? <==> AllSigned(c, txs)
  {
    hide TxSignatureOk;
    if txs != [] {
      var last := |txs| - 1;
      CheckedIsSigned(c, txs[..last]);
      assert AllSigned(c, txs) <==> AllSigned(c, txs[..last]) && TxSignatureOk(c, txs[last]);
    }
  }

  method VerifyTransactions(c: Primitives, txs: seq<Transaction>) returns (e: Option<TxError>)
    ensures e == CheckTransactions(c, txs)
  {
    hide TxSignatureOk;
    for i := 0 to |txs|
      invariant CheckTransactions(c, txs[..i]) == None
    {
      assert txs[..i + 1][..i] == txs[..i];
      if !TxSignatureOk(c, txs[i]) {
        StopsAtFirst(c, txs, i);
        return Some(TxError(InvalidSignature, i));
      }
    }
    assert txs[..|txs|] == txs;
    return None;
  }

  lemma {:induction false} StopsAtFirst(c: Primitives, txs: seq<Transaction>, i: nat)
    requires i < |txs| && CheckTransactions(c, txs[..i]) == None && !TxSignatureOk(c, txs[i])
    ensures CheckTransactions(c, txs) == Some(TxError(InvalidSignature, i))
    decreases |txs|
  {
    hide TxSignatureOk;
    var last := |txs| - 1;
    if i < last {
      assert txs[..last][..i] == txs[..i];
      StopsAtFirst(c, txs[..last], i);
    }
  }

  // ---------------------------------------------------------- ApplyTransactions

  // Reading a Go map: a missing account is the zero account.
  function AccountOf(s: State, k: string): Account {
    if k in s then s[k] else Account(0, 0)
  }

  function Credit(s: State, k: string, amount: int): State {
    var a := AccountOf(s, k);
    s[k := a.(balance := WrapInt64(a.balance + amount))]
  }

  // The body of the loop, for one transaction.
  function ApplyOne(s: State, tx: Transaction, producer: string): Result<State, Refusal> {
    if tx.amount <= 0 then Err(InvalidAmount)
    else if tx.from == "" then Err(MissingSender)
    else if tx.nonce == 0 then Err(InvalidNonce)
    else if tx.fee < 0 then Err(InvalidFee)
    else
      var from := AccountOf(s, tx.from);
      if WrapUint64(from.nonce + 1) != tx.nonce then Err(NonceMismatch)
      else
        var total := WrapInt64(tx.amount + tx.fee);
        if from.balance < total then Err(InsufficientBalance)
        else
          var s1 := s[tx.from := Account(WrapInt64(from.balance - total), tx.nonce)];
          var s2 := Credit(s1, tx.to, tx.amount);
          Ok(if producer != "" && tx.fee > 0 then Credit(s2, producer, tx.fee) else s2)
  }

  // The state after the transactions, or the error of the first that fails.
  function Apply(s: State, txs: seq<Transaction>, producer: string): Result<State, TxError> {
    if txs == [] then Ok(s)
    else
      var last := |txs| - 1;
      match Apply(s, txs[..last], producer)
      case Err(e) => Err(e)
      case Ok(m) => match ApplyOne(m, txs[last], producer)
        case Err(why) => Err(TxError(why, last))
        case Ok(t) => Ok(t)
  }

  method ApplyTransaction(state: State, tx: Transaction, producer: string) returns (r: Result<State, Refusal>)
    ensures r == ApplyOne(state, tx, producer)
  {
    hide WrapInt64, WrapUint64;
    var next := state;
    if tx.amount <= 0 { return Err(InvalidAmount); }
    if tx.from == "" { return Err(MissingSender); }
    if tx.nonce == 0 { return Err(InvalidNonce); }
    if tx.fee < 0 { return Err(InvalidFee); }
    var from := AccountOf(next, tx.from);
    if WrapUint64(from.nonce + 1) != tx.nonce { return Err(NonceMismatch); }
    var total := WrapInt64(tx.amount + tx.fee);
    if from.balance < total { return Err(InsufficientBalance); }
    from := Account(WrapInt64(from.balance - total), tx.nonce);
    next := next[tx.from := from];

    var payee := AccountOf(next, tx.to);
    payee := payee.(balance := WrapInt64(payee.balance + tx.amount));
    next := next[tx.to := payee];

    if producer != "" && tx.fee > 0 {
      var p := AccountOf(next, producer);
      p := p.(balance := WrapInt64(p.balance + tx.fee));
      next := next[producer := p];
    }
    r := Ok(next);
  }

  method ApplyTransactions(state: State, txs: seq<Transaction>, producer: string)
    returns (r: Result<State, TxError>)
    ensures r == Apply(state, txs, producer)
  {
    hide ApplyOne;
    var next := state;
    for i := 0 to |txs|
      invariant Apply(state, txs[..i], producer) == Ok(next)
    {
      assert txs[..i + 1][..i] == txs[..i];
      FailsAtFirst(state, txs, producer, i);
      var step := ApplyTransaction(next, txs[i], producer);
      if step.Err? {
        return Err(TxError(step.error, i));
      }
      next := step.value;
    }
    assert txs[..|txs|] == txs;
    r := Ok(next);
  }

  lemma {:induction false} FailsAtFirst(s: State, txs: seq<Transaction>, producer: string, i: nat)
    requires i < |txs| && Apply(s, txs[..i], producer).Ok?
    ensures var m := Apply(s, txs[..i], producer).value;
      ApplyOne(m, txs[i], producer).Err? ==>
        Apply(s, txs, producer) == Err(TxError(ApplyOne(m, txs[i], producer).error, i))
    decreases |txs|
  {
    hide ApplyOne;
    var last := |txs| - 1;
    if i < last {
      assert txs[..last][..i] == txs[..i];
      FailsAtFirst(s, txs[..last], producer, i);
    }
  }

  // Applying two lists one after the other is applying their concatenation.
  lemma {:induction false} ApplyAppend(s: State, a: seq<Transaction>, b: seq<Transaction>, producer: string)
    requires Apply(s, a, producer).Ok?
    ensures Apply(s, a + b, producer).Ok? <==> Apply(Apply(s, a, producer).value, b, producer).Ok?
    ensures Apply(s, a + b, producer).Ok? ==>
      Apply(s, a + b, producer) == Apply(Apply(s, a, producer).value, b, producer)
    decreases |b|
  {
    hide ApplyOne;
    if b == [] {
      assert a + b == a;
    } else {
      var last := |b| - 1;
      assert (a + b)[..|a + b| - 1] == a + b[..last];
      ApplyAppend(s, a, b[..last], producer);
    }
  }

  // ------------------------------------------------------------- conservation

  ghost function Balances(s: State): map<string, int> {
    map k | k in s :: s[k].balance
  }

  ghost function Total(s: State): int {
    Sum(Balances(s))
  }

  // No balance is negative and the money in circulation fits in an int.
  ghost predicate Sound(s: State) {
    (forall k :: k in s ==> s[k].balance >= 0) && Total(s) <= MAX_INT64
  }

  // What a caller can check before submitting a transaction.
  predicate CostFits(tx: Transaction) {
    tx.amount + tx.fee <= MAX_INT64
  }

  // All conditions of ApplyTransactions but the balance check.
  predicate WellFormed(s: State, tx: Transaction) {
    && tx.amount > 0 && tx.from != "" && tx.nonce != 0 && tx.fee >= 0
    && WrapUint64(AccountOf(s, tx.from).nonce + 1) == tx.nonce
  }

  function Burned(txs: seq<Transaction>, producer: string): int {
    if txs == [] || producer != "" then 0 else Burned(txs[..|txs| - 1], producer) + txs[|txs| - 1].fee
  }

  lemma TotalUpdate(s: State, k: string, a: Account)
    ensures Total(s[k := a]) == Total(s) - AccountOf(s, k).balance + a.balance
  {
    SumUpdate(Balances(s), k, a.balance);
    assert Balances(s[k := a]) == Balances(s)[k := a.balance];
    assert Get(Balances(s), k) == AccountOf(s, k).balance;
  }

  lemma SoundBalance(s: State, k: string)
    requires Sound(s)
    ensures 0 <= AccountOf(s, k).balance <= Total(s)
  {
    SumNonNegative(Balances(s));
    if k in s {
      assert Balances(s)[k] == s[k].balance;
    }
  }

  // Two balances of different accounts add up to no more than the total.
  lemma TwoBalances(s: State, k: string, j: string)
    requires Sound(s) && k != j
    ensures AccountOf(s, k).balance + AccountOf(s, j).balance <= Total(s)
  {
    SoundBalance(s, k);
    SoundBalance(s, j);
    var b := Balances(s);
    if k in s && j in s {
      SumSplit(b, k);
      assert (b - {k})[j] == s[j].balance;
      SumNonNegative(b - {k});
    }
  }

  // What a transaction takes from an account and gives to it, in any of the
  // three roles that the account may have at once.
  function Moved(tx: Transaction, producer: string, k: string): int {
    (if k == tx.to then tx.amount else 0)
    + (if k == producer && producer != "" then tx.fee else 0)
    - (if k == tx.from then tx.amount + tx.fee else 0)
  }

  function MovedAll(txs: seq<Transaction>, producer: string, k: string): int {
    if txs == [] then 0 else MovedAll(txs[..|txs| - 1], producer, k) + Moved(txs[|txs| - 1], producer, k)
  }

  // The sender can pay what the transaction takes from it on balance.
  predicate Covers(s: State, tx: Transaction, producer: string) {
    AccountOf(s, tx.from).balance + Moved(tx, producer, tx.from) >= 0
  }

  lemma WrapTwice(x: int, y: int)
    ensures WrapInt64(WrapInt64(x) + y) == WrapInt64(x + y)
    ensures WrapInt64(x - WrapInt64(y)) == WrapInt64(x - y)
  {
    var p, q := (x - MIN_INT64) / TWO_64, (y - MIN_INT64) / TWO_64;
    assert WrapInt64(x) == x - p * TWO_64 && WrapInt64(y) == y - q * TWO_64;
    WrapPeriod(x + y, -p);
    WrapPeriod(x - y, q);
  }

  lemma WrapPeriod(x: int, k: int)
    ensures WrapInt64(x + k * TWO_64) == WrapInt64(x)
  {
    var d, r := (x - MIN_INT64) / TWO_64, (x - MIN_INT64) % TWO_64;
    assert x + k * TWO_64 - MIN_INT64 == (d + k) * TWO_64 + r;
    SameRemainder(d + k, r);
  }

  lemma SameRemainder(d: int, r: int)
    requires 0 <= r < TWO_64
    ensures (d * TWO_64 + r) % TWO_64 == r
  {
  }

  lemma CreditWraps(s: State, k: string, amount: int, x: string, y: int)
    requires AccountOf(s, x).balance == WrapInt64(y)
    ensures AccountOf(Credit(s, k, amount), x).balance == WrapInt64(if x == k then y + amount else y)
  {
    hide WrapInt64;
    WrapTwice(y, amount);
  }

  lemma ChargeWraps(s: State, tx: Transaction, x: string)
    ensures var total := WrapInt64(tx.amount + tx.fee);
      var s1 := s[tx.from := Account(WrapInt64(AccountOf(s, tx.from).balance - total), tx.nonce)];
      var b := AccountOf(s, x).balance;
      AccountOf(s1, x).balance == WrapInt64(if x == tx.from then b - (tx.amount + tx.fee) else b)
  {
    hide WrapInt64;
    WrapTwice(AccountOf(s, x).balance, tx.amount + tx.fee);
  }

  // Whatever wraps on the way, each balance ends right up to a multiple of 2^64.
  lemma ApplyOneWraps(s: State, tx: Transaction, producer: string, k: string)
    requires ApplyOne(s, tx, producer).Ok?
    ensures AccountOf(ApplyOne(s, tx, producer).value, k).balance
         == WrapInt64(AccountOf(s, k).balance + Moved(tx, producer, k))
  {
    hide WrapInt64, WrapUint64, Credit, AccountOf;
    var b := AccountOf(s, k).balance;
    var total := WrapInt64(tx.amount + tx.fee);
    var s1 := s[tx.from := Account(WrapInt64(AccountOf(s, tx.from).balance - total), tx.nonce)];
    var paid := if k == tx.from then b - (tx.amount + tx.fee) else b;
    ChargeWraps(s, tx, k);
    CreditWraps(s1, tx.to, tx.amount, k, paid);
    var got := if k == tx.to then paid + tx.amount else paid;
    CreditWraps(Credit(s1, tx.to, tx.amount), producer, tx.fee, k, got);
  }

  // What a covered transaction leaves in any account fits.
  lemma CoveredFits(s: State, tx: Transaction, producer: string, k: string)
    requires Sound(s) && Covers(s, tx, producer) && tx.amount > 0 && tx.fee >= 0
    ensures 0 <= AccountOf(s, k).balance + Moved(tx, producer, k) <= MAX_INT64
  {
    SoundBalance(s, k);
    SoundBalance(s, tx.from);
    if k != tx.from {
      TwoBalances(s, k, tx.from);
    }
  }

  // An accepted transaction does what it says on every account, and makes nobody's
  // balance negative, exactly when its sender covers what it takes on balance.
  lemma MovesExactly(s: State, tx: Transaction, producer: string)
    requires Sound(s) && ApplyOne(s, tx, producer).Ok?
    ensures (forall k :: RightBalance(s, tx, producer, k)) <==> Covers(s, tx, producer)
  {
    hide WrapInt64;
    if Covers(s, tx, producer) {
      forall k ensures RightBalance(s, tx, producer, k) {
        ApplyOneMoves(s, tx, producer, k);
        CoveredFits(s, tx, producer, k) by { Accepted(s, tx, producer); }
      }
    } else {
      assert !RightBalance(s, tx, producer, tx.from);
    }
  }

  ghost predicate RightBalance(s: State, tx: Transaction, producer: string, k: string)
    requires ApplyOne(s, tx, producer).Ok?
  {
    var after := AccountOf(ApplyOne(s, tx, producer).value, k).balance;
    after == AccountOf(s, k).balance + Moved(tx, producer, k) && after >= 0
  }

  lemma Accepted(s: State, tx: Transaction, producer: string)
    requires ApplyOne(s, tx, producer).Ok?
    ensures WellFormed(s, tx)
  {
    hide WrapInt64, WrapUint64;
  }

  lemma ApplyOneMoves(s: State, tx: Transaction, producer: string, k: string)
    requires Sound(s) && Covers(s, tx, producer) && ApplyOne(s, tx, producer).Ok?
    ensures AccountOf(ApplyOne(s, tx, producer).value, k).balance == AccountOf(s, k).balance + Moved(tx, producer, k)
  {
    hide ApplyOne, Sound;
    Accepted(s, tx, producer);
    ApplyOneWraps(s, tx, producer, k);
    CoveredFits(s, tx, producer, k);
  }

  // Only the accounts in the three roles change.
  lemma ApplyOneTouches(s: State, tx: Transaction, producer: string)
    requires ApplyOne(s, tx, producer).Ok?
    ensures var t := ApplyOne(s, tx, producer).value;
      && tx.from in t && tx.to in t
      && (producer != "" && tx.fee > 0 ==> producer in t)
      && t == s[tx.from := t[tx.from]][tx.to := t[tx.to]]
           [(if producer != "" && tx.fee > 0 then producer else tx.to) :=
             t[if producer != "" && tx.fee > 0 then producer else tx.to]]
  {
    hide WrapInt64, WrapUint64;
  }

  // Whatever way From, To and the producer coincide, a covered transaction moves
  // money and destroys only a fee that nobody collects.
  lemma ApplyOneConserves(s: State, tx: Transaction, producer: string)
    requires Sound(s) && Covers(s, tx, producer)
    requires ApplyOne(s, tx, producer).Ok?
    ensures var t := ApplyOne(s, tx, producer).value;
      Sound(t) && Total(t) == Total(s) - (if producer == "" then tx.fee else 0)
  {
    hide ApplyOne, Total;
    var t := ApplyOne(s, tx, producer).value;
    Accepted(s, tx, producer);
    ApplyOneTouches(s, tx, producer);
    var last := if producer != "" && tx.fee > 0 then producer else tx.to;
    var s1 := s[tx.from := t[tx.from]];
    var s2 := s1[tx.to := t[tx.to]];
    TotalUpdate(s, tx.from, t[tx.from]);
    TotalUpdate(s1, tx.to, t[tx.to]);
    TotalUpdate(s2, last, t[last]);
    ApplyOneMoves(s, tx, producer, tx.from);
    ApplyOneMoves(s, tx, producer, tx.to);
    ApplyOneMoves(s, tx, producer, last);
    forall k | k in t ensures t[k].balance >= 0 {
      ApplyOneMoves(s, tx, producer, k);
      CoveredFits(s, tx, producer, k);
    }
  }

  // Each transaction is covered in the state that it is applied to.
  ghost predicate CoversAll(s: State, txs: seq<Transaction>, producer: string) {
    txs != [] ==>
      var last := |txs| - 1;
      && CoversAll(s, txs[..last], producer)
      && (Apply(s, txs[..last], producer).Ok? ==> Covers(Apply(s, txs[..last], producer).value, txs[last], producer))
  }

  // Every account ends with what it had, plus what all transactions gave it,
  // minus what they took from it.
  lemma {:induction false} ApplyMoves(s: State, txs: seq<Transaction>, producer: string, k: string)
    requires Sound(s) && CoversAll(s, txs, producer)
    requires Apply(s, txs, producer).Ok?
    ensures AccountOf(Apply(s, txs, producer).value, k).balance == AccountOf(s, k).balance + MovedAll(txs, producer, k)
    decreases |txs|
  {
    hide ApplyOne, Covers;
    if txs != [] {
      var last := |txs| - 1;
      ApplyMoves(s, txs[..last], producer, k);
      ApplyConserves(s, txs[..last], producer);
      ApplyOneMoves(Apply(s, txs[..last], producer).value, txs[last], producer, k);
    }
  }

  lemma {:induction false} ApplyConserves(s: State, txs: seq<Transaction>, producer: string)
    requires Sound(s) && CoversAll(s, txs, producer)
    requires Apply(s, txs, producer).Ok?
    ensures var t := Apply(s, txs, producer).value;
      Sound(t) && Total(t) == Total(s) - Burned(txs, producer)
    decreases |txs|
  {
    hide ApplyOne, Covers;
    if txs != [] {
      var last := |txs| - 1;
      ApplyConserves(s, txs[..last], producer);
      ApplyOneConserves(Apply(s, txs[..last], producer).value, txs[last], producer);
    }
  }

  // A cost that does not overflow and passes the balance check is covered.
  lemma FitsIsCovered(s: State, tx: Transaction, producer: string)
    requires CostFits(tx) && ApplyOne(s, tx, producer).Ok?
    ensures Covers(s, tx, producer)
  {
  }

  lemma {:induction false} FitIsCovered(s: State, txs: seq<Transaction>, producer: string)
    requires Apply(s, txs, producer).Ok? && forall i :: 0 <= i < |txs| ==> CostFits(txs[i])
    ensures CoversAll(s, txs, producer)
    decreases |txs|
  {
    hide ApplyOne, Covers;
    if txs != [] {
      var last := |txs| - 1;
      FitIsCovered(s, txs[..last], producer);
      FitsIsCovered(Apply(s, txs[..last], producer).value, txs[last], producer);
    }
  }

  // The balance check does its job on a transaction exactly when Amount + Fee
  // does not wrap: it then admits the transaction if and only if the sender can
  // pay, and otherwise it admits a sender who cannot.
  lemma BalanceCheckExact(s: State, tx: Transaction, producer: string)
    requires Sound(s) && WellFormed(s, tx)
    ensures (ApplyOne(s, tx, producer).Ok? <==> AccountOf(s, tx.from).balance >= tx.amount + tx.fee)
        <==> CostFits(tx)
  {
    SoundBalance(s, tx.from);
  }

  // The largest amount and the largest fee: their sum wraps to -2.
  predicate Overflowing(tx: Transaction, producer: string) {
    && tx.amount == MAX_INT64 && tx.fee == MAX_INT64 && tx.nonce == 1
    && tx.from != "" && producer != "" && tx.from != tx.to && tx.from != producer && tx.to != producer
  }

  // One input on which it does not: money appears from nothing.
  lemma WrappedCostCreatesMoney(tx: Transaction, producer: string)
    requires Overflowing(tx, producer)
    ensures !CostFits(tx) && !Covers(map[], tx, producer) && ApplyOne(map[], tx, producer).Ok?
    ensures Total(map[]) == 0 && Total(ApplyOne(map[], tx, producer).value) == TWO_64
  {
    var s: State := map[];
    assert Balances(s) == map[];
    var s1 := s[tx.from := Account(2, 1)];
    var s2 := s1[tx.to := Account(MAX_INT64, 0)];
    TotalUpdate(s, tx.from, Account(2, 1));
    TotalUpdate(s1, tx.to, Account(MAX_INT64, 0));
    TotalUpdate(s2, producer, Account(MAX_INT64, 0));
    assert ApplyOne(s, tx, producer) == Ok(s2[producer := Account(MAX_INT64, 0)]);
  }

  // ------------------------------------------------------------------ nonces

  // The transactions of one sender, in order.
  function SentBy(txs: seq<Transaction>, sender: string): seq<Transaction> {
    if txs == [] then []
    else
      var last := |txs| - 1;
      SentBy(txs[..last], sender) + (if txs[last].from == sender then [txs[last]] else [])
  }

  lemma ApplyOneNonce(s: State, tx: Transaction, producer: string, sender: string)
    requires ApplyOne(s, tx, producer).Ok?
    ensures tx.nonce == AccountOf(s, tx.from).nonce + 1
    ensures AccountOf(ApplyOne(s, tx, producer).value, sender).nonce
         == AccountOf(s, sender).nonce + if tx.from == sender then 1 else 0
  {
  }

  // Whatever the producer and the receivers, each accepted list continues every
  // sender's nonces without a gap or a repeat. The wrap-around of uint64 never
  // shows, because a nonce of 0 is refused.
  lemma {:induction false} ApplyNonces(s: State, txs: seq<Transaction>, producer: string, sender: string)
    requires Apply(s, txs, producer).Ok?
    ensures var t := Apply(s, txs, producer).value;
      var sent := SentBy(txs, sender);
      && AccountOf(t, sender).nonce == AccountOf(s, sender).nonce + |sent|
      && forall i :: 0 <= i < |sent| ==> sent[i].nonce == AccountOf(s, sender).nonce + i + 1
    decreases |txs|
  {
    hide ApplyOne;
    if txs != [] {
      var last := |txs| - 1;
      ApplyNonces(s, txs[..last], producer, sender);
      ApplyOneNonce(Apply(s, txs[..last], producer).value, txs[last], producer, sender);
    }
  }

  lemma {:induction false} SentByAppend(a: seq<Transaction>, b: seq<Transaction>, sender: string)
    ensures SentBy(a + b, sender) == SentBy(a, sender) + SentBy(b, sender)
    decreases |b|
  {
    if b == [] {
      assert a + b == a;
    } else {
      assert (a + b)[..|a + b| - 1] == a + b[..|b| - 1];
      SentByAppend(a, b[..|b| - 1], sender);
    }
  }
}
