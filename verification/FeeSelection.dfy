/** Selection that leaves enough for the builder's fee: the split signer's
    payments and the consolidation's sweeps, with 34-byte scripts. */
module FeeSelection {
  import opened SpentSet
  import opened Wire
  import opened TxBuilder
  import opened CoinSelection

  const SCRIPT_SIZE := 34

  datatype Choice = Chosen(coins: seq<Coin>) | None

  /** The signer's estimate for `n` inputs and two outputs. */
  function VSizeFor(n: int): int {
    1100 + 976 * (n - 1)
  }

  /** The exact size of a send with `n` inputs. */
  lemma SendSize(inputs: seq<Utxo>, recipient: Bytes, amount: int, change: Bytes)
    requires AllIds(inputs) && |inputs| <= MAX_INPUTS && |recipient| == |change| == SCRIPT_SIZE
    ensures WeightOf(SendForm(inputs, recipient, amount, change)) == 386 + 3905 * |inputs|
    ensures forall rate ::
              Fee(SendForm(inputs, recipient, amount, change), rate) == ((389 + 3905 * |inputs|) / 4 + 1) * rate
    ensures inputs != [] ==> VSize(SendForm(inputs, recipient, amount, change)) + FEE_MARGIN <= VSizeFor(|inputs|)
  {
    var outs := [TxOutput(amount, recipient), TxOutput(0, change)];
    DraftWeight(inputs, outs);
    SumTwo(OutputSize, outs[0], outs[1]);
  }

  lemma SweepSize(inputs: seq<Utxo>, destination: Bytes)
    requires AllIds(inputs) && |inputs| <= MAX_INPUTS && |destination| == SCRIPT_SIZE
    ensures WeightOf(SweepForm(inputs, destination, 0)) == 214 + 3905 * |inputs|
    ensures forall rate ::
              Fee(SweepForm(inputs, destination, 0), rate) == ((217 + 3905 * |inputs|) / 4 + 1) * rate
    ensures VSize(SweepForm(inputs, destination, 0)) + FEE_MARGIN <= BASE + PER_INPUT * |inputs|
  {
    assert PER_INPUT == 977 && BASE == 55;
    DraftWeight(inputs, [TxOutput(0, destination)]);
    SumOne(OutputSize, TxOutput(0, destination));
  }

  // ----- Payments -----

  predicate Payable(coins: seq<Coin>, amount: int, rate: int) {
    Amount(amount) && 0 < rate <= MAX_FEE_RATE && forall k | 0 <= k < |coins| :: 0 <= coins[k].value <= MAX_MONEY
  }

  lemma TargetSane(coins: seq<Coin>, amount: int, rate: int, n: nat)
    requires Payable(coins, amount, rate) && 1 <= n <= MAX_INPUTS
    ensures Sane(coins, amount + VSizeFor(n) * rate)
  {
    assert 0 < VSizeFor(n) * rate <= 78204 * 100000 by {
      assert VSizeFor(n) <= 78204;
      assert VSizeFor(n) * rate <= 78204 * rate;
    }
  }

  /** A choice of at most 80 eligible coins that pays its own estimated fee. */
  ghost predicate Pays(chosen: seq<Coin>, eligible: seq<Coin>, amount: int, rate: int) {
    && chosen != [] && |chosen| <= MAX_INPUTS && multiset(chosen) <= multiset(eligible)
    && Worth(chosen) >= amount + VSizeFor(|chosen|) * rate
  }

  lemma {:induction false} EligibleForAny(coins: seq<Coin>, q: Query, taken: set<Outpoint>, target: int)
    ensures Eligibles(coins, q.(target := target), taken) == Eligibles(coins, q, taken)
  {
    if coins != [] {
      EligibleForAny(coins[..|coins| - 1], q, taken, target);
    }
  }

  /** Paying with at least `n` coins covers what is asked for `n`. */
  lemma PayingCovers(chosen: seq<Coin>, eligible: seq<Coin>, amount: int, rate: int, n: nat)
    requires Pays(chosen, eligible, amount, rate) && n <= |chosen| && rate > 0
    ensures Covers(chosen, eligible, amount + VSizeFor(n) * rate)
  {
    SmallerFee(n, |chosen|, rate);
  }

  /** Every paying choice has at least `n` coins. */
  ghost predicate TakesAtLeast(eligible: seq<Coin>, amount: int, rate: int, n: nat) {
    forall chosen | Pays(chosen, eligible, amount, rate) :: n <= |chosen|
  }

  /** A choice is found exactly when one pays its own fee, and then it is one of
      the fewest coins. */
  ghost predicate FewestThatPay(eligible: seq<Coin>, amount: int, rate: int, r: Choice) {
    match r
    case None => forall chosen :: !Pays(chosen, eligible, amount, rate)
    case Chosen(coins) => Pays(coins, eligible, amount, rate) && TakesAtLeast(eligible, amount, rate, |coins|)
  }

  /** What one round says about every paying choice of at least `n` coins. */
  lemma RoundBounds(eligible: seq<Coin>, amount: int, rate: int, n: nat, s: Selection)
    requires rate > 0 && amount > 0 && Optimal(eligible, amount + VSizeFor(n) * rate, s)
    requires 1 <= n && TakesAtLeast(eligible, amount, rate, n) && (s.Selected? ==> |s.coins| <= MAX_INPUTS)
    ensures s.Selected? ==> TakesAtLeast(eligible, amount, rate, |s.coins|)
    ensures s.Selected? && |s.coins| <= n ==> FewestThatPay(eligible, amount, rate, Chosen(s.coins))
    ensures !s.Selected? ==> FewestThatPay(eligible, amount, rate, None)
  {
    forall chosen | Pays(chosen, eligible, amount, rate)
      ensures s.Selected? && |s.coins| <= |chosen|
    {
      PayingCovers(chosen, eligible, amount, rate, n);
    }
    if s.Selected? && |s.coins| <= n {
      EnoughForFewer(eligible, amount, rate, n, s.coins);
    }
  }

  /** What covers the fee of `n` coins pays with no more of them. */
  lemma EnoughForFewer(eligible: seq<Coin>, amount: int, rate: int, n: nat, coins: seq<Coin>)
    requires rate > 0 && amount > 0 && |coins| <= n && |coins| <= MAX_INPUTS
    requires Covers(coins, eligible, amount + VSizeFor(n) * rate)
    ensures Pays(coins, eligible, amount, rate)
  {
    SmallerFee(|coins|, n, rate);
    assert VSizeFor(n) * rate > 0;
    assert coins != [];
  }

  /** Asks for `n` inputs' worth of fee, and again when the answer has more
      inputs. The count only grows, so the loop ends by returning. */
  method SelectForFee(coins: seq<Coin>, q: Query, taken: set<Outpoint>, amount: int, rate: int) returns (r: Choice)
    ensures r.Chosen? ==> |r.coins| <= 80
    ensures r.Chosen? ==>
              forall c | c in r.coins ::
                && c in coins && c.outpoint !in taken && c.assetType == q.assetType
                && (q.allowed == [] || c.address in q.allowed)
                && c.height > 0 && q.tip - c.height + 1 >= q.minConf && (q.minValue > 0 ==> c.value >= q.minValue)
    ensures r.Chosen? && Payable(coins, amount, rate) ==>
              r.coins != [] && Worth(r.coins) >= amount + (1100 + 976 * (|r.coins| - 1)) * rate
    ensures Payable(coins, amount, rate) ==> FewestThatPay(Eligibles(coins, q, taken), amount, rate, r)
  {
    var n := 1;
    ghost var es := Eligibles(coins, q, taken);
    while n <= MAX_INPUTS
      invariant 1 <= n <= MAX_INPUTS
      invariant Payable(coins, amount, rate) ==> TakesAtLeast(es, amount, rate, n)
      decreases MAX_INPUTS - n
    {
      var s := SelectFor(coins, q, taken, amount, rate, n);
      if Payable(coins, amount, rate) {
        RoundBounds(es, amount, rate, n, s);
      }
      if !s.Selected? {
        return None;
      }
      if |s.coins| <= n {
        return Chosen(s.coins);
      }
      n := |s.coins|;
    }
    assert false; // no other way out
    return None;
  }

  method SelectFor(coins: seq<Coin>, q: Query, taken: set<Outpoint>, amount: int, rate: int,
                   n: nat) returns (s: Selection)
    requires 1 <= n <= MAX_INPUTS
    ensures s.Selected? ==> |s.coins| <= MAX_INPUTS
    ensures s.Selected? ==>
              forall c | c in s.coins ::
                && c in coins && c.outpoint !in taken && c.assetType == q.assetType
                && (q.allowed == [] || c.address in q.allowed)
                && c.height > 0 && q.tip - c.height + 1 >= q.minConf && (q.minValue > 0 ==> c.value >= q.minValue)
    ensures Payable(coins, amount, rate) ==> Optimal(Eligibles(coins, q, taken), amount + VSizeFor(n) * rate, s)
  {
    var target := amount + VSizeFor(n) * rate;
    s := Select(coins, q.(target := target), taken);
    EligibleForAny(coins, q, taken, target);
    if Payable(coins, amount, rate) {
      TargetSane(coins, amount, rate, n);
    }
  }

  lemma SmallerFee(k: nat, n: nat, rate: int)
    requires k <= n && rate > 0
    ensures VSizeFor(k) * rate <= VSizeFor(n) * rate
  {
  }

  function Spends(coins: seq<Coin>, ids: seq<Bytes>): seq<Utxo>
    requires |ids| == |coins|
  {
    seq(|coins|, k requires 0 <= k < |coins| => Utxo(ids[k], coins[k].outpoint.vout, coins[k].value))
  }

  lemma {:induction false} SpendsTotal(coins: seq<Coin>, ids: seq<Bytes>)
    requires |ids| == |coins|
    ensures Total(Spends(coins, ids)) == Worth(coins)
  {
    if coins != [] {
      var n := |coins| - 1;
      SpendsTotal(coins[..n], ids[..n]);
      assert Spends(coins, ids)[..n] == Spends(coins[..n], ids[..n]);
    }
  }

  /** Selection suffices: whatever the rate, the builder never finds the coins
      chosen for a payment too few. */
  lemma SelectionSuffices(coins: seq<Coin>, ids: seq<Bytes>, recipient: Bytes, amount: int, change: Bytes, rate: int)
    requires |ids| == |coins| <= MAX_INPUTS && coins != [] && |recipient| == |change| == SCRIPT_SIZE
    requires 0 < rate <= MAX_FEE_RATE ==> Worth(coins) >= amount + VSizeFor(|coins|) * rate
    ensures SendRefusal(Spends(coins, ids), true, recipient, amount, change, rate) != Err(InsufficientFunds)
  {
    var inputs := Spends(coins, ids);
    SpendsTotal(coins, ids);
    if AllIds(inputs) && Amount(amount) && 0 < rate <= MAX_FEE_RATE {
      SendSize(inputs, recipient, amount, change);
      Scaled(VSize(SendForm(inputs, recipient, amount, change)) + FEE_MARGIN, VSizeFor(|coins|), rate);
      Commutes(VSizeFor(|coins|), rate);
      Commutes(VSize(SendForm(inputs, recipient, amount, change)) + FEE_MARGIN, rate);
    }
  }

  lemma Commutes(a: int, b: int)
    ensures a * b == b * a
  {
  }

  // ----- Sweeps -----

  const INPUT_WEIGHT := 3905
  const OUTPUT_WEIGHT := 172
  const OVERHEAD_WEIGHT := 42
  const PER_INPUT := (INPUT_WEIGHT + 3) / 4
  const BASE := (OVERHEAD_WEIGHT + OUTPUT_WEIGHT + 3) / 4 + FEE_MARGIN

  /** How many inputs a sweep at this rate can carry under the fee cap. */
  function InputsWithinFeeCap(rate: int): int
    requires rate > 0
  {
    var room := MAX_FEE / rate - BASE;
    var n := if room < 0 then -(-room / PER_INPUT) else room / PER_INPUT; // division towards zero
    if n < 1 then 1 else if n > MAX_INPUTS then MAX_INPUTS else n
  }

  lemma AtMost(a: int, b: int, rate: int)
    requires rate > 0
    ensures a <= b ==> a * rate <= b * rate
  {
  }

  /** The cap buys at least 2000 vbytes. */
  lemma Share(rate: int)
    requires 0 < rate <= MAX_FEE_RATE
    ensures (MAX_FEE / rate) * rate <= MAX_FEE && MAX_FEE / rate >= 2000
  {
    var share := MAX_FEE / rate;
    assert MAX_FEE == share * rate + MAX_FEE % rate;
    AtMost(share, 1999, rate);
  }

  /** At every rate the builder takes, that many inputs stay under the cap. */
  lemma CapHolds(n: nat, rate: int)
    requires 0 < rate <= MAX_FEE_RATE && n <= InputsWithinFeeCap(rate)
    ensures (BASE + PER_INPUT * n) * rate <= MAX_FEE
  {
    assert PER_INPUT == 977 && BASE == 55;
    Share(rate);
    WithinShare(n, MAX_FEE / rate);
    AtMost(BASE + PER_INPUT * n, MAX_FEE / rate, rate);
  }

  /** ... and no larger number does, unless it is past the limit on inputs. */
  lemma CapIsTight(rate: int)
    requires 0 < rate <= 100_000
    ensures var n := InputsWithinFeeCap(rate);
            && 1 <= n <= 80 && (55 + 977 * n) * rate <= 200_000_000
            && (n < 80 ==> (55 + 977 * (n + 1)) * rate > 200_000_000)
  {
    var n := InputsWithinFeeCap(rate);
    assert PER_INPUT == 977 && BASE == 55;
    Share(rate);
    CapHolds(n, rate);
    if n < 80 {
      var share := MAX_FEE / rate;
      assert 55 + 977 * (n + 1) >= share + 1;
      AtMost(share + 1, 55 + 977 * (n + 1), rate);
      assert MAX_FEE == share * rate + MAX_FEE % rate;
      assert (share + 1) * rate == share * rate + rate;
    }
  }

  lemma WithinShare(n: nat, share: int)
    requires share >= 2000 && n <= (share - 55) / 977
    ensures 55 + 977 * n <= share
  {
  }

  /** What the consolidation asks of its inputs before it builds. */
  predicate Covered(inputs: seq<Utxo>, destination: Bytes, rate: int) {
    Total(inputs) > PER_INPUT * rate * |inputs| + BASE * rate + MinOutputValue(destination)
  }

  /** A sweep of inputs within the cap that cover the fee and the floor is never
      refused for the fee, for funds or for dust. */
  lemma SweepIsBuilt(inputs: seq<Utxo>, destination: Bytes, rate: int)
    requires 0 < rate <= MAX_FEE_RATE && 0 < |inputs| <= InputsWithinFeeCap(rate) && |destination| == SCRIPT_SIZE
    requires Covered(inputs, destination, rate)
    ensures var r := SweepRefusal(inputs, true, destination, rate);
            r.Err? ==> r.error == InvalidAmount || r.error == InputOverflow || r.error == BadInput
    ensures AllAmounts(inputs) && Total(inputs) <= MAX_MONEY && AllIds(inputs) ==>
              SweepRefusal(inputs, true, destination, rate).Ok?
  {
    if AllIds(inputs) {
      var form := SweepForm(inputs, destination, 0);
      SweepSize(inputs, destination);
      CapHolds(|inputs|, rate);
      FeeWithin(VSize(form) + FEE_MARGIN, |inputs|, rate);
    }
  }

  lemma FeeWithin(size: int, n: nat, rate: int)
    requires size <= BASE + PER_INPUT * n && rate > 0
    ensures size * rate <= (BASE + PER_INPUT * n) * rate == PER_INPUT * rate * n + BASE * rate
  {
    assert (BASE + PER_INPUT * n) * rate == BASE * rate + PER_INPUT * n * rate;
  }
}
