/** Largest-first coin selection. */
module CoinSelection {
  import opened SpentSet
  import opened TxBuilder

  datatype Coin = Coin(outpoint: Outpoint, value: int, height: int, assetType: nat, address: string)

  /** `allowed` empty allows every address; `minValue` zero or less filters
      nothing. */
  datatype Query = Query(target: int, minConf: int, tip: int, allowed: seq<string>, assetType: nat, minValue: int)

  datatype Selection =
    | Selected(coins: seq<Coin>, total: int)
    | LimitReached(coins: seq<Coin>, total: int)
    | Insufficient(total: int)

  const MAX_INPUTS := 80
  const MAX_INT64 := 0x7fff_ffff_ffff_ffff

  function CoinValue(c: Coin): int {
    c.value
  }

  function Worth(coins: seq<Coin>): int {
    Sum(CoinValue, coins)
  }

  /** Two's complement addition. */
  function Wrap64(x: int): int {
    (x + MAX_INT64 + 1) % 0x1_0000_0000_0000_0000 - MAX_INT64 - 1
  }

  predicate Eligible(c: Coin, q: Query, taken: set<Outpoint>) {
    && c.outpoint !in taken && c.assetType == q.assetType && (q.allowed == [] || c.address in q.allowed)
    && c.height > 0 && q.tip - c.height + 1 >= q.minConf && !(q.minValue > 0 && c.value < q.minValue)
  }

  function Eligibles(coins: seq<Coin>, q: Query, taken: set<Outpoint>): seq<Coin> {
    if coins == [] then []
    else
      var front := Eligibles(coins[..|coins| - 1], q, taken);
      if Eligible(coins[|coins| - 1], q, taken) then front + [coins[|coins| - 1]] else front
  }

  /** The eligible coins are those not taken, of the asset, at an allowed address,
      deep enough and large enough, each as often as it is listed. */
  lemma {:induction false} EligiblesAre(coins: seq<Coin>, q: Query, taken: set<Outpoint>)
    ensures forall c ::
              multiset(Eligibles(coins, q, taken))[c] ==
              if c.outpoint !in taken && c.assetType == q.assetType && (q.allowed == [] || c.address in q.allowed) &&
                 c.height > 0 && q.tip - c.height + 1 >= q.minConf && (q.minValue <= 0 || c.value >= q.minValue)
              then multiset(coins)[c] else 0
  {
    if coins != [] {
      var n := |coins| - 1;
      EligiblesAre(coins[..n], q, taken);
      assert coins == coins[..n] + [coins[n]];
    }
  }

  method Collect(coins: seq<Coin>, q: Query, taken: set<Outpoint>) returns (cs: seq<Coin>)
    ensures cs == Eligibles(coins, q, taken)
  {
    cs := [];
    for k := 0 to |coins|
      invariant cs == Eligibles(coins[..k], q, taken)
    {
      assert coins[..k + 1][..k] == coins[..k];
      if Eligible(coins[k], q, taken) {
        cs := cs + [coins[k]];
      }
    }
    assert coins[..|coins|] == coins;
  }

  // ----- Sorting -----

  predicate Descending(cs: seq<Coin>) {
    forall i, j | 0 <= i < j < |cs| :: cs[i].value >= cs[j].value
  }

  method Insert(cs: seq<Coin>, c: Coin) returns (r: seq<Coin>)
    requires Descending(cs)
    ensures Descending(r) && multiset(r) == multiset(cs) + multiset{c}
  {
    var i := 0;
    while i < |cs| && cs[i].value >= c.value
      invariant 0 <= i <= |cs| && forall j | 0 <= j < i :: cs[j].value >= c.value
    {
      i := i + 1;
    }
    r := cs[..i] + [c] + cs[i..];
    InsertedAt(cs, i, c);
    assert cs == cs[..i] + cs[i..];
  }

  lemma InsertedAt(cs: seq<Coin>, i: nat, c: Coin)
    requires Descending(cs) && i <= |cs| && (forall j | 0 <= j < i :: cs[j].value >= c.value)
    requires i == |cs| || cs[i].value < c.value
    ensures Descending(cs[..i] + [c] + cs[i..])
  {
    var r := cs[..i] + [c] + cs[i..];
    forall j, k | 0 <= j < k < |r| ensures r[j].value >= r[k].value {
      assert j > i ==> r[j] == cs[j - 1];
      assert k > i ==> r[k] == cs[k - 1];
    }
  }

  method SortDescending(cs: seq<Coin>) returns (r: seq<Coin>)
    ensures Descending(r) && multiset(r) == multiset(cs)
  {
    r := [];
    for k := 0 to |cs|
      invariant Descending(r) && multiset(r) == multiset(cs[..k])
    {
      assert cs[..k + 1] == cs[..k] + [cs[k]];
      r := Insert(r, cs[k]);
    }
    assert cs[..|cs|] == cs;
  }

  // ----- The largest are the best -----

  lemma {:induction false} WorthConcat(a: seq<Coin>, b: seq<Coin>)
    ensures Worth(a + b) == Worth(a) + Worth(b)
  {
    if b == [] {
      assert a + b == a;
    } else {
      WorthConcat(a, b[..|b| - 1]);
      assert (a + b)[..|a + b| - 1] == a + b[..|b| - 1];
    }
  }

  lemma WorthOne(c: Coin)
    ensures Worth([c]) == c.value
  {
    SumOne(CoinValue, c);
  }

  lemma WorthWithout(s: seq<Coin>, i: nat)
    requires i < |s|
    ensures Worth(s) == Worth(s[..i] + s[i + 1..]) + s[i].value
    ensures multiset(s) == multiset(s[..i] + s[i + 1..]) + multiset{s[i]}
  {
    assert s == s[..i] + ([s[i]] + s[i + 1..]);
    WorthConcat(s[..i], [s[i]] + s[i + 1..]);
    WorthConcat([s[i]], s[i + 1..]);
    WorthConcat(s[..i], s[i + 1..]);
    WorthOne(s[i]);
  }

  /** Dropping the first of `k + 1` coins in descending order loses no less than
      dropping the last. */
  lemma ShiftLoses(cs: seq<Coin>, k: nat)
    requires Descending(cs) && k < |cs|
    ensures Worth(cs[1..k + 1]) <= Worth(cs[..k])
  {
    if k > 0 {
      assert cs[..k] == [cs[0]] + cs[1..k] && cs[1..k + 1] == cs[1..k] + [cs[k]];
      WorthConcat([cs[0]], cs[1..k]);
      WorthConcat(cs[1..k], [cs[k]]);
      WorthOne(cs[0]);
      WorthOne(cs[k]);
    }
  }

  lemma Fewer(chosen: seq<Coin>, cs: seq<Coin>)
    requires multiset(chosen) <= multiset(cs)
    ensures |chosen| <= |cs|
  {
    assert |multiset(chosen)| == |chosen| && |multiset(cs)| == |cs|;
    assert multiset(cs) == multiset(chosen) + (multiset(cs) - multiset(chosen));
  }

  lemma CancelOne(a: multiset<Coin>, b: multiset<Coin>, c: Coin)
    requires a + multiset{c} <= b + multiset{c}
    ensures a <= b
  {
    forall x ensures a[x] <= b[x] {
      assert (a + multiset{c})[x] <= (b + multiset{c})[x];
    }
  }

  lemma DropAbsent(a: multiset<Coin>, b: multiset<Coin>, c: Coin)
    requires a <= b + multiset{c} && c !in a
    ensures a <= b
  {
    forall x ensures a[x] <= b[x] {
      assert a[x] <= (b + multiset{c})[x];
    }
  }

  /** No choice of as many coins is worth more than the largest. */
  lemma {:induction false} LargestAreBest(cs: seq<Coin>, chosen: seq<Coin>)
    requires Descending(cs) && multiset(chosen) <= multiset(cs)
    ensures |chosen| <= |cs| && Worth(chosen) <= Worth(cs[..|chosen|])
    decreases |cs|
  {
    Fewer(chosen, cs);
    if chosen == [] {
      assert cs[..0] == [];
    } else if cs[0] in chosen {
      var less := WithoutLargest(cs, chosen);
      LargestAreBest(cs[1..], less);
      WorthFront(cs, |chosen|);
    } else {
      NotLargest(cs, chosen);
      LargestAreBest(cs[1..], chosen);
      assert cs[1..][..|chosen|] == cs[1..|chosen| + 1];
      ShiftLoses(cs, |chosen|);
    }
  }

  lemma WithoutLargest(cs: seq<Coin>, chosen: seq<Coin>) returns (less: seq<Coin>)
    requires cs != [] && multiset(chosen) <= multiset(cs) && cs[0] in chosen
    ensures |less| == |chosen| - 1 && Worth(chosen) == Worth(less) + cs[0].value && multiset(less) <= multiset(cs[1..])
  {
    var i :| 0 <= i < |chosen| && chosen[i] == cs[0];
    less := chosen[..i] + chosen[i + 1..];
    WorthWithout(chosen, i);
    assert cs == [cs[0]] + cs[1..];
    assert multiset(cs) == multiset(cs[1..]) + multiset{cs[0]};
    CancelOne(multiset(less), multiset(cs[1..]), cs[0]);
  }

  lemma NotLargest(cs: seq<Coin>, chosen: seq<Coin>)
    requires cs != [] && multiset(chosen) <= multiset(cs) && cs[0] !in chosen
    ensures multiset(chosen) <= multiset(cs[1..])
  {
    assert cs == [cs[0]] + cs[1..];
    assert multiset(cs) == multiset(cs[1..]) + multiset{cs[0]};
    DropAbsent(multiset(chosen), multiset(cs[1..]), cs[0]);
  }

  lemma WorthFront(cs: seq<Coin>, k: nat)
    requires 0 < k <= |cs|
    ensures Worth(cs[..k]) == cs[0].value + Worth(cs[1..][..k - 1])
  {
    assert cs[..k] == [cs[0]] + cs[1..][..k - 1];
    WorthConcat([cs[0]], cs[1..][..k - 1]);
    WorthOne(cs[0]);
  }

  /** A choice among the eligible coins that covers the target. */
  ghost predicate Covers(chosen: seq<Coin>, eligible: seq<Coin>, target: int) {
    multiset(chosen) <= multiset(eligible) && Worth(chosen) >= target
  }

  // ----- The loop -----

  /** Values are amounts and the target leaves room for one more. */
  predicate Sane(coins: seq<Coin>, target: int) {
    0 < target <= MAX_INT64 - MAX_MONEY && forall k | 0 <= k < |coins| :: 0 <= coins[k].value <= MAX_MONEY
  }

  lemma WrapFits(x: int)
    requires 0 <= x <= MAX_INT64
    ensures Wrap64(x) == x
  {
  }

  method Accumulate(cs: seq<Coin>, target: int) returns (r: Selection)
    ensures !r.Insufficient? ==> |r.coins| <= |cs| && |r.coins| <= MAX_INPUTS && r.coins == cs[..|r.coins|]
    ensures Sane(cs, target) ==> Stops(cs, target, r)
  {
    var selected: seq<Coin>, total := [], 0;
    assert cs[..0] == [];
    for k := 0 to |cs|
      invariant k < MAX_INPUTS && selected == cs[..k]
      invariant Sane(cs, target) ==> 0 <= total == Worth(cs[..k]) && forall j | 0 <= j <= k :: Worth(cs[..j]) < target
    {
      assert cs[..k + 1][..k] == cs[..k];
      if Sane(cs, target) {
        WrapFits(total + cs[k].value); // the sum so far is below the target
      }
      selected := selected + [cs[k]];
      total := Wrap64(total + cs[k].value);
      assert selected == cs[..k + 1];
      if total >= target {
        return Selected(selected, total);
      }
      if |selected| >= MAX_INPUTS {
        return LimitReached(selected, total);
      }
    }
    assert cs[..|cs|] == cs;
    return Insufficient(total);
  }

  /** Where the loop stops: at the first prefix that covers the target. */
  ghost predicate Stops(cs: seq<Coin>, target: int, r: Selection) {
    && (r.Selected? <==> exists k :: 0 <= k <= |cs| && k <= MAX_INPUTS && Worth(cs[..k]) >= target)
    && (!r.Insufficient? ==> r.total == Worth(r.coins))
    && (r.Selected? ==> |r.coins| <= |cs| && r.total >= target)
    && (r.Selected? && |r.coins| <= |cs| ==> forall k | 0 <= k < |r.coins| :: Worth(cs[..k]) < target)
    && (r.Insufficient? ==> r.total == Worth(cs))
  }

  /** The best possible: a covering choice is found exactly when one of at most
      80 coins exists, and no covering choice has fewer coins. */
  ghost predicate Optimal(es: seq<Coin>, target: int, r: Selection) {
    && (r.Selected? <==> exists chosen: seq<Coin> :: Covers(chosen, es, target) && |chosen| <= MAX_INPUTS)
    && (r.Selected? ==> Covers(r.coins, es, target) && r.total == Worth(r.coins))
    && (r.Selected? ==> forall chosen: seq<Coin> | Covers(chosen, es, target) :: |r.coins| <= |chosen|)
    && (r.Insufficient? ==> r.total == Worth(es))
  }

  /** Selection: never more than 80 coins, all eligible; and for amounts and a
      positive target with room for one more amount, the best possible, its
      running total exact. */
  method Select(coins: seq<Coin>, q: Query, taken: set<Outpoint>) returns (r: Selection)
    ensures !r.Insufficient? ==> |r.coins| <= 80 && multiset(r.coins) <= multiset(Eligibles(coins, q, taken))
    ensures !r.Insufficient? ==>
              forall c | c in r.coins ::
                && c in coins && c.outpoint !in taken && c.assetType == q.assetType
                && (q.allowed == [] || c.address in q.allowed)
                && c.height > 0 && q.tip - c.height + 1 >= q.minConf && (q.minValue > 0 ==> c.value >= q.minValue)
    ensures Sane(coins, q.target) ==> Optimal(Eligibles(coins, q, taken), q.target, r)
  {
    var es := Collect(coins, q, taken);
    var cs := SortDescending(es);
    r := Accumulate(cs, q.target);
    if !r.Insufficient? {
      PrefixChosen(cs, |r.coins|);
      forall c | c in r.coins ensures c in es {
        assert multiset(r.coins)[c] <= multiset(es)[c];
      }
      EligiblesAre(coins, q, taken);
    }
    if Sane(coins, q.target) {
      EligiblesSane(coins, q, taken);
      SortedSane(es, cs, q.target);
      StopsOptimal(es, cs, q.target, r);
    }
  }

  lemma {:induction false} EligiblesSane(coins: seq<Coin>, q: Query, taken: set<Outpoint>)
    requires Sane(coins, q.target)
    ensures Sane(Eligibles(coins, q, taken), q.target)
  {
    if coins != [] {
      EligiblesSane(coins[..|coins| - 1], q, taken);
    }
  }

  lemma SortedSane(es: seq<Coin>, cs: seq<Coin>, target: int)
    requires Sane(es, target) && multiset(cs) == multiset(es)
    ensures Sane(cs, target)
  {
    forall k | 0 <= k < |cs| ensures 0 <= cs[k].value <= MAX_MONEY {
      assert cs[k] in multiset(cs);
      assert cs[k] in es;
    }
  }

  lemma PrefixChosen(cs: seq<Coin>, k: nat)
    requires k <= |cs|
    ensures multiset(cs[..k]) <= multiset(cs)
  {
    assert cs == cs[..k] + cs[k..];
  }

  lemma {:induction false} SameWorth(a: seq<Coin>, b: seq<Coin>)
    requires multiset(a) == multiset(b)
    ensures Worth(a) == Worth(b)
  {
    if a == [] {
      assert |multiset(b)| == 0;
      assert b == [];
    } else {
      var n := |a| - 1;
      assert a[n] in multiset(b);
      var i :| 0 <= i < |b| && b[i] == a[n];
      WorthWithout(b, i);
      assert a == a[..n] + [a[n]];
      assert multiset(a) == multiset(a[..n]) + multiset{a[n]};
      CancelOne(multiset(a[..n]), multiset(b[..i] + b[i + 1..]), a[n]);
      CancelOne(multiset(b[..i] + b[i + 1..]), multiset(a[..n]), a[n]);
      SameWorth(a[..n], b[..i] + b[i + 1..]);
    }
  }

  lemma StopsOptimal(es: seq<Coin>, cs: seq<Coin>, target: int, r: Selection)
    requires Descending(cs) && multiset(cs) == multiset(es) && Stops(cs, target, r)
    requires !r.Insufficient? ==> |r.coins| <= |cs| && |r.coins| <= MAX_INPUTS && r.coins == cs[..|r.coins|]
    ensures Optimal(es, target, r)
  {
    forall chosen: seq<Coin> | Covers(chosen, es, target) ensures |chosen| <= |cs| && Worth(cs[..|chosen|]) >= target {
      LargestAreBest(cs, chosen);
    }
    if r.Selected? {
      PrefixChosen(cs, |r.coins|);
      assert Covers(r.coins, es, target);
    }
    SameWorth(cs, es);
  }
}
