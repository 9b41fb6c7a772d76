/** Numbers as bit strings, most significant bit first, and their regrouping. */
module BitStrings {

  function Pow2(n: nat): (r: nat)
    ensures r >= 1
  {
    if n == 0 then 1 else 2 * Pow2(n - 1)
  }

  function Val(b: seq<bool>): nat {
    if b == [] then 0 else 2 * Val(b[..|b| - 1]) + (if b[|b| - 1] then 1 else 0)
  }

  /** The low `w` bits of a number. */
  function BitsOf(x: nat, w: nat): (b: seq<bool>)
    ensures |b| == w
  {
    if w == 0 then [] else BitsOf(x / 2, w - 1) + [x % 2 == 1]
  }

  // ----- Arithmetic -----

  lemma Multiples(k: int, b: int)
    requires 0 < b
    ensures k >= 1 ==> k * b >= b
    ensures k <= -1 ==> k * b <= -b
  {
  }

  lemma DivMod(a: int, b: int, q: int, r: int)
    requires 0 < b && a == q * b + r && 0 <= r < b
    ensures a / b == q && a % b == r
  {
    assert a == (a / b) * b + a % b;
    assert (a / b - q) * b == (a / b) * b - q * b;
    Multiples(a / b - q, b);
  }

  lemma {:induction false} Pow2Adds(m: nat, n: nat)
    ensures Pow2(m + n) == Pow2(m) * Pow2(n)
  {
    if n > 0 {
      Pow2Adds(m, n - 1);
      assert Pow2(m) * (2 * Pow2(n - 1)) == 2 * (Pow2(m) * Pow2(n - 1));
    }
  }

  lemma {:induction false} ValBound(b: seq<bool>)
    ensures Val(b) < Pow2(|b|)
  {
    if b != [] {
      ValBound(b[..|b| - 1]);
    }
  }

  lemma {:induction false} ValConcat(a: seq<bool>, b: seq<bool>)
    ensures Val(a + b) == Val(a) * Pow2(|b|) + Val(b)
  {
    if b == [] {
      assert a + b == a;
    } else {
      var n := |b| - 1;
      ValConcat(a, b[..n]);
      assert (a + b)[..|a + b| - 1] == a + b[..n];
      assert Val(a) * (2 * Pow2(n)) == 2 * (Val(a) * Pow2(n));
    }
  }

  lemma {:induction false} ValOfBits(x: nat, w: nat)
    requires x < Pow2(w)
    ensures Val(BitsOf(x, w)) == x
  {
    if w > 0 {
      ValOfBits(x / 2, w - 1);
      assert BitsOf(x, w)[..w - 1] == BitsOf(x / 2, w - 1);
    }
  }

  lemma {:induction false} BitsOfVal(b: seq<bool>)
    ensures BitsOf(Val(b), |b|) == b
  {
    if b != [] {
      var n := |b| - 1;
      BitsOfVal(b[..n]);
      DivMod(Val(b), 2, Val(b[..n]), if b[n] then 1 else 0);
      assert b == b[..n] + [b[n]];
    }
  }

  // ----- Groups -----

  predicate Fits(data: seq<int>, w: nat) {
    forall k | 0 <= k < |data| :: 0 <= data[k] < Pow2(w)
  }

  /** All groups' bits in a row. */
  function Expand(data: seq<int>, w: nat): (b: seq<bool>)
    requires Fits(data, w)
    ensures |b| == |data| * w
  {
    if data == [] then [] else Expand(data[..|data| - 1], w) + BitsOf(data[|data| - 1], w)
  }

  /** A bit string cut into groups of `w`; a rest shorter than `w` is left. */
  function Groups(b: seq<bool>, w: nat): seq<int>
    requires w > 0
  {
    if |b| < w then [] else [Val(b[..w])] + Groups(b[w..], w)
  }

  /** What is left behind the whole groups. */
  function Rest(b: seq<bool>, w: nat): (r: seq<bool>)
    requires w > 0
    ensures |r| < w
  {
    if |b| < w then b else Rest(b[w..], w)
  }

  /** The whole groups and the rest are the bit string. */
  lemma {:induction false} RestAppend(b: seq<bool>, w: nat, n: nat, c: seq<bool>)
    requires w > 0 && |b| == n * w && |c| < w
    ensures Rest(b + c, w) == c
  {
    if n == 0 {
      assert b + c == c;
    } else {
      assert n * w == (n - 1) * w + w;
      RestAppend(b[w..], w, n - 1, c);
      assert (b + c)[w..] == b[w..] + c;
    }
  }

  lemma {:induction false} SplitRest(b: seq<bool>, w: nat) returns (n: nat, front: seq<bool>)
    requires w > 0
    ensures |front| == n * w && b == front + Rest(b, w) && Groups(b, w) == Groups(front, w) && |Groups(front, w)| == n
  {
    if |b| < w {
      n, front := 0, [];
    } else {
      var m, f := SplitRest(b[w..], w);
      n, front := m + 1, b[..w] + f;
      assert (m + 1) * w == m * w + w;
      SplitMore(b, w, f);
    }
  }

  lemma SplitMore(b: seq<bool>, w: nat, f: seq<bool>)
    requires 0 < w <= |b| && b[w..] == f + Rest(b[w..], w) && Groups(b[w..], w) == Groups(f, w)
    ensures b == b[..w] + f + Rest(b, w) && Groups(b, w) == Groups(b[..w] + f, w) == [Val(b[..w])] + Groups(f, w)
  {
    Rejoined(b, w, f, Rest(b[w..], w));
    GroupsFront(b[..w], w, f);
  }

  lemma Rejoined(b: seq<bool>, w: nat, f: seq<bool>, rest: seq<bool>)
    requires w <= |b| && b[w..] == f + rest
    ensures b == b[..w] + f + rest
  {
  }

  lemma GroupsFront(first: seq<bool>, w: nat, f: seq<bool>)
    requires 0 < w == |first|
    ensures Groups(first + f, w) == [Val(first)] + Groups(f, w)
  {
    assert (first + f)[..w] == first && (first + f)[w..] == f;
  }

  lemma {:induction false} GroupsAppend(b: seq<bool>, w: nat, n: nat, c: seq<bool>)
    requires w > 0 && |b| == n * w
    ensures Groups(b + c, w) == Groups(b, w) + Groups(c, w) && |Groups(b, w)| == n
  {
    if n == 0 {
      assert b + c == c;
    } else {
      assert n * w == (n - 1) * w + w;
      GroupsAppend(b[w..], w, n - 1, c);
      GroupsFront(b[..w], w, b[w..] + c);
      GroupsFront(b[..w], w, b[w..]);
      assert b + c == b[..w] + (b[w..] + c) && b == b[..w] + b[w..];
    }
  }

  /** One whole group more. */
  lemma GroupsMore(b: seq<bool>, w: nat, n: nat, c: seq<bool>)
    requires w > 0 && |b| == n * w && |c| == w
    ensures Groups(b + c, w) == Groups(b, w) + [Val(c)] && |Groups(b, w)| == n
  {
    GroupsAppend(b, w, n, c);
    assert c[..w] == c && c[w..] == [];
  }

  lemma {:induction false} GroupsExpand(data: seq<int>, w: nat)
    requires w > 0 && Fits(data, w)
    ensures Groups(Expand(data, w), w) == data
  {
    if data != [] {
      var n := |data| - 1;
      var b, c := Expand(data[..n], w), BitsOf(data[n], w);
      GroupsExpand(data[..n], w);
      GroupsMore(b, w, n, c);
      ValOfBits(data[n], w);
      assert Expand(data, w) == b + c;
      assert Groups(b + c, w) == data[..n] + [data[n]] == data;
    }
  }

  lemma {:induction false} ExpandGroups(b: seq<bool>, w: nat, n: nat)
    requires w > 0 && |b| == n * w
    ensures Fits(Groups(b, w), w) && Expand(Groups(b, w), w) == b
  {
    if n > 0 {
      assert n * w == (n - 1) * w + w;
      var k := (n - 1) * w;
      ExpandGroups(b[..k], w, n - 1);
      ExpandMore(b[..k], w, n - 1, b[k..]);
      assert b == b[..k] + b[k..];
    }
  }

  lemma ExpandMore(b: seq<bool>, w: nat, n: nat, last: seq<bool>)
    requires w > 0 && |b| == n * w && |last| == w && Fits(Groups(b, w), w) && Expand(Groups(b, w), w) == b
    ensures Fits(Groups(b + last, w), w) && Expand(Groups(b + last, w), w) == b + last
  {
    GroupsMore(b, w, n, last);
    LastGroup(Groups(b, w), last, w);
  }

  lemma LastGroup(gs: seq<int>, last: seq<bool>, w: nat)
    requires Fits(gs, w) && |last| == w
    ensures Fits(gs + [Val(last)], w) && Expand(gs + [Val(last)], w) == Expand(gs, w) + last
  {
    BitsOfVal(last);
    ValBound(last);
    assert (gs + [Val(last)])[..|gs|] == gs;
  }

  // ----- Zeros -----

  function Zeros(n: nat): seq<bool> {
    seq(n, _ => false)
  }

  lemma {:induction false} ValZero(b: seq<bool>)
    ensures Val(b) == 0 <==> b == Zeros(|b|)
  {
    if b != [] {
      var n := |b| - 1;
      ValZero(b[..n]);
      assert b == b[..n] + [b[n]];
      assert Zeros(|b|) == Zeros(n) + [false];
    }
  }
}
