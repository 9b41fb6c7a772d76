/** Conversion between group widths with a 64-bit accumulator that is never
    masked: what has been emitted stays in its high bits and is shifted out. */
module Regroup {
  import opened BitStrings

  datatype Option<T> = None | Some(value: T)

  const WORD: nat := 0x1_0000_0000_0000_0000

  lemma Pow64()
    ensures Pow2(64) == WORD
  {
    assert Pow2(4) == 16;
    Pow2Adds(4, 4);
    assert Pow2(8) == 0x100;
    Pow2Adds(8, 8);
    assert Pow2(16) == 0x1_0000;
    Pow2Adds(16, 16);
    assert Pow2(32) == 0x1_0000_0000;
    Pow2Adds(32, 32);
  }

  lemma WordHolds(n: nat)
    requires n <= 64
    ensures WORD == Pow2(64 - n) * Pow2(n)
  {
    Pow64();
    Pow2Adds(64 - n, n);
  }

  function Padded(b: seq<bool>, w: nat): seq<bool>
    requires w > 0
  {
    if Rest(b, w) == [] then b else b + Zeros(w - |Rest(b, w)|)
  }

  /** Exact regrouping of the bit string. With `pad` a rest is filled with
      zeros to a last group; without, a rest must be shorter than one group of
      the input and all zeros. */
  function Regrouped(data: seq<int>, from: nat, to: nat, pad: bool): Option<seq<int>>
    requires from > 0 && to > 0
  {
    if !Fits(data, from) then None
    else if pad then Some(Groups(Padded(Expand(data, from), to), to))
    else
      var rest := Rest(Expand(data, from), to);
      if |rest| >= from || rest != Zeros(|rest|) then None else Some(Groups(Expand(data, from), to))
  }

  // ----- Arithmetic of the accumulator -----

  lemma Spread(q: int, t: int, j: int, x: int)
    ensures (q - t * j) * x == q * x - t * (j * x)
  {
    assert t * (j * x) == (t * j) * x;
  }

  lemma Scale(q: int, p: int, v: int, f: int)
    ensures (q * p + v) * f == q * (p * f) + v * f
  {
  }

  /** Shifting in `d`, modulo a word that holds a whole number of groups. */
  lemma TakesIn(acc: int, q: int, p: int, v: int, f: int, d: int, w: int, j: int) returns (q': int)
    requires acc == q * p + v && w == j * (p * f) && w > 0
    ensures (acc * f) % w + d == q' * (p * f) + (v * f + d)
  {
    var x := p * f;
    var t := (acc * f) / w;
    q' := q - t * j;
    Scale(q, p, v, f);
    assert acc * f == t * w + (acc * f) % w;
    Spread(q, t, j, x);
  }

  /** The top `t` of what is held, and what is then held. */
  lemma GivesOut(acc: int, q: int, t: int, l: int, hi: int, lo: int)
    requires acc == q * (t * l) + (hi * l + lo) && 0 <= lo < l && 0 <= hi < t
    ensures acc == (q * t + hi) * l + lo && (acc / l) % t == hi
  {
    assert (q * t + hi) * l == q * (t * l) + hi * l;
    DivMod(acc, l, q * t + hi, lo);
    DivMod(q * t + hi, t, q, hi);
  }

  // ----- The loop -----

  /** The accumulator holds `rest` in its low bits. */
  ghost predicate Holds(acc: nat, q: int, rest: seq<bool>) {
    acc == q * Pow2(|rest|) + Val(rest)
  }

  /** Groups given out so far are exactly those of `front`. */
  ghost predicate Given(front: seq<bool>, to: nat, result: seq<int>)
    requires to > 0
  {
    |front| == |result| * to && result == Groups(front, to)
  }

  lemma HoldsMore(acc: nat, q: int, rest: seq<bool>, from: nat, d: nat) returns (q': int)
    requires Holds(acc, q, rest) && d < Pow2(from) && |rest| + from <= 64
    ensures Holds((acc * Pow2(from)) % WORD + d, q', rest + BitsOf(d, from))
  {
    var n := |rest| + from;
    Pow2Adds(|rest|, from);
    WordHolds(n);
    q' := TakesIn(acc, q, Pow2(|rest|), Val(rest), Pow2(from), d, WORD, Pow2(64 - n));
    ValConcat(rest, BitsOf(d, from));
    ValOfBits(d, from);
  }

  lemma HoldsLess(acc: nat, q: int, rest: seq<bool>, to: nat) returns (q': int)
    requires Holds(acc, q, rest) && to <= |rest|
    ensures (acc / Pow2(|rest| - to)) % Pow2(to) == Val(rest[..to]) && Holds(acc, q', rest[to..])
  {
    Pow2Adds(to, |rest| - to);
    assert rest == rest[..to] + rest[to..];
    ValConcat(rest[..to], rest[to..]);
    ValBound(rest[..to]);
    ValBound(rest[to..]);
    GivesOut(acc, q, Pow2(to), Pow2(|rest| - to), Val(rest[..to]), Val(rest[to..]));
    q' := q * Pow2(to) + Val(rest[..to]);
  }

  /** The rest moved to the top of a group. */
  lemma Aligned(acc: nat, q: int, rest: seq<bool>, to: nat)
    requires Holds(acc, q, rest) && |rest| < to <= 64
    ensures (acc * Pow2(to - |rest|)) % WORD % Pow2(to) == Val(rest + Zeros(to - |rest|))
  {
    var z := to - |rest|;
    Pow2Adds(|rest|, z);
    WordHolds(to);
    var q' := TakesIn(acc, q, Pow2(|rest|), Val(rest), Pow2(z), 0, WORD, Pow2(64 - to));
    ValConcat(rest, Zeros(z));
    ValZero(Zeros(z));
    ValBound(rest + Zeros(z));
    DivMod((acc * Pow2(z)) % WORD, Pow2(to), q', Val(rest + Zeros(z)));
  }

  lemma GivenMore(front: seq<bool>, to: nat, result: seq<int>, c: seq<bool>)
    requires to > 0 && Given(front, to, result) && |c| == to
    ensures Given(front + c, to, result + [Val(c)])
  {
    GroupsMore(front, to, |result|, c);
    assert (|result| + 1) * to == |result| * to + to;
  }

  lemma GivenAll(front: seq<bool>, to: nat, result: seq<int>, rest: seq<bool>)
    requires to > 0 && Given(front, to, result) && |rest| < to
    ensures Groups(front + rest, to) == result && Rest(front + rest, to) == rest
  {
    GroupsAppend(front, to, |result|, rest);
    RestAppend(front, to, |result|, rest);
  }

  /** convertBits. Values are bytes or symbols, so both widths are at most 8. */
  method ConvertBits(data: seq<int>, from: nat, to: nat, pad: bool) returns (r: Option<seq<int>>)
    requires 0 < from <= 8 && 0 < to <= 8
    ensures r == Regrouped(data, from, to, pad)
  {
    var acc: nat, bits: nat, result := 0, 0, [];
    ghost var q: int, front, rest := 0, [], [];
    for k := 0 to |data|
      invariant Fits(data[..k], from) && bits == |rest| < to
      invariant Holds(acc, q, rest) && Given(front, to, result)
      invariant Expand(data[..k], from) == front + rest
    {
      var d := data[k];
      if d < 0 || d >= Pow2(from) {
        return None;
      }
      ExpandOne(data, k, from, front, rest);
      result, acc, bits, front, rest, q := Absorb(d, from, to, result, acc, bits, front, rest, q);
    }
    assert data[..|data|] == data;
    r := Finish(data, from, to, pad, result, acc, bits, front, rest, q);
  }

  lemma ExpandOne(data: seq<int>, k: nat, from: nat, front: seq<bool>, rest: seq<bool>)
    requires k < |data| && Fits(data[..k], from) && 0 <= data[k] < Pow2(from) && Expand(data[..k], from) == front + rest
    ensures Fits(data[..k + 1], from) && Expand(data[..k + 1], from) == front + (rest + BitsOf(data[k], from))
  {
    assert data[..k + 1][..k] == data[..k];
    var bits := BitsOf(data[k], from);
    assert (front + rest) + bits == front + (rest + bits);
  }

  /** One group taken in and every whole group given out. */
  method Absorb(d: nat, from: nat, to: nat, result: seq<int>, acc: nat, bits: nat,
                ghost front: seq<bool>, ghost rest: seq<bool>, ghost q: int)
    returns (out: seq<int>, acc': nat, left: nat, ghost front': seq<bool>, ghost rest': seq<bool>, ghost q': int)
    requires 0 < from <= 8 && 0 < to <= 8 && d < Pow2(from) && bits == |rest| < to
    requires Holds(acc, q, rest) && Given(front, to, result)
    ensures left == |rest'| < to && Holds(acc', q', rest') && Given(front', to, out)
    ensures front' + rest' == front + (rest + BitsOf(d, from))
  {
    q' := HoldsMore(acc, q, rest, from, d);
    acc' := (acc * Pow2(from)) % WORD + d;
    out, left, front', rest', q' := Drain(front, rest + BitsOf(d, from), q', result, acc', bits + from, to);
  }

  method Drain(ghost front: seq<bool>, ghost rest: seq<bool>, ghost q: int, result: seq<int>, acc: nat, bits: nat,
               to: nat)
    returns (out: seq<int>, left: nat, ghost front': seq<bool>, ghost rest': seq<bool>, ghost q': int)
    requires to > 0 && bits == |rest| && Holds(acc, q, rest) && Given(front, to, result)
    ensures left == |rest'| < to && Holds(acc, q', rest') && Given(front', to, out) && front' + rest' == front + rest
  {
    out, left, front', rest', q' := result, bits, front, rest, q;
    while left >= to
      invariant left == |rest'| && Holds(acc, q', rest') && Given(front', to, out) && front' + rest' == front + rest
    {
      q' := HoldsLess(acc, q', rest', to);
      GivenMore(front', to, out, rest'[..to]);
      assert (front' + rest'[..to]) + rest'[to..] == front' + rest';
      left := left - to;
      out := out + [(acc / Pow2(left)) % Pow2(to)];
      front', rest' := front' + rest'[..to], rest'[to..];
    }
  }

  method Finish(data: seq<int>, from: nat, to: nat, pad: bool, result: seq<int>, acc: nat, bits: nat,
                ghost front: seq<bool>, ghost rest: seq<bool>, ghost q: int)
    returns (r: Option<seq<int>>)
    requires 0 < from <= 8 && 0 < to <= 8 && Fits(data, from) && bits == |rest| < to
    requires Holds(acc, q, rest) && Given(front, to, result) && Expand(data, from) == front + rest
    ensures r == Regrouped(data, from, to, pad)
  {
    Aligned(acc, q, rest, to);
    var top := (acc * Pow2(to - bits)) % WORD % Pow2(to);
    if pad {
      WithPadding(data, from, to, result, front, rest);
      return Some(if bits > 0 then result + [top] else result);
    }
    WithoutPadding(data, from, to, result, front, rest);
    return if bits >= from || top != 0 then None else Some(result);
  }

  lemma WithPadding(data: seq<int>, from: nat, to: nat, result: seq<int>, front: seq<bool>, rest: seq<bool>)
    requires from > 0 && Fits(data, from) && |rest| < to && Given(front, to, result) &&
             Expand(data, from) == front + rest
    ensures Regrouped(data, from, to, true) ==
            Some(if rest == [] then result else result + [Val(rest + Zeros(to - |rest|))])
  {
    GivenAll(front, to, result, rest);
    PaddedGroups(front + rest, to, result, front, rest);
  }

  lemma PaddedGroups(b: seq<bool>, to: nat, result: seq<int>, front: seq<bool>, rest: seq<bool>)
    requires |rest| < to && Given(front, to, result) && b == front + rest
    requires Groups(b, to) == result && Rest(b, to) == rest
    ensures Groups(Padded(b, to), to) == if rest == [] then result else result + [Val(rest + Zeros(to - |rest|))]
  {
    if rest != [] {
      var z := Zeros(to - |rest|);
      assert Padded(b, to) == front + (rest + z);
      GroupsMore(front, to, |result|, rest + z);
    }
  }

  lemma WithoutPadding(data: seq<int>, from: nat, to: nat, result: seq<int>, front: seq<bool>, rest: seq<bool>)
    requires from > 0 && Fits(data, from) && |rest| < to && Given(front, to, result) &&
             Expand(data, from) == front + rest
    ensures Regrouped(data, from, to, false) ==
            if |rest| >= from || Val(rest + Zeros(to - |rest|)) != 0 then None else Some(result)
  {
    GivenAll(front, to, result, rest);
    RestZero(rest, to - |rest|);
  }

  lemma RestZero(rest: seq<bool>, z: nat)
    ensures Val(rest + Zeros(z)) == 0 <==> rest == Zeros(|rest|)
  {
    ValConcat(rest, Zeros(z));
    ValZero(Zeros(z));
    ValZero(rest);
    Product(Val(rest), Pow2(z));
  }

  lemma Product(x: nat, y: nat)
    requires y >= 1
    ensures x * y == 0 <==> x == 0
  {
  }

  // ----- Regrouping back -----

  lemma PaddedWhole(b: seq<bool>, w: nat) returns (n: nat, z: nat)
    requires w > 0
    ensures Padded(b, w) == b + Zeros(z) && z < w && |Padded(b, w)| == n * w
  {
    var m, front := SplitRest(b, w);
    if Rest(b, w) == [] {
      n, z := m, 0;
      assert b + Zeros(0) == b;
    } else {
      n, z := m + 1, w - |Rest(b, w)|;
      assert (m + 1) * w == m * w + w;
    }
  }

  /** Padding to groups of `b` bits and going back to groups of `a` loses and
      adds nothing. */
  lemma RegroupBack(data: seq<int>, a: nat, b: nat)
    requires 0 < b <= a && Fits(data, a)
    ensures Regrouped(data, a, b, true).Some?
    ensures Regrouped(Regrouped(data, a, b, true).value, b, a, false) == Some(data)
  {
    var bits := Expand(data, a);
    var n, z := PaddedWhole(bits, b);
    ExpandGroups(Padded(bits, b), b, n);
    Unpadded(Groups(Padded(bits, b), b), bits, z, a, b, |data|);
    GroupsExpand(data, a);
  }

  lemma Unpadded(g: seq<int>, bits: seq<bool>, z: nat, a: nat, b: nat, n: nat)
    requires 0 < b <= a && z < b && |bits| == n * a && Fits(g, b) && Expand(g, b) == bits + Zeros(z)
    ensures Regrouped(g, b, a, false) == Some(Groups(bits, a))
  {
    RestAppend(bits, a, n, Zeros(z));
    GroupsAppend(bits, a, n, Zeros(z));
    assert Groups(bits, a) + [] == Groups(bits, a);
  }

  /** What is accepted without padding comes back the same when padded: no two
      groupings are accepted for one string of bytes. */
  lemma RegroupForth(data: seq<int>, a: nat, b: nat)
    requires 0 < b <= a && Regrouped(data, b, a, false).Some?
    ensures Regrouped(Regrouped(data, b, a, false).value, a, b, true) == Some(data)
  {
    var bits := Expand(data, b);
    var rest := Rest(bits, a);
    var n, front := SplitRest(bits, a);
    ExpandGroups(front, a, n);
    PadsTo(front, b, |data|, |rest|);
    assert front + Zeros(|rest|) == bits;
    GroupsExpand(data, b);
  }

  /** Bits that lack fewer than a group's worth of whole groups are padded by
      exactly what they lack. */
  lemma PadsTo(front: seq<bool>, w: nat, m: nat, z: nat)
    requires w > 0 && |front| + z == m * w && z < w
    ensures Padded(front, w) == front + Zeros(z)
  {
    if z == 0 {
      RestAppend(front, w, m, []);
      assert front + [] == front && front + Zeros(0) == front;
    } else {
      assert m * w == (m - 1) * w + w;
      var k := (m - 1) * w;
      RestAppend(front[..k], w, m - 1, front[k..]);
      assert front == front[..k] + front[k..];
    }
  }
}
