/** The bech32m checksum: a 30-bit register fed one 5-bit symbol at a time. */
module Checksum {
  import opened Register

  type Symbol = bv5

  const BECH32M: bv30 := 0x2bc830a3

  // ----- One step -----

  function Top(c: bv30): bv5 {
    (c >> 25) as bv5
  }

  function Gen(i: nat): bv30 {
    if i == 0 then 0x3b6a57b2 else if i == 1 then 0x26508e6d else if i == 2 then 0x1ea119fa
    else if i == 3 then 0x3d4233dd else 0x2a1462b3
  }

  function BitAt(i: nat): bv5 {
    if i == 0 then 1 else if i == 1 then 2 else if i == 2 then 4 else if i == 3 then 8 else 16
  }

  predicate Bit(b: bv5, i: nat) {
    b & BitAt(i) != 0
  }

  /** The register once the first `n` of the bits that left it are fed back. */
  function FedBack(s: bv30, b: bv5, n: nat): bv30 {
    if n == 0 then s
    else if Bit(b, n - 1) then FedBack(s, b, n - 1) ^ Gen(n - 1)
    else FedBack(s, b, n - 1)
  }

  function Shift(c: bv30, v: Symbol): bv30 {
    ((c & 0x1ffffff) << 5) ^ (v as bv30)
  }

  function Step(c: bv30, v: Symbol): bv30 {
    FedBack(Shift(c, v), Top(c), 5)
  }

  /** The register after all symbols. */
  function Fold(c: bv30, vs: seq<Symbol>): bv30 {
    Run(Step, c, vs)
  }

  // ----- What a step preserves -----

  lemma CancelSame(x: bv30, y: bv30, g: bv30)
    ensures (x ^ g) ^ (y ^ g) == x ^ y
  {
  }

  /** The same bits fed back cancel. */
  lemma {:induction false} FedBackCancels(s: bv30, t: bv30, b: bv5, n: nat)
    ensures FedBack(s, b, n) ^ FedBack(t, b, n) == s ^ t
  {
    if n > 0 {
      FedBackCancels(s, t, b, n - 1);
      CancelSame(FedBack(s, b, n - 1), FedBack(t, b, n - 1), Gen(n - 1));
    }
  }

  function Low(c: bv30): bv5 {
    (c & 31) as bv5
  }

  lemma LowXor(x: bv30, g: bv30)
    ensures Low(x ^ g) == Low(x) ^ Low(g)
  {
  }

  /** The low five bits alone. */
  function LowFedBack(v: bv5, b: bv5, n: nat): bv5 {
    if n == 0 then v
    else if Bit(b, n - 1) then LowFedBack(v, b, n - 1) ^ Low(Gen(n - 1))
    else LowFedBack(v, b, n - 1)
  }

  lemma {:induction false} LowOfFedBack(s: bv30, b: bv5, n: nat)
    ensures Low(FedBack(s, b, n)) == LowFedBack(Low(s), b, n)
  {
    if n > 0 {
      LowOfFedBack(s, b, n - 1);
      LowXor(FedBack(s, b, n - 1), Gen(n - 1));
    }
  }

  function Flip(v: bv5, bit: bv5, g: bv5): bv5 {
    if bit != 0 then v ^ g else v
  }

  function Flips(v: bv5, b: bv5): bv5 {
    Flip(Flip(Flip(Flip(Flip(v, b & 1, 18), b & 2, 13), b & 4, 26), b & 8, 29), b & 16, 19)
  }

  lemma LowGens()
    ensures Low(Gen(0)) == 18 && Low(Gen(1)) == 13 && Low(Gen(2)) == 26 && Low(Gen(3)) == 29 && Low(Gen(4)) == 19
  {
  }

  lemma LowFlips(v: bv5, b: bv5)
    ensures LowFedBack(v, b, 5) == Flips(v, b)
  {
    LowGens();
    LowThree(v, b);
    assert LowFedBack(v, b, 4) == Flip(LowFedBack(v, b, 3), b & 8, 29);
    assert LowFedBack(v, b, 5) == Flip(LowFedBack(v, b, 4), b & 16, 19);
  }

  lemma LowThree(v: bv5, b: bv5)
    ensures LowFedBack(v, b, 3) == Flip(Flip(Flip(v, b & 1, 18), b & 2, 13), b & 4, 26)
  {
    LowGens();
    assert LowFedBack(v, b, 1) == Flip(v, b & 1, 18);
    assert LowFedBack(v, b, 2) == Flip(LowFedBack(v, b, 1), b & 2, 13);
    assert LowFedBack(v, b, 3) == Flip(LowFedBack(v, b, 2), b & 4, 26);
  }

  lemma FlipsTell(v: bv5, a: bv5, b: bv5)
    requires Flips(v, a) == Flips(v, b)
    ensures a == b
  {
  }

  /** The low five bits tell which bits were fed back. */
  lemma LowTells(v: bv5, a: bv5, b: bv5)
    requires LowFedBack(v, a, 5) == LowFedBack(v, b, 5)
    ensures a == b
  {
    LowFlips(v, a);
    LowFlips(v, b);
    FlipsTell(v, a, b);
  }

  lemma LowShift(c: bv30, v: Symbol)
    ensures Low(Shift(c, v)) == v
  {
  }

  lemma ShiftInjective(c: bv30, d: bv30, v: Symbol)
    requires Shift(c, v) ^ Shift(d, v) == 0 && Top(c) == Top(d)
    ensures c == d
  {
  }

  lemma StepInjective(c: bv30, d: bv30, v: Symbol)
    requires Step(c, v) == Step(d, v)
    ensures c == d
  {
    var s, t := Shift(c, v), Shift(d, v);
    LowOfFedBack(s, Top(c), 5);
    LowOfFedBack(t, Top(d), 5);
    LowShift(c, v);
    LowShift(d, v);
    LowTells(v, Top(c), Top(d));
    FedBackCancels(s, t, Top(c), 5);
    XorZero(Step(c, v), Step(d, v));
    ShiftInjective(c, d, v);
  }

  lemma ShiftDiffers(c: bv30, d: bv30, v: Symbol, w: Symbol)
    requires (c ^ d) >> 25 == 0
    ensures Top(c) == Top(d)
    ensures Shift(c, v) ^ Shift(d, w) == ((c ^ d) << 5) ^ ((v ^ w) as bv30)
  {
  }

  lemma SameTop(c: bv30, d: bv30, v: Symbol, w: Symbol)
    requires (c ^ d) >> 25 == 0
    ensures Step(c, v) ^ Step(d, w) == ((c ^ d) << 5) ^ ((v ^ w) as bv30)
  {
    ShiftDiffers(c, d, v, w);
    FedBackCancels(Shift(c, v), Shift(d, w), Top(c), 5);
  }

  /** The bits that `k` symbols can have reached. */
  function Mask(k: nat): bv30 {
    if k == 0 then 0 else if k == 1 then 0x1f else if k == 2 then 0x3ff else if k == 3 then 0x7fff
    else if k == 4 then 0xfffff else if k == 5 then 0x1ffffff else 0x3fffffff
  }

  predicate Near(k: nat, c: bv30, d: bv30) {
    (c ^ d) | Mask(k) == Mask(k)
  }

  lemma PackFits(x: bv30, d: bv5, k: nat)
    requires x | Mask(k) == Mask(k) && k < 6
    ensures x >> 25 == 0
    ensures ((x << 5) ^ (d as bv30)) | Mask(k + 1) == Mask(k + 1)
    ensures (x << 5) ^ (d as bv30) == 0 ==> x == 0 && d == 0
  {
  }

  lemma XorZero(c: bv30, d: bv30)
    ensures c ^ d == 0 <==> c == d
  {
  }

  lemma XorZeroSymbol(v: bv5, w: bv5)
    ensures v ^ w == 0 <==> v == w
  {
  }

  lemma StepSeparates(k: nat, c: bv30, d: bv30, v: Symbol, w: Symbol)
    requires k < 6 && Near(k, c, d)
    ensures Near(k + 1, Step(c, v), Step(d, w))
    ensures Step(c, v) == Step(d, w) ==> c == d && v == w
  {
    PackFits(c ^ d, v ^ w, k);
    SameTop(c, d, v, w);
    XorZero(Step(c, v), Step(d, w));
    XorZero(c, d);
    XorZeroSymbol(v, w);
  }

  lemma StepProperties()
    ensures Injective(Step) && Separates(Step, Near, 6)
  {
    forall c, d, v | Step(c, v) == Step(d, v) ensures c == d {
      StepInjective(c, d, v);
    }
    forall c: bv30 ensures Near(0, c, c) {
      XorZero(c, c);
    }
    forall k: nat, c, d, v, w | k < 6 && Near(k, c, d)
      ensures Near(k + 1, Step(c, v), Step(d, w)) && (Step(c, v) == Step(d, w) ==> c == d && v == w)
    {
      StepSeparates(k, c, d, v, w);
    }
  }

  /** Burst detection: of all sequences of any one length that agree outside six
      consecutive symbols, at most one passes. */
  lemma BurstIsDetected(u: seq<Symbol>, v: seq<Symbol>, i: nat)
    requires |u| == |v| && i <= |u|
    requires forall k :: 0 <= k < |u| && !(i <= k < i + 6) ==> u[k] == v[k]
    requires Fold(1, u) == BECH32M && Fold(1, v) == BECH32M
    ensures u == v
  {
    StepProperties();
    WindowSeparates(Step, Near, 6, 1, u, v, i);
  }

  // ----- The checksum of a data part -----

  const ZEROS: seq<Symbol> := [0, 0, 0, 0, 0, 0]

  /** The `i`th group of five bits, from the top. */
  function Piece(m: bv30, i: nat): Symbol {
    if i == 0 then (m >> 25) as bv5
    else if i == 1 then ((m >> 20) & 31) as bv5
    else if i == 2 then ((m >> 15) & 31) as bv5
    else if i == 3 then ((m >> 10) & 31) as bv5
    else if i == 4 then ((m >> 5) & 31) as bv5
    else (m & 31) as bv5
  }

  function Unpacked(m: bv30): seq<Symbol> {
    [Piece(m, 0), Piece(m, 1), Piece(m, 2), Piece(m, 3), Piece(m, 4), Piece(m, 5)]
  }

  function ChecksumOf(values: seq<Symbol>): (sum: seq<Symbol>)
    ensures |sum| == 6
  {
    Unpacked(Fold(1, values + ZEROS) ^ BECH32M)
  }

  function Join(h: bv30, v: Symbol): bv30 {
    (h << 5) ^ (v as bv30)
  }

  /** Symbols side by side. */
  function Packed(a: seq<Symbol>): bv30 {
    if a == [] then 0 else Join(Packed(a[..|a| - 1]), a[|a| - 1])
  }

  /** The differences of symbols side by side. */
  function Differences(a: seq<Symbol>, b: seq<Symbol>): bv30
    requires |a| == |b|
  {
    if a == [] then 0
    else (Differences(a[..|a| - 1], b[..|b| - 1]) << 5) ^ ((a[|a| - 1] ^ b[|b| - 1]) as bv30)
  }

  lemma NearTop(k: nat, c: bv30, d: bv30)
    requires k < 6 && Near(k, c, d)
    ensures (c ^ d) >> 25 == 0
  {
  }

  /** From one register, up to six symbols leave their differences side by side:
      nothing has yet been fed back. */
  lemma {:induction false} WindowDiffers(c: bv30, a: seq<Symbol>, b: seq<Symbol>)
    requires |a| == |b| <= 6
    ensures Fold(c, a) ^ Fold(c, b) == Differences(a, b)
  {
    if a == [] {
      XorZero(c, c);
    } else {
      var n := |a| - 1;
      WindowDiffers(c, a[..n], b[..n]);
      WindowTop(c, a[..n], b[..n]);
      SameTop(Fold(c, a[..n]), Fold(c, b[..n]), a[n], b[n]);
    }
  }

  lemma WindowTop(c: bv30, a: seq<Symbol>, b: seq<Symbol>)
    requires |a| == |b| < 6
    ensures (Fold(c, a) ^ Fold(c, b)) >> 25 == 0
  {
    StepProperties();
    RunSeparates(Step, Near, 6, c, a, b);
    NearTop(|a|, Fold(c, a), Fold(c, b));
  }

  lemma JoinZero(h: bv30, v: Symbol, w: Symbol)
    requires w == 0
    ensures (h << 5) ^ ((v ^ w) as bv30) == Join(h, v)
  {
  }

  lemma {:induction false} DifferencesFromZero(a: seq<Symbol>, b: seq<Symbol>)
    requires |a| == |b| && forall k | 0 <= k < |b| :: b[k] == 0
    ensures Differences(a, b) == Packed(a)
  {
    if a != [] {
      var n := |a| - 1;
      DifferencesFromZero(a[..n], b[..n]);
      JoinZero(Packed(a[..n]), a[n], b[n]);
    }
  }

  lemma JoinPieces(m: bv30)
    ensures Join(Join(Join(Join(Join(Join(0, Piece(m, 0)), Piece(m, 1)), Piece(m, 2)), Piece(m, 3)), Piece(m, 4)),
                 Piece(m, 5)) == m
  {
  }

  lemma PackedOne(a: seq<Symbol>, k: nat)
    requires k < |a|
    ensures Packed(a[..k + 1]) == Join(Packed(a[..k]), a[k])
  {
    assert a[..k + 1][..k] == a[..k];
  }

  lemma PackedUnpacked(m: bv30)
    ensures Packed(Unpacked(m)) == m
  {
    var u := Unpacked(m);
    PackedOne(u, 0);
    PackedOne(u, 1);
    PackedOne(u, 2);
    PackedOne(u, 3);
    PackedOne(u, 4);
    PackedOne(u, 5);
    assert u[..6] == u && u[..0] == [];
    JoinPieces(m);
  }

  lemma XorCancel(x: bv30, y: bv30, k: bv30)
    requires x ^ y == y ^ k
    ensures x == k
  {
  }

  /** The computed checksum passes. */
  lemma ChecksumPasses(values: seq<Symbol>)
    ensures Fold(1, values + ChecksumOf(values)) == BECH32M
  {
    var c := Fold(1, values);
    var m := Fold(c, ZEROS) ^ BECH32M;
    RunConcat(Step, 1, values, Unpacked(m));
    RunConcat(Step, 1, values, ZEROS);
    Spelled(c, m);
    XorCancel(Fold(c, Unpacked(m)), Fold(c, ZEROS), BECH32M);
  }

  /** Six symbols that spell `m` move the register away from where zeros take
      it by exactly `m`. */
  lemma Spelled(c: bv30, m: bv30)
    ensures Fold(c, Unpacked(m)) ^ Fold(c, ZEROS) == m
  {
    WindowDiffers(c, Unpacked(m), ZEROS);
    DifferencesFromZero(Unpacked(m), ZEROS);
    PackedUnpacked(m);
  }

  /** For every data part, of any length, exactly one six symbols pass. */
  lemma ChecksumIsUnique(values: seq<Symbol>, sum: seq<Symbol>)
    requires |sum| == 6
    ensures Fold(1, values + sum) == BECH32M <==> sum == ChecksumOf(values)
  {
    var w := ChecksumOf(values);
    ChecksumPasses(values);
    if Fold(1, values + sum) == BECH32M {
      BurstIsDetected(values + sum, values + w, |values|);
      assert sum == (values + sum)[|values|..] && w == (values + w)[|values|..];
    }
  }

  // ----- The symbols of one published address -----

  lemma Eight(c: bv30, v: seq<Symbol>)
    requires |v| == 8
    ensures Fold(c, v) == Step(Step(Step(Step(Step(Step(Step(Step(c, v[0]), v[1]), v[2]), v[3]), v[4]), v[5]), v[6]),
                               v[7])
  {
    Next(c, v, 0);
    Next(c, v, 1);
    Next(c, v, 2);
    Next(c, v, 3);
    Next(c, v, 4);
    Next(c, v, 5);
    Next(c, v, 6);
    Next(c, v, 7);
    assert v[..0] == [] && v[..8] == v;
  }

  lemma Next(c: bv30, v: seq<Symbol>, k: nat)
    requires k < |v|
    ensures Fold(c, v[..k + 1]) == Step(Fold(c, v[..k]), v[k])
  {
    assert v[..k + 1][..k] == v[..k];
  }

  function Fed(c: bv30, bit: bv5, g: bv30): bv30 {
    if bit != 0 then c ^ g else c
  }

  function FedAtOnce(s: bv30, b: bv5): bv30 {
    Fed(Fed(Fed(Fed(Fed(s, b & 1, 0x3b6a57b2), b & 2, 0x26508e6d), b & 4, 0x1ea119fa), b & 8, 0x3d4233dd), b & 16,
        0x2a1462b3)
  }

  lemma FedOne(s: bv30, b: bv5, n: nat)
    requires 0 < n <= 5
    ensures FedBack(s, b, n) == Fed(FedBack(s, b, n - 1), b & BitAt(n - 1), Gen(n - 1))
  {
  }

  lemma FedIs(s: bv30, b: bv5, n: nat)
    requires n == 5
    ensures FedBack(s, b, n) == FedAtOnce(s, b)
  {
    FedOne(s, b, n);
    FedOne(s, b, n - 1);
    FedOne(s, b, n - 2);
    FedOne(s, b, n - 3);
    FedOne(s, b, n - 4);
  }

  /** One step, worked out. */
  lemma Steps(c: bv30, v: Symbol, d: bv30)
    requires FedAtOnce(((c & 0x1ffffff) << 5) ^ (v as bv30), (c >> 25) as bv5) == d
    ensures Step(c, v) == d
  {
    FedIs(Shift(c, v), Top(c), 5);
  }

  const PUBLISHED: seq<Symbol> := [3, 3, 0, 2, 3, 16, 14, 20] + [15, 0, 8, 13, 2, 10, 20, 18]

  /** bc1sw50qgdz25j passes. */
  lemma PublishedPasses()
    ensures Fold(1, PUBLISHED) == BECH32M
  {
    RunConcat(Step, 1, [3, 3, 0, 2, 3, 16, 14, 20], [15, 0, 8, 13, 2, 10, 20, 18]);
    Eight(1, [3, 3, 0, 2, 3, 16, 14, 20]);
    Steps(0x1, 3, 0x23);
    Steps(0x23, 3, 0x463);
    Steps(0x463, 0, 0x8c60);
    Steps(0x8c60, 2, 0x118c02);
    Steps(0x118c02, 3, 0x2318043);
    Steps(0x2318043, 16, 0x3d5a5fc2);
    Steps(0x3d5a5fc2, 14, 0x4ec3eb7);
    Steps(0x4ec3eb7, 20, 0x3bd75899);
    Eight(0x3bd75899, [15, 0, 8, 13, 2, 10, 20, 18]);
    Steps(0x3bd75899, 15, 0x8760c09);
    Steps(0x8760c09, 0, 0x106098da);
    Steps(0x106098da, 8, 0x31512895);
    Steps(0x31512895, 13, 0x3d7343c3);
    Steps(0x3d7343c3, 2, 0x1cfbe9b);
    Steps(0x1cfbe9b, 10, 0x39f7d36a);
    Steps(0x39f7d36a, 20, 0x370d25c0);
    Steps(0x370d25c0, 18, 0x2bc830a3);
  }

  // ----- The loops -----

  method Feed(chk: bv30, v: Symbol) returns (r: bv30)
    ensures r == Step(chk, v)
  {
    var b := Top(chk);
    r := ((chk & 0x1ffffff) << 5) ^ (v as bv30);
    ghost var shifted := r;
    for i := 0 to 5
      invariant r == FedBack(shifted, b, i)
    {
      if Bit(b, i) {
        r := r ^ Gen(i);
      }
    }
  }

  method Polymod(values: seq<Symbol>) returns (chk: bv30)
    ensures chk == Fold(1, values)
  {
    chk := 1;
    for k := 0 to |values|
      invariant chk == Fold(1, values[..k])
    {
      assert values[..k + 1][..k] == values[..k];
      chk := Feed(chk, values[k]);
    }
    assert values[..|values|] == values;
  }

  method VerifyChecksum(hrp: seq<Symbol>, data: seq<Symbol>) returns (ok: bool)
    ensures ok == (Fold(1, hrp + data) == BECH32M)
  {
    var chk := Polymod(hrp + data);
    return chk == BECH32M;
  }

  method CreateChecksum(hrp: seq<Symbol>, data: seq<Symbol>) returns (sum: seq<Symbol>)
    ensures sum == ChecksumOf(hrp + data)
  {
    var chk := Polymod(hrp + data + ZEROS);
    var mod := chk ^ BECH32M;
    sum := [];
    for i := 0 to 6
      invariant |sum| == i && forall j :: 0 <= j < i ==> sum[j] == Piece(mod, j)
    {
      sum := sum + [Piece(mod, i)]; // a shift by 5 * (5 - i), masked
    }
    assert sum == Unpacked(mod);
  }
}
