/** Segwit addresses in bech32m, over ASCII strings. */
module Bech32m {
  import opened BitStrings
  import opened Checksum
  import opened Regroup

  type Ascii = s: string | forall k | 0 <= k < |s| :: s[k] as int < 128

  datatype Error =
    | InvalidLength | InvalidChar | InvalidHRP | InvalidChecksum | InvalidPadding | UnsupportedVersion | InvalidVersion

  datatype Result<T> = Ok(value: T) | Err(error: Error)

  datatype Witness = Witness(version: int, program: seq<int>)

  const MAX_ADDRESS_LENGTH := 90
  const PROGRAM_SIZE := 32

  // ----- Case -----

  function LowerChar(c: char): char {
    if 'A' <= c <= 'Z' then (c as int + 32) as char else c
  }

  function UpperChar(c: char): char {
    if 'a' <= c <= 'z' then (c as int - 32) as char else c
  }

  const CAPITALS := "ABCDEFGHIJKLMNOPQRSTUVWXYZ"
  const SMALL := "abcdefghijklmnopqrstuvwxyz"

  lemma LettersPair(k: nat)
    requires k < 26
    ensures LowerChar(CAPITALS[k]) == SMALL[k] && UpperChar(SMALL[k]) == CAPITALS[k]
  {
  }

  lemma OthersStay(c: char)
    ensures c !in CAPITALS ==> LowerChar(c) == c
    ensures c !in SMALL ==> UpperChar(c) == c
  {
    if 'A' <= c <= 'Z' {
      LettersPair(c as int - 'A' as int);
      assert CAPITALS[c as int - 'A' as int] == c;
    }
    if 'a' <= c <= 'z' {
      LettersPair(c as int - 'a' as int);
      assert SMALL[c as int - 'a' as int] == c;
    }
  }

  function Lower(s: Ascii): (r: Ascii)
    ensures |r| == |s| && forall k | 0 <= k < |s| :: r[k] == LowerChar(s[k])
  {
    seq(|s|, k requires 0 <= k < |s| => LowerChar(s[k]))
  }

  function Upper(s: Ascii): (r: Ascii)
    ensures |r| == |s| && forall k | 0 <= k < |s| :: r[k] == UpperChar(s[k])
  {
    seq(|s|, k requires 0 <= k < |s| => UpperChar(s[k]))
  }

  /** No letter is written in both cases. */
  predicate OneCase(s: Ascii) {
    Lower(s) == s || Upper(s) == s
  }

  // ----- The alphabet -----

  function CharOf(d: int): char {
    match d
    case 0 => 'q' case 1 => 'p' case 2 => 'z' case 3 => 'r' case 4 => 'y' case 5 => '9' case 6 => 'x' case 7 => '8'
    case 8 => 'g' case 9 => 'f' case 10 => '2' case 11 => 't'
    case 12 => 'v' case 13 => 'd' case 14 => 'w' case 15 => '0'
    case 16 => 's' case 17 => '3' case 18 => 'j' case 19 => 'n'
    case 20 => '5' case 21 => '4' case 22 => 'k' case 23 => 'h'
    case 24 => 'c' case 25 => 'e' case 26 => '6' case 27 => 'm'
    case 28 => 'u' case 29 => 'a' case 30 => '7' case _ => 'l'
  }

  function ValueOf(c: char): (r: Option<int>)
    ensures r.Some? ==> 0 <= r.value < 32
  {
    match c
    case 'q' => Some(0) case 'p' => Some(1) case 'z' => Some(2) case 'r' => Some(3)
    case 'y' => Some(4) case '9' => Some(5) case 'x' => Some(6) case '8' => Some(7)
    case 'g' => Some(8) case 'f' => Some(9) case '2' => Some(10) case 't' => Some(11)
    case 'v' => Some(12) case 'd' => Some(13) case 'w' => Some(14) case '0' => Some(15)
    case 's' => Some(16) case '3' => Some(17) case 'j' => Some(18) case 'n' => Some(19)
    case '5' => Some(20) case '4' => Some(21) case 'k' => Some(22) case 'h' => Some(23)
    case 'c' => Some(24) case 'e' => Some(25) case '6' => Some(26) case 'm' => Some(27)
    case 'u' => Some(28) case 'a' => Some(29) case '7' => Some(30) case 'l' => Some(31)
    case _ => None
  }

  lemma CharHasValue(d: int)
    requires 0 <= d < 32
    ensures ValueOf(CharOf(d)) == Some(d)
    ensures CharOf(d) as int < 128 && CharOf(d) != '1' && LowerChar(CharOf(d)) == CharOf(d)
  {
  }

  lemma ValueHasChar(c: char)
    requires ValueOf(c).Some?
    ensures CharOf(ValueOf(c).value) == c && c != '1'
  {
  }

  /** The alphabet of BIP 173, in the order of its values. */
  const ALPHABET := "qpzry9x8gf2tvdw0s3jn54khce6mua7l"

  lemma CharsInOrder(d: int)
    requires 0 <= d < 32
    ensures CharOf(d) == ALPHABET[d]
  {
  }

  lemma ValuesInOrder(c: char)
    ensures ValueOf(c).Some? <==> c in ALPHABET
    ensures ValueOf(c).Some? ==> ALPHABET[ValueOf(c).value] == c
  {
    if ValueOf(c).Some? {
      ValueHasChar(c);
      CharsInOrder(ValueOf(c).value);
    }
    if c in ALPHABET {
      var d :| 0 <= d < 32 && ALPHABET[d] == c;
      CharsInOrder(d);
      CharHasValue(d);
    }
  }

  // ----- Sequences of symbols -----

  function Chars(data: seq<int>): (s: Ascii)
    requires Fits(data, 5)
    ensures |s| == |data| && forall k | 0 <= k < |s| :: s[k] == CharOf(data[k])
  {
    Thirty2();
    seq(|data|, k requires 0 <= k < |data| => CharOf(data[k]))
  }

  lemma Thirty2()
    ensures Pow2(5) == 32 && Pow2(8) == 256
  {
    assert Pow2(2) == 4 && Pow2(4) == 16;
    assert Pow2(6) == 64;
  }

  predicate AllKnown(s: string) {
    forall k | 0 <= k < |s| :: ValueOf(s[k]).Some?
  }

  function Values(s: string): (data: seq<int>)
    requires AllKnown(s)
    ensures |data| == |s| && Fits(data, 5) && forall k | 0 <= k < |s| :: data[k] == ValueOf(s[k]).value
  {
    Thirty2();
    seq(|s|, k requires 0 <= k < |s| => ValueOf(s[k]).value)
  }

  lemma CharsValues(s: Ascii)
    requires AllKnown(s)
    ensures Chars(Values(s)) == s
  {
    forall k | 0 <= k < |s| ensures Chars(Values(s))[k] == s[k] {
      ValueHasChar(s[k]);
    }
  }

  lemma ValuesChars(data: seq<int>)
    requires Fits(data, 5)
    ensures AllKnown(Chars(data)) && Values(Chars(data)) == data
    ensures forall k | 0 <= k < |data| :: Chars(data)[k] != '1' && LowerChar(Chars(data)[k]) == Chars(data)[k]
  {
    Thirty2();
    forall k | 0 <= k < |data|
      ensures ValueOf(Chars(data)[k]) == Some(data[k])
      ensures Chars(data)[k] != '1' && LowerChar(Chars(data)[k]) == Chars(data)[k]
    {
      CharHasValue(data[k]);
    }
  }

  function ToSymbol(d: int): Symbol {
    if 0 <= d < 32 then d as bv5 else 0
  }

  function Symbols(data: seq<int>): (v: seq<Symbol>)
    ensures |v| == |data|
  {
    seq(|data|, k requires 0 <= k < |data| => ToSymbol(data[k]))
  }

  function Numbers(v: seq<Symbol>): (data: seq<int>)
    ensures |data| == |v|
  {
    seq(|v|, k requires 0 <= k < |v| => v[k] as int)
  }

  lemma NumberBack(b: Symbol)
    ensures 0 <= b as int < 32 && ToSymbol(b as int) == b
  {
  }

  lemma SymbolBack(d: int)
    requires 0 <= d < 32
    ensures ToSymbol(d) as int == d
  {
  }

  lemma NumbersFit(v: seq<Symbol>)
    ensures Fits(Numbers(v), 5) && Symbols(Numbers(v)) == v
  {
    Thirty2();
    forall k | 0 <= k < |v| ensures 0 <= Numbers(v)[k] < 32 && Symbols(Numbers(v))[k] == v[k] {
      NumberBack(v[k]);
    }
  }

  lemma NumbersOfSymbols(data: seq<int>)
    requires Fits(data, 5)
    ensures Numbers(Symbols(data)) == data
  {
    Thirty2();
    forall k | 0 <= k < |data| ensures Numbers(Symbols(data))[k] == data[k] {
      SymbolBack(data[k]);
    }
  }

  // ----- The prefix -----

  function HrpExpand(hrp: Ascii): seq<Symbol> {
    Symbols(seq(|hrp|, k requires 0 <= k < |hrp| => hrp[k] as int / 32)) + [0] +
    Symbols(seq(|hrp|, k requires 0 <= k < |hrp| => hrp[k] as int % 32))
  }

  /** The high bits of every character, a zero, the low bits of every one. */
  lemma ExpandsInOrder(hrp: Ascii)
    ensures |HrpExpand(hrp)| == 2 * |hrp| + 1 && HrpExpand(hrp)[|hrp|] == 0
    ensures forall k | 0 <= k < |hrp| :: HrpExpand(hrp)[k] as int == hrp[k] as int / 32
    ensures forall k | 0 <= k < |hrp| :: HrpExpand(hrp)[|hrp| + 1 + k] as int == hrp[k] as int % 32
  {
    forall k | 0 <= k < |hrp|
      ensures HrpExpand(hrp)[k] as int == hrp[k] as int / 32
      ensures HrpExpand(hrp)[|hrp| + 1 + k] as int == hrp[k] as int % 32
    {
      SymbolBack(hrp[k] as int / 32);
      SymbolBack(hrp[k] as int % 32);
    }
  }

  /** The place of the last '1', or -1. */
  function LastOne(s: string): (r: int)
    ensures -1 <= r < |s| && (r >= 0 ==> s[r] == '1')
  {
    if s == [] then -1 else if s[|s| - 1] == '1' then |s| - 1 else LastOne(s[..|s| - 1])
  }

  lemma {:induction false} LastOneOf(a: string, b: string)
    requires forall k | 0 <= k < |b| :: b[k] != '1'
    ensures LastOne(a + "1" + b) == |a|
  {
    var s := a + "1" + b;
    if b == [] {
      assert s == a + "1";
    } else {
      LastOneOf(a, b[..|b| - 1]);
      assert s[..|s| - 1] == a + "1" + b[..|b| - 1];
    }
  }

  // ----- What the two functions compute -----

  function Encoded(hrp: Ascii, version: int, program: seq<int>): Result<Ascii>
    requires 0 <= version < 256 && Fits(program, 8)
  {
    if version > 16 then Err(InvalidVersion)
    else
      var prefix := Lower(hrp);
      var data := DataOf(version, program);
      var sum := ChecksumOf(HrpExpand(prefix) + Symbols(data));
      NumbersFit(sum);
      var s: Ascii := prefix + "1" + (Chars(data) + Chars(Numbers(sum)));
      Ok(s)
  }

  function DataOf(version: int, program: seq<int>): (data: seq<int>)
    requires 0 <= version <= 16 && Fits(program, 8)
    ensures Fits(data, 5)
  {
    Thirty2();
    RegroupFits(program);
    [version] + Regrouped(program, 8, 5, true).value
  }

  lemma RegroupFits(program: seq<int>)
    requires Fits(program, 8)
    ensures Regrouped(program, 8, 5, true).Some? && Fits(Regrouped(program, 8, 5, true).value, 5)
  {
    var n, z := PaddedWhole(Expand(program, 8), 5);
    ExpandGroups(Padded(Expand(program, 8), 5), 5, n);
  }

  function Decoded(hrp: Ascii, addr: Ascii): Result<Witness> {
    if |addr| > MAX_ADDRESS_LENGTH then Err(InvalidLength)
    else if !OneCase(addr) then Err(InvalidChar)
    else DecodedLower(Lower(hrp), Lower(addr))
  }

  /** The part of a decoding that follows the lowering of the case. */
  function DecodedLower(hrp: Ascii, s: Ascii): Result<Witness> {
    var pos := LastOne(s);
    if pos < 1 || pos + 7 > |s| then Err(InvalidHRP)
    else DecodedParts(hrp, s[..pos], s[pos + 1..])
  }

  /** The part of a decoding that follows the split at the last '1'. */
  function DecodedParts(hrp: Ascii, prefix: Ascii, rest: Ascii): Result<Witness>
    requires |rest| >= 6
  {
    if prefix != hrp then Err(InvalidHRP)
    else if !AllKnown(rest) then Err(InvalidChar)
    else
      var data := Values(rest);
      if Fold(1, HrpExpand(prefix) + Symbols(data)) != BECH32M then Err(InvalidChecksum)
      else WitnessOf(data[..|data| - 6])
  }

  /** The part of a decoding that follows the checksum. */
  function WitnessOf(data: seq<int>): Result<Witness> {
    if |data| < 1 then Err(InvalidLength)
    else
      match Regrouped(data[1..], 5, 8, false)
      case None => Err(InvalidPadding)
      case Some(program) =>
        if data[0] != 1 then Err(UnsupportedVersion)
        else if |program| != PROGRAM_SIZE then Err(InvalidLength)
        else Ok(Witness(data[0], program))
  }

  // ----- The two undo each other -----

  lemma SymbolsConcat(a: seq<int>, b: seq<int>)
    ensures Symbols(a + b) == Symbols(a) + Symbols(b)
  {
  }

  lemma CharsConcat(a: seq<int>, b: seq<int>)
    requires Fits(a, 5) && Fits(b, 5)
    ensures Fits(a + b, 5) && Chars(a + b) == Chars(a) + Chars(b)
  {
  }

  /** The data part and its checksum pass. */
  lemma SumPasses(h: seq<Symbol>, data: seq<int>)
    ensures Fold(1, h + Symbols(data + Numbers(ChecksumOf(h + Symbols(data))))) == BECH32M
  {
    var sum := ChecksumOf(h + Symbols(data));
    NumbersFit(sum);
    SymbolsConcat(data, Numbers(sum));
    ChecksumPasses(h + Symbols(data));
    assert h + (Symbols(data) + sum) == (h + Symbols(data)) + sum;
  }

  /** ... and what passes ends with its checksum. */
  lemma PassingSum(h: seq<Symbol>, data: seq<int>)
    requires Fits(data, 5) && |data| >= 6 && Fold(1, h + Symbols(data)) == BECH32M
    ensures data[|data| - 6..] == Numbers(ChecksumOf(h + Symbols(data[..|data| - 6])))
  {
    var n := |data| - 6;
    assert data == data[..n] + data[n..];
    SymbolsConcat(data[..n], data[n..]);
    assert h + Symbols(data) == (h + Symbols(data[..n])) + Symbols(data[n..]);
    ChecksumIsUnique(h + Symbols(data[..n]), Symbols(data[n..]));
    NumbersOfSymbols(data[n..]);
  }

  /** A string put together from a lower-case prefix and symbols is taken apart
      into them. */
  lemma TakenApart(prefix: Ascii, data: seq<int>, s: Ascii)
    requires Lower(prefix) == prefix && Fits(data, 5) && s == prefix + "1" + Chars(data)
    ensures Lower(s) == s && LastOne(s) == |prefix| && s[..|prefix|] == prefix
    ensures AllKnown(s[|prefix| + 1..]) && Values(s[|prefix| + 1..]) == data
  {
    ValuesChars(data);
    LastOneOf(prefix, Chars(data));
    assert s[|prefix| + 1..] == Chars(data);
    forall k | 0 <= k < |s| ensures LowerChar(s[k]) == s[k] {
      if k < |prefix| {
        assert s[k] == prefix[k] && Lower(prefix)[k] == prefix[k];
      } else if k > |prefix| {
        assert s[k] == Chars(data)[k - |prefix| - 1];
      }
    }
  }

  lemma LowerTwice(s: Ascii)
    ensures Lower(Lower(s)) == Lower(s)
  {
  }

  /** A 32-byte program makes 52 symbols and the version one more. */
  lemma DataLength(program: seq<int>)
    requires |program| == PROGRAM_SIZE && Fits(program, 8)
    ensures |DataOf(1, program)| == 53
  {
    var bits := Expand(program, 8);
    var n, z := PaddedWhole(bits, 5);
    GroupsAppend(Padded(bits, 5), 5, n, []);
    assert n == 52;
    assert Padded(bits, 5) + [] == Padded(bits, 5);
  }

  lemma WitnessBack(program: seq<int>)
    requires |program| == PROGRAM_SIZE && Fits(program, 8)
    ensures WitnessOf(DataOf(1, program)) == Ok(Witness(1, program))
  {
    RegroupBack(program, 8, 5);
    RegroupFits(program);
    assert DataOf(1, program)[1..] == Regrouped(program, 8, 5, true).value;
  }

  /** Round trip: for every 32-byte program and every prefix of 1 to 30
      characters, Decode gives back what Encode was given. */
  lemma DecodeInvertsEncode(hrp: Ascii, program: seq<int>)
    requires 1 <= |hrp| <= 30 && |program| == PROGRAM_SIZE && Fits(program, 8)
    ensures Encoded(hrp, 1, program).Ok?
    ensures Decoded(hrp, Encoded(hrp, 1, program).value) == Ok(Witness(1, program))
  {
    var prefix, data := Lower(hrp), DataOf(1, program);
    var h := HrpExpand(prefix);
    var sum := Numbers(ChecksumOf(h + Symbols(data)));
    EncodedAs(hrp, 1, program, sum);
    var s := Encoded(hrp, 1, program).value;
    LowerTwice(hrp);
    TakenApart(prefix, data + sum, s);
    ValuesChars(data + sum);
    DataLength(program);
    SplitsAtLastOne(hrp, s, prefix, Chars(data + sum));
    SumPasses(h, data);
    assert (data + sum)[..|data + sum| - 6] == data;
    WitnessBack(program);
  }

  lemma WitnessForth(data: seq<int>)
    requires Fits(data, 5) && WitnessOf(data).Ok?
    ensures var w := WitnessOf(data).value;
            w.version == 1 && |w.program| == PROGRAM_SIZE && Fits(w.program, 8) && DataOf(1, w.program) == data
  {
    var rest := data[1..];
    RegroupForth(rest, 8, 5);
    var n, front := SplitRest(Expand(rest, 5), 8);
    ExpandGroups(front, 8, n);
    assert data == [data[0]] + rest;
  }

  lemma EncodedAs(hrp: Ascii, version: int, program: seq<int>, sum: seq<int>)
    requires 0 <= version <= 16 && Fits(program, 8)
    requires sum == Numbers(ChecksumOf(HrpExpand(Lower(hrp)) + Symbols(DataOf(version, program))))
    ensures Fits(sum, 5) && Fits(DataOf(version, program) + sum, 5)
    ensures Encoded(hrp, version, program).Ok?
    ensures Encoded(hrp, version, program).value == Lower(hrp) + "1" + Chars(DataOf(version, program) + sum)
  {
    NumbersFit(ChecksumOf(HrpExpand(Lower(hrp)) + Symbols(DataOf(version, program))));
    CharsConcat(DataOf(version, program), sum);
  }

  /** What an accepted address is made of. */
  lemma AcceptedParts(hrp: Ascii, addr: Ascii) returns (data: seq<int>)
    requires Decoded(hrp, addr).Ok?
    ensures Fits(data, 5) && |data| >= 6 && Lower(addr) == Lower(hrp) + "1" + Chars(data)
    ensures Fold(1, HrpExpand(Lower(hrp)) + Symbols(data)) == BECH32M
    ensures WitnessOf(data[..|data| - 6]) == Decoded(hrp, addr)
  {
    var s := Lower(addr);
    var pos := LastOne(s);
    SplitsAt(s, pos);
    data := RestParts(Lower(hrp), s[..pos], s[pos + 1..]);
  }

  lemma SplitsAt(s: string, pos: nat)
    requires pos < |s| && s[pos] == '1'
    ensures s == s[..pos] + "1" + s[pos + 1..]
  {
  }

  lemma RestParts(hrp: Ascii, prefix: Ascii, rest: Ascii) returns (data: seq<int>)
    requires |rest| >= 6 && DecodedParts(hrp, prefix, rest).Ok?
    ensures Fits(data, 5) && |data| >= 6 && prefix == hrp && rest == Chars(data)
    ensures Fold(1, HrpExpand(hrp) + Symbols(data)) == BECH32M
    ensures WitnessOf(data[..|data| - 6]) == DecodedParts(hrp, prefix, rest)
  {
    data := Values(rest);
    CharsValues(rest);
  }

  /** Canonicity: an address that is accepted is the encoding of what it is
      decoded to, up to the case of its letters. */
  lemma AcceptedIsEncoding(hrp: Ascii, addr: Ascii)
    requires Decoded(hrp, addr).Ok?
    ensures var w := Decoded(hrp, addr).value;
            w.version == 1 && |w.program| == PROGRAM_SIZE && Fits(w.program, 8) &&
            Encoded(hrp, w.version, w.program) == Ok(Lower(addr))
  {
    var data := AcceptedParts(hrp, addr);
    Reencoded(hrp, data);
  }

  lemma Reencoded(hrp: Ascii, data: seq<int>)
    requires Fits(data, 5) && |data| >= 6 && Fold(1, HrpExpand(Lower(hrp)) + Symbols(data)) == BECH32M
    requires WitnessOf(data[..|data| - 6]).Ok?
    ensures var w := WitnessOf(data[..|data| - 6]).value;
            w.version == 1 && |w.program| == PROGRAM_SIZE && Fits(w.program, 8) &&
            Encoded(hrp, 1, w.program).Ok? && Encoded(hrp, 1, w.program).value == Lower(hrp) + "1" + Chars(data)
  {
    var n := |data| - 6;
    WitnessForth(data[..n]);
    PassingSum(HrpExpand(Lower(hrp)), data);
    assert data == data[..n] + data[n..];
    EncodedAs(hrp, 1, WitnessOf(data[..n]).value.program, data[n..]);
  }

  /** An encoded 32-byte program is 60 characters longer than its prefix. */
  lemma EncodedLength(hrp: Ascii, program: seq<int>)
    requires |program| == PROGRAM_SIZE && Fits(program, 8)
    ensures Encoded(hrp, 1, program).Ok? && |Encoded(hrp, 1, program).value| == |hrp| + 60
  {
    EncodedAs(hrp, 1, program, Numbers(ChecksumOf(HrpExpand(Lower(hrp)) + Symbols(DataOf(1, program)))));
    DataLength(program);
  }

  /** What Decode accepts, and as what, exactly. */
  lemma AcceptsExactly(hrp: Ascii, addr: Ascii, w: Witness)
    ensures Decoded(hrp, addr) == Ok(w) <==>
              1 <= |hrp| <= 30 && w.version == 1 && |w.program| == 32 && Fits(w.program, 8) && OneCase(addr) &&
              Encoded(hrp, 1, w.program) == Ok(Lower(addr))
  {
    if Decoded(hrp, addr) == Ok(w) {
      AcceptedIsEncoding(hrp, addr);
      EncodedLength(hrp, w.program);
    }
    if 1 <= |hrp| <= 30 && w.version == 1 && |w.program| == 32 && Fits(w.program, 8) && OneCase(addr) &&
        Encoded(hrp, 1, w.program) == Ok(Lower(addr)) {
      DecodeInvertsEncode(hrp, w.program);
      LowerTwice(addr);
    }
  }

  /** An address of at most 90 characters in one case is decoded in the two parts
      its last '1' splits it into. */
  lemma SplitsAtLastOne(hrp: Ascii, addr: Ascii, prefix: Ascii, rest: Ascii)
    requires |addr| <= 90 && OneCase(addr)
    requires Lower(addr) == prefix + "1" + rest && forall k | 0 <= k < |rest| :: rest[k] != '1'
    ensures prefix == [] || |rest| < 6 ==> Decoded(hrp, addr) == Err(InvalidHRP)
    ensures prefix != [] && |rest| >= 6 ==> Decoded(hrp, addr) == DecodedParts(Lower(hrp), prefix, rest)
  {
    LastOneOf(prefix, rest);
    var s := Lower(addr);
    assert s[..|prefix|] == prefix && s[|prefix| + 1..] == rest;
  }

  /** Why the two parts are rejected: the first check that fails. */
  lemma RejectsExactly(hrp: Ascii, prefix: Ascii, rest: Ascii)
    requires |rest| >= 6
    ensures DecodedParts(hrp, prefix, rest) ==
      if prefix != hrp then Err(InvalidHRP)
      else if !AllKnown(rest) then Err(InvalidChar)
      else if Fold(1, HrpExpand(prefix) + Symbols(Values(rest))) != BECH32M then Err(InvalidChecksum)
      else if |rest| == 6 then Err(InvalidLength)
      else
        match Regrouped(Values(rest)[1..|rest| - 6], 5, 8, false)
        case None => Err(InvalidPadding)
        case Some(program) =>
          if Values(rest)[0] != 1 then Err(UnsupportedVersion)
          else if |program| != 32 then Err(InvalidLength)
          else Ok(Witness(1, program))
  {
    if AllKnown(rest) && |rest| > 6 {
      Middle(Values(rest));
    }
  }

  lemma Middle(data: seq<int>)
    requires |data| > 6
    ensures data[..|data| - 6][1..] == data[1..|data| - 6] && data[..|data| - 6][0] == data[0]
  {
  }

  /** ... and before that, its length and its case. */
  lemma RejectsAtOnce(hrp: Ascii, addr: Ascii)
    ensures |addr| > 90 ==> Decoded(hrp, addr) == Err(InvalidLength)
    ensures |addr| <= 90 && !OneCase(addr) ==> Decoded(hrp, addr) == Err(InvalidChar)
    ensures |addr| <= 90 && OneCase(addr) && (forall k | 0 <= k < |addr| :: addr[k] != '1') ==>
              Decoded(hrp, addr) == Err(InvalidHRP)
  {
    assert (forall k | 0 <= k < |addr| :: addr[k] != '1') ==> forall k | 0 <= k < |addr| :: Lower(addr)[k] != '1';
  }

  // ----- A published address -----

  /** Two bytes make four symbols, the last of one bit. */
  lemma TwoBytes(version: int, a: nat, b: nat, s: seq<nat>)
    requires 0 <= version <= 16 && a < 256 && b < 256 && |s| == 4 && forall k | 0 <= k < 4 :: s[k] < 32
    requires (a * 256 + b) * 16 == ((s[0] * 32 + s[1]) * 32 + s[2]) * 32 + s[3]
    ensures Fits([a, b], 8) && DataOf(version, [a, b]) == [version] + s
  {
    Thirty2();
    ValOfTwo(a, b, 8);
    var bits := Expand([a, b], 8);
    var n, z := PaddedWhole(bits, 5);
    assert z == 4;
    ValShifted(bits);
    FourSymbols(s, bits + Zeros(4));
    GroupsExpand(s, 5);
  }

  lemma ValShifted(bits: seq<bool>)
    ensures Val(bits + Zeros(4)) == Val(bits) * 16
  {
    ValConcat(bits, Zeros(4));
    ValZero(Zeros(4));
    assert Pow2(2) == 4 && Pow2(4) == 16;
  }

  lemma FourSymbols(s: seq<nat>, bits: seq<bool>)
    requires |s| == 4 && |bits| == 20 && forall k | 0 <= k < 4 :: s[k] < 32
    requires Val(bits) == ((s[0] * 32 + s[1]) * 32 + s[2]) * 32 + s[3]
    ensures Fits(s, 5) && Expand(s, 5) == bits
  {
    Thirty2();
    ValOfTwo(s[0], s[1], 5);
    ValOfMore([s[0], s[1]], s[2], 5);
    ValOfMore([s[0], s[1]] + [s[2]], s[3], 5);
    assert s == [s[0], s[1]] + [s[2]] + [s[3]];
    SameVal(Expand(s, 5), bits);
  }

  lemma ValOfMore(data: seq<int>, x: nat, w: nat)
    requires Fits(data, w) && x < Pow2(w)
    ensures Fits(data + [x], w) && Val(Expand(data + [x], w)) == Val(Expand(data, w)) * Pow2(w) + x
  {
    assert (data + [x])[..|data|] == data;
    ValConcat(Expand(data, w), BitsOf(x, w));
    ValOfBits(x, w);
  }

  lemma ValOfTwo(a: nat, b: nat, w: nat)
    requires a < Pow2(w) && b < Pow2(w)
    ensures Fits([a, b], w) && Val(Expand([a, b], w)) == a * Pow2(w) + b
  {
    ValOfMore([], a, w);
    ValOfMore([a], b, w);
    assert [] + [a] == [a] && [a] + [b] == [a, b];
  }

  lemma SameVal(a: seq<bool>, b: seq<bool>)
    requires |a| == |b| && Val(a) == Val(b)
    ensures a == b
  {
    BitsOfVal(a);
    BitsOfVal(b);
  }

  lemma PublishedSum()
    ensures ChecksumOf(HrpExpand("bc") + Symbols([16, 14, 20, 15, 0])) == Symbols([8, 13, 2, 10, 20, 18])
  {
    var values := HrpExpand("bc") + Symbols([16, 14, 20, 15, 0]);
    assert values + Symbols([8, 13, 2, 10, 20, 18]) == PUBLISHED;
    PublishedPasses();
    ChecksumIsUnique(values, Symbols([8, 13, 2, 10, 20, 18]));
  }

  lemma PublishedChars()
    ensures Fits([8, 13, 2, 10, 20, 18], 5) && Fits([16, 14, 20, 15, 0] + [8, 13, 2, 10, 20, 18], 5)
    ensures "bc" + "1" + Chars([16, 14, 20, 15, 0] + [8, 13, 2, 10, 20, 18]) == "bc1sw50qgdz25j"
  {
    Thirty2();
    assert Chars([16, 14, 20, 15, 0] + [8, 13, 2, 10, 20, 18]) == "sw50qgdz25j";
  }

  lemma EncodedText(hrp: Ascii, version: int, program: seq<int>, data: seq<int>, sum: seq<int>, text: Ascii)
    requires 0 <= version <= 16 && Fits(program, 8) && data == DataOf(version, program) && Fits(sum, 5)
    requires ChecksumOf(HrpExpand(Lower(hrp)) + Symbols(data)) == Symbols(sum)
    requires Fits(data + sum, 5) && Lower(hrp) + "1" + Chars(data + sum) == text
    ensures Encoded(hrp, version, program).Ok? && Encoded(hrp, version, program).value == text
  {
    NumbersOfSymbols(sum);
    EncodedAs(hrp, version, program, sum);
  }

  /** The address that BIP 350 lists for version 16 and the bytes 75 1e. */
  lemma PublishedAddress(hrp: Ascii, program: seq<int>)
    requires hrp == "BC" && program == [0x75, 0x1e]
    ensures Fits(program, 8) && Encoded(hrp, 16, program).Ok?
    ensures Encoded(hrp, 16, program).value == "bc1sw50qgdz25j"
  {
    var data, sum := [16, 14, 20, 15, 0], [8, 13, 2, 10, 20, 18];
    TwoBytes(16, program[0], program[1], [14, 20, 15, 0]);
    PublishedSum();
    PublishedChars();
    assert Lower(hrp) == "bc";
    EncodedText(hrp, 16, program, data, sum, "bc1sw50qgdz25j");
  }

  // ----- The loops -----

  method ExpandPrefix(hrp: Ascii) returns (v: seq<Symbol>)
    ensures v == HrpExpand(hrp)
    ensures |v| == 2 * |hrp| + 1 && v[|hrp|] == 0
    ensures forall k | 0 <= k < |hrp| :: v[k] as int == hrp[k] as int / 32
    ensures forall k | 0 <= k < |hrp| :: v[|hrp| + 1 + k] as int == hrp[k] as int % 32
  {
    var high: seq<Symbol>, low: seq<Symbol> := [], [];
    for k := 0 to |hrp|
      invariant |high| == k && forall j | 0 <= j < k :: high[j] == ToSymbol(hrp[j] as int / 32)
    {
      high := high + [ToSymbol(hrp[k] as int / 32)];
    }
    for k := 0 to |hrp|
      invariant |low| == k && forall j | 0 <= j < k :: low[j] == ToSymbol(hrp[j] as int % 32)
    {
      low := low + [ToSymbol(hrp[k] as int % 32)];
    }
    assert high == Symbols(seq(|hrp|, k requires 0 <= k < |hrp| => hrp[k] as int / 32));
    assert low == Symbols(seq(|hrp|, k requires 0 <= k < |hrp| => hrp[k] as int % 32));
    ExpandsInOrder(hrp);
    return high + [0] + low;
  }

  /** Writes symbols behind what has been written. */
  method WriteChars(start: Ascii, data: seq<int>) returns (s: Ascii)
    requires Fits(data, 5)
    ensures s == start + Chars(data)
  {
    var out: string := start;
    for k := 0 to |data|
      invariant out == start + Chars(data)[..k]
    {
      out := out + [CharOf(data[k])];
    }
    assert Chars(data)[..|data|] == Chars(data);
    return out;
  }

  method Encode(hrp: Ascii, version: int, program: seq<int>) returns (r: Result<Ascii>)
    requires 0 <= version < 256 && Fits(program, 8)
    ensures r == Encoded(hrp, version, program)
    ensures if version > 16 then r == Err(InvalidVersion) else r.Ok?
  {
    if version > 16 {
      return Err(InvalidVersion);
    }
    var prefix := Lower(hrp);
    var conv := ConvertBits(program, 8, 5, true);
    RegroupFits(program);
    var data := [version] + conv.value;
    var h := ExpandPrefix(prefix);
    var sum := CreateChecksum(h, Symbols(data));
    NumbersFit(sum);
    Thirty2();
    CharsConcat(data, Numbers(sum));
    var s := WriteChars(prefix + "1", data + Numbers(sum));
    assert s == prefix + "1" + (Chars(data) + Chars(Numbers(sum)));
    return Ok(s);
  }

  method FindLastOne(s: Ascii) returns (pos: int)
    ensures pos == LastOne(s)
  {
    pos := |s| - 1;
    assert s[..|s|] == s;
    while pos >= 0 && s[pos] != '1'
      invariant -1 <= pos < |s| && LastOne(s) == LastOne(s[..pos + 1])
    {
      assert s[..pos + 1][..pos] == s[..pos];
      pos := pos - 1;
    }
  }

  method ReadSymbols(s: Ascii) returns (r: Option<seq<int>>)
    ensures r == if AllKnown(s) then Some(Values(s)) else None
  {
    var data: seq<int> := [];
    for k := 0 to |s|
      invariant |data| == k && forall j | 0 <= j < k :: ValueOf(s[j]) == Some(data[j])
    {
      var v := ValueOf(s[k]);
      if v.None? {
        return None;
      }
      data := data + [v.value];
    }
    assert AllKnown(s) && data == Values(s);
    return Some(data);
  }

  method Decode(hrp: Ascii, addr: Ascii) returns (r: Result<Witness>)
    ensures r == Decoded(hrp, addr)
  {
    if |addr| > MAX_ADDRESS_LENGTH {
      return Err(InvalidLength);
    }
    if !OneCase(addr) {
      return Err(InvalidChar);
    }
    r := DecodeLower(Lower(hrp), Lower(addr));
  }

  method DecodeLower(hrp: Ascii, s: Ascii) returns (r: Result<Witness>)
    ensures r == DecodedLower(hrp, s)
  {
    var pos := FindLastOne(s);
    if pos < 1 || pos + 7 > |s| {
      return Err(InvalidHRP);
    }
    r := DecodeParts(hrp, s[..pos], s[pos + 1..]);
  }

  method DecodeParts(hrp: Ascii, prefix: Ascii, rest: Ascii) returns (r: Result<Witness>)
    requires |rest| >= 6
    ensures r == DecodedParts(hrp, prefix, rest)
  {
    if prefix != hrp {
      return Err(InvalidHRP);
    }
    var known := ReadSymbols(rest);
    if known.None? {
      return Err(InvalidChar);
    }
    var data := known.value;
    var h := ExpandPrefix(prefix);
    var ok := VerifyChecksum(h, Symbols(data));
    if !ok {
      return Err(InvalidChecksum);
    }
    data := data[..|data| - 6];
    if |data| < 1 {
      return Err(InvalidLength);
    }
    var program := ConvertBits(data[1..], 5, 8, false);
    if program.None? {
      return Err(InvalidPadding);
    }
    if data[0] != 1 {
      return Err(UnsupportedVersion);
    }
    if |program.value| != PROGRAM_SIZE {
      return Err(InvalidLength);
    }
    return Ok(Witness(data[0], program.value));
  }
}
