/** The wire form of a transaction, written as the builder writes it and read
    by the format of BIP 144. */
module Wire {

  type Byte = b: int | 0 <= b < 256

  type Bytes = seq<Byte>

  /** An input as it is serialized; the script signature is always empty. */
  datatype TxInput = TxInput(txid: Bytes, vout: nat, sequence: nat, stack: seq<Bytes>)

  datatype TxOutput = TxOutput(value: int, script: Bytes)

  datatype Transaction = Transaction(version: nat, inputs: seq<TxInput>, outputs: seq<TxOutput>, lockTime: nat)

  const TWO16 := 0x1_0000
  const TWO32 := 0x1_0000_0000
  const TWO63 := 0x8000_0000_0000_0000
  const TWO64 := 0x1_0000_0000_0000_0000

  predicate ShortEnough<T>(s: seq<T>) {
    |s| < TWO64
  }

  predicate GoodInput(i: TxInput) {
    |i.txid| == 32 && i.vout < TWO32 && i.sequence < TWO32 && ShortEnough(i.stack) &&
    forall k | 0 <= k < |i.stack| :: ShortEnough(i.stack[k])
  }

  predicate GoodOutput(o: TxOutput) {
    -TWO63 <= o.value < TWO63 && ShortEnough(o.script)
  }

  /** The fields are within the widths of their types. */
  predicate Good(tx: Transaction) {
    && tx.version < TWO32 && tx.lockTime < TWO32 && ShortEnough(tx.inputs) && ShortEnough(tx.outputs)
    && (forall k | 0 <= k < |tx.inputs| :: GoodInput(tx.inputs[k]))
    && (forall k | 0 <= k < |tx.outputs| :: GoodOutput(tx.outputs[k]))
  }

  // ----- Writing -----

  function LE(x: nat, n: nat): (b: Bytes)
    ensures |b| == n
  {
    if n == 0 then [] else [x % 256] + LE(x / 256, n - 1)
  }

  function VarInt(v: nat): Bytes {
    if v < 0xfd then [v]
    else if v < TWO16 then [0xfd] + LE(v, 2)
    else if v < TWO32 then [0xfe] + LE(v, 4)
    else [0xff] + LE(v, 8)
  }

  function VarIntSize(v: nat): nat {
    if v < 0xfd then 1 else if v <= 0xffff then 3 else if v <= 0xffff_ffff then 5 else 9
  }

  lemma VarIntLength(v: nat)
    ensures |VarInt(v)| == VarIntSize(v)
  {
  }

  function Each<T>(f: T -> Bytes, xs: seq<T>): Bytes {
    if xs == [] then [] else f(xs[0]) + Each(f, xs[1..])
  }

  /** The conversion to an unsigned 64-bit integer. */
  function Unsigned(v: int): nat {
    v % TWO64
  }

  lemma UnsignedIs(v: int)
    requires -TWO63 <= v < TWO63
    ensures Unsigned(v) == if v < 0 then v + TWO64 else v
  {
  }

  function InputBytes(i: TxInput): Bytes {
    i.txid + LE(i.vout, 4) + VarInt(0) + LE(i.sequence, 4)
  }

  function OutputBytes(o: TxOutput): Bytes {
    LE(Unsigned(o.value), 8) + VarInt(|o.script|) + o.script
  }

  function ItemBytes(item: Bytes): Bytes {
    VarInt(|item|) + item
  }

  function WitnessBytes(i: TxInput): Bytes {
    VarInt(|i.stack|) + Each(ItemBytes, i.stack)
  }

  predicate HasWitness(tx: Transaction) {
    exists k :: 0 <= k < |tx.inputs| && tx.inputs[k].stack != []
  }

  /** Inputs and outputs, which both forms share. */
  function Body(tx: Transaction): Bytes {
    VarInt(|tx.inputs|) + Each(InputBytes, tx.inputs) + VarInt(|tx.outputs|) + Each(OutputBytes, tx.outputs)
  }

  function Stripped(tx: Transaction): Bytes {
    LE(tx.version, 4) + Body(tx) + LE(tx.lockTime, 4)
  }

  function Serialized(tx: Transaction): Bytes {
    if HasWitness(tx)
    then LE(tx.version, 4) + [0x00, 0x01] + Body(tx) + Each(WitnessBytes, tx.inputs) + LE(tx.lockTime, 4)
    else Stripped(tx)
  }

  lemma EachOne<T>(f: T -> Bytes, x: T)
    ensures Each(f, [x]) == f(x)
  {
    assert [x][1..] == [];
  }

  /** The bytes come least significant first. */
  lemma LE4(x: nat)
    ensures LE(x, 4) == [x % 256, x / 256 % 256, x / 65536 % 256, x / 16777216 % 256]
  {
    assert x / 256 / 256 == x / 65536 && x / 65536 / 256 == x / 16777216;
    assert LE(x, 4) == [x % 256] + LE(x / 256, 3);
    assert LE(x / 256, 3) == [x / 256 % 256] + LE(x / 65536, 2);
    assert LE(x / 65536, 2) == [x / 65536 % 256] + LE(x / 16777216, 1);
  }

  lemma LENext(x: nat, n: nat)
    ensures LE(x, n + 1) == [x % 256] + LE(x / 256, n)
  {
  }

  lemma {:induction false} LEZero(n: nat)
    ensures LE(0, n) == seq(n, _ => 0)
  {
    if n > 0 {
      LEZero(n - 1);
    }
  }

  /** The four widths of a count, each at its least value but the first, which is
      at its largest. */
  lemma CountForms()
    ensures VarInt(0xfc) == [0xfc] && VarInt(0xfd) == [0xfd, 0xfd, 0]
    ensures VarInt(0x1_0000) == [0xfe, 0, 0, 1, 0] && VarInt(0x1_0000_0000) == [0xff, 0, 0, 0, 0, 1, 0, 0, 0]
  {
    assert LE(0xfd, 2) == [0xfd] + LE(0, 1);
    LE4(0x1_0000);
    LENext(0x1_0000_0000, 7);
    LENext(0x100_0000, 6);
    LENext(0x1_0000, 5);
    LENext(0x100, 4);
    LE4(1);
  }

  /** An input, byte by byte: the outpoint, an empty script and the sequence. */
  lemma InputLayout(i: TxInput)
    ensures InputBytes(i) ==
            i.txid + [i.vout % 256, i.vout / 256 % 256, i.vout / 65536 % 256, i.vout / 16777216 % 256] + [0] +
            [i.sequence % 256, i.sequence / 256 % 256, i.sequence / 65536 % 256, i.sequence / 16777216 % 256]
  {
    LE4(i.vout);
    LE4(i.sequence);
  }

  /** An output of 258 shors to a script of one byte, and a witness of one item. */
  lemma OutputLayout(txid: Bytes, item: Byte)
    ensures OutputBytes(TxOutput(258, [0x51])) == [2, 1, 0, 0, 0, 0, 0, 0] + [1] + [0x51]
    ensures WitnessBytes(TxInput(txid, 1, 0, [[item]])) == [1] + [1, item]
  {
    LENext(258, 7);
    LENext(1, 6);
    LEZero(6);
    EachOne(ItemBytes, [item]);
  }

  /** With one input and one output the parts stand in this order: the marker and
      the flag of BIP 144 come behind the version, and the witness in front of the
      lock time, exactly when there is a witness. */
  lemma LayoutOf(version: nat, i: TxInput, out: TxOutput, lockTime: nat)
    ensures var head, middle, tail := LE(version, 4), [1] + InputBytes(i) + [1] + OutputBytes(out), LE(lockTime, 4);
            Serialized(Transaction(version, [i], [out], lockTime)) ==
            if i.stack == [] then head + middle + tail else head + [0, 1] + middle + WitnessBytes(i) + tail
  {
    var tx := Transaction(version, [i], [out], lockTime);
    EachOne(InputBytes, i);
    EachOne(OutputBytes, out);
    EachOne(WitnessBytes, i);
    assert HasWitness(tx) <==> i.stack != [] by {
      assert tx.inputs[0] == i;
    }
    assert VarInt(1) == [1];
    assert Body(tx) == [1] + InputBytes(i) + [1] + OutputBytes(out);
  }

  // ----- Reading -----

  datatype Read<+T> = Fail | Got(value: T, rest: Bytes)

  function FromLE(b: Bytes): nat {
    if b == [] then 0 else b[0] + 256 * FromLE(b[1..])
  }

  function ReadBytes(b: Bytes, n: nat): Read<Bytes> {
    if |b| < n then Fail else Got(b[..n], b[n..])
  }

  function ReadLE(b: Bytes, n: nat): Read<nat> {
    if |b| < n then Fail else Got(FromLE(b[..n]), b[n..])
  }

  function ReadVarInt(b: Bytes): Read<nat> {
    if b == [] then Fail
    else if b[0] == 0xfd then ReadLE(b[1..], 2)
    else if b[0] == 0xfe then ReadLE(b[1..], 4)
    else if b[0] == 0xff then ReadLE(b[1..], 8)
    else Got(b[0], b[1..])
  }

  /** A byte string behind its length. */
  function ReadItem(b: Bytes): Read<Bytes> {
    match ReadVarInt(b)
    case Fail => Fail
    case Got(n, rest) => ReadBytes(rest, n)
  }

  function ReadEach<T>(r: Bytes -> Read<T>, b: Bytes, n: nat): Read<seq<T>>
    decreases n
  {
    if n == 0 then Got([], b)
    else
      match r(b)
      case Fail => Fail
      case Got(x, rest) =>
        match ReadEach(r, rest, n - 1)
        case Fail => Fail
        case Got(xs, rest') => Got([x] + xs, rest')
  }

  /** As many as the count in front says. */
  function ReadList<T>(r: Bytes -> Read<T>, b: Bytes): Read<seq<T>> {
    match ReadVarInt(b)
    case Fail => Fail
    case Got(n, rest) => ReadEach(r, rest, n)
  }

  datatype InputView = InputView(txid: Bytes, vout: nat, scriptSig: Bytes, sequence: nat)

  function ReadInput(b: Bytes): Read<InputView> {
    match ReadBytes(b, 32)
    case Fail => Fail
    case Got(txid, b1) =>
      match ReadLE(b1, 4)
      case Fail => Fail
      case Got(vout, b2) =>
        match ReadItem(b2)
        case Fail => Fail
        case Got(sig, b3) =>
          match ReadLE(b3, 4)
          case Fail => Fail
          case Got(sequence, b4) => Got(InputView(txid, vout, sig, sequence), b4)
  }

  function Signed(v: nat): int {
    if v >= TWO63 then v - TWO64 else v
  }

  function ReadOutput(b: Bytes): Read<TxOutput> {
    match ReadLE(b, 8)
    case Fail => Fail
    case Got(v, b1) =>
      match ReadItem(b1)
      case Fail => Fail
      case Got(script, b2) => Got(TxOutput(Signed(v), script), b2)
  }

  function ReadStack(b: Bytes): Read<seq<Bytes>> {
    ReadList(ReadItem, b)
  }

  datatype View = View(version: nat, inputs: seq<InputView>, outputs: seq<TxOutput>, stacks: seq<seq<Bytes>>,
                       lockTime: nat)

  function NoStacks(n: nat): seq<seq<Bytes>> {
    seq(n, _ => [])
  }

  /** What follows the version, and the marker when there is one. */
  function ReadRest(version: nat, b: Bytes, marked: bool): Read<View> {
    match ReadList(ReadInput, b)
    case Fail => Fail
    case Got(ins, b1) =>
      match ReadList(ReadOutput, b1)
      case Fail => Fail
      case Got(outs, b2) =>
        match (if marked then ReadEach(ReadStack, b2, |ins|) else Got(NoStacks(|ins|), b2))
        case Fail => Fail
        case Got(stacks, b3) =>
          match ReadLE(b3, 4)
          case Fail => Fail
          case Got(lockTime, b4) => Got(View(version, ins, outs, stacks, lockTime), b4)
  }

  /** A zero where the input count stands, then a one, mark a witness. */
  function Parse(b: Bytes): Read<View> {
    match ReadLE(b, 4)
    case Fail => Fail
    case Got(version, rest) =>
      if |rest| >= 2 && rest[0] == 0x00 && rest[1] == 0x01 then ReadRest(version, rest[2..], true)
      else ReadRest(version, rest, false)
  }

  // ----- Reading what was written -----

  function Pow256(n: nat): nat {
    if n == 0 then 1 else 256 * Pow256(n - 1)
  }

  lemma {:induction false} FromLEBack(x: nat, n: nat)
    requires x < Pow256(n)
    ensures FromLE(LE(x, n)) == x
  {
    if n > 0 {
      FromLEBack(x / 256, n - 1);
      assert LE(x, n)[1..] == LE(x / 256, n - 1);
    }
  }

  lemma Widths()
    ensures Pow256(2) == TWO16 && Pow256(4) == TWO32 && Pow256(8) == TWO64
  {
    assert Pow256(3) == 256 * TWO16 && Pow256(5) == 256 * TWO32 && Pow256(6) == TWO16 * TWO32;
    assert Pow256(7) == 256 * (TWO16 * TWO32);
  }

  lemma ReadLEBack(x: nat, n: nat, rest: Bytes)
    requires x < Pow256(n)
    ensures ReadLE(LE(x, n) + rest, n) == Got(x, rest)
  {
    FromLEBack(x, n);
    assert (LE(x, n) + rest)[..n] == LE(x, n) && (LE(x, n) + rest)[n..] == rest;
  }

  lemma ReadVarIntBack(v: nat, rest: Bytes)
    requires v < TWO64
    ensures ReadVarInt(VarInt(v) + rest) == Got(v, rest)
  {
    Widths();
    var n := if v < TWO16 then 2 else if v < TWO32 then 4 else 8;
    if v >= 0xfd {
      ReadLEBack(v, n, rest);
      assert (VarInt(v) + rest)[1..] == LE(v, n) + rest;
    } else {
      assert (VarInt(v) + rest)[1..] == rest;
    }
  }

  lemma ReadItemBack(item: Bytes, rest: Bytes)
    requires ShortEnough(item)
    ensures ReadItem(ItemBytes(item) + rest) == Got(item, rest)
  {
    assert ItemBytes(item) + rest == VarInt(|item|) + (item + rest);
    ReadVarIntBack(|item|, item + rest);
    assert (item + rest)[..|item|] == item && (item + rest)[|item|..] == rest;
  }

  /** Reading one by one what was written one by one. */
  lemma {:induction false} ReadEachBack<T, U>(f: T -> Bytes, r: Bytes -> Read<U>, view: T -> U, xs: seq<T>, rest: Bytes)
    requires forall k, more: Bytes | 0 <= k < |xs| :: r(f(xs[k]) + more) == Got(view(xs[k]), more)
    ensures ReadEach(r, Each(f, xs) + rest, |xs|) == Got(Views(view, xs), rest)
  {
    if xs == [] {
      assert Each(f, xs) + rest == rest;
    } else {
      var more := Each(f, xs[1..]) + rest;
      assert Each(f, xs) + rest == f(xs[0]) + more;
      ReadEachBack(f, r, view, xs[1..], rest);
      assert Views(view, xs) == [view(xs[0])] + Views(view, xs[1..]);
    }
  }

  function Views<T, U>(view: T -> U, xs: seq<T>): seq<U> {
    seq(|xs|, k requires 0 <= k < |xs| => view(xs[k]))
  }

  lemma ReadListBack<T, U>(f: T -> Bytes, r: Bytes -> Read<U>, view: T -> U, xs: seq<T>, rest: Bytes)
    requires ShortEnough(xs)
    requires forall k, more: Bytes | 0 <= k < |xs| :: r(f(xs[k]) + more) == Got(view(xs[k]), more)
    ensures ReadList(r, VarInt(|xs|) + Each(f, xs) + rest) == Got(Views(view, xs), rest)
  {
    assert VarInt(|xs|) + Each(f, xs) + rest == VarInt(|xs|) + (Each(f, xs) + rest);
    ReadVarIntBack(|xs|, Each(f, xs) + rest);
    ReadEachBack(f, r, view, xs, rest);
  }

  function ViewInput(i: TxInput): InputView {
    InputView(i.txid, i.vout, [], i.sequence)
  }

  function ViewStack(i: TxInput): seq<Bytes> {
    i.stack
  }

  function Same<T>(x: T): T {
    x
  }

  /** All of a transaction that is on the wire. */
  function ViewOf(tx: Transaction): View {
    View(tx.version, Views(ViewInput, tx.inputs), tx.outputs, Views(ViewStack, tx.inputs), tx.lockTime)
  }

  lemma ReadInputBack(i: TxInput, rest: Bytes)
    requires GoodInput(i)
    ensures ReadInput(InputBytes(i) + rest) == Got(ViewInput(i), rest)
  {
    Widths();
    var b3 := LE(i.sequence, 4) + rest;
    var b2 := ItemBytes([]) + b3;
    var b1 := LE(i.vout, 4) + b2;
    assert InputBytes(i) + rest == i.txid + b1;
    assert (i.txid + b1)[..32] == i.txid && (i.txid + b1)[32..] == b1;
    ReadLEBack(i.vout, 4, b2);
    ReadItemBack([], b3);
    ReadLEBack(i.sequence, 4, rest);
  }

  lemma ReadOutputBack(o: TxOutput, rest: Bytes)
    requires GoodOutput(o)
    ensures ReadOutput(OutputBytes(o) + rest) == Got(o, rest)
  {
    Widths();
    assert OutputBytes(o) + rest == LE(Unsigned(o.value), 8) + (ItemBytes(o.script) + rest);
    UnsignedIs(o.value);
    ReadLEBack(Unsigned(o.value), 8, ItemBytes(o.script) + rest);
    ReadItemBack(o.script, rest);
  }

  lemma ReadStackBack(i: TxInput, rest: Bytes)
    requires GoodInput(i)
    ensures ReadStack(WitnessBytes(i) + rest) == Got(ViewStack(i), rest)
  {
    forall k, more: Bytes | 0 <= k < |i.stack|
      ensures ReadItem(ItemBytes(i.stack[k]) + more) == Got(Same(i.stack[k]), more)
    {
      ReadItemBack(i.stack[k], more);
    }
    ReadListBack(ItemBytes, ReadItem, Same, i.stack, rest);
    assert Views(Same, i.stack) == i.stack;
  }

  lemma ReadInputsBack(tx: Transaction, rest: Bytes)
    requires Good(tx)
    ensures ReadList(ReadInput, VarInt(|tx.inputs|) + Each(InputBytes, tx.inputs) + rest) ==
            Got(Views(ViewInput, tx.inputs), rest)
  {
    forall k, more: Bytes | 0 <= k < |tx.inputs|
      ensures ReadInput(InputBytes(tx.inputs[k]) + more) == Got(ViewInput(tx.inputs[k]), more)
    {
      ReadInputBack(tx.inputs[k], more);
    }
    ReadListBack(InputBytes, ReadInput, ViewInput, tx.inputs, rest);
  }

  lemma ReadOutputsBack(tx: Transaction, rest: Bytes)
    requires Good(tx)
    ensures ReadList(ReadOutput, VarInt(|tx.outputs|) + Each(OutputBytes, tx.outputs) + rest) == Got(tx.outputs, rest)
  {
    forall k, more: Bytes | 0 <= k < |tx.outputs|
      ensures ReadOutput(OutputBytes(tx.outputs[k]) + more) == Got(Same(tx.outputs[k]), more)
    {
      ReadOutputBack(tx.outputs[k], more);
    }
    ReadListBack(OutputBytes, ReadOutput, Same, tx.outputs, rest);
    assert Views(Same, tx.outputs) == tx.outputs;
  }

  /** Inputs and outputs as the body holds them. */
  lemma ReadBodyBack(tx: Transaction, rest: Bytes)
    requires Good(tx)
    ensures ReadList(ReadInput, Body(tx) + rest).Got?
    ensures var r := ReadList(ReadInput, Body(tx) + rest);
            r.value == Views(ViewInput, tx.inputs) && ReadList(ReadOutput, r.rest) == Got(tx.outputs, rest)
  {
    var ins, outs := Each(InputBytes, tx.inputs), Each(OutputBytes, tx.outputs);
    Regroup4(VarInt(|tx.inputs|), ins, VarInt(|tx.outputs|), outs, rest);
    ReadInputsBack(tx, VarInt(|tx.outputs|) + outs + rest);
    ReadOutputsBack(tx, rest);
  }

  lemma Regroup4(a: Bytes, b: Bytes, c: Bytes, d: Bytes, e: Bytes)
    ensures a + b + c + d + e == a + b + (c + d + e)
  {
  }

  lemma ReadMarkedBack(tx: Transaction)
    requires Good(tx)
    ensures ReadRest(tx.version, Body(tx) + Each(WitnessBytes, tx.inputs) + LE(tx.lockTime, 4), true) ==
            Got(ViewOf(tx), [])
  {
    Widths();
    var stacks, tail := Each(WitnessBytes, tx.inputs), LE(tx.lockTime, 4);
    assert Body(tx) + stacks + tail == Body(tx) + (stacks + tail);
    ReadBodyBack(tx, stacks + tail);
    ReadStacksBack(tx, tail);
    ReadLEBack(tx.lockTime, 4, []);
    assert tail + [] == tail;
  }

  lemma ReadStacksBack(tx: Transaction, tail: Bytes)
    requires Good(tx)
    ensures ReadEach(ReadStack, Each(WitnessBytes, tx.inputs) + tail, |tx.inputs|) ==
            Got(Views(ViewStack, tx.inputs), tail)
  {
    forall k, more: Bytes | 0 <= k < |tx.inputs|
      ensures ReadStack(WitnessBytes(tx.inputs[k]) + more) == Got(ViewStack(tx.inputs[k]), more)
    {
      ReadStackBack(tx.inputs[k], more);
    }
    ReadEachBack(WitnessBytes, ReadStack, ViewStack, tx.inputs, tail);
  }

  lemma ReadUnmarkedBack(tx: Transaction)
    requires Good(tx) && !HasWitness(tx)
    ensures ReadRest(tx.version, Body(tx) + LE(tx.lockTime, 4), false) == Got(ViewOf(tx), [])
  {
    ReadBodyBack(tx, LE(tx.lockTime, 4));
    NoStacksAreViews(tx);
    ReadLockTimeBack(tx.lockTime);
  }

  lemma NoStacksAreViews(tx: Transaction)
    requires !HasWitness(tx)
    ensures NoStacks(|tx.inputs|) == Views(ViewStack, tx.inputs)
  {
    var none, views := NoStacks(|tx.inputs|), Views(ViewStack, tx.inputs);
    forall k | 0 <= k < |tx.inputs| ensures none[k] == views[k] {
      assert views[k] == ViewStack(tx.inputs[k]) == tx.inputs[k].stack == [];
    }
  }

  lemma ReadLockTimeBack(lockTime: nat)
    requires lockTime < TWO32
    ensures ReadLE(LE(lockTime, 4), 4) == Got(lockTime, [])
  {
    Widths();
    ReadLEBack(lockTime, 4, []);
    assert LE(lockTime, 4) + [] == LE(lockTime, 4);
  }

  lemma ParseMarked(version: nat, rest: Bytes)
    requires version < TWO32
    ensures Parse(LE(version, 4) + ([0x00, 0x01] + rest)) == ReadRest(version, rest, true)
  {
    Widths();
    ReadLEBack(version, 4, [0x00, 0x01] + rest);
    assert ([0x00, 0x01] + rest)[2..] == rest;
  }

  lemma ParseUnmarked(version: nat, rest: Bytes)
    requires version < TWO32 && rest != [] && rest[0] != 0
    ensures Parse(LE(version, 4) + rest) == ReadRest(version, rest, false)
  {
    Widths();
    ReadLEBack(version, 4, rest);
  }

  lemma Regroup(v: Bytes, m: Bytes, body: Bytes, w: Bytes, l: Bytes)
    ensures v + m + body + w + l == v + (m + (body + w + l))
    ensures v + body + l == v + (body + l)
  {
  }

  lemma ParseWithWitness(tx: Transaction)
    requires Good(tx) && HasWitness(tx)
    ensures Parse(Serialized(tx)) == Got(ViewOf(tx), [])
  {
    var stacks, tail := Each(WitnessBytes, tx.inputs), LE(tx.lockTime, 4);
    Regroup(LE(tx.version, 4), [0x00, 0x01], Body(tx), stacks, tail);
    ParseMarked(tx.version, Body(tx) + stacks + tail);
    ReadMarkedBack(tx);
  }

  lemma ParseWithoutWitness(tx: Transaction)
    requires Good(tx) && !HasWitness(tx) && tx.inputs != []
    ensures Parse(Serialized(tx)) == Got(ViewOf(tx), [])
  {
    var tail := LE(tx.lockTime, 4);
    Regroup(LE(tx.version, 4), [], Body(tx), [], tail);
    var rest := Body(tx) + tail;
    assert Body(tx) <= rest;
    CountLeads(tx, rest);
    ParseUnmarked(tx.version, rest);
    ReadUnmarkedBack(tx);
  }

  lemma ParsesBack(tx: Transaction)
    requires Good(tx) && tx.inputs != []
    ensures Parse(Serialized(tx)) == Got(ViewOf(tx), [])
  {
    if HasWitness(tx) {
      ParseWithWitness(tx);
    } else {
      ParseWithoutWitness(tx);
    }
  }

  /** Round trip: for every transaction with at least one input the reader of
      the BIP 144 format recovers the version, the outpoints, the sequences,
      the outputs, the witness stacks and the lock time, and nothing is left. */
  lemma ParseInvertsSerialize(tx: Transaction) returns (v: View)
    requires Good(tx) && tx.inputs != []
    ensures Parse(Serialized(tx)) == Got(v, []) && Recovers(v, tx)
  {
    ParsesBack(tx);
    ViewRecovers(tx);
    v := ViewOf(tx);
  }

  lemma ViewRecovers(tx: Transaction)
    ensures Recovers(ViewOf(tx), tx)
  {
    var v := ViewOf(tx);
    forall k | 0 <= k < |tx.inputs|
      ensures v.inputs[k] == InputView(tx.inputs[k].txid, tx.inputs[k].vout, [], tx.inputs[k].sequence)
      ensures v.stacks[k] == tx.inputs[k].stack
    {
      assert v.inputs[k] == ViewInput(tx.inputs[k]) && v.stacks[k] == ViewStack(tx.inputs[k]);
    }
  }

  /** Field by field. */
  predicate Recovers(v: View, tx: Transaction) {
    && v.version == tx.version && v.lockTime == tx.lockTime && v.outputs == tx.outputs
    && |v.inputs| == |v.stacks| == |tx.inputs|
    && forall k | 0 <= k < |tx.inputs| ::
         && v.inputs[k] == InputView(tx.inputs[k].txid, tx.inputs[k].vout, [], tx.inputs[k].sequence)
         && v.stacks[k] == tx.inputs[k].stack
  }

  /** A count of at least one does not begin with a zero. */
  lemma CountLeads(tx: Transaction, rest: Bytes)
    requires tx.inputs != [] && Body(tx) <= rest
    ensures rest != [] && rest[0] != 0
  {
    assert rest[0] == Body(tx)[0] == VarInt(|tx.inputs|)[0];
  }
}
