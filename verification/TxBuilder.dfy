/** Building an unsigned transaction: sizes, fee and change. Amounts are in
    shors. */
module TxBuilder {
  import opened Wire

  const MAX_MONEY := 2_000_000_000_000_000_000
  const UTXO_COST_PER_BYTE := 6500
  const FEE_MARGIN := 1
  const MAX_FEE := 200_000_000
  const MAX_FEE_RATE := 100_000
  const SIGNATURE_ITEM := 2421
  const KEY_ITEM := 1313
  const TX_VERSION := 2
  const SEQUENCE := 0xffff_ffff

  /** An output to spend; its txid is in display order. */
  datatype Utxo = Utxo(txid: Bytes, vout: nat, value: int)

  datatype Error = Network | InvalidAmount | BelowDust | InputOverflow | BadInput | FeeTooHigh | InsufficientFunds

  datatype Result<T> = Ok(value: T) | Err(error: Error)

  // ----- Sizes -----

  function Sum<T>(f: T -> int, xs: seq<T>): int {
    if xs == [] then 0 else Sum(f, xs[..|xs| - 1]) + f(xs[|xs| - 1])
  }

  lemma {:induction false} SumFront<T>(f: T -> int, xs: seq<T>)
    requires xs != []
    ensures Sum(f, xs) == f(xs[0]) + Sum(f, xs[1..])
  {
    if |xs| > 1 {
      SumFront(f, xs[..|xs| - 1]);
      assert xs[..|xs| - 1][1..] == xs[1..][..|xs[1..]| - 1];
    }
  }

  lemma {:induction false} EachLength<T>(f: T -> Bytes, size: T -> int, xs: seq<T>)
    requires forall k | 0 <= k < |xs| :: |f(xs[k])| == size(xs[k])
    ensures |Each(f, xs)| == Sum(size, xs)
  {
    if xs != [] {
      EachLength(f, size, xs[1..]);
      SumFront(size, xs);
    }
  }

  function ItemSize(item: Bytes): int {
    VarIntSize(|item|) + |item|
  }

  function StackSize(i: TxInput): int {
    VarIntSize(|i.stack|) + Sum(ItemSize, i.stack)
  }

  function OutputSize(o: TxOutput): int {
    8 + VarIntSize(|o.script|) + |o.script|
  }

  /** The witness of an input, or the one its signing will put there. */
  function WitnessSize(i: TxInput): int {
    if i.stack != [] then StackSize(i)
    else 1 + VarIntSize(SIGNATURE_ITEM) + SIGNATURE_ITEM + VarIntSize(KEY_ITEM) + KEY_ITEM
  }

  /** The relay floor of an output. */
  function MinOutputValue(script: Bytes): int {
    UTXO_COST_PER_BYTE * (8 + VarIntSize(|script|) + |script|)
  }

  function WeightOf(tx: Transaction): int {
    4 * |Stripped(tx)| + 2 + Sum(WitnessSize, tx.inputs)
  }

  function VSize(tx: Transaction): int {
    (WeightOf(tx) + 3) / 4
  }

  function Fee(tx: Transaction, rate: int): int {
    (VSize(tx) + FEE_MARGIN) * rate
  }

  predicate Sized(tx: Transaction) {
    forall k | 0 <= k < |tx.inputs| :: |tx.inputs[k].txid| == 32
  }

  function FortyOne(i: TxInput): int {
    41
  }

  lemma {:induction false} SumConstant<T>(f: T -> int, c: int, xs: seq<T>)
    requires forall k | 0 <= k < |xs| :: f(xs[k]) == c
    ensures Sum(f, xs) == c * |xs|
  {
    if xs != [] {
      SumConstant(f, c, xs[..|xs| - 1]);
    }
  }

  /** The stripped form's length by counts and script sizes alone. */
  lemma StrippedLength(tx: Transaction)
    requires Sized(tx)
    ensures |Stripped(tx)| == 8 + VarIntSize(|tx.inputs|) + 41 * |tx.inputs| + VarIntSize(|tx.outputs|) +
            Sum(OutputSize, tx.outputs)
  {
    VarIntLength(|tx.inputs|);
    VarIntLength(|tx.outputs|);
    EachLength(InputBytes, FortyOne, tx.inputs);
    SumConstant(FortyOne, 41, tx.inputs);
    forall k | 0 <= k < |tx.outputs| ensures |OutputBytes(tx.outputs[k])| == OutputSize(tx.outputs[k]) {
      VarIntLength(|tx.outputs[k].script|);
    }
    EachLength(OutputBytes, OutputSize, tx.outputs);
  }

  lemma WitnessLength(i: TxInput)
    ensures |WitnessBytes(i)| == StackSize(i)
  {
    VarIntLength(|i.stack|);
    forall k | 0 <= k < |i.stack| ensures |ItemBytes(i.stack[k])| == ItemSize(i.stack[k]) {
      VarIntLength(|i.stack[k]|);
    }
    EachLength(ItemBytes, ItemSize, i.stack);
  }

  // ----- Weight before and after signing -----

  /** `signed` is `tx` with a signature and a key on every input that had no
      witness. */
  ghost predicate SignedFrom(tx: Transaction, signed: Transaction) {
    && signed.version == tx.version && signed.outputs == tx.outputs && signed.lockTime == tx.lockTime
    && |signed.inputs| == |tx.inputs|
    && forall k | 0 <= k < |tx.inputs| :: SignedInput(tx.inputs[k], signed.inputs[k])
  }

  predicate SignedInput(i: TxInput, s: TxInput) {
    s.txid == i.txid && s.vout == i.vout && s.sequence == i.sequence &&
    if i.stack != [] then s.stack == i.stack
    else |s.stack| == 2 && |s.stack[0]| == SIGNATURE_ITEM && |s.stack[1]| == KEY_ITEM
  }

  lemma {:induction false} SumSame<T>(f: T -> int, xs: seq<T>, ys: seq<T>)
    requires |xs| == |ys| && forall k | 0 <= k < |xs| :: f(xs[k]) == f(ys[k])
    ensures Sum(f, xs) == Sum(f, ys)
  {
    if xs != [] {
      SumSame(f, xs[..|xs| - 1], ys[..|ys| - 1]);
    }
  }

  lemma {:induction false} EachSame<T>(f: T -> Bytes, xs: seq<T>, ys: seq<T>)
    requires |xs| == |ys| && forall k | 0 <= k < |xs| :: f(xs[k]) == f(ys[k])
    ensures Each(f, xs) == Each(f, ys)
  {
    if xs != [] {
      EachSame(f, xs[1..], ys[1..]);
    }
  }

  lemma SignedInputSize(i: TxInput, s: TxInput)
    requires SignedInput(i, s)
    ensures WitnessSize(s) == WitnessSize(i) && InputBytes(s) == InputBytes(i)
  {
    if i.stack == [] {
      assert s.stack[..1] == [s.stack[0]] && s.stack[..1][..0] == [];
      assert Sum(ItemSize, s.stack[..1]) == ItemSize(s.stack[0]);
      assert Sum(ItemSize, s.stack) == ItemSize(s.stack[0]) + ItemSize(s.stack[1]);
    }
  }

  /** Signing changes neither the stripped form nor the estimate. */
  lemma SigningKeepsWeight(tx: Transaction, signed: Transaction)
    requires SignedFrom(tx, signed)
    ensures Stripped(signed) == Stripped(tx) && WeightOf(signed) == WeightOf(tx)
  {
    forall k | 0 <= k < |tx.inputs|
      ensures WitnessSize(signed.inputs[k]) == WitnessSize(tx.inputs[k])
      ensures InputBytes(signed.inputs[k]) == InputBytes(tx.inputs[k])
    {
      SignedInputSize(tx.inputs[k], signed.inputs[k]);
    }
    EachSame(InputBytes, signed.inputs, tx.inputs);
    SumSame(WitnessSize, signed.inputs, tx.inputs);
  }

  lemma WeightWithWitness(tx: Transaction)
    requires forall k | 0 <= k < |tx.inputs| :: tx.inputs[k].stack != []
    ensures WeightOf(tx) == 3 * |Stripped(tx)| + |Serialized(tx)| + if tx.inputs == [] then 2 else 0
  {
    forall k | 0 <= k < |tx.inputs| ensures |WitnessBytes(tx.inputs[k])| == WitnessSize(tx.inputs[k]) {
      WitnessLength(tx.inputs[k]);
    }
    EachLength(WitnessBytes, WitnessSize, tx.inputs);
    if tx.inputs != [] {
      assert tx.inputs[0].stack != [];
    }
  }

  /** The estimate before signing is the weight of BIP 141 after it, three times
      the stripped length plus the full length, exactly when there is an input
      to sign; without one it counts a marker that is never written. */
  lemma WeightIsExact(tx: Transaction, signed: Transaction)
    requires SignedFrom(tx, signed)
    ensures WeightOf(tx) == 3 * |Stripped(signed)| + |Serialized(signed)| <==> tx.inputs != []
  {
    SigningKeepsWeight(tx, signed);
    forall k | 0 <= k < |signed.inputs| ensures signed.inputs[k].stack != [] {
      assert SignedInput(tx.inputs[k], signed.inputs[k]);
    }
    WeightWithWitness(signed);
  }

  // ----- The serializers -----

  lemma {:induction false} EachSnoc<T>(f: T -> Bytes, xs: seq<T>, k: nat)
    requires k < |xs|
    ensures Each(f, xs[..k + 1]) == Each(f, xs[..k]) + f(xs[k])
  {
    if k == 0 {
      assert xs[..1] == [xs[0]] && Each(f, xs[..1][1..]) == [];
    } else {
      EachSnoc(f, xs[1..], k - 1);
      assert xs[..k + 1][1..] == xs[1..][..k] && xs[..k][1..] == xs[1..][..k - 1];
    }
  }

  lemma Behind(start: Bytes, a: Bytes, b: Bytes, c: Bytes, d: Bytes)
    ensures start + a + b + c + d == start + (a + b + c + d)
    ensures start + a + b == start + (a + b)
  {
  }

  method WriteInputs(start: Bytes, inputs: seq<TxInput>) returns (buf: Bytes)
    ensures buf == start + Each(InputBytes, inputs)
  {
    buf := start;
    for k := 0 to |inputs|
      invariant buf == start + Each(InputBytes, inputs[..k])
    {
      EachSnoc(InputBytes, inputs, k);
      Behind(start, Each(InputBytes, inputs[..k]), InputBytes(inputs[k]), [], []);
      buf := buf + InputBytes(inputs[k]);
    }
    assert inputs[..|inputs|] == inputs;
  }

  method WriteOutputs(start: Bytes, outputs: seq<TxOutput>) returns (buf: Bytes)
    ensures buf == start + Each(OutputBytes, outputs)
  {
    buf := start;
    for k := 0 to |outputs|
      invariant buf == start + Each(OutputBytes, outputs[..k])
    {
      EachSnoc(OutputBytes, outputs, k);
      Behind(start, Each(OutputBytes, outputs[..k]), OutputBytes(outputs[k]), [], []);
      buf := buf + OutputBytes(outputs[k]);
    }
    assert outputs[..|outputs|] == outputs;
  }

  /** Inputs and outputs behind what the buffer holds. */
  method WriteBody(start: Bytes, tx: Transaction) returns (buf: Bytes)
    ensures buf == start + Body(tx)
  {
    buf := WriteInputs(start + VarInt(|tx.inputs|), tx.inputs);
    buf := WriteOutputs(buf + VarInt(|tx.outputs|), tx.outputs);
    Behind(start, VarInt(|tx.inputs|), Each(InputBytes, tx.inputs), VarInt(|tx.outputs|),
           Each(OutputBytes, tx.outputs));
  }

  method WriteWitnesses(start: Bytes, inputs: seq<TxInput>) returns (buf: Bytes)
    ensures buf == start + Each(WitnessBytes, inputs)
  {
    buf := start;
    for k := 0 to |inputs|
      invariant buf == start + Each(WitnessBytes, inputs[..k])
    {
      EachSnoc(WitnessBytes, inputs, k);
      Behind(start, Each(WitnessBytes, inputs[..k]), WitnessBytes(inputs[k]), [], []);
      buf := WriteStack(buf, inputs[k]);
    }
    assert inputs[..|inputs|] == inputs;
  }

  method WriteStack(start: Bytes, i: TxInput) returns (buf: Bytes)
    ensures buf == start + WitnessBytes(i)
  {
    buf := start + VarInt(|i.stack|);
    for k := 0 to |i.stack|
      invariant buf == start + VarInt(|i.stack|) + Each(ItemBytes, i.stack[..k])
    {
      EachSnoc(ItemBytes, i.stack, k);
      Behind(start + VarInt(|i.stack|), Each(ItemBytes, i.stack[..k]), ItemBytes(i.stack[k]), [], []);
      buf := buf + ItemBytes(i.stack[k]);
    }
    assert i.stack[..|i.stack|] == i.stack;
  }

  method SerializeNoWitness(tx: Transaction) returns (buf: Bytes)
    ensures buf == Stripped(tx)
  {
    buf := WriteBody(LE(tx.version, 4), tx);
    buf := buf + LE(tx.lockTime, 4);
  }

  method Serialize(tx: Transaction) returns (buf: Bytes)
    ensures buf == Serialized(tx)
  {
    var hasWitness := false;
    for k := 0 to |tx.inputs|
      invariant hasWitness <==> exists j :: 0 <= j < k && tx.inputs[j].stack != []
    {
      if tx.inputs[k].stack != [] {
        hasWitness := true;
        assert HasWitness(tx);
        break;
      }
    }
    buf := LE(tx.version, 4);
    if hasWitness {
      buf := buf + [0x00, 0x01];
    }
    buf := WriteBody(buf, tx);
    if hasWitness {
      buf := WriteWitnesses(buf, tx.inputs);
    }
    buf := buf + LE(tx.lockTime, 4);
  }

  method EstimateWeight(tx: Transaction) returns (weight: int)
    ensures weight == WeightOf(tx)
  {
    var base := SerializeNoWitness(tx);
    var size := 2;
    for k := 0 to |tx.inputs|
      invariant size == 2 + Sum(WitnessSize, tx.inputs[..k])
    {
      var i := tx.inputs[k];
      assert tx.inputs[..k + 1][..k] == tx.inputs[..k];
      if i.stack != [] {
        var items := 0;
        for j := 0 to |i.stack|
          invariant items == Sum(ItemSize, i.stack[..j])
        {
          assert i.stack[..j + 1][..j] == i.stack[..j];
          items := items + VarIntSize(|i.stack[j]|) + |i.stack[j]|;
        }
        assert i.stack[..|i.stack|] == i.stack;
        size := size + VarIntSize(|i.stack|) + items;
      } else {
        size := size + 1 + VarIntSize(SIGNATURE_ITEM) + SIGNATURE_ITEM + VarIntSize(KEY_ITEM) + KEY_ITEM;
      }
    }
    assert tx.inputs[..|tx.inputs|] == tx.inputs;
    return |base| * 4 + size;
  }

  // ----- Building -----

  /** Display order to internal order. */
  function Reversed(b: Bytes): (r: Bytes)
    ensures |r| == |b| && forall k | 0 <= k < |b| :: r[k] == b[|b| - 1 - k]
  {
    seq(|b|, k requires 0 <= k < |b| => b[|b| - 1 - k])
  }

  function DraftInput(u: Utxo): TxInput {
    TxInput(Reversed(u.txid), u.vout, SEQUENCE, [])
  }

  function Draft(inputs: seq<Utxo>, outputs: seq<TxOutput>): Transaction {
    Transaction(TX_VERSION, seq(|inputs|, k requires 0 <= k < |inputs| => DraftInput(inputs[k])), outputs, 0)
  }

  function ValueOf(u: Utxo): int {
    u.value
  }

  function OutputValue(o: TxOutput): int {
    o.value
  }

  function Total(inputs: seq<Utxo>): int {
    Sum(ValueOf, inputs)
  }

  predicate Amount(v: int) {
    0 < v <= MAX_MONEY
  }

  predicate AllAmounts(inputs: seq<Utxo>) {
    forall k | 0 <= k < |inputs| :: Amount(inputs[k].value)
  }

  predicate AllIds(inputs: seq<Utxo>) {
    forall k | 0 <= k < |inputs| :: |inputs[k].txid| == 32
  }

  lemma {:induction false} TotalGrows(inputs: seq<Utxo>, k: nat)
    requires AllAmounts(inputs) && k <= |inputs|
    ensures Total(inputs[..k]) <= Total(inputs)
    decreases |inputs| - k
  {
    if k < |inputs| {
      TotalGrows(inputs, k + 1);
      assert inputs[..k + 1][..k] == inputs[..k];
    } else {
      assert inputs[..k] == inputs;
    }
  }

  predicate Summable(inputs: seq<Utxo>) {
    AllAmounts(inputs) && Total(inputs) <= MAX_MONEY
  }

  /** What the first input that spoils the sum is refused for. */
  function SumError(inputs: seq<Utxo>): (e: Error)
    requires !Summable(inputs)
    ensures e == InvalidAmount || e == InputOverflow
  {
    var before := inputs[..|inputs| - 1];
    if !Summable(before) then SumError(before)
    else if !Amount(inputs[|inputs| - 1].value) then InvalidAmount
    else InputOverflow
  }

  lemma {:induction false} FirstErrorStays(inputs: seq<Utxo>, k: nat)
    requires k <= |inputs| && !Summable(inputs[..k])
    ensures !Summable(inputs) && SumError(inputs) == SumError(inputs[..k])
    decreases |inputs|
  {
    if k == |inputs| {
      assert inputs[..k] == inputs;
    } else {
      var before := inputs[..|inputs| - 1];
      assert before[..k] == inputs[..k];
      FirstErrorStays(before, k);
      if AllAmounts(inputs) {
        TotalGrows(inputs, |inputs| - 1);
        assert AllAmounts(before);
      }
    }
  }

  /** The total, when every value is an amount and so is the sum, and otherwise
      the error of the first input that spoils it; the sum is never above the
      ceiling on the way. */
  method SumInputs(inputs: seq<Utxo>) returns (r: Result<int>)
    ensures r.Ok? <==> AllAmounts(inputs) && Total(inputs) <= MAX_MONEY
    ensures r.Ok? ==> r.value == Total(inputs)
    ensures r.Err? ==> r.error == SumError(inputs)
  {
    var total := 0;
    for k := 0 to |inputs|
      invariant AllAmounts(inputs[..k]) && total == Total(inputs[..k]) <= MAX_MONEY
    {
      assert inputs[..k + 1][..k] == inputs[..k];
      if !Amount(inputs[k].value) {
        assert inputs[..k + 1][k] == inputs[k];
        FirstErrorStays(inputs, k + 1);
        return Err(InvalidAmount);
      }
      if total > MAX_MONEY - inputs[k].value {
        FirstErrorStays(inputs, k + 1);
        return Err(InputOverflow);
      }
      total := total + inputs[k].value;
    }
    assert inputs[..|inputs|] == inputs;
    return Ok(total);
  }

  function CheckFee(fee: int, rate: int): Result<()> {
    if rate <= 0 then Err(InvalidAmount)
    else if rate > MAX_FEE_RATE then Err(FeeTooHigh)
    else if fee > MAX_FEE then Err(FeeTooHigh)
    else Ok(())
  }

  /** The transaction spends exactly these outputs, in this order, signals no
      replacement and is not signed yet. */
  lemma DraftSpends(inputs: seq<Utxo>, outputs: seq<TxOutput>)
    ensures var tx := Draft(inputs, outputs);
            && tx.version == 2 && tx.lockTime == 0 && tx.outputs == outputs && |tx.inputs| == |inputs|
            && forall k | 0 <= k < |inputs| ::
                 && tx.inputs[k].txid == Reversed(inputs[k].txid) && tx.inputs[k].vout == inputs[k].vout
                 && tx.inputs[k].sequence == 0xffff_ffff && tx.inputs[k].stack == []
  {
  }

  method InternalOrder(b: Bytes) returns (r: Bytes)
    ensures r == Reversed(b)
  {
    r := [];
    for k := 0 to |b|
      invariant |r| == k && forall j | 0 <= j < k :: r[j] == b[|b| - 1 - j]
    {
      r := r + [b[|b| - 1 - k]];
    }
  }

  method AddInputs(inputs: seq<Utxo>) returns (r: Result<seq<TxInput>>)
    ensures r == if AllIds(inputs) then Ok(Draft(inputs, []).inputs) else Err(BadInput)
  {
    var ins: seq<TxInput> := [];
    for k := 0 to |inputs|
      invariant AllIds(inputs[..k]) && |ins| == k && forall j | 0 <= j < k :: ins[j] == DraftInput(inputs[j])
    {
      if |inputs[k].txid| != 32 {
        return Err(BadInput);
      }
      var txid := InternalOrder(inputs[k].txid);
      ins := ins + [TxInput(txid, inputs[k].vout, SEQUENCE, [])];
    }
    assert ins == Draft(inputs, []).inputs;
    return Ok(ins);
  }

  method MeasureFee(tx: Transaction, rate: int) returns (fee: int)
    ensures fee == Fee(tx, rate)
  {
    var weight := EstimateWeight(tx);
    return ((weight + 3) / 4 + FEE_MARGIN) * rate;
  }

  /** The two outputs the fee of a send is measured with. */
  function SendForm(inputs: seq<Utxo>, recipient: Bytes, amount: int, change: Bytes): Transaction {
    Draft(inputs, [TxOutput(amount, recipient), TxOutput(0, change)])
  }

  /** What a send is refused for, in the order it is looked at; `network` says
      that all inputs are addresses of one network. */
  function SendRefusal(inputs: seq<Utxo>, network: bool, recipient: Bytes, amount: int, change: Bytes,
                       rate: int): Result<()>
  {
    var fee := Fee(SendForm(inputs, recipient, amount, change), rate);
    if !network then Err(Network)
    else if !Amount(amount) then Err(InvalidAmount)
    else if amount < MinOutputValue(recipient) then Err(BelowDust)
    else if !Summable(inputs) then Err(SumError(inputs))
    else if !AllIds(inputs) then Err(BadInput)
    else if CheckFee(fee, rate).Err? then CheckFee(fee, rate)
    else if Total(inputs) < amount + fee then Err(InsufficientFunds)
    else Ok(())
  }

  /** A send. On success the inputs are spent in order, the recipient is paid
      `amount`, and the rest less the fee comes back unless it is below the
      relay floor of its script. */
  method BuildSend(inputs: seq<Utxo>, network: bool, recipient: Bytes, amount: int, change: Bytes, rate: int)
    returns (r: Result<Transaction>)
    ensures r.Ok? <==> SendRefusal(inputs, network, recipient, amount, change, rate).Ok?
    ensures r.Err? ==> r.error == SendRefusal(inputs, network, recipient, amount, change, rate).error
    ensures r.Ok? ==> IsSend(r.value, inputs, recipient, amount, change, rate)
    ensures r.Ok? ==> r.value.version == 2 && r.value.lockTime == 0 && |r.value.inputs| == |inputs|
    ensures r.Ok? && |r.value.inputs| == |inputs| ==>
              forall k | 0 <= k < |inputs| ::
                && r.value.inputs[k].txid == Reversed(inputs[k].txid) && r.value.inputs[k].vout == inputs[k].vout
                && r.value.inputs[k].sequence == 0xffff_ffff && r.value.inputs[k].stack == []
    ensures r.Ok? ==> 1 <= |r.value.outputs| <= 2 && r.value.outputs[0] == TxOutput(amount, recipient)
    ensures r.Ok? && |r.value.outputs| == 2 ==> r.value.outputs[1].script == change
  {
    if !network {
      return Err(Network);
    }
    if !Amount(amount) {
      return Err(InvalidAmount);
    }
    if amount < MinOutputValue(recipient) {
      return Err(BelowDust);
    }
    var total := SumInputs(inputs);
    if total.Err? {
      return Err(total.error);
    }
    var ins := AddInputs(inputs);
    if ins.Err? {
      return Err(BadInput);
    }
    var outputs := [TxOutput(amount, recipient), TxOutput(0, change)];
    var fee := MeasureFee(Transaction(TX_VERSION, ins.value, outputs, 0), rate);
    assert Transaction(TX_VERSION, ins.value, outputs, 0) == SendForm(inputs, recipient, amount, change);
    outputs := outputs[..1];
    var ok := CheckFee(fee, rate);
    if ok.Err? {
      return Err(ok.error);
    }
    var left := total.value - amount - fee;
    if left < 0 {
      return Err(InsufficientFunds);
    }
    if left >= MinOutputValue(change) {
      outputs := outputs + [TxOutput(left, change)];
    }
    return Ok(Transaction(TX_VERSION, ins.value, outputs, 0));
  }

  /** The transaction a send comes to. */
  ghost predicate IsSend(tx: Transaction, inputs: seq<Utxo>, recipient: Bytes, amount: int, change: Bytes, rate: int) {
    var left := Total(inputs) - amount - Fee(SendForm(inputs, recipient, amount, change), rate);
    tx == Draft(inputs, [TxOutput(amount, recipient)] + if left >= MinOutputValue(change) then
                [TxOutput(left, change)] else [])
  }

  // ----- Conservation -----

  /** A draft's weight by its counts and script sizes alone. */
  lemma DraftWeight(inputs: seq<Utxo>, outputs: seq<TxOutput>)
    requires AllIds(inputs)
    ensures WeightOf(Draft(inputs, outputs)) ==
            4 * (8 + VarIntSize(|inputs|) + 41 * |inputs| + VarIntSize(|outputs|) + Sum(OutputSize, outputs)) + 2 +
                3741 * |inputs|
  {
    var tx := Draft(inputs, outputs);
    StrippedLength(tx);
    SumConstant(WitnessSize, 3741, tx.inputs);
  }

  lemma SumOne<T>(f: T -> int, x: T)
    ensures Sum(f, [x]) == f(x)
  {
    assert [x][..0] == [];
  }

  lemma SumTwo<T>(f: T -> int, x: T, y: T)
    ensures Sum(f, [x, y]) == f(x) + f(y)
  {
    SumOne(f, x);
    assert [x, y][..1] == [x];
  }

  lemma Scaled(a: int, b: int, rate: int)
    requires a <= b && rate > 0
    ensures rate * a <= rate * b && rate * a <= (b + FEE_MARGIN) * rate
  {
    assert (b + FEE_MARGIN) * rate == rate * b + FEE_MARGIN * rate;
  }

  /** The size of a send does not depend on the values, and is no larger
      without change. */
  lemma SendShape(inputs: seq<Utxo>, recipient: Bytes, amount: int, change: Bytes, left: int)
    requires AllIds(inputs)
    ensures VSize(Draft(inputs, [TxOutput(amount, recipient), TxOutput(left, change)])) ==
            VSize(SendForm(inputs, recipient, amount, change))
    ensures VSize(Draft(inputs, [TxOutput(amount, recipient)])) <= VSize(SendForm(inputs, recipient, amount, change))
  {
    var paid, none, back := TxOutput(amount, recipient), TxOutput(0, change), TxOutput(left, change);
    DraftWeight(inputs, [paid, none]);
    DraftWeight(inputs, [paid, back]);
    DraftWeight(inputs, [paid]);
    SumTwo(OutputSize, paid, none);
    SumTwo(OutputSize, paid, back);
    SumOne(OutputSize, paid);
  }

  /** A send is accepted exactly when all of this holds. */
  lemma SendAccepts(inputs: seq<Utxo>, network: bool, recipient: Bytes, amount: int, change: Bytes, rate: int)
    ensures SendRefusal(inputs, network, recipient, amount, change, rate).Ok? <==>
              && network && 0 < amount <= 2_000_000_000_000_000_000
              && amount >= 6500 * (8 + VarIntSize(|recipient|) + |recipient|)
              && (forall k | 0 <= k < |inputs| ::
                    0 < inputs[k].value <= 2_000_000_000_000_000_000 && |inputs[k].txid| == 32)
              && Total(inputs) <= 2_000_000_000_000_000_000
              && 0 < rate <= 100_000 && Fee(SendForm(inputs, recipient, amount, change), rate) <= 200_000_000
              && amount + Fee(SendForm(inputs, recipient, amount, change), rate) <= Total(inputs)
  {
  }

  /** A sum is refused for a value that is no amount, or for passing the ceiling. */
  lemma {:induction false} SumRefusedFor(inputs: seq<Utxo>)
    requires !Summable(inputs)
    ensures SumError(inputs) == InvalidAmount ==>
              exists k :: 0 <= k < |inputs| && !(0 < inputs[k].value <= 2_000_000_000_000_000_000)
    ensures SumError(inputs) == InputOverflow ==>
              exists k :: 0 <= k <= |inputs| && Total(inputs[..k]) > 2_000_000_000_000_000_000
  {
    var before := inputs[..|inputs| - 1];
    if !Summable(before) {
      SumRefusedFor(before);
      assert forall k | 0 <= k < |inputs| :: before[..k] == inputs[..k];
    } else {
      assert inputs[..|inputs|] == inputs;
    }
  }

  /** Every refusal of a send names something that is wrong with it. */
  lemma SendRefusedFor(inputs: seq<Utxo>, network: bool, recipient: Bytes, amount: int, change: Bytes, rate: int,
                       e: Error)
    requires SendRefusal(inputs, network, recipient, amount, change, rate) == Err(e)
    ensures var fee := Fee(SendForm(inputs, recipient, amount, change), rate);
            match e
            case Network => !network
            case InvalidAmount =>
              || !(0 < amount <= 2_000_000_000_000_000_000) || rate <= 0
              || exists k :: 0 <= k < |inputs| && !(0 < inputs[k].value <= 2_000_000_000_000_000_000)
            case BelowDust => amount < 6500 * (8 + VarIntSize(|recipient|) + |recipient|)
            case InputOverflow => exists k :: 0 <= k <= |inputs| && Total(inputs[..k]) > 2_000_000_000_000_000_000
            case BadInput => exists k :: 0 <= k < |inputs| && |inputs[k].txid| != 32
            case FeeTooHigh => rate > 100_000 || fee > 200_000_000
            case InsufficientFunds => Total(inputs) < amount + fee
  {
    if !Summable(inputs) {
      SumRefusedFor(inputs);
    }
  }

  /** What the refusals leave of an accepted send. */
  lemma SendAccepted(inputs: seq<Utxo>, recipient: Bytes, amount: int, change: Bytes, rate: int)
    requires SendRefusal(inputs, true, recipient, amount, change, rate).Ok?
    ensures Amount(amount) && amount >= MinOutputValue(recipient) && AllIds(inputs) && 0 < rate
    ensures 0 < Fee(SendForm(inputs, recipient, amount, change), rate) <= MAX_FEE
    ensures amount + Fee(SendForm(inputs, recipient, amount, change), rate) <= Total(inputs) <= MAX_MONEY
  {
    FeePositive(SendForm(inputs, recipient, amount, change), rate);
  }

  /** The fee of a send pays for the size it has in the end. */
  lemma SendPays(inputs: seq<Utxo>, recipient: Bytes, amount: int, change: Bytes, rate: int, tx: Transaction)
    requires SendRefusal(inputs, true, recipient, amount, change, rate).Ok?
    requires IsSend(tx, inputs, recipient, amount, change, rate)
    ensures rate * VSize(tx) <= Fee(SendForm(inputs, recipient, amount, change), rate)
    ensures |tx.outputs| == 2 ==> Fee(tx, rate) == Fee(SendForm(inputs, recipient, amount, change), rate)
  {
    SendAccepted(inputs, recipient, amount, change, rate);
    var form := SendForm(inputs, recipient, amount, change);
    SendShape(inputs, recipient, amount, change, Total(inputs) - amount - Fee(form, rate));
    Scaled(VSize(tx), VSize(form), rate);
  }

  /** Conservation of a send: what goes in comes out or is the fee; the fee pays
      at least the rate for the final signed size, is the measured one exactly
      when there is change, and never exceeds the ceiling by as much as a change
      output is worth; every output is an amount at or above its relay floor. */
  lemma SendConserves(inputs: seq<Utxo>, recipient: Bytes, amount: int, change: Bytes, rate: int, tx: Transaction)
    requires SendRefusal(inputs, true, recipient, amount, change, rate).Ok?
    requires IsSend(tx, inputs, recipient, amount, change, rate)
    ensures tx.version == 2 && tx.lockTime == 0 && |tx.inputs| == |inputs|
    ensures forall k | 0 <= k < |inputs| ::
              && tx.inputs[k].txid == Reversed(inputs[k].txid) && tx.inputs[k].vout == inputs[k].vout
              && tx.inputs[k].sequence == 0xffff_ffff && tx.inputs[k].stack == []
    ensures tx.outputs[0] == TxOutput(amount, recipient)
    ensures |tx.outputs| == 1 || (|tx.outputs| == 2 && tx.outputs[1].script == change)
    ensures forall k | 0 <= k < |tx.outputs| ::
              Amount(tx.outputs[k].value) && tx.outputs[k].value >= MinOutputValue(tx.outputs[k].script)
    ensures var fee := Total(inputs) - Sum(OutputValue, tx.outputs);
            && rate * VSize(tx) <= fee < MAX_FEE + MinOutputValue(change)
            && (|tx.outputs| == 2 ==> fee == Fee(tx, rate) <= MAX_FEE)
  {
    SendAccepted(inputs, recipient, amount, change, rate);
    SendPays(inputs, recipient, amount, change, rate, tx);
    var left := Total(inputs) - amount - Fee(SendForm(inputs, recipient, amount, change), rate);
    var paid := TxOutput(amount, recipient);
    if left >= MinOutputValue(change) {
      assert tx.outputs == [paid, TxOutput(left, change)];
      SumTwo(OutputValue, paid, TxOutput(left, change));
    } else {
      assert tx.outputs == [paid];
      SumOne(OutputValue, paid);
    }
  }

  lemma FeePositive(tx: Transaction, rate: int)
    requires rate > 0 && forall k | 0 <= k < |tx.inputs| :: tx.inputs[k].stack == []
    ensures Fee(tx, rate) > 0
  {
    WeightPositive(tx);
    assert (VSize(tx) + FEE_MARGIN) * rate >= 1 * rate;
  }

  // ----- Sweeps -----

  function SweepForm(inputs: seq<Utxo>, destination: Bytes, value: int): Transaction {
    Draft(inputs, [TxOutput(value, destination)])
  }

  function SweepRefusal(inputs: seq<Utxo>, network: bool, destination: Bytes, rate: int): Result<()> {
    var fee := Fee(SweepForm(inputs, destination, 0), rate);
    if inputs == [] then Err(InsufficientFunds)
    else if !network then Err(Network)
    else if !Summable(inputs) then Err(SumError(inputs))
    else if !AllIds(inputs) then Err(BadInput)
    else if CheckFee(fee, rate).Err? then CheckFee(fee, rate)
    else if Total(inputs) <= fee then Err(InsufficientFunds)
    else if Total(inputs) - fee < MinOutputValue(destination) then Err(BelowDust)
    else Ok(())
  }

  /** A sweep is accepted exactly when all of this holds. */
  lemma SweepAccepts(inputs: seq<Utxo>, network: bool, destination: Bytes, rate: int)
    ensures SweepRefusal(inputs, network, destination, rate).Ok? <==>
              && network && inputs != []
              && (forall k | 0 <= k < |inputs| ::
                    0 < inputs[k].value <= 2_000_000_000_000_000_000 && |inputs[k].txid| == 32)
              && Total(inputs) <= 2_000_000_000_000_000_000
              && 0 < rate <= 100_000 && Fee(SweepForm(inputs, destination, 0), rate) <= 200_000_000
              && Total(inputs) - Fee(SweepForm(inputs, destination, 0), rate) >=
                 6500 * (8 + VarIntSize(|destination|) + |destination|)
  {
  }

  /** ... and so does every refusal of a sweep. */
  lemma SweepRefusedFor(inputs: seq<Utxo>, network: bool, destination: Bytes, rate: int, e: Error)
    requires SweepRefusal(inputs, network, destination, rate) == Err(e)
    ensures var fee := Fee(SweepForm(inputs, destination, 0), rate);
            match e
            case Network => !network
            case InvalidAmount =>
              rate <= 0 || exists k :: 0 <= k < |inputs| && !(0 < inputs[k].value <= 2_000_000_000_000_000_000)
            case BelowDust => Total(inputs) - fee < 6500 * (8 + VarIntSize(|destination|) + |destination|)
            case InputOverflow => exists k :: 0 <= k <= |inputs| && Total(inputs[..k]) > 2_000_000_000_000_000_000
            case BadInput => exists k :: 0 <= k < |inputs| && |inputs[k].txid| != 32
            case FeeTooHigh => rate > 100_000 || fee > 200_000_000
            case InsufficientFunds => inputs == [] || Total(inputs) <= fee
  {
    if !Summable(inputs) {
      SumRefusedFor(inputs);
    }
  }

  lemma WeightPositive(tx: Transaction)
    requires forall k | 0 <= k < |tx.inputs| :: tx.inputs[k].stack == []
    ensures WeightOf(tx) > 0
  {
    SumConstant(WitnessSize, 3741, tx.inputs);
  }

  /** A sweep: every input to one output, less the fee of that form. */
  method BuildSweep(inputs: seq<Utxo>, network: bool, destination: Bytes, rate: int) returns (r: Result<Transaction>)
    ensures r.Ok? <==> SweepRefusal(inputs, network, destination, rate).Ok?
    ensures r.Err? ==> r.error == SweepRefusal(inputs, network, destination, rate).error
    ensures r.Ok? ==>
              r.value == SweepForm(inputs, destination, Total(inputs) - Fee(SweepForm(inputs, destination, 0), rate))
    ensures r.Ok? ==> r.value.version == 2 && r.value.lockTime == 0 && |r.value.inputs| == |inputs|
    ensures r.Ok? && |r.value.inputs| == |inputs| ==>
              forall k | 0 <= k < |inputs| ::
                && r.value.inputs[k].txid == Reversed(inputs[k].txid) && r.value.inputs[k].vout == inputs[k].vout
                && r.value.inputs[k].sequence == 0xffff_ffff && r.value.inputs[k].stack == []
    ensures r.Ok? ==> |r.value.outputs| == 1 && r.value.outputs[0].script == destination
  {
    if inputs == [] {
      return Err(InsufficientFunds);
    }
    if !network {
      return Err(Network);
    }
    var total := SumInputs(inputs);
    if total.Err? {
      return Err(total.error);
    }
    var ins := AddInputs(inputs);
    if ins.Err? {
      return Err(BadInput);
    }
    var tx := Transaction(TX_VERSION, ins.value, [TxOutput(0, destination)], 0);
    assert tx == SweepForm(inputs, destination, 0);
    var fee := MeasureFee(tx, rate);
    var ok := CheckFee(fee, rate);
    if ok.Err? {
      return Err(ok.error);
    }
    var amount := total.value - fee;
    if amount <= 0 {
      return Err(InsufficientFunds);
    }
    if amount < MinOutputValue(destination) {
      return Err(BelowDust);
    }
    FeePositive(tx, rate);
    if !Amount(amount) {
      assert false; // at most the total, which is an amount
    }
    return Ok(tx.(outputs := [tx.outputs[0].(value := amount)]));
  }

  /** Conservation of a sweep. */
  lemma SweepConserves(inputs: seq<Utxo>, destination: Bytes, rate: int)
    requires SweepRefusal(inputs, true, destination, rate).Ok?
    ensures var fee := Fee(SweepForm(inputs, destination, 0), rate);
            var tx := SweepForm(inputs, destination, Total(inputs) - fee);
            && Total(inputs) == Sum(OutputValue, tx.outputs) + fee
            && rate * VSize(tx) <= fee == Fee(tx, rate) <= MAX_FEE
            && MinOutputValue(destination) <= tx.outputs[0].value && Amount(tx.outputs[0].value)
            && |tx.outputs| == 1 && tx.outputs[0].script == destination
            && tx.version == 2 && tx.lockTime == 0 && |tx.inputs| == |inputs|
            && forall k | 0 <= k < |inputs| ::
                 && tx.inputs[k].txid == Reversed(inputs[k].txid) && tx.inputs[k].vout == inputs[k].vout
                 && tx.inputs[k].sequence == 0xffff_ffff && tx.inputs[k].stack == []
  {
    var value := Total(inputs) - Fee(SweepForm(inputs, destination, 0), rate);
    SweepAccepted(inputs, destination, rate);
    SweepPays(inputs, destination, rate, value);
    SumOne(OutputValue, TxOutput(value, destination));
    DraftSpends(inputs, [TxOutput(value, destination)]);
  }

  /** The fee of a sweep is that of the form it is measured on, and pays for it. */
  lemma SweepPays(inputs: seq<Utxo>, destination: Bytes, rate: int, value: int)
    requires AllIds(inputs) && rate > 0
    ensures var tx, fee := SweepForm(inputs, destination, value), Fee(SweepForm(inputs, destination, 0), rate);
            rate * VSize(tx) <= fee == Fee(tx, rate)
  {
    SweepShape(inputs, destination, value);
    Scaled(VSize(SweepForm(inputs, destination, value)), VSize(SweepForm(inputs, destination, 0)), rate);
  }

  lemma SweepShape(inputs: seq<Utxo>, destination: Bytes, value: int)
    requires AllIds(inputs)
    ensures VSize(SweepForm(inputs, destination, value)) == VSize(SweepForm(inputs, destination, 0))
  {
    DraftWeight(inputs, [TxOutput(0, destination)]);
    DraftWeight(inputs, [TxOutput(value, destination)]);
    SumOne(OutputSize, TxOutput(0, destination));
    SumOne(OutputSize, TxOutput(value, destination));
  }

  // ----- On the wire -----

  /** Whoever reads the bytes of a draft finds the outputs it was given to spend,
      in order, and what it was told to pay. */
  lemma DraftReadBack(inputs: seq<Utxo>, outputs: seq<TxOutput>)
    requires inputs != [] && ShortEnough(inputs) && ShortEnough(outputs) && AllIds(inputs)
    requires forall k | 0 <= k < |inputs| :: inputs[k].vout < TWO32
    requires forall k | 0 <= k < |outputs| :: Amount(outputs[k].value) && ShortEnough(outputs[k].script)
    ensures var r := Parse(Serialized(Draft(inputs, outputs)));
            && r.Got? && r.rest == [] && r.value.version == 2 && r.value.lockTime == 0 && r.value.outputs == outputs
            && |r.value.inputs| == |inputs|
            && forall k | 0 <= k < |inputs| ::
                 r.value.inputs[k] == InputView(Reversed(inputs[k].txid), inputs[k].vout, [], 0xffff_ffff)
  {
    var tx := Draft(inputs, outputs);
    DraftSpends(inputs, outputs);
    assert Good(tx);
    var v := ParseInvertsSerialize(tx);
  }

  lemma SendHasInputs(inputs: seq<Utxo>, recipient: Bytes, amount: int, change: Bytes, rate: int)
    requires SendRefusal(inputs, true, recipient, amount, change, rate).Ok?
    ensures inputs != []
  {
    SendAccepted(inputs, recipient, amount, change, rate);
    assert inputs == [] ==> Total(inputs) == 0;
  }

  /** A send read back: the outpoints that were passed in, in order, then the
      payment, then the change if any. */
  lemma SendReadBack(inputs: seq<Utxo>, recipient: Bytes, amount: int, change: Bytes, rate: int, tx: Transaction)
    requires SendRefusal(inputs, true, recipient, amount, change, rate).Ok?
    requires IsSend(tx, inputs, recipient, amount, change, rate)
    requires ShortEnough(inputs) && ShortEnough(recipient) && ShortEnough(change)
    requires forall k | 0 <= k < |inputs| :: inputs[k].vout < TWO32
    ensures var r := Parse(Serialized(tx));
            && r.Got? && r.rest == [] && r.value.version == 2 && r.value.lockTime == 0
            && |r.value.inputs| == |inputs|
            && (forall k | 0 <= k < |inputs| ::
                  r.value.inputs[k] == InputView(Reversed(inputs[k].txid), inputs[k].vout, [], 0xffff_ffff))
            && 1 <= |r.value.outputs| <= 2 && r.value.outputs[0] == TxOutput(amount, recipient)
            && (|r.value.outputs| == 2 ==> r.value.outputs[1].script == change)
  {
    SendHasInputs(inputs, recipient, amount, change, rate);
    SendConserves(inputs, recipient, amount, change, rate, tx);
    SendAccepted(inputs, recipient, amount, change, rate);
    DraftReadBack(inputs, tx.outputs);
  }

  lemma SweepAccepted(inputs: seq<Utxo>, destination: Bytes, rate: int)
    requires SweepRefusal(inputs, true, destination, rate).Ok?
    ensures inputs != [] && AllIds(inputs) && Amount(Total(inputs) - Fee(SweepForm(inputs, destination, 0), rate))
  {
    FeePositive(SweepForm(inputs, destination, 0), rate);
  }

  /** A sweep read back. */
  lemma SweepReadBack(inputs: seq<Utxo>, destination: Bytes, rate: int, value: int)
    requires SweepRefusal(inputs, true, destination, rate).Ok?
    requires value == Total(inputs) - Fee(SweepForm(inputs, destination, 0), rate)
    requires ShortEnough(inputs) && ShortEnough(destination) && forall k | 0 <= k < |inputs| :: inputs[k].vout < TWO32
    ensures var r := Parse(Serialized(SweepForm(inputs, destination, value)));
            && r.Got? && r.rest == [] && r.value.version == 2 && r.value.lockTime == 0
            && r.value.outputs == [TxOutput(value, destination)] && |r.value.inputs| == |inputs|
            && forall k | 0 <= k < |inputs| ::
                 r.value.inputs[k] == InputView(Reversed(inputs[k].txid), inputs[k].vout, [], 0xffff_ffff)
  {
    SweepAccepted(inputs, destination, rate);
    DraftReadBack(inputs, [TxOutput(value, destination)]);
  }
}
