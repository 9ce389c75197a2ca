/** Pre-verification gas: the calldata and processing cost of an operation, computed on a sanitised copy. */
module Overhead {
  import opened Wrappers
  import opened Text
  import opened UserOps

  const INTRINSIC_FIXED := 21000
  const PER_USER_OP_FIXED := 22874
  const PER_USER_OP_MULTIPLIER := 25
  const ZERO_BYTE := 4
  const NON_ZERO_BYTE := 16
  const SANITIZED_PVG := 100000
  const SANITIZED_VGL := 1000000
  const SANITIZED_CGL := 1000000

  // ---------------------------------------------------------------------------------------------
  // The packed form
  // ---------------------------------------------------------------------------------------------

  function Word(n: nat): seq<Byte> {
    BigEndian(n, 32)
  }

  function Padding(len: nat): nat {
    (32 - len % 32) % 32
  }

  function Zeros(n: nat): seq<Byte> {
    if n == 0 then [] else [0] + Zeros(n - 1)
  }

  /** A byte string in the tail of an ABI encoding: its length, then its bytes padded to whole words. */
  function Tail(b: seq<Byte>): seq<Byte> {
    Word(|b|) + b + Zeros(Padding(|b|))
  }

  const HEAD_BYTES := 11 * 32

  /** The ABI encoding of the operation as a tuple: eleven head words, then the four byte strings. */
  function Pack(op: UserOp): seq<Byte> {
    var t1, t2, t3, t4 := Tail(op.initCode), Tail(op.callData), Tail(op.paymasterAndData), Tail(op.signature);
    Words(HeadOf(op)) + t1 + t2 + t3 + t4
  }

  function Words(ns: seq<nat>): seq<Byte> {
    if ns == [] then [] else Word(ns[0]) + Words(ns[1..])
  }

  /** The head words: figures where they stand, and for each byte string the offset of its tail. */
  function HeadOf(op: UserOp): seq<nat> {
    var l1, l2, l3 := |Tail(op.initCode)|, |Tail(op.callData)|, |Tail(op.paymasterAndData)|;
    [op.sender, op.nonce, HEAD_BYTES, HEAD_BYTES + l1, op.callGasLimit, op.verificationGasLimit, op.preVerificationGas,
     op.maxFeePerGas, op.maxPriorityFeePerGas, HEAD_BYTES + l1 + l2, HEAD_BYTES + l1 + l2 + l3]
  }

  lemma {:induction false} WordsLength(ns: seq<nat>)
    ensures |Words(ns)| == 32 * |ns|
  {
    hide Word;
    if ns != [] {
      WordLength(ns[0]);
      WordsLength(ns[1..]);
    }
  }

  lemma {:induction false} BigEndianLength(n: nat, len: nat)
    ensures |BigEndian(n, len)| == len
  {
    if len > 0 {
      BigEndianLength(n / 256, len - 1);
    }
  }

  lemma {:induction false} ZerosLength(n: nat)
    ensures |Zeros(n)| == n && forall i :: 0 <= i < n ==> Zeros(n)[i] == 0
  {
    if n > 0 {
      ZerosLength(n - 1);
    }
  }

  function TailWords(len: nat): nat {
    1 + (len + 31) / 32
  }

  /** A tail is whole words, and pads its bytes with zeros. */
  lemma TailLength(b: seq<Byte>)
    ensures |Tail(b)| == 32 * TailWords(|b|)
    ensures forall i :: 32 + |b| <= i < |Tail(b)| ==> Tail(b)[i] == 0
  {
    BigEndianLength(|b|, 32);
    ZerosLength(Padding(|b|));
    WholeWords(|b|);
    hide Padding, TailWords, BigEndian, Zeros;
  }

  lemma WholeWords(len: nat)
    ensures 32 + len + Padding(len) == 32 * TailWords(len)
  {
  }

  function PackedWords(op: UserOp): nat {
    11 + TailWords(|op.initCode|) + TailWords(|op.callData|) + TailWords(|op.paymasterAndData|)
    + TailWords(|op.signature|)
  }

  lemma WordLength(n: nat)
    ensures |Word(n)| == 32
  {
    BigEndianLength(n, 32);
  }

  lemma PackedLength(op: UserOp)
    ensures |Pack(op)| == 32 * PackedWords(op)
  {
    hide Tail, TailWords, Word;
    TailLength(op.initCode);
    TailLength(op.callData);
    TailLength(op.paymasterAndData);
    TailLength(op.signature);
    hide Words;
    WordsLength(HeadOf(op));
  }

  // ---------------------------------------------------------------------------------------------
  // Reading the packed form
  // ---------------------------------------------------------------------------------------------

  /** The number in the word that starts at byte `at`, or zero where the data ends before it. */
  function WordAt(data: seq<Byte>, at: nat): nat {
    if at + 32 <= |data| then FromBigEndian(data[at..at + 32]) else 0
  }

  /** The byte string whose offset is in the head word that starts at byte `head`. */
  function BytesAt(data: seq<Byte>, head: nat): seq<Byte> {
    var at := WordAt(data, head);
    var len := WordAt(data, at);
    if at + 32 + len <= |data| then data[at + 32..at + 32 + len] else []
  }

  /** All figures fit a word. */
  predicate Fits(op: UserOp) {
    && op.nonce < Pow256(32) && op.callGasLimit < Pow256(32) && op.verificationGasLimit < Pow256(32)
    && op.preVerificationGas < Pow256(32) && op.maxFeePerGas < Pow256(32) && op.maxPriorityFeePerGas < Pow256(32)
    && |Pack(op)| < Pow256(32)
  }

  lemma WordWithin(a: seq<Byte>, n: nat, b: seq<Byte>)
    requires n < Pow256(32)
    ensures WordAt(a + Word(n) + b, |a|) == n
  {
    hide BigEndian, FromBigEndian, Pow256;
    BigEndianReadsBack(n, 32);
    assert (a + Word(n) + b)[|a|..|a| + 32] == Word(n);
  }

  lemma {:induction false} HeadWordAt(ns: seq<nat>, rest: seq<Byte>, i: nat)
    requires i < |ns| && ns[i] < Pow256(32)
    ensures WordAt(Words(ns) + rest, 32 * i) == ns[i]
    decreases |ns|
  {
    hide Word, WordAt, Pow256;
    var later := Words(ns[1..]) + rest;
    assert Words(ns) + rest == Word(ns[0]) + later;
    if i == 0 {
      WordWithin([], ns[0], later);
      assert [] + Word(ns[0]) + later == Word(ns[0]) + later;
    } else {
      HeadWordAt(ns[1..], rest, i - 1);
      WordLength(ns[0]);
      WordLater(Word(ns[0]), later, 32 * (i - 1));
    }
  }

  lemma WordLater(a: seq<Byte>, b: seq<Byte>, at: nat)
    ensures WordAt(a + b, |a| + at) == WordAt(b, at)
  {
    hide FromBigEndian;
    if at + 32 <= |b| {
      assert (a + b)[|a| + at..|a| + at + 32] == b[at..at + 32];
    }
  }

  lemma TailWithin(a: seq<Byte>, x: seq<Byte>, b: seq<Byte>)
    requires |x| < Pow256(32)
    ensures var data := a + Tail(x) + b;
      WordAt(data, |a|) == |x| && |a| + 32 + |x| <= |data| && data[|a| + 32..|a| + 32 + |x|] == x
  {
    hide BigEndian, FromBigEndian, Pow256, Padding, Zeros, WordAt;
    var pad := Zeros(Padding(|x|));
    var data := a + Tail(x) + b;
    assert data == a + Word(|x|) + (x + pad + b);
    WordWithin(a, |x|, x + pad + b);
    WordLength(|x|);
    assert data[|a| + 32..|a| + 32 + |x|] == x;
  }

  /** A byte string whose offset is head word `i`. */
  lemma BytesWithin(data: seq<Byte>, i: nat, a: seq<Byte>, x: seq<Byte>, b: seq<Byte>)
    requires |x| < Pow256(32) && data == a + Tail(x) + b && WordAt(data, 32 * i) == |a|
    ensures BytesAt(data, 32 * i) == x
  {
    hide Tail, WordAt, Pow256;
    TailWithin(a, x, b);
  }

  lemma HeadFits(op: UserOp, i: nat)
    requires Fits(op) && i < 11
    ensures HeadOf(op)[i] < Pow256(32)
  {
    hide Tail, Pow256, Words;
    WordsLength(HeadOf(op));
    AddressFits();
  }

  lemma AddressFits()
    ensures ADDRESS_SPAN <= Pow256(32)
  {
    AddressSpan();
    PowGrows(20, 32);
  }

  /** Every field is read back from the packed form, where the encoding of the tuple puts it. */
  lemma UnpackUndoesPack(op: UserOp)
    requires Fits(op)
    ensures var p := Pack(op);
      && WordAt(p, 0) == op.sender && WordAt(p, 32) == op.nonce && BytesAt(p, 64) == op.initCode
      && BytesAt(p, 96) == op.callData && WordAt(p, 128) == op.callGasLimit && WordAt(p, 160) == op.verificationGasLimit
      && WordAt(p, 192) == op.preVerificationGas && WordAt(p, 224) == op.maxFeePerGas
      && WordAt(p, 256) == op.maxPriorityFeePerGas && BytesAt(p, 288) == op.paymasterAndData
      && BytesAt(p, 320) == op.signature
  {
    hide Tail, Pow256, Words, WordAt, BytesAt;
    var head := Words(HeadOf(op));
    var t1, t2, t3, t4 := Tail(op.initCode), Tail(op.callData), Tail(op.paymasterAndData), Tail(op.signature);
    var p := Pack(op);
    var rest := t1 + t2 + t3 + t4;
    assert p == head + rest;
    forall i: nat | i < 11
      ensures WordAt(p, 32 * i) == HeadOf(op)[i]
    {
      HeadFits(op, i);
      HeadWordAt(HeadOf(op), rest, i);
    }
    WordsLength(HeadOf(op));
    TailLength(op.initCode);
    TailLength(op.callData);
    TailLength(op.paymasterAndData);
    TailLength(op.signature);
    assert WordAt(p, 32 * 0) == HeadOf(op)[0] && WordAt(p, 32 * 1) == HeadOf(op)[1] && WordAt(p, 32 * 4) == HeadOf(op)[4];
    assert WordAt(p, 32 * 5) == HeadOf(op)[5] && WordAt(p, 32 * 6) == HeadOf(op)[6] && WordAt(p, 32 * 7) == HeadOf(op)[7];
    assert WordAt(p, 32 * 8) == HeadOf(op)[8];
    BytesWithin(p, 2, head, op.initCode, t2 + t3 + t4);
    BytesWithin(p, 3, head + t1, op.callData, t3 + t4);
    BytesWithin(p, 9, head + t1 + t2, op.paymasterAndData, t4);
    BytesWithin(p, 10, head + t1 + t2 + t3, op.signature, []);
  }

  // ---------------------------------------------------------------------------------------------
  // Costs
  // ---------------------------------------------------------------------------------------------

  function ByteCost(b: Byte): nat {
    if b == 0 then ZERO_BYTE else NON_ZERO_BYTE
  }

  function DataCost(data: seq<Byte>): nat {
    if data == [] then 0 else DataCost(data[..|data| - 1]) + ByteCost(data[|data| - 1])
  }

  method CalcCallDataCost(op: UserOp) returns (cost: nat)
    ensures cost == DataCost(Pack(op))
    ensures var zeros := multiset(Pack(op))[0]; cost == 4 * zeros + 16 * (|Pack(op)| - zeros)
  {
    hide Pack;
    DataCostCounts(Pack(op));
    cost := 0;
    var data := Pack(op);
    for i := 0 to |data|
      invariant cost == DataCost(data[..i])
    {
      assert data[..i + 1][..i] == data[..i];
      if data[i] == 0 {
        cost := cost + ZERO_BYTE;
      } else {
        cost := cost + NON_ZERO_BYTE;
      }
    }
    assert data[..|data|] == data;
  }

  /** Each zero byte costs 4 and each other byte 16. */
  lemma {:induction false} DataCostCounts(data: seq<Byte>)
    ensures var zeros := multiset(data)[0]; zeros <= |data| && DataCost(data) == 4 * zeros + 16 * (|data| - zeros)
  {
    if data != [] {
      DataCostCounts(data[..|data| - 1]);
      assert data == data[..|data| - 1] + [data[|data| - 1]];
    }
  }

  function PerUserOpCost(op: UserOp): nat {
    PER_USER_OP_MULTIPLIER * ((|Pack(op)| + 31) / 32) + PER_USER_OP_FIXED
  }

  function Ones(n: nat): seq<Byte> {
    seq(n, (i: nat) => 1)
  }

  /** The copy that costs are computed on: the three gas fields fixed, the signature's bytes all one. */
  function Sanitized(op: UserOp): UserOp {
    op.(preVerificationGas := SANITIZED_PVG,
        verificationGasLimit := SANITIZED_VGL,
        callGasLimit := SANITIZED_CGL,
        signature := Ones(|op.signature|))
  }

  function SanitizedMap(op: UserOp, sum: Checksum): JsonObject {
    ToMap(op, sum)
      ["preVerificationGas" := Str(EncodeBig(SANITIZED_PVG))]
      ["verificationGasLimit" := Str(EncodeBig(SANITIZED_VGL))]
      ["callGasLimit" := Str(EncodeBig(SANITIZED_CGL))]
      ["signature" := Str(EncodeBytes(Ones(|op.signature|)))]
  }

  function StaticGas(op: UserOp): nat {
    INTRINSIC_FIXED + DataCost(Pack(op)) + PerUserOpCost(op)
  }

  /** With the default calculator, which leaves the static value as it is. */
  function CalcPreVerificationGas(op: UserOp, sum: Checksum): Result<nat, DecodeError> {
    match New(SanitizedMap(op, sum))
    case Err(e) => Err(e)
    case Ok(tmp) => Ok(StaticGas(tmp))
  }

  lemma SanitizedMapDecodes(op: UserOp, sum: Checksum)
    requires op.Valid()
    ensures New(SanitizedMap(op, sum)) == Ok(Sanitized(op))
  {
    hide EncodeBig, EncodeBytes, AddressText, New, Ones, ToMap;
    ToMapEncodes(op, sum);
    NewUndoesEncoding(SanitizedMap(op, sum), Sanitized(op), sum);
  }

  /** Two operations that differ only in gas limits, pre-verification gas and the content of signatures of one length. */
  ghost predicate SameForPricing(a: UserOp, b: UserOp) {
    |a.signature| == |b.signature| &&
    a == b.(callGasLimit := a.callGasLimit, verificationGasLimit := a.verificationGasLimit,
            preVerificationGas := a.preVerificationGas, signature := a.signature)
  }

  /** The calculation always succeeds on a valid operation and ignores the fields that an estimate is about to fill in. It
      is a fixed 43874, 25 for each word of the packed form, 4 for each of its zero bytes and 16 for each other. */
  lemma PreVerificationGasStable(a: UserOp, b: UserOp, sum: Checksum)
    requires a.Valid() && SameForPricing(a, b)
    ensures CalcPreVerificationGas(a, sum).Ok? && CalcPreVerificationGas(a, sum) == CalcPreVerificationGas(b, sum)
    ensures var ones := seq(|a.signature|, (i: nat) => 1);
      var priced := Pack(a.(preVerificationGas := 100000, verificationGasLimit := 1000000, callGasLimit := 1000000,
                            signature := ones));
      var zeros, words := multiset(priced)[0], PackedWords(a);
      CalcPreVerificationGas(a, sum).value == 43874 + 25 * words + 4 * zeros + 16 * (32 * words - zeros)
  {
    hide Pack, New, SanitizedMap, DataCost, TailWords;
    SanitizedMapDecodes(a, sum);
    SanitizedMapDecodes(b, sum);
    assert Sanitized(a) == Sanitized(b);
    var tmp := Sanitized(a);
    PackedLength(tmp);
    DataCostCounts(Pack(tmp));
    assert Ones(|a.signature|) == seq(|a.signature|, (i: nat) => 1);
    assert PackedWords(tmp) == PackedWords(a);
  }

  lemma PreVerificationGasPositive(a: UserOp, b: UserOp, sum: Checksum)
    requires a.Valid() && SameForPricing(a, b)
    ensures CalcPreVerificationGas(a, sum).Ok? && CalcPreVerificationGas(a, sum) == CalcPreVerificationGas(b, sum)
    ensures CalcPreVerificationGas(a, sum).value > 0
  {
    hide CalcPreVerificationGas, Pack, TailWords;
    PreVerificationGasStable(a, b, sum);
    var priced := Pack(a.(preVerificationGas := 100000, verificationGasLimit := 1000000, callGasLimit := 1000000,
                          signature := seq(|a.signature|, (i: nat) => 1)));
    PackedLength(a.(preVerificationGas := 100000, verificationGasLimit := 1000000, callGasLimit := 1000000,
                    signature := seq(|a.signature|, (i: nat) => 1)));
    DataCostCounts(priced);
  }

  // ---------------------------------------------------------------------------------------------
  // Estimate, then admit
  // ---------------------------------------------------------------------------------------------

  function AddBuffer(amount: int, factor: int): int {
    amount * (1000 + factor * 10) / 1000
  }

  datatype GasCheck = Passed | AboveMaximum | BelowExpected

  /** The admission check on verification gas, for an operation that is not an intent. */
  function ValidateVerificationGas(op: UserOp, maxVerificationGas: int, sum: Checksum): Result<GasCheck, DecodeError> {
    if op.verificationGasLimit > maxVerificationGas then Ok(AboveMaximum) else
    var pvg :- CalcPreVerificationGas(op, sum);
    if op.preVerificationGas < pvg then Ok(BelowExpected) else Ok(Passed)
  }

  /** The factor is a percentage to add, and the result is rounded down. */
  lemma BufferIsPercent(amount: int, factor: int)
    ensures 100 * AddBuffer(amount, factor) <= amount * (100 + factor) < 100 * AddBuffer(amount, factor) + 100
  {
    assert amount * (1000 + factor * 10) == 10 * (amount * (100 + factor));
  }

  lemma BufferCovers(amount: nat, factor: int)
    requires amount > 0
    ensures AddBuffer(amount, factor) >= amount <==> factor >= 0
  {
    if factor >= 0 {
      assert amount * (1000 + factor * 10) == amount * 1000 + 10 * (amount * factor);
    } else {
      assert amount * (1000 + factor * 10) == amount * 1000 + 10 * (amount * factor);
      assert amount * factor + amount <= 0;
    }
  }

  /** Writing the buffered estimate into an operation makes it pass the check if and only if the buffer is not
      negative, whatever else the estimate and the signer fill in. */
  lemma EstimateIsAdmitted(op: UserOp, signed: UserOp, factor: int, maxVerificationGas: int, sum: Checksum)
    requires op.Valid() && SameForPricing(op, signed) && signed.verificationGasLimit <= maxVerificationGas
    requires signed.preVerificationGas == AddBuffer(CalcPreVerificationGas(op, sum).GetOr(0), factor)
    ensures ValidateVerificationGas(signed, maxVerificationGas, sum) == Ok(if factor >= 0 then Passed else BelowExpected)
  {
    hide CalcPreVerificationGas, AddBuffer;
    PreVerificationGasPositive(op, signed, sum);
    BufferCovers(CalcPreVerificationGas(op, sum).value, factor);
  }
}
