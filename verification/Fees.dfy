/** The fees of a bundle transaction: the base fee projected over the blocks it may land in, and fee caps taken from the
    batch. */
module Fees {
  import opened UserOps

  // ---------------------------------------------------------------------------------------------
  // Base fee
  // ---------------------------------------------------------------------------------------------

  /** The gas a block used, and its target. A block can use at most twice its target. */
  datatype Block = Block(used: nat, target: nat) {
    predicate Valid() {
      0 < target && used <= 2 * target
    }
  }

  /** A fee times a fraction, rounded down. */
  function Share(fee: nat, part: nat, whole: nat): nat
    requires 0 < whole
  {
    NotNegative(fee * part, whole);
    fee * part / whole
  }

  lemma NotNegative(a: nat, d: nat)
    requires 0 < d
    ensures a / d >= 0
  {
    assert a == d * (a / d) + a % d;
    if a / d < 0 {
      MulGrows(a / d, -1, d);
      assert false;
    }
  }

  /** The base fee of the block after one with the given base fee (EIP-1559, section "Specification"). */
  function NextBaseFee(baseFee: nat, b: Block): nat
    requires b.Valid()
  {
    if b.used == b.target then baseFee
    else if b.used > b.target then
      var delta := Share(baseFee, b.used - b.target, b.target) / 8;
      baseFee + if delta < 1 then 1 else delta
    else
      var delta := Share(baseFee, b.target - b.used, b.target) / 8;
      Smaller(baseFee, b.target - b.used, b.target);
      baseFee - delta
  }

  /** The rule of EIP-1559: an eighth of the base fee times the share by which the block missed its target, rounded down
      twice, up by at least one above the target and down below it. */
  lemma BaseFeeRule(fee: nat, b: Block)
    requires b.Valid()
    ensures var over, under := b.used - b.target, b.target - b.used;
      NextBaseFee(fee, b) ==
      if over == 0 then fee
      else if over > 0 then fee + (if fee * over / b.target / 8 == 0 then 1 else fee * over / b.target / 8)
      else fee - fee * under / b.target / 8
  {
    hide Share;
    if b.used > b.target {
      ShareIs(fee, b.used - b.target, b.target);
      EighthIsZero(Share(fee, b.used - b.target, b.target));
    } else if b.used < b.target {
      ShareIs(fee, b.target - b.used, b.target);
    }
  }

  lemma ShareIs(fee: nat, part: nat, whole: nat)
    requires 0 < whole
    ensures Share(fee, part, whole) == fee * part / whole
  {
  }

  lemma EighthIsZero(x: nat)
    ensures x / 8 < 1 <==> x / 8 == 0
  {
  }

  lemma MulGrows(a: int, b: int, d: nat)
    requires a <= b
    ensures d * a <= d * b
  {
  }

  lemma DivGrows(a: nat, b: nat, d: nat)
    requires a <= b && 0 < d
    ensures a / d <= b / d
  {
    var p, q := a / d, b / d;
    assert a == d * p + a % d && b == d * q + b % d;
    assert d * (q + 1) == d * q + d;
    if p > q {
      MulGrows(q + 1, p, d);
      assert false;
    }
  }

  lemma Cancels(a: nat, d: nat)
    requires d > 0
    ensures a * d / d == a
  {
    var q := a * d / d;
    assert a * d == d * q + a * d % d;
    assert d * (q + 1) == d * q + d && d * a == a * d;
    if a > q {
      MulGrows(q + 1, a, d);
      assert false;
    } else if a < q {
      assert d * (a + 1) == d * a + d;
      MulGrows(a + 1, q, d);
      assert false;
    }
  }

  /** A share of a fee is no larger than the fee. */
  lemma Smaller(fee: nat, part: nat, whole: nat)
    requires 0 < whole && part <= whole
    ensures Share(fee, part, whole) <= fee
  {
    MulGrows(part, whole, fee);
    DivGrows(fee * part, fee * whole, whole);
    Cancels(fee, whole);
  }

  /** The base fee after the given blocks. */
  function BaseFeeAfter(baseFee: nat, blocks: seq<Block>): nat
    requires forall b :: b in blocks ==> b.Valid()
  {
    if blocks == [] then baseFee
    else NextBaseFee(BaseFeeAfter(baseFee, blocks[..|blocks| - 1]), blocks[|blocks| - 1])
  }

  function ProjectOnce(fee: nat): nat {
    fee * 1125 / 1000 + 1
  }

  function Project(fee: nat, n: nat): nat {
    if n == 0 then fee else ProjectOnce(Project(fee, n - 1))
  }

  method ProjectBaseFee(baseFee: nat, blocksInTheFuture: nat) returns (mbf: nat)
    ensures mbf == Project(baseFee, blocksInTheFuture)
  {
    mbf := baseFee;
    for i := 0 to blocksInTheFuture
      invariant mbf == Project(baseFee, i)
    {
      var a := mbf * 1125;
      var b := a / 1000;
      mbf := b + 1;
    }
  }

  lemma OneEighthUp(fee: nat)
    ensures ProjectOnce(fee) == fee + fee / 8 + 1
  {
  }

  lemma EighthGrows(a: nat, b: nat)
    requires a <= b
    ensures a / 8 <= b / 8
  {
  }

  lemma OneBlockProjected(fee: nat, b: Block)
    requires b.Valid()
    ensures NextBaseFee(fee, b) <= ProjectOnce(fee)
  {
    OneEighthUp(fee);
    hide ProjectOnce, Share;
    if b.used > b.target {
      Smaller(fee, b.used - b.target, b.target);
      EighthGrows(Share(fee, b.used - b.target, b.target), fee);
    }
  }

  lemma {:induction false} ProjectGrows(fee: nat, i: nat, n: nat)
    requires i <= n
    ensures Project(fee, i) <= Project(fee, n)
  {
    if i < n {
      ProjectGrows(fee, i, n - 1);
    }
  }

  lemma {:induction false} BaseFeeProjected(fee: nat, blocks: seq<Block>)
    requires forall b :: b in blocks ==> b.Valid()
    ensures BaseFeeAfter(fee, blocks) <= Project(fee, |blocks|)
  {
    hide NextBaseFee;
    if blocks != [] {
      var n := |blocks| - 1;
      BaseFeeProjected(fee, blocks[..n]);
      OneBlockProjected(BaseFeeAfter(fee, blocks[..n]), blocks[n]);
    }
  }

  /** A full block at a base fee divisible by 8 raises it by exactly an eighth, one less than a projection step. */
  lemma ProjectionIsClose(k: nat, target: nat)
    requires k > 0 && target > 0
    ensures ProjectOnce(8 * k) == NextBaseFee(8 * k, Block(2 * target, target)) + 1
  {
    OneEighthUp(8 * k);
    hide ProjectOnce;
    FullBlock(8 * k, target);
  }

  lemma FullBlock(fee: nat, target: nat)
    requires target > 0
    ensures NextBaseFee(fee, Block(2 * target, target)) == fee + if fee / 8 < 1 then 1 else fee / 8
  {
    Cancels(fee, target);
    assert 2 * target - target == target;
  }

  // ---------------------------------------------------------------------------------------------
  // Fee caps
  // ---------------------------------------------------------------------------------------------

  function TipTotal(batch: seq<UserOp>): nat {
    if batch == [] then 0 else TipTotal(batch[..|batch| - 1]) + batch[|batch| - 1].maxPriorityFeePerGas
  }

  function FeeTotal(batch: seq<UserOp>): nat {
    if batch == [] then 0 else FeeTotal(batch[..|batch| - 1]) + batch[|batch| - 1].maxFeePerGas
  }

  function Larger(a: nat, b: nat): nat {
    if a > b then a else b
  }

  function TipCap(tip: nat, batch: seq<UserOp>): nat
    requires batch != []
  {
    Larger(TipTotal(batch) / |batch|, tip)
  }

  function FeeCap(baseFee: nat, tip: nat, batch: seq<UserOp>): nat
    requires batch != []
  {
    Larger(FeeTotal(batch) / |batch|, tip + 2 * baseFee)
  }

  method SuggestMeanGasTipCap(tip: nat, batch: seq<UserOp>) returns (cap: nat)
    requires batch != []
    ensures cap == TipCap(tip, batch)
  {
    var total := 0;
    for i := 0 to |batch|
      invariant total == TipTotal(batch[..i])
    {
      assert batch[..i + 1][..i] == batch[..i];
      total := total + batch[i].maxPriorityFeePerGas;
    }
    assert batch[..|batch|] == batch;
    var avg := total / |batch|;
    if avg > tip {
      return avg;
    }
    return tip;
  }

  method SuggestMeanGasFeeCap(baseFee: nat, tip: nat, batch: seq<UserOp>) returns (cap: nat)
    requires batch != []
    ensures cap == FeeCap(baseFee, tip, batch)
  {
    var mf := tip + baseFee * 2;
    var total := 0;
    for i := 0 to |batch|
      invariant total == FeeTotal(batch[..i])
    {
      assert batch[..i + 1][..i] == batch[..i];
      total := total + batch[i].maxFeePerGas;
    }
    assert batch[..|batch|] == batch;
    var avg := total / |batch|;
    if avg > mf {
      return avg;
    }
    return mf;
  }

  /** A mean lies between the least and the greatest. */
  lemma {:induction false} TipsBetween(batch: seq<UserOp>, lo: nat, hi: nat)
    requires forall op :: op in batch ==> lo <= op.maxPriorityFeePerGas <= hi
    ensures lo * |batch| <= TipTotal(batch) <= hi * |batch|
  {
    if batch != [] {
      var n := |batch| - 1;
      TipsBetween(batch[..n], lo, hi);
      assert lo * (n + 1) == lo * n + lo && hi * (n + 1) == hi * n + hi;
    }
  }

  lemma {:induction false} FeesBetween(batch: seq<UserOp>, lo: nat, hi: nat)
    requires forall op :: op in batch ==> lo <= op.maxFeePerGas <= hi
    ensures lo * |batch| <= FeeTotal(batch) <= hi * |batch|
  {
    if batch != [] {
      var n := |batch| - 1;
      FeesBetween(batch[..n], lo, hi);
      assert lo * (n + 1) == lo * n + lo && hi * (n + 1) == hi * n + hi;
    }
  }

  /** The two caps are at least what the node suggests, and otherwise means of what the batch offers. */
  lemma CapsAre(baseFee: nat, tip: nat, batch: seq<UserOp>)
    requires batch != []
    ensures var mean := TipTotal(batch) / |batch|;
      TipCap(tip, batch) >= tip && TipCap(tip, batch) >= mean && TipCap(tip, batch) in {tip, mean}
    ensures var mean, least := FeeTotal(batch) / |batch|, baseFee + baseFee + tip;
      && FeeCap(baseFee, tip, batch) >= least && FeeCap(baseFee, tip, batch) >= mean
      && FeeCap(baseFee, tip, batch) in {least, mean}
  {
  }

  /** The fee cap pays the base fee and the suggested tip in every target block, whatever the blocks before it used:
      `blocks` starts with the current head, and a bundle is offered for each of the next `n` blocks. */
  lemma FeeCapCovers(head: nat, blocks: seq<Block>, n: nat, tip: nat, batch: seq<UserOp>)
    requires batch != [] && |blocks| <= n && forall b :: b in blocks ==> b.Valid()
    ensures FeeCap(Project(head, n), tip, batch) >= BaseFeeAfter(head, blocks) + tip
  {
    hide BaseFeeAfter, Project, FeeTotal;
    BaseFeeProjected(head, blocks);
    ProjectGrows(head, |blocks|, n);
  }

  // The tip that the transaction carries is the tip cap, which can be above the suggested tip.

  function Raised(fee: nat): nat {
    fee + if fee / 8 < 1 then 1 else fee / 8
  }

  /** The base fee when each of the next `n` blocks is full. */
  function Fullest(fee: nat, n: nat): nat {
    if n == 0 then fee else Raised(Fullest(fee, n - 1))
  }

  lemma OneBlockRaised(fee: nat, more: nat, b: Block)
    requires b.Valid() && fee <= more
    ensures NextBaseFee(fee, b) <= Raised(more)
  {
    hide Share;
    EighthGrows(fee, more);
    if b.used > b.target {
      Smaller(fee, b.used - b.target, b.target);
      EighthGrows(Share(fee, b.used - b.target, b.target), fee);
    }
  }

  lemma {:induction false} BaseFeeAtMostFullest(fee: nat, blocks: seq<Block>, n: nat)
    requires |blocks| <= n && forall b :: b in blocks ==> b.Valid()
    ensures BaseFeeAfter(fee, blocks) <= Fullest(fee, n)
  {
    hide NextBaseFee;
    if blocks != [] {
      BaseFeeAtMostFullest(fee, blocks[..|blocks| - 1], n - 1);
      OneBlockRaised(BaseFeeAfter(fee, blocks[..|blocks| - 1]), Fullest(fee, n - 1), blocks[|blocks| - 1]);
    } else if n > 0 {
      BaseFeeAtMostFullest(fee, blocks, n - 1);
    }
  }

  function FullBlocks(n: nat): (r: seq<Block>)
    ensures |r| == n && forall b :: b in r ==> b.Valid()
  {
    seq(n, _ => Block(2, 1))
  }

  lemma {:induction false} FullestIsReached(fee: nat, n: nat)
    ensures BaseFeeAfter(fee, FullBlocks(n)) == Fullest(fee, n)
  {
    hide NextBaseFee;
    if n > 0 {
      FullestIsReached(fee, n - 1);
      assert FullBlocks(n)[..n - 1] == FullBlocks(n - 1);
      FullBlock(Fullest(fee, n - 1), 1);
    }
  }

  /** The cap pays the base fee and `tip` in each of the next `n` blocks, whatever the blocks before it used. */
  ghost predicate Pays(cap: nat, head: nat, n: nat, tip: nat) {
    forall blocks: seq<Block> :: |blocks| <= n && (forall b :: b in blocks ==> b.Valid()) ==>
      cap >= BaseFeeAfter(head, blocks) + tip
  }

  /** A cap pays a tip in each target block if and only if it pays it when every block before is full. */
  lemma PaysIff(cap: nat, head: nat, n: nat, tip: nat)
    ensures Pays(cap, head, n, tip) <==> cap >= Fullest(head, n) + tip
  {
    hide BaseFeeAfter, Fullest;
    FullestIsReached(head, n);
    if cap >= Fullest(head, n) + tip {
      forall blocks: seq<Block> | |blocks| <= n && (forall b :: b in blocks ==> b.Valid())
        ensures cap >= BaseFeeAfter(head, blocks) + tip
      {
        BaseFeeAtMostFullest(head, blocks, n);
      }
    }
  }

  /** The fee cap of a batch pays its tip cap in each target block if and only if one of the two amounts it is the larger
      of does so when every block before is full. */
  lemma FeeCapPaysTipCapIff(head: nat, n: nat, tip: nat, batch: seq<UserOp>)
    requires batch != []
    ensures Pays(FeeCap(Project(head, n), tip, batch), head, n, TipCap(tip, batch)) <==>
            || FeeTotal(batch) / |batch| >= Fullest(head, n) + TipCap(tip, batch)
            || tip + 2 * Project(head, n) >= Fullest(head, n) + TipCap(tip, batch)
  {
    hide Fullest, Project, FeeTotal, TipCap, Pays;
    PaysIff(FeeCap(Project(head, n), tip, batch), head, n, TipCap(tip, batch));
  }

  lemma {:induction false} FeesAboveTips(batch: seq<UserOp>, fee: nat)
    requires forall op :: op in batch ==> op.maxFeePerGas >= op.maxPriorityFeePerGas + fee
    ensures FeeTotal(batch) >= TipTotal(batch) + |batch| * fee
  {
    if batch != [] {
      var n := |batch| - 1;
      FeesAboveTips(batch[..n], fee);
      assert (n + 1) * fee == n * fee + fee;
    }
  }

  lemma MeanAbove(a: nat, b: nat, d: nat, fee: nat)
    requires d > 0 && a >= b + d * fee
    ensures a / d >= b / d + fee
  {
    var p, q := a / d, b / d;
    assert a == d * p + a % d && b == d * q + b % d;
    assert d * (p + 1) == d * p + d && d * (q + fee) == d * q + d * fee;
    if p < q + fee {
      MulGrows(p + 1, q + fee, d);
      assert false;
    }
  }

  /** So it does if the suggested tip is at least the mean priority fee, or if every operation's maximum fee covers the
      projected base fee and its own priority fee. */
  lemma FeeCapPaysTipCap(head: nat, n: nat, tip: nat, batch: seq<UserOp>)
    requires batch != []
    requires tip >= TipTotal(batch) / |batch|
          || forall op :: op in batch ==> op.maxFeePerGas >= op.maxPriorityFeePerGas + Project(head, n)
    ensures Pays(FeeCap(Project(head, n), tip, batch), head, n, TipCap(tip, batch))
  {
    hide Fullest, Project, FeeTotal, TipTotal, Pays, BaseFeeAfter;
    FullestIsReached(head, n);
    BaseFeeProjected(head, FullBlocks(n));
    PaysIff(FeeCap(Project(head, n), tip, batch), head, n, TipCap(tip, batch));
    if tip < TipTotal(batch) / |batch| {
      FeesAboveTips(batch, Project(head, n));
      MeanAbove(FeeTotal(batch), TipTotal(batch), |batch|, Project(head, n));
    }
  }

  lemma {:induction false} EqualTotals(batch: seq<UserOp>)
    requires forall op :: op in batch ==> op.maxFeePerGas == op.maxPriorityFeePerGas
    ensures FeeTotal(batch) == TipTotal(batch)
  {
    if batch != [] {
      EqualTotals(batch[..|batch| - 1]);
    }
  }

  /** Operations whose two fees are equal and high give a fee cap equal to the tip cap, which pays no base fee. */
  lemma EqualFeesPayNoBaseFee(head: nat, n: nat, tip: nat, batch: seq<UserOp>)
    requires batch != [] && head > 0 && (forall op :: op in batch ==> op.maxFeePerGas == op.maxPriorityFeePerGas)
    requires FeeTotal(batch) / |batch| > tip + 2 * Project(head, n)
    ensures FeeCap(Project(head, n), tip, batch) == TipCap(tip, batch)
    ensures !Pays(FeeCap(Project(head, n), tip, batch), head, n, TipCap(tip, batch))
  {
    hide Project, FeeTotal, TipTotal, Pays;
    EqualTotals(batch);
    PaysIff(FeeCap(Project(head, n), tip, batch), head, n, TipCap(tip, batch));
    hide Fullest;
    FullestPositive(head, n);
  }

  lemma {:induction false} FullestPositive(fee: nat, n: nat)
    requires fee > 0
    ensures Fullest(fee, n) > 0
  {
    if n > 0 {
      FullestPositive(fee, n - 1);
    }
  }

  lemma {:induction false} TipsBelowFees(batch: seq<UserOp>)
    requires forall op :: op in batch ==> op.maxPriorityFeePerGas <= op.maxFeePerGas
    ensures TipTotal(batch) <= FeeTotal(batch)
  {
    if batch != [] {
      TipsBelowFees(batch[..|batch| - 1]);
    }
  }

  /** A batch whose operations all offer at least their own tip gives a transaction that does too. */
  lemma TipCapBelowFeeCap(baseFee: nat, tip: nat, batch: seq<UserOp>)
    requires batch != [] && forall op :: op in batch ==> op.maxPriorityFeePerGas <= op.maxFeePerGas
    ensures TipCap(tip, batch) <= FeeCap(baseFee, tip, batch)
  {
    TipsBelowFees(batch);
    DivGrows(TipTotal(batch), FeeTotal(batch), |batch|);
  }
}
