/** One bundler run over the mempool, for every sequence of things the batch handlers may do to the context. */
module Bundler {
  import opened Wrappers
  import opened Text
  import opened UserOps
  import opened Mempool
  import opened Batch

  // ---------------------------------------------------------------------------------------------
  // What handlers do
  // ---------------------------------------------------------------------------------------------

  /** `Sweep` is a downward removal loop, `Filter` keeps operations out of the batch but not out of the pool, `Truncate`
      keeps a prefix, `Reorder` sorts, `Mark` drops one operation by index, `Rewrite` fills in a solved intent, and
      `Fail` is a handler returning an error. An effect that does not fit the context does nothing. */
  datatype Effect =
    | Sweep(flags: seq<bool>)
    | Filter(flags: seq<bool>)
    | Truncate(n: nat)
    | Reorder(batch: seq<UserOp>)
    | Mark(index: int)
    | Rewrite(at: nat, op: UserOp)
    | Fail

  /** Solving an intent fills in call data, signature, gas limits and fees, and keeps the other fields. */
  predicate Solves(solved: UserOp, op: UserOp) {
    && solved.sender == op.sender && solved.nonce == op.nonce
    && solved.initCode == op.initCode && solved.paymasterAndData == op.paymasterAndData
  }

  function Apply(c: Ctx, e: Effect): Option<Ctx> {
    match e
    case Sweep(flags) => Some(if |flags| == |c.batch| then Swept(c, flags) else c)
    case Filter(flags) => Some(if |flags| == |c.batch| then c.(batch := Kept(c.batch, flags)) else c)
    case Truncate(n) => Some(if n <= |c.batch| then c.(batch := c.batch[..n]) else c)
    case Reorder(batch) => Some(if multiset(batch) == multiset(c.batch) then c.(batch := batch) else c)
    case Mark(index) => Some(Marked(c, index))
    case Rewrite(i, op) =>
      Some(if i < |c.batch| && Solves(op, c.batch[i]) then c.(batch := c.batch[i := op]) else c)
    case Fail => None
  }

  function ApplyAll(c: Ctx, es: seq<Effect>): Option<Ctx>
    decreases |es|
  {
    if es == [] then Some(c) else
    var d :- Apply(c, es[0]);
    ApplyAll(d, es[1..])
  }

  // ---------------------------------------------------------------------------------------------
  // Conservation of keys
  // ---------------------------------------------------------------------------------------------

  /** How many operations carry a key. */
  function Count(ops: seq<UserOp>, k: string, ep: Address, sum: Checksum): nat {
    if ops == [] then 0
    else (if KeyOf(ep, ops[0], sum) == k then 1 else 0) + Count(ops[1..], k, ep, sum)
  }

  function CtxCount(c: Ctx, k: string, ep: Address, sum: Checksum): nat {
    Count(c.batch, k, ep, sum) + Count(c.pendingRemoval, k, ep, sum)
  }

  lemma {:induction false} CountAdds(a: seq<UserOp>, b: seq<UserOp>, k: string, ep: Address, sum: Checksum)
    ensures Count(a + b, k, ep, sum) == Count(a, k, ep, sum) + Count(b, k, ep, sum)
  {
    hide KeyOf;
    if a == [] {
      assert a + b == b;
    } else {
      CountAdds(a[1..], b, k, ep, sum);
      assert (a + b)[1..] == a[1..] + b;
    }
  }

  function IsKey(op: UserOp, k: string, ep: Address, sum: Checksum): nat {
    if KeyOf(ep, op, sum) == k then 1 else 0
  }

  lemma CountOne(op: UserOp, k: string, ep: Address, sum: Checksum)
    ensures Count([op], k, ep, sum) == IsKey(op, k, ep, sum)
    ensures Count([], k, ep, sum) == 0
  {
    hide KeyOf;
    assert [op][1..] == [];
  }

  lemma CountSplit(ops: seq<UserOp>, i: nat, k: string, ep: Address, sum: Checksum)
    requires i < |ops|
    ensures Count(ops, k, ep, sum) ==
            Count(ops[..i], k, ep, sum) + IsKey(ops[i], k, ep, sum) + Count(ops[i + 1..], k, ep, sum)
  {
    hide IsKey, Count;
    assert ops == ops[..i] + ([ops[i]] + ops[i + 1..]);
    CountAdds(ops[..i], [ops[i]] + ops[i + 1..], k, ep, sum);
    CountAdds([ops[i]], ops[i + 1..], k, ep, sum);
    CountOne(ops[i], k, ep, sum);
  }

  lemma {:induction false} CountOfSweep(ops: seq<UserOp>, flags: seq<bool>, k: string, ep: Address, sum: Checksum)
    requires |ops| == |flags|
    ensures Count(Kept(ops, flags), k, ep, sum) + Count(Moved(ops, flags), k, ep, sum) == Count(ops, k, ep, sum)
  {
    hide KeyOf;
    if ops != [] {
      CountOfSweep(ops[1..], flags[1..], k, ep, sum);
      CountOne(ops[0], k, ep, sum);
      CountAdds(if flags[0] then [] else [ops[0]], Kept(ops[1..], flags[1..]), k, ep, sum);
      CountAdds(Moved(ops[1..], flags[1..]), if flags[0] then [ops[0]] else [], k, ep, sum);
    }
  }

  lemma {:induction false} CountIgnoresOrder(a: seq<UserOp>, b: seq<UserOp>, k: string, ep: Address, sum: Checksum)
    requires multiset(a) == multiset(b)
    ensures Count(a, k, ep, sum) == Count(b, k, ep, sum)
    decreases |a|
  {
    hide Count, IsKey;
    if a == [] {
      assert |multiset(a)| == |multiset(b)|;
      assert b == [];
    } else {
      var j := Elsewhere(a, b);
      var rest := b[..j] + b[j + 1..];
      CountIgnoresOrder(a[1..], rest, k, ep, sum);
      CountSplit(a, 0, k, ep, sum);
      assert a[..0] == [];
      CountOne(a[0], k, ep, sum);
      CountSplit(b, j, k, ep, sum);
      CountAdds(b[..j], b[j + 1..], k, ep, sum);
    }
  }

  /** Where the first of some operations stands in a reordering, and what is left without it. */
  lemma Elsewhere(a: seq<UserOp>, b: seq<UserOp>) returns (j: nat)
    requires a != [] && multiset(a) == multiset(b)
    ensures j < |b| && b[j] == a[0] && multiset(a[1..]) == multiset(b[..j] + b[j + 1..])
  {
    assert a[0] in multiset(b);
    j :| 0 <= j < |b| && b[j] == a[0];
    assert a == [a[0]] + a[1..];
    assert b == b[..j] + [b[j]] + b[j + 1..];
    assert multiset(a[1..]) == multiset(a) - multiset{a[0]};
    assert multiset(b[..j] + b[j + 1..]) == multiset(b) - multiset{a[0]};
  }

  lemma MarkConserves(c: Ctx, index: int, k: string, ep: Address, sum: Checksum)
    ensures CtxCount(Marked(c, index), k, ep, sum) == CtxCount(c, k, ep, sum)
  {
    hide Count, IsKey;
    if 0 <= index < |c.batch| {
      CountSplit(c.batch, index, k, ep, sum);
      CountAdds(c.batch[..index], c.batch[index + 1..], k, ep, sum);
      CountAdds(c.pendingRemoval, [c.batch[index]], k, ep, sum);
      CountOne(c.batch[index], k, ep, sum);
    }
  }

  lemma RewriteConserves(ops: seq<UserOp>, i: nat, op: UserOp, k: string, ep: Address, sum: Checksum)
    requires i < |ops| && Solves(op, ops[i])
    ensures Count(ops[i := op], k, ep, sum) == Count(ops, k, ep, sum)
  {
    hide Count, UniqueKey;
    CountSplit(ops, i, k, ep, sum);
    CountSplit(ops[i := op], i, k, ep, sum);
    assert ops[i := op][..i] == ops[..i] && ops[i := op][i + 1..] == ops[i + 1..];
  }

  /** The operations that an effect takes out of the batch without dropping them from the pool. */
  function LeftOut(c: Ctx, e: Effect): seq<UserOp> {
    match e
    case Filter(flags) => if |flags| == |c.batch| then Moved(c.batch, flags) else []
    case Truncate(n) => if n <= |c.batch| then c.batch[n..] else []
    case _ => []
  }

  function AllLeftOut(c: Ctx, es: seq<Effect>): seq<UserOp>
    decreases |es|
  {
    if es == [] || Apply(c, es[0]).None? then []
    else LeftOut(c, es[0]) + AllLeftOut(Apply(c, es[0]).value, es[1..])
  }

  /** What each effect does with a key: only a filter or a truncation takes it out of the context, and nothing creates
      or duplicates it or takes it from the pending removals. */
  lemma ApplyConserves(c: Ctx, e: Effect, k: string, ep: Address, sum: Checksum)
    requires Apply(c, e).Some?
    ensures var d := Apply(c, e).value;
      && CtxCount(c, k, ep, sum) == CtxCount(d, k, ep, sum) + Count(LeftOut(c, e), k, ep, sum)
      && c.pendingRemoval <= d.pendingRemoval
  {
    CountEmpty(k, ep, sum);
    hide Count, Kept, Moved;
    match e
    case Sweep(flags) =>
      if |flags| == |c.batch| {
        CountOfSweep(c.batch, flags, k, ep, sum);
        CountAdds(c.pendingRemoval, Moved(c.batch, flags), k, ep, sum);
      }
    case Filter(flags) =>
      if |flags| == |c.batch| {
        CountOfSweep(c.batch, flags, k, ep, sum);
      }
    case Truncate(n) =>
      if n <= |c.batch| {
        assert c.batch == c.batch[..n] + c.batch[n..];
        CountAdds(c.batch[..n], c.batch[n..], k, ep, sum);
      }
    case Reorder(batch) =>
      if multiset(batch) == multiset(c.batch) {
        CountIgnoresOrder(batch, c.batch, k, ep, sum);
      }
    case Mark(index) => MarkConserves(c, index, k, ep, sum);
    case Rewrite(i, op) =>
      if i < |c.batch| && Solves(op, c.batch[i]) {
        RewriteConserves(c.batch, i, op, k, ep, sum);
      }
    case Fail =>
  }

  /** Over a whole sequence of effects every key is accounted for: as often as it was in the context it still is, or a
      filter or truncation left it out. */
  lemma {:induction false} ApplyAllConserves(c: Ctx, es: seq<Effect>, k: string, ep: Address, sum: Checksum)
    requires ApplyAll(c, es).Some?
    ensures var d := ApplyAll(c, es).value;
      && CtxCount(c, k, ep, sum) == CtxCount(d, k, ep, sum) + Count(AllLeftOut(c, es), k, ep, sum)
      && c.pendingRemoval <= d.pendingRemoval
    decreases |es|
  {
    CountEmpty(k, ep, sum);
    hide Apply, CtxCount, Count, LeftOut;
    if es != [] {
      var d := Apply(c, es[0]).value;
      ApplyConserves(c, es[0], k, ep, sum);
      ApplyAllConserves(d, es[1..], k, ep, sum);
      CountAdds(LeftOut(c, es[0]), AllLeftOut(d, es[1..]), k, ep, sum);
    }
  }

  // ---------------------------------------------------------------------------------------------
  // The handlers are such effects
  // ---------------------------------------------------------------------------------------------

  lemma {:induction false} ApplyAllThen(c: Ctx, a: seq<Effect>, d: Ctx, b: seq<Effect>)
    requires ApplyAll(c, a) == Some(d)
    ensures ApplyAll(c, a + b) == ApplyAll(d, b)
    decreases |a|
  {
    hide Apply;
    if a == [] {
      assert a + b == b;
    } else {
      assert (a + b)[0] == a[0] && (a + b)[1..] == a[1..] + b;
      ApplyAllThen(Apply(c, a[0]).value, a[1..], d, b);
    }
  }

  lemma ApplyAllMore(c: Ctx, es: seq<Effect>, d: Ctx, e: Effect)
    requires ApplyAll(c, es) == Some(d)
    ensures ApplyAll(c, es + [e]) == Apply(d, e)
  {
    hide Apply;
    ApplyAllThen(c, es, d, [e]);
    assert [e][1..] == [];
    assert Apply(d, e).Some? ==> ApplyAll(Apply(d, e).value, []) == Apply(d, e);
  }

  function Marks(indices: seq<nat>): seq<Effect> {
    seq(|indices|, i requires 0 <= i < |indices| => Mark(indices[i]))
  }

  lemma {:induction false} MarksApply(c: Ctx, indices: seq<nat>)
    ensures ApplyAll(c, Marks(indices)) == Some(MarkAll(c, indices))
    decreases |indices|
  {
    hide Marked;
    if indices != [] {
      MarksApply(Marked(c, indices[0]), indices[1..]);
      assert Marks(indices)[1..] == Marks(indices[1..]);
    }
  }

  /** What the node and the sort routines answer during one run of the modules. */
  datatype Answers = Answers(
    hash: UserOp -> Hash,
    clock: nat -> int,
    byGasPrice: seq<UserOp> -> seq<UserOp>,
    byNonce: seq<UserOp> -> seq<UserOp>,
    intent: UserOp -> bool,
    baseFee: Option<nat>,
    tip: Option<nat>,
    gasPrice: Option<nat>,
    changed: UserOp -> Option<bool>,
    deposit: Address -> Option<int>)

  /** Sorting only reorders. */
  ghost predicate Sorts(sort: seq<UserOp> -> seq<UserOp>) {
    forall s :: multiset(sort(s)) == multiset(s)
  }

  /** The modules that the bundler runs before it solves intents and relays the batch. What they do to the context is a
      sequence of effects. */
  method RunModules(ctx: Context, expire: ExpireHandler, limit: int, sum: Checksum, a: Answers)
    returns (ok: bool, ghost es: seq<Effect>)
    requires Sorts(a.byGasPrice) && Sorts(a.byNonce)
    modifies ctx, expire
    ensures ok ==> ApplyAll(old(ctx.Abs()), es) == Some(ctx.Abs())
    ensures ok ==> forall e :: e in es ==> !e.Fail? && !e.Rewrite?
  {
    hide ExpiredFlags, UnderpricedFlags, ChangedFlags, OverdrawnFlags, Indices, MarkAll, ApplyAll, SeenFrom, Kept, Moved,
         FitsExactly;
    ghost var c := ctx.Abs();
    ghost var d := c;
    es := [];
    ApplyNone(c);
    expire.DropExpired(ctx, a.hash, a.clock);
    ghost var e := Sweep(ExpiredFlags(d.batch, a.hash, old(expire.seenAt), expire.ttl, a.clock));
    ApplyAllMore(c, es, d, e);
    es, d := es + [e], ctx.Abs();

    ctx.batch := a.byGasPrice(ctx.batch);
    ApplyAllMore(c, es, d, Reorder(ctx.batch));
    es, d := es + [Reorder(ctx.batch)], ctx.Abs();

    FilterUnderpriced(ctx, a.intent, a.baseFee, a.tip, a.gasPrice);
    e := Filter(UnderpricedFlags(d.batch, a.intent, a.baseFee, a.tip, a.gasPrice));
    ApplyAllMore(c, es, d, e);
    es, d := es + [e], ctx.Abs();

    ctx.batch := a.byNonce(ctx.batch);
    ApplyAllMore(c, es, d, Reorder(ctx.batch));
    es, d := es + [Reorder(ctx.batch)], ctx.Abs();

    ok := MaintainGasLimit(ctx, limit, sum);
    if !ok {
      return;
    }
    assert d.batch[..|ctx.batch|] == ctx.batch;
    ApplyAllMore(c, es, d, Truncate(|ctx.batch|));
    es, d := es + [Truncate(|ctx.batch|)], ctx.Abs();

    ok := CodeHashes(ctx, a.intent, a.changed);
    if !ok {
      return;
    }
    e := Sweep(ChangedFlags(d.batch, a.intent, a.changed));
    ApplyAllMore(c, es, d, e);
    es, d := es + [e], ctx.Abs();

    ok := PaymasterDeposit(ctx, a.intent, a.deposit);
    ghost var marks := Marks(Indices(OverdrawnFlags(d.batch, a.intent, a.deposit)));
    MarksApply(d, Indices(OverdrawnFlags(d.batch, a.intent, a.deposit)));
    ApplyAllThen(c, es, d, marks);
    es := es + marks;
  }

  lemma ApplyNone(c: Ctx)
    ensures ApplyAll(c, []) == Some(c)
  {
  }

  // ---------------------------------------------------------------------------------------------
  // Rewrites reach the pool
  // ---------------------------------------------------------------------------------------------

  predicate Rewriting(c: Ctx, e: Effect) {
    e.Rewrite? && e.at < |c.batch| && Solves(e.op, c.batch[e.at])
  }

  /** What the effects write last into the operation under each key, up to the first that fails. The batch holds the
      pooled objects themselves, so this is what they do to the pool. */
  function Rewrites(c: Ctx, es: seq<Effect>, ep: Address, sum: Checksum): map<string, UserOp>
    decreases |es|
  {
    if es == [] || Apply(c, es[0]).None? then map[] else
    var later := Rewrites(Apply(c, es[0]).value, es[1..], ep, sum);
    if Rewriting(c, es[0]) then map[KeyOf(ep, es[0].op, sum) := es[0].op] + later else later
  }

  /** The pooled operations after the given ones were written into them. */
  function Merged(live: Contents, w: map<string, UserOp>): Contents {
    map k | k in live :: if k in w then w[k] else live[k]
  }

  lemma MergedStep(live: Contents, k: string, op: UserOp, later: map<string, UserOp>)
    ensures Merged(Over(live, k, op), later) == Merged(live, map[k := op] + later)
  {
  }

  lemma MergedNone(live: Contents)
    ensures Merged(live, map[]) == live
  {
  }

  /** No effect brings a key into the batch. */
  lemma BatchShrinks(c: Ctx, e: Effect, k: string, ep: Address, sum: Checksum)
    requires Apply(c, e).Some? && k in KeysOf(ep, Apply(c, e).value.batch, sum)
    ensures k in KeysOf(ep, c.batch, sum)
  {
    hide Count, KeysOf, Apply, LeftOut;
    var d := Apply(c, e).value;
    ApplyConserves(c, e, k, ep, sum);
    var added := d.pendingRemoval[|c.pendingRemoval|..];
    assert d.pendingRemoval == c.pendingRemoval + added;
    CountAdds(c.pendingRemoval, added, k, ep, sum);
    CountMeansMember(d.batch, k, ep, sum);
    CountMeansMember(c.batch, k, ep, sum);
  }

  /** Only operations of the batch are rewritten. */
  lemma {:induction false} RewritesInBatch(c: Ctx, es: seq<Effect>, ep: Address, sum: Checksum)
    ensures Rewrites(c, es, ep, sum).Keys <= KeysOf(ep, c.batch, sum)
    decreases |es|
  {
    hide Apply, KeyOf, KeysOf;
    if es != [] && Apply(c, es[0]).Some? {
      var d := Apply(c, es[0]).value;
      RewritesInBatch(d, es[1..], ep, sum);
      forall k | k in Rewrites(d, es[1..], ep, sum)
        ensures k in KeysOf(ep, c.batch, sum)
      {
        BatchShrinks(c, es[0], k, ep, sum);
      }
      if Rewriting(c, es[0]) {
        RewrittenIsInBatch(c, es[0], ep, sum);
      }
    }
  }

  lemma RewrittenIsInBatch(c: Ctx, e: Effect, ep: Address, sum: Checksum)
    requires Rewriting(c, e)
    ensures KeyOf(ep, e.op, sum) in KeysOf(ep, c.batch, sum)
  {
    hide UniqueKey;
    assert KeyOf(ep, e.op, sum) == KeyOf(ep, c.batch[e.at], sum);
  }

  /** The handlers, one effect after another, each written through to the pool. */
  method RunEffects(mem: Instance, ep: Address, c: Ctx, es: seq<Effect>) returns (r: Option<Ctx>)
    requires mem.Valid()
    modifies mem
    ensures mem.Valid() && mem.db == old(mem.db) && mem.history == old(mem.history)
    ensures r == ApplyAll(c, es)
    ensures mem.held == Held(old(mem.held.disk), Merged(old(mem.held.live), Rewrites(c, es, ep, mem.sum)))
  {
    hide Apply, KeyOf, Merged, Shows, Recorded;
    var d, i := c, 0;
    ghost var all := Rewrites(c, es, ep, mem.sum);
    assert es[0..] == es;
    while i < |es|
      invariant i <= |es| && mem.Valid() && mem.db == old(mem.db) && mem.history == old(mem.history)
      invariant ApplyAll(c, es) == ApplyAll(d, es[i..])
      invariant mem.held.disk == old(mem.held.disk)
      invariant Merged(mem.held.live, Rewrites(d, es[i..], ep, mem.sum)) == Merged(old(mem.held.live), all)
    {
      var e := es[i];
      assert es[i..][0] == e && es[i..][1..] == es[i + 1..];
      var next := Apply(d, e);
      if next.None? {
        MergedNone(mem.held.live);
        return None;
      }
      if Rewriting(d, e) {
        MergedStep(mem.held.live, KeyOf(ep, e.op, mem.sum), e.op, Rewrites(next.value, es[i + 1..], ep, mem.sum));
        mem.Overwrite(ep, e.op);
      }
      d, i := next.value, i + 1;
    }
    MergedNone(mem.held.live);
    return Some(d);
  }

  /** A failed run leaves the pooled operations as they were if and only if the last thing written into each of them is
      what it already was. */
  lemma FailureKeepsIff(live: Contents, c: Ctx, es: seq<Effect>, ep: Address, sum: Checksum)
    requires forall k :: k in KeysOf(ep, c.batch, sum) ==> k in live
    ensures var w := Rewrites(c, es, ep, sum);
      Merged(live, w) == live <==> forall k :: k in w ==> k in live && w[k] == live[k]
  {
    hide KeysOf, Rewrites;
    var w := Rewrites(c, es, ep, sum);
    RewritesInBatch(c, es, ep, sum);
    if Merged(live, w) == live {
      forall k | k in w
        ensures k in live && w[k] == live[k]
      {
        assert Merged(live, w)[k] == w[k];
      }
    }
  }

  /** If records and pooled operations agreed before a failed run, then the record of each pooled operation still reads
      back as it if and only if the run wrote nothing new into it. */
  lemma FailureReadsBackIff(p: Pool, q: Pool, c: Contents, w: map<string, UserOp>, k: string, sum: Checksum)
    requires Shows(p, Held(c, c), sum) && Shows(q, Held(c, Merged(c, w)), sum) && k in c
    ensures ReadsBack(p, k)
    ensures ReadsBack(q, k) <==> k !in w || w[k] == c[k]
  {
    hide Shows, ReadsBack;
    ReadsBackIff(p, Held(c, c), k, sum);
    ReadsBackIff(q, Held(c, Merged(c, w)), k, sum);
  }

  /** A solver answer followed by a handler error: the pooled operation is the solved one, its record the old one, and the
      next restart brings the old one back. */
  lemma FailedRunDiverges(ep: Address, op: UserOp, solved: UserOp, order: seq<string>, sum: Checksum)
    requires Solves(solved, op) && solved != op
    ensures var k := KeyOf(ep, op, sum);
      var c := Held(map[k := op], map[k := op]);
      var es := [Rewrite(0, solved), Fail];
      var failed := Held(c.disk, Merged(c.live, Rewrites(Ctx([op], []), es, ep, sum)));
      && ApplyAll(Ctx([op], []), es) == None
      && failed == Held(map[k := op], map[k := solved])
      && StepHeld(failed, Restart(order), sum) == c
  {
    var c, es := Ctx([op], []), [Rewrite(0, solved), Fail];
    assert KeyOf(ep, solved, sum) == KeyOf(ep, op, sum);
    hide KeyOf;
    var d := Ctx([op][0 := solved], []);
    assert Apply(c, es[0]) == Some(d) && Apply(d, es[1..][0]) == None;
    assert Rewrites(d, es[1..], ep, sum) == map[];
    assert ApplyAll(d, es[1..]) == None;
    var k := KeyOf(ep, op, sum);
    assert Rewrites(c, es, ep, sum) == map[k := solved];
  }

  // ---------------------------------------------------------------------------------------------
  // The run
  // ---------------------------------------------------------------------------------------------

  /** A batch holds at most `max` of the dumped operations, the first ones, unless that is zero or less. */
  method AdjustBatchSize(max: int, batch: seq<UserOp>) returns (r: seq<UserOp>)
    ensures r <= batch
    ensures max <= 0 ==> r == batch
    ensures max > 0 ==> |r| == if max < |batch| then max else |batch|
  {
    if |batch| > max && max > 0 {
      return batch[..max];
    }
    return batch;
  }

  /** The operations of a batch that are not intents still waiting for a solution. */
  function Ready(batch: seq<UserOp>, unsolved: UserOp -> bool): seq<UserOp> {
    if batch == [] then []
    else Ready(batch[..|batch| - 1], unsolved) +
         (if unsolved(batch[|batch| - 1]) then [] else [batch[|batch| - 1]])
  }

  /** The intents of a batch that are still waiting for a solution. */
  function Waiting(batch: seq<UserOp>, unsolved: UserOp -> bool): seq<UserOp> {
    if batch == [] then []
    else Waiting(batch[..|batch| - 1], unsolved) +
         (if unsolved(batch[|batch| - 1]) then [batch[|batch| - 1]] else [])
  }

  lemma {:induction false} ReadyCount(batch: seq<UserOp>, unsolved: UserOp -> bool, k: string, ep: Address, sum: Checksum)
    ensures Count(batch, k, ep, sum) ==
            Count(Ready(batch, unsolved), k, ep, sum) + Count(Waiting(batch, unsolved), k, ep, sum)
  {
    CountEmpty(k, ep, sum);
    hide Count;
    if batch != [] {
      var n := |batch| - 1;
      ReadyCount(batch[..n], unsolved, k, ep, sum);
      assert batch == batch[..n] + [batch[n]];
      CountAdds(batch[..n], [batch[n]], k, ep, sum);
      CountAdds(Ready(batch[..n], unsolved), if unsolved(batch[n]) then [] else [batch[n]], k, ep, sum);
      CountAdds(Waiting(batch[..n], unsolved), if unsolved(batch[n]) then [batch[n]] else [], k, ep, sum);
    }
  }

  lemma {:induction false} CountMeansMember(ops: seq<UserOp>, k: string, ep: Address, sum: Checksum)
    ensures Count(ops, k, ep, sum) > 0 <==> k in KeysOf(ep, ops, sum)
  {
    if ops != [] {
      CountMeansMember(ops[1..], k, ep, sum);
      KeysOfTail(ep, ops, sum);
    }
  }

  lemma {:induction false} DistinctCount(ops: seq<UserOp>, ks: seq<string>, k: string, ep: Address, sum: Checksum)
    requires |ops| == |ks| && (forall i :: 0 <= i < |ks| ==> KeyOf(ep, ops[i], sum) == ks[i])
    requires forall i, j :: 0 <= i < j < |ks| ==> ks[i] != ks[j]
    ensures Count(ops, k, ep, sum) == if k in ks then 1 else 0
  {
    hide KeyOf;
    if ops != [] {
      DistinctCount(ops[1..], ks[1..], k, ep, sum);
      assert ks == [ks[0]] + ks[1..];
    }
  }

  /** The operations that a finished run removes from the pool. */
  function Removed(d: Ctx, unsolved: UserOp -> bool): seq<UserOp> {
    Ready(d.batch, unsolved) + d.pendingRemoval
  }

  lemma KeysOfConcat(ep: Address, a: seq<UserOp>, b: seq<UserOp>, sum: Checksum)
    ensures KeysOf(ep, a + b, sum) == KeysOf(ep, a, sum) + KeysOf(ep, b, sum)
  {
    hide Count, KeysOf;
    forall k
      ensures k in KeysOf(ep, a + b, sum) <==> k in KeysOf(ep, a, sum) + KeysOf(ep, b, sum)
    {
      CountAdds(a, b, k, ep, sum);
      CountMeansMember(a, k, ep, sum);
      CountMeansMember(b, k, ep, sum);
      CountMeansMember(a + b, k, ep, sum);
    }
  }

  /** Where a finished run can leave an operation. `finalBatch` is the last batch without the intents still unsolved;
      whether the relayer sent it is another matter. */
  datatype Places = Places(
    finalBatch: seq<UserOp>,
    dropped: seq<UserOp>,
    beyondCap: seq<UserOp>,
    leftOut: seq<UserOp>,
    unsolved: seq<UserOp>)

  function One(b: bool): nat {
    if b then 1 else 0
  }

  /** A key is in exactly one of the places, and pooled afterwards exactly when that is one of the last three. */
  ghost predicate Placed(k: string, p: Places, after: Contents, ep: Address, sum: Checksum) {
    && One(k in KeysOf(ep, p.finalBatch, sum)) + One(k in KeysOf(ep, p.dropped, sum))
       + One(k in KeysOf(ep, p.beyondCap, sum)) + One(k in KeysOf(ep, p.leftOut, sum))
       + One(k in KeysOf(ep, p.unsolved, sum)) == 1
    && (k in after <==>
          k in KeysOf(ep, p.beyondCap, sum) || k in KeysOf(ep, p.leftOut, sum) || k in KeysOf(ep, p.unsolved, sum))
  }

  /** Each dumped key is in the final batch, dropped, beyond the batch cap, left out by a filter or truncation, or an
      unsolved intent of the last batch; in the last three cases, and no others, it is still pooled. */
  ghost predicate Classified(ks: seq<string>, p: Places, after: Contents, ep: Address, sum: Checksum) {
    forall k :: k in ks ==> Placed(k, p, after, ep, sum)
  }

  /** The operation of each key is the pooled one, so keys in a dump are distinct. */
  ghost predicate Dumped(ops: seq<UserOp>, ks: seq<string>, c: Contents, ep: Address, sum: Checksum) {
    && Lists(ops, ks, c)
    && (forall i :: 0 <= i < |ks| ==> KeyOf(ep, ops[i], sum) == ks[i])
    && (forall i, j :: 0 <= i < j < |ks| ==> ks[i] != ks[j])
  }

  lemma CountAtCap(ops: seq<UserOp>, n: nat, k: string, ep: Address, sum: Checksum)
    requires n <= |ops|
    ensures Count(ops, k, ep, sum) == Count(ops[..n], k, ep, sum) + Count(ops[n..], k, ep, sum)
  {
    hide Count;
    assert ops == ops[..n] + ops[n..];
    CountAdds(ops[..n], ops[n..], k, ep, sum);
  }

  lemma MemberCount(ops: seq<UserOp>, k: string, ep: Address, sum: Checksum)
    requires Count(ops, k, ep, sum) <= 1
    ensures One(k in KeysOf(ep, ops, sum)) == Count(ops, k, ep, sum)
  {
    hide Count, KeysOf;
    CountMeansMember(ops, k, ep, sum);
  }

  /** One key that was dumped once ends up in one place. */
  lemma KeyPlaced(ops: seq<UserOp>, c: Contents, n: nat, es: seq<Effect>, unsolved: UserOp -> bool, k: string,
                  ep: Address, sum: Checksum)
    requires n <= |ops| && k in c && Count(ops, k, ep, sum) == 1 && ApplyAll(Ctx(ops[..n], []), es).Some?
    ensures var d := ApplyAll(Ctx(ops[..n], []), es).value;
      Placed(k, Places(Ready(d.batch, unsolved), d.pendingRemoval, ops[n..], AllLeftOut(Ctx(ops[..n], []), es),
                       Waiting(d.batch, unsolved)),
             c - KeysOf(ep, Removed(d, unsolved), sum), ep, sum)
  {
    CountAtCap(ops, n, k, ep, sum);
    CountEmpty(k, ep, sum);
    hide Count, KeysOf, ApplyAll, AllLeftOut, Ready, Waiting, One;
    var start := Ctx(ops[..n], []);
    var d := ApplyAll(start, es).value;
    var p := Places(Ready(d.batch, unsolved), d.pendingRemoval, ops[n..], AllLeftOut(start, es), Waiting(d.batch, unsolved));
    ApplyAllConserves(start, es, k, ep, sum);
    ReadyCount(d.batch, unsolved, k, ep, sum);
    MemberCount(p.finalBatch, k, ep, sum);
    MemberCount(p.dropped, k, ep, sum);
    MemberCount(p.beyondCap, k, ep, sum);
    MemberCount(p.leftOut, k, ep, sum);
    MemberCount(p.unsolved, k, ep, sum);
    KeysOfConcat(ep, p.finalBatch, p.dropped, sum);
    PlacedOnce(k, p, c, ep, sum);
    hide Placed;
  }

  lemma PlacedOnce(k: string, p: Places, c: Contents, ep: Address, sum: Checksum)
    requires k in c
    requires One(k in KeysOf(ep, p.finalBatch, sum)) + One(k in KeysOf(ep, p.dropped, sum))
             + One(k in KeysOf(ep, p.beyondCap, sum)) + One(k in KeysOf(ep, p.leftOut, sum))
             + One(k in KeysOf(ep, p.unsolved, sum)) == 1
    ensures Placed(k, p, c - (KeysOf(ep, p.finalBatch, sum) + KeysOf(ep, p.dropped, sum)), ep, sum)
  {
    hide KeysOf;
  }

  lemma RunClassifies(ops: seq<UserOp>, ks: seq<string>, c: Contents, n: nat, es: seq<Effect>, unsolved: UserOp -> bool,
                      ep: Address, sum: Checksum)
    requires n <= |ops| && Dumped(ops, ks, c, ep, sum) && ApplyAll(Ctx(ops[..n], []), es).Some?
    ensures var d := ApplyAll(Ctx(ops[..n], []), es).value;
      Classified(ks, Places(Ready(d.batch, unsolved), d.pendingRemoval, ops[n..], AllLeftOut(Ctx(ops[..n], []), es),
                            Waiting(d.batch, unsolved)),
                 c - KeysOf(ep, Removed(d, unsolved), sum), ep, sum)
  {
    hide Count, KeysOf, ApplyAll, KeyOf, Placed, Removed;
    forall k | k in ks
      ensures k in c && Count(ops, k, ep, sum) == 1
    {
      DistinctCount(ops, ks, k, ep, sum);
    }
    hide Dumped, Ready, Waiting, AllLeftOut;
    var d := ApplyAll(Ctx(ops[..n], []), es).value;
    var p := Places(Ready(d.batch, unsolved), d.pendingRemoval, ops[n..], AllLeftOut(Ctx(ops[..n], []), es),
                    Waiting(d.batch, unsolved));
    forall k | k in ks
      ensures Placed(k, p, c - KeysOf(ep, Removed(d, unsolved), sum), ep, sum)
    {
      KeyPlaced(ops, c, n, es, unsolved, k, ep, sum);
    }
  }

  function Size(c: Ctx): nat {
    |c.batch| + |c.pendingRemoval|
  }

  lemma ApplyAddsNone(c: Ctx, e: Effect)
    requires Apply(c, e).Some?
    ensures Size(Apply(c, e).value) <= Size(c)
  {
    hide Kept, Moved;
    match e
    case Sweep(flags) => if |flags| == |c.batch| { SweptSize(c.batch, flags); }
    case Filter(flags) => if |flags| == |c.batch| { SweptSize(c.batch, flags); }
    case Reorder(batch) =>
      if multiset(batch) == multiset(c.batch) {
        assert |batch| == |multiset(batch)| == |multiset(c.batch)| == |c.batch|;
      }
    case _ =>
  }

  lemma SweptSize(ops: seq<UserOp>, flags: seq<bool>)
    requires |ops| == |flags|
    ensures |Kept(ops, flags)| + |Moved(ops, flags)| == |ops|
  {
    hide Kept, Moved;
    SweptConserves(ops, flags);
    assert |multiset(ops)| == |multiset(Kept(ops, flags))| + |multiset(Moved(ops, flags))|;
  }

  /** A run handles no more operations than its first batch held. */
  lemma {:induction false} ApplyAllAddsNone(c: Ctx, es: seq<Effect>)
    requires ApplyAll(c, es).Some?
    ensures Size(ApplyAll(c, es).value) <= Size(c)
    decreases |es|
  {
    hide Apply, Size;
    if es != [] {
      ApplyAddsNone(c, es[0]);
      ApplyAllAddsNone(Apply(c, es[0]).value, es[1..]);
    }
  }

  lemma CountEmpty(k: string, ep: Address, sum: Checksum)
    ensures Count([], k, ep, sum) == 0
  {
  }

  method CollectReady(batch: seq<UserOp>, unsolved: UserOp -> bool) returns (r: seq<UserOp>)
    ensures r == Ready(batch, unsolved)
  {
    r := [];
    for i := 0 to |batch|
      invariant r == Ready(batch[..i], unsolved)
    {
      assert batch[..i + 1][..i] == batch[..i];
      if unsolved(batch[i]) {
        continue;
      }
      r := r + [batch[i]];
    }
    assert batch[..|batch|] == batch;
  }

  lemma DumpedFromLists(ops: seq<UserOp>, ks: seq<string>, c: Contents, ep: Address, sum: Checksum)
    requires Keyed(c, sum) && Lists(ops, ks, c) && (forall k :: k in ks ==> EntryPointOfKey(k) == Some(ep))
    requires forall i, j :: 0 <= i < j < |ks| ==> ks[i] != ks[j]
    ensures Dumped(ops, ks, c, ep, sum)
  {
    hide EntryPointOfKey, UniqueKey;
  }

  /** One run. `fees` says whether the node answered the fee requests, `stored` whether the database accepted the
      removal; `es` is what the handlers do to the first `n` of the dumped operations, and `w` what they write into pooled
      operations. An error leaves the keys and
      the records of the pool as they were, and the pooled operations as the rewrites before it left them. */
  method Process(mem: Instance, ep: Address, maxBatch: int, es: seq<Effect>, unsolved: UserOp -> bool, fees: bool,
                 stored: bool)
    returns (r: Result<Option<Ctx>, ()>, ghost ops: seq<UserOp>, ghost ks: seq<string>, ghost n: nat,
             ghost w: map<string, UserOp>)
    requires mem.Valid()
    modifies mem
    ensures mem.Valid()
    ensures Lists(ops, ks, old(mem.held.live))
    ensures forall k :: k in ks <==> k in old(mem.held.live) && EntryPointOfKey(k) == Some(ep)
    ensures r == Ok(None) <==> ks == []
    ensures maxBatch <= 0 ==> n == |ops|
    ensures maxBatch > 0 ==> n == if maxBatch < |ops| then maxBatch else |ops|
    ensures w == if ks == [] || !fees then map[] else Rewrites(Ctx(ops[..n], []), es, ep, mem.sum)
    ensures !r.Ok? || r.value.None? ==>
      mem.db == old(mem.db) && mem.held == Held(old(mem.held.disk), Merged(old(mem.held.live), w))
    ensures !r.Ok? ==>
      (mem.held == old(mem.held) <==> forall k :: k in w ==> k in old(mem.held.live) && w[k] == old(mem.held.live)[k])
    ensures r.Ok? && r.value.Some? ==>
      var d := r.value.value; var gone := KeysOf(ep, Removed(d, unsolved), mem.sum);
      && mem.held == Held(old(mem.held.disk) - gone, Merged(old(mem.held.live), w) - gone)
      && ApplyAll(Ctx(ops[..n], []), es) == Some(d)
      && |d.batch| + |d.pendingRemoval| <= n
      && Classified(ks, Places(Ready(d.batch, unsolved), d.pendingRemoval, ops[n..], AllLeftOut(Ctx(ops[..n], []), es),
                               Waiting(d.batch, unsolved)),
                    mem.held.live, ep, mem.sum)
  {
    hide EntryPointOfKey, KeyOf, KeysOf, ApplyAll, Shows, Lists, Dumped, Classified, Ranked, Rewrites, Recorded,
         Merged, Ready, Waiting, AllLeftOut;
    var dump;
    dump, ks := mem.Dump(ep);
    ops := dump;
    w := map[];
    MergedNone(mem.held.live);
    ShowsKeyed(Pool(mem.db, mem.queues), mem.held, mem.sum);
    ListsSameLength(ops, ks, mem.held.live);
    DumpedFromLists(ops, ks, mem.held.live, ep, mem.sum);
    var batch := AdjustBatchSize(maxBatch, dump);
    n := |batch|;
    assert batch == ops[..n];
    if |dump| == 0 {
      return Ok(None), ops, ks, n, w;
    }
    if !fees {
      return Err(()), ops, ks, n, w;
    }
    ghost var live := mem.held.live;
    w := Rewrites(Ctx(batch, []), es, ep, mem.sum);
    BatchIsPooled(ops, ks, live, n, ep, mem.sum);
    FailureKeepsIff(live, Ctx(batch, []), es, ep, mem.sum);
    var ctx := RunEffects(mem, ep, Ctx(batch, []), es);
    if ctx.None? {
      return Err(()), ops, ks, n, w;
    }
    var d := ctx.value;
    ApplyAllAddsNone(Ctx(batch, []), es);
    RunClassifies(ops, ks, live, n, es, unsolved, ep, mem.sum);
    var rmOps := CollectReady(d.batch, unsolved);
    rmOps := rmOps + d.pendingRemoval;
    var ok := mem.RemoveOps(ep, rmOps, stored);
    if !ok {
      return Err(()), ops, ks, n, w;
    }
    PlacedByKeys(ks, Places(Ready(d.batch, unsolved), d.pendingRemoval, ops[n..], AllLeftOut(Ctx(batch, []), es),
                            Waiting(d.batch, unsolved)),
                 live, w, KeysOf(ep, rmOps, mem.sum), ep, mem.sum);
    return Ok(Some(d)), ops, ks, n, w;
  }

  lemma BatchIsPooled(ops: seq<UserOp>, ks: seq<string>, c: Contents, n: nat, ep: Address, sum: Checksum)
    requires n <= |ops| && Dumped(ops, ks, c, ep, sum)
    ensures forall k :: k in KeysOf(ep, ops[..n], sum) ==> k in c
  {
    hide KeyOf;
    forall k | k in KeysOf(ep, ops[..n], sum)
      ensures k in c
    {
      var i :| 0 <= i < n && k == KeyOf(ep, ops[..n][i], sum);
      assert ks[i] == k;
    }
  }

  /** Where keys end up does not depend on what was written into the operations. */
  lemma PlacedByKeys(ks: seq<string>, p: Places, live: Contents, w: map<string, UserOp>, gone: set<string>, ep: Address,
                     sum: Checksum)
    requires Classified(ks, p, live - gone, ep, sum)
    ensures Classified(ks, p, Merged(live, w) - gone, ep, sum)
  {
    hide KeysOf;
    forall k | k in ks
      ensures Placed(k, p, Merged(live, w) - gone, ep, sum)
    {
      assert Placed(k, p, live - gone, ep, sum);
    }
  }

  lemma ShowsKeyed(p: Pool, c: Held, sum: Checksum)
    requires Shows(p, c, sum)
    ensures Keyed(c.live, sum)
  {
  }

  lemma ListsSameLength(ops: seq<UserOp>, ks: seq<string>, c: Contents)
    requires Lists(ops, ks, c)
    ensures |ops| == |ks|
  {
  }
}
