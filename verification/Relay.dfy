/** Relaying the last batch of a run: which of its operations are sent to the EntryPoint, and which are removed from the
    pool without having been sent. */
module Relay {
  import opened Wrappers
  import opened UserOps
  import opened Batch
  import opened Bundler

  /** What an operation's own validation says it is. */
  datatype Status = Plain | Unsolved | Solved

  /** How operations are told apart: whether the call data holds an intent, and the status, or `None` when validation
      fails. */
  datatype Intents = Intents(has: UserOp -> bool, status: UserOp -> Option<Status>) {
    predicate IsUnsolved(op: UserOp) {
      status(op) == Some(Unsolved)
    }

    predicate IsSolved(op: UserOp) {
      status(op) == Some(Solved)
    }

    predicate IsConventional(op: UserOp) {
      !IsSolved(op) && !has(op)
    }

    /** An intent that is neither solved nor unsolved, because its validation fails or contradicts its call data. */
    predicate IsStray(op: UserOp) {
      has(op) && !IsSolved(op) && !IsUnsolved(op)
    }
  }

  /** The operations that satisfy a predicate, in order. */
  function Where(batch: seq<UserOp>, p: UserOp -> bool): (r: seq<UserOp>)
    ensures forall op :: op in r <==> op in batch && p(op)
  {
    if batch == [] then []
    else
      assert batch == batch[..|batch| - 1] + [batch[|batch| - 1]];
      Where(batch[..|batch| - 1], p) + if p(batch[|batch| - 1]) then [batch[|batch| - 1]] else []
  }

  /** Whether the relayer succeeds, what it sent, and the context it leaves. */
  datatype Outcome = Outcome(ok: bool, sent: seq<UserOp>, ctx: Ctx)

  function ConventionalOps(batch: seq<UserOp>, i: Intents): seq<UserOp> {
    Where(batch, op => i.IsConventional(op))
  }

  function SolvedOps(batch: seq<UserOp>, i: Intents): seq<UserOp> {
    Where(batch, op => i.IsSolved(op))
  }

  /** `reverts` are the indices of operations whose gas estimate reverted, `estimated` whether an estimate finally
      succeeded, and `delivered` whether the transaction was handed over without an error. */
  function Relayed(c: Ctx, i: Intents, reverts: seq<nat>, estimated: bool, delivered: bool): Outcome {
    var plain, solved := ConventionalOps(c.batch, i), SolvedOps(c.batch, i);
    if plain != [] then
      Outcome(estimated && delivered, if estimated && delivered then plain else [], MarkAll(c, reverts))
    else
      Outcome(true, if delivered then solved else [], c)
  }

  /** The relayer sends the conventional operations of a batch and, only if there are none, its solved intents. An error
      in sending intents is not reported. */
  method SendUserOperation(ctx: Context, i: Intents, reverts: seq<nat>, estimated: bool, delivered: bool)
    returns (ok: bool, sent: seq<UserOp>)
    modifies ctx
    ensures Outcome(ok, sent, ctx.Abs()) == Relayed(old(ctx.Abs()), i, reverts, estimated, delivered)
  {
    hide MarkAll, Marked;
    var plain, solved := [], [];
    ghost var c := ctx.Abs();
    for n := 0 to |ctx.batch|
      invariant ctx.Abs() == c
      invariant plain == ConventionalOps(ctx.batch[..n], i) && solved == SolvedOps(ctx.batch[..n], i)
    {
      var op := ctx.batch[n];
      assert ctx.batch[..n + 1][..n] == ctx.batch[..n];
      if i.IsSolved(op) {
        solved := solved + [op];
      } else if !i.has(op) {
        plain := plain + [op];
      }
    }
    assert c.batch[..|c.batch|] == c.batch;
    if |plain| > 0 {
      NoMarks(c);
      assert reverts[..0] == [];
      for n := 0 to |reverts|
        invariant ctx.Abs() == MarkAll(c, reverts[..n])
      {
        MarkAllMore(c, reverts[..n], reverts[n]);
        assert reverts[..n + 1] == reverts[..n] + [reverts[n]];
        ctx.MarkOpIndexForRemoval(reverts[n]);
      }
      assert reverts[..|reverts|] == reverts;
      if !estimated || !delivered {
        return false, [];
      }
      return true, plain;
    }
    if |solved| > 0 && delivered {
      return true, solved;
    }
    return true, [];
  }

  lemma NoMarks(c: Ctx)
    ensures MarkAll(c, []) == c
  {
  }

  /** The relayer fails exactly when there are conventional operations and estimating or sending them failed. Otherwise it
      sent, if anything, the conventional operations if there are any, or the solved intents if those were delivered. */
  lemma RelayMeans(c: Ctx, i: Intents, reverts: seq<nat>, estimated: bool, delivered: bool, op: UserOp)
    ensures var o := Relayed(c, i, reverts, estimated, delivered);
      var mixed := exists x :: x in c.batch && !i.has(x) && i.status(x) != Some(Solved);
      && (o.ok <==> !mixed || (estimated && delivered))
      && (op in o.sent <==>
            o.ok && delivered && op in c.batch &&
            if mixed then !i.has(op) && i.status(op) != Some(Solved) else i.status(op) == Some(Solved))
  {
    hide Where, MarkAll;
    var plain := ConventionalOps(c.batch, i);
    if plain != [] {
      assert plain[0] in plain;
    }
    assert forall x :: x in plain <==> x in c.batch && i.IsConventional(x);
  }

  /** What the relayer does to the context is a sequence of marks. */
  lemma RelayIsMarks(c: Ctx, i: Intents, reverts: seq<nat>, estimated: bool, delivered: bool)
    ensures var o := Relayed(c, i, reverts, estimated, delivered);
      ApplyAll(c, Marks(if ConventionalOps(c.batch, i) == [] then [] else reverts)) == Some(o.ctx)
  {
    hide MarkAll, ApplyAll, ConventionalOps;
    MarksApply(c, reverts);
    MarksApply(c, []);
    NoMarks(c);
  }

  // ---------------------------------------------------------------------------------------------
  // Removed and sent
  // ---------------------------------------------------------------------------------------------

  /** Marks only move operations from the batch to the pending removals. */
  lemma {:induction false} MarksKeepOps(c: Ctx, indices: seq<nat>, op: UserOp)
    ensures var d := MarkAll(c, indices);
      && (op in d.batch ==> op in c.batch)
      && (op in c.batch || op in c.pendingRemoval ==> op in d.batch || op in d.pendingRemoval)
    decreases |indices|
  {
    if indices != [] {
      var d := Marked(c, indices[0]);
      if indices[0] < |c.batch| {
        assert c.batch == c.batch[..indices[0]] + [c.batch[indices[0]]] + c.batch[indices[0] + 1..];
      }
      hide Marked;
      MarksKeepOps(d, indices[1..], op);
    }
  }

  function UnsolvedTest(i: Intents): UserOp -> bool {
    op => i.IsUnsolved(op)
  }

  lemma {:induction false} ReadyMeans(batch: seq<UserOp>, unsolved: UserOp -> bool, op: UserOp)
    ensures op in Ready(batch, unsolved) <==> op in batch && !unsolved(op)
  {
    if batch != [] {
      ReadyMeans(batch[..|batch| - 1], unsolved, op);
      assert batch == batch[..|batch| - 1] + [batch[|batch| - 1]];
    }
  }

  /** Every operation of the final batch, which the bundler removes from the pool, was sent. */
  ghost predicate AllSent(o: Outcome, i: Intents) {
    forall op :: op in Ready(o.ctx.batch, UnsolvedTest(i)) ==> op in o.sent
  }

  /** The batch that is left mixes no solved intents with conventional operations, and holds none that were not delivered
      and no stray intent. */
  ghost predicate Unmixed(c: Ctx, o: Outcome, i: Intents, delivered: bool) {
    && (forall op :: op in o.ctx.batch ==> !i.IsStray(op))
    && (ConventionalOps(c.batch, i) != [] || !delivered ==> forall op :: op in o.ctx.batch ==> !i.IsSolved(op))
  }

  /** What the bundler removes with the final batch was all sent if and only if the batch left did not mix conventional
      operations with solved intents, its solved intents were delivered, and it held no stray intent. */
  lemma RemovedWereSentIff(c: Ctx, i: Intents, reverts: seq<nat>, estimated: bool, delivered: bool)
    requires Relayed(c, i, reverts, estimated, delivered).ok
    ensures var o := Relayed(c, i, reverts, estimated, delivered);
      AllSent(o, i) <==> Unmixed(c, o, i, delivered)
  {
    hide Ready, Where, MarkAll;
    var o := Relayed(c, i, reverts, estimated, delivered);
    forall op: UserOp
      ensures op in Ready(o.ctx.batch, UnsolvedTest(i)) <==> op in o.ctx.batch && !i.IsUnsolved(op)
      ensures op in o.ctx.batch ==> op in c.batch
    {
      ReadyMeans(o.ctx.batch, UnsolvedTest(i), op);
      MarksKeepOps(c, reverts, op);
    }
    if ConventionalOps(c.batch, i) == [] {
      assert forall op :: op in c.batch ==> op !in ConventionalOps(c.batch, i);
      assert forall op :: op in c.batch ==> !i.IsConventional(op);
    }
    if !Unmixed(c, o, i, delivered) {
      if op :| op in o.ctx.batch && i.IsStray(op) {
        assert op !in o.sent && op in Ready(o.ctx.batch, UnsolvedTest(i));
      } else {
        var op :| op in o.ctx.batch && i.IsSolved(op);
        assert op !in o.sent && op in Ready(o.ctx.batch, UnsolvedTest(i));
      }
    }
  }

  /** Everything sent is removed from the pool, in the final batch or as dropped, unless its own validation calls it
      unsolved. An operation dropped for its gas estimate is sent all the same. */
  lemma SentAreRemoved(c: Ctx, i: Intents, reverts: seq<nat>, estimated: bool, delivered: bool, op: UserOp)
    requires op in Relayed(c, i, reverts, estimated, delivered).sent && !i.IsUnsolved(op)
    ensures op in Removed(Relayed(c, i, reverts, estimated, delivered).ctx, UnsolvedTest(i))
  {
    hide Ready, Where, MarkAll;
    var o := Relayed(c, i, reverts, estimated, delivered);
    MarksKeepOps(c, reverts, op);
    ReadyMeans(o.ctx.batch, UnsolvedTest(i), op);
  }

  /** One conventional operation and one solved intent: only the first is sent, and both are removed. */
  lemma MixedBatchLosesIntent(i: Intents, plain: UserOp, solved: UserOp)
    requires i.IsConventional(plain) && i.IsSolved(solved)
    ensures var o := Relayed(Ctx([plain, solved], []), i, [], true, true);
      o.ok && solved !in o.sent && solved in Removed(o.ctx, UnsolvedTest(i))
  {
    hide Ready, Where;
    var c := Ctx([plain, solved], []);
    assert plain in ConventionalOps(c.batch, i);
    assert MarkAll(c, []) == c;
    ReadyMeans(c.batch, UnsolvedTest(i), solved);
  }
}
