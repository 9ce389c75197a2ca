/** Admission of operations from one sender. `eth_sendUserOperation` reads the sender's pending operations, checks the
    new one against them and adds it, in three steps that other calls and the bundler may interleave with. */
module Admission {
  import opened Wrappers
  import opened UserOps

  const MIN_PRICE_BUMP := 10

  datatype Rejection = StakeUnknown | Underpriced | TooManyPending

  function Threshold(fee: nat): nat {
    (100 + MIN_PRICE_BUMP) * fee / 100
  }

  /** A replacement must raise a fee by a tenth, rounded down: in full exactly for multiples of 10, and not at all below
      10. */
  lemma ThresholdRaises(fee: nat)
    ensures 10 * fee <= 10 * Threshold(fee) <= 11 * fee < 10 * Threshold(fee) + 10
    ensures 10 * Threshold(fee) >= 11 * fee <==> fee % 10 == 0
    ensures Threshold(fee) > fee <==> fee >= 10
  {
  }

  // ---------------------------------------------------------------------------------------------
  // The check
  // ---------------------------------------------------------------------------------------------

  /** The pending operation that a new one with this nonce would replace. */
  function Replaced(pending: seq<UserOp>, nonce: nat): Option<UserOp> {
    if pending == [] then None
    else if pending[|pending| - 1].nonce == nonce then Some(pending[|pending| - 1])
    else Replaced(pending[..|pending| - 1], nonce)
  }

  predicate Outbids(op: UserOp, prev: UserOp) {
    op.maxFeePerGas >= Threshold(prev.maxFeePerGas) && op.maxPriorityFeePerGas >= Threshold(prev.maxPriorityFeePerGas)
  }

  /** `i` is the last place of a pending operation with this nonce. */
  predicate LastWith(pending: seq<UserOp>, nonce: nat, i: nat) {
    i < |pending| && pending[i].nonce == nonce && forall j :: i < j < |pending| ==> pending[j].nonce != nonce
  }

  /** Both fees of `op` are at least eleven tenths of those of `prev`, rounded down. */
  predicate PaysMore(op: UserOp, prev: UserOp) {
    op.maxFeePerGas >= prev.maxFeePerGas * 11 / 10 && op.maxPriorityFeePerGas >= prev.maxPriorityFeePerGas * 11 / 10
  }

  /** What the outcome of the check means: the stake is not known; the last pending operation with the nonce is not
      outbid; or an unstaked sender with something pending has reached the cap and brings a new nonce. In every other
      case the operation is let through. */
  ghost predicate Judged(op: UserOp, pending: seq<UserOp>, cap: int, staked: Option<bool>, r: Result<(), Rejection>) {
    && (r == Err(StakeUnknown) <==> staked == None)
    && (r == Err(Underpriced) <==>
          staked != None && exists i: nat :: LastWith(pending, op.nonce, i) && !PaysMore(op, pending[i]))
    && (r == Err(TooManyPending) <==>
          staked == Some(false) && |pending| > 0 && |pending| >= cap
          && forall i :: 0 <= i < |pending| ==> pending[i].nonce != op.nonce)
  }

  lemma {:induction false} ReplacedIsLast(pending: seq<UserOp>, nonce: nat)
    ensures Replaced(pending, nonce).None? <==> forall i :: 0 <= i < |pending| ==> pending[i].nonce != nonce
    ensures forall i: nat :: LastWith(pending, nonce, i) ==> Replaced(pending, nonce) == Some(pending[i])
    ensures Replaced(pending, nonce).Some? ==> exists i: nat :: LastWith(pending, nonce, i)
  {
    if pending != [] {
      var n := |pending| - 1;
      ReplacedIsLast(pending[..n], nonce);
      if pending[n].nonce == nonce {
        assert LastWith(pending, nonce, n);
      } else {
        assert forall i: nat :: LastWith(pending, nonce, i) <==> LastWith(pending[..n], nonce, i);
      }
    }
  }

  lemma CheckIsJudged(op: UserOp, pending: seq<UserOp>, cap: int, staked: Option<bool>)
    ensures Judged(op, pending, cap, staked, Check(op, pending, cap, staked))
  {
    hide Replaced, LastWith;
    ReplacedIsLast(pending, op.nonce);
    forall prev: UserOp
      ensures Outbids(op, prev) <==> PaysMore(op, prev)
    {
      ElevenTenths(prev.maxFeePerGas);
      ElevenTenths(prev.maxPriorityFeePerGas);
    }
    hide Outbids, PaysMore;
    assert pending == [] <==> |pending| == 0;
  }

  lemma ElevenTenths(fee: nat)
    ensures Threshold(fee) == fee * 11 / 10
  {
  }

  /** The announced rule: both fees rise by ten percent. */
  predicate RaisesTenth(op: UserOp, prev: UserOp) {
    10 * op.maxFeePerGas >= 11 * prev.maxFeePerGas && 10 * op.maxPriorityFeePerGas >= 11 * prev.maxPriorityFeePerGas
  }

  /** Every operation that is let through to replace `prev` raises both fees by ten percent if and only if both fees of
      `prev` are multiples of 10. */
  lemma TenPercentIff(prev: UserOp)
    ensures (forall op :: Outbids(op, prev) ==> RaisesTenth(op, prev)) <==>
            prev.maxFeePerGas % 10 == 0 && prev.maxPriorityFeePerGas % 10 == 0
  {
    var fee, tip := Threshold(prev.maxFeePerGas), Threshold(prev.maxPriorityFeePerGas);
    ThresholdRaises(prev.maxFeePerGas);
    ThresholdRaises(prev.maxPriorityFeePerGas);
    var least := prev.(maxFeePerGas := fee, maxPriorityFeePerGas := tip);
    hide Threshold;
    assert Outbids(least, prev);
    if forall op :: Outbids(op, prev) ==> RaisesTenth(op, prev) {
      assert RaisesTenth(least, prev);
    }
  }

  /** `staked` is the node's answer about the sender, or `None` when the lookup failed. */
  function Check(op: UserOp, pending: seq<UserOp>, cap: int, staked: Option<bool>): Result<(), Rejection> {
    if staked.None? then Err(StakeUnknown) else
    match Replaced(pending, op.nonce)
    case Some(prev) => if Outbids(op, prev) then Ok(()) else Err(Underpriced)
    case None => if pending != [] && !staked.value && |pending| >= cap then Err(TooManyPending) else Ok(())
  }

  method ValidatePendingOps(op: UserOp, pending: seq<UserOp>, cap: int, staked: Option<bool>)
    returns (r: Result<(), Rejection>)
    ensures r == Check(op, pending, cap, staked)
    ensures Judged(op, pending, cap, staked, r)
  {
    CheckIsJudged(op, pending, cap, staked);
    if staked.None? {
      return Err(StakeUnknown);
    }
    if |pending| > 0 {
      var oldOp := None;
      for i := 0 to |pending|
        invariant oldOp == Replaced(pending[..i], op.nonce)
      {
        assert pending[..i + 1][..i] == pending[..i];
        if op.nonce == pending[i].nonce {
          oldOp := Some(pending[i]);
        }
      }
      assert pending[..|pending|] == pending;
      if oldOp.Some? {
        var newMf := (100 + MIN_PRICE_BUMP) * oldOp.value.maxFeePerGas / 100;
        var newMpf := (100 + MIN_PRICE_BUMP) * oldOp.value.maxPriorityFeePerGas / 100;
        if op.maxFeePerGas < newMf || op.maxPriorityFeePerGas < newMpf {
          return Err(Underpriced);
        }
      } else if !staked.value && |pending| >= cap {
        return Err(TooManyPending);
      }
    }
    return Ok(());
  }

  lemma {:induction false} ReplacedIsPending(pending: seq<UserOp>, nonce: nat)
    ensures Replaced(pending, nonce).None? <==> forall op :: op in pending ==> op.nonce != nonce
    ensures Replaced(pending, nonce).Some? ==>
              Replaced(pending, nonce).value in pending && Replaced(pending, nonce).value.nonce == nonce
  {
    if pending != [] {
      ReplacedIsPending(pending[..|pending| - 1], nonce);
      assert pending == pending[..|pending| - 1] + [pending[|pending| - 1]];
    }
  }

  // ---------------------------------------------------------------------------------------------
  // Overlapping calls
  // ---------------------------------------------------------------------------------------------

  /** A call that has read the pool and not yet ended. */
  datatype Call = Call(op: UserOp, pending: seq<UserOp>)

  /** The sender's pooled operations by nonce, and the calls in flight. */
  datatype State = State(pool: map<nat, UserOp>, calls: map<nat, Call>)

  const INITIAL := State(map[], map[])

  /** `Start` reads the pool, `Commit` adds the operation of a call that passed, `Abandon` ends a call that some check
      refused, and `Drop` is the bundler removing operations. `Rewrite` is the intent solver writing into an object that
      was pooled: `pooled` says whether it still is, and `seen` which calls, having read that object and not yet checked
      it, now find the new values. */
  datatype Action =
    | Start(id: nat, op: UserOp, pending: seq<UserOp>)
    | Commit(id: nat)
    | Abandon(id: nat)
    | Drop(nonces: set<nat>)
    | Rewrite(prev: UserOp, op: UserOp, pooled: bool, seen: set<nat>)

  /** The sequence lists the pool's operations once each, in some order. */
  ghost predicate Snapshot(pending: seq<UserOp>, pool: map<nat, UserOp>) {
    && |pending| == |pool|
    && (forall op :: op in pending ==> op.nonce in pool && pool[op.nonce] == op)
    && (forall n :: n in pool ==> pool[n] in pending)
  }

  predicate Passes(c: Call, cap: int) {
    Check(c.op, c.pending, cap, Some(false)).Ok?
  }

  /** The operations read, after the object `prev` among them was overwritten. */
  function Swapped(pending: seq<UserOp>, prev: UserOp, op: UserOp): (r: seq<UserOp>)
    ensures |r| == |pending|
  {
    seq(|pending|, i requires 0 <= i < |pending| => if pending[i] == prev then op else pending[i])
  }

  function SwappedCalls(calls: map<nat, Call>, prev: UserOp, op: UserOp, seen: set<nat>): map<nat, Call> {
    map id | id in calls :: if id in seen then calls[id].(pending := Swapped(calls[id].pending, prev, op)) else calls[id]
  }

  /** At most `k` calls overlap. */
  ghost predicate Enabled(s: State, a: Action, cap: int, k: nat) {
    match a
    case Start(id, op, pending) => id !in s.calls && |s.calls| < k && Snapshot(pending, s.pool)
    case Commit(id) => id in s.calls && Passes(s.calls[id], cap)
    case Abandon(id) => id in s.calls
    case Drop(_) => true
    case Rewrite(prev, op, pooled, seen) =>
      op.nonce == prev.nonce && (pooled ==> prev.nonce in s.pool && s.pool[prev.nonce] == prev)
  }

  ghost function Next(s: State, a: Action, cap: int, k: nat): State
    requires Enabled(s, a, cap, k)
  {
    match a
    case Start(id, op, pending) => s.(calls := s.calls[id := Call(op, pending)])
    case Commit(id) => State(s.pool[s.calls[id].op.nonce := s.calls[id].op], s.calls - {id})
    case Abandon(id) => s.(calls := s.calls - {id})
    case Drop(nonces) => s.(pool := s.pool - nonces)
    case Rewrite(prev, op, pooled, seen) =>
      State(if pooled then s.pool[op.nonce := op] else s.pool, SwappedCalls(s.calls, prev, op, seen))
  }

  ghost predicate Reaches(s: State, acts: seq<Action>, t: State, cap: int, k: nat)
    decreases |acts|
  {
    if acts == [] then s == t
    else Enabled(s, acts[0], cap, k) && Reaches(Next(s, acts[0], cap, k), acts[1..], t, cap, k)
  }

  function Bound(cap: int, k: nat): int {
    (if cap < 1 then 1 else cap) - 1 + k
  }

  /** The call's own reading of the pool lets it through, or might once the operation it would replace is rewritten. */
  predicate MayPass(c: Call, cap: int) {
    Passes(c, cap) || Replaced(c.pending, c.op.nonce).Some?
  }

  /** Nonces of the calls that may yet be let through. */
  function Hopeful(s: State, cap: int): set<nat> {
    set id | id in s.calls && MayPass(s.calls[id], cap) :: s.calls[id].op.nonce
  }

  ghost predicate Consistent(s: State) {
    forall n :: n in s.pool ==> s.pool[n].nonce == n
  }

  ghost predicate Inv(s: State, cap: int, k: nat) {
    && Consistent(s)
    && |s.calls| <= k
    && |s.pool.Keys + Hopeful(s, cap)| <= Bound(cap, k)
  }

  lemma {:induction false} ImageNoLarger(ids: set<nat>, calls: map<nat, Call>)
    requires forall id :: id in ids ==> id in calls
    ensures |set id | id in ids :: calls[id].op.nonce| <= |ids|
  {
    var image := set id | id in ids :: calls[id].op.nonce;
    if ids != {} {
      var x :| x in ids;
      var rest := ids - {x};
      ImageNoLarger(rest, calls);
      assert image == (set id | id in rest :: calls[id].op.nonce) + {calls[x].op.nonce};
    }
  }

  lemma HopefulNoMoreThanCalls(s: State, cap: int)
    ensures |Hopeful(s, cap)| <= |s.calls|
  {
    hide MayPass;
    var ids := set id | id in s.calls && MayPass(s.calls[id], cap);
    assert Hopeful(s, cap) == (set id | id in ids :: s.calls[id].op.nonce);
    ImageNoLarger(ids, s.calls);
    SubsetNoLarger(ids, s.calls.Keys);
  }

  lemma {:induction false} SubsetNoLarger(a: set<nat>, b: set<nat>)
    requires a <= b
    ensures |a| <= |b|
  {
    if a != {} {
      var x :| x in a;
      SubsetNoLarger(a - {x}, b - {x});
    }
  }

  lemma UnionNoLarger(a: set<nat>, b: set<nat>)
    ensures |a + b| <= |a| + |b|
  {
    assert a + b == a + (b - a);
    SubsetNoLarger(b - a, b);
  }

  /** A call that may pass either replaces a pooled operation or found room below the cap. */
  lemma PassesMeans(c: Call, pool: map<nat, UserOp>, cap: int)
    requires MayPass(c, cap) && Snapshot(c.pending, pool)
    ensures c.op.nonce in pool || |pool| <= Bound(cap, 0)
  {
    ReplacedIsPending(c.pending, c.op.nonce);
    assert |c.pending| == 0 ==> c.pending == [];
  }

  /** The arithmetic of a start: a passing call brings at most one nonce, and a new one only below the cap. */
  lemma StartCount(pool: set<nat>, hopeful: set<nat>, n: nat, calls: nat, cap: int, k: nat)
    requires |pool + hopeful| <= Bound(cap, k)
    requires n in pool || (|pool| <= Bound(cap, 0) && |hopeful + {n}| <= calls <= k)
    ensures |pool + (hopeful + {n})| <= Bound(cap, k)
  {
    if n in pool {
      assert pool + (hopeful + {n}) == pool + hopeful;
    } else {
      UnionNoLarger(pool, hopeful + {n});
    }
  }

  lemma StartKeeps(s: State, a: Action, cap: int, k: nat)
    requires a.Start? && Inv(s, cap, k) && Enabled(s, a, cap, k)
    ensures Inv(Next(s, a, cap, k), cap, k)
  {
    hide MayPass, Snapshot, Hopeful, Consistent, Bound;
    var c := Call(a.op, a.pending);
    ConsistentStart(s, Next(s, a, cap, k));
    OneMore(s.calls, a.id, c);
    HopefulAdds(s, a.id, c, cap);
    StartBound(s, a.id, c, cap, k);
  }

  lemma StartBound(s: State, id: nat, c: Call, cap: int, k: nat)
    requires id !in s.calls && |s.calls| < k && Snapshot(c.pending, s.pool)
    requires |s.pool.Keys + Hopeful(s, cap)| <= Bound(cap, k)
    ensures |s.pool.Keys + Hopeful(s.(calls := s.calls[id := c]), cap)| <= Bound(cap, k)
  {
    hide MayPass, Snapshot, Hopeful, Bound;
    var t := s.(calls := s.calls[id := c]);
    HopefulAdds(s, id, c, cap);
    if MayPass(c, cap) {
      PassesMeans(c, s.pool, cap);
      HopefulNoMoreThanCalls(t, cap);
      OneMore(s.calls, id, c);
      StartCount(s.pool.Keys, Hopeful(s, cap), c.op.nonce, |t.calls|, cap, k);
    } else {
      assert Hopeful(t, cap) == Hopeful(s, cap);
    }
  }

  lemma OneMore(calls: map<nat, Call>, id: nat, c: Call)
    requires id !in calls
    ensures |calls[id := c]| == |calls| + 1
  {
  }

  lemma ConsistentStart(s: State, t: State)
    requires Consistent(s) && t.pool == s.pool
    ensures Consistent(t)
  {
  }

  lemma HopefulAdds(s: State, id: nat, c: Call, cap: int)
    requires id !in s.calls
    ensures Hopeful(s.(calls := s.calls[id := c]), cap) ==
            Hopeful(s, cap) + if MayPass(c, cap) then {c.op.nonce} else {}
  {
    hide MayPass;
    var t := s.(calls := s.calls[id := c]);
    assert t.calls[id] == c;
    forall n | n in Hopeful(s, cap)
      ensures n in Hopeful(t, cap)
    {
      var i :| i in s.calls && MayPass(s.calls[i], cap) && s.calls[i].op.nonce == n;
      assert t.calls[i] == s.calls[i];
    }
  }

  lemma HopefulDrops(s: State, id: nat, cap: int, pool: map<nat, UserOp>)
    requires id in s.calls
    ensures Hopeful(State(pool, s.calls - {id}), cap) <= Hopeful(s, cap)
    ensures MayPass(s.calls[id], cap) ==> s.calls[id].op.nonce in Hopeful(s, cap)
  {
    hide MayPass;
  }

  /** Every step keeps the sender's pooled and admitted-but-not-yet-pooled nonces within the bound. */
  lemma StepKeepsBound(s: State, a: Action, cap: int, k: nat)
    requires Inv(s, cap, k) && Enabled(s, a, cap, k)
    ensures Inv(Next(s, a, cap, k), cap, k)
  {
    hide Passes, MayPass, Snapshot, Hopeful, Bound, SwappedCalls;
    match a
    case Start(_, _, _) => StartKeeps(s, a, cap, k);
    case Commit(id) =>
      assert MayPass(s.calls[id], cap) by { PassingMayPass(s.calls[id], cap); }
      HopefulDrops(s, id, cap, Next(s, a, cap, k).pool);
      ShrinkKeeps(s, Next(s, a, cap, k), cap, k);
    case Abandon(id) =>
      HopefulDrops(s, id, cap, s.pool);
      ShrinkKeeps(s, Next(s, a, cap, k), cap, k);
    case Drop(nonces) =>
      SameCallsSameHopeful(s, Next(s, a, cap, k), cap);
      ShrinkKeeps(s, Next(s, a, cap, k), cap, k);
    case Rewrite(prev, op, pooled, seen) =>
      RewriteKeeps(s, a, cap, k);
  }

  lemma RewriteKeeps(s: State, a: Action, cap: int, k: nat)
    requires a.Rewrite? && Inv(s, cap, k) && Enabled(s, a, cap, k)
    ensures Inv(Next(s, a, cap, k), cap, k)
  {
    var t := Next(s, a, cap, k);
    assert t.calls.Keys == s.calls.Keys && t.pool.Keys == s.pool.Keys;
    hide Hopeful, Bound, SwappedCalls;
    SwappedHopeful(s, t, a.prev, a.op, a.seen, cap);
    ShrinkKeeps(s, t, cap, k);
  }

  lemma {:induction false} SwappedReplaced(pending: seq<UserOp>, prev: UserOp, op: UserOp, nonce: nat)
    requires op.nonce == prev.nonce
    ensures Replaced(Swapped(pending, prev, op), nonce).Some? <==> Replaced(pending, nonce).Some?
  {
    if pending != [] {
      var n := |pending| - 1;
      SwappedReplaced(pending[..n], prev, op, nonce);
      assert Swapped(pending, prev, op)[..n] == Swapped(pending[..n], prev, op);
    }
  }

  /** Whether a call may pass does not depend on what is written into the operations it read. */
  lemma SwappedMayPass(c: Call, prev: UserOp, op: UserOp, cap: int)
    requires op.nonce == prev.nonce
    ensures MayPass(c.(pending := Swapped(c.pending, prev, op)), cap) <==> MayPass(c, cap)
  {
    hide Replaced, Outbids;
    SwappedReplaced(c.pending, prev, op, c.op.nonce);
    assert |Swapped(c.pending, prev, op)| == |c.pending|;
  }

  lemma SwappedHopeful(s: State, t: State, prev: UserOp, op: UserOp, seen: set<nat>, cap: int)
    requires op.nonce == prev.nonce && t.calls == SwappedCalls(s.calls, prev, op, seen)
    ensures Hopeful(t, cap) == Hopeful(s, cap)
  {
    hide MayPass, Swapped;
    forall id | id in s.calls
      ensures MayPass(t.calls[id], cap) <==> MayPass(s.calls[id], cap)
    {
      SwappedMayPass(s.calls[id], prev, op, cap);
    }
    forall n
      ensures n in Hopeful(t, cap) <==> n in Hopeful(s, cap)
    {
      if n in Hopeful(t, cap) {
        var id :| id in t.calls && MayPass(t.calls[id], cap) && t.calls[id].op.nonce == n;
        assert MayPass(s.calls[id], cap) && s.calls[id].op.nonce == n;
      }
      if n in Hopeful(s, cap) {
        var id :| id in s.calls && MayPass(s.calls[id], cap) && s.calls[id].op.nonce == n;
        assert MayPass(t.calls[id], cap) && t.calls[id].op.nonce == n;
      }
    }
  }

  lemma PassingMayPass(c: Call, cap: int)
    requires Passes(c, cap)
    ensures MayPass(c, cap)
  {
  }

  /** A step that adds no call and no nonce keeps the bound. */
  lemma ShrinkKeeps(s: State, t: State, cap: int, k: nat)
    requires Inv(s, cap, k) && Consistent(t) && t.calls.Keys <= s.calls.Keys
    requires t.pool.Keys + Hopeful(t, cap) <= s.pool.Keys + Hopeful(s, cap)
    ensures Inv(t, cap, k)
  {
    hide Hopeful, Bound, Consistent;
    SubsetNoLarger(t.pool.Keys + Hopeful(t, cap), s.pool.Keys + Hopeful(s, cap));
    SubsetNoLarger(t.calls.Keys, s.calls.Keys);
  }

  lemma SameCallsSameHopeful(s: State, t: State, cap: int)
    requires s.calls == t.calls
    ensures Hopeful(s, cap) == Hopeful(t, cap)
  {
    hide MayPass;
  }

  /** In every interleaving with at most `k` overlapping calls, the pooled nonces together with those of calls that will
      be let through number at most max(1, cap) - 1 + k. */
  lemma {:induction false} RunKeepsBound(s: State, acts: seq<Action>, t: State, cap: int, k: nat)
    requires Inv(s, cap, k) && Reaches(s, acts, t, cap, k)
    ensures Inv(t, cap, k)
    decreases |acts|
  {
    hide Inv, Next, Enabled;
    if acts != [] {
      StepKeepsBound(s, acts[0], cap, k);
      RunKeepsBound(Next(s, acts[0], cap, k), acts[1..], t, cap, k);
    }
  }

  lemma PoolBounded(acts: seq<Action>, t: State, cap: int, k: nat)
    requires Reaches(INITIAL, acts, t, cap, k)
    ensures |t.pool| <= Bound(cap, k)
    ensures |t.pool.Keys + Hopeful(t, cap)| <= Bound(cap, k)
  {
    hide Reaches, Hopeful;
    assert Inv(INITIAL, cap, k) by { HopefulNoMoreThanCalls(INITIAL, cap); }
    RunKeepsBound(INITIAL, acts, t, cap, k);
    SubsetNoLarger(t.pool.Keys, t.pool.Keys + Hopeful(t, cap));
  }

  // ---------------------------------------------------------------------------------------------
  // The bound is reached
  // ---------------------------------------------------------------------------------------------

  lemma {:induction false} ReachesThen(s: State, a1: seq<Action>, t: State, a2: seq<Action>, u: State, cap: int, k: nat)
    requires Reaches(s, a1, t, cap, k) && Reaches(t, a2, u, cap, k)
    ensures Reaches(s, a1 + a2, u, cap, k)
    decreases |a1|
  {
    hide Next, Enabled;
    if a1 == [] {
      assert a1 + a2 == a2;
    } else {
      assert (a1 + a2)[0] == a1[0] && (a1 + a2)[1..] == a1[1..] + a2;
      ReachesThen(Next(s, a1[0], cap, k), a1[1..], t, a2, u, cap, k);
    }
  }

  lemma ReachesOne(s: State, a: Action, cap: int, k: nat)
    requires Enabled(s, a, cap, k)
    ensures Reaches(s, [a], Next(s, a, cap, k), cap, k)
  {
    assert Reaches(Next(s, a, cap, k), [], Next(s, a, cap, k), cap, k);
    assert [a][1..] == [];
  }

  function Nth(model: UserOp, n: nat): UserOp {
    model.(nonce := n)
  }

  /** The pool holding nonces 0 to n - 1. */
  function Filled(model: UserOp, n: nat): map<nat, UserOp> {
    map i: nat | i < n :: Nth(model, i)
  }

  function Listed(model: UserOp, n: nat): seq<UserOp> {
    seq(n, i requires i >= 0 => Nth(model, i))
  }

  lemma {:induction false} FilledSize(model: UserOp, n: nat)
    ensures |Filled(model, n)| == n
    ensures Snapshot(Listed(model, n), Filled(model, n))
  {
    if n > 0 {
      FilledSize(model, n - 1);
      assert Filled(model, n) == Filled(model, n - 1)[n - 1 := Nth(model, n - 1)];
    }
    var pending := Listed(model, n);
    forall i: nat | i in Filled(model, n)
      ensures Filled(model, n)[i] in pending
    {
      assert pending[i] == Nth(model, i);
    }
  }

  lemma FreshPasses(model: UserOp, size: nat, n: nat, cap: int)
    requires size <= n && size <= Bound(cap, 0)
    ensures Passes(Call(Nth(model, n), Listed(model, size)), cap)
  {
    var pending := Listed(model, size);
    ReplacedIsPending(pending, n);
    assert forall op :: op in pending ==> op.nonce < size;
  }

  /** One call after another, up to the cap. */
  lemma {:induction false} FillUp(model: UserOp, n: nat, cap: int, k: nat) returns (acts: seq<Action>)
    requires n <= Bound(cap, 0) && k >= 1
    ensures Reaches(INITIAL, acts, State(Filled(model, n), map[]), cap, k)
  {
    hide Reaches, Filled;
    if n == 0 {
      FilledNone(model);
      acts := [];
      ReachesNone(INITIAL, cap, k);
    } else {
      acts := FillUp(model, n - 1, cap, k);
      var call, s2 := OneCall(model, n - 1, cap, k);
      ReachesThen(INITIAL, acts, State(Filled(model, n - 1), map[]), call, s2, cap, k);
      acts := acts + call;
    }
  }

  lemma ReachesNone(s: State, cap: int, k: nat)
    ensures Reaches(s, [], s, cap, k)
  {
  }

  lemma FilledNone(model: UserOp)
    ensures Filled(model, 0) == map[]
  {
  }

  lemma OneCall(model: UserOp, n: nat, cap: int, k: nat) returns (acts: seq<Action>, t: State)
    requires n < Bound(cap, 0) && k >= 1
    ensures Reaches(State(Filled(model, n), map[]), acts, t, cap, k)
    ensures t == State(Filled(model, n + 1), map[])
  {
    FilledSize(model, n);
    FreshPasses(model, n, n, cap);
    hide Passes, Snapshot, Listed;
    var s := State(Filled(model, n), map[]);
    var a := Start(0, Nth(model, n), Listed(model, n));
    ReachesOne(s, a, cap, k);
    var s1 := Next(s, a, cap, k);
    ReachesOne(s1, Commit(0), cap, k);
    t := Next(s1, Commit(0), cap, k);
    assert t.pool == Filled(model, n + 1) && t.calls == map[];
    ReachesThen(s, [a], s1, [Commit(0)], t, cap, k);
    acts := [a] + [Commit(0)];
  }

  /** The i-th of several calls that read a pool of `size` operations. */
  function Overlap(model: UserOp, size: nat, i: nat): Call {
    Call(Nth(model, size + i), Listed(model, size))
  }

  function Overlapping(model: UserOp, size: nat, lo: nat, hi: nat): map<nat, Call> {
    map i: nat | lo <= i < hi :: Overlap(model, size, i)
  }

  lemma {:induction false} OverlappingSize(model: UserOp, size: nat, lo: nat, hi: nat)
    requires lo <= hi
    ensures |Overlapping(model, size, lo, hi)| == hi - lo
    decreases hi
  {
    if lo < hi {
      OverlappingSize(model, size, lo, hi - 1);
      assert Overlapping(model, size, lo, hi)
          == Overlapping(model, size, lo, hi - 1)[hi - 1 := Overlap(model, size, hi - 1)];
    }
  }

  /** The pool filled to `size + n` while the calls from `n` to `m - 1` are in flight. */
  function Midway(model: UserOp, size: nat, n: nat, m: nat): State {
    State(Filled(model, size + n), Overlapping(model, size, n, m))
  }

  lemma StartNext(model: UserOp, size: nat, m: nat, cap: int, k: nat)
    requires m < k
    ensures Reaches(Midway(model, size, 0, m), [Start(m, Nth(model, size + m), Listed(model, size))],
                    Midway(model, size, 0, m + 1), cap, k)
  {
    hide Reaches, Snapshot, Listed, Filled;
    var s := Midway(model, size, 0, m);
    OverlappingSize(model, size, 0, m);
    FilledSize(model, size);
    var a := Start(m, Nth(model, size + m), Listed(model, size));
    ReachesOne(s, a, cap, k);
    assert Next(s, a, cap, k).calls == Overlapping(model, size, 0, m + 1);
  }

  lemma {:induction false} StartAll(model: UserOp, size: nat, m: nat, cap: int, k: nat) returns (acts: seq<Action>)
    requires m <= k
    ensures Reaches(Midway(model, size, 0, 0), acts, Midway(model, size, 0, m), cap, k)
  {
    hide Reaches, Midway;
    if m == 0 {
      acts := [];
      ReachesNone(Midway(model, size, 0, 0), cap, k);
    } else {
      acts := StartAll(model, size, m - 1, cap, k);
      StartNext(model, size, m - 1, cap, k);
      var a := Start(m - 1, Nth(model, size + m - 1), Listed(model, size));
      ReachesThen(Midway(model, size, 0, 0), acts, Midway(model, size, 0, m - 1), [a], Midway(model, size, 0, m), cap, k);
      acts := acts + [a];
    }
  }

  lemma CommitNext(model: UserOp, size: nat, n: nat, m: nat, cap: int, k: nat)
    requires n < m && size <= Bound(cap, 0)
    ensures Reaches(Midway(model, size, n, m), [Commit(n)], Midway(model, size, n + 1, m), cap, k)
  {
    var s := Midway(model, size, n, m);
    FreshPasses(model, size, size + n, cap);
    hide Passes, Listed;
    assert s.calls[n] == Overlap(model, size, n);
    ReachesOne(s, Commit(n), cap, k);
    hide Reaches;
    var t := Next(s, Commit(n), cap, k);
    assert t.pool == Filled(model, size + n + 1);
    assert t.calls == Overlapping(model, size, n + 1, m);
  }

  lemma {:induction false} CommitAll(model: UserOp, size: nat, n: nat, m: nat, cap: int, k: nat)
    returns (acts: seq<Action>)
    requires n <= m && size <= Bound(cap, 0)
    ensures Reaches(Midway(model, size, 0, m), acts, Midway(model, size, n, m), cap, k)
  {
    hide Reaches, Midway;
    if n == 0 {
      acts := [];
      ReachesNone(Midway(model, size, 0, m), cap, k);
    } else {
      acts := CommitAll(model, size, n - 1, m, cap, k);
      CommitNext(model, size, n - 1, m, cap, k);
      ReachesThen(Midway(model, size, 0, m), acts, Midway(model, size, n - 1, m), [Commit(n - 1)],
                  Midway(model, size, n, m), cap, k);
      acts := acts + [Commit(n - 1)];
    }
  }

  lemma MidwayStarts(model: UserOp, size: nat)
    ensures Midway(model, size, 0, 0) == State(Filled(model, size), map[])
  {
    assert Overlapping(model, size, 0, 0) == map[];
  }

  lemma MidwaySize(model: UserOp, size: nat, k: nat)
    ensures |Midway(model, size, k, k).pool| == size + k
  {
    FilledSize(model, size + k);
  }

  /** For every cap and every number of overlapping calls, some interleaving fills the pool to the bound. */
  lemma BoundIsReached(model: UserOp, cap: int, k: nat) returns (acts: seq<Action>, t: State)
    requires k >= 1
    ensures Reaches(INITIAL, acts, t, cap, k) && |t.pool| == Bound(cap, k)
  {
    hide Reaches, Midway, Filled;
    var size := Bound(cap, 0);
    t := Midway(model, size, k, k);
    MidwaySize(model, size, k);
    acts := FillUp(model, size, cap, k);
    MidwayStarts(model, size);
    var start := StartAll(model, size, k, cap, k);
    var commit := CommitAll(model, size, k, k, cap, k);
    ReachesThen(INITIAL, acts, Midway(model, size, 0, 0), start, Midway(model, size, 0, k), cap, k);
    ReachesThen(INITIAL, acts + start, Midway(model, size, 0, k), commit, t, cap, k);
    acts := acts + start + commit;
  }

  // ---------------------------------------------------------------------------------------------
  // Prices
  // ---------------------------------------------------------------------------------------------

  predicate SameFees(a: UserOp, b: UserOp) {
    a.maxFeePerGas == b.maxFeePerGas && a.maxPriorityFeePerGas == b.maxPriorityFeePerGas
  }

  /** One of the operations read has the nonce and the fees of `op`. */
  ghost predicate Prices(pending: seq<UserOp>, op: UserOp) {
    exists i :: 0 <= i < |pending| && pending[i].nonce == op.nonce && SameFees(pending[i], op)
  }

  /** No two of the operations read share a nonce. */
  ghost predicate OnePerNonce(pending: seq<UserOp>) {
    forall i, j :: 0 <= i < |pending| && 0 <= j < |pending| && pending[i].nonce == pending[j].nonce ==>
      pending[i] == pending[j]
  }

  /** What a call read still prices the pool: only removals and writes that keep fees happened since. */
  ghost predicate ReadCurrent(c: Call, pool: map<nat, UserOp>) {
    OnePerNonce(c.pending) && forall n :: n in pool ==> Prices(c.pending, pool[n])
  }

  ghost predicate SerialInv(s: State) {
    Consistent(s) && |s.calls| <= 1 && forall id :: id in s.calls ==> ReadCurrent(s.calls[id], s.pool)
  }

  lemma {:induction false} ReplacedIsPriced(pending: seq<UserOp>, i: nat)
    requires OnePerNonce(pending) && i < |pending|
    ensures Replaced(pending, pending[i].nonce) == Some(pending[i])
  {
    var n := |pending| - 1;
    if pending[n].nonce != pending[i].nonce {
      ReplacedIsPriced(pending[..n], i);
    }
  }

  /** The only call in flight, having read the price of every operation still pooled, outbids the one it replaces. */
  lemma CommitOutbids(c: Call, prev: UserOp, cap: int)
    requires Passes(c, cap) && OnePerNonce(c.pending) && Prices(c.pending, prev) && prev.nonce == c.op.nonce
    ensures Outbids(c.op, prev)
  {
    hide Threshold;
    var i :| 0 <= i < |c.pending| && c.pending[i].nonce == prev.nonce && SameFees(c.pending[i], prev);
    ReplacedIsPriced(c.pending, i);
  }

  /** Every operation that `s` and `t` both pool under a nonce is the same or outbid. */
  ghost predicate Repriced(s: State, t: State) {
    forall n :: n in s.pool && n in t.pool && t.pool[n] != s.pool[n] ==> Outbids(t.pool[n], s.pool[n])
  }

  /** Neither fee of an operation that `s` and `t` both pool under a nonce falls. */
  ghost predicate FeesHold(s: State, t: State) {
    forall n :: n in s.pool && n in t.pool ==>
      t.pool[n].maxFeePerGas >= s.pool[n].maxFeePerGas
      && t.pool[n].maxPriorityFeePerGas >= s.pool[n].maxPriorityFeePerGas
  }

  /** A new arrival outbids what it replaces, and no fee falls. */
  ghost predicate Fair(s: State, a: Action, t: State) {
    (a.Commit? ==> Repriced(s, t)) && FeesHold(s, t)
  }

  /** The solver, if that is what acts, keeps both fees. */
  predicate KeepsFees(a: Action) {
    a.Rewrite? ==> SameFees(a.op, a.prev)
  }

  predicate AllKeepFees(acts: seq<Action>) {
    forall a :: a in acts ==> KeepsFees(a)
  }

  /** Without overlap, and while the solver keeps fees, an operation that stays pooled is only ever replaced by one that
      outbids it, and its fees never fall. */
  lemma SerialStepReprices(s: State, a: Action, cap: int, k: nat)
    requires k <= 1 && SerialInv(s) && Enabled(s, a, cap, k) && KeepsFees(a)
    ensures SerialInv(Next(s, a, cap, k)) && Fair(s, a, Next(s, a, cap, k))
  {
    hide SerialInv, Passes, Outbids, SwappedCalls;
    match a
    case Start(id, op, pending) =>
      SerialStart(s, id, Call(op, pending));
    case Commit(id) => SerialCommit(s, id, cap);
    case Abandon(id) => SerialAbandon(s, id);
    case Drop(nonces) => SerialDrop(s, nonces);
    case Rewrite(prev, op, pooled, seen) => SerialRewrite(s, a, cap, k);
  }

  lemma SwappedPrices(pending: seq<UserOp>, prev: UserOp, op: UserOp, held: UserOp)
    requires op.nonce == prev.nonce && SameFees(op, prev) && Prices(pending, held)
    ensures Prices(Swapped(pending, prev, op), held)
  {
    var i :| 0 <= i < |pending| && pending[i].nonce == held.nonce && SameFees(pending[i], held);
    var j := Swapped(pending, prev, op)[i];
    assert j.nonce == held.nonce && SameFees(j, held);
  }

  lemma SwappedOnePerNonce(pending: seq<UserOp>, prev: UserOp, op: UserOp)
    requires op.nonce == prev.nonce && OnePerNonce(pending)
    ensures OnePerNonce(Swapped(pending, prev, op))
  {
    var r := Swapped(pending, prev, op);
    forall i, j | 0 <= i < |r| && 0 <= j < |r| && r[i].nonce == r[j].nonce
      ensures r[i] == r[j]
    {
      assert pending[i].nonce == r[i].nonce && pending[j].nonce == r[j].nonce;
    }
  }

  lemma SwappedReadCurrent(c: Call, pool: map<nat, UserOp>, prev: UserOp, op: UserOp)
    requires op.nonce == prev.nonce && SameFees(op, prev) && ReadCurrent(c, pool)
    ensures ReadCurrent(c.(pending := Swapped(c.pending, prev, op)), pool)
  {
    hide Swapped, Prices, OnePerNonce;
    SwappedOnePerNonce(c.pending, prev, op);
    forall n | n in pool
      ensures Prices(Swapped(c.pending, prev, op), pool[n])
    {
      SwappedPrices(c.pending, prev, op, pool[n]);
    }
  }

  lemma PooledReadCurrent(c: Call, pool: map<nat, UserOp>, prev: UserOp, op: UserOp)
    requires op.nonce == prev.nonce && SameFees(op, prev) && ReadCurrent(c, pool)
    requires prev.nonce in pool && pool[prev.nonce] == prev
    ensures ReadCurrent(c, pool[op.nonce := op])
  {
    hide OnePerNonce;
    var i :| 0 <= i < |c.pending| && c.pending[i].nonce == prev.nonce && SameFees(c.pending[i], prev);
    assert SameFees(c.pending[i], op);
    assert Prices(c.pending, op);
    hide Prices;
  }

  lemma SerialRewrite(s: State, a: Action, cap: int, k: nat)
    requires a.Rewrite? && SerialInv(s) && Enabled(s, a, cap, k) && KeepsFees(a)
    ensures SerialInv(Next(s, a, cap, k)) && Fair(s, a, Next(s, a, cap, k))
  {
    hide ReadCurrent, Swapped;
    var t := Next(s, a, cap, k);
    assert t.calls.Keys == s.calls.Keys;
    assert |t.calls| == |t.calls.Keys| == |s.calls.Keys|;
    forall id | id in t.calls
      ensures ReadCurrent(t.calls[id], t.pool)
    {
      if id in a.seen {
        SwappedReadCurrent(s.calls[id], s.pool, a.prev, a.op);
      }
      if a.pooled {
        PooledReadCurrent(t.calls[id], s.pool, a.prev, a.op);
      }
    }
  }

  lemma RepricedFeesHold(s: State, t: State)
    requires Repriced(s, t)
    ensures FeesHold(s, t)
  {
    hide Outbids;
    forall n | n in s.pool && n in t.pool && t.pool[n] != s.pool[n]
      ensures t.pool[n].maxFeePerGas >= s.pool[n].maxFeePerGas
      ensures t.pool[n].maxPriorityFeePerGas >= s.pool[n].maxPriorityFeePerGas
    {
      OutbidsCosts(t.pool[n], s.pool[n]);
    }
  }

  lemma SerialCommit(s: State, id: nat, cap: int)
    requires SerialInv(s) && id in s.calls && Passes(s.calls[id], cap)
    ensures var t := State(s.pool[s.calls[id].op.nonce := s.calls[id].op], s.calls - {id});
      SerialInv(t) && Repriced(s, t) && FeesHold(s, t)
  {
    hide Outbids, Passes, Prices, OnePerNonce;
    var c := s.calls[id];
    var t := State(s.pool[c.op.nonce := c.op], s.calls - {id});
    OnlyOne(s.calls.Keys, id);
    NoCallsLeft(s, id, t);
    if c.op.nonce in s.pool {
      CommitOutbids(c, s.pool[c.op.nonce], cap);
    }
    RepricedFeesHold(s, t);
  }

  lemma SerialAbandon(s: State, id: nat)
    requires SerialInv(s) && id in s.calls
    ensures SerialInv(s.(calls := s.calls - {id}))
  {
    OnlyOne(s.calls.Keys, id);
    NoCallsLeft(s, id, s.(calls := s.calls - {id}));
  }

  lemma SerialDrop(s: State, nonces: set<nat>)
    requires SerialInv(s)
    ensures SerialInv(s.(pool := s.pool - nonces))
  {
    hide Prices, OnePerNonce;
  }

  lemma SerialStart(s: State, id: nat, c: Call)
    requires SerialInv(s) && |s.calls| == 0 && Snapshot(c.pending, s.pool)
    ensures SerialInv(s.(calls := s.calls[id := c]))
  {
    assert s.calls == map[];
    SnapshotIsCurrent(c, s.pool);
    hide ReadCurrent;
  }

  lemma SnapshotIsCurrent(c: Call, pool: map<nat, UserOp>)
    requires Snapshot(c.pending, pool)
    ensures ReadCurrent(c, pool)
  {
    forall n | n in pool
      ensures Prices(c.pending, pool[n])
    {
      var i :| 0 <= i < |c.pending| && c.pending[i] == pool[n];
      assert SameFees(c.pending[i], pool[n]);
      assert c.pending[i] in c.pending;
    }
    forall i, j | 0 <= i < |c.pending| && 0 <= j < |c.pending| && c.pending[i].nonce == c.pending[j].nonce
      ensures c.pending[i] == c.pending[j]
    {
      assert c.pending[i] in c.pending && c.pending[j] in c.pending;
    }
  }

  lemma NoCallsLeft(s: State, id: nat, t: State)
    requires SerialInv(s) && s.calls.Keys == {id} && t.calls == s.calls - {id} && Consistent(t)
    ensures SerialInv(t)
  {
    assert t.calls == map[];
  }

  lemma OnlyOne(a: set<nat>, x: nat)
    requires x in a && |a| <= 1
    ensures a == {x}
  {
    assert |a - {x}| == 0;
  }

  /** Every step of a run is fair. */
  ghost predicate FairAlong(s: State, acts: seq<Action>, cap: int, k: nat)
    decreases |acts|
  {
    acts != [] && Enabled(s, acts[0], cap, k) ==>
      Fair(s, acts[0], Next(s, acts[0], cap, k)) && FairAlong(Next(s, acts[0], cap, k), acts[1..], cap, k)
  }

  lemma SerialStarts()
    ensures SerialInv(INITIAL)
  {
  }

  lemma {:induction false} SerialRunReprices(s: State, acts: seq<Action>, t: State, cap: int, k: nat)
    requires k <= 1 && SerialInv(s) && Reaches(s, acts, t, cap, k) && AllKeepFees(acts)
    ensures SerialInv(t) && FairAlong(s, acts, cap, k)
    decreases |acts|
  {
    hide SerialInv, Fair, Enabled, Next, KeepsFees;
    if acts != [] {
      assert acts[0] in acts;
      SerialStepReprices(s, acts[0], cap, k);
      SerialRunReprices(Next(s, acts[0], cap, k), acts[1..], t, cap, k);
    }
  }

  /** The nonce is pooled at every state of the run. */
  ghost predicate StaysPooled(s: State, acts: seq<Action>, n: nat, cap: int, k: nat)
    decreases |acts|
  {
    n in s.pool && (acts != [] && Enabled(s, acts[0], cap, k) ==>
      StaysPooled(Next(s, acts[0], cap, k), acts[1..], n, cap, k))
  }

  lemma OutbidsCosts(op: UserOp, prev: UserOp)
    requires Outbids(op, prev)
    ensures op.maxFeePerGas >= prev.maxFeePerGas && op.maxPriorityFeePerGas >= prev.maxPriorityFeePerGas
  {
    hide Threshold;
    ThresholdRaises(prev.maxFeePerGas);
    ThresholdRaises(prev.maxPriorityFeePerGas);
  }

  /** Over a whole run without overlap in which the solver keeps fees, neither fee of a nonce that stays pooled ever
      falls. */
  lemma {:induction false} SerialFeesHold(s: State, acts: seq<Action>, t: State, n: nat, cap: int, k: nat)
    requires k <= 1 && SerialInv(s) && Reaches(s, acts, t, cap, k) && AllKeepFees(acts) && StaysPooled(s, acts, n, cap, k)
    ensures n in s.pool && n in t.pool
    ensures t.pool[n].maxFeePerGas >= s.pool[n].maxFeePerGas
    ensures t.pool[n].maxPriorityFeePerGas >= s.pool[n].maxPriorityFeePerGas
    decreases |acts|
  {
    hide SerialInv, Enabled, Next, KeepsFees;
    if acts != [] {
      assert acts[0] in acts;
      var u := Next(s, acts[0], cap, k);
      SerialStepReprices(s, acts[0], cap, k);
      SerialFeesHold(u, acts[1..], t, n, cap, k);
    }
  }

  /** With two overlapping calls a pooled price can fall: both read the pool before either adds. */
  lemma OverlapUndercuts(high: UserOp, low: UserOp, cap: int, k: nat) returns (acts: seq<Action>, t: State, u: State)
    requires k >= 2 && high.nonce == low.nonce && low.maxFeePerGas < high.maxFeePerGas
    ensures Reaches(INITIAL, acts, t, cap, k) && Enabled(t, Commit(1), cap, k) && u == Next(t, Commit(1), cap, k)
    ensures t.pool == map[high.nonce := high] && u.pool == map[high.nonce := low]
    ensures !Outbids(low, high) && AllKeepFees(acts + [Commit(1)])
  {
    ThresholdRaises(high.maxFeePerGas);
    hide Threshold, Reaches, SwappedCalls;
    var a0, a1 := Start(0, high, []), Start(1, low, []);
    var s1 := Next(INITIAL, a0, cap, k);
    var s2 := Next(s1, a1, cap, k);
    ReachesOne(INITIAL, a0, cap, k);
    ReachesOne(s1, a1, cap, k);
    ReachesOne(s2, Commit(0), cap, k);
    t := Next(s2, Commit(0), cap, k);
    u := Next(t, Commit(1), cap, k);
    ReachesThen(INITIAL, [a0], s1, [a1], s2, cap, k);
    ReachesThen(INITIAL, [a0] + [a1], s2, [Commit(0)], t, cap, k);
    acts := [a0] + [a1] + [Commit(0)];
  }

  /** Without any overlap at all, the solver can lower a pooled fee by itself. */
  lemma RewriteUndercuts(high: UserOp, low: UserOp, cap: int, k: nat) returns (acts: seq<Action>, t: State, u: State)
    requires k >= 1 && high.nonce == low.nonce && low.maxFeePerGas < high.maxFeePerGas
    ensures Reaches(INITIAL, acts, t, cap, k)
    ensures var a := Rewrite(high, low, true, {}); Enabled(t, a, cap, k) && u == Next(t, a, cap, k)
    ensures t.calls == map[] && t.pool == map[high.nonce := high] && u.pool == map[high.nonce := low]
  {
    var a := Start(0, high, []);
    var s1 := Next(INITIAL, a, cap, k);
    ReachesOne(INITIAL, a, cap, k);
    ReachesOne(s1, Commit(0), cap, k);
    t := Next(s1, Commit(0), cap, k);
    ReachesThen(INITIAL, [a], s1, [Commit(0)], t, cap, k);
    acts := [a] + [Commit(0)];
    u := Next(t, Rewrite(high, low, true, {}), cap, k);
  }

  lemma {:induction false} FairLater(s: State, a1: seq<Action>, t: State, a2: seq<Action>, cap: int, k: nat)
    requires Reaches(s, a1, t, cap, k) && FairAlong(s, a1 + a2, cap, k)
    ensures FairAlong(t, a2, cap, k)
    decreases |a1|
  {
    hide Next, Enabled, Fair;
    if a1 == [] {
      assert a1 + a2 == a2;
    } else {
      assert (a1 + a2)[0] == a1[0] && (a1 + a2)[1..] == a1[1..] + a2;
      FairLater(Next(s, a1[0], cap, k), a1[1..], t, a2, cap, k);
    }
  }

  /** Every run from an empty pool is fair; only those in which the solver keeps fees, if `keeping`. */
  ghost predicate AlwaysFair(cap: int, k: nat, keeping: bool) {
    forall acts, t :: Reaches(INITIAL, acts, t, cap, k) && (keeping ==> AllKeepFees(acts)) ==>
      FairAlong(INITIAL, acts, cap, k)
  }

  /** With no calls at all nothing is ever pooled. */
  lemma {:induction false} NothingPooled(s: State, acts: seq<Action>, t: State, cap: int)
    requires s.pool == map[] && s.calls == map[] && Reaches(s, acts, t, cap, 0)
    ensures FairAlong(s, acts, cap, 0)
    decreases |acts|
  {
    if acts != [] {
      var u := Next(s, acts[0], cap, 0);
      assert u.pool == map[] && u.calls == map[];
      NothingPooled(u, acts[1..], t, cap);
    }
  }

  /** An unfair last step of some run. */
  lemma UnfairRun(acts: seq<Action>, t: State, a: Action, cap: int, k: nat, keeping: bool)
    requires Reaches(INITIAL, acts, t, cap, k) && Enabled(t, a, cap, k) && !Fair(t, a, Next(t, a, cap, k))
    requires keeping ==> AllKeepFees(acts + [a])
    ensures !AlwaysFair(cap, k, keeping)
  {
    hide Reaches, Enabled, Fair, Next, AllKeepFees;
    ReachesOne(t, a, cap, k);
    ReachesThen(INITIAL, acts, t, [a], Next(t, a, cap, k), cap, k);
    if AlwaysFair(cap, k, keeping) {
      FairLater(INITIAL, acts, t, [a], cap, k);
      assert false;
    }
  }

  /** Pooled operations are only ever outbid, and no fee of one falls, if and only if calls do not overlap and the solver
      keeps the fees of what it rewrites. */
  lemma FairIff(model: UserOp, cap: int, k: nat, keeping: bool)
    ensures AlwaysFair(cap, k, keeping) <==> k == 0 || (k == 1 && keeping)
  {
    hide Reaches, FairAlong, Next, Enabled, Outbids, SerialInv, AllKeepFees;
    var high, low := model.(maxFeePerGas := 1), model.(maxFeePerGas := 0);
    if k >= 2 {
      var acts, t, u := OverlapUndercuts(high, low, cap, k);
      assert !FeesHold(t, u) by { assert high.nonce in t.pool && high.nonce in u.pool; }
      UnfairRun(acts, t, Commit(1), cap, k, keeping);
    } else if k == 1 && !keeping {
      var acts, t, u := RewriteUndercuts(high, low, cap, k);
      assert !FeesHold(t, u) by { assert high.nonce in t.pool && high.nonce in u.pool; }
      UnfairRun(acts, t, Rewrite(high, low, true, {}), cap, k, keeping);
    } else {
      forall acts, t | Reaches(INITIAL, acts, t, cap, k) && (keeping ==> AllKeepFees(acts))
        ensures FairAlong(INITIAL, acts, cap, k)
      {
        if k == 0 {
          NothingPooled(INITIAL, acts, t, cap);
        } else {
          SerialStarts();
          SerialRunReprices(INITIAL, acts, t, cap, k);
        }
      }
    }
  }
}
