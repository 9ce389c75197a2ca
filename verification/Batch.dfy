/** The bundler's run: operations dumped from the mempool pass through batch handlers, and some of them are removed from
    the mempool afterwards. */
module Batch {
  import opened Wrappers
  import opened Text
  import opened UserOps
  import opened Mempool
  import Overhead

  // ---------------------------------------------------------------------------------------------
  // The handler context
  // ---------------------------------------------------------------------------------------------

  datatype Ctx = Ctx(batch: seq<UserOp>, pendingRemoval: seq<UserOp>)

  /** Moves the operation at an index from the batch to the pending removals; an index outside the batch moves none. */
  function Marked(c: Ctx, index: int): Ctx {
    if 0 <= index < |c.batch| then
      Ctx(c.batch[..index] + c.batch[index + 1..], c.pendingRemoval + [c.batch[index]])
    else c
  }

  class Context {
    var batch: seq<UserOp>
    var pendingRemoval: seq<UserOp>

    ghost function Abs(): Ctx
      reads this
    {
      Ctx(batch, pendingRemoval)
    }

    constructor (ops: seq<UserOp>)
      ensures Abs() == Ctx(ops, [])
    {
      batch, pendingRemoval := ops, [];
    }

    method MarkOpIndexForRemoval(index: int)
      modifies this
      ensures Abs() == Marked(old(Abs()), index)
    {
      var kept := [];
      var op := None;
      for i := 0 to |batch|
        invariant batch == old(batch) && pendingRemoval == old(pendingRemoval)
        invariant op == if 0 <= index < i then Some(batch[index]) else None
        invariant kept == if 0 <= index < i then batch[..index] + batch[index + 1..i] else batch[..i]
      {
        if i == index {
          op := Some(batch[i]);
        } else {
          kept := kept + [batch[i]];
        }
      }
      if op.None? {
        return;
      }
      batch := kept;
      pendingRemoval := pendingRemoval + [op.value];
    }
  }

  // ---------------------------------------------------------------------------------------------
  // Removal by a downward loop
  // ---------------------------------------------------------------------------------------------

  /** The operations whose flag is not set, in order. */
  function Kept(ops: seq<UserOp>, flags: seq<bool>): seq<UserOp>
    requires |ops| == |flags|
  {
    if ops == [] then []
    else (if flags[0] then [] else [ops[0]]) + Kept(ops[1..], flags[1..])
  }

  /** The operations whose flag is set, last first. */
  function Moved(ops: seq<UserOp>, flags: seq<bool>): seq<UserOp>
    requires |ops| == |flags|
  {
    if ops == [] then []
    else Moved(ops[1..], flags[1..]) + (if flags[0] then [ops[0]] else [])
  }

  function Swept(c: Ctx, flags: seq<bool>): Ctx
    requires |c.batch| == |flags|
  {
    Ctx(Kept(c.batch, flags), c.pendingRemoval + Moved(c.batch, flags))
  }

  /** Some operation equal to `op` carries the given flag. */
  ghost predicate Flagged(ops: seq<UserOp>, flags: seq<bool>, flag: bool, op: UserOp)
    requires |ops| == |flags|
  {
    exists i :: 0 <= i < |ops| && flags[i] == flag && ops[i] == op
  }

  lemma FlaggedCons(ops: seq<UserOp>, flags: seq<bool>, flag: bool, op: UserOp)
    requires |ops| == |flags| && ops != []
    ensures Flagged(ops, flags, flag, op) <==> (flags[0] == flag && ops[0] == op) || Flagged(ops[1..], flags[1..], flag, op)
  {
    if i :| 1 <= i < |ops| && flags[i] == flag && ops[i] == op {
      assert flags[1..][i - 1] == flag && ops[1..][i - 1] == op;
    }
    if i :| 0 <= i < |ops[1..]| && flags[1..][i] == flag && ops[1..][i] == op {
      assert flags[i + 1] == flag && ops[i + 1] == op;
    }
  }

  /** A sweep neither loses nor duplicates an operation. */
  lemma {:induction false} SweptConserves(ops: seq<UserOp>, flags: seq<bool>)
    requires |ops| == |flags|
    ensures multiset(Kept(ops, flags)) + multiset(Moved(ops, flags)) == multiset(ops)
  {
    if ops != [] {
      SweptConserves(ops[1..], flags[1..]);
      assert ops == [ops[0]] + ops[1..];
    }
  }

  /** A sweep moves exactly the flagged operations and keeps exactly the others. */
  lemma {:induction false} SweptSelects(ops: seq<UserOp>, flags: seq<bool>, op: UserOp)
    requires |ops| == |flags|
    ensures op in Moved(ops, flags) <==> Flagged(ops, flags, true, op)
    ensures op in Kept(ops, flags) <==> Flagged(ops, flags, false, op)
  {
    if ops != [] {
      FlaggedCons(ops, flags, true, op);
      FlaggedCons(ops, flags, false, op);
      SweptSelects(ops[1..], flags[1..], op);
    }
  }

  /** The context midway through a downward sweep: indices from `i` on are done. */
  function Midsweep(c: Ctx, flags: seq<bool>, i: nat): Ctx
    requires |c.batch| == |flags| && i <= |flags|
  {
    Ctx(c.batch[..i] + Kept(c.batch[i..], flags[i..]), c.pendingRemoval + Moved(c.batch[i..], flags[i..]))
  }

  /** Marking index `i` acts on the original operation `i`, although the batch was rebuilt at each earlier removal. */
  lemma MidsweepStep(c: Ctx, flags: seq<bool>, i: nat)
    requires |c.batch| == |flags| && i < |flags|
    ensures i < |Midsweep(c, flags, i + 1).batch| && Midsweep(c, flags, i + 1).batch[i] == c.batch[i]
    ensures Midsweep(c, flags, i) ==
            if flags[i] then Marked(Midsweep(c, flags, i + 1), i) else Midsweep(c, flags, i + 1)
  {
    var next := Midsweep(c, flags, i + 1);
    assert c.batch[i..][1..] == c.batch[i + 1..] && flags[i..][1..] == flags[i + 1..];
    var rest := Kept(c.batch[i + 1..], flags[i + 1..]);
    assert c.batch[..i + 1] == c.batch[..i] + [c.batch[i]];
    assert next.batch[..i] == c.batch[..i];
    assert next.batch[i + 1..] == rest;
    var moved := Moved(c.batch[i + 1..], flags[i + 1..]);
    if flags[i] {
      assert Midsweep(c, flags, i).batch == c.batch[..i] + rest;
      assert Midsweep(c, flags, i).pendingRemoval == c.pendingRemoval + moved + [c.batch[i]];
    } else {
      assert Midsweep(c, flags, i).batch == c.batch[..i] + ([c.batch[i]] + rest);
      assert Midsweep(c, flags, i).pendingRemoval == c.pendingRemoval + moved;
    }
  }

  lemma MidsweepEnds(c: Ctx, flags: seq<bool>)
    requires |c.batch| == |flags|
    ensures Midsweep(c, flags, |flags|) == c && Midsweep(c, flags, 0) == Swept(c, flags)
  {
    var n := |flags|;
    assert c.batch[..n] + Kept(c.batch[n..], flags[n..]) == c.batch;
    assert c.pendingRemoval + Moved(c.batch[n..], flags[n..]) == c.pendingRemoval;
    assert c.batch[0..] == c.batch && flags[0..] == flags;
    assert c.batch[..0] + Kept(c.batch, flags) == Kept(c.batch, flags);
  }

  // ---------------------------------------------------------------------------------------------
  // Removal by an upward loop
  // ---------------------------------------------------------------------------------------------

  /** Marks the given indices one after another, each in the batch that the marks before it left. */
  function MarkAll(c: Ctx, indices: seq<nat>): Ctx
    decreases |indices|
  {
    if indices == [] then c else MarkAll(Marked(c, indices[0]), indices[1..])
  }

  ghost predicate Climbing(indices: seq<nat>) {
    forall i, j :: 0 <= i < j < |indices| ==> indices[i] < indices[j]
  }

  /** Each index moved up by the number of indices before it. */
  function Shifted(indices: seq<nat>): seq<nat> {
    seq(|indices|, m requires 0 <= m < |indices| => indices[m] + m)
  }

  /** Which of `n` places are listed. */
  function FlagsOf(indices: seq<nat>, n: nat): (flags: seq<bool>)
    ensures |flags| == n
  {
    seq(n, j => j in indices)
  }

  /** The operations at the given places; a place past the end holds none. */
  function Picked(ops: seq<UserOp>, places: seq<nat>): seq<UserOp>
    decreases |places|
  {
    if places == [] then []
    else (if places[0] < |ops| then [ops[places[0]]] else []) + Picked(ops, places[1..])
  }

  lemma {:induction false} KeptConcat(a: seq<UserOp>, fa: seq<bool>, b: seq<UserOp>, fb: seq<bool>)
    requires |a| == |fa| && |b| == |fb|
    ensures Kept(a + b, fa + fb) == Kept(a, fa) + Kept(b, fb)
  {
    if a == [] {
      assert a + b == b && fa + fb == fb;
    } else {
      KeptConcat(a[1..], fa[1..], b, fb);
      assert (a + b)[1..] == a[1..] + b && (fa + fb)[1..] == fa[1..] + fb;
      var first := if fa[0] then [] else [a[0]];
      assert Kept(a + b, fa + fb) == first + Kept(a[1..] + b, fa[1..] + fb);
      assert Kept(a, fa) == first + Kept(a[1..], fa[1..]);
      hide Kept;
      assert first + (Kept(a[1..], fa[1..]) + Kept(b, fb)) == first + Kept(a[1..], fa[1..]) + Kept(b, fb);
    }
  }

  lemma {:induction false} KeptAll(ops: seq<UserOp>, flags: seq<bool>)
    requires |ops| == |flags| && forall i :: 0 <= i < |flags| ==> !flags[i]
    ensures Kept(ops, flags) == ops
  {
    if ops != [] {
      KeptAll(ops[1..], flags[1..]);
    }
  }

  lemma {:induction false} MarkAllPastEnd(c: Ctx, indices: seq<nat>)
    requires forall m :: 0 <= m < |indices| ==> indices[m] >= |c.batch|
    ensures MarkAll(c, indices) == c
    decreases |indices|
  {
    if indices != [] {
      MarkAllPastEnd(c, indices[1..]);
    }
  }

  lemma {:induction false} PickedPastEnd(ops: seq<UserOp>, places: seq<nat>)
    requires forall m :: 0 <= m < |places| ==> places[m] >= |ops|
    ensures Picked(ops, places) == []
    decreases |places|
  {
    if places != [] {
      PickedPastEnd(ops, places[1..]);
    }
  }

  /** Places after a removed one are one higher in the original. */
  lemma {:induction false} PickedAfter(ops: seq<UserOp>, i: nat, places: seq<nat>, higher: seq<nat>)
    requires i < |ops| && |places| == |higher|
    requires forall m :: 0 <= m < |places| ==> places[m] >= i && higher[m] == places[m] + 1
    ensures Picked(ops[..i] + ops[i + 1..], places) == Picked(ops, higher)
    decreases |places|
  {
    if places != [] {
      var less, p := ops[..i] + ops[i + 1..], places[0];
      PickedAfter(ops, i, places[1..], higher[1..]);
      PickedFirst(less, places);
      PickedFirst(ops, higher);
      hide Picked;
      assert p < |ops| - 1 ==> less[p] == ops[p + 1];
    }
  }

  lemma PickedFirst(ops: seq<UserOp>, places: seq<nat>)
    requires places != []
    ensures Picked(ops, places) == (if places[0] < |ops| then [ops[places[0]]] else []) + Picked(ops, places[1..])
  {
  }

  /** The places that the marks after the first hit, in the original batch and in the one the first mark left. */
  lemma ShiftedTail(indices: seq<nat>)
    requires indices != []
    ensures Shifted(indices)[0] == indices[0]
    ensures |Shifted(indices)[1..]| == |Shifted(indices[1..])|
    ensures forall m :: 0 <= m < |indices| - 1 ==> Shifted(indices)[1..][m] == Shifted(indices[1..])[m] + 1
  {
  }

  lemma PlacesAbove(indices: seq<nat>)
    requires Climbing(indices) && indices != []
    ensures forall m :: 0 <= m < |Shifted(indices[1..])| ==> Shifted(indices[1..])[m] > indices[0]
    ensures forall m :: 0 <= m < |Shifted(indices)[1..]| ==> Shifted(indices)[1..][m] > indices[0]
  {
  }

  lemma OneHigher(low: seq<nat>, high: seq<nat>, j: nat)
    requires |low| == |high| && forall m :: 0 <= m < |low| ==> high[m] == low[m] + 1
    ensures j + 1 in high <==> j in low
  {
    if m :| 0 <= m < |low| && low[m] == j {
      assert high[m] == j + 1;
    }
  }

  lemma FlagsAfterFirst(indices: seq<nat>, n: nat)
    requires Climbing(indices) && indices != [] && indices[0] < n
    ensures var i := indices[0]; var g := FlagsOf(Shifted(indices[1..]), n - 1);
      FlagsOf(Shifted(indices), n) == g[..i] + [true] + g[i..]
  {
    var i, low, high := indices[0], Shifted(indices[1..]), Shifted(indices);
    ShiftedTail(indices);
    PlacesAbove(indices);
    hide Shifted, Climbing;
    assert high == [i] + high[1..];
    var f, g := FlagsOf(high, n), FlagsOf(low, n - 1);
    var tail := high[1..];
    forall j | 0 <= j < n
      ensures f[j] == (g[..i] + [true] + g[i..])[j]
    {
      assert f[j] <==> j == i || j in tail;
      if j < i {
        assert g[j] <==> j in low;
      } else if j > i {
        OneHigher(low, tail, j - 1);
        assert g[j - 1] <==> j - 1 in low;
      }
    }
  }

  /** Marking in climbing order while the batch shrinks, as the paymaster deposit check does: the mark numbered m, from
      0, hits the original operation m places above the one meant, and none once that is past the end. */
  lemma {:induction false} UpwardMarksShift(c: Ctx, indices: seq<nat>)
    requires Climbing(indices)
    ensures MarkAll(c, indices).batch == Kept(c.batch, FlagsOf(Shifted(indices), |c.batch|))
    ensures MarkAll(c, indices).pendingRemoval == c.pendingRemoval + Picked(c.batch, Shifted(indices))
    decreases |indices|
  {
    var n := |c.batch|;
    if indices == [] {
      KeptAll(c.batch, FlagsOf(Shifted(indices), n));
      assert c.pendingRemoval + [] == c.pendingRemoval;
    } else if indices[0] >= n {
      MarkAllPastEnd(c, indices);
      assert forall j :: 0 <= j < n ==> j !in Shifted(indices);
      KeptAll(c.batch, FlagsOf(Shifted(indices), n));
      PickedPastEnd(c.batch, Shifted(indices));
      assert c.pendingRemoval + [] == c.pendingRemoval;
    } else {
      UpwardFirst(c, indices);
      UpwardMarksShift(Marked(c, indices[0]), indices[1..]);
    }
  }

  lemma KeptNone(op: UserOp)
    ensures Kept([op], [true]) == []
  {
  }

  /** A moved operation leaves what is kept around it. */
  lemma KeptAround(ops: seq<UserOp>, i: nat, g: seq<bool>)
    requires i < |ops| == |g| + 1
    ensures Kept(ops[..i] + ops[i + 1..], g) == Kept(ops, g[..i] + [true] + g[i..])
  {
    hide Kept;
    var before, x, after := ops[..i], [ops[i]], ops[i + 1..];
    KeptConcat(before, g[..i], after, g[i..]);
    KeptConcat(x, [true], after, g[i..]);
    KeptConcat(before, g[..i], x + after, [true] + g[i..]);
    KeptNone(ops[i]);
    assert ops == before + (x + after) && g == g[..i] + g[i..];
    assert g[..i] + [true] + g[i..] == g[..i] + ([true] + g[i..]);
  }

  lemma UpwardFirst(c: Ctx, indices: seq<nat>)
    requires Climbing(indices) && indices != [] && indices[0] < |c.batch|
    ensures var d := Marked(c, indices[0]); var rest := Shifted(indices[1..]);
      && Kept(d.batch, FlagsOf(rest, |d.batch|)) == Kept(c.batch, FlagsOf(Shifted(indices), |c.batch|))
      && d.pendingRemoval + Picked(d.batch, rest) == c.pendingRemoval + Picked(c.batch, Shifted(indices))
  {
    var i, n := indices[0], |c.batch|;
    var rest, all := Shifted(indices[1..]), Shifted(indices);
    FlagsAfterFirst(indices, n);
    KeptAround(c.batch, i, FlagsOf(rest, n - 1));
    ShiftedTail(indices);
    PlacesAbove(indices);
    PickedAfter(c.batch, i, rest, all[1..]);
    hide Shifted, FlagsOf, Climbing, Kept;
    assert Picked(c.batch, all) == [c.batch[i]] + Picked(c.batch, all[1..]);
    hide Picked;
    assert c.pendingRemoval + ([c.batch[i]] + Picked(c.batch, all[1..]))
        == c.pendingRemoval + [c.batch[i]] + Picked(c.batch, all[1..]);
  }

  lemma KeptIfUnflagged(ops: seq<UserOp>, flags: seq<bool>, i: nat)
    requires i < |ops| == |flags| && forall i, j :: 0 <= i < j < |ops| ==> ops[i] != ops[j]
    ensures ops[i] in Kept(ops, flags) <==> !flags[i]
  {
    hide Kept, Moved;
    SweptSelects(ops, flags, ops[i]);
  }

  lemma SecondIsMissed(indices: seq<nat>)
    requires Climbing(indices) && |indices| >= 2
    ensures indices[1] in indices && indices[1] !in Shifted(indices)
  {
    forall m | 0 <= m < |indices|
      ensures Shifted(indices)[m] != indices[1]
    {
    }
  }

  /** For distinct operations, marking upward keeps what a sweep of the same indices keeps if and only if at most one
      index is marked. From two on, the second operation meant always stays. */
  lemma UpwardIsSweepIff(c: Ctx, indices: seq<nat>)
    requires Climbing(indices) && forall m :: 0 <= m < |indices| ==> indices[m] < |c.batch|
    requires forall i, j :: 0 <= i < j < |c.batch| ==> c.batch[i] != c.batch[j]
    ensures MarkAll(c, indices).batch == Kept(c.batch, FlagsOf(indices, |c.batch|)) <==> |indices| <= 1
    ensures |indices| >= 2 ==> c.batch[indices[1]] in MarkAll(c, indices).batch
  {
    var n := |c.batch|;
    UpwardMarksShift(c, indices);
    if |indices| <= 1 {
      assert Shifted(indices) == indices;
    } else {
      var i := indices[1];
      SecondIsMissed(indices);
      hide Climbing, Shifted, MarkAll, Kept;
      KeptIfUnflagged(c.batch, FlagsOf(Shifted(indices), n), i);
      KeptIfUnflagged(c.batch, FlagsOf(indices, n), i);
    }
  }

  lemma {:induction false} MarkAllMore(c: Ctx, indices: seq<nat>, i: nat)
    ensures MarkAll(c, indices + [i]) == Marked(MarkAll(c, indices), i)
    decreases |indices|
  {
    if indices == [] {
      assert (indices + [i])[1..] == [];
    } else {
      assert (indices + [i])[1..] == indices[1..] + [i];
      MarkAllMore(Marked(c, indices[0]), indices[1..], i);
    }
  }

  /** The places whose flag is set, in order. */
  function Indices(flags: seq<bool>): seq<nat> {
    if flags == [] then []
    else Indices(flags[..|flags| - 1]) + if flags[|flags| - 1] then [|flags| - 1] else []
  }

  lemma IndicesUnfold(flags: seq<bool>)
    requires flags != []
    ensures Indices(flags) == Indices(flags[..|flags| - 1]) + if flags[|flags| - 1] then [|flags| - 1] else []
  {
  }

  lemma ClimbsFurther(indices: seq<nat>, n: nat)
    requires Climbing(indices) && forall j :: j in indices ==> j < n
    ensures Climbing(indices + [n])
  {
    assert forall m :: 0 <= m < |indices| ==> indices[m] in indices;
  }

  lemma {:induction false} IndicesClimb(flags: seq<bool>)
    ensures Climbing(Indices(flags))
    ensures forall j :: j in Indices(flags) <==> 0 <= j < |flags| && flags[j]
  {
    if flags != [] {
      var n := |flags| - 1;
      var front := Indices(flags[..n]);
      IndicesClimb(flags[..n]);
      assert forall j :: j in front <==> 0 <= j < n && flags[j];
      hide Indices;
      assert Indices(flags) == front + if flags[n] then [n] else [] by { IndicesUnfold(flags); }
      ClimbsFurther(front, n);
    }
  }

  // ---------------------------------------------------------------------------------------------
  // Handlers
  // ---------------------------------------------------------------------------------------------

  type Hash = nat

  /** When each hash was first seen, once the operations from index `i` on have been looked at, last one first. */
  function SeenFrom(batch: seq<UserOp>, hash: UserOp -> Hash, seenAt: map<Hash, int>, clock: nat -> int, i: nat)
    : map<Hash, int>
    requires i <= |batch|
    decreases |batch| - i
  {
    if i == |batch| then seenAt else
    var m := SeenFrom(batch, hash, seenAt, clock, i + 1);
    if hash(batch[i]) in m then m else m[hash(batch[i]) := clock(i)]
  }

  /** Operations first seen longer ago than the time to live. The clock may move between two operations. */
  function ExpiredFlags(batch: seq<UserOp>, hash: UserOp -> Hash, seenAt: map<Hash, int>, ttl: int, clock: nat -> int)
    : (flags: seq<bool>)
    ensures |flags| == |batch|
  {
    seq(|batch|, i requires 0 <= i < |batch| =>
      var m := SeenFrom(batch, hash, seenAt, clock, i + 1);
      hash(batch[i]) in m && m[hash(batch[i])] + ttl < clock(i))
  }

  /** Where the last operation from index `i` on that has hash `h` stands. */
  function LastWith(batch: seq<UserOp>, hash: UserOp -> Hash, h: Hash, i: nat): (r: Option<nat>)
    requires i <= |batch|
    ensures r.Some? ==> i <= r.value < |batch| && hash(batch[r.value]) == h
    ensures forall k :: (if r.Some? then r.value + 1 else i) <= k < |batch| ==> hash(batch[k]) != h
    decreases |batch| - i
  {
    if i == |batch| then None else
    var later := LastWith(batch, hash, h, i + 1);
    if later.Some? then later else if hash(batch[i]) == h then Some(i) else None
  }

  lemma {:induction false} SeenMeans(batch: seq<UserOp>, hash: UserOp -> Hash, seenAt: map<Hash, int>, clock: nat -> int,
                                     i: nat, h: Hash)
    requires i <= |batch|
    ensures var m, last := SeenFrom(batch, hash, seenAt, clock, i), LastWith(batch, hash, h, i);
      && (h in m <==> h in seenAt || last.Some?)
      && (h in m ==> m[h] == if h in seenAt then seenAt[h] else clock(last.value))
    decreases |batch| - i
  {
    if i < |batch| {
      SeenMeans(batch, hash, seenAt, clock, i + 1, h);
    }
  }

  /** An operation expires when an earlier run saw its hash too long ago. One that no earlier run saw expires only
      against the last operation of equal hash in the same batch, which is looked at first. */
  lemma ExpiredMeans(batch: seq<UserOp>, hash: UserOp -> Hash, seenAt: map<Hash, int>, ttl: int, clock: nat -> int, i: nat)
    requires i < |batch|
    ensures var h := hash(batch[i]); var last := LastWith(batch, hash, h, i + 1);
      ExpiredFlags(batch, hash, seenAt, ttl, clock)[i] <==>
      if h in seenAt then seenAt[h] + ttl < clock(i) else last.Some? && clock(last.value) + ttl < clock(i)
  {
    hide SeenFrom, LastWith;
    SeenMeans(batch, hash, seenAt, clock, i + 1, hash(batch[i]));
  }

  /** One run of the expiry handler: the batch it went through and the clock it read. */
  datatype Sighting = Sighting(batch: seq<UserOp>, clock: nat -> int)

  /** What a new handler remembers after some runs. */
  function SeenAfter(hash: UserOp -> Hash, runs: seq<Sighting>): map<Hash, int>
    decreases |runs|
  {
    if runs == [] then map[] else
    var run := runs[|runs| - 1];
    SeenFrom(run.batch, hash, SeenAfter(hash, runs[..|runs| - 1]), run.clock, 0)
  }

  /** When a hash was seen first: in the first run whose batch held it, at its last place there. */
  function FirstSeen(hash: UserOp -> Hash, runs: seq<Sighting>, h: Hash): Option<int>
    decreases |runs|
  {
    if runs == [] then None else
    var run := runs[|runs| - 1];
    var earlier, last := FirstSeen(hash, runs[..|runs| - 1], h), LastWith(run.batch, hash, h, 0);
    if earlier.Some? then earlier else if last.Some? then Some(run.clock(last.value)) else None
  }

  lemma {:induction false} RunsRemember(hash: UserOp -> Hash, runs: seq<Sighting>, h: Hash)
    ensures h in SeenAfter(hash, runs) <==> FirstSeen(hash, runs, h).Some?
    ensures h in SeenAfter(hash, runs) ==> SeenAfter(hash, runs)[h] == FirstSeen(hash, runs, h).value
    decreases |runs|
  {
    hide SeenFrom, LastWith;
    if runs != [] {
      var run, front := runs[|runs| - 1], runs[..|runs| - 1];
      RunsRemember(hash, front, h);
      SeenMeans(run.batch, hash, SeenAfter(hash, front), run.clock, 0, h);
    }
  }

  /** A hash once seen is never forgotten, whether or not its operation was removed since. */
  lemma {:induction false} NeverForgotten(hash: UserOp -> Hash, runs: seq<Sighting>, more: seq<Sighting>, h: Hash)
    requires FirstSeen(hash, runs, h).Some?
    ensures FirstSeen(hash, runs + more, h) == FirstSeen(hash, runs, h)
    decreases |more|
  {
    hide LastWith;
    if more == [] {
      assert runs + more == runs;
    } else {
      NeverForgotten(hash, runs, more[..|more| - 1], h);
      assert (runs + more)[..|runs + more| - 1] == runs + more[..|more| - 1];
    }
  }

  /** Over every sequence of runs: an operation expires exactly when the first sighting of its hash, in any run since the
      handler was made, is longer ago than the time to live. So one that is removed and sent again under its old hash
      expires in the first batch that holds it. */
  lemma ExpiredOverRuns(hash: UserOp -> Hash, runs: seq<Sighting>, more: seq<Sighting>, batch: seq<UserOp>, ttl: int,
                        clock: nat -> int, i: nat)
    requires i < |batch| && FirstSeen(hash, runs, hash(batch[i])).Some?
    ensures ExpiredFlags(batch, hash, SeenAfter(hash, runs + more), ttl, clock)[i] <==>
            FirstSeen(hash, runs, hash(batch[i])).value + ttl < clock(i)
  {
    hide ExpiredFlags, SeenAfter, FirstSeen, LastWith;
    var h := hash(batch[i]);
    NeverForgotten(hash, runs, more, h);
    RunsRemember(hash, runs + more, h);
    ExpiredMeans(batch, hash, SeenAfter(hash, runs + more), ttl, clock, i);
  }

  class ExpireHandler {
    var seenAt: map<Hash, int>
    const ttl: int

    constructor (ttl: int)
      ensures seenAt == map[] && this.ttl == ttl
    {
      seenAt := map[];
      this.ttl := ttl;
    }

    /** Moves exactly the expired operations, and remembers when each hash was first seen. */
    method DropExpired(ctx: Context, hash: UserOp -> Hash, clock: nat -> int)
      modifies this, ctx
      ensures ctx.Abs() == Swept(old(ctx.Abs()), ExpiredFlags(old(ctx.batch), hash, old(seenAt), ttl, clock))
      ensures seenAt == SeenFrom(old(ctx.batch), hash, old(seenAt), clock, 0)
    {
      hide Marked, Midsweep, Swept;
      ghost var c := ctx.Abs();
      ghost var flags := ExpiredFlags(c.batch, hash, seenAt, ttl, clock);
      MidsweepEnds(c, flags);
      var i := |ctx.batch|;
      while i > 0
        invariant 0 <= i <= |c.batch|
        invariant ctx.Abs() == Midsweep(c, flags, i)
        invariant seenAt == SeenFrom(c.batch, hash, old(seenAt), clock, i)
      {
        i := i - 1;
        MidsweepStep(c, flags, i);
        var h := hash(ctx.batch[i]);
        if h !in seenAt {
          seenAt := seenAt[h := clock(i)];
        } else if seenAt[h] + ttl < clock(i) {
          ctx.MarkOpIndexForRemoval(i);
        }
      }
    }
  }

  function ChangedFlags(batch: seq<UserOp>, intent: UserOp -> bool, changed: UserOp -> Option<bool>)
    : (flags: seq<bool>)
    ensures |flags| == |batch|
  {
    seq(|batch|, i requires 0 <= i < |batch| => !intent(batch[i]) && changed(batch[i]) == Some(true))
  }

  /** The sweep drops an operation exactly when it is no intent and its code changed. */
  lemma ChangedMeans(batch: seq<UserOp>, intent: UserOp -> bool, changed: UserOp -> Option<bool>, op: UserOp)
    ensures var flags := ChangedFlags(batch, intent, changed);
      && (op in Moved(batch, flags) <==> op in batch && changed(op) == Some(true) && !intent(op))
      && (op in Kept(batch, flags) <==> op in batch && (intent(op) || changed(op) != Some(true)))
  {
    hide Moved, Kept;
    SweptSelects(batch, ChangedFlags(batch, intent, changed), op);
  }

  /** Moves exactly the operations, other than intents, that touch a contract whose code changed. A failed lookup ends
      the handler with an error; it succeeds exactly when every lookup it needs does. */
  method CodeHashes(ctx: Context, intent: UserOp -> bool, changed: UserOp -> Option<bool>) returns (ok: bool)
    modifies ctx
    ensures ok <==> forall op :: op in old(ctx.batch) && !intent(op) ==> changed(op).Some?
    ensures ok ==> ctx.Abs() == Swept(old(ctx.Abs()), ChangedFlags(old(ctx.batch), intent, changed))
  {
    hide Marked, Midsweep, Swept;
    ghost var c := ctx.Abs();
    ghost var flags := ChangedFlags(c.batch, intent, changed);
    MidsweepEnds(c, flags);
    var i := |ctx.batch|;
    while i > 0
      invariant 0 <= i <= |c.batch|
      invariant ctx.Abs() == Midsweep(c, flags, i)
      invariant forall j :: i <= j < |c.batch| && !intent(c.batch[j]) ==> changed(c.batch[j]).Some?
    {
      i := i - 1;
      MidsweepStep(c, flags, i);
      var op := ctx.batch[i];
      if intent(op) {
        continue;
      }
      var answer := changed(op);
      if answer.None? {
        return false;
      }
      if answer.value {
        ctx.MarkOpIndexForRemoval(i);
      }
    }
    return true;
  }

  predicate UsesPaymaster(op: UserOp, intent: UserOp -> bool, pm: Address) {
    !intent(op) && op.Paymaster() == pm
  }

  /** What the first `n` operations can charge a paymaster. */
  function Charged(batch: seq<UserOp>, intent: UserOp -> bool, pm: Address, n: nat): nat
    requires n <= |batch|
  {
    if n == 0 then 0 else
    Charged(batch, intent, pm, n - 1) + if UsesPaymaster(batch[n - 1], intent, pm) then batch[n - 1].MaxPrefund() else 0
  }

  /** Operations that take their paymaster's deposit below zero. */
  function OverdrawnFlags(batch: seq<UserOp>, intent: UserOp -> bool, deposit: Address -> Option<int>)
    : (flags: seq<bool>)
    ensures |flags| == |batch|
  {
    seq(|batch|, i requires 0 <= i < |batch| => Overdraws(batch, intent, deposit, i))
  }

  /** The node is asked for the deposit of the operation's paymaster. */
  predicate NeedsDeposit(op: UserOp, intent: UserOp -> bool) {
    !intent(op) && op.Paymaster() != ZERO_ADDRESS
  }

  predicate Overdraws(batch: seq<UserOp>, intent: UserOp -> bool, deposit: Address -> Option<int>, i: nat)
    requires i < |batch|
  {
    var pm := batch[i].Paymaster();
    NeedsDeposit(batch[i], intent) && deposit(pm).Some? && deposit(pm).value < Charged(batch, intent, pm, i + 1)
  }

  /** What the operations can be charged: their figures, the verification limit three times over, at their maximum fee.
      They all name a paymaster. */
  function Prefunds(ops: seq<UserOp>): nat {
    if ops == [] then 0 else
    var op := ops[|ops| - 1];
    Prefunds(ops[..|ops| - 1]) +
      (3 * op.verificationGasLimit + op.preVerificationGas + op.callGasLimit) * op.maxFeePerGas
  }

  /** The operations that are no intents and name a paymaster, in order. */
  function Naming(batch: seq<UserOp>, intent: UserOp -> bool, pm: Address): seq<UserOp> {
    if batch == [] then [] else
    var op := batch[|batch| - 1];
    Naming(batch[..|batch| - 1], intent, pm) + if intent(op) then [] else if op.Paymaster() == pm then [op] else []
  }

  lemma {:induction false} ChargedIs(batch: seq<UserOp>, intent: UserOp -> bool, pm: Address, n: nat)
    requires n <= |batch| && pm != 0
    ensures Charged(batch, intent, pm, n) == Prefunds(Naming(batch[..n], intent, pm))
  {
    hide UserOp.Paymaster;
    if n > 0 {
      ChargedIs(batch, intent, pm, n - 1);
      var op := batch[n - 1];
      assert batch[..n][..n - 1] == batch[..n - 1];
      var front := Naming(batch[..n - 1], intent, pm);
      if UsesPaymaster(op, intent, pm) {
        assert Naming(batch[..n], intent, pm) == front + [op];
        PrefundsMore(front, op);
      } else {
        assert Naming(batch[..n], intent, pm) == front;
      }
    }
  }

  lemma PrefundsMore(ops: seq<UserOp>, op: UserOp)
    requires op.Paymaster() != 0
    ensures Prefunds(ops + [op]) == Prefunds(ops) + op.MaxPrefund()
  {
    hide UserOp.Paymaster;
    assert (ops + [op])[..|ops|] == ops;
    assert op.MaxGasAvailable() == 3 * op.verificationGasLimit + op.preVerificationGas + op.callGasLimit;
    hide UserOp.MaxGasAvailable;
  }

  /** An operation overdraws when it is no intent and names a paymaster whose deposit is below what the operations up to
      it that name the same one can be charged. */
  lemma OverdrawnMeans(batch: seq<UserOp>, intent: UserOp -> bool, deposit: Address -> Option<int>, i: nat)
    requires i < |batch|
    ensures var pm := batch[i].Paymaster();
      OverdrawnFlags(batch, intent, deposit)[i] <==>
      !intent(batch[i]) && pm != 0 && deposit(pm).Some? && deposit(pm).value < Prefunds(Naming(batch[..i + 1], intent, pm))
  {
    hide Charged, Prefunds, Naming, UserOp.Paymaster;
    var pm := batch[i].Paymaster();
    if pm != 0 {
      ChargedIs(batch, intent, pm, i + 1);
    }
  }

  /** Marks the index of every operation that overdraws its paymaster, in climbing order. */
  method PaymasterDeposit(ctx: Context, intent: UserOp -> bool, deposit: Address -> Option<int>) returns (ok: bool)
    modifies ctx
    ensures ok <==> forall op :: op in old(ctx.batch) && NeedsDeposit(op, intent) ==> deposit(op.Paymaster()).Some?
    ensures ok ==> ctx.Abs() == MarkAll(old(ctx.Abs()), Indices(OverdrawnFlags(old(ctx.batch), intent, deposit)))
  {
    hide Marked, MarkAll, UserOp.MaxPrefund, UserOp.Paymaster, Indices;
    var batch := ctx.batch;
    ghost var c := ctx.Abs();
    ghost var flags := OverdrawnFlags(batch, intent, deposit);
    var deps: map<Address, int> := map[];
    MarkNone(c);
    NoIndices(flags);
    for i := 0 to |batch|
      invariant batch == c.batch
      invariant ctx.Abs() == MarkAll(c, Indices(flags[..i]))
      invariant forall j :: 0 <= j < i && NeedsDeposit(batch[j], intent) ==> deposit(batch[j].Paymaster()).Some?
      invariant forall pm :: pm in deps ==> deposit(pm).Some? && deps[pm] == deposit(pm).value - Charged(batch, intent, pm, i)
      invariant forall pm :: pm !in deps && pm != ZERO_ADDRESS ==> Charged(batch, intent, pm, i) == 0
      invariant ZERO_ADDRESS !in deps
    {
      var op := batch[i];
      IndicesMore(flags, i);
      if intent(op) {
        continue;
      }
      var pm := op.Paymaster();
      if pm == ZERO_ADDRESS {
        continue;
      }
      if pm !in deps {
        var dep := deposit(pm);
        if dep.None? {
          assert op in c.batch && NeedsDeposit(op, intent);
          return false;
        }
        deps := deps[pm := dep.value];
      }
      deps := deps[pm := deps[pm] - op.MaxPrefund()];
      assert flags[i] <==> deps[pm] < 0;
      if deps[pm] < 0 {
        MarkAllMore(c, Indices(flags[..i]), i);
        ctx.MarkOpIndexForRemoval(i);
      }
    }
    assert flags[..|flags|] == flags;
    return true;
  }

  lemma NoIndices(flags: seq<bool>)
    ensures Indices(flags[..0]) == []
  {
  }

  lemma IndicesMore(flags: seq<bool>, i: nat)
    requires i < |flags|
    ensures Indices(flags[..i + 1]) == if flags[i] then Indices(flags[..i]) + [i] else Indices(flags[..i])
  {
    assert flags[..i + 1][..i] == flags[..i];
  }

  lemma MarkNone(c: Ctx)
    ensures MarkAll(c, []) == c
  {
  }

  /** The check keeps exactly the operations that do not overdraw if and only if at most one does. */
  lemma DepositCheckIff(c: Ctx, flags: seq<bool>)
    requires |flags| == |c.batch| && forall i, j :: 0 <= i < j < |c.batch| ==> c.batch[i] != c.batch[j]
    ensures MarkAll(c, Indices(flags)).batch == Kept(c.batch, flags) <==> |Indices(flags)| <= 1
  {
    IndicesClimb(flags);
    hide Climbing, Indices;
    assert forall m :: 0 <= m < |Indices(flags)| ==> Indices(flags)[m] in Indices(flags);
    UpwardIsSweepIff(c, Indices(flags));
    assert FlagsOf(Indices(flags), |flags|) == flags;
  }

  /** What a non-intent operation must offer to stay in the batch. `None` stands for a price the node did not give. */
  function Priced(op: UserOp, baseFee: Option<nat>, tip: Option<nat>, gasPrice: Option<nat>): bool {
    if baseFee.Some? && baseFee.value != 0 && tip.Some? then
      op.DynamicGasPrice(baseFee.value) >= baseFee.value + tip.value
    else gasPrice.Some? && op.maxFeePerGas >= gasPrice.value
  }

  /** At a base fee, the operation's price covers base fee plus tip exactly when its maximum fee covers both and its
      priority fee covers the tip. */
  lemma PricedMeans(op: UserOp, baseFee: nat, tip: nat, gasPrice: Option<nat>)
    requires baseFee != 0
    ensures Priced(op, Some(baseFee), Some(tip), gasPrice) <==>
            op.maxFeePerGas >= baseFee + tip && op.maxPriorityFeePerGas >= tip
  {
  }

  function UnderpricedFlags(batch: seq<UserOp>, intent: UserOp -> bool, baseFee: Option<nat>, tip: Option<nat>,
                            gasPrice: Option<nat>): (flags: seq<bool>)
    ensures |flags| == |batch|
  {
    seq(|batch|, i requires 0 <= i < |batch| => !intent(batch[i]) && !Priced(batch[i], baseFee, tip, gasPrice))
  }

  /** The filter keeps an intent always; another operation if its maximum fee covers base fee and tip and its priority
      fee the tip, or, where the node gives no base fee or tip, if its maximum fee covers the gas price. */
  lemma UnderpricedMeans(batch: seq<UserOp>, intent: UserOp -> bool, baseFee: Option<nat>, tip: Option<nat>,
                         gasPrice: Option<nat>, op: UserOp)
    ensures op in Kept(batch, UnderpricedFlags(batch, intent, baseFee, tip, gasPrice)) <==>
            op in batch &&
            (intent(op) ||
             if baseFee.Some? && baseFee != Some(0) && tip.Some? then
               op.maxFeePerGas >= baseFee.value + tip.value && op.maxPriorityFeePerGas >= tip.value
             else gasPrice.Some? && op.maxFeePerGas >= gasPrice.value)
  {
    hide Moved, Kept;
    SweptSelects(batch, UnderpricedFlags(batch, intent, baseFee, tip, gasPrice), op);
  }

  lemma {:induction false} KeptSnoc(ops: seq<UserOp>, flags: seq<bool>)
    requires |ops| == |flags| > 0
    ensures var n := |ops| - 1; Kept(ops, flags) == Kept(ops[..n], flags[..n]) + if flags[n] then [] else [ops[n]]
  {
    var n := |ops| - 1;
    if n > 0 {
      KeptSnoc(ops[1..], flags[1..]);
      assert ops[1..][..n - 1] == ops[..n][1..] && flags[1..][..n - 1] == flags[..n][1..];
    }
  }

  method FilterUnderpriced(ctx: Context, intent: UserOp -> bool, baseFee: Option<nat>, tip: Option<nat>,
                           gasPrice: Option<nat>)
    modifies ctx
    ensures ctx.batch == Kept(old(ctx.batch), UnderpricedFlags(old(ctx.batch), intent, baseFee, tip, gasPrice))
    ensures ctx.pendingRemoval == old(ctx.pendingRemoval)
  {
    var b := [];
    ghost var flags := UnderpricedFlags(ctx.batch, intent, baseFee, tip, gasPrice);
    for i := 0 to |ctx.batch|
      invariant ctx.Abs() == old(ctx.Abs())
      invariant b == Kept(ctx.batch[..i], flags[..i])
    {
      var op := ctx.batch[i];
      KeptSnoc(ctx.batch[..i + 1], flags[..i + 1]);
      assert ctx.batch[..i + 1][..i] == ctx.batch[..i] && flags[..i + 1][..i] == flags[..i];
      if intent(op) {
        b := b + [op];
        continue;
      }
      if baseFee.Some? && baseFee.value != 0 && tip.Some? {
        var gp := baseFee.value + tip.value;
        if op.DynamicGasPrice(baseFee.value) >= gp {
          b := b + [op];
        }
      } else if gasPrice.Some? {
        if op.maxFeePerGas >= gasPrice.value {
          b := b + [op];
        }
      }
    }
    assert ctx.batch[..|ctx.batch|] == ctx.batch && flags[..|flags|] == flags;
    ctx.batch := b;
  }

  /** The gas that an operation counts against the batch limit: its own limits, and the static pre-verification gas in
      place of the one it claims. */
  function BatchGas(op: UserOp, pvg: nat): nat {
    op.MaxGasAvailable() - op.preVerificationGas + pvg
  }

  /** An operation counts its own limits, the verification limit three times over if it names a paymaster, and the static
      pre-verification gas whatever it claims. */
  lemma BatchGasIs(op: UserOp, pvg: nat)
    ensures BatchGas(op, pvg) == op.callGasLimit + pvg + op.verificationGasLimit * if op.Paymaster() == 0 then 1 else 3
  {
    hide UserOp.Paymaster;
  }

  function StaticOf(op: UserOp, sum: Checksum): nat {
    Overhead.CalcPreVerificationGas(op, sum).GetOr(0)
  }

  function TotalGas(ops: seq<UserOp>, sum: Checksum): nat {
    if ops == [] then 0
    else TotalGas(ops[..|ops| - 1], sum) + BatchGas(ops[|ops| - 1], StaticOf(ops[|ops| - 1], sum))
  }

  /** One more operation adds what it counts. */
  lemma TotalMore(ops: seq<UserOp>, op: UserOp, sum: Checksum)
    requires op.Valid()
    ensures Overhead.CalcPreVerificationGas(op, sum).Ok? && TotalGas([], sum) == 0
    ensures TotalGas(ops + [op], sum) ==
            TotalGas(ops, sum) + op.callGasLimit + Overhead.CalcPreVerificationGas(op, sum).value
            + op.verificationGasLimit * if op.Paymaster() == 0 then 1 else 3
  {
    hide Overhead.CalcPreVerificationGas, UserOp.Paymaster, BatchGas;
    Overhead.PreVerificationGasPositive(op, op, sum);
    assert (ops + [op])[..|ops|] == ops;
    BatchGasIs(op, StaticOf(op, sum));
  }

  /** `n` operations fit under the limit and one more would not. */
  ghost predicate FitsExactly(ops: seq<UserOp>, n: nat, limit: int, sum: Checksum) {
    && n <= |ops|
    && (n > 0 ==> TotalGas(ops[..n], sum) < limit)
    && (n < |ops| ==> TotalGas(ops[..n + 1], sum) >= limit)
  }

  /** Keeps the longest prefix whose total stays below the limit. It can fail only on an operation that is not valid,
      and then leaves the batch as it was. */
  method MaintainGasLimit(ctx: Context, limit: int, sum: Checksum) returns (ok: bool)
    modifies ctx
    ensures ctx.pendingRemoval == old(ctx.pendingRemoval)
    ensures ok ==> ctx.batch <= old(ctx.batch) && FitsExactly(old(ctx.batch), |ctx.batch|, limit, sum)
    ensures !ok ==> ctx.batch == old(ctx.batch) && exists op :: op in ctx.batch && !op.Valid()
  {
    hide Overhead.CalcPreVerificationGas, BatchGas;
    var bat := [];
    var total := 0;
    var i := 0;
    assert ctx.batch[..0] == [];
    while i < |ctx.batch|
      invariant i <= |ctx.batch| && ctx.Abs() == old(ctx.Abs())
      invariant bat == ctx.batch[..i] && total == TotalGas(bat, sum)
      invariant i > 0 ==> total < limit
    {
      var op := ctx.batch[i];
      var pvg := Overhead.CalcPreVerificationGas(op, sum);
      if pvg.Err? {
        if op.Valid() {
          Overhead.PreVerificationGasStable(op, op, sum);
        }
        return false;
      }
      assert ctx.batch[..i + 1][..i] == ctx.batch[..i];
      total := total + BatchGas(op, pvg.value);
      if total >= limit {
        break;
      }
      bat := bat + [op];
      i := i + 1;
    }
    ctx.batch := bat;
    return true;
  }

  lemma {:induction false} TotalGrows(ops: seq<UserOp>, n: nat, m: nat, sum: Checksum)
    requires n <= m <= |ops|
    ensures TotalGas(ops[..n], sum) <= TotalGas(ops[..m], sum)
    decreases m
  {
    hide BatchGas, StaticOf;
    if n < m {
      TotalGrows(ops, n, m - 1, sum);
      assert ops[..m][..m - 1] == ops[..m - 1];
    }
  }

  /** The prefix that fits is unique. */
  lemma FitsUnique(ops: seq<UserOp>, n: nat, m: nat, limit: int, sum: Checksum)
    requires FitsExactly(ops, n, limit, sum) && FitsExactly(ops, m, limit, sum)
    ensures n == m
  {
    hide TotalGas;
    if n < m {
      TotalGrows(ops, n + 1, m, sum);
    } else if m < n {
      TotalGrows(ops, m + 1, n, sum);
    }
  }
}
