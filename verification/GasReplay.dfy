/** What the tracer's gas limit is for: replaying the traced frames under the rule that a call can forward at
    most all but one 64th of the gas that remains (EIP-150, section "Specification"). */
module GasReplay {
  import opened Wrappers
  import opened ExecutionTracer

  // ---------------------------------------------------------------------------------------------
  // The requirement of a call tree
  // ---------------------------------------------------------------------------------------------

  function UsedBelow(b: Body): nat {
    match b
    case Halt(_) => 0
    case Plain(_, rest) => UsedBelow(rest)
    case Call(_, _, end, rest) => end.used + UsedBelow(rest)
    case Bare(_, end, rest) => end.used + UsedBelow(rest)
  }

  function RequiredBelow(b: Body): int
    decreases b, 0
  {
    match b
    case Halt(_) => 0
    case Plain(_, rest) => RequiredBelow(rest)
    case Call(_, child, end, rest) => Required(child, end.used) + RequiredBelow(rest)
    case Bare(_, end, rest) => end.used + RequiredBelow(rest)
  }

  /** A frame's own gas, plus what its callees require scaled up by 64/63. */
  function Required(b: Body, used: nat): int
    decreases b, 1
  {
    used - UsedBelow(b) + AllButOne64th(RequiredBelow(b))
  }

  /** Every callee executes steps. */
  predicate NoBare(b: Body) {
    match b
    case Halt(_) => true
    case Plain(_, rest) => NoBare(rest)
    case Call(_, child, _, rest) => NoBare(child) && NoBare(rest)
    case Bare(_, _, _) => false
  }

  /** Callees that execute no step use no gas: accounts without code, but no precompile. */
  predicate BareIsFree(b: Body) {
    match b
    case Halt(_) => true
    case Plain(_, rest) => BareIsFree(rest)
    case Call(_, child, _, rest) => BareIsFree(child) && BareIsFree(rest)
    case Bare(_, end, rest) => end.used == 0 && BareIsFree(rest)
  }

  lemma {:induction false} BookBodyIsRequired(b: Body, at: Books)
    requires NoBare(b)
    ensures BookBody(b, at) == at.(nested := at.nested.Plus(Gas(UsedBelow(b), RequiredBelow(b))))
    decreases b, 0
  {
    hide Settle;
    match b
    case Halt(_) =>
    case Plain(_, rest) => BookBodyIsRequired(rest, at);
    case Call(_, child, end, rest) =>
      BookedIsRequired(child, end);
      BookBodyIsRequired(rest, at.(nested := at.nested.Plus(Booked(child, end))));
  }

  /** Where every callee executes steps, the table books exactly the requirement of the tree. */
  lemma {:induction false} BookedIsRequired(b: Body, end: End)
    requires NoBare(b)
    ensures Booked(b, end) == Gas(end.used, Required(b, end.used))
    decreases b, 1
  {
    hide BookBody, UsedBelow, RequiredBelow, AllButOne64th;
    BookBodyIsRequired(b, Books(ZERO, ZERO));
  }

  lemma CeilingSplits(a: int, b: int)
    ensures AllButOne64th(a + b) <= AllButOne64th(a) + AllButOne64th(b)
  {
  }

  lemma CeilingGrows(a: int, b: int)
    requires a <= b
    ensures AllButOne64th(a) <= AllButOne64th(b)
  {
  }

  lemma CeilingOfZero()
    ensures AllButOne64th(0) == 0
  {
  }

  /** The gas that a body's bookings will have settled to once the frame exits. */
  function Settled(at: Books): int {
    at.own.required - at.nested.used + AllButOne64th(at.nested.required)
  }

  lemma {:induction false} BookBodyCovers(b: Body, at: Books)
    requires BareIsFree(b)
    ensures var r := BookBody(b, at);
      && r.own.used == at.own.used
      && Settled(r) >= at.own.required - at.nested.used - UsedBelow(b)
                       + AllButOne64th(at.nested.required + RequiredBelow(b))
    decreases b, 0
  {
    hide AllButOne64th, Booked, Required;
    match b
    case Halt(_) =>
    case Plain(_, rest) => BookBodyCovers(rest, at);
    case Call(_, child, end, rest) =>
      BookedCovers(child, end);
      var nested := at.nested.Plus(Booked(child, end));
      BookBodyCovers(rest, at.(nested := nested));
      CeilingGrows(at.nested.required + RequiredBelow(b), nested.required + RequiredBelow(rest));
    case Bare(_, end, rest) =>
      CeilingSplits(at.nested.required, RequiredBelow(rest));
      BookBodyCovers(rest, Books(at.own.Plus(Settle(end.used, at.nested)), ZERO));
  }

  /** Gas-free stepless callees can only raise what the table books. */
  lemma {:induction false} BookedCovers(b: Body, end: End)
    requires BareIsFree(b)
    ensures Booked(b, end).used == end.used
    ensures Booked(b, end).required >= Required(b, end.used)
    decreases b, 1
  {
    hide BookBody, UsedBelow, RequiredBelow, AllButOne64th;
    BookBodyCovers(b, Books(ZERO, ZERO));
  }

  // ---------------------------------------------------------------------------------------------
  // Replay
  // ---------------------------------------------------------------------------------------------

  /** The most that a call can pass on of the gas left. */
  function Forwarded(left: nat): (r: nat)
    ensures r <= left
  {
    left - left / 64
  }

  /** Runs a body on `gas`, forwarding all but one 64th of what remains at every call. `None` when it, or a
      frame below it, runs out of gas; otherwise the gas left. */
  function Replay(b: Body, gas: nat): (r: Option<nat>)
    ensures r.Some? ==> r.value <= gas
    decreases b, 1
  {
    if gas < b.op.burn then None else
    var left := gas - b.op.burn;
    match b
    case Halt(_) => Some(left)
    case Plain(_, rest) => Replay(rest, left)
    case Call(_, _, _, _) => ReplayCall(b, left)
    case Bare(_, end, rest) =>
      if Forwarded(left) < end.used then None else Replay(rest, left - end.used)
  }

  /** A call on the gas left after its own step: the callee, then the rest of the body. */
  function ReplayCall(b: Body, left: nat): (r: Option<nat>)
    requires b.Call?
    ensures r.Some? ==> r.value <= left
    decreases b, 0
  {
    var unspent := Replay(b.child, Forwarded(left));
    if unspent.None? then None else Replay(b.rest, left - (Forwarded(left) - unspent.value))
  }

  /** The gas a body's own steps take. */
  function Own(b: Body): nat {
    b.op.burn +
    match b
    case Halt(_) => 0
    case Plain(_, rest) => Own(rest)
    case Call(_, _, _, rest) => Own(rest)
    case Bare(_, _, rest) => Own(rest)
  }

  /** Each frame reports the gas its steps and its callees took. */
  predicate Metered(b: Body) {
    match b
    case Halt(_) => true
    case Plain(_, rest) => Metered(rest)
    case Call(_, child, end, rest) => end.used == Own(child) + UsedBelow(child) && Metered(child) && Metered(rest)
    case Bare(_, _, rest) => Metered(rest)
  }

  lemma {:induction false} RequiredBelowCoversUsed(b: Body)
    ensures RequiredBelow(b) >= UsedBelow(b)
    decreases b, 0
  {
    match b
    case Halt(_) =>
    case Plain(_, rest) => RequiredBelowCoversUsed(rest);
    case Call(_, child, end, rest) =>
      RequiredCoversUsed(child, end.used);
      RequiredBelowCoversUsed(rest);
    case Bare(_, _, rest) => RequiredBelowCoversUsed(rest);
  }

  lemma {:induction false} RequiredCoversUsed(b: Body, used: nat)
    ensures Required(b, used) >= used
    decreases b, 1
  {
    hide RequiredBelow, UsedBelow;
    RequiredBelowCoversUsed(b);
  }

  // ---------------------------------------------------------------------------------------------
  // The least gas
  // ---------------------------------------------------------------------------------------------

  /** The least gas of which all but one 64th is at least `r`. */
  function LeastBefore(r: nat): nat {
    if r == 0 then 0 else r + (r - 1) / 63
  }

  function Max(a: nat, b: nat): nat {
    if a < b then b else a
  }

  /** The least gas on which a body replays. At each call enough must be left to forward what the callee needs, and
      enough for the rest of the body after the callee took what it uses. */
  function Need(b: Body): nat {
    b.op.burn +
    match b
    case Halt(_) => 0
    case Plain(_, rest) => Need(rest)
    case Call(_, child, end, rest) => Max(LeastBefore(Need(child)), end.used + Need(rest))
    case Bare(_, end, rest) => Max(LeastBefore(end.used), end.used + Need(rest))
  }

  lemma LeastForwards(r: nat, left: nat)
    ensures Forwarded(left) >= r <==> left >= LeastBefore(r)
  {
  }

  lemma ReplayOfCall(b: Body, left: nat)
    requires b.Call?
    ensures Replay(b, b.op.burn + left) == ReplayCall(b, left)
  {
    hide Forwarded, ReplayCall;
  }

  /** What is left for the rest of a body after a call, when the callee uses what its caller reports. */
  lemma ReplayAfterCall(b: Body, left: nat)
    requires b.Call?
    requires var r := Replay(b.child, Forwarded(left)); r.Some? ==> Forwarded(left) - r.value == b.end.used
    ensures Replay(b, b.op.burn + left) ==
            if Replay(b.child, Forwarded(left)).None? then None else Replay(b.rest, left - b.end.used)
  {
    hide Forwarded, Replay;
    ReplayOfCall(b, left);
  }

  lemma NeedOfCall(b: Body)
    requires b.Call?
    ensures Need(b) == b.op.burn + Max(LeastBefore(Need(b.child)), b.end.used + Need(b.rest))
    ensures UsedBelow(b) == b.end.used + UsedBelow(b.rest)
  {
    hide LeastBefore;
  }

  lemma CallReplays(b: Body, left: nat)
    requires b.Call? && b.end.used == Own(b.child) + UsedBelow(b.child)
    requires var f := Forwarded(left);
      Replay(b.child, f) == if f >= Need(b.child) then Some(f - Own(b.child) - UsedBelow(b.child)) else None
    requires left >= b.end.used ==>
      var rest := left - b.end.used;
      Replay(b.rest, rest) == if rest >= Need(b.rest) then Some(rest - Own(b.rest) - UsedBelow(b.rest)) else None
    ensures Replay(b, b.op.burn + left) == if b.op.burn + left >= Need(b) then Some(left - Own(b.rest) - UsedBelow(b)) else None
  {
    hide Forwarded, LeastBefore, Own, Replay, Need, UsedBelow;
    var f := Forwarded(left);
    ReplayAfterCall(b, left);
    LeastForwards(Need(b.child), left);
    NeedOfCall(b);
    if f >= Need(b.child) {
      assert Replay(b.child, f).Some?;
      assert f >= b.end.used;
    }
  }

  lemma BareReplays(b: Body, left: nat)
    requires b.Bare?
    requires left >= b.end.used ==>
      var rest := left - b.end.used;
      Replay(b.rest, rest) == if rest >= Need(b.rest) then Some(rest - Own(b.rest) - UsedBelow(b.rest)) else None
    ensures Replay(b, b.op.burn + left) == if b.op.burn + left >= Need(b) then Some(left - Own(b.rest) - UsedBelow(b)) else None
  {
    hide Forwarded, LeastBefore, Own;
    LeastForwards(b.end.used, left);
  }

  /** A body replays exactly on the gas it needs or more, and then leaves what its frames did not use. */
  lemma {:induction false} ReplaysExactly(b: Body, gas: nat)
    requires Metered(b)
    ensures Replay(b, gas) == if gas >= Need(b) then Some(gas - Own(b) - UsedBelow(b)) else None
  {
    hide LeastBefore, Forwarded, Max;
    if gas >= b.op.burn {
      var left := gas - b.op.burn;
      match b
      case Halt(_) =>
      case Plain(_, rest) => ReplaysExactly(rest, left);
      case Call(_, child, end, rest) =>
        hide Replay, Need;
        ReplaysExactly(child, Forwarded(left));
        if left >= end.used {
          ReplaysExactly(rest, left - end.used);
        }
        CallReplays(b, left);
        assert b.op.burn + left == gas;
      case Bare(_, end, rest) =>
        hide Replay, Need;
        if left >= end.used {
          ReplaysExactly(rest, left - end.used);
        }
        BareReplays(b, left);
        assert b.op.burn + left == gas;
    }
  }

  /** What a callee that requires `r` and uses no more leaves for the callees after it. */
  lemma RequiredCoversCall(need: nat, r: int, used: nat, later: int)
    requires need <= r && used <= r && later >= 0
    ensures LeastBefore(need) <= AllButOne64th(r + later)
    ensures used + AllButOne64th(later) <= AllButOne64th(r + later)
  {
  }

  lemma {:induction false} BodyNeeds(b: Body)
    requires Metered(b)
    ensures Need(b) <= Own(b) + AllButOne64th(RequiredBelow(b))
    decreases b, 0
  {
    hide AllButOne64th, LeastBefore, Required;
    CeilingOfZero();
    match b
    case Halt(_) =>
    case Plain(_, rest) => BodyNeeds(rest);
    case Call(_, child, end, rest) =>
      RequiredCoversUsed(child, end.used);
      RequiredBelowCoversUsed(rest);
      RequiredCoversNeed(child, end.used);
      BodyNeeds(rest);
      RequiredCoversCall(Need(child), Required(child, end.used), end.used, RequiredBelow(rest));
    case Bare(_, end, rest) =>
      RequiredBelowCoversUsed(rest);
      BodyNeeds(rest);
      RequiredCoversCall(end.used, end.used, end.used, RequiredBelow(rest));
  }

  /** The requirement of a call tree is never below its need. */
  lemma {:induction false} RequiredCoversNeed(b: Body, used: nat)
    requires Metered(b) && used == Own(b) + UsedBelow(b)
    ensures Need(b) <= Required(b, used)
    decreases b, 1
  {
    hide AllButOne64th, Need, RequiredBelow, UsedBelow, Own, Metered;
    BodyNeeds(b);
  }

  /** A frame given its requirement runs to its end, and so does every frame below it. */
  lemma FrameReplays(b: Body, used: nat, gas: nat)
    requires Metered(b) && used == Own(b) + UsedBelow(b)
    requires gas >= Required(b, used)
    ensures Replay(b, gas) == Some(gas - used)
  {
    hide Required, Replay, Need, UsedBelow, Own, Metered;
    RequiredCoversNeed(b, used);
    ReplaysExactly(b, gas);
  }

  // ---------------------------------------------------------------------------------------------
  // The limit of a whole trace
  // ---------------------------------------------------------------------------------------------

  /** The frames that the entry point opens during the execution phase report the gas they took. */
  predicate ExecutionMetered(b: Body, marker: nat) {
    var m := if b.op.Number() then marker + 1 else marker;
    match b
    case Halt(_) => true
    case Plain(_, rest) => ExecutionMetered(rest, m)
    case Call(_, child, end, rest) =>
      && (m == EXECUTION_MARKER ==> Metered(child) && end.used == Own(child) + UsedBelow(child))
      && ExecutionMetered(rest, m)
    case Bare(_, _, rest) => ExecutionMetered(rest, m)
  }

  /** Only direct calls to precompiles use gas: no stepless callee below a frame that this one calls does. */
  predicate FreeBelow(b: Body) {
    match b
    case Halt(_) => true
    case Plain(_, rest) => FreeBelow(rest)
    case Call(_, child, _, rest) => BareIsFree(child) && FreeBelow(rest)
    case Bare(_, _, rest) => FreeBelow(rest)
  }

  /** Those frames call gas-using precompiles at most directly. */
  predicate ExecutionFreeBelow(b: Body, marker: nat) {
    var m := if b.op.Number() then marker + 1 else marker;
    match b
    case Halt(_) => true
    case Plain(_, rest) => ExecutionFreeBelow(rest, m)
    case Call(_, child, _, rest) => (m == EXECUTION_MARKER ==> FreeBelow(child)) && ExecutionFreeBelow(rest, m)
    case Bare(_, _, rest) => ExecutionFreeBelow(rest, m)
  }

  /** Each of those frames runs to its end on `gas`. */
  predicate ExecutionReplays(b: Body, marker: nat, gas: nat) {
    var m := if b.op.Number() then marker + 1 else marker;
    match b
    case Halt(_) => true
    case Plain(_, rest) => ExecutionReplays(rest, m, gas)
    case Call(_, child, end, rest) =>
      && (m == EXECUTION_MARKER ==> gas >= end.used && Replay(child, gas) == Some(gas - end.used))
      && ExecutionReplays(rest, m, gas)
    case Bare(_, _, rest) => ExecutionReplays(rest, m, gas)
  }

  /** The largest need among those frames. */
  function ExecutionNeed(b: Body, marker: nat): nat {
    var m := if b.op.Number() then marker + 1 else marker;
    match b
    case Halt(_) => 0
    case Plain(_, rest) => ExecutionNeed(rest, m)
    case Call(_, child, _, rest) => Max(if m == EXECUTION_MARKER then Need(child) else 0, ExecutionNeed(rest, m))
    case Bare(_, _, rest) => ExecutionNeed(rest, m)
  }

  lemma {:induction false} ExecutionReplaysExactly(b: Body, marker: nat, gas: nat)
    requires ExecutionMetered(b, marker)
    ensures ExecutionReplays(b, marker, gas) <==> gas >= ExecutionNeed(b, marker)
  {
    hide Replay, Metered, Own, UsedBelow, Need;
    var m := if b.op.Number() then marker + 1 else marker;
    match b
    case Halt(_) =>
    case Plain(_, rest) => ExecutionReplaysExactly(rest, m, gas);
    case Bare(_, _, rest) => ExecutionReplaysExactly(rest, m, gas);
    case Call(_, child, end, rest) =>
      ExecutionReplaysExactly(rest, m, gas);
      if m == EXECUTION_MARKER {
        ReplaysExactly(child, gas);
        if gas >= Need(child) {
          LeavesWhatIsLeft(child, gas);
        }
      }
  }

  lemma LeavesWhatIsLeft(b: Body, gas: nat)
    requires Metered(b) && gas >= Need(b)
    ensures gas >= Own(b) + UsedBelow(b)
  {
    hide Metered, Own, UsedBelow, Need;
    ReplaysExactly(b, gas);
  }

  // No booking is below the gas it is for.

  predicate Covered(g: Gas) {
    0 <= g.used <= g.required
  }

  lemma SettleCovers(used: nat, nested: Gas)
    requires Covered(nested)
    ensures Covered(Settle(used, nested))
  {
  }

  lemma {:induction false} BookBodyCovered(b: Body, at: Books)
    requires Covered(at.own) && Covered(at.nested)
    ensures Covered(BookBody(b, at).own) && Covered(BookBody(b, at).nested)
    decreases b, 0
  {
    hide Settle, Booked;
    match b
    case Halt(_) =>
    case Plain(_, rest) => BookBodyCovered(rest, at);
    case Call(_, child, end, rest) =>
      BookedCovered(child, end);
      BookBodyCovered(rest, at.(nested := at.nested.Plus(Booked(child, end))));
    case Bare(_, end, rest) =>
      SettleCovers(end.used, at.nested);
      BookBodyCovered(rest, Books(at.own.Plus(Settle(end.used, at.nested)), ZERO));
  }

  lemma {:induction false} BookedCovered(b: Body, end: End)
    ensures Covered(Booked(b, end))
    decreases b, 1
  {
    hide Settle, BookBody;
    BookBodyCovered(b, Books(ZERO, ZERO));
    SettleCovers(end.used, BookBody(b, Books(ZERO, ZERO)).nested);
  }

  lemma {:induction false} TopBookedCovered(b: Body, marker: nat)
    ensures Covered(TopBooked(b, marker))
  {
    hide Booked;
    var m := if b.op.Number() then marker + 1 else marker;
    match b
    case Halt(_) =>
    case Plain(_, rest) => TopBookedCovered(rest, m);
    case Bare(_, _, rest) => TopBookedCovered(rest, m);
    case Call(_, child, end, rest) =>
      BookedCovered(child, end);
      TopBookedCovered(rest, m);
  }

  /** The limit that the tracer reports for a trace. */
  function Limit(top: Body): nat
  {
    var t := Run(INITIAL, Events(top, 1));
    if t.Some? && t.value.executionGasLimit >= 0 then t.value.executionGasLimit else 0
  }

  lemma LimitIsBooked(top: Body)
    ensures var t := Run(INITIAL, Events(top, 1)); t.Some? && t.value.executionGasLimit >= 0
    ensures Limit(top) == TopBooked(top, 0).required
  {
    hide Run, Events, TopBooked, RunBody;
    assert Events(top, 1) + [] == Events(top, 1);
    RunBodyIsRun(INITIAL, top, 1, []);
    TopRun(top, INITIAL);
    RunToEnd(RunBody(INITIAL, top, 1).value);
    TopBookedCovered(top, 0);
  }


  /** For every trace, with or without precompiles: the reported limit replays each execution frame if and only if it
      is at least what the neediest of them needs. */
  lemma LimitReplaysIff(top: Body)
    requires ExecutionMetered(top, 0)
    ensures ExecutionReplays(top, 0, Limit(top)) <==> TopBooked(top, 0).required >= ExecutionNeed(top, 0)
  {
    hide ExecutionReplays, ExecutionNeed, ExecutionMetered, TopBooked, Limit;
    LimitIsBooked(top);
    ExecutionReplaysExactly(top, 0, Limit(top));
  }

  lemma CeilingDoubles(u: nat)
    ensures AllButOne64th(u) <= 2 * u
  {
  }

  /** A precompile called directly is booked twice at its caller's depth, which makes up for the 64/63 it lacks. */
  lemma {:induction false} DirectBodyCovers(b: Body, at: Books)
    requires FreeBelow(b)
    ensures Settled(BookBody(b, at)) >= at.own.required - at.nested.used - UsedBelow(b)
                                        + AllButOne64th(at.nested.required + RequiredBelow(b))
    decreases b
  {
    hide AllButOne64th, Booked, Required;
    match b
    case Halt(_) =>
    case Plain(_, rest) => DirectBodyCovers(rest, at);
    case Call(_, child, end, rest) =>
      BookedCovers(child, end);
      var nested := at.nested.Plus(Booked(child, end));
      DirectBodyCovers(rest, at.(nested := nested));
      CeilingGrows(at.nested.required + RequiredBelow(b), nested.required + RequiredBelow(rest));
    case Bare(_, end, rest) =>
      CeilingDoubles(end.used);
      CeilingSplits(at.nested.required, end.used + RequiredBelow(rest));
      CeilingSplits(end.used, RequiredBelow(rest));
      DirectBodyCovers(rest, Books(at.own.Plus(Settle(end.used, at.nested)), ZERO));
  }

  lemma DirectCovers(b: Body, end: End)
    requires FreeBelow(b)
    ensures Booked(b, end).required >= Required(b, end.used)
  {
    hide BookBody, UsedBelow, RequiredBelow, AllButOne64th;
    DirectBodyCovers(b, Books(ZERO, ZERO));
  }

  lemma {:induction false} BookedCoversNeed(b: Body, marker: nat)
    requires ExecutionMetered(b, marker) && ExecutionFreeBelow(b, marker)
    ensures TopBooked(b, marker).required >= ExecutionNeed(b, marker)
  {
    hide Booked, Required, Need, Metered, FreeBelow, Own, UsedBelow;
    var m := if b.op.Number() then marker + 1 else marker;
    match b
    case Halt(_) =>
    case Plain(_, rest) => BookedCoversNeed(rest, m);
    case Bare(_, _, rest) => BookedCoversNeed(rest, m);
    case Call(_, child, end, rest) =>
      BookedCoversNeed(rest, m);
      BookedCovered(child, end);
      TopBookedCovered(rest, m);
      if m == EXECUTION_MARKER {
        DirectCovers(child, end);
        RequiredCoversNeed(child, end.used);
      }
  }

  /** Where precompiles are called only by the execution frames themselves, the reported limit always suffices. */
  lemma LimitReplays(top: Body)
    requires ExecutionMetered(top, 0) && ExecutionFreeBelow(top, 0)
    ensures ExecutionReplays(top, 0, Limit(top))
  {
    hide ExecutionReplays, ExecutionNeed, ExecutionMetered, ExecutionFreeBelow, TopBooked, Limit;
    LimitReplaysIff(top);
    BookedCoversNeed(top, 0);
  }

  // ---------------------------------------------------------------------------------------------
  // Precompiles: stepless callees that use gas
  // ---------------------------------------------------------------------------------------------

  const NOP := Op("JUMPDEST", 1, 1, 0, [], "")
  const MARK := Op("NUMBER", 1, 1, 0, [], "")

  /** A frame that does nothing but call a precompile using `gas`, below a frame that does nothing but call it. */
  function PrecompileTwoDown(gas: nat): Body {
    var end := End(gas, false, "");
    Call(NOP, Bare(NOP, end, Halt(NOP)), end, Halt(NOP))
  }

  /** A trace whose execution phase is such a frame. */
  function PrecompileTrace(gas: nat): Body {
    Plain(MARK, Plain(MARK, Call(MARK, PrecompileTwoDown(gas), End(gas, false, ""), Halt(NOP))))
  }

  lemma HaltFacts()
    ensures Own(Halt(NOP)) == 0 && UsedBelow(Halt(NOP)) == 0 && Need(Halt(NOP)) == 0 && Metered(Halt(NOP))
    ensures forall at :: BookBody(Halt(NOP), at) == at
  {
  }

  /** What the precompile and its caller need, and what the table books for them: the precompile counts twice, at its
      caller's depth, and one level of 64/63 is lost. */
  lemma PrecompileFacts(gas: nat)
    ensures var b := PrecompileTwoDown(gas);
      && Metered(b) && gas == Own(b) + UsedBelow(b)
      && Need(b) == Max(LeastBefore(Max(LeastBefore(gas), gas)), gas)
      && Booked(b, End(gas, false, "")).required == AllButOne64th(2 * gas) - gas
  {
    hide AllButOne64th, LeastBefore, Max;
    HaltFacts();
    var end := End(gas, false, "");
    var inner := Bare(NOP, end, Halt(NOP));
    assert Metered(inner) && Own(inner) == 0 && UsedBelow(inner) == gas;
    assert Need(inner) == Max(LeastBefore(gas), gas);
    PrecompileBooked(gas);
  }

  lemma PrecompileBooked(gas: nat)
    ensures Booked(PrecompileTwoDown(gas), End(gas, false, "")).required == AllButOne64th(2 * gas) - gas
  {
    hide AllButOne64th, Booked, BookBody;
    CeilingOfZero();
    HaltFacts();
    var end := End(gas, false, "");
    var inner := Bare(NOP, end, Halt(NOP));
    BookedUnfolds(inner, end);
    BookBodyUnfolds(inner, Books(ZERO, ZERO));
    BookedUnfolds(PrecompileTwoDown(gas), end);
    BookBodyUnfolds(PrecompileTwoDown(gas), Books(ZERO, ZERO));
  }

  lemma BookedUnfolds(b: Body, end: End)
    ensures Booked(b, end) ==
            var r := BookBody(b, Books(ZERO, ZERO)); r.own.Plus(Settle(end.used, r.nested))
  {
  }

  lemma BookBodyUnfolds(b: Body, at: Books)
    ensures b.Call? ==> BookBody(b, at) == BookBody(b.rest, at.(nested := at.nested.Plus(Booked(b.child, b.end))))
    ensures b.Bare? ==> BookBody(b, at) == BookBody(b.rest, Books(at.own.Plus(Settle(b.end.used, at.nested)), ZERO))
  {
    hide Booked, Settle;
  }

  /** When a double count of the precompile makes up for the level that is lost. */
  predicate DoubleCountSuffices(gas: nat) {
    gas == 0 || (gas - 1) / 63 + (gas - 1) % 63 < if (gas - 1) % 63 <= 30 then 126 else 189
  }

  lemma LeastOnce(q: nat, r: nat)
    requires r < 63
    ensures LeastBefore(63 * q + r + 1) == 64 * q + r + 1
  {
  }

  lemma LeastTwice(q: nat, r: nat)
    ensures LeastBefore(64 * q + r + 1) == 65 * q + r + 1 + (q + r) / 63
  {
    assert (64 * q + r) / 63 == q + (q + r) / 63;
  }

  lemma BookedTwice(q: nat, r: nat)
    ensures AllButOne64th(2 * (63 * q + r + 1)) == 128 * q + 2 * r + 2 + (2 * r + 64) / 63
  {
  }

  lemma TwoCarries(q: nat, r: nat)
    requires r < 63
    ensures (q + r) / 63 <= (2 * r + 64) / 63 <==> q + r < if r <= 30 then 126 else 189
  {
  }

  lemma DoubleCountAt(q: nat, r: nat)
    requires r < 63
    ensures var gas := 63 * q + r + 1;
      AllButOne64th(2 * gas) - gas >= Max(LeastBefore(Max(LeastBefore(gas), gas)), gas) <==>
      q + r < if r <= 30 then 126 else 189
  {
    hide AllButOne64th, LeastBefore;
    LeastOnce(q, r);
    LeastTwice(q, r);
    BookedTwice(q, r);
    TwoCarries(q, r);
  }

  lemma DoubleCount(gas: nat)
    ensures AllButOne64th(2 * gas) - gas >= Max(LeastBefore(Max(LeastBefore(gas), gas)), gas) <==> DoubleCountSuffices(gas)
  {
    if gas > 0 {
      hide AllButOne64th, LeastBefore, Max;
      DoubleCountAt((gas - 1) / 63, (gas - 1) % 63);
    }
  }

  /** Such a trace replays on its own limit if and only if the double count suffices: always up to 6078 gas and never
      from 9924 gas on. */
  lemma PrecompileUnderbooked(gas: nat)
    ensures var top := PrecompileTrace(gas);
      ExecutionMetered(top, 0) && (ExecutionReplays(top, 0, Limit(top)) <==> DoubleCountSuffices(gas))
    ensures gas <= 6078 ==> DoubleCountSuffices(gas)
    ensures gas >= 9924 ==> !DoubleCountSuffices(gas)
  {
    hide Booked, Need, Metered, Own, UsedBelow, PrecompileTwoDown, AllButOne64th, LeastBefore, ExecutionReplays, Limit;
    var top := PrecompileTrace(gas);
    PrecompileFacts(gas);
    DoubleCount(gas);
    TraceFacts(gas);
    LimitReplaysIff(top);
  }

  lemma TraceFacts(gas: nat)
    requires var b := PrecompileTwoDown(gas); Metered(b) && gas == Own(b) + UsedBelow(b)
    ensures var top := PrecompileTrace(gas);
      && ExecutionMetered(top, 0)
      && TopBooked(top, 0).required == Booked(PrecompileTwoDown(gas), End(gas, false, "")).required
      && ExecutionNeed(top, 0) == Need(PrecompileTwoDown(gas))
  {
    hide Booked, Need, Metered, Own, UsedBelow, PrecompileTwoDown;
    var last := Call(MARK, PrecompileTwoDown(gas), End(gas, false, ""), Halt(NOP));
    assert TopBooked(Halt(NOP), 3) == ZERO && ExecutionNeed(Halt(NOP), 3) == 0 && ExecutionMetered(Halt(NOP), 3);
    assert TopBooked(last, 2) == Booked(PrecompileTwoDown(gas), End(gas, false, ""));
    assert ExecutionNeed(last, 2) == Need(PrecompileTwoDown(gas)) && ExecutionMetered(last, 2);
    var middle := Plain(MARK, last);
    assert TopBooked(middle, 1) == TopBooked(last, 2) && ExecutionNeed(middle, 1) == ExecutionNeed(last, 2);
    assert ExecutionMetered(middle, 1);
  }
}
