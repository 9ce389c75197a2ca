/** The verdict on a raw trace: what the validation tracer collects, judged by the rules, is the rules applied to the
    declarative reading of the trace. */
module Verdict {
  import opened Wrappers
  import opened Text
  import opened StorageRules
  import opened TraceValidation
  import opened Collector
  import CallStack

  // ---------------------------------------------------------------------------------------------
  // From a collected level to the level that is judged
  // ---------------------------------------------------------------------------------------------

  /** The slots of a contract that are counted as read or as written. */
  function SlotsIn(access: map<Place, nat>, write: bool, a: Address): set<Slot> {
    set p | p in access && p.write == write && p.contract == a :: p.slot
  }

  /** Slot counts grouped by contract. */
  function Grouped(access: map<Place, nat>): map<Address, Access> {
    map a | a in (set p | p in access :: p.contract) :: Access(SlotsIn(access, false, a), SlotsIn(access, true, a))
  }

  function InfoOf(l: Level): LevelInfo {
    LevelInfo(l.opcodes, Grouped(l.access), l.contractSize.Keys)
  }

  // ---------------------------------------------------------------------------------------------
  // The level that a trace means
  // ---------------------------------------------------------------------------------------------

  /** Step `i` has its opcode counted in level `l`: at once, or for GAS because no call follows. */
  predicate Counted(steps: seq<Step>, i: nat, l: nat) {
    i < |steps| && (OpCharged(steps, i, l, steps[i].opcode) || GasCharged(steps, i, l))
  }

  function OpcodeNames(steps: seq<Step>, l: nat): set<string> {
    set i: nat | i < |steps| && Counted(steps, i, l) :: steps[i].opcode
  }

  function OpcodeCount(steps: seq<Step>, l: nat, op: string): nat {
    if op == "GAS" then GasCount(steps, |steps|, l) else OpCount(steps, |steps|, l, op)
  }

  /** Step `i` of level `l` reads or writes a slot of contract `a`. */
  predicate Touching(steps: seq<Step>, i: nat, l: nat, write: bool, a: Address) {
    InLevel(steps, i, l) && steps[i].opcode == (if write then "SSTORE" else "SLOAD") && steps[i].contract == a
  }

  function TouchedSlots(steps: seq<Step>, l: nat, write: bool, a: Address): set<Slot> {
    set i: nat | i < |steps| && Touching(steps, i, l, write, a) :: steps[i].slot
  }

  function TouchedContracts(steps: seq<Step>, l: nat): set<Address> {
    set i: nat | i < |steps| && InLevel(steps, i, l) && steps[i].opcode in {"SLOAD", "SSTORE"} :: steps[i].contract
  }

  /** The declarative reading of one level, straight from the steps. */
  function LevelOf(steps: seq<Step>, l: nat): LevelInfo {
    LevelInfo(
      map op | op in OpcodeNames(steps, l) :: OpcodeCount(steps, l, op),
      map a | a in TouchedContracts(steps, l) :: Access(TouchedSlots(steps, l, false, a), TouchedSlots(steps, l, true, a)),
      Reached(steps, |steps|, l))
  }

  function LevelCount(steps: seq<Step>): nat {
    if steps == [] then 0 else Splits(steps, |steps|) + 1
  }

  /** The input of the judgement that a trace means; everything but levels, hashed words and calls is given. */
  function InputOf(es: seq<Event>, given: Input): Input {
    var steps := StepsOf(es);
    given.(levels := seq(LevelCount(steps), l requires l >= 0 => LevelOf(steps, l)),
           keccak := HashedWords(steps, |steps|),
           calls := CallsOf(es))
  }

  // ---------------------------------------------------------------------------------------------
  // The collected level is the declarative one
  // ---------------------------------------------------------------------------------------------

  lemma {:induction false} CountIfPositive(n: nat, p: nat -> bool)
    ensures CountIf(n, p) > 0 <==> exists i: nat :: i < n && p(i)
  {
    if n > 0 {
      CountIfPositive(n - 1, p);
    }
  }

  lemma OpCountPositive(steps: seq<Step>, l: nat, op: string)
    ensures OpCount(steps, |steps|, l, op) > 0 <==> exists i: nat :: i < |steps| && OpCharged(steps, i, l, op)
  {
    hide OpCharged;
    var p := (i: nat) => OpCharged(steps, i, l, op);
    CountIfPositive(|steps|, p);
    assert forall i: nat :: p(i) == OpCharged(steps, i, l, op);
  }

  lemma GasCountPositive(steps: seq<Step>, l: nat)
    ensures GasCount(steps, |steps|, l) > 0 <==> exists i: nat :: i < |steps| && GasCharged(steps, i, l)
  {
    hide GasCharged;
    var p := (i: nat) => GasCharged(steps, i, l);
    CountIfPositive(|steps|, p);
    assert forall i: nat :: p(i) == GasCharged(steps, i, l);
  }

  lemma AccessCountPositive(steps: seq<Step>, l: nat, at: Place)
    ensures AccessCount(steps, |steps|, l, at) > 0 <==> exists i: nat :: i < |steps| && AccessCharged(steps, i, l, at)
  {
    hide AccessCharged;
    var p := (i: nat) => AccessCharged(steps, i, l, at);
    CountIfPositive(|steps|, p);
    assert forall i: nat :: p(i) == AccessCharged(steps, i, l, at);
  }

  lemma GasSettled(steps: seq<Step>, l: nat)
    requires steps != []
    ensures GasCount(steps, |steps|, l) == GasCount(steps, |steps| - 1, l)
  {
    hide InLevel, Contains;
  }

  lemma NamesOf(steps: seq<Step>, l: nat, op: string)
    ensures op in OpcodeNames(steps, l) <==> OpcodeCount(steps, l, op) > 0
  {
    hide InLevel, Contains, Ignored, OpCount, GasCount;
    if op == "GAS" {
      GasCountPositive(steps, l);
      assert forall i: nat :: i < |steps| && steps[i].opcode == op ==> (Counted(steps, i, l) <==> GasCharged(steps, i, l));
    } else {
      OpCountPositive(steps, l, op);
      assert forall i: nat :: i < |steps| && steps[i].opcode == op ==> (Counted(steps, i, l) <==> OpCharged(steps, i, l, op));
    }
  }

  lemma OpcodesRead(steps: seq<Step>, l: nat, level: Level)
    requires steps != [] && LevelReads(steps, |steps|, l, level) && Positive(level)
    ensures level.opcodes == map op | op in OpcodeNames(steps, l) :: OpcodeCount(steps, l, op)
  {
    hide OpCount, GasCount, AccessCount, OpcodeNames;
    GasSettled(steps, l);
    forall op
      ensures op in level.opcodes <==> op in OpcodeNames(steps, l)
      ensures op in level.opcodes ==> level.opcodes[op] == OpcodeCount(steps, l, op)
    {
      NamesOf(steps, l, op);
    }
  }

  lemma PlacesRead(steps: seq<Step>, l: nat, level: Level, p: Place)
    requires LevelReads(steps, |steps|, l, level) && Positive(level)
    ensures p in level.access <==> exists i: nat :: i < |steps| && AccessCharged(steps, i, l, p)
  {
    hide OpCount, GasCount, AccessCount, AccessCharged;
    AccessCountPositive(steps, l, p);
  }

  lemma SlotsRead(steps: seq<Step>, l: nat, level: Level, write: bool, a: Address)
    requires LevelReads(steps, |steps|, l, level) && Positive(level)
    ensures SlotsIn(level.access, write, a) == TouchedSlots(steps, l, write, a)
  {
    hide LevelReads, Positive, InLevel;
    forall slot
      ensures slot in SlotsIn(level.access, write, a) <==> slot in TouchedSlots(steps, l, write, a)
    {
      var p := Place(write, a, slot);
      PlacesRead(steps, l, level, p);
      assert slot in SlotsIn(level.access, write, a) <==> p in level.access;
      if i: nat :| i < |steps| && AccessCharged(steps, i, l, p) {
        assert Touching(steps, i, l, write, a) && steps[i].slot == slot;
      }
      if i: nat :| i < |steps| && Touching(steps, i, l, write, a) && steps[i].slot == slot {
        assert AccessCharged(steps, i, l, p);
      }
    }
  }

  lemma ContractsRead(steps: seq<Step>, l: nat, level: Level)
    requires LevelReads(steps, |steps|, l, level) && Positive(level)
    ensures (set p | p in level.access :: p.contract) == TouchedContracts(steps, l)
  {
    hide LevelReads, Positive, InLevel;
    forall a | exists p :: p in level.access && p.contract == a
      ensures a in TouchedContracts(steps, l)
    {
      var p :| p in level.access && p.contract == a;
      PlacesRead(steps, l, level, p);
      var i: nat :| i < |steps| && AccessCharged(steps, i, l, p);
      assert InLevel(steps, i, l) && steps[i].contract == a;
    }
    forall a | a in TouchedContracts(steps, l)
      ensures exists p :: p in level.access && p.contract == a
    {
      var i: nat :| i < |steps| && InLevel(steps, i, l) && steps[i].opcode in {"SLOAD", "SSTORE"} && steps[i].contract == a;
      var p := Place(steps[i].opcode == "SSTORE", a, steps[i].slot);
      assert AccessCharged(steps, i, l, p);
      PlacesRead(steps, l, level, p);
    }
  }

  /** What the tracer collects in a level is what the level means. */
  lemma LevelRead(steps: seq<Step>, l: nat, level: Level)
    requires steps != [] && LevelReads(steps, |steps|, l, level) && LevelMarks(steps, |steps|, l, level) && Positive(level)
    ensures InfoOf(level) == LevelOf(steps, l)
  {
    OpcodesRead(steps, l, level);
    ContractsRead(steps, l, level);
    hide LevelReads, Positive, OpcodeNames, OpcodeCount, TouchedContracts, TouchedSlots, SlotsIn;
    forall a: Address
      ensures SlotsIn(level.access, false, a) == TouchedSlots(steps, l, false, a)
      ensures SlotsIn(level.access, true, a) == TouchedSlots(steps, l, true, a)
    {
      SlotsRead(steps, l, level, false, a);
      SlotsRead(steps, l, level, true, a);
    }
  }

  lemma LevelsCollected(es: seq<Event>, t: State, l: nat)
    requires Collected(es, t) && l < LevelCount(StepsOf(es))
    ensures l in t.levels && InfoOf(t.levels[l]) == LevelOf(StepsOf(es), l)
  {
    hide LevelReads, LevelMarks, Positive, InfoOf, LevelOf, StepsOf, CallsOf, HashedWords, LogsOf;
    var steps := StepsOf(es);
    assert LevelReads(steps, |steps|, l, t.levels[l]) && LevelMarks(steps, |steps|, l, t.levels[l]);
    assert Positive(t.levels[l]);
    LevelRead(steps, l, t.levels[l]);
  }

  lemma CollectedCount(es: seq<Event>, t: State)
    requires Collected(es, t)
    ensures LevelCount(StepsOf(es)) == if t.current.None? then 0 else t.numberCounter + 1
    ensures t.keccak == HashedWords(StepsOf(es), |StepsOf(es)|) && t.calls == CallsOf(es)
  {
    hide LevelReads, LevelMarks, Positive, StepsOf, CallsOf, HashedWords, LogsOf;
  }

  /** Tracing and judging: a raw trace is accepted if and only if its declarative reading is lawful, for every order of
      iteration. */
  method JudgeTrace(es: seq<Event>, given: Input, it: Iteration) returns (r: Option<Output>)
    requires Starts(StepsOf(es)) && IterationOf(it, InputOf(es, given))
    ensures r.Some? <==> Lawful(InputOf(es, given))
    ensures r.Some? <==> Permitted(InputOf(es, given))
    ensures r.Some? ==> r.value.altMempoolIds == TraceIds(InputOf(es, given), it, |it.storageOrder|)
    ensures r.Some? ==> forall a :: a in r.value.touchedContracts <==>
              exists l :: 0 <= l < 3 && a in Reached(StepsOf(es), |StepsOf(es)|, l)
  {
    hide Lawful, Permitted, IterationOf, TraceIds, Collected, StepsOf, CallsOf, HashedWords, LevelOf, InfoOf, Starts, LevelCount, Reached;
    var tracer := new Tracer();
    var ok := tracer.Collect(es);
    ghost var t := tracer.Abs();
    CollectedCount(es, t);
    var levels: seq<LevelInfo> := [];
    for l := 0 to if tracer.current.None? then 0 else tracer.numberCounter + 1
      invariant tracer.Abs() == t
      invariant |levels| == l && forall j :: 0 <= j < l ==> levels[j] == LevelOf(StepsOf(es), j)
    {
      LevelsCollected(es, t, l);
      levels := levels + [InfoOf(tracer.levels[l])];
    }
    assert levels == InputOf(es, given).levels;
    var input := given.(levels := levels, keccak := tracer.keccak, calls := tracer.calls);
    assert input == InputOf(es, given);
    r := TraceSimulateValidation(input, it);
    if r.Some? {
      LawfulHasThree(input);
      ContractsOf(es, 0);
      ContractsOf(es, 1);
      ContractsOf(es, 2);
    }
  }

  lemma LawfulHasThree(input: Input)
    requires Lawful(input)
    ensures |input.levels| == 3
  {
  }

  lemma ContractsOf(es: seq<Event>, l: nat)
    ensures LevelOf(StepsOf(es), l).contracts == Reached(StepsOf(es), |StepsOf(es)|, l)
  {
  }

  /** The opcode rule, read off the steps: no counted step of the level has a banned opcode. */
  lemma NoBannedStepIff(steps: seq<Step>, l: nat)
    ensures NoBannedOpcode(LevelOf(steps, l)) <==>
            forall i: nat :: i < |steps| && Counted(steps, i, l) ==> steps[i].opcode !in BANNED_OPCODES
  {
    hide Counted, OpcodeCount, Reached, TouchedSlots, TouchedContracts;
    assert LevelOf(steps, l).opcodes.Keys == OpcodeNames(steps, l);
  }

  // ---------------------------------------------------------------------------------------------
  // Calls of a trace
  // ---------------------------------------------------------------------------------------------

  /** A frame's steps and calls in order. */
  datatype Frame =
    | Done
    | Then(step: Step, rest: Frame)
    | Calls(call: CallStack.CallInfo, inner: Frame, failed: bool, output: string, rest: Frame)

  function EventsOf(f: Frame): seq<Event> {
    match f
    case Done => []
    case Then(step, rest) => [Executed(step)] + EventsOf(rest)
    case Calls(call, inner, failed, output, rest) =>
      [Enter(call)] + EventsOf(inner) + [Exit(failed, output)] + EventsOf(rest)
  }

  function ForestOf(f: Frame): CallStack.Forest {
    match f
    case Done => CallStack.Leaf
    case Then(_, rest) => ForestOf(rest)
    case Calls(call, inner, failed, output, rest) =>
      CallStack.Node(call, ForestOf(inner), EndRecord(if failed then "REVERT" else "RETURN", output), ForestOf(rest))
  }

  /** No step of the frame ends the top-level frame, and no call has the name of an end. */
  predicate Running(f: Frame) {
    match f
    case Done => true
    case Then(step, rest) => StepCalls(step) == [] && Running(rest)
    case Calls(call, inner, _, _, rest) => !CallStack.IsEnd(call.kind) && Running(inner) && Running(rest)
  }

  lemma {:induction false} CallsConcat(a: seq<Event>, b: seq<Event>)
    ensures CallsOf(a + b) == CallsOf(a) + CallsOf(b)
    decreases |b|
  {
    hide EventCalls;
    if b == [] {
      assert a + b == a;
    } else {
      var front, e := b[..|b| - 1], b[|b| - 1];
      CallsConcat(a, front);
      assert (a + b)[..|a + b| - 1] == a + front;
      assert CallsOf(a) + CallsOf(front) + EventCalls(e) == CallsOf(a) + (CallsOf(front) + EventCalls(e));
    }
  }

  lemma CallsOfOne(e: Event)
    ensures CallsOf([e]) == EventCalls(e)
  {
    hide EventCalls;
    assert CallsOf([e][..0]) == [];
  }

  lemma {:induction false} FrameCalls(f: Frame)
    requires Running(f)
    ensures CallStack.WellFormed(ForestOf(f)) && CallsOf(EventsOf(f)) == CallStack.Flatten(ForestOf(f))
  {
    hide CallsOf, StepCalls, Clip;
    match f
    case Done =>
      assert CallsOf([]) == [] by { NoCalls(); }
    case Then(step, rest) =>
      FrameCalls(rest);
      CallsConcat([Executed(step)], EventsOf(rest));
      CallsOfOne(Executed(step));
    case Calls(call, inner, failed, output, rest) =>
      FrameCalls(inner);
      FrameCalls(rest);
      var enter, exit := [Enter(call)], [Exit(failed, output)];
      CallsConcat(enter + EventsOf(inner) + exit, EventsOf(rest));
      CallsConcat(enter + EventsOf(inner), exit);
      CallsConcat(enter, EventsOf(inner));
      CallsOfOne(Enter(call));
      CallsOfOne(Exit(failed, output));
  }

  lemma NoCalls()
    ensures CallsOf([]) == []
  {
  }

  /** For every trace of a top-level frame and the step that ends it: the calls that are judged are those that returned
      and created nothing, innermost first, each with its own return data. A final RETURN adds one that names no call. */
  lemma JudgedCalls(f: Frame, last: Step, given: Input)
    requires Running(f) && !last.Deep() && CallStack.IsEnd(last.opcode)
    ensures Returns(InputOf(EventsOf(f) + [Executed(last)], given)) ==
            CallStack.PostOrder(ForestOf(f)) +
            if last.opcode == "REVERT" then [] else [CallStack.CallEntry(ZERO_ADDRESS, "", "", if |last.data| <= 1000 then last.data else last.data[..1000])]
  {
    hide CallsOf, CallStack.Run, CallStack.Flatten, CallStack.PostOrder, EventsOf, ForestOf, StepsOf, LevelOf, HashedWords;
    FrameCalls(f);
    CallsConcat(EventsOf(f), [Executed(last)]);
    CallsOfOne(Executed(last));
    CallStack.TopLevelRun(ForestOf(f), EndRecord(last.opcode, last.data));
  }
}
