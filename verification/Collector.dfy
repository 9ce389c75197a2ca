/** The validation tracer: one pass over the events of a trace, splitting its steps into levels at NUMBER opcodes of the
    entry point, counting opcodes and storage accesses in each level, and recording calls, logs and hashed words. */
module Collector {
  import opened Wrappers
  import opened Text
  import opened Logs
  import CallStack

  /** One executed step. `target` is the address on the stack of a call or EXT opcode, `contract` the running one,
      `slot` the top of the stack, and `words` the stack from the third word on. `data` is the text of the memory that the
      first two words delimit, and `hashed` its bytes. */
  datatype Step = Step(
    depth: nat,
    opcode: string,
    starved: bool,
    target: Address,
    targetIsPrecompile: bool,
    targetCodeSize: nat,
    contract: Address,
    slot: nat,
    words: seq<string>,
    data: string,
    hashed: seq<Byte>)
  {
    predicate Deep() {
      depth != 1
    }

    predicate ReachesOut() {
      "EXT" <= opcode || opcode in {"CALL", "CALLCODE", "DELEGATECALL", "STATICCALL"}
    }
  }

  predicate AllDigits(s: string) {
    s != "" && forall i :: 0 <= i < |s| ==> '0' <= s[i] <= '9'
  }

  /** Opcodes that are never counted. */
  predicate Ignored(op: string) {
    || ("DUP" <= op && AllDigits(op[3..]))
    || ("PUSH" <= op && AllDigits(op[4..]))
    || ("SWAP" <= op && AllDigits(op[4..]))
    || op in {"POP", "ADD", "SUB", "MUL", "DIV", "EQ", "LT", "LTE", "GT", "GTE", "SGT", "SGTE", "SLT", "SHL", "SHR",
              "AND", "OR", "NOT", "ISZERO"}
  }

  /** They are the stack opcodes of every size, and the comparisons, shifts and arithmetic named. */
  lemma IgnoredIff(op: string)
    ensures Ignored(op) <==>
            || (exists size :: Decimal(size) && (op == "DUP" + size || op == "PUSH" + size || op == "SWAP" + size))
            || op in {"ADD", "SUB", "MUL", "DIV"} || op in {"EQ", "LT", "LTE", "GT", "GTE", "SGT", "SGTE", "SLT", "ISZERO"}
            || op in {"POP", "SHL", "SHR", "AND", "OR", "NOT"}
  {
    forall size
      ensures AllDigits(size) <==> Decimal(size)
    {
      DigitsAre(size);
    }
    hide AllDigits, Decimal;
    if size :| Decimal(size) && (op == "DUP" + size || op == "PUSH" + size || op == "SWAP" + size) {
      assert op == "DUP" + size ==> "DUP" <= op && op[3..] == size;
      assert op == "PUSH" + size ==> "PUSH" <= op && op[4..] == size;
      assert op == "SWAP" + size ==> "SWAP" <= op && op[4..] == size;
      assert Ignored(op);
    }
    if "DUP" <= op && AllDigits(op[3..]) {
      assert op == "DUP" + op[3..] && Decimal(op[3..]);
    }
    if "PUSH" <= op && AllDigits(op[4..]) {
      assert op == "PUSH" + op[4..] && Decimal(op[4..]);
    }
    if "SWAP" <= op && AllDigits(op[4..]) {
      assert op == "SWAP" + op[4..] && Decimal(op[4..]);
    }
    var named := op in {"ADD", "SUB", "MUL", "DIV"} || op in {"POP", "SHL", "SHR", "AND", "OR", "NOT"}
              || op in {"EQ", "LT", "LTE", "GT", "GTE", "SGT", "SGTE", "SLT", "ISZERO"};
    assert named ==> Ignored(op);
    assert Ignored(op) ==>
        named || exists size :: Decimal(size) && (op == "DUP" + size || op == "PUSH" + size || op == "SWAP" + size);
  }

  predicate Decimal(s: string) {
    s != "" && forall c :: c in s ==> c in "0123456789"
  }

  lemma DigitsAre(s: string)
    ensures AllDigits(s) <==> Decimal(s)
  {
    assert forall c: char :: c in "0123456789" <==> '0' <= c <= '9';
    assert forall i :: 0 <= i < |s| ==> s[i] in s;
  }

  // ---------------------------------------------------------------------------------------------
  // The pass
  // ---------------------------------------------------------------------------------------------

  datatype Place = Place(write: bool, contract: Address, slot: nat)

  datatype Level = Level(
    opcodes: map<string, nat>,
    access: map<Place, nat>,
    contractSize: map<Address, nat>,
    oog: bool)

  const EMPTY_LEVEL := Level(map[], map[], map[], false)

  function Get<K>(m: map<K, nat>, k: K): nat {
    if k in m then m[k] else 0
  }

  function CountSlot<K>(m: map<K, nat>, k: K): map<K, nat> {
    m[k := Get(m, k) + 1]
  }

  /** `current` is `None` until the first step at depth 1 creates a level. */
  datatype State = State(
    numberCounter: nat,
    current: Option<nat>,
    levels: map<nat, Level>,
    lastOp: string,
    keccak: seq<seq<Byte>>,
    logs: seq<Log>,
    calls: seq<CallStack.CallInfo>)

  const INITIAL := State(0, None, map[], "", [], [], [])

  function MarkStarved(l: Level, s: Step): Level {
    if s.starved then l.(oog := true) else l
  }

  function NoteTarget(l: Level, s: Step): Level {
    if s.ReachesOut() && Get(l.contractSize, s.target) == 0 && !s.targetIsPrecompile then
      l.(contractSize := l.contractSize[s.target := s.targetCodeSize])
    else l
  }

  function CountOpcode(l: Level, lastOp: string, s: Step): Level {
    var gas := if lastOp == "GAS" && !Contains(s.opcode, "CALL") then CountSlot(l.opcodes, "GAS") else l.opcodes;
    l.(opcodes := if s.opcode != "GAS" && !Ignored(s.opcode) then CountSlot(gas, s.opcode) else gas)
  }

  function CountAccess(l: Level, s: Step): Level {
    if s.opcode == "SLOAD" || s.opcode == "SSTORE" then
      l.(access := CountSlot(l.access, Place(s.opcode != "SLOAD", s.contract, s.slot)))
    else l
  }

  predicate Hashes(s: Step) {
    s.opcode == "KECCAK256" && 20 < |s.hashed| < 512
  }

  /** The text that a record keeps of return data. */
  function Clip(text: string): string {
    if |text| <= 1000 then text else text[..1000]
  }

  function EndRecord(kind: string, output: string): CallStack.CallInfo {
    CallStack.CallInfo(kind, ZERO_ADDRESS, "", Clip(output))
  }

  /** The node reports no exit of the top-level frame, so its RETURN or REVERT step is recorded instead. */
  function StepCalls(s: Step): seq<CallStack.CallInfo> {
    if !s.Deep() && CallStack.IsEnd(s.opcode) then [EndRecord(s.opcode, s.data)] else []
  }

  function StepLogs(s: Step): seq<Log> {
    if s.Deep() && IsLog(s.opcode) then [Emit(s.opcode, s.words, s.data)] else []
  }

  /** A deeper step that counts something: its own opcode, or the GAS before it. */
  predicate Counts(lastOp: string, s: Step) {
    (lastOp == "GAS" && !Contains(s.opcode, "CALL")) || (s.opcode != "GAS" && !Ignored(s.opcode))
  }

  predicate NeedsLevel(lastOp: string, s: Step) {
    s.starved || s.ReachesOut() || (s.Deep() && Counts(lastOp, s))
  }

  /** `None` when the step touches the current level and there is none yet. */
  function OnStep(t: State, s: Step): Option<State> {
    var needsLevel := NeedsLevel(t.lastOp, s);
    if needsLevel && (t.current.None? || t.current.value !in t.levels) then None else
    var before := if needsLevel then
                    t.levels[t.current.value := NoteTarget(MarkStarved(t.levels[t.current.value], s), s)]
                  else t.levels;
    if !s.Deep() then
      var n := if s.opcode == "NUMBER" then t.numberCounter + 1 else t.numberCounter;
      var calls := t.calls + StepCalls(s);
      if n in before then Some(t.(numberCounter := n, levels := before, lastOp := "", calls := calls))
      else Some(t.(numberCounter := n, current := Some(n), levels := before[n := EMPTY_LEVEL], lastOp := "", calls := calls))
    else
      var levels := if Counts(t.lastOp, s) then
                      before[t.current.value := CountAccess(CountOpcode(before[t.current.value], t.lastOp, s), s)]
                    else before;
      Some(t.(levels := levels, lastOp := s.opcode,
              keccak := if Hashes(s) then t.keccak + [s.hashed] else t.keccak,
              logs := t.logs + StepLogs(s)))
  }

  lemma UncountedChargesNothing(l: Level, lastOp: string, s: Step)
    requires !Counts(lastOp, s)
    ensures CountAccess(CountOpcode(l, lastOp, s), s) == l
  {
    StorageIsCounted();
    hide Ignored, Contains;
  }

  lemma StorageIsCounted()
    ensures !Ignored("SLOAD") && !Ignored("SSTORE")
  {
    var dup, push, swap := "DUP", "PUSH", "SWAP";
    var load, store := "SLOAD", "SSTORE";
    assert dup[0] != load[0] && dup[0] != store[0];
    assert push[0] != load[0] && push[0] != store[0];
    assert swap[1] != load[1] && swap[1] != store[1];
  }

  /** A step counts exactly when charging it to an empty level leaves something there. */
  lemma CountsIff(lastOp: string, s: Step)
    ensures Counts(lastOp, s) <==> CountAccess(CountOpcode(EMPTY_LEVEL, lastOp, s), s) != EMPTY_LEVEL
  {
    if !Counts(lastOp, s) {
      UncountedChargesNothing(EMPTY_LEVEL, lastOp, s);
    } else {
      hide Ignored, Contains;
      var counted := CountOpcode(EMPTY_LEVEL, lastOp, s).opcodes;
      assert "GAS" in counted || s.opcode in counted;
    }
  }

  lemma CountingNeedsLevel(lastOp: string, s: Step)
    ensures s.Deep() && Counts(lastOp, s) ==> NeedsLevel(lastOp, s)
  {
  }

  lemma UnmarkedNotesNothing(l: Level, s: Step)
    requires !s.starved && !s.ReachesOut()
    ensures NoteTarget(MarkStarved(l, s), s) == l
  {
    hide Step.ReachesOut;
  }

  /** A deeper step while there is a level marks and charges that level, if only with nothing. */
  lemma DeepStepIs(t: State, s: Step)
    requires s.Deep() && t.current.Some? && t.current.value in t.levels
    ensures var level := NoteTarget(MarkStarved(t.levels[t.current.value], s), s);
      OnStep(t, s) == Some(t.(levels := t.levels[t.current.value := CountAccess(CountOpcode(level, t.lastOp, s), s)],
                              lastOp := s.opcode,
                              keccak := if Hashes(s) then t.keccak + [s.hashed] else t.keccak,
                              logs := t.logs + StepLogs(s)))
  {
    hide Counts, CountAccess, CountOpcode, NoteTarget, MarkStarved, Step.ReachesOut, Hashes, StepLogs;
    var l := t.levels[t.current.value];
    var level := NoteTarget(MarkStarved(l, s), s);
    var charged := CountAccess(CountOpcode(level, t.lastOp, s), s);
    assert t.levels[t.current.value := level][t.current.value := charged] == t.levels[t.current.value := charged];
    if !Counts(t.lastOp, s) {
      UncountedChargesNothing(level, t.lastOp, s);
      if !s.starved && !s.ReachesOut() {
        UnmarkedNotesNothing(l, s);
        assert t.levels[t.current.value := l] == t.levels;
      }
    }
  }

  /** The state after the first `n` steps. */
  function Run(steps: seq<Step>, n: nat): Option<State>
    requires n <= |steps|
  {
    if n == 0 then Some(INITIAL) else
    var t :- Run(steps, n - 1);
    OnStep(t, steps[n - 1])
  }

  // ---------------------------------------------------------------------------------------------
  // The declarative reading
  // ---------------------------------------------------------------------------------------------

  /** The number of level splits among the first `n` steps. */
  function Splits(steps: seq<Step>, n: nat): nat
    requires n <= |steps|
  {
    if n == 0 then 0
    else Splits(steps, n - 1) + if steps[n - 1].depth == 1 && steps[n - 1].opcode == "NUMBER" then 1 else 0
  }

  /** How many of the first `n` indices satisfy a predicate. */
  function CountIf(n: nat, p: nat -> bool): nat {
    if n == 0 then 0 else CountIf(n - 1, p) + if p(n - 1) then 1 else 0
  }

  /** Step `i` is a deeper step that is charged to level `l`. */
  predicate InLevel(steps: seq<Step>, i: nat, l: nat) {
    i < |steps| && steps[i].depth != 1 && Splits(steps, i) == l
  }

  /** An uncounted GAS: step `i` is a deeper GAS, and the step after it is also deeper and is no call. */
  predicate GasCharged(steps: seq<Step>, i: nat, l: nat) {
    && InLevel(steps, i, l) && steps[i].opcode == "GAS"
    && i + 1 < |steps| && steps[i + 1].depth != 1 && !Contains(steps[i + 1].opcode, "CALL")
  }

  predicate OpCharged(steps: seq<Step>, i: nat, l: nat, op: string) {
    InLevel(steps, i, l) && steps[i].opcode == op && op != "GAS" && !Ignored(op)
  }

  predicate AccessCharged(steps: seq<Step>, i: nat, l: nat, p: Place) {
    && InLevel(steps, i, l) && steps[i].opcode == (if p.write then "SSTORE" else "SLOAD")
    && steps[i].contract == p.contract && steps[i].slot == p.slot
  }

  function OpCount(steps: seq<Step>, n: nat, l: nat, op: string): nat {
    CountIf(n, (i: nat) => OpCharged(steps, i, l, op))
  }

  function GasCount(steps: seq<Step>, n: nat, l: nat): nat {
    CountIf(n, (i: nat) => GasCharged(steps, i, l))
  }

  function AccessCount(steps: seq<Step>, n: nat, l: nat, p: Place): nat {
    CountIf(n, (i: nat) => AccessCharged(steps, i, l, p))
  }

  function HashedWords(steps: seq<Step>, n: nat): seq<seq<Byte>>
    requires n <= |steps|
  {
    if n == 0 then [] else
    var s := steps[n - 1];
    HashedWords(steps, n - 1) +
      if s.depth != 1 && s.opcode == "KECCAK256" && 20 < |s.hashed| < 512 then [s.hashed] else []
  }

  function LogsOf(steps: seq<Step>, n: nat): seq<Log>
    requires n <= |steps|
  {
    if n == 0 then [] else
    var s := steps[n - 1];
    LogsOf(steps, n - 1) + if s.depth != 1 && "LOG" <= s.opcode then [Emit(s.opcode, s.words, s.data)] else []
  }

  /** A trace starts at depth 1, with a step that needs no level and splits none. */
  predicate Starts(steps: seq<Step>) {
    steps != [] ==> !steps[0].Deep() && !steps[0].starved && !steps[0].ReachesOut() && steps[0].opcode != "NUMBER"
  }

  /** The counters of level `l` after `n` steps. A GAS that is the last step seen is not settled yet. */
  ghost predicate LevelReads(steps: seq<Step>, n: nat, l: nat, level: Level)
    requires n <= |steps|
  {
    && (forall op :: op != "GAS" ==> Get(level.opcodes, op) == OpCount(steps, n, l, op))
    && Get(level.opcodes, "GAS") == (if n == 0 then 0 else GasCount(steps, n - 1, l))
    && (forall p :: Get(level.access, p) == AccessCount(steps, n, l, p))
  }

  ghost predicate Reading(steps: seq<Step>, n: nat, t: State)
    requires n <= |steps|
  {
    && t.numberCounter == Splits(steps, n)
    && t.keccak == HashedWords(steps, n)
    && t.logs == LogsOf(steps, n)
    && (n > 0 ==>
          && t.current == Some(t.numberCounter)
          && t.lastOp == (if steps[n - 1].Deep() then steps[n - 1].opcode else "")
          && (forall l :: l in t.levels <==> 0 <= l <= t.numberCounter)
          && (forall l :: l in t.levels ==> LevelReads(steps, n, l, t.levels[l])))
    && (n == 0 ==> t == INITIAL.(calls := t.calls))
  }

  // ---------------------------------------------------------------------------------------------
  // The pass computes the reading
  // ---------------------------------------------------------------------------------------------

  lemma {:induction false} CountNone(n: nat, p: nat -> bool)
    requires forall i: nat :: i < n ==> !p(i)
    ensures CountIf(n, p) == 0
  {
    if n > 0 {
      CountNone(n - 1, p);
    }
  }

  lemma {:induction false} SplitsGrow(steps: seq<Step>, i: nat, n: nat)
    requires i <= n <= |steps|
    ensures Splits(steps, i) <= Splits(steps, n)
  {
    if i < n {
      SplitsGrow(steps, i, n - 1);
    }
  }

  lemma CountsUnfold(steps: seq<Step>, n: nat, l: nat)
    ensures forall op :: OpCount(steps, n + 1, l, op) == OpCount(steps, n, l, op) + if OpCharged(steps, n, l, op) then 1 else 0
    ensures forall p :: AccessCount(steps, n + 1, l, p) ==
                        AccessCount(steps, n, l, p) + if AccessCharged(steps, n, l, p) then 1 else 0
    ensures GasCount(steps, n + 1, l) == GasCount(steps, n, l) + if GasCharged(steps, n, l) then 1 else 0
  {
    hide OpCharged, AccessCharged, GasCharged;
  }

  /** A step outside a level leaves its counters alone. */
  lemma QuietStep(steps: seq<Step>, n: nat, l: nat, level: Level, level': Level)
    requires 0 < n < |steps| && !InLevel(steps, n, l) && LevelReads(steps, n, l, level)
    requires level'.opcodes == level.opcodes && level'.access == level.access
    ensures LevelReads(steps, n + 1, l, level')
  {
    hide OpCount, AccessCount, GasCount, Ignored, Contains;
    CountsUnfold(steps, n, l);
    CountsUnfold(steps, n - 1, l);
    assert !GasCharged(steps, n - 1, l);
  }

  /** A level that no step was charged to yet reads as empty. */
  lemma FreshLevel(steps: seq<Step>, n: nat, l: nat)
    requires n < |steps| && Splits(steps, n) < l
    ensures LevelReads(steps, n, l, EMPTY_LEVEL)
  {
    hide Ignored, Contains;
    forall i: nat | i <= n
      ensures !InLevel(steps, i, l)
    {
      SplitsGrow(steps, i, n);
    }
    hide InLevel, Splits;
    forall op
      ensures OpCount(steps, n, l, op) == 0
    {
      CountNone(n, (i: nat) => OpCharged(steps, i, l, op));
    }
    forall p
      ensures AccessCount(steps, n, l, p) == 0
    {
      CountNone(n, (i: nat) => AccessCharged(steps, i, l, p));
    }
    if n > 0 {
      CountNone(n - 1, (i: nat) => GasCharged(steps, i, l));
    }
  }

  function Charge(level: Level, lastOp: string, s: Step): Level {
    CountAccess(CountOpcode(level, lastOp, s), s)
  }

  lemma ChargeOpcodes(level: Level, lastOp: string, s: Step)
    ensures forall op :: op != "GAS" ==>
              Get(Charge(level, lastOp, s).opcodes, op) ==
              Get(level.opcodes, op) + if s.opcode == op && !Ignored(op) then 1 else 0
    ensures Get(Charge(level, lastOp, s).opcodes, "GAS") ==
            Get(level.opcodes, "GAS") + if lastOp == "GAS" && !Contains(s.opcode, "CALL") then 1 else 0
  {
    hide Ignored, Contains;
  }

  lemma ChargeAccess(level: Level, lastOp: string, s: Step)
    ensures forall p :: Get(Charge(level, lastOp, s).access, p) ==
              Get(level.access, p) +
              if s.opcode == (if p.write then "SSTORE" else "SLOAD") && s.contract == p.contract && s.slot == p.slot
              then 1 else 0
  {
    hide Ignored, Contains;
  }

  /** A deeper step charges its own level: its opcode, its access, and the GAS before it unless it is a call. */
  lemma ChargedStep(steps: seq<Step>, n: nat, l: nat, level: Level, lastOp: string)
    requires 0 < n < |steps| && InLevel(steps, n, l) && LevelReads(steps, n, l, level)
    requires lastOp == if steps[n - 1].Deep() then steps[n - 1].opcode else ""
    ensures LevelReads(steps, n + 1, l, Charge(level, lastOp, steps[n]))
  {
    hide OpCount, AccessCount, GasCount, Ignored, Contains, Charge, Get;
    CountsUnfold(steps, n, l);
    CountsUnfold(steps, n - 1, l);
    ChargeOpcodes(level, lastOp, steps[n]);
    ChargeAccess(level, lastOp, steps[n]);
    assert GasCharged(steps, n - 1, l) <==> lastOp == "GAS" && !Contains(steps[n].opcode, "CALL");
  }

  lemma FirstStep(steps: seq<Step>)
    requires Starts(steps) && steps != []
    ensures OnStep(INITIAL, steps[0]).Some? && Reading(steps, 1, OnStep(INITIAL, steps[0]).value)
  {
    hide Ignored, Contains, LevelReads;
    FreshAt0(steps);
    assert Splits(steps, 1) == Splits(steps, 0) == 0;
    assert HashedWords(steps, 1) == HashedWords(steps, 0) == [];
    assert LogsOf(steps, 1) == LogsOf(steps, 0) == [];
    var t := OnStep(INITIAL, steps[0]).value;
    assert t == State(0, Some(0), map[0 := EMPTY_LEVEL], "", [], [], t.calls);
  }

  lemma FreshAt0(steps: seq<Step>)
    requires Starts(steps) && steps != []
    ensures LevelReads(steps, 1, 0, EMPTY_LEVEL)
  {
    hide Ignored, Contains;
    CountsUnfold(steps, 0, 0);
  }

  /** What a step does to the levels before it is charged: marks and contract sizes, never counters. */
  lemma MarksKeepCounters(l: Level, s: Step)
    ensures var m := NoteTarget(MarkStarved(l, s), s); m.opcodes == l.opcodes && m.access == l.access
  {
  }

  lemma ShallowStep(steps: seq<Step>, n: nat, t: State)
    requires 0 < n < |steps| && Reading(steps, n, t) && !steps[n].Deep()
    ensures OnStep(t, steps[n]).Some? && Reading(steps, n + 1, OnStep(t, steps[n]).value)
  {
    hide LevelReads, NoteTarget, MarkStarved, Hashes;
    var s := steps[n];
    var t' := OnStep(t, s).value;
    forall l | l in t'.levels
      ensures LevelReads(steps, n + 1, l, t'.levels[l])
    {
      if l in t.levels {
        MarksKeepCounters(t.levels[l], s);
        QuietStep(steps, n, l, t.levels[l], t'.levels[l]);
      } else {
        FreshLevel(steps, n, l);
        QuietStep(steps, n, l, EMPTY_LEVEL, EMPTY_LEVEL);
      }
    }
  }

  lemma DeepStep(steps: seq<Step>, n: nat, t: State)
    requires 0 < n < |steps| && Reading(steps, n, t) && steps[n].Deep()
    ensures OnStep(t, steps[n]).Some? && Reading(steps, n + 1, OnStep(t, steps[n]).value)
  {
    hide LevelReads, NoteTarget, MarkStarved, CountAccess, CountOpcode, OnStep;
    var s := steps[n];
    var c := t.numberCounter;
    DeepStepIs(t, s);
    var t' := OnStep(t, s).value;
    var marked := NoteTarget(MarkStarved(t.levels[c], s), s);
    MarksKeepCounters(t.levels[c], s);
    SameCounters(steps, n, c, t.levels[c], marked);
    ChargedStep(steps, n, c, marked, t.lastOp);
    forall l | l in t'.levels && l != c
      ensures LevelReads(steps, n + 1, l, t'.levels[l])
    {
      QuietStep(steps, n, l, t.levels[l], t'.levels[l]);
    }
  }

  lemma SameCounters(steps: seq<Step>, n: nat, l: nat, level: Level, level': Level)
    requires n <= |steps| && LevelReads(steps, n, l, level)
    requires level'.opcodes == level.opcodes && level'.access == level.access
    ensures LevelReads(steps, n, l, level')
  {
    hide OpCount, AccessCount, GasCount;
  }

  /** For every trace that starts at depth 1, the pass never fails and its counters are those of the declarative
      reading. */
  lemma {:induction false} PassReads(steps: seq<Step>, n: nat)
    requires Starts(steps) && n <= |steps|
    ensures Run(steps, n).Some? && Reading(steps, n, Run(steps, n).value)
  {
    hide Reading, OnStep;
    if n == 0 {
      ReadingStarts(steps);
    } else if n == 1 {
      FirstStep(steps);
      assert Run(steps, 0) == Some(INITIAL);
    } else {
      PassReads(steps, n - 1);
      var t := Run(steps, n - 1).value;
      if steps[n - 1].Deep() {
        DeepStep(steps, n - 1, t);
      } else {
        ShallowStep(steps, n - 1, t);
      }
    }
  }

  lemma ReadingStarts(steps: seq<Step>)
    ensures Reading(steps, 0, INITIAL)
  {
  }

  // ---------------------------------------------------------------------------------------------
  // Marks: contracts reached and gas shortages
  // ---------------------------------------------------------------------------------------------

  /** Contracts, other than precompiles, that the first `n` steps call or inspect from level `l`, at any depth. */
  function Reached(steps: seq<Step>, n: nat, l: nat): set<Address>
    requires n <= |steps|
  {
    if n == 0 then {} else
    var s := steps[n - 1];
    Reached(steps, n - 1, l) +
      if ("EXT" <= s.opcode || s.opcode in {"STATICCALL", "DELEGATECALL", "CALLCODE", "CALL"})
         && !s.targetIsPrecompile && Splits(steps, n - 1) == l then {s.target} else {}
  }

  /** Some step of level `l`, at any depth, had less gas than its cost. */
  predicate StarvedIn(steps: seq<Step>, n: nat, l: nat)
    requires n <= |steps|
  {
    n > 0 && (StarvedIn(steps, n - 1, l) || (steps[n - 1].starved && Splits(steps, n - 1) == l))
  }

  ghost predicate LevelMarks(steps: seq<Step>, n: nat, l: nat, level: Level)
    requires n <= |steps|
  {
    && level.contractSize.Keys == Reached(steps, n, l) && level.oog == StarvedIn(steps, n, l)
    && forall a :: a in level.contractSize ==> SizeSeen(steps, n, l, a, level.contractSize[a])
  }

  /** One of the first `n` steps, in level `l`, found code of that size at the address. */
  predicate SizeSeen(steps: seq<Step>, n: nat, l: nat, a: Address, size: nat)
    requires n <= |steps|
  {
    exists i :: 0 <= i < n && steps[i].target == a && steps[i].targetCodeSize == size && Splits(steps, i) == l
  }

  ghost predicate Marks(steps: seq<Step>, n: nat, t: State)
    requires n <= |steps|
  {
    forall l :: l in t.levels ==> LevelMarks(steps, n, l, t.levels[l])
  }

  lemma {:induction false} FreshMarks(steps: seq<Step>, n: nat, l: nat)
    requires n <= |steps| && (n > 0 ==> Splits(steps, n - 1) < l)
    ensures LevelMarks(steps, n, l, EMPTY_LEVEL)
  {
    if n > 0 {
      if n > 1 {
        SplitsGrow(steps, n - 2, n - 1);
      }
      FreshMarks(steps, n - 1, l);
    }
  }

  lemma MarkedLevel(steps: seq<Step>, n: nat, l: nat, level: Level, level': Level)
    requires n < |steps| && LevelMarks(steps, n, l, level)
    requires var m := if Splits(steps, n) == l then NoteTarget(MarkStarved(level, steps[n]), steps[n]) else level;
      level'.contractSize == m.contractSize && level'.oog == m.oog
    ensures LevelMarks(steps, n + 1, l, level')
  {
  }

  lemma StepMarks(steps: seq<Step>, n: nat, t: State)
    requires 0 < n < |steps| && Reading(steps, n, t) && Marks(steps, n, t)
    ensures OnStep(t, steps[n]).Some? && Marks(steps, n + 1, OnStep(t, steps[n]).value)
  {
    hide LevelReads, LevelMarks, Hashes, Ignored, Contains;
    var s := steps[n];
    var t' := OnStep(t, s).value;
    forall l | l in t'.levels
      ensures LevelMarks(steps, n + 1, l, t'.levels[l])
    {
      if l in t.levels {
        MarkedLevel(steps, n, l, t.levels[l], t'.levels[l]);
      } else {
        FreshMarks(steps, n + 1, l);
      }
    }
  }

  /** The pass also marks exactly the contracts each level reaches and the levels that ran short of gas. */
  lemma {:induction false} PassMarks(steps: seq<Step>, n: nat)
    requires Starts(steps) && n <= |steps|
    ensures Run(steps, n).Some? && Marks(steps, n, Run(steps, n).value)
  {
    if n == 1 {
      FirstMarks(steps);
      hide Marks, OnStep;
      assert Run(steps, 0) == Some(INITIAL);
    } else if n > 1 {
      hide Reading, OnStep, Marks;
      PassMarks(steps, n - 1);
      PassReads(steps, n - 1);
      StepMarks(steps, n - 1, Run(steps, n - 1).value);
    }
  }

  lemma FirstMarks(steps: seq<Step>)
    requires Starts(steps) && steps != []
    ensures OnStep(INITIAL, steps[0]).Some? && Marks(steps, 1, OnStep(INITIAL, steps[0]).value)
  {
    hide Ignored, Contains;
    assert Reached(steps, 1, 0) == Reached(steps, 0, 0) == {};
    assert !StarvedIn(steps, 1, 0);
    var t := OnStep(INITIAL, steps[0]).value;
    assert t == State(0, Some(0), map[0 := EMPTY_LEVEL], "", [], [], t.calls);
  }

  // ---------------------------------------------------------------------------------------------
  // Only what happened is counted
  // ---------------------------------------------------------------------------------------------

  ghost predicate Positive(l: Level) {
    (forall op :: op in l.opcodes ==> l.opcodes[op] > 0) && (forall p :: p in l.access ==> l.access[p] > 0)
  }

  ghost predicate AllPositive(t: State) {
    forall l :: l in t.levels ==> Positive(t.levels[l])
  }

  lemma ChargePositive(l: Level, lastOp: string, s: Step)
    requires Positive(l)
    ensures Positive(NoteTarget(MarkStarved(l, s), s))
    ensures Positive(CountAccess(CountOpcode(l, lastOp, s), s))
  {
    hide Ignored, Contains, Step.ReachesOut, CountSlot;
    PositiveSlot(l.opcodes, "GAS");
    PositiveSlot(l.opcodes, s.opcode);
    PositiveSlot(CountSlot(l.opcodes, "GAS"), s.opcode);
    PositiveSlot(l.access, Place(s.opcode != "SLOAD", s.contract, s.slot));
  }

  lemma PositiveSlot<K(!new)>(m: map<K, nat>, k: K)
    ensures (forall j :: j in m ==> m[j] > 0) ==> forall j :: j in CountSlot(m, k) ==> CountSlot(m, k)[j] > 0
  {
  }

  lemma StepPositive(t: State, s: Step)
    requires AllPositive(t) && OnStep(t, s).Some?
    ensures AllPositive(OnStep(t, s).value)
  {
    hide Positive, NoteTarget, MarkStarved, CountAccess, CountOpcode, Hashes, StepLogs, StepCalls, Step.ReachesOut;
    assert Positive(EMPTY_LEVEL) by { EmptyPositive(); }
    if t.current.Some? && t.current.value in t.levels {
      var l := t.levels[t.current.value];
      ChargePositive(l, t.lastOp, s);
      ChargePositive(NoteTarget(MarkStarved(l, s), s), t.lastOp, s);
    }
  }

  lemma EmptyPositive()
    ensures Positive(EMPTY_LEVEL)
  {
  }

  lemma {:induction false} PassPositive(steps: seq<Step>, n: nat)
    requires n <= |steps| && Run(steps, n).Some?
    ensures AllPositive(Run(steps, n).value)
  {
    hide OnStep;
    if n > 0 {
      PassPositive(steps, n - 1);
      StepPositive(Run(steps, n - 1).value, steps[n - 1]);
    }
  }

  // ---------------------------------------------------------------------------------------------
  // Whole traces: steps between the enters and exits of calls
  // ---------------------------------------------------------------------------------------------

  datatype Event =
    | Executed(step: Step)
    | Enter(call: CallStack.CallInfo)
    | Exit(failed: bool, output: string)

  /** The call records that one event adds. */
  function EventCalls(e: Event): seq<CallStack.CallInfo> {
    match e
    case Executed(s) => StepCalls(s)
    case Enter(call) => [call]
    case Exit(failed, output) => [EndRecord(if failed then "REVERT" else "RETURN", output)]
  }

  function OnEvent(t: State, e: Event): Option<State> {
    if e.Executed? then OnStep(t, e.step) else Some(t.(calls := t.calls + EventCalls(e)))
  }

  function RunEvents(es: seq<Event>): Option<State>
    decreases |es|
  {
    if es == [] then Some(INITIAL) else
    var t :- RunEvents(es[..|es| - 1]);
    OnEvent(t, es[|es| - 1])
  }

  function StepsOf(es: seq<Event>): seq<Step>
    decreases |es|
  {
    if es == [] then [] else
    var e := es[|es| - 1];
    StepsOf(es[..|es| - 1]) + if e.Executed? then [e.step] else []
  }

  function CallsOf(es: seq<Event>): seq<CallStack.CallInfo>
    decreases |es|
  {
    if es == [] then [] else CallsOf(es[..|es| - 1]) + EventCalls(es[|es| - 1])
  }

  /** What a step does to everything but the call records does not depend on them. */
  lemma StepKeepsCalls(t: State, s: Step, calls: seq<CallStack.CallInfo>)
    ensures OnStep(t.(calls := calls), s).Some? <==> OnStep(t, s).Some?
    ensures OnStep(t, s).Some? ==>
              OnStep(t.(calls := calls), s).value == OnStep(t, s).value.(calls := calls + StepCalls(s))
  {
    hide NoteTarget, MarkStarved, CountAccess, CountOpcode, Hashes, StepLogs, Step.ReachesOut;
    assert s.Deep() ==> StepCalls(s) == [] && calls + [] == calls;
  }

  lemma {:induction false} RunPrefix(steps: seq<Step>, s: Step, n: nat)
    requires n <= |steps|
    ensures Run(steps + [s], n) == Run(steps, n)
  {
    hide OnStep;
    if n > 0 {
      RunPrefix(steps, s, n - 1);
    }
  }

  lemma {:induction false} EventsRun(es: seq<Event>)
    ensures var steps := StepsOf(es);
      && (RunEvents(es).Some? <==> Run(steps, |steps|).Some?)
      && (RunEvents(es).Some? ==> RunEvents(es).value == Run(steps, |steps|).value.(calls := CallsOf(es)))
    decreases |es|
  {
    hide OnStep, EventCalls;
    if es != [] {
      var front, e := es[..|es| - 1], es[|es| - 1];
      EventsRun(front);
      var steps := StepsOf(front);
      if e.Executed? {
        RunPrefix(steps, e.step, |steps|);
        if Run(steps, |steps|).Some? {
          StepKeepsCalls(Run(steps, |steps|).value, e.step, CallsOf(front));
          assert EventCalls(e) == StepCalls(e.step) by { ExecutedCalls(e.step); }
        }
      } else {
        assert StepsOf(es) == steps;
      }
    }
  }

  lemma ExecutedCalls(s: Step)
    ensures EventCalls(Executed(s)) == StepCalls(s)
  {
  }

  /** What the pass has made of a whole trace. */
  ghost predicate Collected(es: seq<Event>, t: State) {
    var steps := StepsOf(es);
    Reading(steps, |steps|, t) && Marks(steps, |steps|, t) && AllPositive(t) && t.calls == CallsOf(es)
  }

  lemma ReadingKeepsCalls(steps: seq<Step>, t: State, calls: seq<CallStack.CallInfo>)
    requires Reading(steps, |steps|, t) && Marks(steps, |steps|, t)
    ensures Reading(steps, |steps|, t.(calls := calls)) && Marks(steps, |steps|, t.(calls := calls))
  {
    hide LevelReads, LevelMarks;
  }

  /** For every trace whose steps start at depth 1, the pass never fails and collects the declarative reading. */
  lemma EventsCollected(es: seq<Event>)
    requires Starts(StepsOf(es))
    ensures RunEvents(es).Some? && Collected(es, RunEvents(es).value)
  {
    hide Reading, Marks, Starts, RunEvents, Run;
    var steps := StepsOf(es);
    EventsRun(es);
    PassReads(steps, |steps|);
    PassMarks(steps, |steps|);
    PassPositive(steps, |steps|);
    ReadingKeepsCalls(steps, Run(steps, |steps|).value, CallsOf(es));
  }

  lemma {:induction false} StartsEarly(es: seq<Event>, n: nat)
    requires n <= |es| && Starts(StepsOf(es))
    ensures Starts(StepsOf(es[..n]))
    decreases |es|
  {
    if n == |es| {
      assert es[..n] == es;
    } else {
      var front := es[..|es| - 1];
      StartsEarly(front, n);
      assert front[..n] == es[..n];
    }
  }

  /** The tracer object. */
  class Tracer {
    var numberCounter: nat
    var current: Option<nat>
    var levels: map<nat, Level>
    var lastOp: string
    var keccak: seq<seq<Byte>>
    var logs: seq<Log>
    var calls: seq<CallStack.CallInfo>

    ghost function Abs(): State
      reads this
    {
      State(numberCounter, current, levels, lastOp, keccak, logs, calls)
    }

    constructor ()
      ensures Abs() == INITIAL
    {
      numberCounter, current, levels, lastOp, keccak, logs, calls := 0, None, map[], "", [], [], [];
    }

    method OnEnter(call: CallStack.CallInfo)
      modifies this
      ensures Abs() == OnEvent(old(Abs()), Enter(call)).value
    {
      calls := calls + [call];
    }

    method OnExit(failed: bool, output: string)
      modifies this
      ensures Abs() == OnEvent(old(Abs()), Exit(failed, output)).value
    {
      calls := calls + [EndRecord(if failed then "REVERT" else "RETURN", output)];
    }

    method OnStepEvent(s: Step) returns (ok: bool)
      modifies this
      ensures ok <==> OnStep(old(Abs()), s).Some?
      ensures ok ==> Abs() == OnStep(old(Abs()), s).value
    {
      hide NeedsLevel, Counts, NoteTarget, MarkStarved, CountAccess, CountOpcode, Hashes, StepLogs, StepCalls;
      CountingNeedsLevel(lastOp, s);
      if NeedsLevel(lastOp, s) {
        if current.None? || current.value !in levels {
          return false;
        }
        levels := levels[current.value := NoteTarget(MarkStarved(levels[current.value], s), s)];
      }
      if !s.Deep() {
        calls := calls + StepCalls(s);
        if s.opcode == "NUMBER" {
          numberCounter := numberCounter + 1;
        }
        if numberCounter !in levels {
          levels := levels[numberCounter := EMPTY_LEVEL];
          current := Some(numberCounter);
        }
        lastOp := "";
        return true;
      }
      if Counts(lastOp, s) {
        levels := levels[current.value := CountAccess(CountOpcode(levels[current.value], lastOp, s), s)];
      }
      lastOp := s.opcode;
      if Hashes(s) {
        keccak := keccak + [s.hashed];
      }
      logs := logs + StepLogs(s);
      return true;
    }

    /** Feeds a whole trace. */
    method Collect(es: seq<Event>) returns (ok: bool)
      requires Abs() == INITIAL && Starts(StepsOf(es))
      modifies this
      ensures ok && Collected(es, Abs())
    {
      hide OnEvent, Collected, StepsOf, Starts;
      var i := 0;
      while i < |es|
        invariant i <= |es| && RunEvents(es[..i]) == Some(Abs())
      {
        StartsEarly(es, i + 1);
        EventsCollected(es[..i + 1]);
        assert es[..i + 1][..i] == es[..i];
        ok := Feed(es[i]);
        i := i + 1;
      }
      assert es[..|es|] == es;
      EventsCollected(es);
      ok := true;
    }

    method Feed(e: Event) returns (ok: bool)
      modifies this
      ensures ok <==> OnEvent(old(Abs()), e).Some?
      ensures ok ==> Abs() == OnEvent(old(Abs()), e).value
    {
      hide OnStep;
      match e {
        case Executed(s) => ok := OnStepEvent(s);
        case Enter(call) => OnEnter(call); ok := true;
        case Exit(failed, output) => OnExit(failed, output); ok := true;
      }
    }
  }
}
