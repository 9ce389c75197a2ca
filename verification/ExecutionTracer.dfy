/** The execution gas tracer: a stream of step/enter/exit events is folded into one gas limit, using a
    table indexed by call depth. */
module ExecutionTracer {
  import opened Wrappers
  import opened Logs

  // ---------------------------------------------------------------------------------------------
  // Traces as call trees
  // ---------------------------------------------------------------------------------------------

  const USER_OPERATION_EVENT := "0x49628fd1471006c1482da88028e9ce4dbb080b815c9b0344d39e5a8e6ec1419f"

  /** One executed opcode. `gas` and `cost` are what the step log reports; `burn` is what the opcode takes
      from its own frame, which for a call excludes the gas it forwards. `words` is the stack from its third word on
      and `data` the memory that the first two words delimit. */
  datatype Op = Op(opcode: string, gas: nat, cost: nat, burn: nat, words: seq<string>, data: string) {
    predicate Starved() {
      gas < cost
    }

    predicate Number() {
      opcode == "NUMBER"
    }

    predicate LogsUserOperation() {
      IsLog(opcode) && words != [] && words[0] == USER_OPERATION_EVENT
    }

    function Logged(): Log {
      Emit(opcode, words, data)
    }
  }

  /** What a frame reports when it ends. */
  datatype End = End(used: nat, failed: bool, output: string)

  /** The steps of one frame, in order, with the frames it opens. Every frame of this type executes at least
      one step, its last step is its own, and a call directly follows the step that makes it. `Bare` is a
      call to a callee that executes no step: a precompile or an account without code. */
  datatype Body =
    | Halt(op: Op)
    | Plain(op: Op, rest: Body)
    | Call(op: Op, child: Body, end: End, rest: Body)
    | Bare(op: Op, end: End, rest: Body)

  datatype Event =
    | Step(depth: nat, op: Op)
    | Enter
    | Exit(end: End)

  /** The events a node emits for a frame's body at depth `d`. */
  function Events(b: Body, d: nat): seq<Event> {
    match b
    case Halt(op) => [Step(d, op)]
    case Plain(op, rest) => [Step(d, op)] + Events(rest, d)
    case Call(op, child, end, rest) => [Step(d, op), Enter] + Events(child, d + 1) + [Exit(end)] + Events(rest, d)
    case Bare(op, end, rest) => [Step(d, op), Enter, Exit(end)] + Events(rest, d)
  }

  // ---------------------------------------------------------------------------------------------
  // The tracer's state machine
  // ---------------------------------------------------------------------------------------------

  /** The gas booked for all frames at one depth. */
  datatype Gas = Gas(used: int, required: int) {
    function Plus(other: Gas): Gas {
      Gas(used + other.used, required + other.required)
    }
  }

  const ZERO := Gas(0, 0)
  const VALIDATION_MARKER := 1
  const EXECUTION_MARKER := 3

  /** ceil(64 * n / 63). */
  function AllButOne64th(n: int): int {
    (64 * n + 62) / 63
  }

  /** What one exiting frame adds to its depth, given what was booked one depth below it. */
  function Settle(used: nat, nested: Gas): Gas {
    Gas(used, used - nested.used + AllButOne64th(nested.required))
  }

  datatype State = State(
    depth: nat,
    marker: nat,
    gasStack: map<nat, Gas>,
    executionGasLimit: int,
    reverts: seq<string>,
    validationOOG: bool,
    executionOOG: bool,
    userOperationEvent: Option<Log>)
  {
    predicate IsExecution() {
      marker == EXECUTION_MARKER
    }

    predicate IsValidation() {
      VALIDATION_MARKER <= marker < EXECUTION_MARKER
    }

    /** The item at a depth, or the default item when the slot was never set. */
    function Slot(d: nat): Gas {
      if d in gasStack then gasStack[d] else ZERO
    }
  }

  const INITIAL := State(0, 0, map[], 0, [], false, false, None)

  function OnStep(s: State, d: nat, op: Op): State {
    var marker := if d == 1 && op.Number() then s.marker + 1 else s.marker;
    var t := s.(depth := d, marker := marker);
    t.(validationOOG := s.validationOOG || (op.Starved() && t.IsValidation()),
       executionOOG := s.executionOOG || (op.Starved() && t.IsExecution()),
       userOperationEvent := if d <= 2 && op.LogsUserOperation() then Some(op.Logged()) else s.userOperationEvent)
  }

  function OnEnter(s: State): State {
    if s.IsExecution() && s.depth + 1 !in s.gasStack then
      s.(gasStack := s.gasStack[s.depth + 1 := ZERO])
    else
      s
  }

  /** `None` when the exit dereferences a slot that was never set. */
  function OnExit(s: State, end: End): Option<State> {
    if !s.IsExecution() then
      Some(s)
    else
      var reverts := if end.failed then s.reverts + [end.output] else s.reverts;
      if s.depth < 2 then
        Some(s.(reverts := reverts))
      else if s.depth !in s.gasStack then
        None
      else
        var own := s.gasStack[s.depth].Plus(Settle(end.used, s.Slot(s.depth + 1)));
        Some(s.(reverts := reverts,
                gasStack := s.gasStack[s.depth + 1 := ZERO][s.depth := own],
                executionGasLimit := own.required))
  }

  /** The books after an exit that settles. */
  lemma OnExitSettles(s: State, end: End)
    requires s.IsExecution() && s.depth >= 2 && s.depth in s.gasStack
    ensures var own := s.gasStack[s.depth].Plus(Settle(end.used, s.Slot(s.depth + 1)));
      OnExit(s, end) == Some(s.(reverts := s.reverts + Failure(end),
                                gasStack := s.gasStack[s.depth + 1 := ZERO][s.depth := own],
                                executionGasLimit := own.required))
  {
    assert s.reverts + [] == s.reverts;
  }

  function Next(s: State, e: Event): Option<State> {
    match e
    case Step(d, op) => Some(OnStep(s, d, op))
    case Enter => Some(OnEnter(s))
    case Exit(end) => OnExit(s, end)
  }

  function Run(s: State, es: seq<Event>): Option<State>
    decreases |es|
  {
    if es == [] then Some(s) else
    var t :- Next(s, es[0]);
    Run(t, es[1..])
  }

  /** The tracer object itself: the same machine, by mutation of its fields. */
  class Tracer {
    var depth: nat
    var marker: nat
    var gasStack: map<nat, Gas>
    var executionGasLimit: int
    var reverts: seq<string>
    var validationOOG: bool
    var executionOOG: bool
    var userOperationEvent: Option<Log>

    ghost function Abs(): State
      reads this
    {
      State(depth, marker, gasStack, executionGasLimit, reverts, validationOOG, executionOOG, userOperationEvent)
    }

    constructor ()
      ensures Abs() == INITIAL
    {
      depth, marker, gasStack, executionGasLimit := 0, 0, map[], 0;
      reverts, validationOOG, executionOOG, userOperationEvent := [], false, false, None;
    }

    method Enter()
      modifies this
      ensures Abs() == OnEnter(old(Abs()))
    {
      if marker == EXECUTION_MARKER {
        var next := depth + 1;
        if next !in gasStack {
          gasStack := gasStack[next := ZERO];
        }
      }
    }

    method Exit(end: End) returns (ok: bool)
      modifies this
      ensures ok <==> OnExit(old(Abs()), end).Some?
      ensures ok ==> Abs() == OnExit(old(Abs()), end).value
    {
      ok := true;
      ghost var s := Abs();
      if marker == EXECUTION_MARKER {
        if end.failed {
          reverts := reverts + [end.output];
        }
        assert reverts == s.reverts + Failure(end);
        if depth >= 2 {
          var nested := if depth + 1 in gasStack then gasStack[depth + 1] else ZERO;
          gasStack := gasStack[depth + 1 := ZERO];
          if depth !in gasStack {
            return false;
          }
          OnExitSettles(s, end);
          hide OnExit, Settle, Failure, Gas.Plus;
          var item := gasStack[depth].Plus(Settle(end.used, nested));
          gasStack := gasStack[depth := item];
          executionGasLimit := item.required;
        }
      }
    }

    method Step(d: nat, op: Op)
      modifies this
      ensures Abs() == OnStep(old(Abs()), d, op)
    {
      depth := d;
      if depth == 1 && op.opcode == "NUMBER" {
        marker := marker + 1;
      }
      if depth <= 2 && op.LogsUserOperation() {
        userOperationEvent := Some(op.Logged());
      }
      if op.gas < op.cost && VALIDATION_MARKER <= marker < EXECUTION_MARKER {
        validationOOG := true;
      }
      if op.gas < op.cost && marker == EXECUTION_MARKER {
        executionOOG := true;
      }
    }

    method Feed(e: Event) returns (ok: bool)
      modifies this
      ensures ok <==> Next(old(Abs()), e).Some?
      ensures ok ==> Abs() == Next(old(Abs()), e).value
    {
      hide OnStep, OnEnter, OnExit;
      ok := true;
      match e {
        case Step(d, op) => Step(d, op);
        case Enter => Enter();
        case Exit(end) => ok := Exit(end);
      }
    }

    /** Feeds a whole trace; the figures are those of the call tree that produced it. */
    method TraceCall(top: Body) returns (ok: bool)
      requires Abs() == INITIAL
      modifies this
      ensures ok
      ensures Figures(top, Abs()) && FlatFigures(Events(top, 1), |Events(top, 1)|, Abs())
    {
      hide Next, Figures, FlatFigures, Numbers;
      var es := Events(top, 1);
      ok := true;
      TraceFigures(top);
      assert es[0..] == es;
      var i := 0;
      while i < |es|
        invariant i <= |es|
        invariant Run(Abs(), es[i..]) == Run(INITIAL, es) && Run(INITIAL, es).Some?
      {
        assert es[i..][0] == es[i] && es[i..][1..] == es[i + 1..];
        ok := Feed(es[i]);
        if !ok {
          return;
        }
        i := i + 1;
      }
    }
  }

  // ---------------------------------------------------------------------------------------------
  // Figures read off the flat events
  // ---------------------------------------------------------------------------------------------

  /** How many of the first `n` events are NUMBER steps at depth 1. */
  function Numbers(es: seq<Event>, n: nat): nat
    requires n <= |es|
  {
    if n == 0 then 0 else
    Numbers(es, n - 1) + match es[n - 1] {
      case Step(d, op) => if d == 1 && op.opcode == "NUMBER" then 1 else 0
      case _ => 0
    }
  }

  /** One of the first `n` events is a step with less gas than its cost, and from `lo` to `hi` of the events up to it,
      itself included, are NUMBER steps at depth 1. */
  predicate Short(es: seq<Event>, n: nat, lo: nat, hi: nat)
    requires n <= |es|
  {
    exists i :: 0 <= i < n && es[i].Step? && es[i].op.gas < es[i].op.cost && lo <= Numbers(es, i + 1) <= hi
  }

  /** The outputs of the frames among the first `n` events that failed after exactly three NUMBER steps at depth 1. */
  function FailedOutputs(es: seq<Event>, n: nat): seq<string>
    requires n <= |es|
  {
    if n == 0 then [] else
    FailedOutputs(es, n - 1) + match es[n - 1] {
      case Exit(end) => if end.failed && Numbers(es, n) == 3 then [end.output] else []
      case _ => []
    }
  }

  /** What the last of the first `n` events logged that is a LOG step at depth 1 or 2 whose first topic is that of a
      UserOperationEvent. */
  function LastLogged(es: seq<Event>, n: nat): Option<Log>
    requires n <= |es|
  {
    if n == 0 then None else
    match es[n - 1]
    case Step(d, op) =>
      if d <= 2 && "LOG" <= op.opcode && op.words != []
         && op.words[0] == "0x49628fd1471006c1482da88028e9ce4dbb080b815c9b0344d39e5a8e6ec1419f" then
        Some(Emit(op.opcode, op.words, op.data))
      else LastLogged(es, n - 1)
    case _ => LastLogged(es, n - 1)
  }

  lemma {:induction false} RunMore(s: State, es: seq<Event>, n: nat)
    requires n < |es|
    ensures Run(s, es[..n + 1]) == match Run(s, es[..n]) { case None => None case Some(t) => Next(t, es[n]) }
    decreases n
  {
    hide Next;
    if n == 0 {
      assert es[..1] == [es[0]];
      RunCons(s, es[0], []);
      assert [es[0]] + [] == [es[0]];
      assert forall t :: Run(t, []) == Some(t);
    } else {
      assert es[..n + 1] == [es[0]] + es[1..][..n] && es[..n] == [es[0]] + es[1..][..n - 1];
      RunCons(s, es[0], es[1..][..n]);
      RunCons(s, es[0], es[1..][..n - 1]);
      if Next(s, es[0]).Some? {
        RunMore(Next(s, es[0]).value, es[1..], n - 1);
      }
    }
  }

  ghost predicate FlatFigures(es: seq<Event>, n: nat, t: State)
    requires n <= |es|
  {
    && t.marker == Numbers(es, n)
    && (t.validationOOG <==> Short(es, n, 1, 2)) && (t.executionOOG <==> Short(es, n, 3, 3))
    && t.reverts == FailedOutputs(es, n)
    && t.userOperationEvent == LastLogged(es, n)
  }

  lemma ShortMore(es: seq<Event>, n: nat, lo: nat, hi: nat)
    requires n < |es|
    ensures Short(es, n + 1, lo, hi) <==>
            Short(es, n, lo, hi) ||
            (es[n].Step? && es[n].op.gas < es[n].op.cost && lo <= Numbers(es, n + 1) <= hi)
  {
    hide Numbers;
  }

  lemma FlatStep(es: seq<Event>, n: nat, s: State)
    requires n < |es| && FlatFigures(es, n, s) && Next(s, es[n]).Some?
    ensures FlatFigures(es, n + 1, Next(s, es[n]).value)
  {
    ShortMore(es, n, 1, 2);
    ShortMore(es, n, 3, 3);
    hide Short, Emit;
  }

  /** For every stream of events on which the tracer does not fail: shortages, reverts and the event kept are those of
      the stream, by the number of NUMBER steps at depth 1 alone. */
  lemma {:induction false} FlatRun(es: seq<Event>, n: nat)
    requires n <= |es| && Run(INITIAL, es[..n]).Some?
    ensures FlatFigures(es, n, Run(INITIAL, es[..n]).value)
  {
    hide Next;
    if n == 0 {
      assert Run(INITIAL, es[..0]) == Some(INITIAL);
    } else {
      RunMore(INITIAL, es, n - 1);
      FlatRun(es, n - 1);
      hide FlatFigures;
      FlatStep(es, n - 1, Run(INITIAL, es[..n - 1]).value);
    }
  }

  /** The same run, following the call tree instead of its events. */
  function RunBody(s: State, b: Body, d: nat): Option<State>
    decreases b
  {
    var s1 := OnStep(s, d, b.op);
    match b
    case Halt(_) => Some(s1)
    case Plain(_, rest) => RunBody(s1, rest, d)
    case Call(_, child, end, rest) =>
      var s2 :- RunBody(OnEnter(s1), child, d + 1);
      var s3 :- OnExit(s2, end);
      RunBody(s3, rest, d)
    case Bare(_, end, rest) =>
      var s3 :- OnExit(OnEnter(s1), end);
      RunBody(s3, rest, d)
  }

  lemma RunCons(s: State, e: Event, es: seq<Event>)
    ensures Run(s, [e] + es) == match Next(s, e) { case None => None case Some(t) => Run(t, es) }
  {
    assert ([e] + es)[1..] == es;
  }

  lemma {:induction false} RunBodyIsRun(s: State, b: Body, d: nat, tail: seq<Event>)
    ensures Run(s, Events(b, d) + tail) ==
            match RunBody(s, b, d) { case None => None case Some(t) => Run(t, tail) }
    decreases b
  {
    hide OnStep, OnEnter, OnExit, Run;
    var s1 := OnStep(s, d, b.op);
    match b
    case Halt(op) =>
      RunCons(s, Step(d, op), tail);
    case Plain(op, rest) =>
      assert Events(b, d) + tail == [Step(d, op)] + (Events(rest, d) + tail);
      RunCons(s, Step(d, op), Events(rest, d) + tail);
      RunBodyIsRun(s1, rest, d, tail);
    case Call(op, child, end, rest) =>
      var es3 := Events(rest, d) + tail;
      var es2 := Events(child, d + 1) + ([Exit(end)] + es3);
      assert Events(b, d) + tail == [Step(d, op)] + ([Enter] + es2);
      RunCons(s, Step(d, op), [Enter] + es2);
      RunCons(s1, Enter, es2);
      RunBodyIsRun(OnEnter(s1), child, d + 1, [Exit(end)] + es3);
      match RunBody(OnEnter(s1), child, d + 1) {
        case None =>
        case Some(s2) =>
          RunCons(s2, Exit(end), es3);
          if OnExit(s2, end).Some? {
            RunBodyIsRun(OnExit(s2, end).value, rest, d, tail);
          }
      }
    case Bare(op, end, rest) =>
      var es3 := Events(rest, d) + tail;
      assert Events(b, d) + tail == [Step(d, op)] + ([Enter] + ([Exit(end)] + es3));
      RunCons(s, Step(d, op), [Enter] + ([Exit(end)] + es3));
      RunCons(s1, Enter, [Exit(end)] + es3);
      RunCons(OnEnter(s1), Exit(end), es3);
      if OnExit(OnEnter(s1), end).Some? {
        RunBodyIsRun(OnExit(OnEnter(s1), end).value, rest, d, tail);
      }
  }

  // ---------------------------------------------------------------------------------------------
  // What the table computes, as a recursion over the call tree
  // ---------------------------------------------------------------------------------------------

  /** The two table entries a frame's body works on: its own depth and the one below. */
  datatype Books = Books(own: Gas, nested: Gas)

  function BookBody(b: Body, at: Books): Books
    decreases b, 0
  {
    match b
    case Halt(_) => at
    case Plain(_, rest) => BookBody(rest, at)
    case Call(_, child, end, rest) => BookBody(rest, at.(nested := at.nested.Plus(Booked(child, end))))
    case Bare(_, end, rest) => BookBody(rest, Books(at.own.Plus(Settle(end.used, at.nested)), ZERO))
  }

  /** What a finished frame adds to the entry of its depth. */
  function Booked(b: Body, end: End): Gas
    decreases b, 1
  {
    var r := BookBody(b, Books(ZERO, ZERO));
    r.own.Plus(Settle(end.used, r.nested))
  }

  /** The total booked for the frames opened at depth 1 while the marker stands at the execution phase. */
  function TopBooked(b: Body, marker: nat): Gas {
    var m := if b.op.Number() then marker + 1 else marker;
    match b
    case Halt(_) => ZERO
    case Plain(_, rest) => TopBooked(rest, m)
    case Call(_, child, end, rest) =>
      (if m == EXECUTION_MARKER then Booked(child, end) else ZERO).Plus(TopBooked(rest, m))
    case Bare(_, _, rest) => TopBooked(rest, m)
  }

  function Failure(end: End): seq<string> {
    if end.failed then [end.output] else []
  }

  /** Outputs of the failed frames below a body, innermost first. */
  function Reverts(b: Body): seq<string> {
    match b
    case Halt(_) => []
    case Plain(_, rest) => Reverts(rest)
    case Call(_, child, end, rest) => Reverts(child) + Failure(end) + Reverts(rest)
    case Bare(_, end, rest) => Failure(end) + Reverts(rest)
  }

  function TopReverts(b: Body, marker: nat): seq<string> {
    var m := if b.op.Number() then marker + 1 else marker;
    var on := m == EXECUTION_MARKER;
    match b
    case Halt(_) => []
    case Plain(_, rest) => TopReverts(rest, m)
    case Call(_, child, end, rest) => (if on then Reverts(child) + Failure(end) else []) + TopReverts(rest, m)
    case Bare(_, end, rest) => (if on then Failure(end) else []) + TopReverts(rest, m)
  }

  /** Some step of the body, or of a frame below it, had less gas than its cost. */
  predicate Starved(b: Body) {
    b.op.Starved() ||
    match b
    case Halt(_) => false
    case Plain(_, rest) => Starved(rest)
    case Call(_, child, _, rest) => Starved(child) || Starved(rest)
    case Bare(_, _, rest) => Starved(rest)
  }

  /** Some step was starved while the marker stood between `lo` and `hi`. */
  predicate TopStarved(b: Body, marker: nat, lo: nat, hi: nat) {
    var m := if b.op.Number() then marker + 1 else marker;
    var on := lo <= m <= hi;
    (on && b.op.Starved()) ||
    match b
    case Halt(_) => false
    case Plain(_, rest) => TopStarved(rest, m, lo, hi)
    case Call(_, child, _, rest) => (on && Starved(child)) || TopStarved(rest, m, lo, hi)
    case Bare(_, _, rest) => TopStarved(rest, m, lo, hi)
  }

  function EmittedBy(op: Op, d: nat): seq<Log> {
    if d <= 2 && op.LogsUserOperation() then [op.Logged()] else []
  }

  /** The UserOperationEvents that the body emits at depth 1 or 2, in order. */
  function Emitted(b: Body, d: nat): seq<Log> {
    EmittedBy(b.op, d) +
    match b
    case Halt(_) => []
    case Plain(_, rest) => Emitted(rest, d)
    case Call(_, child, _, rest) => Emitted(child, d + 1) + Emitted(rest, d)
    case Bare(_, _, rest) => Emitted(rest, d)
  }

  function Latest(before: Option<Log>, logs: seq<Log>): Option<Log> {
    if logs == [] then before else Some(logs[|logs| - 1])
  }

  // ---------------------------------------------------------------------------------------------
  // The table refines the recursion
  // ---------------------------------------------------------------------------------------------

  lemma LatestAdds(before: Option<Log>, a: seq<Log>, b: seq<Log>)
    ensures Latest(Latest(before, a), b) == Latest(before, a + b)
  {
  }

  lemma LatestOfCall(before: Option<Log>, b: Body, d: nat)
    requires b.Call?
    ensures Latest(Latest(Latest(before, EmittedBy(b.op, d)), Emitted(b.child, d + 1)), Emitted(b.rest, d)) ==
            Latest(before, Emitted(b, d))
  {
    hide EmittedBy, Latest;
    var own, inner, later := EmittedBy(b.op, d), Emitted(b.child, d + 1), Emitted(b.rest, d);
    LatestAdds(before, own, inner);
    LatestAdds(before, own + inner, later);
    assert own + inner + later == own + (inner + later);
  }

  /** In every phase the event kept is the last UserOperationEvent of depth 1 or 2. */
  lemma {:induction false} EventRun(s: State, b: Body, d: nat)
    requires RunBody(s, b, d).Some?
    ensures RunBody(s, b, d).value.userOperationEvent == Latest(s.userOperationEvent, Emitted(b, d))
    decreases b
  {
    hide Latest, EmittedBy, OnStep, OnExit, OnEnter;
    var s1 := OnStep(s, d, b.op);
    EventStep(s, d, b.op);
    match b
    case Halt(op) =>
      assert EmittedBy(op, d) + [] == EmittedBy(op, d);
    case Plain(op, rest) =>
      EventRun(s1, rest, d);
      LatestAdds(s.userOperationEvent, EmittedBy(op, d), Emitted(rest, d));
    case Call(op, child, end, rest) =>
      hide Emitted;
      FrameKeepsEvent(s1, end);
      EventRun(OnEnter(s1), child, d + 1);
      var s2 := RunBody(OnEnter(s1), child, d + 1).value;
      FrameKeepsEvent(s2, end);
      EventRun(OnExit(s2, end).value, rest, d);
      LatestOfCall(s.userOperationEvent, b, d);
    case Bare(op, end, rest) =>
      FrameKeepsEvent(s1, end);
      FrameKeepsEvent(OnEnter(s1), end);
      EventRun(OnExit(OnEnter(s1), end).value, rest, d);
      LatestAdds(s.userOperationEvent, EmittedBy(op, d), Emitted(rest, d));
  }

  lemma EventStep(s: State, d: nat, op: Op)
    ensures OnStep(s, d, op).userOperationEvent ==
            Latest(s.userOperationEvent, EmittedBy(op, d))
  {
  }

  lemma FrameKeepsEvent(s: State, end: End)
    ensures OnEnter(s).userOperationEvent == s.userOperationEvent
    ensures OnExit(s, end).Some? ==> OnExit(s, end).value.userOperationEvent == s.userOperationEvent
  {
  }

  lemma {:induction false} BookBodyAdds(b: Body, own: Gas, nested: Gas)
    ensures BookBody(b, Books(own, nested)).nested == BookBody(b, Books(ZERO, nested)).nested
    ensures BookBody(b, Books(own, nested)).own == own.Plus(BookBody(b, Books(ZERO, nested)).own)
  {
    match b
    case Halt(_) =>
    case Plain(_, rest) => BookBodyAdds(rest, own, nested);
    case Call(_, child, end, rest) => BookBodyAdds(rest, own, nested.Plus(Booked(child, end)));
    case Bare(_, end, rest) =>
      var more := Settle(end.used, nested);
      BookBodyAdds(rest, own.Plus(more), ZERO);
      BookBodyAdds(rest, ZERO.Plus(more), ZERO);
  }

  lemma FrameBooks(b: Body, end: End, own: Gas)
    ensures var r := BookBody(b, Books(own, ZERO));
      r.own.Plus(Settle(end.used, r.nested)) == own.Plus(Booked(b, end))
  {
    BookBodyAdds(b, own, ZERO);
  }

  /** Slots more than one below `d` hold nothing. */
  ghost predicate CleanBelow(s: State, d: nat) {
    forall k :: k > d + 1 && k in s.gasStack ==> s.gasStack[k] == ZERO
  }

  ghost predicate SameAbove(s: State, t: State, d: nat) {
    forall k: nat :: k < d ==> (k in s.gasStack <==> k in t.gasStack) && s.Slot(k) == t.Slot(k)
  }

  /** `t` is what running a depth-`d` body in the execution phase makes of `s`. */
  ghost predicate BodyRan(b: Body, d: nat, s: State, t: State) {
    && t.depth == d && t.IsExecution()
    && d in t.gasStack
    && Books(t.Slot(d), t.Slot(d + 1)) == BookBody(b, Books(s.Slot(d), s.Slot(d + 1)))
    && CleanBelow(t, d)
    && SameAbove(s, t, d)
    && t.reverts == s.reverts + Reverts(b)
    && t.validationOOG == s.validationOOG
    && t.executionOOG == (s.executionOOG || Starved(b))
  }

  ghost predicate FrameRan(b: Body, end: End, d: nat, s: State, t: State) {
    && t.depth == d + 1 && t.IsExecution()
    && d + 1 in t.gasStack
    && t.Slot(d + 1) == s.Slot(d + 1).Plus(Booked(b, end))
    && CleanBelow(t, d)
    && SameAbove(s, t, d + 1)
    && t.executionGasLimit == t.Slot(d + 1).required
    && t.reverts == s.reverts + Reverts(b) + Failure(end)
    && t.validationOOG == s.validationOOG
    && t.executionOOG == (s.executionOOG || Starved(b))
  }

  /** `t` is `s` after an enter from depth `d`. */
  ghost predicate Entered(s: State, t: State, d: nat) {
    && t == s.(gasStack := t.gasStack)
    && d + 1 in t.gasStack && t.Slot(d + 1) == s.Slot(d + 1) && t.Slot(d + 2) == ZERO
    && CleanBelow(t, d) && SameAbove(s, t, d + 1)
  }

  lemma EnterStep(s: State, d: nat)
    requires s.depth == d && s.IsExecution() && CleanBelow(s, d)
    ensures Entered(s, OnEnter(s), d)
  {
  }

  /** `t` is `s` after an exit at depth `d`. */
  ghost predicate Exited(s: State, end: End, t: State, d: nat) {
    && t.depth == d && t.IsExecution()
    && d in t.gasStack && t.Slot(d) == s.Slot(d).Plus(Settle(end.used, s.Slot(d + 1)))
    && t.Slot(d + 1) == ZERO
    && CleanBelow(t, d) && SameAbove(s, t, d)
    && t.executionGasLimit == t.Slot(d).required
    && t.reverts == s.reverts + Failure(end)
    && t.validationOOG == s.validationOOG && t.executionOOG == s.executionOOG
  }

  lemma ExitStep(s: State, end: End, d: nat)
    requires s.depth == d >= 2 && s.IsExecution() && d in s.gasStack && CleanBelow(s, d)
    ensures OnExit(s, end).Some?
    ensures Exited(s, end, OnExit(s, end).value, d)
  {
    OnExitSettles(s, end);
  }

  lemma SameAboveThrough(s: State, t: State, u: State, d: nat)
    requires SameAbove(s, t, d) && SameAbove(t, u, d)
    ensures SameAbove(s, u, d)
  {
  }

  lemma CleanOneUp(t: State, d: nat)
    requires CleanBelow(t, d + 1) && t.Slot(d + 2) == ZERO
    ensures CleanBelow(t, d)
  {
  }

  lemma FrameSlot(child: Body, end: End, d: nat, s: State, s1: State, s2: State, t: State)
    requires Entered(s, s1, d) && BodyRan(child, d + 1, s1, s2) && Exited(s2, end, t, d + 1)
    ensures t.Slot(d + 1) == s.Slot(d + 1).Plus(Booked(child, end))
  {
    hide CleanBelow, SameAbove, Booked, Settle, Starved, Reverts, BookBody, Failure;
    FrameBooks(child, end, s.Slot(d + 1));
  }

  /** The outputs and flags of a frame. */
  ghost predicate FrameReports(b: Body, end: End, s: State, t: State) {
    && t.reverts == s.reverts + Reverts(b) + Failure(end)
    && t.validationOOG == s.validationOOG
    && t.executionOOG == (s.executionOOG || Starved(b))
  }

  lemma FrameFlags(child: Body, end: End, d: nat, s: State, s1: State, s2: State, t: State)
    requires Entered(s, s1, d) && BodyRan(child, d + 1, s1, s2) && Exited(s2, end, t, d + 1)
    ensures FrameReports(child, end, s, t)
  {
    hide CleanBelow, SameAbove, Booked, Settle, Starved, Reverts, BookBody, Failure, State.Slot;
  }

  lemma FrameFromBody(child: Body, end: End, d: nat, s: State, s1: State, s2: State, t: State)
    requires d >= 1 && Entered(s, s1, d) && BodyRan(child, d + 1, s1, s2) && Exited(s2, end, t, d + 1)
    ensures FrameRan(child, end, d, s, t)
  {
    hide CleanBelow, SameAbove, Booked, Settle, Starved, Reverts, BookBody, Failure, State.Slot;
    FrameSlot(child, end, d, s, s1, s2, t);
    FrameFlags(child, end, d, s, s1, s2, t);
    CleanOneUp(t, d);
    SameAboveThrough(s, s1, s2, d + 1);
    SameAboveThrough(s, s2, t, d + 1);
  }

  /** A frame opened from depth `d`, from its enter to its exit. */
  function RunFrame(s: State, child: Body, end: End, d: nat): Option<State> {
    var t :- RunBody(OnEnter(s), child, d + 1);
    OnExit(t, end)
  }

  /** No slot the frame reads is unset, and it books exactly its own charge. */
  lemma {:induction false} FrameRun(child: Body, end: End, d: nat, s: State)
    requires d >= 1 && s.depth == d && s.IsExecution() && CleanBelow(s, d)
    ensures RunFrame(s, child, end, d).Some?
    ensures FrameRan(child, end, d, s, RunFrame(s, child, end, d).value)
    decreases child, 1
  {
    hide RunBody, OnExit, OnEnter;
    EnterStep(s, d);
    var s1 := OnEnter(s);
    BodyRun(child, d + 1, s1);
    var s2 := RunBody(s1, child, d + 1).value;
    ExitStep(s2, end, d + 1);
    assert RunFrame(s, child, end, d) == OnExit(s2, end);
    var t := RunFrame(s, child, end, d).value;
    FrameFromBody(child, end, d, s, s1, s2, t);
  }

  /** The run of a call is the run of its frame, then of the rest. */
  lemma RunCall(s: State, b: Body, d: nat)
    requires b.Call?
    ensures RunBody(s, b, d) ==
            match RunFrame(OnStep(s, d, b.op), b.child, b.end, d) {
              case None => None
              case Some(t) => RunBody(t, b.rest, d)
            }
  {
  }

  /** A step books nothing. */
  lemma StepKeepsBooks(s: State, d: nat, op: Op, k: nat)
    ensures OnStep(s, d, op).Slot(k) == s.Slot(k)
    ensures SameAbove(s, OnStep(s, d, op), k)
  {
  }

  lemma SameSlot(s: State, t: State, d: nat)
    requires SameAbove(s, t, d + 1)
    ensures s.Slot(d) == t.Slot(d) && SameAbove(s, t, d)
  {
  }

  lemma CallFlags(b: Body, d: nat, s: State, s2: State, t: State)
    requires b.Call? && d >= 2 && s.IsExecution()
    requires FrameRan(b.child, b.end, d, OnStep(s, d, b.op), s2) && BodyRan(b.rest, d, s2, t)
    ensures t.reverts == s.reverts + Reverts(b) && t.validationOOG == s.validationOOG
    ensures t.executionOOG == (s.executionOOG || Starved(b))
  {
    hide CleanBelow, SameAbove, Booked, BookBody, Failure, State.Slot;
    assert Reverts(b) == Reverts(b.child) + Failure(b.end) + Reverts(b.rest);
    hide Reverts;
    assert s.reverts + (Reverts(b.child) + Failure(b.end) + Reverts(b.rest))
        == s.reverts + Reverts(b.child) + Failure(b.end) + Reverts(b.rest);
  }

  lemma CallFromFrame(b: Body, d: nat, s: State, s2: State, t: State)
    requires b.Call? && d >= 2 && s.IsExecution() && CleanBelow(s, d) && d in s.gasStack
    requires FrameRan(b.child, b.end, d, OnStep(s, d, b.op), s2) && BodyRan(b.rest, d, s2, t)
    ensures BodyRan(b, d, s, t)
  {
    hide CleanBelow, SameAbove, Booked, Starved, Reverts, Failure, State.Slot, OnStep;
    CallFlags(b, d, s, s2, t);
    var s1 := OnStep(s, d, b.op);
    StepKeepsBooks(s, d, b.op, d);
    StepKeepsBooks(s, d, b.op, d + 1);
    SameSlot(s1, s2, d);
    SameAboveThrough(s, s1, s2, d);
    SameAboveThrough(s, s2, t, d);
  }

  lemma BareFlags(b: Body, d: nat, s: State, s2: State, s3: State, t: State)
    requires b.Bare? && d >= 2 && s.IsExecution()
    requires Entered(OnStep(s, d, b.op), s2, d) && Exited(s2, b.end, s3, d) && BodyRan(b.rest, d, s3, t)
    ensures t.reverts == s.reverts + Reverts(b) && t.validationOOG == s.validationOOG
    ensures t.executionOOG == (s.executionOOG || Starved(b))
  {
    hide CleanBelow, SameAbove, Booked, BookBody, Failure, Settle, State.Slot;
    assert Reverts(b) == Failure(b.end) + Reverts(b.rest);
    hide Reverts;
    assert s.reverts + (Failure(b.end) + Reverts(b.rest)) == s.reverts + Failure(b.end) + Reverts(b.rest);
  }

  lemma BareFromExit(b: Body, d: nat, s: State, s2: State, s3: State, t: State)
    requires b.Bare? && d >= 2 && s.IsExecution() && CleanBelow(s, d) && d in s.gasStack
    requires Entered(OnStep(s, d, b.op), s2, d) && Exited(s2, b.end, s3, d) && BodyRan(b.rest, d, s3, t)
    ensures BodyRan(b, d, s, t)
  {
    hide CleanBelow, SameAbove, Settle, Starved, Reverts, Failure, State.Slot, OnStep;
    BareFlags(b, d, s, s2, s3, t);
    var s1 := OnStep(s, d, b.op);
    StepKeepsBooks(s, d, b.op, d);
    StepKeepsBooks(s, d, b.op, d + 1);
    SameSlot(s1, s2, d);
    SameAboveThrough(s, s1, s2, d);
    SameAboveThrough(s, s2, s3, d);
    SameAboveThrough(s, s3, t, d);
  }

  lemma {:induction false} BodyRun(b: Body, d: nat, s: State)
    requires d >= 2 && s.IsExecution() && d in s.gasStack && CleanBelow(s, d)
    ensures RunBody(s, b, d).Some?
    ensures BodyRan(b, d, s, RunBody(s, b, d).value)
    decreases b, 0
  {
    hide OnExit, OnEnter, BookBody, Booked;
    var s1 := OnStep(s, d, b.op);
    match b
    case Halt(op) =>
      HaltRan(b, d, s);
    case Plain(op, rest) =>
      BodyRun(rest, d, s1);
      PlainFromRest(b, d, s, RunBody(s, b, d).value);
    case Call(op, child, end, rest) =>
      hide RunBody, RunFrame;
      FrameRun(child, end, d, s1);
      var s2 := RunFrame(s1, child, end, d).value;
      BodyRun(rest, d, s2);
      RunCall(s, b, d);
      CallFromFrame(b, d, s, s2, RunBody(s, b, d).value);
    case Bare(op, end, rest) =>
      EnterStep(s1, d);
      var s2 := OnEnter(s1);
      ExitStep(s2, end, d);
      var s3 := OnExit(s2, end).value;
      BodyRun(rest, d, s3);
      BareFromExit(b, d, s, s2, s3, RunBody(s, b, d).value);
  }

  lemma HaltRan(b: Body, d: nat, s: State)
    requires b.Halt? && d >= 2 && s.IsExecution() && d in s.gasStack && CleanBelow(s, d)
    ensures BodyRan(b, d, s, OnStep(s, d, b.op))
  {
  }

  lemma PlainFromRest(b: Body, d: nat, s: State, t: State)
    requires b.Plain? && d >= 2 && s.IsExecution() && d in s.gasStack
    requires BodyRan(b.rest, d, OnStep(s, d, b.op), t)
    ensures BodyRan(b, d, s, t)
  {
    hide Booked, Settle;
  }

  /** Outside the execution phase a deep body books nothing and cannot move the marker. */
  lemma {:induction false} IdleRun(b: Body, d: nat, s: State)
    requires d >= 2 && !s.IsExecution()
    ensures RunBody(s, b, d).Some?
    ensures var t := RunBody(s, b, d).value;
      t == s.(depth := d, validationOOG := s.validationOOG || (Starved(b) && s.IsValidation()),
              userOperationEvent := t.userOperationEvent)
  {
    var s1 := OnStep(s, d, b.op);
    match b
    case Halt(op) =>
    case Plain(op, rest) =>
      IdleRun(rest, d, s1);
    case Call(op, child, end, rest) =>
      IdleRun(child, d + 1, s1);
      IdleRun(rest, d, RunBody(s1, child, d + 1).value);
    case Bare(op, end, rest) =>
      IdleRun(rest, d, s1);
  }

  /** Between two steps at depth 1: before the execution phase nothing is booked, and during it the limit is
      the requirement booked at depth 2. */
  ghost predicate TopInv(s: State) {
    && (s.marker < EXECUTION_MARKER ==> s.gasStack == map[] && s.executionGasLimit == 0)
    && (s.IsExecution() ==> CleanBelow(s, 1) && s.executionGasLimit == s.Slot(2).required)
  }

  ghost predicate TopRan(b: Body, s: State, t: State) {
    && t.executionGasLimit == s.executionGasLimit + TopBooked(b, s.marker).required
    && t.reverts == s.reverts + TopReverts(b, s.marker)
    && t.executionOOG == (s.executionOOG || TopStarved(b, s.marker, EXECUTION_MARKER, EXECUTION_MARKER))
    && t.validationOOG == (s.validationOOG || TopStarved(b, s.marker, VALIDATION_MARKER, EXECUTION_MARKER - 1))
  }

  /** `t` is what one call made at depth 1 makes of `s`: a frame booking `charge` and reporting `fails`. */
  ghost predicate TopCallRan(s: State, charge: int, fails: seq<string>, starved: bool, t: State) {
    && TopInv(t)
    && t.marker == s.marker
    && t.executionGasLimit == s.executionGasLimit + (if s.IsExecution() then charge else 0)
    && t.reverts == s.reverts + (if s.IsExecution() then fails else [])
    && t.executionOOG == (s.executionOOG || (s.IsExecution() && starved))
    && t.validationOOG == (s.validationOOG || (s.IsValidation() && starved))
  }

  lemma InitialTop()
    ensures TopInv(INITIAL)
  {
  }

  lemma TopFrameRun(child: Body, end: End, s: State)
    requires s.depth == 1 && TopInv(s)
    ensures RunFrame(s, child, end, 1).Some?
    ensures TopCallRan(s, Booked(child, end).required, Reverts(child) + Failure(end), Starved(child),
                       RunFrame(s, child, end, 1).value)
  {
    hide RunBody, Booked, Settle, Failure;
    if s.IsExecution() {
      hide RunFrame;
      FrameRun(child, end, 1, s);
    } else {
      IdleRun(child, 2, s);
    }
  }

  lemma TopBareRun(end: End, s: State)
    requires s.depth == 1 && TopInv(s)
    ensures OnExit(OnEnter(s), end).Some?
    ensures TopCallRan(s, 0, Failure(end), false, OnExit(OnEnter(s), end).value)
  {
  }

  lemma TopStep(s: State, op: Op)
    requires TopInv(s)
    ensures var t := OnStep(s, 1, op);
      && TopInv(t) && t.executionGasLimit == s.executionGasLimit && t.reverts == s.reverts
  {
  }

  /** The figures of a whole trace, by recursion over its call tree. */
  ghost predicate Figures(top: Body, t: State) {
    && t.executionGasLimit == TopBooked(top, 0).required
    && t.reverts == TopReverts(top, 0)
    && (t.executionOOG <==> TopStarved(top, 0, EXECUTION_MARKER, EXECUTION_MARKER))
    && (t.validationOOG <==> TopStarved(top, 0, VALIDATION_MARKER, EXECUTION_MARKER - 1))
    && t.userOperationEvent == Latest(None, Emitted(top, 1))
  }

  /** The tracer never fails on a call tree, and its figures are those of the tree and of its flat events. */
  lemma TraceFigures(top: Body)
    ensures var es := Events(top, 1);
      Run(INITIAL, es).Some? && Figures(top, Run(INITIAL, es).value) && FlatFigures(es, |es|, Run(INITIAL, es).value)
  {
    hide Run, Events, FlatFigures, TopBooked, TopReverts, TopStarved, RunBody, Emitted, Latest;
    var es := Events(top, 1);
    InitialTop();
    TopRun(top, INITIAL);
    EventRun(INITIAL, top, 1);
    RunBodyIsRun(INITIAL, top, 1, []);
    RunToEnd(RunBody(INITIAL, top, 1).value);
    assert es + [] == es && es[..|es|] == es;
    FlatRun(es, |es|);
    assert [] + TopReverts(top, 0) == TopReverts(top, 0);
  }

  lemma RunToEnd(s: State)
    ensures Run(s, []) == Some(s)
  {
  }

  /** For every call tree, with or without stepless frames: the tracer never dereferences an unset slot and its
      figures are those of the recursion over the tree. */
  lemma {:induction false} TopRun(b: Body, s: State)
    requires TopInv(s)
    ensures RunBody(s, b, 1).Some?
    ensures TopRan(b, s, RunBody(s, b, 1).value)
  {
    hide TopInv, OnExit, OnEnter, Booked, RunFrame;
    var s1 := OnStep(s, 1, b.op);
    TopStep(s, b.op);
    match b
    case Halt(op) =>
    case Plain(op, rest) =>
      TopRun(rest, s1);
    case Call(op, child, end, rest) =>
      TopFrameRun(child, end, s1);
      var s2 := RunFrame(s1, child, end, 1).value;
      TopRun(rest, s2);
      RunCall(s, b, 1);
      TopFromCall(b, s, s2, RunBody(s2, rest, 1).value);
    case Bare(op, end, rest) =>
      TopBareRun(end, s1);
      var s2 := OnExit(OnEnter(s1), end).value;
      TopRun(rest, s2);
      TopFromBare(b, s, s2, RunBody(s2, rest, 1).value);
  }

  ghost predicate TopCalled(b: Body, s: State, s2: State, t: State)
    requires b.Call?
  {
    && TopCallRan(OnStep(s, 1, b.op), Booked(b.child, b.end).required, Reverts(b.child) + Failure(b.end),
                  Starved(b.child), s2)
    && TopRan(b.rest, s2, t)
  }

  lemma TopCallReverts(b: Body, s: State, s2: State, t: State)
    requires b.Call? && TopCalled(b, s, s2, t)
    ensures t.reverts == s.reverts + TopReverts(b, s.marker)
  {
    hide Booked, Failure, TopInv, TopBooked, TopStarved, Starved, Reverts;
    var fails := if s2.IsExecution() then Reverts(b.child) + Failure(b.end) else [];
    assert TopReverts(b, s.marker) == fails + TopReverts(b.rest, s2.marker);
    assert t.reverts == s.reverts + fails + TopReverts(b.rest, s2.marker);
  }

  lemma TopFromCall(b: Body, s: State, s2: State, t: State)
    requires b.Call? && TopCalled(b, s, s2, t)
    ensures TopRan(b, s, t)
  {
    hide Booked, Failure, TopInv, TopReverts, Reverts, TopBooked, TopStarved, Starved, TopCallRan;
    TopCallReverts(b, s, s2, t);
    TopCallLimit(b, s, s2, t);
    TopCallFlags(b, s, s2, t);
  }

  lemma TopCallLimit(b: Body, s: State, s2: State, t: State)
    requires b.Call? && TopCalled(b, s, s2, t)
    ensures t.executionGasLimit == s.executionGasLimit + TopBooked(b, s.marker).required
  {
    hide Booked, Failure, TopInv, TopReverts, Reverts, TopStarved, Starved;
  }

  lemma TopCallFlags(b: Body, s: State, s2: State, t: State)
    requires b.Call? && TopCalled(b, s, s2, t)
    ensures t.executionOOG == (s.executionOOG || TopStarved(b, s.marker, EXECUTION_MARKER, EXECUTION_MARKER))
    ensures t.validationOOG == (s.validationOOG || TopStarved(b, s.marker, VALIDATION_MARKER, EXECUTION_MARKER - 1))
  {
    hide Booked, Failure, TopInv, TopReverts, Reverts, TopBooked, Starved;
  }

  lemma TopFromBare(b: Body, s: State, s2: State, t: State)
    requires b.Bare? && TopCallRan(OnStep(s, 1, b.op), 0, Failure(b.end), false, s2) && TopRan(b.rest, s2, t)
    ensures TopRan(b, s, t)
  {
    hide Failure, TopInv;
  }
}
