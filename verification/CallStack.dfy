/** Rebuilding call/return pairs from the flat list of enter and exit records that a trace collects. */
module CallStack {
  import opened Text

  /** One record: a call type with its target and method, or RETURN / REVERT with its data. */
  datatype CallInfo = CallInfo(kind: string, target: Address, selector: string, data: string)

  datatype CallEntry = CallEntry(target: Address, kind: string, selector: string, returned: string)

  const NOTHING := CallInfo("", ZERO_ADDRESS, "", "")

  predicate IsEnd(kind: string) {
    kind == "REVERT" || kind == "RETURN"
  }

  predicate Creates(kind: string) {
    Contains(kind, "CREATE")
  }

  /** The generic stack: `Pop` and `Top` of an empty stack give a default value and `false`. */
  class Stack<T(0)> {
    var keys: seq<T>
    const default: T

    constructor (default: T)
      ensures keys == [] && this.default == default
    {
      keys := [];
      this.default := default;
    }

    method Push(key: T)
      modifies this
      ensures keys == old(keys) + [key]
    {
      keys := keys + [key];
    }

    method Top() returns (x: T, ok: bool)
      ensures ok <==> keys != []
      ensures x == if ok then keys[|keys| - 1] else default
    {
      if |keys| > 0 {
        return keys[|keys| - 1], true;
      }
      return default, false;
    }

    method Pop() returns (x: T, ok: bool)
      modifies this
      ensures ok <==> old(keys) != []
      ensures x == if ok then old(keys)[|old(keys)| - 1] else default
      ensures keys == if ok then old(keys)[..|old(keys)| - 1] else []
    {
      if |keys| > 0 {
        x := keys[|keys| - 1];
        keys := keys[..|keys| - 1];
        return x, true;
      }
      return default, false;
    }
  }

  // ---------------------------------------------------------------------------------------------
  // The matcher
  // ---------------------------------------------------------------------------------------------

  datatype State = State(stack: seq<CallInfo>, out: seq<CallEntry>)

  function Last(s: seq<CallInfo>): CallInfo {
    if s == [] then NOTHING else s[|s| - 1]
  }

  function Front(s: seq<CallInfo>): seq<CallInfo> {
    if s == [] then [] else s[..|s| - 1]
  }

  /** The entry that an end record adds for the call on top of the stack, if any. */
  function Matched(top: CallInfo, end: CallInfo): seq<CallEntry> {
    if Creates(top.kind) || end.kind == "REVERT" then []
    else [CallEntry(top.target, top.kind, top.selector, end.data)]
  }

  function Step(s: State, call: CallInfo): State {
    if IsEnd(call.kind) then State(Front(s.stack), s.out + Matched(Last(s.stack), call))
    else s.(stack := s.stack + [call])
  }

  function Run(s: State, calls: seq<CallInfo>): State
    decreases |calls|
  {
    if calls == [] then s else Run(Step(s, calls[0]), calls[1..])
  }

  method NewCallStack(calls: seq<CallInfo>) returns (out: seq<CallEntry>)
    ensures out == Run(State([], []), calls).out
  {
    hide Creates, IsEnd;
    out := [];
    var stack := new Stack<CallInfo>(NOTHING);
    assert calls[0..] == calls;
    for i := 0 to |calls|
      invariant fresh(stack) && stack.default == NOTHING
      invariant Run(State(stack.keys, out), calls[i..]) == Run(State([], []), calls)
    {
      var call := calls[i];
      assert calls[i..][1..] == calls[i + 1..];
      ghost var s := State(stack.keys, out);
      if IsEnd(call.kind) {
        var top, _ := stack.Pop();
        if Creates(top.kind) {
        } else if call.kind == "REVERT" {
        } else {
          out := out + [CallEntry(top.target, top.kind, top.selector, call.data)];
        }
      } else {
        stack.Push(call);
      }
      assert State(stack.keys, out) == Step(s, call);
    }
  }

  // ---------------------------------------------------------------------------------------------
  // Forests of calls
  // ---------------------------------------------------------------------------------------------

  /** A list of calls: the first one with the calls made inside it and how it ended, then the rest. */
  datatype Forest = Leaf | Node(call: CallInfo, inner: Forest, end: CallInfo, rest: Forest)

  /** Opening records are not end records, and closing records are. */
  predicate WellFormed(f: Forest) {
    f.Node? ==> !IsEnd(f.call.kind) && IsEnd(f.end.kind) && WellFormed(f.inner) && WellFormed(f.rest)
  }

  function Flatten(f: Forest): seq<CallInfo> {
    match f
    case Leaf => []
    case Node(call, inner, end, rest) => [call] + Flatten(inner) + [end] + Flatten(rest)
  }

  /** Calls that returned and did not create a contract, innermost first, each with its own return data. */
  function PostOrder(f: Forest): seq<CallEntry> {
    match f
    case Leaf => []
    case Node(call, inner, end, rest) =>
      PostOrder(inner) +
      (if Contains(call.kind, "CREATE") || end.kind == "REVERT" then []
       else [CallEntry(call.target, call.kind, call.selector, end.data)]) +
      PostOrder(rest)
  }

  lemma {:induction false} RunConcat(s: State, a: seq<CallInfo>, b: seq<CallInfo>)
    ensures Run(s, a + b) == Run(Run(s, a), b)
    decreases |a|
  {
    hide Step;
    if a == [] {
      assert a + b == b;
    } else {
      assert (a + b)[0] == a[0] && (a + b)[1..] == a[1..] + b;
      RunConcat(Step(s, a[0]), a[1..], b);
    }
  }

  lemma RunOne(s: State, c: CallInfo)
    ensures Run(s, [c]) == Step(s, c)
  {
    hide Step;
    assert Run(Step(s, c), []) == Step(s, c);
  }

  /** A balanced forest leaves the stack as it found it and appends its post-order. */
  lemma {:induction false} ForestRun(f: Forest, s: State)
    requires WellFormed(f)
    ensures Run(s, Flatten(f)) == State(s.stack, s.out + PostOrder(f))
    decreases f
  {
    hide Step, Matched, IsEnd, Creates, Contains;
    match f
    case Leaf =>
      assert s.out + [] == s.out;
    case Node(call, inner, end, rest) =>
      var s1 := s.(stack := s.stack + [call]);
      var s2 := State(s1.stack, s.out + PostOrder(inner));
      var s3 := State(s.stack, s2.out + Matched(call, end));
      NodeSteps(s, call, end, s2);
      ForestRun(inner, s1);
      ForestRun(rest, s3);
      NodeRun(s, call, Flatten(inner), end, Flatten(rest), s2);
      PostOrderOfNode(f);
      hide Run, Flatten, PostOrder;
      assert s3.out + PostOrder(rest) == s.out + PostOrder(f);
  }

  lemma PostOrderOfNode(f: Forest)
    requires f.Node?
    ensures PostOrder(f) == PostOrder(f.inner) + Matched(f.call, f.end) + PostOrder(f.rest)
  {
    hide Contains;
  }

  lemma NodeSteps(s: State, call: CallInfo, end: CallInfo, s2: State)
    requires !IsEnd(call.kind) && IsEnd(end.kind) && s2.stack == s.stack + [call]
    ensures Step(s, call) == s.(stack := s.stack + [call])
    ensures Step(s2, end) == State(s.stack, s2.out + Matched(call, end))
  {
    hide IsEnd, Matched;
    assert s2.stack[..|s2.stack| - 1] == s.stack;
  }

  lemma NodeRun(s: State, call: CallInfo, inner: seq<CallInfo>, end: CallInfo, rest: seq<CallInfo>, s2: State)
    requires Run(Step(s, call), inner) == s2
    ensures Run(s, [call] + inner + [end] + rest) == Run(Step(s2, end), rest)
  {
    hide Step, Run;
    RunConcat(s, [call] + inner + [end], rest);
    RunConcat(s, [call] + inner, [end]);
    RunConcat(s, [call], inner);
    RunOne(s, call);
    RunOne(s2, end);
  }

  /** The matcher on a whole trace: the calls of the top-level frame, then the record of how that frame itself ended,
      which matches no call. A final REVERT adds nothing, while a final RETURN adds one entry that names no call. */
  lemma TopLevelRun(f: Forest, end: CallInfo)
    requires WellFormed(f) && IsEnd(end.kind)
    ensures Run(State([], []), Flatten(f) + [end]).out ==
            PostOrder(f) + if end.kind == "REVERT" then [] else [CallEntry(ZERO_ADDRESS, "", "", end.data)]
  {
    var s := State([], []);
    ForestRun(f, s);
    RunConcat(s, Flatten(f), [end]);
    var t := State([], [] + PostOrder(f));
    RunOne(t, end);
    assert [] + PostOrder(f) == PostOrder(f);
  }
}
