/** The gas estimator: two binary searches against a simulating node, and a bounded retry that inflates the
    verification gas limit. */
module GasEstimator {
  import opened Wrappers
  import opened Text

  const CUTOFF := 30000
  const MAX_RETRIES := 7
  const VGL_BUFFER := 25
  /** What the default overhead reports for a call with value: 700 + 9000 + 100 + 2300. */
  const NON_ZERO_VALUE_CALL := 12100

  // ---------------------------------------------------------------------------------------------
  // The node
  // ---------------------------------------------------------------------------------------------

  datatype Answer = Accepted(executionGas: nat) | Failed(error: string)

  /** `Probe` is an untraced simulation with no call gas. `Trace` is a traced one, either at the operation's own
      fees or with fees set to zero. */
  datatype Query =
    | Probe(verificationGas: nat)
    | Trace(verificationGas: nat, callGas: nat, fullFees: bool)

  /** The node's answer may depend on when it is asked, so it is given the number of the request too. */
  type Node = (nat, Query) -> Answer

  predicate IsPrefundNotPaid(e: string) {
    || Contains(e, "AA21 didn't pay prefund")
    || Contains(e, "AA31 paymaster deposit too low")
  }

  predicate IsValidationOOG(e: string) {
    || Contains(e, "AA40 over verificationGasLimit")
    || Contains(e, "AA41 too little verificationGas")
    || Contains(e, "AA51 prefund below actualGasCost")
    || Contains(e, "AA13 initCode failed or OOG")
    || Contains(e, "AA23 reverted (or OOG)")
    || Contains(e, "AA33 reverted (or OOG)")
    || Contains(e, "return data out of bounds")
    || Contains(e, "validation OOG")
  }

  predicate IsExecutionOOG(e: string) {
    Contains(e, "execution OOG")
  }

  predicate IsExecutionReverted(e: string) {
    Contains(e, "execution reverted")
  }

  predicate IsExecutionShort(e: string) {
    IsExecutionOOG(e) || IsExecutionReverted(e)
  }

  // ---------------------------------------------------------------------------------------------
  // One binary search
  // ---------------------------------------------------------------------------------------------

  /** How a search ends: with the last accepted value (0 for none), the last answer's error and the number of
      requests so far, or with an unexpected error. */
  datatype Sweep =
    | Done(found: nat, last: Option<string>, clock: nat)
    | Aborted(error: string, clock: nat)

  type Ask = (nat, nat) -> Answer
  type TooLow = string -> bool

  function Bisect(ask: Ask, low: TooLow, t: nat, l: nat, r: int, f: nat, e: Option<string>): Sweep
    decreases r - l
  {
    if r - l < CUTOFF then Done(f, e, t) else
    var m := (l + r) / 2;
    match ask(t, m)
    case Accepted(_) => Bisect(ask, low, t + 1, l, m - 1, m, None)
    case Failed(err) =>
      if IsPrefundNotPaid(err) then Bisect(ask, low, t + 1, l, m - 1, f, Some(err))
      else if low(err) then Bisect(ask, low, t + 1, m + 1, r, f, Some(err))
      else Aborted(err, t + 1)
  }

  method Search(ask: Ask, low: TooLow, clock: nat, start: nat, limit: nat, error: Option<string>)
    returns (s: Sweep)
    ensures s == Bisect(ask, low, clock, start, limit, 0, error)
  {
    hide IsPrefundNotPaid;
    var l, r, f, simErr, t := start, limit as int, 0, error, clock;
    while r - l >= CUTOFF
      invariant l >= 0 && f >= 0
      invariant Bisect(ask, low, t, l, r, f, simErr) == Bisect(ask, low, clock, start, limit, 0, error)
      decreases r - l
    {
      var m := (l + r) / 2;
      var answer := ask(t, m);
      t := t + 1;
      match answer {
        case Accepted(_) =>
          simErr := None;
          r := m - 1;
          f := m;
        case Failed(err) =>
          simErr := Some(err);
          if IsPrefundNotPaid(err) {
            r := m - 1;
          } else if low(err) {
            l := m + 1;
          } else {
            return Aborted(err, t);
          }
      }
    }
    return Done(f, simErr, t);
  }

  /** How many times an interval can be halved before it is narrower than the cutoff. */
  function Halvings(width: int): nat {
    if width < CUTOFF then 0 else 1 + Halvings(width / 2)
  }

  lemma {:induction false} HalvingsGrows(a: int, b: int)
    requires a <= b
    ensures Halvings(a) <= Halvings(b)
    decreases b
  {
    if a >= CUTOFF {
      HalvingsGrows(a / 2, b / 2);
    }
  }

  ghost predicate AcceptedBetween(ask: Ask, from: nat, to: nat, m: nat) {
    exists t :: from <= t < to && ask(t, m).Accepted?
  }

  /** What every search satisfies, whatever the node answers. */
  ghost predicate SweepSound(ask: Ask, t: nat, l: nat, r: int, f: nat, e: Option<string>, s: Sweep) {
    && t <= s.clock <= t + Halvings(r - l)
    && (s.Done? ==>
          && (s.found != f ==>
                && AcceptedBetween(ask, t, s.clock, s.found)
                && l + CUTOFF / 2 <= s.found <= r)
          && (s.found == 0 ==> s.last.Some? || (r - l < CUTOFF && s.last == e)))
  }

  /** One probe at the middle, then a sound search of the half kept. */
  lemma SoundAfterProbe(ask: Ask, t: nat, l: nat, r: int, f: nat, e: Option<string>,
                        l': nat, r': int, f': nat, e': Option<string>, s: Sweep)
    requires r - l >= CUTOFF && SweepSound(ask, t + 1, l', r', f', e', s)
    requires l <= l' && r' <= r && r' - l' <= (r - l) / 2
    requires (f' == f && e'.Some?) || (f' == (l + r) / 2 && ask(t, f').Accepted?)
    ensures SweepSound(ask, t, l, r, f, e, s)
  {
    HalvingsGrows(r' - l', (r - l) / 2);
    hide Halvings;
    assert t <= s.clock <= t + Halvings(r - l) by {
      HalvingsStep(r - l);
    }
    if s.Done? && s.found != f && s.found != f' {
      var u :| t + 1 <= u < s.clock && ask(u, s.found).Accepted?;
      assert AcceptedBetween(ask, t, s.clock, s.found);
    }
  }

  lemma HalvingsStep(width: int)
    requires width >= CUTOFF
    ensures Halvings(width) == 1 + Halvings(width / 2)
  {
  }

  lemma {:induction false} BisectSound(ask: Ask, low: TooLow, t: nat, l: nat, r: int, f: nat, e: Option<string>)
    ensures SweepSound(ask, t, l, r, f, e, Bisect(ask, low, t, l, r, f, e))
    decreases r - l
  {
    hide IsPrefundNotPaid;
    if r - l >= CUTOFF {
      hide SweepSound;
      var m := (l + r) / 2;
      var s := Bisect(ask, low, t, l, r, f, e);
      match ask(t, m)
      case Accepted(_) =>
        BisectSound(ask, low, t + 1, l, m - 1, m, None);
        SoundAfterProbe(ask, t, l, r, f, e, l, m - 1, m, None, s);
      case Failed(err) =>
        if IsPrefundNotPaid(err) {
          BisectSound(ask, low, t + 1, l, m - 1, f, Some(err));
          SoundAfterProbe(ask, t, l, r, f, e, l, m - 1, f, Some(err), s);
        } else if low(err) {
          BisectSound(ask, low, t + 1, m + 1, r, f, Some(err));
          SoundAfterProbe(ask, t, l, r, f, e, m + 1, r, f, Some(err), s);
        } else {
          SoundAbort(ask, t, l, r, f, e, s);
        }
    }
  }

  lemma SoundAbort(ask: Ask, t: nat, l: nat, r: int, f: nat, e: Option<string>, s: Sweep)
    requires r - l >= CUTOFF && s.Aborted? && s.clock == t + 1
    ensures SweepSound(ask, t, l, r, f, e, s)
  {
  }

  /** A node that is out of gas below `lo`, accepts from `lo` to `hi`, and wants a larger prefund above `hi`. */
  ghost predicate Window(ask: Ask, low: TooLow, lo: nat, hi: nat) {
    forall t: nat, m: nat ::
      if m < lo then ask(t, m).Failed? && low(ask(t, m).error) && !IsPrefundNotPaid(ask(t, m).error)
      else if m <= hi then ask(t, m).Accepted?
      else ask(t, m).Failed? && IsPrefundNotPaid(ask(t, m).error)
  }

  lemma {:induction false} BisectInWindow(ask: Ask, low: TooLow, lo: nat, hi: nat,
                                          t: nat, l: nat, r: int, f: nat, e: Option<string>)
    requires Window(ask, low, lo, hi) && lo <= hi && l <= lo
    requires f == 0 || (lo <= f <= hi && r == f - 1)
    ensures var s := Bisect(ask, low, t, l, r, f, e);
      && s.Done?
      && (s.found != 0 ==> lo <= s.found <= lo + 30000)
      && (f != 0 || (hi <= r && hi - lo >= 30000) ==> s.found != 0)
    decreases r - l
  {
    hide IsPrefundNotPaid;
    if r - l >= CUTOFF {
      var m := (l + r) / 2;
      var answer := ask(t, m);
      if m < lo {
        BisectInWindow(ask, low, lo, hi, t + 1, m + 1, r, f, Some(answer.error));
      } else if m <= hi {
        BisectInWindow(ask, low, lo, hi, t + 1, l, m - 1, m, None);
      } else {
        BisectInWindow(ask, low, lo, hi, t + 1, l, m - 1, f, Some(answer.error));
      }
    }
  }

  /** The points that halving an interval down to the cutoff can ever try, whichever halves are taken. */
  function Probes(l: nat, r: int): set<int>
    decreases r - l
  {
    if r - l < CUTOFF then {} else
    var m := (l + r) / 2;
    {m} + Probes(l, m - 1) + Probes(m + 1, r)
  }

  lemma {:induction false} ProbesWithin(l: nat, r: int)
    ensures forall m :: m in Probes(l, r) ==> l <= m <= r
    decreases r - l
  {
    if r - l >= CUTOFF {
      var m := (l + r) / 2;
      ProbesWithin(l, m - 1);
      ProbesWithin(m + 1, r);
    }
  }

  /** Some such point lies in the window. */
  ghost predicate Hits(lo: nat, hi: nat, l: nat, r: int) {
    exists m :: m in Probes(l, r) && lo <= m <= hi
  }

  /** Halving towards the window loses no point that lies in it. */
  lemma HitsStep(lo: nat, hi: nat, l: nat, r: int)
    requires r - l >= CUTOFF
    ensures var m := (l + r) / 2;
      Hits(lo, hi, l, r) <==> if m < lo then Hits(lo, hi, m + 1, r) else m <= hi || Hits(lo, hi, l, m - 1)
  {
    var m := (l + r) / 2;
    ProbesWithin(l, m - 1);
    ProbesWithin(m + 1, r);
    ProbesSplit(l, r);
    hide Probes;
    if Hits(lo, hi, l, r) {
      var p :| p in Probes(l, r) && lo <= p <= hi;
      assert if m < lo then p in Probes(m + 1, r) else m <= hi || p in Probes(l, m - 1);
    }
    if m < lo && Hits(lo, hi, m + 1, r) {
      var p :| p in Probes(m + 1, r) && lo <= p <= hi;
      assert p in Probes(l, r);
    } else if lo <= m <= hi {
      assert m in Probes(l, r);
    } else if Hits(lo, hi, l, m - 1) {
      var p :| p in Probes(l, m - 1) && lo <= p <= hi;
      assert p in Probes(l, r);
    }
  }

  lemma ProbesSplit(l: nat, r: int)
    requires r - l >= CUTOFF
    ensures var m := (l + r) / 2;
      forall p :: p in Probes(l, r) <==> p == m || p in Probes(l, m - 1) || p in Probes(m + 1, r)
  {
  }

  lemma NoHits(lo: nat, hi: nat, l: nat, r: int)
    requires r - l < CUTOFF
    ensures !Hits(lo, hi, l, r)
  {
  }

  /** Against a window a search finds a value if and only if some point of the halving lies in the window, which depends
      on the window and the limit alone and never on what the node answers. */
  lemma {:induction false} FoundIff(ask: Ask, low: TooLow, lo: nat, hi: nat, t: nat, l: nat, r: int, e: Option<string>)
    requires Window(ask, low, lo, hi) && lo <= hi && l <= lo
    ensures var s := Bisect(ask, low, t, l, r, 0, e); s.Done? && (s.found != 0 <==> Hits(lo, hi, l, r))
    decreases r - l
  {
    hide IsPrefundNotPaid, Hits, Probes;
    BisectInWindow(ask, low, lo, hi, t, l, r, 0, e);
    if r - l < CUTOFF {
      NoHits(lo, hi, l, r);
    } else {
      var m := (l + r) / 2;
      var answer := ask(t, m);
      HitsStep(lo, hi, l, r);
      if m < lo {
        FoundIff(ask, low, lo, hi, t + 1, m + 1, r, Some(answer.error));
      } else if m <= hi {
        BisectInWindow(ask, low, lo, hi, t + 1, l, m - 1, m, None);
      } else {
        FoundIff(ask, low, lo, hi, t + 1, l, m - 1, Some(answer.error));
      }
    }
  }

  /** A window of any width below 30000 can be missed, so the width demanded above is the least that always suffices. */
  lemma NarrowWindowMissed(ask: Ask, low: TooLow, t: nat, hi: nat)
    requires hi < 30000 && Window(ask, low, 0, hi)
    ensures var s := Bisect(ask, low, t, 0, 60000, 0, None); s.Done? && s.found == 0
  {
    var answer := ask(t, CUTOFF);
    assert Bisect(ask, low, t, 0, 2 * CUTOFF, 0, None)
        == Bisect(ask, low, t + 1, 0, CUTOFF - 1, 0, Some(answer.error));
  }

  // ---------------------------------------------------------------------------------------------
  // The estimate
  // ---------------------------------------------------------------------------------------------

  /** The pair returned or the error, the requests made so far, and the verification gas limit that each attempt
      traced with. */
  datatype Estimate = Estimate(
    verificationGas: nat,
    callGas: nat,
    error: Option<string>,
    clock: nat,
    tried: seq<nat>)

  function Buffered(f: nat): nat {
    f * (100 + VGL_BUFFER) / 100
  }

  function AskVerification(node: Node): Ask {
    (t: nat, m: nat) => node(t, Probe(m))
  }

  function AskCall(node: Node, vgl: nat): Ask {
    (t: nat, m: nat) => node(t, Trace(vgl, m, true))
  }

  /** The verification gas search of a first attempt; a retry starts from the limit it was given. */
  function VerificationSearch(node: Node, max: nat, t: nat, lastVGL: nat): Sweep {
    if lastVGL == 0 then Bisect(AskVerification(node), IsValidationOOG, t, 0, max, 0, None)
    else Done(lastVGL, None, t)
  }

  function Refuse(error: Option<string>, clock: nat, tried: seq<nat>): Estimate {
    Estimate(0, 0, error, clock, tried)
  }

  function Attempt(node: Node, max: nat, t: nat, attempts: nat, lastVGL: nat): Estimate
    requires attempts <= MAX_RETRIES
    decreases MAX_RETRIES - attempts, 2
  {
    var s := VerificationSearch(node, max, t, lastVGL);
    if s.Aborted? then Refuse(Some(s.error), s.clock, [])
    else if s.found == 0 then Refuse(s.last, s.clock, [])
    else Traced(node, max, s.clock, attempts, Buffered(s.found))
  }

  /** An attempt once its verification gas limit is known. */
  function Traced(node: Node, max: nat, t: nat, attempts: nat, vgl: nat): Estimate
    requires attempts <= MAX_RETRIES
    decreases MAX_RETRIES - attempts, 1
  {
    match node(t, Trace(vgl, max, false))
    case Failed(err) => Retry(node, max, t + 1, attempts, vgl, err)
    case Accepted(gas) =>
      var cgl := if gas < NON_ZERO_VALUE_CALL then NON_ZERO_VALUE_CALL else gas;
      match node(t + 1, Trace(vgl, cgl, true))
      case Accepted(_) => Estimate(vgl, cgl, None, t + 2, [vgl])
      case Failed(err) =>
        if IsExecutionShort(err) then CallFallback(node, max, t + 2, vgl, cgl, err)
        else Retry(node, max, t + 2, attempts, vgl, err)
  }

  function CallFallback(node: Node, max: nat, t: nat, vgl: nat, cgl: nat, err: string): Estimate {
    var s := Bisect(AskCall(node, vgl), IsExecutionShort, t, cgl, max, 0, Some(err));
    if s.Aborted? then Refuse(Some(s.error), s.clock, [vgl])
    else if s.found == 0 then Refuse(s.last, s.clock, [vgl])
    else Estimate(vgl, s.found, None, s.clock, [vgl])
  }

  function Retry(node: Node, max: nat, t: nat, attempts: nat, vgl: nat, err: string): Estimate
    requires attempts <= MAX_RETRIES
    decreases MAX_RETRIES - attempts, 0
  {
    if IsValidationOOG(err) && attempts < MAX_RETRIES then
      var r := Attempt(node, max, t, attempts + 1, vgl);
      r.(tried := [vgl] + r.tried)
    else
      Refuse(Some(err), t, [vgl])
  }

  method RetryEstimateGas(node: Node, max: nat, clock: nat, attempts: nat, vgl: nat, err: string)
    returns (r: Estimate)
    requires attempts <= MAX_RETRIES
    ensures r == Retry(node, max, clock, attempts, vgl, err)
    decreases MAX_RETRIES - attempts, 0
  {
    if IsValidationOOG(err) && attempts < MAX_RETRIES {
      r := EstimateGas(node, max, clock, attempts + 1, vgl);
      r := r.(tried := [vgl] + r.tried);
    } else {
      r := Estimate(0, 0, Some(err), clock, [vgl]);
    }
  }

  method EstimateGas(node: Node, max: nat, clock: nat, attempts: nat, lastVGL: nat) returns (r: Estimate)
    requires attempts <= MAX_RETRIES
    ensures r == Attempt(node, max, clock, attempts, lastVGL)
    decreases MAX_RETRIES - attempts, 1
  {
    hide IsValidationOOG, IsExecutionShort, IsPrefundNotPaid, Bisect;
    var f, simErr, t := lastVGL, None, clock;
    if lastVGL == 0 {
      var s := Search(AskVerification(node), IsValidationOOG, t, 0, max, None);
      if s.Aborted? {
        return Estimate(0, 0, Some(s.error), s.clock, []);
      }
      f, simErr, t := s.found, s.last, s.clock;
    }
    if f == 0 {
      return Estimate(0, 0, simErr, t, []);
    }
    f := (f * (100 + VGL_BUFFER)) / 100;

    var out := node(t, Trace(f, max, false));
    t := t + 1;
    if out.Failed? {
      r := RetryEstimateGas(node, max, t, attempts, f, out.error);
      return;
    }
    var cgl := out.executionGas;
    if cgl < NON_ZERO_VALUE_CALL {
      cgl := NON_ZERO_VALUE_CALL;
    }

    var check := node(t, Trace(f, cgl, true));
    t := t + 1;
    if check.Failed? {
      if IsExecutionShort(check.error) {
        var s := Search(AskCall(node, f), IsExecutionShort, t, cgl, max, Some(check.error));
        if s.Aborted? {
          return Estimate(0, 0, Some(s.error), s.clock, [f]);
        }
        if s.found == 0 {
          return Estimate(0, 0, s.last, s.clock, [f]);
        }
        return Estimate(f, s.found, None, s.clock, [f]);
      }
      r := RetryEstimateGas(node, max, t, attempts, f, check.error);
      return;
    }
    return Estimate(f, cgl, None, t, [f]);
  }

  // ---------------------------------------------------------------------------------------------
  // What holds for every node
  // ---------------------------------------------------------------------------------------------

  /** The full-fee trace of the pair was accepted by one of the requests from `from` on. */
  ghost predicate TraceAccepted(node: Node, from: nat, r: Estimate) {
    exists t :: from <= t < r.clock && node(t, Trace(r.verificationGas, r.callGas, true)).Accepted?
  }

  /** Each attempt raises the limit by a quarter. */
  ghost predicate Inflates(tried: seq<nat>) {
    forall i :: 0 < i < |tried| ==> tried[i] == Buffered(tried[i - 1]) && tried[i] > tried[i - 1]
  }

  ghost predicate AttemptSound(node: Node, max: nat, t: nat, attempts: nat, lastVGL: nat, r: Estimate) {
    && (r.error.None? ==> TraceAccepted(node, t, r))
    && (r.error.None? ==> r.tried != [] && r.verificationGas == r.tried[|r.tried| - 1])
    && |r.tried| <= MAX_RETRIES + 1 - attempts
    && Inflates(r.tried)
    && (r.tried != [] ==> if lastVGL == 0 then r.tried[0] <= Buffered(max) else r.tried[0] == Buffered(lastVGL))
    && r.clock <= t + (if lastVGL == 0 then Halvings(max) else 0) + Halvings(max) + 2 * (MAX_RETRIES + 1 - attempts)
  }

  lemma BufferIs(f: nat)
    ensures Buffered(f) == f * 125 / 100
  {
  }

  lemma BufferGrows(f: nat, g: nat)
    ensures f >= 4 ==> Buffered(f) > f
    ensures f <= g ==> Buffered(f) <= Buffered(g)
  {
  }

  lemma CallFallbackSound(node: Node, max: nat, t: nat, vgl: nat, cgl: nat, err: string)
    ensures var r := CallFallback(node, max, t, vgl, cgl, err);
      && (r.error.None? ==> r.verificationGas == vgl && TraceAccepted(node, t, r))
      && r.tried == [vgl]
      && r.clock <= t + Halvings(max)
  {
    hide Halvings, Bisect, IsExecutionShort;
    var ask := AskCall(node, vgl);
    var s := Bisect(ask, IsExecutionShort, t, cgl, max, 0, Some(err));
    BisectSound(ask, IsExecutionShort, t, cgl, max, 0, Some(err));
    HalvingsGrows(max - cgl, max);
    if s.Done? && s.found != 0 {
      var u :| t <= u < s.clock && ask(u, s.found).Accepted?;
      assert node(u, Trace(vgl, s.found, true)).Accepted?;
    }
  }

  /** For every node: an estimate returned without error is a pair whose full-fee trace the node accepted in this
      call, there are at most eight attempts and only the first one searches for a verification limit. */
  lemma {:induction false} AttemptIsSound(node: Node, max: nat, t: nat, attempts: nat, lastVGL: nat)
    requires attempts <= MAX_RETRIES
    requires max >= CUTOFF && (lastVGL == 0 || lastVGL >= 4)
    ensures AttemptSound(node, max, t, attempts, lastVGL, Attempt(node, max, t, attempts, lastVGL))
    decreases MAX_RETRIES - attempts, 1
  {
    hide IsValidationOOG, IsExecutionShort, Bisect, Halvings, CallFallback, Buffered;
    var s := VerificationSearch(node, max, t, lastVGL);
    if lastVGL == 0 {
      BisectSound(AskVerification(node), IsValidationOOG, t, 0, max, 0, None);
    }
    if s.Done? && s.found != 0 {
      var vgl := Buffered(s.found);
      BufferGrows(s.found, max);
      match node(s.clock, Trace(vgl, max, false))
      case Failed(err) => RetryIsSound(node, max, t, s.clock + 1, attempts, lastVGL, vgl, err);
      case Accepted(gas) =>
        var cgl := if gas < NON_ZERO_VALUE_CALL then NON_ZERO_VALUE_CALL else gas;
        match node(s.clock + 1, Trace(vgl, cgl, true)) {
          case Accepted(_) =>
          case Failed(err) =>
            if IsExecutionShort(err) {
              CallFallbackSound(node, max, s.clock + 2, vgl, cgl, err);
            } else {
              RetryIsSound(node, max, t, s.clock + 2, attempts, lastVGL, vgl, err);
            }
        }
    }
  }

  lemma InflatesCons(vgl: nat, tried: seq<nat>)
    requires Inflates(tried) && (tried != [] ==> tried[0] == Buffered(vgl) && Buffered(vgl) > vgl)
    ensures Inflates([vgl] + tried)
  {
    hide Buffered;
    var all := [vgl] + tried;
    forall i | 0 < i < |all|
      ensures all[i] == Buffered(all[i - 1]) && all[i] > all[i - 1]
    {
      assert i > 1 ==> all[i] == tried[i - 1] && all[i - 1] == tried[i - 2];
    }
  }

  lemma {:induction false} RetryIsSound(node: Node, max: nat, t0: nat, t: nat, attempts: nat, lastVGL: nat,
                                        vgl: nat, err: string)
    requires attempts <= MAX_RETRIES && max >= CUTOFF && vgl >= 4
    requires t0 <= t <= t0 + (if lastVGL == 0 then Halvings(max) else 0) + 2
    requires if lastVGL == 0 then vgl <= Buffered(max) else vgl == Buffered(lastVGL)
    ensures AttemptSound(node, max, t0, attempts, lastVGL, Retry(node, max, t, attempts, vgl, err))
    decreases MAX_RETRIES - attempts, 0
  {
    hide IsValidationOOG, Halvings, Buffered, Attempt;
    if IsValidationOOG(err) && attempts < MAX_RETRIES {
      hide AttemptSound;
      AttemptIsSound(node, max, t, attempts + 1, vgl);
      SoundAfterRetry(node, max, t0, t, attempts, lastVGL, vgl, Attempt(node, max, t, attempts + 1, vgl));
    }
  }

  /** A sound attempt that retries from `vgl` makes the attempt before it sound. */
  lemma SoundAfterRetry(node: Node, max: nat, t0: nat, t: nat, attempts: nat, lastVGL: nat, vgl: nat, r: Estimate)
    requires attempts < MAX_RETRIES && vgl >= 4 && AttemptSound(node, max, t, attempts + 1, vgl, r)
    requires t0 <= t <= t0 + (if lastVGL == 0 then Halvings(max) else 0) + 2
    requires if lastVGL == 0 then vgl <= Buffered(max) else vgl == Buffered(lastVGL)
    ensures AttemptSound(node, max, t0, attempts, lastVGL, r.(tried := [vgl] + r.tried))
  {
    BufferGrows(vgl, vgl);
    hide Halvings, Buffered;
    InflatesCons(vgl, r.tried);
    hide Inflates;
    if r.error.None? {
      var u :| t <= u < r.clock && node(u, Trace(r.verificationGas, r.callGas, true)).Accepted?;
    }
  }

  // ---------------------------------------------------------------------------------------------
  // Where the figures come from
  // ---------------------------------------------------------------------------------------------

  /** The node's words for a call that ran short of gas. */
  predicate ShortCall(e: string) {
    Contains(e, "execution reverted") || Contains(e, "execution OOG")
  }

  /** The node's words for a validation that ran short of gas, by the codes of ERC-4337 and of the tracer. */
  predicate ShortValidation(e: string) {
    || Contains(e, "AA13 initCode failed or OOG")
    || Contains(e, "AA23 reverted (or OOG)") || Contains(e, "AA33 reverted (or OOG)")
    || Contains(e, "AA40 over verificationGasLimit") || Contains(e, "AA41 too little verificationGas")
    || Contains(e, "AA51 prefund below actualGasCost")
    || Contains(e, "return data out of bounds") || Contains(e, "validation OOG")
  }

  /** The node's words for a limit too high to be paid for. */
  predicate Unpaid(e: string) {
    Contains(e, "AA31 paymaster deposit too low") || Contains(e, "AA21 didn't pay prefund")
  }

  lemma ShortCallIff(e: string)
    ensures IsExecutionShort(e) <==> ShortCall(e)
  {
    hide Contains;
  }

  lemma UnpaidIff(e: string)
    ensures IsPrefundNotPaid(e) <==> Unpaid(e)
  {
    hide Contains;
  }

  lemma ShortValidationIff(e: string)
    ensures IsValidationOOG(e) <==> ShortValidation(e)
  {
    hide Contains;
  }

  /** The call gas of `r` goes back to request number `t`, a trace with both fees zero and the call gas at its maximum,
      which the node accepted with `g` gas used. It is that figure but at least 12100, if the full-fee trace asked for
      next was accepted with it. Otherwise that trace ran short of call gas, and a later one was accepted with more. */
  ghost predicate MeasuredAt(node: Node, max: nat, from: nat, r: Estimate, t: nat, g: nat) {
    && from <= t && t + 1 < r.clock && node(t, Trace(r.verificationGas, max, false)) == Accepted(g)
    && var least := if g < 12100 then 12100 else g;
       match node(t + 1, Trace(r.verificationGas, least, true)) {
         case Accepted(_) => r.callGas == least
         case Failed(e) =>
           && ShortCall(e) && least < r.callGas <= max
           && exists u :: t + 2 <= u < r.clock && node(u, Trace(r.verificationGas, r.callGas, true)).Accepted?
       }
  }

  ghost predicate Measured(node: Node, max: nat, from: nat, r: Estimate) {
    exists t, g :: MeasuredAt(node, max, from, r, t, g)
  }

  lemma FallbackMeasured(node: Node, max: nat, from: nat, t: nat, vgl: nat, g: nat, err: string)
    requires from <= t && node(t, Trace(vgl, max, false)) == Accepted(g)
    requires var least := if g < 12100 then 12100 else g;
      node(t + 1, Trace(vgl, least, true)) == Failed(err) && IsExecutionShort(err)
    ensures var r := CallFallback(node, max, t + 2, vgl, if g < 12100 then 12100 else g, err);
      r.error.None? ==> Measured(node, max, from, r)
  {
    hide Bisect, IsExecutionShort, ShortCall, Halvings;
    var least := if g < 12100 then 12100 else g;
    var r := CallFallback(node, max, t + 2, vgl, least, err);
    ShortCallIff(err);
    BisectSound(AskCall(node, vgl), IsExecutionShort, t + 2, least, max, 0, Some(err));
    CallFallbackSound(node, max, t + 2, vgl, least, err);
    if r.error.None? {
      assert MeasuredAt(node, max, from, r, t, g);
    }
  }

  lemma MeasuredEarlier(node: Node, max: nat, from: nat, later: nat, r: Estimate, tried: seq<nat>)
    requires from <= later && Measured(node, max, later, r)
    ensures Measured(node, max, from, r.(tried := tried))
  {
    var t, g :| MeasuredAt(node, max, later, r, t, g);
    assert MeasuredAt(node, max, from, r.(tried := tried), t, g);
  }

  lemma {:induction false} TracedMeasured(node: Node, max: nat, from: nat, t: nat, attempts: nat, vgl: nat)
    requires attempts <= MAX_RETRIES && max >= CUTOFF && from <= t && vgl > 0
    ensures var r := Traced(node, max, t, attempts, vgl); r.error.None? ==> Measured(node, max, from, r)
    decreases MAX_RETRIES - attempts, 1
  {
    hide IsValidationOOG, IsExecutionShort, CallFallback, Measured, Attempt;
    var r := Traced(node, max, t, attempts, vgl);
    match node(t, Trace(vgl, max, false))
    case Failed(err) => RetryMeasured(node, max, from, t + 1, attempts, vgl, err);
    case Accepted(g) =>
      var least := if g < NON_ZERO_VALUE_CALL then NON_ZERO_VALUE_CALL else g;
      match node(t + 1, Trace(vgl, least, true)) {
        case Accepted(_) => OneShotMeasured(node, max, from, t, vgl, g, r);
        case Failed(err) =>
          if IsExecutionShort(err) {
            FallbackMeasured(node, max, from, t, vgl, g, err);
          } else {
            RetryMeasured(node, max, from, t + 2, attempts, vgl, err);
          }
      }
  }

  lemma {:induction false} RetryMeasured(node: Node, max: nat, from: nat, t: nat, attempts: nat, vgl: nat, err: string)
    requires attempts <= MAX_RETRIES && max >= CUTOFF && from <= t && vgl > 0
    ensures var r := Retry(node, max, t, attempts, vgl, err); r.error.None? ==> Measured(node, max, from, r)
    decreases MAX_RETRIES - attempts, 0
  {
    hide IsValidationOOG, Measured, Attempt;
    var r := Retry(node, max, t, attempts, vgl, err);
    if r.error.None? {
      CallGasIsMeasured(node, max, t, attempts + 1, vgl);
      MeasuredEarlier(node, max, from, t, Attempt(node, max, t, attempts + 1, vgl), r.tried);
    }
  }

  /** For every node: the call gas returned without error was measured by this call. */
  lemma {:induction false} CallGasIsMeasured(node: Node, max: nat, t: nat, attempts: nat, lastVGL: nat)
    requires attempts <= MAX_RETRIES && max >= CUTOFF
    ensures var r := Attempt(node, max, t, attempts, lastVGL); r.error.None? ==> Measured(node, max, t, r)
    decreases MAX_RETRIES - attempts, 2
  {
    hide IsValidationOOG, Bisect, Halvings, Measured, Traced;
    var s := VerificationSearch(node, max, t, lastVGL);
    if lastVGL == 0 {
      BisectSound(AskVerification(node), IsValidationOOG, t, 0, max, 0, None);
    }
    if s.Done? && s.found != 0 {
      assert Buffered(s.found) > 0;
      TracedMeasured(node, max, t, s.clock, attempts, Buffered(s.found));
    }
  }

  lemma OneShotMeasured(node: Node, max: nat, from: nat, t: nat, vgl: nat, g: nat, r: Estimate)
    requires from <= t && node(t, Trace(vgl, max, false)) == Accepted(g)
    requires var least := if g < 12100 then 12100 else g;
      node(t + 1, Trace(vgl, least, true)).Accepted? && r.verificationGas == vgl && r.callGas == least && r.clock == t + 2
    ensures Measured(node, max, from, r)
  {
    assert MeasuredAt(node, max, from, r, t, g);
  }

  /** The first limit traced is a quarter above one that the node accepted in the search, and each further limit is a
      quarter above one whose trace, with or without fees, ran short of validation gas. */
  ghost predicate LimitsExplained(node: Node, from: nat, lastVGL: nat, r: Estimate) {
    && (lastVGL == 0 && r.tried != [] ==>
          exists t: nat, f: nat :: from <= t < r.clock && node(t, Probe(f)).Accepted? && r.tried[0] == f * 125 / 100)
    && Raises(node, from, r)
  }

  ghost predicate Raises(node: Node, from: nat, r: Estimate) {
    forall i :: 0 < i < |r.tried| ==> RaisedTo(node, from, r.clock, r.tried[i - 1], r.tried[i])
  }

  predicate QuarterAbove(vgl: nat, next: nat) {
    next == vgl * 125 / 100
  }

  ghost predicate RaisedTo(node: Node, from: nat, to: nat, vgl: nat, next: nat) {
    QuarterAbove(vgl, next) && RanShort(node, from, to, vgl)
  }

  ghost predicate RanShort(node: Node, from: nat, to: nat, vgl: nat) {
    exists t, c, full, e ::
      from <= t < to && node(t, Trace(vgl, c, full)) == Failed(e) && ShortValidation(e)
  }

  lemma RetryExplained(node: Node, max: nat, from: nat, t: nat, attempts: nat, vgl: nat, c: nat, full: bool, err: string)
    requires attempts <= MAX_RETRIES && from <= t && node(t, Trace(vgl, c, full)) == Failed(err) && vgl > 0
    requires attempts < MAX_RETRIES ==>
      var r := Attempt(node, max, t + 1, attempts + 1, vgl);
      && LimitsExplained(node, t + 1, vgl, r) && (r.tried != [] ==> r.tried[0] == vgl * 125 / 100) && r.clock >= t + 1
    ensures var r := Retry(node, max, t + 1, attempts, vgl, err);
      r.clock >= t + 1 && r.tried != [] && r.tried[0] == vgl && Raises(node, from, r)
  {
    hide Attempt, IsValidationOOG, ShortValidation;
    ShortValidationIff(err);
    if IsValidationOOG(err) && attempts < MAX_RETRIES {
      var r := Attempt(node, max, t + 1, attempts + 1, vgl);
      var all: seq<nat> := [vgl] + r.tried;
      assert RanShort(node, from, r.clock, vgl);
      forall i | 0 < i < |all|
        ensures RaisedTo(node, from, r.clock, all[i - 1], all[i])
      {
        if i > 1 {
          assert RaisedTo(node, t + 1, r.clock, r.tried[i - 2], r.tried[i - 1]);
        }
      }
    }
  }

  lemma {:induction false} TracedExplained(node: Node, max: nat, from: nat, t: nat, attempts: nat, vgl: nat)
    requires attempts <= MAX_RETRIES && max >= CUTOFF && from <= t && vgl > 0
    ensures var r := Traced(node, max, t, attempts, vgl);
      r.clock >= t && r.tried != [] && r.tried[0] == vgl && Raises(node, from, r)
    decreases MAX_RETRIES - attempts, 0
  {
    hide IsValidationOOG, IsExecutionShort, CallFallback, RaisedTo, RanShort, Retry, Attempt;
    if attempts < MAX_RETRIES {
      LimitsAreExplained(node, max, t + 1, attempts + 1, vgl);
      LimitsAreExplained(node, max, t + 2, attempts + 1, vgl);
    }
    match node(t, Trace(vgl, max, false))
    case Failed(err) => RetryExplained(node, max, from, t, attempts, vgl, max, false, err);
    case Accepted(g) =>
      var cgl := if g < NON_ZERO_VALUE_CALL then NON_ZERO_VALUE_CALL else g;
      match node(t + 1, Trace(vgl, cgl, true)) {
        case Accepted(_) =>
        case Failed(err) =>
          if IsExecutionShort(err) {
            FallbackClock(node, max, t + 2, vgl, cgl, err);
          } else {
            RetryExplained(node, max, from, t + 1, attempts, vgl, cgl, true, err);
          }
      }
  }

  lemma FallbackClock(node: Node, max: nat, t: nat, vgl: nat, cgl: nat, err: string)
    ensures var r := CallFallback(node, max, t, vgl, cgl, err); r.clock >= t && r.tried == [vgl]
  {
    hide Bisect, IsExecutionShort, Halvings;
    BisectSound(AskCall(node, vgl), IsExecutionShort, t, cgl, max, 0, Some(err));
  }

  /** For every node: every limit traced is explained by the node's answers in this call. */
  lemma {:induction false} LimitsAreExplained(node: Node, max: nat, t: nat, attempts: nat, lastVGL: nat)
    requires attempts <= MAX_RETRIES && max >= CUTOFF
    ensures var r := Attempt(node, max, t, attempts, lastVGL);
      && LimitsExplained(node, t, lastVGL, r) && r.clock >= t
      && (lastVGL != 0 && r.tried != [] ==> r.tried[0] == lastVGL * 125 / 100)
    decreases MAX_RETRIES - attempts, 1
  {
    hide IsValidationOOG, IsExecutionShort, Bisect, Halvings, RanShort, Traced;
    var s := VerificationSearch(node, max, t, lastVGL);
    if lastVGL == 0 {
      BisectSound(AskVerification(node), IsValidationOOG, t, 0, max, 0, None);
    }
    if s.Done? && s.found != 0 {
      var vgl := Buffered(s.found);
      assert vgl == s.found * 125 / 100 && vgl > 0;
      TracedExplained(node, max, t, s.clock, attempts, vgl);
      if lastVGL == 0 {
        var u :| t <= u < s.clock && AskVerification(node)(u, s.found).Accepted?;
        assert node(u, Probe(s.found)).Accepted?;
      }
    }
  }

  /** The error is the node's answer to a request of this call. */
  ghost predicate Answered(node: Node, from: nat, to: nat, e: string) {
    exists t, q :: from <= t < to && node(t, q) == Failed(e)
  }

  ghost predicate AskAnswered(ask: Ask, from: nat, to: nat, e: string) {
    exists t, m :: from <= t < to && ask(t, m) == Failed(e)
  }

  lemma {:induction false} BisectAnswered(ask: Ask, low: TooLow, t: nat, l: nat, r: int, f: nat, e: Option<string>)
    ensures var s := Bisect(ask, low, t, l, r, f, e);
      && s.clock >= t
      && (s.Aborted? ==> AskAnswered(ask, t, s.clock, s.error))
      && (s.Done? && s.last.Some? ==> s.last == e || AskAnswered(ask, t, s.clock, s.last.value))
    decreases r - l
  {
    hide IsPrefundNotPaid;
    if r - l >= CUTOFF {
      var m := (l + r) / 2;
      match ask(t, m)
      case Accepted(_) => BisectAnswered(ask, low, t + 1, l, m - 1, m, None);
      case Failed(err) =>
        BisectAnswered(ask, low, t + 1, l, m - 1, f, Some(err));
        BisectAnswered(ask, low, t + 1, m + 1, r, f, Some(err));
        assert forall to :: to > t ==> AskAnswered(ask, t, to, err);
    }
  }

  /** An error comes with two zeros and is the node's own. */
  ghost predicate FailureAnswered(node: Node, from: nat, r: Estimate) {
    && r.clock >= from
    && (r.error.Some? ==> r.verificationGas == 0 && r.callGas == 0 && Answered(node, from, r.clock, r.error.value))
  }

  lemma FallbackAnswered(node: Node, max: nat, from: nat, t: nat, vgl: nat, cgl: nat, err: string)
    requires from < t && node(t - 1, Trace(vgl, cgl, true)) == Failed(err)
    ensures FailureAnswered(node, from, CallFallback(node, max, t, vgl, cgl, err))
  {
    hide Bisect, IsExecutionShort;
    var ask := AskCall(node, vgl);
    var s := Bisect(ask, IsExecutionShort, t, cgl, max, 0, Some(err));
    BisectAnswered(ask, IsExecutionShort, t, cgl, max, 0, Some(err));
    assert Answered(node, from, s.clock, err);
    forall e | AskAnswered(ask, t, s.clock, e)
      ensures Answered(node, from, s.clock, e)
    {
      var u, m :| t <= u < s.clock && ask(u, m) == Failed(e);
      assert node(u, Trace(vgl, m, true)) == Failed(e);
    }
  }

  lemma AnsweredEarlier(node: Node, from: nat, later: nat, r: Estimate, tried: seq<nat>)
    requires from <= later && FailureAnswered(node, later, r)
    ensures FailureAnswered(node, from, r.(tried := tried))
  {
  }

  lemma {:induction false} TracedAnswered(node: Node, max: nat, from: nat, t: nat, attempts: nat, vgl: nat)
    requires attempts <= MAX_RETRIES && max >= CUTOFF && from <= t && vgl > 0
    ensures FailureAnswered(node, from, Traced(node, max, t, attempts, vgl))
    decreases MAX_RETRIES - attempts, 0
  {
    hide IsValidationOOG, IsExecutionShort, CallFallback, Attempt;
    var r := Traced(node, max, t, attempts, vgl);
    if attempts < MAX_RETRIES {
      FailuresAreAnswered(node, max, t + 1, attempts + 1, vgl);
      FailuresAreAnswered(node, max, t + 2, attempts + 1, vgl);
      AnsweredEarlier(node, from, t + 1, Attempt(node, max, t + 1, attempts + 1, vgl), r.tried);
      AnsweredEarlier(node, from, t + 2, Attempt(node, max, t + 2, attempts + 1, vgl), r.tried);
    }
    match node(t, Trace(vgl, max, false))
    case Failed(err) =>
      assert Answered(node, from, t + 1, err);
    case Accepted(g) =>
      var cgl := if g < NON_ZERO_VALUE_CALL then NON_ZERO_VALUE_CALL else g;
      match node(t + 1, Trace(vgl, cgl, true)) {
        case Accepted(_) =>
        case Failed(err) =>
          assert Answered(node, from, t + 2, err);
          if IsExecutionShort(err) {
            FallbackAnswered(node, max, from, t + 2, vgl, cgl, err);
          }
      }
  }

  /** For every node: an error returned is one that the node gave in this call, and no figures come with it. */
  lemma {:induction false} FailuresAreAnswered(node: Node, max: nat, t: nat, attempts: nat, lastVGL: nat)
    requires attempts <= MAX_RETRIES && max >= CUTOFF
    ensures FailureAnswered(node, t, Attempt(node, max, t, attempts, lastVGL))
    decreases MAX_RETRIES - attempts, 1
  {
    hide IsValidationOOG, IsExecutionShort, Bisect, Traced;
    var s := VerificationSearch(node, max, t, lastVGL);
    var ask := AskVerification(node);
    if lastVGL == 0 {
      BisectAnswered(ask, IsValidationOOG, t, 0, max, 0, None);
    }
    forall e | AskAnswered(ask, t, s.clock, e)
      ensures Answered(node, t, s.clock, e)
    {
      var u, m :| t <= u < s.clock && ask(u, m) == Failed(e);
      assert node(u, Probe(m)) == Failed(e);
    }
    if s.Done? && s.found != 0 {
      var vgl := Buffered(s.found);
      assert vgl > 0;
      TracedAnswered(node, max, t, s.clock, attempts, vgl);
    }
  }

  /** A trace that runs short of validation gas is repeated a quarter higher while fewer than seven retries were made; any
      other error of the zero-fee trace is returned. */
  lemma ShortTraceIsRetriedIff(node: Node, max: nat, t: nat, attempts: nat, lastVGL: nat, e: string)
    requires attempts <= MAX_RETRIES && lastVGL > 0 && node(t, Trace(lastVGL * 125 / 100, max, false)) == Failed(e)
    ensures var r, vgl := Attempt(node, max, t, attempts, lastVGL), lastVGL * 125 / 100;
      if ShortValidation(e) && attempts < 7 then
        var again := Attempt(node, max, t + 1, attempts + 1, vgl); r == again.(tried := [vgl] + again.tried)
      else r == Estimate(0, 0, Some(e), t + 1, [vgl])
  {
    hide IsValidationOOG, ShortValidation;
    ShortValidationIff(e);
    var vgl := lastVGL * 125 / 100;
    assert Attempt(node, max, t, attempts, lastVGL) == Traced(node, max, t, attempts, vgl) by {
      assert Buffered(lastVGL) == vgl;
      hide Traced, Buffered;
    }
    assert Traced(node, max, t, attempts, vgl) == Retry(node, max, t + 1, attempts, vgl, e) by {
      hide Retry;
    }
    hide Attempt, Traced;
  }

  /** A caller's estimate is sound exactly when the configured maximum admits a first probe: below the cutoff no
      request is made and zeros come back without an error, whatever the node. */
  lemma EstimateSoundIff(node: Node, max: nat, t: nat)
    ensures var r := Attempt(node, max, t, 0, 0);
      && (max >= 30000 <==> (r.error.None? ==> TraceAccepted(node, t, r)))
      && (max < 30000 ==> r == Estimate(0, 0, None, t, []))
  {
    hide Attempt;
    if max >= CUTOFF {
      AttemptIsSound(node, max, t, 0, 0);
    } else {
      NothingSearched(node, max, t);
    }
  }

  lemma NothingSearched(node: Node, max: nat, t: nat)
    requires max < CUTOFF
    ensures Attempt(node, max, t, 0, 0) == Estimate(0, 0, None, t, [])
  {
    hide Traced, IsValidationOOG, IsPrefundNotPaid;
  }

  function Pow(b: nat, e: nat): nat {
    if e == 0 then 1 else b * Pow(b, e - 1)
  }

  lemma QuarterUp(f: nat, max: nat, p4: nat, p5: nat)
    requires f * p4 <= max * p5
    ensures Buffered(f) * (4 * p4) <= max * (5 * p5)
  {
    var g := Buffered(f);
    assert 4 * g <= 5 * f;
    calc <= {
      g * (4 * p4);
      (4 * g) * p4;
      (5 * f) * p4;
      5 * (f * p4);
      5 * (max * p5);
      max * (5 * p5);
    }
  }

  lemma {:induction false} TriedBounded(tried: seq<nat>, max: nat, i: nat)
    requires Inflates(tried) && i < |tried| && tried[0] <= Buffered(max)
    ensures tried[i] * Pow(4, i + 1) <= max * Pow(5, i + 1)
  {
    hide Buffered;
    if i == 0 {
      QuarterUp(max, max, 1, 1);
      assert Pow(4, 1) == 4 * Pow(4, 0) && Pow(5, 1) == 5 * Pow(5, 0);
    } else {
      TriedBounded(tried, max, i - 1);
      QuarterUp(tried[i - 1], max, Pow(4, i), Pow(5, i));
    }
  }

  lemma {:induction false} PowersTo8(k: nat)
    requires k <= 8
    ensures Pow(5, k) * Pow(4, 8) <= Pow(5, 8) * Pow(4, k)
    ensures Pow(4, k) > 0
  {
    assert Pow(4, 0) == Pow(5, 0) == 1;
    assert Pow(4, 1) == 4 && Pow(5, 1) == 5;
    assert Pow(4, 2) == 16 && Pow(5, 2) == 25;
    assert Pow(4, 3) == 64 && Pow(5, 3) == 125;
    assert Pow(4, 4) == 256 && Pow(5, 4) == 625;
    assert Pow(4, 5) == 1024 && Pow(5, 5) == 3125;
    assert Pow(4, 6) == 4096 && Pow(5, 6) == 15625;
    assert Pow(4, 7) == 16384 && Pow(5, 7) == 78125;
    assert Pow(4, 8) == 65536 && Pow(5, 8) == 390625;
  }

  lemma ScaleDown(f: nat, max: nat, p4: nat, p5: nat, q4: nat, q5: nat)
    requires f * p4 <= max * p5 && p5 * q4 <= q5 * p4 && p4 > 0
    ensures f * q4 <= max * q5
  {
    if f * q4 > max * q5 {
      calc {
        (f * p4) * q4;
        (f * q4) * p4;
      > { MulStrict(f * q4, max * q5, p4); }
        (max * q5) * p4;
        max * (q5 * p4);
      >= { MulMono(max, p5 * q4, q5 * p4); }
        max * (p5 * q4);
        (max * p5) * q4;
      >= { MulMono(q4, f * p4, max * p5); }
        (f * p4) * q4;
      }
    }
  }

  lemma MulStrict(a: int, b: int, c: int)
    requires a > b && c > 0
    ensures a * c > b * c
  {
  }

  lemma MulMono(a: nat, b: int, c: int)
    requires b <= c
    ensures a * b <= a * c
  {
  }

  /** No attempt's limit exceeds max * (5/4)^8, so for any configured maximum up to 10^16 the buffer
      multiplication stays within a signed 64-bit integer. */
  lemma TriedWithinInt64(node: Node, max: nat, t: nat, i: nat)
    requires max >= CUTOFF && i < |Attempt(node, max, t, 0, 0).tried|
    ensures var f := Attempt(node, max, t, 0, 0).tried[i];
      && f * 65536 <= max * 390625
      && (max <= 10_000_000_000_000_000 ==> f * (100 + VGL_BUFFER) < 0x8000_0000_0000_0000)
  {
    hide Attempt, Buffered;
    AttemptIsSound(node, max, t, 0, 0);
    var tried := Attempt(node, max, t, 0, 0).tried;
    TriedBounded(tried, max, i);
    PowersTo8(i + 1);
    PowersTo8(8);
    ScaleDown(tried[i], max, Pow(4, i + 1), Pow(5, i + 1), Pow(4, 8), Pow(5, 8));
    assert Pow(4, 8) == 65536 && Pow(5, 8) == 390625;
  }

  /** Against a node with a window of acceptance at least as wide as the cutoff, the first traced limit is the
      buffered lower end of the window, to within the cutoff. */
  lemma EstimateInWindow(node: Node, max: nat, t: nat, lo: nat, hi: nat)
    requires Window(AskVerification(node), IsValidationOOG, lo, hi)
    requires hi <= max && hi - lo >= 30000
    ensures var r := Attempt(node, max, t, 0, 0);
      r.tried != [] && lo * 125 / 100 <= r.tried[0] <= (lo + 30000) * 125 / 100
  {
    hide IsValidationOOG, IsExecutionShort, Bisect, Buffered, Window;
    var s := VerificationSearch(node, max, t, 0);
    BisectInWindow(AskVerification(node), IsValidationOOG, lo, hi, t, 0, max, 0, None);
    BufferGrows(lo, s.found);
    BufferGrows(s.found, lo + 30000);
    assert Buffered(lo) == lo * 125 / 100 && Buffered(lo + 30000) == (lo + 30000) * 125 / 100 by {
      BufferIs(lo);
      BufferIs(lo + 30000);
    }
  }
}
