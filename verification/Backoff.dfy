/**
 The retry loop of ctx.go and its delays: each delay is the truncated product
 of the last one and the factor, capped. Factors are exact reals here, and
 durations are unbounded integers of nanoseconds.
 */
module Backoff {
  import opened Wrappers

  datatype Config = Config(min: int, max: int, timeout: int, factor: real)

  const SECOND := 1_000_000_000

  const DEFAULT := Config(50_000_000, SECOND, 30 * SECOND, 1.2)

  /** Conversion to an integer drops the fraction, towards zero. */
  function Truncate(x: real): int {
    if x >= 0.0 then x.Floor else -((-x).Floor)
  }

  function Next(bc: Config, d: int): int {
    var e := Truncate(d as real * bc.factor);
    if e < bc.max then e else bc.max
  }

  /** The delay used after failure k. */
  function Delay(bc: Config, k: nat): int {
    if k == 0 then bc.min else Next(bc, Delay(bc, k - 1))
  }

  /** The product, kept as a function of its own so that proofs can hide it. */
  function Times(a: real, b: real): real {
    a * b
  }

  function Pow(f: real, k: nat): real {
    if k == 0 then 1.0 else Times(f, Pow(f, k - 1))
  }

  function Lesser(a: real, b: real): real {
    if a <= b then a else b
  }

  // ---- Growth ----------------------------------------------------------------

  /** The factor adds at least a whole nanosecond to d. */
  predicate AddsOne(bc: Config, d: int) {
    d as real * (bc.factor - 1.0) >= 1.0
  }

  /** One step from a delay below the cap: growth is strict exactly when the factor adds a whole nanosecond. */
  lemma NextGrows(bc: Config, d: int)
    requires bc.factor >= 1.0 && 0 <= d <= bc.max
    ensures d <= Next(bc, d) <= bc.max
    ensures d < bc.max ==> (d < Next(bc, d) <==> AddsOne(bc, d))
  {
    Grown(d as real, bc.factor);
  }

  /** A product with a factor of at least one is what there was and what the factor adds. */
  lemma Grown(x: real, f: real)
    requires x >= 0.0 && f >= 1.0
    ensures x * f == x + x * (f - 1.0) && x * (f - 1.0) >= 0.0
  {
    assert 1.0 + (f - 1.0) == f;
    DistributeSum(x, 1.0, f - 1.0);
    Scale(0.0, x, f - 1.0);
  }

  lemma AddsOneMonotone(bc: Config, d: int, e: int)
    requires bc.factor >= 1.0 && d <= e && AddsOne(bc, d)
    ensures AddsOne(bc, e)
  {
    Scale(d as real, e as real, bc.factor - 1.0);
  }

  lemma Scale(x: real, y: real, a: real)
    requires x <= y && a >= 0.0
    ensures x * a <= y * a
  {
  }

  lemma {:induction false} DelayRange(bc: Config, k: nat)
    requires bc.factor >= 1.0 && 0 <= bc.min <= bc.max
    ensures bc.min <= Delay(bc, k) <= Delay(bc, k + 1) <= bc.max
  {
    if k > 0 {
      DelayRange(bc, k - 1);
    }
    NextGrows(bc, Delay(bc, k));
  }

  lemma NextClimbs(bc: Config, d: int)
    requires bc.factor >= 1.0 && 0 <= bc.min <= d <= bc.max && AddsOne(bc, bc.min)
    ensures Next(bc, d) >= d + 1 || Next(bc, d) == bc.max
  {
    AddsOneMonotone(bc, bc.min, d);
    NextGrows(bc, d);
  }

  /** When the smallest delay grows at all, every delay below the cap grows. */
  lemma {:induction false} DelayClimbs(bc: Config, k: nat)
    requires bc.factor >= 1.0 && 0 <= bc.min <= bc.max && AddsOne(bc, bc.min)
    ensures Delay(bc, k) >= bc.min + k || Delay(bc, k) == bc.max
  {
    if k > 0 {
      DelayClimbs(bc, k - 1);
      DelayRange(bc, k - 1);
      NextClimbs(bc, Delay(bc, k - 1));
    }
  }

  lemma {:induction false} DelaySticks(bc: Config, k: nat)
    requires bc.factor >= 1.0 && 0 <= bc.min < bc.max && !AddsOne(bc, bc.min)
    ensures Delay(bc, k) == bc.min
  {
    if k > 0 {
      DelaySticks(bc, k - 1);
      NextGrows(bc, bc.min);
    }
  }

  lemma {:induction false} CapIsFinal(bc: Config, k: nat, n: nat)
    requires bc.factor >= 1.0 && 0 <= bc.min <= bc.max && k <= n && Delay(bc, k) == bc.max
    ensures Delay(bc, n) == bc.max
    decreases n
  {
    if k < n {
      CapIsFinal(bc, k, n - 1);
      NextGrows(bc, bc.max);
    }
  }

  ghost predicate ReachesCap(bc: Config) {
    exists k: nat :: Delay(bc, k) == bc.max
  }

  /**
   For a factor of at least one, the cap is reached, within Max - Min steps and
   for good, exactly when Min is Max or the factor adds a whole nanosecond to
   Min; otherwise truncation keeps every delay at Min.
   */
  lemma CapReachedIff(bc: Config)
    requires bc.factor >= 1.0 && 0 <= bc.min <= bc.max
    ensures ReachesCap(bc) <==> bc.min == bc.max || AddsOne(bc, bc.min)
    ensures ReachesCap(bc) ==> forall n: nat :: n >= bc.max - bc.min ==> Delay(bc, n) == bc.max
  {
    if bc.min == bc.max || AddsOne(bc, bc.min) {
      if bc.min == bc.max {
        assert Delay(bc, 0) == bc.max;
      } else {
        DelayClimbs(bc, bc.max - bc.min);
        DelayRange(bc, bc.max - bc.min);
      }
      var steps: nat := bc.max - bc.min;
      assert Delay(bc, steps) == bc.max;
      forall n: nat | n >= steps
        ensures Delay(bc, n) == bc.max
      {
        CapIsFinal(bc, steps, n);
      }
    } else {
      forall k: nat
        ensures Delay(bc, k) != bc.max
      {
        DelaySticks(bc, k);
      }
    }
  }

  // ---- The two-sided bound -----------------------------------------------------

  /** What truncating every product can cost: c is the fixed point of x -> f*x - 1. */
  function Loss(bc: Config): real
    requires bc.factor > 1.0
  {
    1.0 / (bc.factor - 1.0)
  }

  /** The recurrences x -> f*x - 1 and x -> f*x from Min. */
  function LowerCurve(bc: Config, k: nat): real {
    if k == 0 then bc.min as real else Times(bc.factor, LowerCurve(bc, k - 1)) - 1.0
  }

  function UpperCurve(bc: Config, k: nat): real {
    if k == 0 then bc.min as real else Times(bc.factor, UpperCurve(bc, k - 1))
  }

  lemma LossFactor(bc: Config)
    requires bc.factor > 1.0
    ensures Loss(bc) * (bc.factor - 1.0) == 1.0
  {
  }

  lemma LowerForm(f: real, m: real, c: real, p: real)
    requires c * (f - 1.0) == 1.0
    ensures Times(f, Times(m - c, p) + c) - 1.0 == Times(m - c, Times(f, p)) + c
  {
    var a := m - c;
    Distribute(f, 1.0, c);
    Rotate(f, a, p);
    DistributeSum(f, a * p, c);
  }

  lemma Rotate(f: real, m: real, p: real)
    ensures Times(f, Times(m, p)) == Times(m, Times(f, p))
  {
  }

  lemma DistributeSum(f: real, x: real, y: real)
    ensures f * (x + y) == f * x + f * y
  {
  }

  lemma CurvesStart(m: real, c: real)
    ensures Times(m - c, 1.0) + c == m && Times(m, 1.0) == m
  {
  }

  /** The curves in closed form. */
  lemma {:induction false} CurvesClosed(bc: Config, k: nat)
    requires bc.factor > 1.0
    ensures LowerCurve(bc, k) == Times(bc.min as real - Loss(bc), Pow(bc.factor, k)) + Loss(bc)
    ensures UpperCurve(bc, k) == Times(bc.min as real, Pow(bc.factor, k))
  {
    hide Loss, Times;
    if k == 0 {
      CurvesStart(bc.min as real, Loss(bc));
    } else {
      LossFactor(bc);
      CurvesClosed(bc, k - 1);
      LowerForm(bc.factor, bc.min as real, Loss(bc), Pow(bc.factor, k - 1));
      Rotate(bc.factor, bc.min as real, Pow(bc.factor, k - 1));
    }
  }

  /** Above the loss, truncation takes less than the factor adds. */
  lemma NextAboveLoss(bc: Config, d: int)
    requires bc.factor > 1.0 && Loss(bc) < d as real
    ensures AddsOne(bc, d) && d > 0
  {
    var c, g := Loss(bc), bc.factor - 1.0;
    LossFactor(bc);
    LossPositive(bc);
    hide Loss;
    PositiveProduct(d as real - c, g);
    Distribute(d as real, c, g);
  }

  lemma LossPositive(bc: Config)
    requires bc.factor > 1.0
    ensures Loss(bc) > 0.0
  {
  }

  lemma Distribute(x: real, c: real, g: real)
    ensures (x - c) * g == x * g - c * g
  {
  }

  lemma PositiveProduct(a: real, b: real)
    requires a > 0.0 && b > 0.0
    ensures a * b > 0.0
  {
  }

  lemma AboveLoss(bc: Config, k: nat)
    requires bc.factor > 1.0 && Loss(bc) < bc.min as real <= bc.max as real
    ensures 0 < bc.min <= Delay(bc, k) <= bc.max && Loss(bc) < Delay(bc, k) as real
  {
    NextAboveLoss(bc, bc.min);
    DelayRange(bc, k);
  }

  lemma TimesMonotone(f: real, a: real, b: real)
    requires f > 0.0 && a <= b
    ensures Times(f, a) <= Times(f, b)
  {
    Scale(a, b, f);
  }

  /** One step in terms of the exact product. */
  lemma NextNearProduct(bc: Config, d: int)
    requires bc.factor >= 1.0 && 0 <= d <= bc.max
    ensures Next(bc, d) as real <= Times(bc.factor, d as real)
    ensures Next(bc, d) == bc.max || Times(bc.factor, d as real) - 1.0 < Next(bc, d) as real
    ensures d == bc.max ==> Next(bc, d) == bc.max
  {
    NextGrows(bc, d);
    TimesMonotone(bc.factor, 0.0, d as real);
    assert d as real * bc.factor == Times(bc.factor, d as real);
  }

  /** One step keeps a delay between two curves that themselves take one step. */
  lemma NextBetween(bc: Config, d: int, low: real, high: real)
    requires bc.factor >= 1.0 && 0 <= d <= bc.max
    requires Lesser(bc.max as real, low) <= d as real <= high
    ensures Lesser(bc.max as real, Times(bc.factor, low) - 1.0) <= Next(bc, d) as real
    ensures Next(bc, d) as real <= Times(bc.factor, high)
  {
    hide Next, Times;
    NextNearProduct(bc, d);
    TimesMonotone(bc.factor, d as real, high);
    if d != bc.max {
      TimesMonotone(bc.factor, low, d as real);
    }
  }

  ghost predicate Between(bc: Config, k: nat) {
    Lesser(bc.max as real, LowerCurve(bc, k)) <= Delay(bc, k) as real <= UpperCurve(bc, k)
  }

  lemma {:induction false} DelayBetween(bc: Config, k: nat)
    requires bc.factor >= 1.0 && 0 <= bc.min <= bc.max
    ensures Between(bc, k)
  {
    hide Next, Times;
    if k > 0 {
      DelayBetween(bc, k - 1);
      DelayRange(bc, k - 1);
      NextBetween(bc, Delay(bc, k - 1), LowerCurve(bc, k - 1), UpperCurve(bc, k - 1));
    }
  }

  /**
   With a factor f above one and c = 1/(f-1), the k-th delay lies between the
   capped curves (Min-c)f^k+c and Min*f^k.
   */
  lemma DelayBounds(bc: Config, k: nat)
    requires bc.factor > 1.0 && 0 <= bc.min <= bc.max
    ensures var p, c := Pow(bc.factor, k), Loss(bc);
            && Lesser(bc.max as real, Times(bc.min as real - c, p) + c) <= Delay(bc, k) as real
            && Delay(bc, k) as real <= Lesser(bc.max as real, Times(bc.min as real, p))
  {
    hide Next, Loss, Times;
    DelayBetween(bc, k);
    DelayRange(bc, k);
    CurvesClosed(bc, k);
  }

  /** When Min is above c, delays below the cap strictly increase. */
  lemma DelayIncreases(bc: Config, k: nat)
    requires bc.factor > 1.0 && Loss(bc) < bc.min as real <= bc.max as real
    ensures Delay(bc, k) < bc.max ==> Delay(bc, k) < Delay(bc, k + 1)
  {
    AboveLoss(bc, k);
    NextAboveLoss(bc, Delay(bc, k));
    NextGrows(bc, Delay(bc, k));
  }

  lemma PowDouble(f: real, k: nat)
    ensures Pow(f, 2 * k) == Pow(f, k) * Pow(f, k)
  {
    PowAdd(f, k, k);
  }

  lemma {:induction false} PowAdd(f: real, j: nat, k: nat)
    ensures Pow(f, j + k) == Pow(f, j) * Pow(f, k)
  {
    if j > 0 {
      PowAdd(f, j - 1, k);
    }
  }

  /** With the default configuration the wait first reaches one second after the seventeenth growth. */
  lemma DefaultReachesCap()
    ensures Delay(DEFAULT, 16) < DEFAULT.max
    ensures forall k: nat :: k >= 17 ==> Delay(DEFAULT, k) == DEFAULT.max
  {
    var f := 1.2;
    assert Pow(f, 1) == f * Pow(f, 0);
    PowDouble(f, 1);
    PowDouble(f, 2);
    PowDouble(f, 4);
    PowDouble(f, 8);
    assert 18.4 < Pow(f, 16) < 18.5;
    assert Loss(DEFAULT) == 5.0;
    DelayBounds(DEFAULT, 16);
    DelayBounds(DEFAULT, 17);
    AboveLoss(DEFAULT, 17);
    assert Pow(f, 17) == f * Pow(f, 16);
    assert Delay(DEFAULT, 17) == DEFAULT.max;
    forall k: nat | k >= 17
      ensures Delay(DEFAULT, k) == DEFAULT.max
    {
      CapIsFinal(DEFAULT, 17, k);
    }
  }

  // ---- The loop ----------------------------------------------------------------

  /**
   One turn of the loop: whether f succeeded, when it came back, which case of
   the select was taken after a failure (the closed context or the timer), and when.
   */
  datatype Attempt = Attempt(ok: bool, back: int, closed: bool, until: int)

  datatype Failure = FromFunction | FromContext

  /** A run cut off after finitely many attempts may still be in the loop. */
  datatype Outcome = Returned(err: Option<Failure>, calls: nat) | Running

  function FirstSuccess(script: seq<Attempt>): (n: nat)
    ensures n <= |script| && (n < |script| ==> script[n].ok)
    ensures forall i :: 0 <= i < n ==> !script[i].ok
  {
    if script == [] then 0
    else if script[0].ok then 0
    else
      assert forall i :: 0 <= i < |script| - 1 ==> script[1..][i] == script[i + 1];
      1 + FirstSuccess(script[1..])
  }

  /** The outcome of the loop as written: the first success, or none yet. */
  function AsWritten(script: seq<Attempt>): Outcome {
    var n := FirstSuccess(script);
    if n < |script| then Returned(None, n + 1) else Running
  }

  function Delays(bc: Config, n: nat): seq<int> {
    seq(n, k requires 0 <= k < n => Delay(bc, k))
  }

  /** The delays of the first n attempts whose timer ran out: those that did not take the closed context. */
  function Waited(bc: Config, script: seq<Attempt>, n: nat): seq<int>
    requires n <= |script|
  {
    if n == 0 then []
    else Waited(bc, script, n - 1) + if script[n - 1].closed then [] else [Delay(bc, n - 1)]
  }

  /**
   The loop of ctx.go as written: the break in the select's first case leaves
   the select, not the loop. It returns only after a success and always without
   an error. After failure k a timer of Delay(k) is armed; the loop waits for it
   only when the select does not find the context closed.
   */
  method Run(bc: Config, script: seq<Attempt>) returns (out: Outcome, armed: seq<int>, waits: seq<int>)
    ensures out == AsWritten(script)
    ensures armed == Delays(bc, FirstSuccess(script))
    ensures waits == Waited(bc, script, FirstSuccess(script))
  {
    var err: Option<Failure> := None;
    var d := bc.min;
    armed, waits := [], [];
    var i := 0;
    while i < |script|
      invariant 0 <= i <= |script| && i <= FirstSuccess(script)
      invariant d == Delay(bc, i) && armed == Delays(bc, i) && waits == Waited(bc, script, i)
    {
      err := if script[i].ok then None else Some(FromFunction);
      if err == None {
        return Returned(err, i + 1), armed, waits;
      }
      armed := armed + [d];
      if script[i].closed {
        err := Some(FromContext);
      } else {
        waits := waits + [d];
      }
      d := Next(bc, d);
      i := i + 1;
    }
    return Running, armed, waits;
  }

  // ---- A closed context -----------------------------------------------------------

  /** A context stays closed: every failed attempt after one that found it closed finds it closed. */
  ghost predicate StaysClosed(script: seq<Attempt>) {
    forall i, j :: 0 <= i < j < |script| && script[i].closed && !script[j].ok ==> script[j].closed
  }

  /** The first of the failed attempts before the first success that finds the context closed, or that success. */
  function FirstClosed(script: seq<Attempt>): (n: nat)
    ensures n <= FirstSuccess(script)
    ensures n < FirstSuccess(script) ==> script[n].closed
    ensures forall i :: 0 <= i < n ==> !script[i].closed
  {
    if script == [] || script[0].ok || script[0].closed then 0
    else
      assert forall i :: 0 <= i < |script| - 1 ==> script[1..][i] == script[i + 1];
      1 + FirstClosed(script[1..])
  }

  lemma {:induction false} WaitedUpto(bc: Config, script: seq<Attempt>, n: nat)
    requires StaysClosed(script) && n <= FirstSuccess(script)
    ensures Waited(bc, script, n) == Delays(bc, if n <= FirstClosed(script) then n else FirstClosed(script))
  {
    if n > 0 {
      WaitedUpto(bc, script, n - 1);
    }
  }

  /**
   The loop waits after exactly the failures before the first that finds the
   context closed, the k-th of them for Delay(k). From then on it calls f again
   without any wait.
   */
  lemma NoWaitOnceClosed(bc: Config, script: seq<Attempt>)
    requires StaysClosed(script)
    ensures Waited(bc, script, FirstSuccess(script)) == Delays(bc, FirstClosed(script))
    ensures forall n :: FirstClosed(script) <= n <= FirstSuccess(script)
              ==> Waited(bc, script, n) == Waited(bc, script, FirstClosed(script))
  {
    WaitedUpto(bc, script, FirstSuccess(script));
    forall n | FirstClosed(script) <= n <= FirstSuccess(script)
      ensures Waited(bc, script, n) == Waited(bc, script, FirstClosed(script))
    {
      WaitedUpto(bc, script, n);
      WaitedUpto(bc, script, FirstClosed(script));
    }
  }

  /** What the comment above the function promises: also to stop once the context is closed. */
  function Documented(script: seq<Attempt>, i: nat): Outcome
    requires i <= |script|
    decreases |script| - i
  {
    if i == |script| then Running
    else if script[i].ok then Returned(None, i + 1)
    else if script[i].closed then Returned(Some(FromContext), i + 1)
    else Documented(script, i + 1)
  }

  lemma {:induction false} DocumentedFrom(script: seq<Attempt>, i: nat)
    requires i <= FirstSuccess(script)
    ensures Documented(script, i) == AsWritten(script)
       <==> forall j :: i <= j < FirstSuccess(script) ==> !script[j].closed
    ensures Documented(script, i) == AsWritten(script)
            || (Documented(script, i).Returned? && Documented(script, i).err == Some(FromContext))
    decreases |script| - i
  {
    if i < FirstSuccess(script) && !script[i].closed {
      DocumentedFrom(script, i + 1);
    }
  }

  /**
   The loop keeps its documented promise exactly on the runs in which no failed
   attempt finds the context closed before f first succeeds.
   */
  lemma DocumentedIff(script: seq<Attempt>)
    ensures AsWritten(script) == Documented(script, 0)
       <==> forall j :: 0 <= j < FirstSuccess(script) ==> !script[j].closed
  {
    DocumentedFrom(script, 0);
  }

  /**
   On a closed context with f failing, the loop is still running after any number of attempts, none
   of which waited.
   */
  lemma ClosedContextDoesNotStop(bc: Config, n: nat)
    ensures var script := seq(n + 1, k => Attempt(false, 0, true, 0));
            && AsWritten(script) == Running && Documented(script, 0) == Returned(Some(FromContext), 1)
            && Waited(bc, script, n + 1) == []
  {
    var script := seq(n + 1, k => Attempt(false, 0, true, 0));
    assert forall i :: 0 <= i < |script| ==> !script[i].ok && script[i].closed;
    assert FirstSuccess(script) == |script|;
    WaitedUpto(bc, script, n + 1);
    assert FirstClosed(script) == 0;
  }

  // ---- Waits before the deadline -------------------------------------------------

  /** Times do not run backwards, and a timer takes at least its delay. */
  ghost predicate WellTimed(bc: Config, script: seq<Attempt>) {
    forall i :: 0 <= i < |script| ==>
      && script[i].back >= (if i == 0 then 0 else script[i - 1].until)
      && script[i].until >= script[i].back + (if script[i].closed || script[i].ok then 0 else Delay(bc, i))
  }

  /** Waits among the first n attempts that ran to the end of their timer by the deadline. */
  function Elapsed(bc: Config, script: seq<Attempt>, n: nat): nat
    requires n <= |script|
  {
    if n == 0 then 0
    else
      var a := script[n - 1];
      Elapsed(bc, script, n - 1) + if !a.ok && !a.closed && a.until <= bc.timeout then 1 else 0
  }

  /** The attempts whose wait ended by the deadline. */
  ghost function ElapsedAt(bc: Config, script: seq<Attempt>, n: nat): set<int>
    requires n <= |script|
  {
    set i | 0 <= i < n && !script[i].ok && !script[i].closed && script[i].until <= bc.timeout
  }

  lemma ElapsedGrows(bc: Config, script: seq<Attempt>, n: nat)
    requires 0 < n <= |script|
    ensures var a := script[n - 1];
            var before := ElapsedAt(bc, script, n - 1);
            && n - 1 !in before
            && ElapsedAt(bc, script, n)
               == if !a.ok && !a.closed && a.until <= bc.timeout then before + {n - 1} else before
  {
  }

  /** They are what is counted. */
  lemma {:induction false} ElapsedCounts(bc: Config, script: seq<Attempt>, n: nat)
    requires n <= |script|
    ensures Elapsed(bc, script, n) == |ElapsedAt(bc, script, n)|
  {
    if n > 0 {
      hide ElapsedAt;
      ElapsedCounts(bc, script, n - 1);
      ElapsedGrows(bc, script, n);
    } else {
      assert ElapsedAt(bc, script, 0) == {};
    }
  }

  lemma NextAtLeast(bc: Config, d: int, m: int)
    requires bc.factor >= 1.0 && 0 <= m <= d && m <= bc.max
    ensures Next(bc, d) >= m
  {
    Grown(d as real, bc.factor);
  }

  lemma {:induction false} DelayAtLeast(bc: Config, k: nat, m: int)
    requires bc.factor >= 1.0 && 0 <= m <= bc.min && m <= bc.max
    ensures Delay(bc, k) >= m
  {
    if k > 0 {
      DelayAtLeast(bc, k - 1, m);
      NextAtLeast(bc, Delay(bc, k - 1), m);
    }
  }

  lemma OneMore(e: nat, m: int)
    ensures (e + 1) * m == e * m + m
  {
  }

  lemma {:induction false} ElapsedTime(bc: Config, script: seq<Attempt>, n: nat, m: int)
    requires bc.factor >= 1.0 && 0 < m <= bc.min && m <= bc.max && WellTimed(bc, script) && n <= |script|
    ensures n > 0 ==> Elapsed(bc, script, n) * m <= script[n - 1].until
    ensures n == 0 ==> Elapsed(bc, script, n) == 0
    ensures Elapsed(bc, script, n) > 0 ==> Elapsed(bc, script, n) * m <= bc.timeout
  {
    hide Next;
    if n > 0 {
      ElapsedTime(bc, script, n - 1, m);
      DelayAtLeast(bc, n - 1, m);
      OneMore(Elapsed(bc, script, n - 1), m);
    }
  }

  /** For positive delays and a factor of at least one, at most Timeout / min(Min, Max) waits end by the deadline. */
  lemma WaitsBeforeDeadline(bc: Config, script: seq<Attempt>)
    requires bc.factor >= 1.0 && bc.min > 0 && bc.max > 0 && bc.timeout >= 0 && WellTimed(bc, script)
    ensures var m := if bc.min <= bc.max then bc.min else bc.max;
            && |ElapsedAt(bc, script, |script|)| * m <= bc.timeout
            && |ElapsedAt(bc, script, |script|)| <= bc.timeout / m
  {
    var m := if bc.min <= bc.max then bc.min else bc.max;
    ElapsedTime(bc, script, |script|, m);
    ElapsedCounts(bc, script, |script|);
    DivideBound(Elapsed(bc, script, |script|), m, bc.timeout);
  }

  lemma DivideBound(e: nat, m: int, t: int)
    requires m > 0 && e * m <= t
    ensures e <= t / m
  {
    var q := t / m;
    assert t < (q + 1) * m;
    if e >= q + 1 {
      Multiply(q + 1, e, m);
    }
  }

  lemma Multiply(a: int, b: int, m: int)
    requires a <= b && m > 0
    ensures a * m <= b * m
  {
  }
}
