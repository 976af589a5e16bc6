/** The two waiting screens: a timer adds a fixed interval to the elapsed
    time on every tick, the progress bar follows the elapsed share of the
    total duration, and the step shown is found by adding up the step
    durations until the elapsed time fits. The analysis screen and the
    document screen differ only in their durations and interval. */
module Loaders {

  /** Sum of the first `n` durations. */
  function Acc(ds: seq<nat>, n: nat): nat
    requires n <= |ds|
  {
    if n == 0 then 0 else Acc(ds, n - 1) + ds[n - 1]
  }

  /** `steps.reduce((acc, step) => acc + step.duration, 0)` */
  function Total(ds: seq<nat>): nat {
    Acc(ds, |ds|)
  }

  /** Adding more durations never lowers the sum. */
  lemma {:induction false} AccMonotone(ds: seq<nat>, a: nat, b: nat)
    requires a <= b <= |ds|
    ensures Acc(ds, a) <= Acc(ds, b)
    decreases b
  {
    if a < b {
      AccMonotone(ds, a, b - 1);
    }
  }

  /** The time at which step `j` ends: the durations of steps 0 to `j` added up. */
  function EndOf(ds: seq<nat>, j: nat): nat
    requires j < |ds|
  {
    Acc(ds, j + 1)
  }

  /** The least step, from `i` on, whose accumulated time reaches `e`. */
  function FindFrom(ds: seq<nat>, e: nat, i: nat): (r: nat)
    requires i < |ds| && e <= Total(ds)
    ensures i <= r < |ds|
    ensures e <= EndOf(ds, r)
    ensures forall j | i <= j < r :: e > EndOf(ds, j)
    decreases |ds| - i
  {
    if e <= EndOf(ds, i) then i else FindFrom(ds, e, i + 1)
  }

  /** The step shown for an elapsed time within the total: the least index
      whose accumulated duration is at least the elapsed time. */
  function StepAt(ds: seq<nat>, e: nat): (r: nat)
    requires |ds| > 0 && e <= Total(ds)
    ensures r < |ds| && e <= EndOf(ds, r)
    ensures forall j | 0 <= j < r :: e > EndOf(ds, j)
  {
    FindFrom(ds, e, 0)
  }

  /** The least index with that property is the step. */
  lemma LeastIsStep(ds: seq<nat>, e: nat, i: nat)
    requires i < |ds| && e <= Total(ds) && e <= EndOf(ds, i)
    requires forall j | 0 <= j < i :: e > EndOf(ds, j)
    ensures StepAt(ds, e) == i
  {
  }

  /** More elapsed time never shows an earlier step. */
  lemma StepAtMonotone(ds: seq<nat>, e1: nat, e2: nat)
    requires |ds| > 0 && e1 <= e2 <= Total(ds)
    ensures StepAt(ds, e1) <= StepAt(ds, e2)
  {
  }

  /** With a positive last duration, the whole duration shows the last step. */
  lemma StepAtTotalIsLast(ds: seq<nat>)
    requires |ds| > 0 && ds[|ds| - 1] > 0
    ensures StepAt(ds, Total(ds)) == |ds| - 1
  {
    var n := |ds| - 1;
    forall j | 0 <= j < n ensures Total(ds) > EndOf(ds, j) {
      AccMonotone(ds, j + 1, n);
    }
    LeastIsStep(ds, Total(ds), n);
  }

  /** `Math.min((elapsed / totalDuration) * 100, 100)` */
  function ProgressAt(e: nat, total: nat): (p: real)
    requires total > 0
    ensures 0.0 <= p <= 100.0
    ensures e >= total ==> p == 100.0
    ensures e < total ==> p < 100.0 && p * (total as real) == (e as real) * 100.0
  {
    var x := (e as real / total as real) * 100.0;
    if x < 100.0 then x else 100.0
  }

  /** Between two multiples of the interval there is no third one. */
  lemma MultiplesGap(a: nat, t: nat, k: nat)
    requires k > 0 && a % k == 0 && t % k == 0 && a <= t < a + k
    ensures a == t
  {
    var p, q := a / k, t / k;
    assert a == p * k && t == q * k;
    assert t - a == (q - p) * k;
    NonZeroMultiple(q - p, k);
  }

  /** Adding the interval to a multiple of it gives a multiple of it. */
  lemma MultipleStep(e: nat, k: nat)
    requires k > 0 && e % k == 0
    ensures (e + k) % k == 0
  {
    var m, q, r := e / k, (e + k) / k, (e + k) % k;
    assert e == m * k && e + k == q * k + r;
    assert r == (m + 1 - q) * k;
    NonZeroMultiple(m + 1 - q, k);
  }

  /** A non-zero multiple of `k` is at least `k` away from zero. */
  lemma NonZeroMultiple(z: int, k: int)
    requires k >= 0
    ensures z >= 1 ==> z * k >= k
    ensures z <= -1 ==> z * k <= -k
  {
    if z >= 1 {
      assert z * k == k + (z - 1) * k;
    } else if z <= -1 {
      assert z * k == -k + (z + 1) * k;
    }
  }

  const ProcessingDurations: seq<nat> := [3000, 8000, 7000, 6000, 4000, 2000]
  const ProcessingInterval: nat := 100
  const DocumentDurations: seq<nat> := [2000, 3000, 3000, 2000, 2000]
  const DocumentInterval: nat := 50

  /** The schedule of a loader: step durations and timer interval. */
  predicate GoodSchedule(ds: seq<nat>, interval: nat) {
    && |ds| > 0 && interval > 0
    && (forall i | 0 <= i < |ds| :: ds[i] > 0)
    && Total(ds) % interval == 0
  }

  /** The analysis screen runs 30 seconds in six steps, ticking every 100 ms. */
  lemma ProcessingSchedule()
    ensures Total(ProcessingDurations) == 30000 && GoodSchedule(ProcessingDurations, ProcessingInterval)
  {
    assert Acc(ProcessingDurations, 6) == 30000;
  }

  /** The document screen runs 12 seconds in five steps, ticking every 50 ms. */
  lemma DocumentSchedule()
    ensures Total(DocumentDurations) == 12000 && GoodSchedule(DocumentDurations, DocumentInterval)
  {
    assert Acc(DocumentDurations, 5) == 12000;
  }

  /** The step shown at an elapsed time: once the total has run out no
      step fits any more and the last step found stays. */
  function ShownAt(ds: seq<nat>, e: nat): (r: nat)
    requires |ds| > 0
    ensures r < |ds|
    ensures e <= Total(ds) ==> r == StepAt(ds, e)
  {
    StepAt(ds, if e <= Total(ds) then e else Total(ds))
  }

  /** One tick of a good schedule keeps the elapsed time a multiple of the
      interval, never moves the shown step back, and past the total leaves
      it where it was. */
  lemma {:induction false} TickStep(ds: seq<nat>, k: nat, e: nat)
    requires GoodSchedule(ds, k) && e % k == 0
    ensures (e + k) % k == 0
    ensures ShownAt(ds, e) <= ShownAt(ds, e + k)
    ensures e + k > Total(ds) ==> ShownAt(ds, e + k) == ShownAt(ds, e)
  {
    MultipleStep(e, k);
    var t := Total(ds);
    if e + k <= t {
      StepAtMonotone(ds, e, e + k);
    } else if e <= t {
      MultiplesGap(e, t, k);
    }
  }

  /** The state of one loader: the timer's `elapsed` and the shown step and progress. */
  class Loader {
    const durations: seq<nat>
    const interval: nat
    var elapsed: nat
    var currentStep: nat
    var progress: real

    /** The shown step is the step of the elapsed time, or of the total
        once the elapsed time has run past it; the progress follows the
        elapsed time. */
    ghost predicate Valid()
      reads this
    {
      && GoodSchedule(durations, interval)
      && elapsed % interval == 0
      && currentStep == ShownAt(durations, elapsed)
      && progress == ProgressAt(elapsed, Total(durations))
    }

    constructor (ds: seq<nat>, k: nat)
      requires GoodSchedule(ds, k)
      ensures Valid()
      ensures durations == ds && interval == k && elapsed == 0 && currentStep == 0 && progress == 0.0
    {
      durations, interval := ds, k;
      elapsed, currentStep, progress := 0, 0, 0.0;
      LeastIsStep(ds, 0, 0);
    }

    /** One firing of the timer: `elapsed` grows by the interval, the
        progress is recomputed, and the durations are added up until the
        elapsed time fits; past the total no step fits and the shown step
        stays. The shown step never goes back. */
    method Tick()
      requires Valid()
      modifies this`elapsed, this`currentStep, this`progress
      ensures Valid()
      ensures elapsed == old(elapsed) + interval
      ensures progress == ProgressAt(elapsed, Total(durations))
      ensures elapsed <= Total(durations) ==> currentStep == StepAt(durations, elapsed)
      ensures elapsed > Total(durations) ==> currentStep == old(currentStep)
      ensures currentStep >= old(currentStep)
      ensures currentStep < |durations|
    {
      elapsed := elapsed + interval;
      progress := ProgressAt(elapsed, Total(durations));
      var acc := 0;
      var i := 0;
      while i < |durations|
        invariant 0 <= i <= |durations|
        invariant acc == Acc(durations, i)
        invariant forall j | 0 <= j < i :: elapsed > EndOf(durations, j)
        invariant currentStep == old(currentStep)
      {
        acc := acc + durations[i];
        if elapsed <= acc {
          AccMonotone(durations, i + 1, |durations|);
          LeastIsStep(durations, elapsed, i);
          currentStep := i;
          break;
        }
        i := i + 1;
      }
      TickStep(durations, interval, old(elapsed));
      if i == |durations| {
        assert elapsed > EndOf(durations, i - 1);
      }
    }
  }
}
