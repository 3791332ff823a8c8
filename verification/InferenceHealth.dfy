/** Slow-inference hysteresis of app/InferenceHealth.h. */
module InferenceHealth {

  /** What the worker reports: a completed job with its service time, or a failed one. */
  datatype Report = End(ms: real) | Fail

  predicate IsSlow(r: Report, slowMs: int) {
    r.End? && r.ms >= slowMs as real
  }

  predicate IsFast(r: Report, slowMs: int) {
    r.End? && r.ms < slowMs as real && r.ms < slowMs as real * 0.75
  }

  // ----- the definition: everything is a function of the history of reports -----

  /** How many of the latest reports were slow without interruption. */
  function SlowRun(h: seq<Report>, slowMs: int): (n: nat)
    ensures n <= |h|
  {
    if h != [] && IsSlow(h[|h| - 1], slowMs) then SlowRun(h[..|h| - 1], slowMs) + 1 else 0
  }

  function FastRun(h: seq<Report>, slowMs: int): (n: nat)
    ensures n <= |h|
  {
    if h != [] && IsFast(h[|h| - 1], slowMs) then FastRun(h[..|h| - 1], slowMs) + 1 else 0
  }

  /** Three slow jobs in a row happened, and not ten fast ones in a row since. */
  ghost predicate DegradedSince(h: seq<Report>, slowMs: int, i: nat) {
    && i <= |h|
    && SlowRun(h[..i], slowMs) >= 3
    && forall j :: i < j <= |h| ==> FastRun(h[..j], slowMs) < 10
  }

  ghost predicate Degraded(h: seq<Report>, slowMs: int) {
    exists i: nat :: DegradedSince(h, slowMs, i)
  }

  lemma DegradedStep(h: seq<Report>, r: Report, slowMs: int)
    ensures Degraded(h + [r], slowMs) <==>
              SlowRun(h + [r], slowMs) >= 3 || (Degraded(h, slowMs) && FastRun(h + [r], slowMs) < 10)
  {
    var g := h + [r];
    assert g[..|g|] == g;
    if SlowRun(g, slowMs) >= 3 {
      assert DegradedSince(g, slowMs, |g|);
    } else {
      if Degraded(g, slowMs) {
        var i: nat :| DegradedSince(g, slowMs, i);
        assert i <= |h|;
        assert g[..i] == h[..i];
        forall j | i < j <= |h| ensures FastRun(h[..j], slowMs) < 10 { assert h[..j] == g[..j]; }
        assert DegradedSince(h, slowMs, i);
      }
      if Degraded(h, slowMs) && FastRun(g, slowMs) < 10 {
        var i: nat :| DegradedSince(h, slowMs, i);
        assert g[..i] == h[..i];
        forall j | i < j <= |g| ensures FastRun(g[..j], slowMs) < 10 {
          if j <= |h| { assert h[..j] == g[..j]; }
        }
        assert DegradedSince(g, slowMs, i);
      }
    }
  }

  // ----- the counters the object keeps -----

  /** degraded_, slow_ and fast_; the other fields only feed the status report. */
  datatype State = State(degraded: bool, slow: nat, fast: nat)

  function Next(s: State, r: Report, slowMs: int): State {
    if r.Fail? then s.(slow := 0, fast := 0)
    else if r.ms >= slowMs as real then State(s.degraded || s.slow + 1 >= 3, s.slow + 1, 0)
    else if r.ms < slowMs as real * 0.75 then State(s.degraded && s.fast + 1 < 10, 0, s.fast + 1)
    else s.(slow := 0, fast := 0)
  }

  function Run(h: seq<Report>, slowMs: int): State {
    if h == [] then State(false, 0, 0) else Next(Run(h[..|h| - 1], slowMs), h[|h| - 1], slowMs)
  }

  /** The counters implement the definition on every history. */
  lemma {:induction false} CountersMatchHistory(h: seq<Report>, slowMs: int)
    ensures
      var s := Run(h, slowMs);
      && s.slow == SlowRun(h, slowMs)
      && s.fast == FastRun(h, slowMs)
      && (s.degraded <==> Degraded(h, slowMs))
      && (s.degraded ==> s.fast < 10)
      && (!s.degraded ==> s.slow < 3)
  {
    if h == [] {
      assert forall i: nat :: !DegradedSince(h, slowMs, i);
    } else {
      var less := h[..|h| - 1];
      assert h == less + [h[|h| - 1]];
      CountersMatchHistory(less, slowMs);
      DegradedStep(less, h[|h| - 1], slowMs);
    }
  }

  // ----- when the flag turns -----

  /** The last n reports are all completed jobs with times in the range. */
  ghost predicate LastSlow(h: seq<Report>, slowMs: int, n: nat) {
    n <= |h| && forall i :: |h| - n <= i < |h| ==> h[i].End? && h[i].ms >= slowMs as real
  }

  ghost predicate LastFast(h: seq<Report>, slowMs: int, n: nat) {
    n <= |h| && forall i :: |h| - n <= i < |h| ==>
      h[i].End? && h[i].ms < slowMs as real && 4.0 * h[i].ms < 3.0 * slowMs as real
  }

  lemma {:induction false} SlowRunCounts(h: seq<Report>, slowMs: int, n: nat)
    ensures SlowRun(h, slowMs) >= n <==> LastSlow(h, slowMs, n)
  {
    if h != [] && n > 0 {
      var less := h[..|h| - 1];
      SlowRunCounts(less, slowMs, n - 1);
      if IsSlow(h[|h| - 1], slowMs) && LastSlow(less, slowMs, n - 1) {
        assert forall i :: |h| - n <= i < |less| ==> h[i] == less[i];
      }
    }
  }

  lemma {:induction false} FastRunCounts(h: seq<Report>, slowMs: int, n: nat)
    ensures FastRun(h, slowMs) >= n <==> LastFast(h, slowMs, n)
  {
    if h != [] && n > 0 {
      var less := h[..|h| - 1];
      FastRunCounts(less, slowMs, n - 1);
      if IsFast(h[|h| - 1], slowMs) && LastFast(less, slowMs, n - 1) {
        assert forall i :: |h| - n <= i < |less| ==> h[i] == less[i];
      }
    }
  }

  /** After every history, one more report turns the flag on exactly when the last three were
      slow, and off exactly when the last ten took less than three quarters of the limit. */
  lemma FlagTurnsExactly(h: seq<Report>, r: Report, slowMs: int)
    ensures
      var s, t := Run(h, slowMs), Run(h + [r], slowMs);
      && (!s.degraded ==> (t.degraded <==> LastSlow(h + [r], slowMs, 3)))
      && (s.degraded ==> (!t.degraded <==> LastFast(h + [r], slowMs, 10)))
  {
    var g := h + [r];
    assert g[..|h|] == h;
    CountersMatchHistory(h, slowMs);
    CountersMatchHistory(g, slowMs);
    SlowRunCounts(g, slowMs, 3);
    FastRunCounts(g, slowMs, 10);
  }

  // ----- how often it can flap -----

  function Completions(h: seq<Report>): nat {
    if h == [] then 0 else Completions(h[..|h| - 1]) + if h[|h| - 1].End? then 1 else 0
  }

  /** How often the flag went from `was` to its opposite. */
  function Flips(h: seq<Report>, slowMs: int, was: bool): nat {
    if h == [] then 0
    else
      var less := h[..|h| - 1];
      Flips(less, slowMs, was)
      + if Run(less, slowMs).degraded == was && Run(h, slowMs).degraded != was then 1 else 0
  }

  lemma {:induction false} FlipsCostCompletions(h: seq<Report>, slowMs: int)
    ensures
      var s := Run(h, slowMs);
      var downs, ups := Flips(h, slowMs, false), Flips(h, slowMs, true);
      && downs - ups == (if s.degraded then 1 else 0)
      && 3 * downs + 10 * ups + (if s.degraded then s.fast else s.slow) <= Completions(h)
      && (s.degraded ==> s.fast < 10) && (!s.degraded ==> s.slow < 3)
  {
    if h != [] { FlipsCostCompletions(h[..|h| - 1], slowMs); }
  }

  /** Degradations and recoveries alternate, and each full cycle takes at least thirteen
      completed jobs. */
  lemma FlappingIsBounded(h: seq<Report>, slowMs: int)
    ensures
      var downs, ups := Flips(h, slowMs, false), Flips(h, slowMs, true);
      && ups <= downs <= ups + 1
      && 13 * ups <= Completions(h)
      && (downs > 0 ==> 13 * (downs - 1) + 3 <= Completions(h))
  {
    FlipsCostCompletions(h, slowMs);
  }

  /** The bounds are tight: three slow jobs and ten fast ones make one whole cycle. */
  lemma ThirteenCanFlap() returns (h: seq<Report>)
    ensures Completions(h) == 13 && Flips(h, 150, true) == 1
  {
    h := [];
    for i := 0 to 3
      invariant |h| == i && Completions(h) == i && Flips(h, 150, true) == 0
      invariant Run(h, 150) == State(false, i, 0) || (i == 3 && Run(h, 150) == State(true, 3, 0))
    {
      var g := h + [End(200.0)];
      assert g[..|g| - 1] == h;
      h := g;
    }
    for i := 0 to 10
      invariant |h| == 3 + i && Completions(h) == 3 + i
      invariant Run(h, 150) == State(i < 10, if i == 0 then 3 else 0, i)
      invariant Flips(h, 150, true) == if i == 10 then 1 else 0
    {
      var g := h + [End(80.0)];
      assert g[..|g| - 1] == h;
      h := g;
    }
  }

  class InferenceHealth {
    const slowMs: int
    const stallMs: int
    var active: bool
    var degraded: bool
    var slow: nat
    var fast: nat
    var lastMs: real
    var started: int
    ghost var reports: seq<Report>

    ghost function Counters(): State
      reads this
    {
      State(degraded, slow, fast)
    }

    /** The counters are those of the whole history. */
    ghost predicate Valid()
      reads this
    {
      Counters() == Run(reports, slowMs)
    }

    constructor (slowMs: int, stallMs: int)
      ensures Valid() && reports == [] && !active && this.slowMs == slowMs && this.stallMs == stallMs
    {
      this.slowMs, this.stallMs := slowMs, stallMs;
      active, degraded, slow, fast, lastMs, started, reports := false, false, 0, 0, 0.0, 0, [];
    }

    method Begin(now: int)
      requires Valid()
      modifies `active, `started
      ensures Valid() && active && started == now
    {
      active := true;
      started := now;
    }

    method Count(ms: real)
      modifies `slow, `fast, `degraded
      ensures Counters() == Next(old(Counters()), Report.End(ms), slowMs)
    {
      if ms >= slowMs as real {
        fast := 0;
        slow := slow + 1;
        if slow >= 3 { degraded := true; }
      } else if ms < slowMs as real * 0.75 {
        slow := 0;
        fast := fast + 1;
        if fast >= 10 { degraded := false; }
      } else {
        slow := 0;
        fast := 0;
      }
    }

    method End(ms: real)
      requires Valid()
      modifies `active, `lastMs, `slow, `fast, `degraded, `reports
      ensures Valid() && reports == old(reports) + [Report.End(ms)] && !active && lastMs == ms
      ensures degraded <==> Degraded(reports, slowMs)
    {
      active := false;
      lastMs := ms;
      Count(ms);
      assert (reports + [Report.End(ms)])[..|reports|] == reports;
      reports := reports + [Report.End(ms)];
      CountersMatchHistory(reports, slowMs);
    }

    method Fail()
      requires Valid()
      modifies `active, `slow, `fast, `reports
      ensures Valid() && reports == old(reports) + [Report.Fail] && !active
    {
      active := false;
      slow, fast := 0, 0;
      assert (reports + [Report.Fail])[..|reports|] == reports;
      reports := reports + [Report.Fail];
    }
  }
}
