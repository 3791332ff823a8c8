/** The compare-exchange loop of EventRecorder::trigger run by any number of threads,
    one atomic access per step. */
module TriggerRace {
  import opened Queues

  /** Where a thread is in the loop: before the first load, testing a value it saw, or done. */
  datatype Phase = Before | Testing(seen: nat) | Done

  /** `targets[i]` is pts + tail of thread i's trigger. */
  datatype State = State(value: nat, targets: seq<nat>, phases: seq<Phase>)

  /** Steps of thread i. A weak exchange may fail even when the value is the expected one. */
  datatype Step = Load(i: nat) | Leave(i: nat) | Swap(i: nat) | Retry(i: nat)

  predicate Wf(s: State) {
    |s.phases| == |s.targets|
  }

  predicate Enabled(s: State, e: Step)
    requires Wf(s)
  {
    && e.i < |s.phases|
    && match e
       case Load(i) => s.phases[i].Before?
       case Leave(i) => s.phases[i].Testing? && s.phases[i].seen >= s.targets[i]
       case Swap(i) => s.phases[i].Testing? && s.phases[i].seen < s.targets[i] && s.value == s.phases[i].seen
       case Retry(i) => s.phases[i].Testing? && s.phases[i].seen < s.targets[i]
  }

  function Next(s: State, e: Step): State
    requires Wf(s) && Enabled(s, e)
  {
    match e
    case Load(i) => s.(phases := s.phases[i := Testing(s.value)])
    case Leave(i) => s.(phases := s.phases[i := Done])
    case Swap(i) => s.(value := s.targets[i], phases := s.phases[i := Done])
    case Retry(i) => s.(phases := s.phases[i := Testing(s.value)])
  }

  /** Steps that are not enabled do not happen. */
  function Run(s: State, steps: seq<Step>): (r: State)
    requires Wf(s)
    ensures Wf(r) && r.targets == s.targets
    decreases |steps|
  {
    if steps == [] then s
    else Run(if Enabled(s, steps[0]) then Next(s, steps[0]) else s, steps[1..])
  }

  function Start(initial: nat, targets: seq<nat>): State {
    State(initial, targets, seq(|targets|, i => Before))
  }

  ghost predicate Inv(initial: nat, s: State) {
    && Wf(s)
    && initial <= s.value
    && (s.value == initial || s.value in s.targets)
    && (forall i :: 0 <= i < |s.phases| ==> s.phases[i].Testing? ==> s.phases[i].seen <= s.value)
    && (forall i :: 0 <= i < |s.phases| ==> s.phases[i].Done? ==> s.targets[i] <= s.value)
  }

  /** Every step refines one atomic maximum: the step that ends thread i's call leaves the
      larger of the value and its target, and every other step leaves the value alone. */
  lemma StepIsAtomicMax(initial: nat, s: State, e: Step)
    requires Inv(initial, s) && Enabled(s, e)
    ensures var t := Next(s, e);
            && Inv(initial, t)
            && t.value == (if t.phases[e.i].Done? then Max(s.value, s.targets[e.i]) else s.value)
  {
  }

  lemma {:induction false} RunKeepsInv(initial: nat, s: State, steps: seq<Step>)
    requires Inv(initial, s)
    ensures Inv(initial, Run(s, steps)) && s.value <= Run(s, steps).value
    decreases |steps|
  {
    if steps != [] {
      if Enabled(s, steps[0]) {
        StepIsAtomicMax(initial, s, steps[0]);
        RunKeepsInv(initial, Next(s, steps[0]), steps[1..]);
      } else {
        RunKeepsInv(initial, s, steps[1..]);
      }
    }
  }

  function Highest(initial: nat, targets: seq<nat>): (m: nat)
    ensures initial <= m && forall i :: 0 <= i < |targets| ==> targets[i] <= m
    ensures m == initial || m in targets
    decreases |targets|
  {
    if targets == [] then initial
    else Max(targets[0], Highest(initial, targets[1..]))
  }

  lemma {:induction false} RunConcat(s: State, a: seq<Step>, b: seq<Step>)
    requires Wf(s)
    ensures Run(s, a + b) == Run(Run(s, a), b)
    decreases |a|
  {
    if a == [] {
      assert a + b == b;
    } else {
      assert (a + b)[1..] == a[1..] + b;
      RunConcat(if Enabled(s, a[0]) then Next(s, a[0]) else s, a[1..], b);
    }
  }

  /** Whatever the interleaving, and wherever it is cut: trigger_until_ never decreases, and
      once all calls have returned it is the largest of its first value and all the targets. */
  lemma TriggersTakeMaximum(initial: nat, targets: seq<nat>, a: seq<Step>, b: seq<Step>)
    ensures
      var s, t := Run(Start(initial, targets), a), Run(Start(initial, targets), a + b);
      && initial <= s.value <= t.value <= Highest(initial, targets)
      && ((forall i :: 0 <= i < |targets| ==> t.phases[i].Done?) ==> t.value == Highest(initial, targets))
  {
    RunConcat(Start(initial, targets), a, b);
    RunKeepsInv(initial, Start(initial, targets), a);
    RunKeepsInv(initial, Run(Start(initial, targets), a), b);
    var t := Run(Start(initial, targets), a + b);
    var m := Highest(initial, targets);
    if (forall i :: 0 <= i < |targets| ==> t.phases[i].Done?) && m != initial {
      var k :| 0 <= k < |targets| && targets[k] == m;
      assert t.phases[k].Done?;
    }
  }
}
