/** What start and stop do to inference over every run, and what each step of the pipeline's
    threads decides, told without the functions that compute it. */
module PipelineCommands {
  import opened Queues
  import opened Pipeline
  import opened PipelineProofs

  predicate IsSwitch(e: Step) {
    e.ByControl? && e.k.Switch?
  }

  ghost predicate NoSwitch(steps: seq<Step>, from: nat) {
    forall m :: from <= m < |steps| ==> !IsSwitch(steps[m])
  }

  /** Inference has not switched itself off at place `from` of the log or later. */
  ghost predicate NoSelfDisable(log: seq<Note>, from: nat) {
    forall m :: from <= m < |log| ==> !(log[m].Bump? && log[m].selfDisable)
  }

  function Performed(c: Config, s: State, e: Step): State
    requires s.queue.Wf()
  {
    if Enabled(s, e) then Next(c, s, e) else s
  }

  lemma RunTakes(c: Config, steps: seq<Step>, e: Step)
    requires ConfigOk(c)
    ensures Run(c, steps + [e]) == Performed(c, Run(c, steps), e)
  {
    assert (steps + [e])[..|steps|] == steps;
  }

  lemma LastStep(c: Config, steps: seq<Step>)
    requires ConfigOk(c) && steps != []
    ensures Run(c, steps) == Performed(c, Run(c, steps[..|steps| - 1]), steps[|steps| - 1])
  {
  }

  /** A step other than a command leaves the flag alone, unless it is the self-disable, which
      it then notes. */
  lemma StepKeepsFlag(c: Config, s: State, e: Step)
    requires s.queue.Wf() && !IsSwitch(e)
    ensures
      var t := Performed(c, s, e);
      s.past.log <= t.past.log && (t.enabled <==> s.enabled && NoSelfDisable(t.past.log, |s.past.log|))
  {
    if Enabled(s, e) {
      StepGrows(c, s, e);
      NotedAsItIs(c, s, e);
    }
  }

  ghost predicate FlagNoted(s: State, t: State) {
    if |t.past.log| > |s.past.log| && t.past.log[|s.past.log|].Bump? && t.past.log[|s.past.log|].selfDisable
    then !t.enabled else t.enabled == s.enabled
  }

  lemma NotedAsItIs(c: Config, s: State, e: Step)
    requires Enabled(s, e) && s.queue.Wf() && !IsSwitch(e)
    ensures FlagNoted(s, Next(c, s, e))
  {
    match e
    case ByCapture(k) => CaptureNotes(s, k);
    case ByInference(i) => InferenceNotes(c, s, i);
    case ByControl(k) => ControlNotes(s, k);
  }

  lemma CaptureNotes(s: State, k: CaptureStep)
    requires CaptureCan(s, k) && s.queue.Wf()
    ensures FlagNoted(s, CaptureNext(s, k))
  {
  }

  lemma InferenceNotes(c: Config, s: State, i: InferenceStep)
    requires InferenceCan(s, i)
    ensures FlagNoted(s, InferenceNext(c, s, i))
  {
  }

  lemma ControlNotes(s: State, k: ControlStep)
    requires ControlCan(s, k) && !k.Switch?
    ensures FlagNoted(s, ControlNext(s, k))
  {
  }

  /** Over every run, inference is on exactly if the last command said so and it has not
      switched itself off since. */
  lemma {:induction false} FlagFollowsCommands(c: Config, steps: seq<Step>, k: nat)
    requires ConfigOk(c) && k < |steps| && IsSwitch(steps[k]) && NoSwitch(steps, k + 1)
    ensures |Run(c, steps[..k + 1]).past.log| <= |Run(c, steps).past.log|
    ensures Run(c, steps).enabled <==>
      steps[k].k.on && NoSelfDisable(Run(c, steps).past.log, |Run(c, steps[..k + 1]).past.log|)
    decreases |steps|
  {
    LastStep(c, steps);
    var less := steps[..|steps| - 1];
    if k == |less| {
      assert steps[..k + 1] == steps;
      SwitchSets(c, Run(c, less), steps[k].k.on);
    } else {
      assert less[..k + 1] == steps[..k + 1];
      FlagFollowsCommands(c, less, k);
      FlagGoesOn(c, Run(c, less), steps[|less|], Run(c, steps), steps[k].k.on, |Run(c, steps[..k + 1]).past.log|);
    }
  }

  lemma SwitchSets(c: Config, s: State, on: bool)
    requires s.queue.Wf()
    ensures Performed(c, s, ByControl(Switch(on))).enabled == on
  {
  }

  /** The flag since place n of the log, one step further. */
  lemma FlagGoesOn(c: Config, r: State, e: Step, t: State, on: bool, n: nat)
    requires r.queue.Wf() && !IsSwitch(e) && t == Performed(c, r, e) && n <= |r.past.log|
    requires r.enabled <==> on && NoSelfDisable(r.past.log, n)
    ensures n <= |t.past.log| && (t.enabled <==> on && NoSelfDisable(t.past.log, n))
  {
    StepKeepsFlag(c, r, e);
    JoinsSelfDisable(r.past.log, t.past.log, n);
  }

  lemma JoinsSelfDisable(log: seq<Note>, more: seq<Note>, n: nat)
    requires log <= more && n <= |log|
    ensures NoSelfDisable(more, n) <==> NoSelfDisable(log, n) && NoSelfDisable(more, |log|)
  {
    if NoSelfDisable(more, n) {
      forall m | n <= m < |log| ensures !(log[m].Bump? && log[m].selfDisable) {
        assert log[m] == more[m];
      }
    }
    if NoSelfDisable(log, n) && NoSelfDisable(more, |log|) {
      forall m | n <= m < |more| ensures !(more[m].Bump? && more[m].selfDisable) {
        if m < |log| { assert log[m] == more[m]; }
      }
    }
  }

  /** Before any command it is on unless it has switched itself off. */
  lemma {:induction false} FlagBeforeCommands(c: Config, steps: seq<Step>)
    requires ConfigOk(c) && NoSwitch(steps, 0)
    ensures Run(c, steps).enabled <==> NoSelfDisable(Run(c, steps).past.log, 0)
    decreases |steps|
  {
    if steps != [] {
      LastStep(c, steps);
      FlagBeforeCommands(c, steps[..|steps| - 1]);
      FlagGoesOn(c, Run(c, steps[..|steps| - 1]), steps[|steps| - 1], Run(c, steps), true, 0);
    }
  }

  /** From s to t nothing was published, no preview was sent, and inference is off. */
  ghost predicate Quiet(s: State, t: State) {
    && !t.enabled && s.past.log <= t.past.log && t.past.previews == s.past.previews
    && forall m :: |s.past.log| <= m < |t.past.log| ==> !t.past.log[m].Publication?
  }

  /** With inference off, a step that does not start it publishes nothing and sends no preview. */
  lemma OffIsQuiet(c: Config, s: State, e: Step)
    requires s.queue.Wf() && !s.enabled && e != ByControl(Switch(true))
    ensures Quiet(s, Performed(c, s, e))
  {
    if Enabled(s, e) {
      StepGrows(c, s, e);
      StaysOff(c, s, e);
    }
  }

  ghost predicate Silent(s: State, t: State) {
    && !t.enabled && t.past.previews == s.past.previews
    && (|t.past.log| > |s.past.log| ==> !t.past.log[|s.past.log|].Publication?)
  }

  lemma StaysOff(c: Config, s: State, e: Step)
    requires Enabled(s, e) && s.queue.Wf() && !s.enabled && e != ByControl(Switch(true))
    ensures Silent(s, Next(c, s, e))
  {
    match e
    case ByCapture(k) => CaptureSilent(s, k);
    case ByInference(i) => InferenceSilent(c, s, i);
    case ByControl(k) => ControlSilent(s, k);
  }

  lemma CaptureSilent(s: State, k: CaptureStep)
    requires CaptureCan(s, k) && s.queue.Wf() && !s.enabled
    ensures Silent(s, CaptureNext(s, k))
  {
  }

  lemma InferenceSilent(c: Config, s: State, i: InferenceStep)
    requires InferenceCan(s, i) && !s.enabled
    ensures Silent(s, InferenceNext(c, s, i))
  {
  }

  lemma ControlSilent(s: State, k: ControlStep)
    requires ControlCan(s, k) && !s.enabled && k != Switch(true)
    ensures Silent(s, ControlNext(s, k))
  {
  }

  /** Over every run: between a stop and the next start nothing is published, and so nothing
      triggers, and no preview is sent. */
  lemma {:induction false} StopSilences(c: Config, steps: seq<Step>, k: nat)
    requires ConfigOk(c) && k < |steps| && steps[k] == ByControl(Switch(false))
    requires forall m :: k < m < |steps| ==> steps[m] != ByControl(Switch(true))
    ensures Quiet(Run(c, steps[..k + 1]), Run(c, steps))
    decreases |steps|
  {
    LastStep(c, steps);
    var less := steps[..|steps| - 1];
    if k == |less| {
      assert steps[..k + 1] == steps;
      SwitchSets(c, Run(c, less), false);
    } else {
      assert less[..k + 1] == steps[..k + 1];
      StopSilences(c, less, k);
      QuietGoesOn(c, Run(c, steps[..k + 1]), Run(c, less), steps[|less|], Run(c, steps));
    }
  }

  lemma QuietGoesOn(c: Config, s: State, r: State, e: Step, t: State)
    requires Quiet(s, r) && r.queue.Wf() && e != ByControl(Switch(true)) && t == Performed(c, r, e)
    ensures Quiet(s, t)
  {
    OffIsQuiet(c, r, e);
    QuietTwice(s, r, t);
  }

  lemma QuietTwice(s: State, r: State, t: State)
    requires Quiet(s, r) && Quiet(r, t)
    ensures Quiet(s, t)
  {
    forall m | |s.past.log| <= m < |t.past.log| ensures !t.past.log[m].Publication? {
      if m < |r.past.log| { assert t.past.log[m] == r.past.log[m]; }
    }
  }

  // ----- what each step decides -----

  /** The generation ends: the epoch rises by one and the published result is gone. */
  ghost predicate NewGeneration(s: State, t: State, latest: Option<Frame>) {
    t.epoch == s.epoch + 1 && t.view == View(latest, Nothing, 0, None)
  }

  ghost predicate SameGeneration(s: State, t: State) {
    t.epoch == s.epoch && t.enabled == s.enabled && t.running == s.running
  }

  /** A frame enters the queue: refused once it is closed; the oldest makes room when full. */
  ghost predicate Enters(q: Queue<Frame>, f: Frame, r: Queue<Frame>) {
    if q.closed then r.items == q.items
    else if |q.items| < q.capacity then r.items == q.items + [f]
    else q.items != [] && r.items == q.items[1..] + [f]
  }

  /** captureLoop: a restart or the fifth failed copy in a row ends the generation; a frame
      carries the epoch of its tag and the next number; it is offered when inference is on. */
  ghost predicate CaptureDecides(s: State, e: CaptureStep, t: State)
    requires CaptureCan(s, e) && s.queue.Wf()
  {
    match e
    case Restart =>
      && NewGeneration(s, t, None) && t.enabled == s.enabled && !t.restartAsked
      && t.camera == Camera(CaptureClears, s.camera.sequence, 0) && t.queue == s.queue
    case TagFrame =>
      && SameGeneration(s, t) && t.view == s.view && t.queue == s.queue
      && t.camera.phase.Tagged? && t.camera.phase.generation == s.epoch && t.camera.failures == s.camera.failures
    case CopyFails =>
      if s.camera.failures + 1 >= 5
      then NewGeneration(s, t, None) && t.enabled == s.enabled && t.camera.phase.CaptureClears? && t.camera.failures == 0
      else SameGeneration(s, t) && t.view == s.view && t.camera.phase.Idle? && t.camera.failures == s.camera.failures + 1
    case StoreFrame =>
      && SameGeneration(s, t) && t.camera.phase.Stored? && t.camera.failures == 0
      && t.camera.sequence == s.camera.sequence + 1
      && t.camera.phase.frame.sequence == s.camera.sequence + 1
      && t.camera.phase.frame.generation == s.camera.phase.generation
      && t.view == s.view.(latest := Some(t.camera.phase.frame))
    case TestEnabled =>
      && SameGeneration(s, t) && t.view == s.view && t.queue == s.queue
      && t.camera.phase == if s.enabled then Offering(s.camera.phase.frame) else Idle
    case OfferFrame =>
      SameGeneration(s, t) && t.view == s.view && t.camera.phase.Idle? && Enters(s.queue, s.camera.phase.frame, t.queue)
    case ClearQueue =>
      SameGeneration(s, t) && t.view == s.view && t.camera.phase.Idle? && t.queue.items == []
  }

  /** The frame in hand comes to nothing: the count of confirmations begins anew. */
  ghost predicate Comes0(s: State, t: State) {
    t.view == s.view && t.worker.confirmed == 0
  }

  /** inferenceLoop: the newest frame is taken and the others are dropped; it goes on only
      while inference is on and the frame is of the current generation; its result is
      published exactly if, moreover, the pipeline runs and the result is not late; the third
      error in a row switches inference off, unless the generation has changed. */
  ghost predicate InferenceDecides(s: State, e: InferenceStep, t: State)
    requires InferenceCan(s, e)
  {
    match e
    case PopFrame =>
      var f := s.queue.items[|s.queue.items| - 1];
      && SameGeneration(s, t) && t.view == s.view && t.queue.items == [] && t.worker.phase == Popped(f)
      && t.worker.confirmed == (if s.worker.generation == Some(f.generation) then s.worker.confirmed else 0)
    case AdmitFrame =>
      && SameGeneration(s, t)
      && (if s.enabled && s.worker.phase.frame.generation == s.epoch
          then t.view == s.view && t.worker.phase == Admitted(s.worker.phase.frame) && t.worker.confirmed == s.worker.confirmed
          else Comes0(s, t) && t.worker.phase.Waiting?)
    case ExpireFrame => SameGeneration(s, t) && Comes0(s, t) && t.worker.phase.Waiting?
    case Infer(person) =>
      && SameGeneration(s, t) && t.view == s.view && t.worker.errors == 0
      && t.worker.phase == Judged(s.worker.phase.frame, person)
    case Throw =>
      && SameGeneration(s, t) && Comes0(s, t) && t.worker.errors == s.worker.errors + 1
      && t.worker.phase == if s.worker.errors + 1 >= 3 then Disabling(s.worker.phase.frame) else Waiting
    case PublishResult(late) =>
      var f := s.worker.phase.frame;
      && SameGeneration(s, t) && t.worker.phase.Waiting?
      && (if s.running && s.enabled && f.generation == s.epoch && !late
          then t.view == View(s.view.latest, Of(f.sequence), f.sequence, Some(f)) && |t.past.log| == |s.past.log| + 1
               && t.past.log[|s.past.log|].Publication?
          else Comes0(s, t) && t.past.log == s.past.log)
    case DisableSelf =>
      && t.view == s.view && t.running == s.running && t.worker.phase.InferenceClears?
      && (if s.worker.phase.frame.generation == s.epoch
          then !t.enabled && t.epoch == s.epoch + 1
          else t.enabled == s.enabled && t.epoch == s.epoch)
    case ClearAfterErrors =>
      SameGeneration(s, t) && t.view == s.view && t.queue.items == [] && t.worker.phase.Waiting? && t.worker.errors == 0
  }

  /** Commands, the snapshot thread and shutdown. */
  ghost predicate ControlDecides(s: State, e: ControlStep, t: State)
    requires ControlCan(s, e)
  {
    match e
    case Switch(on) =>
      NewGeneration(s, t, s.view.latest) && t.enabled == on && t.running == s.running && t.queue.items == []
    case AskRestart => SameGeneration(s, t) && t.view == s.view && t.restartAsked
    case TakePreview =>
      SameGeneration(s, t) && t.view == s.view && t.jobs == s.jobs + [Job(s.view.frame.value, s.view.detections)]
    case SendPreview =>
      && SameGeneration(s, t) && t.view == s.view && t.jobs == s.jobs[1..]
      && |t.past.previews| == |s.past.previews| + (if s.enabled && s.jobs[0].frame.generation == s.epoch then 1 else 0)
      && (|t.past.previews| > |s.past.previews| ==> t.past.previews[|s.past.previews|].job == s.jobs[0])
    case DropPreview =>
      SameGeneration(s, t) && t.view == s.view && t.jobs == s.jobs[1..] && t.past.previews == s.past.previews
    case StopRunning => t.enabled == s.enabled && t.epoch == s.epoch && !t.running && t.view == s.view
    case CloseQueue => SameGeneration(s, t) && t.view == s.view && t.queue.closed && t.queue.items == []
  }

  lemma CaptureStepsDecide(s: State, e: CaptureStep)
    requires CaptureCan(s, e) && s.queue.Wf()
    ensures CaptureDecides(s, e, CaptureNext(s, e))
  {
  }

  lemma InferenceStepsDecide(c: Config, s: State, e: InferenceStep)
    requires InferenceCan(s, e)
    ensures InferenceDecides(s, e, InferenceNext(c, s, e))
  {
  }

  lemma ControlStepsDecide(s: State, e: ControlStep)
    requires ControlCan(s, e)
    ensures ControlDecides(s, e, ControlNext(s, e))
  {
  }

  /** Over every run, every step that happens decides as told above. */
  lemma StepsDecide(c: Config, steps: seq<Step>, e: Step)
    requires ConfigOk(c) && Enabled(Run(c, steps), e)
    ensures
      var s, t := Run(c, steps), Run(c, steps + [e]);
      match e
      case ByCapture(k) => CaptureDecides(s, k, t)
      case ByInference(i) => InferenceDecides(s, i, t)
      case ByControl(k) => ControlDecides(s, k, t)
  {
    RunTakes(c, steps, e);
    match e
    case ByCapture(k) => CaptureStepsDecide(Run(c, steps), k);
    case ByInference(i) => InferenceStepsDecide(c, Run(c, steps), i);
    case ByControl(k) => ControlStepsDecide(Run(c, steps), k);
  }
}
