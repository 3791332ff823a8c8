/** The pipeline object of app/VisionPipeline.cpp: one method for each section under
    state_mutex_ and each access to the inference queue, and from them one pass of each
    thread's loop, in program order, with steps of the other threads in between. Whatever is
    done to the object, its state is that of a run of module Pipeline. */
module VisionPipelines {
  import opened Queues
  import opened Pipeline
  import opened PipelineProofs

  lemma RunAppend(c: Config, steps: seq<Step>, e: Step)
    requires ConfigOk(c)
    ensures
      var s := Run(c, steps);
      Run(c, steps + [e]) == if Enabled(s, e) then Next(c, s, e) else s
    ensures Legal(c, steps) && Enabled(Run(c, steps), e) ==> Legal(c, steps + [e])
  {
    assert (steps + [e])[..|steps|] == steps;
  }

  // ----- the threads and their program order -----

  datatype Thread = Capturing | Inferring | Sending | Stopping

  predicate By(t: Thread, e: Step) {
    match t
    case Capturing => e.ByCapture?
    case Inferring => e.ByInference?
    case Sending => e == ByControl(SendPreview) || e == ByControl(DropPreview)
    case Stopping => e == ByControl(StopRunning) || e == ByControl(CloseQueue)
  }

  /** The steps of one thread among those of all. */
  function StepsBy(t: Thread, steps: seq<Step>): seq<Step> {
    if steps == [] then []
    else
      var e := steps[|steps| - 1];
      StepsBy(t, steps[..|steps| - 1]) + if By(t, e) then [e] else []
  }

  lemma StepsByAppend(t: Thread, steps: seq<Step>, e: Step)
    ensures StepsBy(t, steps + [e]) == StepsBy(t, steps) + if By(t, e) then [e] else []
  {
    assert (steps + [e])[..|steps|] == steps;
  }

  /** What the device, the pool and the other threads do during one pass of captureLoop. */
  datatype CaptureEnv = CaptureEnv(
    ready: bool, copied: bool, afterRestart: seq<Step>, beforeTag: seq<Step>, duringCopy: seq<Step>,
    afterCopy: seq<Step>, afterStore: seq<Step>, beforeOffer: seq<Step>)

  /** What the clock, the model and the other threads do during one pass of inferenceLoop. */
  datatype InferenceEnv = InferenceEnv(
    expired: bool, fails: bool, person: bool, failsLater: bool, late: bool, afterPop: seq<Step>, beforeInfer: seq<Step>,
    beforePublish: seq<Step>, beforeDisable: seq<Step>, beforeClear: seq<Step>)

  /** The capture thread's steps for one frame, after `failures` failed copies in a row: none
      when the device or the pool is not ready; else tag and copy, and for a good copy store,
      test the flag, and offer when `offered`. */
  function CopySteps(env: CaptureEnv, failures: nat, offered: bool): seq<Step> {
    if !env.ready then []
    else if env.copied then
      [ByCapture(TagFrame), ByCapture(StoreFrame), ByCapture(TestEnabled)] + if offered then [ByCapture(OfferFrame)] else []
    else
      [ByCapture(TagFrame), ByCapture(CopyFails)] + if failures + 1 >= MAX_FAILURES then [ByCapture(ClearQueue)] else []
  }

  /** Its steps in one pass of captureLoop; a restart begins the count of failures anew. */
  function CaptureSteps(env: CaptureEnv, restart: bool, failures: nat, offered: bool): seq<Step> {
    if restart then [ByCapture(Restart), ByCapture(ClearQueue)] + CopySteps(env, 0, offered)
    else CopySteps(env, failures, offered)
  }

  /** The inference thread's steps for an error that follows `errors` errors in a row. */
  function FailureSteps(errors: nat): seq<Step> {
    [ByInference(Throw)]
    + if errors + 1 >= MAX_ERRORS then [ByInference(DisableSelf), ByInference(ClearAfterErrors)] else []
  }

  /** Its steps for a frame it admitted; a result begins the count of errors anew. */
  function ServiceSteps(env: InferenceEnv, errors: nat): seq<Step> {
    if env.expired then [ByInference(ExpireFrame)]
    else if env.fails then FailureSteps(errors)
    else [ByInference(Infer(env.person))] + if env.failsLater then FailureSteps(0) else [ByInference(PublishResult(env.late))]
  }

  /** Its steps in one pass of inferenceLoop. */
  function InferenceSteps(env: InferenceEnv, found: bool, errors: nat, admitted: bool): seq<Step> {
    if !found then []
    else [ByInference(PopFrame), ByInference(AdmitFrame)] + if admitted then ServiceSteps(env, errors) else []
  }

  ghost predicate IsCapturePass(own: seq<Step>, env: CaptureEnv) {
    exists restart, failures, offered :: own == CaptureSteps(env, restart, failures, offered)
  }

  ghost predicate IsInferencePass(own: seq<Step>, env: InferenceEnv) {
    exists found, errors, admitted :: own == InferenceSteps(env, found, errors, admitted)
  }

  function Flat(passes: seq<seq<Step>>): seq<Step> {
    if passes == [] then [] else Flat(passes[..|passes| - 1]) + passes[|passes| - 1]
  }

  /** From history `start` to history `now`, thread t made the steps `own`. */
  ghost predicate Made(t: Thread, start: seq<Step>, now: seq<Step>, own: seq<Step>) {
    start <= now && StepsBy(t, now) == StepsBy(t, start) + own
  }

  lemma MadeOne(t: Thread, start: seq<Step>, now: seq<Step>, own: seq<Step>, e: Step)
    requires Made(t, start, now, own) && By(t, e)
    ensures Made(t, start, now + [e], own + [e])
  {
    StepsByAppend(t, now, e);
    assert StepsBy(t, start) + own + [e] == StepsBy(t, start) + (own + [e]);
  }

  lemma MadeMore(t: Thread, start: seq<Step>, middle: seq<Step>, now: seq<Step>, a: seq<Step>, b: seq<Step>)
    requires Made(t, start, middle, a) && Made(t, middle, now, b)
    ensures Made(t, start, now, a + b)
  {
    assert StepsBy(t, start) + a + b == StepsBy(t, start) + (a + b);
  }

  /** What a step of its own does to the phase and the count of failures of captureLoop. */
  predicate CameraMoves(k: Camera, e: CaptureStep, r: Camera) {
    match e
    case Restart => r.phase.CaptureClears? && r.failures == 0
    case TagFrame => r.phase.Tagged? && r.failures == k.failures
    case CopyFails => if k.failures + 1 >= MAX_FAILURES then r.phase.CaptureClears? else r.phase.Idle?
    case StoreFrame => r.phase.Stored?
    case TestEnabled => r.phase.Offering? || r.phase.Idle?
    case OfferFrame => r.phase.Idle?
    case ClearQueue => r.phase.Idle? && r.failures == k.failures
  }

  /** The same for the phase and the count of errors of inferenceLoop. */
  predicate WorkerMoves(w: Worker, e: InferenceStep, r: Worker) {
    match e
    case PopFrame => r.phase.Popped? && r.errors == w.errors
    case AdmitFrame => (r.phase.Admitted? || r.phase.Waiting?) && r.errors == w.errors
    case ExpireFrame => r.phase.Waiting?
    case Infer(_) => r.phase.Judged? && r.errors == 0
    case Throw => if w.errors + 1 >= MAX_ERRORS then r.phase.Disabling? else r.phase.Waiting?
    case PublishResult(_) => r.phase.Waiting?
    case DisableSelf => r.phase.InferenceClears?
    case ClearAfterErrors => r.phase.Waiting?
  }

  lemma StepMoves(c: Config, s: State, e: Step)
    requires Enabled(s, e) && s.queue.Wf()
    ensures e.ByCapture? ==> CameraMoves(s.camera, e.c, Next(c, s, e).camera)
    ensures e.ByInference? ==> WorkerMoves(s.worker, e.i, Next(c, s, e).worker)
  {
  }

  lemma FlatAppend(passes: seq<seq<Step>>, own: seq<Step>)
    ensures Flat(passes + [own]) == Flat(passes) + own
  {
    assert (passes + [own])[..|passes|] == passes;
  }

  /** Every step of the history could happen when it did. */
  ghost predicate Legal(c: Config, steps: seq<Step>)
    requires ConfigOk(c)
  {
    steps != [] ==>
      var n := |steps| - 1;
      Legal(c, steps[..n]) && Enabled(Run(c, steps[..n]), steps[n])
  }

  class VisionPipeline {
    const c: Config
    const queue: BoundedQueue<Frame>
    var running: bool
    var enabled: bool
    var inferenceEpoch: nat
    var restartCapture: bool
    var latest: Option<Frame>
    var detections: Detections
    var detectionSequence: nat
    var detectionFrame: Option<Frame>
    /** The locals of captureLoop and of inferenceLoop. */
    var camera: Camera
    var worker: Worker
    var jobs: seq<Job>
    /** Not ghost because frames and notes refer to places in it. */
    var past: History
    ghost var history: seq<Step>

    function Abs(): State
      reads this, queue
    {
      State(running, enabled, inferenceEpoch, restartCapture,
            View(latest, detections, detectionSequence, detectionFrame), queue.State(), camera, worker, jobs, past)
    }

    ghost predicate Sound()
      reads this, queue
    {
      queue.Valid()
    }

    /** The object is where its history leads, and every step of it could happen. */
    ghost predicate Valid()
      reads this, queue
    {
      ConfigOk(c) && queue.Valid() && Abs() == Run(c, history) && Legal(c, history)
    }

    constructor (c: Config)
      requires ConfigOk(c)
      ensures Valid() && fresh(queue) && this.c == c && history == []
    {
      this.c := c;
      queue := new BoundedQueue<Frame>(c.capacity);
      running, enabled, inferenceEpoch, restartCapture := true, true, 0, false;
      latest, detections, detectionSequence, detectionFrame := None, Nothing, 0, None;
      camera, worker, jobs, past := Camera(Idle, 0, 0), Worker(Waiting, 0, None, 0), [], History([], [], []);
      history := [];
    }

    method Note(n: Note)
      modifies `past
      ensures past == Noted(old(past), n)
    {
      past := past.(log := past.log + [n]);
    }

    method ClearDetections()
      modifies `detections, `detectionSequence, `detectionFrame
      ensures detections == Nothing && detectionSequence == 0 && detectionFrame == None
    {
      detections := Nothing;
      detectionSequence := 0;
      detectionFrame := None;
    }

    /** The statements shared by every section that starts a new generation. */
    method Invalidate()
      requires Sound()
      modifies `inferenceEpoch, `detections, `detectionSequence, `detectionFrame, `past
      ensures Sound() && Abs() == Invalidated(old(Abs()))
    {
      inferenceEpoch := inferenceEpoch + 1;
      ClearDetections();
      Note(Bump(inferenceEpoch, false));
    }

    // ----- capture thread -----

    /** The section of a restart or of repeated failures, in the capture thread. */
    method GiveUp()
      requires Sound()
      modifies `inferenceEpoch, `latest, `detections, `detectionSequence, `detectionFrame, `past, `camera
      ensures Sound() && Abs() == GivenUp(old(Abs()))
    {
      Invalidate();
      latest := None;
      camera := camera.(phase := CaptureClears, failures := 0);
    }

    method RestartSection()
      requires Sound() && CaptureCan(Abs(), Restart)
      modifies this
      ensures Sound() && Abs() == CaptureNext(old(Abs()), Restart) && history == old(history)
    {
      restartCapture := false;
      GiveUp();
    }

    method TagSection()
      requires Sound() && CaptureCan(Abs(), TagFrame)
      modifies this
      ensures Sound() && Abs() == CaptureNext(old(Abs()), TagFrame) && history == old(history)
    {
      camera := camera.(phase := Tagged(inferenceEpoch, |past.log|));
      Note(Tag(inferenceEpoch));
    }

    method CopyFailed()
      requires Sound() && CaptureCan(Abs(), CopyFails)
      modifies this
      ensures Sound() && Abs() == CaptureNext(old(Abs()), CopyFails) && history == old(history)
    {
      if camera.failures + 1 >= MAX_FAILURES {
        GiveUp();
      } else {
        camera := camera.(phase := Idle, failures := camera.failures + 1);
      }
    }

    method LatestSection()
      requires Sound() && CaptureCan(Abs(), StoreFrame)
      modifies this
      ensures Sound() && Abs() == CaptureNext(old(Abs()), StoreFrame) && history == old(history)
    {
      var frame := Frame(camera.sequence + 1, camera.phase.generation, camera.phase.at);
      camera := Camera(Stored(frame), camera.sequence + 1, 0);
      latest := Some(frame);
    }

    method LoadEnabled()
      requires Sound() && CaptureCan(Abs(), TestEnabled)
      modifies this
      ensures Sound() && Abs() == CaptureNext(old(Abs()), TestEnabled) && history == old(history)
    {
      camera := camera.(phase := if enabled then Offering(camera.phase.frame) else Idle);
    }

    method Offer()
      requires Sound() && CaptureCan(Abs(), OfferFrame)
      modifies this, queue
      ensures Sound() && Abs() == CaptureNext(old(Abs()), OfferFrame) && history == old(history)
    {
      var accepted := queue.PushLatest(camera.phase.frame);
      camera := camera.(phase := Idle);
    }

    method ClearQueueAfterCapture()
      requires Sound() && CaptureCan(Abs(), ClearQueue)
      modifies this, queue
      ensures Sound() && Abs() == CaptureNext(old(Abs()), ClearQueue) && history == old(history)
    {
      queue.Clear();
      camera := camera.(phase := Idle);
    }

    // ----- inference thread -----

    method TakeFrame()
      requires Sound() && InferenceCan(Abs(), PopFrame)
      modifies this, queue
      ensures Sound() && Abs() == InferenceNext(c, old(Abs()), PopFrame) && history == old(history)
    {
      var item := queue.PopLatest();
      var frame := item.value;
      if worker.generation != Some(frame.generation) {
        worker := worker.(confirmed := 0, generation := Some(frame.generation));
      }
      worker := worker.(phase := Popped(frame));
    }

    method Discard()
      requires Sound() && (worker.phase.Popped? || worker.phase.Admitted? || worker.phase.Judged?)
      modifies `worker, `past
      ensures Sound() && Abs() == Discarded(old(Abs()))
    {
      past := past.(pops := past.pops + [Pop(worker.phase.frame, Dropped)]);
      worker := worker.(phase := Waiting, confirmed := 0);
    }

    method AdmitSection()
      requires Sound() && InferenceCan(Abs(), AdmitFrame)
      modifies this
      ensures Sound() && Abs() == InferenceNext(c, old(Abs()), AdmitFrame) && history == old(history)
    {
      if !enabled || worker.phase.frame.generation != inferenceEpoch {
        Discard();
      } else {
        worker := worker.(phase := Admitted(worker.phase.frame));
      }
    }

    method TooOld()
      requires Sound() && InferenceCan(Abs(), ExpireFrame)
      modifies this
      ensures Sound() && Abs() == InferenceNext(c, old(Abs()), ExpireFrame) && history == old(history)
    {
      Discard();
    }

    method InferReturns(person: bool)
      requires Sound() && InferenceCan(Abs(), Infer(person))
      modifies this
      ensures Sound() && Abs() == InferenceNext(c, old(Abs()), Infer(person)) && history == old(history)
    {
      worker := worker.(phase := Judged(worker.phase.frame, person), errors := 0);
    }

    method CountConfirmation(person: bool) returns (triggered: bool)
      modifies `worker
      ensures worker == old(worker).(phase := Waiting, confirmed := Confirm(c, old(worker).confirmed, person))
      ensures triggered <==> worker.confirmed >= c.confirm && c.video
    {
      var n := 0;
      if person {
        n := if worker.confirmed + 1 < c.confirm then worker.confirmed + 1 else c.confirm;
      }
      worker := worker.(phase := Waiting, confirmed := n);
      triggered := n >= c.confirm && c.video;
    }

    method ShowDetections(frame: Frame)
      modifies `detections, `detectionFrame, `detectionSequence
      ensures detections == Of(frame.sequence) && detectionFrame == Some(frame) && detectionSequence == frame.sequence
    {
      detections := Of(frame.sequence);
      detectionFrame := Some(frame);
      detectionSequence := frame.sequence;
    }

    method Accept() returns (triggered: bool)
      requires Sound() && worker.phase.Judged?
      modifies `detections, `detectionFrame, `detectionSequence, `worker, `past
      ensures Sound() && Abs() == Publish(c, old(Abs()), old(worker).phase.frame, old(worker).phase.person)
      ensures triggered <==> worker.confirmed >= c.confirm && c.video
    {
      var frame, person := worker.phase.frame, worker.phase.person;
      ShowDetections(frame);
      triggered := CountConfirmation(person);
      var pops := past.pops + [Pop(frame, Published(person))];
      past := past.(pops := pops, log := past.log + [Publication(inferenceEpoch, |pops|, triggered)]);
    }

    method PublishSection(late: bool) returns (triggered: bool)
      requires Sound() && InferenceCan(Abs(), PublishResult(late))
      modifies this
      ensures Sound() && Abs() == InferenceNext(c, old(Abs()), PublishResult(late)) && history == old(history)
      ensures triggered ==> c.video && worker.confirmed >= c.confirm
    {
      if !running || !enabled || worker.phase.frame.generation != inferenceEpoch || late {
        Discard();
        return false;
      }
      triggered := Accept();
    }

    method InferFails()
      requires Sound() && InferenceCan(Abs(), Throw)
      modifies this
      ensures Sound() && Abs() == InferenceNext(c, old(Abs()), Throw) && history == old(history)
    {
      var frame := worker.phase.frame;
      Discard();
      worker := worker.(errors := worker.errors + 1);
      if worker.errors >= MAX_ERRORS { worker := worker.(phase := Disabling(frame)); }
    }

    method DisableSection()
      requires Sound() && InferenceCan(Abs(), DisableSelf)
      modifies this
      ensures Sound() && Abs() == InferenceNext(c, old(Abs()), DisableSelf) && history == old(history)
    {
      if worker.phase.frame.generation == inferenceEpoch {
        enabled := false;
        inferenceEpoch := inferenceEpoch + 1;
        Note(Bump(inferenceEpoch, true));
      }
      worker := worker.(phase := InferenceClears);
    }

    method ClearQueueAfterErrors()
      requires Sound() && InferenceCan(Abs(), ClearAfterErrors)
      modifies this, queue
      ensures Sound() && Abs() == InferenceNext(c, old(Abs()), ClearAfterErrors) && history == old(history)
    {
      queue.Clear();
      worker := worker.(phase := Waiting, errors := 0);
    }

    // ----- control and snapshot threads -----

    /** start and stop; the queue is cleared inside the section. */
    method SwitchSection(on: bool)
      requires Sound()
      modifies this, queue
      ensures Sound() && Abs() == ControlNext(old(Abs()), Switch(on)) && history == old(history)
      ensures enabled == on && inferenceEpoch == old(inferenceEpoch) + 1 && queue.items == []
    {
      Invalidate();
      enabled := on;
      queue.Clear();
    }

    method RestartCamera()
      requires Sound()
      modifies `restartCapture
      ensures Sound() && Abs() == ControlNext(old(Abs()), AskRestart) && history == old(history)
    {
      restartCapture := true;
    }

    method PreviewSection()
      requires Sound() && ControlCan(Abs(), TakePreview)
      modifies `jobs
      ensures Sound() && Abs() == ControlNext(old(Abs()), TakePreview) && history == old(history)
    {
      jobs := jobs + [Job(detectionFrame.value, detections)];
    }

    method SendSection() returns (sent: bool)
      requires Sound() && ControlCan(Abs(), SendPreview)
      modifies `jobs, `past
      ensures Sound() && Abs() == ControlNext(old(Abs()), SendPreview) && history == old(history)
      ensures sent <==> old(jobs)[0].frame.generation == inferenceEpoch && enabled
    {
      var job := jobs[0];
      jobs := jobs[1..];
      if job.frame.generation != inferenceEpoch || !enabled { return false; }
      past := past.(previews := past.previews + [Preview(job, inferenceEpoch, enabled)]);
      return true;
    }

    method CloseSection()
      requires Sound()
      modifies queue
      ensures Sound() && Abs() == ControlNext(old(Abs()), CloseQueue) && history == old(history)
    {
      queue.Close(true);
    }

    // ----- steps of all threads -----

    method CaptureStep(e: Pipeline.CaptureStep)
      requires Sound() && CaptureCan(Abs(), e)
      modifies this, queue
      ensures Sound() && Abs() == CaptureNext(old(Abs()), e) && history == old(history)
    {
      match e {
        case Restart => RestartSection();
        case TagFrame => TagSection();
        case CopyFails => CopyFailed();
        case StoreFrame => LatestSection();
        case TestEnabled => LoadEnabled();
        case OfferFrame => Offer();
        case ClearQueue => ClearQueueAfterCapture();
      }
    }

    method InferenceStep(e: Pipeline.InferenceStep)
      requires Sound() && InferenceCan(Abs(), e)
      modifies this, queue
      ensures Sound() && Abs() == InferenceNext(c, old(Abs()), e) && history == old(history)
    {
      match e {
        case PopFrame => TakeFrame();
        case AdmitFrame => AdmitSection();
        case ExpireFrame => TooOld();
        case Infer(person) => InferReturns(person);
        case Throw => InferFails();
        case PublishResult(late) => var triggered := PublishSection(late);
        case DisableSelf => DisableSection();
        case ClearAfterErrors => ClearQueueAfterErrors();
      }
    }

    method ControlStep(e: Pipeline.ControlStep)
      requires Sound() && ControlCan(Abs(), e)
      modifies this, queue
      ensures Sound() && Abs() == ControlNext(old(Abs()), e) && history == old(history)
    {
      match e {
        case Switch(on) => SwitchSection(on);
        case AskRestart => RestartCamera();
        case TakePreview => PreviewSection();
        case SendPreview => var sent := SendSection();
        case DropPreview => jobs := jobs[1..];
        case StopRunning => running := false;
        case CloseQueue => CloseSection();
      }
    }

    method Step(e: Pipeline.Step)
      requires Valid() && Enabled(Abs(), e)
      modifies this, queue
      ensures Valid() && history == old(history) + [e] && Abs() == Next(c, old(Abs()), e)
    {
      RunAppend(c, history, e);
      match e {
        case ByCapture(k) => CaptureStep(k);
        case ByInference(i) => InferenceStep(i);
        case ByControl(k) => ControlStep(k);
      }
      history := history + [e];
    }

    /** The other threads get to run: those of `steps` that are theirs and can happen. */
    method Others(t: Thread, steps: seq<Pipeline.Step>)
      requires Valid()
      modifies this, queue
      ensures Valid() && old(history) <= history
      ensures StepsBy(t, history) == StepsBy(t, old(history))
      ensures t.Capturing? ==> camera == old(camera)
      ensures t.Inferring? ==> worker == old(worker)
      ensures t.Sending? ==> old(jobs) <= jobs
    {
      for k := 0 to |steps|
        invariant Valid() && old(history) <= history
        invariant StepsBy(t, history) == StepsBy(t, old(history))
        invariant t.Capturing? ==> camera == old(camera)
        invariant t.Inferring? ==> worker == old(worker)
        invariant t.Sending? ==> old(jobs) <= jobs
      {
        if !By(t, steps[k]) && Enabled(Abs(), steps[k]) {
          StepsByAppend(t, history, steps[k]);
          OthersLeave(c, Abs(), t, steps[k]);
          Step(steps[k]);
        }
      }
    }

    // ----- one pass of each loop -----

    /** A step of the thread's own, then steps of the others. `done` are the thread's own
        steps of this pass, which began with history `start`. */
    method Own(t: Thread, e: Pipeline.Step, after: seq<Pipeline.Step>, ghost done: seq<Pipeline.Step>, ghost start: seq<Pipeline.Step>)
      returns (ghost own: seq<Pipeline.Step>)
      requires Valid() && Enabled(Abs(), e) && By(t, e)
      requires Made(t, start, history, done)
      modifies this, queue
      ensures own == done + [e]
      ensures Valid() && Made(t, start, history, own)
      ensures t.Capturing? ==> CameraMoves(old(camera), e.c, camera)
      ensures t.Inferring? ==> WorkerMoves(old(worker), e.i, worker)
    {
      own := done + [e];
      MadeOne(t, start, history, done, e);
      StepMoves(c, Abs(), e);
      Step(e);
      Others(t, after);
    }

    /** The copy failed: counted, or the device given up. */
    method CopyFailsPass(env: CaptureEnv, ghost done: seq<Pipeline.Step>, ghost start: seq<Pipeline.Step>)
      returns (ghost own: seq<Pipeline.Step>)
      requires Valid() && camera.phase.Tagged?
      requires Made(Capturing, start, history, done)
      modifies this, queue
      ensures Valid() && camera.phase.Idle?
      ensures Made(Capturing, start, history, own)
      ensures own == done + [ByCapture(CopyFails)]
                     + if old(camera.failures) + 1 >= MAX_FAILURES then [ByCapture(ClearQueue)] else []
    {
      own := Own(Capturing, ByCapture(CopyFails), env.afterCopy, done, start);
      if camera.phase.CaptureClears? {
        own := Own(Capturing, ByCapture(ClearQueue), [], own, start);
      }
    }

    /** The copy succeeded: stored, and offered to inference when that is on. */
    method KeepFramePass(env: CaptureEnv, ghost done: seq<Pipeline.Step>, ghost start: seq<Pipeline.Step>)
      returns (ghost own: seq<Pipeline.Step>, offered: bool)
      requires Valid() && camera.phase.Tagged?
      requires Made(Capturing, start, history, done)
      modifies this, queue
      ensures Valid() && camera.phase.Idle?
      ensures Made(Capturing, start, history, own)
      ensures own == done + [ByCapture(StoreFrame)] + [ByCapture(TestEnabled)] + if offered then [ByCapture(OfferFrame)] else []
    {
      own := Own(Capturing, ByCapture(StoreFrame), env.afterStore, done, start);
      own := Own(Capturing, ByCapture(TestEnabled), env.beforeOffer, own, start);
      offered := camera.phase.Offering?;
      if offered {
        own := Own(Capturing, ByCapture(OfferFrame), [], own, start);
      }
    }

    /** From the tag to the end of the loop body of captureLoop. */
    method CopyPass(env: CaptureEnv) returns (ghost own: seq<Pipeline.Step>, offered: bool)
      requires Valid() && camera.phase.Idle?
      modifies this, queue
      ensures Valid() && camera.phase.Idle?
      ensures Made(Capturing, old(history), history, own)
      ensures own == CopySteps(env, old(camera.failures), offered)
    {
      own, offered := [], false;
      if !env.ready { return; }
      own := Own(Capturing, ByCapture(TagFrame), env.duringCopy, own, old(history));
      if env.copied {
        own, offered := KeepFramePass(env, own, old(history));
      } else {
        own := CopyFailsPass(env, own, old(history));
      }
    }

    /** The restart, if one is asked for. */
    method RestartPass(env: CaptureEnv) returns (ghost own: seq<Pipeline.Step>)
      requires Valid() && camera.phase.Idle?
      modifies this, queue
      ensures Valid() && camera.phase.Idle?
      ensures Made(Capturing, old(history), history, own)
      ensures own == if old(restartCapture) then [ByCapture(Restart), ByCapture(ClearQueue)] else []
      ensures camera.failures == if old(restartCapture) then 0 else old(camera.failures)
    {
      own := [];
      if restartCapture {
        own := Own(Capturing, ByCapture(Restart), env.afterRestart, own, old(history));
        own := Own(Capturing, ByCapture(ClearQueue), env.beforeTag, own, old(history));
      }
    }

    /** One pass of the loop of captureLoop: the restart if one is asked for, then the copy.
        The exchange of the restart flag is taken together with the section that follows it;
        a request made in between counts as made just after. */
    method CapturePass(env: CaptureEnv) returns (ghost own: seq<Pipeline.Step>, offered: bool)
      requires Valid() && camera.phase.Idle?
      modifies this, queue
      ensures Valid() && camera.phase.Idle?
      ensures Made(Capturing, old(history), history, own)
      ensures own == CaptureSteps(env, old(restartCapture), old(camera.failures), offered)
    {
      ghost var first := RestartPass(env);
      ghost var middle, rest := history, [];
      rest, offered := CopyPass(env);
      MadeMore(Capturing, old(history), middle, history, first, rest);
      own := first + rest;
    }

    /** captureLoop, for as long as `passes` lasts: it makes the passes one after the other
        until the pipeline stops running. The object stays where every run of the protocol
        leads, so all that module PipelineProofs promises holds of it. */
    method CaptureLoop(passes: seq<CaptureEnv>) returns (ghost owns: seq<seq<Pipeline.Step>>)
      requires Valid() && camera.phase.Idle?
      modifies this, queue
      ensures Valid() && camera.phase.Idle? && Inv(c, Abs())
      ensures Made(Capturing, old(history), history, Flat(owns))
      ensures |owns| <= |passes| && forall i :: 0 <= i < |owns| ==> IsCapturePass(owns[i], passes[i])
      ensures |owns| < |passes| ==> !running
    {
      owns := CapturePasses(passes);
      EveryRunKeepsInv(c, history);
    }

    method CapturePasses(passes: seq<CaptureEnv>) returns (ghost owns: seq<seq<Pipeline.Step>>)
      requires Valid() && camera.phase.Idle?
      modifies this, queue
      ensures Valid() && camera.phase.Idle?
      ensures Made(Capturing, old(history), history, Flat(owns))
      ensures |owns| <= |passes| && forall i :: 0 <= i < |owns| ==> IsCapturePass(owns[i], passes[i])
      ensures |owns| < |passes| ==> !running
    {
      var k := 0;
      owns := [];
      while k < |passes| && running
        invariant Valid() && camera.phase.Idle?
        invariant Made(Capturing, old(history), history, Flat(owns))
        invariant |owns| == k <= |passes| && forall i :: 0 <= i < k ==> IsCapturePass(owns[i], passes[i])
      {
        ghost var middle, own := history, [];
        var offered;
        own, offered := CapturePass(passes[k]);
        MadeMore(Capturing, old(history), middle, history, Flat(owns), own);
        FlatAppend(owns, own);
        owns := owns + [own];
        k := k + 1;
      }
    }

    /** The catch block of inferenceLoop. */
    method FailurePass(env: InferenceEnv, ghost done: seq<Pipeline.Step>, ghost start: seq<Pipeline.Step>)
      returns (ghost own: seq<Pipeline.Step>)
      requires Valid() && (worker.phase.Admitted? || worker.phase.Judged?)
      requires Made(Inferring, start, history, done)
      modifies this, queue
      ensures Valid() && worker.phase.Waiting?
      ensures Made(Inferring, start, history, own)
      ensures own == done + FailureSteps(old(worker.errors))
    {
      own := Own(Inferring, ByInference(Throw), env.beforeDisable, done, start);
      if worker.phase.Disabling? {
        own := Own(Inferring, ByInference(DisableSelf), env.beforeClear, own, start);
        own := Own(Inferring, ByInference(ClearAfterErrors), [], own, start);
      }
    }

    /** The rest of the try block, once inference has returned, and its failures. */
    method ResultPass(env: InferenceEnv, ghost done: seq<Pipeline.Step>, ghost start: seq<Pipeline.Step>)
      returns (ghost own: seq<Pipeline.Step>)
      requires Valid() && worker.phase.Admitted?
      requires Made(Inferring, start, history, done)
      modifies this, queue
      ensures Valid() && worker.phase.Waiting?
      ensures Made(Inferring, start, history, own)
      ensures own == done + ([ByInference(Infer(env.person))]
                             + if env.failsLater then FailureSteps(0) else [ByInference(PublishResult(env.late))])
    {
      own := Own(Inferring, ByInference(Infer(env.person)), env.beforePublish, done, start);
      if env.failsLater {
        own := FailurePass(env, own, start);
      } else {
        own := Own(Inferring, ByInference(PublishResult(env.late)), [], own, start);
      }
    }

    /** The try block of inferenceLoop. */
    method ServicePass(env: InferenceEnv, ghost done: seq<Pipeline.Step>, ghost start: seq<Pipeline.Step>)
      returns (ghost own: seq<Pipeline.Step>)
      requires Valid() && worker.phase.Admitted?
      requires Made(Inferring, start, history, done)
      modifies this, queue
      ensures Valid() && worker.phase.Waiting?
      ensures Made(Inferring, start, history, own)
      ensures own == done + ServiceSteps(env, old(worker.errors))
    {
      if env.expired {
        own := Own(Inferring, ByInference(ExpireFrame), [], done, start);
      } else if env.fails {
        own := FailurePass(env, done, start);
      } else {
        own := ResultPass(env, done, start);
      }
    }

    /** One pass of the loop of inferenceLoop. */
    method InferencePass(env: InferenceEnv) returns (ghost own: seq<Pipeline.Step>, admitted: bool)
      requires Valid() && worker.phase.Waiting?
      modifies this, queue
      ensures Valid() && worker.phase.Waiting?
      ensures Made(Inferring, old(history), history, own)
      ensures own == InferenceSteps(env, old(queue.items) != [], old(worker.errors), admitted)
    {
      own, admitted := [], false;
      if queue.items == [] { return; }
      own := Own(Inferring, ByInference(PopFrame), env.afterPop, own, old(history));
      own := Own(Inferring, ByInference(AdmitFrame), env.beforeInfer, own, old(history));
      admitted := worker.phase.Admitted?;
      if admitted {
        own := ServicePass(env, own, old(history));
      }
    }

    /** inferenceLoop, likewise. */
    method InferenceLoop(passes: seq<InferenceEnv>) returns (ghost owns: seq<seq<Pipeline.Step>>)
      requires Valid() && worker.phase.Waiting?
      modifies this, queue
      ensures Valid() && worker.phase.Waiting? && Inv(c, Abs())
      ensures Made(Inferring, old(history), history, Flat(owns))
      ensures |owns| <= |passes| && forall i :: 0 <= i < |owns| ==> IsInferencePass(owns[i], passes[i])
      ensures |owns| < |passes| ==> !running
    {
      owns := InferencePasses(passes);
      EveryRunKeepsInv(c, history);
    }

    method InferencePasses(passes: seq<InferenceEnv>) returns (ghost owns: seq<seq<Pipeline.Step>>)
      requires Valid() && worker.phase.Waiting?
      modifies this, queue
      ensures Valid() && worker.phase.Waiting?
      ensures Made(Inferring, old(history), history, Flat(owns))
      ensures |owns| <= |passes| && forall i :: 0 <= i < |owns| ==> IsInferencePass(owns[i], passes[i])
      ensures |owns| < |passes| ==> !running
    {
      var k := 0;
      owns := [];
      while k < |passes| && running
        invariant Valid() && worker.phase.Waiting?
        invariant Made(Inferring, old(history), history, Flat(owns))
        invariant |owns| == k <= |passes| && forall i :: 0 <= i < k ==> IsInferencePass(owns[i], passes[i])
      {
        ghost var middle, own := history, [];
        var admitted;
        own, admitted := InferencePass(passes[k]);
        MadeMore(Inferring, old(history), middle, history, Flat(owns), own);
        FlatAppend(owns, own);
        owns := owns + [own];
        k := k + 1;
      }
    }

    /** One pass of the loop of snapshotLoop: a job taken off the list, and, once the image
        is encoded, the check and the answer; an image that cannot be encoded is not sent. */
    method SnapshotPass(encoded: bool, encoding: seq<Pipeline.Step>) returns (sent: bool)
      requires Valid()
      modifies this, queue
      ensures Valid() && old(history) <= history
      ensures old(jobs) == [] ==> !sent && history == old(history)
      ensures old(jobs) != [] ==>
        StepsBy(Sending, history) == StepsBy(Sending, old(history)) + [ByControl(if encoded then SendPreview else DropPreview)]
      ensures sent ==> past.previews != [] && past.previews[|past.previews| - 1].job == old(jobs)[0]
    {
      if jobs == [] { return false; }
      Others(Sending, encoding);
      var e := ByControl(if encoded then SendPreview else DropPreview);
      StepsByAppend(Sending, history, e);
      sent := encoded && jobs[0].frame.generation == inferenceEpoch && enabled;
      Step(e);
    }

    /** stop(): the flag, then the queue, which loses what it held. */
    method Stop(between: seq<Pipeline.Step>)
      requires Valid()
      modifies this, queue
      ensures Valid() && old(history) <= history && queue.closed && queue.items == []
      ensures StepsBy(Stopping, history) == StepsBy(Stopping, old(history)) + [ByControl(StopRunning)] + [ByControl(CloseQueue)]
    {
      StepsByAppend(Stopping, history, ByControl(StopRunning));
      Step(ByControl(StopRunning));
      Others(Stopping, between);
      StepsByAppend(Stopping, history, ByControl(CloseQueue));
      Step(ByControl(CloseQueue));
    }
  }

  /** No thread touches what is local to another. */
  lemma OthersLeave(c: Config, s: State, t: Thread, e: Step)
    requires Enabled(s, e) && s.queue.Wf() && !By(t, e)
    ensures
      var r := Next(c, s, e);
      && (t.Capturing? ==> r.camera == s.camera)
      && (t.Inferring? ==> r.worker == s.worker)
      && (t.Sending? ==> s.jobs <= r.jobs)
  {
  }
}
