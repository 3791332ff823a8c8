/** Cross-thread task hand-over in core/reactor/EventLoop.h: a queue behind a mutex, an
    eventfd to end a blocking wait, and one loop thread that drains the queue. */
module EventLoops {

  /** A queued functor, named by its place in the order of queueing. */
  type Task = nat

  /** The eventfd counter saturates; a write at the limit fails and is ignored. */
  const COUNTER_MAX: nat := 0xFFFF_FFFF_FFFF_FFFE

  /** Where the loop thread is: in (or entering) epoll_wait, running fd callbacks with or
      without the wakeup event still to be served, or running the functors it swapped out. */
  datatype Phase = Blocked | Dispatching(wakeup: bool) | Calling

  /** `batch` holds the swapped-out functors not yet run, `writers` counts other threads
      between their push and their eventfd write, `owes` says the loop thread itself is
      there. `pushed` and `done` are history: all tasks queued and all tasks started. */
  datatype State = State(
    phase: Phase, pending: seq<Task>, batch: seq<Task>, counter: nat,
    writers: nat, calling: bool, owes: bool, pushed: seq<Task>, done: seq<Task>)

  datatype Step =
    | OtherPush
    | OtherWrite
    | LoopPush
    | LoopWrite
    | Wake(sawWakeup: bool)
    | ServeWakeup
    | Swap
    | RunNext
    | Block

  predicate Enabled(s: State, e: Step) {
    match e
    case OtherPush => true
    case OtherWrite => s.writers > 0
    case LoopPush => !s.phase.Blocked? && !s.owes
    case LoopWrite => s.owes
    case Wake(saw) => s.phase.Blocked? && (saw ==> s.counter > 0)
    case ServeWakeup => s.phase == Dispatching(true) && !s.owes
    case Swap => s.phase == Dispatching(false) && !s.owes
    case RunNext => s.phase.Calling? && s.batch != [] && !s.owes
    case Block => s.phase.Calling? && s.batch == [] && !s.owes
  }

  function Pushed(s: State): State {
    s.(pending := s.pending + [|s.pushed|], pushed := s.pushed + [|s.pushed|])
  }

  function Written(s: State): State {
    s.(counter := if s.counter < COUNTER_MAX then s.counter + 1 else s.counter)
  }

  function Next(s: State, e: Step): State
    requires Enabled(s, e)
  {
    match e
    case OtherPush => Pushed(s).(writers := s.writers + 1)
    case OtherWrite => Written(s).(writers := s.writers - 1)
    case LoopPush => Pushed(s).(owes := s.calling)
    case LoopWrite => Written(s).(owes := false)
    case Wake(saw) => s.(phase := Dispatching(saw))
    case ServeWakeup => s.(phase := Dispatching(false), counter := 0)
    case Swap => s.(phase := Calling, batch := s.pending, pending := [], calling := true)
    case RunNext => s.(batch := s.batch[1..], done := s.done + [s.batch[0]])
    case Block => s.(phase := Blocked, calling := false)
  }

  function Init(): State {
    State(Blocked, [], [], 0, 0, false, false, [], [])
  }

  /** Steps that are not enabled do not happen. */
  function Run(s: State, steps: seq<Step>): State
    decreases |steps|
  {
    if steps == [] then s
    else Run(if Enabled(s, steps[0]) then Next(s, steps[0]) else s, steps[1..])
  }

  ghost predicate Inv(s: State) {
    && (s.calling <==> s.phase.Calling?)
    && (s.batch != [] ==> s.phase.Calling?)
    && (s.owes ==> s.phase.Calling?)
    && (forall i :: 0 <= i < |s.pushed| ==> s.pushed[i] == i)
    && s.done + s.batch + s.pending == s.pushed
    && (!s.phase.Dispatching? && s.pending != [] ==> s.counter > 0 || s.writers > 0 || s.owes)
  }

  lemma NextKeepsInv(s: State, e: Step)
    requires Inv(s) && Enabled(s, e)
    ensures Inv(Next(s, e))
  {
    var t := Next(s, e);
    match e
    case OtherPush => assert s.done + s.batch + (s.pending + [|s.pushed|]) == s.pushed + [|s.pushed|];
    case LoopPush => assert s.done + s.batch + (s.pending + [|s.pushed|]) == s.pushed + [|s.pushed|];
    case Swap => assert s.done + s.pending + [] == s.done + s.batch + s.pending;
    case RunNext => assert s.done + [s.batch[0]] + s.batch[1..] == s.done + s.batch;
    case _ =>
  }

  lemma {:induction false} RunKeepsInv(s: State, steps: seq<Step>)
    requires Inv(s)
    ensures Inv(Run(s, steps))
    decreases |steps|
  {
    if steps != [] {
      if Enabled(s, steps[0]) {
        NextKeepsInv(s, steps[0]);
        RunKeepsInv(Next(s, steps[0]), steps[1..]);
      } else {
        RunKeepsInv(s, steps[1..]);
      }
    }
  }

  /** No wakeup is lost, in any interleaving: when the loop is about to block and tasks are
      pending, the eventfd is readable or some thread is just about to make it so. */
  lemma NoLostWakeup(steps: seq<Step>)
    ensures
      var s := Run(Init(), steps);
      s.phase.Blocked? && s.pending != [] ==> s.counter > 0 || s.writers > 0
  {
    RunKeepsInv(Init(), steps);
  }

  /** Tasks start in the order they were queued and at most once; none is forgotten. */
  lemma TasksRunInOrder(steps: seq<Step>)
    ensures
      var s := Run(Init(), steps);
      && s.done <= s.pushed
      && s.done + s.batch + s.pending == s.pushed
      && forall i :: 0 <= i < |s.done| ==> s.done[i] == i
  {
    RunKeepsInv(Init(), steps);
    var s := Run(Init(), steps);
    assert s.pushed[..|s.done|] == s.done;
    forall i | 0 <= i < |s.done| ensures s.done[i] == i {
      assert s.pushed[i] == s.done[i];
    }
  }

  // ----- a woken loop finishes the work -----

  function RunBatch(n: nat): seq<Step> {
    seq(n, i => RunNext)
  }

  lemma {:induction false} BatchRunsOut(s: State, n: nat)
    requires s.phase.Calling? && !s.owes && n == |s.batch|
    ensures Run(s, RunBatch(n)) == s.(batch := [], done := s.done + s.batch)
    decreases n
  {
    if n == 0 {
      assert s.done + s.batch == s.done;
    } else {
      assert RunBatch(n)[1..] == RunBatch(n - 1);
      var t := Next(s, RunNext);
      BatchRunsOut(t, n - 1);
      assert s.done + [s.batch[0]] + s.batch[1..] == s.done + s.batch;
    }
  }

  lemma {:induction false} RunConcat(s: State, a: seq<Step>, b: seq<Step>)
    ensures Run(s, a + b) == Run(Run(s, a), b)
    decreases |a|
  {
    if a == [] {
      assert a + b == b;
    } else {
      assert (a + b)[1..] == a[1..] + b;
      RunConcat(if Enabled(s, a[0]) then Next(s, a[0]) else s, a[1..], b);
    }
  }

  /** One turn of the loop thread on its own. */
  function Turn(s: State, saw: bool): seq<Step> {
    (if saw then [Wake(true), ServeWakeup, Swap] else [Wake(false), Swap]) + RunBatch(|s.pending|) + [Block]
  }

  /** Whatever woke the loop, one undisturbed turn runs every task pending at that moment;
      if it was the eventfd, the counter is spent too, so the loop does not spin. */
  lemma TurnRunsEverything(s: State, saw: bool)
    requires Inv(s) && s.phase.Blocked? && (saw ==> s.counter > 0)
    ensures
      var t := Run(s, Turn(s, saw));
      && t.phase.Blocked? && t.pending == [] && t.done == s.pushed == t.pushed
      && (saw ==> t.counter == 0)
  {
    var head := if saw then [Wake(true), ServeWakeup, Swap] else [Wake(false), Swap];
    var n := |s.pending|;
    RunConcat(s, head + RunBatch(n), [Block]);
    RunConcat(s, head, RunBatch(n));
    var c := s.(phase := Calling, counter := if saw then 0 else s.counter, batch := s.pending, pending := [], calling := true);
    assert Run(s, head) == c by {
      var s1 := Next(s, Wake(saw));
      if saw {
        var s2 := Next(s1, ServeWakeup);
        assert head[1..] == [ServeWakeup, Swap] && [ServeWakeup, Swap][1..] == [Swap];
        assert Run(s2, [Swap]) == Run(Next(s2, Swap), []);
      } else {
        assert head[1..] == [Swap];
        assert Run(s1, [Swap]) == Run(Next(s1, Swap), []);
      }
    }
    BatchRunsOut(c, n);
    assert s.done + s.pending == s.done + s.batch + s.pending;
    var d := c.(batch := [], done := s.done + s.pending);
    assert Run(d, [Block]) == Run(Next(d, Block), []);
  }

  // ----- the object -----

  class EventLoop {
    var phase: Phase
    var pending: seq<Task>
    var counter: nat
    var calling: bool
    ghost var batch: seq<Task>
    var writers: nat
    ghost var owes: bool
    var pushed: seq<Task>  // history; not ghost because a task is named by its place in it
    ghost var done: seq<Task>

    ghost function Abs(): State
      reads this
    {
      State(phase, pending, batch, counter, writers, calling, owes, pushed, done)
    }

    constructor ()
      ensures Abs() == Init()
    {
      phase, pending, counter, calling := Blocked, [], 0, false;
      batch, writers, owes, pushed, done := [], 0, false, [], [];
    }

    method WriteEventFd()
      modifies `counter
      ensures Abs() == Written(old(Abs()))
    {
      if counter < COUNTER_MAX { counter := counter + 1; }
    }

    /** The part of queueInLoop() under the mutex; says whether a write must follow. */
    method Enqueue(inLoopThread: bool) returns (notify: bool)
      requires inLoopThread ==> Enabled(Abs(), LoopPush)
      modifies `pending, `pushed, `writers, `owes
      ensures notify == (!inLoopThread || calling)
      ensures Abs() == Next(old(Abs()), if inLoopThread then LoopPush else OtherPush)
    {
      pending := pending + [|pushed|];
      pushed := pushed + [|pushed|];
      notify := !inLoopThread || calling;
      if inLoopThread { owes := notify; } else { writers := writers + 1; }
    }

    /** The write after it. */
    method Notify(inLoopThread: bool)
      requires Enabled(Abs(), if inLoopThread then LoopWrite else OtherWrite)
      modifies `counter, `writers, `owes
      ensures Abs() == Next(old(Abs()), if inLoopThread then LoopWrite else OtherWrite)
    {
      WriteEventFd();
      if inLoopThread { owes := false; } else { writers := writers - 1; }
    }

    method HandleWakeup()
      requires Enabled(Abs(), ServeWakeup)
      modifies `counter, `phase
      ensures Abs() == Next(old(Abs()), ServeWakeup)
    {
      counter := 0;
      phase := Dispatching(false);
    }

    /** Steps of other threads: true is a push, false a write that some thread owes. */
    method Others(steps: seq<bool>)
      requires Inv(Abs())
      modifies `pending, `pushed, `writers, `counter, `owes
      ensures Inv(Abs()) && owes == old(owes)
      ensures old(pushed) <= pushed && old(pending) <= pending
    {
      for k := 0 to |steps|
        invariant Inv(Abs()) && owes == old(owes)
        invariant old(pushed) <= pushed && old(pending) <= pending
      {
        if steps[k] {
          NextKeepsInv(Abs(), OtherPush);
          var notify := Enqueue(false);
        } else if writers > 0 {
          NextKeepsInv(Abs(), OtherWrite);
          Notify(false);
        }
      }
    }

    method SwapPending() returns (functors: seq<Task>)
      requires Inv(Abs()) && Enabled(Abs(), Swap)
      modifies `pending, `batch, `phase, `calling
      ensures Inv(Abs()) && functors == old(pending) && Abs() == Next(old(Abs()), Swap)
    {
      NextKeepsInv(Abs(), Swap);
      functors := pending;
      pending, batch := [], functors;
      phase, calling := Calling, true;
    }

    /** Runs the functors pending at the start, each once and in order. Functor k queues
        `queues[k]` more, which wait for the next turn; the steps `others[k]` of other
        threads come before it. */
    method DoPendingFunctors(queues: seq<nat>, others: seq<seq<bool>>)
      requires Inv(Abs()) && Enabled(Abs(), Swap)
      modifies this
      ensures Inv(Abs()) && phase.Blocked?
      ensures done == old(done) + old(pending)
      ensures old(pushed) <= pushed && done + pending == pushed
    {
      var functors := SwapPending();
      var k := 0;
      while k < |functors|
        invariant 0 <= k <= |functors| && Inv(Abs()) && phase.Calling? && !owes
        invariant old(pushed) <= pushed
        invariant batch == functors[k..] && done + batch == old(done) + functors
      {
        ghost var before := done;
        NextFunctor(functors[k], if k < |queues| then queues[k] else 0, if k < |others| then others[k] else []);
        Shift(before, functors[k], batch, functors[k..]);
        k := k + 1;
      }
      FinishCalling();
    }

    /** Other threads, then one functor. */
    method NextFunctor(f: Task, queues: nat, others: seq<bool>)
      requires Inv(Abs()) && phase.Calling? && !owes && batch != [] && f == batch[0]
      modifies this
      ensures Inv(Abs()) && phase.Calling? && !owes && old(pushed) <= pushed
      ensures batch == old(batch)[1..] && done == old(done) + [f]
    {
      Others(others);
      RunFunctor(f, queues);
    }

    method FinishCalling()
      requires Inv(Abs()) && Enabled(Abs(), Block)
      modifies `calling, `phase
      ensures Inv(Abs()) && Abs() == Next(old(Abs()), Block)
    {
      NextKeepsInv(Abs(), Block);
      calling := false;
      phase := Blocked;
    }

    method RunFunctor(f: Task, queues: nat)
      requires Inv(Abs()) && phase.Calling? && !owes && batch != [] && f == batch[0]
      modifies `batch, `done, `pending, `pushed, `counter, `owes, `writers
      ensures Inv(Abs()) && phase.Calling? && !owes && old(pushed) <= pushed
      ensures batch == old(batch)[1..] && done == old(done) + [f]
    {
      NextKeepsInv(Abs(), RunNext);
      done := done + [f];
      batch := batch[1..];
      FunctorQueues(queues);
    }

    method FunctorQueues(n: nat)
      requires Inv(Abs()) && phase.Calling? && !owes
      modifies `pending, `pushed, `counter, `owes, `writers
      ensures Inv(Abs()) && phase.Calling? && !owes && old(pushed) <= pushed
    {
      for j := 0 to n
        invariant Inv(Abs()) && phase.Calling? && !owes && old(pushed) <= pushed
      {
        NextKeepsInv(Abs(), LoopPush);
        var notify := Enqueue(true);
        if notify {
          NextKeepsInv(Abs(), LoopWrite);
          Notify(true);
        }
      }
    }
  }

  lemma Shift(done: seq<Task>, f: Task, rest: seq<Task>, batch: seq<Task>)
    requires batch != [] && batch[0] == f && rest == batch[1..]
    ensures done + [f] + rest == done + batch
  {
    assert batch == [f] + rest;
    assert done + [f] + rest == done + ([f] + rest);
  }
}
