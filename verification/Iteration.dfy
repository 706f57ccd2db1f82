/** One pass of the main loop as a plain sequence of tasks, and the proof that the event loop does exactly that. */
module Iterations {
  import opened Messages
  import opened Traces
  import opened Worlds
  import opened EventLoops
  import opened ReadyQueues
  import opened Handshakes
  import opened Stopping
  import opened Inputs

  // ---------- the sequential program ----------

  function RunJobs(w: World, jobs: seq<Job>, input: Input): World
    decreases |jobs|, w
  {
    if jobs == [] then w else RunJobs(RunJob(w, jobs[0], input).0, jobs[1..], input)
  }

  function Framed(w: World, fr: Frame): World {
    w.(frame := fr)
  }

  function FirstAck(fr: Frame): Job {
    Acknowledge(fr.rcv, fr.rpm2, 0, fr.ack)
  }

  function SecondAck(fr: Frame): Job {
    Acknowledge(fr.rcv, fr.rpm2, 100, fr.ack)
  }

  /** Acknowledge acceptance and raise task_control_1. */
  function BeginCommand(w: World, fr: Frame, input: Input): World {
    var w' := RunJobs(w, [FirstAck(fr)], input);
    Framed(w', w'.frame.(taskControl := 1))
  }

  /** Acknowledge completion and free the slot. */
  function CompleteCommand(w: World, input: Input): World {
    var w' := RunJobs(w, [SecondAck(w.frame)], input);
    Framed(w', w'.frame.(rcv := 0, ack := ACK_ALL_DATA_COMPLETE))
  }

  /** The command that was accepted at the top, if any, is served. */
  function CommandServed(w: World, fr: Frame, input: Input): World {
    if fr.ack == MAV_RESULT_ACCEPTED
    then CompleteCommand(RunJobs(BeginCommand(w, fr, input), [Process, ErrorHandler], input), input)
    else w
  }

  /** A command is accepted at the top whose type nobody can serve: its processing dies and the error handler spins. */
  predicate Stalls(fr: Frame) {
    fr.ack == MAV_RESULT_ACCEPTED && Unserved(fr.typ)
  }

  /**
   * The tasks created at the top, then the accepted command, then the announcements, unless the command stalls the
   * loop.
   */
  function Iteration(w: World, heart: int, input: Input): World {
    var worked := RunJobs(w, TopJobs(w, heart), input);
    if Stalls(w.frame) then RunJobs(BeginCommand(worked, w.frame, input), [Process, ErrorHandler], input)
    else RunJobs(CommandServed(worked, w.frame, input), ANNOUNCEMENTS, input)
  }

  /** How an iteration ends: at the next top, with an exception in main, or never. */
  datatype Fate = NextTop | Ends | Hangs

  ghost function FateOf(w: World, heart: int, input: Input): Fate {
    if Stalls(w.frame) then Hangs else if Negative(Iteration(w, heart, input)) then Ends else NextTop
  }

  /** The number of steps of the event loop that an iteration takes. */
  function Span(w: World, heart: int): nat {
    |TopJobs(w, heart)| + if w.frame.ack != MAV_RESULT_ACCEPTED then 8 else if Unserved(w.frame.typ) then 4 else 15
  }

  lemma {:induction false} RunJobsAppend(w: World, a: seq<Job>, b: seq<Job>, input: Input)
    ensures RunJobs(w, a + b, input) == RunJobs(RunJobs(w, a, input), b, input)
    decreases |a|
  {
    if a == [] {
      assert a + b == b;
    } else {
      assert (a + b)[0] == a[0] && (a + b)[1..] == a[1..] + b;
      RunJobsAppend(RunJob(w, a[0], input).0, a[1..], b, input);
    }
  }

  lemma JobsRunInOrder(w: World, job: Job, jobs: seq<Job>, input: Input)
    ensures RunJobs(w, [job] + jobs, input) == RunJobs(RunJob(w, job, input).0, jobs, input)
  {
    assert ([job] + jobs)[1..] == jobs;
  }

  lemma {:induction false} RunAppend(l: Loop, a: seq<Input>, b: seq<Input>)
    ensures Run(Run(l, a), b) == Run(l, a + b)
    decreases |b|
  {
    if b == [] {
      assert a + b == a;
    } else {
      var n := |b| - 1;
      RunAppend(l, a, b[..n]);
      assert (a + b)[..|a| + n] == a + b[..n] && (a + b)[|a| + n] == b[n];
    }
  }

  lemma RunSplit(l: Loop, inputs: seq<Input>, n: nat)
    requires n <= |inputs|
    ensures Run(l, inputs) == Run(Run(l, inputs[..n]), inputs[n..])
  {
    RunAppend(l, inputs[..n], inputs[n..]);
    assert inputs[..n] + inputs[n..] == inputs;
  }

  lemma CutLast(inputs: seq<Input>)
    requires inputs != []
    ensures inputs == inputs[..|inputs| - 1] + [inputs[|inputs| - 1]]
  {
  }

  lemma CutShifted(inputs: seq<Input>, k: nat, m: nat, n: nat)
    requires m <= n && k + n <= |inputs|
    ensures inputs[k..][m..n] == inputs[k + m..k + n]
  {
  }

  lemma RunOne(l: Loop, input: Input)
    ensures Run(l, [input]) == Step(l, input)
  {
    assert [input][..0] == [];
  }

  lemma RunFirst(l: Loop, inputs: seq<Input>)
    requires inputs != []
    ensures Run(l, inputs) == Run(Step(l, inputs[0]), inputs[1..])
  {
    RunSplit(l, inputs, 1);
    assert inputs[..1] == [inputs[0]];
    RunOne(l, inputs[0]);
  }

  lemma ShowsFirst(input: Input, job: Job, jobs: seq<Job>, inputs: seq<Input>)
    requires Shows(input, [job] + jobs, inputs)
    ensures inputs != [] && SameView(job, inputs[0], input) && Shows(input, jobs, inputs[1..])
  {
    assert ([job] + jobs)[0] == job;
    assert inputs == [inputs[0]] + inputs[1..];
    ShowsParts(input, [job], jobs, [inputs[0]], inputs[1..]);
  }

  // ---------- draining the queue ----------

  /** The tasks in a queue, in order. */
  function JobsOf(q: seq<Handle>): seq<Job> {
    if q == [] then [] else (if q[0].Start? then [q[0].job] else []) + JobsOf(q[1..])
  }

  lemma {:induction false} JobsOfStarts(next: nat, jobs: seq<Job>)
    ensures JobsOf(Starts(next, jobs)) == jobs
    decreases |jobs|
  {
    if jobs != [] {
      assert Starts(next, jobs)[1..] == Starts(next + 1, jobs[1..]);
      JobsOfStarts(next + 1, jobs[1..]);
    }
  }

  lemma {:induction false} JobsOfAppend(a: seq<Handle>, b: seq<Handle>)
    ensures JobsOf(a + b) == JobsOf(a) + JobsOf(b)
    decreases |a|
  {
    if a == [] {
      assert a + b == b;
    } else {
      JobsOfAppend(a[1..], b);
      assert (a + b)[0] == a[0] && (a + b)[1..] == a[1..] + b;
      var first := if a[0].Start? then [a[0].job] else [];
      assert JobsOf(a + b) == first + (JobsOf(a[1..]) + JobsOf(b));
      assert JobsOf(a) == first + JobsOf(a[1..]);
    }
  }

  /** Main still waits for the same tasks. */
  predicate StillWaiting(l: Loop, l': Loop) {
    l'.ctl == l.ctl && (l'.next, l'.receiver, l'.servicer, l'.heart) == (l.next, l.receiver, l.servicer, l.heart)
  }

  /** No processing task has died or is about to die. */
  predicate Flowing(l: Loop) {
    && !PhaseOf(l.world.trace).Lost?
    && (l.queue != [] && l.queue[0].Start? && l.queue[0].job == Process ==> !Unserved(l.world.frame.typ))
  }

  lemma HeadRuns(l: Loop, w: World, end: End)
    requires Fifo(l) && l.ctl.Suspended? && l.queue != [] && l.queue[0].Start? && end != Spins
    ensures var l' := AfterTask(l, l.queue[0].id, w, end);
            && StillWaiting(l, l')
            && JobsOf(l.queue) == [l.queue[0].job] + JobsOf(l'.queue)
            && StartCount(l'.queue) == StartCount(l.queue) - 1
  {
    var l' := AfterTask(l, l.queue[0].id, w, end);
    var extra := l'.queue[|l.queue| - 1..];
    assert l'.queue == l.queue[1..] + extra;
    JobsOfAppend(l.queue[1..], extra);
    assert extra == [] || extra == [Wake];
    assert l.queue[0].id == l.next - StartCount(l.queue);
  }

  /** A task that neither dies in processing nor spins: the loop keeps flowing. */
  lemma HeadFlows(l: Loop, input: Input)
    requires LoopFits(l) && l.ctl.Suspended? && l.queue != [] && l.queue[0].Start? && Flowing(l)
    ensures RunJob(l.world, l.queue[0].job, input).1 != Spins
    ensures l.ctl.pc == AfterProcess ==> !PhaseOf(RunJob(l.world, l.queue[0].job, input).0.trace).Lost?
  {
    ProcessingPlace(l);
    if l.ctl.pc == AfterProcess {
      ProcessStep(l.world, l.queue, input);
    } else {
      OnlyErrorHandlerSpins(l.world, l.queue[0].job, input);
    }
  }

  lemma FlowsOn(l: Loop)
    requires LoopFits(l) && Fifo(l) && l.ctl.Suspended? && (l.ctl.pc == AfterProcess ==> !PhaseOf(l.world.trace).Lost?)
    requires l.queue != [] && (l.queue[0].Start? && l.queue[0].job == Process ==> l.ctl.pc != AfterProcess)
    ensures Flowing(l)
  {
    if l.queue[0].Start? {
      ProcessingPlace(l);
    }
  }

  lemma TaskStep(l: Loop, input: Input)
    requires Steady(l) && l.ctl.Suspended? && l.queue != [] && l.queue[0].Start? && Flowing(l)
    ensures var (l', job) := (Step(l, input), l.queue[0].job);
            && Steady(l') && Flowing(l') && StillWaiting(l, l')
            && l'.world == RunJob(l.world, job, input).0
            && JobsOf(l.queue) == [job] + JobsOf(l'.queue)
            && StartCount(l'.queue) == StartCount(l.queue) - 1
  {
    var l' := Step(l, input);
    StepSteady(l, input);
    HeadFlows(l, input);
    HeadRuns(l, RunJob(l.world, l.queue[0].job, input).0, RunJob(l.world, l.queue[0].job, input).1);
    RunToCompletion(l');
    if l.ctl.pc == AfterProcess {
      NoSecondProcess(l, input);
    }
    FlowsOn(l');
  }

  lemma NoSecondProcess(l: Loop, input: Input)
    requires LoopFits(l) && l.ctl.Suspended? && l.queue != [] && l.queue[0].Start? && l.ctl.pc == AfterProcess
    requires RunJob(l.world, l.queue[0].job, input).1 != Spins
    ensures var q := Step(l, input).queue; q != [] && q[0].Start? ==> q[0].job != Process
  {
  }

  lemma {:induction false} JobCount(q: seq<Handle>)
    requires forall i | 0 <= i < StartCount(q) :: q[i].Start?
    ensures |JobsOf(q)| == StartCount(q)
    decreases |q|
  {
    if q != [] {
      JobCount(q[1..]);
    }
  }

  /** The task at the head of the queue runs on what its own input shows it. */
  lemma FirstTask(l: Loop, inputs: seq<Input>, input: Input)
    requires Steady(l) && l.ctl.Suspended? && l.queue != [] && l.queue[0].Start? && Flowing(l)
    requires Shows(input, JobsOf(l.queue), inputs)
    ensures inputs != []
    ensures var (l1, job) := (Step(l, inputs[0]), l.queue[0].job);
            && Steady(l1) && Flowing(l1) && StillWaiting(l, l1) && StartCount(l1.queue) == StartCount(l.queue) - 1
            && Shows(input, JobsOf(l1.queue), inputs[1..])
            && Run(l, inputs) == Run(l1, inputs[1..])
            && RunJobs(l.world, JobsOf(l.queue), input) == RunJobs(l1.world, JobsOf(l1.queue), input)
  {
    var job := l.queue[0].job;
    assert JobsOf(l.queue)[0] == job;
    var l1 := Step(l, inputs[0]);
    TaskStep(l, inputs[0]);
    ShowsFirst(input, job, JobsOf(l1.queue), inputs);
    JobSees(l.world, job, inputs[0], input);
    RunFirst(l, inputs);
    JobsRunInOrder(l.world, job, JobsOf(l1.queue), input);
  }

  /** The queued tasks run in order; then main's wake-up is alone in the queue. */
  lemma {:induction false} Drain(l: Loop, inputs: seq<Input>, input: Input)
    requires Steady(l) && l.ctl.Suspended? && Flowing(l) && Shows(input, JobsOf(l.queue), inputs)
    ensures var l' := Run(l, inputs);
            && Steady(l') && Flowing(l') && l'.queue == [Wake] && StillWaiting(l, l')
            && l'.world == RunJobs(l.world, JobsOf(l.queue), input)
    decreases StartCount(l.queue)
  {
    RunToCompletion(l);
    if l.queue[0] == Wake {
      assert JobsOf(l.queue) == [];
    } else {
      FirstTask(l, inputs, input);
      Drain(Step(l, inputs[0]), inputs[1..], input);
    }
  }

  /** The state in which main goes on once the queue has drained. */
  function Drained(l: Loop, inputs: seq<Input>): Loop {
    Run(l, inputs).(queue := [])
  }

  predicate SameTasks(l: Loop, l': Loop) {
    (l'.next, l'.receiver, l'.servicer, l'.heart) == (l.next, l.receiver, l.servicer, l.heart)
  }

  /** The queue drains and main wakes: it goes on, or stops on a negative value if it waited for publishers. */
  lemma Advance(l: Loop, inputs: seq<Input>, last: Input, input: Input)
    requires Steady(l) && l.ctl.Suspended? && Flowing(l) && Shows(input, JobsOf(l.queue), inputs)
    ensures var (l1, w) := (Drained(l, inputs), RunJobs(l.world, JobsOf(l.queue), input));
            && Rested(l1) && SameTasks(l, l1) && l1.world == w && (l.ctl.pc != BootDone ==> ServiceSound(l1))
            && Run(l, inputs + [last])
               == (if ForAnnouncements(l.ctl.pc) && Negative(w) then l1.(ctl := Stopped) else Continue(l1, l.ctl.pc))
            && Steady(Run(l, inputs + [last]))
  {
    Drain(l, inputs, input);
    var l' := Run(l, inputs);
    RunAppend(l, inputs, [last]);
    RunOne(l', last);
    WakeFate(l', last);
    StepSteady(l', last);
  }

  // ---------- one iteration ----------

  /** Where an iteration that leaves the world w has led. */
  ghost predicate Arrives(l': Loop, fate: Fate, w: World, heart: int) {
    match fate
    case NextTop => exists top: Loop :: AtTop(l', top, w, heart)
    case Ends => l'.ctl == Stopped && l'.world == w
    case Hangs => l'.ctl == Hung && l'.world == w
  }

  /** Main has just run from the top with the world w, every task of earlier iterations having ended. */
  ghost predicate AtTop(l': Loop, top: Loop, w: World, heart: int) {
    Rested(top) && l' == Top(top) && top.world == w && top.heart == heart
  }

  lemma SpawnedJobs(l: Loop, jobs: seq<Job>, pc: Pc)
    requires l.queue == []
    ensures JobsOf(SpawnAndAwait(l, jobs, pc).queue) == jobs
  {
    JobsOfStarts(l.next, jobs);
    assert SpawnAndAwait(l, jobs, pc).queue == Starts(l.next, jobs);
  }

  /** Publishers queued, perhaps behind other tasks: the iteration ends, for better or worse. */
  lemma Announcing(l: Loop, inputs: seq<Input>, last: Input, input: Input)
    requires Steady(l) && l.ctl.Suspended? && Flowing(l) && l.ctl.pc == AnnouncementsDone
    requires Shows(input, JobsOf(l.queue), inputs)
    ensures var w := RunJobs(l.world, JobsOf(l.queue), input);
            Arrives(Run(l, inputs + [last]), if Negative(w) then Ends else NextTop, w, Beat(l.heart))
  {
    Advance(l, inputs, last, input);
    var l1 := Drained(l, inputs);
    if !Negative(l1.world) {
      NextTopFrom(l1);
      assert AtTop(Run(l, inputs + [last]), EndIteration(l1), l1.world, Beat(l.heart));
    }
  }

  lemma NextTopFrom(l: Loop)
    requires Rested(l) && TasksKnown(l) && ServiceSound(l)
    ensures AtTop(Continue(l, AnnouncementsDone), EndIteration(l), l.world, Beat(l.heart))
  {
    CancelIdle(l);
    AwaitServiceSober(EndIteration(l));
  }

  /** A point inside an iteration: main waits at pc, the tasks are queued, and the world is w. */
  ghost predicate Stands(l: Loop, pc: Pc, jobs: seq<Job>, w: World, heart: int) {
    && Steady(l) && l.ctl.Suspended? && l.ctl.pc == pc && Flowing(l)
    && JobsOf(l.queue) == jobs && l.world == w && l.heart == heart
  }

  /** What main leaves behind when it goes on after a command step. */
  lemma Spawned(l: Loop, jobs: seq<Job>, pc: Pc)
    requires l.queue == [] && Steady(SpawnAndAwait(l, jobs, pc)) && jobs != []
    requires pc == AfterProcess ==> !PhaseOf(l.world.trace).Lost? && !Unserved(l.world.frame.typ)
    ensures Stands(SpawnAndAwait(l, jobs, pc), pc, jobs, l.world, l.heart)
  {
    SpawnedJobs(l, jobs, pc);
    var l' := SpawnAndAwait(l, jobs, pc);
    RunToCompletion(l');
    if pc != AfterProcess {
      FlowsOn(l');
    }
  }

  /** The second acknowledgement goes out and the slot is freed. */
  lemma Completing(l: Loop, inputs: seq<Input>, input: Input)
    requires Stands(l, AfterAck100, [SecondAck(l.world.frame)], l.world, l.heart) && |inputs| == 2
    ensures Stands(Run(l, inputs), AnnouncementsDone, ANNOUNCEMENTS, CompleteCommand(l.world, input), l.heart)
  {
    Advance(l, [inputs[0]], inputs[1], input);
    var l1 := Drained(l, [inputs[0]]);
    CutLast(inputs);
    assert inputs[..1] == [inputs[0]];
    Spawned(WithFrame(l1, l1.world.frame.(rcv := 0, ack := ACK_ALL_DATA_COMPLETE)), ANNOUNCEMENTS, AnnouncementsDone);
  }

  /** The command is processed, its type being one that can be served. */
  lemma Processing(l: Loop, inputs: seq<Input>, input: Input)
    requires Stands(l, AfterProcess, [Process, ErrorHandler], l.world, l.heart)
    requires |inputs| == 3 && SameView(Process, inputs[0], input)
    ensures var w := RunJobs(l.world, [Process, ErrorHandler], input);
            Stands(Run(l, inputs), AfterAck100, [SecondAck(w.frame)], w, l.heart)
  {
    CutLast(inputs);
    Advance(l, inputs[..2], inputs[2], input);
    var l1 := Drained(l, inputs[..2]);
    Spawned(l1, [SecondAck(l1.world.frame)], AfterAck100);
  }

  /** From the processing step of a type that can be served to the end of the iteration. */
  lemma Serving(l: Loop, three: seq<Input>, two: seq<Input>, pubs: seq<Input>, last: Input, input: Input)
    requires Stands(l, AfterProcess, [Process, ErrorHandler], l.world, l.heart)
    requires |three| == 3 && |two| == 2 && SameView(Process, three[0], input) && Shows(input, ANNOUNCEMENTS, pubs)
    ensures var w := RunJobs(CompleteCommand(RunJobs(l.world, [Process, ErrorHandler], input), input), ANNOUNCEMENTS,
        input);
            Arrives(Run(l, three + (two + (pubs + [last]))), if Negative(w) then Ends else NextTop, w, Beat(l.heart))
  {
    Processing(l, three, input);
    var l2 := Run(l, three);
    Completing(l2, two, input);
    var l3 := Run(l2, two);
    Announcing(l3, pubs, last, input);
    RunAppend(l2, two, pubs + [last]);
    RunAppend(l, three, two + (pubs + [last]));
  }

  /** The processing task dies of a type nobody can serve; the error handler and main's wake-up are queued. */
  lemma Dying(l: Loop, own: Input)
    requires Steady(l) && l.ctl.Suspended? && l.ctl.pc == AfterProcess && Unserved(l.world.frame.typ)
    requires JobsOf(l.queue) == [Process, ErrorHandler]
    ensures var l1 := Step(l, own);
            && l1.ctl.Suspended? && l1.queue != [] && l1.queue[0].Start? && l1.queue[0].job == ErrorHandler
            && l1.world == RunJob(l.world, Process, own).0
            && l1.world.frame.taskControl > 0 && l.world.frame.taskControl > 0
  {
    RunToCompletion(l);
    ProcessStep(l.world, l.queue, own);
    HeadRuns(l, RunJob(l.world, Process, own).0, Failed);
    StepSteady(l, own);
    RunToCompletion(Step(l, own));
  }

  lemma Spinning(l: Loop, own: Input)
    requires l.ctl.Suspended? && l.queue != [] && l.queue[0].Start? && l.queue[0].job == ErrorHandler
    requires l.world.frame.taskControl > 0
    ensures Step(l, own) == l.(world := Rejecting(l.world), ctl := Hung)
  {
  }

  lemma DeadWorld(w: World, own: Input, input: Input)
    requires Unserved(w.frame.typ) && w.frame.taskControl > 0
    ensures RunJobs(w, [Process, ErrorHandler], input) == Rejecting(RunJob(w, Process, own).0)
  {
    assert [Process, ErrorHandler] == [Process] + [ErrorHandler];
    JobsRunInOrder(w, Process, [ErrorHandler], input);
    RunOneJob(RunJob(w, Process, input).0, ErrorHandler, input);
  }

  /**
   * The processing task is queued, for a type nobody can serve: it dies, and the error handler acknowledges the
   * recorded rejection, if there is one, and never yields.
   */
  lemma Stalling(l: Loop, inputs: seq<Input>, input: Input)
    requires Steady(l) && l.ctl.Suspended? && l.ctl.pc == AfterProcess && Unserved(l.world.frame.typ)
    requires JobsOf(l.queue) == [Process, ErrorHandler] && |inputs| == 2
    ensures Run(l, inputs).ctl == Hung && Run(l, inputs).world == RunJobs(l.world, [Process, ErrorHandler], input)
  {
    Dying(l, inputs[0]);
    DeadWorld(l.world, inputs[0], input);
    Spinning(Step(l, inputs[0]), inputs[1]);
    RunFirst(l, inputs);
    assert inputs[1..] == [inputs[1]];
    RunOne(Step(l, inputs[0]), inputs[1]);
  }

  lemma RunOneJob(w: World, job: Job, input: Input)
    ensures RunJobs(w, [job], input) == RunJob(w, job, input).0
  {
  }

  /** The tasks created at the top leave an accepted command as it is. */
  lemma {:induction false} WorkKeepsSlot(w: World, jobs: seq<Job>, input: Input)
    requires Linked(w) && forall i | 0 <= i < |jobs| :: Worker(jobs[i])
    ensures SlotKept(w.frame, RunJobs(w, jobs, input).frame)
    ensures Regular(RunJobs(w, jobs, input).trace) == Regular(w.trace)
    decreases |jobs|
  {
    if jobs != [] {
      WorkerLinked(w, jobs[0], input);
      WorkKeepsSlot(RunJob(w, jobs[0], input).0, jobs[1..], input);
    }
  }

  /** The first acknowledgement goes out behind the tasks created at the top. */
  lemma Beginning(l: Loop, works: seq<Input>, wake: Input, input: Input)
    requires Steady(l) && l.ctl.Suspended? && l.ctl.pc == AfterAck0 && Flowing(l)
        && Shows(input, JobsOf(l.queue), works)
    ensures var (l', w) := (Run(l, works + [wake]), RunJobs(l.world, JobsOf(l.queue), input));
            && Steady(l') && l'.ctl.Suspended? && l'.ctl.pc == AfterProcess && l'.heart == l.heart
            && l'.world == Framed(w, w.frame.(taskControl := 1)) && JobsOf(l'.queue) == [Process, ErrorHandler]
            && (!Unserved(w.frame.typ) ==> Flowing(l'))
  {
    Advance(l, works, wake, input);
    Drain(l, works, input);
    var l1 := Drained(l, works);
    var l2 := WithFrame(l1, l1.world.frame.(taskControl := 1));
    SpawnedJobs(l2, [Process, ErrorHandler], AfterProcess);
    if !Unserved(l1.world.frame.typ) {
      Spawned(l2, [Process, ErrorHandler], AfterProcess);
    }
  }

  /** The input shows every task of an iteration what it saw in its own step. */
  predicate Hears(input: Input, w: World, heart: int, inputs: seq<Input>) {
    var (jobs, n) := (TopJobs(w, heart), |TopJobs(w, heart)|);
    && |inputs| == Span(w, heart)
    && if w.frame.ack != MAV_RESULT_ACCEPTED then Shows(input, jobs + ANNOUNCEMENTS, inputs[..n + 7])
       else
         && Shows(input, jobs, inputs[..n]) && SameView(Process, inputs[n + 2], input)
         && (!Unserved(w.frame.typ) ==> Shows(input, ANNOUNCEMENTS, inputs[n + 7..n + 14]))
  }

  lemma CreatedJobs(l: Loop)
    requires l.queue == []
    ensures JobsOf(Created(l).queue) == TopJobs(l.world, l.heart)
  {
    JobsOfStarts(l.next, TopJobs(l.world, l.heart));
    assert Created(l).queue == Starts(l.next, TopJobs(l.world, l.heart));
  }

  lemma DispatchedJobs(l: Loop)
    requires Rested(l) && Steady(Top(l))
    ensures var (fr, jobs) := (l.world.frame, TopJobs(l.world, l.heart));
            if fr.ack == MAV_RESULT_ACCEPTED
            then Stands(Top(l), AfterAck0, jobs + [FirstAck(fr)], l.world, l.heart) && Linked(l.world)
            else Stands(Top(l), AnnouncementsDone, jobs + ANNOUNCEMENTS, l.world, l.heart)
  {
    var (l1, fr) := (Created(l), l.world.frame);
    CreatedJobs(l);
    var jobs := if fr.ack == MAV_RESULT_ACCEPTED then [FirstAck(fr)] else ANNOUNCEMENTS;
    JobsOfStarts(l1.next, jobs);
    JobsOfAppend(l1.queue, Starts(l1.next, jobs));
    RunToCompletion(Top(l));
    FlowsOn(Top(l));
  }

  ghost predicate ArrivesOrEnds(l': Loop, w: World, heart: int) {
    Arrives(l', if Negative(w) then Ends else NextTop, w, heart)
  }

  /** An iteration without a command, with the given tasks created at the top. */
  lemma Uncommanded(l: Loop, w: World, heart: int, jobs: seq<Job>, inputs: seq<Input>, last: Input, input: Input)
    requires Stands(l, AnnouncementsDone, jobs + ANNOUNCEMENTS, w, heart) && Shows(input, jobs + ANNOUNCEMENTS, inputs)
    ensures ArrivesOrEnds(Run(l, inputs + [last]), RunJobs(RunJobs(w, jobs, input), ANNOUNCEMENTS, input), Beat(heart))
  {
    RunJobsAppend(w, jobs, ANNOUNCEMENTS, input);
    Announcing(l, inputs, last, input);
  }

  lemma WorkBeforeCommand(w: World, jobs: seq<Job>, input: Input)
    requires Linked(w) && w.frame.ack == MAV_RESULT_ACCEPTED && forall i | 0 <= i < |jobs| :: Worker(jobs[i])
    ensures var (worked, acked) := (RunJobs(w, jobs, input), RunJobs(w, jobs + [FirstAck(w.frame)], input));
            && acked.frame.typ == w.frame.typ
            && Framed(acked, acked.frame.(taskControl := 1)) == BeginCommand(worked, w.frame, input)
  {
    WorkKeepsSlot(w, jobs, input);
    RunJobsAppend(w, jobs, [FirstAck(w.frame)], input);
    RunOneJob(RunJobs(w, jobs, input), FirstAck(w.frame), input);
  }

  lemma ShowsOneMore(input: Input, jobs: seq<Job>, inputs: seq<Input>, job: Job, own: Input)
    requires Shows(input, jobs, inputs) && SameView(job, own, input)
    ensures Shows(input, jobs + [job], inputs + [own])
  {
  }

  /** The processing step of a command: everything as in Stands, but for the type. */
  ghost predicate Poised(l: Loop, w: World, heart: int) {
    && Steady(l) && l.ctl.Suspended? && l.ctl.pc == AfterProcess
    && JobsOf(l.queue) == [Process, ErrorHandler] && l.world == w && l.heart == heart
    && (!Unserved(w.frame.typ) ==> Flowing(l))
  }

  /** The start of an iteration with a command. */
  lemma CommandBegun(l: Loop, w: World, heart: int, jobs: seq<Job>, works: seq<Input>, two: seq<Input>, input: Input)
    requires Stands(l, AfterAck0, jobs + [FirstAck(w.frame)], w, heart) && Linked(w)
    requires w.frame.ack == MAV_RESULT_ACCEPTED && forall i | 0 <= i < |jobs| :: Worker(jobs[i])
    requires Shows(input, jobs, works) && |two| == 2
    ensures var begun := BeginCommand(RunJobs(w, jobs, input), w.frame, input);
            Poised(Run(l, works + two), begun, heart) && begun.frame.typ == w.frame.typ
  {
    WorkBeforeCommand(w, jobs, input);
    ShowsOneMore(input, jobs, works, FirstAck(w.frame), two[0]);
    PairCut(works, two);
    Beginning(l, works + [two[0]], two[1], input);
  }

  lemma CommandCut(serve: seq<Input>)
    requires |serve| == 13
    ensures serve == serve[..3] + (serve[3..5] + (serve[5..12] + [serve[12]]))
  {
  }

  lemma PairCut(works: seq<Input>, two: seq<Input>)
    requires |two| == 2
    ensures works + two == works + [two[0]] + [two[1]]
  {
  }

  /** The steps of serving a command: three for processing, two for completing, then the publishers and main. */
  lemma Commanded(l: Loop, w: World, heart: int, serve: seq<Input>, input: Input)
    requires Poised(l, w, heart) && !Unserved(w.frame.typ) && |serve| == 13
    requires SameView(Process, serve[0], input) && Shows(input, ANNOUNCEMENTS, serve[5..12])
    ensures var w' := CompleteCommand(RunJobs(w, [Process, ErrorHandler], input), input);
            ArrivesOrEnds(Run(l, serve), RunJobs(w', ANNOUNCEMENTS, input), Beat(heart))
  {
    CommandCut(serve);
    Serving(l, serve[..3], serve[3..5], serve[5..12], serve[12], input);
  }

  lemma UncommandedIteration(l: Loop, inputs: seq<Input>, input: Input)
    requires Rested(l) && Steady(Top(l)) && Hears(input, l.world, l.heart, inputs)
    requires l.world.frame.ack != MAV_RESULT_ACCEPTED
    ensures ArrivesOrEnds(Run(Top(l), inputs), Iteration(l.world, l.heart, input), Beat(l.heart))
  {
    var n := |inputs| - 1;
    DispatchedJobs(l);
    CutLast(inputs);
    Uncommanded(Top(l), l.world, l.heart, TopJobs(l.world, l.heart), inputs[..n], inputs[n], input);
  }

  lemma IterationBegun(l: Loop, works: seq<Input>, two: seq<Input>, input: Input)
    requires Rested(l) && Steady(Top(l)) && l.world.frame.ack == MAV_RESULT_ACCEPTED
    requires Shows(input, TopJobs(l.world, l.heart), works) && |two| == 2
    ensures var begun := BeginCommand(RunJobs(l.world, TopJobs(l.world, l.heart), input), l.world.frame, input);
            Poised(Run(Top(l), works + two), begun, l.heart) && begun.frame.typ == l.world.frame.typ
  {
    DispatchedJobs(l);
    TopJobsWork(l.world, l.heart);
    CommandBegun(Top(l), l.world, l.heart, TopJobs(l.world, l.heart), works, two, input);
  }

  lemma CommandedIteration(l: Loop, works: seq<Input>, two: seq<Input>, serve: seq<Input>, input: Input)
    requires Rested(l) && Steady(Top(l)) && l.world.frame.ack == MAV_RESULT_ACCEPTED && !Unserved(l.world.frame.typ)
    requires Shows(input, TopJobs(l.world, l.heart), works) && |two| == 2 && |serve| == 13
    requires SameView(Process, serve[0], input) && Shows(input, ANNOUNCEMENTS, serve[5..12])
    ensures ArrivesOrEnds(Run(Top(l), (works + two) + serve), Iteration(l.world, l.heart, input), Beat(l.heart))
  {
    IterationBegun(l, works, two, input);
    var begun := BeginCommand(RunJobs(l.world, TopJobs(l.world, l.heart), input), l.world.frame, input);
    Commanded(Run(Top(l), works + two), begun, l.heart, serve, input);
    RunAppend(Top(l), works + two, serve);
  }

  lemma StalledIteration(l: Loop, works: seq<Input>, two: seq<Input>, serve: seq<Input>, input: Input)
    requires Rested(l) && Steady(Top(l)) && Stalls(l.world.frame)
    requires Shows(input, TopJobs(l.world, l.heart), works) && |two| == 2 && |serve| == 2
    ensures Arrives(Run(Top(l), (works + two) + serve), Hangs, Iteration(l.world, l.heart, input), Beat(l.heart))
  {
    IterationBegun(l, works, two, input);
    Stalling(Run(Top(l), works + two), serve, input);
    RunAppend(Top(l), works + two, serve);
  }

  lemma ThreeCut(inputs: seq<Input>, n: nat)
    requires n + 2 <= |inputs|
    ensures inputs == (inputs[..n] + inputs[n..n + 2]) + inputs[n + 2..]
  {
  }

  lemma CommandRefined(l: Loop, inputs: seq<Input>, input: Input)
    requires Rested(l) && Steady(Top(l)) && Hears(input, l.world, l.heart, inputs)
    requires l.world.frame.ack == MAV_RESULT_ACCEPTED
    ensures Stalls(l.world.frame) ==> Arrives(Run(Top(l), inputs), Hangs, Iteration(l.world, l.heart, input),
        Beat(l.heart))
    ensures !Stalls(l.world.frame) ==> ArrivesOrEnds(Run(Top(l), inputs), Iteration(l.world, l.heart, input),
        Beat(l.heart))
  {
    var n := |TopJobs(l.world, l.heart)|;
    ThreeCut(inputs, n);
    if Unserved(l.world.frame.typ) {
      StalledIteration(l, inputs[..n], inputs[n..n + 2], inputs[n + 2..], input);
    } else {
      CutShifted(inputs, n + 2, 5, 12);
      CommandedIteration(l, inputs[..n], inputs[n..n + 2], inputs[n + 2..], input);
    }
  }

  /**
   * From the top of the loop body, on any inputs, the event loop does what the sequential program does on any one
   * input that shows each task the same, and the iteration ends as its fate says.
   */
  lemma LoopRefinesIteration(l: Loop, inputs: seq<Input>, input: Input)
    requires Rested(l) && Steady(Top(l)) && Hears(input, l.world, l.heart, inputs)
    ensures Arrives(Run(Top(l), inputs), FateOf(l.world, l.heart, input), Iteration(l.world, l.heart, input),
        Beat(l.heart))
  {
    if l.world.frame.ack == MAV_RESULT_ACCEPTED {
      CommandRefined(l, inputs, input);
    } else {
      UncommandedIteration(l, inputs, input);
    }
  }

  // ---------- one input for an iteration ----------

  /** The inputs the listening tasks of an iteration get, in the order of the tasks. */
  function Heard(w: World, heart: int, inputs: seq<Input>): (seq<Job>, seq<Input>)
    requires |inputs| == Span(w, heart)
  {
    var (jobs, n) := (TopJobs(w, heart), |TopJobs(w, heart)|);
    if w.frame.ack != MAV_RESULT_ACCEPTED then (jobs + ANNOUNCEMENTS, inputs[..n + 7])
    else if Unserved(w.frame.typ) then (jobs + ([Process] + []), inputs[..n] + ([inputs[n + 2]] + []))
    else (jobs + ([Process] + ANNOUNCEMENTS), inputs[..n] + ([inputs[n + 2]] + inputs[n + 7..n + 14]))
  }

  /** The one input that stands for all inputs of an iteration. */
  function Seen(w: World, heart: int, inputs: seq<Input>): Input
    requires |inputs| == Span(w, heart)
  {
    Merged(Heard(w, heart, inputs).0, Heard(w, heart, inputs).1)
  }

  lemma MergedWhole(input: Input, jobs: seq<Job>, own: seq<Input>)
    requires |jobs| == |own| && NoRepeats(jobs) && input == Merged(jobs, own)
    ensures Shows(input, jobs, own)
  {
    MergedShows(jobs, own);
  }

  lemma HearsUncommanded(input: Input, w: World, heart: int, inputs: seq<Input>)
    requires |inputs| == Span(w, heart) && w.frame.ack != MAV_RESULT_ACCEPTED && input == Seen(w, heart, inputs)
    ensures Shows(input, TopJobs(w, heart) + ANNOUNCEMENTS, inputs[..|TopJobs(w, heart)| + 7])
  {
    ListenersDistinct(w, heart);
    MergedWhole(input, TopJobs(w, heart) + ANNOUNCEMENTS, inputs[..|TopJobs(w, heart)| + 7]);
  }

  /** An input for two lists of tasks around the processing task serves each part. */
  lemma PartsShown(input: Input, a: seq<Job>, b: seq<Job>, p: seq<Input>, x: Input, q: seq<Input>)
    requires |a| == |p| && Shows(input, a + ([Process] + b), p + ([x] + q))
    ensures Shows(input, a, p) && SameView(Process, x, input) && Shows(input, b, q)
  {
    ShowsParts(input, a, [Process] + b, p, [x] + q);
    ShowsParts(input, [Process], b, [x], q);
    assert SameView([Process][0], [x][0], input);
  }

  lemma HearsCommanded(input: Input, w: World, heart: int, inputs: seq<Input>, pubs: seq<Job>, own: seq<Input>)
    requires |inputs| == Span(w, heart) && w.frame.ack == MAV_RESULT_ACCEPTED && |pubs| == |own|
    requires NoRepeats(TopJobs(w, heart) + ([Process] + pubs))
    requires var n := |TopJobs(w, heart)|;
             input == Merged(TopJobs(w, heart) + ([Process] + pubs), inputs[..n] + ([inputs[n + 2]] + own))
    ensures var n := |TopJobs(w, heart)|;
            Shows(input, TopJobs(w, heart), inputs[..n]) && SameView(Process, inputs[n + 2], input)
                && Shows(input, pubs, own)
  {
    var (top, n) := (TopJobs(w, heart), |TopJobs(w, heart)|);
    MergedWhole(input, top + ([Process] + pubs), inputs[..n] + ([inputs[n + 2]] + own));
    PartsShown(input, top, pubs, inputs[..n], inputs[n + 2], own);
  }

  /** It always exists: whatever the inputs of an iteration, merging them shows every task what it saw. */
  lemma SeenHears(w: World, heart: int, inputs: seq<Input>)
    requires |inputs| == Span(w, heart)
    ensures Hears(Seen(w, heart, inputs), w, heart, inputs)
  {
    var (n, input) := (|TopJobs(w, heart)|, Seen(w, heart, inputs));
    ListenersDistinct(w, heart);
    if w.frame.ack != MAV_RESULT_ACCEPTED {
      HearsUncommanded(input, w, heart, inputs);
    } else if Unserved(w.frame.typ) {
      HearsCommanded(input, w, heart, inputs, [], []);
    } else {
      HearsCommanded(input, w, heart, inputs, ANNOUNCEMENTS, inputs[n + 7..n + 14]);
    }
  }
}
