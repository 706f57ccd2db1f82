/** The command handshake over the event loop: which tasks may be queued, and how far the command in flight has got. */
module Handshakes {
  import opened Features
  import opened SetPointStores
  import opened Transactions
  import opened ServicePasses
  import opened Messages
  import opened Traces
  import opened Worlds
  import opened Coherence
  import opened EventLoops
  import opened ReadyQueues

  // ---------- tasks that do not serve a command ----------

  /** What was wanted of focus mode stays wanted, and focus area is commanded only if `area` says it may be. */
  predicate Modest(t: Trace, t': Trace, area: bool) {
    && Recall(t, Focus).wanted <= Recall(t', Focus).wanted
    && (!area ==> EverCommanded(t', FocusArea) == EverCommanded(t, FocusArea))
  }

  /** The same point in the handshake, and no acknowledgement in between. */
  predicate Quietly(t: Trace, t': Trace) {
    PhaseOf(t') == PhaseOf(t) && Regular(t') == Regular(t)
  }

  /** Same frame, same owner field, same point in the handshake. */
  predicate Aside(w: World, w': World, area: bool) {
    && w'.frame == w.frame && w'.store.owner == w.store.owner && Quietly(w.trace, w'.trace)
    && Modest(w.trace, w'.trace, area)
  }

  /** An event of the camera side. */
  predicate OfCamera(e: Event) {
    e.Commanded? || e.Refused? || e.Echoed? || e.Learned? || e.TakenUp? || e.Missed? || e.ExtTakenUp?
  }

  lemma CameraEventAside(t: Trace, e: Event)
    requires OfCamera(e)
    ensures Quietly(t, Then(t, e)) && Modest(t, Then(t, e), e.Commanded? && e.f == FocusArea)
  {
  }

  lemma SettleAside(w: World, f: Feature, o: Outcome, code: Option<int>)
    ensures Aside(w, Settle(w, f, o, code), f == FocusArea)
  {
    if code.Some? {
      var told := Then(w.trace, Commanded(f, At(w.store.req, f), code.value));
      var echoed := Then(told, Echoed(f, At(w.store.req, f)));
      CameraEventAside(w.trace, told.last);
      CameraEventAside(told, Refused(f));
      CameraEventAside(told, echoed.last);
      CameraEventAside(echoed, Learned(f, ToSlot(At(w.store.req, f))));
    }
  }

  lemma {:induction false} TransactAllAside(w: World, fs: seq<Feature>, input: Input)
    ensures Aside(w, TransactAll(w, fs, input), FocusArea in fs)
    decreases |fs|
  {
    if fs != [] {
      var (f, a) := (fs[0], Answer(input, fs[0]));
      SettleAside(w, f, Verdict(w.store, f, a), CommandOf(f, At(w.store.req, f), Verdict(w.store, f, a)));
      TransactAllAside(Transact(w, f, a), fs[1..], input);
    }
  }

  lemma {:induction false} PollAllAside(w: World, fs: seq<Feature>, polls: Readings)
    ensures Aside(w, PollAll(w, fs, polls), false)
    decreases |fs|
  {
    if fs != [] {
      PollAllAside(Poll(w, fs[0], polls), fs[1..], polls);
    }
  }

  lemma {:induction false} PublishAllAside(w: World, fs: seq<Feature>, up: set<Feature>)
    ensures Aside(w, PublishAll(w, fs, up).0, false) && PublishAll(w, fs, up).1 != Spins
    decreases |fs|
  {
    if fs != [] {
      PublishAllAside(Publish(w, fs[0], fs[0] in up), fs[1..], up);
    }
  }

  lemma {:induction false} PublishExtAllAside(w: World, fs: seq<Feature>, up: set<Feature>)
    ensures Aside(w, PublishExtAll(w, fs, up), false)
    decreases |fs|
  {
    if fs != [] {
      PublishExtAllAside(PublishExt(w, fs[0], fs[0] in up), fs[1..], up);
    }
  }

  lemma LogReadAside(t: Trace, f: Feature, asked: set<Feature>, readings: Readings)
    ensures Quietly(t, LogRead(t, f, asked, readings)) && Modest(t, LogRead(t, f, asked, readings), false)
  {
    CameraEventAside(t, Missed(f));
    if f in readings {
      var learned := Then(t, Learned(f, ToSlot(readings[f])));
      CameraEventAside(t, learned.last);
      CameraEventAside(learned, TakenUp(f));
    }
  }

  lemma {:induction false} LogReadsAside(t: Trace, n: nat, asked: set<Feature>, readings: Readings)
    requires n <= |SERVICE_ORDER|
    ensures Quietly(t, LogReads(t, n, asked, readings)) && Modest(t, LogReads(t, n, asked, readings), false)
  {
    if n > 0 {
      LogReadsAside(t, n - 1, asked, readings);
      LogReadAside(LogReads(t, n - 1, asked, readings), SERVICE_ORDER[n - 1], asked, readings);
    }
  }

  lemma {:induction false} LogExtReadsAside(t: Trace, n: nat, asked: set<Feature>)
    requires n <= |SERVICE_ORDER|
    ensures Quietly(t, LogExtReads(t, n, asked)) && Modest(t, LogExtReads(t, n, asked), false)
  {
    if n > 0 {
      LogExtReadsAside(t, n - 1, asked);
    }
  }

  lemma ServiceAside(w: World, readings: Readings)
    ensures Aside(w, ServiceTurn(w, readings), false)
  {
    LogReadsAside(w.trace, |SERVICE_ORDER|, w.store.plain, readings);
    LogExtReadsAside(LogReads(w.trace, |SERVICE_ORDER|, w.store.plain, readings), |SERVICE_ORDER|, w.store.ext);
  }

  // ---------- the receiver ----------

  /** Between acknowledgements: a command is waiting exactly when the frame says "accepted", and it is the frame's. */
  predicate Linked(w: World) {
    PhaseOf(w.trace) == if w.frame.ack == MAV_RESULT_ACCEPTED then Waiting(w.frame.rcv, w.frame.rpm2) else Free
  }

  /** What a receiver may do to the frame: an accepted command stays as it is. */
  predicate SlotKept(fr: Frame, fr': Frame) {
    && fr'.taskControl == fr.taskControl
    && (fr.ack == MAV_RESULT_ACCEPTED ==> (fr'.rcv, fr'.rpm2, fr'.typ, fr'.ack) == (fr.rcv, fr.rpm2, fr.typ, fr.ack))
  }

  lemma DeliverLinked(w: World, m: Message)
    requires Linked(w)
    ensures Linked(Deliver(w, m)) && SlotKept(w.frame, Deliver(w, m).frame)
    ensures Deliver(w, m).store.owner == STATE_INIT <==> w.store.owner == STATE_INIT
    ensures Regular(Deliver(w, m).trace) == Regular(w.trace)
  {
    OneSlot(w.store, w.frame, m);
  }

  lemma {:induction false} ReceivingLinked(w: World, msgs: seq<Message>, budget: nat)
    requires Linked(w)
    ensures var (w', end) := Receiving(w, msgs, budget);
            Linked(w') && SlotKept(w.frame, w'.frame) && end != Spins
            && (w'.store.owner == STATE_INIT <==> w.store.owner == STATE_INIT)
            && Regular(w'.trace) == Regular(w.trace)
    decreases budget
  {
    if budget > 0 && msgs != [] {
      DeliverLinked(w, msgs[0]);
      ReceivingLinked(Deliver(w, msgs[0]), msgs[1..], budget - 1);
    }
  }

  /** A task other than those main creates to serve a command. */
  predicate Worker(job: Job) {
    !job.Acknowledge? && !job.Process? && !job.ErrorHandler?
  }

  /** While such tasks run, the handshake moves only by the receiver taking a command into the empty slot. */
  lemma WorkerLinked(w: World, job: Job, input: Input)
    requires Worker(job) && Linked(w)
    ensures var (w', end) := RunJob(w, job, input);
            Linked(w') && SlotKept(w.frame, w'.frame) && end != Spins
            && (w'.store.owner == STATE_INIT <==> w.store.owner == STATE_INIT)
            && Regular(w'.trace) == Regular(w.trace)
  {
    match job
    case Receive => ReceivingLinked(w, input.msgs, MESSAGES_PER_TASK);
    case Heartbeat =>
    case Service => ServiceAside(w, input.readings);
    case Camera(g) =>
      var w1 := WithRunning(w, RunningCode(g));
      TransactAllAside(w1, Members(g), input);
      PollAllAside(TransactAll(w1, Members(g), input), Members(g), input.polls);
    case Announce(g) =>
      PublishAllAside(w, Members(g), input.up);
      PublishExtAllAside(PublishAll(w, Members(g), input.up).0, Members(g), input.extUp);
  }

  lemma DeliverModest(w: World, m: Message)
    ensures Modest(w.trace, Deliver(w, m).trace, false)
  {
    HistoryOfMessage(w.store, w.frame, m, w.trace, Focus);
    EventOfMessage(w.store, w.frame, m, Focus);
  }

  lemma {:induction false} ReceivingModest(w: World, msgs: seq<Message>, budget: nat)
    ensures Modest(w.trace, Receiving(w, msgs, budget).0.trace, false) && Receiving(w, msgs, budget).1 != Spins
    decreases budget
  {
    if budget > 0 && msgs != [] {
      DeliverModest(w, msgs[0]);
      ReceivingModest(Deliver(w, msgs[0]), msgs[1..], budget - 1);
    }
  }

  lemma EventModest(t: Trace, e: Event)
    requires e.Acked? || e.Handled? || e.ProcessDied? || e.TurnedDown?
    ensures Modest(t, Then(t, e), false)
  {
  }

  lemma ServingModest(w: World, job: Job, input: Input)
    requires job.Heartbeat? || job.Acknowledge? || job.Process? || job.ErrorHandler?
    ensures Modest(w.trace, RunJob(w, job, input).0.trace, false)
  {
    var t := RunJob(w, job, input).0.trace;
    if t != w.trace {
      EventModest(w.trace, t.last);
    }
  }

  lemma JobModest(w: World, job: Job, input: Input)
    ensures Modest(w.trace, RunJob(w, job, input).0.trace, job == Camera(GFocus))
  {
    match job
    case Receive => ReceivingModest(w, input.msgs, MESSAGES_PER_TASK);
    case Service => ServiceAside(w, input.readings);
    case Camera(g) =>
      var w1 := WithRunning(w, RunningCode(g));
      TransactAllAside(w1, Members(g), input);
      PollAllAside(TransactAll(w1, Members(g), input), Members(g), input.polls);
    case Announce(g) =>
      PublishAllAside(w, Members(g), input.up);
      PublishExtAllAside(PublishAll(w, Members(g), input.up).0, Members(g), input.extUp);
    case _ => ServingModest(w, job, input);
  }

  lemma OnlyErrorHandlerSpins(w: World, job: Job, input: Input)
    requires job != ErrorHandler
    ensures RunJob(w, job, input).1 != Spins
  {
    match job
    case Receive => ReceivingModest(w, input.msgs, MESSAGES_PER_TASK);
    case Announce(g) => PublishAllAside(w, Members(g), input.up);
    case _ =>
  }

  // ---------- which tasks are queued ----------

  predicate Work(q: seq<Handle>) {
    forall i | 0 <= i < |q| :: q[i].Start? ==> Worker(q[i].job)
  }

  predicate InFlight(w: World) {
    PhaseOf(w.trace) == Begun(w.frame.rcv, w.frame.rpm2)
  }

  /** The frame holds the result the command ended with. */
  predicate Finished(w: World) {
    PhaseOf(w.trace) == Closing(w.frame.rcv, w.frame.rpm2, w.frame.ack)
  }

  /** Waiting for the first acknowledgement: it is the last task queued, or it has gone out and nothing is queued. */
  predicate FirstAckFits(w: World, q: seq<Handle>) {
    && w.frame.ack == MAV_RESULT_ACCEPTED
    && q != []
    && if q[|q| - 1].Wake? then q == [Wake] && InFlight(w)
       else q[|q| - 1].job == Acknowledge(w.frame.rcv, w.frame.rpm2, 0, w.frame.ack) && Work(q[..|q| - 1]) && Linked(w)
  }

  /**
   * The processing task runs before the error handler. If it ends normally the error handler finds task_control_1 at
   * 0; if it dies the error handler finds it still up, and main is never woken.
   */
  predicate ProcessFits(w: World, q: seq<Handle>) {
    && q != []
    && if q[0].Start? && q[0].job == Process then
         && InFlight(w) && w.frame.ack == MAV_RESULT_ACCEPTED && w.frame.taskControl > 0
         && |q| == 2 && q[1].Start? && q[1].job == ErrorHandler
       else if q[0].Start? then
         q[0].job == ErrorHandler && q[1..] == [Wake]
         && (if w.frame.taskControl > 0 then PhaseOf(w.trace).Lost? && !PhaseOf(w.trace).told
             else Finished(w) && w.frame.taskControl == 0)
       else q == [Wake] && Finished(w) && w.frame.taskControl == 0
  }

  predicate SecondAckFits(w: World, q: seq<Handle>) {
    && w.frame.taskControl == 0 && q != []
    && if q[0].Wake? then q == [Wake] && PhaseOf(w.trace) == Free
       else Finished(w) && |q| == 1 && q[0].job == Acknowledge(w.frame.rcv, w.frame.rpm2, 100, w.frame.ack)
  }

  predicate Fits(w: World, q: seq<Handle>, pc: Pc) {
    && (pc == BootDone <==> w.store.owner == STATE_INIT)
    && match pc
       case AfterAck0 => FirstAckFits(w, q) && w.frame.taskControl == 0
       case AfterProcess => ProcessFits(w, q)
       case AfterAck100 => SecondAckFits(w, q)
       case _ => Work(q) && Linked(w) && w.frame.taskControl == 0
  }

  /** Which task main waits for: the acknowledgement is the last one created, the processing task the last but one. */
  predicate WaitsFor(ids: seq<nat>, next: nat, pc: Pc) {
    && ids != []
    && (pc == AfterAck0 ==> ids[0] == next - 1)
    && (pc == AfterProcess ==> ids[0] == next - 2)
  }

  /** The loop hangs, or is about to, only over a command whose processing died. */
  predicate LoopFits(l: Loop) {
    && PhaseOf(l.world.trace) != Broken
    && (l.ctl.Suspended? ==> Fits(l.world, l.queue, l.ctl.pc) && WaitsFor(l.ctl.ids, l.next, l.ctl.pc))
    && (l.ctl == Hung ==> PhaseOf(l.world.trace).Lost?)
    && (l.ctl == Stopped ==> !PhaseOf(l.world.trace).Lost?)
  }

  // ---------- a task runs ----------

  function Tail(q: seq<Handle>, woken: bool): seq<Handle>
    requires q != []
  {
    q[1..] + if woken then [Wake] else []
  }

  lemma FirstAckStep(w: World, q: seq<Handle>, input: Input)
    requires FirstAckFits(w, q) && q[0].Start?
    ensures var (w', end) := RunJob(w, q[0].job, input);
            FirstAckFits(w', Tail(q, |q| == 1)) && w'.frame.taskControl == w.frame.taskControl && end != Spins
            && (w'.store.owner == STATE_INIT <==> w.store.owner == STATE_INIT)
  {
    if |q| > 1 {
      assert q[..|q| - 1][0] == q[0];
      WorkerLinked(w, q[0].job, input);
      var (w', q') := (RunJob(w, q[0].job, input).0, Tail(q, false));
      assert q'[|q'| - 1] == q[|q| - 1];
      assert q'[..|q'| - 1] == q[..|q| - 1][1..];
    }
  }

  /** The step of the processing task and the step of the error handler, each with its two ways to end. */
  lemma ProcessStep(w: World, q: seq<Handle>, input: Input)
    requires ProcessFits(w, q) && q[0].Start?
    ensures var ((w', end), job) := (RunJob(w, q[0].job, input), q[0].job);
            && w'.store == w.store
            && (end != Spins ==> ProcessFits(w', Tail(q, job == Process)))
            && (end == Spins <==> job == ErrorHandler && PhaseOf(w.trace).Lost?)
            && (end == Spins ==> w' == Rejecting(w) && PhaseOf(w'.trace).Lost?)
            && (job == Process ==> (PhaseOf(w'.trace).Lost? <==> Unserved(w.frame.typ)))
  {
    if q[0].job == Process {
      assert Tail(q, true) == [q[1], Wake];
    }
  }

  lemma SecondAckStep(w: World, q: seq<Handle>, input: Input)
    requires SecondAckFits(w, q) && q[0].Start?
    ensures var (w', end) := RunJob(w, q[0].job, input);
            SecondAckFits(w', Tail(q, true)) && end != Spins && w'.store == w.store
  {
  }

  lemma WorkStep(w: World, q: seq<Handle>, woken: bool, input: Input)
    requires Work(q) && q != [] && q[0].Start? && Linked(w)
    ensures var (w', end) := RunJob(w, q[0].job, input);
            Work(Tail(q, woken)) && Linked(w') && w'.frame.taskControl == w.frame.taskControl && end != Spins
            && (w'.store.owner == STATE_INIT <==> w.store.owner == STATE_INIT)
  {
    WorkerLinked(w, q[0].job, input);
    var q' := Tail(q, woken);
    forall i | 0 <= i < |q'| && q'[i].Start?
      ensures Worker(q'[i].job)
    {
      assert q'[i] == q[i + 1];
    }
  }

  lemma TaskStepFits(l: Loop, input: Input)
    requires LoopFits(l) && Fifo(l) && l.ctl.Suspended? && l.queue != [] && l.queue[0].Start?
    ensures LoopFits(AfterTask(l, l.queue[0].id, RunJob(l.world, l.queue[0].job, input).0,
        RunJob(l.world, l.queue[0].job, input).1))
  {
    var (w, q, pc) := (l.world, l.queue, l.ctl.pc);
    var woken := Awaits(l.ctl, q[0].id);
    assert q[0].id == l.next - StartCount(q);
    match pc
    case AfterAck0 => FirstAckStep(w, q, input);
    case AfterProcess => ProcessStep(w, q, input);
    case AfterAck100 => SecondAckStep(w, q, input);
    case _ => WorkStep(w, q, woken, input);
  }

  // ---------- main runs ----------

  lemma StartsWork(next: nat, jobs: seq<Job>)
    requires forall i | 0 <= i < |jobs| :: Worker(jobs[i])
    ensures Work(Starts(next, jobs))
  {
  }

  lemma {:induction false} DueCamerasWork(s: Store, gs: seq<Group>)
    ensures forall i | 0 <= i < |DueCameras(s, gs)| :: Worker(DueCameras(s, gs)[i])
  {
    if gs != [] {
      DueCamerasWork(s, gs[1..]);
    }
  }

  lemma TopJobsWork(w: World, heart: int)
    ensures forall i | 0 <= i < |TopJobs(w, heart)| :: Worker(TopJobs(w, heart)[i])
  {
    DueCamerasWork(w.store, CAMERA_ORDER);
  }

  /** Between iterations and before announcing: nothing of a command is left over. */
  predicate Calm(w: World) {
    Linked(w) && w.frame.taskControl == 0 && w.store.owner != STATE_INIT
  }

  lemma AcknowledgingFits(l: Loop)
    requires Calm(l.world) && Work(l.queue) && l.world.frame.ack == MAV_RESULT_ACCEPTED
    ensures LoopFits(Dispatch(l))
  {
    var fr := l.world.frame;
    var ack := Acknowledge(fr.rcv, fr.rpm2, 0, fr.ack);
    var q := l.queue + Starts(l.next, [ack]);
    assert q[..|q| - 1] == l.queue && q[|q| - 1] == Start(l.next, ack);
  }

  lemma AnnouncingFits(l: Loop)
    requires Calm(l.world) && Work(l.queue)
    ensures LoopFits(SpawnAndAwait(l, ANNOUNCEMENTS, AnnouncementsDone))
  {
    StartsWork(l.next, ANNOUNCEMENTS);
  }

  lemma TopFits(l: Loop)
    requires Calm(l.world) && l.queue == []
    ensures LoopFits(Top(l))
  {
    TopJobsWork(l.world, l.heart);
    StartsWork(l.next, TopJobs(l.world, l.heart));
    assert Created(l).queue == Starts(l.next, TopJobs(l.world, l.heart));
    if l.world.frame.ack == MAV_RESULT_ACCEPTED {
      AcknowledgingFits(Created(l));
    } else {
      AnnouncingFits(Created(l));
    }
  }

  lemma AfterProcessFits(l: Loop)
    requires Fits(l.world, [Wake], AfterProcess) && l.queue == []
    ensures LoopFits(Continue(l, AfterProcess))
  {
    assert Continue(l, AfterProcess).queue[0].Start?;
  }

  lemma AfterAck0Fits(l: Loop)
    requires Fits(l.world, [Wake], AfterAck0) && l.queue == []
    ensures LoopFits(Continue(l, AfterAck0))
  {
    assert Continue(l, AfterAck0).queue == [Start(l.next, Process), Start(l.next + 1, ErrorHandler)];
  }

  lemma AfterAck100Fits(l: Loop)
    requires Fits(l.world, [Wake], AfterAck100) && l.queue == []
    ensures LoopFits(Continue(l, AfterAck100))
  {
    AnnouncingFits(WithFrame(l, l.world.frame.(rcv := 0, ack := ACK_ALL_DATA_COMPLETE)));
  }

  lemma BootDoneFits(l: Loop)
    requires Fits(l.world, [Wake], BootDone) && l.queue == []
    ensures LoopFits(Continue(l, BootDone))
  {
    TopFits(l.(world := l.world.(store := InitClassState(l.world.store))));
  }

  lemma AwaitServiceFits(l: Loop)
    requires Calm(l.world) && Rested(l) && l.servicer < l.next
    ensures LoopFits(AwaitService(l))
  {
    assert [l.servicer][0] in l.ended;
    AwaitAllEnded([l.servicer], l.ended);
    TopFits(l);
  }

  lemma IterationDoneFits(l: Loop)
    requires Fits(l.world, [Wake], AnnouncementsDone) && Rested(l) && TasksKnown(l)
    ensures LoopFits(AwaitService(EndIteration(l)))
  {
    CancelIdle(l);
    AwaitServiceFits(EndIteration(l));
  }

  lemma ContinueFits(l: Loop, pc: Pc)
    requires Fits(l.world, [Wake], pc) && Rested(l) && TasksKnown(l)
    ensures LoopFits(Continue(l, pc))
  {
    match pc
    case BootDone => BootDoneFits(l);
    case AfterAck0 => AfterAck0Fits(l);
    case AfterProcess => AfterProcessFits(l);
    case AfterAck100 => AfterAck100Fits(l);
    case AnnouncementsDone => IterationDoneFits(l);
    case ServiceDone => TopFits(l);
  }

  lemma StepFits(l: Loop, input: Input)
    requires LoopFits(l) && Fifo(l) && TasksKnown(l)
    ensures LoopFits(Step(l, input))
  {
    if l.ctl.Suspended? {
      RunToCompletion(l);
      match l.queue[0]
      case Start(id, job) => TaskStepFits(l, input);
      case Wake =>
        var l1 := l.(queue := l.queue[1..]);
        assert Rested(l1);
        AwaitAllEnded(l.ctl.ids, l.ended);
        ContinueFits(l1, l.ctl.pc);
    }
  }
}
