/** Why the publishers send: every message follows a request, a reported value or a missed read that is newer. */
module Occasions {
  import opened Features
  import opened SetPointStores
  import opened ServicePasses
  import opened Messages
  import opened Traces
  import opened Worlds
  import opened Coherence
  import opened EventLoops
  import opened ReadyQueues
  import opened Stopping
  import opened Runs

  // ---------- what a trace says ----------

  /** A request for the feature or a value the camera reported is newer than its last PARAM_VALUE. */
  predicate Prompted(t: Trace, f: Feature) {
    t.Then?
    && match t.last
       case Published(g, _) => g != f && Prompted(t.before, f)
       case Asked(g) => g == f || Prompted(t.before, f)
       case AskedAll => true
       case ExtAsked(g) => g == f || Prompted(t.before, f)
       case ExtAskedAll => true
       case Learned(g, _) => g == f || Prompted(t.before, f)
       case _ => Prompted(t.before, f)
  }

  /** A read of an asked feature that failed is newer than its last PARAM_VALUE. */
  predicate Retried(t: Trace, f: Feature) {
    t.Then?
    && match t.last
       case Published(g, _) => g != f && Retried(t.before, f)
       case Missed(g) => g == f || Retried(t.before, f)
       case _ => Retried(t.before, f)
  }

  /** The event says nothing new, or it is a message with an occasion newer than the previous message. */
  predicate Occasioned(t: Trace, e: Event) {
    match e
    case Published(f, _) => Prompted(t, f) || Retried(t, f)
    case ExtPublished(f, _) => Recall(t, f).extOpen
    case _ => true
  }

  predicate AllOccasioned(t: Trace) {
    t.Then? ==> AllOccasioned(t.before) && Occasioned(t.before, t.last)
  }

  predicate IsMessage(e: Event) {
    e.Published? || e.ExtPublished?
  }

  /** No message of a feature goes out while an ext request for it waits for a service pass. */
  predicate Orderly(t: Trace) {
    t.Then? ==> Orderly(t.before) && (IsMessage(t.last) ==> !Recall(t.before, t.last.f).extUnread)
  }

  /** What is due has its occasion. */
  predicate Founded(t: Trace, f: Feature) {
    var h := Recall(t, f);
    && (h.extUnread ==> Prompted(t, f) && h.extOpen)
    && (h.due ==> Prompted(t, f) || Retried(t, f))
    && (h.extDue ==> h.extOpen)
  }

  lemma RememberExt(h: History, e: Event, f: Feature)
    ensures var h' := Remember(h, e, f);
            && h'.extUnread == (e == ExtAsked(f) || e == ExtAskedAll || (e != ExtTakenUp(f) && h.extUnread))
            && h'.extOpen == (e == ExtAsked(f) || e == ExtAskedAll || (!(e.ExtPublished? && e.f == f) && h.extOpen))
            && h'.extDue == (e == ExtTakenUp(f) || (!(e.ExtPublished? && e.f == f) && h.extDue))
  {
  }

  lemma RememberDue(h: History, e: Event, f: Feature)
    ensures Remember(h, e, f).due
            == (e == Missed(f) || e == ExtTakenUp(f) || (e.Learned? && e.f == f)
                          || (!(e.Published? && e.f == f) && h.due))
  {
  }

  lemma PromptedOn(t: Trace, e: Event, f: Feature)
    ensures Prompted(Then(t, e), f)
            <==> IsPrompt(e, f) || (!(e.Published? && e.f == f) && Prompted(t, f))
    ensures Retried(Then(t, e), f) <==> e == Missed(f) || (!(e.Published? && e.f == f) && Retried(t, f))
  {
  }

  lemma FoundedOn(t: Trace, e: Event, f: Feature)
    requires Founded(t, f) && Justified(t, e) && (IsMessage(e) ==> !Recall(t, e.f).extUnread)
    ensures Founded(Then(t, e), f)
  {
    RememberExt(Recall(t, f), e, f);
    RememberDue(Recall(t, f), e, f);
    PromptedOn(t, e, f);
  }

  lemma {:induction false} DueIsFounded(t: Trace, f: Feature)
    requires Sound(t) && Orderly(t)
    ensures Founded(t, f)
  {
    if t.Then? {
      DueIsFounded(t.before, f);
      FoundedOn(t.before, t.last, f);
    }
  }

  lemma {:induction false} OrderlyOccasions(t: Trace)
    requires Sound(t) && Orderly(t)
    ensures AllOccasioned(t)
  {
    if t.Then? {
      OrderlyOccasions(t.before);
      if IsMessage(t.last) {
        DueIsFounded(t.before, t.last.f);
      }
    }
  }

  /** How often PARAM_VALUE was sent for the feature, was asked for or had a new value, and a read of it failed. */
  function MessagesSent(t: Trace, f: Feature): nat {
    match t
    case Silence => 0
    case Then(before, e) => MessagesSent(before, f) + if e.Published? && e.f == f then 1 else 0
  }

  function Prompts(t: Trace, f: Feature): nat {
    match t
    case Silence => 0
    case Then(before, e) => Prompts(before, f) + if IsPrompt(e, f) then 1 else 0
  }

  function Misses(t: Trace, f: Feature): nat {
    match t
    case Silence => 0
    case Then(before, e) => Misses(before, f) + if e == Missed(f) then 1 else 0
  }

  predicate IsPrompt(e: Event, f: Feature) {
    e == Asked(f) || e == AskedAll || e == ExtAsked(f) || e == ExtAskedAll || (e.Learned? && e.f == f)
  }

  lemma {:induction false} MessagesBounded(t: Trace, f: Feature)
    requires AllOccasioned(t)
    ensures MessagesSent(t, f) + (if Prompted(t, f) || Retried(t, f) then 1 else 0) <= Prompts(t, f) + Misses(t, f)
  {
    if t.Then? {
      MessagesBounded(t.before, f);
      PromptedOn(t.before, t.last, f);
    }
  }

  // ---------- tasks that send nothing ----------

  lemma {:induction false} ReceivingOrderly(w: World, msgs: seq<Message>, budget: nat)
    requires Orderly(w.trace)
    ensures Orderly(Receiving(w, msgs, budget).0.trace)
    decreases budget
  {
    if budget > 0 && msgs != [] {
      EventOfMessage(w.store, w.frame, msgs[0], Iso);
      ReceivingOrderly(Deliver(w, msgs[0]), msgs[1..], budget - 1);
    }
  }

  lemma {:induction false} ReadsOrderly(t: Trace, n: nat, plain: set<Feature>, readings: Readings)
    requires n <= |SERVICE_ORDER| && Orderly(t)
    ensures Orderly(LogReads(t, n, plain, readings))
  {
    if n > 0 {
      ReadsOrderly(t, n - 1, plain, readings);
    }
  }

  lemma {:induction false} ExtReadsOrderly(t: Trace, n: nat, ext: set<Feature>)
    requires n <= |SERVICE_ORDER| && Orderly(t)
    ensures Orderly(LogExtReads(t, n, ext))
  {
    if n > 0 {
      ExtReadsOrderly(t, n - 1, ext);
    }
  }

  /** A service pass leaves no ext request behind. */
  lemma ServiceOrderly(w: World, readings: Readings)
    requires Good(w) && Orderly(w.trace)
    ensures Orderly(ServiceTurn(w, readings).trace) && ServiceTurn(w, readings).store.ext == {}
  {
    ReadsOrderly(w.trace, |SERVICE_ORDER|, w.store.plain, readings);
    ExtReadsOrderly(LogReads(w.trace, |SERVICE_ORDER|, w.store.plain, readings), |SERVICE_ORDER|, w.store.ext);
    forall f: Feature
      ensures f !in ServiceTurn(w, readings).store.ext
    {
      assert Agrees(KnobOf(w, f), Recall(w.trace, f));
      PassExact(Served(w.store.plain, w.store.ext, w.cache), readings, f);
    }
  }

  lemma {:induction false} TransactAllOrderly(w: World, fs: seq<Feature>, input: Input)
    requires Orderly(w.trace)
    ensures Orderly(TransactAll(w, fs, input).trace) && TransactAll(w, fs, input).store.ext == w.store.ext
    decreases |fs|
  {
    if fs != [] {
      TransactAllOrderly(Transact(w, fs[0], Answer(input, fs[0])), fs[1..], input);
    }
  }

  lemma {:induction false} PollAllOrderly(w: World, fs: seq<Feature>, polls: Readings)
    requires Orderly(w.trace)
    ensures Orderly(PollAll(w, fs, polls).trace)
    decreases |fs|
  {
    if fs != [] {
      PollAllOrderly(Poll(w, fs[0], polls), fs[1..], polls);
    }
  }

  lemma CameraOrderly(w: World, g: Group, input: Input)
    requires Orderly(w.trace)
    ensures Orderly(CameraTurn(w, g, input).trace) && CameraTurn(w, g, input).store.ext == w.store.ext
  {
    var w1 := WithRunning(w, RunningCode(g));
    TransactAllOrderly(w1, Members(g), input);
    PollAllOrderly(TransactAll(w1, Members(g), input), Members(g), input.polls);
    PollAllStore(TransactAll(w1, Members(g), input), Members(g), input.polls);
  }

  // ---------- publishers ----------

  lemma {:induction false} PublishAllOrderly(w: World, fs: seq<Feature>, up: set<Feature>)
    requires Good(w) && Orderly(w.trace) && w.store.ext == {}
    ensures Orderly(PublishAll(w, fs, up).0.trace)
    decreases |fs|
  {
    if fs != [] {
      assert Agrees(KnobOf(w, fs[0]), Recall(w.trace, fs[0]));
      PublishGood(w, fs[0], fs[0] in up);
      PublishAllOrderly(Publish(w, fs[0], fs[0] in up), fs[1..], up);
    }
  }

  lemma {:induction false} PublishExtAllOrderly(w: World, fs: seq<Feature>, up: set<Feature>)
    requires Good(w) && Orderly(w.trace) && w.store.ext == {}
    ensures Orderly(PublishExtAll(w, fs, up).trace)
    decreases |fs|
  {
    if fs != [] {
      assert Agrees(KnobOf(w, fs[0]), Recall(w.trace, fs[0]));
      PublishExtGood(w, fs[0], fs[0] in up);
      PublishExtAllOrderly(PublishExt(w, fs[0], fs[0] in up), fs[1..], up);
    }
  }

  lemma AnnounceOrderly(w: World, g: Group, input: Input)
    requires Good(w) && Orderly(w.trace) && w.store.ext == {}
    ensures Orderly(PublishTurn(w, g, input).0.trace) && PublishTurn(w, g, input).0.store == w.store
  {
    var w1 := PublishAll(w, Members(g), input.up).0;
    PublishAllOrderly(w, Members(g), input.up);
    PublishAllGood(w, Members(g), input.up);
    PublishAllStore(w, Members(g), input.up);
    PublishExtAllOrderly(w1, Members(g), input.extUp);
    PublishExtAllStore(w1, Members(g), input.extUp);
  }

  // ---------- the queue ----------

  /** `waiting` once the task has run: the receiver may record ext requests, a service pass takes them all up. */
  function Leaves(job: Job, waiting: bool): bool {
    job.Receive? || (waiting && !job.Service?)
  }

  /** Between a receiver and the next publisher, and before main runs, the queue holds a service pass. */
  predicate Guarded(q: seq<Handle>, waiting: bool)
    decreases |q|
  {
    if q == [] then !waiting
    else if q[0].Wake? then Guarded(q[1..], waiting)
    else (q[0].job.Announce? ==> !waiting) && Guarded(q[1..], Leaves(q[0].job, waiting))
  }

  predicate ExtWaits(w: World) {
    w.store.ext != {}
  }

  predicate Guards(l: Loop) {
    Orderly(l.world.trace) && (l.ctl.Suspended? ==> Guarded(l.queue, ExtWaits(l.world)))
  }

  lemma JobOrderly(w: World, job: Job, input: Input)
    requires Good(w) && Orderly(w.trace) && (job.Announce? ==> !ExtWaits(w))
    ensures var w' := RunJob(w, job, input).0;
            Orderly(w'.trace) && (ExtWaits(w') ==> Leaves(job, ExtWaits(w)))
  {
    match job
    case Receive => ReceivingOrderly(w, input.msgs, MESSAGES_PER_TASK);
    case Service => ServiceOrderly(w, input.readings);
    case Camera(g) => CameraOrderly(w, g, input);
    case Announce(g) => AnnounceOrderly(w, g, input);
    case _ =>
  }

  lemma {:induction false} GuardedLess(q: seq<Handle>)
    requires Guarded(q, true)
    ensures Guarded(q, false)
    decreases |q|
  {
    if q[0].Wake? || Leaves(q[0].job, true) {
      GuardedLess(q[1..]);
    }
  }

  lemma {:induction false} GuardedAppend(q: seq<Handle>, waiting: bool, more: seq<Handle>)
    requires Guarded(q, waiting) && Guarded(more, false)
    ensures Guarded(q + more, waiting)
    decreases |q|
  {
    if q == [] {
      assert q + more == more;
    } else {
      assert (q + more)[0] == q[0] && (q + more)[1..] == q[1..] + more;
      GuardedAppend(q[1..], if q[0].Wake? then waiting else Leaves(q[0].job, waiting), more);
    }
  }

  lemma WakeGuarded(waiting: bool)
    requires Guarded([Wake], waiting)
    ensures !waiting
  {
    assert [Wake][1..] == [];
  }

  lemma {:induction false} HarmlessGuarded(next: nat, jobs: seq<Job>)
    requires forall i | 0 <= i < |jobs| :: !jobs[i].Receive?
    ensures Guarded(Starts(next, jobs), false)
    decreases |jobs|
  {
    if jobs != [] {
      HarmlessGuarded(next + 1, jobs[1..]);
    }
  }

  lemma {:induction false} CamerasHarmless(s: Store, gs: seq<Group>)
    ensures forall i | 0 <= i < |DueCameras(s, gs)| :: !DueCameras(s, gs)[i].Receive?
    decreases |gs|
  {
    if gs != [] {
      CamerasHarmless(s, gs[1..]);
    }
  }

  lemma StartsFirst(next: nat, job: Job, jobs: seq<Job>)
    ensures Starts(next, [job] + jobs) == [Start(next, job)] + Starts(next + 1, jobs)
  {
    assert ([job] + jobs)[1..] == jobs;
  }

  /** The receiver created at the top has its service pass behind it. */
  lemma TopGuarded(next: nat, w: World, heart: int)
    ensures Guarded(Starts(next, TopJobs(w, heart)), false)
  {
    var cameras := if w.store.running == FUNC_IDLE then DueCameras(w.store, CAMERA_ORDER) else [];
    CamerasHarmless(w.store, CAMERA_ORDER);
    var pass := [Service] + cameras;
    if heart == 0 {
      assert TopJobs(w, heart) == [Receive] + ([Heartbeat] + pass);
      StartsFirst(next, Receive, [Heartbeat] + pass);
      StartsFirst(next + 1, Heartbeat, pass);
      StartsFirst(next + 2, Service, cameras);
      HarmlessGuarded(next + 3, cameras);
    } else {
      assert TopJobs(w, heart) == [Receive] + pass;
      StartsFirst(next, Receive, pass);
      StartsFirst(next + 1, Service, cameras);
      HarmlessGuarded(next + 2, cameras);
    }
  }

  // ---------- every step ----------

  lemma SpawnGuarded(l: Loop, jobs: seq<Job>, pc: Pc)
    requires Orderly(l.world.trace) && Guarded(l.queue, ExtWaits(l.world))
    requires forall i | 0 <= i < |jobs| :: !jobs[i].Receive?
    ensures Guards(SpawnAndAwait(l, jobs, pc))
  {
    HarmlessGuarded(l.next, jobs);
    GuardedAppend(l.queue, ExtWaits(l.world), Starts(l.next, jobs));
  }

  lemma TopGuards(l: Loop)
    requires Orderly(l.world.trace) && !ExtWaits(l.world) && l.queue == []
    ensures Guards(Top(l))
  {
    TopGuarded(l.next, l.world, l.heart);
    var fr := l.world.frame;
    assert Created(l).queue == Starts(l.next, TopJobs(l.world, l.heart));
    SpawnGuarded(Created(l), [Acknowledge(fr.rcv, fr.rpm2, 0, fr.ack)], AfterAck0);
    SpawnGuarded(Created(l), ANNOUNCEMENTS, AnnouncementsDone);
  }

  lemma ContinueGuards(l: Loop, pc: Pc)
    requires Rested(l) && TasksKnown(l) && Orderly(l.world.trace) && !ExtWaits(l.world)
    ensures Guards(Continue(l, pc))
  {
    var fr := l.world.frame;
    match pc
    case BootDone => TopGuards(l.(world := l.world.(store := InitClassState(l.world.store))));
    case AfterAck0 => SpawnGuarded(WithFrame(l, fr.(taskControl := 1)), [Process, ErrorHandler], AfterProcess);
    case AfterProcess => SpawnGuarded(l, [Acknowledge(fr.rcv, fr.rpm2, 100, fr.ack)], AfterAck100);
    case AfterAck100 =>
      SpawnGuarded(WithFrame(l, fr.(rcv := 0, ack := ACK_ALL_DATA_COMPLETE)), ANNOUNCEMENTS, AnnouncementsDone);
    case AnnouncementsDone =>
      CancelIdle(l);
      TopGuards(EndIteration(l));
    case ServiceDone => TopGuards(l);
  }

  lemma TaskGuards(l: Loop, w: World, end: End)
    requires l.ctl.Suspended? && l.queue != [] && l.queue[0].Start? && Guarded(l.queue, ExtWaits(l.world))
    requires Orderly(w.trace) && (ExtWaits(w) ==> Leaves(l.queue[0].job, ExtWaits(l.world)))
    ensures Guards(AfterTask(l, l.queue[0].id, w, end))
  {
    if end != Spins {
      var woken := if Awaits(l.ctl, l.queue[0].id) then [Wake] else [];
      if !ExtWaits(w) && Leaves(l.queue[0].job, ExtWaits(l.world)) {
        GuardedLess(l.queue[1..]);
      }
      GuardedAppend(l.queue[1..], ExtWaits(w), woken);
    }
  }

  lemma StepGuards(l: Loop, input: Input)
    requires Steady(l) && Guards(l)
    ensures Guards(Step(l, input))
  {
    if l.ctl.Suspended? {
      RunToCompletion(l);
      match l.queue[0]
      case Start(id, job) =>
        JobOrderly(l.world, job, input);
        TaskGuards(l, RunJob(l.world, job, input).0, RunJob(l.world, job, input).1);
      case Wake =>
        WakeFate(l, input);
        RestedAtWake(l);
        WakeGuarded(ExtWaits(l.world));
        ContinueGuards(l.(queue := []), l.ctl.pc);
    }
  }

  // ---------- runs ----------

  lemma {:induction false} FirstReadsOrderly(w: World, fs: seq<Feature>, readings: Readings)
    requires Orderly(w.trace)
    ensures Orderly(FirstReads(w, fs, readings).trace)
    decreases |fs|
  {
    if fs != [] {
      FirstReadsOrderly(FirstRead(w, fs[0], readings), fs[1..], readings);
    }
  }

  lemma BootGuards(first: Readings, second: Readings)
    ensures Guards(Boot(first, second))
  {
    FirstReadsOrderly(NEW_WORLD, INIT_ORDER, first);
    PollAllOrderly(FirstReads(NEW_WORLD, INIT_ORDER, first), INIT_ORDER, second);
    FirstWorldGood(first, second);
    SpawnGuarded(Loop(FirstWorld(first, second), [], map[], Stopped, 0, 0, 0, 0), ANNOUNCEMENTS, BootDone);
  }

  lemma BootedGuards(l: Loop)
    requires Booted(l)
    ensures Guards(l)
  {
    var first, second :| l == Boot(first, second);
    BootGuards(first, second);
  }

  lemma {:induction false} StepsGuard(run: seq<Loop>, inputs: seq<Input>, n: nat)
    requires Follows(run, inputs) && Steady(run[0]) && Guards(run[0]) && n <= |inputs|
    ensures Steady(run[n]) && Guards(run[n])
  {
    if n > 0 {
      StepsGuard(run, inputs, n - 1);
      StepGuards(run[n - 1], inputs[n - 1]);
      StepSteady(run[n - 1], inputs[n - 1]);
    }
  }

  lemma ReachableGuards(l: Loop)
    requires Reachable(l)
    ensures Steady(l) && Guards(l)
  {
    var run, inputs :| IsRun(run, inputs) && l in run;
    var n: nat :| n < |run| && l == run[n];
    BootedSteady(run[0]);
    BootedGuards(run[0]);
    StepsGuard(run, inputs, n);
  }

  /**
   * In every run every PARAM_VALUE a publisher sends follows a request for its feature, a value the camera reported or
   * a failed read of the asked feature that is newer than the previous one; and every PARAM_EXT_VALUE an ext request
   * that is newer than the previous one.
   */
  lemma EveryMessageHasOccasion(l: Loop)
    requires Reachable(l)
    ensures AllOccasioned(l.world.trace)
  {
    ReachableGuards(l);
    OrderlyOccasions(l.world.trace);
  }

  /** So in every run a feature has no more messages than requests, reported values and missed reads together. */
  lemma MessagesCounted(l: Loop, f: Feature)
    requires Reachable(l)
    ensures var t := l.world.trace; MessagesSent(t, f) <= Prompts(t, f) + Misses(t, f)
  {
    EveryMessageHasOccasion(l);
    MessagesBounded(l.world.trace, f);
  }
}
