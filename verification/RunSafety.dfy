/** What holds in every state of every run of the event loop. */
module RunSafety {
  import opened Features
  import opened SetPointStores
  import opened Messages
  import opened Traces
  import opened Worlds
  import opened Coherence
  import opened EventLoops
  import opened ReadyQueues
  import opened Handshakes

  // ---------- the focus pair ----------

  /** Some PARAM_SET asked for a focus mode other than the reserved 99. */
  predicate FocusAsked(t: Trace) {
    exists v | v in Recall(t, Focus).wanted :: v != STATE_INIT
  }

  predicate FocusQueued(q: seq<Handle>) {
    exists i | 0 <= i < |q| :: q[i].Start? && q[i].job == Camera(GFocus)
  }

  /** The camera is not told about focus area, and no routine that could is queued, before focus mode was asked for. */
  predicate FocusFirst(l: Loop) {
    EverCommanded(l.world.trace, FocusArea) || FocusQueued(l.queue) ==> FocusAsked(l.world.trace)
  }

  lemma DueFocus(w: World)
    requires CommittedSound(KnobOf(w, Focus), Recall(w.trace, Focus)) && Due(w.store, GFocus)
    ensures FocusAsked(w.trace)
  {
  }

  lemma {:induction false} DueCamerasExact(s: Store, gs: seq<Group>, i: nat)
    requires i < |DueCameras(s, gs)|
    ensures DueCameras(s, gs)[i].Camera? && Due(s, DueCameras(s, gs)[i].g)
  {
    if Due(s, gs[0]) {
      if i > 0 {
        DueCamerasExact(s, gs[1..], i - 1);
      }
    } else {
      DueCamerasExact(s, gs[1..], i);
    }
  }

  lemma TopJobsFocus(w: World, heart: int, i: nat)
    requires i < |TopJobs(w, heart)| && TopJobs(w, heart)[i] == Camera(GFocus)
    ensures Due(w.store, GFocus)
  {
    var cameras := DueCameras(w.store, CAMERA_ORDER);
    var first := [Receive] + (if heart == 0 then [Heartbeat] else []) + [Service];
    assert i >= |first|;
    DueCamerasExact(w.store, CAMERA_ORDER, i - |first|);
  }

  lemma TaskStepFocus(l: Loop, input: Input)
    requires FocusFirst(l) && l.queue != [] && l.queue[0].Start?
    ensures FocusFirst(AfterTask(l, l.queue[0].id, RunJob(l.world, l.queue[0].job, input).0,
        RunJob(l.world, l.queue[0].job, input).1))
  {
    JobModest(l.world, l.queue[0].job, input);
    assert l.queue[0].job == Camera(GFocus) ==> FocusQueued(l.queue);
  }

  lemma SpawnFocus(l: Loop, jobs: seq<Job>, pc: Pc)
    requires FocusFirst(l) && (forall i | 0 <= i < |jobs| :: jobs[i] == Camera(GFocus) ==> FocusAsked(l.world.trace))
    ensures FocusFirst(Spawn(l, jobs)) && FocusFirst(SpawnAndAwait(l, jobs, pc))
  {
    assert forall i | |l.queue| <= i < |l.queue| + |jobs| :: Spawn(l, jobs).queue[i].job == jobs[i - |l.queue|];
  }

  lemma CreatedFocus(l: Loop)
    requires FocusFirst(l) && CommittedSound(KnobOf(l.world, Focus), Recall(l.world.trace, Focus))
    ensures FocusFirst(Created(l))
  {
    var jobs := TopJobs(l.world, l.heart);
    forall i | 0 <= i < |jobs| && jobs[i] == Camera(GFocus)
      ensures FocusAsked(l.world.trace)
    {
      TopJobsFocus(l.world, l.heart, i);
      DueFocus(l.world);
    }
    SpawnFocus(l, jobs, BootDone);
  }

  lemma TopFocus(l: Loop)
    requires FocusFirst(l) && CommittedSound(KnobOf(l.world, Focus), Recall(l.world.trace, Focus))
    ensures FocusFirst(Top(l))
  {
    CreatedFocus(l);
    var fr := l.world.frame;
    SpawnFocus(Created(l), [Acknowledge(fr.rcv, fr.rpm2, 0, fr.ack)], AfterAck0);
    SpawnFocus(Created(l), ANNOUNCEMENTS, AnnouncementsDone);
  }

  lemma AwaitServiceFocus(l: Loop)
    requires FocusFirst(l) && CommittedSound(KnobOf(l.world, Focus), Recall(l.world.trace, Focus))
    ensures FocusFirst(AwaitService(l))
  {
    TopFocus(l);
  }

  lemma ContinueFocus(l: Loop, pc: Pc)
    requires FocusFirst(l) && Rested(l) && TasksKnown(l)
    requires CommittedSound(KnobOf(l.world, Focus), Recall(l.world.trace, Focus))
    ensures FocusFirst(Continue(l, pc))
  {
    var fr := l.world.frame;
    match pc
    case BootDone => TopFocus(l.(world := l.world.(store := InitClassState(l.world.store))));
    case AfterAck0 => SpawnFocus(WithFrame(l, fr.(taskControl := 1)), [Process, ErrorHandler], AfterProcess);
    case AfterProcess => SpawnFocus(l, [Acknowledge(fr.rcv, fr.rpm2, 100, fr.ack)], AfterAck100);
    case AfterAck100 =>
      SpawnFocus(WithFrame(l, fr.(rcv := 0, ack := ACK_ALL_DATA_COMPLETE)), ANNOUNCEMENTS, AnnouncementsDone);
    case AnnouncementsDone =>
      CancelIdle(l);
      AwaitServiceFocus(EndIteration(l));
    case ServiceDone => TopFocus(l);
  }

  // ---------- the invariant ----------

  ghost predicate Invariant(l: Loop) {
    Fifo(l) && TasksKnown(l) && LoopFits(l) && Good(l.world) && l.world.store.running == FUNC_IDLE && FocusFirst(l)
  }

  lemma InitStateGood(w: World)
    requires Good(w)
    ensures Good(w.(store := InitClassState(w.store)))
  {
    var w' := w.(store := InitClassState(w.store));
    forall f: Feature
      ensures Agrees(KnobOf(w', f), Recall(w.trace, f))
    {
      assert KnobOf(w', f) == KnobOf(w, f) && Agrees(KnobOf(w, f), Recall(w.trace, f));
    }
  }

  /** Main itself touches nothing but the frame and, at start-up, the owner field. */
  lemma ContinueWorld(l: Loop, pc: Pc)
    ensures var (w, w') := (l.world, Continue(l, pc).world);
            w' == (if pc == BootDone then w.(store := InitClassState(w.store)) else w.(frame := w'.frame))
  {
  }

  lemma WakeStepGood(l: Loop)
    requires Good(l.world) && l.world.store.running == FUNC_IDLE && l.ctl.Suspended?
    ensures var w := Resume(l, l.ctl.ids, l.ctl.pc).world; Good(w) && w.store.running == FUNC_IDLE
  {
    ContinueWorld(l, l.ctl.pc);
    InitStateGood(l.world);
    FrameElsewhere(l.world, Continue(l, l.ctl.pc).world.frame);
  }

  lemma StepGood(l: Loop, input: Input)
    requires Good(l.world) && l.world.store.running == FUNC_IDLE
    ensures Good(Step(l, input).world) && Step(l, input).world.store.running == FUNC_IDLE
  {
    if l.ctl.Suspended? && l.queue != [] {
      match l.queue[0]
      case Wake => WakeStepGood(l.(queue := l.queue[1..]));
      case Start(id, job) => JobGood(l.world, job, input);
    }
  }

  lemma StepFocus(l: Loop, input: Input)
    requires Invariant(l)
    ensures FocusFirst(Step(l, input))
  {
    if l.ctl.Suspended? {
      RunToCompletion(l);
      match l.queue[0]
      case Start(id, job) => TaskStepFocus(l, input);
      case Wake =>
        var l1 := l.(queue := l.queue[1..]);
        assert Agrees(KnobOf(l.world, Focus), Recall(l.world.trace, Focus));
        ContinueFocus(l1, l.ctl.pc);
    }
  }

  lemma StepInvariant(l: Loop, input: Input)
    requires Invariant(l)
    ensures Invariant(Step(l, input))
  {
    StepFifo(l, input);
    StepFits(l, input);
    StepGood(l, input);
    StepFocus(l, input);
  }
}
