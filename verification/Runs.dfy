/**
 * The main theorems: every state of every run, from start-up on, whatever the ground station, the camera and the link
 * do.
 */
module Runs {
  import opened Features
  import opened Enumerators
  import opened MemoryValues
  import opened ServicePasses
  import opened Messages
  import opened Traces
  import opened Worlds
  import opened Coherence
  import opened EventLoops
  import opened ReadyQueues
  import opened Handshakes
  import opened RunSafety
  import opened Stopping

  // ---------- start-up ----------

  predicate Unread(w: World, fs: seq<Feature>) {
    && (forall i | 0 <= i < |fs| :: Recall(w.trace, fs[i]) == NO_HISTORY)
    && (forall i, j | 0 <= i < j < |fs| :: fs[i] != fs[j])
  }

  lemma FirstReadAside(w: World, f: Feature, readings: Readings)
    ensures Aside(w, FirstRead(w, f, readings), false)
  {
  }

  lemma FirstReadElsewhere(w: World, f: Feature, readings: Readings, g: Feature)
    requires g != f
    ensures Untouched(w, FirstRead(w, f, readings), g)
  {
  }

  lemma FirstReadGood(w: World, f: Feature, readings: Readings)
    requires Good(w) && Recall(w.trace, f) == NO_HISTORY
    ensures Good(FirstRead(w, f, readings))
  {
    var w' := FirstRead(w, f, readings);
    forall g: Feature
      ensures Agrees(KnobOf(w', g), Recall(w'.trace, g))
    {
      assert Agrees(KnobOf(w, g), Recall(w.trace, g));
      if g != f {
        FirstReadElsewhere(w, f, readings, g);
      }
    }
  }

  lemma {:induction false} FirstReadsGood(w: World, fs: seq<Feature>, readings: Readings)
    requires Good(w) && Unread(w, fs)
    ensures Good(FirstReads(w, fs, readings)) && Aside(w, FirstReads(w, fs, readings), false)
    ensures FirstReads(w, fs, readings).store == w.store
    decreases |fs|
  {
    if fs != [] {
      FirstReadGood(w, fs[0], readings);
      FirstReadAside(w, fs[0], readings);
      forall i | 0 < i < |fs|
        ensures Untouched(w, FirstRead(w, fs[0], readings), fs[i])
      {
        FirstReadElsewhere(w, fs[0], readings, fs[i]);
      }
      FirstReadsGood(FirstRead(w, fs[0], readings), fs[1..], readings);
    }
  }

  lemma {:induction false} FirstReadsEntry(w: World, fs: seq<Feature>, readings: Readings, f: Feature)
    requires forall i, j | 0 <= i < j < |fs| :: fs[i] != fs[j]
    ensures EntryOf(FirstReads(w, fs, readings).cache, f)
            == if f !in fs then EntryOf(w.cache, f)
               else if f in readings then Entry(ToSlot(readings[f]), 0, STATE_READY, true, false) else BLANK
    decreases |fs|
  {
    if fs != [] {
      FirstReadsEntry(FirstRead(w, fs[0], readings), fs[1..], readings, f);
    }
  }

  lemma {:induction false} AllZeroMeans(c: Cache, fs: seq<Feature>, f: Feature)
    requires AllZero(c, fs) && f in fs
    ensures EntryOf(c, f).signal == 0
    decreases |fs|
  {
    if fs[0] != f {
      AllZeroMeans(c, fs[1..], f);
    }
  }

  lemma InitOrderComplete(f: Feature)
    ensures f in INIT_ORDER && forall i, j | 0 <= i < j < |INIT_ORDER| :: INIT_ORDER[i] != INIT_ORDER[j]
  {
    assert INIT_ORDER[0] == ExPro && INIT_ORDER[1] == Aperture && INIT_ORDER[2] == Focus && INIT_ORDER[3] == FocusArea;
    assert INIT_ORDER[4] == Iso && INIT_ORDER[5] == Shutter && INIT_ORDER[6] == WhiteBal && INIT_ORDER[7] == StillCap;
  }

  lemma {:induction false} AllZeroExact(c: Cache, fs: seq<Feature>)
    requires forall f | f in fs :: EntryOf(c, f).signal == 0
    ensures AllZero(c, fs)
    decreases |fs|
  {
    if fs != [] {
      AllZeroExact(c, fs[1..]);
    }
  }

  /** Some first read yielded something other than 0. */
  predicate Alive(first: Readings) {
    exists g | g in first :: ToSlot(first[g]) != 0
  }

  lemma ReadAgainIff(first: Readings)
    ensures AllZero(FirstReads(NEW_WORLD, INIT_ORDER, first).cache, INIT_ORDER) <==> !Alive(first)
  {
    var c := FirstReads(NEW_WORLD, INIT_ORDER, first).cache;
    forall f: Feature
      ensures EntryOf(c, f).signal == if f in first then ToSlot(first[f]) else 0
    {
      InitOrderComplete(f);
      FirstReadsEntry(NEW_WORLD, INIT_ORDER, first, f);
    }
    if AllZero(c, INIT_ORDER) {
      forall f: Feature
        ensures EntryOf(c, f).signal == 0
      {
        InitOrderComplete(f);
        AllZeroMeans(c, INIT_ORDER, f);
      }
    } else {
      if !Alive(first) {
        AllZeroExact(c, INIT_ORDER);
      }
    }
  }

  /**
   * The cache start-up leaves: the first reads; or, if none of them yielded anything but 0, the second ones. A feature
   * is announced if a read of it succeeded.
   */
  lemma FirstWorldExact(first: Readings, second: Readings, f: Feature)
    ensures var e := EntryOf(FirstWorld(first, second).cache, f);
            && e.signal == (if !Alive(first) && f in second then ToSlot(second[f])
                            else if f in first then ToSlot(first[f]) else 0)
            && e.prev == 0 && (e.updateNeeded <==> f in first || (!Alive(first) && f in second))
  {
    InitOrderComplete(f);
    ReadAgainIff(first);
    FirstReadsEntry(NEW_WORLD, INIT_ORDER, first, f);
    PollAllEntry(FirstReads(NEW_WORLD, INIT_ORDER, first), INIT_ORDER, second, f);
  }

  lemma NewWorldGood()
    ensures Good(NEW_WORLD) && Unread(NEW_WORLD, INIT_ORDER)
  {
  }

  lemma FirstWorldGood(first: Readings, second: Readings)
    ensures var w := FirstWorld(first, second); Good(w) && Aside(NEW_WORLD, w, false) && w.store == NEW_STORE
  {
    NewWorldGood();
    FirstReadsGood(NEW_WORLD, INIT_ORDER, first);
    var w := FirstReads(NEW_WORLD, INIT_ORDER, first);
    PollAllGood(w, INIT_ORDER, second);
    PollAllAside(w, INIT_ORDER, second);
    PollAllStore(w, INIT_ORDER, second);
  }

  lemma FreshLoopFits(l: Loop)
    requires Aside(NEW_WORLD, l.world, false) && l.world.store == NEW_STORE && l.queue == [] && l.next == 0
    ensures LoopFits(SpawnAndAwait(l, ANNOUNCEMENTS, BootDone))
  {
    StartsWork(0, ANNOUNCEMENTS);
    assert Starts(0, ANNOUNCEMENTS) == l.queue + Starts(0, ANNOUNCEMENTS);
  }

  lemma FreshLoopInvariant(l: Loop)
    requires Good(l.world) && Aside(NEW_WORLD, l.world, false) && l.world.store == NEW_STORE
    requires Rested(l) && l.next == l.receiver == l.servicer == 0
    ensures Invariant(SpawnAndAwait(l, ANNOUNCEMENTS, BootDone))
  {
    SpawnAndAwaitFifo(l, ANNOUNCEMENTS, BootDone);
    FreshLoopFits(l);
    SpawnFocus(l, ANNOUNCEMENTS, BootDone);
  }

  lemma BootInvariant(first: Readings, second: Readings)
    ensures Invariant(Boot(first, second))
  {
    FirstWorldGood(first, second);
    FreshLoopInvariant(Loop(FirstWorld(first, second), [], map[], Stopped, 0, 0, 0, 0));
  }

  /** Start-up establishes the invariant of queue, handshake and features, and main waits soundly. */
  lemma BootSteady(first: Readings, second: Readings)
    ensures Steady(Boot(first, second))
  {
    BootInvariant(first, second);
    PublishersSpawned(Loop(FirstWorld(first, second), [], map[], Stopped, 0, 0, 0, 0), BootDone);
  }

  // ---------- runs ----------

  ghost predicate Booted(l: Loop) {
    exists first: Readings, second: Readings :: l == Boot(first, second)
  }

  /** One step for each input. */
  ghost predicate Follows(run: seq<Loop>, inputs: seq<Input>) {
    && |run| == |inputs| + 1
    && forall i {:trigger inputs[i]} | 0 <= i < |inputs| :: run[i + 1] == Step(run[i], inputs[i])
  }

  /** The states of a run: start-up, and then one step for each input. */
  ghost predicate IsRun(run: seq<Loop>, inputs: seq<Input>) {
    Follows(run, inputs) && Booted(run[0])
  }

  /** Some run passes through the state. */
  ghost predicate Reachable(l: Loop) {
    exists run: seq<Loop>, inputs: seq<Input> :: IsRun(run, inputs) && l in run
  }

  lemma BootedSteady(l: Loop)
    requires Booted(l)
    ensures Steady(l)
  {
    var first, second :| l == Boot(first, second);
    BootSteady(first, second);
  }

  lemma {:induction false} StepsKeep(run: seq<Loop>, inputs: seq<Input>, n: nat)
    requires Follows(run, inputs) && Steady(run[0]) && n <= |inputs|
    ensures Steady(run[n])
  {
    if n > 0 {
      StepsKeep(run, inputs, n - 1);
      StepSteady(run[n - 1], inputs[n - 1]);
    }
  }

  /** Every state of every run satisfies the invariant of queue, handshake and features, and main waits soundly. */
  lemma RunInvariant(run: seq<Loop>, inputs: seq<Input>, n: nat)
    requires IsRun(run, inputs) && n <= |inputs|
    ensures Steady(run[n])
  {
    BootedSteady(run[0]);
    StepsKeep(run, inputs, n);
  }

  lemma ReachableSteady(l: Loop)
    requires Reachable(l)
    ensures Steady(l)
  {
    var run, inputs :| IsRun(run, inputs) && l in run;
    var n: nat :| n < |run| && l == run[n];
    RunInvariant(run, inputs, n);
  }

  lemma ReachableAgrees(l: Loop, f: Feature)
    requires Reachable(l)
    ensures Agrees(KnobOf(l.world, f), Recall(l.world.trace, f)) && Sound(l.world.trace)
  {
    ReachableSteady(l);
  }

  // ---------- the queue ----------

  lemma AloneAtWake(l: Loop)
    requires Fifo(l) && TasksKnown(l)
    ensures l.ctl.Suspended? ==> l.queue != []
    ensures l.ctl.Suspended? && l.queue[0] == Wake ==>
              && l.queue == [Wake]
              && (forall id: nat | id < l.next :: id in l.ended)
              && l.receiver in l.ended && l.servicer in l.ended
              && Cancel(l, l.receiver) == l
  {
    if l.ctl.Suspended? {
      RunToCompletion(l);
    }
  }

  /**
   * The ready queue never runs dry while main waits, and whenever main runs every task created before has ended: so
   * the receiver it cancels has ended and no camera routine is under way at its guards.
   */
  lemma MainRunsAlone(l: Loop)
    requires Reachable(l)
    ensures && l.world.store.running == FUNC_IDLE
            && (l.ctl.Suspended? ==> l.queue != [])
            && (l.ctl.Suspended? && l.queue[0] == Wake ==>
                  && l.queue == [Wake]
                  && (forall id: nat | id < l.next :: id in l.ended)
                  && l.receiver in l.ended && l.servicer in l.ended
                  && Cancel(l, l.receiver) == l)
  {
    ReachableSteady(l);
    AloneAtWake(l);
  }

  lemma HungAfterStep(l: Loop, input: Input)
    requires Steady(l)
    ensures Step(l, input).ctl == Hung <==> PhaseOf(l.world.trace).Lost?
  {
    StepSteady(l, input);
    if l.ctl.Suspended? {
      RunToCompletion(l);
      match l.queue[0]
      case Wake => WakesUnlost(l);
      case Start(id, job) =>
        ProcessingPlace(l);
        if l.ctl.pc == AfterProcess {
          ProcessStep(l.world, l.queue, input);
        } else if job != ErrorHandler {
          OnlyErrorHandlerSpins(l.world, job, input);
        }
    }
  }

  /**
   * The bridge hangs one step after a processing task has died, and only then; by EveryEventJustified that is over a
   * message type nobody can serve.
   */
  lemma HangsIff(l: Loop, input: Input)
    requires Reachable(l)
    ensures Step(l, input).ctl == Hung <==> PhaseOf(l.world.trace).Lost?
  {
    ReachableSteady(l);
    HungAfterStep(l, input);
  }

  /**
   * Main has stopped only with a negative value cached; awake, it stops exactly if it waited for publishers with one.
   */
  lemma StopsIff(l: Loop, input: Input)
    requires Reachable(l)
    ensures l.ctl.Stopped? ==> Negative(l.world)
    ensures l.ctl.Suspended? && l.queue == [Wake] ==>
              (Step(l, input).ctl.Stopped? <==> ForAnnouncements(l.ctl.pc) && Negative(l.world))
  {
    ReachableSteady(l);
    if l.ctl.Suspended? && l.queue == [Wake] {
      WakeFate(l, input);
      RestedAtWake(l);
      if !(ForAnnouncements(l.ctl.pc) && Negative(l.world)) {
        GoesOn(l.(queue := []), l.ctl.pc);
      }
    }
  }

  lemma GoesOn(l: Loop, pc: Pc)
    requires Rested(l) && TasksKnown(l) && (pc == AnnouncementsDone ==> ServiceSound(l))
    ensures Continue(l, pc).ctl.Suspended?
  {
    if pc == AnnouncementsDone {
      CancelIdle(l);
      AwaitServiceSober(EndIteration(l));
    }
  }

  // ---------- the owner field ----------

  /**
   * Before start-up is complete the store is not in use; afterwards its owner field is READY at every step boundary,
   * unless some PARAM_SET carried a value that is no integer, and then it stays held for good.
   */
  lemma OwnerReadyIff(l: Loop)
    requires Reachable(l)
    ensures var (owner, t) := (l.world.store.owner, l.world.trace);
            && (owner == STATE_READY <==> owner != STATE_INIT && !EverStuck(t))
            && (l.ctl.Suspended? ==> (owner == STATE_INIT <==> l.ctl.pc == BootDone))
            && (EverStuck(t) ==> owner == STATE_MAV_WRITING)
  {
    ReachableSteady(l);
  }

  // ---------- published values and requests ----------

  /**
   * While no announcement is due, the cached value of a feature is the one last published, or nothing was ever
   * learned about it and it still holds the 0 of its failed first read. The cached value is always the last one the
   * camera reported.
   */
  lemma PublishedValueCoherent(l: Loop, f: Feature)
    requires Reachable(l)
    ensures var w := l.world;
            var (e, h) := (EntryOf(w.cache, f), Recall(w.trace, f));
            && e.signal == LastKnown(h)
            && (!e.updateNeeded ==> h.published == Some(e.signal)
                                    || (h.published.None? && h.learned.None? && e.signal == 0))
  {
    ReachableAgrees(l, f);
  }

  /** A request newer than the last answer keeps its bit or its flag up. */
  lemma NoRequestLost(l: Loop, f: Feature)
    requires Reachable(l)
    ensures var w := l.world;
            var (e, h) := (EntryOf(w.cache, f), Recall(w.trace, f));
            && (h.plainOpen ==> f in w.store.plain || e.updateNeeded)
            && (h.extOpen ==> f in w.store.ext || e.ackSend)
  {
    ReachableAgrees(l, f);
  }

  /**
   * No bit and no flag is up for nothing: a request bit exactly if a request is newer than the last one a service pass
   * has taken up, the update flag exactly if a reported value, a missed read or an ext request taken up is newer than
   * the last PARAM_VALUE, and the ext flag exactly if an ext request taken up is newer than the last PARAM_EXT_VALUE.
   */
  lemma FlagsExact(l: Loop, f: Feature)
    requires Reachable(l)
    ensures var w := l.world;
            var (e, h) := (EntryOf(w.cache, f), Recall(w.trace, f));
            && (f in w.store.plain <==> h.unread) && (f in w.store.ext <==> h.extUnread)
            && (e.updateNeeded <==> h.due) && (e.ackSend <==> h.extDue)
  {
    ReachableAgrees(l, f);
  }

  // ---------- set-points ----------

  lemma RememberEcho(h: History, e: Event, f: Feature)
    ensures var h' := Remember(h, e, f);
            && h'.echo == (if e.Echoed? && e.f == f then Some(e.value) else h.echo) && h.wanted <= h'.wanted
  {
  }

  lemma EchoWasWanted(t: Trace, e: Event, f: Feature)
    requires Sound(t) && e.Echoed? && e.f == f && Justified(t, e)
    ensures Enumerate(f, e.value).Some? && e.value in Recall(t, f).wanted
  {
    RememberEcho(Recall(t.before, f), t.last, f);
  }

  lemma {:induction false} EchoIsOption(t: Trace, f: Feature)
    requires Sound(t)
    ensures match Recall(t, f).echo case Some(v) => Enumerate(f, v).Some? && v in Recall(t, f).wanted case None => true
  {
    if t.Then? {
      EchoIsOption(t.before, f);
      RememberEcho(Recall(t.before, f), t.last, f);
      if t.last.Echoed? && t.last.f == f {
        EchoWasWanted(t.before, t.last, f);
      }
    }
  }

  /**
   * A committed set-point is the last value the camera echoed for it: an option of the feature that the ground
   * station had asked for. Before the first echo it is 99, which is no option of any feature.
   */
  lemma CommittedIsEchoed(l: Loop, f: Feature)
    requires Reachable(l)
    ensures var w := l.world;
            var (com, h) := (At(w.store.com, f), Recall(w.trace, f));
            && com == (if h.echo.Some? then h.echo.value else STATE_INIT)
            && (h.echo.Some? <==> Enumerate(f, com).Some?)
            && (h.echo.Some? ==> com in h.wanted)
  {
    ReachableAgrees(l, f);
    EchoIsOption(l.world.trace, f);
    ReservedIsNoOption(f);
  }

  /** A feature's protect bit is set exactly when the latest settled attempt on it was refused. */
  lemma ProtectWordIsHistory(l: Loop, f: Feature)
    requires Reachable(l)
    ensures var w := l.world;
            f in w.store.protect <==> Recall(w.trace, f).refused
  {
    ReachableAgrees(l, f);
  }

  /**
   * Every event of a run is justified by what came before: the camera is commanded only with the code of a value
   * some PARAM_SET asked for, and the publishers send only what the camera last reported, never a negative word.
   */
  lemma EveryEventJustified(l: Loop)
    requires Reachable(l)
    ensures Sound(l.world.trace)
  {
    ReachableSteady(l);
  }

  /** Focus area is never commanded in a run in which no focus mode (other than 99) was asked for. */
  lemma FocusAreaStarves(l: Loop)
    requires Reachable(l)
    ensures var t := l.world.trace;
            (forall v | v in Recall(t, Focus).wanted :: v == STATE_INIT) ==> !EverCommanded(t, FocusArea)
  {
    ReachableSteady(l);
  }

  // ---------- the command handshake ----------

  /**
   * The acknowledgements sent are the regular ones and then at most one rejection, sent where the loop hangs. The
   * regular ones, followed by those still owed to the one command in flight, are progress 0 and progress 100 for every
   * accepted command, in acceptance order.
   */
  lemma AcknowledgementsExact(l: Loop)
    requires Reachable(l)
    ensures var t := l.world.trace;
            && Acks(t) == Regular(t) + AcksOf(Rejections(t))
            && PhaseOf(t) != Broken && Regular(t) + Owed(PhaseOf(t)) == DueAcks(t)
            && |Rejections(t)| <= 1 && (Rejections(t) != [] ==> l.ctl == Hung)
  {
    ReachableSteady(l);
    HandshakeExact(l.world.trace);
    ToldIsHung(l);
  }

  lemma ToldIsHung(l: Loop)
    requires LoopFits(l)
    ensures PhaseOf(l.world.trace).Lost? && PhaseOf(l.world.trace).told ==> l.ctl == Hung
  {
  }

  lemma NotHungNoRejection(l: Loop)
    requires LoopFits(l) && l.ctl != Hung
    ensures Rejections(l.world.trace) == []
  {
    HandshakeExact(l.world.trace);
    ToldIsHung(l);
  }

  function AsSeq(r: Option<Rejection>): seq<Rejection> {
    if r.Some? then [r.value] else []
  }

  lemma HangingStep(l: Loop, input: Input)
    requires Steady(l) && l.ctl != Hung && Step(l, input).ctl == Hung
    ensures Step(l, input).world == Rejecting(l.world)
  {
    HungAfterStep(l, input);
    RunToCompletion(l);
    match l.queue[0]
    case Wake => WakesUnlost(l);
    case Start(id, job) =>
      if job != ErrorHandler {
        OnlyErrorHandlerSpins(l.world, job, input);
      }
  }

  lemma RejectingAnswers(w: World)
    requires NoteFits(w) && Rejections(w.trace) == []
    ensures Rejections(Rejecting(w).trace) == AsSeq(AnswerTo(StandingNote(w.trace)))
  {
  }

  /**
   * A recorded rejection is acknowledged if and only if the loop hangs while it stands recorded: no rejection is sent
   * before, the step that hangs sends exactly the one that stands, if any, and nothing follows.
   */
  lemma RejectionIff(l: Loop, input: Input)
    requires Reachable(l)
    ensures l.ctl != Hung ==> Rejections(l.world.trace) == []
    ensures var (l', sent) := (Step(l, input), Rejections(Step(l, input).world.trace));
            sent == if l.ctl == Hung then Rejections(l.world.trace)
                    else if l'.ctl == Hung then AsSeq(AnswerTo(StandingNote(l.world.trace)))
                    else []
  {
    if l.ctl != Hung {
      ReachableSteady(l);
      NotHungNoRejection(l);
      StepSteady(l, input);
      if Step(l, input).ctl == Hung {
        HangingStep(l, input);
        RejectingAnswers(l.world);
      } else {
        NotHungNoRejection(Step(l, input));
      }
    }
  }
}
