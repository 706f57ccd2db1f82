/** Liveness within one iteration: every open request is answered before the iteration ends. */
module Answering {
  import opened Features
  import opened SetPointStores
  import opened MemoryValues
  import opened Transactions
  import opened ServicePasses
  import opened Messages
  import opened Traces
  import opened Worlds
  import opened Coherence
  import opened EventLoops
  import opened Iterations
  import opened Responses
  import opened Stopping

  /** A feature's cache entry together with what its trace says is open. */
  datatype Desk = Desk(entry: Entry, plainOpen: bool, extOpen: bool)

  function DeskOf(w: World, f: Feature): Desk {
    Desk(EntryOf(w.cache, f), Recall(w.trace, f).plainOpen, Recall(w.trace, f).extOpen)
  }

  /** Every open request has its flag up, so the next visit of the publisher answers it. */
  predicate Flagged(d: Desk) {
    d.entry.owner == STATE_READY && (d.plainOpen ==> d.entry.updateNeeded) && (d.extOpen ==> d.entry.ackSend)
  }

  /** Nothing new has come in. */
  predicate Settling(d: Desk, d': Desk) {
    (Flagged(d) ==> Flagged(d')) && (d'.plainOpen ==> d.plainOpen) && (d'.extOpen ==> d.extOpen)
  }

  // ---------- the service pass raises every flag ----------

  lemma ServiceFlags(w: World, readings: Readings, f: Feature)
    requires Agrees(KnobOf(w, f), Recall(w.trace, f))
    ensures Flagged(DeskOf(ServiceTurn(w, readings), f))
  {
    ServiceKeeps(w, readings, f);
    PassExact(Served(w.store.plain, w.store.ext, w.cache), readings, f);
    PassLogged(w.trace, w.store.plain, w.store.ext, readings, f);
  }

  // ---------- camera routines keep them up ----------

  predicate SameOpen(h: History, h': History) {
    h'.plainOpen == h.plainOpen && h'.extOpen == h.extOpen
  }

  lemma CameraEventOpensNothing(t: Trace, e: Event, g: Feature)
    requires e.Commanded? || e.Refused? || e.Echoed? || e.Learned?
    ensures SameOpen(Recall(t, g), Recall(Then(t, e), g))
  {
  }

  lemma OutcomeOpensNothing(t: Trace, f: Feature, requested: int, o: Outcome, code: Option<int>, g: Feature)
    ensures SameOpen(Recall(t, g), Recall(LogOutcome(t, f, requested, o, code), g))
  {
    if code.Some? {
      var told := Then(t, Commanded(f, requested, code.value));
      var echoed := Then(told, Echoed(f, requested));
      CameraEventOpensNothing(t, told.last, g);
      CameraEventOpensNothing(told, Refused(f), g);
      CameraEventOpensNothing(told, echoed.last, g);
      CameraEventOpensNothing(echoed, Learned(f, ToSlot(requested)), g);
    }
  }

  lemma SettleSettling(w: World, f: Feature, o: Outcome, code: Option<int>, g: Feature)
    ensures Settling(DeskOf(w, g), DeskOf(Settle(w, f, o, code), g))
  {
    OutcomeOpensNothing(w.trace, f, At(w.store.req, f), o, code, g);
  }

  lemma {:induction false} TransactAllSettling(w: World, fs: seq<Feature>, input: Input, g: Feature)
    ensures Settling(DeskOf(w, g), DeskOf(TransactAll(w, fs, input), g))
    decreases |fs|
  {
    if fs != [] {
      var (f, a) := (fs[0], Answer(input, fs[0]));
      SettleSettling(w, f, Verdict(w.store, f, a), CommandOf(f, At(w.store.req, f), Verdict(w.store, f, a)), g);
      TransactAllSettling(Transact(w, f, a), fs[1..], input, g);
    }
  }

  lemma {:induction false} PollAllSettling(w: World, fs: seq<Feature>, polls: Readings, g: Feature)
    ensures Settling(DeskOf(w, g), DeskOf(PollAll(w, fs, polls), g))
    decreases |fs|
  {
    if fs != [] {
      PollAllSettling(Poll(w, fs[0], polls), fs[1..], polls, g);
    }
  }

  // ---------- publishers answer ----------

  /** The value is not touched and nothing new has come in. */
  predicate Answers(d: Desk, d': Desk) {
    Settling(d, d') && d'.entry.signal == d.entry.signal
  }

  lemma PublishAnswers(w: World, f: Feature, linkUp: bool, g: Feature)
    ensures Answers(DeskOf(w, g), DeskOf(Publish(w, f, linkUp), g))
    ensures g == f && linkUp && Flagged(DeskOf(w, f)) && 0 <= EntryOf(w.cache, f).signal
            ==> !DeskOf(Publish(w, f, linkUp), f).plainOpen
  {
  }

  lemma PublishExtAnswers(w: World, f: Feature, linkUp: bool, g: Feature)
    ensures Answers(DeskOf(w, g), DeskOf(PublishExt(w, f, linkUp), g))
    ensures g == f && linkUp && Flagged(DeskOf(w, f)) ==> !DeskOf(PublishExt(w, f, linkUp), f).extOpen
  {
  }

  lemma {:induction false} PublishAllAnswers(w: World, fs: seq<Feature>, up: set<Feature>, g: Feature)
    ensures Answers(DeskOf(w, g), DeskOf(PublishAll(w, fs, up).0, g))
    ensures Sendable(w, fs) ==> PublishAll(w, fs, up).1 == Completed
    ensures Sendable(w, fs) && g in fs && g in up && Flagged(DeskOf(w, g))
        ==> !DeskOf(PublishAll(w, fs, up).0, g).plainOpen
    decreases |fs|
  {
    if fs != [] {
      var w1 := Publish(w, fs[0], fs[0] in up);
      PublishAnswers(w, fs[0], fs[0] in up, g);
      forall i | 0 <= i < |fs|
        ensures EntryOf(w1.cache, fs[i]).signal == EntryOf(w.cache, fs[i]).signal
      {
        PublishAnswers(w, fs[0], fs[0] in up, fs[i]);
      }
      PublishAllAnswers(w1, fs[1..], up, g);
    }
  }

  lemma {:induction false} PublishExtAllAnswers(w: World, fs: seq<Feature>, up: set<Feature>, g: Feature)
    ensures Answers(DeskOf(w, g), DeskOf(PublishExtAll(w, fs, up), g))
    ensures g in fs && g in up && Flagged(DeskOf(w, g)) ==> !DeskOf(PublishExtAll(w, fs, up), g).extOpen
    decreases |fs|
  {
    if fs != [] {
      PublishExtAnswers(w, fs[0], fs[0] in up, g);
      PublishExtAllAnswers(PublishExt(w, fs[0], fs[0] in up), fs[1..], up, g);
    }
  }

  /** What a feature's publisher leaves open: only what the link did not carry. */
  predicate Answered(d: Desk, f: Feature, input: Input) {
    (f in input.up ==> !d.plainOpen) && (f in input.extUp ==> !d.extOpen)
  }

  lemma AnnounceAnswers(w: World, g: Group, input: Input, f: Feature)
    ensures Answers(DeskOf(w, f), DeskOf(PublishTurn(w, g, input).0, f))
    ensures g == GroupOf(f) && Flagged(DeskOf(w, f)) && Sendable(w, Members(g))
            ==> Answered(DeskOf(PublishTurn(w, g, input).0, f), f, input)
  {
    PublishAllAnswers(w, Members(g), input.up, f);
    PublishExtAllAnswers(PublishAll(w, Members(g), input.up).0, Members(g), input.extUp, f);
  }

  lemma {:induction false} AnnouncementsAnswer(w: World, jobs: seq<Job>, input: Input, f: Feature)
    requires forall i | 0 <= i < |jobs| :: jobs[i].Announce?
    ensures Answers(DeskOf(w, f), DeskOf(RunJobs(w, jobs, input), f))
    ensures Announce(GroupOf(f)) in jobs && Flagged(DeskOf(w, f)) && Sendable(w, Members(GroupOf(f)))
            ==> Answered(DeskOf(RunJobs(w, jobs, input), f), f, input)
    decreases |jobs|
  {
    if jobs != [] {
      var w1 := PublishTurn(w, jobs[0].g, input).0;
      AnnounceAnswers(w, jobs[0].g, input, f);
      forall m | m in Members(GroupOf(f))
        ensures EntryOf(w1.cache, m).signal == EntryOf(w.cache, m).signal
      {
        AnnounceAnswers(w, jobs[0].g, input, m);
      }
      AnnouncementsAnswer(w1, jobs[1..], input, f);
    }
  }

  // ---------- the iteration ----------

  lemma {:induction false} CamerasSettling(w: World, s: Store, gs: seq<Group>, input: Input, f: Feature)
    ensures Settling(DeskOf(w, f), DeskOf(RunJobs(w, DueCameras(s, gs), input), f))
    decreases |gs|
  {
    if gs != [] {
      if Due(s, gs[0]) {
        var w1 := WithRunning(w, RunningCode(gs[0]));
        assert DeskOf(w1, f) == DeskOf(w, f);
        TransactAllSettling(w1, Members(gs[0]), input, f);
        PollAllSettling(TransactAll(w1, Members(gs[0]), input), Members(gs[0]), input.polls, f);
        JobsRunInOrder(w, Camera(gs[0]), DueCameras(s, gs[1..]), input);
        CamerasSettling(CameraTurn(w, gs[0], input), s, gs[1..], input, f);
      } else {
        assert DueCameras(s, gs) == DueCameras(s, gs[1..]);
        CamerasSettling(w, s, gs[1..], input, f);
      }
    }
  }

  predicate ServesCommand(job: Job) {
    job.Acknowledge? || job.Process? || job.ErrorHandler?
  }

  lemma ServingTaskKeepsDesk(w: World, job: Job, input: Input, f: Feature)
    requires ServesCommand(job)
    ensures DeskOf(RunJob(w, job, input).0, f) == DeskOf(w, f)
  {
    var w' := RunJob(w, job, input).0;
    assert w'.cache == w.cache && (w'.trace == w.trace || (w'.trace.Then? && w'.trace.before == w.trace));
  }

  /** Serving a command changes no cache entry and opens or closes no request. */
  lemma {:induction false} ServingKeepsDesk(w: World, jobs: seq<Job>, input: Input, f: Feature)
    requires forall i | 0 <= i < |jobs| :: ServesCommand(jobs[i])
    ensures DeskOf(RunJobs(w, jobs, input), f) == DeskOf(w, f)
    decreases |jobs|
  {
    if jobs != [] {
      ServingTaskKeepsDesk(w, jobs[0], input, f);
      ServingKeepsDesk(RunJob(w, jobs[0], input).0, jobs[1..], input, f);
    }
  }

  lemma CommandServedDesk(w: World, fr: Frame, input: Input, f: Feature)
    ensures DeskOf(CommandServed(w, fr, input), f) == DeskOf(w, f)
  {
    ServingKeepsDesk(w, [FirstAck(fr)], input, f);
    var begun := BeginCommand(w, fr, input);
    assert DeskOf(begun, f) == DeskOf(RunJobs(w, [FirstAck(fr)], input), f);
    ServingKeepsDesk(begun, [Process, ErrorHandler], input, f);
    var w1 := RunJobs(begun, [Process, ErrorHandler], input);
    ServingKeepsDesk(w1, [SecondAck(w1.frame)], input, f);
  }

  lemma AnnouncedAnswers(w: World, jobs: seq<Job>, input: Input, f: Feature)
    requires (forall i | 0 <= i < |jobs| :: jobs[i].Announce?) && Announce(GroupOf(f)) in jobs
    requires Flagged(DeskOf(w, f)) && Sendable(RunJobs(w, jobs, input), Members(GroupOf(f)))
    ensures Answered(DeskOf(RunJobs(w, jobs, input), f), f, input)
  {
    forall m | m in Members(GroupOf(f))
      ensures EntryOf(w.cache, m).signal == EntryOf(RunJobs(w, jobs, input).cache, m).signal
    {
      AnnouncementsAnswer(w, jobs, input, m);
    }
    AnnouncementsAnswer(w, jobs, input, f);
  }

  lemma EveryGroupAnnounced(f: Feature)
    ensures Announce(GroupOf(f)) in ANNOUNCEMENTS
  {
  }

  lemma WorkFlags(w: World, heart: int, input: Input, f: Feature)
    requires Good(w) && w.store.running == FUNC_IDLE
    ensures Flagged(DeskOf(RunJobs(w, TopJobs(w, heart), input), f))
  {
    var received := Received(w, input);
    JobGood(w, Receive, input);
    assert Agrees(KnobOf(received, f), Recall(received.trace, f));
    ServiceFlags(received, input.readings, f);
    var cameras := DueCameras(w.store, CAMERA_ORDER);
    RunJobsAppend(w, Prologue(heart), cameras, input);
    PrologueRuns(w, heart, input);
    CamerasSettling(ServiceTurn(received, input.readings), w.store, CAMERA_ORDER, input, f);
    assert TopJobs(w, heart) == Prologue(heart) + cameras;
  }

  /**
   * Every request open when an iteration begins or received in it is answered before it ends, for each feature
   * whose message the link carries, provided no feature of its group holds a negative value and the command accepted
   * before, if any, does not stall the loop.
   */
  lemma AnsweredInIteration(w: World, heart: int, input: Input, f: Feature)
    requires Good(w) && w.store.running == FUNC_IDLE && !Stalls(w.frame)
    requires Sendable(Iteration(w, heart, input), Members(GroupOf(f)))
    ensures var h := Recall(Iteration(w, heart, input).trace, f);
            (f in input.up ==> !h.plainOpen) && (f in input.extUp ==> !h.extOpen)
  {
    WorkFlags(w, heart, input, f);
    var worked := RunJobs(w, TopJobs(w, heart), input);
    CommandServedDesk(worked, w.frame, input, f);
    EveryGroupAnnounced(f);
    AnnouncedAnswers(CommandServed(worked, w.frame, input), ANNOUNCEMENTS, input, f);
  }
}
