/**
 * A plain request whose camera read keeps failing: its bit stays, so every service pass makes an announcement due again
 * and the publisher repeats the cached value for as long as the camera cannot be read.
 */
module MissedReads {
  import opened Features
  import opened Transactions
  import opened ServicePasses
  import opened Messages
  import opened Traces
  import opened Worlds
  import opened Coherence
  import opened EventLoops
  import opened Handshakes
  import opened Stopping
  import opened Occasions
  import opened Inputs
  import opened Iterations
  import opened Responses
  import opened Answering
  import opened Confirming
  import opened Liveness
  import opened Counterexamples

  function DueCount(w: World, f: Feature): nat {
    if EntryOf(w.cache, f).updateNeeded then 1 else 0
  }

  /** Nothing new is asked or learned, the request is kept, and no message gets lost. */
  predicate Repeating(w: World, w': World, f: Feature) {
    && w'.frame == w.frame && w'.store.plain == w.store.plain
    && Prompts(w'.trace, f) == Prompts(w.trace, f)
    && MessagesSent(w'.trace, f) >= MessagesSent(w.trace, f)
    && MessagesSent(w'.trace, f) + DueCount(w', f) >= MessagesSent(w.trace, f) + DueCount(w, f)
  }

  /** The link carries the feature's PARAM_VALUE; nothing else happens outside. */
  function OnlyLink(f: Feature): (input: Input)
    ensures Counterexamples.Calm(input) && input.msgs == [] && input.up == {f}
  {
    QUIET.(up := {f})
  }

  lemma TransactRepeats(w: World, g: Feature, f: Feature)
    ensures Repeating(w, Transact(w, g, Unusable), f)
  {
    var (o, requested) := (Verdict(w.store, g, Unusable), At(w.store.req, g));
    UnusableLog(w.trace, g, requested, o, CommandOf(g, requested, o), f);
    var s' := SettledStore(w.store, g, o);
    assert s'.plain == w.store.plain;
  }

  lemma UnusableLog(t: Trace, g: Feature, requested: int, o: Outcome, code: Option<int>, f: Feature)
    requires o == NoRequest || o == Rejected || o == Unanswered
    ensures var t' := LogOutcome(t, g, requested, o, code);
            Prompts(t', f) == Prompts(t, f) && MessagesSent(t', f) == MessagesSent(t, f)
  {
  }

  lemma {:induction false} TransactAllRepeats(w: World, fs: seq<Feature>, input: Input, f: Feature)
    requires Counterexamples.Calm(input)
    ensures Repeating(w, TransactAll(w, fs, input), f)
    decreases |fs|
  {
    if fs != [] {
      TransactRepeats(w, fs[0], f);
      TransactAllRepeats(Transact(w, fs[0], Unusable), fs[1..], input, f);
    }
  }

  lemma {:induction false} ReadsRepeat(t: Trace, n: nat, plain: set<Feature>, f: Feature)
    requires n <= |SERVICE_ORDER|
    ensures var t' := LogReads(t, n, plain, map[]);
            Prompts(t', f) == Prompts(t, f) && MessagesSent(t', f) == MessagesSent(t, f)
  {
    if n > 0 {
      ReadsRepeat(t, n - 1, plain, f);
    }
  }

  lemma {:induction false} ExtReadsRepeat(t: Trace, n: nat, ext: set<Feature>, f: Feature)
    requires n <= |SERVICE_ORDER|
    ensures var t' := LogExtReads(t, n, ext);
            Prompts(t', f) == Prompts(t, f) && MessagesSent(t', f) == MessagesSent(t, f)
  {
    if n > 0 {
      ExtReadsRepeat(t, n - 1, ext, f);
    }
  }

  lemma ServiceRepeats(w: World, f: Feature)
    ensures Repeating(w, ServiceTurn(w, map[]), f)
    ensures f in w.store.plain && EntryOf(w.cache, f).owner == STATE_READY ==> DueCount(ServiceTurn(w, map[]), f) == 1
  {
    ReadsRepeat(w.trace, |SERVICE_ORDER|, w.store.plain, f);
    ExtReadsRepeat(LogReads(w.trace, |SERVICE_ORDER|, w.store.plain, map[]), |SERVICE_ORDER|, w.store.ext, f);
    var (s, after) := (Served(w.store.plain, w.store.ext, w.cache), ServiceTurn(w, map[]));
    forall g: Feature
      ensures g in after.store.plain <==> g in w.store.plain
    {
      PassExact(s, map[], g);
    }
    PassExact(s, map[], f);
  }

  lemma {:induction false} PublishAllRepeats(w: World, fs: seq<Feature>, up: set<Feature>, f: Feature)
    ensures Repeating(w, PublishAll(w, fs, up).0, f)
    decreases |fs|
  {
    if fs != [] {
      PublishAllRepeats(Publish(w, fs[0], fs[0] in up), fs[1..], up, f);
    }
  }

  lemma {:induction false} PublishExtAllRepeats(w: World, fs: seq<Feature>, up: set<Feature>, f: Feature)
    ensures Repeating(w, PublishExtAll(w, fs, up), f)
    decreases |fs|
  {
    if fs != [] {
      PublishExtAllRepeats(PublishExt(w, fs[0], fs[0] in up), fs[1..], up, f);
    }
  }

  lemma JobRepeats(w: World, job: Job, input: Input, f: Feature)
    requires Counterexamples.Calm(input) && Worker(job) && (job == Receive ==> input.msgs == [])
    ensures Repeating(w, RunJob(w, job, input).0, f)
  {
    match job
    case Receive =>
    case Heartbeat =>
    case Service =>
      ServiceRepeats(w, f);
      ServiceAside(w, map[]);
    case Camera(g) =>
      var w1 := WithRunning(w, RunningCode(g));
      TransactAllRepeats(w1, Members(g), input, f);
      PollAllCalm(TransactAll(w1, Members(g), input), Members(g));
    case Announce(g) =>
      PublishAllRepeats(w, Members(g), input.up, f);
      PublishExtAllRepeats(PublishAll(w, Members(g), input.up).0, Members(g), input.extUp, f);
  }

  lemma {:induction false} JobsRepeat(w: World, jobs: seq<Job>, input: Input, f: Feature)
    requires Counterexamples.Calm(input) && forall i | 0 <= i < |jobs| :: Worker(jobs[i])
    requires input.msgs == [] || forall i | 0 <= i < |jobs| :: jobs[i] != Receive
    ensures Repeating(w, RunJobs(w, jobs, input), f)
    decreases |jobs|
  {
    if jobs != [] {
      JobRepeats(w, jobs[0], input, f);
      JobsRepeat(RunJob(w, jobs[0], input).0, jobs[1..], input, f);
    }
  }

  /** After the tasks created at the top an announcement of the asked feature is due, or its message has gone out. */
  lemma WorkRepeats(w: World, heart: int, input: Input, f: Feature)
    requires Idle(w) && f in w.store.plain && Counterexamples.Calm(input) && input.msgs == []
    ensures var worked := RunJobs(w, TopJobs(w, heart), input);
            Repeating(w, worked, f) && MessagesSent(worked.trace, f) + DueCount(worked, f) >= MessagesSent(w.trace,
                f) + 1
  {
    var (cameras, served) := (DueCameras(w.store, CAMERA_ORDER), ServiceTurn(w, map[]));
    TopJobsWork(w, heart);
    JobsRepeat(w, TopJobs(w, heart), input, f);
    PrologueRuns(w, heart, input);
    assert Received(w, input) == w;
    RunJobsAppend(w, Prologue(heart), cameras, input);
    assert TopJobs(w, heart) == Prologue(heart) + cameras;
    assert Agrees(KnobOf(w, f), Recall(w.trace, f));
    ServiceRepeats(w, f);
    ServiceSends(w, f);
    DueCamerasWork(w.store, CAMERA_ORDER);
    JobsRepeat(served, cameras, input, f);
  }

  lemma ServiceSends(w: World, f: Feature)
    ensures MessagesSent(ServiceTurn(w, map[]).trace, f) == MessagesSent(w.trace, f)
  {
    ReadsRepeat(w.trace, |SERVICE_ORDER|, w.store.plain, f);
    ExtReadsRepeat(LogReads(w.trace, |SERVICE_ORDER|, w.store.plain, map[]), |SERVICE_ORDER|, w.store.ext, f);
  }

  /** What is due goes out. */
  lemma AnnouncedRepeats(w: World, jobs: seq<Job>, input: Input, f: Feature)
    requires Idle(w) && !Negative(w) && Counterexamples.Calm(input) && input.msgs == [] && f in input.up
    requires (forall i | 0 <= i < |jobs| :: jobs[i].Announce?) && Announce(GroupOf(f)) in jobs
    ensures var w' := RunJobs(w, jobs, input);
            Repeating(w, w', f) && MessagesSent(w'.trace, f) >= MessagesSent(w.trace, f) + DueCount(w, f)
  {
    JobsRepeat(w, jobs, input, f);
    if EntryOf(w.cache, f).updateNeeded {
      DueTells(w, f);
      AnnouncementsTell(w, jobs, input, f, EntryOf(w.cache, f).signal, false);
      assert DueCount(RunJobs(w, jobs, input), f) == 0;
    }
  }

  lemma DueTells(w: World, f: Feature)
    requires Idle(w) && !Negative(w) && EntryOf(w.cache, f).updateNeeded
    ensures Telling(w, f, EntryOf(w.cache, f).signal, false) && 0 <= EntryOf(w.cache, f).signal
  {
    assert Agrees(KnobOf(w, f), Recall(w.trace, f));
  }

  lemma WorkStaysSafe(w: World, heart: int, input: Input)
    requires Idle(w) && Counterexamples.Calm(input) && !Negative(w)
    ensures var worked := RunJobs(w, TopJobs(w, heart), input); Idle(worked) && !Negative(worked)
  {
    JobsCalm(w, TopJobs(w, heart), input);
    RunJobsIdle(w, TopJobs(w, heart), input);
  }

  lemma UncommandedWorld(w: World, heart: int, input: Input)
    requires w.frame.ack != MAV_RESULT_ACCEPTED
    ensures Iteration(w, heart, input) == RunJobs(RunJobs(w, TopJobs(w, heart), input), ANNOUNCEMENTS, input)
  {
  }

  lemma WorkAndAnnounce(w: World, heart: int, jobs: seq<Job>, f: Feature)
    requires Idle(w) && f in w.store.plain && !Negative(w)
    requires (forall i | 0 <= i < |jobs| :: jobs[i].Announce?) && Announce(GroupOf(f)) in jobs
    ensures var w' := RunJobs(RunJobs(w, TopJobs(w, heart), OnlyLink(f)), jobs, OnlyLink(f));
            && f in w'.store.plain && w'.frame == w.frame
            && Prompts(w'.trace, f) == Prompts(w.trace, f)
            && MessagesSent(w'.trace, f) >= MessagesSent(w.trace, f) + 1
  {
    WorkRepeats(w, heart, OnlyLink(f), f);
    WorkStaysSafe(w, heart, OnlyLink(f));
    AnnouncedRepeats(RunJobs(w, TopJobs(w, heart), OnlyLink(f)), jobs, OnlyLink(f), f);
  }

  /** One more message for a request that was answered before. */
  lemma IterationRepeats(w: World, heart: int, f: Feature)
    requires Idle(w) && f in w.store.plain && w.frame.ack != MAV_RESULT_ACCEPTED && !Negative(w)
    ensures var w' := Iteration(w, heart, OnlyLink(f));
            && f in w'.store.plain && w'.frame == w.frame
            && Prompts(w'.trace, f) == Prompts(w.trace, f)
            && MessagesSent(w'.trace, f) >= MessagesSent(w.trace, f) + 1
  {
    EveryGroupAnnounced(f);
    WorkAndAnnounce(w, heart, ANNOUNCEMENTS, f);
    UncommandedWorld(w, heart, OnlyLink(f));
  }

  /**
   * From any top with the slot free, no negative value and an unread request: while the camera cannot be read, nobody
   * asks and nothing is learned, the feature's PARAM_VALUE goes out as often as one likes.
   */
  lemma {:induction false} MissedReadRepeats(l: Loop, f: Feature, n: nat) returns (top: Loop)
    requires TopReached(l) && f in l.world.store.plain
    requires l.world.frame.ack != MAV_RESULT_ACCEPTED && !Negative(l.world)
    ensures TopReached(top)
    ensures Prompts(top.world.trace, f) == Prompts(l.world.trace, f)
    ensures MessagesSent(top.world.trace, f) >= MessagesSent(l.world.trace, f) + n
    decreases n
  {
    if n == 0 {
      top := l;
    } else {
      TopIdle(l);
      IterationRepeats(l.world, l.heart, f);
      var next := CalmNextTop(l, OnlyLink(f));
      top := MissedReadRepeats(next, f, n - 1);
    }
  }

  // ---------- one request, any number of messages ----------

  lemma IsoAsked(w: World)
    requires At(w.store.req, Iso) >= 0
    ensures var (w', m) := (Deliver(w, ParamRead(Tag(Iso))), ParamRead(Tag(Iso)));
            && !AfterMessage(w.store, w.frame, m).dies && Iso in w'.store.plain && w'.frame == w.frame
            && Prompts(w'.trace, Iso) == Prompts(w.trace, Iso) + 1
  {
  }

  lemma AskedAndRun(w: World, jobs: seq<Job>)
    requires At(w.store.req, Iso) >= 0 && forall i | 0 <= i < |jobs| :: Worker(jobs[i]) && jobs[i] != Receive
    ensures var m := ParamRead(Tag(Iso));
            var w' := RunJobs(Deliver(w, m), jobs, Saying(m));
            && Iso in w'.store.plain && w'.frame == w.frame
            && Prompts(w'.trace, Iso) == Prompts(w.trace, Iso) + 1
  {
    IsoAsked(w);
    JobsRepeat(Deliver(w, ParamRead(Tag(Iso))), jobs, Saying(ParamRead(Tag(Iso))), Iso);
  }

  /** An iteration in which only a request for ISO comes in. */
  lemma AskingIteration(w: World, heart: int)
    requires w.frame.ack != MAV_RESULT_ACCEPTED && At(w.store.req, Iso) >= 0
    ensures var w' := Iteration(w, heart, Saying(ParamRead(Tag(Iso))));
            && Iso in w'.store.plain && w'.frame == w.frame
            && Prompts(w'.trace, Iso) == Prompts(w.trace, Iso) + 1
  {
    IsoAsked(w);
    RestOfIteration(w, heart, ParamRead(Tag(Iso)));
    RestIsWork(w, heart);
    TopJobsDistinct(w, heart);
    AskedAndRun(w, TopJobs(w, heart)[1..] + ANNOUNCEMENTS);
  }

  /** The first top of a run in which nothing was asked for and nothing was read. */
  lemma SilentTop() returns (top: Loop)
    ensures TopReached(top) && !Negative(top.world) && top.world.frame.ack != MAV_RESULT_ACCEPTED
    ensures At(top.world.store.req, Iso) >= 0 && Prompts(top.world.trace, Iso) == 0
  {
    top := FirstTop();
  }

  /** A reachable top after a single request and without any reported value, and yet as many messages as one likes. */
  lemma OneRequestManyMessages(n: nat) returns (top: Loop)
    ensures TopReached(top)
    ensures Prompts(top.world.trace, Iso) == 1 && MessagesSent(top.world.trace, Iso) >= n
  {
    var first := SilentTop();
    AskingIteration(first.world, first.heart);
    var asked := CalmNextTop(first, Saying(ParamRead(Tag(Iso))));
    top := MissedReadRepeats(asked, Iso, n);
  }
}
