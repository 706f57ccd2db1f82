/** A request the camera obeys: within one iteration it is committed, unprotected and published. */
module Confirming {
  import opened Features
  import opened Enumerators
  import opened SetPointStores
  import opened Transactions
  import opened ServicePasses
  import opened Messages
  import opened Traces
  import opened Worlds
  import opened Coherence
  import opened EventLoops
  import opened Stopping
  import opened Iterations
  import opened Responses
  import opened Answering

  /** The request v is pending on a free store and is an option of the feature. */
  predicate Orderable(w: World, f: Feature, v: int) {
    && w.store.owner == STATE_READY && At(w.store.req, f) == v && At(w.store.com, f) != v
    && v != STATE_INIT && Enumerate(f, v).Some?
  }

  /** The feature is set to v, and the publisher is to say so. */
  predicate SetTo(k: Knob, v: int) {
    k.req == k.com == v && !k.guarded && k.entry.signal == v && k.entry.updateNeeded
  }

  /** The camera obeys: it echoes v, and a read after that reports v. */
  predicate Obeys(input: Input, f: Feature, v: int) {
    Answer(input, f) == Echo(v) && (f in input.polls ==> ToSlot(input.polls[f]) == v)
  }

  // ---------- one transaction ----------

  lemma TransactSets(w: World, f: Feature, v: int)
    requires Good(w) && Orderable(w, f, v)
    ensures SetTo(KnobOf(Transact(w, f, Echo(v)), f), v)
  {
    assert Agrees(KnobOf(w, f), Recall(w.trace, f));
    OrderConfirmed(w, f, v);
    SettlementContract(w.store, EntryOf(w.cache, f), f, Confirmed);
  }

  lemma OrderConfirmed(w: World, f: Feature, v: int)
    requires Orderable(w, f, v)
    ensures Verdict(w.store, f, Echo(v)) == Confirmed
  {
  }

  lemma TransactElsewhere(w: World, f: Feature, a: CameraAnswer, g: Feature)
    requires Good(w) && g != f
    ensures Untouched(w, Transact(w, f, a), g) && Transact(w, f, a).store.owner == w.store.owner
  {
    assert Agrees(KnobOf(w, f), Recall(w.trace, f));
    TransactPossible(w, f, a);
    var o := Verdict(w.store, f, a);
    SettleElsewhere(w, f, o, CommandOf(f, At(w.store.req, f), o), g);
  }

  lemma {:induction false} TransactAllElsewhere(w: World, fs: seq<Feature>, input: Input, g: Feature)
    requires Good(w) && g !in fs
    ensures Untouched(w, TransactAll(w, fs, input), g) && TransactAll(w, fs, input).store.owner == w.store.owner
    decreases |fs|
  {
    if fs != [] {
      TransactElsewhere(w, fs[0], Answer(input, fs[0]), g);
      TransactGood(w, fs[0], Answer(input, fs[0]));
      TransactAllElsewhere(Transact(w, fs[0], Answer(input, fs[0])), fs[1..], input, g);
    }
  }

  lemma {:induction false} TransactAllSets(w: World, fs: seq<Feature>, input: Input, f: Feature, v: int)
    requires Good(w) && Orderable(w, f, v) && Answer(input, f) == Echo(v)
    requires f in fs && forall i, j | 0 <= i < j < |fs| :: fs[i] != fs[j]
    ensures SetTo(KnobOf(TransactAll(w, fs, input), f), v)
    decreases |fs|
  {
    var w1 := Transact(w, fs[0], Answer(input, fs[0]));
    TransactGood(w, fs[0], Answer(input, fs[0]));
    if fs[0] == f {
      TransactSets(w, f, v);
      TransactAllElsewhere(w1, fs[1..], input, f);
    } else {
      TransactElsewhere(w, fs[0], Answer(input, fs[0]), f);
      TransactAllSets(w1, fs[1..], input, f, v);
    }
  }

  lemma {:induction false} PollAllKeepsSet(w: World, fs: seq<Feature>, polls: Readings, f: Feature, v: int)
    requires SetTo(KnobOf(w, f), v) && (f in polls ==> ToSlot(polls[f]) == v)
    ensures SetTo(KnobOf(PollAll(w, fs, polls), f), v)
    decreases |fs|
  {
    if fs != [] {
      PollAllKeepsSet(Poll(w, fs[0], polls), fs[1..], polls, f, v);
    }
  }

  lemma {:induction false} PollAllElsewhere(w: World, fs: seq<Feature>, polls: Readings, g: Feature)
    requires g !in fs
    ensures KnobOf(PollAll(w, fs, polls), g) == KnobOf(w, g)
    decreases |fs|
  {
    if fs != [] {
      PollAllElsewhere(Poll(w, fs[0], polls), fs[1..], polls, g);
    }
  }

  // ---------- the camera routines ----------

  lemma RunningKeeps(w: World, code: int, f: Feature)
    ensures KnobOf(WithRunning(w, code), f) == KnobOf(w, f)
  {
  }

  lemma OwnCameraSets(w: World, input: Input, f: Feature, v: int)
    requires Good(w) && Orderable(w, f, v) && Obeys(input, f, v)
    ensures SetTo(KnobOf(CameraTurn(w, GroupOf(f), input), f), v)
  {
    var (g, fs) := (GroupOf(f), Members(GroupOf(f)));
    var w1 := WithRunning(w, RunningCode(g));
    RunningGood(w, RunningCode(g));
    TransactAllSets(w1, fs, input, f, v);
    var w2 := TransactAll(w1, fs, input);
    PollAllKeepsSet(w2, fs, input.polls, f, v);
    RunningKeeps(PollAll(w2, fs, input.polls), FUNC_IDLE, f);
  }

  lemma OtherCameraKeeps(w: World, g: Group, input: Input, f: Feature)
    requires Good(w) && g != GroupOf(f)
    ensures KnobOf(CameraTurn(w, g, input), f) == KnobOf(w, f) && CameraTurn(w, g, input).store.owner == w.store.owner
  {
    var w1 := WithRunning(w, RunningCode(g));
    RunningGood(w, RunningCode(g));
    RunningKeeps(w, RunningCode(g), f);
    assert f !in Members(g);
    TransactAllElsewhere(w1, Members(g), input, f);
    var w2 := TransactAll(w1, Members(g), input);
    PollAllElsewhere(w2, Members(g), input.polls, f);
    PollAllStore(w2, Members(g), input.polls);
    RunningKeeps(PollAll(w2, Members(g), input.polls), FUNC_IDLE, f);
  }

  lemma {:induction false} OtherCamerasKeep(w: World, s: Store, gs: seq<Group>, input: Input, f: Feature)
    requires Good(w) && (GroupOf(f) in gs ==> !Due(s, GroupOf(f)))
    ensures KnobOf(RunJobs(w, DueCameras(s, gs), input), f) == KnobOf(w, f)
    decreases |gs|
  {
    if gs != [] {
      if Due(s, gs[0]) {
        OtherCameraKeeps(w, gs[0], input, f);
        CameraGood(w, gs[0], input);
        JobsRunInOrder(w, Camera(gs[0]), DueCameras(s, gs[1..]), input);
        OtherCamerasKeep(CameraTurn(w, gs[0], input), s, gs[1..], input, f);
      } else {
        assert DueCameras(s, gs) == DueCameras(s, gs[1..]);
        OtherCamerasKeep(w, s, gs[1..], input, f);
      }
    }
  }

  lemma {:induction false} CamerasSet(w: World, s: Store, gs: seq<Group>, input: Input, f: Feature, v: int)
    requires Good(w) && Orderable(w, f, v) && Obeys(input, f, v)
    requires GroupOf(f) in gs && Due(s, GroupOf(f)) && forall i, j | 0 <= i < j < |gs| :: gs[i] != gs[j]
    ensures SetTo(KnobOf(RunJobs(w, DueCameras(s, gs), input), f), v)
    decreases |gs|
  {
    if Due(s, gs[0]) {
      JobsRunInOrder(w, Camera(gs[0]), DueCameras(s, gs[1..]), input);
      CameraGood(w, gs[0], input);
      var w1 := CameraTurn(w, gs[0], input);
      if gs[0] == GroupOf(f) {
        OwnCameraSets(w, input, f, v);
        OtherCamerasKeep(w1, s, gs[1..], input, f);
      } else {
        OtherCameraKeeps(w, gs[0], input, f);
        CamerasSet(w1, s, gs[1..], input, f, v);
      }
    } else {
      assert DueCameras(s, gs) == DueCameras(s, gs[1..]);
      CamerasSet(w, s, gs[1..], input, f, v);
    }
  }

  /** After the tasks created at the top the feature is set. */
  lemma WorkSets(w: World, heart: int, input: Input, f: Feature, v: int)
    requires Good(w) && w.store.running == FUNC_IDLE && Due(w.store, GroupOf(f))
    requires Orderable(Received(w, input), f, v) && Obeys(input, f, v)
    ensures SetTo(KnobOf(RunJobs(w, TopJobs(w, heart), input), f), v)
  {
    var cameras := DueCameras(w.store, CAMERA_ORDER);
    var received := Received(w, input);
    JobGood(w, Receive, input);
    ServiceGood(received, input.readings);
    RunJobsAppend(w, Prologue(heart), cameras, input);
    PrologueRuns(w, heart, input);
    GroupsDistinct(f);
    CamerasSet(ServiceTurn(received, input.readings), w.store, CAMERA_ORDER, input, f, v);
    assert TopJobs(w, heart) == Prologue(heart) + cameras;
  }

  // ---------- publishing ----------

  /** The value v is due, or it has gone out. */
  predicate Telling(w: World, f: Feature, v: int, told: bool) {
    var e := EntryOf(w.cache, f);
    && e.owner == STATE_READY && e.signal == v
    && if told then !e.updateNeeded && Recall(w.trace, f).published == Some(v) else e.updateNeeded
  }

  lemma PublishTells(w: World, f: Feature, v: int, told: bool, g: Feature, linkUp: bool)
    requires Telling(w, f, v, told)
    ensures Telling(Publish(w, g, linkUp), f, v, told || (g == f && linkUp && 0 <= v))
  {
  }

  lemma PublishExtTells(w: World, f: Feature, v: int, told: bool, g: Feature, linkUp: bool)
    requires Telling(w, f, v, told)
    ensures Telling(PublishExt(w, g, linkUp), f, v, told)
  {
  }

  lemma {:induction false} PublishAllTells(w: World, fs: seq<Feature>, up: set<Feature>, f: Feature, v: int, told: bool)
    requires Telling(w, f, v, told) && Sendable(w, fs) && 0 <= v && f in up
    ensures Telling(PublishAll(w, fs, up).0, f, v, told || f in fs) && PublishAll(w, fs, up).1 == Completed
    decreases |fs|
  {
    if fs != [] {
      var w1 := Publish(w, fs[0], fs[0] in up);
      PublishTells(w, f, v, told, fs[0], fs[0] in up);
      assert SameSignals(w, w1);
      PublishAllTells(w1, fs[1..], up, f, v, told || fs[0] == f);
    }
  }

  lemma {:induction false} PublishExtAllTells(w: World, fs: seq<Feature>, up: set<Feature>, f: Feature, v: int,
      told: bool)
    requires Telling(w, f, v, told)
    ensures Telling(PublishExtAll(w, fs, up), f, v, told)
    decreases |fs|
  {
    if fs != [] {
      PublishExtTells(w, f, v, told, fs[0], fs[0] in up);
      PublishExtAllTells(PublishExt(w, fs[0], fs[0] in up), fs[1..], up, f, v, told);
    }
  }

  lemma AnnounceTells(w: World, g: Group, input: Input, f: Feature, v: int, told: bool)
    requires Telling(w, f, v, told) && !Negative(w) && 0 <= v && f in input.up
    ensures Telling(PublishTurn(w, g, input).0, f, v, told || g == GroupOf(f)) && !Negative(PublishTurn(w, g, input).0)
  {
    PublishAllTells(w, Members(g), input.up, f, v, told);
    PublishExtAllTells(PublishAll(w, Members(g), input.up).0, Members(g), input.extUp, f, v, told || f in Members(g));
    PublishAllKeepsSignals(w, Members(g), input.up);
    PublishExtAllKeepsSignals(PublishAll(w, Members(g), input.up).0, Members(g), input.extUp);
  }

  lemma {:induction false} AnnouncementsTell(w: World, jobs: seq<Job>, input: Input, f: Feature, v: int, told: bool)
    requires Telling(w, f, v, told) && !Negative(w) && 0 <= v && f in input.up
    requires forall i | 0 <= i < |jobs| :: jobs[i].Announce?
    ensures Telling(RunJobs(w, jobs, input), f, v, told || Announce(GroupOf(f)) in jobs)
    decreases |jobs|
  {
    if jobs != [] {
      AnnounceTells(w, jobs[0].g, input, f, v, told);
      AnnouncementsTell(PublishTurn(w, jobs[0].g, input).0, jobs[1..], input, f, v, told || jobs[0].g == GroupOf(f));
    }
  }

  lemma {:induction false} AnnouncementsKeepSignals(w: World, jobs: seq<Job>, input: Input)
    requires forall i | 0 <= i < |jobs| :: jobs[i].Announce?
    ensures SameSignals(w, RunJobs(w, jobs, input))
    decreases |jobs|
  {
    if jobs != [] {
      var g := jobs[0].g;
      PublishAllKeepsSignals(w, Members(g), input.up);
      PublishExtAllKeepsSignals(PublishAll(w, Members(g), input.up).0, Members(g), input.extUp);
      AnnouncementsKeepSignals(PublishTurn(w, g, input).0, jobs[1..], input);
    }
  }

  // ---------- the iteration ----------

  /** What follows the tasks created at the top, with some publishers at the end. */
  lemma ServedTells(w: World, fr: Frame, jobs: seq<Job>, input: Input, f: Feature, v: int)
    requires Telling(w, f, v, false) && f in input.up && Announce(GroupOf(f)) in jobs
    requires forall i | 0 <= i < |jobs| :: jobs[i].Announce?
    requires !Negative(RunJobs(CommandServed(w, fr, input), jobs, input))
    ensures var w' := RunJobs(CommandServed(w, fr, input), jobs, input);
            w'.store == w.store && EntryOf(w'.cache, f).signal == v && Recall(w'.trace, f).published == Some(v)
  {
    var served := CommandServed(w, fr, input);
    CommandServedStore(w, fr, input);
    CommandServedDesk(w, fr, input, f);
    JobsLeaveStore(served, jobs, input);
    AnnouncementsKeepSignals(served, jobs, input);
    AnnouncementsTell(served, jobs, input, f, v, false);
  }

  /** A value due after the tasks created at the top is published, if the iteration leads to the next top. */
  lemma DueIsPublished(w: World, heart: int, input: Input, f: Feature, v: int)
    requires Telling(RunJobs(w, TopJobs(w, heart), input), f, v, false) && f in input.up
    requires FateOf(w, heart, input) == NextTop
    ensures var (worked, w') := (RunJobs(w, TopJobs(w, heart), input), Iteration(w, heart, input));
            && w'.store == worked.store
            && EntryOf(w'.cache, f).signal == v && Recall(w'.trace, f).published == Some(v)
  {
    EveryGroupAnnounced(f);
    ServedTells(RunJobs(w, TopJobs(w, heart), input), w.frame, ANNOUNCEMENTS, input, f, v);
  }

  /**
   * A due request for an option that the camera obeys is committed, its protect bit cleared, and its value published,
   * by the end of the iteration, if that leads to the next top and the link carries the message.
   */
  lemma ObeyedInIteration(w: World, heart: int, input: Input, f: Feature, v: int)
    requires Good(w) && w.store.running == FUNC_IDLE && Due(w.store, GroupOf(f))
    requires Orderable(Received(w, input), f, v) && Obeys(input, f, v) && f in input.up
    requires FateOf(w, heart, input) == NextTop
    ensures var w' := Iteration(w, heart, input);
            && At(w'.store.req, f) == At(w'.store.com, f) == v && f !in w'.store.protect
            && Recall(w'.trace, f).published == Some(v)
  {
    WorkSets(w, heart, input, f, v);
    WorkFlags(w, heart, input, f);
    DueIsPublished(w, heart, input, f, v);
  }

  // ---------- a read that succeeds ----------

  /** The service pass finds the feature asked for and reads the value v. */
  predicate Reads(w: World, input: Input, f: Feature, v: int) {
    f in Received(w, input).store.plain && f in input.readings && ToSlot(input.readings[f]) == v
  }

  lemma WorkReads(w: World, heart: int, input: Input, f: Feature, v: int)
    requires Good(w) && w.store.running == FUNC_IDLE && !Due(w.store, GroupOf(f)) && Reads(w, input, f, v)
    ensures var k := KnobOf(RunJobs(w, TopJobs(w, heart), input), f);
            !k.plain && k.entry.signal == v && k.entry.updateNeeded && k.entry.owner == STATE_READY
  {
    var cameras := DueCameras(w.store, CAMERA_ORDER);
    var received := Received(w, input);
    JobGood(w, Receive, input);
    ServiceGood(received, input.readings);
    assert Agrees(KnobOf(received, f), Recall(received.trace, f));
    PassExact(Served(received.store.plain, received.store.ext, received.cache), input.readings, f);
    RunJobsAppend(w, Prologue(heart), cameras, input);
    PrologueRuns(w, heart, input);
    OtherCamerasKeep(ServiceTurn(received, input.readings), w.store, CAMERA_ORDER, input, f);
    assert TopJobs(w, heart) == Prologue(heart) + cameras;
  }

  // ---------- a timed read in a camera routine ----------

  lemma MembersDistinct(g: Group)
    ensures forall i, j | 0 <= i < j < |Members(g)| :: Members(g)[i] != Members(g)[j]
  {
  }

  /** A routine that reads the camera caches what it reads, whatever came of its transaction. */
  lemma OwnCameraReads(w: World, input: Input, f: Feature)
    requires Good(w) && f in input.polls
    ensures var e := EntryOf(CameraTurn(w, GroupOf(f), input).cache, f);
            e.signal == ToSlot(input.polls[f]) && e.updateNeeded && e.owner == STATE_READY
  {
    var (g, fs) := (GroupOf(f), Members(GroupOf(f)));
    var w1 := WithRunning(w, RunningCode(g));
    RunningGood(w, RunningCode(g));
    TransactAllGood(w1, fs, input);
    var w2 := TransactAll(w1, fs, input);
    assert Agrees(KnobOf(w2, f), Recall(w2.trace, f));
    MembersDistinct(g);
    PollAllEntry(w2, fs, input.polls, f);
  }

  lemma {:induction false} CamerasRead(w: World, s: Store, gs: seq<Group>, input: Input, f: Feature)
    requires Good(w) && f in input.polls
    requires GroupOf(f) in gs && Due(s, GroupOf(f)) && forall i, j | 0 <= i < j < |gs| :: gs[i] != gs[j]
    ensures var e := EntryOf(RunJobs(w, DueCameras(s, gs), input).cache, f);
            e.signal == ToSlot(input.polls[f]) && e.updateNeeded && e.owner == STATE_READY
    decreases |gs|
  {
    if Due(s, gs[0]) {
      JobsRunInOrder(w, Camera(gs[0]), DueCameras(s, gs[1..]), input);
      CameraGood(w, gs[0], input);
      var w1 := CameraTurn(w, gs[0], input);
      if gs[0] == GroupOf(f) {
        OwnCameraReads(w, input, f);
        OtherCamerasKeep(w1, s, gs[1..], input, f);
        assert KnobOf(RunJobs(w1, DueCameras(s, gs[1..]), input), f) == KnobOf(w1, f);
      } else {
        CamerasRead(w1, s, gs[1..], input, f);
      }
    } else {
      assert DueCameras(s, gs) == DueCameras(s, gs[1..]);
      CamerasRead(w, s, gs[1..], input, f);
    }
  }

  lemma WorkPolls(w: World, heart: int, input: Input, f: Feature)
    requires Good(w) && w.store.running == FUNC_IDLE && Due(w.store, GroupOf(f)) && f in input.polls
    ensures Telling(RunJobs(w, TopJobs(w, heart), input), f, ToSlot(input.polls[f]), false)
  {
    var cameras := DueCameras(w.store, CAMERA_ORDER);
    var received := Received(w, input);
    JobGood(w, Receive, input);
    ServiceGood(received, input.readings);
    RunJobsAppend(w, Prologue(heart), cameras, input);
    PrologueRuns(w, heart, input);
    GroupsDistinct(f);
    CamerasRead(ServiceTurn(received, input.readings), w.store, CAMERA_ORDER, input, f);
    assert TopJobs(w, heart) == Prologue(heart) + cameras;
  }

  /** A value read by a camera routine is published by the end of the iteration. */
  lemma PolledInIteration(w: World, heart: int, input: Input, f: Feature)
    requires Good(w) && w.store.running == FUNC_IDLE && Due(w.store, GroupOf(f)) && f in input.polls
    requires f in input.up && FateOf(w, heart, input) == NextTop
    ensures var (w', v) := (Iteration(w, heart, input), ToSlot(input.polls[f]));
            EntryOf(w'.cache, f).signal == v && Recall(w'.trace, f).published == Some(v)
  {
    WorkPolls(w, heart, input, f);
    DueIsPublished(w, heart, input, f, ToSlot(input.polls[f]));
  }

  /**
   * A feature asked for before or in an iteration and read in it: the value read is published by its end, if that is
   * the next top, the link carries the message and the camera routine that might change the value meanwhile is not due.
   */
  lemma ReadInIteration(w: World, heart: int, input: Input, f: Feature, v: int)
    requires Good(w) && w.store.running == FUNC_IDLE && !Due(w.store, GroupOf(f)) && Reads(w, input, f, v)
    requires f in input.up && FateOf(w, heart, input) == NextTop
    ensures var w' := Iteration(w, heart, input);
            EntryOf(w'.cache, f).signal == v && Recall(w'.trace, f).published == Some(v) && f !in w'.store.plain
  {
    WorkReads(w, heart, input, f, v);
    DueIsPublished(w, heart, input, f, v);
  }
}
