/** Concrete inputs on which the code does less than its design says. */
module Counterexamples {
  import opened Features
  import opened Enumerators
  import opened PythonText
  import opened CameraText
  import opened FloatBits
  import opened Chunker
  import opened SetPointStores
  import MemoryValues
  import opened Transactions
  import opened ServicePasses
  import opened Messages
  import opened Worlds
  import opened Traces
  import opened EventLoops
  import opened Handshakes
  import opened Stopping
  import opened Runs
  import opened Inputs
  import opened Iterations
  import opened Responses
  import opened Liveness
  import opened Refusals

  // ---------- single messages and values ----------

  /** A PARAM_SET of S_ISO with the float type (9) and the bits of infinity leaves a free store held. */
  lemma InfinityLeavesStoreHeld(s: Store, fr: Frame)
    requires s.owner == STATE_READY
    ensures AfterMessage(s, fr, ParamSetMessage("S_ISO", 9, 0x7F80_0000)).store.owner == STATE_MAV_WRITING
  {
    ContainsSelf("S_ISO");
    assert TargetOf("S_ISO") == Tag(Iso);
    ReceivedExact(9, 0x7F80_0000);
    assert SingleOf(0x7F80_0000).exp == 255;
  }

  /** A PARAM_EXT_REQUEST_READ whose immediate answer does not go out leaves no trace in the store. */
  lemma UnansweredExtReadIsLost(s: Store, fr: Frame)
    ensures AfterMessage(s, fr, ExtRead(Tag(Iso), false)) == Effect(s, fr, false)
  {
  }

  /** The word 0x7F800001, a signalling NaN pattern, does not come back. */
  lemma SignallingWordIsChanged()
    ensures FromMessage(5, ToMessage(5, 0x7F80_0001)) != Some(Whole(0x7F80_0001))
  {
    ConversionRoundTrip(5, 0x7F80_0001);
    assert IsSignalling(SingleOf(0x7F80_0001));
  }

  /** Blank tokens, then the key at index 99999 and its value at index 100000. */
  function LateKey(key: string): seq<string> {
    seq(NOT_ARMED, i => "") + [key, "1"]
  }

  /** The scanner misses the value of a key that falls on the reserved index. */
  lemma LateKeyIsLost(key: string)
    requires key == "ISO_Format"
    ensures |LateKey(key)| == 100001
    ensures IndexPicked(LateKey(key), key, NOT_ARMED, 0, NOT_ARMED) != Picked(LateKey(key), key, false)
  {
    var tokens := LateKey(key);
    ContainsSelf(key);
    assert tokens[NOT_ARMED] == key;
    assert ArmedBefore(tokens, key, NOT_ARMED + 1);
    OneIsValue(key);
    assert tokens[NOT_ARMED + 1..] == ["1"];
    SentinelLoopExact(tokens, key, NOT_ARMED);
  }

  lemma OneIsValue(key: string)
    requires |key| > 1
    ensures KindOf("1", key) == Value
  {
    if Contains("1", key) {
      ContainsLength("1", key);
    }
    if Contains("1", ":") {
      CharFound("1", ':');
    }
  }

  /** A file of one byte is not sent at all. */
  lemma OneByteIsNotSent(payload: seq<int>, chunks: seq<seq<int>>)
    requires |payload| == 1 && |chunks| == ChunkCount(1)
    ensures chunks == [] && !(payload <= Stream(chunks))
  {
  }

  // ---------- start-up ----------

  lemma NegativeFirstReading(first: Readings, second: Readings, f: Feature, inputs: seq<Input>)
    requires f in first && ToSlot(first[f]) < 0 && |inputs| == 8
    ensures Run(Boot(first, second), inputs).ctl == Stopped
  {
    FirstWorldExact(first, second, f);
    BootArrives(first, second, inputs);
  }

  /** A first ISO reading of 4294967295 reads as -1 in the slot, and main stops before its first iteration. */
  lemma NegativeFirstReadingStops(inputs: seq<Input>)
    requires |inputs| == 8
    ensures Run(Boot(map[Iso := 4294967295], map[]), inputs).ctl == Stopped
  {
    NegativeFirstReading(map[Iso := 4294967295], map[], Iso, inputs);
  }

  // ---------- an outside that says nothing ----------

  /** Only messages come in: the camera reports nothing and confirms nothing. */
  predicate Calm(input: Input) {
    input.readings == map[] && input.polls == map[] && input.answers == map[]
  }

  lemma {:induction false} TransactAllCalm(w: World, fs: seq<Feature>, input: Input)
    requires Calm(input)
    ensures SameSignals(w, TransactAll(w, fs, input))
    decreases |fs|
  {
    if fs != [] {
      var w1 := Transact(w, fs[0], Unusable);
      assert Verdict(w.store, fs[0], Unusable) != Confirmed;
      assert SameSignals(w, w1);
      TransactAllCalm(w1, fs[1..], input);
    }
  }

  lemma {:induction false} PollAllCalm(w: World, fs: seq<Feature>)
    ensures PollAll(w, fs, map[]) == w
    decreases |fs|
  {
    if fs != [] {
      PollAllCalm(w, fs[1..]);
    }
  }

  lemma JobCalm(w: World, job: Job, input: Input)
    requires Calm(input)
    ensures SameSignals(w, RunJob(w, job, input).0)
  {
    match job
    case Receive => ReceivingIsMessageLoop(w, input.msgs, MESSAGES_PER_TASK);
    case Service =>
      forall f: Feature
        ensures EntryOf(ServiceTurn(w, map[]).cache, f).signal == EntryOf(w.cache, f).signal
      {
        PassExact(Served(w.store.plain, w.store.ext, w.cache), map[], f);
      }
    case Camera(g) =>
      var w1 := WithRunning(w, RunningCode(g));
      TransactAllCalm(w1, Members(g), input);
      PollAllCalm(TransactAll(w1, Members(g), input), Members(g));
    case Announce(g) =>
      PublishAllKeepsSignals(w, Members(g), input.up);
      PublishExtAllKeepsSignals(PublishAll(w, Members(g), input.up).0, Members(g), input.extUp);
    case _ =>
  }

  lemma {:induction false} JobsCalm(w: World, jobs: seq<Job>, input: Input)
    requires Calm(input)
    ensures SameSignals(w, RunJobs(w, jobs, input))
    decreases |jobs|
  {
    if jobs != [] {
      JobCalm(w, jobs[0], input);
      JobsCalm(RunJob(w, jobs[0], input).0, jobs[1..], input);
    }
  }

  /** A calm iteration that no command stalls leaves no negative value where there was none. */
  lemma CalmIteration(w: World, heart: int, input: Input)
    requires Calm(input) && !Stalls(w.frame) && !Negative(w)
    ensures FateOf(w, heart, input) == NextTop
  {
    var worked := RunJobs(w, TopJobs(w, heart), input);
    JobsCalm(w, TopJobs(w, heart), input);
    CommandCalm(worked, w.frame, input);
    JobsCalm(CommandServed(worked, w.frame, input), ANNOUNCEMENTS, input);
  }

  lemma CommandCalm(w: World, fr: Frame, input: Input)
    requires Calm(input)
    ensures SameSignals(w, CommandServed(w, fr, input))
  {
    var begun := BeginCommand(w, fr, input);
    JobsCalm(w, [FirstAck(fr)], input);
    assert SameSignals(w, begun);
    JobsCalm(begun, [Process, ErrorHandler], input);
    var served := RunJobs(begun, [Process, ErrorHandler], input);
    JobsCalm(served, [SecondAck(served.frame)], input);
  }

  lemma ShowsSame(input: Input, jobs: seq<Job>, inputs: seq<Input>)
    requires |inputs| == |jobs| && forall k | 0 <= k < |inputs| :: inputs[k] == input
    ensures Shows(input, jobs, inputs)
  {
  }

  function Copies(input: Input, n: nat): (r: seq<Input>)
    ensures |r| == n && forall k | 0 <= k < n :: r[k] == input
    decreases n, input
  {
    if n == 0 then [] else [input] + Copies(input, n - 1)
  }

  lemma SameHears(w: World, heart: int, input: Input, inputs: seq<Input>)
    requires |inputs| == Span(w, heart) && forall k | 0 <= k < |inputs| :: inputs[k] == input
    ensures Hears(input, w, heart, inputs)
  {
    var (jobs, n) := (TopJobs(w, heart), |TopJobs(w, heart)|);
    if w.frame.ack != MAV_RESULT_ACCEPTED {
      ShowsSame(input, jobs + ANNOUNCEMENTS, inputs[..n + 7]);
    } else {
      ShowsSame(input, jobs, inputs[..n]);
      if !Unserved(w.frame.typ) {
        ShowsSame(input, ANNOUNCEMENTS, inputs[n + 7..n + 14]);
      }
    }
  }

  lemma HeardNextTop(l: Loop, inputs: seq<Input>, input: Input) returns (top: Loop)
    requires TopReached(l) && Hears(input, l.world, l.heart, inputs) && FateOf(l.world, l.heart, input) == NextTop
    ensures TopReached(top) && top.world == Iteration(l.world, l.heart, input)
  {
    TopIdle(l);
    LoopRefinesIteration(l, inputs, input);
    RunReachable(Top(l), inputs);
    top :| AtTop(Run(Top(l), inputs), top, Iteration(l.world, l.heart, input), Beat(l.heart));
  }

  /** The next top after an iteration that no command stalls, on one and the same calm input. */
  lemma CalmNextTop(l: Loop, input: Input) returns (top: Loop)
    requires TopReached(l) && Calm(input) && !Stalls(l.world.frame) && !Negative(l.world)
    ensures TopReached(top) && top.world == Iteration(l.world, l.heart, input) && !Negative(top.world)
  {
    SameHears(l.world, l.heart, input, Copies(input, Span(l.world, l.heart)));
    CalmIteration(l.world, l.heart, input);
    top := HeardNextTop(l, Copies(input, Span(l.world, l.heart)), input);
  }

  // ---------- the first top ----------

  lemma BootReachable(first: Readings, second: Readings)
    ensures Reachable(Boot(first, second))
  {
    var run := [Boot(first, second)];
    assert run[0] == Boot(first, second) && Booted(run[0]);
    assert IsRun(run, []);
  }

  /** Nothing has happened, nothing is cached and nothing is due. */
  ghost predicate Blank(w: World) {
    w.store == NEW_STORE && w.frame == NEW_FRAME && w.trace == Silence && BlankCache(w)
  }

  ghost predicate BlankCache(w: World) {
    forall f: Feature :: EntryOf(w.cache, f) == MemoryValues.BLANK
  }

  lemma {:induction false} BlankReads(w: World, fs: seq<Feature>, none: Readings)
    requires Blank(w) && none == map[]
    ensures Blank(FirstReads(w, fs, none))
    decreases |fs|
  {
    if fs != [] {
      var w1 := FirstRead(w, fs[0], none);
      forall f: Feature
        ensures EntryOf(w1.cache, f) == MemoryValues.BLANK
      {
        assert EntryOf(w.cache, f) == MemoryValues.BLANK;
      }
      BlankReads(w1, fs[1..], none);
    }
  }

  /** Without any camera reading the first world is blank. */
  lemma BlankFirstWorld(none: Readings)
    requires none == map[]
    ensures Blank(FirstWorld(none, none)) && !Negative(FirstWorld(none, none))
  {
    BlankReads(NEW_WORLD, INIT_ORDER, none);
    PollAllCalm(FirstReads(NEW_WORLD, INIT_ORDER, none), INIT_ORDER);
  }

  lemma {:induction false} BlankPublishes(w: World, fs: seq<Feature>, up: set<Feature>)
    requires BlankCache(w)
    ensures PublishAll(w, fs, up) == (w, Completed) && PublishExtAll(w, fs, up) == w
    decreases |fs|
  {
    if fs != [] {
      assert EntryOf(w.cache, fs[0]) == MemoryValues.BLANK;
      BlankPublishes(w, fs[1..], up);
    }
  }

  /** The publishers have nothing to say. */
  lemma {:induction false} BlankStays(w: World, jobs: seq<Job>, input: Input)
    requires BlankCache(w) && forall i | 0 <= i < |jobs| :: jobs[i].Announce?
    ensures RunJobs(w, jobs, input) == w
    decreases |jobs|
  {
    if jobs != [] {
      BlankPublishes(w, Members(jobs[0].g), input.up);
      BlankPublishes(w, Members(jobs[0].g), input.extUp);
      BlankStays(w, jobs[1..], input);
    }
  }

  lemma BlankTop(l: Loop, none: Readings, w: World, jobs: seq<Job>, input: Input) returns (top: Loop)
    requires none == map[] && w == FirstWorld(none, none) && Reachable(l)
    requires Started(l, Negative(w), RunJobs(w, jobs, input)) && forall i | 0 <= i < |jobs| :: jobs[i].Announce?
    ensures TopReached(top) && !Negative(top.world) && top.world.trace == Silence
    ensures top.world.store == NEW_STORE.(owner := STATE_READY) && top.world.frame == NEW_FRAME
  {
    BlankFirstWorld(none);
    BlankStays(w, jobs, input);
    top :| AtTop(l, top, w.(store := InitClassState(w.store)), 0);
  }

  lemma BootRuns(first: Readings, second: Readings, inputs: seq<Input>) returns (l: Loop)
    requires |inputs| == 8
    ensures Reachable(l)
    ensures var w := FirstWorld(first, second);
            Started(l, Negative(w), RunJobs(w, ANNOUNCEMENTS, Merged(ANNOUNCEMENTS, inputs[..7])))
  {
    BootReachable(first, second);
    RunReachable(Boot(first, second), inputs);
    BootArrives(first, second, inputs);
    l := Run(Boot(first, second), inputs);
  }

  lemma AnnouncementsOnly()
    ensures forall i | 0 <= i < |ANNOUNCEMENTS| :: ANNOUNCEMENTS[i].Announce?
  {
  }

  lemma FirstTopFrom(none: Readings, inputs: seq<Input>) returns (top: Loop)
    requires none == map[] && |inputs| == 8
    ensures TopReached(top) && !Negative(top.world) && top.world.trace == Silence
    ensures top.world.store == NEW_STORE.(owner := STATE_READY) && top.world.frame == NEW_FRAME
  {
    var l := BootRuns(none, none, inputs);
    AnnouncementsOnly();
    top := BlankTop(l, none, FirstWorld(none, none), ANNOUNCEMENTS, Merged(ANNOUNCEMENTS, inputs[..7]));
  }

  /** The first top of a run whose camera was never read. */
  lemma FirstTop() returns (top: Loop)
    ensures TopReached(top) && !Negative(top.world) && top.world.trace == Silence
    ensures top.world.store == NEW_STORE.(owner := STATE_READY) && top.world.frame == NEW_FRAME
  {
    top := FirstTopFrom(map[], Copies(QUIET, 8));
  }

  // ---------- focus area ----------

  function Saying(m: Message): (input: Input)
    ensures Calm(input)
  {
    QUIET.(msgs := [m])
  }

  lemma FocusAreaWished(w: World, heart: int)
    requires w.store == NEW_STORE.(owner := STATE_READY)
    ensures var s := Iteration(w, heart, Saying(ParamSet(Tag(FocusArea), Some(1), true))).store;
            SetPointOf(s, FocusArea) == SetPoint(1, STATE_INIT, STATE_READY)
            && SetPointOf(s, Focus) == SetPoint(STATE_INIT, STATE_INIT, STATE_READY)
  {
    var m := ParamSet(Tag(FocusArea), Some(1), true);
    OneMessage(w, m);
    IterationSetPoint(w, heart, Saying(m), FocusArea);
    IterationSetPoint(w, heart, Saying(m), Focus);
  }

  /** A reachable top at which a valid focus area is pending, focus mode was never asked for, and no routine is due. */
  lemma FocusAreaWaits() returns (top: Loop)
    ensures TopReached(top) && Pending(top.world.store, FocusArea)
        && Enumerate(FocusArea, At(top.world.store.req, FocusArea)).Some?
    ensures At(top.world.store.req, Focus) == STATE_INIT && !Due(top.world.store, GFocus)
  {
    var first := FirstTop();
    top := CalmNextTop(first, Saying(ParamSet(Tag(FocusArea), Some(1), true)));
    FocusAreaWished(first.world, first.heart);
    WaitingFocusArea(top.world.store);
  }

  lemma WaitingFocusArea(s: Store)
    requires SetPointOf(s, FocusArea) == SetPoint(1, STATE_INIT, STATE_READY)
    requires SetPointOf(s, Focus) == SetPoint(STATE_INIT, STATE_INIT, STATE_READY)
    ensures Pending(s, FocusArea) && Enumerate(FocusArea, At(s.req, FocusArea)).Some? && !Due(s, GFocus)
  {
  }

  lemma OneMessage(w: World, m: Message)
    requires !AfterMessage(w.store, w.frame, m).dies
    ensures Received(w, Saying(m)) == Deliver(w, m)
  {
    assert [m][1..] == [];
    assert Receiving(Deliver(w, m), [], MESSAGES_PER_TASK - 1).0 == Deliver(w, m);
  }

  // ---------- a command nobody can serve ----------

  /** After the receiver took a command, the rest of an iteration without a command leaves the frame alone. */
  lemma TakenStays(w: World, heart: int, m: Message)
    requires Linked(w) && w.frame.ack != MAV_RESULT_ACCEPTED && !AfterMessage(w.store, w.frame, m).dies
    requires AfterMessage(w.store, w.frame, m).frame.ack == MAV_RESULT_ACCEPTED
    ensures SlotKept(AfterMessage(w.store, w.frame, m).frame, Iteration(w, heart, Saying(m)).frame)
  {
    DeliveredLinked(w, m);
    RestOfIteration(w, heart, m);
    RestIsWork(w, heart);
    WorkKeepsSlot(Deliver(w, m), TopJobs(w, heart)[1..] + ANNOUNCEMENTS, Saying(m));
  }

  lemma DeliveredLinked(w: World, m: Message)
    requires Linked(w)
    ensures Linked(Deliver(w, m)) && Deliver(w, m).frame == AfterMessage(w.store, w.frame, m).frame
  {
    DeliverLinked(w, m);
  }

  lemma RestIsWork(w: World, heart: int)
    ensures var rest := TopJobs(w, heart)[1..] + ANNOUNCEMENTS; forall i | 0 <= i < |rest| :: Worker(rest[i])
  {
    TopJobsWork(w, heart);
  }

  lemma RestOfIteration(w: World, heart: int, m: Message)
    requires w.frame.ack != MAV_RESULT_ACCEPTED && !AfterMessage(w.store, w.frame, m).dies
    ensures Iteration(w, heart, Saying(m)) == RunJobs(Deliver(w, m), TopJobs(w, heart)[1..] + ANNOUNCEMENTS, Saying(m))
  {
    var jobs := TopJobs(w, heart);
    OneMessage(w, m);
    assert jobs == [Receive] + jobs[1..];
    JobsRunInOrder(w, Receive, jobs[1..], Saying(m));
    RunJobsAppend(Deliver(w, m), jobs[1..], ANNOUNCEMENTS, Saying(m));
  }

  /** A request for message 263 while the slot is free: the next iteration never ends, whatever the outside does. */
  lemma ImageRequestHangs(l: Loop, inputs: seq<Input>) returns (top: Loop)
    requires TopReached(l) && l.world.frame.ack != MAV_RESULT_ACCEPTED && !Negative(l.world)
    ensures TopReached(top) && Stalls(top.world.frame)
    ensures |inputs| == Span(top.world, top.heart) ==> Run(Top(top), inputs).ctl == Hung
  {
    var m := CommandLong(MAV_CMD_REQUEST_MESSAGE, Some(263.0));
    top := CalmNextTop(l, Saying(m));
    ImageRequestUnserved(l.world.store, l.world.frame);
    TopLinked(l);
    TakenStays(l.world, l.heart, m);
    if |inputs| == Span(top.world, top.heart) {
      RunsAreIterations(top, inputs);
    }
  }

  /** So some run hangs: message 263 is asked for at its first top. */
  lemma SomeRunHangs() returns (l: Loop)
    ensures Reachable(l) && l.ctl == Hung
  {
    var first := FirstTop();
    var top := ImageRequestHangs(first, []);
    var inputs := Copies(QUIET, Span(top.world, top.heart));
    RunsAreIterations(top, inputs);
    RunReachable(Top(top), inputs);
    l := Run(Top(top), inputs);
  }

  // ---------- rejected commands ----------

  const SOME_COMMAND := CommandLong(400, Some(0.0))

  /** A command that finds the slot taken is recorded as rejected. */
  lemma CommandIsRejected(w: World)
    requires w.frame.ack == MAV_RESULT_ACCEPTED
    ensures NoteOf(Received(w, Saying(SOME_COMMAND)).frame) == Note(GOT_ERROR, 400, 0.0)
  {
    OneMessage(w, SOME_COMMAND);
  }

  lemma HangReached(top: Loop, input: Input) returns (l: Loop)
    requires TopReached(top) && Stalls(top.world.frame)
    ensures Reachable(l) && l.ctl == Hung && l.world == Iteration(top.world, top.heart, input)
  {
    var inputs := Copies(input, Span(top.world, top.heart));
    SameHears(top.world, top.heart, input, inputs);
    TopIdle(top);
    LoopRefinesIteration(top, inputs, input);
    RunReachable(Top(top), inputs);
    l := Run(Top(top), inputs);
  }

  /**
   * Message 263 is asked for, and a command arrives in the next iteration: the loop hangs and acknowledges the
   * latter.
   */
  lemma RejectionIsSent() returns (l: Loop)
    ensures Reachable(l) && l.ctl == Hung
    ensures Rejections(l.world.trace) == [Rejection(400, 0, MAV_RESULT_TEMPORARILY_REJECTED)]
  {
    var first := FirstTop();
    var top := ImageRequestHangs(first, []);
    l := HangReached(top, Saying(SOME_COMMAND));
    TopLinked(top);
    AcknowledgementsExact(l);
    CommandIsRejected(top.world);
    StalledRejections(top.world, top.heart, Saying(SOME_COMMAND));
  }

  /** The first top after a command that can be served was taken. */
  lemma TakenTop() returns (top: Loop)
    ensures TopReached(top) && !Negative(top.world) && top.world.frame.ack == MAV_RESULT_ACCEPTED
    ensures !Stalls(top.world.frame)
  {
    var first := FirstTop();
    top := CalmNextTop(first, Saying(SOME_COMMAND));
    TopLinked(first);
    TakenKept(first.world, first.heart);
  }

  lemma SlotFilled(w: World)
    requires w.frame.ack != MAV_RESULT_ACCEPTED
    ensures var e := AfterMessage(w.store, w.frame, SOME_COMMAND);
            !e.dies && e.frame.ack == MAV_RESULT_ACCEPTED && e.frame.typ == 400
  {
  }

  lemma TakenKept(w: World, heart: int)
    requires Linked(w) && w.frame.ack != MAV_RESULT_ACCEPTED
    ensures var fr := Iteration(w, heart, Saying(SOME_COMMAND)).frame; fr.ack == MAV_RESULT_ACCEPTED && fr.typ == 400
  {
    SlotFilled(w);
    TakenStays(w, heart, SOME_COMMAND);
  }

  lemma TopSendsNothing(top: Loop)
    requires TopReached(top)
    ensures Rejections(top.world.trace) == []
  {
    AcknowledgementsExact(Top(top));
    TopWaits(top);
  }

  /** The same with a command that can be served in place of message 263: the rejection stands and nothing is sent. */
  lemma RejectionIsNotSent() returns (top: Loop)
    ensures TopReached(top) && NoteOf(top.world.frame) == Note(GOT_ERROR, 400, 0.0)
    ensures Rejections(top.world.trace) == []
  {
    var taken := TakenTop();
    top := CalmNextTop(taken, Saying(SOME_COMMAND));
    TopLinked(taken);
    CommandIsRejected(taken.world);
    RejectionStands(taken.world, taken.heart, Saying(SOME_COMMAND));
    TopSendsNothing(top);
  }
}
