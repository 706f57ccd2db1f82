/** What one iteration of the main loop does for a set-point and for a request. */
module Responses {
  import opened Features
  import opened Enumerators
  import opened SetPointStores
  import opened Transactions
  import opened Messages
  import opened Traces
  import opened Worlds
  import opened Coherence
  import opened EventLoops
  import opened Iterations

  // ---------- a set-point through one iteration ----------

  /** What decides the fate of a feature's set-point. */
  datatype SetPoint = SetPoint(req: int, com: int, owner: int)

  function SetPointOf(s: Store, f: Feature): SetPoint {
    SetPoint(At(s.req, f), At(s.com, f), s.owner)
  }

  /** The set-point after one transaction. */
  function Responded(p: SetPoint, f: Feature, a: CameraAnswer): SetPoint {
    if p.owner != STATE_READY then p
    else match OutcomeOf(f, p.req, p.com, a)
      case Rejected => p.(req := ToSlot(p.com))
      case NotWritable => p.(req := p.com)
      case Confirmed => p.(req := ToSlot(p.req), com := p.req)
      case _ => p
  }

  lemma TransactSetPoint(w: World, f: Feature, a: CameraAnswer, g: Feature)
    ensures SetPointOf(Transact(w, f, a).store, g)
            == if g == f then Responded(SetPointOf(w.store, f), f, a) else SetPointOf(w.store, g)
  {
  }

  lemma {:induction false} TransactAllSetPoint(w: World, fs: seq<Feature>, input: Input, f: Feature)
    requires forall i, j | 0 <= i < j < |fs| :: fs[i] != fs[j]
    ensures SetPointOf(TransactAll(w, fs, input).store, f)
            == if f in fs then Responded(SetPointOf(w.store, f), f, Answer(input, f)) else SetPointOf(w.store, f)
    decreases |fs|
  {
    if fs != [] {
      TransactSetPoint(w, fs[0], Answer(input, fs[0]), f);
      TransactAllSetPoint(Transact(w, fs[0], Answer(input, fs[0])), fs[1..], input, f);
    }
  }

  lemma CameraSetPoint(w: World, g: Group, input: Input, f: Feature)
    ensures SetPointOf(CameraTurn(w, g, input).store, f)
            == if g == GroupOf(f) then Responded(SetPointOf(w.store, f), f, Answer(input, f))
                else SetPointOf(w.store, f)
  {
    var w1 := WithRunning(w, RunningCode(g));
    assert SetPointOf(w1.store, f) == SetPointOf(w.store, f);
    TransactAllSetPoint(w1, Members(g), input, f);
    PollAllStore(TransactAll(w1, Members(g), input), Members(g), input.polls);
  }

  lemma {:induction false} CamerasSetPoint(w: World, s: Store, gs: seq<Group>, input: Input, f: Feature)
    requires forall i, j | 0 <= i < j < |gs| :: gs[i] != gs[j]
    ensures SetPointOf(RunJobs(w, DueCameras(s, gs), input).store, f)
            == if GroupOf(f) in gs && Due(s, GroupOf(f)) then Responded(SetPointOf(w.store, f), f, Answer(input, f))
               else SetPointOf(w.store, f)
    decreases |gs|
  {
    if gs != [] {
      if Due(s, gs[0]) {
        CameraSetPoint(w, gs[0], input, f);
        JobsRunInOrder(w, Camera(gs[0]), DueCameras(s, gs[1..]), input);
        CamerasSetPoint(CameraTurn(w, gs[0], input), s, gs[1..], input, f);
      } else {
        assert DueCameras(s, gs) == DueCameras(s, gs[1..]);
        CamerasSetPoint(w, s, gs[1..], input, f);
      }
    }
  }

  predicate LeavesStore(job: Job) {
    !job.Receive? && !job.Service? && !job.Camera?
  }

  lemma {:induction false} JobsLeaveStore(w: World, jobs: seq<Job>, input: Input)
    requires forall i | 0 <= i < |jobs| :: LeavesStore(jobs[i])
    ensures RunJobs(w, jobs, input).store == w.store
    decreases |jobs|
  {
    if jobs != [] {
      if jobs[0].Announce? {
        PublishAllStore(w, Members(jobs[0].g), input.up);
        PublishExtAllStore(PublishAll(w, Members(jobs[0].g), input.up).0, Members(jobs[0].g), input.extUp);
      }
      JobsLeaveStore(RunJob(w, jobs[0], input).0, jobs[1..], input);
    }
  }

  /** The world once the receiver has run: the store the camera routines of this iteration work on. */
  function Received(w: World, input: Input): World {
    RunJob(w, Receive, input).0
  }

  function Prologue(heart: int): seq<Job> {
    [Receive] + (if heart == 0 then [Heartbeat] else []) + [Service]
  }

  /** The receiver, the heartbeat and the service pass. */
  lemma PrologueRuns(w: World, heart: int, input: Input)
    ensures RunJobs(w, Prologue(heart), input) == ServiceTurn(Received(w, input), input.readings)
  {
    var rest := (if heart == 0 then [Heartbeat] else []) + [Service];
    assert Prologue(heart) == [Receive] + rest;
    JobsRunInOrder(w, Receive, rest, input);
    var w1 := Received(w, input);
    if heart == 0 {
      assert rest == [Heartbeat] + [Service];
      JobsRunInOrder(w1, Heartbeat, [Service], input);
    } else {
      assert rest == [Service];
    }
    assert [Service] == [Service] + [];
    JobsRunInOrder(w1, Service, [], input);
  }

  lemma BeginCommandStore(w: World, fr: Frame, input: Input)
    ensures BeginCommand(w, fr, input).store == w.store
  {
    JobsLeaveStore(w, [FirstAck(fr)], input);
  }

  lemma CommandServedStore(w: World, fr: Frame, input: Input)
    ensures CommandServed(w, fr, input).store == w.store
  {
    BeginCommandStore(w, fr, input);
    var begun := BeginCommand(w, fr, input);
    JobsLeaveStore(begun, [Process, ErrorHandler], input);
    var w1 := RunJobs(begun, [Process, ErrorHandler], input);
    JobsLeaveStore(w1, [SecondAck(w1.frame)], input);
  }

  lemma GroupsDistinct(f: Feature)
    ensures GroupOf(f) in CAMERA_ORDER && forall i, j | 0 <= i < j < |CAMERA_ORDER|
        :: CAMERA_ORDER[i] != CAMERA_ORDER[j]
  {
  }

  lemma WorkedSetPoint(w: World, heart: int, input: Input, f: Feature)
    requires w.store.running == FUNC_IDLE
    ensures var p := SetPointOf(Received(w, input).store, f);
            SetPointOf(RunJobs(w, TopJobs(w, heart), input).store, f)
            == if Due(w.store, GroupOf(f)) then Responded(p, f, Answer(input, f)) else p
  {
    var cameras := DueCameras(w.store, CAMERA_ORDER);
    RunJobsAppend(w, Prologue(heart), cameras, input);
    PrologueRuns(w, heart, input);
    GroupsDistinct(f);
    CamerasSetPoint(ServiceTurn(Received(w, input), input.readings), w.store, CAMERA_ORDER, input, f);
  }

  /**
   * An iteration takes a set-point through at most one transaction: exactly one if its routine was due at the top,
   * with the request as the receiver left it, and none otherwise.
   */
  lemma IterationSetPoint(w: World, heart: int, input: Input, f: Feature)
    requires w.store.running == FUNC_IDLE
    ensures var p := SetPointOf(Received(w, input).store, f);
            SetPointOf(Iteration(w, heart, input).store, f)
            == if Due(w.store, GroupOf(f)) then Responded(p, f, Answer(input, f)) else p
  {
    WorkedSetPoint(w, heart, input, f);
    var worked := RunJobs(w, TopJobs(w, heart), input);
    if Stalls(w.frame) {
      BeginCommandStore(worked, w.frame, input);
      JobsLeaveStore(BeginCommand(worked, w.frame, input), [Process, ErrorHandler], input);
    } else {
      CommandServedStore(worked, w.frame, input);
      JobsLeaveStore(CommandServed(worked, w.frame, input), ANNOUNCEMENTS, input);
    }
  }

  /** A pending set-point has its routine due, but focus area only once focus mode was asked for or committed. */
  lemma PendingIsDue(s: Store, f: Feature)
    requires Pending(s, f)
    ensures Due(s, GroupOf(f)) <==> f != FocusArea || At(s.req, Focus) != STATE_INIT || At(s.com, Focus) != STATE_INIT
  {
  }

  lemma RespondedSettles(p: SetPoint, f: Feature, a: CameraAnswer)
    requires p.owner == STATE_READY && InSlot(p.req) && InSlot(p.com)
    ensures var p' := Responded(p, f, a);
            p'.req == p'.com
            <==> p.req == p.com
                 || (p.req != STATE_INIT && (Enumerate(f, p.req).None? || a == Refuses || a == Echo(p.req)))
  {
  }

  /**
   * A set-point pending at the top of an iteration is settled at its end exactly when the receiver already brought
   * request and commitment together, or its routine was due and the request (as the receiver left it) is not the
   * reserved 99 and is invalid, refused or echoed.
   */
  lemma BoundedResponse(w: World, heart: int, input: Input, f: Feature)
    requires Good(w) && w.store.running == FUNC_IDLE && Pending(w.store, f)
    requires Received(w, input).store.owner == STATE_READY
    ensures var (p, p') := (SetPointOf(Received(w, input).store, f), SetPointOf(Iteration(w, heart, input).store, f));
            var (a, focus) := (Answer(input, f), SetPointOf(w.store, Focus));
            p'.req == p'.com
            <==> p.req == p.com
                 || ((f != FocusArea || focus.req != STATE_INIT || focus.com != STATE_INIT)
                     && p.req != STATE_INIT && (Enumerate(f, p.req).None? || a == Refuses || a == Echo(p.req)))
  {
    IterationSetPoint(w, heart, input, f);
    PendingIsDue(w.store, f);
    JobGood(w, Receive, input);
    assert Agrees(KnobOf(Received(w, input), f), Recall(Received(w, input).trace, f));
    RespondedSettles(SetPointOf(Received(w, input).store, f), f, Answer(input, f));
  }
}
