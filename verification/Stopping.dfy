/** Why main ever stops: an announcement fails exactly on a negative value, and nothing else main waits for can fail. */
module Stopping {
  import opened Features
  import opened ServicePasses
  import opened Messages
  import opened Traces
  import opened Worlds
  import opened Coherence
  import opened EventLoops
  import opened ReadyQueues
  import opened Handshakes
  import opened RunSafety

  // ---------- announcing a negative value ----------

  /** Some feature has a negative value cached. */
  ghost predicate Negative(w: World) {
    exists f: Feature :: EntryOf(w.cache, f).signal < 0
  }

  predicate Sendable(w: World, fs: seq<Feature>) {
    forall i | 0 <= i < |fs| :: 0 <= EntryOf(w.cache, fs[i]).signal
  }

  ghost predicate SameSignals(w: World, w': World) {
    forall f: Feature :: EntryOf(w'.cache, f).signal == EntryOf(w.cache, f).signal
  }

  lemma RememberPublished(h: History, e: Event, f: Feature)
    ensures Remember(h, e, f).published == if e.Published? && e.f == f then Some(e.value) else h.published
  {
  }

  lemma {:induction false} PublishedNonnegative(t: Trace, f: Feature)
    requires Sound(t)
    ensures match Recall(t, f).published case Some(v) => 0 <= v case None => true
  {
    if t.Then? {
      PublishedNonnegative(t.before, f);
      RememberPublished(Recall(t.before, f), t.last, f);
    }
  }

  /** A negative value was never published, so its announcement is still due. */
  lemma NegativeIsDue(w: World, f: Feature)
    requires Good(w) && EntryOf(w.cache, f).signal < 0
    ensures EntryOf(w.cache, f).updateNeeded
  {
    PublishedNonnegative(w.trace, f);
    assert Agrees(KnobOf(w, f), Recall(w.trace, f));
  }

  lemma {:induction false} PublishAllKeepsSignals(w: World, fs: seq<Feature>, up: set<Feature>)
    ensures SameSignals(w, PublishAll(w, fs, up).0)
    decreases |fs|
  {
    if fs != [] {
      PublishAllKeepsSignals(Publish(w, fs[0], fs[0] in up), fs[1..], up);
    }
  }

  lemma {:induction false} PublishExtAllKeepsSignals(w: World, fs: seq<Feature>, up: set<Feature>)
    ensures SameSignals(w, PublishExtAll(w, fs, up))
    decreases |fs|
  {
    if fs != [] {
      PublishExtAllKeepsSignals(PublishExt(w, fs[0], fs[0] in up), fs[1..], up);
    }
  }

  lemma {:induction false} PublishAllExact(w: World, fs: seq<Feature>, up: set<Feature>)
    requires Good(w)
    ensures PublishAll(w, fs, up).1 == if Sendable(w, fs) then Completed else Failed
    decreases |fs|
  {
    if fs != [] {
      var w1 := Publish(w, fs[0], fs[0] in up);
      if EntryOf(w.cache, fs[0]).signal < 0 {
        NegativeIsDue(w, fs[0]);
      } else {
        PublishGood(w, fs[0], fs[0] in up);
        assert SameSignals(w, w1);
        PublishAllExact(w1, fs[1..], up);
        assert Sendable(w, fs) <==> Sendable(w1, fs[1..]);
      }
    }
  }

  /** A publisher dies exactly when a feature of its group holds a negative value, whatever the link does. */
  lemma AnnounceExact(w: World, g: Group, input: Input)
    requires Good(w)
    ensures var (w', end) := PublishTurn(w, g, input);
            SameSignals(w, w') && end == if Sendable(w, Members(g)) then Completed else Failed
  {
    PublishAllExact(w, Members(g), input.up);
    PublishAllKeepsSignals(w, Members(g), input.up);
    PublishExtAllKeepsSignals(PublishAll(w, Members(g), input.up).0, Members(g), input.extUp);
  }

  function AnnouncementOf(f: Feature): (k: nat)
    ensures k < |ANNOUNCEMENTS| && ANNOUNCEMENTS[k] == Announce(GroupOf(f))
  {
    match GroupOf(f)
    case GIso => 0
    case GAperture => 1
    case GFocus => 2
    case GExPro => 3
    case GShutter => 4
    case GWhiteBal => 5
    case GStillCap => 6
  }

  lemma AllSendable(w: World)
    ensures (forall k | 0 <= k < |ANNOUNCEMENTS| :: Sendable(w, Members(ANNOUNCEMENTS[k].g))) <==> !Negative(w)
  {
    if forall k | 0 <= k < |ANNOUNCEMENTS| :: Sendable(w, Members(ANNOUNCEMENTS[k].g)) {
      forall f: Feature
        ensures 0 <= EntryOf(w.cache, f).signal
      {
        var k := AnnouncementOf(f);
        var fs := Members(ANNOUNCEMENTS[k].g);
        assert f in fs;
        var i :| 0 <= i < |fs| && fs[i] == f;
      }
    }
  }

  // ---------- what main waits for ----------

  /** Tasks other than the receiver and the publishers. */
  predicate Sturdy(job: Job) {
    !job.Receive? && !job.Announce?
  }

  /** Such a task ends normally unless it spins or processes a type nobody can serve. */
  lemma SturdyCompletes(w: World, job: Job, input: Input)
    requires Sturdy(job) && RunJob(w, job, input).1 != Spins
    ensures RunJob(w, job, input).1 == Completed <==> !(job == Process && Unserved(w.frame.typ))
  {
  }

  predicate ForAnnouncements(pc: Pc) {
    pc == BootDone || pc == AnnouncementsDone
  }

  /** The service task of this iteration is what its number says, and has not failed. */
  predicate ServiceSound(l: Loop) {
    && (l.servicer in l.ended ==> l.ended[l.servicer] == Completed)
    && (forall i | 0 <= i < |l.queue| :: l.queue[i].Start? && l.queue[i].id == l.servicer ==> l.queue[i].job == Service)
  }

  /** The awaited tasks are the ones created last. */
  predicate Latest(ids: seq<nat>, next: nat) {
    ids != [] && |ids| <= next && forall i | 0 <= i < |ids| :: ids[i] == next - |ids| + i
  }

  /** The queued tasks among those main waits for are the publishers, in order. */
  predicate PublishersQueued(q: seq<Handle>, first: nat, next: nat) {
    forall i | 0 <= i < |q| && q[i].Start? && first <= q[i].id < next && q[i].id - first < |ANNOUNCEMENTS| ::
      q[i].job == ANNOUNCEMENTS[q[i].id - first]
  }

  /** Publisher k has not ended, or it failed exactly on a negative value. */
  predicate PublisherFate(w: World, ended: map<nat, End>, id: nat, k: nat)
    requires k < |ANNOUNCEMENTS|
  {
    id in ended ==> ended[id] == if Sendable(w, Members(ANNOUNCEMENTS[k].g)) then Completed else Failed
  }

  /** Main waits for the seven publishers; those that have ended failed exactly on a negative value. */
  predicate AwaitsPublishers(l: Loop, ids: seq<nat>) {
    && Latest(ids, l.next) && |ids| == |ANNOUNCEMENTS|
    && PublishersQueued(l.queue, ids[0], l.next)
    && (forall k | 0 <= k < |ids| :: PublisherFate(l.world, l.ended, ids[k], k))
  }

  /** Main waits for tasks that cannot fail, but for processing a type nobody can serve. */
  predicate AwaitsOthers(l: Loop, ids: seq<nat>, pc: Pc) {
    && Latest(ids, l.next)
    && (forall i | 0 <= i < |l.queue| && l.queue[i].Start? && l.queue[i].id >= ids[0] :: Sturdy(l.queue[i].job))
    && (forall k | 0 <= k < |ids| && ids[k] in l.ended ::
          l.ended[ids[k]] == Completed || (pc == AfterProcess && PhaseOf(l.world.trace).Lost?))
  }

  predicate AwaitsSoundly(l: Loop, ids: seq<nat>, pc: Pc) {
    && (if ForAnnouncements(pc) then AwaitsPublishers(l, ids) else AwaitsOthers(l, ids, pc))
    && (pc != BootDone ==> ServiceSound(l))
  }

  ghost predicate Sober(l: Loop) {
    && (l.ctl.Suspended? ==> AwaitsSoundly(l, l.ctl.ids, l.ctl.pc))
    && (l.ctl.Stopped? ==> Negative(l.world))
  }

  // ---------- a task runs ----------

  lemma HeadId(l: Loop)
    requires Fifo(l) && l.ctl.Suspended? && l.queue != [] && l.queue[0].Start?
    ensures l.queue[0].id == l.next - StartCount(l.queue) && l.queue[0].id < l.next
    ensures forall id: nat :: id in l.ended <==> id < l.queue[0].id
  {
  }

  lemma PublishersStayQueued(l: Loop, w: World, end: End, first: nat)
    requires l.queue != [] && l.queue[0].Start? && PublishersQueued(l.queue, first, l.next)
    ensures PublishersQueued(AfterTask(l, l.queue[0].id, w, end).queue, first, l.next)
  {
    var l' := AfterTask(l, l.queue[0].id, w, end);
    forall i | 0 <= i < |l'.queue| && l'.queue[i].Start?
      ensures l'.queue[i] in l.queue
    {
      assert end != Spins ==> l'.queue[i] == l.queue[i + 1];
    }
  }

  lemma PublisherRuns(l: Loop, w: World, end: End)
    requires Fifo(l) && l.ctl.Suspended? && l.queue != [] && l.queue[0].Start? && AwaitsPublishers(l, l.ctl.ids)
    requires end != Spins
    requires l.queue[0].id >= l.ctl.ids[0] ==>
               && SameSignals(l.world, w)
               && end == if Sendable(l.world, Members(ANNOUNCEMENTS[l.queue[0].id - l.ctl.ids[0]].g)) then Completed
                   else Failed
    ensures AwaitsPublishers(AfterTask(l, l.queue[0].id, w, end), l.ctl.ids)
  {
    HeadId(l);
    var (l', ids, head) := (AfterTask(l, l.queue[0].id, w, end), l.ctl.ids, l.queue[0].id);
    PublishersStayQueued(l, w, end, ids[0]);
    forall k | 0 <= k < |ids|
      ensures PublisherFate(w, l'.ended, ids[k], k)
    {
      if ids[k] in l'.ended {
        SendableKept(l.world, w, Members(ANNOUNCEMENTS[k].g));
        assert PublisherFate(l.world, l.ended, ids[k], k);
      }
    }
  }

  lemma SendableKept(w: World, w': World, fs: seq<Feature>)
    ensures SameSignals(w, w') ==> Sendable(w', fs) == Sendable(w, fs)
  {
  }

  lemma OtherRuns(l: Loop, w: World, end: End)
    requires Fifo(l) && l.ctl.Suspended? && l.queue != [] && l.queue[0].Start? && AwaitsOthers(l, l.ctl.ids, l.ctl.pc)
    requires end != Spins
    requires l.queue[0].id >= l.ctl.ids[0] ==> end == Completed || (l.ctl.pc == AfterProcess && PhaseOf(w.trace).Lost?)
    requires l.ctl.pc == AfterProcess && PhaseOf(l.world.trace).Lost? ==> PhaseOf(w.trace).Lost?
    ensures AwaitsOthers(AfterTask(l, l.queue[0].id, w, end), l.ctl.ids, l.ctl.pc)
  {
    HeadId(l);
    var l' := AfterTask(l, l.queue[0].id, w, end);
    forall i | 0 <= i < |l'.queue| && l'.queue[i].Start?
      ensures l'.queue[i] == l.queue[i + 1]
    {
    }
  }

  lemma ServiceRuns(l: Loop, w: World, end: End)
    requires Fifo(l) && l.ctl.Suspended? && l.queue != [] && l.queue[0].Start? && ServiceSound(l)
    requires end != Spins && (l.queue[0].job == Service ==> end == Completed)
    ensures ServiceSound(AfterTask(l, l.queue[0].id, w, end))
  {
    var l' := AfterTask(l, l.queue[0].id, w, end);
    forall i | 0 <= i < |l'.queue| && l'.queue[i].Start?
      ensures l'.queue[i] == l.queue[i + 1]
    {
    }
  }

  // ---------- main runs ----------

  lemma PublishersInQueue(l: Loop, pc: Pc)
    requires InOrder(l) && !EndsInWake(l.queue)
    ensures PublishersQueued(SpawnAndAwait(l, ANNOUNCEMENTS, pc).queue, l.next, l.next + |ANNOUNCEMENTS|)
  {
    SpawnedHandles(l, ANNOUNCEMENTS, pc);
  }

  lemma ServiceStaysSound(l: Loop, jobs: seq<Job>, pc: Pc)
    requires InOrder(l) && !EndsInWake(l.queue) && ServiceSound(l) && l.servicer < l.next
    ensures ServiceSound(SpawnAndAwait(l, jobs, pc))
  {
    SpawnedHandles(l, jobs, pc);
  }

  lemma NewAwaited(l: Loop, jobs: seq<Job>, pc: Pc)
    requires InOrder(l) && !EndsInWake(l.queue) && jobs != []
    ensures var l' := SpawnAndAwait(l, jobs, pc);
            && Latest(l'.ctl.ids, l'.next) && |l'.ctl.ids| == |jobs| && l'.ctl.ids[0] == l.next
            && l'.next == l.next + |jobs|
            && forall k | 0 <= k < |jobs| :: l'.ctl.ids[k] !in l'.ended
  {
  }

  lemma PublishersSpawned(l: Loop, pc: Pc)
    requires InOrder(l) && !EndsInWake(l.queue) && ForAnnouncements(pc)
    requires pc != BootDone ==> ServiceSound(l) && l.servicer < l.next
    ensures Sober(SpawnAndAwait(l, ANNOUNCEMENTS, pc))
  {
    var l' := SpawnAndAwait(l, ANNOUNCEMENTS, pc);
    NewAwaited(l, ANNOUNCEMENTS, pc);
    PublishersInQueue(l, pc);
    assert AwaitsPublishers(l', l'.ctl.ids);
    if pc != BootDone {
      ServiceStaysSound(l, ANNOUNCEMENTS, pc);
    }
  }

  lemma OthersSpawned(l: Loop, jobs: seq<Job>, pc: Pc)
    requires InOrder(l) && !EndsInWake(l.queue) && !ForAnnouncements(pc) && jobs != []
    requires ServiceSound(l) && l.servicer < l.next && forall i | 0 <= i < |jobs| :: Sturdy(jobs[i])
    ensures Sober(SpawnAndAwait(l, jobs, pc))
  {
    SpawnedHandles(l, jobs, pc);
    ServiceStaysSound(l, jobs, pc);
  }

  lemma SpawnedHandles(l: Loop, jobs: seq<Job>, pc: Pc)
    requires InOrder(l) && !EndsInWake(l.queue)
    ensures var l' := SpawnAndAwait(l, jobs, pc);
            forall i | 0 <= i < |l'.queue| ::
              l'.queue[i].Start? && if i < |l.queue| then l'.queue[i] == l.queue[i] && l'.queue[i].id < l.next
                                    else l'.queue[i] == Start(l.next + (i - |l.queue|), jobs[i - |l.queue|])
  {
  }

  lemma CreatedSound(l: Loop)
    requires Rested(l)
    ensures ServiceSound(Created(l)) && Created(l).servicer < Created(l).next
  {
    var (jobs, k) := (TopJobs(l.world, l.heart), if l.heart == 0 then 2 else 1);
    assert Created(l).queue == Starts(l.next, jobs);
    assert jobs[k] == Service;
  }

  lemma TopSober(l: Loop)
    requires Rested(l)
    ensures Sober(Top(l))
  {
    CreatedInOrder(l);
    CreatedSound(l);
    var fr := l.world.frame;
    if fr.ack == MAV_RESULT_ACCEPTED {
      OthersSpawned(Created(l), [Acknowledge(fr.rcv, fr.rpm2, 0, fr.ack)], AfterAck0);
    } else {
      PublishersSpawned(Created(l), AnnouncementsDone);
    }
  }

  lemma {:induction false} AwaitPasses(ids: seq<nat>, ended: map<nat, End>)
    requires forall i | 0 <= i < |ids| :: ids[i] in ended && ended[ids[i]] == Completed
    ensures Await(ids, ended) == Passed
  {
    if ids != [] {
      AwaitPasses(ids[1..], ended);
    }
  }

  lemma {:induction false} AwaitRaises(ids: seq<nat>, ended: map<nat, End>, k: nat)
    requires (forall i | 0 <= i < |ids| :: ids[i] in ended) && k < |ids| && ended[ids[k]] != Completed
    ensures Await(ids, ended) == Raises
  {
    if ended[ids[0]] == Completed {
      AwaitRaises(ids[1..], ended, k - 1);
    }
  }

  lemma AwaitServiceSober(l: Loop)
    requires Rested(l) && ServiceSound(l) && l.servicer < l.next
    ensures AwaitService(l) == Top(l) && Sober(Top(l))
  {
    AwaitPasses([l.servicer], l.ended);
    TopSober(l);
  }

  lemma ContinueSober(l: Loop, pc: Pc)
    requires Rested(l) && TasksKnown(l) && (pc != BootDone ==> ServiceSound(l))
    ensures Sober(Continue(l, pc))
  {
    var fr := l.world.frame;
    match pc
    case BootDone => TopSober(l.(world := l.world.(store := InitClassState(l.world.store))));
    case AfterAck0 => OthersSpawned(WithFrame(l, fr.(taskControl := 1)), [Process, ErrorHandler], AfterProcess);
    case AfterProcess => OthersSpawned(l, [Acknowledge(fr.rcv, fr.rpm2, 100, fr.ack)], AfterAck100);
    case AfterAck100 => PublishersSpawned(WithFrame(l, fr.(rcv := 0, ack := ACK_ALL_DATA_COMPLETE)), AnnouncementsDone);
    case AnnouncementsDone =>
      CancelIdle(l);
      AwaitServiceSober(EndIteration(l));
    case ServiceDone => TopSober(l);
  }

  /** Once the publishers have ended, awaiting them raises exactly if a negative value is cached. */
  lemma PublishersAwaited(l: Loop, ids: seq<nat>)
    requires Rested(l) && AwaitsPublishers(l, ids)
    ensures Await(ids, l.ended) == if Negative(l.world) then Raises else Passed
  {
    AllSendable(l.world);
    forall k | 0 <= k < |ids|
      ensures l.ended[ids[k]] == if Sendable(l.world, Members(ANNOUNCEMENTS[k].g)) then Completed else Failed
    {
      assert PublisherFate(l.world, l.ended, ids[k], k);
    }
    if Negative(l.world) {
      var k :| 0 <= k < |ANNOUNCEMENTS| && !Sendable(l.world, Members(ANNOUNCEMENTS[k].g));
      AwaitRaises(ids, l.ended, k);
    } else {
      AwaitPasses(ids, l.ended);
    }
  }

  lemma OthersAwaited(l: Loop, ids: seq<nat>, pc: Pc)
    requires Rested(l) && AwaitsOthers(l, ids, pc) && !PhaseOf(l.world.trace).Lost?
    ensures Await(ids, l.ended) == Passed
  {
    AwaitPasses(ids, l.ended);
  }

  lemma ResumeSober(l: Loop, ids: seq<nat>, pc: Pc)
    requires Rested(l) && TasksKnown(l) && AwaitsSoundly(l, ids, pc) && !PhaseOf(l.world.trace).Lost?
    ensures Resume(l, ids, pc) == if ForAnnouncements(pc) && Negative(l.world) then l.(ctl := Stopped)
        else Continue(l, pc)
    ensures Sober(Resume(l, ids, pc))
  {
    if ForAnnouncements(pc) {
      PublishersAwaited(l, ids);
    } else {
      OthersAwaited(l, ids, pc);
    }
    ContinueSober(l, pc);
  }

  // ---------- every step ----------

  lemma RestedAtWake(l: Loop)
    requires Fifo(l) && TasksKnown(l) && l.ctl.Suspended? && l.queue == [Wake]
    ensures var l1 := l.(queue := []); Rested(l1) && TasksKnown(l1)
    ensures forall i | 0 <= i < |l.ctl.ids| :: l.ctl.ids[i] in l.ended
  {
    RunToCompletion(l);
  }

  lemma WakeStep(l: Loop, input: Input)
    requires l.ctl.Suspended? && l.queue == [Wake]
    ensures Step(l, input) == Resume(l.(queue := []), l.ctl.ids, l.ctl.pc)
  {
    assert l.queue[0] == Wake && l.queue[1..] == [];
  }

  /** When main wakes, no processing task has died. */
  lemma WakesUnlost(l: Loop)
    requires LoopFits(l) && l.ctl.Suspended? && l.queue == [Wake]
    ensures !PhaseOf(l.world.trace).Lost?
  {
  }

  /** Main wakes: it stops exactly if it waited for publishers and a negative value is cached. */
  lemma WakeFate(l: Loop, input: Input)
    requires Fifo(l) && TasksKnown(l) && LoopFits(l) && Sober(l) && l.ctl.Suspended? && l.queue == [Wake]
    ensures var l1 := l.(queue := []);
            && Rested(l1)
            && Step(l, input) == (if ForAnnouncements(l.ctl.pc) && Negative(l.world) then l1.(ctl := Stopped)
                                  else Continue(l1, l.ctl.pc))
            && Sober(Step(l, input))
  {
    WakeStep(l, input);
    RestedAtWake(l);
    WakesUnlost(l);
    ResumeSober(l.(queue := []), l.ctl.ids, l.ctl.pc);
  }

  /** Only at the processing step is a processing task queued. */
  lemma ProcessingPlace(l: Loop)
    requires LoopFits(l) && l.ctl.Suspended? && l.queue != [] && l.queue[0].Start?
    ensures l.queue[0].job == Process || l.queue[0].job == ErrorHandler ==> l.ctl.pc == AfterProcess
    ensures l.ctl.pc == AfterProcess ==> ProcessFits(l.world, l.queue)
  {
    if l.ctl.pc == AfterAck0 && |l.queue| > 1 {
      assert l.queue[..|l.queue| - 1][0] == l.queue[0];
    }
  }

  lemma OtherTaskSober(l: Loop, input: Input)
    requires Invariant(l) && Sober(l) && l.ctl.Suspended? && l.queue != [] && l.queue[0].Start?
    requires !ForAnnouncements(l.ctl.pc) && RunJob(l.world, l.queue[0].job, input).1 != Spins
    ensures var (w, end) := RunJob(l.world, l.queue[0].job, input);
            AwaitsOthers(AfterTask(l, l.queue[0].id, w, end), l.ctl.ids, l.ctl.pc)
  {
    var (job, (w, end)) := (l.queue[0].job, RunJob(l.world, l.queue[0].job, input));
    ProcessingPlace(l);
    if l.ctl.pc == AfterProcess {
      ProcessStep(l.world, l.queue, input);
    }
    if l.queue[0].id >= l.ctl.ids[0] {
      SturdyCompletes(l.world, job, input);
    }
    OtherRuns(l, w, end);
  }

  lemma PublisherTask(l: Loop, input: Input)
    requires Fifo(l) && Good(l.world) && l.ctl.Suspended? && l.queue != [] && l.queue[0].Start?
    requires AwaitsPublishers(l, l.ctl.ids) && RunJob(l.world, l.queue[0].job, input).1 != Spins
    ensures AwaitsPublishers(AfterTask(l, l.queue[0].id, RunJob(l.world, l.queue[0].job, input).0,
        RunJob(l.world, l.queue[0].job, input).1), l.ctl.ids)
  {
    var (job, (w, end)) := (l.queue[0].job, RunJob(l.world, l.queue[0].job, input));
    HeadId(l);
    if l.queue[0].id >= l.ctl.ids[0] {
      AnnounceExact(l.world, job.g, input);
    }
    PublisherRuns(l, w, end);
  }

  lemma TaskSober(l: Loop, input: Input)
    requires Invariant(l) && Sober(l) && l.ctl.Suspended? && l.queue != [] && l.queue[0].Start?
    ensures Sober(AfterTask(l, l.queue[0].id, RunJob(l.world, l.queue[0].job, input).0,
        RunJob(l.world, l.queue[0].job, input).1))
  {
    var (w, end) := RunJob(l.world, l.queue[0].job, input);
    if end != Spins {
      if ForAnnouncements(l.ctl.pc) {
        PublisherTask(l, input);
      } else {
        OtherTaskSober(l, input);
      }
      if l.ctl.pc != BootDone {
        ServiceRuns(l, w, end);
      }
    }
  }

  /** The full invariant: queue, handshake, features, and why main stops. */
  ghost predicate Steady(l: Loop) {
    Invariant(l) && Sober(l)
  }

  lemma StepSteady(l: Loop, input: Input)
    requires Steady(l)
    ensures Steady(Step(l, input))
  {
    StepInvariant(l, input);
    if l.ctl.Suspended? {
      RunToCompletion(l);
      match l.queue[0]
      case Wake => WakeFate(l, input);
      case Start(id, job) => TaskSober(l, input);
    }
  }

  lemma {:induction false} RunSteady(l: Loop, inputs: seq<Input>)
    requires Steady(l)
    ensures Steady(Run(l, inputs))
    decreases |inputs|
  {
    if inputs != [] {
      var n := |inputs| - 1;
      RunSteady(l, inputs[..n]);
      StepSteady(Run(l, inputs[..n]), inputs[n]);
    }
  }
}
