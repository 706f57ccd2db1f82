/** First-in first-out run-to-completion: when main runs, every task created before has ended. */
module ReadyQueues {
  import opened Messages
  import opened Worlds
  import opened EventLoops

  // ---------- the ready queue ----------

  predicate EndsInWake(q: seq<Handle>) {
    q != [] && q[|q| - 1].Wake?
  }

  function StartCount(q: seq<Handle>): (n: nat)
    ensures n <= |q|
  {
    if EndsInWake(q) then |q| - 1 else |q|
  }

  /**
   * The queue holds the latest tasks in order of creation, perhaps followed by main's wake-up; all earlier tasks have
   * ended.
   */
  ghost predicate Ordered(q: seq<Handle>, ended: map<nat, End>, next: nat) {
    var n := StartCount(q);
    && n <= next
    && (forall i | 0 <= i < n :: q[i].Start? && q[i].id == next - n + i)
    && (forall id: nat :: id in ended <==> id < next - n)
  }

  ghost predicate InOrder(l: Loop) {
    Ordered(l.queue, l.ended, l.next)
  }

  /** Main's wake-up is in the queue exactly when the task it waits for has ended. */
  ghost predicate Fifo(l: Loop) {
    l.ctl.Suspended? ==>
      && InOrder(l)
      && l.ctl.ids != [] && (forall i | 0 <= i < |l.ctl.ids| :: l.ctl.ids[i] < l.next)
      && (EndsInWake(l.queue) <==> l.ctl.ids[0] in l.ended)
  }

  lemma SpawnOrdered(q: seq<Handle>, ended: map<nat, End>, next: nat, jobs: seq<Job>)
    requires Ordered(q, ended, next) && !EndsInWake(q)
    ensures Ordered(q + Starts(next, jobs), ended, next + |jobs|) && !EndsInWake(q + Starts(next, jobs))
  {
    var q' := q + Starts(next, jobs);
    assert jobs != [] ==> q'[|q'| - 1] == Starts(next, jobs)[|jobs| - 1];
    assert jobs == [] ==> q' == q;
  }

  lemma SpawnAndAwaitFifo(l: Loop, jobs: seq<Job>, pc: Pc)
    requires InOrder(l) && !EndsInWake(l.queue) && jobs != []
    ensures Fifo(SpawnAndAwait(l, jobs, pc))
  {
    SpawnOrdered(l.queue, l.ended, l.next, jobs);
  }

  /** Main runs only when the ready queue is otherwise empty and every task created so far has ended. */
  lemma RunToCompletion(l: Loop)
    requires Fifo(l) && l.ctl.Suspended?
    ensures l.queue != []
    ensures l.queue[0] == Wake ==> l.queue == [Wake] && forall id: nat :: id < l.next <==> id in l.ended
  {
  }

  lemma {:induction false} AwaitAllEnded(ids: seq<nat>, ended: map<nat, End>)
    requires forall i | 0 <= i < |ids| :: ids[i] in ended
    ensures !Await(ids, ended).Blocked?
  {
    if ids != [] && ended[ids[0]] == Completed {
      AwaitAllEnded(ids[1..], ended);
    }
  }

  /** Nothing is queued and every task has ended: the state in which main runs. */
  ghost predicate Rested(l: Loop) {
    InOrder(l) && l.queue == []
  }

  lemma CreatedInOrder(l: Loop)
    requires Rested(l)
    ensures InOrder(Created(l)) && !EndsInWake(Created(l).queue)
  {
    SpawnOrdered(l.queue, l.ended, l.next, TopJobs(l.world, l.heart));
  }

  lemma DispatchFifo(l: Loop)
    requires InOrder(l) && !EndsInWake(l.queue)
    ensures Fifo(Dispatch(l))
  {
    var fr := l.world.frame;
    SpawnAndAwaitFifo(l, [Acknowledge(fr.rcv, fr.rpm2, 0, fr.ack)], AfterAck0);
    SpawnAndAwaitFifo(l, ANNOUNCEMENTS, AnnouncementsDone);
  }

  lemma TopFifo(l: Loop)
    requires Rested(l)
    ensures Fifo(Top(l))
  {
    CreatedInOrder(l);
    DispatchFifo(Created(l));
  }

  /** Cancelling the receiver changes nothing: it has ended. */
  lemma CancelIdle(l: Loop)
    requires Rested(l) && l.receiver < l.next
    ensures EndIteration(l) == l.(heart := EndIteration(l).heart) && Rested(EndIteration(l))
  {
  }

  lemma AwaitServiceFifo(l: Loop)
    requires Rested(l) && l.servicer < l.next
    ensures Fifo(AwaitService(l))
  {
    assert [l.servicer][0] in l.ended;
    AwaitAllEnded([l.servicer], l.ended);
    TopFifo(l);
  }

  lemma ContinueFifo(l: Loop, pc: Pc)
    requires Rested(l) && TasksKnown(l)
    ensures Fifo(Continue(l, pc))
  {
    var fr := l.world.frame;
    match pc
    case BootDone => TopFifo(l.(world := l.world.(store := InitClassState(l.world.store))));
    case AfterAck0 => SpawnAndAwaitFifo(WithFrame(l, fr.(taskControl := 1)), [Process, ErrorHandler], AfterProcess);
    case AfterProcess => SpawnAndAwaitFifo(l, [Acknowledge(fr.rcv, fr.rpm2, 100, fr.ack)], AfterAck100);
    case AfterAck100 =>
      SpawnAndAwaitFifo(WithFrame(l, fr.(rcv := 0, ack := ACK_ALL_DATA_COMPLETE)), ANNOUNCEMENTS, AnnouncementsDone);
    case AnnouncementsDone =>
      CancelIdle(l);
      AwaitServiceFifo(EndIteration(l));
    case ServiceDone => TopFifo(l);
  }

  lemma TaskStepFifo(l: Loop, w: World, end: End)
    requires Fifo(l) && l.ctl.Suspended? && l.queue != [] && l.queue[0].Start?
    ensures Fifo(AfterTask(l, l.queue[0].id, w, end))
  {
    var l' := AfterTask(l, l.queue[0].id, w, end);
    if l'.ctl.Suspended? {
      var n := StartCount(l.queue);
      assert l.queue[0].id == l.next - n;
      if Awaits(l.ctl, l.queue[0].id) {
        assert EndsInWake(l'.queue);
      }
      assert StartCount(l'.queue) == n - 1;
    }
  }

  predicate TasksKnown(l: Loop) {
    l.receiver < l.next && l.servicer < l.next
  }

  lemma WakeStepFifo(l: Loop, input: Input)
    requires Fifo(l) && TasksKnown(l) && l.ctl.Suspended? && l.queue == [Wake]
    ensures Fifo(Step(l, input))
  {
    var l1 := l.(queue := l.queue[1..]);
    assert Rested(l1);
    AwaitAllEnded(l.ctl.ids, l.ended);
    ContinueFifo(l1, l.ctl.pc);
  }

  lemma ContinueKnown(l: Loop, pc: Pc)
    requires TasksKnown(l)
    ensures TasksKnown(Continue(l, pc))
  {
  }

  lemma StepFifo(l: Loop, input: Input)
    requires Fifo(l) && TasksKnown(l)
    ensures Fifo(Step(l, input)) && TasksKnown(Step(l, input))
  {
    if l.ctl.Suspended? {
      RunToCompletion(l);
      match l.queue[0]
      case Wake =>
        WakeStepFifo(l, input);
        ContinueKnown(l.(queue := l.queue[1..]), l.ctl.pc);
      case Start(id, job) =>
        TaskStepFifo(l, RunJob(l.world, job, input).0, RunJob(l.world, job, input).1);
    }
  }
}
