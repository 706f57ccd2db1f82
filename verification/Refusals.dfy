/** What becomes of a recorded rejection: it stands from iteration to iteration, and only a loop that hangs sends it. */
module Refusals {
  import opened Messages
  import opened Traces
  import opened Worlds
  import opened EventLoops
  import opened Handshakes
  import opened Runs
  import opened Inputs
  import opened Iterations
  import opened Responses
  import opened Liveness

  // ---------- recording ----------

  /** A rejection is recorded by bad data, and by a command that arrives while one is accepted; the last one stands. */
  lemma DeliverNotes(w: World, m: Message)
    ensures StandingNote(Deliver(w, m).trace)
            == match m
               case BadData(_) => Note(GOT_BAD, 0, 0.0)
               case CommandLong(c, Some(p)) =>
                 if w.frame.ack == MAV_RESULT_ACCEPTED then Note(GOT_ERROR, c, p) else StandingNote(w.trace)
               case _ => StandingNote(w.trace)
  {
  }

  // ---------- standing ----------

  /** Tasks other than the receiver, and an error handler that finds nothing to do, leave a recorded rejection alone. */
  lemma JobKeepsNote(w: World, job: Job, input: Input)
    requires job != Receive && (job == ErrorHandler ==> w.frame.taskControl <= 0)
    ensures NoteOf(RunJob(w, job, input).0.frame) == NoteOf(w.frame)
  {
    match job
    case Camera(g) =>
      var w1 := WithRunning(w, RunningCode(g));
      TransactAllAside(w1, Members(g), input);
      PollAllAside(TransactAll(w1, Members(g), input), Members(g), input.polls);
    case Announce(g) =>
      PublishAllAside(w, Members(g), input.up);
      PublishExtAllAside(PublishAll(w, Members(g), input.up).0, Members(g), input.extUp);
    case _ =>
  }

  lemma {:induction false} JobsKeepNote(w: World, jobs: seq<Job>, input: Input)
    requires forall i | 0 <= i < |jobs| :: jobs[i] != Receive && jobs[i] != ErrorHandler
    ensures NoteOf(RunJobs(w, jobs, input).frame) == NoteOf(w.frame)
    decreases |jobs|
  {
    if jobs != [] {
      JobKeepsNote(w, jobs[0], input);
      JobsKeepNote(RunJob(w, jobs[0], input).0, jobs[1..], input);
    }
  }

  /** After the receiver no task created at the top records anything. */
  lemma WorkKeepsNote(w: World, heart: int, input: Input)
    ensures NoteOf(RunJobs(w, TopJobs(w, heart), input).frame) == NoteOf(Received(w, input).frame)
  {
    var jobs := TopJobs(w, heart);
    TopJobsDistinct(w, heart);
    assert jobs == [Receive] + jobs[1..];
    JobsRunInOrder(w, Receive, jobs[1..], input);
    JobsKeepNote(Received(w, input), jobs[1..], input);
  }

  lemma BeginKeepsNote(w: World, fr: Frame, input: Input)
    ensures NoteOf(BeginCommand(w, fr, input).frame) == NoteOf(w.frame)
  {
    JobsKeepNote(w, [FirstAck(fr)], input);
  }

  lemma ServedKeepsNote(w: World, input: Input)
    requires !Unserved(w.frame.typ)
    ensures NoteOf(RunJobs(w, [Process, ErrorHandler], input).frame) == NoteOf(w.frame)
  {
    assert [Process, ErrorHandler] == [Process] + [ErrorHandler];
    JobsRunInOrder(w, Process, [ErrorHandler], input);
    RunOneJob(RunJob(w, Process, input).0, ErrorHandler, input);
    JobKeepsNote(w, Process, input);
    JobKeepsNote(RunJob(w, Process, input).0, ErrorHandler, input);
  }

  lemma CompleteKeepsNote(w: World, input: Input)
    ensures NoteOf(CompleteCommand(w, input).frame) == NoteOf(w.frame)
  {
    JobsKeepNote(w, [SecondAck(w.frame)], input);
  }

  /** What the receiver leaves recorded stands at the end of an iteration that the accepted command does not stall. */
  lemma RejectionStands(w: World, heart: int, input: Input)
    requires Linked(w) && !Stalls(w.frame)
    ensures NoteOf(Iteration(w, heart, input).frame) == NoteOf(Received(w, input).frame)
  {
    var worked := RunJobs(w, TopJobs(w, heart), input);
    WorkKeepsNote(w, heart, input);
    if w.frame.ack == MAV_RESULT_ACCEPTED {
      var begun := BeginCommand(worked, w.frame, input);
      TopJobsWork(w, heart);
      WorkBeforeCommand(w, TopJobs(w, heart), input);
      RunJobsAppend(w, TopJobs(w, heart), [FirstAck(w.frame)], input);
      BeginKeepsNote(worked, w.frame, input);
      ServedKeepsNote(begun, input);
      CompleteKeepsNote(RunJobs(begun, [Process, ErrorHandler], input), input);
    }
    JobsKeepNote(CommandServed(worked, w.frame, input), ANNOUNCEMENTS, input);
  }

  // ---------- sending ----------

  lemma DeadRejections(w: World)
    requires w.trace.Then? && w.trace.last.ProcessDied? && PhaseOf(Rejecting(w).trace) != Broken
    ensures Rejections(Rejecting(w).trace) == AsSeq(AnswerTo(NoteOf(w.frame)))
  {
    assert PhaseOf(w.trace) != Broken;
    HandshakeExact(w.trace);
  }

  /** In an iteration the accepted command stalls, the error handler sends what the receiver left recorded. */
  lemma StalledRejections(w: World, heart: int, input: Input)
    requires Linked(w) && Stalls(w.frame) && PhaseOf(Iteration(w, heart, input).trace) != Broken
    ensures Rejections(Iteration(w, heart, input).trace) == AsSeq(AnswerTo(NoteOf(Received(w, input).frame)))
  {
    var worked := RunJobs(w, TopJobs(w, heart), input);
    var begun := BeginCommand(worked, w.frame, input);
    WorkKeepsNote(w, heart, input);
    BeginKeepsNote(worked, w.frame, input);
    TopJobsWork(w, heart);
    WorkBeforeCommand(w, TopJobs(w, heart), input);
    DeadWorld(begun, input, input);
    JobKeepsNote(begun, Process, input);
    DeadRejections(RunJob(begun, Process, input).0);
  }

  /**
   * On any inputs: the rejections sent by the end of an iteration are none, or, exactly if the accepted command stalls
   * the loop, the one that stood recorded when the receiver had run.
   */
  lemma RunRejections(l: Loop, inputs: seq<Input>)
    requires TopReached(l) && |inputs| == Span(l.world, l.heart)
    ensures Rejections(Run(Top(l), inputs).world.trace)
            == if Stalls(l.world.frame) then AsSeq(AnswerTo(NoteOf(Received(l.world, Merging(l, inputs)).frame)))
                else []
  {
    RunsAreIterations(l, inputs);
    RunReachable(Top(l), inputs);
    AcknowledgementsExact(Run(Top(l), inputs));
    if Stalls(l.world.frame) {
      TopLinked(l);
      StalledRejections(l.world, l.heart, Merging(l, inputs));
    }
  }
}
