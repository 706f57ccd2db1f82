/** The acknowledgements of an iteration: what is sent for the command accepted before it, with which results. */
module Acknowledging {
  import opened Features
  import opened Messages
  import opened Traces
  import opened Worlds
  import opened EventLoops
  import opened Handshakes
  import opened Iterations
  import opened Liveness

  /** First "accepted" at progress 0; then, unless the command stalls the loop, its result at progress 100. */
  function AcksFor(fr: Frame, result: int): seq<Ack> {
    if fr.ack != 0 then []
    else if fr.typ in {6504, 181} then [Ack(fr.rcv, fr.rpm2, 0, Some(0))]
    else [Ack(fr.rcv, fr.rpm2, 0, Some(0)), Ack(fr.rcv, fr.rpm2, 100, Some(if fr.typ == 521 then 0 else result))]
  }

  lemma BeginAcks(w: World, fr: Frame, input: Input)
    ensures var w' := BeginCommand(w, fr, input);
            && w'.frame == w.frame.(taskControl := 1)
            && Regular(w'.trace) == Regular(w.trace) + [Ack(fr.rcv, fr.rpm2, 0, Some(fr.ack))]
  {
    RunOneJob(w, FirstAck(fr), input);
  }

  lemma ProcessAcks(w: World, input: Input)
    requires !Unserved(w.frame.typ)
    ensures var w' := RunJobs(w, [Process, ErrorHandler], input);
            && w'.frame == w.frame.(taskControl := 0, ack := if w.frame.typ == 521 then w.frame.ack else input.result)
            && Regular(w'.trace) == Regular(w.trace)
  {
    assert [Process, ErrorHandler] == [Process] + [ErrorHandler];
    JobsRunInOrder(w, Process, [ErrorHandler], input);
    RunOneJob(RunJob(w, Process, input).0, ErrorHandler, input);
  }

  lemma DeadAcks(w: World, input: Input)
    requires Unserved(w.frame.typ) && w.frame.taskControl > 0
    ensures Regular(RunJobs(w, [Process, ErrorHandler], input).trace) == Regular(w.trace)
  {
    DeadWorld(w, input, input);
    var died := RunJob(w, Process, input).0;
    assert Regular(died.trace) == Regular(w.trace);
  }

  lemma CompleteAcks(w: World, input: Input)
    ensures Regular(CompleteCommand(w, input).trace)
            == Regular(w.trace) + [Ack(w.frame.rcv, w.frame.rpm2, 100, Some(w.frame.ack))]
  {
    RunOneJob(w, SecondAck(w.frame), input);
  }

  lemma {:induction false} AnnouncementsQuiet(w: World, jobs: seq<Job>, input: Input)
    requires forall i | 0 <= i < |jobs| :: jobs[i].Announce?
    ensures Regular(RunJobs(w, jobs, input).trace) == Regular(w.trace)
    decreases |jobs|
  {
    if jobs != [] {
      var g := jobs[0].g;
      PublishAllAside(w, Members(g), input.up);
      PublishExtAllAside(PublishAll(w, Members(g), input.up).0, Members(g), input.extUp);
      AnnouncementsQuiet(PublishTurn(w, g, input).0, jobs[1..], input);
    }
  }

  lemma ServedAcks(w: World, fr: Frame, input: Input)
    requires fr.ack == w.frame.ack == MAV_RESULT_ACCEPTED && !Unserved(fr.typ)
    requires (w.frame.rcv, w.frame.rpm2, w.frame.typ) == (fr.rcv, fr.rpm2, fr.typ)
    ensures Regular(CommandServed(w, fr, input).trace) == Regular(w.trace) + AcksFor(fr, input.result)
  {
    var begun := BeginCommand(w, fr, input);
    var processed := RunJobs(begun, [Process, ErrorHandler], input);
    BeginAcks(w, fr, input);
    ProcessAcks(begun, input);
    CompleteAcks(processed, input);
    var (first, second) := (Ack(fr.rcv, fr.rpm2, 0, Some(0)), Ack(fr.rcv, fr.rpm2, 100, Some(processed.frame.ack)));
    assert Regular(w.trace) + [first] + [second] == Regular(w.trace) + [first, second];
  }

  /** What an iteration acknowledges: the command accepted at its top, and nothing without one. */
  lemma IterationAcks(w: World, heart: int, input: Input)
    requires Linked(w)
    ensures Regular(Iteration(w, heart, input).trace) == Regular(w.trace) + AcksFor(w.frame, input.result)
  {
    var worked := RunJobs(w, TopJobs(w, heart), input);
    TopJobsWork(w, heart);
    WorkKeepsSlot(w, TopJobs(w, heart), input);
    if Stalls(w.frame) {
      BeginAcks(worked, w.frame, input);
      DeadAcks(BeginCommand(worked, w.frame, input), input);
    } else {
      if w.frame.ack == MAV_RESULT_ACCEPTED {
        ServedAcks(worked, w.frame, input);
      }
      AnnouncementsQuiet(CommandServed(worked, w.frame, input), ANNOUNCEMENTS, input);
    }
  }

  /** What the step of the processing task yields, in an iteration that has one. */
  function ResultShown(w: World, heart: int, inputs: seq<Input>): int
    requires |inputs| == Span(w, heart)
  {
    if w.frame.ack == 0 then inputs[|TopJobs(w, heart)| + 2].result else 0
  }

  lemma ResultSeen(w: World, heart: int, inputs: seq<Input>)
    requires |inputs| == Span(w, heart)
    ensures AcksFor(w.frame, Seen(w, heart, inputs).result) == AcksFor(w.frame, ResultShown(w, heart, inputs))
  {
    SeenHears(w, heart, inputs);
  }

  /**
   * On any inputs: an iteration acknowledges the command (c, r) accepted at its top with (c, r, 0, accepted) and, if
   * the command does not stall the loop, (c, r, 100, result), the result being what the step of the processing task
   * yields, or "accepted" for the camera-information command; without an accepted command it acknowledges nothing.
   */
  lemma RunAcknowledges(l: Loop, inputs: seq<Input>)
    requires TopReached(l) && |inputs| == Span(l.world, l.heart)
    ensures var (fr, before, after) := (l.world.frame, l.world.trace, Run(Top(l), inputs).world.trace);
            Regular(after) == Regular(before) + AcksFor(fr, ResultShown(l.world, l.heart, inputs))
  {
    RunsAreIterations(l, inputs);
    TopLinked(l);
    IterationAcks(l.world, l.heart, Merging(l, inputs));
    ResultSeen(l.world, l.heart, inputs);
  }

  /** What the iterations from the given tops acknowledge, in order. */
  function ChainAcks(tops: seq<Loop>, inputs: seq<seq<Input>>): seq<Ack>
    requires |tops| == |inputs|
    decreases |inputs|, tops
  {
    if inputs == [] then []
    else
      var (n, top) := (|inputs| - 1, tops[|inputs| - 1]);
      var own := inputs[n];
      ChainAcks(tops[..n], inputs[..n])
      + if |own| == Span(top.world, top.heart) then AcksFor(top.world.frame, ResultShown(top.world, top.heart, own))
        else []
  }

  lemma LinkAcknowledges(top: Loop, inputs: seq<Input>, next: Loop)
    requires TopReached(top) && Leads(top, inputs, next)
    ensures Regular(next.world.trace)
            == Regular(top.world.trace) + AcksFor(top.world.frame, ResultShown(top.world, top.heart, inputs))
  {
    RunAcknowledges(top, inputs);
    TopWaits(next);
  }

  /** Over any number of iterations, on any inputs: the acknowledgements are those of the iterations, in order. */
  lemma {:induction false} ChainAcknowledges(first: Loop, tops: seq<Loop>, inputs: seq<seq<Input>>, last: Loop)
    requires Chain(first, tops, inputs, last)
    ensures Regular(last.world.trace) == Regular(first.world.trace) + ChainAcks(tops, inputs)
    decreases |inputs|
  {
    if inputs != [] {
      var n := |inputs| - 1;
      ChainAcknowledges(first, tops[..n], inputs[..n], tops[n]);
      ChainReached(first, tops[..n], inputs[..n], tops[n]);
      LinkAcknowledges(tops[n], inputs[n], last);
    }
  }
}
