/** Runs on arbitrary inputs, iteration by iteration: where they lead, what they settle, answer and confirm. */
module Liveness {
  import opened Features
  import opened Enumerators
  import opened SetPointStores
  import opened Transactions
  import opened ServicePasses
  import opened Messages
  import opened Traces
  import opened Worlds
  import opened Coherence
  import opened EventLoops
  import opened ReadyQueues
  import opened Handshakes
  import opened Stopping
  import opened Runs
  import opened Inputs
  import opened Iterations
  import opened Responses
  import opened Answering
  import opened Confirming

  // ---------- iterations keep the good state ----------

  ghost predicate Idle(w: World) {
    Good(w) && w.store.running == FUNC_IDLE
  }

  lemma {:induction false} RunJobsIdle(w: World, jobs: seq<Job>, input: Input)
    requires Idle(w)
    ensures Idle(RunJobs(w, jobs, input))
    decreases |jobs|
  {
    if jobs != [] {
      JobGood(w, jobs[0], input);
      RunJobsIdle(RunJob(w, jobs[0], input).0, jobs[1..], input);
    }
  }

  /** A request the camera side can settle: invalid, refused or echoed. */
  predicate Settles(p: SetPoint, f: Feature, a: CameraAnswer) {
    p.req != STATE_INIT && (Enumerate(f, p.req).None? || a == Refuses || a == Echo(p.req))
  }

  /** The receiver of the iteration leaves the feature's set-point alone on a free store. */
  predicate LeftAlone(w: World, input: Input, f: Feature) {
    SetPointOf(Received(w, input).store, f) == SetPointOf(w.store, f) && w.store.owner == STATE_READY
  }

  /** Focus area is served only once focus mode was asked for or committed; every other feature always. */
  predicate Servable(s: Store, f: Feature) {
    f == FocusArea ==> At(s.req, Focus) != STATE_INIT || At(s.com, Focus) != STATE_INIT
  }

  /** A set-point found at the top that is invalid, refused or echoed, and not overwritten, is settled at the end. */
  lemma SettledInIteration(w: World, heart: int, input: Input, f: Feature)
    requires Idle(w) && LeftAlone(w, input, f) && Settles(SetPointOf(w.store, f), f, Answer(input, f))
        && Servable(w.store, f)
    ensures var p := SetPointOf(Iteration(w, heart, input).store, f); p.req == p.com
  {
    if Pending(w.store, f) {
      BoundedResponse(w, heart, input, f);
    } else {
      IterationSetPoint(w, heart, input, f);
      RespondedSame(SetPointOf(w.store, f), f, Answer(input, f));
    }
  }

  lemma RespondedSame(p: SetPoint, f: Feature, a: CameraAnswer)
    requires p.req == p.com
    ensures Responded(p, f, a) == p
  {
  }

  // ---------- reachable loops ----------

  lemma RunExtended(run: seq<Loop>, inputs: seq<Input>, n: nat, next: Loop, input: Input)
    requires Follows(run, inputs) && n <= |inputs| && next == Step(run[n], input)
    ensures Follows(run[..n + 1] + [next], inputs[..n] + [input])
  {
    var (run', inputs') := (run[..n + 1] + [next], inputs[..n] + [input]);
    forall i | 0 <= i < |inputs'|
      ensures run'[i + 1] == Step(run'[i], inputs'[i])
    {
      if i < n {
        assert run'[i] == run[i] && run'[i + 1] == run[i + 1] && inputs'[i] == inputs[i];
      } else {
        assert run'[i] == run[n] && run'[i + 1] == next && inputs'[i] == input;
      }
    }
  }

  lemma LastReachable(run: seq<Loop>, inputs: seq<Input>, next: Loop)
    requires IsRun(run + [next], inputs)
    ensures Reachable(next)
  {
    assert (run + [next])[|run|] == next;
  }

  /** A run may go on differently from any of its states. */
  lemma BranchReachable(run: seq<Loop>, inputs: seq<Input>, n: nat, input: Input)
    requires IsRun(run, inputs) && n <= |inputs|
    ensures Reachable(Step(run[n], input))
  {
    RunExtended(run, inputs, n, Step(run[n], input), input);
    assert (run[..n + 1] + [Step(run[n], input)])[0] == run[0];
    LastReachable(run[..n + 1], inputs[..n] + [input], Step(run[n], input));
  }

  lemma StepReachable(l: Loop, input: Input)
    requires Reachable(l)
    ensures Reachable(Step(l, input))
  {
    var run, inputs :| IsRun(run, inputs) && l in run;
    var n: nat :| n < |run| && l == run[n];
    BranchReachable(run, inputs, n, input);
  }

  /** What a reachable state leads to, on any inputs, is reachable. */
  lemma {:induction false} RunReachable(l: Loop, inputs: seq<Input>)
    requires Reachable(l)
    ensures Reachable(Run(l, inputs))
    decreases |inputs|
  {
    if inputs != [] {
      var n := |inputs| - 1;
      RunReachable(l, inputs[..n]);
      StepReachable(Run(l, inputs[..n]), inputs[n]);
    }
  }

  /** A top of the loop that some run reaches. */
  ghost predicate TopReached(l: Loop) {
    Rested(l) && Reachable(Top(l))
  }

  lemma TopIdle(l: Loop)
    requires TopReached(l)
    ensures Idle(l.world) && Steady(Top(l))
  {
    ReachableSteady(Top(l));
    assert Top(l).world == l.world;
  }

  lemma TopLinked(l: Loop)
    requires TopReached(l)
    ensures Linked(l.world)
  {
    TopIdle(l);
    if l.world.frame.ack == MAV_RESULT_ACCEPTED {
      DispatchedJobs(l);
    }
  }

  /** The one input that stands for the inputs of an iteration. */
  function Merging(l: Loop, inputs: seq<Input>): Input
    requires |inputs| == Span(l.world, l.heart)
  {
    Seen(l.world, l.heart, inputs)
  }

  /** What an iteration comes to, on given inputs. */
  function Outcome(l: Loop, inputs: seq<Input>): World
    requires |inputs| == Span(l.world, l.heart)
  {
    Iteration(l.world, l.heart, Merging(l, inputs))
  }

  ghost function FateOn(l: Loop, inputs: seq<Input>): Fate
    requires |inputs| == Span(l.world, l.heart)
  {
    FateOf(l.world, l.heart, Merging(l, inputs))
  }

  lemma RunArrives(l: Loop, inputs: seq<Input>)
    requires TopReached(l) && |inputs| == Span(l.world, l.heart)
    ensures Arrives(Run(Top(l), inputs), FateOn(l, inputs), Outcome(l, inputs), Beat(l.heart))
  {
    TopIdle(l);
    SeenHears(l.world, l.heart, inputs);
    LoopRefinesIteration(l, inputs, Merging(l, inputs));
  }

  /** Of the three ways to arrive, the loop's control and world tell which. */
  lemma ArrivalTells(l': Loop, fate: Fate, w: World, heart: int)
    requires Arrives(l', fate, w, heart)
    ensures l'.world == w
    ensures (l'.ctl == Hung <==> fate == Hangs) && (l'.ctl == Stopped <==> fate == Ends)
        && (l'.ctl.Suspended? <==> fate == NextTop)
  {
    if fate == NextTop {
      var top :| AtTop(l', top, w, heart);
      TopWaits(top);
    }
  }

  /**
   * From any top of the loop that a run reaches, and on any inputs, the run does the sequential iteration: it arrives
   * at the next top exactly if no accepted command stalls it and no negative value is left cached; it hangs exactly in
   * the first case and main stops exactly in the second.
   */
  lemma RunsAreIterations(l: Loop, inputs: seq<Input>)
    requires TopReached(l) && |inputs| == Span(l.world, l.heart)
    ensures var (l', w) := (Run(Top(l), inputs), Outcome(l, inputs));
            && l'.world == w
            && (l'.ctl == Hung <==> Stalls(l.world.frame))
            && (l'.ctl == Stopped <==> !Stalls(l.world.frame) && Negative(w))
            && (!Stalls(l.world.frame) && !Negative(w) <==> exists top :: AtTop(l', top, w, Beat(l.heart)))
  {
    var (l', w, fate) := (Run(Top(l), inputs), Outcome(l, inputs), FateOn(l, inputs));
    RunArrives(l, inputs);
    ArrivalTells(l', fate, w, Beat(l.heart));
    if top :| AtTop(l', top, w, Beat(l.heart)) {
      TopWaits(top);
    }
  }

  lemma TopWaits(l: Loop)
    ensures Top(l).ctl.Suspended? && Top(l).world == l.world
  {
  }

  /** The top an iteration arrives at is reached again, so iterations chain. */
  lemma NextTopReached(l: Loop, inputs: seq<Input>) returns (top: Loop)
    requires TopReached(l) && |inputs| == Span(l.world, l.heart) && FateOn(l, inputs) == NextTop
    ensures TopReached(top) && Run(Top(l), inputs) == Top(top)
    ensures top.world == Outcome(l, inputs) && top.heart == Beat(l.heart)
  {
    RunArrives(l, inputs);
    RunReachable(Top(l), inputs);
    top :| AtTop(Run(Top(l), inputs), top, Outcome(l, inputs), Beat(l.heart));
  }

  /** Every request is answered in the iteration in which it is open, whatever else happens in it. */
  lemma RunsAnswerRequests(l: Loop, inputs: seq<Input>, f: Feature)
    requires TopReached(l) && |inputs| == Span(l.world, l.heart) && FateOn(l, inputs) == NextTop
    ensures var (h, input) := (Recall(Run(Top(l), inputs).world.trace, f), Merging(l, inputs));
            (f in input.up ==> !h.plainOpen) && (f in input.extUp ==> !h.extOpen)
  {
    RunsAreIterations(l, inputs);
    TopIdle(l);
    AnsweredInIteration(l.world, l.heart, Merging(l, inputs), f);
  }

  // ---------- from the wish to the report ----------

  /**
   * A set-point written in one iteration is settled by the end of the next if it is invalid, refused or echoed there
   * and not overwritten; for focus area, if focus mode was asked for or committed by then.
   */
  lemma SettledByNextIteration(l: Loop, now: seq<Input>, top: Loop, next: seq<Input>, f: Feature)
    requires TopReached(l) && |now| == Span(l.world, l.heart) && FateOn(l, now) == NextTop
    requires AtTop(Run(Top(l), now), top, Outcome(l, now), Beat(l.heart)) && |next| == Span(top.world, top.heart)
    requires LeftAlone(top.world, Merging(top, next), f) && Servable(top.world.store, f)
    requires Settles(SetPointOf(top.world.store, f), f, Answer(Merging(top, next), f))
    ensures var p := SetPointOf(Run(Top(l), now + next).world.store, f); p.req == p.com
  {
    RunReachable(Top(l), now);
    TopIdle(top);
    SettledInIteration(top.world, top.heart, Merging(top, next), f);
    RunsAreIterations(top, next);
    RunAppend(Top(l), now, next);
  }

  /** The camera routine of the iteration finds the option v as the feature's request, and everything else goes well. */
  ghost predicate Grants(l: Loop, inputs: seq<Input>, f: Feature, v: int)
    requires |inputs| == Span(l.world, l.heart)
  {
    var input := Merging(l, inputs);
    && Due(l.world.store, GroupOf(f)) && Orderable(Received(l.world, input), f, v)
    && Obeys(input, f, v) && f in input.up && FateOn(l, inputs) == NextTop
  }

  /** The feature is set to v, as the ground station was told. */
  predicate Reported(w: World, f: Feature, v: int) {
    && At(w.store.req, f) == At(w.store.com, f) == v && f !in w.store.protect
    && Recall(w.trace, f).published == Some(v)
  }

  /**
   * A wish, received now or before, is committed, unprotected and published at the end of an iteration that grants
   * it.
   */
  lemma GrantedAtOnce(l: Loop, inputs: seq<Input>, f: Feature, v: int)
    requires TopReached(l) && |inputs| == Span(l.world, l.heart) && Grants(l, inputs, f, v)
    ensures Reported(Run(Top(l), inputs).world, f, v)
  {
    TopIdle(l);
    RunsAreIterations(l, inputs);
    ObeyedInIteration(l.world, l.heart, Merging(l, inputs), f, v);
  }

  /** From the request to the report, on any inputs: what the service pass reads is published in that iteration. */
  lemma ReadIsReported(l: Loop, inputs: seq<Input>, f: Feature, v: int)
    requires TopReached(l) && |inputs| == Span(l.world, l.heart) && FateOn(l, inputs) == NextTop
    requires !Due(l.world.store, GroupOf(f)) && Reads(l.world, Merging(l, inputs), f, v)
    requires f in Merging(l, inputs).up
    ensures var w := Run(Top(l), inputs).world;
            EntryOf(w.cache, f).signal == v && Recall(w.trace, f).published == Some(v) && f !in w.store.plain
  {
    TopIdle(l);
    RunsAreIterations(l, inputs);
    ReadInIteration(l.world, l.heart, Merging(l, inputs), f, v);
  }

  /** What a camera routine reads is published in that iteration, too, on any inputs. */
  lemma PollIsReported(l: Loop, inputs: seq<Input>, f: Feature)
    requires TopReached(l) && |inputs| == Span(l.world, l.heart) && FateOn(l, inputs) == NextTop
    requires Due(l.world.store, GroupOf(f)) && f in Merging(l, inputs).polls && f in Merging(l, inputs).up
    ensures var (w, v) := (Run(Top(l), inputs).world, ToSlot(Merging(l, inputs).polls[f]));
            EntryOf(w.cache, f).signal == v && Recall(w.trace, f).published == Some(v)
  {
    TopIdle(l);
    RunsAreIterations(l, inputs);
    PolledInIteration(l.world, l.heart, Merging(l, inputs), f);
  }

  /** No camera routine looks at the request in this iteration, or the camera gives it no usable answer. */
  predicate Unheard(w: World, input: Input, f: Feature, v: int) {
    Due(w.store, GroupOf(f)) ==> AnswerOutcome(Answer(input, f), v) == Unanswered
  }

  /** A wish that goes unheard stands at the end of the iteration, and its routine is due there if it can be served. */
  lemma WishStands(w: World, heart: int, input: Input, f: Feature, v: int)
    requires Idle(w) && Orderable(Received(w, input), f, v) && Unheard(w, input, f, v)
    ensures var w' := Iteration(w, heart, input);
            Orderable(w', f, v) && (Due(w'.store, GroupOf(f)) <==> Servable(w'.store, f))
  {
    IterationSetPoint(w, heart, input, f);
    PendingIsDue(Iteration(w, heart, input).store, f);
  }

  /**
   * From the wish to the report, on any inputs: the receiver of the first iteration leaves the option v as the
   * feature's request on a free store. Either that iteration grants it; or it goes unheard there, and the next
   * iteration, in which it is not overwritten and can be served, has the camera obey and the link carry the message.
   * Then v is committed, the protect bit clear, and v published.
   */
  lemma WishBecomesReport(l: Loop, now: seq<Input>, top: Loop, next: seq<Input>, f: Feature, v: int)
    requires TopReached(l) && |now| == Span(l.world, l.heart) && Orderable(Received(l.world, Merging(l, now)), f, v)
    requires FateOn(l, now) == NextTop && AtTop(Run(Top(l), now), top, Outcome(l, now), Beat(l.heart))
    requires |next| == Span(top.world, top.heart)
    requires Grants(l, now, f, v)
             || (Unheard(l.world, Merging(l, now), f, v)
                 && LeftAlone(top.world, Merging(top, next), f) && Servable(top.world.store, f)
                 && Obeys(Merging(top, next), f, v) && f in Merging(top, next).up && FateOn(top, next) == NextTop)
    ensures Reported(Run(Top(l), if Grants(l, now, f, v) then now else now + next).world, f, v)
  {
    if Grants(l, now, f, v) {
      GrantedAtOnce(l, now, f, v);
    } else {
      TopIdle(l);
      RunReachable(Top(l), now);
      WishStands(l.world, l.heart, Merging(l, now), f, v);
      GrantedAtOnce(top, next, f, v);
      RunAppend(Top(l), now, next);
    }
  }

  // ---------- start-up ----------

  lemma BootStands(w: World, first: Readings, second: Readings)
    requires w == FirstWorld(first, second)
    ensures Stands(Boot(first, second), BootDone, ANNOUNCEMENTS, w, 0)
  {
    BootSteady(first, second);
    Spawned(Loop(w, [], map[], Stopped, 0, 0, 0, 0), ANNOUNCEMENTS, BootDone);
  }

  lemma StartsAtTop(l: Loop)
    requires Rested(l) && l.heart == 0
    ensures var w := l.world.(store := InitClassState(l.world.store));
            AtTop(Continue(l, BootDone), l.(world := w), w, 0)
  {
  }

  /** Where start-up has led: to the first top with the world w, or to a stop. */
  ghost predicate Started(l': Loop, stopped: bool, w: World) {
    if stopped then l'.ctl == Stopped && l'.world == w
    else exists top :: AtTop(l', top, w.(store := InitClassState(w.store)), 0)
  }

  lemma StartedBy(l': Loop, l1: Loop, stopped: bool, w: World)
    requires l1.world == w && l' == (if stopped then l1.(ctl := Stopped) else Continue(l1, BootDone))
    requires AtTop(Continue(l1, BootDone), l1.(world := w.(store := InitClassState(w.store))),
        w.(store := InitClassState(w.store)), 0)
    ensures Started(l', stopped, w)
  {
  }

  lemma NegativeKept(w: World, w': World)
    requires SameSignals(w, w')
    ensures Negative(w) <==> Negative(w')
  {
  }

  /** The first publishers run and main wakes. */
  lemma FirstAnnounced(l: Loop, w: World, jobs: seq<Job>, pubs: seq<Input>, last: Input, input: Input)
    requires Stands(l, BootDone, jobs, w, 0) && Shows(input, jobs, pubs)
    requires forall i | 0 <= i < |jobs| :: jobs[i].Announce?
    ensures Started(Run(l, pubs + [last]), Negative(w), RunJobs(w, jobs, input))
  {
    var (l1, announced) := (Drained(l, pubs), RunJobs(w, jobs, input));
    Advance(l, pubs, last, input);
    AnnouncementsKeepSignals(w, jobs, input);
    NegativeKept(w, announced);
    StartsAtTop(l1);
    StartedBy(Run(l, pubs + [last]), l1, Negative(w), announced);
  }

  lemma StartsUp(l: Loop, w: World, jobs: seq<Job>, inputs: seq<Input>, input: Input)
    requires Stands(l, BootDone, jobs, w, 0) && inputs != [] && Shows(input, jobs, inputs[..|inputs| - 1])
    requires forall i | 0 <= i < |jobs| :: jobs[i].Announce?
    ensures Started(Run(l, inputs), Negative(w), RunJobs(w, jobs, input))
  {
    CutLast(inputs);
    FirstAnnounced(l, w, jobs, inputs[..|inputs| - 1], inputs[|inputs| - 1], input);
  }

  lemma BootShows(inputs: seq<Input>)
    requires |inputs| == 8
    ensures Shows(Merged(ANNOUNCEMENTS, inputs[..7]), ANNOUNCEMENTS, inputs[..7])
  {
    MergedShows(ANNOUNCEMENTS, inputs[..7]);
  }

  lemma BootFollows(l: Loop, w: World, inputs: seq<Input>)
    requires |inputs| == 8 && Stands(l, BootDone, ANNOUNCEMENTS, w, 0)
    requires Shows(Merged(ANNOUNCEMENTS, inputs[..7]), ANNOUNCEMENTS, inputs[..7])
    ensures Started(Run(l, inputs), Negative(w), RunJobs(w, ANNOUNCEMENTS, Merged(ANNOUNCEMENTS, inputs[..7])))
  {
    StartsUp(l, w, ANNOUNCEMENTS, inputs, Merged(ANNOUNCEMENTS, inputs[..7]));
  }

  /** Start-up: the first announcements, then the first top, or a stop exactly if a first reading is negative. */
  lemma BootArrives(first: Readings, second: Readings, inputs: seq<Input>)
    requires |inputs| == 8
    ensures var w := FirstWorld(first, second);
            Started(Run(Boot(first, second), inputs), Negative(w),
                    RunJobs(w, ANNOUNCEMENTS, Merged(ANNOUNCEMENTS, inputs[..7])))
  {
    var w := FirstWorld(first, second);
    BootStands(w, first, second);
    BootShows(inputs);
    BootFollows(Boot(first, second), w, inputs);
  }

  // ---------- many iterations ----------

  /** An iteration leads from one top to the next. */
  ghost predicate Leads(top: Loop, inputs: seq<Input>, next: Loop) {
    Rested(next) && |inputs| == Span(top.world, top.heart) && Run(Top(top), inputs) == Top(next)
  }

  /** A run from a first top to the top `last`, through one iteration for each list of inputs. */
  ghost predicate Chain(first: Loop, tops: seq<Loop>, inputs: seq<seq<Input>>, last: Loop)
    decreases |inputs|
  {
    |tops| == |inputs|
    && if inputs == [] then TopReached(first) && first.heart == 0 && last == first
       else
         var n := |inputs| - 1;
         Chain(first, tops[..n], inputs[..n], tops[n]) && Leads(tops[n], inputs[n], last)
  }

  lemma NextInChain(top: Loop, inputs: seq<Input>, next: Loop)
    requires TopReached(top) && Leads(top, inputs, next)
    ensures TopReached(next) && next.heart == Beat(top.heart)
  {
    RunReachable(Top(top), inputs);
    RunArrives(top, inputs);
    ArrivalTells(Top(next), FateOn(top, inputs), Outcome(top, inputs), Beat(top.heart));
    TopWaits(next);
    var other :| AtTop(Top(next), other, Outcome(top, inputs), Beat(top.heart));
    TopHeart(other);
    TopHeart(next);
  }

  lemma TopHeart(l: Loop)
    ensures Top(l).heart == l.heart
  {
  }

  lemma BeatCounts(n: nat)
    ensures Beat(n % 12) == (n + 1) % 12
  {
  }

  lemma {:induction false} ChainReached(first: Loop, tops: seq<Loop>, inputs: seq<seq<Input>>, last: Loop)
    requires Chain(first, tops, inputs, last)
    ensures TopReached(last) && last.heart == |inputs| % 12
    decreases |inputs|
  {
    if inputs != [] {
      var n := |inputs| - 1;
      ChainReached(first, tops[..n], inputs[..n], tops[n]);
      NextInChain(tops[n], inputs[n], last);
      BeatCounts(n);
    }
  }

  lemma HeartbeatCreated(w: World, heart: int)
    ensures Heartbeat in TopJobs(w, heart) <==> heart == 0
  {
    DueCamerasDistinct(w.store, CAMERA_ORDER);
    GroupsDistinct(Iso);
    if heart == 0 {
      assert TopJobs(w, heart)[1] == Heartbeat;
    }
  }

  /** On any inputs a heartbeat task is created at the first top and at every twelfth one after it, and at no other. */
  lemma HeartbeatEveryTwelfth(first: Loop, tops: seq<Loop>, inputs: seq<seq<Input>>, last: Loop)
    requires Chain(first, tops, inputs, last)
    ensures Heartbeat in TopJobs(last.world, last.heart) <==> |inputs| % 12 == 0
  {
    ChainReached(first, tops, inputs, last);
    HeartbeatCreated(last.world, last.heart);
  }
}
