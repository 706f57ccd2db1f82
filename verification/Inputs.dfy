/**
 * What a task takes from its Input, and how the inputs of the tasks of an iteration, each of which runs at most once,
 * merge into one.
 */
module Inputs {
  import opened Features
  import opened ServicePasses
  import opened Worlds
  import opened EventLoops
  import opened SetPointStores

  /** Do two inputs show a task the same? */
  predicate SameView(job: Job, a: Input, b: Input) {
    match job
    case Receive => a.msgs == b.msgs
    case Service => a.readings == b.readings
    case Camera(g) =>
      forall f | f in Members(g) :: Answer(a, f) == Answer(b, f) && Reading(a.polls, f) == Reading(b.polls, f)
    case Announce(g) => forall f | f in Members(g) :: (f in a.up <==> f in b.up) && (f in a.extUp <==> f in b.extUp)
    case Process => a.result == b.result
    case _ => true
  }

  lemma {:induction false} TransactAllSees(w: World, fs: seq<Feature>, a: Input, b: Input)
    requires forall f | f in fs :: Answer(a, f) == Answer(b, f)
    ensures TransactAll(w, fs, a) == TransactAll(w, fs, b)
    decreases |fs|
  {
    if fs != [] {
      TransactAllSees(Transact(w, fs[0], Answer(a, fs[0])), fs[1..], a, b);
    }
  }

  lemma {:induction false} PollAllSees(w: World, fs: seq<Feature>, a: Readings, b: Readings)
    requires forall f | f in fs :: Reading(a, f) == Reading(b, f)
    ensures PollAll(w, fs, a) == PollAll(w, fs, b)
    decreases |fs|
  {
    if fs != [] {
      assert Reading(a, fs[0]) == Reading(b, fs[0]);
      PollAllSees(Poll(w, fs[0], a), fs[1..], a, b);
    }
  }

  lemma {:induction false} PublishAllSees(w: World, fs: seq<Feature>, a: set<Feature>, b: set<Feature>)
    requires forall f | f in fs :: f in a <==> f in b
    ensures PublishAll(w, fs, a) == PublishAll(w, fs, b) && PublishExtAll(w, fs, a) == PublishExtAll(w, fs, b)
    decreases |fs|
  {
    if fs != [] {
      PublishAllSees(Publish(w, fs[0], fs[0] in a), fs[1..], a, b);
      PublishAllSees(PublishExt(w, fs[0], fs[0] in a), fs[1..], a, b);
    }
  }

  /** A task depends on nothing else in its Input. */
  lemma JobSees(w: World, job: Job, a: Input, b: Input)
    requires SameView(job, a, b)
    ensures RunJob(w, job, a) == RunJob(w, job, b)
  {
    match job
    case Camera(g) =>
      var w1 := WithRunning(w, RunningCode(g));
      TransactAllSees(w1, Members(g), a, b);
      PollAllSees(TransactAll(w1, Members(g), a), Members(g), a.polls, b.polls);
    case Announce(g) =>
      PublishAllSees(w, Members(g), a.up, b.up);
      PublishAllSees(PublishAll(w, Members(g), a.up).0, Members(g), a.extUp, b.extUp);
    case _ =>
  }

  // ---------- one input for many tasks ----------

  /** The input shows each task of a list what it sees in its own input. */
  predicate Shows(input: Input, jobs: seq<Job>, inputs: seq<Input>) {
    |inputs| == |jobs| && forall k | 0 <= k < |jobs| :: SameView(jobs[k], inputs[k], input)
  }

  const QUIET := Input([], map[], map[], map[], {}, {}, 0)

  /** The input `all`, but showing the task what its own input shows it. */
  function Overlaid(job: Job, own: Input, all: Input): Input {
    match job
    case Receive => all.(msgs := own.msgs)
    case Service => all.(readings := own.readings)
    case Camera(g) =>
      all.(answers := (map f: Feature | f in AllFeatures() :: if f in Members(g) then Answer(own, f)
          else Answer(all, f)),
           polls := (map f: Feature | f in AllFeatures() && f in (if f in Members(g) then own else all).polls ::
                       (if f in Members(g) then own else all).polls[f]))
    case Announce(g) =>
      all.(up := (set f: Feature | f in AllFeatures() && f in (if f in Members(g) then own else all).up),
           extUp := (set f: Feature | f in AllFeatures() && f in (if f in Members(g) then own else all).extUp))
    case Process => all.(result := own.result)
    case _ => all
  }

  /** Each field from the input of the task that reads it. */
  function Merged(jobs: seq<Job>, inputs: seq<Input>): Input
    requires |jobs| == |inputs|
    decreases |jobs|, inputs
  {
    if jobs == [] then QUIET else Overlaid(jobs[0], inputs[0], Merged(jobs[1..], inputs[1..]))
  }

  predicate NoRepeats(jobs: seq<Job>) {
    forall i, j | 0 <= i < j < |jobs| :: jobs[i] != jobs[j]
  }

  lemma OverlaidCamera(g: Group, own: Input, all: Input, f: Feature)
    ensures var (a, source) := (Overlaid(Camera(g), own, all), if f in Members(g) then own else all);
            Answer(a, f) == Answer(source, f) && Reading(a.polls, f) == Reading(source.polls, f)
  {
    assert f in AllFeatures();
  }

  lemma OverlaidLinks(g: Group, own: Input, all: Input, f: Feature)
    ensures var (a, source) := (Overlaid(Announce(g), own, all), if f in Members(g) then own else all);
            (f in a.up <==> f in source.up) && (f in a.extUp <==> f in source.extUp)
  {
    assert f in AllFeatures();
  }

  lemma OverlaidSees(job: Job, own: Input, all: Input)
    ensures SameView(job, own, Overlaid(job, own, all))
  {
    if job.Camera? {
      forall f | f in Members(job.g)
        ensures Answer(own, f) == Answer(Overlaid(job, own, all), f)
        ensures Reading(own.polls, f) == Reading(Overlaid(job, own, all).polls, f)
      {
        OverlaidCamera(job.g, own, all, f);
      }
    } else if job.Announce? {
      forall f | f in Members(job.g)
        ensures f in own.up <==> f in Overlaid(job, own, all).up
        ensures f in own.extUp <==> f in Overlaid(job, own, all).extUp
      {
        OverlaidLinks(job.g, own, all, f);
      }
    }
  }

  lemma GroupsApart(g: Group, h: Group, f: Feature)
    requires g != h && f in Members(g)
    ensures f !in Members(h)
  {
    assert GroupOf(f) == g;
  }

  lemma OverlaidElsewhere(job: Job, own: Input, all: Input, other: Job)
    requires other != job
    ensures SameView(other, all, Overlaid(job, own, all))
  {
    if job.Camera? && other.Camera? {
      forall f | f in Members(other.g)
        ensures Answer(all, f) == Answer(Overlaid(job, own, all), f)
        ensures Reading(all.polls, f) == Reading(Overlaid(job, own, all).polls, f)
      {
        GroupsApart(other.g, job.g, f);
        OverlaidCamera(job.g, own, all, f);
      }
    } else if job.Announce? && other.Announce? {
      forall f | f in Members(other.g)
        ensures f in all.up <==> f in Overlaid(job, own, all).up
        ensures f in all.extUp <==> f in Overlaid(job, own, all).extUp
      {
        GroupsApart(other.g, job.g, f);
        OverlaidLinks(job.g, own, all, f);
      }
    }
  }

  lemma SameViewTrans(job: Job, a: Input, b: Input, c: Input)
    requires SameView(job, a, b) && SameView(job, b, c)
    ensures SameView(job, a, c)
  {
  }

  /** If no task occurs twice, merging their inputs shows every one what it saw. */
  lemma {:induction false} MergedShows(jobs: seq<Job>, inputs: seq<Input>)
    requires |jobs| == |inputs| && NoRepeats(jobs)
    ensures Shows(Merged(jobs, inputs), jobs, inputs)
    decreases |jobs|
  {
    if jobs != [] {
      var (all, rest) := (Merged(jobs, inputs), Merged(jobs[1..], inputs[1..]));
      MergedShows(jobs[1..], inputs[1..]);
      forall k | 0 <= k < |jobs|
        ensures SameView(jobs[k], inputs[k], all)
      {
        if k == 0 {
          OverlaidSees(jobs[0], inputs[0], rest);
        } else {
          assert jobs[1..][k - 1] == jobs[k] && inputs[1..][k - 1] == inputs[k];
          OverlaidElsewhere(jobs[0], inputs[0], rest, jobs[k]);
          SameViewTrans(jobs[k], inputs[k], rest, all);
        }
      }
    }
  }

  lemma ShowsParts(input: Input, a: seq<Job>, b: seq<Job>, p: seq<Input>, q: seq<Input>)
    requires |a| == |p| && Shows(input, a + b, p + q)
    ensures Shows(input, a, p) && Shows(input, b, q)
  {
    forall k | 0 <= k < |a|
      ensures SameView(a[k], p[k], input)
    {
      assert (a + b)[k] == a[k] && (p + q)[k] == p[k];
    }
    forall k | 0 <= k < |b|
      ensures SameView(b[k], q[k], input)
    {
      assert (a + b)[|a| + k] == b[k] && (p + q)[|a| + k] == q[k];
    }
  }

  // ---------- no task occurs twice in an iteration ----------

  lemma {:induction false} DueCamerasDistinct(s: Store, gs: seq<Group>)
    requires forall i, j | 0 <= i < j < |gs| :: gs[i] != gs[j]
    ensures NoRepeats(DueCameras(s, gs))
    ensures forall i | 0 <= i < |DueCameras(s, gs)| :: DueCameras(s, gs)[i].Camera? && DueCameras(s, gs)[i].g in gs
    decreases |gs|
  {
    if gs != [] {
      DueCamerasDistinct(s, gs[1..]);
    }
  }

  lemma JoinDistinct(a: seq<Job>, b: seq<Job>)
    requires NoRepeats(a) && NoRepeats(b) && forall i, j | 0 <= i < |a| && 0 <= j < |b| :: a[i] != b[j]
    ensures NoRepeats(a + b)
  {
  }

  predicate CreatedAtTop(job: Job) {
    job.Receive? || job.Heartbeat? || job.Service? || job.Camera?
  }

  lemma OpeningDistinct(heart: int)
    ensures var opening := [Receive] + (if heart == 0 then [Heartbeat] else []) + [Service];
            NoRepeats(opening) && forall i | 0 <= i < |opening| :: CreatedAtTop(opening[i]) && !opening[i].Camera?
  {
  }

  lemma TopJobsDistinct(w: World, heart: int)
    ensures NoRepeats(TopJobs(w, heart)) && forall i | 0 <= i < |TopJobs(w, heart)|
        :: CreatedAtTop(TopJobs(w, heart)[i])
  {
    var opening := [Receive] + (if heart == 0 then [Heartbeat] else []) + [Service];
    var cameras := if w.store.running == FUNC_IDLE then DueCameras(w.store, CAMERA_ORDER) else [];
    OpeningDistinct(heart);
    DueCamerasDistinct(w.store, CAMERA_ORDER);
    JoinDistinct(opening, cameras);
    assert TopJobs(w, heart) == opening + cameras;
  }

  /** The tasks of an iteration that take something from outside. */
  function Listeners(w: World, heart: int): seq<Job> {
    TopJobs(w, heart) + ([Process] + ANNOUNCEMENTS)
  }

  lemma ListenersDistinct(w: World, heart: int)
    ensures NoRepeats(Listeners(w, heart)) && NoRepeats(TopJobs(w, heart) + ANNOUNCEMENTS)
    ensures NoRepeats(TopJobs(w, heart) + ([Process] + []))
  {
    TopJobsDistinct(w, heart);
    JoinDistinct([Process], ANNOUNCEMENTS);
    JoinDistinct(TopJobs(w, heart), [Process] + ANNOUNCEMENTS);
    JoinDistinct(TopJobs(w, heart), ANNOUNCEMENTS);
    JoinDistinct(TopJobs(w, heart), [Process] + []);
  }
}
