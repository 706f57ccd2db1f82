/**
 * The main loop as a state machine over asyncio's ready queue. Creating a task appends it to the queue; awaiting an
 * unfinished task suspends main; when the awaited task ends, main's wake-up is appended. No task awaits anything, so
 * a step of the queue is either one whole task or main running to its next await.
 */
module EventLoops {
  import opened Features
  import opened SetPointStores
  import opened MemoryValues
  import opened ServicePasses
  import opened Messages
  import opened Traces
  import opened Worlds

  datatype Handle = Start(id: nat, job: Job) | Wake

  /** Where main continues once what it awaits has ended. */
  datatype Pc = BootDone | AfterAck0 | AfterProcess | AfterAck100 | AnnouncementsDone | ServiceDone

  /**
   * Main awaits the tasks `ids` one after the other; Stopped is an exception in main, Hung a task that never yields.
   */
  datatype Control = Suspended(ids: seq<nat>, pc: Pc) | Stopped | Hung

  datatype Loop = Loop(
    world: World,
    queue: seq<Handle>,
    ended: map<nat, End>,
    ctl: Control,
    next: nat,      // id of the next task
    receiver: nat,  // the receiving task of this iteration
    servicer: nat,  // its service task
    heart: int)

  // ---------- creating and awaiting tasks ----------

  function Starts(from: nat, jobs: seq<Job>): (q: seq<Handle>)
    ensures |q| == |jobs| && forall i | 0 <= i < |jobs| :: q[i] == Start(from + i, jobs[i])
    decreases |jobs|, from
  {
    if jobs == [] then [] else [Start(from, jobs[0])] + Starts(from + 1, jobs[1..])
  }

  function Ids(from: nat, n: nat): (ids: seq<nat>)
    ensures |ids| == n && forall i | 0 <= i < n :: ids[i] == from + i
    decreases n, from
  {
    if n == 0 then [] else [from] + Ids(from + 1, n - 1)
  }

  function Spawn(l: Loop, jobs: seq<Job>): Loop {
    l.(queue := l.queue + Starts(l.next, jobs), next := l.next + |jobs|)
  }

  function SpawnAndAwait(l: Loop, jobs: seq<Job>, pc: Pc): Loop {
    Spawn(l, jobs).(ctl := Suspended(Ids(l.next, |jobs|), pc))
  }

  datatype Awaited = Passed | Raises | Blocked(rest: seq<nat>)

  /** Awaiting tasks in order: finished ones are passed over, a failed one raises, the first unfinished one suspends. */
  function Await(ids: seq<nat>, ended: map<nat, End>): Awaited {
    if ids == [] then Passed
    else if ids[0] !in ended then Blocked(ids)
    else if ended[ids[0]] == Completed then Await(ids[1..], ended)
    else Raises
  }

  predicate NotStart(h: Handle, id: nat) {
    h.Start? ==> h.id != id
  }

  function Dropped(q: seq<Handle>, id: nat): seq<Handle> {
    if q == [] then [] else (if NotStart(q[0], id) then [q[0]] else []) + Dropped(q[1..], id)
  }

  /** Cancelling an ended task does nothing; one that has not started never runs. */
  function Cancel(l: Loop, id: nat): Loop {
    if id in l.ended then l else l.(queue := Dropped(l.queue, id), ended := l.ended[id := Failed])
  }

  // ---------- main ----------

  /** A set-point differs from what is committed and is not the reserved 99. */
  predicate Pending(s: Store, f: Feature) {
    At(s.req, f) != STATE_INIT && At(s.req, f) != At(s.com, f)
  }

  /** When main starts a camera routine; for the focus pair `and` binds tighter than `or`. */
  predicate Due(s: Store, g: Group) {
    match g
    case GFocus =>
      At(s.req, Focus) != STATE_INIT
      || (At(s.req, FocusArea) != STATE_INIT && At(s.req, Focus) != At(s.com, Focus)
          && At(s.req, FocusArea) != At(s.com, FocusArea))
    case _ => Pending(s, Members(g)[0])
  }

  const CAMERA_ORDER: seq<Group> := [GIso, GAperture, GWhiteBal, GExPro, GStillCap, GShutter, GFocus]

  const ANNOUNCEMENTS: seq<Job> := [
    Announce(GIso), Announce(GAperture), Announce(GFocus), Announce(GExPro), Announce(GShutter), Announce(GWhiteBal),
    Announce(GStillCap)]

  function DueCameras(s: Store, gs: seq<Group>): seq<Job>
    decreases |gs|, s
  {
    if gs == [] then [] else (if Due(s, gs[0]) then [Camera(gs[0])] else []) + DueCameras(s, gs[1..])
  }

  function TopJobs(w: World, heart: int): seq<Job> {
    [Receive] + (if heart == 0 then [Heartbeat] else []) + [Service]
    + if w.store.running == FUNC_IDLE then DueCameras(w.store, CAMERA_ORDER) else []
  }

  /** The tasks created at the top of the loop body. */
  function Created(l: Loop): Loop {
    Spawn(l, TopJobs(l.world, l.heart)).(receiver := l.next, servicer := l.next + if l.heart == 0 then 2 else 1)
  }

  /** From there to the first await: acknowledge the accepted command if there is one, else announce. */
  function Dispatch(l: Loop): Loop {
    var fr := l.world.frame;
    if fr.ack == MAV_RESULT_ACCEPTED then SpawnAndAwait(l, [Acknowledge(fr.rcv, fr.rpm2, 0, fr.ack)], AfterAck0)
    else SpawnAndAwait(l, ANNOUNCEMENTS, AnnouncementsDone)
  }

  function Top(l: Loop): Loop {
    Dispatch(Created(l))
  }

  function WithFrame(l: Loop, fr: Frame): Loop {
    l.(world := l.world.(frame := fr))
  }

  function InitClassState(s: Store): Store {
    s.(owner := if s.owner == STATE_INIT then STATE_READY else s.owner)
  }

  function Beat(heart: int): int {
    (heart + 1) % 12
  }

  /** After the announcements: cancel the receiver and count the beat. */
  function EndIteration(l: Loop): Loop {
    Cancel(l, l.receiver).(heart := Beat(l.heart))
  }

  function AwaitService(l: Loop): Loop {
    match Await([l.servicer], l.ended)
    case Passed => Top(l)
    case Raises => l.(ctl := Stopped)
    case Blocked(rest) => l.(ctl := Suspended(rest, ServiceDone))
  }

  function Continue(l: Loop, pc: Pc): Loop {
    var fr := l.world.frame;
    match pc
    case BootDone => Top(l.(world := l.world.(store := InitClassState(l.world.store))))
    case AfterAck0 => SpawnAndAwait(WithFrame(l, fr.(taskControl := 1)), [Process, ErrorHandler], AfterProcess)
    case AfterProcess => SpawnAndAwait(l, [Acknowledge(fr.rcv, fr.rpm2, 100, fr.ack)], AfterAck100)
    case AfterAck100 =>
      SpawnAndAwait(WithFrame(l, fr.(rcv := 0, ack := ACK_ALL_DATA_COMPLETE)), ANNOUNCEMENTS, AnnouncementsDone)
    case AnnouncementsDone => AwaitService(EndIteration(l))
    case ServiceDone => Top(l)
  }

  function Resume(l: Loop, ids: seq<nat>, pc: Pc): Loop {
    match Await(ids, l.ended)
    case Passed => Continue(l, pc)
    case Raises => l.(ctl := Stopped)
    case Blocked(rest) => l.(ctl := Suspended(rest, pc))
  }

  // ---------- steps and runs ----------

  predicate Awaits(c: Control, id: nat) {
    c.Suspended? && c.ids != [] && c.ids[0] == id
  }

  /** The task at the head of the queue has run and left the world w. */
  function AfterTask(l: Loop, id: nat, w: World, end: End): Loop
    requires l.queue != []
  {
    if end == Spins then l.(world := w, ctl := Hung)
    else l.(world := w, ended := l.ended[id := end], queue := l.queue[1..] + if Awaits(l.ctl, id) then [Wake] else [])
  }

  function Step(l: Loop, input: Input): Loop {
    if !l.ctl.Suspended? || l.queue == [] then l
    else match l.queue[0]
      case Wake => Resume(l.(queue := l.queue[1..]), l.ctl.ids, l.ctl.pc)
      case Start(id, job) => AfterTask(l, id, RunJob(l.world, job, input).0, RunJob(l.world, job, input).1)
  }

  function Run(l: Loop, inputs: seq<Input>): Loop {
    if inputs == [] then l else Step(Run(l, inputs[..|inputs| - 1]), inputs[|inputs| - 1])
  }

  // ---------- start-up ----------

  const INIT_ORDER: seq<Feature> := [ExPro, Aperture, Focus, FocusArea, Iso, Shutter, WhiteBal, StillCap]

  /** A first read of the camera: its value is announced; a failed one leaves a silent 0. */
  function FirstRead(w: World, f: Feature, readings: Readings): World {
    if f in readings then
      w.(cache := w.cache[f := Entry(ToSlot(readings[f]), 0, STATE_READY, true, false)],
         trace := Then(w.trace, Learned(f, ToSlot(readings[f]))))
    else w.(cache := w.cache[f := BLANK])
  }

  function FirstReads(w: World, fs: seq<Feature>, readings: Readings): World
    decreases |fs|, w
  {
    if fs == [] then w else FirstReads(FirstRead(w, fs[0], readings), fs[1..], readings)
  }

  const NEW_STORE := Store(map[], map[], {}, {}, {}, STATE_INIT, FUNC_IDLE)

  const NEW_WORLD := World(NEW_STORE, map[], NEW_FRAME, Silence)

  predicate AllZero(c: Cache, fs: seq<Feature>)
    decreases |fs|, c
  {
    fs == [] || (EntryOf(c, fs[0]).signal == 0 && AllZero(c, fs[1..]))
  }

  /** The camera is read once, and read again after a reset of the link if everything came out as zero. */
  function FirstWorld(first: Readings, second: Readings): World {
    var w := FirstReads(NEW_WORLD, INIT_ORDER, first);
    if AllZero(w.cache, INIT_ORDER) then PollAll(w, INIT_ORDER, second) else w
  }

  function Boot(first: Readings, second: Readings): Loop {
    SpawnAndAwait(Loop(FirstWorld(first, second), [], map[], Stopped, 0, 0, 0, 0), ANNOUNCEMENTS, BootDone)
  }
}
