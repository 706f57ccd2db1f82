/** The whole state the tasks of the event loop share, and each task as one atomic step on it. */
module Worlds {
  import opened Features
  import opened SetPointStores
  import opened MemoryValues
  import opened Transactions
  import opened ServicePasses
  import opened Messages
  import opened Traces

  datatype World = World(store: Store, cache: Cache, frame: Frame, trace: Trace)

  /**
   * What the outside contributes while one task runs. Each field is read by one task of an iteration. What the camera
   * program prints is taken to be text that decodes and splits into tokens; on anything else a routine raises.
   */
  datatype Input = Input(
    msgs: seq<Message>,                   // arriving while the receiver runs
    readings: Readings,                   // camera reads of the service pass
    answers: map<Feature, CameraAnswer>,  // camera replies to commands
    polls: Readings,                      // camera reads that are due by timestamp and succeed
    up: set<Feature>,                     // features whose PARAM_VALUE goes out
    extUp: set<Feature>,                  // features whose PARAM_EXT_VALUE goes out
    result: int)                          // of the command being processed

  function Answer(input: Input, f: Feature): CameraAnswer {
    if f in input.answers then input.answers[f] else Unusable
  }

  /** The camera routines, each for one feature but focus mode and focus area together. */
  datatype Group = GIso | GAperture | GWhiteBal | GExPro | GStillCap | GShutter | GFocus

  function Members(g: Group): seq<Feature> {
    match g
    case GIso => [Iso]
    case GAperture => [Aperture]
    case GWhiteBal => [WhiteBal]
    case GExPro => [ExPro]
    case GStillCap => [StillCap]
    case GShutter => [Shutter]
    case GFocus => [Focus, FocusArea]
  }

  function GroupOf(f: Feature): (g: Group)
    ensures forall h: Group :: f in Members(h) <==> h == g
  {
    match f
    case Iso => GIso
    case Aperture => GAperture
    case WhiteBal => GWhiteBal
    case ExPro => GExPro
    case StillCap => GStillCap
    case Shutter => GShutter
    case Focus => GFocus
    case FocusArea => GFocus
  }

  function RunningCode(g: Group): int {
    match g
    case GExPro => 7
    case GAperture => 8
    case GFocus => 9
    case GIso => 10
    case GShutter => 11
    case GWhiteBal => 12
    case GStillCap => 13
  }

  /** How a task ends: Failed is an exception, Spins a loop that never yields. */
  datatype End = Completed | Failed | Spins

  // ---------- receiving ----------

  function EventOf(s: Store, fr: Frame, m: Message): Option<Event> {
    match m
    case ListRequest => Some(AskedAll)
    case ExtListRequest => Some(ExtAskedAll)
    case ParamSet(Tag(f), value, _) =>
      if s.owner != STATE_READY then None else if value.Some? then Some(Wanted(f, ToSlot(value.value))) else Some(Stuck)
    case ParamRead(Tag(f)) => Some(Asked(f))
    case ExtRead(Tag(f), linkUp) => if s.owner == STATE_READY && linkUp then Some(ExtAsked(f)) else None
    case CommandLong(c, Some(p)) =>
      if fr.ack == MAV_RESULT_ACCEPTED then Some(Noted(Note(GOT_ERROR, c, p)))
      else if Accepts(fr, m) then Some(CommandTaken(c, CommandRpm2(c, p, fr.rpm2)))
      else None
    case BadData(_) => Some(Noted(Note(GOT_BAD, 0, 0.0)))
    case _ => None
  }

  function Log(t: Trace, e: Option<Event>): Trace {
    if e.Some? then Then(t, e.value) else t
  }

  function Deliver(w: World, m: Message): World {
    var e := AfterMessage(w.store, w.frame, m);
    w.(store := e.store, frame := e.frame, trace := Log(w.trace, EventOf(w.store, w.frame, m)))
  }

  function Receiving(w: World, msgs: seq<Message>, budget: nat): (World, End)
    decreases budget, w
  {
    if budget == 0 || msgs == [] then (w, Completed)
    else if AfterMessage(w.store, w.frame, msgs[0]).dies then (Deliver(w, msgs[0]), Failed)
    else Receiving(Deliver(w, msgs[0]), msgs[1..], budget - 1)
  }

  /** The receiving task on the world is the message loop on its store and frame. */
  lemma {:induction false} ReceivingIsMessageLoop(w: World, msgs: seq<Message>, budget: nat)
    ensures var (e, r) := (AfterMessages(w.store, w.frame, msgs, budget), Receiving(w, msgs, budget));
            && r.0.store == e.store && r.0.frame == e.frame && r.0.cache == w.cache
            && r.1 == (if e.dies then Failed else Completed)
    decreases budget
  {
    if budget > 0 && msgs != [] {
      ReceivingIsMessageLoop(Deliver(w, msgs[0]), msgs[1..], budget - 1);
    }
  }

  // ---------- serving requests ----------

  /** The camera read of a service pass for one feature, if it was asked for: it yields a value or is missed. */
  function LogRead(t: Trace, f: Feature, asked: set<Feature>, readings: Readings): Trace {
    if f !in asked then t
    else if f in readings then Then(Then(t, Learned(f, ToSlot(readings[f]))), TakenUp(f))
    else Then(t, Missed(f))
  }

  /** The camera reads of a service pass, in the order they are made. */
  function LogReads(t: Trace, n: nat, asked: set<Feature>, readings: Readings): Trace
    requires n <= |SERVICE_ORDER|
    decreases n, t
  {
    if n == 0 then t
    else LogRead(LogReads(t, n - 1, asked, readings), SERVICE_ORDER[n - 1], asked, readings)
  }

  /** The ext requests it takes up after that. */
  function LogExtReads(t: Trace, n: nat, asked: set<Feature>): Trace
    requires n <= |SERVICE_ORDER|
    decreases n, t
  {
    if n == 0 then t
    else
      var (before, f) := (LogExtReads(t, n - 1, asked), SERVICE_ORDER[n - 1]);
      if f in asked then Then(before, ExtTakenUp(f)) else before
  }

  function LogPass(t: Trace, plain: set<Feature>, ext: set<Feature>, readings: Readings): Trace {
    LogExtReads(LogReads(t, |SERVICE_ORDER|, plain, readings), |SERVICE_ORDER|, ext)
  }

  function ServiceTurn(w: World, readings: Readings): World {
    var after := Pass(ReadPlain, Served(w.store.plain, w.store.ext, w.cache), readings);
    World(w.store.(plain := after.plain, ext := after.ext), after.cache, w.frame,
          LogPass(w.trace, w.store.plain, w.store.ext, readings))
  }

  // ---------- commanding the camera ----------

  function LogOutcome(t: Trace, f: Feature, requested: int, o: Outcome, code: Option<int>): Trace {
    if code.None? then t
    else
      var told := Then(t, Commanded(f, requested, code.value));
      match o
      case NotWritable => Then(told, Refused(f))
      case Confirmed => Then(Then(told, Echoed(f, requested)), Learned(f, ToSlot(requested)))
      case _ => told
  }

  /** The world after a camera transaction with the given outcome. */
  function Settle(w: World, f: Feature, o: Outcome, code: Option<int>): World {
    var requested := At(w.store.req, f);
    w.(store := SettledStore(w.store, f, o),
       cache := w.cache[f := SettledEntry(EntryOf(w.cache, f), requested, o)],
       trace := LogOutcome(w.trace, f, requested, o, code))
  }

  function Transact(w: World, f: Feature, a: CameraAnswer): World {
    var o := Verdict(w.store, f, a);
    Settle(w, f, o, CommandOf(f, At(w.store.req, f), o))
  }

  function Poll(w: World, f: Feature, polls: Readings): World {
    if f in polls then
      w.(cache := w.cache[f := Cached(EntryOf(w.cache, f), polls[f])],
          trace := Then(w.trace, Learned(f, ToSlot(polls[f]))))
    else w
  }

  function TransactAll(w: World, fs: seq<Feature>, input: Input): World
    decreases |fs|, w
  {
    if fs == [] then w else TransactAll(Transact(w, fs[0], Answer(input, fs[0])), fs[1..], input)
  }

  function PollAll(w: World, fs: seq<Feature>, polls: Readings): World
    decreases |fs|, w
  {
    if fs == [] then w else PollAll(Poll(w, fs[0], polls), fs[1..], polls)
  }

  function WithRunning(w: World, code: int): World {
    w.(store := w.store.(running := code))
  }

  function CameraTurn(w: World, g: Group, input: Input): World {
    WithRunning(PollAll(TransactAll(WithRunning(w, RunningCode(g)), Members(g), input), Members(g), input.polls),
        FUNC_IDLE)
  }

  // ---------- publishing ----------

  function Publish(w: World, f: Feature, linkUp: bool): World {
    var (e, visit) := (EntryOf(w.cache, f), PublishVisit(EntryOf(w.cache, f), linkUp));
    if visit.Sent? then
      w.(cache := w.cache[f := AfterPublish(e, linkUp)], trace := Then(w.trace, Published(f, visit.value)))
    else w
  }

  function PublishExt(w: World, f: Feature, linkUp: bool): World {
    var (e, visit) := (EntryOf(w.cache, f), PublishExtVisit(EntryOf(w.cache, f), linkUp));
    if visit.Sent? then
      w.(cache := w.cache[f := AfterPublishExt(e, linkUp)], trace := Then(w.trace, ExtPublished(f, visit.value)))
    else w
  }

  /** PARAM_VALUE for each feature in turn; a value that cannot be packed ends the task. */
  function PublishAll(w: World, fs: seq<Feature>, up: set<Feature>): (World, End)
    decreases |fs|, w
  {
    if fs == [] then (w, Completed)
    else if PublishVisit(EntryOf(w.cache, fs[0]), fs[0] in up) == Unpackable then (w, Failed)
    else PublishAll(Publish(w, fs[0], fs[0] in up), fs[1..], up)
  }

  function PublishExtAll(w: World, fs: seq<Feature>, up: set<Feature>): World
    decreases |fs|, w
  {
    if fs == [] then w else PublishExtAll(PublishExt(w, fs[0], fs[0] in up), fs[1..], up)
  }

  function PublishTurn(w: World, g: Group, input: Input): (World, End) {
    var (sent, end) := PublishAll(w, Members(g), input.up);
    if end == Failed then (sent, Failed) else (PublishExtAll(sent, Members(g), input.extUp), Completed)
  }

  // ---------- the tasks ----------

  datatype Job =
    | Receive
    | Heartbeat
    | Service
    | Camera(g: Group)
    | Announce(g: Group)
    | Acknowledge(command: int, rpm2: int, progress: int, result: int)
    | Process
    | ErrorHandler

  /** The result a command ends with: the camera-information command keeps the "accepted" it came with. */
  function ResultOf(typ: int, result: int): int {
    if typ == MAV_CMD_REQUEST_CAMERA_INFORMATION then MAV_RESULT_ACCEPTED else result
  }

  function Processed(fr: Frame, result: int): Frame {
    fr.(ack := if fr.typ == MAV_CMD_REQUEST_CAMERA_INFORMATION then fr.ack else result, taskControl := 0)
  }

  /** The error handler's loop: the first pass acknowledges the recorded rejection, the others do nothing. */
  function Rejecting(w: World): World {
    var note := NoteOf(w.frame);
    match AnswerTo(note)
    case Some(answer) => w.(frame := WithNote(w.frame, Cleared(note)), trace := Then(w.trace, TurnedDown(answer)))
    case None => w
  }

  function RunJob(w: World, job: Job, input: Input): (World, End) {
    match job
    case Receive => Receiving(w, input.msgs, MESSAGES_PER_TASK)
    case Heartbeat => (w, Completed)
    case Service => (ServiceTurn(w, input.readings), Completed)
    case Camera(g) => (CameraTurn(w, g, input), Completed)
    case Announce(g) => PublishTurn(w, g, input)
    case Acknowledge(c, r, progress, result) => (w.(trace := Then(w.trace, Acked(c, r, progress, result))), Completed)
    case Process =>
      if Unserved(w.frame.typ) then (w.(trace := Then(w.trace, ProcessDied(w.frame.typ))), Failed)
      else
        (w.(frame := Processed(w.frame, input.result),
            trace := Then(w.trace, Handled(ResultOf(w.frame.typ, input.result)))), Completed)
    case ErrorHandler => if w.frame.taskControl > 0 then (Rejecting(w), Spins) else (w, Completed)
  }
}
