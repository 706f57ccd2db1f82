/** What happened in a run, seen from outside: a list of events, and what it tells about one feature. */
module Traces {
  import opened Features
  import opened Enumerators
  import opened Messages

  datatype Event =
    | Asked(f: Feature)                           // PARAM_REQUEST_READ
    | AskedAll                                    // PARAM_REQUEST_LIST
    | ExtAsked(f: Feature)                        // PARAM_EXT_REQUEST_READ answered at once and recorded
    | ExtAskedAll                                 // PARAM_EXT_REQUEST_LIST
    | Wanted(f: Feature, value: int)              // PARAM_SET written to the store
    | Stuck                                       // PARAM_SET whose value is no integer
    | Commanded(f: Feature, value: int, code: int)  // the camera is told to use an option
    | Refused(f: Feature)                         // the camera says "not writable"
    | Echoed(f: Feature, value: int)              // the camera echoes the value
    | Learned(f: Feature, value: int)             // a value the camera reported, as cached
    | TakenUp(f: Feature)                         // a service pass has read an asked feature
    | Missed(f: Feature)                          // a service pass could not read it
    | ExtTakenUp(f: Feature)                      // a service pass has taken up an ext request
    | Published(f: Feature, value: int)           // PARAM_VALUE sent by the publisher
    | ExtPublished(f: Feature, value: int)        // PARAM_EXT_VALUE sent by the publisher
    | CommandTaken(command: int, rpm2: int)       // COMMAND_LONG accepted
    | Noted(note: Note)                           // a rejection is recorded for the error handler
    | TurnedDown(answer: Rejection)               // the error handler acknowledges it
    | Handled(result: int)                        // the processing task ended, and with this result the command
    | ProcessDied(typ: int)                       // the processing task died of this message type
    | Acked(command: int, rpm2: int, progress: int, result: int)  // handed to the link; a failed send is not repeated

  datatype Trace = Silence | Then(before: Trace, last: Event)

  /** What a trace tells about one feature. */
  datatype History = History(
    wanted: set<int>,        // every value PARAM_SET wrote
    echo: Option<int>,       // the last value the camera echoed
    refused: bool,           // the last settled attempt was "not writable"
    learned: Option<int>,    // the last value the camera reported
    published: Option<int>,  // the last value the publisher sent
    plainOpen: bool,         // a plain request newer than the last PARAM_VALUE
    extOpen: bool,           // an ext request newer than the last PARAM_EXT_VALUE
    unread: bool,            // a plain request newer than the last one a service pass has taken up
    extUnread: bool,         // likewise for ext requests
    due: bool,               // a value, a missed read or an ext request taken up is newer than the last PARAM_VALUE
    extDue: bool)            // an ext request taken up is newer than the last PARAM_EXT_VALUE

  const NO_HISTORY := History({}, None, false, None, None, false, false, false, false, false, false)

  function Remember(h: History, e: Event, f: Feature): History {
    match e
    case Asked(g) => if g == f then h.(plainOpen := true, unread := true) else h
    case AskedAll => h.(plainOpen := true, unread := true)
    case ExtAsked(g) => if g == f then h.(extOpen := true, extUnread := true) else h
    case ExtAskedAll => h.(extOpen := true, extUnread := true)
    case Wanted(g, v) => if g == f then h.(wanted := h.wanted + {v}) else h
    case Refused(g) => if g == f then h.(refused := true) else h
    case Echoed(g, v) => if g == f then h.(echo := Some(v), refused := false) else h
    case Learned(g, v) => if g == f then h.(learned := Some(v), due := true) else h
    case TakenUp(g) => if g == f then h.(unread := false) else h
    case Missed(g) => if g == f then h.(due := true) else h
    case ExtTakenUp(g) => if g == f then h.(extUnread := false, due := true, extDue := true) else h
    case Published(g, v) => if g == f then h.(published := Some(v), plainOpen := false, due := false) else h
    case ExtPublished(g, _) => if g == f then h.(extOpen := false, extDue := false) else h
    case _ => h
  }

  function Recall(t: Trace, f: Feature): History {
    match t
    case Silence => NO_HISTORY
    case Then(before, e) => Remember(Recall(before, f), e, f)
  }

  /** The rejection recorded last and not yet acknowledged. */
  function StandingNote(t: Trace): Note {
    match t
    case Silence => NO_NOTE
    case Then(before, e) =>
      if e.Noted? then e.note else if e.TurnedDown? then Cleared(StandingNote(before)) else StandingNote(before)
  }

  predicate EverStuck(t: Trace) {
    t.Then? && (t.last == Stuck || EverStuck(t.before))
  }

  predicate EverCommanded(t: Trace, f: Feature) {
    t.Then? && ((t.last.Commanded? && t.last.f == f) || EverCommanded(t.before, f))
  }

  function LastKnown(h: History): int {
    if h.learned.Some? then h.learned.value else 0
  }

  predicate JustCommanded(t: Trace, f: Feature) {
    t.Then? && t.last.Commanded? && t.last.f == f
  }

  /**
   * What may happen next: the camera is only told to use an option of a value the ground station asked for, it
   * confirms or refuses only what it was just told, a service pass takes up only what was asked for, the publisher
   * sends only what the camera last reported and only on a new occasion, processing dies only of a type nobody can
   * serve, and a rejection is acknowledged only as it stands recorded.
   */
  predicate Justified(t: Trace, e: Event) {
    match e
    case Commanded(f, v, code) => v in Recall(t, f).wanted && Enumerate(f, v) == Some(code)
    case Refused(f) => JustCommanded(t, f)
    case Echoed(f, v) => JustCommanded(t, f) && t.last.value == v
    case TakenUp(f) => Recall(t, f).unread
    case Missed(f) => Recall(t, f).unread
    case ExtTakenUp(f) => Recall(t, f).extUnread
    case Published(f, v) => 0 <= v == LastKnown(Recall(t, f)) && Recall(t, f).due
    case ExtPublished(f, v) => v == LastKnown(Recall(t, f)) && Recall(t, f).extDue
    case ProcessDied(typ) => Unserved(typ)
    case TurnedDown(answer) => AnswerTo(StandingNote(t)) == Some(answer)
    case _ => true
  }

  predicate Sound(t: Trace) {
    t.Then? ==> Sound(t.before) && Justified(t.before, t.last)
  }

  // ---------- the command handshake ----------

  /**
   * How far the command being served has got: Closing with the result its second acknowledgement must carry, Lost if
   * its processing died (`told` once the error handler has acknowledged a rejection after that), Broken if anything
   * is out of order.
   */
  datatype Phase =
    | Free
    | Waiting(command: int, rpm2: int)
    | Begun(command: int, rpm2: int)
    | Closing(command: int, rpm2: int, result: int)
    | Lost(command: int, rpm2: int, told: bool)
    | Broken

  function NextPhase(p: Phase, e: Event): Phase {
    match e
    case CommandTaken(c, r) => if p == Free then Waiting(c, r) else Broken
    case Handled(result) => if p.Begun? then Closing(p.command, p.rpm2, result) else Broken
    case ProcessDied(_) => if p.Begun? then Lost(p.command, p.rpm2, false) else Broken
    case TurnedDown(_) => if p.Lost? && !p.told then p.(told := true) else Broken
    case Acked(c, r, progress, result) =>
      if progress == 0 && p == Waiting(c, r) && result == MAV_RESULT_ACCEPTED then Begun(c, r)
      else if progress == 100 && p == Closing(c, r, result) then Free
      else Broken
    case _ => p
  }

  function PhaseOf(t: Trace): Phase {
    match t
    case Silence => Free
    case Then(before, e) => NextPhase(PhaseOf(before), e)
  }

  /** An acknowledgement; the result is None while it is due and not yet known. */
  datatype Ack = Ack(command: int, rpm2: int, progress: int, result: Option<int>)

  /** Every acknowledgement handed to the link, by main's tasks or by the error handler. */
  function Acks(t: Trace): seq<Ack> {
    match t
    case Silence => []
    case Then(before, e) =>
      if e.Acked? then Acks(before) + [Ack(e.command, e.rpm2, e.progress, Some(e.result))]
      else if e.TurnedDown? then Acks(before) + [Ack(e.answer.command, e.answer.rpm2, 0, Some(e.answer.result))]
      else Acks(before)
  }

  function WithResult(due: seq<Ack>, result: int): seq<Ack> {
    if due == [] then [] else due[..|due| - 1] + [due[|due| - 1].(result := Some(result))]
  }

  /**
   * The acknowledgements due for the accepted commands, in acceptance order: for each, progress 0 with the result
   * "accepted", then progress 100 with the result its processing ends with.
   */
  function DueAcks(t: Trace): seq<Ack> {
    match t
    case Silence => []
    case Then(before, e) =>
      if e.CommandTaken? then
        DueAcks(before) + [Ack(e.command, e.rpm2, 0, Some(MAV_RESULT_ACCEPTED)), Ack(e.command, e.rpm2, 100, None)]
      else if e.Handled? then WithResult(DueAcks(before), e.result)
      else DueAcks(before)
  }

  function Rejections(t: Trace): seq<Rejection> {
    match t
    case Silence => []
    case Then(before, e) => if e.TurnedDown? then Rejections(before) + [e.answer] else Rejections(before)
  }

  /** What is still owed: nothing, the second acknowledgement, or both of the one command in flight. */
  function Owed(p: Phase): seq<Ack> {
    match p
    case Waiting(c, r) => [Ack(c, r, 0, Some(MAV_RESULT_ACCEPTED)), Ack(c, r, 100, None)]
    case Begun(c, r) => [Ack(c, r, 100, None)]
    case Closing(c, r, result) => [Ack(c, r, 100, Some(result))]
    case Lost(c, r, _) => [Ack(c, r, 100, None)]
    case _ => []
  }

  /** Of the acknowledgements sent, those before any rejection. */
  function Regular(t: Trace): seq<Ack> {
    match t
    case Silence => []
    case Then(before, e) =>
      if e.Acked? then Regular(before) + [Ack(e.command, e.rpm2, e.progress, Some(e.result))] else Regular(before)
  }

  function AcksOf(rejections: seq<Rejection>): seq<Ack> {
    if rejections == [] then []
    else
      var (n, last) := (|rejections| - 1, rejections[|rejections| - 1]);
      AcksOf(rejections[..n]) + [Ack(last.command, last.rpm2, 0, Some(last.result))]
  }

  lemma ResultFilledIn(due: seq<Ack>, a: Ack, result: int)
    ensures WithResult(due + [a], result) == due + [a.(result := Some(result))]
  {
  }

  lemma OwedOn(t: Trace, e: Event)
    requires PhaseOf(Then(t, e)) != Broken && Regular(t) + Owed(PhaseOf(t)) == DueAcks(t)
    ensures Regular(Then(t, e)) + Owed(PhaseOf(Then(t, e))) == DueAcks(Then(t, e))
  {
    if e.Handled? {
      ResultFilledIn(Regular(t), Owed(PhaseOf(t))[0], e.result);
    }
  }

  lemma {:induction false} RegularExact(t: Trace)
    requires PhaseOf(t) != Broken
    ensures Regular(t) + Owed(PhaseOf(t)) == DueAcks(t)
  {
    if t.Then? {
      RegularExact(t.before);
      OwedOn(t.before, t.last);
    }
  }

  /**
   * In an unbroken handshake the acknowledgements sent are the regular ones and then at most one rejection, and the
   * regular ones together with what is owed are exactly what is due.
   */
  lemma {:induction false} HandshakeExact(t: Trace)
    requires PhaseOf(t) != Broken
    ensures var p := PhaseOf(t);
            && Acks(t) == Regular(t) + AcksOf(Rejections(t))
            && Regular(t) + Owed(p) == DueAcks(t)
            && |Rejections(t)| == if p.Lost? && p.told then 1 else 0
  {
    RegularExact(t);
    if t.Then? {
      HandshakeExact(t.before);
      if t.last.TurnedDown? {
        assert Rejections(t)[..|Rejections(t.before)|] == Rejections(t.before);
      }
    }
  }
}
