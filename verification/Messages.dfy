/**
 * Messages from the ground station: their effect on the set-point store, and the one-slot command frame
 * (MAVFrame) that accepts one COMMAND_LONG at a time.
 */
module Messages {
  import opened Features
  import opened TimedWait
  import opened PythonText
  import opened FloatBits
  import opened SetPointStores

  // ---------- parameter tags ----------

  datatype Target = NoTag | Unknown | Tag(f: Feature)

  /** The tags in the order the handlers look for them; a tag matches if it occurs anywhere in the parameter name. */
  const TAGS: seq<(string, Feature)> := [
    ("S_ISO", Iso), ("S_APERTURE", Aperture), ("S_EX_PRO_MODE", ExPro), ("S_FOCUS_AREA", FocusArea),
    ("S_FOCUS_MODE", Focus), ("S_SHUT_SPD", Shutter), ("S_WHITE_BAL", WhiteBal), ("S_STILL_CAP", StillCap)]

  function FirstTag(name: string, i: nat): Target
    requires i <= |TAGS|
    decreases |TAGS| - i
  {
    if i == |TAGS| then Unknown
    else if Contains(name, TAGS[i].0) then Tag(TAGS[i].1)
    else FirstTag(name, i + 1)
  }

  function TargetOf(name: string): Target {
    if name == "" then NoTag else FirstTag(name, 0)
  }

  // ---------- the messages ----------

  datatype Message =
    | BadData(written: bool)  // false: writing the raw data to the console raises
    | ListRequest
    | ExtListRequest
    | ParamSet(target: Target, value: Option<int>, wordTyped: bool)  // None: not convertible to an integer
    | ParamRead(target: Target)
    | ExtRead(target: Target, linkUp: bool)
    | CommandLong(command: int, param1: Option<real>)                // None: some parameter is not a finite number
    | ExtSet                                                         // PARAM_EXT_SET
    | ImageCaptured                                                  // CAMERA_IMAGE_CAPTURED
    | GpsRaw(linkUp: bool)                                           // answered at once, outside any handler
    | Other

  /** A PARAM_SET as it arrives: name, declared type and the 32 bits of the float field. */
  function ParamSetMessage(name: string, typ: int, bits: nat): Message
    requires bits < 0x1_0000_0000
  {
    ParamSet(TargetOf(name), ReceivedValue(typ, bits), typ <= MAV_PARAM_TYPE_INT64)
  }

  function ParamReadMessage(name: string): Message {
    ParamRead(TargetOf(name))
  }

  function ExtReadMessage(name: string, linkUp: bool): Message {
    ExtRead(TargetOf(name), linkUp)
  }

  // ---------- the command frame ----------

  const MAV_RESULT_ACCEPTED := 0
  const MAV_RESULT_TEMPORARILY_REJECTED := 1
  const MAV_RESULT_UNSUPPORTED := 3
  const MAV_RESULT_FAILED := 4
  const ACK_ALL_DATA_COMPLETE := 99
  const GOT_ERROR := 1
  const GOT_BAD := 3
  const MAV_CMD_REQUEST_MESSAGE := 512
  const MAV_CMD_REQUEST_CAMERA_INFORMATION := 521
  const MAV_CMD_DO_SET_RELAY := 181
  const MAV_CMD_PREFLIGHT_STORAGE := 245
  const MAV_CMD_VIDEO_START_CAPTURE := 2500
  const MAV_CMD_VIDEO_STOP_CAPTURE := 2501
  const IMAGE_CAPTURED_TYPE := 6504

  /** Commands that name their own message type and leave the requested message id alone. */
  const OWN_TYPE: set<int> := {
    2504, 522, 527, 525, 2500, 2000, 2001, 2502, 2503, 530, 531, 532, 202, 203, 200, 214, 529, 220, 2003, 2004, 2005,
    2010, 526, 183, 147}

  datatype Frame = Frame(
    rcv: int,          // the command being served
    rpm2: int,         // the message id it asks for
    typ: int,          // what the processing task is to do
    ack: int,
    ackError: int,
    errCmd: int,
    errRpm2: real,
    taskControl: int)

  const NEW_FRAME := Frame(MAV_CMD_REQUEST_MESSAGE, 0, 0, MAV_RESULT_UNSUPPORTED, 0, 0, 0.0, 0)

  /** int(x): truncation toward zero. */
  function IntOf(x: real): int {
    if x >= 0.0 then x.Floor else -(-x).Floor
  }

  function RequestedType(id: int): int {
    if id == 259 then 6500
    else if id == 260 then 6501
    else if id == 261 then 6502
    else if id == 262 then 6503
    else if id == 263 then IMAGE_CAPTURED_TYPE
    else if id == 269 then 6505
    else 0
  }

  function CommandType(command: int, param1: real, before: int): int {
    if command == MAV_CMD_REQUEST_MESSAGE then RequestedType(IntOf(param1))
    else if command == MAV_CMD_REQUEST_CAMERA_INFORMATION then if param1 == 1.0 then command else before
    else if command == MAV_CMD_VIDEO_STOP_CAPTURE then MAV_CMD_VIDEO_START_CAPTURE
    else if command == MAV_CMD_PREFLIGHT_STORAGE || command == 42428 then before
    else command
  }

  predicate KeepsRpm2(command: int) {
    command in OWN_TYPE || command in {MAV_CMD_REQUEST_CAMERA_INFORMATION, MAV_CMD_VIDEO_STOP_CAPTURE,
                                       MAV_CMD_PREFLIGHT_STORAGE, MAV_CMD_DO_SET_RELAY, 42428}
  }

  function CommandRpm2(command: int, param1: real, before: int): int {
    if command == MAV_CMD_REQUEST_MESSAGE then IntOf(param1) else if KeepsRpm2(command) then before else 0
  }

  /** The relay command calls a routine that does not exist: the task dies before the command is accepted. */
  predicate CommandDies(fr: Frame, command: int) {
    fr.ack != MAV_RESULT_ACCEPTED && command == MAV_CMD_DO_SET_RELAY
  }

  function AfterCommand(fr: Frame, command: int, param1: real): Frame {
    if fr.ack == MAV_RESULT_ACCEPTED then
      fr.(ackError := GOT_ERROR, errCmd := command, errRpm2 := param1)
    else
      fr.(rcv := command, rpm2 := CommandRpm2(command, param1, fr.rpm2), typ := CommandType(command, param1, fr.typ),
          ack := if CommandDies(fr, command) then fr.ack else MAV_RESULT_ACCEPTED)
  }

  /** Message types whose processing calls a routine that does not exist. */
  predicate Unserved(typ: int) {
    typ == IMAGE_CAPTURED_TYPE || typ == MAV_CMD_DO_SET_RELAY
  }

  // ---------- recorded rejections ----------

  /** A rejection waiting to be acknowledged; error is 0 when there is none. */
  datatype Note = Note(error: int, command: int, rpm2: real)

  datatype Rejection = Rejection(command: int, rpm2: int, result: int)

  const NO_NOTE := Note(0, 0, 0.0)

  function NoteOf(fr: Frame): Note {
    Note(fr.ackError, fr.errCmd, fr.errRpm2)
  }

  /** The acknowledgement one pass of the error handler's loop sends, if any. */
  function AnswerTo(n: Note): Option<Rejection> {
    if n.error == GOT_ERROR then Some(Rejection(n.command, IntOf(n.rpm2), MAV_RESULT_TEMPORARILY_REJECTED))
    else if n.error == GOT_BAD then Some(Rejection(n.command, IntOf(n.rpm2), MAV_RESULT_FAILED))
    else None
  }

  function Cleared(n: Note): Note {
    if n.error == GOT_ERROR then NO_NOTE else if n.error == GOT_BAD then n.(error := 0) else n
  }

  function WithNote(fr: Frame, n: Note): Frame {
    fr.(ackError := n.error, errCmd := n.command, errRpm2 := n.rpm2)
  }

  /** However often the loop goes round, only its first pass can send anything. */
  lemma ClearedOnce(n: Note)
    ensures AnswerTo(Cleared(n)) == None && Cleared(Cleared(n)) == Cleared(n)
  {
  }

  class MAVFrame {
    var rcvCommand: int
    var rpm2: int
    var typeOfMsg: int
    var ackResult: int
    var ackError: int
    var errRcvCommand: int
    var errRpm2: real
    var taskControl1: int

    ghost function Value(): Frame
      reads this
    {
      Frame(rcvCommand, rpm2, typeOfMsg, ackResult, ackError, errRcvCommand, errRpm2, taskControl1)
    }

    constructor ()
      ensures Value() == NEW_FRAME
    {
      rcvCommand, rpm2, typeOfMsg, ackResult := MAV_CMD_REQUEST_MESSAGE, 0, 0, MAV_RESULT_UNSUPPORTED;
      ackError, errRcvCommand, errRpm2, taskControl1 := 0, 0, 0.0, 0;
    }

    /** The COMMAND_LONG branch; false if the receiving task dies in it. */
    method OnCommandLong(command: int, param1: real) returns (alive: bool)
      modifies this
      ensures Value() == AfterCommand(old(Value()), command, param1)
      ensures alive <==> !CommandDies(old(Value()), command)
    {
      alive := true;
      if ackResult == MAV_RESULT_ACCEPTED {
        ackError, errRcvCommand, errRpm2 := GOT_ERROR, command, param1;
        return;
      }
      rcvCommand := command;
      if command == MAV_CMD_REQUEST_MESSAGE {
        rpm2 := IntOf(param1);
        typeOfMsg := RequestedType(rpm2);
      } else if command == MAV_CMD_REQUEST_CAMERA_INFORMATION {
        if param1 == 1.0 {
          typeOfMsg := command;
        }
      } else if command == MAV_CMD_DO_SET_RELAY {
        typeOfMsg := command;
        return false;
      } else if command == MAV_CMD_VIDEO_STOP_CAPTURE {
        typeOfMsg := MAV_CMD_VIDEO_START_CAPTURE;
      } else if command in OWN_TYPE {
        typeOfMsg := command;
      } else if command != MAV_CMD_PREFLIGHT_STORAGE && command != 42428 {
        rpm2, typeOfMsg := 0, command;
      }
      ackResult := MAV_RESULT_ACCEPTED;
    }

    /** One pass of the error handler's loop while task_control_1 is up. */
    method AnswerError() returns (sent: Option<Rejection>)
      modifies this
      ensures sent == AnswerTo(NoteOf(old(Value())))
      ensures Value() == WithNote(old(Value()), Cleared(NoteOf(old(Value()))))
    {
      sent := None;
      if ackError == GOT_ERROR {
        sent := Some(Rejection(errRcvCommand, IntOf(errRpm2), MAV_RESULT_TEMPORARILY_REJECTED));
        ackError, errRcvCommand, errRpm2 := 0, 0, 0.0;
      } else if ackError == GOT_BAD {
        sent := Some(Rejection(errRcvCommand, IntOf(errRpm2), MAV_RESULT_FAILED));
        ackError := 0;
      }
    }

    method OnBadData()
      modifies this
      ensures Value() == old(Value()).(ackError := GOT_BAD, errCmd := 0, errRpm2 := 0.0)
    {
      ackError, errRcvCommand, errRpm2 := GOT_BAD, 0, 0.0;
    }
  }

  // ---------- what a message does ----------

  /** The store and the frame after a message, and whether the receiving task died of it. */
  datatype Effect = Effect(store: Store, frame: Frame, dies: bool)

  function AfterMessage(s: Store, fr: Frame, m: Message): Effect {
    match m
    case BadData(written) => Effect(s, fr.(ackError := GOT_BAD, errCmd := 0, errRpm2 := 0.0), !written)
    case ListRequest => Effect(s.(plain := AllFeatures()), fr, false)
    case ExtListRequest => Effect(s.(ext := AllFeatures()), fr, false)
    case ParamSet(target, value, wordTyped) =>
      if target.Tag? then
        Effect(PutRequest(s, target.f, value), fr, value.None? || (s.owner == STATE_READY && !wordTyped))
      else Effect(s, fr, value.None?)
    case ParamRead(target) =>
      if target.Tag? then
        Effect(s.(plain := s.plain + {target.f}), fr, s.owner == STATE_READY && At(s.req, target.f) < 0)
      else Effect(s, fr, false)
    case ExtRead(target, linkUp) =>
      if target.Tag? then
        Effect(if s.owner == STATE_READY && linkUp then s.(ext := s.ext + {target.f}) else s, fr, false)
      else Effect(s, fr, target.Unknown?)
    case CommandLong(command, param1) =>
      if param1.None? then Effect(s, fr, true)
      else Effect(s, AfterCommand(fr, command, param1.value), CommandDies(fr, command))
    case ExtSet => Effect(s, fr, true)  // its handler is called with an argument missing
    case ImageCaptured => Effect(s, fr, true)  // its text is printed with a number format
    case GpsRaw(linkUp) => Effect(s, fr, !linkUp)
    case Other => Effect(s, fr, false)
  }

  /** The receiving task reads at most five messages and stops at the one it dies of. */
  const MESSAGES_PER_TASK := 5

  function AfterMessages(s: Store, fr: Frame, msgs: seq<Message>, budget: nat): Effect
    decreases budget, s
  {
    if budget == 0 || msgs == [] then Effect(s, fr, false)
    else
      var e := AfterMessage(s, fr, msgs[0]);
      if e.dies then e else AfterMessages(e.store, e.frame, msgs[1..], budget - 1)
  }

  method HandleParamSet(store: SetPointStore, target: Target, value: Option<int>, wordTyped: bool) returns (alive: bool)
    requires store.Valid()
    modifies store`requested, store`committed, store`owner
    ensures store.Valid()
    ensures store.Value() == AfterMessage(old(store.Value()), NEW_FRAME, ParamSet(target, value, wordTyped)).store
    ensures alive <==> !AfterMessage(old(store.Value()), NEW_FRAME, ParamSet(target, value, wordTyped)).dies
  {
    var r := TimedOut;
    if target.Tag? {
      PutRequestIsSetVal(store.Value(), target.f, value);
      AloneWait(store.owner, 5, 5);
      r := store.SetVal(target.f, value, STATE_MAV_WRITING, DONT_WRITE_PREV_DATA, 5, false, ALONE);
    }
    alive := match r
      case Done => wordTyped
      case TimedOut => value.Some?
      case Raised => false;
  }

  method HandleParamRead(store: SetPointStore, target: Target) returns (alive: bool)
    requires store.Valid()
    modifies store`plainWord, store`owner
    ensures store.Valid()
    ensures store.Value() == AfterMessage(old(store.Value()), NEW_FRAME, ParamRead(target)).store
    ensures alive <==> !AfterMessage(old(store.Value()), NEW_FRAME, ParamRead(target)).dies
  {
    alive := true;
    if target.Tag? {
      store.AskPlain(target.f);
      AloneWait(store.owner, 5, 5);
      var c, _, r, _ := store.GetVal(target.f, STATE_MAV_READING, 5, false, ALONE);
      alive := r == Done ==> 0 <= c;
    }
  }

  method HandleExtRead(store: SetPointStore, target: Target, linkUp: bool) returns (alive: bool)
    requires store.Valid()
    modifies store`extWord, store`owner
    ensures store.Valid()
    ensures store.Value() == AfterMessage(old(store.Value()), NEW_FRAME, ExtRead(target, linkUp)).store
    ensures alive <==> !AfterMessage(old(store.Value()), NEW_FRAME, ExtRead(target, linkUp)).dies
  {
    alive := !target.Unknown?;
    if target.Tag? {
      AloneWait(store.owner, 5, 5);
      var _, _, r, _ := store.GetVal(target.f, STATE_MAV_READING, 5, false, ALONE);
      if r == Done && linkUp {
        store.AskExt(target.f);
      }
    }
  }

  method ProcessMessage(store: SetPointStore, frame: MAVFrame, m: Message) returns (alive: bool)
    requires store.Valid()
    modifies store, frame
    ensures store.Valid()
    ensures Effect(store.Value(), frame.Value(), !alive) == AfterMessage(old(store.Value()), old(frame.Value()), m)
  {
    alive := true;
    match m {
      case BadData(written) =>
        frame.OnBadData();
        alive := written;
      case ListRequest => store.AskAllPlain();
      case ExtListRequest => store.AskAllExt();
      case ParamSet(target, value, wordTyped) => alive := HandleParamSet(store, target, value, wordTyped);
      case ParamRead(target) => alive := HandleParamRead(store, target);
      case ExtRead(target, linkUp) => alive := HandleExtRead(store, target, linkUp);
      case CommandLong(command, param1) =>
        if param1.None? {
          alive := false;
        } else {
          alive := frame.OnCommandLong(command, param1.value);
        }
      case ExtSet =>
        alive := false;
      case ImageCaptured =>
        alive := false;
      case GpsRaw(linkUp) =>
        alive := linkUp;
      case Other =>
    }
  }

  /** process_messages_from_connection: a countdown of five over the messages that arrive in time. */
  method ProcessMessages(store: SetPointStore, frame: MAVFrame, msgs: seq<Message>) returns (alive: bool)
    requires store.Valid()
    modifies store, frame
    ensures store.Valid()
    ensures Effect(store.Value(), frame.Value(), !alive)
            == AfterMessages(old(store.Value()), old(frame.Value()), msgs, MESSAGES_PER_TASK)
  {
    var budget, i := MESSAGES_PER_TASK, 0;
    alive := true;
    while budget >= 1 && i < |msgs|
      invariant 0 <= budget && i <= |msgs| && alive && store.Valid()
      invariant AfterMessages(old(store.Value()), old(frame.Value()), msgs, MESSAGES_PER_TASK)
                == AfterMessages(store.Value(), frame.Value(), msgs[i..], budget)
    {
      assert msgs[i..][0] == msgs[i] && msgs[i..][1..] == msgs[i + 1..];
      alive := ProcessMessage(store, frame, msgs[i]);
      if !alive {
        return;
      }
      budget, i := budget - 1, i + 1;
    }
  }

  // ---------- what the handlers promise ----------

  predicate Accepts(fr: Frame, m: Message) {
    m.CommandLong? && m.param1.Some? && fr.ack != MAV_RESULT_ACCEPTED && m.command != MAV_CMD_DO_SET_RELAY
  }

  /** One slot: while a command is accepted, no message touches it; otherwise exactly an accepted command fills it. */
  lemma OneSlot(s: Store, fr: Frame, m: Message)
    ensures var after := AfterMessage(s, fr, m).frame;
            && (fr.ack == MAV_RESULT_ACCEPTED ==>
                  (after.rcv, after.rpm2, after.typ, after.ack) == (fr.rcv, fr.rpm2, fr.typ, fr.ack))
            && (fr.ack != MAV_RESULT_ACCEPTED ==> (after.ack == MAV_RESULT_ACCEPTED <==> Accepts(fr, m)))
            && (Accepts(fr, m) ==> after.rcv == m.command)
            && after.taskControl == fr.taskControl
  {
  }

  /**
   * Messages never take a request away. A PARAM_REQUEST_READ or list request always leaves its bit set; an ext
   * request leaves its bit exactly when the store was free and the immediate answer went out, or it was set before.
   */
  lemma RequestsAreKept(s: Store, fr: Frame, m: Message, f: Feature)
    ensures var after := AfterMessage(s, fr, m).store;
            && (f in after.plain <==> f in s.plain || m == ListRequest || m == ParamRead(Tag(f)))
            && (f in after.ext <==> f in s.ext || m == ExtListRequest
                                    || (s.owner == STATE_READY && m == ExtRead(Tag(f), true)))
  {
  }

  /** A set-point changes only by a PARAM_SET for it on a free store, and then holds the value's low 32 bits. */
  lemma OnlyParamSetWrites(s: Store, fr: Frame, m: Message, f: Feature)
    ensures var after := AfterMessage(s, fr, m).store;
            && after.com == s.com && after.protect == s.protect && after.running == s.running
            && (m.ParamSet? && m.target == Tag(f) && m.value.Some? && s.owner == STATE_READY
                ==> At(after.req, f) == ToSlot(m.value.value))
            && (!(m.ParamSet? && m.target == Tag(f) && m.value.Some? && s.owner == STATE_READY)
                ==> At(after.req, f) == At(s.req, f))
            && (after.owner != s.owner <==> m.ParamSet? && m.target.Tag? && m.value.None? && s.owner == STATE_READY)
  {
  }

  // ---------- commands nobody can serve ----------

  /** A request for message 263 (camera image captured) fills the free slot with a type nobody can serve. */
  lemma ImageRequestUnserved(s: Store, fr: Frame)
    requires fr.ack != MAV_RESULT_ACCEPTED
    ensures var e := AfterMessage(s, fr, CommandLong(MAV_CMD_REQUEST_MESSAGE, Some(263.0)));
            !e.dies && e.frame.ack == MAV_RESULT_ACCEPTED && Unserved(e.frame.typ)
  {
  }

  /** So does any command that keeps the type, after a relay command that killed its receiver. */
  lemma RelayResidueUnserved(s: Store, fr: Frame, param1: real)
    requires fr.ack != MAV_RESULT_ACCEPTED
    ensures var relay := AfterMessage(s, fr, CommandLong(MAV_CMD_DO_SET_RELAY, Some(param1)));
            var e := AfterMessage(s, relay.frame, CommandLong(MAV_CMD_PREFLIGHT_STORAGE, Some(param1)));
            relay.dies && !e.dies && e.frame.ack == MAV_RESULT_ACCEPTED && Unserved(e.frame.typ)
  {
  }

  /** The camera-information command compares its parameter as it is: 1.5 is not 1, though it truncates to it. */
  lemma FractionIsNotOne(s: Store, fr: Frame)
    requires fr.ack != MAV_RESULT_ACCEPTED
    ensures AfterMessage(s, fr, CommandLong(MAV_CMD_REQUEST_CAMERA_INFORMATION, Some(1.5))).frame.typ == fr.typ
    ensures IntOf(1.5) == 1
  {
  }

  // ---------- the table of commands ----------

  /** Command 512 on a free slot: the id asked for is the parameter truncated toward zero, and ids map to types. */
  lemma MessageRequested(s: Store, fr: Frame, param1: real)
    requires fr.ack != MAV_RESULT_ACCEPTED
    ensures var (e, id) := (AfterMessage(s, fr, CommandLong(512, Some(param1))), IntOf(param1));
            && !e.dies && e.frame.rcv == 512 && e.frame.rpm2 == id && e.frame.ack == 0
            && (param1 >= 0.0 ==> id as real <= param1 < id as real + 1.0)
            && (param1 <= 0.0 ==> id as real - 1.0 < param1 <= id as real)
            && e.frame.typ == if 259 <= id <= 263 then 6500 + (id - 259) else if id == 269 then 6505 else 0
  {
  }

  /**
   * Any other command on a free slot: which type it is processed as, and whether it keeps the id asked for before or
   * clears it.
   */
  lemma CommandAccepted(s: Store, fr: Frame, command: int, param1: real)
    requires fr.ack != MAV_RESULT_ACCEPTED && command != 512 && command != 181
    ensures var e := AfterMessage(s, fr, CommandLong(command, Some(param1)));
            && !e.dies && e.frame.rcv == command && e.frame.ack == 0
            && e.frame.typ == (if command in {245, 42428} || (command == 521 && param1 != 1.0) then fr.typ
                               else if command == 2501 then 2500 else command)
            && e.frame.rpm2 == (if command in {147, 183, 200, 202, 203, 214, 220, 245, 521, 522, 525, 526, 527, 529,
                530,
                                               531, 532, 2000, 2001, 2003, 2004, 2005, 2010, 2500, 2501, 2502, 2503,
                                               2504, 42428}
                                then fr.rpm2 else 0)
  {
  }

  // ---------- the receiving task ----------

  /** Messages in two parts: the second is read with what is left of the budget, unless the task died in the first. */
  lemma {:induction false} MessagesInParts(s: Store, fr: Frame, a: seq<Message>, b: seq<Message>, budget: nat)
    ensures var e := AfterMessages(s, fr, a, budget);
            AfterMessages(s, fr, a + b, budget)
            == if e.dies || |a| >= budget then e else AfterMessages(e.store, e.frame, b, budget - |a|)
    decreases |a|
  {
    if a == [] {
      assert a + b == b;
    } else {
      assert (a + b)[0] == a[0] && (a + b)[1..] == a[1..] + b;
      var e := AfterMessage(s, fr, a[0]);
      if budget > 0 && !e.dies {
        MessagesInParts(e.store, e.frame, a[1..], b, budget - 1);
      }
    }
  }

  /** A receiving task reads five messages and no more; those before one it dies of have had their effect. */
  lemma FiveMessages(s: Store, fr: Frame, a: seq<Message>, b: seq<Message>)
    requires |a| == 5
    ensures AfterMessages(s, fr, a + b, MESSAGES_PER_TASK) == AfterMessages(s, fr, a, MESSAGES_PER_TASK)
    ensures var four := AfterMessages(s, fr, a[..4], 4);
            AfterMessages(s, fr, a, MESSAGES_PER_TASK)
            == if four.dies then four else AfterMessage(four.store, four.frame, a[4])
  {
    MessagesInParts(s, fr, a, b, 5);
    assert a == a[..4] + [a[4]];
    MessagesInParts(s, fr, a[..4], [a[4]], 5);
    BudgetEnough(s, fr, a[..4], 4, 5);
    OneMore(AfterMessages(s, fr, a[..4], 4), a[4]);
  }

  lemma {:induction false} BudgetEnough(s: Store, fr: Frame, msgs: seq<Message>, small: nat, large: nat)
    requires |msgs| <= small && |msgs| <= large
    ensures AfterMessages(s, fr, msgs, small) == AfterMessages(s, fr, msgs, large)
    decreases |msgs|
  {
    if msgs != [] {
      var e := AfterMessage(s, fr, msgs[0]);
      BudgetEnough(e.store, e.frame, msgs[1..], small - 1, large - 1);
    }
  }

  lemma OneMore(e: Effect, m: Message)
    ensures AfterMessages(e.store, e.frame, [m], 1) == AfterMessage(e.store, e.frame, m)
  {
    var after := AfterMessage(e.store, e.frame, m);
    assert AfterMessages(after.store, after.frame, [m][1..], 0) == Effect(after.store, after.frame, false);
  }

  /** What the receiving task dies of, besides values that are no integers and names that select nothing. */
  lemma Deadly(s: Store, fr: Frame, m: Message)
    ensures AfterMessage(s, fr, m).dies
            <==> match m
                 case BadData(written) => !written
                 case ListRequest => false
                 case ExtListRequest => false
                 case ParamSet(target, value, wordTyped) =>
                   value.None? || (target.Tag? && s.owner == STATE_READY && !wordTyped)
                 case ParamRead(target) => target.Tag? && s.owner == STATE_READY && At(s.req, target.f) < 0
                 case ExtRead(target, _) => target.Unknown?
                 case CommandLong(command, param1) =>
                   param1.None? || (command == 181 && fr.ack != MAV_RESULT_ACCEPTED)
                 case GpsRaw(linkUp) => !linkUp
                 case _ => m.ExtSet? || m.ImageCaptured?
  {
  }

  /** The acknowledgements of recorded rejections: 1 (temporarily rejected) for a command, 4 (failed) for bad data. */
  lemma RejectionResults(command: int, rpm2: real)
    ensures AnswerTo(Note(1, command, rpm2)) == Some(Rejection(command, IntOf(rpm2), 1))
    ensures AnswerTo(Note(3, command, rpm2)) == Some(Rejection(command, IntOf(rpm2), 4))
    ensures forall error | error != 1 && error != 3 :: AnswerTo(Note(error, command, rpm2)) == None
    ensures Cleared(Note(1, command, rpm2)) == Note(0, 0, 0.0)
    ensures Cleared(Note(3, command, rpm2)) == Note(0, command, rpm2)
  {
  }
}
