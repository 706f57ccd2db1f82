/**
 * One camera transaction (setSonyCam*Data): read the pending request of a feature, validate it, command the
 * camera, and settle the store according to what the camera program printed. The eight routines of the source
 * are the same text for eight features; here the feature is a parameter.
 */
module Transactions {
  import opened Features
  import opened Enumerators
  import opened TimedWait
  import opened PythonText
  import opened CameraText
  import opened SetPointStores
  import opened MemoryValues

  /** What the camera program prints: the raw text and its shell-style split into tokens. */
  datatype Reply = Reply(text: string, tokens: seq<string>)

  datatype Item = Number(n: int) | Text(s: string)

  predicate LinkError(reply: Reply) {
    Contains(reply.text, "No cameras detected") || Contains(reply.text, "Failed to get")
  }

  function Texts(answers: seq<string>): (items: seq<Item>)
    ensures |items| == |answers|
    ensures forall i | 0 <= i < |items| :: items[i] == Text(answers[i])
  {
    if answers == [] then [] else [Text(answers[0])] + Texts(answers[1..])
  }

  /** The list a set routine returns for a printed reply. */
  function SetAnswers(f: Feature, reply: Reply): seq<Item> {
    if LinkError(reply) then []
    else if Contains(reply.text, "not writable") then [Number(-1), Number(-1), Number(0), Text("CAN_NOT_WRITE")]
    else Texts(Answers(reply.tokens, KeyOf(f)))
  }

  function ItemInt(item: Item): Option<int> {
    match item
    case Number(n) => Some(n)
    case Text(s) => PyInt(s)
  }

  predicate SaysNotWritable(ans: seq<Item>) {
    |ans| == 4 && ans[3].Text? && Contains(ans[3].s, "CAN_NOT_WRITE")
  }

  /** What a list of answers says: the second one is the value the camera now has. */
  datatype CameraAnswer = Refuses | Echo(value: int) | Unusable

  function Classify(ans: seq<Item>): CameraAnswer {
    if SaysNotWritable(ans) then Refuses
    else if |ans| < 2 then Unusable
    else match ItemInt(ans[1])
      case Some(v) => Echo(v)
      case None => Unusable
  }

  function AnswerOf(f: Feature, reply: Reply): CameraAnswer {
    Classify(SetAnswers(f, reply))
  }

  datatype Outcome =
    | NoRequest    // nothing pending
    | Rejected     // the value is not an option of the feature
    | NotWritable  // the camera refuses to change the feature now
    | Confirmed    // the camera echoes the requested value
    | Unanswered   // any other reply: the request stays pending

  /** How the camera's answer decides a request that passed validation. */
  function AnswerOutcome(a: CameraAnswer, req: int): Outcome {
    match a
    case Refuses => NotWritable
    case Echo(v) => if v == req then Confirmed else Unanswered
    case Unusable => Unanswered
  }

  function OutcomeOf(f: Feature, req: int, com: int, a: CameraAnswer): Outcome {
    if req == STATE_INIT || req == com then NoRequest
    else if Enumerate(f, req).None? then Rejected
    else AnswerOutcome(a, req)
  }

  /** A store held by somebody else reads as "no request". */
  function Verdict(s: Store, f: Feature, a: CameraAnswer): Outcome {
    if s.owner != STATE_READY then NoRequest else OutcomeOf(f, At(s.req, f), At(s.com, f), a)
  }

  function SettledStore(s: Store, f: Feature, o: Outcome): Store {
    match o
    case NoRequest => s
    case Rejected => s.(req := s.req[f := ToSlot(At(s.com, f))])
    case NotWritable => s.(req := s.req[f := At(s.com, f)], protect := s.protect + {f})
    case Confirmed =>
      s.(com := s.com[f := At(s.req, f)], req := s.req[f := ToSlot(At(s.req, f))], protect := s.protect - {f})
    case Unanswered => s
  }

  function SettledEntry(e: Entry, requested: int, o: Outcome): Entry {
    if o == Confirmed then Cached(e, requested) else e
  }

  /** The option code sent to the camera, if it is called at all. */
  function CommandOf(f: Feature, requested: int, o: Outcome): Option<int> {
    if o == NoRequest || o == Rejected then None else Enumerate(f, requested)
  }

  /** What the routine returns: True also when the camera gave no usable answer. */
  function Returned(s: Store, e: Entry, f: Feature, o: Outcome): bool {
    match o
    case NoRequest => At(s.req, f) == At(s.com, f)
    case Confirmed => e.owner == STATE_READY
    case _ => true
  }

  class Camera {
    var errorCounts: int

    constructor ()
      ensures errorCounts == 0
    {
      errorCounts := 0;
    }

    /** Run the camera program and read what it prints. */
    method SetSony(f: Feature, reply: Reply) returns (ans: seq<Item>)
      modifies this
      ensures ans == SetAnswers(f, reply)
      ensures errorCounts == old(errorCounts) + if LinkError(reply) then 1 else 0
    {
      if Contains(reply.text, "No cameras detected") || Contains(reply.text, "Failed to get") {
        errorCounts := errorCounts + 1;
        return [];
      }
      if Contains(reply.text, "not writable") {
        return [Number(-1), Number(-1), Number(0), Text("CAN_NOT_WRITE")];
      }
      var answers := ParseAnswers(reply.tokens, KeyOf(f));
      ans := Texts(answers);
    }
  }

  /** The bounded retry loop around a write by the camera side. */
  method WriteBack(store: SetPointStore, f: Feature, value: int, mode: int, timeout2: nat, retries: nat)
    returns (writeSuccess: bool)
    requires store.Valid() && timeout2 > 0 && retries > 0
    requires store.owner == STATE_READY
    modifies store`requested, store`committed, store`owner
    ensures store.Valid() && writeSuccess && store.owner == STATE_READY
    ensures store.Value() == old(store.Value()).(com := Settable(old(store.Value()), f, mode),
                                                  req := old(store.Value()).req[f := ToSlot(value)])
  {
    var timeoutS2: int := timeout2 * retries;
    writeSuccess := false;
    while !writeSuccess && timeoutS2 > 0
      invariant store.Valid() && store.owner == STATE_READY
      invariant !writeSuccess ==> timeoutS2 > 0 && store.Value() == old(store.Value())
      invariant writeSuccess ==>
                  store.Value() == old(store.Value()).(com := Settable(old(store.Value()), f, mode),
                                                       req := old(store.Value()).req[f := ToSlot(value)])
      decreases if writeSuccess then 0 else 1
    {
      FreeStoreGrants(store.Value(), f, Some(value), STATE_CAM_WRITING, mode, timeout2, false);
      var r := store.SetVal(f, Some(value), STATE_CAM_WRITING, mode, timeout2, false, ALONE);
      writeSuccess := r == Done;
      timeoutS2 := timeoutS2 - timeout2;
    }
  }

  /** The unbounded loop that records write protection: with the store free it ends after one pass. */
  method RecordProtection(store: SetPointStore, f: Feature, on: bool)
    requires store.Valid() && store.owner == STATE_READY
    modifies store`writePro, store`owner
    ensures store.Valid()
    ensures store.Value() == old(store.Value()).(protect :=
              if on then old(store.Value()).protect + {f} else old(store.Value()).protect - {f})
  {
    var wpWrite := false;
    while !wpWrite
      invariant store.Valid() && store.owner == STATE_READY
      invariant store.Value() == if !wpWrite then old(store.Value())
                                 else old(store.Value()).(protect :=
                                   if on then old(store.Value()).protect + {f} else old(store.Value()).protect - {f})
      decreases if wpWrite then 0 else 1
    {
      FreeStoreGrants(store.Value(), f, None, STATE_CAM_WRITING, 0, 20, false);
      var r;
      if on {
        r := store.SetWritePro(f, STATE_CAM_WRITING, 20, false, ALONE);
      } else {
        r := store.ClearWritePro(f, STATE_CAM_WRITING, 20, false, ALONE);
      }
      wpWrite := r == Done;
    }
  }

  /** The camera refuses the change: the request is reset and the protect bit set. */
  method SettleNotWritable(f: Feature, store: SetPointStore) returns (writeSuccess: bool)
    requires store.Valid() && store.owner == STATE_READY
    modifies store
    ensures store.Valid() && writeSuccess
    ensures store.Value() == SettledStore(old(store.Value()), f, NotWritable)
  {
    FreeStoreGrants(store.Value(), f, None, STATE_CAM_WRITING, 0, 20, false);
    var r := store.ClearReq(f, STATE_CAM_WRITING, 20, false, ALONE);
    RecordProtection(store, f, true);
    writeSuccess := r == Done;
  }

  /** The camera echoes the request: it is committed, its protect bit cleared and the value cached. */
  method SettleConfirmed(f: Feature, mem: MemoryValue, store: SetPointStore, echoed: int, timeout2: nat, retries2: nat)
    returns (ret: bool)
    requires store.Valid() && timeout2 > 0 && retries2 > 0
    requires store.owner == STATE_READY && echoed == At(store.requested, f)
    modifies store, mem
    ensures store.Valid()
    ensures store.Value() == SettledStore(old(store.Value()), f, Confirmed)
    ensures mem.Value() == Cached(old(mem.Value()), echoed)
    ensures ret <==> old(mem.owner) == STATE_READY
  {
    var _ := WriteBack(store, f, echoed, WRITE_PREV_DATA, timeout2, retries2);
    RecordProtection(store, f, false);
    CachedIsSetValue(mem.Value(), echoed, 100);
    ret := mem.SetValue(echoed, STATE_CAM_WRITING, 100, ALONE);
  }

  /** What follows the camera's answers: the request passed validation and the store is free. */
  method SettleAnswers(f: Feature, mem: MemoryValue, store: SetPointStore, ans: seq<Item>,
                       reqDat: int, timeout2: nat, retries2: nat)
    returns (ret: bool)
    requires store.Valid() && timeout2 > 0 && retries2 > 0
    requires store.owner == STATE_READY && reqDat == At(store.requested, f)
    modifies store, mem
    ensures store.Valid()
    ensures var o := AnswerOutcome(Classify(ans), reqDat);
            && store.Value() == SettledStore(old(store.Value()), f, o)
            && mem.Value() == SettledEntry(old(mem.Value()), reqDat, o)
            && (ret <==> o != Confirmed || old(mem.owner) == STATE_READY)
  {
    ret := true;
    if |ans| == 0 {
      return;
    }
    if |ans| == 4 && SaysNotWritable(ans) {
      ret := SettleNotWritable(f, store);
    } else if |ans| > 1 && ItemInt(ans[1]) == Some(reqDat) {
      ret := SettleConfirmed(f, mem, store, reqDat, timeout2, retries2);
    }
  }

  /** What follows the read: a request is pending and the store is free. */
  method ValidateAndCommand(f: Feature, mem: MemoryValue, store: SetPointStore, cam: Camera, reply: Reply,
                            reqDat: int, prevDat: int, timeout2: nat, retries2: nat)
    returns (ret: bool, commanded: Option<int>)
    requires store.Valid() && timeout2 > 0 && retries2 > 0
    requires store.owner == STATE_READY && reqDat == At(store.requested, f) && prevDat == At(store.committed, f)
    modifies store, mem, cam
    ensures store.Valid()
    ensures commanded == Enumerate(f, reqDat)
    ensures var o := if commanded.None? then Rejected else AnswerOutcome(AnswerOf(f, reply), reqDat);
            && store.Value() == SettledStore(old(store.Value()), f, o)
            && mem.Value() == SettledEntry(old(mem.Value()), reqDat, o)
            && (ret <==> o != Confirmed || old(mem.owner) == STATE_READY)
    ensures cam.errorCounts == old(cam.errorCounts) + if commanded.Some? && LinkError(reply) then 1 else 0
  {
    commanded := Enumerate(f, reqDat);
    if commanded.None? {
      ret := WriteBack(store, f, prevDat, DONT_WRITE_PREV_DATA, timeout2, retries2);
    } else {
      var ans := cam.SetSony(f, reply);
      ret := SettleAnswers(f, mem, store, ans, reqDat, timeout2, retries2);
    }
  }

  method SetSonyCamData(f: Feature, mem: MemoryValue, store: SetPointStore, cam: Camera, reply: Reply,
                        timeout1: nat, timeout2: nat, retries1: nat, retries2: nat)
    returns (ret: bool, commanded: Option<int>)
    requires store.Valid() && timeout1 > 0 && timeout2 > 0 && retries1 > 0 && retries2 > 0
    modifies store, mem, cam
    ensures store.Valid()
    ensures var s, o := old(store.Value()), Verdict(old(store.Value()), f, AnswerOf(f, reply));
            && store.Value() == SettledStore(s, f, o)
            && mem.Value() == SettledEntry(old(mem.Value()), At(s.req, f), o)
            && commanded == CommandOf(f, At(s.req, f), o)
            && ret == Returned(s, old(mem.Value()), f, o)
    ensures cam.errorCounts == old(cam.errorCounts) + if commanded.Some? && LinkError(reply) then 1 else 0
  {
    BudgetPositive(timeout1, retries1);
    AloneWait(store.owner, timeout1 * retries1, timeout1 * retries1);
    var reqDat, prevDat, readSuccess, _, _ := ReadRequest(store, f, timeout1, retries1, ALONE);
    assert store.Value() == old(store.Value());
    if reqDat != STATE_INIT && reqDat != prevDat && readSuccess {
      ret, commanded := ValidateAndCommand(f, mem, store, cam, reply, reqDat, prevDat, timeout2, retries2);
    } else {
      ret, commanded := prevDat == reqDat, None;
    }
  }

  lemma BudgetPositive(t: nat, retries: nat)
    requires t > 0 && retries > 0
    ensures t * retries > 0
  {
  }

  // ---------- what a transaction promises ----------

  /** Each outcome by its effect on the store and the cache; other features are never touched. */
  lemma SettlementContract(s: Store, e: Entry, f: Feature, o: Outcome)
    requires InSlot(At(s.req, f)) && InSlot(At(s.com, f))
    ensures var (req, com, s', e') := (At(s.req, f), At(s.com, f), SettledStore(s, f, o),
        SettledEntry(e, At(s.req, f), o));
            && (At(s'.req, f), At(s'.com, f)) == (match o
                                                  case NoRequest => (req, com)
                                                  case Rejected => (com, com)
                                                  case NotWritable => (com, com)
                                                  case Confirmed => (req, req)
                                                  case Unanswered => (req, com))
            && s'.protect == (match o
                              case NotWritable => s.protect + {f}
                              case Confirmed => s.protect - {f}
                              case _ => s.protect)
            && (o != Confirmed || e.owner != STATE_READY ==> e' == e)
            && (o == Confirmed && e.owner == STATE_READY
                ==> e' == e.(prev := e.signal, signal := req, updateNeeded := true))
            && s'.owner == s.owner && s'.plain == s.plain && s'.ext == s.ext && s'.running == s.running
            && forall g: Feature | g != f :: At(s'.req, g) == At(s.req, g) && At(s'.com, g) == At(s.com, g)
  {
  }

  /** When each outcome happens, and when the camera is called: the cases exclude each other and leave no gap. */
  lemma OutcomeConditions(s: Store, f: Feature, reply: Reply)
    requires s.owner == STATE_READY
    ensures var (req, com, o) := (At(s.req, f), At(s.com, f), Verdict(s, f, AnswerOf(f, reply)));
            var (pending, ans) := (req != STATE_INIT && req != com, SetAnswers(f, reply));
            var echoes := |ans| > 1 && ItemInt(ans[1]) == Some(req);
            && (o == NoRequest <==> !pending)
            && (o == Rejected <==> pending && Enumerate(f, req).None?)
            && (o == NotWritable <==> pending && Enumerate(f, req).Some? && SaysNotWritable(ans))
            && (o == Confirmed <==> pending && Enumerate(f, req).Some? && !SaysNotWritable(ans) && echoes)
            && (o == Unanswered <==> pending && Enumerate(f, req).Some? && !SaysNotWritable(ans) && !echoes)
            && (CommandOf(f, req, o).Some? <==> pending && Enumerate(f, req).Some?)
  {
  }

  /** What each kind of printed text says: no link, a refusal, or the answers the scanner finds in it. */
  lemma TextSays(f: Feature, reply: Reply)
    ensures var answers := Answers(reply.tokens, KeyOf(f));
            AnswerOf(f, reply)
            == if Contains(reply.text, "No cameras detected") || Contains(reply.text, "Failed to get") then Unusable
               else if Contains(reply.text, "not writable") then Refuses
               else if |answers| == 4 && Contains(answers[3], "CAN_NOT_WRITE") then Refuses
               else if |answers| > 1 && PyInt(answers[1]).Some? then Echo(PyInt(answers[1]).value)
               else Unusable
  {
    ContainsSelf("CAN_NOT_WRITE");
  }

  /** A camera that says "not writable" to a pending option: the request is rolled back and the protect bit set. */
  lemma RefusalRollsBack(s: Store, e: Entry, f: Feature, reply: Reply)
    requires s.owner == STATE_READY && At(s.req, f) != At(s.com, f) && Enumerate(f, At(s.req, f)).Some?
    requires !Contains(reply.text, "No cameras detected") && !Contains(reply.text, "Failed to get")
    requires Contains(reply.text, "not writable")
    ensures var o := Verdict(s, f, AnswerOf(f, reply));
            var s' := SettledStore(s, f, o);
            && At(s'.req, f) == At(s'.com, f) == At(s.com, f) && f in s'.protect
            && SettledEntry(e, At(s.req, f), o) == e
  {
    TextSays(f, reply);
    ReservedIsNoOption(f);
  }

  /** A camera that cannot be reached settles nothing, once the request is an option: it stays pending. */
  lemma LinkErrorSettlesNothing(s: Store, e: Entry, f: Feature, reply: Reply)
    requires Enumerate(f, At(s.req, f)).Some?
    requires Contains(reply.text, "No cameras detected") || Contains(reply.text, "Failed to get")
    ensures var o := Verdict(s, f, AnswerOf(f, reply));
            SettledStore(s, f, o) == s && SettledEntry(e, At(s.req, f), o) == e
  {
    TextSays(f, reply);
  }

  /** A pending request is settled by a transaction exactly when it is neither the reserved 99 nor left unanswered. */
  lemma SettlesIff(s: Store, f: Feature, a: CameraAnswer)
    requires s.owner == STATE_READY && InSlot(At(s.com, f)) && InSlot(At(s.req, f))
    requires At(s.req, f) != At(s.com, f)
    ensures var s' := SettledStore(s, f, Verdict(s, f, a));
            At(s'.req, f) == At(s'.com, f)
            <==> At(s.req, f) != STATE_INIT
                 && (Enumerate(f, At(s.req, f)).None? || a == Refuses || a == Echo(At(s.req, f)))
  {
  }

  /** 99 is no option of any feature, yet a request for it is not rolled back: it reads as "nothing requested". */
  lemma ReservedRequestStays(s: Store, f: Feature, a: CameraAnswer)
    requires s.owner == STATE_READY && At(s.req, f) == STATE_INIT
    ensures Enumerate(f, STATE_INIT).None? && SettledStore(s, f, Verdict(s, f, a)) == s
  {
  }

  // ---------- the retry loop of the ISO routine ----------

  /** doAlphaCameraIso: up to `retries` transactions until one returns True, else the USB link is reset. */
  method DoIso(mem: MemoryValue, store: SetPointStore, cam: Camera, replies: seq<Reply>) returns (reset: bool)
    requires store.Valid() && mem.owner == STATE_READY && |replies| > 0
    modifies store, mem, cam
    ensures store.Valid()
    ensures var s, o := old(store.Value()), Verdict(old(store.Value()), Iso, AnswerOf(Iso, replies[0]));
            && store.Value() == SettledStore(s, Iso, o)
            && mem.Value() == SettledEntry(old(mem.Value()), At(s.req, Iso), o)
            && (reset <==> o == NoRequest && At(s.req, Iso) != At(s.com, Iso))
  {
    var retry := 0;
    ghost var s, e := store.Value(), mem.Value();
    ghost var o := Verdict(s, Iso, AnswerOf(Iso, replies[0]));
    reset := true;
    while retry < |replies|
      invariant retry <= |replies| && store.Valid()
      invariant retry == 0 || (o == NoRequest && At(s.req, Iso) != At(s.com, Iso))
      invariant reset && store.Value() == s && mem.Value() == e
    {
      var done, _ := SetSonyCamData(Iso, mem, store, cam, replies[retry], 100, 50, 1, 1);
      NoRequestAnyAnswer(s, Iso, AnswerOf(Iso, replies[0]), AnswerOf(Iso, replies[retry]));
      if done {
        reset := false;
        break;
      }
      retry := retry + 1;
    }
  }

  lemma NoRequestAnyAnswer(s: Store, f: Feature, a: CameraAnswer, b: CameraAnswer)
    ensures Verdict(s, f, a) == NoRequest <==> Verdict(s, f, b) == NoRequest
  {
  }
}
