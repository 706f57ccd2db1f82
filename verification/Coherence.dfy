/** What every task keeps: the state of each feature agrees with what has happened to it. */
module Coherence {
  import opened Features
  import opened SetPointStores
  import opened MemoryValues
  import opened Transactions
  import opened ServicePasses
  import opened Messages
  import opened Traces
  import opened Worlds

  /** One feature's share of the world. */
  datatype Knob = Knob(req: int, com: int, guarded: bool, plain: bool, ext: bool, entry: Entry)

  function KnobOf(w: World, f: Feature): Knob {
    Knob(At(w.store.req, f), At(w.store.com, f), f in w.store.protect, f in w.store.plain, f in w.store.ext,
        EntryOf(w.cache, f))
  }

  /** The committed set-point is the last value the camera echoed, or still 99. */
  predicate CommittedSound(k: Knob, h: History) {
    && InSlot(k.req) && InSlot(k.com)
    && (k.req == STATE_INIT || k.req in h.wanted)
    && match h.echo
       case Some(v) => k.com == v && v in h.wanted
       case None => k.com == STATE_INIT
  }

  /**
   * With no announcement due, the cached value is the one last published, or a first read failed and it is a silent
   * 0.
   */
  predicate PublishedCoherent(k: Knob, h: History) {
    && k.entry.owner == STATE_READY
    && k.entry.signal == LastKnown(h)
    && (!k.entry.updateNeeded ==> h.published == Some(k.entry.signal) || (h.published.None? && h.learned.None?))
  }

  /** No request is lost: while it is open, its bit or its flag is up. No bit and no flag is up for nothing. */
  predicate RequestsHeld(k: Knob, h: History) {
    && (k.plain <==> h.unread) && (k.ext <==> h.extUnread)
    && (k.entry.updateNeeded <==> h.due) && (k.entry.ackSend <==> h.extDue)
    && (h.plainOpen ==> h.unread || h.due)
    && (h.extOpen ==> h.extUnread || h.extDue)
  }

  predicate Agrees(k: Knob, h: History) {
    CommittedSound(k, h) && PublishedCoherent(k, h) && RequestsHeld(k, h) && (k.guarded <==> h.refused)
  }

  ghost predicate FeaturesGood(w: World) {
    forall f: Feature :: Agrees(KnobOf(w, f), Recall(w.trace, f))
  }

  /** The store is free unless a value that is no integer left it held; before start-up it is not yet in use. */
  predicate OwnerFits(w: World) {
    w.store.owner == (if EverStuck(w.trace) then STATE_MAV_WRITING else STATE_READY)
    || (w.store.owner == STATE_INIT && !EverStuck(w.trace))
  }

  /** The frame holds the rejection that stands recorded. */
  predicate NoteFits(w: World) {
    NoteOf(w.frame) == StandingNote(w.trace)
  }

  ghost predicate Good(w: World) {
    FeaturesGood(w) && OwnerFits(w) && Sound(w.trace) && NoteFits(w)
  }

  /** Nothing about feature f has changed. */
  predicate Untouched(w: World, w': World, f: Feature) {
    KnobOf(w', f) == KnobOf(w, f) && Recall(w'.trace, f) == Recall(w.trace, f)
  }

  // ---------- receiving ----------

  /** The history after a message that asks for the feature, asks for it with ext, or wants a value for it. */
  function AfterAsking(h: History, plain: bool, ext: bool, wish: Option<int>): History {
    h.(plainOpen := h.plainOpen || plain, unread := h.unread || plain, extOpen := h.extOpen || ext,
       extUnread := h.extUnread || ext, wanted := if wish.Some? then h.wanted + {wish.value} else h.wanted)
  }

  function WishOf(s: Store, m: Message, f: Feature): Option<int> {
    if m.ParamSet? && m.target == Tag(f) && m.value.Some? && s.owner == STATE_READY then Some(ToSlot(m.value.value))
    else None
  }

  /** An event the receiver logs. */
  predicate Incoming(e: Event) {
    e.Asked? || e.AskedAll? || e.ExtAsked? || e.ExtAskedAll? || e.Wanted? || e.Stuck? || e.CommandTaken? || e.Noted?
  }

  predicate AsksPlain(e: Option<Event>, f: Feature) {
    e == Some(Asked(f)) || e == Some(AskedAll)
  }

  predicate AsksExt(e: Option<Event>, f: Feature) {
    e == Some(ExtAsked(f)) || e == Some(ExtAskedAll)
  }

  lemma EventOfMessage(s: Store, fr: Frame, m: Message, f: Feature)
    ensures var (e, wish) := (EventOf(s, fr, m), WishOf(s, m, f));
            && (e.Some? ==> Incoming(e.value))
            && (AsksPlain(e, f) <==> m == ListRequest || m == ParamRead(Tag(f)))
            && (AsksExt(e, f) <==> m == ExtListRequest || (s.owner == STATE_READY && m == ExtRead(Tag(f), true)))
            && (e.Some? && e.value.Wanted? && e.value.f == f <==> wish.Some?)
            && (wish.Some? ==> e.value.value == wish.value)
  {
  }

  lemma RememberIncoming(h: History, e: Event, f: Feature)
    requires Incoming(e)
    ensures Remember(h, e, f)
            == AfterAsking(h, AsksPlain(Some(e), f), AsksExt(Some(e), f),
                if e.Wanted? && e.f == f then Some(e.value) else None)
  {
  }

  lemma HistoryOfMessage(s: Store, fr: Frame, m: Message, t: Trace, f: Feature)
    ensures Recall(Log(t, EventOf(s, fr, m)), f)
            == AfterAsking(Recall(t, f), m == ListRequest || m == ParamRead(Tag(f)),
                m == ExtListRequest || (s.owner == STATE_READY && m == ExtRead(Tag(f), true)), WishOf(s, m, f))
  {
    EventOfMessage(s, fr, m, f);
    var e := EventOf(s, fr, m);
    if e.Some? {
      RememberIncoming(Recall(t, f), e.value, f);
    }
  }

  lemma DeliverKeeps(w: World, m: Message, f: Feature)
    requires Agrees(KnobOf(w, f), Recall(w.trace, f))
    ensures Agrees(KnobOf(Deliver(w, m), f), Recall(Deliver(w, m).trace, f))
  {
    RequestsAreKept(w.store, w.frame, m, f);
    OnlyParamSetWrites(w.store, w.frame, m, f);
    HistoryOfMessage(w.store, w.frame, m, w.trace, f);
    MessageAgrees(KnobOf(w, f), Recall(w.trace, f), KnobOf(Deliver(w, m), f),
        m == ListRequest || m == ParamRead(Tag(f)),
        m == ExtListRequest || (w.store.owner == STATE_READY && m == ExtRead(Tag(f), true)), WishOf(w.store, m, f));
  }

  /** Requests and wishes only add up: whatever a message adds to the history it adds to the store. */
  lemma MessageAgrees(k: Knob, h: History, k': Knob, plain: bool, ext: bool, wish: Option<int>)
    requires Agrees(k, h) && (wish.Some? ==> InSlot(wish.value))
    requires k' == k.(req := if wish.Some? then wish.value else k.req, plain := k.plain || plain, ext := k.ext || ext)
    ensures Agrees(k', AfterAsking(h, plain, ext, wish))
  {
  }

  lemma DeliverGood(w: World, m: Message)
    requires Good(w)
    ensures Good(Deliver(w, m))
  {
    forall f: Feature
      ensures Agrees(KnobOf(Deliver(w, m), f), Recall(Deliver(w, m).trace, f))
    {
      DeliverKeeps(w, m, f);
    }
  }

  lemma {:induction false} ReceivingGood(w: World, msgs: seq<Message>, budget: nat)
    requires Good(w)
    ensures Good(Receiving(w, msgs, budget).0)
    ensures Receiving(w, msgs, budget).0.store.running == w.store.running
    decreases budget
  {
    if budget > 0 && msgs != [] {
      DeliverGood(w, msgs[0]);
      ReceivingGood(Deliver(w, msgs[0]), msgs[1..], budget - 1);
    }
  }

  // ---------- commanding the camera ----------

  /** What an outcome needs: only a request that was made and is an option reaches the camera. */
  predicate Possible(k: Knob, h: History, o: Outcome, code: Option<int>) {
    && (code.Some? <==> o != NoRequest && o != Rejected)
    && (code.Some? ==> k.req in h.wanted)
  }

  lemma HistoryOfOutcome(t: Trace, f: Feature, requested: int, o: Outcome, code: Option<int>, g: Feature)
    requires InSlot(requested)
    requires code.Some? <==> o != NoRequest && o != Rejected
    ensures var h := Recall(t, g);
            Recall(LogOutcome(t, f, requested, o, code), g)
            == if g != f then h
               else match o
                    case NotWritable => h.(refused := true)
                    case Confirmed =>
                      h.(echo := Some(requested), refused := false, learned := Some(requested), due := true)
                    case _ => h
  {
    if code.Some? {
      var told := Then(t, Commanded(f, requested, code.value));
      assert Recall(told, g) == Recall(t, g);
      var echoed := Then(told, Echoed(f, requested));
      assert Recall(echoed, g) == Remember(Recall(told, g), Echoed(f, requested), g);
    }
  }

  lemma SettleElsewhere(w: World, f: Feature, o: Outcome, code: Option<int>, g: Feature)
    requires g != f && InSlot(At(w.store.req, f))
    requires code.Some? <==> o != NoRequest && o != Rejected
    ensures Untouched(w, Settle(w, f, o, code), g)
  {
    HistoryOfOutcome(w.trace, f, At(w.store.req, f), o, code, g);
  }

  lemma SettleKeeps(w: World, f: Feature, o: Outcome, code: Option<int>)
    requires Agrees(KnobOf(w, f), Recall(w.trace, f)) && Possible(KnobOf(w, f), Recall(w.trace, f), o, code)
    ensures Agrees(KnobOf(Settle(w, f, o, code), f), Recall(Settle(w, f, o, code).trace, f))
  {
    SettlementContract(w.store, EntryOf(w.cache, f), f, o);
    HistoryOfOutcome(w.trace, f, At(w.store.req, f), o, code, f);
  }

  lemma OutcomeSound(t: Trace, f: Feature, requested: int, o: Outcome, code: Option<int>)
    requires Sound(t) && (code.Some? ==> Justified(t, Commanded(f, requested, code.value)))
    ensures Sound(LogOutcome(t, f, requested, o, code))
    ensures EverStuck(LogOutcome(t, f, requested, o, code)) == EverStuck(t)
    ensures StandingNote(LogOutcome(t, f, requested, o, code)) == StandingNote(t)
  {
    if code.Some? {
      var told := Then(t, Commanded(f, requested, code.value));
      assert Sound(told) && EverStuck(told) == EverStuck(t) && StandingNote(told) == StandingNote(t);
      var echoed := Then(told, Echoed(f, requested));
      assert Sound(echoed) && EverStuck(echoed) == EverStuck(t) && StandingNote(echoed) == StandingNote(t);
    }
  }

  lemma TransactPossible(w: World, f: Feature, a: CameraAnswer)
    requires CommittedSound(KnobOf(w, f), Recall(w.trace, f))
    ensures var o := Verdict(w.store, f, a);
            var code := CommandOf(f, At(w.store.req, f), o);
            && Possible(KnobOf(w, f), Recall(w.trace, f), o, code)
            && (code.Some? ==> Justified(w.trace, Commanded(f, At(w.store.req, f), code.value)))
  {
  }

  lemma SettleGood(w: World, f: Feature, o: Outcome, code: Option<int>)
    requires Good(w) && Possible(KnobOf(w, f), Recall(w.trace, f), o, code)
    requires code.Some? ==> Justified(w.trace, Commanded(f, At(w.store.req, f), code.value))
    ensures Good(Settle(w, f, o, code))
  {
    assert Agrees(KnobOf(w, f), Recall(w.trace, f));
    var w' := Settle(w, f, o, code);
    forall g: Feature
      ensures Agrees(KnobOf(w', g), Recall(w'.trace, g))
    {
      assert Agrees(KnobOf(w, g), Recall(w.trace, g));
      if g == f {
        SettleKeeps(w, f, o, code);
      } else {
        SettleElsewhere(w, f, o, code, g);
      }
    }
    OutcomeSound(w.trace, f, At(w.store.req, f), o, code);
  }

  lemma TransactGood(w: World, f: Feature, a: CameraAnswer)
    requires Good(w)
    ensures Good(Transact(w, f, a))
  {
    var o := Verdict(w.store, f, a);
    assert Agrees(KnobOf(w, f), Recall(w.trace, f));
    TransactPossible(w, f, a);
    SettleGood(w, f, o, CommandOf(f, At(w.store.req, f), o));
  }

  lemma PollGood(w: World, f: Feature, polls: Readings)
    requires Good(w)
    ensures Good(Poll(w, f, polls))
  {
    forall g: Feature
      ensures Agrees(KnobOf(Poll(w, f, polls), g), Recall(Poll(w, f, polls).trace, g))
    {
      assert Agrees(KnobOf(w, g), Recall(w.trace, g));
      PollKeeps(w, f, polls, g);
    }
    assert Sound(Poll(w, f, polls).trace) && NoteFits(Poll(w, f, polls));
  }

  lemma PollKeeps(w: World, f: Feature, polls: Readings, g: Feature)
    requires Agrees(KnobOf(w, g), Recall(w.trace, g))
    ensures Agrees(KnobOf(Poll(w, f, polls), g), Recall(Poll(w, f, polls).trace, g))
  {
  }

  lemma {:induction false} TransactAllGood(w: World, fs: seq<Feature>, input: Input)
    requires Good(w)
    ensures Good(TransactAll(w, fs, input))
    decreases |fs|
  {
    if fs != [] {
      TransactGood(w, fs[0], Answer(input, fs[0]));
      TransactAllGood(Transact(w, fs[0], Answer(input, fs[0])), fs[1..], input);
    }
  }

  lemma {:induction false} PollAllGood(w: World, fs: seq<Feature>, polls: Readings)
    requires Good(w)
    ensures Good(PollAll(w, fs, polls))
    decreases |fs|
  {
    if fs != [] {
      PollGood(w, fs[0], polls);
      PollAllGood(Poll(w, fs[0], polls), fs[1..], polls);
    }
  }

  lemma RunningGood(w: World, code: int)
    requires Good(w)
    ensures Good(WithRunning(w, code))
  {
    forall f: Feature
      ensures Agrees(KnobOf(WithRunning(w, code), f), Recall(w.trace, f))
    {
      assert KnobOf(WithRunning(w, code), f) == KnobOf(w, f);
    }
  }

  lemma CameraGood(w: World, g: Group, input: Input)
    requires Good(w)
    ensures Good(CameraTurn(w, g, input))
    ensures CameraTurn(w, g, input).store.running == FUNC_IDLE
  {
    var w1 := WithRunning(w, RunningCode(g));
    RunningGood(w, RunningCode(g));
    TransactAllGood(w1, Members(g), input);
    var w2 := TransactAll(w1, Members(g), input);
    PollAllGood(w2, Members(g), input.polls);
    RunningGood(PollAll(w2, Members(g), input.polls), FUNC_IDLE);
  }

  // ---------- serving requests ----------

  function AfterRead(h: History, reading: Option<int>): History {
    if reading.Some? then h.(learned := Some(ToSlot(reading.value)), due := true, unread := false) else h.(due := true)
  }

  lemma ReadLogged(t: Trace, f: Feature, asked: set<Feature>, readings: Readings, g: Feature)
    ensures Recall(LogRead(t, f, asked, readings), g)
            == if g == f && f in asked then AfterRead(Recall(t, f), Reading(readings, f)) else Recall(t, g)
  {
    if f in asked && f in readings {
      var (h, v) := (Recall(t, g), ToSlot(readings[f]));
      var learned := Then(t, Learned(f, v));
      assert Recall(learned, g) == if g == f then h.(learned := Some(v), due := true) else h;
      var taken := Then(learned, TakenUp(f));
      assert Recall(taken, g) == if g == f then Recall(learned, g).(unread := false) else Recall(learned, g);
    }
  }

  lemma ReadSound(t: Trace, f: Feature, asked: set<Feature>, readings: Readings)
    requires Sound(t) && (f in asked ==> Recall(t, f).unread)
    ensures var t' := LogRead(t, f, asked, readings);
            Sound(t') && EverStuck(t') == EverStuck(t) && StandingNote(t') == StandingNote(t)
  {
    if f in asked && f in readings {
      var learned := Then(t, Learned(f, ToSlot(readings[f])));
      assert Sound(learned) && EverStuck(learned) == EverStuck(t) && StandingNote(learned) == StandingNote(t);
      assert Recall(learned, f).unread;
    }
  }

  lemma {:induction false} ReadsLogged(t: Trace, n: nat, asked: set<Feature>, readings: Readings, f: Feature)
    requires n <= |SERVICE_ORDER|
    ensures Recall(LogReads(t, n, asked, readings), f)
            == if Position(f) < n && f in asked then AfterRead(Recall(t, f), Reading(readings, f)) else Recall(t, f)
  {
    if n > 0 {
      ReadsLogged(t, n - 1, asked, readings, f);
      PositionUnique(n - 1);
      ReadLogged(LogReads(t, n - 1, asked, readings), SERVICE_ORDER[n - 1], asked, readings, f);
    }
  }

  lemma {:induction false} ExtReadsLogged(t: Trace, n: nat, asked: set<Feature>, f: Feature)
    requires n <= |SERVICE_ORDER|
    ensures Recall(LogExtReads(t, n, asked), f)
            == (var h := Recall(t, f);
                if Position(f) >= n || f !in asked then h else h.(extUnread := false, due := true, extDue := true))
  {
    if n > 0 {
      ExtReadsLogged(t, n - 1, asked, f);
      PositionUnique(n - 1);
    }
  }

  lemma PassLogged(t: Trace, plain: set<Feature>, ext: set<Feature>, readings: Readings, f: Feature)
    ensures var h := Recall(t, f);
            Recall(LogPass(t, plain, ext, readings), f)
            == h.(learned := if f in plain && f in readings then Some(ToSlot(readings[f])) else h.learned,
                     unread := h.unread && !(f in plain && f in readings),
                     extUnread := h.extUnread && f !in ext,
                     due := h.due || f in plain || f in ext,
                     extDue := h.extDue || f in ext)
  {
    ReadsLogged(t, |SERVICE_ORDER|, plain, readings, f);
    ExtReadsLogged(LogReads(t, |SERVICE_ORDER|, plain, readings), |SERVICE_ORDER|, ext, f);
  }

  lemma {:induction false} ReadsSound(t: Trace, n: nat, asked: set<Feature>, readings: Readings)
    requires n <= |SERVICE_ORDER| && Sound(t) && forall f | f in asked :: Recall(t, f).unread
    ensures var t' := LogReads(t, n, asked, readings);
            Sound(t') && EverStuck(t') == EverStuck(t) && StandingNote(t') == StandingNote(t)
  {
    if n > 0 {
      var f := SERVICE_ORDER[n - 1];
      ReadsSound(t, n - 1, asked, readings);
      ReadsLogged(t, n - 1, asked, readings, f);
      PositionUnique(n - 1);
      ReadSound(LogReads(t, n - 1, asked, readings), f, asked, readings);
    }
  }

  lemma {:induction false} ExtReadsSound(t: Trace, n: nat, asked: set<Feature>)
    requires n <= |SERVICE_ORDER| && Sound(t) && forall f | f in asked :: Recall(t, f).extUnread
    ensures var t' := LogExtReads(t, n, asked);
            Sound(t') && EverStuck(t') == EverStuck(t) && StandingNote(t') == StandingNote(t)
  {
    if n > 0 {
      ExtReadsSound(t, n - 1, asked);
      ExtReadsLogged(t, n - 1, asked, SERVICE_ORDER[n - 1]);
      PositionUnique(n - 1);
    }
  }

  /** A service pass takes up exactly what was asked for. */
  lemma PassSound(w: World, readings: Readings)
    requires Good(w)
    ensures var t' := LogPass(w.trace, w.store.plain, w.store.ext, readings);
            Sound(t') && EverStuck(t') == EverStuck(w.trace) && StandingNote(t') == StandingNote(w.trace)
  {
    var t1 := LogReads(w.trace, |SERVICE_ORDER|, w.store.plain, readings);
    forall f: Feature
      ensures Agrees(KnobOf(w, f), Recall(w.trace, f)) && Recall(t1, f).extUnread == Recall(w.trace, f).extUnread
    {
      ReadsLogged(w.trace, |SERVICE_ORDER|, w.store.plain, readings, f);
    }
    ReadsSound(w.trace, |SERVICE_ORDER|, w.store.plain, readings);
    ExtReadsSound(t1, |SERVICE_ORDER|, w.store.ext);
  }

  lemma ServiceKeeps(w: World, readings: Readings, f: Feature)
    requires Agrees(KnobOf(w, f), Recall(w.trace, f))
    ensures Agrees(KnobOf(ServiceTurn(w, readings), f), Recall(ServiceTurn(w, readings).trace, f))
  {
    PassExact(Served(w.store.plain, w.store.ext, w.cache), readings, f);
    PassLogged(w.trace, w.store.plain, w.store.ext, readings, f);
  }

  lemma ServiceGood(w: World, readings: Readings)
    requires Good(w)
    ensures Good(ServiceTurn(w, readings))
  {
    forall f: Feature
      ensures Agrees(KnobOf(ServiceTurn(w, readings), f), Recall(ServiceTurn(w, readings).trace, f))
    {
      ServiceKeeps(w, readings, f);
    }
    PassSound(w, readings);
  }

  // ---------- publishing ----------

  lemma PublishElsewhere(w: World, f: Feature, linkUp: bool, g: Feature)
    requires g != f
    ensures Untouched(w, Publish(w, f, linkUp), g)
  {
  }

  lemma PublishKeeps(w: World, f: Feature, linkUp: bool)
    requires Agrees(KnobOf(w, f), Recall(w.trace, f))
    ensures Agrees(KnobOf(Publish(w, f, linkUp), f), Recall(Publish(w, f, linkUp).trace, f))
    ensures Sound(w.trace) ==> Sound(Publish(w, f, linkUp).trace)
  {
  }

  lemma PublishGood(w: World, f: Feature, linkUp: bool)
    requires Good(w)
    ensures Good(Publish(w, f, linkUp))
  {
    var w' := Publish(w, f, linkUp);
    assert Agrees(KnobOf(w, f), Recall(w.trace, f));
    PublishKeeps(w, f, linkUp);
    forall g: Feature
      ensures Agrees(KnobOf(w', g), Recall(w'.trace, g))
    {
      assert Agrees(KnobOf(w, g), Recall(w.trace, g));
      if g != f {
        PublishElsewhere(w, f, linkUp, g);
      }
    }
  }

  lemma PublishExtElsewhere(w: World, f: Feature, linkUp: bool, g: Feature)
    requires g != f
    ensures Untouched(w, PublishExt(w, f, linkUp), g)
  {
  }

  lemma PublishExtKeeps(w: World, f: Feature, linkUp: bool)
    requires Agrees(KnobOf(w, f), Recall(w.trace, f))
    ensures Agrees(KnobOf(PublishExt(w, f, linkUp), f), Recall(PublishExt(w, f, linkUp).trace, f))
    ensures Sound(w.trace) ==> Sound(PublishExt(w, f, linkUp).trace)
  {
  }

  lemma PublishExtGood(w: World, f: Feature, linkUp: bool)
    requires Good(w)
    ensures Good(PublishExt(w, f, linkUp))
  {
    var w' := PublishExt(w, f, linkUp);
    assert Agrees(KnobOf(w, f), Recall(w.trace, f));
    PublishExtKeeps(w, f, linkUp);
    forall g: Feature
      ensures Agrees(KnobOf(w', g), Recall(w'.trace, g))
    {
      assert Agrees(KnobOf(w, g), Recall(w.trace, g));
      if g != f {
        PublishExtElsewhere(w, f, linkUp, g);
      }
    }
  }

  lemma {:induction false} PublishAllGood(w: World, fs: seq<Feature>, up: set<Feature>)
    requires Good(w)
    ensures Good(PublishAll(w, fs, up).0)
    decreases |fs|
  {
    if fs != [] {
      PublishGood(w, fs[0], fs[0] in up);
      PublishAllGood(Publish(w, fs[0], fs[0] in up), fs[1..], up);
    }
  }

  lemma {:induction false} PublishExtAllGood(w: World, fs: seq<Feature>, up: set<Feature>)
    requires Good(w)
    ensures Good(PublishExtAll(w, fs, up))
    decreases |fs|
  {
    if fs != [] {
      PublishExtGood(w, fs[0], fs[0] in up);
      PublishExtAllGood(PublishExt(w, fs[0], fs[0] in up), fs[1..], up);
    }
  }

  lemma {:induction false} PollAllEntry(w: World, fs: seq<Feature>, polls: Readings, f: Feature)
    requires forall i, j | 0 <= i < j < |fs| :: fs[i] != fs[j]
    ensures EntryOf(PollAll(w, fs, polls).cache, f)
            == if f in fs && f in polls then Cached(EntryOf(w.cache, f), polls[f]) else EntryOf(w.cache, f)
    decreases |fs|
  {
    if fs != [] {
      PollAllEntry(Poll(w, fs[0], polls), fs[1..], polls, f);
    }
  }

  lemma {:induction false} PollAllStore(w: World, fs: seq<Feature>, polls: Readings)
    ensures PollAll(w, fs, polls).store == w.store
    decreases |fs|
  {
    if fs != [] {
      PollAllStore(Poll(w, fs[0], polls), fs[1..], polls);
    }
  }

  lemma {:induction false} PublishAllStore(w: World, fs: seq<Feature>, up: set<Feature>)
    ensures PublishAll(w, fs, up).0.store == w.store
    decreases |fs|
  {
    if fs != [] {
      PublishAllStore(Publish(w, fs[0], fs[0] in up), fs[1..], up);
    }
  }

  lemma {:induction false} PublishExtAllStore(w: World, fs: seq<Feature>, up: set<Feature>)
    ensures PublishExtAll(w, fs, up).store == w.store
    decreases |fs|
  {
    if fs != [] {
      PublishExtAllStore(PublishExt(w, fs[0], fs[0] in up), fs[1..], up);
    }
  }

  // ---------- every task ----------

  lemma LogElsewhere(w: World, e: Event)
    requires Good(w) && (e.Acked? || e.Handled? || (e.ProcessDied? && Unserved(e.typ)))
    ensures Good(w.(trace := Then(w.trace, e)))
  {
    forall f: Feature
      ensures Agrees(KnobOf(w.(trace := Then(w.trace, e)), f), Recall(Then(w.trace, e), f))
    {
      assert KnobOf(w.(trace := Then(w.trace, e)), f) == KnobOf(w, f);
    }
  }

  lemma FrameElsewhere(w: World, fr: Frame)
    requires Good(w) && NoteOf(fr) == NoteOf(w.frame)
    ensures Good(w.(frame := fr))
  {
    forall f: Feature
      ensures Agrees(KnobOf(w.(frame := fr), f), Recall(w.trace, f))
    {
      assert KnobOf(w.(frame := fr), f) == KnobOf(w, f);
    }
  }

  lemma RejectingGood(w: World)
    requires Good(w)
    ensures Good(Rejecting(w)) && Rejecting(w).store == w.store
  {
    var w' := Rejecting(w);
    forall f: Feature
      ensures Agrees(KnobOf(w', f), Recall(w'.trace, f))
    {
      assert KnobOf(w', f) == KnobOf(w, f) && Agrees(KnobOf(w, f), Recall(w.trace, f));
    }
  }

  /**
   * Whatever task runs next, whatever the outside contributes: the world stays good and no camera routine is left
   * running.
   */
  lemma JobGood(w: World, job: Job, input: Input)
    requires Good(w) && w.store.running == FUNC_IDLE
    ensures Good(RunJob(w, job, input).0) && RunJob(w, job, input).0.store.running == FUNC_IDLE
  {
    match job
    case Receive => ReceivingGood(w, input.msgs, MESSAGES_PER_TASK);
    case Heartbeat =>
    case Service => ServiceGood(w, input.readings);
    case Camera(g) => CameraGood(w, g, input);
    case Announce(g) =>
      PublishAllGood(w, Members(g), input.up);
      PublishExtAllGood(PublishAll(w, Members(g), input.up).0, Members(g), input.extUp);
      PublishAllStore(w, Members(g), input.up);
      PublishExtAllStore(PublishAll(w, Members(g), input.up).0, Members(g), input.extUp);
    case Acknowledge(c, r, progress, result) => LogElsewhere(w, Acked(c, r, progress, result));
    case Process =>
      if Unserved(w.frame.typ) {
        LogElsewhere(w, ProcessDied(w.frame.typ));
      } else {
        LogElsewhere(w, Handled(ResultOf(w.frame.typ, input.result)));
        FrameElsewhere(w.(trace := Then(w.trace, Handled(ResultOf(w.frame.typ, input.result)))),
            Processed(w.frame, input.result));
      }
    case ErrorHandler => RejectingGood(w);
  }
}
