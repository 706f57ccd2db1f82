/**
 * The task that turns request bits into announcements (serviceParamRequests). It sweeps the eight features four
 * times: raise the update flags, raise the ext flags, read the camera for plain requests, answer ext requests.
 * Each sweep is eight copies of one step in the source and a loop over SERVICE_ORDER here.
 */
module ServicePasses {
  import opened Features
  import opened TimedWait
  import opened PythonText
  import opened CameraText
  import opened SetPointStores
  import opened MemoryValues

  type Cache = map<Feature, Entry>

  function EntryOf(cache: Cache, f: Feature): Entry {
    if f in cache then cache[f] else BLANK
  }

  /** The features whose camera read yields a number, with that number. */
  type Readings = map<Feature, int>

  /** The part of the state a service pass works on. */
  datatype Served = Served(plain: set<Feature>, ext: set<Feature>, cache: Cache)

  /** One feature's share of it. */
  datatype Local = Local(entry: Entry, plain: bool, ext: bool)

  datatype Sweep = RaiseFlags | RaiseAcks | ReadPlain | CachePlain | AnswerExt

  function StepLocal(sweep: Sweep, l: Local, reading: Option<int>): Local {
    match sweep
    case RaiseFlags => if l.plain then l.(entry := WithUpdateFlag(l.entry, true)) else l
    case RaiseAcks => if l.ext then l.(entry := WithAckSend(l.entry, true)) else l
    case ReadPlain =>
      if l.plain && reading.Some? && l.entry.owner == STATE_READY
      then l.(entry := Cached(l.entry, reading.value), plain := false)
      else l
    case CachePlain =>
      if l.plain then l.(entry := l.entry.(updateNeeded := true), plain := false) else l
    case AnswerExt =>
      if l.ext then
        Local(WithAckSend(l.entry.(updateNeeded := true), true), l.plain, l.entry.owner != STATE_READY)
      else l
  }

  function View(s: Served, f: Feature): Local {
    Local(EntryOf(s.cache, f), f in s.plain, f in s.ext)
  }

  function Reading(readings: Readings, f: Feature): Option<int> {
    if f in readings then Some(readings[f]) else None
  }

  function Serve(sweep: Sweep, f: Feature, s: Served, readings: Readings): Served {
    var l := StepLocal(sweep, View(s, f), Reading(readings, f));
    Served(if l.plain then s.plain else s.plain - {f}, if l.ext then s.ext else s.ext - {f}, s.cache[f := l.entry])
  }

  /**
   * The state after the first n features of a sweep. (The state in the termination measure keeps the verifier from
   * unrolling all eight steps wherever a whole sweep is mentioned; World.dfy and EventLoop.dfy do the same.)
   */
  function Swept(sweep: Sweep, n: nat, s: Served, readings: Readings): Served
    requires n <= |SERVICE_ORDER|
    decreases n, s
  {
    if n == 0 then s else Serve(sweep, SERVICE_ORDER[n - 1], Swept(sweep, n - 1, s, readings), readings)
  }

  function Sweeping(sweep: Sweep, s: Served, readings: Readings): Served {
    Swept(sweep, |SERVICE_ORDER|, s, readings)
  }

  /** The whole pass; `plainSweep` is ReadPlain in the first version and CachePlain in the second. */
  function Pass(plainSweep: Sweep, s: Served, readings: Readings): Served {
    var s1 := Sweeping(RaiseFlags, s, readings);
    var s2 := Sweeping(RaiseAcks, s1, readings);
    var s3 := Sweeping(plainSweep, s2, readings);
    Sweeping(AnswerExt, s3, readings)
  }

  // ---------- exactness ----------

  function Position(f: Feature): (i: nat)
    ensures i < |SERVICE_ORDER| && SERVICE_ORDER[i] == f
  {
    match f
    case StillCap => 0
    case WhiteBal => 1
    case Shutter => 2
    case Iso => 3
    case Focus => 4
    case FocusArea => 5
    case Aperture => 6
    case ExPro => 7
  }

  lemma PositionUnique(i: nat)
    requires i < |SERVICE_ORDER|
    ensures Position(SERVICE_ORDER[i]) == i
  {
  }

  /** A sweep does its step to each feature once and independently of the others. */
  lemma {:induction false} SweptExact(sweep: Sweep, n: nat, s: Served, readings: Readings, f: Feature)
    requires n <= |SERVICE_ORDER|
    ensures View(Swept(sweep, n, s, readings), f)
            == if Position(f) < n then StepLocal(sweep, View(s, f), Reading(readings, f)) else View(s, f)
  {
    if n > 0 {
      SweptExact(sweep, n - 1, s, readings, f);
      PositionUnique(n - 1);
      StepElsewhere(sweep, SERVICE_ORDER[n - 1], Swept(sweep, n - 1, s, readings), readings, f);
    }
  }

  lemma StepElsewhere(sweep: Sweep, f: Feature, s: Served, readings: Readings, g: Feature)
    ensures View(Serve(sweep, f, s, readings), g)
            == if g == f then StepLocal(sweep, View(s, f), Reading(readings, f)) else View(s, g)
  {
  }

  function PassLocal(plainSweep: Sweep, l: Local, reading: Option<int>): Local {
    StepLocal(AnswerExt, StepLocal(plainSweep, StepLocal(RaiseAcks, StepLocal(RaiseFlags, l, reading), reading),
        reading),
              reading)
  }

  lemma PassPerFeature(plainSweep: Sweep, s: Served, readings: Readings, f: Feature)
    ensures View(Pass(plainSweep, s, readings), f) == PassLocal(plainSweep, View(s, f), Reading(readings, f))
  {
    var s1 := Sweeping(RaiseFlags, s, readings);
    var s2 := Sweeping(RaiseAcks, s1, readings);
    var s3 := Sweeping(plainSweep, s2, readings);
    SweptExact(RaiseFlags, |SERVICE_ORDER|, s, readings, f);
    SweptExact(RaiseAcks, |SERVICE_ORDER|, s1, readings, f);
    SweptExact(plainSweep, |SERVICE_ORDER|, s2, readings, f);
    SweptExact(AnswerExt, |SERVICE_ORDER|, s3, readings, f);
  }

  /**
   * A pass leaves in the plain word exactly the requests whose camera read failed and in the ext word those whose entry
   * is held, raises the flags of what was asked for and no others, and features without a request keep their entry.
   */
  lemma PassExact(s: Served, readings: Readings, f: Feature)
    ensures var (e, after) := (EntryOf(s.cache, f), Pass(ReadPlain, s, readings));
            var e' := EntryOf(after.cache, f);
            && (f in after.plain <==> f in s.plain && !(f in readings && e.owner == STATE_READY))
            && (f in after.ext <==> f in s.ext && e.owner != STATE_READY)
            && (f in s.plain && f !in after.plain ==>
                  e'.updateNeeded && e'.signal == ToSlot(readings[f]) && e'.prev == e.signal)
            && (e'.updateNeeded <==> e.updateNeeded || (f in s.plain && e.owner == STATE_READY) || f in s.ext)
            && (e'.ackSend <==> e.ackSend || (f in s.ext && e.owner == STATE_READY))
            && (f !in s.plain && f !in s.ext ==> e' == e)
            && (f !in s.plain || f !in readings ==> e'.signal == e.signal && e'.prev == e.prev)
            && e'.owner == e.owner
  {
    PassPerFeature(ReadPlain, s, readings, f);
    var v := View(Pass(ReadPlain, s, readings), f);
    assert v == PassLocal(ReadPlain, View(s, f), Reading(readings, f));
  }

  /** The second version answers plain requests from the cache: it never reads the camera and leaves none behind. */
  lemma CachePassExact(s: Served, readings: Readings, f: Feature)
    ensures var (e, after) := (EntryOf(s.cache, f), Pass(CachePlain, s, readings));
            && f !in after.plain
            && (f in after.ext <==> f in s.ext && e.owner != STATE_READY)
            && EntryOf(after.cache, f) == e.(updateNeeded := e.updateNeeded || f in s.plain || f in s.ext,
                                             ackSend := e.ackSend || (f in s.ext && e.owner == STATE_READY))
  {
    PassPerFeature(CachePlain, s, readings, f);
    assert View(Pass(CachePlain, s, readings), f) == PassLocal(CachePlain, View(s, f), Reading(readings, f));
  }

  /** When every read succeeds the two versions agree on the words and on both flags. */
  lemma VersionsAgree(s: Served, readings: Readings)
    requires forall f: Feature :: f in s.plain ==> f in readings && EntryOf(s.cache, f).owner == STATE_READY
    ensures var (a, b) := (Pass(ReadPlain, s, readings), Pass(CachePlain, s, readings));
            && a.plain == b.plain == {} && a.ext == b.ext
            && forall f: Feature :: EntryOf(a.cache, f).updateNeeded == EntryOf(b.cache, f).updateNeeded
                                    && EntryOf(a.cache, f).ackSend == EntryOf(b.cache, f).ackSend
  {
    var (a, b) := (Pass(ReadPlain, s, readings), Pass(CachePlain, s, readings));
    forall f: Feature
      ensures f !in a.plain && f !in b.plain && (f in a.ext <==> f in b.ext)
      ensures EntryOf(a.cache, f).updateNeeded == EntryOf(b.cache, f).updateNeeded
      ensures EntryOf(a.cache, f).ackSend == EntryOf(b.cache, f).ackSend
    {
      PassPerFeature(ReadPlain, s, readings, f);
      PassPerFeature(CachePlain, s, readings, f);
      VersionsAgreeLocal(View(s, f), Reading(readings, f));
    }
    assert forall f: Feature :: f !in a.plain && f !in b.plain;
    assert a.ext == b.ext;
  }

  lemma VersionsAgreeLocal(l: Local, reading: Option<int>)
    requires l.plain ==> reading.Some? && l.entry.owner == STATE_READY
    ensures var (a, b) := (PassLocal(ReadPlain, l, reading), PassLocal(CachePlain, l, reading));
            !a.plain && !b.plain && a.ext == b.ext
            && a.entry.updateNeeded == b.entry.updateNeeded && a.entry.ackSend == b.entry.ackSend
  {
  }

  // ---------- the task ----------

  /** The tokens the camera program prints for each feature when it is read. */
  type Reports = map<Feature, seq<string>>

  /** The number a get routine takes from a report: its first answer, if that is one. */
  function ReportedValue(f: Feature, tokens: seq<string>): Option<int> {
    var answers := Answers(tokens, KeyOf(f));
    if answers == [] then None else PyInt(answers[0])
  }

  function ReadingsOf(reports: Reports): Readings {
    map f | f in reports && ReportedValue(f, reports[f]).Some? :: ReportedValue(f, reports[f]).value
  }

  /** getSonyCam*Data: read the camera and cache what it reports. */
  method GetSonyCamData(f: Feature, mem: MemoryValue, tokens: seq<string>) returns (ret: bool)
    modifies mem
    ensures var reading := ReportedValue(f, tokens);
            && (ret <==> reading.Some? && old(mem.owner) == STATE_READY)
            && mem.Value() == if reading.Some? then Cached(old(mem.Value()), reading.value) else old(mem.Value())
  {
    ret := false;
    var ans := ParseAnswers(tokens, KeyOf(f));
    if |ans| > 0 {
      match PyInt(ans[0]) {
        case Some(v) =>
          CachedIsSetValue(mem.Value(), v, 100);
          ret := mem.SetValue(v, STATE_CAM_WRITING, 100, ALONE);
        case None =>
      }
    }
  }

  predicate Separate(objs: map<Feature, MemoryValue>) {
    && (forall f: Feature :: f in objs)
    && (forall f, g | f in objs && g in objs && f != g :: objs[f] != objs[g])
  }

  ghost function CacheOf(objs: map<Feature, MemoryValue>): Cache
    reads objs.Values
  {
    map f | f in objs :: objs[f].Value()
  }

  ghost function ServedOf(store: SetPointStore, objs: map<Feature, MemoryValue>): Served
    reads store, objs.Values
  {
    Served(store.Value().plain, store.Value().ext, CacheOf(objs))
  }

  /** One feature's step of a sweep. */
  method ServeStep(sweep: Sweep, f: Feature, store: SetPointStore, mem: MemoryValue, tokens: seq<string>)
    requires store.Valid()
    modifies store`plainWord, store`extWord, mem
    ensures store.Valid()
    ensures var l := StepLocal(sweep, Local(old(mem.Value()), f in old(store.Value()).plain,
        f in old(store.Value()).ext),
                               ReportedValue(f, tokens));
            && mem.Value() == l.entry
            && store.Value() == old(store.Value()).(
                 plain := if l.plain then old(store.Value()).plain else old(store.Value()).plain - {f},
                 ext := if l.ext then old(store.Value()).ext else old(store.Value()).ext - {f})
  {
    var plain := store.PlainAsked(f);
    var ext := store.ExtAsked(f);
    match sweep {
      case RaiseFlags =>
        if plain {
          var _ := mem.SetUpdateFlag(true, STATE_MAV_WRITING);
        }
      case RaiseAcks =>
        if ext {
          var _ := mem.SetAckSend(true, STATE_MAV_WRITING);
        }
      case ReadPlain =>
        if plain {
          var ok := GetSonyCamData(f, mem, tokens);
          if ok {
            store.DropPlain(f);
          }
        }
      case CachePlain =>
        if plain {
          mem.updateNeeded := true;
          store.DropPlain(f);
        }
      case AnswerExt =>
        if ext {
          mem.updateNeeded := true;
          var ok := mem.SetAckSend(true, STATE_CAM_READING);
          if ok {
            store.DropExt(f);
          }
        }
    }
  }

  method ServeOne(sweep: Sweep, f: Feature, store: SetPointStore, objs: map<Feature, MemoryValue>, reports: Reports)
    requires store.Valid() && Separate(objs)
    modifies store`plainWord, store`extWord, objs.Values
    ensures store.Valid()
    ensures ServedOf(store, objs) == Serve(sweep, f, old(ServedOf(store, objs)), ReadingsOf(reports))
  {
    var tokens := if f in reports then reports[f] else [];
    ReportOf(reports, f);
    ghost var s := ServedOf(store, objs);
    ServeStep(sweep, f, store, objs[f], tokens);
    OnlyOneChanged(objs, f, s.cache);
    ServedIs(sweep, f, s, ReadingsOf(reports), ServedOf(store, objs), objs[f].Value());
  }

  lemma ServedIs(sweep: Sweep, f: Feature, s: Served, readings: Readings, s': Served, e: Entry)
    requires var l := StepLocal(sweep, View(s, f), Reading(readings, f));
             && e == l.entry && s'.cache == s.cache[f := e]
             && s'.plain == (if l.plain then s.plain else s.plain - {f})
             && s'.ext == (if l.ext then s.ext else s.ext - {f})
    ensures s' == Serve(sweep, f, s, readings)
  {
  }

  lemma ReportOf(reports: Reports, f: Feature)
    ensures ReportedValue(f, if f in reports then reports[f] else []) == Reading(ReadingsOf(reports), f)
  {
    assert IndexPicked([], KeyOf(f), NOT_ARMED, 0, NOT_ARMED) == [];
  }

  lemma OnlyOneChanged(objs: map<Feature, MemoryValue>, f: Feature, before: Cache)
    requires f in objs && before.Keys == objs.Keys
    requires forall g | g in objs && g != f :: objs[g].Value() == before[g]
    ensures CacheOf(objs) == before[f := objs[f].Value()]
  {
  }

  method RunSweep(sweep: Sweep, store: SetPointStore, objs: map<Feature, MemoryValue>, reports: Reports)
    requires store.Valid() && Separate(objs)
    modifies store`plainWord, store`extWord, objs.Values
    ensures store.Valid()
    ensures ServedOf(store, objs) == Sweeping(sweep, old(ServedOf(store, objs)), ReadingsOf(reports))
  {
    for n := 0 to |SERVICE_ORDER|
      invariant store.Valid()
      invariant ServedOf(store, objs) == Swept(sweep, n, old(ServedOf(store, objs)), ReadingsOf(reports))
    {
      ServeOne(sweep, SERVICE_ORDER[n], store, objs, reports);
    }
  }

  /** serviceParamRequests of the first version. */
  method ServiceParamRequests(store: SetPointStore, objs: map<Feature, MemoryValue>, reports: Reports)
    requires store.Valid() && Separate(objs)
    modifies store`plainWord, store`extWord, objs.Values
    ensures store.Valid()
    ensures ServedOf(store, objs) == Pass(ReadPlain, old(ServedOf(store, objs)), ReadingsOf(reports))
  {
    RunSweep(RaiseFlags, store, objs, reports);
    RunSweep(RaiseAcks, store, objs, reports);
    RunSweep(ReadPlain, store, objs, reports);
    RunSweep(AnswerExt, store, objs, reports);
  }

  /** serviceParamRequests of the second version. */
  method ServiceParamRequestsFromCache(store: SetPointStore, objs: map<Feature, MemoryValue>)
    requires store.Valid() && Separate(objs)
    modifies store`plainWord, store`extWord, objs.Values
    ensures store.Valid()
    ensures ServedOf(store, objs) == Pass(CachePlain, old(ServedOf(store, objs)), map[])
  {
    assert ReadingsOf(map[]) == map[];
    RunSweep(RaiseFlags, store, objs, map[]);
    RunSweep(RaiseAcks, store, objs, map[]);
    RunSweep(CachePlain, store, objs, map[]);
    RunSweep(AnswerExt, store, objs, map[]);
  }
}
