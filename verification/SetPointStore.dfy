/** The store of set-points shared by the ground-station side and the camera side (mavlinkSonyCamWriteVals). */
module SetPointStores {
  import opened Features
  import opened TimedWait

  /** The store as a value: bit-coded words are read as the sets of features they name. */
  datatype Store = Store(
    req: Slots,             // what the ground station asked for
    com: Slots,             // what the camera last confirmed
    protect: set<Feature>,  // features the camera reported as not writable
    plain: set<Feature>,    // features whose PARAM_VALUE is asked for
    ext: set<Feature>,      // features whose PARAM_EXT_VALUE is asked for
    owner: int,
    running: int)           // which camera routine runs

  /** How a store operation ends; Raised is a value that int() does not accept. */
  datatype Attempt = Done | TimedOut | Raised

  /** The owner field after a wait that was not granted. */
  function Refused(owner: int, timeout: nat, reset: bool, others: Others): int {
    if reset then STATE_READY else OwnerAt(owner, others, timeout)
  }

  function Settable(s: Store, f: Feature, mode: int): Slots {
    if mode == WRITE_PREV_DATA then s.com[f := At(s.req, f)] else s.com
  }

  function AfterSetVal(s: Store, f: Feature, value: Option<int>, myId: int, mode: int, timeout: nat, reset: bool,
                       others: Others): (Store, Attempt) {
    if Granted(s.owner, others, timeout) then
      match value
      case Some(v) =>
        (s.(owner := STATE_READY, com := Settable(s, f, mode), req := s.req[f := ToSlot(v)]), Done)
      case None =>
        (s.(owner := myId, com := Settable(s, f, mode)), Raised)
    else
      (s.(owner := Refused(s.owner, timeout, reset, others)), TimedOut)
  }

  function AfterClearReq(s: Store, f: Feature, timeout: nat, reset: bool, others: Others): (Store, Attempt) {
    if Granted(s.owner, others, timeout) then (s.(owner := STATE_READY, req := s.req[f := At(s.com, f)]), Done)
    else (s.(owner := Refused(s.owner, timeout, reset, others)), TimedOut)
  }

  function AfterGetVal(s: Store, timeout: nat, reset: bool, others: Others): (Store, Attempt) {
    if Granted(s.owner, others, timeout) then (s.(owner := STATE_READY), Done)
    else (s.(owner := Refused(s.owner, timeout, reset, others)), TimedOut)
  }

  function AfterWritePro(s: Store, f: Feature, on: bool, timeout: nat, reset: bool, others: Others): (Store, Attempt) {
    if Granted(s.owner, others, timeout) then
      (s.(owner := STATE_READY, protect := if on then s.protect + {f} else s.protect - {f}), Done)
    else (s.(owner := Refused(s.owner, timeout, reset, others)), TimedOut)
  }

  class SetPointStore {
    var requested: Slots
    var committed: Slots
    var writePro: bv32
    var plainWord: bv32
    var extWord: bv32
    var owner: int
    var mpState: int

    ghost predicate Valid()
      reads this
    {
      plainWord <= 255 && extWord <= 255
    }

    ghost function Value(): Store
      reads this
    {
      Store(requested, committed, ProtectMembers(writePro), RequestMembers(plainWord), RequestMembers(extWord), owner,
          mpState)
    }

    constructor ()
      ensures Valid()
      ensures Value() == Store(map[], map[], {}, {}, {}, STATE_INIT, FUNC_IDLE)
    {
      requested, committed := map[], map[];
      writePro, plainWord, extWord := 0, 0, 0;
      owner, mpState := STATE_INIT, FUNC_IDLE;
      new;
      EmptyWords();
    }

    method InitClassState()
      requires Valid()
      modifies this`owner
      ensures Valid()
      ensures Value() == old(Value()).(owner := if old(owner) == STATE_INIT then STATE_READY else old(owner))
    {
      if owner == STATE_INIT {
        owner := STATE_READY;
      }
    }

    /** How every store operation starts: wait for the owner field, and on a time-out put it back if told to. */
    method Acquire(timeout: nat, reset: bool, others: Others) returns (granted: bool, sleeps: nat)
      modifies this`owner
      ensures granted <==> Granted(old(owner), others, timeout)
      ensures sleeps == Sleeps(old(owner), others, timeout)
      ensures !granted ==> owner == Refused(old(owner), timeout, reset, others)
    {
      var seen;
      sleeps, seen := AwaitReady(owner, timeout, others);
      owner := seen;
      granted := sleeps < timeout;
      if !granted && reset {
        owner := STATE_READY;
      }
    }

    method SetVal(f: Feature, value: Option<int>, myId: int, mode: int, timeout: nat, reset: bool, others: Others)
      returns (r: Attempt)
      requires Valid()
      modifies this`requested, this`committed, this`owner
      ensures Valid()
      ensures (Value(), r) == AfterSetVal(old(Value()), f, value, myId, mode, timeout, reset, others)
    {
      var granted, sleeps := Acquire(timeout, reset, others);
      if granted {
        owner := myId;
        if mode == WRITE_PREV_DATA {
          committed := committed[f := At(requested, f)];
        }
        match value {
          case None =>
            return Raised;
          case Some(v) =>
            requested := requested[f := ToSlot(v)];
        }
        owner := STATE_READY;
        r := Done;
      } else {
        r := TimedOut;
      }
    }

    method ClearReq(f: Feature, myId: int, timeout: nat, reset: bool, others: Others) returns (r: Attempt)
      requires Valid()
      modifies this`requested, this`owner
      ensures Valid()
      ensures (Value(), r) == AfterClearReq(old(Value()), f, timeout, reset, others)
    {
      var granted, sleeps := Acquire(timeout, reset, others);
      if granted {
        owner := myId;
        requested := requested[f := At(committed, f)];
        owner := STATE_READY;
        r := Done;
      } else {
        r := TimedOut;
      }
    }

    method GetVal(f: Feature, yourId: int, timeout: nat, reset: bool, others: Others)
      returns (c: int, p: int, r: Attempt, sleeps: nat)
      requires Valid()
      modifies this`owner
      ensures Valid()
      ensures (Value(), r) == AfterGetVal(old(Value()), timeout, reset, others)
      ensures c == At(requested, f) && p == At(committed, f)
      ensures sleeps == Sleeps(old(owner), others, timeout)
    {
      var granted;
      granted, sleeps := Acquire(timeout, reset, others);
      c, p := At(requested, f), At(committed, f);
      if granted {
        owner := yourId;
        owner := STATE_READY;
        r := Done;
      } else {
        r := TimedOut;
      }
    }

    method SetWritePro(f: Feature, myId: int, timeout: nat, reset: bool, others: Others) returns (r: Attempt)
      requires Valid()
      modifies this`writePro, this`owner
      ensures Valid()
      ensures (Value(), r) == AfterWritePro(old(Value()), f, true, timeout, reset, others)
    {
      var granted, sleeps := Acquire(timeout, reset, others);
      if granted {
        owner := myId;
        ProtectAdded(writePro, f);
        writePro := writePro | ProtectMask(f);
        owner := STATE_READY;
        r := Done;
      } else {
        r := TimedOut;
      }
    }

    method ClearWritePro(f: Feature, myId: int, timeout: nat, reset: bool, others: Others) returns (r: Attempt)
      requires Valid()
      modifies this`writePro, this`owner
      ensures Valid()
      ensures (Value(), r) == AfterWritePro(old(Value()), f, false, timeout, reset, others)
    {
      var granted, sleeps := Acquire(timeout, reset, others);
      if granted {
        owner := myId;
        ProtectRemoved(writePro, f);
        writePro := writePro & !ProtectMask(f);
        owner := STATE_READY;
        r := Done;
      } else {
        r := TimedOut;
      }
    }

    // ---------- the request words, changed under their own locks without the owner field ----------

    method AskPlain(f: Feature)
      requires Valid()
      modifies this`plainWord
      ensures Valid()
      ensures Value() == old(Value()).(plain := old(Value()).plain + {f})
    {
      RequestAdded(plainWord, f);
      RequestRange(plainWord, f);
      plainWord := plainWord | ParamMask(f);
    }

    method AskExt(f: Feature)
      requires Valid()
      modifies this`extWord
      ensures Valid()
      ensures Value() == old(Value()).(ext := old(Value()).ext + {f})
    {
      RequestAdded(extWord, f);
      RequestRange(extWord, f);
      extWord := extWord | ParamMask(f);
    }

    /** A list request assigns 255; it drops no request made before. */
    method AskAllPlain()
      requires Valid()
      modifies this`plainWord
      ensures Valid()
      ensures Value() == old(Value()).(plain := AllFeatures())
      ensures old(Value()).plain <= Value().plain
    {
      WholeRequestWord(plainWord);
      plainWord := MAV_REQ_ALL_PARAM;
    }

    method AskAllExt()
      requires Valid()
      modifies this`extWord
      ensures Valid()
      ensures Value() == old(Value()).(ext := AllFeatures())
      ensures old(Value()).ext <= Value().ext
    {
      WholeRequestWord(extWord);
      extWord := MAV_REQ_ALL_PARAM;
    }

    method DropPlain(f: Feature)
      requires Valid()
      modifies this`plainWord
      ensures Valid()
      ensures Value() == old(Value()).(plain := old(Value()).plain - {f})
    {
      RequestRemoved(plainWord, f);
      RequestRange(plainWord, f);
      plainWord := plainWord & !ParamMask(f);
    }

    method DropExt(f: Feature)
      requires Valid()
      modifies this`extWord
      ensures Valid()
      ensures Value() == old(Value()).(ext := old(Value()).ext - {f})
    {
      RequestRemoved(extWord, f);
      RequestRange(extWord, f);
      extWord := extWord & !ParamMask(f);
    }

    method PlainAsked(f: Feature) returns (b: bool)
      ensures b <==> f in Value().plain
    {
      b := plainWord & ParamMask(f) != 0;
    }

    method ExtAsked(f: Feature) returns (b: bool)
      ensures b <==> f in Value().ext
    {
      b := extWord & ParamMask(f) != 0;
    }
  }

  lemma EmptyWords()
    ensures ProtectMembers(0) == {} && RequestMembers(0) == {}
  {
    forall f: Feature
      ensures f !in ProtectMembers(0) && f !in RequestMembers(0)
    {
      FullWord(f);
      assert (0 as bv32) & ProtectMask(f) == 0;
    }
  }

  // ---------- inside one coroutine step nobody else runs ----------

  /** Asking for a set-point: written if the store is free, nothing otherwise, stuck if the value is no integer. */
  function PutRequest(s: Store, f: Feature, value: Option<int>): Store {
    if s.owner != STATE_READY then s
    else match value
      case Some(v) => s.(req := s.req[f := ToSlot(v)])
      case None => s.(owner := STATE_MAV_WRITING)
  }

  /**
   * With the store free every operation is granted at once and frees it again, unless the value is no integer; a write
   * moves the old request to the committed slot exactly if it is told to.
   */
  lemma FreeStoreGrants(s: Store, f: Feature, value: Option<int>, myId: int, mode: int, timeout: nat, reset: bool)
    requires s.owner == STATE_READY && timeout > 0
    ensures var (after, r) := AfterSetVal(s, f, value, myId, mode, timeout, reset, ALONE);
            && (r == Done <==> value.Some?) && r != TimedOut
            && after.owner == (if value.Some? then STATE_READY else myId)
            && At(after.com, f) == (if mode == 1 then At(s.req, f) else At(s.com, f))
            && At(after.req, f) == (if value.Some? then ToSlot(value.value) else At(s.req, f))
            && (forall g: Feature | g != f :: At(after.req, g) == At(s.req, g) && At(after.com, g) == At(s.com, g))
            && after.protect == s.protect && after.plain == s.plain && after.ext == s.ext && after.running == s.running
    ensures AfterClearReq(s, f, timeout, reset, ALONE) == (s.(req := s.req[f := At(s.com, f)]), Done)
    ensures AfterGetVal(s, timeout, reset, ALONE) == (s, Done)
    ensures AfterWritePro(s, f, true, timeout, reset, ALONE) == (s.(protect := s.protect + {f}), Done)
    ensures AfterWritePro(s, f, false, timeout, reset, ALONE) == (s.(protect := s.protect - {f}), Done)
  {
    AloneWait(s.owner, timeout, timeout);
  }

  /** The store as other tasks leave it during the sleeps of a wait that is not granted. */
  predicate OnlyOwnerMoved(s: Store, s': Store, others: Others, timeout: nat, reset: bool) {
    s' == s.(owner := if reset then STATE_READY else OwnerAt(s.owner, others, timeout))
  }

  /**
   * While READY does not show in time, under any schedule, every operation times out and changes nothing; with the
   * reset option it puts the owner field back to READY.
   */
  lemma BusyStoreRefuses(s: Store, f: Feature, value: Option<int>, myId: int, mode: int, timeout: nat, reset: bool,
                         on: bool, others: Others)
    requires forall k: nat | k < timeout :: OwnerAt(s.owner, others, k) != STATE_READY
    ensures var r := AfterSetVal(s, f, value, myId, mode, timeout, reset, others);
            OnlyOwnerMoved(s, r.0, others, timeout, reset) && r.1 == TimedOut
    ensures var r := AfterClearReq(s, f, timeout, reset, others);
            OnlyOwnerMoved(s, r.0, others, timeout, reset) && r.1 == TimedOut
    ensures var r := AfterGetVal(s, timeout, reset, others);
            OnlyOwnerMoved(s, r.0, others, timeout, reset) && r.1 == TimedOut
    ensures var r := AfterWritePro(s, f, on, timeout, reset, others);
            OnlyOwnerMoved(s, r.0, others, timeout, reset) && r.1 == TimedOut
  {
    GrantedIffReadyInTime(s.owner, others, timeout);
  }

  lemma PutRequestIsSetVal(s: Store, f: Feature, value: Option<int>)
    ensures PutRequest(s, f, value)
            == AfterSetVal(s, f, value, STATE_MAV_WRITING, DONT_WRITE_PREV_DATA, 5, false, ALONE).0
  {
    AloneWait(s.owner, 5, 5);
  }

  // ---------- the read that opens a camera transaction ----------

  /** A wait with the given budget, pieced together from attempts: how long it slept and how it left the owner field. */
  ghost predicate Waited(start: int, others: Others, budget: nat, sleeps: nat, owner: int, granted: bool) {
    if granted then owner == STATE_READY && sleeps < budget && sleeps == Sleeps(start, others, budget)
    else sleeps == budget && owner == OwnerAt(start, others, budget) && !Granted(start, others, budget)
  }

  lemma WaitedMore(start: int, others: Others, budget: nat, owner: int, more: nat, n: nat, seen: int)
    requires Waited(start, others, budget, budget, owner, false)
    requires n == Sleeps(owner, After(others, budget), more)
    requires seen == if n < more then STATE_READY else OwnerAt(owner, After(others, budget), more)
    ensures Waited(start, others, budget + more, budget + n, seen, n < more)
  {
    RetriesAreOneWait(start, others, budget, more);
    OwnerShift(start, others, budget, more);
  }

  lemma WaitedEnough(start: int, others: Others, small: nat, large: nat, sleeps: nat, owner: int)
    requires Waited(start, others, small, sleeps, owner, true) && small <= large
    ensures Granted(start, others, large) && Sleeps(start, others, large) == sleeps
  {
    EnoughBudget(start, others, small, large);
  }

  /**
   * The retry loop around the first read: each retry waits with a fresh budget. It reads what one wait with
   * the whole budget would read, polls no more than that budget and calls the store at most `retries` times.
   */
  method ReadRequest(store: SetPointStore, f: Feature, timeout1: nat, retries: nat, others: Others)
    returns (reqDat: int, prevDat: int, readSuccess: bool, sleeps: nat, tries: nat)
    requires store.Valid() && timeout1 > 0 && retries > 0
    modifies store`owner
    ensures store.Valid()
    ensures readSuccess <==> Granted(old(store.owner), others, timeout1 * retries)
    ensures sleeps == Sleeps(old(store.owner), others, timeout1 * retries)
    ensures 1 <= tries <= retries && sleeps <= timeout1 * retries
    ensures reqDat == At(store.requested, f) && prevDat == At(store.committed, f)
    ensures store.Value() == old(store.Value()).(owner :=
              if readSuccess then STATE_READY else OwnerAt(old(store.owner), others, timeout1 * retries))
  {
    var timeoutS1: int := timeout1 * retries;
    ghost var (start, budget: nat) := (store.owner, 0);
    readSuccess, sleeps, tries := false, 0, 0;
    reqDat, prevDat := At(store.requested, f), At(store.committed, f);
    while !readSuccess && timeoutS1 > 0
      invariant store.Valid()
      invariant tries <= retries && (readSuccess ==> tries > 0)
      invariant budget == timeout1 * tries && timeoutS1 == timeout1 * retries - budget
      invariant reqDat == At(store.requested, f) && prevDat == At(store.committed, f)
      invariant store.Value() == old(store.Value()).(owner := store.owner)
      invariant Waited(start, others, budget, sleeps, store.owner, readSuccess)
      decreases retries - tries
    {
      var r, n;
      ghost var before := store.owner;
      BudgetStep(timeout1, tries, retries);
      reqDat, prevDat, r, n := store.GetVal(f, STATE_CAM_READING, timeout1, false, After(others, sleeps));
      WaitedMore(start, others, budget, before, timeout1, n, store.owner);
      readSuccess := r == Done;
      timeoutS1 := timeoutS1 - timeout1;
      budget, sleeps, tries := budget + timeout1, sleeps + n, tries + 1;
    }
    BudgetStep(timeout1, tries, retries);
    if readSuccess {
      WaitedEnough(start, others, budget, timeout1 * retries, sleeps, store.owner);
    }
  }

  lemma BudgetStep(t: nat, tries: nat, retries: nat)
    ensures t * (tries + 1) == t * tries + t
    ensures tries <= retries ==> t * tries <= t * retries
    ensures tries < retries ==> t * tries + t <= t * retries
    ensures t > 0 && t * tries < t * retries ==> tries < retries
    ensures t > 0 && tries > 0 ==> t * tries > 0
  {
    if tries < retries {
      Product(t, tries + 1, retries);
    } else {
      Product(t, retries, tries);
    }
  }

  lemma Product(t: nat, a: nat, b: nat)
    requires a <= b
    ensures t * a <= t * b
  {
  }

  /** A wait granted within a budget ends the same way under any larger budget. */
  lemma EnoughBudget(owner: int, others: Others, small: nat, large: nat)
    requires Granted(owner, others, small) && small <= large
    ensures Sleeps(owner, others, large) == Sleeps(owner, others, small)
  {
    RetriesAreOneWait(owner, others, small, large - small);
  }
}
