/** The cached camera value of one feature and its two announcement flags (memoryValue), and its publisher. */
module MemoryValues {
  import opened Features
  import opened TimedWait

  datatype Entry = Entry(
    signal: int,
    prev: int,
    owner: int,
    updateNeeded: bool,  // a PARAM_VALUE is due
    ackSend: bool)       // a PARAM_EXT_VALUE is due

  /** The entry of a feature whose first camera read failed. */
  const BLANK := Entry(0, 0, STATE_READY, false, false)

  /** Caching a value shifts the two-deep history and makes an announcement due. */
  function AfterSetValue(e: Entry, value: int, timeout: nat, others: Others): (Entry, bool) {
    if Granted(e.owner, others, timeout) then
      (e.(owner := STATE_READY, prev := e.signal, signal := ToSlot(value), updateNeeded := true), true)
    else
      (e.(owner := OwnerAt(e.owner, others, timeout)), false)
  }

  /** The same inside one coroutine step. */
  function Cached(e: Entry, value: int): Entry {
    if e.owner == STATE_READY then e.(prev := e.signal, signal := ToSlot(value), updateNeeded := true) else e
  }

  lemma CachedIsSetValue(e: Entry, value: int, timeout: nat)
    requires timeout > 0
    ensures AfterSetValue(e, value, timeout, ALONE) == (Cached(e, value), e.owner == STATE_READY)
  {
    AloneWait(e.owner, timeout, timeout);
  }

  function WithUpdateFlag(e: Entry, on: bool): Entry {
    if e.owner == STATE_READY then e.(updateNeeded := on) else e
  }

  function WithAckSend(e: Entry, on: bool): Entry {
    if e.owner == STATE_READY then e.(ackSend := on) else e
  }

  /** What one visit of a publisher comes to. */
  datatype Visit =
    | Idle               // nothing due
    | Busy               // the entry is held by somebody else
    | Unpackable         // the value does not fit the wire format: the task dies with an exception
    | SendFailed
    | Sent(value: int)

  /** A PARAM_VALUE visit: the value is packed as an unsigned word before anything else can fail. */
  function PublishVisit(e: Entry, linkUp: bool): Visit {
    if !e.updateNeeded then Idle
    else if e.signal < 0 then Unpackable
    else if e.owner != STATE_READY then Busy
    else if !linkUp then SendFailed
    else Sent(e.signal)
  }

  function AfterPublish(e: Entry, linkUp: bool): Entry {
    if PublishVisit(e, linkUp).Sent? then e.(updateNeeded := false) else e
  }

  /** A PARAM_EXT_VALUE visit: the value goes out as text. */
  function PublishExtVisit(e: Entry, linkUp: bool): Visit {
    if e.owner != STATE_READY || !e.ackSend then Idle
    else if !linkUp then SendFailed
    else Sent(e.signal)
  }

  function AfterPublishExt(e: Entry, linkUp: bool): Entry {
    if PublishExtVisit(e, linkUp).Sent? then e.(ackSend := false) else e
  }

  /** When each visit happens: the cases exclude each other, and only what was sent clears its flag. */
  lemma VisitExact(e: Entry, linkUp: bool)
    ensures var (v, ready) := (PublishVisit(e, linkUp), e.owner == STATE_READY);
            && (v == Idle <==> !e.updateNeeded)
            && (v == Unpackable <==> e.updateNeeded && e.signal < 0)
            && (v == Busy <==> e.updateNeeded && e.signal >= 0 && !ready)
            && (v == SendFailed <==> e.updateNeeded && e.signal >= 0 && ready && !linkUp)
            && (v.Sent? <==> e.updateNeeded && e.signal >= 0 && ready && linkUp) && (v.Sent? ==> v.value == e.signal)
            && AfterPublish(e, linkUp) == e.(updateNeeded := e.updateNeeded && !v.Sent?)
    ensures var v := PublishExtVisit(e, linkUp);
            && (v == Idle <==> !(e.ackSend && e.owner == STATE_READY))
            && (v == SendFailed <==> e.ackSend && e.owner == STATE_READY && !linkUp)
            && (v.Sent? <==> e.ackSend && e.owner == STATE_READY && linkUp) && (v.Sent? ==> v.value == e.signal)
            && AfterPublishExt(e, linkUp) == e.(ackSend := e.ackSend && !v.Sent?)
  {
  }

  class MemoryValue {
    var signal: int
    var prev: int
    var owner: int
    var updateNeeded: bool
    var ackSend: bool

    ghost function Value(): Entry
      reads this
    {
      Entry(signal, prev, owner, updateNeeded, ackSend)
    }

    /** A first read that succeeded is announced at once; one that failed leaves a silent 0. */
    constructor (first: Option<int>)
      ensures Value() == match first
                         case Some(v) => Entry(ToSlot(v), 0, STATE_READY, true, false)
                         case None => BLANK
    {
      prev, owner, ackSend := 0, STATE_READY, false;
      match first {
        case Some(v) => signal, updateNeeded := ToSlot(v), true;
        case None => signal, updateNeeded := 0, false;
      }
    }

    method SetValue(value: int, myId: int, timeout: nat, others: Others) returns (ok: bool)
      modifies this
      ensures (Value(), ok) == AfterSetValue(old(Value()), value, timeout, others)
    {
      var timeCnt, seen := AwaitReady(owner, timeout, others);
      owner := seen;
      ok := timeCnt < timeout;
      if ok {
        owner := myId;
        prev := signal;
        signal := ToSlot(value);
        updateNeeded := true;
        owner := STATE_READY;
      }
    }

    method GetValueData(yourId: int, timeout: nat, others: Others) returns (value: int, previous: int, ok: bool)
      modifies this`owner
      ensures ok <==> Granted(old(owner), others, timeout)
      ensures value == signal && previous == prev
      ensures owner == if ok then STATE_READY else OwnerAt(old(owner), others, timeout)
    {
      var timeCnt, seen := AwaitReady(owner, timeout, others);
      owner := seen;
      ok := timeCnt < timeout;
      value, previous := signal, prev;
      if ok {
        owner := yourId;
        owner := STATE_READY;
      }
    }

    method SetUpdateFlag(stateSent: bool, myId: int) returns (ok: bool)
      modifies this
      ensures Value() == WithUpdateFlag(old(Value()), stateSent)
      ensures ok <==> old(owner) == STATE_READY
    {
      ok := owner == STATE_READY;
      if ok {
        owner := myId;
        updateNeeded := stateSent;
        owner := STATE_READY;
      }
    }

    method SetAckSend(stateSent: bool, myId: int) returns (ok: bool)
      modifies this
      ensures Value() == WithAckSend(old(Value()), stateSent)
      ensures ok <==> old(owner) == STATE_READY
    {
      ok := owner == STATE_READY;
      if ok {
        owner := myId;
        ackSend := stateSent;
        owner := STATE_READY;
      }
    }

    method GetAckSend(myId: int) returns (due: bool, ok: bool)
      modifies this`owner
      ensures owner == old(owner)
      ensures ok <==> owner == STATE_READY
      ensures due <==> ok && ackSend
    {
      ok := owner == STATE_READY;
      due := false;
      if ok {
        owner := myId;
        due := ackSend;
        owner := STATE_READY;
      }
    }

    /** Announce the value if due; the flag is cleared only after the message went out. */
    method SendParamValue(linkUp: bool, timeout: nat) returns (visit: Visit)
      requires timeout > 0
      modifies this
      ensures visit == PublishVisit(old(Value()), linkUp)
      ensures Value() == AfterPublish(old(Value()), linkUp)
    {
      if !updateNeeded {
        return Idle;
      }
      AloneWait(owner, timeout, timeout);
      var value, _, ok := GetValueData(STATE_MAV_READING, timeout, ALONE);
      if value < 0 {
        return Unpackable;
      }
      if !ok {
        return Busy;
      }
      if !linkUp {
        return SendFailed;
      }
      var writeSuccess, timeCount := false, 0;
      while !writeSuccess && timeout > timeCount
        invariant timeCount <= timeout && (writeSuccess <==> timeCount > 0)
        invariant Value() == if writeSuccess then old(Value()).(updateNeeded := false) else old(Value())
        decreases timeout - timeCount
      {
        writeSuccess := SetUpdateFlag(false, STATE_MAV_WRITING);
        timeCount := timeCount + 1;
      }
      visit := Sent(value);
    }

    method SendParamExtValue(linkUp: bool, timeout: nat) returns (visit: Visit)
      requires timeout > 0
      modifies this
      ensures visit == PublishExtVisit(old(Value()), linkUp)
      ensures Value() == AfterPublishExt(old(Value()), linkUp)
    {
      var due, ready := GetAckSend(STATE_MAV_READING);
      if !(due && ready) {
        return Idle;
      }
      AloneWait(owner, timeout, timeout);
      var value, _, ok := GetValueData(STATE_MAV_READING, timeout, ALONE);
      if !linkUp {
        return SendFailed;
      }
      var writeSuccess, timeCount := false, 0;
      while !writeSuccess && timeout > timeCount
        invariant timeCount <= timeout && (writeSuccess <==> timeCount > 0)
        invariant Value() == if writeSuccess then old(Value()).(ackSend := false) else old(Value())
        decreases timeout - timeCount
      {
        writeSuccess := SetAckSend(false, STATE_MAV_WRITING);
        timeCount := timeCount + 1;
      }
      visit := Sent(value);
    }
  }
}
