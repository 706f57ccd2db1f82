/**
 * The timed wait on an owner field. A store operation polls the field, sleeps between polls while other
 * tasks may overwrite it, and is granted the store if it sees READY before its poll budget is used up.
 */
module TimedWait {
  import opened Features

  /**
   * What other tasks store into the owner field during the sleeps of a wait, sleep by sleep; after the listed
   * sleeps nobody touches it. A wait sleeps finitely often, so every schedule is such a list.
   */
  type Others = seq<Option<int>>

  /** No other task runs during a sleep: inside one coroutine step of the event loop. */
  const ALONE: Others := []

  /** The owner field at poll number k of a wait that starts with the given value. */
  function OwnerAt(start: int, others: Others, k: nat): int {
    if k == 0 then start
    else if k - 1 < |others| && others[k - 1].Some? then others[k - 1].value
    else OwnerAt(start, others, k - 1)
  }

  function PollsFrom(start: int, others: Others, timeout: nat, k: nat): (n: nat)
    requires k <= timeout
    ensures k <= n <= timeout
    decreases timeout - k
  {
    if k == timeout || OwnerAt(start, others, k) == STATE_READY then k
    else PollsFrom(start, others, timeout, k + 1)
  }

  /** Number of sleeps of a wait: the first poll that sees READY, or the whole budget. */
  function Sleeps(start: int, others: Others, timeout: nat): (n: nat)
    ensures n <= timeout
  {
    PollsFrom(start, others, timeout, 0)
  }

  lemma {:induction false} PollsFromFirst(start: int, others: Others, timeout: nat, k: nat)
    requires k <= timeout
    ensures var n := PollsFrom(start, others, timeout, k);
            (forall j: nat | k <= j < n :: OwnerAt(start, others, j) != STATE_READY)
            && (n < timeout ==> OwnerAt(start, others, n) == STATE_READY)
    decreases timeout - k
  {
    if !(k == timeout || OwnerAt(start, others, k) == STATE_READY) {
      PollsFromFirst(start, others, timeout, k + 1);
    }
  }

  predicate Granted(start: int, others: Others, timeout: nat) {
    Sleeps(start, others, timeout) < timeout
  }

  /**
   * A wait is granted exactly when READY shows at some poll before the budget; READY at the last wake-up is too late.
   */
  lemma GrantedIffReadyInTime(start: int, others: Others, timeout: nat)
    ensures Granted(start, others, timeout)
            <==> exists k: nat :: k < timeout && OwnerAt(start, others, k) == STATE_READY
    ensures forall k: nat | k < timeout && OwnerAt(start, others, k) == STATE_READY
        :: Sleeps(start, others, timeout) <= k
  {
    PollsFromFirst(start, others, timeout, 0);
  }

  lemma {:induction false} UntouchedUntil(start: int, others: Others, j: nat, k: nat)
    requires k <= j <= |others| && forall i | 0 <= i < j :: others[i] == None
    ensures OwnerAt(start, others, k) == start
  {
    if k > 0 {
      UntouchedUntil(start, others, j, k - 1);
    }
  }

  /**
   * READY stored by another task during sleep number j, counted from 0, ends the wait after j + 1 sleeps; if those are
   * the whole budget it comes too late.
   */
  lemma WriteEndsWait(start: int, others: Others, j: nat, timeout: nat)
    requires start != STATE_READY && j < |others| && others[j] == Some(STATE_READY)
    requires forall i | 0 <= i < j :: others[i] == None
    ensures Sleeps(start, others, timeout) == if j + 1 <= timeout then j + 1 else timeout
    ensures Granted(start, others, timeout) <==> j + 1 < timeout
    ensures j + 1 <= timeout ==> OwnerAt(start, others, Sleeps(start, others, timeout)) == STATE_READY
  {
    forall k: nat | k <= j
      ensures OwnerAt(start, others, k) == start
    {
      UntouchedUntil(start, others, j, k);
    }
    assert OwnerAt(start, others, j + 1) == STATE_READY;
    PollsFromFirst(start, others, timeout, 0);
  }

  /** With nobody else running, a wait either is granted at once or sleeps its whole budget. */
  lemma {:induction false} AloneWait(start: int, timeout: nat, k: nat)
    ensures OwnerAt(start, ALONE, k) == start
    ensures Granted(start, ALONE, timeout) <==> start == STATE_READY && timeout > 0
    ensures Sleeps(start, ALONE, timeout) == if start == STATE_READY then 0 else timeout
  {
    forall j: nat
      ensures OwnerAt(start, ALONE, j) == start
    {
      AloneOwner(start, j);
    }
    PollsFromFirst(start, ALONE, timeout, 0);
  }

  lemma {:induction false} AloneOwner(start: int, k: nat)
    ensures OwnerAt(start, ALONE, k) == start
  {
    if k > 0 {
      AloneOwner(start, k - 1);
    }
  }

  /** The other tasks as seen by a wait that begins after n sleeps. */
  function After(others: Others, n: nat): Others {
    if n <= |others| then others[n..] else []
  }

  lemma {:induction false} OwnerShift(start: int, others: Others, n: nat, k: nat)
    ensures OwnerAt(start, others, n + k) == OwnerAt(OwnerAt(start, others, n), After(others, n), k)
  {
    if k > 0 {
      OwnerShift(start, others, n, k - 1);
    }
  }

  /** The polling loop that opens every store operation. */
  method AwaitReady(owner: int, timeout: nat, others: Others) returns (timeCnt: nat, seen: int)
    ensures timeCnt == Sleeps(owner, others, timeout)
    ensures seen == OwnerAt(owner, others, timeCnt)
  {
    timeCnt := 0;
    seen := owner;
    while seen != STATE_READY && timeCnt < timeout
      invariant timeCnt <= timeout
      invariant seen == OwnerAt(owner, others, timeCnt)
      invariant Sleeps(owner, others, timeout) == PollsFrom(owner, others, timeout, timeCnt)
      decreases timeout - timeCnt
    {
      if timeCnt < |others| && others[timeCnt].Some? {
        seen := others[timeCnt].value;
      }
      timeCnt := timeCnt + 1;
    }
  }

  lemma {:induction false} SleepsUnique(start: int, others: Others, timeout: nat, n: nat, k: nat)
    requires k <= n <= timeout
    requires forall j: nat | j < n :: OwnerAt(start, others, j) != STATE_READY
    requires n < timeout ==> OwnerAt(start, others, n) == STATE_READY
    ensures PollsFrom(start, others, timeout, k) == n
    decreases n - k
  {
    if k < n {
      SleepsUnique(start, others, timeout, n, k + 1);
    }
  }

  /**
   * Retrying a wait with a fresh budget each time is one wait with the combined budget: an attempt that fails
   * hands the owner field on unchanged, and the next attempt polls it again before sleeping.
   */
  lemma RetriesAreOneWait(start: int, others: Others, timeout: nat, more: nat)
    ensures var first := Sleeps(start, others, timeout);
            Sleeps(start, others, timeout + more)
            == if first < timeout then first
               else timeout + Sleeps(OwnerAt(start, others, timeout), After(others, timeout), more)
  {
    PollsFromFirst(start, others, timeout, 0);
    PollsFromFirst(OwnerAt(start, others, timeout), After(others, timeout), more, 0);
    var first := Sleeps(start, others, timeout);
    var rest := Sleeps(OwnerAt(start, others, timeout), After(others, timeout), more);
    forall j: nat
      ensures OwnerAt(start, others, timeout + j) == OwnerAt(OwnerAt(start, others, timeout), After(others, timeout), j)
    {
      OwnerShift(start, others, timeout, j);
    }
    var n := if first < timeout then first else timeout + rest;
    forall j: nat | j < n
      ensures OwnerAt(start, others, j) != STATE_READY
    {
      if timeout <= j {
        var i: nat := j - timeout;
        assert OwnerAt(start, others, timeout + i)
            == OwnerAt(OwnerAt(start, others, timeout), After(others, timeout), i);
        assert OwnerAt(OwnerAt(start, others, timeout), After(others, timeout), i) != STATE_READY;
      }
    }
    SleepsUnique(start, others, timeout + more, n, 0);
  }
}
