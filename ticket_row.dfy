/**
 * One counter row of the ticket selection screen: a minus and a plus
 * button around a count, with a debounce that ignores a click arriving
 * less than 150 ms after the last accepted one. The clock reading
 * (`Date.now()`) is a parameter of each click.
 */
module TicketRow {
  import opened JsValues

  /** The minimum distance, in milliseconds, between two accepted clicks. */
  const ClickDebounceMs: int := 150

  /** The initial value of the last-accepted timestamp. */
  const InitialLastClick: int := 0

  datatype Button = Minus | Plus

  /** The minus button: `Math.max(0, count - 1)`. */
  function Decrement(count: int): (r: int)
    ensures r >= 0
    ensures count >= 1 ==> r == count - 1
    ensures count <= 1 ==> r == 0
  {
    if count - 1 > 0 then count - 1 else 0
  }

  /** The plus button: `count + 1`, with no upper bound. */
  function Increment(count: int): (r: int)
    ensures r > count
  {
    count + 1
  }

  /** The value passed to `onChange` by a button for the current count. */
  function Apply(button: Button, count: int): (r: int)
    ensures count >= 0 ==> r >= 0
  {
    match button
    case Minus => Decrement(count)
    case Plus => Increment(count)
  }

  /** A non-negative count is restored by a plus followed by a minus. */
  lemma DecrementUndoesIncrement(count: int)
    requires count >= 0
    ensures Decrement(Increment(count)) == count
  {
  }

  /** A minus followed by a plus restores any positive count; at 0 the minus is a no-op. */
  lemma IncrementUndoesDecrement(count: int)
    ensures count >= 1 ==> Increment(Decrement(count)) == count
    ensures Decrement(0) == 0
  {
  }

  /** The count after `n` accepted presses of plus. */
  function PressPlus(count: int, n: nat): int
  {
    if n == 0 then count else Increment(PressPlus(count, n - 1))
  }

  /** Repeated plus presses reach every larger count: there is no cap. */
  lemma {:induction false} NoUpperBound(count: int, n: nat)
    ensures PressPlus(count, n) == count + n
  {
    if n > 0 {
      NoUpperBound(count, n - 1);
    }
  }

  /** `now - lastClickRef.current >= CLICK_DEBOUNCE_MS` */
  predicate Accepts(lastClick: int, now: int) {
    now - lastClick >= ClickDebounceMs
  }

  /** The last-accepted timestamp after the clicks `times`, starting from `initial`. */
  function LastAccepted(initial: int, times: seq<int>): int
  {
    if times == [] then initial
    else
      var before := LastAccepted(initial, times[..|times| - 1]);
      if Accepts(before, times[|times| - 1]) then times[|times| - 1] else before
  }

  /** The timestamps of the clicks whose action ran, in order. */
  function AcceptedTimes(initial: int, times: seq<int>): seq<int>
  {
    if times == [] then []
    else
      var before := LastAccepted(initial, times[..|times| - 1]);
      var acc := AcceptedTimes(initial, times[..|times| - 1]);
      if Accepts(before, times[|times| - 1]) then acc + [times[|times| - 1]] else acc
  }

  /**
   * Whatever the clock does (it need not even be monotone), every accepted
   * click is at least 150 ms after the initial timestamp, any two accepted
   * clicks are at least 150 ms apart, and the stored timestamp is the last
   * accepted one.
   */
  lemma {:induction false} AcceptedSpaced(initial: int, times: seq<int>)
    ensures var acc := AcceptedTimes(initial, times);
            && (acc == [] ==> LastAccepted(initial, times) == initial)
            && (acc != [] ==> LastAccepted(initial, times) == acc[|acc| - 1])
            && (forall i :: 0 <= i < |acc| ==> acc[i] - initial >= ClickDebounceMs)
            && (forall i, j :: 0 <= i < j < |acc| ==> acc[j] - acc[i] >= ClickDebounceMs)
  {
    if times != [] {
      var prefix := times[..|times| - 1];
      AcceptedSpaced(initial, prefix);
    }
  }

  /** Every accepted click is one of the clock readings. */
  lemma {:induction false} AcceptedAreReadings(initial: int, times: seq<int>)
    ensures |AcceptedTimes(initial, times)| <= |times|
    ensures forall t :: t in AcceptedTimes(initial, times) ==> t in times
  {
    if times != [] {
      AcceptedAreReadings(initial, times[..|times| - 1]);
    }
  }

  /** Because the timestamp starts at 0, a first click before 150 ms on the clock is ignored. */
  lemma EarlyFirstClickIgnored(now: int)
    requires now < ClickDebounceMs
    ensures AcceptedTimes(InitialLastClick, [now]) == []
  {
    assert [now][..0] == [];
  }

  /**
   * The per-row state: `lastClickRef.current`, and as ghost state the
   * clock readings of all clicks so far (accepted or not).
   */
  class RowState {
    var lastClick: int
    ghost var clicks: seq<int>

    ghost predicate Valid()
      reads this
    {
      lastClick == LastAccepted(InitialLastClick, clicks)
    }

    /** `useRef<number>(0)` */
    constructor ()
      ensures Valid()
      ensures lastClick == InitialLastClick && clicks == []
    {
      lastClick := InitialLastClick;
      clicks := [];
    }

    /**
     * `handleClick(action)` for the given button and current count: the
     * action (`onChange` with its argument, returned as `change`) runs iff
     * the click is accepted, and only then is the timestamp updated.
     */
    method HandleClick(now: int, button: Button, count: int) returns (change: Option<int>)
      requires Valid()
      modifies this
      ensures Valid()
      ensures clicks == old(clicks) + [now]
      ensures change.Some? <==> Accepts(old(lastClick), now)
      ensures change.Some? ==> change.value == Apply(button, count) && lastClick == now
      ensures change.None? ==> lastClick == old(lastClick)
      ensures AcceptedTimes(InitialLastClick, clicks) ==
                AcceptedTimes(InitialLastClick, old(clicks)) + (if change.Some? then [now] else [])
    {
      assert (clicks + [now])[..|clicks|] == clicks;
      clicks := clicks + [now];
      if now - lastClick >= ClickDebounceMs {
        lastClick := now;
        change := Some(Apply(button, count));
      } else {
        change := None;
      }
    }
  }
}
