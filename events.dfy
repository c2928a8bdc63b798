/**
 * The observable actions of one channel's control loop, and the functions that
 * read a trace of them: the status lines it printed, the state of the terminal
 * lock, the level last written to an LED pin and the time spent in delays.
 */
module Events {
  import opened Types

  /** One side effect of the control loop, in the order it happens. */
  datatype Event =
    | Reserve                                     // semaphore_reserve(0)
    | Print(enabled: bool, pinA: u16, pinB: u16)  // the status line naming the new state and both LED pins
    | Delay(ms: nat)                              // delay_ms(ms)
    | Release                                     // semaphore_release(0)
    | Set(pin: u16, value: nat)                   // gpiod_line_set_value on the line at offset `pin`

  /** The status lines of a trace, in the order they were printed. */
  function Prints(t: seq<Event>): (r: seq<Event>)
    ensures |r| <= |t|
    ensures forall i :: 0 <= i < |r| ==> r[i].Print?
  {
    if t == [] then []
    else (if t[0].Print? then [t[0]] else []) + Prints(t[1..])
  }

  lemma {:induction false} PrintsAppend(a: seq<Event>, b: seq<Event>)
    ensures Prints(a + b) == Prints(a) + Prints(b)
  {
    if a == [] {
      assert a + b == b;
    } else {
      assert (a + b)[1..] == a[1..] + b;
      PrintsAppend(a[1..], b);
    }
  }

  /** A trace without status lines has none to report. */
  lemma {:induction false} PrintsNone(t: seq<Event>)
    requires forall i :: 0 <= i < |t| ==> !t[i].Print?
    ensures Prints(t) == []
  {
    if t != [] {
      PrintsNone(t[1..]);
    }
  }

  /** How long the terminal lock is held after a status line is printed. */
  const SettleMs: nat := 10

  /**
   * The terminal lock as seen by one channel: free, or held with a flag
   * saying whether a status line printed under it still awaits its settle delay.
   */
  datatype Lock = Free | Held(unsettled: bool)

  /**
   * Replays the lock events of `t` starting from `lock`, and gives the lock's
   * state at the end. None when the trace reserves the lock while it holds
   * it, prints without holding it, writes an LED while holding it, or
   * releases it without holding it or before a status line printed under it
   * has been followed by a delay of at least SettleMs.
   */
  function LockAfter(lock: Lock, t: seq<Event>): Option<Lock>
    decreases t
  {
    if t == [] then Some(lock)
    else match t[0]
      case Reserve => if lock.Held? then None else LockAfter(Held(false), t[1..])
      case Release => if lock.Held? && !lock.unsettled then LockAfter(Free, t[1..]) else None
      case Print(_, _, _) => if lock.Held? then LockAfter(Held(true), t[1..]) else None
      case Set(_, _) => if lock.Held? then None else LockAfter(lock, t[1..])
      case Delay(ms) =>
        if lock.Held? && ms >= SettleMs then LockAfter(Held(false), t[1..]) else LockAfter(lock, t[1..])
  }

  /**
   * Every Reserve is matched by a later Release; status lines are printed
   * only under the lock, and each is followed by the settle delay before the
   * lock is released; LEDs are written only outside the lock.
   */
  predicate LockBalanced(t: seq<Event>)
  {
    LockAfter(Free, t) == Some(Free)
  }

  lemma {:induction false} LockAfterAppend(lock: Lock, a: seq<Event>, b: seq<Event>)
    ensures LockAfter(lock, a + b) ==
      match LockAfter(lock, a)
      case None => None
      case Some(l) => LockAfter(l, b)
    decreases a
  {
    if a != [] {
      assert (a + b)[1..] == a[1..] + b;
      match a[0]
      case Reserve => LockAfterAppend(Held(false), a[1..], b);
      case Release => LockAfterAppend(Free, a[1..], b);
      case Print(_, _, _) => LockAfterAppend(Held(true), a[1..], b);
      case Set(_, _) => LockAfterAppend(lock, a[1..], b);
      case Delay(ms) =>
        if lock.Held? && ms >= SettleMs {
          LockAfterAppend(Held(false), a[1..], b);
        } else {
          LockAfterAppend(lock, a[1..], b);
        }
    } else {
      assert a + b == b;
    }
  }

  /** Releasing the lock before a printed status line has been held for SettleMs is refused. */
  lemma ReleaseBeforeSettleRefused(p: Event, ms: nat)
    requires p.Print? && ms < SettleMs
    ensures !LockBalanced([Reserve, p, Release, Delay(SettleMs)])
    ensures !LockBalanced([Reserve, p, Delay(ms), Release])
  {
    assert LockAfter(Held(true), [Release, Delay(SettleMs)]) == None;
    assert LockAfter(Held(false), [p, Release, Delay(SettleMs)]) == None;
    assert LockAfter(Held(true), [Release]) == None;
    assert LockAfter(Held(true), [Delay(ms), Release]) == None;
    assert LockAfter(Held(false), [p, Delay(ms), Release]) == None;
  }

  /** A trace of LED writes and delays leaves a free lock free. */
  lemma {:induction false} LockIdle(t: seq<Event>)
    requires forall i :: 0 <= i < |t| ==> t[i].Set? || t[i].Delay?
    ensures LockAfter(Free, t) == Some(Free)
  {
    if t != [] {
      LockIdle(t[1..]);
    }
  }

  /** Two balanced traces in a row are balanced. */
  lemma LockBalancedAppend(a: seq<Event>, b: seq<Event>)
    requires LockBalanced(a) && LockBalanced(b)
    ensures LockBalanced(a + b)
  {
    LockAfterAppend(Free, a, b);
  }

  /** The value last written to `pin` in `t`, or None when `t` never writes it. */
  function Level(t: seq<Event>, pin: u16): (r: Option<nat>)
    ensures r.Some? <==> exists i :: 0 <= i < |t| && t[i].Set? && t[i].pin == pin
  {
    if t == [] then None
    else
      var last := t[|t| - 1];
      if last.Set? && last.pin == pin then Some(last.value)
      else
        var r' := Level(t[..|t| - 1], pin);
        assert forall i :: 0 <= i < |t| - 1 ==> t[..|t| - 1][i] == t[i];
        r'
  }

  lemma {:induction false} LevelAppend(a: seq<Event>, b: seq<Event>, pin: u16)
    ensures Level(a + b, pin) == if Level(b, pin).Some? then Level(b, pin) else Level(a, pin)
  {
    if b == [] {
      assert a + b == a;
    } else {
      assert (a + b)[..|a + b| - 1] == a + b[..|b| - 1];
      LevelAppend(a, b[..|b| - 1], pin);
    }
  }

  /** The total time, in milliseconds, that the trace spends in delay_ms. */
  function Suspended(t: seq<Event>): (r: nat)
    ensures (forall i :: 0 <= i < |t| ==> !t[i].Delay?) ==> r == 0
  {
    if t == [] then 0
    else (if t[0].Delay? then t[0].ms else 0) + Suspended(t[1..])
  }

  lemma {:induction false} SuspendedAppend(a: seq<Event>, b: seq<Event>)
    ensures Suspended(a + b) == Suspended(a) + Suspended(b)
  {
    if a == [] {
      assert a + b == b;
    } else {
      assert (a + b)[1..] == a[1..] + b;
      SuspendedAppend(a[1..], b);
    }
  }
}
