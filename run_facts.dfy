/**
 * What one iteration of the control loop, and any number of successive
 * iterations, are guaranteed to do: the toggle parity, one status line per
 * edge naming the new state, the terminal lock taken and released within each
 * iteration, the LED pattern and levels, and the time spent in delays.
 */
module RunFacts {
  import opened Types
  import opened Events
  import opened ControlLoop
  import opened StatusLine

  // ---- one iteration ----

  /** The observers evaluated on the lock phase of an iteration. */
  lemma AnnounceObserved(now: bool, a: u16, b: u16)
    ensures var t := Announce(now, a, b);
      Prints(t) == [Print(now, a, b)] && LockAfter(Free, t) == Some(Free) &&
      Suspended(t) == SettleMs && Level(t, a) == None && Level(t, b) == None
  {
    var p := Print(now, a, b);
    assert Prints([Delay(SettleMs), Release]) == [];
    assert Prints([p, Delay(SettleMs), Release]) == [p];
    assert LockAfter(Held(false), [Release]) == Some(Free);
    assert LockAfter(Held(true), [Delay(SettleMs), Release]) == Some(Free);
    assert LockAfter(Held(false), [p, Delay(SettleMs), Release]) == Some(Free);
    assert Suspended([Release]) == 0;
    assert Suspended([Delay(SettleMs), Release]) == SettleMs;
    assert Suspended([p, Delay(SettleMs), Release]) == SettleMs;
  }

  /** The observers evaluated on the LED phase of an iteration. */
  lemma DriveObserved(enabled: bool, a: u16, b: u16, speed: u16)
    ensures var t := Drive(enabled, a, b, speed);
      Prints(t) == [] && LockAfter(Free, t) == Some(Free) &&
      Suspended(t) == (if enabled then 2 * speed as nat else 0) &&
      (a != b ==> Level(t, a) == Some(0) && Level(t, b) == Some(if enabled then 1 else 0))
  {
    var t := Drive(enabled, a, b, speed);
    PrintsNone(t);
    LockIdle(t);
    if enabled {
      var s := speed as nat;
      assert Suspended([Delay(s)]) == s;
      assert Suspended([Set(b, 1), Delay(s)]) == s;
      assert Suspended([Set(a, 0), Set(b, 1), Delay(s)]) == s;
      assert Suspended([Delay(s), Set(a, 0), Set(b, 1), Delay(s)]) == 2 * s;
      assert Suspended([Set(b, 0), Delay(s), Set(a, 0), Set(b, 1), Delay(s)]) == 2 * s;
      LevelAppend([Set(a, 1), Set(b, 0), Delay(s), Set(a, 0)], [Set(b, 1), Delay(s)], a);
      LevelAppend([Set(a, 1), Set(b, 0), Delay(s)], [Set(a, 0), Set(b, 1), Delay(s)], b);
      assert [Set(a, 1), Set(b, 0), Delay(s), Set(a, 0)] + [Set(b, 1), Delay(s)] == t;
      assert [Set(a, 1), Set(b, 0), Delay(s)] + [Set(a, 0), Set(b, 1), Delay(s)] == t;
    } else {
      assert Suspended([Set(b, 0)]) == 0;
    }
  }

  /** A status line is printed exactly on an edge, and it names the new state and both LED pins. */
  lemma StepPrints(enabled: bool, edge: bool, a: u16, b: u16, speed: u16)
    ensures Prints(StepEvents(enabled, edge, a, b, speed)) == if edge then [Print(!enabled, a, b)] else []
  {
    var lock := if edge then Announce(!enabled, a, b) else [];
    PrintsAppend(lock, Drive(Toggle(enabled, edge), a, b, speed));
    AnnounceObserved(!enabled, a, b);
    DriveObserved(Toggle(enabled, edge), a, b, speed);
  }

  /**
   * An iteration starts with the lock phase exactly when it saw an edge:
   * Reserve, the status line, the settle delay, Release. Every Reserve in it
   * is released within it, the status line is printed under the lock and
   * held for the settle delay before the release, and no LED is written
   * while the lock is held.
   */
  lemma StepLockBalanced(enabled: bool, edge: bool, a: u16, b: u16, speed: u16)
    ensures var t := StepEvents(enabled, edge, a, b, speed);
      LockBalanced(t) && (t[0] == Reserve <==> edge) &&
      (edge ==> t[..4] == [Reserve, Print(!enabled, a, b), Delay(SettleMs), Release])
  {
    var lock := if edge then Announce(!enabled, a, b) else [];
    var leds := Drive(Toggle(enabled, edge), a, b, speed);
    AnnounceObserved(!enabled, a, b);
    DriveObserved(Toggle(enabled, edge), a, b, speed);
    LockAfterAppend(Free, lock, leds);
  }

  /**
   * After the lock phase (four events on an edge, none otherwise) the
   * iteration either switches both LEDs off, or runs one blink cycle:
   * A on and B off, a half period, A off and B on, a half period.
   */
  lemma StepLedPattern(enabled: bool, edge: bool, a: u16, b: u16, speed: u16)
    ensures var t := StepEvents(enabled, edge, a, b, speed);
      var k := if edge then 4 else 0;
      k <= |t| &&
      t[k..] == if Toggle(enabled, edge)
        then [Set(a, 1), Set(b, 0), Delay(speed as nat), Set(a, 0), Set(b, 1), Delay(speed as nat)]
        else [Set(a, 0), Set(b, 0)]
  {
  }

  /** An iteration leaves LED A off, and LED B on exactly when the channel is enabled. */
  lemma StepLevels(enabled: bool, edge: bool, a: u16, b: u16, speed: u16)
    requires a != b
    ensures var t := StepEvents(enabled, edge, a, b, speed);
      Level(t, a) == Some(0) && Level(t, b) == Some(if Toggle(enabled, edge) then 1 else 0)
  {
    var lock := if edge then Announce(!enabled, a, b) else [];
    var leds := Drive(Toggle(enabled, edge), a, b, speed);
    DriveObserved(Toggle(enabled, edge), a, b, speed);
    LevelAppend(lock, leds, a);
    LevelAppend(lock, leds, b);
  }

  /**
   * An iteration waits the settle delay on an edge and two half periods when
   * enabled, and nothing else: a disabled iteration without an edge does not wait.
   */
  lemma StepSuspended(enabled: bool, edge: bool, a: u16, b: u16, speed: u16)
    ensures Suspended(StepEvents(enabled, edge, a, b, speed))
         == (if edge then SettleMs else 0) + (if Toggle(enabled, edge) then 2 * speed as nat else 0)
  {
    var lock := if edge then Announce(!enabled, a, b) else [];
    var leds := Drive(Toggle(enabled, edge), a, b, speed);
    AnnounceObserved(!enabled, a, b);
    DriveObserved(Toggle(enabled, edge), a, b, speed);
    SuspendedAppend(lock, leds);
  }

  // ---- successive iterations ----

  /** `enabled` ends flipped exactly when an odd number of edges was detected. */
  lemma {:induction false} ToggleParity(start: bool, edges: seq<bool>)
    ensures EnabledAfter(start, edges) == (start != (EdgeCount(edges) % 2 == 1))
  {
    if edges != [] {
      ToggleParity(start, edges[..|edges| - 1]);
    }
  }

  /**
   * A run prints one status line per detected edge and no other; the i-th
   * says "enabled" for even i when the run starts disabled (and the reverse
   * when it starts enabled), and every one names LED A's pin, then LED B's.
   */
  lemma {:induction false} AnnouncementsAlternate(start: bool, edges: seq<bool>, a: u16, b: u16, speed: u16)
    ensures var p := Prints(RunEvents(start, edges, a, b, speed));
      |p| == EdgeCount(edges) &&
      forall i :: 0 <= i < |p| ==> p[i] == Print(start == (i % 2 == 1), a, b)
  {
    if edges != [] {
      var k := |edges| - 1;
      var before := edges[..k];
      var now := EnabledAfter(start, before);
      var prior, step := RunEvents(start, before, a, b, speed), StepEvents(now, edges[k], a, b, speed);
      assert RunEvents(start, edges, a, b, speed) == prior + step;
      PrintsAppend(prior, step);
      var pp, ps := Prints(prior), Prints(step);
      AnnouncementsAlternate(start, before, a, b, speed);
      StepPrints(now, edges[k], a, b, speed);
      ToggleParity(start, before);
      var p := pp + ps;
      forall i | 0 <= i < |p| ensures p[i] == Print(start == (i % 2 == 1), a, b) {
        if i < |pp| {
          assert p[i] == pp[i];
        } else {
          assert i == EdgeCount(before) && p[i] == Print(!now, a, b);
        }
      }
    }
  }

  /**
   * What a run leaves on the terminal: one line per edge, and the i-th line
   * reads back as "enabled" for odd i and "disabled" for even i from a
   * disabled start (the other way round from an enabled one), naming
   * `led_a`'s pin and then `led_b`'s.
   */
  lemma RunConsole(start: bool, edges: seq<bool>, a: u16, b: u16, speed: u16)
    ensures var out := Console(RunEvents(start, edges, a, b, speed));
      |out| == EdgeCount(edges) &&
      forall i :: 0 <= i < |out| ==> Parse(out[i]) == Some(Report(start == (i % 2 == 1), a, b))
  {
    var t := RunEvents(start, edges, a, b, speed);
    AnnouncementsAlternate(start, edges, a, b, speed);
    ConsoleParses(t);
  }

  /**
   * Over any number of iterations every Reserve is released before the next
   * one and before any LED write, and every status line is held under the
   * lock for the settle delay before that release.
   */
  lemma {:induction false} RunLockBalanced(start: bool, edges: seq<bool>, a: u16, b: u16, speed: u16)
    ensures LockBalanced(RunEvents(start, edges, a, b, speed))
  {
    if edges != [] {
      var k := |edges| - 1;
      RunLockBalanced(start, edges[..k], a, b, speed);
      StepLockBalanced(EnabledAfter(start, edges[..k]), edges[k], a, b, speed);
      LockBalancedAppend(RunEvents(start, edges[..k], a, b, speed),
                         StepEvents(EnabledAfter(start, edges[..k]), edges[k], a, b, speed));
    }
  }

  /** After at least one iteration LED A is off, and LED B is on exactly when the channel is enabled. */
  lemma RunLevels(start: bool, edges: seq<bool>, a: u16, b: u16, speed: u16)
    requires a != b && edges != []
    ensures var t := RunEvents(start, edges, a, b, speed);
      Level(t, a) == Some(0) && Level(t, b) == Some(if EnabledAfter(start, edges) then 1 else 0)
  {
    var k := |edges| - 1;
    var prior := RunEvents(start, edges[..k], a, b, speed);
    var step := StepEvents(EnabledAfter(start, edges[..k]), edges[k], a, b, speed);
    StepLevels(EnabledAfter(start, edges[..k]), edges[k], a, b, speed);
    LevelAppend(prior, step, a);
    LevelAppend(prior, step, b);
  }

  /** `n` copies of `cycle`, one after another. */
  function Repeat(cycle: seq<Event>, n: nat): (r: seq<Event>)
    ensures |r| == n * |cycle|
  {
    if n == 0 then [] else Repeat(cycle, n - 1) + cycle
  }

  /**
   * Without edges the state never changes and every iteration repeats the
   * same LED half: both LEDs off with no output and no delay while disabled,
   * the (1,0) then (0,1) blink cycle while enabled.
   */
  lemma {:induction false} RunWithoutEdges(start: bool, edges: seq<bool>, a: u16, b: u16, speed: u16)
    requires forall i :: 0 <= i < |edges| ==> !edges[i]
    ensures EnabledAfter(start, edges) == start
    ensures RunEvents(start, edges, a, b, speed) == Repeat(Drive(start, a, b, speed), |edges|)
  {
    if edges != [] {
      var k := |edges| - 1;
      RunWithoutEdges(start, edges[..k], a, b, speed);
    }
  }
}
