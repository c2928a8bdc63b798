/**
 * One LED channel: a button that toggles blinking of two LEDs, and the control
 * loop that polls it. The pure functions below say what one iteration and a
 * run of iterations do; the class Channel holds the channel record and runs
 * the iterations in place, recording their side effects in a ghost trace.
 */
module ControlLoop {
  import opened Types
  import opened Events

  /** The value of `enabled` after the edge check: flipped by a detected edge, otherwise kept. */
  function Toggle(enabled: bool, edge: bool): bool
  {
    if edge then !enabled else enabled
  }

  /** What an iteration does on a detected edge, once `enabled` has become `now`. */
  function Announce(now: bool, a: u16, b: u16): seq<Event>
  {
    [Reserve, Print(now, a, b), Delay(SettleMs), Release]
  }

  /** The LED half of an iteration: both off, or one blink cycle of `speed` ms per half. */
  function Drive(enabled: bool, a: u16, b: u16, speed: u16): seq<Event>
  {
    if !enabled then [Set(a, 0), Set(b, 0)]
    else [Set(a, 1), Set(b, 0), Delay(speed as nat), Set(a, 0), Set(b, 1), Delay(speed as nat)]
  }

  /** The side effects of one iteration of the loop, entered with `enabled`. */
  function StepEvents(enabled: bool, edge: bool, a: u16, b: u16, speed: u16): seq<Event>
  {
    (if edge then Announce(Toggle(enabled, edge), a, b) else []) + Drive(Toggle(enabled, edge), a, b, speed)
  }

  /** The value of `enabled` after one iteration per element of `edges`. */
  function EnabledAfter(enabled: bool, edges: seq<bool>): bool
  {
    if edges == [] then enabled
    else Toggle(EnabledAfter(enabled, edges[..|edges| - 1]), edges[|edges| - 1])
  }

  /** The side effects of one iteration per element of `edges`, in order. */
  function RunEvents(enabled: bool, edges: seq<bool>, a: u16, b: u16, speed: u16): seq<Event>
  {
    if edges == [] then []
    else
      var k := |edges| - 1;
      RunEvents(enabled, edges[..k], a, b, speed) + StepEvents(EnabledAfter(enabled, edges[..k]), edges[k], a, b, speed)
  }

  /** The number of detected edges. */
  function EdgeCount(edges: seq<bool>): nat
  {
    if edges == [] then 0
    else EdgeCount(edges[..|edges| - 1]) + (if edges[|edges| - 1] then 1 else 0)
  }

  /** What one poll of the button gives: whether it saw a rising edge, and the level it stored. */
  datatype Poll = Poll(edge: bool, sampled: u8)

  /** The edge flags of a series of polls. */
  function Edges(polls: seq<Poll>): (edges: seq<bool>)
    ensures |edges| == |polls|
  {
    if polls == [] then [] else Edges(polls[..|polls| - 1]) + [polls[|polls| - 1].edge]
  }

  /** The value last_input_value holds after `polls`, having held `initial` before them. */
  function LastSampled(initial: u8, polls: seq<Poll>): u8
  {
    if polls == [] then initial else polls[|polls| - 1].sampled
  }

  lemma EdgesSnoc(polls: seq<Poll>, i: nat)
    requires i < |polls|
    ensures Edges(polls[..i + 1]) == Edges(polls[..i]) + [polls[i].edge]
  {
    assert polls[..i + 1][..i] == polls[..i];
  }

  /** One more iteration extends the run by exactly one step. */
  lemma RunSnoc(prior: seq<Event>, enabled: bool, edges: seq<bool>, edge: bool, a: u16, b: u16, speed: u16,
                before: seq<Event>, after: seq<Event>)
    requires before == prior + RunEvents(enabled, edges, a, b, speed)
    requires after == before + StepEvents(EnabledAfter(enabled, edges), edge, a, b, speed)
    ensures EnabledAfter(enabled, edges + [edge]) == Toggle(EnabledAfter(enabled, edges), edge)
    ensures after == prior + RunEvents(enabled, edges + [edge], a, b, speed)
  {
    assert (edges + [edge])[..|edges|] == edges;
    var done, step := RunEvents(enabled, edges, a, b, speed), StepEvents(EnabledAfter(enabled, edges), edge, a, b, speed);
    assert RunEvents(enabled, edges + [edge], a, b, speed) == done + step;
    assert after == prior + (done + step) by {
      assert |after| == |prior| + |done| + |step|;
      forall i | 0 <= i < |after|
        ensures after[i] == (prior + (done + step))[i]
      {
        if i >= |prior| + |done| {
          assert after[i] == step[i - |prior| - |done|];
        } else if i >= |prior| {
          assert after[i] == before[i] == done[i - |prior|];
        }
      }
    }
  }

  /** The channel record handed to the loop: LED and button lines (as pin offsets), period and state. */
  class Channel {
    var ledA: u16
    var ledB: u16
    var button: u16
    var blinkSpeedMs: u16
    var enabled: bool
    var lastInputValue: u8

    /** Every side effect of the loop on this channel so far. */
    ghost var trace: seq<Event>

    constructor (ledA: u16, ledB: u16, button: u16, blinkSpeedMs: u16)
      ensures this.ledA == ledA && this.ledB == ledB && this.button == button
      ensures this.blinkSpeedMs == blinkSpeedMs
      ensures !enabled && lastInputValue == 0 && trace == []
    {
      this.ledA := ledA;
      this.ledB := ledB;
      this.button := button;
      this.blinkSpeedMs := blinkSpeedMs;
      enabled := false;
      lastInputValue := 0;
      trace := [];
    }

    /**
     * One iteration of the loop. `edge` is what the poll of the button
     * reported and `sampled` the value the poll left in last_input_value.
     */
    method Step(edge: bool, sampled: u8)
      modifies this`enabled, this`lastInputValue, this`trace
      ensures lastInputValue == sampled
      ensures edge ==> enabled == !old(enabled)
      ensures !edge ==> enabled == old(enabled)
      ensures trace == old(trace) + StepEvents(old(enabled), edge, ledA, ledB, blinkSpeedMs)
    {
      lastInputValue := sampled;
      if edge {
        trace := trace + [Reserve];
        enabled := !enabled;
        trace := trace + [Print(enabled, ledA, ledB)];
        trace := trace + [Delay(SettleMs)];
        trace := trace + [Release];
      }
      if !enabled {
        trace := trace + [Set(ledA, 0), Set(ledB, 0)];
      } else {
        trace := trace + [Set(ledA, 1), Set(ledB, 0), Delay(blinkSpeedMs as nat)];
        trace := trace + [Set(ledA, 0), Set(ledB, 1), Delay(blinkSpeedMs as nat)];
      }
    }

    /** The first |polls| iterations of the endless loop, one poll result each. */
    method Run(polls: seq<Poll>)
      modifies this`enabled, this`lastInputValue, this`trace
      ensures lastInputValue == LastSampled(old(lastInputValue), polls)
      ensures enabled == EnabledAfter(old(enabled), Edges(polls))
      ensures trace == old(trace) + RunEvents(old(enabled), Edges(polls), ledA, ledB, blinkSpeedMs)
    {
      ghost var e0, t0, l0 := enabled, trace, lastInputValue;
      ghost var seen: seq<bool> := [];
      var i := 0;
      while i < |polls|
        invariant 0 <= i <= |polls| && seen == Edges(polls[..i])
        invariant lastInputValue == LastSampled(l0, polls[..i])
        invariant enabled == EnabledAfter(e0, seen)
        invariant trace == t0 + RunEvents(e0, seen, ledA, ledB, blinkSpeedMs)
      {
        EdgesSnoc(polls, i);
        ghost var before := trace;
        Step(polls[i].edge, polls[i].sampled);
        RunSnoc(t0, e0, seen, polls[i].edge, ledA, ledB, blinkSpeedMs, before, trace);
        seen := seen + [polls[i].edge];
        i := i + 1;
      }
      assert polls[..i] == polls;
    }
  }

  /** The two channels main sets up, before their threads start. */
  method Bootstrap() returns (first: Channel, second: Channel)
    ensures fresh(first) && fresh(second)
    ensures first.ledA == 17 && first.ledB == 23 && first.button == 27 && first.blinkSpeedMs == 100
    ensures second.ledA == 22 && second.ledB == 24 && second.button == 25 && second.blinkSpeedMs == 500
    ensures !first.enabled && first.lastInputValue == 0 && first.trace == []
    ensures !second.enabled && second.lastInputValue == 0 && second.trace == []
    ensures {first.ledA, first.ledB, first.button} !! {second.ledA, second.ledB, second.button}
  {
    first := new Channel(17, 23, 27, 100);
    second := new Channel(22, 24, 25, 500);
  }
}
