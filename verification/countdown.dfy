/** The two countdown components (`cordis/Components/CountdownTimerView.swift`): the
    full-screen ring that counts the 15 seconds of a manual measurement and the compact
    variant driven by an `isActive` binding. The repeating one-second timer is the
    `timer` flag; a firing is only delivered while it is set. `completions` counts the
    calls of `onComplete`. */
module Countdown {
  import opened Wrappers

  datatype Ring = Ring(total: int, remaining: int, timer: bool, completions: nat)

  /** `init(totalSeconds:onComplete:)`: the count starts full and no timer runs. */
  function NewRing(total: int): (r: Ring)
    ensures r.remaining == r.total == total && !r.timer && r.completions == 0
  {
    Ring(total, total, false, 0)
  }

  /** `onAppear` schedules the timer; `onDisappear` stops it. */
  function Appear(c: Ring): (r: Ring)
    ensures r.timer && r.remaining == c.remaining && r.completions == c.completions
  {
    c.(timer := true)
  }

  function Disappear(c: Ring): (r: Ring)
    ensures !r.timer && r.remaining == c.remaining && r.completions == c.completions
  {
    c.(timer := false)
  }

  /** One firing: count down while above zero; on reaching zero stop the timer and
      complete. A count that starts at zero completes on the first firing. */
  function RingTick(c: Ring): (r: Ring)
    ensures c.remaining > 1 ==> r == c.(remaining := c.remaining - 1)
    ensures 0 <= c.remaining <= 1 ==>
              r.remaining == 0 && !r.timer && r.completions == c.completions + 1
    ensures c.remaining < 0 ==> r == c
  {
    var rem := if c.remaining > 0 then c.remaining - 1 else c.remaining;
    if rem == 0 then c.(remaining := 0, timer := false, completions := c.completions + 1)
    else c.(remaining := rem)
  }

  /** `n` seconds of wall time: firings arrive only while the timer runs. */
  function RingRun(c: Ring, n: nat): Ring
    decreases n
  {
    if n == 0 || !c.timer then c else RingRun(RingTick(c), n - 1)
  }

  /** A started countdown of `total >= 1` seconds completes exactly once, after exactly
      `total` seconds, and the count never goes below zero. */
  lemma {:induction false} RingCompletesOnce(c: Ring, n: nat)
    requires c.timer && 0 < c.remaining
    ensures RingRun(c, n).remaining == (if n < c.remaining then c.remaining - n else 0)
    ensures RingRun(c, n).completions == c.completions + (if n < c.remaining then 0 else 1)
    ensures RingRun(c, n).timer <==> n < c.remaining
    decreases n
  {
    if n > 0 {
      var d := RingTick(c);
      if c.remaining > 1 {
        RingCompletesOnce(d, n - 1);
      } else {
        assert !d.timer;
      }
    }
  }

  /** `progress`: the elapsed fraction. With a total of zero the source divides zero by
      zero; that case has no value here. */
  function Progress(total: int, remaining: int): (p: Option<real>)
    ensures p.Some? <==> total != 0
    ensures p.Some? && 0 <= remaining <= total ==> 0.0 <= p.value <= 1.0
    ensures p.Some? && remaining == total ==> p.value == 0.0
    ensures p.Some? && remaining == 0 ==> p.value == 1.0
    ensures p.Some? ==> p.value * total as real == (total - remaining) as real
  {
    if total == 0 then None
    else
      var q := (total - remaining) as real / total as real;
      QuotientTimes(q, (total - remaining) as real, total as real);
      Some(q)
  }

  lemma QuotientTimes(q: real, x: real, t: real)
    requires t != 0.0 && q == x / t
    ensures q * t == x
  {
  }

  /** The ring only fills up: less time remaining never shows less progress. */
  lemma ProgressMonotone(total: int, a: int, b: int)
    requires 0 < total && a <= b
    ensures Progress(total, b).value <= Progress(total, a).value
  {
    var t := total as real;
    assert (total - b) as real <= (total - a) as real;
    DivMonotone((total - b) as real, (total - a) as real, t);
  }

  lemma DivMonotone(x: real, y: real, t: real)
    requires x <= y && 0.0 < t
    ensures x / t <= y / t
  {
    assert y / t - x / t == (y - x) / t;
  }

  /** The compact countdown; `active` is the `isActive` binding. */
  datatype Compact = Compact(total: int, remaining: int, active: bool, timer: bool, completions: nat)

  function NewCompact(total: int, active: bool): (r: Compact)
    ensures r.remaining == total && !r.timer && r.completions == 0 && r.active == active
  {
    Compact(total, total, active, false, 0)
  }

  /** The timer only runs while the binding is on. */
  predicate CompactOk(c: Compact) {
    c.timer ==> c.active
  }

  /** Writing the binding. `onChange` fires only on a change: switching on restarts the
      count from the total and schedules the timer; switching off stops it. */
  function SetActive(c: Compact, v: bool): (r: Compact)
    ensures r.active == v && r.completions == c.completions
    ensures v && !c.active ==> r.timer && r.remaining == c.total
    ensures !v && c.active ==> !r.timer && r.remaining == c.remaining
    ensures v == c.active ==> r == c
  {
    if v == c.active then c
    else if v then c.(active := true, remaining := c.total, timer := true)
    else c.(active := false, timer := false)
  }

  /** The cancel button: stop the timer and switch off, without completing. */
  function Cancel(c: Compact): (r: Compact)
    ensures !r.active && !r.timer
    ensures r.completions == c.completions && r.remaining == c.remaining
  {
    SetActive(c.(timer := false), false)
  }

  /** One firing of the compact timer: as the ring, but completion also switches the
      binding off before calling `onComplete`. */
  function CompactTick(c: Compact): (r: Compact)
    ensures 0 <= c.remaining <= 1 ==>
              r.remaining == 0 && !r.timer && !r.active && r.completions == c.completions + 1
    ensures c.remaining > 1 ==> r == c.(remaining := c.remaining - 1)
    ensures c.remaining < 0 ==> r == c
  {
    var rem := if c.remaining > 0 then c.remaining - 1 else c.remaining;
    if rem == 0 then
      var off := SetActive(c.(remaining := 0, timer := false), false);
      off.(completions := off.completions + 1)
    else c.(remaining := rem)
  }

  datatype CompactEvent = Toggle(on: bool) | CancelPressed | Fire

  /** An event as the component receives it: firings arrive only while the timer runs. */
  function CompactStep(c: Compact, e: CompactEvent): (r: Compact)
    ensures CompactOk(c) ==> CompactOk(r)
    ensures r.completions == c.completions || (e == Fire && r.completions == c.completions + 1)
  {
    match e
    case Toggle(v) => SetActive(c, v)
    case CancelPressed => Cancel(c)
    case Fire => if c.timer then CompactTick(c) else c
  }

  function CompactRun(c: Compact, events: seq<CompactEvent>): Compact
    decreases |events|
  {
    if |events| == 0 then c else CompactRun(CompactStep(c, events[0]), events[1..])
  }

  /** How many times the events switch the binding on. */
  function SwitchOns(events: seq<CompactEvent>): nat {
    if |events| == 0 then 0
    else (if events[0] == Toggle(true) then 1 else 0) + SwitchOns(events[1..])
  }

  function Armed(c: Compact): nat {
    if c.timer then 1 else 0
  }

  /** Any sequence of events keeps the timer off whenever the binding is off, and
      `onComplete` runs at most once per activation: once for a timer already running,
      plus once for every time the binding is switched on. */
  lemma {:induction false} CompactCompletesOncePerActivation(c: Compact, events: seq<CompactEvent>)
    requires CompactOk(c)
    ensures CompactOk(CompactRun(c, events))
    ensures CompactRun(c, events).completions + Armed(CompactRun(c, events))
              <= c.completions + Armed(c) + SwitchOns(events)
    decreases |events|
  {
    if |events| > 0 {
      CompactCompletesOncePerActivation(CompactStep(c, events[0]), events[1..]);
    }
  }
}
