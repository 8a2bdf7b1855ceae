/** NoiseGateProcessor of client/src/lib/noiseGate.ts: a hysteresis gate over levels and times.  Gains and times are
    real numbers. */
module NoiseGates {

  datatype Config = Config(
    openThreshold: real, closeThreshold: real, attackMs: real, releaseMs: real, holdMs: real, floorGain: real)

  /** What the comments of the configuration ask for. */
  predicate Sensible(c: Config) {
    && c.closeThreshold <= c.openThreshold && c.attackMs > 0.0 && c.releaseMs > 0.0 && c.holdMs >= 0.0
    && 0.0 <= c.floorGain <= 1.0
  }

  datatype Phase = Open | Hold | Closing | Closed

  datatype Gate = Gate(phase: Phase, holdUntil: real, lastTime: real, gain: real)

  function Min(a: real, b: real): real { if a <= b then a else b }

  function Max(a: real, b: real): real { if a <= b then b else a }

  /** One tick at time now that measured the given level. */
  function Step(c: Config, g: Gate, level: real, now: real): Gate
    requires Sensible(c)
  {
    var dt := now - g.lastTime;
    var t := g.(lastTime := now);
    match g.phase
    case Closed =>
      if level >= c.openThreshold then t.(phase := Open, gain := Min(g.gain + dt / c.attackMs, 1.0)) else t
    case Open =>
      var r := if g.gain < 1.0 then t.(gain := Min(g.gain + dt / c.attackMs, 1.0)) else t;
      if level < c.closeThreshold then r.(phase := Hold, holdUntil := now + c.holdMs) else r
    case Hold =>
      if level >= c.openThreshold then t.(phase := Open)
      else if now >= g.holdUntil then t.(phase := Closing)
      else t
    case Closing =>
      if level >= c.openThreshold then t.(phase := Open)
      else
        var target := Max(g.gain - dt / c.releaseMs, c.floorGain);
        t.(gain := target, phase := if target <= c.floorGain then Closed else Closing)
  }

  function Abs(x: real): real { if x < 0.0 then -x else x }

  /** The largest absolute sample, or 0. */
  function Peak(samples: seq<real>): (p: real)
    ensures 0.0 <= p && forall i :: 0 <= i < |samples| ==> Abs(samples[i]) <= p
    ensures p == 0.0 || exists i :: 0 <= i < |samples| && Abs(samples[i]) == p
  {
    if samples == [] then 0.0
    else
      var p := Peak(samples[..|samples| - 1]);
      var last := Abs(samples[|samples| - 1]);
      if last > p then last else p
  }

  /** `peak > 0 ? 20 * Math.log10(peak) : -100` */
  function Level(samples: seq<real>, log10: real -> real): real {
    var p := Peak(samples);
    if p > 0.0 then 20.0 * log10(p) else -100.0
  }

  class NoiseGateProcessor {
    const config: Config
    var phase: Phase
    var holdUntil: real
    var lastTime: real
    var gain: real

    ghost function View(): Gate
      reads this
    {
      Gate(phase, holdUntil, lastTime, gain)
    }

    /** The constructor and the part of setup that starts the gate. */
    constructor (config: Config, now: real)
      ensures this.config == config && View() == Gate(Closed, 0.0, now, config.floorGain)
    {
      this.config := config;
      phase, holdUntil, lastTime, gain := Closed, 0.0, now, config.floorGain;
    }

    method Measure(samples: seq<real>, log10: real -> real) returns (dbfs: real)
      ensures dbfs == Level(samples, log10)
    {
      var peak := 0.0;
      for i := 0 to |samples|
        invariant peak == Peak(samples[..i])
      {
        var abs := Abs(samples[i]);
        assert samples[..i + 1][..i] == samples[..i];
        if abs > peak { peak := abs; }
      }
      assert samples[..|samples|] == samples;
      dbfs := if peak > 0.0 then 20.0 * log10(peak) else -100.0;
    }

    method Tick(samples: seq<real>, log10: real -> real, now: real)
      requires Sensible(config)
      modifies this
      ensures View() == Step(config, old(View()), Level(samples, log10), now)
    {
      var dt := now - lastTime;
      lastTime := now;
      var dbfs := Measure(samples, log10);
      var currentGain := gain;
      match phase
      case Closed =>
        if dbfs >= config.openThreshold {
          phase := Open;
          gain := Min(currentGain + dt / config.attackMs, 1.0);
        }
      case Open =>
        if currentGain < 1.0 { gain := Min(currentGain + dt / config.attackMs, 1.0); }
        if dbfs < config.closeThreshold {
          phase := Hold;
          holdUntil := now + config.holdMs;
        }
      case Hold =>
        if dbfs >= config.openThreshold { phase := Open; }
        else if now >= holdUntil { phase := Closing; }
      case Closing =>
        if dbfs >= config.openThreshold {
          phase := Open;
        } else {
          var releaseTarget := Max(currentGain - dt / config.releaseMs, config.floorGain);
          gain := releaseTarget;
          if releaseTarget <= config.floorGain { phase := Closed; }
        }
    }
  }

  // ---- Runs ----

  datatype Tick = Tick(level: real, now: real)

  function Run(c: Config, g: Gate, ticks: seq<Tick>): Gate
    requires Sensible(c)
    decreases |ticks|
  {
    if ticks == [] then g
    else
      var last := ticks[|ticks| - 1];
      Step(c, Run(c, g, ticks[..|ticks| - 1]), last.level, last.now)
  }

  /** The clock does not run backwards. */
  ghost predicate Ordered(start: real, ticks: seq<Tick>) {
    && (forall i :: 0 <= i < |ticks| ==> start <= ticks[i].now)
    && forall i, j :: 0 <= i < j < |ticks| ==> ticks[i].now <= ticks[j].now
  }

  function LastTime(start: real, ticks: seq<Tick>): real {
    if ticks == [] then start else ticks[|ticks| - 1].now
  }

  lemma {:induction false} RunTime(c: Config, g: Gate, ticks: seq<Tick>)
    requires Sensible(c) && Ordered(g.lastTime, ticks)
    ensures Run(c, g, ticks).lastTime == LastTime(g.lastTime, ticks)
    ensures ticks != [] ==> LastTime(g.lastTime, ticks[..|ticks| - 1]) <= LastTime(g.lastTime, ticks)
    ensures ticks != [] ==> Ordered(g.lastTime, ticks[..|ticks| - 1])
    decreases |ticks|
  {
  }

  lemma QuotientIff(e: real, r: real, x: real)
    requires r > 0.0
    ensures e / r >= x <==> e >= r * x
    ensures e >= 0.0 ==> e / r >= 0.0
  {
    var q := e / r;
    assert q * r == e;
    if q >= x { MonotoneTimes(r, x, q); } else { MonotoneTimes(r, q, x); }
    if e >= 0.0 && q < 0.0 { assert false by { NegativeTimes(q, r); } }
  }

  lemma MonotoneTimes(r: real, x: real, y: real)
    requires r > 0.0 && x <= y
    ensures r * x <= r * y && (x < y ==> r * x < r * y)
  {
  }

  lemma NegativeTimes(q: real, r: real)
    requires q < 0.0 && r > 0.0
    ensures q * r < 0.0
  {
  }

  lemma QuotientSum(a: real, b: real, r: real)
    requires r > 0.0
    ensures (a + b) / r == a / r + b / r
  {
  }

  // ---- The gain ----

  ghost predicate GainOk(c: Config, g: Gate) {
    c.floorGain <= g.gain <= 1.0 && (g.phase == Closed ==> g.gain == c.floorGain)
  }

  lemma StepKeepsGain(c: Config, g: Gate, level: real, now: real)
    requires Sensible(c) && GainOk(c, g) && g.lastTime <= now
    ensures GainOk(c, Step(c, g, level, now))
    ensures Step(c, g, level, now).gain < g.gain ==> g.phase == Closing && level < c.openThreshold
  {
    QuotientIff(now - g.lastTime, c.attackMs, 0.0);
    QuotientIff(now - g.lastTime, c.releaseMs, 0.0);
  }

  /** After any run from a closed gate the gain lies between the floor and 1, and a closed gate is at the floor. */
  lemma {:induction false} RunKeepsGain(c: Config, g: Gate, ticks: seq<Tick>)
    requires Sensible(c) && GainOk(c, g) && Ordered(g.lastTime, ticks)
    ensures GainOk(c, Run(c, g, ticks))
    decreases |ticks|
  {
    if ticks != [] {
      RunTime(c, g, ticks);
      RunTime(c, g, ticks[..|ticks| - 1]);
      RunKeepsGain(c, g, ticks[..|ticks| - 1]);
      var last := ticks[|ticks| - 1];
      StepKeepsGain(c, Run(c, g, ticks[..|ticks| - 1]), last.level, last.now);
    }
  }

  // ---- The gate closes only after a quiet hold time ----

  ghost predicate Quiet(c: Config, ticks: seq<Tick>, from: nat) {
    forall i :: from <= i < |ticks| ==> ticks[i].level < c.openThreshold
  }

  /** The hold began at tick h and nothing loud was measured since. */
  ghost predicate HeldSince(c: Config, ticks: seq<Tick>, h: nat, until: real) {
    h < |ticks| && ticks[h].level < c.closeThreshold && Quiet(c, ticks, h) && until == ticks[h].now + c.holdMs
  }

  ghost predicate HoldOk(c: Config, g: Gate, ticks: seq<Tick>) {
    && (g.phase == Hold ==> exists h: nat :: HeldSince(c, ticks, h, g.holdUntil))
    && (g.phase == Closing ==>
          exists h: nat :: HeldSince(c, ticks, h, g.holdUntil) && g.holdUntil <= g.lastTime)
  }

  lemma {:induction false} RunHolds(c: Config, g: Gate, ticks: seq<Tick>)
    requires Sensible(c) && g.phase == Closed && Ordered(g.lastTime, ticks)
    ensures HoldOk(c, Run(c, g, ticks), ticks)
    decreases |ticks|
  {
    if ticks != [] {
      var init, last := ticks[..|ticks| - 1], ticks[|ticks| - 1];
      var before, after := Run(c, g, init), Run(c, g, ticks);
      RunTime(c, g, ticks);
      RunTime(c, g, init);
      RunHolds(c, g, init);
      if after.phase == Hold && before.phase == Open {
        assert HeldSince(c, ticks, |ticks| - 1, after.holdUntil);
      } else if after.phase == Hold || after.phase == Closing {
        var h: nat :| HeldSince(c, init, h, before.holdUntil);
        assert HeldSince(c, ticks, h, after.holdUntil);
      }
    }
  }

  /** Tick h measured below the close threshold, every tick since below the open threshold, and the hold time has
      passed at the last one. */
  ghost predicate QuietSpan(c: Config, ticks: seq<Tick>, h: nat) {
    h < |ticks| && ticks[h].level < c.closeThreshold && Quiet(c, ticks, h)
    && ticks[h].now + c.holdMs <= ticks[|ticks| - 1].now
  }

  lemma ClosingSpan(c: Config, before: Gate, init: seq<Tick>, last: Tick)
    requires before.phase == Closing && HoldOk(c, before, init)
    requires before.lastTime <= last.now && last.level < c.openThreshold
    ensures exists h: nat :: QuietSpan(c, init + [last], h)
  {
    var h: nat :| HeldSince(c, init, h, before.holdUntil) && before.holdUntil <= before.lastTime;
    assert QuietSpan(c, init + [last], h);
  }

  /** When a tick lowers the gain, some earlier tick measured below the close threshold, every tick since measured below
      the open threshold, and they span at least the hold time. */
  lemma GainFallsOnlyAfterHold(c: Config, g: Gate, ticks: seq<Tick>, last: Tick)
    requires Sensible(c) && g.phase == Closed && GainOk(c, g) && Ordered(g.lastTime, ticks + [last])
    requires Step(c, Run(c, g, ticks), last.level, last.now).gain < Run(c, g, ticks).gain
    ensures exists h: nat :: QuietSpan(c, ticks + [last], h)
  {
    assert Ordered(g.lastTime, ticks) && LastTime(g.lastTime, ticks) <= last.now by {
      RunTime(c, g, ticks + [last]);
      assert (ticks + [last])[..|ticks|] == ticks;
    }
    RunTime(c, g, ticks);
    RunKeepsGain(c, g, ticks);
    RunHolds(c, g, ticks);
    FallSpan(c, Run(c, g, ticks), ticks, last);
  }

  lemma FallSpan(c: Config, before: Gate, ticks: seq<Tick>, last: Tick)
    requires Sensible(c) && GainOk(c, before) && HoldOk(c, before, ticks) && before.lastTime <= last.now
    requires Step(c, before, last.level, last.now).gain < before.gain
    ensures exists h: nat :: QuietSpan(c, ticks + [last], h)
  {
    StepKeepsGain(c, before, last.level, last.now);
    ClosingSpan(c, before, ticks, last);
  }

  // ---- Hysteresis ----

  ghost predicate InBand(c: Config, ticks: seq<Tick>) {
    forall i :: 0 <= i < |ticks| ==> c.closeThreshold <= ticks[i].level < c.openThreshold
  }

  /** A level between the thresholds moves neither an open nor a closed gate, however long it lasts. */
  lemma {:induction false} BandMovesNothing(c: Config, g: Gate, ticks: seq<Tick>)
    requires Sensible(c) && g.phase in {Open, Closed} && InBand(c, ticks) && Ordered(g.lastTime, ticks)
    ensures var r := Run(c, g, ticks);
            r.phase == g.phase && g.gain <= r.gain && (g.phase == Closed ==> r.gain == g.gain)
    decreases |ticks|
  {
    if ticks != [] {
      var init, last := ticks[..|ticks| - 1], ticks[|ticks| - 1];
      RunTime(c, g, ticks);
      RunTime(c, g, init);
      BandMovesNothing(c, g, init);
      QuotientIff(last.now - Run(c, g, init).lastTime, c.attackMs, 0.0);
    }
  }

  // ---- How long it takes ----

  /** A gate that was closing at gain g0 at time t0 and has heard nothing loud since. */
  ghost predicate Released(c: Config, g: Gate, g0: real, t0: real)
    requires Sensible(c)
  {
    if g.lastTime - t0 >= c.releaseMs * (g0 - c.floorGain) then g.phase == Closed && g.gain == c.floorGain
    else g.phase == Closing && g.gain == g0 - (g.lastTime - t0) / c.releaseMs
  }

  lemma ReleasedStep(c: Config, g: Gate, level: real, now: real, g0: real, t0: real)
    requires Sensible(c) && level < c.openThreshold && g.lastTime <= now
    requires Released(c, g, g0, t0) || (g.phase == Closing && g.gain == g0 && g.lastTime == t0)
    ensures Released(c, Step(c, g, level, now), g0, t0)
  {
    QuotientIff(now - t0, c.releaseMs, g0 - c.floorGain);
    QuotientSum(g.lastTime - t0, now - g.lastTime, c.releaseMs);
  }

  /** While a closing gate hears nothing loud, its gain falls in proportion to the time that passed, and the gate is
      closed at the floor from the first tick at which releaseMs * (gain - floor) have passed. */
  lemma {:induction false} ReleaseTakes(c: Config, g: Gate, ticks: seq<Tick>)
    requires Sensible(c) && g.phase == Closing && ticks != []
    requires Quiet(c, ticks, 0) && Ordered(g.lastTime, ticks)
    ensures Released(c, Run(c, g, ticks), g.gain, g.lastTime)
    decreases |ticks|
  {
    var init, last := ticks[..|ticks| - 1], ticks[|ticks| - 1];
    RunTime(c, g, ticks);
    RunTime(c, g, init);
    if init != [] {
      ReleaseTakes(c, g, init);
    }
    ReleasedStep(c, Run(c, g, init), last.level, last.now, g.gain, g.lastTime);
  }

  /** A gain that rises from one time to another, until it is 1. */
  function Risen(gain: real, from: real, to: real, attackMs: real): real
    requires attackMs > 0.0
  {
    Min(gain + (to - from) / attackMs, 1.0)
  }

  lemma RisesAdd(gain: real, a: real, b: real, d: real, attackMs: real)
    requires attackMs > 0.0 && b <= d
    ensures Risen(Risen(gain, a, b, attackMs), b, d, attackMs) == Risen(gain, a, d, attackMs)
  {
    QuotientSum(b - a, d - b, attackMs);
    QuotientIff(d - b, attackMs, 0.0);
  }

  /** While an open gate hears nothing below the close threshold it stays open, and up to the tick that does its gain
      rises in proportion to the time that passed until it is 1. */
  lemma {:induction false} AttackTakes(c: Config, g: Gate, ticks: seq<Tick>)
    requires Sensible(c) && g.phase == Open && GainOk(c, g) && Ordered(g.lastTime, ticks)
    requires forall i :: 0 <= i < |ticks| - 1 ==> ticks[i].level >= c.closeThreshold
    ensures var r := Run(c, g, ticks);
            && r.gain == Risen(g.gain, g.lastTime, LastTime(g.lastTime, ticks), c.attackMs)
            && (r.phase == Open <==> ticks == [] || ticks[|ticks| - 1].level >= c.closeThreshold)
    decreases |ticks|
  {
    if ticks != [] {
      var init, last := ticks[..|ticks| - 1], ticks[|ticks| - 1];
      var before := LastTime(g.lastTime, init);
      RunTime(c, g, ticks);
      RunTime(c, g, init);
      AttackTakes(c, g, init);
      QuotientIff(last.now - before, c.attackMs, 0.0);
      RisesAdd(g.gain, g.lastTime, before, last.now, c.attackMs);
    }
  }

  lemma {:induction false} RunFirst(c: Config, g: Gate, first: Tick, ticks: seq<Tick>)
    requires Sensible(c)
    ensures Run(c, g, [first] + ticks) == Run(c, Step(c, g, first.level, first.now), ticks)
    decreases |ticks|
  {
    var all := [first] + ticks;
    if ticks == [] {
      assert all[..0] == [] && all == [first];
    } else {
      assert all[..|all| - 1] == [first] + ticks[..|ticks| - 1];
      RunFirst(c, g, first, ticks[..|ticks| - 1]);
    }
  }

  lemma OrderedLast(start: real, ticks: seq<Tick>)
    requires Ordered(start, ticks)
    ensures start <= LastTime(start, ticks)
  {
  }

  lemma OrderedRest(start: real, first: Tick, ticks: seq<Tick>)
    requires Ordered(start, [first] + ticks)
    ensures start <= first.now && Ordered(first.now, ticks)
  {
    var all := [first] + ticks;
    assert all[0] == first && forall i :: 0 <= i < |ticks| ==> all[i + 1] == ticks[i];
    forall i | 0 <= i < |ticks| ensures first.now <= ticks[i].now { assert all[0].now <= all[i + 1].now; }
    forall i, j | 0 <= i < j < |ticks| ensures ticks[i].now <= ticks[j].now {
      assert all[i + 1].now <= all[j + 1].now;
    }
  }

  lemma OpensThen(c: Config, g: Gate, first: Tick, ticks: seq<Tick>)
    requires Sensible(c) && g.phase == Closed && GainOk(c, g) && g.lastTime <= first.now && Ordered(first.now, ticks)
    requires first.level >= c.openThreshold
    requires forall i :: 0 <= i < |ticks| - 1 ==> ticks[i].level >= c.closeThreshold
    ensures var r := Run(c, Step(c, g, first.level, first.now), ticks);
            && r.gain == Risen(g.gain, g.lastTime, LastTime(first.now, ticks), c.attackMs)
            && (r.phase == Open <==> ticks == [] || ticks[|ticks| - 1].level >= c.closeThreshold)
  {
    var risen := Step(c, g, first.level, first.now);
    StepKeepsGain(c, g, first.level, first.now);
    assert risen == Gate(Open, g.holdUntil, first.now, Risen(g.gain, g.lastTime, first.now, c.attackMs));
    OrderedLast(first.now, ticks);
    AttackTakes(c, risen, ticks);
    RisesAdd(g.gain, g.lastTime, first.now, LastTime(first.now, ticks), c.attackMs);
  }

  /** A closed gate opens at the first loud tick, and from the tick before it the gain rises as long as nothing is below
      the close threshold. */
  lemma OpeningTakes(c: Config, g: Gate, first: Tick, ticks: seq<Tick>)
    requires Sensible(c) && g.phase == Closed && GainOk(c, g) && Ordered(g.lastTime, [first] + ticks)
    requires first.level >= c.openThreshold
    requires forall i :: 0 <= i < |ticks| - 1 ==> ticks[i].level >= c.closeThreshold
    ensures var r := Run(c, g, [first] + ticks);
            && r.gain == Risen(c.floorGain, g.lastTime, LastTime(first.now, ticks), c.attackMs)
            && (r.phase == Open <==> ticks == [] || ticks[|ticks| - 1].level >= c.closeThreshold)
  {
    OrderedRest(g.lastTime, first, ticks);
    RunFirst(c, g, first, ticks);
    OpensThen(c, g, first, ticks);
  }

  // ---- The phases, from the levels alone ----

  /** A loud tick, and since then nothing below the close threshold. */
  ghost predicate Loud(c: Config, ticks: seq<Tick>) {
    exists h :: 0 <= h < |ticks| && ticks[h].level >= c.openThreshold && Above(c, ticks, h + 1)
  }

  ghost predicate Above(c: Config, ticks: seq<Tick>, from: nat) {
    forall i :: from <= i < |ticks| ==> ticks[i].level >= c.closeThreshold
  }

  lemma LoudSnoc(c: Config, ticks: seq<Tick>, last: Tick)
    requires Sensible(c)
    ensures Loud(c, ticks + [last])
            <==> last.level >= c.openThreshold || (Loud(c, ticks) && last.level >= c.closeThreshold)
  {
    var all := ticks + [last];
    if last.level >= c.openThreshold {
      assert all[|ticks|].level >= c.openThreshold && Above(c, all, |ticks| + 1);
    }
    if Loud(c, ticks) && last.level >= c.closeThreshold {
      var h :| 0 <= h < |ticks| && ticks[h].level >= c.openThreshold && Above(c, ticks, h + 1);
      assert all[h] == ticks[h] && Above(c, all, h + 1);
    }
    if Loud(c, all) {
      var h :| 0 <= h < |all| && all[h].level >= c.openThreshold && Above(c, all, h + 1);
      if h < |ticks| {
        assert all[|ticks|] == last && ticks[h] == all[h];
        assert Above(c, ticks, h + 1) by {
          forall i | h + 1 <= i < |ticks| ensures ticks[i].level >= c.closeThreshold { assert all[i] == ticks[i]; }
        }
      }
    }
  }

  /** In every run from a gate that is not open, the gate is open iff some tick was loud and none since was below the
      close threshold. */
  lemma {:induction false} OpenIff(c: Config, g: Gate, ticks: seq<Tick>)
    requires Sensible(c) && g.phase != Open
    ensures Run(c, g, ticks).phase == Open <==> Loud(c, ticks)
    decreases |ticks|
  {
    if ticks != [] {
      var init, last := ticks[..|ticks| - 1], ticks[|ticks| - 1];
      assert ticks == init + [last];
      OpenIff(c, g, init);
      LoudSnoc(c, init, last);
    }
  }

  /** The gate was open before tick q, which was below the close threshold; nothing since was loud, and nothing since
      came as late as the hold time. */
  ghost predicate HoldsSince(c: Config, g: Gate, ticks: seq<Tick>, q: nat)
    requires Sensible(c)
  {
    && q < |ticks| && Run(c, g, ticks[..q]).phase == Open && ticks[q].level < c.closeThreshold
    && forall i :: q < i < |ticks| ==> ticks[i].level < c.openThreshold && ticks[i].now < ticks[q].now + c.holdMs
  }

  lemma HoldsSnoc(c: Config, g: Gate, ticks: seq<Tick>, last: Tick, q: nat)
    requires Sensible(c)
    ensures HoldsSince(c, g, ticks + [last], q) <==>
            if q == |ticks| then Run(c, g, ticks).phase == Open && last.level < c.closeThreshold
            else HoldsSince(c, g, ticks, q) && last.level < c.openThreshold && last.now < ticks[q].now + c.holdMs
  {
    var all := ticks + [last];
    if q <= |ticks| { assert all[..q] == ticks[..q]; }
    if q == |ticks| { assert ticks[..q] == ticks; }
    assert forall i :: 0 <= i < |ticks| ==> all[i] == ticks[i];
    assert all[|ticks|] == last;
  }

  ghost predicate Holding(c: Config, g: Gate, ticks: seq<Tick>, r: Gate)
    requires Sensible(c)
  {
    && (r.phase == Hold ==> exists q: nat :: HoldsSince(c, g, ticks, q))
    && forall q: nat :: HoldsSince(c, g, ticks, q) ==> r.phase == Hold && r.holdUntil == ticks[q].now + c.holdMs
  }

  lemma HoldingStep(c: Config, g: Gate, ticks: seq<Tick>, last: Tick)
    requires Sensible(c) && Holding(c, g, ticks, Run(c, g, ticks))
    ensures Holding(c, g, ticks + [last], Step(c, Run(c, g, ticks), last.level, last.now))
  {
    var before := Run(c, g, ticks);
    var r := Step(c, before, last.level, last.now);
    forall q: nat
      ensures HoldsSince(c, g, ticks + [last], q) <==>
              if q == |ticks| then before.phase == Open && last.level < c.closeThreshold
              else HoldsSince(c, g, ticks, q) && last.level < c.openThreshold && last.now < ticks[q].now + c.holdMs
    {
      HoldsSnoc(c, g, ticks, last, q);
    }
    if r.phase == Hold {
      if before.phase == Open {
        assert HoldsSince(c, g, ticks + [last], |ticks|);
      } else {
        var q: nat :| HoldsSince(c, g, ticks, q);
        assert HoldsSince(c, g, ticks + [last], q);
      }
    }
  }

  /** In every run from a gate that does not hold, the gate holds iff it was open when a tick fell below the close
      threshold, and since then nothing was loud and less than the hold time has passed. */
  lemma {:induction false} HoldIff(c: Config, g: Gate, ticks: seq<Tick>)
    requires Sensible(c) && g.phase != Hold
    ensures Holding(c, g, ticks, Run(c, g, ticks))
    ensures Run(c, g, ticks).phase == Hold <==> exists q: nat :: HoldsSince(c, g, ticks, q)
    decreases |ticks|
  {
    if ticks != [] {
      var init, last := ticks[..|ticks| - 1], ticks[|ticks| - 1];
      assert ticks == init + [last];
      HoldIff(c, g, init);
      HoldingStep(c, g, init, last);
    }
  }

  /** The gain rises only while the gate is open or opens, and falls only while it closes and hears nothing loud. */
  lemma GainMovesOnly(c: Config, g: Gate, level: real, now: real)
    requires Sensible(c) && GainOk(c, g) && g.lastTime <= now
    ensures var r := Step(c, g, level, now);
            && (r.gain > g.gain ==> g.phase == Open || (g.phase == Closed && level >= c.openThreshold))
            && (r.gain < g.gain ==> g.phase == Closing && level < c.openThreshold)
  {
    StepKeepsGain(c, g, level, now);
  }

  // ---- Levels ----

  function Tenfold(samples: seq<real>): (r: seq<real>)
    ensures |r| == |samples| && forall i :: 0 <= i < |samples| ==> r[i] == 10.0 * samples[i]
  {
    seq(|samples|, i requires 0 <= i < |samples| => 10.0 * samples[i])
  }

  lemma {:induction false} PeakOfTenfold(samples: seq<real>)
    ensures Peak(Tenfold(samples)) == 10.0 * Peak(samples)
    decreases |samples|
  {
    if samples != [] {
      PeakOfTenfold(samples[..|samples| - 1]);
      assert Tenfold(samples)[..|samples| - 1] == Tenfold(samples[..|samples| - 1]);
    }
  }

  lemma SilentLevel(samples: seq<real>, log10: real -> real)
    requires forall i :: 0 <= i < |samples| ==> samples[i] == 0.0
    ensures Level(samples, log10) == -100.0
  {
    if i :| 0 <= i < |samples| && Abs(samples[i]) == Peak(samples) {
      assert Abs(samples[i]) == 0.0;
    }
  }

  /** Ten times the amplitude is 20 dB more, and full scale is at 0 dB. */
  lemma TenTimesIsTwentyDecibels(samples: seq<real>, i: nat, log10: real -> real)
    requires forall x :: x > 0.0 ==> log10(10.0 * x) == log10(x) + 1.0
    requires i < |samples| && samples[i] != 0.0
    ensures Level(Tenfold(samples), log10) == Level(samples, log10) + 20.0
    ensures log10(1.0) == 0.0 && Peak(samples) == 1.0 ==> Level(samples, log10) == 0.0
  {
    var p := Peak(samples);
    assert Abs(samples[i]) <= p;
    PeakOfTenfold(samples);
    assert log10(10.0 * p) == log10(p) + 1.0;
  }

  /** Ticks come at most gap ms apart. */
  ghost predicate Regular(start: real, ticks: seq<Tick>, gap: real) {
    forall i :: 0 <= i < |ticks| ==> ticks[i].now <= LastTime(start, ticks[..i]) + gap
  }

  /** The hold time, the full release time and two ticks. */
  function CloseTime(c: Config, gap: real): real {
    2.0 * gap + c.holdMs + c.releaseMs * (1.0 - c.floorGain)
  }

  /** The time by which silence has closed the gate. */
  function Deadline(c: Config, g: Gate, gap: real): real {
    match g.phase
    case Open => g.lastTime + CloseTime(c, gap)
    case Hold => Max(g.holdUntil, g.lastTime) + gap + c.releaseMs * (1.0 - c.floorGain)
    case Closing => g.lastTime + c.releaseMs * (g.gain - c.floorGain)
    case Closed => g.lastTime
  }

  lemma ReleaseStep(r: real, gain: real, dt: real, floor: real)
    requires r > 0.0
    ensures r * (gain - dt / r - floor) == r * (gain - floor) - dt
  {
    assert r * (dt / r) == dt;
  }

  /** A silent tick does not move the deadline of a gate that is not closed, and closes the gate at the deadline. */
  lemma SilentStep(c: Config, g: Gate, level: real, now: real, gap: real)
    requires Sensible(c) && GainOk(c, g) && level < c.closeThreshold && g.lastTime <= now <= g.lastTime + gap
    ensures var r := Step(c, g, level, now);
            && (r.phase != Closed ==> g.phase != Closed && Deadline(c, r, gap) <= Deadline(c, g, gap))
            && (g.phase == Closed ==> r.phase == Closed)
  {
    MonotoneTimes(c.releaseMs, g.gain - c.floorGain, 1.0 - c.floorGain);
    ReleaseStep(c.releaseMs, g.gain, now - g.lastTime, c.floorGain);
  }

  lemma AtDeadline(c: Config, g: Gate, gap: real)
    requires Sensible(c) && GainOk(c, g) && gap >= 0.0 && Deadline(c, g, gap) <= g.lastTime
    ensures g.gain == c.floorGain
  {
    MonotoneTimes(c.releaseMs, 0.0, g.gain - c.floorGain);
    MonotoneTimes(c.releaseMs, 0.0, 1.0 - c.floorGain);
  }

  ghost predicate Silenced(c: Config, g: Gate, r: Gate, gap: real) {
    r.phase != Closed ==> g.phase != Closed && Deadline(c, r, gap) <= Deadline(c, g, gap)
  }

  lemma SilencedStep(c: Config, g: Gate, r: Gate, level: real, now: real, gap: real)
    requires Sensible(c) && GainOk(c, r) && Silenced(c, g, r, gap)
    requires level < c.closeThreshold && r.lastTime <= now <= r.lastTime + gap
    ensures Silenced(c, g, Step(c, r, level, now), gap)
  {
    SilentStep(c, r, level, now, gap);
  }

  lemma RegularLast(start: real, ticks: seq<Tick>, gap: real)
    requires Regular(start, ticks, gap) && ticks != []
    ensures Regular(start, ticks[..|ticks| - 1], gap)
    ensures ticks[|ticks| - 1].now <= LastTime(start, ticks[..|ticks| - 1]) + gap
  {
    var init := ticks[..|ticks| - 1];
    forall i | 0 <= i < |init| ensures init[i].now <= LastTime(start, init[..i]) + gap {
      assert init[..i] == ticks[..i];
    }
  }

  lemma {:induction false} SilenceKeepsDeadline(c: Config, g: Gate, ticks: seq<Tick>, gap: real)
    requires Sensible(c) && GainOk(c, g) && Ordered(g.lastTime, ticks) && Regular(g.lastTime, ticks, gap)
    requires forall i :: 0 <= i < |ticks| ==> ticks[i].level < c.closeThreshold
    ensures Silenced(c, g, Run(c, g, ticks), gap)
    decreases |ticks|
  {
    if ticks != [] {
      var init, last := ticks[..|ticks| - 1], ticks[|ticks| - 1];
      RunTime(c, g, ticks);
      RunTime(c, g, init);
      RunKeepsGain(c, g, init);
      RegularLast(g.lastTime, ticks, gap);
      SilenceKeepsDeadline(c, g, init, gap);
      SilencedStep(c, g, Run(c, g, init), last.level, last.now, gap);
    }
  }

  lemma SilencedAtDeadline(c: Config, g: Gate, r: Gate, gap: real)
    requires Sensible(c) && GainOk(c, r) && Silenced(c, g, r, gap) && gap >= 0.0
    requires Deadline(c, g, gap) <= r.lastTime
    ensures r.gain == c.floorGain
  {
    if r.phase != Closed {
      AtDeadline(c, r, gap);
    }
  }

  /** From any open gate, silence has brought the gain to the floor at every tick that is at least the hold time, the
      full release time and two ticks later. */
  lemma SilenceCloses(c: Config, g: Gate, ticks: seq<Tick>, gap: real)
    requires Sensible(c) && g.phase == Open && GainOk(c, g) && gap >= 0.0
    requires Ordered(g.lastTime, ticks) && Regular(g.lastTime, ticks, gap)
    requires forall i :: 0 <= i < |ticks| ==> ticks[i].level < c.closeThreshold
    requires LastTime(g.lastTime, ticks) >= g.lastTime + CloseTime(c, gap)
    ensures Run(c, g, ticks).gain == c.floorGain
  {
    RunTime(c, g, ticks);
    RunKeepsGain(c, g, ticks);
    SilenceKeepsDeadline(c, g, ticks, gap);
    SilencedAtDeadline(c, g, Run(c, g, ticks), gap);
  }
}
