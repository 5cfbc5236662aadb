/** The pure part of the heart-rate zone controller: the sample window, the average,
    the clamp and one evaluation step of the control policy, stated as functions and
    lemmas about them. The class in training.dfy is proved against these. */
module HeartRatePolicy {

  datatype Option<+T> = None | Some(value: T)

  /** How many of the most recent heart-rate readings the controller keeps. */
  const MaxSamples: nat := 20

  /** A `{ min, max }` pair of clamping bounds; `min <= max` is not enforced. */
  datatype Limits = Limits(min: real, max: real)

  /** A call the controller makes on its treadmill collaborator. */
  datatype Command = SetSpeed(speed: real) | SetInclination(incline: real)

  /** What the average asks of the trainee this cycle. */
  datatype Direction = Increase | Decrease | Hold

  /** The configuration one evaluation cycle reads. */
  datatype Config = Config(
    enableAdjustSpeed: bool,
    enableAdjustIncline: bool,
    targetMin: real,
    targetMax: real,
    tolerance: real,
    speedLimits: Limits,
    inclineLimits: Limits,
    smallAdjustment: real,
    largeAdjustment: real,
    smallTimeout: int,
    largeTimeout: int)

  /** What one evaluation cycle leaves behind: the mirrored speed and incline, the
      commands sent (in order) and the delay of the next cycle (None: no reschedule). */
  datatype Outcome = Outcome(speed: real, incline: real, issued: seq<Command>, reschedule: Option<int>)

  // ---------------------------------------------------------------------------
  // Sample window

  /** The last `n` elements of `s`, or all of `s` when it is shorter. */
  function Window(s: seq<real>, n: nat): (w: seq<real>)
    ensures |w| == if |s| <= n then |s| else n
  {
    if |s| <= n then s else s[|s| - n..]
  }

  /** The window is the suffix of `s` of its own length: element `i` of the window is
      element `|s| - |w| + i` of `s`. */
  lemma WindowIsSuffix(s: seq<real>, n: nat, i: nat)
    requires i < |Window(s, n)|
    ensures Window(s, n)[i] == s[|s| - |Window(s, n)| + i]
  {
  }

  /** One reading pushed onto a buffer of capacity `n`: append it, and drop the front
      element when the buffer has grown past the capacity. */
  function Push(buf: seq<real>, x: real, n: nat): seq<real>
  {
    var grown := buf + [x];
    if |grown| > n then grown[1..] else grown
  }

  /** A push never lets a full buffer grow, keeps the new reading last, and evicts at
      most the single oldest element. */
  lemma PushEvictsOnlyOldest(buf: seq<real>, x: real, n: nat)
    requires |buf| <= n
    ensures |Push(buf, x, n)| <= n
    ensures |buf| < n ==> Push(buf, x, n) == buf + [x]
    ensures |buf| == n && n > 0 ==> Push(buf, x, n) == buf[1..] + [x]
    ensures n > 0 ==> Push(buf, x, n)[|Push(buf, x, n)| - 1] == x
  {
  }

  /** Pushing onto the window of everything received so far gives the window of
      everything received including the new reading. */
  lemma PushKeepsWindow(s: seq<real>, x: real, n: nat)
    ensures Push(Window(s, n), x, n) == Window(s + [x], n)
  {
  }

  // ---------------------------------------------------------------------------
  // Average

  /** The total of the readings, accumulated left to right from 0. */
  function Sum(s: seq<real>): real
  {
    if s == [] then 0.0 else Sum(s[..|s| - 1]) + s[|s| - 1]
  }

  /** The mean of the readings; 0 stands for "no data". Division of an empty total
      gives NaN, which `|| 0` turns into 0. */
  function Average(s: seq<real>): (r: real)
    ensures s == [] ==> r == 0.0
    ensures s != [] ==> r * (|s| as real) == Sum(s)
  {
    if s == [] then 0.0 else Sum(s) / (|s| as real)
  }

  /** Readings that are all at least `lo` total at least `lo * n`. */
  lemma {:induction false} SumAtLeast(s: seq<real>, lo: real)
    requires forall i :: 0 <= i < |s| ==> lo <= s[i]
    ensures lo * (|s| as real) <= Sum(s)
  {
    if s != [] {
      var init := s[..|s| - 1];
      assert forall i :: 0 <= i < |init| ==> init[i] == s[i];
      SumAtLeast(init, lo);
      assert lo * (|s| as real) == lo * (|init| as real) + lo;
    }
  }

  /** Readings that are all at most `hi` total at most `hi * n`. */
  lemma {:induction false} SumAtMost(s: seq<real>, hi: real)
    requires forall i :: 0 <= i < |s| ==> s[i] <= hi
    ensures Sum(s) <= hi * (|s| as real)
  {
    if s != [] {
      var init := s[..|s| - 1];
      assert forall i :: 0 <= i < |init| ==> init[i] == s[i];
      SumAtMost(init, hi);
      assert hi * (|s| as real) == hi * (|init| as real) + hi;
    }
  }

  /** The average of a non-empty buffer lies within any bounds that all of its
      readings respect. */
  lemma AverageWithinReadings(s: seq<real>, lo: real, hi: real)
    requires s != []
    requires forall i :: 0 <= i < |s| ==> lo <= s[i] <= hi
    ensures lo <= Average(s) <= hi
  {
    SumAtLeast(s, lo);
    SumAtMost(s, hi);
  }

  /** The "no data" sentinel is also what a genuine zero mean produces: an average
      of 0 means an empty buffer or readings that sum to 0, and nothing else. */
  lemma AverageZeroIffNoDataOrZeroSum(s: seq<real>)
    ensures Average(s) == 0.0 <==> (s == [] || Sum(s) == 0.0)
  {
  }

  /** Readings that are all positive are never mistaken for "no data". */
  lemma PositiveReadingsAreData(s: seq<real>, lo: real)
    requires s != [] && lo > 0.0
    requires forall i :: 0 <= i < |s| ==> lo <= s[i]
    ensures Average(s) > 0.0
  {
    SumAtLeast(s, lo);
  }

  /** A single reading is its own average. */
  lemma AverageOfOne(x: real)
    ensures Average([x]) == x
  {
    assert [x][..0] == [];
    assert Sum([x]) == Sum([]) + x;
  }

  /** The mean of 60, 70 and 80 is 70. */
  lemma AverageOfThree()
    ensures Average([60.0, 70.0, 80.0]) == 70.0
  {
    assert [60.0, 70.0, 80.0][..2] == [60.0, 70.0];
    assert [60.0, 70.0][..1] == [60.0];
    assert [60.0][..0] == [];
  }

  // ---------------------------------------------------------------------------
  // Clamp

  function Min(a: real, b: real): real { if a <= b then a else b }
  function Max(a: real, b: real): real { if a >= b then a else b }

  /** `Math.max(lim.min, Math.min(x, lim.max))`: never below the minimum; never above
      the maximum when the bounds are ordered; the minimum when they are not. */
  function Clamp(x: real, lim: Limits): (r: real)
    ensures r >= lim.min
    ensures lim.min <= lim.max ==> r <= lim.max
    ensures lim.min <= x <= lim.max ==> r == x
    ensures lim.min > lim.max ==> r == lim.min
    ensures r == x || r == lim.min || r == lim.max
  {
    Max(lim.min, Min(x, lim.max))
  }

  /** Clamping preserves order. */
  lemma ClampMonotone(x: real, y: real, lim: Limits)
    requires x <= y
    ensures Clamp(x, lim) <= Clamp(y, lim)
  {
  }

  // ---------------------------------------------------------------------------
  // One evaluation cycle

  /** Below the zone: increase; above it: decrease; inside (bounds included): hold.
      The lower bound is tested first. */
  function Classify(avg: real, c: Config): Direction
  {
    if avg < c.targetMin then Increase
    else if avg > c.targetMax then Decrease
    else Hold
  }

  /** A correction is large when the average lies more than `tolerance` beyond the
      boundary it violates; only that boundary is tested. */
  predicate IsLarge(avg: real, c: Config)
  {
    match Classify(avg, c)
    case Increase => avg < c.targetMin - c.tolerance
    case Decrease => avg > c.targetMax + c.tolerance
    case Hold => false
  }

  function Multiplier(d: Direction): real
  {
    match d
    case Increase => 1.0
    case Decrease => -1.0
    case Hold => 0.0
  }

  /** The speed step chosen for this cycle (the incline moves by twice this). */
  function StepSize(avg: real, c: Config): real
  {
    if IsLarge(avg, c) then c.largeAdjustment else c.smallAdjustment
  }

  /** The delay until the next cycle. */
  function NextDelay(avg: real, c: Config): int
  {
    if IsLarge(avg, c) then c.largeTimeout else c.smallTimeout
  }

  /** One evaluation of the policy from configuration `c`, the current average `avg`
      and the mirrored `speed` and `incline`. */
  function Cycle(c: Config, avg: real, speed: real, incline: real): Outcome
  {
    if !c.enableAdjustSpeed && !c.enableAdjustIncline then
      Outcome(speed, incline, [], None)
    else if avg == 0.0 then
      Outcome(speed, incline, [], Some(c.smallTimeout))
    else
      var dir := Classify(avg, c);
      var delay := Some(NextDelay(avg, c));
      if dir == Hold then
        Outcome(speed, incline, [], delay)
      else
        var step := StepSize(avg, c) * Multiplier(dir);
        if c.enableAdjustSpeed then
          var v := Clamp(speed + step, c.speedLimits);
          Outcome(v, incline, if v != speed then [SetSpeed(v)] else [], delay)
        else
          var v := Clamp(incline + 2.0 * step, c.inclineLimits);
          Outcome(speed, v, if v != incline then [SetInclination(v)] else [], delay)
  }

  /** With neither axis enabled a cycle does nothing and does not reschedule. */
  lemma IdleWithoutAxes(c: Config, avg: real, speed: real, incline: real)
    requires !c.enableAdjustSpeed && !c.enableAdjustIncline
    ensures Cycle(c, avg, speed, incline) == Outcome(speed, incline, [], None)
  {
  }

  /** With an axis enabled a cycle always reschedules, and with no data (average 0)
      it sends nothing, changes nothing and retries after the small delay. */
  lemma NoDataRetry(c: Config, avg: real, speed: real, incline: real)
    requires c.enableAdjustSpeed || c.enableAdjustIncline
    ensures Cycle(c, avg, speed, incline).reschedule.Some?
    ensures avg == 0.0 ==> Cycle(c, avg, speed, incline) == Outcome(speed, incline, [], Some(c.smallTimeout))
  {
  }

  /** Inside the zone nothing is sent, nothing changes and the next cycle comes after
      the small delay; a command is only ever sent from outside the zone. */
  lemma HoldInsideZone(c: Config, avg: real, speed: real, incline: real)
    requires c.enableAdjustSpeed || c.enableAdjustIncline
    ensures c.targetMin <= avg <= c.targetMax ==>
      Cycle(c, avg, speed, incline) == Outcome(speed, incline, [], Some(c.smallTimeout))
    ensures Cycle(c, avg, speed, incline).issued != [] ==>
      avg != 0.0 && (avg < c.targetMin || avg > c.targetMax)
  {
  }

  /** The large correction, stated for every zone and tolerance: below the zone by
      more than the tolerance, or (not below the zone) above it by more than the
      tolerance. The lower boundary is tested first, so an average below an inverted
      zone's minimum is never judged against its maximum. */
  lemma LargeOnlyPastViolatedBoundary(avg: real, c: Config)
    ensures IsLarge(avg, c) <==>
      (avg < c.targetMin && avg < c.targetMin - c.tolerance)
      || (c.targetMin <= avg && avg > c.targetMax && avg > c.targetMax + c.tolerance)
  {
  }

  /** With a non-negative tolerance and an ordered zone, the next cycle is scheduled
      after the large delay exactly when the average is more than `tolerance` outside
      the zone, whether or not a command was sent; the step is the large one in
      exactly the same case. */
  lemma DelayAndStepClassification(c: Config, avg: real, speed: real, incline: real)
    requires c.enableAdjustSpeed || c.enableAdjustIncline
    requires avg != 0.0
    requires c.tolerance >= 0.0 && c.targetMin <= c.targetMax
    ensures var large := avg < c.targetMin - c.tolerance || avg > c.targetMax + c.tolerance;
      && Cycle(c, avg, speed, incline).reschedule == Some(if large then c.largeTimeout else c.smallTimeout)
      && StepSize(avg, c) == if large then c.largeAdjustment else c.smallAdjustment
  {
  }

  /** When speed control is enabled and the raw step stays within the limits, the
      speed moves by exactly one step, up below the zone and down above it; with only
      incline control the incline moves by exactly two steps the same way. */
  lemma StepApplied(c: Config, avg: real, speed: real, incline: real)
    requires avg != 0.0
    ensures var o := Cycle(c, avg, speed, incline);
      var step := StepSize(avg, c);
      && (c.enableAdjustSpeed && avg < c.targetMin
          && c.speedLimits.min <= speed + step <= c.speedLimits.max
          ==> o.speed == speed + step)
      && (c.enableAdjustSpeed && c.targetMin <= avg && avg > c.targetMax
          && c.speedLimits.min <= speed - step <= c.speedLimits.max
          ==> o.speed == speed - step)
      && (!c.enableAdjustSpeed && c.enableAdjustIncline && avg < c.targetMin
          && c.inclineLimits.min <= incline + 2.0 * step <= c.inclineLimits.max
          ==> o.incline == incline + 2.0 * step)
      && (!c.enableAdjustSpeed && c.enableAdjustIncline && c.targetMin <= avg && avg > c.targetMax
          && c.inclineLimits.min <= incline - 2.0 * step <= c.inclineLimits.max
          ==> o.incline == incline - 2.0 * step)
  {
  }

  /** Outside the zone, with speed control on, the new speed is the old one moved by
      one signed step and then clamped to the speed limits; the command carries it. */
  lemma SpeedStepClamped(c: Config, avg: real, speed: real, incline: real)
    requires c.enableAdjustSpeed && avg != 0.0 && Classify(avg, c) != Hold
    ensures var v := Clamp(speed + StepSize(avg, c) * Multiplier(Classify(avg, c)), c.speedLimits);
      && Cycle(c, avg, speed, incline).speed == v
      && Cycle(c, avg, speed, incline).issued == if v != speed then [SetSpeed(v)] else []
  {
  }

  /** Outside the zone, with only incline control on, the new incline is the old one
      moved by twice the signed step and then clamped to the incline limits; the
      command carries it. */
  lemma InclineStepClamped(c: Config, avg: real, speed: real, incline: real)
    requires !c.enableAdjustSpeed && c.enableAdjustIncline && avg != 0.0 && Classify(avg, c) != Hold
    ensures var v := Clamp(incline + 2.0 * (StepSize(avg, c) * Multiplier(Classify(avg, c))), c.inclineLimits);
      && Cycle(c, avg, speed, incline).incline == v
      && Cycle(c, avg, speed, incline).issued == if v != incline then [SetInclination(v)] else []
  {
  }

  /** From inside the limits, with non-negative steps, a cycle never moves speed or
      incline against the needed correction. */
  lemma MovesTowardZone(c: Config, avg: real, speed: real, incline: real)
    requires c.smallAdjustment >= 0.0 && c.largeAdjustment >= 0.0
    requires c.speedLimits.min <= speed <= c.speedLimits.max
    requires c.inclineLimits.min <= incline <= c.inclineLimits.max
    ensures var o := Cycle(c, avg, speed, incline);
      && (Classify(avg, c) == Increase ==> o.speed >= speed && o.incline >= incline)
      && (Classify(avg, c) == Decrease ==> o.speed <= speed && o.incline <= incline)
  {
  }

  /** Every value sent is at least its axis's minimum, and at most its maximum when
      the limits are ordered; so is a mirrored value that the cycle changed. */
  lemma CommandsWithinLimits(c: Config, avg: real, speed: real, incline: real)
    ensures var o := Cycle(c, avg, speed, incline);
      && (forall v :: SetSpeed(v) in o.issued ==>
            c.speedLimits.min <= v && (c.speedLimits.min <= c.speedLimits.max ==> v <= c.speedLimits.max))
      && (forall v :: SetInclination(v) in o.issued ==>
            c.inclineLimits.min <= v && (c.inclineLimits.min <= c.inclineLimits.max ==> v <= c.inclineLimits.max))
      && (o.speed != speed ==>
            c.speedLimits.min <= o.speed && (c.speedLimits.min <= c.speedLimits.max ==> o.speed <= c.speedLimits.max))
      && (o.incline != incline ==>
            c.inclineLimits.min <= o.incline && (c.inclineLimits.min <= c.inclineLimits.max ==> o.incline <= c.inclineLimits.max))
  {
  }

  /** Speed has priority: at most one command per cycle, and with speed control on
      the incline is left alone even when incline control is on too. */
  lemma SpeedPriority(c: Config, avg: real, speed: real, incline: real)
    ensures var o := Cycle(c, avg, speed, incline);
      && |o.issued| <= 1
      && (c.enableAdjustSpeed ==> o.incline == incline && forall cmd :: cmd in o.issued ==> cmd.SetSpeed?)
  {
  }

  /** A command is sent exactly when the mirrored value changes, only on an enabled
      axis, and it carries the new value. */
  lemma CommandIffChanged(c: Config, avg: real, speed: real, incline: real)
    ensures var o := Cycle(c, avg, speed, incline);
      && o.issued == (if o.speed != speed then [SetSpeed(o.speed)] else [])
                     + (if o.incline != incline then [SetInclination(o.incline)] else [])
      && (o.speed != speed ==> c.enableAdjustSpeed)
      && (o.incline != incline ==> c.enableAdjustIncline && !c.enableAdjustSpeed)
  {
  }
}
