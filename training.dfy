/** The controller object: its fields, its sample ingestion, one evaluation cycle
    that sends commands and asks for the next one, and the start/stop controls and
    setters. Timer calls are reduced to the delays they ask for; the treadmill
    collaborator is reduced to the log of calls made on it. */
module Training {
  import opened HeartRatePolicy

  /** A timer handle held in `trainingInterval`, with the delay it was armed with.
      A handle stays held after its timer has fired, until `StopHFTraining`. */
  datatype Timer = Timer(delay: int)

  class HeartRateTraining {
    var trainingInterval: Option<Timer>
    var enableAdjustSpeed: bool
    var enableAdjustIncline: bool
    var heartRates: seq<real>
    var targetHeartRateMin: real
    var targetHeartRateMax: real
    var speedLimits: Limits
    var inclineLimits: Limits
    /** The calls made on the treadmill collaborator so far, oldest first. */
    var commands: seq<Command>
    var currentSpeed: real
    var currentIncline: real
    var tolerance: real
    var smallAdjustment: real
    var largeAdjustment: real
    var smallTimeout: int
    var largeTimeout: int

    /** Every reading ever handed to `HandleHeartRateChanged`, oldest first. */
    ghost var received: seq<real>

    /** The buffer holds at most `MaxSamples` readings: the most recent ones, in the
        order they arrived. */
    ghost predicate Valid()
      reads this`heartRates, this`received
    {
      && |heartRates| <= MaxSamples
      && heartRates == Window(received, MaxSamples)
    }

    /** The configuration an evaluation cycle reads. */
    function Settings(): Config
      reads this`enableAdjustSpeed, this`enableAdjustIncline, this`targetHeartRateMin,
        this`targetHeartRateMax, this`tolerance, this`speedLimits, this`inclineLimits,
        this`smallAdjustment, this`largeAdjustment, this`smallTimeout, this`largeTimeout
    {
      Config(enableAdjustSpeed, enableAdjustIncline, targetHeartRateMin, targetHeartRateMax,
             tolerance, speedLimits, inclineLimits, smallAdjustment, largeAdjustment,
             smallTimeout, largeTimeout)
    }

    constructor ()
      ensures Valid() && received == [] && heartRates == [] && commands == []
      ensures trainingInterval == None
      ensures !enableAdjustSpeed && !enableAdjustIncline
      ensures targetHeartRateMin == 0.0 && targetHeartRateMax == 0.0
      ensures speedLimits == Limits(1.0, 20.0) && inclineLimits == Limits(0.0, 15.0)
      ensures currentSpeed == 0.0 && currentIncline == 0.0
      ensures tolerance == 5.0
      ensures smallAdjustment == 0.2 && largeAdjustment == 0.5
      ensures smallTimeout == 5000 && largeTimeout == 10000
    {
      trainingInterval := None;
      enableAdjustSpeed := false;
      enableAdjustIncline := false;
      heartRates := [];
      targetHeartRateMin := 0.0;
      targetHeartRateMax := 0.0;
      speedLimits := Limits(1.0, 20.0);
      inclineLimits := Limits(0.0, 15.0);
      commands := [];
      currentSpeed := 0.0;
      currentIncline := 0.0;
      tolerance := 5.0;
      smallAdjustment := 0.2;
      largeAdjustment := 0.5;
      smallTimeout := 5000;
      largeTimeout := 10000;
      received := [];
    }

    /** Appends the reading and evicts the oldest one when more than `MaxSamples`
        are held; the buffer stays the window of the most recent readings. */
    method HandleHeartRateChanged(heartRate: real)
      requires Valid()
      modifies this`heartRates, this`received
      ensures Valid()
      ensures received == old(received) + [heartRate]
      ensures heartRates == Push(old(heartRates), heartRate, MaxSamples)
    {
      heartRates := heartRates + [heartRate];
      if |heartRates| > MaxSamples {
        heartRates := heartRates[1..];
      }
      PushKeepsWindow(received, heartRate, MaxSamples);
      received := received + [heartRate];
    }

    /** One evaluation cycle: the new speed, incline and command log are those the
        policy prescribes for the configuration, average and mirrored values on entry;
        `next` is the delay of the rescheduled cycle, and a reschedule replaces the
        held timer handle. When no axis is enabled the held handle is left as it was,
        even though its timer has fired. */
    method AdjustTreadmill() returns (next: Option<int>)
      modifies this`currentSpeed, this`currentIncline, this`commands, this`trainingInterval
      ensures var o := Cycle(old(Settings()), Average(heartRates), old(currentSpeed), old(currentIncline));
        && currentSpeed == o.speed
        && currentIncline == o.incline
        && commands == old(commands) + o.issued
        && next == o.reschedule
      ensures trainingInterval == if next.Some? then Some(Timer(next.value)) else old(trainingInterval)
    {
      if !enableAdjustSpeed && !enableAdjustIncline {
        return None;
      }

      var averageHeartRate := Average(heartRates);
      if averageHeartRate == 0.0 {
        trainingInterval := Some(Timer(smallTimeout));
        return Some(smallTimeout);
      }

      var newSpeed := currentSpeed;
      var newIncline := currentIncline;
      var timeout := smallTimeout;

      var needsIncrease := false;
      var needsDecrease := false;
      var isLargeAdjustment := false;

      if averageHeartRate < targetHeartRateMin {
        needsIncrease := true;
        if averageHeartRate < targetHeartRateMin - tolerance {
          isLargeAdjustment := true;
          timeout := largeTimeout;
        }
      } else if averageHeartRate > targetHeartRateMax {
        needsDecrease := true;
        if averageHeartRate > targetHeartRateMax + tolerance {
          isLargeAdjustment := true;
          timeout := largeTimeout;
        }
      }

      if needsIncrease || needsDecrease {
        var adjustment := if isLargeAdjustment then largeAdjustment else smallAdjustment;
        var multiplier := if needsIncrease then 1.0 else -1.0;

        if enableAdjustSpeed {
          newSpeed := newSpeed + adjustment * multiplier;
          newSpeed := Clamp(newSpeed, speedLimits);
        } else if enableAdjustIncline {
          newIncline := newIncline + (adjustment * 2.0) * multiplier;
          newIncline := Clamp(newIncline, inclineLimits);
        }

        if newSpeed != currentSpeed && enableAdjustSpeed {
          commands := commands + [SetSpeed(newSpeed)];
          currentSpeed := newSpeed;
        }

        if newIncline != currentIncline && enableAdjustIncline {
          commands := commands + [SetInclination(newIncline)];
          currentIncline := newIncline;
        }
      }

      trainingInterval := Some(Timer(timeout));
      next := Some(timeout);
    }

    /** Arms an immediate first cycle unless a handle is held; `scheduled` is the
        delay of the timer armed, if any. */
    method StartHFTraining() returns (scheduled: Option<int>)
      modifies this`trainingInterval
      ensures old(trainingInterval).Some? ==> scheduled == None && trainingInterval == old(trainingInterval)
      ensures old(trainingInterval).None? ==> scheduled == Some(0) && trainingInterval == Some(Timer(0))
    {
      if trainingInterval.None? {
        trainingInterval := Some(Timer(0));
        scheduled := Some(0);
      } else {
        scheduled := None;
      }
    }

    /** Cancels the held timer, if any, and drops the handle; `cancelled` says whether
        there was one to cancel. A second call is a no-op. */
    method StopHFTraining() returns (cancelled: bool)
      modifies this`trainingInterval
      ensures cancelled == old(trainingInterval).Some?
      ensures trainingInterval == None
    {
      cancelled := trainingInterval.Some?;
      if cancelled {
        trainingInterval := None;
      }
    }

    method SetTargetHeartRateZone(min: real, max: real)
      modifies this`targetHeartRateMin, this`targetHeartRateMax
      ensures targetHeartRateMin == min && targetHeartRateMax == max
    {
      targetHeartRateMin := min;
      targetHeartRateMax := max;
    }

    method SetSpeedLimits(min: real, max: real)
      modifies this`speedLimits
      ensures speedLimits == Limits(min, max)
    {
      speedLimits := Limits(min, max);
    }

    method SetInclineLimits(min: real, max: real)
      modifies this`inclineLimits
      ensures inclineLimits == Limits(min, max)
    {
      inclineLimits := Limits(min, max);
    }

    method SetAdjustmentMethods(adjustSpeed: bool, adjustIncline: bool)
      modifies this`enableAdjustSpeed, this`enableAdjustIncline
      ensures enableAdjustSpeed == adjustSpeed && enableAdjustIncline == adjustIncline
    {
      enableAdjustSpeed := adjustSpeed;
      enableAdjustIncline := adjustIncline;
    }

    method SetCurrentSpeed(speed: real)
      modifies this`currentSpeed
      ensures currentSpeed == speed
    {
      currentSpeed := speed;
    }

    method SetCurrentIncline(incline: real)
      modifies this`currentIncline
      ensures currentIncline == incline
    {
      currentIncline := incline;
    }
  }
}
