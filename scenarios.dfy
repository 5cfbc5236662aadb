/** Clients of the controller that replay usage scenarios on a fresh
    object and state what the treadmill sees. They rely only on the contracts of
    the class's methods. */
module TrainingScenarios {
  import opened HeartRatePolicy
  import opened Training

  /** Feeding any number of readings leaves at most `MaxSamples` of them in the
      buffer: the most recent ones, in arrival order. */
  method FeedReadings(readings: seq<real>) returns (buffer: seq<real>)
    ensures |buffer| <= MaxSamples
    ensures buffer == Window(readings, MaxSamples)
  {
    var t := new HeartRateTraining();
    var i := 0;
    while i < |readings|
      invariant 0 <= i <= |readings|
      invariant t.Valid()
      invariant t.received == readings[..i]
    {
      t.HandleHeartRateChanged(readings[i]);
      assert readings[..i + 1] == readings[..i] + [readings[i]];
      i := i + 1;
    }
    assert readings[..i] == readings;
    buffer := t.heartRates;
  }

  /** Started with speed control on and no readings: one immediate cycle, which sends
      nothing, changes nothing and retries after the small delay. */
  method NoDataScenario() returns (first: Option<int>, next: Option<int>, sent: seq<Command>, speed: real)
    ensures first == Some(0) && next == Some(5000) && sent == [] && speed == 0.0
  {
    var t := new HeartRateTraining();
    t.SetAdjustmentMethods(true, false);
    first := t.StartHFTraining();
    next := t.AdjustTreadmill();
    sent, speed := t.commands, t.currentSpeed;
  }

  /** The zone [120, 150] with speed control only, otherwise the defaults. */
  const SpeedOnly := Config(true, false, 120.0, 150.0, 5.0, Limits(1.0, 20.0), Limits(0.0, 15.0), 0.2, 0.5, 5000, 10000)

  /** Average 100 is more than the tolerance 5 below 120: a large increase of 0.5 from
      speed 5.0, and the large delay. */
  lemma IncreaseExample()
    ensures Cycle(SpeedOnly, 100.0, 5.0, 0.0) == Outcome(5.5, 0.0, [SetSpeed(5.5)], Some(10000))
  {
  }

  /** Average 152 is within the tolerance above 150: with incline control only, a small
      decrease of twice 0.2 from incline 3.0, and the small delay. */
  lemma DecreaseExample()
    ensures Cycle(SpeedOnly.(enableAdjustSpeed := false, enableAdjustIncline := true), 152.0, 0.0, 3.0)
         == Outcome(0.0, 2.6, [SetInclination(2.6)], Some(5000))
  {
  }

  /** From speed 19.9 a large increase of 0.5 is clamped to the limit 20. */
  lemma ClampExample()
    ensures Cycle(SpeedOnly, 100.0, 19.9, 0.0) == Outcome(20.0, 0.0, [SetSpeed(20.0)], Some(10000))
  {
  }

  /** With both axes enabled only the speed moves. */
  lemma PriorityExample()
    ensures Cycle(SpeedOnly.(enableAdjustIncline := true), 100.0, 5.0, 3.0) == Outcome(5.5, 3.0, [SetSpeed(5.5)], Some(10000))
  {
  }

  /** A fresh controller set to the zone [120, 150] and the given axes, speed and
      incline, holding the single reading `bpm`. */
  method Prepared(speedOn: bool, inclineOn: bool, speed: real, incline: real, bpm: real)
    returns (t: HeartRateTraining)
    ensures fresh(t) && t.commands == []
    ensures t.Settings() == SpeedOnly.(enableAdjustSpeed := speedOn, enableAdjustIncline := inclineOn)
    ensures t.currentSpeed == speed && t.currentIncline == incline
    ensures Average(t.heartRates) == bpm
  {
    t := new HeartRateTraining();
    t.HandleHeartRateChanged(bpm);
    assert t.heartRates == [bpm];
    AverageOfOne(bpm);
    t.SetTargetHeartRateZone(120.0, 150.0);
    t.SetAdjustmentMethods(speedOn, inclineOn);
    t.SetCurrentSpeed(speed);
    t.SetCurrentIncline(incline);
  }

  /** The increase path as the treadmill sees it. */
  method IncreaseScenario() returns (next: Option<int>, sent: seq<Command>, speed: real)
    ensures next == Some(10000) && sent == [SetSpeed(5.5)] && speed == 5.5
  {
    var t := Prepared(true, false, 5.0, 0.0, 100.0);
    IncreaseExample();
    next := t.AdjustTreadmill();
    sent, speed := t.commands, t.currentSpeed;
  }

  /** The decrease path as the treadmill sees it. */
  method DecreaseScenario() returns (next: Option<int>, sent: seq<Command>, incline: real)
    ensures next == Some(5000) && sent == [SetInclination(2.6)] && incline == 2.6
  {
    var t := Prepared(false, true, 0.0, 3.0, 152.0);
    DecreaseExample();
    next := t.AdjustTreadmill();
    sent, incline := t.commands, t.currentIncline;
  }

  /** The clamped increase as the treadmill sees it. */
  method ClampScenario() returns (sent: seq<Command>)
    ensures sent == [SetSpeed(20.0)]
  {
    var t := Prepared(true, false, 19.9, 0.0, 100.0);
    ClampExample();
    var _ := t.AdjustTreadmill();
    sent := t.commands;
  }

  /** The priority rule as the treadmill sees it. */
  method PriorityScenario() returns (sent: seq<Command>, incline: real)
    ensures sent == [SetSpeed(5.5)] && incline == 3.0
  {
    var t := Prepared(true, true, 5.0, 3.0, 100.0);
    PriorityExample();
    var _ := t.AdjustTreadmill();
    sent, incline := t.commands, t.currentIncline;
  }

  /** Starting twice arms one timer only. */
  method StartTwiceScenario() returns (first: Option<int>, second: Option<int>)
    ensures first == Some(0) && second == None
  {
    var t := new HeartRateTraining();
    first := t.StartHFTraining();
    second := t.StartHFTraining();
  }

  /** A cycle that finds no axis enabled neither reschedules nor drops its fired
      handle, so a later start arms nothing until a stop clears the handle. */
  method StaleHandleScenario()
    returns (next: Option<int>, restart: Option<int>, cancelled: bool, again: Option<int>, stopAgain: bool)
    ensures next == None && restart == None && cancelled && again == Some(0) && !stopAgain
  {
    var t := new HeartRateTraining();
    var _ := t.StartHFTraining();
    next := t.AdjustTreadmill();
    t.SetAdjustmentMethods(true, false);
    restart := t.StartHFTraining();
    cancelled := t.StopHFTraining();
    again := t.StartHFTraining();
    var _ := t.StopHFTraining();
    stopAgain := t.StopHFTraining();
  }
}
