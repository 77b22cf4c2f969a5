// The decision logic of startMicrowave: a configuration is checked and the
// microwave either aborts, rejects the settings, or starts in some mode.
// The console messages become the returned outcome.

module Microwave {

  // The microwave program is independent of the missile controller, so it
  // declares its own 32-bit `int` rather than importing that one.
  type int32 = x: int | -0x8000_0000 <= x < 0x8000_0000

  /** A fully initialised TimerConfig. */
  datatype TimerConfig = TimerConfig(
    cookTimeSeconds: int32,
    powerLevel: int32,
    weightGrams: int32,
    safetyOverride: bool,
    cookingMode: string)

  datatype CookingMode =
    | AutoCook(grams: int32)   // "Auto mode: Cooking <grams> grams."
    | InvalidAutoWeight        // the warning for a weight of 0 or less; cooking still starts
    | Manual

  datatype StartOutcome =
    | Aborted                  // the safety override stops everything
    | InvalidSettings          // time or power out of range
    | Started(seconds: int32, powerLevel: int32, mode: CookingMode)

  function StartMicrowave(config: TimerConfig): (outcome: StartOutcome)
    ensures outcome.Aborted? <==> config.safetyOverride
    ensures outcome.InvalidSettings? <==>
      !config.safetyOverride && (config.cookTimeSeconds <= 0 || !(1 <= config.powerLevel <= 10))
    ensures outcome.Started? <==>
      !config.safetyOverride && config.cookTimeSeconds > 0 && 1 <= config.powerLevel <= 10
    ensures outcome.Started? ==>
      && outcome.seconds == config.cookTimeSeconds
      && outcome.powerLevel == config.powerLevel
      && (outcome.mode.AutoCook? <==> config.cookingMode == "auto" && config.weightGrams > 0)
      && (outcome.mode.AutoCook? ==> outcome.mode.grams == config.weightGrams)
      && (outcome.mode.Manual? <==> config.cookingMode != "auto")
  {
    if config.safetyOverride then
      Aborted
    else if config.cookTimeSeconds <= 0 || config.powerLevel < 1 || config.powerLevel > 10 then
      InvalidSettings
    else
      var mode :=
        if config.cookingMode == "auto" then
          (if config.weightGrams > 0 then AutoCook(config.weightGrams) else InvalidAutoWeight)
        else Manual;
      Started(config.cookTimeSeconds, config.powerLevel, mode)
  }

  /** The mode string is compared exactly: "Auto" or "auto " cook manually. */
  lemma ModeComparedExactly(config: TimerConfig)
    requires !config.safetyOverride && config.cookTimeSeconds > 0 && 1 <= config.powerLevel <= 10
    requires config.cookingMode == "Auto"
    ensures StartMicrowave(config).mode == Manual
  {
  }

  /** main's well-formed configuration, built one field at a time. */
  method GoodConfigRun() returns (outcome: StartOutcome)
    ensures outcome == Started(90, 5, AutoCook(500))
  {
    var goodConfig := TimerConfig(0, 0, 0, false, "");
    goodConfig := goodConfig.(cookTimeSeconds := 90);
    goodConfig := goodConfig.(powerLevel := 5);
    goodConfig := goodConfig.(weightGrams := 500);
    goodConfig := goodConfig.(safetyOverride := false);
    goodConfig := goodConfig.(cookingMode := "auto");
    outcome := StartMicrowave(goodConfig);
  }
}
