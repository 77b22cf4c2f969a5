// The driver program of the missile controller: three registrations with
// edge values, an oversized warhead allocation, then engagement.

module MissileDemo {
  import opened MissileUtils
  import opened MissileControl

  /**
   * Runs the driver's steps on one controller and returns what each step
   * reports: the three addTarget results, the recorded buffer size and the
   * engagement records.
   */
  method RunDriver() returns (accepted: seq<bool>, bufferSize: uint32, reports: seq<EngagementReport>)
    ensures accepted == [false, true, true]
    ensures bufferSize == 0xFFFF_FFF8
    ensures reports == [
      EngagementReport(2, 4294967291, 1500, 964),
      EngagementReport(3, 7, 3000, 2464)]
  {
    var controller := new MissileController();

    // 800 - 1000 wraps to 4294967096, beyond the 5000 limit
    var first := controller.AddTarget(1, 800, 5);
    // the negative priority slips through the unsatisfiable priority test
    var second := controller.AddTarget(2, 1500, -5);
    var third := controller.AddTarget(3, 3000, 7);
    assert controller.targets == [Target(2, 1500, -5), Target(3, 3000, 7)];

    var largeCount := UINT_MAX / 2;
    controller.AllocateWarheadBuffer(largeCount);

    reports := controller.EngageTargets();
    accepted, bufferSize := [first, second, third], controller.warheadBufferSize;
  }

  /** Engaging reads the targets only, so a second engagement repeats the first. */
  method EngageTwice() returns (first: seq<EngagementReport>, second: seq<EngagementReport>)
    ensures first == second == [EngagementReport(3, 7, 3000, 2464)]
  {
    var controller := new MissileController();
    var accepted := controller.AddTarget(3, 3000, 7);
    first := controller.EngageTargets();
    second := controller.EngageTargets();
  }

  /** An empty controller yields no records and still reports a zero buffer size. */
  method EngageEmpty() returns (reports: seq<EngagementReport>, bufferSize: uint32)
    ensures reports == [] && bufferSize == 0
  {
    var controller := new MissileController();
    reports := controller.EngageTargets();
    bufferSize := controller.warheadBufferSize;
  }
}
