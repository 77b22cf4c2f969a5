// The missile controller: an ordered target list, a warhead buffer and its
// recorded size, updated in place by the controller's methods.

module MissileControl {
  import opened MissileUtils

  /** A registered target; a negative priority is documented as "no engagement". */
  datatype Target = Target(id: int32, distanceMeters: uint32, priorityLevel: int32)

  /**
   * What processTargets computes for one target. It prints the id, the
   * status code and the final distance; the truncated distance is the
   * intermediate value the final distance is computed from.
   */
  datatype EngagementReport = EngagementReport(
    id: int32,
    statusCode: uint32,
    truncatedDistance: uint16,
    finalDistance: uint16)

  type byte = bv8

  /** The lowest and highest distance addTarget accepts. */
  const MIN_DISTANCE: int := 1000
  const MAX_DISTANCE: int := 6000

  /** The distance range addTarget admits, stated without any wrap-around. */
  predicate InRange(distance: int) {
    MIN_DISTANCE <= distance <= MAX_DISTANCE
  }

  /** `dist + 65000` stored back into an `unsigned short`. */
  function WrapAroundDistance(dist: uint16): (finalDist: uint16)
    ensures dist < 536 ==> finalDist == dist + 65000
    ensures dist >= 536 ==> finalDist == dist - 536
  {
    ToUint16(dist as int + 65000)
  }

  /** The record printed for one target, nothing skipped for negative priorities. */
  function ReportFor(t: Target): (r: EngagementReport)
    ensures r.id == t.id
    ensures AsInt32(r.statusCode) == t.priorityLevel
    ensures t.priorityLevel < 0 ==> r.statusCode >= TWO_TO_THE_31
    ensures t.distanceMeters < TWO_TO_THE_16 ==> r.truncatedDistance == t.distanceMeters
    ensures (r.truncatedDistance + 65000 - r.finalDistance) % TWO_TO_THE_16 == 0
  {
    var dist := AdjustDistance(t.distanceMeters);
    EngagementReport(t.id, PriorityToCode(t.priorityLevel), dist, WrapAroundDistance(dist))
  }

  class MissileController {
    var targets: seq<Target>
    var warheadBuffer: array?<byte>
    var warheadBufferSize: uint32

    /**
     * Every stored target passed addTarget's checks, and once a buffer has
     * been allocated its length is the recorded size.
     */
    ghost predicate Valid()
      reads this
    {
      && (forall i :: 0 <= i < |targets| ==> InRange(targets[i].distanceMeters))
      && (warheadBuffer == null ==> warheadBufferSize == 0)
      && (warheadBuffer != null ==> warheadBuffer.Length == warheadBufferSize)
    }

    constructor ()
      ensures Valid()
      ensures targets == [] && warheadBuffer == null && warheadBufferSize == 0
    {
      targets := [];
      warheadBuffer := null;
      warheadBufferSize := 0;
    }

    /**
     * Appends the target when its distance is accepted. The priority test can
     * never fire, and the distance test on `distance - 1000` in unsigned
     * arithmetic admits exactly 1000..6000.
     */
    method AddTarget(id: int32, distance: uint32, priority: int32) returns (accepted: bool)
      requires Valid()
      modifies this
      ensures Valid()
      ensures accepted <==> InRange(distance)
      ensures targets == if accepted then old(targets) + [Target(id, distance, priority)] else old(targets)
      ensures warheadBuffer == old(warheadBuffer) && warheadBufferSize == old(warheadBufferSize)
    {
      if priority < 0 && priority > 10 {
        return false;
      }
      var adjustedDistance := ToUint32(distance - 1000);
      if adjustedDistance > 5000 {
        return false;
      }
      targets := targets + [Target(id, distance, priority)];
      return true;
    }

    /**
     * Records the wrapped byte size and installs a fresh zero-filled buffer of
     * exactly that length. The previous buffer is not released: it is left
     * as it was, no longer referenced by the controller.
     */
    method AllocateWarheadBuffer(warheadCount: uint32)
      requires Valid()
      modifies this
      ensures Valid()
      ensures warheadBufferSize == CalculateWarheadMemory(warheadCount)
      ensures warheadBuffer != null && fresh(warheadBuffer)
      ensures forall i :: 0 <= i < warheadBuffer.Length ==> warheadBuffer[i] == 0
      ensures targets == old(targets)
    {
      warheadBufferSize := CalculateWarheadMemory(warheadCount);
      var buffer := new byte[warheadBufferSize];
      var i := 0;
      while i < warheadBufferSize
        modifies buffer
        invariant 0 <= i <= warheadBufferSize
        invariant forall k :: 0 <= k < i ==> buffer[k] == 0
      {
        buffer[i] := 0;
        i := i + 1;
      }
      warheadBuffer := buffer;
    }

    /** Reports every target in insertion order; the controller is left as it was. */
    method EngageTargets() returns (reports: seq<EngagementReport>)
      ensures |reports| == |targets|
      ensures forall i :: 0 <= i < |targets| ==> reports[i] == ReportFor(targets[i])
    {
      reports := ProcessTargets();
    }

    method ProcessTargets() returns (reports: seq<EngagementReport>)
      ensures |reports| == |targets|
      ensures forall i :: 0 <= i < |targets| ==> reports[i] == ReportFor(targets[i])
    {
      reports := [];
      for n := 0 to |targets|
        invariant |reports| == n
        invariant forall i :: 0 <= i < n ==> reports[i] == ReportFor(targets[i])
      {
        var target := targets[n];
        var statusCode := PriorityToCode(target.priorityLevel);
        var dist := AdjustDistance(target.distanceMeters);
        var finalDist := ToUint16(dist as int + 65000);
        reports := reports + [EngagementReport(target.id, statusCode, dist, finalDist)];
      }
    }
  }

  /**
   * For a target that addTarget accepted, the 16-bit narrowing is exact and
   * the final distance is the stored distance less 536.
   */
  lemma AcceptedTargetReport(t: Target)
    requires InRange(t.distanceMeters)
    ensures ReportFor(t).truncatedDistance == t.distanceMeters
    ensures ReportFor(t).finalDistance == t.distanceMeters - 536
  {
  }

  /** Narrowing 70000 keeps 4464, and adding 65000 wraps to 3928. */
  lemma FarTargetReport(id: int32, priority: int32)
    ensures ReportFor(Target(id, 70000, priority)).truncatedDistance == 4464
    ensures ReportFor(Target(id, 70000, priority)).finalDistance == 3928
  {
  }
}
