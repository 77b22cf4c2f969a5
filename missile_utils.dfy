// Fixed-width integer helpers of the missile controller (namespace Utils).
// C++ `unsigned int`, `signed int` and `unsigned short` are modelled as
// bounded subsets of `int`; every conversion the C++ code performs
// implicitly is written out as an explicit modular reduction.

module MissileUtils {

  const TWO_TO_THE_16: int := 0x1_0000
  const TWO_TO_THE_31: int := 0x8000_0000
  const TWO_TO_THE_32: int := 0x1_0000_0000

  /** `UINT_MAX` of a 32-bit `unsigned int`. */
  const UINT_MAX: int := 0xFFFF_FFFF

  /** The largest warhead count whose byte size (8 per warhead) still fits in 32 bits. */
  const MAX_EXACT_WARHEAD_COUNT: int := 0x1FFF_FFFF

  type uint16 = x: int | 0 <= x < 0x1_0000
  type uint32 = x: int | 0 <= x < 0x1_0000_0000
  type int32 = x: int | -0x8000_0000 <= x < 0x8000_0000

  /** Conversion of any integer value to `unsigned int`: reduction modulo 2^32. */
  function ToUint32(x: int): (r: uint32)
    ensures 0 <= x < TWO_TO_THE_32 ==> r == x
    ensures (x - r) % TWO_TO_THE_32 == 0
  {
    x % TWO_TO_THE_32
  }

  /** Conversion of any integer value to `unsigned short`: reduction modulo 2^16. */
  function ToUint16(x: int): (r: uint16)
    ensures 0 <= x < TWO_TO_THE_16 ==> r == x
    ensures (x - r) % TWO_TO_THE_16 == 0
  {
    x % TWO_TO_THE_16
  }

  /** Reading a 32-bit pattern as a two's-complement `signed int`. */
  function AsInt32(u: uint32): (p: int32)
    ensures u < TWO_TO_THE_31 ==> p == u
    ensures u >= TWO_TO_THE_31 ==> p < 0
  {
    if u < TWO_TO_THE_31 then u else u - TWO_TO_THE_32
  }

  /**
   * `count * 8` evaluated in `unsigned int`: the product wraps modulo 2^32.
   * The result is exact precisely for counts up to MAX_EXACT_WARHEAD_COUNT;
   * beyond that it is strictly smaller than the number of bytes needed.
   */
  function CalculateWarheadMemory(count: uint32): (size: uint32)
    ensures size % 8 == 0
    ensures size == count * 8 <==> count <= MAX_EXACT_WARHEAD_COUNT
    ensures count > MAX_EXACT_WARHEAD_COUNT ==> size < count * 8
    ensures (count * 8 - size) % TWO_TO_THE_32 == 0
  {
    var size := ToUint32(count * 8);
    assert size == 8 * (count - (count / 0x2000_0000) * 0x2000_0000);
    size
  }

  /** `static_cast<unsigned int>(priorityLevel)`: the same bits read as unsigned. */
  function PriorityToCode(priorityLevel: int32): (code: uint32)
    ensures priorityLevel >= 0 ==> code == priorityLevel
    ensures priorityLevel < 0 ==> code == priorityLevel + TWO_TO_THE_32
    ensures AsInt32(code) == priorityLevel
  {
    ToUint32(priorityLevel)
  }

  /** `static_cast<unsigned short>(distanceMeters)`: only the low 16 bits are kept. */
  function AdjustDistance(distanceMeters: uint32): (dist: uint16)
    ensures distanceMeters < TWO_TO_THE_16 ==> dist == distanceMeters
    ensures distanceMeters == (distanceMeters / TWO_TO_THE_16) * TWO_TO_THE_16 + dist
  {
    ToUint16(distanceMeters)
  }

  /** Distinct priorities never share a status code. */
  lemma PriorityToCodeInjective(p: int32, q: int32)
    requires PriorityToCode(p) == PriorityToCode(q)
    ensures p == q
  {
  }

  /** Every 32-bit pattern is the status code of exactly the priority it reads back as. */
  lemma PriorityToCodeSurjective(code: uint32)
    ensures PriorityToCode(AsInt32(code)) == code
  {
  }

  /** The smallest count whose byte size wraps all the way round to an empty buffer. */
  lemma WarheadMemoryWrapsToZero()
    ensures CalculateWarheadMemory(MAX_EXACT_WARHEAD_COUNT + 1) == 0
    ensures CalculateWarheadMemory(10) == 80
  {
  }

  lemma PriorityAndDistanceExamples()
    ensures PriorityToCode(-5) == 4294967291
    ensures AdjustDistance(70000) == 4464
  {
  }
}
