/** Sizes: requests are int64 bytes, disks are whole gibibytes. */
module Capacity {

  const GIB: int := 1024 * 1024 * 1024
  const TWO_63: int := 0x8000_0000_0000_0000
  const TWO_64: int := 0x1_0000_0000_0000_0000

  predicate IsInt64(x: int) {
    -TWO_63 <= x < TWO_63
  }

  /** Go's int64 arithmetic wraps around. */
  function Wrap64(x: int): (r: int)
    ensures IsInt64(r)
    ensures IsInt64(x) ==> r == x
    ensures (r - x) % TWO_64 == 0
  {
    (x + TWO_63) % TWO_64 - TWO_63
  }

  function ToUint64(x: int): (r: nat)
    ensures r < TWO_64
    ensures 0 <= x < TWO_64 ==> r == x
    ensures (r - x) % TWO_64 == 0
  {
    x % TWO_64
  }

  /** Go's division truncates toward zero, and its remainder has the sign of the dividend. */
  function Quotient(a: int, b: int): int
    requires b > 0
  {
    if a >= 0 then a / b else -(-a / b)
  }

  function Remainder(a: int, b: int): int
    requires b > 0
  {
    a - b * Quotient(a, b)
  }

  function RoundUp(bytes: int, unit: int): int
    requires unit > 0
  {
    Quotient(bytes, unit) + if Remainder(bytes, unit) > 0 then 1 else 0
  }

  /** Truncation rounds a negative size up already, so the result is the ceiling for every size. */
  method RoundUpSize(bytes: int, unit: int) returns (units: int)
    requires unit > 0
    ensures (units - 1) * unit < bytes <= units * unit
    ensures forall n: int :: n * unit >= bytes <==> n >= units
  {
    units := Quotient(bytes, unit);
    QuotientBounds(bytes, unit);
    if Remainder(bytes, unit) > 0 {
      units := units + 1;
    }
    assert (units - 1) * unit < bytes <= units * unit by {
      assert (units - 1) * unit == units * unit - unit;
    }
    forall n: int ensures n * unit >= bytes <==> n >= units {
      LeastMultiple(bytes, unit, units, n);
    }
  }

  function RoundUpGiB(bytes: int): int {
    RoundUp(bytes, GIB)
  }

  function GiBToBytes(gib: int): int {
    Wrap64(gib * GIB)
  }

  /** The least whole number of gibibytes that holds the request. */
  lemma RoundUpIsCeiling(bytes: int)
    ensures (RoundUpGiB(bytes) - 1) * 1073741824 < bytes <= RoundUpGiB(bytes) * 1073741824
    ensures forall n: int :: n * 1073741824 >= bytes <==> n >= RoundUpGiB(bytes)
  {
  }

  lemma QuotientBounds(a: int, b: int)
    requires b > 0
    ensures a >= 0 ==> 0 <= a - b * Quotient(a, b) < b
    ensures a < 0 ==> -b < a - b * Quotient(a, b) <= 0
  {
  }

  /** Between two neighbouring multiples there is no other. */
  lemma LeastMultiple(bytes: int, unit: int, units: int, n: int)
    requires unit > 0 && (units - 1) * unit < bytes <= units * unit
    ensures n * unit >= bytes <==> n >= units
  {
    if n >= units {
      assert (n - units) * unit >= 0;
    } else {
      assert (units - 1 - n) * unit >= 0;
    }
  }

  /** Expansion's target size in gibibytes and the bytes it reports, for any requested int64. */
  method ExpandSize(required: int) returns (target: nat, reported: int)
    requires IsInt64(required)
    ensures target == ToUint64(RoundUpGiB(required)) && reported == GiBToBytes(RoundUpGiB(required))
    ensures 0 <= required ==> (target - 1) * GIB < required <= target * GIB
    ensures 0 <= required ==> (required <= reported < required + GIB <==> required <= TWO_63 - GIB)
  {
    var gib := RoundUpSize(required, GIB);
    RoundUpIsCeiling(required);
    target, reported := ToUint64(gib), GiBToBytes(gib);
  }

  /** The capacity that expansion reports holds the request, with less than a gibibyte to spare, exactly up
      to 2^63 - 2^30 bytes; from there on the multiplication wraps to a negative capacity. */
  lemma ReportedCapacity(required: int)
    requires 0 <= required < TWO_63
    ensures required <= GiBToBytes(RoundUpGiB(required)) < required + GIB <==> required <= TWO_63 - GIB
    ensures required > TWO_63 - GIB ==> GiBToBytes(RoundUpGiB(required)) == -TWO_63
  {
    RoundUpIsCeiling(required);
  }

  /** The size CreateVolume asks the cloud for, in gibibytes. */
  function CreateSize(required: int): nat {
    ToUint64(Quotient(required, GIB))
  }

  /** CreateVolume reports the requested bytes but rounds the disk down: the report is covered exactly for
      whole gibibytes. */
  lemma CreateCoversIffWholeGiB(required: int)
    requires 0 <= required < TWO_63
    ensures CreateSize(required) * 1073741824 >= required <==> required % 1073741824 == 0
    ensures CreateSize(required) * 1073741824 == required - required % 1073741824
  {
  }

  /** The node's check of one device against the requested bytes. */
  predicate CapacityCheck(deviceBytes: int, required: int) {
    deviceBytes >= required
  }

  datatype Checked = Passed | TooSmall(device: nat)

  /** lvmExpand checks every device of the volume against the whole request. */
  method CheckDevices(deviceBytes: seq<int>, required: int) returns (r: Checked)
    ensures r.Passed? <==> forall i :: 0 <= i < |deviceBytes| ==> CapacityCheck(deviceBytes[i], required)
    ensures r.TooSmall? ==> r.device < |deviceBytes| && !CapacityCheck(deviceBytes[r.device], required)
                            && forall i :: 0 <= i < r.device ==> CapacityCheck(deviceBytes[i], required)
  {
    for i := 0 to |deviceBytes|
      invariant forall j :: 0 <= j < i ==> CapacityCheck(deviceBytes[j], required)
    {
      if deviceBytes[i] < required {
        return TooSmall(i);
      }
    }
    return Passed;
  }
}
