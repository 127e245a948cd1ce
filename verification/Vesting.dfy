/** Linear vesting with a cliff, and releases that telescope. */
module Vesting {
  import opened Types
  import opened Arithmetic
  import opened Sequences

  datatype Schedule = Schedule(
    totalAmount: nat,
    startHeight: Height,
    cliffHeight: Height,
    endHeight: Height)

  function VestedAmount(s: Schedule, height: Height): nat {
    if height < s.cliffHeight then 0
    else if height >= s.endHeight then s.totalAmount
    else
      var start := Max(s.startHeight, s.cliffHeight);
      if s.endHeight <= start then s.totalAmount
      else Div(Sat(s.totalAmount * SatSub(height, start)), s.endHeight - start)
  }

  /** What a release at this height pays when `released` has been paid already. */
  function Releasable(s: Schedule, released: nat, height: Height): nat {
    SatSub(VestedAmount(s, height), released)
  }

  lemma LinearPart(total: nat, elapsed: nat, later: nat, duration: nat)
    requires elapsed <= later <= duration && 0 < duration
    ensures Div(Sat(total * elapsed), duration) <= Div(Sat(total * later), duration) <= total
  {
    MulMono(total, total, elapsed, later);
    MulMono(total, total, later, duration);
    DivMono(Sat(total * elapsed), Sat(total * later), duration);
    DivMono(Sat(total * later), total * duration, duration);
    DivIsFloor(total * duration, duration, total);
  }

  /** More height never means less vested, and never more than the whole, however cliff,
      start and end are ordered. */
  lemma VestedMonotone(s: Schedule, a: Height, b: Height)
    requires a <= b
    ensures VestedAmount(s, a) <= VestedAmount(s, b) <= s.totalAmount
  {
    var start := Max(s.startHeight, s.cliffHeight);
    if s.cliffHeight <= b < s.endHeight && start < s.endHeight {
      LinearPart(s.totalAmount, SatSub(a, start), SatSub(b, start), s.endHeight - start);
    } else if s.cliffHeight <= a < s.endHeight && start < s.endHeight {
      LinearPart(s.totalAmount, SatSub(a, start), SatSub(a, start), s.endHeight - start);
    }
  }

  /** What has vested when: nothing before the cliff; everything from the end on, or from the
      cliff on if nothing lies between; and in between the fraction of the time that has
      passed since the later of start and cliff, rounded down. */
  lemma VestedMeans(s: Schedule, height: Height)
    ensures var start, vested := Max(s.startHeight, s.cliffHeight), VestedAmount(s, height);
            if height < s.cliffHeight then vested == 0
            else if height >= s.endHeight || start >= s.endHeight then vested == s.totalAmount
            else if height <= start then vested == 0
            else s.totalAmount * (height - start) <= U128_MAX ==>
                   var duration := s.endHeight - start;
                   vested * duration <= s.totalAmount * (height - start) < (vested + 1) * duration
  {
    var start := Max(s.startHeight, s.cliffHeight);
    if s.cliffHeight <= height < s.endHeight && start < s.endHeight {
      if height <= start {
        DivIsFloor(0, s.endHeight - start, 0);
      } else {
        DivBounds(s.totalAmount * (height - start), s.endHeight - start);
        Distribute(VestedAmount(s, height), 1, s.endHeight - start);
      }
    }
  }

  class VestingSchedule {
    const schedule: Schedule
    var released: nat

    constructor (schedule: Schedule)
      ensures this.schedule == schedule && released == 0
    {
      this.schedule := schedule;
      released := 0;
    }

    /** Pays what has vested beyond the amount already released, and so nothing at a
        height whose vested amount has been reached before. */
    method Release(currentHeight: Height) returns (amount: nat)
      modifies this
      ensures amount == Releasable(schedule, old(released), currentHeight)
      ensures released == Sat(old(released) + amount)
    {
      var vested := VestedAmount(schedule, currentHeight);
      amount := SatSub(vested, released);
      released := Sat(released + amount);
    }
  }

  /** The released total after calls at the given heights, and what they paid. */
  function ReleasedAfter(s: Schedule, heights: seq<Height>): nat {
    if heights == [] then 0
    else
      var before := ReleasedAfter(s, heights[..|heights| - 1]);
      Sat(before + Releasable(s, before, heights[|heights| - 1]))
  }

  function Payments(s: Schedule, heights: seq<Height>): seq<nat> {
    if heights == [] then []
    else
      var n := |heights| - 1;
      Payments(s, heights[..n]) + [Releasable(s, ReleasedAfter(s, heights[..n]), heights[n])]
  }

  function Greatest(heights: seq<Height>): Height {
    if heights == [] then 0 else Max(Greatest(heights[..|heights| - 1]), heights[|heights| - 1])
  }

  /** However often and in whatever order releases are called, the payments add up to the
      vested amount at the greatest height called, and never to more than the grant. */
  lemma {:induction false} ReleasesTelescope(s: Schedule, heights: seq<Height>)
    requires s.totalAmount <= U128_MAX && heights != []
    ensures SumBy(Payments(s, heights), Itself) == ReleasedAfter(s, heights) == VestedAmount(s, Greatest(heights))
    ensures ReleasedAfter(s, heights) <= s.totalAmount
  {
    hide VestedAmount;
    var n := |heights| - 1;
    var h := heights[n];
    SumByPush(Payments(s, heights[..n]), Releasable(s, ReleasedAfter(s, heights[..n]), h), Itself);
    VestedMonotone(s, h, h);
    if n > 0 {
      ReleasesTelescope(s, heights[..n]);
      var g := Greatest(heights[..n]);
      if g <= h {
        VestedMonotone(s, g, h);
      } else {
        VestedMonotone(s, h, g);
      }
    } else {
      assert Max(0, h) == h;
    }
  }
}
