/** The Keplerian celestial body shared by the detailed solar system and the
    simulator: an orbit angle advanced by `orbital_speed * dt`, a position
    recomputed from that angle, and a pre-allocated 300-slot trail written
    as a ring. Both programs' `CelestialBody` classes are proved to step
    their state exactly as `Advance` does. */
module Kepler {
  import opened Common

  /** `MAX_TRAIL_LENGTH` in both programs. */
  const MaxTrailLength: nat := 300

  /** The state of one body as its class holds it. `slots` is the trail
      array; `history` (ghost in the classes) is every point ever written to
      the trail, oldest first. */
  datatype Body = Body(
    distance: real, orbitalSpeed: real, inclination: real,
    angle: real, pos: Vec3, rotationAngle: real,
    slots: seq<Vec3>, trailIndex: nat, trailCount: nat,
    history: seq<Vec3>)

  /** `slots` is a ring of capacity |slots| into which `history` was written
      one point at a time starting at slot 0: each of the last |slots|
      points sits at its index modulo the capacity, and a slot not yet
      reached still holds the zero the buffer was created with. */
  ghost predicate RingHolds(slots: seq<Vec3>, history: seq<Vec3>)
  {
    && |slots| > 0
    && (forall k {:trigger history[k]} :: 0 <= k < |history| && |history| - |slots| <= k ==>
          slots[k % |slots|] == history[k])
    && (forall s {:trigger Blank(slots, s)} :: |history| <= s < |slots| ==> Blank(slots, s))
  }

  /** Slot `s` still holds the zero the buffer was created with. */
  ghost predicate Blank(slots: seq<Vec3>, s: int)
  {
    0 <= s < |slots| && slots[s] == Origin
  }

  /** The body's trail invariant: the write index counts the points written,
      the live count saturates at the capacity, and the ring holds them. */
  ghost predicate TrailValid(b: Body)
  {
    && |b.slots| == MaxTrailLength
    && b.trailIndex == |b.history|
    && b.trailCount == MinNat(|b.history|, MaxTrailLength)
    && RingHolds(b.slots, b.history)
  }

  /** A body as its constructor leaves it: angle 0, position (distance, 0, 0)
      and an all-zero trail with nothing written. */
  function Fresh(distance: real, orbitalSpeed: real, inclination: real): (b: Body)
    ensures TrailValid(b) && b.trailCount == 0 && b.history == []
  {
    Body(distance, orbitalSpeed, inclination, 0.0, Vec3(distance, 0.0, 0.0), 0.0,
         seq(MaxTrailLength, _ => Origin), 0, 0, [])
  }

  /** One `update_position(dt)`: the angle moves by `orbital_speed * dt`,
      the body goes to the orbit point of the new angle and spins by
      `dt * 10` degrees, that point is written into slot
      `trail_index % capacity` and nowhere else, the write index is bumped,
      the live count saturates at the capacity, and the orbit parameters
      stay. */
  function Advance(b: Body, dt: real, t: Trig): (r: Body)
    requires |b.slots| > 0
    ensures r.angle == b.angle + b.orbitalSpeed * dt
    ensures r.pos == OrbitPoint(t, b.distance, b.inclination, r.angle)
    ensures r.rotationAngle == b.rotationAngle + dt * 10.0
    ensures |r.slots| == |b.slots| && r.slots[b.trailIndex % |b.slots|] == r.pos
    ensures forall s :: 0 <= s < |b.slots| && s != b.trailIndex % |b.slots| ==>
              r.slots[s] == b.slots[s]
    ensures r.trailIndex == b.trailIndex + 1
    ensures r.trailCount == MinNat(b.trailCount + 1, |b.slots|)
    ensures r.history == b.history + [r.pos]
    ensures r.distance == b.distance && r.orbitalSpeed == b.orbitalSpeed
    ensures r.inclination == b.inclination
  {
    Record(Place(b.(angle := b.angle + b.orbitalSpeed * dt), t)).(rotationAngle := b.rotationAngle + dt * 10.0)
  }

  /** `_calculate_position`: the body moves to the orbit point of its angle;
      nothing else changes. */
  function Place(b: Body, t: Trig): (r: Body)
    ensures r.pos == OrbitPoint(t, b.distance, b.inclination, b.angle)
    ensures r.(pos := b.pos) == b
  {
    b.(pos := OrbitPoint(t, b.distance, b.inclination, b.angle))
  }

  /** `_update_trail`: the current position goes into slot
      `trail_index % capacity` and no other, the write index is bumped and
      the live count saturates at the capacity; nothing else changes. */
  function Record(b: Body): (r: Body)
    requires |b.slots| > 0
    ensures |r.slots| == |b.slots| && r.slots[b.trailIndex % |b.slots|] == b.pos
    ensures forall s :: 0 <= s < |b.slots| && s != b.trailIndex % |b.slots| ==>
              r.slots[s] == b.slots[s]
    ensures r.trailIndex == b.trailIndex + 1
    ensures r.trailCount == MinNat(b.trailCount + 1, |b.slots|)
    ensures r.history == b.history + [b.pos]
    ensures r.(slots := b.slots, trailIndex := b.trailIndex, trailCount := b.trailCount,
               history := b.history) == b
  {
    b.(slots := b.slots[b.trailIndex % |b.slots| := b.pos],
       trailIndex := b.trailIndex + 1,
       trailCount := MinNat(b.trailCount + 1, |b.slots|),
       history := b.history + [b.pos])
  }

  /** Recording the trail does not touch the spin, so the two commute. */
  lemma RecordSpin(b: Body, rotationAngle: real)
    requires |b.slots| > 0
    ensures Record(b.(rotationAngle := rotationAngle)) == Record(b).(rotationAngle := rotationAngle)
  {
  }

  /** Two write positions closer than the capacity land in different slots. */
  lemma ModDistinct(a: int, b: int, n: int)
    requires 0 < n && 0 <= b < a < b + n
    ensures a % n != b % n
  {
    var qa, qb := a / n, b / n;
    if a % n == b % n {
      assert a - b == (qa - qb) * n;
      if qa - qb <= 0 {
        MulNonPositive(qa - qb, n);
      } else {
        MulAtLeast(qa - qb, n);
      }
    }
  }

  lemma MulNonPositive(q: int, n: int)
    requires q <= 0 && n > 0
    ensures q * n <= 0
  {
  }

  lemma MulAtLeast(q: int, n: int)
    requires q >= 1 && n > 0
    ensures q * n >= n
  {
  }

  /** Writing the next point at `|history| % capacity` keeps the ring. */
  lemma RingWrite(slots: seq<Vec3>, history: seq<Vec3>, p: Vec3)
    requires RingHolds(slots, history)
    ensures RingHolds(slots[|history| % |slots| := p], history + [p])
  {
    var n, w := |slots|, |history| % |slots|;
    var slots', history' := slots[w := p], history + [p];
    forall k | 0 <= k < |history'| && |history'| - n <= k
      ensures slots'[k % n] == history'[k]
    {
      if k < |history| {
        ModDistinct(|history|, k, n);
        assert k % n != w;
        assert slots'[k % n] == slots[k % n] == history[k];
      } else {
        assert k % n == w;
      }
    }
    forall s | |history'| <= s < n
      ensures Blank(slots', s)
    {
      ModSmall(|history|, n);
      assert Blank(slots, s);
    }
  }

  lemma ModSmall(a: int, n: int)
    requires 0 <= a < n
    ensures a % n == a
  {
  }

  /** Recording a point keeps the trail invariant: the slot written is the
      old write index modulo 300, the count saturates at 300. */
  lemma RecordKeepsTrailValid(b: Body)
    requires TrailValid(b)
    ensures TrailValid(Record(b))
  {
    RingWrite(b.slots, b.history, b.pos);
  }

  /** One update keeps the trail invariant. */
  lemma AdvanceKeepsTrailValid(b: Body, dt: real, t: Trig)
    requires TrailValid(b)
    ensures TrailValid(Advance(b, dt, t))
  {
    var r := Record(Place(b.(angle := b.angle + b.orbitalSpeed * dt), t));
    RecordKeepsTrailValid(Place(b.(angle := b.angle + b.orbitalSpeed * dt), t));
    assert Advance(b, dt, t) == r.(rotationAngle := b.rotationAngle + dt * 10.0);
    assert TrailValid(r);
  }

  /** The body after `update_position` was called with each of `dts` in turn. */
  function AdvanceAll(b: Body, dts: seq<real>, t: Trig): (r: Body)
    requires |b.slots| > 0
    ensures |r.slots| == |b.slots|
    ensures r.orbitalSpeed == b.orbitalSpeed
    ensures r.angle == b.angle + Swept(b.orbitalSpeed, dts)
    decreases |dts|
  {
    if dts == [] then b
    else
      var b1 := Advance(b, dts[0], t);
      AdvanceTurns(b, dts[0], t);
      AdvanceAll(b1, dts[1..], t)
  }

  function Sum(dts: seq<real>): real
    decreases |dts|
  {
    if dts == [] then 0.0 else dts[0] + Sum(dts[1..])
  }

  /** The angle swept at speed `v` over the steps `dts`, step by step. */
  function Swept(v: real, dts: seq<real>): real
    decreases |dts|
  {
    if dts == [] then 0.0 else v * dts[0] + Swept(v, dts[1..])
  }

  /** Sweeping step by step at a constant speed is sweeping the total time. */
  lemma {:induction false} SweptIsSpeedTimesSum(v: real, dts: seq<real>)
    ensures Swept(v, dts) == v * Sum(dts)
    decreases |dts|
  {
    if dts != [] {
      SweptIsSpeedTimesSum(v, dts[1..]);
      assert v * (dts[0] + Sum(dts[1..])) == v * dts[0] + v * Sum(dts[1..]);
    }
  }

  /** The angle and speed part of one update, on their own. */
  lemma AdvanceTurns(b: Body, dt: real, t: Trig)
    requires |b.slots| > 0
    ensures Advance(b, dt, t).angle == b.angle + b.orbitalSpeed * dt
    ensures Advance(b, dt, t).orbitalSpeed == b.orbitalSpeed
  {
  }

  /** Replaying updates: the angle grows by exactly `orbital_speed` times the
      total elapsed time. */
  lemma AdvanceAllAngle(b: Body, dts: seq<real>, t: Trig)
    requires |b.slots| > 0
    ensures AdvanceAll(b, dts, t).angle == b.angle + b.orbitalSpeed * Sum(dts)
  {
    SweptIsSpeedTimesSum(b.orbitalSpeed, dts);
  }

  /** Replaying updates: the write index grows by the number of updates and
      the live count saturates at the capacity. */
  lemma {:induction false} AdvanceAllCounts(b: Body, dts: seq<real>, t: Trig)
    requires |b.slots| > 0 && b.trailCount <= |b.slots|
    ensures AdvanceAll(b, dts, t).trailIndex == b.trailIndex + |dts|
    ensures AdvanceAll(b, dts, t).trailCount == MinNat(b.trailCount + |dts|, |b.slots|)
    decreases |dts|
  {
    if dts != [] {
      AdvanceAllCounts(Advance(b, dts[0], t), dts[1..], t);
    }
  }

  /** After k updates from construction the trail holds min(k, 300) live
      points, and the ring invariant still holds. */
  lemma {:induction false} CountFromConstruction(distance: real, orbitalSpeed: real, inclination: real,
                                                 dts: seq<real>, t: Trig)
    ensures AdvanceAll(Fresh(distance, orbitalSpeed, inclination), dts, t).trailCount
              == MinNat(|dts|, MaxTrailLength)
    ensures TrailValid(AdvanceAll(Fresh(distance, orbitalSpeed, inclination), dts, t))
  {
    var b := Fresh(distance, orbitalSpeed, inclination);
    AdvanceAllCounts(b, dts, t);
    AdvanceAllKeepsTrailValid(b, dts, t);
  }

  lemma {:induction false} AdvanceAllKeepsTrailValid(b: Body, dts: seq<real>, t: Trig)
    requires TrailValid(b)
    ensures TrailValid(AdvanceAll(b, dts, t))
    decreases |dts|
  {
    if dts != [] {
      AdvanceKeepsTrailValid(b, dts[0], t);
      AdvanceAllKeepsTrailValid(Advance(b, dts[0], t), dts[1..], t);
    }
  }

  /** The points the trail still holds: the last min(k, 300) written. */
  function LivePoints(b: Body): (live: seq<Vec3>)
    requires TrailValid(b)
    ensures live == b.history[|b.history| - b.trailCount..]
    ensures |live| == b.trailCount
    ensures forall j :: 0 <= j < |live| ==>
              live[j] == b.slots[(b.trailIndex - b.trailCount + j) % MaxTrailLength]
  {
    var live := b.history[|b.history| - b.trailCount..];
    assert forall j :: 0 <= j < |live| ==> live[j] == b.history[|b.history| - b.trailCount + j];
    live
  }
}
