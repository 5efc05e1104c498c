/** The simple solar system: a sun and an earth on a flat circular orbit.
    The earth's angle is in degrees and grows by a fixed step each frame;
    its trail is a list holding at most the 50 most recent positions,
    oldest first. */
module SimpleSolarSystem {
  import opened Common

  /** `max_trail`. */
  const MaxTrail: nat := 50

  /** The position on the flat orbit of radius `distance` at `angle`
      degrees: `(d cos a, 0, d sin a)`. */
  function OrbitPosition(t: Trig, distance: real, angle: real): (p: Vec3)
    ensures p.y == 0.0
  {
    Vec3(distance * t.cos(Radians(t, angle)), 0.0, distance * t.sin(Radians(t, angle)))
  }

  /** The last `min(|s|, n)` elements of `s`. */
  function LastN<T>(s: seq<T>, n: nat): (r: seq<T>)
    ensures |r| == MinNat(|s|, n)
    ensures forall i :: 0 <= i < |r| ==> r[i] == s[|s| - |r| + i]
  {
    if |s| <= n then s else s[|s| - n..]
  }

  /** `append` then, past capacity, `pop(0)`. */
  function Push<T>(trail: seq<T>, p: T, cap: nat): seq<T>
  {
    if |trail + [p]| > cap then (trail + [p])[1..] else trail + [p]
  }

  /** Appending with a pop past the capacity keeps a sliding window: if
      the list was the last `cap` elements of a history, it becomes the last
      `cap` elements of the history extended by the new point. */
  lemma {:induction false} PushSlides<T>(h: seq<T>, p: T, cap: nat)
    requires cap > 0
    ensures Push(LastN(h, cap), p, cap) == LastN(h + [p], cap)
  {
    var w, h' := LastN(h, cap), h + [p];
    var lhs, rhs := Push(w, p, cap), LastN(h', cap);
    assert |lhs| == |rhs| by {
      if |h| < cap {
        assert |w| == |h|;
      } else {
        assert |w| == cap;
      }
    }
    forall i | 0 <= i < |lhs|
      ensures lhs[i] == rhs[i]
    {
      if |w + [p]| > cap {
        assert lhs[i] == (w + [p])[i + 1];
      } else {
        assert lhs[i] == (w + [p])[i];
      }
    }
  }

  /** What `draw_trail` passes to the line strip: nothing for fewer than two
      points, otherwise every point of the trail in order. */
  function TrailStrip(trail: seq<Vec3>): (strip: seq<Vec3>)
    ensures |trail| < 2 ==> strip == []
    ensures |trail| >= 2 ==> strip == trail
  {
    if |trail| < 2 then [] else trail
  }

  /** A body on a flat orbit with a bounded trail. */
  class CelestialBody {
    const distance: real
    const radius: real
    const color: Vec3
    const maxTrail: nat
    /** In degrees. */
    var angle: real
    var trail: seq<Vec3>
    /** Every position `update` has computed, oldest first. */
    ghost var computed: seq<Vec3>

    /** The trail is the last `max_trail` positions computed, all of them
        on the orbit plane y = 0. */
    ghost predicate Valid()
      reads this
    {
      && maxTrail == MaxTrail
      && trail == LastN(computed, maxTrail)
      && forall i :: 0 <= i < |computed| ==> computed[i].y == 0.0
    }

    constructor (distance: real, radius: real, color: Vec3)
      ensures Valid() && trail == [] && computed == [] && angle == 0.0
      ensures this.distance == distance && this.radius == radius && this.color == color
    {
      this.distance := distance;
      this.radius := radius;
      this.color := color;
      angle := 0.0;
      trail := [];
      maxTrail := 50;
      computed := [];
    }

    /** `update(speed)`: the angle grows by `speed` degrees, the new
        position is appended to the trail and, once the trail holds more
        than 50 points, the oldest is dropped. */
    method Update(speed: real, t: Trig)
      requires Valid()
      modifies this
      ensures Valid()
      ensures angle == old(angle) + speed
      ensures computed == old(computed) + [OrbitPosition(t, distance, angle)]
      ensures trail == Push(old(trail), OrbitPosition(t, distance, angle), MaxTrail)
      ensures |trail| == MinNat(|old(trail)| + 1, MaxTrail)
      ensures trail[|trail| - 1] == DrawPosition(t)
    {
      ghost var before := trail;
      angle := angle + speed;
      var p := OrbitPosition(t, distance, angle);
      assert Vec3(p.x, 0.0, p.z) == p;
      trail := trail + [Vec3(p.x, 0.0, p.z)];
      if |trail| > maxTrail {
        trail := trail[1..];
      }
      assert trail == Push(before, p, MaxTrail);
      PushSlides(computed, p, MaxTrail);
      computed := computed + [p];
    }

    /** Where `draw` puts the body. */
    function DrawPosition(t: Trig): (p: Vec3)
      reads this
      ensures p == OrbitPosition(t, distance, angle)
    {
      Vec3(distance * t.cos(Radians(t, angle)), 0.0, distance * t.sin(Radians(t, angle)))
    }

    /** The vertices `draw_trail` emits. */
    method DrawTrail() returns (strip: seq<Vec3>)
      ensures strip == TrailStrip(trail)
    {
      strip := [];
      if |trail| < 2 {
        return;
      }
      for i := 0 to |trail|
        invariant strip == trail[..i]
      {
        strip := strip + [trail[i]];
      }
    }
  }

  /** The script's main loop, `frames` times over: the earth advances by
      0.5 degrees per frame, so after n frames from its construction its
      angle is 0.5 n and its trail holds min(n, 50) points. */
  method RunFrames(earth: CelestialBody, frames: nat, t: Trig)
    requires earth.Valid()
    modifies earth
    ensures earth.Valid()
    ensures earth.angle == old(earth.angle) + 0.5 * frames as real
    ensures |earth.trail| == MinNat(|old(earth.trail)| + frames, MaxTrail)
  {
    for n := 0 to frames
      invariant earth.Valid()
      invariant earth.angle == old(earth.angle) + 0.5 * n as real
      invariant |earth.trail| == MinNat(|old(earth.trail)| + n, MaxTrail)
    {
      earth.Update(0.5, t);
    }
  }

  /** The two bodies the script creates. */
  method CreateBodies() returns (sun: CelestialBody, earth: CelestialBody)
    ensures sun.distance == 0.0 && sun.radius == 20.0 && sun.color == Vec3(1.0, 1.0, 0.0)
    ensures earth.distance == 100.0 && earth.radius == 8.0 && earth.color == Vec3(0.0, 0.5, 1.0)
    ensures earth.Valid() && earth.trail == [] && earth.angle == 0.0
  {
    sun := new CelestialBody(0.0, 20.0, Vec3(1.0, 1.0, 0.0));
    earth := new CelestialBody(100.0, 8.0, Vec3(0.0, 0.5, 1.0));
  }
}
