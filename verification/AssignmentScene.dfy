/**
 The state machines of the Assignment scene's `UpdateScene`: the texture
 `change` ping-pong, the orbit of lights 0 and 3 with its pause toggle, the
 hue cycle of light 2 (module `HueCycle`) and the pulsing strength of
 light 1.
 */
module AssignmentScene {

  import opened Geometry
  import HueCycle

  //// The `change` ping-pong

  /** `wiggle` (total time), `change` (a blend factor in [0, 1]) and the direction `change` is moving in. */
  datatype Wiggle = Wiggle(wiggle: real, change: real, direction: real)

  /** The globals' initial values. */
  const InitialWiggle := Wiggle(0.0, 0.0, 1.0)

  /** Advance by `frameTime`, clamping `change` to [0, 1] and reversing at either end. */
  function StepWiggle(w: Wiggle, frameTime: real): (r: Wiggle)
    ensures r.wiggle == w.wiggle + frameTime
    ensures 0.0 <= r.change <= 1.0
    ensures var c := w.change + frameTime / 2.0 * w.direction;
            && (c > 1.0 ==> r.change == 1.0 && r.direction == -1.0)
            && (c < 0.0 ==> r.change == 0.0 && r.direction == 1.0)
            && (0.0 <= c <= 1.0 ==> r.change == c && r.direction == w.direction)
  {
    var c := w.change + frameTime / 2.0 * w.direction;
    var (c1, d1) := if c > 1.0 then (1.0, -1.0) else (c, w.direction);
    var (c2, d2) := if c1 < 0.0 then (0.0, 1.0) else (c1, d1);
    Wiggle(w.wiggle + frameTime, c2, d2)
  }

  /** The state after one frame per entry of `frameTimes`, in order; each frame may last a different time. */
  function Wiggles(w: Wiggle, frameTimes: seq<real>): Wiggle
  {
    if |frameTimes| == 0 then w
    else StepWiggle(Wiggles(w, frameTimes[..|frameTimes| - 1]), frameTimes[|frameTimes| - 1])
  }

  /**
   Whatever the frame times, the direction is always +1 or -1 and `change`
   stays in [0, 1]: both start there and every frame keeps them there.
   */
  lemma {:induction false} DirectionIsUnit(frameTimes: seq<real>)
    ensures var w := Wiggles(InitialWiggle, frameTimes);
            (w.direction == 1.0 || w.direction == -1.0) && 0.0 <= w.change <= 1.0
  {
    if |frameTimes| > 0 {
      DirectionIsUnit(frameTimes[..|frameTimes| - 1]);
    }
  }

  /**
   The ping-pong: a frame that takes `change` over the top clamps it and
   turns it round, and a next frame of at most two seconds brings it down by
   half that frame's time.
   */
  lemma Bounce(w: Wiggle, t1: real, t2: real)
    requires w.direction == 1.0 && w.change + t1 / 2.0 > 1.0
    requires 0.0 <= t2 <= 2.0
    ensures var w1 := StepWiggle(w, t1);
            var w2 := StepWiggle(w1, t2);
            && w1.change == 1.0 && w1.direction == -1.0
            && w2.change == 1.0 - t2 / 2.0 && w2.direction == -1.0
  {
  }

  //// The orbit of lights 0 and 3

  const kLightOrbit: real := 20.0
  const kLightOrbitSpeed: real := 0.7

  /** `UpdateScene`'s function-static `rotate` and `go`, initially 0 and true. */
  datatype Orbit = Orbit(rotate: real, go: bool)

  const InitialOrbit := Orbit(0.0, true)

  /** Light positions for one frame, on the circle at the current angle, 10 and 1 units above their targets. */
  datatype OrbitLights = OrbitLights(light0: Vec3, light3: Vec3)

  /**
   One frame of the orbit: both lights are placed at the current angle, then
   the angle falls by `kLightOrbitSpeed * frameTime` if the orbit is running,
   and only then does a press of key 1 toggle `go`.
   */
  function StepOrbit(maths: Maths, o: Orbit, frameTime: real, hit1: bool, character: Vec3, specular: Vec3): (r: (Orbit, OrbitLights))
    ensures r.0.rotate == if o.go then o.rotate - kLightOrbitSpeed * frameTime else o.rotate
    ensures r.0.go == (o.go != hit1)
    ensures r.1.light0 == Vec3(character.x + maths.cos(o.rotate) * kLightOrbit, character.y + 10.0,
                               character.z + maths.sin(o.rotate) * kLightOrbit)
    ensures r.1.light3 == Vec3(specular.x + maths.cos(o.rotate) * kLightOrbit, specular.y + 1.0,
                               specular.z + maths.sin(o.rotate) * kLightOrbit)
  {
    var ring := Vec3(maths.cos(o.rotate) * kLightOrbit, 0.0, maths.sin(o.rotate) * kLightOrbit);
    var lights := OrbitLights(character.Plus(ring.Plus(Vec3(0.0, 10.0, 0.0))), specular.Plus(ring.Plus(Vec3(0.0, 1.0, 0.0))));
    var rotate := if o.go then o.rotate - kLightOrbitSpeed * frameTime else o.rotate;
    var go := if hit1 then !o.go else o.go;
    (Orbit(rotate, go), lights)
  }

  /** Pressing key 1 on two frames restores the orbit's running state; a paused orbit keeps its angle. */
  lemma PauseResume(maths: Maths, o: Orbit, t1: real, t2: real, c: Vec3, s: Vec3)
    requires !o.go
    ensures var o1 := StepOrbit(maths, o, t1, true, c, s).0;
            var o2 := StepOrbit(maths, o1, t2, true, c, s).0;
            && o1.go && o1.rotate == o.rotate
            && !o2.go && o2.rotate == o.rotate - kLightOrbitSpeed * t2
  {
  }

  /** Where `cos` and `sin` agree with the unit circle, both lights are `kLightOrbit` from their targets' vertical axes. */
  lemma OrbitRadius(maths: Maths, o: Orbit, frameTime: real, hit1: bool, c: Vec3, s: Vec3)
    requires maths.cos(o.rotate) * maths.cos(o.rotate) + maths.sin(o.rotate) * maths.sin(o.rotate) == 1.0
    ensures var l := StepOrbit(maths, o, frameTime, hit1, c, s).1;
            && (l.light0.x - c.x) * (l.light0.x - c.x) + (l.light0.z - c.z) * (l.light0.z - c.z) == kLightOrbit * kLightOrbit
            && (l.light3.x - s.x) * (l.light3.x - s.x) + (l.light3.z - s.z) * (l.light3.z - s.z) == kLightOrbit * kLightOrbit
  {
    var co, si := maths.cos(o.rotate), maths.sin(o.rotate);
    assert (co * 20.0) * (co * 20.0) + (si * 20.0) * (si * 20.0) == 400.0 * (co * co + si * si);
  }

  //// The pulse of light 1

  /** Light 1's strength, the `strengthIsZero` flag, and the light model's scale. */
  datatype Pulse = Pulse(strength: real, strengthIsZero: bool, scale: real)

  /**
   The state `InitScene` leaves: strength 40 and the flag clear, but the
   model's scale set from `pow(15, 0.7)` rather than from the strength.
   */
  function InitialPulse(maths: Maths): Pulse
  {
    Pulse(40.0, false, maths.pow(15.0, 0.7))
  }

  const kStrengthStep: real := 0.1
  const kMaxStrength: real := 40.0

  /**
   One frame: the strength moves by 0.1, down while the flag is clear and up
   while it is set; the scale is `pow(strength, 0.7)`; then the flag is set
   when the strength is below 0 and cleared when it is above 40.
   */
  function StepPulse(maths: Maths, p: Pulse): (r: Pulse)
    ensures r.strength == if p.strengthIsZero then p.strength + kStrengthStep else p.strength - kStrengthStep
    ensures r.scale == maths.pow(r.strength, 0.7)
    ensures r.strengthIsZero == if r.strength < 0.0 then true else if r.strength > kMaxStrength then false else p.strengthIsZero
  {
    var s := if !p.strengthIsZero then p.strength - kStrengthStep else p.strength + kStrengthStep;
    var flag := if s < 0.0 then true else p.strengthIsZero;
    var flag2 := if s > kMaxStrength then false else flag;
    Pulse(s, flag2, maths.pow(s, 0.7))
  }

  /** The band the strength stays in: [-0.1, 40] while rising, [0, 40.1] while falling. */
  predicate InBand(p: Pulse)
  {
    && (p.strengthIsZero ==> -kStrengthStep <= p.strength <= kMaxStrength)
    && (!p.strengthIsZero ==> 0.0 <= p.strength <= kMaxStrength + kStrengthStep)
  }

  lemma StepPulseInBand(maths: Maths, p: Pulse)
    requires InBand(p)
    ensures InBand(StepPulse(maths, p))
  {
  }

  /** `n` frames. */
  function Pulses(maths: Maths, p: Pulse, n: nat): Pulse
  {
    if n == 0 then p else StepPulse(maths, Pulses(maths, p, n - 1))
  }

  /** From the initial state the strength never leaves [-0.1, 40.1]. */
  lemma {:induction false} PulseBounded(maths: Maths, n: nat)
    ensures InBand(Pulses(maths, InitialPulse(maths), n))
    ensures -kStrengthStep <= Pulses(maths, InitialPulse(maths), n).strength <= kMaxStrength + kStrengthStep
  {
    if n > 0 {
      PulseBounded(maths, n - 1);
      StepPulseInBand(maths, Pulses(maths, InitialPulse(maths), n - 1));
    }
  }

  /**
   The first 400 frames fade the strength from 40 to 0 in steps of 0.1 with
   the flag clear; the flag is only set once the strength has gone below 0.
   The scale starts at `pow(15, 0.7)` and from the first frame follows the
   strength.
   */
  lemma {:induction false} FadeOut(maths: Maths, n: nat)
    requires n <= 400
    ensures Pulses(maths, InitialPulse(maths), n).strength == kMaxStrength - (n as real) * kStrengthStep
    ensures !Pulses(maths, InitialPulse(maths), n).strengthIsZero
    ensures Pulses(maths, InitialPulse(maths), n).scale
         == if n == 0 then maths.pow(15.0, 0.7) else maths.pow(kMaxStrength - (n as real) * kStrengthStep, 0.7)
  {
    if n > 0 {
      FadeOut(maths, n - 1);
    }
  }

  /** Frame 401 takes the strength to -0.1, a negative base for `pow`, before the flag turns it round. */
  lemma StrengthGoesNegative(maths: Maths)
    ensures Pulses(maths, InitialPulse(maths), 401).strength == -kStrengthStep
    ensures Pulses(maths, InitialPulse(maths), 401).strengthIsZero
    ensures Pulses(maths, InitialPulse(maths), 401).scale == maths.pow(-kStrengthStep, 0.7)
  {
    FadeOut(maths, 400);
  }

  //// The whole update

  datatype State = State(wiggle: Wiggle, orbit: Orbit, hue: HueCycle.Hue, pulse: Pulse)

  function InitialState(maths: Maths): State
  {
    State(InitialWiggle, InitialOrbit, HueCycle.Start, InitialPulse(maths))
  }

  /** What one frame hands to the renderer: light 0 and 3 positions and light 2's colour. */
  datatype Frame = Frame(lights: OrbitLights, light2Colour: (real, real, real))

  /**
   `UpdateScene`'s state logic for one frame. `hit1` is whether key 1 was
   hit; `character` and `specular` are the positions of the models the
   lights orbit. Each part advances on its own state only.
   */
  function UpdateScene(maths: Maths, s: State, frameTime: real, hit1: bool, character: Vec3, specular: Vec3): (r: (State, Frame))
    ensures r.0.wiggle == StepWiggle(s.wiggle, frameTime)
    ensures (r.0.orbit, r.1.lights) == StepOrbit(maths, s.orbit, frameTime, hit1, character, specular)
    ensures r.0.hue == HueCycle.Step(s.hue)
    ensures HueCycle.OnCycle(s.hue) || s.hue == HueCycle.Start ==>
              && HueCycle.OnCycle(r.0.hue) && HueCycle.OnHexagon(r.0.hue)
              && 0.0 <= r.1.light2Colour.0 <= 1.0 && 0.0 <= r.1.light2Colour.1 <= 1.0 && 0.0 <= r.1.light2Colour.2 <= 1.0
    ensures r.1.light2Colour == HueCycle.LightColour(r.0.hue)
    ensures r.0.pulse == StepPulse(maths, s.pulse)
  {
    var (orbit, lights) := StepOrbit(maths, s.orbit, frameTime, hit1, character, specular);
    var hue := HueCycle.Step(s.hue);
    assert HueCycle.OnCycle(s.hue) || s.hue == HueCycle.Start ==> HueCycle.OnCycle(hue) && HueCycle.OnHexagon(hue) by {
      if HueCycle.OnCycle(s.hue) || s.hue == HueCycle.Start {
        HueCycle.StepStaysOnCycle(s.hue);
      }
    }
    (State(StepWiggle(s.wiggle, frameTime), orbit, hue, StepPulse(maths, s.pulse)),
     Frame(lights, HueCycle.LightColour(hue)))
  }
}
