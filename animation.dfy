// The per-frame state of the logo demo's `animate` loop (js/main.js:289-391):
// the logo's rotation angle and its normal matrix, and the lightning bolt's
// two-state machine (idle or active) with its countdown timer.
//
// `Math.random()` is replaced by the sequence of numbers a frame draws, in
// the order the source draws them; `Math.cos` and `Math.sin` are parameters.
module Animation {
  import opened Geometry
  import Lightning
  import Mat4

  datatype Option<T> = None | Some(value: T)

  /** The closure variables `animate` updates every frame. */
  datatype State = State(rotation: real, lightningActive: bool, lightningTimer: real, lightningVertsCount: int)

  /** The values `animate` starts from (js/main.js:259-261, 289). */
  const Initial := State(0.0, false, 0.0, 0)

  const RotationStep: real := 0.02
  const TriggerChance: real := 0.02
  const TimerStep: real := 0.05

  /**
   * The most numbers one frame draws: the trigger draw, four endpoint
   * draws, 62 draws inside the bolt's geometry and the colour draw.
   */
  const FrameDraws: nat := 1 + BoltDraws + 1

  /** The numbers a bolt's end points and geometry take. */
  const BoltDraws: nat := 4 + Lightning.Draws(Lightning.Depth)

  datatype Colour = Cyan | Magenta

  /**
   * A freshly generated bolt: its end points and the (x, z) handed to the
   * background as the explosion position. Its line strip is `BoltVertices`.
   */
  datatype Bolt = Bolt(start: Vec3, end: Vec3, explosion: (real, real))

  /**
   * What one frame does: the state it leaves, the bolt it generates (if it
   * triggers one) and the colour the bolt is drawn in (if one is drawn).
   */
  datatype FrameResult = FrameResult(next: State, bolt: Option<Bolt>, flash: Option<Colour>)

  /**
   * The end points and the explosion drawn from the four numbers after the
   * trigger draw (js/main.js:343-349, 361).
   */
  function NewBolt(draws: seq<real>): Bolt
    requires |draws| >= 4
  {
    var end := Vec3((draws[2] - 0.5) * 10.0, -2.0, -2.0 - draws[3] * 5.0);
    Bolt(Vec3((draws[0] - 0.5) * 10.0, 5.0, -5.0 - draws[1] * 5.0), end, (end.x * 0.1, end.z * 0.1))
  }

  /**
   * The line strip `createLightningGeometry` builds between the bolt's end
   * points from the 62 numbers after its four end-point draws.
   */
  function BoltVertices(bolt: Bolt, draws: seq<real>): seq<real>
    requires |draws| >= BoltDraws
  {
    Lightning.Flatten(Lightning.GenerateSegments(bolt.start, bolt.end, Lightning.InitialDisplacement, Lightning.Depth, draws[4..BoltDraws], 0))
  }

  /** The number of points in every bolt's line strip. */
  const BoltPoints: nat := Lightning.Pow2(Lightning.Depth) + 1

  /**
   * One call of `animate`, as far as it touches the state: the rotation
   * advances (js/main.js:291), then the lightning blocks run.
   */
  function Frame(s: State, draws: seq<real>): FrameResult
    requires |draws| >= FrameDraws
  {
    LightningFrame(s.(rotation := s.rotation + RotationStep), draws)
  }

  /**
   * The trigger block and the active block of js/main.js:338-391. `!active
   * && Math.random() < 0.02` short-circuits, so a frame that starts active
   * draws no trigger number; the colour is drawn from whatever number comes
   * next. The vertex count `boltVerts.length / 3` is the bolt's number of
   * points, which `BoltShape` shows.
   */
  function LightningFrame(s: State, draws: seq<real>): FrameResult
    requires |draws| >= FrameDraws
  {
    var triggered := !s.lightningActive && draws[0] < TriggerChance;
    var bolt := if triggered then Some(NewBolt(draws[1..])) else None;
    var active := s.lightningActive || triggered;
    var timer := if triggered then 1.0 else s.lightningTimer;
    var count := if triggered then BoltPoints else s.lightningVertsCount;
    var colourDraw := if s.lightningActive then 0 else FrameDraws - 1;
    if active then
      var flash := if draws[colourDraw] > 0.5 then Cyan else Magenta;
      var timer' := timer - TimerStep;
      FrameResult(State(s.rotation, !(timer' <= 0.0), timer', count), bolt, Some(flash))
    else
      FrameResult(State(s.rotation, false, timer, count), bolt, None)
  }

  /** The states before each of the frames `frames` and after the last. */
  function Trace(s: State, frames: seq<seq<real>>): (r: seq<State>)
    requires forall i :: 0 <= i < |frames| ==> |frames[i]| >= FrameDraws
    ensures |r| == |frames| + 1 && r[0] == s
    ensures forall i :: 0 <= i < |frames| ==> r[i + 1] == Frame(r[i], frames[i]).next
    decreases |frames|
  {
    if frames == [] then [s]
    else
      var rest := Trace(Frame(s, frames[0]).next, frames[1..]);
      assert forall i :: 1 <= i < |frames| ==> rest[i] == Frame(rest[i - 1], frames[i]).next;
      [s] + rest
  }

  // ---------------------------------------------------------------------------
  // Properties of one frame
  // ---------------------------------------------------------------------------

  /**
   * A bolt is generated exactly when the lightning is idle and the trigger
   * draw is below 0.02; generating one restarts the timer at 1.0, and the
   * same frame already draws the bolt and counts the timer down once.
   */
  lemma TriggerExactly(s: State, draws: seq<real>)
    requires |draws| >= FrameDraws
    ensures var r := Frame(s, draws);
      r.bolt.Some? <==> !s.lightningActive && draws[0] < TriggerChance
    ensures var r := Frame(s, draws);
      r.bolt.Some? ==>
        r.next.lightningActive && r.next.lightningTimer == 1.0 - TimerStep &&
        r.next.lightningVertsCount == BoltPoints && r.flash.Some?
  {
  }

  /**
   * A bolt's line strip has 33 points, 99 numbers, and runs from its start
   * to its end.
   */
  lemma BoltShape(bolt: Bolt, draws: seq<real>)
    requires |draws| >= BoltDraws
    ensures BoltPoints == 33
    ensures var v := BoltVertices(bolt, draws);
      |v| == 99 &&
      v[0] == bolt.start.x && v[1] == bolt.start.y && v[2] == bolt.start.z &&
      v[96] == bolt.end.x && v[97] == bolt.end.y && v[98] == bolt.end.z
  {
    Lightning.FixedDepth();
    StripEnds(Lightning.GenerateSegments(bolt.start, bolt.end, Lightning.InitialDisplacement, Lightning.Depth, draws[4..BoltDraws], 0));
  }

  lemma StripEnds(points: seq<Vec3>)
    requires |points| == 33
    ensures var v := Lightning.Flatten(points);
      |v| == 99 &&
      v[0] == points[0].x && v[1] == points[0].y && v[2] == points[0].z &&
      v[96] == points[32].x && v[97] == points[32].y && v[98] == points[32].z
  {
    var v := Lightning.Flatten(points);
    assert v[3 * 0] == points[0].x;
    assert v[3 * 32] == points[32].x;
  }

  /**
   * For draws in [0, 1) a bolt starts 5 up and somewhere in
   * [-5, 5) x (-10, -5] across and deep, ends at -2 in [-5, 5) x (-7, -2],
   * and the explosion is at a tenth of the end's x and z.
   */
  lemma BoltEnds(s: State, draws: seq<real>)
    requires |draws| >= FrameDraws && Lightning.UnitDraws(draws)
    ensures var r := Frame(s, draws);
      r.bolt.Some? ==>
        var b := r.bolt.value;
        b.start.y == 5.0 && -5.0 <= b.start.x < 5.0 && -10.0 < b.start.z <= -5.0 &&
        b.end.y == -2.0 && -5.0 <= b.end.x < 5.0 && -7.0 < b.end.z <= -2.0 &&
        b.explosion == (0.1 * b.end.x, 0.1 * b.end.z)
  {
  }

  /**
   * An idle frame whose trigger draw is at least 0.02 only turns the logo:
   * the lightning stays idle, its timer and vertex count unchanged.
   */
  lemma IdleFrame(s: State, draws: seq<real>)
    requires |draws| >= FrameDraws && !s.lightningActive && draws[0] >= TriggerChance
    ensures Frame(s, draws) == FrameResult(s.(rotation := s.rotation + RotationStep), None, None)
  {
  }

  /** While a bolt is active, no other one is generated. */
  lemma NoBoltWhileActive(s: State, draws: seq<real>)
    requires |draws| >= FrameDraws && s.lightningActive
    ensures Frame(s, draws).bolt == None
    ensures Frame(s, draws).flash.Some?
  {
  }

  /** Every frame turns the logo by 0.02, whatever the lightning does. */
  lemma RotationAdvances(s: State, frames: seq<seq<real>>)
    requires forall i :: 0 <= i < |frames| ==> |frames[i]| >= FrameDraws
    ensures forall i :: 0 <= i <= |frames| ==> Trace(s, frames)[i].rotation == s.rotation + RotationStep * i as real
  {
    var t := Trace(s, frames);
    forall i | 0 <= i <= |frames|
      ensures t[i].rotation == s.rotation + RotationStep * i as real
    {
      RotationAt(s, frames, i);
    }
  }

  lemma {:induction false} RotationAt(s: State, frames: seq<seq<real>>, i: nat)
    requires forall i :: 0 <= i < |frames| ==> |frames[i]| >= FrameDraws
    requires i <= |frames|
    ensures Trace(s, frames)[i].rotation == s.rotation + RotationStep * i as real
  {
    if i > 0 {
      RotationAt(s, frames, i - 1);
    }
  }

  // ---------------------------------------------------------------------------
  // The countdown
  // ---------------------------------------------------------------------------

  /**
   * Active with j ticks of the timer left, the next frame draws the bolt and
   * leaves j - 1 ticks, still active exactly when ticks remain.
   */
  lemma CountdownStep(s: State, draws: seq<real>, j: nat)
    requires |draws| >= FrameDraws
    requires s.lightningActive && j >= 1 && s.lightningTimer == TimerStep * j as real
    ensures var r := Frame(s, draws);
      r.bolt == None && r.flash.Some? &&
      r.next.lightningTimer == TimerStep * (j - 1) as real && (r.next.lightningActive <==> j > 1)
  {
  }

  /**
   * Starting active with j ticks left, the bolt is drawn on each of the
   * next j frames, no new bolt is generated meanwhile, and the lightning is
   * idle after the j-th.
   */
  lemma {:induction false} Countdown(s: State, frames: seq<seq<real>>, j: nat)
    requires forall i :: 0 <= i < |frames| ==> |frames[i]| >= FrameDraws
    requires s.lightningActive && j >= 1 && s.lightningTimer == TimerStep * j as real
    ensures var t := Trace(s, frames);
      forall i :: 0 <= i < |frames| && i < j ==>
        Frame(t[i], frames[i]).bolt == None && Frame(t[i], frames[i]).flash.Some?
    ensures |frames| >= j ==> !Trace(s, frames)[j].lightningActive
    decreases |frames|
  {
    if frames != [] {
      var t := Trace(s, frames);
      CountdownStep(s, frames[0], j);
      var next := Frame(s, frames[0]).next;
      assert t[1] == next;
      var rest := frames[1..];
      assert forall i :: 1 <= i < |frames| ==> frames[i] == rest[i - 1];
      assert Trace(next, rest) == t[1..];
      if j > 1 {
        Countdown(next, rest, j - 1);
      }
    }
  }

  /**
   * A bolt stays on screen for exactly 20 frames: the frame that generates
   * it and the 19 after it draw it and generate no other, and the lightning
   * is idle again after the 20th.
   */
  lemma BoltLastsTwentyFrames(s: State, frames: seq<seq<real>>)
    requires forall i :: 0 <= i < |frames| ==> |frames[i]| >= FrameDraws
    requires |frames| >= 1 && Frame(s, frames[0]).bolt.Some?
    ensures var t := Trace(s, frames);
      forall i :: 0 <= i < |frames| && i < 20 ==>
        Frame(t[i], frames[i]).flash.Some? && (i > 0 ==> Frame(t[i], frames[i]).bolt == None)
    ensures |frames| >= 20 ==> !Trace(s, frames)[20].lightningActive
  {
    var t := Trace(s, frames);
    var next := Frame(s, frames[0]).next;
    assert next.lightningTimer == TimerStep * 19 as real;
    var rest := frames[1..];
    assert forall i :: 1 <= i < |frames| ==> frames[i] == rest[i - 1];
    assert Trace(next, rest) == t[1..];
    Countdown(next, rest, 19);
  }

  // ---------------------------------------------------------------------------
  // The frame as written
  // ---------------------------------------------------------------------------

  /**
   * How a frame of the source as written ends. `createCyberGridBackground`
   * returns nothing (js/background.js:3-126), so `bgController` is
   * undefined and the explosion call at js/main.js:361 throws: the frame
   * stops there, before the bolt is drawn and before `animate` schedules
   * the next frame.
   */
  datatype Outcome = Continued(result: FrameResult) | Halted(last: State)

  function FrameAsWritten(s: State, draws: seq<real>): Outcome
    requires |draws| >= FrameDraws
  {
    var rotation := s.rotation + RotationStep;
    if !s.lightningActive && draws[0] < TriggerChance then
      Halted(State(rotation, true, 1.0, BoltPoints))
    else
      Continued(LightningFrame(s.(rotation := rotation), draws))
  }

  /**
   * As written, the loop stops at the first bolt: a frame halts exactly when
   * the intended frame generates a bolt, and it leaves the lightning active
   * on a full timer that no later frame counts down; every other frame is
   * the intended one.
   */
  lemma FirstBoltHaltsLoop(s: State, draws: seq<real>)
    requires |draws| >= FrameDraws
    ensures FrameAsWritten(s, draws).Halted? <==> Frame(s, draws).bolt.Some?
    ensures var w := FrameAsWritten(s, draws);
      w.Halted? ==>
        w.last.lightningActive && w.last.lightningTimer == 1.0 &&
        Frame(s, draws).next.lightningTimer == 1.0 - TimerStep
    ensures var w := FrameAsWritten(s, draws);
      w.Continued? ==> w.result == Frame(s, draws)
  {
  }

  /** From the initial state, a first draw of 0 halts the loop on frame one. */
  lemma FirstBoltExample()
    ensures var draws := seq(FrameDraws, _ => 0.0);
      FrameAsWritten(Initial, draws).Halted? && Frame(Initial, draws).flash == Some(Magenta)
  {
    var draws := seq(FrameDraws, _ => 0.0);
    assert draws[0] == 0.0;
  }

  // ---------------------------------------------------------------------------
  // The normal matrix
  // ---------------------------------------------------------------------------

  /**
   * The model matrix `identity` then `rotateY` builds is a rotation; for a
   * real angle (c^2 + s^2 = 1) it is invertible and its inverse-transpose is
   * the rotation itself.
   */
  lemma NormalMatrixIsModelMatrix(c: real, s: real)
    requires c * c + s * s == 1.0
    ensures Mat4.Det(Mat4.RotatedY(Mat4.IdentityMatrix(), c, s)) == 1.0
    ensures Mat4.Transposed(Mat4.Inverse(Mat4.RotatedY(Mat4.IdentityMatrix(), c, s))) == Mat4.RotationY(c, s)
  {
    Mat4.RotateYIdentity(c, s);
    Mat4.RotationYInverse(c, s);
  }

  /**
   * js/main.js:305-310: the model matrix becomes the Y rotation and the
   * normal matrix its inverse-transpose; the `invert` whose result the
   * source never checks does not take its null path.
   */
  method UpdateNormalMatrix(modelMatrix: Mat4.Buffer, tempMatrix: Mat4.Buffer, normalMatrix: Mat4.Buffer, c: real, s: real)
    requires |modelMatrix.entries| == 16 && |tempMatrix.entries| == 16 && |normalMatrix.entries| == 16
    requires modelMatrix != tempMatrix && modelMatrix != normalMatrix && tempMatrix != normalMatrix
    requires c * c + s * s == 1.0
    modifies modelMatrix, tempMatrix, normalMatrix
    ensures modelMatrix.entries == Mat4.RotationY(c, s)
    ensures tempMatrix.entries == Mat4.Inverse(Mat4.RotationY(c, s))
    ensures normalMatrix.entries == Mat4.RotationY(c, s)
  {
    Mat4.Identity(modelMatrix);
    Mat4.RotateY(modelMatrix, c, s);
    NormalMatrixIsModelMatrix(c, s);
    Mat4.RotateYIdentity(c, s);
    var inverse := Mat4.Invert(tempMatrix, modelMatrix);
    assert inverse != null;
    Mat4.Transpose(normalMatrix, tempMatrix);
  }

  // ---------------------------------------------------------------------------
  // The animation loop's closure
  // ---------------------------------------------------------------------------

  /** `cos` and `sin` of the same angle always satisfy c^2 + s^2 = 1. */
  ghost predicate IsTrig(cos: real -> real, sin: real -> real)
  {
    forall x :: cos(x) * cos(x) + sin(x) * sin(x) == 1.0
  }

  /**
   * The variables `animate` closes over: the lightning state, the rotation,
   * and the model, temporary and normal matrices.
   */
  class Scene {
    var rotation: real
    var lightningActive: bool
    var lightningTimer: real
    var lightningVertsCount: int
    const modelMatrix: Mat4.Buffer
    const tempMatrix: Mat4.Buffer
    const normalMatrix: Mat4.Buffer

    ghost predicate Valid()
      reads this, modelMatrix, tempMatrix, normalMatrix
    {
      |modelMatrix.entries| == 16 && |tempMatrix.entries| == 16 && |normalMatrix.entries| == 16 &&
      modelMatrix != tempMatrix && modelMatrix != normalMatrix && tempMatrix != normalMatrix
    }

    function Current(): State
      reads this
    {
      State(rotation, lightningActive, lightningTimer, lightningVertsCount)
    }

    constructor ()
      ensures Valid() && Current() == Initial
      ensures fresh(modelMatrix) && fresh(tempMatrix) && fresh(normalMatrix)
    {
      rotation := 0.0;
      lightningActive := false;
      lightningTimer := 0.0;
      lightningVertsCount := 0;
      modelMatrix := new Mat4.Buffer(16);
      tempMatrix := new Mat4.Buffer(16);
      normalMatrix := new Mat4.Buffer(16);
    }

    /**
     * One call of `animate`: turn the logo, rebuild its normal matrix, maybe
     * generate a bolt, and count an active bolt down. The model matrix is
     * left as the identity on frames that draw the lightning.
     */
    method Step(draws: seq<real>, cos: real -> real, sin: real -> real) returns (result: FrameResult)
      requires Valid() && |draws| >= FrameDraws && IsTrig(cos, sin)
      modifies this, modelMatrix, tempMatrix, normalMatrix
      ensures Valid()
      ensures result == Frame(old(Current()), draws) && Current() == result.next
      ensures normalMatrix.entries == Mat4.RotationY(cos(rotation), sin(rotation))
      ensures modelMatrix.entries ==
        if result.flash.Some? then Mat4.IdentityMatrix() else Mat4.RotationY(cos(rotation), sin(rotation))
    {
      rotation := rotation + RotationStep;
      UpdateNormalMatrix(modelMatrix, tempMatrix, normalMatrix, cos(rotation), sin(rotation));
      result := AdvanceLightning(draws);
    }

    /** The lightning blocks of `animate`, js/main.js:338-391. */
    method AdvanceLightning(draws: seq<real>) returns (result: FrameResult)
      requires Valid() && |draws| >= FrameDraws
      modifies this, modelMatrix
      ensures Valid() && rotation == old(rotation)
      ensures result == LightningFrame(old(Current()), draws) && Current() == result.next
      ensures modelMatrix.entries == if result.flash.Some? then Mat4.IdentityMatrix() else old(modelMatrix.entries)
    {
      var bolt: Option<Bolt> := None;
      var colourDraw := 0;
      if !lightningActive && draws[0] < TriggerChance {
        lightningActive := true;
        lightningTimer := 1.0;
        var generated, vertsCount := LaunchBolt(draws[1..]);
        bolt := Some(generated);
        lightningVertsCount := vertsCount;
        colourDraw := FrameDraws - 1;
      }

      var flash: Option<Colour> := None;
      if lightningActive {
        Mat4.Identity(modelMatrix);
        flash := Some(if draws[colourDraw] > 0.5 then Cyan else Magenta);
        lightningTimer := lightningTimer - TimerStep;
        if lightningTimer <= 0.0 {
          lightningActive := false;
        }
      }
      result := FrameResult(Current(), bolt, flash);
    }
  }

  /**
   * js/main.js:342-352 and the explosion position of line 361: the end
   * points, then the bolt's line strip.
   */
  method GenerateBolt(draws: seq<real>) returns (bolt: Bolt, boltVerts: seq<real>)
    requires |draws| >= BoltDraws
    ensures bolt == NewBolt(draws)
    ensures boltVerts == BoltVertices(bolt, draws) && |boltVerts| / 3 == BoltPoints
  {
    var startX := (draws[0] - 0.5) * 10.0;
    var startY := 5.0;
    var startZ := -5.0 - draws[1] * 5.0;
    var endX := (draws[2] - 0.5) * 10.0;
    var endY := -2.0;
    var endZ := -2.0 - draws[3] * 5.0;
    bolt := Bolt(Vec3(startX, startY, startZ), Vec3(endX, endY, endZ), (endX * 0.1, endZ * 0.1));
    assert bolt == NewBolt(draws);
    boltVerts := Lightning.CreateLightningGeometry(bolt.start, bolt.end, draws[4..BoltDraws]);
    Lightning.FixedDepth();
  }

  /**
   * What of the trigger block outlives it: the bolt's end points and
   * explosion, and `boltVerts.length / 3`. The vertices themselves only go
   * to the GPU's lightning buffer.
   */
  method LaunchBolt(draws: seq<real>) returns (bolt: Bolt, vertsCount: int)
    requires |draws| >= BoltDraws
    ensures bolt == NewBolt(draws) && vertsCount == BoltPoints
  {
    var boltVerts;
    bolt, boltVerts := GenerateBolt(draws);
    vertsCount := |boltVerts| / 3;
  }
}
