/**
 * The animated sprite: a clock that drains whole frame durations from the
 * accumulated time and steps through a horizontally tiled sprite sheet, and the
 * per-sprite draw that selects the current frame's slice of the sheet.
 * Time is exact (real), not IEEE doubles.
 */
module Sprites {
  import opened Gl
  import opened Textures
  import opened VertexBuffers

  /** The dynamic animation state of a sprite: current frame index and time accumulated in it. */
  datatype Clock = Clock(frame: nat, time: real)

  /** The texture unit sprites sample their diffuse texture from. */
  const DIFFUSE_UNIT: nat := 0

  lemma Cancel(a: real, b: real, c: real)
    requires c > 0.0 && a * c == b * c
    ensures a == b
  {
  }

  lemma AtMostOneByScale(y: real, m: real)
    requires m > 0.0 && y * m <= m
    ensures y <= 1.0
    ensures y * m < m ==> y < 1.0
  {
  }

  lemma DivStep(acc: real, tpf: real)
    requires tpf > 0.0 && acc > tpf
    ensures acc / tpf > 1.0
    ensures (acc - tpf) / tpf == acc / tpf - 1.0
  {
    var x := acc / tpf;
    var y := (acc - tpf) / tpf;
    assert x * tpf == acc;
    assert y * tpf == acc - tpf;
    assert (x - 1.0) * tpf == x * tpf - tpf;
    Cancel(y, x - 1.0, tpf);
  }

  lemma MulAtLeast(m: int, n: int)
    requires m >= 1 && n > 0
    ensures m * n >= n
  {
  }

  /** Euclidean division is unique: a remainder in [0, n) is the remainder. */
  lemma ModUnique(y: int, n: int, a: int, r: int)
    requires n > 0 && 0 <= r < n && y == a * n + r
    ensures y % n == r
  {
    var b := y / n;
    var s := y % n;
    assert y == b * n + s;
    if a > b {
      MulAtLeast(a - b, n);
    } else if a < b {
      MulAtLeast(b - a, n);
    }
  }

  lemma ModSub(x: int, n: int)
    requires n > 0
    ensures (x - n) % n == x % n
  {
    assert x == (x / n) * n + x % n;
    assert x - n == (x / n - 1) * n + x % n;
    ModUnique(x - n, n, x / n - 1, x % n);
  }

  lemma ModAddTwice(f: nat, k1: nat, k2: nat, n: nat)
    requires n > 0
    ensures ((f + k1) % n + k2) % n == (f + k1 + k2) % n
  {
    var q1 := (f + k1) / n;
    var r1 := (f + k1) % n;
    var q2 := (r1 + k2) / n;
    var r2 := (r1 + k2) % n;
    assert f + k1 == q1 * n + r1;
    assert r1 + k2 == q2 * n + r2;
    assert f + k1 + k2 == (q1 + q2) * n + r2;
    ModUnique(f + k1 + k2, n, q1 + q2, r2);
  }

  /** The time k frames of duration tpf take, added up one frame at a time. */
  function Durations(k: nat, tpf: real): real
  {
    if k == 0 then 0.0 else Durations(k - 1, tpf) + tpf
  }

  /** Adding up k frame durations gives k times the duration. */
  lemma {:induction false} DurationsIsProduct(k: nat, tpf: real)
    ensures Durations(k, tpf) == k as real * tpf
  {
    if k > 0 {
      DurationsIsProduct(k - 1, tpf);
      assert k as real * tpf == (k - 1) as real * tpf + tpf;
    }
  }

  lemma {:induction false} DurationsAdd(k1: nat, k2: nat, tpf: real)
    ensures Durations(k1 + k2, tpf) == Durations(k1, tpf) + Durations(k2, tpf)
    decreases k2
  {
    if k2 > 0 {
      DurationsAdd(k1, k2 - 1, tpf);
    }
  }

  /** Each further frame takes at least one more frame duration. */
  lemma {:induction false} MoreFramesTakeLonger(k: nat, d: nat, tpf: real)
    requires k > d && tpf > 0.0
    ensures Durations(k, tpf) >= Durations(d, tpf) + tpf
    decreases k - d
  {
    if k - 1 > d {
      MoreFramesTakeLonger(k - 1, d, tpf);
    }
  }

  /**
   * How many whole frame durations the drain loop removes from an accumulated
   * time: it keeps draining while the time is strictly greater than one frame.
   */
  function Drains(acc: real, tpf: real): nat
    requires tpf > 0.0
    decreases if acc > tpf then (acc / tpf).Floor else 0
  {
    if acc > tpf then DivStep(acc, tpf); 1 + Drains(acc - tpf, tpf) else 0
  }

  /**
   * After draining, at most one frame duration is left; nothing is drained
   * exactly when the time is at most one frame; and when something is drained the
   * time left is positive.
   */
  lemma {:induction false} DrainsLeftover(acc: real, tpf: real)
    requires tpf > 0.0
    ensures acc - Durations(Drains(acc, tpf), tpf) <= tpf
    ensures Drains(acc, tpf) == 0 <==> acc <= tpf
    ensures Drains(acc, tpf) > 0 ==> acc - Durations(Drains(acc, tpf), tpf) > 0.0
    decreases if acc > tpf then (acc / tpf).Floor else 0
  {
    if acc > tpf {
      DivStep(acc, tpf);
      DrainsLeftover(acc - tpf, tpf);
      DurationsAdd(1, Drains(acc - tpf, tpf), tpf);
    }
  }

  /**
   * The drain count is the only count of frames that leaves a time in (0, tpf]:
   * this describes the loop without running it.
   */
  lemma DrainsUnique(acc: real, tpf: real, k: nat)
    requires tpf > 0.0 && 0.0 < acc - Durations(k, tpf) <= tpf
    ensures k == Drains(acc, tpf)
  {
    var d := Drains(acc, tpf);
    DrainsLeftover(acc, tpf);
    if k > d {
      MoreFramesTakeLonger(k, d, tpf);
    } else if k < d {
      MoreFramesTakeLonger(d, k, tpf);
    }
  }

  /**
   * The clock after `shift_time(t)`: the time accumulates, whole frame durations
   * are drained one frame step each, and the frame index wraps around the frame count.
   */
  function Shifted(c: Clock, t: real, numFrames: nat, tpf: real): Clock
    requires numFrames > 0 && tpf > 0.0
  {
    var acc := c.time + t;
    var k := Drains(acc, tpf);
    Clock((c.frame + k) % numFrames, acc - Durations(k, tpf))
  }

  /**
   * The frame index stays below the frame count, at most one frame duration is
   * left over, and a positive (non-negative) accumulated time leaves a positive
   * (non-negative) remainder.
   */
  lemma ShiftedBounds(c: Clock, t: real, numFrames: nat, tpf: real)
    requires numFrames > 0 && tpf > 0.0
    ensures Shifted(c, t, numFrames, tpf).frame < numFrames
    ensures Shifted(c, t, numFrames, tpf).time <= tpf
    ensures c.time + t > 0.0 ==> Shifted(c, t, numFrames, tpf).time > 0.0
    ensures c.time + t >= 0.0 ==> Shifted(c, t, numFrames, tpf).time >= 0.0
  {
    DrainsLeftover(c.time + t, tpf);
  }

  /**
   * When the accumulated time is at most one frame duration, including exactly
   * one, the frame does not advance: the drain test is strict.
   */
  lemma ShiftedNoAdvance(c: Clock, t: real, numFrames: nat, tpf: real)
    requires numFrames > 0 && tpf > 0.0
    requires c.time + t <= tpf
    ensures Shifted(c, t, numFrames, tpf) == Clock(c.frame % numFrames, c.time + t)
  {
  }

  /**
   * Conservation of time: if k frame durations taken out of the accumulated time
   * leave a positive remainder of at most one frame, the clock advances exactly k
   * frames (modulo the frame count) and keeps that remainder.
   */
  lemma ShiftedAdvances(c: Clock, t: real, numFrames: nat, tpf: real, k: nat)
    requires numFrames > 0 && tpf > 0.0
    requires 0.0 < c.time + t - k as real * tpf <= tpf
    ensures Shifted(c, t, numFrames, tpf) == Clock((c.frame + k) % numFrames, c.time + t - k as real * tpf)
  {
    DurationsIsProduct(k, tpf);
    DrainsUnique(c.time + t, tpf, k);
  }

  /**
   * Splitting a time step: shifting by a and then by a non-negative b ends in the
   * same clock as shifting once by a + b.
   */
  lemma ShiftedSplit(c: Clock, a: real, b: real, numFrames: nat, tpf: real)
    requires numFrames > 0 && tpf > 0.0 && b >= 0.0
    ensures Shifted(Shifted(c, a, numFrames, tpf), b, numFrames, tpf) == Shifted(c, a + b, numFrames, tpf)
  {
    var acc1 := c.time + a;
    var k1 := Drains(acc1, tpf);
    DrainsLeftover(acc1, tpf);
    var acc2 := acc1 - Durations(k1, tpf) + b;
    var k2 := Drains(acc2, tpf);
    DrainsLeftover(acc2, tpf);
    var acc := c.time + (a + b);
    DurationsAdd(k1, k2, tpf);
    if k1 + k2 == 0 {
      DrainsLeftover(acc, tpf);
    } else {
      DrainsUnique(acc, tpf, k1 + k2);
    }
    ModAddTwice(c.frame, k1, k2, numFrames);
  }

  /**
   * The demo's clock (20 frames of 1/30 s) given one second from rest: the strict
   * test stops after 29 drains with exactly one frame duration left, on frame 9.
   */
  lemma ShiftedOneSecond()
    ensures Shifted(Clock(0, 0.0), 1.0, 20, 1.0 / 30.0) == Clock(9, 1.0 / 30.0)
  {
    ShiftedAdvances(Clock(0, 0.0), 1.0, 20, 1.0 / 30.0, 29);
  }

  /** Frame f of n starts at f/n of the sheet and its slice ends within the sheet. */
  lemma FrameSliceInSheet(f: nat, n: nat)
    requires f < n
    ensures 0.0 <= (1.0 / n as real) * f as real == f as real / n as real < 1.0
    ensures f as real / n as real + 1.0 / n as real <= 1.0
  {
    var nr, fr := n as real, f as real;
    var x, w, y := fr / nr, 1.0 / nr, (fr + 1.0) / nr;
    assert x * nr == fr && w * nr == 1.0 && y * nr == fr + 1.0;
    assert (w * fr) * nr == (w * nr) * fr;
    Cancel(w * fr, x, nr);
    assert (x + w) * nr == x * nr + w * nr;
    Cancel(x + w, y, nr);
    AtMostOneByScale(x, nr);
    AtMostOneByScale(y, nr);
  }

  /** A sprite's animation state and the shared buffer it draws with. */
  class AnimatedSprite {
    const vertexBuff: AttributedVertexBuffer
    const numFrames: nat
    const frameWidth: real
    const timePerFrame: real
    var currFrame: nat
    var currFrameTime: real

    /** The frame index is in range and at most one frame duration is pending. */
    ghost predicate Valid()
      reads this
    {
      vertexBuff.Valid() &&
      numFrames > 0 && timePerFrame > 0.0 &&
      frameWidth == 1.0 / numFrames as real &&
      currFrame < numFrames && currFrameTime <= timePerFrame
    }

    /** The animation state as a value. */
    function State(): Clock
      reads this
    {
      Clock(currFrame, currFrameTime)
    }

    /** A sprite at rest on frame 0, whose frames each take a width of 1/numFrames of the sheet. */
    constructor (vertexBuff: AttributedVertexBuffer, numFrames: nat, timePerFrame: real)
      requires vertexBuff.Valid() && numFrames > 0 && timePerFrame > 0.0
      ensures Valid()
      ensures this.vertexBuff == vertexBuff && this.numFrames == numFrames
      ensures this.timePerFrame == timePerFrame && frameWidth == 1.0 / numFrames as real
      ensures State() == Clock(0, 0.0)
    {
      this.vertexBuff := vertexBuff;
      this.numFrames := numFrames;
      frameWidth := 1.0 / numFrames as real;
      this.timePerFrame := timePerFrame;
      currFrame := 0;
      currFrameTime := 0.0;
    }

    /**
     * Tells the sprite that `timeInSeconds` have passed: accumulate, drain whole
     * frame durations one frame step at a time, then wrap the frame index by
     * repeated subtraction.
     */
    method ShiftTime(timeInSeconds: real)
      requires Valid()
      modifies this
      ensures Valid()
      ensures State() == Shifted(old(State()), timeInSeconds, numFrames, timePerFrame)
    {
      currFrameTime := currFrameTime + timeInSeconds;
      ghost var acc := old(currFrameTime) + timeInSeconds;
      ghost var drained: nat := 0;
      while currFrameTime > timePerFrame
        invariant currFrameTime == acc - Durations(drained, timePerFrame)
        invariant drained + Drains(currFrameTime, timePerFrame) == Drains(acc, timePerFrame)
        invariant currFrame == old(currFrame) + drained
        decreases Drains(currFrameTime, timePerFrame)
      {
        assert Drains(currFrameTime, timePerFrame) == 1 + Drains(currFrameTime - timePerFrame, timePerFrame);
        currFrameTime := currFrameTime - timePerFrame;
        currFrame := currFrame + 1;
        drained := drained + 1;
      }
      assert drained == Drains(acc, timePerFrame);
      ghost var leftover := currFrameTime;
      while currFrame >= numFrames
        invariant currFrameTime == leftover
        invariant currFrame % numFrames == (old(currFrame) + drained) % numFrames
        decreases currFrame
      {
        ModSub(currFrame, numFrames);
        currFrame := currFrame - numFrames;
      }
      ModUnique(currFrame, numFrames, 0, currFrame);
      ShiftedBounds(old(State()), timeInSeconds, numFrames, timePerFrame);
    }

    /** The horizontal offset of the current frame in the sprite sheet. */
    function FrameOffset(): (offset: real)
      reads this
      requires Valid()
      ensures offset == currFrame as real / numFrames as real
      ensures 0.0 <= offset < 1.0 && offset + frameWidth <= 1.0
    {
      FrameSliceInSheet(currFrame, numFrames);
      frameWidth * currFrame as real
    }

    /**
     * Draws the sprite: binds the texture to the diffuse unit, uploads the model
     * matrix, uploads the current frame's offset and width, then draws the
     * shared buffer. `bound` is the texture handle the binding uses.
     */
    method Draw(bound: TextureHandle) returns (calls: seq<GlCall>)
      requires Valid()
      ensures |calls| == 6
      ensures calls[..3] == [ActiveTexture(TEXTURE0), BindTexture(TEXTURE_2D, bound),
                             UniformMatrix4fv(ModelMatrix)]
      ensures calls[3] == Uniform2f(FrameInfo, currFrame as real / numFrames as real, 1.0 / numFrames as real)
      ensures calls[4] == BindBuffer(ARRAY_BUFFER, vertexBuff.vertexBuffer)
      ensures calls[5].DrawArrays? && calls[5].mode == TRIANGLE_FAN && calls[5].first == 0
      ensures calls[5].count * vertexBuff.itemsPerVertex == |vertexBuff.contents|
    {
      var bindCalls := BindCalls(DIFFUSE_UNIT, bound);
      var offset := FrameOffset();
      var drawCalls := vertexBuff.Draw();
      calls := bindCalls + [UniformMatrix4fv(ModelMatrix), Uniform2f(FrameInfo, offset, frameWidth)] + drawCalls;
    }
  }

  /**
   * The demo's sprite (20 frames, 1/30 s each) over the demo's buffer, advanced
   * by one second from rest, rests on frame 9 with one frame duration pending,
   * and then draws the four vertices of that buffer.
   */
  method DemoSpriteOneSecond(handle: BufferHandle, pos: AttribLocation, tex: AttribLocation, bound: TextureHandle)
    returns (frame: nat, pending: real, calls: seq<GlCall>)
    ensures frame == 9 && pending == 1.0 / 30.0
    ensures |calls| == 6
    ensures calls[3] == Uniform2f(FrameInfo, 9.0 / 20.0, 1.0 / 20.0)
    ensures calls[5] == DrawArrays(TRIANGLE_FAN, 0, 4)
  {
    var buffer, _ := SetupSquareBuffer(handle, pos, tex);
    var sprite := new AnimatedSprite(buffer, 20, 1.0 / 30.0);
    sprite.ShiftTime(1.0);
    ShiftedOneSecond();
    frame, pending := sprite.currFrame, sprite.currFrameTime;
    calls := sprite.Draw(bound);
  }
}
