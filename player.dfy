/**
 * The player character: sampling the movement keys into a direction,
 * axis-separated sliding collision of the hitbox against the static
 * obstacles, and the facing / animation-frame state.
 */
module PlayerModel {
  import opened Wrappers
  import opened Geometry

  /** The four animation sets, one per facing. */
  datatype Facing = Left | Right | Up | Down

  /** A drawable animation frame, kept opaque (a surface, or the path it
      was loaded from). */
  type Frame = string

  /** The sampled state of the movement keys D, A, S and W. */
  datatype Keys = Keys(right: bool, left: bool, down: bool, up: bool)

  /** Which of the two collision passes is running. */
  datatype Axis = Horizontal | Vertical

  /** Movement speed in pixels per second. */
  const Speed: real := 500.0

  /** The hitbox is the visual rectangle shrunk by 60 in width and 90 in height. */
  const HitboxShrinkW: real := 60.0
  const HitboxShrinkH: real := 90.0

  // ---------------------------------------------------------------------
  // Direction and displacement
  // ---------------------------------------------------------------------

  /** `direction = (int(right - left), int(down - up))`: each component is
      -1, 0 or 1, and 0 exactly when both or neither of its keys are held. */
  function KeyDirection(k: Keys): (d: Dir)
    ensures IsUnitStep(d)
    ensures d.x == 0 <==> k.right == k.left
    ensures d.x == 1 <==> k.right && !k.left
    ensures d.y == 0 <==> k.down == k.up
    ensures d.y == 1 <==> k.down && !k.up
  {
    Dir((if k.right then 1 else 0) - (if k.left then 1 else 0),
        (if k.down then 1 else 0) - (if k.up then 1 else 0))
  }

  /** The displacement `direction.normalize() * speed * dt` of one move.
      `axial` is speed * dt; normalising a diagonal direction scales each
      component to 1/sqrt(2), so a diagonal move uses `diagonal`, the
      caller's floating-point value of speed * dt / sqrt(2). */
  function Displacement(d: Dir, axial: real, diagonal: real): (p: Point)
    requires IsUnitStep(d)
    ensures d.x == 0 ==> p.x == 0.0
    ensures d.y == 0 ==> p.y == 0.0
    ensures 0.0 < axial && 0.0 < diagonal ==>
              (p.x > 0.0 <==> d.x > 0) && (p.x < 0.0 <==> d.x < 0) &&
              (p.y > 0.0 <==> d.y > 0) && (p.y < 0.0 <==> d.y < 0)
  {
    var scale := if d.x != 0 && d.y != 0 then diagonal else axial;
    Point(d.x as real * scale, d.y as real * scale)
  }

  /** Diagonal moves are no faster than axial ones: whenever `diagonal` is
      exactly axial / sqrt(2), every non-zero direction moves by `axial`. */
  lemma DisplacementHasStepLength(d: Dir, axial: real, diagonal: real)
    requires IsUnitStep(d) && d != Dir(0, 0)
    requires 2.0 * diagonal * diagonal == axial * axial
    ensures var p := Displacement(d, axial, diagonal);
            p.x * p.x + p.y * p.y == axial * axial
  {
  }

  // ---------------------------------------------------------------------
  // Axis-separated collision
  // ---------------------------------------------------------------------

  /** One step of a collision pass: the hitbox `h` against obstacle `o`.
      On overlap the hitbox is pushed back to the edge of `o` that faces the
      motion on the pass's axis; after that it touches `o` without
      overlapping it, and the other axis and the size are untouched. */
  function Clamp(h: Rect, o: Rect, axis: Axis, d: Dir): (r: Rect)
    ensures axis == Horizontal ==> r.y == h.y && r.w == h.w && r.h == h.h
    ensures axis == Vertical ==> r.x == h.x && r.w == h.w && r.h == h.h
    ensures !Colliding(o, h) ==> r == h
    ensures axis == Horizontal && d.x == 0 ==> r == h
    ensures axis == Vertical && d.y == 0 ==> r == h
    ensures Colliding(o, h) && axis == Horizontal && d.x > 0 ==>
              r.Right() == o.Left() && !Colliding(o, r) && r.x < h.x
    ensures Colliding(o, h) && axis == Horizontal && d.x < 0 ==>
              r.Left() == o.Right() && !Colliding(o, r) && r.x > h.x
    ensures Colliding(o, h) && axis == Vertical && d.y < 0 ==>
              r.Top() == o.Bottom() && !Colliding(o, r) && r.y > h.y
    ensures Colliding(o, h) && axis == Vertical && d.y > 0 ==>
              r.Bottom() == o.Top() && !Colliding(o, r) && r.y < h.y
  {
    if !Colliding(o, h) then h
    else match axis
      case Horizontal =>
        if d.x > 0 then h.WithRight(o.Left())
        else if d.x < 0 then h.WithLeft(o.Right())
        else h
      case Vertical =>
        if d.y < 0 then h.WithTop(o.Bottom())
        else if d.y > 0 then h.WithBottom(o.Top())
        else h
  }

  /** A whole collision pass: `Clamp` against every obstacle in turn. A
      horizontal pass moves only x, a vertical pass only y, and a pass along
      an axis without motion changes nothing. */
  function Resolve(h: Rect, obstacles: seq<Rect>, axis: Axis, d: Dir): (r: Rect)
    ensures axis == Horizontal ==> r.y == h.y && r.w == h.w && r.h == h.h
    ensures axis == Vertical ==> r.x == h.x && r.w == h.w && r.h == h.h
    ensures (axis == Horizontal && d.x == 0) || (axis == Vertical && d.y == 0) ==> r == h
    decreases |obstacles|
  {
    if obstacles == [] then h
    else Clamp(Resolve(h, obstacles[..|obstacles| - 1], axis, d), obstacles[|obstacles| - 1], axis, d)
  }

  /** A hitbox that overlaps no obstacle is left where it is; in particular
      re-running a pass that left the hitbox clear moves it no further. */
  lemma {:induction false} ResolveLeavesClearHitbox(h: Rect, obstacles: seq<Rect>, axis: Axis, d: Dir)
    requires forall i :: 0 <= i < |obstacles| ==> !Colliding(obstacles[i], h)
    ensures Resolve(h, obstacles, axis, d) == h
    decreases |obstacles|
  {
    if obstacles != [] {
      ResolveLeavesClearHitbox(h, obstacles[..|obstacles| - 1], axis, d);
    }
  }

  /** A pass only ever pushes the hitbox back against its motion, never
      further along it. */
  lemma {:induction false} ResolveNeverAdvances(h: Rect, obstacles: seq<Rect>, axis: Axis, d: Dir)
    ensures var r := Resolve(h, obstacles, axis, d);
            (axis == Horizontal && d.x > 0 ==> r.x <= h.x) &&
            (axis == Horizontal && d.x < 0 ==> r.x >= h.x) &&
            (axis == Vertical && d.y > 0 ==> r.y <= h.y) &&
            (axis == Vertical && d.y < 0 ==> r.y >= h.y)
    decreases |obstacles|
  {
    if obstacles != [] {
      ResolveNeverAdvances(h, obstacles[..|obstacles| - 1], axis, d);
    }
  }

  /** Against a single obstacle a pass along a moving axis always ends
      clear of it. */
  lemma ResolveClearsSingleObstacle(h: Rect, o: Rect, axis: Axis, d: Dir)
    requires (axis == Horizontal && d.x != 0) || (axis == Vertical && d.y != 0)
    ensures !Colliding(o, Resolve(h, [o], axis, d))
  {
  }

  /** With several obstacles a pass need not end clear of all of them: a
      push back from a later obstacle can land the hitbox inside an earlier
      one, which the pass does not look at again. */
  lemma HorizontalPassCanEndInOverlap()
    ensures var near := Rect(5.0, 0.0, 7.0, 10.0);
            var far := Rect(20.0, 0.0, 10.0, 10.0);
            var moved := Rect(15.0, 0.0, 10.0, 10.0);
            !Colliding(near, moved) &&
            Colliding(near, Resolve(moved, [near, far], Horizontal, Dir(1, 0)))
  {
    var near := Rect(5.0, 0.0, 7.0, 10.0);
    var far := Rect(20.0, 0.0, 10.0, 10.0);
    var moved := Rect(15.0, 0.0, 10.0, 10.0);
    assert [near, far][..1] == [near];
    assert [near][..0] == [];
    assert Resolve(moved, [near], Horizontal, Dir(1, 0)) == moved;
  }

  /** The hitbox after one `move`: displaced along x and resolved, then
      displaced along y and resolved. */
  function MoveHitbox(h: Rect, d: Dir, p: Point, obstacles: seq<Rect>): (r: Rect)
    ensures r.w == h.w && r.h == h.h
    ensures d.x == 0 ==> r.x == h.x + p.x
    ensures d.y == 0 ==> r.y == h.y + p.y
  {
    var horizontal := Resolve(h.(x := h.x + p.x), obstacles, Horizontal, d);
    Resolve(horizontal.(y := horizontal.y + p.y), obstacles, Vertical, d)
  }

  /** A player pressed against a wall on its right stays pressed against it:
      moving right (without tunnelling past the wall in one step) leaves the
      hitbox's right edge at or before the wall's left edge, and the height
      at which it moves is unchanged. */
  lemma WallStopsRightwardMove(h: Rect, o: Rect, p: Point)
    requires h.w != 0.0 && h.h != 0.0 && o.w != 0.0 && o.h != 0.0
    requires h.Right() <= o.Left()
    requires h.Top() < o.Bottom() && o.Top() < h.Bottom()
    requires 0.0 <= p.x && h.Left() + p.x < o.Right()
    ensures var r := MoveHitbox(h, Dir(1, 0), p, [o]);
            r.Right() <= o.Left() && r.y == h.y + p.y
  {
    var moved := h.(x := h.x + p.x);
    assert [o][..0] == [];
    if Colliding(o, moved) {
      assert Resolve(moved, [o], Horizontal, Dir(1, 0)).Right() == o.Left();
    } else {
      assert moved.Right() <= o.Left();
    }
  }

  // ---------------------------------------------------------------------
  // Facing and animation
  // ---------------------------------------------------------------------

  /** The facing after a move. The vertical test runs after the horizontal
      one, so any vertical motion decides the facing; horizontal motion
      decides it only when there is none; with no motion it is kept. */
  function NextFacing(s: Facing, d: Dir): (r: Facing)
    ensures d.y > 0 ==> r == Down
    ensures d.y < 0 ==> r == Up
    ensures d.y == 0 && d.x > 0 ==> r == Right
    ensures d.y == 0 && d.x < 0 ==> r == Left
    ensures d == Dir(0, 0) ==> r == s
  {
    var afterX := if d.x != 0 then (if d.x > 0 then Right else Left) else s;
    if d.y != 0 then (if d.y > 0 then Down else Up) else afterX
  }

  /** Python's `int(v)`: truncation toward zero. */
  function Trunc(v: real): (t: int)
    ensures 0.0 <= v ==> 0 <= t && t as real <= v < t as real + 1.0
    ensures v < 0.0 ==> t <= 0 && t as real - 1.0 < v <= t as real
  {
    if 0.0 <= v then v.Floor else -((-v).Floor)
  }

  /** The frame counter after `animate(dt)`: while moving it advances at five
      frames per second (truncated to a whole frame); when idle it is reset
      to frame 0. */
  function NextFrameIndex(i: int, d: Dir, dt: real): (r: int)
    ensures d == Dir(0, 0) ==> r == 0
    ensures d != Dir(0, 0) && 0 <= i && 0.0 <= dt ==>
              i <= r && r as real <= i as real + 5.0 * dt < r as real + 1.0
  {
    if d != Dir(0, 0) then Trunc(i as real + dt * 5.0) else 0
  }

  /** Truncating on every call loses the fraction: while moving with frames
      shorter than a fifth of a second the counter never advances. */
  lemma SlowFramesNeverAdvance(i: int, d: Dir, dt: real)
    requires d != Dir(0, 0) && 0 <= i && 0.0 <= dt && 5.0 * dt < 1.0
    ensures NextFrameIndex(i, d, dt) == i
  {
  }

  /** `frames[state][frame_index % len(frames[state])]`; None where Python
      would raise (a missing facing, or an empty frame list, whose length
      is a zero divisor). */
  function SelectFrame(frames: map<Facing, seq<Frame>>, s: Facing, i: int): (r: Option<Frame>)
    ensures r.None? <==> s !in frames || |frames[s]| == 0
    ensures r.Some? ==> r.value in frames[s]
    ensures r.Some? && 0 <= i < |frames[s]| ==> r.value == frames[s][i]
  {
    if s in frames && |frames[s]| > 0 then Some(frames[s][i % |frames[s]|]) else None
  }

  /** The frame shown cycles with the length of the animation. */
  lemma SelectFrameCycles(frames: map<Facing, seq<Frame>>, s: Facing, i: int)
    requires s in frames && |frames[s]| > 0
    ensures SelectFrame(frames, s, i + |frames[s]|) == SelectFrame(frames, s, i)
  {
    ModShift(i, |frames[s]|);
  }

  /** Shifting by one period leaves a Euclidean remainder unchanged. */
  lemma ModShift(i: int, n: int)
    requires 0 < n
    ensures (i + n) % n == i % n
  {
    var q, r := i / n, i % n;
    var q2, r2 := (i + n) / n, (i + n) % n;
    assert (q2 - q - 1) * n == r - r2;
    OnlyZeroMultipleIsSmall(q2 - q - 1, n);
  }

  lemma OnlyZeroMultipleIsSmall(k: int, n: int)
    requires 0 < n && -n < k * n < n
    ensures k == 0
  {
  }

  /** Every facing has at least one frame. */
  ghost predicate FramesLoaded(frames: map<Facing, seq<Frame>>) {
    forall s: Facing :: s in frames && |frames[s]| > 0
  }

  /** The frame table the constructor builds: four
      image paths for 'left' and nothing for the other facings. */
  function InitialFrames(): (frames: map<Facing, seq<Frame>>)
    ensures frames.Keys == {Left, Right, Up, Down}
    ensures |frames[Left]| == 4
    ensures frames[Right] == [] && frames[Up] == [] && frames[Down] == []
  {
    map[Left := ["images/player/left/0.png", "images/player/left/1.png",
                 "images/player/left/2.png", "images/player/left/3.png"],
        Right := [], Up := [], Down := []]
  }

  /** With that table only the 'left' facing can be drawn: the starting
      facing 'down' has no frame, so the first `animate` of a player that is
      not moving left divides by zero. */
  lemma InitialFramesCannotAnimate()
    ensures !FramesLoaded(InitialFrames())
    ensures SelectFrame(InitialFrames(), Down, 0) == None
    ensures forall s: Facing, i: int ::
              SelectFrame(InitialFrames(), s, i).Some? <==> s == Left
  {
  }

  /** Once every facing has its frames loaded, `animate` always finds a
      frame, whatever the facing and the counter. */
  lemma LoadedFramesAlwaysAnimate(frames: map<Facing, seq<Frame>>, s: Facing, i: int)
    requires FramesLoaded(frames)
    ensures SelectFrame(frames, s, i).Some?
    ensures SelectFrame(frames, s, i).value in frames[s]
  {
  }

  // ---------------------------------------------------------------------
  // The player object
  // ---------------------------------------------------------------------

  class Player {
    /** The visual rectangle, positioned by its centre. */
    var rect: Rect
    /** The smaller rectangle used for collision. */
    var hitbox: Rect
    var direction: Dir
    var state: Facing
    var frameIndex: int
    var image: Frame
    const frames: map<Facing, seq<Frame>>
    /** The rectangles of the static collision sprites. */
    const obstacles: seq<Rect>

    ghost predicate Valid()
      reads this
    {
      FramesLoaded(frames) && IsUnitStep(direction)
    }

    /** A player centred on `pos` whose first image is `imageW` by `imageH`,
        with the animation frames already loaded for every facing. */
    constructor (pos: Point, imageW: Size, imageH: Size,
                 loaded: map<Facing, seq<Frame>>, obstacles: seq<Rect>)
      requires HitboxShrinkW <= imageW && HitboxShrinkH <= imageH
      requires FramesLoaded(loaded)
      ensures Valid()
      ensures rect.Center() == pos && rect.w == imageW && rect.h == imageH
      ensures hitbox.Center() == pos
      ensures hitbox.w == imageW - HitboxShrinkW && hitbox.h == imageH - HitboxShrinkH
      ensures direction == Dir(0, 0) && state == Down && frameIndex == 0
      ensures image == loaded[Down][0]
      ensures frames == loaded && this.obstacles == obstacles
    {
      var visual := Rect(0.0, 0.0, imageW, imageH).WithCenter(pos);
      rect := visual;
      hitbox := visual.Inflate(-HitboxShrinkW, -HitboxShrinkH);
      direction := Dir(0, 0);
      state := Down;
      frameIndex := 0;
      image := loaded[Down][0];
      frames := loaded;
      this.obstacles := obstacles;
    }

    /** `collision(axis)`: one pass of `Clamp` over the obstacles, in order. */
    method Collision(axis: Axis)
      modifies this`hitbox
      ensures hitbox == Resolve(old(hitbox), obstacles, axis, direction)
    {
      var i := 0;
      while i < |obstacles|
        invariant 0 <= i <= |obstacles|
        invariant hitbox == Resolve(old(hitbox), obstacles[..i], axis, direction)
      {
        assert obstacles[..i + 1][..i] == obstacles[..i];
        var o := obstacles[i];
        if Colliding(o, hitbox) {
          match axis
          case Horizontal =>
            if direction.x > 0 {
              hitbox := hitbox.WithRight(o.Left());
            }
            if direction.x < 0 {
              hitbox := hitbox.WithLeft(o.Right());
            }
          case Vertical =>
            if direction.y < 0 {
              hitbox := hitbox.WithTop(o.Bottom());
            }
            if direction.y > 0 {
              hitbox := hitbox.WithBottom(o.Top());
            }
        }
        i := i + 1;
      }
      assert obstacles[..i] == obstacles;
    }

    /** `move(dt)`: sample the keys, displace and resolve the hitbox one axis
        at a time, then centre the visual rectangle on the hitbox. */
    method Move(keys: Keys, dt: real, diagonalStep: real)
      modifies this`direction, this`hitbox, this`rect
      ensures direction == KeyDirection(keys)
      ensures hitbox == MoveHitbox(old(hitbox), direction,
                                   Displacement(direction, Speed * dt, diagonalStep), obstacles)
      ensures rect.Center() == hitbox.Center()
      ensures rect.w == old(rect.w) && rect.h == old(rect.h)
    {
      direction := KeyDirection(keys);
      var p := Displacement(direction, Speed * dt, diagonalStep);
      ghost var start := hitbox;
      hitbox := hitbox.(x := hitbox.x + p.x);
      Collision(Horizontal);
      hitbox := hitbox.(y := hitbox.y + p.y);
      Collision(Vertical);
      assert hitbox == MoveHitbox(start, direction, p, obstacles);
      rect := rect.WithCenter(hitbox.Center());
    }

    /** `animate(dt)`: update the facing and the frame counter, then show the
        frame of the current facing that the counter selects. */
    method Animate(dt: real)
      requires Valid()
      modifies this`state, this`frameIndex, this`image
      ensures Valid()
      ensures state == NextFacing(old(state), direction)
      ensures frameIndex == NextFrameIndex(old(frameIndex), direction, dt)
      ensures SelectFrame(frames, state, frameIndex) == Some(image)
    {
      if direction.x != 0 {
        if direction.x > 0 {
          state := Right;
        } else {
          state := Left;
        }
      }
      if direction.y != 0 {
        if direction.y > 0 {
          state := Down;
        } else {
          state := Up;
        }
      }
      if direction != Dir(0, 0) {
        frameIndex := Trunc(frameIndex as real + dt * 5.0);
      } else {
        frameIndex := 0;
      }
      assert state in frames && |frames[state]| > 0;
      image := frames[state][frameIndex % |frames[state]|];
    }

    /** `update(dt)`: move, then animate with the direction just sampled. */
    method Update(keys: Keys, dt: real, diagonalStep: real)
      requires Valid()
      modifies this
      ensures Valid()
      ensures direction == KeyDirection(keys)
      ensures hitbox == MoveHitbox(old(hitbox), direction,
                                   Displacement(direction, Speed * dt, diagonalStep), obstacles)
      ensures rect.Center() == hitbox.Center()
      ensures rect.w == old(rect.w) && rect.h == old(rect.h)
      ensures state == NextFacing(old(state), direction)
      ensures frameIndex == NextFrameIndex(old(frameIndex), direction, dt)
      ensures SelectFrame(frames, state, frameIndex) == Some(image)
    {
      Move(keys, dt, diagonalStep);
      Animate(dt);
    }
  }
}
