/** The clip stepping engine of src/animation.rs.

    An `Animation` component is a playback cursor over a range `[start, end)` of
    sprite-sheet frames. Each time its timer fires, `AnimateSprites` moves the
    cursor by one frame and writes the frame index and mirror flag to the
    sprite. The timer itself is not modelled: whether it fired on this call is
    an input. In a debug build Rust's `usize` subtraction panics on underflow, and
    `% 0` panics in every build; the model turns those panics into preconditions. */
module AnimationEngine {

  datatype AnimationMode = Once | Repeating

  datatype AnimationState = Playing | Finished

  /** The value of an `Animation` component, without its timer. */
  datatype Clip = Clip(start: nat, end: nat, playMode: AnimationMode, flipX: bool,
                       state: AnimationState, currentFrame: nat)
  {
    /** `len()`: the number of frames in the clip. In a debug build the subtraction panics when `start > end`. */
    function Len(): (n: nat)
      requires start <= end
      ensures start + n == end
    {
      end - start
    }

    /** The absolute sheet index of the cursor. */
    function Index(): nat
    {
      start + currentFrame
    }

    /** `reset()`: rewind to the first frame and play again; bounds, mode and mirror flag stay. */
    function Reset(): (r: Clip)
      ensures r.currentFrame == 0 && r.state == Playing && r.Index() == start
      ensures r.start == start && r.end == end && r.playMode == playMode && r.flipX == flipX
      ensures Wf() ==> r.Wf()
    {
      this.(currentFrame := 0, state := Playing)
    }

    /** The invariant every clip of the program keeps: at least two frames; a Once clip
        that is still playing has not reached its last frame `end - 1`; a Repeating
        cursor stays inside the clip; only a Once clip finishes, and it does so on its
        last frame. */
    predicate Wf()
    {
      start + 2 <= end &&
      match state
      case Playing =>
        if playMode == Once then Index() < end - 1 else currentFrame < end - start
      case Finished =>
        playMode == Once && Index() == end - 1
    }
  }

  /** The value of a `TextureAtlasSprite`: the frame drawn and whether it is mirrored. */
  datatype SpriteView = SpriteView(index: nat, flipX: bool)

  /** True when `AnimateSprites` does not panic: a Repeating step computes `% len()`,
      which needs `start < end`, and a Once step computes `end - 1`, which needs `end >= 1`. */
  predicate CanAnimate(c: Clip, fired: bool)
  {
    c.state == Playing && fired ==>
      match c.playMode
      case Repeating => c.start < c.end
      case Once => 1 <= c.end
  }

  /** One call of the per-entity body of `animate_sprites`, on the clip and its sprite. */
  function Animate(c: Clip, s: SpriteView, fired: bool): (r: (Clip, SpriteView))
    requires CanAnimate(c, fired)
    // bounds, mode and mirror flag are never written
    ensures r.0.start == c.start && r.0.end == c.end && r.0.playMode == c.playMode && r.0.flipX == c.flipX
    // a finished clip, or a call on which the timer did not fire, changes nothing at all
    ensures c.state == Finished || !fired ==> r == (c, s)
    // a step draws the new cursor position with the clip's mirror flag
    ensures c.state == Playing && fired ==> r.1 == SpriteView(r.0.Index(), c.flipX)
    // Once: the cursor moves by exactly one frame, and the clip finishes exactly on frame end - 1
    ensures c.state == Playing && fired && c.playMode == Once ==>
      r.0.currentFrame == c.currentFrame + 1 && (r.0.state == Finished <==> r.1.index == c.end - 1)
    // Repeating: never finishes; the cursor stays inside the clip and advances by one modulo len()
    ensures c.playMode == Repeating ==> r.0.state == c.state
    ensures c.state == Playing && fired && c.playMode == Repeating ==> r.0.currentFrame < c.Len()
    ensures c.Wf() && c.state == Playing && fired && c.playMode == Repeating ==>
      r.0.currentFrame == if c.currentFrame + 1 == c.Len() then 0 else c.currentFrame + 1
    // the invariant is kept, and a step never draws a frame outside the clip
    ensures c.Wf() ==> r.0.Wf()
    ensures c.Wf() && c.state == Playing && fired ==> c.start <= r.1.index < c.end
  {
    if c.state == Finished || !fired then (c, s)
    else
      match c.playMode
      case Once =>
        var next := c.(currentFrame := c.currentFrame + 1);
        var shown := next.Index();
        (if shown == c.end - 1 then next.(state := Finished) else next, SpriteView(shown, c.flipX))
      case Repeating =>
        WrapAround(c.currentFrame, c.Len());
        var next := c.(currentFrame := (c.currentFrame + 1) % c.Len());
        (next, SpriteView(next.Index(), c.flipX))
  }

  /** The clip and sprite after `n` calls on each of which the timer fired. */
  function AnimateN(c: Clip, s: SpriteView, n: nat): (r: (Clip, SpriteView))
    requires c.Wf()
    ensures r.0.Wf()
    ensures r.0.start == c.start && r.0.end == c.end && r.0.playMode == c.playMode && r.0.flipX == c.flipX
    decreases n
  {
    if n == 0 then (c, s)
    else
      var prev := AnimateN(c, s, n - 1);
      Animate(prev.0, prev.1, true)
  }

  lemma MulAtLeast(a: int, m: int)
    requires 0 < m && 0 < a
    ensures m <= a * m
  {
  }

  /** Euclidean remainder is determined by any quotient-remainder decomposition. */
  lemma ModUnique(x: int, m: int, q: int, r: int)
    requires 0 < m && 0 <= r < m && x == q * m + r
    ensures x % m == r
  {
    var q0, r0 := x / m, x % m;
    assert x == q0 * m + r0;
    var d := q - q0;
    assert d * m == q * m - q0 * m;
    if d > 0 {
      MulAtLeast(d, m);
    } else if d < 0 {
      MulAtLeast(-d, m);
    }
  }

  /** One step of a cursor below `m`, modulo `m`, wraps to 0 exactly at `m`. */
  lemma WrapAround(k: nat, m: nat)
    requires 0 < m
    ensures k < m ==> (k + 1) % m == if k + 1 == m then 0 else k + 1
  {
  }

  lemma ModSucc(x: nat, m: nat)
    requires 0 < m
    ensures (x % m + 1) % m == (x + 1) % m
  {
    var q, r := x / m, x % m;
    assert x == q * m + r;
    WrapAround(r, m);
    if r + 1 < m {
      ModUnique(x + 1, m, q, r + 1);
    } else {
      assert x + 1 == (q + 1) * m + 0;
      ModUnique(x + 1, m, q + 1, 0);
    }
  }

  /** `m + n` fired calls are `m` calls followed by `n` more. */
  lemma {:induction false} AnimateNSplit(c: Clip, s: SpriteView, m: nat, n: nat)
    requires c.Wf()
    ensures var mid := AnimateN(c, s, m); AnimateN(c, s, m + n) == AnimateN(mid.0, mid.1, n)
    decreases n
  {
    if n > 0 {
      AnimateNSplit(c, s, m, n - 1);
    }
  }

  /** After `n` fired calls, a Repeating clip's cursor is its start position plus `n`,
      modulo `len()`, the clip is still playing, and (for n > 0) the sprite shows the cursor. */
  lemma {:induction false} RepeatingAfterN(c: Clip, s: SpriteView, n: nat)
    requires c.Wf() && c.playMode == Repeating && c.state == Playing
    ensures AnimateN(c, s, n).0.currentFrame == (c.currentFrame + n) % c.Len()
    ensures AnimateN(c, s, n).0.state == Playing
    ensures n > 0 ==> AnimateN(c, s, n).1 == SpriteView(AnimateN(c, s, n).0.Index(), c.flipX)
    decreases n
  {
    if n > 0 {
      RepeatingAfterN(c, s, n - 1);
      ModSucc(c.currentFrame + (n - 1), c.Len());
    }
  }

  /** A Once clip that is still playing advances one frame per fired call and is
      Finished exactly when its cursor has reached frame `end - 1`. */
  lemma {:induction false} OnceAfterN(c: Clip, s: SpriteView, n: nat)
    requires c.Wf() && c.playMode == Once && c.state == Playing
    requires c.Index() + n <= c.end - 1
    ensures AnimateN(c, s, n).0.currentFrame == c.currentFrame + n
    ensures AnimateN(c, s, n).0.state == (if c.Index() + n == c.end - 1 then Finished else Playing)
    ensures n > 0 ==> AnimateN(c, s, n).1 == SpriteView(c.Index() + n, c.flipX)
    decreases n
  {
    if n > 0 {
      OnceAfterN(c, s, n - 1);
    }
  }

  /** A Finished clip and its sprite stay exactly as they are, however often the timer fires. */
  lemma {:induction false} FinishedIsAbsorbing(c: Clip, s: SpriteView, n: nat)
    requires c.Wf() && c.state == Finished
    ensures AnimateN(c, s, n) == (c, s)
    decreases n
  {
    if n > 0 {
      FinishedIsAbsorbing(c, s, n - 1);
    }
  }

  /** From its first frame, a Once clip of `len()` frames finishes after exactly
      `len() - 1` fired calls, on frame `end - 1`, and not one call sooner. */
  lemma OnceFinishesAfterLenMinusOne(c: Clip, s: SpriteView, k: nat)
    requires c.Wf() && c.playMode == Once && c.state == Playing && c.currentFrame == 0
    requires k < c.Len() - 1
    ensures AnimateN(c, s, k).0.state == Playing
    ensures AnimateN(c, s, c.Len() - 1).0.state == Finished
    ensures AnimateN(c, s, c.Len() - 1).1 == SpriteView(c.end - 1, c.flipX)
  {
    OnceAfterN(c, s, k);
    OnceAfterN(c, s, c.Len() - 1);
  }

  /** The down-attack clip `[36, 40)`: finished on frame 39 after three steps, playing after two. */
  lemma DownAttackFinishesAfterThreeSteps(s: SpriteView)
    ensures AnimateN(Clip(36, 40, Once, false, Playing, 0), s, 2).0.state == Playing
    ensures AnimateN(Clip(36, 40, Once, false, Playing, 0), s, 3) ==
            (Clip(36, 40, Once, false, Finished, 3), SpriteView(39, false))
  {
  }

  /** Outside the invariant: a one-frame Once clip never finishes; its first step
      already draws frame `end`, one past the clip. */
  lemma OnceSingleFrameRunsPastEnd(c: Clip, s: SpriteView)
    requires c.playMode == Once && c.state == Playing && c.currentFrame == 0 && c.end == c.start + 1
    ensures Animate(c, s, true).0.state == Playing
    ensures Animate(c, s, true).1.index == c.end
  {
  }

  /** The `Animation` component, updated in place. */
  class Animation {
    var start: nat
    var end: nat
    var playMode: AnimationMode
    var flipX: bool
    var state: AnimationState
    var currentFrame: nat

    function View(): Clip
      reads this
    {
      Clip(start, end, playMode, flipX, state, currentFrame)
    }

    /** `len()` */
    function Len(): (n: nat)
      reads this
      requires start <= end
      ensures start + n == end
    {
      View().Len()
    }

    /** `Animation::new`: the cadence argument only configures the timer, which is not modelled. */
    constructor (start: nat, end: nat, playMode: AnimationMode, flipX: bool)
      ensures View() == Clip(start, end, playMode, flipX, Playing, 0)
    {
      this.start := start;
      this.end := end;
      this.playMode := playMode;
      this.flipX := flipX;
      this.state := Playing;
      this.currentFrame := 0;
    }

    /** `reset()`, used by the player systems. */
    method Reset()
      modifies this
      ensures View() == old(View()).Reset()
    {
      currentFrame := 0;
      state := Playing;
    }
  }

  /** The `TextureAtlasSprite` component, updated in place. */
  class Sprite {
    var index: nat
    var flipX: bool

    function View(): SpriteView
      reads this
    {
      SpriteView(index, flipX)
    }

    /** `TextureAtlasSprite::default()` */
    constructor ()
      ensures View() == SpriteView(0, false)
    {
      index := 0;
      flipX := false;
    }
  }

  /** The body of `animate_sprites` for one (sprite, animation) pair. */
  method AnimateSprites(sprite: Sprite, animation: Animation, fired: bool)
    requires CanAnimate(animation.View(), fired)
    modifies sprite, animation
    ensures (animation.View(), sprite.View()) == Animate(old(animation.View()), old(sprite.View()), fired)
  {
    match animation.state {
      case Playing =>
        if fired {
          match animation.playMode {
            case Once =>
              animation.currentFrame := animation.currentFrame + 1;
              sprite.index := animation.start + animation.currentFrame;
              if sprite.index == animation.end - 1 {
                animation.state := Finished;
              }
            case Repeating =>
              animation.currentFrame := (animation.currentFrame + 1) % animation.Len();
              sprite.index := animation.start + animation.currentFrame;
          }
          sprite.flipX := animation.flipX;
        }
      case Finished =>
    }
  }
}
