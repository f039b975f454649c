/** The fixed-time-step stage order of src/main.rs: input, velocity, state and
    direction, clip selection (only on a change), then the clip engine. Movement
    of the transform runs beside these stages and is not part of this model. */
module Schedule {
  import opened AnimationEngine
  import opened PlayerControl

  /** What a tick reads from outside: the held keys, and whether the animation timer fired. */
  datatype TickInput = TickInput(pressed: set<KeyCode>, fired: bool)

  /** One fixed tick of the systems src/main.rs schedules, on the player's component values. */
  function TickSpec(w: PlayerView, input: TickInput): (r: PlayerView)
    requires Inv(w)
    ensures Inv(r)
    // every stage reads what the stage before it wrote on this tick
    ensures r.controls == ReadControls(input.pressed)
    ensures r.velocity == ResolveVelocity(r.controls, w.state)
    ensures r.state == NextMovementState(w.state, r.velocity)
    ensures r.direction == ResolveDirection(w.direction, r.controls)
    ensures r.observed == Some((r.state, r.direction))
    // selection runs before the clip engine: on a change, the clip restarts from the new
    // entry's first frame, and a fired timer moves it on to the entry's second frame
    ensures Changed(w.observed, r.state, r.direction) && r.state != Dead ==>
      r.clip.start == SelectClip(r.state, r.direction).value.start &&
      r.clip.currentFrame == (if input.fired then 1 else 0) &&
      r.sprite.index == r.clip.Index() && r.clip.state == Playing
    // on a change the clip engine steps exactly the clip and sprite the selection wrote
    ensures Changed(w.observed, r.state, r.direction) ==>
      var sel := ApplySelection(w.clip, w.sprite, r.state, r.direction);
      (r.clip, r.sprite) == Animate(sel.0, sel.1, input.fired)
    // without a change the clip is only advanced
    ensures !Changed(w.observed, r.state, r.direction) ==>
      (r.clip, r.sprite) == Animate(w.clip, w.sprite, input.fired)
  {
    var controls := ReadControls(input.pressed);
    var velocity := ResolveVelocity(controls, w.state);
    var moved := w.(controls := controls, velocity := velocity,
                    state := NextMovementState(w.state, velocity),
                    direction := ResolveDirection(w.direction, controls));
    var selected := SelectionStage(moved);
    var animated := Animate(selected.clip, selected.sprite, input.fired);
    selected.(clip := animated.0, sprite := animated.1)
  }

  /** The player after a sequence of ticks. */
  function Run(w: PlayerView, inputs: seq<TickInput>): (r: PlayerView)
    requires Inv(w)
    ensures Inv(r)
    decreases |inputs|
  {
    if inputs == [] then w else Run(TickSpec(w, inputs[0]), inputs[1..])
  }

  /** The states the scheduled systems can reach: `update_player_attack_state` is not
      scheduled, so the player only idles or walks and every clip is a playing Repeating clip. */
  predicate Reachable(w: PlayerView)
  {
    Inv(w) && (w.state == Idle || w.state == Walking) &&
    w.clip.playMode == Repeating && w.clip.state == Playing
  }

  lemma TickKeepsReachable(w: PlayerView, input: TickInput)
    requires Reachable(w)
    ensures Reachable(TickSpec(w, input))
  {
  }

  /** From spawn, no sequence of ticks leads to Attacking, Dead, a Once clip or a finished clip. */
  lemma {:induction false} RunStaysReachable(w: PlayerView, inputs: seq<TickInput>)
    requires Reachable(w)
    ensures Reachable(Run(w, inputs))
    decreases |inputs|
  {
    if inputs != [] {
      TickKeepsReachable(w, inputs[0]);
      RunStaysReachable(TickSpec(w, inputs[0]), inputs[1..]);
    }
  }

  lemma SpawnedIsReachable()
    ensures Reachable(Spawned())
  {
  }

  /** The first tick with W held, from spawn: walking up, on the walk-up row `[30, 36)`,
      drawing its first frame. */
  lemma FirstTickWalkingUp()
    ensures var w := TickSpec(Spawned(), TickInput({W}, false));
            w.state == Walking && w.direction == Up && w.observed == Some((Walking, Up)) &&
            w.clip == Clip(30, 36, Repeating, false, Playing, 0) && w.sprite == SpriteView(30, false)
  {
  }

  /** `n` copies of one input. */
  function Repeat(input: TickInput, n: nat): (inputs: seq<TickInput>)
    ensures |inputs| == n && forall i :: 0 <= i < n ==> inputs[i] == input
  {
    if n == 0 then [] else [input] + Repeat(input, n - 1)
  }

  /** While W stays held and nothing else, the selection never runs again: each tick on
      which the timer fires is exactly one clip step. */
  lemma {:induction false} HoldingUpOnlyAnimates(w: PlayerView, n: nat)
    requires Inv(w) && w.state == Walking && w.direction == Up && w.observed == Some((Walking, Up))
    ensures var r := Run(w, Repeat(TickInput({W}, true), n));
            r.state == Walking && r.direction == Up && r.observed == Some((Walking, Up)) &&
            (r.clip, r.sprite) == AnimateN(w.clip, w.sprite, n)
    decreases n
  {
    if n > 0 {
      var w1 := TickSpec(w, TickInput({W}, true));
      assert Repeat(TickInput({W}, true), n)[1..] == Repeat(TickInput({W}, true), n - 1);
      HoldingUpOnlyAnimates(w1, n - 1);
      AnimateNSplit(w.clip, w.sprite, 1, n - 1);
    }
  }

  lemma WalkUpCyclesFrom(w: PlayerView, n: nat)
    requires w.state == Walking && w.direction == Up && w.observed == Some((Walking, Up))
    requires w.clip == Clip(30, 36, Repeating, false, Playing, 0) && w.sprite == SpriteView(30, false)
    ensures var r := Run(w, Repeat(TickInput({W}, true), n));
            r.state == Walking && r.direction == Up &&
            r.clip.start == 30 && r.clip.end == 36 && r.clip.currentFrame == n % 6 &&
            (n > 0 ==> r.sprite == SpriteView(30 + n % 6, false))
  {
    HoldingUpOnlyAnimates(w, n);
    RepeatingAfterN(w.clip, w.sprite, n);
  }

  /** Holding W from spawn: after the first tick and `n` fired ticks more, the player walks
      up and the walk-up cursor has cycled to `n mod 6`, frame `30 + n mod 6`. */
  lemma WalkUpCycles(n: nat)
    ensures var r := Run(TickSpec(Spawned(), TickInput({W}, false)), Repeat(TickInput({W}, true), n));
            r.state == Walking && r.direction == Up &&
            r.clip.start == 30 && r.clip.end == 36 && r.clip.currentFrame == n % 6 &&
            (n > 0 ==> r.sprite == SpriteView(30 + n % 6, false))
  {
    FirstTickWalkingUp();
    WalkUpCyclesFrom(TickSpec(Spawned(), TickInput({W}, false)), n);
  }

  /** One fixed tick on the player, in the order src/main.rs schedules the systems. */
  method FixedTick(p: Player, input: TickInput)
    requires p.Valid()
    modifies p, p.animation, p.sprite
    ensures p.Valid()
    ensures p.View() == TickSpec(old(p.View()), input)
  {
    p.HandleInput(input.pressed);
    p.UpdateControllableVelocities();
    p.UpdatePlayerStateAndDirection();
    p.HandleAnimationStateUpdate();
    AnimateSprites(p.sprite, p.animation, input.fired);
  }
}
