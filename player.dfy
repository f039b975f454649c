/** Player control of src/player.rs: reading the keyboard, resolving velocity,
    the Idle/Walking and attack state machines, facing direction, and the table
    that picks an animation clip for each (state, direction) pair.

    Each Bevy system becomes a method of `Player` that updates its fields in
    place. Each method is specified by a pure function over the components'
    values, and the properties are proved about those functions. */
module PlayerControl {
  import opened AnimationEngine

  datatype Option<T> = None | Some(value: T)

  /** The keys the systems poll; every other key is `Other`. */
  datatype KeyCode = W | A | S | D | Space | Other(code: nat)

  datatype Controls = Controls(up: bool, down: bool, left: bool, right: bool, attack: bool)

  datatype Direction = Up | Down | Left | Right

  datatype PlayerState = Idle | Walking | Attacking | Dead

  /** `Velocity(Vec2)`: the resolver only ever writes -1, 0 or +1 to each axis. */
  datatype Velocity = Velocity(x: int, y: int)

  const Zero := Velocity(0, 0)

  // Rows of the sprite sheet, each holding one six-frame idle or walk animation.
  const IdleUpRowIndex: nat := 2
  const IdleDownRowIndex: nat := 0
  const IdleHorizontalRowIndex: nat := 1
  const WalkUpRowIndex: nat := 5
  const WalkDownRowIndex: nat := 3
  const WalkHorizontalRowIndex: nat := 4

  const PlayerAnimationLength: nat := 6

  /** The sprite sheet of src/main.rs is a grid of 6 columns and 10 rows. */
  const SheetFrames: nat := 6 * 10

  // ---------------------------------------------------------------------------
  // handle_input

  /** The keys read by `handle_input` */
  const BoundKeys: set<KeyCode> := {W, A, S, D, Space}

  /** The controls `handle_input` writes for a set of held keys. */
  function ReadControls(pressed: set<KeyCode>): (c: Controls)
    ensures c.up == (W in pressed) && c.left == (A in pressed) && c.down == (S in pressed)
    ensures c.right == (D in pressed) && c.attack == (Space in pressed)
  {
    Controls(up := W in pressed, down := S in pressed, left := A in pressed,
             right := D in pressed, attack := Space in pressed)
  }

  /** The bound keys that a control snapshot says are held. */
  function HeldKeys(c: Controls): (keys: set<KeyCode>)
    ensures keys <= BoundKeys
  {
    (if c.up then {W} else {}) + (if c.left then {A} else {}) + (if c.down then {S} else {})
    + (if c.right then {D} else {}) + (if c.attack then {Space} else {})
  }

  /** `handle_input` loses nothing about the bound keys and ignores every other key. */
  lemma ControlsRoundTrip(pressed: set<KeyCode>, c: Controls)
    ensures HeldKeys(ReadControls(pressed)) == pressed * BoundKeys
    ensures ReadControls(HeldKeys(c)) == c
  {
  }

  // ---------------------------------------------------------------------------
  // update_controllable_velocities

  /** The velocity `update_controllable_velocities` writes for the controls and the state. */
  function ResolveVelocity(c: Controls, s: PlayerState): (v: Velocity)
    ensures -1 <= v.x <= 1 && -1 <= v.y <= 1
    // an attack locks movement, whatever is held
    ensures s == Attacking ==> v == Zero
    // otherwise each axis follows its unopposed key; opposing or absent presses give 0
    ensures s != Attacking ==>
      (v.y == 1 <==> c.up && !c.down) && (v.y == -1 <==> c.down && !c.up) &&
      (v.x == -1 <==> c.left && !c.right) && (v.x == 1 <==> c.right && !c.left)
  {
    if s == Attacking then Zero
    else
      var y := if c.up && !c.down then 1 else if c.down && !c.up then -1 else 0;
      var x := if c.left && !c.right then -1 else if c.right && !c.left then 1 else 0;
      Velocity(x, y)
  }

  /** The velocity is not normalised: a diagonal moves one unit along each axis. */
  lemma DiagonalIsNotNormalised(c: Controls, s: PlayerState)
    requires s != Attacking && c.up != c.down && c.left != c.right
    ensures ResolveVelocity(c, s).x * ResolveVelocity(c, s).x + ResolveVelocity(c, s).y * ResolveVelocity(c, s).y == 2
  {
  }

  // ---------------------------------------------------------------------------
  // update_player_state_and_direction

  /** The first half of `update_player_state_and_direction`: Idle and Walking follow the velocity. */
  function NextMovementState(s: PlayerState, v: Velocity): (r: PlayerState)
    ensures s == Idle ==> (r == Walking <==> v != Zero) && (r == Idle || r == Walking)
    ensures s == Walking ==> (r == Idle <==> v == Zero) && (r == Idle || r == Walking)
    ensures s == Attacking || s == Dead ==> r == s
  {
    match s
    case Idle => if v.x != 0 || v.y != 0 then Walking else Idle
    case Walking => if v == Zero then Idle else Walking
    case _ => s
  }

  /** For Idle and Walking, the new state is Walking exactly when some movement key is unopposed. */
  lemma MovementStateFollowsControls(c: Controls, s: PlayerState)
    requires s == Idle || s == Walking
    ensures NextMovementState(s, ResolveVelocity(c, s)) ==
            if c.up != c.down || c.left != c.right then Walking else Idle
  {
  }

  /** `d`'s movement key is the only movement key held. */
  predicate Alone(c: Controls, d: Direction)
  {
    match d
    case Up => c.up && !c.down && !c.left && !c.right
    case Down => c.down && !c.up && !c.left && !c.right
    case Left => c.left && !c.up && !c.down && !c.right
    case Right => c.right && !c.up && !c.down && !c.left
  }

  /** The second half of `update_player_state_and_direction`. */
  function ResolveDirection(d: Direction, c: Controls): (r: Direction)
    // the direction whose key alone is held wins
    ensures forall e :: Alone(c, e) ==> r == e
    // with no movement key, or with two or more, the direction stays
    ensures !Alone(c, Up) && !Alone(c, Down) && !Alone(c, Left) && !Alone(c, Right) ==> r == d
    ensures r != d ==> Alone(c, r)
  {
    if d != Up && c.up && !c.down && !c.left && !c.right then Up
    else if d != Down && c.down && !c.up && !c.left && !c.right then Down
    else if d != Left && c.left && !c.up && !c.down && !c.right then Left
    else if d != Right && c.right && !c.up && !c.down && !c.left then Right
    else d
  }

  /** Resolving the direction a second time with the same controls changes nothing. */
  lemma ResolveDirectionIdempotent(d: Direction, c: Controls)
    ensures ResolveDirection(ResolveDirection(d, c), c) == ResolveDirection(d, c)
  {
  }

  // ---------------------------------------------------------------------------
  // update_player_attack_state

  datatype AttackOutcome = AttackOutcome(state: PlayerState, resetClip: bool)

  /** What `update_player_attack_state` does for a state, the clip's status and the attack key. */
  function AttackTransition(s: PlayerState, clip: AnimationState, attack: bool): (r: AttackOutcome)
    // the player attacks after this call exactly when the attack starts now or goes on
    ensures r.state == Attacking <==>
      ((s == Idle || s == Walking) && attack) || (s == Attacking && (clip != Finished || attack))
    // an attack ends only on a finished clip with the key released, and then in Idle
    ensures s == Attacking && r.state != Attacking ==> r.state == Idle && clip == Finished && !attack
    // a finished attack clip with the key still held is replayed from its first frame
    ensures r.resetClip <==> s == Attacking && clip == Finished && attack
    // nothing else moves: Idle and Walking without the key, and Dead, are untouched
    ensures s != Attacking && !(attack && s != Dead) ==> r.state == s
  {
    match s
    case Idle | Walking => if attack then AttackOutcome(Attacking, false) else AttackOutcome(s, false)
    case Attacking =>
      if clip == Finished then
        if attack then AttackOutcome(Attacking, true) else AttackOutcome(Idle, false)
      else AttackOutcome(Attacking, false)
    case Dead => AttackOutcome(Dead, false)
  }

  // ---------------------------------------------------------------------------
  // handle_animation_state_update

  /** The clip parameters of one entry of the selection table; `once` says whether the
      entry also sets the play mode to Once (no entry sets it to Repeating). */
  datatype ClipParams = ClipParams(start: nat, end: nat, flipX: bool, once: bool)

  /** The sheet row of the idle and walk entries. */
  function MovementRow(s: PlayerState, d: Direction): nat
    requires s == Idle || s == Walking
  {
    match (s, d)
    case (Idle, Up) => IdleUpRowIndex
    case (Idle, Down) => IdleDownRowIndex
    case (Idle, _) => IdleHorizontalRowIndex
    case (Walking, Up) => WalkUpRowIndex
    case (Walking, Down) => WalkDownRowIndex
    case (Walking, _) => WalkHorizontalRowIndex
  }

  /** The twelve-entry selection table of `handle_animation_state_update`; Dead has no entry. */
  function SelectClip(s: PlayerState, d: Direction): (p: Option<ClipParams>)
    ensures p.None? <==> s == Dead
    // every entry lies inside the sprite sheet, and only Left is mirrored
    ensures p.Some? ==> p.value.start < p.value.end <= SheetFrames
    ensures p.Some? ==> (p.value.flipX <==> d == Left)
    // only the attack entries switch the clip to Once
    ensures p.Some? ==> (p.value.once <==> s == Attacking)
    // idle and walk entries are whole six-frame rows; attack entries are four frames long
    ensures s == Idle || s == Walking ==>
      p.value.start % PlayerAnimationLength == 0 && p.value.end == p.value.start + PlayerAnimationLength
    ensures s == Attacking ==> p.value.end == p.value.start + 4
  {
    match s
    case Idle | Walking =>
      var row := MovementRow(s, d);
      Some(ClipParams(row * PlayerAnimationLength, (row + 1) * PlayerAnimationLength, d == Left, false))
    case Attacking =>
      (match d
       case Up => Some(ClipParams(48, 52, false, true))
       case Down => Some(ClipParams(36, 40, false, true))
       case Left => Some(ClipParams(42, 46, true, true))
       case Right => Some(ClipParams(42, 46, false, true)))
    case Dead => None
  }

  /** Left reuses Right's frames, mirrored. */
  lemma HorizontalEntriesShareFrames(s: PlayerState)
    requires s != Dead
    ensures SelectClip(s, Left).value == SelectClip(s, Right).value.(flipX := true)
  {
  }

  /** Apart from the Left/Right pair, two entries never share a frame. */
  lemma EntriesAreDisjoint(s: PlayerState, d: Direction, s': PlayerState, d': Direction)
    requires s != Dead && s' != Dead && (s, d) != (s', d')
    requires !(s == s' && (d == Left || d == Right) && (d' == Left || d' == Right))
    ensures SelectClip(s, d).value.end <= SelectClip(s', d').value.start ||
            SelectClip(s', d').value.end <= SelectClip(s, d).value.start
  {
  }

  /** The loop body of `handle_animation_state_update`: reset, then rewrite the clip
      and draw its first frame. */
  function ApplySelection(c: Clip, sp: SpriteView, s: PlayerState, d: Direction): (r: (Clip, SpriteView))
    // the clip always restarts from its first frame
    ensures r.0.currentFrame == 0 && r.0.state == Playing
    // Dead only resets: bounds, mirror flag and sprite stay
    ensures s == Dead ==> r == (c.Reset(), sp)
    // any other state takes its entry's frames and mirror flag, and draws the entry's first frame
    ensures s != Dead ==> r.0.start == SelectClip(s, d).value.start && r.0.end == SelectClip(s, d).value.end
    ensures s != Dead ==> r.0.flipX == (d == Left) && r.1 == SpriteView(r.0.start, r.0.flipX)
    // Attacking switches to Once; Idle and Walking keep whatever mode the clip had
    ensures r.0.playMode == if s == Attacking then Once else c.playMode
    // a selected clip is well formed whatever clip it replaces
    ensures s != Dead ==> r.0.Wf()
    ensures c.Wf() ==> r.0.Wf()
  {
    var c0 := c.Reset();
    match SelectClip(s, d)
    case None => (c0, sp)
    case Some(p) =>
      var c1 := c0.(start := p.start, end := p.end, flipX := p.flipX,
                     playMode := if p.once then Once else c0.playMode);
      (c1, SpriteView(c1.start, c1.flipX))
  }

  /** The `Changed<PlayerState>`/`Changed<Direction>` filter, as a comparison with the
      pair the selection last saw; `None` before its first run, when Bevy reports the
      freshly spawned components as changed. */
  predicate Changed(observed: Option<(PlayerState, Direction)>, s: PlayerState, d: Direction)
  {
    observed != Some((s, d))
  }

  /** An attack, held from Walking facing Down: the player attacks, the clip becomes the
      down-attack clip [36, 40) in Once mode, it finishes on frame 39 after three steps,
      and with the key still held the attack replays from its first frame. */
  lemma AttackReplaysWhileHeld(c: Clip, sp: SpriteView)
    requires c.Wf()
    ensures AttackTransition(Walking, c.state, true) == AttackOutcome(Attacking, false)
    ensures ApplySelection(c, sp, Attacking, Down) ==
            (Clip(36, 40, Once, false, Playing, 0), SpriteView(36, false))
    ensures var a := ApplySelection(c, sp, Attacking, Down);
            AttackTransition(Attacking, AnimateN(a.0, a.1, 2).0.state, true) == AttackOutcome(Attacking, false) &&
            AnimateN(a.0, a.1, 3).0.state == Finished && AnimateN(a.0, a.1, 3).1.index == 39 &&
            AttackTransition(Attacking, AnimateN(a.0, a.1, 3).0.state, true) == AttackOutcome(Attacking, true)
  {
  }

  /** After an attack the clip stays in Once mode, because the idle and walk entries do
      not set the mode: the idle clip then plays its six frames once and freezes on its
      last frame. */
  lemma IdleAfterAttackFreezes(c: Clip, sp: SpriteView, d: Direction, n: nat)
    requires c.Wf() && c.playMode == Once
    ensures var a := ApplySelection(c, sp, Idle, d);
            a.0.playMode == Once &&
            AnimateN(a.0, a.1, 5 + n) == AnimateN(a.0, a.1, 5) &&
            AnimateN(a.0, a.1, 5).0.state == Finished &&
            AnimateN(a.0, a.1, 5).1.index == a.0.start + 5
  {
    var a := ApplySelection(c, sp, Idle, d);
    OnceAfterN(a.0, a.1, 5);
    var f := AnimateN(a.0, a.1, 5);
    FinishedIsAbsorbing(f.0, f.1, n);
    AnimateNSplit(a.0, a.1, 5, n);
  }

  // ---------------------------------------------------------------------------
  // The player entity

  /** The values of the player's components. */
  datatype PlayerView = PlayerView(controls: Controls, velocity: Velocity, direction: Direction,
                                   state: PlayerState, observed: Option<(PlayerState, Direction)>,
                                   clip: Clip, sprite: SpriteView)

  /** What the player's components keep between systems: a well-formed clip, and a
      sprite that draws a frame of that clip with the clip's mirror flag. */
  predicate Inv(w: PlayerView)
  {
    w.clip.Wf() && w.clip.start <= w.sprite.index < w.clip.end && w.sprite.flipX == w.clip.flipX
  }

  /** The player as spawned in src/main.rs: default components and the clip `[0, 5)`,
      Repeating, not mirrored. */
  function Spawned(): (w: PlayerView)
    ensures Inv(w) && w.state == Idle && w.direction == Down && w.observed == None
  {
    PlayerView(Controls(false, false, false, false, false), Zero, Down, Idle, None,
               Clip(0, 5, Repeating, false, Playing, 0), SpriteView(0, false))
  }

  /** The selection stage: `ApplySelection` runs only when state or direction changed. */
  function SelectionStage(w: PlayerView): (r: PlayerView)
    requires Inv(w)
    ensures Inv(r)
    ensures r.observed == Some((w.state, w.direction))
    ensures !Changed(w.observed, w.state, w.direction) ==> r == w
    ensures Changed(w.observed, w.state, w.direction) ==>
      (r.clip, r.sprite) == ApplySelection(w.clip, w.sprite, w.state, w.direction)
    ensures r.(observed := w.observed, clip := w.clip, sprite := w.sprite) == w
  {
    var obs := Some((w.state, w.direction));
    if Changed(w.observed, w.state, w.direction) then
      var a := ApplySelection(w.clip, w.sprite, w.state, w.direction);
      w.(observed := obs, clip := a.0, sprite := a.1)
    else w
  }

  /** The edge trigger: running the selection again without a change resets nothing. */
  lemma SelectionStageIdempotent(w: PlayerView)
    requires Inv(w)
    ensures SelectionStage(SelectionStage(w)) == SelectionStage(w)
  {
  }

  /** The player entity: its components, updated in place by the systems below. */
  class Player {
    var controls: Controls
    var velocity: Velocity
    var direction: Direction
    var state: PlayerState
    var observed: Option<(PlayerState, Direction)>
    const animation: Animation
    const sprite: Sprite

    function View(): PlayerView
      reads this, animation, sprite
    {
      PlayerView(controls, velocity, direction, state, observed, animation.View(), sprite.View())
    }

    predicate Valid()
      reads this, animation, sprite
    {
      Inv(View())
    }

    /** The `PlayerBundle` spawned by `setup` in src/main.rs. */
    constructor ()
      ensures Valid() && View() == Spawned()
      ensures fresh(animation) && fresh(sprite)
    {
      controls := Controls(false, false, false, false, false);
      velocity := Zero;
      direction := Down;
      state := Idle;
      observed := None;
      animation := new Animation(0, 5, Repeating, false);
      sprite := new Sprite();
    }

    /** `handle_input`: overwrite all five controls from the keyboard. */
    method HandleInput(pressed: set<KeyCode>)
      modifies this
      ensures View() == old(View()).(controls := ReadControls(pressed))
    {
      controls := controls.(up := W in pressed);
      controls := controls.(left := A in pressed);
      controls := controls.(down := S in pressed);
      controls := controls.(right := D in pressed);
      controls := controls.(attack := Space in pressed);
    }

    /** `update_controllable_velocities` */
    method UpdateControllableVelocities()
      modifies this
      ensures View() == old(View()).(velocity := ResolveVelocity(controls, state))
    {
      if state == Attacking {
        velocity := Zero;
      } else {
        if controls.up && !controls.down {
          velocity := velocity.(y := 1);
        } else if controls.down && !controls.up {
          velocity := velocity.(y := -1);
        } else {
          velocity := velocity.(y := 0);
        }
        if controls.left && !controls.right {
          velocity := velocity.(x := -1);
        } else if controls.right && !controls.left {
          velocity := velocity.(x := 1);
        } else {
          velocity := velocity.(x := 0);
        }
      }
    }

    /** `update_player_state_and_direction` */
    method UpdatePlayerStateAndDirection()
      modifies this
      ensures View() == old(View()).(state := NextMovementState(old(state), velocity),
                                      direction := ResolveDirection(old(direction), controls))
    {
      match state {
        case Idle =>
          if velocity.x != 0 || velocity.y != 0 {
            state := Walking;
          }
        case Walking =>
          if velocity == Zero {
            state := Idle;
          }
        case _ =>
      }
      if direction != Up && controls.up && !controls.down && !controls.left && !controls.right {
        direction := Up;
      } else if direction != Down && controls.down && !controls.up && !controls.left && !controls.right {
        direction := Down;
      } else if direction != Left && controls.left && !controls.up && !controls.down && !controls.right {
        direction := Left;
      } else if direction != Right && controls.right && !controls.up && !controls.down && !controls.left {
        direction := Right;
      }
    }

    /** `update_player_attack_state`, which src/main.rs does not schedule. */
    method UpdatePlayerAttackState()
      requires Valid()
      modifies this, animation
      ensures Valid()
      ensures var t := AttackTransition(old(state), old(animation.state), old(controls.attack));
              View() == old(View()).(state := t.state,
                                     clip := if t.resetClip then old(animation.View()).Reset() else old(animation.View()))
    {
      match state {
        case Idle | Walking =>
          if controls.attack {
            state := Attacking;
          }
        case Attacking =>
          if animation.state == Finished {
            if controls.attack {
              animation.Reset();
            } else {
              state := Idle;
            }
          }
        case Dead =>
      }
    }

    /** `handle_animation_state_update`, run by Bevy only when state or direction changed. */
    method HandleAnimationStateUpdate()
      requires Valid()
      modifies this, animation, sprite
      ensures Valid()
      ensures View() == SelectionStage(old(View()))
    {
      if observed != Some((state, direction)) {
        animation.Reset();
        match SelectClip(state, direction) {
          case Some(p) =>
            animation.start := p.start;
            animation.end := p.end;
            animation.flipX := p.flipX;
            if p.once {
              animation.playMode := Once;
            }
            sprite.flipX := p.flipX;
            sprite.index := animation.start;
          case None =>
        }
      }
      observed := Some((state, direction));
    }
  }
}
