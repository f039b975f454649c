# Player animation state machine, modelled in Dafny

This project models the logic of a small Bevy game that drives one 2D sprite
character. The game has two parts:

- **The clip stepping engine** (`src/animation.rs`). An `Animation` component is a
  cursor over the frame range `[start, end)` of a sprite sheet, in `Once` or
  `Repeating` mode. Each time its timer fires, `animate_sprites` moves the cursor
  by one frame. It then writes the frame index and the mirror flag to the sprite.
  A `Once` clip becomes `Finished` on frame `end - 1`.
- **Player control** (`src/player.rs`):
  - `handle_input` reads the W/A/S/D/Space keys into a `Controls` snapshot.
  - `update_controllable_velocities` turns the snapshot into a velocity of -1, 0 or +1
    per axis, or `(0, 0)` while attacking.
  - `update_player_state_and_direction` runs the Idle/Walking state machine and the
    facing direction.
  - `update_player_attack_state` handles attack entry and exit.
  - `handle_animation_state_update` picks a clip from a 12-entry table whenever the
    state or the direction changes.

The module `Schedule` composes these systems into one fixed tick, in the order
that `src/main.rs` schedules them: input, velocity, state and direction,
selection, animation.

Each entity whose fields the systems overwrite in place is a class.
`AnimationEngine.Animation` and `AnimationEngine.Sprite` are components.
`PlayerControl.Player` is not a component: it stands for the player entity's
`Controls`, `Velocity`, `Direction` and `PlayerState` components, plus the
`observed` pair, and holds its `Animation` and `Sprite`.
Each system is a method of those classes, or a method on them. Each method's
postcondition ties the new state to a pure specification function of the old
state: `Animate`, `ResolveVelocity`, `NextMovementState`, `ResolveDirection`,
`AttackTransition`, `SelectionStage` and `TickSpec`. The promised properties are
proved about those functions, as their own postconditions and as lemmas.

Modelling choices:

- The animation timer becomes a `fired: bool` input. Keyboard polling becomes the
  set of held keys.
- Bevy's `Changed<PlayerState>` / `Changed<Direction>` filter becomes a comparison
  with the `(state, direction)` pair that the selection system last saw. That pair
  is stored in `observed`. It is `None` at spawn, because Bevy reports freshly
  spawned components as changed. So on the first tick the spawn clip `[0, 5)` is
  replaced by the table's entry. The source assigns the state or the direction
  only when the value actually differs, so Bevy's change flag and the value
  comparison agree.
- `Animation::reset()` is called at `src/player.rs:75` and `src/player.rs:282`, but
  its definition is not part of this model. It is modelled as: cursor to 0, status
  to `Playing`, with bounds, mode and mirror flag untouched.
- In a debug build, Rust's `usize` subtraction panics on underflow; `%` panics on
  division by zero in every build. The model turns these panics into preconditions: `Clip.Len` needs
  `start <= end`, and `CanAnimate` needs `start < end` for a Repeating step and
  `end >= 1` for a Once step.

Behaviour of the code that a reader might not expect, modelled as written:

- Idle and Walking entries of the selection table do not set the play mode back to
  `Repeating`. After an attack, the clip stays `Once`, so the idle clip plays its
  six frames once and freezes (`PlayerControl.IdleAfterAttackFreezes`).
- The timer is read with `just_finished`, so a call makes at most one frame step,
  however much time has passed. The model has no catch-up loop.
- The keys map without inversion: A to left and D to right.
- `update_player_attack_state` is not scheduled in `src/main.rs`. It is modelled
  as a standalone method. `Schedule.FixedTick` does not call it, and
  `Schedule.RunStaysReachable` proves that the scheduled systems alone never
  reach `Attacking`, a `Once` clip or a finished clip.

## Model

| member | source | states |
|---|---|---|
| `AnimationEngine.Clip.Len` | src/animation.rs:33-35 | `len()` is the number of frames: `start + len() == end`; it requires `start <= end`, because in a debug build the `usize` subtraction panics otherwise |
| `AnimationEngine.Clip.Reset` | src/player.rs:282 | reset yields cursor 0, status Playing and the first frame, keeps bounds, mode and mirror flag, and keeps the clip invariant |
| `AnimationEngine.Animate` | src/animation.rs:60-85 | bounds, mode and mirror flag are never written. A Finished clip, or a call whose timer did not fire, leaves clip and sprite unchanged. A step draws `start + cursor` with the clip's mirror flag. Once: the cursor goes up by exactly one, and the clip finishes exactly when the drawn index is `end - 1`. Repeating: never finishes, and the cursor wraps to 0 after the last frame. The invariant is kept, and the drawn index is in `[start, end)` |
| `AnimationEngine.AnimateN` | src/animation.rs:64-81 | any number of fired steps keeps the clip invariant and never changes bounds, mode or mirror flag |
| `AnimationEngine.AnimateNSplit` | src/animation.rs:64-81 | `m + n` fired steps are `m` steps followed by `n` more |
| `AnimationEngine.RepeatingAfterN` | src/animation.rs:74-78 | after `n` fired steps a Repeating cursor is `(cursor + n) mod len()`, the clip is still Playing, and the sprite shows the cursor |
| `AnimationEngine.OnceAfterN` | src/animation.rs:67-73 | a playing Once clip advances one frame per fired step and is Finished exactly when it reaches frame `end - 1` |
| `AnimationEngine.OnceFinishesAfterLenMinusOne` | src/animation.rs:67-73 | from its first frame, a Once clip is still Playing after fewer than `len() - 1` steps and Finished on frame `end - 1` after exactly `len() - 1` steps |
| `AnimationEngine.DownAttackFinishesAfterThreeSteps` | src/animation.rs:67-73 | the clip `[36, 40)` is Playing after two steps and Finished on frame 39 after three |
| `AnimationEngine.OnceSingleFrameRunsPastEnd` | src/animation.rs:68-72 | a one-frame Once clip does not finish on its first step and draws frame `end`, one past the clip |
| `AnimationEngine.FinishedIsAbsorbing` | src/animation.rs:62-84 | a Finished clip and its sprite stay exactly as they are, however often the timer fires |
| `AnimationEngine.Animation.Len` | src/animation.rs:33-35 | the component's `len()` is `end - start` |
| `AnimationEngine.Animation.constructor` | src/animation.rs:37-53 | `new` stores start, end, mode and mirror flag verbatim, with status Playing and cursor 0 |
| `AnimationEngine.Animation.Reset` | src/player.rs:75 | the in-place reset leaves the component equal to `Clip.Reset` of its old value |
| `AnimationEngine.Sprite.constructor` | src/main.rs:57-61 | the default sprite draws frame 0, not mirrored |
| `AnimationEngine.AnimateSprites` | src/animation.rs:56-87 | the in-place update of clip and sprite equals `Animate` of their old values |
| `PlayerControl.ReadControls` | src/player.rs:220-227 | W sets up, A sets left, S sets down, D sets right, Space sets attack |
| `PlayerControl.ControlsRoundTrip` | src/player.rs:220-227 | the controls determine exactly which of the five keys are held; every other key is ignored |
| `PlayerControl.ResolveVelocity` | src/player.rs:230-254 | each axis is -1, 0 or +1. Attacking gives `(0, 0)` for every input. Otherwise y is +1 exactly for up without down and -1 exactly for down without up, and x is -1 exactly for left without right and +1 exactly for right without left |
| `PlayerControl.DiagonalIsNotNormalised` | src/player.rs:237-251 | a diagonal input gives a vector of squared length 2 |
| `PlayerControl.NextMovementState` | src/player.rs:175-187 | Idle becomes Walking exactly when the velocity is nonzero; Walking becomes Idle exactly when it is zero; Attacking and Dead are untouched |
| `PlayerControl.MovementStateFollowsControls` | src/player.rs:175-187 | for Idle and Walking, the state after the velocity stage is Walking exactly when some movement key is unopposed |
| `PlayerControl.ResolveDirection` | src/player.rs:189-217 | the direction whose movement key alone is held wins; with no key or two or more the direction stays; every change is to such a direction |
| `PlayerControl.ResolveDirectionIdempotent` | src/player.rs:189-217 | resolving twice with the same controls equals resolving once |
| `PlayerControl.AttackTransition` | src/player.rs:273-289 | Idle or Walking with the key held starts an attack. An attack goes on while its clip plays or the key is held. It ends, in Idle, only on a finished clip with the key released. The clip is reset exactly when it has finished and the key is still held. Dead, and Idle or Walking without the key, are untouched |
| `PlayerControl.SelectClip` | src/player.rs:76-165 | Dead has no entry. Every entry lies inside the 60-frame sheet. Only Left is mirrored. Only the attack entries set Once. Idle and walk entries are whole six-frame rows; attack entries are four frames |
| `PlayerControl.HorizontalEntriesShareFrames` | src/player.rs:91-164 | Left and Right share their frames and differ only in the mirror flag |
| `PlayerControl.EntriesAreDisjoint` | src/player.rs:77-164 | apart from the Left/Right pairs, two entries never share a frame |
| `PlayerControl.ApplySelection` | src/player.rs:74-166 | the clip restarts at cursor 0, Playing. Dead only resets: bounds, mirror flag and sprite stay. Every other state takes its entry's frames and mirror flag and draws the entry's first frame. Attacking sets Once, and Idle and Walking keep the old mode. The result is well formed |
| `PlayerControl.AttackReplaysWhileHeld` | src/player.rs:273-288 | attack held while Walking facing Down: the player attacks, the clip becomes `[36, 40)` Once, it is still playing without a reset after two steps, it is Finished on frame 39 after three, and it is then replayed |
| `PlayerControl.IdleAfterAttackFreezes` | src/player.rs:77-132 | after an attack, an idle clip stays Once, finishes on its sixth frame after five steps, and never changes again |
| `PlayerControl.Spawned` | src/main.rs:54-63 | the spawned player is Idle and facing Down, has had no selection yet, and satisfies the component invariant |
| `PlayerControl.SelectionStage` | src/player.rs:63-75 | selection runs only when state or direction differs from what it last saw; it keeps the invariant and records the pair; it touches nothing but clip, sprite and the recorded pair |
| `PlayerControl.SelectionStageIdempotent` | src/player.rs:71-75 | a second selection run without a change resets nothing |
| `PlayerControl.Player.constructor` | src/main.rs:54-63 | the player bundle is spawned with the default components and the clip `[0, 5)`, Repeating, not mirrored |
| `PlayerControl.Player.HandleInput` | src/player.rs:220-227 | the in-place update overwrites all five controls and nothing else |
| `PlayerControl.Player.UpdateControllableVelocities` | src/player.rs:230-254 | the in-place update writes `ResolveVelocity` and nothing else |
| `PlayerControl.Player.UpdatePlayerStateAndDirection` | src/player.rs:170-218 | the in-place update writes `NextMovementState` and `ResolveDirection` and nothing else |
| `PlayerControl.Player.UpdatePlayerAttackState` | src/player.rs:268-290 | the in-place update writes `AttackTransition`'s state, resets the clip when it says so, and keeps the invariant |
| `PlayerControl.Player.HandleAnimationStateUpdate` | src/player.rs:63-168 | the in-place update equals `SelectionStage` and keeps the invariant |
| `Schedule.TickSpec` | src/main.rs:15-32 | each stage reads what the previous stage wrote on the same tick. On a change, the engine steps exactly the clip and sprite that `ApplySelection` wrote for the new state and direction (the entry's bounds, mirror flag and mode, or only a reset for Dead), so the clip restarts on the new entry's first frame. Without a change, the clip is only advanced. The invariant is kept |
| `Schedule.Run` | src/main.rs:15-32 | any sequence of ticks keeps the component invariant |
| `Schedule.TickKeepsReachable` | src/main.rs:18-30 | one scheduled tick keeps the player Idle or Walking with a playing Repeating clip |
| `Schedule.RunStaysReachable` | src/main.rs:18-30 | no sequence of scheduled ticks leads to Attacking, Dead, a Once clip or a Finished clip |
| `Schedule.SpawnedIsReachable` | src/main.rs:56 | the spawned player starts in that reachable set |
| `Schedule.FirstTickWalkingUp` | src/main.rs:18-30 | the first tick from spawn with W held walks up, selects the walk-up clip `[30, 36)` and draws frame 30 |
| `Schedule.HoldingUpOnlyAnimates` | src/main.rs:18-30 | while only W stays held there is no further selection; each fired tick is one clip step |
| `Schedule.WalkUpCyclesFrom` | src/main.rs:18-30 | on the walk-up clip, `n` fired ticks with W held leave the cursor at `n mod 6` and draw frame `30 + n mod 6` |
| `Schedule.WalkUpCycles` | src/main.rs:18-30 | from spawn, the first tick with W held followed by `n` fired ticks leaves the player walking up with the cursor at `n mod 6` |
| `Schedule.FixedTick` | src/main.rs:15-32 | the scheduled systems, run in order on the player, equal `TickSpec` and keep the invariant |

## Left out

- The animation timer (`Timer::from_seconds`, `tick`, `just_finished`, the 0.1 s cadence) is not modelled. Whether it fired on a call is an input, so the model does not say on which ticks a step happens, and it does not say that `reset()` rewinds the timer.
- `move_entities` and the `Transform` position are not modelled: they are floating-point arithmetic and no other stage reads them.
- Bevy plumbing is not modelled: queries, resources, bundles and system registration. The model has one player entity, as the systems' `single_mut()` calls assume. `Player` and `PlayerName` are marker components with no logic, and `close_on_esc` and the app setup are glue.
- `update_controllable_velocities` also accepts entities without a `PlayerState`. The model has only the player, which always has one.
- Rendering and the texture atlas geometry are not modelled. The model keeps only the 6 × 10 grid, as the bound on frame indices.
- Integer width: `usize` overflow of `current_frame + 1` and of `start + current_frame` is not modelled, because `nat` is unbounded. The underflow panic of a debug build and the division panic are modelled as preconditions.
- `Clip.Len`: a release build wraps `end - start` around instead of panicking when `start > end`; that wrap-around is not modelled, and cannot arise, because every clip the program builds has `start < end`.
- The clip invariant `Clip.Wf` requires at least two frames. Every clip the program builds has four, five or six. `OnceSingleFrameRunsPastEnd` shows what a one-frame Once clip would do.
