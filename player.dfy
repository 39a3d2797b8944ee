/**
 * The boy the player steers (class Boy in game.py): left/right movement
 * clamped to the play field and the idle / walking / picking animation
 * state machine with its 0.4 s pick timer. Time is in whole milliseconds.
 */
module Player {
  import opened Geometry

  const BOY_WIDTH := 100
  const BOY_HEIGHT := 160
  /** The boy's rect stands on the ground line: midbottom = (WIDTH / 2, GROUND_Y). */
  const BOY_TOP := GROUND_Y - BOY_HEIGHT
  const MIN_X := 50
  const MAX_X := WIDTH - 50
  /** A pick animation lasts until its timer exceeds 400 ms. */
  const PICK_MS := 400

  datatype Animation = Idle | Walking | Picking

  /** The movement keys held this frame: `left` is LEFT or A, `right` is RIGHT or D. */
  datatype Keys = Keys(left: bool, right: bool)

  predicate Held(keys: Keys) { keys.left || keys.right }

  /** The gameplay fields of a Boy; `x` is rect.x, `direction` is -1 (left) or 1 (right). */
  datatype BoyState = BoyState(x: int, direction: int, animation: Animation,
                               animationTimer: nat, pickingTimer: nat)

  const InitialBoy := BoyState(WIDTH / 2 - BOY_WIDTH / 2, 1, Idle, 0, 0)

  function BoyRect(b: BoyState): Rect { Rect(b.x, BOY_TOP, BOY_WIDTH, BOY_HEIGHT) }

  /** `max(50, min(WIDTH - 50, x))`. */
  function ClampX(x: int): (r: int)
    ensures MIN_X <= r <= MAX_X
    ensures MIN_X <= x <= MAX_X ==> r == x
    ensures x < MIN_X ==> r == MIN_X
    ensures x > MAX_X ==> r == MAX_X
  {
    Max(MIN_X, Min(MAX_X, x))
  }

  /**
   * One call of Boy.update(dt) with `keys` held; `step` is the number of
   * pixels `speed * dt` moves the rect this frame.
   */
  function StepBoy(b: BoyState, dt: nat, keys: Keys, step: nat): (r: BoyState)
    ensures r.animationTimer == b.animationTimer + dt
    // movement: clamped while a key is held, still otherwise
    ensures Held(keys) ==> MIN_X <= r.x <= MAX_X
    ensures !Held(keys) ==> r.x == b.x && r.direction == b.direction
    ensures keys.left ==> r.direction == -1 && r.x <= Max(b.x, MIN_X)
    ensures keys.left ==> r.x == ClampX(b.x - step)
    ensures !keys.left && keys.right ==> r.direction == 1 && r.x >= Min(b.x, MAX_X)
    ensures !keys.left && keys.right ==> r.x == ClampX(b.x + step)
    // animation: an unexpired pick is never overwritten, an expired one resets its timer
    ensures r.animation == Picking <==> b.animation == Picking && b.pickingTimer + dt <= PICK_MS
    ensures r.animation == Picking ==> r.pickingTimer == b.pickingTimer + dt
    ensures b.animation == Picking && b.pickingTimer + dt > PICK_MS ==> r.pickingTimer == 0
    ensures b.animation != Picking ==> r.pickingTimer == b.pickingTimer + dt
    ensures r.animation != Picking ==> (r.animation == Walking <==> Held(keys))
  {
    var timed := b.(animationTimer := b.animationTimer + dt, pickingTimer := b.pickingTimer + dt);
    var expired := if timed.animation == Picking && timed.pickingTimer > PICK_MS
                   then timed.(animation := Idle, pickingTimer := 0) else timed;
    if keys.left || keys.right then
      var moved := if keys.left then expired.(x := ClampX(expired.x - step), direction := -1)
                   else expired.(x := ClampX(expired.x + step), direction := 1);
      if moved.animation != Picking then moved.(animation := Walking) else moved
    else if expired.animation == Walking then expired.(animation := Idle)
    else expired
  }

  /** Boy.play_pick_animation. */
  function Pick(b: BoyState): (r: BoyState)
    ensures r.animation == Picking && r.pickingTimer == 0
    ensures r.x == b.x && r.direction == b.direction && r.animationTimer == b.animationTimer
  {
    b.(animation := Picking, pickingTimer := 0)
  }

  /** A pick started now survives the next update exactly when that update is at most 400 ms long. */
  lemma PickLastsFourHundredMs(b: BoyState, dt: nat, keys: Keys, step: nat)
    ensures StepBoy(Pick(b), dt, keys, step).animation == Picking <==> dt <= PICK_MS
  {
  }

  /** From an in-bounds start the boy stays in bounds over any run of updates, whatever keys each frame holds. */
  lemma {:induction false} BoyStaysInBounds(b: BoyState, frames: seq<(nat, Keys, nat)>)
    requires MIN_X <= b.x <= MAX_X
    ensures MIN_X <= StepMany(b, frames).x <= MAX_X
    decreases |frames|
  {
    if frames != [] {
      var next := StepBoy(b, frames[0].0, frames[0].1, frames[0].2);
      BoyStaysInBounds(next, frames[1..]);
    }
  }

  /** Successive updates; each frame gives (dt, keys held, step). */
  function StepMany(b: BoyState, frames: seq<(nat, Keys, nat)>): BoyState
    decreases |frames|
  {
    if frames == [] then b
    else StepMany(StepBoy(b, frames[0].0, frames[0].1, frames[0].2), frames[1..])
  }

  /** A pygame sprite whose rect and timers Boy.update steps in place. */
  class Boy {
    var x: int
    var direction: int
    var animation: Animation
    var animationTimer: nat
    var pickingTimer: nat

    function State(): BoyState
      reads this
    {
      BoyState(x, direction, animation, animationTimer, pickingTimer)
    }

    function Bounds(): Rect
      reads this
    {
      BoyRect(State())
    }

    constructor ()
      ensures State() == InitialBoy
    {
      x := WIDTH / 2 - BOY_WIDTH / 2;
      direction := 1;
      animation := Idle;
      animationTimer := 0;
      pickingTimer := 0;
    }

    method Update(dt: nat, keys: Keys, step: nat)
      modifies this
      ensures State() == StepBoy(old(State()), dt, keys, step)
    {
      animationTimer := animationTimer + dt;
      pickingTimer := pickingTimer + dt;
      if animation == Picking && pickingTimer > PICK_MS {
        animation := Idle;
        pickingTimer := 0;
      }
      if keys.left {
        x := x - step;
        direction := -1;
        if animation != Picking {
          animation := Walking;
        }
        x := ClampX(x);
      } else if keys.right {
        x := x + step;
        direction := 1;
        if animation != Picking {
          animation := Walking;
        }
        x := ClampX(x);
      } else if animation == Walking {
        animation := Idle;
      }
    }

    method PlayPickAnimation()
      modifies this
      ensures State() == Pick(old(State()))
    {
      animation := Picking;
      pickingTimer := 0;
    }
  }
}
