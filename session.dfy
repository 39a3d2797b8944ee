/**
 * The game session (class Game in game.py): the counters, the
 * playing / ended state machine, spawning on a 1.5 s timer, collision
 * resolution (at most one apple per frame, outcome decided by the apple's
 * spawn-time quality), and reset. A World value is the gameplay state of a
 * Game; the functions below say what one call does to it, and the Game
 * class updates its fields in place and is proved to follow them.
 */
module Session {
  import opened Wrappers
  import opened Geometry
  import opened Player
  import opened Apples
  import opened Effects

  const LIFELINES := 3
  /** APPLE_SPAWN_RATE: one apple every 1.5 s. */
  const SPAWN_MS := 1500
  /** The basket is centred at (100, 80); a caught good apple flies there. */
  const BASKET_CENTER := (100, 80)

  datatype Phase = Playing | Ended

  /** What the classifier reports for an apple's image: the predicted label and its confidence. */
  datatype Verdict = Verdict(predicted: Quality, confidence: real)

  /**
   * What one pass of the run loop reads besides the game: the clock's
   * milliseconds, whether SPACE went down, the movement keys held, the
   * boy's pixel step, the pixels each apple drops, and
   * the random draws for an apple spawned this frame.
   */
  datatype FrameInput = FrameInput(dt: nat, restart: bool, keys: Keys, boyStep: nat,
                                   fallStep: Apple -> nat, roll: SpawnRoll)

  /** The gameplay state of a Game. */
  datatype World = World(score: int, goodCollected: int, rottenCollected: int, lifelines: int,
                         elapsed: nat, lastAppleSpawn: nat, state: Phase,
                         apples: seq<Apple>, effects: seq<FlyEffect>, boy: BoyState)

  /** The state Game.reset establishes. */
  function Initial(): World {
    World(0, 0, 0, LIFELINES, 0, 0, Playing, [], [], InitialBoy)
  }

  /** An apple in the group that is alive, uncollected and sits on a sound rect. */
  predicate LiveApple(a: Apple) {
    && !a.collected
    && APPLE_FALL_SPEED - 30 <= a.fallSpeed <= APPLE_FALL_SPEED + 30
    && a.rect.NonEmpty()
    && !OffScreen(a)
  }

  /**
   * What holds of the state in the middle of a frame: lives stay in [0, 3]
   * and are the 3 starting lives less the rotten apples hit, the score is
   * the good count, the boy is inside his clamp, and every apple and
   * effect in the groups is alive.
   */
  predicate Sound(w: World) {
    && 0 <= w.lifelines <= LIFELINES
    && 0 <= w.goodCollected && 0 <= w.rottenCollected
    && w.score == w.goodCollected
    && w.lifelines == Max(0, LIFELINES - w.rottenCollected)
    && w.lastAppleSpawn <= w.elapsed
    && MIN_X <= w.boy.x <= MAX_X
    && (forall k :: 0 <= k < |w.apples| ==> LiveApple(w.apples[k]))
    && (forall k :: 0 <= k < |w.effects| ==> w.effects[k].elapsed < EFFECT_MS)
    && |w.effects| <= w.goodCollected
  }

  /** What holds between frames: the state is sound and the game has ended exactly when no life is left. */
  predicate Inv(w: World) {
    Sound(w) && (w.state == Ended <==> w.lifelines == 0)
  }

  /** The loop in handle_collisions skips collected apples and stops at the first that collides with the boy. */
  predicate Hits(a: Apple, boy: Rect) { !a.collected && CollideRect(boy, a.rect) }

  /** The position, in spawn order, of the apple handle_collisions resolves, if any. */
  function FirstHit(apples: seq<Apple>, boy: Rect): (k: Option<nat>)
    ensures k.Some? ==> k.value < |apples| && Hits(apples[k.value], boy)
    ensures k.Some? ==> forall j :: 0 <= j < k.value ==> !Hits(apples[j], boy)
    ensures k.None? ==> forall j :: 0 <= j < |apples| ==> !Hits(apples[j], boy)
    decreases |apples|
  {
    if apples == [] then None
    else if Hits(apples[0], boy) then Some(0)
    else match FirstHit(apples[1..], boy)
      case None => None
      case Some(k) => Some(k + 1)
  }

  /**
   * Game.handle_collisions: the first hit apple is removed and the boy
   * plays his pick animation; a good apple scores and starts a flight to
   * the basket, a damaged one costs a life (never below zero). Nothing
   * else changes, and the classifier's verdict plays no part.
   */
  function Resolve(w: World): (r: World)
    ensures r.elapsed == w.elapsed && r.lastAppleSpawn == w.lastAppleSpawn && r.state == w.state
    ensures FirstHit(w.apples, BoyRect(w.boy)).None? ==> r == w
    ensures FirstHit(w.apples, BoyRect(w.boy)).Some? ==>
              var i := FirstHit(w.apples, BoyRect(w.boy)).value;
              && r.apples == w.apples[..i] + w.apples[i + 1..]
              && r.boy == Pick(w.boy)
              && (w.apples[i].quality == Good ==>
                    && r.score == w.score + 1 && r.goodCollected == w.goodCollected + 1
                    && |r.effects| == |w.effects| + 1 && r.effects[..|w.effects|] == w.effects
                    && r.effects[|w.effects|].elapsed == 0
                    && r.lifelines == w.lifelines && r.rottenCollected == w.rottenCollected)
              && (w.apples[i].quality == Damaged ==>
                    && r.lifelines == Max(0, w.lifelines - 1)
                    && r.rottenCollected == w.rottenCollected + 1
                    && r.score == w.score && r.goodCollected == w.goodCollected
                    && r.effects == w.effects)
  {
    match FirstHit(w.apples, BoyRect(w.boy))
    case None => w
    case Some(i) =>
      var apple := w.apples[i];
      var picked := w.(boy := Pick(w.boy), apples := w.apples[..i] + w.apples[i + 1..]);
      if apple.quality == Good then
        picked.(score := w.score + 1, goodCollected := w.goodCollected + 1,
                effects := w.effects + [NewEffect(apple.rect.Center(), BASKET_CENTER)])
      else
        picked.(lifelines := Max(0, w.lifelines - 1), rottenCollected := w.rottenCollected + 1)
  }

  /** The spawn test of the run loop: 1.5 s have passed since the last spawn. */
  predicate SpawnDue(w: World) { w.elapsed - w.lastAppleSpawn >= SPAWN_MS }

  /** The spawn step of a playing frame: one new apple, and the spawn clock restarted, exactly when due. */
  function Spawn(w: World, roll: SpawnRoll): (r: World)
    requires ValidRoll(roll)
    ensures |r.apples| == |w.apples| + (if SpawnDue(w) then 1 else 0)
    ensures r.apples[..|w.apples|] == w.apples
    ensures SpawnDue(w) ==> r.apples[|w.apples|] == NewApple(roll) && r.lastAppleSpawn == w.elapsed
    ensures !SpawnDue(w) ==> r == w
    ensures r == w.(apples := r.apples, lastAppleSpawn := r.lastAppleSpawn)
  {
    if SpawnDue(w) then w.(apples := w.apples + [NewApple(roll)], lastAppleSpawn := w.elapsed)
    else w
  }

  /** The first two steps of a playing frame: the clock advances by dt and the boy is updated. */
  function Timed(w: World, input: FrameInput): World {
    w.(elapsed := w.elapsed + input.dt, boy := StepBoy(w.boy, input.dt, input.keys, input.boyStep))
  }

  /** The apple group and the effects group are updated. */
  function Moved(w: World, input: FrameInput): World {
    w.(apples := AdvanceApples(w.apples, input.fallStep), effects := AdvanceEffects(w.effects, input.dt))
  }

  /** The game-end check closing a playing frame. */
  function EndCheck(w: World): World {
    if w.lifelines <= 0 then w.(state := Ended) else w
  }

  /**
   * The body of `if self.state == "playing"` in Game.run, in its order:
   * advance the clock, update the boy, maybe spawn, update apples and
   * effects, resolve collisions, and end the game when no life is left.
   */
  function PlayingFrame(w: World, input: FrameInput): World
    requires ValidRoll(input.roll)
  {
    EndCheck(Resolve(Moved(Spawn(Timed(w, input), input.roll), input)))
  }

  /** One pass of the run loop: SPACE restarts an ended game, then a playing game plays a frame. */
  function Frame(w: World, input: FrameInput): World
    requires ValidRoll(input.roll)
  {
    var current := if w.state == Ended && input.restart then Initial() else w;
    if current.state == Playing then PlayingFrame(current, input) else current
  }

  /** A run of passes of the loop. */
  function Run(w: World, inputs: seq<FrameInput>): World
    requires forall k :: 0 <= k < |inputs| ==> ValidRoll(inputs[k].roll)
    decreases |inputs|
  {
    if inputs == [] then w else Run(Frame(w, inputs[0]), inputs[1..])
  }

  predicate NoRestart(inputs: seq<FrameInput>) {
    forall k :: 0 <= k < |inputs| ==> !inputs[k].restart
  }

  /** The state reset establishes satisfies the invariant. */
  lemma InitialInv()
    ensures Inv(Initial())
  {
  }

  /** Resolving a collision keeps the state sound. */
  lemma ResolveKeepsSound(w: World)
    requires Sound(w)
    ensures Sound(Resolve(w))
  {
  }

  /** Spawning keeps the state sound. */
  lemma SpawnKeepsSound(w: World, roll: SpawnRoll)
    requires Sound(w) && ValidRoll(roll)
    ensures Sound(Spawn(w, roll))
  {
  }

  /** Updating the apple and effect groups keeps the state sound. */
  lemma MovedKeepsSound(w: World, input: FrameInput)
    requires Sound(w)
    ensures Sound(Moved(w, input))
  {
  }

  /** A playing frame keeps the invariant. */
  lemma PlayingFrameKeepsInv(w: World, input: FrameInput)
    requires Inv(w) && ValidRoll(input.roll)
    ensures Inv(PlayingFrame(w, input))
  {
    var timed := Timed(w, input);
    SpawnKeepsSound(timed, input.roll);
    var spawned := Spawn(timed, input.roll);
    MovedKeepsSound(spawned, input);
    ResolveKeepsSound(Moved(spawned, input));
  }

  /** Every pass of the run loop keeps the invariant. */
  lemma FrameKeepsInv(w: World, input: FrameInput)
    requires Inv(w) && ValidRoll(input.roll)
    ensures Inv(Frame(w, input))
  {
    var current := if w.state == Ended && input.restart then Initial() else w;
    InitialInv();
    if current.state == Playing {
      PlayingFrameKeepsInv(current, input);
    }
  }

  /** The invariant holds after any run of frames from a state that satisfies it, in particular from reset. */
  lemma {:induction false} RunKeepsInv(w: World, inputs: seq<FrameInput>)
    requires Inv(w)
    requires forall k :: 0 <= k < |inputs| ==> ValidRoll(inputs[k].roll)
    ensures Inv(Run(w, inputs))
    decreases |inputs|
  {
    if inputs != [] {
      FrameKeepsInv(w, inputs[0]);
      RunKeepsInv(Frame(w, inputs[0]), inputs[1..]);
    }
  }

  /** While ended, a pass without SPACE changes nothing at all; with SPACE, the pass plays a fresh game's first frame. */
  lemma EndedWaitsForRestart(w: World, input: FrameInput)
    requires w.state == Ended && ValidRoll(input.roll)
    ensures !input.restart ==> Frame(w, input) == w
    ensures input.restart ==> Frame(w, input) == PlayingFrame(Initial(), input)
  {
  }

  /**
   * One playing frame resolves at most one apple, adds at most one apple to
   * the group, never lowers the score and never raises the lives; the game
   * ends in that frame exactly when the lives reach zero.
   */
  lemma PlayingFrameBounds(w: World, input: FrameInput)
    requires Inv(w) && ValidRoll(input.roll)
    ensures var r := PlayingFrame(w, input);
      && 0 <= (r.goodCollected + r.rottenCollected) - (w.goodCollected + w.rottenCollected) <= 1
      && |r.apples| <= |w.apples| + 1
      && w.score <= r.score <= w.score + 1
      && w.lifelines - 1 <= r.lifelines <= w.lifelines
      && (r.state == Ended <==> r.lifelines == 0)
  {
  }

  /** Spawns are at least 1.5 s apart: a frame either keeps the spawn clock or restarts it 1.5 s or more later. */
  lemma SpawnSpacing(w: World, input: FrameInput)
    requires w.lastAppleSpawn <= w.elapsed && ValidRoll(input.roll)
    ensures var r := PlayingFrame(w, input);
      r.lastAppleSpawn == w.lastAppleSpawn || r.lastAppleSpawn >= w.lastAppleSpawn + SPAWN_MS
  {
  }

  /** Without SPACE, over any run the score never falls and the lives never rise. */
  lemma {:induction false} RunWithoutRestartIsMonotone(w: World, inputs: seq<FrameInput>)
    requires Inv(w) && NoRestart(inputs)
    requires forall k :: 0 <= k < |inputs| ==> ValidRoll(inputs[k].roll)
    ensures Run(w, inputs).score >= w.score
    ensures Run(w, inputs).lifelines <= w.lifelines
    ensures w.state == Ended ==> Run(w, inputs) == w
    decreases |inputs|
  {
    if inputs != [] {
      var next := Frame(w, inputs[0]);
      if w.state == Playing {
        PlayingFrameBounds(w, inputs[0]);
      }
      FrameKeepsInv(w, inputs[0]);
      assert NoRestart(inputs[1..]) by {
        forall k | 0 <= k < |inputs[1..]| ensures !inputs[1..][k].restart {
          assert inputs[1..][k] == inputs[k + 1];
        }
      }
      RunWithoutRestartIsMonotone(next, inputs[1..]);
    }
  }

  /** The game object of game.py, whose fields the run loop updates in place. */
  class Game {
    var score: int
    var goodCollected: int
    var rottenCollected: int
    var lifelines: int
    var elapsed: nat
    var lastAppleSpawn: nat
    var state: Phase
    var apples: seq<Apple>
    var effects: seq<FlyEffect>
    var boy: Boy

    function Snapshot(): World
      reads this, boy
    {
      World(score, goodCollected, rottenCollected, lifelines, elapsed, lastAppleSpawn, state,
            apples, effects, boy.State())
    }

    ghost predicate Valid()
      reads this, boy
    {
      Inv(Snapshot())
    }

    /** Game.__init__ without the display, fonts, background and classifier loading. */
    constructor ()
      ensures Snapshot() == Initial() && Valid()
    {
      boy := new Boy();
      state := Playing;
      new;
      Reset();
      InitialInv();
    }

    method Reset()
      modifies this
      ensures fresh(boy)
      ensures Snapshot() == Initial()
    {
      apples := [];
      effects := [];
      boy := new Boy();
      score := 0;
      goodCollected := 0;
      rottenCollected := 0;
      lifelines := LIFELINES;
      elapsed := 0;
      lastAppleSpawn := 0;
      state := Playing;
    }

    /**
     * The scan over a copy of the apple group; `classify` is the CNN the
     * source consults, whose answer is computed and dropped.
     */
    method HandleCollisions(classify: Apple -> Verdict)
      modifies this, boy
      ensures boy == old(boy)
      ensures Snapshot() == Resolve(old(Snapshot()))
    {
      var candidates := apples;
      var i := 0;
      while i < |candidates|
        invariant 0 <= i <= |candidates|
        invariant boy == old(boy) && Snapshot() == old(Snapshot()) && candidates == apples
        invariant forall j :: 0 <= j < i ==> !Hits(candidates[j], boy.Bounds())
      {
        var apple := candidates[i];
        if apple.collected {
          i := i + 1;
          continue;
        }
        if CollideRect(boy.Bounds(), apple.rect) {
          assert FirstHit(candidates, boy.Bounds()) == Some(i);
          boy.PlayPickAnimation();
          var verdict := classify(apple);
          // the apple is marked collected and killed: it leaves the group
          if apple.quality == Good {
            score := score + 1;
            goodCollected := goodCollected + 1;
            effects := effects + [NewEffect(apple.rect.Center(), BASKET_CENTER)];
          } else {
            lifelines := Max(0, lifelines - 1);
            rottenCollected := rottenCollected + 1;
          }
          apples := apples[..i] + apples[i + 1..];
          break;
        }
        i := i + 1;
      }
    }

    /** The spawn step of the playing block of Game.run. */
    method SpawnApple(roll: SpawnRoll)
      requires ValidRoll(roll)
      modifies this
      ensures boy == old(boy)
      ensures Snapshot() == Spawn(old(Snapshot()), roll)
    {
      if elapsed - lastAppleSpawn >= SPAWN_MS {
        apples := apples + [NewApple(roll)];
        lastAppleSpawn := elapsed;
      }
    }

    /** `self.apples.update(dt)` and `self.effects.update(dt)`. */
    method UpdateGroups(input: FrameInput)
      modifies this
      ensures boy == old(boy)
      ensures Snapshot() == Moved(old(Snapshot()), input)
    {
      apples := UpdateApples(apples, input.fallStep);
      effects := UpdateEffects(effects, input.dt);
    }

    /** The `if self.state == "playing"` block of Game.run. */
    method PlayFrame(input: FrameInput, classify: Apple -> Verdict)
      requires ValidRoll(input.roll)
      modifies this, boy
      ensures boy == old(boy)
      ensures Snapshot() == PlayingFrame(old(Snapshot()), input)
    {
      elapsed := elapsed + input.dt;
      boy.Update(input.dt, input.keys, input.boyStep);
      assert Snapshot() == Timed(old(Snapshot()), input);
      SpawnApple(input.roll);
      UpdateGroups(input);
      HandleCollisions(classify);
      if lifelines <= 0 {
        state := Ended;
      }
    }

    /** One pass of the run loop: the restart key while ended, then the playing frame. */
    method Tick(input: FrameInput, classify: Apple -> Verdict)
      requires Valid() && ValidRoll(input.roll)
      modifies this, boy
      ensures Valid()
      ensures Snapshot() == Frame(old(Snapshot()), input)
    {
      if state == Ended && input.restart {
        Reset();
      }
      if state == Playing {
        PlayFrame(input, classify);
      }
      FrameKeepsInv(old(Snapshot()), input);
    }
  }
}
