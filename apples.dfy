/**
 * Falling apples (class Apple in game.py): the gameplay fields fixed at
 * spawn, the per-frame fall, and removal once the rect's top passes the
 * bottom of the screen. The random draws made at spawn are inputs.
 */
module Apples {
  import opened Geometry
  import opened Sequences

  const APPLE_FALL_SPEED := 200
  /** Apples spawn centred 50 px above the top of the screen. */
  const SPAWN_Y := -50

  datatype Quality = Good | Damaged

  /** The gameplay fields of an Apple sprite; `fallSpeed` is in px per second. */
  datatype Apple = Apple(rect: Rect, quality: Quality, fallSpeed: int, collected: bool)

  /**
   * The random values drawn when an apple is spawned: the centre x
   * (`randint(100, WIDTH - 100)`), the quality (good with probability 0.65),
   * the fall-speed jitter (`randint(-30, 30)`) and the sprite radius
   * (`randint(28, 36)`), which sets the size of the rect.
   */
  datatype SpawnRoll = SpawnRoll(x: int, quality: Quality, jitter: int, radius: int)

  predicate ValidRoll(roll: SpawnRoll) {
    100 <= roll.x <= WIDTH - 100 && -30 <= roll.jitter <= 30 && 28 <= roll.radius <= 36
  }

  /** Apple.__init__(x) without the drawing: the surface is (2r + 20) x (2r + 30). */
  function NewApple(roll: SpawnRoll): (a: Apple)
    requires ValidRoll(roll)
    ensures !a.collected && a.quality == roll.quality
    ensures APPLE_FALL_SPEED - 30 <= a.fallSpeed <= APPLE_FALL_SPEED + 30
    ensures a.rect.Center() == (roll.x, SPAWN_Y) && a.rect.NonEmpty()
    ensures 0 < a.rect.x && a.rect.x + a.rect.w < WIDTH && a.rect.y < 0
  {
    var w, h := 2 * roll.radius + 20, 2 * roll.radius + 30;
    Apple(Rect(roll.x - w / 2, SPAWN_Y - h / 2, w, h), roll.quality,
          APPLE_FALL_SPEED + roll.jitter, false)
  }

  /** The rect has fallen past the bottom of the screen: `rect.top > HEIGHT`. */
  predicate OffScreen(a: Apple) { a.rect.y > HEIGHT }

  /**
   * The apple after one Apple.update; `fallStep` gives the pixels the apple
   * drops in this frame, `rect.y + fall_speed * dt` stored back into the
   * integer rect, so it may depend on the apple's position as well as its speed.
   */
  function Fallen(a: Apple, fallStep: Apple -> nat): (r: Apple)
    ensures r.quality == a.quality && r.fallSpeed == a.fallSpeed && r.collected == a.collected
    ensures r.rect.x == a.rect.x && r.rect.w == a.rect.w && r.rect.h == a.rect.h
    ensures r.rect.y >= a.rect.y
  {
    a.(rect := a.rect.(y := a.rect.y + fallStep(a)))
  }

  /**
   * The apple group after `apples.update(dt)`: every apple falls, in spawn
   * order, and those now off screen are killed.
   */
  function AdvanceApples(apples: seq<Apple>, fallStep: Apple -> nat): (r: seq<Apple>)
    ensures |r| <= |apples|
    ensures forall k :: 0 <= k < |r| ==> !OffScreen(r[k])
    ensures forall k :: 0 <= k < |r| ==>
              exists j :: 0 <= j < |apples| && r[k] == Fallen(apples[j], fallStep)
    ensures forall j :: 0 <= j < |apples| && !OffScreen(Fallen(apples[j], fallStep)) ==>
              Fallen(apples[j], fallStep) in r
    decreases |apples|
  {
    if apples == [] then []
    else
      var rest := AdvanceApples(apples[..|apples| - 1], fallStep);
      var last := Fallen(apples[|apples| - 1], fallStep);
      if OffScreen(last) then rest else rest + [last]
  }

  /** When nothing leaves the screen, the group keeps every apple, in order. */
  lemma {:induction false} AdvanceKeepsAllOnScreen(apples: seq<Apple>, fallStep: Apple -> nat)
    requires forall j :: 0 <= j < |apples| ==> !OffScreen(Fallen(apples[j], fallStep))
    ensures |AdvanceApples(apples, fallStep)| == |apples|
    ensures forall k :: 0 <= k < |apples| ==> AdvanceApples(apples, fallStep)[k] == Fallen(apples[k], fallStep)
    decreases |apples|
  {
    if apples != [] {
      var init := apples[..|apples| - 1];
      AdvanceKeepsAllOnScreen(init, fallStep);
      var rest := AdvanceApples(init, fallStep);
      assert !OffScreen(Fallen(apples[|apples| - 1], fallStep));
      assert AdvanceApples(apples, fallStep) == rest + [Fallen(apples[|apples| - 1], fallStep)];
      forall k | 0 <= k < |apples|
        ensures AdvanceApples(apples, fallStep)[k] == Fallen(apples[k], fallStep)
      {
        if k < |init| {
          assert init[k] == apples[k];
        }
      }
    }
  }

  /** What one apple contributes to the group after the update: itself, fallen, unless it left the screen. */
  function KeepFallen(a: Apple, fallStep: Apple -> nat): seq<Apple>
  {
    if OffScreen(Fallen(a, fallStep)) then [] else [Fallen(a, fallStep)]
  }

  /**
   * The group update is, apple by apple and in spawn order, the fallen apple
   * when it is still on screen and nothing when it is not: order and
   * multiplicity are kept.
   */
  lemma {:induction false} AdvanceApplesIsEachKept(apples: seq<Apple>, fallStep: Apple -> nat)
    ensures AdvanceApples(apples, fallStep) == FlatMap(apples, KeepFallen, fallStep)
    decreases |apples|
  {
    if apples != [] {
      AdvanceApplesIsEachKept(apples[..|apples| - 1], fallStep);
    }
  }

  /** Updating two runs of apples back to back is updating each run on its own. */
  lemma AdvanceApplesInOrder(s: seq<Apple>, t: seq<Apple>, fallStep: Apple -> nat)
    ensures AdvanceApples(s + t, fallStep) == AdvanceApples(s, fallStep) + AdvanceApples(t, fallStep)
  {
    AdvanceApplesIsEachKept(s + t, fallStep);
    AdvanceApplesIsEachKept(s, fallStep);
    AdvanceApplesIsEachKept(t, fallStep);
    FlatMapAppend(s, t, KeepFallen, fallStep);
  }

  /** A single apple is kept, fallen, exactly when it is still on screen. */
  lemma AdvanceOneApple(x: Apple, fallStep: Apple -> nat)
    ensures AdvanceApples([x], fallStep) == if OffScreen(Fallen(x, fallStep)) then [] else [Fallen(x, fallStep)]
  {
  }

  /** pygame's Group.update: call Apple.update on each apple in turn, dropping the killed ones. */
  method UpdateApples(apples: seq<Apple>, fallStep: Apple -> nat) returns (kept: seq<Apple>)
    ensures kept == AdvanceApples(apples, fallStep)
  {
    kept := [];
    var i := 0;
    while i < |apples|
      invariant 0 <= i <= |apples|
      invariant kept == AdvanceApples(apples[..i], fallStep)
    {
      var apple := Fallen(apples[i], fallStep);
      assert apples[..i + 1][..i] == apples[..i];
      if !OffScreen(apple) {
        kept := kept + [apple];
      }
      i := i + 1;
    }
    assert apples[..i] == apples;
  }
}
