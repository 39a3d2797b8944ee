/**
 * The flight of a caught good apple to the basket (class AppleFlyEffect in
 * game.py), reduced to its lifetime: `elapsed` accumulates and the effect is
 * killed once it reaches the 600 ms duration.
 */
module Effects {
  import opened Sequences

  const EFFECT_MS := 600

  /** The centre the flight starts from and the basket centre it ends at, and the time flown so far. */
  datatype FlyEffect = FlyEffect(start: (int, int), end: (int, int), elapsed: nat)

  function NewEffect(start: (int, int), end: (int, int)): (e: FlyEffect)
    ensures e.elapsed == 0 && e.start == start && e.end == end
  {
    FlyEffect(start, end, 0)
  }

  /** The effect after AppleFlyEffect.update(dt) has added dt to its clock. */
  function Aged(e: FlyEffect, dt: nat): (r: FlyEffect)
    ensures r.elapsed == e.elapsed + dt && r.start == e.start && r.end == e.end
  {
    e.(elapsed := e.elapsed + dt)
  }

  /** `elapsed >= duration`: the effect kills itself. */
  predicate Expired(e: FlyEffect) { e.elapsed >= EFFECT_MS }

  /** The effects group after `effects.update(dt)`. */
  function AdvanceEffects(effects: seq<FlyEffect>, dt: nat): (r: seq<FlyEffect>)
    ensures |r| <= |effects|
    ensures forall k :: 0 <= k < |r| ==> r[k].elapsed < EFFECT_MS
    ensures forall k :: 0 <= k < |r| ==>
              exists j :: 0 <= j < |effects| && r[k] == Aged(effects[j], dt)
    ensures forall j :: 0 <= j < |effects| && effects[j].elapsed + dt < EFFECT_MS ==>
              Aged(effects[j], dt) in r
    decreases |effects|
  {
    if effects == [] then []
    else
      var rest := AdvanceEffects(effects[..|effects| - 1], dt);
      var last := Aged(effects[|effects| - 1], dt);
      if Expired(last) then rest else rest + [last]
  }

  /** What one effect contributes to the group after the update: itself, aged, unless it expired. */
  function KeepAged(e: FlyEffect, dt: nat): seq<FlyEffect>
  {
    if Expired(Aged(e, dt)) then [] else [Aged(e, dt)]
  }

  /**
   * The effects update is, effect by effect and in order, the aged effect
   * when it has not expired and nothing when it has: order and multiplicity
   * are kept.
   */
  lemma {:induction false} AdvanceEffectsIsEachKept(effects: seq<FlyEffect>, dt: nat)
    ensures AdvanceEffects(effects, dt) == FlatMap(effects, KeepAged, dt)
    decreases |effects|
  {
    if effects != [] {
      AdvanceEffectsIsEachKept(effects[..|effects| - 1], dt);
    }
  }

  /** Updating two runs of effects back to back is updating each run on its own. */
  lemma AdvanceEffectsInOrder(s: seq<FlyEffect>, t: seq<FlyEffect>, dt: nat)
    ensures AdvanceEffects(s + t, dt) == AdvanceEffects(s, dt) + AdvanceEffects(t, dt)
  {
    AdvanceEffectsIsEachKept(s + t, dt);
    AdvanceEffectsIsEachKept(s, dt);
    AdvanceEffectsIsEachKept(t, dt);
    FlatMapAppend(s, t, KeepAged, dt);
  }

  /** A single effect is kept, aged, exactly when it has not expired. */
  lemma AdvanceOneEffect(x: FlyEffect, dt: nat)
    ensures AdvanceEffects([x], dt) == if Expired(Aged(x, dt)) then [] else [Aged(x, dt)]
  {
  }

  /** The effect is still alive after each of the updates `dts`, in turn. */
  predicate Survives(e: FlyEffect, dts: seq<nat>)
    decreases |dts|
  {
    dts == [] || (!Expired(Aged(e, dts[0])) && Survives(Aged(e, dts[0]), dts[1..]))
  }

  function Sum(dts: seq<nat>): nat
    decreases |dts|
  {
    if dts == [] then 0 else dts[0] + Sum(dts[1..])
  }

  /** An effect with time left stays alive through a run of updates exactly when their total leaves it below 600 ms. */
  lemma {:induction false} SurvivesIffTotalBelow(e: FlyEffect, dts: seq<nat>)
    requires e.elapsed < EFFECT_MS
    ensures Survives(e, dts) <==> e.elapsed + Sum(dts) < EFFECT_MS
    decreases |dts|
  {
    if dts != [] {
      var next := Aged(e, dts[0]);
      if !Expired(next) {
        SurvivesIffTotalBelow(next, dts[1..]);
      }
    }
  }

  /** pygame's Group.update on the effects: age each one in turn, dropping the expired ones. */
  method UpdateEffects(effects: seq<FlyEffect>, dt: nat) returns (kept: seq<FlyEffect>)
    ensures kept == AdvanceEffects(effects, dt)
  {
    kept := [];
    var i := 0;
    while i < |effects|
      invariant 0 <= i <= |effects|
      invariant kept == AdvanceEffects(effects[..i], dt)
    {
      var effect := Aged(effects[i], dt);
      assert effects[..i + 1][..i] == effects[..i];
      if !Expired(effect) {
        kept := kept + [effect];
      }
      i := i + 1;
    }
    assert effects[..i] == effects;
  }
}
