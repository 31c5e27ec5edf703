/**
 * Transient visual effects: bombs, shields, explosions, particles and the
 * like. Each effect runs for a fixed duration, after which `update` drops it;
 * the only effect the rules read back is the explosion damage around a point.
 * Effect identifiers are never read and are not modelled; particle drift and
 * its random velocity are not modelled, so a particle keeps its position.
 */
module Effects {
  import opened GameTypes

  datatype EffectKind =
    | BombEffect | ExplosionEffect | ParticleEffect | LightningEffect
    | FireEffect | IceEffect | ShieldEffect

  datatype GameEffect = GameEffect(
    kind: EffectKind,
    position: Position,
    targetPosition: Option<Position>,
    duration: real,
    radius: real,
    damage: real,
    progress: real,
    isActive: bool)

  /** An effect that has just started. */
  function Started(kind: EffectKind, at: Position, duration: real, radius: real, damage: real): (e: GameEffect)
    ensures e.kind == kind && e.position == at && e.targetPosition == None
    ensures e.duration == duration && e.radius == radius && e.damage == damage
    ensures e.progress == 0.0 && e.isActive
  {
    GameEffect(kind, at, None, duration, radius, damage, 0.0, true)
  }

  const Origin := Position(0.0, 0.0)

  /** `createBomb`'s effect: one second, radius 100, damage 100, at the origin. */
  const BombBlast: GameEffect := Started(BombEffect, Origin, 1000.0, 100.0, 100.0)

  /** `createShield`'s effect: five seconds, no radius, no damage. */
  const ShieldDome: GameEffect := Started(ShieldEffect, Origin, 5000.0, 0.0, 0.0)

  /** The two random draws (each in [0, 1)) that shape one particle. */
  datatype ParticleDraw = ParticleDraw(forDuration: real, forRadius: real)

  /** One particle of `createParticles`: 1 to 2 seconds long, radius 2 to 5, harmless. */
  function NewParticle(at: Position, d: ParticleDraw): (e: GameEffect)
    ensures e.kind == ParticleEffect && e.position == at && e.damage == 0.0
    ensures e.progress == 0.0 && e.isActive
    ensures 0.0 <= d.forDuration < 1.0 ==> 1000.0 <= e.duration < 2000.0
    ensures 0.0 <= d.forRadius < 1.0 ==> 2.0 <= e.radius < 5.0
  {
    Started(ParticleEffect, at, 1000.0 + d.forDuration * 1000.0, 2.0 + d.forRadius * 3.0, 0.0)
  }

  /** The particles of `createParticles`, one per draw, in order. */
  function Particles(at: Position, draws: seq<ParticleDraw>): (r: seq<GameEffect>)
    ensures |r| == |draws|
    ensures forall i :: 0 <= i < |r| ==> r[i] == NewParticle(at, draws[i])
  {
    if draws == [] then []
    else Particles(at, draws[..|draws| - 1]) + [NewParticle(at, draws[|draws| - 1])]
  }

  /** A particle list holds harmless, freshly started particles at one point. */
  lemma ParticlesHarmless(at: Position, draws: seq<ParticleDraw>)
    ensures forall e :: e in Particles(at, draws) ==>
      e.kind == ParticleEffect && e.position == at && e.damage == 0.0 && e.progress == 0.0 && e.isActive
  {
    var r := Particles(at, draws);
    forall e | e in r
      ensures e.kind == ParticleEffect && e.position == at && e.damage == 0.0 && e.progress == 0.0 && e.isActive
    {
      var i :| 0 <= i < |r| && r[i] == e;
      assert r[i] == NewParticle(at, draws[i]);
    }
  }

  // ---------------------------------------------------------------------
  // The tick

  /**
   * One effect after `update`'s visit: an inactive effect is left alone; an
   * active one advances by `dt` and stays active exactly while its progress
   * is short of its duration.
   */
  function Advance(e: GameEffect, dt: real): (r: GameEffect)
    ensures !e.isActive ==> r == e
    ensures e.isActive ==> r.progress == e.progress + dt && (r.isActive <==> e.progress + dt < e.duration)
    ensures r.(progress := e.progress, isActive := e.isActive) == e
  {
    if !e.isActive then e
    else
      var p := e.progress + dt;
      e.(progress := p, isActive := !(p >= e.duration))
  }

  /** Every effect advanced, in order. */
  function AdvanceAll(s: seq<GameEffect>, dt: real): (r: seq<GameEffect>)
    ensures |r| == |s|
    ensures forall i :: 0 <= i < |s| ==> r[i] == Advance(s[i], dt)
  {
    if s == [] then []
    else AdvanceAll(s[..|s| - 1], dt) + [Advance(s[|s| - 1], dt)]
  }

  /** The active effects, in order (`getActiveEffects`, and the filter that ends `update`). */
  function Active(s: seq<GameEffect>): (r: seq<GameEffect>)
    ensures |r| <= |s|
    ensures forall e :: e in r <==> e in s && e.isActive
  {
    if s == [] then []
    else
      var rest := Active(s[..|s| - 1]);
      var e := s[|s| - 1];
      assert s == s[..|s| - 1] + [e];
      if e.isActive then rest + [e] else rest
  }

  /** The filter keeps order: the active part of a concatenation is the concatenation of the active parts. */
  lemma {:induction false} ActiveAppend(a: seq<GameEffect>, b: seq<GameEffect>)
    ensures Active(a + b) == Active(a) + Active(b)
  {
    if b == [] {
      assert a + b == a;
    } else {
      assert (a + b)[..|a + b| - 1] == a + b[..|b| - 1];
      ActiveAppend(a, b[..|b| - 1]);
    }
  }

  /** On a list of active effects the filter changes nothing. */
  lemma {:induction false} ActiveOfActive(s: seq<GameEffect>)
    requires forall e :: e in s ==> e.isActive
    ensures Active(s) == s
  {
    if s != [] {
      assert s == s[..|s| - 1] + [s[|s| - 1]];
      ActiveOfActive(s[..|s| - 1]);
    }
  }

  /**
   * What survives a tick: exactly the advanced versions of the effects that
   * were active and whose progress plus `dt` is still short of their duration.
   */
  lemma UpdateExact(s: seq<GameEffect>, dt: real)
    ensures forall x :: x in Active(AdvanceAll(s, dt)) <==>
      exists i :: 0 <= i < |s| && s[i].isActive && s[i].progress + dt < s[i].duration && x == Advance(s[i], dt)
  {
    var r := AdvanceAll(s, dt);
    forall x
      ensures x in Active(r) <==>
        exists i :: 0 <= i < |s| && s[i].isActive && s[i].progress + dt < s[i].duration && x == Advance(s[i], dt)
    {
      if x in Active(r) {
        var i :| 0 <= i < |r| && r[i] == x;
        assert x == Advance(s[i], dt);
      }
      if exists i :: 0 <= i < |s| && s[i].isActive && s[i].progress + dt < s[i].duration && x == Advance(s[i], dt) {
        var i :| 0 <= i < |s| && s[i].isActive && s[i].progress + dt < s[i].duration && x == Advance(s[i], dt);
        assert r[i] == x;
      }
    }
  }

  /** One more effect of the advancing walk. */
  lemma AdvanceStep(s: seq<GameEffect>, i: nat, dt: real)
    requires i < |s|
    ensures AdvanceAll(s[..i + 1], dt) == AdvanceAll(s[..i], dt) + [Advance(s[i], dt)]
  {
    assert s[..i + 1][..i] == s[..i];
  }

  // ---------------------------------------------------------------------
  // Area queries

  /** The active effects within `radius` of `p`, in order (`getEffectsAt`). */
  function EffectsAt(s: seq<GameEffect>, p: Position, radius: real): (r: seq<GameEffect>)
    ensures forall e :: e in r <==> e in s && e.isActive && Within(e.position, p, radius)
  {
    if s == [] then []
    else
      var rest := EffectsAt(s[..|s| - 1], p, radius);
      var e := s[|s| - 1];
      assert s == s[..|s| - 1] + [e];
      if e.isActive && Within(e.position, p, radius) then rest + [e] else rest
  }

  /**
   * `getEffectsAt` is an order-keeping `filter`: the effects found in a
   * concatenation are those of each part in turn, and a single effect is
   * found exactly when it is active and within reach.
   */
  lemma {:induction false} EffectsAtAppend(a: seq<GameEffect>, b: seq<GameEffect>, p: Position, radius: real)
    ensures EffectsAt(a + b, p, radius) == EffectsAt(a, p, radius) + EffectsAt(b, p, radius)
    ensures |b| == 1 ==> EffectsAt(b, p, radius) == if b[0].isActive && Within(b[0].position, p, radius) then b else []
    decreases |b|
  {
    if b == [] {
      assert a + b == a;
    } else {
      var front := b[..|b| - 1];
      assert (a + b)[..|a + b| - 1] == a + front;
      EffectsAtAppend(a, front, p, radius);
      if |b| == 1 {
        assert front == [];
      }
    }
  }

  /** Whether `e` is an active explosion within `radius` of `p`. */
  predicate Blasts(e: GameEffect, p: Position, radius: real)
  {
    e.isActive && e.kind == ExplosionEffect && Within(e.position, p, radius)
  }

  /** Total damage of the explosions that reach `p` (`getExplosionDamage`). */
  function ExplosionDamage(s: seq<GameEffect>, p: Position, radius: real): real
  {
    if s == [] then 0.0
    else
      var e := s[|s| - 1];
      ExplosionDamage(s[..|s| - 1], p, radius) + (if Blasts(e, p, radius) then e.damage else 0.0)
  }

  /** The damage of a list is the damage of its parts. */
  lemma {:induction false} ExplosionDamageAppend(a: seq<GameEffect>, b: seq<GameEffect>, p: Position, radius: real)
    ensures ExplosionDamage(a + b, p, radius) == ExplosionDamage(a, p, radius) + ExplosionDamage(b, p, radius)
  {
    if b == [] {
      assert a + b == a;
    } else {
      assert (a + b)[..|a + b| - 1] == a + b[..|b| - 1];
      ExplosionDamageAppend(a, b[..|b| - 1], p, radius);
    }
  }

  /** An effect that is not an active explosion in reach adds nothing: bombs, in particular, deal no damage here. */
  lemma NonBlastHarmless(s: seq<GameEffect>, e: GameEffect, p: Position, radius: real)
    requires !Blasts(e, p, radius)
    ensures ExplosionDamage(s + [e], p, radius) == ExplosionDamage(s, p, radius)
  {
    assert (s + [e])[..|s|] == s;
  }

  /** With no active explosion in reach, the damage is zero, whatever else is in the list. */
  lemma {:induction false} NoBlastNoDamage(s: seq<GameEffect>, p: Position, radius: real)
    requires forall e :: e in s ==> !Blasts(e, p, radius)
    ensures ExplosionDamage(s, p, radius) == 0.0
  {
    if s != [] {
      assert s == s[..|s| - 1] + [s[|s| - 1]];
      NoBlastNoDamage(s[..|s| - 1], p, radius);
    }
  }

  /** With non-negative damages the total is non-negative. */
  lemma {:induction false} ExplosionDamageNonNegative(s: seq<GameEffect>, p: Position, radius: real)
    requires forall e :: e in s ==> e.damage >= 0.0
    ensures ExplosionDamage(s, p, radius) >= 0.0
  {
    if s != [] {
      assert s == s[..|s| - 1] + [s[|s| - 1]];
      ExplosionDamageNonNegative(s[..|s| - 1], p, radius);
    }
  }

  // ---------------------------------------------------------------------

  /** The list of running effects. */
  class EffectManager {
    var effects: seq<GameEffect>

    /** Between calls every effect in the list is active. */
    ghost predicate Valid()
      reads this
    {
      forall e :: e in effects ==> e.isActive
    }

    constructor ()
      ensures effects == [] && Valid()
    {
      effects := [];
    }

    /** `createBomb`. */
    method CreateBomb()
      modifies this
      ensures effects == old(effects) + [BombBlast]
      ensures old(Valid()) ==> Valid()
    {
      effects := effects + [BombBlast];
    }

    /** `createShield`. */
    method CreateShield()
      modifies this
      ensures effects == old(effects) + [ShieldDome]
      ensures old(Valid()) ==> Valid()
    {
      effects := effects + [ShieldDome];
    }

    /** `createExplosion`: half a second at `at`. */
    method CreateExplosion(at: Position, radius: real, damage: real)
      modifies this
      ensures effects == old(effects) + [Started(ExplosionEffect, at, 500.0, radius, damage)]
      ensures old(Valid()) ==> Valid()
    {
      effects := effects + [Started(ExplosionEffect, at, 500.0, radius, damage)];
    }

    /** `createParticles`: `count` particles at `at`, shaped by one draw each. */
    method CreateParticles(at: Position, count: nat, draws: seq<ParticleDraw>)
      requires |draws| == count
      modifies this
      ensures effects == old(effects) + Particles(at, draws)
      ensures |effects| == |old(effects)| + count
      ensures old(Valid()) ==> Valid()
    {
      for i := 0 to count
        invariant effects == old(effects) + Particles(at, draws[..i])
      {
        assert draws[..i + 1][..i] == draws[..i];
        effects := effects + [NewParticle(at, draws[i])];
      }
      assert draws[..count] == draws;
      ParticlesHarmless(at, draws);
    }

    /** `createLightning`: a fifth of a second from `from` to `to`. */
    method CreateLightning(from: Position, to: Position)
      modifies this
      ensures effects == old(effects) + [Started(LightningEffect, from, 200.0, 0.0, 0.0).(targetPosition := Some(to))]
      ensures old(Valid()) ==> Valid()
    {
      effects := effects + [Started(LightningEffect, from, 200.0, 0.0, 0.0).(targetPosition := Some(to))];
    }

    /** `createFire`: two seconds, radius 30. */
    method CreateFire(at: Position)
      modifies this
      ensures effects == old(effects) + [Started(FireEffect, at, 2000.0, 30.0, 0.0)]
      ensures old(Valid()) ==> Valid()
    {
      effects := effects + [Started(FireEffect, at, 2000.0, 30.0, 0.0)];
    }

    /** `createIce`: one and a half seconds, radius 40. */
    method CreateIce(at: Position)
      modifies this
      ensures effects == old(effects) + [Started(IceEffect, at, 1500.0, 40.0, 0.0)]
      ensures old(Valid()) ==> Valid()
    {
      effects := effects + [Started(IceEffect, at, 1500.0, 40.0, 0.0)];
    }

    /**
     * `update`: advance every effect in place, then keep only the active
     * ones, in order.
     */
    method Update(dt: real)
      modifies this
      ensures effects == Active(AdvanceAll(old(effects), dt))
      ensures Valid()
    {
      ghost var orig := effects;
      for i := 0 to |effects|
        invariant |effects| == |orig|
        invariant effects == AdvanceAll(orig[..i], dt) + orig[i..]
      {
        AdvanceStep(orig, i, dt);
        ConsumeOne(AdvanceAll(orig[..i], dt), orig, i);
        ReplaceOne(AdvanceAll(orig[..i], dt), Advance(orig[i], dt), orig, i);
        effects := effects[i := Advance(effects[i], dt)];
      }
      assert orig[..|orig|] == orig;
      assert effects == AdvanceAll(orig, dt);
      effects := Active(effects);
    }

    /** `getEffectsAt`. */
    function GetEffectsAt(p: Position, radius: real): seq<GameEffect>
      reads this
    {
      EffectsAt(effects, p, radius)
    }

    /** `getExplosionDamage`. */
    function GetExplosionDamage(p: Position, radius: real): real
      reads this
    {
      ExplosionDamage(effects, p, radius)
    }

    /** `getActiveEffects`. */
    function GetActiveEffects(): seq<GameEffect>
      reads this
    {
      Active(effects)
    }

    /** `clear`. */
    method Clear()
      modifies this
      ensures effects == [] && Valid()
    {
      effects := [];
    }
  }

  /** Between calls `getActiveEffects` returns the whole list. */
  lemma ActiveEffectsAll(m: EffectManager)
    requires m.Valid()
    ensures m.GetActiveEffects() == m.effects
  {
    ActiveOfActive(m.effects);
  }
}
