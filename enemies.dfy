/**
 * Enemies: creation, movement along the looping path, status effects
 * (damage over time, slowing), per-type abilities, damage with the shield
 * reduction, and the manager that holds the enemy list.
 *
 * Each per-enemy step of the game is a function on `Enemy` values; the
 * manager's `update`, which walks its own list and appends split-off
 * children while it walks, is a method with a loop specified by
 * `UpdatePass`.
 */
module Enemies {
  import opened GameTypes
  import opened GameConfig

  /** A fresh enemy of type `kind` at `at`, with the configured stats. */
  function NewEnemy(id: nat, kind: EnemyType, at: Position): (e: Enemy)
    ensures e.id == id && e.kind == kind && e.position == at
    ensures e.maxHealth == EnemyStats(kind).maxHealth && e.currentHealth == e.maxHealth
    ensures e.speed == EnemyStats(kind).speed && e.reward == EnemyStats(kind).reward
    ensures e.effects == [] && e.pathIndex == 0 && !e.isDead
  {
    var c := EnemyStats(kind);
    Enemy(id, kind, at, c.maxHealth, c.maxHealth, c.speed, c.reward, c.size, [], 0, false)
  }

  /** Index of the first enemy with identifier `id`. */
  function FindEnemy(es: seq<Enemy>, id: nat): (r: Option<nat>)
    ensures r.Some? ==> r.value < |es| && es[r.value].id == id
    ensures r.Some? ==> forall j :: 0 <= j < r.value ==> es[j].id != id
    ensures r.None? ==> forall j :: 0 <= j < |es| ==> es[j].id != id
  {
    if es == [] then None
    else if es[0].id == id then Some(0)
    else match FindEnemy(es[1..], id)
      case None => None
      case Some(k) => Some(k + 1)
  }

  /** JavaScript truthiness of an optional number: present and non-zero. */
  predicate Truthy(o: Option<real>)
  {
    o.Some? && o.value != 0.0
  }

  predicate HasKind(effects: seq<StatusEffect>, kind: StatusType)
  {
    exists i :: 0 <= i < |effects| && effects[i].kind == kind
  }

  /** Index of the first effect of kind `kind`. */
  function FindKind(effects: seq<StatusEffect>, kind: StatusType): (r: Option<nat>)
    ensures r.Some? ==> r.value < |effects| && effects[r.value].kind == kind
    ensures r.Some? ==> forall j :: 0 <= j < r.value ==> effects[j].kind != kind
    ensures r.None? <==> !HasKind(effects, kind)
  {
    if effects == [] then None
    else if effects[0].kind == kind then Some(0)
    else match FindKind(effects[1..], kind)
      case None =>
        assert forall i :: 1 <= i < |effects| ==> effects[i] == effects[1..][i - 1];
        None
      case Some(k) => Some(k + 1)
  }

  /** At most one effect of each kind. */
  predicate OnePerKind(effects: seq<StatusEffect>)
  {
    forall i, j :: 0 <= i < j < |effects| ==> effects[i].kind != effects[j].kind
  }

  /** No effect heals: every damage-over-time rate is non-negative. */
  predicate NoHealing(effects: seq<StatusEffect>)
  {
    forall i :: 0 <= i < |effects| ==> (effects[i].damage.Some? ==> effects[i].damage.value >= 0.0)
  }

  /** The damage that gets through: halved while a shield effect is present. */
  function Dealt(effects: seq<StatusEffect>, amount: real): (d: real)
    ensures HasKind(effects, StatusType.Shield) ==> d == amount / 2.0
    ensures !HasKind(effects, StatusType.Shield) ==> d == amount
  {
    if FindKind(effects, StatusType.Shield).Some? then amount * 0.5 else amount
  }

  /**
   * `damageEnemy` on an enemy: a dead enemy is left alone and reports false;
   * otherwise health drops by the (shield-halved) amount, and the enemy dies,
   * reporting true, when its health reaches zero.
   */
  function Damage(e: Enemy, amount: real): (r: (Enemy, bool))
    ensures e.isDead ==> r == (e, false)
    ensures !e.isDead ==> r.0.currentHealth == e.currentHealth - Dealt(e.effects, amount)
    ensures !e.isDead ==> (r.0.isDead <==> r.0.currentHealth <= 0.0)
    ensures r.1 <==> !e.isDead && r.0.isDead
    ensures r.0.(currentHealth := e.currentHealth, isDead := e.isDead) == e
  {
    if e.isDead then (e, false)
    else
      var h := e.currentHealth - Dealt(e.effects, amount);
      (e.(currentHealth := h, isDead := h <= 0.0), h <= 0.0)
  }

  /** An effect deals damage in a tick when it outlasts the tick and its damage is truthy. */
  predicate Deals(f: StatusEffect, dt: real)
  {
    f.duration - dt > 0.0 && Truthy(f.damage)
  }

  /** The damage an effect deals in a tick of `dt` milliseconds (its damage is per second). */
  function DotAmount(f: StatusEffect, dt: real): (a: real)
    requires f.damage.Some?
    ensures f.damage.value >= 0.0 && dt >= 0.0 ==> a >= 0.0
  {
    f.damage.value * dt / 1000.0
  }

  /** Damage of `effects` that deal damage in a tick of `dt`, summed. */
  function DotTotal(effects: seq<StatusEffect>, dt: real): real
  {
    if effects == [] then 0.0
    else (if Deals(effects[0], dt) then DotAmount(effects[0], dt) else 0.0) + DotTotal(effects[1..], dt)
  }

  /**
   * The damage-over-time half of `updateEnemyEffects`: each effect of
   * `pending`, in order, that survives the tick and has a truthy damage
   * deals `damage * dt / 1000`. The shield test keeps reading `e.effects`,
   * the list as it was before the tick.
   */
  function DotPass(e: Enemy, pending: seq<StatusEffect>, dt: real): (r: Enemy)
    ensures r.(currentHealth := e.currentHealth, isDead := e.isDead) == e
    ensures e.isDead ==> r == e
    decreases |pending|
  {
    if pending == [] then e
    else
      var e1 := if Deals(pending[0], dt) then Damage(e, DotAmount(pending[0], dt)).0 else e;
      DotPass(e1, pending[1..], dt)
  }

  /** An effect after `dt` more milliseconds have run off it. */
  function Shorten(f: StatusEffect, dt: real): StatusEffect
  {
    f.(duration := f.duration - dt)
  }

  /** The filter half of `updateEnemyEffects`: durations shortened by `dt`, expired ones dropped. */
  function Survivors(effects: seq<StatusEffect>, dt: real): (r: seq<StatusEffect>)
    ensures |r| <= |effects|
  {
    if effects == [] then []
    else if effects[0].duration - dt <= 0.0 then Survivors(effects[1..], dt)
    else [Shorten(effects[0], dt)] + Survivors(effects[1..], dt)
  }

  /**
   * The survivors are exactly the shortened effects whose remaining
   * duration is positive: `f` survives iff it is some effect of the list
   * shortened by `dt`, with time left.
   */
  lemma {:induction false} SurvivorsExact(effects: seq<StatusEffect>, dt: real)
    ensures forall f :: f in Survivors(effects, dt) <==> f.duration > 0.0 && Shorten(f, -dt) in effects
  {
    if effects != [] {
      var g := effects[0];
      var tail := effects[1..];
      SurvivorsExact(tail, dt);
      assert effects == [g] + tail;
      assert Shorten(Shorten(g, dt), -dt) == g;
      forall f: StatusEffect | f.duration > 0.0 && Shorten(f, -dt) == g
        ensures f == Shorten(g, dt)
      {
        assert Shorten(Shorten(f, -dt), dt) == f;
      }
    }
  }

  /** `updateEnemyEffects`: damage over time, then the shortened effect list. */
  function TickEffects(e: Enemy, dt: real): (r: Enemy)
  {
    DotPass(e, e.effects, dt).(effects := Survivors(e.effects, dt))
  }

  /** The effect a shielded enemy raises on itself. */
  const ShieldAura: StatusEffect := StatusEffect(StatusType.Shield, 3000.0, Some(0.0), None)

  /**
   * `updateEnemySpecialAbilities` except splitting, which the manager does:
   * regeneration of 1% of maximum health per second up to the maximum, the
   * teleporter's jump (`jump` is the random offset drawn this tick, if the
   * random test fired) and the shielded enemy's self-shield below half health.
   */
  function Abilities(e: Enemy, dt: real, jump: Option<real>): (r: Enemy)
    ensures r.id == e.id && r.isDead == e.isDead && r.pathIndex == e.pathIndex
    ensures e.kind != Teleporter || jump.None? ==> r.position == e.position
    ensures e.kind == Teleporter && jump.Some? ==>
      r.position == Position(e.position.x + jump.value, e.position.y + jump.value)
    ensures e.kind == Regenerating && e.currentHealth < e.maxHealth && e.maxHealth >= 0.0 && dt >= 0.0 ==>
      e.currentHealth <= r.currentHealth <= e.maxHealth
    ensures e.kind != Regenerating ==> r.currentHealth == e.currentHealth
    ensures e.kind == Regenerating && e.currentHealth < e.maxHealth ==>
      r.currentHealth == Min(e.currentHealth + Regen(e, dt), e.maxHealth)
    ensures e.kind == Regenerating && e.currentHealth >= e.maxHealth ==> r.currentHealth == e.currentHealth
    ensures e.kind == Shielded && e.currentHealth < e.maxHealth * 0.5 ==> HasKind(r.effects, StatusType.Shield)
    ensures e.kind == Shielded ==> r.effects == if RaisesShield(e) then e.effects + [ShieldAura] else e.effects
    ensures e.kind != Shielded ==> r.effects == e.effects
    ensures r.(position := e.position, currentHealth := e.currentHealth, effects := e.effects) == e
  {
    match e.kind
    case Regenerating =>
      if e.currentHealth < e.maxHealth then
        assert e.maxHealth >= 0.0 && dt >= 0.0 ==> Regen(e, dt) >= 0.0;
        e.(currentHealth := Min(e.currentHealth + Regen(e, dt), e.maxHealth))
      else e
    case Teleporter =>
      if jump.Some? then
        e.(position := Position(e.position.x + jump.value, e.position.y + jump.value))
      else e
    case Shielded =>
      if RaisesShield(e) then
        assert (e.effects + [ShieldAura])[|e.effects|].kind == StatusType.Shield;
        e.(effects := e.effects + [ShieldAura])
      else e
    case _ => e
  }

  /** A shielded enemy below half health and without a shield raises one. */
  predicate RaisesShield(e: Enemy)
  {
    e.currentHealth < e.maxHealth * 0.5 && !HasKind(e.effects, StatusType.Shield)
  }

  /** Health a regenerating enemy recovers in `dt` milliseconds: 1% of its maximum per second. */
  function Regen(e: Enemy, dt: real): real
  {
    e.maxHealth * 0.01 * dt / 1000.0
  }

  /** The splitter test: health at or below zero on an enemy not marked dead. */
  predicate SplitGuard(e: Enemy)
  {
    e.kind == Splitter && e.currentHealth <= 0.0 && !e.isDead
  }

  /** The child `splitEnemy` adds: a small, fast basic enemy with half the parent's maximum health. */
  function SplitChild(parent: Enemy, id: nat): (c: Enemy)
    ensures c.kind == Basic && c.id == id && c.position == parent.position && !c.isDead
    ensures c.maxHealth == parent.maxHealth / 2.0 && c.currentHealth == c.maxHealth
    ensures c.speed == parent.speed * 1.5 && c.size == Size(15.0, 15.0)
  {
    NewEnemy(id, Basic, parent.position).(
      maxHealth := parent.maxHealth / 2.0,
      currentHealth := parent.maxHealth / 2.0,
      speed := parent.speed * 1.5,
      size := Size(15.0, 15.0))
  }

  /** Product of the truthy speed multipliers, the slowdown `updateEnemyMovement` applies. */
  function SpeedFactor(effects: seq<StatusEffect>): real
  {
    if effects == [] then 1.0
    else
      (if Truthy(effects[0].speedMultiplier) then effects[0].speedMultiplier.value else 1.0)
        * SpeedFactor(effects[1..])
  }

  /**
   * `updateEnemyMovement`: head for the path point after `pathIndex`
   * (cyclically), advance the index when closer than 5, and move
   * `speed * dt` toward that point.
   */
  function Move(e: Enemy, path: seq<Position>, dt: real, step: Stepper): (r: Enemy)
    requires |path| > 0
    ensures r.pathIndex == e.pathIndex || r.pathIndex == (e.pathIndex + 1) % |path|
    ensures e.pathIndex < |path| ==> r.pathIndex < |path|
    ensures r.pathIndex == (e.pathIndex + 1) % |path| <==>
      DistSq(NextPoint(path, e.pathIndex), e.position) < 25.0 || e.pathIndex == (e.pathIndex + 1) % |path|
    ensures r.position == step(e.position, NextPoint(path, e.pathIndex), Stride(e, dt))
    ensures r.(position := e.position, pathIndex := e.pathIndex) == e
  {
    var next := (e.pathIndex + 1) % |path|;
    var target := NextPoint(path, e.pathIndex);
    e.(pathIndex := if DistSq(target, e.position) < 25.0 then next else e.pathIndex,
       position := step(e.position, target, Stride(e, dt)))
  }

  /** How far an enemy moves in `dt`: its speed, slowed by its effects, times `dt`. */
  function Stride(e: Enemy, dt: real): real
  {
    e.speed * SpeedFactor(e.effects) * dt
  }

  /** The path point after `index`, wrapping from the last point to the first. */
  function NextPoint(path: seq<Position>, index: nat): Position
    requires |path| > 0
  {
    path[(index + 1) % |path|]
  }

  /** One tick of a live enemy: movement, then effects, then abilities. */
  function TickEnemy(e: Enemy, dt: real, path: seq<Position>, step: Stepper, jump: nat -> Option<real>): (r: Enemy)
    requires |path| > 0
    ensures r.id == e.id
  {
    Abilities(TickEffects(Move(e, path, dt, step), dt), dt, jump(e.id))
  }

  /** One tick of every live enemy, as one function value. */
  function Ticker(dt: real, path: seq<Position>, step: Stepper, jump: nat -> Option<real>): Enemy -> Enemy
    requires |path| > 0
  {
    e => TickEnemy(e, dt, path, step, jump)
  }

  /** What `update` makes of one enemy: its ticked self and the children it split into. */
  datatype Visit = Visit(enemy: Enemy, spawned: seq<Enemy>)

  /**
   * A dead enemy is skipped; a live one is ticked by `tick`, and a splitter
   * meeting `SplitGuard` afterwards splits into two children numbered from
   * `nextId`.
   */
  function VisitEnemy(e: Enemy, nextId: nat, tick: Enemy -> Enemy): (v: Visit)
    ensures e.isDead ==> v == Visit(e, [])
    ensures !e.isDead ==> v.enemy == tick(e)
    ensures v.spawned == [] || v.spawned == [SplitChild(v.enemy, nextId), SplitChild(v.enemy, nextId + 1)]
    ensures v.spawned != [] <==> !e.isDead && SplitGuard(tick(e))
  {
    if e.isDead then Visit(e, [])
    else
      var t := tick(e);
      if SplitGuard(t) then Visit(t, [SplitChild(t, nextId), SplitChild(t, nextId + 1)])
      else Visit(t, [])
  }

  /** The state of `update`'s walk: enemies visited so far, children queued, the id counter. */
  datatype PassResult = PassResult(ticked: seq<Enemy>, spawned: seq<Enemy>, nextId: nat)

  /** The walk after visiting one more enemy. */
  function Visited(acc: PassResult, e: Enemy, tick: Enemy -> Enemy): (r: PassResult)
  {
    var v := VisitEnemy(e, acc.nextId, tick);
    PassResult(acc.ticked + [v.enemy], acc.spawned + v.spawned, acc.nextId + |v.spawned|)
  }

  /** The walk continued over `es` from index `i`, from state `acc`. */
  function WalkFrom(es: seq<Enemy>, i: nat, acc: PassResult, tick: Enemy -> Enemy): PassResult
    decreases |es| - i
  {
    if i >= |es| then acc
    else WalkFrom(es, i + 1, Visited(acc, es[i], tick), tick)
  }

  /**
   * `update`'s walk over `es` (the enemies present when it starts): every
   * enemy is visited in order, children being numbered from the counter and
   * queued after the enemies present at the start.
   */
  function UpdatePass(es: seq<Enemy>, nextId: nat, tick: Enemy -> Enemy): PassResult
  {
    WalkFrom(es, 0, PassResult([], [], nextId), tick)
  }

  /** The enemies not marked dead, in order (`getEnemies`). */
  function Live(es: seq<Enemy>): (r: seq<Enemy>)
    ensures |r| <= |es|
    ensures forall e :: e in r <==> e in es && !e.isDead
  {
    if es == [] then []
    else
      var rest := Live(es[..|es| - 1]);
      assert es == es[..|es| - 1] + [es[|es| - 1]];
      if es[|es| - 1].isDead then rest else rest + [es[|es| - 1]]
  }

  /**
   * `getEnemies` is an order-keeping `filter`: the live enemies of a
   * concatenation are those of each part in turn, and a single enemy is
   * kept exactly when it is alive.
   */
  lemma {:induction false} LiveAppend(a: seq<Enemy>, b: seq<Enemy>)
    ensures Live(a + b) == Live(a) + Live(b)
    ensures |b| == 1 ==> Live(b) == if b[0].isDead then [] else b
    decreases |b|
  {
    if b == [] {
      assert a + b == a;
    } else {
      var front, x := b[..|b| - 1], b[|b| - 1];
      var tail := if x.isDead then [] else [x];
      assert (a + b)[..|a + b| - 1] == a + front;
      assert Live(a + b) == Live(a + front) + tail;
      assert Live(b) == Live(front) + tail;
      LiveAppend(a, front);
      if |b| == 1 {
        assert front == [];
      }
    }
  }

  /** Sum of the rewards of the enemies marked dead (`getTotalReward`). */
  function TotalReward(es: seq<Enemy>): real
  {
    if es == [] then 0.0
    else TotalReward(es[..|es| - 1]) + (if es[|es| - 1].isDead then es[|es| - 1].reward else 0.0)
  }

  /** `applyEffect`'s rule: an effect replaces the first one of its kind, else is appended. */
  function Upsert(effects: seq<StatusEffect>, eff: StatusEffect): (r: seq<StatusEffect>)
    ensures eff in r
    ensures |r| == if HasKind(effects, eff.kind) then |effects| else |effects| + 1
    ensures forall i :: 0 <= i < |effects| && effects[i].kind != eff.kind ==> r[i] == effects[i]
    ensures OnePerKind(effects) ==> OnePerKind(r)
  {
    match FindKind(effects, eff.kind)
    case Some(k) =>
      assert effects[k := eff][k] == eff;
      effects[k := eff]
    case None =>
      assert (effects + [eff])[|effects|] == eff;
      effects + [eff]
  }

  /** `damageEnemy` by identifier: a missing enemy reports false and changes nothing. */
  function DamageById(es: seq<Enemy>, id: nat, amount: real): (r: (seq<Enemy>, bool))
    ensures |r.0| == |es|
    ensures FindEnemy(es, id).None? ==> r == (es, false)
    ensures FindEnemy(es, id).Some? ==>
      var k := FindEnemy(es, id).value;
      r.0 == es[k := Damage(es[k], amount).0] && r.1 == Damage(es[k], amount).1
  {
    match FindEnemy(es, id)
    case None => (es, false)
    case Some(k) =>
      var d := Damage(es[k], amount);
      (es[k := d.0], d.1)
  }

  /** `applyEffect` by identifier: only a present, live enemy receives the effect. */
  function ApplyById(es: seq<Enemy>, id: nat, eff: StatusEffect): (r: seq<Enemy>)
    ensures |r| == |es|
    ensures forall i :: 0 <= i < |es| && es[i].id != id ==> r[i] == es[i]
    ensures forall i :: 0 <= i < |es| && es[i].isDead ==> r[i] == es[i]
    ensures forall i :: 0 <= i < |es| ==> r[i].(effects := es[i].effects) == es[i]
    ensures FindEnemy(es, id).Some? && !es[FindEnemy(es, id).value].isDead ==>
      var k := FindEnemy(es, id).value;
      r == es[k := es[k].(effects := Upsert(es[k].effects, eff))]
    ensures FindEnemy(es, id).None? || es[FindEnemy(es, id).value].isDead ==> r == es
  {
    match FindEnemy(es, id)
    case None => es
    case Some(k) =>
      if es[k].isDead then es else es[k := es[k].(effects := Upsert(es[k].effects, eff))]
  }

  /** Everything but the enemies with identifier `id` (`removeEnemy`). */
  function WithoutId(es: seq<Enemy>, id: nat): (r: seq<Enemy>)
    ensures forall e :: e in r <==> e in es && e.id != id
  {
    if es == [] then []
    else
      var rest := WithoutId(es[..|es| - 1], id);
      assert es == es[..|es| - 1] + [es[|es| - 1]];
      if es[|es| - 1].id == id then rest else rest + [es[|es| - 1]]
  }

  /** `removeEnemy` is an order-keeping `filter`, part by part; a single enemy stays exactly when its identifier differs. */
  lemma {:induction false} WithoutIdAppend(a: seq<Enemy>, b: seq<Enemy>, id: nat)
    ensures WithoutId(a + b, id) == WithoutId(a, id) + WithoutId(b, id)
    ensures |b| == 1 ==> WithoutId(b, id) == if b[0].id == id then [] else b
    decreases |b|
  {
    if b == [] {
      assert a + b == a;
    } else {
      var front := b[..|b| - 1];
      assert (a + b)[..|a + b| - 1] == a + front;
      WithoutIdAppend(a, front, id);
      if |b| == 1 {
        assert front == [];
      }
    }
  }

  /** The first live enemy within `radius` of `p` (`getEnemyAt`). */
  function EnemyAt(es: seq<Enemy>, p: Position, radius: real): (r: Option<Enemy>)
    ensures r.Some? ==> r.value in es && !r.value.isDead && Within(r.value.position, p, radius)
    ensures r.None? ==> forall e :: e in es && !e.isDead ==> !Within(e.position, p, radius)
  {
    if es == [] then None
    else if !es[0].isDead && Within(es[0].position, p, radius) then Some(es[0])
    else
      assert es == [es[0]] + es[1..];
      EnemyAt(es[1..], p, radius)
  }

  /** The live enemies within `radius` of `center`, in order (`getEnemiesInRange`). */
  function InRange(es: seq<Enemy>, center: Position, radius: real): (r: seq<Enemy>)
    ensures forall e :: e in r <==> e in es && !e.isDead && Within(e.position, center, radius)
  {
    if es == [] then []
    else
      var rest := InRange(es[..|es| - 1], center, radius);
      var e := es[|es| - 1];
      assert es == es[..|es| - 1] + [e];
      if !e.isDead && Within(e.position, center, radius) then rest + [e] else rest
  }

  /** `getEnemiesInRange` is an order-keeping `filter`, part by part; a single enemy is kept exactly when it is live and within reach. */
  lemma {:induction false} InRangeAppend(a: seq<Enemy>, b: seq<Enemy>, center: Position, radius: real)
    ensures InRange(a + b, center, radius) == InRange(a, center, radius) + InRange(b, center, radius)
    ensures |b| == 1 ==> InRange(b, center, radius) == if !b[0].isDead && Within(b[0].position, center, radius) then b else []
    decreases |b|
  {
    if b == [] {
      assert a + b == a;
    } else {
      var front := b[..|b| - 1];
      assert (a + b)[..|a + b| - 1] == a + front;
      InRangeAppend(a, front, center, radius);
      if |b| == 1 {
        assert front == [];
      }
    }
  }

  // ---------------------------------------------------------------------
  // Invariants and what the operations do to them

  /** The invariant of one enemy that every operation keeps. */
  predicate Sound(e: Enemy)
  {
    && e.maxHealth > 0.0
    && e.currentHealth <= e.maxHealth
    && (!e.isDead ==> e.currentHealth > 0.0)
    && OnePerKind(e.effects)
    && NoHealing(e.effects)
  }

  /** The manager's invariant: sound enemies, identifiers strictly increasing and below the counter. */
  predicate ValidSeq(es: seq<Enemy>, nextId: nat)
  {
    && (forall i :: 0 <= i < |es| ==> Sound(es[i]) && es[i].id < nextId)
    && (forall i, j :: 0 <= i < j < |es| ==> es[i].id < es[j].id)
  }

  lemma NewEnemySound(id: nat, kind: EnemyType, at: Position)
    ensures Sound(NewEnemy(id, kind, at))
  {
    assert NewEnemy(id, kind, at).effects == [];
  }

  /** Damage that is not negative keeps an enemy sound. */
  lemma DamageSound(e: Enemy, amount: real)
    requires Sound(e) && amount >= 0.0
    ensures Sound(Damage(e, amount).0)
    ensures Damage(e, amount).0.currentHealth <= e.currentHealth
  {
  }

  /** Damage over time keeps an enemy sound and never raises its health. */
  lemma {:induction false} DotPassSound(e: Enemy, pending: seq<StatusEffect>, dt: real)
    requires Sound(e) && NoHealing(pending) && dt >= 0.0
    decreases |pending|
    ensures Sound(DotPass(e, pending, dt))
    ensures DotPass(e, pending, dt).currentHealth <= e.currentHealth
  {
    if pending != [] {
      var f := pending[0];
      assert NoHealing(pending[1..]) by {
        forall i | 0 <= i < |pending[1..]| ensures pending[1..][i] == pending[i + 1] { }
      }
      if Deals(f, dt) {
        DamageSound(e, DotAmount(f, dt));
      }
      var e1 := if Deals(f, dt) then Damage(e, DotAmount(f, dt)).0 else e;
      DotPassSound(e1, pending[1..], dt);
    }
  }

  /**
   * Damage over time, when it does not kill, takes exactly the
   * shield-scaled sum of the surviving effects' damage; a live enemy
   * whose health is below that sum dies during the tick.
   */
  lemma {:induction false} DotPassOutcome(e: Enemy, pending: seq<StatusEffect>, dt: real)
    requires Sound(e) && NoHealing(pending) && dt >= 0.0
    decreases |pending|
    ensures !e.isDead && e.currentHealth - Dealt(e.effects, DotTotal(pending, dt)) > 0.0 ==>
      !DotPass(e, pending, dt).isDead &&
      DotPass(e, pending, dt).currentHealth == e.currentHealth - Dealt(e.effects, DotTotal(pending, dt))
    ensures !e.isDead && e.currentHealth - Dealt(e.effects, DotTotal(pending, dt)) <= 0.0 ==>
      DotPass(e, pending, dt).isDead
  {
    if pending != [] {
      var f := pending[0];
      assert NoHealing(pending[1..]) by {
        forall i | 0 <= i < |pending[1..]| ensures pending[1..][i] == pending[i + 1] { }
      }
      DotTotalNonNegative(pending[1..], dt);
      var e1 := if Deals(f, dt) then Damage(e, DotAmount(f, dt)).0 else e;
      var a := if Deals(f, dt) then DotAmount(f, dt) else 0.0;
      assert a >= 0.0;
      if Deals(f, dt) {
        DamageSound(e, a);
      }
      assert e1.effects == e.effects;
      DotPassOutcome(e1, pending[1..], dt);
      var rest := DotTotal(pending[1..], dt);
      assert DotTotal(pending, dt) == a + rest;
      assert Dealt(e.effects, a + rest) == Dealt(e.effects, a) + Dealt(e.effects, rest);
    }
  }

  lemma {:induction false} DotTotalNonNegative(pending: seq<StatusEffect>, dt: real)
    requires NoHealing(pending) && dt >= 0.0
    ensures DotTotal(pending, dt) >= 0.0
  {
    if pending != [] {
      assert NoHealing(pending[1..]) by {
        forall i | 0 <= i < |pending[1..]| ensures pending[1..][i] == pending[i + 1] { }
      }
      DotTotalNonNegative(pending[1..], dt);
    }
  }

  /** Dropping expired effects keeps at most one effect per kind and no healing effect. */
  lemma {:induction false} SurvivorsKeepKinds(effects: seq<StatusEffect>, dt: real)
    requires OnePerKind(effects) && NoHealing(effects)
    ensures OnePerKind(Survivors(effects, dt)) && NoHealing(Survivors(effects, dt))
  {
    var r := Survivors(effects, dt);
    SurvivorsExact(effects, dt);
    forall i | 0 <= i < |r| ensures r[i].damage.Some? ==> r[i].damage.value >= 0.0 {
      assert r[i] in r;
      var k :| 0 <= k < |effects| && effects[k] == Shorten(r[i], -dt);
    }
    if effects != [] {
      var tail := effects[1..];
      assert OnePerKind(tail) && NoHealing(tail) by {
        forall i | 0 <= i < |tail| ensures tail[i] == effects[i + 1] { }
      }
      SurvivorsKeepKinds(tail, dt);
      var rest := Survivors(tail, dt);
      if effects[0].duration - dt > 0.0 {
        SurvivorsExact(tail, dt);
        forall j | 0 <= j < |rest| ensures rest[j].kind != effects[0].kind {
          assert rest[j] in rest;
          var k :| 0 <= k < |tail| && tail[k] == Shorten(rest[j], -dt);
          assert effects[k + 1] == tail[k];
        }
        assert r == [Shorten(effects[0], dt)] + rest;
      }
    }
  }

  /** The effects step keeps a sound enemy sound and never raises its health. */
  lemma TickEffectsSound(e: Enemy, dt: real)
    requires Sound(e) && dt >= 0.0
    ensures Sound(TickEffects(e, dt)) && TickEffects(e, dt).currentHealth <= e.currentHealth
  {
    DotPassSound(e, e.effects, dt);
    SurvivorsKeepKinds(e.effects, dt);
  }

  /** The ability step keeps a sound enemy sound. */
  lemma AbilitiesSound(e: Enemy, dt: real, jump: Option<real>)
    requires Sound(e) && dt >= 0.0
    ensures Sound(Abilities(e, dt, jump))
  {
    var r := Abilities(e, dt, jump);
    if e.kind == Regenerating && e.currentHealth < e.maxHealth {
      assert Regen(e, dt) >= 0.0;
    }
    if e.kind == Shielded && e.currentHealth < e.maxHealth * 0.5 && !HasKind(e.effects, StatusType.Shield) {
      assert r.effects == e.effects + [ShieldAura];
      assert NoHealing(r.effects);
    }
  }

  /** A tick keeps a sound enemy sound, for any movement geometry and any teleport draw. */
  lemma TickSound(e: Enemy, dt: real, path: seq<Position>, step: Stepper, jump: nat -> Option<real>)
    requires Sound(e) && dt >= 0.0 && |path| > 0
    ensures Sound(TickEnemy(e, dt, path, step, jump))
  {
    var m := Move(e, path, dt, step);
    assert Sound(m);
    TickEffectsSound(m, dt);
    AbilitiesSound(TickEffects(m, dt), dt, jump(e.id));
  }

  /** The splitter branch of `update` never fires on a sound enemy: damage marks death the moment health reaches zero. */
  lemma SplitNeverFires(e: Enemy, dt: real, path: seq<Position>, step: Stepper, jump: nat -> Option<real>)
    requires Sound(e) && dt >= 0.0 && |path| > 0
    ensures !SplitGuard(TickEnemy(e, dt, path, step, jump))
  {
    TickSound(e, dt, path, step, jump);
  }

  /** Replacing an enemy by a sound one with the same identifier keeps a list valid. */
  lemma ReplaceValid(es: seq<Enemy>, nextId: nat, k: nat, x: Enemy)
    requires ValidSeq(es, nextId) && k < |es| && Sound(x) && x.id == es[k].id
    ensures ValidSeq(es[k := x], nextId)
  {
  }

  /** A tick that keeps enemies sound and keeps their identifiers. */
  ghost predicate KeepsSound(tick: Enemy -> Enemy)
  {
    forall e :: Sound(e) ==> Sound(tick(e)) && tick(e).id == e.id
  }

  /** Visiting a sound enemy with a tick that keeps enemies sound spawns nothing and yields a sound enemy with the same identifier. */
  lemma VisitSound(e: Enemy, nextId: nat, tick: Enemy -> Enemy)
    requires Sound(e) && KeepsSound(tick)
    ensures VisitEnemy(e, nextId, tick).spawned == []
    ensures Sound(VisitEnemy(e, nextId, tick).enemy) && VisitEnemy(e, nextId, tick).enemy.id == e.id
  {
  }

  /** Replacing one element of a valid list, written as a concatenation, by a sound enemy with its identifier keeps the list valid. */
  lemma SwapValid(front: seq<Enemy>, x: Enemy, y: Enemy, back: seq<Enemy>, nextId: nat)
    requires ValidSeq(front + [x] + back, nextId) && Sound(y) && y.id == x.id
    ensures ValidSeq(front + [y] + back, nextId)
  {
    var all := front + [x] + back;
    assert all[|front| := y] == front + [y] + back;
    ReplaceValid(all, nextId, |front|, y);
  }

  /** One visit of the walk over a valid list, with a tick that keeps enemies sound, spawns nothing and keeps the list valid. */
  lemma VisitValid(es: seq<Enemy>, i: nat, acc: PassResult, tick: Enemy -> Enemy)
    requires i < |es| && ValidSeq(acc.ticked + es[i..], acc.nextId) && acc.spawned == [] && KeepsSound(tick)
    ensures Visited(acc, es[i], tick).spawned == []
    ensures Visited(acc, es[i], tick).nextId == acc.nextId
    ensures ValidSeq(Visited(acc, es[i], tick).ticked + es[i + 1..], acc.nextId)
  {
    assert acc.ticked + es[i..] == acc.ticked + [es[i]] + es[i + 1..];
    assert Sound(es[i]) by {
      assert es[i] == (acc.ticked + es[i..])[|acc.ticked|];
    }
    var v := VisitEnemy(es[i], acc.nextId, tick);
    VisitSound(es[i], acc.nextId, tick);
    SwapValid(acc.ticked, es[i], v.enemy, es[i + 1..], acc.nextId);
  }

  /** On a valid list, with a tick that keeps enemies sound, the walk spawns nothing and keeps the list valid. */
  lemma {:induction false} WalkValid(es: seq<Enemy>, i: nat, acc: PassResult, tick: Enemy -> Enemy)
    requires i <= |es| && ValidSeq(acc.ticked + es[i..], acc.nextId) && acc.spawned == [] && KeepsSound(tick)
    ensures WalkFrom(es, i, acc, tick).spawned == []
    ensures WalkFrom(es, i, acc, tick).nextId == acc.nextId
    ensures ValidSeq(WalkFrom(es, i, acc, tick).ticked, acc.nextId)
    decreases |es| - i
  {
    if i == |es| {
      assert acc.ticked + es[i..] == acc.ticked;
    } else {
      VisitValid(es, i, acc, tick);
      WalkValid(es, i + 1, Visited(acc, es[i], tick), tick);
    }
  }

  /** The game's tick keeps enemies sound and keeps their identifiers, whenever time does not run backwards. */
  lemma TickerKeepsSound(dt: real, path: seq<Position>, step: Stepper, jump: nat -> Option<real>)
    requires dt >= 0.0 && |path| > 0
    ensures KeepsSound(Ticker(dt, path, step, jump))
  {
    forall e | Sound(e)
      ensures Sound(Ticker(dt, path, step, jump)(e)) && Ticker(dt, path, step, jump)(e).id == e.id
    {
      TickSound(e, dt, path, step, jump);
    }
  }

  /** Appending a sound enemy numbered above every listed one and below the counter keeps a list valid. */
  lemma AppendValid(es: seq<Enemy>, x: Enemy, nextId: nat)
    requires ValidSeq(es, nextId) && Sound(x) && x.id < nextId
    requires forall i :: 0 <= i < |es| ==> es[i].id < x.id
    ensures ValidSeq(es + [x], nextId)
  {
  }

  /** Removing the dead keeps a list valid. */
  lemma {:induction false} LiveValid(es: seq<Enemy>, nextId: nat)
    requires ValidSeq(es, nextId)
    ensures ValidSeq(Live(es), nextId)
  {
    if es != [] {
      var front := es[..|es| - 1];
      assert ValidSeq(front, nextId);
      LiveValid(front, nextId);
      var last := es[|es| - 1];
      if !last.isDead {
        var rest := Live(front);
        forall i | 0 <= i < |rest| ensures rest[i].id < last.id {
          assert rest[i] in front;
        }
        AppendValid(rest, last, nextId);
      }
    }
  }

  /** Removing the enemies with one identifier keeps a list valid. */
  lemma {:induction false} WithoutIdValid(es: seq<Enemy>, nextId: nat, id: nat)
    requires ValidSeq(es, nextId)
    ensures ValidSeq(WithoutId(es, id), nextId)
  {
    if es != [] {
      var front := es[..|es| - 1];
      assert ValidSeq(front, nextId);
      WithoutIdValid(front, nextId, id);
      var last := es[|es| - 1];
      if last.id != id {
        var rest := WithoutId(front, id);
        forall i | 0 <= i < |rest| ensures rest[i].id < last.id {
          assert rest[i] in front;
        }
        AppendValid(rest, last, nextId);
      }
    }
  }

  /** A split child numbered by the counter, of a parent with positive maximum health, keeps a list valid. */
  lemma SplitChildValid(es: seq<Enemy>, nextId: nat, parent: Enemy)
    requires ValidSeq(es, nextId) && parent.maxHealth > 0.0
    ensures ValidSeq(es + [SplitChild(parent, nextId)], nextId + 1)
  {
    assert SplitChild(parent, nextId).effects == [];
  }

  /** After the dead are removed nothing is left to reward. */
  lemma {:induction false} LiveUnrewarded(es: seq<Enemy>)
    ensures TotalReward(Live(es)) == 0.0
  {
    if es != [] {
      var front := es[..|es| - 1];
      LiveUnrewarded(front);
      var last := es[|es| - 1];
      if !last.isDead {
        var rest := Live(front);
        assert (rest + [last])[..|rest|] == rest;
      }
    }
  }

  /** Appending a fresh enemy numbered by the counter keeps a list valid. */
  lemma AddValid(es: seq<Enemy>, nextId: nat, kind: EnemyType, at: Position)
    requires ValidSeq(es, nextId)
    ensures ValidSeq(es + [NewEnemy(nextId, kind, at)], nextId + 1)
  {
    NewEnemySound(nextId, kind, at);
  }

  /** Non-negative damage by identifier keeps a list valid. */
  lemma DamageByIdValid(es: seq<Enemy>, nextId: nat, id: nat, amount: real)
    requires ValidSeq(es, nextId) && amount >= 0.0
    ensures ValidSeq(DamageById(es, id, amount).0, nextId)
  {
    if FindEnemy(es, id).Some? {
      DamageSound(es[FindEnemy(es, id).value], amount);
    }
  }

  /** Applying an effect that does not heal keeps a list valid. */
  lemma ApplyByIdValid(es: seq<Enemy>, nextId: nat, id: nat, eff: StatusEffect)
    requires ValidSeq(es, nextId) && (eff.damage.Some? ==> eff.damage.value >= 0.0)
    ensures ValidSeq(ApplyById(es, id, eff), nextId)
  {
    match FindEnemy(es, id)
    case None =>
    case Some(k) =>
      if !es[k].isDead {
        var u := Upsert(es[k].effects, eff);
        forall i | 0 <= i < |u| ensures u[i].damage.Some? ==> u[i].damage.value >= 0.0 {
          if i >= |es[k].effects| || u[i] != es[k].effects[i] {
            match FindKind(es[k].effects, eff.kind)
            case Some(j) => assert i == j;
            case None =>
          }
        }
      }
  }

  /** Applying two effects of one kind leaves only the second (replacement, not stacking). */
  lemma UpsertReplaces(effects: seq<StatusEffect>, a: StatusEffect, b: StatusEffect)
    requires a.kind == b.kind
    ensures Upsert(Upsert(effects, a), b) == Upsert(effects, b)
  {
    var u := Upsert(effects, a);
    match FindKind(effects, a.kind)
    case Some(k) =>
      assert FindKind(u, a.kind) == Some(k) by {
        assert forall j :: 0 <= j < k ==> u[j] == effects[j];
        FindKindAt(u, a.kind, k);
      }
    case None =>
      assert FindKind(u, a.kind) == Some(|effects|) by {
        assert forall j :: 0 <= j < |effects| ==> u[j] == effects[j];
        FindKindAt(u, a.kind, |effects|);
      }
  }

  lemma {:induction false} FindKindAt(effects: seq<StatusEffect>, kind: StatusType, k: nat)
    requires k < |effects| && effects[k].kind == kind
    requires forall j :: 0 <= j < k ==> effects[j].kind != kind
    ensures FindKind(effects, kind) == Some(k)
  {
    if k > 0 {
      FindKindAt(effects[1..], kind, k - 1);
    }
  }

  /** Slowing effects (multipliers within [0, 1]) never speed an enemy up. */
  lemma {:induction false} SpeedFactorBounded(effects: seq<StatusEffect>)
    requires forall i :: 0 <= i < |effects| && effects[i].speedMultiplier.Some? ==>
      0.0 <= effects[i].speedMultiplier.value <= 1.0
    ensures 0.0 <= SpeedFactor(effects) <= 1.0
  {
    if effects != [] {
      var tail := effects[1..];
      assert forall i :: 0 <= i < |tail| ==> tail[i] == effects[i + 1];
      SpeedFactorBounded(tail);
      var a := if Truthy(effects[0].speedMultiplier) then effects[0].speedMultiplier.value else 1.0;
      var b := SpeedFactor(tail);
      UnitProduct(a, b);
    }
  }

  lemma UnitProduct(a: real, b: real)
    requires 0.0 <= a <= 1.0 && 0.0 <= b <= 1.0
    ensures 0.0 <= a * b <= 1.0
  {
    MulNonNegative(a, b);
    MulNonNegative(1.0 - a, b);
  }

  lemma MulNonNegative(a: real, b: real)
    requires 0.0 <= a && 0.0 <= b
    ensures 0.0 <= a * b
  {
  }

  /** The reward of a list is the rewards of its parts. */
  lemma {:induction false} TotalRewardAppend(a: seq<Enemy>, b: seq<Enemy>)
    ensures TotalReward(a + b) == TotalReward(a) + TotalReward(b)
  {
    if b != [] {
      assert (a + b)[..|a + b| - 1] == a + b[..|b| - 1];
      TotalRewardAppend(a, b[..|b| - 1]);
    } else {
      assert a + b == a;
    }
  }

  // ---------------------------------------------------------------------

  /** The enemy list and the identifier counter of the game. */
  class EnemyManager {
    var enemies: seq<Enemy>
    var nextEnemyId: nat

    ghost predicate Valid()
      reads this
    {
      nextEnemyId >= 1 && ValidSeq(enemies, nextEnemyId)
    }

    constructor ()
      ensures enemies == [] && nextEnemyId == 1 && Valid()
    {
      enemies := [];
      nextEnemyId := 1;
    }

    /** `addEnemy`: append a fresh enemy numbered by the counter. */
    method AddEnemy(kind: EnemyType, at: Position) returns (e: Enemy)
      modifies this
      ensures e == NewEnemy(old(nextEnemyId), kind, at)
      ensures enemies == old(enemies) + [e] && nextEnemyId == old(nextEnemyId) + 1
      ensures old(Valid()) ==> Valid()
    {
      e := NewEnemy(nextEnemyId, kind, at);
      if Valid() {
        AddValid(enemies, nextEnemyId, kind, at);
      }
      enemies := enemies + [e];
      nextEnemyId := nextEnemyId + 1;
    }

    /** `removeEnemy`. */
    method RemoveEnemy(id: nat)
      modifies this
      ensures enemies == WithoutId(old(enemies), id) && nextEnemyId == old(nextEnemyId)
      ensures old(Valid()) ==> Valid()
    {
      if Valid() {
        WithoutIdValid(enemies, nextEnemyId, id);
      }
      enemies := WithoutId(enemies, id);
    }

    /** `getEnemies`: the live enemies. */
    function GetEnemies(): seq<Enemy>
      reads this
    {
      Live(enemies)
    }

    /** `getEnemyCount`. */
    function GetEnemyCount(): nat
      reads this
    {
      |Live(enemies)|
    }

    /** `getTotalReward`. */
    function GetTotalReward(): real
      reads this
    {
      TotalReward(enemies)
    }

    /** `splitEnemy`: two children of `parent`, numbered by the counter, appended. */
    method SplitEnemy(parent: Enemy)
      modifies this
      ensures enemies == old(enemies) + [SplitChild(parent, old(nextEnemyId)), SplitChild(parent, old(nextEnemyId) + 1)]
      ensures nextEnemyId == old(nextEnemyId) + 2
      ensures old(Valid()) && parent.maxHealth > 0.0 ==> Valid()
    {
      ghost var children := [SplitChild(parent, nextEnemyId), SplitChild(parent, nextEnemyId + 1)];
      for i := 0 to 2
        invariant nextEnemyId == old(nextEnemyId) + i
        invariant enemies == old(enemies) + children[..i]
        invariant old(Valid()) && parent.maxHealth > 0.0 ==> Valid()
      {
        assert children[..i + 1] == children[..i] + [children[i]];
        AddChild(parent);
      }
    }

    /** One child of a split: a fresh basic enemy, then given half the parent's health, more speed and a small size. */
    method AddChild(parent: Enemy)
      modifies this
      ensures enemies == old(enemies) + [SplitChild(parent, old(nextEnemyId))]
      ensures nextEnemyId == old(nextEnemyId) + 1
      ensures old(Valid()) && parent.maxHealth > 0.0 ==> Valid()
    {
      if Valid() && parent.maxHealth > 0.0 {
        SplitChildValid(enemies, nextEnemyId, parent);
      }
      var child := AddEnemy(Basic, parent.position);
      enemies := enemies[|enemies| - 1 := child.(
        maxHealth := parent.maxHealth / 2.0,
        currentHealth := parent.maxHealth / 2.0,
        speed := parent.speed * 1.5,
        size := Size(15.0, 15.0))];
    }

    /** The body of `update`'s walk for the enemy at index `i`: tick it, and split it if it qualifies. */
    method VisitAt(i: nat, tick: Enemy -> Enemy)
      requires i < |enemies|
      modifies this
      ensures var v := VisitEnemy(old(enemies[i]), old(nextEnemyId), tick);
        enemies == old(enemies)[i := v.enemy] + v.spawned && nextEnemyId == old(nextEnemyId) + |v.spawned|
    {
      var e := enemies[i];
      if !e.isDead {
        var t := tick(e);
        enemies := enemies[i := t];
        if SplitGuard(t) {
          SplitEnemy(t);
        } else {
          assert enemies + [] == enemies;
        }
      } else {
        assert enemies[i := e] + [] == enemies;
      }
    }

    /**
     * `update`: tick every enemy present at the start (children split off
     * during the walk are not ticked), then drop the dead.
     */
    method Update(dt: real, path: seq<Position>, step: Stepper, jump: nat -> Option<real>)
      requires |path| > 0
      modifies this
      ensures var p := UpdatePass(old(enemies), old(nextEnemyId), Ticker(dt, path, step, jump));
        enemies == Live(p.ticked + p.spawned) && nextEnemyId == p.nextId
      ensures old(Valid()) && dt >= 0.0 ==> Valid()
    {
      if Valid() && dt >= 0.0 {
        UpdateValid(enemies, nextEnemyId, dt, path, step, jump);
        ghost var p := UpdatePass(enemies, nextEnemyId, Ticker(dt, path, step, jump));
        assert p.ticked + p.spawned == p.ticked;
      }
      Walk(Ticker(dt, path, step, jump));
      enemies := Live(enemies);
    }

    /** The `forEach` of `update`: visit, with `tick`, every enemy present at the start, in order. */
    method Walk(tick: Enemy -> Enemy)
      modifies this
      ensures var p := UpdatePass(old(enemies), old(nextEnemyId), tick);
        enemies == p.ticked + p.spawned && nextEnemyId == p.nextId
    {
      ghost var orig := enemies;
      ghost var acc := PassResult([], [], nextEnemyId);
      var n := |enemies|;
      var i := 0;
      while i < n
        invariant 0 <= i <= n == |orig| && |acc.ticked| == i && acc.nextId == nextEnemyId
        invariant WalkFrom(orig, i, acc, tick) == UpdatePass(orig, old(nextEnemyId), tick)
        invariant enemies == acc.ticked + orig[i..] + acc.spawned
      {
        Window(acc.ticked, orig, acc.spawned, i);
        ghost var v := VisitEnemy(orig[i], nextEnemyId, tick);
        VisitAt(i, tick);
        WindowMoved(acc.ticked, v.enemy, orig, acc.spawned, v.spawned, i);
        acc := Visited(acc, orig[i], tick);
        i := i + 1;
      }
      assert orig[n..] == [];
    }

    /** `damageEnemy` by identifier; reports whether this blow killed the enemy. */
    method DamageEnemy(id: nat, amount: real) returns (killed: bool)
      modifies this
      ensures (enemies, killed) == DamageById(old(enemies), id, amount)
      ensures nextEnemyId == old(nextEnemyId)
      ensures old(Valid()) && amount >= 0.0 ==> Valid()
    {
      if Valid() && amount >= 0.0 {
        DamageByIdValid(enemies, nextEnemyId, id, amount);
      }
      var r := DamageById(enemies, id, amount);
      enemies := r.0;
      killed := r.1;
    }

    /** `applyEffect` by identifier. */
    method ApplyEffect(id: nat, eff: StatusEffect)
      modifies this
      ensures enemies == ApplyById(old(enemies), id, eff) && nextEnemyId == old(nextEnemyId)
      ensures old(Valid()) && (eff.damage.Some? ==> eff.damage.value >= 0.0) ==> Valid()
    {
      if Valid() && (eff.damage.Some? ==> eff.damage.value >= 0.0) {
        ApplyByIdValid(enemies, nextEnemyId, id, eff);
      }
      enemies := ApplyById(enemies, id, eff);
    }

    /** `clear`: no enemies, counter back to 1. */
    method Clear()
      modifies this
      ensures enemies == [] && nextEnemyId == 1 && Valid()
    {
      enemies := [];
      nextEnemyId := 1;
    }
  }

  /** `update` on a valid manager: nothing splits, no survivor is dead, and validity is kept. */
  lemma UpdateValid(es: seq<Enemy>, nextId: nat, dt: real, path: seq<Position>, step: Stepper,
                    jump: nat -> Option<real>)
    requires ValidSeq(es, nextId) && dt >= 0.0 && |path| > 0
    ensures var p := UpdatePass(es, nextId, Ticker(dt, path, step, jump));
      p.spawned == [] && p.nextId == nextId && ValidSeq(Live(p.ticked), nextId) &&
      (forall e :: e in Live(p.ticked) ==> !e.isDead) && TotalReward(Live(p.ticked)) == 0.0
  {
    var tick := Ticker(dt, path, step, jump);
    TickerKeepsSound(dt, path, step, jump);
    assert [] + es[0..] == es;
    WalkValid(es, 0, PassResult([], [], nextId), tick);
    LiveValid(UpdatePass(es, nextId, tick).ticked, nextId);
    LiveUnrewarded(UpdatePass(es, nextId, tick).ticked);
  }
}
