/**
 * Towers: the upgrade ladder applied to a tower, the cooldown gate,
 * nearest-enemy targeting, projectile creation, homing projectiles, and the
 * manager holding the towers and the projectiles in flight.
 *
 * Tower identifiers are naturals chosen by the caller (the game builds them
 * from the wall clock). The wall clock itself is the `now` parameter and the
 * normalised homing step is the `Stepper` parameter.
 */
module Towers {
  import opened GameTypes
  import opened GameConfig
  import opened Enemies

  /** Speed given to every projectile. */
  const ProjectileSpeed: real := 800.0

  /** Index of the first tower with identifier `id`. */
  function FindTower(ts: seq<Tower>, id: nat): (r: Option<nat>)
    ensures r.Some? ==> r.value < |ts| && ts[r.value].id == id
    ensures r.Some? ==> forall j :: 0 <= j < r.value ==> ts[j].id != id
    ensures r.None? ==> forall j :: 0 <= j < |ts| ==> ts[j].id != id
  {
    if ts == [] then None
    else if ts[0].id == id then Some(0)
    else match FindTower(ts[1..], id)
      case None => None
      case Some(k) => Some(k + 1)
  }

  /** `getTowerAt`'s test: closer than 20 on both axes. */
  predicate Covers(t: Tower, p: Position)
  {
    Abs(t.position.x - p.x) < 20.0 && Abs(t.position.y - p.y) < 20.0
  }

  /** Index of the first tower covering `p`. */
  function TowerAt(ts: seq<Tower>, p: Position): (r: Option<nat>)
    ensures r.Some? ==> r.value < |ts| && Covers(ts[r.value], p)
    ensures r.Some? ==> forall j :: 0 <= j < r.value ==> !Covers(ts[j], p)
    ensures r.None? ==> forall j :: 0 <= j < |ts| ==> !Covers(ts[j], p)
  {
    if ts == [] then None
    else if Covers(ts[0], p) then Some(0)
    else match TowerAt(ts[1..], p)
      case None => None
      case Some(k) => Some(k + 1)
  }

  /** Everything but the towers with identifier `id` (`removeTower`). */
  function WithoutTower(ts: seq<Tower>, id: nat): (r: seq<Tower>)
    ensures forall t :: t in r <==> t in ts && t.id != id
  {
    if ts == [] then []
    else
      var rest := WithoutTower(ts[..|ts| - 1], id);
      assert ts == ts[..|ts| - 1] + [ts[|ts| - 1]];
      if ts[|ts| - 1].id == id then rest else rest + [ts[|ts| - 1]]
  }

  /** `removeTower` is an order-keeping `filter`, part by part; a single tower stays exactly when its identifier differs. */
  lemma {:induction false} WithoutTowerAppend(a: seq<Tower>, b: seq<Tower>, id: nat)
    ensures WithoutTower(a + b, id) == WithoutTower(a, id) + WithoutTower(b, id)
    ensures |b| == 1 ==> WithoutTower(b, id) == if b[0].id == id then [] else b
    decreases |b|
  {
    if b == [] {
      assert a + b == a;
    } else {
      var front := b[..|b| - 1];
      assert (a + b)[..|a + b| - 1] == a + front;
      WithoutTowerAppend(a, front, id);
      if |b| == 1 {
        assert front == [];
      }
    }
  }

  // ---------------------------------------------------------------------
  // Upgrades

  /**
   * `upgradeTower` on one tower: nothing when the next level lies past the
   * end of the element's ladder; otherwise one level up, with damage, range,
   * cooldown and upgrade cost read from the row of the new level.
   */
  function Upgraded(t: Tower): (r: Option<Tower>)
    ensures r.None? <==> t.level >= |Ladder(t.element)|
    ensures r.Some? ==> r.value.level == t.level + 1
    ensures r.Some? ==> r.value.(damage := t.damage, range := t.range, attackSpeed := t.attackSpeed,
                                 upgradeCost := t.upgradeCost, level := t.level) == t
  {
    var ladder := Ladder(t.element);
    if t.level + 1 > |ladder| then None
    else
      var row := ladder[t.level];
      Some(t.(level := t.level + 1, damage := row.damage, range := row.range,
              attackSpeed := row.attackSpeed, upgradeCost := row.cost))
  }

  /**
   * A tower whose stats are those of its level's ladder row. Its upgrade
   * cost is the level-2 price at level 1 (as bought) and, once upgraded, the
   * price of the level it last reached.
   */
  predicate OnLadder(t: Tower)
  {
    var ladder := Ladder(t.element);
    && 1 <= t.level <= |ladder|
    && t.damage == ladder[t.level - 1].damage
    && t.range == ladder[t.level - 1].range
    && t.attackSpeed == ladder[t.level - 1].attackSpeed
    && t.upgradeCost == ladder[if t.level == 1 then 1 else t.level - 1].cost
  }

  /** A tower as the shop builds it: level 1 with its element's base stats. */
  function BoughtTower(id: nat, el: Element, at: Position, price: real): (t: Tower)
    ensures t.id == id && t.element == el && t.position == at && t.cost == price
    ensures t.level == 1 && t.lastAttackTime == 0.0 && t.target == None
  {
    var c := TowerBase(el);
    Tower(id, at, el, 1, c.damage, c.range, c.attackSpeed, price, c.upgradeCost, 0.0, None)
  }

  lemma BoughtTowerOnLadder(id: nat, el: Element, at: Position, price: real)
    ensures OnLadder(BoughtTower(id, el, at, price))
    ensures BoughtTower(id, el, at, price).upgradeCost == Ladder(el)[1].cost
  {
  }

  /**
   * On a tower that sits on its ladder, an upgrade succeeds exactly below
   * level 4, keeps the tower on the ladder and makes it strictly stronger:
   * more damage, more range, a shorter cooldown. Its upgrade cost becomes the
   * price of the level just reached.
   */
  lemma UpgradeClimbs(t: Tower)
    requires OnLadder(t)
    ensures Upgraded(t).Some? <==> t.level < 4
    ensures Upgraded(t).Some? ==>
      var u := Upgraded(t).value;
      && OnLadder(u)
      && u.damage > t.damage && u.range > t.range && u.attackSpeed < t.attackSpeed
      && u.upgradeCost == Ladder(t.element)[u.level - 1].cost
  {
    LadderRises(t.element);
    if t.level < 4 {
      assert StepUp(Ladder(t.element)[t.level - 1], Ladder(t.element)[t.level]);
    }
  }

  /**
   * From level 2 on, the cost a tower records before an upgrade is lower
   * than the cost it records after it.
   */
  lemma UpgradeCostRises(t: Tower)
    requires OnLadder(t) && 2 <= t.level < 4
    ensures Upgraded(t).Some? && Upgraded(t).value.upgradeCost > t.upgradeCost
  {
    LadderRises(t.element);
    assert StepUp(Ladder(t.element)[t.level - 1], Ladder(t.element)[t.level]);
  }

  // ---------------------------------------------------------------------
  // Targeting and firing

  /**
   * The running minimum of `findNearestEnemy` over the first `n` enemies:
   * the index of the live enemy closest to `at`, replaced only by one that
   * is strictly closer.
   */
  function NearestIn(es: seq<Enemy>, at: Position, n: nat): (r: Option<nat>)
    requires n <= |es|
    ensures r.Some? ==> r.value < n && !es[r.value].isDead
  {
    if n == 0 then None
    else
      var best := NearestIn(es, at, n - 1);
      var e := es[n - 1];
      if e.isDead then best
      else if best.None? || DistSq(at, e.position) < DistSq(at, es[best.value].position) then Some(n - 1)
      else best
  }

  function Nearest(es: seq<Enemy>, at: Position): Option<nat>
  {
    NearestIn(es, at, |es|)
  }

  /** Enemy `k` is live and no live enemy among the first `n` is closer to `at`; none before it is as close. */
  predicate NearestAmong(es: seq<Enemy>, at: Position, n: nat, k: nat)
    requires n <= |es|
  {
    && k < n && !es[k].isDead
    && (forall j :: 0 <= j < n && !es[j].isDead ==> DistSq(at, es[k].position) <= DistSq(at, es[j].position))
    && (forall j :: 0 <= j < k && !es[j].isDead ==> DistSq(at, es[j].position) > DistSq(at, es[k].position))
  }

  predicate AllDead(es: seq<Enemy>, n: nat)
    requires n <= |es|
  {
    forall j :: 0 <= j < n ==> es[j].isDead
  }

  /**
   * The running minimum finds nothing exactly when every enemy is dead, and
   * otherwise a live enemy of minimal distance, the first one on ties.
   */
  lemma {:induction false} NearestCorrect(es: seq<Enemy>, at: Position, n: nat)
    requires n <= |es|
    ensures NearestIn(es, at, n).None? <==> AllDead(es, n)
    ensures NearestIn(es, at, n).Some? ==> NearestAmong(es, at, n, NearestIn(es, at, n).value)
  {
    if n > 0 {
      NearestCorrect(es, at, n - 1);
    }
  }

  /** A tower's cooldown has run out at time `now`. */
  predicate Cooled(t: Tower, now: real)
  {
    now - t.lastAttackTime >= t.attackSpeed
  }

  /** The projectile `attackEnemy` launches from `t` at `e`. */
  function Launch(t: Tower, e: Enemy): (p: Projectile)
    ensures p.from == t.position && p.to == e.position && p.targetId == e.id
    ensures p.element == t.element && p.damage == t.damage
    ensures p.speed == ProjectileSpeed && p.progress == 0.0
  {
    Projectile(t.position, e.position, t.element, t.damage, ProjectileSpeed, 0.0, e.id)
  }

  /** A tower after its attack step, and the projectile it fired, if any. */
  datatype Shot = Shot(tower: Tower, fired: Option<Projectile>)

  /**
   * `updateTowerAttack`: a tower that has cooled down fires at the nearest
   * live enemy when that enemy is within range, and then records the time
   * and its target.
   */
  function Attack(t: Tower, es: seq<Enemy>, now: real): (s: Shot)
    ensures s.fired.Some? <==>
      Cooled(t, now) && Nearest(es, t.position).Some? &&
      Within(t.position, es[Nearest(es, t.position).value].position, t.range)
    ensures s.fired.None? ==> s.tower == t
    ensures s.fired.Some? ==>
      var e := es[Nearest(es, t.position).value];
      s.fired.value == Launch(t, e) && s.tower == t.(lastAttackTime := now, target := Some(e.id))
  {
    if !Cooled(t, now) then Shot(t, None)
    else match Nearest(es, t.position)
      case None => Shot(t, None)
      case Some(k) =>
        if !Within(t.position, es[k].position, t.range) then Shot(t, None)
        else Shot(t.(lastAttackTime := now, target := Some(es[k].id)), Some(Launch(t, es[k])))
  }

  /**
   * A shot is fired only after the cooldown, at a live enemy within range
   * that no live enemy is closer than; the shooter's stats and identity are
   * untouched.
   */
  lemma AttackFires(t: Tower, es: seq<Enemy>, now: real)
    requires Attack(t, es, now).fired.Some?
    ensures var s := Attack(t, es, now); var k := Nearest(es, t.position).value;
      && now - t.lastAttackTime >= t.attackSpeed
      && NearestAmong(es, t.position, |es|, k)
      && Within(t.position, es[k].position, t.range)
      && s.fired.value.targetId == es[k].id
      && s.tower.lastAttackTime == now
      && s.tower.(lastAttackTime := t.lastAttackTime, target := t.target) == t
  {
    NearestCorrect(es, t.position, |es|);
  }

  /** No live enemy, no shot. */
  lemma NoTargetNoShot(t: Tower, es: seq<Enemy>, now: real)
    requires forall j :: 0 <= j < |es| ==> es[j].isDead
    ensures Attack(t, es, now) == Shot(t, None)
  {
    NearestCorrect(es, t.position, |es|);
  }

  function Fired(o: Option<Projectile>): seq<Projectile>
  {
    if o.Some? then [o.value] else []
  }

  /** Every tower's attack step, in list order: the towers after it and the projectiles fired, in order. */
  function AttackAll(ts: seq<Tower>, es: seq<Enemy>, now: real): (r: (seq<Tower>, seq<Projectile>))
    ensures |r.0| == |ts| && |r.1| <= |ts|
  {
    if ts == [] then ([], [])
    else
      var front := AttackAll(ts[..|ts| - 1], es, now);
      var s := Attack(ts[|ts| - 1], es, now);
      (front.0 + [s.tower], front.1 + Fired(s.fired))
  }

  /**
   * The attack step changes only each tower's last attack time and target,
   * and every projectile it fires is aimed at a live enemy of the list.
   */
  lemma {:induction false} AttackAllKeepsTowers(ts: seq<Tower>, es: seq<Enemy>, now: real)
    ensures forall i :: 0 <= i < |ts| ==>
      AttackAll(ts, es, now).0[i].(lastAttackTime := ts[i].lastAttackTime, target := ts[i].target) == ts[i]
    ensures forall p :: p in AttackAll(ts, es, now).1 ==>
      exists k :: 0 <= k < |es| && !es[k].isDead && es[k].id == p.targetId
  {
    if ts != [] {
      var front := ts[..|ts| - 1];
      AttackAllKeepsTowers(front, es, now);
      var s := Attack(ts[|ts| - 1], es, now);
      if s.fired.Some? {
        var k := Nearest(es, ts[|ts| - 1].position).value;
        assert !es[k].isDead && es[k].id == s.fired.value.targetId;
      }
    }
  }

  // ---------------------------------------------------------------------
  // Projectiles in flight

  /** The projectile's target resolves, by identifier, to a live enemy. */
  predicate Resolves(p: Projectile, es: seq<Enemy>)
  {
    FindEnemy(es, p.targetId).Some? && !es[FindEnemy(es, p.targetId).value].isDead
  }

  /** Distance a projectile flies in `dt` milliseconds. */
  function Flight(p: Projectile, dt: real): real
  {
    p.speed * dt / 1000.0
  }

  /**
   * A projectile re-aimed at `target` and moved toward it by its flight
   * distance; a projectile already on its target does not move.
   */
  function Steer(p: Projectile, target: Position, dt: real, step: Stepper): (q: Projectile)
    ensures q.to == target
    ensures q.from == p.from || q.from == step(p.from, target, Flight(p, dt))
    ensures p.from == target ==> q.from == p.from
    ensures p.from != target ==> q.from == step(p.from, target, Flight(p, dt))
    ensures q.(from := p.from, to := p.to) == p
  {
    var from := if p.from != target then step(p.from, target, Flight(p, dt)) else p.from;
    p.(to := target, from := from)
  }

  /** The image of a projectile whose target resolves. */
  function Homed(p: Projectile, es: seq<Enemy>, dt: real, step: Stepper): Projectile
    requires Resolves(p, es)
  {
    Steer(p, es[FindEnemy(es, p.targetId).value].position, dt, step)
  }

  /**
   * `updateProjectiles`: projectiles whose target no longer resolves to a
   * live enemy are dropped; the others are re-aimed and moved, in order.
   */
  function Homing(ps: seq<Projectile>, es: seq<Enemy>, dt: real, step: Stepper): (r: seq<Projectile>)
    ensures |r| <= |ps|
  {
    if ps == [] then []
    else
      var front := Homing(ps[..|ps| - 1], es, dt, step);
      var p := ps[|ps| - 1];
      if Resolves(p, es) then front + [Homed(p, es, dt, step)] else front
  }

  /**
   * Exactly the projectiles whose target resolves survive: each of them has
   * its image in the result, and the result holds nothing else.
   */
  lemma {:induction false} HomingExact(ps: seq<Projectile>, es: seq<Enemy>, dt: real, step: Stepper)
    ensures forall p :: p in ps && Resolves(p, es) ==> Homed(p, es, dt, step) in Homing(ps, es, dt, step)
    ensures forall q :: q in Homing(ps, es, dt, step) ==>
      exists p :: p in ps && Resolves(p, es) && q == Homed(p, es, dt, step)
  {
    if ps != [] {
      var front := ps[..|ps| - 1];
      var last := ps[|ps| - 1];
      assert ps == front + [last];
      HomingExact(front, es, dt, step);
      var r := Homing(ps, es, dt, step);
      forall q | q in r
        ensures exists p :: p in ps && Resolves(p, es) && q == Homed(p, es, dt, step)
      {
        if q in Homing(front, es, dt, step) {
          var p :| p in front && Resolves(p, es) && q == Homed(p, es, dt, step);
          assert p in ps;
        } else {
          assert q == Homed(last, es, dt, step);
        }
      }
    }
  }

  /**
   * `updateProjectiles` is an order-keeping `filter`: the survivors of a
   * concatenation are those of each part in turn, and a single projectile
   * survives, homed, exactly when its target resolves.
   */
  lemma {:induction false} HomingAppend(a: seq<Projectile>, b: seq<Projectile>, es: seq<Enemy>, dt: real, step: Stepper)
    ensures Homing(a + b, es, dt, step) == Homing(a, es, dt, step) + Homing(b, es, dt, step)
    ensures |b| == 1 ==> Homing(b, es, dt, step) == if Resolves(b[0], es) then [Homed(b[0], es, dt, step)] else []
    decreases |b|
  {
    if b == [] {
      assert a + b == a;
    } else {
      var front := b[..|b| - 1];
      assert (a + b)[..|a + b| - 1] == a + front;
      HomingAppend(a, front, es, dt, step);
      if |b| == 1 {
        assert front == [];
      }
    }
  }

  /** Homing moves projectiles but never changes the damage they carry. */
  lemma HomingKeepsDamage(ps: seq<Projectile>, es: seq<Enemy>, dt: real, step: Stepper)
    requires forall p :: p in ps ==> p.damage >= 0.0
    ensures forall q :: q in Homing(ps, es, dt, step) ==> q.damage >= 0.0
  {
    HomingExact(ps, es, dt, step);
  }

  /** With no live enemy left, every projectile is dropped. */
  lemma {:induction false} HomingNoTargets(ps: seq<Projectile>, es: seq<Enemy>, dt: real, step: Stepper)
    requires forall j :: 0 <= j < |es| ==> es[j].isDead
    ensures Homing(ps, es, dt, step) == []
  {
    if ps != [] {
      HomingNoTargets(ps[..|ps| - 1], es, dt, step);
    }
  }

  /** `ps` without the element at index `k`; out-of-range indices remove nothing. */
  function RemoveAt(ps: seq<Projectile>, k: nat): (r: seq<Projectile>)
    ensures k < |ps| ==> |r| == |ps| - 1
    ensures k < |ps| ==> forall i :: 0 <= i < |r| ==> r[i] == (if i < k then ps[i] else ps[i + 1])
    ensures k >= |ps| ==> r == ps
  {
    if k < |ps| then ps[..k] + ps[k + 1..] else ps
  }

  /** One more tower of the attack step. */
  lemma AttackAllStep(ts: seq<Tower>, i: nat, es: seq<Enemy>, now: real)
    requires i < |ts|
    ensures var done := AttackAll(ts[..i], es, now); var s := Attack(ts[i], es, now);
      AttackAll(ts[..i + 1], es, now) == (done.0 + [s.tower], done.1 + Fired(s.fired))
  {
    assert ts[..i + 1][..i] == ts[..i];
  }

  /** Every tower sits on its element's ladder. */
  predicate AllOnLadder(ts: seq<Tower>)
  {
    forall t :: t in ts ==> OnLadder(t)
  }

  /** No projectile carries negative damage. */
  predicate Armed(ps: seq<Projectile>)
  {
    forall i :: 0 <= i < |ps| ==> ps[i].damage >= 0.0
  }

  /** A tower on its ladder hits with positive damage. */
  lemma LadderDamage(t: Tower)
    requires OnLadder(t)
    ensures t.damage > 0.0
  {
    LadderRises(t.element);
  }

  /** The attack step keeps every tower on its ladder and fires only projectiles with positive damage. */
  lemma {:induction false} AttackAllValid(ts: seq<Tower>, es: seq<Enemy>, now: real)
    requires forall t :: t in ts ==> OnLadder(t)
    ensures forall t :: t in AttackAll(ts, es, now).0 ==> OnLadder(t)
    ensures forall p :: p in AttackAll(ts, es, now).1 ==> p.damage > 0.0
  {
    if ts != [] {
      var front := ts[..|ts| - 1];
      var last := ts[|ts| - 1];
      assert forall t :: t in front ==> t in ts;
      AttackAllValid(front, es, now);
      LadderDamage(last);
    }
  }

  // ---------------------------------------------------------------------

  /** The towers on the board and the projectiles in flight. */
  class TowerManager {
    var towers: seq<Tower>
    var projectiles: seq<Projectile>

    /** Every tower sits on its element's ladder; no projectile carries negative damage. */
    ghost predicate Valid()
      reads this
    {
      AllOnLadder(towers) && Armed(projectiles)
    }

    constructor ()
      ensures towers == [] && projectiles == [] && Valid()
    {
      towers := [];
      projectiles := [];
    }

    /** `addTower`: append, with no check that the slot is free. */
    method AddTower(t: Tower)
      modifies this
      ensures towers == old(towers) + [t] && projectiles == old(projectiles)
      ensures old(Valid()) && OnLadder(t) ==> Valid()
    {
      towers := towers + [t];
    }

    /** `removeTower`. */
    method RemoveTower(id: nat)
      modifies this
      ensures towers == WithoutTower(old(towers), id) && projectiles == old(projectiles)
      ensures old(Valid()) ==> Valid()
    {
      towers := WithoutTower(towers, id);
    }

    function GetTowers(): seq<Tower>
      reads this
    {
      towers
    }

    function GetProjectiles(): seq<Projectile>
      reads this
    {
      projectiles
    }

    /** `getTowerAt`: the first tower covering `p`. */
    function GetTowerAt(p: Position): (r: Option<Tower>)
      reads this
      ensures r.Some? ==> r.value in towers && Covers(r.value, p)
      ensures r.None? ==> forall t :: t in towers ==> !Covers(t, p)
    {
      match TowerAt(towers, p)
      case None => None
      case Some(k) => Some(towers[k])
    }

    /**
     * `upgradeTower`: the first tower with identifier `id` moves one level
     * up its ladder; false, with nothing changed, when there is no such
     * tower or it is at the top.
     */
    method UpgradeTower(id: nat) returns (ok: bool)
      modifies this
      ensures projectiles == old(projectiles)
      ensures ok <==> FindTower(old(towers), id).Some? && Upgraded(old(towers)[FindTower(old(towers), id).value]).Some?
      ensures !ok ==> towers == old(towers)
      ensures ok ==> var k := FindTower(old(towers), id).value;
        towers == old(towers)[k := Upgraded(old(towers)[k]).value]
      ensures old(Valid()) ==> Valid()
    {
      var found := FindTower(towers, id);
      if found.None? {
        return false;
      }
      var k := found.value;
      var up := Upgraded(towers[k]);
      if up.None? {
        return false;
      }
      if Valid() {
        UpgradeClimbs(towers[k]);
      }
      towers := towers[k := up.value];
      return true;
    }

    /**
     * `findNearestEnemy`: scan the enemies keeping the closest live one so
     * far, replacing it only by a strictly closer one.
     */
    method FindNearestEnemy(t: Tower, es: seq<Enemy>) returns (r: Option<nat>)
      ensures r == Nearest(es, t.position)
      ensures r.None? <==> forall j :: 0 <= j < |es| ==> es[j].isDead
      ensures r.Some? ==> NearestAmong(es, t.position, |es|, r.value)
    {
      r := None;
      var bestDist := 0.0;
      for i := 0 to |es|
        invariant r == NearestIn(es, t.position, i)
        invariant r.Some? ==> bestDist == DistSq(t.position, es[r.value].position)
      {
        var e := es[i];
        if !e.isDead {
          var d := DistSq(t.position, e.position);
          if r.None? || d < bestDist {
            r := Some(i);
            bestDist := d;
          }
        }
      }
      NearestCorrect(es, t.position, |es|);
    }

    /** `attackEnemy`: launch one projectile from `t` at `e`. */
    method AttackEnemy(t: Tower, e: Enemy)
      modifies this
      ensures projectiles == old(projectiles) + [Launch(t, e)] && towers == old(towers)
    {
      projectiles := projectiles + [Launch(t, e)];
    }

    /** `updateTowerAttack` for the tower at index `i`. */
    method UpdateTowerAttack(i: nat, es: seq<Enemy>, now: real)
      requires i < |towers|
      modifies this
      ensures var s := Attack(old(towers[i]), es, now);
        towers == old(towers)[i := s.tower] && projectiles == old(projectiles) + Fired(s.fired)
    {
      var t := towers[i];
      if now - t.lastAttackTime < t.attackSpeed {
        assert towers[i := t] == towers && projectiles + [] == projectiles;
        return;
      }
      var target := FindNearestEnemy(t, es);
      if target.None? {
        assert towers[i := t] == towers && projectiles + [] == projectiles;
        return;
      }
      var e := es[target.value];
      if !Within(t.position, e.position, t.range) {
        assert towers[i := t] == towers && projectiles + [] == projectiles;
        return;
      }
      AttackEnemy(t, e);
      towers := towers[i := t.(lastAttackTime := now, target := Some(e.id))];
    }

    /** The `forEach` of `update`: every tower's attack step, in order. */
    method AttackTowers(es: seq<Enemy>, now: real)
      modifies this
      ensures towers == AttackAll(old(towers), es, now).0
      ensures projectiles == old(projectiles) + AttackAll(old(towers), es, now).1
    {
      ghost var orig := towers;
      ghost var before := projectiles;
      for i := 0 to |towers|
        invariant |towers| == |orig|
        invariant towers == AttackAll(orig[..i], es, now).0 + orig[i..]
        invariant projectiles == before + AttackAll(orig[..i], es, now).1
      {
        AttackStep(i, es, now, orig, before);
      }
      assert orig[..|orig|] == orig;
    }

    /** `AttackTowers`' walk moved past tower `i`: the first `i + 1` towers have attacked. */
    method AttackStep(i: nat, es: seq<Enemy>, now: real, ghost orig: seq<Tower>, ghost before: seq<Projectile>)
      requires i < |orig| == |towers|
      requires towers == AttackAll(orig[..i], es, now).0 + orig[i..]
      requires projectiles == before + AttackAll(orig[..i], es, now).1
      modifies this
      ensures |towers| == |orig|
      ensures towers == AttackAll(orig[..i + 1], es, now).0 + orig[i + 1..]
      ensures projectiles == before + AttackAll(orig[..i + 1], es, now).1
    {
      ghost var done := AttackAll(orig[..i], es, now);
      ghost var s := Attack(orig[i], es, now);
      AttackAllStep(orig, i, es, now);
      ConsumeOne(done.0, orig, i);
      UpdateTowerAttack(i, es, now);
      ReplaceOne(done.0, s.tower, orig, i);
    }

    /** `updateProjectiles`. */
    method UpdateProjectiles(dt: real, es: seq<Enemy>, step: Stepper)
      modifies this
      ensures projectiles == Homing(old(projectiles), es, dt, step) && towers == old(towers)
    {
      projectiles := Homing(projectiles, es, dt, step);
    }

    /**
     * `update`: every tower attacks the given enemies at time `now`, then
     * the projectiles (the new ones included) home in.
     */
    method Update(dt: real, es: seq<Enemy>, now: real, step: Stepper)
      modifies this
      ensures var a := AttackAll(old(towers), es, now);
        towers == a.0 && projectiles == Homing(old(projectiles) + a.1, es, dt, step)
      ensures old(Valid()) ==> Valid()
    {
      if Valid() {
        var a := AttackAll(towers, es, now);
        AttackAllValid(towers, es, now);
        HomingKeepsDamage(projectiles + a.1, es, dt, step);
      }
      AttackTowers(es, now);
      UpdateProjectiles(dt, es, step);
    }

    /** `removeProjectile`, by position in the list. */
    method RemoveProjectile(k: nat)
      modifies this
      ensures projectiles == RemoveAt(old(projectiles), k) && towers == old(towers)
      ensures old(Valid()) ==> Valid()
    {
      projectiles := RemoveAt(projectiles, k);
    }

    /** `clear`. */
    method Clear()
      modifies this
      ensures towers == [] && projectiles == [] && Valid()
    {
      towers := [];
      projectiles := [];
    }
  }
}
