/**
 * The rules the game engine applies on top of the managers: special
 * abilities, the shop, the upgrade bill, the element-to-status mapping,
 * projectile collisions with their rewards, and the order in which a tick
 * decides between game over, victory and the next round.
 */
module Rules {
  import opened GameTypes
  import opened GameConfig
  import opened Enemies
  import opened Towers

  /** The state of a new (or restarted) game: round 1, full lives, starting gold, one charge of each ability. */
  const InitialState: GameState :=
    GameState(1, MaxLives, StartingGold, 0.0, false, false, false, RoundTimeLimit, 0.0, Charges(1, 1, 1, 1))

  const TimeStopLength: real := 5000.0
  const HealAmount: int := 5

  // ---------------------------------------------------------------------
  // Special abilities

  /**
   * `useSpecialAbility` on the game state: with no charge left nothing
   * happens; otherwise the ability's counter drops by one, time stop freezes
   * the game for five seconds and heal gives back five lives, never above the
   * maximum. (Bomb and shield add a visual effect, outside the state.)
   */
  function UseAbility(s: GameState, a: Ability): (r: GameState)
    ensures s.abilities.Get(a) <= 0 ==> r == s
    ensures s.abilities.Get(a) > 0 ==> r.abilities == s.abilities.Spend(a)
    ensures s.abilities.Get(a) > 0 && a == TimeStop ==> r.timeStopDuration == TimeStopLength
    ensures s.abilities.Get(a) > 0 && a == Heal ==> r.lives == Smaller(s.lives + HealAmount, MaxLives)
    ensures r.(abilities := s.abilities, timeStopDuration := s.timeStopDuration, lives := s.lives) == s
  {
    if s.abilities.Get(a) <= 0 then s
    else if a == TimeStop then s.(timeStopDuration := TimeStopLength, abilities := s.abilities.Spend(a))
    else if a == Heal then s.(lives := Smaller(s.lives + HealAmount, MaxLives), abilities := s.abilities.Spend(a))
    else s.(abilities := s.abilities.Spend(a))
  }

  /** `Math.min` on whole numbers. */
  function Smaller(a: int, b: int): (m: int)
    ensures m <= a && m <= b && (m == a || m == b)
  {
    if a <= b then a else b
  }

  predicate ChargesOk(c: Charges)
  {
    c.bomb >= 0 && c.timeStop >= 0 && c.heal >= 0 && c.shield >= 0
  }

  /**
   * Using an ability never drives a counter below zero, and never takes
   * lives above the maximum or below where they were.
   */
  lemma UseAbilityBounded(s: GameState, a: Ability)
    requires ChargesOk(s.abilities) && s.lives <= MaxLives
    ensures ChargesOk(UseAbility(s, a).abilities)
    ensures s.lives <= UseAbility(s, a).lives <= MaxLives
  {
    var c := UseAbility(s, a).abilities;
    assert c.bomb == c.Get(Ability.Bomb) && c.timeStop == c.Get(TimeStop);
    assert c.heal == c.Get(Heal) && c.shield == c.Get(Ability.Shield);
  }

  /** A game starts with one charge per ability: a second use of the same ability does nothing. */
  lemma OneUseEach(a: Ability)
    ensures UseAbility(InitialState, a) != InitialState
    ensures UseAbility(UseAbility(InitialState, a), a) == UseAbility(InitialState, a)
  {
    assert UseAbility(InitialState, a).abilities.Get(a) == 0;
  }

  // ---------------------------------------------------------------------
  // The shop

  /** The shop column starts 200 pixels from the right edge of the canvas. */
  const ShopLeft: real := CanvasWidth - 200.0

  /**
   * `handleShopClick`'s row rule: row `floor((y - 60) / 60)`, when it names an
   * item. Rows are 60 pixels high and start at `y = 60`.
   */
  function ShopRow(y: real): (r: Option<nat>)
    ensures r.Some? ==> r.value < |ShopItems| && 60.0 + 60.0 * r.value as real <= y < 120.0 + 60.0 * r.value as real
    ensures r.None? <==> y < 60.0 || y >= 60.0 + 60.0 * |ShopItems| as real
  {
    var k := ((y - 60.0) / 60.0).Floor;
    if 0 <= k < |ShopItems| then Some(k as nat) else None
  }

  /**
   * The item `buyTower` sells: the selected one, when it exists, is a
   * tower and is affordable; nothing otherwise.
   */
  function Purchase(selected: Option<string>, gold: real): (r: Option<ShopItem>)
    ensures r.Some? ==> selected.Some? && FindItem(selected.value) == r
    ensures r.Some? ==> r.value.kind.TowerItem? && r.value.cost <= gold
    ensures r.None? && selected.Some? && FindItem(selected.value).Some? ==>
      var it := FindItem(selected.value).value;
      !it.kind.TowerItem? || it.cost > gold
  {
    if selected.None? then None
    else match FindItem(selected.value)
      case None => None
      case Some(it) => if it.kind.TowerItem? && gold >= it.cost then Some(it) else None
  }

  /** A purchase never makes gold negative, and what it builds is priced as its element's tower. */
  lemma PurchaseAffordable(selected: Option<string>, gold: real)
    requires Purchase(selected, gold).Some?
    ensures gold - Purchase(selected, gold).value.cost >= 0.0
    ensures var it := Purchase(selected, gold).value; it.cost == TowerBase(it.kind.element).cost
  {
    ShopPrices();
    var it := Purchase(selected, gold).value;
    var i :| 0 <= i < |ShopItems| && ShopItems[i] == it;
  }

  /** The five tower items sit in the first five rows. */
  lemma TowerRows(y: real)
    requires ShopRow(y).Some?
    ensures ShopItems[ShopRow(y).value].kind.TowerItem? <==> y < 360.0
  {
  }

  // ---------------------------------------------------------------------
  // Upgrades

  /**
   * What `handleTowerUpgrade` takes from `gold` for tower `t`: the gate is
   * the upgrade cost before the upgrade, but the amount taken is the upgrade
   * cost the tower holds after it; nothing when the gate or the upgrade
   * fails.
   */
  function UpgradeBill(t: Tower, gold: real): (bill: real)
    ensures gold < t.upgradeCost || Upgraded(t).None? ==> bill == 0.0
    ensures gold >= t.upgradeCost && Upgraded(t).Some? ==> bill == Upgraded(t).value.upgradeCost
  {
    if gold >= t.upgradeCost then
      match Upgraded(t)
      case None => 0.0
      case Some(u) => u.upgradeCost
    else 0.0
  }

  /**
   * On the ladder, the first upgrade is billed what the gate asked, but from
   * level 2 on the bill is the price of the next level, strictly more than the
   * gate.
   */
  lemma UpgradeOvercharges(t: Tower, gold: real)
    requires OnLadder(t) && gold >= t.upgradeCost
    ensures t.level == 1 ==> UpgradeBill(t, gold) == t.upgradeCost
    ensures 2 <= t.level < 4 ==> UpgradeBill(t, gold) > t.upgradeCost
    ensures t.level < 4 ==> UpgradeBill(t, gold) == Ladder(t.element)[t.level].cost
  {
    UpgradeClimbs(t);
    if 2 <= t.level < 4 {
      UpgradeCostRises(t);
    }
  }

  /**
   * `handleTowerUpgrade` for the tower at index `k`, with `gold` in hand:
   * the towers and the gold afterwards. The upgrade goes to the first tower
   * carrying that tower's identifier, and the bill is the upgrade cost the
   * tower at `k` holds once that upgrade is done.
   */
  function UpgradeOutcome(ts: seq<Tower>, k: nat, gold: real): (r: (seq<Tower>, real))
    requires k < |ts|
    ensures |r.0| == |ts|
    ensures gold < ts[k].upgradeCost ==> r == (ts, gold)
    ensures gold >= ts[k].upgradeCost && FindTower(ts, ts[k].id) == Some(k) ==>
      r == (if Upgraded(ts[k]).Some? then ts[k := Upgraded(ts[k]).value] else ts, gold - UpgradeBill(ts[k], gold))
    ensures r.0 == ts || exists j :: 0 <= j < |ts| && Upgraded(ts[j]).Some? && r.0 == ts[j := Upgraded(ts[j]).value]
  {
    var t := ts[k];
    if gold < t.upgradeCost then (ts, gold)
    else
      var j := FindTower(ts, t.id);
      if j.None? then assert false; (ts, gold)
      else match Upgraded(ts[j.value])
        case None => (ts, gold)
        case Some(u) =>
          var after := ts[j.value := u];
          (after, gold - after[k].upgradeCost)
  }

  /** An upgrade keeps every tower on its ladder. */
  lemma UpgradeOutcomeOnLadder(ts: seq<Tower>, k: nat, gold: real)
    requires k < |ts| && forall t :: t in ts ==> OnLadder(t)
    ensures forall t :: t in UpgradeOutcome(ts, k, gold).0 ==> OnLadder(t)
  {
    var r := UpgradeOutcome(ts, k, gold).0;
    if r != ts {
      var j :| 0 <= j < |ts| && Upgraded(ts[j]).Some? && r == ts[j := Upgraded(ts[j]).value];
      UpgradeClimbs(ts[j]);
      forall t | t in r
        ensures OnLadder(t)
      {
        var i :| 0 <= i < |r| && r[i] == t;
        if i != j {
          assert t in ts;
        }
      }
    }
  }

  /** A level-2 fire tower upgraded with exactly 30 gold leaves the player 20 in debt. */
  lemma GoldGoesNegative(t: Tower)
    requires OnLadder(t) && t.element == Fire && t.level == 2
    ensures t.upgradeCost == 30.0 && UpgradeBill(t, 30.0) == 50.0
    ensures 30.0 - UpgradeBill(t, 30.0) == -20.0
  {
  }

  // ---------------------------------------------------------------------
  // Hits

  /**
   * `createEffect`: the status a projectile of element `el` and damage
   * `damage` leaves on its target. Fire burns (3 s, 10 % of the damage per
   * second), ice freezes (2 s, speed halved), poison poisons (5 s, 5 %),
   * lightning shocks (1 s, 20 %) and physical hits slow (1.5 s, speed 70 %).
   */
  function StatusFor(el: Element, damage: real): (f: StatusEffect)
    ensures f.duration > 0.0
    ensures f.kind != StatusType.Shield
    ensures f.damage.Some? <==> el in {Fire, Element.Poison, Lightning}
    ensures f.speedMultiplier.Some? <==> el in {Ice, Physical}
    ensures damage >= 0.0 && f.damage.Some? ==> 0.0 <= f.damage.value <= damage
    ensures f.speedMultiplier.Some? ==> 0.0 < f.speedMultiplier.value < 1.0
  {
    match el
    case Fire => StatusEffect(Burn, 3000.0, Some(damage * 0.1), None)
    case Ice => StatusEffect(Freeze, 2000.0, None, Some(0.5))
    case Poison => StatusEffect(StatusType.Poison, 5000.0, Some(damage * 0.05), None)
    case Lightning => StatusEffect(Shock, 1000.0, Some(damage * 0.2), None)
    case Physical => StatusEffect(Slow, 1500.0, None, Some(0.7))
  }

  /** Different elements leave different kinds of status, so one kind never overwrites another element's. */
  lemma StatusKindsDistinct(a: Element, b: Element, da: real, db: real)
    requires a != b
    ensures StatusFor(a, da).kind != StatusFor(b, db).kind
  {
  }

  /** The slice of the game a collision touches. */
  datatype Field = Field(enemies: seq<Enemy>, projectiles: seq<Projectile>, gold: real, score: real)

  /** A projectile hits when its target is less than 30 units away. */
  const HitRadius: real := 30.0

  /** The target of projectile `p`, when it is present and alive (`find` by id). */
  function LiveTarget(es: seq<Enemy>, p: Projectile): (r: Option<nat>)
    ensures r.Some? ==> r.value < |es| && es[r.value].id == p.targetId && !es[r.value].isDead
    ensures r.Some? ==> FindEnemy(es, p.targetId) == r
    ensures r.None? ==> FindEnemy(es, p.targetId).None? || es[FindEnemy(es, p.targetId).value].isDead
  {
    match FindEnemy(es, p.targetId)
    case None => None
    case Some(k) => if es[k].isDead then None else Some(k)
  }

  /** `sqrt(DistSq) < 30`: the projectile has reached the enemy. */
  predicate Reaches(e: Enemy, p: Projectile)
  {
    DistSq(e.position, p.from) < HitRadius * HitRadius
  }

  /**
   * The collision rule for projectile `i`, in the order the checks are made:
   * the target is looked up among live enemies, then its reach is tested,
   * then the blow is dealt, paid for and its status left. What that amounts
   * to is stated by `HitSpec`.
   */
  function Hit(f: Field, i: nat): (r: Field)
    requires i < |f.projectiles|
    ensures |r.enemies| == |f.enemies| && |r.projectiles| >= i && r.projectiles[..i] == f.projectiles[..i]
  {
    var p := f.projectiles[i];
    assert RemoveAt(f.projectiles, i)[..i] == f.projectiles[..i];
    match LiveTarget(f.enemies, p)
    case None => f.(projectiles := RemoveAt(f.projectiles, i))
    case Some(k) =>
      var e := f.enemies[k];
      if Reaches(e, p) then
        var d := DamageById(f.enemies, e.id, p.damage);
        var credit := if d.1 then e.reward else 0.0;
        var hit := ApplyById(d.0, e.id, StatusFor(p.element, p.damage));
        Field(hit, RemoveAt(f.projectiles, i), f.gold + credit, f.score + credit * 10.0)
      else f
  }

  /**
   * What one collision does: a projectile whose target is missing or dead is
   * dropped with no other effect; one whose target is out of reach stays,
   * and nothing changes; one that reaches its target damages it, pays the
   * reward (and ten times it in score) when that blow kills, leaves its
   * element's status on a survivor and is dropped. Projectiles before `i`
   * and enemies with other identifiers are untouched.
   */
  lemma HitSpec(f: Field, i: nat)
    requires i < |f.projectiles|
    ensures var r := Hit(f, i);
      && (LiveTarget(f.enemies, f.projectiles[i]).None? ==> r == f.(projectiles := RemoveAt(f.projectiles, i)))
      && (LiveTarget(f.enemies, f.projectiles[i]).Some? ==>
        var k := LiveTarget(f.enemies, f.projectiles[i]).value;
        var e := f.enemies[k];
        var p := f.projectiles[i];
        && (!Reaches(e, p) ==> r == f)
        && (Reaches(e, p) ==>
          && r.projectiles == RemoveAt(f.projectiles, i)
          && r.enemies[k].currentHealth == e.currentHealth - Dealt(e.effects, p.damage)
          && (r.enemies[k].isDead <==> r.enemies[k].currentHealth <= 0.0)
          && r.enemies[k].reward == e.reward
          && r.gold == f.gold + (if r.enemies[k].isDead then e.reward else 0.0)
          && r.score == f.score + (if r.enemies[k].isDead then e.reward * 10.0 else 0.0)
          && (!r.enemies[k].isDead ==> StatusFor(p.element, p.damage) in r.enemies[k].effects)
          && (forall j :: 0 <= j < |f.enemies| && f.enemies[j].id != e.id ==> r.enemies[j] == f.enemies[j])))
  {
    var p := f.projectiles[i];
    match LiveTarget(f.enemies, p)
    case None =>
    case Some(k) =>
      var e := f.enemies[k];
      if Reaches(e, p) {
        var d := DamageById(f.enemies, e.id, p.damage);
        var hit := ApplyById(d.0, e.id, StatusFor(p.element, p.damage));
        FindEnemyReplace(f.enemies, k, d.0[k], e.id);
        assert hit[k] == if d.1 then d.0[k] else d.0[k].(effects := Upsert(d.0[k].effects, StatusFor(p.element, p.damage)));
      }
  }

  /** The collision of a projectile that reaches its live target, written out whole. */
  lemma HitReaches(f: Field, i: nat, k: nat)
    requires i < |f.projectiles| && LiveTarget(f.enemies, f.projectiles[i]) == Some(k)
    requires Reaches(f.enemies[k], f.projectiles[i])
    ensures var p := f.projectiles[i]; var e := f.enemies[k];
      var d := DamageById(f.enemies, e.id, p.damage);
      var credit := if d.1 then e.reward else 0.0;
      Hit(f, i) == Field(ApplyById(d.0, e.id, StatusFor(p.element, p.damage)), RemoveAt(f.projectiles, i), f.gold + credit, f.score + credit * 10.0)
  {
  }

  /** Replacing an enemy by one with the same identifier does not move any lookup by identifier. */
  lemma FindEnemyReplace(es: seq<Enemy>, k: nat, x: Enemy, id: nat)
    requires k < |es| && x.id == es[k].id
    ensures FindEnemy(es[k := x], id) == FindEnemy(es, id)
  {
    var a := FindEnemy(es[k := x], id);
    var b := FindEnemy(es, id);
    if a.Some? {
      assert es[a.value].id == id;
    }
    if b.Some? {
      assert es[k := x][b.value].id == id;
    }
  }

  /** The reward an enemy contributes to `getTotalReward`-style sums: its reward once it is dead. */
  function Credit(e: Enemy): real
  {
    if e.isDead then e.reward else 0.0
  }

  /** Replacing one enemy changes the sum of dead rewards by the difference of the two credits. */
  lemma RewardSwap(es: seq<Enemy>, k: nat, x: Enemy)
    requires k < |es|
    ensures TotalReward(es[k := x]) == TotalReward(es) - Credit(es[k]) + Credit(x)
  {
    var front, back := es[..k], es[k + 1..];
    assert es == front + ([es[k]] + back);
    assert es[k := x] == front + ([x] + back);
    TotalRewardAppend(front, [es[k]] + back);
    TotalRewardAppend([es[k]], back);
    TotalRewardAppend(front, [x] + back);
    TotalRewardAppend([x], back);
    assert [x][..0] == [] && [es[k]][..0] == [];
  }

  /** Lists that agree, place by place, on who is dead and on rewards have the same sum of dead rewards. */
  lemma {:induction false} SameRewards(a: seq<Enemy>, b: seq<Enemy>)
    requires |a| == |b|
    requires forall i :: 0 <= i < |a| ==> a[i].isDead == b[i].isDead && a[i].reward == b[i].reward
    ensures TotalReward(a) == TotalReward(b)
  {
    if a != [] {
      SameRewards(a[..|a| - 1], b[..|b| - 1]);
    }
  }

  /**
   * A collision pays exactly the rewards of the enemies it kills: the gold
   * it adds equals the growth of the sum of dead rewards, and the score ten
   * times that.
   */
  lemma HitCredits(f: Field, i: nat)
    requires i < |f.projectiles|
    ensures Hit(f, i).gold - f.gold == TotalReward(Hit(f, i).enemies) - TotalReward(f.enemies)
    ensures Hit(f, i).score - f.score == 10.0 * (TotalReward(Hit(f, i).enemies) - TotalReward(f.enemies))
  {
    var p := f.projectiles[i];
    var es := f.enemies;
    match LiveTarget(es, p)
    case None =>
    case Some(k) =>
      if Reaches(es[k], p) {
        var d := DamageById(es, es[k].id, p.damage);
        RewardSwap(es, k, Damage(es[k], p.damage).0);
        var hit := ApplyById(d.0, es[k].id, StatusFor(p.element, p.damage));
        forall j | 0 <= j < |hit|
          ensures hit[j].isDead == d.0[j].isDead && hit[j].reward == d.0[j].reward
        {
          assert hit[j].(effects := d.0[j].effects) == d.0[j];
        }
        SameRewards(d.0, hit);
      }
  }

  /** The collision loop: projectiles `n - 1` down to `0`, in that order. */
  function CollideFrom(f: Field, n: nat): (r: Field)
    requires n <= |f.projectiles|
    ensures |r.enemies| == |f.enemies|
    decreases n
  {
    if n == 0 then f else CollideFrom(Hit(f, n - 1), n - 1)
  }

  /** The collision loop's invariant: valid enemies below `nextId` and no projectile with negative damage. */
  predicate FieldValid(f: Field, nextId: nat)
  {
    ValidSeq(f.enemies, nextId) && Armed(f.projectiles)
  }

  /** A collision keeps the field valid: the blow and the status it leaves cannot heal or break an enemy. */
  lemma HitValid(f: Field, i: nat, nextId: nat)
    requires i < |f.projectiles| && FieldValid(f, nextId)
    ensures FieldValid(Hit(f, i), nextId)
  {
    var p := f.projectiles[i];
    match LiveTarget(f.enemies, p)
    case None =>
    case Some(k) =>
      if Reaches(f.enemies[k], p) {
        var id := f.enemies[k].id;
        DamageByIdValid(f.enemies, nextId, id, p.damage);
        ApplyByIdValid(DamageById(f.enemies, id, p.damage).0, nextId, id, StatusFor(p.element, p.damage));
      }
  }

  /** Validity after the rest of the loop is validity after the whole loop. */
  lemma CollideValidStep(f: Field, n: nat, nextId: nat)
    requires 0 < n <= |f.projectiles|
    requires FieldValid(CollideFrom(Hit(f, n - 1), n - 1), nextId)
    ensures FieldValid(CollideFrom(f, n), nextId)
  {
    assert CollideFrom(f, n) == CollideFrom(Hit(f, n - 1), n - 1);
  }

  /** The whole collision loop keeps the field valid. */
  lemma {:induction false} CollideValid(f: Field, n: nat, nextId: nat)
    requires n <= |f.projectiles| && FieldValid(f, nextId)
    ensures FieldValid(CollideFrom(f, n), nextId)
    decreases n
  {
    if n > 0 {
      HitValid(f, n - 1, nextId);
      CollideValid(Hit(f, n - 1), n - 1, nextId);
      CollideValidStep(f, n, nextId);
    }
  }

  /**
   * The collision loop pays, in gold, exactly the rewards of the enemies it
   * kills and ten times that in score. Starting from a list with no dead
   * enemy (as `update` leaves it), the dead-enemy sweep that follows pays
   * the same rewards once more, so each projectile kill is credited twice.
   */
  lemma {:induction false} CollideCredits(f: Field, n: nat)
    requires n <= |f.projectiles|
    ensures CollideFrom(f, n).gold - f.gold == TotalReward(CollideFrom(f, n).enemies) - TotalReward(f.enemies)
    ensures CollideFrom(f, n).score - f.score == 10.0 * (TotalReward(CollideFrom(f, n).enemies) - TotalReward(f.enemies))
    ensures TotalReward(f.enemies) == 0.0 ==>
      var r := CollideFrom(f, n);
      r.gold + TotalReward(r.enemies) == f.gold + 2.0 * TotalReward(r.enemies)
    decreases n
  {
    if n > 0 {
      HitCredits(f, n - 1);
      CollideCredits(Hit(f, n - 1), n - 1);
    }
  }

  /** One more projectile of the backward collision loop. */
  lemma CollideStep(f: Field, i: nat, n: nat)
    requires 0 < i <= n <= |f.projectiles|
    ensures CollideFrom(f, i) == CollideFrom(Hit(f, i - 1), i - 1)
  {
  }

  // ---------------------------------------------------------------------
  // Clicks on the board

  /** A click selects a slot within 20 units. */
  const SlotRadius: real := 20.0

  /** The first slot within 20 units of `p` (`findNearestTowerPosition`). */
  function SlotNear(slots: seq<Position>, p: Position): (r: Option<nat>)
    ensures r.Some? ==> r.value < |slots| && Within(p, slots[r.value], SlotRadius)
    ensures r.Some? ==> forall j :: 0 <= j < r.value ==> !Within(p, slots[j], SlotRadius)
    ensures r.None? ==> forall j :: 0 <= j < |slots| ==> !Within(p, slots[j], SlotRadius)
  {
    if slots == [] then None
    else if Within(p, slots[0], SlotRadius) then Some(0)
    else match SlotNear(slots[1..], p)
      case None => None
      case Some(k) => Some(k + 1)
  }

  lemma SquareGrows(u: real, v: real)
    requires 0.0 <= v < u
    ensures v * v < u * u
  {
    assert u * u - v * v == (u - v) * (u + v);
    MulNonNegative(u - v, u + v);
    assert (u - v) * (u + v) != 0.0;
  }

  /** A point within `r` of another is within `r` of it along each axis. */
  lemma AxisClose(a: Position, b: Position, r: real)
    requires Within(a, b, r)
    ensures Abs(a.x - b.x) <= r && Abs(a.y - b.y) <= r
  {
    var dx, dy := Abs(a.x - b.x), Abs(a.y - b.y);
    assert dx * dx == (a.x - b.x) * (a.x - b.x) && dy * dy == (a.y - b.y) * (a.y - b.y);
    MulNonNegative(dx, dx);
    MulNonNegative(dy, dy);
    if dx > r {
      SquareGrows(dx, r);
    }
    if dy > r {
      SquareGrows(dy, r);
    }
  }

  /** Any two tower slots are more than 40 units apart along one axis. */
  lemma SlotsApart()
    ensures forall i, j :: 0 <= i < j < |TowerPositions| ==>
      Abs(TowerPositions[i].x - TowerPositions[j].x) > 2.0 * SlotRadius ||
      Abs(TowerPositions[i].y - TowerPositions[j].y) > 2.0 * SlotRadius
  {
  }

  /** No click is within reach of two slots, so the first slot found is the only one. */
  lemma SlotUnique(p: Position, i: nat, j: nat)
    requires i < |TowerPositions| && j < |TowerPositions|
    requires Within(p, TowerPositions[i], SlotRadius) && Within(p, TowerPositions[j], SlotRadius)
    ensures i == j
  {
    AxisClose(p, TowerPositions[i], SlotRadius);
    AxisClose(p, TowerPositions[j], SlotRadius);
    SlotsApart();
    if i < j {
      assert false;
    } else if j < i {
      assert false;
    }
  }

  // ---------------------------------------------------------------------
  // End of a tick

  datatype Outcome = GameOver | Victory | RoundOver | Continue

  /**
   * How a tick ends, from the live-enemy count, the round and the two
   * activity flags: 40 live enemies end the game whatever else holds; then
   * a cleared board past round 50 is a victory; then a cleared board with
   * the wave spent and the round running moves to the next round.
   */
  function Verdict(live: nat, round: int, waveActive: bool, roundActive: bool): (o: Outcome)
    ensures o == GameOver <==> live >= MaxEnemyCount
    ensures o == Victory <==> live == 0 && round > TotalRounds
    ensures o == RoundOver <==> live == 0 && round <= TotalRounds && !waveActive && roundActive
  {
    if live >= MaxEnemyCount then GameOver
    else if round > TotalRounds && live == 0 then Victory
    else if live == 0 && !waveActive && roundActive then RoundOver
    else Continue
  }
}
