/**
 * The static tables the simulation reads: board geometry, limits, tower base
 * stats, enemy archetype stats, per-element upgrade ladders, the fifty-round
 * wave schedule and the shop catalogue.
 */
module GameConfig {
  import opened GameTypes

  const CanvasWidth: real := 1200.0
  const CanvasHeight: real := 800.0
  const MaxLives: int := 20
  const StartingGold: real := 100.0
  const TotalRounds: int := 50
  const RoundTimeLimit: real := 60000.0
  /** Live-enemy count at which the game is lost. */
  const MaxEnemyCount: nat := 40

  /** The closed loop the enemies circulate on. */
  const PathPoints: seq<Position> := [
    Position(0.0, 400.0), Position(200.0, 400.0), Position(200.0, 200.0),
    Position(400.0, 200.0), Position(400.0, 600.0), Position(600.0, 600.0),
    Position(600.0, 100.0), Position(800.0, 100.0), Position(800.0, 500.0),
    Position(1000.0, 500.0), Position(1000.0, 400.0), Position(800.0, 400.0),
    Position(800.0, 200.0), Position(600.0, 200.0), Position(600.0, 500.0),
    Position(400.0, 500.0), Position(400.0, 300.0), Position(200.0, 300.0),
    Position(0.0, 300.0)
  ]

  /** The slots towers can be bought on. */
  const TowerPositions: seq<Position> := [
    Position(100.0, 300.0), Position(300.0, 150.0), Position(300.0, 350.0),
    Position(500.0, 150.0), Position(500.0, 350.0), Position(500.0, 550.0),
    Position(700.0, 50.0), Position(700.0, 250.0), Position(700.0, 450.0),
    Position(900.0, 200.0), Position(900.0, 400.0), Position(900.0, 600.0)
  ]

  lemma BoardShape()
    ensures |PathPoints| == 19 && |TowerPositions| == 12 && MaxEnemyCount == 40
    ensures PathPoints[0] == Position(0.0, 400.0)
  {
  }

  datatype TowerConfig = TowerConfig(
    element: Element,
    damage: real,
    range: real,
    attackSpeed: real,
    cost: real,
    upgradeCost: real)

  /** Base stats of a freshly bought tower of each element. */
  function TowerBase(el: Element): (c: TowerConfig)
    ensures c.element == el
    ensures c.damage == Ladder(el)[0].damage && c.range == Ladder(el)[0].range
    ensures c.attackSpeed == Ladder(el)[0].attackSpeed
    ensures c.upgradeCost == Ladder(el)[1].cost
  {
    match el
    case Fire => TowerConfig(Fire, 25.0, 120.0, 1000.0, 50.0, 30.0)
    case Ice => TowerConfig(Ice, 20.0, 100.0, 1200.0, 40.0, 25.0)
    case Poison => TowerConfig(Element.Poison, 15.0, 110.0, 1500.0, 60.0, 35.0)
    case Lightning => TowerConfig(Lightning, 30.0, 130.0, 800.0, 70.0, 40.0)
    case Physical => TowerConfig(Physical, 35.0, 90.0, 1000.0, 45.0, 30.0)
  }

  datatype EnemyConfig = EnemyConfig(maxHealth: real, speed: real, reward: real, size: Size)

  /** Archetype stats; every archetype starts with positive health. */
  function EnemyStats(t: EnemyType): (c: EnemyConfig)
    ensures c.maxHealth > 0.0 && c.speed > 0.0 && c.reward > 0.0
  {
    match t
    case Basic => EnemyConfig(80.0, 0.4, 15.0, Size(20.0, 20.0))
    case Fast => EnemyConfig(50.0, 0.8, 20.0, Size(15.0, 15.0))
    case Tank => EnemyConfig(250.0, 0.2, 35.0, Size(25.0, 25.0))
    case Flying => EnemyConfig(70.0, 0.6, 25.0, Size(18.0, 18.0))
    case Armored => EnemyConfig(150.0, 0.3, 40.0, Size(22.0, 22.0))
    case Regenerating => EnemyConfig(120.0, 0.4, 45.0, Size(20.0, 20.0))
    case Splitter => EnemyConfig(90.0, 0.5, 30.0, Size(20.0, 20.0))
    case Shielded => EnemyConfig(110.0, 0.4, 35.0, Size(20.0, 20.0))
    case Teleporter => EnemyConfig(70.0, 0.6, 40.0, Size(18.0, 18.0))
    case Boss => EnemyConfig(800.0, 0.12, 150.0, Size(40.0, 40.0))
  }

  /**
   * The upgrade ladder of an element: four rows, row i describing level i+1.
   * `LadderRises` states how the rows grow.
   */
  function Ladder(el: Element): (rows: seq<UpgradeInfo>)
    ensures |rows| == 4 && rows[0].cost == 0.0
  {
    match el
    case Fire => FireLadder
    case Ice => IceLadder
    case Poison => PoisonLadder
    case Lightning => LightningLadder
    case Physical => PhysicalLadder
  }

  const FireLadder: seq<UpgradeInfo> := [
    UpgradeInfo(1, 25.0, 120.0, 1000.0, 0.0), UpgradeInfo(2, 40.0, 140.0, 900.0, 30.0),
    UpgradeInfo(3, 60.0, 160.0, 800.0, 50.0), UpgradeInfo(4, 90.0, 180.0, 700.0, 80.0)]
  const IceLadder: seq<UpgradeInfo> := [
    UpgradeInfo(1, 20.0, 100.0, 1200.0, 0.0), UpgradeInfo(2, 35.0, 120.0, 1100.0, 25.0),
    UpgradeInfo(3, 55.0, 140.0, 1000.0, 40.0), UpgradeInfo(4, 80.0, 160.0, 900.0, 65.0)]
  const PoisonLadder: seq<UpgradeInfo> := [
    UpgradeInfo(1, 15.0, 110.0, 1500.0, 0.0), UpgradeInfo(2, 25.0, 130.0, 1400.0, 35.0),
    UpgradeInfo(3, 40.0, 150.0, 1300.0, 55.0), UpgradeInfo(4, 60.0, 170.0, 1200.0, 85.0)]
  const LightningLadder: seq<UpgradeInfo> := [
    UpgradeInfo(1, 30.0, 130.0, 800.0, 0.0), UpgradeInfo(2, 50.0, 150.0, 700.0, 40.0),
    UpgradeInfo(3, 80.0, 170.0, 600.0, 65.0), UpgradeInfo(4, 120.0, 190.0, 500.0, 100.0)]
  const PhysicalLadder: seq<UpgradeInfo> := [
    UpgradeInfo(1, 35.0, 90.0, 1000.0, 0.0), UpgradeInfo(2, 55.0, 110.0, 900.0, 30.0),
    UpgradeInfo(3, 85.0, 130.0, 800.0, 50.0), UpgradeInfo(4, 130.0, 150.0, 700.0, 80.0)]

  /** Row `b` is one level above row `a`: stronger, farther, faster, dearer. */
  predicate StepUp(a: UpgradeInfo, b: UpgradeInfo)
  {
    b.level == a.level + 1 && a.damage < b.damage && a.range < b.range &&
    a.attackSpeed > b.attackSpeed && a.cost < b.cost
  }

  /** A four-row ladder starting at level 1 with positive stats that steps up row by row. */
  predicate LadderOk(rows: seq<UpgradeInfo>)
  {
    |rows| == 4 && rows[0].level == 1 &&
    rows[0].damage > 0.0 && rows[0].range > 0.0 && rows[3].attackSpeed > 0.0 &&
    StepUp(rows[0], rows[1]) && StepUp(rows[1], rows[2]) && StepUp(rows[2], rows[3])
  }

  /**
   * Every ladder has four rows, row i is level i+1, every row has positive
   * damage, range and cooldown, and each step up raises damage, range and
   * cost and shortens the cooldown.
   */
  lemma LadderRises(el: Element)
    ensures LadderOk(Ladder(el))
    ensures forall i :: 0 <= i < 4 ==> Ladder(el)[i].level == i + 1
    ensures forall i :: 0 <= i < 3 ==> StepUp(Ladder(el)[i], Ladder(el)[i + 1])
    ensures forall i :: 0 <= i < 4 ==>
      Ladder(el)[i].damage > 0.0 && Ladder(el)[i].range > 0.0 && Ladder(el)[i].attackSpeed > 0.0
  {
    match el
    case Fire => assert LadderOk(FireLadder);
    case Ice => assert LadderOk(IceLadder);
    case Poison => assert LadderOk(PoisonLadder);
    case Lightning => assert LadderOk(LightningLadder);
    case Physical => assert LadderOk(PhysicalLadder);
  }

  lemma FireLevelTwo()
    ensures Ladder(Fire)[1] == UpgradeInfo(2, 40.0, 140.0, 900.0, 30.0)
    ensures TowerBase(Fire).damage == 25.0
  {
  }

  /** The fifty-round schedule, one row per round; every tenth round is a boss round. */
  const Waves: seq<Wave> :=
    RoundsOneToTen + RoundsElevenToTwenty + RoundsTwentyOneToThirty + RoundsThirtyOneToForty + RoundsFortyOneToFifty

  /** Rounds 1-10. */
  const RoundsOneToTen: seq<Wave> := [
    Wave(1, [EnemySpawn(Basic, 8, 0.0, 600.0)], false, None),
    Wave(2, [EnemySpawn(Basic, 12, 0.0, 500.0)], false, None),
    Wave(3, [EnemySpawn(Fast, 10, 0.0, 800.0)], false, None),
    Wave(4, [EnemySpawn(Basic, 15, 0.0, 400.0)], false, None),
    Wave(5, [EnemySpawn(Tank, 5, 0.0, 1200.0)], false, None),
    Wave(6, [EnemySpawn(Basic, 12, 0.0, 500.0), EnemySpawn(Fast, 8, 1500.0, 700.0)], false, None),
    Wave(7, [EnemySpawn(Flying, 8, 0.0, 1000.0)], false, None),
    Wave(8, [EnemySpawn(Tank, 8, 0.0, 1000.0)], false, None),
    Wave(9, [EnemySpawn(Basic, 18, 0.0, 300.0), EnemySpawn(Fast, 10, 2000.0, 500.0)], false, None),
    Wave(10, [], true, Some(Boss))
  ]

  /** Rounds 11-20. */
  const RoundsElevenToTwenty: seq<Wave> := [
    Wave(11, [EnemySpawn(Armored, 4, 0.0, 2000.0)], false, None),
    Wave(12, [EnemySpawn(Basic, 15, 0.0, 400.0)], false, None),
    Wave(13, [EnemySpawn(Regenerating, 6, 0.0, 1800.0)], false, None),
    Wave(14, [EnemySpawn(Flying, 8, 0.0, 1200.0)], false, None),
    Wave(15, [EnemySpawn(Tank, 8, 0.0, 1000.0)], false, None),
    Wave(16, [EnemySpawn(Splitter, 5, 0.0, 2000.0)], false, None),
    Wave(17, [EnemySpawn(Armored, 6, 0.0, 1500.0), EnemySpawn(Flying, 4, 2000.0, 1000.0)], false, None),
    Wave(18, [EnemySpawn(Regenerating, 8, 0.0, 1200.0)], false, None),
    Wave(19, [EnemySpawn(Basic, 20, 0.0, 300.0), EnemySpawn(Fast, 10, 2000.0, 600.0)], false, None),
    Wave(20, [], true, Some(Boss))
  ]

  /** Rounds 21-30. */
  const RoundsTwentyOneToThirty: seq<Wave> := [
    Wave(21, [EnemySpawn(Shielded, 6, 0.0, 1500.0)], false, None),
    Wave(22, [EnemySpawn(Teleporter, 5, 0.0, 2000.0)], false, None),
    Wave(23, [EnemySpawn(Armored, 10, 0.0, 800.0)], false, None),
    Wave(24, [EnemySpawn(Regenerating, 10, 0.0, 1000.0)], false, None),
    Wave(25, [EnemySpawn(Splitter, 8, 0.0, 1200.0)], false, None),
    Wave(26, [EnemySpawn(Shielded, 8, 0.0, 1000.0), EnemySpawn(Flying, 6, 2000.0, 800.0)], false, None),
    Wave(27, [EnemySpawn(Teleporter, 8, 0.0, 1200.0)], false, None),
    Wave(28, [EnemySpawn(Tank, 12, 0.0, 600.0)], false, None),
    Wave(29, [EnemySpawn(Basic, 30, 0.0, 200.0), EnemySpawn(Fast, 15, 1000.0, 400.0)], false, None),
    Wave(30, [], true, Some(Boss))
  ]

  /** Rounds 31-40. */
  const RoundsThirtyOneToForty: seq<Wave> := [
    Wave(31, [EnemySpawn(Armored, 15, 0.0, 500.0)], false, None),
    Wave(32, [EnemySpawn(Regenerating, 12, 0.0, 800.0)], false, None),
    Wave(33, [EnemySpawn(Shielded, 10, 0.0, 1000.0)], false, None),
    Wave(34, [EnemySpawn(Teleporter, 10, 0.0, 1000.0)], false, None),
    Wave(35, [EnemySpawn(Splitter, 12, 0.0, 800.0)], false, None),
    Wave(36, [EnemySpawn(Flying, 15, 0.0, 600.0)], false, None),
    Wave(37, [EnemySpawn(Tank, 15, 0.0, 500.0)], false, None),
    Wave(38, [EnemySpawn(Armored, 12, 0.0, 600.0), EnemySpawn(Regenerating, 8, 2000.0, 800.0)], false, None),
    Wave(39, [EnemySpawn(Basic, 40, 0.0, 150.0), EnemySpawn(Fast, 20, 1000.0, 300.0)], false, None),
    Wave(40, [], true, Some(Boss))
  ]

  /** Rounds 41-50. */
  const RoundsFortyOneToFifty: seq<Wave> := [
    Wave(41, [EnemySpawn(Shielded, 15, 0.0, 600.0)], false, None),
    Wave(42, [EnemySpawn(Teleporter, 12, 0.0, 800.0)], false, None),
    Wave(43, [EnemySpawn(Splitter, 15, 0.0, 600.0)], false, None),
    Wave(44, [EnemySpawn(Regenerating, 15, 0.0, 600.0)], false, None),
    Wave(45, [EnemySpawn(Armored, 20, 0.0, 400.0)], false, None),
    Wave(46, [EnemySpawn(Flying, 20, 0.0, 400.0)], false, None),
    Wave(47, [EnemySpawn(Tank, 20, 0.0, 400.0)], false, None),
    Wave(48, [EnemySpawn(Shielded, 12, 0.0, 500.0), EnemySpawn(Teleporter, 8, 1000.0, 700.0)], false, None),
    Wave(49, [EnemySpawn(Basic, 50, 0.0, 100.0), EnemySpawn(Fast, 25, 500.0, 200.0)], false, None),
    Wave(50, [], true, Some(Boss))
  ]

  /** The shape every schedule entry must have for its round number. */
  predicate WaveRowOk(w: Wave, i: nat)
  {
    && w.round == i + 1
    && (w.isBossWave <==> (i + 1) % 10 == 0)
    && (w.isBossWave ==> w.enemies == [] && w.bossType == Some(Boss))
    && (!w.isBossWave ==> |w.enemies| > 0 && w.bossType == None && EntriesPositive(w.enemies))
  }

  /** Every entry spawns at least one enemy, at a positive interval. */
  predicate EntriesPositive(entries: seq<EnemySpawn>)
  {
    forall j :: 0 <= j < |entries| ==> entries[j].count > 0 && entries[j].interval > 0.0
  }

  /** Rows `k..` of `rows` are well formed, row `j` being round `base + j + 1`. */
  predicate RowsFrom(rows: seq<Wave>, base: nat, k: nat)
    decreases |rows| - k
  {
    k >= |rows| || (WaveRowOk(rows[k], base + k) && RowsFrom(rows, base, k + 1))
  }

  lemma {:induction false} RowsFromAll(rows: seq<Wave>, base: nat, k: nat, i: nat)
    requires RowsFrom(rows, base, k) && k <= i < |rows|
    ensures WaveRowOk(rows[i], base + i)
    decreases i - k
  {
    if k < i {
      RowsFromAll(rows, base, k + 1, i);
    }
  }

  /** Well-formedness of a later block carries over to the same rows of a concatenation. */
  lemma {:induction false} RowsShift(a: seq<Wave>, b: seq<Wave>, base: nat, j: nat)
    requires RowsFrom(b, base + |a|, j)
    ensures RowsFrom(a + b, base, |a| + j)
    decreases |b| - j
  {
    if j < |b| {
      assert (a + b)[|a| + j] == b[j];
      RowsShift(a, b, base, j + 1);
    }
  }

  /** Two well-formed blocks, the second numbered after the first, make a well-formed block. */
  lemma {:induction false} RowsJoin(a: seq<Wave>, b: seq<Wave>, base: nat, k: nat)
    requires RowsFrom(a, base, k) && RowsFrom(b, base + |a|, 0) && k <= |a|
    ensures RowsFrom(a + b, base, k)
    decreases |a| - k
  {
    if k == |a| {
      RowsShift(a, b, base, 0);
    } else {
      assert (a + b)[k] == a[k];
      RowsJoin(a, b, base, k + 1);
    }
  }

  lemma DecadeOne()
    ensures RowsFrom(RoundsOneToTen, 0, 0)
  {
    assert RowsFrom(RoundsOneToTen, 0, 5);
  }

  lemma DecadeTwo()
    ensures RowsFrom(RoundsElevenToTwenty, 10, 0)
  {
    assert RowsFrom(RoundsElevenToTwenty, 10, 5);
  }

  lemma DecadeThree()
    ensures RowsFrom(RoundsTwentyOneToThirty, 20, 0)
  {
    assert RowsFrom(RoundsTwentyOneToThirty, 20, 5);
  }

  lemma DecadeFour()
    ensures RowsFrom(RoundsThirtyOneToForty, 30, 0)
  {
    assert RowsFrom(RoundsThirtyOneToForty, 30, 5);
  }

  lemma DecadeFive()
    ensures RowsFrom(RoundsFortyOneToFifty, 40, 0)
  {
    assert RowsFrom(RoundsFortyOneToFifty, 40, 5);
  }

  /** The whole schedule is well formed, decade after decade. */
  lemma ScheduleWellFormed()
    ensures RowsFrom(Waves, 0, 0)
  {
    var ab := RoundsOneToTen + RoundsElevenToTwenty;
    var abc := ab + RoundsTwentyOneToThirty;
    var abcd := abc + RoundsThirtyOneToForty;
    DecadeOne();
    DecadeTwo();
    RowsJoin(RoundsOneToTen, RoundsElevenToTwenty, 0, 0);
    DecadeThree();
    RowsJoin(ab, RoundsTwentyOneToThirty, 0, 0);
    DecadeFour();
    RowsJoin(abc, RoundsThirtyOneToForty, 0, 0);
    DecadeFive();
    RowsJoin(abcd, RoundsFortyOneToFifty, 0, 0);
  }

  /**
   * The schedule has one row per round, row i is round i+1, rounds
   * 10/20/30/40/50 are boss rounds with no regular entries, and every other
   * round has entries with positive count and interval.
   */
  lemma WaveTable()
    ensures |Waves| == TotalRounds
    ensures forall i :: 0 <= i < |Waves| ==> WaveRowOk(Waves[i], i)
  {
    ScheduleWellFormed();
    forall i | 0 <= i < |Waves|
      ensures WaveRowOk(Waves[i], i)
    {
      RowsFromAll(Waves, 0, 0, i);
    }
  }

  const ShopItems: seq<ShopItem> := [
    ShopItem("fire-tower", 50.0, TowerItem(Fire)),
    ShopItem("ice-tower", 40.0, TowerItem(Ice)),
    ShopItem("poison-tower", 60.0, TowerItem(Element.Poison)),
    ShopItem("lightning-tower", 70.0, TowerItem(Lightning)),
    ShopItem("physical-tower", 45.0, TowerItem(Physical)),
    ShopItem("bomb", 30.0, AbilityItem(Ability.Bomb)),
    ShopItem("time-stop", 50.0, AbilityItem(TimeStop)),
    ShopItem("heal", 40.0, AbilityItem(Heal)),
    ShopItem("shield", 60.0, AbilityItem(Ability.Shield))
  ]

  /** A tower item is priced at the base cost of its element's tower. */
  lemma ShopPrices()
    ensures |ShopItems| == 9
    ensures forall i :: 0 <= i < |ShopItems| && ShopItems[i].kind.TowerItem? ==>
      ShopItems[i].cost == TowerBase(ShopItems[i].kind.element).cost
  {
  }

  /** The first shop item with identifier `id` (`SHOP_ITEMS.find`). */
  function FindItem(id: string): (r: Option<ShopItem>)
    ensures r.Some? ==> r.value in ShopItems && r.value.id == id
    ensures r.None? ==> forall it :: it in ShopItems ==> it.id != id
  {
    FindItemFrom(ShopItems, id)
  }

  function FindItemFrom(items: seq<ShopItem>, id: string): (r: Option<ShopItem>)
    ensures r.Some? ==> r.value in items && r.value.id == id
    ensures r.None? ==> forall it :: it in items ==> it.id != id
  {
    if items == [] then None
    else if items[0].id == id then Some(items[0])
    else FindItemFrom(items[1..], id)
  }
}
