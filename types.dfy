/**
 * The records of the tower-defence simulation: positions, enemies, towers,
 * status effects, waves, shop items and the authoritative game state.
 * Numbers are exact reals; identifiers built from counters are naturals.
 */
module GameTypes {

  datatype Option<+T> = None | Some(value: T)

  /** A point (or a vector) on the canvas. */
  datatype Position = Position(x: real, y: real)

  datatype Size = Size(width: real, height: real)

  /** Squared Euclidean distance; every distance test of the core is decided on it. */
  function DistSq(a: Position, b: Position): real
  {
    (a.x - b.x) * (a.x - b.x) + (a.y - b.y) * (a.y - b.y)
  }

  /** `sqrt(DistSq(a, b)) <= radius`, decided without the square root. */
  predicate Within(a: Position, b: Position, radius: real)
  {
    radius >= 0.0 && DistSq(a, b) <= radius * radius
  }

  function Min(a: real, b: real): real
  {
    if a <= b then a else b
  }

  function Max(a: real, b: real): real
  {
    if a >= b then a else b
  }

  function Abs(a: real): real
  {
    if a < 0.0 then -a else a
  }

  /**
   * Movement geometry. `step(from, to, d)` is the point reached by moving
   * `from` a distance `d` toward `to` (the normalised-vector arithmetic of the
   * game). It is a parameter of the model: square roots are not modelled.
   */
  type Stepper = (Position, Position, real) -> Position

  datatype Element = Fire | Ice | Poison | Lightning | Physical

  datatype EnemyType =
    | Basic | Fast | Tank | Flying | Armored
    | Regenerating | Splitter | Shielded | Teleporter | Boss

  /** The kinds of status effect an enemy can carry. */
  datatype StatusType = Burn | Freeze | Poison | Shock | Slow | Shield

  /**
   * A status effect on an enemy. `damage` is damage per second and
   * `speedMultiplier` scales movement; both are optional, as in the game.
   */
  datatype StatusEffect = StatusEffect(
    kind: StatusType,
    duration: real,
    damage: Option<real>,
    speedMultiplier: Option<real>)

  /**
   * An enemy. `id` is the counter behind the game's `enemy-<n>` identifier.
   * The rendering-only velocity is not part of the model.
   */
  datatype Enemy = Enemy(
    id: nat,
    kind: EnemyType,
    position: Position,
    maxHealth: real,
    currentHealth: real,
    speed: real,
    reward: real,
    size: Size,
    effects: seq<StatusEffect>,
    pathIndex: nat,
    isDead: bool)

  /** A tower; `target` records the id of the enemy it last fired at. */
  datatype Tower = Tower(
    id: nat,
    position: Position,
    element: Element,
    level: nat,
    damage: real,
    range: real,
    attackSpeed: real,
    cost: real,
    upgradeCost: real,
    lastAttackTime: real,
    target: Option<nat>)

  /** A homing projectile; its target is re-resolved by id on every tick. */
  datatype Projectile = Projectile(
    from: Position,
    to: Position,
    element: Element,
    damage: real,
    speed: real,
    progress: real,
    targetId: nat)

  /** One entry of a wave schedule. */
  datatype EnemySpawn = EnemySpawn(kind: EnemyType, count: nat, delay: real, interval: real)

  datatype Wave = Wave(
    round: nat,
    enemies: seq<EnemySpawn>,
    isBossWave: bool,
    bossType: Option<EnemyType>)

  datatype Ability = Bomb | TimeStop | Heal | Shield

  /** Remaining uses of each special ability. */
  datatype Charges = Charges(bomb: int, timeStop: int, heal: int, shield: int)
  {
    function Get(a: Ability): int
    {
      match a
      case Bomb => bomb
      case TimeStop => timeStop
      case Heal => heal
      case Shield => shield
    }

    /** The counters with exactly the one for `a` lowered by one. */
    function Spend(a: Ability): (c: Charges)
      ensures c.Get(a) == Get(a) - 1
      ensures forall b :: b != a ==> c.Get(b) == Get(b)
    {
      match a
      case Bomb => this.(bomb := bomb - 1)
      case TimeStop => this.(timeStop := timeStop - 1)
      case Heal => this.(heal := heal - 1)
      case Shield => this.(shield := shield - 1)
    }
  }

  datatype GameState = GameState(
    round: int,
    lives: int,
    gold: real,
    score: real,
    isPaused: bool,
    isGameOver: bool,
    isVictory: bool,
    roundTimeLeft: real,
    timeStopDuration: real,
    abilities: Charges)

  /** What a shop item sells: a tower of an element or an ability. */
  datatype ShopKind = TowerItem(element: Element) | AbilityItem(ability: Ability)

  datatype ShopItem = ShopItem(id: string, cost: real, kind: ShopKind)

  /** One row of a tower's upgrade ladder. */
  datatype UpgradeInfo = UpgradeInfo(level: nat, damage: real, range: real, attackSpeed: real, cost: real)

  // Sequence facts for loops that walk a list and rewrite it in place:
  // the first `i` elements are done, the rest still as they were.

  /** The element at the boundary of a partly processed list. */
  lemma ConsumeOne<T>(done: seq<T>, orig: seq<T>, i: nat)
    requires |done| == i < |orig|
    ensures (done + orig[i..])[i] == orig[i]
  {
  }

  /** Replacing the element at the boundary moves the boundary by one. */
  lemma ReplaceOne<T>(done: seq<T>, x: T, orig: seq<T>, i: nat)
    requires |done| == i < |orig|
    ensures (done + orig[i..])[i := x] == done + [x] + orig[i + 1..]
  {
    assert orig[i..] == [orig[i]] + orig[i + 1..];
  }

  /** The walk's list: the element at the cursor is the original one. */
  lemma Window<T>(done: seq<T>, orig: seq<T>, queued: seq<T>, i: nat)
    requires |done| == i < |orig|
    ensures (done + orig[i..] + queued)[i] == orig[i]
  {
  }

  /** The walk's list after the cursor moves on. */
  lemma WindowMoved<T>(done: seq<T>, x: T, orig: seq<T>, queued: seq<T>, more: seq<T>, i: nat)
    requires |done| == i < |orig|
    ensures (done + orig[i..] + queued)[i := x] + more == (done + [x]) + orig[i + 1..] + (queued + more)
  {
    assert orig[i..] == [orig[i]] + orig[i + 1..];
  }
}
