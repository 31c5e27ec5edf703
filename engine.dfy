/**
 * The game engine: it owns the four managers and the game state, turns
 * clicks and key presses into purchases, selections, upgrades and
 * abilities, and runs the per-frame tick.
 */
module Engine {
  import opened GameTypes
  import opened GameConfig
  import opened Enemies
  import opened Towers
  import opened Waves
  import opened Effects
  import opened Rules

  /**
   * A new wave's boss arrives alive, so it adds nothing to the sum of dead
   * rewards, and it adds at most one enemy to the live ones.
   */
  lemma BossUnrewarded(es: seq<Enemy>, w: Wave, id: nat)
    ensures TotalReward(es + WaveBoss(w, id)) == TotalReward(es)
    ensures |Live(es + WaveBoss(w, id))| <= |Live(es)| + 1
  {
    TotalRewardAppend(es, WaveBoss(w, id));
    LiveAppend(es, WaveBoss(w, id));
    if WaveBoss(w, id) != [] {
      assert WaveBoss(w, id)[..0] == [];
    }
  }

  /** Two game states that agree on everything but gold and score. */
  lemma SameButPurse(a: GameState, b: GameState)
    requires a.(gold := 0.0, score := 0.0) == b.(gold := 0.0, score := 0.0)
    ensures a == b.(gold := a.gold, score := a.score)
  {
  }

  /** The time in milliseconds between the previous frame at `last` and this one at `now`. */
  function Elapsed(now: real, last: real): real
  {
    now - last
  }

  /** What a tick reads of the game when it starts. */
  datatype Before = Before(
    enemies: seq<Enemy>, nextId: nat,
    wave: Option<Wave>, timers: seq<SpawnTimer>, waveActive: bool,
    towers: seq<Tower>, projectiles: seq<Projectile>, effects: seq<GameEffect>,
    gold: real, score: real, round: int, isGameOver: bool, isVictory: bool, roundActive: bool)

  /**
   * The game between the stages of a tick: the enemies once the wave has
   * brought its arrivals, the wave's timers and whether it still runs, the
   * enemies after their own update, the towers and projectiles after the
   * attack, homing and collisions, the enemies after the collisions, the
   * effects after their update, and the verdict on that board; `nextId` is
   * the enemy counter the enemy update leaves.
   */
  datatype Stages = Stages(
    arrived: seq<Enemy>, timers: seq<SpawnTimer>, waveActive: bool,
    walked: seq<Enemy>, nextId: nat, towers: seq<Tower>, projectiles: seq<Projectile>,
    fought: seq<Enemy>, effects: seq<GameEffect>, outcome: Outcome)

  /**
   * The wave stage of a tick from `b`: a running wave steps its timers and
   * each due timer brings one enemy of its kind; the result is the enemies,
   * the id counter, the timers and whether the wave still runs.
   */
  ghost function Arrivals(running: bool, ts: seq<SpawnTimer>, active: bool, es: seq<Enemy>, id: nat, now: real)
    : (seq<Enemy>, nat, seq<SpawnTimer>, bool)
  {
    if running then
      var kinds := SpawnedKinds(ts, now);
      var arrived := es + Batch(kinds, id);
      var timers := TimersPass(ts, now);
      (arrived, id + |kinds|, timers, !(AllSpawned(timers) && |Live(arrived)| == 0))
    else (es, id, ts, active)
  }

  /**
   * The enemy stage: every enemy present is ticked, split children queue
   * behind, the dead are dropped; the result is the enemies and the counter.
   */
  ghost function Marched(es: seq<Enemy>, id: nat, dt: real, step: Stepper, jump: nat -> Option<real>): (seq<Enemy>, nat)
  {
    var p := UpdatePass(es, id, Ticker(dt, PathPoints, step, jump));
    (Live(p.ticked + p.spawned), p.nextId)
  }

  /**
   * The towers' stage on the enemies `es`: every tower attacks the live
   * enemies, the projectiles (the new ones behind the old) home in, and the
   * collision loop runs from the last projectile to the first.
   */
  ghost function Fought(es: seq<Enemy>, ts: seq<Tower>, ps: seq<Projectile>, gold: real, score: real,
                        dt: real, now: real, step: Stepper): (seq<Tower>, Field)
  {
    var shots := AttackAll(ts, Live(es), now);
    var aimed := Homing(ps + shots.1, Live(es), dt, step);
    (shots.0, CollideFrom(Field(es, aimed, gold, score), |aimed|))
  }

  /**
   * The running tick of `update`, stage by stage, from `b`: the wave, the
   * enemies, the towers and collisions, the effects, and `Verdict` on the
   * board the collisions leave.
   */
  ghost function TickOf(b: Before, dt: real, now: real, step: Stepper, jump: nat -> Option<real>): Stages
  {
    var a := Arrivals(b.waveActive && b.wave.Some?, b.timers, b.waveActive, b.enemies, b.nextId, now);
    var walked := Marched(a.0, a.1, dt, step, jump);
    var f := Fought(walked.0, b.towers, b.projectiles, b.gold, b.score, dt, now, step);
    Stages(a.0, a.2, a.3, walked.0, walked.1, f.0, f.1.projectiles, f.1.enemies,
      Active(AdvanceAll(b.effects, dt)), Verdict(|Live(f.1.enemies)|, b.round, a.3, b.roundActive))
  }

  /**
   * What a change of round touches: the game state, whether a round is
   * running, the enemies and their id counter, and the current wave with
   * its timers and whether it is active.
   */
  datatype Round = Round(
    state: GameState, roundActive: bool, enemies: seq<Enemy>, nextId: nat,
    wave: Option<Wave>, timers: seq<SpawnTimer>, waveActive: bool)

  /**
   * The wave manager's `startWave` on `w`: the wave is current and active
   * with a fresh timer per entry, and its boss, if any, joins the enemies
   * numbered by the counter.
   */
  ghost function Launched(r: Round, w: Wave): Round
  {
    var boss := WaveBoss(w, r.nextId);
    r.(enemies := r.enemies + boss, nextId := r.nextId + |boss|,
      wave := Some(w), timers := TimersFor(w.enemies), waveActive := true)
  }

  /**
   * `startRound`: unless the game has ended, the round runs with a full
   * round timer and, up to round 50, the round's wave is launched.
   */
  ghost function StartRoundOf(r: Round): Round
    requires r.state.round >= 1
  {
    if r.state.isGameOver || r.state.isVictory then r
    else
      var running := r.(state := r.state.(roundTimeLeft := RoundTimeLimit), roundActive := true);
      if r.state.round > TotalRounds then running
      else
        WaveTable();
        Launched(running, GameConfig.Waves[r.state.round - 1])
  }

  /**
   * `nextRound`: unless the game has ended, the round stops and its counter
   * moves on; past round 50 that is a victory, otherwise the new round
   * starts. The enemies on the board stay.
   */
  ghost function NextRoundOf(r: Round): Round
    requires r.state.round >= 1
  {
    if r.state.isGameOver || r.state.isVictory then r
    else
      var moved := r.(state := r.state.(round := r.state.round + 1), roundActive := false);
      if moved.state.round <= TotalRounds then StartRoundOf(moved)
      else moved.(state := moved.state.(isVictory := true))
  }

  /**
   * The end of `update` on verdict `o`: game over, victory, the next round,
   * or nothing.
   */
  ghost function ConcludeOf(r: Round, o: Outcome): Round
    requires r.state.round >= 1
  {
    match o
    case GameOver => r.(state := r.state.(isGameOver := true))
    case Victory => r.(state := r.state.(isVictory := true))
    case RoundOver => NextRoundOf(r)
    case Continue => r
  }

  /**
   * What the end of a tick does to the game, verdict by verdict: only the
   * round, the end flags and the round timer of the state can change, so
   * lives, gold, score, pause, time stop and charges stay; the game is over
   * exactly when it was or the verdict says so; a verdict other than
   * round-over changes nothing else; a round-over verdict on a running game
   * moves to the next round, which past round 50 is a victory with no round
   * running, and otherwise starts the next wave (fresh timers, its boss
   * numbered by the counter) with a full round timer.
   */
  lemma RoundChange(r: Round, o: Outcome)
    requires r.state.round >= 1
    ensures var c := ConcludeOf(r, o);
      && c.state == r.state.(round := c.state.round, isGameOver := c.state.isGameOver,
           isVictory := c.state.isVictory, roundTimeLeft := c.state.roundTimeLeft)
      && (c.state.isGameOver <==> r.state.isGameOver || o == GameOver)
      && (o != RoundOver ==>
        && c == r.(state := c.state) && c.state.round == r.state.round
        && c.state.roundTimeLeft == r.state.roundTimeLeft
        && c.state.isVictory == (r.state.isVictory || o == Victory))
      && (o == RoundOver && (r.state.isGameOver || r.state.isVictory) ==> c == r)
      && (o == RoundOver && !(r.state.isGameOver || r.state.isVictory) ==> c.state.round == r.state.round + 1)
      && (o == RoundOver && !(r.state.isGameOver || r.state.isVictory) && r.state.round + 1 > TotalRounds ==>
        c == r.(state := c.state, roundActive := false) && c.state.isVictory
        && c.state.roundTimeLeft == r.state.roundTimeLeft)
      && (o == RoundOver && !(r.state.isGameOver || r.state.isVictory) && r.state.round + 1 <= TotalRounds ==>
        && |GameConfig.Waves| == TotalRounds
        && var w := GameConfig.Waves[r.state.round];
        && c.roundActive && c.state.roundTimeLeft == RoundTimeLimit && !c.state.isVictory
        && c.wave == Some(w) && c.waveActive && c.timers == TimersFor(w.enemies)
        && c.enemies == r.enemies + WaveBoss(w, r.nextId) && c.nextId == r.nextId + |WaveBoss(w, r.nextId)|)
  {
    WaveTable();
  }

  /** The round timer of `update`: a running round's time left drops by `dt`. */
  function Countdown(st: GameState, running: bool, dt: real): GameState
  {
    if running then st.(roundTimeLeft := st.roundTimeLeft - dt) else st
  }

  /**
   * The game a tick's verdict finds: state `st` paid twice and twenty times
   * the rewards of the enemies the towers killed; the enemies, counter,
   * timers and wave flag the stages leave; the wave and the round flag as
   * they were in `b`.
   */
  ghost function Judged(st: GameState, b: Before, s: Stages): Round
  {
    Round(Paid(st, s.fought), b.roundActive, s.fought, s.nextId, b.wave, s.timers, s.waveActive)
  }

  /**
   * State `st` once the dead among `es` are paid for twice, once by the hit
   * and once by the sweep: twice their rewards in gold, twenty times in score.
   */
  function Paid(st: GameState, es: seq<Enemy>): GameState
  {
    st.(gold := st.gold + 2.0 * TotalReward(es), score := st.score + 20.0 * TotalReward(es))
  }

  /** State `st` with `amount` more gold and ten times it more score. */
  function Credited(st: GameState, amount: real): GameState
  {
    st.(gold := st.gold + amount, score := st.score + 10.0 * amount)
  }

  /** Paying the rewards of `es` once by the hits and once by the sweep is `Paid`. */
  lemma CreditedTwice(st: GameState, es: seq<Enemy>)
    ensures Credited(Credited(st, TotalReward(es)), TotalReward(es)) == Paid(st, es)
  {
  }

  class GameEngine {
    const towerManager: TowerManager
    const enemyManager: EnemyManager
    const waveManager: WaveManager
    const effectManager: EffectManager

    var state: GameState
    var selectedTowerPosition: Option<Position>
    var selectedShopItem: Option<string>
    var isRoundActive: bool
    /** The frame time of the previous tick. */
    var lastTime: real

    /** Everything the engine holds besides the game state. */
    function Controls(): (Option<Position>, Option<string>, bool, real)
      reads this
    {
      (selectedTowerPosition, selectedShopItem, isRoundActive, lastTime)
    }

    /** What the collision loop leaves alone: all but gold and score, the towers and the enemy counter. */
    function Untouched(): (GameState, (Option<Position>, Option<string>, bool, real), seq<Tower>, nat)
      reads this, enemyManager, towerManager
    {
      (state.(gold := 0.0, score := 0.0), Controls(), towerManager.towers, enemyManager.nextEnemyId)
    }

    /** The four managers' own invariants: the engine keeps them all the game long. */
    ghost predicate Valid()
      reads this, towerManager, enemyManager, waveManager, effectManager
    {
      towerManager.Valid() && enemyManager.Valid() && waveManager.Valid() && effectManager.Valid()
    }

    /** The game as a tick starts from it. */
    ghost function Snapshot(): Before
      reads this, towerManager, enemyManager, waveManager, effectManager
    {
      Before(enemyManager.enemies, enemyManager.nextEnemyId,
        waveManager.currentWave, waveManager.spawnTimers, waveManager.isWaveActive,
        towerManager.towers, towerManager.projectiles, effectManager.effects,
        state.gold, state.score, state.round, state.isGameOver, state.isVictory, isRoundActive)
    }

    /** The engine's side of a change of round. */
    ghost function Rounds(): Round
      reads this, enemyManager, waveManager
    {
      Round(state, isRoundActive, enemyManager.enemies, enemyManager.nextEnemyId,
        waveManager.currentWave, waveManager.spawnTimers, waveManager.isWaveActive)
    }

    /**
     * The game is where the running tick from state `st` and snapshot `b`
     * leaves it: towers, projectiles and effects as `s` says, and the rest
     * as the end of `update` leaves the board the stages left, on the
     * verdict `s` names (`RoundChange` spells that out).
     */
    ghost predicate Settled(st: GameState, b: Before, s: Stages)
      reads this, towerManager, enemyManager, waveManager, effectManager
    {
      && towerManager.towers == s.towers && towerManager.projectiles == s.projectiles
      && effectManager.effects == s.effects
      && st.round >= 1 && Rounds() == ConcludeOf(Judged(st, b, s), s.outcome)
    }

    /** Index of the tower covering the selected slot, when a slot is selected (`getTowerAt` on it). */
    function SelectedIndex(): Option<nat>
      reads this, towerManager
    {
      if selectedTowerPosition.Some? then TowerAt(towerManager.towers, selectedTowerPosition.value) else None
    }

    /** The slice of the game the collision loop works on. */
    ghost function Here(): Field
      reads this, enemyManager, towerManager
    {
      Field(enemyManager.enemies, towerManager.projectiles, state.gold, state.score)
    }

    constructor ()
      ensures state == InitialState && selectedTowerPosition == None && selectedShopItem == None
      ensures !isRoundActive && lastTime == 0.0
      ensures towerManager.towers == [] && towerManager.projectiles == []
      ensures enemyManager.enemies == [] && enemyManager.Valid()
      ensures waveManager.currentWave == None && !waveManager.isWaveActive && waveManager.Valid()
      ensures effectManager.effects == [] && Valid()
    {
      state := InitialState;
      towerManager := new TowerManager();
      enemyManager := new EnemyManager();
      waveManager := new WaveManager();
      effectManager := new EffectManager();
      selectedTowerPosition := None;
      selectedShopItem := None;
      isRoundActive := false;
      lastTime := 0.0;
    }

    // -------------------------------------------------------------------
    // Input

    /** `useSpecialAbility`: spend a charge, if there is one, on the ability's effect. */
    method UseSpecialAbility(a: Ability)
      modifies this, effectManager
      ensures state == UseAbility(old(state), a) && Controls() == old(Controls())
      ensures var used := old(state.abilities.Get(a)) > 0;
        effectManager.effects == old(effectManager.effects) +
          (if used && a == Ability.Bomb then [BombBlast] else if used && a == Ability.Shield then [ShieldDome] else [])
      ensures old(Valid()) ==> Valid()
    {
      if state.abilities.Get(a) <= 0 {
        assert effectManager.effects + [] == effectManager.effects;
        return;
      }
      match a {
        case Bomb =>
          effectManager.CreateBomb();
        case TimeStop =>
          state := state.(timeStopDuration := TimeStopLength);
          assert effectManager.effects + [] == effectManager.effects;
        case Heal =>
          state := state.(lives := Smaller(state.lives + HealAmount, MaxLives));
          assert effectManager.effects + [] == effectManager.effects;
        case Shield =>
          effectManager.CreateShield();
      }
      state := state.(abilities := state.abilities.Spend(a));
    }

    /** `handleShopClick`: a click on a row of the shop selects that item and drops the tower selection. */
    method HandleShopClick(y: real)
      modifies this
      ensures ShopRow(y).Some? ==>
        selectedShopItem == Some(ShopItems[ShopRow(y).value].id) && selectedTowerPosition == None
      ensures ShopRow(y).None? ==> Controls() == old(Controls())
      ensures state == old(state) && isRoundActive == old(isRoundActive) && lastTime == old(lastTime)
      ensures old(Valid()) ==> Valid()
    {
      var k := ((y - 60.0) / 60.0).Floor;
      if 0 <= k < |ShopItems| {
        selectedShopItem := Some(ShopItems[k].id);
        selectedTowerPosition := None;
      }
    }

    /**
     * `buyTower` on slot `at`, `id` being the new tower's identifier: when
     * the selected item is an affordable tower, add a level-1 tower of its
     * element there (whether or not the slot is taken), pay for it and drop
     * the item selection; otherwise nothing.
     */
    method BuyTower(at: Position, id: nat)
      modifies this, towerManager
      ensures var it := Purchase(old(selectedShopItem), old(state.gold));
        && (it.None? ==> state == old(state) && towerManager.towers == old(towerManager.towers) && Controls() == old(Controls()))
        && (it.Some? ==>
          && state == old(state).(gold := old(state.gold) - it.value.cost)
          && towerManager.towers == old(towerManager.towers) + [BoughtTower(id, it.value.kind.element, at, it.value.cost)]
          && selectedShopItem == None)
      ensures towerManager.projectiles == old(towerManager.projectiles)
      ensures selectedTowerPosition == old(selectedTowerPosition) && isRoundActive == old(isRoundActive) && lastTime == old(lastTime)
      ensures old(Valid()) ==> Valid()
    {
      var sale := Purchase(selectedShopItem, state.gold);
      if sale.Some? {
        Sell(sale.value, at, id);
      }
    }

    /** The sale itself: the tower goes up on the slot, the gold pays its price, the item is deselected. */
    method Sell(item: ShopItem, at: Position, id: nat)
      requires item.kind.TowerItem?
      modifies this, towerManager
      ensures state == old(state).(gold := old(state.gold) - item.cost)
      ensures towerManager.towers == old(towerManager.towers) + [BoughtTower(id, item.kind.element, at, item.cost)]
      ensures towerManager.projectiles == old(towerManager.projectiles)
      ensures selectedShopItem == None && selectedTowerPosition == old(selectedTowerPosition)
      ensures isRoundActive == old(isRoundActive) && lastTime == old(lastTime)
      ensures old(Valid()) ==> Valid()
    {
      BoughtTowerOnLadder(id, item.kind.element, at, item.cost);
      towerManager.AddTower(BoughtTower(id, item.kind.element, at, item.cost));
      state := state.(gold := state.gold - item.cost);
      selectedShopItem := None;
    }

    /** `selectTower`: select the slot when a tower covers it, otherwise clear both selections. */
    method SelectTower(at: Position)
      modifies this
      ensures towerManager.GetTowerAt(at).Some? ==> selectedTowerPosition == Some(at) && selectedShopItem == None
      ensures towerManager.GetTowerAt(at).None? ==> selectedTowerPosition == None && selectedShopItem == None
      ensures state == old(state) && isRoundActive == old(isRoundActive) && lastTime == old(lastTime)
      ensures old(Valid()) ==> Valid()
    {
      var t := towerManager.GetTowerAt(at);
      if t.Some? {
        selectedTowerPosition := Some(at);
        selectedShopItem := None;
      } else {
        selectedTowerPosition := None;
        selectedShopItem := None;
      }
    }

    /** `findNearestTowerPosition`: the first slot within 20 units of the click, if any. */
    method FindNearestTowerPosition(x: real, y: real) returns (r: Option<Position>)
      ensures var k := SlotNear(TowerPositions, Position(x, y));
        r == if k.Some? then Some(TowerPositions[k.value]) else None
      ensures r.Some? ==> r.value in TowerPositions && Within(Position(x, y), r.value, SlotRadius)
    {
      var p := Position(x, y);
      for i := 0 to |TowerPositions|
        invariant forall j :: 0 <= j < i ==> !Within(p, TowerPositions[j], SlotRadius)
      {
        if Within(p, TowerPositions[i], SlotRadius) {
          SlotUnique(p, i, SlotNear(TowerPositions, p).value);
          return Some(TowerPositions[i]);
        }
      }
      return None;
    }

    /**
     * `handleTowerUpgrade` for the tower at index `k`: when the gold covers
     * its upgrade cost and the upgrade succeeds, the gold pays the upgrade
     * cost the tower holds after the upgrade.
     */
    method HandleTowerUpgrade(k: nat)
      requires k < |towerManager.towers|
      modifies this, towerManager
      ensures var ts := old(towerManager.towers); var t := ts[k];
        && (old(state.gold) < t.upgradeCost ==> towerManager.towers == ts && state == old(state))
        && (old(state.gold) >= t.upgradeCost && FindTower(ts, t.id) == Some(k) ==>
          && state == old(state).(gold := old(state.gold) - UpgradeBill(t, old(state.gold)))
          && towerManager.towers == if Upgraded(t).Some? then ts[k := Upgraded(t).value] else ts)
      ensures |towerManager.towers| == |old(towerManager.towers)|
      ensures towerManager.projectiles == old(towerManager.projectiles) && Controls() == old(Controls())
      ensures (towerManager.towers, state.gold) == UpgradeOutcome(old(towerManager.towers), k, old(state.gold))
      ensures state == old(state).(gold := state.gold)
      ensures old(Valid()) ==> Valid()
    {
      var t := towerManager.towers[k];
      if state.gold >= t.upgradeCost {
        var ok := towerManager.UpgradeTower(t.id);
        if ok {
          state := state.(gold := state.gold - towerManager.towers[k].upgradeCost);
        }
      }
    }

    /**
     * The `u` key: upgrade the tower covering the selected slot, when a slot
     * is selected and a tower covers it; otherwise nothing.
     */
    method UpgradeSelected()
      modifies this, towerManager
      ensures old(SelectedIndex()).None? ==> towerManager.towers == old(towerManager.towers) && state == old(state)
      ensures old(SelectedIndex()).Some? ==>
        && (towerManager.towers, state.gold) == UpgradeOutcome(old(towerManager.towers), old(SelectedIndex()).value, old(state.gold))
        && state == old(state).(gold := state.gold)
      ensures towerManager.projectiles == old(towerManager.projectiles) && Controls() == old(Controls())
      ensures old(Valid()) ==> Valid()
    {
      if selectedTowerPosition.Some? {
        var found := TowerAt(towerManager.towers, selectedTowerPosition.value);
        if found.Some? {
          HandleTowerUpgrade(found.value);
        }
      }
    }

    /**
     * `handleKeyPress`: space toggles the pause, `1` to `4` use the bomb,
     * time stop, heal and shield, `u` or `U` upgrades the tower at the
     * selected slot, and Escape clears both selections.
     */
    method HandleKeyPress(key: string)
      modifies this, towerManager, effectManager
      ensures key == " " ==> state == old(state).(isPaused := !old(state.isPaused)) && Controls() == old(Controls())
      ensures key == "1" ==> state == UseAbility(old(state), Ability.Bomb)
      ensures key == "2" ==> state == UseAbility(old(state), TimeStop)
      ensures key == "3" ==> state == UseAbility(old(state), Heal)
      ensures key == "4" ==> state == UseAbility(old(state), Ability.Shield)
      ensures key == "1" || key == "2" || key == "3" || key == "4" ==> Controls() == old(Controls())
      ensures key == "1" ==>
        effectManager.effects == old(effectManager.effects) + if old(state.abilities.Get(Ability.Bomb)) > 0 then [BombBlast] else []
      ensures key == "4" ==>
        effectManager.effects == old(effectManager.effects) + if old(state.abilities.Get(Ability.Shield)) > 0 then [ShieldDome] else []
      ensures key != "1" && key != "4" ==> effectManager.effects == old(effectManager.effects)
      ensures key == "Escape" ==> selectedTowerPosition == None && selectedShopItem == None && state == old(state)
      ensures key !in {" ", "1", "2", "3", "4", "u", "U", "Escape"} ==> state == old(state) && Controls() == old(Controls())
      ensures (key == "u" || key == "U") && old(SelectedIndex()).None? ==>
        towerManager.towers == old(towerManager.towers) && state == old(state) && Controls() == old(Controls())
      ensures (key == "u" || key == "U") && old(SelectedIndex()).Some? ==>
        && (towerManager.towers, state.gold) == UpgradeOutcome(old(towerManager.towers), old(SelectedIndex()).value, old(state.gold))
        && state == old(state).(gold := state.gold) && Controls() == old(Controls())
      ensures key != "u" && key != "U" ==> towerManager.towers == old(towerManager.towers)
      ensures towerManager.projectiles == old(towerManager.projectiles)
      ensures isRoundActive == old(isRoundActive) && lastTime == old(lastTime)
      ensures old(Valid()) ==> Valid()
    {
      if key == " " {
        state := state.(isPaused := !state.isPaused);
      } else if key == "1" {
        UseSpecialAbility(Ability.Bomb);
      } else if key == "2" {
        UseSpecialAbility(TimeStop);
      } else if key == "3" {
        UseSpecialAbility(Heal);
      } else if key == "4" {
        UseSpecialAbility(Ability.Shield);
      } else if key == "u" || key == "U" {
        UpgradeSelected();
      } else if key == "Escape" {
        selectedTowerPosition := None;
        selectedShopItem := None;
      }
    }

    /**
     * `handleTowerPositionClick` on slot `at`, `id` naming a tower bought by
     * this click: with a shop item selected, buy it there; otherwise select
     * the slot.
     */
    method HandleTowerPositionClick(at: Position, id: nat)
      modifies this, towerManager
      ensures old(selectedShopItem).Some? ==>
        var it := Purchase(old(selectedShopItem), old(state.gold));
        && (it.None? ==> state == old(state) && towerManager.towers == old(towerManager.towers) && Controls() == old(Controls()))
        && (it.Some? ==>
          && state == old(state).(gold := old(state.gold) - it.value.cost)
          && towerManager.towers == old(towerManager.towers) + [BoughtTower(id, it.value.kind.element, at, it.value.cost)]
          && selectedShopItem == None && selectedTowerPosition == old(selectedTowerPosition))
      ensures old(selectedShopItem).None? ==>
        && state == old(state) && towerManager.towers == old(towerManager.towers) && selectedShopItem == None
        && selectedTowerPosition == if TowerAt(old(towerManager.towers), at).Some? then Some(at) else None
      ensures towerManager.projectiles == old(towerManager.projectiles)
      ensures isRoundActive == old(isRoundActive) && lastTime == old(lastTime)
      ensures old(Valid()) ==> Valid()
    {
      if selectedShopItem.Some? {
        BuyTower(at, id);
      } else {
        SelectTower(at);
      }
    }

    /**
     * `handleClick` at `(x, y)`, `id` naming a tower bought by this click:
     * after the game ended any click restarts it; a click in the shop
     * column picks an item; a click on a slot buys the selected item there
     * or selects the slot's tower.
     */
    method HandleClick(x: real, y: real, id: nat)
      modifies this, towerManager, enemyManager, waveManager, effectManager
      ensures old(state.isGameOver || state.isVictory) ==>
        && state == InitialState && selectedTowerPosition == None && selectedShopItem == None
        && isRoundActive == old(isRoundActive) && lastTime == old(lastTime)
        && towerManager.towers == [] && towerManager.projectiles == []
        && enemyManager.enemies == [] && enemyManager.nextEnemyId == 1
        && waveManager.currentWave == None && !waveManager.isWaveActive && waveManager.spawnTimers == []
        && effectManager.effects == []
      ensures !old(state.isGameOver || state.isVictory) && x >= ShopLeft ==>
        && state == old(state) && towerManager.towers == old(towerManager.towers)
        && (ShopRow(y).Some? ==> selectedShopItem == Some(ShopItems[ShopRow(y).value].id) && selectedTowerPosition == None)
        && (ShopRow(y).None? ==> Controls() == old(Controls()))
      ensures !old(state.isGameOver || state.isVictory) && x < ShopLeft && SlotNear(TowerPositions, Position(x, y)).None? ==>
        state == old(state) && towerManager.towers == old(towerManager.towers) && Controls() == old(Controls())
      ensures !old(state.isGameOver || state.isVictory) && x < ShopLeft && SlotNear(TowerPositions, Position(x, y)).Some? ==>
        var at := TowerPositions[SlotNear(TowerPositions, Position(x, y)).value];
        && (old(selectedShopItem).Some? && Purchase(old(selectedShopItem), old(state.gold)).Some? ==>
          var it := Purchase(old(selectedShopItem), old(state.gold)).value;
          && state == old(state).(gold := old(state.gold) - it.cost)
          && towerManager.towers == old(towerManager.towers) + [BoughtTower(id, it.kind.element, at, it.cost)]
          && selectedShopItem == None)
        && (old(selectedShopItem).Some? && Purchase(old(selectedShopItem), old(state.gold)).None? ==>
          state == old(state) && towerManager.towers == old(towerManager.towers) && Controls() == old(Controls()))
        && (old(selectedShopItem).None? ==>
          && state == old(state) && towerManager.towers == old(towerManager.towers) && selectedShopItem == None
          && selectedTowerPosition == if TowerAt(old(towerManager.towers), at).Some? then Some(at) else None)
      ensures !old(state.isGameOver || state.isVictory) ==>
        unchanged(enemyManager, waveManager, effectManager) && towerManager.projectiles == old(towerManager.projectiles)
      ensures old(Valid()) ==> Valid()
    {
      if state.isGameOver || state.isVictory {
        RestartGame();
        return;
      }
      if x >= ShopLeft {
        HandleShopClick(y);
        return;
      }
      var slot := FindNearestTowerPosition(x, y);
      if slot.Some? {
        HandleTowerPositionClick(slot.value, id);
      }
    }

    // -------------------------------------------------------------------
    // Rounds

    /** `restartGame`: the initial state, every manager emptied, no selection. */
    method RestartGame()
      modifies this, towerManager, enemyManager, waveManager, effectManager
      ensures state == InitialState && selectedTowerPosition == None && selectedShopItem == None
      ensures isRoundActive == old(isRoundActive) && lastTime == old(lastTime)
      ensures towerManager.towers == [] && towerManager.projectiles == []
      ensures enemyManager.enemies == [] && enemyManager.nextEnemyId == 1 && enemyManager.Valid()
      ensures waveManager.currentWave == None && !waveManager.isWaveActive && waveManager.spawnTimers == []
      ensures effectManager.effects == [] && Valid()
    {
      state := InitialState;
      towerManager.Clear();
      enemyManager.Clear();
      waveManager.Reset();
      effectManager.Clear();
      selectedTowerPosition := None;
      selectedShopItem := None;
    }

    /**
     * `startRound`: unless the game has ended, the round becomes active
     * with a full round timer and, up to round 50, its wave starts.
     */
    method StartRound()
      requires state.round >= 1
      modifies this, waveManager, enemyManager
      ensures old(state.isGameOver || state.isVictory) ==>
        state == old(state) && Controls() == old(Controls()) && unchanged(waveManager, enemyManager)
      ensures !old(state.isGameOver || state.isVictory) ==>
        && isRoundActive
        && state == old(state).(roundTimeLeft := RoundTimeLimit)
        && (old(state.round) > TotalRounds ==> unchanged(waveManager, enemyManager))
        && (old(state.round) <= TotalRounds ==>
          var w := GameConfig.Waves[old(state.round) - 1];
          && waveManager.currentWave == Some(w) && waveManager.isWaveActive
          && waveManager.spawnTimers == TimersFor(w.enemies)
          && enemyManager.enemies == old(enemyManager.enemies) + WaveBoss(w, old(enemyManager.nextEnemyId))
          && enemyManager.nextEnemyId == old(enemyManager.nextEnemyId) + |WaveBoss(w, old(enemyManager.nextEnemyId))|)
      ensures Rounds() == StartRoundOf(old(Rounds()))
      ensures TotalReward(enemyManager.enemies) == TotalReward(old(enemyManager.enemies))
      ensures |Live(enemyManager.enemies)| <= |Live(old(enemyManager.enemies))| + 1
      ensures selectedTowerPosition == old(selectedTowerPosition) && selectedShopItem == old(selectedShopItem)
      ensures lastTime == old(lastTime)
      ensures old(Valid()) ==> Valid()
    {
      if state.isGameOver || state.isVictory {
        return;
      }
      ghost var r0 := Rounds();
      isRoundActive := true;
      state := state.(roundTimeLeft := RoundTimeLimit);
      assert Rounds() == r0.(state := r0.state.(roundTimeLeft := RoundTimeLimit), roundActive := true);
      LaunchRoundWave();
    }

    /** The wave of the current round, up to round 50, starts. */
    method LaunchRoundWave()
      requires state.round >= 1
      modifies waveManager, enemyManager
      ensures state.round > TotalRounds ==> unchanged(waveManager, enemyManager)
      ensures state.round <= TotalRounds ==>
        var w := GameConfig.Waves[state.round - 1];
        && waveManager.currentWave == Some(w) && waveManager.isWaveActive
        && waveManager.spawnTimers == TimersFor(w.enemies)
        && enemyManager.enemies == old(enemyManager.enemies) + WaveBoss(w, old(enemyManager.nextEnemyId))
        && enemyManager.nextEnemyId == old(enemyManager.nextEnemyId) + |WaveBoss(w, old(enemyManager.nextEnemyId))|
      ensures state.round <= TotalRounds ==>
        |GameConfig.Waves| == TotalRounds && Rounds() == Launched(old(Rounds()), GameConfig.Waves[state.round - 1])
      ensures TotalReward(enemyManager.enemies) == TotalReward(old(enemyManager.enemies))
      ensures |Live(enemyManager.enemies)| <= |Live(old(enemyManager.enemies))| + 1
      ensures old(Valid()) ==> Valid()
    {
      if state.round <= TotalRounds {
        assert |GameConfig.Waves| == TotalRounds by { WaveTable(); }
        LaunchWave(GameConfig.Waves[state.round - 1]);
      }
    }

    /** The wave manager's `startWave` on `w`, seen from the engine: the boss, if any, joins the enemies alive. */
    method LaunchWave(w: Wave)
      modifies waveManager, enemyManager
      ensures waveManager.currentWave == Some(w) && waveManager.isWaveActive && waveManager.Valid()
      ensures waveManager.spawnTimers == TimersFor(w.enemies)
      ensures enemyManager.enemies == old(enemyManager.enemies) + WaveBoss(w, old(enemyManager.nextEnemyId))
      ensures enemyManager.nextEnemyId == old(enemyManager.nextEnemyId) + |WaveBoss(w, old(enemyManager.nextEnemyId))|
      ensures Rounds() == Launched(old(Rounds()), w)
      ensures TotalReward(enemyManager.enemies) == TotalReward(old(enemyManager.enemies))
      ensures |Live(enemyManager.enemies)| <= |Live(old(enemyManager.enemies))| + 1
      ensures old(enemyManager.Valid()) ==> enemyManager.Valid()
    {
      ghost var before := enemyManager.enemies;
      ghost var id := enemyManager.nextEnemyId;
      waveManager.StartWave(w, enemyManager);
      BossUnrewarded(before, w, id);
    }

    /**
     * `nextRound`: unless the game has ended, the round ends and the round
     * counter moves on; past round 50 that is a victory, otherwise the next
     * round starts. The enemies still on the board stay.
     */
    method NextRound()
      requires state.round >= 1
      modifies this, waveManager, enemyManager
      ensures old(state.isGameOver || state.isVictory) ==>
        state == old(state) && Controls() == old(Controls()) && unchanged(waveManager, enemyManager)
      ensures !old(state.isGameOver || state.isVictory) && old(state.round) + 1 > TotalRounds ==>
        && state == old(state).(round := old(state.round) + 1, isVictory := true)
        && !isRoundActive && unchanged(waveManager, enemyManager)
      ensures !old(state.isGameOver || state.isVictory) && old(state.round) + 1 <= TotalRounds ==>
        var w := GameConfig.Waves[old(state.round)];
        && state == old(state).(round := old(state.round) + 1, roundTimeLeft := RoundTimeLimit)
        && isRoundActive && waveManager.currentWave == Some(w) && waveManager.isWaveActive
        && waveManager.spawnTimers == TimersFor(w.enemies)
        && enemyManager.enemies == old(enemyManager.enemies) + WaveBoss(w, old(enemyManager.nextEnemyId))
        && enemyManager.nextEnemyId == old(enemyManager.nextEnemyId) + |WaveBoss(w, old(enemyManager.nextEnemyId))|
      ensures Rounds() == NextRoundOf(old(Rounds()))
      ensures TotalReward(enemyManager.enemies) == TotalReward(old(enemyManager.enemies))
      ensures |Live(enemyManager.enemies)| <= |Live(old(enemyManager.enemies))| + 1
      ensures state.round >= old(state.round) && state.gold == old(state.gold) && state.score == old(state.score)
      ensures selectedTowerPosition == old(selectedTowerPosition) && selectedShopItem == old(selectedShopItem)
      ensures lastTime == old(lastTime)
      ensures old(Valid()) ==> Valid()
    {
      if state.isGameOver || state.isVictory {
        return;
      }
      isRoundActive := false;
      state := state.(round := state.round + 1);
      if state.round <= TotalRounds {
        StartRound();
      } else {
        state := state.(isVictory := true);
      }
    }

    // -------------------------------------------------------------------
    // The tick

    /** One pass of the collision loop, on projectile `i`. */
    method HitAt(i: nat)
      requires i < |towerManager.projectiles|
      modifies this, enemyManager, towerManager
      ensures Here() == Hit(old(Here()), i)
      ensures Untouched() == old(Untouched())
    {
      var p := towerManager.projectiles[i];
      var found := FindEnemy(enemyManager.enemies, p.targetId);
      if found.None? || enemyManager.enemies[found.value].isDead {
        towerManager.RemoveProjectile(i);
        return;
      }
      if Reaches(enemyManager.enemies[found.value], p) {
        Strike(i, found.value);
      }
    }

    /**
     * Projectile `i` reaches its live target, enemy `k`: the blow, the reward
     * when it kills, the element's status, and the projectile is dropped.
     */
    method Strike(i: nat, k: nat)
      requires i < |towerManager.projectiles| && LiveTarget(enemyManager.enemies, towerManager.projectiles[i]) == Some(k)
      requires Reaches(enemyManager.enemies[k], towerManager.projectiles[i])
      modifies this, enemyManager, towerManager
      ensures Here() == Hit(old(Here()), i)
      ensures Untouched() == old(Untouched())
    {
      HitReaches(Here(), i, k);
      var p := towerManager.projectiles[i];
      var target := enemyManager.enemies[k];
      Credit(target, p.damage);
      Mark(i, target.id, StatusFor(p.element, p.damage));
    }

    /** The status `eff` a projectile leaves on enemy `id`, and projectile `i` dropped. */
    method Mark(i: nat, id: nat, eff: StatusEffect)
      modifies enemyManager, towerManager
      ensures enemyManager.enemies == ApplyById(old(enemyManager.enemies), id, eff)
      ensures towerManager.projectiles == RemoveAt(old(towerManager.projectiles), i)
      ensures towerManager.towers == old(towerManager.towers) && enemyManager.nextEnemyId == old(enemyManager.nextEnemyId)
    {
      enemyManager.ApplyEffect(id, eff);
      towerManager.RemoveProjectile(i);
    }

    /** The blow of a projectile carrying `amount` on `target`, and its reward (ten times it in score) when it kills. */
    method Credit(target: Enemy, amount: real)
      modifies this, enemyManager
      ensures var d := DamageById(old(enemyManager.enemies), target.id, amount);
        var credit := if d.1 then target.reward else 0.0;
        && enemyManager.enemies == d.0
        && state == old(state).(gold := old(state.gold) + credit, score := old(state.score) + credit * 10.0)
      ensures Controls() == old(Controls()) && enemyManager.nextEnemyId == old(enemyManager.nextEnemyId)
    {
      var killed := enemyManager.DamageEnemy(target.id, amount);
      if killed {
        state := state.(gold := state.gold + target.reward, score := state.score + target.reward * 10.0);
      }
    }

    /** The collision loop of `update`: every projectile, from the last to the first. */
    method Collide()
      modifies this, enemyManager, towerManager
      ensures Here() == CollideFrom(old(Here()), |old(towerManager.projectiles)|)
      ensures Untouched() == old(Untouched())
    {
      ghost var start := Here();
      ghost var rest := Untouched();
      var i: nat := |towerManager.projectiles|;
      while i > 0
        invariant i <= |towerManager.projectiles|
        invariant CollideFrom(Here(), i) == CollideFrom(start, |start.projectiles|)
        invariant Untouched() == rest
      {
        HitNext(i, start);
        i := i - 1;
      }
    }

    /** The body of the collision loop: projectile `i - 1` is next. */
    method HitNext(i: nat, ghost start: Field)
      requires 0 < i <= |towerManager.projectiles|
      requires CollideFrom(Here(), i) == CollideFrom(start, |start.projectiles|)
      modifies this, enemyManager, towerManager
      ensures i - 1 <= |towerManager.projectiles|
      ensures CollideFrom(Here(), i - 1) == CollideFrom(start, |start.projectiles|)
      ensures Untouched() == old(Untouched())
    {
      CollideStep(Here(), i, i);
      HitAt(i - 1);
    }

    /** The dead-enemy sweep of `update`: every enemy marked dead pays its reward, and ten times it in score. */
    method SweepDead()
      modifies this
      ensures var total := TotalReward(enemyManager.enemies);
        state == old(state).(gold := old(state.gold) + total, score := old(state.score) + 10.0 * total)
      ensures Controls() == old(Controls())
      ensures old(Valid()) ==> Valid()
    {
      var es := enemyManager.enemies;
      for i := 0 to |es|
        invariant var total := TotalReward(es[..i]);
          state == old(state).(gold := old(state.gold) + total, score := old(state.score) + 10.0 * total)
        invariant Controls() == old(Controls())
      {
        assert es[..i + 1][..i] == es[..i];
        if es[i].isDead {
          state := state.(gold := state.gold + es[i].reward, score := state.score + es[i].reward * 10.0);
        }
      }
      assert es[..|es|] == es;
    }

    /** The end of `update`: game over, victory or the next round, as `Verdict` decides. */
    method Conclude()
      requires state.round >= 1
      modifies this, waveManager, enemyManager
      ensures var o := Verdict(|Live(old(enemyManager.enemies))|, old(state.round), old(waveManager.isWaveActive), old(isRoundActive));
        && (o == GameOver ==> state == old(state).(isGameOver := true))
        && (o == Victory ==> state == old(state).(isVictory := true))
        && (o == Continue ==> state == old(state))
        && (o != RoundOver ==> unchanged(waveManager, enemyManager) && Controls() == old(Controls()))
        && (o == RoundOver && !old(state.isGameOver || state.isVictory) ==> state.round == old(state.round) + 1)
        && (state.isGameOver <==> old(state.isGameOver) || o == GameOver)
        && Rounds() == ConcludeOf(old(Rounds()), o)
      ensures state == old(state).(round := state.round, isGameOver := state.isGameOver,
        isVictory := state.isVictory, roundTimeLeft := state.roundTimeLeft)
      ensures lastTime == old(lastTime) && selectedTowerPosition == old(selectedTowerPosition) && selectedShopItem == old(selectedShopItem)
      ensures TotalReward(enemyManager.enemies) == TotalReward(old(enemyManager.enemies))
      ensures state.round >= old(state.round) && state.gold == old(state.gold) && state.score == old(state.score)
      ensures |Live(enemyManager.enemies)| >= MaxEnemyCount ==> state.isGameOver
      ensures old(Valid()) ==> Valid()
    {
      var live := |enemyManager.GetEnemies()|;
      if live >= MaxEnemyCount {
        state := state.(isGameOver := true);
        return;
      }
      if state.round > TotalRounds && live == 0 {
        state := state.(isVictory := true);
      }
      if live == 0 && !waveManager.GetIsWaveActive() && isRoundActive {
        NextRound();
      }
    }

    /**
     * The towers' part of `update`: the towers fire at the live enemies,
     * the projectiles home in and hit, and the dead-enemy sweep pays. On a
     * board with no dead enemy left to pay for, every enemy a projectile
     * kills is paid for twice: once by the hit, once by the sweep.
     */
    method Fight(dt: real, now: real, step: Stepper)
      requires TotalReward(enemyManager.enemies) == 0.0
      modifies this, towerManager, enemyManager
      ensures var paid := TotalReward(enemyManager.enemies);
        state == old(state).(gold := old(state.gold) + 2.0 * paid, score := old(state.score) + 20.0 * paid)
      ensures state == Paid(old(state), enemyManager.enemies)
      ensures Controls() == old(Controls()) && enemyManager.nextEnemyId == old(enemyManager.nextEnemyId)
      ensures |enemyManager.enemies| == |old(enemyManager.enemies)|
      ensures var f := Fought(old(enemyManager.enemies), old(towerManager.towers), old(towerManager.projectiles),
          old(state.gold), old(state.score), dt, now, step);
        towerManager.towers == f.0 && towerManager.projectiles == f.1.projectiles && enemyManager.enemies == f.1.enemies
      ensures old(Valid()) ==> Valid()
    {
      ghost var wasValid := Valid();
      ghost var f := Fought(enemyManager.enemies, towerManager.towers, towerManager.projectiles, state.gold, state.score, dt, now, step);
      Volley(dt, now, step);
      assert towerManager.towers == f.0 && towerManager.projectiles == f.1.projectiles && enemyManager.enemies == f.1.enemies;
      ghost var paid := TotalReward(enemyManager.enemies);
      assert state == Credited(old(state), paid);
      assert wasValid ==> Valid();
      ghost var mid := state;
      ghost var kept := (Controls(), enemyManager.enemies, enemyManager.nextEnemyId, towerManager.towers, towerManager.projectiles);
      SweepDead();
      assert (Controls(), enemyManager.enemies, enemyManager.nextEnemyId, towerManager.towers, towerManager.projectiles) == kept;
      assert state == Credited(mid, paid);
      CreditedTwice(old(state), enemyManager.enemies);
    }

    /**
     * The towers fire at the live enemies, the projectiles home in, and the
     * collision loop runs: towers, projectiles and enemies end as `Fought`
     * says, and gold grows by the rewards of the enemies the loop kills.
     */
    method Volley(dt: real, now: real, step: Stepper)
      modifies this, towerManager, enemyManager
      ensures var f := Fought(old(enemyManager.enemies), old(towerManager.towers), old(towerManager.projectiles),
          old(state.gold), old(state.score), dt, now, step);
        towerManager.towers == f.0 && towerManager.projectiles == f.1.projectiles && enemyManager.enemies == f.1.enemies
      ensures state == old(state).(gold := state.gold, score := state.score)
      ensures state.gold - old(state.gold) == TotalReward(enemyManager.enemies) - TotalReward(old(enemyManager.enemies))
      ensures state.score - old(state.score) == 10.0 * (TotalReward(enemyManager.enemies) - TotalReward(old(enemyManager.enemies)))
      ensures Controls() == old(Controls()) && enemyManager.nextEnemyId == old(enemyManager.nextEnemyId)
      ensures |enemyManager.enemies| == |old(enemyManager.enemies)|
      ensures old(towerManager.Valid() && enemyManager.Valid()) ==> towerManager.Valid() && enemyManager.Valid()
    {
      ghost var wasValid := towerManager.Valid() && enemyManager.Valid();
      towerManager.Update(dt, enemyManager.GetEnemies(), now, step);
      assert wasValid ==> towerManager.Valid() && enemyManager.Valid();
      Collisions();
    }

    /**
     * The collision loop and what it pays: gold grows by the rewards of the
     * enemies it kills, score by ten times that, and the field stays valid.
     */
    method Collisions()
      modifies this, enemyManager, towerManager
      ensures state == old(state).(gold := state.gold, score := state.score)
      ensures state.gold - old(state.gold) == TotalReward(enemyManager.enemies) - TotalReward(old(enemyManager.enemies))
      ensures state.score - old(state.score) == 10.0 * (TotalReward(enemyManager.enemies) - TotalReward(old(enemyManager.enemies)))
      ensures Controls() == old(Controls()) && enemyManager.nextEnemyId == old(enemyManager.nextEnemyId)
      ensures |enemyManager.enemies| == |old(enemyManager.enemies)| && towerManager.towers == old(towerManager.towers)
      ensures var f := CollideFrom(old(Here()), |old(towerManager.projectiles)|);
        enemyManager.enemies == f.enemies && towerManager.projectiles == f.projectiles
      ensures old(towerManager.Valid() && enemyManager.Valid()) ==> towerManager.Valid() && enemyManager.Valid()
    {
      ghost var before := Here();
      ghost var wasValid := towerManager.Valid() && enemyManager.Valid();
      Collide();
      CollideCredits(before, |before.projectiles|);
      SameButPurse(state, old(state));
      if wasValid {
        CollideValid(before, |before.projectiles|, enemyManager.nextEnemyId);
      }
    }

    /**
     * The body of `update` once time runs: waves, enemies, towers,
     * collisions, the sweep and effects in that order, ending as
     * `Conclude` decides. Enemies that die other than by a projectile are
     * purged by the enemy update before anyone pays for them.
     */
    method Advance(dt: real, now: real, step: Stepper, jump: nat -> Option<real>)
      requires state.round >= 1
      modifies this, towerManager, enemyManager, waveManager, effectManager
      ensures var paid := TotalReward(enemyManager.enemies);
        && state.gold == old(state.gold) + 2.0 * paid
        && state.score == old(state.score) + 20.0 * paid
      ensures state.round >= old(state.round)
      ensures state.isGameOver && !old(state.isGameOver) ==> |Live(enemyManager.enemies)| >= MaxEnemyCount
      ensures |Live(enemyManager.enemies)| >= MaxEnemyCount ==> state.isGameOver
      ensures old(state.isGameOver) ==> state.isGameOver
      ensures Settled(old(state), old(Snapshot()), TickOf(old(Snapshot()), dt, now, step, jump))
      ensures state.lives == old(state.lives) && state.abilities == old(state.abilities)
      ensures state.isPaused == old(state.isPaused) && state.timeStopDuration == old(state.timeStopDuration)
      ensures TickOf(old(Snapshot()), dt, now, step, jump).outcome != RoundOver ==> state.roundTimeLeft == old(state.roundTimeLeft)
      ensures lastTime == old(lastTime) && selectedTowerPosition == old(selectedTowerPosition) && selectedShopItem == old(selectedShopItem)
      ensures old(Valid()) && dt >= 0.0 ==> Valid()
    {
      ghost var wasValid := Valid() && dt >= 0.0;
      ghost var b := Snapshot();
      Tick(dt, now, step, jump);
      assert wasValid ==> Valid();
      assert Rounds() == Judged(old(state), b, TickOf(b, dt, now, step, jump));
      Conclude();
    }

    /**
     * The tick up to its verdict: the game is as `TickOf` says, and that
     * verdict is the one `Conclude` will reach on it.
     */
    method Tick(dt: real, now: real, step: Stepper, jump: nat -> Option<real>)
      modifies this, towerManager, enemyManager, waveManager, effectManager
      ensures var s := TickOf(old(Snapshot()), dt, now, step, jump);
        && towerManager.towers == s.towers && towerManager.projectiles == s.projectiles
        && effectManager.effects == s.effects && enemyManager.enemies == s.fought
        && enemyManager.nextEnemyId == s.nextId && waveManager.currentWave == old(waveManager.currentWave)
        && waveManager.spawnTimers == s.timers && waveManager.isWaveActive == s.waveActive
        && s.outcome == Verdict(|Live(enemyManager.enemies)|, state.round, waveManager.isWaveActive, isRoundActive)
      ensures state == old(state).(gold := state.gold, score := state.score) && Controls() == old(Controls())
      ensures state.gold == old(state.gold) + 2.0 * TotalReward(enemyManager.enemies)
      ensures state.score == old(state.score) + 20.0 * TotalReward(enemyManager.enemies)
      ensures state == Paid(old(state), enemyManager.enemies)
      ensures old(Valid()) && dt >= 0.0 ==> Valid()
    {
      ghost var b := Snapshot();
      ghost var a := Arrivals(b.waveActive && b.wave.Some?, b.timers, b.waveActive, b.enemies, b.nextId, now);
      ghost var walked := Marched(a.0, a.1, dt, step, jump);
      ghost var f := Fought(walked.0, b.towers, b.projectiles, b.gold, b.score, dt, now, step);
      Run(dt, now, step, jump);
      assert TickOf(b, dt, now, step, jump) == Stages(a.0, a.2, a.3, walked.0, walked.1, f.0, f.1.projectiles, f.1.enemies,
        Active(AdvanceAll(b.effects, dt)), Verdict(|Live(f.1.enemies)|, b.round, a.3, b.roundActive));
    }

    /**
     * The stages of the tick before its verdict, as `TickOf` describes
     * them; gold and score grow by twice and twenty times the rewards of
     * the enemies the towers kill.
     */
    method Run(dt: real, now: real, step: Stepper, jump: nat -> Option<real>)
      modifies this, towerManager, enemyManager, waveManager, effectManager
      ensures var a := Arrivals(old(waveManager.isWaveActive && waveManager.currentWave.Some?), old(waveManager.spawnTimers),
          old(waveManager.isWaveActive), old(enemyManager.enemies), old(enemyManager.nextEnemyId), now);
        var m := Marched(a.0, a.1, dt, step, jump);
        var f := Fought(m.0, old(towerManager.towers), old(towerManager.projectiles),
          old(state.gold), old(state.score), dt, now, step);
        && enemyManager.nextEnemyId == m.1 && waveManager.currentWave == old(waveManager.currentWave)
        && enemyManager.enemies == f.1.enemies && towerManager.towers == f.0 && towerManager.projectiles == f.1.projectiles
        && waveManager.spawnTimers == a.2 && waveManager.isWaveActive == a.3
        && effectManager.effects == Active(AdvanceAll(old(effectManager.effects), dt))
      ensures state == old(state).(gold := state.gold, score := state.score) && Controls() == old(Controls())
      ensures state.gold == old(state.gold) + 2.0 * TotalReward(enemyManager.enemies)
      ensures state.score == old(state.score) + 20.0 * TotalReward(enemyManager.enemies)
      ensures state == Paid(old(state), enemyManager.enemies)
      ensures old(Valid()) && dt >= 0.0 ==> Valid()
    {
      ghost var wasValid := Valid() && dt >= 0.0;
      ghost var start := (state, Controls());
      Prepare(dt, now, step, jump);
      assert wasValid ==> Valid();
      assert (state, Controls()) == start;
      Fight(dt, now, step);
      assert wasValid ==> Valid();
      ghost var fought := (state, enemyManager.enemies, Controls());
      effectManager.Update(dt);
      assert (state, enemyManager.enemies, Controls()) == fought;
    }

    /**
     * The first two stages of the tick: the wave brings its arrivals, then
     * every enemy is updated and the dead are dropped, leaving nothing
     * dead to pay for.
     */
    method Prepare(dt: real, now: real, step: Stepper, jump: nat -> Option<real>)
      modifies waveManager, enemyManager
      ensures var a := Arrivals(old(waveManager.isWaveActive && waveManager.currentWave.Some?), old(waveManager.spawnTimers),
          old(waveManager.isWaveActive), old(enemyManager.enemies), old(enemyManager.nextEnemyId), now);
        && (enemyManager.enemies, enemyManager.nextEnemyId) == Marched(a.0, a.1, dt, step, jump)
        && waveManager.spawnTimers == a.2 && waveManager.isWaveActive == a.3
      ensures waveManager.currentWave == old(waveManager.currentWave)
      ensures TotalReward(enemyManager.enemies) == 0.0
      ensures old(Valid()) && dt >= 0.0 ==> Valid()
    {
      ghost var wasValid := Valid() && dt >= 0.0;
      ghost var a := Arrivals(waveManager.isWaveActive && waveManager.currentWave.Some?, waveManager.spawnTimers,
        waveManager.isWaveActive, enemyManager.enemies, enemyManager.nextEnemyId, now);
      waveManager.Update(enemyManager, now);
      assert (enemyManager.enemies, enemyManager.nextEnemyId, waveManager.spawnTimers, waveManager.isWaveActive) == a;
      assert wasValid ==> Valid();
      ghost var p := UpdatePass(enemyManager.enemies, enemyManager.nextEnemyId, Ticker(dt, PathPoints, step, jump));
      enemyManager.Update(dt, PathPoints, step, jump);
      LiveUnrewarded(p.ticked + p.spawned);
    }

    /**
     * `update` for a frame of `dt` milliseconds at wall-clock time `now`;
     * `step` is the movement geometry and `jump` the teleporters' random
     * draws. A time stop only runs down; an expired round timer moves to the
     * next round and ends the tick; otherwise the tick runs as `Advance`.
     */
    method Update(dt: real, now: real, step: Stepper, jump: nat -> Option<real>)
      requires state.round >= 1
      modifies this, towerManager, enemyManager, waveManager, effectManager
      ensures state.round >= old(state.round)
      ensures lastTime == old(lastTime) && selectedTowerPosition == old(selectedTowerPosition) && selectedShopItem == old(selectedShopItem)
      ensures old(state.timeStopDuration) > 0.0 ==>
        && state == old(state).(timeStopDuration := old(state.timeStopDuration) - dt)
        && Controls() == old(Controls())
        && unchanged(towerManager, enemyManager, waveManager, effectManager)
      ensures old(state.timeStopDuration) <= 0.0 ==>
        && state.lives == old(state.lives) && state.abilities == old(state.abilities)
        && state.isPaused == old(state.isPaused) && state.timeStopDuration == old(state.timeStopDuration)
      ensures old(state.timeStopDuration) <= 0.0 && old(isRoundActive) && old(state.roundTimeLeft) - dt <= 0.0 ==>
        && state.gold == old(state.gold) && state.score == old(state.score)
        && state.round == old(state.round) + (if old(state.isGameOver || state.isVictory) then 0 else 1)
        && Rounds() == NextRoundOf(old(Rounds()).(state := Countdown(old(state), true, dt)))
        && unchanged(towerManager, effectManager)
      ensures old(state.timeStopDuration) <= 0.0 && !(old(isRoundActive) && old(state.roundTimeLeft) - dt <= 0.0) ==>
        var paid := TotalReward(enemyManager.enemies);
        && state.gold == old(state.gold) + 2.0 * paid
        && state.score == old(state.score) + 20.0 * paid
        && (state.isGameOver && !old(state.isGameOver) ==> |Live(enemyManager.enemies)| >= MaxEnemyCount)
        && (|Live(enemyManager.enemies)| >= MaxEnemyCount ==> state.isGameOver)
        && (old(state.isGameOver) ==> state.isGameOver)
        && Settled(Countdown(old(state), old(isRoundActive), dt), old(Snapshot()), TickOf(old(Snapshot()), dt, now, step, jump))
      ensures
        && old(state.timeStopDuration) <= 0.0 && old(isRoundActive) && old(state.roundTimeLeft) - dt > 0.0
        && TickOf(old(Snapshot()), dt, now, step, jump).outcome != RoundOver ==>
        state.roundTimeLeft == old(state.roundTimeLeft) - dt
      ensures old(Valid()) && dt >= 0.0 ==> Valid()
    {
      if state.timeStopDuration > 0.0 {
        state := state.(timeStopDuration := state.timeStopDuration - dt);
        return;
      }
      ghost var b := Snapshot();
      var expired := Clock(dt);
      if expired {
        return;
      }
      assert Snapshot() == b;
      Advance(dt, now, step, jump);
    }

    /**
     * The round timer of `update`: a running round's time left drops by
     * `dt`, and a round whose time runs out ends (`nextRound`).
     */
    method Clock(dt: real) returns (expired: bool)
      requires state.round >= 1
      modifies this, enemyManager, waveManager
      ensures expired <==> old(isRoundActive) && old(state.roundTimeLeft) - dt <= 0.0
      ensures expired ==>
        && state.lives == old(state.lives) && state.abilities == old(state.abilities)
        && state.isPaused == old(state.isPaused) && state.timeStopDuration == old(state.timeStopDuration)
        && state.gold == old(state.gold) && state.score == old(state.score)
        && state.round == old(state.round) + (if old(state.isGameOver || state.isVictory) then 0 else 1)
        && Rounds() == NextRoundOf(old(Rounds()).(state := Countdown(old(state), true, dt)))
      ensures !expired ==>
        && state == Countdown(old(state), old(isRoundActive), dt)
        && Controls() == old(Controls()) && unchanged(enemyManager, waveManager)
      ensures lastTime == old(lastTime) && selectedTowerPosition == old(selectedTowerPosition) && selectedShopItem == old(selectedShopItem)
      ensures old(Valid()) ==> Valid()
    {
      expired := false;
      if isRoundActive {
        state := state.(roundTimeLeft := state.roundTimeLeft - dt);
        if state.roundTimeLeft <= 0.0 {
          assert Rounds() == old(Rounds()).(state := Countdown(old(state), true, dt));
          NextRound();
          expired := true;
        }
      }
    }

    /**
     * One animation frame at time `currentTime`: the time since the last
     * frame is measured, and the tick runs unless the game is paused or over.
     */
    method GameLoop(currentTime: real, now: real, step: Stepper, jump: nat -> Option<real>)
      requires state.round >= 1
      modifies this, towerManager, enemyManager, waveManager, effectManager
      ensures lastTime == currentTime
      ensures old(state.isPaused || state.isGameOver || state.isVictory) ==>
        state == old(state) && unchanged(towerManager, enemyManager, waveManager, effectManager)
      ensures old(state.timeStopDuration) <= 0.0 ==>
        && state.lives == old(state.lives) && state.abilities == old(state.abilities)
        && state.isPaused == old(state.isPaused) && state.timeStopDuration == old(state.timeStopDuration)
      ensures var dt := Elapsed(currentTime, old(lastTime));
        !old(state.isPaused || state.isGameOver || state.isVictory) && old(state.timeStopDuration) > 0.0 ==>
        && state == old(state).(timeStopDuration := old(state.timeStopDuration) - dt)
        && unchanged(towerManager, enemyManager, waveManager, effectManager)
      ensures var dt := Elapsed(currentTime, old(lastTime));
        && !old(state.isPaused || state.isGameOver || state.isVictory) && old(state.timeStopDuration) <= 0.0
        && old(isRoundActive) && old(state.roundTimeLeft) - dt <= 0.0 ==>
        && state.gold == old(state.gold) && state.score == old(state.score)
        && state.round == old(state.round) + 1
        && Rounds() == NextRoundOf(old(Rounds()).(state := Countdown(old(state), true, dt)))
        && unchanged(towerManager, effectManager)
      ensures var dt := Elapsed(currentTime, old(lastTime));
        && !old(state.isPaused || state.isGameOver || state.isVictory) && old(state.timeStopDuration) <= 0.0
        && !(old(isRoundActive) && old(state.roundTimeLeft) - dt <= 0.0) ==>
        var paid := TotalReward(enemyManager.enemies);
        && state.gold == old(state.gold) + 2.0 * paid
        && state.score == old(state.score) + 20.0 * paid
        && (state.isGameOver ==> |Live(enemyManager.enemies)| >= MaxEnemyCount)
        && (|Live(enemyManager.enemies)| >= MaxEnemyCount ==> state.isGameOver)
        && Settled(Countdown(old(state), old(isRoundActive), dt), old(Snapshot()), TickOf(old(Snapshot()), dt, now, step, jump))
      ensures var dt := Elapsed(currentTime, old(lastTime));
        && !old(state.isPaused || state.isGameOver || state.isVictory) && old(state.timeStopDuration) <= 0.0
        && old(isRoundActive) && old(state.roundTimeLeft) - dt > 0.0
        && TickOf(old(Snapshot()), dt, now, step, jump).outcome != RoundOver ==>
        state.roundTimeLeft == old(state.roundTimeLeft) - dt
      ensures old(Valid()) && currentTime >= old(lastTime) ==> Valid()
    {
      var dt := Elapsed(currentTime, lastTime);
      ghost var b := old(Snapshot());
      ghost var r := old(Rounds());
      lastTime := currentTime;
      if !state.isPaused && !state.isGameOver && !state.isVictory {
        assert Snapshot() == b && Rounds() == r;
        Update(dt, now, step, jump);
        assert old(state.timeStopDuration) <= 0.0 && !(old(isRoundActive) && old(state.roundTimeLeft) - dt <= 0.0) ==>
          Settled(Countdown(old(state), old(isRoundActive), dt), b, TickOf(b, dt, now, step, jump));
        assert old(state.timeStopDuration) <= 0.0 && old(isRoundActive) && old(state.roundTimeLeft) - dt <= 0.0 ==>
          Rounds() == NextRoundOf(r.(state := Countdown(old(state), true, dt)));
      }
    }
  }
}
