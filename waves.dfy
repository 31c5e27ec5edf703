/**
 * The wave scheduler: per-entry spawn timers (count, interval, activation),
 * boss injection, the wave-completion rule, and the pure helpers for
 * progress, difficulty scaling and the wave preview.
 *
 * The wall clock is the `now` parameter. The delayed activation of a timer
 * (a `setTimeout` callback in the game) is the explicit `ActivateTimer` step.
 */
module Waves {
  import opened GameTypes
  import opened GameConfig
  import opened Enemies

  /** A spawn timer: one schedule entry being worked off. */
  datatype SpawnTimer = SpawnTimer(
    kind: EnemyType,
    count: nat,
    spawned: nat,
    delay: real,
    interval: real,
    lastSpawnTime: real,
    isActive: bool)

  /** The timer `startWave` sets up for an entry: nothing spawned, not yet active. */
  function NewTimer(s: EnemySpawn): (t: SpawnTimer)
    ensures t.kind == s.kind && t.count == s.count && t.delay == s.delay && t.interval == s.interval
    ensures t.spawned == 0 && t.lastSpawnTime == 0.0 && !t.isActive
  {
    SpawnTimer(s.kind, s.count, 0, s.delay, s.interval, 0.0, false)
  }

  /** One fresh timer per entry, in order. */
  function TimersFor(entries: seq<EnemySpawn>): (r: seq<SpawnTimer>)
    ensures |r| == |entries|
    ensures forall i :: 0 <= i < |r| ==> r[i] == NewTimer(entries[i])
  {
    if entries == [] then []
    else TimersFor(entries[..|entries| - 1]) + [NewTimer(entries[|entries| - 1])]
  }

  /** The timers belong to `entries`: same length, same counts, never more spawned than the count. */
  predicate TimersMatch(entries: seq<EnemySpawn>, ts: seq<SpawnTimer>)
  {
    && |ts| == |entries|
    && (forall i :: 0 <= i < |ts| ==> ts[i].count == entries[i].count && ts[i].spawned <= ts[i].count)
  }

  lemma FreshTimersMatch(entries: seq<EnemySpawn>)
    ensures TimersMatch(entries, TimersFor(entries))
    ensures forall i :: 0 <= i < |entries| ==> TimersFor(entries)[i].spawned == 0
  {
  }

  // ---------------------------------------------------------------------
  // Spawning

  /** A timer spawns when active, not exhausted, and its interval has elapsed. */
  predicate Spawns(t: SpawnTimer, now: real)
  {
    t.isActive && t.spawned < t.count && now - t.lastSpawnTime >= t.interval
  }

  /** A timer after one `update`: one more spawned, stamped `now`, if it spawns. */
  function TimerStep(t: SpawnTimer, now: real): (r: SpawnTimer)
    ensures Spawns(t, now) ==> r.spawned == t.spawned + 1 && r.lastSpawnTime == now
    ensures !Spawns(t, now) ==> r == t
    ensures r.(spawned := t.spawned, lastSpawnTime := t.lastSpawnTime) == t
  {
    if Spawns(t, now) then t.(spawned := t.spawned + 1, lastSpawnTime := now) else t
  }

  /** Every timer stepped, in order. */
  function TimersPass(ts: seq<SpawnTimer>, now: real): (r: seq<SpawnTimer>)
    ensures |r| == |ts|
    ensures forall i :: 0 <= i < |ts| ==> r[i] == TimerStep(ts[i], now)
  {
    if ts == [] then []
    else TimersPass(ts[..|ts| - 1], now) + [TimerStep(ts[|ts| - 1], now)]
  }

  /** The kinds spawned by one pass over the timers, in timer order. */
  function SpawnedKinds(ts: seq<SpawnTimer>, now: real): (r: seq<EnemyType>)
    ensures |r| <= |ts|
  {
    if ts == [] then []
    else
      var front := SpawnedKinds(ts[..|ts| - 1], now);
      var t := ts[|ts| - 1];
      if Spawns(t, now) then front + [t.kind] else front
  }

  /**
   * The kinds spawned by a run of timers are those of each part in turn;
   * a single timer contributes its kind exactly when it spawns.
   */
  lemma {:induction false} SpawnedKindsAppend(a: seq<SpawnTimer>, b: seq<SpawnTimer>, now: real)
    ensures SpawnedKinds(a + b, now) == SpawnedKinds(a, now) + SpawnedKinds(b, now)
    ensures |b| == 1 ==> SpawnedKinds(b, now) == if Spawns(b[0], now) then [b[0].kind] else []
    decreases |b|
  {
    if b == [] {
      assert a + b == a;
    } else {
      var front := b[..|b| - 1];
      assert (a + b)[..|a + b| - 1] == a + front;
      SpawnedKindsAppend(a, front, now);
      if |b| == 1 {
        assert front == [];
      }
    }
  }

  /** The enemies `addEnemy` creates for `kinds`, at the path start, numbered from `firstId`. */
  function Batch(kinds: seq<EnemyType>, firstId: nat): (r: seq<Enemy>)
    ensures |r| == |kinds|
  {
    if kinds == [] then []
    else Batch(kinds[..|kinds| - 1], firstId) + [NewEnemy(firstId + |kinds| - 1, kinds[|kinds| - 1], PathPoints[0])]
  }

  /**
   * A pass keeps the timers matched to their entries: each timer spawns at
   * most once per pass and never beyond its count; the pass spawns exactly
   * one enemy per spawning timer.
   */
  lemma {:induction false} PassKeepsMatch(entries: seq<EnemySpawn>, ts: seq<SpawnTimer>, now: real)
    requires TimersMatch(entries, ts)
    ensures TimersMatch(entries, TimersPass(ts, now))
    ensures forall i :: 0 <= i < |ts| ==>
      ts[i].spawned <= TimersPass(ts, now)[i].spawned <= ts[i].spawned + 1
  {
  }

  /** The number of timers that spawn in a pass. */
  function SpawningCount(ts: seq<SpawnTimer>, now: real): nat
  {
    if ts == [] then 0
    else SpawningCount(ts[..|ts| - 1], now) + (if Spawns(ts[|ts| - 1], now) then 1 else 0)
  }

  /** A pass spawns one enemy per spawning timer, and so at most one per timer. */
  lemma {:induction false} SpawnedPerTimer(ts: seq<SpawnTimer>, now: real)
    ensures |SpawnedKinds(ts, now)| == SpawningCount(ts, now) <= |ts|
  {
    if ts != [] {
      SpawnedPerTimer(ts[..|ts| - 1], now);
    }
  }

  /** Every timer has spawned its whole count. */
  predicate AllSpawned(ts: seq<SpawnTimer>)
  {
    forall i :: 0 <= i < |ts| ==> ts[i].spawned >= ts[i].count
  }

  /** With every timer exhausted, a pass spawns nothing and changes no timer. */
  lemma {:induction false} ExhaustedPassIdle(ts: seq<SpawnTimer>, now: real)
    requires AllSpawned(ts)
    ensures TimersPass(ts, now) == ts && SpawnedKinds(ts, now) == []
  {
    if ts != [] {
      var front := ts[..|ts| - 1];
      ExhaustedPassIdle(front, now);
      assert ts == front + [ts[|ts| - 1]];
    }
  }

  // ---------------------------------------------------------------------
  // Boss waves

  /** `spawnBoss`'s strengthening of a boss: double health (full), 0.8 speed, triple reward, 50x50. */
  function Empowered(b: Enemy): (r: Enemy)
    ensures r.maxHealth == b.maxHealth * 2.0 && r.currentHealth == r.maxHealth
    ensures r.speed == b.speed * 0.8 && r.reward == b.reward * 3.0 && r.size == Size(50.0, 50.0)
    ensures r.(maxHealth := b.maxHealth, currentHealth := b.currentHealth, speed := b.speed,
               reward := b.reward, size := b.size) == b
  {
    b.(maxHealth := b.maxHealth * 2.0, currentHealth := b.maxHealth * 2.0, speed := b.speed * 0.8,
       size := Size(50.0, 50.0), reward := b.reward * 3.0)
  }

  /** The enemy `spawnBoss` adds for `kind`: a fresh one, strengthened when it is the boss. */
  function BossEnemy(kind: EnemyType, id: nat): Enemy
  {
    var b := NewEnemy(id, kind, PathPoints[0]);
    if kind == Boss then Empowered(b) else b
  }

  /** A spawned boss is sound: positive health, full, alive, with no effects. */
  lemma BossSound(kind: EnemyType, id: nat)
    ensures Sound(BossEnemy(kind, id)) && BossEnemy(kind, id).id == id
    ensures kind == Boss ==> BossEnemy(kind, id).maxHealth == 2.0 * EnemyStats(Boss).maxHealth
  {
  }

  /** What a wave brings at its start: the boss, if it is a boss wave naming one. */
  function WaveBoss(w: Wave, id: nat): seq<Enemy>
  {
    if w.isBossWave && w.bossType.Some? then [BossEnemy(w.bossType.value, id)] else []
  }

  // ---------------------------------------------------------------------
  // Progress, difficulty and preview

  /** Total of the entries' counts. */
  function SumCounts(entries: seq<EnemySpawn>): nat
  {
    if entries == [] then 0
    else SumCounts(entries[..|entries| - 1]) + entries[|entries| - 1].count
  }

  /** Total spawned by the timers. */
  function SumSpawned(ts: seq<SpawnTimer>): nat
  {
    if ts == [] then 0
    else SumSpawned(ts[..|ts| - 1]) + ts[|ts| - 1].spawned
  }

  lemma {:induction false} SpawnedWithinCounts(entries: seq<EnemySpawn>, ts: seq<SpawnTimer>)
    requires TimersMatch(entries, ts)
    ensures SumSpawned(ts) <= SumCounts(entries)
  {
    if ts != [] {
      var n := |ts| - 1;
      assert TimersMatch(entries[..n], ts[..n]);
      SpawnedWithinCounts(entries[..n], ts[..n]);
    }
  }

  /** `getWaveProgress`: spawned over total, or 0 with no active wave or an empty schedule. */
  function Progress(wave: Option<Wave>, active: bool, ts: seq<SpawnTimer>): real
  {
    if wave.None? || !active then 0.0
    else
      var total := SumCounts(wave.value.enemies);
      if total > 0 then (SumSpawned(ts) as real) / (total as real) else 0.0
  }

  /** With the timers matched to the current wave, progress lies in [0, 1]. */
  lemma ProgressBounded(wave: Option<Wave>, active: bool, ts: seq<SpawnTimer>)
    requires wave.Some? ==> TimersMatch(wave.value.enemies, ts)
    ensures 0.0 <= Progress(wave, active, ts) <= 1.0
  {
    if wave.Some? && active && SumCounts(wave.value.enemies) > 0 {
      SpawnedWithinCounts(wave.value.enemies, ts);
      RatioAtMostOne(SumSpawned(ts) as real, SumCounts(wave.value.enemies) as real);
    }
  }

  lemma RatioAtMostOne(s: real, t: real)
    requires 0.0 <= s <= t && t > 0.0
    ensures 0.0 <= s / t <= 1.0
  {
    assert (t - s) / t >= 0.0;
    assert s / t + (t - s) / t == 1.0;
  }

  /** `getDifficultyMultiplier`: a step function of the round. */
  function Multiplier(round: int): (m: real)
    ensures 1.0 <= m <= 2.0
  {
    if round <= 10 then 1.0
    else if round <= 20 then 1.2
    else if round <= 30 then 1.5
    else if round <= 40 then 1.8
    else 2.0
  }

  /** The multiplier never falls as the round rises. */
  lemma MultiplierMonotone(a: int, b: int)
    requires a <= b
    ensures Multiplier(a) <= Multiplier(b)
  {
  }

  /** An entry scaled by `m`: count rounded down, interval divided by `m` but kept at least 200. */
  function Scaled(s: EnemySpawn, m: real): (r: EnemySpawn)
    requires m >= 1.0
    ensures r.kind == s.kind && r.delay == s.delay && r.interval >= 200.0
    ensures r.interval >= s.interval * (1.0 / m) && (r.interval == 200.0 || r.interval == s.interval * (1.0 / m))
    ensures 200.0 <= s.interval ==> r.interval <= s.interval
    ensures r.count as real <= s.count as real * m < r.count as real + 1.0
  {
    var c := (s.count as real * m).Floor;
    EnemySpawn(s.kind, c, s.delay, Max(s.interval * (1.0 / m), 200.0))
  }

  /**
   * `adjustWaveDifficulty`: every entry scaled by the round's multiplier,
   * the rest of the wave untouched.
   */
  function AdjustWaveDifficulty(w: Wave, round: int): (r: Wave)
    ensures r.round == w.round && r.isBossWave == w.isBossWave && r.bossType == w.bossType
    ensures |r.enemies| == |w.enemies|
    ensures forall i :: 0 <= i < |w.enemies| ==> r.enemies[i] == Scaled(w.enemies[i], Multiplier(round))
  {
    w.(enemies := ScaleAll(w.enemies, Multiplier(round)))
  }

  function ScaleAll(entries: seq<EnemySpawn>, m: real): (r: seq<EnemySpawn>)
    requires m >= 1.0
    ensures |r| == |entries|
    ensures forall i :: 0 <= i < |entries| ==> r[i] == Scaled(entries[i], m)
  {
    if entries == [] then []
    else ScaleAll(entries[..|entries| - 1], m) + [Scaled(entries[|entries| - 1], m)]
  }

  /** Adjusting never lowers a count, and keeps kinds, delays and order. */
  lemma AdjustKeepsShape(w: Wave, round: int)
    ensures forall i :: 0 <= i < |w.enemies| ==>
      var a := AdjustWaveDifficulty(w, round).enemies[i];
      a.kind == w.enemies[i].kind && a.delay == w.enemies[i].delay &&
      a.count >= w.enemies[i].count && a.interval >= 200.0
  {
    var m := Multiplier(round);
    forall i | 0 <= i < |w.enemies|
      ensures AdjustWaveDifficulty(w, round).enemies[i].count >= w.enemies[i].count
    {
      var c := w.enemies[i].count as real;
      assert c * m >= c * 1.0;
    }
  }

  /** How long an entry takes to spawn, by the preview's estimate. */
  function Span(s: EnemySpawn): real
  {
    s.delay + (s.count as real) * s.interval
  }

  /** The preview's estimated duration: the largest span, and 0 for no entries. */
  function MaxSpan(entries: seq<EnemySpawn>): real
  {
    if entries == [] then 0.0
    else Max(MaxSpan(entries[..|entries| - 1]), Span(entries[|entries| - 1]))
  }

  /** The estimate is 0 or some entry's span, and no entry's span exceeds it. */
  lemma {:induction false} MaxSpanIsMax(entries: seq<EnemySpawn>)
    ensures MaxSpan(entries) >= 0.0
    ensures forall i :: 0 <= i < |entries| ==> Span(entries[i]) <= MaxSpan(entries)
    ensures MaxSpan(entries) == 0.0 || exists i :: 0 <= i < |entries| && MaxSpan(entries) == Span(entries[i])
  {
    if entries != [] {
      var front := entries[..|entries| - 1];
      MaxSpanIsMax(front);
      assert forall i :: 0 <= i < |front| ==> front[i] == entries[i];
      if MaxSpan(entries) != 0.0 && MaxSpan(entries) == MaxSpan(front) {
        var i :| 0 <= i < |front| && MaxSpan(front) == Span(front[i]);
        assert MaxSpan(entries) == Span(entries[i]);
      }
    }
  }

  /** The count of enemies of kind `k` the entries schedule. */
  function Tally(entries: seq<EnemySpawn>, k: EnemyType): nat
  {
    if entries == [] then 0
    else
      var e := entries[|entries| - 1];
      Tally(entries[..|entries| - 1], k) + (if e.kind == k then e.count else 0)
  }

  /** The preview's per-kind tallies, holding exactly the kinds the entries mention. */
  function Tallies(entries: seq<EnemySpawn>): (m: map<EnemyType, nat>)
  {
    if entries == [] then map[]
    else
      var m := Tallies(entries[..|entries| - 1]);
      var e := entries[|entries| - 1];
      m[e.kind := (if e.kind in m then m[e.kind] else 0) + e.count]
  }

  /** Each tally is the count scheduled for its kind; a kind not mentioned has no tally and none scheduled. */
  lemma {:induction false} TalliesCorrect(entries: seq<EnemySpawn>)
    ensures forall k :: k in Tallies(entries) ==> Tallies(entries)[k] == Tally(entries, k)
    ensures forall k :: k !in Tallies(entries) ==> Tally(entries, k) == 0
    ensures forall k :: k in Tallies(entries) <==> exists i :: 0 <= i < |entries| && entries[i].kind == k
  {
    if entries != [] {
      var front := entries[..|entries| - 1];
      TalliesCorrect(front);
      forall k
        ensures k in Tallies(entries) <==> exists i :: 0 <= i < |entries| && entries[i].kind == k
      {
        if k in Tallies(front) {
          var i :| 0 <= i < |front| && front[i].kind == k;
          assert entries[i].kind == k;
        }
        if exists i :: 0 <= i < |entries| && entries[i].kind == k {
          var i :| 0 <= i < |entries| && entries[i].kind == k;
          if i < |front| {
            assert front[i].kind == k;
          }
        }
      }
    }
  }

  const AllKinds: seq<EnemyType> :=
    [Basic, Fast, Tank, Flying, Armored, Regenerating, Splitter, Shielded, Teleporter, Boss]

  /** The tallies over every kind add up to the total. */
  function TallySum(entries: seq<EnemySpawn>, kinds: seq<EnemyType>): nat
  {
    if kinds == [] then 0 else Tally(entries, kinds[0]) + TallySum(entries, kinds[1..])
  }

  predicate Distinct(kinds: seq<EnemyType>)
  {
    forall i, j :: 0 <= i < j < |kinds| ==> kinds[i] != kinds[j]
  }

  /** Adding one entry adds its count to the sum over distinct kinds, if its kind is among them. */
  lemma {:induction false} TallySumStep(entries: seq<EnemySpawn>, kinds: seq<EnemyType>)
    requires entries != [] && Distinct(kinds)
    ensures var front := entries[..|entries| - 1]; var e := entries[|entries| - 1];
      TallySum(entries, kinds) == TallySum(front, kinds) + (if e.kind in kinds then e.count else 0)
  {
    if kinds != [] {
      var rest := kinds[1..];
      assert Distinct(rest) by {
        forall i, j | 0 <= i < j < |rest| ensures rest[i] != rest[j] {
          assert rest[i] == kinds[i + 1] && rest[j] == kinds[j + 1];
        }
      }
      TallySumStep(entries, rest);
      var e := entries[|entries| - 1];
      if e.kind == kinds[0] {
        assert e.kind !in rest by {
          forall i | 0 <= i < |rest| ensures rest[i] != e.kind {
            assert rest[i] == kinds[i + 1];
          }
        }
      } else {
        assert e.kind in kinds <==> e.kind in rest by {
          assert kinds == [kinds[0]] + rest;
        }
      }
    }
  }

  lemma EveryKindListed(k: EnemyType)
    ensures k in AllKinds && Distinct(AllKinds)
  {
    match k
    case Basic => assert AllKinds[0] == k;
    case Fast => assert AllKinds[1] == k;
    case Tank => assert AllKinds[2] == k;
    case Flying => assert AllKinds[3] == k;
    case Armored => assert AllKinds[4] == k;
    case Regenerating => assert AllKinds[5] == k;
    case Splitter => assert AllKinds[6] == k;
    case Shielded => assert AllKinds[7] == k;
    case Teleporter => assert AllKinds[8] == k;
    case Boss => assert AllKinds[9] == k;
  }

  /** The per-kind tallies sum to the total count. */
  lemma {:induction false} TalliesSumToTotal(entries: seq<EnemySpawn>)
    ensures TallySum(entries, AllKinds) == SumCounts(entries)
  {
    if entries == [] {
      assert TallySum([], AllKinds) == 0;
    } else {
      var front := entries[..|entries| - 1];
      TalliesSumToTotal(front);
      EveryKindListed(entries[|entries| - 1].kind);
      TallySumStep(entries, AllKinds);
    }
  }

  /** One more entry of the preview's accumulation. */
  lemma PreviewStep(entries: seq<EnemySpawn>, i: nat)
    requires i < |entries|
    ensures var front := entries[..i]; var e := entries[i];
      && SumCounts(entries[..i + 1]) == SumCounts(front) + e.count
      && Tallies(entries[..i + 1]) == Tallies(front)[e.kind := (if e.kind in Tallies(front) then Tallies(front)[e.kind] else 0) + e.count]
      && MaxSpan(entries[..i + 1]) == Max(MaxSpan(front), Span(e))
  {
    assert entries[..i + 1][..i] == entries[..i];
  }

  /** One more timer of the spawning pass. */
  lemma PassStep(ts: seq<SpawnTimer>, i: nat, now: real)
    requires i < |ts|
    ensures TimersPass(ts[..i + 1], now) == TimersPass(ts[..i], now) + [TimerStep(ts[i], now)]
    ensures SpawnedKinds(ts[..i + 1], now) ==
      SpawnedKinds(ts[..i], now) + (if Spawns(ts[i], now) then [ts[i].kind] else [])
  {
    assert ts[..i + 1][..i] == ts[..i];
  }

  /** Enemy `i` of a batch is a fresh enemy of kind `kinds[i]` numbered `firstId + i`. */
  lemma {:induction false} BatchAt(kinds: seq<EnemyType>, firstId: nat, i: nat)
    requires i < |kinds|
    ensures Batch(kinds, firstId)[i] == NewEnemy(firstId + i, kinds[i], PathPoints[0])
    decreases |kinds|
  {
    var n := |kinds| - 1;
    if i < n {
      BatchAt(kinds[..n], firstId, i);
    }
  }

  /** One more enemy of a batch. */
  lemma BatchStep(kinds: seq<EnemyType>, k: EnemyType, firstId: nat)
    ensures Batch(kinds + [k], firstId) == Batch(kinds, firstId) + [NewEnemy(firstId + |kinds|, k, PathPoints[0])]
  {
    assert (kinds + [k])[..|kinds|] == kinds;
  }

  /** The result of `getWavePreview`. */
  datatype Preview = Preview(totalEnemies: nat, enemyTypes: map<EnemyType, nat>, isBossWave: bool, estimatedDuration: real)

  // ---------------------------------------------------------------------

  /** The current wave, whether it is active, and its spawn timers. */
  class WaveManager {
    var currentWave: Option<Wave>
    var isWaveActive: bool
    var spawnTimers: seq<SpawnTimer>

    /** The timers belong to the current wave (and there are none without one). */
    ghost predicate Valid()
      reads this
    {
      if currentWave.Some? then TimersMatch(currentWave.value.enemies, spawnTimers) else spawnTimers == []
    }

    constructor ()
      ensures currentWave == None && !isWaveActive && spawnTimers == [] && Valid()
    {
      currentWave := None;
      isWaveActive := false;
      spawnTimers := [];
    }

    /**
     * `startWave`: the wave becomes current and active with one fresh timer
     * per entry; a boss wave naming a boss type adds that boss at the path
     * start.
     */
    method StartWave(w: Wave, em: EnemyManager)
      modifies this, em
      ensures currentWave == Some(w) && isWaveActive && spawnTimers == TimersFor(w.enemies) && Valid()
      ensures em.enemies == old(em.enemies) + WaveBoss(w, old(em.nextEnemyId))
      ensures em.nextEnemyId == old(em.nextEnemyId) + |WaveBoss(w, old(em.nextEnemyId))|
      ensures old(em.Valid()) ==> em.Valid()
    {
      var timers := [];
      for i := 0 to |w.enemies|
        invariant timers == TimersFor(w.enemies[..i])
      {
        assert w.enemies[..i + 1][..i] == w.enemies[..i];
        timers := timers + [NewTimer(w.enemies[i])];
      }
      assert w.enemies[..|w.enemies|] == w.enemies;
      FreshTimersMatch(w.enemies);
      currentWave := Some(w);
      isWaveActive := true;
      spawnTimers := timers;
      if w.isBossWave && w.bossType.Some? {
        SpawnBoss(w.bossType.value, em);
      } else {
        assert em.enemies + [] == em.enemies;
      }
    }

    /** `spawnBoss`: add an enemy of the boss type at the path start, strengthened when it is the boss. */
    method SpawnBoss(kind: EnemyType, em: EnemyManager)
      modifies em
      ensures em.enemies == old(em.enemies) + [BossEnemy(kind, old(em.nextEnemyId))]
      ensures em.nextEnemyId == old(em.nextEnemyId) + 1
      ensures old(em.Valid()) ==> em.Valid()
    {
      BossSound(kind, em.nextEnemyId);
      var boss := em.AddEnemy(kind, PathPoints[0]);
      if kind == Boss {
        em.enemies := em.enemies[|em.enemies| - 1 := Empowered(boss)];
      }
    }

    /** The delayed activation of timer `i` (the game's `setTimeout` callback), at time `now`. */
    method ActivateTimer(i: nat, now: real)
      modifies this
      ensures i < |old(spawnTimers)| ==>
        spawnTimers == old(spawnTimers)[i := old(spawnTimers)[i].(isActive := true, lastSpawnTime := now)]
      ensures i >= |old(spawnTimers)| ==> spawnTimers == old(spawnTimers)
      ensures currentWave == old(currentWave) && isWaveActive == old(isWaveActive)
      ensures old(Valid()) ==> Valid()
    {
      if i < |spawnTimers| {
        spawnTimers := spawnTimers[i := spawnTimers[i].(isActive := true, lastSpawnTime := now)];
      }
    }

    /**
     * `update` at time `now`: nothing without an active wave; otherwise each
     * timer that spawns adds one enemy at the path start, and the wave ends
     * when every timer is exhausted and no live enemy remains.
     */
    method Update(em: EnemyManager, now: real)
      modifies this, em
      ensures !old(isWaveActive) || old(currentWave).None? ==>
        spawnTimers == old(spawnTimers) && isWaveActive == old(isWaveActive) &&
        em.enemies == old(em.enemies) && em.nextEnemyId == old(em.nextEnemyId)
      ensures old(isWaveActive) && old(currentWave).Some? ==>
        var kinds := SpawnedKinds(old(spawnTimers), now);
        && spawnTimers == TimersPass(old(spawnTimers), now)
        && em.enemies == old(em.enemies) + Batch(kinds, old(em.nextEnemyId))
        && em.nextEnemyId == old(em.nextEnemyId) + |kinds|
        && (isWaveActive <==> !(AllSpawned(spawnTimers) && |Live(em.enemies)| == 0))
      ensures currentWave == old(currentWave)
      ensures old(Valid()) ==> Valid()
      ensures old(em.Valid()) ==> em.Valid()
    {
      if !isWaveActive || currentWave.None? {
        return;
      }
      SpawnAll(em, now);
      if currentWave.Some? && old(Valid()) {
        PassKeepsMatch(currentWave.value.enemies, old(spawnTimers), now);
      }
      var allSpawned := true;
      for i := 0 to |spawnTimers|
        invariant allSpawned <==> forall j :: 0 <= j < i ==> spawnTimers[j].spawned >= spawnTimers[j].count
      {
        if spawnTimers[i].spawned < spawnTimers[i].count {
          allSpawned := false;
        }
      }
      if allSpawned && em.GetEnemyCount() == 0 {
        isWaveActive := false;
      }
    }

    /** The `forEach` of `update`: step every timer in order, adding an enemy for each that spawns. */
    method SpawnAll(em: EnemyManager, now: real)
      modifies this, em
      ensures var kinds := SpawnedKinds(old(spawnTimers), now);
        && spawnTimers == TimersPass(old(spawnTimers), now)
        && em.enemies == old(em.enemies) + Batch(kinds, old(em.nextEnemyId))
        && em.nextEnemyId == old(em.nextEnemyId) + |kinds|
      ensures currentWave == old(currentWave) && isWaveActive == old(isWaveActive)
      ensures old(em.Valid()) ==> em.Valid()
    {
      ghost var orig := spawnTimers;
      ghost var before := em.enemies;
      ghost var firstId := em.nextEnemyId;
      for i := 0 to |spawnTimers|
        invariant |spawnTimers| == |orig|
        invariant spawnTimers == TimersPass(orig[..i], now) + orig[i..]
        invariant em.enemies == before + Batch(SpawnedKinds(orig[..i], now), firstId)
        invariant em.nextEnemyId == firstId + |SpawnedKinds(orig[..i], now)|
        invariant currentWave == old(currentWave) && isWaveActive == old(isWaveActive)
        invariant old(em.Valid()) ==> em.Valid()
      {
        WalkStep(i, em, now, orig, before, firstId);
      }
      assert orig[..|orig|] == orig;
    }

    /** `SpawnAll`'s walk moved past timer `i`: the first `i + 1` timers stepped and their enemies added. */
    method WalkStep(i: nat, em: EnemyManager, now: real, ghost orig: seq<SpawnTimer>, ghost before: seq<Enemy>, ghost firstId: nat)
      requires i < |orig| == |spawnTimers|
      requires spawnTimers == TimersPass(orig[..i], now) + orig[i..]
      requires em.enemies == before + Batch(SpawnedKinds(orig[..i], now), firstId)
      requires em.nextEnemyId == firstId + |SpawnedKinds(orig[..i], now)|
      modifies this, em
      ensures |spawnTimers| == |orig|
      ensures spawnTimers == TimersPass(orig[..i + 1], now) + orig[i + 1..]
      ensures em.enemies == before + Batch(SpawnedKinds(orig[..i + 1], now), firstId)
      ensures em.nextEnemyId == firstId + |SpawnedKinds(orig[..i + 1], now)|
      ensures currentWave == old(currentWave) && isWaveActive == old(isWaveActive)
      ensures old(em.Valid()) ==> em.Valid()
    {
      ghost var kinds := SpawnedKinds(orig[..i], now);
      ghost var t := orig[i];
      PassStep(orig, i, now);
      ConsumeOne(TimersPass(orig[..i], now), orig, i);
      ReplaceOne(TimersPass(orig[..i], now), TimerStep(t, now), orig, i);
      assert spawnTimers[i] == t;
      ghost var grown := em.enemies;
      StepTimer(i, em, now);
      if Spawns(t, now) {
        assert SpawnedKinds(orig[..i + 1], now) == kinds + [t.kind];
        BatchStep(kinds, t.kind, firstId);
        assert em.enemies == before + (Batch(kinds, firstId) + [NewEnemy(firstId + |kinds|, t.kind, PathPoints[0])]);
      } else {
        assert kinds + [] == kinds;
        assert em.enemies == grown;
      }
    }

    /** One timer of `update`'s walk: if it spawns, add its enemy at the path start and count it. */
    method StepTimer(i: nat, em: EnemyManager, now: real)
      requires i < |spawnTimers|
      modifies this, em
      ensures spawnTimers == old(spawnTimers)[i := TimerStep(old(spawnTimers)[i], now)]
      ensures var t := old(spawnTimers)[i];
        && em.enemies == old(em.enemies) + (if Spawns(t, now) then [NewEnemy(old(em.nextEnemyId), t.kind, PathPoints[0])] else [])
        && em.nextEnemyId == old(em.nextEnemyId) + (if Spawns(t, now) then 1 else 0)
      ensures currentWave == old(currentWave) && isWaveActive == old(isWaveActive)
      ensures old(em.Valid()) ==> em.Valid()
    {
      var t := spawnTimers[i];
      if t.isActive && t.spawned < t.count && now - t.lastSpawnTime >= t.interval {
        var e := em.AddEnemy(t.kind, PathPoints[0]);
        spawnTimers := spawnTimers[i := t.(spawned := t.spawned + 1, lastSpawnTime := now)];
      } else {
        assert em.enemies + [] == em.enemies;
        assert spawnTimers[i := t] == spawnTimers;
      }
    }

    function GetIsWaveActive(): bool
      reads this
    {
      isWaveActive
    }

    function GetCurrentWave(): Option<Wave>
      reads this
    {
      currentWave
    }

    /** `getWaveProgress`. */
    function GetWaveProgress(): real
      reads this
    {
      Progress(currentWave, isWaveActive, spawnTimers)
    }

    /** `reset`: no wave, inactive, no timers. */
    method Reset()
      modifies this
      ensures currentWave == None && !isWaveActive && spawnTimers == [] && Valid()
    {
      currentWave := None;
      isWaveActive := false;
      spawnTimers := [];
    }

    /**
     * `getWavePreview`: total count, per-kind tallies, boss flag and the
     * largest delay-plus-spawning time over the entries of the current
     * wave; all zero without a wave.
     */
    method GetWavePreview() returns (p: Preview)
      ensures currentWave.None? ==> p == Preview(0, map[], false, 0.0)
      ensures currentWave.Some? ==>
        var entries := currentWave.value.enemies;
        && p.totalEnemies == SumCounts(entries)
        && p.enemyTypes == Tallies(entries)
        && p.isBossWave == currentWave.value.isBossWave
        && p.estimatedDuration == MaxSpan(entries)
    {
      if currentWave.None? {
        return Preview(0, map[], false, 0.0);
      }
      var entries := currentWave.value.enemies;
      var tallies: map<EnemyType, nat> := map[];
      var total: nat := 0;
      var maxDuration := 0.0;
      for i := 0 to |entries|
        invariant total == SumCounts(entries[..i])
        invariant tallies == Tallies(entries[..i])
        invariant maxDuration == MaxSpan(entries[..i])
      {
        PreviewStep(entries, i);
        var s := entries[i];
        tallies := tallies[s.kind := (if s.kind in tallies then tallies[s.kind] else 0) + s.count];
        total := total + s.count;
        maxDuration := Max(maxDuration, Span(s));
      }
      assert entries[..|entries|] == entries;
      p := Preview(total, tallies, currentWave.value.isBossWave, maxDuration);
    }
  }
}
