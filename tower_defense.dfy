/** The turn-based tower-defence game: enemies that walk a fixed velocity
    every turn and die when their life runs out, towers that damage every
    living enemy within range, and the game that runs a fixed number of
    turns, moving every enemy before any tower fires.

    Enemies are objects updated in place (`Enemy`), towers never change after
    construction (`Tower` is a value), and the game owns both lists (`Game`).
    The pure functions `Moved`, `Damaged`, `Tower.StrikeAll`, `AttackPhase`,
    `Turn` and `Run` say what the in-place code computes, and the lemmas state
    what the game promises about them. */
module TowerDefense {

  // ---------------------------------------------------------------------------
  // Enemies
  // ---------------------------------------------------------------------------

  /** Everything observable about one enemy at a moment of the game. */
  datatype EnemySnapshot = EnemySnapshot(
    name: string, x: int, y: int, dx: int, dy: int, life: int, alive: bool)

  /** `Enemy.move`: a living enemy steps by its velocity, a dead one stays put. */
  function Moved(e: EnemySnapshot): EnemySnapshot
  {
    if e.alive then e.(x := e.x + e.dx, y := e.y + e.dy) else e
  }

  /** `Enemy.take_damage`: a living enemy loses `damage` life; reaching zero
      or below kills it and clamps its life to zero. A dead enemy is unaffected. */
  function Damaged(e: EnemySnapshot, damage: int): EnemySnapshot
  {
    if !e.alive then e
    else if e.life - damage <= 0 then e.(life := 0, alive := false)
    else e.(life := e.life - damage)
  }

  /** What holds at every moment of an enemy created with a non-negative life
      `initial`: life stays within `[0, initial]`, and a dead enemy has
      exactly zero life. */
  predicate LifeInvariant(e: EnemySnapshot, initial: int)
  {
    && 0 <= e.life <= initial
    && (!e.alive ==> e.life == 0)
  }

  /** Moving changes the position of a living enemy by exactly its velocity,
      leaves a dead one as it was, and never touches name, velocity, life or
      the alive flag. */
  lemma MoveEffect(e: EnemySnapshot)
    ensures Moved(e).alive == e.alive && Moved(e).life == e.life
    ensures Moved(e).name == e.name && Moved(e).dx == e.dx && Moved(e).dy == e.dy
    ensures e.alive ==> Moved(e).x - e.x == e.dx && Moved(e).y - e.y == e.dy
    ensures !e.alive ==> Moved(e) == e
  {
  }

  /** Damage on a living enemy leaves `max(life - damage, 0)` and the enemy
      alive exactly when `life - damage > 0`; damage on a dead enemy is a
      no-op; position, velocity and name never change. */
  lemma DamageEffect(e: EnemySnapshot, damage: int)
    ensures e.alive ==> Damaged(e, damage).life == (if e.life - damage > 0 then e.life - damage else 0)
    ensures e.alive ==> (Damaged(e, damage).alive <==> e.life - damage > 0)
    ensures !e.alive ==> Damaged(e, damage) == e
    ensures Damaged(e, damage).(life := e.life, alive := e.alive) == e
  {
  }

  /** Both operations keep the life invariant; with non-negative damage, life
      never increases and a dead enemy stays dead. */
  lemma StepsKeepInvariant(e: EnemySnapshot, damage: int, initial: int)
    requires LifeInvariant(e, initial) && damage >= 0
    ensures LifeInvariant(Moved(e), initial)
    ensures LifeInvariant(Damaged(e, damage), initial)
    ensures Damaged(e, damage).life <= e.life
    ensures Damaged(e, damage).alive ==> e.alive
  {
  }

  /** An enemy of the game: its position, life and alive flag change in place;
      its name and velocity are fixed when it is created. */
  class Enemy {
    const name: string
    var x: int
    var y: int
    const dx: int
    const dy: int
    var life: int
    var alive: bool
    /** The life it was created with; the bound for every later life value. */
    ghost const initialLife: int

    function Snapshot(): EnemySnapshot
      reads this
    {
      EnemySnapshot(name, x, y, dx, dy, life, alive)
    }

    ghost predicate Valid()
      reads this
    {
      LifeInvariant(Snapshot(), initialLife)
    }

    /** `Enemy.__init__`, whose life defaults to 10; every enemy starts alive. */
    constructor (name: string, x: int, y: int, dx: int, dy: int, life: int := 10)
      ensures Snapshot() == EnemySnapshot(name, x, y, dx, dy, life, true)
      ensures initialLife == life
      ensures life >= 0 ==> Valid()
    {
      this.name := name;
      this.x := x;
      this.y := y;
      this.dx := dx;
      this.dy := dy;
      this.life := life;
      this.alive := true;
      this.initialLife := life;
    }

    /** `Enemy.is_alive`. */
    predicate IsAlive()
      reads this
    {
      alive
    }

    /** `Enemy.move`. */
    method Move()
      modifies this
      ensures Snapshot() == Moved(old(Snapshot()))
    {
      if alive {
        x := x + dx;
        y := y + dy;
      }
    }

    /** `Enemy.take_damage`; the source never passes negative damage. */
    method TakeDamage(damage: int)
      requires damage >= 0
      modifies this
      ensures Snapshot() == Damaged(old(Snapshot()), damage)
      ensures old(Valid()) ==> Valid()
    {
      if alive {
        life := life - damage;
        if life <= 0 {
          alive := false;
          life := 0;
        }
      }
    }
  }

  /** The current snapshots of a list of enemies, in list order. */
  function Snapshots(enemies: seq<Enemy>): (s: seq<EnemySnapshot>)
    reads enemies
  {
    seq(|enemies|, i reads enemies requires 0 <= i < |enemies| => enemies[i].Snapshot())
  }

  /** The life each enemy of the list was created with. */
  ghost function InitialLives(enemies: seq<Enemy>): seq<int>
  {
    seq(|enemies|, i requires 0 <= i < |enemies| => enemies[i].initialLife)
  }

  /** No enemy object occurs twice in the list. */
  predicate Distinct(enemies: seq<Enemy>)
  {
    forall i, j :: 0 <= i < j < |enemies| ==> enemies[i] != enemies[j]
  }

  /** No two enemies of the list share a name. */
  predicate UniqueNames(es: seq<EnemySnapshot>)
  {
    forall i, j :: 0 <= i < j < |es| ==> es[i].name != es[j].name
  }

  // ---------------------------------------------------------------------------
  // Towers
  // ---------------------------------------------------------------------------

  /** A tower: position, attack power and range, none of which the game ever
      changes. */
  datatype Tower = Tower(name: string, x: int, y: int, attackPower: int, attackRange: int)
  {
    /** The square of `distance_to`: the source compares the square root of
        this sum with the range, which `CanAttack` does without the root. */
    function DistanceSquared(e: EnemySnapshot): int
    {
      (x - e.x) * (x - e.x) + (y - e.y) * (y - e.y)
    }

    /** `can_attack`: the enemy is alive and its distance is at most the range
        (inclusive). A distance is never negative, so a negative range reaches
        nothing. */
    predicate CanAttack(e: EnemySnapshot)
    {
      e.alive && 0 <= attackRange && DistanceSquared(e) <= attackRange * attackRange
    }

    /** What one tower does to one enemy during `attack`. */
    function Strike(e: EnemySnapshot): EnemySnapshot
    {
      if CanAttack(e) then Damaged(e, attackPower) else e
    }

    /** The enemies after `attack` has visited each of them once. */
    function StrikeAll(es: seq<EnemySnapshot>): (r: seq<EnemySnapshot>)
    {
      seq(|es|, i requires 0 <= i < |es| => Strike(es[i]))
    }

    /** The positions, in list order, of the enemies `attack` damages. */
    function AttackedIndices(es: seq<EnemySnapshot>): seq<int>
    {
      if es == [] then []
      else AttackedIndices(es[..|es| - 1]) + (if CanAttack(es[|es| - 1]) then [|es| - 1] else [])
    }

    /** The names `attack` returns, in list order. */
    function AttackedNames(es: seq<EnemySnapshot>): seq<string>
    {
      if es == [] then []
      else AttackedNames(es[..|es| - 1]) + (if CanAttack(es[|es| - 1]) then [es[|es| - 1].name] else [])
    }

    /** `attack`: damages every attackable enemy once, in list order, and
        returns their names. */
    method Attack(enemies: seq<Enemy>) returns (attacked: seq<string>)
      requires attackPower >= 0 && Distinct(enemies)
      modifies enemies
      ensures Snapshots(enemies) == StrikeAll(old(Snapshots(enemies)))
      ensures attacked == AttackedNames(old(Snapshots(enemies)))
    {
      ghost var s0 := Snapshots(enemies);
      attacked := [];
      for i := 0 to |enemies|
        invariant forall j :: 0 <= j < i ==> enemies[j].Snapshot() == Strike(s0[j])
        invariant forall j :: i <= j < |enemies| ==> enemies[j].Snapshot() == s0[j]
        invariant attacked == AttackedNames(s0[..i])
      {
        var enemy := enemies[i];
        if CanAttack(enemy.Snapshot()) {
          enemy.TakeDamage(attackPower);
          attacked := attacked + [enemy.name];
        }
        assert s0[..i + 1][..i] == s0[..i];
      }
      assert s0[..|enemies|] == s0;
    }
  }

  /** The sqrt-free test is exact: for the true Euclidean distance `d` (any
      non-negative real whose square is the squared distance), the enemy is
      attackable exactly when it is alive and `d <= attack_range`. */
  lemma CanAttackMatchesDistance(t: Tower, e: EnemySnapshot, d: real)
    requires d >= 0.0 && d * d == t.DistanceSquared(e) as real
    ensures t.CanAttack(e) <==> e.alive && d <= t.attackRange as real
  {
    var r := t.attackRange as real;
    var dsq := t.DistanceSquared(e);
    var rsq := t.attackRange * t.attackRange;
    assert rsq as real == r * r;
    if 0.0 <= r && d <= r {
      SquareMonotone(d, r);
      assert dsq <= rsq;
    }
    if 0.0 <= r && r < d {
      SquareStrictlyMonotone(r, d);
      assert rsq < dsq;
    }
  }

  lemma SquareMonotone(a: real, b: real)
    requires 0.0 <= a <= b
    ensures a * a <= b * b
  {
    assert a * a <= a * b;
  }

  lemma SquareStrictlyMonotone(a: real, b: real)
    requires 0.0 <= a < b
    ensures a * a < b * b
  {
    calc {
      a * a;
    <= a * b;
    <  b * b;
    }
  }

  /** `attack` selects an ordered subsequence of the enemy list: its indices
      strictly increase, and an index is selected exactly when the enemy there
      is attackable; the names returned are the names at those indices. */
  lemma {:induction false} AttackSelection(t: Tower, es: seq<EnemySnapshot>)
    ensures var idx := t.AttackedIndices(es);
      && |t.AttackedNames(es)| == |idx|
      && (forall k :: 0 <= k < |idx| ==> 0 <= idx[k] < |es| && t.AttackedNames(es)[k] == es[idx[k]].name)
      && (forall k, l :: 0 <= k < l < |idx| ==> idx[k] < idx[l])
      && (forall i :: 0 <= i < |es| ==> (i in idx <==> t.CanAttack(es[i])))
  {
    if es != [] {
      var init := es[..|es| - 1];
      AttackSelection(t, init);
      assert forall i :: 0 <= i < |init| ==> init[i] == es[i];
    }
  }

  /** Every enemy not selected by `attack` is left unchanged, and each selected
      one is damaged exactly once by the tower's power. */
  lemma AttackTouchesOnlySelected(t: Tower, es: seq<EnemySnapshot>, i: int)
    requires 0 <= i < |es|
    ensures i in t.AttackedIndices(es) ==> t.StrikeAll(es)[i] == Damaged(es[i], t.attackPower)
    ensures i !in t.AttackedIndices(es) ==> t.StrikeAll(es)[i] == es[i]
  {
    AttackSelection(t, es);
  }

  /** With distinct enemy names, no name is returned twice by one `attack`. */
  lemma AttackNamesUnique(t: Tower, es: seq<EnemySnapshot>)
    requires UniqueNames(es)
    ensures var names := t.AttackedNames(es);
      forall k, l :: 0 <= k < l < |names| ==> names[k] != names[l]
  {
    AttackSelection(t, es);
  }

  // ---------------------------------------------------------------------------
  // The game: turns as functions of the enemies' snapshots
  // ---------------------------------------------------------------------------

  /** The movement phase: every enemy, in list order, moves if alive. */
  function MoveAll(es: seq<EnemySnapshot>): seq<EnemySnapshot>
  {
    seq(|es|, i requires 0 <= i < |es| => Moved(es[i]))
  }

  /** The attack phase: each tower in list order attacks the enemies as the
      previous towers left them. */
  function AttackPhase(towers: seq<Tower>, es: seq<EnemySnapshot>): (r: seq<EnemySnapshot>)
    ensures |r| == |es|
  {
    if towers == [] then es
    else towers[|towers| - 1].StrikeAll(AttackPhase(towers[..|towers| - 1], es))
  }

  /** The names each tower attacked during the attack phase, tower by tower. */
  function PhaseReport(towers: seq<Tower>, es: seq<EnemySnapshot>): seq<seq<string>>
  {
    if towers == [] then []
    else
      var before := towers[..|towers| - 1];
      PhaseReport(before, es) + [towers[|towers| - 1].AttackedNames(AttackPhase(before, es))]
  }

  /** One turn: movement first, then the attack phase on the moved enemies. */
  function Turn(towers: seq<Tower>, es: seq<EnemySnapshot>): (r: seq<EnemySnapshot>)
    ensures |r| == |es|
  {
    AttackPhase(towers, MoveAll(es))
  }

  /** What a turn reports of its attack phase. */
  function TurnReport(towers: seq<Tower>, es: seq<EnemySnapshot>): seq<seq<string>>
  {
    PhaseReport(towers, MoveAll(es))
  }

  /** The enemies after `n` turns. */
  function Run(towers: seq<Tower>, es: seq<EnemySnapshot>, n: nat): (r: seq<EnemySnapshot>)
    ensures |r| == |es|
  {
    if n == 0 then es else Turn(towers, Run(towers, es, n - 1))
  }

  /** The reports of the first `n` turns, in order. */
  function RunReports(towers: seq<Tower>, es: seq<EnemySnapshot>, n: nat): seq<seq<seq<string>>>
  {
    if n == 0 then [] else RunReports(towers, es, n - 1) + [TurnReport(towers, Run(towers, es, n - 1))]
  }

  predicate NonNegativePowers(towers: seq<Tower>)
  {
    forall t :: t in towers ==> t.attackPower >= 0
  }

  /** Every enemy satisfies the life invariant for its initial life. */
  predicate AllWithin(es: seq<EnemySnapshot>, initials: seq<int>)
  {
    |es| == |initials| && forall i :: 0 <= i < |es| ==> LifeInvariant(es[i], initials[i])
  }

  /** How the game may change the enemy list from one moment to a later one:
      the list keeps its length and every enemy its name and velocity, no
      life rises, and a dead enemy does not change at all. */
  predicate Evolves(before: seq<EnemySnapshot>, after: seq<EnemySnapshot>)
  {
    && |after| == |before|
    && forall i :: 0 <= i < |before| ==>
         && after[i].name == before[i].name
         && after[i].dx == before[i].dx && after[i].dy == before[i].dy
         && after[i].life <= before[i].life
         && (!before[i].alive ==> after[i] == before[i])
  }

  lemma EvolvesTransitive(a: seq<EnemySnapshot>, b: seq<EnemySnapshot>, c: seq<EnemySnapshot>)
    requires Evolves(a, b) && Evolves(b, c)
    ensures Evolves(a, c)
  {
  }

  /** One tower's attack is such a change and keeps every life invariant. */
  lemma StrikeAllEvolves(t: Tower, es: seq<EnemySnapshot>, initials: seq<int>)
    requires t.attackPower >= 0 && AllWithin(es, initials)
    ensures Evolves(es, t.StrikeAll(es)) && AllWithin(t.StrikeAll(es), initials)
  {
    forall i | 0 <= i < |es| ensures LifeInvariant(t.StrikeAll(es)[i], initials[i]) {
      StepsKeepInvariant(es[i], t.attackPower, initials[i]);
    }
  }

  /** The whole attack phase is such a change and keeps every life invariant. */
  lemma {:induction false} AttackPhaseEvolves(towers: seq<Tower>, es: seq<EnemySnapshot>, initials: seq<int>)
    requires NonNegativePowers(towers) && AllWithin(es, initials)
    ensures Evolves(es, AttackPhase(towers, es)) && AllWithin(AttackPhase(towers, es), initials)
  {
    if towers != [] {
      var before := towers[..|towers| - 1];
      var last := towers[|towers| - 1];
      assert forall t :: t in before ==> t in towers;
      AttackPhaseEvolves(before, es, initials);
      StrikeAllEvolves(last, AttackPhase(before, es), initials);
      EvolvesTransitive(es, AttackPhase(before, es), AttackPhase(towers, es));
    }
  }

  /** A turn keeps every life invariant, never raises a life, and leaves a
      dead enemy exactly where and as it was. */
  lemma TurnEvolves(towers: seq<Tower>, es: seq<EnemySnapshot>, initials: seq<int>)
    requires NonNegativePowers(towers) && AllWithin(es, initials)
    ensures Evolves(es, Turn(towers, es)) && AllWithin(Turn(towers, es), initials)
  {
    var moved := MoveAll(es);
    forall i | 0 <= i < |es| ensures LifeInvariant(moved[i], initials[i]) {
      StepsKeepInvariant(es[i], 0, initials[i]);
    }
    AttackPhaseEvolves(towers, moved, initials);
    EvolvesTransitive(es, moved, Turn(towers, es));
  }

  /** Between any two moments `m <= n` of a run the enemies evolve as above
      and the life invariants hold at every moment. */
  lemma {:induction false} RunEvolves(towers: seq<Tower>, es: seq<EnemySnapshot>, initials: seq<int>, m: nat, n: nat)
    requires NonNegativePowers(towers) && AllWithin(es, initials) && m <= n
    ensures Evolves(Run(towers, es, m), Run(towers, es, n))
    ensures AllWithin(Run(towers, es, n), initials)
  {
    if m == n {
      if n > 0 {
        RunEvolves(towers, es, initials, 0, n);
      }
    } else {
      RunEvolves(towers, es, initials, m, n - 1);
      TurnEvolves(towers, Run(towers, es, n - 1), initials);
      EvolvesTransitive(Run(towers, es, m), Run(towers, es, n - 1), Run(towers, es, n));
    }
  }

  /** Life stays within `[0, initial]` after any number of turns. */
  lemma LifeStaysInRange(towers: seq<Tower>, es: seq<EnemySnapshot>, initials: seq<int>, n: nat, i: int)
    requires NonNegativePowers(towers) && AllWithin(es, initials)
    requires 0 <= i < |es| && initials[i] >= 0
    ensures 0 <= Run(towers, es, n)[i].life <= initials[i]
  {
    RunEvolves(towers, es, initials, n, n);
    assert LifeInvariant(Run(towers, es, n)[i], initials[i]);
  }

  /** Death is final: an enemy dead after `m` turns is dead, at the same
      position and with the same zero life, after every later turn. */
  lemma DeathIsFinal(towers: seq<Tower>, es: seq<EnemySnapshot>, initials: seq<int>, m: nat, n: nat, i: int)
    requires NonNegativePowers(towers) && AllWithin(es, initials)
    requires m <= n && 0 <= i < |es| && !Run(towers, es, m)[i].alive
    ensures Run(towers, es, n)[i] == Run(towers, es, m)[i]
    ensures !Run(towers, es, n)[i].alive && Run(towers, es, n)[i].life == 0
  {
    RunEvolves(towers, es, initials, m, m);
    RunEvolves(towers, es, initials, m, n);
  }

  /** Within one attack phase, an enemy killed by the first `a` towers is
      not changed by any later tower: the later tower re-checks the alive
      flag and skips it. */
  lemma {:induction false} KilledEnemyStaysKilledInPhase(towers: seq<Tower>, es: seq<EnemySnapshot>, a: nat, b: nat, i: int)
    requires a <= b <= |towers| && 0 <= i < |es|
    requires !AttackPhase(towers[..a], es)[i].alive
    ensures AttackPhase(towers[..b], es)[i] == AttackPhase(towers[..a], es)[i]
  {
    if a < b {
      KilledEnemyStaysKilledInPhase(towers, es, a, b - 1, i);
      assert towers[..b][..b - 1] == towers[..b - 1];
    }
  }

  /** A tower later in the list does not attack an enemy that an earlier
      tower killed in the same phase. */
  lemma LaterTowerSkipsKilled(towers: seq<Tower>, es: seq<EnemySnapshot>, a: nat, k: nat, i: int)
    requires a <= k < |towers| && 0 <= i < |es|
    requires !AttackPhase(towers[..a], es)[i].alive
    ensures !towers[k].CanAttack(AttackPhase(towers[..k], es)[i])
    ensures i !in towers[k].AttackedIndices(AttackPhase(towers[..k], es))
  {
    KilledEnemyStaysKilledInPhase(towers, es, a, k, i);
    AttackSelection(towers[k], AttackPhase(towers[..k], es));
  }

  /** The enemy list and tower list `Game.__init__` builds. */
  function InitialEnemies(): seq<EnemySnapshot>
  {
    [ EnemySnapshot("E1", -10, 2, 2, -1, 10, true),
      EnemySnapshot("E2", -8, 0, 3, 1, 10, true),
      EnemySnapshot("E3", -9, -1, 3, 0, 10, true) ]
  }

  function InitialTowers(): seq<Tower>
  {
    [ Tower("T1", -3, 2, 1, 2),
      Tower("T2", -1, -2, 1, 2),
      Tower("T3", 4, 2, 1, 2),
      Tower("T4", 7, 0, 1, 2),
      Tower("A1", 1, 1, 2, 4),
      Tower("A2", 4, -3, 2, 4) ]
  }

  /** In the configured game every life stays within `[0, 10]` after any
      number of turns, in particular after the ten the game runs. */
  lemma GameLivesBounded(n: nat, i: int)
    requires 0 <= i < 3
    ensures 0 <= Run(InitialTowers(), InitialEnemies(), n)[i].life <= 10
  {
    LifeStaysInRange(InitialTowers(), InitialEnemies(), [10, 10, 10], n, i);
  }

  /** The movement phase of `run_turn`: each enemy in list order moves if
      it is alive. */
  method MoveEnemies(enemies: seq<Enemy>)
    requires Distinct(enemies)
    modifies enemies
    ensures Snapshots(enemies) == MoveAll(old(Snapshots(enemies)))
  {
    ghost var s0 := Snapshots(enemies);
    for i := 0 to |enemies|
      invariant forall j :: 0 <= j < i ==> enemies[j].Snapshot() == Moved(s0[j])
      invariant forall j :: i <= j < |enemies| ==> enemies[j].Snapshot() == s0[j]
    {
      if enemies[i].IsAlive() {
        enemies[i].Move();
      }
    }
  }

  /** The attack phase of `run_turn`: each tower in list order attacks the
      whole enemy list; returns what each tower attacked. */
  method TowersAttack(towers: seq<Tower>, enemies: seq<Enemy>) returns (report: seq<seq<string>>)
    requires NonNegativePowers(towers) && Distinct(enemies)
    modifies enemies
    ensures Snapshots(enemies) == AttackPhase(towers, old(Snapshots(enemies)))
    ensures report == PhaseReport(towers, old(Snapshots(enemies)))
  {
    ghost var s0 := Snapshots(enemies);
    report := [];
    for k := 0 to |towers|
      invariant Snapshots(enemies) == AttackPhase(towers[..k], s0)
      invariant report == PhaseReport(towers[..k], s0)
    {
      assert towers[k] in towers;
      var attacked := towers[k].Attack(enemies);
      report := report + [attacked];
      assert towers[..k + 1][..k] == towers[..k];
    }
    assert towers[..|towers|] == towers;
  }

  /** The game: owns the enemies and towers and counts the turns played. */
  class Game {
    var currentTurn: int
    const maxTurns: nat
    const enemies: seq<Enemy>
    const towers: seq<Tower>

    ghost predicate Valid()
      reads enemies
    {
      && Distinct(enemies)
      && NonNegativePowers(towers)
      && AllWithin(Snapshots(enemies), InitialLives(enemies))
    }

    /** `Game.__init__`: turn 0 of 10, three enemies and six towers. */
    constructor ()
      ensures currentTurn == 0 && maxTurns == 10
      ensures towers == InitialTowers()
      ensures Snapshots(enemies) == InitialEnemies()
      ensures |enemies| == 3 && fresh(enemies[0]) && fresh(enemies[1]) && fresh(enemies[2])
      ensures Valid()
    {
      var e1 := new Enemy("E1", -10, 2, 2, -1);
      var e2 := new Enemy("E2", -8, 0, 3, 1);
      var e3 := new Enemy("E3", -9, -1, 3, 0);
      currentTurn := 0;
      maxTurns := 10;
      enemies := [e1, e2, e3];
      towers := InitialTowers();
    }

    /** `Game.run_turn`: one more turn, movement first, then every tower
        attacks in list order; returns what each tower attacked. */
    method RunTurn() returns (report: seq<seq<string>>)
      requires Valid()
      modifies this, enemies
      ensures Valid()
      ensures currentTurn == old(currentTurn) + 1
      ensures Snapshots(enemies) == Turn(towers, old(Snapshots(enemies)))
      ensures report == TurnReport(towers, old(Snapshots(enemies)))
    {
      currentTurn := currentTurn + 1;
      ghost var s0 := Snapshots(enemies);
      MoveEnemies(enemies);
      report := TowersAttack(towers, enemies);
      TurnEvolves(towers, s0, InitialLives(enemies));
    }

    /** `Game.run_game`: exactly `maxTurns` turns, with no early exit;
        returns the report of every turn. */
    method RunGame() returns (reports: seq<seq<seq<string>>>)
      requires Valid()
      modifies this, enemies
      ensures Valid()
      ensures currentTurn == old(currentTurn) + maxTurns
      ensures Snapshots(enemies) == Run(towers, old(Snapshots(enemies)), maxTurns)
      ensures reports == RunReports(towers, old(Snapshots(enemies)), maxTurns)
    {
      ghost var s0 := Snapshots(enemies);
      reports := [];
      for turn := 0 to maxTurns
        invariant Valid()
        invariant currentTurn == old(currentTurn) + turn
        invariant Snapshots(enemies) == Run(towers, s0, turn)
        invariant reports == RunReports(towers, s0, turn)
      {
        var report := RunTurn();
        reports := reports + [report];
      }
    }
  }
}
