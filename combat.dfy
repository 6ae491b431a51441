/** The combat engine of src/combat/combatEngine.js: the pure attack resolver and the
    two-actor timer state machine `CombatState`. Each `Math.random()` call is an explicit
    `Draw`; the three callbacks are recorded in an event log. */
module Combat {
  import opened Common
  import opened Weapons

  // ---------------------------------------------------------------- resolver

  function AttackRoll(attackLevel: int, attackBonus: int): int {
    attackLevel + attackBonus
  }

  function DefenseRoll(defenseLevel: int, defenseBonus: int): int {
    defenseLevel + defenseBonus
  }

  /** A JavaScript number produced by dividing two integers. */
  datatype Chance = Ratio(p: real) | Infinite(positive: bool) | NotANumber

  /** JavaScript's `n / d` on integers, including division by (positive) zero. */
  function Divide(n: int, d: int): Chance {
    if d != 0 then Ratio(n as real / d as real)
    else if n > 0 then Infinite(true)
    else if n < 0 then Infinite(false)
    else NotANumber
  }

  /** JavaScript's `1 - c`. */
  function OneMinus(c: Chance): Chance {
    match c
    case Ratio(p) => Ratio(1.0 - p)
    case Infinite(pos) => Infinite(!pos)
    case NotANumber => NotANumber
  }

  /** `calculateHitChance`. */
  function HitChance(attackRoll: int, defenseRoll: int): Chance {
    if attackRoll > defenseRoll then OneMinus(Divide(defenseRoll + 2, 2 * (attackRoll + 1)))
    else Divide(attackRoll, 2 * (defenseRoll + 1))
  }

  /** `r < c` for a draw `r`; every comparison with NaN is false. */
  predicate Below(r: Draw, c: Chance) {
    match c
    case Ratio(p) => r < p
    case Infinite(pos) => pos
    case NotANumber => false
  }

  /** `rollAccuracy`: the attack lands when the draw is below the hit chance. */
  predicate RollAccuracy(attackRoll: int, defenseRoll: int, r: Draw) {
    Below(r, HitChance(attackRoll, defenseRoll))
  }

  /** For non-negative rolls the chance is a real in [0, 1), at least one half exactly
      when the attack roll beats the defence roll. */
  lemma HitChanceBounds(attackRoll: int, defenseRoll: int)
    requires attackRoll >= 0 && defenseRoll >= 0
    ensures HitChance(attackRoll, defenseRoll).Ratio?
    ensures 0.0 <= HitChance(attackRoll, defenseRoll).p < 1.0
    ensures HitChance(attackRoll, defenseRoll).p >= 0.5 <==> attackRoll > defenseRoll
  {
    var a, d := attackRoll as real, defenseRoll as real;
    if attackRoll > defenseRoll {
      var q := (d + 2.0) / (2.0 * (a + 1.0));
      assert HitChance(attackRoll, defenseRoll) == Ratio(1.0 - q);
      DivPositive(d + 2.0, 2.0 * (a + 1.0));
      HalfBound(d + 2.0, a + 1.0);
    } else {
      var q := a / (2.0 * (d + 1.0));
      assert HitChance(attackRoll, defenseRoll) == Ratio(q);
      DivNonNegative(a, 2.0 * (d + 1.0));
      BelowHalf(a, d + 1.0);
    }
  }

  lemma DivPositive(n: real, m: real)
    requires 0.0 < n && 0.0 < m
    ensures 0.0 < n / m
  {
  }

  lemma DivNonNegative(n: real, m: real)
    requires 0.0 <= n && 0.0 < m
    ensures 0.0 <= n / m
  {
  }

  /** `n / (2m) < 1/2` when `n < m`. */
  lemma BelowHalf(n: real, m: real)
    requires 0.0 <= n < m
    ensures n / (2.0 * m) < 0.5
  {
    var q := n / (2.0 * m);
    assert q * (2.0 * m) == n;
  }

  /** `n / (2m) <= 1/2` when `n <= m`. */
  lemma HalfBound(n: real, m: real)
    requires 0.0 < n <= m
    ensures n / (2.0 * m) <= 0.5
  {
    var q := n / (2.0 * m);
    assert q * (2.0 * m) == n;
  }

  /** The two branches of the formula, stated over reals for rolls where no
      denominator is zero. */
  lemma HitChanceFormula(attackRoll: int, defenseRoll: int)
    requires attackRoll >= 0 && defenseRoll >= 0
    ensures attackRoll > defenseRoll ==>
      HitChance(attackRoll, defenseRoll) ==
        Ratio(1.0 - (defenseRoll as real + 2.0) / (2.0 * (attackRoll as real + 1.0)))
    ensures attackRoll <= defenseRoll ==>
      HitChance(attackRoll, defenseRoll) == Ratio(attackRoll as real / (2.0 * (defenseRoll as real + 1.0)))
  {
  }

  /** `calculateMaxHit`: `max(1, floor((str + bonus) / 8))`. */
  function MaxHit(strengthLevel: int, strengthBonus: int): (m: int)
    ensures m >= 1
    ensures strengthLevel + strengthBonus >= 8 ==>
      8 * m <= strengthLevel + strengthBonus < 8 * m + 8
    ensures strengthLevel + strengthBonus < 16 ==> m == 1
  {
    Max(1, (strengthLevel + strengthBonus) / 8)
  }

  /** The worked values of the doc comment: strength 1 and 8 give 1, 16 gives 2. */
  lemma MaxHitExamples()
    ensures MaxHit(1, 0) == 1 && MaxHit(7, 0) == 1 && MaxHit(8, 0) == 1 && MaxHit(16, 0) == 2
  {
  }

  /** `rollDamage`: `floor(r * (maxHit + 1))`, in [0, maxHit]. */
  function RollDamage(maxHit: int, r: Draw): (d: int)
    ensures d as real <= r * (maxHit + 1) as real < d as real + 1.0
    ensures maxHit >= 0 ==> 0 <= d <= maxHit
  {
    var x := r * (maxHit + 1) as real;
    assert maxHit >= 0 ==> 0.0 <= x < (maxHit + 1) as real by {
      if maxHit >= 0 {
        ScaledDrawBounds(r, (maxHit + 1) as real);
      }
    }
    x.Floor
  }

  /** A draw scaled by a positive factor stays in [0, factor). */
  lemma ScaledDrawBounds(r: real, m: real)
    requires 0.0 <= r < 1.0 && m > 0.0
    ensures 0.0 <= r * m < m
  {
    assert (1.0 - r) * m > 0.0;
    assert r * m == m - (1.0 - r) * m;
  }

  // ---------------------------------------------------------------- performAttack

  /** The combat record of one side: what `performAttack` and `update` read. A missing
      bonus or attack speed is 0; `weapon` is the optional weapon object. */
  datatype Fighter = Fighter(
    attackLevel: int,
    strengthLevel: int,
    defenseLevel: int,
    attackBonus: int,
    strengthBonus: int,
    defenseBonus: int,
    weapon: Option<Weapon>,
    attackSpeed: int
  )

  datatype AttackResult = AttackResult(hit: bool, damage: int)

  /** The damage of a `debugInstaKill` weapon. */
  const InstaKillDamage := 999

  /** `attacker.weapon || getWeapon('unarmed')`. */
  function WeaponOf(f: Fighter): Weapon {
    match f.weapon
    case Some(w) => w
    case None => GetWeapon("unarmed")
  }

  /** The attack roll `performAttack` uses: weapon bonus plus the attacker's own bonus. */
  function EffectiveAttackRoll(attacker: Fighter): int {
    AttackRoll(attacker.attackLevel, WeaponOf(attacker).attackBonus + attacker.attackBonus)
  }

  function EffectiveDefenseRoll(defender: Fighter): int {
    DefenseRoll(defender.defenseLevel, defender.defenseBonus)
  }

  function EffectiveMaxHit(attacker: Fighter): int {
    MaxHit(attacker.strengthLevel, WeaponOf(attacker).strengthBonus + attacker.strengthBonus)
  }

  /** `performAttack(attacker, defender)` reading its random draws from `rng`; the second
      component is the number of draws it consumed. */
  function PerformAttack(attacker: Fighter, defender: Fighter, rng: seq<Draw>): (out: (AttackResult, nat))
    requires |rng| >= 2
    ensures out.1 <= 2
    ensures WeaponOf(attacker).debugInstaKill ==> out == (AttackResult(true, InstaKillDamage), 0)
    ensures !WeaponOf(attacker).debugInstaKill ==>
      (out.0.hit <==> RollAccuracy(EffectiveAttackRoll(attacker), EffectiveDefenseRoll(defender), rng[0]))
    ensures !out.0.hit ==> out == (AttackResult(false, 0), 1)
    ensures out.0.hit && !WeaponOf(attacker).debugInstaKill ==>
      out.1 == 2 && 0 <= out.0.damage <= EffectiveMaxHit(attacker)
    ensures out.0.damage >= 0
  {
    var weapon := WeaponOf(attacker);
    if weapon.debugInstaKill then (AttackResult(true, InstaKillDamage), 0)
    else
      var attackRoll := EffectiveAttackRoll(attacker);
      var defenseRoll := EffectiveDefenseRoll(defender);
      if !RollAccuracy(attackRoll, defenseRoll, rng[0]) then (AttackResult(false, 0), 1)
      else (AttackResult(true, RollDamage(EffectiveMaxHit(attacker), rng[1])), 2)
  }

  /** The weapon's bonuses are added to the attacker's own bonuses. */
  lemma AttackRollAddsWeaponBonus(attacker: Fighter, w: Weapon)
    requires attacker.weapon == Some(w)
    ensures EffectiveAttackRoll(attacker) == attacker.attackLevel + w.attackBonus + attacker.attackBonus
    ensures EffectiveMaxHit(attacker) == MaxHit(attacker.strengthLevel, w.strengthBonus + attacker.strengthBonus)
  {
  }

  /** Without a weapon object the attacker fights unarmed: bonus 0 from the weapon. */
  lemma MissingWeaponIsUnarmed(attacker: Fighter)
    requires attacker.weapon.None?
    ensures WeaponOf(attacker) == Unarmed
    ensures EffectiveAttackRoll(attacker) == attacker.attackLevel + attacker.attackBonus
    ensures !WeaponOf(attacker).debugInstaKill
  {
  }

  // ---------------------------------------------------------------- CombatState

  datatype Side = AttackerSide | DefenderSide

  function Opponent(s: Side): Side {
    if s == AttackerSide then DefenderSide else AttackerSide
  }

  /** One callback invocation: `onAttack(by, opponent)`, `onHit(by, opponent, result)`,
      `onCombatEnd(winner, opponent)`. */
  datatype Event = Attacked(side: Side) | HitResolved(side: Side, result: AttackResult) | Ended(side: Side)

  /** The fixed inputs of a fight: both records and the attacker's timing weapon speed. */
  datatype Config = Config(attacker: Fighter, defender: Fighter, weaponSpeed: int)

  /** The state `update` changes: both hitpoints, both timers, `active` and the log. */
  datatype Session = Session(
    attackerHp: int,
    defenderHp: int,
    attackerNext: real,
    defenderNext: real,
    active: bool,
    log: seq<Event>
  )

  /** The new session, `update`'s return value and the number of draws consumed. */
  datatype Tick = Tick(session: Session, stillActive: bool, used: nat)

  /** The attacker branch of `update` (lines 129-149). */
  function AttackerTurn(c: Config, s: Session, time: real, rng: seq<Draw>): Tick
    requires |rng| >= 2
  {
    if time >= s.attackerNext then
      var (res, used) := PerformAttack(c.attacker, c.defender, rng);
      var hp := Max(0, s.defenderHp - res.damage);
      var log := s.log + [Attacked(AttackerSide), HitResolved(AttackerSide, res)];
      var s' := s.(defenderHp := hp, attackerNext := time + c.weaponSpeed as real, log := log);
      if hp <= 0 then Tick(s'.(active := false, log := log + [Ended(AttackerSide)]), false, used)
      else Tick(s', true, used)
    else Tick(s, true, 0)
  }

  /** The defender branch of `update` (lines 152-172); it runs only when the defender's
      attack speed is truthy (non-zero). */
  function DefenderTurn(c: Config, s: Session, time: real, rng: seq<Draw>): Tick
    requires |rng| >= 2
  {
    if c.defender.attackSpeed != 0 && time >= s.defenderNext then
      var (res, used) := PerformAttack(c.defender, c.attacker, rng);
      var hp := Max(0, s.attackerHp - res.damage);
      var log := s.log + [Attacked(DefenderSide), HitResolved(DefenderSide, res)];
      var s' := s.(attackerHp := hp, defenderNext := time + c.defender.attackSpeed as real, log := log);
      if hp <= 0 then Tick(s'.(active := false, log := log + [Ended(DefenderSide)]), false, used)
      else Tick(s', true, used)
    else Tick(s, true, 0)
  }

  /** `update(time)` as a function of the session. */
  function Step(c: Config, s: Session, time: real, rng: seq<Draw>): Tick
    requires |rng| >= 4
  {
    if !s.active then Tick(s, false, 0)
    else
      var t1 := AttackerTurn(c, s, time, rng);
      if !t1.stillActive then t1
      else
        var t2 := DefenderTurn(c, t1.session, time, rng[t1.used..]);
        Tick(t2.session, t2.stillActive, t1.used + t2.used)
  }

  /** One side of a fight, whose hitpoints the session changes in place. */
  class Actor {
    const fighter: Fighter
    var hitpoints: int
    const maxHitpoints: int

    constructor (fighter: Fighter, hitpoints: int, maxHitpoints: int)
      ensures this.fighter == fighter && this.hitpoints == hitpoints && this.maxHitpoints == maxHitpoints
    {
      this.fighter := fighter;
      this.hitpoints := hitpoints;
      this.maxHitpoints := maxHitpoints;
    }
  }

  /** `CombatState`. */
  class CombatState {
    const attacker: Actor
    const defender: Actor
    const weapon: Weapon
    var attackerNextAttack: real
    var defenderNextAttack: real
    var active: bool
    var events: seq<Event>

    ghost predicate Valid() reads this {
      attacker != defender
    }

    function Conf(): Config {
      Config(attacker.fighter, defender.fighter, weapon.attackSpeed)
    }

    function View(): Session reads this, attacker, defender {
      Session(attacker.hitpoints, defender.hitpoints, attackerNextAttack, defenderNextAttack, active, events)
    }

    constructor (attacker: Actor, defender: Actor, attackerWeaponId: string)
      requires attacker != defender
      ensures Valid()
      ensures this.attacker == attacker && this.defender == defender
      ensures weapon == GetWeapon(attackerWeaponId)
      ensures attackerNextAttack == 0.0
      ensures defenderNextAttack == (if defender.fighter.attackSpeed != 0 then defender.fighter.attackSpeed else 3000) as real
      ensures active && events == []
    {
      this.attacker := attacker;
      this.defender := defender;
      weapon := GetWeapon(attackerWeaponId);
      attackerNextAttack := 0.0;
      defenderNextAttack := (if defender.fighter.attackSpeed != 0 then defender.fighter.attackSpeed else 3000) as real;
      active := true;
      events := [];
    }

    /** `update(time)`, drawing randomness from `rng`; `used` is the number of draws consumed. */
    method Update(time: real, rng: seq<Draw>) returns (stillActive: bool, used: nat)
      requires Valid() && |rng| >= 4
      modifies this, attacker, defender
      ensures Valid()
      ensures Tick(View(), stillActive, used) == Step(Conf(), old(View()), time, rng)
    {
      if !active {
        return false, 0;
      }
      stillActive, used := AttackerBranch(time, rng);
      if !stillActive {
        return;
      }
      var more;
      stillActive, more := DefenderBranch(time, rng[used..]);
      used := used + more;
    }

    /** Lines 129-149 of `update`: the attacker's strike when its timer has elapsed. */
    method AttackerBranch(time: real, rng: seq<Draw>) returns (stillActive: bool, used: nat)
      requires Valid() && |rng| >= 2
      modifies this, defender
      ensures Valid()
      ensures Tick(View(), stillActive, used) == AttackerTurn(Conf(), old(View()), time, rng)
    {
      if time >= attackerNextAttack {
        var (result, n) := PerformAttack(attacker.fighter, defender.fighter, rng);
        defender.hitpoints := Max(0, defender.hitpoints - result.damage);
        attackerNextAttack := time + weapon.attackSpeed as real;
        events := events + [Attacked(AttackerSide)];
        events := events + [HitResolved(AttackerSide, result)];
        if defender.hitpoints <= 0 {
          active := false;
          events := events + [Ended(AttackerSide)];
          return false, n;
        }
        return true, n;
      }
      return true, 0;
    }

    /** Lines 152-172 of `update`: the defender's strike, only if its attack speed is truthy. */
    method DefenderBranch(time: real, rng: seq<Draw>) returns (stillActive: bool, used: nat)
      requires Valid() && |rng| >= 2
      modifies this, attacker
      ensures Valid()
      ensures Tick(View(), stillActive, used) == DefenderTurn(Conf(), old(View()), time, rng)
    {
      if defender.fighter.attackSpeed != 0 && time >= defenderNextAttack {
        var (result, n) := PerformAttack(defender.fighter, attacker.fighter, rng);
        attacker.hitpoints := Max(0, attacker.hitpoints - result.damage);
        defenderNextAttack := time + defender.fighter.attackSpeed as real;
        events := events + [Attacked(DefenderSide)];
        events := events + [HitResolved(DefenderSide, result)];
        if attacker.hitpoints <= 0 {
          active := false;
          events := events + [Ended(DefenderSide)];
          return false, n;
        }
        return true, n;
      }
      return true, 0;
    }

    /** `stop()`: ends the fight without a winner and without a callback. */
    method Stop()
      modifies this`active
      ensures !active
    {
      active := false;
    }
  }
}
