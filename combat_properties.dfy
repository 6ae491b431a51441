/** What `CombatState.update` promises, proved about its functional model `Combat.Step`
    and about runs of many calls that share one stream of random draws. */
module CombatProperties {
  import opened Common
  import opened Combat

  /** The events one call of `update` appended to the log. */
  function NewEvents(s: Session, t: Tick): seq<Event>
    requires |s.log| <= |t.session.log|
  {
    t.session.log[|s.log|..]
  }

  /** The callbacks of one side's branch: nothing when it is not due, otherwise
      `onAttack`, `onHit` with the result and, if the blow was lethal, `onCombatEnd`. */
  function TurnEvents(side: Side, due: bool, res: AttackResult, ended: bool): seq<Event> {
    if !due then []
    else [Attacked(side), HitResolved(side, res)] + (if ended then [Ended(side)] else [])
  }

  /** Number of attack attempts by `side` in `e`. */
  function Strikes(e: seq<Event>, side: Side): nat {
    if e == [] then 0
    else Strikes(e[..|e| - 1], side) + (if e[|e| - 1] == Attacked(side) then 1 else 0)
  }

  function Rank(side: Side): nat {
    if side == AttackerSide then 0 else 1
  }

  /** True when every event in `e` belongs to `side`. */
  ghost predicate AllBy(e: seq<Event>, side: Side) {
    forall i :: 0 <= i < |e| ==> e[i].side == side
  }

  /** The callback order of one `update` call: each `onAttack` is followed at once by the
      same side's `onHit`, every attacker callback comes before every defender callback,
      and `onCombatEnd` is the last callback. */
  ghost predicate CallbackOrder(e: seq<Event>) {
    && (forall i :: 0 <= i < |e| && e[i].Attacked? ==>
          i + 1 < |e| && e[i + 1].HitResolved? && e[i + 1].side == e[i].side)
    && (forall i :: 0 <= i < |e| && e[i].HitResolved? ==> 0 < i && e[i - 1] == Attacked(e[i].side))
    && (forall i, j :: 0 <= i < j < |e| ==> Rank(e[i].side) <= Rank(e[j].side))
    && (forall i :: 0 <= i < |e| && e[i].Ended? ==> i == |e| - 1)
  }

  /** True when the attacker's timer has elapsed in an active session. */
  predicate AttackerDue(s: Session, time: real) {
    s.active && time >= s.attackerNext
  }

  /** True when the defender strikes in this call: the attacker's blow (if any) was not
      lethal, the defender has a truthy attack speed and its timer has elapsed. */
  predicate DefenderDue(c: Config, s: Session, time: real, rng: seq<Draw>)
    requires |rng| >= 2
  {
    s.active && AttackerTurn(c, s, time, rng).stillActive &&
    c.defender.attackSpeed != 0 && time >= s.defenderNext
  }

  // ---------------------------------------------------------------- one branch

  lemma AttackerTurnShape(c: Config, s: Session, time: real, rng: seq<Draw>)
    requires |rng| >= 2
    ensures var t := AttackerTurn(c, s, time, rng);
      && t.session.log == s.log + TurnEvents(AttackerSide, time >= s.attackerNext,
                                   PerformAttack(c.attacker, c.defender, rng).0, !t.stillActive)
      && (!t.stillActive ==> time >= s.attackerNext)
      && t.session.active == (s.active && t.stillActive)
      && t.used <= 2
  {
  }

  lemma DefenderTurnShape(c: Config, s: Session, time: real, rng: seq<Draw>)
    requires |rng| >= 2
    ensures var t := DefenderTurn(c, s, time, rng);
      && t.session.log == s.log + TurnEvents(DefenderSide, c.defender.attackSpeed != 0 && time >= s.defenderNext,
                                   PerformAttack(c.defender, c.attacker, rng).0, !t.stillActive)
      && (!t.stillActive ==> c.defender.attackSpeed != 0 && time >= s.defenderNext)
      && t.session.active == (s.active && t.stillActive)
      && t.used <= 2
  {
  }

  lemma StrikesOfTurn(side: Side, due: bool, res: AttackResult, ended: bool, who: Side)
    ensures Strikes(TurnEvents(side, due, res, ended), who) == if due && side == who then 1 else 0
  {
    if due {
      var a, h := [Attacked(side)], [HitResolved(side, res)];
      var x := if ended then [Ended(side)] else [];
      assert TurnEvents(side, due, res, ended) == a + h + x;
      StrikesAppend(a + h, x, who);
      StrikesAppend(a, h, who);
      assert a[..0] == [] && h[..0] == [];
      if ended {
        assert x[..0] == [];
      }
    }
  }

  lemma {:induction false} StrikesAppend(a: seq<Event>, b: seq<Event>, side: Side)
    ensures Strikes(a + b, side) == Strikes(a, side) + Strikes(b, side)
  {
    if b != [] {
      var b' := b[..|b| - 1];
      assert (a + b)[..|a + b| - 1] == a + b';
      StrikesAppend(a, b', side);
    } else {
      assert a + b == a;
    }
  }

  lemma OrderOfTurns(da: bool, ra: AttackResult, dd: bool, rd: AttackResult, ended: bool)
    ensures CallbackOrder(TurnEvents(AttackerSide, da, ra, false) + TurnEvents(DefenderSide, dd, rd, ended))
  {
    TurnOrder(AttackerSide, da, ra, false);
    TurnOrder(DefenderSide, dd, rd, ended);
    OrderConcat(TurnEvents(AttackerSide, da, ra, false), TurnEvents(DefenderSide, dd, rd, ended));
  }

  /** The two branches end with `onCombatEnd` exactly when the defender struck a
      lethal blow. */
  lemma TurnsEnd(da: bool, ra: AttackResult, dd: bool, rd: AttackResult, ended: bool)
    ensures var e := TurnEvents(AttackerSide, da, ra, false) + TurnEvents(DefenderSide, dd, rd, ended);
      |e| > 0 && e[|e| - 1].Ended? <==> dd && ended
  {
    var a := TurnEvents(AttackerSide, da, ra, false);
    var d := TurnEvents(DefenderSide, dd, rd, ended);
    var e := a + d;
    if d != [] {
      assert e[|e| - 1] == d[|d| - 1];
    } else {
      assert e == a;
    }
  }

  /** One side's branch is well ordered, all by that side, and logs an end only if lethal. */
  lemma TurnOrder(side: Side, due: bool, res: AttackResult, ended: bool)
    ensures var e := TurnEvents(side, due, res, ended);
      && CallbackOrder(e) && AllBy(e, side)
      && (forall i :: 0 <= i < |e| && e[i].Ended? ==> ended)
  {
    var e := TurnEvents(side, due, res, ended);
    if due {
      if ended {
        assert e == [Attacked(side), HitResolved(side, res), Ended(side)];
      } else {
        assert e == [Attacked(side), HitResolved(side, res)];
      }
    }
  }

  /** An attacker branch that does not end the fight, followed by a defender branch. */
  lemma OrderConcat(a: seq<Event>, b: seq<Event>)
    requires CallbackOrder(a) && CallbackOrder(b)
    requires AllBy(a, AttackerSide) && AllBy(b, DefenderSide)
    requires forall i :: 0 <= i < |a| ==> !a[i].Ended?
    ensures CallbackOrder(a + b)
  {
    var e := a + b;
    forall i | 0 <= i < |e| && e[i].Attacked?
      ensures i + 1 < |e| && e[i + 1].HitResolved? && e[i + 1].side == e[i].side
    {
      if i < |a| {
        assert e[i] == a[i] && e[i + 1] == a[i + 1];
      } else {
        assert e[i] == b[i - |a|] && e[i + 1] == b[i + 1 - |a|];
      }
    }
    forall i | 0 <= i < |e| && e[i].HitResolved?
      ensures 0 < i && e[i - 1] == Attacked(e[i].side)
    {
      if i < |a| {
        assert e[i] == a[i] && e[i - 1] == a[i - 1];
      } else {
        assert e[i] == b[i - |a|];
        assert e[i - 1] == b[i - 1 - |a|];
      }
    }
    forall i, j | 0 <= i < j < |e|
      ensures Rank(e[i].side) <= Rank(e[j].side)
    {
      if j < |a| {
        assert e[i] == a[i] && e[j] == a[j];
      } else if i < |a| {
        assert e[i] == a[i] && e[j] == b[j - |a|];
      } else {
        assert e[i] == b[i - |a|] && e[j] == b[j - |a|];
      }
    }
    assert forall k :: 0 <= k < |a| ==> e[k] == a[k];
    forall i | 0 <= i < |e| && e[i].Ended?
      ensures i == |e| - 1
    {
      assert i >= |a|;
      assert e[i] == b[i - |a|];
    }
  }

  lemma OrderOfLethalTurn(ra: AttackResult)
    ensures CallbackOrder(TurnEvents(AttackerSide, true, ra, true))
  {
  }

  // ---------------------------------------------------------------- one call

  /** An ended session is left exactly as it was and `update` returns false. */
  lemma StepAfterEnd(c: Config, s: Session, time: real, rng: seq<Draw>)
    requires |rng| >= 4 && !s.active
    ensures Step(c, s, time, rng) == Tick(s, false, 0)
  {
  }

  /** `update` returns whether the session is still active, never revives an ended
      session and consumes at most four draws. */
  lemma StepResult(c: Config, s: Session, time: real, rng: seq<Draw>)
    requires |rng| >= 4
    ensures Step(c, s, time, rng).stillActive == Step(c, s, time, rng).session.active
    ensures Step(c, s, time, rng).used <= 4
    ensures Step(c, s, time, rng).session.active ==> s.active
  {
    if s.active {
      var t1 := AttackerTurn(c, s, time, rng);
      AttackerTurnShape(c, s, time, rng);
      if t1.stillActive {
        DefenderTurnShape(c, t1.session, time, rng[t1.used..]);
      }
    }
  }

  /** Hitpoints are clamped at zero and never increase. */
  lemma StepHitpoints(c: Config, s: Session, time: real, rng: seq<Draw>)
    requires |rng| >= 4 && s.attackerHp >= 0 && s.defenderHp >= 0
    ensures 0 <= Step(c, s, time, rng).session.attackerHp <= s.attackerHp
    ensures 0 <= Step(c, s, time, rng).session.defenderHp <= s.defenderHp
  {
  }

  /** The log of one call: the old log followed by the attacker's branch and then, unless
      the attacker's blow ended the fight, the defender's branch. */
  lemma StepLog(c: Config, s: Session, time: real, rng: seq<Draw>)
    requires |rng| >= 4 && s.active
    ensures var t := Step(c, s, time, rng);
      var t1 := AttackerTurn(c, s, time, rng);
      && t.session.log == s.log +
           TurnEvents(AttackerSide, AttackerDue(s, time), PerformAttack(c.attacker, c.defender, rng).0, !t1.stillActive) +
           (if t1.stillActive then
              TurnEvents(DefenderSide, DefenderDue(c, s, time, rng),
                         PerformAttack(c.defender, c.attacker, rng[t1.used..]).0, !t.stillActive)
            else [])
  {
    var t1 := AttackerTurn(c, s, time, rng);
    AttackerTurnShape(c, s, time, rng);
    if t1.stillActive {
      DefenderTurnShape(c, t1.session, time, rng[t1.used..]);
      assert t1.session.defenderNext == s.defenderNext;
    }
  }

  /** Each side reschedules from `time` when it strikes: the attacker by the weapon's
      speed, the defender by its own attack speed. */
  lemma StepTimers(c: Config, s: Session, time: real, rng: seq<Draw>)
    requires |rng| >= 4
    ensures Step(c, s, time, rng).session.attackerNext ==
      if AttackerDue(s, time) then time + c.weaponSpeed as real else s.attackerNext
    ensures Step(c, s, time, rng).session.defenderNext ==
      if DefenderDue(c, s, time, rng) then time + c.defender.attackSpeed as real else s.defenderNext
  {
  }

  /** Each side strikes at most once per call: the attacker exactly when its timer is due,
      the defender exactly when `DefenderDue` holds. */
  lemma StepStrikes(c: Config, s: Session, time: real, rng: seq<Draw>)
    requires |rng| >= 4
    ensures |s.log| <= |Step(c, s, time, rng).session.log|
    ensures Strikes(NewEvents(s, Step(c, s, time, rng)), AttackerSide) == (if AttackerDue(s, time) then 1 else 0)
    ensures Strikes(NewEvents(s, Step(c, s, time, rng)), DefenderSide) == (if DefenderDue(c, s, time, rng) then 1 else 0)
  {
    var t := Step(c, s, time, rng);
    if s.active {
      var t1 := AttackerTurn(c, s, time, rng);
      StepLog(c, s, time, rng);
      var ra := PerformAttack(c.attacker, c.defender, rng).0;
      var ea := TurnEvents(AttackerSide, AttackerDue(s, time), ra, !t1.stillActive);
      StrikesOfTurn(AttackerSide, AttackerDue(s, time), ra, !t1.stillActive, AttackerSide);
      StrikesOfTurn(AttackerSide, AttackerDue(s, time), ra, !t1.stillActive, DefenderSide);
      if t1.stillActive {
        var rd := PerformAttack(c.defender, c.attacker, rng[t1.used..]).0;
        var ed := TurnEvents(DefenderSide, DefenderDue(c, s, time, rng), rd, !t.stillActive);
        assert NewEvents(s, t) == ea + ed;
        StrikesAppend(ea, ed, AttackerSide);
        StrikesAppend(ea, ed, DefenderSide);
        StrikesOfTurn(DefenderSide, DefenderDue(c, s, time, rng), rd, !t.stillActive, AttackerSide);
        StrikesOfTurn(DefenderSide, DefenderDue(c, s, time, rng), rd, !t.stillActive, DefenderSide);
      } else {
        assert NewEvents(s, t) == ea;
      }
    } else {
      assert NewEvents(s, t) == [];
    }
  }

  /** The callbacks of one call come in the order of lines 134-148 and 157-171, the old
      log is kept as a prefix, and `onCombatEnd` is logged (last) exactly when the call
      ends the session. */
  lemma StepCallbackOrder(c: Config, s: Session, time: real, rng: seq<Draw>)
    requires |rng| >= 4
    ensures |s.log| <= |Step(c, s, time, rng).session.log|
    ensures Step(c, s, time, rng).session.log == s.log + NewEvents(s, Step(c, s, time, rng))
    ensures CallbackOrder(NewEvents(s, Step(c, s, time, rng)))
    ensures s.active ==>
      (!Step(c, s, time, rng).session.active <==>
        |NewEvents(s, Step(c, s, time, rng))| > 0 &&
        NewEvents(s, Step(c, s, time, rng))[|NewEvents(s, Step(c, s, time, rng))| - 1].Ended?)
  {
    var t := Step(c, s, time, rng);
    if s.active {
      var t1 := AttackerTurn(c, s, time, rng);
      StepLog(c, s, time, rng);
      StepResult(c, s, time, rng);
      var ra := PerformAttack(c.attacker, c.defender, rng).0;
      var ea := TurnEvents(AttackerSide, AttackerDue(s, time), ra, !t1.stillActive);
      if t1.stillActive {
        var rd := PerformAttack(c.defender, c.attacker, rng[t1.used..]).0;
        var ed := TurnEvents(DefenderSide, DefenderDue(c, s, time, rng), rd, !t.stillActive);
        assert NewEvents(s, t) == ea + ed;
        OrderOfTurns(AttackerDue(s, time), ra, DefenderDue(c, s, time, rng), rd, !t.stillActive);
        TurnsEnd(AttackerDue(s, time), ra, DefenderDue(c, s, time, rng), rd, !t.stillActive);
        DefenderTurnShape(c, t1.session, time, rng[t1.used..]);
      } else {
        AttackerTurnShape(c, s, time, rng);
        assert NewEvents(s, t) == ea;
        OrderOfLethalTurn(ra);
      }
    } else {
      assert NewEvents(s, t) == [];
    }
  }

  /** When the attacker's blow is lethal the defender branch does not run in that call:
      the attacker keeps its hitpoints and the defender's timer is untouched. */
  lemma LethalAttackerBlowPreemptsDefender(c: Config, s: Session, time: real, rng: seq<Draw>)
    requires |rng| >= 4 && AttackerDue(s, time)
    requires PerformAttack(c.attacker, c.defender, rng).0.damage >= s.defenderHp
    ensures !Step(c, s, time, rng).stillActive
    ensures Step(c, s, time, rng).session.defenderHp == 0
    ensures Step(c, s, time, rng).session.attackerHp == s.attackerHp
    ensures Step(c, s, time, rng).session.defenderNext == s.defenderNext
    ensures Step(c, s, time, rng).session.log ==
      s.log + [Attacked(AttackerSide), HitResolved(AttackerSide, PerformAttack(c.attacker, c.defender, rng).0), Ended(AttackerSide)]
  {
  }

  /** A second call at the same time changes nothing, given a positive weapon speed (as
      every weapon has) and a non-negative defender speed. */
  lemma StepSameTimeIdempotent(c: Config, s: Session, time: real, rng: seq<Draw>, rng2: seq<Draw>)
    requires |rng| >= 4 && |rng2| >= 4
    requires c.weaponSpeed > 0 && c.defender.attackSpeed >= 0
    ensures Step(c, Step(c, s, time, rng).session, time, rng2) ==
      Tick(Step(c, s, time, rng).session, Step(c, s, time, rng).session.active, 0)
  {
    StepTimers(c, s, time, rng);
    StepResult(c, s, time, rng);
  }

  /** Against a defender without an attack speed a call logs only attacker callbacks and
      leaves the attacker's hitpoints alone. */
  lemma PassiveDefenderStep(c: Config, s: Session, time: real, rng: seq<Draw>)
    requires |rng| >= 4 && c.defender.attackSpeed == 0
    ensures Step(c, s, time, rng).session.log == s.log + NewEvents(s, Step(c, s, time, rng))
    ensures AllBy(NewEvents(s, Step(c, s, time, rng)), AttackerSide)
    ensures Step(c, s, time, rng).session.attackerHp == s.attackerHp
  {
    StepCallbackOrder(c, s, time, rng);
    if s.active {
      StepLog(c, s, time, rng);
    }
  }

  // ---------------------------------------------------------------- many calls

  /** Successive `update` calls at `times`, all drawing from one stream of random numbers. */
  function Run(c: Config, s: Session, times: seq<real>, rng: seq<Draw>): Session
    requires |rng| >= 4 * |times|
    decreases |times|
  {
    if times == [] then s
    else
      var t := Step(c, s, times[0], rng);
      StepResult(c, s, times[0], rng);
      Run(c, t.session, times[1..], rng[t.used..])
  }

  /** Once a session has ended no call changes anything. */
  lemma {:induction false} RunAfterEnd(c: Config, s: Session, times: seq<real>, rng: seq<Draw>)
    requires |rng| >= 4 * |times| && !s.active
    ensures Run(c, s, times, rng) == s
    decreases |times|
  {
    if times != [] {
      RunAfterEnd(c, s, times[1..], rng);
    }
  }

  /** Over any number of calls the hitpoints stay non-negative and never increase, and
      the log only grows. */
  lemma {:induction false} RunHitpoints(c: Config, s: Session, times: seq<real>, rng: seq<Draw>)
    requires |rng| >= 4 * |times| && s.attackerHp >= 0 && s.defenderHp >= 0
    ensures 0 <= Run(c, s, times, rng).attackerHp <= s.attackerHp
    ensures 0 <= Run(c, s, times, rng).defenderHp <= s.defenderHp
    ensures |s.log| <= |Run(c, s, times, rng).log| && Run(c, s, times, rng).log[..|s.log|] == s.log
    decreases |times|
  {
    if times != [] {
      var t := Step(c, s, times[0], rng);
      StepResult(c, s, times[0], rng);
      StepHitpoints(c, s, times[0], rng);
      StepCallbackOrder(c, s, times[0], rng);
      RunHitpoints(c, t.session, times[1..], rng[t.used..]);
      var r := Run(c, s, times, rng);
      assert r.log[..|t.session.log|][..|s.log|] == r.log[..|s.log|];
    }
  }

  lemma AllByAppend(a: seq<Event>, b: seq<Event>, side: Side)
    requires AllBy(a, side) && AllBy(b, side)
    ensures AllBy(a + b, side)
  {
    assert forall i :: 0 <= i < |a| ==> (a + b)[i] == a[i];
    assert forall i :: |a| <= i < |a + b| ==> (a + b)[i] == b[i - |a|];
  }

  /** A defender without an attack speed never strikes back, across any number of calls:
      only attacker callbacks are logged and the attacker's hitpoints never change. */
  lemma {:induction false} PassiveDefenderNeverStrikes(c: Config, s: Session, times: seq<real>, rng: seq<Draw>)
    requires |rng| >= 4 * |times| && c.defender.attackSpeed == 0
    ensures Run(c, s, times, rng).attackerHp == s.attackerHp
    ensures |s.log| <= |Run(c, s, times, rng).log|
    ensures Run(c, s, times, rng).log == s.log + Run(c, s, times, rng).log[|s.log|..]
    ensures AllBy(Run(c, s, times, rng).log[|s.log|..], AttackerSide)
    decreases |times|
  {
    if times != [] {
      var t := Step(c, s, times[0], rng);
      StepResult(c, s, times[0], rng);
      PassiveDefenderStep(c, s, times[0], rng);
      PassiveDefenderNeverStrikes(c, t.session, times[1..], rng[t.used..]);
      var r := Run(c, s, times, rng);
      var e1 := NewEvents(s, t);
      var e2 := r.log[|t.session.log|..];
      assert r.log == s.log + (e1 + e2);
      AllByAppend(e1, e2, AttackerSide);
      assert r.log[|s.log|..] == e1 + e2;
    } else {
      assert s.log[|s.log|..] == [];
    }
  }
}
