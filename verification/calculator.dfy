/**
 * The reducer: the snapshot is the left fold of the step dispatcher over the
 * step log, starting from a fixed zero state.
 */
module Calculator {
  import opened Wrappers
  import opened Enums
  import opened Cards
  import opened SquadDto
  import opened GameStateDto
  import SetupHandlers
  import PlanningHandlers
  import ActivationHandlers
  import CombatHandlers
  import AnyPhaseHandlers
  import CleanupHandlers

  /**
   * The effect of the dispatched tags whose handler bodies are not part of this
   * model (see `Step.Unshown`). It is a parameter, so nothing is claimed about it
   * beyond what a lemma explicitly requires.
   */
  type Unshown = (Step, State) -> State

  /** The zero state the fold starts from. Initiative starts as the empty string, not as null. */
  function Initial(): State {
    State(
      currentStep := 0,
      ships := [],
      playerWithInitiative := Some(""),
      bombIds := [],
      mineIds := [],
      obstacles := [],
      player1Points := 0,
      player2Points := 0,
      totalTurns := 0,
      currentPhase := StartPhase,
      uiScreen := GameStartPage,
      currentActivatingShipId := None,
      currentAttackingShipId := None,
      currentDefendingShipId := None)
  }

  /** Tags whose handler does nothing but advance the step counter. */
  predicate OnlyCounts(st: Step) {
    || st.Planning? || st.StressCheck? || st.PerformAction? || st.DetonateBomb? || st.TriggerAbility?
    || st.RollAttackDice? || st.ModifyAttackDice? || st.RollDefenseDice? || st.ModifyDefenseDice?
  }

  /** Whether the step's handler advances the step counter: all routed tags except `place_obstacle`. */
  predicate Counts(st: Step) {
    !st.PlaceObstacle? && !st.Unrouted()
  }

  /** `handleStep`: route the step to its handler by tag; a tag without a case leaves the state as it is. */
  function Apply(s: State, st: Step, squads: seq<Squad>, cat: Catalog, ext: Unshown): State {
    match st
    case GameStart => SetupHandlers.HandleGameStart(s, squads, cat)
    case IncreaseMaxHull(id) => SetupHandlers.HandleIncreaseMaxHull(s, id)
    case IncreaseMaxShields(id) => SetupHandlers.HandleIncreaseMaxShields(s, id)
    case BeginSelectInitiative => SetupHandlers.HandleBeginSelectInitiative(s)
    case InitiativeSelected(p) => SetupHandlers.HandleInitiativeSelected(s, p)
    case StartSetup => SetupHandlers.HandleStartSetup(s)
    case PlaceObstacle(o) => SetupHandlers.HandlePlaceObstacle(s, o)
    case ShipPlaced(id) => SetupHandlers.HandleShipPlaced(s, id)
    case EndSetup => SetupHandlers.HandleEndSetup(s)
    case TurnStart => PlanningHandlers.HandleTurnStart(s)
    case Planning => Advance(s)
    case ActivationStep(_) => ActivationHandlers.HandleActivationStep(s)
    case BeginManeuver(id) => ActivationHandlers.HandleBeginManeuver(s, id)
    case CleanManeuver(id) => ActivationHandlers.HandleCleanManeuver(s, id)
    case Collide(id, ct, landed) => ActivationHandlers.HandleCollide(s, id, ct, landed)
    case StressCheck(_) => Advance(s)
    case PerformAction(_, _, _) => Advance(s)
    case DetonateBomb(_, _) => Advance(s)
    case DestroyObstacle(o) => AnyPhaseHandlers.HandleDestroyObstacle(s, o)
    case AssignToken(src, tt, cond, dir, tgt) => AnyPhaseHandlers.HandleAssignToken(s, src, tt, cond, dir, tgt)
    case SpendToken(id, tt) => AnyPhaseHandlers.HandleSpendToken(s, id, tt)
    case TriggerAbility(_, _) => Advance(s)
    case CombatStep(_) => CombatHandlers.HandleCombatStep(s)
    case DeclareTarget(a, d, _, _, _) => CombatHandlers.HandleDeclareTarget(s, a, d)
    case RollAttackDice(_) => Advance(s)
    case ModifyAttackDice(_, _, _) => Advance(s)
    case RollDefenseDice(_, _) => Advance(s)
    case ModifyDefenseDice(_, _, _) => Advance(s)
    case CompleteAttack(a) => CombatHandlers.HandleCompleteAttack(s, a)
    case SpendAmmo(id, w, ammo) => AnyPhaseHandlers.HandleSpendAmmo(s, id, w, ammo)
    case ApplyDamage(id, _, _, hull, shields) => AnyPhaseHandlers.HandleApplyDamage(s, id, hull, shields)
    case ShipHalfHealth(id) => AnyPhaseHandlers.HandleShipHalfHealth(s, id)
    case AssignCrit(id, crit) => AnyPhaseHandlers.HandleAssignCrit(s, id, crit)
    case FlipCrit(id, crit, up) => AnyPhaseHandlers.HandleFlipCrit(s, id, crit, up)
    case DestroyShip(id, _) => AnyPhaseHandlers.HandleDestroyShip(s, id)
    case Cleanup => CleanupHandlers.HandleCleanup(s)
    case TurnEnd => CleanupHandlers.HandleTurnEnd(s)
    case GameEnd(_, p1, p2, turns) => CleanupHandlers.HandleGameEnd(s, p1, p2, turns)
    case BeginSelectTarget => s
    case FlipUpgrade(_, _, _) => s
    case PlanningComplete(_) => ext(st, s)
    case ActionSkipped(_) => ext(st, s)
    case SelectActionAgain(_) => ext(st, s)
    case DoneWithActions(_) => ext(st, s)
    case DeclareAttackers => ext(st, s)
    case SelectAttacker => ext(st, s)
    case SelectWeapon => ext(st, s)
    case SkipAttack => ext(st, s)
    case RemoveCrit(_, _) => ext(st, s)
    case RemoveFacedownDamage(_, _) => ext(st, s)
    case FlipCritFacedown(_, _) => ext(st, s)
    case UpdatePilotSkill(_, _) => ext(st, s)
    case DecreaseShields(_) => ext(st, s)
  }

  /** A tag the dispatcher has no case for leaves the state exactly as it was, step counter included. */
  lemma UnroutedIsIdentity(s: State, st: Step, squads: seq<Squad>, cat: Catalog, ext: Unshown)
    requires st.Unrouted()
    ensures Apply(s, st, squads, cat, ext) == s
  {
  }

  /** The tags routed to unmodelled handlers have exactly the effect the parameter gives them. */
  lemma UnshownIsExternal(s: State, st: Step, squads: seq<Squad>, cat: Catalog, ext: Unshown)
    requires st.Unshown()
    ensures Apply(s, st, squads, cat, ext) == ext(st, s)
  {
  }

  /** The handlers of the bookkeeping tags change nothing but the step counter. */
  lemma OnlyCountsAdvance(s: State, st: Step, squads: seq<Squad>, cat: Catalog, ext: Unshown)
    requires OnlyCounts(st)
    ensures Apply(s, st, squads, cat, ext) == s.(currentStep := s.currentStep + 1)
  {
  }

  /** Every modelled handler advances the counter by one, except `place_obstacle` and the unrouted tags, which leave it. */
  lemma ApplyCounter(s: State, st: Step, squads: seq<Squad>, cat: Catalog, ext: Unshown)
    requires !st.Unshown()
    ensures Apply(s, st, squads, cat, ext).currentStep == if Counts(st) then s.currentStep + 1 else s.currentStep
  {
  }

  /** Apply the steps to `s` strictly in list order. */
  function Replay(s: State, steps: seq<Step>, squads: seq<Squad>, cat: Catalog, ext: Unshown): State
    decreases |steps|
  {
    if |steps| == 0 then s else Replay(Apply(s, steps[0], squads, cat, ext), steps[1..], squads, cat, ext)
  }

  /** `calculateGameState`: the fold of the whole log from the zero state. */
  function CalculateGameState(steps: seq<Step>, squads: seq<Squad>, cat: Catalog, ext: Unshown): (r: State)
    ensures |steps| == 0 ==> r == Initial()
    ensures |steps| > 0 ==> r == Replay(Apply(Initial(), steps[0], squads, cat, ext), steps[1..], squads, cat, ext)
  {
    Replay(Initial(), steps, squads, cat, ext)
  }

  /** Appending a step to the log gives the state of the shorter log with that step applied. */
  lemma CalculateGameStateSnoc(steps: seq<Step>, st: Step, squads: seq<Squad>, cat: Catalog, ext: Unshown)
    ensures CalculateGameState(steps + [st], squads, cat, ext) == Apply(CalculateGameState(steps, squads, cat, ext), st, squads, cat, ext)
  {
    ReplaySnoc(Initial(), steps, st, squads, cat, ext);
  }

  /** One more step at the end of the log is one more application to the previous result. */
  lemma {:induction false} ReplaySnoc(s: State, steps: seq<Step>, st: Step, squads: seq<Squad>, cat: Catalog, ext: Unshown)
    ensures Replay(s, steps + [st], squads, cat, ext) == Apply(Replay(s, steps, squads, cat, ext), st, squads, cat, ext)
    decreases |steps|
  {
    if |steps| > 0 {
      assert (steps + [st])[1..] == steps[1..] + [st];
      ReplaySnoc(Apply(s, steps[0], squads, cat, ext), steps[1..], st, squads, cat, ext);
    }
  }

  /** Replaying a concatenated log is replaying the second part from the first part's result. */
  lemma {:induction false} ReplayAppend(s: State, xs: seq<Step>, ys: seq<Step>, squads: seq<Squad>, cat: Catalog, ext: Unshown)
    ensures Replay(s, xs + ys, squads, cat, ext) == Replay(Replay(s, xs, squads, cat, ext), ys, squads, cat, ext)
    decreases |xs|
  {
    if |xs| == 0 {
      assert xs + ys == ys;
    } else {
      assert (xs + ys)[0] == xs[0];
      assert (xs + ys)[1..] == xs[1..] + ys;
      ReplayAppend(Apply(s, xs[0], squads, cat, ext), xs[1..], ys, squads, cat, ext);
    }
  }

  /** Replaying two steps is applying them one after the other. */
  lemma ReplayPair(s: State, a: Step, b: Step, squads: seq<Squad>, cat: Catalog, ext: Unshown)
    ensures Replay(s, [a, b], squads, cat, ext) == Apply(Apply(s, a, squads, cat, ext), b, squads, cat, ext)
  {
    var s1 := Apply(s, a, squads, cat, ext);
    var s2 := Apply(s1, b, squads, cat, ext);
    assert [a, b][1..] == [b];
    assert [b][1..] == [];
    assert Replay(s1, [b], squads, cat, ext) == Replay(s2, [], squads, cat, ext);
  }

  /** The reducer as the source writes it: a loop over the log mutating one state. */
  method CalculateGameStateLoop(steps: seq<Step>, squads: seq<Squad>, cat: Catalog, ext: Unshown) returns (state: State)
    ensures state == CalculateGameState(steps, squads, cat, ext)
  {
    state := Initial();
    var i := 0;
    while i < |steps|
      invariant 0 <= i <= |steps|
      invariant state == Replay(Initial(), steps[..i], squads, cat, ext)
    {
      ReplaySnoc(Initial(), steps[..i], steps[i], squads, cat, ext);
      assert steps[..i + 1] == steps[..i] + [steps[i]];
      state := Apply(state, steps[i], squads, cat, ext);
      i := i + 1;
    }
    assert steps[..i] == steps;
  }

  // ---- the step counter ----

  /** Number of steps in the log whose handler advances the counter. */
  function CountedSteps(steps: seq<Step>): (r: nat)
    ensures r <= |steps|
  {
    if |steps| == 0 then 0 else (if Counts(steps[0]) then 1 else 0) + CountedSteps(steps[1..])
  }

  /**
   * On a log of modelled steps the counter advances by exactly the number of
   * steps other than `place_obstacle` and the unrouted tags.
   */
  lemma {:induction false} StepCounterExact(s: State, steps: seq<Step>, squads: seq<Squad>, cat: Catalog, ext: Unshown)
    requires forall i :: 0 <= i < |steps| ==> !steps[i].Unshown()
    ensures Replay(s, steps, squads, cat, ext).currentStep == s.currentStep + CountedSteps(steps)
    decreases |steps|
  {
    if |steps| > 0 {
      ApplyCounter(s, steps[0], squads, cat, ext);
      StepCounterExact(Apply(s, steps[0], squads, cat, ext), steps[1..], squads, cat, ext);
    }
  }

  /**
   * Every modelled handler advances the counter by at most one; if the unshown
   * ones do too, the counter never exceeds the number of steps processed.
   */
  lemma {:induction false} StepCounterBound(s: State, steps: seq<Step>, squads: seq<Squad>, cat: Catalog, ext: Unshown)
    requires forall st: Step, x: State :: ext(st, x).currentStep <= x.currentStep + 1
    ensures Replay(s, steps, squads, cat, ext).currentStep <= s.currentStep + |steps|
    decreases |steps|
  {
    if |steps| > 0 {
      var next := Apply(s, steps[0], squads, cat, ext);
      if steps[0].Unshown() {
        UnshownIsExternal(s, steps[0], squads, cat, ext);
      } else {
        ApplyCounter(s, steps[0], squads, cat, ext);
      }
      assert next.currentStep <= s.currentStep + 1;
      StepCounterBound(next, steps[1..], squads, cat, ext);
    }
  }

  lemma CalculatedCounterBound(steps: seq<Step>, squads: seq<Squad>, cat: Catalog, ext: Unshown)
    requires forall st: Step, x: State :: ext(st, x).currentStep <= x.currentStep + 1
    ensures CalculateGameState(steps, squads, cat, ext).currentStep <= |steps|
  {
    StepCounterBound(Initial(), steps, squads, cat, ext);
  }

  // ---- what only game start can undo ----

  /**
   * `b` continues the ships of `a`: the same ships with the same ids and owners
   * in the same order, and no ship that was placed, destroyed or scored at half
   * points has lost that mark.
   */
  ghost predicate Continues(a: seq<Ship>, b: seq<Ship>) {
    |a| == |b| && forall i :: 0 <= i < |a| ==> ShipContinues(a[i], b[i])
  }

  /** One ship continues another: same id and owner, and no sticky mark cleared. */
  ghost predicate ShipContinues(a: Ship, b: Ship) {
    && b.shipId == a.shipId
    && b.playerId == a.playerId
    && (a.isPlaced ==> b.isPlaced)
    && (a.isDestroyed ==> b.isDestroyed)
    && (a.isHalfPointsScored ==> b.isHalfPointsScored)
  }

  lemma SetupStepContinues(s: State, st: Step, squads: seq<Squad>, cat: Catalog, ext: Unshown)
    requires st.IncreaseMaxHull? || st.IncreaseMaxShields? || st.BeginSelectInitiative? || st.InitiativeSelected?
          || st.StartSetup? || st.PlaceObstacle? || st.ShipPlaced? || st.EndSetup?
    ensures Continues(s.ships, Apply(s, st, squads, cat, ext).ships)
  {
  }

  lemma PlanningActivationStepContinues(s: State, st: Step, squads: seq<Squad>, cat: Catalog, ext: Unshown)
    requires st.TurnStart? || st.ActivationStep? || st.BeginManeuver? || st.CleanManeuver? || st.Collide? || st.DestroyObstacle?
    ensures Continues(s.ships, Apply(s, st, squads, cat, ext).ships)
  {
    if st.BeginManeuver? || st.CleanManeuver? || st.Collide? {
      ShipLookupCases(s.ships, st.shipId);
    }
  }

  lemma CombatStepContinues(s: State, st: Step, squads: seq<Squad>, cat: Catalog, ext: Unshown)
    requires st.CombatStep? || st.DeclareTarget? || st.CompleteAttack?
    ensures Continues(s.ships, Apply(s, st, squads, cat, ext).ships)
  {
    if !st.CombatStep? {
      ShipLookupCases(s.ships, st.attackerShipId);
    }
  }

  lemma CleanupStepContinues(s: State, st: Step, squads: seq<Squad>, cat: Catalog, ext: Unshown)
    requires st.Cleanup? || st.TurnEnd? || st.GameEnd?
    ensures Continues(s.ships, Apply(s, st, squads, cat, ext).ships)
  {
    assert Apply(s, st, squads, cat, ext).ships == s.ships;
  }

  lemma TokenStepContinues(s: State, st: Step, squads: seq<Squad>, cat: Catalog, ext: Unshown)
    requires st.AssignToken? || st.SpendToken? || st.SpendAmmo?
    ensures Continues(s.ships, Apply(s, st, squads, cat, ext).ships)
  {
    if st.AssignToken? {
      ShipLookupCases(s.ships, st.sourceShipId);
    } else {
      ShipLookupCases(s.ships, st.shipId);
    }
  }

  lemma DamageStepContinues(s: State, st: Step, squads: seq<Squad>, cat: Catalog, ext: Unshown)
    requires st.ApplyDamage? || st.ShipHalfHealth? || st.DestroyShip?
    ensures Continues(s.ships, Apply(s, st, squads, cat, ext).ships)
  {
    ShipLookupCases(s.ships, st.shipId);
  }

  lemma CritStepContinues(s: State, st: Step, squads: seq<Squad>, cat: Catalog, ext: Unshown)
    requires st.AssignCrit?
    ensures Continues(s.ships, Apply(s, st, squads, cat, ext).ships)
  {
    ShipLookupCases(s.ships, st.shipId);
  }

  lemma FlipCritStepContinues(s: State, st: Step, squads: seq<Squad>, cat: Catalog, ext: Unshown)
    requires st.FlipCrit?
    ensures Continues(s.ships, Apply(s, st, squads, cat, ext).ships)
  {
    ShipLookupCases(s.ships, st.shipId);
  }

  /** Token, damage and crit steps continue the ship list. */
  lemma AnyPhaseStepContinues(s: State, st: Step, squads: seq<Squad>, cat: Catalog, ext: Unshown)
    requires st.AnyPhase()
    ensures Continues(s.ships, Apply(s, st, squads, cat, ext).ships)
  {
    match st
    case AssignToken(_, _, _, _, _) | SpendToken(_, _) | SpendAmmo(_, _, _) =>
      TokenStepContinues(s, st, squads, cat, ext);
    case ApplyDamage(_, _, _, _, _) | ShipHalfHealth(_) | DestroyShip(_, _) =>
      DamageStepContinues(s, st, squads, cat, ext);
    case AssignCrit(_, _) =>
      CritStepContinues(s, st, squads, cat, ext);
    case FlipCrit(_, _, _) =>
      FlipCritStepContinues(s, st, squads, cat, ext);
    case FlipUpgrade(_, _, _) =>
      UnroutedIsIdentity(s, st, squads, cat, ext);
    case _ =>
      assert false;
  }

  /** Every other modelled step continues the ship list. */
  lemma PhaseStepContinues(s: State, st: Step, squads: seq<Squad>, cat: Catalog, ext: Unshown)
    requires !st.AnyPhase() && !st.GameStart? && !st.Unshown()
    ensures Continues(s.ships, Apply(s, st, squads, cat, ext).ships)
  {
    match st
    case Planning | StressCheck(_) | PerformAction(_, _, _) | DetonateBomb(_, _) | TriggerAbility(_, _)
       | RollAttackDice(_) | ModifyAttackDice(_, _, _) | RollDefenseDice(_, _) | ModifyDefenseDice(_, _, _) =>
      OnlyCountsAdvance(s, st, squads, cat, ext);
    case BeginSelectTarget =>
      UnroutedIsIdentity(s, st, squads, cat, ext);
    case IncreaseMaxHull(_) | IncreaseMaxShields(_) | BeginSelectInitiative | InitiativeSelected(_)
       | StartSetup | PlaceObstacle(_) | ShipPlaced(_) | EndSetup =>
      SetupStepContinues(s, st, squads, cat, ext);
    case TurnStart | ActivationStep(_) | BeginManeuver(_) | CleanManeuver(_) | Collide(_, _, _) | DestroyObstacle(_) =>
      PlanningActivationStepContinues(s, st, squads, cat, ext);
    case CombatStep(_) | DeclareTarget(_, _, _, _, _) | CompleteAttack(_) =>
      CombatStepContinues(s, st, squads, cat, ext);
    case Cleanup | TurnEnd | GameEnd(_, _, _, _) =>
      CleanupStepContinues(s, st, squads, cat, ext);
    case _ =>
      assert false;
  }

  /** Every modelled step other than game start continues the ship list it is applied to. */
  lemma ApplyContinues(s: State, st: Step, squads: seq<Squad>, cat: Catalog, ext: Unshown)
    requires !st.GameStart? && !st.Unshown()
    ensures Continues(s.ships, Apply(s, st, squads, cat, ext).ships)
  {
    if st.AnyPhase() {
      AnyPhaseStepContinues(s, st, squads, cat, ext);
    } else {
      PhaseStepContinues(s, st, squads, cat, ext);
    }
  }

  /**
   * A log without game start and without unshown steps keeps the ship list:
   * nobody joins or leaves, nobody changes owner, and placement, destruction and
   * half-points marks are never cleared.
   */
  lemma {:induction false} ReplayContinues(s: State, steps: seq<Step>, squads: seq<Squad>, cat: Catalog, ext: Unshown)
    requires forall i :: 0 <= i < |steps| ==> !steps[i].GameStart? && !steps[i].Unshown()
    ensures Continues(s.ships, Replay(s, steps, squads, cat, ext).ships)
    decreases |steps|
  {
    if |steps| > 0 {
      var next := Apply(s, steps[0], squads, cat, ext);
      ApplyContinues(s, steps[0], squads, cat, ext);
      ReplayContinues(next, steps[1..], squads, cat, ext);
    }
  }
}
