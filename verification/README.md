# X-Wing game runner: the game-state reducer in Dafny

The game runner records a game of X-Wing Miniatures as an append-only log of
steps: game start, obstacle placement, dials, manoeuvres, tokens, attacks,
damage, crits and the end-of-round cleanup. The state on screen is never
stored. It is recomputed by replaying the log from a fixed initial state. The
reducer routes each step to a handler by its tag, and each handler edits the
ship, obstacle or phase fields that step names. At game start the roster
squads are expanded into ship states. Each ship gets its pilot card's stats
and a weapon list built from its equipped upgrades.

This project models that core:

- the reducer (`Calculator`), with the handlers grouped by game phase
  (`SetupHandlers`, `PlanningHandlers`, `ActivationHandlers`,
  `CombatHandlers`, `AnyPhaseHandlers`, `CleanupHandlers`);
- the weapon factory (`WeaponFactory`);
- the state and step records (`GameStateDto`);
- the client helpers around the reducer:
  - the replay cursor (`UseGameState`);
  - the actions that emit steps (`UseGameActions`);
  - squad point counting with the Vaksai discount (`UseSquadPoints`);
  - upgrade-slot queries (`UseUpgrades`);
  - the per-player ship lists (`UseGameShips`).

Every operation is a pure function over immutable datatypes. Where the source
mutates the state in place, the model returns the new state. The shared
"first ship with this id" edit is `GameStateDto.EditShip`. The log replay is a
left fold (`Calculator.Replay`), and `Calculator.CalculateGameStateLoop` is
the loop over the log proved equal to it.

The dispatcher also routes thirteen tags to handlers whose code is not part of
this model. The reducer takes their effect as a parameter,
`ext: (Step, State) -> State`, and every property that depends on them says so
in its requires clause.

## Model

| member | source | states |
|---|---|---|
| Calculator.Initial | shared/game-state/calculator.ts:22-37 | the zero state the fold starts from: counter, points and turns at 0, no ships, bombs, mines or obstacles, initiative the empty string, the start phase and page, no focus ids; it has no contract of its own, and CalculateGameState's first ensures makes it the state of an empty log |
| Calculator.Apply | shared/game-state/calculator.ts:46-231 | `handleStep`, the tag switch; it has no contract of its own, and its cases are pinned by UnroutedIsIdentity, UnshownIsExternal, OnlyCountsAdvance, ApplyCounter and the *StepContinues lemmas, with each handler's own contract for the modelled tags |
| Calculator.Replay | shared/game-state/calculator.ts:39-41 | the `for` loop over the log as a left fold of Apply, in list order; it has no contract of its own, and ReplaySnoc, ReplayAppend, ReplayPair and CalculateGameStateLoop pin it |
| Calculator.CalculateGameState | shared/game-state/calculator.ts:17-44 | an empty log yields the initial state; otherwise the state is the first step applied to the initial state, then the rest of the log replayed |
| Calculator.CalculateGameStateLoop | shared/game-state/calculator.ts:17-44 | the loop that applies each step to one state in place ends in exactly the state the replay fold defines |
| Calculator.CalculateGameStateSnoc | shared/game-state/calculator.ts:39-43 | the state of a log with one more step is that step applied to the state of the shorter log |
| Calculator.ReplaySnoc | shared/game-state/calculator.ts:39-43 | replaying a log with one more step is applying that step to the replay of the shorter log |
| Calculator.ReplayAppend | shared/game-state/calculator.ts:39-43 | replaying two logs back to back equals replaying the second from the state the first reaches |
| Calculator.ReplayPair | shared/game-state/calculator.ts:39-43 | a two-step log applies its two steps in order |
| Calculator.UnroutedIsIdentity | shared/game-state/calculator.ts:52-231 | a tag with no case in the switch (begin_select_target, flip_upgrade) leaves the state unchanged, the step counter included |
| Calculator.UnshownIsExternal | shared/game-state/calculator.ts:52-231 | a tag routed to a handler outside this model has exactly that handler's effect |
| Calculator.OnlyCountsAdvance | shared/game-state/calculator.ts:88-90 | the counting-only tags (planning, stress check, perform action, bombs, abilities, dice) change nothing but the step counter, which goes up by one |
| Calculator.ApplyCounter | shared/game-state/calculator.ts:52-231 | every modelled routed tag except place_obstacle advances the counter by exactly one; place_obstacle and the unrouted tags leave it as it is |
| Calculator.StepCounterExact | shared/game-state/calculator.ts:39-41 | over a log without outside tags, the counter rises by exactly the number of counting steps |
| Calculator.StepCounterBound | shared/game-state/calculator.ts:39-41 | when the outside handlers advance the counter by at most one, replaying n steps advances it by at most n |
| Calculator.CalculatedCounterBound | shared/game-state/calculator.ts:17-44 | the computed state's step counter never exceeds the log's length |
| Calculator.SetupStepContinues | shared/game-state/handlers/setup.ts:87-245 | the setup steps after game start keep the ship list's length and every ship's id and owner; placed, destroyed and half-points marks are never cleared |
| Calculator.PlanningActivationStepContinues | shared/game-state/handlers/activation.ts:17-71 | the same preservation for turn start, the activation steps and destroy_obstacle |
| Calculator.CombatStepContinues | shared/game-state/handlers/combat.ts:16-101 | the same preservation for the combat steps |
| Calculator.CleanupStepContinues | shared/game-state/handlers/cleanup.ts:13-44 | the same preservation for the cleanup, turn-end and game-end steps |
| Calculator.TokenStepContinues | shared/game-state/handlers/any-phase.ts:19-79 | the same preservation for token and ammunition steps |
| Calculator.DamageStepContinues | shared/game-state/handlers/any-phase.ts:81-157 | the same preservation for damage, half-health and destroy steps |
| Calculator.CritStepContinues | shared/game-state/handlers/any-phase.ts:108-126 | the same preservation for assign_crit |
| Calculator.FlipCritStepContinues | shared/game-state/handlers/any-phase.ts:128-144 | the same preservation for flip_crit |
| Calculator.AnyPhaseStepContinues | shared/game-state/handlers/any-phase.ts:19-172 | the same preservation for every any-phase tag |
| Calculator.PhaseStepContinues | shared/game-state/calculator.ts:52-231 | the same preservation for every phase tag except game start |
| Calculator.ApplyContinues | shared/game-state/calculator.ts:52-231 | every modelled step except game start keeps ship identity and the sticky marks |
| Calculator.ReplayContinues | shared/game-state/calculator.ts:39-41 | over a whole log without game start or outside tags, ship identity, owner and the sticky marks survive |
| SetupHandlers.NewShipShape | shared/game-state/handlers/setup.ts:52-80 | a new ship carries its roster id, owner and pilot id, the pilot card's stats (0 and no manoeuvres for an unknown pilot), face-up upgrades in equip order, the factory's weapons and no round history |
| SetupHandlers.SquadShips | shared/game-state/handlers/setup.ts:53-80 | one new ship per roster entry, in roster order |
| SetupHandlers.Fleets | shared/game-state/handlers/setup.ts:52-82 | one fleet per squad, in squad order |
| SetupHandlers.OffsetIsStart | shared/game-state/handlers/setup.ts:52-82 | a squad's ships start after the ships of all earlier squads |
| SetupHandlers.HandleGameStart | shared/game-state/handlers/setup.ts:24-85 | game start resets points, turns, bombs, mines, obstacles and initiative, enters the start phase and page, and keeps the current activating, attacking and defending ids |
| SetupHandlers.GameStartShipCount | shared/game-state/handlers/setup.ts:52-82 | game start creates exactly as many ships as the squads have roster entries |
| SetupHandlers.GameStartShipAt | shared/game-state/handlers/setup.ts:52-82 | the ship at squad i's offset plus j is roster entry j of squad i, built as a new ship for that squad's user |
| SetupHandlers.HandleIncreaseMaxHull | shared/game-state/handlers/setup.ts:87-99 | the first ship with the id gains one hull and nothing else changes; with no such ship only the counter moves |
| SetupHandlers.HandleIncreaseMaxShields | shared/game-state/handlers/setup.ts:101-112 | the first ship with the id gains one shield and nothing else changes |
| SetupHandlers.HandleDecreaseMaxHull | shared/game-state/handlers/setup.ts:114-125 | the first ship with the id loses one hull but never goes below 0, and a hull already at or below 0 becomes 0 |
| SetupHandlers.HandleDecreaseMaxShields | shared/game-state/handlers/setup.ts:127-138 | the first ship with the id loses one shield, with the same floor at 0 |
| SetupHandlers.HandleModifyPilotSkill | shared/game-state/handlers/setup.ts:140-151 | the first ship with the id takes the new pilot skill; nothing else changes |
| SetupHandlers.HandleModifyAgility | shared/game-state/handlers/setup.ts:153-164 | the first ship with the id takes the new agility; nothing else changes |
| SetupHandlers.HandleModifyAttack | shared/game-state/handlers/setup.ts:166-177 | the first ship with the id takes the new attack; nothing else changes |
| SetupHandlers.HandleBeginSelectInitiative | shared/game-state/handlers/setup.ts:179-187 | only the counter and the page change, to initiative selection |
| SetupHandlers.HandleInitiativeSelected | shared/game-state/handlers/setup.ts:189-197 | only the counter and the player with initiative change |
| SetupHandlers.HandleStartSetup | shared/game-state/handlers/setup.ts:199-208 | only the counter, the phase (setup) and the page (setup) change |
| SetupHandlers.HandlePlaceObstacle | shared/game-state/handlers/setup.ts:210-220 | one intact obstacle is appended and the counter does not move; nothing else changes |
| SetupHandlers.HandleShipPlaced | shared/game-state/handlers/setup.ts:222-235 | the first ship with the id is marked placed and the page returns to setup |
| SetupHandlers.HandleEndSetup | shared/game-state/handlers/setup.ts:237-245 | only the counter and the page (turn start) change |
| PlanningHandlers.HandleTurnStart | shared/game-state/handlers/planning.ts:13-31 | the turn counter rises, planning begins, and every ship has its dial, activation, collisions, target and attack flag cleared; ship count, identity, stats, tokens and damage are kept |
| PlanningHandlers.TurnStartShipsIdempotent | shared/game-state/handlers/planning.ts:13-31 | starting a turn twice leaves the ships as starting it once does |
| PlanningHandlers.HandleAssignDial | shared/game-state/handlers/planning.ts:42-53 | the first ship with the id takes the dial; nothing else changes |
| ActivationHandlers.HandleActivationStep | shared/game-state/handlers/activation.ts:17-25 | only the counter and the phase (activation) change |
| ActivationHandlers.HandleBeginManeuver | shared/game-state/handlers/activation.ts:27-39 | the first ship with the id is marked activated |
| ActivationHandlers.HandleCleanManeuver | shared/game-state/handlers/activation.ts:41-53 | the first ship with the id has its bump flag cleared |
| ActivationHandlers.HandleCollide | shared/game-state/handlers/activation.ts:55-71 | the first ship with the id gets the collision appended after its earlier ones |
| CombatHandlers.HandleCombatStep | shared/game-state/handlers/combat.ts:16-25 | only the counter, the phase (engagement) and the page change |
| CombatHandlers.HandleBeginSelectTarget | shared/game-state/handlers/combat.ts:27-35 | only the counter and the page (target selection) change |
| CombatHandlers.HandleDeclareTarget | shared/game-state/handlers/combat.ts:37-51 | the attacker records the defender as its target and the page moves to engagement |
| CombatHandlers.HandleCompleteAttack | shared/game-state/handlers/combat.ts:89-101 | the attacker is marked as having attacked |
| AnyPhaseHandlers.HandleAssignToken | shared/game-state/handlers/any-phase.ts:19-36 | the source ship gets one token appended after its earlier ones, carrying its own id as source |
| AnyPhaseHandlers.HandleSpendToken | shared/game-state/handlers/any-phase.ts:38-54 | exactly the first token of the type is removed from the ship, or nothing when it has none |
| AnyPhaseHandlers.TokenTypesRemove | shared/game-state/handlers/any-phase.ts:38-54 | removing one token removes exactly one of its type from the ship's multiset of token types |
| AnyPhaseHandlers.SpendAfterAppendRestoresTypes | shared/game-state/handlers/any-phase.ts:19-54 | spending a type right after appending a token of it restores the original multiset of token types |
| AnyPhaseHandlers.AssignThenSpendRestoresTokenTypes | shared/game-state/handlers/any-phase.ts:19-54 | assign_token followed by spend_token of the same type restores the ship's token types and leaves every other ship as it was |
| AnyPhaseHandlers.HandleSpendAmmo | shared/game-state/handlers/any-phase.ts:65-79 | the first weapon with the id on the first ship with the id takes the remaining ammunition; everything else is kept |
| AnyPhaseHandlers.HandleApplyDamage | shared/game-state/handlers/any-phase.ts:81-93 | the ship takes the step's hull and shields as given; nothing else changes |
| AnyPhaseHandlers.HandleShipHalfHealth | shared/game-state/handlers/any-phase.ts:95-106 | the ship is marked as having scored half points |
| AnyPhaseHandlers.AddCrit | shared/game-state/handlers/any-phase.ts:108-126 | adding a crit raises the damage card count by exactly one and touches nothing but the damage fields |
| AnyPhaseHandlers.HandleAssignCrit | shared/game-state/handlers/any-phase.ts:108-126 | the reserved id adds one face-down card and any other id one face-up card; hull and shields are untouched |
| AnyPhaseHandlers.HandleFlipCrit | shared/game-state/handlers/any-phase.ts:128-144 | the first card with the id takes the new orientation; the card count and the face-down count are kept |
| AnyPhaseHandlers.HandleDestroyShip | shared/game-state/handlers/any-phase.ts:146-157 | the ship is marked destroyed and stays in the list |
| AnyPhaseHandlers.HandleDestroyObstacle | shared/game-state/handlers/any-phase.ts:159-172 | the first obstacle with the id is marked destroyed and stays in the list |
| CleanupHandlers.HandleCleanup | shared/game-state/handlers/cleanup.ts:13-21 | only the counter and the phase (end) change |
| CleanupHandlers.HandleTurnEnd | shared/game-state/handlers/cleanup.ts:23-31 | only the counter and the phase (end) change |
| CleanupHandlers.HandleGameEnd | shared/game-state/handlers/cleanup.ts:33-44 | the final points and turn count are recorded, the phase becomes end, and the ships are kept |
| WeaponFactory.KnownUpgrades | shared/game-state/utils/weapon-factory.ts:21-23 | every result is a catalog card, there are no more results than ids, and none is dropped when every id resolves; which card each id gives is fixed by KnownUpgradesOfOne and KnownUpgradesAppend |
| WeaponFactory.KnownUpgradesOfOne | shared/game-state/utils/weapon-factory.ts:21-23 | one id gives the card the catalog resolves it to, or nothing for an unknown id; with KnownUpgradesAppend this fixes the result for every id list, unknown ids included |
| WeaponFactory.KnownUpgradesAppend | shared/game-state/utils/weapon-factory.ts:21-23 | resolving two id lists back to back is resolving each in turn |
| WeaponFactory.RegularWeapons | shared/game-state/utils/weapon-factory.ts:46-66 | one weapon per weapon card, in equip order |
| WeaponFactory.ExtraMunitionsPass | shared/game-state/utils/weapon-factory.ts:96-106 | Extra Munitions keeps the list's length and adds one charge to every non-cannon, non-elite weapon that has ammunition |
| WeaponFactory.RegularWeaponsAreFresh | shared/game-state/utils/weapon-factory.ts:46-66 | weapons from upgrade cards are intact and never primary |
| WeaponFactory.UpgradeWeaponsAreFresh | shared/game-state/utils/weapon-factory.ts:46-94 | the same holds after the Snap Shot and Renegade Refit entries are added |
| WeaponFactory.ChargePassKeepsFresh | shared/game-state/utils/weapon-factory.ts:96-106 | the Extra Munitions pass keeps them intact and never primary |
| WeaponFactory.CreateWeapons | shared/game-state/utils/weapon-factory.ts:16-109 | the list starts with a primary weapon exactly when the pilot is known with positive attack, and that weapon is built from the pilot; no later weapon is primary, and none is destroyed |
| WeaponFactory.CreateWeaponsRegularEntries | shared/game-state/utils/weapon-factory.ts:46-66 | after the primary, weapon i is weapon card i with its type and final ammunition, and the length counts the bonus entries |
| WeaponFactory.CreateWeaponsLayout | shared/game-state/utils/weapon-factory.ts:108 | the result is the pilot's weapons followed by the upgrade weapons, in that order |
| WeaponFactory.CreateWeaponsBonusEntries | shared/game-state/utils/weapon-factory.ts:68-94 | Snap Shot adds an elite weapon without ammunition right after the regular ones; Renegade Refit adds a torpedo with one charge, or two with Extra Munitions, at the end |
| WeaponFactory.RegularAmmo | shared/game-state/utils/weapon-factory.ts:59-64 | each regular weapon's ammunition is the card's energy, else 1 for ordnance, else none, plus one with Extra Munitions where the pass applies |
| WeaponFactory.RegularPrefix | shared/game-state/utils/weapon-factory.ts:46-80 | the regular weapons come first among the upgrade weapons |
| WeaponFactory.BonusLayout | shared/game-state/utils/weapon-factory.ts:68-94 | the upgrade weapons are the regular ones, then Snap Shot if present, then Renegade Refit if present |
| WeaponFactory.SupportCardsAreNotWeapons | shared/game-state/utils/weapon-factory.ts:14 | Renegade Refit and Extra Munitions never become regular weapons |
| UseGameState.SliceEnd | app/composables/use-game-state.ts:17 | the end index of a slice follows the array rules: clamped to the length, and counted from the end when negative |
| UseGameState.Prefix | app/composables/use-game-state.ts:17 | the sliced log is a prefix of the full log |
| UseGameState.StateAt | app/composables/use-game-state.ts:12-26 | there is no snapshot exactly when the game, the catalog or the squads are missing |
| UseGameState.CursorStep | app/composables/use-game-state.ts:12-26 | moving the cursor forward by one applies exactly the next step to the previous snapshot |
| UseGameState.CursorPastEnd | app/composables/use-game-state.ts:17 | a cursor at or past the last step shows the state of the whole log |
| UseGameState.CursorNegative | app/composables/use-game-state.ts:17 | cursor -1 shows the initial state; lower cursors count from the end of the log |
| UseGameActions.SnapshotShip | app/composables/use-game-actions.ts:53 | the ship an action reads is the first snapshot ship with the id, and none without a snapshot |
| UseGameActions.AddToken | app/composables/use-game-actions.ts:18-37 | one assign_token step from the ship, with no reinforce direction |
| UseGameActions.RemoveToken | app/composables/use-game-actions.ts:39-50 | one spend_token step |
| UseGameActions.AddThenRemoveToken | app/composables/use-game-actions.ts:18-50 | adding then removing a token type leaves the ship's token types as they were |
| UseGameActions.AddFacedownDamage | app/composables/use-game-actions.ts:52-82 | nothing for an unknown ship; otherwise a hull-minus-one (floored at 0) damage step followed by a face-down crit |
| UseGameActions.DecreaseHull | app/composables/use-game-actions.ts:207-209 | decreasing hull emits what adding face-down damage does |
| UseGameActions.AddFacedownDamageEffect | app/composables/use-game-actions.ts:52-82 | replaying those steps costs the ship one hull (not below 0) and adds one face-down card; no other ship changes |
| UseGameActions.FacedownHandlersEffect | shared/game-state/handlers/any-phase.ts:81-126 | the damage handler followed by the face-down crit handler has that effect on the first ship with the id |
| UseGameActions.RemoveFacedownDamage | app/composables/use-game-actions.ts:84-100 | nothing when the ship is unknown or has no face-down card; otherwise one step whose hull is the smaller of the card total and the current hull plus one |
| UseGameActions.RemoveCrit | app/composables/use-game-actions.ts:142-153 | `removeCrit` emits exactly one remove_crit step carrying the ship id and the crit card id it was given; RemoveCritIsExternal states the step's effect |
| UseGameActions.FlipCritFacedown | app/composables/use-game-actions.ts:155-166 | `flipCritFacedown` emits exactly one flip_crit_facedown step carrying the ship id and the crit card id it was given; FlipCritFacedownIsExternal states the step's effect |
| UseGameActions.DecreaseShields | app/composables/use-game-actions.ts:211-217 | `decreaseShields` emits exactly one decrease_shields step for the ship; DecreaseShieldsIsExternal states the step's effect |
| UseGameActions.RemoveCritIsExternal | app/composables/use-game-actions.ts:142-153 | the remove_crit step has exactly the outside handler's effect |
| UseGameActions.FlipCritFacedownIsExternal | app/composables/use-game-actions.ts:155-166 | the flip_crit_facedown step has exactly the outside handler's effect |
| UseGameActions.DecreaseShieldsIsExternal | app/composables/use-game-actions.ts:211-217 | the decrease_shields step has exactly the outside handler's effect |
| UseGameActions.IsDirectHitIff | app/composables/use-game-actions.ts:117-118 | a crit counts as a Direct Hit exactly when its id is the Direct Hit id and the catalog lists that card |
| UseGameActions.AssignCritAsWritten | app/composables/use-game-actions.ts:102-140 | no steps when the ship is unknown, some otherwise |
| UseGameActions.AssignCritCorrected | app/composables/use-game-actions.ts:102-140 | no steps when the ship is unknown, some otherwise |
| UseGameActions.CritStepsEffect | app/composables/use-game-actions.ts:106-135 | the crit card and its damage step add one card and lower the hull by the damage, not below 0, with shields kept |
| UseGameActions.DirectHitAsWrittenCostsThree | app/composables/use-game-actions.ts:117-139 | as written, a Direct Hit costs 3 hull, not below 0, while adding only 2 damage cards |
| UseGameActions.AsWrittenAgreesOffDirectHit | app/composables/use-game-actions.ts:117-139 | for any crit but the Direct Hit, the emitter as written and the corrected one emit the same steps |
| UseGameActions.AssignCritAsWrittenEffect | app/composables/use-game-actions.ts:102-140 | as written, any crit but the Direct Hit adds one card and costs one hull; the Direct Hit adds two cards and costs three hull; the hull never goes below 0 |
| UseGameActions.DirectHitAsWrittenDestroysThreeHullShip | app/composables/use-game-actions.ts:117-139 | as written, a 3-hull undamaged ship hit by a Direct Hit is left at 0 hull holding 2 cards |
| UseGameActions.AssignCritCorrectedMatchesCards | app/composables/use-game-actions.ts:117-139 | corrected, a crit lowers the hull by exactly the number of cards it adds (2 for a Direct Hit, 1 otherwise), not below 0 |
| UseGameActions.AddStatModifier | app/composables/use-game-actions.ts:168-205 | hull and shields emit their increase steps; pilot skill emits the ship's skill plus the amount, or nothing for an unknown ship; agility and attack emit nothing |
| UseGameActions.HullModifierAddsOne | app/composables/use-game-actions.ts:173-178 | the hull modifier adds exactly one hull to the ship, whatever the amount |
| UseGameActions.FlipUpgrade | app/composables/use-game-actions.ts:219-235 | one flip_upgrade step |
| UseGameActions.FlipUpgradeHasNoEffect | app/composables/use-game-actions.ts:219-235 | replaying a flip_upgrade step leaves the state unchanged, because the reducer has no case for it |
| UseSquadPoints.AnyVaksai | app/composables/use-squad-points.ts:25-28 | the search reports a Vaksai title exactly when some equipped id resolves to it |
| UseSquadPoints.SumUpgrades | app/composables/use-squad-points.ts:31-41 | the loop's sum is the equipped cards' cost, with unknown ids free and the Vaksai discount floored at 0 |
| UseSquadPoints.CalculateSquadPoints | app/composables/use-squad-points.ts:9-49 | without a catalog the count is 0 and never over the limit; otherwise the total is the sum of the builds' costs, and it is over the limit exactly when a limit is given and exceeded |
| UseSquadPoints.CalculateSquadReadPoints | app/composables/use-squad-points.ts:54-59 | a stored squad's count is the count of its builds |
| UseSquadPoints.SquadTotalAppend | app/composables/use-squad-points.ts:19-43 | the total of two lists of builds is the sum of their totals |
| UseSquadPoints.SquadTotalSwap | app/composables/use-squad-points.ts:19-43 | the order of the builds does not change the total |
| UseSquadPoints.UnknownPilotAddsNothing | app/composables/use-squad-points.ts:20-21 | a build with an unknown pilot adds nothing, whatever it equips |
| UseSquadPoints.UnknownUpgradeAddsNothing | app/composables/use-squad-points.ts:32-33 | an id that names no upgrade card costs nothing |
| UseSquadPoints.VaksaiDiscountBounds | app/composables/use-squad-points.ts:34-38 | with non-negative prices, Vaksai never raises a ship's upgrade cost and lowers it by at most one point per equipped id |
| UseUpgrades.GetUpgradesForSlot | app/composables/use-upgrades.ts:10-36 | a card is offered exactly when it is in the catalog, matches the slot by type or required slot, and passes non-empty faction and ship restrictions; catalog multiplicity is kept |
| UseUpgrades.UpgradesForSlotKeepCatalogOrder | app/composables/use-upgrades.ts:13 | the offers keep catalog order |
| UseUpgrades.RemoveOneSlot | app/composables/use-upgrades.ts:61-65 | removing the first matching slot takes one copy of it off the multiset, or nothing when it is absent |
| UseUpgrades.RemoveSlots | app/composables/use-upgrades.ts:60-68 | the slots left are the base slots minus the used slots, as multisets |
| UseUpgrades.GetAvailableSlots | app/composables/use-upgrades.ts:41-69 | none without a catalog; otherwise the pilot's slots minus those the equipped cards require, as multisets, never more than the pilot has |
| UseUpgrades.UsedSlotsAppend | app/composables/use-upgrades.ts:49-57 | the slots used by two id lists are those of each in turn |
| UseUpgrades.UnknownUpgradeUsesNoSlot | app/composables/use-upgrades.ts:50-51 | equipping an id that names no card leaves the free slots unchanged |
| UseUpgrades.AvailableSlotsIgnoreOrder | app/composables/use-upgrades.ts:41-69 | the order of the equipped ids does not change which slots are free |
| UseUpgrades.GetUpgrade | app/composables/use-upgrades.ts:74-77 | none exactly when there is no catalog or no card with the id; otherwise a catalog card with that id |
| UseUpgrades.InSquad | app/composables/use-upgrades.ts:92-94 | true exactly when some pilot already equips the id |
| UseUpgrades.CanAddUpgrade | app/composables/use-upgrades.ts:82-97 | an upgrade can be added exactly when it exists and, if unique, no pilot of the squad equips it yet |
| UseUpgrades.EquippingBlocksUnique | app/composables/use-upgrades.ts:82-97 | once any pilot equips an existing upgrade, it can be added again exactly when it is not unique |
| UseGameShips.CreateShipFromSquad | app/composables/use-game-ships.ts:7-45 | nothing without a catalog or for an unknown pilot; otherwise the ship has the roster id, owner, pilot stats, face-up upgrades, no weapons and no history, paired with its pilot card |
| UseGameShips.CreatedShipIsGameStartShip | app/composables/use-game-ships.ts:16-42 | with unique card ids, that ship is the game-start ship without its pilot id and weapons |
| UseGameShips.RosterShips | app/composables/use-game-ships.ts:68-72 | every listed ship is what some roster entry builds, and each built ship is listed exactly as often as the entries build it, so the entries the catalog cannot build are the only ones dropped |
| UseGameShips.RosterShipsInOrder | app/composables/use-game-ships.ts:68-72 | the list keeps roster order: for a roster cut in two, the ships built from the first part come first, then those from the second |
| UseGameShips.RosterShipsOfOne | app/composables/use-game-ships.ts:68-72 | a single entry is listed as the ship `createShipFromSquad` builds for it, or not at all when it builds none; with RosterShipsInOrder this fixes the list for every roster, unknown pilots included |
| Seqs.SomesAppend | app/composables/use-game-ships.ts:68-72 | the `map` then non-null `filter` of a concatenation is that of each part, back to back |
| Seqs.SomesCount | app/composables/use-game-ships.ts:68-72 | the `map` then non-null `filter` keeps each value exactly as often as it occurs non-null |
| UseGameShips.GetPlayerShips | app/composables/use-game-ships.ts:47-73 | no ships without a squad or game; every listed ship belongs to the player |
| UseGameShips.LivePlayerShips | app/composables/use-game-ships.ts:56-65 | with a non-empty snapshot, the list holds exactly the player's snapshot ships, each paired with its roster pilot card |
| UseGameShips.LivePlayerShipsInOrder | app/composables/use-game-ships.ts:57-58 | the list keeps the snapshot's ship order |
| UseGameShips.RosterPlayerShips | app/composables/use-game-ships.ts:68-72 | before the snapshot has ships, and with every pilot known, the list is one built ship per roster entry, in roster order |
| UseGameShips.GetTotalHull | app/composables/use-game-ships.ts:75-90 | 0 when no squad has the ship or there is no catalog |
| UseGameShips.TotalHullIsStartingHull | app/composables/use-game-ships.ts:75-90 | with unique card ids, the total hull is the hull the ship had at game start |

## Left out

- The thirteen tags routed to handlers outside this model (planning_complete, action_skipped, select_action_again, done_with_actions, declare_attackers, select_attacker, select_weapon, skip_attack, remove_crit, remove_facedown_damage, flip_crit_facedown, update_pilot_skill, decrease_shields) are not modelled. Their handlers' code is not part of this model. Their effect is the parameter `ext`.
- Step timestamps, the fetch and `addStep` plumbing of the actions, and the refresh callbacks are left out. They are I/O. Each action is modelled as the list of steps it emits.
- Weapon names are left out. So are the fallback ids of the Snap Shot and Renegade Refit entries, which cannot be reached because the entry is added only when the card was found. The model keeps the weapon id, type, attack, range and ammunition, including the fallback attack and ranges.
- The copies of the card arrays made before each replay, and the damage deck, are not modelled. The model has no aliasing to protect against, and nothing in the core reads the deck.
- `getAllUpgrades` is left out. It only returns the catalog's upgrade list.
- The squad record type declares pilots without ids, but the code reads roster entries with an id, a pilot id and upgrade ids. The model follows the code.
- Tokens, collision types, manoeuvres, actions, reinforce directions and dice results are plain strings. Their enums are not part of this model.
- The order of the `Step` constructors is not the source's order. The reducer matches on tags, so the order carries no meaning.
- The `Record` lookups keyed by card id at game start take the last card with an id, as `reduce` does. The model does not model keys inherited from object prototypes.
- The handlers that exist in the source but have no case in the switch (decrease max hull and shields, modify pilot skill, agility and attack, assign dial, begin select target) are modelled as standalone functions. The reducer never calls them.
- WeaponFactory.KnownUpgrades: its own contract does not say which card each id gives. KnownUpgradesOfOne and KnownUpgradesAppend state that together, because a pointwise ensures on the function destabilises the proofs of the weapon-list lemmas that unfold it.
- UseGameActions.AssignCritAsWritten: the contract only says when steps are emitted. Their effect on every crit and every hull is stated by AssignCritAsWrittenEffect, with the Direct Hit case in DirectHitAsWrittenCostsThree. These lemmas assume the action reads the snapshot recomputed after its own two steps, as the cursor moves to the end of the log when a step is added.
- UseGameActions.AssignCritCorrected: the contract only says when steps are emitted. AssignCritCorrectedMatchesCards states their effect.
- UseGameShips.GetTotalHull: `pilot?.hull || 0` is modelled as the hull, or 0 when no pilot card is found. The two differ only in spelling, since a hull of 0 gives 0 either way.

## Findings

| source | as written | input that shows it | evidently intended | confidence | as-written member | corrected member |
|---|---|---|---|---|---|---|
| app/composables/use-game-actions.ts:117-139 | a Direct Hit emits a damage step that lowers the hull by 2, then calls `addFacedownDamage`, which reads the snapshot already lowered by 2 and lowers the hull by one more | a 3-hull undamaged ship takes the Direct Hit: it ends at 0 hull with only 2 damage cards | a Direct Hit deals 2 damage in all, one from the crit card and one from the added face-down card, so the hull drops by 2 | not executed | UseGameActions.DirectHitAsWrittenCostsThree | UseGameActions.AssignCritCorrectedMatchesCards |
