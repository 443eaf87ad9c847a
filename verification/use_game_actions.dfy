/**
 * The step emitters behind the game screen's buttons: each reads the snapshot
 * at the cursor and decides which steps to append to the log.
 */
module UseGameActions {
  import opened Wrappers
  import opened Enums
  import opened Cards
  import opened SquadDto
  import opened GameStateDto
  import opened Calculator
  import Seqs
  import AnyPhaseHandlers

  /** The damage card id that counts twice against the hull. */
  const DirectHitId: string := "direct-hit"

  /** `Math.max(0, x)`. */
  function Floor0(x: int): int {
    if x > 0 then x else 0
  }

  /** `Math.min(a, b)`. */
  function Min(a: int, b: int): int {
    if a < b then a else b
  }

  /** `currentGameState.value?.ships.find(...)`: no ship when there is no snapshot. */
  function SnapshotShip(snap: Option<State>, shipId: string): (r: Option<Ship>)
    ensures snap.None? ==> r.None?
    ensures snap.Some? ==> r == FindShip(snap.value.ships, shipId)
  {
    if snap.None? then None else FindShip(snap.value.ships, shipId)
  }

  // ---- how the dispatcher routes the emitted steps ----

  lemma RouteAssignToken(s: State, src: string, tt: TokenType, cond: Option<string>, dir: Option<ReinforceDirection>, tgt: Option<string>,
                         squads: seq<Squad>, cat: Catalog, ext: Unshown)
    ensures Apply(s, AssignToken(src, tt, cond, dir, tgt), squads, cat, ext) == AnyPhaseHandlers.HandleAssignToken(s, src, tt, cond, dir, tgt)
  {
  }

  lemma RouteSpendToken(s: State, shipId: string, tt: TokenType, squads: seq<Squad>, cat: Catalog, ext: Unshown)
    ensures Apply(s, SpendToken(shipId, tt), squads, cat, ext) == AnyPhaseHandlers.HandleSpendToken(s, shipId, tt)
  {
  }

  lemma RouteApplyDamage(s: State, shipId: string, hits: int, crits: int, hull: int, shields: int, squads: seq<Squad>, cat: Catalog, ext: Unshown)
    ensures Apply(s, ApplyDamage(shipId, hits, crits, hull, shields), squads, cat, ext) == AnyPhaseHandlers.HandleApplyDamage(s, shipId, hull, shields)
  {
  }

  lemma RouteAssignCrit(s: State, shipId: string, critCardId: string, squads: seq<Squad>, cat: Catalog, ext: Unshown)
    ensures Apply(s, AssignCrit(shipId, critCardId), squads, cat, ext) == AnyPhaseHandlers.HandleAssignCrit(s, shipId, critCardId)
  {
  }

  /** Replaying two steps given what each does on its own. */
  lemma ReplayTwo(s: State, a: Step, b: Step, s1: State, s2: State, squads: seq<Squad>, cat: Catalog, ext: Unshown)
    requires Apply(s, a, squads, cat, ext) == s1
    requires Apply(s1, b, squads, cat, ext) == s2
    ensures Replay(s, [a, b], squads, cat, ext) == s2
  {
    ReplayPair(s, a, b, squads, cat, ext);
  }

  // ---- tokens ----

  /** `addToken`: one `assign_token` from the ship, with no reinforce direction and missing ids as null. */
  function AddToken(shipId: string, tokenType: TokenType, targetShipId: Option<string>, conditionId: Option<string>): (r: seq<Step>)
    ensures |r| == 1 && r[0].AssignToken?
    ensures r[0].sourceShipId == shipId && r[0].tokenType == tokenType && r[0].reinforceDirection.None?
    ensures r[0].targetShipId == targetShipId && r[0].conditionId == conditionId
  {
    [AssignToken(shipId, tokenType, conditionId, None, targetShipId)]
  }

  /** `removeToken`: one `spend_token` for the ship and type. */
  function RemoveToken(shipId: string, tokenType: TokenType): (r: seq<Step>)
    ensures r == [SpendToken(shipId, tokenType)]
  {
    [SpendToken(shipId, tokenType)]
  }

  /** Adding a token and removing one of the same type gives the ship back its token counts per type. */
  lemma AddThenRemoveToken(
    s: State, shipId: string, tokenType: TokenType, targetShipId: Option<string>, conditionId: Option<string>,
    k: nat, squads: seq<Squad>, cat: Catalog, ext: Unshown)
    requires FirstShip(s.ships, shipId, k)
    ensures var r := Replay(s, AddToken(shipId, tokenType, targetShipId, conditionId) + RemoveToken(shipId, tokenType), squads, cat, ext);
            && |r.ships| == |s.ships|
            && multiset(AnyPhaseHandlers.TokenTypes(r.ships[k].tokens)) == multiset(AnyPhaseHandlers.TokenTypes(s.ships[k].tokens))
  {
    var a := AssignToken(shipId, tokenType, conditionId, None, targetShipId);
    var b := SpendToken(shipId, tokenType);
    assert AddToken(shipId, tokenType, targetShipId, conditionId) + RemoveToken(shipId, tokenType) == [a, b];
    var s1 := AnyPhaseHandlers.HandleAssignToken(s, shipId, tokenType, conditionId, None, targetShipId);
    var s2 := AnyPhaseHandlers.HandleSpendToken(s1, shipId, tokenType);
    RouteAssignToken(s, shipId, tokenType, conditionId, None, targetShipId, squads, cat, ext);
    RouteSpendToken(s1, shipId, tokenType, squads, cat, ext);
    ReplayTwo(s, a, b, s1, s2, squads, cat, ext);
    AnyPhaseHandlers.AssignThenSpendRestoresTokenTypes(s, shipId, tokenType, conditionId, None, targetShipId, k);
  }

  // ---- damage ----

  /**
   * `addFacedownDamage`: nothing for an unknown ship; otherwise one hit that
   * lowers the hull by one (not below 0) and keeps the shields, then one
   * face-down damage card.
   */
  function AddFacedownDamage(snap: Option<State>, shipId: string): (r: seq<Step>)
    ensures SnapshotShip(snap, shipId).None? <==> r == []
    ensures SnapshotShip(snap, shipId).Some? ==>
              var sh := SnapshotShip(snap, shipId).value;
              && |r| == 2
              && r[0] == ApplyDamage(shipId, 1, 0, Floor0(sh.hull - 1), sh.shields)
              && r[1] == AssignCrit(shipId, AnyPhaseHandlers.FacedownCritId)
  {
    match SnapshotShip(snap, shipId)
    case None => []
    case Some(sh) =>
      [ApplyDamage(shipId, 1, 0, Floor0(sh.hull - 1), sh.shields), AssignCrit(shipId, AnyPhaseHandlers.FacedownCritId)]
  }

  /** `decreaseHull` is `addFacedownDamage` under another name. */
  function DecreaseHull(snap: Option<State>, shipId: string): (r: seq<Step>)
    ensures r == AddFacedownDamage(snap, shipId)
  {
    AddFacedownDamage(snap, shipId)
  }

  /** What one face-down hit does to the ship at `k`: hull down by one (not below 0), one more face-down card, nothing else. */
  ghost predicate TookFacedownHit(before: State, after: State, k: nat) {
    && |after.ships| == |before.ships|
    && k < |before.ships|
    && after.ships[k] == before.ships[k].(hull := Floor0(before.ships[k].hull - 1),
                                          faceDownDamage := before.ships[k].faceDownDamage + 1)
    && (forall i :: 0 <= i < |before.ships| && i != k ==> after.ships[i] == before.ships[i])
    && after.currentStep == before.currentStep + 2
  }

  /** Replaying the steps `addFacedownDamage` emits on the snapshot it read. */
  lemma AddFacedownDamageEffect(s: State, shipId: string, k: nat, squads: seq<Squad>, cat: Catalog, ext: Unshown)
    requires FirstShip(s.ships, shipId, k)
    ensures TookFacedownHit(s, Replay(s, AddFacedownDamage(Some(s), shipId), squads, cat, ext), k)
  {
    var sh := s.ships[k];
    var a := ApplyDamage(shipId, 1, 0, Floor0(sh.hull - 1), sh.shields);
    var b := AssignCrit(shipId, AnyPhaseHandlers.FacedownCritId);
    FindShipAt(s.ships, shipId, k);
    assert AddFacedownDamage(Some(s), shipId) == [a, b];
    var s1 := AnyPhaseHandlers.HandleApplyDamage(s, shipId, Floor0(sh.hull - 1), sh.shields);
    var s2 := AnyPhaseHandlers.HandleAssignCrit(s1, shipId, AnyPhaseHandlers.FacedownCritId);
    RouteApplyDamage(s, shipId, 1, 0, Floor0(sh.hull - 1), sh.shields, squads, cat, ext);
    RouteAssignCrit(s1, shipId, AnyPhaseHandlers.FacedownCritId, squads, cat, ext);
    ReplayTwo(s, a, b, s1, s2, squads, cat, ext);
    FacedownHandlersEffect(s, shipId, k);
  }

  /** The two handlers behind a face-down hit, applied directly. */
  lemma FacedownHandlersEffect(s: State, shipId: string, k: nat)
    requires FirstShip(s.ships, shipId, k)
    ensures var sh := s.ships[k];
            var s1 := AnyPhaseHandlers.HandleApplyDamage(s, shipId, Floor0(sh.hull - 1), sh.shields);
            TookFacedownHit(s, AnyPhaseHandlers.HandleAssignCrit(s1, shipId, AnyPhaseHandlers.FacedownCritId), k)
  {
    var sh := s.ships[k];
    FirstShipKept(s.ships, shipId, k, sh.(hull := Floor0(sh.hull - 1), shields := sh.shields));
  }

  /** `removeFacedownDamage`: nothing without the ship or without face-down damage; otherwise the hull goes up by one, capped at the total hull. */
  function RemoveFacedownDamage(snap: Option<State>, shipId: string, totalHull: int): (r: seq<Step>)
    ensures r == [] <==> SnapshotShip(snap, shipId).None? || SnapshotShip(snap, shipId).value.faceDownDamage == 0
    ensures r != [] ==>
              var sh := SnapshotShip(snap, shipId).value;
              && |r| == 1 && r[0].RemoveFacedownDamage? && r[0].shipId == shipId
              && r[0].hullRemaining <= totalHull
              && r[0].hullRemaining <= sh.hull + 1
              && (r[0].hullRemaining == totalHull || r[0].hullRemaining == sh.hull + 1)
  {
    match SnapshotShip(snap, shipId)
    case None => []
    case Some(sh) =>
      if sh.faceDownDamage == 0 then []
      else [Step.RemoveFacedownDamage(shipId, Min(sh.hull + 1, totalHull))]
  }

  /** `removeCrit`: one `remove_crit` step for the ship and card. */
  function RemoveCrit(shipId: string, critCardId: string): (r: seq<Step>)
    ensures r == [Step.RemoveCrit(shipId, critCardId)]
  {
    [Step.RemoveCrit(shipId, critCardId)]
  }

  /** `flipCritFacedown`: one `flip_crit_facedown` step for the ship and card. */
  function FlipCritFacedown(shipId: string, critCardId: string): (r: seq<Step>)
    ensures r == [Step.FlipCritFacedown(shipId, critCardId)]
  {
    [Step.FlipCritFacedown(shipId, critCardId)]
  }

  /** `decreaseShields`: one `decrease_shields` step for the ship. */
  function DecreaseShields(shipId: string): (r: seq<Step>)
    ensures r == [Step.DecreaseShields(shipId)]
  {
    [Step.DecreaseShields(shipId)]
  }

  /**
   * The steps `removeCrit`, `flipCritFacedown` and `decreaseShields` emit are
   * routed to handlers outside this model: replaying each has exactly the
   * effect the parameter gives that step, and nothing of its own.
   */
  lemma RemoveCritIsExternal(s: State, shipId: string, critCardId: string, squads: seq<Squad>, cat: Catalog, ext: Unshown)
    ensures Replay(s, RemoveCrit(shipId, critCardId), squads, cat, ext) == ext(Step.RemoveCrit(shipId, critCardId), s)
  {
    assert RemoveCrit(shipId, critCardId)[1..] == [];
  }

  lemma FlipCritFacedownIsExternal(s: State, shipId: string, critCardId: string, squads: seq<Squad>, cat: Catalog, ext: Unshown)
    ensures Replay(s, FlipCritFacedown(shipId, critCardId), squads, cat, ext) == ext(Step.FlipCritFacedown(shipId, critCardId), s)
  {
    assert FlipCritFacedown(shipId, critCardId)[1..] == [];
  }

  lemma DecreaseShieldsIsExternal(s: State, shipId: string, squads: seq<Squad>, cat: Catalog, ext: Unshown)
    ensures Replay(s, DecreaseShields(shipId), squads, cat, ext) == ext(Step.DecreaseShields(shipId), s)
  {
    assert DecreaseShields(shipId)[1..] == [];
  }

  // ---- crits ----

  function DamageCardWithId(id: string): DamageCard -> bool {
    (c: DamageCard) => c.id == id
  }

  /** Whether the crit card looked up in the catalog is the Direct Hit. */
  function IsDirectHit(cat: Catalog, critCardId: string): bool {
    match Seqs.Find(cat.damageCards, DamageCardWithId(critCardId))
    case None => false
    case Some(c) => c.id == DirectHitId
  }

  /** A crit is a Direct Hit exactly when its id is the Direct Hit id and the catalog has that card. */
  lemma IsDirectHitIff(cat: Catalog, critCardId: string)
    ensures IsDirectHit(cat, critCardId) <==>
              critCardId == DirectHitId && exists i :: 0 <= i < |cat.damageCards| && cat.damageCards[i].id == DirectHitId
  {
    if critCardId == DirectHitId && exists i :: 0 <= i < |cat.damageCards| && cat.damageCards[i].id == DirectHitId {
      var i :| 0 <= i < |cat.damageCards| && cat.damageCards[i].id == DirectHitId;
      assert DamageCardWithId(critCardId)(cat.damageCards[i]);
    }
  }

  /** The hull damage `assignCrit` charges up front: 2 for a Direct Hit, otherwise 1. */
  function CritDamage(cat: Catalog, critCardId: string): int {
    if IsDirectHit(cat, critCardId) then 2 else 1
  }

  /** The first two steps `assignCrit` emits: the crit card, then one crit of damage that lowers the hull by `damage`, not below 0. */
  function CritSteps(shipId: string, critCardId: string, sh: Ship, damage: int): seq<Step> {
    [AssignCrit(shipId, critCardId), ApplyDamage(shipId, 0, 1, Floor0(sh.hull - damage), sh.shields)]
  }

  /**
   * `assignCrit` as written: the crit card, then a crit that lowers the hull
   * by `CritDamage`, then, for a Direct Hit, `addFacedownDamage` run on the
   * snapshot that already includes the first two steps (appending a step moves
   * the cursor to the end of the log, and the snapshot is recomputed from it).
   */
  function AssignCritAsWritten(snap: Option<State>, shipId: string, critCardId: string, squads: seq<Squad>, cat: Catalog, ext: Unshown): (r: seq<Step>)
    ensures SnapshotShip(snap, shipId).None? <==> r == []
  {
    match SnapshotShip(snap, shipId)
    case None => []
    case Some(sh) =>
      var first := CritSteps(shipId, critCardId, sh, CritDamage(cat, critCardId));
      if IsDirectHit(cat, critCardId) then first + AddFacedownDamage(Some(Replay(snap.value, first, squads, cat, ext)), shipId)
      else first
  }

  /** `assignCrit` as intended: the crit itself costs one hull, and a Direct Hit's second point is the face-down cascade. */
  function AssignCritCorrected(snap: Option<State>, shipId: string, critCardId: string, squads: seq<Squad>, cat: Catalog, ext: Unshown): (r: seq<Step>)
    ensures SnapshotShip(snap, shipId).None? <==> r == []
  {
    match SnapshotShip(snap, shipId)
    case None => []
    case Some(sh) =>
      var first := CritSteps(shipId, critCardId, sh, 1);
      if IsDirectHit(cat, critCardId) then first + AddFacedownDamage(Some(Replay(snap.value, first, squads, cat, ext)), shipId)
      else first
  }

  /** Replaying the crit card and the crit damage of `assignCrit` with a given damage amount. */
  lemma CritStepsEffect(s: State, shipId: string, critCardId: string, damage: int, k: nat, squads: seq<Squad>, cat: Catalog, ext: Unshown)
    requires FirstShip(s.ships, shipId, k)
    ensures var sh := s.ships[k];
            var r := Replay(s, CritSteps(shipId, critCardId, sh, damage), squads, cat, ext);
            && |r.ships| == |s.ships|
            && FirstShip(r.ships, shipId, k)
            && r.ships[k].hull == Floor0(sh.hull - damage)
            && r.ships[k].shields == sh.shields
            && AnyPhaseHandlers.DamageCount(r.ships[k]) == AnyPhaseHandlers.DamageCount(sh) + 1
  {
    var sh := s.ships[k];
    var a := AssignCrit(shipId, critCardId);
    var b := ApplyDamage(shipId, 0, 1, Floor0(sh.hull - damage), sh.shields);
    assert CritSteps(shipId, critCardId, sh, damage) == [a, b];
    var s1 := AnyPhaseHandlers.HandleAssignCrit(s, shipId, critCardId);
    FirstShipKept(s.ships, shipId, k, s1.ships[k]);
    var s2 := AnyPhaseHandlers.HandleApplyDamage(s1, shipId, Floor0(sh.hull - damage), sh.shields);
    FirstShipKept(s1.ships, shipId, k, s2.ships[k]);
    RouteAssignCrit(s, shipId, critCardId, squads, cat, ext);
    RouteApplyDamage(s1, shipId, 0, 1, Floor0(sh.hull - damage), sh.shields, squads, cat, ext);
    ReplayTwo(s, a, b, s1, s2, squads, cat, ext);
  }

  /**
   * With the cascade reading the refreshed snapshot, a Direct Hit costs 3 hull
   * (not below 0) while adding only 2 damage cards.
   */
  lemma DirectHitAsWrittenCostsThree(s: State, shipId: string, k: nat, squads: seq<Squad>, cat: Catalog, ext: Unshown)
    requires FirstShip(s.ships, shipId, k)
    requires IsDirectHit(cat, DirectHitId)
    ensures var r := Replay(s, AssignCritAsWritten(Some(s), shipId, DirectHitId, squads, cat, ext), squads, cat, ext);
            && |r.ships| == |s.ships|
            && r.ships[k].hull == Floor0(s.ships[k].hull - 3)
            && (s.ships[k].hull >= 3 ==> r.ships[k].hull == s.ships[k].hull - 3)
            && AnyPhaseHandlers.DamageCount(r.ships[k]) == AnyPhaseHandlers.DamageCount(s.ships[k]) + 2
  {
    var sh := s.ships[k];
    var damage := CritDamage(cat, DirectHitId);
    assert damage == 2;
    var first := CritSteps(shipId, DirectHitId, sh, damage);
    FindShipAt(s.ships, shipId, k);
    assert SnapshotShip(Some(s), shipId) == Some(sh);
    var mid := Replay(s, first, squads, cat, ext);
    var rest := AddFacedownDamage(Some(mid), shipId);
    assert AssignCritAsWritten(Some(s), shipId, DirectHitId, squads, cat, ext) == first + rest;
    CritStepsEffect(s, shipId, DirectHitId, damage, k, squads, cat, ext);
    AddFacedownDamageEffect(mid, shipId, k, squads, cat, ext);
    ReplayAppend(s, first, rest, squads, cat, ext);
  }

  /** The concrete case: a Direct Hit on a 3-hull ship leaves it with no hull although it holds only two damage cards. */
  lemma DirectHitAsWrittenDestroysThreeHullShip(s: State, shipId: string, k: nat, squads: seq<Squad>, cat: Catalog, ext: Unshown)
    requires FirstShip(s.ships, shipId, k)
    requires cat.damageCards == [DamageCard(DirectHitId)]
    requires s.ships[k].hull == 3 && AnyPhaseHandlers.DamageCount(s.ships[k]) == 0
    ensures var r := Replay(s, AssignCritAsWritten(Some(s), shipId, DirectHitId, squads, cat, ext), squads, cat, ext);
            && |r.ships| == |s.ships|
            && r.ships[k].hull == 0
            && AnyPhaseHandlers.DamageCount(r.ships[k]) == 2
  {
    IsDirectHitIff(cat, DirectHitId);
    assert cat.damageCards[0].id == DirectHitId;
    DirectHitAsWrittenCostsThree(s, shipId, k, squads, cat, ext);
  }

  /** Off the Direct Hit, the emitter as written and the corrected one emit the same steps. */
  lemma AsWrittenAgreesOffDirectHit(snap: Option<State>, shipId: string, critCardId: string, squads: seq<Squad>, cat: Catalog, ext: Unshown)
    requires !IsDirectHit(cat, critCardId)
    ensures AssignCritAsWritten(snap, shipId, critCardId, squads, cat, ext) == AssignCritCorrected(snap, shipId, critCardId, squads, cat, ext)
  {
  }

  /**
   * `assignCrit` as written, on every crit: any card but the Direct Hit adds
   * one damage card and costs one hull; the Direct Hit adds two cards and
   * costs three hull; the hull never goes below 0.
   */
  lemma AssignCritAsWrittenEffect(s: State, shipId: string, critCardId: string, k: nat, squads: seq<Squad>, cat: Catalog, ext: Unshown)
    requires FirstShip(s.ships, shipId, k)
    ensures var dh := IsDirectHit(cat, critCardId);
            var r := Replay(s, AssignCritAsWritten(Some(s), shipId, critCardId, squads, cat, ext), squads, cat, ext);
            && |r.ships| == |s.ships|
            && r.ships[k].hull == Floor0(s.ships[k].hull - (if dh then 3 else 1))
            && AnyPhaseHandlers.DamageCount(r.ships[k]) == AnyPhaseHandlers.DamageCount(s.ships[k]) + (if dh then 2 else 1)
  {
    if IsDirectHit(cat, critCardId) {
      IsDirectHitIff(cat, critCardId);
      DirectHitAsWrittenCostsThree(s, shipId, k, squads, cat, ext);
    } else {
      AsWrittenAgreesOffDirectHit(Some(s), shipId, critCardId, squads, cat, ext);
      AssignCritCorrectedMatchesCards(s, shipId, critCardId, k, squads, cat, ext);
    }
  }

  /**
   * The corrected emitter charges exactly one hull per damage card it adds: a
   * Direct Hit adds two cards and lowers the hull by two, any other crit adds
   * one card and lowers it by one, never below 0.
   */
  lemma AssignCritCorrectedMatchesCards(s: State, shipId: string, critCardId: string, k: nat, squads: seq<Squad>, cat: Catalog, ext: Unshown)
    requires FirstShip(s.ships, shipId, k)
    ensures var cards := if IsDirectHit(cat, critCardId) then 2 else 1;
            var r := Replay(s, AssignCritCorrected(Some(s), shipId, critCardId, squads, cat, ext), squads, cat, ext);
            && |r.ships| == |s.ships|
            && r.ships[k].hull == Floor0(s.ships[k].hull - cards)
            && AnyPhaseHandlers.DamageCount(r.ships[k]) == AnyPhaseHandlers.DamageCount(s.ships[k]) + cards
  {
    var sh := s.ships[k];
    var first := CritSteps(shipId, critCardId, sh, 1);
    FindShipAt(s.ships, shipId, k);
    assert SnapshotShip(Some(s), shipId) == Some(sh);
    CritStepsEffect(s, shipId, critCardId, 1, k, squads, cat, ext);
    if IsDirectHit(cat, critCardId) {
      var mid := Replay(s, first, squads, cat, ext);
      var rest := AddFacedownDamage(Some(mid), shipId);
      assert AssignCritCorrected(Some(s), shipId, critCardId, squads, cat, ext) == first + rest;
      AddFacedownDamageEffect(mid, shipId, k, squads, cat, ext);
      ReplayAppend(s, first, rest, squads, cat, ext);
    } else {
      assert AssignCritCorrected(Some(s), shipId, critCardId, squads, cat, ext) == first;
    }
  }

  // ---- stat modifiers and upgrades ----

  /** The stats the stat-modifier buttons offer. */
  datatype Stat = HullStat | ShieldsStat | AgilityStat | AttackStat | PilotSkillStat

  /**
   * `addStatModifier`: hull and shields each emit a single increase whatever
   * the amount; pilot skill emits the ship's skill plus the amount (nothing for
   * an unknown ship); agility and attack emit nothing.
   */
  function AddStatModifier(snap: Option<State>, shipId: string, stat: Stat, amount: int): (r: seq<Step>)
    ensures stat.HullStat? ==> r == [IncreaseMaxHull(shipId)]
    ensures stat.ShieldsStat? ==> r == [IncreaseMaxShields(shipId)]
    ensures stat.AgilityStat? || stat.AttackStat? ==> r == []
    ensures stat.PilotSkillStat? ==>
              match SnapshotShip(snap, shipId)
              case None => r == []
              case Some(sh) => r == [UpdatePilotSkill(shipId, sh.pilotSkill + amount)]
  {
    match stat
    case HullStat => [IncreaseMaxHull(shipId)]
    case ShieldsStat => [IncreaseMaxShields(shipId)]
    case PilotSkillStat =>
      (match SnapshotShip(snap, shipId)
       case None => []
       case Some(sh) => [UpdatePilotSkill(shipId, sh.pilotSkill + amount)])
    case AgilityStat => []
    case AttackStat => []
  }

  /** A hull modifier raises the hull by exactly one, whatever amount was asked for. */
  lemma HullModifierAddsOne(s: State, shipId: string, amount: int, k: nat, squads: seq<Squad>, cat: Catalog, ext: Unshown)
    requires FirstShip(s.ships, shipId, k)
    ensures var r := Replay(s, AddStatModifier(Some(s), shipId, HullStat, amount), squads, cat, ext);
            r.ships == s.ships[k := s.ships[k].(hull := s.ships[k].hull + 1)]
  {
    assert [IncreaseMaxHull(shipId)][1..] == [];
  }

  /** `flipUpgrade`: one `flip_upgrade` step. */
  function FlipUpgrade(shipId: string, upgradeId: string, faceUp: bool): (r: seq<Step>)
    ensures r == [Step.FlipUpgrade(shipId, upgradeId, faceUp)]
  {
    [Step.FlipUpgrade(shipId, upgradeId, faceUp)]
  }

  /** The step `flipUpgrade` emits has no case in the dispatcher, so replaying it changes nothing at all. */
  lemma FlipUpgradeHasNoEffect(s: State, shipId: string, upgradeId: string, faceUp: bool, squads: seq<Squad>, cat: Catalog, ext: Unshown)
    ensures Replay(s, FlipUpgrade(shipId, upgradeId, faceUp), squads, cat, ext) == s
  {
    assert FlipUpgrade(shipId, upgradeId, faceUp)[1..] == [];
  }
}
