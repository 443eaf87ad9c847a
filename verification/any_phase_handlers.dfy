/** Handlers of the steps that may occur in any phase: tokens, ammunition, damage and destruction. */
module AnyPhaseHandlers {
  import opened Wrappers
  import opened Enums
  import opened GameStateDto
  import Seqs

  /** The crit id that stands for a face-down damage card rather than a named one. */
  const FacedownCritId: string := "facedown"

  // ---- tokens ----

  /** `assign_token`: the token goes on the first ship whose id is the SOURCE ship's id. */
  function HandleAssignToken(
    s: State, sourceShipId: string, tokenType: TokenType, conditionId: Option<string>,
    reinforceDirection: Option<ReinforceDirection>, targetShipId: Option<string>): (r: State)
    ensures r == s.(currentStep := s.currentStep + 1, ships := r.ships)
    ensures NoShip(s.ships, sourceShipId) ==> r.ships == s.ships
    ensures forall k | FirstShip(s.ships, sourceShipId, k) ::
              r.ships == s.ships[k := s.ships[k].(tokens := s.ships[k].tokens
                                   + [Token(tokenType, conditionId, reinforceDirection, Some(sourceShipId), targetShipId)])]
  {
    var t := Token(tokenType, conditionId, reinforceDirection, Some(sourceShipId), targetShipId);
    Advance(s).(ships := EditShip(s.ships, sourceShipId, (sh: Ship) => sh.(tokens := sh.tokens + [t])))
  }

  function OfType(tokenType: TokenType): Token -> bool {
    (t: Token) => t.tokenType == tokenType
  }

  /** `spend_token`: the first token of the type is removed from the first ship with the id; nothing happens without one. */
  function HandleSpendToken(s: State, shipId: string, tokenType: TokenType): (r: State)
    ensures r == s.(currentStep := s.currentStep + 1, ships := r.ships)
    ensures NoShip(s.ships, shipId) ==> r.ships == s.ships
    ensures forall k | FirstShip(s.ships, shipId, k) ::
              && |r.ships| == |s.ships|
              && r.ships == s.ships[k := s.ships[k].(tokens := r.ships[k].tokens)]
              && (Seqs.NoMatch(s.ships[k].tokens, OfType(tokenType)) ==> r.ships[k].tokens == s.ships[k].tokens)
              && forall j | Seqs.IsFirst(s.ships[k].tokens, OfType(tokenType), j) ::
                   r.ships[k].tokens == s.ships[k].tokens[..j] + s.ships[k].tokens[j + 1..]
  {
    Advance(s).(ships := EditShip(s.ships, shipId, (sh: Ship) => sh.(tokens := Seqs.RemoveFirst(sh.tokens, OfType(tokenType)))))
  }

  /** The token types a ship holds, in order. */
  function TokenTypes(ts: seq<Token>): (r: seq<TokenType>)
    ensures |r| == |ts|
    ensures forall i :: 0 <= i < |ts| ==> r[i] == ts[i].tokenType
  {
    seq(|ts|, i requires 0 <= i < |ts| => ts[i].tokenType)
  }

  /** Removing the token at `j` removes exactly one token of its type. */
  lemma TokenTypesRemove(ts: seq<Token>, j: nat)
    requires j < |ts|
    ensures multiset(TokenTypes(ts[..j] + ts[j + 1..])) == multiset(TokenTypes(ts)) - multiset{ts[j].tokenType}
  {
    assert TokenTypes(ts) == TokenTypes(ts[..j]) + [ts[j].tokenType] + TokenTypes(ts[j + 1..]);
    assert TokenTypes(ts[..j] + ts[j + 1..]) == TokenTypes(ts[..j]) + TokenTypes(ts[j + 1..]);
  }

  /** Spending a type right after appending a token of that type restores the per-type counts. */
  lemma SpendAfterAppendRestoresTypes(before: seq<Token>, t: Token)
    ensures multiset(TokenTypes(Seqs.RemoveFirst(before + [t], OfType(t.tokenType)))) == multiset(TokenTypes(before))
  {
    var mid := before + [t];
    var p := OfType(t.tokenType);
    assert p(mid[|before|]);
    var found := Seqs.FindIndex(mid, p);
    var j := found.value;
    TokenTypesRemove(mid, j);
    assert TokenTypes(mid) == TokenTypes(before) + [t.tokenType];
  }

  /**
   * Assigning a token to a ship and then spending one of the same type leaves
   * the ship holding the same multiset of token types as before: the spent
   * token may be an older one, but the counts per type are restored, and no
   * other ship changes.
   */
  lemma AssignThenSpendRestoresTokenTypes(
    s: State, shipId: string, tokenType: TokenType, conditionId: Option<string>,
    reinforceDirection: Option<ReinforceDirection>, targetShipId: Option<string>, k: nat)
    requires FirstShip(s.ships, shipId, k)
    ensures var r := HandleSpendToken(HandleAssignToken(s, shipId, tokenType, conditionId, reinforceDirection, targetShipId), shipId, tokenType);
            && r.currentStep == s.currentStep + 2
            && |r.ships| == |s.ships|
            && multiset(TokenTypes(r.ships[k].tokens)) == multiset(TokenTypes(s.ships[k].tokens))
            && forall i :: 0 <= i < |s.ships| && i != k ==> r.ships[i] == s.ships[i]
  {
    var a := HandleAssignToken(s, shipId, tokenType, conditionId, reinforceDirection, targetShipId);
    var t := Token(tokenType, conditionId, reinforceDirection, Some(shipId), targetShipId);
    var mid := s.ships[k].tokens + [t];
    assert a.ships == s.ships[k := s.ships[k].(tokens := mid)];
    assert FirstShip(a.ships, shipId, k);
    var r := HandleSpendToken(a, shipId, tokenType);
    assert r.ships[k].tokens == Seqs.RemoveFirst(mid, OfType(tokenType)) by {
      var found := Seqs.FindIndex(mid, OfType(tokenType));
      assert OfType(tokenType)(mid[|mid| - 1]);
      var j := found.value;
      assert r.ships[k].tokens == mid[..j] + mid[j + 1..];
    }
    SpendAfterAppendRestoresTypes(s.ships[k].tokens, t);
  }

  // ---- ammunition and damage ----

  /** `spend_ammo`: the first weapon with the id on the first ship with the id gets the remaining charges. */
  function HandleSpendAmmo(s: State, shipId: string, weaponId: string, ammoRemaining: int): (r: State)
    ensures r == s.(currentStep := s.currentStep + 1, ships := r.ships)
    ensures NoShip(s.ships, shipId) ==> r.ships == s.ships
    ensures forall k | FirstShip(s.ships, shipId, k) ::
              && |r.ships| == |s.ships|
              && r.ships == s.ships[k := s.ships[k].(weapons := r.ships[k].weapons)]
              && (Seqs.NoMatch(s.ships[k].weapons, WeaponWithId(weaponId)) ==> r.ships[k].weapons == s.ships[k].weapons)
              && forall j | Seqs.IsFirst(s.ships[k].weapons, WeaponWithId(weaponId), j) ::
                   r.ships[k].weapons == s.ships[k].weapons[j := s.ships[k].weapons[j].(ammo := Some(ammoRemaining))]
  {
    Advance(s).(ships := EditShip(s.ships, shipId,
      (sh: Ship) => sh.(weapons := Seqs.UpdateFirst(sh.weapons, WeaponWithId(weaponId), (w: Weapon) => w.(ammo := Some(ammoRemaining))))))
  }

  function WeaponWithId(weaponId: string): Weapon -> bool {
    (w: Weapon) => w.weaponId == weaponId
  }

  /** `apply_damage`: the first ship with the id takes the step's remaining hull and shields as they are. */
  function HandleApplyDamage(s: State, shipId: string, hullRemaining: int, shieldsRemaining: int): (r: State)
    ensures r == s.(currentStep := s.currentStep + 1, ships := r.ships)
    ensures NoShip(s.ships, shipId) ==> r.ships == s.ships
    ensures forall k | FirstShip(s.ships, shipId, k) ::
              r.ships == s.ships[k := s.ships[k].(hull := hullRemaining, shields := shieldsRemaining)]
  {
    Advance(s).(ships := EditShip(s.ships, shipId, (sh: Ship) => sh.(shields := shieldsRemaining, hull := hullRemaining)))
  }

  /** `ship_half_health`: the first ship with the id has had its half points scored. */
  function HandleShipHalfHealth(s: State, shipId: string): (r: State)
    ensures r == s.(currentStep := s.currentStep + 1, ships := r.ships)
    ensures NoShip(s.ships, shipId) ==> r.ships == s.ships
    ensures forall k | FirstShip(s.ships, shipId, k) :: r.ships == s.ships[k := s.ships[k].(isHalfPointsScored := true)]
  {
    Advance(s).(ships := EditShip(s.ships, shipId, (sh: Ship) => sh.(isHalfPointsScored := true)))
  }

  /** Number of damage cards a ship holds, face up and face down. */
  function DamageCount(sh: Ship): int {
    |sh.faceUpDamage| + sh.faceDownDamage
  }

  /** Add one damage card: a face-down one for the reserved id, otherwise a face-up named crit. */
  function AddCrit(sh: Ship, critCardId: string): (r: Ship)
    ensures r == sh.(faceUpDamage := r.faceUpDamage, faceDownDamage := r.faceDownDamage)
    ensures DamageCount(r) == DamageCount(sh) + 1
  {
    if critCardId == FacedownCritId then sh.(faceDownDamage := sh.faceDownDamage + 1)
    else sh.(faceUpDamage := sh.faceUpDamage + [Crit(critCardId, true)])
  }

  /** `assign_crit`: the first ship with the id receives one damage card. */
  function HandleAssignCrit(s: State, shipId: string, critCardId: string): (r: State)
    ensures r == s.(currentStep := s.currentStep + 1, ships := r.ships)
    ensures NoShip(s.ships, shipId) ==> r.ships == s.ships
    ensures forall k | FirstShip(s.ships, shipId, k) ::
              && |r.ships| == |s.ships|
              && r.ships == s.ships[k := r.ships[k]]
              && DamageCount(r.ships[k]) == DamageCount(s.ships[k]) + 1
              && (critCardId == FacedownCritId ==>
                    r.ships[k] == s.ships[k].(faceDownDamage := s.ships[k].faceDownDamage + 1))
              && (critCardId != FacedownCritId ==>
                    r.ships[k] == s.ships[k].(faceUpDamage := s.ships[k].faceUpDamage + [Crit(critCardId, true)]))
  {
    Advance(s).(ships := EditShip(s.ships, shipId, (sh: Ship) => AddCrit(sh, critCardId)))
  }

  function CritWithId(critCardId: string): Crit -> bool {
    (c: Crit) => c.critCardId == critCardId
  }

  /** `flip_crit`: the first face-up card with the id on the first ship with the id takes the step's orientation. */
  function HandleFlipCrit(s: State, shipId: string, critCardId: string, faceUp: bool): (r: State)
    ensures r == s.(currentStep := s.currentStep + 1, ships := r.ships)
    ensures NoShip(s.ships, shipId) ==> r.ships == s.ships
    ensures forall k | FirstShip(s.ships, shipId, k) ::
              && |r.ships| == |s.ships|
              && r.ships == s.ships[k := s.ships[k].(faceUpDamage := r.ships[k].faceUpDamage)]
              && (Seqs.NoMatch(s.ships[k].faceUpDamage, CritWithId(critCardId)) ==> r.ships[k].faceUpDamage == s.ships[k].faceUpDamage)
              && forall j | Seqs.IsFirst(s.ships[k].faceUpDamage, CritWithId(critCardId), j) ::
                   r.ships[k].faceUpDamage == s.ships[k].faceUpDamage[j := Crit(critCardId, faceUp)]
  {
    Advance(s).(ships := EditShip(s.ships, shipId,
      (sh: Ship) => sh.(faceUpDamage := Seqs.UpdateFirst(sh.faceUpDamage, CritWithId(critCardId), (c: Crit) => c.(faceUp := faceUp)))))
  }

  /** `destroy_ship`: the first ship with the id is destroyed; who destroyed it is not recorded. */
  function HandleDestroyShip(s: State, shipId: string): (r: State)
    ensures r == s.(currentStep := s.currentStep + 1, ships := r.ships)
    ensures NoShip(s.ships, shipId) ==> r.ships == s.ships
    ensures forall k | FirstShip(s.ships, shipId, k) :: r.ships == s.ships[k := s.ships[k].(isDestroyed := true)]
  {
    Advance(s).(ships := EditShip(s.ships, shipId, (sh: Ship) => sh.(isDestroyed := true)))
  }

  function ObstacleWithId(obstacleId: string): Obstacle -> bool {
    (o: Obstacle) => o.obstacleId == obstacleId
  }

  /** `destroy_obstacle`: the first obstacle with the id is destroyed. */
  function HandleDestroyObstacle(s: State, obstacleId: string): (r: State)
    ensures r == s.(currentStep := s.currentStep + 1, obstacles := r.obstacles)
    ensures Seqs.NoMatch(s.obstacles, ObstacleWithId(obstacleId)) ==> r.obstacles == s.obstacles
    ensures forall k | Seqs.IsFirst(s.obstacles, ObstacleWithId(obstacleId), k) ::
              r.obstacles == s.obstacles[k := Obstacle(obstacleId, true)]
  {
    Advance(s).(obstacles := Seqs.UpdateFirst(s.obstacles, ObstacleWithId(obstacleId), (o: Obstacle) => o.(isDestroyed := true)))
  }
}
