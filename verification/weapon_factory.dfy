/**
 * Weapon-list construction for one ship build: the primary weapon from the
 * pilot card, one weapon per weapon-type upgrade, the synthetic Snap Shot and
 * Renegade Refit weapons, and the final Extra Munitions ammo pass.
 */
module WeaponFactory {
  import opened Wrappers
  import opened Cards
  import opened SquadDto
  import opened GameStateDto
  import Seqs

  const WeaponUpgradeTypes: seq<string> := ["Torpedo", "Missile", "Cannon", "Turret", "Bomb", "Mine"]

  /** Support cards whose key would otherwise pass for a weapon. */
  const ExcludeKeys: seq<string> := ["renegaderefit", "extramunitions"]

  /** Upgrade types that carry one charge when the card states no energy. */
  const OrdnanceTypes: seq<string> := ["Torpedo", "Missile", "Bomb", "Mine"]

  const ExtraMunitionsId: string := "extramunitions"
  const SnapshotKey: string := "snapshot"
  const RefitKey: string := "renegaderefit"

  /** The catalog cards of the build's upgrade ids, in id order; unknown ids are dropped. */
  function KnownUpgrades(ids: seq<string>, upgrades: seq<UpgradeCard>): (r: seq<UpgradeCard>)
    ensures |r| <= |ids|
    ensures forall i :: 0 <= i < |r| ==> r[i] in upgrades
    ensures (forall i :: 0 <= i < |ids| ==> IndexedUpgrade(upgrades, ids[i]).Some?) ==> |r| == |ids|
  {
    if |ids| == 0 then []
    else
      var rest := KnownUpgrades(ids[1..], upgrades);
      assert forall i :: 1 <= i < |ids| ==> ids[i] == ids[1..][i - 1];
      match IndexedUpgrade(upgrades, ids[0])
      case Some(u) => [u] + rest
      case None => rest
  }

  lemma {:induction false} KnownUpgradesAppend(ids: seq<string>, more: seq<string>, upgrades: seq<UpgradeCard>)
    ensures KnownUpgrades(ids + more, upgrades) == KnownUpgrades(ids, upgrades) + KnownUpgrades(more, upgrades)
  {
    if |ids| == 0 {
      assert ids + more == more;
    } else {
      assert (ids + more)[1..] == ids[1..] + more;
      KnownUpgradesAppend(ids[1..], more, upgrades);
    }
  }

  /**
   * A single id resolves to its catalog card, or to nothing when the catalog
   * has no card with it; with `KnownUpgradesAppend` this fixes the result for
   * every id list.
   */
  lemma KnownUpgradesOfOne(id: string, upgrades: seq<UpgradeCard>)
    ensures KnownUpgrades([id], upgrades) == match IndexedUpgrade(upgrades, id)
                                             case Some(u) => [u]
                                             case None => []
  {
    assert [id][1..] == [];
  }

  /** A card that yields a regular upgrade weapon. */
  predicate IsWeaponCard(u: UpgradeCard) {
    u.upgradeType in WeaponUpgradeTypes && u.key !in ExcludeKeys
  }

  function HasKey(key: string): UpgradeCard -> bool {
    (u: UpgradeCard) => u.key == key
  }

  /** Charges of a regular upgrade weapon before Extra Munitions. */
  function BaseAmmo(u: UpgradeCard): Option<int> {
    if u.energy.Some? then u.energy
    else if u.upgradeType in OrdnanceTypes then Some(1)
    else None
  }

  function PrimaryWeapon(p: Pilot): Weapon {
    Weapon("pilot", "Primary", Some(p.attack), Some(1), Some(3), None, false)
  }

  function UpgradeWeapon(u: UpgradeCard): Weapon {
    Weapon(u.id, u.upgradeType, u.attack, u.minRange, u.maxRange, BaseAmmo(u), false)
  }

  function SnapshotWeapon(u: UpgradeCard): Weapon {
    Weapon(u.id, "Elite", Some(u.attack.GetOr(2)), Some(u.minRange.GetOr(2)), Some(u.maxRange.GetOr(2)), None, false)
  }

  function RefitWeapon(u: UpgradeCard): Weapon {
    Weapon(u.id, "Torpedo", Some(u.attack.GetOr(2)), Some(u.minRange.GetOr(2)), Some(u.maxRange.GetOr(3)), Some(1), false)
  }

  /** Extra Munitions: one more charge on a weapon that has charges, unless it is a Cannon or Elite weapon. */
  function AddCharge(w: Weapon): Weapon {
    if w.weaponType == "Cannon" || w.weaponType == "Elite" then w
    else if w.ammo.Some? then w.(ammo := Some(w.ammo.value + 1))
    else w
  }

  /** The pilot card of the build, when it grants a primary weapon. */
  function PrimaryPilot(ship: RosterShip, cat: Catalog): Option<Pilot> {
    match IndexedPilot(cat.pilots, ship.pilotId)
    case Some(p) => if p.attack > 0 then Some(p) else None
    case None => None
  }

  /** The regular weapon cards of the build, in upgrade-id order. */
  function WeaponCards(ship: RosterShip, cat: Catalog): seq<UpgradeCard> {
    Seqs.Filter(KnownUpgrades(ship.upgradeIds, cat.upgrades), IsWeaponCard)
  }

  function SnapshotCard(ship: RosterShip, cat: Catalog): Option<UpgradeCard> {
    Seqs.Find(KnownUpgrades(ship.upgradeIds, cat.upgrades), HasKey(SnapshotKey))
  }

  function RefitCard(ship: RosterShip, cat: Catalog): Option<UpgradeCard> {
    Seqs.Find(KnownUpgrades(ship.upgradeIds, cat.upgrades), HasKey(RefitKey))
  }

  /** One weapon per regular weapon card, in order. */
  function RegularWeapons(cards: seq<UpgradeCard>): (r: seq<Weapon>)
    ensures |r| == |cards|
    ensures forall i :: 0 <= i < |cards| ==> r[i] == UpgradeWeapon(cards[i])
  {
    seq(|cards|, i requires 0 <= i < |cards| => UpgradeWeapon(cards[i]))
  }

  function SnapshotWeapons(ship: RosterShip, cat: Catalog): seq<Weapon> {
    match SnapshotCard(ship, cat) case Some(u) => [SnapshotWeapon(u)] case None => []
  }

  function RefitWeapons(ship: RosterShip, cat: Catalog): seq<Weapon> {
    match RefitCard(ship, cat) case Some(u) => [RefitWeapon(u)] case None => []
  }

  /** The upgrade weapons before the Extra Munitions pass. */
  function UpgradeWeapons(ship: RosterShip, cat: Catalog): seq<Weapon> {
    RegularWeapons(WeaponCards(ship, cat)) + SnapshotWeapons(ship, cat) + RefitWeapons(ship, cat)
  }

  /** The Extra Munitions pass over the upgrade weapons. */
  function ExtraMunitionsPass(ws: seq<Weapon>): (r: seq<Weapon>)
    ensures |r| == |ws|
    ensures forall i :: 0 <= i < |ws| ==> r[i] == AddCharge(ws[i])
  {
    seq(|ws|, i requires 0 <= i < |ws| => AddCharge(ws[i]))
  }

  function Count(b: bool): nat {
    if b then 1 else 0
  }

  /** No weapon of the list is destroyed, and none is a primary weapon. */
  ghost predicate FreshSecondaries(ws: seq<Weapon>) {
    forall i :: 0 <= i < |ws| ==> !ws[i].isDestroyed && ws[i].weaponType != "Primary"
  }

  lemma SecondaryTypesAreNotPrimary(t: string)
    requires t in WeaponUpgradeTypes || t == "Elite"
    ensures t != "Primary"
  {
  }

  lemma RegularWeaponsAreFresh(cards: seq<UpgradeCard>)
    requires forall i :: 0 <= i < |cards| ==> IsWeaponCard(cards[i])
    ensures FreshSecondaries(RegularWeapons(cards))
  {
    forall i | 0 <= i < |cards|
      ensures RegularWeapons(cards)[i].weaponType != "Primary"
    {
      SecondaryTypesAreNotPrimary(cards[i].upgradeType);
    }
  }

  lemma UpgradeWeaponsAreFresh(ship: RosterShip, cat: Catalog)
    ensures FreshSecondaries(UpgradeWeapons(ship, cat))
  {
    var cards := WeaponCards(ship, cat);
    RegularWeaponsAreFresh(cards);
    SecondaryTypesAreNotPrimary("Elite");
    SecondaryTypesAreNotPrimary("Torpedo");
    var a, b, c := RegularWeapons(cards), SnapshotWeapons(ship, cat), RefitWeapons(ship, cat);
    FreshAppend(a, b);
    FreshAppend(a + b, c);
  }

  lemma FreshAppend(a: seq<Weapon>, b: seq<Weapon>)
    requires FreshSecondaries(a) && FreshSecondaries(b)
    ensures FreshSecondaries(a + b)
  {
    forall i | 0 <= i < |a + b|
      ensures !(a + b)[i].isDestroyed && (a + b)[i].weaponType != "Primary"
    {
      if i >= |a| {
        assert (a + b)[i] == b[i - |a|];
      }
    }
  }

  lemma ChargePassKeepsFresh(ws: seq<Weapon>)
    requires FreshSecondaries(ws)
    ensures FreshSecondaries(ExtraMunitionsPass(ws))
  {
  }

  /** Charges of the weapon built from a regular card, after the Extra Munitions pass when `em` holds. */
  function FinalAmmo(u: UpgradeCard, em: bool): Option<int> {
    if em && u.upgradeType != "Cannon" && u.upgradeType != "Elite" && BaseAmmo(u).Some? then Some(BaseAmmo(u).value + 1) else BaseAmmo(u)
  }

  /** The upgrade weapons after the Extra Munitions pass, when the build lists that upgrade id. */
  function FinalUpgradeWeapons(ship: RosterShip, cat: Catalog): seq<Weapon> {
    if ExtraMunitionsId in ship.upgradeIds then ExtraMunitionsPass(UpgradeWeapons(ship, cat)) else UpgradeWeapons(ship, cat)
  }

  function PilotWeapons(ship: RosterShip, cat: Catalog): seq<Weapon> {
    match PrimaryPilot(ship, cat) case Some(p) => [PrimaryWeapon(p)] case None => []
  }

  /** The weapon list of a ship build. */
  function CreateWeapons(ship: RosterShip, cat: Catalog): (r: seq<Weapon>)
    // the primary weapon comes first, exactly when the pilot card is known and has attack > 0
    ensures PrimaryPilot(ship, cat).Some? <==> |r| > 0 && r[0].weaponType == "Primary"
    ensures PrimaryPilot(ship, cat).Some? ==> r[0] == PrimaryWeapon(PrimaryPilot(ship, cat).value)
    ensures forall i :: 0 < i < |r| ==> r[i].weaponType != "Primary"
    ensures forall i :: 0 <= i < |r| ==> !r[i].isDestroyed
  {
    UpgradeWeaponsAreFresh(ship, cat);
    ChargePassKeepsFresh(UpgradeWeapons(ship, cat));
    PilotWeapons(ship, cat) + FinalUpgradeWeapons(ship, cat)
  }

  /** The regular entries follow the primary weapon, one per weapon card in order, with their charges. */
  lemma CreateWeaponsRegularEntries(ship: RosterShip, cat: Catalog)
    ensures var r := CreateWeapons(ship, cat);
            var off := Count(PrimaryPilot(ship, cat).Some?);
            var cards := WeaponCards(ship, cat);
            && |r| == off + |cards| + Count(SnapshotCard(ship, cat).Some?) + Count(RefitCard(ship, cat).Some?)
            && forall i :: 0 <= i < |cards| ==>
                 && r[off + i].weaponId == cards[i].id
                 && r[off + i].weaponType == cards[i].upgradeType
                 && r[off + i].ammo == FinalAmmo(cards[i], ExtraMunitionsId in ship.upgradeIds)
  {
    var f := FinalUpgradeWeapons(ship, cat);
    CreateWeaponsLayout(ship, cat);
    RegularAmmo(ship, cat, f);
    BonusLayout(ship, cat, f);
  }

  /** The weapon list is the pilot's primary weapon, when any, followed by the upgrade weapons. */
  lemma CreateWeaponsLayout(ship: RosterShip, cat: Catalog)
    ensures var r, f := CreateWeapons(ship, cat), FinalUpgradeWeapons(ship, cat);
            var off := Count(PrimaryPilot(ship, cat).Some?);
            && |r| == off + |f|
            && forall i :: 0 <= i < |f| ==> r[off + i] == f[i]
  {
    var p, f := PilotWeapons(ship, cat), FinalUpgradeWeapons(ship, cat);
    assert CreateWeapons(ship, cat) == p + f;
    assert |p| == Count(PrimaryPilot(ship, cat).Some?);
    SuffixAt(p, f);
  }

  lemma SuffixAt<T>(p: seq<T>, f: seq<T>)
    ensures |p + f| == |p| + |f|
    ensures forall i :: 0 <= i < |f| ==> (p + f)[|p| + i] == f[i]
  {
  }

  /** Snap Shot adds one Elite weapon without charges; Renegade Refit adds one Torpedo weapon, last, with one charge. */
  lemma CreateWeaponsBonusEntries(ship: RosterShip, cat: Catalog)
    ensures var r := CreateWeapons(ship, cat);
            var k := Count(PrimaryPilot(ship, cat).Some?) + |WeaponCards(ship, cat)|;
            && (SnapshotCard(ship, cat).Some? ==>
                  && k < |r|
                  && r[k].weaponId == SnapshotCard(ship, cat).value.id
                  && r[k].weaponType == "Elite"
                  && r[k].ammo.None?)
            && (RefitCard(ship, cat).Some? ==>
                  && 0 < |r|
                  && r[|r| - 1].weaponId == RefitCard(ship, cat).value.id
                  && r[|r| - 1].weaponType == "Torpedo"
                  && r[|r| - 1].ammo == Some(if ExtraMunitionsId in ship.upgradeIds then 2 else 1))
  {
    var f := FinalUpgradeWeapons(ship, cat);
    CreateWeaponsLayout(ship, cat);
    BonusLayout(ship, cat, f);
    var off, k := Count(PrimaryPilot(ship, cat).Some?), |WeaponCards(ship, cat)|;
    var r := CreateWeapons(ship, cat);
    if SnapshotCard(ship, cat).Some? {
      assert r[off + k] == f[k];
    }
    if RefitCard(ship, cat).Some? {
      assert r[off + (|f| - 1)] == f[|f| - 1];
    }
  }

  lemma RegularAmmo(ship: RosterShip, cat: Catalog, finalUpgrades: seq<Weapon>)
    requires finalUpgrades == FinalUpgradeWeapons(ship, cat)
    ensures var cards := WeaponCards(ship, cat);
            forall i :: 0 <= i < |cards| ==>
              && finalUpgrades[i].weaponId == cards[i].id
              && finalUpgrades[i].weaponType == cards[i].upgradeType
              && finalUpgrades[i].ammo == FinalAmmo(cards[i], ExtraMunitionsId in ship.upgradeIds)
  {
    var cards := WeaponCards(ship, cat);
    var ws := UpgradeWeapons(ship, cat);
    RegularPrefix(ship, cat);
    forall i | 0 <= i < |cards|
      ensures && finalUpgrades[i].weaponId == cards[i].id
              && finalUpgrades[i].weaponType == cards[i].upgradeType
              && finalUpgrades[i].ammo == FinalAmmo(cards[i], ExtraMunitionsId in ship.upgradeIds)
    {
      assert ws[i] == UpgradeWeapon(cards[i]);
    }
  }

  /** The upgrade weapons start with one regular weapon per weapon card. */
  lemma RegularPrefix(ship: RosterShip, cat: Catalog)
    ensures var cards, ws := WeaponCards(ship, cat), UpgradeWeapons(ship, cat);
            && |cards| <= |ws|
            && forall i :: 0 <= i < |cards| ==> ws[i] == UpgradeWeapon(cards[i])
  {
    var cards := WeaponCards(ship, cat);
    var a, b, c := RegularWeapons(cards), SnapshotWeapons(ship, cat), RefitWeapons(ship, cat);
    assert UpgradeWeapons(ship, cat) == a + (b + c);
  }

  lemma BonusLayout(ship: RosterShip, cat: Catalog, finalUpgrades: seq<Weapon>)
    requires finalUpgrades == FinalUpgradeWeapons(ship, cat)
    ensures |finalUpgrades| == |WeaponCards(ship, cat)| + Count(SnapshotCard(ship, cat).Some?) + Count(RefitCard(ship, cat).Some?)
    ensures var k := |WeaponCards(ship, cat)|;
            SnapshotCard(ship, cat).Some? ==>
              && finalUpgrades[k].weaponId == SnapshotCard(ship, cat).value.id
              && finalUpgrades[k].weaponType == "Elite"
              && finalUpgrades[k].ammo.None?
    ensures RefitCard(ship, cat).Some? ==>
              && finalUpgrades[|finalUpgrades| - 1].weaponId == RefitCard(ship, cat).value.id
              && finalUpgrades[|finalUpgrades| - 1].weaponType == "Torpedo"
              && finalUpgrades[|finalUpgrades| - 1].ammo == Some(if ExtraMunitionsId in ship.upgradeIds then 2 else 1)
  {
    var cards := WeaponCards(ship, cat);
    var a, b, c := RegularWeapons(cards), SnapshotWeapons(ship, cat), RefitWeapons(ship, cat);
    var ws := a + b + c;
    assert ws == UpgradeWeapons(ship, cat);
    if SnapshotCard(ship, cat).Some? {
      assert ws[|cards|] == SnapshotWeapon(SnapshotCard(ship, cat).value);
    }
    if RefitCard(ship, cat).Some? {
      assert ws[|ws| - 1] == RefitWeapon(RefitCard(ship, cat).value);
    }
  }

  /** The regular weapon cards never include a Renegade Refit or Extra Munitions card. */
  lemma SupportCardsAreNotWeapons(ship: RosterShip, cat: Catalog)
    ensures forall u :: u in WeaponCards(ship, cat) ==> u.key != RefitKey && u.key != "extramunitions"
  {
    var cards := WeaponCards(ship, cat);
    forall u | u in cards
      ensures u.key != RefitKey && u.key != "extramunitions"
    {
      var i :| 0 <= i < |cards| && cards[i] == u;
      assert IsWeaponCard(cards[i]);
    }
  }
}
