/** The read-only card catalog: pilot cards, upgrade cards and damage cards. */
module Cards {
  import opened Wrappers
  import opened Enums
  import Seqs

  datatype Pilot = Pilot(
    id: string,
    factionKey: string,
    shipKey: string,
    pilotSkill: int,
    points: int,
    attack: int,
    agility: int,
    hull: int,
    shields: int,
    upgradeSlots: seq<string>,
    maneuvers: seq<Maneuver>)

  /** Faction and ship-type restrictions of an upgrade card; an empty list restricts nothing. */
  datatype Restrictions = Restrictions(factions: seq<string>, ships: seq<string>)

  datatype UpgradeCard = UpgradeCard(
    id: string,
    key: string,
    name: string,
    isUnique: bool,
    upgradeType: string,
    slotsRequired: seq<string>,
    points: int,
    restrictions: Option<Restrictions>,
    attack: Option<int>,
    minRange: Option<int>,
    maxRange: Option<int>,
    energy: Option<int>)

  datatype DamageCard = DamageCard(id: string)

  datatype Catalog = Catalog(pilots: seq<Pilot>, upgrades: seq<UpgradeCard>, damageCards: seq<DamageCard>)

  function PilotWithId(id: string): Pilot -> bool { (p: Pilot) => p.id == id }

  function UpgradeWithId(id: string): UpgradeCard -> bool { (u: UpgradeCard) => u.id == id }

  /** The pilot card a `find` by id returns: the first one with that id. */
  function FindPilot(pilots: seq<Pilot>, id: string): (r: Option<Pilot>)
    ensures r.None? <==> forall j :: 0 <= j < |pilots| ==> pilots[j].id != id
    ensures r.Some? ==> r.value in pilots && r.value.id == id
  {
    Seqs.Find(pilots, PilotWithId(id))
  }

  /** The upgrade card a `find` by id returns: the first one with that id. */
  function FindUpgrade(upgrades: seq<UpgradeCard>, id: string): (r: Option<UpgradeCard>)
    ensures r.None? <==> forall j :: 0 <= j < |upgrades| ==> upgrades[j].id != id
    ensures r.Some? ==> r.value in upgrades && r.value.id == id
  {
    Seqs.Find(upgrades, UpgradeWithId(id))
  }

  /**
   * The pilot card stored under `id` in a record built by assigning every
   * card in catalog order, so that a later card with the same id overwrites
   * an earlier one: the last card with that id.
   */
  function IndexedPilot(pilots: seq<Pilot>, id: string): (r: Option<Pilot>)
    ensures r.None? <==> forall j :: 0 <= j < |pilots| ==> pilots[j].id != id
    ensures r.Some? ==> r.value in pilots && r.value.id == id
  {
    Seqs.FindLast(pilots, PilotWithId(id))
  }

  /** The upgrade card stored under `id` in a record built by overwriting assignment: the last one with that id. */
  function IndexedUpgrade(upgrades: seq<UpgradeCard>, id: string): (r: Option<UpgradeCard>)
    ensures r.None? <==> forall j :: 0 <= j < |upgrades| ==> upgrades[j].id != id
    ensures r.Some? ==> r.value in upgrades && r.value.id == id
  {
    Seqs.FindLast(upgrades, UpgradeWithId(id))
  }

  /** Every card id occurs at most once in the catalog. */
  ghost predicate UniqueIds(cat: Catalog) {
    && (forall i, j :: 0 <= i < j < |cat.pilots| ==> cat.pilots[i].id != cat.pilots[j].id)
    && (forall i, j :: 0 <= i < j < |cat.upgrades| ==> cat.upgrades[i].id != cat.upgrades[j].id)
  }

  /** With unique ids, the record lookup and `find` agree. */
  lemma IndexedPilotIsFound(cat: Catalog, id: string)
    requires UniqueIds(cat)
    ensures IndexedPilot(cat.pilots, id) == FindPilot(cat.pilots, id)
  {
  }
}
