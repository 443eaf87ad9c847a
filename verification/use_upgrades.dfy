/**
 * The upgrade picker: which upgrade cards fit a slot of a pilot, which of the
 * pilot's slots are still free, and whether a unique upgrade may be added.
 */
module UseUpgrades {
  import opened Wrappers
  import opened Cards
  import opened SquadDto
  import Seqs

  /** The upgrade goes in a slot of this type: it is of that type or takes up such a slot. */
  predicate MatchesSlot(u: UpgradeCard, slotType: string) {
    u.upgradeType == slotType || slotType in u.slotsRequired
  }

  /** A non-empty faction (ship) restriction list must name the pilot's faction (ship); an empty or absent one allows all. */
  predicate AllowedFor(u: UpgradeCard, pilot: Pilot) {
    match u.restrictions
    case None => true
    case Some(rs) =>
      && (|rs.factions| > 0 ==> pilot.factionKey in rs.factions)
      && (|rs.ships| > 0 ==> pilot.shipKey in rs.ships)
  }

  predicate FitsSlot(u: UpgradeCard, slotType: string, pilot: Pilot) {
    MatchesSlot(u, slotType) && AllowedFor(u, pilot)
  }

  function FitsSlotOf(slotType: string, pilot: Pilot): UpgradeCard -> bool {
    (u: UpgradeCard) => FitsSlot(u, slotType, pilot)
  }

  /**
   * `getUpgradesForSlot`: the catalog's upgrades that fit the slot and pass
   * the pilot's restrictions, each as often as the catalog lists it; none
   * without a catalog.
   */
  function GetUpgradesForSlot(cards: Option<Catalog>, slotType: string, pilot: Pilot): (r: seq<UpgradeCard>)
    ensures cards.None? ==> r == []
    ensures cards.Some? ==> forall u :: u in r <==> u in cards.value.upgrades && FitsSlot(u, slotType, pilot)
    ensures cards.Some? ==> forall u :: multiset(r)[u] == if FitsSlot(u, slotType, pilot) then multiset(cards.value.upgrades)[u] else 0
  {
    if cards.None? then []
    else
      var r := Seqs.Filter(cards.value.upgrades, FitsSlotOf(slotType, pilot));
      assert forall u :: u in r <==> multiset(r)[u] > 0;
      r
  }

  /**
   * The offered upgrades keep catalog order: cutting the catalog in two, the
   * offers from the first part come before those from the second.
   */
  lemma UpgradesForSlotKeepCatalogOrder(cat: Catalog, slotType: string, pilot: Pilot, a: seq<UpgradeCard>, b: seq<UpgradeCard>)
    requires cat.upgrades == a + b
    ensures GetUpgradesForSlot(Some(cat), slotType, pilot)
         == GetUpgradesForSlot(Some(cat.(upgrades := a)), slotType, pilot) + GetUpgradesForSlot(Some(cat.(upgrades := b)), slotType, pilot)
  {
    Seqs.FilterAppend(a, b, FitsSlotOf(slotType, pilot));
  }

  /** The slots an equipped id takes up: those its upgrade card requires, none when it names no card. */
  function SlotsUsedBy(ups: seq<UpgradeCard>, id: string): seq<string> {
    match FindUpgrade(ups, id)
    case None => []
    case Some(u) => u.slotsRequired
  }

  /** The slots the equipped ids take up, in equip order. */
  function UsedSlots(ups: seq<UpgradeCard>, ids: seq<string>): seq<string> {
    if |ids| == 0 then [] else SlotsUsedBy(ups, ids[0]) + UsedSlots(ups, ids[1..])
  }

  function SlotIs(slot: string): string -> bool {
    (s: string) => s == slot
  }

  /** Taking the first entry equal to `slot` off the list takes one `slot` off its multiset, and nothing when there is none. */
  lemma RemoveOneSlot(available: seq<string>, slot: string)
    ensures multiset(Seqs.RemoveFirst(available, SlotIs(slot))) == multiset(available) - multiset{slot}
  {
    match Seqs.FindIndex(available, SlotIs(slot))
    case None =>
      assert slot !in multiset(available);
    case Some(k) =>
      assert available == available[..k] + [available[k]] + available[k + 1..];
  }

  /**
   * The `indexOf`/`splice` loop: each used slot takes one matching entry off
   * the available list, and a used slot with no entry left takes nothing, so
   * what remains is the multiset difference.
   */
  function RemoveSlots(available: seq<string>, used: seq<string>): (r: seq<string>)
    ensures multiset(r) == multiset(available) - multiset(used)
    ensures |r| <= |available|
    decreases |used|
  {
    if |used| == 0 then available
    else
      var rest := Seqs.RemoveFirst(available, SlotIs(used[0]));
      RemoveOneSlot(available, used[0]);
      assert used == [used[0]] + used[1..];
      assert |multiset(rest)| <= |multiset(available)|;
      RemoveSlots(rest, used[1..])
  }

  /**
   * `getAvailableSlots`: the pilot's upgrade slots less, one for one, the
   * slots the equipped upgrades take up; nothing without a catalog.
   */
  function GetAvailableSlots(cards: Option<Catalog>, pilot: Pilot, currentUpgrades: seq<string>): (r: seq<string>)
    ensures cards.None? ==> r == []
    ensures cards.Some? ==> multiset(r) == multiset(pilot.upgradeSlots) - multiset(UsedSlots(cards.value.upgrades, currentUpgrades))
    ensures |r| <= |pilot.upgradeSlots|
  {
    if cards.None? then []
    else RemoveSlots(pilot.upgradeSlots, UsedSlots(cards.value.upgrades, currentUpgrades))
  }

  lemma {:induction false} UsedSlotsAppend(ups: seq<UpgradeCard>, a: seq<string>, b: seq<string>)
    ensures UsedSlots(ups, a + b) == UsedSlots(ups, a) + UsedSlots(ups, b)
  {
    if |a| == 0 {
      assert a + b == b;
    } else {
      assert (a + b)[0] == a[0];
      assert (a + b)[1..] == a[1..] + b;
      UsedSlotsAppend(ups, a[1..], b);
    }
  }

  /** Equipping an id that names no upgrade card frees or takes no slot. */
  lemma UnknownUpgradeUsesNoSlot(cards: Option<Catalog>, pilot: Pilot, ids: seq<string>, id: string)
    requires cards.Some? ==> forall j :: 0 <= j < |cards.value.upgrades| ==> cards.value.upgrades[j].id != id
    ensures GetAvailableSlots(cards, pilot, ids + [id]) == GetAvailableSlots(cards, pilot, ids)
  {
    if cards.Some? {
      var ups := cards.value.upgrades;
      UsedSlotsAppend(ups, ids, [id]);
      assert UsedSlots(ups, [id]) == SlotsUsedBy(ups, id) + UsedSlots(ups, []);
      assert UsedSlots(ups, ids) + [] == UsedSlots(ups, ids);
    }
  }

  /** Which slots remain free does not depend on the order the upgrades were equipped in. */
  lemma AvailableSlotsIgnoreOrder(cards: Option<Catalog>, pilot: Pilot, a: seq<string>, b: seq<string>)
    ensures multiset(GetAvailableSlots(cards, pilot, a + b)) == multiset(GetAvailableSlots(cards, pilot, b + a))
  {
    if cards.Some? {
      UsedSlotsAppend(cards.value.upgrades, a, b);
      UsedSlotsAppend(cards.value.upgrades, b, a);
    }
  }

  /** `getUpgrade`: the first upgrade card with the id, none without a catalog. */
  function GetUpgrade(cards: Option<Catalog>, upgradeId: string): (r: Option<UpgradeCard>)
    ensures r.None? <==> cards.None? || forall j :: 0 <= j < |cards.value.upgrades| ==> cards.value.upgrades[j].id != upgradeId
    ensures r.Some? ==> r.value in cards.value.upgrades && r.value.id == upgradeId
  {
    if cards.None? then None else FindUpgrade(cards.value.upgrades, upgradeId)
  }

  /** The `some` over the squad's pilots of an `includes` over their equipped ids. */
  function InSquad(upgradeId: string, pilots: seq<SquadPilot>): (r: bool)
    ensures r <==> exists i :: 0 <= i < |pilots| && upgradeId in pilots[i].upgradeIds
  {
    if |pilots| == 0 then false
    else
      assert forall i :: 1 <= i < |pilots| ==> pilots[i] == pilots[1..][i - 1];
      upgradeId in pilots[0].upgradeIds || InSquad(upgradeId, pilots[1..])
  }

  /**
   * `canAddUpgrade`: the id must name an upgrade card, and a unique card may
   * not already be equipped by any pilot of the squad.
   */
  function CanAddUpgrade(cards: Option<Catalog>, upgradeId: string, squadPilots: seq<SquadPilot>): (r: bool)
    ensures r <==> && GetUpgrade(cards, upgradeId).Some?
                   && (GetUpgrade(cards, upgradeId).value.isUnique ==>
                         forall i :: 0 <= i < |squadPilots| ==> upgradeId !in squadPilots[i].upgradeIds)
  {
    match GetUpgrade(cards, upgradeId)
    case None => false
    case Some(u) => !u.isUnique || !InSquad(upgradeId, squadPilots)
  }

  /** Once a unique upgrade is equipped by a pilot of the squad it can no longer be added; a non-unique one still can. */
  lemma EquippingBlocksUnique(cards: Option<Catalog>, upgradeId: string, squadPilots: seq<SquadPilot>, k: nat)
    requires k < |squadPilots| && GetUpgrade(cards, upgradeId).Some?
    ensures var p := squadPilots[k];
            var after := squadPilots[k := p.(upgradeIds := p.upgradeIds + [upgradeId])];
            CanAddUpgrade(cards, upgradeId, after) <==> !GetUpgrade(cards, upgradeId).value.isUnique
  {
    var p := squadPilots[k];
    var after := squadPilots[k := p.(upgradeIds := p.upgradeIds + [upgradeId])];
    assert upgradeId in after[k].upgradeIds;
  }
}
