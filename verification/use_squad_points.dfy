/**
 * Squad point totals: every build costs its pilot card's points plus the
 * points of its upgrade cards, and the Vaksai title lowers every other upgrade
 * on its ship by one point, never below zero.
 */
module UseSquadPoints {
  import opened Wrappers
  import opened Cards
  import opened SquadDto

  const VaksaiName := "Vaksai"

  /** The result of a count: the total and whether it exceeds the squad's point limit. */
  datatype Points = Points(total: int, isOverLimit: bool)

  /** The card an equipped id resolves to is the Vaksai title. */
  predicate IsVaksai(u: Option<UpgradeCard>) {
    u.Some? && u.value.name == VaksaiName
  }

  /** Some equipped id of the build resolves to the Vaksai title. */
  predicate HasVaksai(ups: seq<UpgradeCard>, ids: seq<string>) {
    exists i :: 0 <= i < |ids| && IsVaksai(FindUpgrade(ups, ids[i]))
  }

  function Max0(x: int): int {
    if x < 0 then 0 else x
  }

  /** What one upgrade card costs: on a Vaksai ship every card but Vaksai itself is one point cheaper, down to 0. */
  function UpgradeCost(u: UpgradeCard, vaksai: bool): int {
    if vaksai && u.name != VaksaiName then Max0(u.points - 1) else u.points
  }

  /** What one equipped id costs: nothing when it names no upgrade card. */
  function IdCost(ups: seq<UpgradeCard>, id: string, vaksai: bool): int {
    match FindUpgrade(ups, id)
    case None => 0
    case Some(u) => UpgradeCost(u, vaksai)
  }

  /** The cost of the equipped ids, in equip order. */
  function UpgradesCost(ups: seq<UpgradeCard>, ids: seq<string>, vaksai: bool): int {
    if |ids| == 0 then 0
    else UpgradesCost(ups, ids[..|ids| - 1], vaksai) + IdCost(ups, ids[|ids| - 1], vaksai)
  }

  /** A build's cost: nothing when its pilot card is unknown, else the pilot's points plus its upgrades'. */
  function ShipPoints(cat: Catalog, ship: RosterShip): int {
    match FindPilot(cat.pilots, ship.pilotId)
    case None => 0
    case Some(p) => p.points + UpgradesCost(cat.upgrades, ship.upgradeIds, HasVaksai(cat.upgrades, ship.upgradeIds))
  }

  /** The cost of a list of builds: the sum of their costs. */
  function SquadTotal(cat: Catalog, ships: seq<RosterShip>): int {
    if |ships| == 0 then 0
    else SquadTotal(cat, ships[..|ships| - 1]) + ShipPoints(cat, ships[|ships| - 1])
  }

  /** `hasVaksai`: the `some` over the equipped ids, stopping at the first Vaksai. */
  method AnyVaksai(ups: seq<UpgradeCard>, ids: seq<string>) returns (found: bool)
    ensures found <==> HasVaksai(ups, ids)
  {
    var i := 0;
    while i < |ids|
      invariant 0 <= i <= |ids|
      invariant forall j :: 0 <= j < i ==> !IsVaksai(FindUpgrade(ups, ids[j]))
    {
      var u := FindUpgrade(ups, ids[i]);
      if u.Some? && u.value.name == VaksaiName {
        return true;
      }
      i := i + 1;
    }
    return false;
  }

  /** The loop adding up the cost of the equipped ids. */
  method SumUpgrades(ups: seq<UpgradeCard>, ids: seq<string>, vaksai: bool) returns (sum: int)
    ensures sum == UpgradesCost(ups, ids, vaksai)
  {
    sum := 0;
    var i := 0;
    while i < |ids|
      invariant 0 <= i <= |ids|
      invariant sum == UpgradesCost(ups, ids[..i], vaksai)
    {
      var u := FindUpgrade(ups, ids[i]);
      if u.Some? {
        var cost := u.value.points;
        if vaksai && u.value.name != VaksaiName {
          cost := Max0(cost - 1);
        }
        sum := sum + cost;
      }
      assert ids[..i + 1][..i] == ids[..i];
      i := i + 1;
    }
    assert ids[..i] == ids;
  }

  /**
   * `calculateSquadPoints`: without a catalog the count is 0 and never over
   * the limit; otherwise the total is the sum of the builds' costs, over the
   * limit exactly when a limit is given and the total exceeds it.
   */
  method CalculateSquadPoints(cards: Option<Catalog>, ships: seq<RosterShip>, pointLimit: Option<int>) returns (r: Points)
    ensures cards.None? ==> r == Points(0, false)
    ensures cards.Some? ==> r.total == SquadTotal(cards.value, ships)
    ensures r.isOverLimit <==> cards.Some? && pointLimit.Some? && r.total > pointLimit.value
  {
    if cards.None? {
      return Points(0, false);
    }
    var cat := cards.value;
    var total := 0;
    var i := 0;
    while i < |ships|
      invariant 0 <= i <= |ships|
      invariant total == SquadTotal(cat, ships[..i])
    {
      var ship := ships[i];
      var pilot := FindPilot(cat.pilots, ship.pilotId);
      if pilot.Some? {
        total := total + pilot.value.points;
        var hasVaksai := AnyVaksai(cat.upgrades, ship.upgradeIds);
        var cost := SumUpgrades(cat.upgrades, ship.upgradeIds, hasVaksai);
        total := total + cost;
      }
      assert ships[..i + 1][..i] == ships[..i];
      i := i + 1;
    }
    assert ships[..i] == ships;
    var over := if pointLimit.Some? then total > pointLimit.value else false;
    return Points(total, over);
  }

  /** `calculateSquadReadPoints`: the count over a stored squad's builds. */
  method CalculateSquadReadPoints(cards: Option<Catalog>, squad: Squad, pointLimit: Option<int>) returns (r: Points)
    ensures cards.None? ==> r == Points(0, false)
    ensures cards.Some? ==> r.total == SquadTotal(cards.value, squad.ships)
    ensures r.isOverLimit <==> cards.Some? && pointLimit.Some? && r.total > pointLimit.value
  {
    r := CalculateSquadPoints(cards, squad.ships, pointLimit);
  }

  /** The total of two lists of builds side by side is the sum of their totals. */
  lemma {:induction false} SquadTotalAppend(cat: Catalog, a: seq<RosterShip>, b: seq<RosterShip>)
    ensures SquadTotal(cat, a + b) == SquadTotal(cat, a) + SquadTotal(cat, b)
  {
    if |b| == 0 {
      assert a + b == a;
    } else {
      var b' := b[..|b| - 1];
      assert (a + b)[..|a + b| - 1] == a + b';
      assert (a + b)[|a + b| - 1] == b[|b| - 1];
      SquadTotalAppend(cat, a, b');
    }
  }

  /** Reordering the builds of a squad does not change its total. */
  lemma SquadTotalSwap(cat: Catalog, a: seq<RosterShip>, b: seq<RosterShip>)
    ensures SquadTotal(cat, a + b) == SquadTotal(cat, b + a)
  {
    SquadTotalAppend(cat, a, b);
    SquadTotalAppend(cat, b, a);
  }

  /** A build whose pilot card is unknown adds nothing, whatever it equips. */
  lemma UnknownPilotAddsNothing(cat: Catalog, ships: seq<RosterShip>, ship: RosterShip)
    requires forall j :: 0 <= j < |cat.pilots| ==> cat.pilots[j].id != ship.pilotId
    ensures SquadTotal(cat, ships + [ship]) == SquadTotal(cat, ships)
  {
    assert (ships + [ship])[..|ships|] == ships;
  }

  /** An equipped id that names no upgrade card costs nothing, Vaksai or not. */
  lemma UnknownUpgradeAddsNothing(ups: seq<UpgradeCard>, ids: seq<string>, id: string, vaksai: bool)
    requires forall j :: 0 <= j < |ups| ==> ups[j].id != id
    ensures UpgradesCost(ups, ids + [id], vaksai) == UpgradesCost(ups, ids, vaksai)
  {
    assert (ids + [id])[..|ids|] == ids;
  }

  /**
   * With no negative upgrade prices, Vaksai never raises the cost of a ship's
   * upgrades and lowers it by at most one point per equipped id.
   */
  lemma {:induction false} VaksaiDiscountBounds(ups: seq<UpgradeCard>, ids: seq<string>)
    requires forall j :: 0 <= j < |ups| ==> ups[j].points >= 0
    ensures UpgradesCost(ups, ids, false) - |ids| <= UpgradesCost(ups, ids, true) <= UpgradesCost(ups, ids, false)
  {
    if |ids| > 0 {
      VaksaiDiscountBounds(ups, ids[..|ids| - 1]);
      var u := FindUpgrade(ups, ids[|ids| - 1]);
      if u.Some? {
        assert u.value.points >= 0;
      }
    }
  }
}
