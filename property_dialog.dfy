/**
 * The building manager (apps/web/components/PropertyManagerDialog.tsx): which
 * of the player's properties are shown for building, in which order, and when
 * its buy and sell buttons are enabled. This is the client's advisory view of
 * the even-building rule; the server decides separately. A missing or empty
 * colour is the empty string; a missing board position is 0.
 */
module PropertyDialog {
  import opened Base
  import opened Sorting

  type PropId = nat

  /** A property definition, as the client receives it. */
  datatype Property = Property(id: PropId, groupColor: string, boardPosition: int, houseCost: int, hotelCost: int)

  /** One of the player's ownership rows. */
  datatype Owned = Owned(id: nat, propertyId: PropId, houseCount: int, hotelCount: int, isMortgaged: bool)

  const Utility: string := "UTILITY"
  const Station: string := "STATION"

  // ---- Monopolies ----

  /** The properties of one colour, in catalog order. */
  function OfColor(all: seq<Property>, color: string): (r: seq<Property>)
    ensures forall p :: p in r <==> p in all && p.groupColor == color
  {
    if all == [] then [] else OfColor(all[..|all| - 1], color) + (if all[|all| - 1].groupColor == color then [all[|all| - 1]] else [])
  }

  /** The `reduce` that groups the catalog by colour, skipping properties without one. */
  function GroupByColor(all: seq<Property>): map<string, seq<Property>> {
    if all == [] then map[]
    else
      var acc := GroupByColor(all[..|all| - 1]);
      var p := all[|all| - 1];
      if p.groupColor == "" then acc
      else acc[p.groupColor := (if p.groupColor in acc then acc[p.groupColor] else []) + [p]]
  }

  predicate Owns(mine: seq<Owned>, id: PropId) {
    exists mp :: mp in mine && mp.propertyId == id
  }

  /** `myMonopolies`: the colours, other than utilities and stations, whose every property the player owns. */
  function Monopolies(all: seq<Property>, mine: seq<Owned>): set<string> {
    var groups := GroupByColor(all);
    set color | color in groups && color != Utility && color != Station &&
                forall gp :: gp in groups[color] ==> Owns(mine, gp.id)
  }

  /** `allProperties.find`: the first definition with the id. */
  function Find(all: seq<Property>, id: PropId): (r: Option<Property>)
    ensures r.Some? ==> r.value in all && r.value.id == id
    ensures r.None? <==> forall p :: p in all ==> p.id != id
  {
    if all == [] then None else if all[0].id == id then Some(all[0]) else Find(all[1..], id)
  }

  /** The board position the sort compares. */
  function Position(all: seq<Property>, mp: Owned): int {
    match Find(all, mp.propertyId)
    case Some(p) => p.boardPosition
    case None => 0
  }

  predicate InMonopoly(all: seq<Property>, mine: seq<Owned>, mp: Owned) {
    var def := Find(all, mp.propertyId);
    def.Some? && def.value.groupColor != "" && def.value.groupColor in Monopolies(all, mine)
  }

  function Eligible(all: seq<Property>, mine: seq<Owned>, rows: seq<Owned>): (r: seq<Owned>)
    ensures forall mp :: mp in r <==> mp in rows && InMonopoly(all, mine, mp)
  {
    if rows == [] then [] else (if InMonopoly(all, mine, rows[0]) then [rows[0]] else []) + Eligible(all, mine, rows[1..])
  }

  /** `buildableProperties`: the player's rows in a monopoly, sorted by board position. */
  function Buildable(all: seq<Property>, mine: seq<Owned>): seq<Owned> {
    SortBy(Eligible(all, mine, mine), mp => Position(all, mp))
  }

  // ---- One row's buttons ----

  /** Buildings on a row: a hotel counts as five. */
  function Level(mp: Owned): int {
    if mp.hotelCount > 0 then 5 else mp.houseCount
  }

  /** `groupOwned`: the player's rows whose definition has the colour. */
  function GroupOwned(all: seq<Property>, rows: seq<Owned>, color: string): (r: seq<Owned>)
    ensures forall mp :: mp in r <==> mp in rows && Find(all, mp.propertyId).Some? && Find(all, mp.propertyId).value.groupColor == color
  {
    if rows == [] then []
    else
      var def := Find(all, rows[0].propertyId);
      (if def.Some? && def.value.groupColor == color then [rows[0]] else []) + GroupOwned(all, rows[1..], color)
  }

  function Levels(group: seq<Owned>): (r: seq<int>)
    ensures |r| == |group| && forall i :: 0 <= i < |group| ==> r[i] == Level(group[i])
  {
    if group == [] then [] else [Level(group[0])] + Levels(group[1..])
  }

  /** `Math.min` of a non-empty list. */
  function Min(s: seq<int>): (m: int)
    requires s != []
    ensures m in s && forall x :: x in s ==> m <= x
  {
    if |s| == 1 then s[0]
    else
      var rest := Min(s[1..]);
      assert s == [s[0]] + s[1..];
      if s[0] <= rest then s[0] else rest
  }

  /** `Math.max` of a non-empty list. */
  function Max(s: seq<int>): (m: int)
    requires s != []
    ensures m in s && forall x :: x in s ==> x <= m
  {
    if |s| == 1 then s[0]
    else
      var rest := Max(s[1..]);
      assert s == [s[0]] + s[1..];
      if s[0] >= rest then s[0] else rest
  }

  /** `currentBuildings <= minBuildings`; `Math.min()` of nothing is +Infinity. */
  predicate CanBuildEvenly(level: int, levels: seq<int>) {
    levels == [] || level <= Min(levels)
  }

  /** `currentBuildings >= maxBuildings`; `Math.max()` of nothing is -Infinity. */
  predicate CanSellEvenly(level: int, levels: seq<int>) {
    levels == [] || level >= Max(levels)
  }

  predicate AnyMortgaged(group: seq<Owned>) {
    exists mp :: mp in group && mp.isMortgaged
  }

  /** The buy button is enabled: not busy, no hotel yet, nothing mortgaged in the group, and built evenly. */
  predicate BuildEnabled(pending: bool, mp: Owned, group: seq<Owned>) {
    !(pending || mp.hotelCount > 0 || AnyMortgaged(group) || !CanBuildEvenly(Level(mp), Levels(group)))
  }

  /** The sell button is enabled: not busy, something built, sold evenly, and nothing mortgaged in the group. */
  predicate SellEnabled(pending: bool, mp: Owned, group: seq<Owned>) {
    !(pending || (mp.houseCount == 0 && mp.hotelCount == 0) || !CanSellEvenly(Level(mp), Levels(group)) || AnyMortgaged(group))
  }

  /** The cost shown next to the buttons. */
  function NextCost(def: Property, mp: Owned): int {
    if mp.houseCount == 4 then def.hotelCost else def.houseCost
  }

  // ---- Properties ----

  /** Each colour's group holds exactly the catalog's properties of that colour, in order. */
  lemma {:induction false} GroupByColorGroups(all: seq<Property>)
    ensures forall color :: color in GroupByColor(all) <==> color != "" && OfColor(all, color) != []
    ensures forall color :: color in GroupByColor(all) ==> GroupByColor(all)[color] == OfColor(all, color)
    decreases |all|
  {
    if all != [] {
      var init := all[..|all| - 1];
      GroupByColorGroups(init);
    }
  }

  /**
   * A colour is a monopoly exactly when it is named, is neither UTILITY nor
   * STATION, has at least one property, and the player owns every one of them.
   */
  lemma MonopolyIff(all: seq<Property>, mine: seq<Owned>, color: string)
    ensures color in Monopolies(all, mine) <==>
            color != "" && color != Utility && color != Station &&
            (exists p :: p in all && p.groupColor == color) &&
            (forall p :: p in all && p.groupColor == color ==> Owns(mine, p.id))
  {
    GroupByColorGroups(all);
    var groups := GroupByColor(all);
    if color in groups {
      assert groups[color] == OfColor(all, color);
      var p := OfColor(all, color)[0];
      assert p in OfColor(all, color);
    }
    if color != "" && (exists p :: p in all && p.groupColor == color) {
      var p :| p in all && p.groupColor == color;
      assert p in OfColor(all, color);
    }
  }

  /**
   * The list shown holds the player's rows in a monopoly, each as often as in
   * the player's list, sorted by board position; rows at the same position
   * keep their order.
   */
  lemma BuildableList(all: seq<Property>, mine: seq<Owned>)
    ensures var r := Buildable(all, mine);
            multiset(r) == multiset(Eligible(all, mine, mine)) &&
            (forall mp :: mp in r <==> mp in mine && InMonopoly(all, mine, mp)) &&
            (forall i, j :: 0 <= i < j < |r| ==> Position(all, r[i]) <= Position(all, r[j]))
  {
    var key := mp => Position(all, mp);
    var e := Eligible(all, mine, mine);
    SortByPermutes(e, key);
    var r := Buildable(all, mine);
    forall mp ensures mp in r <==> mp in e {
      assert mp in r <==> mp in multiset(r);
      assert mp in e <==> mp in multiset(e);
    }
    forall i, j | 0 <= i < j < |r| ensures Position(all, r[i]) <= Position(all, r[j]) {
      assert key(r[i]) <= key(r[j]);
    }
  }

  /**
   * Buying is enabled exactly when nothing is pending, the row has no hotel,
   * no row of the group is mortgaged, and no row of the group has fewer
   * buildings than this one.
   */
  lemma BuildEnabledIff(pending: bool, mp: Owned, group: seq<Owned>)
    ensures BuildEnabled(pending, mp, group) <==>
            !pending && mp.hotelCount <= 0 &&
            (forall g :: g in group ==> !g.isMortgaged) &&
            (forall g :: g in group ==> Level(mp) <= Level(g))
  {
    var levels := Levels(group);
    if levels != [] {
      var m := Min(levels);
      if Level(mp) <= m {
        forall g | g in group ensures Level(mp) <= Level(g) {
          var i :| 0 <= i < |group| && group[i] == g;
          assert levels[i] in levels;
        }
      }
      var i :| 0 <= i < |levels| && levels[i] == m;
      assert group[i] in group;
    }
  }

  /**
   * Selling is enabled exactly when nothing is pending, the row has a house
   * or a hotel, no row of the group is mortgaged, and no row of the group has
   * more buildings than this one.
   */
  lemma SellEnabledIff(pending: bool, mp: Owned, group: seq<Owned>)
    ensures SellEnabled(pending, mp, group) <==>
            !pending && (mp.houseCount != 0 || mp.hotelCount != 0) &&
            (forall g :: g in group ==> !g.isMortgaged) &&
            (forall g :: g in group ==> Level(g) <= Level(mp))
  {
    var levels := Levels(group);
    if levels != [] {
      var m := Max(levels);
      if Level(mp) >= m {
        forall g | g in group ensures Level(g) <= Level(mp) {
          var i :| 0 <= i < |group| && group[i] == g;
          assert levels[i] in levels;
        }
      }
      var i :| 0 <= i < |levels| && levels[i] == m;
      assert group[i] in group;
    }
  }

  /**
   * In an unmortgaged group with at most four houses per row and some row
   * without a hotel, a row with the fewest buildings can always be built on.
   */
  lemma LowestCanBuild(group: seq<Owned>)
    requires forall g :: g in group ==> !g.isMortgaged && 0 <= g.houseCount <= 4
    requires exists g :: g in group && g.hotelCount <= 0
    ensures exists g :: g in group && BuildEnabled(false, g, group)
  {
    var levels := Levels(group);
    var m := Min(levels);
    var i :| 0 <= i < |levels| && levels[i] == m;
    var low := group[i];
    var w :| w in group && w.hotelCount <= 0;
    var k :| 0 <= k < |group| && group[k] == w;
    assert levels[k] in levels && levels[k] <= 4;
    assert Level(low) <= 4;
    BuildEnabledIff(false, low, group);
    forall g | g in group ensures Level(low) <= Level(g) {
      var j :| 0 <= j < |group| && group[j] == g;
      assert levels[j] in levels;
    }
  }

  /** In an unmortgaged group with a building somewhere, a row with the most buildings can always be sold from. */
  lemma HighestCanSell(group: seq<Owned>)
    requires forall g :: g in group ==> !g.isMortgaged && g.houseCount >= 0
    requires exists g :: g in group && Level(g) > 0
    ensures exists g :: g in group && SellEnabled(false, g, group)
  {
    var levels := Levels(group);
    var m := Max(levels);
    var i :| 0 <= i < |levels| && levels[i] == m;
    var high := group[i];
    var w :| w in group && Level(w) > 0;
    var k :| 0 <= k < |group| && group[k] == w;
    assert levels[k] > 0;
    SellEnabledIff(false, high, group);
    forall g | g in group ensures Level(g) <= Level(high) {
      var j :| 0 <= j < |group| && group[j] == g;
      assert levels[j] in levels;
    }
  }

  /**
   * Building where the buttons allow keeps a group even: if no two rows
   * differ by more than one building, they still do not after adding one to
   * a row at the group minimum.
   */
  lemma EvenBuildStaysEven(levels: seq<int>, i: nat)
    requires i < |levels|
    requires forall a, b :: 0 <= a < |levels| && 0 <= b < |levels| ==> levels[a] - levels[b] <= 1
    requires CanBuildEvenly(levels[i], levels)
    ensures var after := levels[i := levels[i] + 1];
            forall a, b :: 0 <= a < |after| && 0 <= b < |after| ==> after[a] - after[b] <= 1
  {
    assert levels[i] <= Min(levels);
    forall b | 0 <= b < |levels| ensures levels[i] <= levels[b] {
      assert levels[b] in levels;
    }
  }

  /** The cost shown is the hotel's exactly when the next building is the hotel (level four to five). */
  lemma NextCostIsNextBuilding(def: Property, mp: Owned)
    requires mp.hotelCount <= 0 && 0 <= mp.houseCount <= 4
    ensures NextCost(def, mp) == (if Level(mp) + 1 == 5 then def.hotelCost else def.houseCost)
  {
  }
}
