/**
 * The property catalog and the ownership table of one game
 * (apps/api/src/infrastructure/postgres/property_repository.rs). An ownership
 * row ties a catalog property to a participant, with its mortgage flag and
 * building counts. The table itself has no uniqueness constraint in the code
 * shown; every writer keeps at most one row per property (`buy_property`
 * checks, `end_auction` deletes first), and the model carries that as part of
 * `Valid()`.
 */
module PropertyRepository {
  import opened Base

  datatype Property = Property(
    name: string,
    groupColor: string,
    price: Money,
    mortgageValue: Money,
    unmortgageCost: Money,
    houseCost: Option<Money>,
    hotelCost: Option<Money>,
    boardPosition: int)

  datatype OwnedRow = OwnedRow(participant: Pid, property: PropId, mortgaged: bool, houses: int, hotels: int)

  datatype OwnershipState = OwnershipState(rows: map<RowId, OwnedRow>, nextRow: RowId)

  /** sqlx's `RowNotFound` text, raised by `fetch_one` when the UPDATE matches no row. */
  const RowNotFound: string := "no rows returned by a query that expected to return at least one row"

  /** What `find_all_properties` returns: every catalog id once, by ascending board position. */
  predicate IsBoardOrder(catalog: map<PropId, Property>, order: seq<PropId>) {
    (forall i :: 0 <= i < |order| ==> order[i] in catalog) &&
    (forall p :: p in catalog ==> p in order) &&
    (forall i, j :: 0 <= i < j < |order| ==> order[i] != order[j]) &&
    (forall i, j :: 0 <= i < j < |order| ==> catalog[order[i]].boardPosition <= catalog[order[j]].boardPosition)
  }

  predicate UniqueProperties(rows: map<RowId, OwnedRow>) {
    forall i, j :: i in rows && j in rows && rows[i].property == rows[j].property ==> i == j
  }

  /** The building ladder: up to four houses, or one hotel and no houses. */
  predicate ValidBuildings(r: OwnedRow) {
    0 <= r.houses <= 4 && 0 <= r.hotels <= 1 && (r.hotels > 0 ==> r.houses == 0)
  }

  predicate AllBuildingsValid(rows: map<RowId, OwnedRow>) {
    forall id :: id in rows ==> ValidBuildings(rows[id])
  }

  ghost predicate Wf(s: OwnershipState) {
    (forall id :: id in s.rows ==> id < s.nextRow) && UniqueProperties(s.rows)
  }

  /** `find_participant_properties`: the participant's rows. */
  function OwnedBy(rows: map<RowId, OwnedRow>, participant: Pid): (r: map<RowId, OwnedRow>)
    ensures forall id :: id in r <==> id in rows && rows[id].participant == participant
    ensures forall id :: id in r ==> r[id] == rows[id]
  {
    map id | id in rows && rows[id].participant == participant :: rows[id]
  }

  predicate IsOwned(rows: map<RowId, OwnedRow>, prop: PropId) {
    exists id :: id in rows && rows[id].property == prop
  }

  /** The row of a property, if any; under `UniqueProperties` there is at most one. */
  ghost function RowOf(rows: map<RowId, OwnedRow>, prop: PropId): (r: Option<RowId>)
    ensures r.Some? ==> r.value in rows && rows[r.value].property == prop
    ensures r.None? <==> !IsOwned(rows, prop)
  {
    if IsOwned(rows, prop) then Some(var id :| id in rows && rows[id].property == prop; id) else None
  }

  lemma RowOfUnique(rows: map<RowId, OwnedRow>, id: RowId)
    requires UniqueProperties(rows) && id in rows
    ensures RowOf(rows, rows[id].property) == Some(id)
  {
  }

  /** The caller's row for a property, as the services find it in `find_participant_properties`. */
  ghost function MyRow(rows: map<RowId, OwnedRow>, participant: Pid, prop: PropId): Option<RowId> {
    match RowOf(rows, prop)
    case Some(id) => if rows[id].participant == participant then Some(id) else None
    case None => None
  }

  /** `transfer_property`: every row of the property gets the new owner; nothing else changes. */
  function Transferred(rows: map<RowId, OwnedRow>, prop: PropId, owner: Pid): map<RowId, OwnedRow> {
    map id | id in rows :: if rows[id].property == prop then rows[id].(participant := owner) else rows[id]
  }

  /** `delete_ownership`: drops the property's rows. */
  function WithoutProperty(rows: map<RowId, OwnedRow>, prop: PropId): map<RowId, OwnedRow> {
    map id | id in rows && rows[id].property != prop :: rows[id]
  }

  /** `update_property_ownership`: overwrites the flag and the counts of the row with that id. */
  function Updated(s: OwnershipState, id: RowId, mortgaged: bool, houses: int, hotels: int): (OwnershipState, Result<OwnedRow>) {
    if id !in s.rows then (s, Err(RowNotFound))
    else
      var row := s.rows[id].(mortgaged := mortgaged, houses := houses, hotels := hotels);
      (s.(rows := s.rows[id := row]), Ok(row))
  }

  class Ownership {
    var rows: map<RowId, OwnedRow>
    var nextRow: RowId

    ghost function State(): OwnershipState
      reads this
    {
      OwnershipState(rows, nextRow)
    }

    ghost predicate Valid()
      reads this
    {
      Wf(State())
    }

    constructor ()
      ensures Valid() && rows == map[]
    {
      rows := map[];
      nextRow := 0;
    }

    method FindRow(prop: PropId) returns (r: Option<RowId>)
      requires Valid()
      ensures r == RowOf(rows, prop)
    {
      if exists id :: id in rows && rows[id].property == prop {
        var id :| id in rows && rows[id].property == prop;
        RowOfUnique(rows, id);
        r := Some(id);
      } else {
        r := None;
      }
    }

    /** `assign_property`: a new row under a fresh id, for a property that has none. */
    method AssignProperty(row: OwnedRow) returns (id: RowId)
      requires Valid() && !IsOwned(rows, row.property)
      modifies this
      ensures Valid()
      ensures id == old(nextRow) && id !in old(rows)
      ensures rows == old(rows)[id := row] && nextRow == id + 1
    {
      id := nextRow;
      rows := rows[id := row];
      nextRow := nextRow + 1;
    }

    method UpdatePropertyOwnership(id: RowId, mortgaged: bool, houses: int, hotels: int) returns (r: Result<OwnedRow>)
      requires Valid()
      modifies this
      ensures Valid()
      ensures (State(), r) == Updated(old(State()), id, mortgaged, houses, hotels)
    {
      if id !in rows {
        return Err(RowNotFound);
      }
      var row := rows[id].(mortgaged := mortgaged, houses := houses, hotels := hotels);
      rows := rows[id := row];
      r := Ok(row);
    }

    method TransferProperty(prop: PropId, owner: Pid)
      requires Valid()
      modifies this
      ensures Valid()
      ensures rows == Transferred(old(rows), prop, owner) && nextRow == old(nextRow)
    {
      rows := Transferred(rows, prop, owner);
      assert UniqueProperties(rows) by {
        forall i, j | i in rows && j in rows && rows[i].property == rows[j].property ensures i == j {
          assert old(rows)[i].property == rows[i].property && old(rows)[j].property == rows[j].property;
        }
      }
    }

    method DeleteOwnership(prop: PropId)
      requires Valid()
      modifies this
      ensures Valid()
      ensures rows == WithoutProperty(old(rows), prop) && nextRow == old(nextRow)
    {
      rows := WithoutProperty(rows, prop);
    }
  }

  // ---- Properties of the table operations ----

  /** `transfer_property` re-owns exactly the property's row, keeping its flag, counts and property. */
  lemma TransferReowns(rows: map<RowId, OwnedRow>, prop: PropId, owner: Pid)
    ensures Transferred(rows, prop, owner).Keys == rows.Keys
    ensures forall id :: id in rows ==>
              var r := Transferred(rows, prop, owner)[id];
              r.property == rows[id].property && r.mortgaged == rows[id].mortgaged &&
              r.houses == rows[id].houses && r.hotels == rows[id].hotels &&
              r.participant == (if rows[id].property == prop then owner else rows[id].participant)
  {
  }

  /** With no row for the property, `transfer_property` changes nothing. */
  lemma TransferUnownedIsNoop(rows: map<RowId, OwnedRow>, prop: PropId, owner: Pid)
    requires !IsOwned(rows, prop)
    ensures Transferred(rows, prop, owner) == rows
  {
  }

  /** After `transfer_property` the new owner's rows include the property's row. */
  lemma TransferGivesOwner(rows: map<RowId, OwnedRow>, prop: PropId, owner: Pid, id: RowId)
    requires id in rows && rows[id].property == prop
    ensures id in OwnedBy(Transferred(rows, prop, owner), owner)
  {
  }

  /** `update_property_ownership` touches only the given row, and fails on an unknown id without changing anything. */
  lemma UpdateTouchesOneRow(s: OwnershipState, id: RowId, mortgaged: bool, houses: int, hotels: int)
    ensures var (s', r) := Updated(s, id, mortgaged, houses, hotels);
            (id !in s.rows ==> s' == s && r.Err?) &&
            (id in s.rows ==>
               r.Ok? && s'.rows.Keys == s.rows.Keys &&
               s'.rows[id] == OwnedRow(s.rows[id].participant, s.rows[id].property, mortgaged, houses, hotels) &&
               forall other :: other in s.rows && other != id ==> s'.rows[other] == s.rows[other])
  {
  }

  /** `delete_ownership` leaves the property unowned and keeps every other row. */
  lemma DeleteLeavesUnowned(rows: map<RowId, OwnedRow>, prop: PropId)
    ensures !IsOwned(WithoutProperty(rows, prop), prop)
    ensures forall id :: id in rows && rows[id].property != prop ==> id in WithoutProperty(rows, prop)
  {
  }
}
