/**
 * `PropertyService` (apps/api/src/application/property_service.rs): buying a
 * property from the bank, mortgaging and unmortgaging it, and the building
 * ladder (one house at a time up to four, then a hotel in their place; selling
 * goes one step back down). Every payment goes through
 * `TransactionService.Transfer`, so the El Banco rule applies to payments to
 * the bank. Each operation's effect on the ledger and the ownership table is
 * given by a ghost function of the old states and the El Banco holder that
 * the transfer found.
 */
module PropertyService {
  import opened Base
  import opened TransactionRepository
  import opened CardRepository
  import opened PropertyRepository
  import opened TransactionService

  const PropertyNotFound: string := "Property not found"
  const ParticipantNotFound: string := "Participant not found"
  const AlreadyOwned: string := "Property is already owned"
  const NotYourProperty: string := "You do not own this property"
  const AlreadyMortgaged: string := "Already mortgaged"
  const SellBuildingsFirst: string := "Must sell buildings first"
  const NotMortgaged: string := "Property is not mortgaged"
  const CannotBuild: string := "Cannot build on this property"
  const MustOwnGroup: string := "You must own all properties of this color group to build!"
  const GroupMortgaged: string := "Cannot build if any property in group is mortgaged"
  const MaxBuildings: string := "Maximum buildings reached (Hotel)"
  const NoBuildingsAllowed: string := "No buildings allowed"
  const NoBuildingsToSell: string := "No buildings to sell"

  datatype Outcome = Outcome(ledger: LedgerState, ownership: OwnershipState, result: Result<OwnedRow>)

  /** The catalog ids of one color group, in board order (the filter over `find_all_properties`). */
  function GroupOf(catalog: map<PropId, Property>, order: seq<PropId>, color: string): (g: seq<PropId>)
    ensures forall p :: p in g <==> p in order && p in catalog && catalog[p].groupColor == color
  {
    if order == [] then []
    else if order[0] in catalog && catalog[order[0]].groupColor == color then [order[0]] + GroupOf(catalog, order[1..], color)
    else GroupOf(catalog, order[1..], color)
  }

  /** The monopoly check of `buy_building`: the first group property not owned, or owned but mortgaged, decides the error. */
  ghost function GroupCheck(group: seq<PropId>, rows: map<RowId, OwnedRow>, me: Pid): (r: Option<string>)
    ensures r == None || r == Some(MustOwnGroup) || r == Some(GroupMortgaged)
  {
    if group == [] then None
    else match MyRow(rows, me, group[0])
      case None => Some(MustOwnGroup)
      case Some(id) => if rows[id].mortgaged then Some(GroupMortgaged) else GroupCheck(group[1..], rows, me)
  }

  /** The building counts after one purchase: a house, or at four houses a hotel in their place. */
  function BuiltUp(row: OwnedRow): OwnedRow {
    if row.houses == 4 then row.(houses := 0, hotels := 1) else row.(houses := row.houses + 1)
  }

  /** The building counts after one sale: the hotel back to four houses, or one house fewer. */
  function SoldDown(row: OwnedRow): OwnedRow {
    if row.hotels > 0 then row.(hotels := 0, houses := 4) else row.(houses := row.houses - 1)
  }

  ghost function AfterBuyProperty(L: LedgerState, O: OwnershipState, catalog: map<PropId, Property>,
                                  holder: Option<Pid>, user: Uid, prop: PropId): Outcome
  {
    if prop !in catalog then Outcome(L, O, Err(PropertyNotFound))
    else match ParticipantOf(L.participants, user)
      case None => Outcome(L, O, Err(ParticipantNotFound))
      case Some(me) =>
        if IsOwned(O.rows, prop) then Outcome(L, O, Err(AlreadyOwned))
        else
          var L1 := AfterServiceTransfer(L, holder, Some(me), None, catalog[prop].price, Some("Bought " + catalog[prop].name)).0;
          var row := OwnedRow(me, prop, false, 0, 0);
          Outcome(L1, OwnershipState(O.rows[O.nextRow := row], O.nextRow + 1), Ok(row))
  }

  ghost function AfterMortgage(L: LedgerState, O: OwnershipState, catalog: map<PropId, Property>,
                               holder: Option<Pid>, user: Uid, prop: PropId): Outcome
  {
    if prop !in catalog then Outcome(L, O, Err(PropertyNotFound))
    else match ParticipantOf(L.participants, user)
      case None => Outcome(L, O, Err(ParticipantNotFound))
      case Some(me) =>
        match MyRow(O.rows, me, prop)
        case None => Outcome(L, O, Err(NotYourProperty))
        case Some(id) =>
          var row := O.rows[id];
          if row.mortgaged then Outcome(L, O, Err(AlreadyMortgaged))
          else if row.houses > 0 || row.hotels > 0 then Outcome(L, O, Err(SellBuildingsFirst))
          else
            var O1 := Updated(O, id, true, row.houses, row.hotels).0;
            var L1 := AfterServiceTransfer(L, holder, None, Some(me), catalog[prop].mortgageValue, Some("Mortgaged " + catalog[prop].name)).0;
            Outcome(L1, O1, Ok(row.(mortgaged := true)))
  }

  ghost function AfterUnmortgage(L: LedgerState, O: OwnershipState, catalog: map<PropId, Property>,
                                 holder: Option<Pid>, user: Uid, prop: PropId): Outcome
  {
    if prop !in catalog then Outcome(L, O, Err(PropertyNotFound))
    else match ParticipantOf(L.participants, user)
      case None => Outcome(L, O, Err(ParticipantNotFound))
      case Some(me) =>
        match MyRow(O.rows, me, prop)
        case None => Outcome(L, O, Err(NotYourProperty))
        case Some(id) =>
          var row := O.rows[id];
          if !row.mortgaged then Outcome(L, O, Err(NotMortgaged))
          else
            var L1 := AfterServiceTransfer(L, holder, Some(me), None, catalog[prop].unmortgageCost, Some("Unmortgaged " + catalog[prop].name)).0;
            var O1 := Updated(O, id, false, row.houses, row.hotels).0;
            Outcome(L1, O1, Ok(row.(mortgaged := false)))
  }

  ghost function AfterBuyBuilding(L: LedgerState, O: OwnershipState, catalog: map<PropId, Property>, order: seq<PropId>,
                                  holder: Option<Pid>, user: Uid, prop: PropId): Outcome
  {
    if prop !in catalog then Outcome(L, O, Err(PropertyNotFound))
    else
      var property := catalog[prop];
      if property.houseCost.None? || property.hotelCost.None? then Outcome(L, O, Err(CannotBuild))
      else match ParticipantOf(L.participants, user)
        case None => Outcome(L, O, Err(ParticipantNotFound))
        case Some(me) =>
          var check := GroupCheck(GroupOf(catalog, order, property.groupColor), O.rows, me);
          if check.Some? then Outcome(L, O, Err(check.value))
          else match MyRow(O.rows, me, prop)
            case None => Outcome(L, O, Err(UnwrapNone))
            case Some(id) =>
              var row := O.rows[id];
              if row.hotels > 0 then Outcome(L, O, Err(MaxBuildings))
              else
                var cost := if row.houses == 4 then property.hotelCost.value else property.houseCost.value;
                var L1 := AfterServiceTransfer(L, holder, Some(me), None, cost, Some("Bought Building for " + property.name)).0;
                var up := BuiltUp(row);
                Outcome(L1, Updated(O, id, up.mortgaged, up.houses, up.hotels).0, Ok(up))
  }

  ghost function AfterSellBuilding(L: LedgerState, O: OwnershipState, catalog: map<PropId, Property>,
                                   holder: Option<Pid>, user: Uid, prop: PropId): Outcome
  {
    if prop !in catalog then Outcome(L, O, Err(PropertyNotFound))
    else
      var property := catalog[prop];
      if property.houseCost.None? then Outcome(L, O, Err(NoBuildingsAllowed))
      else match ParticipantOf(L.participants, user)
        case None => Outcome(L, O, Err(ParticipantNotFound))
        case Some(me) =>
          match MyRow(O.rows, me, prop)
          case None => Outcome(L, O, Err(UnwrapNone))
          case Some(id) =>
            var row := O.rows[id];
            if row.hotels <= 0 && row.houses <= 0 then Outcome(L, O, Err(NoBuildingsToSell))
            else if row.hotels > 0 && property.hotelCost.None? then Outcome(L, O, Err(UnwrapNone))
            else
              var refund := if row.hotels > 0 then property.hotelCost.value / 2.0 else property.houseCost.value / 2.0;
              var note := if row.hotels > 0 then "Sold Hotel on " else "Sold House on ";
              var L1 := AfterServiceTransfer(L, holder, None, Some(me), refund, Some(note + property.name)).0;
              var down := SoldDown(row);
              Outcome(L1, Updated(O, id, down.mortgaged, down.houses, down.hotels).0, Ok(down))
  }

  /** The caller's row, looked up the way the services do: in the caller's rows, by property. */
  method FindMyRow(owners: Ownership, me: Pid, prop: PropId) returns (r: Option<RowId>)
    requires owners.Valid()
    ensures r == MyRow(owners.rows, me, prop)
  {
    var owned := OwnedBy(owners.rows, me);
    if exists id :: id in owned && owned[id].property == prop {
      var id :| id in owned && owned[id].property == prop;
      RowOfUnique(owners.rows, id);
      r := Some(id);
    } else {
      r := None;
    }
  }

  method BuyProperty(ledger: Ledger, cards: CardTables, owners: Ownership, catalog: map<PropId, Property>, user: Uid, prop: PropId)
    returns (r: Result<OwnedRow>, ghost holder: Option<Pid>)
    requires ledger.Valid() && owners.Valid()
    modifies ledger, owners
    ensures ledger.Valid() && owners.Valid()
    ensures IsOwnerOfTitle(cards.State(), old(ledger.participants).Keys, ElBancoTitle, holder)
    ensures Outcome(ledger.State(), owners.State(), r) == AfterBuyProperty(old(ledger.State()), old(owners.State()), catalog, holder, user, prop)
  {
    holder := SomeOwnerOfTitle(cards.State(), ledger.participants.Keys, ElBancoTitle);
    if prop !in catalog {
      return Err(PropertyNotFound), holder;
    }
    var property := catalog[prop];
    var me := ledger.FindParticipant(user);
    if me.None? {
      return Err(ParticipantNotFound), holder;
    }
    if IsOwned(owners.rows, prop) {
      return Err(AlreadyOwned), holder;
    }
    var _, h := Transfer(ledger, cards, Some(me.value), None, property.price, Some("Bought " + property.name));
    holder := h;
    var row := OwnedRow(me.value, prop, false, 0, 0);
    var _ := owners.AssignProperty(row);
    r := Ok(row);
  }

  method MortgageProperty(ledger: Ledger, cards: CardTables, owners: Ownership, catalog: map<PropId, Property>, user: Uid, prop: PropId)
    returns (r: Result<OwnedRow>, ghost holder: Option<Pid>)
    requires ledger.Valid() && owners.Valid()
    modifies ledger, owners
    ensures ledger.Valid() && owners.Valid()
    ensures IsOwnerOfTitle(cards.State(), old(ledger.participants).Keys, ElBancoTitle, holder)
    ensures Outcome(ledger.State(), owners.State(), r) == AfterMortgage(old(ledger.State()), old(owners.State()), catalog, holder, user, prop)
  {
    holder := SomeOwnerOfTitle(cards.State(), ledger.participants.Keys, ElBancoTitle);
    if prop !in catalog {
      return Err(PropertyNotFound), holder;
    }
    var property := catalog[prop];
    var me := ledger.FindParticipant(user);
    if me.None? {
      return Err(ParticipantNotFound), holder;
    }
    var id := FindMyRow(owners, me.value, prop);
    if id.None? {
      return Err(NotYourProperty), holder;
    }
    var owned := owners.rows[id.value];
    if owned.mortgaged {
      return Err(AlreadyMortgaged), holder;
    }
    if owned.houses > 0 || owned.hotels > 0 {
      return Err(SellBuildingsFirst), holder;
    }
    owned := owned.(mortgaged := true);
    var _ := owners.UpdatePropertyOwnership(id.value, owned.mortgaged, owned.houses, owned.hotels);
    var _, h := Transfer(ledger, cards, None, Some(me.value), property.mortgageValue, Some("Mortgaged " + property.name));
    holder := h;
    r := Ok(owned);
  }

  method UnmortgageProperty(ledger: Ledger, cards: CardTables, owners: Ownership, catalog: map<PropId, Property>, user: Uid, prop: PropId)
    returns (r: Result<OwnedRow>, ghost holder: Option<Pid>)
    requires ledger.Valid() && owners.Valid()
    modifies ledger, owners
    ensures ledger.Valid() && owners.Valid()
    ensures IsOwnerOfTitle(cards.State(), old(ledger.participants).Keys, ElBancoTitle, holder)
    ensures Outcome(ledger.State(), owners.State(), r) == AfterUnmortgage(old(ledger.State()), old(owners.State()), catalog, holder, user, prop)
  {
    holder := SomeOwnerOfTitle(cards.State(), ledger.participants.Keys, ElBancoTitle);
    if prop !in catalog {
      return Err(PropertyNotFound), holder;
    }
    var property := catalog[prop];
    var me := ledger.FindParticipant(user);
    if me.None? {
      return Err(ParticipantNotFound), holder;
    }
    var id := FindMyRow(owners, me.value, prop);
    if id.None? {
      return Err(NotYourProperty), holder;
    }
    var owned := owners.rows[id.value];
    if !owned.mortgaged {
      return Err(NotMortgaged), holder;
    }
    var _, h := Transfer(ledger, cards, Some(me.value), None, property.unmortgageCost, Some("Unmortgaged " + property.name));
    holder := h;
    owned := owned.(mortgaged := false);
    var _ := owners.UpdatePropertyOwnership(id.value, owned.mortgaged, owned.houses, owned.hotels);
    r := Ok(owned);
  }

  /** The loop of `buy_building` over the color group: the error of the first property that fails, if any. */
  method CheckGroup(owners: Ownership, group: seq<PropId>, me: Pid) returns (r: Option<string>)
    requires owners.Valid()
    ensures r == GroupCheck(group, owners.rows, me)
  {
    var owned := OwnedBy(owners.rows, me);
    var i := 0;
    while i < |group|
      invariant 0 <= i <= |group|
      invariant GroupCheck(group, owners.rows, me) == GroupCheck(group[i..], owners.rows, me)
    {
      var gp := group[i];
      assert group[i..][1..] == group[i + 1..];
      if !(exists id :: id in owned && owned[id].property == gp) {
        return Some(MustOwnGroup);
      }
      var id :| id in owned && owned[id].property == gp;
      RowOfUnique(owners.rows, id);
      if owned[id].mortgaged {
        return Some(GroupMortgaged);
      }
      i := i + 1;
    }
    r := None;
  }

  method BuyBuilding(ledger: Ledger, cards: CardTables, owners: Ownership, catalog: map<PropId, Property>, order: seq<PropId>,
                     user: Uid, prop: PropId)
    returns (r: Result<OwnedRow>, ghost holder: Option<Pid>)
    requires ledger.Valid() && owners.Valid()
    modifies ledger, owners
    ensures ledger.Valid() && owners.Valid()
    ensures IsOwnerOfTitle(cards.State(), old(ledger.participants).Keys, ElBancoTitle, holder)
    ensures Outcome(ledger.State(), owners.State(), r) ==
            AfterBuyBuilding(old(ledger.State()), old(owners.State()), catalog, order, holder, user, prop)
  {
    holder := SomeOwnerOfTitle(cards.State(), ledger.participants.Keys, ElBancoTitle);
    if prop !in catalog {
      return Err(PropertyNotFound), holder;
    }
    var property := catalog[prop];
    if property.houseCost.None? || property.hotelCost.None? {
      return Err(CannotBuild), holder;
    }
    var me := ledger.FindParticipant(user);
    if me.None? {
      return Err(ParticipantNotFound), holder;
    }
    var check := CheckGroup(owners, GroupOf(catalog, order, property.groupColor), me.value);
    if check.Some? {
      return Err(check.value), holder;
    }
    var id := FindMyRow(owners, me.value, prop);
    if id.None? {
      return Err(UnwrapNone), holder;
    }
    var target := owners.rows[id.value];
    var cost := property.houseCost.value;
    var isHotelUpgrade := target.houses == 4;
    if target.hotels > 0 {
      return Err(MaxBuildings), holder;
    }
    if isHotelUpgrade {
      cost := property.hotelCost.value;
    }
    var _, h := Transfer(ledger, cards, Some(me.value), None, cost, Some("Bought Building for " + property.name));
    holder := h;
    if isHotelUpgrade {
      target := target.(houses := 0, hotels := 1);
    } else {
      target := target.(houses := target.houses + 1);
    }
    r := owners.UpdatePropertyOwnership(id.value, target.mortgaged, target.houses, target.hotels);
  }

  method SellBuilding(ledger: Ledger, cards: CardTables, owners: Ownership, catalog: map<PropId, Property>, user: Uid, prop: PropId)
    returns (r: Result<OwnedRow>, ghost holder: Option<Pid>)
    requires ledger.Valid() && owners.Valid()
    modifies ledger, owners
    ensures ledger.Valid() && owners.Valid()
    ensures IsOwnerOfTitle(cards.State(), old(ledger.participants).Keys, ElBancoTitle, holder)
    ensures Outcome(ledger.State(), owners.State(), r) == AfterSellBuilding(old(ledger.State()), old(owners.State()), catalog, holder, user, prop)
  {
    holder := SomeOwnerOfTitle(cards.State(), ledger.participants.Keys, ElBancoTitle);
    if prop !in catalog {
      return Err(PropertyNotFound), holder;
    }
    var property := catalog[prop];
    if property.houseCost.None? {
      return Err(NoBuildingsAllowed), holder;
    }
    var refund := property.houseCost.value / 2.0;
    var me := ledger.FindParticipant(user);
    if me.None? {
      return Err(ParticipantNotFound), holder;
    }
    var id := FindMyRow(owners, me.value, prop);
    if id.None? {
      return Err(UnwrapNone), holder;
    }
    var target := owners.rows[id.value];
    if target.hotels > 0 {
      if property.hotelCost.None? {
        return Err(UnwrapNone), holder;
      }
      var hotelRefund := property.hotelCost.value / 2.0;
      var _, h := Transfer(ledger, cards, None, Some(me.value), hotelRefund, Some("Sold Hotel on " + property.name));
      holder := h;
      target := target.(hotels := 0, houses := 4);
    } else if target.houses > 0 {
      var _, h := Transfer(ledger, cards, None, Some(me.value), refund, Some("Sold House on " + property.name));
      holder := h;
      target := target.(houses := target.houses - 1);
    } else {
      return Err(NoBuildingsToSell), holder;
    }
    r := owners.UpdatePropertyOwnership(id.value, target.mortgaged, target.houses, target.hotels);
  }

  // ---- Properties of the property operations ----

  /** The monopoly check passes iff the caller owns every property of the group and none is mortgaged. */
  lemma {:induction false} GroupCheckPasses(group: seq<PropId>, rows: map<RowId, OwnedRow>, me: Pid)
    ensures GroupCheck(group, rows, me).None? <==>
            forall k :: 0 <= k < |group| ==> MyRow(rows, me, group[k]).Some? && !rows[MyRow(rows, me, group[k]).value].mortgaged
  {
    if group != [] {
      GroupCheckPasses(group[1..], rows, me);
      forall k | 1 <= k < |group| ensures group[1..][k - 1] == group[k] { }
      if GroupCheck(group, rows, me).None? {
        forall k | 0 <= k < |group| ensures MyRow(rows, me, group[k]).Some? && !rows[MyRow(rows, me, group[k]).value].mortgaged {
          if k > 0 {
            assert group[1..][k - 1] == group[k];
          }
        }
      }
    }
  }

  /**
   * Once the group check passes, the caller owns the target itself, since it
   * belongs to its own color group: the `unwrap` of the target row never panics.
   */
  lemma BuildTargetOwned(catalog: map<PropId, Property>, order: seq<PropId>, rows: map<RowId, OwnedRow>, me: Pid, prop: PropId)
    requires IsBoardOrder(catalog, order) && prop in catalog
    requires GroupCheck(GroupOf(catalog, order, catalog[prop].groupColor), rows, me).None?
    ensures MyRow(rows, me, prop).Some? && !rows[MyRow(rows, me, prop).value].mortgaged
  {
    var group := GroupOf(catalog, order, catalog[prop].groupColor);
    assert prop in group;
    var k :| 0 <= k < |group| && group[k] == prop;
    GroupCheckPasses(group, rows, me);
  }

  lemma BuyBuildingNeverPanics(L: LedgerState, O: OwnershipState, catalog: map<PropId, Property>, order: seq<PropId>,
                               holder: Option<Pid>, user: Uid, prop: PropId)
    requires IsBoardOrder(catalog, order)
    ensures AfterBuyBuilding(L, O, catalog, order, holder, user, prop).result != Err(UnwrapNone)
  {
    if prop in catalog && ParticipantOf(L.participants, user).Some? {
      var me := ParticipantOf(L.participants, user).value;
      if GroupCheck(GroupOf(catalog, order, catalog[prop].groupColor), O.rows, me).None? {
        BuildTargetOwned(catalog, order, O.rows, me, prop);
      }
    }
  }

  /**
   * `buy_building` succeeds exactly when the property takes buildings, the
   * caller owns its whole unmortgaged group and it has no hotel yet; the other
   * properties' building counts are never consulted, so no even-building rule
   * is enforced. The target then moves one step up the ladder.
   */
  lemma BuyBuildingSucceeds(L: LedgerState, O: OwnershipState, catalog: map<PropId, Property>, order: seq<PropId>,
                            holder: Option<Pid>, user: Uid, prop: PropId)
    requires IsBoardOrder(catalog, order)
    ensures var out := AfterBuyBuilding(L, O, catalog, order, holder, user, prop);
            out.result.Ok? <==>
              prop in catalog && catalog[prop].houseCost.Some? && catalog[prop].hotelCost.Some? &&
              ParticipantOf(L.participants, user).Some? &&
              GroupCheck(GroupOf(catalog, order, catalog[prop].groupColor), O.rows, ParticipantOf(L.participants, user).value).None? &&
              MyRow(O.rows, ParticipantOf(L.participants, user).value, prop).Some? &&
              O.rows[MyRow(O.rows, ParticipantOf(L.participants, user).value, prop).value].hotels <= 0
    ensures var out := AfterBuyBuilding(L, O, catalog, order, holder, user, prop);
            out.result.Ok? ==>
              var id := MyRow(O.rows, ParticipantOf(L.participants, user).value, prop).value;
              out.result.value == BuiltUp(O.rows[id]) && out.ownership.rows == O.rows[id := BuiltUp(O.rows[id])]
  {
    BuyBuildingNeverPanics(L, O, catalog, order, holder, user, prop);
  }

  /** The payment for a building: a house below four houses, the hotel at four; all of it leaves the buyer. */
  lemma BuildingCost(L: LedgerState, O: OwnershipState, catalog: map<PropId, Property>, order: seq<PropId>,
                     holder: Option<Pid>, user: Uid, prop: PropId)
    requires TransactionRepository.Wf(L) && holder.None?
    requires AfterBuyBuilding(L, O, catalog, order, holder, user, prop).result.Ok?
    ensures var me := ParticipantOf(L.participants, user).value;
            var row := O.rows[MyRow(O.rows, me, prop).value];
            var cost := if row.houses == 4 then catalog[prop].hotelCost.value else catalog[prop].houseCost.value;
            var out := AfterBuyBuilding(L, O, catalog, order, holder, user, prop);
            out.ledger.participants[me].balance == L.participants[me].balance - cost &&
            out.ledger.jackpot == L.jackpot + cost
  {
    var me := ParticipantOf(L.participants, user).value;
    var row := O.rows[MyRow(O.rows, me, prop).value];
    var cost := if row.houses == 4 then catalog[prop].hotelCost.value else catalog[prop].houseCost.value;
    var t := Transaction(Some(me), None, cost, Some("Bought Building for " + catalog[prop].name));
    NoHolderPassesThrough(L, Some(me), None, cost, t.description);
    TransferDebitsSender(L, t, me);
  }

  /** `sell_building` pays half the hotel cost for a hotel, half the house cost for a house, to the seller. */
  lemma SellRefund(L: LedgerState, O: OwnershipState, catalog: map<PropId, Property>, holder: Option<Pid>, user: Uid, prop: PropId)
    requires TransactionRepository.Wf(L)
    requires AfterSellBuilding(L, O, catalog, holder, user, prop).result.Ok?
    ensures var me := ParticipantOf(L.participants, user).value;
            var row := O.rows[MyRow(O.rows, me, prop).value];
            var refund := if row.hotels > 0 then catalog[prop].hotelCost.value / 2.0 else catalog[prop].houseCost.value / 2.0;
            var out := AfterSellBuilding(L, O, catalog, holder, user, prop);
            out.ledger.participants[me].balance == L.participants[me].balance + refund &&
            out.ledger.jackpot == L.jackpot &&
            out.result.value == SoldDown(row)
  {
    var me := ParticipantOf(L.participants, user).value;
    var row := O.rows[MyRow(O.rows, me, prop).value];
    var refund := if row.hotels > 0 then catalog[prop].hotelCost.value / 2.0 else catalog[prop].houseCost.value / 2.0;
    var note := if row.hotels > 0 then "Sold Hotel on " else "Sold House on ";
    var t := Transaction(None, Some(me), refund, Some(note + catalog[prop].name));
    OnlyBankPaymentsRouted(L, holder, None, Some(me), refund, t.description);
    TransferCreditsReceiver(L, t, me);
    TransferJackpot(L, t);
  }

  /** On a valid ladder position, one step up and one step down cancel, in either order. */
  lemma LadderSteps(row: OwnedRow)
    requires ValidBuildings(row)
    ensures row.hotels == 0 ==> ValidBuildings(BuiltUp(row)) && SoldDown(BuiltUp(row)) == row
    ensures (row.hotels > 0 || row.houses > 0) ==> ValidBuildings(SoldDown(row)) && BuiltUp(SoldDown(row)) == row
  {
  }

  /** Buying a building keeps every row on the ladder: at most four houses, or one hotel and no houses. */
  lemma BuyKeepsLadder(L: LedgerState, O: OwnershipState, catalog: map<PropId, Property>, order: seq<PropId>,
                       holder: Option<Pid>, user: Uid, prop: PropId)
    requires IsBoardOrder(catalog, order) && AllBuildingsValid(O.rows)
    ensures AllBuildingsValid(AfterBuyBuilding(L, O, catalog, order, holder, user, prop).ownership.rows)
  {
    BuyBuildingSucceeds(L, O, catalog, order, holder, user, prop);
    var out := AfterBuyBuilding(L, O, catalog, order, holder, user, prop);
    if out.result.Ok? {
      var id := MyRow(O.rows, ParticipantOf(L.participants, user).value, prop).value;
      LadderSteps(O.rows[id]);
    }
  }

  /** Selling a building keeps every row on the ladder. */
  lemma SellKeepsLadder(L: LedgerState, O: OwnershipState, catalog: map<PropId, Property>,
                        holder: Option<Pid>, user: Uid, prop: PropId)
    requires AllBuildingsValid(O.rows)
    ensures AllBuildingsValid(AfterSellBuilding(L, O, catalog, holder, user, prop).ownership.rows)
  {
    var out := AfterSellBuilding(L, O, catalog, holder, user, prop);
    if out.result.Ok? {
      var id := MyRow(O.rows, ParticipantOf(L.participants, user).value, prop).value;
      LadderSteps(O.rows[id]);
    }
  }

  /** `buy_property` on an owned property fails and changes nothing. */
  lemma BuyOwnedPropertyFails(L: LedgerState, O: OwnershipState, catalog: map<PropId, Property>,
                              holder: Option<Pid>, user: Uid, prop: PropId)
    requires prop in catalog && ParticipantOf(L.participants, user).Some? && IsOwned(O.rows, prop)
    ensures AfterBuyProperty(L, O, catalog, holder, user, prop) == Outcome(L, O, Err(AlreadyOwned))
  {
  }

  /**
   * A successful purchase gives the caller a fresh unmortgaged row with no
   * buildings, keeps one row per property and, with no El Banco holder, moves
   * the price from the buyer to the jackpot.
   */
  lemma BuyPropertyAssigns(L: LedgerState, O: OwnershipState, catalog: map<PropId, Property>,
                           holder: Option<Pid>, user: Uid, prop: PropId)
    requires TransactionRepository.Wf(L) && PropertyRepository.Wf(O)
    requires prop in catalog && ParticipantOf(L.participants, user).Some? && !IsOwned(O.rows, prop)
    ensures var me := ParticipantOf(L.participants, user).value;
            var out := AfterBuyProperty(L, O, catalog, holder, user, prop);
            var row := OwnedRow(me, prop, false, 0, 0);
            out.result == Ok(row) && out.ownership.rows == O.rows[O.nextRow := row] && O.nextRow !in O.rows &&
            PropertyRepository.Wf(out.ownership) &&
            (holder.None? ==>
               out.ledger.participants[me].balance == L.participants[me].balance - catalog[prop].price &&
               out.ledger.jackpot == L.jackpot + catalog[prop].price)
  {
    var me := ParticipantOf(L.participants, user).value;
    var out := AfterBuyProperty(L, O, catalog, holder, user, prop);
    var rows' := out.ownership.rows;
    forall i, j | i in rows' && j in rows' && rows'[i].property == rows'[j].property ensures i == j {
      if i != O.nextRow && j != O.nextRow {
        assert O.rows[i].property == O.rows[j].property;
      }
    }
    if holder.None? {
      var t := Transaction(Some(me), None, catalog[prop].price, Some("Bought " + catalog[prop].name));
      NoHolderPassesThrough(L, Some(me), None, t.amount, t.description);
      TransferDebitsSender(L, t, me);
    }
  }

  /**
   * `mortgage_property` succeeds exactly when the caller owns the property,
   * it is not mortgaged and it carries no buildings; the row becomes mortgaged
   * and the owner receives the mortgage value from the bank, the El Banco rule
   * never applying to a payment from the bank.
   */
  lemma MortgageSucceeds(L: LedgerState, O: OwnershipState, catalog: map<PropId, Property>,
                         holder: Option<Pid>, user: Uid, prop: PropId)
    requires TransactionRepository.Wf(L)
    ensures var out := AfterMortgage(L, O, catalog, holder, user, prop);
            out.result.Ok? <==>
              prop in catalog && ParticipantOf(L.participants, user).Some? &&
              MyRow(O.rows, ParticipantOf(L.participants, user).value, prop).Some? &&
              var row := O.rows[MyRow(O.rows, ParticipantOf(L.participants, user).value, prop).value];
              !row.mortgaged && row.houses <= 0 && row.hotels <= 0
    ensures var out := AfterMortgage(L, O, catalog, holder, user, prop);
            out.result.Ok? ==>
              var me := ParticipantOf(L.participants, user).value;
              var id := MyRow(O.rows, me, prop).value;
              out.ownership.rows == O.rows[id := O.rows[id].(mortgaged := true)] &&
              out.ledger.participants[me].balance == L.participants[me].balance + catalog[prop].mortgageValue &&
              out.ledger.jackpot == L.jackpot
  {
    var out := AfterMortgage(L, O, catalog, holder, user, prop);
    if out.result.Ok? {
      var me := ParticipantOf(L.participants, user).value;
      var t := Transaction(None, Some(me), catalog[prop].mortgageValue, Some("Mortgaged " + catalog[prop].name));
      OnlyBankPaymentsRouted(L, holder, None, Some(me), t.amount, t.description);
      TransferCreditsReceiver(L, t, me);
      TransferJackpot(L, t);
    }
  }

  /** `unmortgage_property` refuses a property that is not mortgaged, changing nothing. */
  lemma UnmortgageNeedsMortgage(L: LedgerState, O: OwnershipState, catalog: map<PropId, Property>,
                                holder: Option<Pid>, user: Uid, prop: PropId)
    requires prop in catalog && ParticipantOf(L.participants, user).Some?
    requires var me := ParticipantOf(L.participants, user).value;
             MyRow(O.rows, me, prop).Some? && !O.rows[MyRow(O.rows, me, prop).value].mortgaged
    ensures AfterUnmortgage(L, O, catalog, holder, user, prop) == Outcome(L, O, Err(NotMortgaged))
  {
  }

  /**
   * Unmortgaging clears the flag and, with no El Banco holder, moves the
   * unmortgage cost from the owner to the jackpot; so a mortgage followed by
   * an unmortgage leaves the row as it was and costs the owner the difference.
   */
  lemma UnmortgageClears(L: LedgerState, O: OwnershipState, catalog: map<PropId, Property>,
                         holder: Option<Pid>, user: Uid, prop: PropId)
    requires TransactionRepository.Wf(L) && holder.None?
    requires AfterUnmortgage(L, O, catalog, holder, user, prop).result.Ok?
    ensures var me := ParticipantOf(L.participants, user).value;
            var id := MyRow(O.rows, me, prop).value;
            var out := AfterUnmortgage(L, O, catalog, holder, user, prop);
            O.rows[id].mortgaged &&
            out.ownership.rows == O.rows[id := O.rows[id].(mortgaged := false)] &&
            out.ledger.participants[me].balance == L.participants[me].balance - catalog[prop].unmortgageCost &&
            out.ledger.jackpot == L.jackpot + catalog[prop].unmortgageCost
  {
    var me := ParticipantOf(L.participants, user).value;
    var t := Transaction(Some(me), None, catalog[prop].unmortgageCost, Some("Unmortgaged " + catalog[prop].name));
    NoHolderPassesThrough(L, Some(me), None, t.amount, t.description);
    TransferDebitsSender(L, t, me);
  }
}
