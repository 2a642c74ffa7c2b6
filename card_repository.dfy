/**
 * The card tables of one game (apps/api/src/infrastructure/postgres/card_repository.rs):
 * the global `cards` catalog, the game's drawn marks, the three-slot boveda
 * market, participants' card inventories and the usage history. Card
 * descriptions are not carried: nothing in the modelled core reads them.
 */
module CardRepository {
  import opened Base

  datatype Card = Card(
    cardType: string,
    title: string,
    cost: Option<Money>,
    color: Option<string>,
    actionType: Option<string>,
    actionValue: Option<Money>)

  /** A `participant_cards` row. Duplicates of one card are allowed. */
  datatype InventoryRow = InventoryRow(participant: Pid, card: CardId)

  datatype UsageEntry = UsageEntry(participant: Pid, card: CardId, description: Option<string>)

  datatype CardsState = CardsState(
    catalog: map<CardId, Card>,
    nextCard: CardId,
    drawn: set<CardId>,
    market: map<int, CardId>,
    inventory: map<InvId, InventoryRow>,
    nextInv: InvId,
    usage: seq<UsageEntry>)

  /** Fresh ids lie above the ids in use. */
  ghost predicate Wf(s: CardsState) {
    (forall c :: c in s.catalog ==> c < s.nextCard) &&
    (forall i :: i in s.inventory ==> i < s.nextInv)
  }

  /** `find_by_type`. */
  function OfType(catalog: map<CardId, Card>, cardType: string): set<CardId> {
    set c | c in catalog && catalog[c].cardType == cardType
  }

  /** An inventory row that holds a card titled `title` and belongs to a participant of the game. */
  ghost predicate HoldsTitle(s: CardsState, members: set<Pid>, title: string, i: InvId) {
    i in s.inventory && s.inventory[i].participant in members &&
    s.inventory[i].card in s.catalog && s.catalog[s.inventory[i].card].title == title
  }

  /**
   * What `find_owner_of_card_title` may answer: `LIMIT 1` without `ORDER BY`
   * picks any matching row, so every holder is a possible answer, and `None`
   * only when no participant holds such a card.
   */
  ghost predicate IsOwnerOfTitle(s: CardsState, members: set<Pid>, title: string, r: Option<Pid>) {
    match r
    case None => forall i :: i in s.inventory ==> !HoldsTitle(s, members, title, i)
    case Some(p) => exists i :: HoldsTitle(s, members, title, i) && s.inventory[i].participant == p
  }

  /** The title of the boveda card whose holder receives payments made to the bank. */
  const ElBancoTitle: string := "El Banco"

  /** A possible answer of the title lookup; one always exists. */
  ghost function SomeOwnerOfTitle(s: CardsState, members: set<Pid>, title: string): (r: Option<Pid>)
    ensures IsOwnerOfTitle(s, members, title, r)
  {
    if exists i :: HoldsTitle(s, members, title, i) then
      var i :| HoldsTitle(s, members, title, i);
      Some(s.inventory[i].participant)
    else None
  }

  /** Inserts `cards` with consecutive fresh ids, as one multi-row INSERT does. */
  function AddAll(catalog: map<CardId, Card>, next: CardId, cards: seq<Card>): (r: (map<CardId, Card>, CardId))
    ensures r.1 == next + |cards|
    ensures forall c :: c in r.0 <==> c in catalog || next <= c < next + |cards|
    ensures forall k :: 0 <= k < |cards| ==> r.0[next + k] == cards[k]
    ensures forall c :: c in catalog && c < next ==> r.0[c] == catalog[c]
    decreases |cards|
  {
    if cards == [] then (catalog, next)
    else AddAll(catalog[next := cards[0]], next + 1, cards[1..])
  }

  const BovedaSeeds: seq<Card> := [
    Card("boveda", "Constructor Privilegiado", Some(250.0), Some("yellow"), Some("keep"), None),
    Card("boveda", "Títulos de Propiedad", Some(375.0), Some("yellow"), Some("keep"), None),
    Card("boveda", "Tren de Victorias", Some(225.0), Some("green"), Some("keep"), None),
    Card("boveda", "Subasta Instantánea", Some(25.0), Some("red"), Some("custom"), None),
    Card("boveda", "Casa del Éxito", Some(250.0), Some("green"), Some("keep"), None),
    Card("boveda", "El Banco", Some(500.0), Some("yellow"), Some("keep"), None),
    Card("boveda", "Monopolio Instantáneo", Some(50.0), Some("red"), Some("custom"), None),
    Card("boveda", "Ladrón de Títulos", Some(200.0), Some("red"), Some("custom"), None),
    Card("boveda", "La Bóveda", Some(500.0), Some("yellow"), Some("keep"), None),
    Card("boveda", "Todos los de 50", Some(300.0), Some("red"), Some("custom"), None),
    Card("boveda", "Número 7", Some(300.0), Some("yellow"), Some("keep"), None),
    Card("boveda", "Propulsor", Some(150.0), Some("red"), Some("custom"), None),
    Card("boveda", "Campeón Doble", Some(300.0), Some("green"), Some("keep"), None),
    Card("boveda", "Dado de Compra", Some(275.0), Some("yellow"), Some("keep"), None),
    Card("boveda", "Victoria por Barrida", Some(350.0), Some("green"), Some("keep"), None),
    Card("boveda", "Bienes Raíces Gratis", Some(25.0), Some("red"), Some("custom"), None),
    Card("boveda", "Circuito Victoria", Some(325.0), Some("green"), Some("keep"), None),
    Card("boveda", "Dobles", Some(50.0), Some("green"), Some("keep"), None),
    Card("boveda", "Todas las Construcciones", Some(100.0), Some("yellow"), Some("keep"), None),
    Card("boveda", "Salida Victoriosa", Some(200.0), Some("green"), Some("keep"), None)
  ]

  const ArcaSeeds: seq<Card> := [
    Card("arca", "Venta de acciones", None, None, Some("receive_bank"), Some(50.0)),
    Card("arca", "Devolución de impuestos", None, None, Some("receive_bank"), Some(20.0)),
    Card("arca", "Herencia misteriosa", None, None, Some("receive_bank"), Some(100.0)),
    Card("arca", "Error bancario", None, None, Some("receive_bank"), Some(200.0)),
    Card("arca", "Gastos escolares", None, None, Some("pay_bank"), Some(50.0)),
    Card("arca", "Cumpleaños", None, None, Some("receive_all"), Some(10.0)),
    Card("arca", "La Salida", None, None, Some("move_to"), Some(0.0)),
    Card("arca", "Seguro de vida", None, None, Some("receive_bank"), Some(100.0)),
    Card("arca", "Consultoría", None, None, Some("receive_bank"), Some(25.0)),
    Card("arca", "Reparaciones", None, None, Some("repair"), Some(0.0)),
    Card("arca", "Fondo vacacional", None, None, Some("receive_bank"), Some(100.0)),
    Card("arca", "Cárcel", None, None, Some("move_to"), Some(-1.0)),
    Card("arca", "Concurso de belleza", None, None, Some("receive_bank"), Some(10.0)),
    Card("arca", "Adoptas un perrito", None, None, Some("pay_bank"), Some(50.0)),
    Card("arca", "Hospital", None, None, Some("pay_bank"), Some(100.0)),
    Card("arca", "Sal de la Cárcel", None, None, Some("keep"), Some(0.0))
  ]

  const FortunaSeeds: seq<Card> := [
    Card("fortuna", "Ferrocarril", None, None, Some("move_to"), Some(0.0)),
    Card("fortuna", "San Carlos", None, None, Some("move_to"), Some(0.0)),
    Card("fortuna", "Cárcel", None, None, Some("move_to"), Some(-1.0)),
    Card("fortuna", "Muelle", None, None, Some("move_to"), Some(0.0)),
    Card("fortuna", "Retrocede", None, None, Some("move_to"), Some(-3.0)),
    Card("fortuna", "Reading", None, None, Some("move_to"), Some(0.0)),
    Card("fortuna", "Dividendo", None, None, Some("receive_bank"), Some(50.0)),
    Card("fortuna", "Presidente", None, None, Some("pay_all"), Some(50.0)),
    Card("fortuna", "Salida", None, None, Some("move_to"), Some(0.0)),
    Card("fortuna", "Préstamo", None, None, Some("receive_bank"), Some(150.0)),
    Card("fortuna", "Servicio Público", None, None, Some("move_to"), Some(0.0)),
    Card("fortuna", "Sal de la Cárcel", None, None, Some("keep"), Some(0.0)),
    Card("fortuna", "Illinois", None, None, Some("move_to"), Some(0.0)),
    Card("fortuna", "Reparaciones", None, None, Some("repair"), Some(0.0)),
    Card("fortuna", "Multa", None, None, Some("pay_bank"), Some(15.0))
  ]

  /** One threshold step of `ensure_cards_seeded`: insert `seeds` when fewer than `threshold` cards have the type. */
  function SeedIfShort(s: CardsState, cardType: string, threshold: int, seeds: seq<Card>): (r: CardsState)
    ensures Wf(s) ==> Wf(r)
    ensures r == s.(catalog := r.catalog, nextCard := r.nextCard)
    ensures Wf(s) ==> forall c :: c in s.catalog ==> c in r.catalog && r.catalog[c] == s.catalog[c]
    ensures |OfType(s.catalog, cardType)| >= threshold ==> r == s
  {
    if |OfType(s.catalog, cardType)| < threshold then
      var (catalog, next) := AddAll(s.catalog, s.nextCard, seeds);
      s.(catalog := catalog, nextCard := next)
    else s
  }

  /** A step that fires stores its `k`-th seed under the `k`-th fresh id. */
  lemma SeedStepStores(s: CardsState, cardType: string, threshold: int, seeds: seq<Card>, k: int)
    requires |OfType(s.catalog, cardType)| < threshold && 0 <= k < |seeds|
    ensures var r := SeedIfShort(s, cardType, threshold, seeds);
            s.nextCard + k in r.catalog && r.catalog[s.nextCard + k] == seeds[k]
  {
  }

  /** `ensure_cards_seeded`: boveda below 10, then arca below 5, then fortuna below 5. */
  function AfterSeeding(s: CardsState): CardsState {
    SeedAll(s, BovedaSeeds, ArcaSeeds, FortunaSeeds)
  }

  function SeedAll(s: CardsState, boveda: seq<Card>, arca: seq<Card>, fortuna: seq<Card>): CardsState {
    SeedIfShort(SeedIfShort(SeedIfShort(s, "boveda", 10, boveda), "arca", 5, arca), "fortuna", 5, fortuna)
  }

  /** `mark_card_drawn`: the insert into the game's drawn marks, ON CONFLICT DO NOTHING. */
  function AfterMark(s: CardsState, card: CardId): CardsState {
    s.(drawn := s.drawn + {card})
  }

  /** `set_boveda_market_slot`: an upsert keyed by (game, slot). */
  function AfterSetSlot(s: CardsState, slot: int, card: CardId): CardsState {
    s.(market := s.market[slot := card])
  }

  /** `clear_boveda_market_slot`: deletes the row of that slot. */
  function AfterClearSlot(s: CardsState, slot: int): CardsState {
    s.(market := s.market - {slot})
  }

  class CardTables {
    var catalog: map<CardId, Card>
    var nextCard: CardId
    var drawn: set<CardId>
    var market: map<int, CardId>
    var inventory: map<InvId, InventoryRow>
    var nextInv: InvId
    var usage: seq<UsageEntry>

    ghost function State(): CardsState
      reads this
    {
      CardsState(catalog, nextCard, drawn, market, inventory, nextInv, usage)
    }

    ghost predicate Valid()
      reads this
    {
      Wf(State())
    }

    /** `find_drawn_cards` and `find_by_type` feed the draw; `mark_card_drawn` inserts with ON CONFLICT DO NOTHING. */
    method MarkCardDrawn(card: CardId)
      modifies this
      ensures drawn == old(drawn) + {card}
      ensures State() == AfterMark(old(State()), card)
    {
      drawn := drawn + {card};
    }

    /** `clear_drawn_cards`: drops the marks of this type's cards only. */
    method ClearDrawnCards(cardType: string)
      modifies this
      ensures drawn == old(drawn) - OfType(catalog, cardType)
      ensures State() == old(State()).(drawn := drawn)
    {
      drawn := drawn - OfType(catalog, cardType);
    }

    /** `set_boveda_market_slot`: an upsert keyed by slot. */
    method SetMarketSlot(slot: int, card: CardId)
      modifies this
      ensures market == old(market)[slot := card]
      ensures State() == AfterSetSlot(old(State()), slot, card)
    {
      market := market[slot := card];
    }

    /** `clear_boveda_market_slot`: deletes that slot's row only. */
    method ClearMarketSlot(slot: int)
      modifies this
      ensures market == old(market) - {slot}
      ensures State() == AfterClearSlot(old(State()), slot)
    {
      market := market - {slot};
    }

    method FindOwnerOfCardTitle(members: set<Pid>, title: string) returns (r: Option<Pid>)
      ensures IsOwnerOfTitle(State(), members, title, r)
    {
      if exists i :: i in inventory && inventory[i].participant in members &&
                     inventory[i].card in catalog && catalog[inventory[i].card].title == title {
        var i :| i in inventory && inventory[i].participant in members &&
                 inventory[i].card in catalog && catalog[inventory[i].card].title == title;
        r := Some(inventory[i].participant);
      } else {
        r := None;
      }
    }

    /** `add_to_inventory`: always a new row. */
    method AddToInventory(participant: Pid, card: CardId) returns (id: InvId)
      requires Valid()
      modifies this
      ensures Valid()
      ensures id == old(nextInv) && id !in old(inventory)
      ensures inventory == old(inventory)[id := InventoryRow(participant, card)]
      ensures State() == old(State()).(inventory := inventory, nextInv := id + 1)
    {
      id := nextInv;
      inventory := inventory[id := InventoryRow(participant, card)];
      nextInv := nextInv + 1;
    }

    /** `remove_from_inventory`: deletes exactly the row with that id. */
    method RemoveFromInventory(id: InvId)
      requires Valid()
      modifies this
      ensures Valid()
      ensures inventory == old(inventory) - {id}
      ensures State() == old(State()).(inventory := inventory)
    {
      inventory := inventory - {id};
    }

    method LogUsage(participant: Pid, card: CardId, description: Option<string>)
      modifies this
      ensures usage == old(usage) + [UsageEntry(participant, card, description)]
      ensures State() == old(State()).(usage := usage)
    {
      usage := usage + [UsageEntry(participant, card, description)];
    }

    method EnsureCardsSeeded()
      requires Valid()
      modifies this
      ensures Valid()
      ensures State() == AfterSeeding(old(State()))
    {
      SeedStep("boveda", 10, BovedaSeeds);
      SeedStep("arca", 5, ArcaSeeds);
      SeedStep("fortuna", 5, FortunaSeeds);
    }

    method SeedStep(cardType: string, threshold: int, seeds: seq<Card>)
      requires Valid()
      modifies this
      ensures Valid()
      ensures State() == SeedIfShort(old(State()), cardType, threshold, seeds)
    {
      if |OfType(catalog, cardType)| < threshold {
        var added := AddAll(catalog, nextCard, seeds);
        catalog, nextCard := added.0, added.1;
      }
    }
  }

  // ---- Properties of the tables ----

  /** Marking a card twice leaves the tables as marking it once; the card is then marked and nothing else changes. */
  lemma MarkIdempotent(s: CardsState, card: CardId)
    ensures AfterMark(AfterMark(s, card), card) == AfterMark(s, card)
    ensures card in AfterMark(s, card).drawn && AfterMark(s, card).(drawn := s.drawn) == s
  {
  }

  /** Clearing a type's marks keeps every mark of another type's card. */
  lemma ClearKeepsOtherTypes(s: CardsState, cardType: string, c: CardId)
    requires c in s.drawn && c in s.catalog && s.catalog[c].cardType != cardType
    ensures c in s.drawn - OfType(s.catalog, cardType)
  {
  }

  /**
   * Each slot holds at most one card: setting a slot twice keeps only the
   * second card, the slot then shows that card, and every other slot is left
   * as it was. Clearing a slot just set is clearing it outright.
   */
  lemma SetSlotReplaces(s: CardsState, slot: int, card: CardId, card2: CardId, other: int)
    requires other != slot
    ensures AfterSetSlot(AfterSetSlot(s, slot, card), slot, card2) == AfterSetSlot(s, slot, card2)
    ensures AfterSetSlot(s, slot, card).market[slot] == card
    ensures (other in AfterSetSlot(s, slot, card).market <==> other in s.market) &&
            (other in s.market ==> AfterSetSlot(s, slot, card).market[other] == s.market[other])
    ensures AfterClearSlot(AfterSetSlot(s, slot, card), slot) == AfterClearSlot(s, slot)
  {
  }

  /** A holder reported for a title really holds such a card; `None` means nobody in the game does. */
  lemma OwnerLookupSound(s: CardsState, members: set<Pid>, title: string, r: Option<Pid>)
    requires IsOwnerOfTitle(s, members, title, r)
    ensures r.Some? ==> r.value in members
    ensures r.None? ==> forall i :: (i in s.inventory && s.inventory[i].participant in members &&
                          s.inventory[i].card in s.catalog) ==> s.catalog[s.inventory[i].card].title != title
  {
    if r.Some? {
      var i :| HoldsTitle(s, members, title, i) && s.inventory[i].participant == r.value;
    }
  }

  /** Seeding changes the catalog and the id counter, keeps every card already defined, and keeps ids fresh. */
  lemma SeedAllOnlyAdds(s: CardsState, boveda: seq<Card>, arca: seq<Card>, fortuna: seq<Card>)
    requires Wf(s)
    ensures var r := SeedAll(s, boveda, arca, fortuna);
            Wf(r) && r == s.(catalog := r.catalog, nextCard := r.nextCard) &&
            forall c :: c in s.catalog ==> c in r.catalog && r.catalog[c] == s.catalog[c]
  {
    var s1 := SeedIfShort(s, "boveda", 10, boveda);
    var s2 := SeedIfShort(s1, "arca", 5, arca);
    var s3 := SeedIfShort(s2, "fortuna", 5, fortuna);
    forall c | c in s.catalog ensures c in s3.catalog && s3.catalog[c] == s.catalog[c] {
      assert s1.catalog[c] == s.catalog[c];
      assert s2.catalog[c] == s1.catalog[c];
    }
  }

  /** When the boveda step fires, the `k`-th boveda seed ends up under the `k`-th fresh id. */
  lemma SeedAllStoresBoveda(s: CardsState, boveda: seq<Card>, arca: seq<Card>, fortuna: seq<Card>, k: int)
    requires Wf(s) && |OfType(s.catalog, "boveda")| < 10 && 0 <= k < |boveda|
    ensures var r := SeedAll(s, boveda, arca, fortuna);
            s.nextCard + k in r.catalog && r.catalog[s.nextCard + k] == boveda[k]
  {
    var s1 := SeedIfShort(s, "boveda", 10, boveda);
    SeedStepStores(s, "boveda", 10, boveda, k);
    SeedAllOnlyAdds(s1, [], arca, fortuna);
    assert SeedAll(s1, [], arca, fortuna) == SeedAll(s, boveda, arca, fortuna);
  }

  /** Seeding only adds cards: existing entries keep their definitions. */
  lemma SeedingOnlyAdds(s: CardsState, c: CardId)
    requires Wf(s) && c in s.catalog
    ensures Wf(AfterSeeding(s))
    ensures c in AfterSeeding(s).catalog && AfterSeeding(s).catalog[c] == s.catalog[c]
  {
    SeedAllOnlyAdds(s, BovedaSeeds, ArcaSeeds, FortunaSeeds);
  }

  /** The seed facts the lemmas below rely on. */
  lemma BovedaSeedFacts()
    ensures |BovedaSeeds| == 20
    ensures BovedaSeeds[0].cardType == "boveda"
    ensures BovedaSeeds[5].title == ElBancoTitle
  {
  }

  lemma SeedAllProvidesBoveda(s: CardsState, boveda: seq<Card>, arca: seq<Card>, fortuna: seq<Card>)
    requires Wf(s) && |boveda| > 0 && boveda[0].cardType == "boveda"
    ensures OfType(SeedAll(s, boveda, arca, fortuna).catalog, "boveda") != {}
  {
    var r := SeedAll(s, boveda, arca, fortuna);
    SeedAllOnlyAdds(s, boveda, arca, fortuna);
    if |OfType(s.catalog, "boveda")| < 10 {
      SeedAllStoresBoveda(s, boveda, arca, fortuna, 0);
      assert s.nextCard in OfType(r.catalog, "boveda");
    } else {
      assert OfType(s.catalog, "boveda") != {};
      var c :| c in OfType(s.catalog, "boveda");
      assert c in OfType(r.catalog, "boveda");
    }
  }

  /** After seeding there is at least one boveda card, so the market can always be refilled. */
  lemma SeedingProvidesBoveda(s: CardsState)
    requires Wf(s)
    ensures OfType(AfterSeeding(s).catalog, "boveda") != {}
  {
    BovedaSeedFacts();
    SeedAllProvidesBoveda(s, BovedaSeeds, ArcaSeeds, FortunaSeeds);
  }

  /** Whenever seeding runs, the "El Banco" card is among the boveda cards it adds. */
  lemma SeedingAddsElBanco(s: CardsState)
    requires Wf(s) && |OfType(s.catalog, "boveda")| < 10
    ensures AfterSeeding(s).nextCard > s.nextCard + 5
    ensures s.nextCard + 5 in AfterSeeding(s).catalog && AfterSeeding(s).catalog[s.nextCard + 5].title == ElBancoTitle
  {
    BovedaSeedFacts();
    SeedAllStoresBoveda(s, BovedaSeeds, ArcaSeeds, FortunaSeeds, 5);
  }
}
