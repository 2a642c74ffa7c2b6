/**
 * `CardService` (apps/api/src/application/card_service.rs): drawing arca and
 * fortuna cards without replacement, with a reshuffle of the drawn type once
 * it runs out; the three-slot boveda market, refilled at random from the
 * whole boveda catalog; buying and exchanging market cards; and using cards
 * from an inventory. Money moves through the ledger directly, so the El
 * Banco rule does not apply here. Random choices are nondeterministic and
 * are returned as ghost values so that the outcome can be stated.
 */
module CardService {
  import opened Base
  import opened TransactionRepository
  import opened CardRepository

  const NoCardsFor: string := "No cards definition found for type "
  const NotParticipant: string := "User not participant"
  const NoBoveda: string := "No boveda cards type defined"
  const SlotEmpty: string := "Slot empty"
  const NotInInventory: string := "Card not in inventory"
  const BoughtCard: string := "Bought Boveda Card: "
  const UsedCard: string := "Used card"

  const Keep: string := "keep"
  const ReceiveBank: string := "receive_bank"
  const PayBank: string := "pay_bank"
  const Boveda: string := "boveda"

  /** The slots `refresh_boveda_market` keeps filled. */
  const Slots: seq<int> := [0, 1, 2]

  predicate Distinct(s: seq<int>) {
    forall i, j :: 0 <= i < j < |s| ==> s[i] != s[j]
  }

  // ---- Drawing ----

  /** The choice `draw_card` makes: an undrawn card of the type, or after the reshuffle any card of it. */
  predicate IsFairPick(C: CardsState, cardType: string, pick: CardId) {
    var all := OfType(C.catalog, cardType);
    pick in (if all - C.drawn == {} then all else all - C.drawn)
  }

  /** The drawn marks after one draw of `pick`. */
  function DrawnAfter(drawn: set<CardId>, all: set<CardId>, pick: CardId): set<CardId> {
    (if all - drawn == {} then drawn - all else drawn) + {pick}
  }

  /** `draw_card`, given the card picked. */
  ghost function AfterDraw(C: CardsState, L: LedgerState, user: Uid, cardType: string, pick: CardId): (CardsState, LedgerState, Result<Card>)
    requires pick in C.catalog || OfType(C.catalog, cardType) == {}
  {
    var all := OfType(C.catalog, cardType);
    if all == {} then (C, L, Err(NoCardsFor + cardType))
    else
      var C2 := C.(drawn := DrawnAfter(C.drawn, all, pick));
      var card := C.catalog[pick];
      var me := ParticipantOf(L.participants, user);
      if card.actionType == Some(Keep) && me.None? then (C2, L, Err(NotParticipant))
      else
        var C3 := if card.actionType == Some(Keep) then
                    C2.(inventory := C2.inventory[C2.nextInv := InventoryRow(me.value, pick)], nextInv := C2.nextInv + 1)
                  else C2;
        if card.actionValue.None? || (card.actionType != Some(ReceiveBank) && card.actionType != Some(PayBank)) then (C3, L, Ok(card))
        else if me.None? then (C3, L, Err(NotParticipant))
        else
          var t := if card.actionType == Some(ReceiveBank) then Transaction(None, me, card.actionValue.value, Some(card.title))
                   else Transaction(me, None, card.actionValue.value, Some(card.title));
          (C3, AfterTransfer(L, t).0, Ok(card))
  }

  // ---- The market ----

  /** `get_boveda_market`: the market rows joined with the catalog. */
  function Visible(market: map<int, CardId>, catalog: map<CardId, Card>): (v: map<int, CardId>)
    ensures forall slot :: slot in v <==> slot in market && market[slot] in catalog
    ensures forall slot :: slot in v ==> v[slot] == market[slot]
  {
    map slot | slot in market && market[slot] in catalog :: market[slot]
  }

  /** `missing_indices`: the required slots not in the market, in order. */
  function Missing(slots: seq<int>, visible: map<int, CardId>): (r: seq<int>)
    ensures forall x :: x in r <==> x in slots && x !in visible
    ensures Distinct(slots) ==> Distinct(r)
  {
    if slots == [] then []
    else if slots[0] !in visible then [slots[0]] + Missing(slots[1..], visible)
    else Missing(slots[1..], visible)
  }

  /** The `for slot in missing_indices` loop: each slot gets the card picked for it. */
  function Fill(market: map<int, CardId>, slots: seq<int>, picks: seq<CardId>): map<int, CardId>
    decreases |slots|
  {
    if slots == [] || picks == [] then market else Fill(market[slots[0] := picks[0]], slots[1..], picks[1..])
  }

  /** The catalog seeding `refresh_boveda_market` triggers when no boveda card is defined. */
  function BovedaSeeded(C: CardsState): CardsState {
    if OfType(C.catalog, Boveda) == {} then AfterSeeding(C) else C
  }

  /** `refresh_boveda_market`, given the cards picked for the missing slots; the result is the visible market. */
  function AfterRefresh(C: CardsState, picks: seq<CardId>): (CardsState, Result<map<int, CardId>>) {
    var missing := Missing(Slots, Visible(C.market, C.catalog));
    if missing == [] then (C, Ok(Visible(C.market, C.catalog)))
    else
      var C1 := BovedaSeeded(C);
      if OfType(C1.catalog, Boveda) == {} then (C1, Err(NoBoveda))
      else Refill(C1, missing, picks)
  }

  /** The filling step of the refresh: the missing slots get their picks, and the visible market is returned. */
  function Refill(C: CardsState, missing: seq<int>, picks: seq<CardId>): (CardsState, Result<map<int, CardId>>) {
    var C1 := C.(market := Fill(C.market, missing, picks));
    (C1, Ok(Visible(C1.market, C1.catalog)))
  }

  /** The purchase itself: the buyer pays the card's cost (0 when it has none) and gets an inventory row for it. */
  ghost function AfterPurchase(C: CardsState, L: LedgerState, p: Pid, slot: int): (CardsState, LedgerState)
    requires slot in Visible(C.market, C.catalog)
  {
    var id := C.market[slot];
    var card := C.catalog[id];
    var cost := if card.cost.Some? then card.cost.value else 0.0;
    var L1 := AfterTransfer(L, Transaction(Some(p), None, cost, Some(BoughtCard + card.title))).0;
    (C.(inventory := C.inventory[C.nextInv := InventoryRow(p, id)], nextInv := C.nextInv + 1), L1)
  }

  /** `buy_market_card`, given the picks of the refresh that follows; the result is the new inventory row's id. */
  ghost function AfterBuy(C: CardsState, L: LedgerState, user: Uid, slot: int, picks: seq<CardId>): (CardsState, LedgerState, Result<InvId>) {
    match ParticipantOf(L.participants, user)
    case None => (C, L, Err(NotParticipant))
    case Some(p) =>
      if slot !in Visible(C.market, C.catalog) then (C, L, Err(SlotEmpty))
      else
        var (C1, L1) := AfterPurchase(C, L, p, slot);
        var (C2, r) := AfterRefresh(C1.(market := C1.market - {slot}), picks);
        (C2, L1, if r.Err? then Err(r.msg) else Ok(C.nextInv))
  }

  /** `exchange_market_card`: the slot emptied, then the refresh. */
  function AfterExchange(C: CardsState, slot: int, picks: seq<CardId>): (CardsState, Result<map<int, CardId>>) {
    AfterRefresh(C.(market := C.market - {slot}), picks)
  }

  // ---- Using cards ----

  /** Red cards and arca or fortuna cards are used up; others stay in the inventory. */
  predicate Consumable(card: Card) {
    card.color == Some("red") || card.cardType == "arca" || card.cardType == "fortuna"
  }

  /** `use_card`. */
  ghost function AfterUse(C: CardsState, L: LedgerState, user: Uid, inv: InvId): (CardsState, Result<()>) {
    match ParticipantOf(L.participants, user)
    case None => (C, Err(NotParticipant))
    case Some(p) =>
      if !(inv in C.inventory && C.inventory[inv].participant == p && C.inventory[inv].card in C.catalog) then (C, Err(NotInInventory))
      else
        var row := C.inventory[inv];
        var C1 := C.(usage := C.usage + [UsageEntry(p, row.card, Some(UsedCard))]);
        (if Consumable(C.catalog[row.card]) then C1.(inventory := C1.inventory - {inv}) else C1, Ok(()))
  }

  // ---- Operations ----

  method DrawCard(cards: CardTables, ledger: Ledger, user: Uid, cardType: string) returns (r: Result<Card>, ghost pick: CardId)
    requires cards.Valid() && ledger.Valid()
    modifies cards, ledger
    ensures cards.Valid() && ledger.Valid()
    ensures pick in old(cards.catalog) || OfType(old(cards.catalog), cardType) == {}
    ensures OfType(old(cards.catalog), cardType) != {} ==> IsFairPick(old(cards.State()), cardType, pick)
    ensures (cards.State(), ledger.State(), r) == AfterDraw(old(cards.State()), old(ledger.State()), user, cardType, pick)
  {
    pick := 0;
    var all := OfType(cards.catalog, cardType);
    if all == {} {
      return Err(NoCardsFor + cardType), pick;
    }
    var available := all - cards.drawn;
    var chosen: CardId;
    if available == {} {
      cards.ClearDrawnCards(cardType);
      chosen :| chosen in all;
    } else {
      chosen :| chosen in available;
    }
    pick := chosen;
    var card := cards.catalog[chosen];
    cards.MarkCardDrawn(chosen);
    if card.actionType == Some(Keep) {
      var me := ledger.FindParticipant(user);
      if me.None? {
        return Err(NotParticipant), pick;
      }
      var _ := cards.AddToInventory(me.value, chosen);
    }
    if card.actionValue.Some? {
      if card.actionType == Some(ReceiveBank) {
        var me := ledger.FindParticipant(user);
        if me.None? {
          return Err(NotParticipant), pick;
        }
        var _ := ledger.ExecuteTransfer(Transaction(None, me, card.actionValue.value, Some(card.title)));
      } else if card.actionType == Some(PayBank) {
        var me := ledger.FindParticipant(user);
        if me.None? {
          return Err(NotParticipant), pick;
        }
        var _ := ledger.ExecuteTransfer(Transaction(me, None, card.actionValue.value, Some(card.title)));
      }
    }
    r := Ok(card);
  }

  /** The seeding step of `refresh_boveda_market`; `ok` says whether boveda cards exist afterwards. */
  method SeedBoveda(cards: CardTables) returns (ok: bool)
    requires cards.Valid()
    modifies cards
    ensures cards.Valid()
    ensures cards.State() == BovedaSeeded(old(cards.State()))
    ensures ok <==> OfType(cards.catalog, Boveda) != {}
  {
    if OfType(cards.catalog, Boveda) == {} {
      cards.EnsureCardsSeeded();
    }
    ok := OfType(cards.catalog, Boveda) != {};
  }

  /** The filling loop of `refresh_boveda_market`: each slot of `missing` gets a random boveda card. */
  method FillSlots(cards: CardTables, missing: seq<int>) returns (r: Result<map<int, CardId>>, ghost picks: seq<CardId>)
    requires cards.Valid() && OfType(cards.catalog, Boveda) != {}
    modifies cards
    ensures cards.Valid() && |picks| == |missing|
    ensures forall i :: 0 <= i < |picks| ==> picks[i] in OfType(cards.catalog, Boveda)
    ensures cards.State() == old(cards.State()).(market := Fill(old(cards.market), missing, picks))
    ensures r == Ok(Visible(cards.market, cards.catalog))
  {
    picks := [];
    var all := OfType(cards.catalog, Boveda);
    var i := 0;
    while i < |missing|
      invariant 0 <= i <= |missing| && |picks| == i
      invariant cards.Valid() && cards.State() == old(cards.State()).(market := cards.market)
      invariant forall k :: 0 <= k < i ==> picks[k] in all
      invariant cards.market == Fill(old(cards.market), missing[..i], picks)
    {
      var c :| c in all;
      FillSnoc(old(cards.market), missing[..i], picks, missing[i], c);
      assert missing[..i + 1] == missing[..i] + [missing[i]];
      cards.SetMarketSlot(missing[i], c);
      picks := picks + [c];
      i := i + 1;
    }
    assert missing[..i] == missing;
    r := Ok(Visible(cards.market, cards.catalog));
  }

  method RefreshMarket(cards: CardTables) returns (r: Result<map<int, CardId>>, ghost picks: seq<CardId>)
    requires cards.Valid()
    modifies cards
    ensures cards.Valid()
    ensures forall i :: 0 <= i < |picks| ==> picks[i] in OfType(cards.catalog, Boveda)
    ensures r.Ok? ==> |picks| == |Missing(Slots, Visible(old(cards.market), old(cards.catalog)))|
    ensures (cards.State(), r) == AfterRefresh(old(cards.State()), picks)
  {
    picks := [];
    var missing := Missing(Slots, Visible(cards.market, cards.catalog));
    if missing == [] {
      return Ok(Visible(cards.market, cards.catalog)), picks;
    }
    var ok := SeedBoveda(cards);
    if !ok {
      return Err(NoBoveda), picks;
    }
    r, picks := FillSlots(cards, missing);
  }

  /** The payment and inventory steps of `buy_market_card`; the slot is emptied afterwards. */
  method Purchase(cards: CardTables, ledger: Ledger, p: Pid, slot: int) returns (id: InvId)
    requires cards.Valid() && ledger.Valid() && slot in Visible(cards.market, cards.catalog)
    modifies cards, ledger
    ensures cards.Valid() && ledger.Valid() && id == old(cards.nextInv)
    ensures var (C1, L1) := AfterPurchase(old(cards.State()), old(ledger.State()), p, slot);
            cards.State() == C1.(market := C1.market - {slot}) && ledger.State() == L1
  {
    var card := cards.catalog[cards.market[slot]];
    var cost := if card.cost.Some? then card.cost.value else 0.0;
    var _ := ledger.ExecuteTransfer(Transaction(Some(p), None, cost, Some(BoughtCard + card.title)));
    id := cards.AddToInventory(p, cards.market[slot]);
    cards.ClearMarketSlot(slot);
  }

  method BuyMarketCard(cards: CardTables, ledger: Ledger, user: Uid, slot: int) returns (r: Result<InvId>, ghost picks: seq<CardId>)
    requires cards.Valid() && ledger.Valid()
    modifies cards, ledger
    ensures cards.Valid() && ledger.Valid()
    ensures forall i :: 0 <= i < |picks| ==> picks[i] in OfType(cards.catalog, Boveda)
    ensures (cards.State(), ledger.State(), r) == AfterBuy(old(cards.State()), old(ledger.State()), user, slot, picks)
  {
    picks := [];
    var me := ledger.FindParticipant(user);
    if me.None? {
      return Err(NotParticipant), picks;
    }
    if slot !in Visible(cards.market, cards.catalog) {
      return Err(SlotEmpty), picks;
    }
    var id := Purchase(cards, ledger, me.value, slot);
    var refreshed, p := RefreshMarket(cards);
    picks := p;
    if refreshed.Err? {
      return Err(refreshed.msg), picks;
    }
    r := Ok(id);
  }

  method ExchangeMarketCard(cards: CardTables, slot: int) returns (r: Result<map<int, CardId>>, ghost picks: seq<CardId>)
    requires cards.Valid()
    modifies cards
    ensures cards.Valid()
    ensures forall i :: 0 <= i < |picks| ==> picks[i] in OfType(cards.catalog, Boveda)
    ensures r.Ok? ==> |picks| == |Missing(Slots, Visible(old(cards.market) - {slot}, old(cards.catalog)))|
    ensures (cards.State(), r) == AfterExchange(old(cards.State()), slot, picks)
  {
    cards.ClearMarketSlot(slot);
    r, picks := RefreshMarket(cards);
  }

  method UseCard(cards: CardTables, ledger: Ledger, user: Uid, inv: InvId) returns (r: Result<()>)
    requires cards.Valid() && ledger.Valid()
    modifies cards
    ensures cards.Valid()
    ensures (cards.State(), r) == AfterUse(old(cards.State()), ledger.State(), user, inv)
  {
    var me := ledger.FindParticipant(user);
    if me.None? {
      return Err(NotParticipant);
    }
    if !(inv in cards.inventory && cards.inventory[inv].participant == me.value && cards.inventory[inv].card in cards.catalog) {
      return Err(NotInInventory);
    }
    var row := cards.inventory[inv];
    cards.LogUsage(me.value, row.card, Some(UsedCard));
    if Consumable(cards.catalog[row.card]) {
      cards.RemoveFromInventory(inv);
    }
    r := Ok(());
  }

  // ---- Properties ----

  /** Seeding for the market only adds catalog entries, and leaves at least one boveda card. */
  lemma BovedaSeededFacts(C: CardsState)
    requires CardRepository.Wf(C)
    ensures var C1 := BovedaSeeded(C);
            CardRepository.Wf(C1) && C1 == C.(catalog := C1.catalog, nextCard := C1.nextCard) &&
            OfType(C1.catalog, Boveda) != {} &&
            forall c :: c in C.catalog ==> c in C1.catalog && C1.catalog[c] == C.catalog[c]
  {
    if OfType(C.catalog, Boveda) == {} {
      SeedAllOnlyAdds(C, BovedaSeeds, ArcaSeeds, FortunaSeeds);
      SeedingProvidesBoveda(C);
    }
  }

  lemma {:induction false} FillSnoc(market: map<int, CardId>, slots: seq<int>, picks: seq<CardId>, slot: int, pick: CardId)
    requires |slots| == |picks|
    ensures Fill(market, slots + [slot], picks + [pick]) == Fill(market, slots, picks)[slot := pick]
    decreases |slots|
  {
    if slots != [] {
      assert (slots + [slot])[1..] == slots[1..] + [slot];
      assert (picks + [pick])[1..] == picks[1..] + [pick];
      FillSnoc(market[slots[0] := picks[0]], slots[1..], picks[1..], slot, pick);
    }
  }

  /** Filling distinct slots puts each pick in its slot and leaves every other slot as it was. */
  lemma {:induction false} FillEffect(market: map<int, CardId>, slots: seq<int>, picks: seq<CardId>)
    requires |slots| == |picks| && Distinct(slots)
    ensures forall k :: 0 <= k < |slots| ==> slots[k] in Fill(market, slots, picks) && Fill(market, slots, picks)[slots[k]] == picks[k]
    ensures forall x :: x !in slots ==> (x in Fill(market, slots, picks) <==> x in market)
    ensures forall x :: x !in slots && x in market ==> Fill(market, slots, picks)[x] == market[x]
    decreases |slots|
  {
    if slots != [] {
      var m1 := market[slots[0] := picks[0]];
      FillEffect(m1, slots[1..], picks[1..]);
      forall k | 0 <= k < |slots|
        ensures slots[k] in Fill(market, slots, picks) && Fill(market, slots, picks)[slots[k]] == picks[k]
      {
        if k == 0 {
          assert slots[0] !in slots[1..] by {
            forall j | 0 <= j < |slots[1..]| ensures slots[1..][j] != slots[0] {
              assert slots[1..][j] == slots[j + 1];
            }
          }
        } else {
          assert slots[1..][k - 1] == slots[k];
        }
      }
    }
  }

  /** `draw_card` fails for lack of cards exactly when the type has none; otherwise the card drawn is of that type. */
  lemma DrawOfType(C: CardsState, L: LedgerState, user: Uid, cardType: string, pick: CardId)
    requires pick in C.catalog || OfType(C.catalog, cardType) == {}
    requires OfType(C.catalog, cardType) != {} ==> IsFairPick(C, cardType, pick)
    ensures var (C', L', r) := AfterDraw(C, L, user, cardType, pick);
            (r == Err(NoCardsFor + cardType) <==> OfType(C.catalog, cardType) == {}) &&
            (r.Ok? ==> r.value.cardType == cardType && r.value == C.catalog[pick] && pick in C'.drawn)
  {
    var all := OfType(C.catalog, cardType);
    if all != {} {
      var r := AfterDraw(C, L, user, cardType, pick).2;
      assert r.Ok? || r.msg == NotParticipant;
      assert NotParticipant != NoCardsFor + cardType by {
        assert |NoCardsFor + cardType| >= |NoCardsFor| > |NotParticipant|;
      }
    }
  }

  /**
   * While the type has undrawn cards, the draw picks one of them and only adds
   * its mark; once all are drawn, only that type's marks are cleared before
   * any card of the type is picked again.
   */
  lemma DrawMarks(drawn: set<CardId>, all: set<CardId>, pick: CardId)
    requires pick in (if all - drawn == {} then all else all - drawn)
    ensures all - drawn != {} ==> pick !in drawn && DrawnAfter(drawn, all, pick) == drawn + {pick}
    ensures all - drawn == {} ==> DrawnAfter(drawn, all, pick) == (drawn - all) + {pick} &&
                                  forall c :: c in drawn && c !in all ==> c in DrawnAfter(drawn, all, pick)
  {
  }

  /** A sequence of draws from one type, starting from the marks `drawn`. */
  function Deal(drawn: set<CardId>, all: set<CardId>, picks: seq<CardId>): set<CardId>
    decreases |picks|
  {
    if picks == [] then drawn else Deal(DrawnAfter(drawn, all, picks[0]), all, picks[1..])
  }

  /** Each pick was fair and none of the draws had to reshuffle. */
  predicate FairWithoutReshuffle(drawn: set<CardId>, all: set<CardId>, picks: seq<CardId>)
    decreases |picks|
  {
    picks == [] ||
    (all - drawn != {} && picks[0] in all - drawn && FairWithoutReshuffle(DrawnAfter(drawn, all, picks[0]), all, picks[1..]))
  }

  /** Draws without a reshuffle never repeat a card, and every card drawn stays marked. */
  lemma {:induction false} DrawsDistinct(drawn: set<CardId>, all: set<CardId>, picks: seq<CardId>)
    requires FairWithoutReshuffle(drawn, all, picks)
    ensures forall i, j :: 0 <= i < j < |picks| ==> picks[i] != picks[j]
    ensures forall i :: 0 <= i < |picks| ==> picks[i] !in drawn && picks[i] in Deal(drawn, all, picks)
    ensures drawn <= Deal(drawn, all, picks)
    decreases |picks|
  {
    if picks != [] {
      var d1 := DrawnAfter(drawn, all, picks[0]);
      DrawsDistinct(d1, all, picks[1..]);
      forall i | 0 <= i < |picks| ensures picks[i] !in drawn && picks[i] in Deal(drawn, all, picks) {
        if i > 0 {
          assert picks[1..][i - 1] == picks[i];
        }
      }
      forall i, j | 0 <= i < j < |picks| ensures picks[i] != picks[j] {
        assert picks[1..][j - 1] == picks[j];
        if i > 0 {
          assert picks[1..][i - 1] == picks[i];
        }
      }
    }
  }

  /**
   * A card kept by a participant lands in its inventory; `receive_bank` and
   * `pay_bank` cards move their value between the bank and the drawer, the
   * payment to the bank feeding the jackpot, since the ledger is called
   * directly and the El Banco rule never applies.
   */
  lemma DrawEffects(C: CardsState, L: LedgerState, user: Uid, cardType: string, pick: CardId)
    requires pick in C.catalog && C.catalog[pick].cardType == cardType
    requires ParticipantOf(L.participants, user).Some?
    ensures var p := ParticipantOf(L.participants, user).value;
            var card := C.catalog[pick];
            var (C', L', r) := AfterDraw(C, L, user, cardType, pick);
            r == Ok(card) &&
            (card.actionType == Some(Keep) ==> C'.inventory == C.inventory[C.nextInv := InventoryRow(p, pick)]) &&
            (card.actionType == Some(ReceiveBank) && card.actionValue.Some? ==>
               L'.participants[p].balance == L.participants[p].balance + card.actionValue.value && L'.jackpot == L.jackpot) &&
            (card.actionType == Some(PayBank) && card.actionValue.Some? ==>
               L'.participants[p].balance == L.participants[p].balance - card.actionValue.value &&
               L'.jackpot == L.jackpot + card.actionValue.value) &&
            (card.actionType != Some(ReceiveBank) && card.actionType != Some(PayBank) ==> L' == L)
  {
    assert pick in OfType(C.catalog, cardType);
  }

  /** Seeding always leaves boveda cards, so the refresh never reports their absence. */
  lemma RefreshNeverEmpty(C: CardsState, picks: seq<CardId>)
    requires CardRepository.Wf(C)
    ensures AfterRefresh(C, picks).1 != Err(NoBoveda)
  {
    BovedaSeededFacts(C);
  }

  /** Filling distinct missing slots makes them visible with their picks and keeps every other visible slot. */
  lemma RefillFacts(C: CardsState, missing: seq<int>, picks: seq<CardId>)
    requires |picks| == |missing| && Distinct(missing)
    requires forall k :: 0 <= k < |picks| ==> picks[k] in C.catalog
    ensures var (C', r) := Refill(C, missing, picks);
            r.Ok? && r.value == Visible(C'.market, C'.catalog) &&
            (forall k :: 0 <= k < |missing| ==> missing[k] in r.value && r.value[missing[k]] == picks[k]) &&
            (forall slot :: slot in Visible(C.market, C.catalog) && slot !in missing ==> slot in r.value && r.value[slot] == C.market[slot])
  {
    FillEffect(C.market, missing, picks);
  }

  /** The refresh only changes the market and adds catalog entries; it succeeds on a well-formed state. */
  lemma RefreshShape(C: CardsState, picks: seq<CardId>)
    requires CardRepository.Wf(C)
    ensures var (C', r) := AfterRefresh(C, picks);
            r.Ok? && CardRepository.Wf(C') && C' == C.(catalog := C'.catalog, nextCard := C'.nextCard, market := C'.market) &&
            forall c :: c in C.catalog ==> c in C'.catalog && C'.catalog[c] == C.catalog[c]
  {
    var missing := Missing(Slots, Visible(C.market, C.catalog));
    if missing != [] {
      BovedaSeededFacts(C);
      var C1 := BovedaSeeded(C);
      assert AfterRefresh(C, picks) == Refill(C1, missing, picks);
    }
  }

  /** The filling half of `RefreshFillsSlots`, for any catalog the seeding may have produced. */
  lemma RefillFillsSlots(C: CardsState, C1: CardsState, picks: seq<CardId>)
    requires C1.market == C.market
    requires forall c :: c in C.catalog ==> c in C1.catalog && C1.catalog[c] == C.catalog[c]
    requires |picks| == |Missing(Slots, Visible(C.market, C.catalog))|
    requires forall i :: 0 <= i < |picks| ==> picks[i] in OfType(C1.catalog, Boveda)
    ensures var (C', r) := Refill(C1, Missing(Slots, Visible(C.market, C.catalog)), picks);
            r.Ok? && r.value == Visible(C'.market, C'.catalog) &&
            (forall slot :: slot in Slots ==> slot in r.value) &&
            (forall slot :: slot in Visible(C.market, C.catalog) ==> slot in r.value && r.value[slot] == C.market[slot]) &&
            (forall slot :: slot in Slots && slot !in Visible(C.market, C.catalog) ==> r.value[slot] in OfType(C'.catalog, Boveda))
  {
    var vis := Visible(C.market, C.catalog);
    var missing := Missing(Slots, vis);
    assert Distinct(Slots);
    RefillFacts(C1, missing, picks);
    var r := Refill(C1, missing, picks).1;
    forall slot | slot in Slots
      ensures slot in r.value
      ensures slot !in vis ==> r.value[slot] in OfType(C1.catalog, Boveda)
    {
      if slot !in vis {
        var k :| 0 <= k < |missing| && missing[k] == slot;
      } else {
        assert slot !in missing;
      }
    }
    forall slot | slot in vis ensures slot in r.value && r.value[slot] == C.market[slot] {
      assert slot !in missing;
    }
  }

  /**
   * After a refresh with one boveda pick per missing slot, slots 0, 1 and 2
   * are all filled; a slot filled before keeps its card, and every slot
   * filled now holds a boveda card (possibly one shown elsewhere or owned).
   */
  lemma RefreshFillsSlots(C: CardsState, picks: seq<CardId>)
    requires CardRepository.Wf(C)
    requires |picks| == |Missing(Slots, Visible(C.market, C.catalog))|
    requires forall i :: 0 <= i < |picks| ==> picks[i] in OfType(AfterRefresh(C, picks).0.catalog, Boveda)
    ensures var (C', r) := AfterRefresh(C, picks);
            r.Ok? && r.value == Visible(C'.market, C'.catalog) &&
            (forall slot :: slot in Slots ==> slot in r.value) &&
            (forall slot :: slot in Visible(C.market, C.catalog) ==> slot in r.value && r.value[slot] == C.market[slot]) &&
            (forall slot :: slot in Slots && slot !in Visible(C.market, C.catalog) ==> r.value[slot] in OfType(C'.catalog, Boveda))
  {
    var missing := Missing(Slots, Visible(C.market, C.catalog));
    if missing != [] {
      BovedaSeededFacts(C);
      var C1 := BovedaSeeded(C);
      assert AfterRefresh(C, picks) == Refill(C1, missing, picks);
      RefillFillsSlots(C, C1, picks);
    }
  }

  /**
   * Buying from a filled slot charges the buyer the card's cost (0 when it
   * has none) into the jackpot and adds that card to the buyer's inventory
   * under a new row; a buyer outside the game or an empty slot changes nothing.
   */
  lemma BuyCharges(C: CardsState, L: LedgerState, user: Uid, slot: int, picks: seq<CardId>)
    requires CardRepository.Wf(C)
    ensures var (C', L', r) := AfterBuy(C, L, user, slot, picks);
            (r.Ok? <==> ParticipantOf(L.participants, user).Some? && slot in Visible(C.market, C.catalog)) &&
            (r.Err? ==> C' == C && L' == L) &&
            (r.Ok? ==>
               var p := ParticipantOf(L.participants, user).value;
               var card := C.catalog[C.market[slot]];
               var cost := if card.cost.Some? then card.cost.value else 0.0;
               r.value == C.nextInv && r.value in C'.inventory && C'.inventory[r.value] == InventoryRow(p, C.market[slot]) &&
               L'.participants[p].balance == L.participants[p].balance - cost &&
               L'.jackpot == L.jackpot + cost)
  {
    if ParticipantOf(L.participants, user).Some? && slot in Visible(C.market, C.catalog) {
      var p := ParticipantOf(L.participants, user).value;
      var C1 := AfterPurchase(C, L, p, slot).0;
      var C2 := C1.(market := C1.market - {slot});
      assert CardRepository.Wf(C2);
      RefreshShape(C2, picks);
    }
  }

  /** The exchange moves no money and leaves every other filled slot as it was. */
  lemma ExchangeKeepsOthers(C: CardsState, slot: int, picks: seq<CardId>, other: int)
    requires CardRepository.Wf(C)
    requires |picks| == |Missing(Slots, Visible(C.market - {slot}, C.catalog))|
    requires forall i :: 0 <= i < |picks| ==> picks[i] in OfType(AfterExchange(C, slot, picks).0.catalog, Boveda)
    requires other != slot && other in Visible(C.market, C.catalog)
    ensures var (C', r) := AfterExchange(C, slot, picks);
            r.Ok? && other in r.value && r.value[other] == C.market[other] &&
            (slot in Slots ==> slot in r.value && r.value[slot] in OfType(C'.catalog, Boveda))
  {
    RefreshFillsSlots(C.(market := C.market - {slot}), picks);
  }

  /**
   * Using a card needs the row to be in the caller's inventory; the use is
   * logged, and the row is removed exactly when the card is consumable.
   */
  lemma UseConsumes(C: CardsState, L: LedgerState, user: Uid, inv: InvId)
    ensures var (C', r) := AfterUse(C, L, user, inv);
            var p := ParticipantOf(L.participants, user);
            (r.Ok? <==> p.Some? && inv in C.inventory && C.inventory[inv].participant == p.value && C.inventory[inv].card in C.catalog) &&
            (r.Err? ==> C' == C) &&
            (r.Ok? ==> C'.usage == C.usage + [UsageEntry(p.value, C.inventory[inv].card, Some(UsedCard))] &&
                       (inv !in C'.inventory <==> Consumable(C.catalog[C.inventory[inv].card])) &&
                       forall other :: other in C.inventory && other != inv ==> other in C'.inventory && C'.inventory[other] == C.inventory[other])
  {
  }
}
