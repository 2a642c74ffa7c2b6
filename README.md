# poly-comp game economy, in Dafny

A model of the server side of poly-comp, a Monopoly variant played in the
browser, together with the few pure helpers of its web client that carry
game logic. The model covers one game at a time.

- **Ledger** (`TransactionRepository`, `TransactionService`). Participant
  balances, the game's jackpot and its transaction records. A transfer
  debits the sender (balances may go negative), credits the receiver, and
  feeds the jackpot only when a participant pays the bank. `delete`
  reverses a record. `claim_jackpot` pays the whole jackpot to a
  participant. Every service payment goes through `Transfer`. There the
  "El Banco" rule redirects a payment to the bank to the holder of the
  El Banco card, or waives it when the holder is the payer, and writes an
  extra bank-to-bank record of the original amount.
- **Properties** (`PropertyRepository`, `PropertyService`). The catalog
  and the ownership table. Buying from the bank, mortgaging and
  unmortgaging. The building ladder: up to four houses, then a hotel in
  their place; selling goes one step back down for half the cost.
  Building is gated on owning every property of a colour, none of them
  mortgaged.
- **Auctions** (`AuctionService`). ACTIVE to FINISHED. Bids strictly
  rise and must be affordable. Settlement goes through the ledger and
  gives the winner a clean ownership row.
- **Trades** (`TradeService`). PENDING to ACCEPTED or REJECTED. Accepting
  runs four legs in order: offered cash, requested cash, offered
  properties, requested properties. A failing leg keeps the legs before
  it.
- **Cards** (`CardRepository`, `CardService`):
  - arca and fortuna draws without replacement, with a reshuffle of the
    drawn type once it runs out;
  - the three-slot boveda market, refilled at random from the whole
    boveda catalog;
  - buying and exchanging market cards;
  - using cards, where red, arca and fortuna cards are consumed;
  - seeding the catalog below fixed thresholds.
- **Game lifecycle** (`GameService`):
  - creating a game with a four-character code;
  - joining while WAITING, with 1500 from the bank;
  - leaving;
  - the host's updates, where starting the game rolls initiative and
    fixes a turn order that is a stable, descending sort by roll;
  - passing the turn around that order.
- **Helpers**:
  - the `GameStatus` string codec (`GameStatus`);
  - the server's and the client's board tables with their wrap-around
    lookups (`BoardConfig`, `BoardSpaces`);
  - the board view's index-to-grid-cell layout (`GameBoardGrid`);
  - the dice loop (`DiceService`);
  - the client's building-manager advisory (`PropertyDialog`);
  - the client's bank-reserve estimate and bank log (`BankTracker`);
  - the SQL-timestamp normaliser in front of `Date` (`Formatters`).

Code that updates tables in place is modelled as classes:
- `TransactionRepository.Ledger`
- `PropertyRepository.Ownership`
- `AuctionService.Auctions`
- `TradeService.Trades`
- `CardRepository.CardTables`
- `GameService.Session`

Their methods are proved against ghost functions of the old state. These
are `AfterTransfer`, `AfterBuyBuilding`, `AfterAccept`, `AfterDraw` and
the like, and the lemmas state what the source promises about them. Each
repository method runs in one database transaction, so it is modelled as
one atomic step, and an early error leaves every table as it was.

Some things the model treats as inputs or choices:
- Random draws are nondeterministic choices. Each method returns the
  choice it made as a ghost value.
- Clock readings are parameters.
- The `Date` parser is a parameter.
- Money is `real`, for `BigDecimal` and the exact halving in
  `sell_building`. The web client's amounts are whole numbers.

The El Banco side record has no sender and no receiver. `execute_transfer`
credits the jackpot only when a participant pays the bank, so this record
changes no balance and never reaches the jackpot. That holds despite the
"To Jackpot" description it carries (`TransactionRepository.BankToBankOnlyRecords`).

## Model

| member | source | states |
|---|---|---|
| TransactionRepository.ParticipantOf | apps/api/src/infrastructure/postgres/transaction_repository.rs:165-175 | the participant lookup returns a row of that user in the game, and None only when no row belongs to the user |
| TransactionRepository.ParticipantOfUnique | apps/api/src/infrastructure/postgres/transaction_repository.rs:165-175 | with one row per user, the lookup by a row's user finds exactly that row |
| TransactionRepository.Ledger.constructor | apps/api/src/infrastructure/postgres/transaction_repository.rs:17 | a new game's ledger has no participants, no records and a zero jackpot |
| TransactionRepository.Ledger.FindParticipant | apps/api/src/infrastructure/postgres/transaction_repository.rs:165-175 | the method's answer is the lookup relation above |
| TransactionRepository.Ledger.CreditBalance | apps/api/src/infrastructure/postgres/transaction_repository.rs:110-116 | `balance = balance + amount WHERE id`: one row's balance moves, a missing row changes nothing, no other table changes |
| TransactionRepository.Ledger.ExecuteTransfer | apps/api/src/infrastructure/postgres/transaction_repository.rs:75-148 | the new ledger and result are those of `AfterTransfer`: unknown sender fails with nothing changed; otherwise debit, credit, record, and jackpot growth for participant-to-bank |
| TransactionRepository.Ledger.Delete | apps/api/src/infrastructure/postgres/transaction_repository.rs:31-73 | always Ok; refunds the sender, reclaims from the receiver and removes the record; an unknown id is a no-op |
| TransactionRepository.Ledger.ClaimJackpot | apps/api/src/infrastructure/postgres/transaction_repository.rs:150-211 | empty jackpot and non-participant are errors with nothing changed; otherwise the claimant is credited the jackpot, it resets to 0 and a "Jackpot Win!" record is written |
| TransactionRepository.Ledger.AddParticipant | apps/api/src/infrastructure/postgres/participant_repository.rs:19-35 | inserts a row with a fresh id for the user and the given balance, nothing else changes |
| TransactionRepository.Ledger.RemoveParticipant | apps/api/src/infrastructure/postgres/participant_repository.rs:63-70 | deletes the user's rows in the game and nothing else |
| TransactionRepository.CreditKeepsUsers | apps/api/src/infrastructure/postgres/transaction_repository.rs:110-116 | crediting a balance keeps the set of rows and each row's user |
| TransactionRepository.KeepsWf | apps/api/src/infrastructure/postgres/transaction_repository.rs:75-148 | the ledger's well-formedness (fresh ids, one row per user) survives any step that keeps rows' users and only grows counters |
| TransactionRepository.CreditTotal | apps/api/src/infrastructure/postgres/transaction_repository.rs:110-116 | crediting a row moves the sum of balances by exactly the amount; a missing row moves nothing |
| TransactionRepository.CreditCancel | apps/api/src/infrastructure/postgres/transaction_repository.rs:48-62 | crediting and then debiting the same amount restores the balances |
| TransactionRepository.CreditCommute | apps/api/src/infrastructure/postgres/transaction_repository.rs:48-62 | two balance updates commute |
| TransactionRepository.TransferDebitsSender | apps/api/src/infrastructure/postgres/transaction_repository.rs:84-107 | a known sender is debited the amount, may go negative, and the transfer succeeds |
| TransactionRepository.TransferMissingSender | apps/api/src/infrastructure/postgres/transaction_repository.rs:104-106 | a sender id with no row fails with "Sender participant not found for ID: " followed by that id, and changes nothing |
| TransactionRepository.SenderErrorNamesSender | apps/api/src/infrastructure/postgres/transaction_repository.rs:105 | the error names the missing sender: distinct ids give distinct messages |
| TransactionRepository.TransferCreditsReceiver | apps/api/src/infrastructure/postgres/transaction_repository.rs:109-116 | a receiver with a row gains the amount; a receiver without one changes nothing |
| TransactionRepository.TransferJackpot | apps/api/src/infrastructure/postgres/transaction_repository.rs:136-143 | the jackpot grows by the amount exactly for a participant-to-bank payment |
| TransactionRepository.TransferTotal | apps/api/src/infrastructure/postgres/transaction_repository.rs:84-116 | the sum of balances falls by the amount for a sender and rises by it for a receiver with a row |
| TransactionRepository.PeerTransferConserves | apps/api/src/infrastructure/postgres/transaction_repository.rs:84-116 | between two participants the sum of balances and the jackpot are unchanged |
| TransactionRepository.BankPaymentFeedsJackpot | apps/api/src/infrastructure/postgres/transaction_repository.rs:136-143 | a payment to the bank keeps balances plus jackpot constant |
| TransactionRepository.BankToBankOnlyRecords | apps/api/src/infrastructure/postgres/transaction_repository.rs:118-134 | a bank-to-bank record changes no balance and not the jackpot; only the record is added |
| TransactionRepository.DeleteUnknown | apps/api/src/infrastructure/postgres/transaction_repository.rs:40-43 | deleting an unknown id changes nothing |
| TransactionRepository.DeleteKeepsJackpot | apps/api/src/infrastructure/postgres/transaction_repository.rs:45-69 | delete never touches the jackpot, and the record is gone afterwards |
| TransactionRepository.TransferThenDelete | apps/api/src/infrastructure/postgres/transaction_repository.rs:31-148 | deleting the record a transfer just made restores every balance and the record table; a jackpot increase is not undone |
| TransactionRepository.ClaimEmpty | apps/api/src/infrastructure/postgres/transaction_repository.rs:161-163 | a jackpot of zero or less fails with "Jackpot is empty" and changes nothing |
| TransactionRepository.ClaimByStranger | apps/api/src/infrastructure/postgres/transaction_repository.rs:172-175 | a user with no row fails with "User is not a participant" and changes nothing |
| TransactionRepository.ClaimMovesJackpot | apps/api/src/infrastructure/postgres/transaction_repository.rs:150-211 | a claim hands the whole jackpot to the claimant, empties it, records the bank-to-claimant win and conserves balances plus jackpot |
| TransactionService.Transfer | apps/api/src/application/transaction_service.rs:28-105 | the holder is any participant holding "El Banco" (None iff nobody); ledger and result follow the El Banco rule: side record first, then the primary transfer |
| TransactionService.DeleteTransaction | apps/api/src/application/transaction_service.rs:107-111 | delegates to the ledger's delete unchanged |
| TransactionService.ClaimJackpot | apps/api/src/application/transaction_service.rs:116-125 | delegates to the ledger's claim unchanged; the El Banco rule does not apply |
| TransactionService.NoHolderPassesThrough | apps/api/src/application/transaction_service.rs:39 | with no holder, a service transfer is exactly the ledger's transfer |
| TransactionService.ServiceTransferSucceeds | apps/api/src/application/transaction_service.rs:28-105 | a transfer from the bank or from a participant always succeeds |
| TransactionService.OnlyBankPaymentsRouted | apps/api/src/application/transaction_service.rs:42 | only participant-to-bank payments are rewritten |
| TransactionService.RoutingShape | apps/api/src/application/transaction_service.rs:39-95 | the rule keeps sender and description, and adds a bank-to-bank side record of the original amount exactly when it applies |
| TransactionService.PaymentRedirectedToHolder | apps/api/src/application/transaction_service.rs:43-64 | another payer's bank payment goes to the holder; the jackpot does not grow; the two records are the bonus note and the redirected payment |
| TransactionService.HolderPaymentWaived | apps/api/src/application/transaction_service.rs:65-83 | the holder paying the bank pays 0: balances and jackpot unchanged, an owner-payment note and a zero record are written |
| TransactionService.HolderStopsJackpotGrowth | apps/api/src/application/transaction_service.rs:41-84 | with a holder, no payment to the bank raises the jackpot |
| TransactionService.RoutedPaymentConserves | apps/api/src/application/transaction_service.rs:41-97 | balances plus jackpot are conserved whenever the rule applies |
| TransactionService.SideRecordOutlivesFailure | apps/api/src/application/transaction_service.rs:53-63 | an unknown payer fails the transfer, but the detached side record is still written |
| PropertyRepository.OwnedBy | apps/api/src/infrastructure/postgres/property_repository.rs:55-69 | a participant's rows are exactly the rows whose participant is that one, unchanged |
| PropertyRepository.RowOf | apps/api/src/infrastructure/postgres/property_repository.rs:40-53 | the row found for a property belongs to it, and None exactly when the property is unowned |
| PropertyRepository.RowOfUnique | apps/api/src/infrastructure/postgres/property_repository.rs:71-88 | with one row per property, the lookup by a row's property returns that row |
| PropertyRepository.Ownership.constructor | apps/api/src/infrastructure/postgres/property_repository.rs:13-18 | a new game owns no property |
| PropertyRepository.Ownership.FindRow | apps/api/src/infrastructure/postgres/property_repository.rs:40-53 | the method returns the lookup relation's row |
| PropertyRepository.Ownership.AssignProperty | apps/api/src/infrastructure/postgres/property_repository.rs:71-88 | inserts the row under a fresh id and keeps every other row |
| PropertyRepository.Ownership.UpdatePropertyOwnership | apps/api/src/infrastructure/postgres/property_repository.rs:90-106 | overwrites the mortgage flag and building counts of the row with that id; an unknown id is sqlx's row-not-found error |
| PropertyRepository.Ownership.TransferProperty | apps/api/src/infrastructure/postgres/property_repository.rs:108-118 | every row of the property gets the new participant, nothing else changes |
| PropertyRepository.Ownership.DeleteOwnership | apps/api/src/application/auction_service.rs:114-115 | drops the property's rows and keeps the rest |
| PropertyRepository.TransferReowns | apps/api/src/infrastructure/postgres/property_repository.rs:108-118 | transfer keeps the row ids, re-owns exactly the property's rows and keeps their flag, counts and property |
| PropertyRepository.TransferUnownedIsNoop | apps/api/src/infrastructure/postgres/property_repository.rs:108-118 | transferring an unowned property changes nothing |
| PropertyRepository.TransferGivesOwner | apps/api/src/infrastructure/postgres/property_repository.rs:108-118 | after the transfer the new owner's rows include the property's row |
| PropertyRepository.UpdateTouchesOneRow | apps/api/src/infrastructure/postgres/property_repository.rs:90-106 | an update changes only the named row, and fails without change on an unknown id |
| PropertyRepository.DeleteLeavesUnowned | apps/api/src/application/auction_service.rs:114-115 | after the delete the property is unowned and every other row is kept |
| PropertyService.GroupOf | apps/api/src/application/property_service.rs:172-173 | the group is exactly the catalog properties of that color |
| PropertyService.GroupCheck | apps/api/src/application/property_service.rs:178-188 | the monopoly check yields no error or one of the two group errors |
| PropertyService.FindMyRow | apps/api/src/application/property_service.rs:94-97 | the caller's row for the property, looked up among the caller's rows |
| PropertyService.BuyProperty | apps/api/src/application/property_service.rs:35-82 | missing property, missing participant and owned property are errors that change nothing; otherwise the price is paid to the bank (El Banco rule) and a fresh unmortgaged row with no buildings is assigned |
| PropertyService.MortgageProperty | apps/api/src/application/property_service.rs:85-121 | not owned, already mortgaged and built-on are errors; otherwise the row is flagged and the bank pays the mortgage value |
| PropertyService.UnmortgageProperty | apps/api/src/application/property_service.rs:123-153 | not owned and not mortgaged are errors; otherwise the cost is paid to the bank and the flag cleared |
| PropertyService.CheckGroup | apps/api/src/application/property_service.rs:178-188 | the loop returns the error of the first group property not owned or mortgaged |
| PropertyService.BuyBuilding | apps/api/src/application/property_service.rs:155-228 | the error ladder of `buy_building`, then payment of the house or hotel cost and one step up the building ladder |
| PropertyService.SellBuilding | apps/api/src/application/property_service.rs:230-283 | half the hotel cost for a hotel (back to four houses) or half the house cost for a house; no buildings is an error |
| PropertyService.GroupCheckPasses | apps/api/src/application/property_service.rs:178-188 | the check passes iff the caller owns every property of the group and none is mortgaged |
| PropertyService.BuildTargetOwned | apps/api/src/application/property_service.rs:190-193 | once the group check passes the caller owns the target, so its `unwrap` cannot panic |
| PropertyService.BuyBuildingNeverPanics | apps/api/src/application/property_service.rs:184-193 | `buy_building` never reaches a failing `unwrap` |
| PropertyService.BuyBuildingSucceeds | apps/api/src/application/property_service.rs:155-228 | success iff buildable, monopoly unmortgaged and no hotel yet; then only the target row moves one step up; no even-building rule |
| PropertyService.BuildingCost | apps/api/src/application/property_service.rs:198-216 | the buyer pays the house cost below four houses and the hotel cost at four, into the jackpot when nobody holds El Banco |
| PropertyService.SellRefund | apps/api/src/application/property_service.rs:234-279 | the seller receives half the hotel or house cost, the jackpot is untouched and the row steps down |
| PropertyService.LadderSteps | apps/api/src/application/property_service.rs:219-224 | on the ladder, a step up and a step down cancel in either order and stay on the ladder |
| PropertyService.BuyKeepsLadder | apps/api/src/application/property_service.rs:195-224 | buying a building keeps every row at most four houses, or one hotel and no houses |
| PropertyService.SellKeepsLadder | apps/api/src/application/property_service.rs:249-279 | selling a building keeps every row on the ladder |
| PropertyService.BuyOwnedPropertyFails | apps/api/src/application/property_service.rs:45-49 | buying an owned property fails with "Property is already owned" and changes nothing |
| PropertyService.BuyPropertyAssigns | apps/api/src/application/property_service.rs:51-81 | a purchase assigns a fresh clean row, keeps one row per property and moves the price from the buyer to the jackpot when nobody holds El Banco |
| PropertyService.MortgageSucceeds | apps/api/src/application/property_service.rs:85-121 | success iff owned, unmortgaged and unbuilt; then the row is flagged, the owner gains the mortgage value and the jackpot is untouched |
| PropertyService.UnmortgageNeedsMortgage | apps/api/src/application/property_service.rs:136-138 | unmortgaging a property that is not mortgaged fails and changes nothing |
| PropertyService.UnmortgageClears | apps/api/src/application/property_service.rs:140-152 | unmortgaging clears the flag and moves the cost from the owner to the jackpot when nobody holds El Banco |
| AuctionService.Auctions.constructor | apps/api/src/infrastructure/postgres/auction_repository.rs:13-18 | a new game has no auctions |
| AuctionService.Auctions.FindActive | apps/api/src/infrastructure/postgres/auction_repository.rs:50-58 | returns some ACTIVE auction, and None iff there is none |
| AuctionService.Auctions.Create | apps/api/src/infrastructure/postgres/auction_repository.rs:21-38 | stores the record under a fresh id |
| AuctionService.Auctions.Update | apps/api/src/infrastructure/postgres/auction_repository.rs:60-77 | overwrites the record with that id |
| AuctionService.StartAuction | apps/api/src/application/auction_service.rs:34-57 | fails while an auction is active; otherwise opens one at 10 with no bidder |
| AuctionService.PlaceBid | apps/api/src/application/auction_service.rs:59-92 | unknown, inactive, non-participant, too low and unaffordable bids are errors; otherwise the bid and bidder are recorded |
| AuctionService.EndAuction | apps/api/src/application/auction_service.rs:94-137 | unknown or inactive is an error; a winner pays the bid (El Banco rule) and gets the property on a fresh row; the auction is FINISHED at `now` |
| AuctionService.StartOpensAuction | apps/api/src/application/auction_service.rs:34-57 | start fails iff an auction is active; otherwise the new auction is ACTIVE at 10, with no bidder and no end time, under a fresh id |
| AuctionService.BidAccepted | apps/api/src/application/auction_service.rs:59-92 | a bid is accepted iff active, by a participant, above the current bid and affordable; the bid then strictly rises; a refusal changes nothing |
| AuctionService.FinishedIsTerminal | apps/api/src/application/auction_service.rs:63-65 | a FINISHED auction takes no bid and cannot be ended again |
| AuctionService.EndFinishes | apps/api/src/application/auction_service.rs:131-136 | a successful end marks the auction FINISHED at `now` and keeps its bid, bidder and property |
| AuctionService.NoBidderNoSettlement | apps/api/src/application/auction_service.rs:103 | without a bidder no money and no property moves |
| AuctionService.WinnerSettles | apps/api/src/application/auction_service.rs:103-129 | the winner pays the bid into the jackpot with no second balance check and becomes the only owner, on a clean row; other rows are kept |
| AuctionService.OneActiveKept | apps/api/src/application/auction_service.rs:34-40 | start, bid and end all keep at most one auction ACTIVE |
| TradeService.Trades.constructor | apps/api/src/infrastructure/postgres/trade_repository.rs:13-18 | a new game has no trades |
| TradeService.Trades.Create | apps/api/src/application/trade_service.rs:31-35 | `create_trade` stores the trade under a fresh id and keeps the rest |
| TradeService.Trades.SetStatus | apps/api/src/infrastructure/postgres/trade_repository.rs:69-84 | `update` writes only the status of that trade |
| TradeService.TransferEach | apps/api/src/application/trade_service.rs:69-79 | the loop of `transfer_property` calls leaves the rows as the one-at-a-time transfer of every listed property |
| TradeService.AcceptTrade | apps/api/src/application/trade_service.rs:37-85 | unknown, not pending, non-participant and non-target are errors; then the cash legs, the property legs and ACCEPTED; a failing cash leg returns with earlier legs applied |
| TradeService.RejectTrade | apps/api/src/application/trade_service.rs:87-98 | an existing trade becomes REJECTED; an unknown one is "Trade not found" |
| TradeService.TransferAllEffect | apps/api/src/application/trade_service.rs:69-79 | the property loop gives each listed property's rows to the owner and keeps every other row |
| TradeService.AcceptGuards | apps/api/src/application/trade_service.rs:38-52 | acceptance succeeds only for a PENDING trade and the target's own user, and then records ACCEPTED |
| TradeService.AcceptReassigns | apps/api/src/application/trade_service.rs:68-79 | after acceptance requested properties belong to the initiator, other offered ones to the target, other rows unchanged |
| TradeService.AcceptCash | apps/api/src/application/trade_service.rs:54-66 | each side pays what it gives when positive; nobody else's balance and not the jackpot move |
| TradeService.AcceptOnce | apps/api/src/application/trade_service.rs:41-43 | an accepted trade cannot be accepted again |
| TradeService.FirstLegFailure | apps/api/src/application/trade_service.rs:56-60 | with the initiator gone, offered cash fails the first leg: the error returns with nothing moved and the trade still PENDING |
| TradeService.RejectOverwrites | apps/api/src/application/trade_service.rs:87-98 | reject checks neither status nor caller; even an accepted trade becomes REJECTED; other trades are kept |
| CardRepository.SomeOwnerOfTitle | apps/api/src/infrastructure/postgres/card_repository.rs:130-146 | some possible answer of the title lookup always exists |
| CardRepository.AddAll | apps/api/src/infrastructure/postgres/card_repository.rs:225-249 | a multi-row insert stores the k-th card under the k-th fresh id, keeps existing cards and advances the counter by the count |
| CardRepository.SeedIfShort | apps/api/src/infrastructure/postgres/card_repository.rs:220-250 | a seeding step touches only the catalog, keeps existing cards and fresh ids, and does nothing when the type already has enough cards |
| CardRepository.SeedStepStores | apps/api/src/infrastructure/postgres/card_repository.rs:224-249 | a step that fires stores its k-th seed under the k-th fresh id |
| CardRepository.CardTables.MarkCardDrawn | apps/api/src/infrastructure/postgres/card_repository.rs:41-50 | the card joins the drawn set (ON CONFLICT DO NOTHING), nothing else changes |
| CardRepository.CardTables.ClearDrawnCards | apps/api/src/infrastructure/postgres/card_repository.rs:52-66 | the drawn marks of that type's cards are removed, nothing else changes |
| CardRepository.CardTables.SetMarketSlot | apps/api/src/infrastructure/postgres/card_repository.rs:95-109 | an upsert keyed by slot: the slot holds the card, nothing else changes |
| CardRepository.CardTables.ClearMarketSlot | apps/api/src/infrastructure/postgres/card_repository.rs:111-118 | that slot's row is deleted, nothing else changes |
| CardRepository.CardTables.FindOwnerOfCardTitle | apps/api/src/infrastructure/postgres/card_repository.rs:130-146 | the answer is a participant holding a card of that title, and None only when nobody in the game does |
| CardRepository.CardTables.AddToInventory | apps/api/src/infrastructure/postgres/card_repository.rs:149-169 | a new inventory row under a fresh id, nothing else changes |
| CardRepository.CardTables.RemoveFromInventory | apps/api/src/infrastructure/postgres/card_repository.rs:189-195 | deletes exactly the row with that id |
| CardRepository.CardTables.LogUsage | apps/api/src/infrastructure/postgres/card_repository.rs:198-216 | appends one usage entry, nothing else changes |
| CardRepository.CardTables.EnsureCardsSeeded | apps/api/src/infrastructure/postgres/card_repository.rs:219-308 | the catalog becomes the seeding of the old state: boveda below 10, arca below 5, fortuna below 5 |
| CardRepository.CardTables.SeedStep | apps/api/src/infrastructure/postgres/card_repository.rs:220-250 | one threshold step: count the type, insert its seeds when short |
| CardRepository.MarkIdempotent | apps/api/src/infrastructure/postgres/card_repository.rs:41-50 | two `mark_card_drawn` calls for a card leave the tables as one does; the card is then marked and nothing else differs |
| CardRepository.ClearKeepsOtherTypes | apps/api/src/infrastructure/postgres/card_repository.rs:56-58 | clearing one type keeps the marks of every other type's cards |
| CardRepository.SetSlotReplaces | apps/api/src/infrastructure/postgres/card_repository.rs:95-118 | setting a slot twice keeps only the second card, the slot shows the card set, the other slots are untouched, and clearing a slot just set is clearing it outright |
| CardRepository.OwnerLookupSound | apps/api/src/infrastructure/postgres/card_repository.rs:133-138 | a reported holder is a participant of the game; None means no participant holds that title |
| CardRepository.SeedAllOnlyAdds | apps/api/src/infrastructure/postgres/card_repository.rs:219-308 | seeding changes only the catalog and counter, keeps every existing card, and keeps ids fresh |
| CardRepository.SeedAllStoresBoveda | apps/api/src/infrastructure/postgres/card_repository.rs:224-249 | when the boveda step fires, the k-th boveda seed is stored under the k-th fresh id and survives later steps |
| CardRepository.SeedingOnlyAdds | apps/api/src/infrastructure/postgres/card_repository.rs:219-308 | the real seeding keeps every existing card's definition |
| CardRepository.BovedaSeedFacts | apps/api/src/infrastructure/postgres/card_repository.rs:227-247 | there are 20 boveda seeds, the first is a boveda card and the sixth is "El Banco" |
| CardRepository.SeedAllProvidesBoveda | apps/api/src/infrastructure/postgres/card_repository.rs:220-250 | after seeding with a non-empty boveda list there is at least one boveda card |
| CardRepository.SeedingProvidesBoveda | apps/api/src/infrastructure/postgres/card_repository.rs:220-250 | after the real seeding there is always a boveda card to deal |
| CardRepository.SeedingAddsElBanco | apps/api/src/infrastructure/postgres/card_repository.rs:224-249 | whenever boveda seeding runs, "El Banco" is among the cards it adds |
| CardService.Visible | apps/api/src/infrastructure/postgres/card_repository.rs:69-93 | the market as read back: exactly the slots whose card exists in the catalog, with their cards |
| CardService.Missing | apps/api/src/application/card_service.rs:115-118 | the missing slots are exactly the required ones not shown, and stay distinct |
| CardService.DrawCard | apps/api/src/application/card_service.rs:34-108 | the pick is fair (an undrawn card of the type, or any after the reshuffle) and the tables and result are those of `draw_card` with that pick |
| CardService.SeedBoveda | apps/api/src/application/card_service.rs:126-138 | seeds the catalog when no boveda card exists, and reports whether boveda cards exist afterwards |
| CardService.FillSlots | apps/api/src/application/card_service.rs:140-149 | each missing slot gets a random boveda card, in order, and the visible market is returned |
| CardService.RefreshMarket | apps/api/src/application/card_service.rs:113-150 | the tables and result are those of the refresh with the boveda cards picked, one per missing slot |
| CardService.Purchase | apps/api/src/application/card_service.rs:166-183 | the buyer pays the card's cost (0 without one), gains an inventory row, and the slot is emptied |
| CardService.BuyMarketCard | apps/api/src/application/card_service.rs:156-189 | non-participant and empty slot are errors that change nothing; otherwise the purchase, then the refresh |
| CardService.ExchangeMarketCard | apps/api/src/application/card_service.rs:191-196 | the slot is emptied and the market refreshed |
| CardService.UseCard | apps/api/src/application/card_service.rs:208-229 | non-participant and a row not in the caller's inventory are errors; otherwise the use is logged and consumables removed |
| CardService.BovedaSeededFacts | apps/api/src/application/card_service.rs:129-138 | the refresh's seeding only adds catalog entries and always leaves a boveda card |
| CardService.FillEffect | apps/api/src/application/card_service.rs:140-147 | filling distinct slots puts each pick in its slot and leaves every other slot as it was |
| CardService.DrawOfType | apps/api/src/application/card_service.rs:39-58 | the draw fails for lack of cards exactly when the type has none; otherwise it returns that pick, of that type, now marked drawn |
| CardService.DrawMarks | apps/api/src/application/card_service.rs:44-58 | with undrawn cards only the pick's mark is added; once all are drawn only this type's marks are cleared first |
| CardService.DrawsDistinct | apps/api/src/application/card_service.rs:44-58 | draws without a reshuffle never repeat a card and every drawn card stays marked |
| CardService.DrawEffects | apps/api/src/application/card_service.rs:60-107 | a keep card enters the drawer's inventory; receive_bank and pay_bank move the value between bank and drawer, a payment feeding the jackpot; other cards move no money |
| CardService.RefreshNeverEmpty | apps/api/src/application/card_service.rs:129-137 | on a well-formed catalog the refresh never reports "No boveda cards type defined" |
| CardService.RefillFacts | apps/api/src/application/card_service.rs:140-149 | filling distinct missing slots shows them with their picks and keeps every other visible slot |
| CardService.RefreshShape | apps/api/src/application/card_service.rs:113-150 | the refresh succeeds and changes only the market and new catalog entries |
| CardService.RefillFillsSlots | apps/api/src/application/card_service.rs:140-149 | after the fill, slots 0-2 are all shown, old slots keep their cards and new ones hold boveda cards |
| CardService.RefreshFillsSlots | apps/api/src/application/card_service.rs:112-150 | after a refresh slots 0, 1 and 2 are all filled; filled slots keep their card, refilled ones hold a boveda card |
| CardService.BuyCharges | apps/api/src/application/card_service.rs:156-189 | success iff participant and filled slot; the cost (0 if none) goes from buyer to jackpot and the card to a new inventory row; failures change nothing |
| CardService.ExchangeKeepsOthers | apps/api/src/application/card_service.rs:191-196 | an exchange keeps every other filled slot and refills the exchanged one with a boveda card |
| CardService.UseConsumes | apps/api/src/application/card_service.rs:208-229 | use succeeds iff the row is in the caller's inventory; it is logged "Used card", removed exactly when red, arca or fortuna, and other rows stay |
| GameService.Uppercase | apps/api/src/application/game_service.rs:35 | upper-casing keeps the code's length |
| GameService.Zip | apps/api/src/application/game_service.rs:153-165 | the initiative list pairs the k-th participant with the k-th roll |
| GameService.Users | apps/api/src/application/game_service.rs:170 | the turn order lists the user of each pair, in order |
| GameService.IndexOf | apps/api/src/application/game_service.rs:259-260 | the first position holding the user, and None exactly when the user is not listed |
| GameService.Session.constructor | apps/api/src/application/game_service.rs:50 | the stored session holds the game record given |
| GameService.GenerateCode | apps/api/src/application/game_service.rs:29-35 | the code has four characters, each an upper-case letter or a digit |
| GameService.JoinGame | apps/api/src/application/game_service.rs:66-116 | a game that is not WAITING and a user already in it are errors; otherwise a row with balance 0 is added, then 1500 from the bank |
| GameService.CreateGame | apps/api/src/application/game_service.rs:28-56 | a WAITING "New Monopoly Game" with a four-character code and an empty jackpot; the ledger is the host's join of an empty game: the host holds the only row, with 1500, and the only record is the bank-to-host "Initial Funding" of 1500 |
| GameService.LeaveGame | apps/api/src/application/game_service.rs:118-129 | a FINISHED game cannot be left; otherwise the user's row is removed |
| GameService.UpdateGame | apps/api/src/application/game_service.rs:131-190 | one roll in 2..12 per participant exactly when the host starts the game; the game becomes the update's result |
| GameService.EndTurn | apps/api/src/application/game_service.rs:248-276 | the game becomes the result of `end_turn`; it is unchanged on an error |
| GameService.UppercaseCode | apps/api/src/application/game_service.rs:30-35 | upper-casing alphanumerics yields only upper-case letters and digits |
| GameService.JoinGuards | apps/api/src/application/game_service.rs:71-79 | a join succeeds iff the game is WAITING and the user has no row yet |
| GameService.JoinFunds | apps/api/src/application/game_service.rs:81-99 | a join adds the user under a fresh id with exactly 1500, changes no other balance and not the jackpot |
| GameService.LeaveRemoves | apps/api/src/application/game_service.rs:118-129 | leaving fails iff the game is FINISHED; then the user has no row and every other row is kept |
| GameService.UpdateByHost | apps/api/src/application/game_service.rs:131-190 | only the host updates; status and name are whatever was given, and FINISHED stamps `ended_at` |
| GameService.UsersPermute | apps/api/src/application/game_service.rs:168-170 | reordering the pairs reorders the users listed the same way |
| GameService.InitiativePermutes | apps/api/src/application/game_service.rs:152-170 | the turn order is a permutation of the participants |
| GameService.InitiativeDescending | apps/api/src/application/game_service.rs:167-168 | the sorted pairs run from the highest roll down, and the head rolled at least as high as anyone |
| GameService.InitiativeStable | apps/api/src/application/game_service.rs:168 | participants with equal rolls keep their listed order |
| GameService.StartSetsTurnOrder | apps/api/src/application/game_service.rs:145-183 | starting sets ACTIVE, the turn order to the initiative order and the current turn to its head |
| GameService.StartNeedsParticipants | apps/api/src/application/game_service.rs:147-150 | starting a game without participants fails |
| GameService.EndTurnAdvances | apps/api/src/application/game_service.rs:259-265 | the holder at position i passes the turn to position i + 1, wrapping around |
| GameService.EndTurnOnlyByHolder | apps/api/src/application/game_service.rs:252-260 | only the user holding the turn, listed in the order, can end it |
| GameService.Advance | apps/api/src/application/game_service.rs:262 | repeated `(idx + 1) % len` stays within the order |
| GameService.AdvanceWithin | apps/api/src/application/game_service.rs:262 | before the end of the order, k steps move k places |
| GameService.AdvanceWraps | apps/api/src/application/game_service.rs:262 | past the end, the steps wrap around to the start |
| GameService.TurnsRotate | apps/api/src/application/game_service.rs:248-276 | after k turns the order is unchanged and the turn has moved k places around it |
| GameService.FullRoundReturns | apps/api/src/application/game_service.rs:248-276 | after as many turns as players the turn is back with its holder |
| Sorting.SortByPermutes | apps/api/src/application/game_service.rs:168 | the sort keeps length and multiset of elements and orders them by key |
| Sorting.SortByStable | apps/api/src/application/game_service.rs:168 | elements with equal keys keep their relative order, as Rust's `sort_by` does |
| GameStatus.RoundTrip | apps/api/src/domain/entities.rs:28-51 | parsing a rendered status gives the same status back |
| GameStatus.ToStringInjective | apps/api/src/domain/entities.rs:28-38 | distinct statuses render to distinct strings |
| GameStatus.UnknownIsWaiting | apps/api/src/domain/entities.rs:41-50 | any string other than the four named ones parses as WAITING |
| GameStatus.FromStringNonWaiting | apps/api/src/domain/entities.rs:41-50 | parsing gives a status other than WAITING exactly for "ACTIVE", "PAUSED", "FINISHED" and "CANCELLED" |
| GameStatus.DefaultArmExamples | apps/api/src/domain/entities.rs:48 | "WAITING" and the lower-case "active" both reach WAITING through the default arm |
| BoardConfig.GetSpace | apps/api/src/infrastructure/board_config.rs:74-77 | the space returned is a table entry whose index is the position taken Euclidean modulo 40 |
| BoardConfig.TableIndexed | apps/api/src/infrastructure/board_config.rs:24-72 | the table has forty entries and entry k describes space k |
| BoardConfig.GetSpacePeriodic | apps/api/src/infrastructure/board_config.rs:75 | moving a whole lap lands on the same space |
| BoardConfig.GetSpaceNegative | apps/api/src/infrastructure/board_config.rs:75 | position -1 is space 39, "El Muelle", and -40 is space 0 |
| BoardConfig.Corners | apps/api/src/infrastructure/board_config.rs:26-62 | a space is a corner exactly when it is 0, 10, 20 or 30 |
| BoardConfig.Railroads | apps/api/src/infrastructure/board_config.rs:31-67 | a space is a railroad exactly when it is 5, 15, 25 or 35, each priced 200 |
| BoardConfig.StreetsAndDraws | apps/api/src/infrastructure/board_config.rs:26-71 | every street has a colour group and a price; chance and community-chest spaces have neither |
| DiceService.SumBounds | apps/api/src/application/dice_service.rs:25-29 | dice each showing 1 to `sides` sum to between their count and count times `sides` |
| DiceService.RollDice | apps/api/src/application/dice_service.rs:19-31 | `count` results (none for a non-positive count), each in 1..=sides, whose sum is the total; an empty range panics exactly when a die is drawn with fewer than one side |
| DiceService.TotalBounds | apps/api/src/application/dice_service.rs:28-30 | the reported total lies between `count` and `count * sides` |
| BoardSpaces.JsRem40 | apps/web/utils/boardSpaces.ts:45 | JavaScript's `index % 40` lies strictly between -40 and 40, agrees with the Euclidean remainder on non-negative numbers, and is non-positive (zero exactly on whole laps) on negative ones |
| Base.NatToString | apps/web/utils/boardSpaces.ts:45 | the decimal rendering used in the `Square ${index}` fallback and in the sender error is never empty, and has two digits or more from 10 up |
| Base.NatToStringInjective | apps/api/src/infrastructure/postgres/transaction_repository.rs:105 | distinct numbers render differently, so a message that embeds an id names that id |
| BoardSpaces.TableIndexed | apps/web/utils/boardSpaces.ts:1-42 | the client table has forty entries and entry k describes space k |
| BoardSpaces.NameOnBoard | apps/web/utils/boardSpaces.ts:44-46 | a position on the board is named by its table entry |
| BoardSpaces.NamePeriodic | apps/web/utils/boardSpaces.ts:45 | a non-negative position a whole lap further on has the same name |
| BoardSpaces.NegativeFallsBack | apps/web/utils/boardSpaces.ts:45 | a negative position that is not a whole lap falls through to "Square -n" |
| BoardSpaces.NegativeWholeLaps | apps/web/utils/boardSpaces.ts:45 | a negative whole number of laps is named "Salida", since -0 indexes entry 0 |
| BoardSpaces.NamesAgreeWithServer | apps/web/utils/boardSpaces.ts:1-42 | every client space carries the same name as the server's table entry at that index |
| GameBoardGrid.OnTheBorder | apps/web/components/GameBoard.tsx:27-48 | every board index lands on the border of the 11 x 11 grid |
| GameBoardGrid.Injective | apps/web/components/GameBoard.tsx:27-48 | no two board indices share a cell |
| GameBoardGrid.CoversBorder | apps/web/components/GameBoard.tsx:27-48 | every border cell holds some board index |
| GameBoardGrid.Corners | apps/web/components/GameBoard.tsx:28-47 | indices 0, 10, 20 and 30 sit at the bottom-right, bottom-left, top-left and top-right corners |
| GameBoardGrid.StepIsAdjacent | apps/web/components/GameBoard.tsx:27-48 | consecutive indices, 39 to 0 included, are side by side |
| GameBoardGrid.OutOfRange | apps/web/components/GameBoard.tsx:49 | any index outside 0..39 is drawn in the top-left cell |
| Formatters.Count | apps/web/utils/formatters.ts:25-26 | the number of occurrences is zero exactly when the character is absent, and at most the length |
| Formatters.FirstIndex | apps/web/utils/formatters.ts:15 | the position of the first occurrence, the one `replace` with a string pattern edits |
| Formatters.Split | apps/web/utils/formatters.ts:25 | `split(' ')` yields at least one part and no part holds the separator |
| Formatters.ParseServerDate | apps/web/utils/formatters.ts:3-43 | falsy inputs (null, undefined, 0, the empty string, NaN) give null; other numbers are returned as they are; other types give null; text is normalised and then handed to the `Date` parser |
| Formatters.FirstAfter | apps/web/utils/formatters.ts:15-25 | with no separator before it, the first separator is found at its position; `replace` edits it and `split` cuts there |
| Formatters.SplitJoin | apps/web/utils/formatters.ts:25 | joining the parts with the separator gives the text back, and there is one part more than separators |
| Formatters.ReplaceFirstCount | apps/web/utils/formatters.ts:15 | replacing the first separator by text without one removes exactly one separator |
| Formatters.NonSqlUnchanged | apps/web/utils/formatters.ts:14 | text not starting with `YYYY-MM-DD` and a whitespace character reaches the parser unchanged |
| Formatters.SplitNeedsThreeSpaces | apps/web/utils/formatters.ts:14-37 | with at most two spaces, the split rebuild changes nothing beyond the two `replace` calls |
| Formatters.EditsSuffice | apps/web/utils/formatters.ts:15-37 | once the two `replace` calls leave no space, their result is what reaches the parser |
| Formatters.TwoEdits | apps/web/utils/formatters.ts:15 | the two `replace` calls turn the first space into `T` and delete the second |
| Formatters.SqlWithOffset | apps/web/utils/formatters.ts:10-15 | "date time offset" becomes "dateTtimeoffset", the ISO form |
| Formatters.SqlWithoutOffset | apps/web/utils/formatters.ts:14-15 | "date time" becomes "dateTtime", without the `Z` the split branch would add |
| Formatters.ServerExample | apps/web/utils/formatters.ts:10-11 | "2026-01-04 22:30:58.641961 +00:00" becomes "2026-01-04T22:30:58.641961+00:00" |
| Formatters.ThirdSpaceSplits | apps/web/utils/formatters.ts:15-37 | with a third space the split rebuild runs and inserts a second `T` and a trailing `Z` |
| BankTracker.Payouts | apps/web/components/BankTracker.tsx:31-34 | exactly the transactions from the bank to a player |
| BankTracker.Payins | apps/web/components/BankTracker.tsx:35-38 | exactly the transactions from a player to the bank |
| BankTracker.CalculateBalance | apps/web/components/BankTracker.tsx:16-42 | the balance is 20580, less every payout, plus every pay-in |
| BankTracker.ReserveSnoc | apps/web/components/BankTracker.tsx:30-39 | one more transaction moves the reserve by its own effect and no more |
| BankTracker.NetAppend | apps/web/components/BankTracker.tsx:30-39 | the effects of two batches of transactions add up |
| BankTracker.ReserveIsNet | apps/web/components/BankTracker.tsx:27-42 | the reserve is 20580 plus the sum of each transaction's signed effect |
| BankTracker.PlayerToPlayerIgnored | apps/web/components/BankTracker.tsx:32-38 | transactions between two players, or with no side set, leave the reserve alone |
| BankTracker.ReserveOrderIndependent | apps/web/components/BankTracker.tsx:27-42 | the reserve does not depend on the order the transactions arrive in |
| BankTracker.NetPermutation | apps/web/components/BankTracker.tsx:30-39 | the summed effect is the same for any reordering |
| BankTracker.BankOnly | apps/web/components/BankTracker.tsx:48 | exactly the transactions with the bank on at least one side |
| BankTracker.BankLogsShape | apps/web/components/BankTracker.tsx:47-50 | the log holds the first three bank transactions (or all, if fewer), each from the input and involving the bank, newest first |
| BankTracker.BankLogsNewest | apps/web/components/BankTracker.tsx:47-50 | a bank transaction missing from the log means three are shown, and it is no newer than the third |
| PropertyDialog.OfColor | apps/web/components/PropertyManagerDialog.tsx:26-31 | exactly the catalog's properties of the colour |
| PropertyDialog.Find | apps/web/components/PropertyManagerDialog.tsx:42 | a definition with the id from the catalog, and none exactly when no definition has that id |
| PropertyDialog.Eligible | apps/web/components/PropertyManagerDialog.tsx:41-44 | exactly the rows whose definition has a colour that is one of the player's monopolies |
| PropertyDialog.GroupOwned | apps/web/components/PropertyManagerDialog.tsx:116-120 | exactly the player's rows whose definition has the colour |
| PropertyDialog.Levels | apps/web/components/PropertyManagerDialog.tsx:122 | each row's building count, a hotel counting as five |
| PropertyDialog.Min | apps/web/components/PropertyManagerDialog.tsx:123 | `Math.min` of a non-empty list is a member no greater than any other |
| PropertyDialog.Max | apps/web/components/PropertyManagerDialog.tsx:124 | `Math.max` of a non-empty list is a member no smaller than any other |
| PropertyDialog.GroupByColorGroups | apps/web/components/PropertyManagerDialog.tsx:26-31 | the grouping has a key for each non-empty colour in the catalog, holding that colour's properties in catalog order |
| PropertyDialog.MonopolyIff | apps/web/components/PropertyManagerDialog.tsx:26-38 | a colour is a monopoly exactly when it is named, is neither UTILITY nor STATION, has a property, and the player owns all of them |
| PropertyDialog.BuildableList | apps/web/components/PropertyManagerDialog.tsx:41-52 | the list holds the player's rows in a monopoly, as often as listed, ordered by board position |
| PropertyDialog.BuildEnabledIff | apps/web/components/PropertyManagerDialog.tsx:115-156 | buying is enabled exactly when nothing is pending, the row has no hotel, nothing in the group is mortgaged, and no row of the group has fewer buildings |
| PropertyDialog.SellEnabledIff | apps/web/components/PropertyManagerDialog.tsx:115-143 | selling is enabled exactly when nothing is pending, the row has a building, nothing in the group is mortgaged, and no row of the group has more buildings |
| PropertyDialog.LowestCanBuild | apps/web/components/PropertyManagerDialog.tsx:122-156 | in an unmortgaged group with some row short of a hotel, some row can be built on |
| PropertyDialog.HighestCanSell | apps/web/components/PropertyManagerDialog.tsx:122-143 | in an unmortgaged group with a building somewhere, some row can be sold from |
| PropertyDialog.EvenBuildStaysEven | apps/web/components/PropertyManagerDialog.tsx:123-131 | building where the button allows keeps every two rows of a group within one building of each other |
| PropertyDialog.NextCostIsNextBuilding | apps/web/components/PropertyManagerDialog.tsx:84-90 | the cost shown is the hotel's exactly when the next building is the fifth |

## Left out

- Row locks, isolation levels and commit/rollback: concurrency is not modelled, and each repository method is one atomic step.
- Broadcast events (`TransactionCreated`, `DiceRolled` and the rest), WebSocket fan-out, HTTP handlers, authentication, `user_service.rs`, `roulette_service.rs` and `special_dice_service.rs`: plumbing with no game arithmetic.
- `join_game_with_code`, `delete_game`, `update_participant_position` and the `get_*`/`find_*` read-throughs of the services: lookups with no logic beyond the repository query.
- "Game not found" paths: one game is modelled and its id is implicit.
- Card descriptions and `card.rs`'s references to `discard_card`, `get_all_inventories` and `execute_special_action`: those operations are not part of the card service modelled.
- `formatCurrency` in apps/web/utils/formatters.ts: it is a call into `Intl.NumberFormat`.
- TransactionRepository.SenderNotFound: ids are numbers here, so the missing sender is rendered in decimal where the source prints a UUID.
- TransactionService.Transfer: the El Banco side record is spawned as a detached task in the source. Here it is written just before the primary transfer and its outcome is ignored, so interleavings of the two writes are not modelled.
- TransactionService.Transfer: a failing holder lookup is treated like "no holder", as the source's `if let Ok(Some(..))` does. The lookup's choice among several holders is a parameter, since its query has no ORDER BY.
- PropertyRepository.Ownership.AssignProperty: requires the property to be unowned. The table has no such constraint, but every caller checks this (`buy_property`) or deletes first (`end_auction`), and the model keeps one row per property as an invariant.
- PropertyRepository.Ownership.DeleteOwnership: `delete_ownership` is called by `end_auction` but is not in property_repository.rs. It is modelled as deleting every row of the property.
- TransactionRepository.Ledger.AddParticipant: requires the user not to be in the game yet, which `join_game` checks before inserting.
- GameService.JoinGame: returns the new participant id. The source returns the inserted record, whose balance still reads 0 from before the funding.
- GameService.UpdateGame: the participants' listing order, which decides the order of equal rolls, is a parameter, since the participant query `find_by_game_id` has no ORDER BY. The initiative sort is a function on sequences, not an in-place sort.
- GameService.GenerateCode: the four characters are any upper-case letters or digits. The distribution of `Alphanumeric` is not modelled, and neither is the uniqueness of codes across games.
- DiceService.RollDice: `total` is an unbounded integer, so the `i32` overflow of very large rolls is not modelled.
- BankTracker.CalculateBalance: amounts are integers, whereas the client uses floating-point `Number(tx.amount)`, so rounding is not modelled.
- Formatters.ParseServerDate: the `Date` parser is a parameter. The guard regex accepts any JavaScript whitespace after the date, but `replace(' ', …)` and `split(' ')` act only on the space character, and the model keeps that difference.
- PropertyDialog: a missing `board_position` is 0, as `|| 0` makes it, and a missing or empty colour is the empty string, which never forms a group.
- Trade property lists that are NULL in the database are treated as empty lists.
