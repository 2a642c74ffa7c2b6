/**
 * `AuctionService` (apps/api/src/application/auction_service.rs): the bank
 * auctions a property. An auction starts ACTIVE at a bid of 10 with no
 * bidder; each accepted bid is higher than the last and affordable by the
 * bidder; ending it charges the winner through `TransactionService.Transfer`,
 * hands the property to the winner as a fresh unmortgaged row without
 * buildings, and marks the auction FINISHED, which no operation leaves.
 * The auction table is kept as a map from auction id to record; the clock
 * reading stamped into `ends_at` is a parameter.
 */
module AuctionService {
  import opened Base
  import opened TransactionRepository
  import opened CardRepository
  import opened PropertyRepository
  import opened TransactionService

  type AuctionId = nat

  const Active: string := "ACTIVE"
  const Finished: string := "FINISHED"
  const OpeningBid: Money := 10.0

  const AlreadyActive: string := "There is already an active auction"
  const AuctionNotFound: string := "Auction not found"
  const BidNotActive: string := "Auction is not active"
  const EndNotActive: string := "Auction not active"
  const ParticipantNotFound: string := "Participant not found"
  const BidTooLow: string := "Bid must be higher than current"
  const InsufficientFunds: string := "Insufficient funds for this bid"
  const WonAuction: string := "Won Auction"

  datatype Auction = Auction(property: PropId, currentBid: Money, highestBidder: Option<Pid>, status: string, endsAt: Option<int>)

  datatype AuctionState = AuctionState(auctions: map<AuctionId, Auction>, nextAuction: AuctionId)

  datatype Outcome = Outcome(auctions: AuctionState, ledger: LedgerState, ownership: OwnershipState, result: Result<Auction>)

  ghost predicate IdsFresh(s: AuctionState) {
    forall id :: id in s.auctions ==> id < s.nextAuction
  }

  predicate HasActive(auctions: map<AuctionId, Auction>) {
    exists id :: id in auctions && auctions[id].status == Active
  }

  /** The service's intent: one auction at a time per game. */
  predicate AtMostOneActive(auctions: map<AuctionId, Auction>) {
    forall i, j :: i in auctions && j in auctions && auctions[i].status == Active && auctions[j].status == Active ==> i == j
  }

  /** `start_auction`. */
  function AfterStart(s: AuctionState, prop: PropId): (AuctionState, Result<Auction>) {
    if HasActive(s.auctions) then (s, Err(AlreadyActive))
    else
      var a := Auction(prop, OpeningBid, None, Active, None);
      (AuctionState(s.auctions[s.nextAuction := a], s.nextAuction + 1), Ok(a))
  }

  /** `place_bid`. */
  ghost function AfterBid(s: AuctionState, L: LedgerState, id: AuctionId, user: Uid, amount: Money): (AuctionState, Result<Auction>) {
    if id !in s.auctions then (s, Err(AuctionNotFound))
    else
      var a := s.auctions[id];
      if a.status != Active then (s, Err(BidNotActive))
      else match ParticipantOf(L.participants, user)
        case None => (s, Err(ParticipantNotFound))
        case Some(bidder) =>
          if amount <= a.currentBid then (s, Err(BidTooLow))
          else if L.participants[bidder].balance < amount then (s, Err(InsufficientFunds))
          else
            var a' := a.(currentBid := amount, highestBidder := Some(bidder));
            (s.(auctions := s.auctions[id := a']), Ok(a'))
  }

  /**
   * `end_auction`. A failed charge (the winner has left the game) returns its
   * error with the auction still ACTIVE; the El Banco side record it may have
   * written stays.
   */
  ghost function AfterEnd(s: AuctionState, L: LedgerState, O: OwnershipState, holder: Option<Pid>, id: AuctionId, now: int): Outcome {
    if id !in s.auctions then Outcome(s, L, O, Err(AuctionNotFound))
    else
      var a := s.auctions[id];
      if a.status != Active then Outcome(s, L, O, Err(EndNotActive))
      else
        var a' := a.(status := Finished, endsAt := Some(now));
        var s' := s.(auctions := s.auctions[id := a']);
        match a.highestBidder
        case None => Outcome(s', L, O, Ok(a'))
        case Some(winner) =>
          var (L1, t) := AfterServiceTransfer(L, holder, Some(winner), None, a.currentBid, Some(WonAuction));
          if t.Err? then Outcome(s, L1, O, Err(t.msg))
          else
            var rows := WithoutProperty(O.rows, a.property);
            var O1 := OwnershipState(rows[O.nextRow := OwnedRow(winner, a.property, false, 0, 0)], O.nextRow + 1);
            Outcome(s', L1, O1, Ok(a'))
  }

  /** The auctions table. */
  class Auctions {
    var auctions: map<AuctionId, Auction>
    var nextAuction: AuctionId

    ghost function State(): AuctionState
      reads this
    {
      AuctionState(auctions, nextAuction)
    }

    ghost predicate Valid()
      reads this
    {
      IdsFresh(State())
    }

    constructor ()
      ensures Valid() && auctions == map[]
    {
      auctions := map[];
      nextAuction := 0;
    }

    /** `find_active_by_game`: some ACTIVE auction, if there is one. */
    method FindActive() returns (r: Option<AuctionId>)
      ensures r.Some? ==> r.value in auctions && auctions[r.value].status == Active
      ensures r.None? <==> !HasActive(auctions)
    {
      if HasActive(auctions) {
        var id :| id in auctions && auctions[id].status == Active;
        r := Some(id);
      } else {
        r := None;
      }
    }

    /** `create`: the record under a fresh id. */
    method Create(a: Auction) returns (id: AuctionId)
      requires Valid()
      modifies this
      ensures Valid()
      ensures id == old(nextAuction) && auctions == old(auctions)[id := a] && nextAuction == id + 1
    {
      id := nextAuction;
      auctions := auctions[id := a];
      nextAuction := nextAuction + 1;
    }

    /** `update` of a record that exists. */
    method Update(id: AuctionId, a: Auction)
      requires Valid() && id in auctions
      modifies this
      ensures Valid()
      ensures auctions == old(auctions)[id := a] && nextAuction == old(nextAuction)
    {
      auctions := auctions[id := a];
    }
  }

  method StartAuction(table: Auctions, prop: PropId) returns (r: Result<Auction>)
    requires table.Valid()
    modifies table
    ensures table.Valid()
    ensures (table.State(), r) == AfterStart(old(table.State()), prop)
  {
    var active := table.FindActive();
    if active.Some? {
      return Err(AlreadyActive);
    }
    var a := Auction(prop, OpeningBid, None, Active, None);
    var _ := table.Create(a);
    r := Ok(a);
  }

  method PlaceBid(table: Auctions, ledger: Ledger, id: AuctionId, user: Uid, amount: Money) returns (r: Result<Auction>)
    requires table.Valid() && ledger.Valid()
    modifies table
    ensures table.Valid()
    ensures (table.State(), r) == AfterBid(old(table.State()), ledger.State(), id, user, amount)
  {
    if id !in table.auctions {
      return Err(AuctionNotFound);
    }
    var auction := table.auctions[id];
    if auction.status != Active {
      return Err(BidNotActive);
    }
    var bidder := ledger.FindParticipant(user);
    if bidder.None? {
      return Err(ParticipantNotFound);
    }
    if amount <= auction.currentBid {
      return Err(BidTooLow);
    }
    if ledger.participants[bidder.value].balance < amount {
      return Err(InsufficientFunds);
    }
    auction := auction.(currentBid := amount, highestBidder := Some(bidder.value));
    table.Update(id, auction);
    r := Ok(auction);
  }

  method EndAuction(table: Auctions, ledger: Ledger, cards: CardTables, owners: Ownership, id: AuctionId, now: int)
    returns (r: Result<Auction>, ghost holder: Option<Pid>)
    requires table.Valid() && ledger.Valid() && owners.Valid()
    modifies table, ledger, owners
    ensures table.Valid() && ledger.Valid() && owners.Valid()
    ensures IsOwnerOfTitle(cards.State(), old(ledger.participants).Keys, ElBancoTitle, holder)
    ensures Outcome(table.State(), ledger.State(), owners.State(), r) ==
            AfterEnd(old(table.State()), old(ledger.State()), old(owners.State()), holder, id, now)
  {
    holder := SomeOwnerOfTitle(cards.State(), ledger.participants.Keys, ElBancoTitle);
    if id !in table.auctions {
      return Err(AuctionNotFound), holder;
    }
    var auction := table.auctions[id];
    if auction.status != Active {
      return Err(EndNotActive), holder;
    }
    if auction.highestBidder.Some? {
      var winner := auction.highestBidder.value;
      var t, h := Transfer(ledger, cards, Some(winner), None, auction.currentBid, Some(WonAuction));
      holder := h;
      if t.Err? {
        return Err(t.msg), holder;
      }
      owners.DeleteOwnership(auction.property);
      DeleteLeavesUnowned(old(owners.rows), auction.property);
      var _ := owners.AssignProperty(OwnedRow(winner, auction.property, false, 0, 0));
    }
    auction := auction.(status := Finished, endsAt := Some(now));
    table.Update(id, auction);
    r := Ok(auction);
  }

  // ---- Properties of the auction state machine ----

  /** `start_auction` fails exactly when an auction is active; otherwise it opens one at 10 with no bidder. */
  lemma StartOpensAuction(s: AuctionState, prop: PropId)
    requires IdsFresh(s)
    ensures var (s', r) := AfterStart(s, prop);
            (r.Err? <==> HasActive(s.auctions)) &&
            (r.Ok? ==> s.nextAuction !in s.auctions && s'.auctions == s.auctions[s.nextAuction := r.value] &&
                       r.value.property == prop && r.value.currentBid == 10.0 &&
                       r.value.highestBidder.None? && r.value.status == Active && r.value.endsAt.None?)
  {
  }

  /**
   * A bid is accepted exactly when the auction is active, the bidder plays in
   * the game, the amount beats the current bid and the bidder can afford it;
   * the accepted bid then becomes the current one, so bids strictly rise.
   */
  lemma BidAccepted(s: AuctionState, L: LedgerState, id: AuctionId, user: Uid, amount: Money)
    ensures var (s', r) := AfterBid(s, L, id, user, amount);
            (r.Ok? <==> id in s.auctions && s.auctions[id].status == Active && ParticipantOf(L.participants, user).Some? &&
                        amount > s.auctions[id].currentBid && L.participants[ParticipantOf(L.participants, user).value].balance >= amount) &&
            (r.Ok? ==> s'.auctions[id].currentBid == amount > s.auctions[id].currentBid &&
                       s'.auctions[id].highestBidder == ParticipantOf(L.participants, user) &&
                       s'.auctions[id].status == Active && s'.auctions[id].property == s.auctions[id].property) &&
            (r.Err? ==> s' == s)
  {
  }

  /** A finished auction takes no bid and cannot be ended again: FINISHED is terminal. */
  lemma FinishedIsTerminal(s: AuctionState, L: LedgerState, O: OwnershipState, holder: Option<Pid>, id: AuctionId,
                           user: Uid, amount: Money, now: int)
    requires id in s.auctions && s.auctions[id].status == Finished
    ensures AfterBid(s, L, id, user, amount) == (s, Err(BidNotActive))
    ensures AfterEnd(s, L, O, holder, id, now) == Outcome(s, L, O, Err(EndNotActive))
  {
  }

  /** A successful `end_auction` finishes the auction at `now`, keeping its bid, bidder and property. */
  lemma EndFinishes(s: AuctionState, L: LedgerState, O: OwnershipState, holder: Option<Pid>, id: AuctionId, now: int)
    ensures var out := AfterEnd(s, L, O, holder, id, now);
            out.result.Ok? ==>
              id in s.auctions && s.auctions[id].status == Active &&
              out.auctions.auctions == s.auctions[id := s.auctions[id].(status := Finished, endsAt := Some(now))] &&
              out.result.value == out.auctions.auctions[id]
  {
  }

  /** Without a bidder, ending the auction moves no money and no property. */
  lemma NoBidderNoSettlement(s: AuctionState, L: LedgerState, O: OwnershipState, holder: Option<Pid>, id: AuctionId, now: int)
    requires id in s.auctions && s.auctions[id].highestBidder.None?
    ensures AfterEnd(s, L, O, holder, id, now).ledger == L
    ensures AfterEnd(s, L, O, holder, id, now).ownership == O
  {
  }

  /**
   * With a winner still in the game and no El Banco holder, the winner pays
   * the current bid into the jackpot, with no second balance check, and
   * becomes the only owner of the property, on a fresh row without mortgage
   * or buildings; the other properties' rows are kept.
   */
  lemma WinnerSettles(s: AuctionState, L: LedgerState, O: OwnershipState, id: AuctionId, now: int)
    requires PropertyRepository.Wf(O)
    requires id in s.auctions && s.auctions[id].status == Active && s.auctions[id].highestBidder.Some?
    requires s.auctions[id].highestBidder.value in L.participants
    ensures var a := s.auctions[id];
            var w := a.highestBidder.value;
            var out := AfterEnd(s, L, O, None, id, now);
            out.result.Ok? &&
            out.ledger.participants[w].balance == L.participants[w].balance - a.currentBid &&
            out.ledger.jackpot == L.jackpot + a.currentBid &&
            out.ownership.rows[O.nextRow] == OwnedRow(w, a.property, false, 0, 0) &&
            RowOf(out.ownership.rows, a.property) == Some(O.nextRow) &&
            PropertyRepository.Wf(out.ownership) &&
            forall r :: r in O.rows && O.rows[r].property != a.property ==> r in out.ownership.rows && out.ownership.rows[r] == O.rows[r]
  {
    var a := s.auctions[id];
    var out := AfterEnd(s, L, O, None, id, now);
    DeleteLeavesUnowned(O.rows, a.property);
    assert !IsOwned(WithoutProperty(O.rows, a.property), a.property);
    RowOfUnique(out.ownership.rows, O.nextRow);
  }

  /** Starting, bidding and ending all keep at most one auction ACTIVE. */
  lemma OneActiveKept(s: AuctionState, L: LedgerState, O: OwnershipState, holder: Option<Pid>, id: AuctionId,
                      prop: PropId, user: Uid, amount: Money, now: int)
    requires IdsFresh(s) && AtMostOneActive(s.auctions)
    ensures AtMostOneActive(AfterStart(s, prop).0.auctions)
    ensures AtMostOneActive(AfterBid(s, L, id, user, amount).0.auctions)
    ensures AtMostOneActive(AfterEnd(s, L, O, holder, id, now).auctions.auctions)
  {
  }
}
