/**
 * `TradeService` (apps/api/src/application/trade_service.rs): a trade offers
 * cash and properties from its initiator against cash and properties of its
 * target. Accepting it, which only the target may do while it is PENDING,
 * runs four legs in sequence: the offered cash, the requested cash, the
 * offered properties, the requested properties. Then it marks the trade
 * ACCEPTED. A failing leg returns its error with the earlier legs applied
 * and the trade still PENDING. Rejecting sets REJECTED with no check at all.
 * A missing property list is modelled as the empty list.
 */
module TradeService {
  import opened Base
  import opened TransactionRepository
  import opened CardRepository
  import opened PropertyRepository
  import opened TransactionService

  type TradeId = nat

  const Pending: string := "PENDING"
  const Accepted: string := "ACCEPTED"
  const Rejected: string := "REJECTED"

  const TradeNotFound: string := "Trade not found"
  const NotPending: string := "Trade is not pending"
  const ParticipantNotFound: string := "Participant not found"
  const NotTheTarget: string := "You are not the target of this trade"
  const TradeCash: string := "Trade Cash"

  datatype Trade = Trade(
    initiator: Pid,
    target: Pid,
    offerCash: Money,
    offerProperties: seq<PropId>,
    requestCash: Money,
    requestProperties: seq<PropId>,
    status: string)

  datatype TradeState = TradeState(trades: map<TradeId, Trade>, nextTrade: TradeId)

  datatype Outcome = Outcome(trades: TradeState, ledger: LedgerState, ownership: OwnershipState, result: Result<Trade>)

  ghost predicate IdsFresh(s: TradeState) {
    forall id :: id in s.trades ==> id < s.nextTrade
  }

  /** The `for prop_id in props` loop of `transfer_property` calls, one property after the other. */
  function TransferAll(rows: map<RowId, OwnedRow>, props: seq<PropId>, owner: Pid): map<RowId, OwnedRow>
    decreases |props|
  {
    if props == [] then rows else TransferAll(Transferred(rows, props[0], owner), props[1..], owner)
  }

  /** The two cash legs: each paid only when positive, the first one able to fail. */
  ghost function CashLegs(L: LedgerState, t: Trade): (LedgerState, Result<()>) {
    var (L1, r1) := if t.offerCash > 0.0 then AfterTransfer(L, Transaction(Some(t.initiator), Some(t.target), t.offerCash, Some(TradeCash)))
                    else (L, Ok(0));
    if r1.Err? then (L1, Err(r1.msg))
    else
      var L2 := if t.requestCash > 0.0 then AfterTransfer(L1, Transaction(Some(t.target), Some(t.initiator), t.requestCash, Some(TradeCash))).0
                else L1;
      (L2, Ok(()))
  }

  /** `accept_trade`. */
  ghost function AfterAccept(s: TradeState, L: LedgerState, O: OwnershipState, id: TradeId, user: Uid): Outcome {
    if id !in s.trades then Outcome(s, L, O, Err(TradeNotFound))
    else
      var t := s.trades[id];
      if t.status != Pending then Outcome(s, L, O, Err(NotPending))
      else match ParticipantOf(L.participants, user)
        case None => Outcome(s, L, O, Err(ParticipantNotFound))
        case Some(p) =>
          if t.target != p then Outcome(s, L, O, Err(NotTheTarget))
          else
            var (L1, cash) := CashLegs(L, t);
            if cash.Err? then Outcome(s, L1, O, Err(cash.msg))
            else
              var rows := TransferAll(TransferAll(O.rows, t.offerProperties, t.target), t.requestProperties, t.initiator);
              var t' := t.(status := Accepted);
              Outcome(s.(trades := s.trades[id := t']), L1, O.(rows := rows), Ok(t'))
  }

  /** `reject_trade`. */
  function AfterReject(s: TradeState, id: TradeId): (TradeState, Result<Trade>) {
    if id !in s.trades then (s, Err(TradeNotFound))
    else
      var t' := s.trades[id].(status := Rejected);
      (s.(trades := s.trades[id := t']), Ok(t'))
  }

  /** The trades table. */
  class Trades {
    var trades: map<TradeId, Trade>
    var nextTrade: TradeId

    ghost function State(): TradeState
      reads this
    {
      TradeState(trades, nextTrade)
    }

    ghost predicate Valid()
      reads this
    {
      IdsFresh(State())
    }

    constructor ()
      ensures Valid() && trades == map[]
    {
      trades := map[];
      nextTrade := 0;
    }

    /** `create_trade`: a plain insert under a fresh id. */
    method Create(t: Trade) returns (id: TradeId)
      requires Valid()
      modifies this
      ensures Valid()
      ensures id == old(nextTrade) && id !in old(trades) && trades == old(trades)[id := t] && nextTrade == id + 1
    {
      id := nextTrade;
      trades := trades[id := t];
      nextTrade := nextTrade + 1;
    }

    /** `update`: writes only the status. */
    method SetStatus(id: TradeId, status: string) returns (t: Trade)
      requires Valid() && id in trades
      modifies this
      ensures Valid()
      ensures t == old(trades)[id].(status := status)
      ensures trades == old(trades)[id := t] && nextTrade == old(nextTrade)
    {
      t := trades[id].(status := status);
      trades := trades[id := t];
    }
  }

  /** Transfers each listed property to the owner, in order. */
  method TransferEach(owners: Ownership, props: seq<PropId>, owner: Pid)
    requires owners.Valid()
    modifies owners
    ensures owners.Valid()
    ensures owners.rows == TransferAll(old(owners.rows), props, owner) && owners.nextRow == old(owners.nextRow)
  {
    var i := 0;
    while i < |props|
      invariant 0 <= i <= |props|
      invariant owners.Valid() && owners.nextRow == old(owners.nextRow)
      invariant TransferAll(owners.rows, props[i..], owner) == TransferAll(old(owners.rows), props, owner)
    {
      assert props[i..][1..] == props[i + 1..];
      owners.TransferProperty(props[i], owner);
      i := i + 1;
    }
  }

  method AcceptTrade(table: Trades, ledger: Ledger, cards: CardTables, owners: Ownership, id: TradeId, user: Uid)
    returns (r: Result<Trade>)
    requires table.Valid() && ledger.Valid() && owners.Valid()
    modifies table, ledger, owners
    ensures table.Valid() && ledger.Valid() && owners.Valid()
    ensures Outcome(table.State(), ledger.State(), owners.State(), r) ==
            AfterAccept(old(table.State()), old(ledger.State()), old(owners.State()), id, user)
  {
    if id !in table.trades {
      return Err(TradeNotFound);
    }
    var trade := table.trades[id];
    if trade.status != Pending {
      return Err(NotPending);
    }
    var me := ledger.FindParticipant(user);
    if me.None? {
      return Err(ParticipantNotFound);
    }
    if trade.target != me.value {
      return Err(NotTheTarget);
    }
    if trade.offerCash > 0.0 {
      ghost var L0 := ledger.State();
      var t, h := Transfer(ledger, cards, Some(trade.initiator), Some(trade.target), trade.offerCash, Some(TradeCash));
      OnlyBankPaymentsRouted(L0, h, Some(trade.initiator), Some(trade.target), trade.offerCash, Some(TradeCash));
      if t.Err? {
        return Err(t.msg);
      }
    }
    if trade.requestCash > 0.0 {
      // the target was just found among the participants, so this leg cannot fail
      ghost var L0 := ledger.State();
      var _, h := Transfer(ledger, cards, Some(trade.target), Some(trade.initiator), trade.requestCash, Some(TradeCash));
      OnlyBankPaymentsRouted(L0, h, Some(trade.target), Some(trade.initiator), trade.requestCash, Some(TradeCash));
    }
    TransferEach(owners, trade.offerProperties, trade.target);
    TransferEach(owners, trade.requestProperties, trade.initiator);
    var accepted := table.SetStatus(id, Accepted);
    r := Ok(accepted);
  }

  method RejectTrade(table: Trades, id: TradeId) returns (r: Result<Trade>)
    requires table.Valid()
    modifies table
    ensures table.Valid()
    ensures (table.State(), r) == AfterReject(old(table.State()), id)
  {
    if id !in table.trades {
      return Err(TradeNotFound);
    }
    var t := table.SetStatus(id, Rejected);
    r := Ok(t);
  }

  // ---- Properties of trade settlement ----

  /** The property loop gives every listed property's row to the owner and leaves every other row as it was. */
  lemma {:induction false} TransferAllEffect(rows: map<RowId, OwnedRow>, props: seq<PropId>, owner: Pid)
    ensures TransferAll(rows, props, owner).Keys == rows.Keys
    ensures forall id :: id in rows ==>
              TransferAll(rows, props, owner)[id] == if rows[id].property in props then rows[id].(participant := owner) else rows[id]
    decreases |props|
  {
    if props != [] {
      var rows1 := Transferred(rows, props[0], owner);
      TransferAllEffect(rows1, props[1..], owner);
      forall id | id in rows
        ensures TransferAll(rows, props, owner)[id] == if rows[id].property in props then rows[id].(participant := owner) else rows[id]
      {
        assert rows1[id].property == rows[id].property;
        assert rows[id].property in props <==> rows[id].property == props[0] || rows[id].property in props[1..] by {
          assert props == [props[0]] + props[1..];
        }
      }
    }
  }

  /** Only the target accepts, and only a PENDING trade. */
  lemma AcceptGuards(s: TradeState, L: LedgerState, O: OwnershipState, id: TradeId, user: Uid)
    ensures var out := AfterAccept(s, L, O, id, user);
            out.result.Ok? ==> id in s.trades && s.trades[id].status == Pending &&
                               ParticipantOf(L.participants, user) == Some(s.trades[id].target) &&
                               out.result.value == s.trades[id].(status := Accepted) &&
                               out.trades.trades == s.trades[id := out.result.value]
  {
  }

  /**
   * After an accepted trade every requested property belongs to the
   * initiator, every other offered property to the target, and all other
   * rows are untouched.
   */
  lemma AcceptReassigns(s: TradeState, L: LedgerState, O: OwnershipState, id: TradeId, user: Uid)
    requires AfterAccept(s, L, O, id, user).result.Ok?
    ensures var t := s.trades[id];
            var rows' := AfterAccept(s, L, O, id, user).ownership.rows;
            rows'.Keys == O.rows.Keys &&
            forall r :: r in O.rows ==>
              rows'[r] == if O.rows[r].property in t.requestProperties then O.rows[r].(participant := t.initiator)
                          else if O.rows[r].property in t.offerProperties then O.rows[r].(participant := t.target)
                          else O.rows[r]
  {
    var t := s.trades[id];
    var mid := TransferAll(O.rows, t.offerProperties, t.target);
    TransferAllEffect(O.rows, t.offerProperties, t.target);
    TransferAllEffect(mid, t.requestProperties, t.initiator);
  }

  /**
   * The cash legs of an accepted trade between two different participants:
   * each side pays what it gives when positive, the pair's combined balance
   * and the jackpot do not change, and nobody else's balance moves.
   */
  lemma AcceptCash(s: TradeState, L: LedgerState, O: OwnershipState, id: TradeId, user: Uid)
    requires AfterAccept(s, L, O, id, user).result.Ok?
    requires s.trades[id].initiator != s.trades[id].target && s.trades[id].initiator in L.participants
    ensures var t := s.trades[id];
            var L' := AfterAccept(s, L, O, id, user).ledger;
            var give := if t.offerCash > 0.0 then t.offerCash else 0.0;
            var get := if t.requestCash > 0.0 then t.requestCash else 0.0;
            L'.participants.Keys == L.participants.Keys &&
            L'.participants[t.initiator].balance == L.participants[t.initiator].balance - give + get &&
            L'.participants[t.target].balance == L.participants[t.target].balance + give - get &&
            (forall p :: p in L.participants && p != t.initiator && p != t.target ==> L'.participants[p] == L.participants[p]) &&
            L'.jackpot == L.jackpot
  {
  }

  /** An accepted trade is no longer PENDING, so accepting it again fails. */
  lemma AcceptOnce(s: TradeState, L: LedgerState, O: OwnershipState, id: TradeId, user: Uid, user2: Uid)
    requires AfterAccept(s, L, O, id, user).result.Ok?
    ensures var out := AfterAccept(s, L, O, id, user);
            AfterAccept(out.trades, out.ledger, out.ownership, id, user2).result == Err(NotPending)
  {
  }

  /**
   * When the initiator has left the game, offering cash makes the first leg
   * fail: the error comes back with nothing moved and the trade still PENDING.
   */
  lemma FirstLegFailure(s: TradeState, L: LedgerState, O: OwnershipState, id: TradeId, user: Uid)
    requires id in s.trades && s.trades[id].status == Pending && s.trades[id].offerCash > 0.0
    requires ParticipantOf(L.participants, user) == Some(s.trades[id].target)
    requires s.trades[id].initiator !in L.participants
    ensures AfterAccept(s, L, O, id, user) == Outcome(s, L, O, Err(SenderNotFound(s.trades[id].initiator)))
  {
  }

  /** `reject_trade` checks neither status nor caller: any existing trade, even an accepted one, becomes REJECTED. */
  lemma RejectOverwrites(s: TradeState, id: TradeId)
    requires id in s.trades
    ensures var (s', r) := AfterReject(s, id);
            r == Ok(s.trades[id].(status := Rejected)) && s'.trades[id].status == Rejected &&
            forall other :: other in s.trades && other != id ==> s'.trades[other] == s.trades[other]
  {
  }
}
