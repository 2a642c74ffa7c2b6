/**
 * `TransactionService` (apps/api/src/application/transaction_service.rs): every
 * money movement of the services goes through `Transfer`, which applies the
 * "El Banco" rule before handing the transaction to the ledger. When some
 * participant of the game holds the "El Banco" card and a participant pays the
 * bank, the payment is redirected to the holder, or waived when the holder is
 * the payer; in both cases an extra bank-to-bank record of the original amount
 * is written. The extra record is spawned as a detached task in the source; the
 * model writes it before the primary transfer and ignores its outcome.
 */
module TransactionService {
  import opened Base
  import opened TransactionRepository
  import opened CardRepository

  const BonusNote: string := "El Banco Bonus (Inflation)"
  const OwnerNote: string := "El Banco Owner Payment (Inflation)"

  /** The transaction the ledger executes, and the extra record the rule spawns, if any. */
  datatype Routing = Routing(primary: Transaction, side: Option<Transaction>)

  /** The El Banco rule, given the holder the card lookup found. */
  function Route(holder: Option<Pid>, from: Option<Pid>, to: Option<Pid>, amount: Money, description: Option<string>): Routing {
    if holder.Some? && from.Some? && to.None? then
      if from != holder then
        Routing(Transaction(from, holder, amount, description), Some(Transaction(None, None, amount, Some(BonusNote))))
      else
        Routing(Transaction(from, None, 0.0, description), Some(Transaction(None, None, amount, Some(OwnerNote))))
    else
      Routing(Transaction(from, to, amount, description), None)
  }

  /** `transfer`: the side record first (its result discarded), then the primary transfer, whose result is returned. */
  ghost function AfterServiceTransfer(s: LedgerState, holder: Option<Pid>, from: Option<Pid>, to: Option<Pid>,
                                      amount: Money, description: Option<string>): (LedgerState, Result<TxId>)
  {
    var rt := Route(holder, from, to, amount, description);
    var s1 := if rt.side.Some? then AfterTransfer(s, rt.side.value).0 else s;
    AfterTransfer(s1, rt.primary)
  }

  /**
   * The holder is whichever participant the card lookup reports (any of them
   * when several hold the card); it is returned so callers can state what happened.
   */
  method Transfer(ledger: Ledger, cards: CardTables, from: Option<Pid>, to: Option<Pid>, amount: Money, description: Option<string>)
    returns (r: Result<TxId>, ghost holder: Option<Pid>)
    requires ledger.Valid()
    modifies ledger
    ensures ledger.Valid()
    ensures IsOwnerOfTitle(cards.State(), old(ledger.participants).Keys, ElBancoTitle, holder)
    ensures (ledger.State(), r) == AfterServiceTransfer(old(ledger.State()), holder, from, to, amount, description)
  {
    var owner := cards.FindOwnerOfCardTitle(ledger.participants.Keys, ElBancoTitle);
    holder := owner;
    var finalTo := to;
    var finalAmount := amount;
    if owner.Some? && from.Some? && to.None? {
      var note := BonusNote;
      if from != owner {
        finalTo := owner;
      } else {
        finalAmount := 0.0;
        note := OwnerNote;
      }
      var _ := ledger.ExecuteTransfer(Transaction(None, None, amount, Some(note)));
    }
    r := ledger.ExecuteTransfer(Transaction(from, finalTo, finalAmount, description));
  }

  /** `delete_transaction` hands the id to the ledger unchanged. */
  method DeleteTransaction(ledger: Ledger, id: TxId) returns (r: Result<()>)
    requires ledger.Valid()
    modifies ledger
    ensures ledger.Valid()
    ensures r == Ok(())
    ensures ledger.State() == AfterDelete(old(ledger.State()), id)
  {
    r := ledger.Delete(id);
  }

  /** `claim_jackpot` hands the claim to the ledger unchanged: the El Banco rule does not apply. */
  method ClaimJackpot(ledger: Ledger, user: Uid) returns (r: Result<TxId>)
    requires ledger.Valid()
    modifies ledger
    ensures ledger.Valid()
    ensures (ledger.State(), r) == AfterClaim(old(ledger.State()), user)
  {
    r := ledger.ClaimJackpot(user);
  }

  // ---- Properties of the El Banco rule ----

  /** Without a holder in the game, a transfer is exactly the ledger's. */
  lemma NoHolderPassesThrough(s: LedgerState, from: Option<Pid>, to: Option<Pid>, amount: Money, description: Option<string>)
    ensures AfterServiceTransfer(s, None, from, to, amount, description) ==
            AfterTransfer(s, Transaction(from, to, amount, description))
  {
  }

  /** A transfer from the bank, or from a participant of the game, always succeeds. */
  lemma ServiceTransferSucceeds(s: LedgerState, holder: Option<Pid>, from: Option<Pid>, to: Option<Pid>,
                                amount: Money, description: Option<string>)
    requires from.None? || from.value in s.participants
    ensures AfterServiceTransfer(s, holder, from, to, amount, description).1 == Ok(AfterServiceTransfer(s, holder, from, to, amount, description).0.nextTx - 1)
  {
  }

  /** Only payments from a participant to the bank are rewritten. */
  lemma OnlyBankPaymentsRouted(s: LedgerState, holder: Option<Pid>, from: Option<Pid>, to: Option<Pid>,
                               amount: Money, description: Option<string>)
    requires from.None? || to.Some?
    ensures AfterServiceTransfer(s, holder, from, to, amount, description) ==
            AfterTransfer(s, Transaction(from, to, amount, description))
  {
  }

  /** The rule either rewrites nothing or adds a single bank-to-bank record of the original amount. */
  lemma RoutingShape(holder: Option<Pid>, from: Option<Pid>, to: Option<Pid>, amount: Money, description: Option<string>)
    ensures var rt := Route(holder, from, to, amount, description);
            rt.primary.from == from && rt.primary.description == description &&
            (rt.side.None? <==> holder.None? || from.None? || to.Some?) &&
            (rt.side.Some? ==> rt.side.value.from.None? && rt.side.value.to.None? && rt.side.value.amount == amount) &&
            (rt.side.None? ==> rt.primary == Transaction(from, to, amount, description))
  {
  }

  /**
   * Another participant paying the bank pays the holder instead: the payer
   * loses the amount, the holder gains it, nobody else changes and, the side
   * record being bank-to-bank, the jackpot does not grow.
   */
  lemma PaymentRedirectedToHolder(s: LedgerState, holder: Pid, payer: Pid, amount: Money, description: Option<string>)
    requires payer in s.participants && holder in s.participants && payer != holder
    ensures var (s', r) := AfterServiceTransfer(s, Some(holder), Some(payer), None, amount, description);
            r == Ok(s.nextTx + 1) &&
            s'.participants == s.participants[payer := s.participants[payer].(balance := s.participants[payer].balance - amount)]
                                             [holder := s.participants[holder].(balance := s.participants[holder].balance + amount)] &&
            s'.jackpot == s.jackpot &&
            s'.transactions == s.transactions[s.nextTx := Transaction(None, None, amount, Some(BonusNote))]
                                             [s.nextTx + 1 := Transaction(Some(payer), Some(holder), amount, description)]
  {
  }

  /** The holder paying the bank pays nothing: balances and jackpot stay, a zero-amount record is written. */
  lemma HolderPaymentWaived(s: LedgerState, holder: Pid, amount: Money, description: Option<string>)
    requires holder in s.participants
    ensures var (s', r) := AfterServiceTransfer(s, Some(holder), Some(holder), None, amount, description);
            r == Ok(s.nextTx + 1) &&
            s'.participants == s.participants &&
            s'.jackpot == s.jackpot &&
            s'.transactions == s.transactions[s.nextTx := Transaction(None, None, amount, Some(OwnerNote))]
                                             [s.nextTx + 1 := Transaction(Some(holder), None, 0.0, description)]
  {
    var ps := s.participants;
    assert Credit(ps, holder, -0.0) == ps;
  }

  /** Once some participant holds El Banco, no payment to the bank reaches the jackpot. */
  lemma {:induction false} HolderStopsJackpotGrowth(s: LedgerState, holder: Pid, payer: Pid, amount: Money, description: Option<string>)
    requires holder in s.participants
    ensures AfterServiceTransfer(s, Some(holder), Some(payer), None, amount, description).0.jackpot == s.jackpot
  {
    if payer == holder {
      HolderPaymentWaived(s, holder, amount, description);
    } else if payer in s.participants {
      PaymentRedirectedToHolder(s, holder, payer, amount, description);
    }
  }

  /** Money is conserved among participants and jackpot whenever the rule applies. */
  lemma {:induction false} RoutedPaymentConserves(s: LedgerState, holder: Pid, payer: Pid, amount: Money, description: Option<string>)
    requires holder in s.participants && payer in s.participants
    ensures var s' := AfterServiceTransfer(s, Some(holder), Some(payer), None, amount, description).0;
            Total(s'.participants) + s'.jackpot == Total(s.participants) + s.jackpot
  {
    var side := Route(Some(holder), Some(payer), None, amount, description).side.value;
    var s1 := AfterTransfer(s, side).0;
    BankToBankOnlyRecords(s, side);
    if payer == holder {
      HolderPaymentWaived(s, holder, amount, description);
    } else {
      PeerTransferConserves(s1, Transaction(Some(payer), Some(holder), amount, description));
    }
  }

  /** An unknown payer fails the transfer, yet the detached side record has already been written. */
  lemma SideRecordOutlivesFailure(s: LedgerState, holder: Pid, payer: Pid, amount: Money, description: Option<string>)
    requires payer !in s.participants && payer != holder
    ensures var (s', r) := AfterServiceTransfer(s, Some(holder), Some(payer), None, amount, description);
            r == Err(SenderNotFound(payer)) &&
            s' == s.(transactions := s.transactions[s.nextTx := Transaction(None, None, amount, Some(BonusNote))],
                     nextTx := s.nextTx + 1)
  {
  }
}
