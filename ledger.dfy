/**
 * The balance arithmetic of the transaction repository
 * (apps/api/src/infrastructure/postgres/transaction_repository.rs), over the
 * tables it touches for one game: the game's participants (id, user, balance),
 * its jackpot balance and its transaction records.
 *
 * Each repository method runs in one database transaction and either commits
 * or, on an early error, leaves every table as it was; the model makes each
 * one a single step. `Ledger` is the mutable store; `LedgerState` is its value,
 * and the functions `AfterTransfer`, `AfterDelete` and `AfterClaim` say what
 * each method does to it.
 */
module TransactionRepository {
  import opened Base

  datatype Participant = Participant(user: Uid, balance: Money)

  /** A transfer; `None` on either side is the bank. */
  datatype Transaction = Transaction(from: Option<Pid>, to: Option<Pid>, amount: Money, description: Option<string>)

  datatype LedgerState = LedgerState(
    participants: map<Pid, Participant>,
    jackpot: Money,
    transactions: map<TxId, Transaction>,
    nextTx: TxId,
    nextPid: Pid)

  /** The error for a sender id with no row; the source formats the id into it. */
  function SenderNotFound(p: Pid): string {
    "Sender participant not found for ID: " + NatToString(p)
  }
  const JackpotEmpty: string := "Jackpot is empty"
  const NotAParticipant: string := "User is not a participant"
  const JackpotWin: string := "Jackpot Win!"

  /** Fresh ids lie above every id in use, and no user holds two participant rows of the game. */
  ghost predicate Wf(s: LedgerState) {
    (forall id :: id in s.transactions ==> id < s.nextTx) &&
    (forall p :: p in s.participants ==> p < s.nextPid) &&
    (forall p, q :: p in s.participants && q in s.participants && s.participants[p].user == s.participants[q].user ==> p == q)
  }

  /** `SELECT id FROM game_participants WHERE game_id = $1 AND user_id = $2`. */
  ghost function ParticipantOf(ps: map<Pid, Participant>, user: Uid): (r: Option<Pid>)
    ensures r.Some? ==> r.value in ps && ps[r.value].user == user
    ensures r.None? ==> forall p :: p in ps ==> ps[p].user != user
  {
    if exists p :: p in ps && ps[p].user == user then
      var p :| p in ps && ps[p].user == user; Some(p)
    else None
  }

  /** With unique users, the lookup finds exactly the row of that user. */
  lemma ParticipantOfUnique(s: LedgerState, p: Pid)
    requires Wf(s) && p in s.participants
    ensures ParticipantOf(s.participants, s.participants[p].user) == Some(p)
  {
  }

  /** `UPDATE game_participants SET balance = balance + $1 WHERE id = $2`: no row, no change. */
  function Credit(ps: map<Pid, Participant>, id: Pid, amount: Money): map<Pid, Participant> {
    if id in ps then ps[id := ps[id].(balance := ps[id].balance + amount)] else ps
  }

  /** The sum of all participants' balances. */
  ghost function Total(ps: map<Pid, Participant>): Money
    decreases |ps.Keys|
  {
    if ps == map[] then 0.0
    else
      var k :| k in ps;
      assert |(ps - {k}).Keys| < |ps.Keys| by { assert ps.Keys == (ps - {k}).Keys + {k}; }
      ps[k].balance + Total(ps - {k})
  }

  /** `execute_transfer`. */
  ghost function AfterTransfer(s: LedgerState, t: Transaction): (LedgerState, Result<TxId>) {
    if t.from.Some? && t.from.value !in s.participants then (s, Err(SenderNotFound(t.from.value)))
    else
      var debited := if t.from.Some? then Credit(s.participants, t.from.value, -t.amount) else s.participants;
      var credited := if t.to.Some? then Credit(debited, t.to.value, t.amount) else debited;
      var jackpot := if t.from.Some? && t.to.None? then s.jackpot + t.amount else s.jackpot;
      (s.(participants := credited, jackpot := jackpot,
          transactions := s.transactions[s.nextTx := t], nextTx := s.nextTx + 1),
       Ok(s.nextTx))
  }

  /** `delete`: undo a record's balance effects and remove it; an unknown id is already gone. */
  ghost function AfterDelete(s: LedgerState, id: TxId): LedgerState {
    if id !in s.transactions then s
    else
      var t := s.transactions[id];
      var refunded := if t.from.Some? then Credit(s.participants, t.from.value, t.amount) else s.participants;
      var reclaimed := if t.to.Some? then Credit(refunded, t.to.value, -t.amount) else refunded;
      s.(participants := reclaimed, transactions := s.transactions - {id})
  }

  /** `claim_jackpot`. */
  ghost function AfterClaim(s: LedgerState, user: Uid): (LedgerState, Result<TxId>) {
    if s.jackpot <= 0.0 then (s, Err(JackpotEmpty))
    else match ParticipantOf(s.participants, user)
      case None => (s, Err(NotAParticipant))
      case Some(pid) =>
        (s.(participants := Credit(s.participants, pid, s.jackpot), jackpot := 0.0,
            transactions := s.transactions[s.nextTx := Transaction(None, Some(pid), s.jackpot, Some(JackpotWin))],
            nextTx := s.nextTx + 1),
         Ok(s.nextTx))
  }

  /** `add_participant`: a new row with a fresh id. */
  ghost function AfterAdd(s: LedgerState, user: Uid, balance: Money): (LedgerState, Pid) {
    (s.(participants := s.participants[s.nextPid := Participant(user, balance)], nextPid := s.nextPid + 1), s.nextPid)
  }

  /** `remove_participant`: deletes the user's row in this game, if any. */
  ghost function AfterRemove(s: LedgerState, user: Uid): LedgerState {
    s.(participants := map p | p in s.participants && s.participants[p].user != user :: s.participants[p])
  }

  class Ledger {
    var participants: map<Pid, Participant>
    var jackpot: Money
    var transactions: map<TxId, Transaction>
    var nextTx: TxId
    var nextPid: Pid

    ghost function State(): LedgerState
      reads this
    {
      LedgerState(participants, jackpot, transactions, nextTx, nextPid)
    }

    ghost predicate Valid()
      reads this
    {
      Wf(State())
    }

    /** A new game has no participants, no transactions and an empty jackpot. */
    constructor ()
      ensures Valid()
      ensures participants == map[] && transactions == map[] && jackpot == 0.0 && nextTx == 0 && nextPid == 0
    {
      participants := map[];
      jackpot := 0.0;
      transactions := map[];
      nextTx := 0;
      nextPid := 0;
    }

    method FindParticipant(user: Uid) returns (r: Option<Pid>)
      requires Valid()
      ensures r == ParticipantOf(participants, user)
    {
      if exists p :: p in participants && participants[p].user == user {
        var p :| p in participants && participants[p].user == user;
        ParticipantOfUnique(State(), p);
        r := Some(p);
      } else {
        r := None;
      }
    }

    method CreditBalance(id: Pid, amount: Money)
      modifies this
      ensures participants == Credit(old(participants), id, amount)
      ensures jackpot == old(jackpot) && transactions == old(transactions)
      ensures nextTx == old(nextTx) && nextPid == old(nextPid)
    {
      if id in participants {
        participants := participants[id := participants[id].(balance := participants[id].balance + amount)];
      }
    }

    method ExecuteTransfer(t: Transaction) returns (r: Result<TxId>)
      requires Valid()
      modifies this
      ensures Valid()
      ensures (State(), r) == AfterTransfer(old(State()), t)
    {
      if t.from.Some? {
        if t.from.value !in participants {
          return Err(SenderNotFound(t.from.value));
        }
        CreditBalance(t.from.value, -t.amount);
      }
      if t.to.Some? {
        CreditBalance(t.to.value, t.amount);
      }
      var id := nextTx;
      transactions := transactions[id := t];
      nextTx := nextTx + 1;
      if t.from.Some? && t.to.None? {
        jackpot := jackpot + t.amount;
      }
      r := Ok(id);
      KeepsWf(old(State()), State());
    }

    method Delete(id: TxId) returns (r: Result<()>)
      requires Valid()
      modifies this
      ensures Valid()
      ensures r == Ok(())
      ensures State() == AfterDelete(old(State()), id)
    {
      if id !in transactions {
        return Ok(());
      }
      var t := transactions[id];
      if t.from.Some? {
        CreditBalance(t.from.value, t.amount);
      }
      if t.to.Some? {
        CreditBalance(t.to.value, -t.amount);
      }
      transactions := transactions - {id};
      r := Ok(());
      KeepsWf(old(State()), State());
    }

    method ClaimJackpot(user: Uid) returns (r: Result<TxId>)
      requires Valid()
      modifies this
      ensures Valid()
      ensures (State(), r) == AfterClaim(old(State()), user)
    {
      var amount := jackpot;
      if amount <= 0.0 {
        return Err(JackpotEmpty);
      }
      var found := FindParticipant(user);
      if found.None? {
        return Err(NotAParticipant);
      }
      var pid := found.value;
      CreditBalance(pid, amount);
      jackpot := 0.0;
      var id := nextTx;
      transactions := transactions[id := Transaction(None, Some(pid), amount, Some(JackpotWin))];
      nextTx := nextTx + 1;
      r := Ok(id);
      KeepsWf(old(State()), State());
    }

    method AddParticipant(user: Uid, balance: Money) returns (pid: Pid)
      requires Valid()
      requires ParticipantOf(participants, user).None?
      modifies this
      ensures Valid()
      ensures (State(), pid) == AfterAdd(old(State()), user, balance)
    {
      pid := nextPid;
      participants := participants[pid := Participant(user, balance)];
      nextPid := nextPid + 1;
    }

    method RemoveParticipant(user: Uid)
      requires Valid()
      modifies this
      ensures Valid()
      ensures State() == AfterRemove(old(State()), user)
    {
      participants := map p | p in participants && participants[p].user != user :: participants[p];
    }
  }

  /** Crediting changes only a balance, never which user a row belongs to. */
  lemma CreditKeepsUsers(ps: map<Pid, Participant>, id: Pid, amount: Money)
    ensures Credit(ps, id, amount).Keys == ps.Keys
    ensures forall p :: p in ps ==> Credit(ps, id, amount)[p].user == ps[p].user
  {
  }

  /** Well-formedness survives any step that keeps each row's user and only grows the id counters. */
  lemma KeepsWf(s: LedgerState, s': LedgerState)
    requires Wf(s)
    requires s'.participants.Keys <= s.participants.Keys
    requires forall p :: p in s'.participants ==> s'.participants[p].user == s.participants[p].user
    requires s'.nextPid == s.nextPid && s.nextTx <= s'.nextTx
    requires forall id :: id in s'.transactions ==> id in s.transactions || id < s'.nextTx
    ensures Wf(s')
  {
  }
  // ---- The sum of balances ----

  lemma {:induction false} TotalRemove(ps: map<Pid, Participant>, k: Pid)
    requires k in ps
    ensures Total(ps) == ps[k].balance + Total(ps - {k})
    decreases |ps.Keys|
  {
    var j :| j in ps && Total(ps) == ps[j].balance + Total(ps - {j});
    if j != k {
      assert ps.Keys == (ps - {j}).Keys + {j};
      TotalRemove(ps - {j}, k);
      assert ps.Keys == (ps - {k}).Keys + {k};
      TotalRemove(ps - {k}, j);
      assert ps - {j} - {k} == ps - {k} - {j};
    }
  }

  /** Crediting a row moves the sum of balances by exactly the amount; crediting a missing row moves nothing. */
  lemma CreditTotal(ps: map<Pid, Participant>, id: Pid, amount: Money)
    ensures Total(Credit(ps, id, amount)) == Total(ps) + (if id in ps then amount else 0.0)
  {
    if id in ps {
      var qs := Credit(ps, id, amount);
      TotalRemove(ps, id);
      TotalRemove(qs, id);
      assert qs - {id} == ps - {id};
    }
  }

  lemma CreditCancel(ps: map<Pid, Participant>, id: Pid, amount: Money)
    ensures Credit(Credit(ps, id, amount), id, -amount) == ps
  {
    if id in ps {
      assert Credit(Credit(ps, id, amount), id, -amount)[id] == ps[id];
    }
  }

  lemma CreditCommute(ps: map<Pid, Participant>, a: Pid, x: Money, b: Pid, y: Money)
    ensures Credit(Credit(ps, a, x), b, y) == Credit(Credit(ps, b, y), a, x)
  {
  }

  // ---- execute_transfer ----

  /**
   * A sender with a row pays exactly the amount, whatever its balance: there is
   * no floor, so a balance below the amount ends negative.
   */
  lemma TransferDebitsSender(s: LedgerState, t: Transaction, p: Pid)
    requires t.from == Some(p) && p in s.participants && t.to != Some(p)
    ensures AfterTransfer(s, t).1.Ok?
    ensures AfterTransfer(s, t).0.participants[p].balance == s.participants[p].balance - t.amount
    ensures s.participants[p].balance < t.amount ==> AfterTransfer(s, t).0.participants[p].balance < 0.0
  {
  }

  /** A sender id with no row fails the transfer and leaves every table as it was. */
  lemma TransferMissingSender(s: LedgerState, t: Transaction)
    requires t.from.Some? && t.from.value !in s.participants
    ensures AfterTransfer(s, t) == (s, Err(SenderNotFound(t.from.value)))
  {
  }

  /** The sender error names the missing id: two distinct ids give two distinct messages. */
  lemma SenderErrorNamesSender(p: Pid, q: Pid)
    ensures SenderNotFound(p) == SenderNotFound(q) ==> p == q
  {
    var prefix := "Sender participant not found for ID: ";
    if SenderNotFound(p) == SenderNotFound(q) {
      assert NatToString(p) == SenderNotFound(p)[|prefix|..];
      assert NatToString(q) == SenderNotFound(q)[|prefix|..];
      NatToStringInjective(p, q);
    }
  }

  /**
   * The receiver gains exactly the amount when it has a row; a receiver id with
   * no row is skipped silently, and the sender is still debited.
   */
  lemma TransferCreditsReceiver(s: LedgerState, t: Transaction, q: Pid)
    requires t.to == Some(q) && t.from != Some(q)
    requires t.from.Some? ==> t.from.value in s.participants
    ensures q in s.participants ==>
              AfterTransfer(s, t).0.participants[q].balance == s.participants[q].balance + t.amount
    ensures q !in s.participants ==>
              AfterTransfer(s, t).0.participants ==
                (if t.from.Some? then Credit(s.participants, t.from.value, -t.amount) else s.participants)
  {
  }

  /** The jackpot grows by the amount exactly for a participant-to-bank payment, and is untouched otherwise. */
  lemma TransferJackpot(s: LedgerState, t: Transaction)
    requires t.from.Some? ==> t.from.value in s.participants
    ensures AfterTransfer(s, t).0.jackpot ==
              if t.from.Some? && t.to.None? then s.jackpot + t.amount else s.jackpot
  {
  }

  /**
   * How a successful transfer moves the sum of balances: down by the amount
   * for a sender, up by the amount for a receiver that has a row.
   */
  lemma {:induction false} TransferTotal(s: LedgerState, t: Transaction)
    requires t.from.Some? ==> t.from.value in s.participants
    ensures Total(AfterTransfer(s, t).0.participants) ==
              Total(s.participants)
              - (if t.from.Some? then t.amount else 0.0)
              + (if t.to.Some? && t.to.value in s.participants then t.amount else 0.0)
  {
    var debited := if t.from.Some? then Credit(s.participants, t.from.value, -t.amount) else s.participants;
    if t.from.Some? {
      CreditTotal(s.participants, t.from.value, -t.amount);
    }
    if t.to.Some? {
      CreditTotal(debited, t.to.value, t.amount);
    }
  }

  /** Between two participants, money only changes hands: the sum of balances and the jackpot stay put. */
  lemma PeerTransferConserves(s: LedgerState, t: Transaction)
    requires t.from.Some? && t.from.value in s.participants
    requires t.to.Some? && t.to.value in s.participants
    ensures Total(AfterTransfer(s, t).0.participants) == Total(s.participants)
    ensures AfterTransfer(s, t).0.jackpot == s.jackpot
  {
    TransferTotal(s, t);
  }

  /** A payment to the bank moves money from the balances into the jackpot, and the two together keep their sum. */
  lemma BankPaymentFeedsJackpot(s: LedgerState, t: Transaction)
    requires t.from.Some? && t.from.value in s.participants && t.to.None?
    ensures Total(AfterTransfer(s, t).0.participants) + AfterTransfer(s, t).0.jackpot == Total(s.participants) + s.jackpot
  {
    TransferTotal(s, t);
  }

  /** A record with the bank on both sides changes no balance and not the jackpot; only the record is added. */
  lemma BankToBankOnlyRecords(s: LedgerState, t: Transaction)
    requires t.from.None? && t.to.None?
    ensures AfterTransfer(s, t).0 == s.(transactions := s.transactions[s.nextTx := t], nextTx := s.nextTx + 1)
  {
  }

  // ---- delete ----

  /** Deleting an unknown id succeeds and changes nothing. */
  lemma DeleteUnknown(s: LedgerState, id: TxId)
    requires id !in s.transactions
    ensures AfterDelete(s, id) == s
  {
  }

  /** Deleting never touches the jackpot, even for a record that fed it. */
  lemma DeleteKeepsJackpot(s: LedgerState, id: TxId)
    ensures AfterDelete(s, id).jackpot == s.jackpot
    ensures id in s.transactions ==> id !in AfterDelete(s, id).transactions
  {
  }

  /**
   * Deleting the record a transfer just created restores every balance and the
   * transaction table exactly; the jackpot keeps whatever the transfer added.
   */
  lemma TransferThenDelete(s: LedgerState, t: Transaction)
    requires Wf(s)
    requires t.from.Some? ==> t.from.value in s.participants
    ensures AfterTransfer(s, t).1.Ok?
    ensures var s' := AfterDelete(AfterTransfer(s, t).0, AfterTransfer(s, t).1.value);
            s'.participants == s.participants && s'.transactions == s.transactions &&
            s'.jackpot == (if t.from.Some? && t.to.None? then s.jackpot + t.amount else s.jackpot)
  {
    var (s1, r) := AfterTransfer(s, t);
    var id := r.value;
    assert s1.transactions[id] == t;
    var ps := s.participants;
    var debited := if t.from.Some? then Credit(ps, t.from.value, -t.amount) else ps;
    if t.from.Some? && t.to.Some? {
      calc {
        Credit(Credit(Credit(debited, t.to.value, t.amount), t.from.value, t.amount), t.to.value, -t.amount);
        { CreditCommute(Credit(debited, t.to.value, t.amount), t.from.value, t.amount, t.to.value, -t.amount); }
        Credit(Credit(Credit(debited, t.to.value, t.amount), t.to.value, -t.amount), t.from.value, t.amount);
        { CreditCancel(debited, t.to.value, t.amount); }
        Credit(debited, t.from.value, t.amount);
        { CreditCancel(ps, t.from.value, -t.amount); }
        ps;
      }
    } else if t.from.Some? {
      CreditCancel(ps, t.from.value, -t.amount);
    } else if t.to.Some? {
      CreditCancel(ps, t.to.value, t.amount);
    }
    assert s.nextTx !in s.transactions;
    assert s1.transactions - {id} == s.transactions;
  }

  // ---- claim_jackpot ----

  /** An empty (or negative) jackpot cannot be claimed. */
  lemma ClaimEmpty(s: LedgerState, user: Uid)
    requires s.jackpot <= 0.0
    ensures AfterClaim(s, user) == (s, Err(JackpotEmpty))
  {
  }

  /** Only a participant of the game can claim. */
  lemma ClaimByStranger(s: LedgerState, user: Uid)
    requires s.jackpot > 0.0
    requires forall p :: p in s.participants ==> s.participants[p].user != user
    ensures AfterClaim(s, user) == (s, Err(NotAParticipant))
  {
  }

  /**
   * A successful claim hands the whole jackpot to the claimant's row, empties
   * the jackpot and records a bank-to-claimant "Jackpot Win!" transfer; balances
   * plus jackpot are conserved.
   */
  lemma ClaimMovesJackpot(s: LedgerState, p: Pid)
    requires Wf(s) && p in s.participants && s.jackpot > 0.0
    ensures var (s', r) := AfterClaim(s, s.participants[p].user);
            r == Ok(s.nextTx) && s'.jackpot == 0.0 &&
            s'.participants[p].balance == s.participants[p].balance + s.jackpot &&
            s'.transactions[s.nextTx] == Transaction(None, Some(p), s.jackpot, Some(JackpotWin)) &&
            Total(s'.participants) + s'.jackpot == Total(s.participants) + s.jackpot
  {
    ParticipantOfUnique(s, p);
    CreditTotal(s.participants, p, s.jackpot);
  }
}
