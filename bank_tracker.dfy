/**
 * The bank panel (apps/web/components/BankTracker.tsx): the client-side
 * estimate of the bank's reserves, folded over the game's transactions, and
 * the three most recent transactions that involve the bank. A missing side
 * of a transaction is the bank. Amounts are whole numbers here; creation
 * times are epoch milliseconds.
 */
module BankTracker {
  import opened Base
  import opened Sorting

  datatype Tx = Tx(from: Option<Uid>, to: Option<Uid>, amount: int, createdAt: int)

  const InitialBankBalance: int := 20580

  /** The bank pays a player. */
  predicate Payout(tx: Tx) {
    tx.from.None? && tx.to.Some?
  }

  /** A player pays the bank. */
  predicate Payin(tx: Tx) {
    tx.from.Some? && tx.to.None?
  }

  function Total(txs: seq<Tx>): int {
    if txs == [] then 0 else Total(txs[..|txs| - 1]) + txs[|txs| - 1].amount
  }

  function Payouts(txs: seq<Tx>): (r: seq<Tx>)
    ensures forall x :: x in r <==> x in txs && Payout(x)
  {
    if txs == [] then [] else Payouts(txs[..|txs| - 1]) + (if Payout(txs[|txs| - 1]) then [txs[|txs| - 1]] else [])
  }

  function Payins(txs: seq<Tx>): (r: seq<Tx>)
    ensures forall x :: x in r <==> x in txs && Payin(x)
  {
    if txs == [] then [] else Payins(txs[..|txs| - 1]) + (if Payin(txs[|txs| - 1]) then [txs[|txs| - 1]] else [])
  }

  /** What the panel promises: the opening reserve, less what the bank paid out, plus what it took in. */
  function Reserve(txs: seq<Tx>): int {
    InitialBankBalance - Total(Payouts(txs)) + Total(Payins(txs))
  }

  /** `calculateBalance`. */
  method CalculateBalance(txs: seq<Tx>) returns (balance: int)
    ensures balance == Reserve(txs)
  {
    balance := InitialBankBalance;
    var i := 0;
    while i < |txs|
      invariant 0 <= i <= |txs|
      invariant balance == Reserve(txs[..i])
    {
      var tx := txs[i];
      assert txs[..i + 1] == txs[..i] + [tx];
      ReserveSnoc(txs[..i], tx);
      if tx.from.None? && tx.to.Some? {
        balance := balance - tx.amount;
      } else if tx.from.Some? && tx.to.None? {
        balance := balance + tx.amount;
      }
      i := i + 1;
    }
    assert txs[..i] == txs;
  }

  /** The change one transaction makes to the reserve. */
  function Effect(tx: Tx): int {
    if Payout(tx) then -tx.amount else if Payin(tx) then tx.amount else 0
  }

  function Net(txs: seq<Tx>): int {
    if txs == [] then 0 else Effect(txs[0]) + Net(txs[1..])
  }

  // ---- Properties ----

  /** Each transaction moves the reserve by its effect alone. */
  lemma ReserveSnoc(txs: seq<Tx>, tx: Tx)
    ensures Reserve(txs + [tx]) == Reserve(txs) + Effect(tx)
  {
    var s := txs + [tx];
    assert s[..|s| - 1] == txs && s[|s| - 1] == tx;
    var outs, ins := Payouts(txs), Payins(txs);
    if Payout(tx) {
      assert Payouts(s) == outs + [tx];
      assert (outs + [tx])[..|outs|] == outs;
      assert Payins(s) == ins + [] == ins;
    } else if Payin(tx) {
      assert Payins(s) == ins + [tx];
      assert (ins + [tx])[..|ins|] == ins;
      assert Payouts(s) == outs + [] == outs;
    } else {
      assert Payouts(s) == outs + [] == outs;
      assert Payins(s) == ins + [] == ins;
    }
  }

  lemma {:induction false} NetAppend(a: seq<Tx>, b: seq<Tx>)
    ensures Net(a + b) == Net(a) + Net(b)
    decreases |a|
  {
    if a == [] {
      assert a + b == b;
    } else {
      assert (a + b)[0] == a[0];
      assert (a + b)[1..] == a[1..] + b;
      NetAppend(a[1..], b);
    }
  }

  /** The reserve is the opening balance plus the net effect of every transaction. */
  lemma {:induction false} ReserveIsNet(txs: seq<Tx>)
    ensures Reserve(txs) == InitialBankBalance + Net(txs)
    decreases |txs|
  {
    if txs != [] {
      var init, last := txs[..|txs| - 1], txs[|txs| - 1];
      assert init + [last] == txs;
      ReserveIsNet(init);
      ReserveSnoc(init, last);
      NetAppend(init, [last]);
      assert Net([last]) == Effect(last);
    }
  }

  /** A transaction between two players, or with the bank on both sides, leaves the reserve alone. */
  lemma PlayerToPlayerIgnored(txs: seq<Tx>, tx: Tx)
    requires tx.from.Some? == tx.to.Some?
    ensures Reserve(txs + [tx]) == Reserve(txs)
  {
    ReserveSnoc(txs, tx);
  }

  /** The reserve does not depend on the order of the transactions. */
  lemma ReserveOrderIndependent(a: seq<Tx>, b: seq<Tx>)
    requires multiset(a) == multiset(b)
    ensures Reserve(a) == Reserve(b)
  {
    NetPermutation(a, b);
    ReserveIsNet(a);
    ReserveIsNet(b);
  }

  lemma {:induction false} NetPermutation(a: seq<Tx>, b: seq<Tx>)
    requires multiset(a) == multiset(b)
    ensures Net(a) == Net(b)
    decreases |a|
  {
    if a == [] {
      assert |b| == |multiset(b)| == 0;
    } else {
      assert a[0] in multiset(b);
      var j :| 0 <= j < |b| && b[j] == a[0];
      var rest := b[..j] + b[j + 1..];
      RemoveOne(a, b, j);
      NetPermutation(a[1..], rest);
      assert b == b[..j] + ([b[j]] + b[j + 1..]);
      NetAppend(b[..j], [b[j]] + b[j + 1..]);
      NetAppend([b[j]], b[j + 1..]);
      NetAppend(b[..j], b[j + 1..]);
      assert Net([b[j]]) == Effect(b[j]);
    }
  }

  // ---- The recent bank log ----

  predicate InvolvesBank(tx: Tx) {
    tx.from.None? || tx.to.None?
  }

  function BankOnly(txs: seq<Tx>): (r: seq<Tx>)
    ensures forall x :: x in r <==> x in txs && InvolvesBank(x)
  {
    if txs == [] then [] else (if InvolvesBank(txs[0]) then [txs[0]] else []) + BankOnly(txs[1..])
  }

  /** Sorting by this key ascending puts the newest first. */
  function Age(tx: Tx): int {
    -tx.createdAt
  }

  /** `bankLogs`: the bank transactions, newest first (ties in their original order), at most three. */
  function BankLogs(txs: seq<Tx>): seq<Tx> {
    var sorted := SortBy(BankOnly(txs), Age);
    sorted[..if |sorted| < 3 then |sorted| else 3]
  }

  /** The log holds at most three transactions, each from the input and each with the bank on one side, newest first. */
  lemma BankLogsShape(txs: seq<Tx>)
    ensures var r := BankLogs(txs);
            |r| <= 3 && |r| == (if |BankOnly(txs)| < 3 then |BankOnly(txs)| else 3) &&
            (forall x :: x in r ==> x in txs && InvolvesBank(x)) &&
            (forall i, j :: 0 <= i < j < |r| ==> r[i].createdAt >= r[j].createdAt)
  {
    var bank := BankOnly(txs);
    var sorted := SortBy(bank, Age);
    SortByPermutes(bank, Age);
    var r := BankLogs(txs);
    forall x | x in r ensures x in txs && InvolvesBank(x) {
      assert x in multiset(sorted);
    }
    forall i, j | 0 <= i < j < |r| ensures r[i].createdAt >= r[j].createdAt {
      assert Age(sorted[i]) <= Age(sorted[j]);
    }
  }

  /** No bank transaction left out of the log is newer than the last one shown. */
  lemma BankLogsNewest(txs: seq<Tx>, x: Tx)
    requires x in txs && InvolvesBank(x) && x !in BankLogs(txs)
    ensures |BankLogs(txs)| == 3 && x.createdAt <= BankLogs(txs)[2].createdAt
  {
    var bank := BankOnly(txs);
    var sorted := SortBy(bank, Age);
    SortByPermutes(bank, Age);
    assert x in multiset(sorted);
    var k :| 0 <= k < |sorted| && sorted[k] == x;
    assert k >= 3;
    assert Age(sorted[2]) <= Age(sorted[k]);
  }
}
