/**
 * Shared vocabulary of the game-economy model: identifiers, money, and the
 * Option/Result wrappers that stand for Rust's Option and anyhow::Result.
 */
module Base {

  /** BigDecimal amounts. Reals keep the exact halving of building refunds. */
  type Money = real

  /** Row identifiers. The source uses random UUIDs; the model draws fresh ids from per-table counters. */
  type Pid = nat       // game_participants.id
  type Uid = nat       // users.id
  type PropId = nat    // properties.id
  type CardId = nat    // cards.id
  type TxId = nat      // transactions.id
  type RowId = nat     // participant_properties.id
  type InvId = nat     // participant_cards.id

  datatype Option<+T> = None | Some(value: T)

  /** An operation's outcome: the value, or the error text the service returns. */
  datatype Result<+T> = Ok(value: T) | Err(msg: string) {
    predicate IsFailure() { Err? }
    function PropagateFailure<U>(): Result<U>
      requires Err?
    {
      Err(msg)
    }
    function Extract(): T
      requires Ok?
    {
      value
    }
  }

  /** The message Rust prints when `unwrap()` meets `None`; the model returns it instead of panicking. */
  const UnwrapNone: string := "called `Option::unwrap()` on a `None` value"

  function DigitChar(d: int): char
    requires 0 <= d < 10
  {
    "0123456789"[d]
  }

  /** Decimal rendering of a natural number, as Rust's `{}` and a template literal print it. */
  function NatToString(n: nat): (r: string)
    ensures |r| >= 1
    ensures n >= 10 ==> |r| >= 2
    decreases n
  {
    if n < 10 then [DigitChar(n)] else NatToString(n / 10) + [DigitChar(n % 10)]
  }

  /** Distinct numbers render differently, so a message that embeds an id names that id. */
  lemma {:induction false} NatToStringInjective(n: nat, m: nat)
    ensures NatToString(n) == NatToString(m) ==> n == m
    decreases n
  {
    if NatToString(n) == NatToString(m) && n >= 10 && m >= 10 {
      var a, b := NatToString(n), NatToString(m);
      assert a[|a| - 1] == DigitChar(n % 10) && b[|b| - 1] == DigitChar(m % 10);
      assert n % 10 == m % 10;
      assert a[..|a| - 1] == NatToString(n / 10) && b[..|b| - 1] == NatToString(m / 10);
      NatToStringInjective(n / 10, m / 10);
    }
  }
}
