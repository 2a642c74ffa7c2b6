/**
 * The roll loop of `DiceService::roll_dice` (apps/api/src/application/dice_service.rs).
 * The random draw `random_range(1..=sides)` is a nondeterministic choice in the
 * same range; drawing from an empty range (sides < 1) panics, which the model
 * returns as an error. Persisting and broadcasting the roll are not modelled.
 */
module DiceService {
  import opened Base

  datatype Roll = Roll(results: seq<int>, total: int)

  /** The panic text of `random_range` on an empty range. */
  const EmptyRange: string := "cannot sample empty range"

  function Sum(s: seq<int>): int {
    if s == [] then 0 else Sum(s[..|s| - 1]) + s[|s| - 1]
  }

  /** `count` dice of `sides` faces each sum to between `count` and `count * sides`. */
  lemma {:induction false} SumBounds(s: seq<int>, sides: int)
    requires forall i :: 0 <= i < |s| ==> 1 <= s[i] <= sides
    ensures |s| <= Sum(s) <= |s| * sides
  {
    if s != [] {
      SumBounds(s[..|s| - 1], sides);
    }
  }

  method RollDice(sides: int, count: int) returns (r: Result<Roll>)
    ensures r.Err? <==> count > 0 && sides < 1
    ensures r.Err? ==> r.msg == EmptyRange
    ensures r.Ok? ==> |r.value.results| == (if count > 0 then count else 0)
    ensures r.Ok? ==> forall i :: 0 <= i < |r.value.results| ==> 1 <= r.value.results[i] <= sides
    ensures r.Ok? ==> r.value.total == Sum(r.value.results)
  {
    if count > 0 && sides < 1 {
      return Err(EmptyRange);
    }
    var results: seq<int> := [];
    var total := 0;
    var n := 0;
    while n < count
      invariant 0 <= n <= (if count > 0 then count else 0)
      invariant |results| == n
      invariant forall i :: 0 <= i < |results| ==> 1 <= results[i] <= sides
      invariant total == Sum(results)
    {
      var val :| 1 <= val <= sides;
      assert (results + [val])[..|results|] == results;
      results := results + [val];
      total := total + val;
      n := n + 1;
    }
    r := Ok(Roll(results, total));
  }

  /** The reported total lies between `count` and `count * sides`. */
  lemma TotalBounds(sides: int, count: int, roll: Roll)
    requires count >= 0 && |roll.results| == count
    requires forall i :: 0 <= i < |roll.results| ==> 1 <= roll.results[i] <= sides
    requires roll.total == Sum(roll.results)
    ensures count <= roll.total <= count * sides
  {
    SumBounds(roll.results, sides);
  }
}
