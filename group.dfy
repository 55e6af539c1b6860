/**
 * The people counter and the cost split of the group-gifting dialog
 * (src/components/GroupGiftingDialog.tsx:15-22, 88-110).
 */
module GroupGifting {
  import opened Wrappers
  import opened Prices

  function Max(a: int, b: int): int { if a >= b then a else b }

  /** `Math.ceil(total / people)` for a whole total and at least one person. */
  function CeilDiv(total: nat, people: int): (share: nat)
    requires people >= 1
    ensures share * people >= total
    ensures (share - 1) * people < total
  {
    (total + people - 1) / people
  }

  /** The split never asks more of each person when one more person joins. */
  lemma {:induction false} CeilDivMorePeople(total: nat, people: int)
    requires people >= 1
    ensures CeilDiv(total, people + 1) <= CeilDiv(total, people)
  {
    var a := CeilDiv(total, people);
    var b := CeilDiv(total, people + 1);
    assert a * (people + 1) == a * people + a;
    LessByFactor(b as int - 1, a, people + 1);
  }

  lemma LessByFactor(x: int, y: int, m: int)
    requires m > 0
    ensures x * m < y * m ==> x < y
  {
    if y <= x {
      assert x * m - y * m == (x - y) * m;
    }
  }

  /** `Math.max(2, n - 1)`: the `-` button. */
  function AfterDecrement(n: int): (m: int)
    ensures m >= 2
    ensures n > 2 ==> m == n - 1
    ensures n <= 2 ==> m == 2
  {
    Max(2, n - 1)
  }

  /**
   * `Math.max(2, parseInt(value) || 2)`: the typed count. `parsed` is what
   * `parseInt` gives, `None` for `NaN`; a zero is falsy and becomes 2.
   */
  function AfterInput(parsed: Option<int>): (m: int)
    ensures m >= 2
    ensures parsed.Some? && parsed.value >= 2 ==> m == parsed.value
    ensures parsed.None? || parsed.value < 2 ==> m == 2
  {
    Max(2, if parsed.Some? && parsed.value != 0 then parsed.value else 2)
  }

  /** One thing the user can do to the counter. */
  datatype CounterEvent = Minus | Typed(parsed: Option<int>) | Plus

  function Step(n: int, e: CounterEvent): int
  {
    match e
    case Minus => AfterDecrement(n)
    case Typed(parsed) => AfterInput(parsed)
    case Plus => n + 1
  }

  /** The count after a sequence of events, starting from `n`. */
  function Replay(n: int, events: seq<CounterEvent>): int
    decreases |events|
  {
    if events == [] then n else Replay(Step(n, events[0]), events[1..])
  }

  /** From any count of at least 2, every sequence of events keeps the count at least 2. */
  lemma {:induction false} ReplayAtLeastTwo(n: int, events: seq<CounterEvent>)
    requires n >= 2
    ensures Replay(n, events) >= 2
    decreases |events|
  {
    if events != [] {
      ReplayAtLeastTwo(Step(n, events[0]), events[1..]);
    }
  }

  /** Starting from the initial 2, the share is always a well-defined ceiling split. */
  lemma ReachableSplit(events: seq<CounterEvent>, total: nat)
    ensures Replay(2, events) >= 2
    ensures CeilDiv(total, Replay(2, events)) * Replay(2, events) >= total
  {
    ReplayAtLeastTwo(2, events);
  }

  /** The `-` button is disabled exactly when pressing it would change nothing. */
  lemma DecrementDisabledIff(n: int)
    requires n >= 2
    ensures n <= 2 <==> AfterDecrement(n) == n
  {
  }

  /** The dialog's counter state, with the price of the gift being shared. */
  class GroupGiftingDialog {
    var numberOfPeople: int
    const totalAmount: Numeric

    ghost predicate Valid()
      reads this
    {
      numberOfPeople >= 2
    }

    /** `useState(2)`. */
    constructor (total: Numeric)
      ensures numberOfPeople == 2 && totalAmount == total
      ensures Valid()
    {
      numberOfPeople := 2;
      totalAmount := total;
    }

    /** `disabled={numberOfPeople <= 2}` on the `-` button. */
    function DecrementDisabled(): (disabled: bool)
      reads this
      ensures disabled <==> numberOfPeople <= 2
    {
      numberOfPeople <= 2
    }

    method Decrement()
      modifies this
      ensures numberOfPeople == AfterDecrement(old(numberOfPeople))
      ensures Valid()
    {
      numberOfPeople := Max(2, numberOfPeople - 1);
    }

    method Input(parsed: Option<int>)
      modifies this
      ensures numberOfPeople == AfterInput(parsed)
      ensures Valid()
    {
      var typed := if parsed.Some? && parsed.value != 0 then parsed.value else 2;
      numberOfPeople := Max(2, typed);
    }

    method Increment()
      modifies this
      ensures numberOfPeople == old(numberOfPeople) + 1
      ensures old(Valid()) ==> Valid()
    {
      numberOfPeople := numberOfPeople + 1;
    }

    /** `Math.ceil(totalAmount / numberOfPeople)`; a `NaN` price gives a `NaN` share. */
    function AmountPerPerson(): (share: Numeric)
      reads this
      requires Valid()
      ensures share.NaN? <==> totalAmount.NaN?
      ensures share.Num? ==> share.value * numberOfPeople >= totalAmount.value &&
                             (share.value - 1) * numberOfPeople < totalAmount.value
    {
      match totalAmount
      case NaN => NaN
      case Num(t) => Num(CeilDiv(t, numberOfPeople))
    }
  }
}
