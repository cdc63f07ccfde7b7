/** Money in int64 minor units: wrapping arithmetic whose checks are exact. */
module Money {
  import opened Base

  const TWO_TO_63 := 0x8000_0000_0000_0000
  const TWO_TO_64 := 0x1_0000_0000_0000_0000
  const MAX_INT64: int := TWO_TO_63 - 1
  const MIN_INT64: int := -TWO_TO_63

  type int64 = x: int | -0x8000_0000_0000_0000 <= x < 0x8000_0000_0000_0000
  type uint64 = x: int | 0 <= x < 0x1_0000_0000_0000_0000

  predicate InInt64(x: int) {
    MIN_INT64 <= x <= MAX_INT64
  }

  /** Two's complement: what a 64-bit signed register keeps of an integer. */
  function Wrap64(x: int): (r: int64)
    ensures InInt64(x) ==> r == x
  {
    if InInt64(x) then x else (x + TWO_TO_63) % TWO_TO_64 - TWO_TO_63
  }

  function WrapUnsigned64(x: int): (r: uint64)
    ensures 0 <= x < TWO_TO_64 ==> r == x
  {
    if 0 <= x < TWO_TO_64 then x else x % TWO_TO_64
  }

  /** Wrapping loses a multiple of 2^64 and nothing else. */
  lemma WrapIsCongruent(x: int)
    ensures (Wrap64(x) - x) % TWO_TO_64 == 0 && (WrapUnsigned64(x) - x) % TWO_TO_64 == 0
  {
    if !InInt64(x) {
      var q := (x + TWO_TO_63) / TWO_TO_64;
      assert Wrap64(x) - x == -q * TWO_TO_64;
    }
    if !(0 <= x < TWO_TO_64) {
      assert WrapUnsigned64(x) - x == -(x / TWO_TO_64) * TWO_TO_64;
    }
  }

  datatype Money = Money(minor: int64, currency: string) {

    predicate IsInitialised() { currency != "" }

    function RequireComparable(other: Money): Result<()> {
      if !IsInitialised() || !other.IsInitialised() then Err(Domain(InvalidCurrency))
      else if currency != other.currency then Err(Domain(CurrencyMismatch))
      else Ok(())
    }

    /** The overflow test looks only at the wrapped sum, and is still exact. */
    function Add(other: Money): (r: Result<Money>)
      ensures RequireComparable(other).Ok? ==>
                if InInt64(minor + other.minor) then r == Ok(Money(minor + other.minor, currency))
                else r == Err(Domain(AmountOverflow))
      ensures RequireComparable(other).Err? ==> r.Err? && r.error == RequireComparable(other).error
    {
      var _ :- RequireComparable(other);
      var sum := Wrap64(minor + other.minor);
      if (other.minor > 0 && sum < minor) || (other.minor < 0 && sum > minor)
      then Err(Domain(AmountOverflow))
      else Ok(Money(sum, currency))
    }

    function Sub(other: Money): (r: Result<Money>)
      ensures RequireComparable(other).Ok? ==>
                if InInt64(minor - other.minor) then r == Ok(Money(minor - other.minor, currency))
                else r == Err(Domain(AmountOverflow))
      ensures RequireComparable(other).Err? ==> r.Err? && r.error == RequireComparable(other).error
    {
      var _ :- RequireComparable(other);
      var diff := Wrap64(minor - other.minor);
      if (other.minor < 0 && diff < minor) || (other.minor > 0 && diff > minor)
      then Err(Domain(AmountOverflow))
      else Ok(Money(diff, currency))
    }

    /** Fails on exactly the one value that has no positive counterpart. */
    function Neg(): (r: Result<Money>)
      ensures IsInitialised() ==>
                if InInt64(0 - minor) then r == Ok(Money(0 - minor, currency))
                else r == Err(Domain(AmountOverflow))
      ensures !IsInitialised() ==> r == Err(Domain(InvalidCurrency))
    {
      if !IsInitialised() then Err(Domain(InvalidCurrency))
      else if minor == MIN_INT64 then Err(Domain(AmountOverflow))
      else Ok(Money(Wrap64(0 - minor), currency))
    }
  }

  /** The zero value of Money: no currency, refused by every operation. */
  const UNSET := Money(0, "")
}
