/** `enum AssociatedNumbers: Int` and its raw values (learn-swift/book/Enums.swift). */
module Enums {
  import opened Swift

  datatype AssociatedNumbers = First | Second

  /** `rawValue`: the integer each case is declared with. */
  function RawValue(c: AssociatedNumbers): (r: Int64)
    ensures c == First ==> r == 10
    ensures c == Second ==> r == 20
  {
    match c
    case First => 10
    case Second => 20
  }

  /**
   * The synthesized failable `init(rawValue:)`: the case declared with raw value `r`,
   * or `nil` when no case is.
   */
  function FromRawValue(r: Int64): (c: Option<AssociatedNumbers>)
    ensures c.Some? <==> r == 10 || r == 20
    ensures c.Some? ==> RawValue(c.value) == r
  {
    if r == 10 then Some(First)
    else if r == 20 then Some(Second)
    else None
  }

  /** The two raw values are 10 and 20, and they are distinct. */
  lemma RawValuesDistinct(c: AssociatedNumbers, d: AssociatedNumbers)
    ensures RawValue(First) == 10 && RawValue(Second) == 20
    ensures RawValue(c) == RawValue(d) <==> c == d
  {
  }

  /** Decoding the raw value of a case gives that case back. */
  lemma RoundTrip(c: AssociatedNumbers)
    ensures FromRawValue(RawValue(c)) == Some(c)
  {
  }

  /** A raw value that decodes to a case is that case's raw value. */
  lemma InverseRoundTrip(r: Int64, c: AssociatedNumbers)
    requires FromRawValue(r) == Some(c)
    ensures RawValue(c) == r
  {
  }

  /** `AssociatedNumbers(rawValue: 10)` is `.first`, so the `guard` falls through. */
  lemma LookupTen()
    ensures FromRawValue(10) == Some(First)
  {
  }

  /** Every other raw value yields `nil`: the path the `guard ... else { return }` takes. */
  lemma UnknownRawValue(r: Int64)
    requires r != 10 && r != 20
    ensures FromRawValue(r) == None
  {
  }
}
