/**
 * The filter predicates the console layer composes into garage queries. Each C# member
 * returns a lambda; here each returns a Dafny function value.
 */
module Filters {
  import opened Vehicles

  /** The comparison a user picks from the menu. */
  datatype CompareOptions = Equal | GreaterThan | LessThen

  /** C#'s unchecked `(int)` cast of a `uint`: values from 2^31 up wrap to negative numbers. */
  function AsInt32(x: uint32): (r: int)
    ensures -0x8000_0000 <= r < 0x8000_0000
    ensures r < 0 <==> x >= 0x8000_0000
    ensures (r - x as int) % 0x1_0000_0000 == 0
  {
    if x < 0x8000_0000 then x as int else x as int - 0x1_0000_0000
  }

  function EqualTo(value: int): (p: int -> bool)
    ensures forall x :: p(x) <==> x == value
  {
    items => items == value
  }

  function GreaterThan(value: int): (p: int -> bool)
    ensures forall x :: p(x) <==> x > value
  {
    items => items > value
  }

  function LessThan(value: int): (p: int -> bool)
    ensures forall x :: p(x) <==> x < value
  {
    items => items < value
  }

  /** Equal and GreaterThan pick their own comparison; every other option falls through to LessThan. */
  function WhichNumericComparePredicate(chosenOption: CompareOptions, value: int): (p: int -> bool)
    ensures chosenOption == Equal ==> forall x :: p(x) == EqualTo(value)(x)
    ensures chosenOption == CompareOptions.GreaterThan ==> forall x :: p(x) == GreaterThan(value)(x)
    ensures chosenOption == LessThen ==> forall x :: p(x) == LessThan(value)(x)
  {
    if chosenOption == Equal then EqualTo(value)
    else if chosenOption == CompareOptions.GreaterThan then GreaterThan(value)
    else LessThan(value)
  }

  /** For any threshold, a number satisfies exactly one of the three comparisons. */
  lemma ComparisonsPartition(value: int, x: int)
    ensures EqualTo(value)(x) || GreaterThan(value)(x) || LessThan(value)(x)
    ensures !(EqualTo(value)(x) && GreaterThan(value)(x))
    ensures !(EqualTo(value)(x) && LessThan(value)(x))
    ensures !(GreaterThan(value)(x) && LessThan(value)(x))
  {
  }

  /** Whatever option is chosen, the predicate is one of the three and they partition the integers. */
  lemma ChosenPredicateSplitsIntegers(chosenOption: CompareOptions, value: int, x: int)
    ensures WhichNumericComparePredicate(chosenOption, value)(x) <==>
              match chosenOption
              case Equal => x == value
              case GreaterThan => x > value
              case LessThen => x < value
  {
  }

  /** VehicleTypePredicate, with the C# runtime type replaced by the vehicle's kind tag. */
  function VehicleTypePredicate(kind: VehicleKind): (p: Vehicle -> bool)
    ensures forall v: Vehicle :: p(v) <==> v.Kind() == kind
  {
    (v: Vehicle) => v.Kind() == kind
  }

  function ByWheelCountPredicate(comparison: int -> bool): (p: Vehicle -> bool)
    ensures forall v: Vehicle :: p(v) == comparison(AsInt32(v.base.wheels))
    ensures forall v: Vehicle :: v.base.wheels <= MaxWheels ==> p(v) == comparison(v.base.wheels as int)
  {
    (v: Vehicle) => comparison(AsInt32(v.base.wheels))
  }

  function ByColorPredicate(desiredColor: VehicleColor): (p: Vehicle -> bool)
    ensures forall v: Vehicle :: p(v) <==> v.base.color == desiredColor
  {
    (v: Vehicle) => v.base.color == desiredColor
  }
}
