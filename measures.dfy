/** ProcessGraph.Domain.Shared.Measure: an Int32 magnitude with a unit, and
    addition that is defined only between measures of the same unit. */
module Measures {
  import opened Primitives
  import opened Units

  datatype Measure = Measure(value: Int32, unit: UnitOfMeasure)

  const UnitsDiffer: Exception := InvalidOperationException("Unit of measure should be equal")

  /** `operator +`: throws when the units differ; otherwise `first` with its
      value replaced by the unchecked Int32 sum of both values. */
  function Add(first: Measure, second: Measure): (r: Fallible<Measure>)
    ensures r.Throw? <==> first.unit != second.unit
    ensures r.Throw? ==> r.exception == UnitsDiffer
    ensures r.Value? ==> r.value.unit == first.unit == second.unit
    ensures r.Value? ==> (r.value.value as int - (first.value as int + second.value as int)) % TwoTo32 == 0
    ensures r.Value? && FitsInt32(first.value as int + second.value as int) ==>
              r.value.value as int == first.value as int + second.value as int
  {
    if first.unit != second.unit then Throw(UnitsDiffer)
    else Value(first.(value := Wrap32(first.value as int + second.value as int)))
  }

  /** Same-unit addition does not depend on the order of the operands. */
  lemma AddCommutative(a: Measure, b: Measure)
    ensures Add(a, b) == Add(b, a)
  {
    if a.unit == b.unit {
      assert a.value as int + b.value as int == b.value as int + a.value as int;
    }
  }

  /** Same-unit addition groups either way. */
  lemma AddAssociative(a: Measure, b: Measure, c: Measure)
    requires a.unit == b.unit == c.unit
    ensures Add(a, b).Value? && Add(b, c).Value?
    ensures Add(Add(a, b).value, c) == Add(a, Add(b, c).value)
  {
    WrapAssociative(a.value as int, b.value as int, c.value as int);
  }

  /** A zero measure of the same unit is a two-sided identity. */
  lemma ZeroIsIdentity(m: Measure)
    ensures Add(m, Measure(0, m.unit)) == Value(m)
    ensures Add(Measure(0, m.unit), m) == Value(m)
  {
  }
}
