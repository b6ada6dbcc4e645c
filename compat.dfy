/** The quantity cases of `dimensions_of` and `units_of`, and the
    conversions between the two built-in quantity variants. */
module Compat {
  import opened Results
  import opened Units
  import opened Quantities

  /** `dimensions_of(q)`: the physical type of the quantity's unit. */
  function DimensionsOf(q: Quantity): (d: Dimension)
    ensures d == DimensionOfUnit(q.unit)
    ensures WellFormed(q) && q.cls.family == CheckedFamily ==> SameDimension(d, q.cls.parameter.value)
  {
    DimensionOfUnit(q.unit)
  }

  /** `units_of(q)`: the unit the quantity holds. */
  function UnitsOf(q: Quantity): (u: Unit)
    ensures u == q.unit
    ensures DimensionOfUnit(u) == DimensionsOf(q)
  {
    q.unit
  }

  /** `convert(q, UncheckedQuantity)`: an instance of `UncheckedQuantity` or
      of a subclass is returned itself; anything else is rebuilt as
      `UncheckedQuantity(q.value, q.unit)`. */
  function ToUnchecked(q: Quantity): (r: Quantity)
    ensures r.cls.family == UncheckedFamily
    ensures q.cls.family == UncheckedFamily ==> r == q
    ensures q.cls.family != UncheckedFamily ==> Construct(UncheckedClass, q.value, q.unit, map[]) == Ok(r)
    ensures r.value == q.value && r.unit == q.unit
  {
    if q.cls.family == UncheckedFamily then q
    else Instantiate(UncheckedClass, q.value, q.unit, map[])
  }

  /** `convert(q, Quantity)`: an instance of `Quantity` or of a subclass is
      returned itself; anything else is rebuilt as `Quantity(q.value, q.unit)`,
      which is parametrised by the physical type of the unit. */
  function ToChecked(q: Quantity): (r: Quantity)
    ensures r.cls.family == CheckedFamily
    ensures q.cls.family == CheckedFamily ==> r == q
    ensures q.cls.family != CheckedFamily ==> Construct(QuantityClass, q.value, q.unit, map[]) == Ok(r)
    ensures q.cls.family != CheckedFamily ==> r.cls.parameter == Some(q.unit.dimension) && r.others == map[]
    ensures r.value == q.value && r.unit == q.unit
  {
    if q.cls.family == CheckedFamily then q
    else Instantiate(QuantityClass, q.value, q.unit, map[])
  }

  /** Converting to a variant a second time changes nothing. */
  lemma ConversionIdempotent(q: Quantity)
    ensures ToUnchecked(ToUnchecked(q)) == ToUnchecked(q)
    ensures ToChecked(ToChecked(q)) == ToChecked(q)
  {
  }

  /** Checked to unchecked and back keeps value and unit and ends in the
      checked family; for a plain well-formed `Quantity[...]` instance with no
      further fields it gives back the very same record. */
  lemma CheckedRoundTrip(q: Quantity)
    requires q.cls.family == CheckedFamily
    ensures ToChecked(ToUnchecked(q)).value == q.value
    ensures ToChecked(ToUnchecked(q)).unit == q.unit
    ensures ToChecked(ToUnchecked(q)).cls.family == CheckedFamily
    ensures q.cls == QuantityClass.(parameter := Some(q.unit.dimension)) && q.others == map[] ==>
      ToChecked(ToUnchecked(q)) == q
  {
  }

  /** Unchecked to checked and back, likewise. */
  lemma UncheckedRoundTrip(q: Quantity)
    requires q.cls.family == UncheckedFamily
    ensures ToUnchecked(ToChecked(q)).value == q.value
    ensures ToUnchecked(ToChecked(q)).unit == q.unit
    ensures q.cls == UncheckedClass && q.others == map[] ==> ToUnchecked(ToChecked(q)) == q
  {
  }
}
