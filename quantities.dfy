/** Quantity records and their classes: a value, a unit, further fields, and
    the class the record is an instance of. Only what the conversion and query
    protocol needs of the class hierarchy is kept: which built-in family a
    class derives from, its name, and, for the dimension-checked family, the
    physical type it is parametrised by. */
module Quantities {
  import opened Results
  import opened Units

  /** The built-in class a quantity class derives from: `Quantity` (the
      dimension-checked, dimension-parametrised family), `UncheckedQuantity`,
      or neither (another `AbstractQuantity` subclass). */
  datatype Family = CheckedFamily | UncheckedFamily | OtherFamily

  /** A concrete quantity class. `name` is the class name without its
      parameter; `parameter` is the physical type of `Quantity[...]`. */
  datatype QuantityType = QuantityType(family: Family, name: string, parameter: Option<Dimension>)

  /** An instance: its class, its value (a canonical array), its unit and
      any further dataclass fields, by field name. */
  datatype Quantity = Quantity(cls: QuantityType, value: seq<real>, unit: Unit, others: map<string, real>)

  /** The two built-in target classes, unparametrised. */
  const QuantityClass: QuantityType := QuantityType(CheckedFamily, "Quantity", None)
  const UncheckedClass: QuantityType := QuantityType(UncheckedFamily, "UncheckedQuantity", None)

  /** The built-in variants a conversion can target. */
  datatype Variant = Checked | Unchecked

  function ClassOf(v: Variant): (t: QuantityType)
    ensures t.parameter.None?
  {
    match v
    case Checked => QuantityClass
    case Unchecked => UncheckedClass
  }

  /** What construction guarantees of every instance: an instance of the
      checked family carries a parameter, and that parameter is the
      physical type of its unit. */
  predicate WellFormed(q: Quantity) {
    q.cls.family == CheckedFamily ==>
      q.cls.parameter.Some? && SameDimension(q.cls.parameter.value, q.unit.dimension)
  }

  /** `type_unparametrized(cls)` */
  function Unparametrized(t: QuantityType): QuantityType {
    t.(parameter := None)
  }

  /** `cls(value, unit, **others)`. A parametrised class of the checked family
      rejects a unit of another physical type; an unparametrised one takes
      its parameter from the unit. */
  function Construct(t: QuantityType, value: seq<real>, unit: Unit, others: map<string, real>): (r: Result<Quantity>)
    ensures r.Err? <==>
      t.family == CheckedFamily && t.parameter.Some? && !SameDimension(t.parameter.value, unit.dimension)
    ensures r.Err? ==> r.error == DimensionMismatch
    ensures r.Ok? ==> WellFormed(r.value)
    ensures r.Ok? ==> r.value.value == value && r.value.unit == unit && r.value.others == others
    ensures r.Ok? ==> Unparametrized(r.value.cls) == Unparametrized(t)
    ensures r.Ok? && t.parameter.Some? ==> r.value.cls == t
  {
    if t.family != CheckedFamily then Ok(Quantity(t, value, unit, others))
    else match t.parameter
      case None => Ok(Quantity(t.(parameter := Some(unit.dimension)), value, unit, others))
      case Some(d) =>
        if SameDimension(d, unit.dimension) then Ok(Quantity(t, value, unit, others))
        else Err(DimensionMismatch)
  }

  /** `cls(value, unit, **others)` for an unparametrised class, which never fails. */
  function Instantiate(t: QuantityType, value: seq<real>, unit: Unit, others: map<string, real>): (q: Quantity)
    requires t.parameter.None?
    ensures Construct(t, value, unit, others) == Ok(q)
  {
    if t.family == CheckedFamily then Quantity(t.(parameter := Some(unit.dimension)), value, unit, others)
    else Quantity(t, value, unit, others)
  }

  /** `'a', 'b', ...` for the names of a physical type. */
  function QuotedNames(names: seq<string>): string {
    if names == [] then ""
    else if |names| == 1 then "'" + names[0] + "'"
    else "'" + names[0] + "', " + QuotedNames(names[1..])
  }

  /** The representation of a physical type, `PhysicalType('length')`. */
  function DimensionRepr(d: Dimension): string {
    if |d.names| == 1 then "PhysicalType(" + QuotedNames(d.names) + ")"
    else "PhysicalType({" + QuotedNames(d.names) + "})"
  }

  /** `type(q).__name__`: the class name, with its parameter if it has one. */
  function TypeName(t: QuantityType): string {
    match t.parameter
    case None => t.name
    case Some(d) => t.name + "[" + DimensionRepr(d) + "]"
  }
}
