/** The functional API on quantities: `dimension_of`, `unit_of`, the string
    and unit-system cases of `uconvert`, the four cases of `ustrip` and the
    two cases of `is_unit_convertible`. The unit case of `uconvert` is the
    one registered by the astropy interoperability layer. */
module QuantityApi {
  import opened Results
  import opened Units
  import opened Quantities
  import AstropyConvert

  /** `dimension_of(q)`: the physical type of the quantity's unit. */
  function DimensionOf(q: Quantity): (d: Dimension)
    ensures d == DimensionOfUnit(q.unit)
    ensures WellFormed(q) && q.cls.family == CheckedFamily ==> SameDimension(d, q.cls.parameter.value)
  {
    DimensionOfUnit(q.unit)
  }

  /** `unit_of(q)`: the unit the quantity holds. */
  function UnitOf(q: Quantity): (u: Unit)
    ensures u == q.unit
    ensures DimensionOfUnit(u) == DimensionOf(q)
  {
    q.unit
  }

  /** The first argument kinds of `uconvert` and `ustrip`. */
  datatype UnitTarget = ToUnit(u: Unit) | ToName(name: string) | ToSystem(usys: UnitSystem)

  /** The unit a target stands for, given the quantity being converted. */
  function TargetUnit(ctx: Context, t: UnitTarget, x: Quantity): Result<Unit> {
    match t
    case ToUnit(u) => Ok(u)
    case ToName(s) => ResolveUnit(ctx, UnitName(s))
    case ToSystem(usys) => SystemUnit(usys, DimensionOf(x))
  }

  /** `uconvert(target, x)`. A string is parsed to a unit and a unit system
      supplies its unit for the quantity's physical type; both then take the
      unit case. */
  function UConvert(ctx: Context, t: UnitTarget, x: Quantity): (r: Result<Quantity>)
    ensures t.ToUnit? ==> r == AstropyConvert.UConvert(ctx, t.u, x)
    ensures t.ToName? && t.name in ctx.units ==> r == AstropyConvert.UConvert(ctx, ctx.units[t.name], x)
    ensures t.ToName? && t.name !in ctx.units ==> r == Err(UnitParseError(t.name))
    ensures t.ToSystem? && x.unit.dimension.signature in t.usys.units ==>
      r == AstropyConvert.UConvert(ctx, t.usys.units[x.unit.dimension.signature], x)
    ensures t.ToSystem? && x.unit.dimension.signature !in t.usys.units ==> r == Err(NoUnitForDimension)
  {
    match t
    case ToUnit(u) => AstropyConvert.UConvert(ctx, u, x)
    case ToName(s) =>
      var u :- ResolveUnit(ctx, UnitName(s));
      AstropyConvert.UConvert(ctx, u, x)
    case ToSystem(usys) =>
      var u :- SystemUnit(usys, DimensionOf(x));
      AstropyConvert.UConvert(ctx, u, x)
  }

  /** The stored value of a conversion's result, or its error. */
  function ValueOf(r: Result<Quantity>): Result<seq<real>> {
    match r
    case Ok(q) => Ok(q.value)
    case Err(e) => Err(e)
  }

  /** `ustrip(x)` with no target, and `ustrip(target, x)`. */
  function UStrip(ctx: Context, t: Option<UnitTarget>, x: Quantity): (r: Result<seq<real>>)
    // with no target: the stored value itself, unconverted
    ensures t.None? ==> r == Ok(x.value)
    // with any target, string and unit system included: strip the converted quantity
    ensures t.Some? ==> r == ValueOf(UConvert(ctx, t.value, x))
  {
    match t
    case None => Ok(x.value)
    case Some(ToUnit(u)) => StripUnit(ctx, u, x)
    case Some(ToName(s)) =>
      var u :- ResolveUnit(ctx, UnitName(s));
      StripUnit(ctx, u, x)
    case Some(ToSystem(usys)) =>
      var u :- SystemUnit(usys, DimensionOf(x));
      StripUnit(ctx, u, x)
  }

  /** `ustrip(u, x)` for a unit: `ustrip(uconvert(u, x))`. */
  function StripUnit(ctx: Context, u: Unit, x: Quantity): Result<seq<real>> {
    var y :- AstropyConvert.UConvert(ctx, u, x);
    Ok(y.value)
  }

  /** The second argument kinds of `is_unit_convertible`: anything `unit()`
      accepts, or a quantity. */
  datatype ConvertSource = FromUnitLike(x: UnitLike) | FromQuantity(q: Quantity)

  function SourceUnitLike(from: ConvertSource): UnitLike {
    match from
    case FromUnitLike(x) => x
    case FromQuantity(q) => UnitValue(q.unit)
  }

  /** `is_unit_convertible(to_unit, from_)`. Both arguments are resolved to
      units, and a failed conversion is answered with false; a string that
      does not parse is not caught. */
  function IsUnitConvertible(ctx: Context, to: UnitLike, from: ConvertSource): (r: Result<bool>)
    ensures r.Err? ==> r.error.UnitParseError?
    ensures r.Ok? <==> ResolveUnit(ctx, to).Ok? && ResolveUnit(ctx, SourceUnitLike(from)).Ok?
    ensures r.Ok? ==>
      r.value == Convertible(ctx, ResolveUnit(ctx, SourceUnitLike(from)).value, ResolveUnit(ctx, to).value)
  {
    match from
    case FromQuantity(q) => ConvertibleUnitLike(ctx, to, UnitValue(q.unit))
    case FromUnitLike(f) => ConvertibleUnitLike(ctx, to, f)
  }

  function ConvertibleUnitLike(ctx: Context, to: UnitLike, from: UnitLike): Result<bool> {
    var toUnit :- ResolveUnit(ctx, to);
    var fromUnit :- ResolveUnit(ctx, from);
    Ok(Convertible(ctx, fromUnit, toUnit))
  }

  /** The quantity case answers as the case of the quantity's unit does. */
  lemma ConvertibleOfQuantity(ctx: Context, to: UnitLike, q: Quantity)
    ensures IsUnitConvertible(ctx, to, FromQuantity(q)) == IsUnitConvertible(ctx, to, FromUnitLike(UnitValue(q.unit)))
  {
  }

  /** For a unit, `is_unit_convertible` answers true exactly when
      `uconvert` succeeds, and never fails itself. */
  lemma ConvertibleIffConverts(ctx: Context, u: Unit, q: Quantity)
    requires WellFormed(q)
    ensures IsUnitConvertible(ctx, UnitValue(u), FromQuantity(q)) == Ok(UConvert(ctx, ToUnit(u), q).Ok?)
  {
  }

  /** A string target converts as the unit it parses to. */
  lemma StringDelegatesToUnit(ctx: Context, s: string, x: Quantity)
    requires s in ctx.units
    ensures UConvert(ctx, ToName(s), x) == UConvert(ctx, ToUnit(ctx.units[s]), x)
    ensures UStrip(ctx, Some(ToName(s)), x) == UStrip(ctx, Some(ToUnit(ctx.units[s])), x)
  {
  }

  /** Converting to a valid unit system keeps the quantity's physical type. */
  lemma SystemKeepsDimension(ctx: Context, usys: UnitSystem, x: Quantity)
    requires ValidSystem(usys)
    requires WellFormed(x)
    requires DimensionOf(x).signature in usys.units
    ensures UConvert(ctx, ToSystem(usys), x).Ok?
    ensures SameDimension(DimensionOf(UConvert(ctx, ToSystem(usys), x).value), DimensionOf(x))
  {
  }
}
