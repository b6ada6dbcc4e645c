/** The unit case of `uconvert` and the astropy-quantity case of `ustrip`,
    as the astropy interoperability layer registers them. */
module AstropyConvert {
  import opened Results
  import opened Units
  import opened Quantities

  /** The astropy classes a quantity converts to and from. */
  datatype AstropyKind = PlainQuantity | Distance | Angle

  /** An astropy quantity: its class, its value and its unit. */
  datatype AstropyQuantity = AstropyQuantity(kind: AstropyKind, value: seq<real>, unit: Unit)

  /** `uconvert(u, x)` for a unit `u`. Equal units return `x` itself. Otherwise
      the value is converted first (so an impossible conversion fails before
      anything else); for the same physical type only value and unit are
      replaced on `x`'s own class; across physical types (an enabled
      equivalency) the unparametrised class is rebuilt from all of `x`'s fields
      with value and unit replaced. */
  function UConvert(ctx: Context, u: Unit, x: Quantity): (r: Result<Quantity>)
    // hot path: no conversion needed, `x` itself
    ensures UnitEq(x.unit, u) ==> r == Ok(x)
    // units the catalog cannot convert
    ensures !UnitEq(x.unit, u) && !Convertible(ctx, x.unit, u) ==> r == Err(UnitConversionError)
    // same physical type: same class, other fields kept, value rescaled by the factor
    ensures !UnitEq(x.unit, u) && SameDimension(x.unit.dimension, u.dimension) && WellFormed(x) ==>
      r == Ok(x.(value := Scale(x.value, x.unit.scale / u.scale), unit := u))
    // other physical type: the unparametrised class, other fields kept
    ensures !SameDimension(x.unit.dimension, u.dimension) && Convertible(ctx, x.unit, u) ==>
      r.Ok? && Unparametrized(r.value.cls) == Unparametrized(x.cls) && r.value.others == x.others
      && r.value.unit == u && r.value.value == Scale(x.value, Factor(ctx, x.unit, u).value)
    // whatever succeeds is in `u` and well formed
    ensures r.Ok? ==> UnitEq(r.value.unit, u)
    ensures r.Ok? && WellFormed(x) ==> WellFormed(r.value)
  {
    if UnitEq(x.unit, u) then Ok(x)   // `x.unit == u`
    else
      var value :- Convert(ctx, x.unit, u, x.value);   // `x.unit.to(u, ustrip(x))`
      if SameDimension(x.unit.dimension, u.dimension) then
        Construct(x.cls, value, u, x.others)          // `replace(x, value=value, unit=u)`
      else
        Construct(Unparametrized(x.cls), value, u, x.others)   // `type_unparametrized(x)(**fs)`
  }

  /** `ustrip(u, x)` for an astropy quantity: `x.to_value(u)`. */
  function StripAstropy(ctx: Context, target: UnitLike, x: AstropyQuantity): (r: Result<seq<real>>)
    ensures ResolveUnit(ctx, target).Err? ==> r == Err(ResolveUnit(ctx, target).error)
    ensures ResolveUnit(ctx, target).Ok? ==> r == Convert(ctx, x.unit, ResolveUnit(ctx, target).value, x.value)
    ensures ResolveUnit(ctx, target).Ok? && UnitEq(x.unit, ResolveUnit(ctx, target).value) ==> r == Ok(x.value)
    ensures r.Ok? ==> |r.value| == |x.value|
  {
    var u :- ResolveUnit(ctx, target);
    if UnitEq(x.unit, u) then ConvertEqualUnits(ctx, x.unit, u, x.value); Convert(ctx, x.unit, u, x.value)
    else Convert(ctx, x.unit, u, x.value)
  }

  /** Within one physical type, converting to another unit and back to the
      original one gives back the original record. */
  lemma UConvertRoundTrip(ctx: Context, x: Quantity, u: Unit)
    requires WellFormed(x)
    requires SameDimension(x.unit.dimension, u.dimension)
    ensures UConvert(ctx, u, x).Ok?
    ensures UConvert(ctx, x.unit, UConvert(ctx, u, x).value) == Ok(x)
  {
    if !UnitEq(x.unit, u) {
      var y := x.(value := Scale(x.value, x.unit.scale / u.scale), unit := u);
      assert UConvert(ctx, u, x) == Ok(y);
      ConvertRoundTrip(ctx, x.unit, u, x.value);
      assert Convert(ctx, u, x.unit, y.value) == Ok(x.value);
      assert !UnitEq(y.unit, x.unit);
    }
  }
}

/** The `from_` constructors from an astropy quantity and the conversions
    between unxt and astropy quantities. */
module AstropyInterop {
  import opened Results
  import opened Units
  import opened Quantities
  import opened AstropyConvert
  import QuantityApi

  /** `cls.from_(aq)`: an instance of `cls` in `aq`'s own unit. */
  function FromAstropy(ctx: Context, cls: QuantityType, aq: AstropyQuantity): (r: Result<Quantity>)
    ensures r.Ok? <==> Construct(cls, aq.value, aq.unit, map[]).Ok?
    ensures r.Ok? ==> r.value.value == aq.value && r.value.unit == aq.unit
    ensures r.Ok? ==> Unparametrized(r.value.cls) == Unparametrized(cls) && r.value.others == map[]
  {
    var u := aq.unit;                                    // `unit_of(value)`
    var value :- StripAstropy(ctx, UnitValue(u), aq);
    Construct(cls, value, u, map[])
  }

  /** `cls.from_(aq, u)`: an instance of `cls` in the unit `u` stands for. */
  function FromAstropyIn(ctx: Context, cls: QuantityType, aq: AstropyQuantity, target: UnitLike): (r: Result<Quantity>)
    ensures ResolveUnit(ctx, target).Err? ==> r == Err(ResolveUnit(ctx, target).error)
    ensures ResolveUnit(ctx, target).Ok? && !Convertible(ctx, aq.unit, ResolveUnit(ctx, target).value) ==>
      r == Err(UnitConversionError)
    ensures r.Ok? ==>
      var u := ResolveUnit(ctx, target).value;
      r.value.unit == u && r.value.value == Scale(aq.value, Factor(ctx, aq.unit, u).value)
    ensures r.Ok? ==> Unparametrized(r.value.cls) == Unparametrized(cls) && r.value.others == map[]
    // a convertible target: exactly what `cls(value, u)` gives, a dimension mismatch included
    ensures ResolveUnit(ctx, target).Ok? && Convertible(ctx, aq.unit, ResolveUnit(ctx, target).value) ==>
      var u := ResolveUnit(ctx, target).value;
      r == Construct(cls, Scale(aq.value, Factor(ctx, aq.unit, u).value), u, map[])
    ensures (ResolveUnit(ctx, target).Ok? && Convertible(ctx, aq.unit, ResolveUnit(ctx, target).value)
             && cls.parameter.None?) ==> r.Ok?
  {
    var u :- ResolveUnit(ctx, target);                   // `unit(u)`
    var value :- StripAstropy(ctx, UnitValue(u), aq);
    Construct(cls, value, u, map[])
  }

  /** `convert(q, AstropyQuantity)` and its `Distance` and `Angle`
      counterparts: an astropy object of that class in `q`'s unit. */
  function ToAstropy(ctx: Context, q: Quantity, kind: AstropyKind): (r: AstropyQuantity)
    ensures r.kind == kind && r.value == q.value && r.unit == q.unit
  {
    var u := QuantityApi.UnitOf(q);
    match QuantityApi.UStrip(ctx, Some(QuantityApi.ToUnit(u)), q)
    case Ok(v) => AstropyQuantity(kind, v, u)
    case Err(_) => assert false; AstropyQuantity(kind, [], u)
  }

  /** `convert(aq, Quantity)` and `convert(aq, UncheckedQuantity)`: a new
      instance of the built-in class in `aq`'s unit. */
  function ToUnxt(ctx: Context, aq: AstropyQuantity, v: Variant): (r: Quantity)
    ensures r.value == aq.value && r.unit == aq.unit && r.others == map[]
    ensures Unparametrized(r.cls) == ClassOf(v) && WellFormed(r)
  {
    var u := aq.unit;
    match StripAstropy(ctx, UnitValue(u), aq)
    case Ok(value) => Instantiate(ClassOf(v), value, u, map[])
    case Err(_) => assert false; Quantity(ClassOf(v), [], u, map[])
  }

  /** astropy to unxt and back is lossless. */
  lemma AstropyRoundTrip(ctx: Context, aq: AstropyQuantity, v: Variant)
    ensures ToAstropy(ctx, ToUnxt(ctx, aq, v), aq.kind) == aq
  {
  }

  /** unxt to astropy and back keeps value and unit; for an instance of a
      built-in class with no further fields it gives back the same record. */
  lemma UnxtRoundTrip(ctx: Context, q: Quantity, kind: AstropyKind, v: Variant)
    requires WellFormed(q)
    ensures ToUnxt(ctx, ToAstropy(ctx, q, kind), v).value == q.value
    ensures ToUnxt(ctx, ToAstropy(ctx, q, kind), v).unit == q.unit
    ensures q.others == map[] && q.cls == Instantiate(ClassOf(v), q.value, q.unit, map[]).cls ==>
      ToUnxt(ctx, ToAstropy(ctx, q, kind), v) == q
  {
  }

  /** `from_` without a unit agrees with the conversion to the same class. */
  lemma FromAgreesWithConvert(ctx: Context, aq: AstropyQuantity, v: Variant)
    ensures FromAstropy(ctx, ClassOf(v), aq) == Ok(ToUnxt(ctx, aq, v))
  {
  }
}
