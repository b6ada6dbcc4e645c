/** The unit catalog as the quantity core sees it: physical types, linear
    units, the unit strings the catalog parses, unit systems, the enabled
    equivalencies, and the factor that converts a value from one unit to
    another. The catalog itself is external; it is given here as data. */
module Units {
  import opened Results

  /** Exponents of the irreducible base units a unit decomposes into, in the
      catalog's fixed order (length, time, mass, current, temperature,
      amount, luminous intensity, angle). Physical types are compared by
      this decomposition only. */
  type Signature = seq<int>

  const LengthSignature: Signature := [1, 0, 0, 0, 0, 0, 0, 0]
  const TimeSignature: Signature := [0, 1, 0, 0, 0, 0, 0, 0]
  const SpeedSignature: Signature := [1, -1, 0, 0, 0, 0, 0, 0]

  type Positive = r: real | r > 0.0 witness 1.0

  /** A physical type: its decomposition and the members of its name set,
      in the order that iterating over the set happens to yield them. */
  datatype Dimension = Dimension(signature: Signature, names: seq<string>)

  /** A linear unit: `scale` times the base-unit product of its dimension. */
  datatype Unit = Unit(dimension: Dimension, scale: Positive)

  /** Physical-type equality: the same decomposition, whatever the names. */
  predicate SameDimension(a: Dimension, b: Dimension) {
    a.signature == b.signature
  }

  /** Unit equality: the same decomposition and a conversion factor of one. */
  predicate UnitEq(a: Unit, b: Unit) {
    SameDimension(a.dimension, b.dimension) && a.scale == b.scale
  }

  /** `unit.physical_type` */
  function DimensionOfUnit(u: Unit): Dimension {
    u.dimension
  }

  /** An enabled multiplicative equivalency: one of the `source` base-unit
      product equals `factor` of the `target` one. It applies both ways. */
  datatype Equivalency = Equivalency(source: Signature, target: Signature, factor: Positive)

  /** The ambient catalog: the unit strings it parses and the equivalencies
      currently enabled. */
  datatype Context = Context(units: map<string, Unit>, equivalencies: seq<Equivalency>)

  /** What `unit(x)` accepts: a unit string or a unit. */
  datatype UnitLike = UnitName(name: string) | UnitValue(unit: Unit)

  /** `unit(x)`: a unit is returned as is; a string is parsed by the catalog. */
  function ResolveUnit(ctx: Context, x: UnitLike): Result<Unit> {
    match x
    case UnitValue(u) => Ok(u)
    case UnitName(s) => if s in ctx.units then Ok(ctx.units[s]) else Err(UnitParseError(s))
  }

  predicate Links(e: Equivalency, s: Signature, t: Signature) {
    (e.source == s && e.target == t) || (e.source == t && e.target == s)
  }

  /** The factor the first enabled equivalency between `s` and `t` gives. */
  function EquivalencyFactor(s: Signature, t: Signature, eqs: seq<Equivalency>): (r: Option<Positive>)
    ensures r.None? <==> forall i :: 0 <= i < |eqs| ==> !Links(eqs[i], s, t)
    ensures r.Some? ==> exists i :: 0 <= i < |eqs| && Links(eqs[i], s, t)
  {
    if eqs == [] then None
    else if eqs[0].source == s && eqs[0].target == t then Some(eqs[0].factor)
    else if eqs[0].source == t && eqs[0].target == s then Some(1.0 / eqs[0].factor)
    else
      var rest := EquivalencyFactor(s, t, eqs[1..]);
      assert forall i :: 1 <= i < |eqs| ==> eqs[i] == eqs[1..][i - 1];
      rest
  }

  lemma PositiveQuotient(a: Positive, b: Positive)
    ensures a / b > 0.0
  {
  }

  /** The factor that takes a value in `a` to a value in `b` (`a.to(b)`),
      or None where the catalog raises UnitConversionError: the direct
      conversion for equal dimensions, else an enabled equivalency. */
  function Factor(ctx: Context, a: Unit, b: Unit): (r: Option<Positive>)
    ensures SameDimension(a.dimension, b.dimension) ==> r == Some(a.scale / b.scale)
    ensures r.None? <==>
      !SameDimension(a.dimension, b.dimension)
      && forall i :: 0 <= i < |ctx.equivalencies| ==> !Links(ctx.equivalencies[i], a.dimension.signature, b.dimension.signature)
  {
    if SameDimension(a.dimension, b.dimension) then
      PositiveQuotient(a.scale, b.scale);
      Some(a.scale / b.scale)
    else
      match EquivalencyFactor(a.dimension.signature, b.dimension.signature, ctx.equivalencies)
      case Some(k) =>
        PositiveQuotient(a.scale * k, b.scale);
        Some(a.scale * k / b.scale)
      case None => None
  }

  /** Whether the catalog converts `a` to `b` without raising. */
  predicate Convertible(ctx: Context, a: Unit, b: Unit) {
    Factor(ctx, a, b).Some?
  }

  /** Element-wise multiplication by a factor, as the array library does it. */
  function Scale(v: seq<real>, f: real): seq<real> {
    seq(|v|, i requires 0 <= i < |v| => v[i] * f)
  }

  /** `a.to(b, v)`: the value `v` in `a`, expressed in `b`. */
  function Convert(ctx: Context, a: Unit, b: Unit, v: seq<real>): Result<seq<real>> {
    match Factor(ctx, a, b)
    case Some(k) => Ok(Scale(v, k))
    case None => Err(UnitConversionError)
  }

  lemma ScaleOne(v: seq<real>)
    ensures Scale(v, 1.0) == v
  {
  }

  lemma ScaleCompose(v: seq<real>, f: real, g: real)
    ensures Scale(Scale(v, f), g) == Scale(v, f * g)
  {
    forall i | 0 <= i < |v|
      ensures Scale(Scale(v, f), g)[i] == Scale(v, f * g)[i]
    {
      assert (v[i] * f) * g == v[i] * (f * g);
    }
  }

  /** Without enabled equivalencies, two units are convertible exactly when
      their dimensions agree. */
  lemma ConvertibleWithoutEquivalencies(ctx: Context, a: Unit, b: Unit)
    requires ctx.equivalencies == []
    ensures Convertible(ctx, a, b) <==> SameDimension(a.dimension, b.dimension)
  {
  }

  /** Converting between equal units gives back the same numbers. */
  lemma ConvertEqualUnits(ctx: Context, a: Unit, b: Unit, v: seq<real>)
    requires UnitEq(a, b)
    ensures Convert(ctx, a, b, v) == Ok(v)
  {
    assert a.scale / b.scale == 1.0;
    ScaleOne(v);
  }

  /** Between units of one dimension, converting there and back recovers
      the original numbers. */
  lemma {:induction false} ConvertRoundTrip(ctx: Context, a: Unit, b: Unit, v: seq<real>)
    requires SameDimension(a.dimension, b.dimension)
    ensures Convert(ctx, a, b, v) == Ok(Scale(v, a.scale / b.scale))
    ensures Convert(ctx, b, a, Scale(v, a.scale / b.scale)) == Ok(v)
  {
    var f, g := a.scale / b.scale, b.scale / a.scale;
    assert f * g == 1.0 by {
      assert f * g == (a.scale * b.scale) / (b.scale * a.scale);
    }
    ScaleCompose(v, f, g);
    ScaleOne(v);
  }

  /** A unit system: its unit for each physical type it covers. */
  datatype UnitSystem = UnitSystem(units: map<Signature, Unit>)

  /** Every unit of the system is of the physical type it is listed for. */
  predicate ValidSystem(usys: UnitSystem) {
    forall s :: s in usys.units ==> usys.units[s].dimension.signature == s
  }

  /** `usys[dimension]` */
  function SystemUnit(usys: UnitSystem, d: Dimension): Result<Unit> {
    if d.signature in usys.units then Ok(usys.units[d.signature]) else Err(NoUnitForDimension)
  }
}
