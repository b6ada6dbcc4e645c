/** The documented examples of the core, stated on a small sample of the
    unit catalog: metres, kilometres, centimetres, kiloparsecs, seconds,
    megayears, gigayears, radians and the dimensionless unit. */
module Examples {
  import opened Results
  import opened Units
  import opened Quantities
  import DimensionNames
  import ValueConversion
  import Compat
  import QuantityApi
  import AstropyConvert
  import AstropyInterop

  const AngleSignature: Signature := [0, 0, 0, 0, 0, 0, 0, 1]
  const DimensionlessSignature: Signature := [0, 0, 0, 0, 0, 0, 0, 0]

  const Length: Dimension := Dimension(LengthSignature, ["length"])
  const Time: Dimension := Dimension(TimeSignature, ["time"])
  const Angle: Dimension := Dimension(AngleSignature, ["angle"])
  const Dimensionless: Dimension := Dimension(DimensionlessSignature, ["dimensionless"])

  const Meter: Unit := Unit(Length, 1.0)
  const Kilometer: Unit := Unit(Length, 1000.0)
  const Centimeter: Unit := Unit(Length, 0.01)
  const Kiloparsec: Unit := Unit(Length, 30856775814913673000.0)
  const Second: Unit := Unit(Time, 1.0)
  const Megayear: Unit := Unit(Time, 31557600000000.0)
  const Gigayear: Unit := Unit(Time, 31557600000000000.0)
  const Radian: Unit := Unit(Angle, 1.0)
  const One: Unit := Unit(Dimensionless, 1.0)

  const Catalog: Context := Context(
    map["m" := Meter, "km" := Kilometer, "cm" := Centimeter, "kpc" := Kiloparsec,
        "s" := Second, "Myr" := Megayear, "Gyr" := Gigayear, "rad" := Radian, "" := One],
    [])

  /** The catalog with the dimensionless-angles equivalency enabled. */
  const CatalogWithAngles: Context := Catalog.(equivalencies := [Equivalency(AngleSignature, DimensionlessSignature, 1.0)])

  /** Part of the galactic unit system. */
  const Galactic: UnitSystem := UnitSystem(map[LengthSignature := Kiloparsec, TimeSignature := Megayear])

  /** `Quantity(value, unit)` */
  function Q(value: seq<real>, unit: Unit): Quantity {
    Instantiate(QuantityClass, value, unit, map[])
  }

  /** `UncheckedQuantity(value, unit)` */
  function UQ(value: seq<real>, unit: Unit): Quantity {
    Instantiate(UncheckedClass, value, unit, map[])
  }

  lemma DimensionNameExamples()
    ensures DimensionNames.GetDimensionName(DimensionNames.StringSource("length")) == Ok("length")
    ensures DimensionNames.GetDimensionName(DimensionNames.StringSource("not real")) == Ok("not real")
    ensures DimensionNames.GetDimensionName(DimensionNames.StringSource("*62"))
         == Err(InvalidName("Input contains non-letter characters"))
    ensures DimensionNames.GetDimensionName(DimensionNames.DimensionSource(Length)) == Ok("length")
    ensures DimensionNames.GetDimensionName(DimensionNames.DimensionSource(DimensionNames.Speed)) == Ok("speed")
    ensures DimensionNames.GetDimensionName(DimensionNames.UnitSource(Kilometer)) == Ok("length")
  {
    assert DimensionNames.SearchNonName("*62") == Some(0);
  }

  /** Without the special case, a speed name set held in the other order
      would resolve to "velocity". */
  lemma SpeedNeedsSpecialCase()
    ensures DimensionNames.GetDimensionName(DimensionNames.StringSource(["velocity", "speed"][0])) == Ok("velocity")
    ensures DimensionNames.GetDimensionName(DimensionNames.DimensionSource(Dimension(SpeedSignature, ["velocity", "speed"])))
         == Ok("speed")
  {
  }

  lemma ValueConverterListExample()
    ensures ValueConversion.ValueConverter(ValueConversion.ListOf([1.0, 2.0, 3.0]))
         == Ok(ValueConversion.Converted(ValueConversion.JaxArray([1.0, 2.0, 3.0]), []))
  {
  }

  /** `value_converter(Quantity(1, "m"))` is refused, naming the class. */
  lemma ValueConverterQuantityExample()
    ensures ValueConversion.ValueConverter(ValueConversion.Wrapped(ValueConversion.QuantityValue(Q([1.0], Meter))))
         == Err(CannotConvertToValue(ValueConversion.RejectionMessage("Quantity[PhysicalType('length')]")))
  {
    var q := Q([1.0], Meter);
    assert q.cls == QuantityType(CheckedFamily, "Quantity", Some(Length));
    assert QuotedNames(["length"]) == "'length'";
    assert DimensionRepr(Length) == "PhysicalType('length')";
    assert TypeName(q.cls) == "Quantity[PhysicalType('length')]";
  }

  lemma VariantConversionExamples()
    ensures Compat.ToUnchecked(UQ([1.0], Meter)) == UQ([1.0], Meter)
    ensures Compat.ToChecked(Q([1.0], Meter)) == Q([1.0], Meter)
    ensures Compat.ToChecked(UQ([1.0], Meter)) == Q([1.0], Meter)
    ensures Q([1.0], Meter).cls == QuantityType(CheckedFamily, "Quantity", Some(Length))
  {
  }

  lemma QueryExamples()
    ensures QuantityApi.DimensionOf(Q([1.0], Meter)) == Length
    ensures QuantityApi.UnitOf(Q([1.0], Meter)) == Meter
    ensures Compat.DimensionsOf(Q([1.0], Meter)) == Length
    ensures Compat.UnitsOf(Q([1.0], Meter)) == Meter
  {
  }

  lemma UConvertExamples()
    ensures QuantityApi.UConvert(Catalog, QuantityApi.ToName("km"), Q([1000.0], Meter)) == Ok(Q([1.0], Kilometer))
    ensures QuantityApi.UConvert(Catalog, QuantityApi.ToUnit(Kilometer), Q([1000.0], Meter)) == Ok(Q([1.0], Kilometer))
    ensures QuantityApi.UConvert(Catalog, QuantityApi.ToSystem(Galactic), Q([100000000000000000.0], Kilometer))
         == Ok(Q([100000000000000000.0 * 1000.0 / 30856775814913673000.0], Kiloparsec))
    ensures AstropyConvert.UConvert(CatalogWithAngles, One, Q([1.0, 2.0, 3.0], Radian)) == Ok(Q([1.0, 2.0, 3.0], One))
  {
    assert Scale([1000.0], 1.0 / 1000.0) == [1.0];
    assert Scale([100000000000000000.0], 1000.0 / 30856775814913673000.0)
        == [100000000000000000.0 * 1000.0 / 30856775814913673000.0];
    assert Scale([1.0, 2.0, 3.0], 1.0 * 1.0 / 1.0) == [1.0, 2.0, 3.0];
  }

  lemma UStripExamples()
    ensures QuantityApi.UStrip(Catalog, None, Q([1000.0], Meter)) == Ok([1000.0])
    ensures QuantityApi.UStrip(Catalog, Some(QuantityApi.ToUnit(Kilometer)), Q([1000.0], Meter)) == Ok([1.0])
    ensures QuantityApi.UStrip(Catalog, Some(QuantityApi.ToName("km")), Q([1000.0], Meter)) == Ok([1.0])
    ensures QuantityApi.UStrip(Catalog, Some(QuantityApi.ToSystem(Galactic)), Q([100000000000000000.0], Kilometer))
         == Ok([100000000000000000.0 * 1000.0 / 30856775814913673000.0])
  {
    assert Scale([1000.0], 1.0 / 1000.0) == [1.0];
    assert Scale([100000000000000000.0], 1000.0 / 30856775814913673000.0)
        == [100000000000000000.0 * 1000.0 / 30856775814913673000.0];
  }

  lemma IsUnitConvertibleExamples()
    ensures QuantityApi.IsUnitConvertible(Catalog, UnitName("cm"), QuantityApi.FromUnitLike(UnitName("m"))) == Ok(true)
    ensures QuantityApi.IsUnitConvertible(Catalog, UnitName("m"), QuantityApi.FromUnitLike(UnitName("Gyr"))) == Ok(false)
    ensures QuantityApi.IsUnitConvertible(Catalog, UnitName("cm"), QuantityApi.FromQuantity(Q([1.0], Meter))) == Ok(true)
    ensures QuantityApi.IsUnitConvertible(Catalog, UnitName("Gyr"), QuantityApi.FromQuantity(Q([1.0], Meter))) == Ok(false)
  {
  }

  lemma AstropyExamples()
    ensures AstropyConvert.StripAstropy(Catalog, UnitValue(Meter), AstropyConvert.AstropyQuantity(AstropyConvert.PlainQuantity, [1000.0], Meter))
         == Ok([1000.0])
    ensures AstropyInterop.FromAstropy(Catalog, QuantityClass, AstropyConvert.AstropyQuantity(AstropyConvert.PlainQuantity, [1.0], Meter))
         == Ok(Q([1.0], Meter))
    ensures AstropyInterop.FromAstropyIn(Catalog, QuantityClass, AstropyConvert.AstropyQuantity(AstropyConvert.PlainQuantity, [1.0], Meter), UnitName("cm"))
         == Ok(Q([100.0], Centimeter))
    ensures AstropyInterop.ToAstropy(Catalog, Q([1.0], Centimeter), AstropyConvert.PlainQuantity)
         == AstropyConvert.AstropyQuantity(AstropyConvert.PlainQuantity, [1.0], Centimeter)
    ensures AstropyInterop.ToUnxt(Catalog, AstropyConvert.AstropyQuantity(AstropyConvert.PlainQuantity, [1.0], Centimeter), Checked)
         == Q([1.0], Centimeter)
    ensures AstropyInterop.ToUnxt(Catalog, AstropyConvert.AstropyQuantity(AstropyConvert.PlainQuantity, [1.0], Centimeter), Unchecked)
         == UQ([1.0], Centimeter)
  {
    assert Scale([1.0], 1.0 / 0.01) == [100.0];
  }

  /** `Quantity["time"].from_(apyu.Quantity(1, "m"), "cm")`: the conversion
      succeeds, and the class then rejects the unit. */
  lemma FromAstropyInMismatch()
    ensures AstropyInterop.FromAstropyIn(Catalog, QuantityClass.(parameter := Some(Time)),
              AstropyConvert.AstropyQuantity(AstropyConvert.PlainQuantity, [1.0], Meter), UnitName("cm"))
         == Err(DimensionMismatch)
  {
  }

  /** `Quantity(1, "m")` converted to "km" strips to 0.001 in "km"; converted
      to "s" it fails. */
  lemma EndToEnd()
    ensures QuantityApi.UConvert(Catalog, QuantityApi.ToName("km"), Q([1.0], Meter)).Ok?
    ensures QuantityApi.UStrip(Catalog, Some(QuantityApi.ToName("km")),
              QuantityApi.UConvert(Catalog, QuantityApi.ToName("km"), Q([1.0], Meter)).value) == Ok([0.001])
    ensures QuantityApi.UConvert(Catalog, QuantityApi.ToName("s"), Q([1.0], Meter)) == Err(UnitConversionError)
  {
    assert Scale([1.0], 1.0 / 1000.0) == [0.001];
  }
}
