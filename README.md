# unxt quantity core — a Dafny model

unxt attaches units and physical types ("dimensions") to array values.
This project models the part of unxt that:

- names dimensions (`get_dimension_name`);
- coerces what is offered as a quantity's value (`value_converter`);
- answers the queries `dimensions_of`, `units_of`, `dimension_of` and `unit_of` on a quantity;
- converts between the checked `Quantity` and the unchecked `UncheckedQuantity`;
- converts and strips units (`uconvert`, `ustrip`);
- decides unit convertibility (`is_unit_convertible`);
- interoperates with astropy quantities (the `from_` constructors and the conversion methods in both directions).

Every core function is pure, so the model consists of datatypes, functions and lemmas.

How the pieces are represented:

- **Dispatch.** Each multiple-dispatch function is one Dafny function. It matches on a datatype of argument kinds. When one case is more specific than another, its arm comes first; for example, a quantity is an `ArrayValue` whose own case wins.
- **Units** (`Units`).
  - The unit catalog is data: a `Context` holds the unit strings the catalog parses and the equivalencies currently enabled.
  - A `Dimension` is a signature, meaning its exponents over the base units, together with its names in iteration order.
  - Two physical types compare equal when their signatures agree.
  - A `Unit` is a dimension and a positive scale. `a.to(b)` multiplies by `a.scale / b.scale` within one dimension, or uses an enabled multiplicative equivalency across dimensions.
  - A unit system maps signatures to units.
- **Quantities** (`Quantities`).
  - A quantity is its class, its value (a sequence of reals), its unit and any further fields.
  - A class belongs to the checked family (`Quantity` and its subclasses), the unchecked family, or another family. A class may carry a dimension parameter.
  - `Construct` models `cls(value, unit, **fields)`. A checked class parametrised by a different dimension rejects the unit; an unparametrised checked class takes its parameter from the unit.
- **Errors** are values of `Result`. Validation failures, the `TypeError` of the value converter, `NotImplementedError` from the abstract dispatch case, a unit string that does not parse, `UnitConversionError` and a missing unit-system entry are each a constructor of `Error`.

The `Examples` module restates most of the docstring examples on a small catalog and proves each one. It covers metres, kilometres, centimetres, kiloparsecs, seconds, megayears, gigayears, radians and the dimensionless unit.

Two points of the code shape the conversion contracts:

- **`uconvert` errors.** `uconvert` does not check dimensions itself. It calls `x.unit.to(u, ...)` and lets astropy's `UnitConversionError` propagate (`_interop/unxt_interop_astropy/quantity.py:218`).
- **Equivalencies.** Units of different physical types convert when an equivalency is enabled (`quantity.py:206-210`). So `uconvert` answers `Err(UnitConversionError)` exactly when `Convertible` is false, not whenever the dimensions differ.

## Model

| member | source | states |
|---|---|---|
| DimensionNames.SearchNonName | src/unxt/_unxt/unitsystems/utils.py:70-71 | The search for a character outside `[a-zA-Z_ ]` finds none exactly when every character is a letter, `_` or a space. When it finds one, it returns the first such position: the character there is invalid and every earlier one is valid. |
| DimensionNames.GetDimensionName | src/unxt/_unxt/unitsystems/utils.py:43-112 | **String:** accepted exactly when it is a valid name; returned unchanged, without checking that the dimension exists; otherwise the non-letter error with its exact message. **Physical type equal to speed:** "speed". **Any other physical type:** its first name when that name is valid; the non-letter error when it is not; StopIteration when it has no names. **Unit:** answers as its physical type does. **Anything else:** NotImplementedError. Every name returned passes validation. |
| DimensionNames.NameIdempotent | src/unxt/_unxt/unitsystems/utils.py:70-75 | A name that passed validation passes again and is returned unchanged. |
| DimensionNames.NameIsMember | src/unxt/_unxt/unitsystems/utils.py:97 | A physical type other than speed resolves to one of its own names. |
| DimensionNames.SpeedDeterministic | src/unxt/_unxt/unitsystems/utils.py:93-96 | Any two physical types equal to speed resolve to "speed", whatever their name sets and orders. |
| DimensionNames.SpeedUnitName | src/unxt/_unxt/unitsystems/utils.py:100-112 | Every unit whose physical type is speed resolves to "speed". |
| ValueConversion.ValueConverter | src/unxt/_src/quantity/value.py:15-66 | **Array-like, list or tuple:** becomes an array of the same elements in the same order, with no warning. **Any quantity:** refused with a TypeError whose message is built from its concrete class name. **Any other `ArrayValue`:** passed through unchanged, with exactly one warning, which names its class. **Unregistered type:** NotImplementedError. A value the converter produces is never a quantity. |
| ValueConversion.RejectionNamesTypeAndFrom | src/unxt/_src/quantity/value.py:62-66 | The rejection of every quantity contains the quantity's concrete class name and the hint ``.from_``. |
| Quantities.Construct | src/unxt/_interop/unxt_interop_astropy/quantity.py:46 | `cls(value, unit, **fields)` fails exactly when the class is a checked class parametrised by another dimension, and the error is a dimension mismatch. A success is well formed, keeps the value, unit and fields, keeps the class up to its parameter, and keeps a class that was already parametrised. |
| Quantities.Instantiate | src/unxt/_src/quantity/compat.py:76 | For an unparametrised class, construction never fails and gives exactly this record. |
| Compat.DimensionsOf | src/unxt/_src/quantity/compat.py:17-29 | `dimensions_of(q)` is the physical type of `q`'s unit. For a well-formed checked quantity, it agrees with the class parameter. |
| Compat.UnitsOf | src/unxt/_src/quantity/compat.py:36-48 | `units_of(q)` is `q`'s unit, and that unit's physical type is `dimensions_of(q)`. |
| Compat.ToUnchecked | src/unxt/_src/quantity/compat.py:55-76 | **Already unchecked:** an instance of the unchecked family is returned itself. **Anything else:** `UncheckedQuantity(q.value, q.unit)`. The result is always unchecked and keeps value and unit. |
| Compat.ToChecked | src/unxt/_src/quantity/compat.py:79-103 | **Already checked:** an instance of the checked family is returned itself. **Anything else:** `Quantity(q.value, q.unit)`, which is parametrised by the unit's physical type and has no further fields. The result is always checked and keeps value and unit. |
| Compat.ConversionIdempotent | src/unxt/_src/quantity/compat.py:74-75 | Converting a second time to the same variant changes nothing. |
| Compat.CheckedRoundTrip | src/unxt/_src/quantity/compat.py:55-103 | Checked to unchecked and back keeps value and unit, and ends in the checked family. For a plain parametrised `Quantity` with no further fields, it gives back the same record. |
| Compat.UncheckedRoundTrip | src/unxt/_src/quantity/compat.py:55-103 | Unchecked to checked and back keeps value and unit. For a plain `UncheckedQuantity`, it gives back the same record. |
| QuantityApi.DimensionOf | src/unxt/_src/quantity/register_api.py:23-35 | `dimension_of(q)` is the physical type of `q`'s unit. For a well-formed checked quantity, it agrees with the class parameter. |
| QuantityApi.UnitOf | src/unxt/_src/quantity/register_api.py:42-54 | `unit_of(q)` is `q`'s unit, and that unit's physical type is `dimension_of(q)`. |
| QuantityApi.UConvert | src/unxt/_src/quantity/register_api.py:61-91 | **Unit:** takes the unit case. **String:** takes the unit case for the unit the string parses to; fails with the parse error when it does not parse. **Unit system:** takes the unit case for the system's unit of the quantity's dimension; fails when the system has none. |
| QuantityApi.UStrip | src/unxt/_src/quantity/register_api.py:98-163 | **No target:** the stored value, unconverted. **Unit, string or unit system:** the value of `uconvert` with the same target, and its error when it fails. |
| QuantityApi.IsUnitConvertible | src/unxt/_src/quantity/register_api.py:169-216 | Fails only when a string does not parse, and succeeds exactly when both arguments resolve to units. It answers whether the source unit converts to the target unit (a failed conversion answers false). A quantity source answers with its unit. |
| QuantityApi.ConvertibleOfQuantity | src/unxt/_src/quantity/register_api.py:200-216 | For a quantity, the answer is the answer for its unit. |
| QuantityApi.ConvertibleIffConverts | src/unxt/_src/quantity/register_api.py:169-216 | For a unit target and a well-formed quantity, `is_unit_convertible` never fails. It answers true exactly when `uconvert` to that unit succeeds. |
| QuantityApi.StringDelegatesToUnit | src/unxt/_src/quantity/register_api.py:61-74 | A string that parses converts and strips exactly as the unit it parses to. |
| QuantityApi.SystemKeepsDimension | src/unxt/_src/quantity/register_api.py:77-91 | Converting a well-formed quantity to a unit system that has an entry for its dimension succeeds and keeps the physical type. |
| AstropyConvert.UConvert | src/unxt/_interop/unxt_interop_astropy/quantity.py:187-232 | **Equal units:** `x` itself. **Inconvertible units:** UnitConversionError. **Same physical type:** `x` with only value (rescaled by the factor) and unit replaced, so class and fields are kept. **Different physical type under an equivalency:** the unparametrised class rebuilt with all of `x`'s other fields, value rescaled, in `u`. Every success is in `u`, and well-formedness is preserved. |
| AstropyConvert.UConvertRoundTrip | src/unxt/_interop/unxt_interop_astropy/quantity.py:213-222 | Within one physical type, converting to `u` and back to the original unit gives back the original record. |
| AstropyConvert.StripAstropy | src/unxt/_interop/unxt_interop_astropy/quantity.py:235-249 | `x.to_value(u)`: fails as `unit(u)` fails. Otherwise it is `x`'s value converted to that unit: the value itself for an equal unit, of the same length when it succeeds. |
| AstropyInterop.FromAstropy | src/unxt/_interop/unxt_interop_astropy/quantity.py:27-46 | `cls.from_(aq)` succeeds exactly when `cls(aq.value, aq.unit)` does. The result holds `aq`'s value and unit in `cls` (up to its parameter), with no further fields. |
| AstropyInterop.FromAstropyIn | src/unxt/_interop/unxt_interop_astropy/quantity.py:49-68 | `cls.from_(aq, u)` fails as `unit(u)` fails, and with UnitConversionError when `aq`'s unit does not convert to `u`. For a convertible `u`, the result is exactly `cls(value, u)` with the value scaled by the conversion factor. That includes the dimension mismatch of a class parametrised by another physical type. A result is an instance of `cls` (up to its parameter), in `u`, with no further fields. For an unparametrised class, every convertible unit succeeds. |
| AstropyInterop.ToAstropy | src/unxt/_interop/unxt_interop_astropy/quantity.py:75-130 | The conversions to astropy `Quantity`, `Distance` and `Angle` give an object of that class with `q`'s value and unit. |
| AstropyInterop.ToUnxt | src/unxt/_interop/unxt_interop_astropy/quantity.py:137-176 | The conversions of an astropy quantity to `Quantity` and `UncheckedQuantity` give a well-formed instance of that class, with its value and unit and no further fields. |
| AstropyInterop.AstropyRoundTrip | src/unxt/_interop/unxt_interop_astropy/quantity.py:75-176 | astropy to unxt and back gives back the same astropy quantity. |
| AstropyInterop.UnxtRoundTrip | src/unxt/_interop/unxt_interop_astropy/quantity.py:75-176 | unxt to astropy and back keeps value and unit. For an instance of a built-in class with no further fields, it gives back the same record. |
| AstropyInterop.FromAgreesWithConvert | src/unxt/_interop/unxt_interop_astropy/quantity.py:27-46 | `cls.from_(aq)` for a built-in class equals the conversion of `aq` to that class. |
| Units.EquivalencyFactor | src/unxt/_interop/unxt_interop_astropy/quantity.py:206-218 | Finds a factor exactly when some enabled equivalency links the two dimensions, in either direction. |
| Units.Factor | src/unxt/_interop/unxt_interop_astropy/quantity.py:218 | Within one dimension, the factor of `a.to(b)` is `a.scale / b.scale`. There is no factor exactly when the dimensions differ and no enabled equivalency links them. |
| Units.ConvertRoundTrip | src/unxt/_interop/unxt_interop_astropy/quantity.py:218 | Within one dimension, converting from `a` to `b` and back recovers the original numbers. |
| Units.ConvertEqualUnits | src/unxt/_interop/unxt_interop_astropy/quantity.py:213-215 | Converting between equal units gives back the same numbers, so the hot path agrees with the general path. |
| Units.ConvertibleWithoutEquivalencies | src/unxt/_src/quantity/register_api.py:191-197 | With no equivalency enabled, two units are convertible exactly when their physical types agree. |
| Examples.DimensionNameExamples | src/unxt/_unxt/unitsystems/utils.py:57-67 | The docstring examples: "length", "not real", the rejection of "*62", the length and speed physical types, and `km`. |
| Examples.SpeedNeedsSpecialCase | src/unxt/_unxt/unitsystems/utils.py:93-96 | A speed name set held in the other order headed by "velocity", and it still resolves to "speed". |
| Examples.ValueConverterListExample | src/unxt/_src/quantity/value.py:40-41 | `value_converter([1, 2, 3])` is the array of those elements. |
| Examples.ValueConverterQuantityExample | src/unxt/_src/quantity/value.py:54-59 | `value_converter(Quantity(1, "m"))` is refused with the message built from `Quantity[PhysicalType('length')]`. |
| Examples.VariantConversionExamples | src/unxt/_src/quantity/compat.py:61-98 | Self-conversions return the quantity itself. `UncheckedQuantity(1, "m")` converts to `Quantity['length'](1, "m")`. |
| Examples.QueryExamples | src/unxt/_src/quantity/register_api.py:29-51 | `dimension_of`, `unit_of`, `dimensions_of` and `units_of` of `Quantity(1, "m")`. |
| Examples.UConvertExamples | src/unxt/_src/quantity/register_api.py:69-88 | 1000 m is 1 km, by unit and by string. 1e17 km in the galactic system is `1e17 * 1000 / (metres per kpc)` kpc. With dimensionless angles enabled, radians convert to the dimensionless unit with the same numbers. |
| Examples.UStripExamples | src/unxt/_src/quantity/register_api.py:106-160 | The stripped values of the `ustrip` docstrings: no target, unit, string and unit system. |
| Examples.IsUnitConvertibleExamples | src/unxt/_src/quantity/register_api.py:183-213 | "cm" from "m" is true and "m" from "Gyr" is false. For `Quantity(1, "m")`, "cm" is true and "Gyr" is false. |
| Examples.AstropyExamples | src/unxt/_interop/unxt_interop_astropy/quantity.py:40-172 | The docstring examples of `from_`, the conversions each way and `ustrip` on an astropy quantity. |
| Examples.FromAstropyInMismatch | src/unxt/_interop/unxt_interop_astropy/quantity.py:66-68 | `Quantity["time"].from_` of 1 m in "cm" converts the value, and then the class rejects the unit with a dimension mismatch. |
| Examples.EndToEnd | src/unxt/_src/quantity/register_api.py:61-74 | `Quantity(1, "m")` converted to "km" strips to 0.001 in "km". Converted to "s", it fails with UnitConversionError. |

## Left out

- The dispatch machinery itself (plum's type resolution, `conversion_method` registration and `convert`): each dispatch function is one match over argument kinds.
- Object identity: `is` is modelled as structural equality. A returned-itself branch is distinguishable from a copy only for a subclass instance or one with further fields, which a copy would drop. For a plain instance, such as `convert(Quantity(1, "m"), Quantity) is q`, a copy would be the same record, so the no-copy guarantee is not observable in the model.
- Array values: shape, dtype, weak typing and `jnp.asarray` keyword arguments are not modelled, and a value is a flat sequence of reals.
- Floating point: arithmetic is exact on reals, so `float32` rounding in the docstrings (such as `3.2407792`) is not modelled. The examples state the exact quotient instead.
- Affine equivalencies such as `temperature()` (the Kelvin to `deg_C` example at `quantity.py:200-204`): only multiplicative equivalencies are modelled.
- Unit parsing and the astropy catalog: parsing is a lookup in the `Context` map, and a unit system is a lookup by signature with no derivation of composite units.
- Context managers such as `add_enabled_equivalencies`: the enabled equivalencies are a `Context` parameter.
- The warnings module: a warning is a string returned next to the converted value, and category and stack level are not modelled.
- Quantity construction beyond the dimension check and the parametrisation of the checked class: the quantity base classes are not part of this model, and their value and unit converters are not run again by `Construct`.
- Quantities.DimensionRepr: a physical type with several names is rendered in the order the names are held. astropy's `PhysicalType` representation sorts them, so the class name in a `TypeError` message can differ for a multi-name parameter. The modelled examples have one name only.
- The `Distance` and `Angle` constructors' own validation (such as the units a `Distance` accepts): the astropy classes are only tagged.
- The passthrough `ArrayValue` of `value_converter` is not stored back as a quantity value: the model returns it as a `FieldValue`.
- `AstropyConvert.UConvert` for a unit string: `uconvert(AstropyUnit, ...)` receives a unit. Strings reach it through `QuantityApi.UConvert`.
- The package `__init__` files re-export names only and carry no behaviour.
