/** Resolution of a dimension name from a string, a physical type or a unit
    (`get_dimension_name`). Each dispatch case is one arm of the match; the
    unit case defers to the physical-type case, which defers to the string
    case. */
module DimensionNames {
  import opened Results
  import opened Units

  const NonLetterMessage: string := "Input contains non-letter characters"

  /** The built-in `speed` physical type. Its name set holds two names, so
      taking "the first" of them is not deterministic. */
  const Speed: Dimension := Dimension(SpeedSignature, ["speed", "velocity"])

  /** A letter, `_` or a space: a character the class `[^a-zA-Z_ ]` does not match. */
  predicate IsNameChar(c: char) {
    ('a' <= c <= 'z') || ('A' <= c <= 'Z') || c == '_' || c == ' '
  }

  predicate IsName(s: string) {
    forall i :: 0 <= i < |s| ==> IsNameChar(s[i])
  }

  /** `re.search(r"[^a-zA-Z_ ]", s)`: the position of the first match. */
  function SearchNonName(s: string): (r: Option<nat>)
    ensures r.None? <==> IsName(s)
    ensures r.Some? ==> r.value < |s| && !IsNameChar(s[r.value]) && IsName(s[..r.value])
  {
    if s == [] then None
    else if !IsNameChar(s[0]) then Some(0)
    else match SearchNonName(s[1..])
      case None => None
      case Some(k) =>
        assert s[..k + 1] == [s[0]] + s[1..][..k];
        Some(k + 1)
  }

  /** The argument kinds `get_dimension_name` has cases for; `OtherSource`
      stands for any other object. */
  datatype NameSource =
    | StringSource(s: string)
    | DimensionSource(d: Dimension)
    | UnitSource(u: Unit)
    | OtherSource

  function Rank(x: NameSource): nat {
    match x
    case UnitSource(_) => 2
    case DimensionSource(_) => 1
    case _ => 0
  }

  function GetDimensionName(x: NameSource): (r: Result<string>)
    decreases Rank(x)
    // a string is validated and returned unchanged; its existence is not checked
    ensures x.StringSource? ==> (r.Ok? <==> IsName(x.s))
    ensures x.StringSource? && r.Ok? ==> r.value == x.s
    ensures x.StringSource? && r.Err? ==> r.error == InvalidName(NonLetterMessage)
    // speed is resolved to "speed", whatever order its names are held in
    ensures x.DimensionSource? && SameDimension(x.d, Speed) ==> r == Ok("speed")
    // any other physical type: the validated name of the member iteration yields first
    ensures x.DimensionSource? && !SameDimension(x.d, Speed) ==>
      (r.Ok? <==> x.d.names != [] && IsName(x.d.names[0]))
    ensures x.DimensionSource? && !SameDimension(x.d, Speed) && r.Ok? ==> r.value == x.d.names[0]
    ensures x.DimensionSource? && !SameDimension(x.d, Speed) && x.d.names == [] ==> r == Err(StopIteration)
    ensures x.DimensionSource? && !SameDimension(x.d, Speed) && x.d.names != [] && !IsName(x.d.names[0]) ==>
      r == Err(InvalidName(NonLetterMessage))
    // a unit resolves as its physical type does
    ensures x.UnitSource? ==> r == GetDimensionName(DimensionSource(x.u.dimension))
    ensures x.OtherSource? ==> r == Err(NotImplemented)
    // every name returned passes validation
    ensures r.Ok? ==> IsName(r.value)
  {
    match x
    case StringSource(s) =>
      if SearchNonName(s).Some? then Err(InvalidName(NonLetterMessage)) else Ok(s)
    case DimensionSource(d) =>
      if SameDimension(d, Speed) then Ok("speed")
      else if d.names == [] then Err(StopIteration)
      else GetDimensionName(StringSource(d.names[0]))
    case UnitSource(u) => GetDimensionName(DimensionSource(u.dimension))
    case OtherSource => Err(NotImplemented)
  }

  /** Validating a name that passed validation gives it back unchanged. */
  lemma NameIdempotent(s: string)
    requires GetDimensionName(StringSource(s)).Ok?
    ensures GetDimensionName(StringSource(GetDimensionName(StringSource(s)).value)) == GetDimensionName(StringSource(s))
  {
  }

  /** A physical type other than speed resolves to one of its own names. */
  lemma NameIsMember(d: Dimension)
    requires !SameDimension(d, Speed)
    requires GetDimensionName(DimensionSource(d)).Ok?
    ensures GetDimensionName(DimensionSource(d)).value in d.names
  {
  }

  /** Two physical types compared equal to speed resolve to the same name,
      whatever their name sets and orders. */
  lemma SpeedDeterministic(d1: Dimension, d2: Dimension)
    requires SameDimension(d1, Speed) && SameDimension(d2, Speed)
    ensures GetDimensionName(DimensionSource(d1)) == GetDimensionName(DimensionSource(d2)) == Ok("speed")
  {
  }

  /** Any unit of speed resolves to "speed". */
  lemma SpeedUnitName(u: Unit)
    requires u.dimension.signature == SpeedSignature
    ensures GetDimensionName(UnitSource(u)) == Ok("speed")
  {
  }
}
