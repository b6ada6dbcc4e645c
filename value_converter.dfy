/** `value_converter`: the coercion of whatever is offered as the value
    field of a quantity. The arms of the match follow the most-specific-type
    rule of the dispatch: every quantity is also a `quax.ArrayValue`, and the
    quantity case is the more specific one, so it is matched first. */
module ValueConversion {
  import opened Results
  import opened Quantities

  /** A `quax.ArrayValue`: either a quantity, or another subclass known by
      its class name (its contents are opaque to this core). */
  datatype ArrayValue =
    | QuantityValue(q: Quantity)
    | OtherArrayValue(typeName: string, payload: seq<real>)

  /** The kinds of input the dispatch has cases for; `Unregistered` stands
      for an object of any type with no case of its own. */
  datatype ValueInput =
    | ArrayLike(elems: seq<real>)   // an array or a numeric scalar
    | ListOf(elems: seq<real>)
    | TupleOf(elems: seq<real>)
    | Wrapped(av: ArrayValue)
    | Unregistered(typeName: string)

  /** What the converter produces: a canonical array, or an `ArrayValue`
      passed through unchanged. */
  datatype FieldValue = JaxArray(elems: seq<real>) | Foreign(av: ArrayValue)

  /** A produced value together with the warnings emitted on the way. */
  datatype Converted = Converted(value: FieldValue, warnings: seq<string>)

  const RejectionPrefix: string := "Cannot convert '"
  const FromHint: string := "`.from_`"
  const RejectionSuffix: string := "' to a value. For a Quantity, use the " + FromHint + " constructor instead."

  function RejectionMessage(typeName: string): string {
    RejectionPrefix + typeName + RejectionSuffix
  }

  function UnregisteredWarning(typeName: string): string {
    "'quax.ArrayValue' subclass '" + typeName + "' does not have a registered converter. Returning the object as is."
  }

  ghost predicate ContainsAt(s: string, t: string, i: int) {
    0 <= i <= |s| - |t| && s[i..i + |t|] == t
  }

  ghost predicate Contains(s: string, t: string) {
    exists i :: ContainsAt(s, t, i)
  }

  function ValueConverter(x: ValueInput): (r: Result<Converted>)
    // an array-like, list or tuple becomes an array of the same elements in the same order
    ensures x.ArrayLike? || x.ListOf? || x.TupleOf? ==>
      r.Ok? && r.value.value == JaxArray(x.elems) && r.value.warnings == []
    // any quantity is refused with a TypeError naming its class
    ensures x.Wrapped? && x.av.QuantityValue? ==>
      r == Err(CannotConvertToValue(RejectionMessage(TypeName(x.av.q.cls))))
    // any other ArrayValue passes through unchanged, with exactly one warning naming its class
    ensures x.Wrapped? && x.av.OtherArrayValue? ==>
      r.Ok? && r.value.value == Foreign(x.av)
      && |r.value.warnings| == 1 && Contains(r.value.warnings[0], x.av.typeName)
    // anything else reaches the abstract case
    ensures x.Unregistered? ==> r == Err(NotImplemented)
    // a produced value is never a quantity
    ensures r.Ok? ==> !(r.value.value.Foreign? && r.value.value.av.QuantityValue?)
  {
    match x
    case ArrayLike(e) => Ok(Converted(JaxArray(e), []))
    case ListOf(e) => Ok(Converted(JaxArray(e), []))
    case TupleOf(e) => Ok(Converted(JaxArray(e), []))
    case Wrapped(QuantityValue(q)) => Err(CannotConvertToValue(RejectionMessage(TypeName(q.cls))))
    case Wrapped(av) =>
      var msg := UnregisteredWarning(av.typeName);
      assert ContainsAt(msg, av.typeName, 28);
      Ok(Converted(Foreign(av), [msg]))
    case Unregistered(_) => Err(NotImplemented)
  }

  /** The rejection names the concrete class and points to `.from_`. */
  lemma RejectionNamesTypeAndFrom(q: Quantity)
    ensures ValueConverter(Wrapped(QuantityValue(q))).Err?
    ensures Contains(ValueConverter(Wrapped(QuantityValue(q))).error.message, TypeName(q.cls))
    ensures Contains(ValueConverter(Wrapped(QuantityValue(q))).error.message, FromHint)
  {
    var n := TypeName(q.cls);
    var msg := RejectionMessage(n);
    assert ContainsAt(msg, n, |RejectionPrefix|);
    var k := |RejectionPrefix| + |n| + 38;
    assert ContainsAt(RejectionSuffix, FromHint, 38);
    assert msg[k..k + |FromHint|] == RejectionSuffix[38..38 + |FromHint|];
    assert ContainsAt(msg, FromHint, k);
  }
}
