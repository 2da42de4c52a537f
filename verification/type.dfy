/**
 * The value classifier of src/Type.js: ten predicates and the `getType`
 * dispatcher that composes them in a fixed priority order.
 *
 * `disableTypesafe` is the JavaScript value passed as the optional flag; only
 * the literal `true` switches the loose numeric test on. `host` answers
 * ToNumber for strings and objects (see JsValue.ToNumber).
 */
module Type {
  import opened JsValue

  /** What a call of `getType` does: return a value, or throw. */
  datatype Outcome = Returns(result: Value) | Throws

  /** The `undefined` that a function falling off its end returns. */
  const NoResult: Outcome := Returns(Undefined)

  function Named(name: string): Outcome
  {
    Returns(Str(name))
  }

  /** `disableTypesafe === true` */
  predicate OverrideOn(disableTypesafe: Value)
  {
    disableTypesafe == Bool(true)
  }

  predicate IsString(value: Value)
    ensures IsString(value) <==> value.Str?
  {
    TypeOf(value) == "string"
  }

  /**
   * A native number, or, with the override on, anything whose ToNumber is
   * not NaN.
   */
  predicate IsNumber(value: Value, disableTypesafe: Value, host: Value -> NumVal)
    ensures value.Num? ==> IsNumber(value, disableTypesafe, host)
    ensures IsNumber(value, disableTypesafe, host) ==> value.Num? || OverrideOn(disableTypesafe)
  {
    TypeOf(value) == "number" || (OverrideOn(disableTypesafe) && !IsNaN(value, host))
  }

  /** A number whose remainder modulo 1 is not `=== 0`. */
  predicate IsFloat(value: Value, disableTypesafe: Value, host: Value -> NumVal)
    ensures IsFloat(value, disableTypesafe, host) ==> IsNumber(value, disableTypesafe, host)
    ensures IsFloat(value, disableTypesafe, host)
            <==> IsNumber(value, disableTypesafe, host)
                 && !(ToNumber(value, host).Finite? && IsIntegral(ToNumber(value, host).r))
  {
    RemainderByOneIsZeroIff(ToNumber(value, host));
    IsNumber(value, disableTypesafe, host)
    && !NumStrictEquals(Remainder(ToNumber(value, host), Finite(1.0)), Finite(0.0))
  }

  /** A number whose remainder modulo 1 is `=== 0`. */
  predicate IsInteger(value: Value, disableTypesafe: Value, host: Value -> NumVal)
    ensures IsInteger(value, disableTypesafe, host) ==> IsNumber(value, disableTypesafe, host)
    ensures IsInteger(value, disableTypesafe, host)
            <==> IsNumber(value, disableTypesafe, host)
                 && ToNumber(value, host).Finite? && IsIntegral(ToNumber(value, host).r)
  {
    RemainderByOneIsZeroIff(ToNumber(value, host));
    IsNumber(value, disableTypesafe, host)
    && NumStrictEquals(Remainder(ToNumber(value, host), Finite(1.0)), Finite(0.0))
  }

  /** A string or a number; `isNumber` is called without the flag. */
  predicate IsScalar(value: Value, host: Value -> NumVal)
    ensures IsScalar(value, host) <==> value.Str? || value.Num?
  {
    IsString(value) || IsNumber(value, Undefined, host)
  }

  predicate IsArray(value: Value)
    ensures IsArray(value) <==> value.Arr?
  {
    InstanceOf(value, ArrayCtor)
  }

  predicate IsFunction(value: Value)
    ensures IsFunction(value) <==> value.Func?
  {
    TypeOf(value) == "function"
  }

  /** An `Object` instance that is neither an array nor a function. */
  predicate IsObject(value: Value)
    ensures IsObject(value) <==> value.Obj?
  {
    InstanceOf(value, ObjectCtor) && !IsArray(value) && !IsFunction(value)
  }

  predicate IsImage(value: Value)
    ensures IsImage(value) <==> value.Obj? && value.kind == ImageHandle
  {
    InstanceOf(value, ImageCtor)
  }

  /** Every HTMLElement, image handles included. */
  predicate IsElement(value: Value)
    ensures IsElement(value) <==> value.Obj? && value.kind != Plain
  {
    InstanceOf(value, HTMLElementCtor)
  }

  /** `value.getType() || 'object'` for an object whose call does not throw. */
  function SelfReported(report: Value): (r: Outcome)
    ensures r.Returns? && (r.result == report || r.result == Str("object"))
    ensures ToBoolean(report) <==> r == Returns(report)
  {
    if ToBoolean(report) then Returns(report) else Named("object")
  }

  /**
   * The dispatcher: no result for `undefined` and `null`; otherwise the first
   * of number, string, array, function that holds; otherwise an object's own
   * report; otherwise (booleans) no result.
   */
  function GetType(value: Value, disableTypesafe: Value, host: Value -> NumVal): (r: Outcome)
    ensures r.Throws? ==> value.Obj? && value.selfReport.None?
    ensures value.Undefined? || value.Null? ==> r == NoResult
  {
    if value != Undefined && value != Null then
      if IsNumber(value, disableTypesafe, host) then Named("number")
      else if IsString(value) then Named("string")
      else if IsArray(value) then Named("array")
      else if IsFunction(value) then Named("function")
      else if TypeOf(value) == "object" then
        match value
        case Obj(_, None) => Throws
        case Obj(_, Some(report)) => SelfReported(report)
      else NoResult
    else NoResult
  }
}
