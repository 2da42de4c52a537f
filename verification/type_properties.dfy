/**
 * Properties of the classifier in module Type: how the numeric flag
 * reaches (and does not reach) each predicate, the float/integer
 * partition, the disjointness of the kinds, and the dispatcher's priority.
 */
module TypeProperties {
  import opened JsValue
  import opened Type

  /** With the flag anything but the literal `true`, only native numbers are numbers. */
  lemma NumberWithoutOverride(value: Value, disableTypesafe: Value, host: Value -> NumVal)
    ensures !OverrideOn(disableTypesafe) ==> (IsNumber(value, disableTypesafe, host) <==> value.Num?)
  {
  }

  /**
   * The override only widens `isNumber`, and what it adds is exactly the
   * values whose ToNumber is not NaN.
   */
  lemma OverrideWidensNumber(value: Value, disableTypesafe: Value, host: Value -> NumVal)
    ensures IsNumber(value, Bool(false), host) ==> IsNumber(value, disableTypesafe, host)
    ensures IsNumber(value, Bool(true), host) <==> value.Num? || !ToNumber(value, host).NaN?
  {
  }

  /**
   * Booleans and null convert to finite numbers, so the override makes them
   * numbers; undefined converts to NaN and stays out.
   */
  lemma OverrideAdmitsBooleansAndNull(b: bool, host: Value -> NumVal)
    ensures IsNumber(Bool(b), Bool(true), host)
    ensures IsNumber(Null, Bool(true), host)
    ensures !IsNumber(Undefined, Bool(true), host)
    ensures !IsNumber(Bool(b), Bool(false), host)
  {
  }

  /**
   * Whenever `isNumber` holds under a flag, exactly one of `isFloat` and
   * `isInteger` holds under the same flag; when it fails, neither does.
   */
  lemma FloatIntegerPartition(value: Value, disableTypesafe: Value, host: Value -> NumVal)
    ensures IsNumber(value, disableTypesafe, host) ==>
              (IsFloat(value, disableTypesafe, host) <==> !IsInteger(value, disableTypesafe, host))
    ensures !IsNumber(value, disableTypesafe, host) ==>
              !IsFloat(value, disableTypesafe, host) && !IsInteger(value, disableTypesafe, host)
  {
  }

  /** NaN and the infinities have remainder NaN modulo 1, so they count as floats. */
  lemma NonFiniteNumbersAreFloats(n: NumVal, disableTypesafe: Value, host: Value -> NumVal)
    ensures !n.Finite? ==> IsFloat(Num(n), disableTypesafe, host)
    ensures n.Finite? ==> (IsInteger(Num(n), disableTypesafe, host) <==> IsIntegral(n.r))
  {
  }

  /**
   * `isScalar` passes no flag to `isNumber`: it equals `isString` or
   * `isNumber` with the override off, whatever flag a caller holds and
   * whatever the host's conversions are.
   */
  lemma ScalarIgnoresOverride(value: Value, host: Value -> NumVal, other: Value -> NumVal)
    ensures IsScalar(value, host) == (IsString(value) || IsNumber(value, Bool(false), host))
    ensures IsScalar(value, host) == IsScalar(value, other)
  {
  }

  /** A boolean is a number under the override but never a scalar. */
  lemma ScalarIsNarrowerThanOverriddenNumber(host: Value -> NumVal)
    ensures IsNumber(Bool(true), Bool(true), host) && !IsScalar(Bool(true), host)
  {
  }

  /**
   * Objects exclude arrays, functions and every primitive; image handles
   * are elements, and both are objects.
   */
  lemma ObjectKinds(value: Value)
    ensures IsObject(value) ==> !IsArray(value) && !IsFunction(value) && !IsString(value)
    ensures IsArray(value) || IsFunction(value) ==> !IsObject(value)
    ensures (value.Undefined? || value.Null? || value.Bool? || value.Num? || value.Str?)
              ==> !IsObject(value) && !IsImage(value) && !IsElement(value)
    ensures IsImage(value) ==> IsElement(value)
    ensures IsElement(value) ==> IsObject(value)
  {
  }

  /** Booleans are classified only as numbers, and only under the override. */
  lemma GetTypeOfBoolean(b: bool, disableTypesafe: Value, host: Value -> NumVal)
    ensures !OverrideOn(disableTypesafe) ==> GetType(Bool(b), disableTypesafe, host) == NoResult
    ensures OverrideOn(disableTypesafe) ==> GetType(Bool(b), disableTypesafe, host) == Named("number")
  {
  }

  /**
   * A string that converts to a number is reported as "number" under the
   * override, although it is a string; otherwise it is reported as "string".
   */
  lemma GetTypeOfString(s: string, disableTypesafe: Value, host: Value -> NumVal)
    ensures IsString(Str(s))
    ensures (OverrideOn(disableTypesafe) && !host(Str(s)).NaN?)
              ==> GetType(Str(s), disableTypesafe, host) == Named("number")
    ensures (!OverrideOn(disableTypesafe) || host(Str(s)).NaN?)
              ==> GetType(Str(s), disableTypesafe, host) == Named("string")
  {
  }

  /**
   * An object that is not taken as a number reports its own type: a
   * non-empty string is returned as given, an empty one (or any other falsy
   * answer) becomes "object", and a throwing `getType()` call propagates.
   */
  lemma GetTypeOfObject(kind: HostKind, s: string, report: Value, disableTypesafe: Value, host: Value -> NumVal)
    ensures (!IsNumber(Obj(kind, None), disableTypesafe, host))
              ==> GetType(Obj(kind, None), disableTypesafe, host) == Throws
    ensures (!IsNumber(Obj(kind, Some(Str(s))), disableTypesafe, host))
              ==> GetType(Obj(kind, Some(Str(s))), disableTypesafe, host)
                  == (if s == "" then Named("object") else Named(s))
    ensures (!IsNumber(Obj(kind, Some(report)), disableTypesafe, host) && !ToBoolean(report))
              ==> GetType(Obj(kind, Some(report)), disableTypesafe, host) == Named("object")
  {
  }

  /**
   * The dispatcher never reports "image" or "element" by itself: with the
   * override off, an image or element handle is classified exactly as a
   * plain object with the same `getType()` answer.
   */
  lemma GetTypeIgnoresHostKind(kind: HostKind, report: Option<Value>, disableTypesafe: Value, host: Value -> NumVal)
    ensures !OverrideOn(disableTypesafe) ==>
              GetType(Obj(kind, report), disableTypesafe, host)
              == GetType(Obj(Plain, report), disableTypesafe, host)
  {
  }

  /**
   * Outside objects, the dispatcher's answers form the closed set of four
   * names plus no result, and it never throws.
   */
  lemma GetTypeNamesAreClosed(value: Value, disableTypesafe: Value, host: Value -> NumVal)
    ensures !value.Obj? ==>
              GetType(value, disableTypesafe, host)
              in {NoResult, Named("number"), Named("string"), Named("array"), Named("function")}
  {
  }

  /** The dispatcher's tests in priority order, each with the name it reports. */
  function Priority(disableTypesafe: Value, host: Value -> NumVal): seq<(string, Value -> bool)>
  {
    [ ("number", v => IsNumber(v, disableTypesafe, host)),
      ("string", IsString),
      ("array", IsArray),
      ("function", IsFunction) ]
  }

  /** The name of the first test in `tests` that `value` passes. */
  function FirstMatch(tests: seq<(string, Value -> bool)>, value: Value): (r: Option<string>)
    ensures r.None? <==> forall i :: 0 <= i < |tests| ==> !tests[i].1(value)
    ensures r.Some? ==>
              exists i :: 0 <= i < |tests| && tests[i].0 == r.value && tests[i].1(value)
                          && forall j :: 0 <= j < i ==> !tests[j].1(value)
  {
    if |tests| == 0 then None
    else if tests[0].1(value) then Some(tests[0].0)
    else
      var r := FirstMatch(tests[1..], value);
      if r.Some? then
        var i :| 0 <= i < |tests| - 1 && tests[1..][i].0 == r.value && tests[1..][i].1(value)
                 && forall j :: 0 <= j < i ==> !tests[1..][j].1(value);
        assert tests[i + 1].0 == r.value && tests[i + 1].1(value);
        r
      else
        r
  }

  /** The first match of the dispatcher's priority list, case by case. */
  lemma PriorityFirstMatch(value: Value, disableTypesafe: Value, host: Value -> NumVal)
    ensures FirstMatch(Priority(disableTypesafe, host), value)
            == if IsNumber(value, disableTypesafe, host) then Some("number")
               else if IsString(value) then Some("string")
               else if IsArray(value) then Some("array")
               else if IsFunction(value) then Some("function")
               else None
  {
    var t0 := Priority(disableTypesafe, host);
    var t3: seq<(string, Value -> bool)> := [("function", IsFunction)];
    var t2 := [("array", IsArray)] + t3;
    var t1 := [("string", IsString)] + t2;
    assert t0[1..] == t1 && t1[1..] == t2 && t2[1..] == t3;
    assert FirstMatch(t3[1..], value) == None;
    assert FirstMatch(t3, value) == if IsFunction(value) then Some("function") else None;
    assert FirstMatch(t2, value) == if IsArray(value) then Some("array") else FirstMatch(t3, value);
    assert FirstMatch(t1, value) == if IsString(value) then Some("string") else FirstMatch(t2, value);
    assert t0[0].1(value) == IsNumber(value, disableTypesafe, host);
  }

  /**
   * For a value that is neither undefined nor null, the dispatcher reports
   * the name of the first of its four tests that holds, even when a later
   * test holds too; when none holds, only objects get an answer.
   */
  lemma GetTypeFollowsPriority(value: Value, disableTypesafe: Value, host: Value -> NumVal)
    requires !value.Undefined? && !value.Null?
    ensures (FirstMatch(Priority(disableTypesafe, host), value).Some?)
              ==> GetType(value, disableTypesafe, host)
                  == Named(FirstMatch(Priority(disableTypesafe, host), value).value)
    ensures (FirstMatch(Priority(disableTypesafe, host), value).None? && !value.Obj?)
              ==> GetType(value, disableTypesafe, host) == NoResult
    ensures (FirstMatch(Priority(disableTypesafe, host), value).None? && value.Obj?)
              ==> GetType(value, disableTypesafe, host)
                  == (if value.selfReport.None? then Throws else SelfReported(value.selfReport.value))
  {
    PriorityFirstMatch(value, disableTypesafe, host);
  }

  /** Concrete cases of the predicates and the dispatcher. */
  lemma Examples(host: Value -> NumVal)
    requires host(Str("42")) == Finite(42.0)
    ensures IsNumber(Num(Finite(42.0)), Undefined, host)
    ensures !IsNumber(Str("42"), Undefined, host)
    ensures IsNumber(Str("42"), Bool(true), host)
    ensures IsFloat(Num(Finite(3.5)), Undefined, host) && !IsInteger(Num(Finite(3.5)), Undefined, host)
    ensures IsInteger(Num(Finite(4.0)), Undefined, host) && !IsFloat(Num(Finite(4.0)), Undefined, host)
    ensures IsScalar(Str("abc"), host)
    ensures !IsScalar(Arr([Num(Finite(1.0)), Num(Finite(2.0))]), host)
    ensures GetType(Arr([Num(Finite(1.0))]), Undefined, host) == Named("array")
    ensures GetType(Func, Undefined, host) == Named("function")
    ensures GetType(Undefined, Bool(true), host) == NoResult
    ensures GetType(Bool(true), Undefined, host) == NoResult
  {
    RemainderByOneIsZeroIff(Finite(3.5));
    RemainderByOneIsZeroIff(Finite(4.0));
  }
}
