/**
 * The part of ECMAScript (ECMA-262, 6th edition) that the classifier of
 * src/Type.js relies on: the language values it is handed, the `typeof`
 * operator, `instanceof` over a fixed set of constructors, ToBoolean,
 * ToNumber, the `%` operator and strict equality on Numbers.
 *
 * Numbers are abstracted to exact reals plus NaN and the two infinities;
 * rounding and the sign of zero are not modelled.
 */
module JsValue {

  datatype Option<+T> = None | Some(value: T)

  /** A Number value: a finite real, NaN, or one of the infinities. */
  datatype NumVal = Finite(r: real) | NaN | PosInf | NegInf

  /**
   * Host objects the classifier tells apart. An image handle is what
   * `new Image()` creates, an HTMLImageElement, which is itself an
   * HTMLElement; an element handle is any other HTMLElement.
   */
  datatype HostKind = Plain | ImageHandle | ElementHandle

  /**
   * A JavaScript value. For an object, `selfReport` is what calling its
   * `getType()` method evaluates to: `None` when that call throws (there is
   * no such method, it is not callable, or it throws itself), `Some(r)` when
   * it returns `r`.
   */
  datatype Value =
    | Undefined
    | Null
    | Bool(b: bool)
    | Num(n: NumVal)
    | Str(s: string)
    | Arr(elements: seq<Value>)
    | Func
    | Obj(kind: HostKind, selfReport: Option<Value>)

  /** The constructors whose `prototype` objects the classifier tests against. */
  datatype Ctor = ObjectCtor | ArrayCtor | FunctionCtor | ImageCtor | HTMLElementCtor

  /** The `typeof` operator (section 12.5.6, Table 35, without the Symbol row). */
  function TypeOf(v: Value): string
  {
    match v
    case Undefined => "undefined"
    case Null => "object"
    case Bool(_) => "boolean"
    case Num(_) => "number"
    case Str(_) => "string"
    case Arr(_) => "object"
    case Func => "function"
    case Obj(_, _) => "object"
  }

  /**
   * The constructors whose `prototype` lies on the prototype chain of `v`,
   * nearest first. Primitives have no chain, so `instanceof` is false for
   * them (section 7.3.19, step 3).
   */
  function PrototypeChain(v: Value): seq<Ctor>
  {
    match v
    case Arr(_) => [ArrayCtor, ObjectCtor]
    case Func => [FunctionCtor, ObjectCtor]
    case Obj(Plain, _) => [ObjectCtor]
    case Obj(ImageHandle, _) => [ImageCtor, HTMLElementCtor, ObjectCtor]
    case Obj(ElementHandle, _) => [HTMLElementCtor, ObjectCtor]
    case _ => []
  }

  /** `v instanceof C` (OrdinaryHasInstance, section 7.3.19). */
  predicate InstanceOf(v: Value, c: Ctor)
  {
    c in PrototypeChain(v)
  }

  /** ToBoolean (section 7.1.2): the truthiness that `||` tests. */
  predicate ToBoolean(v: Value)
  {
    match v
    case Undefined => false
    case Null => false
    case Bool(b) => b
    case Num(Finite(x)) => x != 0.0
    case Num(NaN) => false
    case Num(_) => true
    case Str(s) => |s| > 0
    case _ => true
  }

  /**
   * ToNumber (section 7.1.3). Fixed for undefined, null, booleans and
   * numbers. For strings (the StringNumericLiteral grammar of section
   * 7.1.3.1) and for objects (ToPrimitive, which runs the object's own
   * `valueOf` or `toString`) the answer is supplied by `host`.
   */
  function ToNumber(v: Value, host: Value -> NumVal): NumVal
  {
    match v
    case Undefined => NaN
    case Null => Finite(0.0)
    case Bool(b) => Finite(if b then 1.0 else 0.0)
    case Num(n) => n
    case _ => host(v)
  }

  /** The global `isNaN` (section 18.2.3): ToNumber, then a NaN test. */
  predicate IsNaN(v: Value, host: Value -> NumVal)
  {
    ToNumber(v, host).NaN?
  }

  /** Truncation toward zero of a real. */
  function Trunc(x: real): real
  {
    if x >= 0.0 then x.Floor as real else -((-x).Floor as real)
  }

  /** A real with no fractional part. */
  predicate IsIntegral(x: real)
  {
    x.Floor as real == x
  }

  /**
   * The `%` operator on Numbers (section 12.7.3.3): the sign of the result
   * follows the dividend, unlike Dafny's Euclidean `%`.
   */
  function Remainder(n: NumVal, d: NumVal): NumVal
  {
    match (n, d)
    case (NaN, _) => NaN
    case (_, NaN) => NaN
    case (PosInf, _) => NaN
    case (NegInf, _) => NaN
    case (Finite(x), Finite(y)) =>
      if y == 0.0 then NaN else Finite(x - y * Trunc(x / y))
    case (Finite(_), _) => n
  }

  /** `===` between two Numbers (section 7.2.13, step 4): NaN equals nothing. */
  predicate NumStrictEquals(a: NumVal, b: NumVal)
  {
    match (a, b)
    case (Finite(x), Finite(y)) => x == y
    case (PosInf, PosInf) => true
    case (NegInf, NegInf) => true
    case _ => false
  }

  lemma FloorOfWhole(x: real, k: int)
    requires k as real == x
    ensures x.Floor == k
  {
  }

  lemma IntegralUnderNegation(x: real)
    ensures IsIntegral(-x) <==> IsIntegral(x)
  {
    if IsIntegral(-x) {
      FloorOfWhole(x, -((-x).Floor));
    }
    if IsIntegral(x) {
      FloorOfWhole(-x, -(x.Floor));
    }
  }

  lemma TruncIsIdentityOnlyOnIntegers(x: real)
    ensures Trunc(x) == x <==> IsIntegral(x)
  {
    if x < 0.0 {
      IntegralUnderNegation(x);
    }
  }

  /**
   * `x % 1 === 0` holds exactly for finite integral x; in particular it is
   * false for NaN and both infinities, whose remainder is NaN.
   */
  lemma {:induction false} RemainderByOneIsZeroIff(n: NumVal)
    ensures NumStrictEquals(Remainder(n, Finite(1.0)), Finite(0.0))
            <==> n.Finite? && IsIntegral(n.r)
  {
    match n
    case Finite(x) =>
      assert x / 1.0 == x;
      assert Remainder(n, Finite(1.0)) == Finite(x - Trunc(x));
      TruncIsIdentityOnlyOnIntegers(x);
    case _ =>
  }
}
