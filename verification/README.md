# Type.js value classifier, modelled in Dafny

`src/Type.js` is a stateless classifier for JavaScript values. It has ten
predicates (`isString`, `isNumber`, `isFloat`, `isInteger`, `isScalar`,
`isArray`, `isFunction`, `isObject`, `isImage`, `isElement`) and a dispatcher,
`getType`, which tries the checks in a fixed order and returns the first
matching type name. It also adds `isHex` to `String.prototype`. This project
models all of these as pure Dafny functions and proves how they relate to
each other.

Modules:

- `JsValue` (`js_value.dfy`) covers the ECMAScript (ECMA-262, 6th edition) semantics the
  classifier depends on:
  - the language values other than Symbol, as one datatype;
  - `typeof`, and `instanceof` over a fixed prototype chain for each kind of value;
  - ToBoolean, ToNumber, the `%` operator and `===` on Numbers.
- `Type` (`type.dfy`) holds the ten predicates and `getType`.
- `TypeProperties` (`type_properties.dfy`) holds the lemmas that relate the predicates to each other and to the dispatcher.
- `HexString` (`hex_string.dfy`) models `isHex` as the regular expression `/^([0-9a-f]+)$/i` that the code uses.

Modelling choices:

- **Numbers.** A Number is a real, NaN, or one of the two infinities. Rounding and the sign of zero are abstracted away.
- **ToNumber.** ToNumber is fixed for undefined, null, booleans and numbers. For strings and objects the answer comes from a function parameter, `host`. That stands for the string-numeric grammar and for the object's own `valueOf`/`toString`.
- **The flag.** The optional flag is a JavaScript value. `disableTypesafe === true` means only the literal `true` turns the loose numeric test on. `1`, `"true"` and an omitted flag all leave it off.
- **getType's result.** `getType` returns `Returns(v)` or `Throws`. The code returns whatever `value.getType() || 'object'` evaluates to, so the result is a value. A function that falls off its end returns `Returns(Undefined)`, the "no result" case.
- **Self-reporting objects.** An object carries `selfReport`, what its own `getType()` call evaluates to. `None` means that call throws: the method is missing, not callable, or throws itself.
- **Image and element handles.** `new Image()` creates an HTMLImageElement, and that is an HTMLElement. So `isElement` holds for image handles as well as for other elements.

## Behaviour worth noting

The doc comment of `getType` promises a string (`@returns {String}`, src/Type.js:166), but the code does not always return one:

- **Objects without a `getType` method.** The code calls `value.getType()` unconditionally (src/Type.js:179). So an object without such a method makes `getType` throw instead of falling back to `"object"`. See `TypeProperties.GetTypeOfObject`.
- **Booleans.** With the flag set to `true`, ToNumber of a boolean is 0 or 1, so `isNumber` holds and `getType` answers `"number"`. Without the flag, booleans fall through every branch and `getType` returns undefined. See `TypeProperties.GetTypeOfBoolean`.
- **Truthy non-string reports.** When an object's own `getType()` returns a truthy non-string, `getType` returns that value as it is.
- **NaN and the infinities.** These are floats: their remainder modulo 1 is NaN, and `NaN !== 0`. See `TypeProperties.NonFiniteNumbersAreFloats`.

## Model

| member | source | states |
|---|---|---|
| JsValue.RemainderByOneIsZeroIff | src/Type.js:97-99 | `value % 1 === 0` holds exactly when the number is finite and integral; NaN and the infinities fail it |
| Type.IsString | src/Type.js:64-66 | `typeof value === 'string'` holds exactly for string values |
| Type.IsNumber | src/Type.js:75-77 | every native number passes under any flag; anything else passes only when the flag is the literal `true` |
| Type.IsFloat | src/Type.js:86-88 | a float is a number (under the same flag) whose ToNumber is not a finite integer |
| Type.IsInteger | src/Type.js:97-99 | an integer is a number (under the same flag) whose ToNumber is a finite integer |
| Type.IsScalar | src/Type.js:107-109 | the scalars are exactly the native strings and native numbers |
| Type.IsArray | src/Type.js:117-119 | `instanceof Array` holds exactly for arrays |
| Type.IsFunction | src/Type.js:127-129 | `typeof value === 'function'` holds exactly for functions |
| Type.IsObject | src/Type.js:137-139 | an `Object` instance that is neither array nor function is exactly a plain, image or element object |
| Type.IsImage | src/Type.js:147-149 | `instanceof Image` holds exactly for image handles |
| Type.IsElement | src/Type.js:157-159 | `instanceof HTMLElement` holds exactly for element and image handles |
| Type.SelfReported | src/Type.js:179 | the fallback after the object's own report returns the report when it is truthy, else the string "object" |
| Type.GetType | src/Type.js:168-182 | undefined and null give no result under every flag; among the modelled values (Symbol is left out), only an object whose `getType()` call throws makes the dispatcher throw |
| TypeProperties.NumberWithoutOverride | src/Type.js:75-77 | with any flag other than the literal `true`, `isNumber` holds exactly for native numbers |
| TypeProperties.OverrideWidensNumber | src/Type.js:75-77 | the override only adds values, and adds exactly those whose ToNumber is not NaN |
| TypeProperties.OverrideAdmitsBooleansAndNull | src/Type.js:76 | under the override booleans and null are numbers and undefined is not; without it no boolean is |
| TypeProperties.FloatIntegerPartition | src/Type.js:86-99 | when `isNumber` holds, exactly one of `isFloat` and `isInteger` holds under the same flag; when it fails, neither does |
| TypeProperties.NonFiniteNumbersAreFloats | src/Type.js:86-99 | NaN and the infinities are floats; a finite number is an integer exactly when it is integral |
| TypeProperties.ScalarIgnoresOverride | src/Type.js:107-109 | `isScalar` equals `isString` or `isNumber` with the override off, and does not depend on the host's conversions |
| TypeProperties.ScalarIsNarrowerThanOverriddenNumber | src/Type.js:107-109 | `true` is a number under the override but is not a scalar |
| TypeProperties.ObjectKinds | src/Type.js:117-159 | objects exclude arrays, functions and primitives; image handles are elements and elements are objects |
| TypeProperties.GetTypeOfBoolean | src/Type.js:168-182 | booleans give no result without the override and "number" with it |
| TypeProperties.GetTypeOfString | src/Type.js:170-173 | under the override a string whose ToNumber is not NaN is reported as "number"; otherwise as "string" |
| TypeProperties.GetTypeOfObject | src/Type.js:178-179 | for an object that is not a number: a throwing `getType()` throws, a non-empty string is returned, an empty string or other falsy report gives "object" |
| TypeProperties.GetTypeIgnoresHostKind | src/Type.js:178-179 | with the override off, image and element handles are dispatched exactly like plain objects with the same report |
| TypeProperties.GetTypeNamesAreClosed | src/Type.js:168-182 | for the modelled non-objects (Symbol is left out) the answer is one of no result, "number", "string", "array", "function", and never a throw |
| TypeProperties.FirstMatch | src/Type.js:170-177 | the first passing test in a priority list: none iff no test passes, otherwise a passing test with all earlier ones failing |
| TypeProperties.PriorityFirstMatch | src/Type.js:170-177 | the first match of the priority list is "number" if `isNumber` holds, else "string", "array" or "function" in that order, else none |
| TypeProperties.GetTypeFollowsPriority | src/Type.js:168-182 | for a defined non-null value the answer is the name of the first of number, string, array, function that holds; otherwise objects self-report and the rest give no result |
| TypeProperties.Examples | src/Type.js:64-182 | 42 is a number; "42" is one only under the override; 3.5 is a float and 4 an integer; "abc" is a scalar and [1,2] is not; arrays, functions, undefined and true get "array", "function", no result, no result |
| HexString.InClassIff | src/Type.js:189 | under case folding, the class `[0-9a-f]` matches exactly the characters 0-9, a-f and A-F |
| HexString.IsHexIff | src/Type.js:188-190 | `isHex` holds exactly for non-empty strings of hexadecimal digits |
| HexString.EmptyIsNotHex | src/Type.js:189 | the empty string is not hex |
| HexString.CaseDoesNotMatter | src/Type.js:189 | ASCII upper- or lower-casing a string does not change `isHex` |
| HexString.FullUpperCasingCanMakeHex | src/Type.js:189 | the case claim is ASCII-only: U+FB00 is not hex, while its full upper-case form "FF" is, and ASCII upper-casing leaves U+FB00 unchanged |
| HexString.CaseMapsKeepHexDigits | src/Type.js:189 | ASCII upper- and lower-casing turn hex digits into hex digits and other characters into non-digits, position by position |
| HexString.ConcatIsHex | src/Type.js:188-190 | the concatenation of two hex strings is hex |
| HexString.Examples | src/Type.js:188-190 | "deadBEEF" and "0" are hex; "xyz" and "" are not |

## Left out

- `getVersion` (src/Type.js:54-56) is left out: it returns the constant `"1.0.0"` and has no logic.
- Registering `$.Type` (src/Type.js:47) and the wrapper function around the file are left out: they only make the functions reachable.
- The StringNumericLiteral grammar and ToPrimitive are left out. ToNumber of strings and objects is the `host` parameter. Both `isNaN` and `%` call ToNumber, and the model assumes both calls give the same answer. An object whose `valueOf` has side effects could break that assumption.
- IEEE-754 rounding and negative zero are left out. Numbers are exact reals, and `-0 === 0` holds anyway.
- The prototype chains are fixed per kind of value, so three cases are left out:
  - objects with a null or altered prototype;
  - arrays from other realms;
  - the DOM classes between HTMLElement and Object.
- HexString.Canonicalize folds only ASCII letters. A non-ASCII letter is never mapped onto an ASCII one (section 21.2.2.8.2), so this does not change which strings are hex.
- `isHex` is modelled on strings only. ToString of a non-string `this` value is left out.
- Exceptions thrown by the host's own conversions are left out. Only `getType()` on an object can throw in the model.
- Symbol values are left out of `JsValue.Value`. In the code, ToNumber of a Symbol throws a TypeError (section 7.1.3). So with the flag `true`, `isNumber`, `isFloat`, `isInteger` and `getType` throw on a Symbol. With the flag off, every predicate returns false for a Symbol and `getType` returns undefined. The throw-free statements about `getType` hold only for the modelled values.
- HexString.CaseDoesNotMatter covers ASCII case mapping only. JavaScript's `toUpperCase` maps some non-ASCII characters onto ASCII letters: `"\uFB00".toUpperCase()` is `"FF"`, which is hex, although U+FB00 is not (see `HexString.FullUpperCasingCanMakeHex`).
