/**
 * `isArrayLikeObject`, the guard of `Promise.all` and `Promise.race` (lodash's
 * algorithm, written out in src/es6/index.js and src/es5/index.js and imported
 * from lodash by src/typescript/index.ts). A JavaScript value is seen only
 * through what the guard asks of it.
 */
module ArrayLike {

  /** `typeof`, with `null` kept apart from other objects (its `typeof` is 'object'). */
  datatype JsType = Undefined | Null | Boolean | Number | String | Symbol | BigInt | Object | Function

  /** The value of the `length` property, when read. */
  datatype LengthProp =
    | Finite(x: real)      // a finite number
    | NonFinite            // NaN, Infinity or -Infinity
    | NotANumber           // absent, or of another type

  /** What the guard reads of a value. */
  datatype Subject = Subject(
    typeOf: JsType,
    truthy: bool,          // `!!value`
    length: LengthProp,    // `value.length`
    tag: string)           // `Object.prototype.toString.call(value)`

  const MaxSafeInteger: int := 9007199254740991

  /** `isLength`: a number greater than -1, with no fractional part, at most 2^53 - 1. */
  predicate IsLength(v: LengthProp)
  {
    v.Finite? && v.x > -1.0 && v.x.Floor as real == v.x && v.x <= MaxSafeInteger as real
  }

  /** `typeof value == 'object'` (true of `null` as well). */
  predicate TypeofIsObject(t: JsType)
  {
    t == Object || t == Null
  }

  /** `isObject`: truthy, and an object or a function. */
  predicate IsObject(s: Subject)
  {
    s.truthy && (TypeofIsObject(s.typeOf) || s.typeOf == Function)
  }

  /** `isFunction`: the `toString` tag, read only of an object, names a function or a generator function. */
  predicate IsFunction(s: Subject)
  {
    var tag := if IsObject(s) then s.tag else "";
    tag == "[object Function]" || tag == "[object GeneratorFunction]"
  }

  /** `isObjectLike`: truthy with `typeof` 'object'. */
  predicate IsObjectLike(s: Subject)
  {
    s.truthy && TypeofIsObject(s.typeOf)
  }

  /** `isArrayLike`: not null, a valid `length`, and not a function. */
  predicate IsArrayLike(s: Subject)
  {
    s.typeOf != Null && IsLength(s.length) && !IsFunction(s)
  }

  predicate IsArrayLikeObject(s: Subject)
  {
    IsObjectLike(s) && IsArrayLike(s)
  }

  /** The length an array-like object declares: a safe non-negative integer. */
  function LengthOf(s: Subject): (n: nat)
    requires IsArrayLikeObject(s)
    ensures n <= MaxSafeInteger && s.length == Finite(n as real)
  {
    var k := s.length.x.Floor;
    assert k as real == s.length.x;
    k
  }

  /** Exactly the truthy, non-function objects with a safe integer length pass the guard. */
  lemma ArrayLikeObjectIff(s: Subject)
    ensures IsArrayLikeObject(s) <==>
      && s.truthy && s.typeOf == Object
      && (exists n: nat {:trigger Finite(n as real)} :: n <= MaxSafeInteger && s.length == Finite(n as real))
      && s.tag != "[object Function]" && s.tag != "[object GeneratorFunction]"
  {
    if IsArrayLikeObject(s) {
      var n := LengthOf(s);
      assert n <= MaxSafeInteger && s.length == Finite(n as real);
    }
  }
}
