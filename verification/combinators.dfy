/**
 * `Promise.all`, `Promise.race`, `Promise.any` and `Promise.allSettled` as the
 * code runs them, over the outcomes of the inputs: each input is first passed
 * through `Promise.resolve`, and what matters is whether and how that promise
 * settles. The specification functions say what the combined promise does;
 * the methods run the source's loops and are proved to agree with them.
 */
module Combinators {
  import opened Values
  import opened ArrayLike

  /** How a promise ends up: settled one way or the other, or never settled. */
  datatype Outcome = Fulfilled(value: Value) | Rejected(reason: Value) | Pending

  /** What calling a static combinator does: throw synchronously, or return a promise with this outcome. */
  datatype Invocation = Throws(error: Value) | Returns(outcome: Outcome)

  /**
   * How the loop visits the input: `for...of` through its iterator (src/es6/index.js,
   * src/typescript/index.ts), or by index up to `length` (the down-compiled
   * src/es5/index.js).
   */
  datatype Dialect = ForOf | ByIndex

  /**
   * The argument of a combinator: what the guard sees, whether it has an
   * iterator, and the outcomes of the elements the loop visits, in visiting
   * order.
   */
  datatype Input = Input(subject: Subject, iterable: bool, items: seq<Outcome>)

  // ----- positions in the input -----

  /** The index of the first input that is not fulfilled, or the length if there is none. */
  function FirstUnfulfilled(items: seq<Outcome>): (k: nat)
    ensures k <= |items|
    ensures forall i :: 0 <= i < k ==> items[i].Fulfilled?
    ensures k < |items| ==> !items[k].Fulfilled?
  {
    if items == [] || !items[0].Fulfilled? then 0 else 1 + FirstUnfulfilled(items[1..])
  }

  /** The index of the first input that never settles, or the length if there is none. */
  function FirstPending(items: seq<Outcome>): (k: nat)
    ensures k <= |items|
    ensures forall i :: 0 <= i < k ==> !items[i].Pending?
    ensures k < |items| ==> items[k].Pending?
  {
    if items == [] || items[0].Pending? then 0 else 1 + FirstPending(items[1..])
  }

  /** The index of the first input that settles, or the length if there is none. */
  function FirstSettled(items: seq<Outcome>): (k: nat)
    ensures k <= |items|
    ensures forall i :: 0 <= i < k ==> items[i].Pending?
    ensures k < |items| ==> !items[k].Pending?
  {
    if items == [] || !items[0].Pending? then 0 else 1 + FirstSettled(items[1..])
  }

  // ----- what the loops collect -----

  /** The values of the fulfilled inputs, in input order (the array `result` of `all` and `any`). */
  function FulfilledValues(items: seq<Outcome>): (vs: seq<Value>)
    ensures |vs| <= |items|
  {
    if items == [] then []
    else
      var last := items[|items| - 1];
      FulfilledValues(items[..|items| - 1]) + (if last.Fulfilled? then [last.value] else [])
  }

  /** The reasons of the rejected inputs, in input order (the array `errors` of `any`). */
  function Reasons(items: seq<Outcome>): (es: seq<Value>)
    ensures |es| <= |items|
  {
    if items == [] then []
    else
      var last := items[|items| - 1];
      Reasons(items[..|items| - 1]) + (if last.Rejected? then [last.reason] else [])
  }

  /** The `{status, value}` record `allSettled` pushes for a settled input; a reason goes under `value`. */
  function SettledRecord(o: Outcome): (r: Value)
    requires !o.Pending?
    ensures r.Record? && r.fulfilled == o.Fulfilled?
    ensures r.payload == if o.Fulfilled? then o.value else o.reason
  {
    match o
    case Fulfilled(v) => Record(true, v)
    case Rejected(e) => Record(false, e)
  }

  /** `errors.length === size` once `count` errors have been pushed, for some count up to `count`. */
  predicate SizeReached(size: LengthProp, count: nat)
  {
    size.Finite? && size.x.Floor as real == size.x && 1 <= size.x.Floor <= count
  }

  // ----- what the combined promise does -----

  /**
   * `all`: fulfilled with every value in input order when every input fulfils;
   * otherwise decided by the first input that does not fulfil: its rejection
   * rejects, and if it never settles the loop waits on it forever.
   */
  function AllOf(items: seq<Outcome>): Outcome
  {
    var k := FirstUnfulfilled(items);
    if k == |items| then Fulfilled(List(FulfilledValues(items)))
    else if items[k].Rejected? then Rejected(items[k].reason)
    else Pending
  }

  /** `race`, with the inputs listed in the order their reactions run: the first to settle decides. */
  function RaceOf(items: seq<Outcome>): Outcome
  {
    var k := FirstSettled(items);
    if k == |items| then Pending else items[k]
  }

  /**
   * `any`, where `size` is the argument's `length`: once as many inputs have
   * rejected as `size` says, it rejects with an AggregateError of those reasons;
   * the loop waits forever on an input that never settles; otherwise it fulfils
   * with the values of the inputs that fulfilled.
   */
  function AnyOf(size: LengthProp, items: seq<Outcome>): Outcome
  {
    var k := FirstPending(items);
    var errors := Reasons(items[..k]);
    if SizeReached(size, |errors|) then Rejected(AggregateError(errors[..size.x.Floor]))
    else if k < |items| then Pending
    else Fulfilled(List(FulfilledValues(items)))
  }

  /** `allSettled`: one record per input once all have settled; it never rejects. */
  function AllSettledOf(items: seq<Outcome>): Outcome
  {
    if FirstPending(items) < |items| then Pending
    else Fulfilled(List(seq(|items|, i requires 0 <= i < |items| => SettledRecord(items[i]))))
  }

  // ----- the static methods -----

  /**
   * `Promise.all(promises)`: a TypeError thrown at once unless the argument is
   * array-like; under `for...of` an array-like argument without an iterator
   * makes the async executor fail, and that failure is lost, so the promise
   * stays pending.
   */
  function PromiseAll(d: Dialect, input: Input): (c: Invocation)
    ensures c.Throws? <==> !IsArrayLikeObject(input.subject)
    ensures c.Throws? ==> c.error == TypeError(NotIterable)
    ensures c.Returns? ==>
      c.outcome == if d == ForOf && !input.iterable then Pending else AllOf(input.items)
  {
    if !IsArrayLikeObject(input.subject) then Throws(TypeError(NotIterable))
    else if d == ForOf && !input.iterable then Returns(Pending)
    else Returns(AllOf(input.items))
  }

  /**
   * `Promise.race(promises)`: the same guard; the executor is synchronous, so a
   * missing iterator is caught by the constructor and rejects the promise.
   * `arrivals` lists the inputs' outcomes in the order their reactions run,
   * which the task queue decides rather than the visiting order: an input that
   * is one of the library's promises takes an extra adoption hop through
   * `Promise.resolve` compared with a plain value.
   */
  function PromiseRace(d: Dialect, input: Input, arrivals: seq<Outcome>): (c: Invocation)
    requires multiset(arrivals) == multiset(input.items)
    ensures c.Throws? <==> !IsArrayLikeObject(input.subject)
    ensures c.Throws? ==> c.error == TypeError(NotIterable)
    ensures c.Returns? ==>
      c.outcome == if d == ForOf && !input.iterable then Rejected(TypeError(IteratorMissing)) else RaceOf(arrivals)
  {
    if !IsArrayLikeObject(input.subject) then Throws(TypeError(NotIterable))
    else if d == ForOf && !input.iterable then Returns(Rejected(TypeError(IteratorMissing)))
    else Returns(RaceOf(arrivals))
  }

  /** Reading `promises.length` throws for `undefined` and `null`. */
  predicate Nullish(s: Subject)
  {
    s.typeOf == JsType.Undefined || s.typeOf == JsType.Null
  }

  /**
   * `Promise.any(promises)` (src/es6/index.js only): no guard; reading `length`
   * of `undefined` or `null`, or iterating a non-iterable, fails inside the async
   * executor and the promise stays pending.
   */
  function PromiseAny(input: Input): (c: Invocation)
    ensures c.Returns?
    ensures c.outcome == if Nullish(input.subject) || !input.iterable then Pending
                         else AnyOf(input.subject.length, input.items)
  {
    if Nullish(input.subject) || !input.iterable then Returns(Pending)
    else Returns(AnyOf(input.subject.length, input.items))
  }

  /** `Promise.allSettled(promises)` (src/es6/index.js only), failing the same way as `any`. */
  function PromiseAllSettled(input: Input): (c: Invocation)
    ensures c.Returns?
    ensures c.outcome == if Nullish(input.subject) || !input.iterable then Pending
                         else AllSettledOf(input.items)
  {
    if Nullish(input.subject) || !input.iterable then Returns(Pending)
    else Returns(AllSettledOf(input.items))
  }

  // ----- the loops as the executors run them -----

  /**
   * The async executor of `all`: `await` each input in turn, pushing values into
   * `result` and rejecting on a rejection (the loop goes on); then `resolve(result)`.
   * `r` is the state of the promise `all` returned.
   */
  method RunAll(items: seq<Outcome>) returns (r: Outcome)
    ensures r == AllOf(items)
  {
    var result: seq<Value> := [];
    r := Pending;
    var i := 0;
    while i < |items|
      invariant 0 <= i <= |items|
      invariant result == FulfilledValues(items[..i])
      invariant r.Pending? ==> forall j :: 0 <= j < i ==> items[j].Fulfilled?
      invariant !r.Pending? ==>
        FirstUnfulfilled(items) < i && items[FirstUnfulfilled(items)].Rejected?
        && r == Rejected(items[FirstUnfulfilled(items)].reason)
    {
      assert items[..i + 1][..i] == items[..i];
      match items[i] {
        case Pending =>
          return;
        case Fulfilled(v) =>
          result := result + [v];
        case Rejected(e) =>
          if r.Pending? {
            r := Rejected(e);
          }
      }
      i := i + 1;
    }
    assert items[..i] == items;
    if r.Pending? {
      r := Fulfilled(List(result));
    }
  }

  /**
   * The executor of `race` subscribes to every input; the reactions then run
   * in settlement order, and each calls the guarded `resolve` or `reject`.
   */
  method RunRace(items: seq<Outcome>) returns (r: Outcome)
    ensures r == RaceOf(items)
  {
    r := Pending;
    var i := 0;
    while i < |items|
      invariant 0 <= i <= |items|
      invariant r.Pending? ==> forall j :: 0 <= j < i ==> items[j].Pending?
      invariant !r.Pending? ==> FirstSettled(items) < i && r == items[FirstSettled(items)]
    {
      if r.Pending? && !items[i].Pending? {
        r := items[i];
      }
      i := i + 1;
    }
  }

  /**
   * The async executor of `any`: `await` each input in turn; a value is pushed
   * into `result`, a reason into `errors`, and when `errors.length === size` the
   * promise is rejected with an AggregateError; then `resolve(result)`.
   */
  method RunAny(size: LengthProp, items: seq<Outcome>) returns (r: Outcome)
    ensures r == AnyOf(size, items)
  {
    var result: seq<Value> := [];
    var errors: seq<Value> := [];
    r := Pending;
    var i := 0;
    while i < |items|
      invariant 0 <= i <= |items|
      invariant forall j :: 0 <= j < i ==> !items[j].Pending?
      invariant result == FulfilledValues(items[..i]) && errors == Reasons(items[..i])
      invariant r == if SizeReached(size, |errors|) then Rejected(AggregateError(errors[..size.x.Floor])) else Pending
    {
      assert items[..i + 1][..i] == items[..i];
      match items[i] {
        case Pending =>
          assert FirstPending(items) == i;
          return;
        case Fulfilled(v) =>
          result := result + [v];
        case Rejected(e) =>
          ghost var before := errors;
          errors := errors + [e];
          if SizeReached(size, |before|) {
            assert errors[..size.x.Floor] == before[..size.x.Floor];
          } else if SizeReached(size, |errors|) {
            assert size.x.Floor == |errors| && size == Finite(|errors| as real);
            assert errors[..size.x.Floor] == errors;
          } else {
            assert size != Finite(|errors| as real);
          }
          if size == Finite(|errors| as real) && r.Pending? {
            r := Rejected(AggregateError(errors));
          }
      }
      i := i + 1;
    }
    assert items[..i] == items;
    if r.Pending? {
      r := Fulfilled(List(result));
    }
  }

  /**
   * The async executor of `allSettled`: `await` each input in turn and push one
   * record for it; then `resolve(result)`.
   */
  method RunAllSettled(items: seq<Outcome>) returns (r: Outcome)
    ensures r == AllSettledOf(items)
  {
    var result: seq<Value> := [];
    var i := 0;
    while i < |items|
      invariant 0 <= i <= |items|
      invariant forall j :: 0 <= j < i ==> !items[j].Pending?
      invariant |result| == i && forall j :: 0 <= j < i ==> result[j] == SettledRecord(items[j])
    {
      if items[i].Pending? {
        assert FirstPending(items) == i;
        return Pending;
      }
      result := result + [SettledRecord(items[i])];
      i := i + 1;
    }
    assert FirstPending(items) == |items|;
    assert result == seq(|items|, j requires 0 <= j < |items| => SettledRecord(items[j]));
    r := Fulfilled(List(result));
  }
}
