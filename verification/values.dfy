/**
 * The JavaScript values the promise engine handles, seen only through what the
 * engine asks of them: is it one of the library's own promises, is it an object
 * or function (a thenable candidate), and what happens when its `then` property
 * is read and called.
 */
module Values {

  /** Identity of one of the library's own promise instances in the heap. */
  type PromiseId = nat

  /** The kinds of error object the library itself creates. */
  datatype ErrorTag =
    | ResolverNotAFunction   // `new Promise(x)` with a non-function `x`
    | ChainingCycle          // a promise resolved with itself
    | NotIterable            // `all`/`race` given something that is not array-like
    | IteratorMissing        // `for...of` over an array-like object that is not iterable
    | CalledNonFunction      // a call of something that is not a function, such as `undefined(x)`

  /**
   * A JavaScript value as the engine sees it. Values are finite trees: a
   * thenable can only resolve with a value built before it, so a thenable
   * that resolves with itself cannot be written.
   */
  datatype Value =
    | Undefined
    | Null
    | Prim(token: int)                  // number, string, boolean, symbol or bigint
    | Ref(id: PromiseId)                // an instance of the library's own Promise
    | Obj(thenSlot: ThenSlot)             // any other object or function
    | List(items: seq<Value>)           // an array the library builds (`all`, `any`, `allSettled`)
    | Record(fulfilled: bool, payload: Value)  // an `allSettled` record `{status, value}`
    | TypeError(tag: ErrorTag)
    | AggregateError(errors: seq<Value>)
    | ReferenceError                    // thrown when code names a variable that does not exist

  /** What reading `x.then` yields, and what calling it does. */
  datatype ThenSlot =
    | ThrowsOnRead(error: Value)        // a getter that throws
    | NotCallable                       // `then` is missing or not a function
    | Callable(script: seq<Call>)       // a function that calls back synchronously, in this order

  /** One step of a user-supplied function that was handed a resolve and a reject callback. */
  datatype Call =
    | ResolveWith(arg: Value)
    | RejectWith(arg: Value)
    | Raise(arg: Value)                 // a synchronous throw; nothing after it runs

  /** How a call of user code ends. */
  datatype Completion = Normal(result: Value) | Thrown(error: Value)

  /** `x !== null && (typeof x === 'object' || typeof x === 'function')` */
  predicate IsObjectOrFunction(x: Value)
  {
    !(x.Undefined? || x.Null? || x.Prim?)
  }

  /** The single read of `x.then` for an object that is not one of the library's promises. */
  function ReadThen(x: Value): (slot: ThenSlot)
    requires IsObjectOrFunction(x) && !x.Ref?
    ensures !x.Obj? ==> slot == NotCallable
  {
    if x.Obj? then x.thenSlot else NotCallable
  }

  /** The promise ids a value mentions, including inside thenable scripts and arrays. */
  function Refs(x: Value): set<PromiseId>
  {
    match x
    case Ref(id) => {id}
    case Obj(ThrowsOnRead(e)) => Refs(e)
    case Obj(NotCallable) => {}
    case Obj(Callable(script)) => set k, id | 0 <= k < |script| && id in Refs(script[k].arg) :: id
    case List(items) => set k, id | 0 <= k < |items| && id in Refs(items[k]) :: id
    case Record(_, p) => Refs(p)
    case AggregateError(errors) => set k, id | 0 <= k < |errors| && id in Refs(errors[k]) :: id
    case _ => {}
  }

  /** Every promise the value mentions exists in a heap of `n` promises. */
  ghost predicate Closed(x: Value, n: nat)
  {
    forall id :: id in Refs(x) ==> id < n
  }

  ghost predicate ScriptClosed(script: seq<Call>, n: nat)
  {
    forall k :: 0 <= k < |script| ==> Closed(script[k].arg, n)
  }

  ghost predicate CompletionClosed(c: Completion, n: nat)
  {
    match c
    case Normal(v) => Closed(v, n)
    case Thrown(e) => Closed(e, n)
  }
}
