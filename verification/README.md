# A verified model of ts-promise-from-functor-observer

This project models the promise library of ts-promise-from-functor-observer in Dafny, and the teaching classes it grows from.

## The main engine

The Promises/A+ engine comes in three dialects:

- `src/es6/index.js`;
- `src/es5/index.js`, down-compiled with `_this` and `called_1`;
- `src/typescript/index.ts`, the `TsPromise` class.

All three run the same state machine:

- A promise has a `status`, a `value`, a `reason`, and two callback arrays.
- The constructor's `reject` and inner `__resolve` settle a promise only while it is PENDING, then drain the matching array.
- `then` creates a new promise. It either schedules a `setTimeout` task (settled receiver) or pushes one wrapper onto each array (pending receiver). It never runs a handler itself.
- `Promise.resolvePromise` is the resolution procedure of section 2.3 of Promises/A+.
- `Promise.resolve`, `Promise.reject` and `Promise.defer` build on the constructor.
- `all`, `race`, `any` and `allSettled` are the combinators; `isArrayLikeObject` is their guard.

The model is split into these modules:

- **`Values`**: the JavaScript values the engine looks at. A value is one of the library's own promises (`Ref`), an object whose `then` slot throws on read, is not callable, or is callable, or something else.
  - A callable `then` is a script of synchronous calls to its resolve and reject callbacks, or a throw.
- **`Engine`**: the engine as pure functions over a `World`.
  - A `World` is the sequence of promise records, indexed by promise identity, plus a FIFO queue of timer tasks standing in for `setTimeout`.
  - Closures become data. A `Reaction` is a wrapper pushed by `then`. A `Task` is a callback `handle` passed to `setTimeout`. A `Handler` is one of the functions `handle` can run.
  - The capability `Raw` is the constructor's `__resolve`. `Full` is its `resolve`, which runs the resolution procedure again.
- **`PromiseRuntime.Runtime`**: the same engine as the source writes it.
  - A class whose fields are the promise heap and the timer queue, updated in place by methods.
  - `CallThen` has the `called` flag. `Drain` is the `forEach`. `Construct` is the executor loop.
  - Each method is proved to leave exactly the state the `Engine` function describes.
- **`EngineLaws`** and **`EngineTasks`**: what the engine guarantees.
  - Settlement is once-only, and the heap only ever evolves.
  - `then` never runs a handler.
  - Missing handlers pass the outcome through, and a throwing handler rejects.
  - The resolution procedure behaves correctly case by case, with first-call-wins for thenables.
  - Reactions run in registration order.
- **`EnginePlain`**: the invariant `PlainFulfilments`. A fulfilled promise always holds a plain value, never one of the library's promises or a thenable, and the handlers `then` registers for fulfilment alone only ever receive plain values. Every operation of the engine keeps it.
- **`ArrayLike`**: the guard `isArrayLikeObject`, seen through `typeof`, truthiness, `length` and the `toString` tag.
- **`Combinators`** and **`CombinatorLaws`**: the combinators over the outcomes of their inputs.
  - Specification functions (`AllOf`, `RaceOf`, `AnyOf`, `AllSettledOf`) say what the returned promise does.
  - Methods run the source's loops and are proved equal to them.
  - `Dialect` separates the `for...of` loops of es6 and ts from the by-index loop of es5.

The three dialects differ in small ways, each handled as follows:

- **`Promise.any` and `Promise.allSettled`**: only es6 has them.
- **Native `Promise` values**: `TsPromise` also adopts them. They are outside the model.
- **A missing iterator**: es5 indexes up to `length`. Under `for...of`, an array-like argument without an iterator fails.
  - In `race` the failure is synchronous and is caught by the constructor, so the promise rejects.
  - In `all` it happens inside an async executor and is lost, so the promise stays pending.

## The teaching classes

- **`Functor`** (module `Boxes`): a datatype with a pure `map`.
- **`Observer`** (module `Subscribers`): a class whose `callback` list `subscribe` appends to and `notify` walks.
- **`PromiseFunctor` and its twin `PromiseObserver`** (module `Unguarded`): they differ only in names (`map`/`subscribe`, `resolve`/`notify`).
  - Instances live in an arena `Heap.nodes`; a callback settles the child instance that `map` created.
  - With no status, every `resolve` overwrites `value` and runs every callback again.
- **The four guarded classes** (module `Guarded`): one `Heap` class with a `Variant` tag.
  - `WithStatus` stands for `PromiseFunctorWithStatus` and its twin `PromiseObserverWithStatus`.
  - `FunctorWithTwoStatus` is `PromiseFunctorWithTwoStatus`.
  - `ObserverWithTwoStatus` is `PromiseObserverWithTwoStatus`. One `fn` serves both channels, and the `tthis` typo in `notifyReject` applies.
  - `MaybeWithTwoStatus` is `PromiseMaybeWithTwoStatus`, with default handlers.

In every class, the executor passed to the constructor is not run by the model.

- `Heap.New` creates the instance. What the executor does with `resolve`/`reject`, at once or from a timer, is a later call of `Heap.Resolve` or `Heap.Reject` on that instance.
- `Heap.parent` is ghost bookkeeping: it records which instance's callback settles each child. It is used to prove that settling one instance leaves every instance outside its subtree alone.

## Model

| member | source | states |
|---|---|---|
| `Values.ReadThen` | src/es6/index.js:150-157 | `x.then` is read once: only an ordinary object can carry a callable or throwing `then`; every other object or function value has no callable `then` |
| `Engine.Drained` | src/es6/index.js:23 | draining a callback array queues exactly one task per callback, in push order, each with the callback's handler and derived promise and the settled payload |
| `Engine.Reject` | src/es6/index.js:15-25 | a settled promise is left as it is; a pending one becomes REJECTED with the reason, keeps its value and arrays, no other promise changes, and its rejection callbacks are queued after the tasks already waiting; heap well-formedness is preserved |
| `Engine.Fulfil` | src/es6/index.js:29-39 | `__resolve`: the same with FULFILLED, `value` and the fulfilment array; `reason` is untouched |
| `Engine.Apply` | src/es6/index.js:58-67 | the substitute handlers: identity (and `finally`'s value handler) returns its argument, the rethrow (and `finally`'s reason handler) throws it |
| `Engine.Then` | src/es6/index.js:56-108 | `then` returns a new pending promise; a fulfilled receiver gets one task with its value and a rejected one one task with its reason, without changing the receiver; a pending receiver gets one wrapper appended to each array and nothing is scheduled; no handler runs; status and payload of the receiver never change |
| `Engine.ThenWith` | src/es6/index.js:56-67 | `then` as called returns a new pending promise and never changes the receiver's status; a non-function `onFulfilled` is replaced by the identity and a non-function `onRejected` by the rethrow, and the handlers so obtained are queued with the receiver's value or reason if it is settled, or appended to its arrays if it is pending |
| `Engine.Finally` | src/es6/index.js:114-125 | `finally(fn)` returns a new pending promise; the handlers it registers are the value and reason pass-throughs, queued with the receiver's payload if it is settled or appended to its arrays if it is pending |
| `Engine.Catch` | src/es6/index.js:110-112 | `catch(f)` is `then(null, f)`: `then` with a non-function first argument |
| `Engine.StaticResolve` | src/es6/index.js:205-207 | `Promise.resolve(v)` never throws; its promise is the next identity and the heap stays well formed |
| `Engine.StaticReject` | src/es6/index.js:209-211 | `Promise.reject(r)` never throws; its promise is the next identity, the only one added, and is rejected with `r` |
| `Engine.Defer` | src/es6/index.js:365-372 | `Promise.defer()` adds exactly one fresh pending promise, the next identity, and changes nothing else |
| `Engine.ResolvePromise` | src/es6/index.js:132-203 | the resolution procedure keeps every promise id in the heap live and only adds promises; its behaviour case by case is stated by the lemmas below |
| `Engine.SettleWith` | src/es6/index.js:199-202 | `resolve(x)` with the capability in hand: `__resolve` directly, or the constructor's `resolve`, which re-enters the procedure; keeps the heap well formed |
| `Engine.RunThen` | src/es6/index.js:151-198 | the calls a thenable's `then` makes keep the heap well formed and never remove promises |
| `Engine.RunExecutor` | src/es5/index.js:117-122 | the executor's calls of `resolve`/`reject`, and a throw turned into `reject(error)`, keep the heap well formed |
| `Engine.Construct` | src/es6/index.js:2-49 | `new Promise(executor)` throws a TypeError exactly when the executor is not a function; otherwise the new promise is the next identity and the heap stays well formed |
| `Engine.RunTask` | src/es6/index.js:72-82 | running the oldest timer task keeps the heap well formed and never removes promises |
| `EngineLaws.RejectEvolves` | src/es5/index.js:85-97 | `reject` never changes a settled promise, never changes the payload of one that stays pending, and only appends to callback arrays and the task queue |
| `EngineLaws.FulfilEvolves` | src/es5/index.js:100-113 | the same for `__resolve` |
| `EngineLaws.ThenEvolves` | src/es5/index.js:16-68 | `then` never changes a settled promise and only appends to arrays and the queue |
| `EngineLaws.ResolvePromiseEvolves` | src/es5/index.js:128-208 | Promises/A+ 2.1: the whole resolution procedure, through any finite chain of thenables and adoptions, never changes a settled promise and only appends |
| `EngineLaws.SettleWithEvolves` | src/es5/index.js:204-207 | the same for a direct `resolve(x)` |
| `EngineLaws.RunThenEvolves` | src/es5/index.js:152-203 | the same for every call a thenable's `then` makes |
| `EngineLaws.CalledIgnoresRest` | src/es6/index.js:161-184 | once `called` is set, every later resolve call, reject call or throw of the thenable leaves the heap exactly as it is (Promises/A+ 2.3.3.3.3, 2.3.3.3.4) |
| `EngineLaws.FirstCallWins` | src/es6/index.js:151-198 | the outcome of calling a thenable's `then` is that of its first resolve call, reject call or throw alone |
| `EngineLaws.SilentThenableLeavesPending` | src/es6/index.js:158-185 | a thenable whose `then` never calls back leaves the heap unchanged |
| `EngineLaws.CycleRejects` | src/es6/index.js:137-139 | Promises/A+ 2.3.1: resolving a pending promise with itself rejects it with a chaining-cycle TypeError; its rejection callbacks are queued and nothing else changes |
| `EngineLaws.PlainFulfils` | src/es6/index.js:186-202 | Promises/A+ 2.3.3.4 and 2.3.4: a primitive, null or an object without a callable `then` fulfils the pending target with that very value under either capability; its fulfilment callbacks are queued and nothing else changes |
| `EngineLaws.ThrowingGetterRejects` | src/es6/index.js:190-198 | Promises/A+ 2.3.3.2: a `then` getter that throws rejects the target with the error; its rejection callbacks are queued and nothing else changes |
| `EngineLaws.AdoptionSubscribes` | src/es6/index.js:142-148 | Promises/A+ 2.3.2: resolving with another promise `q` settles nothing now; it schedules one adoption task if `q` is settled, or appends one adoption wrapper to each of `q`'s arrays if it is pending |
| `EngineTasks.ExecutorThrowRejects` | src/es6/index.js:43-48 | an executor that throws before calling anything yields a new promise rejected with the error; the rest of the heap and the queue are untouched |
| `EngineTasks.RunExecutorEvolves` | src/typescript/index.ts:225-230 | nothing an executor does undoes a settlement |
| `EngineTasks.ExecutorResolvePlainFulfils` | src/es6/index.js:28-41 | `resolve(x)` with a plain value fulfils the new promise with `x`, and nothing the executor does afterwards, a throw included, changes that |
| `EngineTasks.StaticResolveFulfils` | src/es6/index.js:205-207 | `Promise.resolve(v)` with a plain value is a new promise already fulfilled with `v`; nothing else changes |
| `EngineTasks.StaticRejectRejects` | src/es6/index.js:209-211 | `Promise.reject(r)` is a new promise rejected with `r` itself, even when `r` is a promise or a thenable |
| `EngineTasks.DeferIsPending` | src/es6/index.js:365-372 | `Promise.defer()` adds exactly one fresh pending promise and changes nothing else |
| `EngineTasks.RunTaskEvolves` | src/es6/index.js:74-81 | running a timer task never undoes a settlement, and the tasks still waiting stay queued in order |
| `EngineTasks.HandlerSettlesDerived` | src/es6/index.js:72-82 | Promises/A+ 2.2.7.1-2: when a handler throws, the derived promise is rejected with the error; when it returns a plain value, the derived promise is fulfilled with it; the derived promise's own callbacks are queued after the rest |
| `EngineTasks.PassThrough` | src/es6/index.js:57-67 | Promises/A+ 2.2.7.3-4: with a non-function handler the derived promise takes the receiver's value or reason unchanged (a value is always plain, by `PlainFulfilments`); `finally`'s handlers do the same and first queue a task for `fn` behind the tasks already waiting |
| `EngineTasks.AdoptionSettlesTarget` | src/es6/index.js:143-148 | when an adopted promise settles, the adopting promise takes its reason, or its value (always plain, by `PlainFulfilments`) |
| `EngineTasks.ThenOrder` | src/es6/index.js:97-103 | Promises/A+ 2.2.6: handlers registered on a pending promise are queued, when it settles, in the order of the `then` calls and after those registered earlier |
| `EnginePlain.RejectKeepsPlain` | src/es6/index.js:15-25 | `reject` keeps the invariant that every fulfilled promise holds a plain value (neither one of the library's promises nor a thenable) and every queued value-side handler gets one: a rejection never reaches a value-side handler |
| `EnginePlain.FulfilKeepsPlain` | src/es6/index.js:29-39 | `__resolve` with a plain value keeps the invariant, and the fulfilment callbacks it queues carry that plain value |
| `EnginePlain.ThenKeepsPlain` | src/es6/index.js:56-108 | `then` keeps the invariant when its rejection handler is not a value-side one; a settled receiver's task carries its plain value |
| `EnginePlain.ThenWithKeepsPlain` | src/es6/index.js:56-67 | `then` as called puts a user function or the rethrow on the rejection side, so it always keeps the invariant |
| `EnginePlain.FinallyKeepsPlain` | src/es6/index.js:114-125 | `finally` keeps the invariant: its rejection handler rethrows |
| `EnginePlain.ResolvePromiseKeepsPlain` | src/es6/index.js:132-203 | the resolution procedure calls `__resolve` only with a plain value: another promise is adopted and a thenable is called, never stored |
| `EnginePlain.SettleWithKeepsPlain` | src/es6/index.js:199-202 | `resolve(x)` with a plain `x` keeps the invariant under either capability |
| `EnginePlain.RunThenKeepsPlain` | src/es6/index.js:151-198 | every call a thenable's `then` makes keeps the invariant |
| `EnginePlain.RunExecutorKeepsPlain` | src/es5/index.js:117-122 | every call an executor makes keeps the invariant |
| `EnginePlain.ConstructKeepsPlain` | src/es6/index.js:2-49 | `new Promise(executor)`, and with it `Promise.resolve`, `Promise.reject` and `Promise.defer`, keeps the invariant |
| `EnginePlain.RunTaskKeepsPlain` | src/es6/index.js:72-82 | running a timer task keeps the invariant: a handler's result, and an adopted value, go through the resolution procedure |
| `PromiseRuntime.Runtime.Drain` | src/typescript/index.ts:219 | the `forEach` over a callback array appends exactly the drained tasks to the queue and changes no promise |
| `PromiseRuntime.Runtime.Reject` | src/typescript/index.ts:197-207 | the in-place `reject` leaves exactly the state `Engine.Reject` describes |
| `PromiseRuntime.Runtime.Fulfil` | src/typescript/index.ts:211-221 | the in-place `__resolve` leaves exactly the state `Engine.Fulfil` describes |
| `PromiseRuntime.Runtime.Then` | src/typescript/index.ts:250-287 | the in-place `then` returns the derived promise and leaves exactly the state `Engine.Then` describes |
| `PromiseRuntime.Runtime.ResolvePromise` | src/typescript/index.ts:8-104 | the in-place resolution procedure leaves exactly the state `Engine.ResolvePromise` describes |
| `PromiseRuntime.Runtime.CallThen` | src/typescript/index.ts:48-99 | the loop over the thenable's calls with the `called` flag leaves exactly the state `Engine.RunThen` describes |
| `PromiseRuntime.Runtime.ThenWith` | src/typescript/index.ts:236-248 | `then` as called, with identity and rethrow substituted for non-function arguments, is `Engine.Then` on the substituted handlers |
| `PromiseRuntime.Runtime.Catch` | src/typescript/index.ts:290-292 | the in-place `catch` is `then(null, onRejected)` |
| `PromiseRuntime.Runtime.Finally` | src/typescript/index.ts:294-305 | the in-place `finally` registers the pass-through handlers that queue `fn` |
| `PromiseRuntime.Runtime.Construct` | src/typescript/index.ts:190-231 | a non-function executor throws a TypeError and allocates nothing; otherwise the executor loop leaves exactly the state `Engine.Construct` describes |
| `PromiseRuntime.Runtime.StaticResolve` | src/typescript/index.ts:106-109 | `TsPromise.resolve` always returns a new promise, leaving the state of `Engine.StaticResolve` |
| `PromiseRuntime.Runtime.StaticReject` | src/typescript/index.ts:111-114 | `TsPromise.reject` always returns a new promise, leaving the state of `Engine.StaticReject` |
| `PromiseRuntime.Runtime.Defer` | src/typescript/index.ts:173-182 | `defer` always returns a new promise, leaving the state of `Engine.Defer` |
| `PromiseRuntime.Runtime.RunNextTask` | src/typescript/index.ts:252-262 | the event loop running the oldest timer callback leaves exactly the state `Engine.RunTask` describes |
| `ArrayLike.LengthOf` | src/es6/index.js:337-345 | an array-like object's `length` is a whole number from 0 to 9007199254740991 |
| `ArrayLike.ArrayLikeObjectIff` | src/es6/index.js:331-363 | `isArrayLikeObject` holds exactly for truthy values of `typeof` 'object' whose `length` is a whole number in [0, 9007199254740991] and whose tag is neither a function's nor a generator function's |
| `Combinators.SettledRecord` | src/es6/index.js:308-319 | the `allSettled` record of a settled input says whether it fulfilled and carries its value, or its reason, under `value` |
| `Combinators.PromiseAll` | src/es6/index.js:213-243 | `all` throws a TypeError synchronously exactly when the argument is not array-like; otherwise its promise does what `AllOf` says, except that under `for...of` an argument without an iterator leaves it pending |
| `Combinators.PromiseRace` | src/es6/index.js:245-262 | `race` throws a TypeError synchronously exactly when the argument is not array-like; otherwise its promise does what `RaceOf` says over the inputs' outcomes in the order their reactions run, any permutation of the inputs, or rejects when `for...of` finds no iterator |
| `Combinators.PromiseAny` | src/es6/index.js:264-291 | `any` never throws; with `undefined`, `null` or a non-iterable argument its promise stays pending, otherwise it does what `AnyOf` says |
| `Combinators.PromiseAllSettled` | src/es6/index.js:293-322 | `allSettled` never throws; it fails the same way as `any`, otherwise it does what `AllSettledOf` says |
| `Combinators.RunAll` | src/es5/index.js:220-269 | the loop that awaits each input in turn, pushes values and rejects on a rejection ends in exactly the outcome `AllOf` |
| `Combinators.RunRace` | src/es5/index.js:270-292 | the guarded `resolve`/`reject` calls made in settlement order end in exactly the outcome `RaceOf` |
| `Combinators.RunAny` | src/es6/index.js:266-290 | the loop that pushes values and errors and rejects when `errors.length === size` ends in exactly the outcome `AnyOf` |
| `Combinators.RunAllSettled` | src/es6/index.js:295-320 | the loop that pushes one record per input ends in exactly the outcome `AllSettledOf` |
| `CombinatorLaws.AllFulfilsInOrder` | src/typescript/index.ts:127-148 | `all` fulfils exactly when every input fulfils, and then with every value in input order |
| `CombinatorLaws.AllRejectsWithFirstRejection` | src/es6/index.js:225-241 | `all` rejects with the reason of the first input, in input order, that does not fulfil, when that input rejects |
| `CombinatorLaws.AllWaitsOnNeverSettling` | src/es6/index.js:225-227 | an input that never settles, reached before any rejection, keeps `all` pending |
| `CombinatorLaws.AllOfEmpty` | src/es6/index.js:223-229 | `all([])` fulfils with `[]` |
| `CombinatorLaws.RaceFirstSettledWins` | src/es6/index.js:254-261 | in `race`, the first input to settle decides the outcome, whichever way it settles |
| `CombinatorLaws.RaceIgnoresLater` | src/typescript/index.ts:159-170 | once `race` has settled, later settlements change nothing |
| `CombinatorLaws.RacePendingIff` | src/es5/index.js:279-291 | `race` stays pending exactly when no input ever settles, so `race([])` never settles |
| `CombinatorLaws.RaceWinnerIsAnInput` | src/es6/index.js:254-261 | whatever order the inputs' reactions run in, `race` settles exactly when some input settles, and then exactly as one of the inputs did |
| `CombinatorLaws.AnyRejectsIffAllReject` | src/es6/index.js:284-289 | for an array, `any` rejects exactly when there is an input and every input rejects, and then with an AggregateError holding every reason in input order |
| `CombinatorLaws.AnyFulfilsWithValues` | src/es6/index.js:270-282 | for an array where not every input rejects, `any` fulfils, once all inputs have settled, with the fulfilled values in input order |
| `CombinatorLaws.AnyOfEmpty` | src/es6/index.js:266-274 | `any([])` fulfils with `[]` |
| `CombinatorLaws.AnyWithoutLengthNeverRejects` | src/es6/index.js:267-287 | without a numeric `length`, `errors.length === size` never holds, so `any` never rejects |
| `CombinatorLaws.AllSettledNeverRejects` | src/es6/index.js:293-322 | `allSettled` never rejects; it fulfils exactly when every input has settled, with one record per input in input order |
| `CombinatorLaws.PromiseAllFulfils` | src/es6/index.js:213-243 | `Promise.all` returns a fulfilled promise exactly when the argument is array-like, the loop can visit it and every input fulfils; the array holds their values in input order |
| `CombinatorLaws.PromiseRaceSettlesAsAnInput` | src/es6/index.js:245-262 | `Promise.race` on an argument the loop can visit returns a promise that settles exactly when an input settles, and as one of them did |
| `CombinatorLaws.PromiseAnyRejects` | src/es6/index.js:264-291 | `Promise.any` on an array rejects exactly when the argument is not nullish, is iterable, is non-empty and every input rejects, with every reason in input order; without a numeric `length` it never rejects |
| `CombinatorLaws.PromiseAllSettledNeverRejects` | src/es6/index.js:293-322 | `Promise.allSettled` never rejects, and fulfils exactly when the argument is not nullish, is iterable and every input settles |
| `Boxes.Functor.Map` | src/sections/Functor/Functor.js:16 | `map(fn)` is a new functor holding `fn(value)`; the receiver is a value and is not changed |
| `Boxes.MapIdentity` | src/sections/Functor/Functor.js:11-17 | mapping the identity gives back an equal functor |
| `Boxes.MapComposes` | src/sections/Functor/Functor.js:16 | `map(f).map(g)` equals `map(x => g(f(x)))` |
| `Subscribers.Observer.constructor` | src/sections/Observer/Observer.js:2-8 | a new observer has an empty callback list |
| `Subscribers.Observer.Subscribe` | src/sections/Observer/Observer.js:10-12 | `subscribe` appends exactly the one observer, at the end |
| `Subscribers.Observer.Notify` | src/sections/Observer/Observer.js:5-7 | `notify(v)` calls every subscriber once with `v`, in subscription order, and leaves the list unchanged |
| `Unguarded.Resolved` | src/sections/Functor/PromiseFunctor.js:6-9 | `resolve(v)` leaves `v` in the instance, changes no callback list, and leaves every instance created before it alone |
| `Unguarded.RunCallbacks` | src/sections/Functor/PromiseFunctor.js:8 | the `forEach` over the callbacks changes neither the instance itself nor any callback list |
| `Unguarded.ResolveFrame` | src/sections/Observer/PromiseObserver.js:6-9 | `notify` on an instance changes only that instance and the instances subscribed below it |
| `Unguarded.ChildHolds` | src/sections/Observer/PromiseObserver.js:14-17 | after `notify(v)` the child of every subscription holds `fn(v)` |
| `Unguarded.ChainComposes` | src/sections/Functor/PromiseFunctor.js:14-17 | chained maps compose: a grandchild mapped with `f` then `g` holds `g(f(v))` after `resolve(v)` |
| `Unguarded.ResolveAgainRefires` | src/sections/Observer/PromiseObserver.js:6-8 | there is no once-guard: a second `notify(w)` overwrites the value and re-runs every callback, so the child then holds `fn(w)` |
| `Unguarded.Heap.New` | src/sections/Functor/PromiseFunctor.js:2-12 | a new instance has an undefined value and no callbacks |
| `Unguarded.Heap.Map` | src/sections/Observer/PromiseObserver.js:14-17 | `subscribe(fn)` appends exactly one callback to the receiver, changes nothing else in it, and returns a child whose value is undefined |
| `Unguarded.Heap.Resolve` | src/sections/Functor/PromiseFunctor.js:6-9 | the in-place `resolve` leaves exactly the arena `Resolved` describes |
| `Guarded.Settled` | src/sections/Functor/PromiseFunctorWithTwoStatus.js:13-27 | an effective `resolve` sets FULFILLED and `value` and leaves `reason` alone; an effective `reject` sets REJECTED and `reason` and leaves `value` alone; neither changes a callback list |
| `Guarded.Substitute` | src/sections/Functor/PromiseMaybeWithTwoStatus.js:33-41 | a function argument is kept; a non-function becomes the default handler exactly in `PromiseMaybeWithTwoStatus`, and stays a non-function in the other classes |
| `Guarded.Apply` | src/sections/Functor/PromiseMaybeWithTwoStatus.js:33-41 | a handler throws exactly when it is the default rejection handler, which throws the payload, or a non-function, whose call throws a TypeError; the default fulfilment handler returns the payload |
| `Guarded.Settle` | src/sections/Functor/PromiseMaybeWithTwoStatus.js:13-27 | a settled instance ignores `resolve`/`reject`; a pending one ends with the status and payload set; no callback list changes, and no instance created earlier changes |
| `Guarded.Drain` | src/sections/Functor/PromiseFunctorWithTwoStatus.js:17 | the `forEach` changes no callback list, not the instance being drained, and no instance created before it |
| `Guarded.Step` | src/sections/Functor/PromiseFunctorWithTwoStatus.js:43-44 | one callback changes no callback list and nothing up to its owner |
| `Guarded.Mapped` | src/sections/Functor/PromiseMaybeWithTwoStatus.js:32-57 | on a fulfilled parent the child is fulfilled with `onFulfilled(value)`, or stays pending while what `onFulfilled` threw escapes from `map`; on a rejected parent the child is rejected with `onRejected(reason)`, a throwing rejection handler (a default, or a non-function) instead throws out of `map`, and the Observer variant throws a ReferenceError; on a pending parent one callback is pushed on each list (the fulfilment list only, for the single-status classes), the parent's status and payloads stay, and the child is pending |
| `Guarded.Pushed` | src/sections/Functor/PromiseFunctorWithTwoStatus.js:42-45 | `map` on a pending parent appends exactly one callback for the new child to each list and changes nothing else |
| `Guarded.SettleFrozen` | src/sections/Functor/PromiseFunctorWithStatus.js:10-16 | once settled, an instance never changes again, whoever is resolved or rejected later |
| `Guarded.SettleFrame` | src/sections/Observer/PromiseObserverWithStatus.js:10-16 | settling an instance changes only that instance and the instances below it |
| `Guarded.SettleLinked` | src/sections/Functor/PromiseFunctorWithTwoStatus.js:42-45 | a child stays pending while its parent is pending, whatever instance handed out to a caller is settled |
| `Guarded.ChildSettles` | src/sections/Functor/PromiseMaybeWithTwoStatus.js:52-55 | when a pending parent settles and nothing escapes, the child of each callback on the matching list ends settled the same way, with the handler applied to the payload |
| `Guarded.SettleNoEscape` | src/sections/Functor/PromiseFunctorWithTwoStatus.js:13-27 | a settlement throws only when a callback on its channel has a throwing handler (a non-function, or a default rejection handler) or through the `tthis` typo |
| `Guarded.NotifyRejectStopsAtTypo` | src/sections/Observer/PromiseObserverWithTwoStatus.js:21-26 | `notifyReject` on a pending instance sets REJECTED and `reason`, then throws a ReferenceError; no rejection callback runs and no other instance changes |
| `Guarded.MissingHandlerEscapes` | src/sections/Functor/PromiseFunctorWithTwoStatus.js:42-45 | in the classes without defaults, a callback built from a non-function argument (`map(plus1)` leaves `onRejected` undefined) makes the settlement that reaches it throw |
| `Guarded.DefaultRejectionEscapes` | src/sections/Functor/PromiseMaybeWithTwoStatus.js:36-41 | a rejection that reaches a default rejection handler makes `reject` throw |
| `Guarded.Heap.New` | src/sections/Functor/PromiseFunctorWithTwoStatus.js:6-11 | a new instance is PENDING with undefined payloads and empty lists |
| `Guarded.Heap.Map` | src/sections/Observer/PromiseObserverWithTwoStatus.js:32-46 | the in-place `map`/`subscribe`, for any arguments, functions or not, leaves exactly the arena and exception `Mapped` describes on the handlers `Substitute` keeps, and keeps the arena well formed |
| `Guarded.Heap.Resolve` | src/sections/Observer/PromiseObserverWithTwoStatus.js:13-19 | the in-place `resolve`/`notify`/`notifyResolve` leaves the arena and exception `Settle` describes, and never throws when no fulfilment callback holds a non-function |
| `Guarded.Heap.Reject` | src/sections/Functor/PromiseMaybeWithTwoStatus.js:21-27 | the in-place `reject`/`notifyReject` leaves the arena and exception `Settle` describes |
| `Guarded.Heap.SettleAt` | src/sections/Functor/PromiseFunctorWithStatus.js:10-16 | the status guard, the payload and the `forEach`, which an exception ends, leave exactly what `Settle` describes |
| `Guarded.Heap.RunCallback` | src/sections/Observer/PromiseObserverWithStatus.js:28 | one pushed arrow function applies its handler and settles its child, leaving exactly what `Step` describes |

## Left out

- Timers: `setTimeout` is a FIFO queue of tasks. The host's interleaving of timers with other work, and delays, are not modelled. Only "later, in order" is kept.
- In `src/es6/index.js` the adoption handler returns `x.then(...)`. That return value only feeds a derived promise nobody can reach, so the model, like es5 and ts, treats it as `undefined`.
- Native `Promise` interop in `src/typescript/index.ts` (`instanceof Promise`) is not part of this model. The `lodash.isarraylikeobject` import is modelled by the es6/es5 algorithm it replaces.
- The combinators are modelled over the final outcome of each input, not over real interleavings. An input that is itself a promise is adopted (the `value instanceof Promise` branch). This is folded into its outcome.
- `Combinators.PromiseRace`: the order in which the inputs' reactions run is a parameter, constrained only to be a permutation of the inputs. The task queue decides it (an input that is one of the library's promises takes one more adoption hop than a plain value), and the model does not derive it from the engine.
- `Combinators.AnyOf`: the AggregateError holds the first `size` reasons. The source hands `errors` itself to the error, so later pushes would show through; that aliasing is not modelled.
- `__awaiter` and `__generator` in `src/es5/index.js` are not modelled. The es5 `all` loop is modelled directly as "await each input in turn".
- The effects of user handlers are not modelled; handlers are pure functions from a value to a completion. This includes `finally`'s `fn`, which runs in its own task, and whatever it throws. In the teaching classes, user functions are total; in the guarded classes a handler throws only when it is `PromiseMaybeWithTwoStatus`'s default rejection handler or a non-function argument of another guarded class.
- A `then` getter is read through `ReadThen`, which always returns the same slot. A getter that changes between the two reads the `Full` capability performs is not modelled.
- A `length` getter that throws is not modelled; nullish arguments are the only case where reading `length` fails.
- A thenable's `then` is a synchronous script. A thenable that calls back later from a timer is not modelled.
- A cyclic or unbounded chain of thenables is not expressible: `Value` is an inductive datatype, so a callable `then` resolves only with values already built, and every chain the model can state is finite. The source does not detect such a chain (Promises/A+ 2.3.3.3.1 leaves this optional). Take `t = {then(res) { res(t) }}`: each `resolvePromise` call calls `then`, whose resolve callback sets its own `called` and calls `resolvePromise` again with a fresh `called`, synchronously and without end, until the stack overflows. Where the RangeError is caught decides the result. A `catch` whose `called` is still unset rejects the promise with it; one whose `called` is already set swallows it and leaves the promise pending. `Engine.ResolvePromise`, `Engine.SettleWith` and `Engine.RunThen` terminate only because this input cannot be written, and `EngineLaws.ResolvePromiseEvolves` and the other laws about the procedure cover finite chains only.
- Error message strings are not modelled; errors carry a tag (`ErrorTag`).
- The `instanceof Promise` test is modelled as "is one of the library's own promises". A subclass instance from outside the heap is not modelled.
- The demo code at the bottom of each `src/sections` file and `rollup.config.ts` are not part of this model.
- In `Observer`, the values subscribers return are not modelled; `notify` ignores them. A non-function observer, which would throw a TypeError, is not modelled either.
- In `PromiseFunctor` and `PromiseObserver` (module `Unguarded`), `map`/`subscribe` take a function: a non-function `fn` (`map(undefined)`), whose call throws a TypeError when `resolve`/`notify` runs and ends the `forEach`, is not modelled.
- `map`'s three `if` statements are modelled as one `if`/`else if`/`else`. At most one branch can fire: all three test the parent's status, and settling the fresh child cannot change it.
- The single-status classes have only a fulfilment list, so `Guarded.Mapped` pushes only onto it for `WithStatus`.
