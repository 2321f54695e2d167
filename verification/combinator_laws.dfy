/**
 * What the combinators promise: `all` keeps input order and rejects with the
 * first rejection, `race` is decided by the first settlement, `any` rejects only
 * when every input of an array rejects, `allSettled` never rejects.
 */
module CombinatorLaws {
  import opened Values
  import opened ArrayLike
  import opened Combinators

  lemma {:induction false} FulfilledValuesOfFulfilled(items: seq<Outcome>)
    requires forall i :: 0 <= i < |items| ==> items[i].Fulfilled?
    ensures |FulfilledValues(items)| == |items|
    ensures forall i :: 0 <= i < |items| ==> FulfilledValues(items)[i] == items[i].value
  {
    if items != [] {
      FulfilledValuesOfFulfilled(items[..|items| - 1]);
    }
  }

  /** Exactly the inputs that reject contribute a reason, so there are as many reasons as inputs only when all reject. */
  lemma {:induction false} ReasonsCount(items: seq<Outcome>)
    ensures |Reasons(items)| == |items| <==> forall i :: 0 <= i < |items| ==> items[i].Rejected?
    ensures |Reasons(items)| == |items| ==> forall i :: 0 <= i < |items| ==> Reasons(items)[i] == items[i].reason
  {
    if items != [] {
      var init := items[..|items| - 1];
      ReasonsCount(init);
      assert forall i :: 0 <= i < |init| ==> init[i] == items[i];
    }
  }

  /** `all` fulfils exactly when every input fulfils, with their values in input order. */
  lemma AllFulfilsInOrder(items: seq<Outcome>)
    ensures AllOf(items).Fulfilled? <==> forall i :: 0 <= i < |items| ==> items[i].Fulfilled?
    ensures AllOf(items).Fulfilled? ==>
      && AllOf(items).value.List?
      && |AllOf(items).value.items| == |items|
      && forall i :: 0 <= i < |items| ==> AllOf(items).value.items[i] == items[i].value
  {
    if forall i :: 0 <= i < |items| ==> items[i].Fulfilled? {
      FulfilledValuesOfFulfilled(items);
    }
  }

  /** `all` rejects with the reason of the first input, in input order, that does not fulfil, if it rejects. */
  lemma AllRejectsWithFirstRejection(items: seq<Outcome>, k: nat)
    requires k < |items| && items[k].Rejected?
    requires forall i :: 0 <= i < k ==> items[i].Fulfilled?
    ensures AllOf(items) == Rejected(items[k].reason)
  {
    assert FirstUnfulfilled(items) == k;
  }

  /** An input that never settles, reached before any rejection, keeps `all` pending for ever. */
  lemma AllWaitsOnNeverSettling(items: seq<Outcome>, k: nat)
    requires k < |items| && items[k].Pending?
    requires forall i :: 0 <= i < k ==> items[i].Fulfilled?
    ensures AllOf(items) == Pending
  {
    assert FirstUnfulfilled(items) == k;
  }

  /** `all([])` fulfils with an empty array. */
  lemma AllOfEmpty()
    ensures AllOf([]) == Fulfilled(List([]))
  {
  }

  /** In `race`, the first input to settle decides the outcome, whichever way it settles. */
  lemma RaceFirstSettledWins(items: seq<Outcome>, k: nat)
    requires k < |items| && !items[k].Pending?
    requires forall i :: 0 <= i < k ==> items[i].Pending?
    ensures RaceOf(items) == items[k]
  {
    assert FirstSettled(items) == k;
  }

  /** Once `race` has settled, inputs that settle later change nothing. */
  lemma RaceIgnoresLater(items: seq<Outcome>, later: seq<Outcome>)
    requires !RaceOf(items).Pending?
    ensures RaceOf(items + later) == RaceOf(items)
  {
    var k := FirstSettled(items);
    RaceFirstSettledWins(items + later, k);
  }

  /** `race` stays pending exactly when no input ever settles; in particular `race([])` never settles. */
  lemma RacePendingIff(items: seq<Outcome>)
    ensures RaceOf(items).Pending? <==> forall i :: 0 <= i < |items| ==> items[i].Pending?
  {
  }

  /**
   * Whatever order the task queue runs the inputs' reactions in, `race` settles
   * exactly when some input settles, and then as one of the inputs did.
   */
  lemma RaceWinnerIsAnInput(items: seq<Outcome>, arrivals: seq<Outcome>)
    requires multiset(arrivals) == multiset(items)
    ensures RaceOf(arrivals).Pending? <==> forall i :: 0 <= i < |items| ==> items[i].Pending?
    ensures !RaceOf(arrivals).Pending? ==> RaceOf(arrivals) in items
  {
    RacePendingIff(arrivals);
    var k := FirstSettled(arrivals);
    if k < |arrivals| {
      assert arrivals[k] in multiset(arrivals);
      assert arrivals[k] in multiset(items);
    } else {
      forall i | 0 <= i < |items|
        ensures items[i].Pending?
      {
        assert items[i] in multiset(items);
        assert items[i] in multiset(arrivals);
        var j :| 0 <= j < |arrivals| && arrivals[j] == items[i];
      }
    }
  }

  /**
   * `any` over an array (`length` equal to the number of inputs) rejects exactly
   * when there is at least one input and every input rejects, and then with an
   * AggregateError listing every reason in input order.
   */
  lemma AnyRejectsIffAllReject(items: seq<Outcome>)
    ensures var r := AnyOf(Finite(|items| as real), items);
      && (r.Rejected? <==> |items| > 0 && forall i :: 0 <= i < |items| ==> items[i].Rejected?)
      && (r.Rejected? ==>
            && r.reason.AggregateError?
            && |r.reason.errors| == |items|
            && forall i :: 0 <= i < |items| ==> r.reason.errors[i] == items[i].reason)
  {
    var size := Finite(|items| as real);
    var k := FirstPending(items);
    var errors := Reasons(items[..k]);
    ReasonsCount(items[..k]);
    if SizeReached(size, |errors|) {
      assert |errors| == |items| == k;
      assert items[..k] == items;
      assert errors[..size.x.Floor] == errors;
    } else if |items| > 0 && forall i :: 0 <= i < |items| ==> items[i].Rejected? {
      assert false;
    }
  }

  /** `any` over an array where not every input rejects fulfils, once all have settled, with the fulfilled values. */
  lemma AnyFulfilsWithValues(items: seq<Outcome>)
    requires forall i :: 0 <= i < |items| ==> !items[i].Pending?
    requires |items| == 0 || exists i :: 0 <= i < |items| && items[i].Fulfilled?
    ensures AnyOf(Finite(|items| as real), items) == Fulfilled(List(FulfilledValues(items)))
  {
    AnyRejectsIffAllReject(items);
    assert FirstPending(items) == |items|;
  }

  /** Unlike ECMAScript's `Promise.any`, `any([])` fulfils with an empty array. */
  lemma AnyOfEmpty(size: LengthProp)
    ensures AnyOf(size, []) == Fulfilled(List([]))
  {
  }

  /** Without a numeric `length` (a Set, a generator) `errors.length === size` never holds, so `any` never rejects. */
  lemma AnyWithoutLengthNeverRejects(items: seq<Outcome>)
    ensures !AnyOf(NotANumber, items).Rejected?
  {
  }

  /**
   * `allSettled` never rejects; it fulfils once every input has settled, with one
   * record per input in input order, the reason of a rejection under `value`.
   */
  lemma AllSettledNeverRejects(items: seq<Outcome>)
    ensures !AllSettledOf(items).Rejected?
    ensures AllSettledOf(items).Fulfilled? <==> forall i :: 0 <= i < |items| ==> !items[i].Pending?
    ensures AllSettledOf(items).Fulfilled? ==>
      var records := AllSettledOf(items).value.items;
      && |records| == |items|
      && forall i :: 0 <= i < |items| ==>
           records[i] == Record(items[i].Fulfilled?, if items[i].Fulfilled? then items[i].value else items[i].reason)
  {
  }

  // ----- the static methods -----

  /**
   * `Promise.all` returns a fulfilled promise exactly when the argument passes
   * the guard, the loop can visit it and every input fulfils; the array holds
   * their values in input order.
   */
  lemma PromiseAllFulfils(d: Dialect, input: Input)
    ensures var c := PromiseAll(d, input);
      && (c.Returns? && c.outcome.Fulfilled? <==>
            && IsArrayLikeObject(input.subject) && (d == ByIndex || input.iterable)
            && forall i :: 0 <= i < |input.items| ==> input.items[i].Fulfilled?)
      && (c.Returns? && c.outcome.Fulfilled? ==>
            && c.outcome.value.List? && |c.outcome.value.items| == |input.items|
            && forall i :: 0 <= i < |input.items| ==> c.outcome.value.items[i] == input.items[i].value)
  {
    AllFulfilsInOrder(input.items);
  }

  /** `Promise.race` on an argument the loop can visit settles exactly when an input settles, as one of them did. */
  lemma PromiseRaceSettlesAsAnInput(d: Dialect, input: Input, arrivals: seq<Outcome>)
    requires multiset(arrivals) == multiset(input.items)
    ensures var c := PromiseRace(d, input, arrivals);
      IsArrayLikeObject(input.subject) && (d == ByIndex || input.iterable) ==>
        && c.Returns?
        && (c.outcome.Pending? <==> forall i :: 0 <= i < |input.items| ==> input.items[i].Pending?)
        && (!c.outcome.Pending? ==> c.outcome in input.items)
  {
    RaceWinnerIsAnInput(input.items, arrivals);
  }

  /**
   * `Promise.any` on an array rejects exactly when the array is non-empty and
   * every input rejects, with every reason in input order; without a numeric
   * `length` it never rejects.
   */
  lemma PromiseAnyRejects(input: Input)
    ensures var c := PromiseAny(input);
      && (input.subject.length == Finite(|input.items| as real) ==>
            && (c.outcome.Rejected? <==>
                  && !Nullish(input.subject) && input.iterable && |input.items| > 0
                  && forall i :: 0 <= i < |input.items| ==> input.items[i].Rejected?)
            && (c.outcome.Rejected? ==>
                  && c.outcome.reason.AggregateError? && |c.outcome.reason.errors| == |input.items|
                  && forall i :: 0 <= i < |input.items| ==> c.outcome.reason.errors[i] == input.items[i].reason))
      && (input.subject.length == NotANumber ==> !c.outcome.Rejected?)
  {
    AnyRejectsIffAllReject(input.items);
  }

  /** `Promise.allSettled` never rejects, and fulfils exactly when the loop can visit the argument and every input settles. */
  lemma PromiseAllSettledNeverRejects(input: Input)
    ensures var c := PromiseAllSettled(input);
      && !c.outcome.Rejected?
      && (c.outcome.Fulfilled? <==>
            && !Nullish(input.subject) && input.iterable
            && forall i :: 0 <= i < |input.items| ==> !input.items[i].Pending?)
  {
    AllSettledNeverRejects(input.items);
  }
}
