/**
 * `Observer` (src/sections/Observer/Observer.js): a list of subscribed
 * functions, each called with the value passed to `notify`.
 */
module Subscribers {
  import opened Values

  /** One call `observe(value)` made by `notify`: which subscriber, with what. */
  datatype Notified = Notified(observer: nat, arg: Value)

  class Observer {
    var callback: seq<Value -> Value>

    constructor()
      ensures callback == []
    {
      callback := [];
    }

    /** `subscribe(observer)`: one more entry at the end; nothing is called. */
    method Subscribe(observer: Value -> Value)
      modifies this
      ensures callback == old(callback) + [observer]
    {
      callback := callback + [observer];
    }

    /**
     * `notify(value)`: every subscriber, in subscription order, is called once
     * with `value`. The list is left as it was, so `notify` can be repeated.
     */
    method Notify(value: Value) returns (calls: seq<Notified>)
      ensures |calls| == |callback|
      ensures forall k :: 0 <= k < |calls| ==> calls[k] == Notified(k, value)
    {
      calls := [];
      var k := 0;
      while k < |callback|
        invariant k <= |callback| && |calls| == k
        invariant forall j :: 0 <= j < k ==> calls[j] == Notified(j, value)
      {
        var _ := callback[k](value);
        calls := calls + [Notified(k, value)];
        k := k + 1;
      }
    }
  }
}
