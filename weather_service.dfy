/**
 * The mobile client's weather service: three lists of callbacks, one per
 * Socket.IO event the backend pushes (location, date, time of day), the
 * unsubscribe functions handed back to subscribers, and the temperature and
 * humidity fetch. Callbacks are opaque and are identified by a number; an
 * invocation is recorded with the payload it received.
 */
module WeatherService {
  import opened Results
  import opened ErrorHandlerProvider

  /** The three events the constructor listens to. */
  datatype Topic = Location | Date | TimeOfDate

  function EventName(t: Topic): (r: string)
    ensures t == Location <==> r == "location_changed"
    ensures t == Date <==> r == "date_changed"
    ensures t == TimeOfDate <==> r == "time_of_date_changed"
  {
    match t
    case Location => "location_changed"
    case Date => "date_changed"
    case TimeOfDate => "time_of_date_changed"
  }

  /** One call of a subscribed callback with the event's payload. */
  datatype Call = Call(callback: nat, payload: string)

  /** The function `on*Change` returns: it removes `callback` from the
      list of `topic`. */
  datatype Unsubscriber = Unsubscriber(topic: Topic, callback: nat)

  /** `list.filter(cb => cb !== callback)`. */
  function Without(xs: seq<nat>, callback: nat): (r: seq<nat>)
    ensures callback !in r
    ensures forall x :: x in xs && x != callback ==> x in r
    ensures forall x :: x in r ==> x in xs
    ensures |r| <= |xs|
  {
    if xs == [] then []
    else (if xs[0] == callback then [] else [xs[0]]) + Without(xs[1..], callback)
  }

  /** Filtering splits over concatenation, so the callbacks that remain
      keep their relative order. */
  lemma {:induction false} WithoutAppend(xs: seq<nat>, ys: seq<nat>, callback: nat)
    ensures Without(xs + ys, callback) == Without(xs, callback) + Without(ys, callback)
  {
    if xs == [] {
      assert xs + ys == ys;
    } else {
      assert (xs + ys)[0] == xs[0] && (xs + ys)[1..] == xs[1..] + ys;
      WithoutAppend(xs[1..], ys, callback);
    }
  }

  /** Every occurrence of the callback goes, and each other callback stays
      as many times as it was subscribed. */
  lemma {:induction false} WithoutCounts(xs: seq<nat>, callback: nat)
    ensures multiset(Without(xs, callback)) == multiset(xs)[callback := 0]
  {
    if xs != [] {
      WithoutCounts(xs[1..], callback);
      assert xs == [xs[0]] + xs[1..];
    }
  }

  /** Unsubscribing a callback that is not subscribed changes nothing. */
  lemma {:induction false} WithoutAbsent(xs: seq<nat>, callback: nat)
    requires callback !in xs
    ensures Without(xs, callback) == xs
  {
    if xs != [] {
      WithoutAbsent(xs[1..], callback);
    }
  }

  /** Subscribing and then unsubscribing restores a list the callback was
      not on; a callback subscribed twice is removed by either
      unsubscribe, both times. */
  lemma SubscribeThenUnsubscribe(xs: seq<nat>, callback: nat)
    ensures Without(xs + [callback], callback) == Without(xs, callback)
    ensures callback !in xs ==> Without(xs + [callback], callback) == xs
    ensures Without(xs + [callback] + [callback], callback) == Without(xs, callback)
  {
    WithoutAppend(xs, [callback], callback);
    WithoutAppend(xs + [callback], [callback], callback);
    assert Without([callback], callback) == [];
    if callback !in xs {
      WithoutAbsent(xs, callback);
    }
  }

  /** `forEach(callback => callback(payload))`: the calls, one per
      subscription, in registration order. */
  function Deliveries(callbacks: seq<nat>, payload: string): (r: seq<Call>)
    ensures |r| == |callbacks|
    ensures forall i :: 0 <= i < |r| ==> r[i] == Call(callbacks[i], payload)
  {
    if callbacks == [] then []
    else [Call(callbacks[0], payload)] + Deliveries(callbacks[1..], payload)
  }

  /** The body of `/temp-humid`'s response. */
  datatype ApiResponse<D> = ApiResponse(success: bool, data: D)

  const FetchFailed: string := "Failed to fetch data"

  /** `getTempHumid`: the data when `success` is truthy; a failed request is
      rethrown as it is. */
  function GetTempHumid<D>(response: Outcome<ApiResponse<D>>): (r: Outcome<D>)
    ensures response.Threw? ==> r == Threw(response.error)
    ensures response.Returned? && !response.value.success ==> r == Threw(PlainError(FetchFailed))
    ensures response.Returned? && response.value.success ==> r == Returned(response.value.data)
  {
    match response
    case Threw(e) => Threw(e)
    case Returned(body) => if !body.success then Threw(PlainError(FetchFailed)) else Returned(body.data)
  }

  class Weather {
    var locationCallbacks: seq<nat>
    var dateCallbacks: seq<nat>
    var timeOfDateCallbacks: seq<nat>
    /** Every callback invocation so far, in order. */
    var calls: seq<Call>

    function Callbacks(t: Topic): seq<nat>
      reads this
    {
      match t
      case Location => locationCallbacks
      case Date => dateCallbacks
      case TimeOfDate => timeOfDateCallbacks
    }

    constructor ()
      ensures forall t :: Callbacks(t) == []
      ensures calls == []
    {
      locationCallbacks := [];
      dateCallbacks := [];
      timeOfDateCallbacks := [];
      calls := [];
    }

    /** `onLocationChange`, `onDateChange`, `onTimeOfDateChange`: the
        callback goes to the end of its own list only. */
    method Subscribe(t: Topic, callback: nat) returns (u: Unsubscriber)
      modifies this
      ensures Callbacks(t) == old(Callbacks(t)) + [callback]
      ensures forall o :: o != t ==> Callbacks(o) == old(Callbacks(o))
      ensures calls == old(calls)
      ensures u == Unsubscriber(t, callback)
    {
      match t {
        case Location => locationCallbacks := locationCallbacks + [callback];
        case Date => dateCallbacks := dateCallbacks + [callback];
        case TimeOfDate => timeOfDateCallbacks := timeOfDateCallbacks + [callback];
      }
      u := Unsubscriber(t, callback);
    }

    /** Calling a returned unsubscribe function. */
    method Unsubscribe(u: Unsubscriber)
      modifies this
      ensures Callbacks(u.topic) == Without(old(Callbacks(u.topic)), u.callback)
      ensures forall o :: o != u.topic ==> Callbacks(o) == old(Callbacks(o))
      ensures calls == old(calls)
    {
      match u.topic {
        case Location => locationCallbacks := Without(locationCallbacks, u.callback);
        case Date => dateCallbacks := Without(dateCallbacks, u.callback);
        case TimeOfDate => timeOfDateCallbacks := Without(timeOfDateCallbacks, u.callback);
      }
    }

    /** The Socket.IO handler of the topic's event. */
    method Receive(t: Topic, payload: string)
      modifies this
      ensures calls == old(calls) + Deliveries(old(Callbacks(t)), payload)
      ensures forall o :: Callbacks(o) == old(Callbacks(o))
    {
      var listeners := Callbacks(t);
      for i := 0 to |listeners|
        invariant |calls| == |old(calls)| + i
        invariant calls[..|old(calls)|] == old(calls)
        invariant forall k :: 0 <= k < i ==> calls[|old(calls)| + k] == Call(listeners[k], payload)
        invariant forall o :: Callbacks(o) == old(Callbacks(o))
      {
        calls := calls + [Call(listeners[i], payload)];
      }
      assert calls == old(calls) + Deliveries(listeners, payload);
    }

    /** `disconnectSocket`: the listener it removes was never registered,
        so only the date callbacks are dropped. */
    method DisconnectSocket()
      modifies this
      ensures Callbacks(Date) == []
      ensures Callbacks(Location) == old(Callbacks(Location))
      ensures Callbacks(TimeOfDate) == old(Callbacks(TimeOfDate))
      ensures calls == old(calls)
    {
      dateCallbacks := [];
    }
  }
}
