/**
 * The message bus class: a broadcast registry and a call registry held in
 * one shared instance. Every method that takes a topic first applies the
 * topic check; methods that take a callback check it next. A method that throws leaves
 * both registries as they were. Methods that return the bus in the source
 * (for chaining) return `Ok(this)` here.
 */
module MsgBus {
  import opened JsValue
  import opened Topic
  import opened Registry

  /** What `check` reports for a topic. */
  datatype CheckInfo = CheckInfo(on: nat, call: bool)

  /** One handler invocation made by `emit`, and how it ended. */
  datatype Invocation = Invocation(callback: Value, thisArg: Value, data: Value, outcome: Completion)

  /** How the promise returned by `call` settles. */
  datatype Settlement = Fulfilled(value: Value) | Rejected(reason: Value)

  /** The parameter default `thisArg = null`, which applies when the
      argument is `undefined` (or omitted). */
  function DefaultThis(thisArg: Value): (r: Value)
    ensures r != Undefined
    ensures thisArg != Undefined ==> r == thisArg
  {
    if thisArg == Undefined then Null else thisArg
  }

  /** The state `resolve(v)` gives a promise: a promise passed in is
      followed until it yields a value that is not a promise, or a
      rejection. A promise never fulfils with another promise. */
  function Adopt(v: Value): (s: Settlement)
    ensures s.Fulfilled? ==> !s.value.Promise?
    ensures !v.Promise? ==> s == Fulfilled(v)
  {
    match v
    case Promise(_, Normal(x)) => Adopt(x)
    case Promise(_, Thrown(e)) => Rejected(e)
    case _ => Fulfilled(v)
  }

  class Bus {
    /** `_listeners`: topic to its subscriptions, in registration order. */
    var listeners: Listeners
    /** `_calls`: topic to its single call registration. */
    var calls: Calls

    ghost predicate Valid()
      reads this
    {
      WellFormedListeners(listeners) && WellFormedCalls(calls)
    }

    /** A fresh bus with both registries empty (`_init`). */
    constructor ()
      ensures Valid()
      ensures listeners == map[] && calls == map[]
    {
      listeners := map[];
      calls := map[];
    }

    /** `check(type)`: the number of subscriptions of the topic, and
        whether it has a call registration. Reads only. */
    function Check(topic: Value): (r: Result<CheckInfo>)
      reads this
      ensures r.Ok? <==> IsValidTopic(topic)
      ensures r.Ok? ==> r.value.on == |ListOf(listeners, topic.text)|
      ensures r.Ok? ==> (r.value.call <==> topic.text in calls)
    {
      if !IsValidTopic(topic) then Err(InvalidTopic)
      else Ok(CheckInfo(if topic.text in listeners then |listeners[topic.text]| else 0,
                        topic.text in calls))
    }

    /** In a well-formed bus a topic reports no subscriptions exactly when
        it has no entry in the broadcast registry. */
    lemma {:induction false} CheckZeroIffAbsent(topic: Value)
      requires Valid() && IsValidTopic(topic)
      ensures Check(topic).value.on == 0 <==> topic.text !in listeners
    {
    }

    // -------------------------------------------------------------------
    // Broadcast channel
    // -------------------------------------------------------------------

    /** `on(type, callback, thisArg = null)` */
    method On(topic: Value, callback: Value, thisArg: Value) returns (r: Result<Bus>)
      requires Valid()
      modifies this
      ensures Valid()
      ensures !IsValidTopic(topic) ==> r == Err(InvalidTopic)
      ensures IsValidTopic(topic) && !IsFunction(callback) ==> r == Err(InvalidCallback)
      ensures IsValidTopic(topic) && IsFunction(callback) ==> r == Ok(this)
      ensures r.Err? ==> listeners == old(listeners)
      ensures r.Ok? ==> listeners == Subscribe(old(listeners), topic.text, Entry(callback, DefaultThis(thisArg)))
      ensures r.Ok? ==> Check(topic).value.on == old(Check(topic).value.on) + 1
      ensures calls == old(calls)
    {
      if !IsValidTopic(topic) {
        return Err(InvalidTopic);
      }
      if !IsFunction(callback) {
        return Err(InvalidCallback);
      }
      SubscribeWellFormed(listeners, topic.text, Entry(callback, DefaultThis(thisArg)));
      listeners := Subscribe(listeners, topic.text, Entry(callback, DefaultThis(thisArg)));
      r := Ok(this);
    }

    /** `emit(type, data)`: every subscription of the topic is invoked once,
        in registration order, with `data`. A handler that throws is logged
        and skipped; `emit` itself completes normally. `behave` says how
        each handler call ends. Neither registry changes. */
    method Emit(topic: Value, data: Value, behave: Behaviour) returns (r: Result<Bus>, trace: seq<Invocation>)
      ensures !IsValidTopic(topic) ==> r == Err(InvalidTopic) && trace == []
      ensures IsValidTopic(topic) ==> r == Ok(this)
      ensures IsValidTopic(topic) ==> |trace| == Check(topic).value.on
      ensures IsValidTopic(topic) ==> forall i :: 0 <= i < |trace| ==>
        var e := ListOf(listeners, topic.text)[i];
        trace[i] == Invocation(e.callback, e.thisArg, data, behave(e.callback, e.thisArg, data))
    {
      if !IsValidTopic(topic) {
        return Err(InvalidTopic), [];
      }
      trace := [];
      if topic.text !in listeners || |listeners[topic.text]| == 0 {
        return Ok(this), trace;
      }
      var subscribers := listeners[topic.text];
      var i := 0;
      while i < |subscribers|
        invariant 0 <= i <= |subscribers|
        invariant |trace| == i
        invariant forall k :: 0 <= k < i ==>
          trace[k] == Invocation(subscribers[k].callback, subscribers[k].thisArg, data,
                                 behave(subscribers[k].callback, subscribers[k].thisArg, data))
      {
        var e := subscribers[i];
        // try { callback.call(thisArg, data) } catch { log and go on }
        var outcome := behave(e.callback, e.thisArg, data);
        trace := trace + [Invocation(e.callback, e.thisArg, data, outcome)];
        i := i + 1;
      }
      r := Ok(this);
    }

    /** `off(type, callback, thisArg = null)` */
    method Off(topic: Value, callback: Value, thisArg: Value) returns (r: Result<Bus>)
      requires Valid()
      modifies this
      ensures Valid()
      ensures !IsValidTopic(topic) ==> r == Err(InvalidTopic)
      ensures IsValidTopic(topic) && !IsFunction(callback) ==> r == Err(InvalidCallback)
      ensures IsValidTopic(topic) && IsFunction(callback) ==> r == Ok(this)
      ensures r.Err? ==> listeners == old(listeners)
      ensures r.Ok? ==> listeners == Unsubscribe(old(listeners), topic.text, Entry(callback, DefaultThis(thisArg)))
      ensures calls == old(calls)
    {
      if !IsValidTopic(topic) {
        return Err(InvalidTopic);
      }
      if !IsFunction(callback) {
        return Err(InvalidCallback);
      }
      var t := topic.text;
      if t !in listeners {
        return Ok(this);
      }
      var e := Entry(callback, DefaultThis(thisArg));
      ghost var spec := Unsubscribe(listeners, t, e);
      UnsubscribeWellFormed(listeners, t, e);
      var filtered := Without(listeners[t], e);
      if filtered == [] {
        listeners := listeners - {t};
      } else {
        listeners := listeners[t := filtered];
      }
      assert listeners == spec;
      r := Ok(this);
    }

    /** `_clearOn()`: drops every subscription. */
    method ClearOn() returns (r: Bus)
      requires Valid()
      modifies this
      ensures Valid()
      ensures r == this
      ensures listeners == map[] && calls == old(calls)
    {
      listeners := map[];
      r := this;
    }

    // -------------------------------------------------------------------
    // Call channel
    // -------------------------------------------------------------------

    /** `onCall(type, callback, thisArg = null)`: the first registration of
        a topic wins; a repeated one only warns. */
    method OnCall(topic: Value, callback: Value, thisArg: Value) returns (r: Result<Bus>)
      requires Valid()
      modifies this
      ensures Valid()
      ensures !IsValidTopic(topic) ==> r == Err(InvalidTopic)
      ensures IsValidTopic(topic) && !IsFunction(callback) ==> r == Err(InvalidCallback)
      ensures IsValidTopic(topic) && IsFunction(callback) ==> r == Ok(this)
      ensures r.Err? ==> calls == old(calls)
      ensures r.Ok? ==> calls == Register(old(calls), topic.text, Entry(callback, DefaultThis(thisArg)))
      ensures r.Ok? ==> Check(topic).value.call
      ensures r.Ok? && topic.text in old(calls) ==> calls == old(calls)
      ensures listeners == old(listeners)
    {
      if !IsValidTopic(topic) {
        return Err(InvalidTopic);
      }
      if !IsFunction(callback) {
        return Err(InvalidCallback);
      }
      if topic.text in calls {
        // console.warn: already registered, skipped
        return Ok(this);
      }
      RegisterWellFormed(calls, topic.text, Entry(callback, DefaultThis(thisArg)));
      calls := calls[topic.text := Entry(callback, DefaultThis(thisArg))];
      r := Ok(this);
    }

    /** `call(type, data)`, reduced to how its promise settles: an
        unregistered topic gives a promise fulfilled with `undefined`; a
        registered handler's throw rejects it; a returned value fulfils it,
        and a returned promise is adopted. Only the topic check throws
        synchronously. */
    method Call(topic: Value, data: Value, behave: Behaviour) returns (r: Result<Settlement>)
      ensures !IsValidTopic(topic) ==> r == Err(InvalidTopic)
      ensures IsValidTopic(topic) && topic.text !in calls ==> r == Ok(Fulfilled(Undefined))
      ensures IsValidTopic(topic) && topic.text in calls ==>
        var e := calls[topic.text];
        match behave(e.callback, e.thisArg, data)
        case Thrown(x) => r == Ok(Rejected(x))
        case Normal(v) => r == Ok(Adopt(v))
      ensures r.Ok? && r.value.Fulfilled? ==> !r.value.value.Promise?
    {
      if !IsValidTopic(topic) {
        return Err(InvalidTopic);
      }
      if topic.text !in calls {
        return Ok(Fulfilled(Undefined));
      }
      var e := calls[topic.text];
      var outcome := behave(e.callback, e.thisArg, data);
      match outcome
      case Thrown(x) =>
        // console.error, then reject(error)
        r := Ok(Rejected(x));
      case Normal(v) =>
        r := Ok(Adopt(v));
    }

    /** `callSync(type, data)`: the handler's own result, `undefined` for an
        unregistered topic, or the handler's error thrown again. */
    method CallSync(topic: Value, data: Value, behave: Behaviour) returns (r: Result<Value>)
      ensures !IsValidTopic(topic) ==> r == Err(InvalidTopic)
      ensures IsValidTopic(topic) && topic.text !in calls ==> r == Ok(Undefined)
      ensures IsValidTopic(topic) && topic.text in calls ==>
        var e := calls[topic.text];
        match behave(e.callback, e.thisArg, data)
        case Thrown(x) => r == Err(Rethrown(x))
        case Normal(v) => r == Ok(v)
    {
      if !IsValidTopic(topic) {
        return Err(InvalidTopic);
      }
      if topic.text !in calls {
        return Ok(Undefined);
      }
      var e := calls[topic.text];
      var outcome := behave(e.callback, e.thisArg, data);
      match outcome
      case Thrown(x) =>
        // console.error, then throw error
        r := Err(Rethrown(x));
      case Normal(v) =>
        r := Ok(v);
    }

    /** `offCall(type, callback, thisArg = null)`: a callback that is given
        (truthy) must be a function. Without one the registration goes
        unconditionally; with one, only when callback and receiver match. */
    method OffCall(topic: Value, callback: Value, thisArg: Value) returns (r: Result<Bus>)
      requires Valid()
      modifies this
      ensures Valid()
      ensures !IsValidTopic(topic) ==> r == Err(InvalidTopic)
      ensures IsValidTopic(topic) && IsTruthy(callback) && !IsFunction(callback) ==> r == Err(InvalidCallback)
      ensures IsValidTopic(topic) && (!IsTruthy(callback) || IsFunction(callback)) ==> r == Ok(this)
      ensures r.Err? ==> calls == old(calls)
      ensures r.Ok? ==> calls == Unregister(old(calls), topic.text, callback, DefaultThis(thisArg))
      ensures listeners == old(listeners)
    {
      if !IsValidTopic(topic) {
        return Err(InvalidTopic);
      }
      if IsTruthy(callback) && !IsFunction(callback) {
        return Err(InvalidCallback);
      }
      var t := topic.text;
      if t !in calls {
        return Ok(this);
      }
      var registered := calls[t];
      ghost var spec := Unregister(calls, t, callback, DefaultThis(thisArg));
      UnregisterWellFormed(calls, t, callback, DefaultThis(thisArg));
      if !IsTruthy(callback) || (registered.callback == callback && registered.thisArg == DefaultThis(thisArg)) {
        calls := calls - {t};
      }
      assert calls == spec;
      r := Ok(this);
    }

    /** `_clearCall()`: drops every call registration. */
    method ClearCall() returns (r: Bus)
      requires Valid()
      modifies this
      ensures Valid()
      ensures r == this
      ensures calls == map[] && listeners == old(listeners)
    {
      calls := map[];
      r := this;
    }
  }

  /** The class object itself, holding the static slot `sMsgBus.instance`. */
  class BusClass {
    var instance: Bus?

    ghost predicate Valid()
      reads this, instance
    {
      instance != null ==> instance.Valid()
    }

    /** The module is loaded: no instance exists yet. */
    constructor ()
      ensures Valid() && instance == null
    {
      instance := null;
    }

    /** `new sMsgBus()`: the first construction creates the instance with
        empty registries and records it; every later one returns that same
        instance, registrations untouched. */
    method New() returns (b: Bus)
      requires Valid()
      modifies this
      ensures Valid() && instance == b
      ensures old(instance) == null ==> fresh(b) && b.listeners == map[] && b.calls == map[]
      ensures old(instance) != null ==>
        b == old(instance) && b.listeners == old(instance.listeners) && b.calls == old(instance.calls)
    {
      if instance != null {
        return instance;
      }
      b := new Bus();
      instance := b;
    }
  }
}
