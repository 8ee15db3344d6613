/**
 * Client code that replays the cases of test/sMsgBus.test.js against the
 * contracts of the bus. Each method relies only on the specifications of
 * the members it calls; the assertions are what the test expects. Every
 * case gets its bus as the test's `beforeEach` does, through the singleton.
 */
module Scenarios {
  import opened JsValue
  import opened Topic
  import opened Registry
  import opened MsgBus

  /** The test's `beforeEach`: empty both registries of the instance, if
      there is one, then construct, which yields that same instance. */
  method BeforeEach(cls: BusClass) returns (bus: Bus)
    requires cls.Valid()
    modifies cls, cls.instance
    ensures cls.Valid() && cls.instance == bus && bus.Valid()
    ensures old(cls.instance) == null ==> fresh(bus)
    ensures old(cls.instance) != null ==> bus == old(cls.instance)
    ensures bus.listeners == map[] && bus.calls == map[]
  {
    if cls.instance != null {
      var b := cls.instance.ClearOn();
      b := cls.instance.ClearCall();
    }
    bus := cls.New();
  }

  /** Two constructions give one instance, and the second keeps what the
      first registered. */
  method SameInstance() {
    var cls := new BusClass();
    var first := cls.New();
    var r := first.On(Str("test.event"), Fn(1), Undefined);
    var second := cls.New();
    assert first == second;
    assert second.Check(Str("test.event")) == Ok(CheckInfo(1, false));
  }

  /** An empty topic is refused and registers nothing. */
  method RejectsEmptyTopic() {
    var cls := new BusClass();
    var bus := BeforeEach(cls);
    var r := bus.On(Str(""), Fn(1), Undefined);
    assert r == Err(InvalidTopic);
    assert bus.listeners == map[];
  }

  /** A topic made only of white space and line terminators is refused. */
  method RejectsBlankTopic() {
    var cls := new BusClass();
    var bus := BeforeEach(cls);
    var blank := Str(" \t\n");
    assert LeadingTrimmable(blank.text) == 3;
    var r := bus.OnCall(blank, Fn(1), Undefined);
    assert r == Err(InvalidTopic);
    assert bus.calls == map[];
  }

  /** A topic that is not a string is refused. */
  method RejectsNonStringTopic() {
    var cls := new BusClass();
    var bus := BeforeEach(cls);
    var r := bus.OnCall(Num(3), Fn(1), Undefined);
    assert r == Err(InvalidTopic);
    var c := bus.Check(Null);
    assert c == Err(InvalidTopic);
  }

  /** A callback that is not a function is refused; `offCall` accepts a
      missing callback but not a truthy non-function. */
  method RejectsNonFunctionCallbacks() {
    var cls := new BusClass();
    var bus := BeforeEach(cls);
    var topic := Str("test");
    ValidTopicFromFirst(topic.text);
    var r := bus.On(topic, Null, Undefined);
    assert r == Err(InvalidCallback);
    r := bus.OffCall(topic, Str("cb"), Undefined);
    assert r == Err(InvalidCallback);
    r := bus.OffCall(topic, Undefined, Undefined);
    assert r == Ok(bus);
  }

  /** A bus on which two pairs subscribed to "ev", in this order; `check`
      counts 0, then 1 on the way. */
  method TwoListeners() returns (bus: Bus)
    ensures fresh(bus) && bus.Valid() && bus.calls == map[]
    ensures ListOf(bus.listeners, "ev") == [Entry(Fn(1), Null), Entry(Fn(2), Obj(5))]
  {
    var cls := new BusClass();
    bus := BeforeEach(cls);
    var ev := Str("ev");
    ValidTopicFromFirst(ev.text);
    assert bus.Check(ev) == Ok(CheckInfo(0, false));
    var r := bus.On(ev, Fn(1), Undefined);
    assert ListOf(bus.listeners, "ev") == [Entry(Fn(1), Null)];
    assert bus.Check(ev) == Ok(CheckInfo(1, false));
    r := bus.On(ev, Fn(2), Obj(5));
    assert r.Ok?;
    assert ListOf(bus.listeners, "ev") == [Entry(Fn(1), Null)] + [Entry(Fn(2), Obj(5))];
  }

  /** `check` counts subscriptions as they are added and removed. */
  method CheckCountsSubscriptions() {
    var ev := Str("ev");
    ValidTopicFromFirst(ev.text);
    var bus := TwoListeners();
    assert bus.Check(ev) == Ok(CheckInfo(2, false));
    var e1, e2 := Entry(Fn(1), Null), Entry(Fn(2), Obj(5));
    assert Without([e1, e2], e1) == [e2] by {
      assert [e1, e2][1..] == [e2];
      WithoutOne(e2, e1);
    }
    var r := bus.Off(ev, Fn(1), Undefined);
    assert r.Ok?;
    assert bus.Check(ev) == Ok(CheckInfo(1, false));
  }

  /** Receivers are matched by identity: `off` with a different promise
      that settles the same way leaves the subscription in place. */
  method OffMatchesReceiverByIdentity() {
    var cls := new BusClass();
    var bus := BeforeEach(cls);
    var t := Str("t");
    ValidTopicFromFirst(t.text);
    var p1, p2 := Promise(1, Normal(Num(1))), Promise(2, Normal(Num(1)));
    var r := bus.On(t, Fn(1), p1);
    assert ListOf(bus.listeners, "t") == [Entry(Fn(1), p1)];
    WithoutOne(Entry(Fn(1), p1), Entry(Fn(1), p2));
    r := bus.Off(t, Fn(1), p2);
    assert r.Ok?;
    assert bus.Check(t) == Ok(CheckInfo(1, false));
  }

  /** `check` reports a call registration until `offCall` removes it. */
  method CheckSeesCallRegistration() {
    var cls := new BusClass();
    var bus := BeforeEach(cls);
    var cl := Str("test.call");
    ValidTopicFromFirst(cl.text);
    var r := bus.OnCall(cl, Fn(3), Undefined);
    assert bus.Check(cl) == Ok(CheckInfo(0, true));
    r := bus.OffCall(cl, Fn(3), Undefined);
    assert bus.Check(cl) == Ok(CheckInfo(0, false));
  }

  /** For handlers where the first throws and the second returns: both
      run once, in order, with the data, and `emit` completes normally. */
  method EmitRunsEveryListener(behave: Behaviour)
    requires behave(Fn(1), Null, Obj(7)) == Thrown(Str("Test error"))
    requires behave(Fn(2), Obj(5), Obj(7)) == Normal(Undefined)
  {
    var bus := TwoListeners();
    var ev := Str("ev");
    ValidTopicFromFirst(ev.text);
    var done, trace := bus.Emit(ev, Obj(7), behave);
    assert done == Ok(bus);
    assert |trace| == 2;
    assert trace == [Invocation(Fn(1), Null, Obj(7), Thrown(Str("Test error"))),
                     Invocation(Fn(2), Obj(5), Obj(7), Normal(Undefined))];
  }

  /** Emitting a topic nobody listens to does nothing and does not throw. */
  method EmitWithoutListeners(behave: Behaviour) {
    var cls := new BusClass();
    var bus := BeforeEach(cls);
    var absent := Str("nonexistent.event");
    ValidTopicFromFirst(absent.text);
    var done, trace := bus.Emit(absent, Obj(7), behave);
    assert done == Ok(bus) && trace == [];
  }

  /** A pair subscribed twice fires twice, and one `off` removes both
      copies and the topic with them. */
  method DuplicatesFireAndGoTogether(behave: Behaviour) {
    var cls := new BusClass();
    var bus := BeforeEach(cls);
    var ev := Str("dup");
    ValidTopicFromFirst(ev.text);
    var e := Entry(Fn(1), Null);
    var r := bus.On(ev, Fn(1), Undefined);
    assert ListOf(bus.listeners, "dup") == [e];
    r := bus.On(ev, Fn(1), Undefined);
    assert r.Ok?;
    assert ListOf(bus.listeners, "dup") == [e] + [e];
    var done, trace := bus.Emit(ev, Null, behave);
    assert |trace| == 2;
    assert Without([e, e], e) == [] by {
      assert [e, e][1..] == [e];
      WithoutOne(e, e);
    }
    r := bus.Off(ev, Fn(1), Null);
    assert "dup" !in bus.listeners;
  }

  /** The first call registration wins; `callSync` gives the handler's
      value and `call` settles with it. */
  method FirstRegistrationAnswers() {
    var cls := new BusClass();
    var bus := BeforeEach(cls);
    var cl := Str("test.call");
    ValidTopicFromFirst(cl.text);
    var r := bus.OnCall(cl, Fn(1), Undefined);
    r := bus.OnCall(cl, Fn(2), Undefined);
    assert r == Ok(bus) && bus.calls["test.call"] == Entry(Fn(1), Null);
    var behave: Behaviour := (callback, self, data) =>
      if callback == Fn(1) then Normal(Num(42)) else Thrown(Str("boom"));
    var v := bus.CallSync(cl, Null, behave);
    assert v == Ok(Num(42));
    var p := bus.Call(cl, Null, behave);
    assert p == Ok(Fulfilled(Num(42)));
  }

  /** An unregistered topic answers `undefined`, synchronously or not. */
  method UnregisteredCall(behave: Behaviour) {
    var cls := new BusClass();
    var bus := BeforeEach(cls);
    var absent := Str("nonexistent.call");
    ValidTopicFromFirst(absent.text);
    var v := bus.CallSync(absent, Null, behave);
    assert v == Ok(Undefined);
    var p := bus.Call(absent, Null, behave);
    assert p == Ok(Fulfilled(Undefined));
  }

  /** A throwing handler's error reaches `callSync`'s caller and rejects
      `call`'s promise; a handler returning a rejected promise rejects it
      too. */
  method ThrowingHandler() {
    var cls := new BusClass();
    var bus := BeforeEach(cls);
    var cl := Str("test.call");
    ValidTopicFromFirst(cl.text);
    var r := bus.OnCall(cl, Fn(2), Undefined);
    var behave: Behaviour := (callback, self, data) => Thrown(Str("boom"));
    var v := bus.CallSync(cl, Null, behave);
    assert v == Err(Rethrown(Str("boom")));
    var p := bus.Call(cl, Null, behave);
    assert p == Ok(Rejected(Str("boom")));
    var async: Behaviour := (callback, self, data) => Normal(Promise(1, Thrown(Str("Async error"))));
    p := bus.Call(cl, Null, async);
    assert p == Ok(Rejected(Str("Async error")));
  }
}
