# sMsgBus in Dafny

A model of `sMsgBus`, an in-process JavaScript message bus held in one shared
instance. It has two channels, keyed by a topic string:

- the **broadcast channel** (`on`, `emit`, `off`, `_clearOn`). A topic has an
  ordered list of `{ callback, thisArg }` subscriptions. `emit` invokes each
  one, in registration order, with the data. A handler that throws is logged
  and skipped.
- the **call channel** (`onCall`, `call`, `callSync`, `offCall`, `_clearCall`).
  A topic has at most one registration, and the first one wins. `callSync`
  returns the handler's value or throws its error again. `call` returns a
  promise that settles with the handler's outcome.

`check` reports how many subscriptions a topic has and whether it has a call
registration. Every operation that takes a topic starts with the topic
check (`typeof type === 'string' && type.trim() !== ''`). Operations that
take a callback check it next. `_clearOn` and `_clearCall` take neither.

Files:

- `js_value.dfy` (module `JsValue`): the JavaScript values the bus inspects,
  truthiness, strict equality, the errors the bus throws, and `Result`.
  Functions, objects and promises carry an identity, so `===` on them is
  identity, as in JavaScript.
- `topic.dfy` (module `Topic`): `String.prototype.trim` over the ECMAScript
  WhiteSpace and LineTerminator code points (sections 12.2 and 12.3 of
  ECMA-262), and the topic check.
- `registry.dfy` (module `Registry`): the two registries as maps. Also the
  pure updates the methods perform on them, and the lemmas about those
  updates.
- `msg_bus.dfy` (module `MsgBus`): the class `Bus` with fields `listeners`
  and `calls`, whose methods are proved against the `Registry` functions.
  The class `BusClass` holds the static `sMsgBus.instance` slot that makes
  the bus a singleton.
- `scenarios.dfy` (module `Scenarios`): client methods that replay the cases
  of `test/sMsgBus.test.js` using only the contracts above. Like the test's
  `beforeEach`, each case empties the one instance and then constructs it.

What a handler does is a parameter, `behave: (callback, thisArg, data) ->
Completion`. It says whether each invocation returns a value or throws.
`emit` returns the list of invocations it made, so its contract can state
which handlers ran, in which order, with which receiver and data.

Two kinds of state invariant are kept:

- `Bus.Valid`: every key passed the topic check; no broadcast list is ever
  empty; every stored callback is a function.
- the map-level partner lemmas: subscribe/unsubscribe and
  register/unregister are inverse pairs, filtering is idempotent, and the
  first registration wins.

## Model

| member | source | states |
|---|---|---|
| JsValue.IsTruthy | src/js/sMsgBus.js:171 | the truthiness test of `callback &&` and `!callback`: functions, objects and promises are always truthy |
| JsValue.IsFunction | src/js/sMsgBus.js:25 | `typeof callback === 'function'`; a value that passes it is truthy |
| Topic.LeadingTrimmable | src/js/sMsgBus.js:22 | the length of the prefix `trim` removes is at most the string's length |
| Topic.TrailingTrimmable | src/js/sMsgBus.js:22 | the length of the suffix `trim` removes is at most the string's length |
| Topic.LeadingTrimmableSpec | src/js/sMsgBus.js:22 | `trim` removes exactly the longest prefix of white space and line terminators |
| Topic.TrailingTrimmableSpec | src/js/sMsgBus.js:22 | `trim` removes exactly the longest suffix of white space and line terminators |
| Topic.Trim | src/js/sMsgBus.js:22 | `type.trim()` is no longer than `type` and neither starts nor ends with white space or a line terminator |
| Topic.IsValidTopic | src/js/sMsgBus.js:22-24 | the topic check: a topic that passes is a string and is never empty |
| Topic.TrimEmptyIffBlank | src/js/sMsgBus.js:22 | `s.trim() === ''` exactly when every character of `s` is white space or a line terminator |
| Topic.ValidTopicIff | src/js/sMsgBus.js:22-24 | the topic check accepts exactly the strings that hold a character other than white space and line terminators; non-strings are refused |
| Topic.ValidTopicFromFirst | src/js/sMsgBus.js:22 | a string whose first character is not white space passes the topic check |
| Registry.Without | src/js/sMsgBus.js:72-74 | the filtered list holds exactly the entries of the original list that differ from the (callback, thisArg) pair |
| Registry.WithoutCount | src/js/sMsgBus.js:72-74 | filtering removes every copy of the pair and keeps each other entry as many times as it occurs |
| Registry.WithoutAppend | src/js/sMsgBus.js:72-74 | filtering distributes over concatenation, so the surviving entries keep their order |
| Registry.WithoutOne | src/js/sMsgBus.js:72-74 | filtering a one-entry list keeps the entry exactly when it differs from the pair |
| Registry.WithoutUnchangedIff | src/js/sMsgBus.js:72-74 | filtering leaves a list unchanged exactly when the pair does not occur in it |
| Registry.WithoutIdempotent | src/js/sMsgBus.js:72-74 | filtering twice is filtering once |
| Registry.Subscribe | src/js/sMsgBus.js:29-32 | `on` appends the entry to the topic's list, creating the list if absent; every other topic keeps its list |
| Registry.Unsubscribe | src/js/sMsgBus.js:66-80 | `off` leaves the topic's list filtered and free of the pair; the topic is deleted exactly when nothing remains; other topics are untouched |
| Registry.SubscribeWellFormed | src/js/sMsgBus.js:22-32 | subscribing a valid topic with a function keeps every key valid, every list non-empty, and every callback a function |
| Registry.UnsubscribeWellFormed | src/js/sMsgBus.js:72-80 | unsubscribing never leaves an empty list behind, because an emptied topic is deleted |
| Registry.SubscribeThenUnsubscribe | src/js/sMsgBus.js:29-80 | subscribing a pair the topic lacks and then unsubscribing it restores the registry, including the topic's absence |
| Registry.UnsubscribeIdempotent | src/js/sMsgBus.js:66-80 | a second `off` with the same arguments changes nothing |
| Registry.UnsubscribeKeepsOthersInOrder | src/js/sMsgBus.js:72-74 | removing a pair keeps the other subscriptions of the topic, including duplicates, in their original order |
| Registry.Register | src/js/sMsgBus.js:101-106 | after `onCall` the topic is registered; an existing registration is kept and a new one is stored otherwise; other topics are untouched |
| Registry.Unregister | src/js/sMsgBus.js:175-186 | `offCall` removes the registration exactly when it exists and either the callback is falsy or both callback and receiver match; nothing else changes |
| Registry.RegisterWellFormed | src/js/sMsgBus.js:93-106 | registering a valid topic with a function keeps the call registry well formed |
| Registry.UnregisterWellFormed | src/js/sMsgBus.js:175-186 | unregistering keeps the call registry well formed |
| Registry.RegisterFirstWins | src/js/sMsgBus.js:100-104 | a second registration of a topic leaves the first in place |
| Registry.RegisterThenUnregister | src/js/sMsgBus.js:106 | registering a free topic and unregistering it with the same callback and receiver restores the registry |
| Registry.UnregisterMismatchKeeps | src/js/sMsgBus.js:184 | `offCall` with a truthy callback whose callback or receiver mismatch leaves the registry as it is |
| MsgBus.DefaultThis | src/js/sMsgBus.js:21 | the parameter default `thisArg = null`: the stored receiver is never `undefined`, and any other argument is kept as given |
| MsgBus.Adopt | src/js/sMsgBus.js:130-137 | a promise never fulfils with another promise; a value that is not a promise fulfils as itself |
| MsgBus.Bus.constructor | src/js/sMsgBus.js:15-18 | `_init` gives empty broadcast and call registries, which are well formed |
| MsgBus.Bus.Check | src/js/sMsgBus.js:197-207 | `check` throws exactly on an invalid topic; otherwise it reports the number of subscriptions (0 when absent) and whether a call registration exists |
| MsgBus.Bus.CheckZeroIffAbsent | src/js/sMsgBus.js:204 | in a well-formed bus `check` reports 0 subscriptions exactly when the topic has no entry |
| MsgBus.Bus.On | src/js/sMsgBus.js:21-34 | `on` throws first on the topic, then on a non-function callback, changing nothing; otherwise it appends the pair with the `null` default receiver, raises the count by one, returns the bus and keeps the bus well formed |
| MsgBus.Bus.Emit | src/js/sMsgBus.js:36-55 | `emit` throws only on an invalid topic; otherwise it returns the bus after invoking every subscription once, in order, with its receiver and the data, even after a handler throws; changes no state |
| MsgBus.Bus.Off | src/js/sMsgBus.js:58-83 | `off` validates topic then callback, changing nothing on error; otherwise it removes every copy of the pair and deletes an emptied topic |
| MsgBus.Bus.ClearOn | src/js/sMsgBus.js:86-89 | `_clearOn` empties the broadcast registry, keeps the call registry, and returns the bus |
| MsgBus.Bus.OnCall | src/js/sMsgBus.js:92-108 | `onCall` validates topic then callback; otherwise the topic is registered afterwards, a previous registration is not replaced, and the broadcast registry is untouched |
| MsgBus.Bus.Call | src/js/sMsgBus.js:110-144 | `call` throws only on an invalid topic. Unregistered topic: fulfilled with `undefined`. Handler throws: rejected with its error. Handler returns: fulfilled with its value, or a returned promise is adopted. Never fulfilled with a promise |
| MsgBus.Bus.CallSync | src/js/sMsgBus.js:146-164 | `callSync` throws on an invalid topic; gives `undefined` for an unregistered topic, otherwise the handler's value, or throws the handler's error again |
| MsgBus.Bus.OffCall | src/js/sMsgBus.js:166-189 | `offCall` validates the topic, then refuses a truthy non-function callback; otherwise it unregisters as `Unregister` says and keeps the broadcast registry |
| MsgBus.Bus.ClearCall | src/js/sMsgBus.js:191-194 | `_clearCall` empties the call registry, keeps the broadcast registry, and returns the bus |
| MsgBus.BusClass.constructor | src/js/sMsgBus.js:8 | before the first construction no instance is recorded |
| MsgBus.BusClass.New | src/js/sMsgBus.js:7-13 | the first `new sMsgBus()` creates and records a fresh instance with empty registries; every later one returns that same instance with its registrations untouched |

## Left out

- Asynchronous scheduling in `call` (`setTimeout(…, 0)` and the event loop)
  is not modelled. `MsgBus.Bus.Call` gives only the state its promise
  settles in, not the turn in which it settles.
- Promises that never settle, and thenables that are not native promises,
  are left out. A `Promise` value always settles, and only `Promise` values
  are adopted.
- Console diagnostics (`console.error` and `console.warn`) are not modelled.
  They have no effect on the bus.
- The effects of a handler on the bus (re-entrant `on`, `off` or `emit` from
  inside a handler) are not modelled. `behave` gives only each invocation's
  outcome. The list `emit` iterates is the one found at the start. Neither
  `off` nor `_clearOn` mutates that array in place, and `forEach` does not
  visit entries pushed after it starts. So the invocations listed are those
  the source makes even under re-entrancy.
- `this` binding is not modelled beyond recording the receiver each handler
  gets.
- JavaScript numbers are modelled as integers: no `NaN`, `-0` or fractions.
  In particular a `NaN` callback, which is falsy, cannot be passed to
  `offCall`.
- Strings are sequences of Unicode scalar values, not UTF-16 code units.
  `trim` has no code point outside the Basic Multilingual Plane to remove,
  so the topic check agrees.
- Test-local harnesses, example loader modules, the build scripts, and the
  Rollup and Jest configurations are outside this model.
- The comment at `src/js/sMsgBus.js:182` says the registration goes when
  no callback is given. The code at line 184 tests `!callback`, so any
  falsy callback (`undefined`, `null`, `false`, `0`, `''`) removes it.
  `MsgBus.Bus.OffCall` and `Registry.Unregister` follow the code.
- Calling `_init()` again on the live instance is not modelled; the
  constructor runs it once, and `ClearOn` and `ClearCall` empty the
  registries afterwards.
