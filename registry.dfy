/**
 * The two registries of the bus as values, and the updates its methods
 * perform on them. The broadcast registry maps a topic to the ordered list
 * of its subscriptions; the call registry maps a topic to at most one
 * registration. The class in module MsgBus is proved against these.
 */
module Registry {
  import opened JsValue
  import opened Topic

  /** One `{ callback, thisArg }` record. Two records denote the same
      subscription when both fields are strictly equal. */
  datatype Entry = Entry(callback: Value, thisArg: Value)

  type Listeners = map<string, seq<Entry>>
  type Calls = map<string, Entry>

  /** The subscriptions of topic `t`; an absent topic has none. */
  function ListOf(L: Listeners, t: string): seq<Entry> {
    if t in L then L[t] else []
  }

  /** What the bus keeps true of its broadcast registry: every key passed
      the topic check, no list is left empty, every callback is a function. */
  ghost predicate WellFormedListeners(L: Listeners) {
    forall t :: t in L ==>
      IsValidTopic(Str(t)) && L[t] != [] && forall e :: e in L[t] ==> IsFunction(e.callback)
  }

  /** What the bus keeps true of its call registry. */
  ghost predicate WellFormedCalls(C: Calls) {
    forall t :: t in C ==> IsValidTopic(Str(t)) && IsFunction(C[t].callback)
  }

  // ---------------------------------------------------------------------
  // Broadcast registry
  // ---------------------------------------------------------------------

  /** `listeners.filter(x => !(x.callback === e.callback && x.thisArg === e.thisArg))` */
  function Without(s: seq<Entry>, e: Entry): (r: seq<Entry>)
    ensures forall x :: x in r <==> x in s && x != e
  {
    if s == [] then [] else (if s[0] == e then [] else [s[0]]) + Without(s[1..], e)
  }

  /** Filtering removes every copy of the pair and keeps every other entry
      as often as it occurs. */
  lemma {:induction false} WithoutCount(s: seq<Entry>, e: Entry)
    ensures multiset(Without(s, e)) == multiset(s)[e := 0]
    ensures |Without(s, e)| == |s| - multiset(s)[e]
  {
    if s != [] {
      WithoutCount(s[1..], e);
      assert s == [s[0]] + s[1..];
    }
  }

  /** Filtering distributes over concatenation, so the entries that
      remain keep their relative order. */
  lemma {:induction false} WithoutAppend(a: seq<Entry>, b: seq<Entry>, e: Entry)
    ensures Without(a + b, e) == Without(a, e) + Without(b, e)
  {
    if a == [] {
      assert a + b == b;
    } else {
      assert (a + b)[1..] == a[1..] + b;
      WithoutAppend(a[1..], b, e);
    }
  }

  /** Filtering a one-entry list. */
  lemma WithoutOne(x: Entry, e: Entry)
    ensures Without([x], e) == if x == e then [] else [x]
  {
  }

  /** Filtering changes a list exactly when the list holds the pair. */
  lemma {:induction false} WithoutUnchangedIff(s: seq<Entry>, e: Entry)
    ensures Without(s, e) == s <==> e !in s
  {
    if s != [] && e !in s {
      WithoutUnchangedIff(s[1..], e);
    }
  }

  /** Filtering twice is filtering once. */
  lemma {:induction false} WithoutIdempotent(s: seq<Entry>, e: Entry)
    ensures Without(Without(s, e), e) == Without(s, e)
  {
    WithoutUnchangedIff(Without(s, e), e);
  }

  /** `on`: the entry goes to the end of the topic's list, which is created
      when absent; every other topic keeps its list. */
  function Subscribe(L: Listeners, t: string, e: Entry): (r: Listeners)
    ensures ListOf(r, t) == ListOf(L, t) + [e]
    ensures forall k :: k != t ==> ListOf(r, k) == ListOf(L, k)
    ensures r.Keys == L.Keys + {t}
  {
    L[t := ListOf(L, t) + [e]]
  }

  /** `off`: every entry equal to the pair is removed; a topic left without
      entries is deleted; every other topic keeps its list. */
  function Unsubscribe(L: Listeners, t: string, e: Entry): (r: Listeners)
    ensures ListOf(r, t) == Without(ListOf(L, t), e)
    ensures e !in ListOf(r, t)
    ensures forall k :: k != t ==> ListOf(r, k) == ListOf(L, k)
    ensures r.Keys == if Without(ListOf(L, t), e) == [] then L.Keys - {t} else L.Keys
  {
    if t !in L then L
    else
      var kept := Without(L[t], e);
      if kept == [] then L - {t} else L[t := kept]
  }

  /** `on` keeps the broadcast registry well formed when the topic passed
      the topic check and the callback is a function. */
  lemma {:induction false} SubscribeWellFormed(L: Listeners, t: string, e: Entry)
    requires WellFormedListeners(L) && IsValidTopic(Str(t)) && IsFunction(e.callback)
    ensures WellFormedListeners(Subscribe(L, t, e))
  {
    // Stating the per-key facts keeps this proof cheap.
    var r := Subscribe(L, t, e);
    forall k | k in r
      ensures IsValidTopic(Str(k)) && r[k] != [] && forall x: Entry :: x in r[k] ==> IsFunction(x.callback)
    {
      if k != t {
        assert r[k] == L[k];
      }
    }
  }

  /** `off` keeps the broadcast registry well formed: in particular it
      never leaves a topic with an empty list. */
  lemma {:induction false} UnsubscribeWellFormed(L: Listeners, t: string, e: Entry)
    requires WellFormedListeners(L)
    ensures WellFormedListeners(Unsubscribe(L, t, e))
  {
  }

  /** Subscribing a pair that the topic does not hold and unsubscribing it
      again gives back the registry, including the absence of the topic. */
  lemma {:induction false} SubscribeThenUnsubscribe(L: Listeners, t: string, e: Entry)
    requires t in L ==> L[t] != []
    requires e !in ListOf(L, t)
    ensures Unsubscribe(Subscribe(L, t, e), t, e) == L
  {
    var s := ListOf(L, t);
    assert Without(s + [e], e) == s by {
      WithoutAppend(s, [e], e);
      WithoutOne(e, e);
      WithoutUnchangedIff(s, e);
    }
    var m := Subscribe(L, t, e);
    assert m == L[t := s + [e]];
    if s == [] {
      assert Unsubscribe(m, t, e) == m - {t};
      assert m - {t} == L;
    } else {
      assert Unsubscribe(m, t, e) == m[t := s];
      assert m[t := s] == L;
    }
  }

  /** A second `off` with the same arguments changes nothing. */
  lemma {:induction false} UnsubscribeIdempotent(L: Listeners, t: string, e: Entry)
    ensures Unsubscribe(Unsubscribe(L, t, e), t, e) == Unsubscribe(L, t, e)
  {
    var once := Unsubscribe(L, t, e);
    WithoutIdempotent(ListOf(L, t), e);
    var twice := Unsubscribe(once, t, e);
    assert twice.Keys == once.Keys;
    forall k | k in once ensures twice[k] == once[k] {
      assert ListOf(twice, k) == ListOf(once, k);
    }
  }

  /** Unsubscribing a pair leaves the other subscriptions of the topic,
      duplicates included, in their original order. */
  lemma {:induction false} UnsubscribeKeepsOthersInOrder(L: Listeners, t: string, e: Entry, before: seq<Entry>, after: seq<Entry>)
    requires ListOf(L, t) == before + [e] + after
    ensures ListOf(Unsubscribe(L, t, e), t) == Without(before, e) + Without(after, e)
  {
    assert Without(before + [e], e) == Without(before, e) by {
      WithoutAppend(before, [e], e);
      WithoutOne(e, e);
    }
    WithoutAppend(before + [e], after, e);
  }

  // ---------------------------------------------------------------------
  // Call registry
  // ---------------------------------------------------------------------

  /** `onCall`: the first registration of a topic wins; a later one leaves
      the registry as it is. */
  function Register(C: Calls, t: string, e: Entry): (r: Calls)
    ensures t in r && r[t] == (if t in C then C[t] else e)
    ensures r.Keys == C.Keys + {t}
    ensures forall k :: k in C && k != t ==> r[k] == C[k]
  {
    if t in C then C else C[t := e]
  }

  /** `offCall`: without a (truthy) callback the registration goes
      unconditionally; with one, only when callback and receiver both match. */
  function Unregister(C: Calls, t: string, callback: Value, thisArg: Value): (r: Calls)
    ensures t !in r <==> t !in C || !IsTruthy(callback) || C[t] == Entry(callback, thisArg)
    ensures r.Keys <= C.Keys && r.Keys >= C.Keys - {t}
    ensures forall k :: k in r ==> r[k] == C[k]
  {
    if t in C && (!IsTruthy(callback) || C[t] == Entry(callback, thisArg)) then C - {t} else C
  }

  /** `onCall` keeps the call registry well formed when the topic passed
      the topic check and the callback is a function. */
  lemma {:induction false} RegisterWellFormed(C: Calls, t: string, e: Entry)
    requires WellFormedCalls(C) && IsValidTopic(Str(t)) && IsFunction(e.callback)
    ensures WellFormedCalls(Register(C, t, e))
  {
  }

  /** `offCall` keeps the call registry well formed. */
  lemma {:induction false} UnregisterWellFormed(C: Calls, t: string, callback: Value, thisArg: Value)
    requires WellFormedCalls(C)
    ensures WellFormedCalls(Unregister(C, t, callback, thisArg))
  {
  }

  /** A second registration for a topic does not replace the first. */
  lemma {:induction false} RegisterFirstWins(C: Calls, t: string, first: Entry, second: Entry)
    ensures Register(Register(C, t, first), t, second) == Register(C, t, first)
  {
  }

  /** Registering a free topic and unregistering it with the same callback
      and receiver gives back the registry. */
  lemma {:induction false} RegisterThenUnregister(C: Calls, t: string, e: Entry)
    requires t !in C
    ensures Unregister(Register(C, t, e), t, e.callback, e.thisArg) == C
  {
  }

  /** A mismatching `offCall` leaves the registration in place. */
  lemma {:induction false} UnregisterMismatchKeeps(C: Calls, t: string, callback: Value, thisArg: Value)
    requires t in C && IsTruthy(callback) && C[t] != Entry(callback, thisArg)
    ensures Unregister(C, t, callback, thisArg) == C
  {
  }
}
