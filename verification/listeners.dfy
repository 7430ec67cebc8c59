/** The callback-listener bookkeeping of `TrackingSDKManager` in
    src/TrackingSDK.ts: the list of registered subscriptions and the
    `remove()` calls made on subscriptions. */
module Listeners {
  import opened Effects

  /** An emitter subscription, identified by reference. */
  type Subscription = nat

  /** `listeners`, and the `remove()` calls made so far, in order. */
  datatype Registry = Registry(listeners: seq<Subscription>, removed: seq<Subscription>)

  /** A fresh manager: no listeners and no `remove()` calls. */
  const Empty: Registry := Registry([], [])

  /** `array.indexOf(x)`: the first index holding `x`, or -1. */
  function IndexOf(xs: seq<Subscription>, x: Subscription): (i: int)
    ensures -1 <= i < |xs|
    ensures i == -1 <==> x !in xs
    ensures i >= 0 ==> xs[i] == x && x !in xs[..i]
    decreases |xs|
  {
    if |xs| == 0 then -1
    else if xs[0] == x then 0
    else
      var j := IndexOf(xs[1..], x);
      if j == -1 then -1
      else
        assert xs[..j + 1] == [xs[0]] + xs[1..][..j];
        j + 1
  }

  /** `addCallbackListener(callback)`, where `sub` is the new subscription
      the emitter hands back: it is appended to the list and returned. */
  function AddCallbackListener(reg: Registry, sub: Subscription): (out: (Registry, Subscription))
    ensures out.1 == sub
    ensures out.0.listeners == reg.listeners + [sub]
    ensures out.0.removed == reg.removed
  {
    (reg.(listeners := reg.listeners + [sub]), sub)
  }

  /** `xs` with the element at `i` deleted (`splice(i, 1)`). */
  function DeleteAt(xs: seq<Subscription>, i: nat): (r: seq<Subscription>)
    requires i < |xs|
    ensures |r| == |xs| - 1
    ensures forall j :: 0 <= j < i ==> r[j] == xs[j]
    ensures forall j :: i <= j < |r| ==> r[j] == xs[j + 1]
    ensures multiset(r) == multiset(xs) - multiset{xs[i]}
  {
    assert xs == xs[..i] + [xs[i]] + xs[i + 1..];
    xs[..i] + xs[i + 1..]
  }

  /** `removeCallbackListener(sub)`: `remove()` is called on `sub` whether or
      not it is registered; then its first occurrence, if any, is deleted
      and the rest keep their order. */
  function RemoveCallbackListener(reg: Registry, sub: Subscription): (reg': Registry)
    ensures reg'.removed == reg.removed + [sub]
    ensures sub !in reg.listeners ==> reg'.listeners == reg.listeners
    ensures sub in reg.listeners ==>
      exists i :: 0 <= i < |reg.listeners| && reg.listeners[i] == sub && sub !in reg.listeners[..i]
        && reg'.listeners == reg.listeners[..i] + reg.listeners[i + 1..]
    ensures multiset(reg'.listeners) == multiset(reg.listeners) - multiset{sub}
  {
    var called := reg.(removed := ForEach(reg.removed, [sub]));
    var index := IndexOf(reg.listeners, sub);
    if index > -1 then
      called.(listeners := DeleteAt(reg.listeners, index))
    else
      assert multiset(reg.listeners)[sub] == 0;
      called
  }

  /** `removeAllListeners()`: `remove()` is called on every registered
      subscription in list order, then the list is emptied. */
  function RemoveAllListeners(reg: Registry): (reg': Registry)
    ensures reg'.listeners == []
    ensures reg'.removed == reg.removed + reg.listeners
  {
    Registry([], ForEach(reg.removed, reg.listeners))
  }

  /** Registering a fresh subscription and then removing it restores the
      list; the only trace left is the one `remove()` call. */
  lemma AddThenRemoveRestores(reg: Registry, sub: Subscription)
    requires sub !in reg.listeners
    ensures var added := AddCallbackListener(reg, sub).0;
      && RemoveCallbackListener(added, sub).listeners == reg.listeners
      && RemoveCallbackListener(added, sub).removed == reg.removed + [sub]
  {
    var added := AddCallbackListener(reg, sub).0;
    var L := reg.listeners;
    assert added.listeners[|L|] == sub;
    assert added.listeners[..|L|] == L;
    assert (L + [sub])[..|L|] == L;
  }

  /** Freshness matters: with the subscription already registered earlier,
      removal deletes that earlier occurrence and the list comes back
      reordered. `addCallbackListener` never registers the same
      subscription twice, since the event emitter returns a fresh one on
      every call; the case cannot arise through the manager's own calls,
      and the lemma only shows what `indexOf` with `splice` would do. */
  lemma AddThenRemoveReorders()
    ensures var added := AddCallbackListener(Registry([1, 2], []), 1).0;
      RemoveCallbackListener(added, 1).listeners == [2, 1]
  {
    var added := AddCallbackListener(Registry([1, 2], []), 1).0;
    assert added.listeners == [1, 2, 1];
    assert IndexOf(added.listeners, 1) == 0;
  }

  /** Removing every listener after any number of additions calls
      `remove()` on each of them once, in the order they were added. */
  lemma {:induction false} AddAllThenRemoveAll(reg: Registry, subs: seq<Subscription>)
    ensures RemoveAllListeners(AddEach(reg, subs)).removed == reg.removed + reg.listeners + subs
    decreases |subs|
  {
    if |subs| > 0 {
      var next := AddCallbackListener(reg, subs[0]).0;
      AddAllThenRemoveAll(next, subs[1..]);
      assert [subs[0]] + subs[1..] == subs;
    }
  }

  /** `addCallbackListener` once per subscription, in order. */
  function AddEach(reg: Registry, subs: seq<Subscription>): Registry
    decreases |subs|
  {
    if |subs| == 0 then reg
    else AddEach(AddCallbackListener(reg, subs[0]).0, subs[1..])
  }
}
