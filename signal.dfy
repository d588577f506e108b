/** A single-value observable (src/data/Signal.ts). Listener callbacks are
    represented by ids; calling a listener appends its id to `calls`, which
    records every notification in the order it was delivered. */
module Signal {

  type ListenerId = nat

  /** No id occurs twice: the listeners form a JavaScript `Set`, which also keeps insertion order. */
  predicate NoDuplicates(s: seq<ListenerId>) {
    forall i, j :: 0 <= i < j < |s| ==> s[i] != s[j]
  }

  /** `s` without `id`, the other ids in their order (`Set.prototype.delete`). */
  function Without(s: seq<ListenerId>, id: ListenerId): (r: seq<ListenerId>)
    ensures id !in r
    ensures forall x :: x in r <==> x in s && x != id
    ensures NoDuplicates(s) ==> NoDuplicates(r)
    ensures id !in s ==> r == s
  {
    if s == [] then []
    else if s[0] == id then Without(s[1..], id)
    else
      var rest := Without(s[1..], id);
      assert NoDuplicates(s) ==> s[0] !in s[1..] && NoDuplicates(s[1..]);
      assert NoDuplicates(s) ==> s[0] !in rest;
      ConsNoDuplicates(s[0], rest);
      [s[0]] + rest
  }

  /** Deleting the listener at place `k` leaves the others exactly as they were, in their
      order: the list with that one entry cut out. */
  lemma {:induction false} WithoutKeepsOrder(s: seq<ListenerId>, k: int)
    requires NoDuplicates(s) && 0 <= k < |s|
    ensures Without(s, s[k]) == s[..k] + s[k + 1..]
  {
    var id := s[k];
    var t := s[1..];
    assert s == [s[0]] + t;
    ConsNoDuplicates(s[0], t);
    if k == 0 {
      calc {
        Without(s, id);
        Without(t, id);
        t;
        s[..0] + s[1..];
      }
    } else {
      assert t[k - 1] == id;
      assert s[0] != id;
      WithoutKeepsOrder(t, k - 1);
      calc {
        Without(s, id);
        [s[0]] + Without(t, id);
        [s[0]] + (t[..k - 1] + t[k..]);
        { assert [s[0]] + t[..k - 1] == s[..k]; assert t[k..] == s[k + 1..]; }
        s[..k] + s[k + 1..];
      }
    }
  }

  lemma ConsNoDuplicates(x: ListenerId, s: seq<ListenerId>)
    ensures NoDuplicates([x] + s) <==> x !in s && NoDuplicates(s)
  {
    var t := [x] + s;
    if x !in s && NoDuplicates(s) {
      forall i, j | 0 <= i < j < |t| ensures t[i] != t[j] {
        if i > 0 { assert t[i] == s[i - 1] && t[j] == s[j - 1]; }
        else { assert t[j] == s[j - 1]; }
      }
    }
    if NoDuplicates(t) {
      forall i, j | 0 <= i < j < |s| ensures s[i] != s[j] {
        assert s[i] == t[i + 1] && s[j] == t[j + 1];
      }
      forall k | 0 <= k < |s| ensures s[k] != x {
        assert t[0] != t[k + 1];
      }
    }
  }

  /** In a sequence without duplicates every member occurs exactly once. */
  lemma {:induction false} OccursOnce(s: seq<ListenerId>, id: ListenerId)
    requires NoDuplicates(s) && id in s
    ensures multiset(s)[id] == 1
  {
    assert s == [s[0]] + s[1..];
    assert NoDuplicates(s[1..]);
    if s[0] == id {
      assert id !in s[1..];
    } else {
      OccursOnce(s[1..], id);
    }
  }

  class Signal<T> {
    var value: T
    var listeners: seq<ListenerId>
    /** Every listener call so far, oldest first. */
    var calls: seq<ListenerId>

    ghost predicate Valid()
      reads this
    {
      NoDuplicates(listeners)
    }

    constructor (v: T)
      ensures Valid()
      ensures value == v && listeners == [] && calls == []
    {
      value := v;
      listeners := [];
      calls := [];
    }

    function Get(): T
      reads this
    {
      value
    }

    /** Replaces the value, then calls each current listener once, in subscription order. */
    method Set(v: T)
      requires Valid()
      modifies this
      ensures Valid()
      ensures Get() == v && listeners == old(listeners)
      ensures calls == old(calls) + listeners
    {
      value := v;
      Notify();
    }

    method Notify()
      modifies this`calls
      ensures calls == old(calls) + listeners
    {
      for i := 0 to |listeners|
        invariant calls == old(calls) + listeners[..i]
      {
        calls := calls + [listeners[i]];
      }
    }

    /** Adds `id`; a listener already subscribed keeps its single entry and its place. */
    method Subscribe(id: ListenerId)
      requires Valid()
      modifies this`listeners
      ensures Valid()
      ensures listeners == if id in old(listeners) then old(listeners) else old(listeners) + [id]
    {
      if id !in listeners {
        listeners := listeners + [id];
      }
    }

    /** The closure `subscribe` returns: deletes `id` and says whether it was there. */
    method Unsubscribe(id: ListenerId) returns (deleted: bool)
      requires Valid()
      modifies this`listeners
      ensures Valid()
      ensures deleted == (id in old(listeners))
      ensures listeners == Without(old(listeners), id)
      ensures forall k :: 0 <= k < |old(listeners)| && old(listeners)[k] == id ==>
        listeners == old(listeners)[..k] + old(listeners)[k + 1..]
    {
      deleted := id in listeners;
      forall k | 0 <= k < |listeners| && listeners[k] == id {
        WithoutKeepsOrder(listeners, k);
      }
      listeners := Without(listeners, id);
    }
  }
}
