/** The in-process "checklist changed" channel: listeners subscribe, get back
    a way to unsubscribe, and are all called, in order, on every emit. */
module ChecklistEvents {

  /** A listener stands for a callback and is compared by identity. */
  type ListenerId = nat

  /** What `subscribe` hands back: the unsubscribe closure, which captures
      the listener it was created for. */
  datatype Subscription = Subscription(listener: ListenerId)

  function Last<T>(s: seq<T>): (x: T)
    requires s != []
  {
    s[|s| - 1]
  }

  function Init<T>(s: seq<T>): (r: seq<T>)
    requires s != []
  {
    s[..|s| - 1]
  }

  /** `r` is `s` with some entries dropped, the rest in their original order. */
  predicate IsSubsequence(r: seq<ListenerId>, s: seq<ListenerId>)
    decreases |s|
  {
    if r == [] then true
    else if s == [] then false
    else if Last(r) == Last(s) then IsSubsequence(Init(r), Init(s))
    else IsSubsequence(r, Init(s))
  }

  /** The listener list after removing `l` by identity. */
  function Without(s: seq<ListenerId>, l: ListenerId): (r: seq<ListenerId>)
    ensures l !in r
    ensures forall m :: m in r <==> m in s && m != l
    ensures IsSubsequence(r, s)
    decreases |s|
  {
    if s == [] then []
    else
      var rest := Without(Init(s), l);
      assert s == Init(s) + [Last(s)];
      if Last(s) == l then rest else rest + [Last(s)]
  }

  /** The listeners of `s` whose call throws, in call order. */
  function Failures(s: seq<ListenerId>, throws: ListenerId -> bool): (r: seq<ListenerId>)
    ensures forall m :: m in r <==> m in s && throws(m)
    ensures IsSubsequence(r, s)
    decreases |s|
  {
    if s == [] then []
    else
      var rest := Failures(Init(s), throws);
      if throws(Last(s)) then rest + [Last(s)] else rest
  }

  class ChecklistEventEmitter {
    var listeners: seq<ListenerId>

    /** A new emitter has no listeners. */
    constructor ()
      ensures listeners == []
    {
      listeners := [];
    }

    /** Registers `l` at the end of the list and returns its unsubscribe handle. */
    method Subscribe(l: ListenerId) returns (h: Subscription)
      modifies this
      ensures listeners == old(listeners) + [l]
      ensures h.listener == l
    {
      listeners := listeners + [l];
      h := Subscription(l);
    }

    /** Calling the handle drops every entry of its listener and keeps the rest in order. */
    method Unsubscribe(h: Subscription)
      modifies this
      ensures listeners == Without(old(listeners), h.listener)
    {
      listeners := Without(listeners, h.listener);
    }

    /** Calls every listener once, in list order. `throws` says which calls
        raise; each such exception is caught, recorded in `failed`, and the
        walk goes on. The list itself is left as it was. */
    method Emit(throws: ListenerId -> bool) returns (invoked: seq<ListenerId>, failed: seq<ListenerId>)
      ensures invoked == listeners
      ensures failed == Failures(listeners, throws)
    {
      invoked, failed := [], [];
      var i := 0;
      while i < |listeners|
        invariant 0 <= i <= |listeners|
        invariant invoked == listeners[..i]
        invariant failed == Failures(listeners[..i], throws)
      {
        var l := listeners[i];
        assert listeners[..i + 1] == listeners[..i] + [l];
        invoked := invoked + [l];
        if throws(l) {
          failed := failed + [l];
        }
        i := i + 1;
      }
      assert listeners[..i] == listeners;
    }
  }

  /** Removing the same listener twice removes nothing more. */
  lemma {:induction false} UnsubscribeIdempotent(s: seq<ListenerId>, l: ListenerId)
    ensures Without(Without(s, l), l) == Without(s, l)
  {
    NoOccurrenceUnchanged(Without(s, l), l);
  }

  /** Removing a listener that is not in the list leaves the list as it was. */
  lemma {:induction false} NoOccurrenceUnchanged(s: seq<ListenerId>, l: ListenerId)
    requires l !in s
    ensures Without(s, l) == s
    decreases |s|
  {
    if s != [] {
      NoOccurrenceUnchanged(Init(s), l);
      assert s == Init(s) + [Last(s)];
    }
  }

  /** Removal from a list that ends in `x`. */
  lemma WithoutSnoc(s: seq<ListenerId>, x: ListenerId, l: ListenerId)
    ensures Without(s + [x], l) == if x == l then Without(s, l) else Without(s, l) + [x]
  {
    assert Init(s + [x]) == s;
  }

  /** Removal distributes over concatenation. */
  lemma {:induction false} WithoutAppend(a: seq<ListenerId>, b: seq<ListenerId>, l: ListenerId)
    ensures Without(a + b, l) == Without(a, l) + Without(b, l)
    decreases |b|
  {
    if b == [] {
      assert a + b == a;
    } else {
      var x, c := Last(b), Init(b);
      assert b == c + [x];
      assert a + b == (a + c) + [x];
      WithoutAppend(a, c, l);
      WithoutSnoc(a + c, x, l);
      WithoutSnoc(c, x, l);
    }
  }

  /** Subscribing and then unsubscribing the same listener gives the list with
      every earlier entry of it also gone; on a list without it, the original list. */
  lemma SubscribeThenUnsubscribe(s: seq<ListenerId>, l: ListenerId)
    ensures Without(s + [l], l) == Without(s, l)
    ensures l !in s ==> Without(s + [l], l) == s
  {
    WithoutAppend(s, [l], l);
    if l !in s {
      NoOccurrenceUnchanged(s, l);
    }
  }

  /** A listener subscribed twice is gone after one unsubscribe. */
  lemma {:induction false} DoubleSubscriptionRemovedAtOnce(s: seq<ListenerId>, l: ListenerId)
    ensures Without(s + [l] + [l], l) == Without(s, l)
  {
    WithoutAppend(s + [l], [l], l);
    WithoutAppend(s, [l], l);
  }

  /** Unsubscribing two different listeners gives the same list in either order. */
  lemma {:induction false} UnsubscribeCommutes(s: seq<ListenerId>, l: ListenerId, m: ListenerId)
    ensures Without(Without(s, l), m) == Without(Without(s, m), l)
    decreases |s|
  {
    if s != [] {
      UnsubscribeCommutes(Init(s), l, m);
      var x := Last(s);
      WithoutAppend(Without(Init(s), l), [x], m);
      WithoutAppend(Without(Init(s), m), [x], l);
      if x != l {
        assert Without(s, l) == Without(Init(s), l) + [x];
      } else {
        assert Without(s, l) == Without(Init(s), l);
      }
      if x != m {
        assert Without(s, m) == Without(Init(s), m) + [x];
      } else {
        assert Without(s, m) == Without(Init(s), m);
      }
    }
  }

  /** Removal takes out every occurrence of `l` and nothing else. */
  lemma {:induction false} WithoutMultiset(s: seq<ListenerId>, l: ListenerId)
    ensures multiset(Without(s, l)) == multiset(s)[l := 0]
    decreases |s|
  {
    if s != [] {
      var x, c := Last(s), Init(s);
      assert s == c + [x];
      WithoutMultiset(c, l);
      WithoutSnoc(c, x, l);
      assert multiset(s) == multiset(c) + multiset{x};
    }
  }

  /** Each throwing entry is recorded once per occurrence; non-throwing
      listeners are never recorded. */
  lemma {:induction false} FailuresMultiset(s: seq<ListenerId>, throws: ListenerId -> bool, m: ListenerId)
    ensures multiset(Failures(s, throws))[m] == if throws(m) then multiset(s)[m] else 0
    decreases |s|
  {
    if s != [] {
      var x, c := Last(s), Init(s);
      assert s == c + [x];
      FailuresMultiset(c, throws, m);
      assert multiset(s) == multiset(c) + multiset{x};
    }
  }

  /** Unsubscribing `l` keeps every other listener, as often as it occurred,
      and in its original relative order; the list shrinks by the number of
      entries of `l`. */
  lemma UnsubscribeKeepsOthers(s: seq<ListenerId>, l: ListenerId, m: ListenerId)
    requires m != l
    ensures multiset(Without(s, l))[m] == multiset(s)[m]
    ensures |Without(s, l)| == |s| - multiset(s)[l]
    ensures IsSubsequence(Without(s, l), s)
  {
    var r := Without(s, l);
    WithoutMultiset(s, l);
    assert |multiset(r)| == |multiset(s)| - multiset(s)[l];
  }

  /** A listener that throws does not keep the ones after it from being called. */
  method IsolatedFailure(bad: ListenerId, good: ListenerId, throws: ListenerId -> bool)
    returns (invoked: seq<ListenerId>, failed: seq<ListenerId>)
    requires throws(bad) && !throws(good)
    ensures invoked == [bad, good]
    ensures failed == [bad]
  {
    var e := new ChecklistEventEmitter();
    var _ := e.Subscribe(bad);
    var _ := e.Subscribe(good);
    invoked, failed := e.Emit(throws);
    assert [bad, good][..1] == [bad];
  }

  /** A listener is called once per emit while subscribed and not at all after
      its handle is called; a new emitter calls nobody. */
  method SubscribeEmitUnsubscribe(l: ListenerId, throws: ListenerId -> bool)
    returns (beforeSubscribe: seq<ListenerId>, whileSubscribed: seq<ListenerId>, afterUnsubscribe: seq<ListenerId>)
    ensures beforeSubscribe == []
    ensures whileSubscribed == [l]
    ensures afterUnsubscribe == []
  {
    var e := new ChecklistEventEmitter();
    var failed;
    beforeSubscribe, failed := e.Emit(throws);
    var h := e.Subscribe(l);
    whileSubscribed, failed := e.Emit(throws);
    e.Unsubscribe(h);
    afterUnsubscribe, failed := e.Emit(throws);
  }
}
