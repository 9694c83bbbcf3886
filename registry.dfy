/** The listener registry shared by LiveData and ViewModel: handler identities,
    the error addSubscribe raises, and the pure definitions that specify what
    off and notify do to the subscriber list and to the record of handler calls. */
module Registry {

  /** A subscriber is a JavaScript function compared by identity; the model names it by an id. */
  type HandlerId = nat

  /** What a caller hands to addSubscribe: a function, or a value that is not one. */
  datatype Handler = Callable(id: HandlerId) | NotCallable

  /** The one error of the registry, thrown by addSubscribe. */
  datatype Error = InvalidEventHandlerType

  datatype Result<R> = Ok(value: R) | Err(error: Error)

  /** One invocation `handler(subject)` made by notify. */
  datatype Call<T> = Call(handler: HandlerId, state: T)

  /** Array.prototype.indexOf: the first position of `h` in `s`, or -1. */
  function IndexOf(s: seq<HandlerId>, h: HandlerId): (i: int)
    ensures -1 <= i < |s|
    ensures i == -1 <==> h !in s
    ensures 0 <= i ==> s[i] == h && h !in s[..i]
  {
    if s == [] then -1
    else if s[0] == h then 0
    else
      var j := IndexOf(s[1..], h);
      if j == -1 then -1
      else
        assert s[..j + 1] == [s[0]] + s[1..][..j];
        j + 1
  }

  /** Reference definition of unsubscribing: drop the first occurrence of `h`, keep the rest in order. */
  function RemoveFirst(s: seq<HandlerId>, h: HandlerId): seq<HandlerId>
  {
    if s == [] then []
    else if s[0] == h then s[1..]
    else [s[0]] + RemoveFirst(s[1..], h)
  }

  /** The calls one notify pass makes: each subscriber in list order, each with `state`. */
  function Deliveries<T>(subscribers: seq<HandlerId>, state: T): seq<Call<T>>
  {
    if subscribers == [] then []
    else [Call(subscribers[0], state)] + Deliveries(subscribers[1..], state)
  }

  /** Removing the first match is the splice at indexOf's position; an absent handler leaves the list as it is. */
  lemma {:induction false} RemoveFirstIsSplice(s: seq<HandlerId>, h: HandlerId)
    ensures h !in s ==> RemoveFirst(s, h) == s
    ensures h in s ==> RemoveFirst(s, h) == s[..IndexOf(s, h)] + s[IndexOf(s, h) + 1..]
  {
    if s != [] && s[0] != h {
      RemoveFirstIsSplice(s[1..], h);
      if h in s {
        var j := IndexOf(s[1..], h);
        assert s[..j + 1] == [s[0]] + s[1..][..j];
        assert s[j + 2..] == s[1..][j + 1..];
      }
    }
  }

  /** Exactly one registration of `h` goes away when there is one, and no other handler is touched. */
  lemma {:induction false} RemoveFirstCounts(s: seq<HandlerId>, h: HandlerId)
    ensures multiset(RemoveFirst(s, h)) == multiset(s) - multiset{h}
    ensures h in s ==> |RemoveFirst(s, h)| == |s| - 1
    ensures h !in s ==> RemoveFirst(s, h) == s
  {
    if s != [] {
      assert s == [s[0]] + s[1..];
      RemoveFirstCounts(s[1..], h);
    }
  }

  /** The off closure of the registration just appended removes that entry only when no
      earlier registration of the same handler exists; otherwise it removes the earlier one. */
  lemma {:induction false} OffAfterAdd(s: seq<HandlerId>, h: HandlerId)
    ensures h !in s ==> RemoveFirst(s + [h], h) == s
    ensures h in s ==> RemoveFirst(s + [h], h) == RemoveFirst(s, h) + [h]
  {
    if s == [] {
      assert [] + [h] == [h];
    } else {
      assert (s + [h])[1..] == s[1..] + [h];
      OffAfterAdd(s[1..], h);
    }
  }

  /** Calling off twice for a handler registered at most once is the same as calling it once. */
  lemma OffTwiceSingle(s: seq<HandlerId>, h: HandlerId)
    requires multiset(s)[h] <= 1
    ensures RemoveFirst(RemoveFirst(s, h), h) == RemoveFirst(s, h)
  {
    RemoveFirstCounts(s, h);
    var r: seq<HandlerId> := RemoveFirst(s, h);
    assert multiset(r)[h] == 0;
    assert h !in r;
    RemoveFirstCounts(r, h);
  }

  /** A handler registered twice loses both registrations after two off calls. */
  lemma OffTwiceDuplicate(s: seq<HandlerId>, h: HandlerId)
    requires multiset(s)[h] == 2
    ensures multiset(RemoveFirst(RemoveFirst(s, h), h))[h] == 0
    ensures |RemoveFirst(RemoveFirst(s, h), h)| == |s| - 2
  {
    RemoveFirstCounts(s, h);
    var r: seq<HandlerId> := RemoveFirst(s, h);
    assert multiset(r)[h] == 1;
    assert h in r;
    RemoveFirstCounts(r, h);
  }

  /** One notify pass calls each position of the list once, in list order, with the current state. */
  lemma {:induction false} DeliveriesAt<T>(subscribers: seq<HandlerId>, state: T)
    ensures |Deliveries(subscribers, state)| == |subscribers|
    ensures forall k :: 0 <= k < |subscribers| ==> Deliveries(subscribers, state)[k] == Call(subscribers[k], state)
  {
    if subscribers != [] {
      DeliveriesAt(subscribers[1..], state);
    }
  }

  /** Notifying a concatenated list is notifying its parts in turn. */
  lemma {:induction false} DeliveriesAppend<T>(s: seq<HandlerId>, t: seq<HandlerId>, state: T)
    ensures Deliveries(s + t, state) == Deliveries(s, state) + Deliveries(t, state)
  {
    if s == [] {
      assert s + t == t;
    } else {
      assert (s + t)[1..] == s[1..] + t;
      DeliveriesAppend(s[1..], t, state);
    }
  }

  /** A handler is called once per registration: as often as it occurs in the list, and never if absent. */
  lemma {:induction false} DeliveriesCount<T>(subscribers: seq<HandlerId>, state: T, h: HandlerId)
    ensures multiset(Deliveries(subscribers, state))[Call(h, state)] == multiset(subscribers)[h]
  {
    if subscribers != [] {
      assert subscribers == [subscribers[0]] + subscribers[1..];
      DeliveriesCount(subscribers[1..], state, h);
    }
  }
}
