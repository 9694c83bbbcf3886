/** LiveData: a subject and an ordered list of subscribers, updated in place. */
module Observable {
  import opened Registry

  /** The closure addSubscribe returns, `() => this.off(handler)`: it remembers its registry and its handler. */
  datatype OffClosure<T> = OffClosure(owner: LiveData<T>, handler: HandlerId)

  class LiveData<T> {
    var subject: T
    var subscribers: seq<HandlerId>
    /** Every handler invocation made so far, oldest first. It has no counterpart in the
        source: it exists only to state what notify does, and stands for the handlers' own effects. */
    var log: seq<Call<T>>

    constructor (initialState: T)
      ensures subject == initialState
      ensures subscribers == [] && log == []
    {
      subject := initialState;
      subscribers := [];
      log := [];
    }

    /** Removes the first registration of `handler`; an absent handler leaves the list unchanged
        (indexOf gives -1, and splicing at `-1 >>> 0` lies past the end of any array). */
    method Off(handler: HandlerId)
      modifies this`subscribers
      ensures subscribers == RemoveFirst(old(subscribers), handler)
      ensures handler !in old(subscribers) ==> subscribers == old(subscribers)
      ensures handler in old(subscribers) ==>
        |subscribers| == |old(subscribers)| - 1 &&
        subscribers == old(subscribers)[..IndexOf(old(subscribers), handler)]
                       + old(subscribers)[IndexOf(old(subscribers), handler) + 1..]
      ensures multiset(subscribers) == multiset(old(subscribers)) - multiset{handler}
    {
      var index := IndexOf(subscribers, handler);
      RemoveFirstIsSplice(subscribers, handler);
      RemoveFirstCounts(subscribers, handler);
      if index >= 0 {
        subscribers := subscribers[..index] + subscribers[index + 1..];
      }
    }

    /** Calls every subscriber once, in list order, with the current subject. */
    method Notify()
      modifies this`log
      ensures log == old(log) + Deliveries(subscribers, subject)
      ensures |log| == |old(log)| + |subscribers|
    {
      for i := 0 to |subscribers|
        invariant log == old(log) + Deliveries(subscribers[..i], subject)
      {
        assert subscribers[..i + 1] == subscribers[..i] + [subscribers[i]];
        DeliveriesAppend(subscribers[..i], [subscribers[i]], subject);
        log := log + [Call(subscribers[i], subject)];
      }
      assert subscribers[..|subscribers|] == subscribers;
      DeliveriesAt(subscribers, subject);
    }

    /** Drops every subscriber; the subject is untouched. */
    method RemoveSubscribers()
      modifies this`subscribers
      ensures subscribers == []
    {
      subscribers := [];
    }

    /** Appends a callable handler and returns its off closure; anything else is rejected and nothing changes. */
    method AddSubscribe(handler: Handler) returns (r: Result<OffClosure<T>>)
      modifies this`subscribers
      ensures handler.NotCallable? ==> r == Err(InvalidEventHandlerType) && subscribers == old(subscribers)
      ensures handler.Callable? ==>
        r == Ok(OffClosure(this, handler.id)) && subscribers == old(subscribers) + [handler.id]
    {
      if handler.NotCallable? {
        return Err(InvalidEventHandlerType);
      }
      subscribers := subscribers + [handler.id];
      r := Ok(OffClosure(this, handler.id));
    }

    /** A copy of the subject: equal to it, and reading changes nothing. */
    method GetSubject() returns (copy: T)
      ensures copy == subject
    {
      copy := subject;
    }
  }

  /** Invoking the closure returned by addSubscribe: off on the registry it came from. */
  method CallOff<T>(off: OffClosure<T>)
    modifies off.owner`subscribers
    ensures off.owner.subscribers == RemoveFirst(old(off.owner.subscribers), off.handler)
    ensures off.handler !in old(off.owner.subscribers) ==> off.owner.subscribers == old(off.owner.subscribers)
    ensures multiset(off.owner.subscribers) == multiset(old(off.owner.subscribers)) - multiset{off.handler}
  {
    off.owner.Off(off.handler);
  }
}
