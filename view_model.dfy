/** ViewModel: a second copy of the registry, without removeSubscribers, whose setSubject,
    meant for subclasses, takes a plain value. */
module ViewModels {
  import opened Registry

  /** The closure addSubscribe returns, `() => this.off(handler)`. */
  datatype OffClosure<T> = OffClosure(owner: ViewModel<T>, handler: HandlerId)

  class ViewModel<T> {
    var subject: T
    var subscribers: seq<HandlerId>
    /** Every handler invocation made so far, oldest first. It has no counterpart in the
        source: it exists only to state what notify does, and stands for the handlers' own effects. */
    var log: seq<Call<T>>

    constructor (subject: T)
      ensures this.subject == subject
      ensures subscribers == [] && log == []
    {
      this.subject := subject;
      subscribers := [];
      log := [];
    }

    /** Removes the first registration of `handler`, or nothing when it is absent. */
    method Off(handler: HandlerId)
      modifies this`subscribers
      ensures subscribers == RemoveFirst(old(subscribers), handler)
      ensures handler !in old(subscribers) ==> subscribers == old(subscribers)
      ensures handler in old(subscribers) ==>
        |subscribers| == |old(subscribers)| - 1 &&
        subscribers == old(subscribers)[..IndexOf(old(subscribers), handler)]
                       + old(subscribers)[IndexOf(old(subscribers), handler) + 1..]
      ensures multiset(subscribers) == multiset(old(subscribers)) - multiset{handler}
    {
      var index := IndexOf(subscribers, handler);
      RemoveFirstIsSplice(subscribers, handler);
      RemoveFirstCounts(subscribers, handler);
      if index >= 0 {
        subscribers := subscribers[..index] + subscribers[index + 1..];
      }
    }

    /** Appends a callable handler and returns its off closure; anything else is rejected and nothing changes. */
    method AddSubscribe(handler: Handler) returns (r: Result<OffClosure<T>>)
      modifies this`subscribers
      ensures handler.NotCallable? ==> r == Err(InvalidEventHandlerType) && subscribers == old(subscribers)
      ensures handler.Callable? ==>
        r == Ok(OffClosure(this, handler.id)) && subscribers == old(subscribers) + [handler.id]
    {
      if handler.NotCallable? {
        return Err(InvalidEventHandlerType);
      }
      subscribers := subscribers + [handler.id];
      r := Ok(OffClosure(this, handler.id));
    }

    /** Calls every subscriber once, in insertion order, with the current subject. */
    method Notify()
      modifies this`log
      ensures log == old(log) + Deliveries(subscribers, subject)
      ensures |log| == |old(log)| + |subscribers|
    {
      for i := 0 to |subscribers|
        invariant log == old(log) + Deliveries(subscribers[..i], subject)
      {
        assert subscribers[..i + 1] == subscribers[..i] + [subscribers[i]];
        DeliveriesAppend(subscribers[..i], [subscribers[i]], subject);
        log := log + [Call(subscribers[i], subject)];
      }
      assert subscribers[..|subscribers|] == subscribers;
      DeliveriesAt(subscribers, subject);
    }

    /** Assigns the subject, then notifies exactly once with it. */
    method SetSubject(subject: T)
      modifies this`subject, this`log
      ensures this.subject == subject
      ensures log == old(log) + Deliveries(subscribers, subject)
    {
      this.subject := subject;
      Notify();
    }

    /** A copy of the subject: equal to it, and reading changes nothing. */
    method GetSubject() returns (copy: T)
      ensures copy == subject
    {
      copy := subject;
    }
  }

  /** Invoking the closure returned by addSubscribe: off on the view model it came from. */
  method CallOff<T>(off: OffClosure<T>)
    modifies off.owner`subscribers
    ensures off.owner.subscribers == RemoveFirst(old(off.owner.subscribers), off.handler)
    ensures off.handler !in old(off.owner.subscribers) ==> off.owner.subscribers == old(off.owner.subscribers)
    ensures multiset(off.owner.subscribers) == multiset(old(off.owner.subscribers)) - multiset{off.handler}
  {
    off.owner.Off(off.handler);
  }
}
