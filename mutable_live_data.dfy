/** MutableLiveData: LiveData plus a public setSubject. The inherited part is the
    LiveData object `live`, which is also the read-and-subscribe view that owners expose. */
module Mutable {
  import opened Registry
  import opened Observable

  /** The argument of setSubject: a new subject, or an updater `pre => next`. */
  datatype Update<!T> = Value(next: T) | Updater(apply: T -> T)

  class MutableLiveData<T> {
    const live: LiveData<T>

    constructor (initialState: T)
      ensures fresh(live)
      ensures live.subject == initialState
      ensures live.subscribers == [] && live.log == []
    {
      live := new LiveData(initialState);
    }

    /** Replaces the subject, then notifies once, unconditionally, even when nothing changed. */
    method SetSubject(update: Update<T>)
      modifies live`subject, live`log
      ensures update.Value? ==> live.subject == update.next
      ensures update.Updater? ==> live.subject == update.apply(old(live.subject))
      ensures live.subscribers == old(live.subscribers)
      ensures live.log == old(live.log) + Deliveries(live.subscribers, live.subject)
    {
      match update {
        case Updater(f) => live.subject := f(live.subject);
        case Value(v) => live.subject := v;
      }
      live.Notify();
    }
  }
}
