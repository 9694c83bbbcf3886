/** Client programs that use the containers only through their contracts: the login form
    of the test suite and the usage patterns the containers are written for. */
module Scenarios {
  import opened Registry
  import opened Observable
  import opened Mutable
  import ViewModels

  /** The state the login form of the test suite observes. */
  datatype Credentials = Credentials(email: string, password: string)

  /** The login view model sets new credentials: the one subscriber receives them exactly once,
      and reading afterwards gives back the new fields. */
  method LoginSetData() returns (calls: seq<Call<Credentials>>, read: Credentials)
    ensures calls == [Call(1, Credentials("pepe@gmail.com", "1234"))]
    ensures read.email == "pepe@gmail.com" && read.password == "1234"
  {
    var data := new MutableLiveData(Credentials("", ""));
    var before := data.live.GetSubject();
    assert before == Credentials("", "");
    var off := data.live.AddSubscribe(Callable(1));
    data.SetSubject(Value(Credentials("pepe@gmail.com", "1234")));
    DeliveriesAt(data.live.subscribers, data.live.subject);
    calls := data.live.log;
    read := data.live.GetSubject();
  }

  /** An updater sees the previous subject: `pre => pre + 1` on 0 stores 1, and a
      no-op write still notifies every subscriber once. The stored subject is read
      directly, because getSubject on a number subject gives `{}` in the source. */
  method UpdaterThenSameValue() returns (stored: int, calls: seq<Call<int>>)
    ensures stored == 1
    ensures calls == [Call(4, 1), Call(4, 1)]
  {
    var counter := new MutableLiveData(0);
    var off := counter.live.AddSubscribe(Callable(4));
    counter.SetSubject(Updater(pre => pre + 1));
    counter.SetSubject(Value(1));
    DeliveriesAt(counter.live.subscribers, 1);
    stored := counter.live.subject;
    calls := counter.live.log;
  }

  /** After removeSubscribers a write notifies nobody, and an old off closure changes nothing. */
  method ClearThenSet() returns (calls: seq<Call<int>>, subscribers: seq<HandlerId>)
    ensures calls == [] && subscribers == []
  {
    var counter := new MutableLiveData(0);
    var off1 := counter.live.AddSubscribe(Callable(1));
    var off2 := counter.live.AddSubscribe(Callable(2));
    counter.live.RemoveSubscribers();
    counter.SetSubject(Value(7));
    Observable.CallOff(off1.value);
    calls := counter.live.log;
    subscribers := counter.live.subscribers;
  }

  /** A handler registered twice is removed by two calls of one off closure; a handler that
      is not a function is refused and leaves the list as it was. */
  method DuplicateRegistration() returns (subscribers: seq<HandlerId>, refused: Result<Observable.OffClosure<int>>)
    ensures subscribers == [2]
    ensures refused == Err(InvalidEventHandlerType)
  {
    var counter := new MutableLiveData(0);
    var off := counter.live.AddSubscribe(Callable(1));
    var other := counter.live.AddSubscribe(Callable(2));
    var again := counter.live.AddSubscribe(Callable(1));
    refused := counter.live.AddSubscribe(NotCallable);
    assert counter.live.subscribers == [1, 2, 1];
    Observable.CallOff(off.value);
    assert counter.live.subscribers == [2, 1];
    Observable.CallOff(off.value);
    subscribers := counter.live.subscribers;
  }

  /** A view model notifies its subscribers in insertion order with the subject it was given. */
  method ViewModelSet() returns (calls: seq<Call<int>>)
    ensures calls == [Call(1, 3), Call(2, 3)]
  {
    var model := new ViewModels.ViewModel(0);
    var off1 := model.AddSubscribe(Callable(1));
    var off2 := model.AddSubscribe(Callable(2));
    model.SetSubject(3);
    DeliveriesAt(model.subscribers, 3);
    calls := model.log;
  }
}
