# live-data, modelled in Dafny

The `live-data` package is a small observer-pattern state container. `LiveData<T>`
holds one value, the *subject*, and an ordered array of *subscribers*.
`addSubscribe` appends a handler and returns an "off" closure. `off` removes the
first occurrence of that handler. `notify` calls every handler in array order with
the subject. `removeSubscribers` empties the array. `getSubject` returns a shallow
copy of the subject. `MutableLiveData<T>` adds a public `setSubject`, which takes a new
value or an updater `pre => next`, assigns the subject and then notifies once.
`ViewModel<T>` is a separate copy of the same registry, without
`removeSubscribers`, and with a protected `setSubject` that takes a plain value.

The model is imperative, like the source:

- `registry.dfy` (module `Registry`) holds what both registries share. Handlers are
  opaque identities (`HandlerId`), because JavaScript compares functions by
  identity. The `typeof handler !== 'function'` test becomes the tagged input
  `Handler = Callable(id) | NotCallable`. The error is `InvalidEventHandlerType`.
  It also holds the pure reference definitions: `IndexOf` (Array `indexOf`),
  `RemoveFirst` (unsubscribing) and `Deliveries` (the calls one notify pass makes),
  with lemmas about them.
- `live_data.dfy` (module `Observable`) has the class `LiveData` with fields
  `subject`, `subscribers` and `log`. The `log` field records every handler
  invocation `Call(handler, subject)` in order. It has no counterpart in the
  source: it exists only for specification, and stands for the handlers' own
  effects. The closure returned by `addSubscribe` is the value
  `OffClosure(owner, handler)`, and calling it is `CallOff`.
- `mutable_live_data.dfy` (module `Mutable`) has the class `MutableLiveData`. Dafny
  classes here do not inherit, so the inherited part is the `LiveData` object
  `live`. That object is also the read-and-subscribe view an owner hands out. The
  argument of `setSubject` is `Update = Value(next) | Updater(apply)`.
- `view_model.dfy` (module `ViewModels`) has the class `ViewModel`, which duplicates
  the registry as the source does.
- `scenarios.dfy` (module `Scenarios`) has client methods that use the classes only
  through their contracts. They cover the login form of the test suite and the
  usage patterns the containers are written for.

Calling an off closure a second time is not always a no-op. The closure just
calls `off(handler)` again (src/live-data.ts:111), so a handler registered twice
loses its second registration too (`Registry.OffTwiceDuplicate`,
`Scenarios.DuplicateRegistration`). A second call does nothing only when the
handler was registered at most once (`Registry.OffTwiceSingle`).
Also, off removes the *first* registration of the handler, which is not
necessarily the one whose `addSubscribe` returned the closure
(`Registry.OffAfterAdd`).

## Model

| member | source | states |
|---|---|---|
| Registry.IndexOf | src/live-data.ts:63 | indexOf gives -1 exactly when the handler is absent; otherwise a position holding the handler with no earlier occurrence |
| Registry.RemoveFirstIsSplice | src/live-data.ts:62-65 | splicing one element out at indexOf's position is removing the first occurrence; an absent handler leaves the list unchanged |
| Registry.RemoveFirstCounts | src/live-data.ts:62-65 | off takes away exactly one registration of the handler when it has one, shortening the list by one, and leaves every other handler's registrations alone |
| Registry.OffAfterAdd | src/live-data.ts:108-112 | the off closure of a fresh registration removes that entry when the handler was not already subscribed; otherwise it removes the earlier registration and keeps the new one at the end |
| Registry.OffTwiceSingle | src/live-data.ts:111 | for a handler registered at most once, calling off a second time changes nothing |
| Registry.OffTwiceDuplicate | src/live-data.ts:111 | for a handler registered twice, two off calls remove both registrations |
| Registry.DeliveriesAt | src/live-data.ts:72-74 | one notify pass makes exactly one call per list position, in list order, each with the current subject |
| Registry.DeliveriesAppend | src/live-data.ts:73 | notifying a list is notifying its prefix and then the rest, the basis of the forward iteration |
| Registry.DeliveriesCount | src/live-data.ts:72-74 | a handler is called as many times as it is registered (duplicates twice), and never when it is absent |
| Observable.LiveData.constructor | src/live-data.ts:53-57 | the subject is the initial state; there are no subscribers and no calls yet |
| Observable.LiveData.Off | src/live-data.ts:62-65 | the list becomes the old list without its first occurrence of the handler, order kept; unchanged if absent; subject and log untouched |
| Observable.LiveData.Notify | src/live-data.ts:72-74 | the log grows by one call per subscriber, in list order, with the current subject; subject and list untouched |
| Observable.LiveData.RemoveSubscribers | src/live-data.ts:86-88 | the list becomes empty; subject and log untouched |
| Observable.LiveData.AddSubscribe | src/live-data.ts:108-112 | a non-function fails with InvalidEventHandlerType and changes nothing; a function is appended at the end (duplicates kept) and its off closure is returned |
| Observable.CallOff | src/live-data.ts:111 | the returned closure runs off for its own handler on the registry it came from |
| Observable.LiveData.GetSubject | src/live-data.ts:125-127 | returns a value equal to the subject and changes no state |
| Mutable.MutableLiveData.constructor | src/mutable-live-data.ts:30-32 | the subject is the initial state, with no subscribers and no calls |
| Mutable.MutableLiveData.SetSubject | src/mutable-live-data.ts:53-57 | a value becomes the subject; an updater's result on the old subject becomes the subject; the list is unchanged; then exactly one notify pass delivers the new subject to every subscriber in order |
| ViewModels.ViewModel.constructor | src/view-model.ts:4-9 | the subject is the constructor argument; there are no subscribers and no calls |
| ViewModels.ViewModel.Off | src/view-model.ts:11-14 | removes the first occurrence of the handler, order kept; unchanged if absent |
| ViewModels.ViewModel.AddSubscribe | src/view-model.ts:16-21 | a non-function fails with InvalidEventHandlerType and changes nothing; a function is appended at the end and its off closure is returned |
| ViewModels.CallOff | src/view-model.ts:20 | the returned closure runs off for its own handler on its own view model |
| ViewModels.ViewModel.Notify | src/view-model.ts:23-25 | one call per subscriber, in insertion order, with the current subject; nothing else changes |
| ViewModels.ViewModel.SetSubject | src/view-model.ts:27-30 | the subject becomes the argument, the list is unchanged, and exactly one notify pass delivers it |
| ViewModels.ViewModel.GetSubject | src/view-model.ts:32-34 | returns a value equal to the subject and changes no state |
| Scenarios.LoginSetData | test/mutable-live-data.test.tsx:84-92 | after the login view model sets new credentials, its one subscriber has received them exactly once and reading gives back the new email and password |
| Scenarios.UpdaterThenSameValue | src/mutable-live-data.ts:53-57 | the updater `pre => pre + 1` on 0 stores 1 in the subject field; writing the same value again still notifies |
| Scenarios.ClearThenSet | src/live-data.ts:86-88 | after removeSubscribers a write calls nobody, and an old off closure leaves the empty list as it is |
| Scenarios.DuplicateRegistration | src/live-data.ts:108-112 | registering [1, 2, 1] and calling handler 1's closure twice leaves [2]; a non-function is refused |
| Scenarios.ViewModelSet | src/view-model.ts:27-30 | a view model with subscribers 1 and 2 set to 3 calls 1 and then 2, each with 3 |

## Left out

- The hook adapters `useLiveData`, `useMutableLiveData` and `useViewModel`, and the merge `{...pre, ...newState}` they do. They are glue to the host UI library's state and effect lifecycle. `src/index.tsx` only re-exports.
- Handlers that change the registry during notify. The source iterates the live array with `for…of`. The model assumes handlers do not touch the registry, and each handler call is an entry in `log`.
- Exceptions thrown by a handler out of notify. The model's handlers do not fail.
- Handlers that mutate their argument. Notify passes the stored subject object itself to every handler (src/live-data.ts:73, src/view-model.ts:24), so in the source such a handler changes the subject and what later handlers in the same pass receive. The model's `Call(handler, subject)` records a value and cannot express this aliasing.
- Mutable.MutableLiveData.SetSubject: the updater `Updater(apply)` is a total function without side effects. In the source an updater that throws leaves the subject as it was and skips notify (src/mutable-live-data.ts:54-56); the model does not capture that path.
- Observable.LiveData.GetSubject: returns a value equal to the subject. It does not model that `Object.assign({}, subject)` makes a new top-level object whose nested objects are shared, nor that it turns a primitive subject into an object: on a number subject the source returns `{}`, and on a string subject an object of its characters.
- ViewModels.ViewModel.GetSubject: same as `Observable.LiveData.GetSubject`.
- The runtime test `value instanceof Function` in setSubject. A subject that is itself a function would be taken as an updater. The model uses the tagged `Update` datatype instead.
- The `?? -1` in off (never taken, because indexOf always returns a number) and the 32-bit `index >>> 0` conversion. Only their effect is modelled: an absent handler leaves the list unchanged. JavaScript's limit of 2^32 - 1 array elements is not modelled.
- Access modifiers (`protected`, `private`, `abstract`). The model's methods are all callable, and `LiveData` can be constructed directly.
- Inheritance. `MutableLiveData` holds its `LiveData` part as the field `live`.
