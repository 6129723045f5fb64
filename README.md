# S3 observer: handler registry and boot-once observer

This project models the dispatching core of the `s3-observer` Laravel package:

- `Dispatcher` keeps a table from Eloquent model class name to the one `Handler`
  created for that class. `register` is idempotent and `get` fails hard on a
  class that was never registered.
- `Observer` holds two static fields, `$booted` and `$dispatcher`, that only
  the first `boot` sets. PHP keeps one copy of them per process. An observer
  constructed with a class name registers that class and keeps the handler it gets back. The `saving` and
  `deleting` events are routed through `Dispatcher::get` for the model's class.
  `setFields` and `config` do nothing when the observer holds no handler.

Layout:

- `handler.dfy`, module `Handling`: the `Handler` class. It is an object with
  identity that remembers its model name.
- `dispatcher.dfy`, module `Dispatching`: the `Dispatcher` class, whose `handlers`
  field is a `map`. It also holds the specification functions `Lookup` (what `get`
  answers) and `AfterRegister` (the table after `register`). A trace model
  (`Call`, `Run`) is used to prove properties of whole sequences of calls.
- `observer.dfy`, module `Observing`: the Observer's static fields as an
  `ObserverStatics` object that each observer is given, with a pure `BootStep`/`BootRun` description. It
  also holds the `Observer` class itself.

Modelling choices:

- PHP's `if ($className)` is false for null, `""` and `"0"`; `Truthy` says exactly that.
- `get_class($model)` is the `className` field of the `Model` datatype.
- The exception `get` throws is `Err(NoHandler(name))`, and `Message` spells out its text.
- Calling through the static `$dispatcher` before any `boot` makes PHP fail with
  "Call to a member function get() on null". `GetHandler`, `Saving` and
  `Deleting` return `Err(NotBooted)` for it.
- `boot` returns null on both of its paths, so `Boot` returns nothing.
- The handler's own `saving`, `deleting` and `config` are stubs or are missing
  from the repository. They are passed in as function parameters: `saving` and
  `deleting` receive the handler and the model, `config` the handler, the key and
  a value of any type. The model states that the observer returns their results unchanged.
- `setFields` returns the call it forwards, a `SetFieldsCall`, because the
  handler's `setFields` is not part of this model.

## Model

| member | source | states |
|---|---|---|
| Handling.Handler.constructor | src/Translucent/S3Observer/Handler.php:17-21 | a new handler remembers the model name it was created for |
| Dispatching.Dispatcher.constructor | src/Translucent/S3Observer/Dispatcher.php:8-15 | the handler table starts empty (and so satisfies the table invariant) |
| Dispatching.Dispatcher.Register | src/Translucent/S3Observer/Dispatcher.php:17-25 | an already registered name returns its stored handler and leaves the table unchanged; a new name gets a fresh handler for that name, stored under it; the table is `AfterRegister` of the old one and `get` of the name then returns the handler returned; the name-to-handler invariant is kept |
| Dispatching.AfterRegister | src/Translucent/S3Observer/Dispatcher.php:19-24 | registering adds the name to the key set and nothing else; every existing entry keeps its handler; a new name adds exactly one entry, mapped to the created handler; an existing name leaves the table as it was |
| Dispatching.Dispatcher.Get | src/Translucent/S3Observer/Dispatcher.php:27-33 | succeeds exactly when the name is registered, with the stored handler; otherwise fails with an error naming the model, with the message "No handler is set for <name> model"; it modifies nothing |
| Dispatching.Lookup | src/Translucent/S3Observer/Dispatcher.php:29-32 | the answer of `get`: Ok with the stored handler iff the name is a key, otherwise the NoHandler error for that name |
| Dispatching.MessageNamesModel | src/Translucent/S3Observer/Dispatcher.php:30 | the exception text contains the model name at a fixed place, and two different names never give the same text |
| Dispatching.HandlersAreDistinct | src/Translucent/S3Observer/Dispatcher.php:22-23 | because each handler is created for the name it is stored under, two different names never share a handler |
| Dispatching.RegisterThenGet | src/Translucent/S3Observer/Dispatcher.php:17-33 | after `register(n)`, `get(n)` returns the handler `register` returned: the stored one if `n` was registered, else the new one |
| Dispatching.RunKeepsEntries | src/Translucent/S3Observer/Dispatcher.php:8-33 | no sequence of `register`/`get` calls removes a registration or changes the handler of any registered name |
| Dispatching.RunKeys | src/Translucent/S3Observer/Dispatcher.php:17-33 | after a sequence of calls the key set is exactly the old keys plus the names registered; `get` calls add nothing |
| Dispatching.RunKeepsValid | src/Translucent/S3Observer/Dispatcher.php:22-23 | every table reachable by calls keeps each handler under the name it was created for |
| Dispatching.RunAppend | src/Translucent/S3Observer/Dispatcher.php:17-33 | running two call sequences one after the other is running their concatenation |
| Dispatching.FirstRegistrationWins | src/Translucent/S3Observer/Dispatcher.php:19-24 | the first `register` of a name decides its handler for good; no later call can replace it |
| Observing.BootStep | src/Translucent/S3Observer/Observer.php:19-26 | after `boot` the flag is set; the first boot stores the given dispatcher; a later boot leaves both static fields as they were |
| Observing.FirstBootWins | src/Translucent/S3Observer/Observer.php:15-26 | for any sequence of boots, the static fields end up with the first dispatcher; once booted, further boots change nothing |
| Observing.ObserverStatics.constructor | src/Translucent/S3Observer/Observer.php:15-17 | the static fields start unbooted with no dispatcher |
| Observing.ObserverStatics.Boot | src/Translucent/S3Observer/Observer.php:19-26 | the static fields become `BootStep` of the old ones: set once by the first boot, unchanged by every later boot |
| Observing.Observer.constructor | src/Translucent/S3Observer/Observer.php:28-35 | a truthy class name is registered with the booted dispatcher (the table becomes `AfterRegister` of the old one) and the held handler is the one `register` returned, which is the stored handler if the class was already registered; a null, "" or "0" class name leaves the handler null and the dispatcher untouched |
| Observing.Observer.GetHandler | src/Translucent/S3Observer/Observer.php:49-59 | returns the dispatcher's `get` of the model's class name: it fails exactly when that class was never registered, with the NoHandler error, and fails with NotBooted before any boot |
| Observing.Observer.Saving | src/Translucent/S3Observer/Observer.php:37-41 | propagates `getHandler`'s error, otherwise returns unchanged the result of the handler's `saving` applied to the handler of the model's class and the model |
| Observing.Observer.Deleting | src/Translucent/S3Observer/Observer.php:43-47 | propagates `getHandler`'s error, otherwise returns unchanged the result of the handler's `deleting` applied to the handler of the model's class and the model |
| Observing.Observer.SetFields | src/Translucent/S3Observer/Observer.php:65-70 | does nothing when no handler is held; otherwise forwards all its arguments, in order, to the held handler |
| Observing.Observer.Config | src/Translucent/S3Observer/Observer.php:72-77 | returns null (None) when no handler is held; otherwise returns the held handler's `config(key, val)` result, for a value of any type |
| Observing.RegisteredModelRoutes | src/Translucent/S3Observer/Observer.php:28-54 | once an observer has registered a model's class, `getHandler` for that model returns the handler it holds, whatever dispatcher calls follow |

## Left out

- The S3 client the dispatcher receives and hands to every handler is not modelled (network I/O).
- `Handler::setGlobalConfig` is called by the dispatcher's constructor but is not defined in the repository. The global configuration is therefore not modelled.
- Handler.php is a stub: `saving` calls the framework's `dd` and `deleting` is empty. `setFields` and `config` are not defined on it. Its behaviour is a parameter of the observer methods.
- Observing.Observer.constructor: requires a booted dispatcher when the class name is truthy. In PHP that call would die with a fatal error on null, and a constructor cannot return an error value.
- ImageProcessor.php is not modelled: temp files, the image library, floating-point resizing and a user callback.
- The service provider, the factory and the facade are not modelled. They hold container wiring only, with no logic.
- config.php is not modelled: it is a static defaults array.
- The single per-process copy of the static fields is not enforced: each observer is given an `ObserverStatics` object, and giving every observer the same one is the caller's obligation. With two such objects, "only the first boot takes effect" holds for each object separately, and an observer given an unbooted one answers `NotBooted`.
- `call_user_func_array`/`func_get_args` dynamic dispatch is not modelled. It is represented by the forwarded argument list `[field] + more`.
- PHP's integer-string key casting in arrays is not modelled. It never merges two distinct class-name strings, so a `map<string, Handler>` has the same keys.
- The key-naming helpers that the tests call (`getTargetDir`, `keyFromUrl`, `getAcl`, `renameToFormal`, …) are not modelled. They do not exist in any source file, and the tests target another constructor signature.
