/** The model observer of src/Translucent/S3Observer/Observer.php: a boot-once
    static dispatcher and per-instance handlers that the framework's
    `saving`/`deleting` events are routed through. */
module Observing {
  import opened Handling
  import opened Dispatching

  /** An Eloquent model, as far as the observer looks at it: its class name
      (what `get_class` returns). */
  datatype Model = Model(className: string)

  /** PHP's truth test on the constructor's `$className`: null, "" and "0" are false. */
  predicate Truthy(className: Option<string>)
  {
    className.Some? && className.value != "" && className.value != "0"
  }

  datatype Option<T> = None | Some(value: T)

  /** The pair of static fields `$booted` and `$dispatcher`. */
  datatype BootState = BootState(booted: bool, dispatcher: Dispatcher?)

  const Unbooted := BootState(false, null)

  /** The static fields after `boot(d)`: only the first boot takes effect. */
  function BootStep(s: BootState, d: Dispatcher): (r: BootState)
    ensures r.booted
    ensures s.booted ==> r == s
    ensures !s.booted ==> r.dispatcher == d
  {
    if s.booted then s else BootState(true, d)
  }

  /** The static fields after the boots `ds`, in order. */
  function BootRun(s: BootState, ds: seq<Dispatcher>): BootState
    decreases |ds|
  {
    if ds == [] then s else BootRun(BootStep(s, ds[0]), ds[1..])
  }

  /** However many times boot is called, the first dispatcher is the one kept. */
  lemma {:induction false} FirstBootWins(s: BootState, ds: seq<Dispatcher>)
    ensures s.booted ==> BootRun(s, ds) == s
    ensures !s.booted && ds != [] ==> BootRun(s, ds) == BootState(true, ds[0])
    decreases |ds|
  {
    if ds != [] {
      FirstBootWins(BootStep(s, ds[0]), ds[1..]);
    }
  }

  /** The static part of the Observer class. PHP has one per process; here
      every observer is handed the object it reads, and the caller is the one
      who gives all observers the same one. */
  class ObserverStatics {
    var booted: bool
    var dispatcher: Dispatcher?

    ghost predicate Valid()
      reads this
    {
      booted <==> dispatcher != null
    }

    function State(): BootState
      reads this
    {
      BootState(booted, dispatcher)
    }

    /** `protected static $booted = false;` and a not yet assigned `$dispatcher`. */
    constructor ()
      ensures Valid() && State() == Unbooted
    {
      booted, dispatcher := false, null;
    }

    /** `Observer::boot`: stores the dispatcher and sets the flag the first time;
        later calls change nothing. Both paths return null in PHP, so nothing is returned. */
    method Boot(d: Dispatcher)
      requires Valid()
      modifies this
      ensures Valid()
      ensures State() == BootStep(old(State()), d)
    {
      if booted {
        return;
      }
      dispatcher := d;
      booted := true;
    }
  }

  /** The call `setFields` forwards to the held handler. */
  datatype SetFieldsCall = SetFieldsCall(target: Handler, fields: seq<string>)

  class Observer {
    /** The class's static fields, as handed to this observer. */
    const statics: ObserverStatics
    /** `$this->handler`: set only when the observer was constructed with a class name. */
    var handler: Handler?

    /** `new Observer($className)`: a truthy class name is registered with the
        booted dispatcher and the returned handler is held; otherwise nothing happens. */
    constructor (statics: ObserverStatics, className: Option<string>)
      requires statics.Valid()
      requires statics.dispatcher != null ==> statics.dispatcher.Valid()
      requires Truthy(className) ==> statics.booted
      modifies statics.dispatcher
      ensures this.statics == statics && statics.Valid()
      ensures statics.dispatcher != null ==> statics.dispatcher.Valid()
      ensures handler != null <==> Truthy(className)
      ensures Truthy(className) ==>
        && statics.dispatcher != null
        && statics.dispatcher.handlers == AfterRegister(old(statics.dispatcher.handlers), className.value, handler)
        && statics.dispatcher.handlers[className.value] == handler
        && (className.value in old(statics.dispatcher.handlers) ==> handler == old(statics.dispatcher.handlers[className.value]))
      ensures !Truthy(className) && statics.dispatcher != null ==> unchanged(statics.dispatcher)
    {
      this.statics := statics;
      var held: Handler? := null;
      if Truthy(className) {
        held := statics.dispatcher.Register(className.value);
      }
      this.handler := held;
    }

    /** What `getHandler(model)` yields: the booted dispatcher's `get` of the model's class. */
    function HandlerFor(model: Model): (r: Result<Handler>)
      reads statics, statics.dispatcher
    {
      if statics.dispatcher == null then Err(NotBooted) else Lookup(statics.dispatcher.handlers, model.className)
    }

    /** `getHandler`: fails exactly when the model's class was never registered
        (or the observer was never booted). */
    method GetHandler(model: Model) returns (r: Result<Handler>)
      ensures r == HandlerFor(model)
      ensures statics.dispatcher == null ==> r == Err(NotBooted)
      ensures statics.dispatcher != null ==>
        && (r.Ok? <==> model.className in statics.dispatcher.handlers)
        && (r.Ok? ==> r.value == statics.dispatcher.handlers[model.className])
        && (r.Err? ==> r.error == NoHandler(model.className))
    {
      if statics.dispatcher == null {
        return Err(NotBooted);
      }
      r := statics.dispatcher.Get(model.className);
    }

    /** `saving`: the handler's own `saving` (a stub in the repository, so a
        parameter here) applied to the handler of the model's class, its result unchanged. */
    method Saving<R>(model: Model, handlerSaving: (Handler, Model) -> R) returns (r: Result<R>)
      ensures HandlerFor(model).Err? ==> r == Err(HandlerFor(model).error)
      ensures HandlerFor(model).Ok? ==> r == Ok(handlerSaving(HandlerFor(model).value, model))
    {
      var h := GetHandler(model);
      if h.Err? {
        return Err(h.error);
      }
      r := Ok(handlerSaving(h.value, model));
    }

    /** `deleting`: routed like `saving`, through the handler's `deleting`. */
    method Deleting<R>(model: Model, handlerDeleting: (Handler, Model) -> R) returns (r: Result<R>)
      ensures HandlerFor(model).Err? ==> r == Err(HandlerFor(model).error)
      ensures HandlerFor(model).Ok? ==> r == Ok(handlerDeleting(HandlerFor(model).value, model))
    {
      var h := GetHandler(model);
      if h.Err? {
        return Err(h.error);
      }
      r := Ok(handlerDeleting(h.value, model));
    }

    /** `setFields($field, ...)`: forwards every argument to the held handler,
        or does nothing when none is held. */
    method SetFields(field: string, more: seq<string>) returns (call: Option<SetFieldsCall>)
      ensures call.None? <==> handler == null
      ensures handler != null ==> call == Some(SetFieldsCall(handler, [field] + more))
    {
      if handler == null {
        return None;
      }
      call := Some(SetFieldsCall(handler, [field] + more));
    }

    /** `config($key, $val)`: the held handler's `config` result, or null
        (None) when no handler is held. */
    method Config<V, R>(key: Option<string>, val: Option<V>,
                        handlerConfig: (Handler, Option<string>, Option<V>) -> R)
      returns (r: Option<R>)
      ensures r.None? <==> handler == null
      ensures handler != null ==> r == Some(handlerConfig(handler, key, val))
    {
      if handler == null {
        return None;
      }
      r := Some(handlerConfig(handler, key, val));
    }
  }

  /** A model whose class an observer registered is routed to the handler that
      registration returned, for any later sequence of dispatcher calls. */
  lemma {:induction false} RegisteredModelRoutes(m: map<string, Handler>, model: Model, created: Handler, cs: seq<Call>)
    ensures model.className in m ==>
      Lookup(Run(AfterRegister(m, model.className, created), cs), model.className) == Ok(m[model.className])
    ensures model.className !in m ==>
      Lookup(Run(AfterRegister(m, model.className, created), cs), model.className) == Ok(created)
  {
    RunKeepsEntries(AfterRegister(m, model.className, created), cs);
  }
}
