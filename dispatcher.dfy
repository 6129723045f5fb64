/** The handler registry of src/Translucent/S3Observer/Dispatcher.php: a table
    from model class name to the one Handler created for it. */
module Dispatching {
  import opened Handling

  /** What `get` throws, and what the observer runs into when it was never booted. */
  datatype Error =
    | NoHandler(modelName: string)   // "No handler is set for <name> model"
    | NotBooted                      // a call through the still-null static dispatcher

  datatype Result<T> = Ok(value: T) | Err(error: Error)

  /** The text of the exception, as the dispatcher builds it. */
  function Message(e: Error): string
  {
    match e
    case NoHandler(n) => "No handler is set for " + n + " model"
    case NotBooted => "Call to a member function get() on null"
  }

  /** Every stored handler was created for the name it is stored under. */
  ghost predicate TableValid(m: map<string, Handler>)
  {
    forall n :: n in m ==> m[n].modelName == n
  }

  /** The answer `get` gives on the table `m`. */
  function Lookup(m: map<string, Handler>, name: string): (r: Result<Handler>)
    ensures r.Ok? <==> name in m
    ensures r.Ok? ==> r.value == m[name]
    ensures r.Err? ==> r.error == NoHandler(name)
  {
    if name in m then Ok(m[name]) else Err(NoHandler(name))
  }

  /** The table after `register(name)`, where `created` is the handler the call
      allocates when `name` is not yet registered. */
  function AfterRegister(m: map<string, Handler>, name: string, created: Handler): (r: map<string, Handler>)
    ensures r.Keys == m.Keys + {name}
    ensures forall n :: n in m ==> r[n] == m[n]
    ensures name !in m ==> r[name] == created
    ensures name !in m ==> |r| == |m| + 1
    ensures name in m ==> r == m
  {
    if name in m then m else m[name := created]
  }

  class Dispatcher {
    /** `$handlers`: model class name to its handler. */
    var handlers: map<string, Handler>

    ghost predicate Valid()
      reads this
    {
      TableValid(handlers)
    }

    /** The table starts empty. The S3 client and the global configuration
        the PHP constructor receives are not part of this model. */
    constructor ()
      ensures Valid() && handlers == map[]
    {
      handlers := map[];
    }

    /** Idempotent registration: the stored handler if there is one, otherwise
        a new handler for `name`, stored under `name`. */
    method Register(name: string) returns (h: Handler)
      requires Valid()
      modifies this
      ensures Valid()
      ensures name in old(handlers) ==> h == old(handlers)[name] && handlers == old(handlers)
      ensures name !in old(handlers) ==> fresh(h) && h.modelName == name
      ensures handlers == AfterRegister(old(handlers), name, h)
      ensures Lookup(handlers, name) == Ok(h)
    {
      if name in handlers {
        return handlers[name];
      }
      h := new Handler(name);
      handlers := handlers[name := h];
    }

    /** Hard lookup: fails on a name that was never registered, and reads only. */
    method Get(name: string) returns (r: Result<Handler>)
      ensures r == Lookup(handlers, name)
      ensures r.Ok? <==> name in handlers
      ensures r.Err? ==> r.error == NoHandler(name) && Message(r.error) == "No handler is set for " + name + " model"
    {
      if name !in handlers {
        return Err(NoHandler(name));
      }
      r := Ok(handlers[name]);
    }
  }

  /** Two distinct names never share a handler in a valid table. */
  lemma HandlersAreDistinct(m: map<string, Handler>, a: string, b: string)
    requires TableValid(m)
    requires a in m && b in m && a != b
    ensures m[a] != m[b]
  {
  }

  /** Registering a name and then getting it yields the handler register returned. */
  lemma RegisterThenGet(m: map<string, Handler>, name: string, created: Handler)
    ensures name in m ==> Lookup(AfterRegister(m, name, created), name) == Ok(m[name])
    ensures name !in m ==> Lookup(AfterRegister(m, name, created), name) == Ok(created)
  {
  }

  /** The error message names the model, and different models give different messages. */
  lemma MessageNamesModel(a: string, b: string)
    ensures Message(NoHandler(a))[22..22 + |a|] == a
    ensures Message(NoHandler(a)) == Message(NoHandler(b)) ==> a == b
  {
  }

  /* ---- Sequences of dispatcher calls ---- */

  /** One call on the dispatcher; `created` is the handler a Register call
      allocates if it has to. */
  datatype Call = Register(name: string, created: Handler) | Get(name: string)

  function Step(m: map<string, Handler>, c: Call): map<string, Handler>
  {
    match c
    case Register(n, h) => AfterRegister(m, n, h)
    case Get(_) => m
  }

  /** The table after the calls `cs`, in order. */
  function Run(m: map<string, Handler>, cs: seq<Call>): map<string, Handler>
    decreases |cs|
  {
    if cs == [] then m else Run(Step(m, cs[0]), cs[1..])
  }

  /** The names that the calls `cs` register. */
  function RegisteredNames(cs: seq<Call>): set<string>
    decreases |cs|
  {
    if cs == [] then {}
    else (if cs[0].Register? then {cs[0].name} else {}) + RegisteredNames(cs[1..])
  }

  /** Every Register call allocates a handler for the name it registers, as
      `new Handler($modelName, ...)` does. */
  ghost predicate HandlersMatchNames(cs: seq<Call>)
  {
    forall i :: 0 <= i < |cs| && cs[i].Register? ==> cs[i].created.modelName == cs[i].name
  }

  /** No call removes or replaces a registration. */
  lemma {:induction false} RunKeepsEntries(m: map<string, Handler>, cs: seq<Call>)
    ensures m.Keys <= Run(m, cs).Keys
    ensures forall n :: n in m ==> Run(m, cs)[n] == m[n]
    decreases |cs|
  {
    if cs != [] {
      RunKeepsEntries(Step(m, cs[0]), cs[1..]);
    }
  }

  /** The key set grows by exactly the names registered, Get calls add nothing. */
  lemma {:induction false} RunKeys(m: map<string, Handler>, cs: seq<Call>)
    ensures Run(m, cs).Keys == m.Keys + RegisteredNames(cs)
    decreases |cs|
  {
    if cs != [] {
      RunKeys(Step(m, cs[0]), cs[1..]);
    }
  }

  /** The table invariant holds after any sequence of calls. */
  lemma {:induction false} RunKeepsValid(m: map<string, Handler>, cs: seq<Call>)
    requires TableValid(m) && HandlersMatchNames(cs)
    ensures TableValid(Run(m, cs))
    decreases |cs|
  {
    if cs != [] {
      assert TableValid(Step(m, cs[0]));
      assert HandlersMatchNames(cs[1..]) by {
        forall i | 0 <= i < |cs[1..]| && cs[1..][i].Register?
          ensures cs[1..][i].created.modelName == cs[1..][i].name
        {
          assert cs[1..][i] == cs[i + 1];
        }
      }
      RunKeepsValid(Step(m, cs[0]), cs[1..]);
    }
  }

  lemma {:induction false} RunAppend(m: map<string, Handler>, a: seq<Call>, b: seq<Call>)
    ensures Run(m, a + b) == Run(Run(m, a), b)
    decreases |a|
  {
    if a == [] {
      assert a + b == b;
    } else {
      assert (a + b)[0] == a[0];
      assert (a + b)[1..] == a[1..] + b;
      RunAppend(Step(m, a[0]), a[1..], b);
    }
  }

  /** The first registration of a name wins: whatever follows, that name stays
      mapped to the handler the first Register call created. */
  lemma {:induction false} FirstRegistrationWins(m: map<string, Handler>, cs: seq<Call>, i: nat)
    requires i < |cs| && cs[i].Register?
    requires cs[i].name !in Run(m, cs[..i])
    ensures cs[i].name in Run(m, cs)
    ensures Run(m, cs)[cs[i].name] == cs[i].created
  {
    var n, h := cs[i].name, cs[i].created;
    assert cs == cs[..i] + ([cs[i]] + cs[i + 1..]);
    RunAppend(m, cs[..i], [cs[i]] + cs[i + 1..]);
    var before := Run(m, cs[..i]);
    assert Run(before, [cs[i]] + cs[i + 1..]) == Run(Step(before, cs[i]), cs[i + 1..]) by {
      assert ([cs[i]] + cs[i + 1..])[0] == cs[i];
      assert ([cs[i]] + cs[i + 1..])[1..] == cs[i + 1..];
    }
    RunKeepsEntries(Step(before, cs[i]), cs[i + 1..]);
  }
}
