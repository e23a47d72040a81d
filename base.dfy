/** The per-class endpoint registry: `get`/`post`/`put`/`delete` register a
    name with its verb and setup block, `defaults` holds one block per
    class, and `execute` builds, validates and dispatches a request either
    serially or onto a hydra's queue. */
module Endpoints {
  import opened Wrappers
  import opened Values
  import opened Requests

  /** What registering a name installs: its verb and its setup block. */
  datatype Endpoint = Endpoint(verb: Verb, setup: Option<Block>)

  /** The method table of one class: endpoint name to descriptor. */
  type Table = map<string, Endpoint>

  datatype Error =
    | NameInUse(name: string)                   // ArgumentError from build_method
    | InvalidRequest(messages: seq<string>)     // MonsterMash::InvalidRequest
    | NoMethod(name: string)                    // calling a name nobody registered
    | NilCallback                               // `block.call` on a nil block

  /** What `execute` returns: the handler's result (serial), or nothing
      yet because the request was queued (hydra). */
  datatype Dispatched = Returned(value: Scalar) | Enqueued

  /** `Typhoeus::Request.run(uri, options)`: the serial transport. */
  type Transport = (Scalar, Options) -> Response

  /** The block a caller passes to an instance-level endpoint method. */
  type Callback = Scalar -> Scalar

  /** A request queued on a hydra: the uri and options it was built from,
      the handler, and the caller's block, run by its on_complete hook. */
  datatype Pending = Pending(uri: Scalar, options: Options, handler: Handler, callback: Option<Callback>)

  /** `build_method`'s decision: refuse a name the class already answers to,
      otherwise add exactly that entry. */
  function Register(builtin: set<string>, table: Table, verb: Verb, name: string, setup: Option<Block>): (r: Result<Table, Error>)
    ensures r.Failure? <==> name in builtin || name in table
    ensures r.Failure? ==> r.error == NameInUse(name)
    ensures r.Success? ==> r.value.Keys == table.Keys + {name} && r.value[name] == Endpoint(verb, setup)
    ensures r.Success? ==> forall n :: n in table ==> r.value[n] == table[n]
  {
    if name in builtin || name in table then Failure(NameInUse(name))
    else Success(table[name := Endpoint(verb, setup)])
  }

  /** Once a name is registered, registering it again fails whatever the
      verb and block of the second attempt. */
  lemma RegisterTwiceFails(builtin: set<string>, table: Table, verb: Verb, name: string, setup: Option<Block>,
                           verb2: Verb, setup2: Option<Block>)
    requires Register(builtin, table, verb, name, setup).Success?
    ensures Register(builtin, Register(builtin, table, verb, name, setup).value, verb2, name, setup2)
         == Failure(NameInUse(name))
  {
  }

  /** The request `execute` builds: the class's defaults block (with no
      arguments), then the setup block with the call's arguments. */
  function Built(verb: Verb, defaults: Option<Block>, args: Args, setup: Option<Block>): Config {
    RunBlock(RunBlock(Fresh(verb), defaults, []), setup, args)
  }

  /** `execute`'s outcome for a built request: InvalidRequest when `valid?`
      fails; otherwise, serially, the handler applied to the transport's
      response; on a hydra, only the news that it was queued. */
  function Dispatch(c: Config, queued: bool, transport: Transport): (r: Result<Dispatched, Error>)
    ensures r.Failure? <==> !Ready(c)
    ensures r.Failure? ==> r.error.InvalidRequest? && 1 <= |r.error.messages| <= 2
    ensures Ready(c) && !queued ==> r == Success(Returned(c.handler.value(transport(c.uri, c.options))))
    ensures queued ==> r.Success? ==> r.value == Enqueued
  {
    if !Ready(c) then Failure(InvalidRequest(Errors(c)))
    else if queued then Success(Enqueued)
    else Success(Returned(c.handler.value(transport(c.uri, c.options))))
  }

  /** The queue entry `execute` makes for a valid request. */
  function Entry(c: Config, callback: Option<Callback>): (p: Pending)
    requires c.handler.Some?
    ensures p.uri == c.uri && p.options == c.options && p.handler == c.handler.value && p.callback == callback
  {
    Pending(c.uri, c.options, c.handler.value, callback)
  }

  /** The on_complete hook of a queued request: the handler first, then the
      caller's block on the handler's result; a nil block fails. */
  function OnComplete(p: Pending, response: Response): (r: Result<Scalar, Error>)
    ensures r.Success? <==> p.callback.Some?
    ensures r.Failure? ==> r.error == NilCallback
    ensures r.Success? ==> r.value == p.callback.value(p.handler(response))
  {
    if p.callback.None? then Failure(NilCallback)
    else Success(p.callback.value(p.handler(response)))
  }

  /** The defaults block runs before the setup block: building is running
      the defaults' statements followed by the setup's. */
  lemma DefaultsThenSetup(verb: Verb, defaults: Block, args: Args, setup: Block)
    ensures Built(verb, Some(defaults), args, Some(setup)) == RunCalls(Fresh(verb), defaults([]) + setup(args))
  {
    RunCallsAppend(Fresh(verb), defaults([]), setup(args));
  }

  /** No defaults or setup block can change the verb stored under `:method`. */
  lemma BuiltKeepsVerb(verb: Verb, defaults: Option<Block>, args: Args, setup: Option<Block>)
    ensures Stored(Built(verb, defaults, args, setup).options, Method) == Plain(VerbSymbol(verb))
  {
    var d := RunBlock(Fresh(verb), defaults, []);
    if defaults.Some? {
      RunCallsKeepsWellFormed(Fresh(verb), verb, defaults.value([]));
    }
    if setup.Some? {
      RunCallsKeepsWellFormed(d, verb, setup.value(args));
    }
  }

  /** A scalar the setup block writes last to an option overrides whatever
      the defaults left there. */
  lemma SetupScalarOverridesDefaults(verb: Verb, defaults: Option<Block>, args: Args, setup: Block,
                                     pre: seq<DslCall>, key: SettableKey, value: Scalar, post: seq<DslCall>)
    requires TruthyScalar(value)
    requires setup(args) == pre + [OptionCall(key, Plain(value))] + post
    requires forall i :: 0 <= i < |post| ==> !Touches(post[i], key)
    ensures Stored(Built(verb, defaults, args, Some(setup)).options, key) == Plain(value)
  {
    LastWriteDecides(RunBlock(Fresh(verb), defaults, []), pre, key, Plain(value), post);
  }

  /** A hash the setup block gives an option the defaults left a hash in is
      merged into it: keys from the setup win, other default keys survive.
      The setup block may make any other statements around that write. */
  lemma SetupHashMergesIntoDefaults(verb: Verb, defaults: Option<Block>, args: Args, setup: Block,
                                    pre: seq<DslCall>, key: SettableKey, fromDefaults: map<Scalar, Scalar>,
                                    fromSetup: map<Scalar, Scalar>, post: seq<DslCall>)
    requires Stored(RunBlock(Fresh(verb), defaults, []).options, key) == Hash(fromDefaults)
    requires setup(args) == pre + [OptionCall(key, Hash(fromSetup))] + post
    requires forall i :: 0 <= i < |pre| ==> !Touches(pre[i], key)
    requires forall i :: 0 <= i < |post| ==> !Touches(post[i], key)
    ensures Stored(Built(verb, defaults, args, Some(setup)).options, key) == Hash(fromDefaults + fromSetup)
  {
    var d := RunBlock(Fresh(verb), defaults, []);
    LastWriteDecides(d, pre, key, Hash(fromSetup), post);
    UntouchedOptionKept(d, pre, key);
  }

  /** For the same request and response, the serial path returns what the
      queued path hands to the caller's block. */
  lemma SerialAndQueuedAgree(c: Config, transport: Transport, callback: Callback)
    requires Ready(c)
    ensures Dispatch(c, false, transport).Success?
    ensures OnComplete(Entry(c, Some(callback)), transport(c.uri, c.options))
         == Success(callback(Dispatch(c, false, transport).value.value))
  {
  }

  /** The concurrent executor, reduced to its queue. */
  class Hydra {
    var queue: seq<Pending>

    constructor ()
      ensures queue == []
    {
      queue := [];
    }

    /** `hydra.queue(request)`. */
    method Queue(p: Pending)
      modifies this
      ensures queue == old(queue) + [p]
    {
      queue := queue + [p];
    }
  }

  /** A subclass of `MonsterMash::Base`, with its class-level state. */
  class ApiClass {
    /** The names the class answers to besides its own endpoints (Ruby's
        and Base's class methods, endpoints of superclasses). */
    const builtin: set<string>
    var endpoints: Table
    var defaults: Option<Block>

    constructor (builtin: set<string>)
      ensures this.builtin == builtin && endpoints == map[] && defaults == None
    {
      this.builtin := builtin;
      endpoints := map[];
      defaults := None;
    }

    /** `respond_to?(name)` on the class. */
    predicate RespondsTo(name: string)
      reads this
    {
      name in builtin || name in endpoints
    }

    /** `respond_to?(name)` on an instance, for endpoint names. */
    predicate InstancesRespondTo(name: string)
      reads this
    {
      name in endpoints
    }

    /** `build_method(http_method, name, &setup_block)`. */
    method BuildMethod(verb: Verb, name: string, setup: Option<Block>) returns (r: Result<(), Error>)
      modifies this`endpoints
      ensures var reg := Register(builtin, old(endpoints), verb, name, setup);
        && (reg.Failure? ==> r == Failure(reg.error) && endpoints == old(endpoints))
        && (reg.Success? ==> r == Success(()) && endpoints == reg.value)
      ensures r.Failure? <==> old(RespondsTo(name))
      ensures r.Success? ==> RespondsTo(name) && InstancesRespondTo(name) && endpoints[name] == Endpoint(verb, setup)
    {
      if RespondsTo(name) {
        r := Failure(NameInUse(name));
      } else {
        endpoints := endpoints[name := Endpoint(verb, setup)];
        r := Success(());
      }
    }

    /** `get(name, &setup_block)`. */
    method Get(name: string, setup: Option<Block>) returns (r: Result<(), Error>)
      modifies this`endpoints
      ensures var reg := Register(builtin, old(endpoints), Verb.Get, name, setup);
        && (reg.Failure? ==> r == Failure(reg.error) && endpoints == old(endpoints))
        && (reg.Success? ==> r == Success(()) && endpoints == reg.value)
    {
      r := BuildMethod(Verb.Get, name, setup);
    }

    /** `post(name, &setup_block)`. */
    method Post(name: string, setup: Option<Block>) returns (r: Result<(), Error>)
      modifies this`endpoints
      ensures var reg := Register(builtin, old(endpoints), Verb.Post, name, setup);
        && (reg.Failure? ==> r == Failure(reg.error) && endpoints == old(endpoints))
        && (reg.Success? ==> r == Success(()) && endpoints == reg.value)
    {
      r := BuildMethod(Verb.Post, name, setup);
    }

    /** `put(name, &setup_block)`. */
    method Put(name: string, setup: Option<Block>) returns (r: Result<(), Error>)
      modifies this`endpoints
      ensures var reg := Register(builtin, old(endpoints), Verb.Put, name, setup);
        && (reg.Failure? ==> r == Failure(reg.error) && endpoints == old(endpoints))
        && (reg.Success? ==> r == Success(()) && endpoints == reg.value)
    {
      r := BuildMethod(Verb.Put, name, setup);
    }

    /** `delete(name, &setup_block)`. */
    method Delete(name: string, setup: Option<Block>) returns (r: Result<(), Error>)
      modifies this`endpoints
      ensures var reg := Register(builtin, old(endpoints), Verb.Delete, name, setup);
        && (reg.Failure? ==> r == Failure(reg.error) && endpoints == old(endpoints))
        && (reg.Success? ==> r == Success(()) && endpoints == reg.value)
    {
      r := BuildMethod(Verb.Delete, name, setup);
    }

    /** `defaults(&block)`: stores a given block, then returns this class's
        block (nil until set). */
    method Defaults(block: Option<Block>) returns (r: Option<Block>)
      modifies this`defaults
      ensures defaults == (if block.Some? then block else old(defaults))
      ensures r == defaults
    {
      if block.Some? {
        defaults := block;
      }
      r := defaults;
    }

    /** `execute(http_method, hydra, block, *args, &setup_block)`. */
    method Execute(verb: Verb, hydra: Hydra?, callback: Option<Callback>, args: Args, setup: Option<Block>,
                   transport: Transport) returns (r: Result<Dispatched, Error>)
      modifies hydra
      ensures r == Dispatch(Built(verb, defaults, args, setup), hydra != null, transport)
      ensures hydra != null ==>
        var c := Built(verb, defaults, args, setup);
        hydra.queue == old(hydra.queue) + (if Ready(c) then [Entry(c, callback)] else [])
    {
      var request := new Request(verb, [], defaults);
      request.ExecuteDsl(args, setup);
      var ok := request.IsValid();
      if ok {
        if hydra == null {
          var response := transport(request.uri, request.options);
          var result := request.handler.value(response);
          r := Success(Returned(result));
        } else {
          hydra.Queue(Pending(request.uri, request.options, request.handler.value, callback));
          r := Success(Enqueued);
        }
      } else {
        r := Failure(InvalidRequest(request.errors.value));
      }
    }

    /** The class-level (serial) endpoint method `name(*args)`: `execute`
        with no hydra and no block. */
    method Call(name: string, args: Args, transport: Transport) returns (r: Result<Dispatched, Error>)
      ensures name !in endpoints ==> r == Failure(NoMethod(name))
      ensures name in endpoints ==>
        r == Dispatch(Built(endpoints[name].verb, defaults, args, endpoints[name].setup), false, transport)
      ensures r.Success? ==> r.value.Returned?
    {
      if name in endpoints {
        var e := endpoints[name];
        r := Execute(e.verb, null, None, args, e.setup, transport);
      } else {
        r := Failure(NoMethod(name));
      }
    }
  }

  /** An instance of an API class, holding the shared hydra. */
  class Api {
    const klass: ApiClass
    var hydra: Hydra?
    var options: map<Scalar, Scalar>

    /** `initialize(hydra, options = {})`. */
    constructor (klass: ApiClass, hydra: Hydra?, options: map<Scalar, Scalar>)
      ensures this.klass == klass && this.hydra == hydra && this.options == options
    {
      this.klass := klass;
      this.hydra := hydra;
      this.options := options;
    }

    /** `respond_to?(name)` on the instance, for endpoint names. */
    predicate RespondsTo(name: string)
      reads this, klass
    {
      klass.InstancesRespondTo(name)
    }

    /** The instance-level (batched) endpoint method `name(*args, &block)`:
        `execute` with this instance's hydra and the caller's block. */
    method Call(name: string, args: Args, callback: Option<Callback>, transport: Transport)
      returns (r: Result<Dispatched, Error>)
      modifies hydra
      ensures !RespondsTo(name) ==> r == Failure(NoMethod(name)) && (hydra != null ==> hydra.queue == old(hydra.queue))
      ensures name in klass.endpoints ==>
        var e := klass.endpoints[name];
        var c := Built(e.verb, klass.defaults, args, e.setup);
        && r == Dispatch(c, hydra != null, transport)
        && (hydra != null ==> hydra.queue == old(hydra.queue) + (if Ready(c) then [Entry(c, callback)] else []))
    {
      if name in klass.endpoints {
        var e := klass.endpoints[name];
        r := klass.Execute(e.verb, hydra, callback, args, e.setup, transport);
      } else {
        r := Failure(NoMethod(name));
      }
    }
  }

  /** `defaults` is per class: setting it on one class leaves another
      class's defaults nil. */
  method DefaultsArePerClass(block: Block) returns (mine: Option<Block>, other: Option<Block>)
    ensures mine == Some(block) && other == None
  {
    var base := new ApiClass({"defaults", "get", "post", "put", "delete"});
    var sub := new ApiClass({"defaults", "get", "post", "put", "delete"});
    var _ := sub.Defaults(Some(block));
    mine := sub.Defaults(None);
    other := base.Defaults(None);
  }

  /** A second registration of a name is refused, whatever its verb, and the
      first registration stays in force. */
  method DuplicateNameRejected(builtin: set<string>, name: string, setup: Option<Block>, verb2: Verb, setup2: Option<Block>)
    returns (first: Result<(), Error>, second: Result<(), Error>, kept: Endpoint)
    requires name !in builtin
    ensures first.Success? && second == Failure(NameInUse(name))
    ensures kept == Endpoint(Verb.Get, setup)
  {
    var api := new ApiClass(builtin);
    first := api.Get(name, setup);
    second := api.BuildMethod(verb2, name, setup2);
    kept := api.endpoints[name];
  }
}
