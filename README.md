# monster_mash request DSL and endpoint registry, in Dafny

This project models the core of `monster_mash`, a Ruby DSL for declaring HTTP
API calls. It has two parts:

- **`MonsterMash::Request`** (module `Requests`) is a per-call accumulator. It
  holds an `options` map seeded with `:method`, plus a uri slot and a handler
  slot. Ten generated accessors (`body`, `headers`, `timeout`,
  `cache_timeout`, `params`, `user_agent`, `follow_location`,
  `max_redirects`, `proxy`, `disable_ssl_peer_verification`) all go through
  `assign_or_return_option!`. A truthy value is merged in when the stored and
  incoming values are both hashes, and replaces the stored value otherwise. A
  nil or false value is a read. `valid?` rebuilds `errors` with one message
  per missing requirement.
- **`MonsterMash::Base`** (module `Endpoints`) is the class-level registry.
  `get`/`post`/`put`/`delete` forward to `build_method`. That method refuses
  a name the class already answers to; otherwise it installs a class-level
  (serial) and an instance-level (hydra) endpoint method. `defaults` holds one
  block per class. `execute` builds a request from the defaults block, runs
  the setup block with the call's arguments and validates the result. It then
  either applies the handler to a serial response or queues one entry on the
  hydra.

How the Ruby maps onto Dafny:

- Ruby values are `Values.Scalar` (nil, booleans, integers, strings,
  symbols) or one-level hashes (`Values.OptValue`). Truthiness is written
  out: only nil and false are falsy.
- A block given to the DSL (`Requests.Block`) is the list of DSL statements
  it runs for the arguments it receives (`Requests.DslCall`). `instance_exec`
  becomes running those statements in order against the request.
- The method table is an explicit name → `(verb, setup)` map
  (`Endpoints.Table`). Each class has its own `defaults` slot.
- The serial transport (`Typhoeus::Request.run`) is a function parameter
  (`Endpoints.Transport`). The hydra is an object holding a queue of pending
  entries (`Endpoints.Hydra`). Each entry's `on_complete` hook is
  `Endpoints.OnComplete`.

Files:

- `wrappers.dfy`: `Option` and `Result`.
- `values.dfy`: Ruby values, truthiness, verbs and the response.
- `request.dfy`: `MonsterMash::Request`.
- `base.dfy`: `MonsterMash::Base`.

The repository's own tests go beyond what lib/monster_mash/request.rb and
lib/monster_mash/base.rb implement.
spec/monster_mash/request_spec.rb:61-69 calls `apply_defaults` over a chain
of inherited defaults, and spec/monster_mash/request_spec.rb:117-148 expects
`base_uri` joining. lib/monster_mash/request.rb implements neither. This model
follows the library code:

- each class stores a single defaults block, which is not inherited;
- `uri` simply stores the last truthy value;
- the handler is applied to every response, with no status check;
- the on_complete hook calls the caller's block with the handler's result.

## Model

| member | source | states |
|---|---|---|
| Values.VerbSymbol | lib/monster_mash/request.rb:12 | the verb is stored under `:method` as a truthy symbol |
| Values.VerbSymbolInjective | lib/monster_mash/request.rb:12 | distinct verbs are stored as distinct symbols, so `options[:method]` identifies the verb |
| Requests.Combine | lib/monster_mash/request.rb:71-75 | two hashes merge one level deep: incoming keys overwrite and keys only in the stored hash survive; in every other case the incoming value replaces the stored one; the result of a truthy write is truthy |
| Requests.AssignOption | lib/monster_mash/request.rb:68-79 | a nil/false value leaves the options unchanged; a truthy one adds exactly its key, holding the combined value; a truthy scalar reads back as itself; every other key keeps its value |
| Requests.AssignUri | lib/monster_mash/request.rb:42-47 | a truthy uri replaces the stored one (last write wins); nil or false leaves it |
| Requests.AssignHandler | lib/monster_mash/request.rb:49-54 | a given block replaces the handler; no block leaves it |
| Requests.Fresh | lib/monster_mash/request.rb:8-14 | before its block runs, a new request's options are exactly `{method: verb}`, with no uri and no handler |
| Requests.Errors | lib/monster_mash/request.rb:28-40 | one message per missing item among {handler, uri}, so 0, 1 or 2; the handler message comes first; the list is empty iff both are set |
| Requests.RunCallsAppend | lib/monster_mash/request.rb:16-18 | running two statement lists one after the other equals running their concatenation |
| Requests.RunCallsKeepsWellFormed | lib/monster_mash/request.rb:57-65 | no DSL statement can change `:method` (no generated accessor exists for it; direct `options` writes, from a block or elsewhere, are not modelled), and no falsy uri is ever stored |
| Requests.UntouchedUriKept | lib/monster_mash/request.rb:42-47 | `@uri` keeps its value through any statements none of which passes `uri` a truthy value |
| Requests.UntouchedHandlerKept | lib/monster_mash/request.rb:49-54 | `@handler` keeps its value through any statements none of which passes `handler` a block |
| Requests.UntouchedOptionKept | lib/monster_mash/request.rb:68-79 | an option that no statement writes with a truthy value keeps its value through a whole block |
| Requests.LastWriteDecides | lib/monster_mash/request.rb:68-79 | an option's value after a block is its last truthy write, combined with the value stored before that write |
| Requests.Request.constructor | lib/monster_mash/request.rb:8-14 | the new request holds `{method: verb}` with the block's statements for the given arguments applied; `errors` is nil; the invariant holds |
| Requests.Request.ExecuteDsl | lib/monster_mash/request.rb:16-18 | without a block nothing changes; with a block, its statements for exactly these arguments run in order; the invariant is kept |
| Requests.Request.Perform | lib/monster_mash/request.rb:17 | one statement of a block updates the request exactly as its DSL method does |
| Requests.Request.IsValid | lib/monster_mash/request.rb:28-40 | `errors` is reset and rebuilt as the missing-item messages; the result is true iff both the handler and the uri are set |
| Requests.Request.Uri | lib/monster_mash/request.rb:42-47 | stores a truthy value and returns the stored uri; only the uri slot may change |
| Requests.Request.SetHandler | lib/monster_mash/request.rb:49-54 | stores a given block and returns the stored handler; without a block it only reads |
| Requests.Request.AssignOrReturnOption | lib/monster_mash/request.rb:57-79 | updates `options` per the merge/replace rule and touches no other field; the return value is what `options[key]` then holds |
| Endpoints.Register | lib/monster_mash/base.rb:27-31 | fails with the name iff the class already answers to it; otherwise adds exactly `name → (verb, setup)` and keeps every other entry |
| Endpoints.RegisterTwiceFails | lib/monster_mash/base.rb:28-29 | after a successful registration, registering the same name again fails whatever the verb |
| Endpoints.Dispatch | lib/monster_mash/base.rb:60-78 | fails with InvalidRequest (1 or 2 messages) iff the request is not valid; serially, the result is the handler applied to the transport's response; on a hydra, only `Enqueued` |
| Endpoints.Entry | lib/monster_mash/base.rb:67-72 | the queued entry carries the built uri, the built options, the handler and the caller's block |
| Endpoints.OnComplete | lib/monster_mash/base.rb:68-71 | on completion the handler runs first and the caller's block gets its result; with no block the hook fails |
| Endpoints.DefaultsThenSetup | lib/monster_mash/base.rb:54-57 | building runs the defaults block's statements and then the setup block's |
| Endpoints.BuiltKeepsVerb | lib/monster_mash/base.rb:54-57 | whatever the defaults and setup blocks do, `options[:method]` is the endpoint's verb |
| Endpoints.SetupScalarOverridesDefaults | lib/monster_mash/base.rb:54-57 | a scalar written last by the setup block overrides any default |
| Endpoints.SetupHashMergesIntoDefaults | lib/monster_mash/base.rb:54-57 | a hash the setup block writes to an option (among any other statements that do not write that option) merges into a hash the defaults left: setup keys win, other default keys survive |
| Endpoints.SerialAndQueuedAgree | lib/monster_mash/base.rb:61-72 | for the same request and response, the serial result is what the queued path passes to the caller's block |
| Endpoints.Hydra.Queue | lib/monster_mash/base.rb:72 | queueing appends exactly one entry |
| Endpoints.ApiClass.constructor | lib/monster_mash/base.rb:81-87 | a new class has no endpoints and a nil defaults block |
| Endpoints.ApiClass.BuildMethod | lib/monster_mash/base.rb:27-50 | raises (and registers nothing) iff the class already answers to the name; otherwise the class and its instances answer to it, with this verb and setup |
| Endpoints.ApiClass.Get | lib/monster_mash/base.rb:11-13 | `build_method` with the GET verb and the same name and block |
| Endpoints.ApiClass.Post | lib/monster_mash/base.rb:15-17 | `build_method` with the POST verb and the same name and block |
| Endpoints.ApiClass.Put | lib/monster_mash/base.rb:19-21 | `build_method` with the PUT verb and the same name and block |
| Endpoints.ApiClass.Delete | lib/monster_mash/base.rb:23-25 | `build_method` with the DELETE verb and the same name and block |
| Endpoints.ApiClass.Defaults | lib/monster_mash/base.rb:81-87 | a given block is stored; the stored block is returned; only this class's slot changes |
| Endpoints.ApiClass.Execute | lib/monster_mash/base.rb:52-79 | builds defaults then setup, validates, and returns the `Dispatch` outcome; exactly one entry is queued iff a hydra is present and the request is valid, and none otherwise |
| Endpoints.ApiClass.Call | lib/monster_mash/base.rb:44-48 | the class-level endpoint method runs `execute` with no hydra and no block, so it either fails or returns the handler's result; an unregistered name fails |
| Endpoints.Api.constructor | lib/monster_mash/base.rb:6-9 | an instance keeps its class, its hydra and its options |
| Endpoints.Api.Call | lib/monster_mash/base.rb:32-42 | the instance-level endpoint method runs `execute` with the instance's hydra and the caller's block; a name the instance does not respond to fails and queues nothing |
| Endpoints.DefaultsArePerClass | lib/monster_mash/base.rb:81-87 | setting defaults on one class leaves another class's defaults nil |
| Endpoints.DuplicateNameRejected | lib/monster_mash/base.rb:28-29 | a name registered with `get` cannot be registered again with any verb, and the first registration stays |

## Left out

- The transport: `build_request` and `run_serial_request` call into Typhoeus. The serial run is the `Transport` parameter, and the response is opaque. The hydra's run loop and its concurrency are not modelled; the hydra is only its queue.
- Ruby metaprogramming: `instance_exec`, `class_eval` string definitions, `define_method`, singleton classes and the `__real__<name>` proxy method. These become the explicit endpoint table and the `Call` dispatchers.
- Blocks: a block is modelled as the list of DSL statements it runs for its arguments. A block that reads the request and branches on the value, or that has other side effects, is not captured.
- Option values: hash values are scalars (one level), and option values are immutable. So `merge!` mutating a hash the caller passed in earlier (aliasing) is not modelled. Hashes are maps, so the insertion order of their keys is not modelled. In Ruby that order is kept by `merge!` and decides the order in which params reach the transport.
- Handler results and the caller's block results are scalars. Handlers cannot raise in the model.
- Endpoints.ApiClass.BuildMethod: the names a class answers to besides its own endpoints form a fixed set (`builtin`). Endpoints inherited live from a superclass, and later additions to that superclass, are not tracked. Neither are instance-level Ruby built-ins.
- The text of the InvalidRequest message is not modelled; the error carries the `errors` list instead.
- Direct writes through `attr_accessor :options`/`:errors` are not modelled, whether from a block (which runs with the request as `self`) or from elsewhere. Only the generated accessors, `uri` and `handler` change the request, so `:method` stays fixed.
- Base-URI joining, `apply_defaults` over an inherited defaults chain, HTTP status-code checks and capture of handler errors in batched mode are not in the modelled code, so they are not modelled.
