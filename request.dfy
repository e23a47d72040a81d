/** The per-call request accumulator: an options map seeded with the
    verb, a uri slot and a handler slot, all written through the DSL. */
module Requests {
  import opened Wrappers
  import opened Values

  /** The keys of the options map: `:method` plus the ten transport options
      that have a generated accessor. */
  datatype OptKey =
    | Method | Body | Headers | Timeout | CacheTimeout | Params
    | UserAgent | FollowLocation | MaxRedirects | Proxy | DisableSslPeerVerification

  /** The keys a DSL accessor exists for; `:method` has none. */
  type SettableKey = k: OptKey | k != Method witness Body

  type Options = map<OptKey, OptValue>

  /** A block given to `handler`: turns the transport's response into the
      value the caller sees. */
  type Handler = Response -> Scalar

  /** Positional arguments passed on to a block. */
  type Args = seq<Scalar>

  /** One statement of a DSL block: a call of an option accessor, of `uri` or
      of `handler`. An accessor or `uri` given nil, or `handler` given no
      block, is a read. */
  datatype DslCall =
    | OptionCall(key: SettableKey, value: OptValue)
    | UriCall(uri: Scalar)
    | HandlerCall(block: Option<Handler>)

  /** A setup or defaults block: the DSL calls it makes, given its arguments. */
  type Block = Args -> seq<DslCall>

  /** The state a block can change: the options map, `@uri` and `@handler`. */
  datatype Config = Config(options: Options, uri: Scalar, handler: Option<Handler>)

  /** What `options[name]` reads: nil for a key never assigned. */
  function Stored(options: Options, key: OptKey): OptValue {
    if key in options then options[key] else Plain(Nil)
  }

  /** The new value of an option that is given a truthy value: a one-level
      merge when both are hashes, otherwise a replacement. */
  function Combine(current: OptValue, incoming: OptValue): (r: OptValue)
    ensures current.Hash? && incoming.Hash? ==>
      && r.Hash?
      && r.entries.Keys == current.entries.Keys + incoming.entries.Keys
      && (forall x :: x in incoming.entries ==> r.entries[x] == incoming.entries[x])
      && (forall x :: x in current.entries && x !in incoming.entries ==> r.entries[x] == current.entries[x])
    ensures !(current.Hash? && incoming.Hash?) ==> r == incoming
    ensures Truthy(incoming) ==> Truthy(r)
  {
    if current.Hash? && incoming.Hash? then Hash(current.entries + incoming.entries) else incoming
  }

  /** The options map after an accessor call `key(value)`. */
  function AssignOption(options: Options, key: SettableKey, value: OptValue): (r: Options)
    ensures !Truthy(value) ==> r == options
    ensures Truthy(value) ==> r.Keys == options.Keys + {key} && r[key] == Combine(Stored(options, key), value)
    ensures Truthy(value) && value.Plain? ==> Stored(r, key) == value
    ensures forall k :: k != key ==> Stored(r, k) == Stored(options, k)
  {
    if Truthy(value) then options[key := Combine(Stored(options, key), value)] else options
  }

  /** `@uri` after `uri(value)`: last truthy write wins. */
  function AssignUri(current: Scalar, value: Scalar): (r: Scalar)
    ensures TruthyScalar(value) ==> r == value
    ensures !TruthyScalar(value) ==> r == current
  {
    if TruthyScalar(value) then value else current
  }

  /** `@handler` after `handler(&block)`: last given block wins. */
  function AssignHandler(current: Option<Handler>, block: Option<Handler>): (r: Option<Handler>)
    ensures block.Some? ==> r == block
    ensures block.None? ==> r == current
  {
    if block.Some? then block else current
  }

  /** The effect of one DSL statement. */
  function Step(c: Config, call: DslCall): Config {
    match call
    case OptionCall(k, v) => c.(options := AssignOption(c.options, k, v))
    case UriCall(u) => c.(uri := AssignUri(c.uri, u))
    case HandlerCall(h) => c.(handler := AssignHandler(c.handler, h))
  }

  /** The effect of a sequence of DSL statements, run in order. */
  function RunCalls(c: Config, calls: seq<DslCall>): Config
    decreases |calls|
  {
    if calls == [] then c else RunCalls(Step(c, calls[0]), calls[1..])
  }

  /** `execute_dsl(*args, &block)`: nothing without a block, otherwise the
      block's statements for these arguments. */
  function RunBlock(c: Config, block: Option<Block>, args: Args): Config {
    if block.None? then c else RunCalls(c, block.value(args))
  }

  /** A request just created for `verb`, before its block runs. */
  function Fresh(verb: Verb): (c: Config)
    ensures c.options == map[Method := Plain(VerbSymbol(verb))]
    ensures Stored(c.options, Method) == Plain(VerbSymbol(verb))
    ensures c.uri == Nil && c.handler == None
  {
    Config(map[Method := Plain(VerbSymbol(verb))], Nil, None)
  }

  /** Whether an option statement writes `key`. */
  predicate Touches(call: DslCall, key: OptKey) {
    call.OptionCall? && call.key == key && Truthy(call.value)
  }

  /** The state invariant of a request for `verb`: `:method` holds the
      verb, and `@uri` is nil or truthy (a falsy uri is never stored). */
  predicate WellFormed(c: Config, verb: Verb) {
    && Stored(c.options, Method) == Plain(VerbSymbol(verb))
    && (c.uri == Nil || TruthyScalar(c.uri))
  }

  /** True when both requirements of `valid?` hold. */
  predicate Ready(c: Config) {
    c.handler.Some? && TruthyScalar(c.uri)
  }

  const HandlerMissing: string := "You need to set a handler block."
  const UriMissing: string := "You need to set a uri."

  /** The list `valid?` builds: one message per missing requirement,
      the handler's first. */
  function Errors(c: Config): (r: seq<string>)
    ensures |r| == (if c.handler.None? then 1 else 0) + (if TruthyScalar(c.uri) then 0 else 1)
    ensures r == [] <==> Ready(c)
    ensures c.handler.None? ==> r[0] == HandlerMissing
    ensures !TruthyScalar(c.uri) ==> r[|r| - 1] == UriMissing
    ensures forall m :: m in r ==> m == HandlerMissing || m == UriMissing
  {
    (if c.handler.None? then [HandlerMissing] else []) + (if TruthyScalar(c.uri) then [] else [UriMissing])
  }

  /** Running `a` then `b` is running `a + b`. */
  lemma {:induction false} RunCallsAppend(c: Config, a: seq<DslCall>, b: seq<DslCall>)
    ensures RunCalls(c, a + b) == RunCalls(RunCalls(c, a), b)
    decreases |a|
  {
    if a == [] {
      assert a + b == b;
    } else {
      assert (a + b)[0] == a[0];
      assert (a + b)[1..] == a[1..] + b;
      RunCallsAppend(Step(c, a[0]), a[1..], b);
    }
  }

  /** One more statement at the end is one more step. */
  lemma RunCallsSnoc(c: Config, a: seq<DslCall>, call: DslCall)
    ensures RunCalls(c, a + [call]) == Step(RunCalls(c, a), call)
  {
    RunCallsAppend(c, a, [call]);
    assert [call][1..] == [];
  }

  /** No DSL statement can change `:method` or store a falsy uri. */
  lemma {:induction false} RunCallsKeepsWellFormed(c: Config, verb: Verb, calls: seq<DslCall>)
    requires WellFormed(c, verb)
    ensures WellFormed(RunCalls(c, calls), verb)
    decreases |calls|
  {
    if calls != [] {
      RunCallsKeepsWellFormed(Step(c, calls[0]), verb, calls[1..]);
    }
  }

  /** An option no statement writes keeps its value. */
  lemma {:induction false} UntouchedOptionKept(c: Config, calls: seq<DslCall>, key: OptKey)
    requires forall i :: 0 <= i < |calls| ==> !Touches(calls[i], key)
    ensures Stored(RunCalls(c, calls).options, key) == Stored(c.options, key)
    decreases |calls|
  {
    if calls != [] {
      assert !Touches(calls[0], key);
      UntouchedOptionKept(Step(c, calls[0]), calls[1..], key);
    }
  }

  /** `@uri` keeps its value through statements none of which sets a
      truthy uri. */
  lemma {:induction false} UntouchedUriKept(c: Config, calls: seq<DslCall>)
    requires forall i :: 0 <= i < |calls| ==> !(calls[i].UriCall? && TruthyScalar(calls[i].uri))
    ensures RunCalls(c, calls).uri == c.uri
    decreases |calls|
  {
    if calls != [] {
      assert !(calls[0].UriCall? && TruthyScalar(calls[0].uri));
      UntouchedUriKept(Step(c, calls[0]), calls[1..]);
    }
  }

  /** `@handler` keeps its value through statements none of which gives
      `handler` a block. */
  lemma {:induction false} UntouchedHandlerKept(c: Config, calls: seq<DslCall>)
    requires forall i :: 0 <= i < |calls| ==> !(calls[i].HandlerCall? && calls[i].block.Some?)
    ensures RunCalls(c, calls).handler == c.handler
    decreases |calls|
  {
    if calls != [] {
      assert !(calls[0].HandlerCall? && calls[0].block.Some?);
      UntouchedHandlerKept(Step(c, calls[0]), calls[1..]);
    }
  }

  /** The value of an option after a block is decided by the block's last
      write to it, combined with what was stored before that write. */
  lemma LastWriteDecides(c: Config, pre: seq<DslCall>, key: SettableKey, value: OptValue, post: seq<DslCall>)
    requires Truthy(value)
    requires forall i :: 0 <= i < |post| ==> !Touches(post[i], key)
    ensures Stored(RunCalls(c, pre + [OptionCall(key, value)] + post).options, key)
         == Combine(Stored(RunCalls(c, pre).options, key), value)
  {
    var mid := RunCalls(c, pre + [OptionCall(key, value)]);
    RunCallsAppend(c, pre + [OptionCall(key, value)], post);
    RunCallsSnoc(c, pre, OptionCall(key, value));
    UntouchedOptionKept(mid, post, key);
  }

  /** A request object. `options`, `@uri` and `@handler` are written only
      through the DSL; `errors` only by `valid?`. */
  class Request {
    ghost const verb: Verb
    var options: Options
    var uri: Scalar
    var handler: Option<Handler>
    var errors: Option<seq<string>>   // nil until `valid?` first runs

    ghost predicate Valid()
      reads this
    {
      WellFormed(View(), verb)
    }

    function View(): Config
      reads this`options, this`uri, this`handler
    {
      Config(options, uri, handler)
    }

    /** `Request.new(http_method, *args, &block)`. */
    constructor (verb: Verb, args: Args, block: Option<Block>)
      ensures Valid() && this.verb == verb
      ensures View() == RunBlock(Fresh(verb), block, args)
      ensures errors == None
    {
      this.verb := verb;
      options := map[Method := Plain(VerbSymbol(verb))];
      uri := Nil;
      handler := None;
      errors := None;
      new;
      ExecuteDsl(args, block);
    }

    /** `execute_dsl(*args, &block)`: runs the block's statements against
        this request, in order. */
    method ExecuteDsl(args: Args, block: Option<Block>)
      requires Valid()
      modifies this`options, this`uri, this`handler
      ensures Valid()
      ensures View() == RunBlock(old(View()), block, args)
    {
      if block.Some? {
        var calls := block.value(args);
        var i := 0;
        while i < |calls|
          invariant 0 <= i <= |calls|
          invariant Valid()
          invariant View() == RunCalls(old(View()), calls[..i])
        {
          Perform(calls[i]);
          RunCallsSnoc(old(View()), calls[..i], calls[i]);
          assert calls[..i + 1] == calls[..i] + [calls[i]];
          i := i + 1;
        }
        assert calls[..|calls|] == calls;
      }
    }

    /** One DSL statement, dispatched to its method. */
    method Perform(call: DslCall)
      requires Valid()
      modifies this`options, this`uri, this`handler
      ensures Valid()
      ensures View() == Step(old(View()), call)
    {
      match call
      case OptionCall(k, v) =>
        var _ := AssignOrReturnOption(k, v);
      case UriCall(u) =>
        var _ := Uri(u);
      case HandlerCall(h) =>
        var _ := SetHandler(h);
    }

    /** `valid?`: rebuilds `errors` and succeeds when it is empty. */
    method IsValid() returns (ok: bool)
      modifies this`errors
      ensures errors == Some(Errors(View()))
      ensures ok <==> Ready(View())
    {
      var found: seq<string> := [];
      if handler.None? {
        found := found + [HandlerMissing];
      }
      if !TruthyScalar(uri) {
        found := found + [UriMissing];
      }
      assert found == Errors(View());
      errors := Some(found);
      ok := found == [];
    }

    /** `uri(value = nil)`: stores a truthy value, then returns `@uri`. */
    method Uri(value: Scalar) returns (r: Scalar)
      requires Valid()
      modifies this`uri
      ensures Valid()
      ensures uri == AssignUri(old(uri), value)
      ensures r == uri
    {
      if TruthyScalar(value) {
        uri := value;
      }
      r := uri;
    }

    /** `handler(&block)`: stores a given block, then returns `@handler`. */
    method SetHandler(block: Option<Handler>) returns (r: Option<Handler>)
      modifies this`handler
      ensures handler == AssignHandler(old(handler), block)
      ensures r == handler
    {
      if block.Some? {
        handler := block;
      }
      r := handler;
    }

    /** A generated accessor `key(value = nil)`, i.e.
        `assign_or_return_option!(key, value)`: a truthy value is merged in
        (both hashes) or stored; the result is always what `options[key]`
        then holds. */
    method AssignOrReturnOption(key: SettableKey, value: OptValue) returns (r: OptValue)
      requires Valid()
      modifies this`options
      ensures Valid()
      ensures options == AssignOption(old(options), key, value)
      ensures r == Stored(options, key)
    {
      if Truthy(value) {
        var current := Stored(options, key);
        if current.Hash? && value.Hash? {
          options := options[key := Hash(current.entries + value.entries)];
        } else {
          options := options[key := value];
        }
        r := options[key];
      } else {
        r := Stored(options, key);
      }
    }
  }
}
