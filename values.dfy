/** The Ruby values the DSL passes around: scalars, one-level hashes,
    truthiness, the four HTTP verbs and the opaque transport response. */
module Values {

  /** A non-hash Ruby value. `Nil` also stands for an omitted argument,
      since every setter of the DSL defaults its argument to nil. */
  datatype Scalar = Nil | Bool(b: bool) | Int(i: int) | Str(s: string) | Sym(name: string)

  /** A value stored under an option key: a scalar or a hash. Only hashes
      respond to `merge`. */
  datatype OptValue = Plain(scalar: Scalar) | Hash(entries: map<Scalar, Scalar>)

  /** Ruby truthiness: only nil and false are falsy. */
  predicate TruthyScalar(v: Scalar) {
    !(v.Nil? || v == Bool(false))
  }

  /** An empty hash is still truthy. */
  predicate Truthy(v: OptValue) {
    v.Hash? || TruthyScalar(v.scalar)
  }

  datatype Verb = Get | Post | Put | Delete

  /** The symbol a verb is stored as (`:get`, `:post`, ...). */
  function VerbSymbol(v: Verb): (s: Scalar)
    ensures s.Sym? && TruthyScalar(s)
  {
    match v
    case Get => Sym("get")
    case Post => Sym("post")
    case Put => Sym("put")
    case Delete => Sym("delete")
  }

  /** Distinct verbs are stored as distinct symbols. */
  lemma VerbSymbolInjective(v: Verb, w: Verb)
    ensures VerbSymbol(v) == VerbSymbol(w) ==> v == w
  {
  }

  /** What the transport hands back; the core never looks inside it. */
  datatype Response = Response(code: int, body: string)
}
