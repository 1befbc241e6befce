/**
  Go's `context.Context` as far as request-scoped values go: an immutable chain
  of derived contexts. `WithValue` wraps a parent with one key/value pair and
  `Value` searches from the innermost layer outwards, so a newer binding shadows
  an older one and the parent is never changed.
 */
module GoContext {
  import opened Wrappers

  datatype Context<K, V> =
    | Background
    | WithCancel(parent: Context<K, V>)
    | WithValue(parent: Context<K, V>, key: K, val: V)

  /** `ctx.Value(key)`; `None` stands for Go's untyped nil. */
  function Value<K(==), V>(ctx: Context<K, V>, key: K): Option<V>
  {
    match ctx
    case Background => None
    case WithCancel(p) => Value(p, key)
    case WithValue(p, k, v) => if k == key then Some(v) else Value(p, key)
  }

  /** The abstract view of a context: the bindings visible through it. */
  function Bindings<K, V>(ctx: Context<K, V>): map<K, V>
  {
    match ctx
    case Background => map[]
    case WithCancel(p) => Bindings(p)
    case WithValue(p, k, v) => Bindings(p)[k := v]
  }

  /** Looking a key up along the chain is looking it up in the abstract map. */
  lemma {:induction false} ValueIsLookup<K, V>(ctx: Context<K, V>, key: K)
    ensures Value(ctx, key) == if key in Bindings(ctx) then Some(Bindings(ctx)[key]) else None
  {
    match ctx
    case Background =>
    case WithCancel(p) => ValueIsLookup(p, key);
    case WithValue(p, k, v) => if k != key { ValueIsLookup(p, key); }
  }

  /** Deriving a context with one binding changes the lookup of that key only. */
  lemma WithValueChangesOneKey<K, V>(ctx: Context<K, V>, key: K, val: V)
    ensures Bindings(WithValue(ctx, key, val)) == Bindings(ctx)[key := val]
    ensures Value(WithValue(ctx, key, val), key) == Some(val)
    ensures forall other | other != key :: Value(WithValue(ctx, key, val), other) == Value(ctx, other)
  {
  }
}
