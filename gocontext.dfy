/**
 * Go's context.Context, as the carriers use it: an immutable value mapping
 * keys to values. Each package's unexported `loggerKey struct{}` is a key of
 * its own type, so the keys of different packages never collide.
 */
module GoContext {
  import opened Zerolog

  datatype Key = RootLoggerKey | StdLoggerKey | MuxLoggerKey | UserKey(name: string)

  /**
   * A value stored in a context (or in fiber's locals), as its dynamic type
   * sees it: a *zerolog.Logger that may be a typed nil, a time.Time, any other
   * value, or the untyped nil interface.
   */
  datatype Value = LoggerPtr(logger: Logger?) | TimeValue(nanos: int) | OtherValue(description: string) | UntypedNil

  datatype Context = Context(values: map<Key, Value>)

  /** context.Background() / context.TODO(). */
  const Background := Context(map[])

  /** ctx.Value(key): the innermost value stored under key, or nil. */
  function Lookup(ctx: Context, key: Key): Value {
    if key in ctx.values then ctx.values[key] else UntypedNil
  }

  /** context.WithValue: a derived context; the parent is left as it was. */
  function WithValue(ctx: Context, key: Key, v: Value): (c: Context)
    ensures Lookup(c, key) == v
    ensures forall k :: k != key ==> Lookup(c, k) == Lookup(ctx, k)
  {
    Context(ctx.values[key := v])
  }
}
