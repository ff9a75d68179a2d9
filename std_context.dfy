/**
 * The logger carrier of the std middleware package (middlewares/std/context.go):
 * the same attach/retrieve contract under the std package key, with a
 * package-wide default built once by zeropino.InitDefault.
 */
module StdContext {
  import opened Zerolog
  import opened GoContext
  import Zeropino

  /** The package state: `var defaultLogger = InitDefault()`. */
  class Carrier {
    const defaultLogger: Logger

    /** Package initialisation: builds the default logger, rewriting zerolog's settings. */
    constructor (g: Globals, p: Zeropino.Process)
      modifies g
      ensures Valid() && defaultLogger.writer == p.stdout
      ensures g.Snapshot() == Zeropino.PinoFormat(false)
    {
      var d := Zeropino.InitDefault(g, p);
      defaultLogger := d;
    }

    /** The default logger is at info level. */
    ghost predicate Valid() {
      defaultLogger.level == InfoLevel
    }

    /** WithLogger: a derived context holding `logger` (possibly a typed nil) under the key. */
    static function WithLogger(ctx: Context, logger: Logger?): (c: Context)
      ensures Lookup(c, StdLoggerKey) == LoggerPtr(logger)
      ensures forall k :: k != StdLoggerKey ==> Lookup(c, k) == Lookup(ctx, k)
    {
      WithValue(ctx, StdLoggerKey, LoggerPtr(logger))
    }

    /**
     * Get: the logger stored under the key, even a typed nil; the default
     * logger when nothing, the untyped nil or a value of another type is there.
     */
    function Get(ctx: Context): (l: Logger?)
      ensures Lookup(ctx, StdLoggerKey).LoggerPtr? ==> l == Lookup(ctx, StdLoggerKey).logger
      ensures !Lookup(ctx, StdLoggerKey).LoggerPtr? ==> l == defaultLogger
      ensures l == null <==> Lookup(ctx, StdLoggerKey) == LoggerPtr(null)
    {
      var logger := Lookup(ctx, StdLoggerKey);
      if logger.UntypedNil? then defaultLogger
      else if logger.LoggerPtr? then logger.logger
      else defaultLogger
    }
  }

  /** Attach then retrieve gives back the attached pointer, a typed nil included. */
  lemma GetWithLogger(c: Carrier, ctx: Context, logger: Logger?)
    ensures c.Get(Carrier.WithLogger(ctx, logger)) == logger
  {
  }

  /** A later attachment shadows an earlier one. */
  lemma LaterWithLoggerShadows(c: Carrier, ctx: Context, first: Logger?, second: Logger?)
    ensures c.Get(Carrier.WithLogger(Carrier.WithLogger(ctx, first), second)) == second
  {
  }

  /** With nothing attached, Get falls back to the info-level default logger. */
  lemma GetWithoutLogger(c: Carrier, ctx: Context)
    requires c.Valid()
    requires StdLoggerKey !in ctx.values
    ensures c.Get(ctx) == c.defaultLogger && c.Get(ctx).level == InfoLevel
  {
  }

  /** A value of another type under the key also falls back to the default logger. */
  lemma GetOtherValue(c: Carrier, ctx: Context, description: string)
    ensures c.Get(WithValue(ctx, StdLoggerKey, OtherValue(description))) == c.defaultLogger
  {
  }

  /** The fallback is one pointer: two fallbacks return the same logger. */
  lemma FallbackIsShared(c: Carrier, ctx1: Context, ctx2: Context)
    requires !Lookup(ctx1, StdLoggerKey).LoggerPtr? && !Lookup(ctx2, StdLoggerKey).LoggerPtr?
    ensures c.Get(ctx1) == c.Get(ctx2)
  {
  }
}
