/**
 * The logger carrier of the gorillamux package (WithLogger, Get, loggerKey),
 * used by middlewares/gorillamux/logmiddleware.go and middlewares/fiber/fiber.go.
 * Its source file is not part of this model: it is taken to be
 * middlewares/std/context.go under the gorillamux key, which is what
 * middlewares/gorillamux/context_test.go exercises.
 */
module MuxContext {
  import opened Zerolog
  import opened GoContext
  import Zeropino

  /** The package state: `var defaultLogger = InitDefault()`. */
  class Carrier {
    const defaultLogger: Logger

    /** Package initialisation: builds the default logger, rewriting zerolog's settings. */
    constructor (g: Globals, p: Zeropino.Process)
      modifies g
      ensures Valid() && defaultLogger.writer == p.stdout
      ensures g.Snapshot() == Zeropino.PinoFormat(false)
    {
      var d := Zeropino.InitDefault(g, p);
      defaultLogger := d;
    }

    /** The default logger is at info level. */
    ghost predicate Valid() {
      defaultLogger.level == InfoLevel
    }

    /** WithLogger: a derived context holding `logger` (possibly a typed nil) under the key. */
    static function WithLogger(ctx: Context, logger: Logger?): (c: Context)
      ensures Lookup(c, MuxLoggerKey) == LoggerPtr(logger)
      ensures forall k :: k != MuxLoggerKey ==> Lookup(c, k) == Lookup(ctx, k)
    {
      WithValue(ctx, MuxLoggerKey, LoggerPtr(logger))
    }

    /**
     * Get: the logger stored under the key, even a typed nil; the default
     * logger when nothing, the untyped nil or a value of another type is there.
     */
    function Get(ctx: Context): (l: Logger?)
      ensures Lookup(ctx, MuxLoggerKey).LoggerPtr? ==> l == Lookup(ctx, MuxLoggerKey).logger
      ensures !Lookup(ctx, MuxLoggerKey).LoggerPtr? ==> l == defaultLogger
      ensures l == null <==> Lookup(ctx, MuxLoggerKey) == LoggerPtr(null)
    {
      var logger := Lookup(ctx, MuxLoggerKey);
      if logger.UntypedNil? then defaultLogger
      else if logger.LoggerPtr? then logger.logger
      else defaultLogger
    }
  }

  /** Attach then retrieve gives back the attached pointer, a typed nil included. */
  lemma GetWithLogger(c: Carrier, ctx: Context, logger: Logger?)
    ensures c.Get(Carrier.WithLogger(ctx, logger)) == logger
  {
  }

  /** A later attachment shadows an earlier one. */
  lemma LaterWithLoggerShadows(c: Carrier, ctx: Context, first: Logger?, second: Logger?)
    ensures c.Get(Carrier.WithLogger(Carrier.WithLogger(ctx, first), second)) == second
  {
  }

  /** With nothing attached, Get falls back to the info-level default logger. */
  lemma GetWithoutLogger(c: Carrier, ctx: Context)
    requires c.Valid()
    requires MuxLoggerKey !in ctx.values
    ensures c.Get(ctx) == c.defaultLogger && c.Get(ctx).level == InfoLevel
  {
  }

  /** A value of another type under the key also falls back to the default logger. */
  lemma GetOtherValue(c: Carrier, ctx: Context, description: string)
    ensures c.Get(WithValue(ctx, MuxLoggerKey, OtherValue(description))) == c.defaultLogger
  {
  }

  /** The fallback is one pointer: two fallbacks return the same logger. */
  lemma FallbackIsShared(c: Carrier, ctx1: Context, ctx2: Context)
    requires !Lookup(ctx1, MuxLoggerKey).LoggerPtr? && !Lookup(ctx2, MuxLoggerKey).LoggerPtr?
    ensures c.Get(ctx1) == c.Get(ctx2)
  {
  }
}
