/**
 * The fiber logger carrier (middlewares/fiber/locals.go): the request
 * logger is kept in the context's locals under one key; without one,
 * ReqLogger builds a fresh default logger on every call.
 */
module FiberLocals {
  import opened Zerolog
  import opened GoContext
  import opened FiberCtx
  import Zeropino

  const LoggerKey := "request-logger"

  /** WithLogger: stores the pointer (possibly a typed nil) in the locals. */
  method WithLogger(c: Ctx, l: Logger?)
    modifies c
    ensures c.locals == old(c.locals)[LoggerKey := LoggerPtr(l)]
    ensures c.statusCode == old(c.statusCode) && c.contentLength == old(c.contentLength)
    ensures c.nextCalls == old(c.nextCalls)
  {
    c.SetLocal(LoggerKey, LoggerPtr(l));
  }

  /** The sink a record through ReqLogger(c) ends in. */
  function LogTarget(c: Ctx, p: Zeropino.Process): set<Sink>
    reads c
  {
    var v := c.Local(LoggerKey);
    if v.LoggerPtr? && v.logger != null then {v.logger.writer} else {p.stdout}
  }

  /**
   * ReqLogger: the *zerolog.Logger in the locals (a typed nil included);
   * otherwise a new InitDefault logger, which also rewrites zerolog's
   * package-wide settings.
   */
  method ReqLogger(c: Ctx, g: Globals, p: Zeropino.Process) returns (l: Logger?)
    modifies g
    ensures c.Local(LoggerKey).LoggerPtr? ==> l == c.Local(LoggerKey).logger && unchanged(g)
    ensures !c.Local(LoggerKey).LoggerPtr? ==>
      l != null && fresh(l) && l.level == InfoLevel && l.writer == p.stdout
      && l.context == Zeropino.BaseContext(p) && g.Snapshot() == Zeropino.PinoFormat(false)
  {
    var v := c.Local(LoggerKey);
    if v.LoggerPtr? {
      return v.logger;
    }
    l := Zeropino.InitDefault(g, p);
  }

  /** A logger stored with WithLogger is what ReqLogger returns; no default is built. */
  method StoredLoggerIsReturned(c: Ctx, g: Globals, p: Zeropino.Process, stored: Logger) returns (l: Logger?)
    modifies c, g
    ensures l == stored && g.Snapshot() == old(g.Snapshot())
  {
    WithLogger(c, stored);
    l := ReqLogger(c, g, p);
  }
}
