/** conn.go: the tracing wrapper around a driver.Conn.  Each operation
    dispatches on the optional interfaces the wrapped connection implements.
    Prepare, Close, Begin, PrepareContext, Exec and Query open no span;
    ExecContext and QueryContext always open one and finish it on return;
    Ping opens one only when it can ping; BeginTx opens one before it looks
    at the connection and hands it to the transaction only when
    driver.ConnBeginTx succeeds. */
module ConnWrapper {
  import opened DriverApi
  import opened Tracing
  import opened Common
  import opened StmtWrapper
  import opened TxWrapper

  /** conn: owns a driver.Conn and shares the driver's tracer. */
  datatype Conn = Conn(conn: DriverConn, tracer: Tracer)

  /** A driver.Stmt as PrepareContext returns it: this package's wrapper, or
      the wrapped connection's own statement on the fallback path. */
  datatype StmtValue = WrappedStmt(stmt: Stmt) | RawStmt(raw: DriverStmt)

  /** A driver.Tx as BeginTx returns it: this package's wrapper, or the
      wrapped connection's own transaction on the fallback path. */
  datatype TxValue = WrappedTx(tx: Tx) | RawTx(raw: DriverTx)

  /** Prepare: the connection's error unchanged, or its statement wrapped
      with the same tracer; no span. */
  function Prepare(c: Conn, query: string, reply: Outcome<DriverStmt>): (r: Step<Outcome<Stmt>>)
    ensures Starts(r.effects) == 0 && r.effects == [Delegate(c.conn.id, ConnPrepare(query))]
    ensures reply.Err? ==> r.out == Err(reply.err)
    ensures reply.Ok? ==> r.out == Ok(Stmt(reply.value, c.tracer))
  {
    CountsSingle(Delegate(c.conn.id, ConnPrepare(query)));
    var effects := [Delegate(c.conn.id, ConnPrepare(query))];
    match reply
    case Err(e) => Step(Err(e), effects)
    case Ok(s) => Step(Ok(Stmt(s, c.tracer)), effects)
  }

  /** Close: delegates, no span, the connection's error unchanged. */
  function Close(c: Conn, reply: Option<Error>): (r: Step<Option<Error>>)
    ensures r.out == reply
    ensures Starts(r.effects) == 0 && r.effects == [Delegate(c.conn.id, ConnClose)]
  {
    CountsSingle(Delegate(c.conn.id, ConnClose));
    Step(reply, [Delegate(c.conn.id, ConnClose)])
  }

  /** Begin: the connection's error unchanged, or its transaction wrapped
      with the same tracer and no span attached; no span. */
  function Begin(c: Conn, reply: Outcome<DriverTx>): (r: Step<Outcome<Tx>>)
    ensures Starts(r.effects) == 0 && r.effects == [Delegate(c.conn.id, ConnBegin)]
    ensures reply.Err? ==> r.out == Err(reply.err)
    ensures reply.Ok? ==> r.out == Ok(Tx(reply.value, c.tracer, None))
  {
    CountsSingle(Delegate(c.conn.id, ConnBegin));
    var effects := [Delegate(c.conn.id, ConnBegin)];
    match reply
    case Err(e) => Step(Err(e), effects)
    case Ok(t) => Step(Ok(Tx(t, c.tracer, None)), effects)
  }

  /** BeginTx as a whole, when the backend gives its span the identity span. */
  function BeginTxStep(c: Conn, cfg: Settings, span: SpanId, ctx: Context, opts: TxOptions,
                       reply: Outcome<DriverTx>): Step<Outcome<TxValue>>
    requires cfg.nameFunc.Some?
  {
    var started := NewSpanEvents(cfg, ctx, span);
    if c.conn.caps.beginTx then
      var effects := started + [Delegate(c.conn.id, ConnBeginTx(ctx, opts))];
      match reply
      case Err(e) => Step(Err(e), effects)
      case Ok(t) => Step(Ok(WrappedTx(Tx(t, c.tracer, Some(span)))), effects)
    else
      var effects := started + [Delegate(c.conn.id, ConnBegin)];
      match reply
      case Err(e) => Step(Err(e), effects)
      case Ok(t) => Step(Ok(RawTx(t)), effects)
  }

  method BeginTx(c: Conn, ctx: Context, opts: TxOptions, reply: Outcome<DriverTx>, rec: Recorder)
    returns (r: Outcome<TxValue>)
    requires c.tracer.Ready()
    modifies rec
    ensures rec.spans == old(rec.spans) + 1
    ensures var step := BeginTxStep(c, c.tracer.Config(), old(rec.spans), ctx, opts, reply);
      r == step.out && rec.events == old(rec.events) + step.effects
  {
    var span := c.tracer.NewSpan(ctx, rec);
    if c.conn.caps.beginTx {
      rec.Emit([Delegate(c.conn.id, ConnBeginTx(ctx, opts))]);
      if reply.Err? {
        return Err(reply.err);
      }
      return Ok(WrappedTx(Tx(reply.value, c.tracer, Some(span))));
    }
    rec.Emit([Delegate(c.conn.id, ConnBegin)]);
    match reply
    case Err(e) => r := Err(e);
    case Ok(t) => r := Ok(RawTx(t));
  }

  /** BeginTx starts one span on every path, before it calls the
      connection, and never finishes it.  Only a successful
      driver.ConnBeginTx hands the span to the transaction; on its error and
      on the fallback to Begin the span is left open and unreachable, and
      the fallback returns the connection's own, unwrapped transaction. */
  lemma BeginTxSpan(c: Conn, cfg: Settings, span: SpanId, ctx: Context, opts: TxOptions,
                    reply: Outcome<DriverTx>)
    requires cfg.nameFunc.Some?
    ensures var r := BeginTxStep(c, cfg, span, ctx, opts, reply);
      && r.effects[0] == SpanStart(cfg.backend, span, cfg.nameFunc.value(ctx), ctx.parent)
      && Starts(r.effects) == 1
      && (forall x: SpanId :: Finishes(r.effects, x) == 0)
      && Observations(r.effects) == (if cfg.observer.Some? then 1 else 0)
      && Tags(r.effects) == 0
      && Delegations(r.effects) == 1
      && (reply.Err? ==> r.out == Err(reply.err))
      && (c.conn.caps.beginTx ==> Delegate(c.conn.id, ConnBeginTx(ctx, opts)) in r.effects)
      && (c.conn.caps.beginTx && reply.Ok? ==> r.out == Ok(WrappedTx(Tx(reply.value, c.tracer, Some(span)))))
      && (!c.conn.caps.beginTx ==> Delegate(c.conn.id, ConnBegin) in r.effects)
      && (!c.conn.caps.beginTx && reply.Ok? ==> r.out == Ok(RawTx(reply.value)))
      && ((r.out.Ok? && r.out.value.WrappedTx? && r.out.value.tx.span == Some(span))
          <==> (c.conn.caps.beginTx && reply.Ok?))
  {
    var started := NewSpanEvents(cfg, ctx, span);
    var call := if c.conn.caps.beginTx then ConnBeginTx(ctx, opts) else ConnBegin;
    CountsSingle(Delegate(c.conn.id, call));
    CountsAppend(started, [Delegate(c.conn.id, call)]);
  }

  /** On the one path where BeginTx attaches its span, ending the
      transaction closes it: BeginTx followed by Commit, or by Rollback,
      starts one span and finishes it once. */
  lemma BeginTxThenEnd(c: Conn, cfg: Settings, span: SpanId, ctx: Context, opts: TxOptions,
                       reply: Outcome<DriverTx>, endReply: Option<Error>)
    requires cfg.nameFunc.Some?
    requires c.conn.caps.beginTx && reply.Ok?
    ensures var begun := BeginTxStep(c, cfg, span, ctx, opts, reply);
      && begun.out.Ok? && begun.out.value.WrappedTx?
      && var t := begun.out.value.tx;
      && Starts(begun.effects + CommitStep(t, endReply).effects) == 1
      && Finishes(begun.effects + CommitStep(t, endReply).effects, span) == 1
      && Starts(begun.effects + RollbackStep(t, endReply).effects) == 1
      && Finishes(begun.effects + RollbackStep(t, endReply).effects, span) == 1
  {
    var begun := BeginTxStep(c, cfg, span, ctx, opts, reply);
    BeginTxSpan(c, cfg, span, ctx, opts, reply);
    var t := begun.out.value.tx;
    CommitShape(t, endReply);
    RollbackShape(t, endReply);
    CountsAppend(begun.effects, CommitStep(t, endReply).effects);
    CountsAppend(begun.effects, RollbackStep(t, endReply).effects);
  }

  /** PrepareContext: no span.  With driver.ConnPrepareContext, its error
      unchanged or its statement wrapped with the same tracer; otherwise
      whatever the connection's Prepare returns, unwrapped. */
  function PrepareContext(c: Conn, ctx: Context, query: string, reply: Outcome<DriverStmt>)
    : (r: Step<Outcome<StmtValue>>)
    ensures Starts(r.effects) == 0 && Delegations(r.effects) == 1
    ensures reply.Err? ==> r.out == Err(reply.err)
    ensures c.conn.caps.prepareContext ==> r.effects == [Delegate(c.conn.id, ConnPrepareContext(ctx, query))]
    ensures c.conn.caps.prepareContext && reply.Ok? ==> r.out == Ok(WrappedStmt(Stmt(reply.value, c.tracer)))
    ensures !c.conn.caps.prepareContext ==> r.effects == [Delegate(c.conn.id, ConnPrepare(query))]
    ensures !c.conn.caps.prepareContext && reply.Ok? ==> r.out == Ok(RawStmt(reply.value))
  {
    if c.conn.caps.prepareContext then
      var effects := [Delegate(c.conn.id, ConnPrepareContext(ctx, query))];
      CountsSingle(effects[0]);
      match reply
      case Err(e) => Step(Err(e), effects)
      case Ok(s) => Step(Ok(WrappedStmt(Stmt(s, c.tracer))), effects)
    else
      var effects := [Delegate(c.conn.id, ConnPrepare(query))];
      CountsSingle(effects[0]);
      match reply
      case Err(e) => Step(Err(e), effects)
      case Ok(s) => Step(Ok(RawStmt(s)), effects)
  }

  /** Exec: without driver.Execer, ErrUnsupported and no call; with it, the
      query and values passed on and the answer returned unchanged.  No span. */
  function Exec(c: Conn, query: string, args: seq<Value>, reply: Outcome<ResultHandle>)
    : (r: Step<Outcome<ResultHandle>>)
    ensures OnlyDelegations(r.effects)
    ensures c.conn.caps.execer ==> r.out == reply && r.effects == [Delegate(c.conn.id, ConnExec(query, args))]
    ensures !c.conn.caps.execer ==> r.out == Err(ErrUnsupported) && r.effects == []
  {
    if c.conn.caps.execer then Step(reply, [Delegate(c.conn.id, ConnExec(query, args))])
    else Step(Err(ErrUnsupported), [])
  }

  /** Query: as Exec, for driver.Queryer. */
  function Query(c: Conn, query: string, args: seq<Value>, reply: Outcome<RowsHandle>)
    : (r: Step<Outcome<RowsHandle>>)
    ensures OnlyDelegations(r.effects)
    ensures c.conn.caps.queryer ==> r.out == reply && r.effects == [Delegate(c.conn.id, ConnQuery(query, args))]
    ensures !c.conn.caps.queryer ==> r.out == Err(ErrUnsupported) && r.effects == []
  {
    if c.conn.caps.queryer then Step(reply, [Delegate(c.conn.id, ConnQuery(query, args))])
    else Step(Err(ErrUnsupported), [])
  }

  /** The dispatch inside ExecContext: driver.ExecerContext with the query
      and named arguments as given; otherwise the named-parameter error
      without any call when an argument has a name, and else exactly this
      wrapper's Exec on the positional values. */
  function ExecContextCall(c: Conn, ctx: Context, query: string, args: seq<NamedValue>,
                           reply: Outcome<ResultHandle>): (r: Step<Outcome<ResultHandle>>)
    ensures OnlyDelegations(r.effects) && |r.effects| <= 1
    ensures c.conn.caps.execerContext ==>
      r.out == reply && r.effects == [Delegate(c.conn.id, ConnExecContext(ctx, query, args))]
    ensures !c.conn.caps.execerContext && !AllUnnamed(args) ==> r.out == Err(ErrNamedParameters) && r.effects == []
    ensures !c.conn.caps.execerContext && AllUnnamed(args) ==> r == Exec(c, query, ValuesOf(args), reply)
  {
    if c.conn.caps.execerContext then
      Step(reply, [Delegate(c.conn.id, ConnExecContext(ctx, query, args))])
    else
      match NamedToValues(args)
      case Err(e) => Step(Err(e), [])
      case Ok(values) => Exec(c, query, values, reply)
  }

  /** ExecContext as a whole, when the backend gives its span the identity span. */
  function ExecContextStep(c: Conn, cfg: Settings, span: SpanId, ctx: Context, query: string,
                           args: seq<NamedValue>, reply: Outcome<ResultHandle>): Step<Outcome<ResultHandle>>
    requires cfg.nameFunc.Some?
  {
    Traced(cfg, ctx, span, QueryTag(cfg, span, query), ExecContextCall(c, ctx, query, args, reply))
  }

  method ExecContext(c: Conn, ctx: Context, query: string, args: seq<NamedValue>,
                     reply: Outcome<ResultHandle>, rec: Recorder) returns (r: Outcome<ResultHandle>)
    requires c.tracer.Ready()
    modifies rec
    ensures rec.spans == old(rec.spans) + 1
    ensures var step := ExecContextStep(c, c.tracer.Config(), old(rec.spans), ctx, query, args, reply);
      r == step.out && rec.events == old(rec.events) + step.effects
  {
    var span := c.tracer.NewSpan(ctx, rec);
    if c.tracer.saveQuery {
      rec.Emit([SetTag(span, SpanTagQuery, query)]);
    }
    r := ExecDispatch(c, ctx, query, args, reply, rec);
    rec.Emit([SpanFinish(span)]);   // the deferred Finish
  }

  /** The body of ExecContext after the span is open and tagged. */
  method ExecDispatch(c: Conn, ctx: Context, query: string, args: seq<NamedValue>,
                     reply: Outcome<ResultHandle>, rec: Recorder) returns (r: Outcome<ResultHandle>)
    modifies rec
    ensures rec.spans == old(rec.spans)
    ensures var step := ExecContextCall(c, ctx, query, args, reply);
      r == step.out && rec.events == old(rec.events) + step.effects
  {
    if c.conn.caps.execerContext {
      rec.Emit([Delegate(c.conn.id, ConnExecContext(ctx, query, args))]);
      return reply;
    }
    var values := NamedValueToValue(args);
    if values.Err? {
      return Err(values.err);
    }
    var fallback := Exec(c, query, values.value, reply);
    rec.Emit(fallback.effects);
    r := fallback.out;
  }

  /** Every path of ExecContext, the named-parameter error and the
      ErrUnsupported one included, starts one span and finishes it once,
      last; the query is tagged iff saveQuery is on, before any call; the
      connection is called at most once, as the dispatch says. */
  lemma ExecContextTraced(c: Conn, cfg: Settings, span: SpanId, ctx: Context, query: string,
                          args: seq<NamedValue>, reply: Outcome<ResultHandle>)
    requires cfg.nameFunc.Some?
    ensures var r := ExecContextStep(c, cfg, span, ctx, query, args, reply);
      && r.effects[0] == SpanStart(cfg.backend, span, cfg.nameFunc.value(ctx), ctx.parent)
      && r.effects[|r.effects| - 1] == SpanFinish(span)
      && Starts(r.effects) == 1 && Finishes(r.effects, span) == 1
      && (forall x: SpanId :: x != span ==> Finishes(r.effects, x) == 0)
      && Observations(r.effects) == (if cfg.observer.Some? then 1 else 0)
      && Tags(r.effects) == (if cfg.saveQuery then 1 else 0)
      && (cfg.saveQuery <==> SetTag(span, SpanTagQuery, query) in r.effects)
      && TagsBeforeDelegations(r.effects)
      && (c.conn.caps.execerContext ==>
            r.out == reply && Delegations(r.effects) == 1
            && Delegate(c.conn.id, ConnExecContext(ctx, query, args)) in r.effects)
      && (!c.conn.caps.execerContext && !AllUnnamed(args) ==>
            r.out == Err(ErrNamedParameters) && Delegations(r.effects) == 0)
      && (!c.conn.caps.execerContext && AllUnnamed(args) && c.conn.caps.execer ==>
            r.out == reply && Delegations(r.effects) == 1
            && Delegate(c.conn.id, ConnExec(query, ValuesOf(args))) in r.effects)
      && (!c.conn.caps.execerContext && AllUnnamed(args) && !c.conn.caps.execer ==>
            r.out == Err(ErrUnsupported) && Delegations(r.effects) == 0)
  {
    var inner := ExecContextCall(c, ctx, query, args, reply);
    QuerySpanShape(cfg, ctx, span, query, inner);
    OnlyDelegationsCounts(inner.effects);
  }

  /** Ping as a whole, when the backend gives its span the identity span
      (used only when the connection can ping). */
  function PingStep(c: Conn, cfg: Settings, span: SpanId, ctx: Context, reply: Option<Error>): Step<Option<Error>>
    requires cfg.nameFunc.Some?
  {
    if c.conn.caps.pinger then Traced(cfg, ctx, span, [], Step(reply, [Delegate(c.conn.id, ConnPing(ctx))]))
    else Step(Some(ErrUnsupported), [])
  }

  method Ping(c: Conn, ctx: Context, reply: Option<Error>, rec: Recorder) returns (err: Option<Error>)
    requires c.tracer.Ready()
    modifies rec
    ensures rec.spans == old(rec.spans) + (if c.conn.caps.pinger then 1 else 0)
    ensures var step := PingStep(c, c.tracer.Config(), old(rec.spans), ctx, reply);
      err == step.out && rec.events == old(rec.events) + step.effects
  {
    if c.conn.caps.pinger {
      var span := c.tracer.NewSpan(ctx, rec);
      rec.Emit([Delegate(c.conn.id, ConnPing(ctx))]);
      rec.Emit([SpanFinish(span)]);   // the deferred s.Finish
      return reply;
    }
    return Some(ErrUnsupported);
  }

  /** Ping traces only when the connection is a driver.Pinger: then one span
      around the one ping, and the ping's error unchanged; otherwise
      ErrUnsupported, no span and no call. */
  lemma PingTraced(c: Conn, cfg: Settings, span: SpanId, ctx: Context, reply: Option<Error>)
    requires cfg.nameFunc.Some?
    ensures var r := PingStep(c, cfg, span, ctx, reply);
      && (c.conn.caps.pinger ==>
            && r.out == reply
            && r.effects[0] == SpanStart(cfg.backend, span, cfg.nameFunc.value(ctx), ctx.parent)
            && r.effects[|r.effects| - 1] == SpanFinish(span)
            && Starts(r.effects) == 1 && Finishes(r.effects, span) == 1
            && (forall x: SpanId :: x != span ==> Finishes(r.effects, x) == 0)
            && Observations(r.effects) == (if cfg.observer.Some? then 1 else 0)
            && Tags(r.effects) == 0
            && Delegations(r.effects) == 1 && Delegate(c.conn.id, ConnPing(ctx)) in r.effects)
      && (!c.conn.caps.pinger ==> r.out == Some(ErrUnsupported) && r.effects == [])
  {
    if c.conn.caps.pinger {
      var inner := Step(reply, [Delegate(c.conn.id, ConnPing(ctx))]);
      TracedShape(cfg, ctx, span, [], inner);
      OnlyDelegationsCounts(inner.effects);
    }
  }

  /** The dispatch inside QueryContext, as ExecContextCall with Query. */
  function QueryContextCall(c: Conn, ctx: Context, query: string, args: seq<NamedValue>,
                            reply: Outcome<RowsHandle>): (r: Step<Outcome<RowsHandle>>)
    ensures OnlyDelegations(r.effects) && |r.effects| <= 1
    ensures c.conn.caps.queryerContext ==>
      r.out == reply && r.effects == [Delegate(c.conn.id, ConnQueryContext(ctx, query, args))]
    ensures !c.conn.caps.queryerContext && !AllUnnamed(args) ==> r.out == Err(ErrNamedParameters) && r.effects == []
    ensures !c.conn.caps.queryerContext && AllUnnamed(args) ==> r == Query(c, query, ValuesOf(args), reply)
  {
    if c.conn.caps.queryerContext then
      Step(reply, [Delegate(c.conn.id, ConnQueryContext(ctx, query, args))])
    else
      match NamedToValues(args)
      case Err(e) => Step(Err(e), [])
      case Ok(values) => Query(c, query, values, reply)
  }

  /** QueryContext as a whole, when the backend gives its span the identity span. */
  function QueryContextStep(c: Conn, cfg: Settings, span: SpanId, ctx: Context, query: string,
                            args: seq<NamedValue>, reply: Outcome<RowsHandle>): Step<Outcome<RowsHandle>>
    requires cfg.nameFunc.Some?
  {
    Traced(cfg, ctx, span, QueryTag(cfg, span, query), QueryContextCall(c, ctx, query, args, reply))
  }

  method QueryContext(c: Conn, ctx: Context, query: string, args: seq<NamedValue>,
                     reply: Outcome<RowsHandle>, rec: Recorder) returns (r: Outcome<RowsHandle>)
    requires c.tracer.Ready()
    modifies rec
    ensures rec.spans == old(rec.spans) + 1
    ensures var step := QueryContextStep(c, c.tracer.Config(), old(rec.spans), ctx, query, args, reply);
      r == step.out && rec.events == old(rec.events) + step.effects
  {
    var span := c.tracer.NewSpan(ctx, rec);
    if c.tracer.saveQuery {
      rec.Emit([SetTag(span, SpanTagQuery, query)]);
    }
    r := QueryDispatch(c, ctx, query, args, reply, rec);
    rec.Emit([SpanFinish(span)]);   // the deferred Finish
  }

  /** The body of QueryContext after the span is open and tagged. */
  method QueryDispatch(c: Conn, ctx: Context, query: string, args: seq<NamedValue>,
                     reply: Outcome<RowsHandle>, rec: Recorder) returns (r: Outcome<RowsHandle>)
    modifies rec
    ensures rec.spans == old(rec.spans)
    ensures var step := QueryContextCall(c, ctx, query, args, reply);
      r == step.out && rec.events == old(rec.events) + step.effects
  {
    if c.conn.caps.queryerContext {
      rec.Emit([Delegate(c.conn.id, ConnQueryContext(ctx, query, args))]);
      return reply;
    }
    var values := NamedValueToValue(args);
    if values.Err? {
      return Err(values.err);
    }
    var fallback := Query(c, query, values.value, reply);
    rec.Emit(fallback.effects);
    r := fallback.out;
  }

  /** QueryContext keeps the same span discipline as ExecContext. */
  lemma QueryContextTraced(c: Conn, cfg: Settings, span: SpanId, ctx: Context, query: string,
                           args: seq<NamedValue>, reply: Outcome<RowsHandle>)
    requires cfg.nameFunc.Some?
    ensures var r := QueryContextStep(c, cfg, span, ctx, query, args, reply);
      && r.effects[0] == SpanStart(cfg.backend, span, cfg.nameFunc.value(ctx), ctx.parent)
      && r.effects[|r.effects| - 1] == SpanFinish(span)
      && Starts(r.effects) == 1 && Finishes(r.effects, span) == 1
      && (forall x: SpanId :: x != span ==> Finishes(r.effects, x) == 0)
      && Observations(r.effects) == (if cfg.observer.Some? then 1 else 0)
      && Tags(r.effects) == (if cfg.saveQuery then 1 else 0)
      && (cfg.saveQuery <==> SetTag(span, SpanTagQuery, query) in r.effects)
      && TagsBeforeDelegations(r.effects)
      && (c.conn.caps.queryerContext ==>
            r.out == reply && Delegations(r.effects) == 1
            && Delegate(c.conn.id, ConnQueryContext(ctx, query, args)) in r.effects)
      && (!c.conn.caps.queryerContext && !AllUnnamed(args) ==>
            r.out == Err(ErrNamedParameters) && Delegations(r.effects) == 0)
      && (!c.conn.caps.queryerContext && AllUnnamed(args) && c.conn.caps.queryer ==>
            r.out == reply && Delegations(r.effects) == 1
            && Delegate(c.conn.id, ConnQuery(query, ValuesOf(args))) in r.effects)
      && (!c.conn.caps.queryerContext && AllUnnamed(args) && !c.conn.caps.queryer ==>
            r.out == Err(ErrUnsupported) && Delegations(r.effects) == 0)
  {
    var inner := QueryContextCall(c, ctx, query, args, reply);
    QuerySpanShape(cfg, ctx, span, query, inner);
    OnlyDelegationsCounts(inner.effects);
  }
}
