/** stmt.go: the tracing wrapper around a driver.Stmt.  The context-free
    calls only delegate; ExecContext and QueryContext open a span, tag it
    with the query when saveQuery is on, dispatch on the statement's
    capabilities and finish the span when they return.

    stmt.go tags with an identifier TagQuery, which none of common.go,
    conn.go, stmt.go, tx.go, driver.go and options.go defines; common.go
    defines spanTagQuery.  Both are taken to be the one query tag key,
    SpanTagQuery.

    stmt.go asserts the connection-level interfaces driver.ExecerContext
    and driver.QueryerContext on the statement, whose methods take the query
    string; the model follows that, with the capabilities recorded in
    DriverStmt. */
module StmtWrapper {
  import opened DriverApi
  import opened Tracing
  import opened Common

  /** stmt: owns a driver.Stmt and shares the driver's tracer. */
  datatype Stmt = Stmt(stmt: DriverStmt, tracer: Tracer)

  /** Close delegates and returns the statement's error unchanged. */
  function Close(s: Stmt, reply: Option<Error>): (r: Step<Option<Error>>)
    ensures r.out == reply
    ensures Starts(r.effects) == 0 && Delegations(r.effects) == 1 && r.effects == [Delegate(s.stmt.id, StmtClose)]
  {
    CountsSingle(Delegate(s.stmt.id, StmtClose));
    Step(reply, [Delegate(s.stmt.id, StmtClose)])
  }

  /** NumInput delegates and returns the statement's count unchanged. */
  function NumInput(s: Stmt, reply: int): (r: Step<int>)
    ensures r.out == reply
    ensures Starts(r.effects) == 0 && Delegations(r.effects) == 1 && r.effects == [Delegate(s.stmt.id, StmtNumInput)]
  {
    CountsSingle(Delegate(s.stmt.id, StmtNumInput));
    Step(reply, [Delegate(s.stmt.id, StmtNumInput)])
  }

  /** Exec passes the values on and returns the statement's answer unchanged. */
  function Exec(s: Stmt, args: seq<Value>, reply: Outcome<ResultHandle>): (r: Step<Outcome<ResultHandle>>)
    ensures r.out == reply
    ensures Starts(r.effects) == 0 && Delegations(r.effects) == 1 && r.effects == [Delegate(s.stmt.id, StmtExec(args))]
  {
    CountsSingle(Delegate(s.stmt.id, StmtExec(args)));
    Step(reply, [Delegate(s.stmt.id, StmtExec(args))])
  }

  /** Query passes the values on and returns the statement's answer unchanged. */
  function Query(s: Stmt, args: seq<Value>, reply: Outcome<RowsHandle>): (r: Step<Outcome<RowsHandle>>)
    ensures r.out == reply
    ensures Starts(r.effects) == 0 && Delegations(r.effects) == 1 && r.effects == [Delegate(s.stmt.id, StmtQuery(args))]
  {
    CountsSingle(Delegate(s.stmt.id, StmtQuery(args)));
    Step(reply, [Delegate(s.stmt.id, StmtQuery(args))])
  }

  /** The dispatch inside ExecContext, between the span's start and finish:
      the context-aware call with the query and named arguments as given
      when the statement has it; otherwise the named-parameter error without
      any call when an argument has a name, and else exactly Exec on the
      positional values, the query not being passed on. */
  function ExecContextCall(s: Stmt, ctx: Context, query: string, args: seq<NamedValue>,
                           reply: Outcome<ResultHandle>): (r: Step<Outcome<ResultHandle>>)
    ensures OnlyDelegations(r.effects) && |r.effects| <= 1
    ensures s.stmt.execerContext ==>
      r.out == reply && r.effects == [Delegate(s.stmt.id, StmtExecContext(ctx, query, args))]
    ensures !s.stmt.execerContext && !AllUnnamed(args) ==> r.out == Err(ErrNamedParameters) && r.effects == []
    ensures !s.stmt.execerContext && AllUnnamed(args) ==> r == Exec(s, ValuesOf(args), reply)
  {
    if s.stmt.execerContext then
      Step(reply, [Delegate(s.stmt.id, StmtExecContext(ctx, query, args))])
    else
      match NamedToValues(args)
      case Err(e) => Step(Err(e), [])
      case Ok(values) => Exec(s, values, reply)
  }

  /** ExecContext as a whole, when the backend gives its span the identity span. */
  function ExecContextStep(s: Stmt, cfg: Settings, span: SpanId, ctx: Context, query: string,
                           args: seq<NamedValue>, reply: Outcome<ResultHandle>): Step<Outcome<ResultHandle>>
    requires cfg.nameFunc.Some?
  {
    Traced(cfg, ctx, span, QueryTag(cfg, span, query), ExecContextCall(s, ctx, query, args, reply))
  }

  method ExecContext(s: Stmt, ctx: Context, query: string, args: seq<NamedValue>,
                     reply: Outcome<ResultHandle>, rec: Recorder) returns (r: Outcome<ResultHandle>)
    requires s.tracer.Ready()
    modifies rec
    ensures rec.spans == old(rec.spans) + 1
    ensures var step := ExecContextStep(s, s.tracer.Config(), old(rec.spans), ctx, query, args, reply);
      r == step.out && rec.events == old(rec.events) + step.effects
  {
    var span := s.tracer.NewSpan(ctx, rec);
    if s.tracer.saveQuery {
      rec.Emit([SetTag(span, SpanTagQuery, query)]);   // under TagQuery in stmt.go
    }
    r := ExecDispatch(s, ctx, query, args, reply, rec);
    rec.Emit([SpanFinish(span)]);   // the deferred span.Finish
  }

  /** The body of ExecContext after the span is open and tagged. */
  method ExecDispatch(s: Stmt, ctx: Context, query: string, args: seq<NamedValue>,
                     reply: Outcome<ResultHandle>, rec: Recorder) returns (r: Outcome<ResultHandle>)
    modifies rec
    ensures rec.spans == old(rec.spans)
    ensures var step := ExecContextCall(s, ctx, query, args, reply);
      r == step.out && rec.events == old(rec.events) + step.effects
  {
    if s.stmt.execerContext {
      rec.Emit([Delegate(s.stmt.id, StmtExecContext(ctx, query, args))]);
      return reply;
    }
    var values := NamedValueToValue(args);
    if values.Err? {
      return Err(values.err);
    }
    var fallback := Exec(s, values.value, reply);
    rec.Emit(fallback.effects);
    r := fallback.out;
  }

  /** Every path of ExecContext starts one span and finishes it once, last;
      the query is saved under the query tag iff saveQuery is on, before any
      call; and the statement is called as the dispatch says. */
  lemma ExecContextTraced(s: Stmt, cfg: Settings, span: SpanId, ctx: Context, query: string,
                          args: seq<NamedValue>, reply: Outcome<ResultHandle>)
    requires cfg.nameFunc.Some?
    ensures var r := ExecContextStep(s, cfg, span, ctx, query, args, reply);
      && r.effects[0] == SpanStart(cfg.backend, span, cfg.nameFunc.value(ctx), ctx.parent)
      && r.effects[|r.effects| - 1] == SpanFinish(span)
      && Starts(r.effects) == 1 && Finishes(r.effects, span) == 1
      && (forall x: SpanId :: x != span ==> Finishes(r.effects, x) == 0)
      && Observations(r.effects) == (if cfg.observer.Some? then 1 else 0)
      && Tags(r.effects) == (if cfg.saveQuery then 1 else 0)
      && (cfg.saveQuery <==> SetTag(span, SpanTagQuery, query) in r.effects)
      && TagsBeforeDelegations(r.effects)
      && (s.stmt.execerContext ==>
            r.out == reply && Delegations(r.effects) == 1
            && Delegate(s.stmt.id, StmtExecContext(ctx, query, args)) in r.effects)
      && (!s.stmt.execerContext && !AllUnnamed(args) ==>
            r.out == Err(ErrNamedParameters) && Delegations(r.effects) == 0)
      && (!s.stmt.execerContext && AllUnnamed(args) ==>
            r.out == reply && Delegations(r.effects) == 1
            && Delegate(s.stmt.id, StmtExec(ValuesOf(args))) in r.effects)
  {
    var inner := ExecContextCall(s, ctx, query, args, reply);
    QuerySpanShape(cfg, ctx, span, query, inner);
    OnlyDelegationsCounts(inner.effects);
  }

  /** The dispatch inside QueryContext, as ExecContextCall with Query. */
  function QueryContextCall(s: Stmt, ctx: Context, query: string, args: seq<NamedValue>,
                            reply: Outcome<RowsHandle>): (r: Step<Outcome<RowsHandle>>)
    ensures OnlyDelegations(r.effects) && |r.effects| <= 1
    ensures s.stmt.queryerContext ==>
      r.out == reply && r.effects == [Delegate(s.stmt.id, StmtQueryContext(ctx, query, args))]
    ensures !s.stmt.queryerContext && !AllUnnamed(args) ==> r.out == Err(ErrNamedParameters) && r.effects == []
    ensures !s.stmt.queryerContext && AllUnnamed(args) ==> r == Query(s, ValuesOf(args), reply)
  {
    if s.stmt.queryerContext then
      Step(reply, [Delegate(s.stmt.id, StmtQueryContext(ctx, query, args))])
    else
      match NamedToValues(args)
      case Err(e) => Step(Err(e), [])
      case Ok(values) => Query(s, values, reply)
  }

  /** QueryContext as a whole, when the backend gives its span the identity span. */
  function QueryContextStep(s: Stmt, cfg: Settings, span: SpanId, ctx: Context, query: string,
                            args: seq<NamedValue>, reply: Outcome<RowsHandle>): Step<Outcome<RowsHandle>>
    requires cfg.nameFunc.Some?
  {
    Traced(cfg, ctx, span, QueryTag(cfg, span, query), QueryContextCall(s, ctx, query, args, reply))
  }

  method QueryContext(s: Stmt, ctx: Context, query: string, args: seq<NamedValue>,
                     reply: Outcome<RowsHandle>, rec: Recorder) returns (r: Outcome<RowsHandle>)
    requires s.tracer.Ready()
    modifies rec
    ensures rec.spans == old(rec.spans) + 1
    ensures var step := QueryContextStep(s, s.tracer.Config(), old(rec.spans), ctx, query, args, reply);
      r == step.out && rec.events == old(rec.events) + step.effects
  {
    var span := s.tracer.NewSpan(ctx, rec);
    if s.tracer.saveQuery {
      rec.Emit([SetTag(span, SpanTagQuery, query)]);   // under TagQuery in stmt.go
    }
    r := QueryDispatch(s, ctx, query, args, reply, rec);
    rec.Emit([SpanFinish(span)]);   // the deferred span.Finish
  }

  /** The body of QueryContext after the span is open and tagged. */
  method QueryDispatch(s: Stmt, ctx: Context, query: string, args: seq<NamedValue>,
                     reply: Outcome<RowsHandle>, rec: Recorder) returns (r: Outcome<RowsHandle>)
    modifies rec
    ensures rec.spans == old(rec.spans)
    ensures var step := QueryContextCall(s, ctx, query, args, reply);
      r == step.out && rec.events == old(rec.events) + step.effects
  {
    if s.stmt.queryerContext {
      rec.Emit([Delegate(s.stmt.id, StmtQueryContext(ctx, query, args))]);
      return reply;
    }
    var values := NamedValueToValue(args);
    if values.Err? {
      return Err(values.err);
    }
    var fallback := Query(s, values.value, reply);
    rec.Emit(fallback.effects);
    r := fallback.out;
  }

  /** QueryContext keeps the same span discipline as ExecContext. */
  lemma QueryContextTraced(s: Stmt, cfg: Settings, span: SpanId, ctx: Context, query: string,
                           args: seq<NamedValue>, reply: Outcome<RowsHandle>)
    requires cfg.nameFunc.Some?
    ensures var r := QueryContextStep(s, cfg, span, ctx, query, args, reply);
      && r.effects[0] == SpanStart(cfg.backend, span, cfg.nameFunc.value(ctx), ctx.parent)
      && r.effects[|r.effects| - 1] == SpanFinish(span)
      && Starts(r.effects) == 1 && Finishes(r.effects, span) == 1
      && (forall x: SpanId :: x != span ==> Finishes(r.effects, x) == 0)
      && Observations(r.effects) == (if cfg.observer.Some? then 1 else 0)
      && Tags(r.effects) == (if cfg.saveQuery then 1 else 0)
      && (cfg.saveQuery <==> SetTag(span, SpanTagQuery, query) in r.effects)
      && TagsBeforeDelegations(r.effects)
      && (s.stmt.queryerContext ==>
            r.out == reply && Delegations(r.effects) == 1
            && Delegate(s.stmt.id, StmtQueryContext(ctx, query, args)) in r.effects)
      && (!s.stmt.queryerContext && !AllUnnamed(args) ==>
            r.out == Err(ErrNamedParameters) && Delegations(r.effects) == 0)
      && (!s.stmt.queryerContext && AllUnnamed(args) ==>
            r.out == reply && Delegations(r.effects) == 1
            && Delegate(s.stmt.id, StmtQuery(ValuesOf(args))) in r.effects)
  {
    var inner := QueryContextCall(s, ctx, query, args, reply);
    QuerySpanShape(cfg, ctx, span, query, inner);
    OnlyDelegationsCounts(inner.effects);
  }
}
