/** common.go: the tracer configuration record, span creation, the query
    tag key and the conversion of named arguments to positional ones. */
module Common {
  import opened DriverApi
  import opened Tracing

  /** The tag key under which a query is saved (the package-level
      spanTagQuery).  SetTagQuery, which reassigns it process-wide, is not
      modelled: the key is this constant. */
  const SpanTagQuery: string := "query"

  /** A span naming function (SpanNameFunc). */
  type SpanNameFunc = Context -> string

  /** defaultNameFunc: the name of the function at stack depth three from the
      naming function, or "" when stack introspection fails.  The stack is
      not modelled; the context's callerFrame stands for it. */
  function DefaultNameFunc(ctx: Context): string {
    ctx.callerFrame.GetOr("")
  }

  /** The fields of the tracer record, as a value. */
  datatype Settings = Settings(
    backend: TracerHandle,
    nameFunc: Option<SpanNameFunc>,
    observer: Option<Observer>,
    saveQuery: bool)

  /** The tracer a fresh tracingDriver starts from: only the backend is set. */
  function Initial(t: TracerHandle): (cfg: Settings)
    ensures cfg.backend == t && cfg.nameFunc.None? && cfg.observer.None? && !cfg.saveQuery
  {
    Settings(t, None, None, false)
  }

  /** The tracer record shared by reference by a driver and everything
      derived from it.  Its fields are written only while the driver is
      being built (options.go, driver.go). */
  class Tracer {
    var backend: TracerHandle
    var nameFunc: Option<SpanNameFunc>
    var observer: Option<Observer>
    var saveQuery: bool

    constructor (t: TracerHandle)
      ensures Config() == Initial(t)
    {
      backend := t;
      nameFunc := None;
      observer := None;
      saveQuery := false;
    }

    function Config(): Settings
      reads this
    {
      Settings(backend, nameFunc, observer, saveQuery)
    }

    /** A naming function is installed, as NewTracingDriver guarantees. */
    predicate Ready()
      reads this
    {
      nameFunc.Some?
    }

    /** newSpan: name the span, start it (as a child of the context's span
        when there is one), then hand it to the observer if there is one. */
    method NewSpan(ctx: Context, rec: Recorder) returns (s: SpanId)
      requires Ready()
      modifies rec
      ensures s == old(rec.spans) && rec.spans == old(rec.spans) + 1
      ensures rec.events == old(rec.events) + NewSpanEvents(Config(), ctx, s)
    {
      var name := nameFunc.value(ctx);
      s := rec.StartSpan(backend, name, ctx.parent);
      if observer.Some? {
        rec.Emit([Observe(observer.value, ctx, s)]);
      }
    }
  }

  /** The effects of newSpan when the backend gives the new span the
      identity s. */
  function NewSpanEvents(cfg: Settings, ctx: Context, s: SpanId): seq<Event>
    requires cfg.nameFunc.Some?
  {
    var start := SpanStart(cfg.backend, s, cfg.nameFunc.value(ctx), ctx.parent);
    if cfg.observer.Some? then [start, Observe(cfg.observer.value, ctx, s)] else [start]
  }

  /** newSpan starts exactly one span, named by the naming function and with
      the context's span as parent; the observer, when set, runs once, after
      the start and on that same span; nothing is finished, tagged or
      delegated. */
  lemma NewSpanShape(cfg: Settings, ctx: Context, s: SpanId)
    requires cfg.nameFunc.Some?
    ensures var tr := NewSpanEvents(cfg, ctx, s);
      && |tr| > 0 && tr[0] == SpanStart(cfg.backend, s, cfg.nameFunc.value(ctx), ctx.parent)
      && Starts(tr) == 1
      && Observations(tr) == (if cfg.observer.Some? then 1 else 0)
      && (forall i :: 0 <= i < |tr| && tr[i].Observe? ==>
            0 < i && cfg.observer.Some? && tr[i] == Observe(cfg.observer.value, ctx, s))
      && (forall i :: 0 <= i < |tr| ==> tr[i].SpanStart? || tr[i].Observe?)
      && Tags(tr) == 0 && Delegations(tr) == 0
      && (forall x :: Finishes(tr, x) == 0)
  {
    var tr := NewSpanEvents(cfg, ctx, s);
    CountsSingle(tr[0]);
    if cfg.observer.Some? {
      CountsSingle(tr[1]);
      assert tr == [tr[0]] + [tr[1]];
      CountsAppend([tr[0]], [tr[1]]);
    }
  }

  /** The query tag conn.go and stmt.go set when saveQuery is on. */
  function QueryTag(cfg: Settings, s: SpanId, query: string): seq<Event> {
    if cfg.saveQuery then [SetTag(s, SpanTagQuery, query)] else []
  }

  /** A traced call: newSpan, the given tags, the wrapped call, and the
      deferred Finish of the span, which runs after the call returns. */
  function Traced<T>(cfg: Settings, ctx: Context, s: SpanId, tags: seq<Event>, inner: Step<T>): Step<T>
    requires cfg.nameFunc.Some?
  {
    Step(inner.out, NewSpanEvents(cfg, ctx, s) + tags + inner.effects + [SpanFinish(s)])
  }

  /** A traced call around calls only returns what the call returns, starts
      one span first and finishes that span once, last, and no other span;
      it calls the wrapped objects exactly as the inner call does, and every
      tag precedes every call. */
  lemma TracedShape<T>(cfg: Settings, ctx: Context, s: SpanId, tags: seq<Event>, inner: Step<T>)
    requires cfg.nameFunc.Some?
    requires OnlyDelegations(inner.effects)
    requires forall i :: 0 <= i < |tags| ==> tags[i].SetTag?
    ensures var r := Traced(cfg, ctx, s, tags, inner);
      && r.out == inner.out
      && r.effects[0] == SpanStart(cfg.backend, s, cfg.nameFunc.value(ctx), ctx.parent)
      && r.effects[|r.effects| - 1] == SpanFinish(s)
      && Starts(r.effects) == 1
      && Finishes(r.effects, s) == 1
      && (forall x :: x != s ==> Finishes(r.effects, x) == 0)
      && Observations(r.effects) == (if cfg.observer.Some? then 1 else 0)
      && Tags(r.effects) == |tags|
      && Delegations(r.effects) == Delegations(inner.effects)
      && TagsBeforeDelegations(r.effects)
      && (forall e: Event :: e.Delegate? ==> (e in r.effects <==> e in inner.effects))
  {
    var head := NewSpanEvents(cfg, ctx, s);
    NewSpanShape(cfg, ctx, s);
    var body := inner.effects;
    var tr := head + tags + body + [SpanFinish(s)];
    OnlyDelegationsCounts(body);
    TagCounts(tags);
    CountsAppend(head, tags);
    CountsAppend(head + tags, body);
    CountsAppend(head + tags + body, [SpanFinish(s)]);
    assert Finishes([SpanFinish(s)], s) == 1;
    assert forall x :: x != s ==> Finishes([SpanFinish(s)], x) == 0;
    assert tr[0] == head[0];
    assert NoDelegations(head + tags) by {
      forall k | 0 <= k < |head + tags| ensures !(head + tags)[k].Delegate? {
        if k >= |head| { assert (head + tags)[k] == tags[k - |head|]; }
      }
    }
    assert NoTags(body + [SpanFinish(s)]) by {
      forall k | 0 <= k < |body + [SpanFinish(s)]| ensures !(body + [SpanFinish(s)])[k].SetTag? {
        if k < |body| { assert (body + [SpanFinish(s)])[k] == body[k]; }
      }
    }
    assert tr == (head + tags) + (body + [SpanFinish(s)]);
    OrderedConcat(head + tags, body + [SpanFinish(s)]);
  }

  /** No call on a wrapped object in the trace. */
  predicate NoDelegations(tr: seq<Event>) {
    forall k :: 0 <= k < |tr| ==> !tr[k].Delegate?
  }

  /** No tag in the trace. */
  predicate NoTags(tr: seq<Event>) {
    forall k :: 0 <= k < |tr| ==> !tr[k].SetTag?
  }

  /** Tags before calls, then calls after tags, keep tags before calls. */
  lemma OrderedConcat(x: seq<Event>, y: seq<Event>)
    requires NoDelegations(x) && NoTags(y)
    ensures TagsBeforeDelegations(x + y)
  {
  }

  /** A sequence of tags only tags. */
  lemma {:induction false} TagCounts(tags: seq<Event>)
    requires forall i :: 0 <= i < |tags| ==> tags[i].SetTag?
    ensures Starts(tags) == 0 && Observations(tags) == 0 && Delegations(tags) == 0
    ensures Tags(tags) == |tags|
    ensures forall x :: Finishes(tags, x) == 0
  {
    if tags != [] {
      TagCounts(tags[1..]);
    }
  }

  /** The span bracket of ExecContext and QueryContext in conn.go and
      stmt.go: as TracedShape, and moreover the query is saved under the
      query tag key, exactly as given, if and only if saveQuery is on, and
      no other tag is set. */
  lemma QuerySpanShape<T>(cfg: Settings, ctx: Context, s: SpanId, query: string, inner: Step<T>)
    requires cfg.nameFunc.Some?
    requires OnlyDelegations(inner.effects)
    ensures var r := Traced(cfg, ctx, s, QueryTag(cfg, s, query), inner);
      && r.out == inner.out
      && r.effects[0] == SpanStart(cfg.backend, s, cfg.nameFunc.value(ctx), ctx.parent)
      && r.effects[|r.effects| - 1] == SpanFinish(s)
      && Starts(r.effects) == 1
      && Finishes(r.effects, s) == 1
      && (forall x :: x != s ==> Finishes(r.effects, x) == 0)
      && Observations(r.effects) == (if cfg.observer.Some? then 1 else 0)
      && Tags(r.effects) == (if cfg.saveQuery then 1 else 0)
      && (cfg.saveQuery <==> SetTag(s, SpanTagQuery, query) in r.effects)
      && Delegations(r.effects) == Delegations(inner.effects)
      && TagsBeforeDelegations(r.effects)
      && (forall e: Event :: e.Delegate? ==> (e in r.effects <==> e in inner.effects))
  {
    var tags := QueryTag(cfg, s, query);
    TracedShape(cfg, ctx, s, tags, inner);
    var r := Traced(cfg, ctx, s, tags, inner);
    NewSpanShape(cfg, ctx, s);
    if cfg.saveQuery {
      assert r.effects[|NewSpanEvents(cfg, ctx, s)|] == SetTag(s, SpanTagQuery, query);
    } else {
      if SetTag(s, SpanTagQuery, query) in r.effects {
        var k :| 0 <= k < |r.effects| && r.effects[k] == SetTag(s, SpanTagQuery, query);
        TagPresentCounts(r.effects, k);
        assert false;
      }
    }
  }

  /** A trace with a tag at position k counts at least one tag. */
  lemma {:induction false} TagPresentCounts(tr: seq<Event>, k: nat)
    requires k < |tr| && tr[k].SetTag?
    ensures Tags(tr) > 0
  {
    if k > 0 {
      TagPresentCounts(tr[1..], k - 1);
    }
  }

  /** Every argument is unnamed. */
  predicate AllUnnamed(named: seq<NamedValue>) {
    forall i :: 0 <= i < |named| ==> named[i].name == ""
  }

  /** The values of the arguments, in order. */
  function ValuesOf(named: seq<NamedValue>): (vs: seq<Value>)
    ensures |vs| == |named|
    ensures forall i :: 0 <= i < |named| ==> vs[i] == named[i].value
  {
    if named == [] then [] else [named[0].value] + ValuesOf(named[1..])
  }

  /** The conversion namedValueToValue performs, as a function of its input:
      the positional values when no argument has a name, the named-parameter
      error otherwise. */
  function NamedToValues(named: seq<NamedValue>): (r: Outcome<seq<Value>>)
    ensures r.Ok? <==> AllUnnamed(named)
    ensures r.Err? ==> r.err == ErrNamedParameters
    ensures r.Ok? ==> r.value == ValuesOf(named)
  {
    if AllUnnamed(named) then Ok(ValuesOf(named)) else Err(ErrNamedParameters)
  }

  /** namedValueToValue: fills a preallocated array with the argument values
      in order and stops at the first argument that carries a name. */
  method NamedValueToValue(named: seq<NamedValue>) returns (r: Outcome<seq<Value>>)
    ensures r.Ok? <==> forall i :: 0 <= i < |named| ==> |named[i].name| == 0
    ensures r.Err? ==> r.err == ErrNamedParameters
    ensures r.Ok? ==> |r.value| == |named| && forall i :: 0 <= i < |named| ==> r.value[i] == named[i].value
    ensures r == NamedToValues(named)
  {
    var dargs := new Value[|named|];
    for n := 0 to |named|
      invariant forall k :: 0 <= k < n ==> named[k].name == "" && dargs[k] == named[k].value
    {
      if |named[n].name| > 0 {
        return Err(ErrNamedParameters);
      }
      dargs[n] := named[n].value;
    }
    r := Ok(dargs[..]);
    assert r.value == ValuesOf(named);
  }
}
