/** The observable effects of the wrappers.  The opentracing backend and the
    wrapped driver are not modelled; a Recorder stands for both and keeps
    the ordered trace of what the wrappers asked of them. */
module Tracing {
  import opened DriverApi

  /** Spans are opaque: the n-th span the backend starts is span n. */
  type SpanId = nat

  /** A context.Context as far as the wrappers look at it: the span it
      carries (opentracing.SpanFromContext), the values a custom naming
      function may read, and the function name that stack introspection
      (runtime.Caller(3) with runtime.FuncForPC) reports for the call that
      carries this context, None when either of them fails. */
  datatype Context = Context(
    parent: Option<SpanId>,
    values: map<string, string>,
    callerFrame: Option<string>)

  /** An opentracing.Tracer handle; opaque. */
  datatype TracerHandle = TracerHandle(id: nat)

  /** A span observer callback; opaque, only its invocations are recorded. */
  datatype Observer = Observer(id: nat)

  /** A call made on an underlying driver object, with its arguments. */
  datatype Call =
    | DriverOpen(name: string)
    | ConnPrepare(query: string)
    | ConnClose
    | ConnBegin
    | ConnBeginTx(ctx: Context, opts: TxOptions)
    | ConnPrepareContext(ctx: Context, query: string)
    | ConnExec(query: string, args: seq<Value>)
    | ConnExecContext(ctx: Context, query: string, named: seq<NamedValue>)
    | ConnPing(ctx: Context)
    | ConnQuery(query: string, args: seq<Value>)
    | ConnQueryContext(ctx: Context, query: string, named: seq<NamedValue>)
    | StmtClose
    | StmtNumInput
    | StmtExec(args: seq<Value>)
    | StmtQuery(args: seq<Value>)
    | StmtExecContext(ctx: Context, query: string, named: seq<NamedValue>)
    | StmtQueryContext(ctx: Context, query: string, named: seq<NamedValue>)
    | TxCommit
    | TxRollback

  /** One observable effect. */
  datatype Event =
    | SpanStart(tracer: TracerHandle, span: SpanId, name: string, parent: Option<SpanId>)
                                                           // tracer.StartSpan, ChildOf(parent) when present
    | Observe(observer: Observer, ctx: Context, span: SpanId)  // the observer callback runs
    | SetTag(span: SpanId, key: string, tag: string)           // span.SetTag
    | Delegate(target: nat, call: Call)                        // a call on the wrapped object
    | SpanFinish(span: SpanId)                                 // span.Finish

  /** What a wrapper operation returns, together with the effects it has. */
  datatype Step<+T> = Step(out: T, effects: seq<Event>)

  /** Number of spans started in a trace. */
  function Starts(tr: seq<Event>): nat {
    if tr == [] then 0 else (if tr[0].SpanStart? then 1 else 0) + Starts(tr[1..])
  }

  /** Number of times span s is finished in a trace. */
  function Finishes(tr: seq<Event>, s: SpanId): nat {
    if tr == [] then 0 else (if tr[0] == SpanFinish(s) then 1 else 0) + Finishes(tr[1..], s)
  }

  /** Number of observer invocations in a trace. */
  function Observations(tr: seq<Event>): nat {
    if tr == [] then 0 else (if tr[0].Observe? then 1 else 0) + Observations(tr[1..])
  }

  /** Number of tags set in a trace. */
  function Tags(tr: seq<Event>): nat {
    if tr == [] then 0 else (if tr[0].SetTag? then 1 else 0) + Tags(tr[1..])
  }

  /** Number of calls on wrapped objects in a trace. */
  function Delegations(tr: seq<Event>): nat {
    if tr == [] then 0 else (if tr[0].Delegate? then 1 else 0) + Delegations(tr[1..])
  }

  /** A trace that touches no span: only calls on wrapped objects. */
  predicate OnlyDelegations(tr: seq<Event>) {
    forall i :: 0 <= i < |tr| ==> tr[i].Delegate?
  }

  /** Every tag in the trace is set before every call on a wrapped object. */
  predicate TagsBeforeDelegations(tr: seq<Event>) {
    forall i, j :: 0 <= i < |tr| && 0 <= j < |tr| && tr[i].SetTag? && tr[j].Delegate? ==> i < j
  }

  /** Every counter distributes over concatenation of traces. */
  lemma {:induction false} CountsAppend(a: seq<Event>, b: seq<Event>)
    ensures Starts(a + b) == Starts(a) + Starts(b)
    ensures forall s :: Finishes(a + b, s) == Finishes(a, s) + Finishes(b, s)
    ensures Observations(a + b) == Observations(a) + Observations(b)
    ensures Tags(a + b) == Tags(a) + Tags(b)
    ensures Delegations(a + b) == Delegations(a) + Delegations(b)
  {
    if a == [] {
      assert a + b == b;
    } else {
      CountsAppend(a[1..], b);
      assert (a + b)[1..] == a[1..] + b;
    }
  }

  /** The counters of a one-event trace. */
  lemma CountsSingle(e: Event)
    ensures Starts([e]) == (if e.SpanStart? then 1 else 0)
    ensures forall s :: Finishes([e], s) == (if e == SpanFinish(s) then 1 else 0)
    ensures Observations([e]) == (if e.Observe? then 1 else 0)
    ensures Tags([e]) == (if e.SetTag? then 1 else 0)
    ensures Delegations([e]) == (if e.Delegate? then 1 else 0)
  {
    assert [e][1..] == [];
  }

  /** A trace of calls only starts, finishes, observes and tags nothing, and
      each of its events is a delegation. */
  lemma {:induction false} OnlyDelegationsCounts(tr: seq<Event>)
    requires OnlyDelegations(tr)
    ensures Starts(tr) == 0 && Observations(tr) == 0 && Tags(tr) == 0
    ensures forall s :: Finishes(tr, s) == 0
    ensures Delegations(tr) == |tr|
  {
    if tr != [] {
      OnlyDelegationsCounts(tr[1..]);
    }
  }

  /** The tracing backend and the wrapped driver, seen from the wrappers:
      the ordered log of every effect and the number of spans started so
      far, which is also the identity of the next span. */
  class Recorder {
    var events: seq<Event>
    var spans: nat

    constructor ()
      ensures events == [] && spans == 0
    {
      events := [];
      spans := 0;
    }

    /** StartSpan on the given tracer: a new span, distinct from every earlier one. */
    method StartSpan(tracer: TracerHandle, name: string, parent: Option<SpanId>) returns (s: SpanId)
      modifies this
      ensures s == old(spans) && spans == old(spans) + 1
      ensures events == old(events) + [SpanStart(tracer, s, name, parent)]
    {
      s := spans;
      spans := spans + 1;
      events := events + [SpanStart(tracer, s, name, parent)];
    }

    /** Records effects other than a span start: spans are only started
        through StartSpan, so their identities stay distinct. */
    method Emit(es: seq<Event>)
      requires forall i :: 0 <= i < |es| ==> !es[i].SpanStart?
      modifies this
      ensures spans == old(spans)
      ensures events == old(events) + es
    {
      events := events + es;
    }
  }
}
