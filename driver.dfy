/** driver.go: the traced driver.  NewTracingDriver builds one tracer, runs
    the options on it in order and installs the default naming function when
    none was set; Open wraps every connection with that same tracer. */
module TracingDriver {
  import opened DriverApi
  import opened Tracing
  import opened Common
  import opened Options
  import opened ConnWrapper

  /** The tracer after the options, applied left to right, have run. */
  function Configure(opts: seq<DriverOption>, cfg: Settings): Settings {
    if opts == [] then cfg else ApplyTo(opts[|opts| - 1], Configure(opts[..|opts| - 1], cfg))
  }

  /** The default naming function goes in only where no naming function is. */
  function WithDefaultName(cfg: Settings): (r: Settings)
    ensures r.nameFunc.Some?
    ensures r.backend == cfg.backend && r.observer == cfg.observer && r.saveQuery == cfg.saveQuery
    ensures cfg.nameFunc.Some? ==> r.nameFunc == cfg.nameFunc
    ensures cfg.nameFunc.None? ==> r.nameFunc == Some(DefaultNameFunc)
  {
    if cfg.nameFunc.None? then cfg.(nameFunc := Some(DefaultNameFunc)) else cfg
  }

  /** The tracer NewTracingDriver(d, t, opts...) ends up with. */
  function Built(t: TracerHandle, opts: seq<DriverOption>): Settings {
    WithDefaultName(Configure(opts, Initial(t)))
  }

  /** tracingDriver: the wrapped driver and the tracer shared with every
      connection it opens. */
  class TracingDriver {
    const driver: DriverHandle
    const tracer: Tracer

    /** NewTracingDriver. */
    constructor (d: DriverHandle, t: TracerHandle, options: seq<DriverOption>)
      ensures driver == d && fresh(tracer)
      ensures tracer.Config() == Built(t, options)
      ensures tracer.Ready()
    {
      var tr := new Tracer(t);
      for i := 0 to |options|
        invariant tr.Config() == Configure(options[..i], Initial(t))
      {
        Apply(options[i], tr);
        assert options[..i + 1][..i] == options[..i];
      }
      assert options[..|options|] == options;
      if tr.nameFunc.None? {
        tr.nameFunc := Some(DefaultNameFunc);
      }
      driver := d;
      tracer := tr;
    }
  }

  /** Open: the driver's error unchanged and no connection, or the driver's
      connection wrapped with the driver's own tracer; no span either way. */
  function Open(d: TracingDriver, name: string, reply: Outcome<DriverConn>): (r: Step<Outcome<Conn>>)
    ensures Starts(r.effects) == 0 && r.effects == [Delegate(d.driver.id, DriverOpen(name))]
    ensures reply.Err? ==> r.out == Err(reply.err)
    ensures reply.Ok? ==> r.out == Ok(Conn(reply.value, d.tracer))
  {
    CountsSingle(Delegate(d.driver.id, DriverOpen(name)));
    var effects := [Delegate(d.driver.id, DriverOpen(name))];
    match reply
    case Err(e) => Step(Err(e), effects)
    case Ok(c) => Step(Ok(Conn(c, d.tracer)), effects)
  }

  /** The options never touch the tracer handle. */
  lemma {:induction false} ConfigureKeepsBackend(opts: seq<DriverOption>, cfg: Settings)
    ensures Configure(opts, cfg).backend == cfg.backend
  {
    if opts != [] {
      ConfigureKeepsBackend(opts[..|opts| - 1], cfg);
    }
  }

  /** saveQuery ends up on iff it was on or some option is SaveQuery's. */
  lemma {:induction false} ConfigureSaveQuery(opts: seq<DriverOption>, cfg: Settings)
    ensures Configure(opts, cfg).saveQuery <==>
      (cfg.saveQuery || exists i :: 0 <= i < |opts| && opts[i].SetSaveQuery?)
  {
    if opts != [] {
      var init := opts[..|opts| - 1];
      ConfigureSaveQuery(init, cfg);
      if exists i :: 0 <= i < |opts| && opts[i].SetSaveQuery? {
        var i :| 0 <= i < |opts| && opts[i].SetSaveQuery?;
        if i < |opts| - 1 {
          assert init[i].SetSaveQuery?;
        }
      }
    }
  }

  /** Without a SpanNameFunction option the naming function is left as it was. */
  lemma {:induction false} ConfigureNameFuncUntouched(opts: seq<DriverOption>, cfg: Settings)
    requires forall k :: 0 <= k < |opts| ==> !opts[k].SetNameFunc?
    ensures Configure(opts, cfg).nameFunc == cfg.nameFunc
  {
    if opts != [] {
      ConfigureNameFuncUntouched(opts[..|opts| - 1], cfg);
    }
  }

  /** The last SpanNameFunction option decides the naming function. */
  lemma {:induction false} ConfigureNameFuncLastWins(opts: seq<DriverOption>, cfg: Settings, j: nat)
    requires j < |opts| && opts[j].SetNameFunc?
    requires forall k :: j < k < |opts| ==> !opts[k].SetNameFunc?
    ensures Configure(opts, cfg).nameFunc == opts[j].f
  {
    if j < |opts| - 1 {
      ConfigureNameFuncLastWins(opts[..|opts| - 1], cfg, j);
    }
  }

  /** Without a WithSpanObserver option the observer is left as it was. */
  lemma {:induction false} ConfigureObserverUntouched(opts: seq<DriverOption>, cfg: Settings)
    requires forall k :: 0 <= k < |opts| ==> !opts[k].SetObserver?
    ensures Configure(opts, cfg).observer == cfg.observer
  {
    if opts != [] {
      ConfigureObserverUntouched(opts[..|opts| - 1], cfg);
    }
  }

  /** The last WithSpanObserver option decides the observer. */
  lemma {:induction false} ConfigureObserverLastWins(opts: seq<DriverOption>, cfg: Settings, j: nat)
    requires j < |opts| && opts[j].SetObserver?
    requires forall k :: j < k < |opts| ==> !opts[k].SetObserver?
    ensures Configure(opts, cfg).observer == opts[j].o
  {
    if j < |opts| - 1 {
      ConfigureObserverLastWins(opts[..|opts| - 1], cfg, j);
    }
  }

  /** Repeating the last option changes nothing. */
  lemma ConfigureRepeatLast(opts: seq<DriverOption>, opt: DriverOption, cfg: Settings)
    ensures Configure(opts + [opt, opt], cfg) == Configure(opts + [opt], cfg)
  {
    assert (opts + [opt, opt])[..|opts| + 1] == opts + [opt];
    assert (opts + [opt])[..|opts|] == opts;
    ApplyIdempotent(opt, Configure(opts, cfg));
  }

  /** With no options the driver keeps the given tracer handle, saves no
      query, observes nothing and names spans with the default function. */
  lemma BuiltWithoutOptions(t: TracerHandle)
    ensures Built(t, []) == Settings(t, Some(DefaultNameFunc), None, false)
  {
  }

  /** The naming function NewTracingDriver installs: the default one without
      a SpanNameFunction option or when the last such option passed nil,
      otherwise the function the last such option passed. */
  lemma BuiltNameFunc(t: TracerHandle, opts: seq<DriverOption>)
    ensures Built(t, opts).backend == t
    ensures (forall k :: 0 <= k < |opts| ==> !opts[k].SetNameFunc?) ==>
      Built(t, opts).nameFunc == Some(DefaultNameFunc)
    ensures forall j ::
      (0 <= j < |opts| && opts[j].SetNameFunc? && (forall k :: j < k < |opts| ==> !opts[k].SetNameFunc?)) ==>
        Built(t, opts).nameFunc == (if opts[j].f.Some? then opts[j].f else Some(DefaultNameFunc))
  {
    ConfigureKeepsBackend(opts, Initial(t));
    if forall k :: 0 <= k < |opts| ==> !opts[k].SetNameFunc? {
      ConfigureNameFuncUntouched(opts, Initial(t));
    }
    forall j | 0 <= j < |opts| && opts[j].SetNameFunc? && (forall k :: j < k < |opts| ==> !opts[k].SetNameFunc?)
      ensures Built(t, opts).nameFunc == (if opts[j].f.Some? then opts[j].f else Some(DefaultNameFunc))
    {
      ConfigureNameFuncLastWins(opts, Initial(t), j);
    }
  }

  /** Every span a driver opens is started on the tracer handle it was
      built with, whatever the options. */
  lemma {:induction false} BuiltSpansStartOnHandle(t: TracerHandle, opts: seq<DriverOption>, ctx: Context, s: SpanId)
    ensures var cfg := Built(t, opts);
      NewSpanEvents(cfg, ctx, s)[0] == SpanStart(t, s, cfg.nameFunc.value(ctx), ctx.parent)
  {
    ConfigureKeepsBackend(opts, Initial(t));
  }
}
