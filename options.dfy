/** options.go: the three construction options.  Each Go option is a
    closure over a *tracingDriver that writes one field of its tracer; here
    an option is the datatype value the constructor returns, and applying it
    writes that field of the tracer.  (The closure reaches the tracer
    through the driver; nothing else of the driver is touched.) */
module Options {
  import opened DriverApi
  import opened Tracing
  import opened Common

  /** The closure an option constructor returns. */
  datatype DriverOption =
    | SetNameFunc(f: Option<SpanNameFunc>)
    | SetSaveQuery
    | SetObserver(o: Option<Observer>)

  /** What applying an option does to the tracer record. */
  function ApplyTo(opt: DriverOption, cfg: Settings): Settings {
    match opt
    case SetNameFunc(f) => cfg.(nameFunc := f)
    case SetSaveQuery => cfg.(saveQuery := true)
    case SetObserver(o) => cfg.(observer := o)
  }

  /** SpanNameFunction(f): its option installs f (nil included) as the
      naming function and changes no other field. */
  function SpanNameFunction(f: Option<SpanNameFunc>): (opt: DriverOption)
    ensures forall cfg :: ApplyTo(opt, cfg) == cfg.(nameFunc := f)
  {
    SetNameFunc(f)
  }

  /** SaveQuery(f): its option turns saveQuery on and changes no other
      field; f plays no part, so every argument gives the same option. */
  function SaveQuery(f: Option<SpanNameFunc>): (opt: DriverOption)
    ensures forall cfg :: ApplyTo(opt, cfg) == cfg.(saveQuery := true)
  {
    SetSaveQuery
  }

  /** WithSpanObserver(o): its option installs o (nil included) as the
      observer and changes no other field. */
  function WithSpanObserver(o: Option<Observer>): (opt: DriverOption)
    ensures forall cfg :: ApplyTo(opt, cfg) == cfg.(observer := o)
  {
    SetObserver(o)
  }

  /** Runs an option on the driver's tracer. */
  method Apply(opt: DriverOption, t: Tracer)
    modifies t
    ensures t.Config() == ApplyTo(opt, old(t.Config()))
  {
    match opt
    case SetNameFunc(f) => t.nameFunc := f;
    case SetSaveQuery => t.saveQuery := true;
    case SetObserver(o) => t.observer := o;
  }

  /** Every option is idempotent: running it twice leaves the tracer as
      running it once does. */
  lemma ApplyIdempotent(opt: DriverOption, cfg: Settings)
    ensures ApplyTo(opt, ApplyTo(opt, cfg)) == ApplyTo(opt, cfg)
  {
  }
}
