/** The surface of Go's database/sql/driver package as the tracing wrappers
    consume it.  Underlying driver objects are records of the optional
    interfaces they implement plus an identity; what they compute is not
    modelled, only what they answer to the one call a wrapper makes. */
module DriverApi {

  datatype Option<+T> = None | Some(value: T) {
    function GetOr(default: T): T {
      if Some? then value else default
    }
  }

  /** The errors the wrappers can return.  ErrUnsupported and the
      named-parameter error are the package's own (common.go); every other
      error comes from the wrapped driver and is passed on verbatim. */
  datatype Error =
    | ErrUnsupported
    | ErrNamedParameters
    | DriverError(code: nat)

  /** A Go `(T, error)` pair: either a value with a nil error, or an error
      with a nil value. */
  datatype Outcome<+T> = Ok(value: T) | Err(err: Error)

  /** driver.Value: an opaque argument value. */
  datatype Value = Value(raw: int)

  /** driver.NamedValue: a possibly named, ordinal-numbered argument. */
  datatype NamedValue = NamedValue(name: string, ordinal: int, value: Value)

  /** driver.TxOptions. */
  datatype TxOptions = TxOptions(isolation: nat, readOnly: bool)

  /** Which optional interfaces a driver.Conn implements. */
  datatype ConnCaps = ConnCaps(
    execer: bool,              // driver.Execer
    queryer: bool,             // driver.Queryer
    execerContext: bool,       // driver.ExecerContext
    queryerContext: bool,      // driver.QueryerContext
    pinger: bool,              // driver.Pinger
    beginTx: bool,             // driver.ConnBeginTx
    prepareContext: bool)      // driver.ConnPrepareContext

  /** An underlying driver.Conn. */
  datatype DriverConn = DriverConn(id: nat, caps: ConnCaps)

  /** An underlying driver.Stmt, with whether it also implements the
      connection-level driver.ExecerContext and driver.QueryerContext
      interfaces (the ones stmt.go asserts). */
  datatype DriverStmt = DriverStmt(id: nat, execerContext: bool, queryerContext: bool)

  /** An underlying driver.Tx. */
  datatype DriverTx = DriverTx(id: nat)

  /** An underlying driver.Driver. */
  datatype DriverHandle = DriverHandle(id: nat)

  /** Opaque driver.Result and driver.Rows values. */
  datatype ResultHandle = ResultHandle(id: nat)
  datatype RowsHandle = RowsHandle(id: nat)
}
