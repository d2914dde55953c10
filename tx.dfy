/** tx.go: the tracing wrapper around a driver.Tx.  It never starts a span;
    it finishes the span BeginTx attached, if any, after the underlying
    Commit or Rollback (the Finish is deferred). */
module TxWrapper {
  import opened DriverApi
  import opened Tracing
  import opened Common

  /** tx: owns a driver.Tx, shares the driver's tracer and holds the span
      BeginTx opened, or none. */
  datatype Tx = Tx(tx: DriverTx, tracer: Tracer, span: Option<SpanId>)

  /** The deferred Finish of the attached span, if there is one. */
  function FinishAttached(t: Tx): seq<Event> {
    if t.span.Some? then [SpanFinish(t.span.value)] else []
  }

  /** Commit's effects and result, given the transaction's own answer. */
  function CommitStep(t: Tx, reply: Option<Error>): Step<Option<Error>> {
    Step(reply, [Delegate(t.tx.id, TxCommit)] + FinishAttached(t))
  }

  /** Rollback's effects and result, given the transaction's own answer. */
  function RollbackStep(t: Tx, reply: Option<Error>): Step<Option<Error>> {
    Step(reply, [Delegate(t.tx.id, TxRollback)] + FinishAttached(t))
  }

  method Commit(t: Tx, reply: Option<Error>, rec: Recorder) returns (err: Option<Error>)
    modifies rec
    ensures rec.spans == old(rec.spans)
    ensures err == CommitStep(t, reply).out
    ensures rec.events == old(rec.events) + CommitStep(t, reply).effects
  {
    rec.Emit([Delegate(t.tx.id, TxCommit)]);
    if t.span.Some? {
      rec.Emit([SpanFinish(t.span.value)]);   // the deferred t.span.Finish
    }
    err := reply;
  }

  method Rollback(t: Tx, reply: Option<Error>, rec: Recorder) returns (err: Option<Error>)
    modifies rec
    ensures rec.spans == old(rec.spans)
    ensures err == RollbackStep(t, reply).out
    ensures rec.events == old(rec.events) + RollbackStep(t, reply).effects
  {
    rec.Emit([Delegate(t.tx.id, TxRollback)]);
    if t.span.Some? {
      rec.Emit([SpanFinish(t.span.value)]);   // the deferred t.span.Finish
    }
    err := reply;
  }

  /** The effects of ending a transaction with the given call: that call
      first and once, then one Finish of the attached span and of no other;
      no span is started and nothing is tagged. */
  ghost predicate EndsOnce(t: Tx, call: Call, tr: seq<Event>) {
    && |tr| > 0 && tr[0] == Delegate(t.tx.id, call)
    && Delegations(tr) == 1
    && Starts(tr) == 0 && Tags(tr) == 0 && Observations(tr) == 0
    && (forall x: SpanId :: Finishes(tr, x) == (if t.span == Some(x) then 1 else 0))
  }

  lemma FinishAttachedCounts(t: Tx)
    ensures Starts(FinishAttached(t)) == 0 && Tags(FinishAttached(t)) == 0
    ensures Observations(FinishAttached(t)) == 0 && Delegations(FinishAttached(t)) == 0
    ensures forall x: SpanId :: Finishes(FinishAttached(t), x) == (if t.span == Some(x) then 1 else 0)
  {
    if t.span.Some? {
      CountsSingle(SpanFinish(t.span.value));
    }
  }

  /** Commit calls the transaction's Commit once, returns its error
      unchanged, and finishes the attached span once, after the call; with
      no span attached it touches no span. */
  lemma CommitShape(t: Tx, reply: Option<Error>)
    ensures CommitStep(t, reply).out == reply
    ensures EndsOnce(t, TxCommit, CommitStep(t, reply).effects)
  {
    CountsSingle(Delegate(t.tx.id, TxCommit));
    FinishAttachedCounts(t);
    CountsAppend([Delegate(t.tx.id, TxCommit)], FinishAttached(t));
  }

  /** Rollback is symmetric to Commit. */
  lemma RollbackShape(t: Tx, reply: Option<Error>)
    ensures RollbackStep(t, reply).out == reply
    ensures EndsOnce(t, TxRollback, RollbackStep(t, reply).effects)
  {
    CountsSingle(Delegate(t.tx.id, TxRollback));
    FinishAttachedCounts(t);
    CountsAppend([Delegate(t.tx.id, TxRollback)], FinishAttached(t));
  }

  /** Neither call clears the span, so ending a spanned transaction twice
      (Commit then Rollback, say) finishes its span twice. */
  lemma EndTwiceFinishesTwice(t: Tx, first: Option<Error>, second: Option<Error>)
    requires t.span.Some?
    ensures Finishes(CommitStep(t, first).effects + RollbackStep(t, second).effects, t.span.value) == 2
    ensures Finishes(CommitStep(t, first).effects + CommitStep(t, second).effects, t.span.value) == 2
  {
    CommitShape(t, first);
    CommitShape(t, second);
    RollbackShape(t, second);
    CountsAppend(CommitStep(t, first).effects, RollbackStep(t, second).effects);
    CountsAppend(CommitStep(t, first).effects, CommitStep(t, second).effects);
  }
}
