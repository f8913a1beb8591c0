/** The delivery ledger: what holds of its rows under every fault, and what more holds of a job
    that no fault has split, so that never two handlers are past `reserve` for the same attempt. */
module DeliveryLedger {
  import opened Contracts
  import opened RetryPolicy
  import opened Delivery
  import opened DeliveryStructure
  import opened DeliveryMeasures
  import opened DeliveryAccounting
  import opened DeliveryHandover
  import opened DeliveryTheorems

  /******* Under every fault *******/

  predicate ClosedRow(ledger: map<Key, Outcome>, job: nat, a: nat) {
    (job, a) in ledger && ledger[(job, a)] != Pending
  }

  lemma {:induction false} EarlierRows(s: State, job: nat, a: nat, b: nat)
    requires LedgerOk(s) && IssuedOk(s) && (job, b) in s.ledger && a < b
    ensures b <= MAX_ATTEMPTS
    ensures ClosedRow(s.ledger, job, a) && ((job, a), Failed) in s.written
  {
    assert s.submitted[job].(attempt := b) in s.issued;
    assert ((job, b - 1), Failed) in s.written;
    if a < b - 1 {
      EarlierRows(s, job, a, b - 1);
    }
  }

  /** Rows are contiguous: below a row every earlier attempt has a row, and it is closed. */
  lemma ContiguousRows(s: State, job: nat, a: nat, b: nat)
    requires Reachable(s) && (job, b) in s.ledger && a < b
    ensures b <= MAX_ATTEMPTS
    ensures ClosedRow(s.ledger, job, a) && ((job, a), Failed) in s.written
  {
    ReachableInv(s);
    EarlierRows(s, job, a, b);
  }

  /** A job dead-lettered at its last attempt has all six rows. */
  lemma ExhaustedJobHasAllRows(s: State, m: Message)
    requires Reachable(s) && m in s.buried && m.attempt == 5
    ensures forall a: nat :: a <= 5 ==> ClosedRow(s.ledger, m.job, a)
  {
    ReachableInv(s);
    assert (KeyOf(m), Failed) in s.written;
    forall a: nat | a <= MAX_ATTEMPTS
      ensures ClosedRow(s.ledger, m.job, a)
    {
      if a < MAX_ATTEMPTS {
        EarlierRows(s, m.job, a, MAX_ATTEMPTS);
      }
    }
  }

  /******* When a closed row is final *******/

  /** The handler can still get to write the other outcome into a row that reads `row`. */
  predicate MayOverwrite(h: Holder, row: Outcome) {
    match h.stage
    case Sending => row == Outcome.Delivered || h.msg.provider == Smtp
    case Confirming => row == Failed
    case Failing(_, _) => row == Outcome.Delivered
    case _ => false
  }

  ghost predicate Unthreatened(s: State, key: Key, row: Outcome) {
    && key in s.ledger && s.ledger[key] == row
    && forall k: nat :: k < |s.holders| && KeyOf(s.holders[k].msg) == key ==> !MayOverwrite(s.holders[k], row)
  }

  lemma NoNewThreat(h: Holder, row: Outcome, action: Action)
    requires row != Pending && Next(h, Some(row), action).Some? && !MayOverwrite(h, row)
    ensures var e := Next(h, Some(row), action).value;
            RowAfter(Some(row), e) == Some(row) && !MayOverwrite(h.(stage := e.stage), row)
  {}

  lemma StepKeepsUnthreatened(s: State, l: Label, key: Key, row: Outcome)
    requires row != Pending && Unthreatened(s, key, row) && Step(s, l).Some?
    ensures Unthreatened(Step(s, l).value, key, row)
  {
    if l.Act? && KeyOf(s.holders[l.holder].msg) == key {
      NoNewThreat(s.holders[l.holder], row, l.action);
    }
  }

  lemma {:induction false} UnthreatenedRowStays(s: State, labels: seq<Label>, key: Key, row: Outcome)
    requires row != Pending && Unthreatened(s, key, row) && Run(s, labels).Some?
    ensures Unthreatened(Run(s, labels).value, key, row)
  {
    if labels == [] {
    } else {
      var n := |labels| - 1;
      UnthreatenedRowStays(s, labels[..n], key, row);
      StepKeepsUnthreatened(Run(s, labels[..n]).value, labels[n], key, row);
    }
  }

  /** The run changes the row. */
  ghost predicate Changes(s: State, labels: seq<Label>, key: Key) {
    && Run(s, labels).Some? && key in s.ledger
    && (key in Run(s, labels).value.ledger ==> Run(s, labels).value.ledger[key] != s.ledger[key])
  }

  lemma OneOrTwoSteps(s: State, l: Label, l': Label)
    requires Step(s, l).Some?
    ensures Run(s, [l]) == Step(s, l)
    ensures Run(s, [l, l']) == Step(Step(s, l).value, l')
  {
    assert [l][..0] == [] && [l, l'][..1] == [l];
  }

  /** The handler's UPDATE goes through. */
  lemma CompleteOverwrites(s: State, k: nat)
    requires k < |s.holders| && KeyOf(s.holders[k].msg) in s.ledger
    requires var h, row := s.holders[k], s.ledger[KeyOf(s.holders[k].msg)];
             (h.stage.Confirming? && row == Failed) || (h.stage.Failing? && row == Outcome.Delivered)
    ensures var key, t := KeyOf(s.holders[k].msg), Step(s, Act(k, Complete(Done)));
            t.Some? && key in t.value.ledger && t.value.ledger[key] != s.ledger[key]
  {}

  lemma SendThreatens(s: State, k: nat) returns (send: Label)
    requires k < |s.holders| && s.holders[k].stage.Sending? && KeyOf(s.holders[k].msg) in s.ledger
    requires var row := s.ledger[KeyOf(s.holders[k].msg)]; row != Pending && MayOverwrite(s.holders[k], row)
    ensures Step(s, send).Some? && Step(s, send).value.ledger == s.ledger
    ensures var t, row := Step(s, send).value, s.ledger[KeyOf(s.holders[k].msg)];
            && k < |t.holders| && t.holders[k].msg == s.holders[k].msg
            && (if row == Failed then t.holders[k].stage.Confirming? else t.holders[k].stage.Failing?)
  {
    var delivered := s.ledger[KeyOf(s.holders[k].msg)] == Outcome.Delivered;
    send := Act(k, Send(if delivered then Refused(Transient(ErrorCode.Unknown), false) else Accepted));
  }

  /** A closed row is final exactly when no handler of its attempt can still write the other outcome:
      in any state, whatever faults come, the row stays in every continuation if and only if no handler
      of it is about to send (a FAILED row only has to fear an accepted mail), about to confirm over
      FAILED, or about to record a failure over DELIVERED. */
  lemma FinalIffUnthreatened(s: State, key: Key)
    requires key in s.ledger && s.ledger[key] != Pending
    ensures (forall labels :: !Changes(s, labels, key)) <==> Unthreatened(s, key, s.ledger[key])
  {
    if Unthreatened(s, key, s.ledger[key]) {
      forall labels
        ensures !Changes(s, labels, key)
      {
        if Run(s, labels).Some? {
          UnthreatenedRowStays(s, labels, key, s.ledger[key]);
        }
      }
    } else {
      var k: nat :| k < |s.holders| && KeyOf(s.holders[k].msg) == key && MayOverwrite(s.holders[k], s.ledger[key]);
      var complete := Act(k, Complete(Done));
      if s.holders[k].stage.Sending? {
        var send := SendThreatens(s, k);
        CompleteOverwrites(Step(s, send).value, k);
        OneOrTwoSteps(s, send, complete);
        assert Changes(s, [send, complete], key);
      } else {
        CompleteOverwrites(s, k);
        OneOrTwoSteps(s, complete, complete);
        assert Changes(s, [complete], key);
      }
    }
  }

  /******* One writer at a time *******/

  /** A handler that has reserved its attempt and has not closed its row yet. */
  predicate Writer(stage: Stage) { stage.Sending? || stage.Confirming? || stage.Failing? }

  /** No two handlers are past `reserve` for the same attempt of the job. */
  ghost predicate Exclusive(s: State, job: nat) {
    forall k: nat, l: nat | k < |s.holders| && l < |s.holders| ::
      (Writer(s.holders[k].stage) && Writer(s.holders[l].stage)
       && s.holders[k].msg.job == job && KeyOf(s.holders[k].msg) == KeyOf(s.holders[l].msg)) ==> k == l
  }

  /** Every state a run leaves is exclusive. */
  ghost predicate ExclusiveRun(s: State, labels: seq<Label>, job: nat) {
    labels != [] ==>
      var before := labels[..|labels| - 1];
      ExclusiveRun(s, before, job) && Run(s, before).Some? && Exclusive(Run(s, before).value, job)
  }

  ghost predicate ReachedExclusively(s: State, job: nat) {
    exists labels :: Run(Initial(), labels) == Some(s) && ExclusiveRun(Initial(), labels, job)
  }

  /** A writer finds its row open. */
  ghost predicate WriterOk(s: State, job: nat, k: nat)
    requires k < |s.holders|
  {
    var h := s.holders[k];
    Writer(h.stage) && h.msg.job == job ==> OpenIn(s.ledger, h.msg)
  }

  /** A closed row has only ever been closed one way. */
  ghost predicate RowOk(s: State, job: nat, w: (Key, Outcome)) {
    w in s.written && w.1 != Pending && w.0.0 == job ==> w.0 in s.ledger && s.ledger[w.0] == w.1
  }

  ghost predicate Tidy(s: State, job: nat) {
    && (forall k: nat :: k < |s.holders| ==> WriterOk(s, job, k))
    && (forall w :: RowOk(s, job, w))
  }

  predicate WritesOk(h: Holder, row: Option<Outcome>, e: Effect) {
    && (e.write.Some? && e.write != Some(Pending) ==> Writer(h.stage) && !Writer(e.stage))
    && (Writer(e.stage) && !OpenRow(RowAfter(row, e)) ==> Writer(h.stage) && !OpenRow(row))
  }

  lemma WritesBalance(h: Holder, row: Option<Outcome>, action: Action)
    requires Next(h, row, action).Some?
    ensures WritesOk(h, row, Next(h, row, action).value)
  {}

  lemma ActKeepsWriter(s: State, i: nat, e: Effect, k: nat, job: nat)
    requires Tidy(s, job) && Exclusive(s, job)
    requires Moves(s, i, e) && WritesOk(s.holders[i], Row(s, s.holders[i].msg), e) && k < |s.holders|
    ensures WriterOk(Apply(s, i, e), job, k)
  {
    assert WriterOk(s, job, k) && WriterOk(s, job, i);
  }

  lemma ActKeepsRow(s: State, i: nat, e: Effect, w: (Key, Outcome), job: nat)
    requires LedgerOk(s) && Tidy(s, job)
    requires Moves(s, i, e) && WritesOk(s.holders[i], Row(s, s.holders[i].msg), e)
    ensures RowOk(Apply(s, i, e), job, w)
  {
    assert RowOk(s, job, w) && WriterOk(s, job, i);
  }

  lemma ActKeepsTidy(s: State, i: nat, action: Action, job: nat)
    requires WellFormed(s) && Tidy(s, job) && Exclusive(s, job) && Step(s, Act(i, action)).Some?
    ensures Tidy(Step(s, Act(i, action)).value, job)
  {
    var h := s.holders[i];
    var e := Next(h, Row(s, h.msg), action).value;
    MovesOf(s, i, action, e);
    WritesBalance(h, Row(s, h.msg), action);
    forall k: nat | k < |s.holders|
      ensures WriterOk(Apply(s, i, e), job, k)
    {
      ActKeepsWriter(s, i, e, k, job);
    }
    forall w
      ensures RowOk(Apply(s, i, e), job, w)
    {
      ActKeepsRow(s, i, e, w, job);
    }
  }

  lemma BrokerKeepsTidy(s: State, l: Label, job: nat)
    requires Tidy(s, job) && Step(s, l).Some? && !l.Act?
    ensures Tidy(Step(s, l).value, job)
  {
    var t := Step(s, l).value;
    forall k: nat | k < |t.holders|
      ensures WriterOk(t, job, k)
    {
      assert k < |s.holders| ==> WriterOk(s, job, k);
    }
    forall w
      ensures RowOk(t, job, w)
    {
      assert RowOk(s, job, w);
    }
  }

  lemma {:induction false} RunKeepsTidy(s: State, labels: seq<Label>, job: nat)
    requires WellFormed(s) && Tidy(s, job) && Run(s, labels).Some? && ExclusiveRun(s, labels, job)
    ensures WellFormed(Run(s, labels).value) && Tidy(Run(s, labels).value, job)
    ensures s.written <= Run(s, labels).value.written
  {
    if labels == [] {
    } else {
      var n := |labels| - 1;
      RunKeepsTidy(s, labels[..n], job);
      var mid := Run(s, labels[..n]).value;
      StepKeepsWellFormed(mid, labels[n]);
      if labels[n].Act? {
        ActKeepsTidy(mid, labels[n].holder, labels[n].action, job);
      } else {
        BrokerKeepsTidy(mid, labels[n], job);
      }
    }
  }

  lemma ExclusivelyTidy(s: State, job: nat)
    requires ReachedExclusively(s, job)
    ensures WellFormed(s) && Tidy(s, job)
  {
    var labels :| Run(Initial(), labels) == Some(s) && ExclusiveRun(Initial(), labels, job);
    InitialInv();
    RunKeepsTidy(Initial(), labels, job);
  }

  /******* What exclusivity buys *******/

  /** DELIVERED and FAILED are final once they were reached with one writer at a time: whatever happens
      from then on, splitting faults included, the row stays as it is. */
  lemma ClosedRowsAreFinal(s: State, labels: seq<Label>, job: nat, a: nat)
    requires ReachedExclusively(s, job) && Run(s, labels).Some?
    requires ClosedRow(s.ledger, job, a)
    ensures ClosedRow(Run(s, labels).value.ledger, job, a)
    ensures Run(s, labels).value.ledger[(job, a)] == s.ledger[(job, a)]
  {
    ExclusivelyTidy(s, job);
    forall k: nat | k < |s.holders| && KeyOf(s.holders[k].msg) == (job, a)
      ensures !MayOverwrite(s.holders[k], s.ledger[(job, a)])
    {
      assert WriterOk(s, job, k);
    }
    UnthreatenedRowStays(s, labels, (job, a), s.ledger[(job, a)]);
  }

  /** Every row below another one is FAILED; so at most one row is DELIVERED, and it is the last. */
  lemma LowerRowsFailed(s: State, job: nat, a: nat, b: nat)
    requires LedgerOk(s) && IssuedOk(s) && Tidy(s, job) && (job, b) in s.ledger && a < b
    ensures (job, a) in s.ledger && s.ledger[(job, a)] == Failed
  {
    EarlierRows(s, job, a, b);
    assert RowOk(s, job, ((job, a), Failed));
  }

  lemma DeliveredRowIsLast(s: State, job: nat, a: nat)
    requires ReachedExclusively(s, job)
    requires (job, a) in s.ledger && s.ledger[(job, a)] == Outcome.Delivered
    ensures forall b: nat :: b < a ==> (job, b) in s.ledger && s.ledger[(job, b)] == Failed
    ensures forall b: nat :: b > a ==> (job, b) !in s.ledger
  {
    ExclusivelyTidy(s, job);
    forall b: nat | b < a
      ensures (job, b) in s.ledger && s.ledger[(job, b)] == Failed
    {
      LowerRowsFailed(s, job, b, a);
    }
    forall b: nat | b > a
      ensures (job, b) !in s.ledger
    {
      if (job, b) in s.ledger {
        LowerRowsFailed(s, job, a, b);
      }
    }
  }

  function FailedRows(ledger: map<Key, Outcome>, job: nat, attempts: nat): nat {
    if attempts == 0 then 0
    else
      var key := (job, attempts - 1);
      FailedRows(ledger, job, attempts - 1) + (if key in ledger && ledger[key] == Failed then 1 else 0)
  }

  lemma {:induction false} CountFailed(ledger: map<Key, Outcome>, job: nat, a: nat, n: nat)
    requires forall b: nat :: b < a ==> (job, b) in ledger && ledger[(job, b)] == Failed
    requires forall b: nat :: a <= b < n ==> !((job, b) in ledger && ledger[(job, b)] == Failed)
    ensures FailedRows(ledger, job, n) == if a < n then a else n
  {
    if n == 0 {
    } else {
      CountFailed(ledger, job, a, n - 1);
    }
  }

  lemma RowsBelow(s: State, m: Message, b: nat)
    requires LedgerOk(s) && IssuedOk(s) && Tidy(s, m.job) && m in s.issued && b < m.attempt
    ensures (m.job, b) in s.ledger && s.ledger[(m.job, b)] == Failed
  {
    var last := (m.job, m.attempt - 1);
    assert (last, Failed) in s.written;
    assert RowOk(s, m.job, (last, Failed));
    if b < last.1 {
      LowerRowsFailed(s, m.job, b, last.1);
    }
  }

  lemma RowsAbove(s: State, m: Message, b: nat)
    requires LedgerOk(s) && IssuedOk(s) && Tidy(s, m.job) && OpenIn(s.ledger, m) && m.attempt <= b
    ensures !((m.job, b) in s.ledger && s.ledger[(m.job, b)] == Failed)
  {
    if m.attempt < b && (m.job, b) in s.ledger {
      LowerRowsFailed(s, m.job, m.attempt, b);
    }
  }

  /** A message still in play carries the number of attempts that have failed. */
  lemma AttemptCountsFailures(s: State, m: Message)
    requires ReachedExclusively(s, m.job) && m in s.issued && OpenIn(s.ledger, m)
    ensures FailedRows(s.ledger, m.job, MAX_ATTEMPTS + 1) == m.attempt
  {
    ExclusivelyTidy(s, m.job);
    forall b: nat | b < m.attempt
      ensures (m.job, b) in s.ledger && s.ledger[(m.job, b)] == Failed
    {
      RowsBelow(s, m, b);
    }
    forall b: nat | m.attempt <= b < MAX_ATTEMPTS + 1
      ensures !((m.job, b) in s.ledger && s.ledger[(m.job, b)] == Failed)
    {
      RowsAbove(s, m, b);
    }
    CountFailed(s.ledger, m.job, m.attempt, MAX_ATTEMPTS + 1);
  }

  /******* When a run is exclusive *******/

  /** A second writer on the same job is one mail or one token too many. */
  lemma TwoWriters(s: State, k: nat, l: nat)
    requires k < |s.holders| && l < |s.holders| && k != l
    requires Writer(s.holders[k].stage) && Writer(s.holders[l].stage)
    requires s.holders[k].msg.job == s.holders[l].msg.job
    ensures var job := s.holders[k].msg.job;
            Tokens(s, job) + Measure(s, UNCONFIRMED, OfJob(job)) >= 2
  {
    var job := s.holders[k].msg.job;
    NonNegativeWeights();
    MeasureNonNegative(s, TOKEN, OfJob(job));
    MeasureNonNegative(s, UNCONFIRMED, OfJob(job));
    var mine, other := s.holders[k], s.holders[l];
    if mine.stage.Confirming? && other.stage.Confirming? {
      TwoHoldersCount(s, UNCONFIRMED, OfJob(job), k, l);
    } else if mine.stage.Confirming? {
      HolderCounts(s, UNCONFIRMED, OfJob(job), k);
      HolderCounts(s, TOKEN, OfJob(job), l);
    } else if other.stage.Confirming? {
      HolderCounts(s, UNCONFIRMED, OfJob(job), l);
      HolderCounts(s, TOKEN, OfJob(job), k);
    } else {
      TwoHoldersCount(s, TOKEN, OfJob(job), k, l);
    }
  }

  lemma UnsplitIsExclusive(s: State, job: nat)
    requires Balanced(s, job) && Splits(s, job) == 0
    ensures Exclusive(s, job)
  {
    forall k: nat, l: nat | k < |s.holders| && l < |s.holders| && Writer(s.holders[k].stage) &&
        Writer(s.holders[l].stage)
                            && s.holders[k].msg.job == job && KeyOf(s.holders[k].msg) == KeyOf(s.holders[l].msg)
      ensures k == l
    {
      if k != l {
        TwoWriters(s, k, l);
      }
    }
  }

  lemma {:induction false} UnsplitRun(s: State, labels: seq<Label>, job: nat)
    requires Inv(s) && Run(s, labels).Some? && Splits(Run(s, labels).value, job) == 0
    ensures ExclusiveRun(s, labels, job) && Inv(Run(s, labels).value)
    decreases |labels|
  {
    if labels == [] {
    } else {
      var n := |labels| - 1;
      RunKeepsInv(s, labels[..n]);
      var mid := Run(s, labels[..n]).value;
      StepKeepsInv(mid, labels[n]);
      UnsplitRun(s, labels[..n], job);
      assert Balanced(mid, job);
      UnsplitIsExclusive(mid, job);
    }
  }

  /** A job whose copies no fault has split was processed by one writer at a time throughout, so
      all of the above holds of it. */
  lemma UnsplitReachedExclusively(s: State, job: nat)
    requires Reachable(s) && Splits(s, job) == 0
    ensures ReachedExclusively(s, job)
  {
    var labels :| Run(Initial(), labels) == Some(s);
    InitialInv();
    UnsplitRun(Initial(), labels, job);
  }
}
