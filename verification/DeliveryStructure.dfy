/** What every step of the delivery protocol keeps about the shape of a state: who holds which
    copy, which stages a handler can be in, and what each message, row and event goes back to. */
module DeliveryStructure {
  import opened Contracts
  import opened RetryPolicy
  import opened Delivery

  predicate DecisionOk(decision: FailureDecision, attempt: nat) {
    match decision
    case Retry(next, tier, _) => next == attempt + 1 == tier && next <= MAX_ATTEMPTS
    case DeadLetter => true
  }

  /** A status event never runs ahead of the fact it reports. */
  ghost predicate EventBacked(s: State, event: StatusEvent) {
    && event.job in s.submitted
    && match event.status
       case Delivered => ((event.job, event.attempt), Outcome.Delivered) in s.written
       case RetryScheduled => event.attempt >= 1 && s.submitted[event.job].(attempt := event.attempt) in s.issued
       case DeadLettered => s.submitted[event.job].(attempt := event.attempt) in s.buried
  }

  ghost predicate StageOk(s: State, h: Holder) {
    var row := Row(s, h.msg);
    match h.stage
    case Rejecting => !h.msg.valid
    case Taken => h.msg.valid
    case Deferring(tier) => h.msg.valid && 1 <= tier <= 2
    case Inserting => h.msg.valid
    case Checking => h.msg.valid && row.Some?
    case Sending => h.msg.valid && row.Some?
    case Confirming => h.msg.valid && row.Some?
    case Failing(decision, _) => h.msg.valid && row.Some? && DecisionOk(decision, h.msg.attempt)
    case Handing(decision, _) =>
      && h.msg.valid && !OpenRow(row)
      && DecisionOk(decision, h.msg.attempt)
      && (KeyOf(h.msg), Failed) in s.written
    case Announcing(event) => h.msg.valid && !OpenRow(row) && EventBacked(s, event)
    case Settling(_) => true
    case Gone => !h.attached
  }

  ghost predicate HolderOk(s: State, k: nat)
    requires k < |s.holders|
  {
    var h := s.holders[k];
    && h.copy < |s.copies|
    && s.copies[h.copy].msg == h.msg
    && (h.attached ==> s.copies[h.copy].place == Held(k))
    && StageOk(s, h)
  }

  /** Tiers 3 to 5 hold only the attempt they are named after; deferrals use tiers 1 and 2. */
  predicate TierOk(tier: nat, attempt: nat) {
    1 <= tier <= MAX_ATTEMPTS && (tier > BREAKER_DEFER_TIER ==> attempt == tier)
  }

  ghost predicate CopyOk(s: State, i: nat)
    requires i < |s.copies|
  {
    var c := s.copies[i];
    && c.msg in s.issued
    && match c.place
       case Held(k) => k < |s.holders| && s.holders[k].copy == i && s.holders[k].attached
       case Queued(Tier(tier)) => TierOk(tier, c.msg.attempt)
       case Queued(Dead) => c.msg in s.buried
       case _ => true
  }

  ghost predicate CopiesOk(s: State) { forall i: nat :: i < |s.copies| ==> CopyOk(s, i) }

  ghost predicate HoldersOk(s: State) { forall k: nat :: k < |s.holders| ==> HolderOk(s, k) }

  ghost predicate LedgerOk(s: State) {
    && (forall key :: key in s.ledger ==>
          && key.0 in s.submitted
          && s.submitted[key.0].valid
          && s.submitted[key.0].(attempt := key.1) in s.issued
          && (key, s.ledger[key]) in s.written)
    && (forall w :: w in s.written ==> w.0 in s.ledger && (w.1 != Pending ==> s.ledger[w.0] != Pending))
  }

  /** Every message descends from the first message of its job; each later attempt follows a FAILED row. */
  ghost predicate IssuedOk(s: State) {
    && (forall job :: job in s.submitted ==>
          s.submitted[job].job == job && s.submitted[job].attempt == 0 && s.submitted[job] in s.issued)
    && (forall m :: m in s.issued ==>
          && m.job in s.submitted
          && m == s.submitted[m.job].(attempt := m.attempt)
          && m.attempt <= MAX_ATTEMPTS
          && (m.attempt > 0 ==> m.valid && ((m.job, m.attempt - 1), Failed) in s.written))
    && (forall m :: m in s.buried ==> m in s.issued && (m.valid ==> (KeyOf(m), Failed) in s.written))
  }

  ghost predicate EventsOk(s: State) { forall event :: event in s.events ==> EventBacked(s, event) }

  ghost predicate WellFormed(s: State) {
    CopiesOk(s) && HoldersOk(s) && LedgerOk(s) && IssuedOk(s) && EventsOk(s)
  }

  /******* What one handler step may do *******/

  /** What a handler may publish: its own message to a deferral tier or to the dead-letter queue,
      or the next attempt to that attempt's tier. */
  ghost predicate PublishOk(s: State, h: Holder, c: Copy) {
    match c.place
    case Queued(Tier(tier)) =>
      if c.msg == h.msg then 1 <= tier <= 2
      else c.msg == h.msg.(attempt := tier) && tier == h.msg.attempt + 1 <= MAX_ATTEMPTS
           && h.msg.valid && (KeyOf(h.msg), Failed) in s.written
    case Queued(Dead) => c.msg == h.msg && (h.msg.valid ==> (KeyOf(h.msg), Failed) in s.written)
    case _ => false
  }

  ghost predicate EffectOk(s: State, i: nat, e: Effect)
    requires i < |s.holders|
  {
    var h := s.holders[i];
    var row := Row(s, h.msg);
    && (e.release.Some? <==> h.attached && !e.attached)
    && (e.attached ==> h.attached)
    && (e.release.Some? ==> e.release.value == Queued(Main) || e.release.value == Acked)
    && (e.write.Some? ==> h.msg.valid && (row == None <==> e.write == Some(Pending)))
    && (e.publish.Some? ==> PublishOk(s, h, e.publish.value))
    && (e.event.Some? ==> h.stage == Announcing(e.event.value))
  }

  /** What one handler step must be to keep a state well-formed. */
  ghost predicate Fits(s: State, i: nat, e: Effect)
    requires i < |s.holders|
  {
    EffectOk(s, i, e) && StageOk(Apply(s, i, e), s.holders[i].(stage := e.stage, attached := e.attached))
  }

  ghost predicate Known(s: State, i: nat)
    requires i < |s.holders|
  {
    var h := s.holders[i];
    && StageOk(s, h)
    && h.msg.job in s.submitted
    && h.msg == s.submitted[h.msg.job].(attempt := h.msg.attempt)
    && h.msg.attempt <= MAX_ATTEMPTS
  }

  lemma RejectFits(s: State, i: nat, reply: Reply)
    requires i < |s.holders| && Known(s, i) && s.holders[i].stage.Rejecting?
    ensures Fits(s, i, Reject(s.holders[i], reply))
  {}

  lemma AdmissionFits(s: State, i: nat, allowed: bool, breakerOpen: bool)
    requires i < |s.holders| && Known(s, i) && s.holders[i].stage.Taken?
    ensures Fits(s, i, Admission(s.holders[i], allowed, breakerOpen))
  {}

  lemma DeferFits(s: State, i: nat, tier: nat, reply: Reply)
    requires i < |s.holders| && Known(s, i) && s.holders[i].stage == Deferring(tier)
    ensures Fits(s, i, Defer(s.holders[i], tier, reply))
  {}

  lemma InsertFits(s: State, i: nat, reply: Reply)
    requires i < |s.holders| && Known(s, i) && s.holders[i].stage.Inserting?
    ensures Fits(s, i, InsertRow(s.holders[i], Row(s, s.holders[i].msg), reply))
  {}

  lemma SelectFits(s: State, i: nat, ok: bool)
    requires i < |s.holders| && Known(s, i) && s.holders[i].stage.Checking?
    ensures Fits(s, i, SelectRow(s.holders[i], Row(s, s.holders[i].msg), ok))
  {}

  lemma GoToFits(s: State, i: nat, stage: Stage, mark: Mark)
    requires i < |s.holders| && StageOk(s, s.holders[i].(stage := stage))
    ensures Fits(s, i, GoTo(s.holders[i], stage).(mark := mark))
  {}

  lemma SendFits(s: State, i: nat, result: SendResult)
    requires i < |s.holders| && Known(s, i) && s.holders[i].stage.Sending?
    ensures Fits(s, i, SendMail(s.holders[i], result))
  {
    var h := s.holders[i];
    var e := SendMail(h, result);
    assert e == GoTo(h, e.stage).(mark := e.mark);
    GoToFits(s, i, e.stage, e.mark);
  }

  lemma ConfirmFits(s: State, i: nat, reply: Reply)
    requires i < |s.holders| && Known(s, i) && s.holders[i].stage.Confirming?
    ensures Fits(s, i, Confirm(s.holders[i], Row(s, s.holders[i].msg), reply))
  {}

  lemma FailFits(s: State, i: nat, decision: FailureDecision, code: ErrorCode, reply: Reply)
    requires i < |s.holders| && Known(s, i) && s.holders[i].stage == Failing(decision, code)
    ensures Fits(s, i, Fail(s.holders[i], Row(s, s.holders[i].msg), decision, code, reply))
  {}

  lemma HandOverFits(s: State, i: nat, decision: FailureDecision, code: ErrorCode, reply: Reply)
    requires i < |s.holders| && Known(s, i) && s.holders[i].stage == Handing(decision, code)
    ensures Fits(s, i, HandOver(s.holders[i], decision, code, reply))
  {
    match reply
    case Done =>
      match decision {
        case Retry(_, _, _) =>
        case DeadLetter =>
      }
    case Threw(_) =>
  }

  lemma AnnounceFits(s: State, i: nat, event: StatusEvent, reply: Reply)
    requires i < |s.holders| && Known(s, i) && s.holders[i].stage == Announcing(event)
    ensures Fits(s, i, Announce(s.holders[i], event, reply))
  {}

  lemma LeaveFits(s: State, i: nat, place: Place, mark: Mark)
    requires i < |s.holders| && (place == Queued(Main) || place == Acked)
    ensures Fits(s, i, Leave(s.holders[i], place).(mark := mark))
  {}

  lemma GiveUpFits(s: State, i: nat)
    requires i < |s.holders|
    ensures Fits(s, i, GoTo(s.holders[i], Settling(false)))
  {}

  /** What histories and rows keep: they only grow, and a row once closed stays closed. */
  ghost predicate Grows(s: State, t: State) {
    && s.issued <= t.issued
    && s.buried <= t.buried
    && s.written <= t.written
    && (forall job :: Splits(s, job) <= Splits(t, job) && Strands(s, job) <= Strands(t, job))
    && (forall job :: job in s.submitted ==> job in t.submitted && t.submitted[job] == s.submitted[job])
    && (forall key :: key in s.ledger ==> key in t.ledger && (s.ledger[key] != Pending ==> t.ledger[key] != Pending))
  }

  lemma ApplyGrows(s: State, i: nat, e: Effect)
    requires i < |s.holders| && EffectOk(s, i, e)
    ensures Grows(s, Apply(s, i, e))
  {}

  lemma StageStable(s: State, t: State, h: Holder)
    requires Grows(s, t) && StageOk(s, h)
    ensures StageOk(t, h)
  {}

  lemma DetachFits(s: State, i: nat)
    requires i < |s.holders| && Known(s, i) && s.holders[i].attached
    ensures Fits(s, i, LoseConnection(s.holders[i], Row(s, s.holders[i].msg)))
  {
    var h := s.holders[i];
    var e := LoseConnection(h, Row(s, h.msg));
    ApplyGrows(s, i, e);
    StageStable(s, Apply(s, i, e), h.(attached := false));
  }

  lemma NextFits(s: State, i: nat, action: Action)
    requires i < |s.holders| && Known(s, i)
    requires Next(s.holders[i], Row(s, s.holders[i].msg), action).Some?
    ensures Fits(s, i, Next(s.holders[i], Row(s, s.holders[i].msg), action).value)
  {
    var h := s.holders[i];
    match action
    case Admit(allowed, breakerOpen) => AdmissionFits(s, i, allowed, breakerOpen);
    case AdmitThrew => GiveUpFits(s, i);
    case Publish(reply) =>
      match h.stage {
        case Rejecting => RejectFits(s, i, reply);
        case Deferring(tier) => DeferFits(s, i, tier, reply);
        case Handing(decision, code) => HandOverFits(s, i, decision, code, reply);
        case Announcing(event) => AnnounceFits(s, i, event, reply);
        case _ =>
      }
    case Insert(reply) => InsertFits(s, i, reply);
    case Select(ok) => SelectFits(s, i, ok);
    case Send(result) => SendFits(s, i, result);
    case Complete(reply) =>
      match h.stage {
        case Confirming => ConfirmFits(s, i, reply);
        case Failing(decision, code) => FailFits(s, i, decision, code, reply);
        case _ =>
      }
    case Settle => LeaveFits(s, i, if h.stage.ack then Acked else Queued(Main), Nothing);
    case Crash => LeaveFits(s, i, Queued(Main), Die(h, Row(s, h.msg)).mark);
    case Detach => DetachFits(s, i);
  }

  lemma MessageOrigin(s: State, i: nat)
    requires WellFormed(s) && i < |s.holders|
    ensures var msg := s.holders[i].msg;
            msg in s.issued && msg.job in s.submitted && msg == s.submitted[msg.job].(attempt := msg.attempt)
            && msg.attempt <= 5
  {
    assert HolderOk(s, i);
    assert CopyOk(s, s.holders[i].copy);
  }

  lemma ApplyKeepsHolders(s: State, i: nat, e: Effect)
    requires WellFormed(s) && i < |s.holders| && EffectOk(s, i, e)
    requires StageOk(Apply(s, i, e), Apply(s, i, e).holders[i])
    ensures HoldersOk(Apply(s, i, e))
  {
    var t := Apply(s, i, e);
    ApplyGrows(s, i, e);
    forall k: nat | k < |t.holders|
      ensures HolderOk(t, k)
    {
      assert HolderOk(s, k);
      assert HolderOk(s, i);
      if k != i {
        StageStable(s, t, s.holders[k]);
      }
    }
  }

  lemma ApplyKeepsCopies(s: State, i: nat, e: Effect)
    requires WellFormed(s) && i < |s.holders| && EffectOk(s, i, e)
    ensures CopiesOk(Apply(s, i, e))
  {
    var t := Apply(s, i, e);
    assert HolderOk(s, i);
    assert CopyOk(s, s.holders[i].copy);
    forall c: nat | c < |t.copies|
      ensures CopyOk(t, c)
    {
      if c < |s.copies| {
        assert CopyOk(s, c);
      }
    }
  }

  lemma ApplyKeepsLedger(s: State, i: nat, e: Effect)
    requires WellFormed(s) && i < |s.holders| && EffectOk(s, i, e)
    ensures LedgerOk(Apply(s, i, e))
  {
    MessageOrigin(s, i);
  }

  lemma ApplyKeepsIssued(s: State, i: nat, e: Effect)
    requires WellFormed(s) && i < |s.holders| && EffectOk(s, i, e)
    ensures IssuedOk(Apply(s, i, e))
  {
    MessageOrigin(s, i);
    var t := Apply(s, i, e);
    forall m | m in t.issued
      ensures m.job in t.submitted && m == t.submitted[m.job].(attempt := m.attempt) && m.attempt <= MAX_ATTEMPTS
      ensures m.attempt > 0 ==> m.valid && ((m.job, m.attempt - 1), Failed) in t.written
    {
      if m !in s.issued {
        assert m == e.publish.value.msg;
      }
    }
    forall m | m in t.buried
      ensures m in t.issued && (m.valid ==> (KeyOf(m), Failed) in t.written)
    {
      if m !in s.buried {
        assert m == s.holders[i].msg;
      }
    }
  }

  lemma ApplyKeepsEvents(s: State, i: nat, e: Effect)
    requires WellFormed(s) && i < |s.holders| && EffectOk(s, i, e)
    ensures EventsOk(Apply(s, i, e))
  {
    var t := Apply(s, i, e);
    ApplyGrows(s, i, e);
    assert HolderOk(s, i);
    forall event | event in t.events
      ensures EventBacked(t, event)
    {
      assert EventBacked(s, event);
    }
  }

  lemma ActKeepsWellFormed(s: State, i: nat, action: Action)
    requires WellFormed(s) && Step(s, Act(i, action)).Some?
    ensures WellFormed(Step(s, Act(i, action)).value)
    ensures Grows(s, Step(s, Act(i, action)).value)
  {
    var e := Next(s.holders[i], Row(s, s.holders[i].msg), action).value;
    assert HolderOk(s, i);
    MessageOrigin(s, i);
    NextFits(s, i, action);
    ApplyGrows(s, i, e);
    ApplyKeepsHolders(s, i, e);
    ApplyKeepsCopies(s, i, e);
    ApplyKeepsLedger(s, i, e);
    ApplyKeepsIssued(s, i, e);
    ApplyKeepsEvents(s, i, e);
  }

  /** A step of the broker or of the API writes no row and no event. */
  lemma BrokerKeepsHolders(s: State, l: Label)
    requires HoldersOk(s) && CopiesOk(s) && Step(s, l).Some? && !l.Act?
    ensures Grows(s, Step(s, l).value) && HoldersOk(Step(s, l).value)
  {
    var t := Step(s, l).value;
    forall k: nat | k < |t.holders|
      ensures HolderOk(t, k)
    {
      if k < |s.holders| {
        assert HolderOk(s, k);
        StageStable(s, t, s.holders[k]);
      }
    }
  }

  lemma BrokerKeepsCopies(s: State, l: Label)
    requires HoldersOk(s) && CopiesOk(s) && Step(s, l).Some? && !l.Act?
    ensures CopiesOk(Step(s, l).value)
  {
    var t := Step(s, l).value;
    forall c: nat | c < |t.copies|
      ensures CopyOk(t, c)
    {
      if c < |s.copies| {
        assert CopyOk(s, c);
      }
    }
  }

  lemma BrokerKeepsLedger(s: State, l: Label)
    requires LedgerOk(s) && IssuedOk(s) && Step(s, l).Some? && !l.Act?
    ensures LedgerOk(Step(s, l).value) && IssuedOk(Step(s, l).value)
  {
    BrokerKeepsRows(s, l);
    hide LedgerOk;
  }

  lemma BrokerKeepsRows(s: State, l: Label)
    requires LedgerOk(s) && Step(s, l).Some? && !l.Act?
    ensures LedgerOk(Step(s, l).value)
  {}

  lemma BrokerKeepsEvents(s: State, l: Label)
    requires EventsOk(s) && Step(s, l).Some? && !l.Act?
    ensures EventsOk(Step(s, l).value)
  {
    forall event | event in s.events
      ensures EventBacked(Step(s, l).value, event)
    {
      assert EventBacked(s, event);
    }
  }

  lemma StepKeepsWellFormed(s: State, l: Label)
    requires WellFormed(s) && Step(s, l).Some?
    ensures WellFormed(Step(s, l).value)
    ensures Grows(s, Step(s, l).value)
  {
    if l.Act? {
      ActKeepsWellFormed(s, l.holder, l.action);
    } else {
      BrokerKeepsHolders(s, l);
      BrokerKeepsCopies(s, l);
      BrokerKeepsLedger(s, l);
      BrokerKeepsEvents(s, l);
    }
  }
}
