/** What one activation of the mail consumer sees of the rest of the system: every call it awaits is
    a step of the protocol, and until it goes on any other step may happen. How each call ends is
    settled beforehand, once and for all, in an arbitrary way: code cannot choose its replies. */
module DeliveryWorld {
  import opened Contracts
  import opened RetryPolicy
  import opened Delivery
  import opened DeliveryStructure
  import opened DeliveryHandover
  import opened DeliveryLog
  import opened CircuitBreaker
  import opened RateLimiter
  import opened Providers
  import opened Topology

  /** How the mail client ends a call. */
  datatype MailReply = MailAccepted | MailThrew(code: Option<string>, mailed: bool)

  function ResultOf(mail: MailReply): SendResult {
    match mail
    case MailAccepted => Accepted
    case MailThrew(code, mailed) => Refused(ClassifySmtpError(code), mailed)
  }

  /** What `resolve` and `send` throw. */
  function ErrorOf(msg: Message, mail: MailReply): Option<SendError> {
    if !Registered(msg.provider) then Some(Permanent(ProviderRejected))
    else if mail.MailAccepted? then None
    else Some(ClassifySmtpError(mail.code))
  }

  /** A step ends the way that was settled for it. */
  predicate Destined(reply: Reply, mail: MailReply, l: Label) {
    match l
    case Act(_, Publish(r)) => r == reply
    case Act(_, Insert(r)) => r == reply
    case Act(_, Complete(r)) => r == reply
    case Act(_, Select(ok)) => ok == (reply == Done)
    case Act(_, Send(result)) => result == ResultOf(mail)
    case _ => true
  }

  predicate AllDestined(replies: nat -> Reply, mails: nat -> MailReply, labels: seq<Label>) {
    labels != [] ==>
      var n := |labels| - 1;
      AllDestined(replies, mails, labels[..n]) && Destined(replies(n), mails(n), labels[n])
  }

  lemma NextDestined(replies: nat -> Reply, mails: nat -> MailReply, labels: seq<Label>, l: Label)
    requires AllDestined(replies, mails, labels) && Destined(replies(|labels|), mails(|labels|), l)
    ensures AllDestined(replies, mails, labels + [l])
  {
    assert (labels + [l])[..|labels|] == labels;
  }

  /** Where an error takes a handler, and what the breaker must then be told. */
  function FailureStage(msg: Message, error: SendError): Stage {
    match error
    case Transient(code) => Failing(DecideFailureAction(msg.attempt), code)
    case Permanent(code) => Failing(FailureDecision.DeadLetter, code)
    case Unexpected => Settling(false)
  }

  function FailureOwed(msg: Message, error: SendError): seq<(string, Word)> {
    if error.Permanent? then [] else [Told(msg, ToldFailure)]
  }

  /** Where the UPDATE that closes its row takes a handler. */
  function CompletedStage(msg: Message, stage: Stage): Stage {
    if stage.Failing? then Handing(stage.decision, stage.code) else Announcing(DeliveredEvent(msg))
  }

  function DeliveredEvent(msg: Message): StatusEvent { StatusEvent(msg.job, Status.Delivered, msg.attempt, None) }

  /** What can happen while a handler waits: another handler of the same worker speaks to the breaker,
      some worker to the limiter, or the protocol takes a step. */
  datatype Happening =
    | Ask(name: string, now: int)
    | Tell(name: string, success: bool, now: int)
    | Request(key: string, now: int)
    | Move(step: Label)

  lemma OtherStep(s: State, l: Label, h: nat)
    requires h < |s.holders| && Step(s, l).Some? && !(l.Act? && l.holder == h && l.action != Detach)
    ensures var t := Step(s, l).value;
            h < |t.holders| && t.holders[h].msg == s.holders[h].msg && t.holders[h].stage == s.holders[h].stage
    ensures ReportsOf(Some(s), l, h) == []
  {}

  /** The histories only grow. */
  predicate Remembers(s: State, t: State) {
    s.events <= t.events && s.issued <= t.issued && s.buried <= t.buried && s.written <= t.written
  }

  lemma StepRemembers(s: State, l: Label)
    requires Step(s, l).Some?
    ensures Remembers(s, Step(s, l).value)
  {}

  /** What the handler's step at this stage leaves in the histories if it does not throw. */
  predicate Left(t: State, msg: Message, stage: Stage) {
    match stage
    case Rejecting => msg in t.buried
    case Deferring(_) => msg in t.issued
    case Confirming => (KeyOf(msg), Outcome.Delivered) in t.written
    case Failing(_, _) => (KeyOf(msg), Failed) in t.written
    case Handing(Retry(attempt, _, _), _) => msg.(attempt := attempt) in t.issued
    case Handing(DeadLetter, _) => msg in t.buried
    case Announcing(event) => event in t.events
    case _ => true
  }

  lemma StepLeaves(s: State, h: nat, action: Action)
    requires h < |s.holders| && Step(s, Act(h, action)).Some?
    requires action == Publish(Done) || (action == Complete(Done) && Row(s, s.holders[h].msg).Some?)
    ensures Left(Step(s, Act(h, action)).value, s.holders[h].msg, s.holders[h].stage)
  {}

  /** A handler that is about to complete its row finds it there. */
  lemma StageHasRow(labels: seq<Label>, s: State, h: nat)
    requires Run(Initial(), labels) == Some(s) && h < |s.holders|
    requires s.holders[h].stage.Confirming? || s.holders[h].stage.Failing?
    ensures Row(s, s.holders[h].msg).Some?
  {
    ReachableInv(s);
    assert HolderOk(s, h);
  }

  lemma LeftStays(s: State, t: State, msg: Message, stage: Stage)
    requires Remembers(s, t) && Left(s, msg, stage)
    ensures Left(t, msg, stage)
  {}

  /** Some step of the handler since `start` found this row and went this way. */
  ghost predicate FoundRow(labels: seq<Label>, start: nat, h: nat, msg: Message, row: Option<Outcome>, action: Action) {
    exists k: nat :: start <= k < |labels| && labels[k] == Act(h, action) && RowAt(labels[..k], msg) == Some(row)
  }

  function RowAt(labels: seq<Label>, msg: Message): Option<Option<Outcome>> {
    match Run(Initial(), labels)
    case None => None
    case Some(s) => Some(Row(s, msg))
  }

  class World {
    var state: State
    const breaker: CircuitBreakerService
    const limiter: RateLimiterService

    /** Every step so far, of everyone, and every call of the limiter and of this worker's breaker. */
    var trace: seq<Label>
    var log: seq<Entry>

    /** How the n-th step ends, and the n-th call in the log. */
    const replies: nat -> Reply
    const mails: nat -> MailReply
    const scripts: nat -> Reply

    /** The log is the whole history of limiter and breaker, and tells the truth about their answers. */
    ghost predicate LogValid()
      reads this, breaker, limiter
    {
      && breaker.Valid() && limiter.Valid()
      && (forall name :: breaker.History(name) == HistoryOf(log, name))
      && (forall key :: limiter.Times(key) == TimesOf(log, key))
      && Truthful(limiter.limits, breaker.settings, scripts, log)
    }

    ghost predicate Valid()
      reads this, breaker, limiter
    {
      Run(Initial(), trace) == Some(state) && AllDestined(replies, mails, trace) && LogValid() && Newcomers()
    }

    /** Handlers yet to come have neither heard nor owe anything. */
    ghost predicate Newcomers()
      reads this
    {
      forall n: nat :: n >= |state.holders| ==> Words(log, n) == Expected(trace, n)
    }

    /** Handler `h` has this message and is about to do what `stage` says; it has heard and told what
        its steps so far demand, but for what it still owes. */
    ghost predicate At(h: nat, msg: Message, stage: Stage, owed: seq<(string, Word)>)
      reads this, breaker, limiter
    {
      && Valid() && Present(h, msg, stage)
      && Words(log, h) + owed == Expected(trace, h)
    }

    predicate Present(h: nat, msg: Message, stage: Stage)
      reads this
    {
      h < |state.holders| && state.holders[h].msg == msg && state.holders[h].stage == stage
    }

    /** The limiter has granted the request, the breaker has not been asked yet. */
    ghost predicate AtGranted(h: nat, msg: Message)
      reads this, breaker, limiter
    {
      && Valid() && Present(h, msg, Taken)
      && Words(log, h) == Expected(trace, h) + [(LimiterKey(msg), Granted)]
    }

    constructor (breaker: CircuitBreakerService, limiter: RateLimiterService,
                 replies: nat -> Reply, mails: nat -> MailReply, scripts: nat -> Reply)
      requires breaker.Valid() && limiter.Valid() && breaker.histories == map[] && limiter.requests == map[]
      ensures Valid() && state == Initial() && trace == [] && log == []
      ensures this.breaker == breaker && this.limiter == limiter
    {
      this.breaker := breaker;
      this.limiter := limiter;
      this.replies := replies;
      this.mails := mails;
      this.scripts := scripts;
      state := Initial();
      trace := [];
      log := [];
    }

    /******* Steps *******/

    method Take(l: Label)
      requires Valid() && Step(state, l).Some? && Destined(replies(|trace|), mails(|trace|), l)
      modifies this`state, this`trace
      ensures Valid() && Some(state) == Step(old(state), l) && trace == old(trace) + [l]
      ensures forall h: nat :: Expected(trace, h) == old(Expected(trace, h)) + ReportsOf(Some(old(state)), l, h)
    {
      assert (trace + [l])[..|trace|] == trace;
      NextDestined(replies, mails, trace, l);
      forall h: nat
        ensures Expected(trace + [l], h) == Expected(trace, h) + ReportsOf(Some(state), l, h)
      {
        NextLabel(trace, l, h);
      }
      state := Step(state, l).value;
      trace := trace + [l];
    }

    /** The broker delivers a copy to this worker: a new handler, with everything still to do. */
    method Deliver(c: nat) returns (h: nat)
      requires Valid() && c < |state.copies| && state.copies[c].place == Queued(Main)
      modifies this`state, this`trace
      ensures At(h, old(state.copies[c].msg), FirstStage(old(state.copies[c].msg)), []) && h == |old(state.holders)|
      ensures trace == old(trace) + [Label.Deliver(c)]
    {
      hide LogValid, Run, AllDestined, Expected, Words;
      h := |state.holders|;
      Take(Label.Deliver(c));
    }

    /** Ask the breaker. */
    method AskBreaker(who: Option<nat>, name: string, now: int) returns (open: bool)
      requires LogValid()
      modifies this`log, breaker
      ensures LogValid() && log == old(log) + [Entry(who, Call(name, Probe(now), open))]
      ensures breaker.histories == old(breaker.histories)[name := old(breaker.History(name)) + [Probe(now)]]
      ensures forall h: nat :: Words(log, h) == old(Words(log, h)) + WordOf(log[|old(log)|], h)
    {
      hide Truthful, TimesOf, HistoryOf, Words, Admits, Tripped, Cooled, RateLimiterService.Valid,
          CircuitBreakerService.Valid;
      open := breaker.IsOpen(name, now);
      ghost var entry := Entry(who, Call(name, Probe(now), open));
      NextNote(log, entry);
      NextTruth(limiter.limits, breaker.settings, scripts, log, entry);
      log := log + [Entry(who, Call(name, Probe(now), open))];
    }

    method TellBreaker(who: Option<nat>, name: string, success: bool, now: int)
      requires LogValid()
      modifies this`log, breaker
      ensures LogValid()
      ensures log == old(log) +
            [Entry(who, Call(name, if success then Event.Success(now) else Event.Failure(now), false))]
      ensures breaker.histories == old(breaker.histories)[name :=
                old(breaker.History(name)) + [if success then Event.Success(now) else Event.Failure(now)]]
      ensures forall h: nat :: Words(log, h) == old(Words(log, h)) + WordOf(log[|old(log)|], h)
    {
      hide Truthful, TimesOf, HistoryOf, Words, Admits, Tripped, Cooled, RateLimiterService.Valid,
          CircuitBreakerService.Valid;
      var event := if success then Event.Success(now) else Event.Failure(now);
      if success {
        breaker.RecordSuccess(name, now);
      } else {
        breaker.RecordFailure(name, now);
      }
      ghost var entry := Entry(who, Call(name, event, false));
      NextNote(log, entry);
      NextTruth(limiter.limits, breaker.settings, scripts, log, entry);
      log := log + [Entry(who, Call(name, event, false))];
    }

    method RunScript(key: string, now: int) returns (allowed: bool)
      requires limiter.Valid()
      modifies limiter
      ensures limiter.Valid()
      ensures forall k :: limiter.Times(k) == old(limiter.Times(k)) + if k == key then [now] else []
      ensures allowed == Admits(limiter.limits, old(limiter.Times(key)) + [now], |old(limiter.Times(key))|)
    {
      hide Admits;
      var dropped := key in limiter.redis && now - limiter.redis[key].ts >= limiter.limits.Ttl();
      allowed := limiter.Acquire(key, now, dropped);
    }

    /** One script call at an arbitrary time; the key is gone if it has expired. */
    method CallScript(who: Option<nat>, key: string, now: int) returns (allowed: bool)
      requires LogValid()
      modifies this`log, limiter
      ensures LogValid() && log == old(log) + [Entry(who, Script(key, now, allowed, scripts(|old(log)|)))]
      ensures forall k :: limiter.Times(k) == old(limiter.Times(k))
                                            + if k == key && scripts(|old(log)|) != Threw(false) then [now] else []
      ensures allowed <==> scripts(|old(log)|) != Threw(false)
                           && Admits(limiter.limits, old(limiter.Times(key)) + [now], |old(limiter.Times(key))|)
      ensures forall h: nat :: Words(log, h) == old(Words(log, h)) + WordOf(log[|old(log)|], h)
    {
      hide Truthful, TimesOf, HistoryOf, Words, Admits, Tripped, Cooled, RateLimiterService.Valid,
          CircuitBreakerService.Valid;
      var reply := scripts(|log|);
      allowed := false;
      if reply != Threw(false) {
        allowed := RunScript(key, now);
      }
      ghost var entry := Entry(who, Script(key, now, allowed, reply));
      NextNote(log, entry);
      NextTruth(limiter.limits, breaker.settings, scripts, log, entry);
      log := log + [Entry(who, Script(key, now, allowed, reply))];
    }

    /******* Waiting *******/

    /** One thing that others do. It may be anything but a step of `h` itself, except that `h` may lose
        its connection. */
    method Other(h: nat, x: Happening)
      requires Valid() && h < |state.holders|
      modifies this`state, this`trace, this`log, breaker, limiter
      ensures Valid() && old(trace) <= trace
      ensures Present(h, old(state.holders[h].msg), old(state.holders[h].stage))
      ensures Words(log, h) == old(Words(log, h)) && Expected(trace, h) == old(Expected(trace, h))
      ensures Remembers(old(state), state)
    {
      hide LogValid, Run, AllDestined, Expected, Words;
      match x {
        case Ask(name, now) =>
          var open := AskBreaker(None, name, now);
        case Tell(name, success, now) =>
          TellBreaker(None, name, success, now);
        case Request(key, now) =>
          var allowed := CallScript(None, key, now);
        case Move(l) =>
          if !(l.Act? && l.holder == h && l.action != Detach) && Step(state, l).Some? &&
              Destined(replies(|trace|), mails(|trace|), l) {
            OtherStep(state, l, h);
            StepRemembers(state, l);
            Take(l);
          }
      }
    }

    method Others(h: nat)
      requires Valid() && h < |state.holders|
      modifies this`state, this`trace, this`log, breaker, limiter
      ensures Valid() && old(trace) <= trace
      ensures Present(h, old(state.holders[h].msg), old(state.holders[h].stage))
      ensures Words(log, h) == old(Words(log, h)) && Expected(trace, h) == old(Expected(trace, h))
      ensures Remembers(old(state), state)
    {
      hide LogValid, Run, AllDestined, Expected, Words;
      var happenings: seq<Happening> := *;
      for i := 0 to |happenings|
        invariant Valid() && old(trace) <= trace
        invariant Present(h, old(state.holders[h].msg), old(state.holders[h].stage))
        invariant Words(log, h) == old(Words(log, h)) && Expected(trace, h) == old(Expected(trace, h))
        invariant Remembers(old(state), state)
      {
        Other(h, happenings[i]);
      }
    }

    /** One awaited call of `h`, and what happens until `h` goes on. */
    method Await(h: nat, action: Action)
      requires Valid() && h < |state.holders|
      requires Next(state.holders[h], Row(state, state.holders[h].msg), action).Some?
      requires Destined(replies(|trace|), mails(|trace|), Act(h, action))
      modifies this`state, this`trace, this`log, breaker, limiter
      ensures Valid() && old(trace) < trace && trace[|old(trace)|] == Act(h, action)
      ensures var was := old(state.holders[h]);
              && Present(h, was.msg, Next(was, old(Row(state, state.holders[h].msg)), action).value.stage)
              && Words(log, h) == old(Words(log, h))
              && Expected(trace, h) == old(Expected(trace, h)) + Reports(was, action)
      ensures Remembers(old(state), state)
      ensures action == Action.Publish(Done)
              || (action == Complete(Done) && old(Row(state, state.holders[h].msg)).Some?) ==>
                Left(state, old(state.holders[h].msg), old(state.holders[h].stage))
    {
      hide LogValid, Run, AllDestined, Expected, Words, Reports, Destined;
      ghost var before := state;
      StepRemembers(state, Act(h, action));
      if action == Action.Publish(Done) || (action == Complete(Done) && Row(state, state.holders[h].msg).Some?) {
        StepLeaves(state, h, action);
      }
      Take(Act(h, action));
      ghost var after := state;
      Others(h);
      if Left(after, before.holders[h].msg, before.holders[h].stage) {
        LeftStays(after, state, before.holders[h].msg, before.holders[h].stage);
      }
    }

    /******* Resilience *******/

    /** The script call, and what happens until the handler goes on. */
    method AskLimiter(h: nat, key: string) returns (allowed: Option<bool>)
      requires Valid() && h < |state.holders|
      modifies this`state, this`trace, this`log, breaker, limiter
      ensures Valid() && old(trace) <= trace
      ensures Present(h, old(state.holders[h].msg), old(state.holders[h].stage))
      ensures allowed.Some? <==> scripts(|old(log)|) == Done
      ensures var word := if allowed == None then Unanswered else if allowed.value then Granted else Denied;
              Words(log, h) == old(Words(log, h)) + [(key, word)]
      ensures Expected(trace, h) == old(Expected(trace, h))
    {
      hide LogValid, Run, AllDestined, Expected, Words;
      var now: int := *;
      var reply := scripts(|log|);
      var granted := CallScript(Some(h), key, now);
      Others(h);
      allowed := if reply == Done then Some(granted) else None;
    }

    /** The rate limiter; `None` stands for an exception, here and below. The answer, or the lack of one,
        is that of the script call just added to the log. */
    method Acquire(h: nat, msg: Message) returns (allowed: Option<bool>)
      requires At(h, msg, Taken, [])
      modifies this, breaker, limiter
      ensures old(trace) <= trace
      ensures allowed.Some? <==> scripts(|old(log)|) == Done
      ensures match allowed
              case None => At(h, msg, Settling(false), [])
              case Some(false) => At(h, msg, Deferring(RATE_LIMIT_DEFER_TIER), [])
              case Some(true) => AtGranted(h, msg)
    {
      hide LogValid, Run, AllDestined, Expected, Words;
      allowed := AskLimiter(h, LimiterKey(msg));
      if allowed == None {
        Take(Act(h, AdmitThrew));
      } else if !allowed.value {
        Take(Act(h, Admit(false, false)));
      }
    }

    method IsOpen(h: nat, msg: Message) returns (open: bool)
      requires AtGranted(h, msg)
      modifies this, breaker, limiter
      ensures old(trace) <= trace
      ensures At(h, msg, if open then Deferring(BREAKER_DEFER_TIER) else Inserting, [])
    {
      hide LogValid, Run, AllDestined, Expected, Words;
      var now: int := *;
      open := AskBreaker(Some(h), ProviderName(msg.provider), now);
      Take(Act(h, Admit(true, open)));
    }

    method RecordSuccess(h: nat, msg: Message, ghost stage: Stage)
      requires At(h, msg, stage, [Told(msg, ToldSuccess)])
      modifies this`log, breaker
      ensures At(h, msg, stage, [])
    {
      hide LogValid, Run, AllDestined, Expected, Words;
      var now: int := *;
      TellBreaker(Some(h), ProviderName(msg.provider), true, now);
    }

    method RecordFailure(h: nat, msg: Message, ghost stage: Stage)
      requires At(h, msg, stage, [Told(msg, ToldFailure)])
      modifies this`log, breaker
      ensures At(h, msg, stage, [])
    {
      hide LogValid, Run, AllDestined, Expected, Words;
      var now: int := *;
      TellBreaker(Some(h), ProviderName(msg.provider), false, now);
    }

    /******* The ledger *******/

    /** INSERT .. ON CONFLICT DO NOTHING; whether a row was inserted. */
    method InsertPending(h: nat, msg: Message) returns (inserted: Option<bool>)
      requires At(h, msg, Inserting, [])
      modifies this, breaker, limiter
      ensures old(trace) <= trace
      ensures inserted.Some? <==> replies(|old(trace)|) == Done
      ensures inserted == Some(true) ==> FoundRow(trace, |old(trace)|, h, msg, None, Insert(Done))
      ensures At(h, msg, if inserted == None then Settling(false) else if inserted.value then Sending else Checking, [])
    {
      hide LogValid, AllDestined, Expected, Words;
      var reply := replies(|trace|);
      var row := Row(state, msg);
      Await(h, Insert(reply));
      hide Run;
      inserted := if reply == Done then Some(row == None) else None;
      assert trace[..|old(trace)|] == old(trace);
    }

    /** SELECT outcome; the inner `None` stands for no row. */
    method SelectOutcome(h: nat, msg: Message) returns (outcome: Option<Option<Outcome>>)
      requires At(h, msg, Checking, [])
      modifies this, breaker, limiter
      ensures old(trace) <= trace
      ensures outcome.Some? <==> replies(|old(trace)|) == Done
      ensures outcome.Some? ==> FoundRow(trace, |old(trace)|, h, msg, outcome.value, Select(true))
      ensures match outcome
              case None => At(h, msg, Settling(false), [])
              case Some(row) => At(h, msg, if row == Some(Pending) then Sending else Settling(true), [])
    {
      hide LogValid, AllDestined, Expected, Words;
      var ok := replies(|trace|) == Done;
      var row := Row(state, msg);
      Await(h, Select(ok));
      hide Run;
      outcome := if ok then Some(row) else None;
      assert trace[..|old(trace)|] == old(trace);
    }

    /** UPDATE .. SET outcome; false stands for an exception. */
    method UpdateOutcome(h: nat, msg: Message, outcome: Outcome, ghost stage: Stage) returns (ok: bool)
      requires At(h, msg, stage, [])
      requires if outcome == Outcome.Delivered then stage.Confirming? else outcome == Failed && stage.Failing?
      modifies this, breaker, limiter
      ensures old(trace) <= trace
      ensures ok <==> replies(|old(trace)|) == Done
      ensures ok ==> At(h, msg, CompletedStage(msg, stage), [])
      ensures !ok ==> At(h, msg, Settling(false), if stage.Failing? then [] else [Told(msg, ToldFailure)])
      ensures ok ==> (KeyOf(msg), outcome) in state.written
      ensures Remembers(old(state), state)
    {
      hide LogValid, Run, AllDestined, Expected, Words;
      var reply := replies(|trace|);
      StageHasRow(trace, state, h);
      Await(h, Complete(reply));
      ok := reply == Done;
    }

    /******* The provider *******/

    /** `resolve` and `send`; an error is what they throw. For a provider that is not registered the
        protocol's send step calls nobody. */
    method Send(h: nat, msg: Message) returns (error: Option<SendError>)
      requires At(h, msg, Sending, [])
      modifies this, breaker, limiter
      ensures old(trace) <= trace
      ensures error == ErrorOf(msg, mails(|old(trace)|))
      ensures match error
              case None => At(h, msg, Confirming, [Told(msg, ToldSuccess)])
              case Some(e) => At(h, msg, FailureStage(msg, e), FailureOwed(msg, e))
    {
      hide LogValid, Run, AllDestined, Expected, Words;
      var mail := mails(|trace|);
      Await(h, Action.Send(ResultOf(mail)));
      error := ErrorOf(msg, mail);
    }

    /******* The broker *******/

    /** A confirmed publish of a message, to the address of the queue the protocol means; false stands
        for an exception. */
    method Publish(h: nat, msg: Message, exchange: string, key: string, content: Message,
                   ghost queue: Queue, ghost stage: Stage)
      returns (ok: bool)
      requires At(h, msg, stage, [])
      requires PublishOf(msg, stage).Some? && PublishOf(msg, stage).value.0 == Copy(content, Queued(queue))
      requires AddressOf(Copies(queue)) == Address(exchange, key)
      modifies this, breaker, limiter
      ensures old(trace) <= trace
      ensures ok <==> replies(|old(trace)|) == Done
      ensures At(h, msg, if ok then PublishOf(msg, stage).value.1 else Settling(false), [])
      ensures ok ==> content in (if queue == Dead then state.buried else state.issued)
      ensures Remembers(old(state), state)
    {
      hide LogValid, Run, AllDestined, Expected, Words;
      var reply := replies(|trace|);
      PublishSteps(state.holders[h], reply);
      Await(h, Action.Publish(reply));
      ok := reply == Done;
    }

    /** The publish of a status event. */
    method PublishStatus(h: nat, msg: Message, exchange: string, key: string, event: StatusEvent) returns (ok: bool)
      requires At(h, msg, Announcing(event), [])
      requires AddressOf(Statuses) == Address(exchange, key)
      modifies this, breaker, limiter
      ensures old(trace) <= trace
      ensures ok <==> replies(|old(trace)|) == Done
      ensures At(h, msg, Settling(ok), if !ok && event.status == Status.Delivered then [Told(msg, ToldFailure)] else [])
      ensures ok ==> event in state.events
      ensures Remembers(old(state), state)
    {
      hide LogValid, Run, AllDestined, Expected, Words;
      var reply := replies(|trace|);
      Await(h, Action.Publish(reply));
      ok := reply == Done;
    }
  }

  /** What a handler publishes at a stage, and where it goes from there if that does not throw. */
  function PublishOf(msg: Message, stage: Stage): Option<(Copy, Stage)> {
    match stage
    case Rejecting => Some((Copy(msg, Queued(Dead)), Settling(true)))
    case Deferring(tier) => Some((Copy(msg, Queued(Tier(tier))), Settling(true)))
    case Handing(decision, code) => Some((Successor(msg, decision), Announcing(FailureEvent(msg, decision, code))))
    case _ => None
  }

  lemma PublishSteps(h: Holder, reply: Reply)
    requires PublishOf(h.msg, h.stage).Some?
    ensures OnPublish(h, reply).Some? && Reports(h, Action.Publish(reply)) == []
    ensures OnPublish(h, reply).value.stage ==
            if reply == Done then PublishOf(h.msg, h.stage).value.1 else Settling(false)
    ensures reply != Threw(false) ==> OnPublish(h, reply).value.publish == Some(PublishOf(h.msg, h.stage).value.0)
  {}
}
