/** What the handlers of one worker ask the rate limiter and tell the circuit breaker, in order, and
    what the delivery protocol has each of them ask and tell. */
module DeliveryLog {
  import opened Contracts
  import opened Delivery
  import opened CircuitBreaker
  import opened RateLimiter
  import opened Providers

  /** One script call, with its reply and (if it ran) its answer, or one call of the breaker, with the
      answer if it was a question. */
  datatype Note =
    | Script(key: string, now: int, allowed: bool, reply: Reply)
    | Call(name: string, event: Event, open: bool)

  /** A note, and the handler that made it; `None` stands for any other one. */
  datatype Entry = Entry(who: Option<nat>, note: Note)

  function Ran(note: Note): bool { note.Script? && note.reply != Threw(false) }

  function TimeOf(note: Note, key: string): seq<int> { if Ran(note) && note.key == key then [note.now] else [] }

  function EventOf(note: Note, name: string): seq<Event> {
    if note.Call? && note.name == name then [note.event] else []
  }

  /** The times at which the script ran for a key. */
  function TimesOf(log: seq<Entry>, key: string): seq<int> {
    if log == [] then []
    else
      var before, note := log[..|log| - 1], log[|log| - 1].note;
      TimesOf(before, key) + TimeOf(note, key)
  }

  /** What happened to the breaker of a name. */
  function HistoryOf(log: seq<Entry>, name: string): seq<Event> {
    if log == [] then []
    else
      var before, note := log[..|log| - 1], log[|log| - 1].note;
      HistoryOf(before, name) + EventOf(note, name)
  }

  /** The answer in a note is that of the limiter or breaker with the log so far. */
  predicate TrueNote(lim: Limits, cfg: Settings, before: seq<Entry>, note: Note) {
    match note
    case Script(key, now, allowed, _) =>
      Ran(note) ==> allowed == Admits(lim, TimesOf(before, key) + [now], |TimesOf(before, key)|)
    case Call(name, event, open) =>
      event.Probe? ==>
        open == (Tripped(cfg, HistoryOf(before, name), event.at) && !Cooled(cfg, HistoryOf(before, name)))
  }

  /** Every answer is true, and the replies to the script calls are those that were to come. */
  predicate Truthful(lim: Limits, cfg: Settings, scripts: nat -> Reply, log: seq<Entry>) {
    log != [] ==>
      var n := |log| - 1;
      && Truthful(lim, cfg, scripts, log[..n])
      && TrueNote(lim, cfg, log[..n], log[n].note)
      && (log[n].note.Script? ==> log[n].note.reply == scripts(n))
  }

  /******* One handler *******/

  datatype Word = Granted | Denied | Unanswered | LetThrough | HeldBack | ToldSuccess | ToldFailure

  /** What a note amounts to: to which key or name, and what was heard or told. */
  function Meaning(note: Note): (string, Word) {
    match note
    case Script(key, _, allowed, reply) =>
      (key, if reply != Done then Unanswered else if allowed then Granted else Denied)
    case Call(name, Probe(_), open) => (name, if open then HeldBack else LetThrough)
    case Call(name, Success(_), _) => (name, ToldSuccess)
    case Call(name, Failure(_), _) => (name, ToldFailure)
  }

  /** Every word stands for one kind of answer or report and nothing else. */
  lemma WordsMean(note: Note)
    ensures var word := Meaning(note).1;
            && (word == Granted <==> note.Script? && note.reply == Done && note.allowed)
            && (word == Denied <==> note.Script? && note.reply == Done && !note.allowed)
            && (word == Unanswered <==> note.Script? && note.reply != Done)
            && (word == LetThrough <==> note.Call? && note.event.Probe? && !note.open)
            && (word == HeldBack <==> note.Call? && note.event.Probe? && note.open)
            && (word == ToldSuccess <==> note.Call? && note.event.Success?)
            && (word == ToldFailure <==> note.Call? && note.event.Failure?)
            && Meaning(note).0 == if note.Script? then note.key else note.name
  {}

  function WordOf(entry: Entry, h: nat): seq<(string, Word)> {
    if entry.who == Some(h) then [Meaning(entry.note)] else []
  }

  /** What handler `h` has heard and told. */
  function Words(log: seq<Entry>, h: nat): seq<(string, Word)> {
    if log == [] then []
    else
      var before, last := log[..|log| - 1], log[|log| - 1];
      Words(before, h) + WordOf(last, h)
  }

  function LimiterKey(msg: Message): string { "rl:" + ProviderName(msg.provider) }

  /** Each provider has a bucket and a breaker of its own, whoever sends. */
  lemma NothingIsShared(m: Message, n: Message)
    ensures LimiterKey(m) == LimiterKey(n) <==> m.provider == n.provider
    ensures ProviderName(m.provider) == ProviderName(n.provider) <==> m.provider == n.provider
    ensures m.provider == Smtp ==> LimiterKey(m) == "rl:smtp" && ProviderName(m.provider) == "smtp"
  {
    ProviderNames(m.provider, n.provider);
    assert LimiterKey(m)[3..] == ProviderName(m.provider) && LimiterKey(n)[3..] == ProviderName(n.provider);
  }

  function Told(msg: Message, word: Word): (string, Word) { (ProviderName(msg.provider), word) }

  /** What a handler must have heard before a step or must tell after it. The step is what the protocol
      takes it to be only if the limiter and the breaker were asked and answered so; the breaker is told
      of every accepted mail, and of every failure that is not a permanent provider error, including
      those that follow an accepted mail until its status event is out. */
  function Reports(h: Holder, action: Action): seq<(string, Word)> {
    match action
    case Admit(allowed, breakerOpen) =>
      if !allowed then [(LimiterKey(h.msg), Denied)]
      else [(LimiterKey(h.msg), Granted), Told(h.msg, if breakerOpen then HeldBack else LetThrough)]
    case AdmitThrew => [(LimiterKey(h.msg), Unanswered)]
    case Send(Accepted) => if Registered(h.msg.provider) then [Told(h.msg, ToldSuccess)] else []
    case Send(Refused(error, _)) =>
      if Registered(h.msg.provider) && !error.Permanent? then [Told(h.msg, ToldFailure)] else []
    case Complete(Threw(_)) => if h.stage.Confirming? then [Told(h.msg, ToldFailure)] else []
    case Publish(Threw(_)) =>
      if h.stage.Announcing? && h.stage.event.status == Status.Delivered then [Told(h.msg, ToldFailure)] else []
    case _ => []
  }

  /** What handler `h` must have heard and told in a run. */
  function Expected(labels: seq<Label>, h: nat): seq<(string, Word)> {
    if labels == [] then []
    else
      var before, last := labels[..|labels| - 1], labels[|labels| - 1];
      Expected(before, h) + ReportsOf(Run(Initial(), before), last, h)
  }

  function ReportsOf(s: Option<State>, l: Label, h: nat): seq<(string, Word)> {
    if s.Some? && l.Act? && l.holder == h && h < |s.value.holders| then Reports(s.value.holders[h], l.action) else []
  }

  lemma NextLabel(labels: seq<Label>, l: Label, h: nat)
    ensures Expected(labels + [l], h) == Expected(labels, h) + ReportsOf(Run(Initial(), labels), l, h)
  {
    assert (labels + [l])[..|labels|] == labels;
  }

  lemma NextNote(log: seq<Entry>, entry: Entry)
    ensures forall key :: TimesOf(log + [entry], key) == TimesOf(log, key) + TimeOf(entry.note, key)
    ensures forall name :: HistoryOf(log + [entry], name) == HistoryOf(log, name) + EventOf(entry.note, name)
    ensures forall h: nat :: Words(log + [entry], h) == Words(log, h) + WordOf(entry, h)
  {
    assert (log + [entry])[..|log|] == log;
  }

  lemma NextTruth(lim: Limits, cfg: Settings, scripts: nat -> Reply, log: seq<Entry>, entry: Entry)
    requires Truthful(lim, cfg, scripts, log) && TrueNote(lim, cfg, log, entry.note)
    requires entry.note.Script? ==> entry.note.reply == scripts(|log|)
    ensures Truthful(lim, cfg, scripts, log + [entry])
  {
    assert (log + [entry])[..|log|] == log;
  }

  /******* What every stage presupposes *******/

  function Admitted(msg: Message): seq<(string, Word)> { [(LimiterKey(msg), Granted), Told(msg, LetThrough)] }

  /** What a handler at some stage must have heard and told. */
  predicate HeardAt(msg: Message, stage: Stage, words: seq<(string, Word)>) {
    match stage
    case Rejecting => words == []
    case Taken => words == []
    case Deferring(tier) =>
      || (tier == RATE_LIMIT_DEFER_TIER && words == [(LimiterKey(msg), Denied)])
      || (tier == BREAKER_DEFER_TIER && words == [(LimiterKey(msg), Granted), Told(msg, HeldBack)])
    case Inserting => words == Admitted(msg)
    case Checking => words == Admitted(msg)
    case Sending => words == Admitted(msg)
    case Confirming => words == Admitted(msg) + [Told(msg, ToldSuccess)]
    case Failing(decision, _) => HeardFailure(msg, decision.Retry?, words)
    case Handing(decision, _) => HeardFailure(msg, decision.Retry?, words)
    case Announcing(event) =>
      if event.status == Status.Delivered then words == Admitted(msg) + [Told(msg, ToldSuccess)]
      else HeardFailure(msg, event.status == RetryScheduled, words)
    case Settling(_) => true
    case Gone => true
  }

  /** Every failure that is retried was told to the breaker; one that is dead-lettered may be permanent. */
  predicate HeardFailure(msg: Message, retried: bool, words: seq<(string, Word)>) {
    words == Admitted(msg) + [Told(msg, ToldFailure)] || (!retried && words == Admitted(msg))
  }

  lemma PublishKeepsHeard(h: Holder, reply: Reply, words: seq<(string, Word)>)
    requires OnPublish(h, reply).Some? && HeardAt(h.msg, h.stage, words)
    ensures HeardAt(h.msg, OnPublish(h, reply).value.stage, words + Reports(h, Publish(reply)))
  {
    assert words + [] == words;
  }

  lemma SendKeepsHeard(h: Holder, result: SendResult, words: seq<(string, Word)>)
    requires h.stage.Sending? && HeardAt(h.msg, h.stage, words)
    ensures HeardAt(h.msg, SendMail(h, result).stage, words + Reports(h, Send(result)))
  {
    assert words + [] == words;
  }

  lemma StepKeepsHeard(h: Holder, row: Option<Outcome>, action: Action, words: seq<(string, Word)>)
    requires Next(h, row, action).Some? && HeardAt(h.msg, h.stage, words)
    ensures HeardAt(h.msg, Next(h, row, action).value.stage, words + Reports(h, action))
  {
    assert words + [] == words;
    match action
    case Publish(reply) => PublishKeepsHeard(h, reply, words);
    case Send(result) => SendKeepsHeard(h, result, words);
    case _ =>
  }

  lemma OthersKeepHeard(s: State, l: Label, h: nat)
    requires Step(s, l).Some? && h < |Step(s, l).value.holders| && !(l.Act? && l.holder == h)
    ensures var t := Step(s, l).value;
            if h < |s.holders| then t.holders[h] == s.holders[h] else t.holders[h].stage == FirstStage(t.holders[h].msg)
  {}

  lemma HoldersStay(s: State, l: Label)
    requires Step(s, l).Some?
    ensures |s.holders| <= |Step(s, l).value.holders|
  {}

  lemma {:induction false} NotYetExpected(labels: seq<Label>, h: nat)
    requires Run(Initial(), labels).Some? && h >= |Run(Initial(), labels).value.holders|
    ensures Expected(labels, h) == []
  {
    if labels == [] {
    } else {
      var n := |labels| - 1;
      HoldersStay(Run(Initial(), labels[..n]).value, labels[n]);
      hide Step;
      NotYetExpected(labels[..n], h);
    }
  }

  /** In every run: nothing is deferred, reserved, sent or recorded before the limiter and the breaker
      were asked and answered accordingly; past that, the breaker was told of the accepted mail or of
      the failure. */
  lemma {:induction false} HeardAtStage(labels: seq<Label>, h: nat)
    requires Run(Initial(), labels).Some? && h < |Run(Initial(), labels).value.holders|
    ensures var holder := Run(Initial(), labels).value.holders[h];
            HeardAt(holder.msg, holder.stage, Expected(labels, h))
  {
    if labels == [] {
    } else {
      var n := |labels| - 1;
      var s, l := Run(Initial(), labels[..n]).value, labels[n];
      if h < |s.holders| {
        HeardAtStage(labels[..n], h);
      } else {
        NotYetExpected(labels[..n], h);
      }
      if l.Act? && l.holder == h {
        StepKeepsHeard(s.holders[h], Row(s, s.holders[h].msg), l.action, Expected(labels[..n], h));
      } else {
        OthersKeepHeard(s, l, h);
        assert Expected(labels[..n], h) + [] == Expected(labels, h);
      }
    }
  }
}
