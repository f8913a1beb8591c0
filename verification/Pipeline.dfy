/** API, jobs table and workers together: what the API publishes is what the workers process, the rows
    that submission counts on are the rows that status events update. */
module Pipeline {
  import opened Contracts
  import opened Delivery
  import opened DeliveryStructure
  import opened DeliveryHandover
  import opened DeliveryTheorems
  import opened DeliveryScenarios
  import opened JobsTable
  import opened StatusProjection
  import Submission

  datatype System = System(api: Submission.State, jobs: map<nat, JobRow>, worker: State)

  datatype Move =
    | Api(request: Submission.Label, provider: Provider) // a submission takes a step
    | Work(step: Label)                                  // the worker protocol takes a step
    | Project(event: StatusEvent, at: int)               // the API processes a status event, perhaps again

  function FirstMessage(id: nat, provider: Provider): Message { Message(id, 0, provider, true) }

  /** The effect of a submission step, if it is one of a call. */
  function EffectOf(api: Submission.State, l: Submission.Label): Option<Submission.Effect> {
    if l.Act? && l.call < |api.calls| then Submission.Next(api, l.call, l.reply) else None
  }

  /** What a submission step does to the jobs table. */
  function JobsAfter(jobs: map<nat, JobRow>, api: Submission.State, l: Submission.Label): map<nat, JobRow> {
    var e := EffectOf(api, l);
    if e == None then jobs
    else
      var c := l.call;
      if e.value.insert then jobs[c := NewRow(api.calls[c].key)]
      else if api.calls[c].stage.Marking? && l.reply != Threw(false) && c in jobs then
        jobs[c := Updated(jobs[c], MarkPublished)]
      else
        jobs
  }

  /** What a submission step does to the main queue. */
  function WorkerAfter(worker: State, api: Submission.State, l: Submission.Label, provider: Provider): Option<State> {
    var e := EffectOf(api, l);
    if e.Some? && e.value.publish then Step(worker, Submit(FirstMessage(l.call, provider))) else Some(worker)
  }

  /** Status events are delivered at least once and in any order: any event ever published may be
      processed at any time. Only the API submits. */
  function Advance(sys: System, m: Move): Option<System> {
    match m
    case Api(l, provider) =>
      var api, worker := Submission.Step(sys.api, l), WorkerAfter(sys.worker, sys.api, l, provider);
      if api == None || worker == None then None
      else Some(System(api.value, JobsAfter(sys.jobs, sys.api, l), worker.value))
    case Work(l) =>
      var worker := Step(sys.worker, l);
      if l.Submit? || worker == None then None else Some(sys.(worker := worker.value))
    case Project(event, at) =>
      if event !in sys.worker.events then None
      else if event.job !in sys.jobs then Some(sys)
      else Some(sys.(jobs := sys.jobs[event.job := Updated(sys.jobs[event.job], UpdateOf(event, at))]))
  }

  function Play(moves: seq<Move>): Option<System> {
    if moves == [] then Some(System(Submission.Initial(), map[], Initial()))
    else
      match Play(moves[..|moves| - 1])
      case None => None
      case Some(mid) => Advance(mid, moves[|moves| - 1])
  }

  /******* What every move keeps *******/

  /** The two views of the jobs table agree. */
  predicate SameTable(rows: map<nat, nat>, jobs: map<nat, JobRow>) {
    jobs.Keys == rows.Keys && forall id :: id in jobs ==> jobs[id].key == rows[id]
  }

  /** The jobs the workers know are those the API published. */
  ghost predicate SameJobs(published: seq<nat>, submitted: map<nat, Message>) {
    forall id: nat :: id in published <==> id in submitted
  }

  ghost predicate Sound(sys: System) {
    && Submission.Inv(sys.api)
    && Inv(sys.worker) && WritesMailed(sys.worker)
    && SameTable(sys.api.rows, sys.jobs)
    && SameJobs(sys.api.published, sys.worker.submitted)
    && forall job :: job in sys.jobs ==> RowSound(sys.worker, job, sys.jobs[job])
  }

  /** The unique constraints of the table are those the submission protocol counts on. */
  lemma SameConstraint(rows: map<nat, nat>, jobs: map<nat, JobRow>, id: nat, key: nat)
    requires SameTable(rows, jobs)
    ensures id !in jobs && (forall other :: other in jobs ==> jobs[other].key != key) <==>
            id !in rows && !Submission.HasRow(rows, key)
  {}

  /** A step of submission always finds the workers ready: no job is published twice. */
  lemma SubmissionNeverBlocks(sys: System, l: Submission.Label, provider: Provider)
    requires Sound(sys) && Submission.Step(sys.api, l).Some?
    ensures Advance(sys, Api(l, provider)).Some?
  {
    var e := EffectOf(sys.api, l);
    if e.Some? && e.value.publish {
      Submission.NextOk(sys.api, l.call, l.reply);
      assert Submission.CallOk(sys.api, l.call);
    }
  }

  lemma TablesStayTheSame(sys: System, l: Submission.Label)
    requires Sound(sys) && Submission.Step(sys.api, l).Some?
    ensures SameTable(Submission.Step(sys.api, l).value.rows, JobsAfter(sys.jobs, sys.api, l))
  {}

  lemma JobsStayTheSame(sys: System, l: Submission.Label, provider: Provider)
    requires Sound(sys) && Advance(sys, Api(l, provider)).Some?
    ensures var t := Advance(sys, Api(l, provider)).value;
            SameJobs(t.api.published, t.worker.submitted)
  {
    var t := Advance(sys, Api(l, provider)).value;
    var e := EffectOf(sys.api, l);
    if e.Some? && e.value.publish {
      assert t.api.published == sys.api.published + [l.call];
    }
  }

  lemma WorkerStaysSound(s: State, l: Label)
    requires Inv(s) && WritesMailed(s) && Step(s, l).Some?
    ensures Inv(Step(s, l).value) && WritesMailed(Step(s, l).value) && Grows(s, Step(s, l).value)
    ensures !l.Submit? ==> Step(s, l).value.submitted == s.submitted
  {
    StepKeepsInv(s, l);
    StepKeepsWritesMailed(s, l);
  }

  lemma RowsStaySound(s: State, t: State, jobs: map<nat, JobRow>)
    requires Grows(s, t) && forall job :: job in jobs ==> RowSound(s, job, jobs[job])
    ensures forall job :: job in jobs ==> RowSound(t, job, jobs[job])
  {
    forall job | job in jobs
      ensures RowSound(t, job, jobs[job])
    {
      GrowthKeepsSound(s, t, job, jobs[job]);
    }
  }

  /** Creating a row and marking it published say nothing about workers. */
  lemma SubmissionKeepsRowsSound(s: State, jobs: map<nat, JobRow>, api: Submission.State, l: Submission.Label)
    requires forall job :: job in jobs ==> RowSound(s, job, jobs[job])
    ensures var after := JobsAfter(jobs, api, l); forall job :: job in after ==> RowSound(s, job, after[job])
  {
    hide WroteDelivered, IssuedRetry, Buried;
  }

  lemma SubmissionKeepsSound(sys: System, l: Submission.Label, provider: Provider)
    requires Sound(sys) && Advance(sys, Api(l, provider)).Some?
    ensures Sound(Advance(sys, Api(l, provider)).value)
  {
    var t := Advance(sys, Api(l, provider)).value;
    Submission.StepKeepsInv(sys.api, l);
    TablesStayTheSame(sys, l);
    JobsStayTheSame(sys, l, provider);
    SubmissionKeepsRowsSound(sys.worker, sys.jobs, sys.api, l);
    if t.worker != sys.worker {
      WorkerStaysSound(sys.worker, Submit(FirstMessage(l.call, provider)));
      RowsStaySound(sys.worker, t.worker, t.jobs);
    }
  }

  lemma WorkKeepsSound(sys: System, l: Label)
    requires Sound(sys) && Advance(sys, Work(l)).Some?
    ensures Sound(Advance(sys, Work(l)).value)
  {
    WorkerStaysSound(sys.worker, l);
    RowsStaySound(sys.worker, Step(sys.worker, l).value, sys.jobs);
  }

  lemma EventIsBacked(s: State, event: StatusEvent)
    requires Inv(s) && event in s.events
    ensures EventBacked(s, event) && IssuedOk(s)
  {}

  lemma ProjectionKeepsSound(sys: System, event: StatusEvent, at: int)
    requires Sound(sys) && Advance(sys, Project(event, at)).Some?
    ensures Sound(Advance(sys, Project(event, at)).value)
  {
    hide Inv, WritesMailed, Submission.Inv, EventBacked, IssuedOk, RowSound;
    EventIsBacked(sys.worker, event);
    if event.job in sys.jobs {
      BackedUpdate(sys.worker, sys.jobs[event.job], event, at);
    }
  }

  lemma {:induction false} PlayIsSound(moves: seq<Move>)
    requires Play(moves).Some?
    ensures Sound(Play(moves).value)
  {
    if moves == [] {
      InitialInv();
    } else {
      PlayIsSound(moves[..|moves| - 1]);
      var sys := Play(moves[..|moves| - 1]).value;
      match moves[|moves| - 1]
      case Api(l, provider) => SubmissionKeepsSound(sys, l, provider);
      case Work(l) => WorkKeepsSound(sys, l);
      case Project(event, at) => ProjectionKeepsSound(sys, event, at);
    }
  }

  lemma OneMoreStep(s: State, l: Label, t: State)
    requires Reachable(s) && Step(s, l) == Some(t)
    ensures Reachable(t)
  {
    var labels :| Run(Initial(), labels) == Some(s);
    assert (labels + [l])[..|labels|] == labels;
    assert Run(Initial(), labels + [l]) == Some(t);
  }

  /** The workers of the whole system are the workers of the delivery protocol. */
  lemma {:induction false} WorkerIsReachable(moves: seq<Move>)
    requires Play(moves).Some?
    ensures Reachable(Play(moves).value.worker)
  {
    if moves == [] {
      assert Run(Initial(), []) == Some(Initial());
    } else {
      WorkerIsReachable(moves[..|moves| - 1]);
      var sys := Play(moves[..|moves| - 1]).value;
      match moves[|moves| - 1]
      case Api(l, provider) =>
        if EffectOf(sys.api, l).Some? && EffectOf(sys.api, l).value.publish {
          OneMoreStep(sys.worker, Submit(FirstMessage(l.call, provider)), Play(moves).value.worker);
        }
      case Work(l) => OneMoreStep(sys.worker, l, Play(moves).value.worker);
      case Project(_, _) =>
    }
  }

  /******* End to end *******/

  lemma JobsMove(jobs: map<nat, JobRow>, api: Submission.State, c: nat, reply: Reply)
    requires SameTable(api.rows, jobs) && Submission.Step(api, Submission.Act(c, reply)).Some?
    ensures var key, stage := api.calls[c].key, api.calls[c].stage;
            JobsAfter(jobs, api, Submission.Act(c, reply)) ==
              if reply == Threw(false) then jobs
              else if stage.Creating? && c !in jobs && !Submission.HasRow(api.rows, key) then
                jobs[c := JobRow(key, JobStatus.Queued, None, None)]
              else if stage.Marking? && c in jobs then jobs[c := jobs[c].(status := Published)]
              else jobs
  {
    Submission.CallsTakeEffect(api, c, reply);
    hide Submission.Next;
  }

  lemma WorkerMoves(worker: State, api: Submission.State, c: nat, reply: Reply, provider: Provider)
    requires Submission.Step(api, Submission.Act(c, reply)).Some?
    requires WorkerAfter(worker, api, Submission.Act(c, reply), provider).Some?
    ensures var after := WorkerAfter(worker, api, Submission.Act(c, reply), provider).value;
            if api.calls[c].stage.Publishing? && reply != Threw(false) then
              && after.submitted == worker.submitted[c := Message(c, 0, provider, true)]
              && after.copies == worker.copies + [Copy(Message(c, 0, provider, true), Place.Queued(Main))]
            else after == worker
  {
    Submission.CallsTakeEffect(api, c, reply);
    hide Submission.Next;
  }

  /** What the API's steps do to table and queue: the INSERT adds a QUEUED row, `markPublished` makes it
      read PUBLISHED and changes nothing else, the publish hands the workers the first attempt of the
      job, and no other step changes either. */
  lemma SubmissionMoves(sys: System, c: nat, reply: Reply, provider: Provider)
    requires Sound(sys) && Advance(sys, Api(Submission.Act(c, reply), provider)).Some?
    ensures c < |sys.api.calls|
    ensures var t, key, stage := Advance(sys, Api(Submission.Act(c, reply), provider)).value,
                                 sys.api.calls[c].key, sys.api.calls[c].stage;
            && t.jobs == (
              if reply == Threw(false) then sys.jobs
              else if stage.Creating? && c !in sys.jobs && !Submission.HasRow(sys.api.rows, key) then
                sys.jobs[c := JobRow(key, JobStatus.Queued, None, None)]
              else if stage.Marking? && c in sys.jobs then sys.jobs[c := sys.jobs[c].(status := Published)]
              else sys.jobs)
            && if stage.Publishing? && reply != Threw(false) then
                 && t.worker.submitted == sys.worker.submitted[c := Message(c, 0, provider, true)]
                 && t.worker.copies == sys.worker.copies + [Copy(Message(c, 0, provider, true), Place.Queued(Main))]
               else t.worker == sys.worker
  {
    JobsMove(sys.jobs, sys.api, c, reply);
    WorkerMoves(sys.worker, sys.api, c, reply, provider);
    hide JobsAfter, WorkerAfter, Submission.Inv, Inv, WritesMailed, RowSound;
  }

  /** In every run of API and workers together a submission can always take its next step: that each job
      is handed to the workers only once is never in the way. */
  lemma SubmissionAlwaysProceeds(moves: seq<Move>, l: Submission.Label, provider: Provider)
    requires Play(moves).Some? && Submission.Step(Play(moves).value.api, l).Some?
    ensures Play(moves + [Api(l, provider)]).Some?
  {
    PlayIsSound(moves);
    SubmissionNeverBlocks(Play(moves).value, l, provider);
    assert (moves + [Api(l, provider)])[..|moves|] == moves;
  }

  /** However often a key is submitted, at most one job of it ever reaches the workers, and its row is
      in the table. */
  lemma OneJobPerKeyReachesWorkers(moves: seq<Move>, a: nat, b: nat)
    requires Play(moves).Some?
    requires a in Play(moves).value.worker.submitted && b in Play(moves).value.worker.submitted
    ensures var jobs := Play(moves).value.jobs;
            a in jobs && b in jobs && (jobs[a].key == jobs[b].key ==> a == b)
  {
    PlayIsSound(moves);
    assert Submission.CallOk(Play(moves).value.api, a) && Submission.CallOk(Play(moves).value.api, b);
  }

  /** A client that is told its submission is new has a job under its key that is delivered,
      dead-lettered, about to be handed on or still in play, unless a fault has stranded it; and its
      mails and dead letters are at most one more than its splitting faults. */
  lemma NewSubmissionIsSafe(moves: seq<Move>, c: nat)
    requires Play(moves).Some? && c < |Play(moves).value.api.calls|
    requires Play(moves).value.api.calls[c].stage == Submission.Over(Submission.Submitted(c, false))
    ensures var sys := Play(moves).value;
            && c in sys.jobs && sys.jobs[c].key == sys.api.calls[c].key
            && c in sys.worker.submitted
            && (Strands(sys.worker, c) == 0 ==> Safe(sys.worker, c))
            && Mails(sys.worker, c) + DeadLetters(sys.worker, c) <= 1 + Splits(sys.worker, c)
  {
    PlayIsSound(moves);
    WorkerIsReachable(moves);
    var sys := Play(moves).value;
    assert Submission.CallOk(sys.api, c);
    if Strands(sys.worker, c) == 0 {
      NoLoss(sys.worker, c);
    }
    AtMostOncePlusFaults(sys.worker, c);
  }

  /** Processing an event does to the job's row what the event reports, and nothing else to anything. */
  lemma ProjectedAsReported(sys: System, event: StatusEvent, at: int)
    requires event in sys.worker.events
    ensures Advance(sys, Project(event, at)).Some?
    ensures var t := Advance(sys, Project(event, at)).value;
            && t.api == sys.api && t.worker == sys.worker
            && if event.job !in sys.jobs then t.jobs == sys.jobs
               else
                 && event.job in t.jobs && t.jobs == sys.jobs[event.job := t.jobs[event.job]]
                 && Follows(sys.jobs[event.job], event, at, t.jobs[event.job])
  {
    if event.job in sys.jobs {
      UpdateFollows(sys.jobs[event.job], event, at);
    }
  }

  /** Soundness of the projection: in every run of workers and API, with every interleaving,
      repetition and reordering of status events, a row reads DELIVERED only if a worker wrote a
      DELIVERED ledger row and the mail server accepted a mail of the job, DEAD_LETTERED only if there
      is a dead-letter copy of the job, and RETRY_SCHEDULED only if a later attempt was put on a tier. */
  lemma ProjectionIsSound(moves: seq<Move>, job: nat)
    requires Play(moves).Some? && job in Play(moves).value.jobs
    ensures var sys := Play(moves).value;
            && RowSound(sys.worker, job, sys.jobs[job])
            && (sys.jobs[job].deliveredAt.Some? ==> Mails(sys.worker, job) >= 1)
            && (sys.jobs[job].status == Reported(DeadLettered) ==>
                  exists i: nat :: DeadCopy(sys.worker, i) && sys.worker.copies[i].msg.job == job)
  {
    hide Submission.Inv, Inv, WritesMailed, RowSound;
    PlayIsSound(moves);
    ReportedIsReal(Play(moves).value.worker, job, Play(moves).value.jobs[job]);
  }

  lemma ReportedIsReal(s: State, job: nat, row: JobRow)
    requires Inv(s) && WritesMailed(s) && RowSound(s, job, row)
    ensures row.deliveredAt.Some? ==> Mails(s, job) >= 1
    ensures row.status == Reported(DeadLettered) ==> exists i: nat :: DeadCopy(s, i) && s.copies[i].msg.job == job
  {
    hide Inv;
    if row.status == Reported(DeadLettered) {
      var m :| m in s.buried && m.job == job;
      var i := FindDeadCopy(s, m);
    }
    if row.deliveredAt.Some? {
      var a: nat :| ((job, a), Outcome.Delivered) in s.written;
    }
  }

  /******* A 503 answer for a job that is mailed *******/

  ghost predicate Played(sys: System) { exists moves :: Play(moves) == Some(sys) }

  lemma PlayOn(sys: System, m: Move, next: System)
    requires Played(sys) && Advance(sys, m) == Some(next)
    ensures Played(next)
  {
    hide Advance;
    var moves :| Play(moves) == Some(sys);
    assert (moves + [m])[..|moves|] == moves;
    assert Play(moves + [m]) == Some(next);
  }

  /** A step of the only call, which is one the workers do not see. */
  lemma CallGoesOn(sys: System, reply: Reply, e: Submission.Effect) returns (next: System)
    requires Played(sys) && |sys.api.calls| == 1 && Submission.Next(sys.api, 0, reply) == Some(e) && !e.publish
    ensures Played(next) && next.worker == sys.worker && next.api == Submission.Apply(sys.api, 0, e)
  {
    hide Submission.Next;
    next := System(Submission.Apply(sys.api, 0, e), JobsAfter(sys.jobs, sys.api, Submission.Act(0, reply)), sys.worker);
    PlayOn(sys, Api(Submission.Act(0, reply), Smtp), next);
  }

  /** The only call has inserted its row and is about to publish. */
  lemma AboutToPublish() returns (sys: System)
    ensures Played(sys) && sys.worker == Initial()
    ensures sys.api == Submission.State(map[0 := 0], map[0 := 0], [], [Submission.Call(0, Submission.Publishing)])
  {
    var s0 := System(Submission.Initial(), map[], Initial());
    assert Play([]) == Some(s0);
    var s1 := s0.(api := s0.api.(calls := [Submission.Call(0, Submission.Reserving)]));
    assert s0.api.calls + [Submission.Call(0, Submission.Reserving)] == s1.api.calls;
    PlayOn(s0, Api(Submission.Begin(0), Smtp), s1);
    var s2 := CallGoesOn(s1, Done, Submission.GoTo(Submission.Creating).(claim := true));
    assert !Submission.HasRow(s2.api.rows, 0);
    sys := CallGoesOn(s2, Done, Submission.GoTo(Submission.Publishing).(insert := true));
  }

  /** The publish is applied and throws, and the call answers 503. */
  lemma AnsweredUnavailable() returns (sys: System)
    ensures Played(sys) && sys.worker == Step(Initial(), Submit(MAIL)).value
    ensures sys.api.calls == [Submission.Call(0, Submission.Over(Submission.Unavailable))]
  {
    var s0 := AboutToPublish();
    var e := Submission.GoTo(Submission.Undoing).(publish := true);
    assert Submission.Next(s0.api, 0, Threw(true)) == Some(e);
    var s1 := System(Submission.Apply(s0.api, 0, e), s0.jobs, Step(Initial(), Submit(MAIL)).value);
    PlayOn(s0, Api(Submission.Act(0, Threw(true)), Smtp), s1);
    sys := CallGoesOn(s1, Done, Submission.GoTo(Submission.Over(Submission.Unavailable)).(release := true));
  }

  lemma WorkOn(sys: System, l: Label) returns (next: System)
    requires Played(sys) && !l.Submit? && Step(sys.worker, l).Some?
    ensures Played(next) && next == sys.(worker := Step(sys.worker, l).value)
  {
    next := sys.(worker := Step(sys.worker, l).value);
    PlayOn(sys, Work(l), next);
  }

  lemma HandlerGoesOn(sys: System, stage: Stage, row: Option<Outcome>, action: Action, e: Effect) returns (next: System)
    requires Played(sys) && Handled(sys.worker, 0, stage, row)
    requires Next(Holder(MAIL, 0, stage, true), row, action) == Some(e)
    requires e.attached && e.release == None && e.publish == None
    ensures Played(next) && next.api == sys.api && Handled(next.worker, 0, e.stage, RowAfter(row, e))
    ensures Mails(next.worker, MAIL.job) == Mails(sys.worker, MAIL.job) + e.mark.Mails()
  {
    hide Played, Next;
    StepIs(sys.worker, 0, action, e);
    ApplyKept(sys.worker, 0, stage, row, e);
    next := WorkOn(sys, Act(0, action));
  }

  lemma MailedByWorker(sys: System) returns (next: System)
    requires Played(sys) && sys.worker == Step(Initial(), Submit(MAIL)).value
    ensures Played(next) && next.api == sys.api && Mails(next.worker, MAIL.job) >= 1
  {
    hide Played;
    assert sys.worker.copies == [Copy(MAIL, Place.Queued(Main))];
    var s1 := WorkOn(sys, Deliver(0));
    assert Handled(s1.worker, 0, Taken, None);
    var s2 := HandlerGoesOn(s1, Taken, None, Admit(true, false), GoTo(Holder(MAIL, 0, Taken, true), Inserting));
    var s3 := HandlerGoesOn(s2, Inserting, None, Insert(Done), InsertRow(Holder(MAIL, 0, Inserting, true), None, Done));
    MailStep(Some(Pending));
    var mailed := GoTo(Holder(MAIL, 0, Sending, true), Confirming).(mark := Called(Accepted));
    next := HandlerGoesOn(s3, Sending, Some(Pending), Send(Accepted), mailed);
  }

  /** A job whose submission was answered 503 is mailed all the same if its publish was applied. */
  lemma UnavailableButMailed()
    ensures exists sys :: Played(sys) && sys.api.calls == [Submission.Call(0, Submission.Over(Submission.Unavailable))]
                          && Mails(sys.worker, 0) >= 1
  {
    var s := AnsweredUnavailable();
    var t := MailedByWorker(s);
  }
}
