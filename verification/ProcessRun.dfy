/** One local command run by the app. Its timeout, its cancellation, the termination of the
    process and the installation of the waiting continuation race with each other; only the
    sections between locking and unlocking are atomic. */
module ProcessRun {
  import opened Wrappers

  type Continuation = nat
  type Task = nat
  type Error = nat

  datatype Outcome = Success(envelope: nat) | Failure(error: Error)

  /** The fields the lock protects. */
  datatype Shared = Shared(
    continuation: Option<Continuation>,
    completed: Option<Outcome>,
    requestedFailure: Option<Error>,
    timeoutTask: Option<Task>,
    killTask: Option<Task>)

  const FRESH := Shared(None, None, None, None, None)

  // The lock-protected sections

  function Install(s: Shared, c: Continuation): Shared {
    if s.completed.Some? then s else s.(continuation := Some(c))
  }

  function InstallTimeout(s: Shared, t: Task): Shared {
    if s.completed.None? then s.(timeoutTask := Some(t)) else s
  }

  function Request(s: Shared, e: Error): Shared {
    if s.completed.None? && s.requestedFailure.None? then s.(requestedFailure := Some(e)) else s
  }

  function InstallKill(s: Shared, t: Task): Shared {
    if s.completed.None? && s.killTask.None? then s.(killTask := Some(t)) else s
  }

  function Finish(s: Shared, outcome: Outcome): Shared {
    if s.completed.Some? then s
    else Shared(None, Some(outcome), s.requestedFailure, None, None)
  }

  class RunState {
    var continuation: Option<Continuation>
    var completed: Option<Outcome>
    var requestedFailure: Option<Error>
    var timeoutTask: Option<Task>
    var killTask: Option<Task>

    function Fields(): Shared
      reads this
    {
      Shared(continuation, completed, requestedFailure, timeoutTask, killTask)
    }

    constructor ()
      ensures Fields() == FRESH
    {
      continuation, completed, requestedFailure, timeoutTask, killTask := None, None, None, None, None;
    }

    /** Returns the result to resume with at once, if there is one already. */
    method InstallContinuation(c: Continuation) returns (result: Option<Outcome>)
      modifies this
      ensures Fields() == Install(old(Fields()), c) && result == old(completed)
    {
      if completed.Some? {
        result := completed;
      } else {
        continuation := Some(c);
        result := None;
      }
    }

    method InstallTimeoutTask(t: Task) returns (shouldCancel: bool)
      modifies this
      ensures Fields() == InstallTimeout(old(Fields()), t) && (shouldCancel <==> old(completed).Some?)
    {
      shouldCancel := false;
      if completed.None? {
        timeoutTask := Some(t);
      } else {
        shouldCancel := true;
      }
    }

    method RequestFailure(error: Error) returns (shouldEscalate: bool)
      modifies this
      ensures Fields() == Request(old(Fields()), error)
      ensures shouldEscalate <==> completed.None? && killTask.None?
    {
      shouldEscalate := false;
      if completed.None? {
        if requestedFailure.None? {
          requestedFailure := Some(error);
        }
        shouldEscalate := killTask.None?;
      }
    }

    method InstallKillEscalationTask(t: Task) returns (shouldCancel: bool)
      modifies this
      ensures Fields() == InstallKill(old(Fields()), t)
      ensures shouldCancel <==> old(completed).Some? || old(killTask).Some?
    {
      shouldCancel := false;
      if completed.None? && killTask.None? {
        killTask := Some(t);
      } else {
        shouldCancel := true;
      }
    }

    /** Returns what to cancel and whom to resume after unlocking. */
    method FinishSection(outcome: Outcome)
      returns (won: bool, toResume: Option<Continuation>, timeout: Option<Task>, kill: Option<Task>)
      modifies this
      ensures Fields() == Finish(old(Fields()), outcome)
      ensures won <==> old(completed).None?
      ensures toResume == (if won then old(continuation) else None)
      ensures timeout == (if won then old(timeoutTask) else None)
      ensures kill == (if won then old(killTask) else None)
    {
      if completed.Some? {
        return false, None, None, None;
      }
      completed := Some(outcome);
      toResume := continuation;
      continuation := None;
      timeout := timeoutTask;
      timeoutTask := None;
      kill := killTask;
      killTask := None;
      won := true;
    }
  }

  // ---------------------------------------------------------------------------
  // Interleaving the sections

  /** Work that follows a section after unlocking, in its thread's own time. */
  datatype Job =
    | Resume(c: Continuation, outcome: Outcome)
    | Cancel(t: Task)
    | OfferKill(t: Task)               // the escalation task, created outside the lock
    | ReadFailure(observed: Outcome)   // the termination handler, not completed when it looked
    | Complete(outcome: Outcome)       // and on its way into `finish`

  /** The fields, the outstanding work, and a record of everything that happened. */
  datatype State = State(
    shared: Shared, jobs: multiset<Job>,
    resumed: multiset<Continuation>, cancelled: set<Task>,
    installed: set<Continuation>, offered: set<Task>,
    overwritten: set<Continuation>, overwrittenTasks: set<Task>,
    requests: seq<Error>)

  const START := State(FRESH, multiset{}, multiset{}, {}, {}, {}, {}, {}, [])

  datatype Event =
    | Installs(c: Continuation)
    | OffersTimeout(t: Task)
    | Requests(error: Error, kill: Task)   // timeout or cancellation
    | Finishes(outcome: Outcome)           // the process could not be started
    | Terminates(observed: Outcome)        // the termination handler
    | Runs(job: Job)

  /** Continuations and tasks are created for one call each. */
  predicate CanHappen(s: State, e: Event) {
    match e
    case Installs(c) => c !in s.installed
    case OffersTimeout(t) => t !in s.offered
    case Requests(_, t) => t !in s.offered
    case Runs(job) => job in s.jobs
    case _ => true
  }

  function Elements<T>(o: Option<T>): set<T> { if o.Some? then {o.value} else {} }

  function CancelJob(task: Option<Task>): multiset<Job> {
    if task.Some? then multiset{Cancel(task.value)} else multiset{}
  }

  function ResumeJob(c: Option<Continuation>, outcome: Outcome): multiset<Job> {
    if c.Some? then multiset{Resume(c.value, outcome)} else multiset{}
  }

  /** The work `finish` leaves behind. */
  function FinishJobs(s: Shared, outcome: Outcome): multiset<Job> {
    if s.completed.Some? then multiset{}
    else CancelJob(s.timeoutTask) + CancelJob(s.killTask) + ResumeJob(s.continuation, outcome)
  }

  function FinishAll(s: State, outcome: Outcome): State {
    s.(shared := Finish(s.shared, outcome), jobs := s.jobs + FinishJobs(s.shared, outcome))
  }

  function WithoutJob(s: State, job: Job): State { s.(jobs := s.jobs - multiset{job}) }

  function Happens(s: State, e: Event): State
    requires CanHappen(s, e)
  {
    match e
    case Installs(c) =>
      s.(shared := Install(s.shared, c),
         installed := s.installed + {c},
         overwritten := if s.shared.completed.None? then s.overwritten + Elements(s.shared.continuation) else s.overwritten,
         jobs := if s.shared.completed.Some? then s.jobs + multiset{Resume(c, s.shared.completed.value)} else s.jobs)
    case OffersTimeout(t) =>
      s.(shared := InstallTimeout(s.shared, t),
         offered := s.offered + {t},
         overwrittenTasks :=
           if s.shared.completed.None? then s.overwrittenTasks + Elements(s.shared.timeoutTask) else s.overwrittenTasks,
         jobs := if s.shared.completed.Some? then s.jobs + multiset{Cancel(t)} else s.jobs)
    case Requests(error, t) =>
      var escalates := s.shared.completed.None? && s.shared.killTask.None?;
      s.(shared := Request(s.shared, error),
         requests := if s.shared.completed.None? then s.requests + [error] else s.requests,
         offered := if escalates then s.offered + {t} else s.offered,
         jobs := if escalates then s.jobs + multiset{OfferKill(t)} else s.jobs)
    case Finishes(outcome) =>
      FinishAll(s, outcome)
    case Terminates(observed) =>
      if s.shared.completed.Some? then s else s.(jobs := s.jobs + multiset{ReadFailure(observed)})
    case Runs(job) => RunJob(WithoutJob(s, job), job)
  }

  function RunJob(s: State, job: Job): State {
    match job
    case Resume(c, _) => s.(resumed := s.resumed + multiset{c})
    case Cancel(t) => s.(cancelled := s.cancelled + {t})
    case OfferKill(t) =>
      s.(shared := InstallKill(s.shared, t),
         jobs := if s.shared.completed.Some? || s.shared.killTask.Some? then s.jobs + multiset{Cancel(t)} else s.jobs)
    case ReadFailure(observed) =>
      var outcome := if s.shared.requestedFailure.Some? then Failure(s.shared.requestedFailure.value) else observed;
      s.(jobs := s.jobs + multiset{Complete(outcome)})
    case Complete(outcome) => FinishAll(s, outcome)
  }

  // ---------------------------------------------------------------------------
  // What each event does, on the fields

  /** Sections come in any order; continuations and tasks are created for one call each, and a thread
      runs only what it has outstanding. */
  lemma EventsAreOpen(s: State, e: Event)
    ensures e.Installs? ==> (CanHappen(s, e) <==> e.c !in s.installed)
    ensures e.OffersTimeout? ==> (CanHappen(s, e) <==> e.t !in s.offered)
    ensures e.Requests? ==> (CanHappen(s, e) <==> e.kill !in s.offered)
    ensures e.Finishes? || e.Terminates? ==> CanHappen(s, e)
    ensures e.Runs? ==> (CanHappen(s, e) <==> s.jobs[e.job] > 0)
  {
  }

  /** Before completion a continuation is kept for `finish`, afterwards it is resumed at once with the
      result; the same goes for a timeout task, which is cancelled instead. */
  lemma OffersAreExactly(s: State, c: Continuation, t: Task)
    requires c !in s.installed && t !in s.offered
    ensures s.shared.completed.None? ==>
      && Happens(s, Installs(c)).shared == s.shared.(continuation := Some(c))
      && Happens(s, Installs(c)).jobs == s.jobs
      && Happens(s, OffersTimeout(t)).shared == s.shared.(timeoutTask := Some(t))
      && Happens(s, OffersTimeout(t)).jobs == s.jobs
    ensures s.shared.completed.Some? ==>
      && Happens(s, Installs(c)).shared == s.shared && Happens(s, OffersTimeout(t)).shared == s.shared
      && Happens(s, Installs(c)).jobs == s.jobs + multiset{Resume(c, s.shared.completed.value)}
      && Happens(s, OffersTimeout(t)).jobs == s.jobs + multiset{Cancel(t)}
  {
  }

  /** A request before completion is remembered if it is the first, and sets off a kill task if there
      is none yet; that task is installed when it is offered, or cancelled when that comes too late. */
  lemma RequestsAreExactly(s: State, error: Error, kill: Task)
    requires kill !in s.offered
    ensures var t := Happens(s, Requests(error, kill));
      && t.shared.requestedFailure ==
           (if s.shared.completed.None? && s.shared.requestedFailure.None? then Some(error)
            else s.shared.requestedFailure)
      && t.jobs == (if s.shared.completed.None? && s.shared.killTask.None? then s.jobs + multiset{OfferKill(kill)}
                    else s.jobs)
      && t.shared.killTask == s.shared.killTask && t.shared.completed == s.shared.completed
      && t.shared.continuation == s.shared.continuation && t.shared.timeoutTask == s.shared.timeoutTask
  {
  }

  lemma KillTasksAreExactly(s: State, kill: Task)
    requires OfferKill(kill) in s.jobs
    ensures var t := Happens(s, Runs(OfferKill(kill)));
      var open := s.shared.completed.None? && s.shared.killTask.None?;
      && t.shared == (if open then s.shared.(killTask := Some(kill)) else s.shared)
      && t.jobs == s.jobs - multiset{OfferKill(kill)} + (if open then multiset{} else multiset{Cancel(kill)})
  {
  }

  /** The first result completes the run, takes out the continuation, to be resumed with it, and both
      tasks, to be cancelled. Later ones change nothing. */
  lemma ResultsAreExactly(s: State, outcome: Outcome)
    ensures var t := Happens(s, Finishes(outcome));
      && t.shared.completed == (if s.shared.completed.None? then Some(outcome) else s.shared.completed)
      && (s.shared.completed.Some? ==> t == s)
      && (s.shared.completed.None? ==>
            && t.shared.continuation.None? && t.shared.timeoutTask.None? && t.shared.killTask.None?
            && t.shared.requestedFailure == s.shared.requestedFailure
            && forall job :: t.jobs[job] == s.jobs[job]
                 + (if job.Resume? && s.shared.continuation == Some(job.c) && job.outcome == outcome then 1 else 0)
                 + (if job.Cancel? && s.shared.timeoutTask == Some(job.t) then 1 else 0)
                 + (if job.Cancel? && s.shared.killTask == Some(job.t) then 1 else 0))
  {
  }

  /** A termination handler looks once, unless the run has completed; `finish` follows from its look. */
  lemma TerminationsAreExactly(s: State, observed: Outcome)
    ensures Happens(s, Terminates(observed)) ==
      if s.shared.completed.Some? then s else s.(jobs := s.jobs + multiset{ReadFailure(observed)})
    ensures Complete(observed) in s.jobs ==>
      Happens(s, Runs(Complete(observed))) ==
      Happens(s.(jobs := s.jobs - multiset{Complete(observed)}), Finishes(observed))
  {
    hide FinishJobs;
  }

  /** Resuming and cancelling are recorded, and nothing else happens with them. */
  lemma WorkIsExactly(s: State, c: Continuation, outcome: Outcome, t: Task)
    ensures Resume(c, outcome) in s.jobs ==>
      Happens(s, Runs(Resume(c, outcome))) ==
      s.(jobs := s.jobs - multiset{Resume(c, outcome)}, resumed := s.resumed + multiset{c})
    ensures Cancel(t) in s.jobs ==>
      Happens(s, Runs(Cancel(t))) == s.(jobs := s.jobs - multiset{Cancel(t)}, cancelled := s.cancelled + {t})
  {
    hide FinishJobs, FinishAll;
  }

  // ---------------------------------------------------------------------------
  // The invariant

  /** How often a continuation has been, is being, or still can be resumed. */
  function Resumptions(s: State, c: Continuation): nat {
    s.resumed[c]
    + (if s.shared.completed.Some? then s.jobs[Resume(c, s.shared.completed.value)] else 0)
    + (if s.shared.continuation == Some(c) then 1 else 0)
  }

  predicate TakenCareOf(s: State, t: Task) {
    t in s.cancelled || Cancel(t) in s.jobs || OfferKill(t) in s.jobs
    || s.shared.timeoutTask == Some(t) || s.shared.killTask == Some(t)
  }

  /** A completed run has handed out its continuation and tasks, and resumes with its one result. */
  ghost predicate HandedOut(s: State) {
    && (s.shared.completed.Some? ==>
          s.shared.continuation.None? && s.shared.timeoutTask.None? && s.shared.killTask.None?)
    && (forall job <- s.jobs :: job.Resume? ==> s.shared.completed == Some(job.outcome))
  }

  ghost predicate OnceEach(s: State) {
    && s.overwritten <= s.installed
    && forall c :: Resumptions(s, c) == if c in s.installed && c !in s.overwritten then 1 else 0
  }

  ghost predicate TasksKept(s: State) {
    forall t <- s.offered :: t in s.overwrittenTasks || TakenCareOf(s, t)
  }

  ghost predicate FirstFailureKept(s: State) {
    s.shared.requestedFailure == (if s.requests == [] then None else Some(s.requests[0]))
  }

  ghost predicate Inv(s: State) {
    HandedOut(s) && OnceEach(s) && TasksKept(s) && FirstFailureKept(s)
  }

  lemma FinishJobsAre(s: Shared, outcome: Outcome)
    requires s.completed.None?
    ensures forall t: Task :: Cancel(t) in FinishJobs(s, outcome) <==> s.timeoutTask == Some(t) || s.killTask == Some(t)
    ensures forall c: Continuation, o :: FinishJobs(s, outcome)[Resume(c, o)] == if s.continuation == Some(c) && o == outcome then 1 else 0
    ensures forall job <- FinishJobs(s, outcome) :: job.Cancel? || job.Resume?
  {
    CancelJobIs(s.timeoutTask);
    CancelJobIs(s.killTask);
    ResumeJobIs(s.continuation, outcome);
    hide CancelJob, ResumeJob;
    var jobs := FinishJobs(s, outcome);
    assert forall job ::
      (jobs[job] == CancelJob(s.timeoutTask)[job] + CancelJob(s.killTask)[job] + ResumeJob(s.continuation, outcome)[job]);
  }

  lemma CancelJobIs(task: Option<Task>)
    ensures forall job :: CancelJob(task)[job] == if job.Cancel? && task == Some(job.t) then 1 else 0
  {
  }

  lemma ResumeJobIs(c: Option<Continuation>, outcome: Outcome)
    ensures forall job ::
      (ResumeJob(c, outcome)[job] == if job.Resume? && c == Some(job.c) && job.outcome == outcome then 1 else 0)
  {
  }

  lemma FinishKeepsHandedOut(s: State, outcome: Outcome)
    requires HandedOut(s)
    ensures HandedOut(FinishAll(s, outcome))
  {
    if s.shared.completed.None? {
      FinishJobsAre(s.shared, outcome);
      hide FinishJobs;
      forall job <- FinishAll(s, outcome).jobs | job.Resume? ensures job.outcome == outcome {
        assert job !in s.jobs;
        assert FinishJobs(s.shared, outcome)[Resume(job.c, job.outcome)] > 0;
      }
    }
  }

  lemma FinishKeepsTask(s: State, outcome: Outcome, t: Task)
    requires TakenCareOf(s, t)
    ensures TakenCareOf(FinishAll(s, outcome), t)
  {
    if s.shared.completed.None? {
      FinishJobsAre(s.shared, outcome);
      hide FinishJobs;
    }
  }

  lemma FinishKeepsResumptions(s: State, outcome: Outcome, c: Continuation)
    requires HandedOut(s)
    ensures Resumptions(FinishAll(s, outcome), c) == Resumptions(s, c)
  {
    if s.shared.completed.None? {
      FinishJobsAre(s.shared, outcome);
      assert Resume(c, outcome) !in s.jobs;
      hide FinishJobs;
    }
  }

  lemma JobKeepsHandedOut(s: State, job: Job)
    requires HandedOut(s) && job in s.jobs
    ensures HandedOut(RunJob(WithoutJob(s, job), job))
  {
    var rest := WithoutJob(s, job);
    assert HandedOut(rest);
    hide HandedOut, FinishAll, WithoutJob;
    if job.Complete? {
      FinishKeepsHandedOut(rest, job.outcome);
    } else {
      OtherJobKeepsHandedOut(rest, job);
    }
  }

  lemma OtherJobKeepsHandedOut(s: State, job: Job)
    requires HandedOut(s) && !job.Complete?
    ensures HandedOut(RunJob(s, job))
  {
    hide FinishAll;
  }

  lemma JobKeepsResumptions(s: State, job: Job, c: Continuation)
    requires HandedOut(s) && job in s.jobs
    ensures Resumptions(RunJob(WithoutJob(s, job), job), c) == Resumptions(s, c)
  {
    var rest := WithoutJob(s, job);
    match job
    case Resume(d, outcome) => assert s.shared.completed == Some(outcome);
    case Complete(outcome) =>
      assert HandedOut(rest) && Resumptions(rest, c) == Resumptions(s, c);
      FinishKeepsResumptions(rest, outcome, c);
    case OfferKill(t) =>
    case _ =>
  }

  lemma JobKeepsTask(s: State, job: Job, t: Task)
    requires job in s.jobs && TakenCareOf(s, t)
    ensures TakenCareOf(RunJob(WithoutJob(s, job), job), t)
  {
    var rest := WithoutJob(s, job);
    match job
    case Complete(outcome) =>
      assert TakenCareOf(rest, t);
      FinishKeepsTask(rest, outcome, t);
    case OfferKill(u) =>
    case Cancel(u) =>
    case _ =>
      assert TakenCareOf(rest, t);
  }

  lemma StepKeepsHandedOut(s: State, e: Event)
    requires HandedOut(s) && CanHappen(s, e)
    ensures HandedOut(Happens(s, e))
  {
    hide FinishJobs, RunJob;
    match e
    case Runs(job) => JobKeepsHandedOut(s, job);
    case Finishes(outcome) => FinishKeepsHandedOut(s, outcome);
    case _ =>
  }

  lemma StepKeepsResumptions(s: State, e: Event, c: Continuation)
    requires HandedOut(s) && OnceEach(s) && CanHappen(s, e)
    ensures var s' := Happens(s, e);
      Resumptions(s', c) == if c in s'.installed && c !in s'.overwritten then 1 else 0
  {
    hide FinishJobs, RunJob;
    assert Resumptions(s, c) == if c in s.installed && c !in s.overwritten then 1 else 0;
    match e
    case Runs(job) =>
      JobKeepsResumptions(s, job, c);
      JobKeepsHistory(s, job);
    case Finishes(outcome) => FinishKeepsResumptions(s, outcome, c);
    case Installs(d) =>
      if s.shared.completed.Some? {
        assert s.shared.continuation.None?;
      }
    case _ =>
  }

  lemma JobKeepsHistory(s: State, job: Job)
    requires job in s.jobs
    ensures var s' := Happens(s, Runs(job));
      && s'.installed == s.installed && s'.overwritten == s.overwritten
      && s'.offered == s.offered && s'.overwrittenTasks == s.overwrittenTasks && s'.requests == s.requests
  {
    hide FinishJobs, Finish, InstallKill;
    match job
    case Complete(_) =>
    case OfferKill(_) =>
    case _ =>
  }

  lemma StepKeepsOnceEach(s: State, e: Event)
    requires HandedOut(s) && OnceEach(s) && CanHappen(s, e)
    ensures OnceEach(Happens(s, e))
  {
    var s' := Happens(s, e);
    if e.Runs? {
      JobKeepsHistory(s, e.job);
    }
    hide FinishJobs, RunJob;
    if e.Installs? && s.shared.continuation.Some? {
      assert Resumptions(s, s.shared.continuation.value) > 0;
    }
    forall c ensures Resumptions(s', c) == if c in s'.installed && c !in s'.overwritten then 1 else 0 {
      StepKeepsResumptions(s, e, c);
    }
  }

  lemma StepKeepsTask(s: State, e: Event, t: Task)
    requires CanHappen(s, e) && TakenCareOf(s, t)
    ensures t in Happens(s, e).overwrittenTasks || TakenCareOf(Happens(s, e), t)
  {
    hide FinishJobs, RunJob;
    match e
    case Runs(job) => JobKeepsTask(s, job, t);
    case Finishes(outcome) => FinishKeepsTask(s, outcome, t);
    case _ =>
  }

  lemma NewTaskIsKept(s: State, e: Event, t: Task)
    requires CanHappen(s, e) && t !in s.offered && t in Happens(s, e).offered
    ensures TakenCareOf(Happens(s, e), t)
  {
  }

  lemma StepKeepsTasks(s: State, e: Event)
    requires TasksKept(s) && CanHappen(s, e)
    ensures TasksKept(Happens(s, e))
  {
    if e.Runs? {
      JobKeepsHistory(s, e.job);
    }
    hide RunJob, FinishJobs, TakenCareOf;
    var s' := Happens(s, e);
    forall t <- s'.offered ensures t in s'.overwrittenTasks || TakenCareOf(s', t) {
      if t !in s.offered {
        NewTaskIsKept(s, e, t);
      } else if t !in s.overwrittenTasks {
        StepKeepsTask(s, e, t);
      }
    }
  }

  lemma StepKeepsFirstFailure(s: State, e: Event)
    requires FirstFailureKept(s) && CanHappen(s, e)
    ensures FirstFailureKept(Happens(s, e))
  {
    hide FinishJobs;
    match e
    case Runs(job) =>
      JobKeepsHistory(s, job);
      match job {
        case Complete(_) =>
        case OfferKill(_) =>
        case _ =>
      }
    case _ =>
  }

  lemma StepKeepsInv(s: State, e: Event)
    requires Inv(s) && CanHappen(s, e)
    ensures Inv(Happens(s, e))
  {
    hide HandedOut, OnceEach, TasksKept, FirstFailureKept, Happens;
    StepKeepsHandedOut(s, e);
    StepKeepsOnceEach(s, e);
    StepKeepsTasks(s, e);
    StepKeepsFirstFailure(s, e);
  }

  predicate IsRun(s: State, events: seq<Event>)
    decreases |events|
  {
    events != [] ==> CanHappen(s, events[0]) && IsRun(Happens(s, events[0]), events[1..])
  }

  function After(s: State, events: seq<Event>): State
    requires IsRun(s, events)
    decreases |events|
  {
    if events == [] then s else After(Happens(s, events[0]), events[1..])
  }

  lemma {:induction false} RunKeepsInv(s: State, events: seq<Event>)
    requires Inv(s) && IsRun(s, events)
    ensures Inv(After(s, events))
    decreases |events|
  {
    if events != [] {
      StepKeepsInv(s, events[0]);
      RunKeepsInv(Happens(s, events[0]), events[1..]);
    }
  }

  // ---------------------------------------------------------------------------
  // What holds in every interleaving

  /** No continuation is ever resumed twice; and once the run has completed and its threads are
      done, every installed one has been resumed, except one another installation overwrote. */
  lemma ResumedExactlyOnce(events: seq<Event>, c: Continuation)
    requires IsRun(START, events)
    ensures var s := After(START, events);
      && s.resumed[c] <= 1
      && (s.resumed[c] == 1 ==> c in s.installed && s.shared.completed.Some?)
      && (s.shared.completed.Some? && s.jobs == multiset{} ==>
            (s.resumed[c] == 1 <==> c in s.installed && c !in s.overwritten))
  {
    RunKeepsInv(START, events);
    ResumedMeansCompleted(START, events, c);
    var s := After(START, events);
    assert Resumptions(s, c) == if c in s.installed && c !in s.overwritten then 1 else 0;
  }

  lemma {:induction false} ResumedMeansCompleted(s: State, events: seq<Event>, c: Continuation)
    requires Inv(s) && IsRun(s, events)
    requires s.resumed[c] > 0 ==> s.shared.completed.Some?
    ensures After(s, events).resumed[c] > 0 ==> After(s, events).shared.completed.Some?
    decreases |events|
  {
    hide FinishJobs;
    if events != [] {
      StepKeepsInv(s, events[0]);
      assert Happens(s, events[0]).resumed[c] > 0 ==> Happens(s, events[0]).shared.completed.Some?;
      ResumedMeansCompleted(Happens(s, events[0]), events[1..], c);
    }
  }

  /** And every timeout or kill task ever offered has been cancelled. */
  lemma OfferedTasksAreCancelled(events: seq<Event>)
    requires IsRun(START, events)
    requires After(START, events).shared.completed.Some? && After(START, events).jobs == multiset{}
    ensures After(START, events).offered - After(START, events).overwrittenTasks <= After(START, events).cancelled
  {
    RunKeepsInv(START, events);
    var s := After(START, events);
    forall t <- s.offered | t !in s.overwrittenTasks ensures t in s.cancelled {
      assert TakenCareOf(s, t);
    }
  }

  /** The caller installs one continuation and offers one timeout; then nothing is overwritten. */
  lemma {:induction false} NothingIsOverwritten(s: State, events: seq<Event>)
    requires IsRun(s, events)
    requires s.overwritten == {} && s.overwrittenTasks == {}
    requires forall i, j :: 0 <= i < j < |events| ==> !(events[i].Installs? && events[j].Installs?)
    requires forall i, j :: 0 <= i < j < |events| ==> !(events[i].OffersTimeout? && events[j].OffersTimeout?)
    requires s.shared.continuation.Some? ==> forall e <- events :: !e.Installs?
    requires s.shared.timeoutTask.Some? ==> forall e <- events :: !e.OffersTimeout?
    ensures After(s, events).overwritten == {} && After(s, events).overwrittenTasks == {}
    decreases |events|
  {
    if events != [] {
      var s' := Happens(s, events[0]);
      var rest := events[1..];
      NothingIsOverwrittenYet(s, events);
      assert forall i :: 0 <= i < |rest| ==> rest[i] == events[i + 1];
      hide Happens;
      NothingIsOverwritten(s', rest);
    }
  }

  lemma JobInstallsNothing(s: State, job: Job)
    requires job in s.jobs
    ensures var s' := RunJob(WithoutJob(s, job), job);
      && (s'.shared.continuation.Some? ==> s'.shared.continuation == s.shared.continuation)
      && (s'.shared.timeoutTask.Some? ==> s'.shared.timeoutTask == s.shared.timeoutTask)
  {
    hide FinishJobs;
    match job
    case Complete(_) =>
    case OfferKill(_) =>
    case _ =>
  }

  lemma NothingIsOverwrittenYet(s: State, events: seq<Event>)
    requires events != [] && CanHappen(s, events[0])
    requires s.overwritten == {} && s.overwrittenTasks == {}
    requires forall i, j :: 0 <= i < j < |events| ==> !(events[i].Installs? && events[j].Installs?)
    requires forall i, j :: 0 <= i < j < |events| ==> !(events[i].OffersTimeout? && events[j].OffersTimeout?)
    requires s.shared.continuation.Some? ==> forall e <- events :: !e.Installs?
    requires s.shared.timeoutTask.Some? ==> forall e <- events :: !e.OffersTimeout?
    ensures var s' := Happens(s, events[0]);
      && s'.overwritten == {} && s'.overwrittenTasks == {}
      && (s'.shared.continuation.Some? ==> forall e <- events[1..] :: !e.Installs?)
      && (s'.shared.timeoutTask.Some? ==> forall e <- events[1..] :: !e.OffersTimeout?)
  {
    hide FinishJobs, RunJob;
    if events[0].Runs? {
      JobKeepsHistory(s, events[0].job);
      JobInstallsNothing(s, events[0].job);
    }
    assert events[0] in events;
    forall e <- events[1..] ensures !(events[0].Installs? && e.Installs?) && !(events[0].OffersTimeout? && e.OffersTimeout?) {
      var i :| 0 <= i < |events| - 1 && events[1..][i] == e;
      assert events[i + 1] == e;
    }
  }

  /** The whole promise for the way the caller uses it. */
  lemma CallerIsAnsweredOnce(events: seq<Event>, c: Continuation)
    requires IsRun(START, events) && Installs(c) in events
    requires forall i, j :: 0 <= i < j < |events| ==> !(events[i].Installs? && events[j].Installs?)
    requires forall i, j :: 0 <= i < j < |events| ==> !(events[i].OffersTimeout? && events[j].OffersTimeout?)
    requires After(START, events).shared.completed.Some? && After(START, events).jobs == multiset{}
    ensures After(START, events).resumed[c] == 1
    ensures After(START, events).offered <= After(START, events).cancelled
  {
    NothingIsOverwritten(START, events);
    ResumedExactlyOnce(events, c);
    InstallsAreRecorded(START, events, c);
    OfferedTasksAreCancelled(events);
  }

  lemma {:induction false} InstallsAreRecorded(s: State, events: seq<Event>, c: Continuation)
    requires IsRun(s, events) && (Installs(c) in events || c in s.installed)
    ensures c in After(s, events).installed
    decreases |events|
  {
    hide FinishJobs;
    if events != [] {
      InstallsAreRecorded(Happens(s, events[0]), events[1..], c);
    }
  }

  /** Two installations before completion lose the first: its caller would wait forever. */
  lemma SecondInstallLosesFirst(events: seq<Event>, first: Continuation, second: Continuation)
    requires IsRun(START, events)
    requires After(START, events).shared.continuation == Some(first)
    requires second !in After(START, events).installed
    ensures first in Happens(After(START, events), Installs(second)).overwritten
    ensures Resumptions(Happens(After(START, events), Installs(second)), first) == 0
  {
    RunKeepsInv(START, events);
    StepKeepsInv(After(START, events), Installs(second));
    assert Resumptions(After(START, events), first) == 1;
  }

  /** The outcome a termination handler takes into `finish` is the first failure requested before
      completion, if any was requested by the time it looked; later requests change nothing. */
  lemma TerminationReportsFirstFailure(events: seq<Event>, observed: Outcome)
    requires IsRun(START, events) && ReadFailure(observed) in After(START, events).jobs
    ensures var s := After(START, events);
      var outcome := if s.requests == [] then observed else Failure(s.requests[0]);
      Happens(s, Runs(ReadFailure(observed))).jobs == s.jobs - multiset{ReadFailure(observed)} + multiset{Complete(outcome)}
  {
    RunKeepsInv(START, events);
  }

  lemma {:induction false} FirstRequestStays(s: State, events: seq<Event>)
    requires IsRun(s, events)
    ensures s.requests <= After(s, events).requests
    ensures s.shared.completed.Some? ==>
              After(s, events).shared.completed == s.shared.completed && After(s, events).requests == s.requests
    decreases |events|
  {
    hide Happens, CanHappen;
    if events != [] {
      RequestsStay(s, events[0]);
      FirstRequestStays(Happens(s, events[0]), events[1..]);
    }
  }

  lemma RequestsStay(s: State, e: Event)
    requires CanHappen(s, e)
    ensures s.requests <= Happens(s, e).requests
    ensures s.shared.completed.Some? ==>
              Happens(s, e).shared.completed == s.shared.completed && Happens(s, e).requests == s.requests
  {
    hide FinishJobs;
    if e.Runs? {
      JobKeepsHistory(s, e.job);
      if s.shared.completed.Some? { CompletedStays(s, e.job); }
    }
  }

  lemma CompletedStays(s: State, job: Job)
    requires job in s.jobs && s.shared.completed.Some?
    ensures Happens(s, Runs(job)).shared.completed == s.shared.completed
  {
    hide FinishJobs;
    match job
    case Complete(_) =>
    case OfferKill(_) =>
    case _ =>
  }

  /** What a termination handler goes on to finish with, having looked in state `s`. */
  function Outcomed(s: State, observed: Outcome): Outcome {
    if s.requests == [] then observed else Failure(s.requests[0])
  }

  lemma FinishingCompletes(s: State, outcome: Outcome)
    requires Complete(outcome) in s.jobs && s.shared.completed.None?
    ensures Happens(s, Runs(Complete(outcome))).shared.completed == Some(outcome)
  {
    hide FinishJobs;
  }

  /** Over a whole run: when the result a termination handler delivers is the first failure that was
      requested. The handler looks at the end of `before`; its `finish` is the first, after `between`;
      the run goes on through `later`. If any failure was requested, it is the one delivered exactly
      when some was requested by the time the handler looked, or the process itself failed that way. */
  lemma DeliversFirstFailureExactlyWhen(before: seq<Event>, observed: Outcome, between: seq<Event>, later: seq<Event>)
    requires IsRun(START, before) && ReadFailure(observed) in After(START, before).jobs
    requires var looked := Happens(After(START, before), Runs(ReadFailure(observed)));
      var finish := Runs(Complete(Outcomed(After(START, before), observed)));
      && IsRun(looked, between)
      && After(looked, between).shared.completed.None? && CanHappen(After(looked, between), finish)
      && IsRun(Happens(After(looked, between), finish), later)
    ensures var look := After(START, before);
      var looked := Happens(look, Runs(ReadFailure(observed)));
      var finish := Runs(Complete(Outcomed(look, observed)));
      var end := After(Happens(After(looked, between), finish), later);
      && end.shared.completed == Some(Outcomed(look, observed))
      && (end.requests != [] ==>
            (end.shared.completed == Some(Failure(end.requests[0])) <==>
             look.requests != [] || observed == Failure(end.requests[0])))
  {
    var look := After(START, before);
    var looked := Happens(look, Runs(ReadFailure(observed)));
    var ready := After(looked, between);
    var finish := Runs(Complete(Outcomed(look, observed)));
    var finished := Happens(ready, finish);
    FinishingCompletes(ready, Outcomed(look, observed));
    hide Happens, CanHappen;
    JobKeepsHistory(look, ReadFailure(observed));
    FirstRequestStays(looked, between);
    JobKeepsHistory(ready, Complete(Outcomed(look, observed)));
    FirstRequestStays(finished, later);
  }

  /** A request that arrives after the handler looked and before it finishes is not reported. */
  lemma LateRequestIsNotReported(observed: Outcome, error: Error, kill: Task) returns (events: seq<Event>)
    requires observed != Failure(error)
    ensures IsRun(START, events) && Requests(error, kill) in events
    ensures After(START, events).requests == [error]
    ensures After(START, events).shared.completed == Some(observed)
  {
    var s := Happens(Happens(START, Terminates(observed)), Runs(ReadFailure(observed)));
    assert s == START.(jobs := multiset{Complete(observed)});
    RequestThenComplete(s, observed, error, kill);
    hide IsRun, After, Happens;
    var late := [Requests(error, kill), Runs(Complete(observed))];
    TwoEvents(START, Terminates(observed), Runs(ReadFailure(observed)), late);
    events := [Terminates(observed), Runs(ReadFailure(observed))] + late;
    assert events[2] == Requests(error, kill);
  }

  lemma RequestThenComplete(s: State, observed: Outcome, error: Error, kill: Task)
    requires s == START.(jobs := multiset{Complete(observed)})
    ensures var late := [Requests(error, kill), Runs(Complete(observed))];
      && IsRun(s, late) && After(s, late).requests == [error] && After(s, late).shared.completed == Some(observed)
  {
    var requested := Happens(s, Requests(error, kill));
    assert Complete(observed) in requested.jobs && requested.requests == [error];
    FinishingCompletes(requested, observed);
    JobKeepsHistory(requested, Complete(observed));
    var late := [Requests(error, kill), Runs(Complete(observed))];
    TwoEvents(s, late[0], late[1], []);
    assert late + [] == late;
  }

  lemma {:induction false} TwoEvents(s: State, e: Event, f: Event, rest: seq<Event>)
    requires CanHappen(s, e) && CanHappen(Happens(s, e), f) && IsRun(Happens(Happens(s, e), f), rest)
    ensures IsRun(s, [e, f] + rest) && After(s, [e, f] + rest) == After(Happens(Happens(s, e), f), rest)
  {
    hide CanHappen, Happens;
    var u := Happens(s, e);
    assert ([f] + rest)[1..] == rest && ([e, f] + rest)[1..] == [f] + rest;
    assert IsRun(u, [f] + rest) && After(u, [f] + rest) == After(Happens(u, f), rest);
  }
}
