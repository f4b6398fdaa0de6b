/** The job registry and the jobs: what each actor answers to each command. */
module Supervision {
  import opened Common
  import W = Workflow

  /** Job ids; a fresh one is larger than every id drawn before. */
  type Id = nat

  datatype JobStatus = Running | Suspended | AwaitingUserInput | Finished | Failed

  predicate Terminal(s: JobStatus) {
    s.Finished? || s.Failed?
  }

  // ---- The supervisor -----------------------------------------------------------------------

  datatype Record = Record(spec: string, status: JobStatus, submittedAt: nat)

  type Registry = map<Id, Record>

  datatype RegistryEvent =
    | JobSubmitted(id: Id, spec: string, submittedAt: nat)
    | StatusChanged(id: Id, status: JobStatus)
    | JobRemoved(id: Id)

  function ApplyEvent(jobs: Registry, e: RegistryEvent): Registry {
    match e
    case JobSubmitted(id, spec, at) => jobs[id := Record(spec, Running, at)]
    case StatusChanged(id, status) => if id in jobs then jobs[id := jobs[id].(status := status)] else jobs
    case JobRemoved(id) => jobs - {id}
  }

  function Fold(log: seq<RegistryEvent>): Registry {
    if log == [] then map[] else ApplyEvent(Fold(log[..|log| - 1]), log[|log| - 1])
  }

  datatype SupervisorCommand =
    | Submit(spec: string, submittedAt: nat)
    | List
    | Stop(id: Id)
    | Resume(id: Id, message: string)
    | Remove(id: Id)
    | Subscribe(id: Id)
    | ShutdownAll
    | JobStatusChanged(id: Id, status: JobStatus)

  datatype Refusal = NoSuchJob(id: Id) | StillActive(id: Id, status: JobStatus)

  datatype Reply =
    | NoReply
    | Submitted(id: Id)
    | Listed(jobs: Registry)
    | RemoveReply(result: Result<(), Refusal>)
    | SubscribeReply(live: bool)
    | Down

  /** What one command makes the supervisor do: `told` holds the command sent to each child. */
  datatype Answer = Answer(
    event: Option<RegistryEvent>,
    children: set<Id>,
    spawned: Option<Id>,
    told: map<Id, JobCommand>,
    reply: Reply)

  function ToChild(children: set<Id>, id: Id, c: JobCommand): map<Id, JobCommand> {
    if id in children then map[id := c] else map[]
  }

  function Handle(children: set<Id>, jobs: Registry, c: SupervisorCommand, newId: Id): Answer {
    match c
    case Submit(spec, at) =>
      Answer(Some(JobSubmitted(newId, spec, at)), children + {newId}, Some(newId),
             map[newId := StartJob], Submitted(newId))
    case List => Answer(None, children, None, map[], Listed(jobs))
    case Stop(id) => Answer(None, children, None, ToChild(children, id, StopJob), NoReply)
    case Resume(id, message) => Answer(None, children, None, ToChild(children, id, ResumeJob(message)), NoReply)
    case Remove(id) =>
      if id !in jobs then Answer(None, children, None, map[], RemoveReply(Err(NoSuchJob(id))))
      else if !Terminal(jobs[id].status) then
        Answer(None, children, None, map[], RemoveReply(Err(StillActive(id, jobs[id].status))))
      else Answer(Some(JobRemoved(id)), children - {id}, None, map[], RemoveReply(Ok(())))
    case Subscribe(id) =>
      Answer(None, children, None, ToChild(children, id, SubscribeJob), SubscribeReply(id in children))
    case ShutdownAll => Answer(None, {}, None, map id | id in children :: ShutdownJob, Down)
    case JobStatusChanged(id, status) => Answer(Some(StatusChanged(id, status)), children, None, map[], NoReply)
  }

  /** The jobs spawned again after recovery. */
  function Respawned(jobs: Registry): set<Id> {
    set id | id in jobs && !Terminal(jobs[id].status)
  }

  // ---- A job ------------------------------------------------------------------------------------

  datatype JobError = LaunchFailed(error: string) | WorkflowError(failure: W.Failure)

  datatype JobEvent =
    | JobStarted
    | JobConcluded(output: Json)
    | JobSuspended
    | JobAwaitingInput
    | JobFailed(error: JobError)

  function StatusAfter(e: JobEvent): JobStatus {
    match e
    case JobStarted => Running
    case JobConcluded(_) => Finished
    case JobSuspended => Suspended
    case JobAwaitingInput => AwaitingUserInput
    case JobFailed(_) => Failed
  }

  datatype JobCommand =
    | StartJob
    | ResumeJob(message: string)
    | StopJob
    | SubscribeJob
    | ShutdownJob
    | WorkflowEvent(notice: W.Notice)

  datatype Kickoff = KickStart | KickResume(message: string) | KickRecover

  /**
    What one command makes a job do. `report` goes to the supervisor before the effect is
    carried out; `live` says whether a workflow is then held, `tornDown` whether one was released.
   */
  datatype JobAnswer = JobAnswer(
    effect: Effect<JobEvent>,
    report: Option<JobStatus>,
    live: bool,
    launched: Option<Kickoff>,
    forwarded: Option<W.Command>,
    tornDown: bool)

  function LaunchFailure(live: bool, kickoff: Kickoff, error: string): JobAnswer {
    JobAnswer(PersistAndStop([JobFailed(LaunchFailed(error))]), Some(Failed), live, Some(kickoff), None, false)
  }

  function OnNotice(live: bool, n: W.Notice): JobAnswer {
    match n
    case NoticeFinished(output) =>
      JobAnswer(PersistAndStop([JobConcluded(output)]), Some(Finished), false, None, None, live)
    case NoticeFailed(f) =>
      JobAnswer(PersistAndStop([JobFailed(WorkflowError(f))]), Some(Failed), false, None, None, live)
    case NoticeSuspended => JobAnswer(Persist([JobSuspended]), Some(Suspended), live, None, None, false)
    case NoticeAwaiting(_) => JobAnswer(Persist([JobAwaitingInput]), Some(AwaitingUserInput), live, None, None, false)
  }

  /** `outcome` is how a launch of the workflow ends, if one is tried. */
  function HandleJob(live: bool, c: JobCommand, outcome: Result<(), string>): JobAnswer {
    match c
    case StartJob =>
      if outcome.Ok? then JobAnswer(Persist([JobStarted]), None, true, Some(KickStart), None, false)
      else LaunchFailure(live, KickStart, outcome.error)
    case ResumeJob(message) =>
      if live then JobAnswer(NoEffect, None, live, None, Some(W.Resume(message)), false)
      else if outcome.Ok? then JobAnswer(NoEffect, None, true, Some(KickResume(message)), None, false)
      else LaunchFailure(live, KickResume(message), outcome.error)
    case StopJob => JobAnswer(NoEffect, None, live, None, if live then Some(W.Cancel) else None, false)
    case SubscribeJob => JobAnswer(NoEffect, None, live, None, None, false)
    case ShutdownJob => JobAnswer(Effect.Stop, None, false, None, None, live)
    case WorkflowEvent(n) => OnNotice(live, n)
  }

  /** What an effect persists, or nothing. */
  function Persisted(e: Effect<JobEvent>): seq<JobEvent> {
    if e.Persist? || e.PersistAndSnapshot? || e.PersistAndStop? then e.events else []
  }

  /**
    What its workflow says becomes the job's last word: the output is kept as its conclusion,
    the failure as its error; and the status reported is that of the event recorded with it.
   */
  lemma NoticesBecomeStatus(live: bool, n: W.Notice, outcome: Result<(), string>)
    ensures var a := HandleJob(live, WorkflowEvent(n), outcome);
            && a.launched == None && a.forwarded == None
            && match n
               case NoticeFinished(output) =>
                 a.report == Some(Finished) && a.effect == PersistAndStop([JobConcluded(output)]) && !a.live
               case NoticeFailed(failure) =>
                 a.report == Some(Failed) && a.effect == PersistAndStop([JobFailed(WorkflowError(failure))]) && !a.live
               case NoticeSuspended =>
                 a.report == Some(Suspended) && a.effect == Persist([JobSuspended]) && a.live == live
               case NoticeAwaiting(_) =>
                 a.report == Some(AwaitingUserInput) && a.effect == Persist([JobAwaitingInput]) && a.live == live
  {
  }

  /**
    A job never records another status than it reports, and reports none that it does not
    record; only the start of a job, which its row has from its submission, is not reported.
    It ends, for good, exactly when what it records is terminal.
   */
  lemma ReportsAreRecorded(live: bool, c: JobCommand, outcome: Result<(), string>)
    ensures var a := HandleJob(live, c, outcome);
            var es := Persisted(a.effect);
            && |es| <= 1
            && (a.report.Some? ==> es != [] && StatusAfter(es[0]) == a.report.value)
            && (es != [] ==> a.report == Some(StatusAfter(es[0])) || (c.StartJob? && StatusAfter(es[0]) == Running))
            && (es != [] ==> (a.effect.PersistAndStop? <==> Terminal(StatusAfter(es[0]))))
  {
  }

  /** What a recorded event says of the job. */
  lemma RecordsMean(output: Json, error: JobError)
    ensures StatusAfter(JobStarted) == Running && StatusAfter(JobConcluded(output)) == Finished
    ensures StatusAfter(JobSuspended) == Suspended && StatusAfter(JobAwaitingInput) == AwaitingUserInput
    ensures StatusAfter(JobFailed(error)) == Failed
  {
  }

  /**
    A submission creates the job and tells it to start; told so it launches its workflow, and
    says so if it cannot.
   */
  lemma SubmittedJobsStart(
      children: set<Id>, jobs: Registry, spec: string, at: nat, newId: Id, outcome: Result<(), string>)
    ensures var a := Handle(children, jobs, Submit(spec, at), newId);
            && a.event == Some(JobSubmitted(newId, spec, at)) && a.reply == Submitted(newId)
            && a.spawned == Some(newId) && newId in a.children && a.told.Keys == {newId}
            && var j := HandleJob(false, a.told[newId], outcome);
               && j.launched == Some(KickStart) && j.forwarded == None
               && (outcome.Ok? ==> j.live && j.effect == Persist([JobStarted]))
               && (outcome.Err? ==> !j.live && j.report == Some(Failed)
                                    && j.effect == PersistAndStop([JobFailed(LaunchFailed(outcome.error))]))
  {
  }

  /**
    Stopping a job cancels its workflow and resuming it resumes it with the message given, if
    the job is there; a job that holds none launches one to resume with that message. Nobody
    else is told anything.
   */
  lemma RequestsReachTheWorkflow(
      children: set<Id>, jobs: Registry, id: Id, message: string, newId: Id, outcome: Result<(), string>)
    ensures var stopping := Handle(children, jobs, SupervisorCommand.Stop(id), newId);
            var resuming := Handle(children, jobs, Resume(id, message), newId);
            && stopping.event == None && resuming.event == None
            && stopping.told.Keys == resuming.told.Keys == (if id in children then {id} else {})
            && (id in children ==>
                  && HandleJob(true, stopping.told[id], outcome).forwarded == Some(W.Cancel)
                  && HandleJob(false, stopping.told[id], outcome).forwarded == None
                  && HandleJob(true, resuming.told[id], outcome).forwarded == Some(W.Resume(message))
                  && HandleJob(true, resuming.told[id], outcome).launched == None
                  && HandleJob(false, resuming.told[id], outcome).launched == Some(KickResume(message))
                  && HandleJob(false, resuming.told[id], outcome).forwarded == None)
  {
  }

  /**
    What a client hears: the rows as they are, whether a job can be followed, and whether it
    was removed, which needs a row that is terminal; a removal takes child and row together.
   */
  lemma RepliesSay(children: set<Id>, jobs: Registry, id: Id, newId: Id)
    ensures Handle(children, jobs, List, newId) == Answer(None, children, None, map[], Listed(jobs))
    ensures var a := Handle(children, jobs, Subscribe(id), newId);
            && a.event == None && a.children == children && a.reply == SubscribeReply(id in children)
            && a.told == if id in children then map[id := SubscribeJob] else map[]
    ensures var a := Handle(children, jobs, Remove(id), newId);
            && a.told == map[] && a.spawned == None
            && if id in jobs && Terminal(jobs[id].status) then
                 a.reply == RemoveReply(Ok(())) && a.event == Some(JobRemoved(id)) && a.children == children - {id}
               else
                 && a.event == None && a.children == children
                 && a.reply == RemoveReply(
                      Err(if id in jobs then StillActive(id, jobs[id].status) else NoSuchJob(id)))
  {
  }

  /** Shutting down tells every job, which lets go of its workflow, records nothing and is gone. */
  lemma ShutdownReachesEveryJob(
      children: set<Id>, jobs: Registry, newId: Id, live: bool, outcome: Result<(), string>)
    ensures var a := Handle(children, jobs, ShutdownAll, newId);
            && a.event == None && a.children == {} && a.told.Keys == children
            && forall id :: id in children ==>
                 var j := HandleJob(live, a.told[id], outcome);
                 j.effect == Effect.Stop && j.report == None && !j.live && j.tornDown == live
  {
  }

  /** A job recovered as running launches its workflow again; a failure to do so is only logged. */
  function JobRecovered(status: Option<JobStatus>, outcome: Result<(), string>): bool {
    status == Some(Running) && outcome.Ok?
  }
}
