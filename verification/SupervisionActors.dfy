/** The supervisor and its jobs as they run. */
module SupervisionActors {
  import opened Common
  import opened Supervision
  import W = Workflow

  class SupervisorActor {
    var children: set<Id>
    var nextId: Id
    /** The jobs spawned so far, in order. */
    var spawned: seq<Id>

    constructor (nextId: Id)
      ensures children == {} && this.nextId == nextId && spawned == []
    {
      children := {};
      this.nextId := nextId;
      spawned := [];
    }

    method SpawnJob(id: Id)
      modifies this`children, this`spawned
      ensures children == old(children) + {id} && spawned == old(spawned) + [id]
    {
      spawned := spawned + [id];
      children := children + {id};
    }

    method HandleCommand(jobs: Registry, c: SupervisorCommand)
      returns (event: Option<RegistryEvent>, told: map<Id, JobCommand>, reply: Reply)
      modifies this
      ensures var a := Handle(old(children), jobs, c, old(nextId));
              && event == a.event && told == a.told && reply == a.reply && children == a.children
              && spawned == old(spawned) + (if a.spawned.Some? then [a.spawned.value] else [])
              && nextId == old(nextId) + (if a.spawned.Some? then 1 else 0)
    {
      event, told, reply := None, map[], NoReply;
      match c {
        case Submit(spec, at) =>
          var id := nextId;
          nextId := nextId + 1;
          SpawnJob(id);
          told := map[id := StartJob];
          return Some(JobSubmitted(id, spec, at)), told, Submitted(id);
        case List =>
          reply := Listed(jobs);
        case Stop(id) =>
          if id in children {
            told := map[id := StopJob];
          }
        case Resume(id, message) =>
          if id in children {
            told := map[id := ResumeJob(message)];
          }
        case Remove(id) =>
          if id !in jobs {
            return None, map[], RemoveReply(Err(NoSuchJob(id)));
          }
          if !Terminal(jobs[id].status) {
            return None, map[], RemoveReply(Err(StillActive(id, jobs[id].status)));
          }
          children := children - {id};
          return Some(JobRemoved(id)), map[], RemoveReply(Ok(()));
        case Subscribe(id) =>
          if id in children {
            told := map[id := SubscribeJob];
          }
          reply := SubscribeReply(id in children);
        case ShutdownAll =>
          told := ShutdownChildren();
          reply := Down;
        case JobStatusChanged(id, status) =>
          event := Some(StatusChanged(id, status));
      }
    }

    /** Tells every child to release its resources, then forgets them. */
    method ShutdownChildren() returns (told: map<Id, JobCommand>)
      modifies this`children
      ensures told == map id | id in old(children) :: ShutdownJob
      ensures children == {}
    {
      told := map[];
      var todo := children;
      while todo != {}
        invariant todo <= children == old(children)
        invariant told == map id | id in children - todo :: ShutdownJob
        decreases |todo|
      {
        var id :| id in todo;
        told := told[id := ShutdownJob];
        todo := todo - {id};
      }
      assert children - todo == children;
      children := {};
    }

    /** Spawns a job for every row that is not terminal. */
    method RecoveryComplete(jobs: Registry)
      requires children == {}
      modifies this
      ensures children == Respawned(jobs) && nextId == old(nextId)
      ensures old(spawned) <= spawned
      ensures forall id :: id in Respawned(jobs) <==> id in spawned[|old(spawned)|..]
    {
      var todo := Respawned(jobs);
      while todo != {}
        invariant todo <= Respawned(jobs) && children == Respawned(jobs) - todo
        invariant old(spawned) <= spawned && nextId == old(nextId)
        invariant forall id :: id in children <==> id in spawned[|old(spawned)|..]
        decreases |todo|
      {
        var id :| id in todo;
        ghost var before := spawned[|old(spawned)|..];
        SpawnJob(id);
        assert spawned[|old(spawned)|..] == before + [id];
        todo := todo - {id};
      }
    }
  }

  class JobActor {
    /** Whether a workflow, with the means to tear it down, is held. */
    var workflow: bool
    /** Reports sent to the supervisor, kickoffs and commands sent to workflows, teardowns, in order. */
    var reports: seq<JobStatus>
    var launches: seq<Kickoff>
    var forwarded: seq<W.Command>
    var teardowns: nat

    constructor ()
      ensures !workflow && reports == [] && launches == [] && forwarded == [] && teardowns == 0
    {
      workflow := false;
      reports := [];
      launches := [];
      forwarded := [];
      teardowns := 0;
    }

    twostate predicate Did(a: JobAnswer)
      reads this
    {
      && workflow == a.live
      && reports == old(reports) + (if a.report.Some? then [a.report.value] else [])
      && launches == old(launches) + (if a.launched.Some? then [a.launched.value] else [])
      && forwarded == old(forwarded) + (if a.forwarded.Some? then [a.forwarded.value] else [])
      && teardowns == old(teardowns) + (if a.tornDown then 1 else 0)
    }

    method Report(status: JobStatus)
      modifies this`reports
      ensures reports == old(reports) + [status]
    {
      reports := reports + [status];
    }

    method LaunchWorkflow(kickoff: Kickoff, outcome: Result<(), string>)
      modifies this`launches, this`workflow
      ensures launches == old(launches) + [kickoff] && workflow == (old(workflow) || outcome.Ok?)
    {
      launches := launches + [kickoff];
      if outcome.Ok? {
        workflow := true;
      }
    }

    method Teardown()
      modifies this`workflow, this`teardowns
      ensures !workflow && teardowns == old(teardowns) + (if old(workflow) then 1 else 0)
    {
      if workflow {
        teardowns := teardowns + 1;
      }
      workflow := false;
    }

    method OnWorkflowEvent(n: W.Notice) returns (effect: Effect<JobEvent>)
      modifies this
      ensures var a := OnNotice(old(workflow), n); effect == a.effect && Did(a)
    {
      match n {
        case NoticeFinished(output) =>
          Teardown();
          Report(Finished);
          return PersistAndStop([JobConcluded(output)]);
        case NoticeFailed(failure) =>
          Teardown();
          Report(Failed);
          return PersistAndStop([JobFailed(WorkflowError(failure))]);
        case NoticeSuspended =>
          Report(Suspended);
          return Persist([JobSuspended]);
        case NoticeAwaiting(_) =>
          Report(AwaitingUserInput);
          return Persist([JobAwaitingInput]);
      }
    }

    method HandleCommand(c: JobCommand, outcome: Result<(), string>) returns (effect: Effect<JobEvent>)
      modifies this
      ensures var a := HandleJob(old(workflow), c, outcome); effect == a.effect && Did(a)
    {
      match c {
        case StartJob =>
          LaunchWorkflow(KickStart, outcome);
          if outcome.Ok? {
            return Persist([JobStarted]);
          }
          Report(Failed);
          return PersistAndStop([JobFailed(LaunchFailed(outcome.error))]);
        case ResumeJob(message) =>
          if workflow {
            forwarded := forwarded + [W.Resume(message)];
            return NoEffect;
          }
          LaunchWorkflow(KickResume(message), outcome);
          if outcome.Ok? {
            return NoEffect;
          }
          Report(Failed);
          return PersistAndStop([JobFailed(LaunchFailed(outcome.error))]);
        case StopJob =>
          if workflow {
            forwarded := forwarded + [W.Cancel];
          }
          return NoEffect;
        case SubscribeJob =>
          return NoEffect;
        case ShutdownJob =>
          Teardown();
          return Effect.Stop;
        case WorkflowEvent(n) =>
          effect := OnWorkflowEvent(n);
      }
    }

    method RecoveryComplete(status: Option<JobStatus>, outcome: Result<(), string>)
      requires !workflow
      modifies this
      ensures workflow == JobRecovered(status, outcome)
      ensures launches == old(launches) + (if status == Some(Running) then [KickRecover] else [])
      ensures reports == old(reports) && forwarded == old(forwarded) && teardowns == old(teardowns)
    {
      if status == Some(Running) {
        LaunchWorkflow(KickRecover, outcome);
      }
    }
  }
}
