/**
  The supervisor and its jobs run concurrently, each taking its own messages in order; the
  whole process may die at any moment and start again from the journals.
 */
module SupervisionRuns {
  import opened Common
  import opened Supervision
  import W = Workflow

  /** A job that has reported still has to persist; if it then stops, it is on its way out. */
  datatype Phase = Recovering | Ready | Persisting(events: seq<JobEvent>, stop: bool)

  datatype Job = Job(phase: Phase, mailbox: seq<JobCommand>, live: bool)

  /**
    `log` and `records` are the journals of the supervisor and of the jobs, as what they
    fold to in the latter case; the rest dies with the process. `writing` is the event the
    supervisor is about to persist.
   */
  datatype Sys = Sys(
    log: seq<RegistryEvent>,
    records: map<Id, JobStatus>,
    up: bool,
    children: set<Id>,
    mailbox: seq<SupervisorCommand>,
    writing: Option<RegistryEvent>,
    jobs: map<Id, Job>,
    nextId: Id)

  const BORN := Sys([], map[], false, {}, [], None, map[], 0)

  datatype Step =
    | StartProcess
    | Die
    | Request(command: SupervisorCommand)
    | SupervisorTakes
    | SupervisorPersists(ok: bool)
    | JobRecovers(id: Id, outcome: Result<(), string>)
    | JobTakes(id: Id, outcome: Result<(), string>)
    | JobPersists(id: Id, ok: bool)
    | WorkflowSays(id: Id, notice: W.Notice)

  function StatusOf(records: map<Id, JobStatus>, id: Id): Option<JobStatus> {
    if id in records then Some(records[id]) else None
  }

  predicate Enabled(sys: Sys, step: Step) {
    match step
    case StartProcess => !sys.up
    case Die => sys.up
    case Request(c) => sys.up && !c.JobStatusChanged?
    case SupervisorTakes => sys.up && sys.writing.None? && sys.mailbox != []
    case SupervisorPersists(_) => sys.up && sys.writing.Some?
    case JobRecovers(id, _) => id in sys.jobs && sys.jobs[id].phase.Recovering?
    case JobTakes(id, _) => id in sys.jobs && sys.jobs[id].phase.Ready? && sys.jobs[id].mailbox != []
    case JobPersists(id, _) => id in sys.jobs && sys.jobs[id].phase.Persisting?
    case WorkflowSays(id, _) => id in sys.jobs
  }

  function Deliver(jobs: map<Id, Job>, told: map<Id, JobCommand>): map<Id, Job> {
    map id | id in jobs ::
      if id in told then jobs[id].(mailbox := jobs[id].mailbox + [told[id]]) else jobs[id]
  }

  function Takes(sys: Sys): Sys
    requires Enabled(sys, SupervisorTakes)
  {
    var a := Handle(sys.children, Fold(sys.log), sys.mailbox[0], sys.nextId);
    var jobs := if a.spawned.Some? then sys.jobs[a.spawned.value := Job(Recovering, [], false)] else sys.jobs;
    sys.(mailbox := sys.mailbox[1..], writing := a.event, children := a.children, jobs := Deliver(jobs, a.told),
         nextId := if a.spawned.Some? then sys.nextId + 1 else sys.nextId)
  }

  function JobMoves(sys: Sys, id: Id, outcome: Result<(), string>): Sys
    requires Enabled(sys, JobTakes(id, outcome))
  {
    var job := sys.jobs[id];
    var a := HandleJob(job.live, job.mailbox[0], outcome);
    var rest := Job(Ready, job.mailbox[1..], a.live);
    sys.(mailbox := if a.report.Some? then sys.mailbox + [JobStatusChanged(id, a.report.value)] else sys.mailbox,
         jobs := match a.effect
                 case NoEffect => sys.jobs[id := rest]
                 case Snapshot => sys.jobs[id := rest]
                 case Persist(es) => sys.jobs[id := rest.(phase := Persisting(es, false))]
                 case PersistAndSnapshot(es) => sys.jobs[id := rest.(phase := Persisting(es, false))]
                 case PersistAndStop(es) => sys.jobs[id := rest.(phase := Persisting(es, true))]
                 case Stop => sys.jobs - {id})
  }

  function Apply(sys: Sys, step: Step): Sys
    requires Enabled(sys, step)
  {
    match step
    case StartProcess =>
      sys.(up := true, children := Respawned(Fold(sys.log)),
           jobs := map id | id in Respawned(Fold(sys.log)) :: Job(Recovering, [], false))
    case Die => sys.(up := false, children := {}, mailbox := [], writing := None, jobs := map[])
    case Request(c) => sys.(mailbox := sys.mailbox + [c])
    case SupervisorTakes => Takes(sys)
    case SupervisorPersists(ok) =>
      sys.(log := if ok then sys.log + [sys.writing.value] else sys.log, writing := None)
    case JobRecovers(id, outcome) =>
      var live := JobRecovered(StatusOf(sys.records, id), outcome);
      sys.(jobs := sys.jobs[id := sys.jobs[id].(phase := Ready, live := live)])
    case JobTakes(id, outcome) => JobMoves(sys, id, outcome)
    case JobPersists(id, ok) =>
      var phase := sys.jobs[id].phase;
      sys.(records := if ok && phase.events != []
                      then sys.records[id := StatusAfter(phase.events[|phase.events| - 1])] else sys.records,
           jobs := if phase.stop then sys.jobs - {id} else sys.jobs[id := sys.jobs[id].(phase := Ready)])
    case WorkflowSays(id, n) =>
      sys.(jobs := sys.jobs[id := sys.jobs[id].(mailbox := sys.jobs[id].mailbox + [WorkflowEvent(n)])])
  }

  /** Steps that cannot be taken are skipped. */
  function Next(sys: Sys, step: Step): Sys {
    if Enabled(sys, step) then Apply(sys, step) else sys
  }

  function Exec(steps: seq<Step>): Sys {
    if steps == [] then BORN else Next(Exec(steps[..|steps| - 1]), steps[|steps| - 1])
  }

  // ---- What happens when nothing disturbs it -----------------------------------------------------

  /** The status that a notice of the workflow comes to. */
  function Meaning(n: W.Notice): JobStatus {
    match n
    case NoticeAwaiting(_) => AwaitingUserInput
    case NoticeSuspended => Suspended
    case NoticeFinished(_) => Finished
    case NoticeFailed(_) => Failed
  }

  lemma JobHears(sys: Sys, id: Id, n: W.Notice, outcome: Result<(), string>)
    requires sys.up && id in sys.jobs && sys.jobs[id].phase.Ready? && sys.jobs[id].mailbox != []
    requires sys.jobs[id].mailbox[0] == WorkflowEvent(n)
    ensures var sys' := Next(sys, JobTakes(id, outcome));
            && sys'.mailbox == sys.mailbox + [JobStatusChanged(id, Meaning(n))]
            && id in sys'.jobs && sys'.jobs[id].phase.Persisting? && |sys'.jobs[id].phase.events| == 1
            && StatusAfter(sys'.jobs[id].phase.events[0]) == Meaning(n)
            && (sys'.jobs[id].phase.stop <==> Terminal(Meaning(n)))
            && sys' == sys.(mailbox := sys'.mailbox, jobs := sys'.jobs)
  {
  }

  lemma JobKeeps(sys: Sys, id: Id, n: W.Notice)
    requires sys.up && id in sys.jobs && sys.jobs[id].phase.Persisting? && |sys.jobs[id].phase.events| == 1
    requires StatusAfter(sys.jobs[id].phase.events[0]) == Meaning(n)
    ensures var sys' := Next(sys, JobPersists(id, true));
            && StatusOf(sys'.records, id) == Some(Meaning(n))
            && (id in sys'.jobs <==> !sys.jobs[id].phase.stop)
            && sys' == sys.(records := sys'.records, jobs := sys'.jobs)
  {
  }

  lemma SupervisorHears(sys: Sys, id: Id, status: JobStatus)
    requires sys.up && sys.writing.None? && sys.mailbox == [JobStatusChanged(id, status)]
    ensures var sys' := Next(Next(sys, SupervisorTakes), SupervisorPersists(true));
            && sys'.log == sys.log + [StatusChanged(id, status)]
            && sys'.records == sys.records && sys'.jobs.Keys == sys.jobs.Keys
  {
    var taken := Next(sys, SupervisorTakes);
    assert taken.writing == Some(StatusChanged(id, status));
  }

  /**
    Undisturbed, what a workflow tells its job becomes the job's record and the status of its
    row, and the job is gone exactly if that is terminal.
   */
  lemma NoticesReachTheRow(sys: Sys, id: Id, n: W.Notice, outcome: Result<(), string>)
    requires sys.up && sys.writing.None? && sys.mailbox == [] && id in Fold(sys.log)
    requires id in sys.jobs && sys.jobs[id].phase.Ready? && sys.jobs[id].mailbox == [WorkflowEvent(n)]
    ensures var heard := Next(Next(sys, JobTakes(id, outcome)), JobPersists(id, true));
            var sys' := Next(Next(heard, SupervisorTakes), SupervisorPersists(true));
            && StatusOf(sys'.records, id) == Some(Meaning(n))
            && id in Fold(sys'.log) && Fold(sys'.log)[id] == Fold(sys.log)[id].(status := Meaning(n))
            && (id in sys'.jobs <==> !Terminal(Meaning(n)))
  {
    hide Next, Fold, StatusAfter;
    var taken := Next(sys, JobTakes(id, outcome));
    JobHears(sys, id, n, outcome);
    var heard := Next(taken, JobPersists(id, true));
    JobKeeps(taken, id, n);
    assert heard.mailbox == [JobStatusChanged(id, Meaning(n))];
    SupervisorHears(heard, id, Meaning(n));
    FoldOne(heard.log, StatusChanged(id, Meaning(n)));
  }

  /**
    A process that starts again has exactly the jobs whose rows are not terminal, and each of
    them, once recovered, holds its workflow exactly if it was running and could be launched.
   */
  lemma RestartRelaunches(sys: Sys, id: Id, outcome: Result<(), string>)
    requires !sys.up
    ensures var sys' := Next(sys, StartProcess);
            && sys'.up && sys'.log == sys.log && sys'.records == sys.records && sys'.children == sys'.jobs.Keys
            && (id in sys'.jobs <==> id in Fold(sys.log) && !Terminal(Fold(sys.log)[id].status))
            && (id in sys'.jobs ==>
                  var job := Next(sys', JobRecovers(id, outcome)).jobs[id];
                  && job.phase == Ready && job.mailbox == []
                  && (job.live <==> StatusOf(sys.records, id) == Some(Running) && outcome.Ok?))
  {
    hide Fold;
  }

  lemma SubmissionTaken(sys: Sys, spec: string, at: nat)
    requires sys.up && sys.writing.None? && sys.mailbox == []
    ensures var id := sys.nextId;
            var asked := Next(Next(sys, Request(Submit(spec, at))), SupervisorTakes);
            var sys' := Next(asked, SupervisorPersists(true));
            && sys'.log == sys.log + [JobSubmitted(id, spec, at)] && id in sys'.children
            && id in sys'.jobs && sys'.jobs[id] == Job(Recovering, [StartJob], false)
            && sys'.records == sys.records
  {
    hide Fold;
    var told := Next(sys, Request(Submit(spec, at)));
    assert told.mailbox == [Submit(spec, at)] && told.mailbox[1..] == [];
    var asked := Next(told, SupervisorTakes);
    assert asked.jobs[sys.nextId] == Job(Recovering, [StartJob], false);
  }

  lemma JobStartsUp(sys: Sys, id: Id)
    requires id in sys.jobs && sys.jobs[id] == Job(Recovering, [StartJob], false) && id !in sys.records
    ensures var sys' := Next(Next(Next(sys, JobRecovers(id, Ok(()))), JobTakes(id, Ok(()))), JobPersists(id, true));
            && sys'.log == sys.log && sys'.children == sys.children
            && id in sys'.jobs && sys'.jobs[id].live && StatusOf(sys'.records, id) == Some(Running)
  {
    hide Fold;
    var ready := Next(sys, JobRecovers(id, Ok(())));
    assert ready.jobs[id] == Job(Ready, [StartJob], false);
    var begun := Next(ready, JobTakes(id, Ok(())));
    assert begun.jobs[id].phase == Persisting([JobStarted], false) && begun.jobs[id].live;
  }

  /** Undisturbed, a submission gets a row, and a job that holds its workflow and has recorded its start. */
  lemma SubmissionsReachTheJob(sys: Sys, spec: string, at: nat)
    requires sys.up && sys.writing.None? && sys.mailbox == [] && sys.nextId !in sys.records
    ensures var id := sys.nextId;
            var asked := Next(Next(sys, Request(Submit(spec, at))), SupervisorTakes);
            var ready := Next(Next(asked, SupervisorPersists(true)), JobRecovers(id, Ok(())));
            var sys' := Next(Next(ready, JobTakes(id, Ok(()))), JobPersists(id, true));
            && id in Fold(sys'.log) && Fold(sys'.log)[id] == Record(spec, Running, at)
            && id in sys'.children && id in sys'.jobs && sys'.jobs[id].live
            && StatusOf(sys'.records, id) == Some(Running)
  {
    hide Fold, Next, StatusOf;
    var written := Next(Next(Next(sys, Request(Submit(spec, at))), SupervisorTakes), SupervisorPersists(true));
    SubmissionTaken(sys, spec, at);
    JobStartsUp(written, sys.nextId);
    FoldOne(sys.log, JobSubmitted(sys.nextId, spec, at));
  }

  // ---- Words on their way to the registry ------------------------------------------------------

  datatype Word = Word(id: Id, status: JobStatus)

  function WordOf(c: SupervisorCommand): seq<Word> {
    if c.JobStatusChanged? then [Word(c.id, c.status)] else []
  }

  function InMailbox(mailbox: seq<SupervisorCommand>): seq<Word> {
    if mailbox == [] then [] else WordOf(mailbox[0]) + InMailbox(mailbox[1..])
  }

  function Spoken(writing: Option<RegistryEvent>): seq<Word> {
    if writing.Some? && writing.value.StatusChanged? then [Word(writing.value.id, writing.value.status)] else []
  }

  /** The status changes reported but not yet tried, in the order they will be. */
  function Words(sys: Sys): seq<Word> {
    Spoken(sys.writing) + InMailbox(sys.mailbox)
  }

  lemma {:induction false} MailboxGrows(mailbox: seq<SupervisorCommand>, c: SupervisorCommand)
    ensures InMailbox(mailbox + [c]) == InMailbox(mailbox) + WordOf(c)
  {
    hide WordOf;
    if mailbox == [] {
      assert mailbox + [c] == [c] && [c][1..] == [];
    } else {
      assert (mailbox + [c])[0] == mailbox[0] && (mailbox + [c])[1..] == mailbox[1..] + [c];
      MailboxGrows(mailbox[1..], c);
      Assoc(WordOf(mailbox[0]), InMailbox(mailbox[1..]), WordOf(c));
    }
  }

  // ---- The invariant --------------------------------------------------------------------------------

  /** The job will never speak again. */
  predicate Silent(sys: Sys, id: Id) {
    id in sys.jobs ==> sys.jobs[id].phase.Persisting? && sys.jobs[id].phase.stop
  }

  /** A terminal word is the last word of its job. */
  ghost predicate LastWords(sys: Sys) {
    var words := Words(sys);
    && (forall i, j :: 0 <= i < j < |words| && words[i].id == words[j].id ==> !Terminal(words[i].status))
    && (forall i :: 0 <= i < |words| && Terminal(words[i].status) ==> Silent(sys, words[i].id))
  }

  /** Nothing is left to be said of a job whose row is terminal. */
  ghost predicate TerminalRowsRest(sys: Sys) {
    forall id :: id in Fold(sys.log) && Terminal(Fold(sys.log)[id].status) ==>
      Silent(sys, id) && forall i :: 0 <= i < |Words(sys)| ==> Words(sys)[i].id != id
  }

  predicate EverSubmitted(log: seq<RegistryEvent>, id: Id) {
    exists i :: 0 <= i < |log| && log[i].JobSubmitted? && log[i].id == id
  }

  ghost predicate IdsKnown(sys: Sys) {
    && (forall id :: id in Fold(sys.log) ==> EverSubmitted(sys.log, id))
    && (forall id: Id :: EverSubmitted(sys.log, id) ==> id < sys.nextId)
    && (forall id :: id in sys.jobs ==> id < sys.nextId)
    && (forall i :: 0 <= i < |Words(sys)| ==> Words(sys)[i].id < sys.nextId)
  }

  ghost predicate WritingFits(sys: Sys) {
    sys.writing.Some? ==>
      match sys.writing.value
      case JobSubmitted(id, _, _) => id < sys.nextId && !EverSubmitted(sys.log, id)
      case StatusChanged(_, _) => true
      case JobRemoved(id) => id in Fold(sys.log) && Terminal(Fold(sys.log)[id].status)
  }

  ghost predicate Sound(sys: Sys) {
    && LastWords(sys) && TerminalRowsRest(sys) && IdsKnown(sys) && WritingFits(sys)
    && (!sys.up ==> sys.mailbox == [] && sys.writing.None? && sys.jobs == map[])
  }

  lemma FoldOne(log: seq<RegistryEvent>, e: RegistryEvent)
    ensures Fold(log + [e]) == ApplyEvent(Fold(log), e)
  {
    assert (log + [e])[..|log|] == log;
  }

  lemma SubmittedGrows(log: seq<RegistryEvent>, e: RegistryEvent, id: Id)
    ensures EverSubmitted(log + [e], id) <==> EverSubmitted(log, id) || (e.JobSubmitted? && e.id == id)
  {
    if EverSubmitted(log, id) {
      var i :| 0 <= i < |log| && log[i].JobSubmitted? && log[i].id == id;
      assert (log + [e])[i] == log[i];
    }
    if e.JobSubmitted? && e.id == id {
      assert (log + [e])[|log|] == e;
    }
  }

  /** Changes that leave words, rows and silence alone. */
  lemma Unmoved(sys: Sys, sys': Sys)
    requires Sound(sys) && sys'.log == sys.log && Words(sys') == Words(sys) && sys'.nextId == sys.nextId
    requires sys'.writing == sys.writing && sys'.up && sys.up
    requires sys'.jobs.Keys <= sys.jobs.Keys
    requires forall id :: Silent(sys, id) ==> Silent(sys', id)
    ensures Sound(sys')
  {
    hide Words, Fold, EverSubmitted, Silent;
  }

  lemma RequestSound(sys: Sys, c: SupervisorCommand)
    requires Sound(sys) && Enabled(sys, Request(c))
    ensures Sound(Apply(sys, Request(c)))
  {
    hide Sound;
    MailboxGrows(sys.mailbox, c);
    var sys' := Apply(sys, Request(c));
    assert InMailbox(sys.mailbox) + [] == InMailbox(sys.mailbox);
    Unmoved(sys, sys');
  }

  lemma JobPhaseSound(sys: Sys, step: Step)
    requires Sound(sys) && Enabled(sys, step) && sys.up
    requires step.JobRecovers? || step.JobPersists? || step.WorkflowSays?
    ensures Sound(Apply(sys, step))
  {
    hide Sound, Words, JobRecovered;
    var sys' := Apply(sys, step);
    assert sys'.writing == sys.writing && sys'.mailbox == sys.mailbox;
    SameWords(sys, sys');
    Unmoved(sys, sys');
  }

  lemma SameWords(sys: Sys, sys': Sys)
    requires sys'.writing == sys.writing && sys'.mailbox == sys.mailbox
    ensures Words(sys') == Words(sys)
  {
  }

  /** A job that may still speak adds a word; a terminal one silences it. */
  lemma SpeaksSound(sys: Sys, sys': Sys, w: Word)
    requires Sound(sys) && sys.up && sys'.up && sys'.log == sys.log && sys'.nextId == sys.nextId
    requires sys'.writing == sys.writing && Words(sys') == Words(sys) + [w]
    requires w.id in sys.jobs && sys.jobs[w.id].phase.Ready?
    requires sys'.jobs.Keys <= sys.jobs.Keys
    requires forall id :: Silent(sys, id) ==> Silent(sys', id)
    requires Terminal(w.status) ==> Silent(sys', w.id)
    ensures Sound(sys')
  {
    hide Fold, EverSubmitted, InMailbox, Spoken;
    var words := Words(sys);
    assert !Silent(sys, w.id);
    hide Words;
    forall i, j | 0 <= i < j < |Words(sys')| && Words(sys')[i].id == Words(sys')[j].id
      ensures !Terminal(Words(sys')[i].status)
    {
      assert Words(sys')[i] == words[i];
    }
    forall i | 0 <= i < |Words(sys')| && Terminal(Words(sys')[i].status) ensures Silent(sys', Words(sys')[i].id) {
      if i < |words| {
        assert Words(sys')[i] == words[i];
      }
    }
    forall id | id in Fold(sys.log) && Terminal(Fold(sys.log)[id].status)
      ensures Silent(sys', id) && forall i :: 0 <= i < |Words(sys')| ==> Words(sys')[i].id != id
    {
      assert Silent(sys, id);
    }
  }

  lemma JobTakesSound(sys: Sys, id: Id, outcome: Result<(), string>)
    requires Sound(sys) && Enabled(sys, JobTakes(id, outcome)) && sys.up
    ensures Sound(Apply(sys, JobTakes(id, outcome)))
  {
    hide Sound, InMailbox, HandleJob;
    var sys' := Apply(sys, JobTakes(id, outcome));
    var a := HandleJob(sys.jobs[id].live, sys.jobs[id].mailbox[0], outcome);
    ReportsFit(sys.jobs[id].live, sys.jobs[id].mailbox[0], outcome);
    if a.report.Some? {
      var c := JobStatusChanged(id, a.report.value);
      MailboxGrows(sys.mailbox, c);
      Assoc(Spoken(sys.writing), InMailbox(sys.mailbox), [Word(id, a.report.value)]);
      SpeaksSound(sys, sys', Word(id, a.report.value));
    } else {
      Unmoved(sys, sys');
    }
  }

  /** A job that reports a terminal status stops. */
  lemma ReportsFit(live: bool, c: JobCommand, outcome: Result<(), string>)
    ensures var a := HandleJob(live, c, outcome);
            a.report.Some? && Terminal(a.report.value) ==> a.effect.PersistAndStop?
  {
  }

  // ---- The supervisor's own steps --------------------------------------------------------------------

  lemma RowsKnown(sys: Sys, id: Id)
    requires Sound(sys) && id >= sys.nextId
    ensures id !in Fold(sys.log) && !EverSubmitted(sys.log, id) && id !in sys.jobs
  {
  }

  /** Taking a message moves its word, if it is one, from the mailbox to the pen. */
  lemma TakingKeepsWords(sys: Sys)
    requires Enabled(sys, SupervisorTakes)
    ensures Words(Takes(sys)) == Words(sys)
  {
    hide Fold, Respawned;
    assert [] + InMailbox(sys.mailbox) == InMailbox(sys.mailbox);
  }

  lemma TakingKeepsSilence(sys: Sys, id: Id)
    requires Sound(sys) && Enabled(sys, SupervisorTakes) && Silent(sys, id) && id < sys.nextId
    ensures Silent(Takes(sys), id)
  {
    hide Sound, Fold;
  }

  lemma TakesSound(sys: Sys)
    requires Sound(sys) && Enabled(sys, SupervisorTakes)
    ensures Sound(Takes(sys))
  {
    hide Fold, InMailbox, Words, EverSubmitted, Silent;
    var sys' := Takes(sys);
    var words := Words(sys);
    TakingKeepsWords(sys);
    RowsKnown(sys, sys.nextId);
    forall i | 0 <= i < |words| && Terminal(words[i].status) ensures Silent(sys', words[i].id) {
      TakingKeepsSilence(sys, words[i].id);
    }
    forall id | id in Fold(sys.log) && Terminal(Fold(sys.log)[id].status) ensures Silent(sys', id) {
      TakingKeepsSilence(sys, id);
    }
  }

  lemma WordsAfterWriting(sys: Sys, sys': Sys)
    requires sys'.mailbox == sys.mailbox && sys'.writing.None?
    ensures Words(sys') == Words(sys)[|Spoken(sys.writing)|..]
  {
    hide InMailbox;
  }

  /** Dropping words from the front keeps the last ones last. */
  lemma FewerWords(sys: Sys, sys': Sys, d: nat)
    requires LastWords(sys) && d <= |Words(sys)| && Words(sys') == Words(sys)[d..] && sys'.jobs == sys.jobs
    ensures LastWords(sys')
  {
    hide Words;
    forall i | 0 <= i < |Words(sys')| ensures Words(sys')[i] == Words(sys)[d + i] {
    }
  }

  lemma PersistedSubmission(sys: Sys, sys': Sys, e: RegistryEvent)
    requires Sound(sys) && sys.writing == Some(e) && !e.StatusChanged?
    requires Fold(sys'.log) == ApplyEvent(Fold(sys.log), e) && sys'.jobs == sys.jobs && Words(sys') == Words(sys)
    ensures TerminalRowsRest(sys')
  {
    hide Words, EverSubmitted, Fold;
  }

  lemma PersistedWord(sys: Sys, sys': Sys, id: Id, status: JobStatus)
    requires Sound(sys) && sys.writing == Some(StatusChanged(id, status))
    requires Fold(sys'.log) == ApplyEvent(Fold(sys.log), StatusChanged(id, status)) && sys'.jobs == sys.jobs
    requires Words(sys) == [Word(id, status)] + Words(sys')
    ensures TerminalRowsRest(sys')
  {
    hide Words, EverSubmitted, Fold;
    var words, later := Words(sys), Words(sys');
    assert words[0] == Word(id, status);
    assert forall i :: 0 <= i < |later| ==> words[i + 1] == later[i];
    assert Terminal(status) ==> Silent(sys, id);
    assert Terminal(status) ==> forall i :: 0 <= i < |later| ==> later[i].id != id;
  }

  lemma UnpersistedRows(sys: Sys, sys': Sys, d: nat)
    requires Sound(sys) && d <= |Words(sys)| && Words(sys') == Words(sys)[d..]
    requires Fold(sys'.log) == Fold(sys.log) && sys'.jobs == sys.jobs
    ensures TerminalRowsRest(sys')
  {
    hide Words, EverSubmitted, Fold;
    assert forall i :: 0 <= i < |Words(sys')| ==> Words(sys')[i] == Words(sys)[d + i];
  }

  lemma PersistedIds(sys: Sys, sys': Sys)
    requires Sound(sys) && sys.writing.Some? && sys'.log == sys.log + [sys.writing.value]
    requires sys'.jobs == sys.jobs && sys'.nextId == sys.nextId
    requires Words(sys') == Words(sys)[|Spoken(sys.writing)|..]
    ensures IdsKnown(sys')
  {
    hide InMailbox, EverSubmitted, Fold;
    var e := sys.writing.value;
    FoldOne(sys.log, e);
    forall id: Id
      ensures EverSubmitted(sys'.log, id) <==> EverSubmitted(sys.log, id) || (e.JobSubmitted? && e.id == id)
    {
      SubmittedGrows(sys.log, e, id);
    }
    assert forall i :: 0 <= i < |Words(sys')| ==> Words(sys')[i] == Words(sys)[|Spoken(sys.writing)| + i];
  }

  lemma PersistsSound(sys: Sys, ok: bool)
    requires Sound(sys) && Enabled(sys, SupervisorPersists(ok))
    ensures Sound(Apply(sys, SupervisorPersists(ok)))
  {
    hide EverSubmitted, InMailbox, Fold;
    var sys' := Apply(sys, SupervisorPersists(ok));
    var e, d := sys.writing.value, |Spoken(sys.writing)|;
    WordsAfterWriting(sys, sys');
    FewerWords(sys, sys', d);
    if ok {
      FoldOne(sys.log, e);
      PersistedIds(sys, sys');
      if e.StatusChanged? {
        PersistedWord(sys, sys', e.id, e.status);
      } else {
        PersistedSubmission(sys, sys', e);
      }
    } else {
      UnpersistedRows(sys, sys', d);
    }
  }

  lemma ProcessSound(sys: Sys, step: Step)
    requires Sound(sys) && Enabled(sys, step) && (step.StartProcess? || step.Die?)
    ensures Sound(Apply(sys, step))
  {
    hide EverSubmitted, Fold;
    assert Words(Apply(sys, step)) == [];
  }

  /** The invariant of every reachable system. */
  lemma {:induction false} ReachableSound(steps: seq<Step>)
    ensures Sound(Exec(steps))
  {
    hide Sound, Apply;
    if steps == [] {
      BornSound();
    } else {
      ReachableSound(steps[..|steps| - 1]);
      StepSound(Exec(steps[..|steps| - 1]), steps[|steps| - 1]);
    }
  }

  lemma BornSound()
    ensures Sound(BORN)
  {
  }

  lemma StepSound(sys: Sys, step: Step)
    requires Sound(sys)
    ensures Sound(Next(sys, step))
  {
    hide Sound, Apply;
    if Enabled(sys, step) {
      AliveIsUp(sys);
      match step
      case StartProcess => ProcessSound(sys, step);
      case Die => ProcessSound(sys, step);
      case Request(c) => RequestSound(sys, c);
      case SupervisorTakes => TakesSoundStep(sys);
      case SupervisorPersists(ok) => PersistsSound(sys, ok);
      case JobTakes(id, outcome) => JobTakesSound(sys, id, outcome);
      case _ => JobPhaseSound(sys, step);
    }
  }

  lemma AliveIsUp(sys: Sys)
    requires Sound(sys)
    ensures sys.jobs != map[] ==> sys.up
  {
  }

  lemma TakesSoundStep(sys: Sys)
    requires Sound(sys) && Enabled(sys, SupervisorTakes)
    ensures Sound(Apply(sys, SupervisorTakes))
  {
    hide Sound, Takes;
    TakesSound(sys);
  }

  // ---- Supervision safety ----------------------------------------------------------------------------

  /** The registry as the journal has it. */
  function Rows(sys: Sys): Registry {
    Fold(sys.log)
  }

  predicate TerminalRow(sys: Sys, id: Id) {
    id in Rows(sys) && Terminal(Rows(sys)[id].status)
  }

  /** What one step can do to one row. */
  lemma StepRow(sys: Sys, step: Step, id: Id)
    requires Sound(sys)
    ensures var sys' := Next(sys, step);
            && (EverSubmitted(sys.log, id) ==> EverSubmitted(sys'.log, id))
            && (id in Rows(sys') && id !in Rows(sys) ==> !EverSubmitted(sys.log, id))
            && (id in Rows(sys) && id !in Rows(sys') ==> TerminalRow(sys, id))
            && (TerminalRow(sys, id) && id in Rows(sys') ==> Rows(sys')[id] == Rows(sys)[id])
  {
    hide EverSubmitted, Fold, InMailbox;
    var sys' := Next(sys, step);
    if step.SupervisorPersists? && step.ok && Enabled(sys, step) {
      var e := sys.writing.value;
      FoldOne(sys.log, e);
      SubmittedGrows(sys.log, e, id);
      if e.StatusChanged? {
        assert Words(sys)[0] == Word(e.id, e.status);
      }
    } else {
      LogStays(sys, step);
    }
  }

  lemma LogStays(sys: Sys, step: Step)
    requires !(step.SupervisorPersists? && step.ok && Enabled(sys, step))
    ensures Next(sys, step).log == sys.log
  {
    hide Fold, Handle, HandleJob, Respawned, Deliver;
  }

  lemma RowIsSubmitted(sys: Sys, id: Id)
    requires Sound(sys)
    ensures id in Rows(sys) ==> EverSubmitted(sys.log, id)
  {
  }

  /**
    In every interleaving, with crashes anywhere: once a row is finished or failed it stays
    as it is until it is removed; a row that is gone never comes back; and only terminal rows
    go. Here `earlier` and `later` are any two moments of one history.
   */
  lemma {:induction false} SupervisionIsSafe(steps: seq<Step>, earlier: nat, later: nat, id: Id)
    requires earlier <= later <= |steps|
    ensures var a, b := Exec(steps[..earlier]), Exec(steps[..later]);
            && (EverSubmitted(a.log, id) ==> EverSubmitted(b.log, id))
            && (EverSubmitted(a.log, id) && id !in Rows(a) ==> id !in Rows(b))
            && (TerminalRow(a, id) && id in Rows(b) ==> Rows(b)[id] == Rows(a)[id])
    decreases later
  {
    hide EverSubmitted, Next, Sound, Fold;
    if earlier < later {
      SupervisionIsSafe(steps, earlier, later - 1, id);
      var before := steps[..later - 1];
      assert steps[..later][..later - 1] == before;
      ReachableSound(before);
      StepRow(Exec(before), steps[later - 1], id);
      ReachableSound(steps[..earlier]);
      RowIsSubmitted(Exec(steps[..earlier]), id);
    }
  }

  /** A row exists only for a submitted job, and one vanishes only from a terminal status. */
  lemma RowsComeAndGo(steps: seq<Step>, step: Step, id: Id)
    ensures var a, b := Exec(steps), Exec(steps + [step]);
            && (id in Rows(b) ==> EverSubmitted(b.log, id) && id < b.nextId)
            && (id in Rows(b) && id !in Rows(a) ==>
                  && a.writing.Some? && a.writing.value.JobSubmitted? && a.writing.value.id == id
                  && !EverSubmitted(a.log, id))
            && (id in Rows(a) && id !in Rows(b) ==> TerminalRow(a, id))
  {
    hide EverSubmitted, Fold, InMailbox;
    assert (steps + [step])[..|steps|] == steps;
    ReachableSound(steps);
    ReachableSound(steps + [step]);
    var sys := Exec(steps);
    StepRow(sys, step, id);
    if step.SupervisorPersists? && step.ok && Enabled(sys, step) {
      FoldOne(sys.log, sys.writing.value);
    } else {
      LogStays(sys, step);
    }
  }

  // ---- What a row says --------------------------------------------------------------------------------

  predicate About(e: RegistryEvent, id: Id) {
    e.id == id
  }

  /** The submission at `i` is the last event that created or removed the row. */
  predicate RowSince(log: seq<RegistryEvent>, id: Id, i: nat) {
    && i < |log| && log[i].JobSubmitted? && About(log[i], id)
    && forall k :: i < k < |log| && About(log[k], id) ==> log[k].StatusChanged?
  }

  /** The event at `j` is the last that concerns the job. */
  predicate LastAbout(log: seq<RegistryEvent>, id: Id, j: nat) {
    j < |log| && About(log[j], id) && forall k :: j < k < |log| ==> !About(log[k], id)
  }

  /**
    A row exists exactly when the last creation or removal of the job is a submission; it
    then has that submission's data and the status changed to last, or Running if none was.
   */
  lemma {:induction false} RowMeans(log: seq<RegistryEvent>, id: Id) returns (i: nat, j: nat)
    ensures id in Fold(log) ==>
              && RowSince(log, id, i) && i <= j && LastAbout(log, id, j)
              && Fold(log)[id] ==
                 Record(log[i].spec, if log[j].StatusChanged? then log[j].status else Running, log[i].submittedAt)
    ensures id !in Fold(log) ==> forall x: nat :: !RowSince(log, id, x)
  {
    i, j := 0, 0;
    if log != [] {
      var n := |log| - 1;
      i, j := RowMeans(log[..n], id);
      if About(log[n], id) {
        j := n;
        if log[n].JobSubmitted? {
          i := n;
        } else if id !in Fold(log[..n]) || log[n].JobRemoved? {
          forall x: nat ensures !RowSince(log, id, x) {
            if RowSince(log, id, x) {
              assert RowSince(log[..n], id, x);
            }
          }
        }
      } else {
        forall x: nat | RowSince(log, id, x) ensures RowSince(log[..n], id, x) {
        }
      }
    }
  }
}
