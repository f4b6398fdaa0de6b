/**
  One health check, interleaved with any number of commands that create, stop and restart
  runtimes: every critical section of the registry is one step, in any order.
 */
module HealthCheck {
  import opened Common
  import opened Registry

  /** Where the health check stands; but for `Idle` it is at work on the head of its queue. */
  datatype Phase =
    | Idle
    | Probing
    | Failing(id: string)
    | Counting(id: string)
    | Configuring(id: string, seen: nat)
    | Restarting(id: string, seen: nat)
    | Finishing(id: string)

  /** One stay of a runtime in the registry: which one it is, and how often the health check restarted it. */
  datatype Life = Life(birth: nat, restarts: nat)

  /** `lives` and `births` only record; nothing depends on them. */
  datatype Sys = Sys(
    entries: Entries,
    lives: map<string, Life>,
    births: nat,
    queue: seq<string>,
    phase: Phase)

  const BORN := Sys(map[], map[], 0, [], Idle)

  datatype Step =
    | Other(op: Op)
    | BeginCheck(queue: seq<string>)
    | Probe(healthy: bool)
    | FailIt
    | CountIt
    | ReadConfig
    | BeginIt
    | FinishIt(made: Option<Handle>)

  /** The lives after an operation: a creation begins one, a removal ends one. */
  function LivesAfter(sys: Sys, op: Op): map<string, Life> {
    match op
    case BeginCreate(id, _) => if id in sys.entries then sys.lives else sys.lives[id := Life(sys.births, 0)]
    case CompleteStop(id) => sys.lives - {id}
    case _ => sys.lives
  }

  function Do(sys: Sys, op: Op): Sys {
    sys.(entries := Perform(sys.entries, op).1, lives := LivesAfter(sys, op), births := sys.births + 1)
  }

  /** On to the next runtime of the queue. */
  function GoOn(sys: Sys): Sys {
    sys.(queue := if sys.queue == [] then [] else sys.queue[1..], phase := Probing)
  }

  function Next(maxRestarts: nat, sys: Sys, step: Step): Sys {
    match step
    case Other(op) => Do(sys, op)
    case BeginCheck(queue) =>
      if sys.phase.Idle? && (set id | id in queue) == RunningHandles(sys.entries).Keys
      then sys.(queue := queue, phase := Probing) else sys
    case Probe(healthy) =>
      if !sys.phase.Probing? then sys
      else if sys.queue == [] then sys.(phase := Idle)
      else if healthy then GoOn(sys) else sys.(phase := Failing(sys.queue[0]))
    case FailIt =>
      if !sys.phase.Failing? then sys
      else Do(sys, MarkFailed(sys.phase.id)).(phase := Counting(sys.phase.id))
    case CountIt =>
      if !sys.phase.Counting? then sys
      else
        var id := sys.phase.id;
        if id !in sys.entries || id !in sys.lives || sys.entries[id].restartCount >= maxRestarts then GoOn(sys)
        else sys.(phase := Configuring(id, sys.lives[id].birth))
    case ReadConfig =>
      if !sys.phase.Configuring? then sys
      else if sys.phase.id !in sys.entries then GoOn(sys)
      else sys.(phase := Restarting(sys.phase.id, sys.phase.seen))
    case BeginIt =>
      if !sys.phase.Restarting? then sys
      else
        var id := sys.phase.id;
        if Perform(sys.entries, BeginRestart(id)).0.Err? || id !in sys.lives then GoOn(sys)
        else
          Do(sys, BeginRestart(id)).(
            lives := sys.lives[id := sys.lives[id].(restarts := sys.lives[id].restarts + 1)],
            phase := Finishing(id))
    case FinishIt(made) =>
      if !sys.phase.Finishing? then sys
      else
        var op := if made.Some? then CompleteCreate(sys.phase.id, made.value) else MarkFailed(sys.phase.id);
        GoOn(Do(sys, op))
  }

  function Exec(maxRestarts: nat, steps: seq<Step>): Sys {
    if steps == [] then BORN else Next(maxRestarts, Exec(maxRestarts, steps[..|steps| - 1]), steps[|steps| - 1])
  }

  // ---- A check that nothing disturbs ------------------------------------------------------------------

  /** What the check does about the head of its queue, if it is unhealthy. */
  function AboutUnhealthy(made: Option<Handle>): seq<Step> {
    [Probe(false), FailIt, CountIt, ReadConfig, BeginIt, FinishIt(made)]
  }

  function ExecFrom(maxRestarts: nat, sys: Sys, steps: seq<Step>): Sys
    decreases steps
  {
    if steps == [] then sys else ExecFrom(maxRestarts, Next(maxRestarts, sys, steps[0]), steps[1..])
  }

  lemma {:induction false} ExecInTwo(maxRestarts: nat, sys: Sys, x: seq<Step>, y: seq<Step>)
    ensures ExecFrom(maxRestarts, sys, x + y) == ExecFrom(maxRestarts, ExecFrom(maxRestarts, sys, x), y)
    decreases x
  {
    hide Next;
    if x == [] {
      assert x + y == y;
    } else {
      assert (x + y)[0] == x[0] && (x + y)[1..] == x[1..] + y;
      ExecInTwo(maxRestarts, Next(maxRestarts, sys, x[0]), x[1..], y);
    }
  }

  lemma ExecOne(maxRestarts: nat, sys: Sys, step: Step)
    ensures ExecFrom(maxRestarts, sys, [step]) == Next(maxRestarts, sys, step)
  {
    assert [step][1..] == [];
  }

  /**
    When nothing else touches the registry, the interleaved check does to an unhealthy runtime
    what the undisturbed one does: restarts it below the limit, fails it otherwise, and goes on.
   */
  lemma UndisturbedCheckRestarts(maxRestarts: nat, sys: Sys, made: Option<Handle>)
    requires sys.phase.Probing? && sys.queue != []
    requires var id := sys.queue[0];
             && id in sys.entries && id in sys.lives
             && sys.entries[id].state.Running? && sys.entries[id].handle.Some?
    ensures var id := sys.queue[0];
            var sys' := ExecFrom(maxRestarts, sys, AboutUnhealthy(made));
            sys'.entries == sys.entries[id := Checked(sys.entries[id], false, made, maxRestarts)]
    ensures sys.entries[sys.queue[0]].restartCount < maxRestarts ==>
              var sys' := ExecFrom(maxRestarts, sys, AboutUnhealthy(made));
              sys'.phase.Probing? && sys'.queue == sys.queue[1..]
  {
    hide Next, ExecFrom;
    var id := sys.queue[0];
    var a, b := [Probe(false), FailIt, CountIt], [ReadConfig, BeginIt, FinishIt(made)];
    assert AboutUnhealthy(made) == a + b;
    ExecInTwo(maxRestarts, sys, a, b);
    FirstHalf(maxRestarts, sys);
    SecondHalf(maxRestarts, ExecFrom(maxRestarts, sys, a), id, made);
  }

  lemma FirstHalf(maxRestarts: nat, sys: Sys)
    requires sys.phase.Probing? && sys.queue != [] && sys.queue[0] in sys.entries && sys.queue[0] in sys.lives
    ensures var id := sys.queue[0];
            var sys' := ExecFrom(maxRestarts, sys, [Probe(false), FailIt, CountIt]);
            && sys'.entries == sys.entries[id := sys.entries[id].(state := Failed, handle := None)]
            && sys'.lives == sys.lives
            && if sys.entries[id].restartCount < maxRestarts then
                 sys'.phase == Configuring(id, sys.lives[id].birth) && sys'.queue == sys.queue
               else sys'.phase.Probing? && sys'.queue == sys.queue[1..]
  {
    var s1 := Next(maxRestarts, sys, Probe(false));
    var s2 := Next(maxRestarts, s1, FailIt);
    assert [Probe(false), FailIt, CountIt] == [Probe(false)] + ([FailIt] + [CountIt]);
    ExecInTwo(maxRestarts, sys, [Probe(false)], [FailIt] + [CountIt]);
    ExecInTwo(maxRestarts, s1, [FailIt], [CountIt]);
    ExecOne(maxRestarts, sys, Probe(false));
    ExecOne(maxRestarts, s1, FailIt);
    ExecOne(maxRestarts, s2, CountIt);
  }

  lemma SecondHalf(maxRestarts: nat, sys: Sys, id: string, made: Option<Handle>)
    requires id in sys.entries && id in sys.lives && sys.entries[id].state.Failed? && sys.entries[id].handle.None?
    requires sys.phase.Probing? || (sys.phase.Configuring? && sys.phase.id == id && sys.queue != [])
    ensures var sys' := ExecFrom(maxRestarts, sys, [ReadConfig, BeginIt, FinishIt(made)]);
            var e := sys.entries[id];
            if sys.phase.Probing? then sys' == sys
            else
              && sys'.entries == sys.entries[id :=
                   Entry(if made.Some? then Running else Failed, e.config, e.restartCount + 1, made)]
              && sys'.phase.Probing? && sys'.queue == sys.queue[1..]
  {
    var s1 := Next(maxRestarts, sys, ReadConfig);
    var s2 := Next(maxRestarts, s1, BeginIt);
    assert [ReadConfig, BeginIt, FinishIt(made)] == [ReadConfig] + ([BeginIt] + [FinishIt(made)]);
    ExecInTwo(maxRestarts, sys, [ReadConfig], [BeginIt] + [FinishIt(made)]);
    ExecInTwo(maxRestarts, s1, [BeginIt], [FinishIt(made)]);
    ExecOne(maxRestarts, sys, ReadConfig);
    ExecOne(maxRestarts, s1, BeginIt);
    ExecOne(maxRestarts, s2, FinishIt(made));
  }

  // ---- The invariant ------------------------------------------------------------------------------

  /** The life the health check read its count from, if it is about to restart on the strength of it. */
  function Seen(p: Phase): Option<(string, nat)> {
    match p
    case Configuring(id, seen) => Some((id, seen))
    case Restarting(id, seen) => Some((id, seen))
    case _ => None
  }

  ghost predicate Sound(maxRestarts: nat, sys: Sys) {
    && HandledIffRunning(sys.entries)
    && sys.lives.Keys == sys.entries.Keys
    && (forall id :: id in sys.lives ==>
          && sys.lives[id].birth < sys.births
          && sys.lives[id].restarts <= sys.entries[id].restartCount
          && sys.lives[id].restarts <= maxRestarts)
    && (Seen(sys.phase).Some? ==>
          var (id, seen) := Seen(sys.phase).value;
          && 0 < maxRestarts && seen < sys.births
          && (id in sys.lives ==>
                if sys.lives[id].birth == seen then sys.lives[id].restarts < maxRestarts
                else seen < sys.lives[id].birth && sys.lives[id].restarts == 0))
  }

  lemma OpKeepsHandles(es: Entries, op: Op)
    requires HandledIffRunning(es)
    ensures HandledIffRunning(Perform(es, op).1)
  {
  }

  lemma OtherSound(maxRestarts: nat, sys: Sys, op: Op)
    requires Sound(maxRestarts, sys)
    ensures Sound(maxRestarts, Do(sys, op))
  {
    hide HandledIffRunning;
    OpKeepsHandles(sys.entries, op);
    OperationsMean(sys.entries, op);
    hide Perform;
  }

  lemma BeginSound(maxRestarts: nat, sys: Sys)
    requires Sound(maxRestarts, sys)
    ensures Sound(maxRestarts, Next(maxRestarts, sys, BeginIt))
  {
    hide HandledIffRunning;
    if sys.phase.Restarting? {
      OpKeepsHandles(sys.entries, BeginRestart(sys.phase.id));
    }
  }

  lemma StepSound(maxRestarts: nat, sys: Sys, step: Step)
    requires Sound(maxRestarts, sys)
    ensures Sound(maxRestarts, Next(maxRestarts, sys, step))
  {
    hide HandledIffRunning, Perform;
    match step {
      case Other(op) => OtherSound(maxRestarts, sys, op);
      case FailIt =>
        if sys.phase.Failing? {
          OtherSound(maxRestarts, sys, MarkFailed(sys.phase.id));
        }
      case FinishIt(made) =>
        if sys.phase.Finishing? {
          var op := if made.Some? then CompleteCreate(sys.phase.id, made.value) else MarkFailed(sys.phase.id);
          OtherSound(maxRestarts, sys, op);
        }
      case BeginIt => BeginSound(maxRestarts, sys);
      case _ =>
    }
  }

  lemma {:induction false} ReachableSound(maxRestarts: nat, steps: seq<Step>)
    ensures Sound(maxRestarts, Exec(maxRestarts, steps))
  {
    hide Sound, Next;
    if steps == [] {
      BornSound(maxRestarts);
    } else {
      ReachableSound(maxRestarts, steps[..|steps| - 1]);
      StepSound(maxRestarts, Exec(maxRestarts, steps[..|steps| - 1]), steps[|steps| - 1]);
    }
  }

  lemma BornSound(maxRestarts: nat)
    ensures Sound(maxRestarts, BORN)
  {
  }

  /**
    Whatever else happens to the registry in between: an entry holds a handle exactly while
    it is running, and the health check restarts a runtime at most `maxRestarts` times
    between its creation and its removal, although it decides on a count that may be stale.
   */
  lemma AutoRestartsAreBounded(maxRestarts: nat, steps: seq<Step>)
    ensures var sys := Exec(maxRestarts, steps);
            && sys.lives.Keys == sys.entries.Keys
            && forall id :: id in sys.entries ==>
                 && (sys.entries[id].handle.Some? <==> sys.entries[id].state.Running?)
                 && sys.lives[id].restarts <= maxRestarts
                 && sys.lives[id].restarts <= sys.entries[id].restartCount
  {
    hide Exec;
    ReachableSound(maxRestarts, steps);
  }
}
