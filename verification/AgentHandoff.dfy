/** Which replies end a run by a handoff, which are sent back, and how often. */
module AgentHandoff {
  import opened Conversation
  import opened AgentLoop
  import opened AgentRuns
  import opened Agents

  predicate Names(calls: seq<Call>, name: string) {
    exists i :: 0 <= i < |calls| && calls[i].name == name
  }

  /** The kind of a round against the calls of its reply. */
  predicate KindFitsCalls(cfg: Config, w: World, r: Round) {
    var calls, kind := CallsOf(r.message), r.kind;
    match cfg.handoffTool
    case None => if calls == [] then kind.Concluded? else Counted(kind)
    case Some(name) =>
      if calls == [] then kind.Missing? || kind.NeverHandedOff?
      else if !Names(calls, name) then Counted(kind)
      else
        && (kind.HandedOff? || kind.Rejected? || kind.Refused?)
        && (kind.HandedOff? <==> |calls| == 1 && w.valid(calls[0].input))
  }

  function Rejections(rounds: seq<Round>): nat {
    if rounds == [] then 0
    else Rejections(rounds[..|rounds| - 1]) + if rounds[|rounds| - 1].kind.Rejected? then 1 else 0
  }

  function Reminders(rounds: seq<Round>): nat {
    if rounds == [] then 0
    else Reminders(rounds[..|rounds| - 1]) + if rounds[|rounds| - 1].kind.Missing? then 1 else 0
  }

  /** A run gives up on a handoff only once all its retries of that sort are used. */
  predicate GivesUpLast(cfg: Config, rounds: seq<Round>) {
    rounds != [] ==>
      && (rounds[|rounds| - 1].kind.Refused? ==> Rejections(rounds) == cfg.handoffMaxRetries)
      && (rounds[|rounds| - 1].kind.NeverHandedOff? ==> Reminders(rounds) == cfg.handoffMaxRetries)
  }

  ghost predicate Settling(cfg: Config, w: World, s: State) {
    && (forall i :: 0 <= i < |s.rounds| ==> KindFitsCalls(cfg, w, s.rounds[i]))
    && s.handoffRetries == Rejections(s.rounds) <= cfg.handoffMaxRetries
    && s.missingRetries == Reminders(s.rounds) <= cfg.handoffMaxRetries
    && GivesUpLast(cfg, s.rounds)
  }

  lemma FoundIffNamed(calls: seq<Call>, name: string)
    ensures FindCall(calls, name).Some? <==> Names(calls, name)
  {
    if FindCall(calls, name).Some? {
      var i :| 0 <= i < |calls| && calls[i] == FindCall(calls, name).value;
    }
  }

  lemma JudgedFits(cfg: Config, w: World, s: State, parts: seq<Part>, used: Usage)
    ensures KindFitsCalls(cfg, w, RoundOf(cfg, w, s, parts, used, Judge(cfg, w, s, Calls(parts))))
  {
    hide Calls, Fingerprint, Push, AllAre, Added;
    var calls := Calls(parts);
    if cfg.handoffTool.Some? {
      FoundIffNamed(calls, cfg.handoffTool.value);
      if |calls| == 1 && FindCall(calls, cfg.handoffTool.value).Some? {
        assert calls == [calls[0]];
      }
    }
  }

  lemma CountsGrow(rounds: seq<Round>, r: Round)
    ensures Rejections(rounds + [r]) == Rejections(rounds) + if r.kind.Rejected? then 1 else 0
    ensures Reminders(rounds + [r]) == Reminders(rounds) + if r.kind.Missing? then 1 else 0
  {
    assert (rounds + [r])[..|rounds|] == rounds;
  }

  lemma RetriesLeft(cfg: Config, w: World, s: State, calls: seq<Call>)
    ensures var kind := Judge(cfg, w, s, calls);
            && (kind.Rejected? ==> s.handoffRetries < cfg.handoffMaxRetries)
            && (kind.Missing? ==> s.missingRetries < cfg.handoffMaxRetries)
            && (kind.Refused? ==> s.handoffRetries >= cfg.handoffMaxRetries)
            && (kind.NeverHandedOff? ==> s.missingRetries >= cfg.handoffMaxRetries)
  {
    hide Fingerprint, Push, AllAre, FindCall;
  }

  lemma AdvanceSettling(cfg: Config, w: World, s: State, parts: seq<Part>, used: Usage)
    requires Settling(cfg, w, s)
    ensures Settling(cfg, w, Advance(cfg, w, s, parts, used, Judge(cfg, w, s, Calls(parts))))
  {
    hide Judge, Calls, KindFitsCalls, Added, TailEvents, CallEvents, Fingerprint, Push;
    var kind := Judge(cfg, w, s, Calls(parts));
    var r := RoundOf(cfg, w, s, parts, used, kind);
    JudgedFits(cfg, w, s, parts, used);
    RetriesLeft(cfg, w, s, Calls(parts));
    AdvanceRecords(cfg, w, s, parts, used, kind);
    CountsGrow(s.rounds, r);
  }

  lemma RoundSettling(cfg: Config, w: World, s: State)
    requires Settling(cfg, w, s)
    ensures Settling(cfg, w, OneRound(cfg, w, s).state)
  {
    hide Judge, Advance, Settling, Calls, CallEvents;
    if !w.cancelled(s.checks) && s.iteration < cfg.maxIterations {
      match w.replies(s.iteration + 1)
      case Response(parts, used) =>
        RoundIs(cfg, w, s, parts, used, Judge(cfg, w, s, Calls(parts)));
        AdvanceSettling(cfg, w, s, parts, used);
      case ProviderError(_) => SameRounds(cfg, w, s, OneRound(cfg, w, s).state);
    }
  }

  lemma SameRounds(cfg: Config, w: World, s: State, s': State)
    requires Settling(cfg, w, s) && s'.rounds == s.rounds
    requires s'.handoffRetries == s.handoffRetries && s'.missingRetries == s.missingRetries
    ensures Settling(cfg, w, s')
  {
    hide KindFitsCalls;
  }

  lemma StartSettling(cfg: Config, w: World, base: seq<Message>, input: Message)
    ensures Settling(cfg, w, Start(base, input))
  {
  }

  /**
    Through every run: a reply hands off exactly when its only call is a valid one of the
    handoff tool; any other reply with such a call is sent back, or fails the run once
    `handoffMaxRetries` were; a reply without calls concludes exactly when there is no
    handoff tool, and is otherwise reminded, or fails the run, likewise. Every remaining reply
    reaches the repetition check.
   */
  lemma {:induction false} HandoffsAreExact(cfg: Config, w: World, base: seq<Message>, input: Message, n: nat)
    ensures Settling(cfg, w, After(cfg, w, Start(base, input), n).state)
  {
    hide OneRound, Settling;
    if n == 0 {
      StartSettling(cfg, w, base, input);
    } else {
      HandoffsAreExact(cfg, w, base, input, n - 1);
      match After(cfg, w, Start(base, input), n - 1)
      case Halt(_, _) =>
      case Continue(s) => RoundSettling(cfg, w, s);
    }
  }
}
