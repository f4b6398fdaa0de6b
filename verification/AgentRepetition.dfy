/** Exactly which rounds are nudged, and exactly when a run is stopped as stuck. */
module AgentRepetition {
  import opened Conversation
  import opened AgentLoop
  import opened AgentRuns

  /** The fingerprints of all counted rounds so far, oldest first. */
  function Fingerprints(w: World, rounds: seq<Round>): seq<string> {
    if rounds == [] then []
    else
      var last := rounds[|rounds| - 1];
      Fingerprints(w, rounds[..|rounds| - 1])
      + if Counted(last.kind) then [Fingerprint(w, Calls(last.message.parts))] else []
  }

  predicate AllSame(fs: seq<string>) {
    forall i :: 0 <= i < |fs| ==> fs[i] == fs[|fs| - 1]
  }

  function LastOf(fs: seq<string>, n: nat): seq<string> {
    if |fs| <= n then fs else fs[|fs| - n..]
  }

  /** The kind of the last of `rounds`, if counted, is the one its whole past calls for. */
  predicate KindIsExact(cfg: Config, w: World, rounds: seq<Round>) {
    rounds == [] ||
    var kind := rounds[|rounds| - 1].kind;
    var fs := Fingerprints(w, rounds);
    var n := |fs|;
    Counted(kind) ==>
      && (kind.Stuck? <==> n >= cfg.stuckThreshold && AllSame(fs[n - cfg.stuckThreshold..]))
      && (kind.Nudged? <==> cfg.nudgeThreshold <= n < cfg.stuckThreshold && AllSame(fs))
  }

  ghost predicate Tracked(cfg: Config, w: World, s: State) {
    && s.recent == LastOf(Fingerprints(w, s.rounds), cfg.stuckThreshold)
    && forall i :: 0 <= i <= |s.rounds| ==> KindIsExact(cfg, w, s.rounds[..i])
  }

  /** The bounded queue is a window on the unbounded past. */
  lemma PushSlides(fs: seq<string>, f: string, bound: nat)
    requires 0 < bound
    ensures Push(LastOf(fs, bound), f, bound) == LastOf(fs + [f], bound)
  {
  }

  lemma WindowDecides(fs: seq<string>, f: string, stuck: nat, nudge: nat)
    requires nudge < stuck && fs != [] && fs[|fs| - 1] == f
    ensures var recent := LastOf(fs, stuck);
            var n := |fs|;
            var alike := AllAre(recent, f);
            && ((|recent| >= stuck && alike) <==> (n >= stuck && AllSame(fs[n - stuck..])))
            && ((!(|recent| >= stuck && alike) && |recent| >= nudge && alike) <==> (nudge <= n < stuck && AllSame(fs)))
  {
    var n := |fs|;
    if n >= stuck {
      assert fs[n - stuck..][stuck - 1] == f;
    }
  }

  lemma JudgedByWindow(cfg: Config, w: World, s: State, calls: seq<Call>)
    requires Counted(Judge(cfg, w, s, calls))
    ensures Judge(cfg, w, s, calls) == JudgeRepetition(cfg, w, s, calls)
  {
  }

  lemma KindFromPast(cfg: Config, w: World, s: State, r: Round)
    requires cfg.nudgeThreshold < cfg.stuckThreshold
    requires s.recent == LastOf(Fingerprints(w, s.rounds), cfg.stuckThreshold)
    requires r.kind == Judge(cfg, w, s, Calls(r.message.parts))
    ensures KindIsExact(cfg, w, s.rounds + [r])
  {
    var calls := Calls(r.message.parts);
    assert (s.rounds + [r])[..|s.rounds|] == s.rounds;
    if Counted(r.kind) {
      JudgedByWindow(cfg, w, s, calls);
      var past, f := Fingerprints(w, s.rounds), Fingerprint(w, calls);
      assert Fingerprints(w, s.rounds + [r]) == past + [f];
      PushSlides(past, f, cfg.stuckThreshold);
      WindowDecides(past + [f], f, cfg.stuckThreshold, cfg.nudgeThreshold);
    }
  }

  lemma FingerprintsOfOneMore(w: World, rounds: seq<Round>, r: Round)
    ensures Fingerprints(w, rounds + [r]) ==
            Fingerprints(w, rounds) + if Counted(r.kind) then [Fingerprint(w, Calls(r.message.parts))] else []
  {
    hide Fingerprint, Calls;
    assert (rounds + [r])[..|rounds|] == rounds;
  }

  lemma QueueTracked(cfg: Config, w: World, s: State, parts: seq<Part>, used: Usage, kind: Kind)
    requires 0 < cfg.stuckThreshold
    requires s.recent == LastOf(Fingerprints(w, s.rounds), cfg.stuckThreshold)
    ensures var s' := Advance(cfg, w, s, parts, used, kind);
            s'.recent == LastOf(Fingerprints(w, s'.rounds), cfg.stuckThreshold)
  {
    hide TailEvents, CallEvents, Added, Calls, Fingerprint, Fingerprints, Push, LastOf;
    var r := RoundOf(cfg, w, s, parts, used, kind);
    FingerprintsOfOneMore(w, s.rounds, r);
    var past := Fingerprints(w, s.rounds);
    if Counted(kind) {
      PushSlides(past, Fingerprint(w, Calls(parts)), cfg.stuckThreshold);
    } else {
      assert past + [] == past;
    }
  }

  lemma AdvanceTracked(cfg: Config, w: World, s: State, parts: seq<Part>, used: Usage, kind: Kind)
    requires cfg.nudgeThreshold < cfg.stuckThreshold
    requires Tracked(cfg, w, s) && kind == Judge(cfg, w, s, Calls(parts))
    ensures Tracked(cfg, w, Advance(cfg, w, s, parts, used, kind))
  {
    hide Judge, KindIsExact, TailEvents, CallEvents, Added, Calls, Fingerprint, Fingerprints, Push, LastOf;
    var r := RoundOf(cfg, w, s, parts, used, kind);
    var rounds := s.rounds + [r];
    KindFromPast(cfg, w, s, r);
    QueueTracked(cfg, w, s, parts, used, kind);
    forall i | 0 <= i <= |rounds| ensures KindIsExact(cfg, w, rounds[..i]) {
      if i <= |s.rounds| {
        assert rounds[..i] == s.rounds[..i];
      } else {
        assert rounds[..i] == rounds;
      }
    }
  }

  lemma ReplyTracked(cfg: Config, w: World, s: State, parts: seq<Part>, used: Usage)
    requires cfg.nudgeThreshold < cfg.stuckThreshold && Tracked(cfg, w, s)
    requires !w.cancelled(s.checks) && s.iteration < cfg.maxIterations
    requires w.replies(s.iteration + 1) == Response(parts, used)
    ensures Tracked(cfg, w, OneRound(cfg, w, s).state)
  {
    hide OneRound, Advance, Tracked, KindFits, Judge;
    var kind := ReplyStep(cfg, w, s, parts, used);
    AdvanceTracked(cfg, w, s, parts, used, kind);
  }

  lemma RoundTracked(cfg: Config, w: World, s: State)
    requires cfg.nudgeThreshold < cfg.stuckThreshold && Tracked(cfg, w, s)
    ensures Tracked(cfg, w, OneRound(cfg, w, s).state)
  {
    hide Judge, Advance, Fingerprints, KindIsExact, LastOf, CallEvents;
    if !w.cancelled(s.checks) && s.iteration < cfg.maxIterations {
      match w.replies(s.iteration + 1)
      case Response(parts, used) => ReplyTracked(cfg, w, s, parts, used);
      case ProviderError(_) =>
    }
  }

  lemma StartTracked(cfg: Config, w: World, base: seq<Message>, input: Message)
    ensures Tracked(cfg, w, Start(base, input))
  {
  }

  lemma {:induction false} RunsAreTracked(cfg: Config, w: World, base: seq<Message>, input: Message, n: nat)
    requires cfg.nudgeThreshold < cfg.stuckThreshold
    ensures Tracked(cfg, w, After(cfg, w, Start(base, input), n).state)
  {
    hide OneRound, Tracked;
    if n == 0 {
      StartTracked(cfg, w, base, input);
    } else {
      RunsAreTracked(cfg, w, base, input, n - 1);
      match After(cfg, w, Start(base, input), n - 1)
      case Halt(_, _) =>
      case Continue(s) => RoundTracked(cfg, w, s);
    }
  }

  predicate IsStuck(o: Outcome) {
    o.Failed? && o.error.StuckInLoop?
  }

  lemma StuckHaltsNow(cfg: Config, w: World, s: State)
    requires GoingOn(s.rounds)
    ensures var next := OneRound(cfg, w, s);
            next.Halt? ==>
              (IsStuck(next.outcome) <==>
               next.state.rounds != [] && next.state.rounds[|next.state.rounds| - 1].kind.Stuck?)
  {
    hide Judge, Calls, TailEvents, CallEvents, Added, Fingerprint;
    if !w.cancelled(s.checks) && s.iteration < cfg.maxIterations {
      var reply := w.replies(s.iteration + 1);
      if reply.Response? {
        var kind := ReplyStep(cfg, w, s, reply.parts, reply.usage);
      }
    }
  }

  lemma StuckHalts(cfg: Config, w: World, base: seq<Message>, input: Message, n: nat)
    requires After(cfg, w, Start(base, input), n).Halt?
    ensures var next := After(cfg, w, Start(base, input), n);
            IsStuck(next.outcome) <==>
            next.state.rounds != [] && next.state.rounds[|next.state.rounds| - 1].kind.Stuck?
  {
    var m, s := LastRound(cfg, w, Start(base, input), n);
    RunningRounds(cfg, w, Start(base, input), m);
    StuckHaltsNow(cfg, w, s);
  }

  /**
    With the thresholds `Build` accepts: the queue always equals the last fingerprints of
    the counted rounds; a counted round is nudged exactly when at least `nudgeThreshold` but
    fewer than `stuckThreshold` rounds were counted and all are alike; and the run fails as
    stuck exactly when the last `stuckThreshold` counted rounds are alike.
   */
  lemma StuckAndNudgeAreExact(cfg: Config, w: World, base: seq<Message>, input: Message, n: nat)
    requires cfg.nudgeThreshold < cfg.stuckThreshold
    ensures var next := After(cfg, w, Start(base, input), n);
            var rounds := next.state.rounds;
            && next.state.recent == LastOf(Fingerprints(w, rounds), cfg.stuckThreshold)
            && (forall i :: 0 <= i <= |rounds| ==> KindIsExact(cfg, w, rounds[..i]))
            && (next.Halt? ==> (IsStuck(next.outcome) <==> rounds != [] && rounds[|rounds| - 1].kind.Stuck?))
  {
    RunsAreTracked(cfg, w, base, input, n);
    if After(cfg, w, Start(base, input), n).Halt? {
      StuckHalts(cfg, w, base, input, n);
    }
  }

  lemma {:induction false} FingerprintsGrow(w: World, rounds: seq<Round>, i: nat)
    requires i <= |rounds|
    ensures Fingerprints(w, rounds[..i]) <= Fingerprints(w, rounds)
  {
    if i < |rounds| {
      FingerprintsGrow(w, rounds[..|rounds| - 1], i);
      assert rounds[..|rounds| - 1][..i] == rounds[..i];
    } else {
      assert rounds[..i] == rounds;
    }
  }

  /** Once two counted rounds differed, no later round of the run is ever nudged. */
  lemma NoNudgeAfterDifference(cfg: Config, w: World, base: seq<Message>, input: Message, n: nat, i: nat, j: nat)
    requires cfg.nudgeThreshold < cfg.stuckThreshold
    requires var rounds := After(cfg, w, Start(base, input), n).state.rounds;
             i <= j < |rounds| && !AllSame(Fingerprints(w, rounds[..i]))
    ensures !After(cfg, w, Start(base, input), n).state.rounds[j].kind.Nudged?
  {
    var rounds := After(cfg, w, Start(base, input), n).state.rounds;
    RunsAreTracked(cfg, w, base, input, n);
    assert KindIsExact(cfg, w, rounds[..j + 1]);
    FingerprintsGrow(w, rounds[..j + 1], i);
    assert rounds[..j + 1][..i] == rounds[..i];
    var early, all := Fingerprints(w, rounds[..i]), Fingerprints(w, rounds[..j + 1]);
    var k :| 0 <= k < |early| && early[k] != early[|early| - 1];
    assert all[k] != all[|early| - 1];
  }
}
