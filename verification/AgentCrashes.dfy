/** Recovery measured against the live conversation, repeated crashes, and pausing for the user. */
module AgentCrashes {
  import opened Common
  import opened Conversation
  import opened AgentLoop
  import opened AgentEvents
  import opened AgentRuns
  import AgentAccounting
  import opened Agents
  import opened AgentRetries
  import opened AgentRecovery

  predicate AllExecuted(rounds: seq<Round>) {
    forall i :: 0 <= i < |rounds| ==> rounds[i].kind.Executed?
  }

  lemma {:induction false} RoundsPrefix(rounds: seq<Round>, i: nat)
    requires i <= |rounds|
    ensures JournaledOf(rounds[..i]) <= JournaledOf(rounds)
    ensures LiveOf(rounds[..i]) <= LiveOf(rounds)
  {
    hide Journaled, Live;
    if i < |rounds| {
      RoundsPrefix(rounds[..|rounds| - 1], i);
      assert rounds[..|rounds| - 1][..i] == rounds[..i];
    } else {
      assert rounds[..i] == rounds;
    }
  }

  lemma {:induction false} ExecutedAreLive(rounds: seq<Round>)
    requires AllExecuted(rounds)
    ensures JournaledOf(rounds) == LiveOf(rounds)
  {
    if rounds != [] {
      ExecutedAreLive(rounds[..|rounds| - 1]);
    }
  }

  lemma {:induction false} FirstSynthesized(rounds: seq<Round>) returns (i: nat)
    requires !AllExecuted(rounds)
    ensures i < |rounds| && !rounds[i].kind.Executed? && AllExecuted(rounds[..i])
  {
    var n := |rounds| - 1;
    if AllExecuted(rounds[..n]) {
      i := n;
    } else {
      i := FirstSynthesized(rounds[..n]);
      assert rounds[..n][..i] == rounds[..i];
    }
  }

  /** Where the journal and the live history part: after the first synthesized answer. */
  lemma PartingPoint(rounds: seq<Round>, i: nat)
    requires AllShaped(rounds) && i + 1 < |rounds| && !EndsRun(rounds[i].kind)
    requires !rounds[i].kind.Executed? && AllExecuted(rounds[..i])
    ensures var p := |JournaledOf(rounds[..i])| + 1;
            p < |JournaledOf(rounds)| && p < |LiveOf(rounds)| && JournaledOf(rounds)[p] != LiveOf(rounds)[p]
    ensures |JournaledOf(rounds[..i + 1])| == |JournaledOf(rounds[..i])| + 1
  {
    hide RoundShape, EndsRun, AllExecuted;
    var r := rounds[i];
    RoundAt(rounds, i);
    RoundAt(rounds, i + 1);
    ShapedIsAssistant(rounds[i + 1]);
    ExecutedAreLive(rounds[..i]);
    assert rounds[..i + 1][..i] == rounds[..i] && rounds[..i + 2][..i + 1] == rounds[..i + 1];
    RoundsPrefix(rounds, i + 1);
    RoundsPrefix(rounds, i + 2);
    var p := |JournaledOf(rounds[..i])| + 1;
    AddedIsNoReply(r);
    assert Live(r)[1] == r.added[0];
    assert LiveOf(rounds[..i + 1])[p] == r.added[0];
    assert JournaledOf(rounds[..i + 2])[p] == rounds[i + 1].message;
  }

  lemma AddedIsNoReply(r: Round)
    requires RoundShape(r) && !EndsRun(r.kind)
    ensures r.added != [] && !r.added[0].role.Assistant?
  {
    if !r.kind.Missing? {
      assert Answers(r.added[0], CallsOf(r.message)[0].id);
    }
  }

  lemma JournaledStartsLive(r: Round, j: nat)
    requires j < |Journaled(r)|
    ensures Journaled(r)[..1 + j] <= Live(r)
  {
  }

  lemma ExecutedPrefix(rounds: seq<Round>, q: nat)
    requires 0 < q <= |JournaledOf(rounds)| && AllExecuted(Earlier(rounds, q))
    ensures JournaledOf(rounds)[..q] <= LiveOf(rounds)
  {
    hide Journaled, Live, JournaledOf, AllExecuted;
    var m, j := Reached(rounds, q) - 1, Landed(rounds, q);
    LandedMeans(rounds, q);
    RoundsPrefix(rounds, m + 1);
    assert rounds[..m + 1][..m] == rounds[..m];
    ExecutedAreLive(rounds[..m]);
    JournaledStartsLive(rounds[m], j);
  }

  lemma NoPrefix<T>(x: seq<T>, y: seq<T>, p: nat, q: nat)
    requires p < q <= |x| && p < |y| && x[p] != y[p]
    ensures !(x[..q] <= y)
  {
    assert x[..q][p] == x[p];
  }

  lemma SynthesizedParts(rounds: seq<Round>, q: nat)
    requires RoundsOfTurn(rounds) && 0 < q <= |JournaledOf(rounds)| && !AllExecuted(Earlier(rounds, q))
    ensures !(JournaledOf(rounds)[..q] <= LiveOf(rounds))
  {
    hide Journaled, Live, RoundShape, EndsRun, JournaledOf, LiveOf, Reached, Landed, AllExecuted;
    var m, j := Reached(rounds, q) - 1, Landed(rounds, q);
    LandedMeans(rounds, q);
    var i := FirstSynthesized(rounds[..m]);
    EarlierGoOn(rounds, m + 1);
    assert rounds[..m][..i] == rounds[..i] && rounds[..m][i] == rounds[i];
    PartingPoint(rounds, i);
    RoundsPrefix(rounds[..m], i + 1);
    assert rounds[..m][..i + 1] == rounds[..i + 1];
    NoPrefix(JournaledOf(rounds), LiveOf(rounds), |JournaledOf(rounds[..i])| + 1, q);
  }

  /**
    The first `q` journaled messages are a prefix of the live history exactly when every
    earlier round was executed.
   */
  lemma LivePrefixIff(rounds: seq<Round>, q: nat)
    requires RoundsOfTurn(rounds) && q <= |JournaledOf(rounds)|
    ensures JournaledOf(rounds)[..q] <= LiveOf(rounds) <==> AllExecuted(Earlier(rounds, q))
  {
    hide JournaledOf, LiveOf, RoundsOfTurn;
    if q > 0 {
      if AllExecuted(Earlier(rounds, q)) {
        ExecutedPrefix(rounds, q);
      } else {
        SynthesizedParts(rounds, q);
      }
    }
  }

  /**
    One attempt and a crash after any `k >= 1` of its events reached the journal. What is
    recovered is a prefix of the live history exactly when every round before the last reply
    it contains executed its calls. With ids that are never used twice, sanitizing then yields
    that prefix followed by exactly one error result per open call, in call order, and this is
    well formed.
   */
  lemma RecoveryIsLivePrefixIff(
      note: string, cfg: Config, w: World, base: seq<Message>, input: Message, n: nat, k: nat) returns (q: nat)
    requires var s := After(cfg, w, Start(base, input), n).state;
             && 1 <= k <= 1 + |CoarseAll(s.events)|
             && WellFormed(base + [input])
    ensures var s := After(cfg, w, Start(base, input), n).state;
            var ms := FoldEvents(base, ([InputPersisted(input)] + CoarseAll(s.events))[..k]);
            && q <= |JournaledOf(s.rounds)|
            && ms == base + [input] + JournaledOf(s.rounds)[..q]
            && (ms <= s.history <==> AllExecuted(Earlier(s.rounds, q)))
            && (ms <= s.history && CleanIds(base + [input] + JournaledOf(s.rounds)) ==>
                  && Sanitize(note, ms) == s.history[..|ms|] + Interruptions(note, Open(s.rounds, q))
                  && WellFormed(Sanitize(note, ms)))
  {
    hide After, WellFormed, Sanitize, CleanIds, Mended, JournaledOf, LiveOf, RoundsOfTurn, FoldEvents, Interruptions;
    hide Spoken, CoarseAll, AllExecuted, Open, RoundShape, Fresh;
    var s := After(cfg, w, Start(base, input), n).state;
    var streamed, prior := CoarseAll(s.events), base + [input];
    q := CutOfTurn(base, input, streamed, k);
    StateSpeaks(cfg, w, base, input, n);
    var ms := prior + JournaledOf(s.rounds)[..q];
    LivePrefixIff(s.rounds, q);
    PrefixUnder(prior, JournaledOf(s.rounds)[..q], LiveOf(s.rounds));
    if q > 0 {
      RecoverRounds(note, prior, s.rounds, q);
    } else {
      NothingYet(note, prior, s.rounds);
    }
    ExecutedIsMended(Earlier(s.rounds, q));
    if CleanIds(prior + JournaledOf(s.rounds)) && AllExecuted(Earlier(s.rounds, q)) {
      UniqueIdsSuffice(prior, s.rounds, q);
    }
  }

  lemma StateSpeaks(cfg: Config, w: World, base: seq<Message>, input: Message, n: nat)
    ensures var s := After(cfg, w, Start(base, input), n).state;
            && Produced(CoarseAll(s.events)) == JournaledOf(s.rounds)
            && s.history == base + [input] + LiveOf(s.rounds)
            && RoundsOfTurn(s.rounds)
  {
    hide After, RoundShape, EndsRun, LiveOf, JournaledOf, Produced, CoarseAll;
    RunsAreShaped(cfg, w, base, input, n);
    RunningRounds(cfg, w, Start(base, input), n);
  }

  lemma PrefixUnder<T>(front: seq<T>, a: seq<T>, b: seq<T>)
    ensures front + a <= front + b <==> a <= b
    ensures front + a <= front + b ==> (front + b)[..|front + a|] == front + a
  {
    if front + a <= front + b {
      forall i | 0 <= i < |a| ensures a[i] == b[i] {
        assert (front + a)[|front| + i] == (front + b)[|front| + i];
      }
    }
  }

  lemma ExecutedIsMended(rounds: seq<Round>)
    ensures AllExecuted(rounds) ==> Mended(rounds)
  {
  }

  // ---- A second crash --------------------------------------------------------------------------------

  /**
    A recovered session goes on from the sanitized conversation with a synthetic input; the
    journal gets neither. Whatever `recovered` is, once the next life journaled anything and
    dies, the next recovery is well formed exactly when `recovered` needed no repair, no
    earlier round of that life was nudged or rejected, and no open call has an id answered
    already.
   */
  lemma NextCrash(
      note: string, cfg: Config, specs: seq<ToolSpec>, compiles: Json -> bool, ws: nat -> World,
      recovered: seq<Message>, proceed: Message, maxRetries: nat, k: nat) returns (q: nat)
    requires var runs := RunWithRetries(cfg, specs, compiles, ws, Sanitize(note, recovered), proceed, maxRetries).runs;
             k <= |CoarseAll(EventsOf(runs))|
    ensures var runs := RunWithRetries(cfg, specs, compiles, ws, Sanitize(note, recovered), proceed, maxRetries).runs;
            var rounds := RoundsOf(runs);
            && q <= |JournaledOf(rounds)|
            && var ms := recovered + JournaledOf(rounds)[..q];
               && FoldEvents(recovered, CoarseAll(EventsOf(runs))[..k]) == ms
               && (q > 0 ==>
                     (WellFormed(Sanitize(note, ms)) <==>
                        WellFormed(recovered) && Mended(Earlier(rounds, q)) && Fresh(Open(rounds, q), ms)))
  {
    hide RunWithRetries, WellFormed, Sanitize, Fresh, Mended, JournaledOf, RoundsOfTurn, FoldEvents, Interruptions;
    hide Spoken, CoarseAll, EventsOf, AreAttempts, Produced;
    var runs := RunWithRetries(cfg, specs, compiles, ws, Sanitize(note, recovered), proceed, maxRetries).runs;
    TurnSpeaks(cfg, specs, compiles, ws, Sanitize(note, recovered), proceed, maxRetries);
    q := CutsArePrefixes(recovered, CoarseAll(EventsOf(runs)), k);
    if q > 0 {
      RecoverRounds(note, recovered, RoundsOf(runs), q);
    } else {
      assert recovered + [] == recovered;
    }
  }

  lemma AllAnsweredIff(m: Message, done: seq<Message>)
    requires PartlyAnswered(m, done)
    ensures WellFormed([m] + done) <==> |done| == |CallsOf(m)|
  {
    if |done| == |CallsOf(m)| {
      assert CallsOf(m)[..|done|] == CallsOf(m);
      WellFormedTurn(m, done);
    } else {
      TooFewResults(m, done);
    }
  }

  /**
    What is left of a turn needs no repair exactly when what was there before needs none, no
    earlier round was nudged or rejected and no call is open.
   */
  lemma NeedsNoRepairIff(prior: seq<Message>, rounds: seq<Round>, q: nat)
    requires RoundsOfTurn(rounds) && q <= |JournaledOf(rounds)|
    ensures WellFormed(prior + JournaledOf(rounds)[..q]) <==>
            WellFormed(prior) && Mended(Earlier(rounds, q)) && Open(rounds, q) == []
  {
    hide WellFormed, JournaledOf, Journaled, RoundShape, Mended, GoingOn, AllShaped, CallsOf, AnswersInOrder;
    if q == 0 {
      NoRoundYet(prior, rounds);
    } else {
      var m, j := Reached(rounds, q) - 1, Landed(rounds, q);
      LandedMeans(rounds, q);
      var r, earlier := rounds[m], JournaledOf(rounds[..m]);
      RoundAt(rounds, m);
      LastRoundPartlyAnswered(r, j);
      var done := Journaled(r)[1..1 + j];
      Assoc(prior, earlier, [r.message] + done);
      EarlierGoOn(rounds, m + 1);
      JournaledWellFormedIff(prior, rounds[..m]);
      WellFormedSplit(prior + earlier, r.message, done);
      AllAnsweredIff(r.message, done);
    }
  }

  lemma NoRoundYet(prior: seq<Message>, rounds: seq<Round>)
    ensures prior + JournaledOf(rounds)[..0] == prior && Mended(Earlier(rounds, 0)) && Open(rounds, 0) == []
  {
  }

  /**
    Two crashes in a row, each at any moment. The second recovery is well formed exactly when
    no earlier round of the first life was nudged or rejected and: if the second life journaled
    nothing, no call left open by the first has an id answered already; otherwise the first
    left no call open at all, and the conditions of a single crash hold of the second.
   */
  lemma SecondCrash(
      note: string, cfg: Config, specs: seq<ToolSpec>, compiles: Json -> bool, ws: nat -> World, ws': nat -> World,
      base: seq<Message>, input: Message, proceed: Message, maxRetries: nat, k: nat, k': nat)
    returns (q: nat, q': nat)
    requires WellFormed(base + [input])
    requires 1 <= k <= |JournalOf(input, RunWithRetries(cfg, specs, compiles, ws, base, input, maxRetries).runs)|
    requires var runs := RunWithRetries(cfg, specs, compiles, ws, base, input, maxRetries).runs;
             var recovered := FoldEvents(base, JournalOf(input, runs)[..k]);
             var turn' := RunWithRetries(cfg, specs, compiles, ws', Sanitize(note, recovered), proceed, maxRetries);
             var runs' := turn'.runs;
             k' <= |CoarseAll(EventsOf(runs'))|
    ensures var runs := RunWithRetries(cfg, specs, compiles, ws, base, input, maxRetries).runs;
            var recovered := FoldEvents(base, JournalOf(input, runs)[..k]);
            var runs' := RunWithRetries(cfg, specs, compiles, ws', Sanitize(note, recovered), proceed, maxRetries).runs;
            var ms := FoldEvents(recovered, CoarseAll(EventsOf(runs'))[..k']);
            var rounds, rounds' := RoundsOf(runs), RoundsOf(runs');
            && q <= |JournaledOf(rounds)| && recovered == base + [input] + JournaledOf(rounds)[..q]
            && q' <= |JournaledOf(rounds')| && ms == recovered + JournaledOf(rounds')[..q']
            && (WellFormed(Sanitize(note, ms)) <==>
                  && Mended(Earlier(rounds, q))
                  && if q' == 0 then Fresh(Open(rounds, q), recovered)
                     else Open(rounds, q) == [] && Mended(Earlier(rounds', q')) && Fresh(Open(rounds', q'), ms))
  {
    hide RunWithRetries, WellFormed, Sanitize, Fresh, Mended;
    hide JournaledOf, RoundsOfTurn, FoldEvents, CoarseAll, EventsOf;
    hide Earlier, Open, RoundsOf, JournalOf;
    var runs := RunWithRetries(cfg, specs, compiles, ws, base, input, maxRetries).runs;
    var recovered := FoldEvents(base, JournalOf(input, runs)[..k]);
    q := CrashRecovery(note, cfg, specs, compiles, ws, base, input, maxRetries, k);
    q' := NextCrash(note, cfg, specs, compiles, ws', recovered, proceed, maxRetries, k');
    TurnSpeaks(cfg, specs, compiles, ws, base, input, maxRetries);
    NeedsNoRepairIff(base + [input], RoundsOf(runs), q);
    assert recovered + [] == recovered;
  }

  /** The sanitizer never answers a call that a later reply follows. */
  lemma OpenCallStaysOpen(note: string, front: seq<Message>, asked: Message, later: Message)
    requires asked.role.Assistant? && CallsOf(asked) != [] && later.role.Assistant?
    ensures !WellFormed(Sanitize(note, front + ([asked] + [later])))
  {
    hide LastCalls, Unanswered, AnsweredIds, Interruptions, WellFormed;
    var ms := front + ([asked] + [later]);
    var tail := Interruptions(note, Unanswered(LastCalls(ms), AnsweredIds(ms)));
    Assoc(front, [asked] + [later], tail);
    Assoc([asked], [later], tail);
    WellFormedSplit(front, asked, [later] + tail);
    NotAnswered(asked, later, tail);
  }

  lemma NotAnswered(asked: Message, later: Message, tail: seq<Message>)
    requires asked.role.Assistant? && CallsOf(asked) != [] && later.role.Assistant?
    ensures !WellFormed([asked] + ([later] + tail))
  {
    assert ([asked] + ([later] + tail))[1] == later;
  }

  /** The smallest case: one call left open by the first crash, one reply journaled before the second. */
  lemma TwoCrashesLoseAnAnswer(note: string)
    ensures var asked := Message("a", Assistant, [ToolCall("c", "grep", JNull)]);
            var later := Message("b", Assistant, [Text("done")]);
            var first := [UserMessage("u", "go"), asked];
            && WellFormed(Sanitize(note, first))
            && !WellFormed(Sanitize(note, first + [later]))
  {
    var asked := Message("a", Assistant, [ToolCall("c", "grep", JNull)]);
    var later := Message("b", Assistant, [Text("done")]);
    var user := UserMessage("u", "go");
    var first := [user, asked];
    hide Sanitize, WellFormed;
    OneCall(asked, "c", "grep");
    assert PartResults(asked.parts) == {} == PartResults(user.parts);
    SanitizeCompletesOne(note, user, asked);
    OpenCallStaysOpen(note, [user], asked, later);
    assert [user] + ([asked] + [later]) == first + [later];
  }

  lemma OneCall(m: Message, id: string, name: string)
    requires m.role.Assistant? && m.parts == [ToolCall(id, name, JNull)]
    ensures CallsOf(m) == [Call(id, name, JNull)]
  {
    assert m.parts[1..] == [] && Calls(m.parts[1..]) == [];
    assert Calls(m.parts) == [Call(id, name, JNull)] + Calls(m.parts[1..]);
  }

  lemma SanitizeCompletesOne(note: string, user: Message, asked: Message)
    requires user.role.User? && PartResults(user.parts) == {} && PartResults(asked.parts) == {}
    requires asked.role.Assistant? && |CallsOf(asked)| == 1
    ensures WellFormed(Sanitize(note, [user, asked]))
  {
    WellFormedUser(user);
    assert [user] + ([asked] + []) == [user, asked];
    assert AllCallIds([user] + [asked]) == CallIds(CallsOf(asked)) by {
      AllCallIdsConcat([user], [asked]);
      assert [user][1..] == [] && [asked][1..] == [];
    }
    UniqueIdsAreFresh([user], asked, []);
    SanitizeCompletesIff(note, [user], asked, []);
  }

  /** The smallest case of an id used twice: the open call counts as answered by the earlier result. */
  lemma ReusedIdStaysOpen(note: string)
    ensures var first := Message("a", Assistant, [ToolCall("c", "grep", JNull)]);
            var open := Message("b", Assistant, [ToolCall("c", "grep", JNull)]);
            var answered := [UserMessage("u", "go"), first, ResultMessage("c", "found", false)];
            WellFormed(answered) && !WellFormed(Sanitize(note, answered + [open]))
  {
    var first := Message("a", Assistant, [ToolCall("c", "grep", JNull)]);
    var open := Message("b", Assistant, [ToolCall("c", "grep", JNull)]);
    var user, result := UserMessage("u", "go"), ResultMessage("c", "found", false);
    var answered := [user, first, result];
    OneCall(first, "c", "grep");
    OneCall(open, "c", "grep");
    assert answered == [user] + ([first] + [result]) && answered == [user, first] + [result];
    WellFormedUser(user);
    WellFormedTurn(first, [result]);
    WellFormedFront([user], [first] + [result]);
    assert answered + ([open] + []) == answered + [open];
    AnsweredIdsConcat([user, first], [result]);
    AnsweredIdsConcat(answered, [open]);
    ResultIds(result, "c");
    assert [result][1..] == [];
    SanitizeCompletesIff(note, answered, open, []);
    assert CallsOf(open)[0..][0].id in AnsweredIds(answered + [open]);
  }

  // ---- A nudged round --------------------------------------------------------------------------------

  /** What every session runs with, apart from the bound on iterations. */
  const DEFAULTS := Config(100, 5, 3, 2, None)

  const ENDS := [Text("done")]

  function Asks(id: string): seq<Part> {
    [ToolCall(id, "grep", JNull)]
  }

  /** A provider that makes the same call three times and then ends its turn; nothing is cancelled. */
  function RepeatingWorld(w: World): World {
    w.(replies := n => Response(
                         if n == 1 then Asks("1") else if n == 2 then Asks("2") else if n == 3 then Asks("3") else ENDS,
                                Usage(1, 1)),
       cancelled := n => false)
  }

  /** The fingerprint of each of those calls. */
  function Repeated(w: World): string {
    "grep" + ":" + w.render(JNull)
  }

  lemma CallsOfAsk(id: string)
    ensures Calls(Asks(id)) == [Call(id, "grep", JNull)]
  {
    assert Asks(id)[1..] == [] && Calls(Asks(id)[1..]) == [];
    assert Calls(Asks(id)) == [Call(id, "grep", JNull)] + Calls(Asks(id)[1..]);
  }

  lemma CallsOfEnd()
    ensures Calls(ENDS) == []
  {
    assert ENDS[1..] == [] && Calls(ENDS[1..]) == [];
    assert Calls(ENDS) == [] + Calls(ENDS[1..]);
  }

  /** A state in which `n` rounds have asked the same, and nothing else happened. */
  predicate Repeating(w: World, s: State, n: nat) {
    && s.iteration == n == |s.recent| == |s.rounds|
    && AllAre(s.recent, Repeated(w))
  }

  /** Asking the same once more: executed up to the second time, nudged the third. */
  lemma AskAgain(w: World, s: State, n: nat, id: string)
    requires Repeating(w, s, n) && n <= 2
    requires RepeatingWorld(w).replies(n + 1) == Response(Asks(id), Usage(1, 1))
    ensures var w' := RepeatingWorld(w);
            var kind := if n == 2 then Nudged else Executed;
            var next := OneRound(DEFAULTS, w', s);
            && next.Continue? && Repeating(w, next.state, n + 1)
            && next.state.rounds == s.rounds + [RoundOf(DEFAULTS, w', s, Asks(id), Usage(1, 1), kind)]
  {
    hide CallEvents, Calls, RoundOf, Added;
    var w' := RepeatingWorld(w);
    var kind := if n == 2 then Nudged else Executed;
    CallsOfAsk(id);
    assert Fingerprint(w', Calls(Asks(id))) == Repeated(w);
    JudgedAgain(w, s, n, Calls(Asks(id)));
    RoundIs(DEFAULTS, w', s, Asks(id), Usage(1, 1), kind);
    AdvanceRecords(DEFAULTS, w', s, Asks(id), Usage(1, 1), kind);
  }

  lemma JudgedAgain(w: World, s: State, n: nat, calls: seq<Call>)
    requires Repeating(w, s, n) && n <= 2 && calls != [] && Fingerprint(RepeatingWorld(w), calls) == Repeated(w)
    ensures Judge(DEFAULTS, RepeatingWorld(w), s, calls) == if n == 2 then Nudged else Executed
    ensures var recent := Push(s.recent, Repeated(w), 5); |recent| == n + 1 && AllAre(recent, Repeated(w))
  {
    hide Fingerprint, Repeated;
  }

  lemma EndsNext(w: World, s: State)
    requires s.iteration == 3
    ensures var w' := RepeatingWorld(w);
            OneRound(DEFAULTS, w', s).state.rounds ==
            s.rounds + [RoundOf(DEFAULTS, w', s, ENDS, Usage(1, 1), Concluded)]
  {
    hide Fingerprint, CallEvents, Calls, RoundOf, Added;
    CallsOfEnd();
    var w' := RepeatingWorld(w);
    RoundIs(DEFAULTS, w', s, ENDS, Usage(1, 1), Concluded);
    AdvanceRecords(DEFAULTS, w', s, ENDS, Usage(1, 1), Concluded);
  }

  lemma FourRounds(w: World, input: Message) returns (front: seq<Round>, asked: Round, later: Round)
    ensures After(DEFAULTS, RepeatingWorld(w), Start([], input), 4).state.rounds == front + [asked] + [later]
    ensures asked.kind.Nudged? && later.kind.Concluded?
    ensures asked.message == Message(w.ids(3), Assistant, Asks("3")) && later.message.role.Assistant?
  {
    hide OneRound, Calls, RoundOf, Repeated, Asks;
    var w', start := RepeatingWorld(w), Start([], input);
    AskAgain(w, start, 0, "1");
    var s1 := OneRound(DEFAULTS, w', start).state;
    AskAgain(w, s1, 1, "2");
    var s2 := OneRound(DEFAULTS, w', s1).state;
    AskAgain(w, s2, 2, "3");
    var s3 := OneRound(DEFAULTS, w', s2).state;
    EndsNext(w, s3);
    assert After(DEFAULTS, w', start, 1) == Continue(s1);
    assert After(DEFAULTS, w', start, 2) == Continue(s2);
    assert After(DEFAULTS, w', start, 3) == Continue(s3);
    front := s2.rounds;
    asked := RoundOf(DEFAULTS, w', s2, Asks("3"), Usage(1, 1), Nudged);
    later := RoundOf(DEFAULTS, w', s3, ENDS, Usage(1, 1), Concluded);
    RoundRecords(DEFAULTS, w', s2, Asks("3"), Usage(1, 1), Nudged);
    RoundRecords(DEFAULTS, w', s3, ENDS, Usage(1, 1), Concluded);
  }

  lemma RoundRecords(cfg: Config, w: World, s: State, parts: seq<Part>, used: Usage, kind: Kind)
    ensures var r := RoundOf(cfg, w, s, parts, used, kind);
            r.kind == kind && r.message == Message(w.ids(s.iteration + 1), Assistant, parts)
  {
    hide Added;
  }

  /**
    The shortest run of a session that recovery cannot mend: the same call three times. The
    third was nudged, so its answer never reached the journal, and a last reply follows it.
   */
  lemma NudgedCallStaysOpen(note: string, w: World)
    ensures var input := UserMessage("u", "go");
            var s := After(DEFAULTS, RepeatingWorld(w), Start([], input), 4).state;
            !WellFormed(Sanitize(note, FoldEvents([], [InputPersisted(input)] + CoarseAll(s.events))))
  {
    hide After, Sanitize, WellFormed, CoarseAll, FoldEvents, RepeatingWorld, Calls, JournaledOf;
    var input := UserMessage("u", "go");
    var s := After(DEFAULTS, RepeatingWorld(w), Start([], input), 4).state;
    var front, asked, later := FourRounds(w, input);
    JournaledAgainstLive(DEFAULTS, RepeatingWorld(w), [], input, 4);
    WholeFold([], input, CoarseAll(s.events));
    LastTwoRounds(front, asked, later);
    CallsOfAsk("3");
    var before := [] + [input] + JournaledOf(front);
    Assoc([] + [input], JournaledOf(front), [asked.message] + [later.message]);
    OpenCallStaysOpen(note, before, asked.message, later.message);
  }

  lemma LastTwoRounds(front: seq<Round>, asked: Round, later: Round)
    requires !asked.kind.Executed? && !later.kind.Executed?
    ensures JournaledOf(front + [asked] + [later]) == JournaledOf(front) + ([asked.message] + [later.message])
  {
    var all := front + [asked] + [later];
    assert all[..|all| - 1] == front + [asked] && (front + [asked])[..|front|] == front;
    assert JournaledOf(front + [asked]) == JournaledOf(front) + [asked.message];
    Assoc(JournaledOf(front), [asked.message], [later.message]);
  }

  lemma WholeFold(base: seq<Message>, input: Message, streamed: seq<DomainEvent>)
    ensures FoldEvents(base, [InputPersisted(input)] + streamed) == FoldEvents(base + [input], streamed)
  {
    FoldConcat(base, [InputPersisted(input)], streamed);
    assert [InputPersisted(input)][..0] == [];
  }

  // ---- Pausing for the user ---------------------------------------------------------------------------

  lemma {:induction false} LastRoundOfTurn(runs: seq<State>)
    requires runs != [] && runs[|runs| - 1].rounds != []
    ensures var rounds, last := RoundsOf(runs), runs[|runs| - 1].rounds;
            rounds != [] && rounds[|rounds| - 1] == last[|last| - 1]
    decreases |runs|
  {
    if |runs| == 1 {
      assert runs[0].rounds + RoundsOf(runs[1..]) == runs[0].rounds;
    } else {
      LastRoundOfTurn(runs[1..]);
    }
  }

  lemma {:induction false} ConcludedTurn(
      cfg: Config, ws: nat -> World, base: seq<Message>, input: Message, maxRetries: nat, attempt: nat)
    requires attempt <= maxRetries && Attempts(cfg, ws, base, input, maxRetries, attempt).outcome.TurnConcluded?
    ensures var turn := Attempts(cfg, ws, base, input, maxRetries, attempt);
            var last := turn.runs[|turn.runs| - 1].rounds;
            && last != []
            && var calls := CallsOf(last[|last| - 1].message);
               |calls| == 1 && turn.outcome == TurnConcluded(calls[0].input, Some(calls[0].id))
    decreases maxRetries - attempt
  {
    hide AgentLoop.Run, FindToolCallId, CallsOf;
    var run := Run(cfg, ws(attempt), base, input);
    if ProviderFailed(run) && attempt < maxRetries {
      ConcludedTurn(cfg, ws, base, input, maxRetries, attempt + 1);
    } else {
      AgentAccounting.RunsHalt(cfg, ws(attempt), base, input);
      HandoffFindsItsCall(cfg, ws(attempt), base, input);
    }
  }

  lemma ReplyAnsweredIff(m: Message, result: Message)
    requires m.role.Assistant? && |CallsOf(m)| == 1 && result.role.Tool?
    ensures WellFormed([m] + [result]) <==> Answers(result, CallsOf(m)[0].id)
  {
    if Answers(result, CallsOf(m)[0].id) {
      WellFormedTurn(m, [result]);
    } else {
      assert ([m] + [result])[1] == result;
    }
  }

  lemma PausedTurnSplits(prior: seq<Message>, rounds: seq<Round>, result: Message)
    requires RoundsOfTurn(rounds) && rounds != [] && WellFormed(prior) && result.role.Tool?
    requires var r := rounds[|rounds| - 1]; |CallsOf(r.message)| == 1 && Journaled(r) == [r.message]
    ensures WellFormed(prior + JournaledOf(rounds) + [result]) <==>
            Mended(rounds[..|rounds| - 1]) && Answers(result, CallsOf(rounds[|rounds| - 1].message)[0].id)
  {
    hide WellFormed, RoundShape, EndsRun, Answers, Mended, Journaled;
    var n := |rounds| - 1;
    var r, front := rounds[n], prior + JournaledOf(rounds[..n]);
    RoundAt(rounds, n);
    ShapedIsAssistant(r);
    JournaledWellFormedIff(prior, rounds[..n]);
    Assoc(prior, JournaledOf(rounds[..n]), [r.message]);
    Assoc(front, [r.message], [result]);
    WellFormedSplit(front, r.message, [result]);
    ReplyAnsweredIff(r.message, result);
  }

  /**
    A turn that concluded reports the id of the call its conversation ends with. Answering a
    call then resumes a well-formed conversation exactly when it is that call that is
    answered, and no earlier round was nudged or rejected.
   */
  lemma ResumeAnswersThePause(
      cfg: Config, specs: seq<ToolSpec>, compiles: Json -> bool, ws: nat -> World,
      base: seq<Message>, input: Message, maxRetries: nat, id: string, content: string)
    requires WellFormed(base + [input])
    requires RunWithRetries(cfg, specs, compiles, ws, base, input, maxRetries).outcome.TurnConcluded?
    ensures var turn := RunWithRetries(cfg, specs, compiles, ws, base, input, maxRetries);
            var rounds := RoundsOf(turn.runs);
            var ms := FoldEvents(base, JournalOf(input, turn.runs));
            && rounds != []
            && (WellFormed(ms + [ResultMessage(id, content, false)]) <==>
                  turn.outcome.callId == Some(id) && Mended(rounds[..|rounds| - 1]))
  {
    hide WellFormed, Mended, JournaledOf, RoundsOfTurn, FoldEvents, Spoken, CoarseAll, AreAttempts, Produced, Attempts;
    hide CallsOf, RoundsOf, Build, JournalOf, Journaled, EventsOf;
    var turn := RunWithRetries(cfg, specs, compiles, ws, base, input, maxRetries);
    var rounds := RoundsOf(turn.runs);
    JournalAcrossRetries(cfg, specs, compiles, ws, base, input, maxRetries);
    TurnSpeaks(cfg, specs, compiles, ws, base, input, maxRetries);
    ConcludedTurn(cfg, ws, base, input, maxRetries, 0);
    LastRoundOfTurn(turn.runs);
    var r := rounds[|rounds| - 1];
    PausedRound(cfg, ws, base, input, maxRetries, 0);
    PausedTurnSplits(base + [input], rounds, ResultMessage(id, content, false));
  }

  lemma {:induction false} PausedRound(
      cfg: Config, ws: nat -> World, base: seq<Message>, input: Message, maxRetries: nat, attempt: nat)
    requires attempt <= maxRetries && Attempts(cfg, ws, base, input, maxRetries, attempt).outcome.TurnConcluded?
    ensures var runs := Attempts(cfg, ws, base, input, maxRetries, attempt).runs;
            var last := runs[|runs| - 1].rounds;
            last != [] && Journaled(last[|last| - 1]) == [last[|last| - 1].message]
    decreases maxRetries - attempt
  {
    hide AgentLoop.Run, FindToolCallId, Journaled;
    var run := Run(cfg, ws(attempt), base, input);
    if ProviderFailed(run) && attempt < maxRetries {
      PausedRound(cfg, ws, base, input, maxRetries, attempt + 1);
    } else {
      AgentAccounting.RunsHalt(cfg, ws(attempt), base, input);
      HandoffRoundIsBare(cfg, ws(attempt), base, input);
    }
  }

  lemma HandoffRoundIsBare(cfg: Config, w: World, base: seq<Message>, input: Message)
    requires var run := Run(cfg, w, base, input); run.Halt? && run.outcome.Handoff?
    ensures var last := Run(cfg, w, base, input).state.rounds;
            last != [] && Journaled(last[|last| - 1]) == [last[|last| - 1].message]
  {
    hide Judge, Advance, Calls, FindCall;
    var m, s := LastRound(cfg, w, Start(base, input), cfg.maxIterations + 1);
    var reply := w.replies(s.iteration + 1);
    assert OneRound(cfg, w, s).outcome.Handoff?;
    var kind := ReplyStep(cfg, w, s, reply.parts, reply.usage);
    AdvanceRecords(cfg, w, s, reply.parts, reply.usage, kind);
  }
}
