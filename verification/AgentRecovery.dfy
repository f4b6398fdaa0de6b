/** What a session that died in the middle of a turn makes of its journal. */
module AgentRecovery {
  import opened Common
  import opened Conversation
  import opened AgentLoop
  import opened AgentEvents
  import opened AgentRuns
  import opened AgentRetries

  // ---- The sanitizer ---------------------------------------------------------------------

  /** The calls of the last assistant message. */
  function LastCalls(ms: seq<Message>): seq<Call> {
    if ms == [] then []
    else
      var last := ms[|ms| - 1];
      if last.role.Assistant? then Calls(last.parts) else LastCalls(ms[..|ms| - 1])
  }

  function Unanswered(calls: seq<Call>, answered: set<string>): seq<Call> {
    if calls == [] then []
    else (if calls[0].id in answered then [] else [calls[0]]) + Unanswered(calls[1..], answered)
  }

  /** One error result per call, in order. `note` is the text they carry. */
  function Interruptions(note: string, calls: seq<Call>): (r: seq<Message>)
    ensures |r| == |calls| && forall i :: 0 <= i < |r| ==> r[i] == ResultMessage(calls[i].id, note, true)
  {
    if calls == [] then [] else [ResultMessage(calls[0].id, note, true)] + Interruptions(note, calls[1..])
  }

  function Sanitize(note: string, ms: seq<Message>): seq<Message> {
    ms + Interruptions(note, Unanswered(LastCalls(ms), AnsweredIds(ms)))
  }

  /** The sanitizer as it runs, pushing one result per dangling call. */
  method SanitizeForResume(note: string, history: seq<Message>) returns (messages: seq<Message>)
    ensures messages == Sanitize(note, history)
  {
    var answered := AnsweredIds(history);
    var dangling := Unanswered(LastCalls(history), answered);
    ghost var all := Interruptions(note, dangling);
    messages := history;
    var i := 0;
    while i < |dangling|
      invariant 0 <= i <= |dangling|
      invariant messages == history + all[..i]
    {
      assert all[..i + 1] == all[..i] + [ResultMessage(dangling[i].id, note, true)];
      messages := messages + [ResultMessage(dangling[i].id, note, true)];
      i := i + 1;
    }
    assert all[..i] == all;
  }

  // ---- Well-formedness from the front ---------------------------------------------------------

  /** A message that is no result can only follow a well-formed conversation. */
  lemma {:induction false} WellFormedBefore(a: seq<Message>, m: Message, b: seq<Message>)
    requires !m.role.Tool? && WellFormed(a + ([m] + b))
    ensures WellFormed(a)
    decreases |a|
  {
    if a != [] {
      var whole := a + ([m] + b);
      var n := |CallsOf(a[0])|;
      assert whole[0] == a[0] && OpensWithTurn(whole);
      assert |a| <= n ==> Answers(whole[|a|], CallsOf(a[0])[|a| - 1].id);
      assert whole[1 + n..] == a[1 + n..] + ([m] + b);
      WellFormedBefore(a[1 + n..], m, b);
      forall j | 0 < j <= n ensures Answers(a[j], CallsOf(a[0])[j - 1].id) {
        assert whole[j] == a[j];
      }
    }
  }

  lemma WellFormedSplit(a: seq<Message>, m: Message, b: seq<Message>)
    requires !m.role.Tool?
    ensures WellFormed(a + ([m] + b)) <==> WellFormed(a) && WellFormed([m] + b)
  {
    if WellFormed(a) {
      WellFormedFront(a, [m] + b);
    } else if WellFormed(a + ([m] + b)) {
      WellFormedBefore(a, m, b);
    }
  }

  // ---- Rounds in the journal -------------------------------------------------------------------

  /** No round whose answers were synthesized, and so never journaled. */
  predicate Mended(rounds: seq<Round>) {
    forall i :: 0 <= i < |rounds| ==> !rounds[i].kind.Nudged? && !rounds[i].kind.Rejected?
  }

  predicate AllShaped(rounds: seq<Round>) {
    forall i :: 0 <= i < |rounds| ==> RoundShape(rounds[i])
  }

  /** The rounds of a turn: shaped, and only the last can have ended a run. */
  predicate RoundsOfTurn(rounds: seq<Round>) {
    AllShaped(rounds) && (rounds != [] ==> GoingOn(rounds[..|rounds| - 1]))
  }

  lemma JournaledRoundWellFormedIff(r: Round)
    requires RoundShape(r) && !EndsRun(r.kind)
    ensures WellFormed(Journaled(r)) <==> !r.kind.Nudged? && !r.kind.Rejected?
  {
    if r.kind.Executed? {
      WellFormedTurn(r.message, r.added);
    } else if r.kind.Missing? {
      WellFormedTurn(r.message, []);
    }
  }

  lemma {:induction false} JournaledWellFormedIff(prior: seq<Message>, rounds: seq<Round>)
    requires AllShaped(rounds) && GoingOn(rounds)
    ensures WellFormed(prior + JournaledOf(rounds)) <==> WellFormed(prior) && Mended(rounds)
  {
    hide WellFormed, RoundShape;
    if rounds == [] {
      assert prior + [] == prior;
    } else {
      var n := |rounds| - 1;
      var r := rounds[n];
      var rest := if r.kind.Executed? then r.added else [];
      JournaledWellFormedIff(prior, rounds[..n]);
      JournaledRoundWellFormedIff(r);
      ShapedIsAssistant(r);
      Assoc(prior, JournaledOf(rounds[..n]), Journaled(r));
      WellFormedSplit(prior + JournaledOf(rounds[..n]), r.message, rest);
    }
  }

  lemma ShapedIsAssistant(r: Round)
    requires RoundShape(r)
    ensures r.message.role.Assistant?
  {
  }

  /** How many rounds have their reply among the first `q` journaled messages. */
  function Reached(rounds: seq<Round>, q: nat): (m: nat)
    requires q <= |JournaledOf(rounds)|
    ensures m <= |rounds| && (m == 0 <==> q == 0)
  {
    if rounds == [] then 0
    else if q <= |JournaledOf(rounds[..|rounds| - 1])| then Reached(rounds[..|rounds| - 1], q)
    else |rounds|
  }

  /** How many of its results the last reached round got into the journal. */
  function Landed(rounds: seq<Round>, q: nat): nat
    requires 0 < q <= |JournaledOf(rounds)|
  {
    var before := |JournaledOf(rounds[..Reached(rounds, q) - 1])|;
    if q <= before then 0 else q - before - 1
  }

  lemma {:induction false} ReachedInFront(rounds: seq<Round>, q: nat) returns (m: nat)
    requires 0 < q <= |JournaledOf(rounds)|
    ensures m < |rounds| && Reached(rounds, q) == m + 1
    ensures |JournaledOf(rounds[..m])| < q <= |JournaledOf(rounds[..m])| + |Journaled(rounds[m])|
    ensures JournaledOf(rounds)[..q] ==
            JournaledOf(rounds[..m]) + Journaled(rounds[m])[..q - |JournaledOf(rounds[..m])|]
  {
    hide Journaled;
    var n := |rounds| - 1;
    var front := rounds[..n];
    if q <= |JournaledOf(front)| {
      m := ReachedInFront(front, q);
      assert front[..m] == rounds[..m] && front[m] == rounds[m];
      assert JournaledOf(rounds)[..q] == JournaledOf(front)[..q];
    } else {
      m := n;
    }
  }

  /** The first `q` journaled messages: the earlier rounds, and the reply and first results of the last reached one. */
  lemma LandedMeans(rounds: seq<Round>, q: nat)
    requires 0 < q <= |JournaledOf(rounds)|
    ensures var m, j := Reached(rounds, q) - 1, Landed(rounds, q);
            && j < |Journaled(rounds[m])|
            && q == |JournaledOf(rounds[..m])| + 1 + j
            && JournaledOf(rounds)[..q] == JournaledOf(rounds[..m]) + Journaled(rounds[m])[..1 + j]
  {
    hide Journaled, JournaledOf, Reached;
    var m := ReachedInFront(rounds, q);
  }

  // ---- What the sanitizer adds -------------------------------------------------------------------

  lemma {:induction false} NoneUnanswered(calls: seq<Call>, answered: set<string>)
    requires forall c :: c in calls ==> c.id in answered
    ensures Unanswered(calls, answered) == []
  {
    if calls != [] {
      NoneUnanswered(calls[1..], answered);
    }
  }

  lemma {:induction false} RestUnanswered(calls: seq<Call>, j: nat, answered: set<string>)
    requires j <= |calls|
    requires forall i :: 0 <= i < |calls| ==> (calls[i].id in answered <==> i < j)
    ensures Unanswered(calls, answered) == calls[j..]
  {
    if calls != [] {
      RestUnanswered(calls[1..], if j == 0 then 0 else j - 1, answered);
      if j == 0 {
        assert [calls[0]] + calls[1..] == calls;
      } else {
        assert calls[1..][j - 1..] == calls[j..];
      }
    }
  }

  lemma {:induction false} LastCallsAreCalls(ms: seq<Message>, c: Call)
    requires c in LastCalls(ms)
    ensures c.id in AllCallIds(ms)
  {
    var n := |ms| - 1;
    assert ms == ms[..n] + [ms[n]];
    AllCallIdsConcat(ms[..n], [ms[n]]);
    if ms[n].role.Assistant? {
      var i :| 0 <= i < |Calls(ms[n].parts)| && Calls(ms[n].parts)[i] == c;
      assert CallIds(CallsOf(ms[n]))[i] == c.id;
      assert [ms[n]][1..] == [];
    } else {
      LastCallsAreCalls(ms[..n], c);
    }
  }

  /** A well-formed conversation is left as it is. */
  lemma SanitizeIdle(note: string, ms: seq<Message>)
    requires WellFormed(ms)
    ensures Sanitize(note, ms) == ms
  {
    CalledAreAnswered(ms);
    forall c | c in LastCalls(ms) ensures c.id in AnsweredIds(ms) {
      LastCallsAreCalls(ms, c);
    }
    NoneUnanswered(LastCalls(ms), AnsweredIds(ms));
    assert ms + [] == ms;
  }

  /** The messages `done` answer the first calls of `m`, in order. */
  predicate PartlyAnswered(m: Message, done: seq<Message>) {
    m.role.Assistant? && |done| <= |CallsOf(m)| && AnswersInOrder(done, CallsOf(m)[..|done|])
  }

  lemma {:induction false} LastCallsOf(a: seq<Message>, m: Message, done: seq<Message>)
    requires PartlyAnswered(m, done)
    ensures LastCalls(a + ([m] + done)) == CallsOf(m)
    decreases |done|
  {
    hide Calls;
    var whole := a + ([m] + done);
    var n := |whole| - 1;
    if done == [] {
      assert whole[n] == m;
    } else {
      var d := |done| - 1;
      assert Answers(done[d], CallsOf(m)[..|done|][d].id);
      hide Answers, CallsOf;
      assert whole[n] == done[d];
      assert whole[..n] == a + ([m] + done[..d]);
      LastCallsOf(a, m, done[..d]);
    }
  }

  /** None of the calls is answered anywhere in the conversation. */
  predicate Fresh(calls: seq<Call>, ms: seq<Message>) {
    forall i :: 0 <= i < |calls| ==> calls[i].id !in AnsweredIds(ms)
  }

  lemma DoneAreAnswered(a: seq<Message>, m: Message, done: seq<Message>, i: nat)
    requires PartlyAnswered(m, done) && i < |done|
    ensures CallsOf(m)[i].id in AnsweredIds(a + ([m] + done))
  {
    AnsweredIdsConcat(a, [m] + done);
    assert ([m] + done)[1..] == done;
    ResultsAnswer(done, CallsOf(m)[..|done|]);
    assert CallIds(CallsOf(m)[..|done|])[i] == CallsOf(m)[i].id;
  }

  lemma {:induction false} FewerUnanswered(calls: seq<Call>, j: nat, answered: set<string>, x: nat)
    requires j <= x < |calls| && calls[x].id in answered
    requires forall i :: 0 <= i < j ==> calls[i].id in answered
    ensures |Unanswered(calls, answered)| < |calls| - j
  {
    if x == 0 {
      NoMoreThanCalls(calls[1..], answered);
    } else {
      FewerUnanswered(calls[1..], if j == 0 then 0 else j - 1, answered, x - 1);
    }
  }

  lemma {:induction false} NoMoreThanCalls(calls: seq<Call>, answered: set<string>)
    ensures |Unanswered(calls, answered)| <= |calls|
  {
    if calls != [] {
      NoMoreThanCalls(calls[1..], answered);
    }
  }

  lemma TooFewResults(m: Message, results: seq<Message>)
    requires m.role.Assistant? && |results| < |CallsOf(m)|
    ensures !WellFormed([m] + results)
  {
  }

  lemma UnansweredRest(a: seq<Message>, m: Message, done: seq<Message>)
    requires PartlyAnswered(m, done)
    ensures var ms, j := a + ([m] + done), |done|;
            var open := CallsOf(m)[j..];
            if Fresh(open, ms) then Unanswered(CallsOf(m), AnsweredIds(ms)) == open
            else |Unanswered(CallsOf(m), AnsweredIds(ms))| < |open|
  {
    hide Unanswered, AnsweredIds, CallsOf;
    var ms, j, calls := a + ([m] + done), |done|, CallsOf(m);
    forall i: nat | i < j ensures calls[i].id in AnsweredIds(ms) {
      DoneAreAnswered(a, m, done, i);
    }
    if Fresh(calls[j..], ms) {
      assert forall i :: j <= i < |calls| ==> calls[i] == calls[j..][i - j];
      RestUnanswered(calls, j, AnsweredIds(ms));
    } else {
      var x :| 0 <= x < |calls[j..]| && calls[j..][x].id in AnsweredIds(ms);
      FewerUnanswered(calls, j, AnsweredIds(ms), j + x);
    }
  }

  /**
    Any conversation, an assistant message and the first of its results: sanitizing makes the
    whole well formed exactly when the front was and no remaining call has an id that is
    answered already; and then it adds exactly one error result per remaining call, in order.
   */
  lemma SanitizeCompletesIff(note: string, a: seq<Message>, m: Message, done: seq<Message>)
    requires PartlyAnswered(m, done)
    ensures var ms, open := a + ([m] + done), CallsOf(m)[|done|..];
            && (WellFormed(Sanitize(note, ms)) <==> WellFormed(a) && Fresh(open, ms))
            && (Fresh(open, ms) ==> Sanitize(note, ms) == ms + Interruptions(note, open))
  {
    hide WellFormed, LastCalls, Unanswered, AnsweredIds, Fresh, CallsOf, AnswersInOrder;
    var ms, open := a + ([m] + done), CallsOf(m)[|done|..];
    LastCallsOf(a, m, done);
    UnansweredRest(a, m, done);
    var tail := Interruptions(note, Unanswered(CallsOf(m), AnsweredIds(ms)));
    Assoc(a, [m] + done, tail);
    Assoc([m], done, tail);
    WellFormedSplit(a, m, done + tail);
    if Fresh(open, ms) {
      CompletedTurn(note, m, done);
    } else {
      TooFewResults(m, done + tail);
    }
  }

  lemma PartlyAnsweredIds(a: seq<Message>, m: Message, done: seq<Message>)
    requires WellFormed(a) && NoStrayResults(a) && PartlyAnswered(m, done) && PartResults(m.parts) == {}
    ensures AnsweredIds(a + ([m] + done)) == IdSet(AllCallIds(a)) + IdSet(CallIds(CallsOf(m)[..|done|]))
    ensures AllCallIds(a + [m]) == AllCallIds(a) + CallIds(CallsOf(m))
  {
    AnsweredAreCalled(a);
    AnsweredIdsConcat(a, [m] + done);
    assert ([m] + done)[1..] == done;
    ResultsAnswer(done, CallsOf(m)[..|done|]);
    AllCallIdsConcat(a, [m]);
    assert [m][1..] == [];
    assert CallIds(CallsOf(m)) + [] == CallIds(CallsOf(m));
  }

  lemma LaterIsNew(ids: seq<string>, more: seq<string>, j: nat, i: nat)
    requires Distinct(ids + more) && j <= i < |more|
    ensures more[i] !in IdSet(ids) + IdSet(more[..j])
  {
    var all := ids + more;
    forall x | 0 <= x < |ids| ensures ids[x] != more[i] {
      assert all[x] != all[|ids| + i];
    }
    forall x | 0 <= x < j ensures more[..j][x] != more[i] {
      assert all[|ids| + x] != all[|ids| + i];
    }
  }

  lemma CallIdsTake(calls: seq<Call>, j: nat)
    requires j <= |calls|
    ensures CallIds(calls[..j]) == CallIds(calls)[..j]
  {
  }

  lemma CallIdAt(calls: seq<Call>, i: nat)
    requires i < |calls|
    ensures i < |CallIds(calls)| && CallIds(calls)[i] == calls[i].id
  {
  }

  /** Ids that are never used twice leave the remaining calls fresh. */
  lemma UniqueIdsAreFresh(a: seq<Message>, m: Message, done: seq<Message>)
    requires WellFormed(a) && NoStrayResults(a) && PartlyAnswered(m, done) && PartResults(m.parts) == {}
    requires Distinct(AllCallIds(a + [m]))
    ensures Fresh(CallsOf(m)[|done|..], a + ([m] + done))
  {
    hide WellFormed, AllCallIds, AnsweredIds, Distinct, CallIds, PartResults, CallsOf, IdSet, AnswersInOrder;
    var calls, j := CallsOf(m), |done|;
    PartlyAnsweredIds(a, m, done);
    CallIdsTake(calls, j);
    forall i: nat | i < |calls[j..]| ensures calls[j..][i].id !in AnsweredIds(a + ([m] + done)) {
      CallIdAt(calls, j + i);
      LaterIsNew(AllCallIds(a), CallIds(calls), j, j + i);
    }
  }

  lemma CompletedTurn(note: string, m: Message, done: seq<Message>)
    requires PartlyAnswered(m, done)
    ensures WellFormed([m] + (done + Interruptions(note, CallsOf(m)[|done|..])))
  {
    hide WellFormed;
    var calls := CallsOf(m);
    var results := done + Interruptions(note, calls[|done|..]);
    forall i | 0 <= i < |results| ensures Answers(results[i], calls[i].id) {
      if i < |done| {
        assert Answers(done[i], calls[..|done|][i].id);
      } else {
        assert results[i] == ResultMessage(calls[|done|..][i - |done|].id, note, true);
      }
    }
    WellFormedTurn(m, results);
  }

  // ---- Recovery after a crash ----------------------------------------------------------------------

  /** Ids are unique and results stand in tool messages only, throughout what was journaled. */
  predicate CleanIds(ms: seq<Message>) {
    NoStrayResults(ms) && Distinct(AllCallIds(ms))
  }

  lemma CleanPrefix(a: seq<Message>, b: seq<Message>)
    requires CleanIds(a + b)
    ensures CleanIds(a)
  {
    AllCallIdsConcat(a, b);
    var all := AllCallIds(a + b);
    forall i, j | 0 <= i < j < |AllCallIds(a)| ensures AllCallIds(a)[i] != AllCallIds(a)[j] {
      assert all[i] == AllCallIds(a)[i] && all[j] == AllCallIds(a)[j];
    }
    forall m | m in a && !m.role.Tool? ensures PartResults(m.parts) == {} {
      assert m in a + b;
    }
  }

  /** The rounds before the last one whose reply is among the first `q` journaled messages. */
  function Earlier(rounds: seq<Round>, q: nat): seq<Round>
    requires q <= |JournaledOf(rounds)|
  {
    if q == 0 then [] else rounds[..Reached(rounds, q) - 1]
  }

  /** The calls left open by the first `q` journaled messages. */
  function Open(rounds: seq<Round>, q: nat): seq<Call>
    requires q <= |JournaledOf(rounds)|
  {
    if q == 0 then []
    else
      var calls := CallsOf(rounds[Reached(rounds, q) - 1].message);
      if Landed(rounds, q) <= |calls| then calls[Landed(rounds, q)..] else []
  }

  lemma LastRoundPartlyAnswered(r: Round, j: nat)
    requires RoundShape(r) && j < |Journaled(r)|
    ensures j <= |CallsOf(r.message)|
    ensures Journaled(r)[..1 + j] == [r.message] + Journaled(r)[1..1 + j]
    ensures PartlyAnswered(r.message, Journaled(r)[1..1 + j])
  {
    if r.kind.Executed? {
      var done := Journaled(r)[1..1 + j];
      assert done == r.added[..j];
    } else {
      assert j == 0;
    }
  }

  lemma EarlierGoOn(rounds: seq<Round>, m: nat)
    requires RoundsOfTurn(rounds) && 0 < m <= |rounds|
    ensures AllShaped(rounds[..m - 1]) && GoingOn(rounds[..m - 1])
  {
    hide RoundShape, EndsRun;
    var most := rounds[..|rounds| - 1];
    forall i | 0 <= i < m - 1 ensures !EndsRun(rounds[i].kind) {
      assert most[i] == rounds[i];
    }
  }

  /**
    `prior` and then the first `q` messages journaled by a turn: sanitized, they are well
    formed exactly when `prior` is, no round before the last reached one was nudged or
    rejected, and no open call has an id answered already; and what is then added is one
    error result per open call.
   */
  lemma RecoverRounds(note: string, prior: seq<Message>, rounds: seq<Round>, q: nat)
    requires RoundsOfTurn(rounds) && 0 < q <= |JournaledOf(rounds)|
    ensures var ms := prior + JournaledOf(rounds)[..q];
            && (WellFormed(Sanitize(note, ms)) <==>
                  WellFormed(prior) && Mended(Earlier(rounds, q)) && Fresh(Open(rounds, q), ms))
            && (Fresh(Open(rounds, q), ms) ==> Sanitize(note, ms) == ms + Interruptions(note, Open(rounds, q)))
  {
    hide WellFormed, Sanitize, JournaledOf, Journaled, RoundShape, Mended, GoingOn, AllShaped, Interruptions, Fresh;
    var m, j := Reached(rounds, q) - 1, Landed(rounds, q);
    LandedMeans(rounds, q);
    var r, earlier := rounds[m], JournaledOf(rounds[..m]);
    RoundAt(rounds, m);
    LastRoundPartlyAnswered(r, j);
    var done := Journaled(r)[1..1 + j];
    Assoc(prior, earlier, [r.message] + done);
    EarlierGoOn(rounds, m + 1);
    JournaledWellFormedIff(prior, rounds[..m]);
    SanitizeCompletesIff(note, prior + earlier, r.message, done);
  }

  lemma RoundAt(rounds: seq<Round>, m: nat)
    requires AllShaped(rounds) && m < |rounds|
    ensures RoundShape(rounds[m])
  {
  }

  /** The last reached reply is new to the conversation before it. */
  lemma ReplyIsNew(prior: seq<Message>, rounds: seq<Round>, q: nat)
    requires AllShaped(rounds) && 0 < q <= |JournaledOf(rounds)|
    requires CleanIds(prior + JournaledOf(rounds))
    ensures var m := Reached(rounds, q) - 1;
            var a := prior + JournaledOf(rounds[..m]);
            && NoStrayResults(a) && Distinct(AllCallIds(a + [rounds[m].message]))
            && PartResults(rounds[m].message.parts) == {}
  {
    hide JournaledOf, AllCallIds, Distinct, PartResults, RoundShape;
    var m, j := Reached(rounds, q) - 1, Landed(rounds, q);
    LandedMeans(rounds, q);
    var r, earlier := rounds[m], JournaledOf(rounds[..m]);
    var all := JournaledOf(rounds);
    assert all == all[..q] + all[q..];
    assert Journaled(r)[..1 + j] == [r.message] + Journaled(r)[1..1 + j];
    var rest := Journaled(r)[1..1 + j] + all[q..];
    Assoc(prior, earlier, [r.message]);
    assert prior + all == prior + earlier + [r.message] + rest;
    CleanPrefix(prior + earlier + [r.message], rest);
    CleanPrefix(prior + earlier, [r.message]);
    assert r.message in prior + earlier + [r.message];
    RoundAt(rounds, m);
    ShapedIsAssistant(r);
  }

  /** With ids that are never used twice, and results only in tool messages, open calls are fresh. */
  lemma UniqueIdsSuffice(prior: seq<Message>, rounds: seq<Round>, q: nat)
    requires RoundsOfTurn(rounds) && q <= |JournaledOf(rounds)|
    requires CleanIds(prior + JournaledOf(rounds))
    requires WellFormed(prior) && Mended(Earlier(rounds, q))
    ensures Fresh(Open(rounds, q), prior + JournaledOf(rounds)[..q])
  {
    hide WellFormed, JournaledOf, Journaled, RoundShape, CleanIds, Mended, GoingOn, AllShaped, Distinct, AllCallIds;
    hide PartResults, AnsweredIds;
    if q > 0 {
      var m, j := Reached(rounds, q) - 1, Landed(rounds, q);
      LandedMeans(rounds, q);
      var r, earlier := rounds[m], JournaledOf(rounds[..m]);
      RoundAt(rounds, m);
      LastRoundPartlyAnswered(r, j);
      var done := Journaled(r)[1..1 + j];
      Assoc(prior, earlier, [r.message] + done);
      EarlierGoOn(rounds, m + 1);
      JournaledWellFormedIff(prior, rounds[..m]);
      ReplyIsNew(prior, rounds, q);
      UniqueIdsAreFresh(prior + earlier, r.message, done);
    }
  }

  // ---- The rounds of a turn ---------------------------------------------------------------------------

  lemma FailedRoundsGoOn(cfg: Config, w: World, base: seq<Message>, input: Message)
    requires ProviderFailed(Run(cfg, w, base, input))
    ensures GoingOn(Run(cfg, w, base, input).state.rounds)
  {
    hide After, Judge, Advance, CallEvents, GoingOn;
    var m, s := LastRound(cfg, w, Start(base, input), cfg.maxIterations + 1);
    RunningRounds(cfg, w, Start(base, input), m);
    assert OneRound(cfg, w, s).outcome.error.Provider?;
  }

  lemma AttemptRounds(cfg: Config, w: World, base: seq<Message>, input: Message)
    ensures RoundsOfTurn(Run(cfg, w, base, input).state.rounds)
  {
    hide After, RoundShape, GoingOn;
    RunsAreShaped(cfg, w, base, input, cfg.maxIterations + 1);
    RunningRounds(cfg, w, Start(base, input), cfg.maxIterations + 1);
  }

  lemma RoundsJoin(a: seq<Round>, b: seq<Round>)
    requires AllShaped(a) && GoingOn(a) && RoundsOfTurn(b)
    ensures RoundsOfTurn(a + b)
  {
    hide RoundShape, EndsRun;
    if b == [] {
      assert a + b == a;
    } else {
      assert (a + b)[..|a + b| - 1] == a + b[..|b| - 1];
    }
  }

  lemma {:induction false} TurnRounds(
      cfg: Config, ws: nat -> World, base: seq<Message>, input: Message, runs: seq<State>, first: nat)
    requires AreAttempts(cfg, ws, base, input, runs, first)
    ensures RoundsOfTurn(RoundsOf(runs))
    decreases |runs|
  {
    hide AgentLoop.Run, RoundsOfTurn, AllShaped, GoingOn, AreAttempts;
    if runs == [] {
      NoRounds();
    } else {
      LaterAttempts(cfg, ws, base, input, runs, first);
      AttemptRounds(cfg, ws(first), base, input);
      if |runs| == 1 {
        assert runs[0].rounds + RoundsOf(runs[1..]) == runs[0].rounds;
      } else {
        FailedRoundsGoOn(cfg, ws(first), base, input);
        TurnIsShaped(runs[0].rounds);
        TurnRounds(cfg, ws, base, input, runs[1..], first + 1);
        RoundsJoin(runs[0].rounds, RoundsOf(runs[1..]));
      }
    }
  }

  lemma NoRounds()
    ensures RoundsOfTurn([])
  {
  }

  lemma TurnIsShaped(rounds: seq<Round>)
    requires RoundsOfTurn(rounds)
    ensures AllShaped(rounds)
  {
  }

  // ---- Cuts of the journal -------------------------------------------------------------------------------

  /** Any cut of journaled events folds to a prefix of what they all fold to. */
  lemma CutsArePrefixes(prior: seq<Message>, events: seq<DomainEvent>, k: nat) returns (q: nat)
    requires k <= |events|
    ensures q <= |Produced(events)|
    ensures FoldEvents(prior, events[..k]) == prior + Produced(events)[..q]
  {
    hide FoldEvents;
    assert events == events[..k] + events[k..];
    ProducedConcat(events[..k], events[k..]);
    FoldFrom(prior, events[..k]);
    q := |Produced(events[..k])|;
  }

  /**
    A crash at any moment of a turn, retries included: whatever prefix of the turn's events
    reached the journal, the recovered conversation is the history before the turn, the
    input, and the first `q` messages the attempts said. Sanitized, it is well formed exactly
    when no round before the last reply it contains was nudged or rejected and no call left
    open there has an id answered already; and then the sanitizer added exactly one error
    result per open call of that reply, in call order.
   */
  lemma CrashRecovery(
      note: string, cfg: Config, specs: seq<ToolSpec>, compiles: Json -> bool, ws: nat -> World,
      base: seq<Message>, input: Message, maxRetries: nat, k: nat) returns (q: nat)
    requires WellFormed(base + [input])
    requires 1 <= k <= |JournalOf(input, RunWithRetries(cfg, specs, compiles, ws, base, input, maxRetries).runs)|
    ensures var runs := RunWithRetries(cfg, specs, compiles, ws, base, input, maxRetries).runs;
            var rounds := RoundsOf(runs);
            && q <= |JournaledOf(rounds)|
            && var ms := base + [input] + JournaledOf(rounds)[..q];
               && FoldEvents(base, JournalOf(input, runs)[..k]) == ms
               && (WellFormed(Sanitize(note, ms)) <==> Mended(Earlier(rounds, q)) && Fresh(Open(rounds, q), ms))
               && (WellFormed(Sanitize(note, ms)) ==> Sanitize(note, ms) == ms + Interruptions(note, Open(rounds, q)))
  {
    hide RunWithRetries, WellFormed, Sanitize, Mended, JournaledOf, RoundsOfTurn, FoldEvents, Interruptions, Fresh;
    hide Spoken, CoarseAll, EventsOf, AreAttempts;
    var runs := RunWithRetries(cfg, specs, compiles, ws, base, input, maxRetries).runs;
    var rounds, streamed := RoundsOf(runs), CoarseAll(EventsOf(runs));
    JournalAcrossRetries(cfg, specs, compiles, ws, base, input, maxRetries);
    q := CutOfTurn(base, input, streamed, k);
    TurnSpeaks(cfg, specs, compiles, ws, base, input, maxRetries);
    if q > 0 {
      RecoverRounds(note, base + [input], rounds, q);
    } else {
      NothingYet(note, base + [input], rounds);
    }
  }

  lemma CutOfTurn(base: seq<Message>, input: Message, streamed: seq<DomainEvent>, k: nat) returns (q: nat)
    requires 1 <= k <= 1 + |streamed|
    ensures q <= |Produced(streamed)|
    ensures FoldEvents(base, ([InputPersisted(input)] + streamed)[..k]) == base + [input] + Produced(streamed)[..q]
  {
    hide Produced;
    q := CutsArePrefixes(base + [input], streamed, k - 1);
    assert ([InputPersisted(input)] + streamed)[..k] == [InputPersisted(input)] + streamed[..k - 1];
    FoldConcat(base, [InputPersisted(input)], streamed[..k - 1]);
    assert [InputPersisted(input)][..0] == [];
  }

  lemma TurnSpeaks(
      cfg: Config, specs: seq<ToolSpec>, compiles: Json -> bool, ws: nat -> World,
      base: seq<Message>, input: Message, maxRetries: nat)
    ensures var runs := RunWithRetries(cfg, specs, compiles, ws, base, input, maxRetries).runs;
            && Produced(CoarseAll(EventsOf(runs))) == JournaledOf(RoundsOf(runs))
            && RoundsOfTurn(RoundsOf(runs))
  {
    hide RunWithRetries, Produced, CoarseAll, EventsOf, JournaledOf, RoundsOfTurn, AreAttempts;
    var runs := RunWithRetries(cfg, specs, compiles, ws, base, input, maxRetries).runs;
    JournalAcrossRetries(cfg, specs, compiles, ws, base, input, maxRetries);
    AttemptsSpeak(cfg, ws, base, input, runs, 0);
    TurnRounds(cfg, ws, base, input, runs, 0);
  }

  lemma NothingYet(note: string, prior: seq<Message>, rounds: seq<Round>)
    requires WellFormed(prior)
    ensures Sanitize(note, prior) == prior + Interruptions(note, Open(rounds, 0))
    ensures WellFormed(Sanitize(note, prior)) && Mended(Earlier(rounds, 0)) && Fresh(Open(rounds, 0), prior)
    ensures prior + JournaledOf(rounds)[..0] == prior
  {
    SanitizeIdle(note, prior);
    assert prior + [] == prior;
  }
}
