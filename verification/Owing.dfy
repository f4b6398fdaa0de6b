/**
  What a conversation still owes: read message by message, the calls that remain to be
  answered, or nothing sensible once a message did not fit. Well-formedness, the sanitizer,
  turns and their cuts are all told by it.
 */
module Owing {
  import opened Common
  import opened Conversation
  import opened AgentLoop
  import opened AgentRuns
  import opened AgentRecovery

  /** A result answers the first call owed; anything else comes when nothing is owed. */
  function Take(owed: Option<seq<Call>>, m: Message): Option<seq<Call>> {
    if owed.None? then None
    else if owed.value == [] then if m.role.Tool? then None else Some(CallsOf(m))
    else if Answers(m, owed.value[0].id) then Some(owed.value[1..])
    else None
  }

  function OwedAfter(owed: Option<seq<Call>>, ms: seq<Message>): Option<seq<Call>> {
    if ms == [] then owed else Take(OwedAfter(owed, ms[..|ms| - 1]), ms[|ms| - 1])
  }

  function Owed(ms: seq<Message>): Option<seq<Call>> {
    OwedAfter(Some([]), ms)
  }

  lemma {:induction false} OwedConcat(owed: Option<seq<Call>>, a: seq<Message>, b: seq<Message>)
    ensures OwedAfter(owed, a + b) == OwedAfter(OwedAfter(owed, a), b)
    decreases b
  {
    hide Take;
    if b == [] {
      assert a + b == a;
    } else {
      var n := |b| - 1;
      assert (a + b)[..|a + b| - 1] == a + b[..n] && (a + b)[|a + b| - 1] == b[n];
      OwedConcat(owed, a, b[..n]);
    }
  }

  lemma OwedOne(owed: Option<seq<Call>>, m: Message)
    ensures OwedAfter(owed, [m]) == Take(owed, m)
  {
    assert [m][..0] == [];
  }

  lemma {:induction false} NeverAgain(ms: seq<Message>)
    ensures OwedAfter(None, ms) == None
  {
    if ms != [] {
      NeverAgain(ms[..|ms| - 1]);
    }
  }

  /** Results, as long as any are owed: each has to answer its call. */
  lemma {:induction false} ResultsTaken(calls: seq<Call>, results: seq<Message>)
    requires |results| <= |calls|
    ensures OwedAfter(Some(calls), results) ==
            if AnswersInOrder(results, calls[..|results|]) then Some(calls[|results|..]) else None
    decreases results
  {
    hide Answers;
    if results == [] {
      assert calls[0..] == calls;
    } else {
      var n := |results| - 1;
      ResultsTaken(calls, results[..n]);
      var front := results[..n];
      if AnswersInOrder(front, calls[..n]) {
        assert calls[n..][0] == calls[n] && calls[n..][1..] == calls[n + 1..];
        forall i | 0 <= i < n ensures Answers(results[i], calls[i].id) {
          assert Answers(front[i], calls[..n][i].id);
        }
        assert results[n] == results[|results| - 1];
      } else if AnswersInOrder(results, calls[..|results|]) {
        forall i | 0 <= i < n ensures Answers(front[i], calls[..n][i].id) {
          assert Answers(results[i], calls[..|results|][i].id);
        }
        assert false;
      }
    }
  }

  /** A conversation is well formed exactly when every message fits and nothing is owed. */
  lemma {:induction false} WellFormedIffNothingOwed(ms: seq<Message>)
    ensures WellFormed(ms) <==> Owed(ms) == Some([])
    decreases |ms|
  {
    hide CallsOf, Answers;
    if ms != [] {
      var calls, rest := CallsOf(ms[0]), ms[1..];
      assert ms == [ms[0]] + rest;
      OwedConcat(Some([]), [ms[0]], rest);
      OwedOne(Some([]), ms[0]);
      if ms[0].role.Tool? {
        NeverAgain(rest);
      } else if |rest| < |calls| {
        ResultsTaken(calls, rest);
      } else {
        FirstTurnTaken(ms);
        WellFormedIffNothingOwed(ms[1 + |calls|..]);
      }
    }
  }

  lemma OpensIffAnswered(ms: seq<Message>)
    requires ms != [] && !ms[0].role.Tool? && |CallsOf(ms[0])| < |ms|
    ensures OpensWithTurn(ms) <==> AnswersInOrder(ms[1..1 + |CallsOf(ms[0])|], CallsOf(ms[0]))
  {
    hide CallsOf, Answers;
    var n := |CallsOf(ms[0])|;
    var results := ms[1..1 + n];
    assert forall i :: 0 <= i < n ==> results[i] == ms[i + 1];
    assert forall j :: 0 < j <= n ==> ms[j] == results[j - 1];
  }

  lemma FirstTurnTaken(ms: seq<Message>)
    requires ms != [] && !ms[0].role.Tool? && |CallsOf(ms[0])| < |ms|
    ensures Owed(ms) == if OpensWithTurn(ms) then Owed(ms[1 + |CallsOf(ms[0])|..]) else None
  {
    hide CallsOf, Answers;
    var calls := CallsOf(ms[0]);
    var n := |calls|;
    var results, rest := ms[1..1 + n], ms[1 + n..];
    assert ms == [ms[0]] + (results + rest);
    OwedConcat(Some([]), [ms[0]], results + rest);
    OwedOne(Some([]), ms[0]);
    OwedConcat(Some(calls), results, rest);
    ResultsTaken(calls, results);
    assert calls[..n] == calls && calls[n..] == [];
    OpensIffAnswered(ms);
    if !OpensWithTurn(ms) {
      NeverAgain(rest);
    }
  }

  /** When calls are owed, they are the last of those of the last reply, and the others are answered. */
  lemma {:induction false} OwedByLastReply(ms: seq<Message>)
    returns (front: seq<Message>, m: Message, done: seq<Message>)
    requires Owed(ms).Some? && Owed(ms).value != []
    ensures ms == front + ([m] + done) && WellFormed(front)
    ensures PartlyAnswered(m, done) && Owed(ms).value == CallsOf(m)[|done|..]
  {
    hide WellFormed, Answers;
    var n := |ms| - 1;
    var before := Owed(ms[..n]);
    assert ms == ms[..n] + [ms[n]];
    if before.value == [] {
      WellFormedIffNothingOwed(ms[..n]);
      front, m, done := ms[..n], ms[n], [];
      assert CallsOf(m)[0..] == CallsOf(m);
    } else {
      front, m, done := OwedByLastReply(ms[..n]);
      var calls, d := CallsOf(m), |done|;
      assert calls[d..][0] == calls[d] && calls[d..][1..] == calls[d + 1..];
      forall i | 0 <= i < d + 1 ensures Answers((done + [ms[n]])[i], calls[..d + 1][i].id) {
        if i < d {
          assert Answers(done[i], calls[..d][i].id);
        }
      }
      Assoc(front, [m] + done, [ms[n]]);
      Assoc([m], done, [ms[n]]);
      done := done + [ms[n]];
    }
  }

  /**
    Whatever the conversation: the sanitizer makes it well formed exactly when every message
    fits and no call owed has an id that is answered already; and then it adds one error
    result per call owed, in order.
   */
  lemma SanitizeMendsIff(note: string, ms: seq<Message>)
    ensures WellFormed(Sanitize(note, ms)) <==> Owed(ms).Some? && Fresh(Owed(ms).value, ms)
    ensures WellFormed(Sanitize(note, ms)) ==> Sanitize(note, ms) == ms + Interruptions(note, Owed(ms).value)
  {
    hide WellFormed, LastCalls, Unanswered, AnsweredIds, Fresh, CallsOf, PartlyAnswered, Owed;
    if Owed(ms).None? {
      NothingMends(note, ms);
    } else if Owed(ms).value == [] {
      WellFormedIffNothingOwed(ms);
      SanitizeIdle(note, ms);
      NoneFresh(ms);
      assert ms + [] == ms;
    } else {
      var front, m, done := OwedByLastReply(ms);
      SanitizeCompletesIff(note, front, m, done);
    }
  }

  lemma NoneFresh(ms: seq<Message>)
    ensures Fresh([], ms)
  {
  }

  lemma NothingMends(note: string, ms: seq<Message>)
    requires Owed(ms).None?
    ensures !WellFormed(Sanitize(note, ms))
  {
    hide WellFormed, LastCalls, Unanswered, AnsweredIds;
    var tail := Interruptions(note, Unanswered(LastCalls(ms), AnsweredIds(ms)));
    OwedConcat(Some([]), ms, tail);
    NeverAgain(tail);
    WellFormedIffNothingOwed(ms + tail);
  }

  /** A reply comes when nothing is owed, or never fits. */
  lemma ReplyTaken(front: seq<Message>, m: Message, done: seq<Message>)
    requires m.role.Assistant? && PartlyAnswered(m, done)
    ensures Owed(front + ([m] + done)) == if WellFormed(front) then Some(CallsOf(m)[|done|..]) else None
  {
    hide WellFormed, CallsOf;
    OwedConcat(Some([]), front, [m] + done);
    OwedConcat(Owed(front), [m], done);
    OwedOne(Owed(front), m);
    WellFormedIffNothingOwed(front);
    if WellFormed(front) {
      ResultsTaken(CallsOf(m), done);
    } else {
      NeverAgain(done);
    }
  }

  /**
    The first `q` messages of a turn's rounds, behind any conversation: they fit exactly when
    the conversation is well formed and no earlier round was nudged or rejected, and then the
    calls left open are owed.
   */
  lemma RoundsOwe(prior: seq<Message>, rounds: seq<Round>, q: nat)
    requires RoundsOfTurn(rounds) && 0 < q <= |JournaledOf(rounds)|
    ensures Owed(prior + JournaledOf(rounds)[..q]) ==
            if WellFormed(prior) && Mended(Earlier(rounds, q)) then Some(Open(rounds, q)) else None
  {
    hide WellFormed, JournaledOf, Journaled, RoundShape, Mended, GoingOn, AllShaped, CallsOf, Owed, AnswersInOrder;
    var m, j := Reached(rounds, q) - 1, Landed(rounds, q);
    LandedMeans(rounds, q);
    var r, earlier := rounds[m], JournaledOf(rounds[..m]);
    RoundAt(rounds, m);
    ShapedIsAssistant(r);
    LastRoundPartlyAnswered(r, j);
    var done := Journaled(r)[1..1 + j];
    Assoc(prior, earlier, [r.message] + done);
    EarlierGoOn(rounds, m + 1);
    JournaledWellFormedIff(prior, rounds[..m]);
    ReplyTaken(prior + earlier, r.message, done);
  }
}
