/** Messages, tool calls, and what makes a conversation acceptable to a provider. */
module Conversation {
  import opened Common

  datatype Role = User | Assistant | Tool

  datatype Part =
    | Text(text: string)
    | ToolCall(id: string, name: string, input: Json)
    | ToolResult(callId: string, output: string, isError: bool)
    | Thinking(thought: string, signature: Option<string>)

  datatype Message = Message(id: string, role: Role, parts: seq<Part>)

  datatype Call = Call(id: string, name: string, input: Json)

  /** The tool calls of a message, in order. */
  function Calls(parts: seq<Part>): seq<Call> {
    if parts == [] then []
    else
      (if parts[0].ToolCall? then [Call(parts[0].id, parts[0].name, parts[0].input)] else []) + Calls(parts[1..])
  }

  function CallsOf(m: Message): seq<Call> {
    if m.role.Assistant? then Calls(m.parts) else []
  }

  function ResultMessage(callId: string, output: string, isError: bool): Message {
    Message("result:" + callId, Tool, [ToolResult(callId, output, isError)])
  }

  function UserMessage(id: string, text: string): Message {
    Message(id, User, [Text(text)])
  }

  /** `m` is a tool message carrying the result of the call `id`, and nothing else. */
  predicate Answers(m: Message, id: string) {
    m.role.Tool? && |m.parts| == 1 && m.parts[0].ToolResult? && m.parts[0].callId == id
  }

  predicate AnswersInOrder(ms: seq<Message>, calls: seq<Call>) {
    |ms| == |calls| && forall i :: 0 <= i < |ms| ==> Answers(ms[i], calls[i].id)
  }

  /** A conversation opens with a message that is no result, followed by the results of its calls in order. */
  predicate OpensWithTurn(ms: seq<Message>) {
    && ms != []
    && !ms[0].role.Tool?
    && var calls := CallsOf(ms[0]);
       && |calls| < |ms|
       && forall j :: 0 < j <= |calls| ==> Answers(ms[j], calls[j - 1].id)
  }

  /**
    Every assistant message is followed by exactly one result per tool call, in call order,
    and results occur nowhere else.
   */
  predicate WellFormed(ms: seq<Message>)
    decreases |ms|
  {
    ms == [] || (OpensWithTurn(ms) && WellFormed(ms[1 + |CallsOf(ms[0])|..]))
  }

  lemma TurnInFront(a: seq<Message>, b: seq<Message>)
    requires OpensWithTurn(a)
    ensures OpensWithTurn(a + b)
    ensures var n := 1 + |CallsOf(a[0])|; (a + b)[n..] == a[n..] + b
  {
  }

  /** The grammar is deterministic: a well-formed front leaves the rest to decide. */
  lemma {:induction false} WellFormedFront(a: seq<Message>, b: seq<Message>)
    requires WellFormed(a)
    ensures WellFormed(a + b) <==> WellFormed(b)
    decreases |a|
  {
    if a == [] {
      assert a + b == b;
    } else {
      TurnInFront(a, b);
      WellFormedFront(a[1 + |CallsOf(a[0])|..], b);
    }
  }

  /** One assistant message with its results. */
  lemma WellFormedTurn(m: Message, results: seq<Message>)
    requires m.role.Assistant? && AnswersInOrder(results, CallsOf(m))
    ensures WellFormed([m] + results)
  {
    var ms := [m] + results;
    forall j | 0 < j <= |results| ensures Answers(ms[j], CallsOf(m)[j - 1].id) {
      assert ms[j] == results[j - 1];
    }
    assert ms[1 + |results|..] == [];
  }

  /** The message at `i` is followed by the results of its calls in order, and by no further result. */
  predicate AnsweredAt(ms: seq<Message>, i: nat)
    requires i < |ms|
  {
    var calls := CallsOf(ms[i]);
    && i + |calls| < |ms|
    && (forall j :: i < j <= i + |calls| ==> Answers(ms[j], calls[j - i - 1].id))
    && (i + |calls| + 1 < |ms| ==> !ms[i + |calls| + 1].role.Tool?)
  }

  lemma AnsweredAtStart(ms: seq<Message>)
    requires WellFormed(ms) && ms != []
    ensures AnsweredAt(ms, 0)
  {
    var n := |CallsOf(ms[0])|;
    if n + 1 < |ms| {
      assert ms[1 + n..][0] == ms[n + 1];
    }
  }

  lemma AnsweredAtShift(ms: seq<Message>, k: nat, i: nat)
    requires k <= |ms| && i < |ms| - k && AnsweredAt(ms[k..], i)
    ensures AnsweredAt(ms, k + i)
  {
    var calls := CallsOf(ms[k + i]);
    forall j | k + i < j <= k + i + |calls| ensures Answers(ms[j], calls[j - (k + i) - 1].id) {
      assert ms[k..][j - k] == ms[j];
    }
  }

  lemma ResultsAreToolMessages(ms: seq<Message>, n: nat, i: nat)
    requires n < i < |ms| && OpensWithTurn(ms[n..]) && i <= n + |CallsOf(ms[n])|
    ensures ms[i].role.Tool?
  {
    assert Answers(ms[n..][i - n], CallsOf(ms[n])[i - n - 1].id);
  }

  /** What the grammar means position by position. */
  lemma {:induction false} WellFormedMeans(ms: seq<Message>, n: nat, i: nat)
    requires n <= i < |ms| && WellFormed(ms[n..]) && !ms[i].role.Tool?
    ensures AnsweredAt(ms, i)
    decreases |ms| - n
  {
    var next := n + 1 + |CallsOf(ms[n])|;
    if i == n {
      AnsweredAtStart(ms[n..]);
      AnsweredAtShift(ms, n, 0);
    } else {
      if i < next {
        ResultsAreToolMessages(ms, n, i);
      }
      assert ms[n..][next - n..] == ms[next..];
      WellFormedMeans(ms, next, i);
    }
  }

  // ---- Which calls exist and which are answered -------------------------------------

  function CallIds(calls: seq<Call>): (r: seq<string>)
    ensures |r| == |calls|
    ensures forall i :: 0 <= i < |r| ==> r[i] == calls[i].id
  {
    seq(|calls|, i requires 0 <= i < |calls| => calls[i].id)
  }

  /** The ids of every tool call made, in order. */
  function AllCallIds(ms: seq<Message>): seq<string> {
    if ms == [] then [] else CallIds(CallsOf(ms[0])) + AllCallIds(ms[1..])
  }

  function PartResults(parts: seq<Part>): set<string> {
    set p | p in parts && p.ToolResult? :: p.callId
  }

  /** The ids that some result in the conversation answers. */
  function AnsweredIds(ms: seq<Message>): set<string> {
    if ms == [] then {} else PartResults(ms[0].parts) + AnsweredIds(ms[1..])
  }

  /** Results are carried by tool messages only. */
  predicate NoStrayResults(ms: seq<Message>) {
    forall m :: m in ms && !m.role.Tool? ==> PartResults(m.parts) == {}
  }

  predicate Distinct(ids: seq<string>) {
    forall i, j :: 0 <= i < j < |ids| ==> ids[i] != ids[j]
  }

  lemma {:induction false} AllCallIdsConcat(a: seq<Message>, b: seq<Message>)
    ensures AllCallIds(a + b) == AllCallIds(a) + AllCallIds(b)
  {
    if a == [] {
      assert a + b == b;
    } else {
      assert (a + b)[0] == a[0] && (a + b)[1..] == a[1..] + b;
      AllCallIdsConcat(a[1..], b);
      Assoc(CallIds(CallsOf(a[0])), AllCallIds(a[1..]), AllCallIds(b));
    }
  }

  lemma {:induction false} AnsweredIdsConcat(a: seq<Message>, b: seq<Message>)
    ensures AnsweredIds(a + b) == AnsweredIds(a) + AnsweredIds(b)
  {
    if a == [] {
      assert a + b == b;
    } else {
      assert (a + b)[1..] == a[1..] + b;
      AnsweredIdsConcat(a[1..], b);
    }
  }

  function IdSet(ids: seq<string>): set<string> {
    set x | x in ids
  }

  lemma ResultIds(m: Message, id: string)
    requires Answers(m, id)
    ensures PartResults(m.parts) == {id} && CallsOf(m) == []
  {
    assert m.parts == [m.parts[0]];
    assert m.parts[0] in m.parts;
  }

  lemma {:induction false} ResultsAnswer(ms: seq<Message>, calls: seq<Call>)
    requires AnswersInOrder(ms, calls)
    ensures AnsweredIds(ms) == IdSet(CallIds(calls)) && AllCallIds(ms) == []
  {
    if ms != [] {
      assert Answers(ms[0], calls[0].id);
      ResultIds(ms[0], calls[0].id);
      ResultsAnswer(ms[1..], calls[1..]);
      assert CallIds(calls) == [calls[0].id] + CallIds(calls[1..]);
    }
  }

  lemma OpeningResults(ms: seq<Message>)
    requires OpensWithTurn(ms)
    ensures AnswersInOrder(ms[1..1 + |CallsOf(ms[0])|], CallsOf(ms[0]))
  {
  }

  lemma TurnIds(m: Message, results: seq<Message>)
    requires AnswersInOrder(results, CallsOf(m)) && PartResults(m.parts) == {}
    ensures AnsweredIds([m] + results) == IdSet(CallIds(CallsOf(m)))
    ensures AllCallIds([m] + results) == CallIds(CallsOf(m))
  {
    assert ([m] + results)[1..] == results;
    ResultsAnswer(results, CallsOf(m));
    assert CallIds(CallsOf(m)) + [] == CallIds(CallsOf(m));
  }

  lemma IdSetConcat(x: seq<string>, y: seq<string>)
    ensures IdSet(x + y) == IdSet(x) + IdSet(y)
  {
  }

  /** In a well-formed conversation the answered ids are exactly the called ones. */
  lemma {:induction false} AnsweredAreCalled(ms: seq<Message>)
    requires WellFormed(ms) && NoStrayResults(ms)
    ensures AnsweredIds(ms) == IdSet(AllCallIds(ms))
    decreases |ms|
  {
    if ms != [] {
      var n := 1 + |CallsOf(ms[0])|;
      var turn, rest := [ms[0]] + ms[1..n], ms[n..];
      SplitAt(ms, n);
      assert ms[0] in ms;
      OpeningResults(ms);
      TurnIds(ms[0], ms[1..n]);
      AnsweredIdsConcat(turn, rest);
      AllCallIdsConcat(turn, rest);
      IdSetConcat(AllCallIds(turn), AllCallIds(rest));
      AnsweredAreCalled(rest);
    }
  }

  /** In a well-formed conversation every call is answered, whatever else carries results. */
  lemma {:induction false} CalledAreAnswered(ms: seq<Message>)
    requires WellFormed(ms)
    ensures IdSet(AllCallIds(ms)) <= AnsweredIds(ms)
    decreases |ms|
  {
    if ms != [] {
      var n := 1 + |CallsOf(ms[0])|;
      var results, rest := ms[1..n], ms[n..];
      SplitAt(ms, n);
      OpeningResults(ms);
      ResultsAnswer(results, CallsOf(ms[0]));
      AnsweredIdsConcat([ms[0]] + results, rest);
      AnsweredIdsConcat([ms[0]], results);
      AllCallIdsConcat([ms[0]] + results, rest);
      assert ([ms[0]] + results)[1..] == results;
      assert CallIds(CallsOf(ms[0])) + [] == CallIds(CallsOf(ms[0]));
      IdSetConcat(CallIds(CallsOf(ms[0])), AllCallIds(rest));
      CalledAreAnswered(rest);
    }
  }
}
