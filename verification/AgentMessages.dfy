/**
 The transcript of the agent engine and the view of it that a model request carries
 (agent-messages.ts), with the pairing law between tool calls and tool results.
 */
module AgentMessages {

  datatype StopReason = Stop | Length | ToolUse | Error | Aborted

  datatype ToolCall = ToolCall(id: string, name: string, arguments: string)

  datatype Part = Text(text: string) | Thinking(thinking: string) | Call(call: ToolCall)

  /** `key` stands for the identity of a message object that a client hands in. */
  datatype Message =
    | User(key: nat, body: seq<string>, excluded: bool)
    | Assistant(content: seq<Part>, stopReason: StopReason, excluded: bool)
    | ToolResult(toolCallId: string, toolName: string, output: seq<string>, isError: bool, excluded: bool)
    | Custom(key: nat, body: seq<string>, excluded: bool)
    | BranchSummary(key: nat, summary: string, excluded: bool)
    | CompactionSummary(key: nat, summary: string, excluded: bool)

  const BRANCH_SUMMARY_PREFIX :=
    "The following is a summary of a branch that this conversation came back from:\n\n<summary>\n"
  const BRANCH_SUMMARY_SUFFIX := "</summary>"
  const COMPACTION_SUMMARY_PREFIX :=
    "The conversation history before this point was compacted into the following summary:\n\n<summary>\n"
  const COMPACTION_SUMMARY_SUFFIX := "\n</summary>"

  /** A message a client may prompt, queue or follow up with. */
  predicate IsInput(m: Message) {
    !m.Assistant? && !m.ToolResult?
  }

  predicate Failed(m: Message) {
    m.Assistant? && (m.stopReason.Error? || m.stopReason.Aborted?)
  }

  function ToolCalls(content: seq<Part>): seq<ToolCall> {
    if content == [] then []
    else (if content[0].Call? then [content[0].call] else []) + ToolCalls(content[1..])
  }

  function CallIds(calls: seq<ToolCall>): (ids: seq<string>)
    ensures |ids| == |calls|
    ensures forall i :: 0 <= i < |calls| ==> ids[i] == calls[i].id
  {
    seq(|calls|, i requires 0 <= i < |calls| => calls[i].id)
  }

  /** The ids of the calls an assistant message makes. */
  function CallsOf(m: Message): seq<string> {
    if m.Assistant? then CallIds(ToolCalls(m.content)) else []
  }

  function ToLlm(m: Message): seq<Message> {
    if m.excluded then []
    else match m
      case Custom(key, body, _) => [User(key, body, false)]
      case BranchSummary(key, summary, _) =>
        [User(key, [BRANCH_SUMMARY_PREFIX + summary + BRANCH_SUMMARY_SUFFIX], false)]
      case CompactionSummary(key, summary, _) =>
        [User(key, [COMPACTION_SUMMARY_PREFIX + summary + COMPACTION_SUMMARY_SUFFIX], false)]
      case _ => [m]
  }

  function ConvertToLlm(messages: seq<Message>): seq<Message> {
    if messages == [] then [] else ToLlm(messages[0]) + ConvertToLlm(messages[1..])
  }

  lemma {:induction false} ConvertConcat(a: seq<Message>, b: seq<Message>)
    ensures ConvertToLlm(a + b) == ConvertToLlm(a) + ConvertToLlm(b)
  {
    if a == [] {
      assert a + b == b;
    } else {
      assert (a + b)[1..] == a[1..] + b;
      ConvertConcat(a[1..], b);
    }
  }

  lemma {:induction false} ConvertOne(m: Message)
    ensures ConvertToLlm([m]) == ToLlm(m)
  {
    assert [m][1..] == [];
  }

  /** No assistant message that failed is sent to the model. */
  ghost predicate FailuresHidden(messages: seq<Message>) {
    forall i :: 0 <= i < |messages| && Failed(messages[i]) ==> messages[i].excluded
  }

  lemma {:induction false} FailuresNeverSent(messages: seq<Message>)
    requires FailuresHidden(messages)
    ensures forall m :: m in ConvertToLlm(messages) ==> !Failed(m)
  {
    if messages != [] {
      assert messages[0].excluded || !Failed(messages[0]);
      forall i | 0 <= i < |messages[1..]| && Failed(messages[1..][i])
        ensures messages[1..][i].excluded
      {
        assert messages[1..][i] == messages[i + 1];
      }
      FailuresNeverSent(messages[1..]);
    }
  }

  // ---------------------------------------------------------------- pairing

  predicate HasAssistant(view: seq<Message>) {
    view != [] && (view[0].Assistant? || HasAssistant(view[1..]))
  }

  /** Ids of the tool results that stand before the first assistant message of `view`. */
  function ResultIds(view: seq<Message>): seq<string> {
    if view == [] || view[0].Assistant? then []
    else (if view[0].ToolResult? then [view[0].toolCallId] else []) + ResultIds(view[1..])
  }

  /** Between an assistant message and the next one stand exactly the results of its calls. */
  ghost predicate WellPaired(view: seq<Message>) {
    && ResultIds(view) == []
    && forall i :: 0 <= i < |view| && view[i].Assistant? ==> Answered(view, i)
  }

  ghost predicate Answered(view: seq<Message>, i: nat)
    requires i < |view|
  {
    multiset(ResultIds(view[i + 1..])) == multiset(CallsOf(view[i]))
  }

  lemma {:induction false} ResultIdsConcat(v: seq<Message>, w: seq<Message>)
    ensures ResultIds(v + w) == ResultIds(v) + (if HasAssistant(v) then [] else ResultIds(w))
  {
    if v == [] {
      assert v + w == w;
    } else if !v[0].Assistant? {
      var rest := if HasAssistant(v) then [] else ResultIds(w);
      assert (v + w)[1..] == v[1..] + w && (v + w)[0] == v[0];
      ResultIdsConcat(v[1..], w);
      Regroup(if v[0].ToolResult? then [v[0].toolCallId] else [], ResultIds(v[1..]), rest);
    }
  }

  lemma {:induction false} Regroup<T>(a: seq<T>, b: seq<T>, c: seq<T>)
    ensures a + (b + c) == (a + b) + c
  {
  }

  /** Appending `w` leaves every earlier assistant answered when `w` opens no results. */
  lemma {:induction false} AppendKeepsAnswered(v: seq<Message>, w: seq<Message>, i: nat)
    requires i < |v|
    requires ResultIds(w) == []
    ensures Answered(v + w, i) <==> Answered(v, i)
  {
    assert (v + w)[i + 1..] == v[i + 1..] + w;
    ResultIdsConcat(v[i + 1..], w);
  }

  /** Appending `w` keeps pairing, both ways, when `w` opens no results and its own assistants are answered. */
  lemma {:induction false} AppendPaired(v: seq<Message>, w: seq<Message>)
    requires ResultIds(w) == []
    requires forall i :: |v| <= i < |v + w| && (v + w)[i].Assistant? ==> Answered(v + w, i)
    ensures WellPaired(v + w) <==> WellPaired(v)
  {
    ResultIdsConcat(v, w);
    forall i | 0 <= i < |v|
      ensures (v + w)[i] == v[i] && (Answered(v + w, i) <==> Answered(v, i))
    {
      AppendKeepsAnswered(v, w, i);
    }
  }

  /** Anything but an assistant message or a tool result may stand at the end: it neither breaks nor repairs. */
  lemma {:induction false} AppendInput(v: seq<Message>, m: Message)
    requires IsInput(m)
    ensures WellPaired(v + [m]) <==> WellPaired(v)
  {
    assert ResultIds([m]) == [];
    AppendPaired(v, [m]);
  }

  predicate AllResults(w: seq<Message>) {
    forall i :: 0 <= i < |w| ==> w[i].ToolResult?
  }

  lemma {:induction false} ResultIdsOfResults(w: seq<Message>)
    requires AllResults(w)
    ensures |ResultIds(w)| == |w| && forall i :: 0 <= i < |w| ==> ResultIds(w)[i] == w[i].toolCallId
  {
    if w != [] {
      ResultIdsOfResults(w[1..]);
    }
  }

  lemma {:induction false} LastTurnAnswered(v: seq<Message>, turn: seq<Message>)
    requires turn != [] && turn[0].Assistant?
    requires multiset(ResultIds(turn[1..])) == multiset(CallsOf(turn[0]))
    ensures Answered(v + turn, |v|)
  {
    assert (v + turn)[|v| + 1..] == turn[1..];
  }

  /** So may a whole turn, an assistant message and the results of its calls in any order. */
  lemma {:induction false} AppendTurn(v: seq<Message>, turn: seq<Message>)
    requires turn != [] && turn[0].Assistant? && AllResults(turn[1..])
    requires multiset(ResultIds(turn[1..])) == multiset(CallsOf(turn[0]))
    ensures WellPaired(v + turn) <==> WellPaired(v)
  {
    forall i | |v| <= i < |v + turn| && (v + turn)[i].Assistant?
      ensures Answered(v + turn, i)
    {
      LastTurnAnswered(v, turn);
    }
    AppendPaired(v, turn);
  }

  /** A call left without its result breaks the pairing, whatever else is appended short of results. */
  lemma {:induction false} UnansweredCall(v: seq<Message>, a: Message, w: seq<Message>)
    requires a.Assistant? && CallsOf(a) != [] && ResultIds(w) == []
    ensures !WellPaired(v + [a] + w)
  {
    var view := v + [a] + w;
    var i := |v|;
    assert view[i] == a;
    assert view[i + 1..] == w;
    assert CallsOf(a)[0] in multiset(CallsOf(a));
    assert !Answered(view, i);
  }
}
