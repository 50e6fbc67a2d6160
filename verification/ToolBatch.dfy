/**
 Execution of the tool calls of one assistant message (agent-loop.ts), in sequential and in parallel mode.
 The answers of hooks, validation and tools are given per call and are otherwise arbitrary; in parallel
 mode the tool bodies advance in any interleaving.
 */
module ToolBatch {
  import opened Prelude
  import opened AgentMessages
  import opened AgentEvents
  import opened AgentEngine
  import opened Sorting

  datatype ToolOutput = ToolOutput(content: seq<string>, isError: bool)

  /** Lookup, argument validation and the before-hook. */
  datatype PrepAnswer = NotFound | Rejected(error: string) | Blocked(reason: string) | HookThrew(error: string) | Ready

  datatype ExecAnswer = Returned(result: ToolOutput) | ExecThrew(error: string)

  datatype AfterAnswer =
    | Unchanged
    | Adjusted(content: Option<seq<string>>, isError: Option<bool>)
    | AfterThrew

  datatype CallAnswers = CallAnswers(prep: PrepAnswer, exec: ExecAnswer, updates: nat, after: AfterAnswer)

  datatype Envelope = Envelope(index: nat, call: ToolCall, message: Message, previousPhase: Phase)

  function ErrorOutput(text: string): ToolOutput {
    ToolOutput([text], true)
  }

  function Seal(index: nat, call: ToolCall, output: ToolOutput, previousPhase: Phase): Envelope {
    Envelope(index, call, ToolResult(call.id, call.name, output.content, output.isError, false), previousPhase)
  }

  predicate Throws(a: CallAnswers) {
    a.prep.Ready? && a.after.AfterThrew?
  }

  function ExecOutput(exec: ExecAnswer): ToolOutput {
    match exec
    case Returned(result) => result
    case ExecThrew(error) => ErrorOutput(error)
  }

  function AfterHook(output: ToolOutput, after: AfterAnswer): ToolOutput {
    match after
    case Adjusted(content, isError) =>
      ToolOutput(if content.Some? then content.value else output.content,
                 if isError.Some? then isError.value else output.isError)
    case _ => output
  }

  /** The one outcome of a call whose after-hook does not throw. */
  function OutcomeOf(index: nat, call: ToolCall, a: CallAnswers): Envelope {
    match a.prep
    case NotFound => Seal(index, call, ErrorOutput("Tool " + call.name + " not found"), Classify)
    case Rejected(error) => Seal(index, call, ErrorOutput(error), Classify)
    case Blocked(reason) => Seal(index, call, ErrorOutput(reason), Authorize)
    case HookThrew(error) => Seal(index, call, ErrorOutput(error), Authorize)
    case Ready => Seal(index, call, AfterHook(ExecOutput(a.exec), a.after), Record)
  }

  /** One outcome per call, in call order. */
  function Outcomes(calls: seq<ToolCall>, answers: seq<CallAnswers>): (outcomes: seq<Envelope>)
    requires |calls| == |answers|
  {
    seq(|calls|, i requires 0 <= i < |calls| => OutcomeOf(i, calls[i], answers[i]))
  }

  /** Among the first `n` outcomes, the immediate ones or the executed ones. */
  function Pick(s: seq<Envelope>, n: nat, immediate: bool): seq<Envelope>
    requires n <= |s|
  {
    if n == 0 then []
    else Pick(s, n - 1, immediate)
         + (if Immediate(s[n - 1]) == immediate then [s[n - 1]] else [])
  }

  /** Immediate outcomes first, then executed ones, each in call order. */
  function StablePartition(s: seq<Envelope>): seq<Envelope> {
    Pick(s, |s|, true) + Pick(s, |s|, false)
  }

  predicate Immediate(e: Envelope) {
    e.previousPhase != Record
  }

  lemma {:induction false} PickOne(s: seq<Envelope>, n: nat)
    requires 0 < n <= |s|
    ensures Immediate(s[n - 1]) ==>
              Pick(s, n, true) == Pick(s, n - 1, true) + [s[n - 1]] && Pick(s, n, false) == Pick(s, n - 1, false)
    ensures !Immediate(s[n - 1]) ==>
              Pick(s, n, false) == Pick(s, n - 1, false) + [s[n - 1]] && Pick(s, n, true) == Pick(s, n - 1, true)
  {
  }

  /** How often `e` is among the first `n`, as an immediate or as an executed outcome. */
  function Tally(s: seq<Envelope>, n: nat, immediate: bool, e: Envelope): nat
    requires n <= |s|
  {
    if n == 0 then 0
    else Tally(s, n - 1, immediate, e) + if s[n - 1] == e && Immediate(e) == immediate then 1 else 0
  }

  lemma {:induction false} PickTally(s: seq<Envelope>, n: nat, immediate: bool, e: Envelope)
    requires n <= |s|
    ensures multiset(Pick(s, n, immediate))[e] == Tally(s, n, immediate, e)
  {
    if n > 0 {
      PickTally(s, n - 1, immediate, e);
      PushCount(Pick(s, n - 1, immediate), s[n - 1], e);
    }
  }

  lemma {:induction false} PrefixTally(s: seq<Envelope>, n: nat, e: Envelope)
    requires n <= |s|
    ensures multiset(s[..n])[e] == Tally(s, n, true, e) + Tally(s, n, false, e)
  {
    if n > 0 {
      PrefixTally(s, n - 1, e);
      TakeOneMore(s, n - 1);
      PushCount(s[..n - 1], s[n - 1], e);
    }
  }

  lemma {:induction false} PartitionIsPermutation(s: seq<Envelope>)
    ensures multiset(StablePartition(s)) == multiset(s)
  {
    assert s[..|s|] == s;
    forall e
      ensures multiset(StablePartition(s))[e] == multiset(s)[e]
    {
      PickTally(s, |s|, true, e);
      PickTally(s, |s|, false, e);
      PrefixTally(s, |s|, e);
    }
  }

  function ResultIdsOf(s: seq<Envelope>): (ids: seq<string>)
    ensures |ids| == |s| && forall i :: 0 <= i < |s| ==> ids[i] == s[i].call.id
  {
    seq(|s|, i requires 0 <= i < |s| => s[i].call.id)
  }

  /** Which calls are answered does not depend on the order of the outcomes. */
  lemma {:induction false} SameIds(a: seq<Envelope>, b: seq<Envelope>)
    requires multiset(a) == multiset(b)
    ensures multiset(ResultIdsOf(a)) == multiset(ResultIdsOf(b))
    decreases |a|
  {
    SameMembers(a, b);
    if a == [] {
      assert ResultIdsOf(a) == ResultIdsOf(b);
    } else {
      var i := SameHead(a, b);
      SameIds(a[1..], Remove(b, i));
      assert ResultIdsOf(a)[1..] == ResultIdsOf(a[1..]);
      assert Remove(ResultIdsOf(b), i) == ResultIdsOf(Remove(b, i));
      PutBack(ResultIdsOf(a), ResultIdsOf(b), i);
    }
  }

  /** The partition answers the same calls. */
  lemma {:induction false} PartitionAnswersSameCalls(s: seq<Envelope>)
    ensures multiset(ResultIdsOf(StablePartition(s))) == multiset(ResultIdsOf(s))
  {
    PartitionIsPermutation(s);
    SameIds(StablePartition(s), s);
  }

  /** No two envelopes belong to the same call. */
  ghost predicate Distinct(s: seq<Envelope>) {
    forall i, j :: 0 <= i < j < |s| ==> s[i].index != s[j].index
  }

  lemma {:induction false} PickFrom(s: seq<Envelope>, n: nat, immediate: bool)
    requires n <= |s| && Distinct(s)
    ensures Distinct(Pick(s, n, immediate))
    ensures forall e :: e in Pick(s, n, immediate) ==> e in s[..n] && Immediate(e) == immediate
  {
    if n > 0 {
      PickFrom(s, n - 1, immediate);
      assert s[..n] == s[..n - 1] + [s[n - 1]];
      assert forall e :: e in s[..n - 1] ==> e.index != s[n - 1].index;
    }
  }

  lemma {:induction false} PartitionDistinct(s: seq<Envelope>)
    requires Distinct(s)
    ensures Distinct(StablePartition(s))
  {
    var a, b := Pick(s, |s|, true), Pick(s, |s|, false);
    PickFrom(s, |s|, true);
    PickFrom(s, |s|, false);
    assert s[..|s|] == s;
    forall i, j | 0 <= i < |a| && 0 <= j < |b|
      ensures a[i].index != b[j].index
    {
      assert a[i] in s && b[j] in s;
    }
  }

  // ---------------------------------------------------------------- one call

  function PreparedPhase(prep: PrepAnswer): Phase {
    match prep
    case NotFound => Classify
    case Rejected(_) => Classify
    case Blocked(_) => Authorize
    case HookThrew(_) => Authorize
    case Ready => Prepare
  }

  /** A batch may run: the engine is inside a turn, and its calls have not been seen. */
  ghost predicate BatchReady(engine: Engine, base: nat, calls: nat)
    reads engine, engine.promptQueue, engine.followUpQueue
  {
    && engine.Valid() && (engine.books.stage.InTurn? || engine.books.stage.Torn?)
    && base + calls <= engine.nextRef
    && forall r :: r in engine.books.summary.phases ==> r < base
  }

  /** Earlier calls keep their phase; the calls with results stand at the phase their result names. */
  ghost predicate Standing(phases: map<nat, Phase>, before: map<nat, Phase>, base: nat, results: seq<Envelope>) {
    && (forall r :: 0 <= r < base ==> PhaseOf(phases, r) == PhaseOf(before, r))
    && forall j :: 0 <= j < |results| ==> PhaseOf(phases, base + results[j].index) == Some(results[j].previousPhase)
  }

  /** After-hooks have run, one of them throwing or not; no body was left behind. */
  ghost predicate HooksRan(before: Given, after: Given, threw: bool) {
    after.hook == (before.hook || threw) && after.loose == before.loose
  }

  method AnnounceCall(engine: Engine, ref: nat, call: ToolCall)
    requires engine.Valid() && (engine.books.stage.InTurn? || engine.books.stage.Torn?)
    requires ref < engine.nextRef && ref !in engine.books.summary.phases
    modifies engine, engine.promptQueue, engine.followUpQueue
    ensures engine.Valid() && engine.ToolSteady() && engine.books.given == old(engine.books.given)
    ensures engine.books.summary.phases == old(engine.books.summary.phases)[ref := Classify]
  {
    engine.Tell(ToolStart(ref, call));
    engine.Tell(PhaseChange(ref, Classify, None));
  }

  method MovePhase(engine: Engine, ref: nat, from: Phase, to: Phase, ghost before: map<nat, Phase>)
    requires engine.Valid() && (engine.books.stage.InTurn? || engine.books.stage.Torn?)
    requires ref < engine.nextRef && engine.books.summary.phases == before[ref := from] && PhaseMove(Some(from), to)
    modifies engine, engine.promptQueue, engine.followUpQueue
    ensures engine.Valid() && engine.ToolSteady() && engine.books.given == old(engine.books.given)
    ensures engine.books.summary.phases == before[ref := to]
  {
    engine.Tell(PhaseChange(ref, to, Some(from)));
    SetTwice(before, ref, from, to);
  }

  /** `prepareToolCall` and, for an immediate outcome, `buildToolCallOutcome`. */
  method PrepareCall(engine: Engine, ref: nat, call: ToolCall, a: CallAnswers)
    requires engine.Valid() && (engine.books.stage.InTurn? || engine.books.stage.Torn?)
    requires ref < engine.nextRef && ref !in engine.books.summary.phases
    modifies engine, engine.promptQueue, engine.followUpQueue
    ensures engine.Valid() && engine.ToolSteady() && engine.books.given == old(engine.books.given)
    ensures engine.books.summary.phases == old(engine.books.summary.phases)[ref := PreparedPhase(a.prep)]
  {
    ghost var phases := engine.books.summary.phases;
    AnnounceCall(engine, ref, call);
    if a.prep.NotFound? || a.prep.Rejected? {
      engine.Tell(ToolEnd(ref, true));
      return;
    }
    AuthorizeCall(engine, ref, a, phases);
  }

  /** A call that was found and whose arguments are valid: the before-hook lets it through or not. */
  method AuthorizeCall(engine: Engine, ref: nat, a: CallAnswers, ghost before: map<nat, Phase>)
    requires engine.Valid() && (engine.books.stage.InTurn? || engine.books.stage.Torn?)
    requires ref < engine.nextRef && engine.books.summary.phases == before[ref := Classify]
    requires !a.prep.NotFound? && !a.prep.Rejected?
    modifies engine, engine.promptQueue, engine.followUpQueue
    ensures engine.Valid() && engine.ToolSteady() && engine.books.given == old(engine.books.given)
    ensures engine.books.summary.phases == before[ref := PreparedPhase(a.prep)]
  {
    MovePhase(engine, ref, Classify, Authorize, before);
    if a.prep.Ready? {
      MovePhase(engine, ref, Authorize, Prepare, before);
    } else {
      engine.Tell(ToolEnd(ref, true));
    }
  }

  /** `finalizeExecutedToolCall`: record, the after-hook, and the end of the call unless the hook throws. */
  method FinalizeCall(engine: Engine, ref: nat, a: CallAnswers) returns (threw: bool)
    requires engine.Valid() && (engine.books.stage.InTurn? || engine.books.stage.Torn?)
    requires a.prep.Ready? && ref < engine.nextRef && PhaseOf(engine.books.summary.phases, ref) == Some(Execute)
    modifies engine, engine.promptQueue, engine.followUpQueue
    ensures engine.Valid() && engine.ToolSteady() && Begins(old(engine.books.trace), engine.books.trace)
    ensures threw == Throws(a)
    ensures engine.books.given == Noted(old(engine.books.given), HookRan(ref, threw))
    ensures engine.books.summary.phases == old(engine.books.summary.phases)[ref := Record]
  {
    RecordCall(engine, ref);
    threw := RunAfterHook(engine, ref, a);
    EndCall(engine, ref, a, threw);
  }

  /** The record event of a body that has finished. */
  method RecordCall(engine: Engine, ref: nat)
    requires engine.Valid() && (engine.books.stage.InTurn? || engine.books.stage.Torn?)
    requires ref < engine.nextRef && PhaseOf(engine.books.summary.phases, ref) == Some(Execute)
    modifies engine, engine.promptQueue, engine.followUpQueue
    ensures engine.Valid() && engine.ToolSteady() && engine.books.given == old(engine.books.given)
    ensures engine.books.trace == Then(old(engine.books.trace), PhaseChange(ref, Record, Some(Execute)))
    ensures engine.books.summary.phases == old(engine.books.summary.phases)[ref := Record]
  {
    engine.Tell(PhaseChange(ref, Record, Some(Execute)));
  }

  /** The after-hook returns or throws, and that is taken down. */
  method RunAfterHook(engine: Engine, ref: nat, a: CallAnswers) returns (threw: bool)
    requires engine.Valid() && a.prep.Ready?
    modifies engine`books
    ensures engine.Valid() && threw == Throws(a)
    ensures engine.books == old(engine.books).(given := Noted(old(engine.books.given), HookRan(ref, threw)))
  {
    threw := a.after.AfterThrew?;
    engine.Note(HookRan(ref, threw));
  }

  /** The end of the call, unless its after-hook has thrown. */
  method EndCall(engine: Engine, ref: nat, a: CallAnswers, threw: bool)
    requires engine.Valid() && (engine.books.stage.InTurn? || engine.books.stage.Torn?)
    modifies engine, engine.promptQueue, engine.followUpQueue
    ensures engine.Valid() && engine.ToolSteady() && engine.books.given == old(engine.books.given)
    ensures engine.books.trace
         == if threw then old(engine.books.trace)
            else Then(old(engine.books.trace), ToolEnd(ref, AfterHook(ExecOutput(a.exec), a.after).isError))
    ensures engine.books.summary.phases == old(engine.books.summary.phases)
  {
    if !threw {
      engine.Tell(ToolEnd(ref, AfterHook(ExecOutput(a.exec), a.after).isError));
    }
  }

  /** The first event of `executePreparedToolCall`, emitted before anything is awaited. */
  method StartBody(engine: Engine, ref: nat)
    requires engine.Valid() && (engine.books.stage.InTurn? || engine.books.stage.Torn?)
    requires ref < engine.nextRef && PhaseOf(engine.books.summary.phases, ref) == Some(Prepare)
    modifies engine, engine.promptQueue, engine.followUpQueue
    ensures engine.Valid() && engine.ToolSteady() && Begins(old(engine.books.trace), engine.books.trace)
    ensures engine.books.given == old(engine.books.given)
    ensures engine.books.summary.phases == old(engine.books.summary.phases)[ref := Execute]
  {
    engine.Tell(PhaseChange(ref, Execute, Some(Prepare)));
  }

  /** The tool calls back while its body runs. */
  method UpdateBody(engine: Engine, ref: nat)
    requires engine.Valid() && (engine.books.stage.InTurn? || engine.books.stage.Torn?)
    requires PhaseOf(engine.books.summary.phases, ref) == Some(Execute)
    modifies engine, engine.promptQueue, engine.followUpQueue
    ensures engine.Valid() && engine.ToolSteady() && Begins(old(engine.books.trace), engine.books.trace)
    ensures engine.books.given == old(engine.books.given)
    ensures engine.books.summary.phases == old(engine.books.summary.phases)
  {
    engine.Tell(ToolUpdate(ref));
  }

  // ---------------------------------------------------------------- sequential mode

  /** One call from start to end, with nothing else running. */
  method RunCall(engine: Engine, ref: nat, call: ToolCall, a: CallAnswers, index: nat) returns (threw: bool)
    requires engine.Valid() && (engine.books.stage.InTurn? || engine.books.stage.Torn?)
    requires ref < engine.nextRef && ref !in engine.books.summary.phases
    modifies engine, engine.promptQueue, engine.followUpQueue
    ensures engine.Valid() && engine.ToolSteady()
    ensures threw == Throws(a) && HooksRan(old(engine.books.given), engine.books.given, threw)
    ensures engine.books.summary.phases
         == old(engine.books.summary.phases)[ref := OutcomeOf(index, call, a).previousPhase]
  {
    ghost var before := engine.books.summary.phases;
    PrepareCall(engine, ref, call, a);
    if !a.prep.Ready? {
      return false;
    }
    threw := RunPrepared(engine, ref, a);
    SetTwice(before, ref, Prepare, Record);
    assert OutcomeOf(index, call, a).previousPhase == Record;
  }

  /** A prepared call runs: its body starts, calls back some times and is recorded. */
  method RunPrepared(engine: Engine, ref: nat, a: CallAnswers) returns (threw: bool)
    requires engine.Valid() && (engine.books.stage.InTurn? || engine.books.stage.Torn?)
    requires a.prep.Ready? && ref < engine.nextRef && PhaseOf(engine.books.summary.phases, ref) == Some(Prepare)
    modifies engine, engine.promptQueue, engine.followUpQueue
    ensures engine.Valid() && engine.ToolSteady()
    ensures threw == Throws(a) && HooksRan(old(engine.books.given), engine.books.given, threw)
    ensures engine.books.summary.phases == old(engine.books.summary.phases)[ref := Record]
  {
    ghost var before := engine.books.summary.phases;
    StartBody(engine, ref);
    UpdateSome(engine, ref, a.updates);
    threw := FinalizeCall(engine, ref, a);
    SetTwice(before, ref, Execute, Record);
  }

  method UpdateSome(engine: Engine, ref: nat, updates: nat)
    requires engine.Valid() && (engine.books.stage.InTurn? || engine.books.stage.Torn?)
    requires PhaseOf(engine.books.summary.phases, ref) == Some(Execute)
    modifies engine, engine.promptQueue, engine.followUpQueue
    ensures engine.Valid() && engine.ToolSteady() && engine.books.given == old(engine.books.given)
    ensures engine.books.summary.phases == old(engine.books.summary.phases)
  {
    var u := 0;
    while u < updates
      invariant engine.Valid() && engine.ToolSteady() && engine.books.given == old(engine.books.given)
      invariant engine.books.summary.phases == old(engine.books.summary.phases)
    {
      UpdateBody(engine, ref);
      u := u + 1;
    }
  }

  /** The first `n` calls have run, one after the other, and the others have not been seen. */
  ghost predicate RanInOrder(phases: map<nat, Phase>, before: map<nat, Phase>, base: nat,
                             calls: seq<ToolCall>, answers: seq<CallAnswers>, n: nat)
    requires n <= |calls| == |answers|
  {
    && Standing(phases, before, base, Outcomes(calls, answers)[..n])
    && (forall r :: r in phases ==> r < base + n)
    && (forall k :: 0 <= k < n ==> !Throws(answers[k]))
  }

  lemma {:induction false} RanOneMore(phases: map<nat, Phase>, before: map<nat, Phase>, base: nat,
                                      calls: seq<ToolCall>, answers: seq<CallAnswers>, n: nat)
    requires n < |calls| == |answers| && RanInOrder(phases, before, base, calls, answers, n)
    ensures base + n !in phases
    ensures !Throws(answers[n]) ==>
              RanInOrder(phases[base + n := OutcomeOf(n, calls[n], answers[n]).previousPhase], before, base,
                         calls, answers, n + 1)
  {
    TakeOneMore(Outcomes(calls, answers), n);
  }

  method ExecuteSequential(engine: Engine, calls: seq<ToolCall>, answers: seq<CallAnswers>, base: nat)
    returns (results: seq<Envelope>, threw: bool)
    requires |calls| == |answers| && BatchReady(engine, base, |calls|)
    modifies engine, engine.promptQueue, engine.followUpQueue
    ensures engine.Valid() && engine.ToolSteady()
    ensures threw <==> exists i :: 0 <= i < |calls| && Throws(answers[i])
    ensures HooksRan(old(engine.books.given), engine.books.given, threw)
    ensures !threw ==> results == Outcomes(calls, answers)
    ensures !threw ==> Standing(engine.books.summary.phases, old(engine.books.summary.phases), base, results)
  {
    ghost var before := engine.books.summary.phases;
    results, threw := [], false;
    var i := 0;
    while i < |calls|
      invariant i <= |calls| && engine.ToolSteady() && results == Outcomes(calls, answers)[..i]
      invariant HooksRan(old(engine.books.given), engine.books.given, false)
      invariant Running(engine, before, base, calls, answers, i)
    {
      threw := RunNext(engine, calls, answers, base, i, before);
      if threw {
        return;
      }
      TakeOneMore(Outcomes(calls, answers), i);
      results := results + [OutcomeOf(i, calls[i], answers[i])];
      i := i + 1;
    }
    assert Outcomes(calls, answers)[..i] == Outcomes(calls, answers);
  }

  /** The first `n` calls of a batch have run. */
  ghost predicate Running(engine: Engine, before: map<nat, Phase>, base: nat, calls: seq<ToolCall>,
                          answers: seq<CallAnswers>, n: nat)
    requires n <= |calls| == |answers|
    reads engine, engine.promptQueue, engine.followUpQueue
  {
    && engine.Valid() && (engine.books.stage.InTurn? || engine.books.stage.Torn?)
    && base + |calls| <= engine.nextRef
    && RanInOrder(engine.books.summary.phases, before, base, calls, answers, n)
  }

  /** The next call runs. */
  method RunNext(engine: Engine, calls: seq<ToolCall>, answers: seq<CallAnswers>, base: nat, i: nat,
                 ghost before: map<nat, Phase>)
    returns (threw: bool)
    requires i < |calls| == |answers| && Running(engine, before, base, calls, answers, i)
    modifies engine, engine.promptQueue, engine.followUpQueue
    ensures engine.Valid() && engine.ToolSteady() && threw == Throws(answers[i])
    ensures HooksRan(old(engine.books.given), engine.books.given, threw)
    ensures !threw ==> Running(engine, before, base, calls, answers, i + 1)
  {
    ghost var next := engine.books.summary.phases[base + i := OutcomeOf(i, calls[i], answers[i]).previousPhase];
    RanOneMore(engine.books.summary.phases, before, base, calls, answers, i);
    threw := RunCall(engine, base + i, calls[i], answers[i], i);
    assert engine.books.summary.phases == next;
  }

  // ---------------------------------------------------------------- parallel mode

  /** Among the first `n` calls, the positions of those that were prepared. */
  function Runnable(answers: seq<CallAnswers>, n: nat): (positions: seq<nat>)
    requires n <= |answers|
    ensures forall j :: 0 <= j < |positions| ==> positions[j] < n
  {
    if n == 0 then []
    else Runnable(answers, n - 1) + (if answers[n - 1].prep.Ready? then [n - 1] else [])
  }

  function Remaining(left: seq<nat>): nat {
    if left == [] then 0 else Remaining(Front(left)) + Last(left)
  }

  lemma {:induction false} RemainingDrops(left: seq<nat>, j: nat)
    requires j < |left| && left[j] > 0
    ensures Remaining(left[j := left[j] - 1]) == Remaining(left) - 1
  {
    var left' := left[j := left[j] - 1];
    if j == |left| - 1 {
      assert Front(left') == Front(left);
    } else {
      assert Front(left') == Front(left)[j := left[j] - 1];
      RemainingDrops(Front(left), j);
    }
  }

  ghost predicate Ascending(positions: seq<nat>, answers: seq<CallAnswers>, n: nat)
    requires n <= |answers|
  {
    && (forall j :: 0 <= j < |positions| ==> positions[j] < n && answers[positions[j]].prep.Ready?)
    && (forall i, j :: 0 <= i < j < |positions| ==> positions[i] < positions[j])
  }

  /** The runnable positions are the prepared calls, in call order. */
  ghost predicate InCallOrder(positions: seq<nat>, answers: seq<CallAnswers>, n: nat)
    requires n <= |answers|
  {
    && Ascending(positions, answers, n)
    && (forall i :: 0 <= i < n && answers[i].prep.Ready? ==> i in positions)
  }

  lemma {:induction false} RunnableAscends(answers: seq<CallAnswers>, n: nat)
    requires n <= |answers|
    ensures Ascending(Runnable(answers, n), answers, n)
  {
    if n > 0 {
      RunnableAscends(answers, n - 1);
    }
  }

  lemma {:induction false} RunnableHas(answers: seq<CallAnswers>, n: nat, i: nat)
    requires i < n <= |answers| && answers[i].prep.Ready?
    ensures i in Runnable(answers, n)
  {
    var before := Runnable(answers, n - 1);
    if i < n - 1 {
      RunnableHas(answers, n - 1, i);
      var j :| 0 <= j < |before| && before[j] == i;
      assert Runnable(answers, n)[j] == i;
    } else {
      assert Runnable(answers, n)[|before|] == i;
    }
  }

  lemma {:induction false} RunnableInOrder(answers: seq<CallAnswers>, n: nat)
    requires n <= |answers|
    ensures InCallOrder(Runnable(answers, n), answers, n)
  {
    RunnableAscends(answers, n);
    forall i | 0 <= i < n && answers[i].prep.Ready?
      ensures i in Runnable(answers, n)
    {
      RunnableHas(answers, n, i);
    }
  }

  /** The executed outcomes are those of the runnable calls, in order. */
  lemma {:induction false} PickSplits(calls: seq<ToolCall>, answers: seq<CallAnswers>, n: nat)
    requires |calls| == |answers| && n <= |calls|
    ensures |Pick(Outcomes(calls, answers), n, false)| == |Runnable(answers, n)|
    ensures forall k :: 0 <= k < |Runnable(answers, n)| ==>
              var i := Runnable(answers, n)[k];
              Pick(Outcomes(calls, answers), n, false)[k] == OutcomeOf(i, calls[i], answers[i])
  {
    if n > 0 {
      PickSplits(calls, answers, n - 1);
      PickOne(Outcomes(calls, answers), n);
    }
  }

  lemma {:induction false} PrepareStep(calls: seq<ToolCall>, answers: seq<CallAnswers>, i: nat)
    requires |calls| == |answers| && i < |calls|
    ensures Pick(Outcomes(calls, answers), i + 1, true)
         == if answers[i].prep.Ready? then Pick(Outcomes(calls, answers), i, true)
            else Pick(Outcomes(calls, answers), i, true) + [OutcomeOf(i, calls[i], answers[i])]
    ensures Runnable(answers, i + 1)
         == if answers[i].prep.Ready? then Runnable(answers, i) + [i] else Runnable(answers, i)
  {
  }

  /** Every call of the batch has been through its preparation. */
  ghost predicate Prepared(phases: map<nat, Phase>, before: map<nat, Phase>, base: nat,
                           answers: seq<CallAnswers>, n: nat)
    requires n <= |answers|
  {
    && (forall r :: 0 <= r < base ==> PhaseOf(phases, r) == PhaseOf(before, r))
    && (forall i :: 0 <= i < n ==> PhaseOf(phases, base + i) == Some(PreparedPhase(answers[i].prep)))
    && forall r :: r in phases ==> r < base + n
  }

  lemma {:induction false} PreparedStep(phases: map<nat, Phase>, before: map<nat, Phase>, base: nat,
                                        answers: seq<CallAnswers>, i: nat)
    requires i < |answers| && Prepared(phases, before, base, answers, i)
    ensures Prepared(phases[base + i := PreparedPhase(answers[i].prep)], before, base, answers, i + 1)
    ensures base + i !in phases
  {
  }

  /** The batch is being prepared: the first `n` calls are, the others have not been seen. */
  ghost predicate Preparing(engine: Engine, base: nat, answers: seq<CallAnswers>, n: nat, before: map<nat, Phase>,
                            given: Given)
    requires n <= |answers|
    reads engine, engine.promptQueue, engine.followUpQueue
  {
    && engine.Valid() && (engine.books.stage.InTurn? || engine.books.stage.Torn?)
    && base + |answers| <= engine.nextRef && engine.books.given == given
    && Prepared(engine.books.summary.phases, before, base, answers, n)
  }

  /** The next call is prepared. */
  method PrepareNext(engine: Engine, calls: seq<ToolCall>, answers: seq<CallAnswers>, base: nat, i: nat,
                     ghost before: map<nat, Phase>, ghost given: Given)
    requires i < |calls| == |answers| && Preparing(engine, base, answers, i, before, given)
    modifies engine, engine.promptQueue, engine.followUpQueue
    ensures Preparing(engine, base, answers, i + 1, before, given) && engine.ToolSteady()
  {
    ghost var next := engine.books.summary.phases[base + i := PreparedPhase(answers[i].prep)];
    PreparedStep(engine.books.summary.phases, before, base, answers, i);
    PrepareCall(engine, base + i, calls[i], answers[i]);
    assert engine.books.summary.phases == next;
  }

  /** The first loop of `executeToolCallsParallel`: prepare every call, keep the immediate outcomes. */
  method PrepareAll(engine: Engine, calls: seq<ToolCall>, answers: seq<CallAnswers>, base: nat)
    returns (immediate: seq<Envelope>, runnable: seq<nat>)
    requires |calls| == |answers|
    requires PreparedSplit(engine, base, calls, answers, 0, engine.books.summary.phases, engine.books.given, [], [])
    modifies engine, engine.promptQueue, engine.followUpQueue
    ensures PreparedSplit(engine, base, calls, answers, |calls|, old(engine.books.summary.phases),
                          old(engine.books.given), immediate, runnable)
    ensures engine.ToolSteady()
  {
    ghost var before, given := engine.books.summary.phases, engine.books.given;
    immediate, runnable := [], [];
    var i := 0;
    while i < |calls|
      invariant i <= |calls| && engine.ToolSteady()
      invariant PreparedSplit(engine, base, calls, answers, i, before, given, immediate, runnable)
    {
      immediate, runnable := PrepareAndAssign(engine, calls, answers, base, i, before, given, immediate, runnable);
      i := i + 1;
    }
  }

  lemma {:induction false} PreparedStart(phases: map<nat, Phase>, base: nat, calls: seq<ToolCall>,
                                         answers: seq<CallAnswers>)
    requires |calls| == |answers| && forall r :: r in phases ==> r < base
    ensures Prepared(phases, phases, base, answers, 0) && SplitSoFar([], [], calls, answers, 0)
  {
  }

  ghost predicate PreparedSplit(engine: Engine, base: nat, calls: seq<ToolCall>, answers: seq<CallAnswers>, n: nat,
                                before: map<nat, Phase>, given: Given, immediate: seq<Envelope>, runnable: seq<nat>)
    requires n <= |calls| == |answers|
    reads engine, engine.promptQueue, engine.followUpQueue
  {
    Preparing(engine, base, answers, n, before, given) && SplitSoFar(immediate, runnable, calls, answers, n)
  }

  method PrepareAndAssign(engine: Engine, calls: seq<ToolCall>, answers: seq<CallAnswers>, base: nat, i: nat,
                          ghost before: map<nat, Phase>, ghost given: Given, immediate0: seq<Envelope>,
                          runnable0: seq<nat>)
    returns (immediate: seq<Envelope>, runnable: seq<nat>)
    requires i < |calls| == |answers|
    requires PreparedSplit(engine, base, calls, answers, i, before, given, immediate0, runnable0)
    modifies engine, engine.promptQueue, engine.followUpQueue
    ensures PreparedSplit(engine, base, calls, answers, i + 1, before, given, immediate, runnable)
    ensures engine.ToolSteady()
  {
    immediate, runnable := Assign(immediate0, runnable0, calls, answers, i);
    PrepareNext(engine, calls, answers, base, i, before, given);
  }

  /** Of the first `n` calls, those with immediate outcomes and those to run. */
  ghost predicate SplitSoFar(immediate: seq<Envelope>, runnable: seq<nat>, calls: seq<ToolCall>,
                             answers: seq<CallAnswers>, n: nat)
    requires n <= |calls| == |answers|
  {
    immediate == Pick(Outcomes(calls, answers), n, true) && runnable == Runnable(answers, n)
  }

  method Assign(immediate0: seq<Envelope>, runnable0: seq<nat>, calls: seq<ToolCall>, answers: seq<CallAnswers>, i: nat)
    returns (immediate: seq<Envelope>, runnable: seq<nat>)
    requires i < |calls| == |answers| && SplitSoFar(immediate0, runnable0, calls, answers, i)
    ensures SplitSoFar(immediate, runnable, calls, answers, i + 1)
  {
    PrepareStep(calls, answers, i);
    if answers[i].prep.Ready? {
      immediate, runnable := immediate0, runnable0 + [i];
    } else {
      immediate, runnable := immediate0 + [OutcomeOf(i, calls[i], answers[i])], runnable0;
    }
  }

  /** Where the bodies stand: the first `k` of them are at `done`, the others at `open`. */
  ghost predicate Bodies(phases: map<nat, Phase>, base: nat, runnable: seq<nat>, k: nat, done: Phase, open: Phase) {
    forall j :: 0 <= j < |runnable| ==>
      PhaseOf(phases, base + runnable[j]) == Some(if j < k then done else open)
  }

  /** Phases outside the running bodies do not move. */
  ghost predicate OthersKept(phases: map<nat, Phase>, before: map<nat, Phase>, base: nat, runnable: seq<nat>) {
    && (forall r :: 0 <= r < base ==> PhaseOf(phases, r) == PhaseOf(before, r))
    && (forall i: nat :: i !in runnable ==> PhaseOf(phases, base + i) == PhaseOf(before, base + i))
  }

  lemma {:induction false} BodiesStep(phases: map<nat, Phase>, before: map<nat, Phase>, base: nat,
                                      answers: seq<CallAnswers>,
                                      runnable: seq<nat>, k: nat, done: Phase, open: Phase)
    requires InCallOrder(runnable, answers, |answers|) && k < |runnable|
    requires Bodies(phases, base, runnable, k, done, open) && OthersKept(phases, before, base, runnable)
    ensures Bodies(phases[base + runnable[k] := done], base, runnable, k + 1, done, open)
    ensures OthersKept(phases[base + runnable[k] := done], before, base, runnable)
  {
    assert runnable[k] in runnable;
  }

  /** All bodies are started, in call order, before any of them is awaited. */
  method StartBodies(engine: Engine, answers: seq<CallAnswers>, base: nat, runnable: seq<nat>)
    requires engine.Valid() && (engine.books.stage.InTurn? || engine.books.stage.Torn?)
    requires base + |answers| <= engine.nextRef && InCallOrder(runnable, answers, |answers|)
    requires Bodies(engine.books.summary.phases, base, runnable, 0, Execute, Prepare)
    modifies engine, engine.promptQueue, engine.followUpQueue
    ensures engine.Valid() && engine.ToolSteady() && Begins(old(engine.books.trace), engine.books.trace)
    ensures engine.books.given == old(engine.books.given)
    ensures Bodies(engine.books.summary.phases, base, runnable, |runnable|, Execute, Prepare)
    ensures OthersKept(engine.books.summary.phases, old(engine.books.summary.phases), base, runnable)
  {
    ghost var before := engine.books.summary.phases;
    var k := 0;
    while k < |runnable|
      invariant k <= |runnable| && engine.Valid() && engine.ToolSteady()
      invariant Begins(old(engine.books.trace), engine.books.trace) && engine.books.given == old(engine.books.given)
      invariant Bodies(engine.books.summary.phases, base, runnable, k, Execute, Prepare)
      invariant OthersKept(engine.books.summary.phases, before, base, runnable)
    {
      ghost var here := engine.books.trace;
      BodiesStep(engine.books.summary.phases, before, base, answers, runnable, k, Execute, Prepare);
      StartBody(engine, base + runnable[k]);
      BeginsTransitive(old(engine.books.trace), here, engine.books.trace);
      k := k + 1;
    }
  }

  /** The updates each body will still make; the bodies recorded so far make none. */
  ghost predicate Idle(left: seq<nat>, runnable: seq<nat>, k: nat) {
    |left| == |runnable| && forall j :: 0 <= j < |left| && j < k ==> left[j] == 0
  }

  /** The running bodies call back in any order: some of them, and on until body `target` has finished. */
  method Interleave(engine: Engine, base: nat, runnable: seq<nat>, left0: seq<nat>, ghost k: nat, target: nat)
    returns (left: seq<nat>)
    requires engine.Valid() && (engine.books.stage.InTurn? || engine.books.stage.Torn?)
    requires Idle(left0, runnable, k) && Bodies(engine.books.summary.phases, base, runnable, k, Record, Execute)
    modifies engine, engine.promptQueue, engine.followUpQueue
    ensures engine.Valid() && engine.ToolSteady() && Begins(old(engine.books.trace), engine.books.trace)
    ensures engine.books.given == old(engine.books.given)
    ensures engine.books.summary.phases == old(engine.books.summary.phases)
    ensures Idle(left, runnable, k) && (target < |runnable| ==> left[target] == 0)
  {
    left := left0;
    var steps: nat := *;
    while exists j :: 0 <= j < |left| && left[j] > 0 && (steps > 0 || (target < |left| && left[target] > 0))
      invariant engine.Valid() && engine.ToolSteady() && Begins(old(engine.books.trace), engine.books.trace)
      invariant engine.books.given == old(engine.books.given)
      invariant engine.books.summary.phases == old(engine.books.summary.phases)
      invariant Idle(left, runnable, k)
      decreases Remaining(left)
    {
      var j :| 0 <= j < |left| && left[j] > 0;
      ghost var here := engine.books.trace;
      UpdateBody(engine, base + runnable[j]);
      BeginsTransitive(old(engine.books.trace), here, engine.books.trace);
      RemainingDrops(left, j);
      left := left[j := left[j] - 1];
      steps := if steps > 0 then steps - 1 else 0;
    }
  }

  /** The bodies are running: the first `k` are recorded, `left` updates are still to come. */
  ghost predicate BodiesRun(engine: Engine, base: nat, answers: seq<CallAnswers>, runnable: seq<nat>, left: seq<nat>,
                            k: nat,
                            before: map<nat, Phase>)
    reads engine, engine.promptQueue, engine.followUpQueue
  {
    && engine.Valid() && (engine.books.stage.InTurn? || engine.books.stage.Torn?)
    && base + |answers| <= engine.nextRef && Idle(left, runnable, k)
    && Bodies(engine.books.summary.phases, base, runnable, k, Record, Execute)
    && OthersKept(engine.books.summary.phases, before, base, runnable)
  }

  /** Await body `k`, then record and end it; the others go on all the while. */
  method RunBody(engine: Engine, answers: seq<CallAnswers>, base: nat, runnable: seq<nat>, left0: seq<nat>, k: nat,
                 ghost before: map<nat, Phase>)
    returns (left: seq<nat>, threw: bool)
    requires InCallOrder(runnable, answers, |answers|) && k < |runnable|
    requires BodiesRun(engine, base, answers, runnable, left0, k, before)
    modifies engine, engine.promptQueue, engine.followUpQueue
    ensures BodiesRun(engine, base, answers, runnable, left, k + 1, before)
    ensures engine.ToolSteady() && Begins(old(engine.books.trace), engine.books.trace)
    ensures threw == Throws(answers[runnable[k]])
    ensures HooksRan(old(engine.books.given), engine.books.given, threw)
  {
    left := Interleave(engine, base, runnable, left0, k, k);
    ghost var awaited := engine.books.trace;
    BodiesStep(engine.books.summary.phases, before, base, answers, runnable, k, Record, Execute);
    RecordCall(engine, base + runnable[k]);
    BeginsTransitive(old(engine.books.trace), awaited, engine.books.trace);
    ghost var recorded := engine.books.trace;
    left, threw := SettleBody(engine, answers, base, runnable, left, k);
    BeginsTransitive(old(engine.books.trace), recorded, engine.books.trace);
  }

  /** The after-hook and the end of a recorded body; the others call back before, between and after. */
  method SettleBody(engine: Engine, answers: seq<CallAnswers>, base: nat, runnable: seq<nat>, left0: seq<nat>, k: nat)
    returns (left: seq<nat>, threw: bool)
    requires InCallOrder(runnable, answers, |answers|) && k < |runnable|
    requires engine.Valid() && (engine.books.stage.InTurn? || engine.books.stage.Torn?)
    requires Idle(left0, runnable, k + 1) && Bodies(engine.books.summary.phases, base, runnable, k + 1, Record, Execute)
    modifies engine, engine.promptQueue, engine.followUpQueue
    ensures engine.Valid() && engine.ToolSteady() && Begins(old(engine.books.trace), engine.books.trace)
    ensures engine.books.summary.phases == old(engine.books.summary.phases) && Idle(left, runnable, k + 1)
    ensures threw == Throws(answers[runnable[k]])
    ensures HooksRan(old(engine.books.given), engine.books.given, threw)
  {
    left := Interleave(engine, base, runnable, left0, k + 1, |runnable|);
    threw := RunAfterHook(engine, base + runnable[k], answers[runnable[k]]);
    ghost var ran := engine.books.trace;
    left := EndBody(engine, answers, base, runnable, left, k, threw);
    BeginsTransitive(old(engine.books.trace), ran, engine.books.trace);
  }

  method EndBody(engine: Engine, answers: seq<CallAnswers>, base: nat, runnable: seq<nat>, left0: seq<nat>, k: nat,
                 threw: bool)
    returns (left: seq<nat>)
    requires InCallOrder(runnable, answers, |answers|) && k < |runnable|
    requires engine.Valid() && (engine.books.stage.InTurn? || engine.books.stage.Torn?)
    requires Idle(left0, runnable, k + 1) && Bodies(engine.books.summary.phases, base, runnable, k + 1, Record, Execute)
    modifies engine, engine.promptQueue, engine.followUpQueue
    ensures engine.Valid() && engine.ToolSteady() && Begins(old(engine.books.trace), engine.books.trace)
    ensures engine.books.summary.phases == old(engine.books.summary.phases) && Idle(left, runnable, k + 1)
    ensures engine.books.given == old(engine.books.given)
  {
    left := Interleave(engine, base, runnable, left0, k + 1, |runnable|);
    EndCall(engine, base + runnable[k], answers[runnable[k]], threw);
    ghost var ended := engine.books.trace;
    left := Interleave(engine, base, runnable, left, k + 1, |runnable|);
    BeginsTransitive(old(engine.books.trace), ended, engine.books.trace);
  }

  /** The calls whose bodies are left behind: prepared, after a call whose after-hook throws. */
  ghost function LeftBehind(answers: seq<CallAnswers>, base: nat): set<nat> {
    set i | 0 <= i < |answers| && answers[i].prep.Ready? && (exists k :: 0 <= k < i && Throws(answers[k])) :: base + i
  }

  ghost predicate NoneThrows(answers: seq<CallAnswers>, runnable: seq<nat>, k: nat) {
    forall j :: 0 <= j < k && j < |runnable| && runnable[j] < |answers| ==> !Throws(answers[runnable[j]])
  }

  /** If no runnable call before the `k`-th throws, a call that throws is the `k`-th runnable one or comes later. */
  lemma {:induction false} FirstThrower(answers: seq<CallAnswers>, runnable: seq<nat>, k: nat, t: nat)
    requires InCallOrder(runnable, answers, |answers|) && NoneThrows(answers, runnable, k)
    requires k <= |runnable| && t < |answers| && Throws(answers[t])
    ensures k < |runnable| && runnable[k] <= t
  {
    assert t in runnable;
    var j :| 0 <= j < |runnable| && runnable[j] == t;
    assert j >= k;
  }

  lemma {:induction false} NoThrower(answers: seq<CallAnswers>, runnable: seq<nat>, t: nat)
    requires InCallOrder(runnable, answers, |answers|) && NoneThrows(answers, runnable, |runnable|) && t < |answers|
    ensures !Throws(answers[t])
  {
    if answers[t].prep.Ready? {
      assert t in runnable;
      var j :| 0 <= j < |runnable| && runnable[j] == t;
      assert !Throws(answers[runnable[j]]);
    }
  }

  lemma {:induction false} LeftAreRunnable(answers: seq<CallAnswers>, base: nat, runnable: seq<nat>, k: nat, r: nat)
    requires InCallOrder(runnable, answers, |answers|) && NoneThrows(answers, runnable, k) && k < |runnable|
    requires r in LeftBehind(answers, base)
    ensures exists j :: k < j < |runnable| && r == base + runnable[j]
  {
    var i :| 0 <= i < |answers| && answers[i].prep.Ready? && (exists t :: 0 <= t < i && Throws(answers[t]))
      && r == base + i;
    var t :| 0 <= t < i && Throws(answers[t]);
    FirstThrower(answers, runnable, k, t);
    assert i in runnable;
    var j :| 0 <= j < |runnable| && runnable[j] == i;
    assert j > k;
  }

  lemma {:induction false} NoneLeft(answers: seq<CallAnswers>, base: nat)
    requires forall i :: 0 <= i < |answers| ==> !Throws(answers[i])
    ensures LeftBehind(answers, base) == {}
  {
  }

  ghost predicate AllRecorded(phases: map<nat, Phase>, base: nat, runnable: seq<nat>) {
    forall i :: i in runnable ==> PhaseOf(phases, base + i) == Some(Record)
  }

  function InitialUpdates(answers: seq<CallAnswers>, runnable: seq<nat>): seq<nat>
    requires forall j :: 0 <= j < |runnable| ==> runnable[j] < |answers|
  {
    seq(|runnable|, j requires 0 <= j < |runnable| => answers[runnable[j]].updates)
  }

  /** The bodies left behind have started and were never recorded. */
  ghost predicate StillOpen(phases: map<nat, Phase>, refs: set<nat>) {
    forall r :: r in refs ==> PhaseOf(phases, r) == Some(Execute)
  }

  /** The bodies are awaited and recorded in call order, up to the first after-hook that throws. */
  method AwaitBodies(engine: Engine, calls: seq<ToolCall>, answers: seq<CallAnswers>, base: nat, runnable: seq<nat>)
    returns (executed: seq<Envelope>, threw: bool)
    requires |calls| == |answers| && runnable == Runnable(answers, |answers|)
    requires InCallOrder(runnable, answers, |answers|)
    requires engine.Valid() && (engine.books.stage.InTurn? || engine.books.stage.Torn?)
    requires base + |answers| <= engine.nextRef
    requires Bodies(engine.books.summary.phases, base, runnable, 0, Record, Execute)
    modifies engine, engine.promptQueue, engine.followUpQueue
    ensures engine.Valid() && engine.ToolSteady() && Begins(old(engine.books.trace), engine.books.trace)
    ensures threw <==> exists i :: 0 <= i < |calls| && Throws(answers[i])
    ensures HooksRan(old(engine.books.given), engine.books.given, threw)
    ensures !threw ==> executed == Pick(Outcomes(calls, answers), |calls|, false)
    ensures OthersKept(engine.books.summary.phases, old(engine.books.summary.phases), base, runnable)
    ensures !threw ==> AllRecorded(engine.books.summary.phases, base, runnable)
    ensures threw ==> StillOpen(engine.books.summary.phases, LeftBehind(answers, base))
  {
    ghost var before := engine.books.summary.phases;
    PickSplits(calls, answers, |calls|);
    var left := InitialUpdates(answers, runnable);
    executed, threw := [], false;
    var k := 0;
    while k < |runnable|
      invariant k <= |runnable| && engine.ToolSteady() && Begins(old(engine.books.trace), engine.books.trace)
      invariant HooksRan(old(engine.books.given), engine.books.given, false)
      invariant BodiesRun(engine, base, answers, runnable, left, k, before)
      invariant ExecutedSoFar(executed, calls, answers, runnable, k)
    {
      ghost var here := engine.books.trace;
      ExecutedStep(executed, calls, answers, runnable, k);
      left, threw := RunBody(engine, answers, base, runnable, left, k, before);
      BeginsTransitive(old(engine.books.trace), here, engine.books.trace);
      if threw {
        OpenBodies(engine.books.summary.phases, answers, base, runnable, k);
        return;
      }
      executed := executed + [OutcomeOf(runnable[k], calls[runnable[k]], answers[runnable[k]])];
      k := k + 1;
    }
    BodiesDone(engine.books.summary.phases, answers, base, runnable);
    assert Pick(Outcomes(calls, answers), |calls|, false)[..k] == Pick(Outcomes(calls, answers), |calls|, false);
  }

  /** The outcomes of the first `k` bodies, none of whose after-hooks threw. */
  ghost predicate ExecutedSoFar(executed: seq<Envelope>, calls: seq<ToolCall>, answers: seq<CallAnswers>,
                                runnable: seq<nat>, k: nat)
    requires |calls| == |answers| && k <= |Pick(Outcomes(calls, answers), |calls|, false)|
  {
    executed == Pick(Outcomes(calls, answers), |calls|, false)[..k] && NoneThrows(answers, runnable, k)
  }

  lemma {:induction false} ExecutedStep(executed: seq<Envelope>, calls: seq<ToolCall>, answers: seq<CallAnswers>,
                                        runnable: seq<nat>, k: nat)
    requires |calls| == |answers| && runnable == Runnable(answers, |answers|) && k < |runnable|
    requires |Pick(Outcomes(calls, answers), |calls|, false)| == |runnable|
    requires ExecutedSoFar(executed, calls, answers, runnable, k)
    ensures !Throws(answers[runnable[k]]) ==>
              ExecutedSoFar(executed + [OutcomeOf(runnable[k], calls[runnable[k]], answers[runnable[k]])],
                            calls, answers, runnable, k + 1)
  {
    PickSplits(calls, answers, |calls|);
    TakeOneMore(Pick(Outcomes(calls, answers), |calls|, false), k);
  }

  lemma {:induction false} OpenBodies(phases: map<nat, Phase>, answers: seq<CallAnswers>, base: nat,
                                      runnable: seq<nat>, k: nat)
    requires InCallOrder(runnable, answers, |answers|) && NoneThrows(answers, runnable, k) && k < |runnable|
    requires Bodies(phases, base, runnable, k + 1, Record, Execute) && Throws(answers[runnable[k]])
    ensures StillOpen(phases, LeftBehind(answers, base))
    ensures exists i :: 0 <= i < |answers| && Throws(answers[i])
  {
    assert runnable[k] < |answers|;
    forall r | r in LeftBehind(answers, base)
      ensures PhaseOf(phases, r) == Some(Execute)
    {
      LeftAreRunnable(answers, base, runnable, k, r);
    }
  }

  lemma {:induction false} BodiesDone(phases: map<nat, Phase>, answers: seq<CallAnswers>, base: nat, runnable: seq<nat>)
    requires InCallOrder(runnable, answers, |answers|) && NoneThrows(answers, runnable, |runnable|)
    requires Bodies(phases, base, runnable, |runnable|, Record, Execute)
    ensures AllRecorded(phases, base, runnable)
    ensures forall i :: 0 <= i < |answers| ==> !Throws(answers[i])
  {
    forall i | 0 <= i < |answers|
      ensures !Throws(answers[i])
    {
      NoThrower(answers, runnable, i);
    }
  }

  /**
   The second half of `executeToolCallsParallel`: all bodies are started, then awaited and recorded in call
   order. When an after-hook throws, the bodies of the later calls are left behind.
   */
  method RunBodies(engine: Engine, calls: seq<ToolCall>, answers: seq<CallAnswers>, base: nat, runnable: seq<nat>)
    returns (executed: seq<Envelope>, threw: bool)
    requires |calls| == |answers| && runnable == Runnable(answers, |answers|)
    requires engine.Valid() && (engine.books.stage.InTurn? || engine.books.stage.Torn?)
    requires base + |answers| <= engine.nextRef
    requires forall i :: 0 <= i < |answers| ==>
               PhaseOf(engine.books.summary.phases, base + i) == Some(PreparedPhase(answers[i].prep))
    modifies engine, engine.promptQueue, engine.followUpQueue
    ensures engine.Valid() && engine.ToolSteady() && Begins(old(engine.books.trace), engine.books.trace)
    ensures threw <==> exists i :: 0 <= i < |calls| && Throws(answers[i])
    ensures !threw ==> executed == Pick(Outcomes(calls, answers), |calls|, false)
    ensures OthersKept(engine.books.summary.phases, old(engine.books.summary.phases), base, runnable)
    ensures !threw ==> AllRecorded(engine.books.summary.phases, base, runnable)
    ensures HooksLeft(old(engine.books.given), engine.books.given, threw, LeftBehind(answers, base))
    ensures StillOpen(engine.books.summary.phases, LeftBehind(answers, base))
  {
    executed, threw := StartAndAwait(engine, calls, answers, base, runnable);
    LeaveRest(engine, answers, base, threw);
  }

  method StartAndAwait(engine: Engine, calls: seq<ToolCall>, answers: seq<CallAnswers>, base: nat, runnable: seq<nat>)
    returns (executed: seq<Envelope>, threw: bool)
    requires |calls| == |answers| && runnable == Runnable(answers, |answers|)
    requires engine.Valid() && (engine.books.stage.InTurn? || engine.books.stage.Torn?)
    requires base + |answers| <= engine.nextRef
    requires forall i :: 0 <= i < |answers| ==>
               PhaseOf(engine.books.summary.phases, base + i) == Some(PreparedPhase(answers[i].prep))
    modifies engine, engine.promptQueue, engine.followUpQueue
    ensures engine.Valid() && engine.ToolSteady() && Begins(old(engine.books.trace), engine.books.trace)
    ensures threw <==> exists i :: 0 <= i < |calls| && Throws(answers[i])
    ensures HooksRan(old(engine.books.given), engine.books.given, threw)
    ensures !threw ==> executed == Pick(Outcomes(calls, answers), |calls|, false)
    ensures OthersKept(engine.books.summary.phases, old(engine.books.summary.phases), base, runnable)
    ensures !threw ==> AllRecorded(engine.books.summary.phases, base, runnable)
    ensures StillOpen(engine.books.summary.phases, LeftBehind(answers, base))
  {
    RunnableInOrder(answers, |answers|);
    StartBodies(engine, answers, base, runnable);
    ghost var started, phases := engine.books.trace, engine.books.summary.phases;
    executed, threw := AwaitBodies(engine, calls, answers, base, runnable);
    BeginsTransitive(old(engine.books.trace), started, engine.books.trace);
    KeptTwice(engine.books.summary.phases, phases, old(engine.books.summary.phases), base, runnable);
    if !threw {
      NoneLeft(answers, base);
    }
  }

  /** When an after-hook has thrown, the later bodies are left behind. */
  method LeaveRest(engine: Engine, answers: seq<CallAnswers>, base: nat, threw: bool)
    requires engine.Valid() && (threw ==> engine.books.given.hook)
    requires threw <==> exists i :: 0 <= i < |answers| && Throws(answers[i])
    modifies engine`books
    ensures engine.Valid() && engine.books == old(engine.books).(given := engine.books.given)
    ensures engine.books.given == old(engine.books.given).(loose := old(engine.books.given).loose + LeftBehind(answers,
                                                                                                               base))
  {
    if threw {
      engine.LeaveBehind(LeftBehind(answers, base));
    } else {
      NoneLeft(answers, base);
    }
  }

  lemma {:induction false} KeptTwice(after: map<nat, Phase>, middle: map<nat, Phase>, before: map<nat, Phase>,
                                     base: nat,
                                     runnable: seq<nat>)
    requires OthersKept(after, middle, base, runnable) && OthersKept(middle, before, base, runnable)
    ensures OthersKept(after, before, base, runnable)
  {
  }

  /** After-hooks have run, and the bodies of these calls were left behind. */
  ghost predicate HooksLeft(before: Given, after: Given, threw: bool, refs: set<nat>) {
    after.hook == (before.hook || threw) && after.loose == before.loose + refs
  }

  // ---------------------------------------------------------------- either mode

  datatype Mode = Sequential | Parallel

  /** What the loop is handed: one envelope per call, permuted in parallel mode. */
  function BatchResults(mode: Mode, calls: seq<ToolCall>, answers: seq<CallAnswers>): seq<Envelope>
    requires |calls| == |answers|
  {
    if mode.Sequential? then Outcomes(calls, answers) else StablePartition(Outcomes(calls, answers))
  }

  /** Either mode answers every call exactly once. */
  lemma {:induction false} BatchAnswersCalls(mode: Mode, calls: seq<ToolCall>, answers: seq<CallAnswers>)
    requires |calls| == |answers|
    ensures Distinct(BatchResults(mode, calls, answers))
    ensures multiset(ResultIdsOf(BatchResults(mode, calls, answers))) == multiset(CallIds(calls))
    ensures multiset(BatchResults(mode, calls, answers)) == multiset(Outcomes(calls, answers))
    ensures |BatchResults(mode, calls, answers)| == |calls|
  {
    var outcomes := Outcomes(calls, answers);
    assert ResultIdsOf(outcomes) == CallIds(calls);
    PartitionDistinct(outcomes);
    PartitionIsPermutation(outcomes);
    PartitionAnswersSameCalls(outcomes);
    assert |multiset(StablePartition(outcomes))| == |multiset(outcomes)|;
  }

  lemma {:induction false} PartitionMember(s: seq<Envelope>, j: nat) returns (i: nat)
    requires j < |StablePartition(s)|
    ensures i < |s| && s[i] == StablePartition(s)[j]
  {
    PartitionIsPermutation(s);
    assert StablePartition(s)[j] in multiset(s);
    i :| 0 <= i < |s| && s[i] == StablePartition(s)[j];
  }

  lemma {:induction false} PartitionRecorded(phases: map<nat, Phase>, before: map<nat, Phase>, base: nat,
                                             calls: seq<ToolCall>, answers: seq<CallAnswers>)
    requires |calls| == |answers|
    requires forall r :: 0 <= r < base ==> PhaseOf(phases, r) == PhaseOf(before, r)
    requires forall i :: 0 <= i < |calls| ==>
               PhaseOf(phases, base + i) == Some(Outcomes(calls, answers)[i].previousPhase)
    ensures Standing(phases, before, base, StablePartition(Outcomes(calls, answers)))
  {
    var results := StablePartition(Outcomes(calls, answers));
    forall j | 0 <= j < |results|
      ensures PhaseOf(phases, base + results[j].index) == Some(results[j].previousPhase)
    {
      var i := PartitionMember(Outcomes(calls, answers), j);
      assert results[j].index == i;
    }
  }

  /**
   `executeToolCallsParallel`: whatever the interleaving of the bodies, the results are the sequential
   ones in stable partition. `authorized` is the trace when the first body may start: by then every call
   has left its preparation, and none has entered execution.
   */
  method ExecuteParallel(engine: Engine, calls: seq<ToolCall>, answers: seq<CallAnswers>, base: nat)
    returns (results: seq<Envelope>, threw: bool, ghost authorized: Log<Event>)
    requires |calls| == |answers| && BatchReady(engine, base, |calls|)
    modifies engine, engine.promptQueue, engine.followUpQueue
    ensures engine.Valid() && engine.ToolSteady()
    ensures threw <==> exists i :: 0 <= i < |calls| && Throws(answers[i])
    ensures HooksLeft(old(engine.books.given), engine.books.given, threw, LeftBehind(answers, base))
    ensures StillOpen(engine.books.summary.phases, LeftBehind(answers, base))
    ensures !threw ==> results == StablePartition(Outcomes(calls, answers))
    ensures !threw ==> Standing(engine.books.summary.phases, old(engine.books.summary.phases), base, results)
    ensures Begins(authorized, engine.books.trace)
    ensures Prepared(Summarize(authorized).phases, old(engine.books.summary.phases), base, answers, |answers|)
  {
    PreparedStart(engine.books.summary.phases, base, calls, answers);
    var immediate, runnable := PrepareAll(engine, calls, answers, base);
    authorized := engine.books.trace;
    ghost var prepared := engine.books.summary.phases;
    var executed;
    executed, threw := RunBodies(engine, calls, answers, base, runnable);
    results := immediate + executed;
    if !threw {
      BatchPhases(engine.books.summary.phases, prepared, old(engine.books.summary.phases), base, calls, answers);
    }
  }

  lemma {:induction false} BatchPhases(phases: map<nat, Phase>, prepared: map<nat, Phase>, before: map<nat, Phase>,
                                       base: nat,
                    calls: seq<ToolCall>, answers: seq<CallAnswers>)
    requires |calls| == |answers| && Prepared(prepared, before, base, answers, |answers|)
    requires OthersKept(phases, prepared, base, Runnable(answers, |answers|))
    requires AllRecorded(phases, base, Runnable(answers, |answers|))
    ensures Standing(phases, before, base, StablePartition(Outcomes(calls, answers)))
  {
    RunnableInOrder(answers, |answers|);
    forall i | 0 <= i < |calls|
      ensures PhaseOf(phases, base + i) == Some(Outcomes(calls, answers)[i].previousPhase)
    {
      assert i in Runnable(answers, |answers|) <==> answers[i].prep.Ready?;
    }
    PartitionRecorded(phases, before, base, calls, answers);
  }
}
