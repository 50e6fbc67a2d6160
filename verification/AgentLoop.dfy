/**
 The turn loop of agent-loop.ts over an engine: streaming an assistant message, running its tool calls,
 committing queued messages, and the ways a run ends. Throws of stream, auth, context transform, hooks
 and tools are arbitrary; listeners do not throw.
 */
module AgentLoop {
  import opened Prelude
  import opened AgentMessages
  import opened AgentEvents
  import opened AgentEngine
  import opened ToolBatch

  /** The loop's own copy of the transcript (`BrewvaAgentLoopContext`). */
  class LoopContext {
    var messages: seq<Message>

    constructor (messages: seq<Message>)
      ensures this.messages == messages
    {
      this.messages := messages;
    }
  }

  /** A transcript whose view pairs every call with its results. */
  ghost predicate Paired(messages: seq<Message>) {
    WellPaired(ConvertToLlm(messages))
  }

  /** `after` is paired exactly if `before` is, and hides failed messages if `before` does. */
  ghost predicate SoundAs(after: seq<Message>, before: seq<Message>) {
    (Paired(after) <==> Paired(before)) && (FailuresHidden(before) ==> FailuresHidden(after))
  }

  predicate AllInputs(s: seq<Message>) {
    forall i :: 0 <= i < |s| ==> IsInput(s[i])
  }

  lemma {:induction false} ConvertAppend(messages: seq<Message>, m: Message)
    ensures ConvertToLlm(messages + [m]) == ConvertToLlm(messages) + ToLlm(m)
  {
    ConvertConcat(messages, [m]);
    ConvertOne(m);
  }

  lemma {:induction false} SoundInput(messages: seq<Message>, m: Message)
    requires IsInput(m)
    ensures SoundAs(messages + [m], messages)
  {
    ConvertAppend(messages, m);
    if !m.excluded {
      AppendInput(ConvertToLlm(messages), ToLlm(m)[0]);
    } else {
      assert ConvertToLlm(messages) + [] == ConvertToLlm(messages);
    }
  }

  lemma {:induction false} SoundHidden(messages: seq<Message>, m: Message)
    requires m.excluded
    ensures SoundAs(messages + [m], messages)
  {
    ConvertAppend(messages, m);
    assert ConvertToLlm(messages) + [] == ConvertToLlm(messages);
  }

  lemma {:induction false} ConvertVisibleResults(results: seq<Message>)
    requires AllResults(results) && forall i :: 0 <= i < |results| ==> !results[i].excluded
    ensures ConvertToLlm(results) == results
  {
    if results != [] {
      ConvertVisibleResults(results[1..]);
      assert results == [results[0]] + results[1..];
    }
  }

  lemma {:induction false} ConvertTurn(messages: seq<Message>, a: Message, results: seq<Message>)
    requires a.Assistant? && !a.excluded
    requires AllResults(results) && forall i :: 0 <= i < |results| ==> !results[i].excluded
    ensures ConvertToLlm(messages + [a] + results) == ConvertToLlm(messages) + ([a] + results)
  {
    ConvertAppend(messages, a);
    ConvertConcat(messages + [a], results);
    ConvertVisibleResults(results);
    Regroup(ConvertToLlm(messages), [a], results);
  }

  /** A visible assistant message and the results of its calls neither break nor repair the pairing. */
  lemma {:induction false} SoundTurn(messages: seq<Message>, a: Message, results: seq<Message>)
    requires a.Assistant? && !a.excluded && !Failed(a)
    requires AllResults(results) && forall i :: 0 <= i < |results| ==> !results[i].excluded
    requires multiset(ResultIds(results)) == multiset(CallsOf(a))
    ensures SoundAs(messages + [a] + results, messages)
  {
    PairedTurn(messages, a, results);
    if FailuresHidden(messages) {
      HiddenTurn(messages, a, results);
    }
  }

  lemma {:induction false} PairedTurn(messages: seq<Message>, a: Message, results: seq<Message>)
    requires a.Assistant? && !a.excluded
    requires AllResults(results) && forall i :: 0 <= i < |results| ==> !results[i].excluded
    requires multiset(ResultIds(results)) == multiset(CallsOf(a))
    ensures Paired(messages + [a] + results) <==> Paired(messages)
  {
    ConvertTurn(messages, a, results);
    var turn := [a] + results;
    assert turn[1..] == results && turn[0] == a;
    AppendTurn(ConvertToLlm(messages), turn);
  }

  lemma {:induction false} HiddenTurn(messages: seq<Message>, a: Message, results: seq<Message>)
    requires FailuresHidden(messages) && !Failed(a) && AllResults(results)
    ensures FailuresHidden(messages + [a] + results)
  {
    var all := messages + [a] + results;
    forall i | 0 <= i < |all| && Failed(all[i])
      ensures all[i].excluded
    {
      assert i < |messages| && all[i] == messages[i];
    }
  }

  lemma {:induction false} UnansweredTurn(messages: seq<Message>, a: Message)
    requires a.Assistant? && !a.excluded && CallsOf(a) != []
    ensures !Paired(messages + [a])
  {
    ConvertAppend(messages, a);
    UnansweredCall(ConvertToLlm(messages), a, []);
    assert ConvertToLlm(messages) + [a] + [] == ConvertToLlm(messages) + [a];
  }

  // ---------------------------------------------------------------- streaming

  /** Books that differ by message events only. */
  ghost predicate MessageBooks(before: Books, after: Books) {
    && after.given.hook == before.given.hook && after.given.loose == before.given.loose
    && after.inFlight == before.inFlight && after.blocks == before.blocks && after.ends == before.ends
    && after.summary.phases == before.summary.phases && after.summary.reported == before.summary.reported
  }

  /** No queued or followed-up message was committed. */
  ghost predicate SameInputs(before: Books, after: Books) {
    after.summary.queued == before.summary.queued && after.summary.followed == before.summary.followed
  }

  /** What message events leave alone in the engine. */
  twostate predicate MessageSteady(engine: Engine)
    reads engine, engine.promptQueue, engine.followUpQueue
  {
    && engine.active == old(engine.active) && engine.nextRef == old(engine.nextRef)
    && engine.Drained() && MessageBooks(old(engine.books), engine.books)
  }

  predicate InTurnOrTorn(stage: Stage) {
    stage.InTurn? || stage.Torn?
  }

  /** An assistant message as committed: hidden exactly if it failed. */
  predicate Settled(m: Message) {
    m.Assistant? && (m.excluded <==> Failed(m))
  }

  /** Emits message_end and returns what the engine committed. */
  method CommitMessage(engine: Engine, m: Message, origin: Origin) returns (committed: Message)
    requires engine.Valid() && ListenerMay(m, m)
    modifies engine, engine.promptQueue, engine.followUpQueue
    ensures engine.Valid() && MessageSteady(engine) && engine.books.requests == old(engine.books.requests)
    ensures engine.books.given == old(engine.books.given)
    ensures engine.books.kept == (old(engine.books.kept) && (origin.Prompted? ==> committed == m))
    ensures engine.books.trace == Then(old(engine.books.trace), MessageEnd(m, committed, origin))
    ensures Committable(m, committed) && engine.messages == old(engine.messages) + [committed]
    ensures engine.books.stage == if old(engine.books).stage.InMessage? then InTurn else Torn
    ensures engine.books.summary.queued
         == if origin.Queued? then Then(old(engine.books).summary.queued, m) else old(engine.books).summary.queued
    ensures engine.books.summary.followed
         == if origin.FollowedUp? then Then(old(engine.books).summary.followed, m)
            else old(engine.books).summary.followed
  {
    var e := engine.ProcessEvents(MessageEnd(m, m, origin));
    committed := e.committed;
  }

  /** Emits message_start or message_update. */
  method ShowMessage(engine: Engine, m: Message, start: bool)
    requires engine.Valid()
    modifies engine, engine.promptQueue, engine.followUpQueue
    ensures engine.Valid() && MessageSteady(engine) && SameInputs(old(engine.books), engine.books)
    ensures engine.messages == old(engine.messages) && engine.books.requests == old(engine.books.requests)
    ensures engine.books.given == old(engine.books.given) && engine.books.kept == old(engine.books.kept)
    ensures engine.books.trace.Then? && engine.books.trace.past == old(engine.books.trace)
    ensures engine.books.stage
         == if (if start then old(engine.books).stage.InTurn? else old(engine.books).stage.InMessage?) then InMessage
            else Torn
  {
    if start {
      var _ := engine.ProcessEvents(MessageStart(m));
    } else {
      var _ := engine.ProcessEvents(MessageUpdate(m));
    }
  }

  /** Where a turn stands after so many "start" events of one stream. */
  function StageAfter(stage: Stage, starts: nat): Stage {
    if starts == 0 then stage
    else if starts == 1 && stage.InTurn? then InMessage
    else Torn
  }

  /** So many starts of the stream that was just opened. */
  ghost predicate Streamed(before: Given, after: Given, starts: nat) {
    Starts(after.inputs) == starts && after.single == (before.single && starts <= 1)
  }

  /** Where a stream stands after so many starts; `before`, `messages` and `context` are from when it was opened. */
  ghost predicate Streaming(engine: Engine, ctx: LoopContext, before: Books, messages: seq<Message>,
                            context: seq<Message>, starts: nat)
    reads engine, engine.promptQueue, engine.followUpQueue, ctx
  {
    && engine.Valid() && engine.messages == messages
    && StreamBooks(before, engine.books, starts)
    && |ctx.messages| == |context| + starts && ctx.messages[..|context|] == context
  }

  ghost predicate StreamBooks(before: Books, after: Books, starts: nat) {
    && MessageBooks(before, after) && SameInputs(before, after)
    && after.requests == before.requests && after.kept == before.kept
    && after.stage == StageAfter(before.stage, starts)
    && Streamed(before.given, after.given, starts)
  }

  /** The `for await` over a response: starts, deltas, or a throw, in any order and number. */
  method StreamEvents(engine: Engine, ctx: LoopContext) returns (threw: bool, starts: nat)
    requires engine.Valid() && InTurnOrTorn(engine.books.stage) && Starts(engine.books.given.inputs) == 0
    modifies engine, engine.promptQueue, engine.followUpQueue, ctx
    ensures Streaming(engine, ctx, old(engine.books), old(engine.messages), old(ctx.messages), starts)
    ensures engine.active == old(engine.active) && engine.nextRef == old(engine.nextRef) && engine.Drained()
  {
    var events: nat := *;
    threw, starts := false, 0;
    while events > 0 && !threw
      invariant Streaming(engine, ctx, old(engine.books), old(engine.messages), old(ctx.messages), starts)
      invariant engine.active == old(engine.active) && engine.nextRef == old(engine.nextRef) && engine.Drained()
    {
      threw, starts := StreamEvent(engine, ctx, starts, old(engine.books), old(engine.messages), old(ctx.messages));
      events := events - 1;
    }
  }

  /** `handleAssistantStreamEvent`, a pause, or a throw of the stream. */
  method StreamEvent(engine: Engine, ctx: LoopContext, starts0: nat, ghost before: Books, ghost messages: seq<Message>,
                     ghost context: seq<Message>)
    returns (threw: bool, starts: nat)
    requires InTurnOrTorn(before.stage) && Streaming(engine, ctx, before, messages, context, starts0)
    modifies engine, engine.promptQueue, engine.followUpQueue, ctx
    ensures Streaming(engine, ctx, before, messages, context, starts)
    ensures engine.active == old(engine.active) && engine.nextRef == old(engine.nextRef) && engine.Drained()
  {
    threw, starts := false, starts0;
    var which: int := *;
    var partial: Message := *;
    if which == 0 {
      threw := true;
    } else if which == 1 {
      StartMessage(engine, ctx, partial);
      starts := starts + 1;
    } else if which == 2 {
      if starts > 0 {
        UpdateMessage(engine, ctx, partial);
      }
    } else {
      engine.Await();
    }
  }

  /** A delta of the stream: the partial message is overwritten and shown. */
  method UpdateMessage(engine: Engine, ctx: LoopContext, partial: Message)
    requires engine.Valid() && ctx.messages != []
    modifies engine, engine.promptQueue, engine.followUpQueue, ctx
    ensures engine.Valid() && MessageSteady(engine) && SameInputs(old(engine.books), engine.books)
    ensures engine.messages == old(engine.messages) && engine.books.requests == old(engine.books.requests)
    ensures engine.books.given == old(engine.books.given) && engine.books.kept == old(engine.books.kept)
    ensures ctx.messages == old(ctx.messages)[|old(ctx.messages)| - 1 := partial]
    ensures engine.books.stage == if old(engine.books).stage.InMessage? then InMessage else Torn
  {
    ctx.messages := ctx.messages[|ctx.messages| - 1 := partial];
    ShowMessage(engine, partial, false);
  }

  /** A "start" of the stream: the partial message is pushed and shown. */
  method StartMessage(engine: Engine, ctx: LoopContext, partial: Message)
    requires engine.Valid()
    modifies engine, engine.promptQueue, engine.followUpQueue, ctx
    ensures engine.Valid() && MessageSteady(engine) && SameInputs(old(engine.books), engine.books)
    ensures engine.messages == old(engine.messages) && engine.books.requests == old(engine.books.requests)
    ensures engine.books.given == Noted(old(engine.books.given), StreamStarted)
    ensures engine.books.kept == old(engine.books.kept) && ctx.messages == old(ctx.messages) + [partial]
    ensures engine.books.stage == if old(engine.books).stage.InTurn? then InMessage else Torn
  {
    engine.Note(StreamStarted);
    ctx.messages := ctx.messages + [partial];
    ShowMessage(engine, partial, true);
  }

  /** At most one model call was made; it saw these two copies of the transcript, after these inputs. */
  ghost predicate OneRequest(before: seq<Request>, after: seq<Request>, context: seq<Message>,
                             transcript: seq<Message>, seen: Log<Input>) {
    || after == before
    || (|after| == |before| + 1 && after[..|before|] == before
        && after[|before|].context == context && after[|before|].transcript == transcript
        && after[|before|].seen == seen
        && (after[|before|].plain ==> after[|before|].sent == ConvertToLlm(context)))
  }

  /** The context after a stream: one message more, or more than that if it started more than once. */
  ghost predicate ContextAfter(before: seq<Message>, after: seq<Message>, m: Message, starts: nat) {
    && (starts <= 1 ==> after == before + [m])
    && (starts > 1 ==> |after| == |before| + starts)
  }

  /** The end of `streamAssistantResponse`: the final message replaces the partial one and is committed. */
  method CommitAssistant(engine: Engine, ctx: LoopContext, final: Message, starts: nat, ghost before: seq<Message>)
    returns (committed: Message)
    requires engine.Valid() && final.Assistant? && !final.excluded
    requires |ctx.messages| == |before| + starts && ctx.messages[..|before|] == before
    modifies engine, engine.promptQueue, engine.followUpQueue, ctx
    ensures engine.Valid() && MessageSteady(engine) && SameInputs(old(engine.books), engine.books)
    ensures engine.books.requests == old(engine.books.requests)
    ensures engine.books.given == old(engine.books.given) && engine.books.kept == old(engine.books.kept)
    ensures Settled(committed) && engine.messages == old(engine.messages) + [committed]
    ensures ContextAfter(before, ctx.messages, committed, starts)
    ensures engine.books.stage
         == if (if starts == 0 then old(engine.books).stage.InTurn? else old(engine.books).stage.InMessage?) then InTurn
            else Torn
  {
    if starts > 0 {
      ctx.messages := ctx.messages[|ctx.messages| - 1 := final];
    } else {
      ctx.messages := ctx.messages + [final];
      ShowMessage(engine, final, true);
    }
    var answer := CommitMessage(engine, final, Modelled);
    committed := if answer.Assistant? then answer else final;
    ctx.messages := ctx.messages[|ctx.messages| - 1 := committed];
  }

  /** `streamAssistantResponse`; `None` says that it threw. */
  method StreamAssistant(engine: Engine, ctx: LoopContext) returns (answer: Option<Message>, starts: nat)
    requires engine.Valid() && InTurnOrTorn(engine.books.stage)
    modifies engine, engine.promptQueue, engine.followUpQueue, ctx
    ensures engine.Valid() && MessageSteady(engine) && SameInputs(old(engine.books), engine.books)
    ensures OneRequest(old(engine.books).requests, engine.books.requests, old(ctx.messages), old(engine.messages),
                       old(engine.books).given.inputs)
    ensures answer.None? ==> engine.messages == old(engine.messages)
    ensures answer.Some? ==> Settled(answer.value) && engine.messages == old(engine.messages) + [answer.value]
    ensures answer.Some? ==> ContextAfter(old(ctx.messages), ctx.messages, answer.value, starts)
    ensures answer.Some? ==> engine.books.stage == if starts <= 1 then old(engine.books).stage else Torn
    ensures engine.books.given.single == (old(engine.books).given.single && starts <= 1)
    ensures engine.books.kept == old(engine.books).kept
  {
    starts := 0;
    engine.Await();
    var throwing: int, authorized: bool := *, *;
    if throwing == 0 {
      return None, 0;  // transformContext or resolveRequestAuth threw
    }
    if !authorized {
      var refused := CommitRefusal(engine, ctx);
      return Some(refused), 0;
    }
    if throwing == 1 {
      return None, 0;  // streamFn threw
    }
    answer, starts := AskAndConverse(engine, ctx);
  }

  method AskAndConverse(engine: Engine, ctx: LoopContext) returns (answer: Option<Message>, starts: nat)
    requires engine.Valid() && InTurnOrTorn(engine.books.stage)
    modifies engine, engine.promptQueue, engine.followUpQueue, ctx
    ensures engine.Valid() && MessageSteady(engine) && SameInputs(old(engine.books), engine.books)
    ensures OneRequest(old(engine.books).requests, engine.books.requests, old(ctx.messages), old(engine.messages),
                       old(engine.books).given.inputs)
    ensures answer.None? ==> engine.messages == old(engine.messages)
    ensures answer.Some? ==> Settled(answer.value) && engine.messages == old(engine.messages) + [answer.value]
    ensures answer.Some? ==> ContextAfter(old(ctx.messages), ctx.messages, answer.value, starts)
    ensures answer.Some? ==> engine.books.stage == if starts <= 1 then old(engine.books).stage else Torn
    ensures engine.books.given.single == (old(engine.books).given.single && starts <= 1)
    ensures engine.books.kept == old(engine.books).kept
  {
    AskModel(engine, ctx.messages);
    answer, starts := Converse(engine, ctx);
  }

  /** The response of the model, from its first event to the committed message, unless it throws. */
  method Converse(engine: Engine, ctx: LoopContext) returns (answer: Option<Message>, starts: nat)
    requires engine.Valid() && InTurnOrTorn(engine.books.stage) && Starts(engine.books.given.inputs) == 0
    modifies engine, engine.promptQueue, engine.followUpQueue, ctx
    ensures engine.Valid() && MessageSteady(engine) && SameInputs(old(engine.books), engine.books)
    ensures engine.books.requests == old(engine.books).requests && engine.books.kept == old(engine.books).kept
    ensures answer.None? ==> engine.messages == old(engine.messages)
    ensures answer.Some? ==> Settled(answer.value) && engine.messages == old(engine.messages) + [answer.value]
    ensures answer.Some? ==> ContextAfter(old(ctx.messages), ctx.messages, answer.value, starts)
    ensures answer.Some? ==> engine.books.stage == if starts <= 1 then old(engine.books).stage else Torn
    ensures engine.books.given.single == (old(engine.books).given.single && starts <= 1)
  {
    var threw;
    threw, starts := StreamEvents(engine, ctx);
    var failing: bool := *;
    if threw || failing {
      return None, starts;  // the stream or its result threw
    }
    var final: Message := *;
    if !final.Assistant? || final.excluded {
      final := Assistant([], Stop, false);
    }
    var committed := CommitAssistant(engine, ctx, final, starts, old(ctx.messages));
    answer := Some(committed);
  }

  /** The call of the model: it is sent the view of the context, transformed if a transform is configured. */
  method AskModel(engine: Engine, context: seq<Message>)
    requires engine.Valid()
    modifies engine`books
    ensures engine.Valid() && Starts(engine.books.given.inputs) == 0
    ensures engine.books == old(engine.books).(requests := engine.books.requests,
                                               given := Noted(old(engine.books).given, StreamOpened))
    ensures OneRequest(old(engine.books).requests, engine.books.requests, context, engine.messages,
                       old(engine.books).given.inputs)
  {
    var messages, transform: bool := context, *;
    if transform {
      messages := *;
    }
    ghost var seen := engine.books.given.inputs;
    engine.Note(StreamOpened);
    engine.books := engine.books.(requests :=
      engine.books.requests + [Request(context, engine.messages, seen, ConvertToLlm(messages), !transform)]);
  }

  /** The auth failure path: message_start first, then the push, then message_end. */
  method CommitRefusal(engine: Engine, ctx: LoopContext) returns (committed: Message)
    requires engine.Valid()
    modifies engine, engine.promptQueue, engine.followUpQueue, ctx
    ensures engine.Valid() && MessageSteady(engine) && SameInputs(old(engine.books), engine.books)
    ensures engine.books.requests == old(engine.books.requests)
    ensures Settled(committed) && engine.messages == old(engine.messages) + [committed]
    ensures engine.books.given == old(engine.books.given) && engine.books.kept == old(engine.books.kept)
    ensures Failed(committed) && committed.excluded
    ensures ctx.messages == old(ctx.messages) + [committed]
    ensures engine.books.stage == if old(engine.books).stage.InTurn? then InTurn else Torn
  {
    var refusal := Assistant([Text("")], Error, false);
    ShowMessage(engine, refusal, true);
    ctx.messages := ctx.messages + [refusal];
    var answer := CommitMessage(engine, refusal, Modelled);
    committed := if answer.Assistant? then answer else refusal;
    ctx.messages := ctx.messages[|ctx.messages| - 1 := committed];
  }

  // ---------------------------------------------------------------- inputs

  /** The committed form of a batch of inputs, and the commitments the trace shows for their origin. */
  ghost predicate InputsCommitted(before: Summary, after: Summary, inputs: seq<Message>, origin: Origin) {
    && after.queued == (if origin.Queued? then Extended(before.queued, inputs) else before.queued)
    && after.followed == (if origin.FollowedUp? then Extended(before.followed, inputs) else before.followed)
  }

  lemma {:induction false} InputsStep(before: Summary, middle: Summary, after: Summary,
                                      inputs: seq<Message>, k: nat, origin: Origin)
    requires k < |inputs| && InputsCommitted(before, middle, inputs[..k], origin)
    requires after.queued == if origin.Queued? then Then(middle.queued, inputs[k]) else middle.queued
    requires after.followed == if origin.FollowedUp? then Then(middle.followed, inputs[k]) else middle.followed
    ensures InputsCommitted(before, after, inputs[..k + 1], origin)
  {
    TakeOneMore(inputs, k);
    ExtendedConcat(before.queued, inputs[..k], [inputs[k]]);
    ExtendedConcat(before.followed, inputs[..k], [inputs[k]]);
    ExtendedOne(Extended(before.queued, inputs[..k]), inputs[k]);
    ExtendedOne(Extended(before.followed, inputs[..k]), inputs[k]);
  }

  /** What committing inputs does to the books. */
  ghost predicate InputBooks(before: Books, after: Books, inputs: seq<Message>, committed: seq<Message>,
                             origin: Origin) {
    && MessageBooks(before, after) && after.requests == before.requests
    && after.stage == before.stage && after.given == before.given
    && after.kept == (before.kept && (origin.Prompted? ==> committed == inputs))
    && InputsCommitted(before.summary, after.summary, inputs, origin)
  }

  lemma {:induction false} InputBooksStep(before: Books, middle: Books, after: Books, inputs: seq<Message>,
                                          committed: seq<Message>, k: nat, m: Message, origin: Origin)
    requires k < |inputs| && |committed| == k && InputBooks(before, middle, inputs[..k], committed, origin)
    requires MessageBooks(middle, after) && after.requests == middle.requests
    requires after.stage == middle.stage && after.given == middle.given
    requires after.kept == (middle.kept && (origin.Prompted? ==> m == inputs[k]))
    requires after.summary.queued
          == if origin.Queued? then Then(middle.summary.queued, inputs[k]) else middle.summary.queued
    requires after.summary.followed
          == if origin.FollowedUp? then Then(middle.summary.followed, inputs[k]) else middle.summary.followed
    ensures InputBooks(before, after, inputs[..k + 1], committed + [m], origin)
  {
    InputsStep(before.summary, middle.summary, after.summary, inputs, k, origin);
    SameSoFar(committed, inputs, k, m);
  }

  /** Emits message_start and message_end for every input, in order. */
  method CommitInputs(engine: Engine, inputs: seq<Message>, origin: Origin) returns (committed: seq<Message>)
    requires engine.Valid() && AllInputs(inputs) && InTurnOrTorn(engine.books.stage)
    modifies engine, engine.promptQueue, engine.followUpQueue
    ensures engine.Valid() && engine.active == old(engine.active) && engine.Drained()
    ensures |committed| == |inputs| && engine.messages == old(engine.messages) + committed
    ensures SoundAs(engine.messages, old(engine.messages))
    ensures InputBooks(old(engine.books), engine.books, inputs, committed, origin)
  {
    committed := [];
    var k := 0;
    while k < |inputs|
      invariant k == |committed| <= |inputs| && engine.Valid() && engine.active == old(engine.active)
      invariant engine.Drained()
      invariant engine.messages == old(engine.messages) + committed && SoundAs(engine.messages, old(engine.messages))
      invariant InputBooks(old(engine.books), engine.books, inputs[..k], committed, origin)
    {
      ghost var here := engine.books;
      var m := CommitInput(engine, inputs[k], origin);
      InputBooksStep(old(engine.books), here, engine.books, inputs, committed, k, m, origin);
      AppendAssociates(old(engine.messages), committed, m);
      committed := committed + [m];
      k := k + 1;
    }
    assert inputs[..k] == inputs;
  }

  /** One input: message_start, message_end. */
  method CommitInput(engine: Engine, input: Message, origin: Origin) returns (committed: Message)
    requires engine.Valid() && IsInput(input) && InTurnOrTorn(engine.books.stage)
    modifies engine, engine.promptQueue, engine.followUpQueue
    ensures engine.Valid() && MessageSteady(engine) && engine.books.requests == old(engine.books.requests)
    ensures engine.books.stage == old(engine.books).stage && engine.books.given == old(engine.books.given)
    ensures engine.books.kept == (old(engine.books.kept) && (origin.Prompted? ==> committed == input))
    ensures engine.messages == old(engine.messages) + [committed] && SoundAs(engine.messages, old(engine.messages))
    ensures engine.books.summary.queued
         == if origin.Queued? then Then(old(engine.books).summary.queued, input) else old(engine.books).summary.queued
    ensures engine.books.summary.followed
         == if origin.FollowedUp? then Then(old(engine.books).summary.followed, input)
            else old(engine.books).summary.followed
  {
    ShowMessage(engine, input, true);
    committed := CommitMessage(engine, input, origin);
    SoundInput(old(engine.messages), committed);
  }

  lemma {:induction false} SameSoFar<T>(a: seq<T>, b: seq<T>, k: nat, x: T)
    requires |a| == k < |b|
    ensures a + [x] == b[..k + 1] <==> a == b[..k] && x == b[k]
  {
    TakeOneMore(b, k);
    if a + [x] == b[..k + 1] {
      assert a == (a + [x])[..k] == b[..k];
      assert x == (a + [x])[k];
    }
  }

  lemma {:induction false} AppendAssociates<T>(a: seq<T>, b: seq<T>, x: T)
    ensures a + b + [x] == a + (b + [x])
  {
  }

  // ---------------------------------------------------------------- tool turn

  /** The batch's calls are being cleaned up: the first `k` are done, the rest stand where they were recorded. */
  ghost predicate Cleaning(phases: map<nat, Phase>, before: map<nat, Phase>, base: nat, results: seq<Envelope>,
                           k: nat) {
    && (forall r :: 0 <= r < base ==> PhaseOf(phases, r) == PhaseOf(before, r))
    && (forall j :: 0 <= j < |results| ==>
          PhaseOf(phases, base + results[j].index) == Some(if j < k then Cleanup else results[j].previousPhase))
  }

  lemma {:induction false} CleaningStep(phases: map<nat, Phase>, before: map<nat, Phase>, base: nat,
                                        results: seq<Envelope>, k: nat)
    requires k < |results| && Distinct(results) && Cleaning(phases, before, base, results, k)
    ensures Cleaning(phases[base + results[k].index := Cleanup], before, base, results, k + 1)
  {
  }

  /** Every call made since reference `first` has been cleaned up. */
  ghost predicate CleanFrom(phases: map<nat, Phase>, first: nat) {
    forall r :: r in phases && r >= first ==> phases[r] == Cleanup
  }

  lemma {:induction false} FindIn<T>(a: seq<T>, b: seq<T>, i: nat) returns (j: nat)
    requires multiset(a) == multiset(b) && i < |a|
    ensures j < |b| && b[j] == a[i]
  {
    assert a[i] in multiset(b);
    j :| 0 <= j < |b| && b[j] == a[i];
  }

  lemma {:induction false} BatchClean(phases: map<nat, Phase>, before: map<nat, Phase>, base: nat, mode: Mode,
                                      calls: seq<ToolCall>, answers: seq<CallAnswers>, results: seq<Envelope>,
                                      first: nat)
    requires |calls| == |answers| && results == BatchResults(mode, calls, answers)
    requires Cleaning(phases, before, base, results, |results|)
    requires CleanFrom(before, first) && forall r :: r in phases ==> r < base + |calls|
    ensures CleanFrom(phases, first)
  {
    BatchAnswersCalls(mode, calls, answers);
    var outcomes := Outcomes(calls, answers);
    forall r | r in phases && r >= first
      ensures phases[r] == Cleanup
    {
      if r < base {
        assert PhaseOf(phases, r) == PhaseOf(before, r);
      } else {
        var j := FindIn(outcomes, results, r - base);
        assert PhaseOf(phases, base + results[j].index) == Some(Cleanup);
      }
    }
  }

  /** `emitToolCallMessageOutcome`. */
  method CommitResult(engine: Engine, outcome: Envelope, base: nat) returns (committed: Message)
    requires engine.Valid() && InTurnOrTorn(engine.books.stage)
    requires outcome.message.ToolResult? && !outcome.message.excluded
    requires base + outcome.index < engine.nextRef && PhaseMove(Some(outcome.previousPhase), Cleanup)
    requires PhaseOf(engine.books.summary.phases, base + outcome.index) == Some(outcome.previousPhase)
    modifies engine, engine.promptQueue, engine.followUpQueue
    ensures engine.Valid() && engine.active == old(engine.active) && engine.nextRef == old(engine.nextRef)
    ensures engine.Drained() && ResultBooks(old(engine.books), engine.books)
    ensures engine.books.given == old(engine.books.given)
    ensures committed.ToolResult? && !committed.excluded && committed.toolCallId == outcome.message.toolCallId
    ensures engine.messages == old(engine.messages) + [committed]
    ensures engine.books.inFlight == old(engine.books).inFlight && engine.books.blocks == old(engine.books).blocks
    ensures engine.books.summary.phases == old(engine.books).summary.phases[base + outcome.index := Cleanup]
  {
    ShowMessage(engine, outcome.message, true);
    var answer := CommitMessage(engine, outcome.message, ToolMade);
    engine.Tell(PhaseChange(base + outcome.index, Cleanup, Some(outcome.previousPhase)));
    committed := if answer.ToolResult? then answer else outcome.message;
  }

  /** Books that differ by the results of a batch. */
  ghost predicate ResultBooks(before: Books, after: Books) {
    && after.stage == before.stage && after.ends == before.ends && after.requests == before.requests
    && after.kept == before.kept && after.given.single == before.given.single
    && SameInputs(before, after)
  }

  /** A steer block that was merged into the last result and waits to be reported. */
  datatype AppliedSteer = AppliedSteer(text: string, toolCallId: string)

  ghost predicate Awaiting(applied: Option<AppliedSteer>, inFlight: Log<string>, results: seq<Envelope>, k: nat) {
    && (applied.Some? <==> inFlight.Then?)
    && (applied.Some? ==> k < |results| && applied.value.text == JoinLines(inFlight)
                          && applied.value.toolCallId == Last(results).call.id)
  }

  /** The results as committed answer the envelopes one by one. */
  ghost predicate Answers(committed: seq<Message>, results: seq<Envelope>) {
    && |committed| <= |results|
    && forall j :: 0 <= j < |committed| ==> committed[j].ToolResult? && !committed[j].excluded
                                            && committed[j].toolCallId == results[j].call.id
  }

  /** An envelope whose result answers its call and can be cleaned up. */
  ghost predicate Sealed(e: Envelope, n: nat) {
    && e.index < n && PhaseMove(Some(e.previousPhase), Cleanup)
    && e.message.ToolResult? && !e.message.excluded && e.message.toolCallId == e.call.id
  }

  ghost predicate Envelopes(results: seq<Envelope>, n: nat) {
    Distinct(results) && forall j :: 0 <= j < |results| ==> Sealed(results[j], n)
  }

  lemma {:induction false} OutcomesSealed(calls: seq<ToolCall>, answers: seq<CallAnswers>, e: Envelope)
    requires |calls| == |answers| && e in Outcomes(calls, answers)
    ensures Sealed(e, |calls|)
  {
  }

  lemma {:induction false} EnvelopesOfBatch(mode: Mode, calls: seq<ToolCall>, answers: seq<CallAnswers>)
    requires |calls| == |answers|
    ensures Envelopes(BatchResults(mode, calls, answers), |calls|)
  {
    BatchAnswersCalls(mode, calls, answers);
    var results, outcomes := BatchResults(mode, calls, answers), Outcomes(calls, answers);
    forall j | 0 <= j < |results|
      ensures Sealed(results[j], |calls|)
    {
      assert results[j] in multiset(results);
      assert results[j] in outcomes;
      OutcomesSealed(calls, answers, results[j]);
    }
  }

  /** The same calls at the same phases; only messages may differ. */
  ghost predicate SameCalls(a: seq<Envelope>, b: seq<Envelope>) {
    |a| == |b| && forall j :: 0 <= j < |a| ==>
      a[j].index == b[j].index && a[j].call == b[j].call && a[j].previousPhase == b[j].previousPhase
  }

  lemma {:induction false} AnswersIds(committed: seq<Message>, results: seq<Envelope>)
    requires Answers(committed, results) && |committed| == |results|
    ensures AllResults(committed) && ResultIds(committed) == ResultIdsOf(results)
  {
    ResultIdsOfResults(committed);
  }

  lemma {:induction false} AnswersPush(committed: seq<Message>, results: seq<Envelope>, m: Message)
    requires Answers(committed, results) && |committed| < |results|
    requires m.ToolResult? && !m.excluded && m.toolCallId == results[|committed|].call.id
    ensures Answers(committed + [m], results)
  {
  }

  /** The outcomes are committed in order; a merged steer block is reported exactly once. */
  method CommitResults(engine: Engine, results: seq<Envelope>, steer: Option<AppliedSteer>, base: nat, ghost n: nat)
    returns (committed: seq<Message>)
    requires engine.Valid() && InTurnOrTorn(engine.books.stage)
    requires Envelopes(results, n) && base + n <= engine.nextRef
    requires Cleaning(engine.books.summary.phases, engine.books.summary.phases, base, results, 0)
    requires Awaiting(steer, engine.books.inFlight, results, 0)
    modifies engine, engine.promptQueue, engine.followUpQueue
    ensures engine.Valid() && engine.active == old(engine.active) && engine.nextRef == old(engine.nextRef)
    ensures engine.Drained() && ResultBooks(old(engine.books), engine.books) && engine.books.inFlight.Empty?
    ensures Answers(committed, results) && |committed| == |results|
    ensures engine.messages == old(engine.messages) + committed
    ensures Cleaning(engine.books.summary.phases, old(engine.books).summary.phases, base, results, |results|)
    ensures Told(engine.books) == Told(old(engine.books)) && engine.books.given == old(engine.books.given)
  {
    committed := [];
    var applied := steer;
    var k := 0;
    while k < |results|
      invariant k == |committed| <= |results| && engine.Valid()
      invariant engine.active == old(engine.active) && engine.nextRef == old(engine.nextRef)
      invariant engine.Drained() && ResultBooks(old(engine.books), engine.books)
      invariant Answers(committed, results) && engine.messages == old(engine.messages) + committed
      invariant Cleaning(engine.books.summary.phases, old(engine.books).summary.phases, base, results, k)
      invariant Awaiting(applied, engine.books.inFlight, results, k)
      invariant Told(engine.books) == Told(old(engine.books)) && engine.books.given == old(engine.books.given)
    {
      ghost var next := engine.books.summary.phases[base + results[k].index := Cleanup];
      CleaningStep(engine.books.summary.phases, old(engine.books).summary.phases, base, results, k);
      var m;
      m, applied := CommitNext(engine, results, k, applied, base);
      assert engine.books.summary.phases == next;
      AppendAssociates(old(engine.messages), committed, m);
      AnswersPush(committed, results, m);
      committed := committed + [m];
      k := k + 1;
    }
  }

  /** One result, and the report of the merged steer block if it went into it. */
  method CommitNext(engine: Engine, results: seq<Envelope>, k: nat, applied0: Option<AppliedSteer>, base: nat)
    returns (m: Message, applied: Option<AppliedSteer>)
    requires engine.Valid() && InTurnOrTorn(engine.books.stage) && k < |results|
    requires Awaiting(applied0, engine.books.inFlight, results, k)
    requires base + results[k].index < engine.nextRef && Sealed(results[k], results[k].index + 1)
    requires PhaseOf(engine.books.summary.phases, base + results[k].index) == Some(results[k].previousPhase)
    modifies engine, engine.promptQueue, engine.followUpQueue
    ensures engine.Valid() && engine.active == old(engine.active) && engine.nextRef == old(engine.nextRef)
    ensures engine.Drained() && ResultBooks(old(engine.books), engine.books)
    ensures Told(engine.books) == Told(old(engine.books)) && engine.books.given == old(engine.books.given)
    ensures engine.books.summary.phases == old(engine.books).summary.phases[base + results[k].index := Cleanup]
    ensures m.ToolResult? && !m.excluded && m.toolCallId == results[k].call.id
    ensures engine.messages == old(engine.messages) + [m]
    ensures Awaiting(applied, engine.books.inFlight, results, k + 1)
  {
    m := CommitResult(engine, results[k], base);
    applied := applied0;
    if applied.Some? && results[k].call.id == applied.value.toolCallId {
      ReportSteer(engine, SteerApplied(applied.value.text, applied.value.toolCallId, m));
      applied := None;
    }
  }

  /** Reports the consumed steer block, and nothing else. */
  method ReportSteer(engine: Engine, e: Event)
    requires engine.Valid() && InTurnOrTorn(engine.books.stage) && IsSteerEvent(e)
    requires engine.books.inFlight.Then? && e.text == JoinLines(engine.books.inFlight)
    modifies engine, engine.promptQueue, engine.followUpQueue
    ensures engine.Valid() && engine.active == old(engine.active) && engine.nextRef == old(engine.nextRef)
    ensures engine.Drained() && ResultBooks(old(engine.books), engine.books) && engine.books.inFlight.Empty?
    ensures engine.messages == old(engine.messages)
    ensures engine.books.summary.phases == old(engine.books).summary.phases
    ensures engine.books.summary.reported == Then(old(engine.books).summary.reported, e.text)
    ensures Told(engine.books) == Told(old(engine.books)) && engine.books.given == old(engine.books.given)
  {
    var _ := engine.ProcessEvents(e);
  }

  function WithGuidance(m: Message, text: string): Message
    requires m.ToolResult?
  {
    m.(output := m.output + ["\n\nUser guidance: " + text])
  }

  /** Arbitrary answers of hooks and tools, one for each call. */
  method AnyAnswers(n: nat) returns (answers: seq<CallAnswers>)
    ensures |answers| == n
  {
    answers := *;
    if |answers| != n {
      answers := seq(n, i => CallAnswers(Ready, ExecThrew(""), 0, Unchanged));
    }
  }

  /** `executeToolCalls`, in either mode. */
  method ExecuteBatch(engine: Engine, mode: Mode, calls: seq<ToolCall>, answers: seq<CallAnswers>)
    returns (results: seq<Envelope>, base: nat, threw: bool)
    requires engine.Valid() && InTurnOrTorn(engine.books.stage) && |calls| == |answers|
    modifies engine, engine.promptQueue, engine.followUpQueue
    ensures engine.Valid() && engine.active == old(engine.active) && engine.Drained()
    ensures engine.messages == old(engine.messages) && ToolBooks(old(engine.books), engine.books)
    ensures base == old(engine.nextRef) && engine.nextRef == base + |calls|
    ensures threw <==> exists i :: 0 <= i < |calls| && Throws(answers[i])
    ensures HooksLeft(old(engine.books.given), engine.books.given, threw,
                      if mode.Parallel? then LeftBehind(answers, base) else {})
    ensures !threw ==> results == BatchResults(mode, calls, answers)
    ensures !threw ==> Standing(engine.books.summary.phases, old(engine.books).summary.phases, base, results)
  {
    base := engine.OpenBatch(|calls|);
    if mode.Sequential? {
      results, threw := ExecuteSequential(engine, calls, answers, base);
    } else {
      ghost var authorized;
      results, threw, authorized := ExecuteParallel(engine, calls, answers, base);
    }
  }

  lemma {:induction false} SameCallsKeep(phases: map<nat, Phase>, before: map<nat, Phase>, base: nat,
                                         a: seq<Envelope>, b: seq<Envelope>, k: nat)
    requires SameCalls(a, b) && Cleaning(phases, before, base, a, k)
    ensures Cleaning(phases, before, base, b, k)
    ensures ResultIdsOf(a) == ResultIdsOf(b)
  {
    forall j | 0 <= j < |b|
      ensures PhaseOf(phases, base + b[j].index) == Some(if j < k then Cleanup else b[j].previousPhase)
    {
      assert a[j].index == b[j].index;
    }
  }

  /** The steer block, if one was pending, goes into the last result. */
  method MergeSteer(results: seq<Envelope>, text: Option<string>, ghost n: nat)
    returns (merged: seq<Envelope>, applied: Option<AppliedSteer>)
    requires Envelopes(results, n) && results != []
    ensures Envelopes(merged, n) && SameCalls(results, merged)
    ensures applied == if text.Some? then Some(AppliedSteer(text.value, Last(merged).call.id)) else None
    ensures text.Some? ==> merged[|merged| - 1].message
                           == WithGuidance(results[|results| - 1].message, text.value)
    ensures text.None? ==> merged == results
    ensures |merged| == |results| && merged[..|merged| - 1] == results[..|results| - 1]
  {
    if text.None? {
      return results, None;
    }
    var last := results[|results| - 1];
    merged := results[|results| - 1 := last.(message := WithGuidance(last.message, text.value))];
    applied := Some(AppliedSteer(text.value, last.call.id));
  }

  /** Every call of `message` has exactly one visible result in `committed`. */
  ghost predicate AnswersCalls(message: Message, committed: seq<Message>) {
    && AllResults(committed) && (forall i :: 0 <= i < |committed| ==> !committed[i].excluded)
    && multiset(ResultIds(committed)) == multiset(CallsOf(message))
  }

  /** The tool part of a turn: run the batch, merge a pending steer, commit the results. */
  method ToolTurn(engine: Engine, mode: Mode, message: Message, ghost first: nat)
    returns (committed: seq<Message>, threw: bool)
    requires engine.Valid() && InTurnOrTorn(engine.books.stage) && engine.books.inFlight.Empty?
    requires message.Assistant? && ToolCalls(message.content) != [] && CleanFrom(engine.books.summary.phases, first)
    modifies engine, engine.promptQueue, engine.followUpQueue
    ensures engine.Valid() && engine.active == old(engine.active)
    ensures engine.Drained() && ResultBooks(old(engine.books), engine.books) && engine.books.inFlight.Empty?
    ensures engine.books.given.hook == (old(engine.books).given.hook || threw)
    ensures !threw || mode.Sequential? ==> engine.books.given.loose == old(engine.books).given.loose
    ensures threw ==> engine.messages == old(engine.messages)
    ensures !threw ==> engine.messages == old(engine.messages) + committed && AnswersCalls(message, committed)
    ensures !threw ==> CleanFrom(engine.books.summary.phases, first)
  {
    var calls := ToolCalls(message.content);
    var answers := AnyAnswers(|calls|);
    var results, base;
    results, base, threw := ExecuteBatch(engine, mode, calls, answers);
    if threw {
      return [], true;
    }
    NoneLeft(answers, base);
    committed := CloseBatch(engine, mode, calls, answers, results, base, old(engine.books).summary.phases, first);
  }

  /** A steer may still arrive; then the pending text is consumed. */
  method TakeSteer(engine: Engine) returns (text: Option<string>)
    requires engine.Valid() && engine.books.inFlight.Empty?
    modifies engine, engine.promptQueue, engine.followUpQueue
    ensures engine.Valid() && engine.active == old(engine.active) && engine.nextRef == old(engine.nextRef)
    ensures engine.messages == old(engine.messages) && engine.Drained() && engine.pendingSteer == None
    ensures engine.books == old(engine.books).(inFlight := engine.books.inFlight)
    ensures text.Some? <==> engine.books.inFlight.Then?
    ensures text.Some? ==> text.value == JoinLines(engine.books.inFlight)
    ensures Begins(old(engine.steers.accepted), Told(engine.books))
  {
    engine.Await();
    text := engine.ConsumePendingSteer();
  }

  /**
   After the batch: the pending steer is merged and the results are committed. A batch has at least one
   result, so the loop's "no_tool_boundary" drop at this point is dead code.
   */
  method CloseBatch(engine: Engine, mode: Mode, calls: seq<ToolCall>, answers: seq<CallAnswers>,
                    results: seq<Envelope>, base: nat, ghost before: map<nat, Phase>, ghost first: nat)
    returns (committed: seq<Message>)
    requires engine.Valid() && InTurnOrTorn(engine.books.stage) && engine.books.inFlight.Empty?
    requires calls != [] && |calls| == |answers| && results == BatchResults(mode, calls, answers)
    requires engine.nextRef == base + |calls| && CleanFrom(before, first)
    requires Standing(engine.books.summary.phases, before, base, results)
    modifies engine, engine.promptQueue, engine.followUpQueue
    ensures engine.Valid() && engine.active == old(engine.active)
    ensures engine.Drained() && ResultBooks(old(engine.books), engine.books) && engine.books.inFlight.Empty?
    ensures engine.messages == old(engine.messages) + committed && CleanFrom(engine.books.summary.phases, first)
    ensures AllResults(committed) && (forall i :: 0 <= i < |committed| ==> !committed[i].excluded)
    ensures multiset(ResultIds(committed)) == multiset(CallIds(calls))
    ensures Begins(old(engine.steers.accepted), Told(engine.books)) && engine.books.given == old(engine.books.given)
  {
    BatchAnswersCalls(mode, calls, answers);
    EnvelopesOfBatch(mode, calls, answers);
    ghost var recorded := engine.books.summary.phases;
    var text := TakeSteer(engine);
    var merged, applied := MergeSteer(results, text, |calls|);
    SameCallsKeep(recorded, recorded, base, results, merged, 0);
    committed := CommitResults(engine, merged, applied, base, |calls|);
    CleanedUp(engine.books.summary.phases, recorded, before, base, mode, calls, answers, results, merged, first);
    AnswersIds(committed, merged);
  }

  lemma {:induction false} CleanedUp(phases: map<nat, Phase>, recorded: map<nat, Phase>, before: map<nat, Phase>,
                                     base: nat, mode: Mode, calls: seq<ToolCall>, answers: seq<CallAnswers>,
                                     results: seq<Envelope>, merged: seq<Envelope>, first: nat)
    requires |calls| == |answers| && results == BatchResults(mode, calls, answers) && SameCalls(results, merged)
    requires Standing(recorded, before, base, results)
    requires Cleaning(phases, recorded, base, merged, |merged|)
    requires CleanFrom(before, first) && forall r :: r in phases ==> r < base + |calls|
    ensures CleanFrom(phases, first) && ResultIdsOf(results) == ResultIdsOf(merged)
  {
    SameCallsKeep(phases, recorded, base, merged, results, |results|);
    forall r | 0 <= r < base
      ensures PhaseOf(phases, r) == PhaseOf(before, r)
    {
      assert PhaseOf(phases, r) == PhaseOf(recorded, r);
    }
    BatchClean(phases, before, base, mode, calls, answers, results, first);
  }
}
