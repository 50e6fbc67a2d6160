/**
 Whole runs: the nested turn loop of agent-loop.ts and the run lifecycle of brewva-agent-engine.ts.
 The turn loop need not end, so a run is observed for a number of turns that the caller chooses.
 */
module AgentRun {
  import opened Prelude
  import opened AgentMessages
  import opened AgentEvents
  import opened PendingQueue
  import opened AgentEngine
  import opened ToolBatch
  import opened AgentLoop

  // ---------------------------------------------------------------- the two transcripts

  /**
   `base` is the transcript before the run. The loop's `newMessages` are what the run added to the engine's
   transcript exactly if the prompts were committed as emitted (`kept`), and the loop's context is in step
   with them as long as no stream started twice (`single`).
   */
  ghost predicate InStep(base: seq<Message>, added: seq<Message>, context: seq<Message>, transcript: seq<Message>,
                         kept: bool, single: bool)
  {
    && |transcript| == |base| + |added|
    && (base + added == transcript <==> kept)
    && (single ==> context == base + added)
    && (!single ==> |context| > |transcript|)
  }

  lemma {:induction false} AppendCancels<T>(a: seq<T>, b: seq<T>, x: seq<T>)
    requires |a| == |b|
    ensures a + x == b + x <==> a == b
  {
    if a + x == b + x {
      assert a == (a + x)[..|a|];
      assert b == (b + x)[..|b|];
    }
  }

  lemma {:induction false} InStepAppend(base: seq<Message>, added: seq<Message>, context: seq<Message>,
                                        transcript: seq<Message>, kept: bool, single: bool, more: seq<Message>)
    requires InStep(base, added, context, transcript, kept, single)
    ensures InStep(base, added + more, context + more, transcript + more, kept, single)
  {
    AppendCancels(base + added, transcript, more);
    assert base + (added + more) == base + added + more;
  }

  lemma {:induction false} InStepStream(base: seq<Message>, added: seq<Message>, context: seq<Message>,
                                        transcript: seq<Message>, kept: bool, single: bool,
                                        context': seq<Message>, m: Message, starts: nat)
    requires InStep(base, added, context, transcript, kept, single) && ContextAfter(context, context', m, starts)
    ensures InStep(base, added + [m], context', transcript + [m], kept, single && starts <= 1)
  {
    InStepAppend(base, added, context, transcript, kept, single, [m]);
  }

  /** A run as it began: the transcript, the model calls made and the tool calls announced before it. */
  datatype Start = Start(base: seq<Message>, requests: nat, first: nat)

  /**
   A model call saw a transcript that is paired exactly if the one before the run is and that hides failed
   messages; the loop's own context was the same exactly if the prompts were kept and no stream of the run had
   started twice by then; and a plain call was sent exactly the view of its context.
   */
  ghost predicate RequestSound(r: Request, base: seq<Message>, kept: bool) {
    && (Paired(r.transcript) <==> Paired(base)) && FailuresHidden(r.transcript)
    && (r.context == r.transcript <==> kept && StartsOnce(r.seen))
    && (r.plain ==> r.sent == ConvertToLlm(r.context))
  }

  /** The model calls of the run. */
  ghost predicate RequestsSound(requests: seq<Request>, start: Start, kept: bool) {
    forall i :: start.requests <= i < |requests| ==> RequestSound(requests[i], start.base, kept)
  }

  lemma {:induction false} RequestsStep(before: seq<Request>, after: seq<Request>, start: Start, added: seq<Message>,
                                        context: seq<Message>, transcript: seq<Message>, seen: Log<Input>, kept: bool)
    requires RequestsSound(before, start, kept) && OneRequest(before, after, context, transcript, seen)
    requires InStep(start.base, added, context, transcript, kept, StartsOnce(seen))
    requires (Paired(transcript) <==> Paired(start.base)) && FailuresHidden(transcript)
    ensures RequestsSound(after, start, kept)
  {
    if after != before {
      assert RequestSound(after[|before|], start.base, kept);
      forall i | start.requests <= i < |after|
        ensures RequestSound(after[i], start.base, kept)
      {
        if i < |before| {
          assert after[..|before|][i] == before[i];
        }
      }
    }
  }

  // ---------------------------------------------------------------- invariants of a run

  /** Drained messages are committed, in order, up to those the loop is about to commit. */
  ghost predicate QueuesKept(engine: Engine, pending: seq<Message>, origin: Origin)
    reads engine, engine.promptQueue, engine.followUpQueue
  {
    && engine.promptQueue.drained
       == Extended(engine.books.summary.queued, if origin.Queued? then pending else [])
    && engine.followUpQueue.drained
       == Extended(engine.books.summary.followed, if origin.FollowedUp? then pending else [])
  }

  /** A stage of the run, unless a stream started twice. */
  predicate StandsAt(b: Books, stage: Stage) {
    b.stage == if b.given.single then stage else Torn
  }

  /** What holds at every point where a run may be left. */
  ghost predicate Leavable(engine: Engine, pending: seq<Message>, origin: Origin)
    reads engine, engine.promptQueue, engine.followUpQueue
  {
    && engine.Valid() && engine.active && engine.books.inFlight.Empty?
    && QueuesKept(engine, pending, origin)
    && FailuresHidden(engine.messages)
  }

  /** The books of a run in which nothing has gone wrong for good: no agent_end, no throw, no call left open. */
  ghost predicate Going(b: Books, start: Start) {
    && b.ends == 0 && CleanFrom(b.summary.phases, start.first) && !b.given.hook
    && RequestsSound(b.requests, start, b.kept)
  }

  /** What holds between the turns of a run. */
  ghost predicate BetweenTurns(b: Books, messages: seq<Message>, context: seq<Message>, start: Start,
                               added: seq<Message>)
  {
    && Going(b, start) && (Paired(messages) <==> Paired(start.base))
    && InStep(start.base, added, context, messages, b.kept, b.given.single)
  }

  /** What holds when the model has answered, until its calls are answered. */
  ghost predicate Answering(b: Books, messages: seq<Message>, context: seq<Message>, before: seq<Message>,
                            message: Message, start: Start, added: seq<Message>)
  {
    && Going(b, start) && StandsAt(b, InTurn)
    && InStep(start.base, added, context, messages, b.kept, b.given.single)
    && messages == before + [message] && (Paired(before) <==> Paired(start.base)) && Settled(message)
  }

  /** The head of the turn loops. */
  ghost predicate AtTurn(engine: Engine, context: seq<Message>, first: bool, pending: seq<Message>, origin: Origin,
                         start: Start, added: seq<Message>)
    reads engine, engine.promptQueue, engine.followUpQueue
  {
    && Leavable(engine, pending, origin) && AllInputs(pending)
    && BetweenTurns(engine.books, engine.messages, context, start, added)
    && StandsAt(engine.books, if first then InTurn else Between)
  }

  /** How a turn, or a run, came out. */
  datatype Outcome = Next | Ended | Threw | Observed

  /** The run was closed by its own agent_end. */
  ghost predicate ClosedRun(b: Books, messages: seq<Message>, start: Start, added: seq<Message>) {
    && (Paired(messages) <==> Paired(start.base)) && CleanFrom(b.summary.phases, start.first) && !b.given.hook
    && StandsAt(b, Closed) && b.ends == 1 && b.run.Then?
    && b.run.last == ExcludeFromEvent(AgentEnd(added))
    && |messages| == |start.base| + |added| && (start.base + added == messages <==> b.kept)
    && RequestsSound(b.requests, start, b.kept)
  }

  /** The run was left by a throw: it left calls unanswered exactly if an after-hook threw. */
  ghost predicate Abandoned(b: Books, messages: seq<Message>, start: Start) {
    b.ends == 0 && PairedUnlessThrown(b, messages, start)
  }

  ghost predicate PairedUnlessThrown(b: Books, messages: seq<Message>, start: Start) {
    && (Paired(messages) <==> Paired(start.base) && !b.given.hook)
    && (!b.given.hook ==> CleanFrom(b.summary.phases, start.first))
    && RequestsSound(b.requests, start, b.kept)
  }

  // ---------------------------------------------------------------- turn boundaries

  /** Emits turn_start, turn_end or agent_end. */
  method Mark(engine: Engine, e: Event)
    requires engine.Valid() && (e.TurnStart? || e.TurnEnd? || e.AgentEnd?)
    modifies engine, engine.promptQueue, engine.followUpQueue
    ensures engine.Valid() && engine.active == old(engine.active) && engine.Drained()
    ensures engine.messages == old(engine.messages)
    ensures engine.books == Recorded(old(engine.books), ExcludeFromEvent(e))
    ensures engine.books.summary == old(engine.books).summary && engine.books.kept == old(engine.books).kept
  {
    var _ := engine.ProcessEvents(e);
  }

  /** Books that differ by turn boundaries. */
  ghost predicate BoundaryBooks(before: Books, after: Books) {
    && after.summary == before.summary && after.inFlight == before.inFlight && after.requests == before.requests
    && after.kept == before.kept && after.given == before.given && Told(after) == Told(before)
  }

  /** turn_end and agent_end, as a failed or stopped turn emits them. */
  method CloseRun(engine: Engine, message: Option<Message>, results: seq<Message>, added: seq<Message>)
    requires engine.Valid()
    modifies engine, engine.promptQueue, engine.followUpQueue
    ensures engine.Valid() && engine.active == old(engine.active) && engine.Drained()
    ensures engine.messages == old(engine.messages) && BoundaryBooks(old(engine.books), engine.books)
    ensures engine.books.run.Then? && engine.books.run.last == ExcludeFromEvent(AgentEnd(added))
    ensures engine.books.ends == old(engine.books).ends + 1
    ensures message.Some? ==>
              engine.books.trace == Then(Then(old(engine.books).trace,
                                              ExcludeFromEvent(TurnEnd(message.value, results))),
                                         ExcludeFromEvent(AgentEnd(added)))
    ensures engine.books.stage
         == if (if message.Some? then old(engine.books).stage.InTurn? else old(engine.books).stage.Between?) then Closed
            else Torn
  {
    if message.Some? {
      Mark(engine, TurnEnd(message.value, results));
    }
    Mark(engine, AgentEnd(added));
  }

  /** At most one event, the drop of a steer for this reason. */
  ghost predicate DroppedFor(before: Log<Event>, after: Log<Event>, reason: DropReason) {
    || after == before
    || (after.Then? && after.past == before && after.last.SteerDropped? && after.last.reason == reason)
  }

  /** A steer that found no tool boundary is dropped: every text accepted so far has then been reported. */
  method DropSteer(engine: Engine, reason: DropReason)
    requires engine.Valid() && engine.books.inFlight.Empty?
    modifies engine, engine.promptQueue, engine.followUpQueue
    ensures engine.Valid() && engine.active == old(engine.active) && engine.Drained()
    ensures engine.messages == old(engine.messages) && engine.books.inFlight.Empty?
    ensures engine.books.summary.phases == old(engine.books).summary.phases
    ensures SameInputs(old(engine.books), engine.books)
    ensures engine.books.requests == old(engine.books).requests && engine.books.ends == old(engine.books).ends
    ensures engine.books.kept == old(engine.books).kept && engine.books.given == old(engine.books).given
    ensures InTurnOrTorn(old(engine.books).stage) ==> engine.books.stage == old(engine.books).stage
    ensures Begins(old(engine.steers.accepted), Told(engine.books))
    ensures DroppedFor(old(engine.books).trace, engine.books.trace, reason)
  {
    var text := TakeSteer(engine);
    if text.Some? {
      var _ := engine.ProcessEvents(SteerDropped(text.value, reason));
    }
  }

  // ---------------------------------------------------------------- one turn

  /** The start of a turn: turn_start, then the pending messages in order. */
  method OpenTurn(engine: Engine, ctx: LoopContext, first: bool, pending: seq<Message>, origin: Origin,
                  added0: seq<Message>, ghost start: Start)
    returns (added: seq<Message>)
    requires AtTurn(engine, ctx.messages, first, pending, origin, start, added0) && !origin.Prompted?
    modifies engine, engine.promptQueue, engine.followUpQueue, ctx
    ensures Leavable(engine, [], Queued) && added0 <= added && engine.Remembers()
    ensures BetweenTurns(engine.books, engine.messages, ctx.messages, start, added)
    ensures StandsAt(engine.books, InTurn)
  {
    if !first {
      Mark(engine, TurnStart);
    }
    added := TakeInputs(engine, ctx, pending, origin, added0, start);
  }

  /** The pending inputs are committed and join the context. */
  method TakeInputs(engine: Engine, ctx: LoopContext, pending: seq<Message>, origin: Origin,
                    added0: seq<Message>, ghost start: Start)
    returns (added: seq<Message>)
    requires Leavable(engine, pending, origin) && AllInputs(pending) && !origin.Prompted?
    requires BetweenTurns(engine.books, engine.messages, ctx.messages, start, added0)
    requires StandsAt(engine.books, InTurn)
    modifies engine, engine.promptQueue, engine.followUpQueue, ctx
    ensures Leavable(engine, [], Queued) && added0 <= added && engine.Remembers()
    ensures BetweenTurns(engine.books, engine.messages, ctx.messages, start, added)
    ensures StandsAt(engine.books, InTurn)
  {
    ghost var messages := engine.messages;
    var committed := CommitInputs(engine, pending, origin);
    InStepAppend(start.base, added0, ctx.messages, messages, engine.books.kept, engine.books.given.single, committed);
    ctx.messages := ctx.messages + committed;
    added := added0 + committed;
  }

  lemma {:induction false} FailuresStayHidden(messages: seq<Message>, m: Message)
    requires FailuresHidden(messages) && (Failed(m) ==> m.excluded)
    ensures FailuresHidden(messages + [m])
  {
  }

  /** The model's answer, or `None` if streaming threw. */
  method Respond(engine: Engine, ctx: LoopContext, added0: seq<Message>, ghost start: Start)
    returns (answer: Option<Message>, added: seq<Message>)
    requires Leavable(engine, [], Queued)
    requires BetweenTurns(engine.books, engine.messages, ctx.messages, start, added0)
    requires StandsAt(engine.books, InTurn)
    modifies engine, engine.promptQueue, engine.followUpQueue, ctx
    ensures Leavable(engine, [], Queued) && added0 <= added && engine.Remembers()
    ensures answer.None? ==> Abandoned(engine.books, engine.messages, start) && !engine.books.given.hook
    ensures answer.Some? ==> Answering(engine.books, engine.messages, ctx.messages, old(engine.messages), answer.value,
                                       start, added)
  {
    var starts;
    answer, starts := StreamAssistant(engine, ctx);
    RequestsStep(old(engine.books).requests, engine.books.requests, start, added0,
                 old(ctx.messages), old(engine.messages), old(engine.books).given.inputs, old(engine.books).kept);
    added := added0;
    if answer.Some? {
      added := added0 + [answer.value];
      InStepStream(start.base, added0, old(ctx.messages), old(engine.messages), old(engine.books).kept,
                   old(engine.books).given.single, ctx.messages, answer.value, starts);
      FailuresStayHidden(old(engine.messages), answer.value);
    }
  }

  /** A failed answer ends the run: the pending steer is dropped, then turn_end and agent_end. */
  method FailTurn(engine: Engine, message: Message, added: seq<Message>, ghost before: seq<Message>,
                  ghost start: Start, ghost context: seq<Message>)
    requires Leavable(engine, [], Queued) && Failed(message)
    requires Answering(engine.books, engine.messages, context, before, message, start, added)
    modifies engine, engine.promptQueue, engine.followUpQueue
    ensures Leavable(engine, [], Queued) && ClosedRun(engine.books, engine.messages, start, added)
    ensures engine.Remembers()
    ensures Begins(old(engine.steers.accepted), Told(engine.books))
    ensures engine.books.trace.Then? && engine.books.trace.past.Then?
            && DroppedFor(old(engine.books).trace, engine.books.trace.past.past,
                          if message.stopReason.Aborted? then OnAbort else OnFailure)
  {
    SoundHidden(before, message);
    DropSteer(engine, if message.stopReason.Aborted? then OnAbort else OnFailure);
    CloseRun(engine, Some(message), [], added);
  }

  /** The tool part of a turn, or the drop of a pending steer if there is none; only an after-hook can throw. */
  method AnswerCalls(engine: Engine, ctx: LoopContext, mode: Mode, message: Message, added0: seq<Message>,
                     ghost before: seq<Message>, ghost start: Start)
    returns (results: seq<Message>, added: seq<Message>, threw: bool)
    requires Leavable(engine, [], Queued) && !Failed(message)
    requires Answering(engine.books, engine.messages, ctx.messages, before, message, start, added0)
    modifies engine, engine.promptQueue, engine.followUpQueue, ctx
    ensures Leavable(engine, [], Queued) && added0 <= added && (threw <==> engine.books.given.hook)
    ensures engine.Remembers()
    ensures threw ==> Abandoned(engine.books, engine.messages, start)
    ensures !threw ==> BetweenTurns(engine.books, engine.messages, ctx.messages, start, added)
    ensures !threw ==> StandsAt(engine.books, InTurn)
    ensures !threw ==> (results != [] <==> ToolCalls(message.content) != [])
    ensures ToolCalls(message.content) == [] ==>
              DroppedFor(old(engine.books).trace, engine.books.trace, NoToolBoundary)
              && Begins(old(engine.steers.accepted), Told(engine.books))
  {
    if ToolCalls(message.content) == [] {
      SoundTurn(before, message, []);
      assert before + [message] + [] == before + [message];
      DropSteer(engine, NoToolBoundary);
      return [], added0, false;
    }
    results, added, threw := RunCalls(engine, ctx, mode, message, added0, before, start);
  }

  /** A turn with calls. */
  method RunCalls(engine: Engine, ctx: LoopContext, mode: Mode, message: Message, added0: seq<Message>,
                  ghost before: seq<Message>, ghost start: Start)
    returns (results: seq<Message>, added: seq<Message>, threw: bool)
    requires Leavable(engine, [], Queued) && !Failed(message)
    requires Answering(engine.books, engine.messages, ctx.messages, before, message, start, added0)
    requires ToolCalls(message.content) != []
    modifies engine, engine.promptQueue, engine.followUpQueue, ctx
    ensures Leavable(engine, [], Queued) && added0 <= added && (threw <==> engine.books.given.hook)
    ensures engine.Remembers()
    ensures threw ==> Abandoned(engine.books, engine.messages, start)
    ensures !threw ==> BetweenTurns(engine.books, engine.messages, ctx.messages, start, added)
    ensures !threw ==> StandsAt(engine.books, InTurn) && results != []
  {
    results, threw := ToolTurn(engine, mode, message, start.first);
    added := added0;
    if threw {
      UnansweredTurn(before, message);
      return;
    }
    SoundTurn(before, message, results);
    assert results != [] by {
      AnsweredNotEmpty(message, results);
    }
    InStepAppend(start.base, added0, ctx.messages, old(engine.messages), engine.books.kept, engine.books.given.single,
                 results);
    ctx.messages := ctx.messages + results;
    added := added0 + results;
  }

  lemma {:induction false} AnsweredNotEmpty(message: Message, results: seq<Message>)
    requires message.Assistant? && ToolCalls(message.content) != [] && AnswersCalls(message, results)
    ensures results != []
  {
    assert CallsOf(message)[0] in multiset(CallsOf(message));
  }

  /** One iteration of the inner loop of `runLoop`. */
  method Turn(engine: Engine, ctx: LoopContext, mode: Mode, first: bool, pending: seq<Message>, origin: Origin,
              added0: seq<Message>, ghost start: Start)
    returns (outcome: Outcome, more: bool, added: seq<Message>)
    requires AtTurn(engine, ctx.messages, first, pending, origin, start, added0) && !origin.Prompted?
    modifies engine, engine.promptQueue, engine.followUpQueue, ctx
    ensures Leavable(engine, [], Queued) && !outcome.Observed? && added0 <= added && engine.Remembers()
    ensures outcome.Next? ==> AtTurn(engine, ctx.messages, false, [], Queued, start, added)
    ensures outcome.Ended? ==> ClosedRun(engine.books, engine.messages, start, added)
    ensures outcome.Threw? ==> Abandoned(engine.books, engine.messages, start)
  {
    added := OpenTurn(engine, ctx, first, pending, origin, added0, start);
    ghost var before := engine.messages;
    var answer;
    answer, added := Respond(engine, ctx, added, start);
    if answer.None? {
      return Threw, false, added;
    }
    outcome, more, added := ActOn(engine, ctx, mode, answer.value, added, before, start);
  }

  /** What the turn does with the model's answer. */
  method ActOn(engine: Engine, ctx: LoopContext, mode: Mode, message: Message, added0: seq<Message>,
               ghost before: seq<Message>, ghost start: Start)
    returns (outcome: Outcome, more: bool, added: seq<Message>)
    requires Leavable(engine, [], Queued)
    requires Answering(engine.books, engine.messages, ctx.messages, before, message, start, added0)
    modifies engine, engine.promptQueue, engine.followUpQueue, ctx
    ensures Leavable(engine, [], Queued) && !outcome.Observed? && added0 <= added && engine.Remembers()
    ensures outcome.Next? ==> BetweenTurns(engine.books, engine.messages, ctx.messages, start, added)
                              && StandsAt(engine.books, Between)
    ensures outcome.Ended? ==> ClosedRun(engine.books, engine.messages, start, added)
    ensures outcome.Threw? ==> Abandoned(engine.books, engine.messages, start)
  {
    if Failed(message) {
      FailTurn(engine, message, added0, before, start, ctx.messages);
      return Ended, false, added0;
    }
    var results, threw;
    results, added, threw := AnswerCalls(engine, ctx, mode, message, added0, before, start);
    if threw {
      return Threw, false, added;
    }
    more := ToolCalls(message.content) != [];
    outcome := FinishTurn(engine, message, results, added, ctx.messages, start);
  }

  /** turn_end, and the question whether to stop after tool results, which may also throw. */
  method FinishTurn(engine: Engine, message: Message, results: seq<Message>, added: seq<Message>,
                    ghost context: seq<Message>, ghost start: Start)
    returns (outcome: Outcome)
    requires Leavable(engine, [], Queued)
    requires BetweenTurns(engine.books, engine.messages, context, start, added) && StandsAt(engine.books, InTurn)
    modifies engine, engine.promptQueue, engine.followUpQueue
    ensures Leavable(engine, [], Queued) && !outcome.Observed? && !engine.books.given.hook && engine.Remembers()
    ensures outcome.Next? ==> BetweenTurns(engine.books, engine.messages, context, start, added)
    ensures outcome.Next? ==> StandsAt(engine.books, Between)
    ensures outcome.Ended? ==> results != [] && ClosedRun(engine.books, engine.messages, start, added)
    ensures outcome.Threw? ==> results != [] && Abandoned(engine.books, engine.messages, start)
  {
    Mark(engine, TurnEnd(message, results));
    outcome := Next;
    if results != [] {
      outcome := AskToStop(engine, added, context, start);
    }
  }

  /** `shouldStopAfterToolResults`. */
  method AskToStop(engine: Engine, added: seq<Message>, ghost context: seq<Message>, ghost start: Start)
    returns (outcome: Outcome)
    requires Leavable(engine, [], Queued)
    requires BetweenTurns(engine.books, engine.messages, context, start, added) && StandsAt(engine.books, Between)
    modifies engine, engine.promptQueue, engine.followUpQueue
    ensures Leavable(engine, [], Queued) && !outcome.Observed? && !engine.books.given.hook && engine.Remembers()
    ensures outcome.Next? ==> BetweenTurns(engine.books, engine.messages, context, start, added)
    ensures outcome.Next? ==> StandsAt(engine.books, Between)
    ensures outcome.Ended? ==> ClosedRun(engine.books, engine.messages, start, added)
    ensures outcome.Threw? ==> Abandoned(engine.books, engine.messages, start)
  {
    engine.Await();
    var answer: int := *;
    if answer == 0 {
      return Threw;
    }
    if answer == 1 {
      EndRun(engine, added, context, start);
      return Ended;
    }
    outcome := Next;
  }

  method DrainPrompts(engine: Engine, ghost context: seq<Message>, ghost first: bool, ghost start: Start,
                      ghost added: seq<Message>)
    returns (pending: seq<Message>)
    requires AtTurn(engine, context, first, [], Queued, start, added)
    modifies engine, engine.promptQueue, engine.followUpQueue
    ensures AtTurn(engine, context, first, pending, Queued, start, added) && engine.Remembers()
  {
    engine.Await();
    pending := engine.promptQueue.Drain();
  }

  /** Follow-ups are asked for only when the last drain of the prompt queue was empty and no call remains. */
  method DrainFollowUps(engine: Engine, pending: seq<Message>, more: bool, ghost context: seq<Message>,
                        ghost start: Start, ghost added: seq<Message>)
    returns (followUps: seq<Message>)
    requires pending == [] && !more
    requires AtTurn(engine, context, false, pending, Queued, start, added)
    modifies engine, engine.promptQueue, engine.followUpQueue
    ensures AtTurn(engine, context, false, followUps, FollowedUp, start, added) && engine.Remembers()
    ensures followUps == [] ==> AtTurn(engine, context, false, [], Queued, start, added)
  {
    engine.Await();
    followUps := engine.followUpQueue.Drain();
  }

  /** agent_end after a turn that left nothing to do. */
  method EndRun(engine: Engine, added: seq<Message>, ghost context: seq<Message>, ghost start: Start)
    requires AtTurn(engine, context, false, [], Queued, start, added)
    modifies engine, engine.promptQueue, engine.followUpQueue
    ensures Leavable(engine, [], Queued) && ClosedRun(engine.books, engine.messages, start, added)
    ensures engine.Remembers()
  {
    CloseRun(engine, None, [], added);
  }

  /** A run that is not over yet stands at the head of a turn. */
  ghost predicate Unfinished(engine: Engine, start: Start, added: seq<Message>)
    reads engine, engine.promptQueue, engine.followUpQueue
  {
    exists context, first, pending, origin :: AtTurn(engine, context, first, pending, origin, start, added)
  }

  /** `runLoop`, observed for `turns` turns. */
  method RunLoop(engine: Engine, ctx: LoopContext, mode: Mode, turns: nat, added0: seq<Message>,
                 ghost start: Start)
    returns (outcome: Outcome, added: seq<Message>)
    requires AtTurn(engine, ctx.messages, true, [], Queued, start, added0)
    modifies engine, engine.promptQueue, engine.followUpQueue, ctx
    ensures !outcome.Next? && added0 <= added && engine.Remembers()
    ensures outcome.Ended? ==>
              Leavable(engine, [], Queued) && ClosedRun(engine.books, engine.messages, start, added)
    ensures outcome.Threw? ==> Leavable(engine, [], Queued) && Abandoned(engine.books, engine.messages, start)
    ensures outcome.Observed? ==> Unfinished(engine, start, added)
  {
    added := added0;
    var first, left, origin := true, turns, Queued;
    var pending := DrainPrompts(engine, ctx.messages, first, start, added);
    while true
      invariant AtTurn(engine, ctx.messages, first, pending, origin, start, added)
      invariant !origin.Prompted? && added0 <= added && engine.Remembers()
      decreases left
    {
      var more := true;
      ghost var allowed := left;
      while more || pending != []
        invariant AtTurn(engine, ctx.messages, first, pending, origin, start, added)
        invariant !more ==> !first && origin.Queued? && left < allowed
        invariant left <= allowed && !origin.Prompted? && added0 <= added && engine.Remembers()
        decreases left
      {
        if left == 0 {
          return Observed, added;
        }
        left := left - 1;
        outcome, more, added := Turn(engine, ctx, mode, first, pending, origin, added, start);
        if !outcome.Next? {
          return;
        }
        first, origin := false, Queued;
        pending := DrainPrompts(engine, ctx.messages, first, start, added);
      }
      pending := DrainFollowUps(engine, pending, more, ctx.messages, start, added);
      if pending == [] {
        EndRun(engine, added, ctx.messages, start);
        return Ended, added;
      }
      origin := FollowedUp;
    }
  }

  // ---------------------------------------------------------------- lifecycle

  /** The engine between two runs. */
  ghost predicate AtRest(engine: Engine)
    reads engine, engine.promptQueue, engine.followUpQueue
  {
    && engine.Valid() && !engine.active && engine.books.inFlight.Empty?
    && QueuesKept(engine, [], Queued)
    && FailuresHidden(engine.messages)
  }

  ghost predicate AllAccountedFor(q: PendingMessageQueue, committed: Log<Message>)
    reads q
  {
    Wanted(Enqueued(q.history), q.unwanted) == Wanted(Extended(committed, q.messages), q.unwanted)
  }

  /**
   Between two runs, of the messages that no client asks to remove, exactly those ever enqueued have been committed
   or still wait, in the order they came.
   */
  lemma {:induction false} QueuedConserved(engine: Engine)
    requires AtRest(engine)
    ensures AllAccountedFor(engine.promptQueue, engine.books.summary.queued)
    ensures AllAccountedFor(engine.followUpQueue, engine.books.summary.followed)
  {
    WantedKept(engine.promptQueue.history, engine.promptQueue.unwanted);
    WantedKept(engine.followUpQueue.history, engine.followUpQueue.unwanted);
  }

  lemma {:induction false} InStepStart(base: seq<Message>, prompts: seq<Message>, committed: seq<Message>)
    requires |prompts| == |committed|
    ensures InStep(base, prompts, base + prompts, base + committed, committed == prompts, true)
  {
    if base + prompts == base + committed {
      assert prompts == (base + prompts)[|base|..];
      assert committed == (base + committed)[|base|..];
    }
  }

  /** The run has just begun. */
  ghost predicate JustBegun(engine: Engine, start: Start)
    reads engine
  {
    && engine.books.stage.Fresh? && engine.books.ends == 0 && engine.books.kept
    && engine.books.given.single && !engine.books.given.hook
    && start == Start(engine.messages, |engine.books.requests|, engine.nextRef)
  }

  /** agent_start, the first turn_start and the prompts. */
  method StartRun(engine: Engine, prompts: seq<Message>, ghost start: Start) returns (ctx: LoopContext)
    requires Leavable(engine, [], Queued) && AllInputs(prompts) && JustBegun(engine, start)
    modifies engine, engine.promptQueue, engine.followUpQueue
    ensures fresh(ctx) && AtTurn(engine, ctx.messages, true, [], Queued, start, prompts)
    ensures engine.Remembers()
  {
    ctx := new LoopContext(engine.messages + prompts);
    OpenRun(engine);
    var committed := CommitInputs(engine, prompts, Prompted);
    InStepStart(start.base, prompts, committed);
  }

  /** agent_start and the first turn_start. */
  method OpenRun(engine: Engine)
    requires engine.Valid() && engine.books.stage.Fresh?
    modifies engine, engine.promptQueue, engine.followUpQueue
    ensures engine.Valid() && engine.active == old(engine.active) && engine.Drained()
    ensures engine.messages == old(engine.messages)
    ensures engine.books == Recorded(Recorded(old(engine.books), AgentStart), TurnStart)
    ensures BoundaryBooks(old(engine.books), engine.books) && engine.books.ends == old(engine.books).ends
    ensures engine.books.stage.InTurn?
  {
    var _ := engine.ProcessEvents(AgentStart);
    Mark(engine, TurnStart);
  }

  /** `runAgentLoop`: the start of the run, then the loop. */
  method RunAgentLoop(engine: Engine, prompts: seq<Message>, mode: Mode, turns: nat, ghost start: Start)
    returns (outcome: Outcome, added: seq<Message>)
    requires Leavable(engine, [], Queued) && AllInputs(prompts) && JustBegun(engine, start)
    modifies engine, engine.promptQueue, engine.followUpQueue
    ensures !outcome.Next? && prompts <= added && engine.Remembers()
    ensures outcome.Ended? ==> Leavable(engine, [], Queued) && ClosedRun(engine.books, engine.messages, start, added)
    ensures outcome.Threw? ==> Leavable(engine, [], Queued) && Abandoned(engine.books, engine.messages, start)
    ensures outcome.Observed? ==> Unfinished(engine, start, added)
  {
    var ctx := StartRun(engine, prompts, start);
    outcome, added := RunLoop(engine, ctx, mode, turns, prompts, start);
  }

  function FailureMessage(aborted: bool): Message {
    Assistant([Text("")], if aborted then Aborted else Error, false)
  }

  /** The last events are the failure message, turn_end and agent_end. */
  ghost predicate EndsWithFailure(trace: Log<Event>, aborted: bool, failed: Message) {
    && trace.Then? && trace.last == ExcludeFromEvent(AgentEnd([failed]))
    && trace.past.Then? && trace.past.last == ExcludeFromEvent(TurnEnd(failed, []))
    && trace.past.past.Then? && trace.past.past.last == MessageEnd(FailureMessage(aborted), failed, RunFailed)
    && trace.past.past.past.Then?
  }

  /** The failure tail: one hidden failure message, turn_end and agent_end. */
  method HandleRunFailure(engine: Engine) returns (ghost failed: Message)
    requires Leavable(engine, [], Queued) && engine.books.ends == 0
    modifies engine, engine.promptQueue, engine.followUpQueue
    ensures Leavable(engine, [], Queued) && EndsOnce(engine.books.run) && engine.Remembers()
    ensures engine.books.requests == old(engine.books).requests && engine.books.given == old(engine.books).given
    ensures engine.books.kept == old(engine.books).kept
    ensures engine.books.summary.phases == old(engine.books).summary.phases
    ensures Paired(engine.messages) <==> Paired(old(engine.messages))
    ensures Begins(old(engine.steers.accepted), Told(engine.books))
    ensures EndsWithFailure(engine.books.trace, old(engine.aborted), failed)
            && DroppedFor(old(engine.books).trace, engine.books.trace.past.past.past.past,
                          if old(engine.aborted) then OnAbort else OnFailure)
    ensures Settled(failed) && Failed(failed) && engine.messages == old(engine.messages) + [failed]
  {
    var aborted := engine.aborted;
    DropSteer(engine, if aborted then OnAbort else OnFailure);
    failed := ReportFailure(engine, aborted);
  }

  method ReportFailure(engine: Engine, aborted: bool) returns (ghost failed: Message)
    requires Leavable(engine, [], Queued) && engine.books.ends == 0
    modifies engine, engine.promptQueue, engine.followUpQueue
    ensures Leavable(engine, [], Queued) && EndsOnce(engine.books.run) && engine.Remembers()
    ensures engine.books.requests == old(engine.books).requests && engine.books.given == old(engine.books).given
    ensures engine.books.kept == old(engine.books).kept && Told(engine.books) == Told(old(engine.books))
    ensures engine.books.summary.phases == old(engine.books).summary.phases
    ensures Paired(engine.messages) <==> Paired(old(engine.messages))
    ensures EndsWithFailure(engine.books.trace, aborted, failed)
            && engine.books.trace.past.past.past.past == old(engine.books).trace
    ensures Settled(failed) && Failed(failed) && engine.messages == old(engine.messages) + [failed]
  {
    ShowMessage(engine, FailureMessage(aborted), true);
    var committed := CommitMessage(engine, FailureMessage(aborted), RunFailed);
    SoundHidden(old(engine.messages), committed);
    failed := committed;
    CloseRun(engine, Some(committed), [], [committed]);
  }

  /** No late update has come after the run's last event. */
  predicate Quiet(run: Log<Event>, late: Log<Late>) {
    !(late.Then? && late.last.after == Size(run))
  }

  /** What the books, the transcript and the late updates say when a run is over, however it ended. */
  ghost predicate RunLeftBooks(b: Books, messages: seq<Message>, late: Log<Late>, outcome: Outcome,
                               prompts: seq<Message>, added: seq<Message>, start: Start)
  {
    var run, inputs := b.run, b.given.inputs;
    // every call is paired with its result exactly if that was so before the run and no after-hook threw in it;
    // then every call of the run has walked its whole path
    && (Paired(messages) <==> Paired(start.base) && !AfterHookThrew(inputs))
    && (!AfterHookThrew(inputs) ==> CleanFrom(b.summary.phases, start.first))
    && (outcome.Ended? ==> !AfterHookThrew(inputs))
    // the run emits one agent_end, as its last event; that is also the last one heard unless a late update follows,
    // which takes a body that was left behind or has settled
    && EndsOnce(run) && (EndsOnce(Heard(run, late)) <==> Quiet(run, late))
    && (b.given.loose + b.summary.settled == {} ==> Heard(run, late) == run)
    // a run that ends by itself is well bracketed exactly if no stream started twice
    && (outcome.Ended? ==> (WellBracketed(run) <==> StartsOnce(inputs)))
    && (WellBracketed(Heard(run, late)) <==> WellBracketed(run) && LateInTurn(run, late))
    // it reports what it added, the prompts first: exactly the new end of the transcript if the prompts were kept
    && (outcome.Ended? ==> prompts <= added && run.last == ExcludeFromEvent(AgentEnd(added))
                           && (start.base + added == messages <==> PromptsKept(run)))
    // nothing is heard but the run if no after-hook ever threw and tools do not call back after settling
    && (!EverThrew(inputs) && Disciplined(late) ==> Heard(run, late) == run)
    // every model call saw a transcript as sound as the one before the run
    && RequestsSound(b.requests, start, PromptsKept(run))
  }

  /** What every run that is over, however it ended, leaves behind. */
  ghost predicate RunLeft(engine: Engine, outcome: Outcome, prompts: seq<Message>, added: seq<Message>, start: Start)
    reads engine, engine.promptQueue, engine.followUpQueue
  {
    && AtRest(engine)
    && RunLeftBooks(engine.books, engine.messages, engine.late, outcome, prompts, added, start)
  }

  /** The late updates of a run, against its own events. */
  lemma {:induction false} LateFacts(b: Books, nextRef: nat, late: Log<Late>)
    requires BooksTrue(b, nextRef) && LateTrue(late, Size(b.run), b)
    ensures EndsOnce(b.run) ==> (EndsOnce(Heard(b.run, late)) <==> Quiet(b.run, late))
    ensures WellBracketed(Heard(b.run, late)) <==> WellBracketed(b.run) && LateInTurn(b.run, late)
    ensures !EverThrew(b.given.inputs) && Disciplined(late) ==> Heard(b.run, late) == b.run
    ensures b.given.loose + b.summary.settled == {} ==> Heard(b.run, late) == b.run
  {
    HeardBracketed(b.run, late);
    if EndsOnce(b.run) {
      HeardEndsOnce(b.run, late);
    }
    if late.Empty? || (!EverThrew(b.given.inputs) && Disciplined(late)) {
      HeardAlone(b.run, late);
    }
  }

  lemma {:induction false} LeftFacts(b: Books, nextRef: nat, messages: seq<Message>, late: Log<Late>, outcome: Outcome,
                                     prompts: seq<Message>, added: seq<Message>, start: Start)
    requires BooksTrue(b, nextRef) && LateTrue(late, Size(b.run), b) && prompts <= added && EndsOnce(b.run)
    requires outcome.Ended? || outcome.Threw?
    requires outcome.Ended? ==> ClosedRun(b, messages, start, added)
    requires outcome.Threw? ==> PairedUnlessThrown(b, messages, start)
    ensures RunLeftBooks(b, messages, late, outcome, prompts, added, start)
  {
    LateFacts(b, nextRef, late);
  }

  /** The catch and finally parts of `#runWithLifecycle`. */
  method FinishRun(engine: Engine, outcome: Outcome, ghost prompts: seq<Message>, ghost added: seq<Message>,
                   ghost start: Start)
    requires (outcome.Ended? || outcome.Threw?) && Leavable(engine, [], Queued) && prompts <= added
    requires outcome.Ended? ==> ClosedRun(engine.books, engine.messages, start, added)
    requires outcome.Threw? ==> Abandoned(engine.books, engine.messages, start)
    modifies engine, engine.promptQueue, engine.followUpQueue
    ensures RunLeft(engine, outcome, prompts, added, start) && engine.Remembers()
  {
    if outcome.Threw? {
      RecoverRun(engine, start);
    } else {
      ClosedEndsOnce(engine.books);
    }
    LeftFacts(engine.books, engine.nextRef, engine.messages, engine.late, outcome, prompts, added, start);
    Deactivate(engine);
  }

  method Deactivate(engine: Engine)
    requires Leavable(engine, [], Queued)
    modifies engine`active
    ensures AtRest(engine)
  {
    engine.active := false;
  }

  /** The catch part: the failure tail neither repairs nor breaks the pairing. */
  method RecoverRun(engine: Engine, ghost start: Start)
    requires Leavable(engine, [], Queued) && Abandoned(engine.books, engine.messages, start)
    modifies engine, engine.promptQueue, engine.followUpQueue
    ensures Leavable(engine, [], Queued) && EndsOnce(engine.books.run) && engine.Remembers()
    ensures PairedUnlessThrown(engine.books, engine.messages, start)
  {
    var _ := HandleRunFailure(engine);
  }

  lemma {:induction false} ClosedEndsOnce(b: Books)
    requires b.run.Then? && b.run.last.AgentEnd? && b.ends == 1 && b.ends == AgentEnds(b.run)
    ensures EndsOnce(b.run)
  {
  }

  /** The answer of `prompt`: refused while a run is active, or how the run came out. */
  datatype PromptAnswer = Busy | Ran(outcome: Outcome)

  /**
   `prompt`, `#runWithLifecycle` and `#finishRun`: the theorem about whole runs. It asks nothing of the transcript
   or of what earlier runs left behind.
   */
  method Prompt(engine: Engine, prompts: seq<Message>, mode: Mode, turns: nat)
    returns (answer: PromptAnswer, added: seq<Message>)
    requires engine.active || AtRest(engine)
    requires AllInputs(prompts)
    modifies engine, engine.promptQueue, engine.followUpQueue
    ensures answer.Busy? <==> old(engine.active)
    ensures answer.Busy? ==> engine.messages == old(engine.messages) && engine.books == old(engine.books)
    ensures answer.Ran? ==> !answer.outcome.Next? && Grown(old(engine.Now()), engine.Now())
    ensures var start := Start(old(engine.messages), |old(engine.books).requests|, old(engine.nextRef));
            answer.Ran? ==> if answer.outcome.Observed? then Unfinished(engine, start, added)
                            else RunLeft(engine, answer.outcome, prompts, added, start)
  {
    if engine.active {
      return Busy, [];
    }
    ghost var start := Start(engine.messages, |engine.books.requests|, engine.nextRef);
    engine.BeginRun();
    ghost var begun := engine.Now();
    var outcome;
    outcome, added := RunAgentLoop(engine, prompts, mode, turns, start);
    answer := Ran(outcome);
    if !outcome.Observed? {
      FinishRun(engine, outcome, prompts, added, start);
    }
    assert begun in engine.marks;
    GrownTransitive(old(engine.Now()), begun, engine.Now());
  }

  // ---------------------------------------------------------------- agent_end need not be the last event heard

  /** A body that a throwing after-hook left behind calls back when the run is over. */
  method OrphanSpeaks(engine: Engine, ref: nat)
    requires AtRest(engine) && EndsOnce(engine.books.run) && ref in engine.books.given.loose
    modifies engine`late
    ensures AtRest(engine) && EverThrew(engine.books.given.inputs)
    ensures engine.late == Then(old(engine.late), Late(ref, Size(engine.books.run), true))
    ensures !EndsOnce(Heard(engine.books.run, engine.late))
  {
    engine.UpdateLate(ref);
    LateFacts(engine.books, engine.nextRef, engine.late);
  }

  /** A tool calls back after it has settled, in a run in which no after-hook threw. */
  method SettledSpeaks(engine: Engine, ref: nat)
    requires AtRest(engine) && EndsOnce(engine.books.run)
    requires ref in engine.books.summary.settled && ref !in engine.books.given.loose
    modifies engine`late
    ensures AtRest(engine) && !Disciplined(engine.late)
    ensures engine.late == Then(old(engine.late), Late(ref, Size(engine.books.run), false))
    ensures !EndsOnce(Heard(engine.books.run, engine.late))
  {
    engine.UpdateLate(ref);
    LateFacts(engine.books, engine.nextRef, engine.late);
  }

  /**
   Whatever calls back once agent_end was heard last: it is heard exactly if its body was left behind or has
   settled, and then agent_end is no longer the last event heard.
   */
  method CallBack(engine: Engine, ref: nat) returns (ghost heard: bool)
    requires AtRest(engine) && EndsOnce(engine.books.run) && Quiet(engine.books.run, engine.late)
    modifies engine`late
    ensures AtRest(engine) && (heard <==> ref in engine.books.given.loose + engine.books.summary.settled)
    ensures heard ==> engine.late.Then? && engine.late.last.ref == ref && engine.late.past == old(engine.late)
    ensures !heard ==> engine.late == old(engine.late)
    ensures EndsOnce(Heard(engine.books.run, engine.late)) <==> !heard
  {
    heard := ref in engine.books.given.loose + engine.books.summary.settled;
    engine.UpdateLate(ref);
    LateFacts(engine.books, engine.nextRef, engine.late);
  }

  /** Two prepared calls in parallel, the after-hook of the first throwing: the second body is left running. */
  method LeaveOne(engine: Engine, calls: seq<ToolCall>, answers: seq<CallAnswers>, base: nat)
    returns (ghost orphan: nat)
    requires |calls| == |answers| == 2 && answers[0].prep.Ready? && answers[1].prep.Ready?
    requires answers[0].after.AfterThrew? && BatchReady(engine, base, 2)
    modifies engine, engine.promptQueue, engine.followUpQueue
    ensures engine.Valid() && orphan == base + 1 && orphan in engine.books.given.loose
    ensures PhaseOf(engine.books.summary.phases, orphan) == Some(Execute) && engine.books.given.hook
  {
    var _, threw, _ := ExecuteParallel(engine, calls, answers, base);
    orphan := base + 1;
    assert Throws(answers[0]);
    assert orphan in LeftBehind(answers, base);
  }
}
