/**
 The state of `HostedBrewvaAgentEngine` (brewva-agent-engine.ts) that a run works on: transcript, queues,
 the steer slot, and the event processor. Listener answers, client calls between awaits and model
 answers are arbitrary; what a listener may answer is the predicate `ListenerMay`.
 */
module AgentEngine {
  import opened Prelude
  import opened AgentMessages
  import opened AgentEvents
  import opened PendingQueue

  // ---------------------------------------------------------------- steer texts

  /** Steer texts merged into one block, as `steer` merges them. */
  function JoinLines(texts: Log<string>): string
    requires texts.Then?
  {
    if texts.past.Empty? then texts.last else JoinLines(texts.past) + "\n" + texts.last
  }

  function Flatten(blocks: Log<Log<string>>): Log<string> {
    if blocks.Empty? then Empty else Join(Flatten(blocks.past), blocks.last)
  }

  /** Block by block, the reports are the merged texts of the blocks. */
  predicate Reports(blocks: Log<Log<string>>, reported: Log<string>) {
    match blocks
    case Empty => reported.Empty?
    case Then(past, block) =>
      reported.Then? && block.Then? && reported.last == JoinLines(block) && Reports(past, reported.past)
  }

  // ---------------------------------------------------------------- transient failures

  function ExcludeTransientFailure(m: Message): Message {
    if Failed(m) then Assistant(m.content, m.stopReason, true) else m
  }

  function ExcludeFromEvent(e: Event): Event {
    match e
    case MessageStart(m) => MessageStart(ExcludeTransientFailure(m))
    case MessageUpdate(m) => MessageUpdate(ExcludeTransientFailure(m))
    case MessageEnd(m, c, origin) => MessageEnd(m, ExcludeTransientFailure(c), origin)
    case TurnEnd(m, results) => TurnEnd(ExcludeTransientFailure(m), results)
    case AgentEnd(ms) => AgentEnd(seq(|ms|, i requires 0 <= i < |ms| => ExcludeTransientFailure(ms[i])))
    case _ => e
  }

  /**
   What a listener may answer to a message_end: a message of the same role; a tool result keeps its
   call id and stays visible; an assistant message is hidden only if it failed, and a failed one stays failed.
   */
  predicate ListenerMay(before: Message, after: Message) {
    match before
    case Assistant(_, _, _) =>
      after.Assistant? && (after.excluded ==> Failed(after)) && (Failed(before) ==> Failed(after))
    case ToolResult(id, _, _, _, _) => after.ToolResult? && after.toolCallId == id && !after.excluded
    case _ => IsInput(after)
  }

  /** What is committed: as a listener may answer, and a failed assistant message is always hidden. */
  predicate Committable(before: Message, after: Message) {
    ListenerMay(before, after) && (Failed(after) ==> after.excluded)
  }

  /**
   A model call: the loop's own context, the engine's transcript and the inputs noted at that moment, what is
   sent, and whether it is `plain`, that is, no context transform is configured.
   */
  datatype Request = Request(context: seq<Message>, transcript: seq<Message>, seen: Log<Input>, sent: seq<Message>,
                             plain: bool)

  // ---------------------------------------------------------------- ghost books

  /**
   What streams and after-hooks did, whether every stream of the current run started at most once, whether
   one of its after-hooks threw, and the calls whose bodies were left behind by a throwing one.
   */
  datatype Given = Given(inputs: Log<Input>, single: bool, hook: bool, loose: set<nat>)

  function Noted(g: Given, i: Input): Given {
    if i.RunBegun? then Given(Then(g.inputs, i), true, false, g.loose)
    else Given(Then(g.inputs, i), g.single && (i.StreamStarted? ==> Starts(g.inputs) == 0),
               g.hook || (i.HookRan? && i.threw), g.loose)
  }

  ghost predicate GivenTrue(g: Given) {
    && g.single == StartsOnce(g.inputs) && g.hook == AfterHookThrew(g.inputs)
    && (g.loose != {} ==> EverThrew(g.inputs))
  }

  /**
   The books kept on emitted events: the trace of the engine's lifetime and of the current run, what they
   say (where the run stands, its agent_ends, whether its prompts were kept), the model calls made, the steer
   blocks reported so far and the block about to be reported, and what the run was given.
   */
  datatype Books = Books(
    trace: Log<Event>,
    summary: Summary,
    run: Log<Event>,
    stage: Stage,
    ends: nat,
    kept: bool,
    requests: seq<Request>,
    blocks: Log<Log<string>>,
    inFlight: Log<string>,
    given: Given)

  /** The accepted steer texts, and those of them merged into the pending slot. */
  datatype Steers = Steers(accepted: Log<string>, waiting: Log<string>)

  /** Everything an engine remembers: the histories of its lifetime, and the run's own events and late updates. */
  datatype Histories = Histories(
    accepted: Log<string>,
    prompts: Log<Message>,
    followUps: Log<Message>,
    trace: Log<Event>,
    requests: seq<Request>,
    inputs: Log<Input>,
    run: Log<Event>,
    late: Log<Late>)

  /**
   Nothing that ever happened is forgotten: accepted steer texts, enqueued messages, emitted events, model
   calls and inputs.
   */
  ghost predicate Grown(before: Histories, after: Histories) {
    && Begins(before.accepted, after.accepted)
    && Begins(before.prompts, after.prompts) && Begins(before.followUps, after.followUps)
    && Begins(before.trace, after.trace) && before.requests <= after.requests && Begins(before.inputs, after.inputs)
  }

  /** Within one run the run's events and its late updates are not forgotten either. */
  ghost predicate Since(before: Histories, after: Histories) {
    Grown(before, after) && Begins(before.run, after.run) && Begins(before.late, after.late)
  }

  lemma {:induction false} GrownTransitive(a: Histories, b: Histories, c: Histories)
    requires Grown(a, b) && Grown(b, c)
    ensures Grown(a, c)
  {
    BeginsTransitive(a.accepted, b.accepted, c.accepted);
    BeginsTransitive(a.prompts, b.prompts, c.prompts);
    BeginsTransitive(a.followUps, b.followUps, c.followUps);
    BeginsTransitive(a.trace, b.trace, c.trace);
    BeginsTransitive(a.inputs, b.inputs, c.inputs);
  }

  function HistoriesOf(b: Books, s: Steers, prompts: Log<Slot>, followUps: Log<Slot>, late: Log<Late>): Histories {
    Histories(s.accepted, Enqueued(prompts), Enqueued(followUps), b.trace, b.requests, b.given.inputs, b.run, late)
  }

  function Recorded(b: Books, e: Event): Books {
    Books(
      Then(b.trace, e),
      Extend(b.summary, e),
      Then(b.run, e),
      NextStage(b.stage, e),
      b.ends + (if e.AgentEnd? then 1 else 0),
      b.kept && PromptKept(e),
      b.requests,
      if IsSteerEvent(e) then Then(b.blocks, b.inFlight) else b.blocks,
      if IsSteerEvent(e) then Empty else b.inFlight,
      b.given)
  }

  /** The books at the start of a run. */
  function Begun(b: Books): Books {
    b.(run := Empty, stage := Fresh, ends := 0, kept := true, given := Noted(b.given, RunBegun))
  }

  ghost predicate BooksTrue(b: Books, nextRef: nat) {
    && b.summary == Summarize(b.trace) && b.summary.truthful
    && (forall r :: r in b.summary.phases ==> r < nextRef)
    && b.stage == StageOf(b.run) && b.ends == AgentEnds(b.run) && b.kept == PromptsKept(b.run)
    && Reports(b.blocks, b.summary.reported)
    && GivenTrue(b.given)
  }

  /** Every accepted steer text is in exactly one place, in order: reported, about to be, or pending. */
  ghost predicate SteersKept(b: Books, s: Steers, pendingSteer: Option<string>) {
    && s.accepted == Join(Join(Flatten(b.blocks), b.inFlight), s.waiting)
    && pendingSteer == (if s.waiting.Empty? then None else Some(JoinLines(s.waiting)))
    && (pendingSteer.Some? ==> pendingSteer.value != "")
  }

  /** The steer texts that have been reported or are about to be. */
  function Told(b: Books): Log<string> {
    Join(Flatten(b.blocks), b.inFlight)
  }

  lemma {:induction false} JoinLinesJoin(a: Log<string>, b: Log<string>)
    requires a.Then? && b.Then?
    ensures Join(a, b).Then? && JoinLines(Join(a, b)) == JoinLines(a) + "\n" + JoinLines(b)
  {
    if b.past.Then? {
      JoinLinesJoin(a, b.past);
      assert JoinLines(a) + "\n" + JoinLines(b) == JoinLines(a) + "\n" + JoinLines(b.past) + "\n" + b.last;
    }
  }

  lemma {:induction false} ReportsText(blocks: Log<Log<string>>, reported: Log<string>)
    requires Reports(blocks, reported) && blocks.Then?
    ensures Flatten(blocks).Then? && JoinLines(Flatten(blocks)) == JoinLines(reported)
  {
    var last := blocks.last;
    if blocks.past.Then? {
      ReportsText(blocks.past, reported.past);
      JoinLinesJoin(Flatten(blocks.past), last);
    } else {
      JoinEmpty(last);
    }
  }

  lemma {:induction false} JoinEmpty<T>(log: Log<T>)
    ensures Join(Empty, log) == log
  {
    if log.Then? {
      JoinEmpty(log.past);
    }
  }

  /**
   Steer conservation in plain text: between reports, the accepted texts, line by line, are exactly the
   reported blocks followed by the pending one.
   */
  lemma {:induction false} SteerTextConserved(b: Books, s: Steers, pendingSteer: Option<string>, nextRef: nat)
    requires BooksTrue(b, nextRef) && SteersKept(b, s, pendingSteer) && b.inFlight.Empty? && s.accepted.Then?
    ensures var told := if pendingSteer.Some? then Then(b.summary.reported, pendingSteer.value) else b.summary.reported;
            told.Then? && JoinLines(s.accepted) == JoinLines(told)
  {
    if b.blocks.Then? {
      ReportsText(b.blocks, b.summary.reported);
      if s.waiting.Then? {
        JoinLinesJoin(Flatten(b.blocks), s.waiting);
      }
    } else {
      JoinEmpty(s.waiting);
    }
  }

  /** What an event must satisfy to be emitted: true phases, and steer reports of the consumed block. */
  predicate Emittable(b: Books, nextRef: nat, e: Event) {
    && TruePhase(b.summary.phases, e) && (e.PhaseChange? ==> e.ref < nextRef)
    && (IsSteerEvent(e) ==> b.inFlight.Then? && e.text == JoinLines(b.inFlight))
  }

  lemma {:induction false} RecordedTrue(b: Books, s: Steers, pendingSteer: Option<string>, nextRef: nat, e: Event)
    requires BooksTrue(b, nextRef) && SteersKept(b, s, pendingSteer) && Emittable(b, nextRef, e)
    ensures BooksTrue(Recorded(b, e), nextRef) && SteersKept(Recorded(b, e), s, pendingSteer)
  {
  }

  lemma {:induction false} BegunTrue(b: Books, s: Steers, pendingSteer: Option<string>, nextRef: nat)
    requires BooksTrue(b, nextRef) && SteersKept(b, s, pendingSteer)
    ensures BooksTrue(Begun(b), nextRef) && SteersKept(Begun(b), s, pendingSteer)
  {
  }

  lemma {:induction false} AnsweredEmittable(b: Books, nextRef: nat, event: Event, current: Event)
    requires Emittable(b, nextRef, event) && MayBecome(event, current)
    ensures Emittable(b, nextRef, current) && (current.MessageEnd? <==> event.MessageEnd?)
  {
  }

  lemma {:induction false} ToolRecorded(b: Books, e: Event)
    requires IsToolEvent(e) && b.summary.truthful && TruePhase(b.summary.phases, e)
    requires b.stage.InTurn? || b.stage.Torn?
    ensures ToolBooks(b, Recorded(b, e)) && Recorded(b, e).given == b.given && ExcludeFromEvent(e) == e
  {
  }

  /** Late updates come from bodies that were left behind or have settled. */
  ghost predicate LateTrue(late: Log<Late>, emitted: nat, b: Books) {
    && LateInOrder(late, emitted) && (HasOrphan(late) ==> b.given.loose != {})
    && (late.Then? ==> b.given.loose + b.summary.settled != {})
  }

  class Engine {
    var messages: seq<Message>
    var active: bool
    var aborted: bool
    var pendingSteer: Option<string>
    var nextRef: nat
    const promptQueue: PendingMessageQueue
    const followUpQueue: PendingMessageQueue
    const listeners: nat

    ghost var books: Books
    ghost var steers: Steers
    ghost var emitted: nat     // events of the current run emitted so far
    ghost var late: Log<Late>  // late updates since the current run began
    ghost var marks: set<Histories>  // the histories at some earlier moments of the run, whichever they are

    ghost function Now(): Histories
      reads this, promptQueue, followUpQueue
    {
      HistoriesOf(books, steers, promptQueue.history, followUpQueue.history, late)
    }

    /** What holds also while an event is with the listeners. */
    ghost predicate Consistent()
      reads this, promptQueue, followUpQueue
    {
      && promptQueue != followUpQueue
      && promptQueue.Valid() && followUpQueue.Valid()
      && BooksTrue(books, nextRef) && SteersKept(books, steers, pendingSteer)
      && LateTrue(late, emitted, books)
      && (forall m :: m in marks ==> Since(m, Now()))
    }

    ghost predicate Valid()
      reads this, promptQueue, followUpQueue
    {
      Consistent() && emitted == Size(books.run)
    }

    /**
     Any earlier moments of the run may be marked, and `Valid` says that all their histories are still there; so
     a method that keeps the marks forgets nothing.
     */
    twostate predicate Remembers()
      reads this
    {
      marks == old(marks)
    }

    /** What neither client calls nor emitted events change. */
    twostate predicate Drained()
      reads this, promptQueue, followUpQueue
    {
      && Remembers() && promptQueue.drained == old(promptQueue.drained)
      && followUpQueue.drained == old(followUpQueue.drained)
    }

    constructor (queueMode: QueueMode, followUpMode: QueueMode, unwanted: Message -> bool, listeners: nat)
      ensures Valid() && messages == [] && !active && books.trace == Empty && steers.accepted == Empty
      ensures fresh(promptQueue) && fresh(followUpQueue)
    {
      messages, active, aborted, pendingSteer, nextRef := [], false, false, None, 0;
      promptQueue := new PendingMessageQueue(queueMode, unwanted);
      followUpQueue := new PendingMessageQueue(followUpMode, unwanted);
      this.listeners := listeners;
      books := Books(Empty, Summarize(Empty), Empty, Fresh, 0, true, [], Empty, Empty, Given(Empty, true, false, {}));
      steers := Steers(Empty, Empty);
      emitted, late := 0, Empty;
      marks := {};
    }

    method Steer(text: string) returns (ok: bool)
      requires Consistent()
      modifies this`pendingSteer, this`steers
      ensures Consistent()
      ensures ok <==> active && Trim(text) != ""
      ensures steers.accepted == if ok then Then(old(steers.accepted), Trim(text)) else old(steers.accepted)
      ensures !ok ==> pendingSteer == old(pendingSteer) && steers == old(steers)
    {
      if !active {
        return false;
      }
      var cleaned := Trim(text);
      if cleaned == "" {
        return false;
      }
      ok := true;
      pendingSteer := Some(if pendingSteer.Some? then pendingSteer.value + "\n" + cleaned else cleaned);
      steers := Steers(Then(steers.accepted, cleaned), Then(steers.waiting, cleaned));
    }

    method ConsumePendingSteer() returns (text: Option<string>)
      requires Valid() && books.inFlight.Empty?
      modifies this`pendingSteer, this`books, this`steers
      ensures Valid() && text == old(pendingSteer) && pendingSteer == None
      ensures steers == old(steers).(waiting := Empty) && steers.accepted == Told(books)
      ensures books == old(books).(inFlight := old(steers).waiting)
      ensures text.Some? <==> books.inFlight.Then?
      ensures text.Some? ==> text.value == JoinLines(books.inFlight)
    {
      text := pendingSteer;
      pendingSteer := None;
      books := books.(inFlight := steers.waiting);
      steers := steers.(waiting := Empty);
    }

    /**
     What happens while the run is suspended: client calls (queue, followUp, removeQueuedMessage, steer, abort),
     and updates of tool bodies that were left behind or call back after they have settled.
     */
    method Await()
      requires Consistent()
      modifies this`pendingSteer, this`steers, this`aborted, this`late, promptQueue, followUpQueue
      ensures Consistent() && Drained() && Begins(old(steers.accepted), steers.accepted)
    {
      var calls: nat := *;
      while calls > 0
        invariant Consistent() && Drained() && Begins(old(steers.accepted), steers.accepted)
      {
        Interrupt();
        calls := calls - 1;
      }
    }

    /** One such call, or none. */
    method Interrupt()
      requires Consistent()
      modifies this`pendingSteer, this`steers, this`aborted, this`late, promptQueue, followUpQueue
      ensures Consistent() && Drained()
      ensures steers.accepted == old(steers.accepted)
              || (steers.accepted.Then? && steers.accepted.past == old(steers.accepted))
    {
      var which: int := *;
      var text: string := *;
      var message: Message := *;
      var ref: nat := *;
      if which == 0 {
        if IsInput(message) { promptQueue.Enqueue(message); }
      } else if which == 1 {
        if IsInput(message) { followUpQueue.Enqueue(message); }
      } else if which == 2 {
        if promptQueue.unwanted(message) { var _ := promptQueue.Remove(message); }
      } else if which == 3 {
        if followUpQueue.unwanted(message) { var _ := followUpQueue.Remove(message); }
      } else if which == 4 {
        var _ := Steer(text);
      } else if which == 5 {
        UpdateLate(ref);
      } else {
        aborted := true;
      }
    }

    /** A body that nobody awaits calls back; only one that was left behind or has settled can. */
    method UpdateLate(ref: nat)
      requires Consistent()
      modifies this`late
      ensures Consistent()
      ensures late == if ref in books.given.loose || ref in books.summary.settled
                      then Then(old(late), Late(ref, emitted, ref in books.given.loose)) else old(late)
    {
      ghost var orphan := ref in books.given.loose;
      if orphan || ref in books.summary.settled {
        LateSooner(late, emitted, emitted);
        late := Then(late, Late(ref, emitted, orphan));
      }
    }

    /** The listeners answer in turn; an answer to a message_end replaces the message. */
    method AskListeners(event: Event) returns (current: Event)
      requires Consistent()
      requires event.MessageEnd? ==> event.committed == event.emitted && ListenerMay(event.emitted, event.emitted)
      modifies this`pendingSteer, this`steers, this`aborted, this`late, promptQueue, followUpQueue
      ensures Consistent() && Drained() && MayBecome(event, current)
    {
      current := ExcludeFromEvent(event);
      var i := 0;
      while i < listeners
        invariant Consistent() && Drained() && MayBecome(event, current)
      {
        Await();
        if current.MessageEnd? {
          var answer: Option<Message> := *;
          if answer.Some? && ListenerMay(event.emitted, answer.value) {
            current := ExcludeFromEvent(current.(committed := answer.value));
          }
        }
        i := i + 1;
      }
    }

    /** `#processEvents`: the event is out, the listeners answer, then it is committed. */
    method ProcessEvents(event: Event) returns (current: Event)
      requires Valid() && Emittable(books, nextRef, event)
      requires event.MessageEnd? ==> event.committed == event.emitted && ListenerMay(event.emitted, event.emitted)
      modifies this`pendingSteer, this`steers, this`aborted, this`late, this`emitted, this`messages, this`books,
               promptQueue, followUpQueue
      ensures Valid() && Drained()
      ensures MayBecome(event, current)
      ensures messages == if event.MessageEnd? then old(messages) + [current.committed] else old(messages)
      ensures books == Recorded(old(books), current)
    {
      current := Emit(event);
      Commit(current);
    }

    /** The event goes out, and the listeners have answered. */
    method Emit(event: Event) returns (current: Event)
      requires Valid() && Emittable(books, nextRef, event)
      requires event.MessageEnd? ==> event.committed == event.emitted && ListenerMay(event.emitted, event.emitted)
      modifies this`pendingSteer, this`steers, this`aborted, this`late, this`emitted, promptQueue, followUpQueue
      ensures Consistent() && Drained() && emitted == Size(books.run) + 1
      ensures MayBecome(event, current) && Emittable(books, nextRef, current)
      ensures current.MessageEnd? <==> event.MessageEnd?
    {
      LateSooner(late, emitted, emitted + 1);
      emitted := emitted + 1;
      current := AskListeners(event);
      AnsweredEmittable(books, nextRef, event, current);
    }

    method Commit(current: Event)
      requires Consistent() && emitted == Size(books.run) + 1 && Emittable(books, nextRef, current)
      modifies this`messages, this`books
      ensures Valid() && books == Recorded(old(books), current)
      ensures messages == if current.MessageEnd? then old(messages) + [current.committed] else old(messages)
    {
      RecordedTrue(books, steers, pendingSteer, nextRef, current);
      if current.MessageEnd? {
        messages := messages + [current.committed];
      }
      books := Recorded(books, current);
    }

    /** What a tool event leaves alone: everything but the phases of the calls. */
    twostate predicate ToolSteady()
      reads this, promptQueue, followUpQueue
    {
      && messages == old(messages) && active == old(active) && nextRef == old(nextRef)
      && Drained() && ToolBooks(old(books), books)
    }

    /** Emits an event of a running tool call. */
    method Tell(e: Event)
      requires Valid() && IsToolEvent(e) && (books.stage.InTurn? || books.stage.Torn?)
      requires Emittable(books, nextRef, e)
      modifies this, promptQueue, followUpQueue
      ensures Valid() && ToolSteady() && books.trace == Then(old(books).trace, e)
      ensures books.summary.phases
           == if e.PhaseChange? then old(books).summary.phases[e.ref := e.phase] else old(books).summary.phases
      ensures books.given == old(books).given
    {
      ToolRecorded(books, e);
      var _ := ProcessEvents(e);
    }

    /** A run begins: its books and its late updates are fresh, and nothing of earlier runs is forgotten. */
    method BeginRun()
      requires Valid() && !active
      modifies this`active, this`aborted, this`books, this`emitted, this`late, this`marks
      ensures Valid() && active && books == Begun(old(books))
      ensures marks == {Now()} && Grown(old(Now()), Now())
    {
      BegunTrue(books, steers, pendingSteer, nextRef);
      active, aborted := true, false;
      books := Begun(books);
      emitted, late := 0, Empty;
      marks := {Now()};
    }

    /** Takes down what a stream or an after-hook did. */
    method Note(i: Input)
      requires Valid() && !i.RunBegun?
      modifies this`books
      ensures Valid() && books == old(books).(given := Noted(old(books).given, i))
    {
      books := books.(given := Noted(books.given, i));
    }

    /** The bodies of these calls are left behind by a throwing after-hook. */
    method LeaveBehind(ghost refs: set<nat>)
      requires Valid() && books.given.hook
      modifies this`books
      ensures Valid() && books == old(books).(given := old(books).given.(loose := old(books).given.loose + refs))
    {
      ThrewEver(books.given.inputs);
      books := books.(given := books.given.(loose := books.given.loose + refs));
    }

    /** The references of a batch of tool calls that is about to run. */
    method OpenBatch(calls: nat) returns (base: nat)
      requires Valid()
      modifies this`nextRef
      ensures Valid() && base == old(nextRef) && nextRef == base + calls
    {
      base := nextRef;
      nextRef := nextRef + calls;
    }
  }

  /** How `#processEvents` may change an event. */
  ghost predicate MayBecome(event: Event, current: Event) {
    if event.MessageEnd?
    then current.MessageEnd? && current.emitted == event.emitted && current.origin == event.origin
         && Committable(event.emitted, current.committed)
    else current == ExcludeFromEvent(event)
  }

  /** Books that differ by tool events. */
  ghost predicate ToolBooks(before: Books, after: Books) {
    after == before.(
      trace := after.trace,
      run := after.run,
      summary := before.summary.(phases := after.summary.phases, settled := after.summary.settled),
      given := after.given.(single := before.given.single))
  }
}
