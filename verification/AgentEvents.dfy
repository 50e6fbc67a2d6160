/**
 The event trace of the agent engine: what a trace says about the run that emitted it.
 The bracketing of turns and messages, the phases of each tool call, the steer reports and the
 committed messages are all read off the trace alone.
 */
module AgentEvents {
  import opened Prelude
  import opened AgentMessages

  datatype Phase = Classify | Authorize | Prepare | Execute | Record | Cleanup

  datatype DropReason = OnAbort | OnFailure | NoToolBoundary

  /** The emit site of a committed message. */
  datatype Origin = Prompted | Queued | FollowedUp | Modelled | ToolMade | RunFailed

  /**
   Events as the engine's listeners see them. `ref` numbers the tool calls of an engine's lifetime.
   A `MessageEnd` holds the message as emitted and as committed after the listeners have answered.
   */
  datatype Event =
    | AgentStart
    | AgentEnd(messages: seq<Message>)
    | TurnStart
    | TurnEnd(message: Message, results: seq<Message>)
    | MessageStart(message: Message)
    | MessageUpdate(message: Message)
    | MessageEnd(emitted: Message, committed: Message, origin: Origin)
    | ToolStart(ref: nat, call: ToolCall)
    | ToolUpdate(ref: nat)
    | ToolEnd(ref: nat, isError: bool)
    | PhaseChange(ref: nat, phase: Phase, previous: Option<Phase>)
    | SteerApplied(text: string, toolCallId: string, message: Message)
    | SteerDropped(text: string, reason: DropReason)

  predicate IsToolEvent(e: Event) {
    e.ToolStart? || e.ToolUpdate? || e.ToolEnd? || e.PhaseChange?
  }

  predicate IsSteerEvent(e: Event) {
    e.SteerApplied? || e.SteerDropped?
  }

  // ---------------------------------------------------------------- bracketing

  /** Where a run stands; `Torn` marks a trace that is not well bracketed. */
  datatype Stage = Fresh | Opened | InTurn | InMessage | Between | Closed | Torn

  function NextStage(s: Stage, e: Event): Stage {
    match e
    case AgentStart => if s.Fresh? then Opened else Torn
    case TurnStart => if s.Opened? || s.Between? then InTurn else Torn
    case MessageStart(_) => if s.InTurn? then InMessage else Torn
    case MessageUpdate(_) => if s.InMessage? then InMessage else Torn
    case MessageEnd(_, _, _) => if s.InMessage? then InTurn else Torn
    case TurnEnd(_, _) => if s.InTurn? then Between else Torn
    case AgentEnd(_) => if s.Between? then Closed else Torn
    case _ => if s.InTurn? then InTurn else Torn
  }

  function StageOf(run: Log<Event>): Stage {
    if run.Empty? then Fresh else NextStage(StageOf(run.past), run.last)
  }

  /** agent_start, at least one turn of matched messages, one agent_end. */
  predicate WellBracketed(run: Log<Event>) {
    StageOf(run).Closed?
  }

  function AgentEnds(run: Log<Event>): nat {
    if run.Empty? then 0 else AgentEnds(run.past) + (if run.last.AgentEnd? then 1 else 0)
  }

  /** Exactly one agent_end, and nothing after it. */
  predicate EndsOnce(run: Log<Event>) {
    run.Then? && run.last.AgentEnd? && AgentEnds(run.past) == 0
  }

  /** A well-bracketed run ends once; before it is closed it has emitted no agent_end. */
  lemma {:induction false} BracketedEndsOnce(run: Log<Event>)
    ensures !StageOf(run).Closed? && !StageOf(run).Torn? ==> AgentEnds(run) == 0
    ensures WellBracketed(run) ==> EndsOnce(run)
  {
    if run.Then? {
      BracketedEndsOnce(run.past);
    }
  }

  // ---------------------------------------------------------------- phases

  /** The moves of one tool call: the full path, and the two early exits. */
  predicate PhaseMove(previous: Option<Phase>, phase: Phase) {
    match phase
    case Classify => previous.None?
    case Authorize => previous == Some(Classify)
    case Prepare => previous == Some(Authorize)
    case Execute => previous == Some(Prepare)
    case Record => previous == Some(Execute)
    case Cleanup => previous == Some(Classify) || previous == Some(Authorize) || previous == Some(Record)
  }

  function PhaseOf(phases: map<nat, Phase>, ref: nat): Option<Phase> {
    if ref in phases then Some(phases[ref]) else None
  }

  /**
   A phase event is true when its `previous` is the call's last phase and the move exists, and an update
   when its call is executing.
   */
  predicate TruePhase(phases: map<nat, Phase>, e: Event) {
    && (e.PhaseChange? ==> e.previous == PhaseOf(phases, e.ref) && PhaseMove(e.previous, e.phase))
    && (e.ToolUpdate? ==> PhaseOf(phases, e.ref) == Some(Execute))
  }

  /** What a trace establishes, accumulated event by event; `settled` are the calls whose body was recorded. */
  datatype Summary = Summary(
    phases: map<nat, Phase>,
    settled: set<nat>,
    truthful: bool,
    reported: Log<string>,
    queued: Log<Message>,
    followed: Log<Message>,
    committed: Log<Message>)

  function Extend(s: Summary, e: Event): Summary {
    Summary(
      if e.PhaseChange? then s.phases[e.ref := e.phase] else s.phases,
      if e.PhaseChange? && e.phase.Record? then s.settled + {e.ref} else s.settled,
      s.truthful && TruePhase(s.phases, e),
      if IsSteerEvent(e) then Then(s.reported, e.text) else s.reported,
      if e.MessageEnd? && e.origin.Queued? then Then(s.queued, e.emitted) else s.queued,
      if e.MessageEnd? && e.origin.FollowedUp? then Then(s.followed, e.emitted) else s.followed,
      if e.MessageEnd? then Then(s.committed, e.committed) else s.committed)
  }

  function Summarize(trace: Log<Event>): Summary {
    if trace.Empty? then Summary(map[], {}, true, Empty, Empty, Empty, Empty)
    else Extend(Summarize(trace.past), trace.last)
  }

  /** The phases one call went through, in order. */
  function PathOf(trace: Log<Event>, ref: nat): seq<Phase> {
    if trace.Empty? then []
    else PathOf(trace.past, ref)
         + (if trace.last.PhaseChange? && trace.last.ref == ref then [trace.last.phase] else [])
  }

  const FULL_PATH := [Classify, Authorize, Prepare, Execute, Record, Cleanup]

  /** A path is a beginning of the full path or one of the two early exits. */
  predicate LegalPath(path: seq<Phase>) {
    || path <= FULL_PATH
    || path == [Classify, Cleanup]
    || path == [Classify, Authorize, Cleanup]
  }

  /** In a truthful trace every call walks one legal path, and its last phase is the recorded one. */
  lemma {:induction false} TruthfulPaths(trace: Log<Event>, ref: nat)
    requires Summarize(trace).truthful
    ensures LegalPath(PathOf(trace, ref))
    ensures PhaseOf(Summarize(trace).phases, ref)
         == if PathOf(trace, ref) == [] then None else Some(Last(PathOf(trace, ref)))
  {
    if trace.Then? {
      TruthfulPaths(trace.past, ref);
      var before := PathOf(trace.past, ref);
      var e := trace.last;
      if e.PhaseChange? && e.ref == ref {
        assert PhaseMove(e.previous, e.phase);
        assert before <= FULL_PATH ==> before == FULL_PATH[..|before|];
      }
    }
  }

  /** A call that was cleaned up has walked one of the three whole paths. */
  lemma {:induction false} CleanedUpPaths(trace: Log<Event>, ref: nat)
    requires Summarize(trace).truthful && PhaseOf(Summarize(trace).phases, ref) == Some(Cleanup)
    ensures var path := PathOf(trace, ref);
            path == FULL_PATH || path == [Classify, Cleanup] || path == [Classify, Authorize, Cleanup]
  {
    TruthfulPaths(trace, ref);
    var path := PathOf(trace, ref);
    if path <= FULL_PATH {
      assert Last(path) == FULL_PATH[|path| - 1];
      assert path == FULL_PATH[..|path|];
    }
  }

  // ---------------------------------------------------------------- what the run was given

  /** Every prompt was committed as it was emitted. */
  predicate PromptsKept(run: Log<Event>) {
    run.Then? ==> PromptsKept(run.past) && PromptKept(run.last)
  }

  predicate PromptKept(e: Event) {
    e.MessageEnd? && e.origin.Prompted? ==> e.committed == e.emitted
  }

  /** What streams and after-hooks did: the answers from outside on which the run's shape depends. */
  datatype Input = RunBegun | StreamOpened | StreamStarted | HookRan(ref: nat, threw: bool)

  /** The "start" events of the latest stream. */
  function Starts(inputs: Log<Input>): nat {
    if inputs.Empty? || inputs.last.RunBegun? || inputs.last.StreamOpened? then 0
    else Starts(inputs.past) + if inputs.last.StreamStarted? then 1 else 0
  }

  /** No stream of the current run started twice. */
  predicate StartsOnce(inputs: Log<Input>) {
    inputs.Then? && !inputs.last.RunBegun? ==>
      StartsOnce(inputs.past) && (inputs.last.StreamStarted? ==> Starts(inputs.past) == 0)
  }

  /** Some after-hook of the current run threw. */
  predicate AfterHookThrew(inputs: Log<Input>) {
    inputs.Then? && !inputs.last.RunBegun?
      && ((inputs.last.HookRan? && inputs.last.threw) || AfterHookThrew(inputs.past))
  }

  /** Some after-hook of any run threw. */
  predicate EverThrew(inputs: Log<Input>) {
    inputs.Then? && ((inputs.last.HookRan? && inputs.last.threw) || EverThrew(inputs.past))
  }

  lemma {:induction false} ThrewEver(inputs: Log<Input>)
    requires AfterHookThrew(inputs)
    ensures EverThrew(inputs)
  {
    if !(inputs.last.HookRan? && inputs.last.threw) {
      ThrewEver(inputs.past);
    }
  }

  // ---------------------------------------------------------------- late updates

  /**
   A tool_execution_update of a body that nobody awaits: it was left running when an after-hook threw
   (`orphan`), or its tool calls back after it has settled. `after` counts the run's own events before it.
   */
  datatype Late = Late(ref: nat, after: nat, orphan: bool)

  /** Late updates are noted in order, none beyond the events emitted so far. */
  ghost predicate LateInOrder(late: Log<Late>, emitted: nat) {
    late.Then? ==> late.last.after <= emitted && LateInOrder(late.past, late.last.after)
  }

  predicate HasOrphan(late: Log<Late>) {
    late.Then? && (late.last.orphan || HasOrphan(late.past))
  }

  /** No tool calls back after it has settled. */
  predicate Disciplined(late: Log<Late>) {
    late.Then? ==> late.last.orphan && Disciplined(late.past)
  }

  /** What the listeners hear: the run's own events with the late updates in between. */
  function Heard(run: Log<Event>, late: Log<Late>): Log<Event>
    decreases Size(run) + Size(late)
  {
    if late.Then? && late.last.after >= Size(run) then Then(Heard(run, late.past), ToolUpdate(late.last.ref))
    else if run.Then? then Then(Heard(run.past, late), run.last)
    else Empty
  }

  /** Where a run stood after its first `n` events. */
  function StageAt(run: Log<Event>, n: nat): Stage {
    if Size(run) <= n then StageOf(run) else StageAt(run.past, n)
  }

  /** Every late update fell into a turn and between messages. */
  predicate LateInTurn(run: Log<Event>, late: Log<Late>) {
    late.Then? ==> StageAt(run, late.last.after).InTurn? && LateInTurn(run, late.past)
  }

  lemma {:induction false} LateInTurnBefore(run: Log<Event>, late: Log<Late>)
    requires run.Then? && LateInOrder(late, Size(run.past))
    ensures LateInTurn(run, late) <==> LateInTurn(run.past, late)
  {
    if late.Then? {
      LateSooner(late.past, late.last.after, Size(run.past));
      LateInTurnBefore(run, late.past);
    }
  }

  lemma {:induction false} LateSooner(late: Log<Late>, emitted: nat, later: nat)
    requires LateInOrder(late, emitted) && emitted <= later
    ensures LateInOrder(late, later)
  {
  }

  /** With late updates the trace is torn exactly if one of them falls outside a turn or into a message. */
  lemma {:induction false} HeardStage(run: Log<Event>, late: Log<Late>)
    requires LateInOrder(late, Size(run))
    ensures StageOf(Heard(run, late)) == if LateInTurn(run, late) then StageOf(run) else Torn
    decreases Size(run) + Size(late)
  {
    if late.Then? && late.last.after >= Size(run) {
      HeardStage(run, late.past);
    } else if run.Then? {
      HeardStage(run.past, late);
      LateInTurnBefore(run, late);
    }
  }

  lemma {:induction false} HeardAgentEnds(run: Log<Event>, late: Log<Late>)
    ensures AgentEnds(Heard(run, late)) == AgentEnds(run)
    decreases Size(run) + Size(late)
  {
    if late.Then? && late.last.after >= Size(run) {
      HeardAgentEnds(run, late.past);
    } else if run.Then? {
      HeardAgentEnds(run.past, late);
    }
  }

  /** What the listeners hear is well bracketed exactly if the run is and late updates fall into its turns. */
  lemma {:induction false} HeardBracketed(run: Log<Event>, late: Log<Late>)
    requires LateInOrder(late, Size(run))
    ensures WellBracketed(Heard(run, late)) <==> WellBracketed(run) && LateInTurn(run, late)
  {
    HeardStage(run, late);
  }

  /** If the run ends once, agent_end is the last event heard exactly if no late update comes after it. */
  lemma {:induction false} HeardEndsOnce(run: Log<Event>, late: Log<Late>)
    requires EndsOnce(run) && LateInOrder(late, Size(run))
    ensures EndsOnce(Heard(run, late)) <==> !(late.Then? && late.last.after == Size(run))
  {
    if late.Then? && late.last.after >= Size(run) {
      assert Heard(run, late).last == ToolUpdate(late.last.ref);
    } else {
      HeardAgentEnds(run.past, late);
    }
  }

  /** Without orphans and with disciplined tools the listeners hear the run's own events and nothing else. */
  lemma {:induction false} HeardAlone(run: Log<Event>, late: Log<Late>)
    requires !HasOrphan(late) && Disciplined(late)
    ensures Heard(run, late) == run
  {
    if run.Then? {
      HeardAlone(run.past, late);
    }
  }

  /** Late updates change no phase: each call still walks the path its own events name. */
  lemma {:induction false} HeardPath(run: Log<Event>, late: Log<Late>, ref: nat)
    ensures PathOf(Heard(run, late), ref) == PathOf(run, ref)
    decreases Size(run) + Size(late)
  {
    if late.Then? && late.last.after >= Size(run) {
      HeardPath(run, late.past, ref);
    } else if run.Then? {
      HeardPath(run.past, late, ref);
    }
  }
}
