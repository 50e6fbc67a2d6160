/**
 Webhook delivery end to end: the reserve, forward and roll back part of the worker's handler
 (telegram-webhook-worker.ts) in front of the ingress, over a network that delays and loses requests and
 responses. Telegram retries an update until it is acknowledged.
 */
module Delivery {
  import opened Prelude
  import opened ReplayStore
  import Ingress

  predicate IsForwardSuccess(status: int) {
    200 <= status < 300 || status == 409
  }

  datatype Answer = Duplicate | Accepted | BadGateway

  /** 200 to Telegram, which then stops retrying. */
  predicate Acknowledges(a: Answer) {
    a.Duplicate? || a.Accepted?
  }

  /**
   `edge` is the worker's replay store; `waiting` the forward each update's handler awaits; `forwards` the
   update of every forward ever made; `requests` and `responses` what is on the wire. The dispatch that a
   forward causes at the ingress carries the forward's number.
   */
  datatype State = State(
    edge: map<string, int>,
    waiting: map<string, nat>,
    forwards: map<nat, string>,
    requests: set<nat>,
    responses: map<nat, int>,
    ingress: Ingress.State,
    answers: map<string, Answer>)

  datatype Step =
    | Arrive(update: string, now: int)
    | Deliver(forward: nat, authorized: bool, now: int)
    | LoseRequest(forward: nat)
    | Settle(forward: nat, ok: bool)
    | LoseResponse(forward: nat)
    | Return(update: string)
    | FetchFails(update: string)
    | Forget(update: string)

  /** The two TTLs and the ingress key of each update. */
  datatype Config = Config(edgeTtl: int, ingressTtl: int, key: string -> string)

  predicate Running(s: State, forward: nat) {
    forward in s.ingress.dispatches && s.ingress.dispatches[forward].status.Running?
  }

  /** What can happen; retries of one update do not overlap. */
  predicate Enabled(s: State, step: Step) {
    match step
    case Arrive(u, _) => u !in s.waiting
    case Deliver(f, _, _) => f in s.requests && f in s.forwards
    case LoseRequest(f) => f in s.requests
    case Settle(f, _) => Running(s, f)
    case LoseResponse(f) => f in s.responses
    case Return(u) => u in s.waiting && s.waiting[u] in s.responses
    case FetchFails(u) => u in s.waiting
    case Forget(_) => true
  }

  /** The worker before the forward. */
  function Reserve(edge: map<string, int>, update: string, ttl: int, now: int): (map<string, int>, Option<Answer>) {
    (Put(edge, update, ttl, now), if Live(edge, update, now) then Some(Duplicate) else None)
  }

  /** The worker after it: `None` is a fetch that threw. */
  function Conclude(edge: map<string, int>, update: string, status: Option<int>): (map<string, int>, Answer) {
    if status.Some? && IsForwardSuccess(status.value) then (edge, Accepted) else (edge - {update}, BadGateway)
  }

  function Concluded(s: State, update: string, status: Option<int>): State {
    var (edge, answer) := Conclude(s.edge, update, status);
    s.(edge := edge, waiting := s.waiting - {update}, answers := s.answers[update := answer])
  }

  function Arrived(s: State, update: string, next: nat, ttl: int, now: int): State {
    var (edge, answer) := Reserve(s.edge, update, ttl, now);
    if answer.Some? then s.(edge := edge, answers := s.answers[update := answer.value])
    else s.(edge := edge, waiting := s.waiting[update := next], forwards := s.forwards[next := update],
            requests := s.requests + {next})
  }

  function Delivered(s: State, forward: nat, authorized: bool, c: Config, now: int): State
    requires forward in s.forwards
  {
    var key := c.key(s.forwards[forward]);
    var left := s.(requests := s.requests - {forward});
    if !authorized then left.(responses := s.responses[forward := 401])
    else if Live(s.ingress.entries, key, now) then
      left.(responses := s.responses[forward := 409],
            ingress := Ingress.Receive(s.ingress, forward, key, c.ingressTtl, now))
    else left.(ingress := Ingress.Receive(s.ingress, forward, key, c.ingressTtl, now))
  }

  function Settled(s: State, forward: nat, ok: bool): State
    requires Running(s, forward)
  {
    s.(ingress := Ingress.Settle(s.ingress, forward, ok), responses := s.responses[forward := if ok then 202 else 500])
  }

  /** `next` is a forward number not used before. */
  function Next(s: State, step: Step, next: nat, c: Config): State
    requires Enabled(s, step)
  {
    match step
    case Arrive(u, now) => Arrived(s, u, next, c.edgeTtl, now)
    case Deliver(f, authorized, now) => Delivered(s, f, authorized, c, now)
    case LoseRequest(f) => s.(requests := s.requests - {f})
    case Settle(f, ok) => Settled(s, f, ok)
    case LoseResponse(f) => s.(responses := s.responses - {f})
    case Return(u) => Concluded(s, u, Some(s.responses[s.waiting[u]]))
    case FetchFails(u) => Concluded(s, u, None)
    case Forget(u) => s.(edge := s.edge - {u})
  }

  // ---------------------------------------------------------------- acknowledged implies dispatched

  /** Some dispatch of the update's ingress key has succeeded. */
  predicate Succeeded(s: State, c: Config, update: string) {
    Ingress.HasRun(s.ingress, c.key(update), Ingress.Succeeded)
  }

  /**
   The guard of the 409 branch, as it should be: an authorized forward that finds its key live at the ingress
   finds that a dispatch of the key has succeeded.
   */
  predicate Warranted(s: State, step: Step, c: Config) {
    step.Deliver? && step.authorized && step.forward in s.forwards
    && Live(s.ingress.entries, c.key(s.forwards[step.forward]), step.now) ==>
      Succeeded(s, c, s.forwards[step.forward])
  }

  ghost predicate EdgeHonest(s: State, c: Config) {
    forall u :: u in s.edge && u !in s.waiting ==> Succeeded(s, c, u)
  }

  ghost predicate ResponsesHonest(s: State, c: Config) {
    forall f :: f in s.responses && f in s.forwards && IsForwardSuccess(s.responses[f]) ==>
      Succeeded(s, c, s.forwards[f])
  }

  ghost predicate AnswersHonest(s: State, c: Config) {
    forall u :: u in s.answers && Acknowledges(s.answers[u]) ==> Succeeded(s, c, u)
  }

  /** An update last answered 502 is not reserved. */
  ghost predicate Rolled(s: State) {
    forall u :: u in s.answers && s.answers[u].BadGateway? && u !in s.waiting ==> u !in s.edge
  }

  ghost predicate Linked(s: State, c: Config) {
    && (forall u :: u in s.waiting ==> s.waiting[u] in s.forwards && s.forwards[s.waiting[u]] == u)
    && (forall f :: f in s.ingress.dispatches ==>
          f in s.forwards && s.ingress.dispatches[f].key == c.key(s.forwards[f]))
    && (forall f :: f in s.requests ==> f in s.forwards && f !in s.ingress.dispatches)
    && (forall f :: f in s.responses ==> f in s.forwards)
    && Ingress.Owned(s.ingress, c.ingressTtl)
  }

  ghost predicate Honest(s: State, c: Config) {
    Linked(s, c) && EdgeHonest(s, c) && ResponsesHonest(s, c) && AnswersHonest(s, c) && Rolled(s)
  }

  /** No step undoes a success. */
  ghost predicate Keeps(s: State, s': State, c: Config) {
    forall u :: Succeeded(s, c, u) ==> Succeeded(s', c, u)
  }

  lemma {:induction false} ReceiveKeeps(s: State, s': State, forward: nat, key: string, c: Config, now: int)
    requires s'.ingress == Ingress.Receive(s.ingress, forward, key, c.ingressTtl, now)
    requires forward !in s.ingress.dispatches
    ensures Keeps(s, s', c)
  {
    forall u | Succeeded(s, c, u)
      ensures Succeeded(s', c, u)
    {
      var id :| id in s.ingress.dispatches && s.ingress.dispatches[id].key == c.key(u)
                && s.ingress.dispatches[id].status == Ingress.Succeeded;
      assert s'.ingress.dispatches[id] == s.ingress.dispatches[id];
    }
  }

  lemma {:induction false} SettleKeeps(s: State, s': State, forward: nat, ok: bool, c: Config)
    requires Running(s, forward) && s'.ingress == Ingress.Settle(s.ingress, forward, ok)
    ensures Keeps(s, s', c)
    ensures ok && s.ingress.dispatches[forward].key == c.key(s.forwards[forward]) ==>
              Succeeded(s', c, s.forwards[forward])
    requires forward in s.forwards
  {
    forall u | Succeeded(s, c, u)
      ensures Succeeded(s', c, u)
    {
      var id :| id in s.ingress.dispatches && s.ingress.dispatches[id].key == c.key(u)
                && s.ingress.dispatches[id].status == Ingress.Succeeded;
      assert s'.ingress.dispatches[id] == s.ingress.dispatches[id];
    }
    assert s'.ingress.dispatches[forward].key == s.ingress.dispatches[forward].key;
  }

  lemma {:induction false} ArriveLinked(s: State, update: string, next: nat, c: Config, now: int)
    requires Linked(s, c) && next !in s.forwards
    ensures Linked(Arrived(s, update, next, c.edgeTtl, now), c)
  {
  }

  lemma {:induction false} ArriveHonest(s: State, update: string, next: nat, c: Config, now: int)
    requires Honest(s, c) && update !in s.waiting && next !in s.forwards
    ensures Honest(Arrived(s, update, next, c.edgeTtl, now), c)
  {
    var s' := Arrived(s, update, next, c.edgeTtl, now);
    ArriveLinked(s, update, next, c, now);
    assert s'.ingress == s.ingress;
    assert Live(s.edge, update, now) ==> Succeeded(s, c, update);
    assert EdgeHonest(s', c) by {
      forall u | u in s'.edge && u !in s'.waiting
        ensures Succeeded(s', c, u)
      {
        assert u in s.edge;
      }
    }
  }

  lemma {:induction false} DeliveredDispatches(s: State, forward: nat, authorized: bool, c: Config, now: int, f: nat)
    requires Linked(s, c) && forward in s.requests && forward in s.forwards
    requires f in Delivered(s, forward, authorized, c, now).ingress.dispatches
    ensures f in s.forwards
    ensures Delivered(s, forward, authorized, c, now).ingress.dispatches[f].key == c.key(s.forwards[f])
    ensures f in s.ingress.dispatches || f == forward
  {
  }

  lemma {:induction false} DeliverLinked(s: State, forward: nat, authorized: bool, c: Config, now: int)
    requires Linked(s, c) && forward in s.requests && forward in s.forwards
    ensures Linked(Delivered(s, forward, authorized, c, now), c)
  {
    var s', update := Delivered(s, forward, authorized, c, now), s.forwards[forward];
    forall f | f in s'.ingress.dispatches
      ensures f in s.forwards && s'.ingress.dispatches[f].key == c.key(s.forwards[f])
      ensures f in s.ingress.dispatches || f == forward
    {
      DeliveredDispatches(s, forward, authorized, c, now, f);
    }
    if authorized {
      Ingress.ReceiveOwned(s.ingress, forward, c.key(update), c.ingressTtl, now);
    } else {
      assert s'.ingress == s.ingress;
    }
  }

  lemma {:induction false} DeliverKeeps(s: State, forward: nat, authorized: bool, c: Config, now: int)
    requires Linked(s, c) && forward in s.requests && forward in s.forwards
    ensures Keeps(s, Delivered(s, forward, authorized, c, now), c)
  {
    var s' := Delivered(s, forward, authorized, c, now);
    if authorized {
      ReceiveKeeps(s, s', forward, c.key(s.forwards[forward]), c, now);
    } else {
      assert s'.ingress == s.ingress;
    }
  }

  lemma {:induction false} DeliverHonest(s: State, forward: nat, authorized: bool, c: Config, now: int)
    requires Honest(s, c) && forward in s.requests && forward in s.forwards
    requires Warranted(s, Deliver(forward, authorized, now), c)
    ensures Honest(Delivered(s, forward, authorized, c, now), c)
  {
    DeliverLinked(s, forward, authorized, c, now);
    DeliverKeeps(s, forward, authorized, c, now);
    var s' := Delivered(s, forward, authorized, c, now);
    forall f | f in s'.responses && f in s'.forwards && IsForwardSuccess(s'.responses[f])
      ensures Succeeded(s', c, s'.forwards[f])
    {
      assert Succeeded(s, c, s.forwards[f]);
    }
  }

  /** An unwarranted 409 is a dishonest response. */
  lemma {:induction false} UnwarrantedDishonest(s: State, step: Step, next: nat, c: Config)
    requires Enabled(s, step) && !Warranted(s, step, c)
    ensures !ResponsesHonest(Next(s, step, next, c), c)
  {
    var s', f := Next(s, step, next, c), step.forward;
    assert s'.responses[f] == 409 && s'.ingress.dispatches == s.ingress.dispatches;
    assert !Succeeded(s', c, s'.forwards[f]);
  }

  lemma {:induction false} SettleHonest(s: State, forward: nat, ok: bool, c: Config)
    requires Honest(s, c) && Running(s, forward)
    ensures Honest(Settled(s, forward, ok), c)
  {
    SettleKeeps(s, Settled(s, forward, ok), forward, ok, c);
    Ingress.SettleOwned(s.ingress, forward, ok, c.ingressTtl);
  }

  lemma {:induction false} ConcludeHonest(s: State, update: string, status: Option<int>, c: Config)
    requires Honest(s, c) && update in s.waiting
    requires status.Some? ==> s.waiting[update] in s.responses && status.value == s.responses[s.waiting[update]]
    ensures Honest(Concluded(s, update, status), c)
  {
    var s' := Concluded(s, update, status);
    assert forall u :: Succeeded(s', c, u) <==> Succeeded(s, c, u);
  }

  lemma {:induction false} StepHonest(s: State, step: Step, next: nat, c: Config)
    requires Honest(s, c) && Enabled(s, step) && Warranted(s, step, c) && next !in s.forwards
    ensures Honest(Next(s, step, next, c), c)
  {
    match step
    case Arrive(u, now) => ArriveHonest(s, u, next, c, now);
    case Deliver(f, authorized, now) => DeliverHonest(s, f, authorized, c, now);
    case Settle(f, ok) => SettleHonest(s, f, ok, c);
    case Return(u) => ConcludeHonest(s, u, Some(s.responses[s.waiting[u]]), c);
    case FetchFails(u) => ConcludeHonest(s, u, None, c);
    case LoseRequest(_) => assert forall u :: Succeeded(Next(s, step, next, c), c, u) <==> Succeeded(s, c, u);
    case LoseResponse(_) => assert forall u :: Succeeded(Next(s, step, next, c), c, u) <==> Succeeded(s, c, u);
    case Forget(_) => assert forall u :: Succeeded(Next(s, step, next, c), c, u) <==> Succeeded(s, c, u);
  }

  const START := State(map[], map[], map[], {}, map[], Ingress.State(map[], map[]), map[])

  /** A step, and the number of the forward that it makes, if it makes one. */
  datatype Move = Move(step: Step, next: nat)

  predicate Possible(s: State, m: Move) {
    Enabled(s, m.step) && m.next !in s.forwards
  }

  /** The state after these moves, if they are possible one after the other. */
  function After(moves: Log<Move>, c: Config): Option<State> {
    if moves.Empty? then Some(START)
    else
      var s := After(moves.past, c);
      if s.Some? && Possible(s.value, moves.last) then Some(Next(s.value, moves.last.step, moves.last.next, c))
      else None
  }

  /** Every 409 of the run is warranted. */
  ghost predicate WarrantedRun(moves: Log<Move>, c: Config)
    requires After(moves, c).Some?
  {
    moves.Then? ==> WarrantedRun(moves.past, c) && Warranted(After(moves.past, c).value, moves.last.step, c)
  }

  /** At every point of the run, every response on the wire that the worker would take for a success is one. */
  ghost predicate HonestThroughout(moves: Log<Move>, c: Config)
    requires After(moves, c).Some?
  {
    ResponsesHonest(After(moves, c).value, c) && (moves.Then? ==> HonestThroughout(moves.past, c))
  }

  lemma {:induction false} RunHonest(moves: Log<Move>, c: Config)
    requires After(moves, c).Some? && WarrantedRun(moves, c)
    ensures Honest(After(moves, c).value, c)
  {
    if moves.Then? {
      RunHonest(moves.past, c);
      StepHonest(After(moves.past, c).value, moves.last.step, moves.last.next, c);
    }
  }

  /** The exact condition: responses are honest throughout a run if and only if every 409 of it is warranted. */
  lemma {:induction false} HonestIffWarranted(moves: Log<Move>, c: Config)
    requires After(moves, c).Some?
    ensures HonestThroughout(moves, c) <==> WarrantedRun(moves, c)
  {
    if moves.Then? {
      HonestIffWarranted(moves.past, c);
      var s := After(moves.past, c).value;
      if !Warranted(s, moves.last.step, c) {
        UnwarrantedDishonest(s, moves.last.step, moves.last.next, c);
      } else if WarrantedRun(moves.past, c) {
        RunHonest(moves, c);
      }
    }
  }

  /** Acknowledged implies dispatched, whatever is lost, delayed, retried or forgotten. */
  lemma {:induction false} AcknowledgedImpliesDispatched(moves: Log<Move>, c: Config, update: string)
    requires After(moves, c).Some? && WarrantedRun(moves, c)
    requires var end := After(moves, c).value; update in end.answers && Acknowledges(end.answers[update])
    ensures Succeeded(After(moves, c).value, c, update)
  {
    RunHonest(moves, c);
  }

  /** A 409 is warranted in particular if no dispatch of its key is running. */
  lemma {:induction false} CalmIsWarranted(s: State, step: Step, c: Config)
    requires Linked(s, c) && step.Deliver? && step.forward in s.forwards
    requires !Ingress.HasRun(s.ingress, c.key(s.forwards[step.forward]), Ingress.Running)
    ensures Warranted(s, step, c)
  {
    var key := c.key(s.forwards[step.forward]);
    if Live(s.ingress.entries, key, step.now) {
      Ingress.DuplicateMeans(s.ingress, key, c.ingressTtl, step.now);
    }
  }

  /** `Rolled` needs no condition: after a 502 the update is not reserved, in every run. */
  lemma {:induction false} StepRolled(s: State, step: Step, next: nat, c: Config)
    requires Rolled(s) && Enabled(s, step)
    ensures Rolled(Next(s, step, next, c))
  {
    match step
    case Arrive(u, now) =>
      var s' := Next(s, step, next, c);
      forall v | v in s'.answers && s'.answers[v].BadGateway? && v !in s'.waiting
        ensures v !in s'.edge
      {
        assert v != u ==> v !in s.edge;
      }
    case Deliver(_, _, _) =>
    case LoseRequest(_) =>
    case Settle(_, _) =>
    case LoseResponse(_) =>
    case Return(_) =>
    case FetchFails(_) =>
    case Forget(_) =>
  }

  lemma {:induction false} RunRolled(moves: Log<Move>, c: Config)
    requires After(moves, c).Some?
    ensures Rolled(After(moves, c).value)
  {
    if moves.Then? {
      RunRolled(moves.past, c);
      StepRolled(After(moves.past, c).value, moves.last.step, moves.last.next, c);
    }
  }

  /** After a 502 the next retry is forwarded again, in every run. */
  lemma {:induction false} RetryForwarded(moves: Log<Move>, c: Config, update: string, next: nat, now: int)
    requires After(moves, c).Some? && Possible(After(moves, c).value, Move(Arrive(update, now), next))
    requires var end := After(moves, c).value; update in end.answers && end.answers[update].BadGateway?
    ensures var after := Next(After(moves, c).value, Arrive(update, now), next, c);
            && next in after.requests && next in after.forwards && after.forwards[next] == update
            && update in after.waiting && after.waiting[update] == next
  {
    RunRolled(moves, c);
  }

  /**
   What an unwarranted 409 does: if the worker still waits for it, it acknowledges the update, no dispatch of the
   update has succeeded, and one is running.
   */
  lemma {:induction false} FalselyAcknowledged(s: State, c: Config, update: string, forward: nat, now: int)
    requires Linked(s, c) && forward in s.requests && update in s.waiting && s.waiting[update] == forward
    requires !Warranted(s, Deliver(forward, true, now), c)
    ensures var after := Concluded(Delivered(s, forward, true, c, now), update, Some(409));
            && after.answers[update].Accepted? && !Succeeded(after, c, update)
            && Ingress.HasRun(after.ingress, c.key(update), Ingress.Running)
  {
    Ingress.DuplicateMeans(s.ingress, c.key(update), c.ingressTtl, now);
    var after := Concluded(Delivered(s, forward, true, c, now), update, Some(409));
    assert after.ingress.dispatches == s.ingress.dispatches;
  }

  /** The first fetch timed out while its dispatch runs on. */
  function TimedOut(c: Config, update: string): State {
    State(map[], map[], map[0 := update], {}, map[],
          Ingress.State(map[c.key(update) := Hold(c.ingressTtl)],
                        map[0 := Ingress.Dispatch(c.key(update), 0, Ingress.Running)]),
          map[update := BadGateway])
  }

  lemma {:induction false} AfterThen(moves: Log<Move>, m: Move, c: Config, s: State)
    requires After(moves, c) == Some(s) && Possible(s, m)
    ensures After(Then(moves, m), c) == Some(Next(s, m.step, m.next, c))
  {
  }

  lemma {:induction false} TimesOut(c: Config, update: string) returns (moves: Log<Move>)
    ensures After(moves, c) == Some(TimedOut(c, update))
  {
    var arrive, deliver, fail := Move(Arrive(update, 0), 0), Move(Deliver(0, true, 0), 1), Move(FetchFails(update), 1);
    moves := Empty;
    AfterThen(moves, arrive, c, START);
    moves := Then(moves, arrive);
    var s1 := Next(START, arrive.step, 0, c);
    assert s1.forwards == map[0 := update] && s1.requests == {0} && s1.waiting == map[update := 0];
    AfterThen(moves, deliver, c, s1);
    moves := Then(moves, deliver);
    var s2 := Next(s1, deliver.step, 1, c);
    assert s2.requests == {} && s2.responses == map[];
    assert s2.ingress.entries == map[c.key(update) := Hold(c.ingressTtl)];
    assert s2.ingress.dispatches == map[0 := Ingress.Dispatch(c.key(update), 0, Ingress.Running)];
    AfterThen(moves, fail, c, s2);
    moves := Then(moves, fail);
    var s3 := Next(s2, fail.step, 1, c);
    assert s3.edge == map[] && s3.waiting == map[] && s3.answers == map[update := BadGateway];
  }

  lemma {:induction false} MeetsRunning(c: Config, update: string) returns (moves: Log<Move>)
    ensures After(moves, c) == Some(TimedOut(c, update).(
              edge := map[update := Hold(c.edgeTtl)],
              waiting := map[update := 1],
              forwards := map[0 := update, 1 := update],
              responses := map[1 := 409]))
  {
    var m3 := TimesOut(c, update);
    var m4 := Then(m3, Move(Arrive(update, 0), 1));
    moves := Then(m4, Move(Deliver(1, true, 0), 2));
    var s3 := TimedOut(c, update);
    var s4 := Next(s3, Arrive(update, 0), 1, c);
    assert After(m4, c) == Some(s4);
    assert s4.edge == map[update := Hold(c.edgeTtl)] && s4.forwards == map[0 := update, 1 := update];
    var s5 := Next(s4, Deliver(1, true, 0), 2, c);
    assert s5.requests == {} && s5.responses == map[1 := 409] && s5.ingress.entries == s3.ingress.entries;
    assert After(moves, c) == Some(s5);
  }

  /** A whole such run: the retry meets the dispatch of the timed-out fetch, and that dispatch then fails. */
  lemma {:induction false} FalseAcknowledgement(c: Config, update: string) returns (moves: Log<Move>)
    ensures After(moves, c).Some?
    ensures var end := After(moves, c).value;
            && update in end.answers && end.answers[update].Accepted? && !Succeeded(end, c, update)
            && end.requests == {}
            && forall f :: f in end.ingress.dispatches ==> end.ingress.dispatches[f].status.Failed?
  {
    var m5 := MeetsRunning(c, update);
    var m6 := Then(m5, Move(Return(update), 2));
    moves := Then(m6, Move(Settle(0, false), 2));
    assert After(m6, c).Some?;
  }

  // ---------------------------------------------------------------- the worker

  class TelegramWebhookWorker {
    const dedupeTtlMs: int
    const replayStore: InMemoryReplayStore

    constructor (ttl: int)
      ensures dedupeTtlMs == ttl && fresh(replayStore) && replayStore.entries == map[]
    {
      dedupeTtlMs := ttl;
      replayStore := new InMemoryReplayStore();
    }

    /** `handleFetch` up to the forward; `None` means that the update is forwarded. */
    method Begin(update: string, now: int) returns (answer: Option<Answer>)
      modifies replayStore
      ensures (replayStore.entries, answer) == Reserve(old(replayStore.entries), update, dedupeTtlMs, now)
    {
      var reserved := replayStore.PutIfAbsent(update, dedupeTtlMs, now);
      answer := if reserved then None else Some(Duplicate);
    }

    /** `handleFetch` after the forward; `None` is a fetch that threw. */
    method Finish(update: string, response: Option<int>) returns (answer: Answer)
      modifies replayStore
      ensures (replayStore.entries, answer) == Conclude(old(replayStore.entries), update, response)
    {
      if response.None? {
        replayStore.Delete(update);
        return BadGateway;
      }
      if !IsForwardSuccess(response.value) {
        replayStore.Delete(update);
        return BadGateway;
      }
      answer := Accepted;
    }
  }
}
