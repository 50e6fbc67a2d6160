/**
 Dedupe and dispatch of `TelegramIngressProcessor.handle` (telegram-ingress.ts). A request is two steps,
 before and after the awaited handler, and requests interleave freely between them.
 */
module Ingress {
  import opened Prelude
  import opened ReplayStore

  datatype Status = Running | Succeeded | Failed

  /** A run of the handler and when its key was reserved. */
  datatype Dispatch = Dispatch(key: string, reservedAt: int, status: Status)

  datatype State = State(entries: map<string, int>, dispatches: map<nat, Dispatch>)

  datatype Reply = Duplicate | Dispatched

  function Expiry(d: Dispatch, ttl: int): int {
    d.reservedAt + Hold(ttl)
  }

  /** Up to the handler: a live key is a duplicate (409), otherwise it is reserved and dispatched. */
  function Receive(s: State, id: nat, key: string, ttl: int, now: int): State {
    State(Put(s.entries, key, ttl, now),
          if Live(s.entries, key, now) then s.dispatches else s.dispatches[id := Dispatch(key, now, Running)])
  }

  /** After the handler: success (202) keeps the reservation, failure (500) deletes the key. */
  function Settle(s: State, id: nat, ok: bool): State
    requires id in s.dispatches
  {
    var d := s.dispatches[id];
    if ok then s.(dispatches := s.dispatches[id := d.(status := Succeeded)])
    else State(s.entries - {d.key}, s.dispatches[id := d.(status := Failed)])
  }

  // ---------------------------------------------------------------- whatever the timing

  /** A live key was reserved by a dispatch that has not failed. */
  ghost predicate Owned(s: State, ttl: int) {
    forall key :: key in s.entries ==> Owner(s, ttl, key)
  }

  ghost predicate Owner(s: State, ttl: int, key: string)
    requires key in s.entries
  {
    exists id :: id in s.dispatches && s.dispatches[id].key == key && !s.dispatches[id].status.Failed?
                 && Expiry(s.dispatches[id], ttl) == s.entries[key]
  }

  predicate HasRun(s: State, key: string, status: Status) {
    exists id :: id in s.dispatches && s.dispatches[id].key == key && s.dispatches[id].status == status
  }

  lemma {:induction false} ReceiveOwned(s: State, id: nat, key: string, ttl: int, now: int)
    requires Owned(s, ttl) && id !in s.dispatches
    ensures Owned(Receive(s, id, key, ttl, now), ttl)
  {
    var s' := Receive(s, id, key, ttl, now);
    forall k | k in s'.entries
      ensures Owner(s', ttl, k)
    {
      if k != key || Live(s.entries, key, now) {
        var d :| d in s.dispatches && s.dispatches[d].key == k && !s.dispatches[d].status.Failed?
                 && Expiry(s.dispatches[d], ttl) == s.entries[k];
        assert d in s'.dispatches && s'.dispatches[d] == s.dispatches[d];
      } else {
        assert s'.dispatches[id] == Dispatch(key, now, Running);
      }
    }
  }

  lemma {:induction false} SettleOwned(s: State, id: nat, ok: bool, ttl: int)
    requires Owned(s, ttl) && id in s.dispatches && s.dispatches[id].status.Running?
    ensures Owned(Settle(s, id, ok), ttl)
  {
    var s' := Settle(s, id, ok);
    forall k | k in s'.entries
      ensures Owner(s', ttl, k)
    {
      var d :| d in s.dispatches && s.dispatches[d].key == k && !s.dispatches[d].status.Failed?
               && Expiry(s.dispatches[d], ttl) == s.entries[k];
      assert s'.dispatches[d].key == k && Expiry(s'.dispatches[d], ttl) == s.entries[k];
    }
  }

  /** A duplicate is answered only while a dispatch of the key runs or after one has succeeded. */
  lemma {:induction false} DuplicateMeans(s: State, key: string, ttl: int, now: int)
    requires Owned(s, ttl) && Live(s.entries, key, now)
    ensures HasRun(s, key, Running) || HasRun(s, key, Succeeded)
  {
    assert Owner(s, ttl, key);
  }

  // ---------------------------------------------------------------- with timely dispatches

  /** Every running dispatch is strictly within its reservation. */
  ghost predicate Timely(s: State, ttl: int, now: int) {
    forall id :: id in s.dispatches && s.dispatches[id].status.Running? ==> now < Expiry(s.dispatches[id], ttl)
  }

  /** A dispatch that has not failed and has not expired owns the entry of its key. */
  ghost predicate OwnsEntry(s: State, d: Dispatch, ttl: int, now: int) {
    !d.status.Failed? && now < Expiry(d, ttl) ==> d.key in s.entries && s.entries[d.key] == Expiry(d, ttl)
  }

  /** Two dispatches of one key, neither failed, were reserved at least one TTL apart. */
  ghost predicate Apart(a: Dispatch, b: Dispatch, ttl: int) {
    a.key == b.key && !a.status.Failed? && !b.status.Failed? ==>
      a.reservedAt + Hold(ttl) <= b.reservedAt || b.reservedAt + Hold(ttl) <= a.reservedAt
  }

  ghost predicate Sound(s: State, ttl: int, now: int) {
    && Timely(s, ttl, now)
    && (forall id :: id in s.dispatches ==>
          s.dispatches[id].reservedAt <= now && OwnsEntry(s, s.dispatches[id], ttl, now))
    && (forall a, b :: a in s.dispatches && b in s.dispatches && a != b ==>
          Apart(s.dispatches[a], s.dispatches[b], ttl))
  }

  lemma {:induction false} LaterSound(s: State, ttl: int, before: int, now: int)
    requires Sound(s, ttl, before) && before <= now && Timely(s, ttl, now)
    ensures Sound(s, ttl, now)
  {
  }

  lemma {:induction false} ReceiveSound(s: State, id: nat, key: string, ttl: int, now: int)
    requires Sound(s, ttl, now) && id !in s.dispatches
    ensures Sound(Receive(s, id, key, ttl, now), ttl, now)
  {
    var s' := Receive(s, id, key, ttl, now);
    forall d | d in s'.dispatches
      ensures OwnsEntry(s', s'.dispatches[d], ttl, now)
    {
      if d in s.dispatches && d != id {
        assert OwnsEntry(s, s.dispatches[d], ttl, now);
      }
    }
    forall a, b | a in s'.dispatches && b in s'.dispatches && a != b
      ensures Apart(s'.dispatches[a], s'.dispatches[b], ttl)
    {
      if a != id && b != id {
        assert Apart(s.dispatches[a], s.dispatches[b], ttl);
      } else {
        var other := if a == id then b else a;
        assert OwnsEntry(s, s.dispatches[other], ttl, now);
      }
    }
  }

  lemma {:induction false} SettleSound(s: State, id: nat, ok: bool, ttl: int, now: int)
    requires Sound(s, ttl, now) && id in s.dispatches && s.dispatches[id].status.Running?
    ensures Sound(Settle(s, id, ok), ttl, now)
    ensures s.dispatches[id].key in s.entries && s.entries[s.dispatches[id].key] == Expiry(s.dispatches[id], ttl)
  {
    var s' := Settle(s, id, ok);
    var mine := s.dispatches[id];
    assert OwnsEntry(s, mine, ttl, now);
    forall d | d in s'.dispatches
      ensures OwnsEntry(s', s'.dispatches[d], ttl, now)
    {
      assert OwnsEntry(s, s.dispatches[d], ttl, now);
      if d != id {
        assert Apart(s.dispatches[d], mine, ttl);
      }
    }
    forall a, b | a in s'.dispatches && b in s'.dispatches && a != b
      ensures Apart(s'.dispatches[a], s'.dispatches[b], ttl)
    {
      assert Apart(s.dispatches[a], s.dispatches[b], ttl);
    }
  }

  /** Dispatches of one key never overlap. */
  lemma {:induction false} NoOverlap(s: State, ttl: int, now: int, a: nat, b: nat)
    requires Sound(s, ttl, now) && a in s.dispatches && b in s.dispatches
    requires s.dispatches[a].status.Running? && s.dispatches[b].status.Running?
    requires s.dispatches[a].key == s.dispatches[b].key
    ensures a == b
  {
    assert a != b ==> Apart(s.dispatches[a], s.dispatches[b], ttl);
  }

  /** The first overlap happens exactly when a request finds a dispatch of its key still running after its TTL. */
  lemma {:induction false} OverlapIff(s: State, ttl: int, before: int, key: string, now: int)
    requires Sound(s, ttl, before) && before <= now
    ensures !Live(s.entries, key, now) && HasRun(s, key, Running) <==>
              exists id :: id in s.dispatches && s.dispatches[id].key == key && s.dispatches[id].status.Running?
                           && Expiry(s.dispatches[id], ttl) <= now
  {
    if id :| id in s.dispatches && s.dispatches[id].key == key && s.dispatches[id].status == Running {
      assert OwnsEntry(s, s.dispatches[id], ttl, before);
      assert s.entries[key] == Expiry(s.dispatches[id], ttl);
    }
  }

  // ---------------------------------------------------------------- runs

  datatype Event = Got(key: string, now: int) | Done(id: nat, ok: bool, now: int)

  datatype World = World(state: State, next: nat, clock: int)

  /** The step can happen: time does not run backwards, and only a running dispatch finishes. */
  ghost predicate Enabled(w: World, e: Event) {
    w.clock <= e.now && (e.Done? ==> e.id in w.state.dispatches && w.state.dispatches[e.id].status.Running?)
  }

  function Step(w: World, e: Event, ttl: int): World
    requires e.Done? ==> e.id in w.state.dispatches
  {
    match e
    case Got(key, now) => World(Receive(w.state, w.next, key, ttl, now), w.next + 1, now)
    case Done(id, ok, now) => World(Settle(w.state, id, ok), w.next, now)
  }

  /** The run of a sequence of events from `w` passes only through timely states. */
  ghost predicate TimelyRun(start: World, events: Log<Event>, end: World, ttl: int) {
    if events.Empty? then end == start
    else exists w :: TimelyRun(start, events.past, w, ttl) && Enabled(w, events.last)
                     && Timely(w.state, ttl, events.last.now) && end == Step(w, events.last, ttl)
  }

  const START := World(State(map[], map[]), 0, 0)

  ghost predicate Good(w: World, ttl: int) {
    && Sound(w.state, ttl, w.clock) && Owned(w.state, ttl)
    && forall id :: id in w.state.dispatches ==> id < w.next
  }

  lemma {:induction false} StepGood(w: World, e: Event, ttl: int)
    requires Good(w, ttl) && Enabled(w, e) && Timely(w.state, ttl, e.now)
    ensures Good(Step(w, e, ttl), ttl)
  {
    LaterSound(w.state, ttl, w.clock, e.now);
    match e
    case Got(key, now) =>
      ReceiveSound(w.state, w.next, key, ttl, now);
      ReceiveOwned(w.state, w.next, key, ttl, now);
    case Done(id, ok, now) =>
      SettleSound(w.state, id, ok, ttl, now);
      SettleOwned(w.state, id, ok, ttl);
  }

  /**
   Over every run in which dispatches finish within their TTL: no two dispatches of a key overlap, and two
   successes of a key were reserved at least one TTL apart.
   */
  lemma {:induction false} EveryRun(events: Log<Event>, end: World, ttl: int, a: nat, b: nat)
    requires TimelyRun(START, events, end, ttl)
    requires a in end.state.dispatches && b in end.state.dispatches && a != b
    requires end.state.dispatches[a].key == end.state.dispatches[b].key
    ensures end.state.dispatches[a].status.Running? ==> !end.state.dispatches[b].status.Running?
    ensures end.state.dispatches[a].status.Succeeded? && end.state.dispatches[b].status.Succeeded? ==>
              end.state.dispatches[a].reservedAt + Hold(ttl) <= end.state.dispatches[b].reservedAt
              || end.state.dispatches[b].reservedAt + Hold(ttl) <= end.state.dispatches[a].reservedAt
  {
    RunGood(events, end, ttl);
    assert Apart(end.state.dispatches[a], end.state.dispatches[b], ttl);
  }

  /** Over every such run, a rollback that comes in time deletes its own reservation. */
  lemma {:induction false} EveryRollback(events: Log<Event>, end: World, ttl: int, id: nat, now: int)
    requires TimelyRun(START, events, end, ttl)
    requires Enabled(end, Done(id, false, now)) && Timely(end.state, ttl, now)
    ensures var d := end.state.dispatches[id];
            && d.key in end.state.entries && end.state.entries[d.key] == Expiry(d, ttl)
            && Step(end, Done(id, false, now), ttl).state.entries == end.state.entries - {d.key}
  {
    RunGood(events, end, ttl);
    LaterSound(end.state, ttl, end.clock, now);
    SettleSound(end.state, id, false, ttl, now);
  }

  lemma {:induction false} RunGood(events: Log<Event>, end: World, ttl: int)
    requires TimelyRun(START, events, end, ttl)
    ensures Good(end, ttl)
  {
    if events.Then? {
      var w :| TimelyRun(START, events.past, w, ttl) && Enabled(w, events.last)
               && Timely(w.state, ttl, events.last.now) && end == Step(w, events.last, ttl);
      RunGood(events.past, w, ttl);
      StepGood(w, events.last, ttl);
    }
  }

  /** If a dispatch outlives its TTL, dispatches of one key do overlap, and a rollback deletes a foreign reservation. */
  lemma {:induction false} LateRollback(key: string, ttl: int)
    ensures var first := Step(START, Got(key, 0), ttl);
            var both := Step(first, Got(key, Hold(ttl)), ttl);
            var rolled := Step(both, Done(0, false, Hold(ttl)), ttl);
            && both.state.dispatches[0].status.Running? && both.state.dispatches[1].status.Running?
            && both.state.entries[key] == Expiry(both.state.dispatches[1], ttl)
            && key !in rolled.state.entries && rolled.state.dispatches[1].status.Running?
  {
    var first := Step(START, Got(key, 0), ttl);
    assert first.state.entries == map[key := Hold(ttl)];
    assert !Live(first.state.entries, key, Hold(ttl));
  }

  // ---------------------------------------------------------------- the processor

  class TelegramIngressProcessor {
    const dedupeTtlMs: int
    const dedupeStore: InMemoryReplayStore
    ghost var dispatches: map<nat, Dispatch>
    ghost var next: nat

    ghost function Abstract(): State
      reads this, dedupeStore
    {
      State(dedupeStore.entries, dispatches)
    }

    constructor (ttl: int)
      ensures Abstract() == START.state && next == 0 && fresh(dedupeStore)
      ensures dedupeTtlMs == if ttl > 1000 then ttl else 1000
    {
      dedupeTtlMs := if ttl > 1000 then ttl else 1000;
      dedupeStore := new InMemoryReplayStore();
      dispatches, next := map[], 0;
    }

    /** The part of `handle` before the awaited handler. */
    method Begin(key: string, now: int) returns (reply: Reply)
      modifies this, dedupeStore
      ensures Abstract() == Receive(old(Abstract()), old(next), key, dedupeTtlMs, now)
      ensures reply.Duplicate? <==> Live(old(dedupeStore.entries), key, now)
      ensures next == old(next) + 1
    {
      var reserved := dedupeStore.PutIfAbsent(key, dedupeTtlMs, now);
      ghost var id := next;
      next := next + 1;
      if !reserved {
        return Duplicate;
      }
      dispatches := dispatches[id := Dispatch(key, now, Running)];
      reply := Dispatched;
    }

    /** The part of `handle` after it, for the request `id` whose key is `key`. */
    method Finish(key: string, ok: bool, ghost id: nat) returns (status: int)
      requires id in dispatches && dispatches[id].key == key
      modifies this`dispatches, dedupeStore
      ensures Abstract() == Settle(old(Abstract()), id, ok)
      ensures status == if ok then 202 else 500
    {
      dispatches := dispatches[id := dispatches[id].(status := if ok then Succeeded else Failed)];
      if ok {
        return 202;
      }
      dedupeStore.Delete(key);
      status := 500;
    }
  }
}
