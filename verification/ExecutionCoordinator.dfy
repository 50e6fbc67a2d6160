/**
 `SessionScopedExecutionCoordinator` of tool-execution-traits.ts: session states are objects that are
 created on demand, captured by release closures and abort listeners, and deleted when idle. Each
 operation is proved against the lock of SessionLock.dfy; deleting and recreating a state is invisible.
 */
module ExecutionCoordinator {
  import opened Prelude
  import opened SessionLock

  class SessionState {
    ghost const session: string
    var activeShared: int
    var activeExclusive: bool
    var queue: seq<Request>

    constructor (session: string)
      ensures this.session == session && Mirrors(FREE)
    {
      this.session := session;
      activeShared, activeExclusive, queue := 0, false, [];
    }

    /** The counter counts the unreleased shared grants; the flag and the queue are those of the lock. */
    ghost predicate Mirrors(lock: Lock)
      reads this
    {
      activeShared == |lock.shared| && activeExclusive == lock.exclusive.Some? && queue == lock.queue
    }
  }

  /** A release closure: the request it serves and the state object it captured. */
  datatype Lease = Lease(id: nat, session: string, state: SessionState, mode: WaitMode)

  /** An abort listener with the state object it captured. */
  datatype Listener = Listener(session: string, state: SessionState)

  /** The abort signal passed to `acquire`, if any. */
  datatype Signal = NoSignal | Live | Fired

  datatype Answer = Admitted(lease: Lease) | Queued(id: nat) | Refused

  predicate HoldsAs(l: Lock, id: nat, mode: WaitMode) {
    if mode.Shared? then id in l.shared else l.exclusive == Some(id)
  }

  // ---------------------------------------------------------------- the books

  /**
   The coordinator's tables as one value: the state object of each session, the lock that each state
   object ever created stands for, the state each request belongs to, the leases handed out, the closures
   that have run, and the abort listeners attached.
   */
  datatype Tables = Tables(
    sessions: map<string, SessionState>,
    locks: map<SessionState, Lock>,
    homes: map<nat, SessionState>,
    leases: map<nat, Lease>,
    released: set<nat>,
    listening: map<nat, Listener>,
    next: nat)

  /** A state object in use is the one its session maps to; its holders have leases, its waiters none. */
  ghost predicate StateOk(t: Tables, s: SessionState)
    requires s in t.locks
  {
    var l := t.locks[s];
    && Safe(l)
    && (l != FREE ==> s.session in t.sessions && t.sessions[s.session] == s)
    && (forall id: nat :: Involved(l, id) ==> id < t.next && id in t.homes && t.homes[id] == s)
    && (forall id: nat :: Holds(l, id) ==> id in t.leases && HoldsAs(l, id, t.leases[id].mode))
    && (forall id: nat :: Waits(l, id) ==> id !in t.leases)
  }

  /** A lease is held exactly until its closure has run. */
  ghost predicate LeaseOk(t: Tables, id: nat)
    requires id in t.leases
  {
    var l := t.leases[id];
    && l.id == id < t.next && l.state in t.locks && l.session == l.state.session
    && id in t.homes && t.homes[id] == l.state
    && (id !in t.released <==> HoldsAs(t.locks[l.state], id, l.mode))
  }

  /** An abort listener is attached only to a request that waits. */
  ghost predicate ListenerOk(t: Tables, id: nat)
    requires id in t.listening
  {
    var l := t.listening[id];
    l.state in t.locks && l.session == l.state.session && Waits(t.locks[l.state], id)
  }

  ghost predicate TablesOk(t: Tables) {
    && (forall session :: session in t.sessions ==>
          t.sessions[session] in t.locks && t.sessions[session].session == session)
    && (forall s :: s in t.locks ==> StateOk(t, s))
    && (forall id :: id in t.leases ==> LeaseOk(t, id))
    && (forall id :: id in t.listening ==> ListenerOk(t, id))
    && (forall id :: id in t.homes ==> id < t.next && t.homes[id] in t.locks)
    && (forall id :: id in t.released ==> id in t.leases)
  }

  /** The lock of a session, whether or not a state object exists for it. */
  ghost function View(t: Tables, session: string): Lock {
    if session in t.sessions && t.sessions[session] in t.locks then t.locks[t.sessions[session]] else FREE
  }

  /** Unreleased leases of one session share one live state object, and an exclusive one stands alone. */
  lemma {:induction false} MutualExclusion(t: Tables, a: nat, b: nat)
    requires TablesOk(t) && a in t.leases && b in t.leases && a != b
    requires a !in t.released && b !in t.released && t.leases[a].session == t.leases[b].session
    ensures t.leases[a].session in t.sessions
    ensures t.leases[a].state == t.leases[b].state == t.sessions[t.leases[a].session]
    ensures t.leases[a].mode.Shared? && t.leases[b].mode.Shared?
  {
    assert LeaseOk(t, a) && LeaseOk(t, b);
    assert StateOk(t, t.leases[a].state) && StateOk(t, t.leases[b].state);
  }

  /** At most one state object of a session is in use, over all that were ever created for it. */
  lemma {:induction false} OneLiveState(t: Tables, a: SessionState, b: SessionState)
    requires TablesOk(t) && a in t.locks && b in t.locks && a.session == b.session
    requires t.locks[a] != FREE && t.locks[b] != FREE
    ensures a == b
  {
    assert StateOk(t, a) && StateOk(t, b);
  }

  /** The state object `s` moves to lock `l`; every other state object keeps its lock. */
  ghost predicate Moves(t: Tables, t': Tables, s: SessionState, l: Lock) {
    && s in t.locks && t'.locks == t.locks[s := l] && t'.sessions == t.sessions
    && t.next <= t'.next
    && (forall id :: id in t.homes ==> id in t'.homes && t'.homes[id] == t.homes[id])
    && (forall id :: id in t'.homes && id !in t.homes ==> t.next <= id < t'.next && t'.homes[id] == s)
    && (forall id :: id in t.leases ==> id in t'.leases && t'.leases[id] == t.leases[id])
    && (forall id :: id in t'.leases && id !in t.leases ==> id in t'.homes && t'.homes[id] == s)
    && t.released <= t'.released
    && (forall id :: id in t'.released && id !in t.released ==> id in t.leases && t.leases[id].state == s)
    && (forall id :: id in t'.listening && !(id in t.listening && t'.listening[id] == t.listening[id]) ==>
          t'.listening[id].state == s)
  }

  /** It is enough to look at the state that moved. */
  lemma {:induction false} MovePreserves(t: Tables, t': Tables, s: SessionState, l: Lock)
    requires TablesOk(t) && Moves(t, t', s, l) && s in t'.locks && StateOk(t', s)
    requires forall id :: id in t'.leases && t'.leases[id].state == s ==> LeaseOk(t', id)
    requires forall id :: id in t'.leases && id !in t.leases ==> t'.leases[id].state == s
    requires forall id :: id in t'.listening && t'.listening[id].state == s ==> ListenerOk(t', id)
    ensures TablesOk(t')
  {
    forall r | r in t'.locks
      ensures StateOk(t', r)
    {
      if r != s {
        OtherState(t, t', s, l, r);
      }
    }
    forall id | id in t'.leases
      ensures LeaseOk(t', id)
    {
      if t'.leases[id].state != s {
        assert LeaseOk(t, id);
      }
    }
    forall id | id in t'.listening
      ensures ListenerOk(t', id)
    {
      if t'.listening[id].state != s {
        assert ListenerOk(t, id);
      }
    }
  }

  lemma {:induction false} OtherState(t: Tables, t': Tables, s: SessionState, l: Lock, r: SessionState)
    requires TablesOk(t) && Moves(t, t', s, l) && r != s && r in t.locks
    ensures r in t'.locks && StateOk(t', r)
  {
    assert StateOk(t, r);
    var k := t.locks[r];
    forall id: nat | Waits(k, id)
      ensures id !in t'.leases
    {
      assert Involved(k, id);
    }
  }

  // ---------------------------------------------------------------- grants

  /** New leases are handed to waiters that a drain from `l` to `l'` admits, each in its mode. */
  ghost predicate Issues(before: map<nat, Lease>, after: map<nat, Lease>, l: Lock, l': Lock,
                         session: string, state: SessionState)
  {
    && (forall id :: id in before ==> id in after && after[id] == before[id])
    && (forall id :: id in after && id !in before ==>
          Waits(l, id) && after[id] == Lease(id, session, state, after[id].mode) && HoldsAs(l', id, after[id].mode))
    && (forall id: nat :: Holds(l', id) && !Holds(l, id) ==> id in after)
  }

  /** The listeners of admitted waiters are disposed of. */
  ghost predicate Disposes(before: map<nat, Listener>, after: map<nat, Listener>, l: Lock, l': Lock) {
    && (forall id :: id in after <==> id in before && !(Waits(l, id) && !Waits(l', id)))
    && (forall id :: id in after ==> after[id] == before[id])
  }

  ghost predicate Drainable(l: Lock) {
    Separate(l) && (l.exclusive.Some? ==> l.shared == {})
  }

  lemma {:induction false} DrainHolders(l: Lock, id: nat)
    requires Drainable(l)
    ensures forall mode :: HoldsAs(l, id, mode) ==> HoldsAs(Drain(l), id, mode)
    ensures Holds(Drain(l), id) ==> Holds(l, id) || Waits(l, id)
    ensures Waits(Drain(l), id) ==> Waits(l, id)
  {
    DrainMakesSafe(l);
    DrainInvolves(l, id);
  }

  /** Taking the head of the queue and granting it. */
  function TakeHead(l: Lock): Lock
    requires l.queue != []
  {
    SessionLock.Granted(l.(queue := l.queue[1..]), l.queue[0])
  }

  lemma {:induction false} TakeHeadFacts(l: Lock, id: nat)
    requires Drainable(l) && l.queue != []
    ensures Waits(l, l.queue[0].id) && !Waits(TakeHead(l), l.queue[0].id)
    ensures Waits(TakeHead(l), id) ==> Waits(l, id)
    ensures Waits(l, id) ==> Waits(TakeHead(l), id) || id == l.queue[0].id
    ensures Holds(TakeHead(l), id) ==> Holds(l, id) || id == l.queue[0].id
    ensures l.exclusive.None? ==> Drainable(TakeHead(l)) || (l.queue[0].mode.Exclusive? && l.shared != {})
    ensures HoldsAs(TakeHead(l), l.queue[0].id, l.queue[0].mode)
  {
    if i :| 0 <= i < |l.queue| && l.queue[i].id == id {
      if i > 0 {
        assert l.queue[1..][i - 1].id == id;
      }
    }
    if i :| 0 <= i < |TakeHead(l).queue| && TakeHead(l).queue[i].id == id {
      assert l.queue[i + 1].id == id;
    }
  }

  lemma {:induction false} IssueHead(before: map<nat, Lease>, leases: map<nat, Lease>, l0: Lock, l: Lock,
                                     session: string, state: SessionState, listening0: map<nat, Listener>,
                                     listening: map<nat, Listener>)
    requires Drainable(l) && l.queue != [] && (l.exclusive.None? && (l.queue[0].mode.Exclusive? ==> l.shared == {}))
    requires Issues(before, leases, l0, l, session, state) && Disposes(listening0, listening, l0, l)
    requires forall id: nat :: Waits(l, id) ==> Waits(l0, id) && id !in leases
    ensures var head := l.queue[0];
            && Issues(before, leases[head.id := Lease(head.id, session, state, head.mode)], l0, TakeHead(l), session,
                      state)
            && Disposes(listening0, listening - {head.id}, l0, TakeHead(l))
            && forall id: nat :: Waits(TakeHead(l), id) ==>
                 Waits(l0, id) && id !in leases[head.id := Lease(head.id, session, state, head.mode)]
  {
    forall id: nat { TakeHeadFacts(l, id); }
  }

  ghost predicate DisturbedRequests(t: Tables, t': Tables, s: SessionState, f: Lock) {
    && (forall id: nat :: Involved(f, id) ==> id < t'.next && id in t'.homes && t'.homes[id] == s)
    && (forall id: nat :: Holds(f, id) ==> id in t.leases && HoldsAs(f, id, t.leases[id].mode))
    && (forall id: nat :: Waits(f, id) ==> id !in t.leases)
  }

  ghost predicate DisturbedLeases(t: Tables, t': Tables, s: SessionState, f: Lock) {
    && (forall id :: id in t.leases && t.leases[id].state == s ==>
          (id !in t'.released <==> HoldsAs(f, id, t.leases[id].mode)))
    && (forall id :: id in t'.released ==> id in t.leases)
    && (forall id :: id in t'.listening && t'.listening[id].state == s ==>
          t'.listening[id].session == s.session && Waits(f, id))
  }

  /** `f` is the lock of `s` after a release or a new waiter, before the drain. */
  ghost predicate Disturbed(t: Tables, t': Tables, s: SessionState, f: Lock) {
    && Drainable(f)
    && s in t.locks && s.session in t.sessions && t.sessions[s.session] == s
    && DisturbedRequests(t, t', s, f) && DisturbedLeases(t, t', s, f)
  }

  lemma {:induction false} DrainedRequest(t: Tables, t': Tables, s: SessionState, f: Lock, id: nat)
    requires TablesOk(t) && Disturbed(t, t', s, f) && Moves(t, t', s, Drain(f))
    requires Issues(t.leases, t'.leases, f, Drain(f), s.session, s)
    ensures Involved(Drain(f), id) ==> Involved(f, id)
    ensures Holds(Drain(f), id) ==> id in t'.leases && HoldsAs(Drain(f), id, t'.leases[id].mode)
    ensures Waits(Drain(f), id) ==> id !in t'.leases
  {
    DrainMakesSafe(f);
    DrainHolders(f, id);
    DrainInvolves(f, id);
    if Waits(Drain(f), id) {
      WaiterHoldsNothing(Drain(f), id);
    }
  }

  lemma {:induction false} DrainedState(t: Tables, t': Tables, s: SessionState, f: Lock)
    requires TablesOk(t) && Disturbed(t, t', s, f) && Moves(t, t', s, Drain(f))
    requires Issues(t.leases, t'.leases, f, Drain(f), s.session, s)
    ensures s in t'.locks && StateOk(t', s)
  {
    DrainMakesSafe(f);
    forall id: nat
      ensures Involved(Drain(f), id) ==> Involved(f, id)
      ensures Holds(Drain(f), id) ==> id in t'.leases && HoldsAs(Drain(f), id, t'.leases[id].mode)
      ensures Waits(Drain(f), id) ==> id !in t'.leases
    {
      DrainedRequest(t, t', s, f, id);
    }
  }

  lemma {:induction false} WaiterHoldsNothing(l: Lock, id: nat)
    requires Separate(l) && Waits(l, id)
    ensures !Holds(l, id)
  {
    var i :| 0 <= i < |l.queue| && l.queue[i].id == id;
    assert !Holds(l, l.queue[i].id);
  }

  lemma {:induction false} DrainedLease(t: Tables, t': Tables, s: SessionState, f: Lock, id: nat)
    requires TablesOk(t) && Disturbed(t, t', s, f) && Moves(t, t', s, Drain(f))
    requires Issues(t.leases, t'.leases, f, Drain(f), s.session, s)
    requires id in t'.leases && t'.leases[id].state == s
    ensures LeaseOk(t', id)
  {
    DrainHolders(f, id);
    if id in t.leases {
      assert LeaseOk(t, id);
    } else {
      assert Involved(f, id);
    }
  }

  /** After a disturbance and the drain that follows it, the tables are consistent again. */
  lemma {:induction false} DrainTables(t: Tables, t': Tables, s: SessionState, f: Lock, attached: map<nat, Listener>)
    requires TablesOk(t) && Disturbed(t, t', s, f) && Moves(t, t', s, Drain(f))
    requires Issues(t.leases, t'.leases, f, Drain(f), s.session, s)
    requires Disposes(attached, t'.listening, f, Drain(f))
    ensures TablesOk(t')
  {
    DrainedState(t, t', s, f);
    forall id | id in t'.leases && t'.leases[id].state == s
      ensures LeaseOk(t', id)
    {
      DrainedLease(t, t', s, f, id);
    }
    forall id | id in t'.listening && t'.listening[id].state == s
      ensures ListenerOk(t', id)
    {
      assert Waits(f, id);
    }
    MovePreserves(t, t', s, Drain(f));
  }

  lemma {:induction false} StateRemapped(t: Tables, t': Tables, s: SessionState)
    requires t' == t.(sessions := t'.sessions, locks := t'.locks) && s in t'.locks
    requires if s in t.locks then t'.locks[s] == t.locks[s] && StateOk(t, s) else t'.locks[s] == FREE
    requires t'.locks[s] != FREE ==> s.session in t'.sessions && t'.sessions[s.session] == s
    ensures StateOk(t', s)
  {
  }

  /** Only the map from sessions to state objects changes, and no state object in use loses its entry. */
  lemma {:induction false} Remapped(t: Tables, t': Tables)
    requires TablesOk(t) && t' == t.(sessions := t'.sessions, locks := t'.locks)
    requires forall session :: session in t'.sessions ==>
               t'.sessions[session] in t'.locks && t'.sessions[session].session == session
    requires forall s :: s in t.locks ==> s in t'.locks && t'.locks[s] == t.locks[s]
    requires forall s :: s in t'.locks && s !in t.locks ==> t'.locks[s] == FREE
    requires forall s :: s in t.locks && t.locks[s] != FREE ==> s.session in t'.sessions && t'.sessions[s.session] == s
    ensures TablesOk(t')
  {
    forall s | s in t'.locks
      ensures StateOk(t', s)
    {
      StateRemapped(t, t', s);
    }
    forall id | id in t.leases
      ensures LeaseOk(t', id)
    {
      assert LeaseOk(t, id);
    }
    forall id | id in t.listening
      ensures ListenerOk(t', id)
    {
      assert ListenerOk(t, id);
    }
  }

  /** A fresh, free state object may be added for a session that has none. */
  lemma {:induction false} FreshState(t: Tables, session: string, s: SessionState)
    requires TablesOk(t) && session !in t.sessions && s !in t.locks && s.session == session
    ensures var t' := t.(sessions := t.sessions[session := s], locks := t.locks[s := FREE]);
            TablesOk(t') && SameViews(t, t')
  {
    var t' := t.(sessions := t.sessions[session := s], locks := t.locks[s := FREE]);
    assert TablesOk(t') by {
      forall r | r in t.locks && t.locks[r] != FREE
        ensures r.session in t'.sessions && t'.sessions[r.session] == r
      {
        assert StateOk(t, r);
      }
      Remapped(t, t');
    }
  }

  /** No session's lock differs. */
  ghost predicate SameViews(t: Tables, t': Tables) {
    forall session :: View(t', session) == View(t, session)
  }

  /** An idle state object may be dropped from the map; its session is free with or without it. */
  lemma {:induction false} DropState(t: Tables, session: string)
    requires TablesOk(t) && session in t.sessions && t.locks[t.sessions[session]] == FREE
    ensures var t' := t.(sessions := t.sessions - {session});
            TablesOk(t') && SameViews(t, t')
  {
    var t' := t.(sessions := t.sessions - {session});
    forall r | r in t.locks && t.locks[r] != FREE
      ensures r.session in t'.sessions && t'.sessions[r.session] == r
    {
      assert StateOk(t, r);
    }
    Remapped(t, t');
  }

  class Coordinator {
    var stateBySession: map<string, SessionState>
    var leases: map<nat, Lease>        // resolved requests
    var released: set<nat>             // closures that have run
    var listening: map<nat, Listener>  // waiters with an abort listener attached
    var nextId: nat
    ghost var books: Tables

    /** The books say what the fields say, and every state object says what its lock says. */
    ghost predicate Booked()
      reads this, books.locks.Keys
    {
      && books == Tables(stateBySession, books.locks, books.homes, leases, released, listening, nextId)
      && forall s :: s in books.locks ==> s.Mirrors(books.locks[s])
    }

    ghost predicate Valid()
      reads this, books.locks.Keys
    {
      Booked() && TablesOk(books)
    }

    constructor ()
      ensures Valid() && books == Tables(map[], map[], map[], map[], {}, map[], 0)
    {
      stateBySession, leases, released, listening, nextId := map[], map[], {}, map[], 0;
      books := Tables(map[], map[], map[], map[], {}, map[], 0);
    }

    method Grant(session: string, state: SessionState, r: Request, ghost l: Lock)
      requires state.Mirrors(l) && !Holds(l, r.id)
      modifies this`leases, state
      ensures state.Mirrors(SessionLock.Granted(l, r))
      ensures leases == old(leases)[r.id := Lease(r.id, session, state, r.mode)]
    {
      if r.mode.Exclusive? {
        state.activeExclusive := true;
      } else {
        state.activeShared := state.activeShared + 1;
      }
      leases := leases[r.id := Lease(r.id, session, state, r.mode)];
    }

    /** Shifts the head of the queue, disposes of its listener and grants it. */
    method GrantHead(session: string, state: SessionState, ghost l: Lock)
      requires state.Mirrors(l) && Drainable(l) && l.queue != []
      modifies this`leases, this`listening, state
      ensures state.Mirrors(TakeHead(l))
      ensures leases == old(leases)[l.queue[0].id := Lease(l.queue[0].id, session, state, l.queue[0].mode)]
      ensures listening == old(listening) - {l.queue[0].id}
    {
      var first := state.queue[0];
      state.queue := state.queue[1..];
      listening := listening - {first.id};
      Grant(session, state, first, l.(queue := l.queue[1..]));
    }

    method DrainState(session: string, state: SessionState, ghost l: Lock)
      requires state.Mirrors(l) && Drainable(l)
      requires forall id: nat :: Waits(l, id) ==> id !in leases
      modifies this`leases, this`listening, state
      ensures state.Mirrors(Drain(l))
      ensures Issues(old(leases), leases, l, Drain(l), session, state)
      ensures Disposes(old(listening), listening, l, Drain(l))
    {
      if state.activeExclusive || |state.queue| == 0 {
        return;
      }
      if state.queue[0].mode.Exclusive? {
        if state.activeShared > 0 {
          return;
        }
        IssueHead(leases, leases, l, l, session, state, listening, listening);
        GrantHead(session, state, l);
        return;
      }
      ghost var now := l;
      while |state.queue| > 0 && state.queue[0].mode.Shared? && !state.activeExclusive
        invariant state.Mirrors(now) && Drainable(now) && now.exclusive.None? && DrainShared(now) == DrainShared(l)
        invariant Issues(old(leases), leases, l, now, session, state) && Disposes(old(listening), listening, l, now)
        invariant forall id: nat :: Waits(now, id) ==> Waits(l, id) && id !in leases
        decreases |state.queue|
      {
        IssueHead(old(leases), leases, l, now, session, state, old(listening), listening);
        TakeHeadFacts(now, 0);
        GrantHead(session, state, now);
        now := TakeHead(now);
      }
    }

    method GetState(session: string) returns (state: SessionState)
      requires Valid()
      modifies this
      ensures Valid() && session in stateBySession && stateBySession[session] == state && state in books.locks
      ensures SameViews(old(books), books) && books.locks[state] == View(old(books), session)
      ensures fresh(books.locks.Keys - old(books.locks.Keys)) && old(books.locks.Keys) <= books.locks.Keys
      ensures books == old(books).(sessions := stateBySession, locks := books.locks)
    {
      if session in stateBySession {
        return stateBySession[session];
      }
      state := new SessionState(session);
      FreshState(books, session, state);
      stateBySession := stateBySession[session := state];
      books := books.(sessions := stateBySession, locks := books.locks[state := FREE]);
    }

    method CleanupSession(session: string, state: SessionState)
      requires Valid() && session in stateBySession && stateBySession[session] == state
      modifies this`stateBySession, this`books
      ensures Valid() && SameViews(old(books), books)
      ensures books == old(books).(sessions := stateBySession)
      ensures stateBySession
           == if books.locks[state] == FREE then old(stateBySession) - {session} else old(stateBySession)
    {
      if state.activeShared == 0 && !state.activeExclusive && |state.queue| == 0 {
        assert books.locks[state] == FREE;
        DropState(books, session);
        stateBySession := stateBySession - {session};
        books := books.(sessions := stateBySession);
      }
    }

    /** The counter or the flag goes down; the clamp of the counter at zero never fires. */
    method FreeSlot(state: SessionState, lease: Lease, ghost l: Lock, ghost f: Lock)
      requires state.Mirrors(l) && HoldsAs(l, lease.id, lease.mode)
      requires f == if lease.mode.Exclusive? then l.(exclusive := None) else l.(shared := l.shared - {lease.id})
      modifies state
      ensures state.Mirrors(f)
    {
      if lease.mode.Exclusive? {
        state.activeExclusive := false;
      } else {
        assert state.activeShared >= 1;
        state.activeShared := if state.activeShared - 1 > 0 then state.activeShared - 1 else 0;
      }
    }

    method FreeAndDrain(lease: Lease, ghost l: Lock, ghost f: Lock)
      requires lease.state.Mirrors(l) && HoldsAs(l, lease.id, lease.mode) && Drainable(f)
      requires f == if lease.mode.Exclusive? then l.(exclusive := None) else l.(shared := l.shared - {lease.id})
      requires forall id: nat :: Waits(f, id) ==> id !in leases
      modifies this`leases, this`listening, this`released, lease.state
      ensures lease.state.Mirrors(Drain(f)) && released == old(released) + {lease.id}
      ensures Issues(old(leases), leases, f, Drain(f), lease.session, lease.state)
      ensures Disposes(old(listening), listening, f, Drain(f))
    {
      released := released + {lease.id};
      FreeSlot(lease.state, lease, l, f);
      DrainState(lease.session, lease.state, f);
    }

    method Free(lease: Lease)
      requires Booked() && lease.id in leases && leases[lease.id] == lease && lease.state in books.locks
      requires HoldsAs(books.locks[lease.state], lease.id, lease.mode) && Drainable(Freed(books, lease.id))
      requires forall id: nat :: Waits(Freed(books, lease.id), id) ==> id !in leases
      modifies this`leases, this`listening, this`released, this`books, lease.state
      ensures Booked() && books == AfterRelease(old(books), lease.id, leases, listening)
      ensures Frees(old(books), lease.id, lease.session, leases, listening)
    {
      ghost var t := books;
      FreeAndDrain(lease, t.locks[lease.state], Freed(t, lease.id));
      books := AfterRelease(t, lease.id, leases, listening);
    }

    method ReleaseHeld(lease: Lease)
      requires Valid() && lease.id in leases && leases[lease.id] == lease && lease.id !in released
      modifies this`leases, this`listening, this`released, this`books, lease.state
      ensures Valid() && released == old(released) + {lease.id} && books.locks.Keys == old(books.locks.Keys)
      ensures SessionMoves(old(books), books, lease.session,
                           SessionLock.Release(View(old(books), lease.session), lease.id))
    {
      ghost var t := books;
      LeaseView(t, lease.id);
      ReleaseReady(t, lease.id);
      Free(lease);
      ReleaseTables(t, lease.id, leases, listening);
    }

    /** The closure returned by `grant`: the first call releases, later ones do nothing. */
    method Release(lease: Lease)
      requires Valid() && lease.id in leases && leases[lease.id] == lease
      modifies this, lease.state
      ensures Valid() && lease.id in released && books.locks.Keys == old(books.locks.Keys) && nextId == old(nextId)
      ensures SessionMoves(old(books), books, lease.session,
                           SessionLock.Release(View(old(books), lease.session), lease.id))
      ensures lease.id in old(released) ==> books == old(books)
    {
      LeaseView(books, lease.id);
      if lease.id in released {
        return;
      }
      ReleaseHeld(lease);
      CleanupSession(lease.session, lease.state);
    }

    method AdmitNow(session: string, state: SessionState, mode: WaitMode)
      requires Booked() && state in books.locks && session == state.session && !Holds(books.locks[state], nextId)
      modifies this`leases, this`nextId, this`books, state
      ensures Booked() && books == AfterAdmit(old(books), state, Request(old(nextId), mode))
    {
      ghost var t, r := books, Request(nextId, mode);
      Grant(session, state, Request(nextId, mode), books.locks[state]);
      nextId := nextId + 1;
      books := AfterAdmit(t, state, r);
    }

    method Admit(session: string, state: SessionState, mode: WaitMode) returns (lease: Lease)
      requires Valid() && session in stateBySession && stateBySession[session] == state && state in books.locks
      requires CanGrant(books.locks[state], mode)
      modifies this`leases, this`nextId, this`books, state
      ensures Valid() && books == AfterAdmit(old(books), state, Request(old(nextId), mode))
      ensures SessionMoves(old(books), books, session,
                           SessionLock.Granted(old(books.locks[state]), Request(old(nextId), mode)))
      ensures lease == Lease(old(nextId), session, state, mode) && lease.id in leases && leases[lease.id] == lease
    {
      AdmitTables(books, state, Request(nextId, mode));
      AdmitNow(session, state, mode);
      lease := leases[nextId - 1];
    }

    method PushAndDrain(session: string, state: SessionState, r: Request, attach: bool, ghost l: Lock)
      requires state.Mirrors(l) && Drainable(Queue(l, r))
      requires forall id: nat :: Waits(Queue(l, r), id) ==> id !in leases
      modifies this`leases, this`listening, state
      ensures state.Mirrors(Drain(Queue(l, r)))
      ensures Issues(old(leases), leases, Queue(l, r), Drain(Queue(l, r)), session, state)
      ensures Disposes(Attach(old(listening), r.id, Listener(session, state), attach), listening,
                       Queue(l, r), Drain(Queue(l, r)))
    {
      if attach {
        listening := listening[r.id := Listener(session, state)];
      }
      state.queue := state.queue + [r];
      DrainState(session, state, Queue(l, r));
    }

    method Push(session: string, state: SessionState, mode: WaitMode, attach: bool)
      requires Booked() && state in books.locks && session == state.session
      requires var f := Queue(books.locks[state], Request(nextId, mode));
               Drainable(f) && forall id: nat :: Waits(f, id) ==> id !in leases
      modifies this`leases, this`listening, this`nextId, this`books, state
      ensures Booked() && books == AfterEnqueue(old(books), state, Request(old(nextId), mode), leases, listening)
      ensures Enqueues(old(books), state, Request(old(nextId), mode), attach, leases, listening)
    {
      ghost var t := books;
      var r := Request(nextId, mode);
      PushAndDrain(session, state, r, attach, t.locks[state]);
      nextId := nextId + 1;
      books := AfterEnqueue(t, state, r, leases, listening);
    }

    method Enqueue(session: string, state: SessionState, mode: WaitMode, attach: bool)
      requires Valid() && session in stateBySession && stateBySession[session] == state && state in books.locks
      requires !CanGrant(books.locks[state], mode)
      modifies this`leases, this`listening, this`nextId, this`books, state
      ensures Valid() && books == AfterEnqueue(old(books), state, Request(old(nextId), mode), leases, listening)
      ensures old(nextId) in listening <==> attach
      ensures SessionMoves(old(books), books, session,
                           SessionLock.Acquire(old(books.locks[state]), Request(old(nextId), mode), false))
    {
      ghost var t, r := books, Request(nextId, mode);
      EnqueueReady(t, state, r);
      Push(session, state, mode, attach);
      EnqueueTables(t, state, r, attach, leases, listening);
    }

    /** The refused request has taken a number, and nothing else. */
    method Refuse()
      requires Valid()
      modifies this`nextId, this`books
      ensures Valid() && books == Skipped(old(books)) && SameViews(old(books), books)
    {
      SkipNumber(books);
      NextNumber();
    }

    method NextNumber()
      requires Booked()
      modifies this`nextId, this`books
      ensures Booked() && books == Skipped(old(books))
    {
      nextId := nextId + 1;
      books := Skipped(books);
    }

    method AcquireOn(session: string, state: SessionState, mode: WaitMode, honorAbort: bool, signal: Signal)
      returns (answer: Answer)
      requires Valid() && session in stateBySession && stateBySession[session] == state && state in books.locks
      modifies this, state
      ensures Valid() && books.locks.Keys == old(books.locks.Keys) && nextId == old(nextId) + 1
      ensures SessionMoves(old(books), books, session,
                           SessionLock.Acquire(old(books.locks[state]), Request(old(nextId), mode),
                                               honorAbort && signal.Fired?))
      ensures answer.Admitted? <==> CanGrant(old(books.locks[state]), mode)
      ensures answer.Refused? <==> !answer.Admitted? && honorAbort && signal.Fired?
      ensures Issued(answer, old(nextId), session, mode)
      ensures answer.Queued? ==> (old(nextId) in listening <==> honorAbort && signal.Live?)
    {
      if CanGrantNow(state, mode) {
        var lease := Admit(session, state, mode);
        return Admitted(lease);
      }
      if honorAbort && signal.Fired? {
        Refuse();
        return Refused;
      }
      Enqueue(session, state, mode, honorAbort && signal.Live?);
      answer := Queued(nextId - 1);
    }

    /** The answer is for request `id`, and a lease handed out is on record. */
    ghost predicate Issued(answer: Answer, id: nat, session: string, mode: WaitMode)
      reads this
    {
      match answer
      case Admitted(lease) => lease == Lease(id, session, lease.state, mode) && id in leases && leases[id] == lease
      case Queued(queued) => queued == id
      case Refused => true
    }

    /** `acquire`: granted at once, refused because its signal has fired, or queued behind a live listener. */
    method Acquire(session: string, mode: WaitMode, honorAbort: bool, signal: Signal) returns (answer: Answer)
      requires Valid()
      modifies this, books.locks.Keys
      ensures Valid() && fresh(books.locks.Keys - old(books.locks.Keys)) && old(books.locks.Keys) <= books.locks.Keys
      ensures SessionMoves(old(books), books, session,
                           SessionLock.Acquire(View(old(books), session), Request(old(nextId), mode),
                                               honorAbort && signal.Fired?))
      ensures nextId == old(nextId) + 1
      ensures answer.Admitted? <==> CanGrant(View(old(books), session), mode)
      ensures answer.Refused? <==> !answer.Admitted? && honorAbort && signal.Fired?
      ensures Issued(answer, old(nextId), session, mode)
      ensures answer.Queued? ==> (old(nextId) in listening <==> honorAbort && signal.Live?)
    {
      var state := GetState(session);
      answer := AcquireOn(session, state, mode, honorAbort, signal);
    }

    /** The abort listener of a waiter: it leaves the queue, and nobody is granted anything. */
    method AbortWaiter(id: nat)
      requires Valid() && id in listening
      modifies this, listening[id].state
      ensures Valid() && books.locks.Keys == old(books.locks.Keys) && id !in listening
      ensures leases == old(leases) && released == old(released) && nextId == old(nextId)
      ensures Waits(View(old(books), old(listening[id].session)), id)
      ensures SessionMoves(old(books), books, old(listening[id].session),
                           SessionLock.Abort(View(old(books), old(listening[id].session)), id))
    {
      var session, state := listening[id].session, listening[id].state;
      AbortTables(books, id);
      AbortListed(id);
      CleanupSession(session, state);
    }

    method AbortListed(id: nat)
      requires Booked() && id in listening && listening[id].state in books.locks
      modifies this`listening, this`books, listening[id].state
      ensures Booked() && books == AfterAbort(old(books), id)
    {
      ghost var t := books;
      var state := listening[id].state;
      listening := listening - {id};
      RemoveWaiter(state, id);
      books := AfterAbort(t, id);
    }
  }

  // ---------------------------------------------------------------- runs of the coordinator

  /** A call for a session: an acquire, a release or an abort. */
  datatype Call = Call(session: string, op: Op)

  /** The call steps the lock of its session; other sessions see at most that a number was taken. */
  ghost predicate Follows(t: Tables, t': Tables, call: Call) {
    forall s: string :: World(View(t', s), t'.next) == StepOf(World(View(t, s), t.next), s, call)
  }

  ghost function StepOf(w: World, session: string, call: Call): World {
    if session == call.session then Step(w, call.op)
    else if call.op.AcquireOp? then Step(w, Elsewhere)
    else w
  }

  /** What a sequence of calls means to one session. */
  function Mine(calls: Log<Call>, session: string): Log<Op> {
    if calls.Empty? then Empty
    else if calls.last.session == session then Then(Mine(calls.past, session), calls.last.op)
    else if calls.last.op.AcquireOp? then Then(Mine(calls.past, session), Elsewhere)
    else Mine(calls.past, session)
  }

  /** What the three methods promise is one step of the session's lock. */
  lemma {:induction false} CallFollows(t: Tables, t': Tables, call: Call)
    requires call.op != Elsewhere
    requires t'.next == t.next + if call.op.AcquireOp? then 1 else 0
    requires SessionMoves(t, t', call.session, Step(World(View(t, call.session), t.next), call.op).lock)
    ensures Follows(t, t', call)
  {
  }

  /** The calls lead from a new coordinator through the tables in `passed` to `t`. */
  ghost predicate Reached(passed: Log<Tables>, calls: Log<Call>, t: Tables) {
    if calls.Empty? then t == Tables(map[], map[], map[], map[], {}, map[], 0)
    else passed.Then? && Reached(passed.past, calls.past, passed.last) && Follows(passed.last, t, calls.last)
  }

  /**
   Whatever the interleaving of calls for all sessions, every session's lock has gone through a run of its
   own from the free lock: it is safe, although its state object may have come and gone many times.
   */
  lemma {:induction false} EachSessionRuns(passed: Log<Tables>, calls: Log<Call>, t: Tables, session: string)
    requires Reached(passed, calls, t)
    ensures World(View(t, session), t.next) == After(World(FREE, 0), Mine(calls, session))
    ensures Sane(World(View(t, session), t.next))
  {
    if calls.Then? {
      var before := passed.last;
      EachSessionRuns(passed.past, calls.past, before, session);
      assert World(View(t, session), t.next) == StepOf(World(View(before, session), before.next), session, calls.last);
    }
    EveryRunSafe(Mine(calls, session));
  }

  /** The tables once a number has been taken. */
  ghost function Skipped(t: Tables): Tables {
    Tables(t.sessions, t.locks, t.homes, t.leases, t.released, t.listening, t.next + 1)
  }

  lemma {:induction false} SkipNumber(t: Tables)
    requires TablesOk(t)
    ensures TablesOk(Skipped(t)) && SameViews(t, Skipped(t))
  {
    var t' := Skipped(t);
    forall s | s in t'.locks
      ensures StateOk(t', s)
    {
      assert StateOk(t, s);
    }
    forall id | id in t'.leases
      ensures LeaseOk(t', id)
    {
      assert LeaseOk(t, id);
    }
    forall id | id in t'.listening
      ensures ListenerOk(t', id)
    {
      assert ListenerOk(t, id);
    }
  }

  /** `canGrantImmediately` on the state object. */
  function CanGrantNow(state: SessionState, mode: WaitMode): bool
    reads state
  {
    if mode.Exclusive? then !state.activeExclusive && state.activeShared == 0
    else !state.activeExclusive && NoExclusive(state.queue)
  }

  /** `removeWaiter`: the first entry of the queue with this identity, if any. */
  method RemoveWaiter(state: SessionState, id: nat)
    modifies state`queue
    ensures state.queue == Without(old(state.queue), id)
  {
    var index := 0;
    while index < |state.queue| && state.queue[index].id != id
      invariant index <= |state.queue|
      invariant Without(state.queue, id) == state.queue[..index] + Without(state.queue[index..], id)
    {
      assert state.queue[index..][1..] == state.queue[index + 1..];
      index := index + 1;
    }
    if index < |state.queue| {
      assert state.queue[index..][1..] == state.queue[index + 1..];
      state.queue := state.queue[..index] + state.queue[index + 1..];
    }
  }

  /** One session's lock moves to `l`; no other session's lock differs. */
  ghost predicate SessionMoves(t: Tables, t': Tables, session: string, l: Lock) {
    forall other :: View(t', other) == if other == session then l else View(t, other)
  }

  /** While its closure has not run, a lease holds the lock of its session, in its mode. */
  lemma {:induction false} LeaseView(t: Tables, id: nat)
    requires TablesOk(t) && id in t.leases
    ensures var l := t.leases[id];
            && l.state in t.locks
            && (id in t.released ==> !Holds(View(t, l.session), id))
            && (id !in t.released ==> l.session in t.sessions && t.sessions[l.session] == l.state
                                      && View(t, l.session) == t.locks[l.state]
                                      && HoldsAs(t.locks[l.state], id, l.mode))
  {
    var l := t.leases[id];
    assert LeaseOk(t, id) && StateOk(t, l.state);
    if l.session in t.sessions {
      assert StateOk(t, t.sessions[l.session]);
    }
  }

  lemma {:induction false} MoveViews(t: Tables, t': Tables, s: SessionState, l: Lock)
    requires TablesOk(t) && t'.sessions == t.sessions && t'.locks == t.locks[s := l]
    requires s.session in t.sessions && t.sessions[s.session] == s
    ensures SessionMoves(t, t', s.session, l)
  {
  }

  lemma {:induction false} FreedFacts(l: Lock, id: nat, mode: WaitMode, f: Lock)
    requires Safe(l) && HoldsAs(l, id, mode)
    requires f == if mode.Exclusive? then l.(exclusive := None) else l.(shared := l.shared - {id})
    ensures Drainable(f) && f.queue == l.queue && SessionLock.Release(l, id) == Drain(f)
    ensures forall x: nat :: Waits(f, x) <==> Waits(l, x)
    ensures forall x: nat :: Holds(f, x) <==> Holds(l, x) && x != id
    ensures forall x: nat, m :: x != id ==> (HoldsAs(f, x, m) <==> HoldsAs(l, x, m))
    ensures !HoldsAs(f, id, mode)
  {
  }

  /** The lock of `s` once the holder `id` is taken out. */
  ghost function Freed(t: Tables, id: nat): Lock
    requires id in t.leases && t.leases[id].state in t.locks
  {
    var l := t.locks[t.leases[id].state];
    if t.leases[id].mode.Exclusive? then l.(exclusive := None) else l.(shared := l.shared - {id})
  }

  lemma {:induction false} ReleaseReady(t: Tables, id: nat)
    requires TablesOk(t) && id in t.leases && id !in t.released && t.leases[id].state in t.locks
    ensures Drainable(Freed(t, id)) && SessionLock.Release(t.locks[t.leases[id].state], id) == Drain(Freed(t, id))
    ensures forall x: nat :: Waits(Freed(t, id), x) ==> x !in t.leases
  {
    var s := t.leases[id].state;
    assert StateOk(t, s) && LeaseOk(t, id);
    FreedFacts(t.locks[s], id, t.leases[id].mode, Freed(t, id));
  }

  lemma {:induction false} ReleaseDisturbs(t: Tables, id: nat)
    requires TablesOk(t) && id in t.leases && id !in t.released && t.leases[id].state in t.locks
    ensures Disturbed(t, t.(released := t.released + {id}), t.leases[id].state, Freed(t, id))
  {
    var t', s, f := t.(released := t.released + {id}), t.leases[id].state, Freed(t, id);
    LeaseView(t, id);
    ReleaseReady(t, id);
    ReleaseRequests(t, id);
    ReleaseLeases(t, id);
  }

  lemma {:induction false} ReleaseRequests(t: Tables, id: nat)
    requires TablesOk(t) && id in t.leases && id !in t.released && t.leases[id].state in t.locks
    ensures DisturbedRequests(t, t.(released := t.released + {id}), t.leases[id].state, Freed(t, id))
  {
    var s, f := t.leases[id].state, Freed(t, id);
    assert StateOk(t, s) && LeaseOk(t, id);
    var l := t.locks[s];
    FreedFacts(l, id, t.leases[id].mode, f);
    forall x: nat
      ensures Involved(f, x) ==> Involved(l, x)
      ensures Holds(f, x) ==> Holds(l, x) && HoldsAs(f, x, t.leases[x].mode)
    {
    }
  }

  lemma {:induction false} ReleaseLeases(t: Tables, id: nat)
    requires TablesOk(t) && id in t.leases && id !in t.released && t.leases[id].state in t.locks
    ensures DisturbedLeases(t, t.(released := t.released + {id}), t.leases[id].state, Freed(t, id))
  {
    var t', s, f := t.(released := t.released + {id}), t.leases[id].state, Freed(t, id);
    assert StateOk(t, s) && LeaseOk(t, id);
    FreedFacts(t.locks[s], id, t.leases[id].mode, f);
    forall x | x in t.leases && t.leases[x].state == s
      ensures x !in t'.released <==> HoldsAs(f, x, t.leases[x].mode)
    {
      assert LeaseOk(t, x);
    }
    forall x | x in t.listening && t.listening[x].state == s
      ensures t.listening[x].session == s.session && Waits(f, x)
    {
      assert ListenerOk(t, x);
    }
  }

  /** What the drain after taking out the holder `id` does to the leases and listeners. */
  ghost predicate Frees(t: Tables, id: nat, session: string, leases: map<nat, Lease>, listening: map<nat, Listener>)
    requires id in t.leases && t.leases[id].state in t.locks
  {
    var f := Freed(t, id);
    Issues(t.leases, leases, f, Drain(f), session, t.leases[id].state) && Disposes(t.listening, listening, f, Drain(f))
  }

  /** The tables after the first run of a release closure, before idle states are dropped. */
  ghost function AfterRelease(t: Tables, id: nat, leases: map<nat, Lease>, listening: map<nat, Listener>): Tables
    requires id in t.leases && t.leases[id].state in t.locks
  {
    Tables(t.sessions, t.locks[t.leases[id].state := Drain(Freed(t, id))], t.homes, leases, t.released + {id},
           listening, t.next)
  }

  lemma {:induction false} ReleaseTables(t: Tables, id: nat, leases: map<nat, Lease>, listening: map<nat, Listener>)
    requires TablesOk(t) && id in t.leases && id !in t.released && t.leases[id].state in t.locks
    requires Frees(t, id, t.leases[id].session, leases, listening)
    ensures var t' := AfterRelease(t, id, leases, listening);
            && TablesOk(t')
            && SessionMoves(t, t', t.leases[id].session, SessionLock.Release(View(t, t.leases[id].session), id))
  {
    var t1, s, f := t.(released := t.released + {id}), t.leases[id].state, Freed(t, id);
    LeaseView(t, id);
    assert LeaseOk(t, id);
    ReleaseReady(t, id);
    ReleaseDisturbs(t, id);
    DisturbAndDrain(t, t1, AfterRelease(t, id, leases, listening), s, f);
  }

  /** Everything but locks may have grown for the sake of state `s`. */
  ghost predicate Grows(t: Tables, t': Tables, s: SessionState) {
    && t'.sessions == t.sessions && t'.locks == t.locks && t'.leases == t.leases && t.next <= t'.next
    && (forall id :: id in t.homes ==> id in t'.homes && t'.homes[id] == t.homes[id])
    && (forall id :: id in t'.homes && id !in t.homes ==> t.next <= id < t'.next && t'.homes[id] == s)
    && t.released <= t'.released
    && (forall id :: id in t'.released && id !in t.released ==> id in t.leases && t.leases[id].state == s)
    && (forall id :: id in t'.listening && !(id in t.listening && t'.listening[id] == t.listening[id]) ==>
          t'.listening[id].state == s)
  }

  /** A disturbance of state `s` followed by the drain of its lock. */
  lemma {:induction false} DisturbAndDrain(t: Tables, t1: Tables, t2: Tables, s: SessionState, f: Lock)
    requires TablesOk(t) && Disturbed(t, t1, s, f) && Grows(t, t1, s)
    requires t2 == t1.(locks := t.locks[s := Drain(f)], leases := t2.leases, listening := t2.listening)
    requires Issues(t.leases, t2.leases, f, Drain(f), s.session, s)
    requires Disposes(t1.listening, t2.listening, f, Drain(f))
    ensures TablesOk(t2) && SessionMoves(t, t2, s.session, Drain(f))
  {
    assert Disturbed(t, t2, s, f);
    assert Moves(t, t2, s, Drain(f)) by {
      forall id | id in t2.leases && id !in t.leases
        ensures id in t2.homes && t2.homes[id] == s
      {
        assert Involved(f, id);
      }
    }
    DrainTables(t, t2, s, f, t1.listening);
    MoveViews(t, t2, s, Drain(f));
  }

  // ---------------------------------------------------------------- acquire and abort

  function Queue(l: Lock, r: Request): Lock {
    l.(queue := l.queue + [r])
  }

  function Attach(listening: map<nat, Listener>, id: nat, listener: Listener, attach: bool): map<nat, Listener> {
    if attach then listening[id := listener] else listening
  }

  /** The tables after an immediate grant of `r` on state `s`. */
  ghost function AfterAdmit(t: Tables, s: SessionState, r: Request): Tables
    requires s in t.locks
  {
    Tables(t.sessions, t.locks[s := SessionLock.Granted(t.locks[s], r)], t.homes[r.id := s],
           t.leases[r.id := Lease(r.id, s.session, s, r.mode)], t.released, t.listening, r.id + 1)
  }

  ghost predicate Current(t: Tables, s: SessionState) {
    s in t.locks && s.session in t.sessions && t.sessions[s.session] == s
  }

  /** The next request is known nowhere. */
  ghost predicate Unknown(t: Tables, l: Lock) {
    && Safe(l) && !Involved(l, t.next) && t.next !in t.leases && t.next !in t.homes
    && t.next !in t.released && t.next !in t.listening
  }

  lemma {:induction false} NextUnknown(t: Tables, s: SessionState)
    requires TablesOk(t) && s in t.locks
    ensures StateOk(t, s) && Unknown(t, t.locks[s])
  {
    assert StateOk(t, s);
    forall id | id in t.leases
      ensures id < t.next
    {
      assert LeaseOk(t, id);
    }
    forall id | id in t.listening
      ensures id < t.next
    {
      assert ListenerOk(t, id) && StateOk(t, t.listening[id].state);
      assert Involved(t.locks[t.listening[id].state], id);
    }
  }

  lemma {:induction false} AdmitTables(t: Tables, s: SessionState, r: Request)
    requires TablesOk(t) && Current(t, s) && r.id == t.next && CanGrant(t.locks[s], r.mode)
    ensures TablesOk(AfterAdmit(t, s, r))
    ensures SessionMoves(t, AfterAdmit(t, s, r), s.session, SessionLock.Granted(t.locks[s], r))
    ensures !Holds(t.locks[s], r.id)
  {
    var t', l := AfterAdmit(t, s, r), SessionLock.Granted(t.locks[s], r);
    NextUnknown(t, s);
    AdmittedState(t, s, r);
    forall id | id in t'.leases && t'.leases[id].state == s
      ensures LeaseOk(t', id)
    {
      AdmittedLease(t, s, r, id);
    }
    forall id | id in t'.listening && t'.listening[id].state == s
      ensures ListenerOk(t', id)
    {
      assert ListenerOk(t, id);
    }
    MovePreserves(t, t', s, l);
    MoveViews(t, t', s, l);
  }

  lemma {:induction false} AdmittedState(t: Tables, s: SessionState, r: Request)
    requires Current(t, s) && StateOk(t, s) && Unknown(t, t.locks[s])
    requires r.id == t.next && CanGrant(t.locks[s], r.mode)
    ensures StateOk(AfterAdmit(t, s, r), s)
  {
    var l, l' := t.locks[s], SessionLock.Granted(t.locks[s], r);
    AcquireSafe(l, r, false);
    forall id: nat
      ensures Waits(l', id) <==> Waits(l, id)
      ensures Holds(l', id) <==> Holds(l, id) || id == r.id
      ensures Involved(l', id) <==> Involved(l, id) || id == r.id
    {
    }
  }

  lemma {:induction false} AdmittedLease(t: Tables, s: SessionState, r: Request, id: nat)
    requires TablesOk(t) && Current(t, s) && r.id == t.next && CanGrant(t.locks[s], r.mode)
    requires id in AfterAdmit(t, s, r).leases && AfterAdmit(t, s, r).leases[id].state == s
    ensures LeaseOk(AfterAdmit(t, s, r), id)
  {
    NextUnknown(t, s);
    if id != r.id {
      assert LeaseOk(t, id);
    }
  }

  lemma {:induction false} EnqueueReady(t: Tables, s: SessionState, r: Request)
    requires TablesOk(t) && Current(t, s) && r.id == t.next && !CanGrant(t.locks[s], r.mode)
    ensures Drainable(Queue(t.locks[s], r))
    ensures forall id: nat :: Waits(Queue(t.locks[s], r), id) <==> Waits(t.locks[s], id) || id == r.id
    ensures forall id: nat :: Waits(Queue(t.locks[s], r), id) ==> id !in t.leases
    ensures SessionLock.Acquire(t.locks[s], r, false) == Drain(Queue(t.locks[s], r))
    ensures Waits(Drain(Queue(t.locks[s], r)), r.id)
    ensures r.id !in t.listening
  {
    NextUnknown(t, s);
    assert StateOk(t, s);
    QueuedWaits(t.locks[s], r);
    QueueWaiters(t.locks[s], r);
  }

  lemma {:induction false} QueueWaiters(l: Lock, r: Request)
    requires Safe(l) && !Involved(l, r.id)
    ensures Drainable(Queue(l, r))
    ensures forall id: nat :: Waits(Queue(l, r), id) <==> Waits(l, id) || id == r.id
  {
    var queued := Queue(l, r);
    assert forall i :: 0 <= i < |l.queue| ==> queued.queue[i] == l.queue[i];
    forall id: nat
      ensures Waits(queued, id) <==> Waits(l, id) || id == r.id
    {
      if i :| 0 <= i < |l.queue| && l.queue[i].id == id {
        assert queued.queue[i].id == id;
      }
      assert queued.queue[|l.queue|].id == r.id;
    }
    forall i | 0 <= i < |l.queue|
      ensures queued.queue[i].id != r.id
    {
      assert Waits(l, l.queue[i].id);
    }
  }

  ghost function Pushed(t: Tables, s: SessionState, r: Request, attach: bool): Tables {
    t.(homes := t.homes[r.id := s], next := r.id + 1,
       listening := Attach(t.listening, r.id, Listener(s.session, s), attach))
  }

  lemma {:induction false} PushDisturbs(t: Tables, s: SessionState, r: Request, attach: bool)
    requires TablesOk(t) && Current(t, s) && r.id == t.next && !CanGrant(t.locks[s], r.mode)
    ensures Disturbed(t, Pushed(t, s, r, attach), s, Queue(t.locks[s], r))
  {
    NextUnknown(t, s);
    EnqueueReady(t, s, r);
    PushedRequests(t, s, r, attach);
    PushedLeases(t, s, r, attach);
  }

  lemma {:induction false} PushedRequests(t: Tables, s: SessionState, r: Request, attach: bool)
    requires Current(t, s) && StateOk(t, s) && Unknown(t, t.locks[s])
    requires r.id == t.next && !CanGrant(t.locks[s], r.mode)
    ensures DisturbedRequests(t, Pushed(t, s, r, attach), s, Queue(t.locks[s], r))
  {
    var l, f := t.locks[s], Queue(t.locks[s], r);
    QueueWaiters(l, r);
    forall id: nat
      ensures Holds(f, id) <==> Holds(l, id)
      ensures Involved(f, id) ==> Involved(l, id) || id == r.id
    {
    }
  }

  lemma {:induction false} PushedLeases(t: Tables, s: SessionState, r: Request, attach: bool)
    requires TablesOk(t) && Current(t, s) && r.id == t.next && !CanGrant(t.locks[s], r.mode)
    ensures DisturbedLeases(t, Pushed(t, s, r, attach), s, Queue(t.locks[s], r))
  {
    EnqueueReady(t, s, r);
    forall id | id in t.leases && t.leases[id].state == s
      ensures id !in t.released <==> HoldsAs(Queue(t.locks[s], r), id, t.leases[id].mode)
    {
      assert LeaseOk(t, id);
    }
    forall id | id in t.listening && t.listening[id].state == s
      ensures t.listening[id].session == s.session && Waits(t.locks[s], id)
    {
      assert ListenerOk(t, id);
    }
  }

  /** What the drain after queueing `r` on state `s` does to the leases and listeners. */
  ghost predicate Enqueues(t: Tables, s: SessionState, r: Request, attach: bool, leases: map<nat, Lease>,
                           listening: map<nat, Listener>)
    requires s in t.locks
  {
    var f := Queue(t.locks[s], r);
    && Issues(t.leases, leases, f, Drain(f), s.session, s)
    && Disposes(Attach(t.listening, r.id, Listener(s.session, s), attach), listening, f, Drain(f))
  }

  /** The tables once `r` has queued on state `s`, given the leases and listeners the drain leaves. */
  ghost function AfterEnqueue(t: Tables, s: SessionState, r: Request, leases: map<nat, Lease>,
                              listening: map<nat, Listener>): Tables
    requires s in t.locks
  {
    Tables(t.sessions, t.locks[s := Drain(Queue(t.locks[s], r))], t.homes[r.id := s],
           leases, t.released, listening, r.id + 1)
  }

  lemma {:induction false} EnqueueTables(t: Tables, s: SessionState, r: Request, attach: bool,
                                         leases: map<nat, Lease>, listening: map<nat, Listener>)
    requires TablesOk(t) && Current(t, s) && r.id == t.next && !CanGrant(t.locks[s], r.mode)
    requires Enqueues(t, s, r, attach, leases, listening)
    ensures r.id in listening <==> attach
    ensures var t' := AfterEnqueue(t, s, r, leases, listening);
            TablesOk(t') && SessionMoves(t, t', s.session, SessionLock.Acquire(t.locks[s], r, false))
  {
    NextUnknown(t, s);
    EnqueueReady(t, s, r);
    PushDisturbs(t, s, r, attach);
    DisturbAndDrain(t, Pushed(t, s, r, attach), AfterEnqueue(t, s, r, leases, listening), s, Queue(t.locks[s], r));
  }

  ghost function AfterAbort(t: Tables, id: nat): Tables
    requires id in t.listening && t.listening[id].state in t.locks
  {
    var s := t.listening[id].state;
    Tables(t.sessions, t.locks[s := SessionLock.Abort(t.locks[s], id)], t.homes, t.leases, t.released,
           t.listening - {id}, t.next)
  }

  lemma {:induction false} AbortTables(t: Tables, id: nat)
    requires TablesOk(t) && id in t.listening
    ensures var s := t.listening[id].state;
            && Current(t, s) && t.listening[id].session == s.session && Waits(t.locks[s], id)
            && TablesOk(AfterAbort(t, id))
            && SessionMoves(t, AfterAbort(t, id), s.session, SessionLock.Abort(t.locks[s], id))
  {
    var s := t.listening[id].state;
    assert ListenerOk(t, id) && StateOk(t, s);
    var l, l', t' := t.locks[s], SessionLock.Abort(t.locks[s], id), AfterAbort(t, id);
    AbortedState(t, id);
    forall x | x in t'.leases && t'.leases[x].state == s
      ensures LeaseOk(t', x)
    {
      assert LeaseOk(t, x);
    }
    forall x | x in t'.listening && t'.listening[x].state == s
      ensures ListenerOk(t', x)
    {
      assert ListenerOk(t, x);
      WithoutKeeps(l.queue, id, x);
    }
    MovePreserves(t, t', s, l');
    MoveViews(t, t', s, l');
  }

  lemma {:induction false} AbortedState(t: Tables, id: nat)
    requires id in t.listening && Current(t, t.listening[id].state) && StateOk(t, t.listening[id].state)
    ensures StateOk(AfterAbort(t, id), t.listening[id].state)
  {
    var s := t.listening[id].state;
    var l, l' := t.locks[s], SessionLock.Abort(t.locks[s], id);
    AbortSafe(l, id);
    forall x: nat
      ensures Waits(l', x) ==> Waits(l, x)
      ensures Involved(l', x) ==> Involved(l, x)
    {
      AbortInvolves(l, id, x);
    }
  }

  lemma {:induction false} WithoutKeeps(queue: seq<Request>, id: nat, x: nat)
    requires x != id && exists i :: 0 <= i < |queue| && queue[i].id == x
    ensures exists i :: 0 <= i < |Without(queue, id)| && Without(queue, id)[i].id == x
  {
    var i :| 0 <= i < |queue| && queue[i].id == x;
    if queue[0].id == id {
      assert Without(queue, id)[i - 1].id == x;
    } else if i == 0 {
      assert Without(queue, id)[0].id == x;
    } else {
      assert queue[1..][i - 1].id == x;
      WithoutKeeps(queue[1..], id, x);
      var j :| 0 <= j < |Without(queue[1..], id)| && Without(queue[1..], id)[j].id == x;
      assert Without(queue, id)[j + 1].id == x;
    }
  }
}
