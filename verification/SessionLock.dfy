/**
 The reader/writer lock of one session as a value (tool-execution-traits.ts, `SessionExecutionState` and
 the guards on it): who holds it, who waits, and what acquire, release and abort do. The class in
 ExecutionCoordinator.dfy is proved against it; here are the properties of every run.
 */
module SessionLock {
  import opened Prelude

  datatype WaitMode = Shared | Exclusive

  /** A request for the lock, identified by its number. */
  datatype Request = Request(id: nat, mode: WaitMode)

  datatype Lock = Lock(shared: set<nat>, exclusive: Option<nat>, queue: seq<Request>)

  const FREE := Lock({}, None, [])

  predicate NoExclusive(queue: seq<Request>) {
    forall i :: 0 <= i < |queue| ==> queue[i].mode.Shared?
  }

  predicate Holds(l: Lock, id: nat) {
    id in l.shared || l.exclusive == Some(id)
  }

  predicate Waits(l: Lock, id: nat) {
    exists i :: 0 <= i < |l.queue| && l.queue[i].id == id
  }

  predicate CanGrant(l: Lock, mode: WaitMode) {
    l.exclusive.None? && if mode.Exclusive? then l.shared == {} else NoExclusive(l.queue)
  }

  function Granted(l: Lock, r: Request): Lock {
    if r.mode.Exclusive? then l.(exclusive := Some(r.id)) else l.(shared := l.shared + {r.id})
  }

  function DrainShared(l: Lock): Lock
    decreases |l.queue|
  {
    if l.queue == [] || l.queue[0].mode.Exclusive? || l.exclusive.Some? then l
    else DrainShared(Granted(l.(queue := l.queue[1..]), l.queue[0]))
  }

  /** Grants from the head: one exclusive waiter if the lock is free, or the leading run of shared ones. */
  function Drain(l: Lock): Lock {
    if l.exclusive.Some? || l.queue == [] then l
    else if l.queue[0].mode.Exclusive? then
      if l.shared != {} then l else Granted(l.(queue := l.queue[1..]), l.queue[0])
    else DrainShared(l)
  }

  /** `refuse` says that the request honours an abort signal that has already fired. */
  function Acquire(l: Lock, r: Request, refuse: bool): Lock {
    if CanGrant(l, r.mode) then Granted(l, r)
    else if refuse then l
    else Drain(l.(queue := l.queue + [r]))
  }

  function Release(l: Lock, id: nat): Lock {
    if !Holds(l, id) then l
    else if l.exclusive == Some(id) then Drain(l.(exclusive := None))
    else Drain(l.(shared := l.shared - {id}))
  }

  function Without(queue: seq<Request>, id: nat): seq<Request> {
    if queue == [] then []
    else if queue[0].id == id then queue[1..]
    else [queue[0]] + Without(queue[1..], id)
  }

  /** An aborted waiter leaves the queue; nobody is granted anything. */
  function Abort(l: Lock, id: nat): Lock {
    l.(queue := Without(l.queue, id))
  }

  // ---------------------------------------------------------------- the invariant

  /** Requests are distinct: each waits once or holds, never both. */
  ghost predicate Separate(l: Lock) {
    && (forall i :: 0 <= i < |l.queue| ==> !Holds(l, l.queue[i].id))
    && (forall i, j :: 0 <= i < j < |l.queue| ==> l.queue[i].id != l.queue[j].id)
    && (l.exclusive.Some? ==> l.exclusive.value !in l.shared)
  }

  /** An exclusive holder excludes all others, and nobody waits for a lock that nobody holds. */
  ghost predicate Safe(l: Lock) {
    && Separate(l)
    && (l.exclusive.Some? ==> l.shared == {})
    && (l.queue != [] ==> l.exclusive.Some? || l.shared != {})
  }

  predicate Involved(l: Lock, id: nat) {
    Holds(l, id) || Waits(l, id)
  }

  /** Every request in the lock has a number below `bound`. */
  ghost predicate Known(l: Lock, bound: nat) {
    forall id: nat :: Involved(l, id) ==> id < bound
  }

  function Population(l: Lock): nat {
    |l.shared| + (if l.exclusive.Some? then 1 else 0) + |l.queue|
  }

  lemma {:induction false} DrainSharedKeeps(l: Lock)
    requires Separate(l) && (l.exclusive.Some? ==> l.shared == {})
    ensures Separate(DrainShared(l)) && DrainShared(l).exclusive == l.exclusive
    ensures DrainShared(l).exclusive.Some? ==> DrainShared(l).shared == {}
    ensures Population(DrainShared(l)) == Population(l)
    ensures l.shared <= DrainShared(l).shared
    ensures l.exclusive.None? && l.queue != [] && l.queue[0].mode.Shared? ==> DrainShared(l).shared != {}
    decreases |l.queue|
  {
    if l.queue == [] || l.queue[0].mode.Exclusive? || l.exclusive.Some? {
    } else {
      var next := Granted(l.(queue := l.queue[1..]), l.queue[0]);
      assert next.shared == l.shared + {l.queue[0].id};
      DrainSharedKeeps(next);
    }
  }

  /** Draining makes a separate lock safe, and only moves waiters to holders. */
  lemma {:induction false} DrainMakesSafe(l: Lock)
    requires Separate(l) && (l.exclusive.Some? ==> l.shared == {})
    ensures Safe(Drain(l)) && Population(Drain(l)) == Population(l)
    ensures l.shared <= Drain(l).shared && (l.exclusive.Some? ==> Drain(l).exclusive == l.exclusive)
  {
    DrainSharedKeeps(l);
  }

  lemma {:induction false} AcquireSafe(l: Lock, r: Request, refuse: bool)
    requires Safe(l) && !Holds(l, r.id) && !Waits(l, r.id)
    ensures Safe(Acquire(l, r, refuse))
    ensures Population(Acquire(l, r, refuse))
         == Population(l) + if !CanGrant(l, r.mode) && refuse then 0 else 1
  {
    if !CanGrant(l, r.mode) && !refuse {
      var queued := l.(queue := l.queue + [r]);
      assert forall i :: 0 <= i < |l.queue| ==> queued.queue[i] == l.queue[i] && l.queue[i].id != r.id;
      DrainMakesSafe(queued);
    }
  }

  /** The first release lowers holders and waiters together by exactly one. */
  lemma {:induction false} ReleaseSafe(l: Lock, id: nat)
    requires Safe(l)
    ensures Safe(Release(l, id))
    ensures Population(Release(l, id)) == Population(l) - if Holds(l, id) then 1 else 0
  {
    if Holds(l, id) {
      DrainMakesSafe(l.(exclusive := None));
      DrainMakesSafe(l.(shared := l.shared - {id}));
    }
  }

  lemma {:induction false} WithoutOne(queue: seq<Request>, id: nat)
    requires forall i, j :: 0 <= i < j < |queue| ==> queue[i].id != queue[j].id
    ensures forall i :: 0 <= i < |Without(queue, id)| ==>
              Without(queue, id)[i] in queue && Without(queue, id)[i].id != id
    ensures forall i, j :: 0 <= i < j < |Without(queue, id)| ==> Without(queue, id)[i].id != Without(queue, id)[j].id
    ensures |Without(queue, id)|
         == |queue| - if exists i :: 0 <= i < |queue| && queue[i].id == id then 1 else 0
  {
    if queue != [] && queue[0].id != id {
      WithoutOne(queue[1..], id);
      assert forall r :: r in queue[1..] ==> r in queue && r.id != queue[0].id;
      assert (exists i :: 0 <= i < |queue[1..]| && queue[1..][i].id == id)
        <==> (exists i :: 0 <= i < |queue| && queue[i].id == id) by {
        if i :| 0 <= i < |queue| && queue[i].id == id {
          assert queue[1..][i - 1].id == id;
        }
      }
    }
  }

  lemma {:induction false} AbortSafe(l: Lock, id: nat)
    requires Safe(l)
    ensures Safe(Abort(l, id))
    ensures Population(Abort(l, id)) == Population(l) - if Waits(l, id) then 1 else 0
  {
    WithoutOne(l.queue, id);
  }

  // ---------------------------------------------------------------- what a drain grants

  function Holders(l: Lock): set<nat> {
    l.shared + if l.exclusive.Some? then {l.exclusive.value} else {}
  }

  function Ids(queue: seq<Request>): set<nat> {
    set i | 0 <= i < |queue| :: queue[i].id
  }

  lemma {:induction false} IdsSplit(queue: seq<Request>)
    requires queue != []
    ensures Ids(queue) == {queue[0].id} + Ids(queue[1..])
  {
    assert queue == [queue[0]] + queue[1..];
    forall id | id in Ids(queue)
      ensures id in {queue[0].id} + Ids(queue[1..])
    {
      var i :| 0 <= i < |queue| && queue[i].id == id;
      if i > 0 {
        assert queue[1..][i - 1].id == id;
      }
    }
  }

  lemma {:induction false} IdsBounded(queue: seq<Request>)
    ensures |Ids(queue)| <= |queue|
  {
    if queue != [] {
      IdsSplit(queue);
      IdsBounded(queue[1..]);
    }
  }

  lemma {:induction false} DrainSharedTakes(l: Lock) returns (k: nat)
    ensures k <= |l.queue| && DrainShared(l).queue == l.queue[k..]
    ensures Holders(DrainShared(l)) == Holders(l) + Ids(l.queue[..k])
    decreases |l.queue|
  {
    if l.queue == [] || l.queue[0].mode.Exclusive? || l.exclusive.Some? {
      k := 0;
    } else {
      var next := Granted(l.(queue := l.queue[1..]), l.queue[0]);
      var j := DrainSharedTakes(next);
      k := j + 1;
      assert l.queue[..k][1..] == next.queue[..j];
      IdsSplit(l.queue[..k]);
    }
  }

  /** A drain grants exactly a prefix of the queue: first come, first served. */
  lemma {:induction false} DrainTakes(l: Lock) returns (k: nat)
    ensures k <= |l.queue| && Drain(l).queue == l.queue[k..]
    ensures Holders(Drain(l)) == Holders(l) + Ids(l.queue[..k])
  {
    if l.exclusive.Some? || l.queue == [] || (l.queue[0].mode.Exclusive? && l.shared != {}) {
      k := 0;
    } else if l.queue[0].mode.Exclusive? {
      k := 1;
      IdsSplit(l.queue[..1]);
    } else {
      k := DrainSharedTakes(l);
    }
  }

  lemma {:induction false} DrainInvolves(l: Lock, id: nat)
    ensures Involved(Drain(l), id) <==> Involved(l, id)
    ensures Waits(Drain(l), id) ==> Waits(l, id)
    ensures Holds(l, id) ==> Holds(Drain(l), id)
  {
    var k := DrainTakes(l);
    assert Holds(l, id) <==> id in Holders(l);
    assert Holds(Drain(l), id) <==> id in Holders(Drain(l));
    if i :| 0 <= i < |l.queue| && l.queue[i].id == id {
      if i < k {
        assert l.queue[..k][i].id == id;
      } else {
        assert l.queue[k..][i - k].id == id;
      }
    }
    if id in Ids(l.queue[..k]) {
      var i :| 0 <= i < k && l.queue[..k][i].id == id;
      assert l.queue[i].id == id;
    }
    if i :| 0 <= i < |Drain(l).queue| && Drain(l).queue[i].id == id {
      assert l.queue[i + k].id == id;
    }
  }

  // ---------------------------------------------------------------- runs

  /** `Elsewhere` is a request for the lock of another session, which takes the next number. */
  datatype Op = AcquireOp(mode: WaitMode, refuse: bool) | ReleaseOp(id: nat) | AbortOp(id: nat) | Elsewhere

  /** The lock and the number of the next request. */
  datatype World = World(lock: Lock, next: nat)

  function Step(w: World, op: Op): World {
    match op
    case AcquireOp(mode, refuse) => World(Acquire(w.lock, Request(w.next, mode), refuse), w.next + 1)
    case ReleaseOp(id) => w.(lock := Release(w.lock, id))
    case AbortOp(id) => w.(lock := Abort(w.lock, id))
    case Elsewhere => w.(next := w.next + 1)
  }

  function After(start: World, ops: Log<Op>): World {
    if ops.Empty? then start else Step(After(start, ops.past), ops.last)
  }

  ghost predicate Sane(w: World) {
    Safe(w.lock) && Known(w.lock, w.next)
  }

  lemma {:induction false} AcquireInvolves(l: Lock, r: Request, refuse: bool, id: nat)
    ensures Involved(Acquire(l, r, refuse), id) ==> Involved(l, id) || id == r.id
    ensures Waits(Acquire(l, r, refuse), id) ==> Waits(l, id) || id == r.id
  {
    var queued := l.(queue := l.queue + [r]);
    DrainInvolves(queued, id);
    if i :| 0 <= i < |queued.queue| && queued.queue[i].id == id {
      assert i < |l.queue| ==> l.queue[i].id == id;
    }
  }

  /** A request that has to queue is not served by the drain that follows: some other request must end first. */
  lemma {:induction false} QueuedWaits(l: Lock, r: Request)
    requires Safe(l) && !CanGrant(l, r.mode) && !Involved(l, r.id)
    ensures Waits(Acquire(l, r, false), r.id) && !Holds(Acquire(l, r, false), r.id)
  {
    var queued := l.(queue := l.queue + [r]);
    assert queued.queue[|l.queue|] == r;
    assert Waits(queued, r.id);
    AcquireSafe(l, r, false);
    assert Drain(queued).queue != [] && Last(Drain(queued).queue) == r by {
      if l.exclusive.None? && queued.queue[0].mode.Shared? {
        var i := |l.queue|;
        if r.mode.Shared? {
          i :| 0 <= i < |l.queue| && l.queue[i].mode.Exclusive?;
        }
        DrainSharedStops(queued, i);
      }
    }
  }

  /** A drain of shared waiters never passes an exclusive one. */
  lemma {:induction false} DrainSharedStops(l: Lock, i: nat)
    requires i < |l.queue| && l.queue[i].mode.Exclusive?
    ensures DrainShared(l).queue != [] && Last(DrainShared(l).queue) == Last(l.queue)
    decreases |l.queue|
  {
    if l.queue[0].mode.Shared? && l.exclusive.None? {
      DrainSharedStops(Granted(l.(queue := l.queue[1..]), l.queue[0]), i - 1);
    }
  }

  lemma {:induction false} ReleaseInvolves(l: Lock, released: nat, id: nat)
    ensures Involved(Release(l, released), id) ==> Involved(l, id)
    ensures Waits(Release(l, released), id) ==> Waits(l, id)
  {
    DrainInvolves(l.(exclusive := None), id);
    DrainInvolves(l.(shared := l.shared - {released}), id);
    assert Waits(l.(exclusive := None), id) <==> Waits(l, id);
    assert Waits(l.(shared := l.shared - {released}), id) <==> Waits(l, id);
  }

  lemma {:induction false} AbortInvolves(l: Lock, aborted: nat, id: nat)
    requires Separate(l)
    ensures Waits(Abort(l, aborted), id) ==> Waits(l, id) && id != aborted
    ensures Involved(Abort(l, aborted), id) ==> Involved(l, id)
  {
    WithoutOne(l.queue, aborted);
    if i :| 0 <= i < |Abort(l, aborted).queue| && Abort(l, aborted).queue[i].id == id {
      assert Without(l.queue, aborted)[i] in l.queue;
    }
  }

  lemma {:induction false} StepSane(w: World, op: Op)
    requires Sane(w)
    ensures Sane(Step(w, op))
    ensures forall id: nat :: id < w.next && Waits(Step(w, op).lock, id) ==> Waits(w.lock, id)
  {
    assert !Involved(w.lock, w.next);
    match op
    case AcquireOp(mode, refuse) =>
      AcquireSafe(w.lock, Request(w.next, mode), refuse);
      forall id: nat { AcquireInvolves(w.lock, Request(w.next, mode), refuse, id); }
    case ReleaseOp(released) =>
      ReleaseSafe(w.lock, released);
      forall id: nat { ReleaseInvolves(w.lock, released, id); }
    case AbortOp(aborted) =>
      AbortSafe(w.lock, aborted);
      forall id: nat { AbortInvolves(w.lock, aborted, id); }
    case Elsewhere =>
  }

  /**
   Mutual exclusion and no stranded waiter after every sequence of acquires, releases (also repeated or
   foreign ones) and aborts.
   */
  lemma {:induction false} EveryRunSafe(ops: Log<Op>)
    ensures Sane(After(World(FREE, 0), ops))
  {
    if ops.Then? {
      EveryRunSafe(ops.past);
      StepSane(After(World(FREE, 0), ops.past), ops.last);
    }
  }

  // ---------------------------------------------------------------- ordering

  /** A request granted at once overtakes no exclusive waiter, and an exclusive one overtakes nobody. */
  lemma {:induction false} ImmediateGrantOvertakes(l: Lock, r: Request)
    requires Safe(l) && CanGrant(l, r.mode)
    ensures NoExclusive(l.queue) && (r.mode.Exclusive? ==> l.queue == [])
  {
  }

  /** Somebody waits whom a new request would pass. */
  predicate Passable(l: Lock) {
    l.queue != [] && (CanGrant(l, Shared) || CanGrant(l, Exclusive))
  }

  /** Exactly who overtakes: a shared request, when no exclusive one holds or waits and somebody waits. */
  lemma {:induction false} OvertakesIff(l: Lock, mode: WaitMode)
    requires Safe(l)
    ensures CanGrant(l, mode) && l.queue != [] <==>
              mode.Shared? && l.exclusive.None? && l.queue != [] && NoExclusive(l.queue)
  {
  }

  /** Whoever could not be granted is held up by an exclusive holder or by the head of the queue. */
  predicate HeadBlocks(l: Lock) {
    l.exclusive.None? && l.queue != [] ==> l.queue[0].mode.Exclusive?
  }

  lemma {:induction false} DrainSharedBlocks(l: Lock)
    ensures HeadBlocks(DrainShared(l))
    decreases |l.queue|
  {
    if l.queue != [] && l.queue[0].mode.Shared? && l.exclusive.None? {
      DrainSharedBlocks(Granted(l.(queue := l.queue[1..]), l.queue[0]));
    }
  }

  lemma {:induction false} DrainBlocks(l: Lock)
    ensures HeadBlocks(Drain(l))
    ensures Safe(Drain(l)) ==> !Passable(Drain(l))
  {
    DrainSharedBlocks(l);
  }

  /** An abort that, with no exclusive holder, takes away the last exclusive waiter and leaves others waiting. */
  predicate Opens(l: Lock, op: Op) {
    && op.AbortOp? && l.exclusive.None? && !NoExclusive(l.queue)
    && Without(l.queue, op.id) != [] && NoExclusive(Without(l.queue, op.id))
  }

  /** A step makes it possible to pass somebody exactly if it is such an abort. */
  lemma {:induction false} PassableIff(w: World, op: Op)
    requires Sane(w) && !Passable(w.lock)
    ensures Passable(Step(w, op).lock) <==> Opens(w.lock, op)
  {
    var l := w.lock;
    StepSane(w, op);
    match op
    case AcquireOp(mode, refuse) =>
      DrainBlocks(l.(queue := l.queue + [Request(w.next, mode)]));
    case ReleaseOp(id) =>
      DrainBlocks(l.(exclusive := None));
      DrainBlocks(l.(shared := l.shared - {id}));
    case AbortOp(id) =>
      OvertakesIff(l, Shared);
      OvertakesIff(l, Exclusive);
      OvertakesIff(Abort(l, id), Shared);
      OvertakesIff(Abort(l, id), Exclusive);
      if l.queue == [] {
        assert Without(l.queue, id) == [];
      }
    case Elsewhere =>
  }

  predicate NeverOpens(ops: Log<Op>) {
    ops.Then? ==> NeverOpens(ops.past) && !Opens(After(World(FREE, 0), ops.past).lock, ops.last)
  }

  predicate NeverPassable(ops: Log<Op>) {
    !Passable(After(World(FREE, 0), ops).lock) && (ops.Then? ==> NeverPassable(ops.past))
  }

  /** First come, first served: nobody can be passed at any point of a run exactly if no abort of it opens. */
  lemma {:induction false} FifoIff(ops: Log<Op>)
    ensures NeverPassable(ops) <==> NeverOpens(ops)
  {
    if ops.Then? {
      FifoIff(ops.past);
      EveryRunSafe(ops.past);
      if NeverPassable(ops.past) {
        PassableIff(After(World(FREE, 0), ops.past), ops.last);
      }
    }
  }

  predicate NoAborts(ops: Log<Op>) {
    ops.Then? ==> !ops.last.AbortOp? && NoAborts(ops.past)
  }

  /** In particular nobody is passed in a run without aborts. */
  lemma {:induction false} NoAbortsFifo(ops: Log<Op>)
    requires NoAborts(ops)
    ensures NeverOpens(ops) && NeverPassable(ops)
  {
    if ops.Then? {
      NoAbortsFifo(ops.past);
    }
    FifoIff(ops);
  }

  /** A shared request can overtake shared waiters: after an abort nothing drains the queue. */
  lemma {:induction false} SharedMayOvertakeShared()
    ensures var start := World(FREE, 0);
            var ops := Then(Then(Then(Then(Empty, AcquireOp(Shared, false)), AcquireOp(Exclusive, false)),
                                 AcquireOp(Shared, false)), AbortOp(1));
            var l := After(start, ops).lock;
            Waits(l, 2) && CanGrant(l, Shared)
  {
    var s := Request(2, Shared);
    var a := Acquire(FREE, Request(0, Shared), false);
    assert a == Lock({0}, None, []);
    var b := Acquire(a, Request(1, Exclusive), false);
    assert b == Lock({0}, None, [Request(1, Exclusive)]);
    var c := Acquire(b, s, false);
    assert !CanGrant(b, Shared) by { assert b.queue[0].mode.Exclusive?; }
    assert c == Lock({0}, None, [Request(1, Exclusive), s]);
    var d := Abort(c, 1);
    assert d.queue == [s];
    assert d.queue[0].id == 2;
  }

  function Grants(before: Lock, after: Lock): nat {
    |Holders(after) - Holders(before)|
  }

  /** All grants made in a run. */
  function TotalGrants(start: World, ops: Log<Op>): nat {
    if ops.Empty? then 0
    else TotalGrants(start, ops.past) + Grants(After(start, ops.past).lock, After(start, ops).lock)
  }

  lemma {:induction false} DrainOvertakes(l: Lock, p: nat, id: nat) returns (q: nat)
    requires p < |l.queue| && l.queue[p].id == id && Separate(l) && Waits(Drain(l), id)
    ensures q <= p && q < |Drain(l).queue| && Drain(l).queue[q] == l.queue[p]
    ensures |Holders(Drain(l)) - Holders(l)| + q <= p
  {
    var k := DrainTakes(l);
    IdsBounded(l.queue[..k]);
    var i :| 0 <= i < |Drain(l).queue| && Drain(l).queue[i].id == id;
    assert l.queue[i + k].id == id;
    assert i + k == p;
    q := i;
    SubsetSize(Holders(Drain(l)) - Holders(l), Ids(l.queue[..k]));
  }

  lemma {:induction false} SubsetSize<T>(a: set<T>, b: set<T>)
    requires a <= b
    ensures |a| <= |b|
  {
    if a != {} {
      var x :| x in a;
      SubsetSize(a - {x}, b - {x});
    }
  }

  lemma {:induction false} WithoutPosition(queue: seq<Request>, id: nat, p: nat) returns (q: nat)
    requires p < |queue| && queue[p].id != id
    ensures q <= p && q < |Without(queue, id)| && Without(queue, id)[q] == queue[p]
  {
    if queue[0].id == id {
      q := p - 1;
    } else if p == 0 {
      q := 0;
    } else {
      var r := WithoutPosition(queue[1..], id, p - 1);
      q := r + 1;
    }
  }

  /** One step: what is granted past an exclusive waiter comes from in front of it. */
  lemma {:induction false} StepOvertakes(w: World, op: Op, p: nat) returns (q: nat)
    requires Sane(w) && p < |w.lock.queue| && w.lock.queue[p].mode.Exclusive?
    requires Waits(Step(w, op).lock, w.lock.queue[p].id)
    ensures q < |Step(w, op).lock.queue| && Step(w, op).lock.queue[q] == w.lock.queue[p]
    ensures Grants(w.lock, Step(w, op).lock) + q <= p
  {
    var l, id := w.lock, w.lock.queue[p].id;
    match op
    case AcquireOp(mode, refuse) =>
      var r := Request(w.next, mode);
      assert !CanGrant(l, mode);
      var queued := l.(queue := l.queue + [r]);
      if refuse {
        q := p;
      } else {
        assert !Involved(l, w.next);
        assert forall i :: 0 <= i < |l.queue| ==> queued.queue[i] == l.queue[i] && l.queue[i].id != w.next;
        q := DrainOvertakes(queued, p, id);
      }
    case ReleaseOp(released) =>
      if !Holds(l, released) {
        q := p;
      } else {
        var freed := if l.exclusive == Some(released) then l.(exclusive := None)
                     else l.(shared := l.shared - {released});
        q := DrainOvertakes(freed, p, id);
        SubsetSize(Holders(Drain(freed)) - Holders(l), Holders(Drain(freed)) - Holders(freed));
      }
    case AbortOp(aborted) =>
      AbortInvolves(l, aborted, id);
      q := WithoutPosition(l.queue, aborted, p);
      assert Holders(Abort(l, aborted)) - Holders(l) == {};
    case Elsewhere =>
      q := p;
      assert Holders(l) - Holders(l) == {};
  }

  /**
   Bounded overtaking: as long as an exclusive waiter still waits, the grants made since it stood at
   position `p` number at most the waiters that were ahead of it.
   */
  lemma {:induction false} BoundedOvertaking(start: World, ops: Log<Op>, p: nat) returns (q: nat)
    requires Sane(start) && p < |start.lock.queue| && start.lock.queue[p].mode.Exclusive?
    requires Waits(After(start, ops).lock, start.lock.queue[p].id)
    ensures Sane(After(start, ops)) && After(start, ops).next >= start.next
    ensures q < |After(start, ops).lock.queue| && After(start, ops).lock.queue[q] == start.lock.queue[p]
    ensures TotalGrants(start, ops) + q <= p
  {
    if ops.Empty? {
      q := p;
    } else {
      RunSane(start, ops.past);
      var before := After(start, ops.past);
      assert Involved(start.lock, start.lock.queue[p].id);
      StepSane(before, ops.last);
      var r := BoundedOvertaking(start, ops.past, p);
      q := StepOvertakes(before, ops.last, r);
    }
  }

  lemma {:induction false} RunSane(start: World, ops: Log<Op>)
    requires Sane(start)
    ensures Sane(After(start, ops)) && After(start, ops).next >= start.next
  {
    if ops.Then? {
      RunSane(start, ops.past);
      StepSane(After(start, ops.past), ops.last);
    }
  }

  /** When the last holder releases, the head of the queue is served. */
  lemma {:induction false} HeadServed(l: Lock, id: nat)
    requires Safe(l) && Holders(l) == {id} && l.queue != []
    ensures Holds(Release(l, id), l.queue[0].id)
  {
    var freed := if l.exclusive == Some(id) then l.(exclusive := None) else l.(shared := l.shared - {id});
    assert freed.exclusive.None? && freed.shared == {} by {
      assert forall x :: x in l.shared ==> x in Holders(l);
      assert l.exclusive.Some? ==> l.exclusive.value in Holders(l);
    }
    var next := Granted(freed.(queue := l.queue[1..]), l.queue[0]);
    if l.queue[0].mode.Shared? {
      DrainSharedKeeps(freed);
      assert DrainShared(freed) == DrainShared(next);
      DrainSharedGrows(next);
    }
  }

  lemma {:induction false} DrainSharedGrows(l: Lock)
    ensures l.shared <= DrainShared(l).shared
    decreases |l.queue|
  {
    if !(l.queue == [] || l.queue[0].mode.Exclusive? || l.exclusive.Some?) {
      DrainSharedGrows(Granted(l.(queue := l.queue[1..]), l.queue[0]));
    }
  }
}
