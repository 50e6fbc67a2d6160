/**
 Evidence planes as caches over append-only session logs (plane-substrate.ts): session digests, the
 refresh throttle and `reconcile`, with several plane instances sharing one persisted state. `order` stands
 for `localeCompare`, and `build` for what a plane derives from the logs, time-dependent fields aside.
 */
module PlaneCache {
  import opened Prelude
  import opened Sorting

  datatype Event = Event(timestamp: int, content: string)

  /** The sessions as listed, and the log of each; a session without a log has an empty one. */
  datatype Store = Store(ids: seq<string>, logs: map<string, seq<Event>>)

  datatype Digest = Digest(session: string, eventCount: nat, lastEventAt: int)

  /** What a rebuild reads of one session. */
  datatype Input = Input(session: string, events: seq<Event>)

  datatype State<C> = State(updatedAt: int, digests: seq<Digest>, content: C)

  function Events(store: Store, session: string): seq<Event> {
    if session in store.logs then store.logs[session] else []
  }

  /** Every session that has events is listed once. */
  ghost predicate Listed(store: Store) {
    && (forall session :: Events(store, session) != [] ==> session in store.ids)
    && (forall i, j :: 0 <= i < j < |store.ids| ==> store.ids[i] != store.ids[j])
  }

  /** Logs only grow at their ends. */
  ghost predicate Extends(before: Store, after: Store) {
    forall session: string :: Events(before, session) <= Events(after, session)
  }

  function DigestOf(store: Store, session: string): Digest {
    var events := Events(store, session);
    Digest(session, |events|, if events == [] then 0 else Last(events).timestamp)
  }

  function DigestsFrom(store: Store, ids: seq<string>): seq<Digest> {
    if ids == [] then []
    else
      (if DigestOf(store, ids[0]).eventCount > 0 then [DigestOf(store, ids[0])] else []) + DigestsFrom(store, ids[1..])
  }

  function BySession(order: (string, string) -> bool): (Digest, Digest) -> bool {
    (a: Digest, b: Digest) => order(a.session, b.session)
  }

  function Collect(store: Store, order: (string, string) -> bool): seq<Digest> {
    Sort(DigestsFrom(store, store.ids), BySession(order))
  }

  function Inputs(digests: seq<Digest>, store: Store): seq<Input> {
    if digests == [] then []
    else [Input(digests[0].session, Events(store, digests[0].session))] + Inputs(digests[1..], store)
  }

  function Rebuild<C>(store: Store, order: (string, string) -> bool, build: seq<Input> -> C, now: int): State<C> {
    var digests := Collect(store, order);
    State(now, digests, build(Inputs(digests, store)))
  }

  // ---------------------------------------------------------------- digests determine logs

  lemma {:induction false} DigestsFromMembers(store: Store, ids: seq<string>, d: Digest)
    ensures d in DigestsFrom(store, ids) <==> d.session in ids && d == DigestOf(store, d.session) && d.eventCount > 0
  {
    if ids != [] {
      DigestsFromMembers(store, ids[1..], d);
      assert ids == [ids[0]] + ids[1..];
    }
  }

  /** The digests are those of the sessions that have events. */
  lemma {:induction false} CollectMembers(store: Store, order: (string, string) -> bool, d: Digest)
    requires Listed(store)
    ensures d in Collect(store, order) <==> d == DigestOf(store, d.session) && d.eventCount > 0
  {
    var digests := DigestsFrom(store, store.ids);
    SortPermutes(digests, BySession(order));
    SameMembers(Collect(store, order), digests);
    DigestsFromMembers(store, store.ids, d);
  }

  /** Over append-only logs, equal digests force equal logs. */
  lemma {:induction false} SameDigestsSameLogs(before: Store, after: Store, order: (string, string) -> bool,
                                               session: string)
    requires Listed(before) && Listed(after) && Extends(before, after)
    requires Collect(before, order) == Collect(after, order)
    ensures Events(before, session) == Events(after, session)
  {
    if Events(after, session) != [] {
      CollectMembers(after, order, DigestOf(after, session));
      CollectMembers(before, order, DigestOf(after, session));
    }
  }

  lemma {:induction false} DigestsFromDistinct(store: Store, ids: seq<string>)
    requires forall i, j :: 0 <= i < j < |ids| ==> ids[i] != ids[j]
    ensures forall d :: multiset(DigestsFrom(store, ids))[d] <= 1
  {
    if ids != [] {
      DigestsFromDistinct(store, ids[1..]);
      forall d
        ensures multiset(DigestsFrom(store, ids))[d] <= 1
      {
        DigestsFromMembers(store, ids[1..], d);
        if d.session == ids[0] {
          assert d !in DigestsFrom(store, ids[1..]);
        }
      }
    }
  }

  lemma {:induction false} SessionOrder(order: (string, string) -> bool)
    requires TotalPreorder(order)
    ensures TotalPreorder(BySession(order))
  {
    var le := BySession(order);
    forall a, b
      ensures le(a, b) || le(b, a)
    {
      assert order(a.session, b.session) || order(b.session, a.session);
    }
    forall a, b, c | le(a, b) && le(b, c)
      ensures le(a, c)
    {
      assert order(a.session, b.session) && order(b.session, c.session);
    }
  }

  lemma {:induction false} SameCount(a: Store, b: Store, d: Digest)
    requires Listed(a) && Listed(b) && Events(a, d.session) == Events(b, d.session)
    ensures multiset(DigestsFrom(a, a.ids))[d] == multiset(DigestsFrom(b, b.ids))[d]
  {
    DigestsFromDistinct(a, a.ids);
    DigestsFromDistinct(b, b.ids);
    DigestsFromMembers(a, a.ids, d);
    DigestsFromMembers(b, b.ids, d);
    assert d in DigestsFrom(a, a.ids) <==> d in DigestsFrom(b, b.ids);
  }

  lemma {:induction false} SameBags(a: Store, b: Store)
    requires Listed(a) && Listed(b) && forall session: string :: Events(a, session) == Events(b, session)
    ensures multiset(DigestsFrom(a, a.ids)) == multiset(DigestsFrom(b, b.ids))
  {
    forall d
      ensures multiset(DigestsFrom(a, a.ids))[d] == multiset(DigestsFrom(b, b.ids))[d]
    {
      SameCount(a, b, d);
    }
  }

  /** Equal logs give equal digests, in whatever order the sessions are listed. */
  lemma {:induction false} SameLogsSameDigests(a: Store, b: Store, order: (string, string) -> bool)
    requires Listed(a) && Listed(b) && TotalPreorder(order)
    requires forall x, y :: order(x, y) && order(y, x) ==> x == y
    requires forall session: string :: Events(a, session) == Events(b, session)
    ensures Collect(a, order) == Collect(b, order)
  {
    var x, y := DigestsFrom(a, a.ids), DigestsFrom(b, b.ids);
    var le := BySession(order);
    SessionOrder(order);
    SameBags(a, b);
    SortPermutes(x, le);
    SortPermutes(y, le);
    SortSorts(x, le);
    SortSorts(y, le);
    forall p, q | p in Sort(x, le) && q in Sort(x, le) && le(p, q) && le(q, p)
      ensures p == q
    {
      CollectMembers(a, order, p);
      CollectMembers(a, order, q);
    }
    SortedUnique(Sort(x, le), Sort(y, le), le);
  }

  /** Append-only is needed: rewriting an event in place leaves the digests as they are. */
  lemma {:induction false} RewritingGoesUnnoticed(order: (string, string) -> bool)
    ensures var a := Store(["s"], map["s" := [Event(0, "a"), Event(1, "z")]]);
            var b := Store(["s"], map["s" := [Event(0, "b"), Event(1, "z")]]);
            && Listed(a) && Listed(b) && Collect(a, order) == Collect(b, order)
            && Inputs(Collect(a, order), a) != Inputs(Collect(b, order), b)
  {
    var a := Store(["s"], map["s" := [Event(0, "a"), Event(1, "z")]]);
    var b := Store(["s"], map["s" := [Event(0, "b"), Event(1, "z")]]);
    assert ["s"][1..] == [];
    assert DigestsFrom(a, ["s"]) == [Digest("s", 2, 1)] == DigestsFrom(b, ["s"]);
    assert [Digest("s", 2, 1)][1..] == [];
    assert Collect(a, order) == [Digest("s", 2, 1)];
    assert Inputs([Digest("s", 2, 1)], a)[0].events[0].content != Inputs([Digest("s", 2, 1)], b)[0].events[0].content;
  }

  // ---------------------------------------------------------------- snapshots

  /** A state was built from the logs as they stood at some earlier time. */
  ghost predicate Snapshot<C(!new)>(s: State<C>, store: Store, order: (string, string) -> bool,
                                    build: seq<Input> -> C) {
    exists past, then_ :: Listed(past) && Extends(past, store) && s == Rebuild(past, order, build, then_)
  }

  /** The content is what a rebuild from the current logs would give. */
  ghost predicate Current<C>(s: State<C>, store: Store, order: (string, string) -> bool, build: seq<Input> -> C) {
    s == Rebuild(store, order, build, s.updatedAt)
  }

  lemma {:induction false} SameInputs(digests: seq<Digest>, a: Store, b: Store)
    requires forall session: string :: Events(a, session) == Events(b, session)
    ensures Inputs(digests, a) == Inputs(digests, b)
  {
    if digests != [] {
      SameInputs(digests[1..], a, b);
    }
  }

  /** A snapshot whose digests match the current logs is current. */
  lemma {:induction false} MatchingIsCurrent<C(!new)>(s: State<C>, store: Store, order: (string, string) -> bool,
                                                      build: seq<Input> -> C)
    requires Listed(store) && Snapshot(s, store, order, build) && s.digests == Collect(store, order)
    ensures Current(s, store, order, build)
  {
    var past, then_ :| Listed(past) && Extends(past, store) && s == Rebuild(past, order, build, then_);
    forall session: string
      ensures Events(past, session) == Events(store, session)
    {
      SameDigestsSameLogs(past, store, order, session);
    }
    SameInputs(s.digests, past, store);
  }

  lemma {:induction false} SnapshotAges<C(!new)>(s: State<C>, store: Store, later: Store,
                                                 order: (string, string) -> bool, build: seq<Input> -> C)
    requires Snapshot(s, store, order, build) && Extends(store, later)
    ensures Snapshot(s, later, order, build)
  {
    var past, then_ :| Listed(past) && Extends(past, store) && s == Rebuild(past, order, build, then_);
    forall session: string
      ensures Events(past, session) <= Events(later, session)
    {
      assert Events(past, session) <= Events(store, session) <= Events(later, session);
    }
  }

  lemma {:induction false} RebuiltIsSnapshot<C(!new)>(store: Store, order: (string, string) -> bool,
                                                      build: seq<Input> -> C, now: int)
    requires Listed(store)
    ensures Snapshot(Rebuild(store, order, build, now), store, order, build)
  {
    assert Extends(store, store);
  }

  // ---------------------------------------------------------------- reconcile

  method SamePlaneSessionDigests(left: seq<Digest>, right: seq<Digest>) returns (same: bool)
    ensures same <==> left == right
  {
    if |left| != |right| {
      return false;
    }
    var index := 0;
    while index < |left|
      invariant index <= |left| && left[..index] == right[..index]
    {
      var a, b := left[index], right[index];
      if a.session != b.session || a.eventCount != b.eventCount || a.lastEventAt != b.lastEventAt {
        return false;
      }
      index := index + 1;
    }
    same := true;
  }

  predicate ShouldThrottle(updatedAt: int, dirty: bool, digestsChanged: bool, interval: Option<int>, now: int) {
    dirty && !digestsChanged && interval.Some? && interval.value > 0 && now - updatedAt < interval.value
  }

  /** One plane instance: its cached state and whether an event has marked it dirty. */
  datatype Plane<C> = Plane(state: Option<State<C>>, dirty: bool)

  /** Logs, the persisted state all instances share, and the instances. */
  datatype World<C> = World(store: Store, persisted: Option<State<C>>, planes: map<nat, Plane<C>>)

  /** The state `reconcile` starts from: the persisted one if it can be read. */
  function Candidate<C>(persisted: Option<State<C>>, plane: Plane<C>): Option<State<C>> {
    if persisted.Some? then persisted else plane.state
  }

  /** `reconcile` rebuilds unless the digests match and the plane is clean or throttled. */
  predicate Rebuilds<C>(persisted: Option<State<C>>, plane: Plane<C>, digests: seq<Digest>, interval: Option<int>,
                        now: int) {
    var current := Candidate(persisted, plane);
    || current.None?
    || current.value.digests != digests
    || (plane.dirty && !ShouldThrottle(current.value.updatedAt, true, false, interval, now))
  }

  class PlaneInstance<C(!new)> {
    const order: (string, string) -> bool
    const build: seq<Input> -> C
    const minRefreshIntervalMs: Option<int>
    const disk: Disk<C>
    var plane: Plane<C>

    ghost predicate Valid(store: Store)
      reads this, disk
    {
      && Listed(store)
      && (disk.persisted.Some? ==> Snapshot(disk.persisted.value, store, order, build))
      && (plane.state.Some? ==> Snapshot(plane.state.value, store, order, build))
    }

    constructor (order: (string, string) -> bool, build: seq<Input> -> C, interval: Option<int>, disk: Disk<C>)
      ensures plane == Plane(None, true) && this.disk == disk && this.order == order && this.build == build
      ensures minRefreshIntervalMs == interval
    {
      this.order, this.build, this.minRefreshIntervalMs, this.disk := order, build, interval, disk;
      plane := Plane(None, true);
    }

    /** Whichever branch is taken, the state returned is current. */
    method Reconcile(store: Store, now: int) returns (result: State<C>)
      requires Valid(store)
      modifies this`plane, disk
      ensures Valid(store) && plane.state == Some(result) && Current(result, store, order, build)
      ensures var rebuilds :=
                Rebuilds(old(disk.persisted), old(plane), Collect(store, order), minRefreshIntervalMs, now);
              && (rebuilds ==>
                    result == Rebuild(store, order, build, now) && !plane.dirty && disk.persisted == Some(result))
              && (!rebuilds ==> Some(result) == Candidate(old(disk.persisted), old(plane))
                                && plane.dirty == old(plane.dirty) && disk.persisted == old(disk.persisted))
    {
      var digests := Collect(store, order);
      var current := if disk.persisted.Some? then disk.persisted else plane.state;
      var changed := true;
      if current.Some? {
        var same := SamePlaneSessionDigests(current.value.digests, digests);
        changed := !same;
        if same {
          MatchingIsCurrent(current.value, store, order, build);
        }
      }
      if !changed && !plane.dirty {
        result := current.value;
        plane := plane.(state := Some(result));
        return;
      }
      if current.Some? && ShouldThrottle(current.value.updatedAt, plane.dirty, changed, minRefreshIntervalMs, now) {
        result := current.value;
        plane := plane.(state := Some(result));
        return;
      }
      result := State(now, digests, build(Inputs(digests, store)));
      RebuiltIsSnapshot(store, order, build, now);
      disk.persisted := Some(result);
      plane := Plane(Some(result), false);
    }
  }

  class Disk<C> {
    var persisted: Option<State<C>>
  }

  // ---------------------------------------------------------------- runs of several instances

  datatype Step<C> =
    | Append(store: Store)                                   // the logs grow
    | Mark(id: nat)                                          // an event marks an instance dirty
    | Lose                                                   // the persisted state cannot be read
    | Reconcile(id: nat, interval: Option<int>, now: int)

  function Answer<C>(w: World<C>, id: nat, interval: Option<int>, now: int, order: (string, string) -> bool,
                     build: seq<Input> -> C): State<C>
    requires id in w.planes
  {
    if Rebuilds(w.persisted, w.planes[id], Collect(w.store, order), interval, now)
    then Rebuild(w.store, order, build, now)
    else Candidate(w.persisted, w.planes[id]).value
  }

  ghost predicate Enabled<C>(w: World<C>, step: Step<C>) {
    match step
    case Append(store) => Listed(store) && Extends(w.store, store)
    case Mark(id) => id in w.planes
    case Lose => true
    case Reconcile(id, _, _) => id in w.planes
  }

  ghost function Next<C>(w: World<C>, step: Step<C>, order: (string, string) -> bool, build: seq<Input> -> C): World<C>
    requires Enabled(w, step)
  {
    match step
    case Append(store) => w.(store := store)
    case Mark(id) => w.(planes := w.planes[id := w.planes[id].(dirty := true)])
    case Lose => w.(persisted := None)
    case Reconcile(id, interval, now) =>
      var answer := Answer(w, id, interval, now, order, build);
      if Rebuilds(w.persisted, w.planes[id], Collect(w.store, order), interval, now) then
        w.(persisted := Some(answer), planes := w.planes[id := Plane(Some(answer), false)])
      else w.(planes := w.planes[id := w.planes[id].(state := Some(answer))])
  }

  /** Every state in memory or on disk is a snapshot. */
  ghost predicate Sound<C(!new)>(w: World<C>, order: (string, string) -> bool, build: seq<Input> -> C) {
    && Listed(w.store)
    && (w.persisted.Some? ==> Snapshot(w.persisted.value, w.store, order, build))
    && (forall id :: id in w.planes && w.planes[id].state.Some? ==>
          Snapshot(w.planes[id].state.value, w.store, order, build))
  }

  lemma {:induction false} AnswerCurrent<C(!new)>(w: World<C>, id: nat, interval: Option<int>, now: int,
                                                  order: (string, string) -> bool, build: seq<Input> -> C)
    requires Sound(w, order, build) && id in w.planes
    ensures Current(Answer(w, id, interval, now, order, build), w.store, order, build)
    ensures Snapshot(Answer(w, id, interval, now, order, build), w.store, order, build)
  {
    if Rebuilds(w.persisted, w.planes[id], Collect(w.store, order), interval, now) {
      RebuiltIsSnapshot(w.store, order, build, now);
    } else {
      MatchingIsCurrent(Candidate(w.persisted, w.planes[id]).value, w.store, order, build);
    }
  }

  lemma {:induction false} AppendSound<C(!new)>(w: World<C>, store: Store, order: (string, string) -> bool,
                                                build: seq<Input> -> C)
    requires Sound(w, order, build) && Listed(store) && Extends(w.store, store)
    ensures Sound(w.(store := store), order, build)
  {
    if w.persisted.Some? {
      SnapshotAges(w.persisted.value, w.store, store, order, build);
    }
    forall id | id in w.planes && w.planes[id].state.Some?
      ensures Snapshot(w.planes[id].state.value, store, order, build)
    {
      SnapshotAges(w.planes[id].state.value, w.store, store, order, build);
    }
  }

  lemma {:induction false} StepSound<C(!new)>(w: World<C>, step: Step<C>, order: (string, string) -> bool,
                                              build: seq<Input> -> C)
    requires Sound(w, order, build) && Enabled(w, step)
    ensures Sound(Next(w, step, order, build), order, build)
  {
    match step
    case Append(store) => AppendSound(w, store, order, build);
    case Mark(id) =>
    case Lose =>
    case Reconcile(id, interval, now) => AnswerCurrent(w, id, interval, now, order, build);
  }

  /** `end` is reached from `start` by these steps. */
  ghost predicate Reaches<C(!new)>(start: World<C>, steps: Log<Step<C>>, end: World<C>,
                                   order: (string, string) -> bool, build: seq<Input> -> C) {
    if steps.Empty? then end == start
    else exists w :: Reaches(start, steps.past, w, order, build) && Enabled(w, steps.last)
                     && end == Next(w, steps.last, order, build)
  }

  lemma {:induction false} RunSound<C(!new)>(start: World<C>, steps: Log<Step<C>>, end: World<C>,
                                             order: (string, string) -> bool, build: seq<Input> -> C)
    requires Sound(start, order, build) && Reaches(start, steps, end, order, build)
    ensures Sound(end, order, build)
  {
    if steps.Then? {
      var w :| Reaches(start, steps.past, w, order, build) && Enabled(w, steps.last)
               && end == Next(w, steps.last, order, build);
      RunSound(start, steps.past, w, order, build);
      StepSound(w, steps.last, order, build);
    }
  }

  /**
   Coherence over every run: from no state at all, after any growth of the logs, any events, losses of the
   persisted state and reconciles by any instance, a reconcile returns the content of a rebuild.
   */
  lemma {:induction false} EveryReconcileCurrent<C(!new)>(
    store: Store, ids: set<nat>, steps: Log<Step<C>>, end: World<C>, id: nat, interval: Option<int>, now: int,
    order: (string, string) -> bool, build: seq<Input> -> C)
    requires Listed(store) && id in ids
    requires Reaches(World(store, None, map i | i in ids :: Plane(None, true)), steps, end, order, build)
    requires id in end.planes
    ensures Current(Answer(end, id, interval, now, order, build), end.store, order, build)
  {
    RunSound(World(store, None, map i | i in ids :: Plane(None, true)), steps, end, order, build);
    AnswerCurrent(end, id, interval, now, order, build);
  }
}
