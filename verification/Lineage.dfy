/**
 The lineage builder of optimization.ts: records of all sessions are grouped into branches by goal and root
 session, and each branch's records are sorted. The result does not depend on the order of enumeration.
 */
module Lineage {
  import opened Prelude
  import opened Sorting
  import opened Ancestry
  import opened ProgressKeys

  const GOAL_LOOP_PREFIX := "goal-loop:"

  datatype Body =
    | Metric(source: string, iterationKey: Option<string>)
    | Guard(source: string, iterationKey: Option<string>)
    | Completion(skill: string, loopKey: string, runKey: Option<string>, iterationKey: Option<string>)
    | Schedule(goalRef: string, runIndex: Option<real>, fired: bool, mode: Mode, child: Option<string>, parent: string)

  datatype Record = Record(session: string, eventId: string, timestamp: int, body: Body)

  /** A branch while it is filled, and afterwards with its lists sorted. */
  datatype Group = Group(goalRef: string, root: string,
                         metrics: seq<Record>, guards: seq<Record>, schedules: seq<Record>, completions: seq<Record>,
                         sessions: set<string>, skills: set<string>)

  // ---------------------------------------------------------------- record order

  /** Where a record stands in its run; schedules have their own order. */
  function Progress(r: Record): Option<Key> {
    match r.body
    case Metric(_, iteration) => Parse(None, iteration)
    case Guard(_, iteration) => Parse(None, iteration)
    case Completion(_, _, run, iteration) => Parse(run, iteration)
    case Schedule(_, _, _, _, _, _) => None
  }

  function RunIndex(r: Record): Option<real> {
    if r.body.Schedule? then r.body.runIndex else None
  }

  function CompareIdentity(l: Record, r: Record, locale: (string, string) -> int): int {
    if l.timestamp != r.timestamp then l.timestamp - r.timestamp else locale(l.eventId, r.eventId)
  }

  /** `compareMetricRecords`, `compareGuardRecords` and `compareGoalLoopCompletions`. */
  function CompareRecords(l: Record, r: Record, locale: (string, string) -> int): int {
    var c := CompareProgress(Progress(l), Progress(r), locale);
    if c != 0 then c else CompareIdentity(l, r, locale)
  }

  /** `compareScheduleIntentRecords`: records without a run index come last. */
  function CompareSchedules(l: Record, r: Record, locale: (string, string) -> int): int {
    var x, y := RunIndex(l), RunIndex(r);
    if x.None? && y.Some? then 1
    else if x.Some? && y.None? then -1
    else if x.Some? && x.value != y.value then (if x.value < y.value then -1 else 1)
    else CompareIdentity(l, r, locale)
  }

  function ByRecord(locale: (string, string) -> int): (Record, Record) -> int {
    (a, b) => CompareRecords(a, b, locale)
  }

  function BySchedule(locale: (string, string) -> int): (Record, Record) -> int {
    (a, b) => CompareSchedules(a, b, locale)
  }

  function AtMost(c: (Record, Record) -> int): (Record, Record) -> bool {
    (a, b) => c(a, b) <= 0
  }

  lemma {:induction false} IdentityChain(a: Record, b: Record, d: Record, locale: (string, string) -> int)
    requires Comparator(locale)
    ensures CompareIdentity(a, b, locale) < 0 <==> CompareIdentity(b, a, locale) > 0
    ensures CompareIdentity(a, b, locale) <= 0 && CompareIdentity(b, d, locale) <= 0 ==>
              CompareIdentity(a, d, locale) <= 0
  {
    Chain(locale, a.eventId, b.eventId, d.eventId);
    Chain(locale, b.eventId, a.eventId, d.eventId);
  }

  /** The metric, guard and completion comparators are total preorders. */
  lemma {:induction false} RecordComparator(locale: (string, string) -> int)
    requires Comparator(locale)
    ensures Comparator(ByRecord(locale))
  {
    var c, p := ByRecord(locale), ByProgress(locale);
    ProgressComparator(locale);
    forall a, b
      ensures c(a, b) < 0 <==> c(b, a) > 0
    {
      Chain(p, Progress(a), Progress(b), None);
      IdentityChain(a, b, a, locale);
    }
    forall a, b, d | c(a, b) <= 0 && c(b, d) <= 0
      ensures c(a, d) <= 0
    {
      Chain(p, Progress(a), Progress(b), Progress(d));
      IdentityChain(a, b, d, locale);
    }
  }

  /** So is the schedule comparator. */
  lemma {:induction false} ScheduleComparator(locale: (string, string) -> int)
    requires Comparator(locale)
    ensures Comparator(BySchedule(locale))
  {
    var c := BySchedule(locale);
    forall a, b
      ensures c(a, b) < 0 <==> c(b, a) > 0
    {
      IdentityChain(a, b, a, locale);
    }
    forall a, b, d | c(a, b) <= 0 && c(b, d) <= 0
      ensures c(a, d) <= 0
    {
      IdentityChain(a, b, d, locale);
    }
  }

  lemma {:induction false} ComparatorOrders(c: (Record, Record) -> int)
    requires Comparator(c)
    ensures TotalPreorder(AtMost(c))
  {
    var le := AtMost(c);
    forall a, b
      ensures le(a, b) || le(b, a)
    {
      Chain(c, a, b, a);
    }
  }

  /** Two strings that `locale` does not tell apart are the same. */
  ghost predicate Strict(locale: (string, string) -> int) {
    Comparator(locale) && forall a, b :: locale(a, b) == 0 ==> a == b
  }

  ghost predicate DistinctIds(records: seq<Record>) {
    forall a, b :: a in records && b in records && a.eventId == b.eventId ==> a == b
  }

  /** Records with distinct event ids are told apart by both orders. */
  lemma {:induction false} OrdersDistinguish(records: seq<Record>, locale: (string, string) -> int)
    requires Strict(locale) && DistinctIds(records)
    ensures Distinguishes(AtMost(ByRecord(locale)), records) && Distinguishes(AtMost(BySchedule(locale)), records)
  {
    RecordComparator(locale);
    ScheduleComparator(locale);
    forall x, y | x in records && y in records && AtMost(ByRecord(locale))(x, y) && AtMost(ByRecord(locale))(y, x)
      ensures x == y
    {
      Chain(ByRecord(locale), x, y, x);
    }
    forall x, y | x in records && y in records && AtMost(BySchedule(locale))(x, y) && AtMost(BySchedule(locale))(y, x)
      ensures x == y
    {
      Chain(BySchedule(locale), x, y, x);
    }
  }

  // ---------------------------------------------------------------- branches

  function GoalRef(r: Record): string {
    match r.body
    case Metric(source, _) => source
    case Guard(source, _) => source
    case Completion(_, loopKey, _, _) => GOAL_LOOP_PREFIX + loopKey
    case Schedule(goalRef, _, _, _, _, _) => goalRef
  }

  predicate Kept(r: Record) {
    r.body.Schedule? ==> r.body.goalRef != ""
  }

  predicate StartsBranch(r: Record) {
    r.body.Schedule? && r.body.fired && r.body.mode.Fresh?
  }

  /** The session whose root is the record's branch. */
  function Anchor(r: Record): string {
    if StartsBranch(r) then (if r.body.child.Some? then r.body.child.value else r.session)
    else if r.body.Schedule? then r.body.parent
    else r.session
  }

  function RootOf(r: Record, m: map<string, string>): string {
    Root(m, Anchor(r))
  }

  function BranchKey(goalRef: string, root: string): string {
    goalRef + "::" + root
  }

  function KeyOf(r: Record, m: map<string, string>): string {
    BranchKey(GoalRef(r), RootOf(r, m))
  }

  /** The sessions a record adds to its lineage. */
  function Mentions(r: Record): set<string> {
    if r.body.Schedule? then
      (if StartsBranch(r) then {} else {r.body.parent})
      + (if r.body.child.Some? && (r.body.mode.Inherit? || StartsBranch(r)) then {r.body.child.value} else {})
    else {r.session}
  }

  /** With its separator, one root is a proper suffix of the other. */
  predicate Nested(root: string, root': string) {
    |root| < |root'| && ("::" + root')[|root'| - |root|..] == "::" + root
  }

  lemma {:induction false} SuffixOf(goal: string, root: string, goal': string, root': string)
    requires BranchKey(goal, root) == BranchKey(goal', root') && |root| < |root'|
    ensures Nested(root, root')
  {
    var key := BranchKey(goal, root);
    var n := |key| - |root| - 2;
    assert key[n..] == "::" + root;
    assert key[|goal'|..] == "::" + root';
    assert key[n..] == key[|goal'|..][n - |goal'|..];
  }

  lemma {:induction false} SameLengthRoots(goal: string, root: string, goal': string, root': string)
    requires BranchKey(goal, root) == BranchKey(goal', root') && |root| == |root'|
    ensures goal == goal' && root == root'
  {
    var key := BranchKey(goal, root);
    assert goal == key[..|key| - |root| - 2] == goal';
    assert root == key[|key| - |root|..] == root';
  }

  /** Unless one root is nested in the other, the key determines goal and root. */
  lemma {:induction false} BranchKeyInjective(goal: string, root: string, goal': string, root': string)
    requires BranchKey(goal, root) == BranchKey(goal', root') && !Nested(root, root') && !Nested(root', root)
    ensures goal == goal' && root == root'
  {
    if |root| < |root'| {
      SuffixOf(goal, root, goal', root');
    } else if |root'| < |root| {
      SuffixOf(goal', root', goal, root);
    } else {
      SameLengthRoots(goal, root, goal', root');
    }
  }

  /** The goals under which two nested roots share a key. */
  lemma {:induction false} NestedCollide(root: string, root': string) returns (goal: string)
    requires Nested(root, root')
    ensures BranchKey(goal, root) == BranchKey("", root')
  {
    var whole := "::" + root';
    goal := whole[..|root'| - |root|];
    assert whole == goal + whole[|root'| - |root|..];
    assert BranchKey(goal, root) == goal + ("::" + root);
    assert BranchKey("", root') == whole;
  }

  /** There are goals for which these two roots give two branches one key. */
  ghost predicate CanCollide(root: string, root': string) {
    exists goal, goal' :: BranchKey(goal, root) == BranchKey(goal', root') && !(goal == goal' && root == root')
  }

  /** The exact condition: two roots can collide if and only if one is nested in the other. */
  lemma {:induction false} CollideIffNested(root: string, root': string)
    ensures CanCollide(root, root') <==> Nested(root, root') || Nested(root', root)
  {
    if Nested(root, root') {
      var goal := NestedCollide(root, root');
      assert BranchKey(goal, root) == BranchKey("", root');
    } else if Nested(root', root) {
      var goal := NestedCollide(root', root);
      assert BranchKey("", root) == BranchKey(goal, root');
    } else if CanCollide(root, root') {
      var goal, goal' :| BranchKey(goal, root) == BranchKey(goal', root') && !(goal == goal' && root == root');
      BranchKeyInjective(goal, root, goal', root');
    }
  }

  predicate ColonFree(s: string) {
    ':' !in s
  }

  /** A root without colons is nested in nothing and holds nothing nested. */
  lemma {:induction false} ColonFreeApart(root: string, root': string)
    requires ColonFree(root')
    ensures !Nested(root, root')
  {
    if |root| < |root'| {
      var whole, n := "::" + root', |root'| - |root|;
      assert whole[n..][1] == whole[n + 1] == root'[n - 1];
      assert ("::" + root)[1] == ':';
    }
  }

  // ---------------------------------------------------------------- grouping

  function Add(g: Group, r: Record): Group {
    var h := g.(sessions := g.sessions + Mentions(r));
    match r.body
    case Metric(_, _) => h.(metrics := g.metrics + [r])
    case Guard(_, _) => h.(guards := g.guards + [r])
    case Completion(skill, _, _, _) => h.(completions := g.completions + [r], skills := g.skills + {skill})
    case Schedule(_, _, _, _, _, _) => h.(schedules := g.schedules + [r])
  }

  function NewGroup(goalRef: string, root: string): Group {
    Group(goalRef, root, [], [], [], [], {root}, {})
  }

  /** The groups after going through the records in this order. */
  function Grouped(records: seq<Record>, m: map<string, string>): map<string, Group> {
    if records == [] then map[]
    else
      var groups, r := Grouped(Front(records), m), Last(records);
      if !Kept(r) then groups
      else
        var key := KeyOf(r, m);
        groups[key := Add(if key in groups then groups[key] else NewGroup(GoalRef(r), RootOf(r, m)), r)]
  }

  /** The records of one branch. */
  function Of(records: seq<Record>, m: map<string, string>, key: string): seq<Record> {
    if records == [] then []
    else if Kept(Last(records)) && KeyOf(Last(records), m) == key then Of(Front(records), m, key) + [Last(records)]
    else Of(Front(records), m, key)
  }

  function Folded(rs: seq<Record>, m: map<string, string>): Group
    requires rs != []
  {
    var r := Last(rs);
    Add(if |rs| == 1 then NewGroup(GoalRef(r), RootOf(r, m)) else Folded(Front(rs), m), r)
  }

  /** Each group is made of the records of its branch, and of no others. */
  lemma {:induction false} GroupedIs(records: seq<Record>, m: map<string, string>, key: string)
    ensures key in Grouped(records, m) <==> Of(records, m, key) != []
    ensures key in Grouped(records, m) ==> Grouped(records, m)[key] == Folded(Of(records, m, key), m)
  {
    if records != [] {
      GroupedIs(Front(records), m, key);
      var before, r := Of(Front(records), m, key), Last(records);
      if Kept(r) && KeyOf(r, m) == key {
        assert Front(before + [r]) == before && Last(before + [r]) == r;
      }
    }
  }

  datatype Tag = Metrics | Guards | Schedules | Completions

  function TagOf(r: Record): Tag {
    match r.body
    case Metric(_, _) => Metrics
    case Guard(_, _) => Guards
    case Completion(_, _, _, _) => Completions
    case Schedule(_, _, _, _, _, _) => Schedules
  }

  function Tagged(rs: seq<Record>, tag: Tag): seq<Record> {
    if rs == [] then []
    else if TagOf(Last(rs)) == tag then Tagged(Front(rs), tag) + [Last(rs)]
    else Tagged(Front(rs), tag)
  }

  function Mentioned(rs: seq<Record>): set<string> {
    set r, x | r in rs && x in Mentions(r) :: x
  }

  function Skills(rs: seq<Record>): set<string> {
    set r | r in rs && r.body.Completion? :: r.body.skill
  }

  /** What a group holds, list by list. */
  ghost predicate Holds(g: Group, goalRef: string, root: string, rs: seq<Record>) {
    && g.goalRef == goalRef && g.root == root
    && g.metrics == Tagged(rs, Metrics) && g.guards == Tagged(rs, Guards)
    && g.schedules == Tagged(rs, Schedules) && g.completions == Tagged(rs, Completions)
    && g.sessions == {root} + Mentioned(rs) && g.skills == Skills(rs)
  }

  lemma {:induction false} MentionedAppend(rs: seq<Record>, r: Record)
    ensures Mentioned(rs + [r]) == Mentioned(rs) + Mentions(r)
    ensures Skills(rs + [r]) == Skills(rs) + if r.body.Completion? then {r.body.skill} else {}
  {
    var all := rs + [r];
    assert r == all[|rs|];
    forall x | x in Mentioned(rs)
      ensures x in Mentioned(all)
    {
      var q :| q in rs && x in Mentions(q);
      assert q in all;
    }
    forall x | x in Skills(rs)
      ensures x in Skills(all)
    {
      var q :| q in rs && q.body.Completion? && q.body.skill == x;
      assert q in all;
    }
  }

  lemma {:induction false} TaggedAppend(rs: seq<Record>, r: Record, tag: Tag)
    ensures Tagged(rs + [r], tag) == if TagOf(r) == tag then Tagged(rs, tag) + [r] else Tagged(rs, tag)
  {
    assert Front(rs + [r]) == rs && Last(rs + [r]) == r;
  }

  lemma {:induction false} AddHolds(g: Group, goalRef: string, root: string, rs: seq<Record>, r: Record)
    requires Holds(g, goalRef, root, rs)
    ensures Holds(Add(g, r), goalRef, root, rs + [r])
  {
    MentionedAppend(rs, r);
    TaggedAppend(rs, r, Metrics);
    TaggedAppend(rs, r, Guards);
    TaggedAppend(rs, r, Schedules);
    TaggedAppend(rs, r, Completions);
  }

  lemma {:induction false} FoldedHolds(rs: seq<Record>, m: map<string, string>)
    requires rs != []
    ensures Holds(Folded(rs, m), GoalRef(rs[0]), RootOf(rs[0], m), rs)
  {
    var front, r := Front(rs), Last(rs);
    assert rs == front + [r];
    if |rs| == 1 {
      assert front == [];
      AddHolds(NewGroup(GoalRef(r), RootOf(r, m)), GoalRef(r), RootOf(r, m), [], r);
    } else {
      FoldedHolds(front, m);
      AddHolds(Folded(front, m), GoalRef(rs[0]), RootOf(rs[0], m), front, r);
    }
  }

  // ---------------------------------------------------------------- every record in exactly one group

  lemma {:induction false} OfCount(records: seq<Record>, m: map<string, string>, key: string, r: Record)
    ensures multiset(Of(records, m, key))[r] == if Kept(r) && KeyOf(r, m) == key then multiset(records)[r] else 0
  {
    if records != [] {
      OfCount(Front(records), m, key, r);
      assert records == Front(records) + [Last(records)];
    }
  }

  lemma {:induction false} TaggedCount(rs: seq<Record>, tag: Tag, r: Record)
    ensures multiset(Tagged(rs, tag))[r] == if TagOf(r) == tag then multiset(rs)[r] else 0
  {
    if rs != [] {
      TaggedCount(Front(rs), tag, r);
      assert rs == Front(rs) + [Last(rs)];
    }
  }

  function Members(g: Group): seq<Record> {
    g.metrics + g.guards + g.schedules + g.completions
  }

  lemma {:induction false} MembersCount(g: Group, goalRef: string, root: string, rs: seq<Record>, r: Record)
    requires Holds(g, goalRef, root, rs)
    ensures multiset(Members(g))[r] == multiset(rs)[r]
  {
    TaggedCount(rs, Metrics, r);
    TaggedCount(rs, Guards, r);
    TaggedCount(rs, Schedules, r);
    TaggedCount(rs, Completions, r);
  }

  /** Every record is in the group of its branch as often as it was recorded, and in no other group. */
  lemma {:induction false} ExactlyOneGroup(records: seq<Record>, m: map<string, string>, r: Record, key: string)
    requires r in records && Kept(r)
    ensures KeyOf(r, m) in Grouped(records, m)
    ensures key in Grouped(records, m) ==>
              multiset(Members(Grouped(records, m)[key]))[r] == if key == KeyOf(r, m) then multiset(records)[r] else 0
  {
    GroupedIs(records, m, KeyOf(r, m));
    OfCount(records, m, KeyOf(r, m), r);
    assert multiset(records)[r] > 0;
    GroupedIs(records, m, key);
    OfCount(records, m, key, r);
    if key in Grouped(records, m) {
      FoldedHolds(Of(records, m, key), m);
      var first := Of(records, m, key)[0];
      MembersCount(Grouped(records, m)[key], GoalRef(first), RootOf(first, m), Of(records, m, key), r);
    }
  }

  // ---------------------------------------------------------------- enumeration order does not matter

  /** The links among the records. */
  function Intents(records: seq<Record>): seq<Intent> {
    if records == [] then []
    else
      var r := Last(records);
      Intents(Front(records))
      + if r.body.Schedule? then [Intent(r.timestamp, r.body.fired, r.body.mode, r.body.child, r.body.parent)] else []
  }

  lemma {:induction false} IntentMembers(records: seq<Record>, i: Intent)
    ensures i in Intents(records) <==>
              exists r :: r in records && r.body.Schedule?
                          && i == Intent(r.timestamp, r.body.fired, r.body.mode, r.body.child, r.body.parent)
  {
    if records != [] {
      IntentMembers(Front(records), i);
      assert records == Front(records) + [Last(records)];
    }
  }

  function Parents(records: seq<Record>): map<string, string> {
    ParentMap(Sort(Intents(records), ByTime()))
  }

  function Finish(g: Group, locale: (string, string) -> int): Group {
    g.(metrics := Sort(g.metrics, AtMost(ByRecord(locale))), guards := Sort(g.guards, AtMost(ByRecord(locale))),
       schedules := Sort(g.schedules, AtMost(BySchedule(locale))),
       completions := Sort(g.completions, AtMost(ByRecord(locale))))
  }

  /** The lineages of a list of records. */
  function Lineages(records: seq<Record>, locale: (string, string) -> int): map<string, Group> {
    var groups := Grouped(records, Parents(records));
    map key | key in groups :: Finish(groups[key], locale)
  }

  /** Records that share a key belong to the same goal and root. */
  ghost predicate KeysTell(records: seq<Record>) {
    forall a, b :: a in records && b in records && Kept(a) && Kept(b)
                   && KeyOf(a, Parents(records)) == KeyOf(b, Parents(records)) ==>
      GoalRef(a) == GoalRef(b) && RootOf(a, Parents(records)) == RootOf(b, Parents(records))
  }

  /** Session ids have no colons. */
  ghost predicate PlainIds(records: seq<Record>) {
    forall r :: r in records ==>
      ColonFree(r.session)
      && (r.body.Schedule? ==> ColonFree(r.body.parent) && (r.body.child.Some? ==> ColonFree(r.body.child.value)))
  }

  /** The same records in any order: distinct event ids, keys that tell branches apart, latest links that agree. */
  ghost predicate Reordered(a: seq<Record>, b: seq<Record>) {
    multiset(a) == multiset(b) && DistinctIds(a) && KeysTell(a) && LatestAgree(Intents(a))
  }

  lemma {:induction false} SameParents(a: seq<Record>, b: seq<Record>)
    requires multiset(a) == multiset(b) && LatestAgree(Intents(a))
    ensures Parents(a) == Parents(b)
  {
    SameMembers(a, b);
    forall i
      ensures i in Intents(a) <==> i in Intents(b)
    {
      IntentMembers(a, i);
      IntentMembers(b, i);
    }
    SortedParents(Intents(a));
    SortedParents(Intents(b));
    ParentsUnique(Intents(a), Intents(b), Parents(a), Parents(b));
  }

  lemma {:induction false} UpStays(m: map<string, string>, session: string, k: nat)
    requires ColonFree(session) && (forall s :: s in m ==> ColonFree(m[s])) && Up(m, session, k).Some?
    ensures ColonFree(Up(m, session, k).value)
    decreases k
  {
    if k > 0 {
      UpStays(m, Parent(m, session).value, k - 1);
    }
  }

  lemma {:induction false} PlainRoots(records: seq<Record>, r: Record)
    requires PlainIds(records) && r in records
    ensures ColonFree(RootOf(r, Parents(records)))
  {
    var m := Parents(records);
    SortedParents(Intents(records));
    forall s | s in m
      ensures ColonFree(m[s])
    {
      assert LatestParent(Intents(records), s, m[s]);
      var i :| i in Intents(records) && LinksChild(i, s) && i.parent == m[s];
      IntentMembers(records, i);
    }
    RootMeans(m, Anchor(r));
    var k: nat :| Up(m, Anchor(r), k) == Some(RootOf(r, m));
    UpStays(m, Anchor(r), k);
  }

  lemma {:induction false} SameSorted(x: seq<Record>, y: seq<Record>, c: (Record, Record) -> int)
    requires multiset(x) == multiset(y) && Comparator(c) && Distinguishes(AtMost(c), x)
    ensures Sort(x, AtMost(c)) == Sort(y, AtMost(c))
  {
    var le := AtMost(c);
    ComparatorOrders(c);
    SortPermutes(x, le);
    SortPermutes(y, le);
    SortSorts(x, le);
    SortSorts(y, le);
    SameMembers(Sort(x, le), x);
    SortedUnique(Sort(x, le), Sort(y, le), le);
  }

  lemma {:induction false} SameTagged(x: seq<Record>, y: seq<Record>, tag: Tag)
    requires multiset(x) == multiset(y)
    ensures multiset(Tagged(x, tag)) == multiset(Tagged(y, tag))
    ensures forall r :: r in Tagged(x, tag) ==> r in x
  {
    forall r
      ensures multiset(Tagged(x, tag))[r] == multiset(Tagged(y, tag))[r]
      ensures r in Tagged(x, tag) ==> r in x
    {
      TaggedCount(x, tag, r);
      TaggedCount(y, tag, r);
      assert r in Tagged(x, tag) ==> multiset(Tagged(x, tag))[r] > 0;
    }
  }

  lemma {:induction false} SameList(x: seq<Record>, y: seq<Record>, tag: Tag, locale: (string, string) -> int)
    requires multiset(x) == multiset(y) && Strict(locale) && DistinctIds(x)
    ensures Sort(Tagged(x, tag), AtMost(ByRecord(locale))) == Sort(Tagged(y, tag), AtMost(ByRecord(locale)))
    ensures Sort(Tagged(x, tag), AtMost(BySchedule(locale))) == Sort(Tagged(y, tag), AtMost(BySchedule(locale)))
  {
    SameTagged(x, y, tag);
    OrdersDistinguish(Tagged(x, tag), locale);
    RecordComparator(locale);
    ScheduleComparator(locale);
    SameSorted(Tagged(x, tag), Tagged(y, tag), ByRecord(locale));
    SameSorted(Tagged(x, tag), Tagged(y, tag), BySchedule(locale));
  }

  lemma {:induction false} SameMentioned(x: seq<Record>, y: seq<Record>)
    requires multiset(x) == multiset(y)
    ensures Mentioned(x) == Mentioned(y) && Skills(x) == Skills(y)
  {
    SameMembers(x, y);
  }

  lemma {:induction false} SameGroup(g: Group, h: Group, goalRef: string, root: string, x: seq<Record>, y: seq<Record>,
                                     locale: (string, string) -> int)
    requires Holds(g, goalRef, root, x) && Holds(h, goalRef, root, y) && multiset(x) == multiset(y)
    requires Strict(locale) && DistinctIds(x)
    ensures Finish(g, locale) == Finish(h, locale)
  {
    SameMentioned(x, y);
    SameList(x, y, Metrics, locale);
    SameList(x, y, Guards, locale);
    SameList(x, y, Schedules, locale);
    SameList(x, y, Completions, locale);
  }

  lemma {:induction false} OfMembers(records: seq<Record>, m: map<string, string>, key: string, r: Record)
    requires r in Of(records, m, key)
    ensures r in records && Kept(r) && KeyOf(r, m) == key
  {
    OfCount(records, m, key, r);
    assert multiset(Of(records, m, key))[r] > 0;
  }

  lemma {:induction false} SameBranch(a: seq<Record>, b: seq<Record>, key: string, locale: (string, string) -> int)
    requires Reordered(a, b) && Strict(locale)
    ensures key in Lineages(a, locale) <==> key in Lineages(b, locale)
    ensures key in Lineages(a, locale) ==> Lineages(a, locale)[key] == Lineages(b, locale)[key]
  {
    SameParents(a, b);
    SameMembers(a, b);
    var m := Parents(a);
    var x, y := Of(a, m, key), Of(b, m, key);
    SameOf(a, b, m, key);
    GroupedIs(a, m, key);
    GroupedIs(b, m, key);
    if x != [] {
      FoldedHolds(x, m);
      FoldedHolds(y, m);
      OfMembers(a, m, key, x[0]);
      OfMembers(b, m, key, y[0]);
      assert x[0] in a && y[0] in a;
      DistinctOf(a, m, key);
      SameGroup(Folded(x, m), Folded(y, m), GoalRef(x[0]), RootOf(x[0], m), x, y, locale);
    }
  }

  lemma {:induction false} SameOf(a: seq<Record>, b: seq<Record>, m: map<string, string>, key: string)
    requires multiset(a) == multiset(b)
    ensures multiset(Of(a, m, key)) == multiset(Of(b, m, key))
    ensures Of(a, m, key) == [] <==> Of(b, m, key) == []
  {
    forall r
      ensures multiset(Of(a, m, key))[r] == multiset(Of(b, m, key))[r]
    {
      OfCount(a, m, key, r);
      OfCount(b, m, key, r);
    }
    SameMembers(Of(a, m, key), Of(b, m, key));
  }

  lemma {:induction false} DistinctOf(records: seq<Record>, m: map<string, string>, key: string)
    requires DistinctIds(records)
    ensures DistinctIds(Of(records, m, key))
  {
    forall r | r in Of(records, m, key)
      ensures r in records
    {
      OfMembers(records, m, key, r);
    }
  }

  /** The same records, enumerated in any order, give the same lineages. */
  lemma {:induction false} OrderIndependent(a: seq<Record>, b: seq<Record>, locale: (string, string) -> int)
    requires Reordered(a, b) && Strict(locale)
    ensures Lineages(a, locale) == Lineages(b, locale)
  {
    forall key: string
      ensures key in Lineages(a, locale) <==> key in Lineages(b, locale)
      ensures key in Lineages(a, locale) ==> Lineages(a, locale)[key] == Lineages(b, locale)[key]
    {
      SameBranch(a, b, key, locale);
    }
  }

  /** Colon-free session ids are enough for keys to tell branches apart. */
  lemma {:induction false} PlainIdsTell(records: seq<Record>)
    requires PlainIds(records)
    ensures KeysTell(records)
  {
    var m := Parents(records);
    forall a, b | a in records && b in records && KeyOf(a, m) == KeyOf(b, m)
      ensures GoalRef(a) == GoalRef(b) && RootOf(a, m) == RootOf(b, m)
    {
      PlainRoots(records, a);
      PlainRoots(records, b);
      ColonFreeApart(RootOf(a, m), RootOf(b, m));
      ColonFreeApart(RootOf(b, m), RootOf(a, m));
      BranchKeyInjective(GoalRef(a), RootOf(a, m), GoalRef(b), RootOf(b, m));
    }
  }

  lemma {:induction false} OfFirst(r: Record, records: seq<Record>, m: map<string, string>)
    requires Kept(r)
    ensures Of([r] + records, m, KeyOf(r, m)) != [] && Of([r] + records, m, KeyOf(r, m))[0] == r
    decreases |records|
  {
    var all := [r] + records;
    if records == [] {
      assert all == [r] && Front(all) == [] && Last(all) == r;
    } else {
      assert Front(all) == [r] + Front(records) && Last(all) == Last(records);
      OfFirst(r, Front(records), m);
    }
  }

  /** A branch takes goal and root from its first record. */
  lemma {:induction false} FirstNames(r: Record, records: seq<Record>, locale: (string, string) -> int)
    requires Kept(r)
    ensures var all := [r] + records; var m := Parents(all);
            && KeyOf(r, m) in Lineages(all, locale)
            && Lineages(all, locale)[KeyOf(r, m)].goalRef == GoalRef(r)
            && Lineages(all, locale)[KeyOf(r, m)].root == RootOf(r, m)
  {
    var all := [r] + records;
    var m := Parents(all);
    OfFirst(r, records, m);
    GroupedIs(all, m, KeyOf(r, m));
    FoldedHolds(Of(all, m, KeyOf(r, m)), m);
  }

  ghost predicate LineagesOrderFree(records: seq<Record>, locale: (string, string) -> int) {
    forall p :: multiset(p) == multiset(records) ==> Lineages(p, locale) == Lineages(records, locale)
  }

  /** The records with the one at `i` moved to the front. */
  lemma {:induction false} MovedFirst(records: seq<Record>, i: nat)
    requires i < |records|
    ensures multiset([records[i]] + Remove(records, i)) == multiset(records)
  {
    RemoveMultiset(records, i);
    assert records[i] in records;
  }

  /** Two records that share a key but not the branch: the one enumerated first names it. */
  lemma {:induction false} SharedKeyMatters(records: seq<Record>, x: Record, y: Record, locale: (string, string) -> int)
    returns (p: seq<Record>, q: seq<Record>)
    requires LatestAgree(Intents(records)) && x in records && y in records && Kept(x) && Kept(y)
    requires KeyOf(x, Parents(records)) == KeyOf(y, Parents(records))
    requires GoalRef(x) != GoalRef(y) || RootOf(x, Parents(records)) != RootOf(y, Parents(records))
    ensures multiset(p) == multiset(records) == multiset(q) && Lineages(p, locale) != Lineages(q, locale)
  {
    var i :| 0 <= i < |records| && records[i] == x;
    var j :| 0 <= j < |records| && records[j] == y;
    MovedFirst(records, i);
    MovedFirst(records, j);
    p, q := [x] + Remove(records, i), [y] + Remove(records, j);
    SameParents(records, p);
    SameParents(records, q);
    FirstNames(x, Remove(records, i), locale);
    FirstNames(y, Remove(records, j), locale);
  }

  /** The exact condition, given distinct event ids and links that agree: keys tell the branches apart. */
  lemma {:induction false} OrderFreeIffKeysTell(records: seq<Record>, locale: (string, string) -> int)
    requires Strict(locale) && DistinctIds(records) && LatestAgree(Intents(records))
    ensures LineagesOrderFree(records, locale) <==> KeysTell(records)
  {
    if KeysTell(records) {
      forall p | multiset(p) == multiset(records)
        ensures Lineages(p, locale) == Lineages(records, locale)
      {
        OrderIndependent(records, p, locale);
      }
    } else {
      var x, y :| x in records && y in records && Kept(x) && Kept(y)
                  && KeyOf(x, Parents(records)) == KeyOf(y, Parents(records))
                  && !(GoalRef(x) == GoalRef(y) && RootOf(x, Parents(records)) == RootOf(y, Parents(records)));
      var p, q := SharedKeyMatters(records, x, y, locale);
      assert !(Lineages(p, locale) == Lineages(records, locale) && Lineages(q, locale) == Lineages(records, locale));
    }
  }

  // ---------------------------------------------------------------- the builder

  /** The records of one kind, session after session. */
  function Collected(logs: seq<seq<Record>>, tag: Tag): seq<Record> {
    if logs == [] then [] else Collected(Front(logs), tag) + Tagged(Last(logs), tag)
  }

  function Records(logs: seq<seq<Record>>): seq<Record> {
    Collected(logs, Metrics) + Collected(logs, Guards) + Collected(logs, Completions) + Collected(logs, Schedules)
  }

  function Total(logs: seq<seq<Record>>): multiset<Record> {
    if logs == [] then multiset{} else Total(Front(logs)) + multiset(Last(logs))
  }

  lemma {:induction false} CollectedCount(logs: seq<seq<Record>>, tag: Tag, r: Record)
    ensures multiset(Collected(logs, tag))[r] == if TagOf(r) == tag then Total(logs)[r] else 0
  {
    if logs != [] {
      CollectedCount(Front(logs), tag, r);
      TaggedCount(Last(logs), tag, r);
    }
  }

  lemma {:induction false} RecordsCount(logs: seq<seq<Record>>)
    ensures multiset(Records(logs)) == Total(logs)
  {
    forall r
      ensures multiset(Records(logs))[r] == Total(logs)[r]
    {
      CollectedCount(logs, Metrics, r);
      CollectedCount(logs, Guards, r);
      CollectedCount(logs, Completions, r);
      CollectedCount(logs, Schedules, r);
    }
  }

  lemma {:induction false} TotalSplit(logs: seq<seq<Record>>, i: nat, r: Record)
    requires i < |logs|
    ensures Total(logs)[r] == Total(Remove(logs, i))[r] + multiset(logs[i])[r]
  {
    if i == |logs| - 1 {
      assert Remove(logs, i) == Front(logs);
    } else {
      TotalSplit(Front(logs), i, r);
      RemoveBeforeLast(logs, i);
      TotalPush(Remove(Front(logs), i), Last(logs), r);
    }
  }

  lemma {:induction false} TotalPush(logs: seq<seq<Record>>, log: seq<Record>, r: Record)
    ensures Total(logs + [log])[r] == Total(logs)[r] + multiset(log)[r]
  {
    assert Front(logs + [log]) == logs && Last(logs + [log]) == log;
  }

  lemma {:induction false} TotalCounts(a: seq<seq<Record>>, b: seq<seq<Record>>, r: Record)
    requires multiset(a) == multiset(b)
    ensures Total(a)[r] == Total(b)[r]
    decreases |a|
  {
    SameMembers(a, b);
    if a != [] {
      var i := SameHead(a, b);
      TotalSplit(a, 0, r);
      TotalSplit(b, i, r);
      assert Remove(a, 0) == a[1..];
      TotalCounts(a[1..], Remove(b, i), r);
    }
  }

  lemma {:induction false} TotalPermutes(a: seq<seq<Record>>, b: seq<seq<Record>>)
    requires multiset(a) == multiset(b)
    ensures Total(a) == Total(b)
  {
    forall r
      ensures Total(a)[r] == Total(b)[r]
    {
      TotalCounts(a, b, r);
    }
  }

  /** Permuting the sessions yields the same lineages. */
  lemma {:induction false} SessionOrderIndependent(a: seq<seq<Record>>, b: seq<seq<Record>>,
                                                   locale: (string, string) -> int)
    requires multiset(a) == multiset(b) && Strict(locale)
    requires DistinctIds(Records(a)) && KeysTell(Records(a)) && LatestAgree(Intents(Records(a)))
    ensures Lineages(Records(a), locale) == Lineages(Records(b), locale)
  {
    TotalPermutes(a, b);
    RecordsCount(a);
    RecordsCount(b);
    OrderIndependent(Records(a), Records(b), locale);
  }

  method EnsureAndAdd(groups: map<string, Group>, r: Record, parents: map<string, string>)
    returns (groups': map<string, Group>)
    requires Kept(r)
    ensures groups' == groups[KeyOf(r, parents) := Add(if KeyOf(r, parents) in groups then groups[KeyOf(r, parents)]
                                                      else NewGroup(GoalRef(r), RootOf(r, parents)), r)]
  {
    var root := ResolveLineageRoot(Anchor(r), parents);
    var key := BranchKey(GoalRef(r), root);
    var group := if key in groups then groups[key] else NewGroup(GoalRef(r), root);
    groups' := groups[key := Add(group, r)];
  }

  method GroupRecords(records: seq<Record>, parents: map<string, string>) returns (groups: map<string, Group>)
    ensures groups == Grouped(records, parents)
  {
    groups := map[];
    var i := 0;
    while i < |records|
      invariant i <= |records| && groups == Grouped(records[..i], parents)
    {
      assert Front(records[..i + 1]) == records[..i] && Last(records[..i + 1]) == records[i];
      if Kept(records[i]) {
        groups := EnsureAndAdd(groups, records[i], parents);
      }
      i := i + 1;
    }
    assert records[..i] == records;
  }

  method Collect(logs: seq<seq<Record>>, tag: Tag) returns (records: seq<Record>)
    ensures records == Collected(logs, tag)
  {
    records := [];
    var i := 0;
    while i < |logs|
      invariant i <= |logs| && records == Collected(logs[..i], tag)
    {
      assert Front(logs[..i + 1]) == logs[..i] && Last(logs[..i + 1]) == logs[i];
      records := records + Tagged(logs[i], tag);
      i := i + 1;
    }
    assert logs[..i] == logs;
  }

  lemma {:induction false} IntentsConcat(a: seq<Record>, b: seq<Record>)
    ensures Intents(a + b) == Intents(a) + Intents(b)
  {
    if b == [] {
      assert a + b == a;
    } else {
      assert Front(a + b) == a + Front(b) && Last(a + b) == Last(b);
      IntentsConcat(a, Front(b));
    }
  }

  lemma {:induction false} NoIntents(rs: seq<Record>)
    requires forall r :: r in rs ==> !r.body.Schedule?
    ensures Intents(rs) == []
  {
    if rs != [] {
      NoIntents(Front(rs));
    }
  }

  /** The links are those of the schedule records. */
  lemma {:induction false} IntentsOfSchedules(logs: seq<seq<Record>>)
    ensures Intents(Records(logs)) == Intents(Collected(logs, Schedules))
  {
    var others := Collected(logs, Metrics) + Collected(logs, Guards) + Collected(logs, Completions);
    forall r | r in others
      ensures !r.body.Schedule?
    {
      CollectedCount(logs, Metrics, r);
      CollectedCount(logs, Guards, r);
      CollectedCount(logs, Completions, r);
      assert multiset(others)[r] > 0;
    }
    NoIntents(others);
    IntentsConcat(others, Collected(logs, Schedules));
  }

  /** The grouping and sorting part of `buildOptimizationLineages`. */
  method BuildOptimizationLineages(logs: seq<seq<Record>>, locale: (string, string) -> int)
    returns (lineages: map<string, Group>)
    ensures lineages == Lineages(Records(logs), locale)
  {
    var metrics := Collect(logs, Metrics);
    var guards := Collect(logs, Guards);
    var schedules := Collect(logs, Schedules);
    var completions := Collect(logs, Completions);
    var childToParent := BuildChildToParentMap(Intents(schedules));
    IntentsOfSchedules(logs);
    var grouped := GroupRecords(metrics + guards + completions + schedules, childToParent);
    lineages := map key | key in grouped :: Finish(grouped[key], locale);
  }
}
