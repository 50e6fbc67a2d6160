/**
 Session ancestry of optimization.ts: the child-to-parent map built from the schedule events, and the
 climb to the root of a lineage, which must survive cyclic maps.
 */
module Ancestry {
  import opened Prelude
  import opened Sorting

  // ---------------------------------------------------------------- climbing

  /** The parent to climb to, if any: a blank parent or a session that is its own parent ends the climb. */
  function Parent(m: map<string, string>, session: string): Option<string> {
    if session in m && m[session] != "" && m[session] != session then Some(m[session]) else None
  }

  /** The `k`-th ancestor. */
  function Up(m: map<string, string>, session: string, k: nat): Option<string>
    decreases k
  {
    if k == 0 then Some(session)
    else if Parent(m, session).None? then None
    else Up(m, Parent(m, session).value, k - 1)
  }

  ghost predicate Climbs(m: map<string, string>, a: string, b: string) {
    exists k: nat :: Up(m, a, k) == Some(b)
  }

  ghost predicate ClimbsStrictly(m: map<string, string>, a: string, b: string) {
    exists k: nat :: k > 0 && Up(m, a, k) == Some(b)
  }

  ghost predicate OnCycle(m: map<string, string>, session: string) {
    ClimbsStrictly(m, session, session)
  }

  /** Where a climb from `current` ends that stops at the sessions visited. */
  function Climb(m: map<string, string>, current: string, visited: set<string>): string
    decreases |m.Keys - visited|
  {
    if current in visited || Parent(m, current).None? then current
    else
      assert m.Keys - (visited + {current}) == (m.Keys - visited) - {current};
      Climb(m, Parent(m, current).value, visited + {current})
  }

  function Root(m: map<string, string>, session: string): string {
    Climb(m, session, {})
  }

  lemma {:induction false} UpAdd(m: map<string, string>, session: string, i: nat, j: nat)
    requires Up(m, session, i).Some?
    ensures Up(m, session, i + j) == Up(m, Up(m, session, i).value, j)
    decreases i
  {
    if i > 0 {
      UpAdd(m, Parent(m, session).value, i - 1, j);
    }
  }

  /** A climb does not notice a visited session that it cannot reach. */
  lemma {:induction false} ClimbIgnores(m: map<string, string>, current: string, visited: set<string>, c: string)
    requires !Climbs(m, current, c)
    ensures Climb(m, current, visited + {c}) == Climb(m, current, visited)
    decreases |m.Keys - visited|
  {
    assert Up(m, current, 0) == Some(current);
    if current !in visited && Parent(m, current).Some? {
      var parent := Parent(m, current).value;
      forall k: nat
        ensures Up(m, parent, k) != Some(c)
      {
        assert Up(m, current, k + 1) == Up(m, parent, k);
      }
      assert m.Keys - (visited + {current}) == (m.Keys - visited) - {current};
      ClimbIgnores(m, parent, visited + {current}, c);
      assert visited + {current} + {c} == visited + {c} + {current};
    }
  }

  /** A climb ends at the first visited session it comes to. */
  lemma {:induction false} ClimbReturns(m: map<string, string>, current: string, visited: set<string>, c: string,
                                        k: nat)
    requires c in visited && Up(m, current, k) == Some(c)
    requires forall j: nat :: j < k ==> Up(m, current, j).Some? && Up(m, current, j).value !in visited
    ensures Climb(m, current, visited) == c
    decreases k
  {
    if k > 0 {
      assert Up(m, current, 0) == Some(current);
      var parent := Parent(m, current).value;
      forall j: nat | j < k - 1
        ensures Up(m, parent, j).Some? && Up(m, parent, j).value !in visited + {current}
      {
        assert Up(m, current, j + 1) == Up(m, parent, j);
        if Up(m, current, j + 1) == Some(current) {
          UpAdd(m, current, j + 1, k - (j + 1));
          assert false;
        }
      }
      ClimbReturns(m, parent, visited + {current}, c, k - 1);
    }
  }

  lemma {:induction false} FirstReturn(m: map<string, string>, session: string, k: nat) returns (first: nat)
    requires k > 0 && Up(m, session, k) == Some(session)
    ensures 0 < first <= k && Up(m, session, first) == Some(session)
    ensures forall j: nat :: 0 < j < first ==> Up(m, session, j).Some? && Up(m, session, j) != Some(session)
    decreases k
  {
    if j: nat :| 0 < j < k && Up(m, session, j) == Some(session) {
      first := FirstReturn(m, session, j);
    } else {
      first := k;
      forall j: nat | 0 < j < k
        ensures Up(m, session, j).Some?
      {
        UpDefined(m, session, j, k);
      }
    }
  }

  lemma {:induction false} UpDefined(m: map<string, string>, session: string, j: nat, k: nat)
    requires j <= k && Up(m, session, k).Some?
    ensures Up(m, session, j).Some?
    decreases j
  {
    if j > 0 {
      UpDefined(m, Parent(m, session).value, j - 1, k - 1);
    }
  }

  /** A session on a cycle is its own root. */
  lemma {:induction false} CycleIsOwnRoot(m: map<string, string>, session: string)
    requires OnCycle(m, session)
    ensures Root(m, session) == session
  {
    var some: nat :| some > 0 && Up(m, session, some) == Some(session);
    var k := FirstReturn(m, session, some);
    var parent := Parent(m, session).value;
    forall j: nat | j < k - 1
      ensures Up(m, parent, j).Some? && Up(m, parent, j).value !in {session}
    {
      assert Up(m, session, j + 1) == Up(m, parent, j);
    }
    ClimbReturns(m, parent, {session}, session, k - 1);
    assert {} + {session} == {session};
  }

  lemma {:induction false} ParentOnCycle(m: map<string, string>, child: string)
    requires OnCycle(m, child)
    ensures Parent(m, child).Some? && OnCycle(m, Parent(m, child).value)
  {
    var k: nat :| k > 0 && Up(m, child, k) == Some(child);
    var parent := Parent(m, child).value;
    UpAdd(m, parent, k - 1, 1);
    OneUp(m, child);
    assert Up(m, parent, k) == Some(parent);
  }

  /** Child and parent have the same root exactly if the child is not on a cycle. */
  lemma {:induction false} SameRootIff(m: map<string, string>, child: string)
    requires Parent(m, child).Some?
    ensures Root(m, child) == Root(m, Parent(m, child).value) <==> !OnCycle(m, child)
  {
    var parent := Parent(m, child).value;
    if OnCycle(m, child) {
      CycleIsOwnRoot(m, child);
      ParentOnCycle(m, child);
      CycleIsOwnRoot(m, parent);
    } else {
      forall k: nat
        ensures Up(m, parent, k) != Some(child)
      {
        assert Up(m, child, k + 1) == Up(m, parent, k);
      }
      ClimbIgnores(m, parent, {}, child);
      assert {} + {child} == {child};
    }
  }

  /** The root is an ancestor; it has no parent, or the map is cyclic there. */
  lemma {:induction false} RootMeans(m: map<string, string>, session: string)
    ensures Climbs(m, session, Root(m, session))
    ensures Parent(m, Root(m, session)).None? || OnCycle(m, Root(m, session))
  {
    ClimbMeans(m, session, {});
  }

  lemma {:induction false} OneUp(m: map<string, string>, session: string)
    requires Parent(m, session).Some?
    ensures Up(m, session, 1) == Parent(m, session)
  {
    assert Up(m, Parent(m, session).value, 0) == Parent(m, session);
  }

  lemma {:induction false} StrictlyOn(m: map<string, string>, a: string, b: string)
    requires ClimbsStrictly(m, a, b) && Parent(m, b).Some?
    ensures ClimbsStrictly(m, a, Parent(m, b).value)
  {
    var k: nat :| k > 0 && Up(m, a, k) == Some(b);
    UpAdd(m, a, k, 1);
    OneUp(m, b);
    assert Up(m, a, k + 1) == Parent(m, b);
  }

  lemma {:induction false} ClimbMeans(m: map<string, string>, current: string, visited: set<string>)
    requires forall v :: v in visited ==> ClimbsStrictly(m, v, current)
    ensures Climbs(m, current, Climb(m, current, visited))
    ensures Parent(m, Climb(m, current, visited)).None? || OnCycle(m, Climb(m, current, visited))
    decreases |m.Keys - visited|
  {
    assert Up(m, current, 0) == Some(current);
    if current !in visited && Parent(m, current).Some? {
      var parent := Parent(m, current).value;
      OneUp(m, current);
      forall v | v in visited + {current}
        ensures ClimbsStrictly(m, v, parent)
      {
        if v in visited {
          StrictlyOn(m, v, current);
        }
      }
      assert m.Keys - (visited + {current}) == (m.Keys - visited) - {current};
      ClimbMeans(m, parent, visited + {current});
      var end := Climb(m, parent, visited + {current});
      var k: nat :| Up(m, parent, k) == Some(end);
      assert Up(m, current, k + 1) == Some(end);
    }
  }

  /** `resolveLineageRoot`: terminates on every map. */
  method ResolveLineageRoot(session: string, childToParent: map<string, string>) returns (root: string)
    ensures root == Root(childToParent, session)
  {
    var visited: set<string> := {};
    var current := session;
    while current !in visited
      invariant Climb(childToParent, current, visited) == Root(childToParent, session)
      decreases |childToParent.Keys - visited|, current !in visited
    {
      ghost var before := childToParent.Keys - visited;
      visited := visited + {current};
      assert childToParent.Keys - visited == before - {current};
      if current !in childToParent || childToParent[current] == "" || childToParent[current] == current {
        break;
      }
      current := childToParent[current];
    }
    root := current;
  }

  // ---------------------------------------------------------------- the map

  datatype Mode = Inherit | Fresh | Unspecified

  /** What the map and the grouping read of a schedule event. */
  datatype Intent = Intent(timestamp: int, fired: bool, mode: Mode, child: Option<string>, parent: string)

  predicate Links(r: Intent) {
    r.fired && r.mode.Inherit? && r.child.Some? && r.child.value != ""
  }

  predicate LinksChild(r: Intent, child: string) {
    Links(r) && r.child.value == child
  }

  function ByTime(): (Intent, Intent) -> bool {
    (a: Intent, b: Intent) => a.timestamp <= b.timestamp
  }

  /** The parent of each linked child is the one given by a latest link. */
  ghost predicate LatestParents(records: seq<Intent>, m: map<string, string>) {
    && (forall r :: r in records && Links(r) ==> r.child.value in m)
    && (forall child :: child in m ==> LatestParent(records, child, m[child]))
  }

  ghost predicate LatestParent(records: seq<Intent>, child: string, parent: string) {
    exists r :: r in records && LinksChild(r, child) && r.parent == parent
                && forall q :: q in records && LinksChild(q, child) ==> q.timestamp <= r.timestamp
  }

  ghost predicate LatestLink(records: seq<Intent>, r: Intent) {
    r in records && Links(r) && forall q :: q in records && LinksChild(q, r.child.value) ==> q.timestamp <= r.timestamp
  }

  /** All latest links of a child name the same parent. */
  ghost predicate LatestAgree(records: seq<Intent>) {
    forall a, b :: LatestLink(records, a) && LatestLink(records, b) && a.child == b.child ==> a.parent == b.parent
  }

  /** If latest links agree, the map depends only on which records there are. */
  lemma {:induction false} ParentsUnique(a: seq<Intent>, b: seq<Intent>, m: map<string, string>, n: map<string, string>)
    requires LatestAgree(a) && LatestParents(a, m) && LatestParents(b, n) && forall r :: r in a <==> r in b
    ensures m == n
  {
    forall child | child in m
      ensures child in n && n[child] == m[child]
    {
      var r := LatestOf(a, child, m[child]);
      assert r.child.value in n;
      var q := LatestOf(b, child, n[child]);
      assert LatestLink(a, q);
    }
    forall child | child in n
      ensures child in m
    {
      var q := LatestOf(b, child, n[child]);
    }
  }

  lemma {:induction false} LatestOf(records: seq<Intent>, child: string, parent: string) returns (r: Intent)
    requires LatestParent(records, child, parent)
    ensures LatestLink(records, r) && LinksChild(r, child) && r.parent == parent
  {
    r :| r in records && LinksChild(r, child) && r.parent == parent
         && forall q :: q in records && LinksChild(q, child) ==> q.timestamp <= r.timestamp;
  }

  lemma {:induction false} ParentMapConcat(a: seq<Intent>, b: seq<Intent>, child: string)
    ensures child in ParentMap(a + b) <==> child in ParentMap(a) || child in ParentMap(b)
    ensures child in ParentMap(b) ==> ParentMap(a + b)[child] == ParentMap(b)[child]
    ensures child in ParentMap(a) && child !in ParentMap(b) ==> ParentMap(a + b)[child] == ParentMap(a)[child]
  {
    if b == [] {
      assert a + b == a;
    } else {
      assert Front(a + b) == a + Front(b) && Last(a + b) == Last(b);
      ParentMapConcat(a, Front(b), child);
    }
  }

  lemma {:induction false} ParentMapOne(r: Intent, child: string)
    ensures child in ParentMap([r]) <==> LinksChild(r, child)
    ensures LinksChild(r, child) ==> ParentMap([r])[child] == r.parent
  {
    assert Front([r]) == [] && Last([r]) == r;
  }

  lemma {:induction false} ParentMapHas(s: seq<Intent>, i: nat)
    requires i < |s| && Links(s[i])
    ensures s[i].child.value in ParentMap(s)
  {
    if i < |s| - 1 {
      ParentMapHas(Front(s), i);
    }
  }

  /** Where an insertion by time puts a record: behind all earlier ones, before the rest. */
  lemma {:induction false} InsertPlace(r: Intent, s: seq<Intent>) returns (i: nat)
    ensures i <= |s| && Insert(r, s, ByTime()) == s[..i] + [r] + s[i..]
    ensures forall k :: 0 <= k < i ==> s[k].timestamp < r.timestamp
  {
    if s == [] || ByTime()(r, s[0]) {
      i := 0;
    } else {
      var j := InsertPlace(r, s[1..]);
      i := j + 1;
      assert s[1..][..j] == s[1..i] && s[1..][j..] == s[i..];
      assert s == [s[0]] + s[1..];
    }
  }

  /** A record in front of a link of the child, or one that does not link it, does not change its parent. */
  lemma {:induction false} SkipOne(a: seq<Intent>, r: Intent, c: seq<Intent>, child: string)
    requires child in ParentMap(c) || !LinksChild(r, child)
    ensures child in ParentMap(a + [r] + c) <==> child in ParentMap(a + c)
    ensures child in ParentMap(a + c) ==> ParentMap(a + [r] + c)[child] == ParentMap(a + c)[child]
  {
    ParentMapConcat(a, c, child);
    ParentMapConcat(a + [r], c, child);
    ParentMapConcat(a, [r], child);
    ParentMapOne(r, child);
  }

  /** Inserting a record that is not later than link `x` of the child does not change the child's parent. */
  lemma {:induction false} InsertKeepsParent(r: Intent, s: seq<Intent>, x: Intent)
    requires x in s && Links(x) && (LinksChild(r, x.child.value) ==> r.timestamp <= x.timestamp)
    ensures x.child.value in ParentMap(s) && x.child.value in ParentMap(Insert(r, s, ByTime()))
    ensures ParentMap(Insert(r, s, ByTime()))[x.child.value] == ParentMap(s)[x.child.value]
  {
    var i := InsertPlace(r, s);
    var k :| 0 <= k < |s| && s[k] == x;
    ParentMapHas(s, k);
    if k >= i {
      assert s[i..][k - i] == x;
      ParentMapHas(s[i..], k - i);
    }
    assert s[..i] + s[i..] == s;
    SkipOne(s[..i], r, s[i..], x.child.value);
  }

  /** A latest link that is enumerated last wins. */
  lemma {:induction false} LastWins(s: seq<Intent>, x: Intent)
    requires Links(x) && forall q :: q in s && LinksChild(q, x.child.value) ==> q.timestamp <= x.timestamp
    ensures x.child.value in ParentMap(Sort(s + [x], ByTime()))
    ensures ParentMap(Sort(s + [x], ByTime()))[x.child.value] == x.parent
  {
    var all := s + [x];
    if s == [] {
      assert all == [x] && all[1..] == [];
      assert Sort(all, ByTime()) == [x];
      ParentMapOne(x, x.child.value);
    } else {
      assert all[1..] == s[1..] + [x] && all[0] == s[0];
      LastWins(s[1..], x);
      SortPermutes(all[1..], ByTime());
      SameMembers(Sort(all[1..], ByTime()), all[1..]);
      assert x == all[1..][|s| - 1];
      InsertKeepsParent(s[0], Sort(all[1..], ByTime()), x);
    }
  }

  /** The records with the one at `i` moved behind all others. */
  lemma {:induction false} MoveLast(records: seq<Intent>, i: nat)
    requires i < |records|
    ensures multiset(Remove(records, i) + [records[i]]) == multiset(records)
    ensures forall q :: q in Remove(records, i) ==> q in records
  {
    RemoveMultiset(records, i);
  }

  /** Two latest links of a child that disagree: the one enumerated last wins. */
  lemma {:induction false} DisagreementMatters(records: seq<Intent>, x: Intent, y: Intent)
    returns (p: seq<Intent>, q: seq<Intent>)
    requires LatestLink(records, x) && LatestLink(records, y) && x.child == y.child && x.parent != y.parent
    ensures multiset(p) == multiset(records) == multiset(q)
    ensures ParentMap(Sort(p, ByTime())) != ParentMap(Sort(q, ByTime()))
  {
    var i :| 0 <= i < |records| && records[i] == x;
    var j :| 0 <= j < |records| && records[j] == y;
    MoveLast(records, i);
    MoveLast(records, j);
    LastWins(Remove(records, i), x);
    LastWins(Remove(records, j), y);
    p, q := Remove(records, i) + [x], Remove(records, j) + [y];
  }

  /** The map is the same for every order of the records. */
  ghost predicate ParentsOrderFree(records: seq<Intent>) {
    forall p :: multiset(p) == multiset(records) ==> ParentMap(Sort(p, ByTime())) == ParentMap(Sort(records, ByTime()))
  }

  /** The exact condition: the order of the records does not matter if and only if latest links agree. */
  lemma {:induction false} OrderFreeIffAgree(records: seq<Intent>)
    ensures ParentsOrderFree(records) <==> LatestAgree(records)
  {
    if LatestAgree(records) {
      forall p | multiset(p) == multiset(records)
        ensures ParentMap(Sort(p, ByTime())) == ParentMap(Sort(records, ByTime()))
      {
        SameMembers(p, records);
        SortedParents(records);
        SortedParents(p);
        ParentsUnique(records, p, ParentMap(Sort(records, ByTime())), ParentMap(Sort(p, ByTime())));
      }
    } else {
      var x, y :| LatestLink(records, x) && LatestLink(records, y) && x.child == y.child && x.parent != y.parent;
      var p, q := DisagreementMatters(records, x, y);
      assert !(ParentMap(Sort(p, ByTime())) == ParentMap(Sort(records, ByTime()))
               && ParentMap(Sort(q, ByTime())) == ParentMap(Sort(records, ByTime())));
    }
  }

  /** The map after going through the records in this order. */
  function ParentMap(sorted: seq<Intent>): map<string, string> {
    if sorted == [] then map[]
    else if Links(Last(sorted)) then ParentMap(Front(sorted))[Last(sorted).child.value := Last(sorted).parent]
    else ParentMap(Front(sorted))
  }

  lemma {:induction false} ParentMapLatest(sorted: seq<Intent>)
    requires SortedBy(sorted, ByTime())
    ensures LatestParents(sorted, ParentMap(sorted))
  {
    if sorted != [] {
      var front, last := Front(sorted), Last(sorted);
      ParentMapLatest(front);
      assert sorted == front + [last];
      forall r | r in sorted
        ensures r.timestamp <= last.timestamp
      {
        var i :| 0 <= i < |sorted| && sorted[i] == r;
        assert i < |sorted| - 1 ==> ByTime()(sorted[i], sorted[|sorted| - 1]);
      }
      forall child | child in ParentMap(sorted)
        ensures LatestParent(sorted, child, ParentMap(sorted)[child])
      {
        if LinksChild(last, child) {
          assert last in sorted;
        } else {
          assert LatestParent(front, child, ParentMap(front)[child]);
          var r :| r in front && LinksChild(r, child) && r.parent == ParentMap(front)[child]
                   && forall q :: q in front && LinksChild(q, child) ==> q.timestamp <= r.timestamp;
          assert r in sorted;
        }
      }
    }
  }

  method BuildChildToParentMap(records: seq<Intent>) returns (mapping: map<string, string>)
    ensures mapping == ParentMap(Sort(records, ByTime())) && LatestParents(records, mapping)
  {
    var sorted := Sort(records, ByTime());
    mapping := map[];
    var i := 0;
    while i < |sorted|
      invariant i <= |sorted| && mapping == ParentMap(sorted[..i])
    {
      var record := sorted[i];
      assert Front(sorted[..i + 1]) == sorted[..i];
      i := i + 1;
      if !record.fired || !record.mode.Inherit? {
        continue;
      }
      if record.child.None? || record.child.value == "" {
        continue;
      }
      mapping := mapping[record.child.value := record.parent];
    }
    assert sorted[..i] == sorted;
    SortedParents(records);
  }

  lemma {:induction false} SortedParents(records: seq<Intent>)
    ensures LatestParents(records, ParentMap(Sort(records, ByTime())))
  {
    var sorted := Sort(records, ByTime());
    SortSorts(records, ByTime());
    SortPermutes(records, ByTime());
    SameMembers(sorted, records);
    ParentMapLatest(sorted);
    var m := ParentMap(sorted);
    forall child | child in m
      ensures LatestParent(records, child, m[child])
    {
      assert LatestParent(sorted, child, m[child]);
    }
  }
}
