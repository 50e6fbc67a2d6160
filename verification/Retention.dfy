/**
 How long deliberation memory keeps an artifact (memory.ts): the retention score, over exact reals, and
 the pruner that fills per-kind and total caps greedily. What the pruner keeps is an optimum over every
 list of artifacts that respects the caps and the admission rule.
 */
module Retention {
  import opened Prelude
  import opened Sorting

  datatype Kind = Repository | UserProfile | AgentProfile | LoopMemory

  datatype Scope = RepositoryScope | UserScope | AgentScope | LoopScope

  datatype Band = Hot | Warm | Cool

  datatype Snapshot = Snapshot(retentionScore: real, retrievalBias: real, decayFactor: real, ageDays: real,
                               evidenceCount: nat, sessionSpan: nat, band: Band)

  /** `retention` is the snapshot an earlier pass left in the metadata. */
  datatype Artifact = Artifact(id: string, kind: Kind, scope: Scope, confidence: real, lastValidatedAt: int,
                               evidence: nat, sessions: nat, retention: Option<Snapshot>)

  const DAY := 86_400_000.0
  const MAX_ARTIFACTS := 12

  function Cap(kind: Kind): nat {
    match kind
    case Repository => 3
    case UserProfile => 1
    case AgentProfile => 1
    case LoopMemory => 8
  }

  function Minimum(kind: Kind): real {
    match kind
    case Repository => 0.28
    case UserProfile => 0.42
    case AgentProfile => 0.4
    case LoopMemory => 0.3
  }

  function ScopeBias(scope: Scope): real {
    match scope
    case RepositoryScope => 1.0
    case UserScope => 0.94
    case AgentScope => 0.92
    case LoopScope => 0.86
  }

  function KindBias(kind: Kind): real {
    match kind
    case Repository => 1.0
    case UserProfile => 0.95
    case AgentProfile => 0.93
    case LoopMemory => 0.84
  }

  function Clamp(x: real, low: real, high: real): (r: real)
    requires low <= high
    ensures low <= r <= high
    ensures low <= x <= high ==> r == x
  {
    if x < low then low else if x > high then high else x
  }

  function Decay(kind: Kind, ageDays: real): real {
    if kind.LoopMemory? then Clamp(1.0 - ageDays / 180.0, 0.22, 1.0) else Clamp(1.0 - ageDays / 240.0, 0.28, 1.0)
  }

  function AgeDays(a: Artifact, now: int): real {
    (if now > a.lastValidatedAt then (now - a.lastValidatedAt) as real else 0.0) / DAY
  }

  function Weighted(a: Artifact, decay: real): real {
    a.confidence * 0.36 + decay * 0.24 + Clamp(a.evidence as real / 10.0, 0.24, 1.0) * 0.16
    + Clamp(a.sessions as real / 4.0, 0.3, 1.0) * 0.12 + ScopeBias(a.scope) * 0.07 + KindBias(a.kind) * 0.05
  }

  function Score(a: Artifact, now: int): real {
    Clamp(Weighted(a, Decay(a.kind, AgeDays(a, now))), 0.0, 1.0)
  }

  function TakeSnapshot(a: Artifact, now: int): Snapshot {
    var score := Score(a, now);
    var bias := Clamp(score * 0.7 + ScopeBias(a.scope) * 0.2 + KindBias(a.kind) * 0.1, 0.0, 1.0);
    Snapshot(score, bias, Decay(a.kind, AgeDays(a, now)), AgeDays(a, now), a.evidence, a.sessions,
             if score >= 0.78 then Hot else if score >= 0.58 then Warm else Cool)
  }

  function Annotate(a: Artifact, now: int): Artifact {
    a.(retention := Some(TakeSnapshot(a, now)))
  }

  function AnnotateAll(artifacts: seq<Artifact>, now: int): seq<Artifact> {
    seq(|artifacts|, i requires 0 <= i < |artifacts| => Annotate(artifacts[i], now))
  }

  function ReadRetention(a: Artifact, now: int): Snapshot {
    if a.retention.Some? then a.retention.value else TakeSnapshot(a, now)
  }

  /** Not worse and, at equal score, not validated earlier. */
  predicate Precedes(a: Artifact, b: Artifact, now: int) {
    var x, y := ReadRetention(a, now).retentionScore, ReadRetention(b, now).retentionScore;
    x > y || (x == y && a.lastValidatedAt >= b.lastValidatedAt)
  }

  function ByRetention(now: int): (Artifact, Artifact) -> bool {
    (a, b) => Precedes(a, b, now)
  }

  // ---------------------------------------------------------------- the score

  /** Waiting never raises a score; trust, evidence and sessions never lower it. */
  lemma {:induction false} ScoreMonotone(a: Artifact, b: Artifact, earlier: int, later: int)
    requires earlier <= later && a.kind == b.kind && a.scope == b.scope
    requires a.confidence <= b.confidence && a.evidence <= b.evidence && a.sessions <= b.sessions
    requires a.lastValidatedAt <= b.lastValidatedAt
    ensures 0.0 <= Score(a, later) <= Score(b, earlier) <= 1.0
  {
    DecayMonotone(a.kind, AgeDays(b, earlier), AgeDays(a, later));
    ClampMonotone(a.evidence as real / 10.0, b.evidence as real / 10.0, 0.24, 1.0);
    ClampMonotone(a.sessions as real / 4.0, b.sessions as real / 4.0, 0.3, 1.0);
    assert Weighted(a, Decay(a.kind, AgeDays(a, later))) <= Weighted(b, Decay(b.kind, AgeDays(b, earlier)));
  }

  function DecayFloor(kind: Kind): real {
    if kind.LoopMemory? then 0.22 else 0.28
  }

  /** Decay ends after 140.4 days for loop memory and 172.8 days for the other kinds, and not before. */
  lemma {:induction false} DecayBottomsOut(kind: Kind, ageDays: real)
    ensures Decay(kind, ageDays) == DecayFloor(kind) <==> ageDays >= if kind.LoopMemory? then 140.4 else 172.8
  {
  }

  /**
   An artifact that is never validated again stays at its kind's minimum or above exactly if its fully decayed weight
   does.
   */
  lemma {:induction false} StaysAdmissibleIff(a: Artifact)
    ensures (forall now :: Score(a, now) >= Minimum(a.kind)) <==> Weighted(a, DecayFloor(a.kind)) >= Minimum(a.kind)
  {
    var late := a.lastValidatedAt + 180 * 86_400_000;
    assert AgeDays(a, late) == 180.0;
    DecayBottomsOut(a.kind, AgeDays(a, late));
    if forall now :: Score(a, now) >= Minimum(a.kind) {
      assert Score(a, late) >= Minimum(a.kind);
    }
    forall now
      ensures Weighted(a, Decay(a.kind, AgeDays(a, now))) >= Weighted(a, DecayFloor(a.kind))
    {
      assert Decay(a.kind, AgeDays(a, now)) >= DecayFloor(a.kind);
    }
  }

  lemma {:induction false} DecayMonotone(kind: Kind, young: real, old_: real)
    requires young <= old_
    ensures Decay(kind, old_) <= Decay(kind, young)
  {
  }

  lemma {:induction false} ClampMonotone(x: real, y: real, low: real, high: real)
    requires x <= y && low <= high
    ensures Clamp(x, low, high) <= Clamp(y, low, high)
  {
  }

  // ---------------------------------------------------------------- feasible selections

  /** How many artifacts of a kind score at least `bar`. */
  function Count(s: seq<Artifact>, kind: Kind, bar: real, now: int): nat {
    if s == [] then 0
    else (if s[0].kind == kind && Score(s[0], now) >= bar then 1 else 0) + Count(s[1..], kind, bar, now)
  }

  /** How many artifacts of a kind there are. */
  function Kinds(s: seq<Artifact>, kind: Kind): nat {
    if s == [] then 0 else (if s[0].kind == kind then 1 else 0) + Kinds(s[1..], kind)
  }

  function Total(s: seq<Artifact>, now: int): real {
    if s == [] then 0.0 else Score(s[0], now) + Total(s[1..], now)
  }

  /** No artifact of its kind scores higher. */
  ghost predicate BestOfKind(all: seq<Artifact>, a: Artifact, now: int) {
    forall b :: b in all && b.kind == a.kind ==> Score(b, now) <= Score(a, now)
  }

  /** `a` may be kept: it reaches the minimum of its kind, or is the best and only one kept of its kind. */
  ghost predicate Admissible(all: seq<Artifact>, chosen: seq<Artifact>, a: Artifact, now: int) {
    Score(a, now) >= Minimum(a.kind) || (BestOfKind(all, a, now) && Kinds(chosen, a.kind) == 1)
  }

  /** A selection that respects the caps and the admission rule. */
  ghost predicate Feasible(all: seq<Artifact>, chosen: seq<Artifact>, now: int) {
    && multiset(chosen) <= multiset(all)
    && |chosen| <= MAX_ARTIFACTS
    && (forall kind :: Kinds(chosen, kind) <= Cap(kind))
    && (forall a :: a in chosen ==> Admissible(all, chosen, a, now))
  }

  /** A selection in which every artifact reaches its minimum or is a best of its kind, alone or not. */
  ghost predicate WidelyFeasible(all: seq<Artifact>, chosen: seq<Artifact>, now: int) {
    && multiset(chosen) <= multiset(all)
    && |chosen| <= MAX_ARTIFACTS
    && (forall kind :: Kinds(chosen, kind) <= Cap(kind))
    && (forall a :: a in chosen ==> Score(a, now) >= Minimum(a.kind) || BestOfKind(all, a, now))
  }

  /** `a` is a best of its kind, positive but below the minimum, and not the only one. */
  ghost predicate TiedBest(all: seq<Artifact>, a: Artifact, now: int) {
    && a in all && 0.0 < Score(a, now) < Minimum(a.kind) && BestOfKind(all, a, now)
    && Count(all, a.kind, Score(a, now), now) >= 2
  }

  /** No kind of which several may be kept has two artifacts tied for best below its minimum. */
  ghost predicate TieFree(all: seq<Artifact>, now: int) {
    forall a: Artifact :: Cap(a.kind) > 1 ==> !TiedBest(all, a, now)
  }

  // ---------------------------------------------------------------- counting

  function Above(a: Artifact, kind: Kind, bar: real, now: int): nat {
    if a.kind == kind && Score(a, now) >= bar then 1 else 0
  }

  lemma {:induction false} RemoveFacts(s: seq<Artifact>, i: nat, now: int)
    requires i < |s|
    ensures forall kind, bar :: Count(s, kind, bar, now) == Count(Remove(s, i), kind, bar, now)
                                                            + Above(s[i], kind, bar, now)
    ensures forall bar :: AtLeast(s, bar, now) == AtLeast(Remove(s, i), bar, now) + Above(s[i], s[i].kind, bar, now)
    ensures Total(s, now) == Total(Remove(s, i), now) + Score(s[i], now)
  {
    if i == 0 {
      assert Remove(s, 0) == s[1..];
    } else {
      RemoveFacts(s[1..], i - 1, now);
      assert Remove(s, i)[1..] == Remove(s[1..], i - 1);
    }
  }

  /** How many artifacts score at least `bar`. */
  function AtLeast(s: seq<Artifact>, bar: real, now: int): nat {
    if s == [] then 0 else (if Score(s[0], now) >= bar then 1 else 0) + AtLeast(s[1..], bar, now)
  }

  lemma {:induction false} AtLeastByKind(s: seq<Artifact>, bar: real, now: int)
    ensures AtLeast(s, bar, now) == Count(s, Repository, bar, now) + Count(s, UserProfile, bar, now)
                                    + Count(s, AgentProfile, bar, now) + Count(s, LoopMemory, bar, now)
  {
    if s != [] {
      AtLeastByKind(s[1..], bar, now);
    }
  }

  lemma {:induction false} AppendFacts(s: seq<Artifact>, a: Artifact, kind: Kind, bar: real, now: int)
    ensures Count(s + [a], kind, bar, now)
         == Count(s, kind, bar, now) + if a.kind == kind && Score(a, now) >= bar then 1 else 0
    ensures Kinds(s + [a], kind) == Kinds(s, kind) + if a.kind == kind then 1 else 0
  {
    if s == [] {
      assert (s + [a])[1..] == [];
    } else {
      AppendFacts(s[1..], a, kind, bar, now);
      assert (s + [a])[1..] == s[1..] + [a];
    }
  }

  lemma {:induction false} ConcatCount(s: seq<Artifact>, r: seq<Artifact>, kind: Kind, bar: real, now: int)
    ensures Count(s + r, kind, bar, now) == Count(s, kind, bar, now) + Count(r, kind, bar, now)
  {
    if s == [] {
      assert s + r == r;
    } else {
      ConcatCount(s[1..], r, kind, bar, now);
      assert (s + r)[1..] == s[1..] + r;
    }
  }

  lemma {:induction false} CountWithin(s: seq<Artifact>, kind: Kind, bar: real, now: int)
    ensures Count(s, kind, bar, now) <= Kinds(s, kind) <= |s|
    ensures (forall a :: a in s && a.kind == kind ==> Score(a, now) >= bar) ==>
              Count(s, kind, bar, now) == Kinds(s, kind)
    ensures (forall a :: a in s && a.kind == kind ==> Score(a, now) < bar) ==> Count(s, kind, bar, now) == 0
    ensures Count(s, kind, bar, now) > 0 ==> exists a :: a in s && a.kind == kind && Score(a, now) >= bar
  {
    if s != [] {
      CountWithin(s[1..], kind, bar, now);
      assert forall a :: a in s[1..] ==> a in s;
    }
  }

  lemma {:induction false} AtLeastWithin(s: seq<Artifact>, bar: real, now: int)
    ensures AtLeast(s, bar, now) <= |s|
    ensures (forall a :: a in s ==> Score(a, now) >= bar) ==> AtLeast(s, bar, now) == |s|
    ensures AtLeast(s, bar, now) > 0 ==> exists i :: 0 <= i < |s| && Score(s[i], now) >= bar
  {
    if s != [] {
      AtLeastWithin(s[1..], bar, now);
      assert forall a :: a in s[1..] ==> a in s;
      if i :| 0 <= i < |s[1..]| && Score(s[1..][i], now) >= bar {
        assert Score(s[i + 1], now) >= bar;
      }
    }
  }

  /** With a higher bar for every artifact of the kind the count does not change. */
  lemma {:induction false} CountRaise(s: seq<Artifact>, kind: Kind, bar: real, floor: real, now: int)
    requires forall a :: a in s && a.kind == kind ==> Score(a, now) >= floor
    ensures Count(s, kind, bar, now) == Count(s, kind, if bar > floor then bar else floor, now)
  {
    if s != [] {
      assert s[0] in s;
      CountRaise(s[1..], kind, bar, floor, now);
    }
  }

  lemma {:induction false} CountSub(a: seq<Artifact>, b: seq<Artifact>, kind: Kind, bar: real, now: int)
    requires multiset(a) <= multiset(b)
    ensures Count(a, kind, bar, now) <= Count(b, kind, bar, now)
  {
    if a != [] {
      var i := SubHead(a, b);
      RemoveFacts(b, i, now);
      CountSub(a[1..], Remove(b, i), kind, bar, now);
    }
  }

  lemma {:induction false} Best(s: seq<Artifact>, now: int) returns (i: nat)
    requires s != []
    ensures i < |s| && forall a :: a in s ==> Score(a, now) <= Score(s[i], now)
  {
    if |s| == 1 {
      i := 0;
    } else {
      var j := Best(s[1..], now);
      i := if Score(s[0], now) >= Score(s[1..][j], now) then 0 else j + 1;
      assert s == [s[0]] + s[1..];
    }
  }

  /** If, whatever the positive bar, `ys` has as many artifacts above it as `xs` or more, then `ys` totals as much. */
  lemma {:induction false} Dominates(xs: seq<Artifact>, ys: seq<Artifact>, now: int)
    requires forall bar :: bar > 0.0 ==> AtLeast(xs, bar, now) <= AtLeast(ys, bar, now)
    ensures Total(xs, now) <= Total(ys, now)
    decreases |xs| + |ys|
  {
    if xs == [] {
      if ys != [] {
        Dominates([], ys[1..], now);
      }
    } else {
      var i := Best(xs, now);
      RemoveFacts(xs, i, now);
      var top := Score(xs[i], now);
      if top == 0.0 {
        Dominates(Remove(xs, i), ys, now);
      } else {
        var j := BestAbove(ys, top, now, AtLeast(xs, top, now));
        RemoveFacts(ys, j, now);
        forall bar | bar > 0.0
          ensures AtLeast(Remove(xs, i), bar, now) <= AtLeast(Remove(ys, j), bar, now)
        {
          assert AtLeast(xs, bar, now) <= AtLeast(ys, bar, now);
          if bar > top {
            NoneAbove(xs, bar, now);
          }
        }
        Dominates(Remove(xs, i), Remove(ys, j), now);
      }
    }
  }

  lemma {:induction false} BestAbove(ys: seq<Artifact>, top: real, now: int, n: nat) returns (j: nat)
    requires 0 < n <= AtLeast(ys, top, now)
    ensures j < |ys| && Score(ys[j], now) >= top
  {
    AtLeastWithin(ys, top, now);
    j :| 0 <= j < |ys| && Score(ys[j], now) >= top;
  }

  lemma {:induction false} NoneAbove(s: seq<Artifact>, bar: real, now: int)
    requires forall a :: a in s ==> Score(a, now) < bar
    ensures AtLeast(s, bar, now) == 0
  {
    AtLeastWithin(s, bar, now);
  }

  // ---------------------------------------------------------------- the greedy invariant

  function Least(a: nat, b: nat): nat {
    if a < b then a else b
  }

  function Most(a: real, b: real): real {
    if a > b then a else b
  }

  /** Of those seen so far at or above `bar`, as many of a kind are selected as the caps and minima allow. */
  ghost predicate Saturates(seen: seq<Artifact>, selected: seq<Artifact>, kind: Kind, bar: real, now: int) {
    && Count(selected, kind, bar, now) >= Least(Cap(kind), Count(seen, kind, Most(bar, Minimum(kind)), now))
    && (Count(seen, kind, bar, now) > 0 ==> Count(selected, kind, bar, now) > 0)
  }

  /** The pruner's loop invariant after the first `i` artifacts in retention order. */
  ghost predicate Greedy(sorted: seq<Artifact>, i: nat, selected: seq<Artifact>, now: int)
    requires i <= |sorted|
  {
    && Feasible(sorted, selected, now)
    && multiset(selected) <= multiset(sorted[..i])
    && (forall kind, bar :: Saturates(sorted[..i], selected, kind, bar, now))
  }

  /** Artifacts carry their current retention. */
  ghost predicate Fresh(s: seq<Artifact>, now: int) {
    forall a :: a in s ==> a.retention == Some(TakeSnapshot(a, now))
  }

  /** Artifacts carry their current retention, best first. */
  ghost predicate Ranked(s: seq<Artifact>, now: int) {
    Fresh(s, now) && SortedBy(s, ByRetention(now))
  }

  lemma {:induction false} RankedScores(s: seq<Artifact>, i: nat, j: nat, now: int)
    requires Ranked(s, now) && i < j < |s|
    ensures Score(s[i], now) >= Score(s[j], now)
  {
    assert s[i] in s && s[j] in s;
    assert ByRetention(now)(s[i], s[j]);
  }

  /** What is selected so far precedes what is still to come. */
  lemma {:induction false} SelectedAhead(sorted: seq<Artifact>, i: nat, selected: seq<Artifact>, a: Artifact, now: int)
    requires Ranked(sorted, now) && i < |sorted| && multiset(selected) <= multiset(sorted[..i]) && a in selected
    ensures Score(a, now) >= Score(sorted[i], now) && ByRetention(now)(a, sorted[i])
  {
    assert a in multiset(selected);
    assert a in sorted[..i];
    var j :| 0 <= j < i && sorted[j] == a;
    RankedScores(sorted, j, i, now);
  }

  lemma {:induction false} AllAhead(sorted: seq<Artifact>, i: nat, selected: seq<Artifact>, kind: Kind, bar: real,
                                    now: int)
    requires Ranked(sorted, now) && i < |sorted| && multiset(selected) <= multiset(sorted[..i])
    requires bar <= Score(sorted[i], now)
    ensures Count(selected, kind, bar, now) == Kinds(selected, kind)
  {
    forall a | a in selected
      ensures Score(a, now) >= bar
    {
      SelectedAhead(sorted, i, selected, a, now);
    }
    CountWithin(selected, kind, bar, now);
  }

  predicate Admits(selected: seq<Artifact>, a: Artifact, now: int) {
    Kinds(selected, a.kind) < Cap(a.kind) && (Kinds(selected, a.kind) == 0 || Score(a, now) >= Minimum(a.kind))
  }

  /** One round of the loop. */
  function Consider(selected: seq<Artifact>, a: Artifact, now: int): seq<Artifact> {
    if Admits(selected, a, now) then selected + [a] else selected
  }

  lemma {:induction false} SaturationStep(sorted: seq<Artifact>, i: nat, selected: seq<Artifact>, kind: Kind,
                                          bar: real, now: int)
    requires Ranked(sorted, now) && i < |sorted| && Greedy(sorted, i, selected, now)
    ensures Saturates(sorted[..i + 1], Consider(selected, sorted[i], now), kind, bar, now)
  {
    var a := sorted[i];
    TakeOneMore(sorted, i);
    AppendFacts(sorted[..i], a, kind, bar, now);
    AppendFacts(sorted[..i], a, kind, Most(bar, Minimum(kind)), now);
    AppendFacts(selected, a, kind, bar, now);
    assert Saturates(sorted[..i], selected, kind, bar, now);
    if bar <= Score(a, now) {
      AllAhead(sorted, i, selected, kind, bar, now);
    }
  }

  /** The first artifact of its kind in retention order is the best of its kind. */
  lemma {:induction false} FirstIsBest(sorted: seq<Artifact>, i: nat, selected: seq<Artifact>, now: int)
    requires Ranked(sorted, now) && i < |sorted| && Greedy(sorted, i, selected, now)
    requires Kinds(selected, sorted[i].kind) == 0
    ensures BestOfKind(sorted, sorted[i], now)
  {
    var a := sorted[i];
    forall b | b in sorted && b.kind == a.kind
      ensures Score(b, now) <= Score(a, now)
    {
      var j :| 0 <= j < |sorted| && sorted[j] == b;
      if j < i {
        assert Saturates(sorted[..i], selected, a.kind, Score(b, now), now);
        assert sorted[..i][j] == b;
        CountMember(sorted[..i], j, now);
        CountWithin(selected, a.kind, Score(b, now), now);
        assert false;
      } else if j > i {
        RankedScores(sorted, i, j, now);
      }
    }
  }

  lemma {:induction false} CountMember(s: seq<Artifact>, j: nat, now: int)
    requires j < |s|
    ensures Count(s, s[j].kind, Score(s[j], now), now) > 0
  {
    RemoveFacts(s, j, now);
  }

  lemma {:induction false} FeasiblePush(sorted: seq<Artifact>, i: nat, selected: seq<Artifact>, now: int)
    requires Ranked(sorted, now) && i < |sorted| && Greedy(sorted, i, selected, now)
    requires |selected| < MAX_ARTIFACTS && Admits(selected, sorted[i], now)
    ensures Feasible(sorted, selected + [sorted[i]], now)
    ensures multiset(selected + [sorted[i]]) <= multiset(sorted[..i + 1]) <= multiset(sorted)
  {
    var a := sorted[i];
    var next := selected + [a];
    TakeOneMore(sorted, i);
    assert sorted == sorted[..i + 1] + sorted[i + 1..];
    forall kind
      ensures Kinds(next, kind) == Kinds(selected, kind) + if kind == a.kind then 1 else 0
    {
      AppendFacts(selected, a, kind, 0.0, now);
    }
    forall b | b in next
      ensures Admissible(sorted, next, b, now)
    {
      if b in selected {
        assert Admissible(sorted, selected, b, now);
        SelectedAhead(sorted, i, selected, b, now);
        KindsMember(selected, b);
      } else if Kinds(selected, a.kind) == 0 {
        FirstIsBest(sorted, i, selected, now);
      }
    }
  }

  lemma {:induction false} KindsMember(s: seq<Artifact>, a: Artifact)
    requires a in s
    ensures Kinds(s, a.kind) > 0
  {
    if s[0] != a {
      KindsMember(s[1..], a);
    }
  }

  lemma {:induction false} GreedyStep(sorted: seq<Artifact>, i: nat, selected: seq<Artifact>, now: int)
    requires Ranked(sorted, now) && i < |sorted| && Greedy(sorted, i, selected, now) && |selected| < MAX_ARTIFACTS
    requires SortedBy(selected, ByRetention(now))
    ensures Greedy(sorted, i + 1, Consider(selected, sorted[i], now), now)
    ensures SortedBy(Consider(selected, sorted[i], now), ByRetention(now))
    ensures ReadRetention(sorted[i], now).retentionScore == Score(sorted[i], now)
  {
    var a, seen, next := sorted[i], sorted[..i + 1], Consider(selected, sorted[i], now);
    forall kind, bar
      ensures Saturates(seen, next, kind, bar, now)
    {
      SaturationStep(sorted, i, selected, kind, bar, now);
    }
    if Admits(selected, a, now) {
      FeasiblePush(sorted, i, selected, now);
      forall j | 0 <= j < |selected|
        ensures ByRetention(now)(selected[j], a)
      {
        SelectedAhead(sorted, i, selected, selected[j], now);
      }
    } else {
      TakeOneMore(sorted, i);
    }
  }

  // ---------------------------------------------------------------- optimality

  /** Once the whole list is seen down to `bar`, no feasible selection has more of a kind above the bar. */
  lemma {:induction false} KindDominated(sorted: seq<Artifact>, i: nat, selected: seq<Artifact>, chosen: seq<Artifact>,
                                         kind: Kind, bar: real, now: int)
    requires i <= |sorted| && Greedy(sorted, i, selected, now) && Feasible(sorted, chosen, now)
    requires forall a :: a in sorted[i..] ==> Score(a, now) < bar
    ensures Count(chosen, kind, bar, now) <= Count(selected, kind, bar, now)
  {
    var high := Most(bar, Minimum(kind));
    SeenCount(sorted, i, kind, bar, bar, now);
    SeenCount(sorted, i, kind, bar, high, now);
    CountSub(chosen, sorted, kind, bar, now);
    CountSub(chosen, sorted, kind, high, now);
    CountWithin(chosen, kind, bar, now);
    assert Saturates(sorted[..i], selected, kind, bar, now);
    if a :| a in chosen && a.kind == kind && Score(a, now) < Minimum(kind) {
      assert Admissible(sorted, chosen, a, now);
    } else {
      CountRaise(chosen, kind, bar, Minimum(kind), now);
    }
  }

  lemma {:induction false} SeenCount(sorted: seq<Artifact>, i: nat, kind: Kind, bar: real, high: real, now: int)
    requires i <= |sorted| && bar <= high && forall a :: a in sorted[i..] ==> Score(a, now) < bar
    ensures Count(sorted, kind, high, now) == Count(sorted[..i], kind, high, now)
  {
    assert sorted == sorted[..i] + sorted[i..];
    ConcatCount(sorted[..i], sorted[i..], kind, high, now);
    CountWithin(sorted[i..], kind, high, now);
  }

  /** Once something selected is below the bar, so is everything still to come. */
  lemma {:induction false} RestBelow(sorted: seq<Artifact>, i: nat, selected: seq<Artifact>, bar: real, now: int)
    requires Ranked(sorted, now) && i <= |sorted| && multiset(selected) <= multiset(sorted[..i])
    requires i == |sorted| || exists a :: a in selected && Score(a, now) < bar
    ensures forall b :: b in sorted[i..] ==> Score(b, now) < bar
  {
    forall b | b in sorted[i..]
      ensures Score(b, now) < bar
    {
      var j :| i <= j < |sorted| && sorted[j] == b;
      var a :| a in selected && Score(a, now) < bar;
      SelectedAhead(sorted, i, selected, a, now);
      if i < j {
        RankedScores(sorted, i, j, now);
      }
    }
  }

  lemma {:induction false} BarDominated(sorted: seq<Artifact>, i: nat, selected: seq<Artifact>, chosen: seq<Artifact>,
                                        bar: real, now: int)
    requires Ranked(sorted, now) && i <= |sorted| && Greedy(sorted, i, selected, now) && Feasible(sorted, chosen, now)
    requires i == |sorted| || |selected| == MAX_ARTIFACTS
    ensures AtLeast(chosen, bar, now) <= AtLeast(selected, bar, now)
  {
    AtLeastWithin(chosen, bar, now);
    AtLeastWithin(selected, bar, now);
    if i == |sorted| || exists a :: a in selected && Score(a, now) < bar {
      RestBelow(sorted, i, selected, bar, now);
      forall kind
        ensures Count(chosen, kind, bar, now) <= Count(selected, kind, bar, now)
      {
        KindDominated(sorted, i, selected, chosen, kind, bar, now);
      }
      AtLeastByKind(chosen, bar, now);
      AtLeastByKind(selected, bar, now);
    }
  }

  /** Greedy selection is optimal: the exchange argument of a truncated partition matroid. */
  lemma {:induction false} GreedyOptimal(sorted: seq<Artifact>, i: nat, selected: seq<Artifact>, chosen: seq<Artifact>,
                                         now: int)
    requires Ranked(sorted, now) && i <= |sorted| && Greedy(sorted, i, selected, now) && Feasible(sorted, chosen, now)
    requires i == |sorted| || |selected| == MAX_ARTIFACTS
    ensures Total(chosen, now) <= Total(selected, now)
  {
    forall bar | bar > 0.0
      ensures AtLeast(chosen, bar, now) <= AtLeast(selected, bar, now)
    {
      BarDominated(sorted, i, selected, chosen, bar, now);
    }
    Dominates(chosen, selected, now);
  }

  // ---------------------------------------------------------------- the wider class of selections

  lemma {:induction false} CountLower(s: seq<Artifact>, kind: Kind, bar: real, high: real, now: int)
    requires bar <= high
    ensures Count(s, kind, high, now) <= Count(s, kind, bar, now)
  {
    if s != [] {
      CountLower(s[1..], kind, bar, high, now);
    }
  }

  /** Without ties, a widely feasible selection has at most one artifact of a kind whose best is below the minimum. */
  lemma {:induction false} LowKindSingle(all: seq<Artifact>, chosen: seq<Artifact>, a: Artifact, bar: real, now: int)
    requires WidelyFeasible(all, chosen, now) && TieFree(all, now) && bar > 0.0
    requires a in chosen && Score(a, now) < Minimum(a.kind)
    ensures Count(chosen, a.kind, bar, now) <= 1
  {
    CountWithin(chosen, a.kind, bar, now);
    if Cap(a.kind) > 1 {
      var best := Score(a, now);
      var high := Most(bar, best);
      MemberOf(chosen, all, a);
      forall b | b in chosen && b.kind == a.kind
        ensures Score(b, now) >= best
      {
        MemberOf(chosen, all, b);
      }
      CountRaise(chosen, a.kind, bar, best, now);
      CountSub(chosen, all, a.kind, high, now);
      CountLower(all, a.kind, best, high, now);
      if best <= 0.0 {
        CountWithin(all, a.kind, high, now);
      } else {
        assert !TiedBest(all, a, now);
      }
    }
  }

  lemma {:induction false} MemberOf<T>(a: seq<T>, b: seq<T>, x: T)
    requires multiset(a) <= multiset(b) && x in a
    ensures x in b
  {
    assert x in multiset(a);
    assert x in multiset(b);
  }

  lemma {:induction false} WideKindDominated(sorted: seq<Artifact>, i: nat, selected: seq<Artifact>,
                                             chosen: seq<Artifact>,
                                             kind: Kind, bar: real, now: int)
    requires i <= |sorted| && Greedy(sorted, i, selected, now) && WidelyFeasible(sorted, chosen, now)
    requires TieFree(sorted, now) && bar > 0.0 && forall a :: a in sorted[i..] ==> Score(a, now) < bar
    ensures Count(chosen, kind, bar, now) <= Count(selected, kind, bar, now)
  {
    var high := Most(bar, Minimum(kind));
    SeenCount(sorted, i, kind, bar, bar, now);
    SeenCount(sorted, i, kind, bar, high, now);
    CountSub(chosen, sorted, kind, bar, now);
    CountSub(chosen, sorted, kind, high, now);
    CountWithin(chosen, kind, bar, now);
    assert Saturates(sorted[..i], selected, kind, bar, now);
    if a :| a in chosen && a.kind == kind && Score(a, now) < Minimum(kind) {
      LowKindSingle(sorted, chosen, a, bar, now);
    } else {
      CountRaise(chosen, kind, bar, Minimum(kind), now);
    }
  }

  lemma {:induction false} WideBarDominated(sorted: seq<Artifact>, i: nat, selected: seq<Artifact>,
                                            chosen: seq<Artifact>,
                                            bar: real, now: int)
    requires Ranked(sorted, now) && i <= |sorted| && Greedy(sorted, i, selected, now)
    requires WidelyFeasible(sorted, chosen, now) && TieFree(sorted, now) && bar > 0.0
    requires i == |sorted| || |selected| == MAX_ARTIFACTS
    ensures AtLeast(chosen, bar, now) <= AtLeast(selected, bar, now)
  {
    AtLeastWithin(chosen, bar, now);
    AtLeastWithin(selected, bar, now);
    if i == |sorted| || exists a :: a in selected && Score(a, now) < bar {
      RestBelow(sorted, i, selected, bar, now);
      forall kind
        ensures Count(chosen, kind, bar, now) <= Count(selected, kind, bar, now)
      {
        WideKindDominated(sorted, i, selected, chosen, kind, bar, now);
      }
      AtLeastByKind(chosen, bar, now);
      AtLeastByKind(selected, bar, now);
    }
  }

  /** Without ties the greedy selection is optimal in the wider class, too. */
  lemma {:induction false} WidelyOptimal(sorted: seq<Artifact>, i: nat, selected: seq<Artifact>, chosen: seq<Artifact>,
                                         now: int)
    requires Ranked(sorted, now) && i <= |sorted| && Greedy(sorted, i, selected, now)
    requires WidelyFeasible(sorted, chosen, now) && TieFree(sorted, now)
    requires i == |sorted| || |selected| == MAX_ARTIFACTS
    ensures Total(chosen, now) <= Total(selected, now)
  {
    forall bar | bar > 0.0
      ensures AtLeast(chosen, bar, now) <= AtLeast(selected, bar, now)
    {
      WideBarDominated(sorted, i, selected, chosen, bar, now);
    }
    Dominates(chosen, selected, now);
  }

  lemma {:induction false} SizeByKind(s: seq<Artifact>)
    ensures |s| == Kinds(s, Repository) + Kinds(s, UserProfile) + Kinds(s, AgentProfile) + Kinds(s, LoopMemory)
  {
    if s != [] {
      SizeByKind(s[1..]);
    }
  }

  lemma {:induction false} TotalAppend(s: seq<Artifact>, a: Artifact, now: int)
    ensures Total(s + [a], now) == Total(s, now) + Score(a, now)
  {
    if s == [] {
      assert (s + [a])[1..] == [];
    } else {
      TotalAppend(s[1..], a, now);
      assert (s + [a])[1..] == s[1..] + [a];
    }
  }

  lemma {:induction false} CopiesWithinKind(s: seq<Artifact>, x: Artifact, y: Artifact)
    requires x.kind == y.kind
    ensures multiset(s)[x] <= Kinds(s, x.kind)
    ensures x != y ==> multiset(s)[x] + multiset(s)[y] <= Kinds(s, x.kind)
  {
    if s != [] {
      CopiesWithinKind(s[1..], x, y);
      HeadCount(s, x);
      HeadCount(s, y);
    }
  }

  lemma {:induction false} HeadCount<T>(s: seq<T>, x: T)
    requires s != []
    ensures multiset(s)[x] == multiset(s[1..])[x] + if s[0] == x then 1 else 0
  {
    TailMultiset(s);
    assert s[0] in s;
  }

  /** Two artifacts counted above a bar are two artifacts, or two copies of one. */
  lemma {:induction false} TwoAbove(s: seq<Artifact>, kind: Kind, bar: real, now: int)
    returns (x: Artifact, y: Artifact)
    requires Count(s, kind, bar, now) >= 2
    ensures x in s && y in s && x.kind == kind == y.kind && Score(x, now) >= bar && Score(y, now) >= bar
    ensures x == y ==> multiset(s)[x] >= 2
  {
    if s[0].kind == kind && Score(s[0], now) >= bar {
      CountWithin(s[1..], kind, bar, now);
      x := s[0];
      y :| y in s[1..] && y.kind == kind && Score(y, now) >= bar;
      HeadCount(s, x);
    } else {
      x, y := TwoAbove(s[1..], kind, bar, now);
      HeadCount(s, x);
    }
  }

  /** Of the tied artifacts there is one that the selection has left. */
  lemma {:induction false} LeftOver(all: seq<Artifact>, kept: seq<Artifact>, a: Artifact, now: int)
    returns (b: Artifact)
    requires TiedBest(all, a, now) && Kinds(kept, a.kind) <= 1
    ensures b in all && b.kind == a.kind && Score(b, now) == Score(a, now) && multiset(kept)[b] < multiset(all)[b]
  {
    var x, y := TwoAbove(all, a.kind, Score(a, now), now);
    CopiesWithinKind(kept, x, y);
    assert multiset(all)[x] > 0 && multiset(all)[y] > 0;
    b := if multiset(kept)[x] < multiset(all)[x] then x else y;
  }

  lemma {:induction false} LowKindKept(all: seq<Artifact>, kept: seq<Artifact>, a: Artifact, now: int)
    requires Feasible(all, kept, now) && TiedBest(all, a, now)
    ensures Kinds(kept, a.kind) <= 1
  {
    if Kinds(kept, a.kind) > 0 {
      CountWithin(kept, a.kind, 0.0, now);
      var b :| b in kept && b.kind == a.kind;
      MemberOf(kept, all, b);
      assert Admissible(all, kept, b, now);
    }
  }

  /** A tie makes the selection beatable: another of the tied artifacts can be added. */
  lemma {:induction false} TieBeats(all: seq<Artifact>, kept: seq<Artifact>, a: Artifact, now: int)
    returns (chosen: seq<Artifact>)
    requires Feasible(all, kept, now) && TiedBest(all, a, now) && Cap(a.kind) > 1
    ensures WidelyFeasible(all, chosen, now) && Total(chosen, now) > Total(kept, now)
  {
    LowKindKept(all, kept, a, now);
    var b := LeftOver(all, kept, a, now);
    chosen := kept + [b];
    SizeByKind(kept);
    TotalAppend(kept, b, now);
    AddOne(all, kept, b);
    forall kind
      ensures Kinds(chosen, kind) <= Cap(kind)
    {
      AppendFacts(kept, b, kind, 0.0, now);
    }
    forall c | c in chosen
      ensures Score(c, now) >= Minimum(c.kind) || BestOfKind(all, c, now)
    {
      if c in kept {
        assert Admissible(all, kept, c, now);
      }
    }
  }

  lemma {:induction false} AddOne<T>(all: seq<T>, kept: seq<T>, b: T)
    requires multiset(kept) <= multiset(all) && multiset(kept)[b] < multiset(all)[b]
    ensures multiset(kept + [b]) <= multiset(all)
  {
    forall x
      ensures multiset(kept + [b])[x] <= multiset(all)[x]
    {
      PushCount(kept, b, x);
    }
  }

  // ---------------------------------------------------------------- the pruner

  lemma {:induction false} RetentionOrder(now: int)
    ensures TotalPreorder(ByRetention(now))
  {
  }

  lemma {:induction false} RankInput(artifacts: seq<Artifact>, now: int)
    ensures var sorted := Sort(AnnotateAll(artifacts, now), ByRetention(now));
            Ranked(sorted, now) && multiset(sorted) == multiset(AnnotateAll(artifacts, now))
  {
    var annotated := AnnotateAll(artifacts, now);
    RetentionOrder(now);
    SortSorts(annotated, ByRetention(now));
    SortPermutes(annotated, ByRetention(now));
    AnnotatedFresh(artifacts, now);
    KeepsFresh(annotated, Sort(annotated, ByRetention(now)), now);
  }

  lemma {:induction false} AnnotatedFresh(artifacts: seq<Artifact>, now: int)
    ensures Fresh(AnnotateAll(artifacts, now), now)
  {
    forall a | a in AnnotateAll(artifacts, now)
      ensures a.retention == Some(TakeSnapshot(a, now))
    {
      var i :| 0 <= i < |artifacts| && a == Annotate(artifacts[i], now);
    }
  }

  lemma {:induction false} KeepsFresh(annotated: seq<Artifact>, sorted: seq<Artifact>, now: int)
    requires multiset(sorted) == multiset(annotated) && Fresh(annotated, now)
    ensures Fresh(sorted, now)
  {
    SameMembers(sorted, annotated);
  }

  /** Feasibility does not depend on the order of the artifacts. */
  lemma {:induction false} FeasibleOrder(all: seq<Artifact>, sorted: seq<Artifact>, chosen: seq<Artifact>, now: int)
    requires multiset(sorted) == multiset(all)
    ensures Feasible(all, chosen, now) <==> Feasible(sorted, chosen, now)
  {
    SameMembers(sorted, all);
    forall a
      ensures Admissible(all, chosen, a, now) <==> Admissible(sorted, chosen, a, now)
    {
      assert BestOfKind(all, a, now) <==> BestOfKind(sorted, a, now);
    }
  }

  /** Nor do the wider notion and the absence of ties. */
  lemma {:induction false} WideOrder(all: seq<Artifact>, sorted: seq<Artifact>, now: int)
    requires multiset(sorted) == multiset(all)
    ensures forall chosen :: WidelyFeasible(all, chosen, now) <==> WidelyFeasible(sorted, chosen, now)
    ensures TieFree(all, now) <==> TieFree(sorted, now)
  {
    SameMembers(sorted, all);
    forall a
      ensures BestOfKind(all, a, now) <==> BestOfKind(sorted, a, now)
    {
    }
    forall a
      ensures TiedBest(all, a, now) <==> TiedBest(sorted, a, now)
    {
      CountSub(all, sorted, a.kind, Score(a, now), now);
      CountSub(sorted, all, a.kind, Score(a, now), now);
    }
  }

  function CountOf(counts: map<Kind, nat>, kind: Kind): nat {
    if kind in counts then counts[kind] else 0
  }

  ghost predicate Counts(counts: map<Kind, nat>, selected: seq<Artifact>) {
    forall kind :: CountOf(counts, kind) == Kinds(selected, kind)
  }

  lemma {:induction false} CountPush(counts: map<Kind, nat>, selected: seq<Artifact>, a: Artifact)
    requires Counts(counts, selected)
    ensures Counts(counts[a.kind := CountOf(counts, a.kind) + 1], selected + [a])
  {
    forall kind
      ensures Kinds(selected + [a], kind) == Kinds(selected, kind) + if kind == a.kind then 1 else 0
    {
      AppendFacts(selected, a, kind, 0.0, 0);
    }
  }

  /** The two guards of the walk. */
  method Decide(artifact: Artifact, kindCounts: map<Kind, nat>, now: int, ghost selected: seq<Artifact>)
    returns (keep: bool)
    requires Counts(kindCounts, selected) && ReadRetention(artifact, now).retentionScore == Score(artifact, now)
    ensures keep <==> Admits(selected, artifact, now)
  {
    var count := CountOf(kindCounts, artifact.kind);
    if count >= Cap(artifact.kind) {
      return false;
    }
    if count > 0 && ReadRetention(artifact, now).retentionScore < Minimum(artifact.kind) {
      return false;
    }
    keep := true;
  }

  /** Where the walk stands after `i` artifacts. */
  ghost predicate Walked(sorted: seq<Artifact>, i: nat, selected: seq<Artifact>, counts: map<Kind, nat>, now: int) {
    i <= |sorted| && Greedy(sorted, i, selected, now) && SortedBy(selected, ByRetention(now))
      && Counts(counts, selected)
  }

  /** One round of the walk. */
  method Visit(sorted: seq<Artifact>, i: nat, selected0: seq<Artifact>, counts0: map<Kind, nat>, now: int)
    returns (selected: seq<Artifact>, counts: map<Kind, nat>)
    requires Ranked(sorted, now) && i < |sorted| && Walked(sorted, i, selected0, counts0, now)
    requires |selected0| < MAX_ARTIFACTS
    ensures Walked(sorted, i + 1, selected, counts, now)
  {
    GreedyStep(sorted, i, selected0, now);
    selected, counts := selected0, counts0;
    var keep := Decide(sorted[i], counts, now, selected);
    if keep {
      CountPush(counts, selected, sorted[i]);
      selected := selected + [sorted[i]];
      counts := counts[sorted[i].kind := CountOf(counts, sorted[i].kind) + 1];
    }
  }

  /** The walk over the artifacts in retention order. */
  method Select(sorted: seq<Artifact>, now: int) returns (selected: seq<Artifact>, ghost seen: nat)
    requires Ranked(sorted, now)
    ensures seen <= |sorted| && Greedy(sorted, seen, selected, now) && SortedBy(selected, ByRetention(now))
    ensures seen == |sorted| || |selected| == MAX_ARTIFACTS
  {
    selected := [];
    var kindCounts: map<Kind, nat> := map[];
    var i := 0;
    NothingWalked(sorted, now);
    while i < |sorted|
      invariant Walked(sorted, i, selected, kindCounts, now) && |selected| < MAX_ARTIFACTS
    {
      selected, kindCounts := Visit(sorted, i, selected, kindCounts, now);
      i := i + 1;
      if |selected| >= MAX_ARTIFACTS {
        break;
      }
    }
    seen := i;
  }

  lemma {:induction false} NothingWalked(sorted: seq<Artifact>, now: int)
    ensures Walked(sorted, 0, [], map[], now)
  {
    assert sorted[..0] == [];
  }

  /** `pruneDeliberationMemoryArtifacts`. */
  method Prune(artifacts: seq<Artifact>, now: int) returns (kept: seq<Artifact>)
    ensures Feasible(AnnotateAll(artifacts, now), kept, now)
    ensures forall chosen :: Feasible(AnnotateAll(artifacts, now), chosen, now) ==>
              Total(chosen, now) <= Total(kept, now)
    ensures (forall chosen :: WidelyFeasible(AnnotateAll(artifacts, now), chosen, now) ==>
               Total(chosen, now) <= Total(kept, now))
            <==> TieFree(AnnotateAll(artifacts, now), now)
    ensures SortedBy(kept, ByRetention(now))
  {
    var annotated := AnnotateAll(artifacts, now);
    var sorted := Sort(annotated, ByRetention(now));
    RankInput(artifacts, now);
    ghost var seen;
    kept, seen := Select(sorted, now);
    SortIdle(kept, ByRetention(now));
    kept := Sort(kept, ByRetention(now));
    FeasibleOrder(annotated, sorted, kept, now);
    forall chosen | Feasible(annotated, chosen, now)
      ensures Total(chosen, now) <= Total(kept, now)
    {
      FeasibleOrder(annotated, sorted, chosen, now);
      GreedyOptimal(sorted, seen, kept, chosen, now);
    }
    OptimalIffTieFree(annotated, sorted, seen, kept, now);
  }

  /** The exact condition for optimality among all selections of artifacts that reach their minimum or are best. */
  lemma {:induction false} OptimalIffTieFree(all: seq<Artifact>, sorted: seq<Artifact>, i: nat, kept: seq<Artifact>,
                                             now: int)
    requires Ranked(sorted, now) && multiset(sorted) == multiset(all) && i <= |sorted|
    requires Greedy(sorted, i, kept, now) && (i == |sorted| || |kept| == MAX_ARTIFACTS)
    ensures (forall chosen :: WidelyFeasible(all, chosen, now) ==> Total(chosen, now) <= Total(kept, now)) <==>
              TieFree(all, now)
  {
    WideOrder(all, sorted, now);
    if TieFree(all, now) {
      forall chosen | WidelyFeasible(all, chosen, now)
        ensures Total(chosen, now) <= Total(kept, now)
      {
        WidelyOptimal(sorted, i, kept, chosen, now);
      }
    } else {
      var a: Artifact :| Cap(a.kind) > 1 && TiedBest(all, a, now);
      FeasibleOrder(all, sorted, kept, now);
      var chosen := TieBeats(all, kept, a, now);
      assert WidelyFeasible(all, chosen, now);
    }
  }

  /** Such a tie: two loop memories without support, half a year old. The pruner keeps one of them. */
  lemma {:induction false} TieExists() returns (artifacts: seq<Artifact>, now: int)
    ensures !TieFree(AnnotateAll(artifacts, now), now)
  {
    now := 180 * 86_400_000;
    var a := Artifact("a", LoopMemory, LoopScope, 0.0, 0, 0, 0, None);
    var b := a.(id := "b");
    artifacts := [a, b];
    var all := AnnotateAll(artifacts, now);
    assert all == [Annotate(a, now), Annotate(b, now)] && all[1..] == [Annotate(b, now)] && all[1..][1..] == [];
    assert AgeDays(a, now) == 180.0;
    assert Score(all[0], now) == Score(all[1], now) == 0.2294;
    assert Count(all[1..], LoopMemory, 0.2294, now) == 1;
    assert TiedBest(all, all[0], now);
  }
}
