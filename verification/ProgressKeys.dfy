/**
 Progress keys of optimization.ts: how run and iteration keys are read, and the comparators on them and on
 records. `locale` stands for `localeCompare`, an arbitrary comparator on strings.
 */
module ProgressKeys {
  import opened Prelude

  // ---------------------------------------------------------------- reading keys

  /** A trimmed text, if anything is left of it. */
  function ReadString(value: Option<string>): Option<string> {
    if value.Some? && Trim(value.value) != "" then Some(Trim(value.value)) else None
  }

  function Split(s: string): seq<string> {
    if s == "" then [""]
    else if s[0] == '/' then [""] + Split(s[1..])
    else [[s[0]] + Split(s[1..])[0]] + Split(s[1..])[1..]
  }

  predicate IsDigit(c: char) {
    '0' <= c <= '9'
  }

  predicate AllDigits(s: string) {
    forall i :: 0 <= i < |s| ==> IsDigit(s[i])
  }

  function LeadingDigits(s: string): string {
    if s == "" || !IsDigit(s[0]) then "" else [s[0]] + LeadingDigits(s[1..])
  }

  function ParseInt(s: string): nat
    requires AllDigits(s)
  {
    if s == "" then 0 else ParseInt(Front(s)) * 10 + (Last(s) as int - '0' as int)
  }

  predicate IsRun(segment: string) {
    "run-" <= segment && |segment| > 4
  }

  predicate IsIteration(segment: string) {
    "iter-" <= segment && |segment| > 5 && IsDigit(segment[5])
  }

  /** The label of the first segment of the form run-LABEL. */
  function RunLabel(segments: seq<string>): Option<string> {
    if segments == [] then None
    else if IsRun(segments[0]) then Some(segments[0][4..])
    else RunLabel(segments[1..])
  }

  /** The number of the first segment that starts with iter- and a digit. */
  function IterationDigits(segments: seq<string>): Option<string> {
    if segments == [] then None
    else if IsIteration(segments[0]) then Some(LeadingDigits(segments[0][5..]))
    else IterationDigits(segments[1..])
  }

  lemma {:induction false} LeadingAreDigits(s: string)
    ensures AllDigits(LeadingDigits(s))
  {
    if s != "" && IsDigit(s[0]) {
      LeadingAreDigits(s[1..]);
    }
  }

  lemma {:induction false} IterationAreDigits(segments: seq<string>)
    ensures IterationDigits(segments).Some? ==> AllDigits(IterationDigits(segments).value)
  {
    if segments != [] {
      if IsIteration(segments[0]) {
        LeadingAreDigits(segments[0][5..]);
      } else {
        IterationAreDigits(segments[1..]);
      }
    }
  }

  predicate EndsWith(s: string, suffix: string) {
    |suffix| <= |s| && s[|s| - |suffix|..] == suffix
  }

  datatype Key = Key(runIndex: Option<nat>, runLabel: Option<string>, stageRank: nat, stageIndex: Option<nat>,
                     rawKey: string)

  /** `parseLineageProgressKey`. */
  function Parse(runKey: Option<string>, iterationKey: Option<string>): Option<Key> {
    var iteration, run := ReadString(iterationKey), ReadString(runKey);
    if iteration.None? && run.None? then None
    else
      var source := if iteration.Some? then iteration.value else run.value;
      var found := RunLabel(Split(source));
      var name := if found.Some? then Some(Trim(found.value)) else None;
      var index := if name.Some? && name.value != "" && AllDigits(name.value) then Some(ParseInt(name.value)) else None;
      if iteration.None? then Some(Key(index, name, 3, None, run.value))
      else if EndsWith(iteration.value, "/baseline") then Some(Key(index, name, 0, Some(0), iteration.value))
      else
        var digits := IterationDigits(Split(iteration.value));
        IterationAreDigits(Split(iteration.value));
        if digits.Some? then Some(Key(index, name, 1, Some(ParseInt(digits.value)), iteration.value))
        else Some(Key(index, name, 2, None, iteration.value))
  }

  // ---------------------------------------------------------------- canonical keys read back

  function Digits(n: nat): (s: string)
    ensures s != "" && AllDigits(s) && ParseInt(s) == n
  {
    var last := [('0' as int + n % 10) as char];
    if n < 10 then
      assert Front(last) == "";
      last
    else
      var s := Digits(n / 10) + last;
      assert Front(s) == Digits(n / 10);
      s
  }

  lemma {:induction false} SplitConcat(a: string, b: string)
    ensures Split(a + "/" + b) == Split(a) + Split(b)
  {
    if a == "" {
      assert (a + "/" + b)[1..] == b;
    } else {
      assert (a + "/" + b)[1..] == a[1..] + "/" + b;
      SplitConcat(a[1..], b);
    }
  }

  lemma {:induction false} SplitPlain(s: string)
    requires '/' !in s
    ensures Split(s) == [s]
  {
    if s != "" {
      assert s == [s[0]] + s[1..];
      SplitPlain(s[1..]);
    }
  }

  lemma {:induction false} DigitsLead(s: string)
    requires AllDigits(s)
    ensures LeadingDigits(s) == s && Trim(s) == s && '/' !in s
  {
    if s != "" {
      DigitsLead(s[1..]);
      assert IsDigit(s[0]) && IsDigit(Last(s));
    }
  }

  lemma {:induction false} SkipSegments(a: seq<string>, b: seq<string>)
    requires forall i :: 0 <= i < |a| ==> !IsRun(a[i]) && !IsIteration(a[i])
    ensures RunLabel(a + b) == RunLabel(b) && IterationDigits(a + b) == IterationDigits(b)
  {
    if a == [] {
      assert a + b == b;
    } else {
      assert (a + b)[1..] == a[1..] + b;
      SkipSegments(a[1..], b);
    }
  }

  function Canonical(loop: string, run: nat, iteration: nat): string {
    loop + "/" + (("run-" + Digits(run)) + "/" + ("iter-" + Digits(iteration)))
  }

  lemma {:induction false} CanonicalSegments(loop: string, run: nat, iteration: nat)
    ensures Split(Canonical(loop, run, iteration)) == Split(loop) + ["run-" + Digits(run), "iter-" + Digits(iteration)]
  {
    var a, b := "run-" + Digits(run), "iter-" + Digits(iteration);
    DigitsLead(Digits(run));
    DigitsLead(Digits(iteration));
    SplitPlain(a);
    SplitPlain(b);
    SplitConcat(a, b);
    SplitConcat(loop, a + "/" + b);
  }

  /** A key written as LOOP/run-N/iter-M is read back as run N, iteration M. */
  lemma {:induction false} CanonicalReadsBack(loop: string, run: nat, iteration: nat, runKey: Option<string>)
    requires loop != "" && !IsSpace(loop[0])
    requires forall i :: 0 <= i < |Split(loop)| ==> !IsRun(Split(loop)[i]) && !IsIteration(Split(loop)[i])
    ensures Parse(runKey, Some(Canonical(loop, run, iteration)))
         == Some(Key(Some(run), Some(Digits(run)), 1, Some(iteration), Canonical(loop, run, iteration)))
  {
    var key, a, b := Canonical(loop, run, iteration), "run-" + Digits(run), "iter-" + Digits(iteration);
    CanonicalSegments(loop, run, iteration);
    SkipSegments(Split(loop), [a, b]);
    DigitsLead(Digits(run));
    DigitsLead(Digits(iteration));
    CanonicalEnds(loop, run, iteration);
    assert a[4..] == Digits(run) && b[5..] == Digits(iteration);
    assert RunLabel([a, b]) == Some(Digits(run));
    assert IterationDigits([a, b]) == Some(Digits(iteration)) by {
      assert [a, b][1..] == [b];
      assert a[0] != "iter-"[0];
    }
  }

  lemma {:induction false} CanonicalEnds(loop: string, run: nat, iteration: nat)
    requires loop != "" && !IsSpace(loop[0])
    ensures var key := Canonical(loop, run, iteration); Trim(key) == key && key != "" && !EndsWith(key, "/baseline")
  {
    var key := Canonical(loop, run, iteration);
    assert key[0] == loop[0];
    assert Last(key) == Last(Digits(iteration)) && IsDigit(Last(key));
  }

  function Baseline(loop: string, run: nat): string {
    loop + "/" + (("run-" + Digits(run)) + "/" + "baseline")
  }

  /** A key written as LOOP/run-N/baseline is read back as stage zero of run N. */
  lemma {:induction false} BaselineReadsBack(loop: string, run: nat, runKey: Option<string>)
    requires loop != "" && !IsSpace(loop[0])
    requires forall i :: 0 <= i < |Split(loop)| ==> !IsRun(Split(loop)[i]) && !IsIteration(Split(loop)[i])
    ensures Parse(runKey, Some(Baseline(loop, run)))
         == Some(Key(Some(run), Some(Digits(run)), 0, Some(0), Baseline(loop, run)))
  {
    var a := "run-" + Digits(run);
    BaselineSegments(loop, run);
    SkipSegments(Split(loop), [a, "baseline"]);
    DigitsLead(Digits(run));
    BaselineEnds(loop, run);
    assert a[4..] == Digits(run);
    assert RunLabel([a, "baseline"]) == Some(Digits(run));
  }

  lemma {:induction false} BaselineSegments(loop: string, run: nat)
    ensures Split(Baseline(loop, run)) == Split(loop) + ["run-" + Digits(run), "baseline"]
  {
    var a, b := "run-" + Digits(run), "baseline";
    DigitsLead(Digits(run));
    SplitPlain(a);
    SplitPlain(b);
    SplitConcat(a, b);
    SplitConcat(loop, a + "/" + b);
  }

  lemma {:induction false} BaselineEnds(loop: string, run: nat)
    requires loop != "" && !IsSpace(loop[0])
    ensures var key := Baseline(loop, run); Trim(key) == key && key != "" && EndsWith(key, "/baseline")
  {
    var key, front := Baseline(loop, run), loop + "/" + ("run-" + Digits(run));
    assert key == front + "/baseline";
    assert key[0] == loop[0] && Last(key) == 'e';
  }

  // ---------------------------------------------------------------- comparators

  /** A comparison function whose "not after" is a total preorder. */
  ghost predicate Comparator<T(!new)>(c: (T, T) -> int) {
    && (forall a, b :: c(a, b) < 0 <==> c(b, a) > 0)
    && (forall a, b, d :: c(a, b) <= 0 && c(b, d) <= 0 ==> c(a, d) <= 0)
  }

  /** Signs along a chain of three. */
  lemma {:induction false} Chain<T(!new)>(c: (T, T) -> int, a: T, b: T, d: T)
    requires Comparator(c)
    ensures c(a, a) == 0 && (c(a, b) < 0 <==> c(b, a) > 0) && (c(a, b) == 0 <==> c(b, a) == 0)
    ensures c(a, b) <= 0 && c(b, d) <= 0 ==> c(a, d) <= 0
    ensures (c(a, b) < 0 && c(b, d) <= 0) || (c(a, b) <= 0 && c(b, d) < 0) ==> c(a, d) < 0
    ensures c(a, b) == 0 && c(b, d) == 0 ==> c(a, d) == 0
  {
    assert c(a, a) < 0 <==> c(a, a) > 0;
    assert c(a, b) < 0 <==> c(b, a) > 0;
    assert c(b, a) < 0 <==> c(a, b) > 0;
    assert c(a, d) < 0 <==> c(d, a) > 0;
    assert c(d, a) < 0 <==> c(a, d) > 0;
    assert c(b, d) < 0 <==> c(d, b) > 0;
    assert c(d, b) < 0 <==> c(b, d) > 0;
    assert c(b, d) <= 0 && c(d, a) <= 0 ==> c(b, a) <= 0;
    assert c(d, a) <= 0 && c(a, b) <= 0 ==> c(d, b) <= 0;
    assert c(d, b) <= 0 && c(b, a) <= 0 ==> c(d, a) <= 0;
  }

  function Text(value: Option<string>): string {
    if value.Some? then value.value else ""
  }

  function Number(value: Option<nat>): nat {
    if value.Some? then value.value else 0
  }

  /** Keys with a run index come first, by index; `None` if the index does not decide. */
  function CompareRunIndex(left: Option<nat>, right: Option<nat>): int {
    if left.None? && right.None? then 0
    else if left.None? then 1
    else if right.None? then -1
    else left.value - right.value
  }

  /** `compareLineageProgressKeys`. */
  function CompareProgress(left: Option<Key>, right: Option<Key>, locale: (string, string) -> int): int {
    if left.None? && right.None? then 0
    else if left.None? then -1
    else if right.None? then 1
    else
      var l, r := left.value, right.value;
      if CompareRunIndex(l.runIndex, r.runIndex) != 0 then CompareRunIndex(l.runIndex, r.runIndex)
      else if locale(Text(l.runLabel), Text(r.runLabel)) != 0 then locale(Text(l.runLabel), Text(r.runLabel))
      else if l.stageRank != r.stageRank then l.stageRank - r.stageRank
      else if Number(l.stageIndex) != Number(r.stageIndex) then Number(l.stageIndex) - Number(r.stageIndex)
      else locale(l.rawKey, r.rawKey)
  }

  lemma {:induction false} ProgressSigns(a: Option<Key>, b: Option<Key>, locale: (string, string) -> int)
    requires Comparator(locale)
    ensures CompareProgress(a, b, locale) < 0 <==> CompareProgress(b, a, locale) > 0
  {
    if a.Some? && b.Some? {
      Chain(locale, Text(a.value.runLabel), Text(b.value.runLabel), "");
      Chain(locale, a.value.rawKey, b.value.rawKey, "");
      Chain(locale, Text(b.value.runLabel), Text(a.value.runLabel), "");
      Chain(locale, b.value.rawKey, a.value.rawKey, "");
    }
  }

  lemma {:induction false} ProgressTransitive(a: Option<Key>, b: Option<Key>, d: Option<Key>,
                                              locale: (string, string) -> int)
    requires Comparator(locale) && CompareProgress(a, b, locale) <= 0 && CompareProgress(b, d, locale) <= 0
    ensures CompareProgress(a, d, locale) <= 0
  {
    if a.Some? && b.Some? && d.Some? {
      Chain(locale, Text(a.value.runLabel), Text(b.value.runLabel), Text(d.value.runLabel));
      Chain(locale, a.value.rawKey, b.value.rawKey, d.value.rawKey);
    }
  }

  function ByProgress(locale: (string, string) -> int): (Option<Key>, Option<Key>) -> int {
    (a, b) => CompareProgress(a, b, locale)
  }

  lemma {:induction false} ProgressComparator(locale: (string, string) -> int)
    requires Comparator(locale)
    ensures Comparator(ByProgress(locale))
  {
    var c := ByProgress(locale);
    forall a, b
      ensures c(a, b) < 0 <==> c(b, a) > 0
    {
      ProgressSigns(a, b, locale);
    }
    forall a, b, d | c(a, b) <= 0 && c(b, d) <= 0
      ensures c(a, d) <= 0
    {
      ProgressTransitive(a, b, d, locale);
    }
  }

  /** Progress follows run and then iteration for keys written canonically. */
  lemma {:induction false} CanonicalOrder(loop: string, run: nat, iteration: nat, run': nat, iteration': nat,
                                          locale: (string, string) -> int)
    requires loop != "" && !IsSpace(loop[0]) && Comparator(locale)
    requires forall i :: 0 <= i < |Split(loop)| ==> !IsRun(Split(loop)[i]) && !IsIteration(Split(loop)[i])
    ensures var l := Parse(None, Some(Canonical(loop, run, iteration)));
            var r := Parse(None, Some(Canonical(loop, run', iteration')));
            CompareProgress(l, r, locale) < 0 <==> run < run' || (run == run' && iteration < iteration')
  {
    CanonicalReadsBack(loop, run, iteration, None);
    CanonicalReadsBack(loop, run', iteration', None);
    Chain(locale, Digits(run), Digits(run), "");
    var x, y := Canonical(loop, run, iteration), Canonical(loop, run', iteration');
    Chain(locale, x, y, "");
  }

  /** A run's baseline comes before its iterations, and after those of earlier runs. */
  lemma {:induction false} BaselineOrder(loop: string, run: nat, run': nat, iteration: nat,
                                         locale: (string, string) -> int)
    requires loop != "" && !IsSpace(loop[0]) && Comparator(locale)
    requires forall i :: 0 <= i < |Split(loop)| ==> !IsRun(Split(loop)[i]) && !IsIteration(Split(loop)[i])
    ensures var l := Parse(None, Some(Baseline(loop, run)));
            var r := Parse(None, Some(Canonical(loop, run', iteration)));
            CompareProgress(l, r, locale) < 0 <==> run <= run'
  {
    BaselineReadsBack(loop, run, None);
    CanonicalReadsBack(loop, run', iteration, None);
    Chain(locale, Digits(run), Digits(run), "");
  }
}
