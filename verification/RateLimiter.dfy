/**
 The fixed-window rate limiter of telegram-webhook-worker.ts. The map with its compaction is proved to
 answer as a limiter that forgets nothing; that one never admits 2 * max hits within one window length.
 */
module RateLimiter {
  import opened Prelude

  datatype Window = Window(start: int, count: nat)

  datatype Hit = Hit(key: string, time: int)

  const COMPACT_ABOVE := 2048

  // ---------------------------------------------------------------- the limiter that forgets nothing

  /** A key's window after a hit at `now`. */
  function Advance(current: Option<Window>, length: int, now: int): Window {
    if current.None? || now >= current.value.start + length then Window(now, 1)
    else Window(current.value.start, current.value.count + 1)
  }

  function Latest(hits: Log<Hit>, key: string, length: int): Option<Window> {
    if hits.Empty? then None
    else if hits.last.key != key then Latest(hits.past, key, length)
    else Some(Advance(Latest(hits.past, key, length), length, hits.last.time))
  }

  /** Whether a hit is admitted: the first of a window always is. */
  predicate Admits(w: Window, max: nat) {
    w.count == 1 || w.count <= max
  }

  /** How many hits of a key are admitted at times in [from, from + length). */
  function Admitted(hits: Log<Hit>, key: string, max: nat, length: int, from: int): nat {
    if hits.Empty? then 0
    else
      Admitted(hits.past, key, max, length, from)
      + if hits.last.key == key && from <= hits.last.time < from + length
           && Admits(Latest(hits, key, length).value, max) then 1 else 0
  }

  ghost predicate Ordered(hits: Log<Hit>) {
    hits.Then? ==> Ordered(hits.past) && (hits.past.Then? ==> hits.past.last.time <= hits.last.time)
  }

  predicate NotAfter(hits: Log<Hit>, now: int) {
    hits.Then? ==> hits.last.time <= now
  }

  function Least(a: nat, b: nat): nat {
    if a < b then a else b
  }

  lemma {:induction false} LatestStarted(hits: Log<Hit>, key: string, length: int, now: int)
    requires Ordered(hits) && NotAfter(hits, now) && Latest(hits, key, length).Some?
    ensures Latest(hits, key, length).value.start <= now && Latest(hits, key, length).value.count >= 1
  {
    if hits.last.key != key {
      LatestStarted(hits.past, key, length, now);
    } else if Latest(hits.past, key, length).Some? {
      LatestStarted(hits.past, key, length, hits.last.time);
    }
  }

  /** What the key's current window says about the hits admitted in [from, from + length). */
  ghost predicate Bounded(w: Option<Window>, admitted: nat, max: nat, length: int, from: int) {
    if w.None? then admitted == 0
    else if w.value.start < from then admitted <= Least(w.value.count, max) - 1
    else if w.value.start < from + length then admitted <= max - 1 + Least(w.value.count, max)
    else admitted <= 2 * max - 1
  }

  lemma {:induction false} NoneYet(hits: Log<Hit>, key: string, max: nat, length: int, from: int)
    requires Ordered(hits) && NotAfter(hits, from - 1)
    ensures Admitted(hits, key, max, length, from) == 0
  {
    if hits.Then? {
      NoneYet(hits.past, key, max, length, from);
    }
  }

  lemma {:induction false} BoundedAlways(hits: Log<Hit>, key: string, max: nat, length: int, from: int)
    requires Ordered(hits) && max >= 1 && length >= 1
    ensures Bounded(Latest(hits, key, length), Admitted(hits, key, max, length, from), max, length, from)
  {
    if hits.Then? {
      BoundedAlways(hits.past, key, max, length, from);
      if hits.last.time < from {
        NoneYet(hits.past, key, max, length, from);
      }
      if hits.last.key == key && Latest(hits.past, key, length).Some? {
        LatestStarted(hits.past, key, length, hits.last.time);
      }
    }
  }

  /** Any half-open interval of one window length admits at most 2 * max - 1 hits per key. */
  lemma {:induction false} IntervalBound(hits: Log<Hit>, key: string, max: nat, length: int, from: int)
    requires Ordered(hits) && max >= 1 && length >= 1
    ensures Admitted(hits, key, max, length, from) <= 2 * max - 1
  {
    BoundedAlways(hits, key, max, length, from);
  }

  function Burst(hits: Log<Hit>, key: string, time: int, n: nat): Log<Hit> {
    if n == 0 then hits else Then(Burst(hits, key, time, n - 1), Hit(key, time))
  }

  lemma {:induction false} BurstAdmitted(hits: Log<Hit>, key: string, time: int, n: nat, max: nat, length: int,
                                         from: int)
    requires Latest(hits, key, length).Some? && Ordered(hits) && NotAfter(hits, time) && from <= time < from + length
    requires var w := Latest(hits, key, length).value; time < w.start + length && w.count + n <= max
    ensures var w, after := Latest(hits, key, length).value, Burst(hits, key, time, n);
            && Latest(after, key, length) == Some(Window(w.start, w.count + n))
            && Admitted(after, key, max, length, from) == Admitted(hits, key, max, length, from) + n
            && Ordered(after) && NotAfter(after, time)
  {
    if n > 0 {
      BurstAdmitted(hits, key, time, n - 1, max, length, from);
    }
  }

  /** The bound is sharp for every maximum and every window of at least two ticks. */
  lemma {:induction false} BoundAttained(key: string, max: nat, length: int) returns (hits: Log<Hit>)
    requires max >= 1 && length >= 2
    ensures Ordered(hits) && Admitted(hits, key, max, length, length - 1) == 2 * max - 1
  {
    var from := length - 1;
    var first := Then(Empty, Hit(key, 0));
    BurstAdmitted(first, key, from, max - 1, max, length, from);
    var filled := Burst(first, key, from, max - 1);
    var next := Then(filled, Hit(key, length));
    assert Latest(next, key, length) == Some(Window(length, 1));
    BurstAdmitted(next, key, length, max - 1, max, length, from);
    hits := Burst(next, key, length, max - 1);
  }

  // ---------------------------------------------------------------- the limiter that compacts

  predicate Stale(w: Window, length: int, now: int) {
    now >= w.start + length * 2
  }

  function Compacted(windows: map<string, Window>, length: int, now: int): map<string, Window> {
    if |windows| <= COMPACT_ABOVE then windows
    else map key | key in windows && !Stale(windows[key], length, now) :: windows[key]
  }

  function Lookup(windows: map<string, Window>, key: string): Option<Window> {
    if key in windows then Some(windows[key]) else None
  }

  /** The map holds each key's window, except for windows that are stale by now. */
  ghost predicate Remembers(windows: map<string, Window>, hits: Log<Hit>, length: int, now: int) {
    && Ordered(hits) && NotAfter(hits, now)
    && forall key: string :: Lookup(windows, key) == Latest(hits, key, length)
                             || (key !in windows && Stale(Latest(hits, key, length).value, length, now))
  }

  lemma {:induction false} CompactRemembers(windows: map<string, Window>, hits: Log<Hit>, length: int, before: int,
                                            now: int)
    requires Remembers(windows, hits, length, before) && before <= now
    ensures Remembers(Compacted(windows, length, now), hits, length, now)
  {
    var windows' := Compacted(windows, length, now);
    forall key: string
      ensures Lookup(windows', key) == Latest(hits, key, length)
              || (key !in windows' && Stale(Latest(hits, key, length).value, length, now))
    {
      assert Lookup(windows, key) == Latest(hits, key, length)
             || (key !in windows && Stale(Latest(hits, key, length).value, length, before));
    }
  }

  /** A hit is judged as if nothing had been forgotten. */
  lemma {:induction false} HitRemembers(windows: map<string, Window>, hits: Log<Hit>, length: int, key: string,
                                        now: int)
    requires Remembers(windows, hits, length, now) && length >= 0
    ensures var w := Advance(Lookup(windows, key), length, now);
            && Latest(Then(hits, Hit(key, now)), key, length) == Some(w)
            && Remembers(windows[key := w], Then(hits, Hit(key, now)), length, now)
  {
    assert Lookup(windows, key) == Latest(hits, key, length)
           || (key !in windows && Stale(Latest(hits, key, length).value, length, now));
    var w, hits' := Advance(Lookup(windows, key), length, now), Then(hits, Hit(key, now));
    forall other: string
      ensures Lookup(windows[key := w], other) == Latest(hits', other, length)
              || (other !in windows[key := w] && Stale(Latest(hits', other, length).value, length, now))
    {
      if other != key {
        assert Lookup(windows[key := w], other) == Lookup(windows, other);
        assert Latest(hits', other, length) == Latest(hits, other, length);
      }
    }
  }

  class InMemoryRateLimiter {
    var windows: map<string, Window>
    ghost const max: nat
    ghost const length: nat
    ghost var hits: Log<Hit>
    ghost var clock: int

    ghost predicate Valid()
      reads this
    {
      Remembers(windows, hits, length, clock)
    }

    constructor (ghost max: nat, ghost length: nat, ghost clock: int)
      ensures Valid() && hits == Empty && this.max == max && this.length == length && this.clock == clock
    {
      windows := map[];
      this.max, this.length, this.clock, hits := max, length, clock, Empty;
    }

    method Compact(now: int, windowMs: int)
      modifies this`windows
      ensures windows == Compacted(old(windows), windowMs, now)
    {
      if |windows| <= COMPACT_ABOVE {
        return;
      }
      var todo := windows.Keys;
      while todo != {}
        invariant todo <= windows.Keys <= old(windows).Keys
        invariant forall key :: key in windows ==> windows[key] == old(windows)[key]
        invariant forall key :: key in old(windows) && key !in todo ==>
                    (key in windows <==> !Stale(old(windows)[key], windowMs, now))
      {
        var key :| key in todo;
        todo := todo - {key};
        if now >= windows[key].start + windowMs * 2 {
          windows := windows - {key};
        }
      }
    }

    /** The answer is the one of the limiter that forgets nothing, compaction or not. */
    method Consume(key: string, limit: nat, windowMs: nat, now: int) returns (allowed: bool)
      requires Valid() && limit == max >= 1 && windowMs == length && clock <= now
      modifies this
      ensures Valid() && clock == now && hits == Then(old(hits), Hit(key, now))
      ensures allowed <==> Admits(Latest(hits, key, length).value, limit)
    {
      CompactRemembers(windows, hits, length, clock, now);
      Compact(now, windowMs);
      HitRemembers(windows, hits, length, key, now);
      hits, clock := Then(hits, Hit(key, now)), now;
      if key !in windows || now >= windows[key].start + windowMs {
        windows := windows[key := Window(now, 1)];
        return true;
      }
      var current := windows[key];
      windows := windows[key := Window(current.start, current.count + 1)];
      allowed := current.count + 1 <= limit;
    }
  }
}
