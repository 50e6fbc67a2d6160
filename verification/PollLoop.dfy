/**
 Long polling of `TelegramHttpTransport` (http-transport.ts) against a server that obeys the `getUpdates`
 section of the Telegram Bot API: updates have increasing ids, a call with an offset confirms (forgets) all
 updates with smaller ids, and the answer is a run of the earliest unconfirmed ones.
 */
module PollLoop {
  import opened Prelude

  ghost predicate Increasing(s: seq<nat>) {
    forall i, j :: 0 <= i < j < |s| ==> s[i] < s[j]
  }

  /** The ids from `low` up to but not including `high`, in order. */
  function Between(s: seq<nat>, low: nat, high: nat): Log<nat> {
    if s == [] then Empty
    else if low <= Last(s) < high then Then(Between(Front(s), low, high), Last(s))
    else Between(Front(s), low, high)
  }

  function Max(a: nat, b: nat): nat {
    if a > b then a else b
  }

  /** The first position at or after `c` that an offset does not confirm. */
  function Confirm(log: seq<nat>, c: nat, offset: nat): (r: nat)
    requires c <= |log|
    ensures c <= r <= |log|
    ensures forall i :: c <= i < r ==> log[i] < offset
    ensures r < |log| ==> log[r] >= offset
    decreases |log| - c
  {
    if c < |log| && log[c] < offset then Confirm(log, c + 1, offset) else c
  }

  // ---------------------------------------------------------------- the invariant

  /**
   `from` is where the server stood at the start and `initial` the first offset. The handled updates are
   exactly the server's updates from `initial` up to the next offset, and nothing at or above the next
   offset is confirmed.
   */
  ghost predicate Exact(log: seq<nat>, confirmed: nat, from: nat, initial: nat, offset: nat, handled: Log<nat>) {
    && Increasing(log) && from <= confirmed <= |log|
    && initial <= offset && (offset == initial || exists i :: from <= i < |log| && log[i] == offset - 1)
    && handled == Between(log[from..], initial, offset)
    && (forall i :: from <= i < confirmed ==> log[i] < offset)
  }

  lemma {:induction false} BetweenAppend(s: seq<nat>, x: nat, low: nat, high: nat)
    ensures Between(s + [x], low, high)
         == if low <= x < high then Then(Between(s, low, high), x) else Between(s, low, high)
  {
    assert Front(s + [x]) == s;
  }

  /** Raising the end past `b` adds exactly `b` if there is nothing in between. */
  lemma {:induction false} BetweenStep(s: seq<nat>, low: nat, n: nat, b: nat)
    requires Increasing(s) && low <= n <= b && b in s
    requires forall i :: 0 <= i < |s| ==> s[i] < n || s[i] >= b
    ensures Between(s, low, b + 1) == Then(Between(s, low, n), b)
  {
    var x := Last(s);
    var i :| 0 <= i < |s| && s[i] == b;
    if x == b {
      assert forall j :: 0 <= j < |Front(s)| ==> s[j] < x;
      BetweenFlat(Front(s), low, n, b + 1);
    } else {
      assert i < |s| - 1 && Front(s)[i] == b;
      BetweenStep(Front(s), low, n, b);
    }
  }

  lemma {:induction false} BetweenFlat(s: seq<nat>, low: nat, n: nat, high: nat)
    requires n <= high && forall i :: 0 <= i < |s| ==> s[i] < n
    ensures Between(s, low, high) == Between(s, low, n)
  {
    if s != [] {
      BetweenFlat(Front(s), low, n, high);
    }
  }

  /** What is below an end is a beginning of what is below a later one. */
  lemma {:induction false} BetweenBegins(s: seq<nat>, low: nat, n: nat, high: nat)
    requires Increasing(s) && n <= high
    ensures Begins(Between(s, low, n), Between(s, low, high))
  {
    if s != [] {
      BetweenBegins(Front(s), low, n, high);
      if Last(s) < n {
        BetweenFlat(s, low, n, high);
      }
    }
  }

  /** The server gets a new update. */
  lemma {:induction false} GrowExact(log: seq<nat>, x: nat, confirmed: nat, from: nat, initial: nat, offset: nat,
                                     handled: Log<nat>)
    requires Exact(log, confirmed, from, initial, offset, handled) && Increasing(log + [x])
    ensures Exact(log + [x], confirmed, from, initial, offset, handled)
  {
    var log' := log + [x];
    assert log'[from..] == log[from..] + [x];
    BetweenAppend(log[from..], x, initial, offset);
    if offset != initial {
      var i :| from <= i < |log| && log[i] == offset - 1;
      assert log'[i] < log'[|log|];
    }
  }

  lemma {:induction false} ConfirmExact(log: seq<nat>, confirmed: nat, from: nat, initial: nat, offset: nat,
                                        handled: Log<nat>)
    requires Exact(log, confirmed, from, initial, offset, handled)
    ensures Exact(log, Confirm(log, confirmed, offset), from, initial, offset, handled)
  {
  }

  /** The earliest unconfirmed update is handled, and the next offset passes it. */
  lemma {:induction false} HandleExact(log: seq<nat>, confirmed: nat, next: nat, from: nat, initial: nat, offset: nat,
                                       handled: Log<nat>)
    requires Exact(log, confirmed, from, initial, offset, handled) && from <= next < |log| && log[next] >= offset
    requires forall i :: from <= i < next ==> log[i] < offset
    ensures Exact(log, confirmed, from, initial, log[next] + 1, Then(handled, log[next]))
  {
    var b := log[next];
    var s := log[from..];
    assert s[next - from] == b;
    BetweenStep(s, initial, offset, b);
  }

  /** The handled updates are a gap-free, duplicate-free beginning of all that the server holds for us. */
  lemma {:induction false} ExactPrefix(log: seq<nat>, confirmed: nat, from: nat, initial: nat, offset: nat,
                                       handled: Log<nat>, all: nat)
    requires Exact(log, confirmed, from, initial, offset, handled) && forall i :: 0 <= i < |log| ==> log[i] < all
    ensures Begins(handled, Between(log[from..], initial, all))
  {
    if offset <= all {
      BetweenBegins(log[from..], initial, offset, all);
    } else {
      BetweenFlat(log[from..], initial, all, offset);
    }
  }

  /** No update is confirmed before its handler succeeded. */
  lemma {:induction false} ConfirmedHandled(log: seq<nat>, confirmed: nat, from: nat, initial: nat, offset: nat,
                                            handled: Log<nat>, i: nat)
    requires Exact(log, confirmed, from, initial, offset, handled) && from <= i < confirmed && log[i] >= initial
    ensures Occurs(handled, log[i])
  {
    assert log[from..][i - from] == log[i];
    BetweenHolds(log[from..], initial, offset, i - from);
  }

  predicate Occurs(handled: Log<nat>, id: nat) {
    handled.Then? && (handled.last == id || Occurs(handled.past, id))
  }

  lemma {:induction false} BetweenHolds(s: seq<nat>, low: nat, high: nat, i: nat)
    requires i < |s| && low <= s[i] < high
    ensures Occurs(Between(s, low, high), s[i])
  {
    if i < |s| - 1 {
      BetweenHolds(Front(s), low, high, i);
    }
  }

  // ---------------------------------------------------------------- the server

  class Server {
    var log: seq<nat>
    var confirmed: nat

    /** `getUpdates`: the request or the response may be lost, and fewer updates than asked for may come. */
    method GetUpdates(offset: Option<nat>, limit: nat) returns (batch: Option<seq<nat>>)
      requires Increasing(log) && confirmed <= |log|
      modifies this`confirmed
      ensures confirmed == old(confirmed) || (offset.Some? && confirmed == Confirm(log, old(confirmed), offset.value))
      ensures batch.Some? ==>
                confirmed + |batch.value| <= |log| && batch.value == log[confirmed..confirmed + |batch.value|]
      ensures batch.Some? && offset.Some? ==> confirmed == Confirm(log, old(confirmed), offset.value)
      ensures batch.Some? ==> |batch.value| <= limit
    {
      if * {
        return None;
      }
      if offset.Some? {
        confirmed := Confirm(log, confirmed, offset.value);
      }
      if * {
        return None;
      }
      var most := if limit < |log| - confirmed then limit else |log| - confirmed;
      var size :| 0 <= size <= most;
      batch := Some(log[confirmed..confirmed + size]);
    }
  }

  // ---------------------------------------------------------------- the transport

  class TelegramHttpTransport {
    const pollLimit: nat
    const server: Server
    var running: bool
    var hasHandler: bool
    var nextOffset: nat
    ghost const from: nat
    ghost const initial: nat
    ghost var handled: Log<nat>

    ghost predicate Valid()
      reads this, server
    {
      Exact(server.log, server.confirmed, from, initial, nextOffset, handled)
    }

    constructor (server: Server, initialOffset: int, pollLimit: nat)
      requires Increasing(server.log) && server.confirmed <= |server.log|
      ensures Valid() && this.server == server && !running && handled == Empty
      ensures from == server.confirmed && initial == nextOffset == if initialOffset > 0 then initialOffset else 0
    {
      this.server, this.pollLimit := server, pollLimit;
      running, hasHandler := false, false;
      nextOffset := if initialOffset > 0 then initialOffset else 0;
      from, initial, handled := server.confirmed, if initialOffset > 0 then initialOffset else 0, Empty;
      new;
      NoneBetween(server.log[from..], initial);
    }

    /** At an await the server may get updates and `stop` may be called. */
    method Await()
      requires Valid()
      modifies this`running, server`log
      ensures Valid() && old(server.log) <= server.log && (running ==> old(running))
    {
      var more := *;
      while more > 0
        invariant Valid() && old(server.log) <= server.log && running == old(running)
      {
        more := more - 1;
        var x: nat :| true;
        if server.log == [] || x > Last(server.log) {
          GrowExact(server.log, x, server.confirmed, from, initial, nextOffset, handled);
          server.log := server.log + [x];
        }
      }
      if * {
        running := false;
      }
    }

    method FetchUpdates() returns (batch: Option<seq<nat>>)
      requires Valid()
      modifies this`running, server
      ensures Valid() && old(server.log) <= server.log && (running ==> old(running))
      ensures batch.Some? ==> Upcoming(server.log, from, nextOffset, batch.value)
    {
      Await();
      ConfirmExact(server.log, server.confirmed, from, initial, nextOffset, handled);
      ghost var before := server.confirmed;
      batch := server.GetUpdates(if nextOffset > 0 then Some(nextOffset) else None, pollLimit);
      if batch.Some? {
        assert UpcomingAt(server.log, from, nextOffset, batch.value, server.confirmed);
      }
    }

    /** The awaited handler; if it succeeds the next offset passes the update. */
    method Handle(update: nat, ghost batch: seq<nat>, ghost next: nat) returns (ok: bool)
      requires Valid() && batch != [] && batch[0] == update && UpcomingAt(server.log, from, nextOffset, batch, next)
      modifies this`running, this`nextOffset, this`handled, server`log
      ensures Valid() && (running ==> old(running))
      ensures !ok ==> handled == old(handled)
      ensures ok ==>
                handled == Then(old(handled), update) && UpcomingAt(server.log, from, nextOffset, batch[1..], next + 1)
    {
      Await();
      UpcomingGrown(old(server.log), server.log, from, nextOffset, batch, next);
      ok := *;
      if ok {
        UpcomingNext(server.log, from, nextOffset, batch, next);
        HandleExact(server.log, server.confirmed, next, from, initial, nextOffset, handled);
        handled := Then(handled, update);
        nextOffset := Max(nextOffset, update + 1);
      }
    }

    method ProcessUpdates(updates: seq<nat>) returns (threw: bool)
      requires Valid() && Upcoming(server.log, from, nextOffset, updates)
      modifies this`running, this`nextOffset, this`handled, server`log
      ensures Valid() && (running ==> old(running))
      ensures threw || !hasHandler || handled == Extended(old(handled), updates)
      ensures Begins(old(handled), handled)
    {
      threw := false;
      if |updates| == 0 || !hasHandler {
        return;
      }
      ghost var next: nat :| UpcomingAt(server.log, from, nextOffset, updates, next);
      var rest := updates;
      while rest != []
        invariant Valid() && (running ==> old(running)) && UpcomingAt(server.log, from, nextOffset, rest, next)
        invariant Extended(handled, rest) == Extended(old(handled), updates) && Begins(old(handled), handled)
        decreases |rest|
      {
        var ok := Handle(rest[0], rest, next);
        if !ok {
          return true;
        }
        rest, next := rest[1..], next + 1;
      }
    }

    /** One round of the loop: a failed fetch or handler is reported and the round is over. */
    method Round()
      requires Valid()
      modifies this, server
      ensures Valid() && (running ==> old(running)) && Begins(old(handled), handled)
    {
      var batch := FetchUpdates();
      if batch.None? {
        Await();
        return;
      }
      var threw := ProcessUpdates(batch.value);
      if threw {
        Await();
      }
    }

    /** `runPollLoop`, observed for at most `rounds` rounds. */
    method RunPollLoop(rounds: nat)
      requires Valid()
      modifies this, server
      ensures Valid() && Begins(old(handled), handled)
    {
      var left := rounds;
      while running && left > 0
        invariant Valid() && Begins(old(handled), handled)
        decreases left
      {
        ghost var before := handled;
        Round();
        BeginsTransitive(old(handled), before, handled);
        left := left - 1;
      }
    }

    method Start()
      requires Valid()
      modifies this`running, this`hasHandler
      ensures Valid() && running && (!old(running) ==> hasHandler)
    {
      if running {
        return;
      }
      running, hasHandler := true, true;
    }

    /** The loop has ended when `stop` returns. */
    method Stop()
      requires Valid()
      modifies this`running, this`hasHandler
      ensures Valid() && !running && (old(running) ==> !hasHandler)
    {
      if !running {
        return;
      }
      running, hasHandler := false, false;
    }
  }

  lemma {:induction false} NoneBetween(s: seq<nat>, low: nat)
    ensures Between(s, low, low) == Empty
  {
    if s != [] {
      NoneBetween(Front(s), low);
    }
  }

  /** The batch is the server's updates from position `next` on, the first that the next offset does not pass. */
  ghost predicate UpcomingAt(log: seq<nat>, from: nat, offset: nat, batch: seq<nat>, next: nat) {
    && from <= next && next + |batch| <= |log| && batch == log[next..next + |batch|]
    && (forall i :: from <= i < next ==> log[i] < offset)
    && (batch != [] ==> batch[0] >= offset)
  }

  ghost predicate Upcoming(log: seq<nat>, from: nat, offset: nat, batch: seq<nat>) {
    exists next: nat :: UpcomingAt(log, from, offset, batch, next)
  }

  lemma {:induction false} UpcomingGrown(log: seq<nat>, log': seq<nat>, from: nat, offset: nat, batch: seq<nat>,
                                         next: nat)
    requires UpcomingAt(log, from, offset, batch, next) && log <= log'
    ensures UpcomingAt(log', from, offset, batch, next)
  {
  }

  lemma {:induction false} UpcomingNext(log: seq<nat>, from: nat, offset: nat, batch: seq<nat>, next: nat)
    requires UpcomingAt(log, from, offset, batch, next) && Increasing(log) && batch != []
    ensures log[next] == batch[0] >= offset && UpcomingAt(log, from, batch[0] + 1, batch[1..], next + 1)
  {
    assert log[next] == batch[0];
    var rest := batch[1..];
    assert rest == log[next + 1..next + 1 + |rest|];
  }
}
