/**
 The engine's message queues (`PendingMessageQueue` of brewva-agent-engine.ts). The ghost history says
 what was ever enqueued and which entries were removed; conservation is the one equation in `Valid`.
 */
module PendingQueue {
  import opened Prelude
  import opened AgentMessages

  datatype QueueMode = All | OneAtATime

  /** A history entry: a message once enqueued, and whether it was removed since. */
  datatype Slot = Slot(message: Message, removed: bool)

  /** The messages of a history that were not removed, in order. */
  function Kept(history: Log<Slot>): Log<Message> {
    if history.Empty? then Empty
    else if history.last.removed then Kept(history.past)
    else Then(Kept(history.past), history.last.message)
  }

  /** The history with the entry of its k-th last kept message crossed out. */
  function Strike(history: Log<Slot>, k: nat): Log<Slot>
    requires k < Size(Kept(history))
  {
    if history.last.removed then Then(Strike(history.past, k), history.last)
    else if k == 0 then Then(history.past, history.last.(removed := true))
    else Then(Strike(history.past, k - 1), history.last)
  }

  /** The messages enqueued, in order, whatever became of them. */
  function Enqueued(history: Log<Slot>): Log<Message> {
    if history.Empty? then Empty else Then(Enqueued(history.past), history.last.message)
  }

  /** Only messages that a client may ask to remove were removed. */
  predicate StruckOnly(history: Log<Slot>, unwanted: Message -> bool) {
    history.Then? ==> StruckOnly(history.past, unwanted) && (history.last.removed ==> unwanted(history.last.message))
  }

  /** The messages that no client ever asks to remove, in order. */
  function Wanted(log: Log<Message>, unwanted: Message -> bool): Log<Message> {
    if log.Empty? then Empty
    else if unwanted(log.last) then Wanted(log.past, unwanted)
    else Then(Wanted(log.past, unwanted), log.last)
  }

  /** Removals touch no other message: those nobody asks to remove are all kept, in the order they came. */
  lemma {:induction false} WantedKept(history: Log<Slot>, unwanted: Message -> bool)
    requires StruckOnly(history, unwanted)
    ensures Wanted(Kept(history), unwanted) == Wanted(Enqueued(history), unwanted)
  {
    if history.Then? {
      WantedKept(history.past, unwanted);
    }
  }

  /** The k-th last entry. */
  function At<T>(log: Log<T>, k: nat): T
    requires k < Size(log)
  {
    if k == 0 then log.last else At(log.past, k - 1)
  }

  function Without<T>(log: Log<T>, k: nat): Log<T>
    requires k < Size(log)
  {
    if k == 0 then log.past else Then(Without(log.past, k - 1), log.last)
  }

  lemma {:induction false} StrikeRemovesOne(history: Log<Slot>, k: nat)
    requires k < Size(Kept(history))
    ensures Kept(Strike(history, k)) == Without(Kept(history), k)
    ensures Enqueued(Strike(history, k)) == Enqueued(history)
  {
    if history.last.removed {
      StrikeRemovesOne(history.past, k);
    } else if k > 0 {
      StrikeRemovesOne(history.past, k - 1);
    }
  }

  lemma {:induction false} StrikeUnwanted(history: Log<Slot>, k: nat, unwanted: Message -> bool)
    requires k < Size(Kept(history)) && StruckOnly(history, unwanted) && unwanted(At(Kept(history), k))
    ensures StruckOnly(Strike(history, k), unwanted)
  {
    if history.last.removed {
      StrikeUnwanted(history.past, k, unwanted);
    } else if k > 0 {
      StrikeUnwanted(history.past, k - 1, unwanted);
    }
  }

  lemma {:induction false} AtExtended<T>(log: Log<T>, s: seq<T>, index: nat)
    requires index < |s|
    ensures |s| <= Size(Extended(log, s)) && At(Extended(log, s), |s| - 1 - index) == s[index]
    decreases |s|
  {
    var last, front := Last(s), Front(s);
    assert s == front + [last];
    ExtendedConcat(log, front, [last]);
    ExtendedOne(Extended(log, front), last);
    SizeExtended(log, front);
    if index < |front| {
      AtExtended(log, front, index);
    }
  }

  lemma {:induction false} WithoutExtended(log: Log<Message>, s: seq<Message>, index: nat)
    requires index < |s|
    ensures Size(Extended(log, s)) == Size(log) + |s|
    ensures Without(Extended(log, s), |s| - 1 - index) == Extended(log, s[..index] + s[index + 1..])
    decreases |s|
  {
    var last, front := Last(s), Front(s);
    assert s == front + [last];
    ExtendedConcat(log, front, [last]);
    ExtendedOne(Extended(log, front), last);
    if index == |s| - 1 {
      assert s[..index] + s[index + 1..] == front;
      SizeExtended(log, front);
    } else {
      WithoutExtended(log, front, index);
      RemoveBeforeLast(s, index);
      ExtendedConcat(log, front[..index] + front[index + 1..], [last]);
      ExtendedOne(Extended(log, front[..index] + front[index + 1..]), last);
    }
  }

  lemma {:induction false} SizeExtended<T>(log: Log<T>, s: seq<T>)
    ensures Size(Extended(log, s)) == Size(log) + |s|
    decreases |s|
  {
    if s != [] {
      SizeExtended(Then(log, s[0]), s[1..]);
    }
  }

  class PendingMessageQueue {
    const mode: QueueMode
    const unwanted: Message -> bool  // what clients may ever ask to remove
    var messages: seq<Message>
    ghost var history: Log<Slot>
    ghost var drained: Log<Message>

    /** First in, first out, and nothing lost: what no client removed was drained, in order, or still waits. */
    ghost predicate Valid()
      reads this
    {
      && Kept(history) == Extended(drained, messages) && StruckOnly(history, unwanted)
      && forall i :: 0 <= i < |messages| ==> IsInput(messages[i])
    }

    constructor (mode: QueueMode, unwanted: Message -> bool)
      ensures Valid() && messages == [] && history == Empty && drained == Empty
      ensures this.mode == mode && this.unwanted == unwanted
    {
      this.mode, this.unwanted := mode, unwanted;
      messages, history, drained := [], Empty, Empty;
    }

    method Enqueue(message: Message)
      requires Valid() && IsInput(message)
      modifies this
      ensures Valid() && messages == old(messages) + [message]
      ensures history == Then(old(history), Slot(message, false)) && drained == old(drained)
    {
      ExtendedConcat(drained, messages, [message]);
      ExtendedOne(Extended(drained, messages), message);
      messages := messages + [message];
      history := Then(history, Slot(message, false));
    }

    /**
     `indexOf` and `splice`: the first occurrence goes, and only its history entry is crossed out. The queue does not
     look at `unwanted`, which stands for whatever its clients choose; for a client that may remove anything it is
     true of every message.
     */
    method Remove(message: Message) returns (found: bool)
      requires Valid() && unwanted(message)
      modifies this
      ensures Valid() && drained == old(drained)
      ensures Enqueued(history) == Enqueued(old(history))
      ensures found <==> message in old(messages)
      ensures !found ==> messages == old(messages) && history == old(history)
      ensures found ==> exists k :: 0 <= k < |old(messages)| && old(messages)[k] == message
                                    && message !in old(messages)[..k]
                                    && messages == old(messages)[..k] + old(messages)[k + 1..]
    {
      var index := 0;
      while index < |messages| && messages[index] != message
        invariant index <= |messages| && message !in messages[..index]
      {
        index := index + 1;
      }
      found := index < |messages|;
      if found {
        ghost var k := |messages| - 1 - index;
        WithoutExtended(drained, messages, index);
        AtExtended(drained, messages, index);
        StrikeRemovesOne(history, k);
        StrikeUnwanted(history, k, unwanted);
        history := Strike(history, k);
        messages := messages[..index] + messages[index + 1..];
      }
    }

    method Drain() returns (taken: seq<Message>)
      requires Valid()
      modifies this
      ensures Valid() && taken + messages == old(messages)
      ensures drained == Extended(old(drained), taken) && history == old(history)
      ensures |taken| == if mode.All? || |old(messages)| == 0 then |old(messages)| else 1
      ensures forall i :: 0 <= i < |taken| ==> IsInput(taken[i])
    {
      if mode.All? {
        taken := messages;
        messages := [];
      } else if messages == [] {
        return [];
      } else {
        taken := [messages[0]];
        messages := messages[1..];
      }
      ExtendedConcat(drained, taken, messages);
      drained := Extended(drained, taken);
    }
  }
}
