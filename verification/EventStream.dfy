/**
 The event stream of assistant-message-event-stream.ts: a buffer, the consumers parked on it, and a result
 promise. It is proved against what the history of calls alone says was accepted, and what settled.
 */
module EventStream {
  import opened Prelude

  datatype Call<E, R> = Pushed(event: E) | Ended(result: Option<R>) | Asked(consumer: nat)

  /** An event handed to a consumer. */
  datatype Handover<E> = Handover(consumer: nat, event: E)

  datatype Reply<E> = Yielded(event: E) | Finished | Parked

  // ---------------------------------------------------------------- what the history says

  predicate Closed<E, R>(history: Log<Call<E, R>>, isComplete: E -> bool) {
    history.Then? &&
    (Closed(history.past, isComplete)
     || match history.last
        case Pushed(e) => isComplete(e)
        case Ended(_) => true
        case Asked(_) => false)
  }

  /** The pushes up to and including the first completing one, or up to the end. */
  function Accepted<E, R>(history: Log<Call<E, R>>, isComplete: E -> bool): Log<E> {
    if history.Empty? then Empty
    else if history.last.Pushed? && !Closed(history.past, isComplete) then
      Then(Accepted(history.past, isComplete), history.last.event)
    else Accepted(history.past, isComplete)
  }

  /** The first result given wins. */
  function Settled<E, R>(history: Log<Call<E, R>>, isComplete: E -> bool, extract: E -> R): Option<R> {
    if history.Empty? then None
    else if Settled(history.past, isComplete, extract).Some? then Settled(history.past, isComplete, extract)
    else match history.last
      case Pushed(e) => if !Closed(history.past, isComplete) && isComplete(e) then Some(extract(e)) else None
      case Ended(r) => r
      case Asked(_) => None
  }

  function Askers<E, R>(history: Log<Call<E, R>>): set<nat> {
    if history.Empty? then {}
    else Askers(history.past) + if history.last.Asked? then {history.last.consumer} else {}
  }

  function Values<E>(handed: Log<Handover<E>>): Log<E> {
    if handed.Empty? then Empty else Then(Values(handed.past), handed.last.event)
  }

  /** What one consumer has received. */
  function Received<E>(handed: Log<Handover<E>>, consumer: nat): Log<E> {
    if handed.Empty? then Empty
    else if handed.last.consumer == consumer then Then(Received(handed.past, consumer), handed.last.event)
    else Received(handed.past, consumer)
  }

  ghost predicate OnlyTo<E>(handed: Log<Handover<E>>, consumers: set<nat>) {
    handed.Then? ==> handed.last.consumer in consumers && OnlyTo(handed.past, consumers)
  }

  lemma {:induction false} OnlyToMore<E>(handed: Log<Handover<E>>, a: set<nat>, b: set<nat>)
    requires OnlyTo(handed, a) && a <= b
    ensures OnlyTo(handed, b)
  {
    if handed.Then? {
      OnlyToMore(handed.past, a, b);
    }
  }

  /** A consumer that is alone receives everything that is handed over. */
  lemma {:induction false} SoleConsumer<E>(handed: Log<Handover<E>>, consumer: nat)
    requires OnlyTo(handed, {consumer})
    ensures Received(handed, consumer) == Values(handed)
  {
    if handed.Then? {
      SoleConsumer(handed.past, consumer);
    }
  }

  /** Nothing is accepted after the first completing event: it can only be the last one. */
  lemma {:induction false} CompletesLast<E, R>(history: Log<Call<E, R>>, isComplete: E -> bool)
    ensures var accepted := Accepted(history, isComplete);
            && (accepted.Then? ==> NoneComplete(accepted.past, isComplete))
            && (!Closed(history, isComplete) ==> NoneComplete(accepted, isComplete))
  {
    if history.Then? {
      CompletesLast(history.past, isComplete);
    }
  }

  ghost predicate NoneComplete<E>(events: Log<E>, isComplete: E -> bool) {
    events.Then? ==> !isComplete(events.last) && NoneComplete(events.past, isComplete)
  }

  /** Once settled, the result never changes. */
  lemma {:induction false} SettlesOnce<E, R>(history: Log<Call<E, R>>, later: Log<Call<E, R>>, isComplete: E -> bool,
                                             extract: E -> R)
    requires Begins(history, later) && Settled(history, isComplete, extract).Some?
    ensures Settled(later, isComplete, extract) == Settled(history, isComplete, extract)
  {
    if history != later {
      SettlesOnce(history, later.past, isComplete, extract);
    }
  }

  // ---------------------------------------------------------------- the stream

  /** The stream's fields against its history. */
  ghost predicate Faithful<E(!new), R(!new)>(queue: seq<E>, waiting: seq<nat>, done: bool, result: Option<R>,
                                             handed: Log<Handover<E>>, history: Log<Call<E, R>>,
                                             isComplete: E -> bool, extract: E -> R)
  {
    && Extended(Values(handed), queue) == Accepted(history, isComplete)
    && (queue == [] || waiting == [])
    && done == Closed(history, isComplete)
    && result == Settled(history, isComplete, extract)
    && OnlyTo(handed, Askers(history))
    && (forall i :: 0 <= i < |waiting| ==> waiting[i] in Askers(history))
  }

  /** With one consumer, what it received and what is buffered are together exactly what was accepted. */
  lemma {:induction false} SoleConsumerExact<E(!new), R(!new)>(
    queue: seq<E>, waiting: seq<nat>, done: bool, result: Option<R>, handed: Log<Handover<E>>,
    history: Log<Call<E, R>>, isComplete: E -> bool, extract: E -> R, consumer: nat)
    requires Faithful(queue, waiting, done, result, handed, history, isComplete, extract)
    requires Askers(history) <= {consumer}
    ensures Extended(Received(handed, consumer), queue) == Accepted(history, isComplete)
    ensures waiting != [] ==> Received(handed, consumer) == Accepted(history, isComplete)
  {
    OnlyToMore(handed, Askers(history), {consumer});
    SoleConsumer(handed, consumer);
  }

  class Stream<E(!new), R(!new)> {
    const isComplete: E -> bool
    const extract: E -> R
    var queue: seq<E>
    var waiting: seq<nat>
    var done: bool
    var result: Option<R>
    ghost var handed: Log<Handover<E>>
    ghost var history: Log<Call<E, R>>

    ghost predicate Valid()
      reads this
    {
      Faithful(queue, waiting, done, result, handed, history, isComplete, extract)
    }

    constructor (isComplete: E -> bool, extract: E -> R)
      ensures Valid() && history == Empty && handed == Empty && this.isComplete == isComplete && this.extract == extract
    {
      this.isComplete, this.extract := isComplete, extract;
      queue, waiting, done, result, handed, history := [], [], false, None, Empty, Empty;
    }

    method Push(event: E)
      requires Valid()
      modifies this
      ensures Valid() && history == Then(old(history), Pushed(event))
      ensures waiting == if old(done) || old(waiting) == [] then old(waiting) else old(waiting)[1..]
      ensures handed == if old(done) || old(waiting) == [] then old(handed)
                        else Then(old(handed), Handover(old(waiting)[0], event))
      ensures done && !old(done) ==> (waiting != [] <==> |old(waiting)| >= 2)
    {
      OnlyToMore(handed, Askers(history), Askers(Then(history, Pushed(event))));
      ExtendedConcat(Values(handed), queue, [event]);
      ExtendedOne(Extended(Values(handed), queue), event);
      history := Then(history, Pushed(event));
      if done {
        return;
      }
      if isComplete(event) {
        done := true;
        if result.None? {
          result := Some(extract(event));
        }
      }
      if |waiting| > 0 {
        handed := Then(handed, Handover(waiting[0], event));
        waiting := waiting[1..];
        return;
      }
      queue := queue + [event];
    }

    /** Every parked consumer is told that the stream is over, having been handed all there is. */
    method End(given: Option<R>)
      requires Valid()
      modifies this
      ensures Valid() && history == Then(old(history), Ended(given)) && handed == old(handed)
      ensures waiting == [] && queue == old(queue)
      ensures old(waiting) != [] ==> Values(handed) == Accepted(history, isComplete)
    {
      OnlyToMore(handed, Askers(history), Askers(Then(history, Ended(given))));
      history := Then(history, Ended(given));
      done := true;
      if given.Some? && result.None? {
        result := given;
      }
      while |waiting| > 0
        invariant Valid() && queue == old(queue) && handed == old(handed)
        invariant old(waiting) != [] ==> queue == []
        invariant history == Then(old(history), Ended(given))
      {
        waiting := waiting[1..];
      }
    }

    /** One round of the iterator; it finishes only when all that was accepted has been handed over. */
    method Next(consumer: nat) returns (reply: Reply<E>)
      requires Valid()
      modifies this
      ensures Valid() && history == Then(old(history), Asked(consumer))
      ensures match reply
              case Yielded(e) => handed == Then(old(handed), Handover(consumer, e)) && waiting == old(waiting)
              case Finished => Closed(history, isComplete) && Values(handed) == Accepted(history, isComplete)
                               && handed == old(handed) && waiting == old(waiting)
              case Parked => !Closed(history, isComplete) && Values(handed) == Accepted(history, isComplete)
                             && handed == old(handed) && waiting == old(waiting) + [consumer]
    {
      OnlyToMore(handed, Askers(history), Askers(Then(history, Asked(consumer))));
      history := Then(history, Asked(consumer));
      if |queue| > 0 {
        reply := Yielded(queue[0]);
        handed := Then(handed, Handover(consumer, queue[0]));
        queue := queue[1..];
        return;
      }
      if done {
        return Finished;
      }
      waiting := waiting + [consumer];
      reply := Parked;
    }
  }
}
