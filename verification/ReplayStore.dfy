/** The in-memory replay store with expiry that webhook worker and ingress both use. */
module ReplayStore {

  /** How long a reservation is held. */
  function Hold(ttl: int): int {
    if ttl > 1 then ttl else 1
  }

  predicate Live(entries: map<string, int>, key: string, now: int) {
    key in entries && entries[key] > now
  }

  function Unexpired(entries: map<string, int>, now: int): map<string, int> {
    map key | key in entries && entries[key] > now :: entries[key]
  }

  function Put(entries: map<string, int>, key: string, ttl: int, now: int): map<string, int> {
    if Live(entries, key, now) then Unexpired(entries, now) else Unexpired(entries, now)[key := now + Hold(ttl)]
  }

  /**
   What a reservation means to every later question: at any time from now on, the key is taken until its
   reservation ends, an earlier one is not shortened or extended, and no other key is affected.
   */
  lemma {:induction false} PutMeans(entries: map<string, int>, key: string, ttl: int, now: int, other: string,
                                    later: int)
    requires now <= later
    ensures Live(Put(entries, key, ttl, now), other, later) <==>
              Live(entries, other, later)
              || (other == key && !Live(entries, key, now) && later < now + Hold(ttl))
  {
  }

  class InMemoryReplayStore {
    var entries: map<string, int>

    constructor ()
      ensures entries == map[]
    {
      entries := map[];
    }

    method Compact(now: int)
      modifies this
      ensures entries == Unexpired(old(entries), now)
    {
      var todo := entries.Keys;
      while todo != {}
        invariant todo <= entries.Keys <= old(entries).Keys
        invariant forall key :: key in entries ==> entries[key] == old(entries)[key]
        invariant forall key :: key in old(entries) && key !in todo ==> (key in entries <==> old(entries)[key] > now)
      {
        var key :| key in todo;
        todo := todo - {key};
        if entries[key] <= now {
          entries := entries - {key};
        }
      }
    }

    method PutIfAbsent(key: string, ttl: int, now: int) returns (reserved: bool)
      modifies this
      ensures reserved <==> !Live(old(entries), key, now)
      ensures entries == Put(old(entries), key, ttl, now)
    {
      Compact(now);
      if key in entries && entries[key] > now {
        return false;
      }
      entries := entries[key := now + if ttl > 1 then ttl else 1];
      reserved := true;
    }

    method Delete(key: string)
      modifies this
      ensures entries == old(entries) - {key}
    {
      entries := entries - {key};
    }
  }
}
