/** Small shared vocabulary. */
module Prelude {

  datatype Option<+T> = None | Some(value: T)

  /** The last element of a nonempty sequence. */
  function Last<T>(s: seq<T>): T
    requires s != []
  {
    s[|s| - 1]
  }

  /** All but the last element of a nonempty sequence. */
  function Front<T>(s: seq<T>): seq<T>
    requires s != []
  {
    s[..|s| - 1]
  }

  lemma {:induction false} TakeOneMore<T>(s: seq<T>, k: nat)
    requires k < |s|
    ensures s[..k + 1] == s[..k] + [s[k]]
  {
  }

  lemma {:induction false} RemoveBeforeLast<T>(s: seq<T>, index: nat)
    requires index < |s| - 1
    ensures s[..index] + s[index + 1..] == (Front(s)[..index] + Front(s)[index + 1..]) + [Last(s)]
  {
    assert s == Front(s) + [Last(s)];
  }

  lemma {:induction false} PushCount<T>(s: seq<T>, x: T, y: T)
    ensures multiset(s + [x])[y] == multiset(s)[y] + if x == y then 1 else 0
  {
  }

  lemma {:induction false} SetTwice<K, V>(m: map<K, V>, k: K, a: V, b: V)
    ensures m[k := a][k := b] == m[k := b]
  {
  }

  /** A history that grows at its end. */
  datatype Log<+T> = Empty | Then(past: Log<T>, last: T)

  function Size<T>(log: Log<T>): nat {
    if log.Empty? then 0 else Size(log.past) + 1
  }

  /** `a` is a beginning of `b`. */
  ghost predicate Begins<T>(a: Log<T>, b: Log<T>) {
    a == b || (b.Then? && Begins(a, b.past))
  }

  lemma {:induction false} BeginsTransitive<T>(a: Log<T>, b: Log<T>, c: Log<T>)
    requires Begins(a, b) && Begins(b, c)
    ensures Begins(a, c)
  {
    if b != c {
      BeginsTransitive(a, b, c.past);
    }
  }

  function Join<T>(a: Log<T>, b: Log<T>): Log<T> {
    if b.Empty? then a else Then(Join(a, b.past), b.last)
  }

  /** The history followed by the elements of a sequence. */
  function Extended<T>(log: Log<T>, s: seq<T>): Log<T>
    decreases |s|
  {
    if s == [] then log else Extended(Then(log, s[0]), s[1..])
  }

  lemma {:induction false} ExtendedConcat<T>(log: Log<T>, a: seq<T>, b: seq<T>)
    ensures Extended(log, a + b) == Extended(Extended(log, a), b)
    decreases |a|
  {
    if a == [] {
      assert a + b == b;
    } else {
      assert (a + b)[1..] == a[1..] + b;
      ExtendedConcat(Then(log, a[0]), a[1..], b);
    }
  }

  lemma {:induction false} ExtendedOne<T>(log: Log<T>, x: T)
    ensures Extended(log, [x]) == Then(log, x)
  {
    assert [x][1..] == [];
  }

  // ---------------------------------------------------------------- text

  predicate IsSpace(c: char) {
    c == ' ' || c == '\t' || c == '\n' || c == '\r'
  }

  function Trim(s: string): string {
    if s == "" then ""
    else if IsSpace(s[0]) then Trim(s[1..])
    else if IsSpace(Last(s)) then Trim(Front(s))
    else s
  }
}
