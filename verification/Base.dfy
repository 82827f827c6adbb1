/** Shared vocabulary: identifiers, dates and the usual optional value.

    Identifiers of users, groups, bots, pigs, rounds and tokens are compared and ordered but
    never inspected, so natural numbers stand for the distinct strings of the database. */
module Base {
  datatype Option<+T> = None | Some(value: T)

  type UserId = nat
  type GroupId = nat
  type BotId = nat
  type PigId = nat
  type RoundId = nat
  type Token = nat
  type Date = int   // day number, day 0 is 1970-01-01

  function Max(a: int, b: int): int { if a >= b then a else b }
  function Min(a: int, b: int): int { if a <= b then a else b }

  predicate NoDuplicates<T(==)>(s: seq<T>) {
    forall i, j :: 0 <= i < j < |s| ==> s[i] != s[j]
  }

  function Lookup<K, V>(m: map<K, V>, k: K): Option<V> {
    if k in m then Some(m[k]) else None
  }

  /** A table is determined by what its look-ups find. */
  lemma SameTable<K(!new), V>(a: map<K, V>, b: map<K, V>)
    requires forall k :: Lookup(a, k) == Lookup(b, k)
    ensures a == b
  {
    forall k
      ensures k in a <==> k in b
      ensures k in a && k in b ==> a[k] == b[k]
    {
      assert Lookup(a, k) == Lookup(b, k);
    }
  }
}
