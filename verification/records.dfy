/**
  The presence table `get_data` builds, `{user_id: {date: {'start', 'end'}}}`,
  and the order in which a loop visits the keys of such a dict. Dict iteration
  order is unspecified, so it is modelled as any sequence that lists every key
  exactly once.
*/
module Records {
  import opened Clock
  import opened Calendar

  /** One user's presence on one date: `{'start': time, 'end': time}`. */
  datatype Presence = Presence(start: TimeOfDay, end: TimeOfDay)

  /** One user's records, keyed by date. */
  type UserDays = map<CalendarDate, Presence>

  /** All records, keyed by user id. */
  type Table = map<int, UserDays>

  predicate Distinct<K(==)>(s: seq<K>) {
    forall i, j :: 0 <= i < j < |s| ==> s[i] != s[j]
  }

  /** `order` lists every element of `keys` exactly once and nothing else. */
  predicate Enumerates<K(==)>(order: seq<K>, keys: set<K>) {
    && Distinct(order)
    && (forall i :: 0 <= i < |order| ==> order[i] in keys)
    && (forall k :: k in keys ==> k in order)
  }

  lemma EnumerationExists<K>(keys: set<K>)
    ensures exists order :: Enumerates(order, keys)
    decreases keys
  {
    if keys == {} {
      assert Enumerates([], keys);
    } else {
      var k :| k in keys;
      EnumerationExists(keys - {k});
      var order :| Enumerates(order, keys - {k});
      assert Enumerates(order + [k], keys);
    }
  }

  /** The order in which iterating a dict with these keys visits them: some enumeration, fixed but unknown. */
  ghost function IterationOrder<K>(keys: set<K>): (order: seq<K>)
    ensures Enumerates(order, keys)
  {
    EnumerationExists(keys);
    var order :| Enumerates(order, keys);
    order
  }

  /** In a sequence without repetition every element occurs once. */
  lemma {:induction false} DistinctMultiplicity<K>(s: seq<K>, x: K)
    requires Distinct(s)
    ensures multiset(s)[x] == if x in s then 1 else 0
  {
    if |s| > 0 {
      var last := s[|s| - 1];
      var init := s[..|s| - 1];
      assert s == init + [last];
      assert Distinct(init);
      assert last !in init;
      DistinctMultiplicity(init, x);
    }
  }

  /** Any two iteration orders of the same keys are permutations of each other. */
  lemma EnumerationsPermute<K>(a: seq<K>, b: seq<K>, keys: set<K>)
    requires Enumerates(a, keys) && Enumerates(b, keys)
    ensures multiset(a) == multiset(b)
  {
    forall x
      ensures multiset(a)[x] == multiset(b)[x]
    {
      DistinctMultiplicity(a, x);
      DistinctMultiplicity(b, x);
    }
  }

  /** An iteration order visits as many keys as there are. */
  lemma {:induction false} EnumerationSize<K>(order: seq<K>, keys: set<K>)
    requires Enumerates(order, keys)
    ensures |order| == |keys|
    decreases |order|
  {
    if |order| > 0 {
      var last := order[|order| - 1];
      var init := order[..|order| - 1];
      assert order == init + [last];
      assert last !in init;
      assert Enumerates(init, keys - {last}) by {
        forall k | k in keys - {last}
          ensures k in init
        {
          assert k in order;
        }
      }
      EnumerationSize(init, keys - {last});
    }
  }

  /** In a permutation of `a`, the first element of `a` sits at some index `j`; removing it leaves a permutation of the rest of `a`. */
  lemma MatchFirst<K>(a: seq<K>, b: seq<K>) returns (j: int)
    requires |a| > 0 && multiset(a) == multiset(b)
    ensures 0 <= j < |b| && b[j] == a[0]
    ensures b == b[..j] + [a[0]] + b[j + 1..]
    ensures multiset(a[1..]) == multiset(b[..j] + b[j + 1..])
  {
    var x := a[0];
    assert x in multiset(b);
    j :| 0 <= j < |b| && b[j] == x;
    var front, back := b[..j], b[j + 1..];
    assert b == front + [x] + back;
    assert multiset(b) == multiset(front) + multiset{x} + multiset(back);
    assert a == [x] + a[1..];
    assert multiset(a[1..]) == multiset(a) - multiset{x};
    assert multiset(front + back) == multiset(front) + multiset(back);
  }
}
