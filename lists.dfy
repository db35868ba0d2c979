/** Listener lists: `list.filter(x => x !== target)`, which both the event bus
    and the socket service use to unregister a callback, and occurrence
    counting, which says how often a callback runs. */
module Lists {

  /** Number of times `x` occurs in `s`. */
  function Occurrences<T(==)>(s: seq<T>, x: T): nat
  {
    if |s| == 0 then 0 else (if s[0] == x then 1 else 0) + Occurrences(s[1..], x)
  }

  /** `s.filter(y => y !== x)`. */
  function Without<T(==)>(s: seq<T>, x: T): seq<T>
  {
    if |s| == 0 then [] else (if s[0] == x then [] else [s[0]]) + Without(s[1..], x)
  }

  lemma {:induction false} OccurrencesAppend<T>(s: seq<T>, t: seq<T>, x: T)
    ensures Occurrences(s + t, x) == Occurrences(s, x) + Occurrences(t, x)
    decreases |s|
  {
    if |s| == 0 {
      assert s + t == t;
    } else {
      assert (s + t)[1..] == s[1..] + t;
      OccurrencesAppend(s[1..], t, x);
    }
  }

  /** Filtering distributes over concatenation: the survivors keep their
      original relative order. */
  lemma {:induction false} WithoutAppend<T>(s: seq<T>, t: seq<T>, x: T)
    ensures Without(s + t, x) == Without(s, x) + Without(t, x)
    decreases |s|
  {
    if |s| == 0 {
      assert s + t == t;
    } else {
      assert (s + t)[1..] == s[1..] + t;
      WithoutAppend(s[1..], t, x);
    }
  }

  /** Every occurrence of `x` is removed, every other element keeps its
      multiplicity, and nothing new appears. */
  lemma {:induction false} WithoutCounts<T>(s: seq<T>, x: T, y: T)
    ensures Occurrences(Without(s, x), x) == 0
    ensures y != x ==> Occurrences(Without(s, x), y) == Occurrences(s, y)
    decreases |s|
  {
    if |s| > 0 {
      WithoutCounts(s[1..], x, y);
      var head := if s[0] == x then [] else [s[0]];
      OccurrencesAppend(head, Without(s[1..], x), x);
      OccurrencesAppend(head, Without(s[1..], x), y);
      if s[0] != x {
        assert head[1..] == [];
      }
    }
  }

  /** Removing a callback that is not registered leaves the list as it was. */
  lemma {:induction false} WithoutAbsent<T>(s: seq<T>, x: T)
    requires x !in s
    ensures Without(s, x) == s
    decreases |s|
  {
    if |s| > 0 {
      WithoutAbsent(s[1..], x);
      assert s == [s[0]] + s[1..];
    }
  }

  lemma OccurrencesZero<T>(s: seq<T>, x: T)
    ensures Occurrences(s, x) == 0 <==> x !in s
    decreases |s|
  {
    if |s| > 0 {
      OccurrencesZero(s[1..], x);
      assert s == [s[0]] + s[1..];
    }
  }

  /** Only the listed elements survive a filter. */
  lemma {:induction false} WithoutSubset<T>(s: seq<T>, x: T, y: T)
    requires y in Without(s, x)
    ensures y in s && y != x
  {
    WithoutCounts(s, x, y);
    OccurrencesZero(Without(s, x), y);
    OccurrencesZero(Without(s, x), x);
    OccurrencesZero(s, y);
  }
}
