/** Options, the byte-wise order of identity texts, stable sorting, and the
    counting arguments the publication proofs rest on. */
module Basics {

  datatype Option<+T> = None | Some(value: T)

  /** The order of identity texts: lexicographic by character. */
  predicate TextBefore(a: string, b: string) {
    b != [] && (a == [] || a[0] < b[0] || (a[0] == b[0] && TextBefore(a[1..], b[1..])))
  }

  lemma {:induction false} TextBeforeIsTransitive(a: string, b: string, c: string)
    requires TextBefore(a, b) && TextBefore(b, c)
    ensures TextBefore(a, c)
  {
    if a != [] && a[0] == b[0] && b[0] == c[0] {
      TextBeforeIsTransitive(a[1..], b[1..], c[1..]);
    }
  }

  lemma {:induction false} TextBeforeIsTotal(a: string, b: string)
    ensures TextBefore(a, b) || TextBefore(b, a) || a == b
    ensures !(TextBefore(a, b) && TextBefore(b, a))
  {
    if a != [] && b != [] && a[0] == b[0] {
      TextBeforeIsTotal(a[1..], b[1..]);
      assert a == [a[0]] + a[1..] && b == [b[0]] + b[1..];
    }
  }

  // ---- Stable insertion sort, the model of sort.Slice on short slices ----

  function Insert<T>(x: T, s: seq<T>, before: (T, T) -> bool): seq<T> {
    if s == [] || !before(s[0], x) then [x] + s else [s[0]] + Insert(x, s[1..], before)
  }

  function Sort<T>(s: seq<T>, before: (T, T) -> bool): seq<T> {
    if s == [] then [] else Insert(s[0], Sort(s[1..], before), before)
  }

  ghost predicate Ordered<T>(s: seq<T>, before: (T, T) -> bool) {
    forall i, j | 0 <= i < j < |s| :: before(s[i], s[j])
  }

  /** `before` is a strict order that separates any two different elements of `s`. */
  ghost predicate StrictOn<T(!new)>(s: multiset<T>, before: (T, T) -> bool) {
    && (forall x, y | x in s && y in s && before(x, y) :: !before(y, x))
    && (forall x, y, z | x in s && y in s && z in s && before(x, y) && before(y, z) :: before(x, z))
    && (forall x, y | x in s && y in s && x != y :: before(x, y) || before(y, x))
  }

  predicate Distinct<T(==)>(s: seq<T>) {
    forall i, j | 0 <= i < j < |s| :: s[i] != s[j]
  }

  lemma {:induction false} InsertKeepsElements<T>(x: T, s: seq<T>, before: (T, T) -> bool)
    ensures multiset(Insert(x, s, before)) == multiset{x} + multiset(s)
    ensures |Insert(x, s, before)| == |s| + 1
  {
    if s == [] || !before(s[0], x) {
    } else {
      InsertKeepsElements(x, s[1..], before);
      assert s == [s[0]] + s[1..];
    }
  }

  lemma {:induction false} SortKeepsElements<T>(s: seq<T>, before: (T, T) -> bool)
    ensures multiset(Sort(s, before)) == multiset(s)
    ensures |Sort(s, before)| == |s|
  {
    if s == [] {
    } else {
      SortKeepsElements(s[1..], before);
      InsertKeepsElements(s[0], Sort(s[1..], before), before);
      assert s == [s[0]] + s[1..];
    }
  }

  lemma StrictOnFewer<T(!new)>(few: multiset<T>, many: multiset<T>, before: (T, T) -> bool)
    requires StrictOn(many, before) && forall x | x in few :: x in many
    ensures StrictOn(few, before)
  {
  }

  lemma OrderedConses<T(!new)>(head: T, tail: seq<T>, before: (T, T) -> bool)
    requires Ordered(tail, before) && forall x | x in tail :: before(head, x)
    ensures Ordered([head] + tail, before)
  {
    var s := [head] + tail;
    forall i, j | 0 <= i < j < |s| ensures before(s[i], s[j]) {
      if i == 0 { assert s[j] == tail[j - 1] && s[j] in tail; } else { assert s[i] == tail[i - 1] && s[j] == tail[j - 1]; }
    }
  }

  lemma HeadComesFirst<T(!new)>(s: seq<T>, x: T, before: (T, T) -> bool)
    requires s != [] && Ordered(s, before) && x in s[1..]
    ensures before(s[0], x)
  {
    var k :| 0 <= k < |s[1..]| && s[1..][k] == x;
    assert s[k + 1] == x;
  }

  /** What does not come after the head of an ordered list comes before all of it. */
  lemma ComesBeforeAll<T(!new)>(x: T, s: seq<T>, y: T, before: (T, T) -> bool)
    requires s != [] && Ordered(s, before) && x !in s && y in s && !before(s[0], x)
    requires StrictOn(multiset{x} + multiset(s), before)
    ensures before(x, y)
  {
    var all := multiset{x} + multiset(s);
    assert x in all && s[0] in all && y in all;
    var k :| 0 <= k < |s| && s[k] == y;
    assert s[0] in s;
  }

  lemma {:induction false} InsertKeepsOrder<T(!new)>(x: T, s: seq<T>, before: (T, T) -> bool)
    requires Ordered(s, before) && x !in s
    requires StrictOn(multiset{x} + multiset(s), before)
    ensures Ordered(Insert(x, s, before), before)
  {
    if s == [] {
    } else if !before(s[0], x) {
      forall y | y in s ensures before(x, y) { ComesBeforeAll(x, s, y, before); }
      OrderedConses(x, s, before);
    } else {
      var rest := s[1..];
      InsertIntoRest(x, s, before);
      InsertKeepsOrder(x, rest, before);
      OrderedConses(s[0], Insert(x, rest, before), before);
    }
  }

  lemma InsertIntoRest<T(!new)>(x: T, s: seq<T>, before: (T, T) -> bool)
    requires s != [] && Ordered(s, before) && x !in s && before(s[0], x)
    requires StrictOn(multiset{x} + multiset(s), before)
    ensures Ordered(s[1..], before) && x !in s[1..] && StrictOn(multiset{x} + multiset(s[1..]), before)
    ensures forall y | y in Insert(x, s[1..], before) :: before(s[0], y)
  {
    var rest := s[1..];
    assert s == [s[0]] + rest;
    StrictOnFewer(multiset{x} + multiset(rest), multiset{x} + multiset(s), before);
    InsertKeepsElements(x, rest, before);
    forall y | y in Insert(x, rest, before) ensures before(s[0], y) {
      assert y in multiset(Insert(x, rest, before));
      if y != x { HeadComesFirst(s, y, before); }
    }
  }

  lemma {:induction false} SortOrders<T(!new)>(s: seq<T>, before: (T, T) -> bool)
    requires Distinct(s) && StrictOn(multiset(s), before)
    ensures Ordered(Sort(s, before), before)
  {
    if s == [] {
    } else {
      var rest := s[1..];
      assert s == [s[0]] + rest;
      forall y | y in multiset(rest) ensures y in multiset(s) {}
      SortOrders(rest, before);
      SortKeepsElements(rest, before);
      forall y | y in Sort(rest, before) ensures y in rest { assert y in multiset(Sort(rest, before)); }
      InsertKeepsOrder(s[0], Sort(rest, before), before);
    }
  }

  ghost predicate Asymmetric<T(!new)>(s: seq<T>, before: (T, T) -> bool) {
    forall x, y | x in s && y in s && before(x, y) :: !before(y, x)
  }

  lemma OrderedHead<T(!new)>(a: seq<T>, b: seq<T>, before: (T, T) -> bool)
    requires a != [] && b != [] && multiset(a) == multiset(b)
    requires Asymmetric(a, before) && Ordered(a, before) && Ordered(b, before)
    ensures a[0] == b[0]
  {
    assert a[0] in multiset(b) && b[0] in multiset(a);
    var i :| 0 <= i < |b| && b[i] == a[0];
    var j :| 0 <= j < |a| && a[j] == b[0];
  }

  lemma TailElements<T>(s: seq<T>)
    requires s != []
    ensures multiset(s[1..]) == multiset(s) - multiset{s[0]}
  {
    assert s == [s[0]] + s[1..];
  }

  lemma OrderedTail<T(!new)>(s: seq<T>, before: (T, T) -> bool)
    requires s != [] && Ordered(s, before)
    ensures Ordered(s[1..], before) && (Asymmetric(s, before) ==> Asymmetric(s[1..], before))
  {
    var rest := s[1..];
    assert forall i | 0 <= i < |rest| :: rest[i] == s[i + 1];
    forall x | x in rest ensures x in s {}
  }

  /** Ordered arrangements of one multiset are the same sequence. */
  lemma {:induction false} OrderedIsUnique<T(!new)>(a: seq<T>, b: seq<T>, before: (T, T) -> bool)
    requires multiset(a) == multiset(b) && Asymmetric(a, before)
    requires Ordered(a, before) && Ordered(b, before)
    ensures a == b
  {
    if a == [] || b == [] {
      assert |multiset(a)| == |a| && |multiset(b)| == |b|;
    } else {
      OrderedHead(a, b, before);
      TailElements(a);
      TailElements(b);
      OrderedTail(a, before);
      OrderedTail(b, before);
      OrderedIsUnique(a[1..], b[1..], before);
      SameHeadAndTail(a, b);
    }
  }

  lemma SameHeadAndTail<T>(a: seq<T>, b: seq<T>)
    requires a != [] && b != [] && a[0] == b[0] && a[1..] == b[1..]
    ensures a == b
  {
    assert a == [a[0]] + a[1..] && b == [b[0]] + b[1..];
  }

  /** Sorting forgets the order of its input. */
  lemma SortForgetsOrder<T(!new)>(a: seq<T>, b: seq<T>, before: (T, T) -> bool)
    requires multiset(a) == multiset(b) && StrictOn(multiset(a), before)
    requires Distinct(a) && Distinct(b)
    ensures Sort(a, before) == Sort(b, before)
  {
    SortOrders(a, before);
    SortOrders(b, before);
    SortKeepsElements(a, before);
    SortKeepsElements(b, before);
    forall x | x in Sort(a, before) ensures x in multiset(a) { assert x in multiset(Sort(a, before)); }
    OrderedIsUnique(Sort(a, before), Sort(b, before), before);
  }

  lemma {:induction false} SortedAlready<T(!new)>(s: seq<T>, before: (T, T) -> bool)
    requires Ordered(s, before) && StrictOn(multiset(s), before)
    ensures Sort(s, before) == s
  {
    if s == [] {
    } else {
      assert s == [s[0]] + s[1..];
      forall y | y in multiset(s[1..]) ensures y in multiset(s) {}
      SortedAlready(s[1..], before);
      if |s| > 1 {
        assert before(s[0], s[1]) && s[0] in multiset(s) && s[1] in multiset(s);
      }
    }
  }

  // ---- Counting ----

  ghost function Elements<T>(s: seq<T>): set<T> {
    set x | x in s
  }

  lemma {:induction false} ElementsAtMost<T>(s: seq<T>)
    ensures |Elements(s)| <= |s|
  {
    if s == [] {
      assert Elements(s) == {};
    } else {
      ElementsAtMost(s[1..]);
      assert s == [s[0]] + s[1..];
      assert Elements(s) == Elements(s[1..]) + {s[0]};
    }
  }

  lemma {:induction false} DistinctCount<T>(s: seq<T>)
    requires Distinct(s)
    ensures |Elements(s)| == |s|
  {
    if s == [] {
      assert Elements(s) == {};
    } else {
      DistinctCount(s[1..]);
      assert s == [s[0]] + s[1..];
      assert Elements(s) == Elements(s[1..]) + {s[0]};
      assert s[0] !in s[1..];
    }
  }

  /** Pigeonhole: as many keys as needed, all needed ones present, so none is repeated. */
  lemma {:induction false} CoverageIsDistinct<T>(needed: seq<T>, given: seq<T>)
    requires Distinct(needed) && |given| == |needed|
    requires forall x | x in needed :: x in given
    ensures Distinct(given)
    ensures forall x | x in given :: x in needed
  {
    DistinctCount(needed);
    ElementsAtMost(given);
    assert Elements(needed) <= Elements(given);
    SubsetOfSameSize(Elements(needed), Elements(given));
    forall i, j | 0 <= i < j < |given| ensures given[i] != given[j] {
      if given[i] == given[j] {
        var fewer := given[..j] + given[j + 1..];
        forall x | x in given ensures x in fewer {
          var k :| 0 <= k < |given| && given[k] == x;
          if k < j { assert fewer[k] == x; } else if k > j { assert fewer[k - 1] == x; } else { assert fewer[i] == x; }
        }
        assert Elements(fewer) == Elements(given);
        ElementsAtMost(fewer);
      }
    }
    forall x | x in given ensures x in needed { assert x in Elements(given); }
  }

  lemma SameElements<T>(a: seq<T>, b: seq<T>)
    requires multiset(a) == multiset(b)
    ensures |a| == |b| && forall x :: x in a <==> x in b
  {
    assert |multiset(a)| == |a| && |multiset(b)| == |b|;
    forall x ensures x in a <==> x in b { assert x in multiset(a) <==> x in multiset(b); }
  }

  /** Keys read off a permuted list are the same keys, and still distinct. */
  lemma KeysForgetOrder<T, K>(a: seq<T>, b: seq<T>, keys: seq<K>, other: seq<K>, keyOf: T -> K)
    requires multiset(a) == multiset(b) && |keys| == |a| && |other| == |b| && Distinct(keys)
    requires forall i | 0 <= i < |a| :: keys[i] == keyOf(a[i])
    requires forall i | 0 <= i < |b| :: other[i] == keyOf(b[i])
    ensures Distinct(other) && forall x :: x in keys <==> x in other
  {
    SameElements(a, b);
    forall x | x in keys ensures x in other {
      var i :| 0 <= i < |keys| && keys[i] == x;
      assert a[i] in b;
      var j :| 0 <= j < |b| && b[j] == a[i];
      assert other[j] == x;
    }
    CoverageIsDistinct(keys, other);
  }

  lemma SubsetOfSameSize<T>(a: set<T>, b: set<T>)
    requires a <= b && |b| <= |a|
    ensures a == b
  {
    assert |b| == |a| + |b - a| by { assert b == a + (b - a); }
    assert |b - a| == 0;
  }

  /** The smallest counter above `from` that is not taken. */
  function FirstFree(taken: set<nat>, from: nat): (r: nat)
    ensures r > from && r !in taken
    ensures forall n | from < n < r :: n in taken
    decreases Above(taken, from)
  {
    if from + 1 in taken then
      assert Above(taken, from + 1) < Above(taken, from) by {
        assert from + 1 in Above(taken, from) && from + 1 !in Above(taken, from + 1);
      }
      FirstFree(taken, from + 1)
    else from + 1
  }

  function Above(taken: set<nat>, from: nat): set<nat> {
    set n | n in taken && n > from
  }
}
