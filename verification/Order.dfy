/**
Ranking keys and the stable sort.

Rankings are Python tuples of numbers, `float("inf")` and strings, compared
component by component; lists are ordered with the library's stable
`list.sort(key=...)`.  A comparison returns a negative, zero or positive number.
*/
module Order {
  import opened Wrappers

  datatype Atom = Num(value: real) | Infinity | Text(text: string)

  type Key = seq<Atom>

  function CompareText(a: string, b: string): int {
    if a == [] then (if b == [] then 0 else -1)
    else if b == [] then 1
    else if a[0] < b[0] then -1
    else if b[0] < a[0] then 1
    else CompareText(a[1..], b[1..])
  }

  function CompareAtom(a: Atom, b: Atom): int {
    match (a, b)
    case (Num(x), Num(y)) => if x < y then -1 else if y < x then 1 else 0
    case (Num(_), _) => -1
    case (_, Num(_)) => 1
    case (Infinity, Infinity) => 0
    case (Infinity, _) => -1
    case (_, Infinity) => 1
    case (Text(x), Text(y)) => CompareText(x, y)
  }

  function CompareKey(a: Key, b: Key): int {
    if a == [] then (if b == [] then 0 else -1)
    else if b == [] then 1
    else if CompareAtom(a[0], b[0]) != 0 then CompareAtom(a[0], b[0])
    else CompareKey(a[1..], b[1..])
  }

  // ---- the comparison is a total order ----

  lemma {:induction false} TextOrder(a: string, b: string)
    ensures CompareText(a, b) == 0 <==> a == b
    ensures CompareText(a, b) == -CompareText(b, a)
  {
    if a != [] && b != [] {
      TextOrder(a[1..], b[1..]);
      assert a == [a[0]] + a[1..] && b == [b[0]] + b[1..];
    }
  }

  lemma {:induction false} TextTransitive(a: string, b: string, c: string)
    requires CompareText(a, b) <= 0 && CompareText(b, c) <= 0
    ensures CompareText(a, c) <= 0
  {
    if a != [] && b != [] && c != [] && a[0] == b[0] == c[0] {
      TextTransitive(a[1..], b[1..], c[1..]);
    }
  }

  lemma AtomOrder(a: Atom, b: Atom)
    ensures CompareAtom(a, b) == 0 <==> a == b
    ensures CompareAtom(a, b) == -CompareAtom(b, a)
  {
    if a.Text? && b.Text? { TextOrder(a.text, b.text); }
  }

  lemma AtomTransitive(a: Atom, b: Atom, c: Atom)
    requires CompareAtom(a, b) <= 0 && CompareAtom(b, c) <= 0
    ensures CompareAtom(a, c) <= 0
  {
    if a.Text? && b.Text? && c.Text? { TextTransitive(a.text, b.text, c.text); }
  }

  lemma {:induction false} KeyOrder(a: Key, b: Key)
    ensures CompareKey(a, b) == 0 <==> a == b
    ensures CompareKey(a, b) == -CompareKey(b, a)
  {
    if a != [] && b != [] {
      AtomOrder(a[0], b[0]);
      KeyOrder(a[1..], b[1..]);
      assert a == [a[0]] + a[1..] && b == [b[0]] + b[1..];
    }
  }

  /** Ranking tuples are transitively ordered, so a sorted list has one order only. */
  lemma {:induction false} KeyTransitive(a: Key, b: Key, c: Key)
    requires CompareKey(a, b) <= 0 && CompareKey(b, c) <= 0
    ensures CompareKey(a, c) <= 0
  {
    if a != [] && b != [] && c != [] {
      AtomOrder(a[0], b[0]);
      AtomOrder(b[0], c[0]);
      AtomOrder(a[0], c[0]);
      AtomTransitive(a[0], b[0], c[0]);
      if a[0] == b[0] == c[0] {
        KeyTransitive(a[1..], b[1..], c[1..]);
      }
    }
  }

  // ---- what the comparison means ----

  /** Dictionary order: at the first difference `a` has ended or has the smaller character. */
  ghost predicate DictionaryBefore(a: string, b: string) {
    exists k: nat :: FirstDifference(a, b, k)
  }

  predicate FirstDifference(a: string, b: string, k: nat) {
    k <= |a| && k < |b| && a[..k] == b[..k] && (k == |a| || a[k] < b[k])
  }

  lemma AgreeBeforeDifference(a: string, b: string, k: nat)
    requires FirstDifference(a, b, k)
    ensures k > 0 ==> a != [] && b != [] && a[0] == b[0]
  {
    if k > 0 { assert a[..k][0] == b[..k][0]; }
  }

  /** Texts compare in dictionary order. */
  lemma {:induction false} TextsCompare(a: string, b: string)
    ensures CompareText(a, b) < 0 <==> DictionaryBefore(a, b)
  {
    if a != [] && b != [] && a[0] == b[0] {
      TextsCompare(a[1..], b[1..]);
      if k: nat :| FirstDifference(a[1..], b[1..], k) {
        assert a[..k + 1] == [a[0]] + a[1..][..k] && b[..k + 1] == [b[0]] + b[1..][..k];
        assert FirstDifference(a, b, k + 1);
      }
      if k: nat :| FirstDifference(a, b, k) {
        assert k > 0;
        assert a[1..][..k - 1] == a[..k][1..] && b[1..][..k - 1] == b[..k][1..];
        assert FirstDifference(a[1..], b[1..], k - 1);
      }
    } else if a != b {
      if b != [] { assert a == [] || a[0] < b[0] ==> FirstDifference(a, b, 0); }
      forall k: nat | FirstDifference(a, b, k) ensures k == 0 {
        AgreeBeforeDifference(a, b, k);
      }
    }
  }

  /** Smaller first, absent last. */
  predicate Smaller(a: Option<real>, b: Option<real>) {
    a.Some? && (b.None? || a.value < b.value)
  }

  function OrInfinity(x: Option<real>): Atom {
    if x.Some? then Num(x.value) else Infinity
  }

  lemma NumbersCompare(a: Option<real>, b: Option<real>)
    ensures CompareAtom(OrInfinity(a), OrInfinity(b)) < 0 <==> Smaller(a, b)
    ensures CompareAtom(OrInfinity(a), OrInfinity(b)) > 0 <==> Smaller(b, a)
  {
  }

  /** One component of two ranking tuples decides, or the rest does. */
  lemma TuplesCompare(a: Atom, b: Atom, s: Key, t: Key)
    ensures CompareKey([a] + s, [b] + t) == if CompareAtom(a, b) != 0 then CompareAtom(a, b) else CompareKey(s, t)
  {
    assert ([a] + s)[1..] == s && ([b] + t)[1..] == t;
  }

  /** A text decides, or the rest of the tuples does. */
  lemma TextDecides(x: string, y: string, s: Key, t: Key)
    ensures CompareKey([Text(x)] + s, [Text(y)] + t) < 0 <==> DictionaryBefore(x, y) || (x == y && CompareKey(s, t) < 0)
  {
    TuplesCompare(Text(x), Text(y), s, t);
    TextsCompare(x, y);
    TextOrder(x, y);
  }

  /** A number that may be absent decides, or the rest of the tuples does. */
  lemma NumberDecides(x: Option<real>, y: Option<real>, s: Key, t: Key)
    ensures CompareKey([OrInfinity(x)] + s, [OrInfinity(y)] + t) < 0 <==> Smaller(x, y) || (x == y && CompareKey(s, t) < 0)
  {
    TuplesCompare(OrInfinity(x), OrInfinity(y), s, t);
    NumbersCompare(x, y);
    AtomOrder(OrInfinity(x), OrInfinity(y));
  }

  // ---- sorting ----

  function Insert<T>(x: T, s: seq<T>, key: T -> Key): (r: seq<T>)
    ensures |r| == |s| + 1
  {
    if s == [] || CompareKey(key(x), key(s[0])) <= 0 then [x] + s
    else [s[0]] + Insert(x, s[1..], key)
  }

  function StableSort<T>(s: seq<T>, key: T -> Key): (r: seq<T>)
    ensures |r| == |s|
  {
    if s == [] then [] else Insert(s[0], StableSort(s[1..], key), key)
  }

  ghost predicate Sorted<T>(s: seq<T>, key: T -> Key) {
    forall i, j | 0 <= i < j < |s| :: CompareKey(key(s[i]), key(s[j])) <= 0
  }

  /** Elements of the list with equal keys are equal. */
  ghost predicate KeyDetermines<T(!new)>(s: seq<T>, key: T -> Key) {
    forall x, y | x in s && y in s && key(x) == key(y) :: x == y
  }

  lemma {:induction false} InsertPermutes<T>(x: T, s: seq<T>, key: T -> Key)
    ensures multiset(Insert(x, s, key)) == multiset{x} + multiset(s)
  {
    if s != [] && CompareKey(key(x), key(s[0])) > 0 {
      InsertPermutes(x, s[1..], key);
      assert s == [s[0]] + s[1..];
    }
  }

  lemma {:induction false} InsertSorts<T>(x: T, s: seq<T>, key: T -> Key)
    requires Sorted(s, key)
    ensures Sorted(Insert(x, s, key), key)
  {
    if s == [] {
    } else if CompareKey(key(x), key(s[0])) <= 0 {
      forall j | 0 <= j < |s| ensures CompareKey(key(x), key(s[j])) <= 0 {
        if j > 0 { KeyTransitive(key(x), key(s[0]), key(s[j])); }
      }
    } else {
      var r := Insert(x, s[1..], key);
      InsertSorts(x, s[1..], key);
      InsertPermutes(x, s[1..], key);
      KeyOrder(key(x), key(s[0]));
      forall j | 0 <= j < |r| ensures CompareKey(key(s[0]), key(r[j])) <= 0 {
        assert r[j] in multiset(r);
        assert r[j] == x || r[j] in s[1..];
      }
    }
  }

  /** `list.sort` yields a sorted permutation. */
  lemma {:induction false} SortSorts<T>(s: seq<T>, key: T -> Key)
    ensures Sorted(StableSort(s, key), key)
    ensures multiset(StableSort(s, key)) == multiset(s)
  {
    if s != [] {
      SortSorts(s[1..], key);
      InsertSorts(s[0], StableSort(s[1..], key), key);
      InsertPermutes(s[0], StableSort(s[1..], key), key);
      assert s == [s[0]] + s[1..];
    }
  }

  lemma SameLeast<T(!new)>(a: seq<T>, b: seq<T>, key: T -> Key)
    requires Sorted(a, key) && Sorted(b, key)
    requires multiset(a) == multiset(b)
    requires KeyDetermines(a, key)
    requires a != [] && b != []
    ensures a[0] == b[0]
  {
    assert a[0] in multiset(b) && b[0] in multiset(a);
    var i :| 0 <= i < |b| && b[i] == a[0];
    var j :| 0 <= j < |a| && a[j] == b[0];
    KeyOrder(key(a[0]), key(b[0]));
    KeyOrder(key(a[0]), key(a[0]));
    assert CompareKey(key(b[0]), key(b[i])) <= 0;
    assert CompareKey(key(a[0]), key(a[j])) <= 0;
  }

  function WithKey<T>(s: seq<T>, key: T -> Key, k: Key): seq<T> {
    if s == [] then [] else (if key(s[0]) == k then [s[0]] else []) + WithKey(s[1..], key, k)
  }

  /** Elements with equal keys keep their incoming order. */
  lemma {:induction false} SortIsStable<T>(s: seq<T>, key: T -> Key, k: Key)
    ensures WithKey(StableSort(s, key), key, k) == WithKey(s, key, k)
  {
    if s != [] {
      SortIsStable(s[1..], key, k);
      InsertIsStable(s[0], StableSort(s[1..], key), key, k);
    }
  }

  lemma {:induction false} InsertIsStable<T>(x: T, s: seq<T>, key: T -> Key, k: Key)
    ensures WithKey(Insert(x, s, key), key, k) == WithKey([x] + s, key, k)
  {
    if s != [] && CompareKey(key(x), key(s[0])) > 0 {
      InsertIsStable(x, s[1..], key, k);
      KeyOrder(key(x), key(s[0]));
      assert ([x] + s)[1..] == s;
      assert ([x] + s[1..])[1..] == s[1..];
    }
  }

  /** The list without its element at `i`. */
  function Without<T>(s: seq<T>, i: nat): seq<T>
    requires i < |s|
  {
    s[..i] + s[i + 1..]
  }

  lemma Remove<T>(s: seq<T>, i: nat)
    requires i < |s|
    ensures multiset(Without(s, i)) == multiset(s) - multiset{s[i]}
    ensures i == 0 ==> Without(s, i) == s[1..]
  {
    assert s == s[..i] + [s[i]] + s[i + 1..];
  }

  /** Two sorted arrangements of the same elements are one list when keys identify elements. */
  lemma {:induction false} SortedUnique<T(!new)>(a: seq<T>, b: seq<T>, key: T -> Key)
    requires Sorted(a, key) && Sorted(b, key)
    requires multiset(a) == multiset(b)
    requires KeyDetermines(a, key)
    ensures a == b
  {
    assert |multiset(a)| == |a| && |multiset(b)| == |b|;
    if a != [] {
      SameLeast(a, b, key);
      Remove(a, 0);
      Remove(b, 0);
      SortedUnique(a[1..], b[1..], key);
    }
  }

  lemma SameElements<T(!new)>(a: seq<T>, b: seq<T>)
    requires multiset(a) == multiset(b)
    ensures forall x: T :: x in a <==> x in b
  {
    forall x: T ensures x in a <==> x in b {
      assert x in a <==> x in multiset(a);
      assert x in b <==> x in multiset(b);
    }
  }

  /** Sorting forgets the incoming order when keys identify elements. */
  lemma SortForgetsOrder<T(!new)>(a: seq<T>, b: seq<T>, key: T -> Key)
    requires multiset(a) == multiset(b)
    requires KeyDetermines(a, key)
    ensures StableSort(a, key) == StableSort(b, key)
  {
    SortSorts(a, key);
    SortSorts(b, key);
    SameElements(a, StableSort(a, key));
    SortedUnique(StableSort(a, key), StableSort(b, key), key);
  }

  // ---- mapping ----

  function Map<A, B>(s: seq<A>, f: A -> B): seq<B> {
    seq(|s|, i requires 0 <= i < |s| => f(s[i]))
  }

  lemma MapAppends<A, B>(a: seq<A>, b: seq<A>, f: A -> B)
    ensures Map(a + b, f) == Map(a, f) + Map(b, f)
  {
  }

  lemma MapRemove<A, B>(s: seq<A>, i: nat, f: A -> B)
    requires i < |s|
    ensures multiset(Map(s, f)) == multiset(Map(Without(s, i), f)) + multiset{f(s[i])}
  {
    MapAppends(s[..i], s[i + 1..], f);
    assert Map(s, f) == Map(s[..i], f) + [f(s[i])] + Map(s[i + 1..], f);
  }

  lemma {:induction false} MapPermutes<A, B>(a: seq<A>, b: seq<A>, f: A -> B)
    requires multiset(a) == multiset(b)
    ensures multiset(Map(a, f)) == multiset(Map(b, f))
  {
    if a == [] {
      assert |multiset(b)| == |b|;
    } else {
      assert a[0] in multiset(b);
      var j :| 0 <= j < |b| && b[j] == a[0];
      Remove(a, 0);
      Remove(b, j);
      MapPermutes(Without(a, 0), Without(b, j), f);
      MapRemove(a, 0, f);
      MapRemove(b, j, f);
    }
  }

  /** A map that does not change the keys commutes with sorting. */
  lemma {:induction false} MapSort<T(!new)>(s: seq<T>, f: T -> T, key: T -> Key)
    requires forall y | y in s :: key(f(y)) == key(y)
    ensures Map(StableSort(s, key), f) == StableSort(Map(s, f), key)
  {
    if s != [] {
      forall y | y in s[1..] ensures y in s {}
      MapSort(s[1..], f, key);
      assert Map(s, f)[1..] == Map(s[1..], f);
      SortSorts(s[1..], key);
      SameElements(s[1..], StableSort(s[1..], key));
      forall y | y in StableSort(s[1..], key) ensures key(f(y)) == key(y) {
        assert y in s[1..];
      }
      MapInsert(s[0], StableSort(s[1..], key), f, key);
    }
  }

  lemma {:induction false} MapInsert<T>(x: T, s: seq<T>, f: T -> T, key: T -> Key)
    requires key(f(x)) == key(x) && forall y | y in s :: key(f(y)) == key(y)
    ensures Map(Insert(x, s, key), f) == Insert(f(x), Map(s, f), key)
  {
    if s == [] || CompareKey(key(x), key(s[0])) <= 0 {
    } else {
      MapInsert(x, s[1..], f, key);
      assert Map(s, f)[1..] == Map(s[1..], f);
    }
  }
}
