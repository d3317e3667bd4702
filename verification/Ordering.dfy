/** Orders on strings and names, and the result of Go's library sorts. */
module Ordering {

  /** `types.NamespacedName`. */
  datatype NamespacedName = NamespacedName(namespace: string, name: string)

  /** `strings.Compare(a, b) < 0`: lexicographic by character. */
  predicate StringLess(a: string, b: string) {
    b != "" && (a == "" || a[0] < b[0] || (a[0] == b[0] && StringLess(a[1..], b[1..])))
  }

  /** `namespacedNameCmp(a, b) < 0`, also the order of the driver loop. */
  predicate NameLess(a: NamespacedName, b: NamespacedName) {
    if a.namespace != b.namespace then StringLess(a.namespace, b.namespace) else StringLess(a.name, b.name)
  }

  /** The strings agree up to a point at which `a` ends or has the lesser character. */
  ghost predicate Before(a: string, b: string) {
    exists i: nat :: i <= |a| && i < |b| && a[..i] == b[..i] && (i == |a| || a[i] < b[i])
  }

  lemma SameStart(a: string, b: string, i: nat)
    requires i <= |a| && i < |b| && a[..i] == b[..i]
    ensures i > 0 ==> a[0] == b[0] && a[1..][..i - 1] == b[1..][..i - 1]
  {
    if i > 0 {
      assert a[..i][0] == a[0] && b[..i][0] == b[0];
      assert a[1..][..i - 1] == a[..i][1..] && b[1..][..i - 1] == b[..i][1..];
    }
  }

  lemma {:induction false} StringLessIff(a: string, b: string)
    ensures StringLess(a, b) <==> Before(a, b)
  {
    forall i: nat | i <= |a| && i < |b| && a[..i] == b[..i]
      ensures i > 0 ==> a[0] == b[0] && a[1..][..i - 1] == b[1..][..i - 1]
    {
      SameStart(a, b, i);
    }
    assert b != "" ==> a[..0] == b[..0];
    if a != "" && b != "" && a[0] == b[0] {
      StringLessIff(a[1..], b[1..]);
      if i: nat :|
        i < |a| && i < |b| - 1 && a[1..][..i] == b[1..][..i] && (i == |a| - 1 || a[1..][i] < b[1..][i])
      {
        assert a[..i + 1] == [a[0]] + a[1..][..i] && b[..i + 1] == [b[0]] + b[1..][..i];
      }
    }
  }

  /** Names are ordered by namespace first. */
  lemma NameLessIff(a: NamespacedName, b: NamespacedName)
    ensures NameLess(a, b) <==>
              Before(a.namespace, b.namespace) || (a.namespace == b.namespace && Before(a.name, b.name))
  {
    hide StringLess;
    hide Before;
    StringLessIff(a.namespace, b.namespace);
    StringLessIff(a.name, b.name);
    StringLessIsStrictOrder();
    assert !StringLess(a.namespace, a.namespace);
  }

  ghost predicate StrictOrder<T(!new)>(less: (T, T) -> bool) {
    && (forall x :: !less(x, x))
    && (forall x, y :: less(x, y) || less(y, x) || x == y)
    && (forall x, y, z :: less(x, y) && less(y, z) ==> less(x, z))
  }

  lemma {:induction false} StringLessIrreflexive(a: string)
    ensures !StringLess(a, a)
  {
    if a != "" { StringLessIrreflexive(a[1..]); }
  }

  lemma {:induction false} StringLessTotal(a: string, b: string)
    ensures StringLess(a, b) || StringLess(b, a) || a == b
  {
    if a != "" && b != "" && a[0] == b[0] {
      StringLessTotal(a[1..], b[1..]);
      assert a == [a[0]] + a[1..] && b == [b[0]] + b[1..];
    }
  }

  lemma {:induction false} StringLessTransitive(a: string, b: string, c: string)
    requires StringLess(a, b) && StringLess(b, c)
    ensures StringLess(a, c)
  {
    if a != "" && a[0] == b[0] == c[0] { StringLessTransitive(a[1..], b[1..], c[1..]); }
  }

  lemma StringLessIsStrictOrder()
    ensures StrictOrder(StringLess)
  {
    hide StringLess;
    forall a: string, b: string, c: string
      ensures !StringLess(a, a)
      ensures StringLess(a, b) || StringLess(b, a) || a == b
      ensures StringLess(a, b) && StringLess(b, c) ==> StringLess(a, c)
    {
      StringLessIrreflexive(a);
      StringLessTotal(a, b);
      if StringLess(a, b) && StringLess(b, c) { StringLessTransitive(a, b, c); }
    }
  }

  lemma NameLessIsStrictOrder()
    ensures StrictOrder(NameLess)
  {
    hide StringLess;
    StringLessIsStrictOrder();
    forall a, b, c
      ensures !NameLess(a, a)
      ensures NameLess(a, b) || NameLess(b, a) || a == b
      ensures NameLess(a, b) && NameLess(b, c) ==> NameLess(a, c)
    {
      assert !StringLess(a.name, a.name) && !StringLess(a.namespace, a.namespace);
      assert !StringLess(c.namespace, c.namespace);
      assert StringLess(a.namespace, b.namespace) && StringLess(b.namespace, c.namespace)
        ==> StringLess(a.namespace, c.namespace);
    }
  }

  // ---------- Sorting ----------

  ghost predicate Sorted<T>(xs: seq<T>, less: (T, T) -> bool) {
    forall i, j | 0 <= i < j < |xs| :: !less(xs[j], xs[i])
  }

  ghost predicate StrictlySorted<T>(xs: seq<T>, less: (T, T) -> bool) {
    forall i, j | 0 <= i < j < |xs| :: less(xs[i], xs[j])
  }

  ghost predicate NoDuplicates<T>(xs: seq<T>) {
    forall i, j | 0 <= i < j < |xs| :: xs[i] != xs[j]
  }

  function Insert<T>(xs: seq<T>, x: T, less: (T, T) -> bool): seq<T> {
    if xs == [] then [x]
    else if less(x, xs[0]) then [x] + xs
    else [xs[0]] + Insert(xs[1..], x, less)
  }

  /** What `slices.SortFunc`, `slices.Sort` and `sort.Slice` leave in the slice. */
  function Sort<T>(xs: seq<T>, less: (T, T) -> bool): seq<T> {
    if xs == [] then [] else Insert(Sort(xs[1..], less), xs[0], less)
  }

  lemma {:induction false} InsertKeepsElements<T>(xs: seq<T>, x: T, less: (T, T) -> bool)
    ensures multiset(Insert(xs, x, less)) == multiset(xs) + multiset{x}
  {
    if xs != [] && !less(x, xs[0]) {
      InsertKeepsElements(xs[1..], x, less);
    }
    assert xs != [] ==> xs == [xs[0]] + xs[1..];
  }

  lemma {:induction false} InsertKeepsSorted<T(!new)>(xs: seq<T>, x: T, less: (T, T) -> bool)
    requires StrictOrder(less) && Sorted(xs, less)
    ensures Sorted(Insert(xs, x, less), less)
  {
    if xs != [] {
      if less(x, xs[0]) {
        forall i | 0 <= i < |xs| ensures !less(xs[i], x) {
          assert i > 0 ==> !less(xs[i], xs[0]);
        }
      } else {
        var rest := Insert(xs[1..], x, less);
        InsertKeepsSorted(xs[1..], x, less);
        InsertKeepsElements(xs[1..], x, less);
        forall i | 0 <= i < |rest| ensures !less(rest[i], xs[0]) {
          assert rest[i] in multiset(rest);
          if rest[i] != x {
            var j :| 0 <= j < |xs[1..]| && xs[1..][j] == rest[i];
            assert xs[j + 1] == rest[i];
          }
        }
      }
    }
  }

  lemma {:induction false} SortSorts<T(!new)>(xs: seq<T>, less: (T, T) -> bool)
    requires StrictOrder(less)
    ensures Sorted(Sort(xs, less), less)
    ensures multiset(Sort(xs, less)) == multiset(xs)
  {
    if xs != [] {
      SortSorts(xs[1..], less);
      InsertKeepsSorted(Sort(xs[1..], less), xs[0], less);
      InsertKeepsElements(Sort(xs[1..], less), xs[0], less);
      assert xs == [xs[0]] + xs[1..];
    }
  }

  lemma SameLeast<T(!new)>(xs: seq<T>, ys: seq<T>, less: (T, T) -> bool)
    requires StrictOrder(less) && Sorted(xs, less) && Sorted(ys, less)
    requires multiset(xs) == multiset(ys) && xs != []
    ensures ys != [] && xs[0] == ys[0]
  {
    assert |multiset(xs)| == |multiset(ys)|;
    assert xs[0] in multiset(ys) && ys[0] in multiset(xs);
    var i :| 0 <= i < |ys| && ys[i] == xs[0];
    var j :| 0 <= j < |xs| && xs[j] == ys[0];
    assert i == 0 || !less(xs[0], ys[0]);
    assert j == 0 || !less(ys[0], xs[0]);
  }

  lemma RestOf<T>(xs: seq<T>, n: nat)
    requires n <= |xs|
    ensures multiset(xs[n..]) == multiset(xs) - multiset(xs[..n])
  {
    assert xs == xs[..n] + xs[n..];
  }

  lemma SameRest<T>(xs: seq<T>, ys: seq<T>, n: nat)
    requires multiset(xs) == multiset(ys) && n <= |xs| && n <= |ys| && xs[..n] == ys[..n]
    ensures multiset(xs[n..]) == multiset(ys[n..])
  {
    RestOf(xs, n);
    RestOf(ys, n);
  }

  /** Two sorted arrangements of the same elements agree on ever longer prefixes: what is left after a common prefix has
      the same elements, and so the same least one. */
  lemma {:induction false} SortedAgreeUpTo<T(!new)>(xs: seq<T>, ys: seq<T>, less: (T, T) -> bool, n: nat)
    requires StrictOrder(less) && Sorted(xs, less) && Sorted(ys, less)
    requires multiset(xs) == multiset(ys) && n <= |xs|
    ensures n <= |ys| && xs[..n] == ys[..n]
  {
    if n > 0 {
      SortedAgreeUpTo(xs, ys, less, n - 1);
      SameRest(xs, ys, n - 1);
      SameLeast(xs[n - 1..], ys[n - 1..], less);
    }
  }

  /** There is only one sorted arrangement of a multiset of elements. */
  lemma SortedIsUnique<T(!new)>(xs: seq<T>, ys: seq<T>, less: (T, T) -> bool)
    requires StrictOrder(less) && Sorted(xs, less) && Sorted(ys, less)
    requires multiset(xs) == multiset(ys)
    ensures xs == ys
  {
    SortedAgreeUpTo(xs, ys, less, |xs|);
    assert |multiset(xs)| == |multiset(ys)|;
  }

  // ---------- Repeating a list ----------

  function Repeated<T>(xs: seq<T>, times: nat): seq<T> {
    if times == 0 then [] else Repeated(xs, times - 1) + xs
  }

  lemma {:induction false} RepeatedElements<T(!new)>(xs: seq<T>, times: nat)
    requires times > 0
    ensures forall x :: x in Repeated(xs, times) <==> x in xs
  {
    if times > 1 {
      RepeatedElements(xs, times - 1);
    }
  }

  // ---------- Listing a set ----------

  function SetOf<T>(xs: seq<T>): set<T> {
    set x | x in xs
  }

  lemma SetOfSnoc<T>(xs: seq<T>, x: T)
    ensures SetOf(xs + [x]) == SetOf(xs) + {x}
  {
    assert x in xs + [x];
    assert forall y | y in xs :: y in xs + [x];
  }

  /** An order in which Go may range over the keys of a map: every key, once. */
  ghost predicate Lists<T>(xs: seq<T>, s: set<T>) {
    && NoDuplicates(xs)
    && (forall x | x in xs :: x in s)
    && (forall x | x in s :: x in xs)
  }

  lemma {:induction false} ListedMultiset<T>(xs: seq<T>, s: set<T>)
    requires Lists(xs, s)
    ensures multiset(xs) == multiset(s)
  {
    if xs == [] {
      assert s == {};
    } else {
      var init, last := xs[..|xs| - 1], xs[|xs| - 1];
      assert xs == init + [last];
      forall x ensures x in s - {last} <==> x in init {
        if x in init {
          var i :| 0 <= i < |init| && init[i] == x;
          assert xs[i] != xs[|xs| - 1];
          assert x in xs;
        }
      }
      ListedMultiset(init, s - {last});
      assert last in xs;
      assert s == (s - {last}) + {last};
    }
  }

  /** Sorting forgets the order in which the set was listed. */
  lemma SortOfListing<T(!new)>(xs: seq<T>, ys: seq<T>, s: set<T>, less: (T, T) -> bool)
    requires StrictOrder(less) && Lists(xs, s) && Lists(ys, s)
    ensures Sort(xs, less) == Sort(ys, less)
    ensures Lists(Sort(xs, less), s)
    ensures StrictlySorted(Sort(xs, less), less)
    ensures |Sort(xs, less)| == |xs|
  {
    ListedMultiset(xs, s);
    ListedMultiset(ys, s);
    SortSorts(xs, less);
    SortSorts(ys, less);
    SortedIsUnique(Sort(xs, less), Sort(ys, less), less);
    MultisetOfSetLists(Sort(xs, less), s);
    assert |multiset(Sort(xs, less))| == |multiset(xs)|;
  }

  lemma MultisetOfSetLists<T>(xs: seq<T>, s: set<T>)
    requires multiset(xs) == multiset(s)
    ensures Lists(xs, s)
  {
    forall x ensures x in s <==> x in xs {
      assert x in multiset(s) <==> x in multiset(xs);
    }
    forall i, j | 0 <= i < j < |xs| ensures xs[i] != xs[j] {
      assert xs == xs[..i] + [xs[i]] + xs[i + 1..j] + [xs[j]] + xs[j + 1..];
      assert multiset(xs)[xs[i]] >= if xs[i] == xs[j] then 2 else 1;
      assert multiset(s)[xs[i]] <= 1;
    }
  }

  lemma ListedIn<T(!new)>(xs: seq<T>, s: set<T>)
    requires Lists(xs, s)
    ensures forall x :: x in xs <==> x in s
  {
  }

  lemma ListedOnce<T(!new)>(xs: seq<T>, s: set<T>)
    requires Lists(xs, s)
    ensures forall i | 0 <= i < |xs| :: xs[i] in s
    ensures forall i, j | 0 <= i < j < |xs| :: xs[i] != xs[j]
    ensures forall x | x in s :: x in xs
  {
  }

  lemma ListsSnoc<T>(xs: seq<T>, s: set<T>, x: T)
    requires Lists(xs, s) && x !in s
    ensures Lists(xs + [x], s + {x})
  {
  }

  /** Ranging over the keys of a map, in whatever order Go picks. */
  method ListKeys<T(==)>(s: set<T>) returns (keys: seq<T>)
    ensures Lists(keys, s)
  {
    keys := [];
    var rest := s;
    while rest != {}
      invariant rest <= s && Lists(keys, s - rest)
      decreases rest
    {
      var key :| key in rest;
      ListsSnoc(keys, s - rest, key);
      assert s - (rest - {key}) == (s - rest) + {key};
      keys, rest := keys + [key], rest - {key};
    }
    assert s - rest == s;
  }

  /** The keys of a map, collected in any order and sorted: one outcome. */
  method SortedKeys<T(==, !new)>(keys: set<T>, less: (T, T) -> bool) returns (sorted: seq<T>)
    requires StrictOrder(less)
    ensures Lists(sorted, keys) && StrictlySorted(sorted, less)
    ensures forall order | Lists(order, keys) :: sorted == Sort(order, less)
  {
    hide Sort;
    hide Lists;
    hide StrictOrder;
    var listing := ListKeys(keys);
    sorted := Sort(listing, less);
    SortOfListing(listing, listing, keys, less);
    forall order | Lists(order, keys) ensures sorted == Sort(order, less) {
      SortOfListing(listing, order, keys, less);
    }
  }
}
