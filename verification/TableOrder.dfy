/** Sorting of list responses (http/middleware/middleware.go, `DataTableQuery`): the comparator as the code
    has it, when it is an order at all, and the stable sort. */
module TableOrder {
  import opened Text

  /** A row: the printed value of each field it has, and its JSON text. */
  datatype Item = Item(fields: map<string, string>, encoded: string)

  function Printed(item: Item, field: string): string { if field in item.fields then item.fields[field] else "<nil>" }

  /** `strings.Compare(a, b) < 0`. */
  predicate LexLess(a: string, b: string) {
    b != "" && (a == "" || a[0] < b[0] || (a[0] == b[0] && LexLess(a[1..], b[1..])))
  }

  /** The texts agree up to `k`, and there the first one ends or has the smaller character. */
  predicate SmallerFrom(a: string, b: string, k: nat) {
    k <= |a| && k <= |b| && a[..k] == b[..k] && k < |b| && (k == |a| || a[k] < b[k])
  }

  ghost predicate Smaller(a: string, b: string) { exists k: nat :: SmallerFrom(a, b, k) }

  lemma SameFirst(a: string, b: string, k: nat)
    requires k <= |a| && k <= |b| && a[..k] == b[..k]
    ensures k > 0 ==> a[0] == b[0]
  {
    if k > 0 {
      assert a[..k][0] == a[0] && b[..k][0] == b[0];
    }
  }

  /** The comparison is the dictionary order: what counts is the first place where the texts differ. */
  lemma {:induction false} LexLessIff(a: string, b: string)
    ensures LexLess(a, b) <==> Smaller(a, b)
  {
    if a == "" || b == "" || a[0] != b[0] {
      assert LexLess(a, b) ==> SmallerFrom(a, b, 0);
      forall k: nat | SmallerFrom(a, b, k) ensures k == 0 {
        SameFirst(a, b, k);
      }
    } else {
      LexLessIff(a[1..], b[1..]);
      forall k: nat | SmallerFrom(a[1..], b[1..], k) ensures SmallerFrom(a, b, k + 1) {
        assert a[..k + 1] == [a[0]] + a[1..][..k] && b[..k + 1] == [b[0]] + b[1..][..k];
      }
      forall k: nat | SmallerFrom(a, b, k) ensures k > 0 && SmallerFrom(a[1..], b[1..], k - 1) {
        assert a[1..][..k - 1] == a[..k][1..] && b[1..][..k - 1] == b[..k][1..];
      }
    }
  }

  lemma {:induction false} LexTransitive(a: string, b: string, c: string)
    requires LexLess(a, b) && LexLess(b, c)
    ensures LexLess(a, c)
  {
    if a != "" && a[0] == b[0] == c[0] {
      LexTransitive(a[1..], b[1..], c[1..]);
    }
  }

  lemma {:induction false} LexIrreflexive(a: string)
    ensures !LexLess(a, a)
  {
    if a != "" {
      LexIrreflexive(a[1..]);
    }
  }

  lemma {:induction false} LexTrichotomy(a: string, b: string)
    ensures LexLess(a, b) || a == b || LexLess(b, a)
    ensures !(LexLess(a, b) && LexLess(b, a)) && !LexLess(a, a)
    decreases |a| + |b|
  {
    if a != "" && b != "" {
      assert a == [a[0]] + a[1..] && b == [b[0]] + b[1..];
      LexTrichotomy(a[1..], b[1..]);
    }
    LexIrreflexive(a);
  }

  /** The comparator on printed values. */
  predicate Before(desc: bool, a: string, b: string) {
    var less := LexLess(Lower(a), Lower(b));
    if desc then !less && a != b else less
  }

  /** What a sort needs of its comparator on the given values. */
  ghost predicate StrictWeakOrder(desc: bool, values: set<string>) {
    && (forall a <- values :: !Before(desc, a, a))
    && (forall a <- values, b <- values :: Before(desc, a, b) ==> !Before(desc, b, a))
    && (forall a <- values, b <- values, c <- values :: Before(desc, a, b) && Before(desc, b, c) ==> Before(desc, a, c))
    && (forall a <- values, b <- values, c <- values ::
          !Before(desc, a, b) && !Before(desc, b, a) && !Before(desc, b, c) && !Before(desc, c, b) ==>
            !Before(desc, a, c) && !Before(desc, c, a))
  }

  ghost predicate CaseClash(values: set<string>) { exists a <- values, b <- values :: a != b && Lower(a) == Lower(b) }

  /** The order of lower-cased values that the comparator is meant to give. */
  ghost predicate Precedes(desc: bool, x: string, y: string) { if desc then Smaller(y, x) else Smaller(x, y) }

  lemma PrecedesTotal(desc: bool, x: string, y: string)
    ensures Precedes(desc, x, y) || x == y || Precedes(desc, y, x)
    ensures !(Precedes(desc, x, y) && Precedes(desc, y, x)) && !Precedes(desc, x, x)
  {
    hide LexLess, Smaller;
    LexLessIff(x, y);
    LexLessIff(y, x);
    LexLessIff(x, x);
    LexTrichotomy(x, y);
    LexTrichotomy(x, x);
  }

  lemma PrecedesTransitive(desc: bool, x: string, y: string, z: string)
    requires Precedes(desc, x, y) && Precedes(desc, y, z)
    ensures Precedes(desc, x, z)
  {
    hide LexLess, Smaller;
    var a, c := if desc then z else x, if desc then x else z;
    LexLessIff(a, y);
    LexLessIff(y, c);
    LexLessIff(a, c);
    LexTransitive(a, y, c);
  }

  lemma BeforeIsPrecedes(desc: bool, a: string, b: string)
    requires desc ==> a == b || Lower(a) != Lower(b)
    ensures Before(desc, a, b) <==> Precedes(desc, Lower(a), Lower(b))
  {
    hide LexLess, Smaller;
    LexLessIff(Lower(a), Lower(b));
    LexLessIff(Lower(b), Lower(a));
    LexTrichotomy(Lower(a), Lower(b));
  }

  /** The ascending comparator is a strict weak order on all values; the descending one exactly on those of
      which no two differ only by case, because it puts each of such a pair before the other. */
  lemma OrderIff(desc: bool, values: set<string>)
    ensures StrictWeakOrder(desc, values) <==> !desc || !CaseClash(values)
  {
    if !desc || !CaseClash(values) {
      hide Before, Precedes;
      forall a <- values, b <- values
        ensures Before(desc, a, b) <==> Precedes(desc, Lower(a), Lower(b))
        ensures !Before(desc, a, a) && (Before(desc, a, b) ==> !Before(desc, b, a))
        ensures !Before(desc, a, b) && !Before(desc, b, a) ==> Lower(a) == Lower(b)
      {
        BeforeIsPrecedes(desc, a, b);
        BeforeIsPrecedes(desc, b, a);
        BeforeIsPrecedes(desc, a, a);
        PrecedesTotal(desc, Lower(a), Lower(b));
      }
      forall a <- values, b <- values, c <- values | Before(desc, a, b) && Before(desc, b, c) ensures Before(desc, a, c) {
        PrecedesTransitive(desc, Lower(a), Lower(b), Lower(c));
      }
    } else {
      var a, b :| a in values && b in values && a != b && Lower(a) == Lower(b);
      LexTrichotomy(Lower(a), Lower(a));
      assert Before(desc, a, b) && Before(desc, b, a);
    }
  }

  // The stable insertion sort, for any comparator.

  datatype Order = Order(field: string, desc: bool)

  function Rank(o: Order, x: Item): string { Lower(Printed(x, o.field)) }

  predicate Less(o: Order, x: Item, y: Item) { Before(o.desc, Printed(x, o.field), Printed(y, o.field)) }

  /** Moves the new last item left past those it must come before. */
  function Insert(o: Order, sorted: seq<Item>, x: Item): seq<Item>
    decreases |sorted|
  {
    if sorted == [] then [x]
    else
      var last := sorted[|sorted| - 1];
      if Less(o, x, last) then Insert(o, sorted[..|sorted| - 1], x) + [last] else sorted + [x]
  }

  function Sorted(o: Order, items: seq<Item>): (r: seq<Item>)
    decreases |items|
  {
    if items == [] then [] else Insert(o, Sorted(o, items[..|items| - 1]), items[|items| - 1])
  }

  lemma {:induction false} InsertKeepsRows(o: Order, sorted: seq<Item>, x: Item)
    ensures multiset(Insert(o, sorted, x)) == multiset(sorted) + multiset{x}
    decreases |sorted|
  {
    hide Less;
    if sorted != [] {
      var init, last := sorted[..|sorted| - 1], sorted[|sorted| - 1];
      assert sorted == init + [last];
      InsertKeepsRows(o, init, x);
    }
  }

  /** Whatever the comparator, order or not, sorting moves rows only: each is there as often as before. */
  lemma {:induction false} SortKeepsRows(o: Order, items: seq<Item>)
    ensures multiset(Sorted(o, items)) == multiset(items)
    decreases |items|
  {
    hide Insert;
    if items != [] {
      var init, last := items[..|items| - 1], items[|items| - 1];
      assert items == init + [last];
      SortKeepsRows(o, init);
      InsertKeepsRows(o, Sorted(o, init), last);
    }
  }

  method Sort(o: Order, a: array<Item>)
    modifies a
    ensures a[..] == Sorted(o, old(a[..]))
  {
    var i := 0;
    ghost var was := a[..];
    assert was[..0] == a[..0] == [];
    while i < a.Length
      invariant 0 <= i <= a.Length
      invariant a[..i] == Sorted(o, was[..i]) && a[i..] == was[i..]
    {
      SinkLast(o, a, i);
      assert was[..i + 1][..i] == was[..i] && was[i] == was[i..][0];
      i := i + 1;
    }
    assert was[..i] == was && a[..i] == a[..];
  }

  method SinkLast(o: Order, a: array<Item>, i: nat)
    requires i < a.Length
    modifies a
    ensures a[..i + 1] == Insert(o, old(a[..i]), old(a[i])) && a[i + 1..] == old(a[i + 1..])
  {
    hide Insert, Less;
    var j := i;
    ghost var x, head, tail := a[i], a[..i], [];
    while j > 0 && Less(o, a[j], a[j - 1])
      invariant 0 <= j <= i && a[j] == x && |head| == j && |tail| == i - j
      invariant forall k :: 0 <= k < j ==> a[k] == head[k]
      invariant forall k :: j < k <= i ==> a[k] == tail[k - j - 1]
      invariant forall k :: i < k < a.Length ==> a[k] == old(a[k])
      invariant Insert(o, old(a[..i]), x) == Insert(o, head, x) + tail
    {
      InsertBefore(o, head, x, tail);
      head, tail := head[..j - 1], [head[j - 1]] + tail;
      a[j], a[j - 1] := a[j - 1], a[j];
      j := j - 1;
    }
    InsertStep(o, head, x);
    assert a[..i + 1] == head + [x] + tail;
  }

  /** Sinking past one more row. */
  lemma InsertBefore(o: Order, head: seq<Item>, x: Item, tail: seq<Item>)
    requires head != [] && Less(o, x, head[|head| - 1])
    ensures Insert(o, head, x) + tail == Insert(o, head[..|head| - 1], x) + ([head[|head| - 1]] + tail)
  {
    hide Insert, Less;
    InsertStep(o, head, x);
  }

  lemma InsertStep(o: Order, sorted: seq<Item>, x: Item)
    ensures sorted == [] ==> Insert(o, sorted, x) == [x]
    ensures sorted != [] ==>
              var last := sorted[|sorted| - 1];
              Insert(o, sorted, x) == if Less(o, x, last) then Insert(o, sorted[..|sorted| - 1], x) + [last] else sorted + [x]
  {
  }

  /** The rows of one rank, in their order. */
  function Class(o: Order, s: seq<Item>, rank: string): seq<Item>
    decreases |s|
  {
    if s == [] then []
    else Class(o, s[..|s| - 1], rank) + (if Rank(o, s[|s| - 1]) == rank then [s[|s| - 1]] else [])
  }

  lemma {:induction false} ClassConcat(o: Order, s: seq<Item>, t: seq<Item>, rank: string)
    ensures Class(o, s + t, rank) == Class(o, s, rank) + Class(o, t, rank)
    decreases |t|
  {
    if t == [] {
      assert s + t == s;
    } else {
      assert (s + t)[..|s + t| - 1] == s + t[..|t| - 1];
      ClassConcat(o, s, t[..|t| - 1], rank);
    }
  }

  ghost predicate Ordered(o: Order, s: seq<Item>) {
    forall i, j :: 0 <= i < j < |s| ==> !Precedes(o.desc, Rank(o, s[j]), Rank(o, s[i]))
  }

  /** `r` holds the rows of `s` in order of rank, those of equal rank in their order in `s`. */
  ghost predicate IsStableSort(o: Order, s: seq<Item>, r: seq<Item>) {
    Ordered(o, r) && forall rank :: Class(o, r, rank) == Class(o, s, rank)
  }

  ghost predicate Sortable(o: Order, s: seq<Item>) { !o.desc || !CaseClash(set x <- s :: Printed(x, o.field)) }

  function OneOf(o: Order, x: Item, rank: string): seq<Item> { if Rank(o, x) == rank then [x] else [] }

  lemma ClassAppend(o: Order, s: seq<Item>, x: Item, rank: string)
    ensures Class(o, s + [x], rank) == Class(o, s, rank) + OneOf(o, x, rank)
  {
    assert (s + [x])[..|s|] == s;
  }

  lemma {:induction false} InsertRanks(o: Order, sorted: seq<Item>, x: Item, rank: string)
    requires forall y <- sorted :: Less(o, x, y) ==> Rank(o, x) != Rank(o, y)
    ensures Class(o, Insert(o, sorted, x), rank) == Class(o, sorted, rank) + OneOf(o, x, rank)
    decreases |sorted|
  {
    hide Less, Rank, Class, Insert;
    InsertStep(o, sorted, x);
    ClassAppend(o, sorted, x, rank);
    if sorted != [] {
      var init, last := sorted[..|sorted| - 1], sorted[|sorted| - 1];
      assert sorted == init + [last];
      if Less(o, x, last) {
        InsertRanks(o, init, x, rank);
        ClassAppend(o, Insert(o, init, x), last, rank);
        ClassAppend(o, init, last, rank);
        assert OneOf(o, x, rank) == [] || OneOf(o, last, rank) == [];
      }
    } else {
      assert sorted + [x] == [x];
    }
  }

  lemma {:induction false} InsertMembers(o: Order, sorted: seq<Item>, x: Item, y: Item)
    ensures y in Insert(o, sorted, x) <==> y in sorted || y == x
    decreases |sorted|
  {
    hide Less;
    if sorted != [] {
      assert sorted == sorted[..|sorted| - 1] + [sorted[|sorted| - 1]];
      InsertMembers(o, sorted[..|sorted| - 1], x, y);
    }
  }

  lemma OrderedAppend(o: Order, s: seq<Item>, x: Item)
    requires Ordered(o, s) && forall y <- s :: !Precedes(o.desc, Rank(o, x), Rank(o, y))
    ensures Ordered(o, s + [x])
  {
    hide Precedes, Rank;
  }

  lemma {:induction false} InsertOrders(o: Order, sorted: seq<Item>, x: Item)
    requires Ordered(o, sorted)
    requires forall y <- sorted :: Less(o, x, y) <==> Precedes(o.desc, Rank(o, x), Rank(o, y))
    ensures Ordered(o, Insert(o, sorted, x))
    decreases |sorted|
  {
    hide Less, Rank, Precedes, Ordered;
    if sorted == [] {
      assert Insert(o, sorted, x) == [] + [x];
      EmptyIsOrdered(o);
      OrderedAppend(o, [], x);
    } else {
      var init, last := sorted[..|sorted| - 1], sorted[|sorted| - 1];
      assert sorted == init + [last];
      OrderedParts(o, init, last);
      if Less(o, x, last) {
        InsertOrders(o, init, x);
        forall y <- Insert(o, init, x) ensures !Precedes(o.desc, Rank(o, last), Rank(o, y)) {
          InsertMembers(o, init, x, y);
          PrecedesTotal(o.desc, Rank(o, x), Rank(o, last));
        }
        OrderedAppend(o, Insert(o, init, x), last);
      } else {
        forall y <- sorted ensures !Precedes(o.desc, Rank(o, x), Rank(o, y)) {
          if Precedes(o.desc, Rank(o, x), Rank(o, y)) {
            LastIsLast(o, init, last, x, y);
          }
        }
        OrderedAppend(o, sorted, x);
      }
    }
  }

  lemma EmptyIsOrdered(o: Order)
    ensures Ordered(o, [])
  {
  }

  lemma OrderedParts(o: Order, init: seq<Item>, last: Item)
    requires Ordered(o, init + [last])
    ensures Ordered(o, init) && forall y <- init :: !Precedes(o.desc, Rank(o, last), Rank(o, y))
  {
    hide Precedes, Rank;
    var s := init + [last];
    assert forall i :: 0 <= i < |init| ==> s[i] == init[i];
    forall y <- init ensures !Precedes(o.desc, Rank(o, last), Rank(o, y)) {
      var i :| 0 <= i < |init| && init[i] == y;
      assert s[i] == y && s[|init|] == last;
    }
  }

  lemma LastIsLast(o: Order, init: seq<Item>, last: Item, x: Item, y: Item)
    requires forall z <- init :: !Precedes(o.desc, Rank(o, last), Rank(o, z))
    requires y in init + [last] && Precedes(o.desc, Rank(o, x), Rank(o, y))
    ensures Precedes(o.desc, Rank(o, x), Rank(o, last))
  {
    hide Precedes, Rank;
    if y != last {
      PrecedesTotal(o.desc, Rank(o, y), Rank(o, last));
      if Rank(o, y) != Rank(o, last) {
        PrecedesTransitive(o.desc, Rank(o, x), Rank(o, y), Rank(o, last));
      }
    }
  }

  lemma LessIsPrecedes(o: Order, s: seq<Item>, x: Item, y: Item)
    requires Sortable(o, s) && x in s && y in s
    ensures Less(o, x, y) <==> Precedes(o.desc, Rank(o, x), Rank(o, y))
    ensures Less(o, x, y) ==> Rank(o, x) != Rank(o, y)
  {
    hide LexLess;
    var values := set z <- s :: Printed(z, o.field);
    assert Printed(x, o.field) in values && Printed(y, o.field) in values;
    BeforeIsPrecedes(o.desc, Printed(x, o.field), Printed(y, o.field));
    PrecedesTotal(o.desc, Rank(o, x), Rank(o, y));
  }

  lemma {:induction false} SortedMembers(o: Order, s: seq<Item>)
    ensures forall y :: y in Sorted(o, s) <==> y in s
    decreases |s|
  {
    if s != [] {
      var init, last := s[..|s| - 1], s[|s| - 1];
      SortedMembers(o, init);
      forall y ensures y in Sorted(o, s) <==> y in s {
        InsertMembers(o, Sorted(o, init), last, y);
        assert s == init + [last];
      }
    }
  }

  /** Where the comparator is an order, the sort is right: every row once, in order, stable. */
  lemma {:induction false} SortIsStable(o: Order, s: seq<Item>)
    requires Sortable(o, s)
    ensures IsStableSort(o, s, Sorted(o, s))
    decreases |s|
  {
    hide Less, Rank, Precedes, Insert;
    if s == [] {
    } else {
      var init, last := s[..|s| - 1], s[|s| - 1];
      assert s == init + [last];
      assert (set x <- init :: Printed(x, o.field)) <= set x <- s :: Printed(x, o.field);
      SortIsStable(o, init);
      SortedMembers(o, init);
      forall y <- Sorted(o, init)
        ensures Less(o, last, y) <==> Precedes(o.desc, Rank(o, last), Rank(o, y))
        ensures Less(o, last, y) ==> Rank(o, last) != Rank(o, y)
      {
        LessIsPrecedes(o, s, last, y);
      }
      InsertOrders(o, Sorted(o, init), last);
      forall rank ensures Class(o, Sorted(o, s), rank) == Class(o, s, rank) {
        InsertRanks(o, Sorted(o, init), last, rank);
        ClassAppend(o, init, last, rank);
      }
    }
  }

  lemma {:induction false} ClassMembers(o: Order, s: seq<Item>, x: Item)
    ensures x in Class(o, s, Rank(o, x)) <==> x in s
    decreases |s|
  {
    hide Rank;
    if s != [] {
      assert s == s[..|s| - 1] + [s[|s| - 1]];
      ClassMembers(o, s[..|s| - 1], x);
    }
  }

  lemma FirstHasLeastRank(o: Order, s: seq<Item>, x: Item)
    requires Ordered(o, s) && x in s
    ensures !Precedes(o.desc, Rank(o, x), Rank(o, s[0]))
  {
    hide Precedes, Rank;
    var i :| 0 <= i < |s| && s[i] == x;
    assert i > 0 ==> !Precedes(o.desc, Rank(o, s[i]), Rank(o, s[0]));
    PrecedesTotal(o.desc, Rank(o, s[0]), Rank(o, s[0]));
  }

  /** The requirement determines the result: whatever stable sort is used gives the same rows. */
  lemma StableSortIsUnique(o: Order, s: seq<Item>, r1: seq<Item>, r2: seq<Item>)
    requires IsStableSort(o, s, r1) && IsStableSort(o, s, r2)
    ensures r1 == r2
  {
    assert forall rank :: Class(o, r1, rank) == Class(o, r2, rank);
    SameClassesSameRows(o, r1, r2);
  }

  lemma {:induction false} SameClassesSameRows(o: Order, r1: seq<Item>, r2: seq<Item>)
    requires Ordered(o, r1) && Ordered(o, r2)
    requires forall rank :: Class(o, r1, rank) == Class(o, r2, rank)
    ensures r1 == r2
    decreases |r1|
  {
    hide Rank, Precedes, Class;
    if r1 == [] || r2 == [] {
      if r1 != [] {
        ClassMembers(o, r1, r1[0]);
        ClassMembers(o, r2, r1[0]);
      } else if r2 != [] {
        ClassMembers(o, r1, r2[0]);
        ClassMembers(o, r2, r2[0]);
      }
    } else {
      var rank := Rank(o, r1[0]);
      SameFirstRank(o, r1, r2);
      forall k ensures Class(o, r1, k) == OneOf(o, r1[0], k) + Class(o, r1[1..], k)
        && Class(o, r2, k) == OneOf(o, r2[0], k) + Class(o, r2[1..], k)
      {
        ClassHead(o, r1, k);
        ClassHead(o, r2, k);
      }
      assert Class(o, r1, rank)[0] == r1[0] && Class(o, r2, rank)[0] == r2[0];
      forall k ensures Class(o, r1[1..], k) == Class(o, r2[1..], k) {
        var one := OneOf(o, r1[0], k);
        assert (one + Class(o, r1[1..], k))[|one|..] == Class(o, r1[1..], k);
        assert (one + Class(o, r2[1..], k))[|one|..] == Class(o, r2[1..], k);
      }
      TailIsOrdered(o, r1);
      TailIsOrdered(o, r2);
      SameClassesSameRows(o, r1[1..], r2[1..]);
      assert r1 == [r1[0]] + r1[1..] && r2 == [r2[0]] + r2[1..];
    }
  }

  lemma TailIsOrdered(o: Order, s: seq<Item>)
    requires Ordered(o, s) && s != []
    ensures Ordered(o, s[1..])
  {
    hide Rank, Precedes;
    forall i, j | 0 <= i < j < |s[1..]| ensures !Precedes(o.desc, Rank(o, s[1..][j]), Rank(o, s[1..][i])) {
      assert s[1..][i] == s[i + 1] && s[1..][j] == s[j + 1];
    }
  }

  lemma ClassHead(o: Order, s: seq<Item>, rank: string)
    requires s != []
    ensures Class(o, s, rank) == OneOf(o, s[0], rank) + Class(o, s[1..], rank)
  {
    assert s == [s[0]] + s[1..];
    ClassConcat(o, [s[0]], s[1..], rank);
    ClassAppend(o, [], s[0], rank);
    assert [] + [s[0]] == [s[0]];
  }

  lemma SameFirstRank(o: Order, r1: seq<Item>, r2: seq<Item>)
    requires Ordered(o, r1) && Ordered(o, r2) && r1 != [] && r2 != []
    requires forall rank :: Class(o, r1, rank) == Class(o, r2, rank)
    ensures Rank(o, r1[0]) == Rank(o, r2[0])
  {
    hide Rank, Precedes, Class, Ordered;
    ClassMembers(o, r1, r1[0]);
    ClassMembers(o, r2, r1[0]);
    ClassMembers(o, r1, r2[0]);
    ClassMembers(o, r2, r2[0]);
    FirstHasLeastRank(o, r1, r2[0]);
    FirstHasLeastRank(o, r2, r1[0]);
    PrecedesTotal(o.desc, Rank(o, r1[0]), Rank(o, r2[0]));
  }
}
