/** The common query of list endpoints (http/middleware/middleware.go, `DataTableQuery`), and what becomes of a
    handler that pages by itself (http/handlers/handlers.go, `pagination`). */
module TableQuery {
  import opened Common
  import opened Text
  import opened TableOrder

  type Query = map<string, seq<string>>

  function Get(query: Query, key: string): string {
    if key in query && query[key] != [] then query[key][0] else ""
  }

  // Numbers.

  function Digits(s: string): Option<nat>
    decreases |s|
  {
    if s == "" then None
    else
      var init, c := s[..|s| - 1], s[|s| - 1];
      if !('0' <= c <= '9') then None
      else if init == "" then Some((c - '0') as nat)
      else match Digits(init) case None => None case Some(n) => Some(10 * n + (c - '0') as nat)
  }

  datatype Parsed = Parsed(value: int, ok: bool)

  /** `strconv.Atoi`: an integer out of range is an error, but with the nearest bound as its value. */
  function Atoi(s: string): Parsed {
    if s == "" then Parsed(0, false)
    else
      match Digits(if s[0] == '-' || s[0] == '+' then s[1..] else s)
      case None => Parsed(0, false)
      case Some(n) =>
        var v: int := if s[0] == '-' then -(n as int) else n;
        if v > MAX_INT64 then Parsed(MAX_INT64, false)
        else if v < -MAX_INT64 - 1 then Parsed(-MAX_INT64 - 1, false)
        else Parsed(v, true)
  }

  function PositiveInt(value: string, fallback: int): (n: int)
    requires 1 <= fallback <= MAX_INT64
    ensures 1 <= n <= MAX_INT64
  {
    if Atoi(value).ok && Atoi(value).value >= 1 then Atoi(value).value else fallback
  }

  /** The decimal numeral of a number. */
  function Numeral(n: nat): string {
    (if n < 10 then "" else Numeral(n / 10)) + [['0', '1', '2', '3', '4', '5', '6', '7', '8', '9'][n % 10]]
  }

  predicate AllDigits(s: string) { forall c <- s :: 48 <= c as int <= 57 }

  lemma {:induction false} DigitsOfNumeral(n: nat)
    ensures Digits(Numeral(n)) == Some(n) && AllDigits(Numeral(n)) && Numeral(n) != ""
  {
    var s := Numeral(n);
    var c := s[|s| - 1];
    assert c as int == 48 + n % 10;
    if n < 10 {
      assert s == [c];
    } else {
      DigitsOfNumeral(n / 10);
      assert s == Numeral(n / 10) + [c] && s[..|s| - 1] == Numeral(n / 10);
    }
  }

  lemma LastDigit(init: string, c: char)
    ensures AllDigits(init + [c]) <==> AllDigits(init) && 48 <= c as int <= 57
  {
    assert forall x :: x in init + [c] <==> x in init || x == c;
    assert AllDigits(init + [c]) ==> c in init + [c];
    forall x | x in init && AllDigits(init + [c]) ensures 48 <= x as int <= 57 {
      assert x in init + [c];
    }
  }

  lemma {:induction false} DigitsIff(s: string)
    ensures Digits(s).Some? <==> s != "" && AllDigits(s)
    ensures Digits(s).Some? ==> Digits("0" + s) == Digits(s)
    decreases |s|
  {
    if s != "" {
      var init, c := s[..|s| - 1], s[|s| - 1];
      assert s == init + [c] && ("0" + s)[..|s|] == "0" + init;
      LastDigit(init, c);
      DigitsIff(init);
      assert Digits("0") == Some(0) && "0" + "" == "0";
    }
  }

  /** What a number parameter is read as: a numeral within 64 bits as itself; one beyond them, zero, a
      negative number and anything that is not a signed string of digits as the fallback. */
  lemma PositiveIntReads(value: string, fallback: int, n: nat)
    requires 1 <= fallback <= MAX_INT64
    ensures PositiveInt(Numeral(n), fallback) == PositiveInt("+" + Numeral(n), fallback) == if 1 <= n <= MAX_INT64 then n else fallback
    ensures PositiveInt("-" + Numeral(n), fallback) == fallback
    ensures value == "" || !AllDigits(if value[0] == '-' || value[0] == '+' then value[1..] else value) ==>
              PositiveInt(value, fallback) == fallback
  {
    hide Digits, Numeral;
    DigitsOfNumeral(n);
    assert Numeral(n)[0] in Numeral(n);
    assert ("+" + Numeral(n))[1..] == Numeral(n) == ("-" + Numeral(n))[1..];
    if value != "" {
      DigitsIff(if value[0] == '-' || value[0] == '+' then value[1..] else value);
    }
  }

  function Page(query: Query): int { PositiveInt(Get(query, "page"), 1) }

  function PerPage(query: Query): (perPage: int)
    ensures 1 <= perPage <= 100
  {
    var n := PositiveInt(Get(query, "per_page"), 25);
    if n > 100 then 100 else n
  }

  // Search and filters.

  function TrimSpace(s: string): string
    decreases |s|
  {
    if s != "" && s[0] in " \t\n\r\U{0B}\U{0C}" then TrimSpace(s[1..])
    else if s != "" && s[|s| - 1] in " \t\n\r\U{0B}\U{0C}" then TrimSpace(s[..|s| - 1])
    else s
  }

  predicate IsSpace(c: char) { 9 <= c as int <= 13 || c == ' ' }

  lemma TrimStep(s: string)
    ensures TrimSpace(s) == if s != "" && IsSpace(s[0]) then TrimSpace(s[1..])
                            else if s != "" && IsSpace(s[|s| - 1]) then TrimSpace(s[..|s| - 1]) else s
  {
    assert forall c: char :: c in " \t\n\r\U{0B}\U{0C}" <==> IsSpace(c);
  }

  /** Trimming takes away the spaces at both ends and nothing else. */
  lemma {:induction false} TrimSpec(s: string) returns (before: string, after: string)
    ensures var t := TrimSpace(s);
            && s == before + t + after && (forall c <- before + after :: IsSpace(c))
            && (t != "" ==> !IsSpace(t[0]) && !IsSpace(t[|t| - 1]))
    decreases |s|
  {
    TrimStep(s);
    hide TrimSpace, IsSpace;
    before, after := "", "";
    if s != "" && IsSpace(s[0]) {
      before, after := TrimSpec(s[1..]);
      assert s == [s[0]] + s[1..];
      before := [s[0]] + before;
    } else if s != "" && IsSpace(s[|s| - 1]) {
      before, after := TrimSpec(s[..|s| - 1]);
      assert s == s[..|s| - 1] + [s[|s| - 1]];
      after := after + [s[|s| - 1]];
    }
  }

  const FILTER := "filter_"

  predicate HasFilter(query: Query) { exists key <- query :: FILTER <= key }

  /** One query parameter, as a filter. Other parameters and empty values do not filter. */
  predicate Allows(item: Item, key: string, values: seq<string>) {
    FILTER <= key && values != [] && values[0] != "" ==> Lower(Printed(item, key[|FILTER|..])) == Lower(values[0])
  }

  predicate Keeps(query: Query, item: Item) {
    var q := Lower(TrimSpace(Get(query, "q")));
    (q == "" || Contains(Lower(item.encoded), q)) && forall key <- query :: Allows(item, key, query[key])
  }

  method MatchesFilters(item: Item, query: Query) returns (ok: bool)
    ensures ok <==> forall key <- query :: Allows(item, key, query[key])
  {
    var rest := query.Keys;
    while rest != {}
      invariant rest <= query.Keys
      invariant forall key <- query :: key !in rest ==> Allows(item, key, query[key])
    {
      var key :| key in rest;
      var list := query[key];
      if FILTER <= key && list != [] && list[0] != "" {
        if Lower(Printed(item, key[|FILTER|..])) != Lower(list[0]) {
          return false;
        }
      }
      rest := rest - {key};
    }
    return true;
  }

  /** An element of the response's data: only objects are rows. */
  datatype Entry = Row(item: Item) | Scalar(text: string)

  function Filtered(query: Query, raw: seq<Entry>): seq<Item>
    decreases |raw|
  {
    if raw == [] then []
    else
      var e := raw[|raw| - 1];
      Filtered(query, raw[..|raw| - 1]) + (if e.Row? && Keeps(query, e.item) then [e.item] else [])
  }

  function AsRows(items: seq<Item>): (r: seq<Entry>)
    ensures |r| == |items| && forall i :: 0 <= i < |r| ==> r[i] == Row(items[i])
  {
    seq(|items|, i requires 0 <= i < |items| => Row(items[i]))
  }

  /** The value of a parameter: the first one given. */
  predicate Asks(query: Query, key: string, value: string) { key in query && query[key] != [] && query[key][0] == value }

  /** The search text occurs in the row, and every field with a filter has the filter's value, up to case. */
  ghost predicate Wanted(query: Query, x: Item) {
    && (forall q | Asks(query, "q", q) && TrimSpace(q) != "" ::
          exists a: string, b: string :: Lower(x.encoded) == a + Lower(TrimSpace(q)) + b)
    && (forall field, value | Asks(query, "filter_" + field, value) && value != "" ::
          Lower(if field in x.fields then x.fields[field] else "<nil>") == Lower(value))
  }

  lemma SearchIff(query: Query, x: Item)
    ensures var q := Lower(TrimSpace(Get(query, "q")));
            q == "" || Contains(Lower(x.encoded), q) <==>
            forall v | Asks(query, "q", v) && TrimSpace(v) != "" ::
              exists a: string, b: string :: Lower(x.encoded) == a + Lower(TrimSpace(v)) + b
  {
    hide TrimSpace, Contains;
    var v := Get(query, "q");
    assert v != "" ==> Asks(query, "q", v);
    assert TrimSpace("") == "" by { var _, _ := TrimSpec(""); }
    ContainsIff(Lower(x.encoded), Lower(TrimSpace(v)));
  }

  lemma KeepsIff(query: Query, x: Item)
    ensures Keeps(query, x) <==> Wanted(query, x)
  {
    SearchIff(query, x);
    hide TrimSpace, Contains, Get, Lower;
    forall field, value | Asks(query, "filter_" + field, value) && value != ""
      ensures Allows(x, "filter_" + field, query["filter_" + field]) <==>
              Lower(if field in x.fields then x.fields[field] else "<nil>") == Lower(value)
    {
      assert ("filter_" + field)[|FILTER|..] == field;
    }
    forall key <- query | FILTER <= key && query[key] != [] ensures Asks(query, "filter_" + key[|FILTER|..], query[key][0]) {
      assert key == "filter_" + key[|FILTER|..];
    }
    assert Keeps(query, x) ==> forall field, value | Asks(query, "filter_" + field, value) :: Allows(x, "filter_" + field, query["filter_" + field]);
  }

  /** Filtering keeps exactly the objects that are wanted. */
  lemma FilterKeepsExactly(query: Query, raw: seq<Entry>)
    ensures forall x :: x in Filtered(query, raw) <==> Row(x) in raw && Wanted(query, x)
  {
    hide Keeps, Wanted, Filtered;
    KeptRows(query, raw);
    forall x ensures Keeps(query, x) <==> Wanted(query, x) {
      KeepsIff(query, x);
    }
  }

  lemma {:induction false} KeptRows(query: Query, raw: seq<Entry>)
    ensures forall x :: x in Filtered(query, raw) <==> Row(x) in raw && Keeps(query, x)
    ensures |Filtered(query, raw)| <= |raw|
    decreases |raw|
  {
    hide Keeps;
    if raw != [] {
      assert raw == raw[..|raw| - 1] + [raw[|raw| - 1]];
      KeptRows(query, raw[..|raw| - 1]);
    }
  }

  /** Entries are filtered one by one, in order, each as often as it occurs. */
  lemma {:induction false} FilterConcat(query: Query, a: seq<Entry>, b: seq<Entry>)
    ensures Filtered(query, a + b) == Filtered(query, a) + Filtered(query, b)
    decreases |b|
  {
    hide Keeps;
    if b == [] {
      assert a + b == a;
    } else {
      assert (a + b)[..|a + b| - 1] == a + b[..|b| - 1];
      FilterConcat(query, a, b[..|b| - 1]);
    }
  }

  lemma {:induction false} FilterAllKept(query: Query, items: seq<Item>)
    requires forall x <- items :: Keeps(query, x)
    ensures Filtered(query, AsRows(items)) == items
    decreases |items|
  {
    hide Keeps;
    if items != [] {
      var init, last := items[..|items| - 1], items[|items| - 1];
      assert items == init + [last] && AsRows(items)[..|items| - 1] == AsRows(init);
      FilterAllKept(query, init);
    }
  }

  lemma FilterTwice(query: Query, raw: seq<Entry>)
    ensures Filtered(query, AsRows(Filtered(query, raw))) == Filtered(query, raw)
  {
    hide Keeps;
    KeptRows(query, raw);
    FilterAllKept(query, Filtered(query, raw));
  }

  // Paging.

  function Offset(page: int, perPage: int): int { (page - 1) * perPage }

  lemma OffsetSteps(page: int, perPage: int)
    requires page >= 1 && perPage >= 1
    ensures Offset(1, perPage) == 0 <= Offset(page, perPage) && Offset(page + 1, perPage) == Offset(page, perPage) + perPage
  {
    assert page * perPage == (page - 1) * perPage + perPage;
    assert (page - 1) * perPage >= 0;
  }

  lemma OffsetMonotone(page: int, page2: int, perPage: int)
    requires 1 <= page <= page2 && perPage >= 1
    ensures 0 <= Offset(page, perPage) <= Offset(page2, perPage)
  {
    OffsetSteps(page, perPage);
    assert Offset(page2, perPage) == Offset(page, perPage) + (page2 - page) * perPage;
    assert (page2 - page) * perPage >= 0;
  }

  lemma ProductsGrow(n: int, a: int, b: int)
    requires n >= 0 && a <= b
    ensures n * a <= n * b
  {
    assert n * b - n * a == n * (b - a);
  }

  lemma OffsetFits(page: int, perPage: int)
    requires 1 <= page <= MAX_INT64 / 100 && 1 <= perPage <= 100
    ensures 0 <= Offset(page, perPage) <= MAX_INT64
  {
    ProductsGrow(page - 1, 0, perPage);
    ProductsGrow(page - 1, perPage, 100);
  }

  /** What a page should hold. */
  function PageOf<T>(list: seq<T>, page: int, perPage: int): (rows: seq<T>)
    requires page >= 1 && perPage >= 1
    ensures |rows| <= perPage
  {
    OffsetSteps(page, perPage);
    var from := Offset(page, perPage);
    list[Min(from, |list|)..Min(from + perPage, |list|)]
  }

  function SliceStart(total: int, page: int, perPage: int): int { Min(Wrap64(Offset(page, perPage)), total) }

  function SliceEnd(total: int, page: int, perPage: int): int { Min(Wrap64(SliceStart(total, page, perPage) + perPage), total) }

  predicate SliceIsSafe(total: int, page: int, perPage: int) {
    0 <= SliceStart(total, page, perPage) <= SliceEnd(total, page, perPage) <= total
  }

  /** The slice bounds are those of the page. */
  predicate SliceIsPage(total: int, page: int, perPage: int) {
    SliceStart(total, page, perPage) == Min(Offset(page, perPage), total) &&
    SliceEnd(total, page, perPage) == Min(Offset(page, perPage) + perPage, total)
  }

  function TotalPages(total: int, perPage: int): int
    requires total >= 0 && perPage >= 1
  {
    var n := (total + perPage - 1) / perPage;
    if n < 1 then 1 else n
  }

  /** The slice bounds hold exactly when the wrapped offset is not negative, and are the page's own exactly
      when the offset fits 64 bits or has wrapped to a place past the end. */
  lemma SafeIff(total: int, page: int, perPage: int)
    requires 0 <= total <= MAX_INT64 - 100 && 1 <= page <= MAX_INT64 && 1 <= perPage <= 100
    ensures SliceIsSafe(total, page, perPage) <==> Wrap64(Offset(page, perPage)) >= 0
    ensures SliceIsPage(total, page, perPage) <==>
            Offset(page, perPage) <= MAX_INT64 || Wrap64(Offset(page, perPage)) >= total
  {
    hide Wrap64, Offset;
    OffsetSteps(page, perPage);
    WrapExact(Offset(page, perPage));
    if Wrap64(Offset(page, perPage)) >= 0 {
      WrapExact(SliceStart(total, page, perPage) + perPage);
    }
  }

  /** Pages up to (2^63 - 1) / 100 are always their own, whatever the page size. */
  lemma SafePages(total: int, page: int, perPage: int)
    requires 0 <= total <= MAX_INT64 - 100 && 1 <= page <= MAX_INT64 / 100 && 1 <= perPage <= 100
    ensures SliceIsSafe(total, page, perPage) && SliceIsPage(total, page, perPage)
  {
    hide Wrap64, Offset, SliceIsSafe, SliceIsPage;
    OffsetFits(page, perPage);
    SafeIff(total, page, perPage);
    WrapExact(Offset(page, perPage));
  }

  /** With a hundred rows a page the bound is one short of tight: one page more is still safe, the next is
      the first whose offset wraps to a negative one; and a page near 2^62 wraps round to the first. */
  lemma UnsafePages(total: int)
    requires 0 <= total <= MAX_INT64 - 100
    ensures SliceIsSafe(total, MAX_INT64 / 100 + 1, 100) && !SliceIsSafe(total, MAX_INT64 / 100 + 2, 100)
    ensures SliceStart(total, 0x4000_0000_0000_0001, 100) == 0
  {
    hide SliceIsSafe;
    SafeIff(total, MAX_INT64 / 100 + 1, 100);
    SafeIff(total, MAX_INT64 / 100 + 2, 100);
    assert Wrap64(9_223_372_036_854_775_800) > 0 > Wrap64(9_223_372_036_854_775_900);
    assert Wrap64(0x4000_0000_0000_0000 * 100) == 0;
  }

  function FirstPages<T>(list: seq<T>, perPage: int, n: nat): seq<T>
    requires perPage >= 1
  {
    if n == 0 then [] else FirstPages(list, perPage, n - 1) + PageOf(list, n, perPage)
  }

  lemma {:induction false} FirstPagesArePrefix<T>(list: seq<T>, perPage: int, n: nat)
    requires perPage >= 1
    ensures Offset(n + 1, perPage) >= 0 && FirstPages(list, perPage, n) == list[..Min(Offset(n + 1, perPage), |list|)]
  {
    hide Offset;
    OffsetSteps(n + 1, perPage);
    if n > 0 {
      FirstPagesArePrefix(list, perPage, n - 1);
      OffsetSteps(n, perPage);
    }
  }

  lemma TotalPagesIsCeiling(total: int, perPage: int)
    requires total >= 0 && perPage >= 1
    ensures var n := TotalPages(total, perPage);
            n >= 1 && Offset(n, perPage) <= total <= Offset(n + 1, perPage) && (total > 0 ==> Offset(n, perPage) < total)
  {
    var q, r := (total + perPage - 1) / perPage, (total + perPage - 1) % perPage;
    assert total + perPage - 1 == q * perPage + r;
    assert Offset(q, perPage) == q * perPage - perPage && Offset(q + 1, perPage) == q * perPage;
    if q < 1 {
      assert q <= -1 ==> q * perPage <= -perPage;
    }
  }

  /** Pages 1 to total_pages, one after the other, are the list, each row exactly once; all but the last are
      full, and there is nothing after them. */
  lemma PagesAreTheList<T>(list: seq<T>, perPage: int)
    requires perPage >= 1
    ensures FirstPages(list, perPage, TotalPages(|list|, perPage)) == list
    ensures forall page :: 1 <= page < TotalPages(|list|, perPage) ==> |PageOf(list, page, perPage)| == perPage
    ensures forall page :: page > TotalPages(|list|, perPage) ==> PageOf(list, page, perPage) == []
  {
    hide Offset, TotalPages, FirstPages;
    var n := TotalPages(|list|, perPage);
    TotalPagesIsCeiling(|list|, perPage);
    FirstPagesArePrefix(list, perPage, n);
    forall page | 1 <= page < n ensures |PageOf(list, page, perPage)| == perPage {
      OffsetMonotone(page + 1, n, perPage);
      OffsetSteps(page, perPage);
    }
    forall page | page > n ensures PageOf(list, page, perPage) == [] {
      OffsetMonotone(n + 1, page, perPage);
    }
  }

  /** The slice of a slice, as one slice. */
  lemma PageOfPage<T>(list: seq<T>, page: int, perPage: int, page2: int, perPage2: int)
    requires page >= 1 && perPage >= 1 && page2 >= 1 && perPage2 >= 1
    ensures var from, from2 := Offset(page, perPage), Offset(page2, perPage2);
            from >= 0 && from2 >= 0 &&
            var lo, hi := Min(from, |list|), Min(from + perPage, |list|);
            PageOf(PageOf(list, page, perPage), page2, perPage2) ==
            list[Min(lo + from2, hi)..Min(lo + from2 + perPage2, hi)]
  {
    hide Offset;
    OffsetSteps(page, perPage);
    OffsetSteps(page2, perPage2);
    var from, from2 := Offset(page, perPage), Offset(page2, perPage2);
    var lo, hi := Min(from, |list|), Min(from + perPage, |list|);
    SliceOfSlice(list, lo, hi, Min(from2, hi - lo), Min(from2 + perPage2, hi - lo));
    assert Min(lo + from2, hi) == lo + Min(from2, hi - lo) && Min(lo + from2 + perPage2, hi) == lo + Min(from2 + perPage2, hi - lo);
  }

  lemma SliceOfSlice<T>(list: seq<T>, lo: int, hi: int, a: int, b: int)
    requires 0 <= lo <= hi <= |list| && 0 <= a <= b <= hi - lo
    ensures list[lo..hi][a..b] == list[lo + a..lo + b]
  {
    var x, y := list[lo..hi][a..b], list[lo + a..lo + b];
    assert |x| == |y| && forall i | 0 <= i < |x| :: x[i] == y[i];
  }

  // The middleware.

  datatype Meta = Meta(page: int, perPage: int, total: int, totalPages: int)

  datatype Outcome = Unchanged | Panics | Listed(rows: seq<Item>, meta: Meta)

  predicate Engaged(query: Query) {
    Get(query, "q") != "" || Get(query, "sort") != "" || Get(query, "page") != "" || Get(query, "per_page") != "" || HasFilter(query)
  }

  function OrderOf(query: Query): Order { Order(Get(query, "sort"), Lower(Get(query, "order")) == "desc") }

  /** The rows all pages are cut from. */
  function Rows(query: Query, raw: seq<Entry>): seq<Item> {
    if Get(query, "sort") != "" then Sorted(OrderOf(query), Filtered(query, raw)) else Filtered(query, raw)
  }

  function Cut(rows: seq<Item>, page: int, perPage: int): Outcome
    requires perPage >= 1
  {
    if SliceIsSafe(|rows|, page, perPage) then
      Listed(rows[SliceStart(|rows|, page, perPage)..SliceEnd(|rows|, page, perPage)],
             Meta(page, perPage, |rows|, TotalPages(|rows|, perPage)))
    else Panics
  }

  /** `DataTableQuery` on a handler's response: None is a failure or anything but a list. */
  function Answer(query: Query, response: Option<seq<Entry>>): Outcome {
    if !Engaged(query) || response.None? then Unchanged
    else Cut(Rows(query, response.value), Page(query), PerPage(query))
  }

  method DataTableQuery(query: Query, response: Option<seq<Entry>>) returns (outcome: Outcome)
    ensures outcome == Answer(query, response)
  {
    hide Keeps, Sorted, Filtered, Page, PerPage, OrderOf, Engaged, Get, Offset, Wrap64, TotalPages;
    if !Engaged(query) || response.None? {
      return Unchanged;
    }
    var filtered := FilterRows(query, response.value);
    if Get(query, "sort") != "" {
      filtered := SortRows(OrderOf(query), filtered);
    }
    var page, perPage, total := Page(query), PerPage(query), |filtered|;
    var start := Wrap64(Offset(page, perPage));
    if start > total {
      start := total;
    }
    var end := Wrap64(start + perPage);
    if end > total {
      end := total;
    }
    if !(0 <= start <= end) {
      return Panics;
    }
    outcome := Listed(filtered[start..end], Meta(page, perPage, total, TotalPages(total, perPage)));
  }

  method FilterRows(query: Query, raw: seq<Entry>) returns (filtered: seq<Item>)
    ensures filtered == Filtered(query, raw)
  {
    hide Keeps;
    filtered := [];
    var i := 0;
    while i < |raw|
      invariant 0 <= i <= |raw|
      invariant filtered == Filtered(query, raw[..i])
    {
      assert raw[..i + 1][..i] == raw[..i];
      if raw[i].Row? {
        var keep := Passes(query, raw[i].item);
        if keep {
          filtered := filtered + [raw[i].item];
        }
      }
      i := i + 1;
    }
    assert raw[..i] == raw;
  }

  method Passes(query: Query, item: Item) returns (keep: bool)
    ensures keep == Keeps(query, item)
  {
    var q := Lower(TrimSpace(Get(query, "q")));
    if q != "" && !Contains(Lower(item.encoded), q) {
      return false;
    }
    keep := MatchesFilters(item, query);
  }

  method SortRows(o: Order, rows: seq<Item>) returns (r: seq<Item>)
    ensures r == Sorted(o, rows)
  {
    var a := new Item[|rows|](i requires 0 <= i < |rows| => rows[i]);
    assert a[..] == rows;
    Sort(o, a);
    r := a[..];
  }

  /** Over all its pages an endpoint serves exactly the kept rows, each as often as it was kept, whatever the
      comparator; where that is an order, stably sorted. */
  lemma PagesServeEveryRow(query: Query, raw: seq<Entry>)
    requires |raw| <= MAX_INT64 - 100
    ensures var rows, n := Rows(query, raw), PerPage(query);
            && (forall page :: 1 <= page <= MAX_INT64 / 100 ==>
                  Cut(rows, page, n) == Listed(PageOf(rows, page, n), Meta(page, n, |rows|, TotalPages(|rows|, n))))
            && FirstPages(rows, n, TotalPages(|rows|, n)) == rows
            && multiset(rows) == multiset(Filtered(query, raw))
    ensures Get(query, "sort") != "" && Sortable(OrderOf(query), Filtered(query, raw)) ==>
              IsStableSort(OrderOf(query), Filtered(query, raw), Rows(query, raw))
  {
    hide Filtered, Sorted, PageOf, IsStableSort, Sortable;
    var kept, rows, n := Filtered(query, raw), Rows(query, raw), PerPage(query);
    KeptRows(query, raw);
    SortKeepsRows(OrderOf(query), kept);
    assert |rows| == |multiset(rows)| == |multiset(kept)| == |kept|;
    PagesAreTheList(rows, n);
    forall page | 1 <= page <= MAX_INT64 / 100
      ensures Cut(rows, page, n) == Listed(PageOf(rows, page, n), Meta(page, n, |rows|, TotalPages(|rows|, n)))
    {
      CutIsPage(rows, page, n);
    }
    if Sortable(OrderOf(query), kept) {
      SortIsStable(OrderOf(query), kept);
    }
  }

  lemma GetIsFirst(query: Query, key: string)
    ensures Get(query, key) != "" ==> Asks(query, key, Get(query, key))
    ensures forall value :: Asks(query, key, value) ==> value == Get(query, key)
    ensures key !in query ==> Get(query, key) == ""
  {
  }

  /** A response is left alone exactly when it is no list, or the query has no search, order or page and no
      parameter that is named like a filter, whatever its value. */
  lemma UnchangedIff(query: Query, response: Option<seq<Entry>>)
    ensures Answer(query, response) == Unchanged <==>
            || response.None?
            || ((forall key, value | key in {"q", "sort", "page", "per_page"} && Asks(query, key, value) :: value == "")
                && forall field :: "filter_" + field !in query)
  {
    hide Get, Rows, Page, PerPage, SliceIsSafe;
    forall key ensures Get(query, key) != "" <==> exists value :: Asks(query, key, value) && value != "" {
      GetIsFirst(query, key);
    }
    forall key <- query | FILTER <= key ensures key == "filter_" + key[|FILTER|..] {
    }
  }

  /** The query gives that number, or does not give one and it is the default. */
  predicate AsksNumber(query: Query, key: string, n: nat, default: nat) {
    if key in query then n >= 1 && Asks(query, key, Numeral(n)) else n == default
  }

  lemma NumberIsRead(query: Query, key: string, n: nat, default: nat)
    requires AsksNumber(query, key, n, default) && 1 <= default <= MAX_INT64 && n <= MAX_INT64
    ensures PositiveInt(Get(query, key), default) == n
  {
    hide Numeral, Digits;
    GetIsFirst(query, key);
    PositiveIntReads("", default, n);
  }

  /** The whole middleware on a well-formed query: page `p` of `n` rows, at most 100, by default page 1 and 25
      rows, cut from the kept rows in the order asked for. */
  lemma AskedPageIsServed(query: Query, raw: seq<Entry>, field: string, p: nat, n: nat) returns (rows: seq<Item>)
    requires |raw| <= MAX_INT64 - 100 && 1 <= p <= MAX_INT64 / 100 && 1 <= n <= MAX_INT64
    requires AsksNumber(query, "page", p, 1) && AsksNumber(query, "per_page", n, 25)
    requires if "sort" in query then Asks(query, "sort", field) else field == ""
    requires field != "" || "page" in query || "per_page" in query
    ensures var kept, o := Filtered(query, raw), Order(field, exists v :: Asks(query, "order", v) && Lower(v) == "desc");
            && multiset(rows) == multiset(kept)
            && (field == "" ==> rows == kept)
            && (field != "" && Sortable(o, kept) ==> IsStableSort(o, kept, rows))
    ensures var perPage := if n > 100 then 100 else n;
            Answer(query, Some(raw)) ==
            Listed(PageOf(rows, p, perPage), Meta(p, perPage, |rows|, TotalPages(|rows|, perPage)))
  {
    hide Filtered, Sorted, PageOf, IsStableSort, Sortable, Get, Numeral, Wanted;
    rows := Rows(query, raw);
    PagesServeEveryRow(query, raw);
    KeptRows(query, raw);
    assert |rows| == |multiset(rows)| == |Filtered(query, raw)|;
    NumberIsRead(query, "page", p, 1);
    NumberIsRead(query, "per_page", n, 25);
    GetIsFirst(query, "sort");
    assert "" != "desc" && Lower("") == "";
    GetIsFirst(query, "order");
    assert OrderOf(query) == Order(field, exists v :: Asks(query, "order", v) && Lower(v) == "desc");
    DigitsOfNumeral(p);
    DigitsOfNumeral(n);
    GetIsFirst(query, "page");
    GetIsFirst(query, "per_page");
    assert Engaged(query);
  }

  lemma CutIsPage(rows: seq<Item>, page: int, perPage: int)
    requires |rows| <= MAX_INT64 - 100 && 1 <= page <= MAX_INT64 / 100 && 1 <= perPage <= 100
    ensures Cut(rows, page, perPage) ==
            Listed(PageOf(rows, page, perPage), Meta(page, perPage, |rows|, TotalPages(|rows|, perPage)))
  {
    hide SliceStart, SliceEnd;
    SafePages(|rows|, page, perPage);
  }

  // A handler that pages by itself, behind the middleware.

  /** `pagination`: errors of the conversion are ignored. */
  function HandlerPage(query: Query): (int, int) {
    var page, perPage := Atoi(Get(query, "page")).value, Atoi(Get(query, "per_page")).value;
    (if page < 1 then 1 else page, if perPage < 1 then 20 else if perPage > 100 then 100 else perPage)
  }

  /** LIMIT and OFFSET on the handler's rows; the database refuses a negative offset. */
  function HandlerRows(query: Query, all: seq<Item>): Option<seq<Item>> {
    var (page, perPage) := HandlerPage(query);
    var offset := Wrap64(Offset(page, perPage));
    if offset < 0 then None else Some(all[Min(offset, |all|)..Min(offset + perPage, |all|)])
  }

  function PagedTwice(query: Query, all: seq<Item>): Outcome {
    match HandlerRows(query, all)
    case None => Answer(query, None)
    case Some(rows) => Answer(query, Some(AsRows(rows)))
  }

  /** Whether a number parameter is absent, malformed or within 64 bits. */
  predicate InRange(value: string) { Atoi(value).ok || Atoi(value).value == 0 }

  /** Paging twice: the first page comes through, every later page is empty however many rows there are, and
      the total is the length of the handler's page. */
  lemma PagedTwiceIsEmptyAfterFirst(query: Query, all: seq<Item>)
    requires Get(query, "q") == "" && Get(query, "sort") == "" && !HasFilter(query)
    requires Get(query, "page") != "" || Get(query, "per_page") != ""
    requires InRange(Get(query, "page")) && InRange(Get(query, "per_page")) && Page(query) <= MAX_INT64 / 100
    ensures var (page, perPage) := HandlerPage(query);
            var inner := PageOf(all, page, perPage);
            page == Page(query) &&
            PagedTwice(query, all) ==
              Listed(if page == 1 then inner else [], Meta(page, PerPage(query), |inner|, 1))
  {
    hide Atoi, Keeps, Get, Wrap64, Offset, Cut, PageOf, Filtered;
    var (page, perPage) := HandlerPage(query);
    var inner := PageOf(all, page, perPage);
    HandlerRowsArePage(query, all);
    forall x <- inner ensures Keeps(query, x) {
      KeepsAll(query, x);
    }
    FilterAllKept(query, inner);
    CutIsPage(inner, page, PerPage(query));
    OnePage(inner, page, PerPage(query));
  }

  lemma HandlerRowsArePage(query: Query, all: seq<Item>)
    requires InRange(Get(query, "page")) && InRange(Get(query, "per_page")) && Page(query) <= MAX_INT64 / 100
    ensures var (page, perPage) := HandlerPage(query);
            && page == Page(query) && 1 <= perPage <= PerPage(query)
            && (forall n: nat | 1 <= n && Asks(query, "per_page", Numeral(n)) :: perPage == if n > 100 then 100 else n)
            && ("per_page" !in query ==> perPage == 20)
            && HandlerRows(query, all) == Some(PageOf(all, page, perPage))
  {
    hide Atoi, Get, Wrap64, Offset;
    var (page, perPage) := HandlerPage(query);
    OffsetFits(page, perPage);
    WrapExact(Offset(page, perPage));
    GetIsFirst(query, "per_page");
    forall n: nat | 1 <= n && Asks(query, "per_page", Numeral(n)) ensures perPage == if n > 100 then 100 else n {
      AtoiOfNumeral(n);
    }
    AtoiOfNumeral(0);
  }

  lemma AtoiOfNumeral(n: nat)
    ensures n <= MAX_INT64 ==> Atoi(Numeral(n)) == Parsed(n, true)
    ensures n > MAX_INT64 ==> Atoi(Numeral(n)) == Parsed(MAX_INT64, false)
    ensures Atoi("") == Parsed(0, false)
  {
    hide Digits, Numeral;
    DigitsOfNumeral(n);
    assert Numeral(n)[0] in Numeral(n);
  }

  lemma KeepsAll(query: Query, x: Item)
    requires Get(query, "q") == "" && !HasFilter(query)
    ensures Keeps(query, x)
  {
  }

  lemma OnePage(list: seq<Item>, page: int, perPage: int)
    requires page >= 1 && |list| <= perPage && 1 <= perPage
    ensures PageOf(list, page, perPage) == if page == 1 then list else []
    ensures TotalPages(|list|, perPage) == 1
  {
    hide Offset, TotalPages;
    var n := TotalPages(|list|, perPage);
    TotalPagesIsCeiling(|list|, perPage);
    OffsetSteps(1, perPage);
    if page > 1 {
      OffsetMonotone(2, page, perPage);
    }
    if n > 1 {
      OffsetMonotone(2, n, perPage);
    }
  }
}
