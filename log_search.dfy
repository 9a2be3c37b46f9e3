/** The query half of `Logger.searchLogs` in utils/logger.js, over an
    in-memory store: keep the records that satisfy every supplied filter, sort
    them newest first, skip `(page - 1) * limit` of them, take `limit`, and
    report the pagination metadata. */
module LogSearch {
  import opened Wrappers
  import opened LogModel

  /** The filters `searchLogs` reads. The string filters are applied only
      when truthy; `from` and `to` are already parsed to milliseconds. */
  datatype Filters = Filters(
    severity: Option<string>,
    event: Option<string>,
    user: Option<string>,
    from: Option<int>,
    to: Option<int>)

  const NoFilters: Filters := Filters(None, None, None, None, None)

  datatype Pagination = Pagination(
    currentPage: int,
    totalPages: nat,
    totalItems: nat,
    itemsPerPage: int,
    hasNextPage: bool,
    hasPrevPage: bool)

  datatype SearchResult = SearchResult(data: seq<LogEntry>, pagination: Pagination)

  /** The store refuses a negative `skip`, which a page below 1 produces. */
  datatype SearchError = NegativeSkip

  // ---------------------------------------------------------------------------
  // Case-insensitive substring match (the `new RegExp(event, "i")` filter)

  function LowerChar(c: char): char
  {
    if 'A' <= c <= 'Z' then (c as int - 'A' as int + 'a' as int) as char else c
  }

  function Lower(s: string): (r: string)
    ensures |r| == |s|
  {
    seq(|s|, i requires 0 <= i < |s| => LowerChar(s[i]))
  }

  /** `needle` occurs in `hay` starting at index `i`. */
  predicate OccursAt(needle: string, hay: string, i: int)
  {
    0 <= i && i + |needle| <= |hay| && hay[i..i + |needle|] == needle
  }

  function Contains(hay: string, needle: string): bool
    decreases |hay|
  {
    if needle <= hay then true
    else if hay == [] then false
    else Contains(hay[1..], needle)
  }

  /** `Contains` finds an occurrence exactly when there is one. */
  lemma ContainsIff(hay: string, needle: string)
    ensures Contains(hay, needle) <==> exists i :: OccursAt(needle, hay, i)
  {
    if Contains(hay, needle) {
      ContainsFinds(hay, needle);
    }
    if exists i :: OccursAt(needle, hay, i) {
      var i :| OccursAt(needle, hay, i);
      OccurrenceFound(hay, needle, i);
    }
  }

  /** When `Contains` answers yes, there is an occurrence. */
  lemma {:induction false} ContainsFinds(hay: string, needle: string)
    requires Contains(hay, needle)
    ensures exists i :: OccursAt(needle, hay, i)
    decreases |hay|
  {
    if needle <= hay {
      assert hay[0..|needle|] == needle;
      assert OccursAt(needle, hay, 0);
    } else {
      ContainsFinds(hay[1..], needle);
      var i :| OccursAt(needle, hay[1..], i);
      assert hay[1..][i..i + |needle|] == hay[i + 1..i + 1 + |needle|];
      assert OccursAt(needle, hay, i + 1);
    }
  }

  /** Every occurrence is found by `Contains`. */
  lemma {:induction false} OccurrenceFound(hay: string, needle: string, i: int)
    requires OccursAt(needle, hay, i)
    ensures Contains(hay, needle)
    decreases |hay|
  {
    if i == 0 {
      OccursAtStart(needle, hay);
    } else if !(needle <= hay) {
      assert hay[1..][i - 1..i - 1 + |needle|] == hay[i..i + |needle|];
      OccurrenceFound(hay[1..], needle, i - 1);
    }
  }

  lemma OccursAtStart(needle: string, hay: string)
    ensures OccursAt(needle, hay, 0) <==> needle <= hay
  {
  }

  /** The event filter: a case-insensitive substring match. */
  predicate ContainsIgnoreCase(hay: string, needle: string)
  {
    Contains(Lower(hay), Lower(needle))
  }

  /** Folding case twice changes nothing, so the filter is blind to the case
      of either argument. */
  lemma LowerIdempotent(s: string)
    ensures Lower(Lower(s)) == Lower(s)
    ensures ContainsIgnoreCase(Lower(s), s) && ContainsIgnoreCase(s, Lower(s))
  {
    assert Lower(Lower(s)) == Lower(s);
    ContainsIff(Lower(s), Lower(s));
    assert OccursAt(Lower(s), Lower(s), 0);
  }

  // ---------------------------------------------------------------------------
  // Filtering

  /** A record satisfies every supplied filter: equal type, event containing
      the pattern ignoring case, equal user, and `from <= timestamp <= to`. */
  predicate Matches(e: LogEntry, f: Filters)
  {
    && (Given(f.severity) ==> SeverityName(e.severity) == f.severity.value)
    && (Given(f.event) ==> ContainsIgnoreCase(e.event, f.event.value))
    && (Given(f.user) ==> e.user == f.user)
    && (f.from.Some? ==> f.from.value <= e.timestamp)
    && (f.to.Some? ==> e.timestamp <= f.to.value)
  }

  /** The matching records, in store order. Sound and complete: each record
      occurs as often as in the store when it matches, and not at all otherwise. */
  function Matching(es: seq<LogEntry>, f: Filters): (r: seq<LogEntry>)
    ensures |r| <= |es|
    ensures forall e :: Matches(e, f) ==> multiset(r)[e] == multiset(es)[e]
    ensures forall e :: !Matches(e, f) ==> multiset(r)[e] == 0
    decreases |es|
  {
    if es == [] then []
    else
      var init, last := es[..|es| - 1], es[|es| - 1];
      assert es == init + [last];
      Matching(init, f) + (if Matches(last, f) then [last] else [])
  }

  /** Membership form of the contract of `Matching`. */
  lemma MatchingMembers(es: seq<LogEntry>, f: Filters, e: LogEntry)
    ensures e in Matching(es, f) <==> e in es && Matches(e, f)
  {
    assert e in Matching(es, f) <==> multiset(Matching(es, f))[e] > 0;
    assert e in es <==> multiset(es)[e] > 0;
  }

  /** With no filters, every record matches. */
  lemma {:induction false} NoFiltersMatchAll(es: seq<LogEntry>)
    ensures Matching(es, NoFilters) == es
    decreases |es|
  {
    if es != [] {
      var init, last := es[..|es| - 1], es[|es| - 1];
      calc {
        Matching(es, NoFilters);
      == { MatchingLast(es, NoFilters); assert Matches(last, NoFilters); }
        Matching(init, NoFilters) + [last];
      == { NoFiltersMatchAll(init); }
        init + [last];
      == { assert es == init + [last]; }
        es;
      }
    }
  }

  /** One step of `Matching`: the last record is kept exactly when it matches. */
  lemma MatchingLast(es: seq<LogEntry>, f: Filters)
    requires es != []
    ensures Matching(es, f) == Matching(es[..|es| - 1], f) + (if Matches(es[|es| - 1], f) then [es[|es| - 1]] else [])
  {
  }

  // ---------------------------------------------------------------------------
  // Newest-first order (`sort({ timestamp: -1 })`)

  predicate NewestFirst(s: seq<LogEntry>)
  {
    forall i, j :: 0 <= i < j < |s| ==> s[i].timestamp >= s[j].timestamp
  }

  function InsertByTime(e: LogEntry, s: seq<LogEntry>): (r: seq<LogEntry>)
    requires NewestFirst(s)
    ensures NewestFirst(r)
    ensures multiset(r) == multiset(s) + multiset{e}
    ensures |r| == |s| + 1
    ensures forall x :: x in r ==> x == e || x in s
  {
    if s == [] || e.timestamp >= s[0].timestamp then
      var r := [e] + s;
      assert forall j :: 0 <= j < |s| ==> s[j].timestamp <= s[0].timestamp;
      r
    else
      var rest := InsertByTime(e, s[1..]);
      var r := [s[0]] + rest;
      assert s == [s[0]] + s[1..];
      assert forall j :: 0 <= j < |rest| ==> rest[j].timestamp <= s[0].timestamp by {
        forall j | 0 <= j < |rest| ensures rest[j].timestamp <= s[0].timestamp {
          assert rest[j] in rest;
          if rest[j] != e {
            var k :| 1 <= k < |s| && s[k] == rest[j];
          }
        }
      }
      r
  }

  /** Orders records newest first; among equal timestamps, store order is kept. */
  function SortNewestFirst(s: seq<LogEntry>): (r: seq<LogEntry>)
    ensures NewestFirst(r)
    ensures multiset(r) == multiset(s)
    ensures |r| == |s|
  {
    if s == [] then []
    else
      assert s == [s[0]] + s[1..];
      InsertByTime(s[0], SortNewestFirst(s[1..]))
  }

  // ---------------------------------------------------------------------------
  // Pagination

  function Min(a: int, b: int): int { if a <= b then a else b }

  /** `Math.ceil(n / d)`: the fewest pages of `d` records that hold `n` records. */
  function CeilDiv(n: nat, d: int): (q: nat)
    requires d >= 1
    ensures (q - 1) * d < n <= q * d
  {
    var q := (n + d - 1) / d;
    assert q * d <= n + d - 1 < (q + 1) * d;
    q
  }

  /** How many matching records precede page `page`. */
  function Skip(page: int, limit: int): (k: nat)
    requires page >= 1 && limit >= 1
    ensures k == (page - 1) * limit
  {
    MulNonNegative(page - 1, limit);
    (page - 1) * limit
  }

  lemma MulNonNegative(a: int, b: int)
    requires a >= 0 && b >= 0
    ensures a * b >= 0
  {
  }

  /** `.skip(skip).limit(limit)`: the records at positions `skip` and on, at most `limit`. */
  function PageSlice(s: seq<LogEntry>, skip: nat, limit: nat): (r: seq<LogEntry>)
    ensures |r| == if skip >= |s| then 0 else Min(limit, |s| - skip)
    ensures forall k :: 0 <= k < |r| ==> r[k] == s[skip + k]
    ensures forall x :: x in r ==> x in s
  {
    if skip >= |s| then [] else s[skip..Min(skip + limit, |s|)]
  }

  /** The matching records in the order the store returns them. */
  function Ordered(entries: seq<LogEntry>, f: Filters): (r: seq<LogEntry>)
    ensures NewestFirst(r)
    ensures forall e :: e in r <==> e in entries && Matches(e, f)
  {
    var m := Matching(entries, f);
    var r := SortNewestFirst(m);
    forall e ensures e in r <==> e in entries && Matches(e, f) {
      MatchingMembers(entries, f, e);
      assert e in r <==> multiset(r)[e] > 0;
      assert e in m <==> multiset(m)[e] > 0;
    }
    r
  }

  /** Page `page` of `ordered`, `limit` records per page, with its metadata. */
  function Paginate(ordered: seq<LogEntry>, page: int, limit: int): (r: SearchResult)
    requires page >= 1 && limit >= 1
    ensures |r.data| <= limit
    ensures forall e :: e in r.data ==> e in ordered
    ensures r.pagination.totalItems == |ordered|
    ensures r.pagination.totalPages == CeilDiv(|ordered|, limit)
  {
    var t := CeilDiv(|ordered|, limit);
    SearchResult(
      PageSlice(ordered, Skip(page, limit), limit),
      Pagination(page, t, |ordered|, limit, page < t, page > 1))
  }

  /** One page of matching records, newest first, with its metadata. A page
      below 1 fails; otherwise the page holds at most `limit` records, each
      one a stored record satisfying every supplied filter. */
  function Search(entries: seq<LogEntry>, f: Filters, page: int, limit: int): (r: Result<SearchResult, SearchError>)
    requires limit >= 1
    ensures r.Failure? <==> page < 1
    ensures r.Success? ==> |r.value.data| <= limit
    ensures r.Success? ==> forall e :: e in r.value.data ==> e in entries && Matches(e, f)
    ensures r.Success? ==> NewestFirst(r.value.data)
    ensures r.Success? ==> r.value.pagination.totalItems == |Matching(entries, f)|
    ensures r.Success? ==> r.value.pagination.totalPages == CeilDiv(r.value.pagination.totalItems, limit)
  {
    if page < 1 then Failure(NegativeSkip)
    else
      var o := Ordered(entries, f);
      var r := Paginate(o, page, limit);
      assert forall i, j :: 0 <= i < j < |r.data| ==> r.data[i] == o[Skip(page, limit) + i] && r.data[j] == o[Skip(page, limit) + j];
      Success(r)
  }

  // ---------------------------------------------------------------------------
  // What the pagination metadata means

  lemma MulMonotone(a: int, b: int, c: int)
    requires a <= b && c >= 0
    ensures a * c <= b * c
  {
    assert b * c - a * c == (b - a) * c;
    MulNonNegative(b - a, c);
  }

  /** For a page of at least 1: `totalPages` is the ceiling of `totalItems /
      limit`; `hasNextPage` holds exactly when records remain after this page
      and `hasPrevPage` exactly when some precede it; every page before the
      last is full, and a page holds records exactly when it is at most
      `totalPages`; the page is the slice of `ordered` that starts at
      `(page - 1) * limit`. */
  lemma {:induction false} PaginationMeaning(ordered: seq<LogEntry>, page: int, limit: int)
    requires limit >= 1 && page >= 1
    ensures
      var r := Paginate(ordered, page, limit);
      var p := r.pagination;
      var skip := (page - 1) * limit;
      && p.currentPage == page && p.itemsPerPage == limit
      && (p.totalPages - 1) * limit < p.totalItems <= p.totalPages * limit
      && (p.hasNextPage <==> skip + limit < p.totalItems)
      && (p.hasPrevPage <==> skip > 0)
      && (page < p.totalPages ==> |r.data| == limit)
      && (|r.data| > 0 <==> page <= p.totalPages)
      && (forall k :: 0 <= k < |r.data| ==> r.data[k] == ordered[skip + k])
  {
    var t := CeilDiv(|ordered|, limit);
    PageArithmetic(|ordered|, limit, page, t);
    MulNonNegative(page - 1, limit);
  }

  /** The integer facts behind `PaginationMeaning`. */
  lemma PageArithmetic(n: nat, limit: int, page: int, t: int)
    requires limit >= 1 && page >= 1
    requires (t - 1) * limit < n <= t * limit
    ensures page < t <==> (page - 1) * limit + limit < n
    ensures page <= t <==> (page - 1) * limit < n
    ensures page < t ==> (page - 1) * limit + limit <= n
  {
    assert (page - 1) * limit + limit == page * limit;
    if page < t { MulMonotone(page, t - 1, limit); } else { MulMonotone(t, page, limit); }
    if page <= t { MulMonotone(page - 1, t - 1, limit); } else { MulMonotone(t, page - 1, limit); }
  }

  /** Completeness of paging: the record at position `k` of `ordered` is
      record `k % limit` of page `k / limit + 1`, and that page is at most
      `totalPages`. */
  lemma {:induction false} EveryRecordOnItsPage(ordered: seq<LogEntry>, limit: int, k: int)
    requires limit >= 1 && 0 <= k < |ordered|
    ensures 0 <= k / limit
    ensures
      var r := Paginate(ordered, k / limit + 1, limit);
      && k / limit + 1 <= r.pagination.totalPages
      && k % limit < |r.data| && r.data[k % limit] == ordered[k]
  {
    var page := k / limit + 1;
    var skip := Skip(page, limit);
    assert skip == (k / limit) * limit;
    assert skip + k % limit == k;
    PaginationMeaning(ordered, page, limit);
  }

  /** Filter completeness: every stored record that satisfies the filters
      appears on some page between 1 and `totalPages`. */
  lemma {:induction false} SearchComplete(entries: seq<LogEntry>, f: Filters, limit: int, e: LogEntry)
    requires limit >= 1 && e in entries && Matches(e, f)
    ensures exists page ::
      && 1 <= page <= Search(entries, f, 1, limit).value.pagination.totalPages
      && e in Search(entries, f, page, limit).value.data
  {
    var o := Ordered(entries, f);
    assert e in o;
    var k :| 0 <= k < |o| && o[k] == e;
    EveryRecordOnItsPage(o, limit, k);
    var q := k / limit;
    var page := q + 1;
    var r := Paginate(o, page, limit);
    var t := r.pagination.totalPages;
    assert 1 <= page <= t;
    assert r.data[k % limit] == e;
    assert e in r.data;
    SearchIsPaginate(entries, f, page, limit);
    SearchIsPaginate(entries, f, 1, limit);
    assert Search(entries, f, 1, limit).value.pagination.totalPages == t;
    assert e in Search(entries, f, page, limit).value.data;
  }

  lemma SearchIsPaginate(entries: seq<LogEntry>, f: Filters, page: int, limit: int)
    requires page >= 1 && limit >= 1
    ensures Search(entries, f, page, limit) == Success(Paginate(Ordered(entries, f), page, limit))
  {
  }

  /** A worked case: 25 matches read ten at a time give three pages, the
      first one full, with a next page and no previous one. */
  lemma TwentyFiveMatchesTenPerPage(entries: seq<LogEntry>, f: Filters)
    requires |Matching(entries, f)| == 25
    ensures
      var r := Search(entries, f, 1, 10).value;
      && r.pagination.totalItems == 25 && r.pagination.totalPages == 3
      && r.pagination.currentPage == 1 && |r.data| == 10
      && r.pagination.hasNextPage && !r.pagination.hasPrevPage
  {
    PaginationMeaning(Ordered(entries, f), 1, 10);
  }

  // ---------------------------------------------------------------------------
  // How an append changes a search

  /** Appending a record that fails the filters changes no search result. */
  lemma AppendNonMatchingInvisible(entries: seq<LogEntry>, e: LogEntry, f: Filters, page: int, limit: int)
    requires limit >= 1 && !Matches(e, f)
    ensures Search(entries + [e], f, page, limit) == Search(entries, f, page, limit)
  {
    assert (entries + [e])[..|entries|] == entries;
    assert Matching(entries + [e], f) == Matching(entries, f);
  }

  /** Appending a record that satisfies the filters adds exactly one to `totalItems`. */
  lemma AppendMatchingCounted(entries: seq<LogEntry>, e: LogEntry, f: Filters, page: int, limit: int)
    requires limit >= 1 && page >= 1 && Matches(e, f)
    ensures Search(entries + [e], f, page, limit).value.pagination.totalItems ==
            Search(entries, f, page, limit).value.pagination.totalItems + 1
  {
    assert (entries + [e])[..|entries|] == entries;
    assert Matching(entries + [e], f) == Matching(entries, f) + [e];
  }
}
