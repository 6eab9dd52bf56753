/**
 Pages of a list by cursor, forwards and backwards, while the list may change between
 requests: in memory over sorted keys, and in the store over a query with a limit.
*/
module Pages {
  import opened Options

  /** A place in the order of a list: any strict total order will do, and this is the order of the pages. */
  type Key = int

  datatype Cursor = First | Older(key: Key) | Newer(key: Key)

  /** The rows of a page, and the cursors of the ones next to it. */
  datatype Page = Page(rows: seq<Key>, older: Option<Cursor>, newer: Option<Cursor>, firstNewer: bool)

  predicate Sorted(keys: seq<Key>) {
    forall i, j :: 0 <= i < j < |keys| ==> keys[i] < keys[j]
  }

  function Min(a: nat, b: nat): nat {
    if a < b then a else b
  }

  /** How many of the keys are before k. */
  function Before(keys: seq<Key>, k: Key): (n: nat)
    ensures n <= |keys|
  {
    if keys == [] then 0
    else if keys[|keys| - 1] < k then |keys|
    else Before(keys[..|keys| - 1], k)
  }

  lemma {:induction false} BeforeIs(keys: seq<Key>, k: Key)
    requires Sorted(keys)
    ensures forall i :: 0 <= i < |keys| ==> (i < Before(keys, k) <==> keys[i] < k)
  {
    if keys != [] && keys[|keys| - 1] >= k { BeforeIs(keys[..|keys| - 1], k); }
  }

  lemma {:induction false} BeforeUnique(keys: seq<Key>, k: Key, n: nat)
    requires Sorted(keys) && n <= |keys|
    requires forall i :: 0 <= i < n ==> keys[i] < k
    requires forall i :: n <= i < |keys| ==> keys[i] >= k
    ensures n == Before(keys, k)
  {
    if keys != [] && keys[|keys| - 1] >= k {
      BeforeUnique(keys[..|keys| - 1], k, n);
    }
  }

  /** The first index past a key. */
  function Past(keys: seq<Key>, k: Key): (n: nat)
    ensures n <= |keys|
  {
    Before(keys, k + 1)
  }

  // -- the page a cursor names ---------------------------------------------------------------

  /** The n keys from an index on, with a newer page unless it is the first one asked for. */
  function PageFrom(keys: seq<Key>, n: nat, from: nat, first: bool): Page
    requires n > 0 && from <= |keys|
  {
    var to := Min(from + n, |keys|);
    Page(keys[from..to],
         if to < |keys| then Some(Older(keys[to - 1])) else None,
         if !first && to > from then Some(Newer(keys[from])) else None,
         !first && to == from)
  }

  /** The page of a cursor: the n keys past it, or the n before it, full, else the first page. */
  function PageOf(keys: seq<Key>, n: nat, c: Cursor): Page
    requires n > 0
  {
    match c
    case First => PageFrom(keys, n, 0, true)
    case Older(k) => PageFrom(keys, n, Past(keys, k), false)
    case Newer(k) =>
      var end := Before(keys, k);
      if end > n then Page(keys[end - n..end], Some(Older(keys[end - 1])), Some(Newer(keys[end - n])), false)
      else PageFrom(keys, n, 0, true)
  }

  // -- in memory -------------------------------------------------------------------------------

  /** slices.BinarySearch: the place of a key, or where it would be. */
  method BinarySearch(keys: seq<Key>, k: Key) returns (at: nat, found: bool)
    requires Sorted(keys)
    ensures at == Before(keys, k) && (found <==> at < |keys| && keys[at] == k)
  {
    var lo, hi: nat := 0, |keys|;
    while lo < hi
      invariant lo <= hi <= |keys|
      invariant forall i :: 0 <= i < lo ==> keys[i] < k
      invariant forall i :: hi <= i < |keys| ==> keys[i] >= k
    {
      var mid := (lo + hi) / 2;
      if keys[mid] < k { lo := mid + 1; } else { hi := mid; }
    }
    BeforeUnique(keys, k, lo);
    at, found := lo, lo < |keys| && keys[lo] == k;
  }

  lemma {:induction false} PastIs(keys: seq<Key>, k: Key)
    requires Sorted(keys)
    ensures var b := Before(keys, k); Past(keys, k) == if b < |keys| && keys[b] == k then b + 1 else b
  {
    if keys != [] {
      var n := |keys| - 1;
      PastIs(keys[..n], k);
      if keys[n] == k && n > 0 {
        assert keys[..n][n - 1] < k;
      }
    }
  }

  method PageKeys(keys: seq<Key>, n: nat, cursor: Cursor) returns (from: nat, to: nat, p: Page)
    requires Sorted(keys) && n > 0
    ensures p == PageOf(keys, n, cursor)
    ensures from <= to <= |keys| && keys[from..to] == p.rows
  {
    hide *;
    var c := cursor;
    if c.Newer? {
      var end, _ := BinarySearch(keys, c.key);
      if end > n {
        from, to := end - n, end;
        p := Page(keys[from..to], Some(Older(keys[to - 1])), Some(Newer(keys[from])), false);
        NewerIs(keys, n, c.key, end);
        return;
      }
      c := First;
    }
    from := 0;
    if c.Older? {
      PastIs(keys, c.key);
      var found;
      from, found := BinarySearch(keys, c.key);
      if found {
        from := from + 1;
      }
    }
    FromCursor(keys, n, cursor, c, from);
    PageFromParts(keys, n, from, c.First?);
    to := Min(from + n, |keys|);
    var older := if to < |keys| then Some(Older(keys[to - 1])) else None;
    var newer := if !c.First? && to > from then Some(Newer(keys[from])) else None;
    p := Page(keys[from..to], older, newer, !c.First? && to == from);
  }

  lemma FromCursor(keys: seq<Key>, n: nat, cursor: Cursor, c: Cursor, from: nat)
    requires n > 0 && !c.Newer? && from == if c.First? then 0 else Past(keys, c.key)
    requires c == if cursor.Newer? then First else cursor
    requires cursor.Newer? ==> Before(keys, cursor.key) <= n
    ensures from <= |keys| && PageOf(keys, n, cursor) == PageFrom(keys, n, from, c.First?)
  {
    hide Before, Past, PageFrom;
  }

  lemma PageFromParts(keys: seq<Key>, n: nat, from: nat, first: bool)
    requires n > 0 && from <= |keys|
    ensures var to := Min(from + n, |keys|);
      && from <= to <= |keys| && (to < |keys| ==> from < to)
      && PageFrom(keys, n, from, first) == Page(keys[from..to], if to < |keys| then Some(Older(keys[to - 1])) else None,
             if !first && to > from then Some(Newer(keys[from])) else None, !first && to == from)
  {
  }

  lemma NewerIs(keys: seq<Key>, n: nat, k: Key, end: nat)
    requires n > 0 && end == Before(keys, k) && end > n
    ensures PageOf(keys, n, Newer(k)) == Page(keys[end - n..end], Some(Older(keys[end - 1])), Some(Newer(keys[end - n])), false)
  {
    hide Before;
  }

  // -- in the store ------------------------------------------------------------------------------

  function Reversed(s: seq<Key>): (r: seq<Key>)
    ensures |r| == |s|
  {
    if s == [] then [] else Reversed(s[1..]) + [s[0]]
  }

  lemma {:induction false} ReversedAt(s: seq<Key>, i: nat)
    requires i < |s|
    ensures Reversed(s)[i] == s[|s| - 1 - i]
  {
    if i < |s| - 1 { ReversedAt(s[1..], i); }
  }

  lemma {:induction false} ReversedConcat(a: seq<Key>, b: seq<Key>)
    ensures Reversed(a + b) == Reversed(b) + Reversed(a)
  {
    if a == [] {
      assert a + b == b;
    } else {
      assert (a + b)[1..] == a[1..] + b;
      ReversedConcat(a[1..], b);
    }
  }

  lemma {:induction false} ReversedTwice(s: seq<Key>)
    ensures Reversed(Reversed(s)) == s
  {
    if s != [] {
      ReversedTwice(s[1..]);
      ReversedConcat(Reversed(s[1..]), [s[0]]);
      assert Reversed([s[0]]) == [s[0]];
    }
  }

  /** The rows of the query: those past the position, or, backwards, those before it, nearest first. */
  function Selected(rows: seq<Key>, c: Cursor): seq<Key> {
    match c
    case First => rows
    case Older(k) => rows[Past(rows, k)..]
    case Newer(k) => Reversed(rows[..Before(rows, k)])
  }

  method ReverseInPlace(a: array<Key>)
    modifies a
    ensures a[..] == Reversed(old(a[..]))
  {
    var i, j := 0, a.Length - 1;
    while i < j
      invariant 0 <= i <= a.Length && j == a.Length - 1 - i && i <= j + 1
      invariant forall k :: 0 <= k < i ==> a[k] == old(a[a.Length - 1 - k]) && a[a.Length - 1 - k] == old(a[k])
      invariant forall k :: i <= k <= j ==> a[k] == old(a[k])
    {
      a[i], a[j] := a[j], a[i];
      i, j := i + 1, j - 1;
    }
    ghost var was := old(a[..]);
    forall k | 0 <= k < a.Length
      ensures a[..][k] == Reversed(was)[k]
    {
      ReversedAt(was, k);
    }
  }

  /** A page of the query and whether more rows follow: one row more than the limit is asked for, and dropped. */
  method ListDeployments(rows: seq<Key>, c: Cursor, limit: nat) returns (list: seq<Key>, more: bool)
    requires limit > 0
    ensures var all := Selected(rows, c);
      var kept := all[..Min(limit, |all|)];
      && more == (|all| > limit)
      && list == if c.Newer? then Reversed(kept) else kept
  {
    var all := Selected(rows, c);
    list := all[..Min(limit + 1, |all|)];
    more := |list| > limit;
    if more {
      list := list[..limit];
    }
    assert list == all[..Min(limit, |all|)];
    if c.Newer? {
      ghost var kept := list;
      var a := new Key[|list|](i requires 0 <= i < |list| => list[i]);
      assert a[..] == kept;
      ReverseInPlace(a);
      list := a[..];
    }
  }

  lemma ReversedTail(s: seq<Key>, n: nat)
    requires n <= |s|
    ensures Reversed(Reversed(s)[..n]) == s[|s| - n..]
  {
    var a, b := s[..|s| - n], s[|s| - n..];
    assert s == a + b;
    ReversedConcat(a, b);
    assert Reversed(s)[..n] == Reversed(b);
    ReversedTwice(b);
  }

  lemma NewerRows(rows: seq<Key>, n: nat, k: Key, all: seq<Key>)
    requires all == Selected(rows, Newer(k))
    ensures var end := Before(rows, k);
      |all| == end && (end > n ==> Min(n, |all|) == n && Reversed(all[..n]) == rows[end - n..end])
  {
    var end := Before(rows, k);
    assert all == Reversed(rows[..end]);
    hide Selected, Before, Reversed;
    if end > n {
      ReversedTail(rows[..end], n);
      assert rows[..end][end - n..] == rows[end - n..end];
    }
  }

  /** The newer page of the store, or none when it reaches the first row. */
  method NewerDeployments(rows: seq<Key>, n: nat, k: Key) returns (p: Option<Page>)
    requires n > 0
    ensures var end := Before(rows, k);
      p == if end > n then Some(Page(rows[end - n..end], Some(Older(rows[end - 1])), Some(Newer(rows[end - n])), false)) else None
  {
    hide *;
    var list, more := ListDeployments(rows, Newer(k), n);
    NewerRows(rows, n, k, Selected(rows, Newer(k)));
    if more {
      return Some(Page(list, Some(Older(list[|list| - 1])), Some(Newer(list[0])), false));
    }
    return None;
  }

  method PageDeployments(rows: seq<Key>, n: nat, cursor: Cursor) returns (list: seq<Key>, p: Page)
    requires n > 0
    ensures p == PageOf(rows, n, cursor) && list == p.rows
  {
    hide Before, Past, Reversed;
    var c := cursor;
    if c.Newer? {
      var newer := NewerDeployments(rows, n, c.key);
      if newer.Some? {
        return newer.value.rows, newer.value;
      }
      c := First;
    }
    var more;
    list, more := ListDeployments(rows, c, n);
    ghost var from := if c.First? then 0 else Past(rows, c.key);
    assert rows[from..] == Selected(rows, c);
    assert list == rows[from..Min(from + n, |rows|)];
    var older := if more then Some(Older(list[|list| - 1])) else None;
    var newer := if !c.First? && |list| > 0 then Some(Newer(list[0])) else None;
    p := Page(list, older, newer, !c.First? && |list| == 0);
  }

  // -- a walk over a list that changes -------------------------------------------------------------

  /** The pages of following Older from the first page, one list as it is at each request. */
  ghost predicate Walk(lists: seq<seq<Key>>, n: nat, pages: seq<Page>)
    requires n > 0
  {
    && |pages| == |lists| > 0
    && (forall i :: 0 <= i < |lists| ==> Sorted(lists[i]))
    && pages[0] == PageOf(lists[0], n, First)
    && (forall i :: 0 < i < |pages| ==> Follows(lists, n, pages, i))
  }

  ghost predicate Follows(lists: seq<seq<Key>>, n: nat, pages: seq<Page>, i: nat)
    requires n > 0 && 0 < i < |pages| == |lists|
  {
    pages[i - 1].older.Some? && pages[i] == PageOf(lists[i], n, pages[i - 1].older.value)
  }

  lemma WalkShorter(lists: seq<seq<Key>>, n: nat, pages: seq<Page>, m: nat)
    requires n > 0 && Walk(lists, n, pages) && 0 < m <= |pages|
    ensures Walk(lists[..m], n, pages[..m])
  {
    hide PageOf, Sorted;
    forall i | 0 < i < m
      ensures Follows(lists[..m], n, pages[..m], i)
    {
      assert Follows(lists, n, pages, i);
    }
  }

  function Rows(pages: seq<Page>): seq<Key> {
    if pages == [] then [] else Rows(pages[..|pages| - 1]) + pages[|pages| - 1].rows
  }

  /** The rows past a cursor: all of them at the first page. */
  predicate PastCursor(c: Cursor, k: Key) {
    c.Older? ==> k > c.key
  }

  /** A page's rows are in order, past its cursor; its older cursor is its last row, and the rest is past that. */
  ghost predicate Cut(keys: seq<Key>, c: Cursor, p: Page) {
    && Sorted(p.rows)
    && (forall k :: k in p.rows ==> k in keys && PastCursor(c, k))
    && (p.older.Some? ==> p.older.value.Older? && p.older.value.key in p.rows && forall k :: k in p.rows ==> k <= p.older.value.key)
    && (forall k :: k in keys && PastCursor(c, k) && k !in p.rows ==> p.older.Some? && k > p.older.value.key)
  }

  lemma OlderPage(keys: seq<Key>, n: nat, c: Cursor)
    requires Sorted(keys) && n > 0 && !c.Newer?
    ensures Cut(keys, c, PageOf(keys, n, c))
  {
    var from := if c.First? then 0 else Past(keys, c.key);
    if c.Older? { BeforeIs(keys, c.key + 1); }
    assert StartsAt(keys, from, c);
    hide Past, Before, StartsAt, PageFrom, Cut;
    CutFrom(keys, n, from, c);
  }

  /** The index is the first past the cursor. */
  ghost predicate StartsAt(keys: seq<Key>, from: nat, c: Cursor) {
    from <= |keys| && forall i :: 0 <= i < |keys| ==> (i >= from <==> PastCursor(c, keys[i]))
  }

  lemma CutFrom(keys: seq<Key>, n: nat, from: nat, c: Cursor)
    requires Sorted(keys) && n > 0 && StartsAt(keys, from, c)
    ensures from <= |keys| && Cut(keys, c, PageFrom(keys, n, from, c.First?))
  {
    assert from <= |keys|;
    hide *;
    PageFromIs(keys, n, from, c.First?);
    CutSlice(keys, from, Min(from + n, |keys|), c, PageFrom(keys, n, from, c.First?));
  }

  lemma CutSlice(keys: seq<Key>, from: nat, to: nat, c: Cursor, p: Page)
    requires Sorted(keys) && StartsAt(keys, from, c) && from <= to <= |keys| && (to < |keys| ==> from < to)
    requires p.rows == keys[from..to] && p.older == if to < |keys| then Some(Older(keys[to - 1])) else None
    ensures Cut(keys, c, p)
  {
    SliceKeys(keys, from, to);
    RowsPast(keys, from, to, c);
    hide Sorted, StartsAt, PastCursor;
    forall k | k in keys && PastCursor(c, k) && k !in p.rows
      ensures p.older.Some? && k > p.older.value.key
    {
      SkippedIsLater(keys, from, to, c, k);
    }
  }

  lemma RowsPast(keys: seq<Key>, from: nat, to: nat, c: Cursor)
    requires Sorted(keys) && from <= to <= |keys| && StartsAt(keys, from, c)
    ensures forall k :: k in keys[from..to] ==> k in keys && PastCursor(c, k)
    ensures from < to ==> keys[to - 1] in keys[from..to]
  {
    SliceKeys(keys, from, to);
    hide PastCursor, Sorted;
  }

  lemma PageFromIs(keys: seq<Key>, n: nat, from: nat, first: bool)
    requires n > 0 && from <= |keys|
    ensures var p, to := PageFrom(keys, n, from, first), Min(from + n, |keys|);
      && from <= to <= |keys| && p.rows == keys[from..to] && (to < |keys| ==> from < to)
      && p.older == if to < |keys| then Some(Older(keys[to - 1])) else None
  {
  }

  lemma SkippedIsLater(keys: seq<Key>, from: nat, to: nat, c: Cursor, k: Key)
    requires Sorted(keys) && from <= to <= |keys| && StartsAt(keys, from, c)
    requires k in keys && PastCursor(c, k) && k !in keys[from..to]
    ensures to < |keys| && (from < to ==> k > keys[to - 1])
  {
    SliceKeys(keys, from, to);
    var i :| 0 <= i < |keys| && keys[i] == k;
    assert i >= to;
  }

  /** The keys of a slice, in order. */
  lemma SliceKeys(keys: seq<Key>, from: nat, to: nat)
    requires Sorted(keys) && from <= to <= |keys|
    ensures Sorted(keys[from..to])
    ensures forall i :: from <= i < to ==> keys[i] in keys[from..to]
    ensures forall k :: k in keys[from..to] ==> exists i :: from <= i < to && keys[i] == k
    ensures from < to ==> forall k :: k in keys[from..to] ==> k <= keys[to - 1]
  {
    forall i | from <= i < to
      ensures keys[i] in keys[from..to]
    {
      assert keys[from..to][i - from] == keys[i];
    }
  }

  /** All rows of a walk so far are in order, and the ones it passed by are past its older cursor. */
  ghost predicate Ordered(lists: seq<seq<Key>>, rows: seq<Key>, older: Option<Cursor>) {
    && Sorted(rows)
    && (older.Some? ==> older.value.Older? && forall k :: k in rows ==> k <= older.value.key)
    && (forall k :: Always(lists, k) && k !in rows ==> older.Some? && older.value.Older? && k > older.value.key)
  }

  /** The row was there at every request. */
  ghost predicate Always(lists: seq<seq<Key>>, k: Key) {
    forall i :: 0 <= i < |lists| ==> k in lists[i]
  }

  lemma SortedConcat(a: seq<Key>, b: seq<Key>)
    requires Sorted(a) && Sorted(b) && forall x, y :: x in a && y in b ==> x < y
    ensures Sorted(a + b)
  {
    forall i, j | 0 <= i < j < |a + b|
      ensures (a + b)[i] < (a + b)[j]
    {
      if i < |a| && j >= |a| { assert a[i] in a && b[j - |a|] in b; }
    }
  }

  lemma OrderedNext(lists: seq<seq<Key>>, keys: seq<Key>, before: seq<Key>, c: Cursor, p: Page)
    requires lists != [] && keys == lists[|lists| - 1] && c.Older?
    requires Ordered(lists[..|lists| - 1], before, Some(c)) && Cut(keys, c, p)
    ensures Ordered(lists, before + p.rows, p.older)
  {
    SortedConcat(before, p.rows);
    assert forall k :: k in before + p.rows <==> k in before || k in p.rows;
    forall k | Always(lists, k) && k !in before + p.rows
      ensures p.older.Some? && p.older.value.Older? && k > p.older.value.key
    {
      assert Always(lists[..|lists| - 1], k);
      assert k in keys;
    }
    hide Sorted, Always;
  }

  lemma {:induction false} WalkInOrder(lists: seq<seq<Key>>, n: nat, pages: seq<Page>)
    requires n > 0 && Walk(lists, n, pages)
    ensures Ordered(lists, Rows(pages), pages[|pages| - 1].older)
  {
    var m := |pages| - 1;
    var p := pages[m];
    if m == 0 {
      OlderPage(lists[0], n, First);
      assert pages[..0] == [] && Rows(pages) == [] + p.rows;
      FirstOrdered(lists, p);
    } else {
      WalkShorter(lists, n, pages, m);
      WalkInOrder(lists[..m], n, pages[..m]);
      assert Follows(lists, n, pages, m) && Sorted(lists[m]);
      assert pages[..m][m - 1] == pages[m - 1];
      hide Walk, PageOf, Ordered, Cut;
      var c := pages[m - 1].older.value;
      assert c.Older? by { OlderIs(lists[..m], Rows(pages[..m]), Some(c)); }
      OlderPage(lists[m], n, c);
      OrderedNext(lists, lists[m], Rows(pages[..m]), c, p);
    }
  }

  lemma OlderIs(lists: seq<seq<Key>>, rows: seq<Key>, older: Option<Cursor>)
    requires Ordered(lists, rows, older) && older.Some?
    ensures older.value.Older?
  {
  }

  lemma FirstOrdered(lists: seq<seq<Key>>, p: Page)
    requires |lists| == 1 && Cut(lists[0], First, p)
    ensures Ordered(lists, [] + p.rows, p.older)
  {
    assert [] + p.rows == p.rows;
    forall k | Always(lists, k)
      ensures k in lists[0] && PastCursor(First, k)
    {
    }
  }

  /**
   Whatever happens to the list between requests, a walk returns no row twice, and, once it
   ends, every row that was there all along exactly once.
  */
  lemma WalkIsComplete(lists: seq<seq<Key>>, n: nat, pages: seq<Page>, k: Key)
    requires n > 0 && Walk(lists, n, pages)
    ensures multiset(Rows(pages))[k] <= 1
    ensures pages[|pages| - 1].older.None? && Always(lists, k) ==> multiset(Rows(pages))[k] == 1
  {
    WalkInOrder(lists, n, pages);
    SortedOnce(Rows(pages), k);
  }

  lemma {:induction false} SortedOnce(s: seq<Key>, k: Key)
    requires Sorted(s)
    ensures multiset(s)[k] == if k in s then 1 else 0
  {
    if s != [] {
      var n := |s| - 1;
      SortedOnce(s[..n], k);
      assert s == s[..n] + [s[n]];
    }
  }

  // -- a walk over a fixed list ------------------------------------------------------------------

  /** Where the i-th page of a fixed list starts. */
  function Offset(n: nat, i: nat): nat {
    if i == 0 then 0 else Offset(n, i - 1) + n
  }

  lemma {:induction false} OffsetIs(n: nat, i: nat)
    ensures Offset(n, i) == i * n
  {
    if i > 0 {
      OffsetIs(n, i - 1);
      assert i * n == (i - 1) * n + n;
    }
  }

  ghost predicate FixedAt(keys: seq<Key>, n: nat, pages: seq<Page>, i: nat)
    requires n > 0 && i < |pages|
  {
    Offset(n, i) <= |keys| && pages[i] == PageFrom(keys, n, Offset(n, i), i == 0)
  }

  lemma PastKey(keys: seq<Key>, i: nat)
    requires Sorted(keys) && i < |keys|
    ensures Past(keys, keys[i]) == i + 1 && Before(keys, keys[i]) == i
  {
    BeforeUnique(keys, keys[i] + 1, i + 1);
    BeforeUnique(keys, keys[i], i);
  }

  /** The page after one from an index of a fixed list. */
  lemma NextFixed(keys: seq<Key>, n: nat, at: nat, first: bool)
    requires Sorted(keys) && n > 0 && at <= |keys| && PageFrom(keys, n, at, first).older.Some?
    ensures at + n < |keys|
    ensures PageOf(keys, n, PageFrom(keys, n, at, first).older.value) == PageFrom(keys, n, at + n, false)
  {
    PastKey(keys, at + n - 1);
    hide Past, Before;
  }

  /** The list is the same at every request. */
  ghost predicate Constant(lists: seq<seq<Key>>, keys: seq<Key>) {
    forall j :: 0 <= j < |lists| ==> lists[j] == keys
  }

  lemma WalkStep(lists: seq<seq<Key>>, n: nat, pages: seq<Page>, keys: seq<Key>, i: nat)
    requires n > 0 && Walk(lists, n, pages) && i < |pages| && Constant(lists, keys)
    ensures Sorted(keys) && |lists| == |pages|
    ensures if i == 0 then pages[0] == PageFrom(keys, n, 0, true)
            else pages[i - 1].older.Some? && pages[i] == PageOf(keys, n, pages[i - 1].older.value)
  {
    assert Sorted(lists[0]) && lists[i] == keys;
    if i > 0 { assert Follows(lists, n, pages, i); }
    hide PageFrom, Sorted;
  }

  lemma FixedIs(keys: seq<Key>, n: nat, pages: seq<Page>, i: nat)
    requires n > 0 && i < |pages|
    ensures FixedAt(keys, n, pages, i) <==> Offset(n, i) <= |keys| && pages[i] == PageFrom(keys, n, Offset(n, i), i == 0)
    ensures Offset(n, i) == if i == 0 then 0 else Offset(n, i - 1) + n
  {
    hide PageFrom;
  }

  /** A fixed list, walked: each page starts where the one before it ended. */
  lemma {:induction false} FixedPage(keys: seq<Key>, n: nat, pages: seq<Page>, lists: seq<seq<Key>>, i: nat)
    requires n > 0 && Walk(lists, n, pages) && i < |pages| && Constant(lists, keys)
    ensures FixedAt(keys, n, pages, i)
    decreases i
  {
    hide *;
    WalkStep(lists, n, pages, keys, i);
    FixedIs(keys, n, pages, i);
    if i > 0 {
      FixedPage(keys, n, pages, lists, i - 1);
      FixedIs(keys, n, pages, i - 1);
      NextFixed(keys, n, Offset(n, i - 1), i - 1 == 0);
    }
  }

  /** The rows of a walk over a fixed list, up to the page at hand. */
  lemma {:induction false} FixedRows(keys: seq<Key>, n: nat, pages: seq<Page>, lists: seq<seq<Key>>)
    requires n > 0 && Walk(lists, n, pages) && Constant(lists, keys)
    ensures |pages| > 0 && Rows(pages) == keys[..Min(Offset(n, |pages| - 1) + n, |keys|)]
  {
    hide *;
    SomePages(lists, n, pages);
    var m := |pages| - 1;
    WalkStep(lists, n, pages, keys, m);
    FixedPage(keys, n, pages, lists, m);
    FixedIs(keys, n, pages, m);
    RowsLast(pages);
    if m > 0 {
      WalkShorter(lists, n, pages, m);
      ConstantShorter(lists, keys, m);
      FixedRows(keys, n, pages[..m], lists[..m]);
      FixedFull(keys, n, pages, lists, m);
      MinIs(Offset(n, m), |keys|);
    }
    RowsAndPage(keys, n, Rows(pages[..m]), Offset(n, m), m == 0);
  }

  lemma SomePages(lists: seq<seq<Key>>, n: nat, pages: seq<Page>)
    requires n > 0 && Walk(lists, n, pages)
    ensures |pages| > 0
  {
  }

  /** A page of the walk before another is full. */
  lemma FixedFull(keys: seq<Key>, n: nat, pages: seq<Page>, lists: seq<seq<Key>>, m: nat)
    requires n > 0 && Walk(lists, n, pages) && Constant(lists, keys) && 0 < m < |pages|
    ensures Offset(n, m) == Offset(n, m - 1) + n <= |keys|
  {
    hide *;
    FixedPage(keys, n, pages, lists, m);
    FixedIs(keys, n, pages, m);
  }

  lemma RowsAndPage(keys: seq<Key>, n: nat, before: seq<Key>, from: nat, first: bool)
    requires n > 0 && from <= |keys| && before == keys[..from]
    ensures before + PageFrom(keys, n, from, first).rows == keys[..Min(from + n, |keys|)]
  {
    FromRows(keys, n, from, first);
    TwoSlices(keys, from, Min(from + n, |keys|));
    hide *;
  }

  lemma RowsLast(pages: seq<Page>)
    requires pages != []
    ensures Rows(pages) == Rows(pages[..|pages| - 1]) + pages[|pages| - 1].rows
    ensures |pages| == 1 ==> Rows(pages[..0]) == []
  {
    if |pages| == 1 { assert pages[..0] == []; }
  }

  lemma FromRows(keys: seq<Key>, n: nat, from: nat, first: bool)
    requires n > 0 && from <= |keys|
    ensures from <= Min(from + n, |keys|) <= |keys| && PageFrom(keys, n, from, first).rows == keys[from..Min(from + n, |keys|)]
  {
  }

  lemma TwoSlices(keys: seq<Key>, a: nat, b: nat)
    requires a <= b <= |keys|
    ensures keys[..a] + keys[a..b] == keys[..b] && keys[..0] == []
  {
  }

  lemma MinIs(a: nat, b: nat)
    ensures Min(a, b) == if a < b then a else b
  {
  }

  lemma ConstantShorter(lists: seq<seq<Key>>, keys: seq<Key>, m: nat)
    requires Constant(lists, keys) && m <= |lists|
    ensures Constant(lists[..m], keys)
  {
  }

  /** The walk over a fixed list ends after as many pages as the size needs, and its pages put together are the list. */
  lemma FixedWalk(keys: seq<Key>, n: nat, pages: seq<Page>, lists: seq<seq<Key>>)
    requires n > 0 && Walk(lists, n, pages) && Constant(lists, keys)
    ensures (|pages| - 1) * n <= |keys|
    ensures Rows(pages) == keys[..Min(|pages| * n, |keys|)]
    ensures pages[|pages| - 1].older.None? <==> |keys| <= |pages| * n
  {
    var m := |pages| - 1;
    assert |pages| > 0;
    FixedPage(keys, n, pages, lists, m);
    FixedRows(keys, n, pages, lists);
    OffsetIs(n, m);
    OffsetIs(n, m + 1);
    hide Walk, Rows, Constant;
  }

  lemma NewerFirst(keys: seq<Key>, n: nat, k: Key)
    requires n > 0 && Before(keys, k) == n
    ensures PageOf(keys, n, Newer(k)) == PageFrom(keys, n, 0, true)
  {
    hide Before, PageFrom;
  }

  lemma PageFromInside(keys: seq<Key>, n: nat, from: nat, first: bool)
    requires n > 0 && from + n < |keys|
    ensures PageFrom(keys, n, from, first) ==
      Page(keys[from..from + n], Some(Older(keys[from + n - 1])), if first then None else Some(Newer(keys[from])), false)
  {
  }

  lemma NewerOfFrom(keys: seq<Key>, n: nat, from: nat)
    requires n > 0 && from < |keys|
    ensures PageFrom(keys, n, from, false).newer == Some(Newer(keys[from]))
  {
  }

  /** The page before one from an index that ends where that one starts. */
  lemma PreviousFixed(keys: seq<Key>, n: nat, from: nat)
    requires Sorted(keys) && n > 0 && from + n < |keys|
    ensures var p := PageFrom(keys, n, from + n, false);
      p.newer.Some? && PageOf(keys, n, p.newer.value) == PageFrom(keys, n, from, from == 0)
  {
    hide *;
    var at: nat := from + n;
    NewerOfFrom(keys, n, at);
    PastKey(keys, at);
    if from == 0 {
      NewerFirst(keys, n, keys[at]);
    } else {
      NewerIs(keys, n, keys[at], at);
      PageFromInside(keys, n, from, false);
    }
  }

  lemma OffsetZero(n: nat, i: nat)
    requires n > 0
    ensures Offset(n, i) == 0 <==> i == 0
  {
  }

  /** Newer from any page of that walk gives back the page before it, cursors and all. */
  lemma NewerIsThePrevious(keys: seq<Key>, n: nat, pages: seq<Page>, lists: seq<seq<Key>>, i: nat)
    requires n > 0 && Walk(lists, n, pages) && 0 < i < |pages| && Constant(lists, keys)
    ensures pages[i].newer.Some? && PageOf(keys, n, pages[i].newer.value) == pages[i - 1]
  {
    hide *;
    FixedPage(keys, n, pages, lists, i);
    FixedPage(keys, n, pages, lists, i - 1);
    FixedIs(keys, n, pages, i);
    FixedIs(keys, n, pages, i - 1);
    WalkStep(lists, n, pages, keys, i);
    NextFixed(keys, n, Offset(n, i - 1), i - 1 == 0);
    OffsetZero(n, i - 1);
    PreviousFixed(keys, n, Offset(n, i - 1));
  }
}
