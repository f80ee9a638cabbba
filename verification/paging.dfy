/**
 Cursor paging over a list of ids in descending order, as the events, grants and sessions
 are listed. Tokens are identified with the cursor values they carry.
 */
module Paging {
  import opened ByteStrings

  /** The collation of ids: any strict total order in which the empty string comes first. */
  datatype Order = Order(less: (Bytes, Bytes) -> bool) {
    predicate Less(a: Bytes, b: Bytes) {
      less(a, b)
    }
  }

  ghost predicate Collates(o: Order) {
    && (forall a :: !o.Less(a, a))
    && (forall a, b, c :: o.Less(a, b) && o.Less(b, c) ==> o.Less(a, c))
    && (forall a, b :: a != b ==> o.Less(a, b) || o.Less(b, a))
    && (forall a :: a != [] ==> o.Less([], a))
  }

  ghost predicate Descending(o: Order, ids: seq<Bytes>) {
    forall i, j :: 0 <= i < j < |ids| ==> o.Less(ids[j], ids[i])
  }

  lemma Ordered(o: Order, ids: seq<Bytes>, i: nat, j: nat)
    requires Descending(o, ids) && i < j < |ids|
    ensures o.Less(ids[j], ids[i])
  {
  }

  lemma NeverBoth(o: Order, a: Bytes, b: Bytes)
    requires Collates(o)
    ensures !(o.Less(a, b) && o.Less(b, a))
  {
    assert o.Less(a, b) && o.Less(b, a) ==> o.Less(a, a);
  }

  lemma NothingBelowEmpty(o: Order, a: Bytes)
    requires Collates(o)
    ensures !o.Less(a, [])
  {
    NeverBoth(o, [], a);
  }

  function ClampPageSize(n: int32, max: int32): (size: int32)
    requires max > 0
    ensures 0 < size <= max
    ensures 0 < n <= max ==> size == n
    ensures n <= 0 || n > max ==> size == max
  {
    if n <= 0 || n > max then max else n
  }

  /** The condition on the cursor: the empty one admits every id. */
  predicate Admits(o: Order, cursor: Bytes, id: Bytes) {
    cursor == [] || o.Less(id, cursor)
  }

  function Below(o: Order, ids: seq<Bytes>, cursor: Bytes): seq<Bytes> {
    if |ids| == 0 then []
    else (if Admits(o, cursor, ids[0]) then [ids[0]] else []) + Below(o, ids[1..], cursor)
  }

  /** One page and the next cursor; one row more than the page is read to see if there is a next page. */
  datatype Page = Page(ids: seq<Bytes>, next: Bytes)

  function PageOf(o: Order, ids: seq<Bytes>, cursor: Bytes, size: nat): Page
    requires size > 0
  {
    var rows := Below(o, ids, cursor);
    if |rows| > size then Page(rows[..size], rows[size - 1]) else Page(rows, [])
  }

  method List(o: Order, ids: seq<Bytes>, pageSize: int32, cursor: Bytes) returns (page: Page)
    ensures page == PageOf(o, ids, cursor, ClampPageSize(pageSize, 100))
    ensures |page.ids| <= 100 && (0 < pageSize <= 100 ==> |page.ids| <= pageSize)
    ensures page.next != [] ==> |page.ids| == if 0 < pageSize <= 100 then pageSize else 100
  {
    var size := ClampPageSize(pageSize, 100);
    var rows := Below(o, ids, cursor);
    if |rows| > size + 1 {
      rows := rows[..size + 1];
    }
    var next := [];
    if |rows| > size {
      next := rows[size - 1];
      rows := rows[..size];
    }
    var out := [];
    for i := 0 to |rows|
      invariant out == rows[..i]
    {
      out := out + [rows[i]];
    }
    return Page(out, next);
  }

  // Following the cursors, the table being as in tables[k] at the k-th fetch

  function Follow(o: Order, tables: seq<seq<Bytes>>, cursor: Bytes, size: nat): seq<Bytes>
    requires size > 0
  {
    if |tables| == 0 then []
    else
      var page := PageOf(o, tables[0], cursor, size);
      if page.next == [] then page.ids else page.ids + Follow(o, tables[1..], page.next, size)
  }

  /** One of the fetches returns no next cursor. */
  predicate Ends(o: Order, tables: seq<seq<Bytes>>, cursor: Bytes, size: nat)
    requires size > 0
  {
    |tables| > 0 &&
      var page := PageOf(o, tables[0], cursor, size);
      page.next == [] || Ends(o, tables[1..], page.next, size)
  }

  lemma {:induction false} BelowMembers(o: Order, ids: seq<Bytes>, cursor: Bytes, x: Bytes)
    ensures x in Below(o, ids, cursor) <==> x in ids && Admits(o, cursor, x)
  {
    if |ids| > 0 {
      BelowMembers(o, ids[1..], cursor, x);
      assert ids == [ids[0]] + ids[1..];
    }
  }

  lemma {:induction false} BelowDescends(o: Order, ids: seq<Bytes>, cursor: Bytes)
    requires Descending(o, ids)
    ensures Descending(o, Below(o, ids, cursor))
  {
    if |ids| > 0 {
      var rest := Below(o, ids[1..], cursor);
      BelowDescends(o, ids[1..], cursor);
      forall j | 0 <= j < |rest|
        ensures o.Less(rest[j], ids[0])
      {
        BelowMembers(o, ids[1..], cursor, rest[j]);
      }
    }
  }

  /** A page is descending and within the cursor, and its next cursor is nonempty unless it is the last. */
  lemma PageShape(o: Order, ids: seq<Bytes>, cursor: Bytes, size: nat)
    requires size > 0 && Collates(o) && Descending(o, ids)
    ensures var page := PageOf(o, ids, cursor, size);
      && Descending(o, page.ids)
      && (forall x :: x in page.ids ==> x in ids && Admits(o, cursor, x))
      && (page.next != [] ==>
           page.next in page.ids && forall x :: x in page.ids ==> x == page.next || o.Less(page.next, x))
      && (forall x :: x in ids && Admits(o, cursor, x) ==>
           x in page.ids || (page.next != [] && Admits(o, page.next, x)))
  {
    var rows := Below(o, ids, cursor);
    var page := PageOf(o, ids, cursor, size);
    BelowDescends(o, ids, cursor);
    forall x
      ensures x in rows <==> x in ids && Admits(o, cursor, x)
    {
      BelowMembers(o, ids, cursor, x);
    }
    if |rows| > size {
      NotLeast(o, rows, size);
      assert rows == page.ids + rows[size..];
      forall x | x in rows[size..]
        ensures o.Less(x, page.next)
      {
        var j :| 0 <= j < |rows[size..]| && rows[size..][j] == x;
        Ordered(o, rows, size - 1, size + j);
      }
      forall x | x in page.ids
        ensures x == page.next || o.Less(page.next, x)
      {
        var j :| 0 <= j < size && page.ids[j] == x;
        if j < size - 1 {
          Ordered(o, rows, j, size - 1);
        }
      }
      assert page.ids[size - 1] == page.next;
    }
  }

  ghost predicate AllDescending(o: Order, tables: seq<seq<Bytes>>) {
    forall k :: 0 <= k < |tables| ==> Descending(o, tables[k])
  }

  /** Everything returned after a cursor lies below it, in strictly descending order. */
  lemma {:induction false} FollowDescends(o: Order, tables: seq<seq<Bytes>>, cursor: Bytes, size: nat)
    requires size > 0 && Collates(o) && AllDescending(o, tables)
    ensures Descending(o, Follow(o, tables, cursor, size))
    ensures forall x :: x in Follow(o, tables, cursor, size) ==> Admits(o, cursor, x)
  {
    hide PageOf, Below;
    if |tables| > 0 {
      var page := PageOf(o, tables[0], cursor, size);
      PageShape(o, tables[0], cursor, size);
      if page.next != [] {
        FollowDescends(o, tables[1..], page.next, size);
        JoinDescends(o, page, cursor, Follow(o, tables[1..], page.next, size));
      }
    }
  }

  lemma JoinDescends(o: Order, page: Page, cursor: Bytes, rest: seq<Bytes>)
    requires Collates(o) && Descending(o, page.ids) && Descending(o, rest) && page.next != []
    requires page.next in page.ids && forall x :: x in page.ids ==> x == page.next || o.Less(page.next, x)
    requires forall x :: x in page.ids ==> Admits(o, cursor, x)
    requires forall x :: x in rest ==> Admits(o, page.next, x)
    ensures Descending(o, page.ids + rest)
    ensures forall x :: x in page.ids + rest ==> Admits(o, cursor, x)
  {
    var all := page.ids + rest;
    forall i, j | 0 <= i < j < |all|
      ensures o.Less(all[j], all[i])
    {
      if i < |page.ids| <= j {
        assert all[i] in page.ids && all[j] in rest;
      }
    }
  }

  /**
   Paging a growing table: whatever is inserted between the fetches, following the cursors to
   the end returns no id twice, in descending order, and returns every id that was in the table
   throughout.
   */
  lemma {:induction false} PagingReturnsWhatStays(o: Order, tables: seq<seq<Bytes>>, cursor: Bytes, size: nat, x: Bytes)
    requires size > 0 && Collates(o) && AllDescending(o, tables) && Ends(o, tables, cursor, size)
    requires Admits(o, cursor, x) && forall k :: 0 <= k < |tables| ==> x in tables[k]
    ensures x in Follow(o, tables, cursor, size) && Descending(o, Follow(o, tables, cursor, size))
  {
    hide PageOf, Below, Descending;
    var page := PageOf(o, tables[0], cursor, size);
    PageShape(o, tables[0], cursor, size);
    FollowDescends(o, tables, cursor, size);
    if x !in page.ids {
      PagingReturnsWhatStays(o, tables[1..], page.next, size, x);
    }
  }

  // A table that stays as it is

  function Repeated(ids: seq<Bytes>, times: nat): (tables: seq<seq<Bytes>>)
    ensures |tables| == times
  {
    if times == 0 then [] else [ids] + Repeated(ids, times - 1)
  }

  /** What is below the last id of a page is what is left after the page. */
  lemma BelowNext(o: Order, ids: seq<Bytes>, cursor: Bytes, k: nat)
    requires Collates(o) && Descending(o, ids) && 0 < k < |Below(o, ids, cursor)|
    ensures Below(o, ids, Below(o, ids, cursor)[k - 1]) == Below(o, ids, cursor)[k..]
  {
    var rows := Below(o, ids, cursor);
    var next := rows[k - 1];
    BelowDescends(o, ids, cursor);
    BelowDescends(o, ids, next);
    NotLeast(o, rows, k);
    forall x
      ensures x in Below(o, ids, next) <==> x in rows[k..]
    {
      BelowMembers(o, ids, next, x);
      BelowMembers(o, ids, cursor, x);
      BelowMembers(o, ids, cursor, next);
      SplitsAt(o, rows, k, x);
    }
    SameMembersSameList(o, Below(o, ids, next), rows[k..]);
  }

  lemma NotLeast(o: Order, rows: seq<Bytes>, k: nat)
    requires Collates(o) && Descending(o, rows) && 0 < k < |rows|
    ensures rows[k - 1] != []
  {
    hide Collates, Descending;
    Ordered(o, rows, k - 1, k);
    NothingBelowEmpty(o, rows[k]);
  }

  lemma SplitsAt(o: Order, rows: seq<Bytes>, k: nat, x: Bytes)
    requires Collates(o) && Descending(o, rows) && 0 < k < |rows|
    ensures x in rows[k..] <==> x in rows && o.Less(x, rows[k - 1])
  {
    hide Collates, Descending;
    assert rows == rows[..k] + rows[k..];
    if x in rows[k..] {
      var j :| 0 <= j < |rows[k..]| && rows[k..][j] == x;
      Ordered(o, rows, k - 1, k + j);
    } else if x in rows {
      var j :| 0 <= j < |rows[..k]| && rows[..k][j] == x;
      if j < k - 1 {
        Ordered(o, rows, j, k - 1);
      }
      NeverBoth(o, x, rows[k - 1]);
    }
  }

  /** A strictly descending list is determined by its members. */
  lemma {:induction false} SameMembersSameList(o: Order, xs: seq<Bytes>, ys: seq<Bytes>)
    requires Collates(o) && Descending(o, xs) && Descending(o, ys)
    requires forall x :: x in xs <==> x in ys
    ensures xs == ys
  {
    assert |ys| > 0 ==> ys[0] in ys;
    if |xs| > 0 {
      assert xs[0] in xs;
      SameHead(o, xs, ys);
      forall x
        ensures x in xs[1..] <==> x in ys[1..]
      {
        TailMembers(o, xs, x);
        TailMembers(o, ys, x);
      }
      SameMembersSameList(o, xs[1..], ys[1..]);
      assert xs == [xs[0]] + xs[1..] && ys == [ys[0]] + ys[1..];
    }
  }

  lemma SameHead(o: Order, xs: seq<Bytes>, ys: seq<Bytes>)
    requires Collates(o) && Descending(o, xs) && Descending(o, ys) && |xs| > 0 && |ys| > 0
    requires xs[0] in ys && ys[0] in xs
    ensures xs[0] == ys[0]
  {
    hide Collates, Descending;
    var i :| 0 <= i < |ys| && ys[i] == xs[0];
    var j :| 0 <= j < |xs| && xs[j] == ys[0];
    if i > 0 && j > 0 {
      Ordered(o, ys, 0, i);
      Ordered(o, xs, 0, j);
      NeverBoth(o, xs[0], ys[0]);
    }
  }

  lemma TailMembers(o: Order, xs: seq<Bytes>, x: Bytes)
    requires Collates(o) && Descending(o, xs) && |xs| > 0
    ensures x in xs[1..] <==> x in xs && x != xs[0]
  {
    hide Collates, Descending;
    assert xs == [xs[0]] + xs[1..];
    NeverBoth(o, xs[0], xs[0]);
    if x in xs[1..] {
      var i :| 0 <= i < |xs[1..]| && xs[1..][i] == x;
      Ordered(o, xs, 0, i + 1);
    }
  }

  /**
   Paging a fixed table ends, after no more fetches than there are rows left and one, and the
   pages are, put together, exactly the rows left, each once and in order.
   */
  lemma {:induction false} PagingReturnsAll(o: Order, ids: seq<Bytes>, cursor: Bytes, size: nat, fetches: nat)
    requires size > 0 && Collates(o) && Descending(o, ids) && fetches > |Below(o, ids, cursor)|
    ensures Ends(o, Repeated(ids, fetches), cursor, size)
    ensures Follow(o, Repeated(ids, fetches), cursor, size) == Below(o, ids, cursor)
    ensures cursor == [] ==> Below(o, ids, cursor) == ids
    decreases fetches
  {
    hide Collates, Descending, Below;
    var tables, rows := Repeated(ids, fetches), Below(o, ids, cursor);
    assert tables[0] == ids && tables[1..] == Repeated(ids, fetches - 1);
    if cursor == [] {
      EmptyCursorAdmitsAll(o, ids);
    }
    if |rows| > size {
      BelowNext(o, ids, cursor, size);
      BelowDescends(o, ids, cursor);
      NotLeast(o, rows, size);
      PagingReturnsAll(o, ids, rows[size - 1], size, fetches - 1);
      assert rows == rows[..size] + rows[size..];
    }
  }

  lemma {:induction false} EmptyCursorAdmitsAll(o: Order, ids: seq<Bytes>)
    ensures Below(o, ids, []) == ids
  {
    if |ids| > 0 {
      EmptyCursorAdmitsAll(o, ids[1..]);
    }
  }
}
