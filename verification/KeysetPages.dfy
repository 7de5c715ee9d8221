/** Pages of a listing, cut by the key of the last row of the page before: the query shape of both listings. */
module KeysetPages {
  import opened Options

  /** `before(a, b)` says that the listing shows `a` ahead of `b`. */
  ghost predicate StrictTotal<K(!new)>(before: (K, K) -> bool) {
    && (forall a :: !before(a, a))
    && (forall a, b, c :: before(a, b) && before(b, c) ==> before(a, c))
    && (forall a, b :: a == b || before(a, b) || before(b, a))
  }

  ghost predicate Ordered<K>(before: (K, K) -> bool, keys: seq<K>) {
    forall i, j | 0 <= i < j < |keys| :: before(keys[i], keys[j])
  }

  ghost predicate IsFirst<K>(before: (K, K) -> bool, keys: set<K>, first: K) {
    first in keys && forall k | k in keys && k != first :: before(first, k)
  }

  lemma {:induction false} FirstExists<K(!new)>(before: (K, K) -> bool, keys: set<K>)
    requires StrictTotal(before) && keys != {}
    ensures exists first :: IsFirst(before, keys, first)
  {
    var some :| some in keys;
    if keys == {some} {
      assert IsFirst(before, keys, some);
    } else {
      var rest := keys - {some};
      FirstExists(before, rest);
      var first :| IsFirst(before, rest, first);
      assert forall k | k in keys :: k == some || k in rest;
      if before(some, first) {
        assert IsFirst(before, keys, some);
      } else {
        assert IsFirst(before, keys, first);
      }
    }
  }

  /** The rows of a query in order: `ORDER BY` over unique keys. */
  ghost function Listing<K(!new)>(before: (K, K) -> bool, keys: set<K>): seq<K>
    requires StrictTotal(before)
  {
    if keys == {} then []
    else
      FirstExists(before, keys);
      var first :| IsFirst(before, keys, first);
      [first] + Listing(before, keys - {first})
  }

  lemma {:induction false} ListingIsOrdered<K(!new)>(before: (K, K) -> bool, keys: set<K>)
    requires StrictTotal(before)
    ensures Ordered(before, Listing(before, keys))
    ensures forall k :: k in Listing(before, keys) <==> k in keys
    ensures |Listing(before, keys)| == |keys|
  {
    if keys != {} {
      ListingIsOrdered(before, keys - {Listing(before, keys)[0]});
    }
  }

  /** An ordered sequence is the listing of its keys: there is one way to list them. */
  lemma {:induction false} OrderedIsListing<K(!new)>(before: (K, K) -> bool, keys: set<K>, rows: seq<K>)
    requires StrictTotal(before) && Ordered(before, rows)
    requires forall k :: k in rows <==> k in keys
    ensures rows == Listing(before, keys)
  {
    if rows == [] {
      assert keys == {};
    } else {
      assert rows[0] in keys;
      var first := Listing(before, keys)[0];
      assert IsFirst(before, keys, first);
      assert first == rows[0];
      forall k
        ensures k in rows[1..] <==> k in keys - {first}
      {
        assert k in rows <==> k == rows[0] || k in rows[1..];
      }
      OrderedIsListing(before, keys - {first}, rows[1..]);
    }
  }

  // ---------------------------------------------------------------- one page

  datatype Page<K> = Page(items: seq<K>, next: Option<K>, hasMore: bool, total: nat)

  /** The keys a cursor leaves: those listed after it. */
  ghost function After<K>(before: (K, K) -> bool, keys: set<K>, cursor: Option<K>): set<K> {
    set k | k in keys && (cursor.None? || before(cursor.value, k))
  }

  /** Fetches one row more than asked to learn whether there are more; the next cursor is the last row shown. */
  ghost function FetchPage<K(!new)>(before: (K, K) -> bool, keys: set<K>, cursor: Option<K>, limit: nat): Page<K>
    requires StrictTotal(before)
  {
    var listing := Listing(before, After(before, keys, cursor));
    var rows := if |listing| > limit + 1 then listing[..limit + 1] else listing;
    var hasMore := |rows| > limit;
    var items := if hasMore then rows[..limit] else rows;
    Page(items, if hasMore && items != [] then Some(items[|items| - 1]) else None, hasMore, |keys|)
  }

  /** A page shows the first keys after the cursor; without a next cursor it shows all that are left, else what
      it leaves is exactly what its cursor leaves. */
  lemma PageTakesFirst<K(!new)>(before: (K, K) -> bool, keys: set<K>, cursor: Option<K>, limit: nat)
    requires StrictTotal(before) && limit >= 1
    ensures var page := FetchPage(before, keys, cursor, limit);
            && |page.items| <= limit
            && Ordered(before, page.items)
            && (forall k | k in page.items :: k in After(before, keys, cursor))
            && (page.next.None? ==> forall k | k in After(before, keys, cursor) :: k in page.items)
            && (page.next.Some? ==>
                  && page.next.value in After(before, keys, cursor)
                  && page.items[|page.items| - 1] == page.next.value
                  && forall k | k in After(before, keys, cursor) :: k in page.items || before(page.next.value, k))
  {
    var left := After(before, keys, cursor);
    var listing, page := Listing(before, left), FetchPage(before, keys, cursor, limit);
    ListingIsOrdered(before, left);
    assert page.items <= listing;
    if page.next.Some? {
      assert page.items == listing[..limit];
      PrefixLeavesRest(before, listing, limit);
    }
  }

  lemma PrefixLeavesRest<K(!new)>(before: (K, K) -> bool, listing: seq<K>, limit: nat)
    requires Ordered(before, listing) && 1 <= limit <= |listing|
    ensures forall k | k in listing :: k in listing[..limit] || before(listing[limit - 1], k)
  {
    forall k | k in listing
      ensures k in listing[..limit] || before(listing[limit - 1], k)
    {
      var i :| 0 <= i < |listing| && listing[i] == k;
      if i < limit {
        assert listing[..limit][i] == k;
      }
    }
  }

  /** What a page says of itself is true, for any page size: it is full if there are rows for it, tells whether
      rows are left, and counts the matching rows whatever the cursor. */
  lemma PageCounts<K(!new)>(before: (K, K) -> bool, keys: set<K>, cursor: Option<K>, limit: nat)
    requires StrictTotal(before)
    ensures var page, left := FetchPage(before, keys, cursor, limit), |After(before, keys, cursor)|;
            && |page.items| == (if left < limit then left else limit)
            && (page.hasMore <==> limit < left)
            && (page.next.Some? <==> 0 < limit < left)
            && page.total == |keys|
  {
    ListingIsOrdered(before, After(before, keys, cursor));
  }

  // ---------------------------------------------------------------- following cursors

  /** All rows met by following the cursors over a store that does not change. */
  ghost function Follow<K(!new)>(before: (K, K) -> bool, keys: set<K>, cursor: Option<K>, limit: nat): seq<K>
    requires StrictTotal(before) && limit >= 1
    decreases |After(before, keys, cursor)|
  {
    var page := FetchPage(before, keys, cursor, limit);
    PageTakesFirst(before, keys, cursor, limit);
    if page.next.None? then page.items
    else
      CursorLeavesLess(before, keys, cursor, page.next.value);
      page.items + Follow(before, keys, page.next, limit)
  }

  lemma CursorLeavesLess<K(!new)>(before: (K, K) -> bool, keys: set<K>, cursor: Option<K>, next: K)
    requires StrictTotal(before) && next in After(before, keys, cursor)
    ensures |After(before, keys, Some(next))| < |After(before, keys, cursor)|
  {
    var less, more := After(before, keys, Some(next)), After(before, keys, cursor);
    assert less <= more - {next};
    SmallerSubset(less, more, next);
  }

  lemma {:induction false} SmallerSubset<K>(less: set<K>, more: set<K>, extra: K)
    requires less <= more - {extra} && extra in more
    ensures |less| < |more|
    decreases less
  {
    if less != {} {
      var some :| some in less;
      SmallerSubset(less - {some}, more - {some}, extra);
    }
  }

  lemma {:induction false} FollowIsOrdered<K(!new)>(before: (K, K) -> bool, keys: set<K>, cursor: Option<K>, limit: nat)
    requires StrictTotal(before) && limit >= 1
    ensures Ordered(before, Follow(before, keys, cursor, limit))
    ensures forall k :: k in Follow(before, keys, cursor, limit) <==> k in After(before, keys, cursor)
    decreases |After(before, keys, cursor)|
  {
    var page := FetchPage(before, keys, cursor, limit);
    PageTakesFirst(before, keys, cursor, limit);
    if page.next.Some? {
      CursorLeavesLess(before, keys, cursor, page.next.value);
      FollowIsOrdered(before, keys, page.next, limit);
      JoinOrdered(before, page.items, Follow(before, keys, page.next, limit));
    }
  }

  lemma JoinOrdered<K(!new)>(before: (K, K) -> bool, a: seq<K>, b: seq<K>)
    requires StrictTotal(before) && Ordered(before, a) && Ordered(before, b)
    requires a != [] && forall k | k in b :: before(a[|a| - 1], k)
    ensures Ordered(before, a + b)
  {
    forall i, j | 0 <= i < j < |a + b|
      ensures before((a + b)[i], (a + b)[j])
    {
      if i < |a| <= j {
        assert (a + b)[j] == b[j - |a|] && b[j - |a|] in b;
        assert i == |a| - 1 || before(a[i], a[|a| - 1]);
      }
    }
  }

  /** On a store that does not change, following the cursors to the end ends, and yields every matching key once,
      in listing order, whatever the page size. */
  lemma PagesRefineListing<K(!new)>(before: (K, K) -> bool, keys: set<K>, limit: nat)
    requires StrictTotal(before) && limit >= 1
    ensures Follow(before, keys, None, limit) == Listing(before, keys)
  {
    FollowIsOrdered(before, keys, None, limit);
    assert After(before, keys, None) == keys;
    OrderedIsListing(before, keys, Follow(before, keys, None, limit));
  }

  // ---------------------------------------------------------------- pages over a changing store

  /** The rows met by following the cursors when page i reads the i-th snapshot of the matching keys. */
  ghost function Walk<K(!new)>(before: (K, K) -> bool, snapshots: seq<set<K>>, cursor: Option<K>, limit: nat): seq<K>
    requires StrictTotal(before)
  {
    if snapshots == [] then []
    else
      var page := FetchPage(before, snapshots[0], cursor, limit);
      page.items + if page.next.None? then [] else Walk(before, snapshots[1..], page.next, limit)
  }

  /** The same walk, page by page. */
  ghost function WalkPages<K(!new)>(before: (K, K) -> bool, snapshots: seq<set<K>>, cursor: Option<K>,
                                    limit: nat): seq<seq<K>>
    requires StrictTotal(before)
  {
    if snapshots == [] then []
    else
      var page := FetchPage(before, snapshots[0], cursor, limit);
      [page.items] + if page.next.None? then [] else WalkPages(before, snapshots[1..], page.next, limit)
  }

  function Flatten<K>(pages: seq<seq<K>>): seq<K> {
    if pages == [] then [] else pages[0] + Flatten(pages[1..])
  }

  /** Each page of a walk shows only keys of the snapshot it reads. */
  ghost predicate ShowsItsOwn<K>(pages: seq<seq<K>>, snapshots: seq<set<K>>) {
    && |pages| <= |snapshots|
    && forall i, k | 0 <= i < |pages| && k in pages[i] :: k in snapshots[i]
  }

  /** The walk reaches a page without a next cursor within these snapshots. */
  ghost predicate Ends<K(!new)>(before: (K, K) -> bool, snapshots: seq<set<K>>, cursor: Option<K>, limit: nat)
    requires StrictTotal(before)
  {
    && snapshots != []
    && var page := FetchPage(before, snapshots[0], cursor, limit);
       page.next.None? || Ends(before, snapshots[1..], page.next, limit)
  }

  /** However rows come and go between pages, no key is shown twice, and the order never breaks. */
  lemma {:induction false} WalkIsOrdered<K(!new)>(before: (K, K) -> bool, snapshots: seq<set<K>>, cursor: Option<K>,
                                                  limit: nat)
    requires StrictTotal(before) && limit >= 1
    ensures Ordered(before, Walk(before, snapshots, cursor, limit))
    ensures forall k | k in Walk(before, snapshots, cursor, limit) :: cursor.None? || before(cursor.value, k)
    decreases |snapshots|
  {
    if snapshots != [] {
      var page := FetchPage(before, snapshots[0], cursor, limit);
      PageTakesFirst(before, snapshots[0], cursor, limit);
      if page.next.Some? {
        WalkIsOrdered(before, snapshots[1..], page.next, limit);
        JoinOrdered(before, page.items, Walk(before, snapshots[1..], page.next, limit));
      }
    }
  }

  /** The rows met are those of the pages, and each page's rows matched when it was read. */
  lemma {:induction false} WalkShowsMatches<K(!new)>(before: (K, K) -> bool, snapshots: seq<set<K>>, cursor: Option<K>,
                                                     limit: nat)
    requires StrictTotal(before) && limit >= 1
    ensures Walk(before, snapshots, cursor, limit) == Flatten(WalkPages(before, snapshots, cursor, limit))
    ensures ShowsItsOwn(WalkPages(before, snapshots, cursor, limit), snapshots)
    decreases |snapshots|
  {
    if snapshots != [] {
      var page := FetchPage(before, snapshots[0], cursor, limit);
      PageTakesFirst(before, snapshots[0], cursor, limit);
      if page.next.Some? {
        WalkShowsMatches(before, snapshots[1..], page.next, limit);
        var pages := WalkPages(before, snapshots, cursor, limit);
        assert pages[1..] == WalkPages(before, snapshots[1..], page.next, limit);
      }
    }
  }

  lemma {:induction false} FlatFrom<K>(pages: seq<seq<K>>, snapshots: seq<set<K>>, k: K) returns (i: nat)
    requires ShowsItsOwn(pages, snapshots) && k in Flatten(pages)
    ensures i < |snapshots| && k in snapshots[i]
    decreases |pages|
  {
    if k in pages[0] {
      i := 0;
    } else {
      var j := FlatFrom(pages[1..], snapshots[1..], k);
      i := j + 1;
    }
  }

  /** A key that matches in every snapshot is shown by a walk that ends. */
  lemma {:induction false} WalkSkipsNone<K(!new)>(before: (K, K) -> bool, snapshots: seq<set<K>>, cursor: Option<K>,
                                                  limit: nat, k: K)
    requires StrictTotal(before) && limit >= 1 && Ends(before, snapshots, cursor, limit)
    requires forall i | 0 <= i < |snapshots| :: k in snapshots[i]
    requires cursor.None? || before(cursor.value, k)
    ensures k in Walk(before, snapshots, cursor, limit)
    decreases |snapshots|
  {
    var page := FetchPage(before, snapshots[0], cursor, limit);
    PageTakesFirst(before, snapshots[0], cursor, limit);
    assert k in After(before, snapshots[0], cursor);
    if page.next.Some? && k !in page.items {
      WalkSkipsNone(before, snapshots[1..], page.next, limit, k);
    }
  }
}
