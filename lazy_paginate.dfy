/**
  Lazy pagination over the `user_data` table: `paginate_users` opens a
  connection and runs one `LIMIT page_size OFFSET offset` query, and
  `lazy_paginate` asks for page after page, moving the offset by
  `page_size`, until a page comes back empty or missing.

  Every call of `paginate_users` opens its own connection; whether the k-th
  connection (counting from 0) is obtained is the parameter `connects(k)`.
  The generator is modelled by the list of pages it yields.
 */
module LazyPaginate {
  import opened Tables

  /** `paginate_users`: no rows at all without a connection, else one LIMIT/OFFSET window. */
  function PaginateUsers<T>(table: seq<T>, connected: bool, pageSize: nat, offset: nat): (page: Option<seq<T>>)
    ensures page.Some? <==> connected
    ensures page.Some? ==> |page.value| <= pageSize
    ensures page.Some? ==> |page.value| == if offset >= |table| then 0 else Min(pageSize, |table| - offset)
  {
    if connected then Some(Window(table, offset, pageSize)) else None
  }

  /**
    `lazy_paginate`'s loop from `offset` on, with `done` the pages yielded
    so far: ask for the page at `offset` on the next connection, stop at a
    missing or empty page, else yield it and move on by `pageSize`.
   */
  function LazyFrom<T>(table: seq<T>, pageSize: nat, connects: nat -> bool, done: seq<seq<T>>, offset: nat): seq<seq<T>>
    decreases |table| - offset
  {
    var page := PaginateUsers(table, connects(|done|), pageSize, offset);
    if page.None? || |page.value| == 0 then done
    else LazyFrom(table, pageSize, connects, done + [page.value], offset + pageSize)
  }

  /** What `lazy_paginate` yields. */
  function LazyPages<T>(table: seq<T>, pageSize: nat, connects: nat -> bool): seq<seq<T>>
  {
    LazyFrom(table, pageSize, connects, [], 0)
  }

  /** The loop keeps yielding the table's pages in order until a connection is missing or the pages run out. */
  lemma {:induction false} LazyFromPages<T>(table: seq<T>, pageSize: nat, connects: nat -> bool, done: seq<seq<T>>, offset: nat)
    requires pageSize == 0 ==> done == [] && offset == 0
    requires pageSize > 0 ==> done + PagesFrom(table, pageSize, offset) == AllPages(table, pageSize)
    requires forall k :: 0 <= k < |done| ==> connects(k) && |done[k]| > 0
    ensures var r := LazyFrom(table, pageSize, connects, done, offset);
      && r <= AllPages(table, pageSize)
      && (forall k :: 0 <= k < |r| ==> connects(k) && |r[k]| > 0)
      && (r == AllPages(table, pageSize) || !connects(|r|))
    decreases |table| - offset
  {
    var page := PaginateUsers(table, connects(|done|), pageSize, offset);
    if page.None? || |page.value| == 0 {
      if pageSize > 0 {
        PrefixOfAppend(done, PagesFrom(table, pageSize, offset));
        if page.Some? {
          assert PagesFrom(table, pageSize, offset) == [];
          assert done + [] == done;
        }
      }
    } else {
      var rest := PagesFrom(table, pageSize, offset + pageSize);
      assert PagesFrom(table, pageSize, offset) == [page.value] + rest;
      assert (done + [page.value]) + rest == done + ([page.value] + rest);
      LazyFromPages(table, pageSize, connects, done + [page.value], offset + pageSize);
    }
  }

  /**
    `lazy_paginate` yields a prefix of the table's pages, each non-empty and
    each fetched on an obtained connection; it stops early only when a
    connection is missing.
   */
  lemma LazyPagesSpec<T>(table: seq<T>, pageSize: nat, connects: nat -> bool)
    ensures var pages := LazyPages(table, pageSize, connects);
      && pages <= AllPages(table, pageSize)
      && (forall k :: 0 <= k < |pages| ==> connects(k) && |pages[k]| > 0)
      && (pages == AllPages(table, pageSize) || !connects(|pages|))
  {
    if pageSize > 0 {
      assert [] + PagesFrom(table, pageSize, 0) == AllPages(table, pageSize);
    }
    LazyFromPages(table, pageSize, connects, [], 0);
  }

  /** `lazy_paginate`'s generator loop. */
  method Paginate<T>(table: seq<T>, pageSize: nat, connects: nat -> bool) returns (pages: seq<seq<T>>)
    ensures pages == LazyPages(table, pageSize, connects)
  {
    pages := [];
    var offset: nat := 0;
    while true
      invariant LazyFrom(table, pageSize, connects, pages, offset) == LazyPages(table, pageSize, connects)
      decreases |table| - offset
    {
      var page := PaginateUsers(table, connects(|pages|), pageSize, offset);
      if page.None? || |page.value| == 0 {
        break;
      }
      pages := pages + [page.value];
      offset := offset + pageSize;
    }
  }

  /** With every connection obtained, the pages put back together are the whole table. */
  lemma PaginateCoversTable<T>(table: seq<T>, pageSize: nat, pages: seq<seq<T>>)
    requires pageSize > 0 && pages == AllPages(table, pageSize)
    ensures Flatten(pages) == table
    ensures forall k :: 0 <= k < |pages| ==> 0 < |pages[k]| <= pageSize
    ensures forall k :: 0 <= k < |pages| ==> pages[k] == Window(table, k * pageSize, pageSize)
  {
    AllPagesCover(table, pageSize);
    PagesBounded(table, pageSize, 0);
    forall k | 0 <= k < |pages|
      ensures pages[k] == Window(table, k * pageSize, pageSize)
    {
      PageAt(table, pageSize, 0, k);
    }
  }
}
