/**
  Tables as sequences of rows, and the two ways the generator scripts read
  them a piece at a time: a `LIMIT size OFFSET offset` query, and a cursor
  that hands out `fetchmany(size)` batches until it returns an empty one.
 */
module Tables {

  datatype Option<T> = None | Some(value: T)

  function Min(a: int, b: int): int
  {
    if a <= b then a else b
  }

  /** The rows that `LIMIT size OFFSET offset` selects from `table`. */
  function Window<T>(table: seq<T>, offset: nat, size: nat): (page: seq<T>)
    ensures |page| == if offset >= |table| then 0 else Min(size, |table| - offset)
    ensures forall i :: 0 <= i < |page| ==> page[i] == table[offset + i]
  {
    if offset >= |table| then [] else table[offset..Min(offset + size, |table|)]
  }

  /**
    The non-empty pages of `size` rows that a reader starting at row `offset`
    obtains before the first empty page.
   */
  function PagesFrom<T>(table: seq<T>, size: nat, offset: nat): seq<seq<T>>
    requires size > 0
    decreases |table| - offset
  {
    if offset >= |table| then []
    else [Window(table, offset, size)] + PagesFrom(table, size, offset + size)
  }

  /** All pages of a table, read from its first row; no pages when `size` is 0. */
  function AllPages<T>(table: seq<T>, size: nat): seq<seq<T>>
  {
    if size == 0 then [] else PagesFrom(table, size, 0)
  }

  /** The rows of consecutive pages, in order. */
  function Flatten<T>(pages: seq<seq<T>>): seq<T>
  {
    if pages == [] then [] else pages[0] + Flatten(pages[1..])
  }

  lemma {:induction false} FlattenAppend<T>(pages: seq<seq<T>>, page: seq<T>)
    ensures Flatten(pages + [page]) == Flatten(pages) + page
  {
    if pages == [] {
      assert [page][1..] == [];
    } else {
      assert (pages + [page])[1..] == pages[1..] + [page];
      FlattenAppend(pages[1..], page);
    }
  }

  /** The rows of the first `i + 1` pages: those of the first `i`, then page `i`. */
  lemma FlattenPrefixStep<T>(pages: seq<seq<T>>, i: nat)
    requires i < |pages|
    ensures Flatten(pages[..i + 1]) == Flatten(pages[..i]) + pages[i]
  {
    assert pages[..i + 1] == pages[..i] + [pages[i]];
    FlattenAppend(pages[..i], pages[i]);
  }

  /** Reading page after page from row `offset` yields exactly the rest of the table. */
  lemma {:induction false} FlattenPagesFrom<T>(table: seq<T>, size: nat, offset: nat)
    requires size > 0 && offset <= |table|
    ensures Flatten(PagesFrom(table, size, offset)) == table[offset..]
    decreases |table| - offset
  {
    if offset < |table| {
      var next := offset + size;
      if next <= |table| {
        FlattenPagesFrom(table, size, next);
        assert table[offset..] == table[offset..next] + table[next..];
      } else {
        assert PagesFrom(table, size, next) == [];
      }
    }
  }

  /** The concatenation of all pages is the whole table, in order. */
  lemma AllPagesCover<T>(table: seq<T>, size: nat)
    requires size > 0
    ensures Flatten(AllPages(table, size)) == table
  {
    FlattenPagesFrom(table, size, 0);
  }

  /** Every page is non-empty and holds at most `size` rows. */
  lemma {:induction false} PagesBounded<T>(table: seq<T>, size: nat, offset: nat)
    requires size > 0
    ensures forall k :: 0 <= k < |PagesFrom(table, size, offset)| ==>
              0 < |PagesFrom(table, size, offset)[k]| <= size
    ensures |PagesFrom(table, size, offset)| <= |table| - offset || offset >= |table|
    decreases |table| - offset
  {
    if offset < |table| {
      PagesBounded(table, size, offset + size);
    }
  }

  /** Page `k` read from row `offset` starts at row `offset + k * size`. */
  lemma PageAt<T>(table: seq<T>, size: nat, offset: nat, k: nat)
    requires size > 0 && k < |PagesFrom(table, size, offset)|
    ensures PagesFrom(table, size, offset)[k] == Window(table, offset + k * size, size)
  {
    PageAtStep(table, size, offset, k);
    StepStart(size, offset, k);
  }

  /** The row where page `k` starts, counted page by page. */
  function Step(size: nat, offset: nat, k: nat): nat
    decreases k
  {
    if k == 0 then offset else Step(size, offset + size, k - 1)
  }

  lemma {:induction false} StepStart(size: nat, offset: nat, k: nat)
    ensures Step(size, offset, k) == offset + k * size
    decreases k
  {
    if k > 0 {
      StepStart(size, offset + size, k - 1);
      MulStep(k, size);
    }
  }

  lemma {:induction false} PageAtStep<T>(table: seq<T>, size: nat, offset: nat, k: nat)
    requires size > 0 && k < |PagesFrom(table, size, offset)|
    ensures PagesFrom(table, size, offset)[k] == Window(table, Step(size, offset, k), size)
    decreases k
  {
    if k > 0 {
      var rest := PagesFrom(table, size, offset + size);
      assert PagesFrom(table, size, offset) == [Window(table, offset, size)] + rest;
      assert PagesFrom(table, size, offset)[k] == rest[k - 1];
      PageAtStep(table, size, offset + size, k - 1);
      assert Step(size, offset, k) == Step(size, offset + size, k - 1);
    } else {
      assert PagesFrom(table, size, offset)[0] == Window(table, offset, size);
      assert Step(size, offset, 0) == offset;
    }
  }

  /**
    A page-by-page scan as a reader runs it: `done` holds the pages read so
    far; the window at `offset` is read next, and the scan stops at the
    first empty one.
   */
  function ScanFrom<T>(table: seq<T>, size: nat, done: seq<seq<T>>, offset: nat): seq<seq<T>>
    decreases |table| - offset
  {
    var page := Window(table, offset, size);
    if |page| == 0 then done else ScanFrom(table, size, done + [page], offset + size)
  }

  /** The scan from `offset` appends exactly the pages from `offset` to what was read before. */
  lemma {:induction false} ScanPages<T>(table: seq<T>, size: nat, done: seq<seq<T>>, offset: nat)
    requires size > 0
    ensures ScanFrom(table, size, done, offset) == done + PagesFrom(table, size, offset)
    decreases |table| - offset
  {
    var page := Window(table, offset, size);
    if |page| == 0 {
      assert PagesFrom(table, size, offset) == [];
      assert done + [] == done;
    } else {
      var rest := PagesFrom(table, size, offset + size);
      ScanPages(table, size, done + [page], offset + size);
      assert PagesFrom(table, size, offset) == [page] + rest;
      assert (done + [page]) + rest == done + ([page] + rest);
    }
  }

  /** A whole scan from the first row reads all pages (none when `size` is 0). */
  lemma ScanAll<T>(table: seq<T>, size: nat)
    ensures ScanFrom(table, size, [], 0) == AllPages(table, size)
  {
    if size > 0 {
      ScanPages(table, size, [], 0);
      assert [] + PagesFrom(table, size, 0) == PagesFrom(table, size, 0);
    }
  }

  /**
    A cursor that moves past the rows of a non-empty page, rather than by
    `size`, scans the same: after a short page both positions are past the
    end of the table.
   */
  lemma ScanAfter<T>(table: seq<T>, size: nat, done: seq<seq<T>>, offset: nat)
    requires |Window(table, offset, size)| > 0
    ensures ScanFrom(table, size, done, offset + size) == ScanFrom(table, size, done, offset + |Window(table, offset, size)|)
  {
    var page := Window(table, offset, size);
    if |page| < size {
      assert offset + |page| == |table|;
      assert |Window(table, offset + size, size)| == 0;
      assert |Window(table, offset + |page|, size)| == 0;
    }
  }

  lemma PrefixOfAppend<T>(a: seq<T>, b: seq<T>)
    ensures a <= a + b
  {
    assert (a + b)[..|a|] == a;
  }

  lemma MulStep(k: nat, size: nat)
    requires k > 0
    ensures size + (k - 1) * size == k * size
  {
  }
}
