/**
 * The paged REST iterator (Provider/Rest/Client/AbstractRestIterator.php).
 * A cursor over the rows of the current page that loads the next page
 * lazily when the row after the current one is not set. The concrete
 * subclass's `loadPage`, `getRowsFromPageData` and
 * `getTotalCountFromPageData` are given together as the sequence of page
 * responses the client returns, consumed in order; asking past its end
 * yields no data.
 */
module RestClient {

  import opened Wrappers
  import opened Php

  /** One answer of `loadPage`: falsy page data, or the rows and total count extracted from it. */
  datatype Page = NoData | Data(rows: seq<Value>, totalCount: Value)

  /** The iterator's fields; `loads` counts the pages asked for so far. */
  datatype Cursor = Cursor(
    firstLoaded: bool,
    rows: seq<Value>,
    totalCount: Value,
    offset: Option<int>,   // None: PHP null
    position: int,
    current: Value,
    loads: nat)

  /** The field defaults of a new iterator. */
  function Initial(): Cursor
  {
    Cursor(false, [], Null, Some(-1), -1, Null, 0)
  }

  /** The i-th page the client answers. */
  function PageAt(source: seq<Page>, i: nat): Page
  {
    if i < |source| then source[i] else NoData
  }

  /** `isset($this->rows[$offset])`: the row exists and is not null. */
  predicate IsSet(rows: seq<Value>, offset: int)
  {
    0 <= offset < |rows| && rows[offset] != Null
  }

  /** PHP's `++` on the offset: null becomes 1. */
  function Increment(offset: Option<int>): int
  {
    match offset
    case None => 1
    case Some(k) => k + 1
  }

  /**
   * loadNextPage: the new cursor and whether a page was loaded. It always
   * marks the first page as loaded and drops the old rows; a page with data
   * replaces rows and total count and restarts the offset at 0, falsy data
   * leaves the offset null and keeps the old total count.
   */
  function AfterLoadNextPage(source: seq<Page>, c: Cursor): (r: (Cursor, bool))
    ensures r.0.firstLoaded && r.0.loads == c.loads + 1
    ensures r.0.position == c.position && r.0.current == c.current
    ensures r.1 <==> |r.0.rows| > 0 && Truthy(r.0.totalCount)
    ensures match PageAt(source, c.loads)
      case NoData => r.0.rows == [] && r.0.offset == None && r.0.totalCount == c.totalCount
      case Data(rows, total) => r.0.rows == rows && r.0.offset == Some(0) && r.0.totalCount == total
  {
    var cleared := c.(firstLoaded := true, rows := [], offset := None, loads := c.loads + 1);
    var loaded :=
      match PageAt(source, c.loads)
      case NoData => cleared
      case Data(rows, total) => cleared.(rows := rows, totalCount := total, offset := Some(0));
    (loaded, |loaded.rows| > 0 && Truthy(loaded.totalCount))
  }

  /**
   * next: advance the offset; serve the next row of the page when it is set,
   * otherwise load a page and serve its first row, or null when loading
   * failed. The position always advances by one.
   */
  function AfterNext(source: seq<Page>, c: Cursor): (r: Cursor)
    ensures r.position == c.position + 1
    ensures IsSet(c.rows, Increment(c.offset)) ==>
      && r == c.(offset := Some(Increment(c.offset)), current := c.rows[Increment(c.offset)], position := c.position + 1)
    ensures !IsSet(c.rows, Increment(c.offset)) ==>
      var (loaded, ok) := AfterLoadNextPage(source, c.(offset := Some(Increment(c.offset))));
      && r.firstLoaded && r.loads == c.loads + 1
      && r.rows == loaded.rows && r.offset == loaded.offset && r.totalCount == loaded.totalCount
      && r.current == if ok then r.rows[0] else Null
  {
    var offset := Increment(c.offset);
    var advanced := c.(offset := Some(offset));
    if IsSet(advanced.rows, offset) then
      advanced.(current := advanced.rows[offset], position := c.position + 1)
    else
      var (loaded, ok) := AfterLoadNextPage(source, advanced);
      if !ok then loaded.(current := Null, position := c.position + 1)
      else loaded.(current := loaded.rows[0], position := c.position + 1)
  }

  /** rewind: reset every field except the client, then one next. */
  function AfterRewind(source: seq<Page>, c: Cursor): Cursor
  {
    AfterNext(source, c.(firstLoaded := false, totalCount := Null, offset := Some(-1), position := -1,
                    current := Null, rows := []))
  }

  /** `$this->firstLoaded || $this->rewind()` as valid() and count() do it. */
  function EnsureLoaded(source: seq<Page>, c: Cursor): Cursor
  {
    if c.firstLoaded then c else AfterRewind(source, c)
  }

  /** k calls of next. */
  function NextN(source: seq<Page>, c: Cursor, k: nat): Cursor
  {
    if k == 0 then c else AfterNext(source, NextN(source, c, k - 1))
  }

  /**
   * Right after a rewind the key is 0, the first page has been asked for,
   * and nothing of the earlier cursor state survives but the client's
   * progress.
   */
  lemma RewindStartsOver(source: seq<Page>, c: Cursor, d: Cursor)
    requires c.loads == d.loads
    ensures AfterRewind(source, c).position == 0
    ensures AfterRewind(source, c).firstLoaded && AfterRewind(source, c).loads == c.loads + 1
    ensures AfterRewind(source, c) == AfterRewind(source, d)
  {
  }

  /**
   * After a rewind the iterator is valid exactly when the page loaded has
   * rows, a truthy total count and a set first row, which is then current.
   */
  lemma RewindValidIff(source: seq<Page>, c: Cursor)
    ensures var r := AfterRewind(source, c);
      r.current != Null <==>
        PageAt(source, c.loads).Data? && |PageAt(source, c.loads).rows| > 0
        && Truthy(PageAt(source, c.loads).totalCount) && PageAt(source, c.loads).rows[0] != Null
    ensures var r := AfterRewind(source, c);
      r.current != Null ==> r.current == PageAt(source, c.loads).rows[0] && r.totalCount == PageAt(source, c.loads).totalCount
  {
  }

  /** Every next advances the key by one, found item or not. */
  lemma {:induction false} NextNAdvancesKey(source: seq<Page>, c: Cursor, k: nat)
    ensures NextN(source, c, k).position == c.position + k
    decreases k
  {
    if k > 0 {
      NextNAdvancesKey(source, c, k - 1);
    }
  }

  /**
   * Inside a page whose rows are all set, k calls of next serve the next k
   * rows in order without asking the client for another page.
   */
  lemma {:induction false} NextNServesPage(source: seq<Page>, c: Cursor, j: int, k: nat)
    requires c.offset == Some(j) && -1 <= j && j + k < |c.rows|
    requires forall m :: j < m <= j + k ==> c.rows[m] != Null
    ensures var r := NextN(source, c, k);
      && r.rows == c.rows && r.loads == c.loads && r.offset == Some(j + k)
      && r.position == c.position + k
      && (k > 0 ==> r.current == c.rows[j + k])
    decreases k
  {
    if k > 0 {
      NextNServesPage(source, c, j, k - 1);
      var before := NextN(source, c, k - 1);
      assert IsSet(before.rows, Increment(before.offset));
    }
  }

  /** The iterator object. */
  class RestIterator {
    /** What the client answers to successive page requests. */
    const source: seq<Page>
    var firstLoaded: bool
    var rows: seq<Value>
    var totalCount: Value
    var offset: Option<int>
    var position: int
    var current: Value
    var loads: nat

    function State(): Cursor
      reads this
    {
      Cursor(firstLoaded, rows, totalCount, offset, position, current, loads)
    }

    constructor (pages: seq<Page>)
      ensures source == pages && State() == Initial()
    {
      source := pages;
      firstLoaded := false;
      rows := [];
      totalCount := Null;
      offset := Some(-1);
      position := -1;
      current := Null;
      loads := 0;
    }

    /** current(): no side effect. */
    method Current() returns (v: Value)
      ensures v == current
    {
      v := current;
    }

    /** key(): no side effect. */
    method Key() returns (k: int)
      ensures k == position
    {
      k := position;
    }

    method LoadNextPage() returns (ok: bool)
      modifies this
      ensures (State(), ok) == AfterLoadNextPage(source, old(State()))
    {
      var page := PageAt(source, loads);
      firstLoaded := true;
      rows := [];
      offset := None;
      loads := loads + 1;
      if page.Data? {
        rows := page.rows;
        totalCount := page.totalCount;
        offset := Some(0);
      }
      ok := |rows| > 0 && Truthy(totalCount);
    }

    method Next()
      modifies this
      ensures State() == AfterNext(source, old(State()))
      ensures position == old(position) + 1
    {
      var k := Increment(offset);
      offset := Some(k);
      var served := IsSet(rows, k);
      if !served {
        var ok := LoadNextPage();
        if !ok {
          current := Null;
        } else {
          current := rows[0];
        }
      } else {
        current := rows[k];
      }
      position := position + 1;
    }

    method Rewind()
      modifies this
      ensures State() == AfterRewind(source, old(State()))
      ensures position == 0 && firstLoaded
    {
      firstLoaded := false;
      totalCount := Null;
      offset := Some(-1);
      position := -1;
      current := Null;
      rows := [];
      Next();
    }

    /** valid(): rewinds only when no page has been loaded yet. */
    method Valid() returns (b: bool)
      modifies this
      ensures State() == EnsureLoaded(source, old(State()))
      ensures old(firstLoaded) ==> State() == old(State())
      ensures b <==> current != Null
    {
      if !firstLoaded {
        Rewind();
      }
      b := current != Null;
    }

    /** count(): rewinds only when no page has been loaded yet. */
    method Count() returns (n: Value)
      modifies this
      ensures State() == EnsureLoaded(source, old(State()))
      ensures old(firstLoaded) ==> State() == old(State())
      ensures n == totalCount
    {
      if !firstLoaded {
        Rewind();
      }
      n := totalCount;
    }
  }
}
