/**
 * The room listing page of the bundled frontend: the loaded rooms are shown
 * twelve to a page, and below them a row of page buttons shows at most five
 * consecutive page numbers around the current page, with buttons for the
 * first and last page, ellipses where pages are skipped, and previous/next
 * arrows.
 *
 * The page's globals (the room list and the current page) and the two
 * containers it writes (the card grid and the pagination row) are the
 * fields of RoomPager; what is rendered is kept as values (the rooms shown
 * and the list of pagination items) rather than as HTML.
 */
module RoomPages {
  import opened Wrappers

  const PAGE_SIZE: nat := 12
  const MAX_DISPLAY: int := 5

  function Min(a: int, b: int): int { if a <= b then a else b }
  function Max(a: int, b: int): int { if a >= b then a else b }

  /** Math.ceil(n / 12): the fewest pages of twelve that hold n rooms. */
  function TotalPages(n: nat): (t: nat)
    ensures n == 0 <==> t == 0
    ensures n > 0 ==> (t - 1) * PAGE_SIZE < n <= t * PAGE_SIZE
  {
    (n + PAGE_SIZE - 1) / PAGE_SIZE
  }

  /** The rooms on page p (1-based): those at positions [(p-1)*12, p*12), cut at the end of the list. */
  function PageOf<T>(rooms: seq<T>, p: int): (r: seq<T>)
    requires 1 <= p <= TotalPages(|rooms|)
    ensures 0 < |r| <= PAGE_SIZE
    ensures |r| == Min(PAGE_SIZE, |rooms| - (p - 1) * PAGE_SIZE)
    ensures forall i :: 0 <= i < |r| ==> r[i] == rooms[(p - 1) * PAGE_SIZE + i]
  {
    rooms[(p - 1) * PAGE_SIZE .. Min(p * PAGE_SIZE, |rooms|)]
  }

  /** Pages 1..k of the list, one after the other. */
  function PagesUpTo<T>(rooms: seq<T>, k: nat): seq<T>
    requires k <= TotalPages(|rooms|)
  {
    if k == 0 then [] else PagesUpTo(rooms, k - 1) + PageOf(rooms, k)
  }

  /** The first k pages are exactly the first min(12k, n) rooms. */
  lemma {:induction false} PagesUpToPrefix<T>(rooms: seq<T>, k: nat)
    requires k <= TotalPages(|rooms|)
    ensures PagesUpTo(rooms, k) == rooms[..Min(k * PAGE_SIZE, |rooms|)]
  {
    if k > 0 {
      PagesUpToPrefix(rooms, k - 1);
      assert (k - 1) * PAGE_SIZE < |rooms|;
      assert PageOf(rooms, k) == rooms[(k - 1) * PAGE_SIZE .. Min(k * PAGE_SIZE, |rooms|)];
      assert rooms[..(k - 1) * PAGE_SIZE] + rooms[(k - 1) * PAGE_SIZE .. Min(k * PAGE_SIZE, |rooms|)]
          == rooms[..Min(k * PAGE_SIZE, |rooms|)];
    }
  }

  /** Paging loses and repeats nothing: the pages in order are the whole list. */
  lemma PagesCoverRooms<T>(rooms: seq<T>)
    ensures PagesUpTo(rooms, TotalPages(|rooms|)) == rooms
  {
    PagesUpToPrefix(rooms, TotalPages(|rooms|));
    assert rooms[..|rooms|] == rooms;
  }

  /**
   * The window of page numbers: start at current-2 (at least 1), end four
   * further on (at most total), then pull start back so that five pages show
   * when there are five.
   */
  function Window(current: int, total: int): (int, int)
  {
    var start0 := Max(1, current - 2);
    var end := Min(total, start0 + MAX_DISPLAY - 1);
    (Max(1, end - MAX_DISPLAY + 1), end)
  }

  /** The window lies within the pages, has min(5, total) pages, and holds the current page. */
  lemma WindowBounds(current: int, total: int)
    requires total >= 1
    ensures var (s, e) := Window(current, total);
      && 1 <= s <= e <= total
      && e - s + 1 == Min(MAX_DISPLAY, total)
      && (1 <= current <= total ==> s <= current <= e)
  {
  }

  /** One element of the pagination row. Every button carries the page it leads to. */
  datatype PageItem =
    | Prev(target: int)
    | Number(target: int, active: bool)
    | Ellipsis
    | Next(target: int)

  /** The numbered buttons s..e, the current one marked active. */
  function Run(s: int, e: int, current: int): (r: seq<PageItem>)
    ensures |r| == if s <= e then e - s + 1 else 0
    ensures forall i :: 0 <= i < |r| ==> r[i] == Number(s + i, s + i == current)
    decreases e - s
  {
    if s > e then [] else Run(s, e - 1, current) + [Number(e, e == current)]
  }

  /** The button for page 1, and an ellipsis after it when page 2 is skipped. */
  function Head(s: int): seq<PageItem>
  {
    if s > 1 then [Number(1, false)] + (if s > 2 then [Ellipsis] else []) else []
  }

  /** An ellipsis when page total-1 is skipped, and the button for the last page. */
  function Tail(e: int, total: int): seq<PageItem>
  {
    if e < total then (if e < total - 1 then [Ellipsis] else []) + [Number(total, false)] else []
  }

  /** The numbered part of the row: first page, window, last page, with the ellipses. */
  function Middle(current: int, total: int): seq<PageItem>
  {
    var w := Window(current, total);
    Head(w.0) + Run(w.0, w.1, current) + Tail(w.1, total)
  }

  /** The whole pagination row: empty for a single page, otherwise arrows around Middle. */
  function Pagination(current: int, total: int): seq<PageItem>
  {
    if total <= 1 then []
    else
      (if current > 1 then [Prev(current - 1)] else [])
      + Middle(current, total)
      + (if current < total then [Next(current + 1)] else [])
  }

  /**
   * The numbered part starts with page 1 and ends with the last page; two
   * numbers next to each other are consecutive pages, and an ellipsis stands
   * between two numbers exactly where pages are skipped.
   */
  lemma MiddleShape(current: int, total: int)
    requires total >= 2 && 1 <= current <= total
    ensures var m := Middle(current, total);
      && |m| >= 2
      && m[0].Number? && m[0].target == 1
      && m[|m| - 1].Number? && m[|m| - 1].target == total
      && (forall i :: 0 <= i < |m| - 1 && m[i].Number? && m[i + 1].Number? ==> m[i + 1].target == m[i].target + 1)
      && (forall i :: 0 <= i < |m| && m[i].Ellipsis? ==>
            0 < i < |m| - 1 && m[i - 1].Number? && m[i + 1].Number? && m[i + 1].target > m[i - 1].target + 1)
  {
    var (s, e) := Window(current, total);
    WindowBounds(current, total);
    var h, r, t := Head(s), Run(s, e, current), Tail(e, total);
    var m := Middle(current, total);
    assert m == h + r + t;
    assert |r| == e - s + 1 >= 2;
    forall i | 0 <= i < |m| - 1 && m[i].Number? && m[i + 1].Number?
      ensures m[i + 1].target == m[i].target + 1
    {
      if |h| <= i && i + 1 < |h| + |r| {
        assert m[i] == r[i - |h|] && m[i + 1] == r[i + 1 - |h|];
      }
    }
    forall i | 0 <= i < |m| && m[i].Ellipsis?
      ensures 0 < i < |m| - 1 && m[i - 1].Number? && m[i + 1].Number? && m[i + 1].target > m[i - 1].target + 1
    {
      if i < |h| {
        assert i == 1 && s > 2;
        assert m[i + 1] == r[0];
      } else {
        assert i >= |h| + |r|;
        assert e < total - 1 && i == |h| + |r|;
        assert m[i - 1] == r[|r| - 1];
      }
    }
  }

  /** Every page button of the row leads to a page that exists. */
  lemma ButtonsInRange(current: int, total: int)
    requires 1 <= current <= total
    ensures var items := Pagination(current, total);
      forall i :: 0 <= i < |items| && !items[i].Ellipsis? ==> 1 <= items[i].target <= total
  {
    if total > 1 {
      var (s, e) := Window(current, total);
      WindowBounds(current, total);
      var items := Pagination(current, total);
      var lead := if current > 1 then [Prev(current - 1)] else [];
      var m := Middle(current, total);
      assert items == lead + m + (if current < total then [Next(current + 1)] else []);
      forall i | 0 <= i < |m| && !m[i].Ellipsis?
        ensures 1 <= m[i].target <= total
      {
        var h, r := Head(s), Run(s, e, current);
        assert m == h + r + Tail(e, total);
        if |h| <= i < |h| + |r| {
          assert m[i] == r[i - |h|];
        }
      }
      forall i | 0 <= i < |items| && !items[i].Ellipsis?
        ensures 1 <= items[i].target <= total
      {
        if |lead| <= i < |lead| + |m| {
          assert items[i] == m[i - |lead|];
        }
      }
    }
  }

  /**
   * The arrows: a previous arrow, to current-1, exactly when not on the first
   * page, and a next arrow, to current+1, exactly when not on the last; the
   * only active button is the current page's, and it is shown.
   */
  lemma ArrowsAndActive(current: int, total: int)
    requires 2 <= total && 1 <= current <= total
    ensures var items := Pagination(current, total);
      && ((exists i :: 0 <= i < |items| && items[i].Prev?) <==> current > 1)
      && ((exists i :: 0 <= i < |items| && items[i].Next?) <==> current < total)
      && (forall i :: 0 <= i < |items| && items[i].Prev? ==> items[i].target == current - 1)
      && (forall i :: 0 <= i < |items| && items[i].Next? ==> items[i].target == current + 1)
      && (forall i :: 0 <= i < |items| && items[i].Number? && items[i].active ==> items[i].target == current)
      && (exists i :: 0 <= i < |items| && items[i] == Number(current, true))
  {
    var (s, e) := Window(current, total);
    WindowBounds(current, total);
    var items := Pagination(current, total);
    var lead := if current > 1 then [Prev(current - 1)] else [];
    var trail := if current < total then [Next(current + 1)] else [];
    var h, r, t := Head(s), Run(s, e, current), Tail(e, total);
    assert items == lead + h + r + t + trail;
    assert forall i :: 0 <= i < |h| ==> h[i].Ellipsis? || h[i] == Number(1, false);
    assert forall i :: 0 <= i < |t| ==> t[i].Ellipsis? || t[i] == Number(total, false);
    forall i | 0 <= i < |items|
      ensures !items[i].Prev? || (i == 0 && current > 1 && items[i].target == current - 1)
      ensures !items[i].Next? || (i == |items| - 1 && current < total && items[i].target == current + 1)
      ensures items[i].Number? && items[i].active ==> items[i].target == current
    {
      if i < |lead| {
      } else if i < |lead| + |h| {
        assert items[i] == h[i - |lead|];
      } else if i < |lead| + |h| + |r| {
        assert items[i] == r[i - |lead| - |h|];
      } else if i < |lead| + |h| + |r| + |t| {
        assert items[i] == t[i - |lead| - |h| - |r|];
      }
    }
    if current > 1 {
      assert items[0].Prev?;
    }
    if current < total {
      assert items[|items| - 1].Next?;
    }
    assert items[|lead| + |h| + (current - s)] == r[current - s];
  }

  /** Appending four pieces does not depend on the grouping. */
  lemma Regroup<X>(a: seq<X>, b: seq<X>, c: seq<X>, d: seq<X>)
    ensures a + b + c + d == a + (b + c + d)
  {
  }

  /** The card grid: the "no rooms" message, or the cards of the rooms shown. */
  datatype Grid<T> = NoRooms | Cards(rooms: seq<T>)

  /** The room listing page's state. */
  class RoomPager<T> {
    var allRooms: seq<T>
    var currentPage: int
    var grid: Grid<T>
    var pagination: seq<PageItem>

    /** The page number never drops below 1. */
    predicate Valid()
      reads this
    {
      1 <= currentPage
    }

    /** What is on screen is the render of the current state. */
    ghost predicate Rendered()
      reads this
    {
      && Valid()
      && (allRooms == [] ==> grid == NoRooms && pagination == [])
      && (allRooms != [] ==>
            && currentPage <= TotalPages(|allRooms|)
            && grid == Cards(PageOf(allRooms, currentPage))
            && pagination == Pagination(currentPage, TotalPages(|allRooms|)))
    }

    /** The globals as the script starts: no rooms, page 1. */
    constructor ()
      ensures Valid() && allRooms == [] && currentPage == 1
    {
      allRooms := [];
      currentPage := 1;
      grid := NoRooms;
      pagination := [];
    }

    /** The rooms fetched: a non-array answer counts as no rooms; back to page 1, then render. */
    method Load(rooms: Option<seq<T>>)
      modifies this
      ensures Rendered()
      ensures allRooms == (if rooms.Some? then rooms.value else []) && currentPage == 1
    {
      allRooms := if rooms.Some? then rooms.value else [];
      currentPage := 1;
      RenderCurrentPage();
    }

    /**
     * renderCurrentPage: no rooms shows the message and clears the row (the
     * page number is left alone); otherwise the page number is pulled down to
     * the last page, that page's rooms are shown and the row is rebuilt.
     */
    method RenderCurrentPage()
      requires Valid()
      modifies this
      ensures Rendered()
      ensures allRooms == old(allRooms)
      ensures old(allRooms) == [] ==> currentPage == old(currentPage)
      ensures old(allRooms) != [] ==> currentPage == Min(old(currentPage), TotalPages(|allRooms|))
    {
      if |allRooms| == 0 {
        grid := NoRooms;
        pagination := [];
        return;
      }
      var totalPages := (|allRooms| + PAGE_SIZE - 1) / PAGE_SIZE;
      if currentPage > totalPages {
        currentPage := totalPages;
      }
      var start := (currentPage - 1) * PAGE_SIZE;
      var end := start + PAGE_SIZE;
      grid := Cards(allRooms[start .. Min(end, |allRooms|)]);
      pagination := RenderPagination(totalPages);
    }

    /** renderPagination: builds the row item by item, the numbered window in a loop. */
    method RenderPagination(totalPages: int) returns (items: seq<PageItem>)
      ensures items == Pagination(currentPage, totalPages)
    {
      if totalPages <= 1 {
        return [];
      }
      items := [];
      if currentPage > 1 {
        items := items + [Prev(currentPage - 1)];
      }
      ghost var lead := items;
      var start := Max(1, currentPage - 2);
      var end := Min(totalPages, start + MAX_DISPLAY - 1);
      start := Max(1, end - MAX_DISPLAY + 1);
      assert (start, end) == Window(currentPage, totalPages);
      if start > 1 {
        items := items + [Number(1, false)];
        if start > 2 {
          items := items + [Ellipsis];
        }
      }
      assert items == lead + Head(start);
      var run := NumberButtons(start, end);
      items := items + run;
      assert items == lead + Head(start) + Run(start, end, currentPage);
      ghost var middle := items;
      if end < totalPages {
        if end < totalPages - 1 {
          items := items + [Ellipsis];
        }
        items := items + [Number(totalPages, false)];
      }
      assert items == middle + Tail(end, totalPages);
      assert Middle(currentPage, totalPages) == Head(start) + Run(start, end, currentPage) + Tail(end, totalPages);
      Regroup(lead, Head(start), Run(start, end, currentPage), Tail(end, totalPages));
      ghost var numbered := items;
      if currentPage < totalPages {
        items := items + [Next(currentPage + 1)];
      }
      assert lead == (if currentPage > 1 then [Prev(currentPage - 1)] else []);
      assert items == numbered + (if currentPage < totalPages then [Next(currentPage + 1)] else []);
    }

    /** The loop of renderPagination that emits the numbered buttons start..end. */
    method NumberButtons(start: int, end: int) returns (run: seq<PageItem>)
      requires start <= end + 1
      ensures run == Run(start, end, currentPage)
    {
      run := [];
      var p := start;
      while p <= end
        invariant start <= p <= end + 1
        invariant run == Run(start, p - 1, currentPage)
        decreases end - p
      {
        run := run + [Number(p, p == currentPage)];
        p := p + 1;
      }
    }

    /**
     * A click on the row's button i: the page it names becomes current and
     * the page is rendered again, unless it already is the current page.
     */
    method Click(i: nat)
      requires Rendered() && i < |pagination| && !pagination[i].Ellipsis?
      modifies this
      ensures Rendered()
      ensures allRooms == old(allRooms)
      ensures currentPage == old(pagination[i].target)
      ensures old(pagination[i].target) == old(currentPage) ==> unchanged(this)
    {
      ButtonsInRange(currentPage, TotalPages(|allRooms|));
      var page := pagination[i].target;
      if page != currentPage {
        currentPage := page;
        RenderCurrentPage();
      }
    }
  }
}
