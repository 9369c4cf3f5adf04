/**
 * The page-button strip of the shared pagination component: a window of at
 * most five page numbers around the current page, a "1" button and a leading
 * ellipsis before it, a trailing ellipsis and a last-page button after it,
 * and the previous/next arrows.
 */
module Pagination {
  import opened Wrappers

  /** One element of the strip, in display order. */
  datatype Item =
    | FirstButton                            // "1", jumps to page 1
    | LeadingDots                            // "..." after the first button
    | PageButton(n: int, highlighted: bool)  // a window page; highlighted when it is the current page
    | TrailingDots                           // "..." before the last button
    | LastButton(n: int)                     // the last page number, jumps there

  function Max(a: int, b: int): int { if a < b then b else a }
  function Min(a: int, b: int): int { if a < b then a else b }

  /** First and last page of the window, after pulling the start back when the end was clipped. */
  function Window(currentPage: int, totalPages: int): (int, int)
  {
    var start := Max(1, currentPage - 2);
    var end := Min(totalPages, start + 4);
    if end - start < 4 && start > 1 then (Max(1, end - 4), end) else (start, end)
  }

  /** Buttons for pages lo..hi, the current one highlighted. */
  function PageItems(lo: int, hi: int, currentPage: int): (items: seq<Item>)
    ensures |items| == if hi < lo then 0 else hi - lo + 1
  {
    seq(if hi < lo then 0 else hi - lo + 1, k => PageButton(lo + k, lo + k == currentPage))
  }

  /** What goes before the window. */
  function Head(start: int): seq<Item> {
    if start > 1 then (if start > 2 then [FirstButton, LeadingDots] else [FirstButton]) else []
  }

  /** What goes after the window. */
  function Tail(end: int, totalPages: int): seq<Item> {
    if end < totalPages then (if end < totalPages - 1 then [TrailingDots] else []) + [LastButton(totalPages)]
    else []
  }

  /** The strip the component renders, as one value. */
  function Buttons(currentPage: int, totalPages: int): seq<Item> {
    var (start, end) := Window(currentPage, totalPages);
    Head(start) + PageItems(start, end, currentPage) + Tail(end, totalPages)
  }

  /** Builds the strip item by item, as the component's render helper does. */
  method RenderPaginationButtons(currentPage: int, totalPages: int) returns (pages: seq<Item>)
    ensures pages == Buttons(currentPage, totalPages)
  {
    pages := [];
    var startPage := Max(1, currentPage - 2);
    var endPage := Min(totalPages, startPage + 4);
    if endPage - startPage < 4 && startPage > 1 {
      startPage := Max(1, endPage - 4);
    }
    assert (startPage, endPage) == Window(currentPage, totalPages);
    if startPage > 1 {
      pages := pages + [FirstButton];
      if startPage > 2 {
        pages := pages + [LeadingDots];
      }
    }
    assert pages == Head(startPage);
    assert pages == Head(startPage) + PageItems(startPage, startPage - 1, currentPage);
    var i := startPage;
    while i <= endPage
      invariant startPage <= i && (i <= endPage + 1 || i == startPage)
      invariant pages == Head(startPage) + PageItems(startPage, i - 1, currentPage)
    {
      PageItemsSnoc(startPage, i - 1, currentPage);
      SeqAssoc(Head(startPage), PageItems(startPage, i - 1, currentPage), [PageButton(i, i == currentPage)]);
      pages := pages + [PageButton(i, i == currentPage)];
      i := i + 1;
    }
    ghost var middle := pages;
    assert middle == Head(startPage) + PageItems(startPage, endPage, currentPage);
    if endPage < totalPages {
      if endPage < totalPages - 1 {
        pages := pages + [TrailingDots];
      }
      pages := pages + [LastButton(totalPages)];
    }
    assert pages == middle + Tail(endPage, totalPages);
    ButtonsParts(currentPage, totalPages, startPage, endPage);
  }

  /** The strip is the head, the window and the tail of its window. */
  lemma ButtonsParts(currentPage: int, totalPages: int, start: int, end: int)
    requires (start, end) == Window(currentPage, totalPages)
    ensures Buttons(currentPage, totalPages) == Head(start) + PageItems(start, end, currentPage) + Tail(end, totalPages)
  {
  }

  lemma SeqAssoc(a: seq<Item>, b: seq<Item>, c: seq<Item>)
    ensures a + b + c == a + (b + c)
  {
  }

  /** One more page button at the end of the window. */
  lemma PageItemsSnoc(lo: int, hi: int, currentPage: int)
    requires lo <= hi + 1
    ensures PageItems(lo, hi + 1, currentPage) == PageItems(lo, hi, currentPage) + [PageButton(hi + 1, hi + 1 == currentPage)]
  {
  }

  /** With at least one page: 1 <= start <= end <= totalPages and at most five window pages. */
  lemma WindowBounds(currentPage: int, totalPages: int)
    requires totalPages >= 1
    ensures var (start, end) := Window(currentPage, totalPages);
            1 <= start <= end <= totalPages && end - start <= 4
  {
  }

  /** A current page within range lies inside the window. */
  lemma WindowHoldsCurrent(currentPage: int, totalPages: int)
    requires 1 <= currentPage <= totalPages
    ensures var (start, end) := Window(currentPage, totalPages);
            start <= currentPage <= end
  {
  }

  /** With five or more pages the window always spans exactly five. */
  lemma WindowFull(currentPage: int, totalPages: int)
    requires totalPages >= 5
    ensures var (start, end) := Window(currentPage, totalPages);
            end - start == 4
  {
  }

  /** The "1" button appears iff the window starts after page 1, the leading dots iff after page 2. */
  lemma FirstAndLeadingDots(currentPage: int, totalPages: int)
    ensures var (start, end) := Window(currentPage, totalPages);
            (FirstButton in Buttons(currentPage, totalPages) <==> start > 1)
            && (LeadingDots in Buttons(currentPage, totalPages) <==> start > 2)
  {
    var (start, end) := Window(currentPage, totalPages);
    var b := Buttons(currentPage, totalPages);
    var p := PageItems(start, end, currentPage);
    assert b == Head(start) + p + Tail(end, totalPages);
    assert FirstButton !in p && LeadingDots !in p;
  }

  /** The last-page button appears iff the window ends before the last page, the trailing dots iff before the one before it. */
  lemma LastAndTrailingDots(currentPage: int, totalPages: int)
    ensures var (start, end) := Window(currentPage, totalPages);
            (LastButton(totalPages) in Buttons(currentPage, totalPages) <==> end < totalPages)
            && (TrailingDots in Buttons(currentPage, totalPages) <==> end < totalPages - 1)
  {
    var (start, end) := Window(currentPage, totalPages);
    var b := Buttons(currentPage, totalPages);
    var p := PageItems(start, end, currentPage);
    assert b == Head(start) + p + Tail(end, totalPages);
    assert LastButton(totalPages) !in p && TrailingDots !in p;
  }

  /** The page number an item leads to, if it leads anywhere. */
  function Target(it: Item): (r: int)
  {
    match it
    case FirstButton => 1
    case PageButton(n, _) => n
    case LastButton(n) => n
    case _ => 0
  }

  /** The page numbers of the strip, in display order (ellipses have none). */
  function Numbers(items: seq<Item>): (ns: seq<int>)
    ensures |ns| <= |items|
  {
    if items == [] then []
    else NumberOf(items[0]) + Numbers(items[1..])
  }

  /** The page number one item shows, if it shows one. */
  function NumberOf(it: Item): (ns: seq<int>)
  {
    if it.LeadingDots? || it.TrailingDots? then [] else [Target(it)]
  }

  lemma {:induction false} NumbersAppend(a: seq<Item>, b: seq<Item>)
    ensures Numbers(a + b) == Numbers(a) + Numbers(b)
    decreases |a|
  {
    if a == [] {
      assert a + b == b;
    } else {
      var x := NumberOf(a[0]);
      assert (a + b)[0] == a[0];
      assert (a + b)[1..] == a[1..] + b;
      NumbersAppend(a[1..], b);
      assert Numbers(a + b) == x + (Numbers(a[1..]) + Numbers(b));
      assert Numbers(a) == x + Numbers(a[1..]);
      assert x + (Numbers(a[1..]) + Numbers(b)) == (x + Numbers(a[1..])) + Numbers(b);
    }
  }

  lemma {:induction false} NumbersOfPageItems(lo: int, hi: int, currentPage: int)
    ensures Numbers(PageItems(lo, hi, currentPage)) == seq(if hi < lo then 0 else hi - lo + 1, k => lo + k)
    decreases hi - lo
  {
    var p := PageItems(lo, hi, currentPage);
    if hi >= lo {
      assert p == [PageButton(lo, lo == currentPage)] + PageItems(lo + 1, hi, currentPage);
      NumbersOfPageItems(lo + 1, hi, currentPage);
      NumbersAppend([PageButton(lo, lo == currentPage)], PageItems(lo + 1, hi, currentPage));
    }
  }

  predicate StrictlyIncreasing(ns: seq<int>) {
    forall i, j :: 0 <= i < j < |ns| ==> ns[i] < ns[j]
  }

  /** The numbers shown (first, window, last) are strictly increasing, hence never repeated. */
  lemma NumbersIncreasing(currentPage: int, totalPages: int)
    requires totalPages >= 1
    ensures StrictlyIncreasing(Numbers(Buttons(currentPage, totalPages)))
  {
    var (start, end) := Window(currentPage, totalPages);
    WindowBounds(currentPage, totalPages);
    assert Buttons(currentPage, totalPages) == Head(start) + PageItems(start, end, currentPage) + Tail(end, totalPages);
    StripIncreasing(start, end, currentPage, totalPages);
  }

  /** Any window within 1..totalPages gives increasing numbers once the first and last buttons are added. */
  lemma StripIncreasing(start: int, end: int, currentPage: int, totalPages: int)
    requires 1 <= start <= end <= totalPages
    ensures StrictlyIncreasing(Numbers(Head(start) + PageItems(start, end, currentPage) + Tail(end, totalPages)))
  {
    var h, p, t := Head(start), PageItems(start, end, currentPage), Tail(end, totalPages);
    NumbersAppend(h + p, t);
    NumbersAppend(h, p);
    NumbersOfPageItems(start, end, currentPage);
    NumbersHeadTail(start, end, totalPages);
    var nh, np, nt := Numbers(h), Numbers(p), Numbers(t);
    assert forall k :: 0 <= k < |np| ==> np[k] == start + k;
    assert StrictlyIncreasing(np) && Below(np, end + 1);
    var front := nh + np;
    if start > 1 {
      assert Above(np, 1);
      ConsBelow(1, np, end + 1);
    } else {
      assert front == np;
    }
    if end < totalPages {
      SnocAbove(front, end + 1, totalPages);
    } else {
      assert front + nt == front;
    }
  }

  /** Every number of ns lies below u. */
  predicate Below(ns: seq<int>, u: int) {
    forall k :: 0 <= k < |ns| ==> ns[k] < u
  }

  /** Every number of ns lies above l. */
  predicate Above(ns: seq<int>, l: int) {
    forall k :: 0 <= k < |ns| ==> l < ns[k]
  }

  /** A number below an increasing run can be put in front of it. */
  lemma ConsBelow(x: int, ns: seq<int>, u: int)
    requires StrictlyIncreasing(ns) && Above(ns, x) && Below(ns, u) && x < u
    ensures StrictlyIncreasing([x] + ns) && Below([x] + ns, u)
  {
    var c := [x] + ns;
    forall i, j | 0 <= i < j < |c|
      ensures c[i] < c[j]
    {
      assert c[j] == ns[j - 1];
      if i > 0 {
        assert c[i] == ns[i - 1];
      }
    }
    forall k | 0 <= k < |c|
      ensures c[k] < u
    {
      if k > 0 {
        assert c[k] == ns[k - 1];
      }
    }
  }

  /** A number above an increasing run can be put after it. */
  lemma SnocAbove(ns: seq<int>, u: int, y: int)
    requires StrictlyIncreasing(ns) && Below(ns, u) && u <= y
    ensures StrictlyIncreasing(ns + [y])
  {
    var c := ns + [y];
    forall i, j | 0 <= i < j < |c|
      ensures c[i] < c[j]
    {
      assert c[i] == ns[i];
      if j < |ns| {
        assert c[j] == ns[j];
      }
    }
  }

  /** The first button leads to page 1 and the last to the last page; the ellipses lead nowhere. */
  lemma NumbersHeadTail(start: int, end: int, totalPages: int)
    ensures Numbers(Head(start)) == if start > 1 then [1] else []
    ensures Numbers(Tail(end, totalPages)) == if end < totalPages then [totalPages] else []
  {
    if start > 2 {
      assert Head(start)[1..] == [LeadingDots];
      assert [LeadingDots][1..] == [];
    } else if start > 1 {
      assert Head(start)[1..] == [];
    }
    if end < totalPages - 1 {
      assert Tail(end, totalPages)[1..] == [LastButton(totalPages)];
      assert [LastButton(totalPages)][1..] == [];
    } else if end < totalPages {
      assert Tail(end, totalPages)[1..] == [];
    }
  }

  /** The previous/next arrows: the page a click moves to, if any, and whether the arrow is disabled. */
  datatype Arrow = Arrow(onClick: Option<int>, disabled: bool)

  function PrevArrow(currentPage: int): Arrow {
    Arrow(if currentPage > 1 then Some(currentPage - 1) else None, currentPage == 1)
  }

  function NextArrow(currentPage: int, totalPages: int): Arrow {
    Arrow(if currentPage < totalPages then Some(currentPage + 1) else None, currentPage == totalPages)
  }

  datatype Nav = Nav(prev: Arrow, items: seq<Item>, next: Arrow)

  /** The whole component: nothing for one page or fewer. */
  function Render(currentPage: int, totalPages: int): (r: Option<Nav>)
    ensures r.None? <==> totalPages <= 1
  {
    if totalPages <= 1 then None
    else Some(Nav(PrevArrow(currentPage), Buttons(currentPage, totalPages), NextArrow(currentPage, totalPages)))
  }

  /**
   * The arrows only move within 1..totalPages; inside that range an arrow is
   * disabled exactly when its click does nothing.
   */
  lemma ArrowsStayInRange(currentPage: int, totalPages: int)
    requires 1 <= currentPage <= totalPages
    ensures var p, n := PrevArrow(currentPage), NextArrow(currentPage, totalPages);
            (p.onClick.Some? ==> 1 <= p.onClick.value < currentPage)
            && (n.onClick.Some? ==> currentPage < n.onClick.value <= totalPages)
            && (p.disabled <==> p.onClick.None?)
            && (n.disabled <==> n.onClick.None?)
  {
  }
}
