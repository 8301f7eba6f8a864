/**
 * The pagination bar under a list: the "start–end of total" caption, the
 * row of page buttons with '...' gaps, and the previous/next buttons.
 */
module Pagination {
  import opened Domain

  datatype PageItem = Page(n: int) | Ellipsis

  function Max(a: int, b: int): int { if a >= b then a else b }

  function Min(a: int, b: int): int { if a <= b then a else b }

  /** The buttons for pages `lo` to `hi`, empty when `lo > hi`. */
  function Span(lo: int, hi: int): (r: seq<PageItem>)
    ensures |r| == if lo <= hi then hi - lo + 1 else 0
    ensures forall i :: 0 <= i < |r| ==> r[i] == Page(lo + i)
    decreases if lo <= hi then hi - lo + 1 else 0
  {
    if lo > hi then [] else Span(lo, hi - 1) + [Page(hi)]
  }

  /**
   * The page list: every page when there are at most five; otherwise the
   * first page, the current page with its two neighbours, and the last page,
   * with '...' where pages are skipped.
   */
  function PageList(cur: int, total: int): seq<PageItem> {
    if total <= 5 then Span(1, total)
    else
      [Page(1)]
      + (if cur > 3 then [Ellipsis] else [])
      + Span(Max(2, cur - 1), Min(total - 1, cur + 1))
      + (if cur < total - 2 then [Ellipsis] else [])
      + [Page(total)]
  }

  /** `for (let i = lo; i <= hi; i++) pages.push(i)`. */
  method PushSpan(pages: seq<PageItem>, lo: int, hi: int) returns (r: seq<PageItem>)
    ensures r == pages + Span(lo, hi)
  {
    r := pages;
    var i := lo;
    while i <= hi
      invariant lo <= i <= Max(lo, hi + 1)
      invariant r == pages + Span(lo, i - 1)
      decreases hi - i
    {
      r := r + [Page(i)];
      i := i + 1;
    }
    assert Span(lo, i - 1) == Span(lo, hi);
  }

  /** `getPages`, built by pushing onto an array as the component does. */
  method GetPages(cur: int, total: int) returns (pages: seq<PageItem>)
    ensures pages == PageList(cur, total)
  {
    pages := [];
    if total <= 5 {
      pages := PushSpan(pages, 1, total);
      assert pages == Span(1, total);
    } else {
      ghost var lead: seq<PageItem> := if cur > 3 then [Ellipsis] else [];
      ghost var trail: seq<PageItem> := if cur < total - 2 then [Ellipsis] else [];
      pages := pages + [Page(1)];
      if cur > 3 {
        pages := pages + [Ellipsis];
      }
      assert pages == [Page(1)] + lead;
      var lo, hi := Max(2, cur - 1), Min(total - 1, cur + 1);
      pages := PushSpan(pages, lo, hi);
      if cur < total - 2 {
        pages := pages + [Ellipsis];
      }
      assert pages == [Page(1)] + lead + Span(lo, hi) + trail;
      pages := pages + [Page(total)];
    }
  }

  // ----- The page numbers shown -----

  /** The page numbers in a list, in order, leaving out the gaps. */
  function Numbers(r: seq<PageItem>): seq<int> {
    if r == [] then []
    else Numbers(r[..|r| - 1]) + (if r[|r| - 1].Page? then [r[|r| - 1].n] else [])
  }

  lemma {:induction false} NumbersAppend(a: seq<PageItem>, b: seq<PageItem>)
    ensures Numbers(a + b) == Numbers(a) + Numbers(b)
    decreases |b|
  {
    if b == [] {
      assert a + b == a;
    } else {
      assert (a + b)[..|a + b| - 1] == a + b[..|b| - 1];
      NumbersAppend(a, b[..|b| - 1]);
    }
  }

  /** The integers from `lo` to `hi`. */
  function Ints(lo: int, hi: int): (r: seq<int>)
    ensures |r| == if lo <= hi then hi - lo + 1 else 0
    ensures forall i :: 0 <= i < |r| ==> r[i] == lo + i
    decreases if lo <= hi then hi - lo + 1 else 0
  {
    if lo > hi then [] else Ints(lo, hi - 1) + [hi]
  }

  lemma {:induction false} NumbersSpan(lo: int, hi: int)
    ensures Numbers(Span(lo, hi)) == Ints(lo, hi)
    decreases if lo <= hi then hi - lo + 1 else 0
  {
    if lo <= hi {
      NumbersSpan(lo, hi - 1);
      NumbersAppend(Span(lo, hi - 1), [Page(hi)]);
      assert Numbers([Page(hi)]) == [hi] by {
        assert [Page(hi)][..0] == [];
      }
    }
  }

  /** The page numbers of a long list: 1, the window around the current page, and the last page. */
  lemma NumbersOfLongList(cur: int, total: int)
    requires total > 5
    ensures Numbers(PageList(cur, total)) == [1] + Ints(Max(2, cur - 1), Min(total - 1, cur + 1)) + [total]
  {
    var lead := if cur > 3 then [Ellipsis] else [];
    var trail := if cur < total - 2 then [Ellipsis] else [];
    var mid := Span(Max(2, cur - 1), Min(total - 1, cur + 1));
    assert Numbers([Page(1)]) == [1] by {
      assert [Page(1)][..0] == [];
    }
    assert Numbers([Page(total)]) == [total] by {
      assert [Page(total)][..0] == [];
    }
    assert Numbers(lead) == [] by {
      if lead != [] {
        assert lead[..0] == [];
      }
    }
    assert Numbers(trail) == [] by {
      if trail != [] {
        assert trail[..0] == [];
      }
    }
    var b := [Page(1)] + lead;
    var c := b + mid;
    var d := c + trail;
    var e := d + [Page(total)];
    assert e == PageList(cur, total);
    NumbersAppend([Page(1)], lead);
    NumbersAppend(b, mid);
    NumbersAppend(c, trail);
    NumbersAppend(d, [Page(total)]);
    NumbersSpan(Max(2, cur - 1), Min(total - 1, cur + 1));
    assert Numbers(b) == [1];
    assert Numbers(d) == [1] + Ints(Max(2, cur - 1), Min(total - 1, cur + 1));
  }

  predicate Increasing(xs: seq<int>) {
    forall i, j :: 0 <= i < j < |xs| ==> xs[i] < xs[j]
  }

  /**
   * Whatever the current page, the page numbers shown are strictly
   * ascending and lie between 1 and the last page.
   */
  lemma PageNumbersAscending(cur: int, total: int)
    ensures Increasing(Numbers(PageList(cur, total)))
    ensures forall i :: 0 <= i < |Numbers(PageList(cur, total))| ==> 1 <= Numbers(PageList(cur, total))[i] <= total
  {
    if total <= 5 {
      NumbersSpan(1, total);
    } else {
      NumbersOfLongList(cur, total);
      FramedIncreasing(Max(2, cur - 1), Min(total - 1, cur + 1), total);
    }
  }

  /** 1, then `lo..hi`, then `last` is ascending and within 1..last when the window lies strictly between. */
  lemma FramedIncreasing(lo: int, hi: int, last: int)
    requires 1 < lo && hi < last && 1 < last
    ensures Increasing([1] + Ints(lo, hi) + [last])
    ensures forall i :: 0 <= i < |[1] + Ints(lo, hi) + [last]| ==> 1 <= ([1] + Ints(lo, hi) + [last])[i] <= last
  {
    var m := Ints(lo, hi);
    var xs := [1] + m + [last];
    assert xs[0] == 1 && xs[|xs| - 1] == last;
    forall i | 1 <= i < |xs| - 1
      ensures xs[i] == lo + i - 1
    {
      assert xs[i] == m[i - 1];
    }
    forall i, j | 0 <= i < j < |xs|
      ensures xs[i] < xs[j]
    {
      if 0 < i && j == |xs| - 1 {
        assert i - 1 < |m| && xs[i] == m[i - 1] == lo + i - 1 <= hi;
      }
    }
  }

  /** With at most five pages, every page is listed, in order, and there is no gap. */
  lemma ShortListIsComplete(cur: int, total: int)
    requires total <= 5
    ensures |PageList(cur, total)| == Max(0, total)
    ensures forall i :: 0 <= i < |PageList(cur, total)| ==> PageList(cur, total)[i] == Page(i + 1)
    ensures Ellipsis !in PageList(cur, total)
  {
  }

  /** A list of more than five pages starts at page 1 and ends at the last page. */
  lemma LongListEnds(cur: int, total: int)
    requires total > 5
    ensures |PageList(cur, total)| >= 2
    ensures PageList(cur, total)[0] == Page(1)
    ensures PageList(cur, total)[|PageList(cur, total)| - 1] == Page(total)
  {
  }

  /** The list never holds more than seven buttons. */
  lemma AtMostSeven(cur: int, total: int)
    ensures |PageList(cur, total)| <= 7
  {
  }

  /** One '...' for the pages skipped after page 1 and one for those skipped before the last. */
  lemma EllipsisCount(cur: int, total: int)
    ensures multiset(PageList(cur, total))[Ellipsis] ==
      if total <= 5 then 0 else (if cur > 3 then 1 else 0) + (if cur < total - 2 then 1 else 0)
  {
    if total <= 5 {
      ShortListIsComplete(cur, total);
    } else {
      var mid := Span(Max(2, cur - 1), Min(total - 1, cur + 1));
      assert Ellipsis !in mid;
    }
  }

  /**
   * Where everything sits in a long list: page 1, an optional '...', the
   * window `lo..hi` around the current page, an optional '...', the last page.
   */
  lemma LongListLayout(cur: int, total: int)
    requires total > 5
    ensures var r := PageList(cur, total);
      var lo, hi := Max(2, cur - 1), Min(total - 1, cur + 1);
      var k := if cur > 3 then 2 else 1;
      var w := if lo <= hi then hi - lo + 1 else 0;
      |r| == k + w + (if cur < total - 2 then 1 else 0) + 1
      && r[0] == Page(1) && (cur > 3 ==> r[1] == Ellipsis)
      && (forall j :: k <= j < k + w ==> r[j] == Page(lo + j - k))
      && (cur < total - 2 ==> r[k + w] == Ellipsis)
      && r[|r| - 1] == Page(total)
  {
    var lo, hi := Max(2, cur - 1), Min(total - 1, cur + 1);
    var lead := if cur > 3 then [Ellipsis] else [];
    var trail := if cur < total - 2 then [Ellipsis] else [];
    var mid := Span(lo, hi);
    var b := [Page(1)] + lead;
    var c := b + mid;
    var e := c + trail + [Page(total)];
    assert e == PageList(cur, total);
    assert |b| == (if cur > 3 then 2 else 1);
    forall j | |b| <= j < |b| + |mid|
      ensures e[j] == Page(lo + j - |b|)
    {
      assert e[j] == c[j] == mid[j - |b|];
    }
  }

  /**
   * For a current page within range, the leading '...' is there exactly
   * when the current page is past 3, and the trailing one exactly when it is
   * more than two pages before the last.
   */
  lemma EllipsisPlacement(cur: int, total: int)
    requires total > 5 && 1 <= cur <= total
    ensures var r := PageList(cur, total);
      |r| >= 4
      && (r[1] == Ellipsis <==> cur > 3)
      && (r[|r| - 2] == Ellipsis <==> cur < total - 2)
  {
    LongListLayout(cur, total);
    var lo, hi := Max(2, cur - 1), Min(total - 1, cur + 1);
    var k := if cur > 3 then 2 else 1;
    var r := PageList(cur, total);
    assert lo <= hi;
    if cur <= 3 {
      assert r[k + 0] == Page(lo);
    }
    if cur >= total - 2 {
      assert r[k + (hi - lo)] == Page(hi);
    }
  }

  /** The current page and its neighbours within range are always listed. */
  lemma CurrentPageShown(cur: int, total: int)
    requires 1 <= cur <= total
    ensures Page(cur) in PageList(cur, total)
    ensures cur > 1 ==> Page(cur - 1) in PageList(cur, total)
    ensures cur < total ==> Page(cur + 1) in PageList(cur, total)
  {
    var r := PageList(cur, total);
    if total <= 5 {
      assert r[cur - 1] == Page(cur);
      if cur > 1 {
        assert r[cur - 2] == Page(cur - 1);
      }
      if cur < total {
        assert r[cur] == Page(cur + 1);
      }
    } else {
      LongListLayout(cur, total);
      var lo := Max(2, cur - 1);
      var k := if cur > 3 then 2 else 1;
      if 1 < cur < total {
        assert r[k + (cur - lo)] == Page(cur);
      }
      if 2 < cur {
        assert r[k + (cur - 1 - lo)] == Page(cur - 1);
      }
      if cur < total - 1 {
        assert r[k + (cur + 1 - lo)] == Page(cur + 1);
      }
    }
  }

  /** Every '...' stands for at least one page that is not listed. */
  lemma EllipsisHidesPages(cur: int, total: int, i: int)
    requires 1 <= cur <= total
    requires 0 <= i < |PageList(cur, total)| && PageList(cur, total)[i] == Ellipsis
    ensures 0 < i < |PageList(cur, total)| - 1
    ensures PageList(cur, total)[i - 1].Page? && PageList(cur, total)[i + 1].Page?
    ensures PageList(cur, total)[i - 1].n + 1 < PageList(cur, total)[i + 1].n
  {
    if total <= 5 {
      ShortListIsComplete(cur, total);
      assert false;
    } else {
      LongListLayout(cur, total);
      var lo, hi := Max(2, cur - 1), Min(total - 1, cur + 1);
      var k := if cur > 3 then 2 else 1;
      var r := PageList(cur, total);
      assert lo <= hi;
      if cur > 3 && i == 1 {
        assert r[k + 0] == Page(lo);
      } else {
        assert i == k + (hi - lo + 1);
        assert r[k + (hi - lo)] == Page(hi);
      }
    }
  }

  // ----- The caption and the buttons -----

  /** `start = (current − 1) · perPage + 1` and `end = min(current · perPage, totalItems)`. */
  datatype Bounds = Bounds(start: int, end: int)

  function ItemBounds(cur: int, perPage: int, totalItems: int): (b: Bounds)
    ensures b.end <= totalItems
    ensures b.end <= cur * perPage && b.end - b.start < perPage
  {
    Bounds((cur - 1) * perPage + 1, Min(cur * perPage, totalItems))
  }

  /** A page that holds items shows a non-empty run of them, within 1..totalItems. */
  lemma ItemBoundsInRange(cur: int, perPage: int, totalItems: int)
    requires 1 <= cur && 1 <= perPage && (cur - 1) * perPage < totalItems
    ensures 1 <= ItemBounds(cur, perPage, totalItems).start <= ItemBounds(cur, perPage, totalItems).end <= totalItems
  {
    assert (cur - 1) * perPage >= 0;
    assert cur * perPage == (cur - 1) * perPage + perPage;
  }

  /** Consecutive full pages show consecutive runs of items. */
  lemma ItemBoundsTile(cur: int, perPage: int, totalItems: int)
    requires cur * perPage <= totalItems
    ensures ItemBounds(cur, perPage, totalItems).end + 1 == ItemBounds(cur + 1, perPage, totalItems).start
  {
  }

  /** What the bar shows, when it is shown at all. */
  datatype Bar = Bar(bounds: Bounds, totalItems: int, pages: seq<PageItem>, previousDisabled: bool, nextDisabled: bool)

  function Render(cur: int, totalPages: int, totalItems: int, perPage: int): (r: Option<Bar>)
    ensures r.None? <==> totalPages <= 1
    ensures r.Some? ==> (r.value.previousDisabled <==> cur == 1)
    ensures r.Some? ==> (r.value.nextDisabled <==> cur == totalPages)
    ensures r.Some? ==> r.value.pages == PageList(cur, totalPages)
  {
    if totalPages <= 1 then None
    else
      Some(Bar(ItemBounds(cur, perPage, totalItems), totalItems, PageList(cur, totalPages),
        cur == 1, cur == totalPages))
  }
}
