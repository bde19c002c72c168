/**
 * The shared helpers of client/src/utils/functions.ts: the page-number window
 * of the pagers, the runtime text, the rating colour class and the chart
 * palette. (`formatCurrency` goes through `Intl` and is not part of this model.)
 */
module Functions {
  import opened Js

  // ---------------------------------------------------------------------------
  // getVisiblePages
  // ---------------------------------------------------------------------------

  /** At most this many page numbers are listed without an ellipsis. */
  const MaxVisible := 5

  /** The marker that stands for one or more hidden page numbers ("..."). */
  const Ellipsis := -1

  /** The integers lo, lo + 1, ..., hi, in order (empty when hi < lo). */
  function Range(lo: int, hi: int): (r: seq<int>)
    ensures |r| == Max(0, hi - lo + 1)
    ensures forall k :: 0 <= k < |r| ==> r[k] == lo + k
  {
    if hi < lo then [] else seq(hi - lo + 1, k => lo + k)
  }

  /** The window getVisiblePages produces, one case per branch of the source. */
  function VisiblePages(currentPage: int, totalPages: int): seq<int>
  {
    if totalPages <= MaxVisible then Range(1, totalPages)
    else if currentPage <= 3 then Range(1, 4) + [Ellipsis, totalPages]
    else if currentPage >= totalPages - 2 then [1, Ellipsis] + Range(totalPages - 3, totalPages)
    else [1, Ellipsis] + Range(currentPage - 1, currentPage + 1) + [Ellipsis, totalPages]
  }

  /** getVisiblePages: builds the window by pushing onto an initially empty list. */
  method GetVisiblePages(currentPage: int, totalPages: int) returns (visiblePages: seq<int>)
    ensures visiblePages == VisiblePages(currentPage, totalPages)
  {
    visiblePages := [];
    if totalPages <= MaxVisible {
      var i := 1;
      while i <= totalPages
        invariant 1 <= i <= Max(1, totalPages + 1)
        invariant visiblePages == Range(1, i - 1)
      {
        visiblePages := visiblePages + [i];
        i := i + 1;
      }
    } else {
      if currentPage <= 3 {
        var i := 1;
        while i <= 4
          invariant 1 <= i <= 5
          invariant visiblePages == Range(1, i - 1)
        {
          visiblePages := visiblePages + [i];
          i := i + 1;
        }
        visiblePages := visiblePages + [Ellipsis];
        visiblePages := visiblePages + [totalPages];
      } else if currentPage >= totalPages - 2 {
        visiblePages := visiblePages + [1];
        visiblePages := visiblePages + [Ellipsis];
        var i := totalPages - 3;
        while i <= totalPages
          invariant totalPages - 3 <= i <= totalPages + 1
          invariant visiblePages == [1, Ellipsis] + Range(totalPages - 3, i - 1)
        {
          visiblePages := visiblePages + [i];
          i := i + 1;
        }
      } else {
        visiblePages := visiblePages + [1];
        visiblePages := visiblePages + [Ellipsis];
        var i := currentPage - 1;
        while i <= currentPage + 1
          invariant currentPage - 1 <= i <= currentPage + 2
          invariant visiblePages == [1, Ellipsis] + Range(currentPage - 1, i - 1)
        {
          visiblePages := visiblePages + [i];
          i := i + 1;
        }
        visiblePages := visiblePages + [Ellipsis];
        visiblePages := visiblePages + [totalPages];
      }
    }
  }

  /** With at most five pages every page is listed, 1 to totalPages. */
  lemma VisiblePagesAllListed(currentPage: int, totalPages: int)
    requires totalPages <= MaxVisible
    ensures |VisiblePages(currentPage, totalPages)| == Max(0, totalPages)
    ensures forall k :: 0 <= k < |VisiblePages(currentPage, totalPages)| ==>
              VisiblePages(currentPage, totalPages)[k] == k + 1
  {
  }

  /** The shape of the window when there are more than five pages: six or
      seven entries, first page first, last page last, every entry either a
      page in range or the ellipsis. */
  lemma VisiblePagesBounded(currentPage: int, totalPages: int)
    requires totalPages > MaxVisible
    ensures var r := VisiblePages(currentPage, totalPages);
      && (|r| == 6 || |r| == 7)
      && r[0] == 1 && r[|r| - 1] == totalPages
      && forall k :: 0 <= k < |r| ==> r[k] == Ellipsis || 1 <= r[k] <= totalPages
  {
  }

  /** Page numbers strictly increase, two listed neighbours are consecutive
      pages, and an ellipsis always sits between two listed pages and hides
      at least one page. */
  ghost predicate PagesOrdered(r: seq<int>)
  {
    && (forall j, k :: 0 <= j < k < |r| && r[j] != Ellipsis && r[k] != Ellipsis ==> r[j] < r[k])
    && (forall k :: 0 <= k < |r| - 1 && r[k] != Ellipsis && r[k + 1] != Ellipsis ==> r[k + 1] == r[k] + 1)
    && (forall k :: 0 <= k < |r| && r[k] == Ellipsis ==>
          0 < k < |r| - 1 && r[k - 1] != Ellipsis && r[k + 1] != Ellipsis && r[k + 1] >= r[k - 1] + 2)
  }

  /** The window is ordered in each of the four cases of getVisiblePages. */
  lemma VisiblePagesOrdered(currentPage: int, totalPages: int)
    ensures PagesOrdered(VisiblePages(currentPage, totalPages))
  {
    if totalPages <= MaxVisible {
      FirstPagesOrdered(totalPages);
    } else if currentPage <= 3 {
      StartWindowOrdered(currentPage, totalPages);
    } else if currentPage >= totalPages - 2 {
      EndWindowOrdered(currentPage, totalPages);
    } else {
      MiddleWindowOrdered(currentPage, totalPages);
    }
  }

  lemma StartWindowOrdered(currentPage: int, totalPages: int)
    requires totalPages > MaxVisible && currentPage <= 3
    ensures PagesOrdered(VisiblePages(currentPage, totalPages))
  {
    var r := [1, 2, 3, 4, Ellipsis, totalPages];
    assert VisiblePages(currentPage, totalPages) == r;
    ShortWindowOrdered(r);
  }

  lemma EndWindowOrdered(currentPage: int, totalPages: int)
    requires totalPages > MaxVisible && 3 < currentPage && currentPage >= totalPages - 2
    ensures PagesOrdered(VisiblePages(currentPage, totalPages))
  {
    var r := [1, Ellipsis, totalPages - 3, totalPages - 2, totalPages - 1, totalPages];
    assert VisiblePages(currentPage, totalPages) == r;
    ShortWindowOrdered(r);
  }

  lemma MiddleWindowOrdered(currentPage: int, totalPages: int)
    requires totalPages > MaxVisible && 3 < currentPage < totalPages - 2
    ensures PagesOrdered(VisiblePages(currentPage, totalPages))
  {
    var r := [1, Ellipsis, currentPage - 1, currentPage, currentPage + 1, Ellipsis, totalPages];
    assert VisiblePages(currentPage, totalPages) == r;
    ShortWindowOrdered(r);
  }

  /** The neighbour conditions of a window of six or seven entries, checked
      position by position. */
  lemma ShortWindowOrdered(r: seq<int>)
    requires 6 <= |r| <= 7
    requires forall k :: 0 <= k < |r| ==> NeighbourOk(r, k)
    ensures PagesOrdered(r)
  {
    forall k | 0 <= k < |r| - 1 && r[k] != Ellipsis && r[k + 1] != Ellipsis
      ensures r[k + 1] == r[k] + 1
    {
      assert NeighbourOk(r, k);
    }
    forall k | 0 <= k < |r| && r[k] == Ellipsis
      ensures 0 < k < |r| - 1 && r[k - 1] != Ellipsis && r[k + 1] != Ellipsis && r[k + 1] >= r[k - 1] + 2
    {
      assert NeighbourOk(r, k);
    }
    WindowOrdered(r);
  }

  /** Entry k of a window agrees with its right neighbour, or is an ellipsis
      between two pages at least two apart. */
  ghost predicate NeighbourOk(r: seq<int>, k: int)
    requires 0 <= k < |r|
  {
    && (k < |r| - 1 && r[k] != Ellipsis && r[k + 1] != Ellipsis ==> r[k + 1] == r[k] + 1)
    && (r[k] == Ellipsis ==>
          0 < k < |r| - 1 && r[k - 1] != Ellipsis && r[k + 1] != Ellipsis && r[k + 1] >= r[k - 1] + 2)
  }

  lemma FirstPagesOrdered(totalPages: int)
    ensures PagesOrdered(Range(1, totalPages))
  {
    var r := Range(1, totalPages);
    assert forall k :: 0 <= k < |r| ==> r[k] == k + 1;
  }

  /** A short window is ordered when its entries are: checked entry by entry. */
  lemma WindowOrdered(r: seq<int>)
    requires 6 <= |r| <= 7
    requires forall k :: 0 <= k < |r| - 1 && r[k] != Ellipsis && r[k + 1] != Ellipsis ==> r[k + 1] == r[k] + 1
    requires forall k :: 0 <= k < |r| && r[k] == Ellipsis ==>
               0 < k < |r| - 1 && r[k - 1] != Ellipsis && r[k + 1] != Ellipsis && r[k + 1] >= r[k - 1] + 2
    ensures PagesOrdered(r)
  {
    forall j, k | 0 <= j < k < |r| && r[j] != Ellipsis && r[k] != Ellipsis
      ensures r[j] < r[k]
    {
      IncreasingStep(r, j, k);
    }
  }

  lemma {:induction false} IncreasingStep(r: seq<int>, j: int, k: int)
    requires 0 <= j < k < |r| && r[j] != Ellipsis && r[k] != Ellipsis
    requires forall i :: 0 <= i < |r| - 1 && r[i] != Ellipsis && r[i + 1] != Ellipsis ==> r[i + 1] == r[i] + 1
    requires forall i :: 0 <= i < |r| && r[i] == Ellipsis ==>
               0 < i < |r| - 1 && r[i - 1] != Ellipsis && r[i + 1] != Ellipsis && r[i + 1] >= r[i - 1] + 2
    ensures r[j] < r[k]
    decreases k - j
  {
    if r[j + 1] != Ellipsis {
      if j + 1 < k {
        IncreasingStep(r, j + 1, k);
      }
    } else if j + 2 < k {
      IncreasingStep(r, j + 2, k);
    }
  }

  /** The current page is always listed when it is a real page. */
  lemma VisiblePagesShowCurrent(currentPage: int, totalPages: int)
    requires 1 <= currentPage <= totalPages
    ensures currentPage in VisiblePages(currentPage, totalPages)
  {
    var r := VisiblePages(currentPage, totalPages);
    if totalPages <= MaxVisible {
      assert r[currentPage - 1] == currentPage;
    } else if currentPage <= 3 {
      assert r[currentPage - 1] == currentPage;
    } else if currentPage >= totalPages - 2 {
      assert r[currentPage - totalPages + 5] == currentPage;
    } else {
      assert r[3] == currentPage;
    }
  }

  // ---------------------------------------------------------------------------
  // formatRuntime
  // ---------------------------------------------------------------------------

  /** The text shown for a missing runtime. */
  const NotAvailable := "N/A"

  /** formatRuntime: `null` and `0` are falsy and give "N/A"; otherwise the
      whole hours and the remaining minutes, as in "2h 5m". */
  function FormatRuntime(minutes: Option<nat>): (r: string)
    ensures r == NotAvailable <==> minutes.None? || minutes.value == 0
  {
    if minutes.None? || minutes.value == 0 then NotAvailable
    else NatToString(minutes.value / 60) + "h " + NatToString(minutes.value % 60) + "m"
  }

  /** Reads an "<hours>h <minutes>m" text back into minutes; the minutes part
      must be below 60. Anything else, "N/A" included, gives None. */
  function ParseRuntime(s: string): Option<nat>
  {
    ParseRuntimeParts(Split(s, 'h'))
  }

  /** ParseRuntime on the pieces of the text around its 'h'. */
  function ParseRuntimeParts(parts: seq<string>): Option<nat>
  {
    if |parts| != 2 then None
    else
      var hours := parts[0];
      var tail := parts[1];
      if |tail| < 3 || tail[0] != ' ' || tail[|tail| - 1] != 'm' then None
      else
        var mins := tail[1..|tail| - 1];
        if hours == [] || !AllDigits(hours) || !AllDigits(mins) || DigitsValue(mins) >= 60 then None
        else Some(DigitsValue(hours) * 60 + DigitsValue(mins))
  }

  /** An "<h>h <m>m" text with digit strings h and m, m worth less than 60,
      reads back as h hours and m minutes. */
  lemma ParseRuntimeText(h: string, m: string, hours: nat, minutes: nat)
    requires |h| >= 1 && |m| >= 1 && AllDigits(h) && AllDigits(m)
    requires DigitsValue(h) == hours && DigitsValue(m) == minutes && minutes < 60
    ensures ParseRuntime(h + "h " + m + "m") == Some(hours * 60 + minutes)
  {
    var tail := [' '] + m + ['m'];
    SplitRuntimeText(h, m);
    ParseRuntimeFields(h, m, hours, minutes);
    assert ParseRuntime(h + "h " + m + "m") == ParseRuntimeParts([h, tail]);
  }

  /** The hours piece and the " <m>m" piece read back as h hours and m minutes. */
  lemma ParseRuntimeFields(h: string, m: string, hours: nat, minutes: nat)
    requires |h| >= 1 && |m| >= 1 && AllDigits(h) && AllDigits(m)
    requires DigitsValue(h) == hours && DigitsValue(m) == minutes && minutes < 60
    ensures ParseRuntimeParts([h, [' '] + m + ['m']]) == Some(hours * 60 + minutes)
  {
    var tail := [' '] + m + ['m'];
    assert |tail| >= 3 && tail[0] == ' ' && tail[|tail| - 1] == 'm';
    assert tail[1..|tail| - 1] == m;
  }

  /** The only 'h' in such a text is the one after the hours. */
  lemma SplitRuntimeText(h: string, m: string)
    requires AllDigits(h) && AllDigits(m)
    ensures Split(h + "h " + m + "m", 'h') == [h, [' '] + m + ['m']]
  {
    var tail := [' '] + m + ['m'];
    assert h + "h " + m + "m" == h + ['h'] + tail;
    DigitsHaveNo(h, 'h');
    DigitsHaveNo(m, 'h');
    SplitAfterPiece(h, 'h', tail);
    SplitWithoutSeparator(tail, 'h');
  }

  /** A string of digits holds no letter. */
  lemma DigitsHaveNo(s: string, c: char)
    requires AllDigits(s) && !IsDigit(c)
    ensures c !in s
  {
    forall k | 0 <= k < |s| ensures s[k] != c { assert IsDigit(s[k]); }
  }

  /** The runtime text is a faithful hours/minutes split: reading it back gives
      the same number of minutes, with a minutes part below 60. */
  lemma {:induction false} FormatRuntimeRoundTrip(minutes: nat)
    requires minutes > 0
    ensures ParseRuntime(FormatRuntime(Some(minutes))) == Some(minutes)
  {
    var h, m := minutes / 60, minutes % 60;
    HoursMinutesRoundTrip(h, m);
    assert h * 60 + m == minutes;
  }

  /** h hours and m < 60 minutes, rendered, read back as h * 60 + m. */
  lemma HoursMinutesRoundTrip(h: nat, m: nat)
    requires m < 60
    ensures ParseRuntime(NatToString(h) + "h " + NatToString(m) + "m") == Some(h * 60 + m)
  {
    var hs, ms := NatToString(h), NatToString(m);
    NatToStringRoundTrip(h);
    NatToStringRoundTrip(m);
    ParseRuntimeText(hs, ms, h, m);
  }

  /** "N/A" does not read back as a runtime. */
  lemma NotAvailableIsNoRuntime()
    ensures ParseRuntime(NotAvailable) == None
  {
    assert 'h' !in NotAvailable;
    SplitWithoutSeparator(NotAvailable, 'h');
  }

  // ---------------------------------------------------------------------------
  // getRatingColor
  // ---------------------------------------------------------------------------

  const Green := "bg-green-500"
  const Yellow := "bg-yellow-500"
  const Red := "bg-red-500"

  /** getRatingColor: green from 8 up, yellow from 6 up to 8, red below 6. */
  function RatingColor(rating: real): (r: string)
    ensures r == Green <==> rating >= 8.0
    ensures r == Yellow <==> 6.0 <= rating < 8.0
    ensures r == Red <==> rating < 6.0
  {
    if rating >= 8.0 then Green
    else if rating >= 6.0 then Yellow
    else Red
  }

  /** How good a colour says a rating is: red 0, yellow 1, green 2. */
  function ColorRank(color: string): nat
  {
    if color == Green then 2 else if color == Yellow then 1 else 0
  }

  /** A higher rating never gets a worse colour. */
  lemma RatingColorMonotone(a: real, b: real)
    requires a <= b
    ensures ColorRank(RatingColor(a)) <= ColorRank(RatingColor(b))
  {
  }

  // ---------------------------------------------------------------------------
  // generateColors
  // ---------------------------------------------------------------------------

  /** The six chart colours, in the order generateColors hands them out. */
  const BaseColors: seq<string> := [
    "rgba(255, 99, 132, 0.7)",
    "rgba(54, 162, 235, 0.7)",
    "rgba(75, 192, 192, 0.7)",
    "rgba(255, 206, 86, 0.7)",
    "rgba(153, 102, 255, 0.7)",
    "rgba(255, 159, 64, 0.7)"
  ]

  /** generateColors(n) is `baseColors.slice(0, n)`: the first min(n, 6)
      colours for n >= 0; a negative n drops that many from the end. */
  function GenerateColors(n: int): (r: seq<string>)
    ensures n >= 0 ==> r == BaseColors[..Min(n, |BaseColors|)]
    ensures n < 0 ==> r == BaseColors[..Max(0, |BaseColors| + n)]
  {
    Slice(BaseColors, 0, n)
  }
}
