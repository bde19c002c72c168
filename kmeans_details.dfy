/**
 * client/src/components/clustering/KMeansDetails.tsx: the movies of the
 * selected cluster, ten to a page, with the page counter the prev/next and
 * page buttons move.
 */
module KMeansDetails {
  import opened Js
  import opened Types
  import opened Grouping
  import opened Functions

  /** moviesPerPage, a state that is never set. */
  const MoviesPerPage := 10

  /** filteredMovies: nothing without results or without a selected cluster,
      else the movies whose cluster is the selected one, in order. */
  function FilteredMovies(results: Option<KMeansResult>, selectedCluster: Option<int>): (fm: seq<MovieDetail>)
    ensures results.None? || selectedCluster.None? ==> fm == []
    ensures forall k :: 0 <= k < |fm| ==> fm[k].cluster == selectedCluster
    ensures results.Some? ==> |fm| <= |results.value.moviesWithCluster|
  {
    if results.None? || selectedCluster.None? then []
    else Group(results.value.moviesWithCluster, MovieCluster, selectedCluster)
  }

  /** The filter keeps every movie of the selected cluster, as often as the
      results list it, drops every other movie, and keeps the results'
      order. */
  lemma FilteredMoviesExact(r: KMeansResult, c: int, m: MovieDetail, a: seq<MovieDetail>, b: seq<MovieDetail>)
    ensures multiset(FilteredMovies(Some(r), Some(c)))[m] ==
              if m.cluster == Some(c) then multiset(r.moviesWithCluster)[m] else 0
    ensures r.moviesWithCluster == a + b ==>
              FilteredMovies(Some(r), Some(c)) ==
                FilteredMovies(Some(r.(moviesWithCluster := a)), Some(c)) +
                FilteredMovies(Some(r.(moviesWithCluster := b)), Some(c))
  {
    GroupCount(r.moviesWithCluster, MovieCluster, Some(c), m);
    GroupAppend(a, b, MovieCluster, Some(c));
  }

  /** `Math.ceil(n / moviesPerPage)`: the fewest pages of ten that hold n
      movies. */
  function TotalPages(n: nat): (t: nat)
    ensures n <= t * MoviesPerPage
    ensures t == 0 || (t - 1) * MoviesPerPage < n
  {
    (n + MoviesPerPage - 1) / MoviesPerPage
  }

  /** `filteredMovies.slice(indexOfFirstMovie, indexOfLastMovie)` on page
      `page`: the movies from position (page - 1) * 10 up to, not including,
      page * 10, cut at the end of the list. */
  function CurrentMovies(fm: seq<MovieDetail>, page: int): (cur: seq<MovieDetail>)
    ensures |cur| <= MoviesPerPage
    ensures page >= 1 ==>
              cur == fm[Min((page - 1) * MoviesPerPage, |fm|)..Min(page * MoviesPerPage, |fm|)]
  {
    var indexOfLastMovie := page * MoviesPerPage;
    var indexOfFirstMovie := indexOfLastMovie - MoviesPerPage;
    Slice(fm, indexOfFirstMovie, indexOfLastMovie)
  }

  /** Pages 1 to k, one after the other. */
  function PagesUpTo(fm: seq<MovieDetail>, k: nat): seq<MovieDetail>
  {
    if k == 0 then [] else PagesUpTo(fm, k - 1) + CurrentMovies(fm, k)
  }

  lemma {:induction false} PagesUpToPrefix(fm: seq<MovieDetail>, k: nat)
    ensures PagesUpTo(fm, k) == fm[..Min(k * MoviesPerPage, |fm|)]
  {
    if k > 0 {
      PagesUpToPrefix(fm, k - 1);
      var lo, hi := Min((k - 1) * MoviesPerPage, |fm|), Min(k * MoviesPerPage, |fm|);
      assert fm[..lo] + fm[lo..hi] == fm[..hi];
    }
  }

  /** Paging loses and repeats nothing: pages 1 to totalPages, one after the
      other, are exactly the filtered movies. */
  lemma PagesCoverAll(fm: seq<MovieDetail>)
    ensures PagesUpTo(fm, TotalPages(|fm|)) == fm
  {
    PagesUpToPrefix(fm, TotalPages(|fm|));
    assert fm[..|fm|] == fm;
  }

  /** The "Zobrazeno a-b z n" label: indexOfFirstMovie + 1 and
      `Math.min(indexOfLastMovie, n)`. */
  function RangeLabel(n: nat, page: int): (int, int)
  {
    (page * MoviesPerPage - MoviesPerPage + 1, Min(page * MoviesPerPage, n))
  }

  /** On a real page the label names the first and the last shown movie,
      counting from 1: it spans exactly the movies the page shows. */
  lemma RangeLabelMatchesPage(fm: seq<MovieDetail>, page: int)
    requires 1 <= page <= TotalPages(|fm|)
    ensures var (lo, hi) := RangeLabel(|fm|, page);
            1 <= lo <= hi <= |fm| && hi - lo + 1 == |CurrentMovies(fm, page)|
  {
  }

  /** The pager row is rendered when there is more than one page, that is,
      when the cluster holds more than ten movies. */
  function ShowPager(n: nat): (shown: bool)
    ensures shown <==> n > MoviesPerPage
  {
    TotalPages(n) > 1
  }

  /** `results.cluster_summary.find(c => c.cluster === selectedCluster)?.dominant_genre`. */
  function DominantGenre(summary: seq<ClusterSummary>, cluster: int): (g: Option<string>)
    ensures g.None? <==> forall k :: 0 <= k < |summary| ==> summary[k].cluster != cluster
    ensures g.Some? ==> exists k :: 0 <= k < |summary| && summary[k].cluster == cluster &&
                                    summary[k].dominantGenre == g.value &&
                                    forall j :: 0 <= j < k ==> summary[j].cluster != cluster
  {
    if summary == [] then None
    else if summary[0].cluster == cluster then Some(summary[0].dominantGenre)
    else
      var rest := DominantGenre(summary[1..], cluster);
      assert rest.Some? ==> exists k :: 0 <= k < |summary[1..]| && summary[1..][k].cluster == cluster &&
                                        summary[1..][k].dominantGenre == rest.value &&
                                        forall j :: 0 <= j < k ==> summary[1..][j].cluster != cluster;
      rest
  }

  /** The component's page state, and the props it is rendered with. */
  class Pager {
    var results: Option<KMeansResult>
    var selectedCluster: Option<int>
    var currentPage: int

    function Filtered(): seq<MovieDetail>
      reads this
    {
      FilteredMovies(results, selectedCluster)
    }

    function Pages(): nat
      reads this
    {
      TotalPages(|Filtered()|)
    }

    /** The page is a real page, or page 1 when there is none. */
    predicate Valid()
      reads this
    {
      1 <= currentPage <= Max(1, Pages())
    }

    /** The movies the table shows. */
    function Shown(): seq<MovieDetail>
      reads this
    {
      CurrentMovies(Filtered(), currentPage)
    }

    /** The previous-page button is disabled on page 1. */
    function PrevDisabled(): bool
      reads this
    {
      currentPage == 1
    }

    /** The next-page button is disabled on the last page. */
    function NextDisabled(): bool
      reads this
    {
      currentPage == Pages()
    }

    constructor(results: Option<KMeansResult>, selectedCluster: Option<int>)
      ensures this.results == results && this.selectedCluster == selectedCluster
      ensures currentPage == 1 && Valid()
    {
      this.results := results;
      this.selectedCluster := selectedCluster;
      currentPage := 1;
    }

    /** A new render: the props are replaced, and the effect on
        selectedCluster sets page 1 when the cluster changed. */
    method SetProps(newResults: Option<KMeansResult>, newCluster: Option<int>)
      modifies this
      ensures results == newResults && selectedCluster == newCluster
      ensures currentPage == if newCluster != old(selectedCluster) then 1 else old(currentPage)
      ensures newCluster != old(selectedCluster) ==> Valid()
    {
      var changed := newCluster != selectedCluster;
      results := newResults;
      selectedCluster := newCluster;
      if changed {
        currentPage := 1;
      }
    }

    /** goToNextPage: one page on, unless on the last page. */
    method GoToNextPage()
      requires Valid()
      modifies this
      ensures results == old(results) && selectedCluster == old(selectedCluster)
      ensures currentPage == if old(currentPage) < Pages() then old(currentPage) + 1 else old(currentPage)
      ensures Pages() >= 1 ==> (currentPage == old(currentPage) <==> old(NextDisabled()))
      ensures Valid()
      ensures Pages() >= 1 ==> 1 <= |Shown()| <= MoviesPerPage
    {
      if currentPage < Pages() {
        currentPage := currentPage + 1;
      }
      if Pages() >= 1 {
        RangeLabelMatchesPage(Filtered(), currentPage);
      }
    }

    /** goToPrevPage: one page back, unless on page 1. */
    method GoToPrevPage()
      requires Valid()
      modifies this
      ensures results == old(results) && selectedCluster == old(selectedCluster)
      ensures currentPage == if old(currentPage) > 1 then old(currentPage) - 1 else old(currentPage)
      ensures currentPage == old(currentPage) <==> old(PrevDisabled())
      ensures Valid()
      ensures Pages() >= 1 ==> 1 <= |Shown()| <= MoviesPerPage
    {
      if currentPage > 1 {
        currentPage := currentPage - 1;
      }
      if Pages() >= 1 {
        RangeLabelMatchesPage(Filtered(), currentPage);
      }
    }

    /** A click on one of the page buttons getVisiblePages lists (the
        ellipses are not buttons): that page becomes current, and it is a
        real page. */
    method ClickPage(page: int)
      requires Valid()
      requires page in VisiblePages(currentPage, Pages()) && page != Ellipsis
      modifies this
      ensures results == old(results) && selectedCluster == old(selectedCluster)
      ensures currentPage == page && Valid()
      ensures 1 <= |Shown()| <= MoviesPerPage
    {
      var window := VisiblePages(currentPage, Pages());
      var k :| 0 <= k < |window| && window[k] == page;
      if Pages() <= MaxVisible {
        VisiblePagesAllListed(currentPage, Pages());
      } else {
        VisiblePagesBounded(currentPage, Pages());
      }
      currentPage := page;
      RangeLabelMatchesPage(Filtered(), currentPage);
    }
  }
}
