/**
 * client/src/components/clustering/DBScan.tsx: the DBSCAN panel's state (eps,
 * minPts, the selected features, the last results, the loading flag and the
 * error), its input guards, the guarded request effect, and what it hands to
 * the box plots.
 */
module DBScan {
  import opened Js
  import opened Types
  import opened Grouping
  import opened Clustering
  import BoxPlots

  /** The query parameters of one request: eps, minPts and the comma-joined
      features. */
  datatype Request = Request(eps: real, minPts: int, features: string)

  /** The effect's guard: it returns early on an empty selection, a
      non-positive eps or a minPts below 2. */
  predicate ShouldFetch(features: seq<string>, eps: real, minPts: int)
    ensures ShouldFetch(features, eps, minPts) <==> |features| >= 1 && eps > 0.0 && minPts >= 2
  {
    !(|features| == 0 || eps <= 0.0 || minPts < 2)
  }

  /** The movies handed to the box plots: every movie whose cluster is not the
      noise label -1, in order. */
  function BoxPlotMovies(r: DBScanResult): (ms: seq<MovieDetail>)
    ensures forall k :: 0 <= k < |ms| ==> ms[k].cluster != Some(-1) && ms[k] in r.moviesWithCluster
  {
    Exclude(r.moviesWithCluster, MovieCluster, Some(-1))
  }

  /** The noise filter drops the noise movies and keeps every other movie as
      often as the results list it. */
  lemma BoxPlotMoviesExact(r: DBScanResult, m: MovieDetail)
    ensures multiset(BoxPlotMovies(r))[m] == if m.cluster == Some(-1) then 0 else multiset(r.moviesWithCluster)[m]
  {
    ExcludeCount(r.moviesWithCluster, MovieCluster, Some(-1), m);
  }

  lemma {:induction false} NoiseFilterKeepsGroup(ms: seq<MovieDetail>, f: BoxPlots.Feature, c: int)
    requires c >= 0
    ensures Group(Exclude(ms, MovieCluster, Some(-1)), BoxPlots.PlotKey(f), c) == Group(ms, BoxPlots.PlotKey(f), c)
  {
    if ms != [] {
      var init, m := ms[..|ms| - 1], ms[|ms| - 1];
      NoiseFilterKeepsGroup(init, f, c);
      var e := Exclude(init, MovieCluster, Some(-1));
      if m.cluster != Some(-1) {
        assert (e + [m])[..|e + [m]| - 1] == e;
      }
    }
  }

  /** Filtering the noise out first changes no box plot: the box plots drop
      movies with a negative cluster anyway. */
  lemma NoiseFilterKeepsBoxes(r: DBScanResult, f: BoxPlots.Feature, nClusters: int)
    ensures BoxPlots.Traces(BoxPlotMovies(r), f, nClusters) == BoxPlots.Traces(r.moviesWithCluster, f, nClusters)
  {
    var a, b := BoxPlots.Traces(BoxPlotMovies(r), f, nClusters), BoxPlots.Traces(r.moviesWithCluster, f, nClusters);
    forall c | 0 <= c < |a|
      ensures a[c] == b[c]
    {
      NoiseFilterKeepsGroup(r.moviesWithCluster, f, c);
    }
  }

  /** "Do n shluků bylo celkem zařazeno": the movies minus the noise points.
      When the server's noise count is the number of noise movies, this is
      the number of movies the box plots receive. */
  function ClusteredCount(r: DBScanResult): (n: int)
    ensures r.noisePoints == |Group(r.moviesWithCluster, MovieCluster, Some(-1))| ==> n == |BoxPlotMovies(r)|
  {
    GroupExcludeSizes(r.moviesWithCluster, MovieCluster, Some(-1));
    |r.moviesWithCluster| - r.noisePoints
  }

  /** The panel's state. */
  class DBScanView {
    var eps: real
    var minPts: int
    var selectedFeatures: seq<string>
    var results: Option<DBScanResult>
    var loading: bool
    var error: Option<string>
    var selectedCluster: Option<int>

    /** What the handlers keep: eps positive, minPts at least 2, and a
        selection of distinct checkbox features. */
    ghost predicate Valid()
      reads this
    {
      && eps > 0.0 && minPts >= 2
      && NoDup(selectedFeatures)
      && (forall k :: 0 <= k < |selectedFeatures| ==> selectedFeatures[k] in AllNumericFeatures)
    }

    /** The initial state: eps 0.5, minPts 5, every feature selected, nothing
        loaded. */
    constructor()
      ensures eps == 0.5 && minPts == 5 && selectedFeatures == AllNumericFeatures
      ensures results.None? && !loading && error.None? && selectedCluster.None?
      ensures Valid()
    {
      eps := 0.5;
      minPts := 5;
      selectedFeatures := AllNumericFeatures;
      results := None;
      loading := false;
      error := None;
      selectedCluster := None;
    }

    /** The eps input: a parsed value is taken only when it is above 0 (an
        unparsable input, NaN, is None here and never taken). */
    method ChangeEps(newEps: Option<real>)
      requires Valid()
      modifies this
      ensures eps == if newEps.Some? && newEps.value > 0.0 then newEps.value else old(eps)
      ensures minPts == old(minPts) && selectedFeatures == old(selectedFeatures)
      ensures results == old(results) && loading == old(loading) && error == old(error)
      ensures selectedCluster == old(selectedCluster)
      ensures Valid()
    {
      if newEps.Some? && newEps.value > 0.0 {
        eps := newEps.value;
      }
    }

    /** The minPts input: a parsed value is taken only when it is at least 2. */
    method ChangeMinPts(newMinPts: Option<int>)
      requires Valid()
      modifies this
      ensures minPts == if newMinPts.Some? && newMinPts.value >= 2 then newMinPts.value else old(minPts)
      ensures eps == old(eps) && selectedFeatures == old(selectedFeatures)
      ensures results == old(results) && loading == old(loading) && error == old(error)
      ensures selectedCluster == old(selectedCluster)
      ensures Valid()
    {
      if newMinPts.Some? && newMinPts.value >= 2 {
        minPts := newMinPts.value;
      }
    }

    /** A checkbox click. */
    method ToggleFeature(feature: string)
      requires Valid() && feature in AllNumericFeatures
      modifies this
      ensures selectedFeatures == Clustering.ToggleFeature(old(selectedFeatures), feature)
      ensures eps == old(eps) && minPts == old(minPts)
      ensures results == old(results) && loading == old(loading) && error == old(error)
      ensures selectedCluster == old(selectedCluster)
      ensures Valid()
    {
      ToggleKeepsNoDup(selectedFeatures, feature);
      ToggleStaysWithin(selectedFeatures, feature);
      selectedFeatures := Clustering.ToggleFeature(selectedFeatures, feature);
    }

    /** A click on a summary row. */
    method SelectCluster(cluster: int)
      modifies this
      ensures selectedCluster == Some(cluster)
      ensures eps == old(eps) && minPts == old(minPts) && selectedFeatures == old(selectedFeatures)
      ensures results == old(results) && loading == old(loading) && error == old(error)
    {
      selectedCluster := Some(cluster);
    }

    /** The effect on eps, minPts and the selection: unless the guard returns
        early, the request starts (loading on, error and results cleared)
        and its parameters are returned; the request itself is not part of
        this model. */
    method Refresh() returns (req: Option<Request>)
      modifies this
      ensures req.Some? <==> ShouldFetch(old(selectedFeatures), old(eps), old(minPts))
      ensures req.Some? ==> req.value == Request(eps, minPts, FeatureQuery(selectedFeatures))
      ensures req.Some? ==> loading && error.None? && results.None?
      ensures req.None? ==> loading == old(loading) && error == old(error) && results == old(results)
      ensures eps == old(eps) && minPts == old(minPts) && selectedFeatures == old(selectedFeatures)
      ensures selectedCluster == old(selectedCluster)
    {
      if |selectedFeatures| == 0 || eps <= 0.0 || minPts < 2 {
        return None;
      }
      loading := true;
      error := None;
      results := None;
      req := Some(Request(eps, minPts, FeatureQuery(selectedFeatures)));
    }

    /** The request settles: the data on success, the error text on an
        HTTP-client error, and loading off whatever happened. */
    method FinishFetch(outcome: FetchOutcome<DBScanResult>)
      modifies this
      ensures !loading
      ensures results == if outcome.Loaded? then Some(outcome.data) else old(results)
      ensures error == if outcome.RequestFailed? then ErrorMessage(outcome) else old(error)
      ensures eps == old(eps) && minPts == old(minPts) && selectedFeatures == old(selectedFeatures)
      ensures selectedCluster == old(selectedCluster)
    {
      match outcome {
        case Loaded(data) =>
          results := Some(data);
        case RequestFailed(_) =>
          error := ErrorMessage(outcome);
        case OtherFailure =>
      }
      loading := false;
    }
  }

  /** With the input guards in force, only an empty selection keeps the
      effect from fetching; any request it sends decodes back to the
      selection. */
  lemma ValidStateFetches(features: seq<string>, eps: real, minPts: int)
    requires eps > 0.0 && minPts >= 2
    requires forall k :: 0 <= k < |features| ==> features[k] in AllNumericFeatures
    ensures ShouldFetch(features, eps, minPts) <==> |features| > 0
    ensures ShouldFetch(features, eps, minPts) ==> Split(FeatureQuery(features), ',') == features
  {
    if |features| > 0 {
      CheckboxFeaturesHaveNoComma(features);
      FeatureQueryRoundTrip(features);
    }
  }
}
