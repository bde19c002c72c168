/**
 * client/src/components/clustering/PlotlyBoxPlots.tsx: one box-plot chart per
 * displayable feature, one box (trace) per cluster, each box holding the
 * feature's values of the movies in that cluster.
 */
module BoxPlots {
  import opened Js
  import opened Types
  import opened Grouping

  datatype Feature = VoteAverage | VoteCount | Popularity | Budget | Revenue | Runtime

  /** The property name of a feature in a movie record. */
  function FeatureName(f: Feature): string
  {
    match f
    case VoteAverage => "vote_average"
    case VoteCount => "vote_count"
    case Popularity => "popularity"
    case Budget => "budget"
    case Revenue => "revenue"
    case Runtime => "runtime"
  }

  /** FEATURE_LABELS: the chart title of each feature. */
  function FeatureLabel(f: Feature): string
  {
    match f
    case VoteAverage => "Průměrné Hodnocení"
    case VoteCount => "Počet Hlasů"
    case Popularity => "Popularita"
    case Budget => "Rozpočet"
    case Revenue => "Tržby"
    case Runtime => "Délka"
  }

  /** The FEATURE_LABELS key a name is, if it is one. */
  function FeatureOf(name: string): (f: Option<Feature>)
    ensures f.Some? ==> FeatureName(f.value) == name
    ensures f.None? ==> forall g :: FeatureName(g) != name
  {
    if name == "vote_average" then Some(VoteAverage)
    else if name == "vote_count" then Some(VoteCount)
    else if name == "popularity" then Some(Popularity)
    else if name == "budget" then Some(Budget)
    else if name == "revenue" then Some(Revenue)
    else if name == "runtime" then Some(Runtime)
    else None
  }

  /** `movie[feature]`. */
  function FeatureValue(m: MovieDetail, f: Feature): Value
  {
    match f
    case VoteAverage => m.voteAverage
    case VoteCount => m.voteCount
    case Popularity => m.popularity
    case Budget => m.budget
    case Revenue => m.revenue
    case Runtime => m.runtime
  }

  /** The number a plotted value carries. */
  function NumericValue(m: MovieDetail, f: Feature): real
  {
    match FeatureValue(m, f)
    case Number(x) => x
    case _ => 0.0
  }

  /** Whether preparePlotlyData keeps the movie: it has a cluster, the cluster
      is not negative, and the feature's value is a number other than NaN. */
  predicate HasPlottableValue(m: MovieDetail, f: Feature)
  {
    m.cluster.Some? && m.cluster.value >= 0 && FeatureValue(m, f).Number?
  }

  /** The cluster under which a movie's value is plotted; -1 for a movie that
      is dropped. */
  function PlotKey(f: Feature): MovieDetail -> int
  {
    m => if HasPlottableValue(m, f) then m.cluster.value else -1
  }

  /** The feature values of some movies, in order. */
  function Values(ms: seq<MovieDetail>, f: Feature): (vs: seq<real>)
    ensures |vs| == |ms|
    ensures forall k :: 0 <= k < |ms| ==> vs[k] == NumericValue(ms[k], f)
  {
    if ms == [] then [] else Values(ms[..|ms| - 1], f) + [NumericValue(ms[|ms| - 1], f)]
  }

  lemma {:induction false} ValuesAppend(a: seq<MovieDetail>, b: seq<MovieDetail>, f: Feature)
    ensures Values(a + b, f) == Values(a, f) + Values(b, f)
  {
    if b == [] {
      assert a + b == a;
    } else {
      ValuesAppend(a, b[..|b| - 1], f);
      assert (a + b)[..|a + b| - 1] == a + b[..|b| - 1];
    }
  }

  /** `dataByCluster[c]` once every movie has been visited. */
  function Bucket(ms: seq<MovieDetail>, f: Feature, c: int): seq<real>
  {
    Values(Group(ms, PlotKey(f), c), f)
  }

  /** Visiting one more movie appends its value to its own cluster's bucket
      and leaves every other bucket as it was. */
  lemma BucketSnoc(ms: seq<MovieDetail>, m: MovieDetail, f: Feature, c: int)
    ensures Bucket(ms + [m], f, c) ==
              Bucket(ms, f, c) + (if PlotKey(f)(m) == c then [NumericValue(m, f)] else [])
  {
    assert (ms + [m])[..|ms + [m]| - 1] == ms;
    var g := Group(ms, PlotKey(f), c);
    if PlotKey(f)(m) == c {
      assert (g + [m])[..|g + [m]| - 1] == g;
    }
  }

  // ---------------------------------------------------------------------------
  // Traces
  // ---------------------------------------------------------------------------

  /** One box of a chart. */
  datatype Trace = Trace(y: seq<real>, name: string, color: string)

  /** The colours of the first five boxes; every later box is gray. */
  const Palette: seq<string> := ["#ff6384", "#36a2eb", "#4bbf6b", "#ffce56", "#9966ff"]

  const Gray := "gray"

  function TraceColor(i: nat): string
  {
    if i < 5 then Palette[i] else Gray
  }

  /** The trace of cluster i: its values, the label "Shluk i (N=count)" whose
      count is the number of values, and its colour. */
  function MakeTrace(i: nat, y: seq<real>): Trace
  {
    Trace(y, "Shluk " + IntToString(i) + " (N=" + IntToString(|y|) + ")", TraceColor(i))
  }

  /** The traces preparePlotlyData returns. */
  function Traces(movies: seq<MovieDetail>, f: Feature, nClusters: int): (ts: seq<Trace>)
    ensures |ts| == Max(0, nClusters)
    ensures forall i :: 0 <= i < |ts| ==>
              && ts[i].y == Bucket(movies, f, i)
              && ts[i].name == "Shluk " + IntToString(i) + " (N=" + IntToString(|Group(movies, PlotKey(f), i)|) + ")"
              && ts[i].color == TraceColor(i)
  {
    seq(Max(0, nClusters), i requires 0 <= i < Max(0, nClusters) => MakeTrace(i, Bucket(movies, f, i)))
  }

  /** dataByCluster once the given movies have been visited, one movie at a
      time: a bucket per cluster 0, ..., nClusters - 1, and a kept movie's
      value appended to the bucket of its cluster. */
  function Buckets(visited: seq<MovieDetail>, f: Feature, nClusters: int): (data: map<int, seq<real>>)
    ensures forall c :: c in data <==> 0 <= c < nClusters
  {
    if visited == [] then EmptyBuckets(nClusters)
    else
      var data := Buckets(visited[..|visited| - 1], f, nClusters);
      var m := visited[|visited| - 1];
      if HasPlottableValue(m, f) && m.cluster.value < nClusters
      then data[m.cluster.value := data[m.cluster.value] + [NumericValue(m, f)]]
      else data
  }

  /** Filling the buckets one movie at a time gives each cluster exactly its
      box: the values of its kept movies, in order. */
  lemma {:induction false} BucketsAreBoxes(visited: seq<MovieDetail>, f: Feature, nClusters: int, c: int)
    requires 0 <= c < nClusters
    ensures Buckets(visited, f, nClusters)[c] == Bucket(visited, f, c)
  {
    if visited != [] {
      var init, m := visited[..|visited| - 1], visited[|visited| - 1];
      BucketsAreBoxes(init, f, nClusters, c);
      BucketSnoc(init, m, f, c);
      assert init + [m] == visited;
    }
  }

  /** An empty bucket for each of the clusters 0, ..., nClusters - 1, and no
      other key. */
  function EmptyBuckets(nClusters: int): (data: map<int, seq<real>>)
    ensures forall c :: c in data <==> 0 <= c < nClusters
    ensures forall c :: c in data ==> data[c] == []
  {
    if nClusters <= 0 then map[] else EmptyBuckets(nClusters - 1)[nClusters - 1 := []]
  }

  /** The first loop of preparePlotlyData. */
  method InitBuckets(nClusters: int) returns (dataByCluster: map<int, seq<real>>)
    ensures dataByCluster == EmptyBuckets(nClusters)
  {
    dataByCluster := map[];
    var i := 0;
    while i < nClusters
      invariant 0 <= i <= Max(0, nClusters)
      invariant dataByCluster == EmptyBuckets(i)
    {
      dataByCluster := dataByCluster[i := []];
      i := i + 1;
    }
  }

  /** `Array.from({ length: nClusters }, (_, i) => ...)`: one trace per bucket. */
  function BuildTraces(dataByCluster: map<int, seq<real>>, nClusters: int): (ts: seq<Trace>)
    requires forall c :: 0 <= c < nClusters ==> c in dataByCluster
    ensures |ts| == Max(0, nClusters)
    ensures forall c :: 0 <= c < |ts| ==> ts[c] == MakeTrace(c, dataByCluster[c])
  {
    seq(Max(0, nClusters), c requires 0 <= c < Max(0, nClusters) => MakeTrace(c, dataByCluster[c]))
  }

  /** Once every movie has been visited, the traces are the specified ones. */
  lemma BuildTracesFromBuckets(movies: seq<MovieDetail>, f: Feature, nClusters: int)
    ensures BuildTraces(Buckets(movies[..|movies|], f, nClusters), nClusters) == Traces(movies, f, nClusters)
  {
    assert movies[..|movies|] == movies;
    var ts, spec := BuildTraces(Buckets(movies, f, nClusters), nClusters), Traces(movies, f, nClusters);
    forall c | 0 <= c < |ts|
      ensures ts[c] == spec[c]
    {
      BucketsAreBoxes(movies, f, nClusters, c);
    }
  }

  /** preparePlotlyData: start an empty bucket per cluster, push each kept
      movie's value into its cluster's bucket, then build one trace per
      cluster. */
  method PreparePlotlyData(movies: seq<MovieDetail>, feature: Feature, nClusters: int)
    returns (traces: seq<Trace>)
    ensures traces == Traces(movies, feature, nClusters)
  {
    var dataByCluster := InitBuckets(nClusters);
    assert movies[..0] == [];
    var j := 0;
    while j < |movies|
      invariant 0 <= j <= |movies|
      invariant dataByCluster == Buckets(movies[..j], feature, nClusters)
    {
      var movie := movies[j];
      var value := FeatureValue(movie, feature);
      assert movies[..j + 1][..j] == movies[..j];
      if movie.cluster.Some? && movie.cluster.value >= 0 && value.Number? {
        if movie.cluster.value < nClusters {
          var c := movie.cluster.value;
          dataByCluster := dataByCluster[c := dataByCluster[c] + [value.x]];
        }
      }
      j := j + 1;
    }
    BuildTracesFromBuckets(movies, feature, nClusters);
    traces := BuildTraces(dataByCluster, nClusters);
  }

  /** Every value in the box of cluster c comes from a movie of cluster c whose
      feature holds exactly that number. */
  lemma BucketOrigin(ms: seq<MovieDetail>, f: Feature, c: int, k: nat)
    requires c >= 0 && k < |Bucket(ms, f, c)|
    ensures exists m :: m in ms && m.cluster == Some(c) && FeatureValue(m, f) == Number(Bucket(ms, f, c)[k])
  {
    var g := Group(ms, PlotKey(f), c);
    var m := g[k];
    assert PlotKey(f)(m) == c;
    assert m in ms && m.cluster == Some(c) && FeatureValue(m, f) == Number(Bucket(ms, f, c)[k]);
  }

  /** Within a box the values keep the order of the movies: the box of a
      concatenation is the concatenation of the boxes. */
  lemma BucketKeepsOrder(a: seq<MovieDetail>, b: seq<MovieDetail>, f: Feature, c: int)
    ensures Bucket(a + b, f, c) == Bucket(a, f, c) + Bucket(b, f, c)
  {
    GroupAppend(a, b, PlotKey(f), c);
    ValuesAppend(Group(a, PlotKey(f), c), Group(b, PlotKey(f), c), f);
  }

  /** A movie without a cluster, with a negative cluster, with a cluster of
      nClusters or more, or whose value is not a number, is in no box; every
      other movie is in the box of its own cluster, as often as it occurs. */
  lemma MoviePlacement(ms: seq<MovieDetail>, f: Feature, nClusters: int, m: MovieDetail, c: int)
    requires 0 <= c < nClusters
    ensures multiset(Group(ms, PlotKey(f), c))[m] ==
              if HasPlottableValue(m, f) && m.cluster.value == c then multiset(ms)[m] else 0
  {
    GroupCount(ms, PlotKey(f), c, m);
  }

  /** The boxes together hold one value per kept movie with a cluster below
      nClusters, no more and no fewer. */
  lemma BoxSizesAddUp(ms: seq<MovieDetail>, f: Feature, nClusters: int)
    ensures TotalSize(ms, PlotKey(f), nClusters) == |InRange(ms, PlotKey(f), nClusters)|
    ensures forall m :: m in InRange(ms, PlotKey(f), nClusters) ==>
              HasPlottableValue(m, f) && m.cluster.value < nClusters
    ensures forall c :: 0 <= c < nClusters ==> |Bucket(ms, f, c)| == |Group(ms, PlotKey(f), c)|
  {
    TotalSizeIsInRange(ms, PlotKey(f), nClusters);
    forall m | m in InRange(ms, PlotKey(f), nClusters)
      ensures HasPlottableValue(m, f) && m.cluster.value < nClusters
    {
      var k :| 0 <= k < |InRange(ms, PlotKey(f), nClusters)| && InRange(ms, PlotKey(f), nClusters)[k] == m;
      assert 0 <= PlotKey(f)(m) < nClusters;
    }
  }

  /** The five first boxes get five different palette colours; the rest are gray. */
  lemma TraceColors(i: nat, j: nat)
    ensures i < j < 5 ==> TraceColor(i) != TraceColor(j)
    ensures i >= 5 ==> TraceColor(i) == Gray
    ensures i < 5 ==> TraceColor(i) != Gray
  {
  }

  // ---------------------------------------------------------------------------
  // The charts
  // ---------------------------------------------------------------------------

  /** The selected features that have a chart label, in their order. */
  function FeaturesToDisplay(features: seq<string>): (r: seq<string>)
    ensures forall k :: 0 <= k < |r| ==> FeatureOf(r[k]).Some?
  {
    Group(features, (name: string) => FeatureOf(name).Some?, true)
  }

  /** featuresToDisplay drops exactly the unlabelled names and keeps the order. */
  lemma FeaturesToDisplayFilter(features: seq<string>, more: seq<string>, name: string)
    ensures multiset(FeaturesToDisplay(features))[name] ==
              if FeatureOf(name).Some? then multiset(features)[name] else 0
    ensures FeaturesToDisplay(features + more) == FeaturesToDisplay(features) + FeaturesToDisplay(more)
  {
    GroupCount(features, (name: string) => FeatureOf(name).Some?, true, name);
    GroupAppend(features, more, (name: string) => FeatureOf(name).Some?, true);
  }

  /** isLogScale: budget, revenue and vote counts are drawn on a log axis. */
  function IsLogScale(f: Feature): bool
  {
    f == Budget || f == Revenue || f == VoteCount
  }

  datatype Chart = Chart(title: string, traces: seq<Trace>, logScale: bool)

  /** The charts PlotlyBoxPlots draws, one per displayed feature. */
  function Charts(movies: seq<MovieDetail>, features: seq<string>, nClusters: int): (cs: seq<Chart>)
    ensures |cs| == |FeaturesToDisplay(features)|
    ensures forall k :: 0 <= k < |cs| ==>
              var f := FeatureOf(FeaturesToDisplay(features)[k]).value;
              cs[k] == Chart(FeatureLabel(f), Traces(movies, f, nClusters), IsLogScale(f))
  {
    var shown := FeaturesToDisplay(features);
    seq(|shown|, k requires 0 <= k < |shown| =>
      var f := FeatureOf(shown[k]).value;
      Chart(FeatureLabel(f), Traces(movies, f, nClusters), IsLogScale(f)))
  }

  /** A chart is on a log axis exactly when its feature is budget, revenue or
      vote_count. */
  lemma ChartScale(movies: seq<MovieDetail>, features: seq<string>, nClusters: int, k: nat)
    requires k < |Charts(movies, features, nClusters)|
    ensures Charts(movies, features, nClusters)[k].logScale <==>
              FeaturesToDisplay(features)[k] in {"budget", "revenue", "vote_count"}
  {
    var name := FeaturesToDisplay(features)[k];
    assert FeatureName(FeatureOf(name).value) == name;
  }
}
