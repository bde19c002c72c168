/**
 * client/src/components/clustering/KMeans.tsx: the K-Means panel's state (K,
 * the scaler, the selected features, the last results, the loading flag, the
 * error and the selected cluster), the K input guard, the unguarded request
 * effect and the conditions for showing the results.
 */
module KMeans {
  import opened Js
  import opened Types
  import opened Clustering

  /** The preprocessing the server applies before clustering. */
  datatype Transform = StandardScaler | MinMaxScaler

  /** The value the select stores and the request sends. */
  function TransformName(t: Transform): string
  {
    match t
    case StandardScaler => "standardScaler"
    case MinMaxScaler => "minMaxScaler"
  }

  /** The query string of a request: `k=..&features=..&tf=..`. */
  function KMeansQuery(k: int, features: seq<string>, t: Transform): string
  {
    "k=" + IntToString(k) + "&features=" + FeatureQuery(features) + "&tf=" + TransformName(t)
  }

  /** No part of the query holds an ampersand of its own. */
  lemma QueryPartsHaveNoAmpersand(k: int, features: seq<string>, t: Transform)
    requires forall j :: 0 <= j < |features| ==> features[j] in AllNumericFeatures
    ensures '&' !in "k=" + IntToString(k)
    ensures '&' !in "features=" + FeatureQuery(features)
    ensures '&' !in "tf=" + TransformName(t)
  {
    var n := IntToString(k);
    assert forall j :: 0 <= j < |n| ==> n[j] == '-' || IsDigit(n[j]);
    assert '&' !in n;
    forall j | 0 <= j < |features|
      ensures '&' !in features[j]
    {
      CheckboxFeaturesHaveNoAmpersand(features[j]);
    }
    JoinAvoids(features, ',', '&');
  }

  lemma CheckboxFeaturesHaveNoAmpersand(f: string)
    requires f in AllNumericFeatures
    ensures '&' !in f
  {
  }

  /** The three parameters of the query, separated by ampersands. */
  lemma QueryLayout(k: string, features: string, tf: string)
    ensures "k=" + k + "&features=" + features + "&tf=" + tf ==
            ("k=" + k) + ['&'] + ("features=" + features) + ['&'] + ("tf=" + tf)
  {
    assert "&features=" == ['&'] + "features=";
    assert "&tf=" == ['&'] + "tf=";
  }

  /** The query carries k, the features and tf as three parameters, in that
      order, and the features parameter splits back into the selection. */
  lemma KMeansQueryFields(k: int, features: seq<string>, t: Transform)
    requires forall j :: 0 <= j < |features| ==> features[j] in AllNumericFeatures
    ensures Split(KMeansQuery(k, features, t), '&') ==
              ["k=" + IntToString(k), "features=" + FeatureQuery(features), "tf=" + TransformName(t)]
    ensures |features| >= 1 ==> Split(FeatureQuery(features), ',') == features
  {
    QueryPartsHaveNoAmpersand(k, features, t);
    QueryLayout(IntToString(k), FeatureQuery(features), TransformName(t));
    SplitThree("k=" + IntToString(k), "features=" + FeatureQuery(features), "tf=" + TransformName(t), '&');
    if |features| >= 1 {
      CheckboxFeaturesHaveNoComma(features);
      FeatureQueryRoundTrip(features);
    }
  }

  /** With nothing selected the request still goes out, with an empty
      features parameter. */
  lemma EmptySelectionQuery(k: int, t: Transform)
    ensures KMeansQuery(k, [], t) == "k=" + IntToString(k) + "&features=&tf=" + TransformName(t)
  {
  }

  /** The results block renders once results with a non-empty cluster summary
      are there. */
  predicate ShowResults(results: Option<KMeansResult>)
  {
    results.Some? && |results.value.clusterSummary| > 0
  }

  /** The interpretation text (KMeansDescription) renders inside the results
      block, only for five clusters computed on standardised features. The
      view's contracts say when that holds: never while a request is out
      (Refresh), never once another scaler is picked (SetTransform), and for
      loaded data exactly when it has five clusters, a summary, and the
      scaler is StandardScaler (FinishFetch). */
  function ShowDescription(results: Option<KMeansResult>, t: Transform): (shown: bool)
    ensures shown ==> ShowResults(results)
    ensures shown <==> results.Some? && |results.value.clusterSummary| > 0 &&
                       results.value.nClusters == 5 && t == StandardScaler
  {
    ShowResults(results) && results.value.nClusters == 5 && t == StandardScaler
  }

  /** The panel's state. */
  class KMeansView {
    var kValue: int
    var transform: Transform
    var selectedFeatures: seq<string>
    var results: Option<KMeansResult>
    var loading: bool
    var error: Option<string>
    var selectedCluster: Option<int>

    /** What the handlers keep: K at least 2 and a selection of distinct
        checkbox features. */
    ghost predicate Valid()
      reads this
    {
      && kValue >= 2
      && NoDup(selectedFeatures)
      && (forall j :: 0 <= j < |selectedFeatures| ==> selectedFeatures[j] in AllNumericFeatures)
    }

    /** The initial state: K 5, StandardScaler, every feature selected,
        nothing loaded. */
    constructor()
      ensures kValue == 5 && transform == StandardScaler && selectedFeatures == AllNumericFeatures
      ensures results.None? && !loading && error.None? && selectedCluster.None?
      ensures Valid()
    {
      kValue := 5;
      transform := StandardScaler;
      selectedFeatures := AllNumericFeatures;
      results := None;
      loading := false;
      error := None;
      selectedCluster := None;
    }

    /** The K input: a parsed value is taken only when it is at least 2. */
    method ChangeK(newK: Option<int>)
      requires Valid()
      modifies this
      ensures kValue == if newK.Some? && newK.value >= 2 then newK.value else old(kValue)
      ensures transform == old(transform) && selectedFeatures == old(selectedFeatures)
      ensures results == old(results) && loading == old(loading) && error == old(error)
      ensures selectedCluster == old(selectedCluster)
      ensures Valid()
    {
      if newK.Some? && newK.value >= 2 {
        kValue := newK.value;
      }
    }

    /** The scaler select. */
    method SetTransform(t: Transform)
      modifies this
      ensures transform == t
      ensures t != StandardScaler ==> !ShowDescription(results, transform)
      ensures kValue == old(kValue) && selectedFeatures == old(selectedFeatures)
      ensures results == old(results) && loading == old(loading) && error == old(error)
      ensures selectedCluster == old(selectedCluster)
    {
      transform := t;
    }

    /** A checkbox click. */
    method ToggleFeature(feature: string)
      requires Valid() && feature in AllNumericFeatures
      modifies this
      ensures selectedFeatures == Clustering.ToggleFeature(old(selectedFeatures), feature)
      ensures kValue == old(kValue) && transform == old(transform)
      ensures results == old(results) && loading == old(loading) && error == old(error)
      ensures selectedCluster == old(selectedCluster)
      ensures Valid()
    {
      ToggleKeepsNoDup(selectedFeatures, feature);
      ToggleStaysWithin(selectedFeatures, feature);
      selectedFeatures := Clustering.ToggleFeature(selectedFeatures, feature);
    }

    /** A click on a summary row. */
    method SelectCluster(cluster: int)
      modifies this
      ensures selectedCluster == Some(cluster)
      ensures kValue == old(kValue) && transform == old(transform) && selectedFeatures == old(selectedFeatures)
      ensures results == old(results) && loading == old(loading) && error == old(error)
    {
      selectedCluster := Some(cluster);
    }

    /** The effect on K, the selection and the scaler: with no guard, every
        change starts a request (loading on; error, results and the selected
        cluster cleared, so nothing of the old results is shown) and its query
        is returned; the request itself is not part of this model. */
    method Refresh() returns (query: string)
      modifies this
      ensures query == KMeansQuery(kValue, selectedFeatures, transform)
      ensures loading && error.None? && results.None? && selectedCluster.None?
      ensures !ShowResults(results) && !ShowDescription(results, transform)
      ensures kValue == old(kValue) && transform == old(transform) && selectedFeatures == old(selectedFeatures)
    {
      loading := true;
      error := None;
      results := None;
      selectedCluster := None;
      query := KMeansQuery(kValue, selectedFeatures, transform);
    }

    /** The request settles: the data on success, the error text on an
        HTTP-client error, and loading off whatever happened. */
    method FinishFetch(outcome: FetchOutcome<KMeansResult>)
      modifies this
      ensures !loading
      ensures results == if outcome.Loaded? then Some(outcome.data) else old(results)
      ensures outcome.Loaded? ==>
                (ShowResults(results) <==> |outcome.data.clusterSummary| > 0) &&
                (ShowDescription(results, transform) <==>
                   |outcome.data.clusterSummary| > 0 && outcome.data.nClusters == 5 && transform == StandardScaler)
      ensures error == if outcome.RequestFailed? then ErrorMessage(outcome) else old(error)
      ensures kValue == old(kValue) && transform == old(transform) && selectedFeatures == old(selectedFeatures)
      ensures selectedCluster == old(selectedCluster)
    {
      match outcome {
        case Loaded(data) =>
          results := Some(data);
        case RequestFailed(_) =>
          error := ErrorMessage(outcome);
        case OtherFailure =>
      }
      loading := false;
    }
  }
}
