/**
 * What the two clustering panels (client/src/components/clustering/KMeans.tsx
 * and DBScan.tsx) share: the numeric feature checkboxes and their toggle, the
 * comma-joined feature query, and how the outcome of a request becomes the
 * panel's error text.
 */
module Clustering {
  import opened Js
  import opened Grouping

  /** ALL_NUMERIC_FEATURES: the checkboxes, and the initial selection. */
  const AllNumericFeatures: seq<string> :=
    ["vote_average", "vote_count", "popularity", "budget", "revenue", "runtime"]

  /** The key toggleFeature's `filter(f => f !== feature)` compares: the
      feature name itself. It is named so that the filter can be written
      with Grouping's Exclude, whose lemmas take the key function. */
  function Name(f: string): string
  {
    f
  }

  /** Whether no feature occurs twice. */
  ghost predicate NoDup(fs: seq<string>)
  {
    forall x :: multiset(fs)[x] <= 1
  }

  /** toggleFeature's update: a selected feature is filtered out (every
      occurrence of it), an unselected one is appended at the end. */
  function ToggleFeature(selected: seq<string>, feature: string): (r: seq<string>)
    ensures feature in selected ==> feature !in r
    ensures feature !in selected ==> r == selected + [feature]
  {
    if feature in selected then Exclude(selected, Name, feature) else selected + [feature]
  }

  lemma ExcludeLast(xs: seq<string>, k: string)
    requires k !in xs
    ensures Exclude(xs + [k], Name, k) == xs
  {
    assert (xs + [k])[..|xs + [k]| - 1] == xs;
    ExcludeAbsent(xs, Name, k);
  }

  /** Toggling flips the membership of the toggled feature and leaves every
      other feature's membership, and its multiplicity, as it was. */
  lemma ToggleMembership(selected: seq<string>, feature: string, x: string)
    ensures x == feature ==> (x in ToggleFeature(selected, feature) <==> x !in selected)
    ensures x != feature ==> multiset(ToggleFeature(selected, feature))[x] == multiset(selected)[x]
    ensures x != feature ==> (x in ToggleFeature(selected, feature) <==> x in selected)
  {
    if feature in selected {
      ExcludeCount(selected, Name, feature, x);
    }
  }

  /** Toggling a selected feature off takes it out where it stood and keeps
      the other features in their order. */
  lemma ToggleRemovesInPlace(a: seq<string>, b: seq<string>, feature: string)
    requires feature !in a && feature !in b
    ensures ToggleFeature(a + [feature] + b, feature) == a + b
  {
    ExcludeAppend(a + [feature], b, Name, feature);
    ExcludeAppend(a, [feature], Name, feature);
    ExcludeAbsent(a, Name, feature);
    ExcludeAbsent(b, Name, feature);
    assert [feature][..0] == [];
  }

  /** Toggling keeps a duplicate-free selection duplicate-free. */
  lemma ToggleKeepsNoDup(selected: seq<string>, feature: string)
    requires NoDup(selected)
    ensures NoDup(ToggleFeature(selected, feature))
  {
    var r := ToggleFeature(selected, feature);
    forall x
      ensures multiset(r)[x] <= 1
    {
      if feature in selected {
        ExcludeCount(selected, Name, feature, x);
      } else {
        assert multiset(selected)[feature] == 0;
      }
    }
  }

  /** Toggling a feature twice restores the selected set; when the feature was
      not selected it restores the very same list (when it was, the feature
      comes back at the end). */
  lemma ToggleTwice(selected: seq<string>, feature: string, x: string)
    ensures x in ToggleFeature(ToggleFeature(selected, feature), feature) <==> x in selected
    ensures feature !in selected ==> ToggleFeature(ToggleFeature(selected, feature), feature) == selected
  {
    var once := ToggleFeature(selected, feature);
    ToggleMembership(selected, feature, x);
    ToggleMembership(once, feature, x);
    if feature !in selected {
      ExcludeLast(selected, feature);
    }
  }

  /** Starting from the checkboxes, every selection the toggles can reach
      holds checkbox features only. */
  lemma ToggleStaysWithin(selected: seq<string>, feature: string)
    requires forall k :: 0 <= k < |selected| ==> selected[k] in AllNumericFeatures
    requires feature in AllNumericFeatures
    ensures forall k :: 0 <= k < |ToggleFeature(selected, feature)| ==>
              ToggleFeature(selected, feature)[k] in AllNumericFeatures
  {
    var r := ToggleFeature(selected, feature);
    forall k | 0 <= k < |r|
      ensures r[k] in AllNumericFeatures
    {
      if feature in selected {
        ExcludeCount(selected, Name, feature, r[k]);
        assert r[k] in multiset(selected);
      }
    }
  }

  /** `features.join(',')`, the request's features parameter. */
  function FeatureQuery(features: seq<string>): string
  {
    Join(features, ',')
  }

  /** The server can recover the selection from the features parameter:
      splitting it at the commas gives the selected features, in order, as
      long as some feature is selected and none holds a comma. */
  lemma FeatureQueryRoundTrip(features: seq<string>)
    requires |features| >= 1
    requires forall k :: 0 <= k < |features| ==> ',' !in features[k]
    ensures Split(FeatureQuery(features), ',') == features
  {
    SplitJoin(features, ',');
  }

  /** No checkbox feature holds a comma, so any selection of them round-trips. */
  lemma CheckboxFeaturesHaveNoComma(features: seq<string>)
    requires forall k :: 0 <= k < |features| ==> features[k] in AllNumericFeatures
    ensures forall k :: 0 <= k < |features| ==> ',' !in features[k]
  {
  }

  // ---------------------------------------------------------------------------
  // Request outcome
  // ---------------------------------------------------------------------------

  /** The part of an HTTP error response the panels read: `data.detail`, and
      the status code. */
  datatype ErrorResponse = ErrorResponse(detail: Option<string>, status: int)

  /** How a request ends: with the data, with an HTTP-client error (with or
      without a response), or with any other exception. */
  datatype FetchOutcome<T> = Loaded(data: T) | RequestFailed(response: Option<ErrorResponse>) | OtherFailure

  const ErrorPrefix := "Chyba při načítání dat: "

  /** The text the catch block stores in `error`: the server's detail when it
      is a non-empty string, else the prefix and the status (the text
      "undefined" when there is no response). Only HTTP-client errors set an
      error; any other outcome leaves none. */
  function ErrorMessage<T>(outcome: FetchOutcome<T>): (msg: Option<string>)
    ensures msg.Some? <==> outcome.RequestFailed?
    ensures msg.Some? ==> |msg.value| > 0
  {
    match outcome
    case RequestFailed(response) =>
      if response.Some? && response.value.detail.Some? && response.value.detail.value != "" then
        Some(response.value.detail.value)
      else if response.Some? then
        Some(ErrorPrefix + IntToString(response.value.status))
      else
        Some(ErrorPrefix + "undefined")
    case _ => None
  }

  /** The detail wins whenever it is non-empty; otherwise the message tells
      the status, and different statuses give different messages. */
  lemma ErrorMessageCases(detail: Option<string>, s1: int, s2: int)
    ensures detail.Some? && detail.value != "" ==>
              ErrorMessage<int>(RequestFailed(Some(ErrorResponse(detail, s1)))) == Some(detail.value)
    ensures (detail.None? || detail.value == "") && s1 != s2 ==>
              ErrorMessage<int>(RequestFailed(Some(ErrorResponse(detail, s1)))) !=
              ErrorMessage<int>(RequestFailed(Some(ErrorResponse(detail, s2))))
  {
    if (detail.None? || detail.value == "") && s1 != s2 {
      var a, b := ErrorPrefix + IntToString(s1), ErrorPrefix + IntToString(s2);
      assert a[|ErrorPrefix|..] == IntToString(s1);
      assert b[|ErrorPrefix|..] == IntToString(s2);
      if a == b {
        IntToStringInjective(s1, s2);
      }
    }
  }
}
