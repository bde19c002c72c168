/**
 * client/src/components/clustering/ClusterScatterPlot.tsx: the Chart.js
 * datasets of the PCA scatter plot, one per cluster id 0, ..., nClusters - 1,
 * each holding the projected points of its cluster and a colour taken from
 * generateColors.
 */
module ScatterPlot {
  import opened Js
  import opened Types
  import opened Grouping
  import Functions

  /** One plotted point: `{ x: point.PC1, y: point.PC2 }`. */
  datatype Point = Point(x: real, y: real)

  /** One dataset handed to the chart (its constant point radius left out). */
  datatype Dataset = Dataset(caption: string, data: seq<Point>, backgroundColor: string)

  /** The id a PCA point is filtered by. */
  function ClusterOf(p: PcaPoint): int
  {
    p.cluster
  }

  /** The chart point of a PCA point. */
  function ToPoint(p: PcaPoint): Point
  {
    Point(p.pc1, p.pc2)
  }

  /** `.map(point => ({ x: point.PC1, y: point.PC2 }))`. */
  function ToPoints(ps: seq<PcaPoint>): (r: seq<Point>)
    ensures |r| == |ps|
    ensures forall k :: 0 <= k < |ps| ==> r[k] == ToPoint(ps[k])
  {
    if ps == [] then [] else ToPoints(ps[..|ps| - 1]) + [ToPoint(ps[|ps| - 1])]
  }

  /** The PCA points of one cluster, in input order. */
  function ClusterMembers(pcaData: seq<PcaPoint>, id: int): seq<PcaPoint>
  {
    Group(pcaData, ClusterOf, id)
  }

  /** The legend label of a dataset: "Shluk " followed by its id. */
  function Caption(id: int): string
  {
    "Shluk " + IntToString(id)
  }

  /** The datasets the scatter plot draws. */
  function DataSets(pcaData: seq<PcaPoint>, nClusters: int): (ds: seq<Dataset>)
    ensures |ds| == Max(0, nClusters)
    ensures forall i :: 0 <= i < |ds| ==>
              ds[i].caption == Caption(i) && ds[i].data == ToPoints(ClusterMembers(pcaData, i))
  {
    var colors := Functions.GenerateColors(nClusters);
    seq(Max(0, nClusters), i requires 0 <= i < Max(0, nClusters) =>
      Dataset(Caption(i), ToPoints(ClusterMembers(pcaData, i)), colors[i % |colors|]))
  }

  /** Dataset i is coloured `colors[i % colors.length]` with colors the first
      min(nClusters, 6) base colours, so from index 6 on the colours repeat. */
  lemma DataSetColors(pcaData: seq<PcaPoint>, nClusters: int)
    ensures var ds := DataSets(pcaData, nClusters);
            forall i :: 0 <= i < |ds| ==>
              ds[i].backgroundColor == Functions.BaseColors[i % Min(nClusters, |Functions.BaseColors|)]
    ensures var ds := DataSets(pcaData, nClusters);
            forall i :: 6 <= i < |ds| ==> ds[i].backgroundColor == ds[i - 6].backgroundColor
  {
    var ds := DataSets(pcaData, nClusters);
    if nClusters > 0 {
      var colors := Functions.GenerateColors(nClusters);
      var m := Min(nClusters, |Functions.BaseColors|);
      assert |colors| == m;
      forall i | 0 <= i < |ds|
        ensures ds[i].backgroundColor == Functions.BaseColors[i % m]
      {
        assert ds[i].backgroundColor == colors[i % m];
      }
      forall i | 6 <= i < |ds|
        ensures ds[i].backgroundColor == ds[i - 6].backgroundColor
      {
        assert m == 6;
        assert i % 6 == (i - 6) % 6;
      }
    }
  }

  /** Every dataset has its own label. */
  lemma CaptionsDistinct(pcaData: seq<PcaPoint>, nClusters: int, i: nat, j: nat)
    requires i < j < Max(0, nClusters)
    ensures DataSets(pcaData, nClusters)[i].caption != DataSets(pcaData, nClusters)[j].caption
  {
    var a, b := Caption(i), Caption(j);
    assert a[6..] == IntToString(i);
    assert b[6..] == IntToString(j);
    if a == b {
      IntToStringInjective(i, j);
    }
  }

  /** The dataset of id k holds exactly the points of cluster k, each as often
      as the input holds it, and every point is drawn at (PC1, PC2). */
  lemma DataSetMembers(pcaData: seq<PcaPoint>, nClusters: int, k: nat, p: PcaPoint)
    requires k < Max(0, nClusters)
    ensures multiset(ClusterMembers(pcaData, k))[p] == if p.cluster == k then multiset(pcaData)[p] else 0
    ensures forall j :: 0 <= j < |DataSets(pcaData, nClusters)[k].data| ==>
              DataSets(pcaData, nClusters)[k].data[j] == Point(ClusterMembers(pcaData, k)[j].pc1, ClusterMembers(pcaData, k)[j].pc2)
  {
    GroupCount(pcaData, ClusterOf, k, p);
  }

  /** A point whose cluster is outside 0, ..., nClusters - 1 (noise -1 among
      them) is in no dataset. */
  lemma OutsidePointsDropped(pcaData: seq<PcaPoint>, nClusters: int, p: PcaPoint)
    requires p.cluster < 0 || p.cluster >= nClusters
    ensures forall k :: 0 <= k < Max(0, nClusters) ==> p !in ClusterMembers(pcaData, k)
  {
    forall k | 0 <= k < Max(0, nClusters)
      ensures p !in ClusterMembers(pcaData, k)
    {
      GroupCount(pcaData, ClusterOf, k, p);
    }
  }

  /** Each dataset keeps the input order: the dataset built from a
      concatenation is the concatenation of the datasets of the parts. */
  lemma {:induction false} DataSetKeepsOrder(a: seq<PcaPoint>, b: seq<PcaPoint>, k: int)
    ensures ToPoints(ClusterMembers(a + b, k)) == ToPoints(ClusterMembers(a, k)) + ToPoints(ClusterMembers(b, k))
  {
    GroupAppend(a, b, ClusterOf, k);
    ToPointsAppend(ClusterMembers(a, k), ClusterMembers(b, k));
  }

  lemma {:induction false} ToPointsAppend(a: seq<PcaPoint>, b: seq<PcaPoint>)
    ensures ToPoints(a + b) == ToPoints(a) + ToPoints(b)
  {
    if b == [] {
      assert a + b == a;
    } else {
      ToPointsAppend(a, b[..|b| - 1]);
      assert (a + b)[..|a + b| - 1] == a + b[..|b| - 1];
    }
  }

  /** The number of points drawn in some datasets. */
  function PointCount(ds: seq<Dataset>): nat
  {
    if ds == [] then 0 else PointCount(ds[..|ds| - 1]) + |ds[|ds| - 1].data|
  }

  /** The datasets together draw one point per input point whose cluster is
      one of 0, ..., nClusters - 1: nothing lost and nothing drawn twice. */
  lemma DataSetsCoverInRange(pcaData: seq<PcaPoint>, nClusters: int)
    ensures PointCount(DataSets(pcaData, nClusters)) == |InRange(pcaData, ClusterOf, nClusters)|
  {
    var ds := DataSets(pcaData, nClusters);
    PrefixPointCount(pcaData, nClusters, |ds|);
    assert ds[..|ds|] == ds;
    TotalSizeIsInRange(pcaData, ClusterOf, nClusters);
    if nClusters <= 0 {
      TotalSizeIsInRange(pcaData, ClusterOf, 0);
      assert TotalSize(pcaData, ClusterOf, nClusters) == 0;
    }
  }

  lemma {:induction false} PrefixPointCount(pcaData: seq<PcaPoint>, nClusters: int, k: nat)
    requires k <= Max(0, nClusters)
    ensures PointCount(DataSets(pcaData, nClusters)[..k]) == TotalSize(pcaData, ClusterOf, k)
  {
    var ds := DataSets(pcaData, nClusters);
    if k > 0 {
      PrefixPointCount(pcaData, nClusters, k - 1);
      assert ds[..k][..k - 1] == ds[..k - 1];
    }
  }
}
