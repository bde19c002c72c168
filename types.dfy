/**
 * The shapes of the data the backend returns (client/src/utils/types), as far
 * as the client logic reads them.
 */
module Types {
  import opened Js

  /** A numeric movie attribute as JavaScript sees it at run time: a number,
      the NaN number, or null/undefined. */
  datatype Value = Number(x: real) | NaN | Null

  /** One clustered movie (`movies_with_cluster` entries, and MovieDetail in the
      box plots, where the cluster and the attributes may be missing). */
  datatype MovieDetail = MovieDetail(
    id: int,
    title: string,
    cluster: Option<int>,
    voteAverage: Value,
    voteCount: Value,
    popularity: Value,
    budget: Value,
    revenue: Value,
    runtime: Value)

  /** The cluster a movie is compared by (`movie.cluster`). */
  function MovieCluster(m: MovieDetail): Option<int>
  {
    m.cluster
  }

  /** One point of the two-component PCA projection. */
  datatype PcaPoint = PcaPoint(cluster: int, pc1: real, pc2: real)

  /** One row of a cluster summary (its means are display-only). */
  datatype ClusterSummary = ClusterSummary(cluster: int, movieCount: int, dominantGenre: string)

  datatype KMeansResult = KMeansResult(
    nClusters: int,
    clusterSummary: seq<ClusterSummary>,
    moviesWithCluster: seq<MovieDetail>,
    pcaData: seq<PcaPoint>)

  datatype DBScanResult = DBScanResult(
    nClusters: int,
    noisePoints: int,
    clusterSummary: seq<ClusterSummary>,
    eps: real,
    minSamples: int,
    moviesWithCluster: seq<MovieDetail>,
    pcaData: seq<PcaPoint>)

  /** One movie of the listing (IMovie). */
  datatype Movie = Movie(
    id: int,
    title: string,
    releaseDate: Option<string>,
    voteAverage: real,
    voteCount: int,
    popularity: real,
    budget: real,
    revenue: real,
    runtime: Option<nat>,
    genres: string,
    spokenLanguages: string)

  /** One page of the listing endpoint's answer (IMovieListResponse). */
  datatype MovieListResponse = MovieListResponse(
    totalCount: int,
    page: int,
    limit: int,
    next: bool,
    results: seq<Movie>)
}
