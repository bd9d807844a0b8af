/** The ranking engine of logic/search_engine.py: the lazily loaded catalog,
    the brute-force catalog search, the re-ranking of remote candidates and
    the two converters from parameter objects to (target, weight) vectors. */
module SearchEngine {
  import opened Wrappers
  import opened ModelConsts
  import opened Sorting
  import opened Distance
  import AI = AiRecommendationParams
  import LQ = LocalSearchQuery

  const MAX_TEMPO: real := 250.0
  const MAX_POPULARITY: real := 100.0

  /** `search_local`'s default `top_n`. */
  const DEFAULT_TOP_N: int := 20

  // ---------------------------------------------------------------------
  // Catalog matrix and the batched distance
  // ---------------------------------------------------------------------

  /** A dense feature matrix: every row has `width` entries. */
  datatype Matrix = Matrix(width: nat, rows: seq<seq<real>>) {
    ghost predicate Valid() {
      forall i :: 0 <= i < |rows| ==> |rows[i]| == width
    }
  }

  /** `x - t`, element by element. */
  function RowDiff(x: seq<real>, t: seq<real>): (r: seq<real>)
    requires |x| == |t|
    ensures |r| == |x|
  {
    if x == [] then [] else [x[0] - t[0]] + RowDiff(x[1..], t[1..])
  }

  /** `w * diff ** 2`, element by element. */
  function RowWeightedSquares(diff: seq<real>, w: seq<real>): (r: seq<real>)
    requires |diff| == |w|
    ensures |r| == |w|
  {
    if diff == [] then [] else [w[0] * Sq(diff[0])] + RowWeightedSquares(diff[1..], w[1..])
  }

  /** `features_matrix - target_vector`, the target broadcast over rows. */
  function Diff(rows: seq<seq<real>>, t: seq<real>): (r: seq<seq<real>>)
    requires forall i :: 0 <= i < |rows| ==> |rows[i]| == |t|
    ensures |r| == |rows| && forall i :: 0 <= i < |r| ==> r[i] == RowDiff(rows[i], t)
  {
    seq(|rows|, i requires 0 <= i < |rows| => RowDiff(rows[i], t))
  }

  /** `weights_vector * squared_diff`, the weights broadcast over rows. */
  function WeightedSquares(diff: seq<seq<real>>, w: seq<real>): (r: seq<seq<real>>)
    requires forall i :: 0 <= i < |diff| ==> |diff[i]| == |w|
    ensures |r| == |diff| && forall i :: 0 <= i < |r| ==> r[i] == RowWeightedSquares(diff[i], w)
  {
    seq(|diff|, i requires 0 <= i < |diff| => RowWeightedSquares(diff[i], w))
  }

  function Sum(s: seq<real>): real {
    if s == [] then 0.0 else s[0] + Sum(s[1..])
  }

  /** `np.sqrt(np.sum(m, axis=1))`. */
  function RootOfRowSums(m: seq<seq<real>>, root: real -> real): (r: seq<real>)
    ensures |r| == |m| && forall i :: 0 <= i < |m| ==> r[i] == root(Sum(m[i]))
  {
    seq(|m|, i requires 0 <= i < |m| => root(Sum(m[i])))
  }

  /** The vectorised distance computation of `search_local`: the batched
      form scores every row exactly as the row-wise formula does. */
  function Distances(m: Matrix, t: seq<real>, w: seq<real>, root: real -> real): (d: seq<real>)
    requires m.Valid() && |t| == |w| == m.width
    ensures |d| == |m.rows|
    ensures forall i :: 0 <= i < |d| ==> d[i] == WeightedDistance(m.rows[i], t, w, root)
  {
    var d := RootOfRowSums(WeightedSquares(Diff(m.rows, t), w), root);
    assert forall i :: 0 <= i < |d| ==> d[i] == WeightedDistance(m.rows[i], t, w, root) by {
      forall i | 0 <= i < |d| ensures d[i] == WeightedDistance(m.rows[i], t, w, root) {
        RowSumIsWeightedSquaredSum(m.rows[i], t, w);
      }
    }
    d
  }

  /** Summing one row of the batched computation gives the row-wise sum. */
  lemma {:induction false} RowSumIsWeightedSquaredSum(x: seq<real>, t: seq<real>, w: seq<real>)
    requires |x| == |t| == |w|
    ensures Sum(RowWeightedSquares(RowDiff(x, t), w)) == WeightedSquaredSum(x, t, w)
  {
    if x != [] {
      RowSumIsWeightedSquaredSum(x[1..], t[1..], w[1..]);
    }
  }

  // ---------------------------------------------------------------------
  // Argsort and top-n selection
  // ---------------------------------------------------------------------

  function IndexKey(d: seq<real>): nat -> real {
    (i: nat) => if i < |d| then d[i] else 0.0
  }

  /** `np.argsort(d)`: every index once, in ascending order of d. */
  function ArgSort(d: seq<real>): (idx: seq<nat>)
    ensures |idx| == |d|
    ensures forall a :: 0 <= a < |idx| ==> idx[a] < |d|
    ensures forall j :: 0 <= j < |d| ==> j in idx
    ensures forall a, b :: 0 <= a < b < |idx| ==> idx[a] != idx[b]
    ensures forall a, b :: 0 <= a < b < |idx| ==> d[idx[a]] <= d[idx[b]]
  {
    var idx := SortBy<nat>(Range(|d|), IndexKey(d));
    assert forall a :: 0 <= a < |idx| ==> idx[a] < |d| by {
      forall a | 0 <= a < |idx| ensures idx[a] < |d| {
        assert idx[a] in multiset(Range(|d|));
        RangeMultiset(|d|, idx[a]);
      }
    }
    assert forall j :: 0 <= j < |d| ==> j in idx by {
      forall j | 0 <= j < |d| ensures j in idx {
        RangeMultiset(|d|, j);
        assert j in multiset(idx);
      }
    }
    assert forall a, b :: 0 <= a < b < |idx| ==> idx[a] != idx[b] by {
      forall a, b | 0 <= a < b < |idx| ensures idx[a] != idx[b] {
        if idx[a] == idx[b] {
          RepeatedCount(idx, a, b);
          RangeMultiset(|d|, idx[a]);
          assert false;
        }
      }
    }
    idx
  }

  /** The length of `s[:top_n]` for a sequence of length n, negative
      `top_n` counting from the end as Python slicing does. */
  function SliceLength(n: nat, topN: int): (k: nat)
    ensures k <= n
    ensures 0 <= topN ==> k == if topN < n then topN else n
    ensures topN < 0 ==> k == if n + topN > 0 then n + topN else 0
  {
    if 0 <= topN then (if topN < n then topN else n)
    else if n + topN > 0 then n + topN else 0
  }

  /** `np.argsort(d)[:top_n]`: distinct indices in ascending order of d,
      and no index left out has a smaller value than one kept. */
  function TopIndices(d: seq<real>, topN: int): (order: seq<nat>)
    ensures |order| == SliceLength(|d|, topN)
    ensures forall k :: 0 <= k < |order| ==> order[k] < |d|
    ensures forall a, b :: 0 <= a < b < |order| ==> order[a] != order[b]
    ensures forall a, b :: 0 <= a < b < |order| ==> d[order[a]] <= d[order[b]]
    ensures forall j, k :: 0 <= j < |d| && j !in order && 0 <= k < |order| ==> d[order[k]] <= d[j]
  {
    var all := ArgSort(d);
    var order := all[..SliceLength(|d|, topN)];
    assert forall j, k :: 0 <= j < |d| && j !in order && 0 <= k < |order| ==> d[order[k]] <= d[j] by {
      forall j, k | 0 <= j < |d| && j !in order && 0 <= k < |order| ensures d[order[k]] <= d[j] {
        assert j in all;
        var p :| 0 <= p < |all| && all[p] == j;
      }
    }
    order
  }

  /** One result row: the metadata row, its position in the catalog (the
      frame index pandas keeps) and its distance. */
  datatype ScoredRow<M> = ScoredRow(meta: M, index: nat, score: real)

  datatype SearchError =
    | MetadataMissing      // meta_df is None: attribute access fails
    | MetadataRowMissing   // iloc with a position past the metadata

  /** `meta_df.iloc[order]` with the `score` column taken from `d` at the
      same positions. */
  function Rows<M>(meta: seq<M>, d: seq<real>, order: seq<nat>): (rows: seq<ScoredRow<M>>)
    requires forall k :: 0 <= k < |order| ==> order[k] < |meta| && order[k] < |d|
    ensures |rows| == |order|
    ensures forall k :: 0 <= k < |rows| ==> rows[k] == ScoredRow(meta[order[k]], order[k], d[order[k]])
  {
    seq(|order|, k requires 0 <= k < |order| => ScoredRow(meta[order[k]], order[k], d[order[k]]))
  }

  /** Sort the distances, keep the `top_n` prefix, and read metadata and
      score by the same index; a kept index past the metadata fails. */
  function RankRows<M>(meta: seq<M>, d: seq<real>, topN: int): (r: Result<seq<ScoredRow<M>>, SearchError>)
    ensures |d| <= |meta| ==> r.Success?
    ensures r.Failure? ==> r.error == MetadataRowMissing && |meta| < |d|
    ensures r.Success? ==> |r.value| == SliceLength(|d|, topN)
    ensures r.Success? ==> forall k :: 0 <= k < |r.value| ==>
      && r.value[k].index < |d| && r.value[k].index < |meta|
      && r.value[k].meta == meta[r.value[k].index]
      && r.value[k].score == d[r.value[k].index]
    ensures r.Success? ==> forall a, b :: 0 <= a < b < |r.value| ==>
      r.value[a].score <= r.value[b].score && r.value[a].index != r.value[b].index
    ensures r.Success? ==> forall j, k :: 0 <= j < |d| && 0 <= k < |r.value| && !Selected(r.value, j) ==>
      r.value[k].score <= d[j]
  {
    var order := TopIndices(d, topN);
    if exists k :: 0 <= k < |order| && order[k] >= |meta| then
      assert |meta| < |d|;
      Failure(MetadataRowMissing)
    else
      var rows := Rows(meta, d, order);
      assert forall j :: 0 <= j < |d| && !Selected(rows, j) ==> j !in order by {
        forall j | 0 <= j < |d| && j in order ensures Selected(rows, j) {
          var k :| 0 <= k < |order| && order[k] == j;
          assert rows[k].index == j;
        }
      }
      Success(rows)
  }

  /** `search_local` once the matrix is loaded: the rows ranked by their
      weighted distance to the target. */
  function SearchLoaded<M>(m: Matrix, meta: Option<seq<M>>, t: seq<real>, w: seq<real>,
                           topN: int, root: real -> real): (r: Result<seq<ScoredRow<M>>, SearchError>)
    requires m.Valid() && |t| == |w| == m.width
    ensures meta.None? ==> r == Failure(MetadataMissing)
    ensures meta.Some? && |m.rows| <= |meta.value| ==> r.Success?
    ensures r.Failure? ==> meta.None? || |meta.value| < |m.rows|
    ensures r.Success? ==> meta.Some? && |r.value| == SliceLength(|m.rows|, topN)
    ensures r.Success? ==> forall k :: 0 <= k < |r.value| ==>
      && r.value[k].index < |m.rows| && r.value[k].index < |meta.value|
      && r.value[k].meta == meta.value[r.value[k].index]
      && r.value[k].score == WeightedDistance(m.rows[r.value[k].index], t, w, root)
    ensures r.Success? ==> forall a, b :: 0 <= a < b < |r.value| ==>
      r.value[a].score <= r.value[b].score && r.value[a].index != r.value[b].index
    ensures r.Success? ==> forall j, k :: 0 <= j < |m.rows| && 0 <= k < |r.value| && !Selected(r.value, j) ==>
      r.value[k].score <= WeightedDistance(m.rows[j], t, w, root)
  {
    if meta.None? then Failure(MetadataMissing)
    else RankRows(meta.value, Distances(m, t, w, root), topN)
  }

  /** The ranking fails exactly when a selected index has no metadata row. */
  lemma RankRowsFails<M>(meta: seq<M>, d: seq<real>, topN: int)
    ensures RankRows(meta, d, topN).Failure? <==> exists i :: i in TopIndices(d, topN) && i >= |meta|
  {
    var order := TopIndices(d, topN);
    if exists i :: i in order && i >= |meta| {
      var i :| i in order && i >= |meta|;
      var k :| 0 <= k < |order| && order[k] == i;
    }
  }

  /** The search fails exactly when the metadata is missing or a selected
      catalog row has no metadata row. */
  lemma SearchLoadedFails<M>(m: Matrix, meta: Option<seq<M>>, t: seq<real>, w: seq<real>,
                             topN: int, root: real -> real)
    requires m.Valid() && |t| == |w| == m.width
    ensures SearchLoaded(m, meta, t, w, topN, root).Failure? <==>
      meta.None? || exists i :: i in TopIndices(Distances(m, t, w, root), topN) && i >= |meta.value|
  {
    if meta.Some? {
      RankRowsFails(meta.value, Distances(m, t, w, root), topN);
    }
  }

  /** Row j of the catalog is among the results. */
  predicate Selected<M>(rows: seq<ScoredRow<M>>, j: nat) {
    exists k :: 0 <= k < |rows| && rows[k].index == j
  }

  /** With positive weights, a row that equals the target and is the only
      such row comes first with score 0. */
  lemma ExactMatchRanksFirst<M>(m: Matrix, meta: seq<M>, t: seq<real>, w: seq<real>, root: real -> real, j: nat)
    requires m.Valid() && |t| == |w| == m.width && |m.rows| <= |meta|
    requires IsSqrt(root)
    requires forall i :: 0 <= i < |w| ==> 0.0 < w[i]
    requires j < |m.rows| && m.rows[j] == t
    requires forall i :: 0 <= i < |m.rows| && i != j ==> m.rows[i] != t
    ensures SearchLoaded(m, Some(meta), t, w, 1, root) == Success([ScoredRow(meta[j], j, 0.0)])
  {
    var r := SearchLoaded(m, Some(meta), t, w, 1, root);
    assert |r.value| == 1;
    var first := r.value[0];
    SumZeroAtTarget(t, w);
    assert WeightedDistance(m.rows[j], t, w, root) == 0.0;
    if first.index != j {
      assert !Selected(r.value, j);
      assert first.score <= 0.0;
      SumPositive(m.rows[first.index], t, w);
      assert false;
    }
    assert r.value == [ScoredRow(meta[j], j, 0.0)];
  }

  /** With positive weights, any difference from the target costs. */
  lemma {:induction false} SumPositive(x: seq<real>, t: seq<real>, w: seq<real>)
    requires |x| == |t| == |w|
    requires forall i :: 0 <= i < |w| ==> 0.0 < w[i]
    requires x != t
    ensures 0.0 < WeightedSquaredSum(x, t, w)
  {
    SumNonNegative(x[1..], t[1..], w[1..]);
    SqNonNegative(x[0] - t[0]);
    if x[0] != t[0] {
      SqPositive(x[0] - t[0]);
      MulPositive(w[0], Sq(x[0] - t[0]));
    } else {
      assert x[1..] != t[1..];
      SumPositive(x[1..], t[1..], w[1..]);
      assert 0.0 <= w[0] * Sq(x[0] - t[0]);
    }
  }

  // ---------------------------------------------------------------------
  // The engine object and its lazy load
  // ---------------------------------------------------------------------

  /** What one attempt to read the two catalog files produced. */
  datatype LoadOutcome<M> =
    | FilesMissing                         // one of the two paths does not exist
    | MatrixUnreadable                     // np.load raised
    | MetadataUnreadable(matrix: Matrix)   // np.load succeeded, pd.read_csv raised
    | BothLoaded(matrix: Matrix, meta: seq<M>)
  {
    ghost predicate Valid() {
      (MetadataUnreadable? || BothLoaded?) ==> matrix.Valid()
    }
  }

  class LocalSearchEngine<M> {
    var featuresMatrix: Option<Matrix>
    var metaDf: Option<seq<M>>
    var isLoaded: bool

    /** The flag is set exactly when the metadata was read, which happens
        only after the matrix was read; a loaded matrix is rectangular. */
    ghost predicate Valid()
      reads this
    {
      && (isLoaded <==> metaDf.Some?)
      && (metaDf.Some? ==> featuresMatrix.Some?)
      && (featuresMatrix.Some? ==> featuresMatrix.value.Valid())
    }

    constructor ()
      ensures Valid()
      ensures featuresMatrix.None? && metaDf.None? && !isLoaded
    {
      featuresMatrix := None;
      metaDf := None;
      isLoaded := false;
    }

    /** `_load_data_if_needed`: nothing once loaded; otherwise the fields
        record how far the read got, and the flag is set only when both
        files were read. */
    method LoadDataIfNeeded(outcome: LoadOutcome<M>)
      requires Valid() && outcome.Valid()
      modifies this
      ensures Valid()
      ensures old(isLoaded) ==> unchanged(this)
      ensures !old(isLoaded) && (outcome.FilesMissing? || outcome.MatrixUnreadable?) ==> unchanged(this)
      ensures !old(isLoaded) && outcome.MetadataUnreadable? ==>
        featuresMatrix == Some(outcome.matrix) && metaDf.None? && !isLoaded
      ensures !old(isLoaded) && outcome.BothLoaded? ==>
        featuresMatrix == Some(outcome.matrix) && metaDf == Some(outcome.meta) && isLoaded
      ensures isLoaded <==> old(isLoaded) || outcome.BothLoaded?
      ensures featuresMatrix == old(featuresMatrix) ||
        ((outcome.MetadataUnreadable? || outcome.BothLoaded?) && featuresMatrix == Some(outcome.matrix))
    {
      if isLoaded {
        return;
      }
      match outcome
      case FilesMissing =>
      case MatrixUnreadable =>
      case MetadataUnreadable(matrix) =>
        featuresMatrix := Some(matrix);
      case BothLoaded(matrix, meta) =>
        featuresMatrix := Some(matrix);
        metaDf := Some(meta);
        isLoaded := true;
    }

    /** `search_local`: load if needed, then an empty result without a
        matrix, otherwise the ranking of the loaded catalog. */
    method SearchLocal(outcome: LoadOutcome<M>, t: seq<real>, w: seq<real>, root: real -> real, topN: int := DEFAULT_TOP_N)
      returns (r: Result<seq<ScoredRow<M>>, SearchError>)
      requires Valid() && outcome.Valid()
      requires |t| == |w|
      requires featuresMatrix.Some? ==> featuresMatrix.value.width == |t|
      requires (outcome.MetadataUnreadable? || outcome.BothLoaded?) ==> outcome.matrix.width == |t|
      modifies this
      ensures Valid()
      ensures isLoaded <==> old(isLoaded) || outcome.BothLoaded?
      ensures old(isLoaded) ==> unchanged(this)
      ensures !old(isLoaded) && (outcome.FilesMissing? || outcome.MatrixUnreadable?) ==> unchanged(this)
      ensures !old(isLoaded) && outcome.MetadataUnreadable? ==>
        featuresMatrix == Some(outcome.matrix) && metaDf.None? && !isLoaded
      ensures !old(isLoaded) && outcome.BothLoaded? ==>
        featuresMatrix == Some(outcome.matrix) && metaDf == Some(outcome.meta) && isLoaded
      ensures featuresMatrix.Some? ==> featuresMatrix.value.width == |t|
      ensures featuresMatrix.None? ==> r == Success([])
      ensures featuresMatrix.Some? ==> r == SearchLoaded(featuresMatrix.value, metaDf, t, w, topN, root)
    {
      LoadDataIfNeeded(outcome);
      if featuresMatrix.None? {
        return Success([]);
      }
      r := SearchLoaded(featuresMatrix.value, metaDf, t, w, topN, root);
    }
  }

  // ---------------------------------------------------------------------
  // Re-ranking remote candidates
  // ---------------------------------------------------------------------

  const MATCH_SCORE: string := "match_score"

  /** The eight track fields read by `rank_remote_tracks`, in vector order,
      and the divisor each is normalised by. */
  const REMOTE_ORDER: seq<string> :=
    ["danceability", "energy", "valence", "speechiness",
     "acousticness", "instrumentalness", "tempo", "popularity"]
  const REMOTE_SCALE: seq<real> := [1.0, 1.0, 1.0, 1.0, 1.0, 1.0, MAX_TEMPO, MAX_POPULARITY]

  /** `np.clip(x, 0.0, 1.0)` on one element. */
  function Clip(x: real): (r: real)
    ensures 0.0 <= r <= 1.0
    ensures 0.0 <= x <= 1.0 ==> r == x
    ensures x < 0.0 ==> r == 0.0
    ensures 1.0 < x ==> r == 1.0
  {
    if x < 0.0 then 0.0 else if 1.0 < x then 1.0 else x
  }

  /** `track.get(key, 0)`. */
  function GetOrZero(fields: map<string, real>, key: string): real {
    if key in fields then fields[key] else 0.0
  }

  /** The clipped feature vector of one remote track. */
  function RemoteVector(fields: map<string, real>): (v: seq<real>)
    ensures |v| == |REMOTE_ORDER|
    ensures forall i :: 0 <= i < |v| ==> v[i] == Clip(GetOrZero(fields, REMOTE_ORDER[i]) / REMOTE_SCALE[i])
    ensures forall i :: 0 <= i < |v| ==> 0.0 <= v[i] <= 1.0
    ensures forall i :: 0 <= i < |v| && REMOTE_ORDER[i] !in fields ==> v[i] == 0.0
  {
    var raw := [
      GetOrZero(fields, "danceability"),
      GetOrZero(fields, "energy"),
      GetOrZero(fields, "valence"),
      GetOrZero(fields, "speechiness"),
      GetOrZero(fields, "acousticness"),
      GetOrZero(fields, "instrumentalness"),
      GetOrZero(fields, "tempo") / MAX_TEMPO,
      GetOrZero(fields, "popularity") / MAX_POPULARITY];
    seq(|raw|, i requires 0 <= i < |raw| => Clip(raw[i]))
  }

  /** Writing the score does not change the vector a track is scored by. */
  lemma RemoteVectorIgnoresScore(fields: map<string, real>, score: real)
    ensures RemoteVector(fields[MATCH_SCORE := score]) == RemoteVector(fields)
  {
    var v, v' := RemoteVector(fields), RemoteVector(fields[MATCH_SCORE := score]);
    forall i | 0 <= i < |v| ensures v'[i] == v[i] {
      assert REMOTE_ORDER[i] != MATCH_SCORE;
    }
  }

  /** The distance `rank_remote_tracks` stores in a track. */
  function RemoteScore(fields: map<string, real>, t: seq<real>, w: seq<real>, root: real -> real): real
    requires |t| == |REMOTE_ORDER| && |w| == |REMOTE_ORDER|
  {
    WeightedDistance(RemoteVector(fields), t, w, root)
  }

  /** A remote track: a dictionary the ranking writes into. Only the numeric
      entries are modelled. */
  class Track {
    var fields: map<string, real>

    constructor (fields: map<string, real>)
      ensures this.fields == fields
    {
      this.fields := fields;
    }
  }

  /** `track['match_score']`, read as `get` with default 0. */
  function MatchScore(tr: Track): real
    reads tr
  {
    GetOrZero(tr.fields, MATCH_SCORE)
  }

  /** The tracks of s whose score is v, in their order in s. */
  function WithScore(s: seq<Track>, v: real): seq<Track>
    reads s
  {
    if s == [] then []
    else if MatchScore(s[0]) == v then [s[0]] + WithScore(s[1..], v)
    else WithScore(s[1..], v)
  }

  lemma {:induction false} WithKeyIsWithScore(s: seq<Track>, key: Track -> real, v: real)
    requires forall i :: 0 <= i < |s| ==> key(s[i]) == MatchScore(s[i])
    ensures WithKey(s, key, v) == WithScore(s, v)
  {
    if s != [] {
      WithKeyIsWithScore(s[1..], key, v);
    }
  }

  /** `rank_remote_tracks`: every track gets its distance to the target
      written under `match_score`, and the tracks come back sorted by it,
      ties in input order. */
  method RankRemoteTracks(tracks: seq<Track>, t: seq<real>, w: seq<real>, root: real -> real)
    returns (ranked: seq<Track>)
    requires |t| == |REMOTE_ORDER| && |w| == |REMOTE_ORDER|
    modifies set tr | tr in tracks
    ensures forall tr :: tr in tracks ==>
      tr.fields == old(tr.fields)[MATCH_SCORE := RemoteScore(old(tr.fields), t, w, root)]
    ensures multiset(ranked) == multiset(tracks)
    ensures forall i, j :: 0 <= i < j < |ranked| ==> MatchScore(ranked[i]) <= MatchScore(ranked[j])
    ensures forall v :: WithScore(ranked, v) == WithScore(tracks, v)
  {
    if |tracks| == 0 {
      return [];
    }
    ScoreTracks(tracks, t, w, root);
    ranked := SortByScore(tracks);
  }

  /** The loop of `rank_remote_tracks`. A track listed twice is scored from
      the same features both times, since the score is not one of them. */
  method ScoreTracks(tracks: seq<Track>, t: seq<real>, w: seq<real>, root: real -> real)
    requires |t| == |REMOTE_ORDER| && |w| == |REMOTE_ORDER|
    modifies set tr | tr in tracks
    ensures forall tr :: tr in tracks ==>
      tr.fields == old(tr.fields)[MATCH_SCORE := RemoteScore(old(tr.fields), t, w, root)]
  {
    for i := 0 to |tracks|
      invariant forall tr :: tr in tracks[..i] ==>
        tr.fields == old(tr.fields)[MATCH_SCORE := RemoteScore(old(tr.fields), t, w, root)]
      invariant forall tr :: tr in tracks && tr !in tracks[..i] ==> tr.fields == old(tr.fields)
    {
      var track := tracks[i];
      RemoteVectorIgnoresScore(old(track.fields), RemoteScore(old(track.fields), t, w, root));
      var trackVec := RemoteVector(track.fields);
      var dist := root(WeightedSquaredSum(trackVec, t, w));
      track.fields := track.fields[MATCH_SCORE := dist];
      assert tracks[..i + 1] == tracks[..i] + [track];
    }
    assert tracks[..|tracks|] == tracks;
  }

  /** The sort key: a snapshot of the scores. */
  function KeyOf(scores: map<Track, real>): Track -> real {
    (tr: Track) => if tr in scores then scores[tr] else 0.0
  }

  /** `ranked_tracks.sort(key=lambda x: x['match_score'])`: a stable sort
      by score, which changes no track. */
  method SortByScore(tracks: seq<Track>) returns (ranked: seq<Track>)
    ensures multiset(ranked) == multiset(tracks)
    ensures forall i, j :: 0 <= i < j < |ranked| ==> MatchScore(ranked[i]) <= MatchScore(ranked[j])
    ensures forall v :: WithScore(ranked, v) == WithScore(tracks, v)
  {
    var scores := map tr | tr in tracks :: MatchScore(tr);
    ranked := SortBy(tracks, KeyOf(scores));
    SortedByScore(tracks, scores);
  }

  /** On the sorted tracks the snapshot key is the score. */
  lemma KeyOfSortedIsScore(tracks: seq<Track>, scores: map<Track, real>)
    requires forall tr :: tr in tracks ==> tr in scores && scores[tr] == MatchScore(tr)
    ensures forall i :: 0 <= i < |SortBy(tracks, KeyOf(scores))| ==>
      KeyOf(scores)(SortBy(tracks, KeyOf(scores))[i]) == MatchScore(SortBy(tracks, KeyOf(scores))[i])
  {
    var ranked := SortBy(tracks, KeyOf(scores));
    forall i | 0 <= i < |ranked| ensures KeyOf(scores)(ranked[i]) == MatchScore(ranked[i]) {
      assert ranked[i] in multiset(tracks);
    }
  }

  /** Sorting by the snapshot sorts by score and keeps ties in order. */
  lemma SortedByScore(tracks: seq<Track>, scores: map<Track, real>)
    requires forall tr :: tr in tracks ==> tr in scores && scores[tr] == MatchScore(tr)
    ensures forall i, j :: 0 <= i < j < |SortBy(tracks, KeyOf(scores))| ==>
      MatchScore(SortBy(tracks, KeyOf(scores))[i]) <= MatchScore(SortBy(tracks, KeyOf(scores))[j])
    ensures forall v :: WithScore(SortBy(tracks, KeyOf(scores)), v) == WithScore(tracks, v)
  {
    var key := KeyOf(scores);
    var ranked := SortBy(tracks, key);
    KeyOfSortedIsScore(tracks, scores);
    assert SortedBy(ranked, key);
    assert forall i :: 0 <= i < |tracks| ==> key(tracks[i]) == MatchScore(tracks[i]);
    forall v ensures WithScore(ranked, v) == WithScore(tracks, v) {
      SortByIsStable(tracks, key, v);
      WithKeyIsWithScore(ranked, key, v);
      WithKeyIsWithScore(tracks, key, v);
    }
  }

  // ---------------------------------------------------------------------
  // Converters from parameter objects to (target, weight) vectors
  // ---------------------------------------------------------------------

  /** What pipeline 1 divides each FEATURE_ORDER entry by. */
  function V1Scale(name: string): real {
    if name == "tempo" then MAX_TEMPO
    else if name == "popularity" then MAX_POPULARITY
    else 1.0
  }

  /** `convert_v1_to_vectors`: a given feature becomes its normalised value
      with mask 1, a missing one 0 with mask 0; valid parameters give
      targets in [0, 1]. */
  method ConvertV1ToVectors(p: AI.AIRecommendationParams) returns (targets: seq<real>, mask: seq<real>)
    ensures |targets| == |FEATURE_ORDER| && |mask| == |FEATURE_ORDER|
    ensures forall i :: 0 <= i < |FEATURE_ORDER| ==>
      (mask[i] == 1.0 <==> p.Feature(FEATURE_ORDER[i]).Some?) &&
      (mask[i] == 0.0 <==> p.Feature(FEATURE_ORDER[i]).None?)
    ensures forall i :: 0 <= i < |FEATURE_ORDER| && p.Feature(FEATURE_ORDER[i]).Some? ==>
      targets[i] == p.Feature(FEATURE_ORDER[i]).value / V1Scale(FEATURE_ORDER[i])
    ensures forall i :: 0 <= i < |FEATURE_ORDER| && p.Feature(FEATURE_ORDER[i]).None? ==> targets[i] == 0.0
    ensures p.Valid() ==> forall i :: 0 <= i < |targets| ==> 0.0 <= targets[i] <= 1.0
  {
    targets, mask := [], [];
    for i := 0 to |FEATURE_ORDER|
      invariant |targets| == i && |mask| == i
      invariant forall k :: 0 <= k < i ==>
        (mask[k] == 1.0 <==> p.Feature(FEATURE_ORDER[k]).Some?) &&
        (mask[k] == 0.0 <==> p.Feature(FEATURE_ORDER[k]).None?)
      invariant forall k :: 0 <= k < i && p.Feature(FEATURE_ORDER[k]).Some? ==>
        targets[k] == p.Feature(FEATURE_ORDER[k]).value / V1Scale(FEATURE_ORDER[k])
      invariant forall k :: 0 <= k < i && p.Feature(FEATURE_ORDER[k]).None? ==> targets[k] == 0.0
      invariant p.Valid() ==> forall k :: 0 <= k < i ==> 0.0 <= targets[k] <= 1.0
    {
      var featureName := FEATURE_ORDER[i];
      var val := p.Feature(featureName);
      if val.Some? {
        mask := mask + [1.0];
        if featureName == "tempo" {
          targets := targets + [val.value / MAX_TEMPO];
        } else if featureName == "popularity" {
          targets := targets + [val.value / MAX_POPULARITY];
        } else {
          targets := targets + [val.value];
        }
      } else {
        mask := mask + [0.0];
        targets := targets + [0.0];
      }
    }
  }

  /** The target of an axis the query leaves out; its weight is 0. */
  const NEUTRAL_TARGET: real := 0.5

  /** `convert_v2_to_vectors`: a given feature contributes its own value and
      weight, a missing one the neutral target with weight 0; valid
      parameters give targets in [0, 1] and weights in [0, 5]. */
  method ConvertV2ToVectors(p: LQ.LocalSearchQueryParams) returns (targets: seq<real>, weights: seq<real>)
    ensures |targets| == |FEATURE_ORDER| && |weights| == |FEATURE_ORDER|
    ensures forall i :: 0 <= i < |FEATURE_ORDER| && p.Feature(FEATURE_ORDER[i]).Some? ==>
      targets[i] == p.Feature(FEATURE_ORDER[i]).value.value &&
      weights[i] == p.Feature(FEATURE_ORDER[i]).value.weight
    ensures forall i :: 0 <= i < |FEATURE_ORDER| && p.Feature(FEATURE_ORDER[i]).None? ==>
      targets[i] == NEUTRAL_TARGET && weights[i] == 0.0
    ensures p.Valid() ==> forall i :: 0 <= i < |FEATURE_ORDER| ==>
      0.0 <= targets[i] <= 1.0 && 0.0 <= weights[i] <= 5.0
  {
    targets, weights := [], [];
    for i := 0 to |FEATURE_ORDER|
      invariant |targets| == i && |weights| == i
      invariant forall k :: 0 <= k < i && p.Feature(FEATURE_ORDER[k]).Some? ==>
        targets[k] == p.Feature(FEATURE_ORDER[k]).value.value &&
        weights[k] == p.Feature(FEATURE_ORDER[k]).value.weight
      invariant forall k :: 0 <= k < i && p.Feature(FEATURE_ORDER[k]).None? ==>
        targets[k] == NEUTRAL_TARGET && weights[k] == 0.0
    {
      var featureObj := p.Feature(FEATURE_ORDER[i]);
      if featureObj.Some? {
        targets := targets + [featureObj.value.value];
        weights := weights + [featureObj.value.weight];
      } else {
        targets := targets + [NEUTRAL_TARGET];
        weights := weights + [0.0];
      }
    }
  }
}
