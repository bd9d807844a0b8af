# Promptify ranking core in Dafny

Promptify turns a free-text mood prompt into a playlist. A language model
fills in one of several parameter objects. These are target audio features,
optionally with weights, and seed tracks. The ranking core then turns that
object into a target vector and a weight vector. It scores songs by weighted
Euclidean distance and returns the closest ones.

This project models that core:

- **`LocalSearchEngine`** (`search_engine.dfy`, module `SearchEngine`):
  - the lazy load of the catalog (a feature matrix plus a parallel metadata
    table);
  - the batched distance over every catalog row, `argsort` and the `top_n`
    slice;
  - the in-place scoring and stable re-sorting of remote candidate tracks;
  - the two converters from parameter objects to (target, weight) vectors.
- **Parameter objects**:
  - `data_class/recommendation_params.py`: seeds, audio features, weights,
    `get_search_data` and `to_query_params`. Modelled in
    `recommendation_params.dfy`, module `RecommendationParams`.
  - `recommendation_params.py` at the repository root: the first
    pipeline's single-seed model. Modelled in
    `ai_recommendation_params.dfy`, module `AiRecommendationParams`.
  - `data_class/local_search_params.py`: the weighted query. Modelled in
    `local_search_params.dfy`, module `LocalSearchQuery`.
  - `playlist_search_params.py`: the Spotify-style request, with its
    validators and `to_spotipy_dict`. Modelled in
    `playlist_search_params.dfy`, module `PlaylistSearch`.
- **ReccoBeats client parsing** (`rb_functions.dfy`, module
  `ReccoBeatsClient`):
  - `_extract_track_id`, the regular expression `/track/([^/?#]+)`;
  - `parse_recommendations` after the JSON decode;
  - the query-string URL of `get_recommendations`.

Supporting modules:

- `Distance`: the weighted squared sum and its properties.
- `Sorting`: a stable insertion sort by a real key, standing in for
  Python's `list.sort` and for `np.argsort`.
- `PyDict`: an insertion-ordered dictionary, with `get`, item assignment and
  `update`.
- `Strings`: `join` and split.
- `ModelConsts`: `config/model_consts.py`.
- `Wrappers`: `Option`, `Result`, `Outcome`.

Modelling choices:

- `np.sqrt` is a parameter `root: real -> real`. Where a property needs it,
  `IsSqrt(root)` assumes that `root(0) = 0`, that root is non-negative on
  non-negatives, and that it is strictly increasing.
- Reading the two catalog files is a `LoadOutcome` parameter: files
  missing, matrix unreadable, metadata unreadable, or both loaded.
- A remote track is a `Track` object whose `fields` map the ranking writes
  into, because `rank_remote_tracks` mutates the caller's dictionaries.

Behaviour worth noting:

- `rank_remote_tracks` scores with the caller's weights as given, the
  popularity weight included.
- `search_local` sorts all distances with `argsort` and then takes the first
  `top_n` (20 unless given).
- `convert_v2_to_vectors` fills an absent feature with target 0.5 and
  weight 0.
- `LocalSearchQueryParams` weights range over [0, 5].
- `limit` in `PlaylistSearchParams` is `Optional`: an explicit `None` passes
  validation and is then left out of `to_spotipy_dict`.
- The numeric fields of `PlaylistSearchParams` follow pydantic's lax mode:
  an int given for a float field is stored as a float, and a float without a
  fractional part given for an int field is stored as an int.

## Model

| member | source | states |
|---|---|---|
| Distance.SumNonNegative | logic/search_engine.py:50-53 | with non-negative weights, the weighted squared difference sum is never negative |
| Distance.SumZeroAtTarget | logic/search_engine.py:50-53 | a row equal to the target has sum 0 whatever the weights |
| Distance.ZeroWeightNeutral | logic/search_engine.py:84-87 | axes with weight 0 do not influence the sum: rows and targets that agree on weighted axes score the same ("if weight is 0 … that difference is ignored") |
| Distance.SumSymmetric | logic/search_engine.py:50-53 | the sum is symmetric in row and target |
| Distance.RootPreservesOrder | logic/search_engine.py:53 | the square root keeps the order and the equality of non-negative sums, so sorting distances sorts sums |
| Distance.DistanceBasics | logic/search_engine.py:84-87 | a distance is non-negative, and the target itself is at distance 0 |
| Sorting.SortBy | logic/search_engine.py:92 | sorting by a key yields a permutation of the input of the same length, ordered by the key |
| Sorting.SortByIsStable | logic/search_engine.py:92 | the sort is stable: for every key value, the elements with that key appear in input order |
| PyDict.Get | data_class/recommendation_params.py:137-138 | a lookup in the query dict finds nothing exactly when the key is absent, and otherwise the value stored under it |
| PyDict.SetKeys | data_class/recommendation_params.py:138 | item assignment keeps the key order when the key is present, and appends a new key at the end |
| PyDict.SetGet | data_class/recommendation_params.py:138 | after item assignment the key holds the new value and every other key keeps its value |
| PyDict.UpdateGet | data_class/recommendation_params.py:137 | `update` takes each key of the argument from the argument and every other key from the receiver |
| PyDict.UpdateAppends | data_class/recommendation_params.py:137 | updating with new keys appends them after the existing ones, in order |
| Strings.SplitJoin | rb/rb_functions.py:6 | joining parts that do not contain the separator and splitting the result gives the parts back |
| LocalSearchQuery.DefaultWeighted | data_class/local_search_params.py:7-23 | a feature built from a value alone has weight 1.0 and is valid when the value is in [0,1] |
| LocalSearchQuery.DefaultQuery | data_class/local_search_params.py:35-120 | built from the required reasoning alone, the query has no genre and no feature, and satisfies every field bound |
| AiRecommendationParams.AIRecommendationParams.SeedField | recommendation_params.py:56-65 | definition: `seeds.get(key, '')`, behind the `track_name` and `artist_name` properties: the seed's entry, or the empty string when the key is missing |
| AiRecommendationParams.SetNames | recommendation_params.py:72-73 | a name is listed exactly when it is one of the numeric fields and that field is set |
| AiRecommendationParams.DumpNumbersShape | recommendation_params.py:73 | the dump of the numeric fields is a well-formed dict whose keys are exactly the set fields, in declaration order, each mapped to its value |
| AiRecommendationParams.DumpShape | recommendation_params.py:17-73 | `model_dump(exclude_none=True)` holds `seeds` first, then exactly the set fields with their values; an unset field is absent |
| AiRecommendationParams.FinishedValues | recommendation_params.py:74-75 | after the two assignments, `seeds` is kept, `size` is 20 and `featureWeight` is 5.0 |
| AiRecommendationParams.FinishedFeatures | recommendation_params.py:72-76 | the assignments leave every set feature with its value and every unset feature absent |
| AiRecommendationParams.ToQueryParams | recommendation_params.py:67-76 | the query's keys are `seeds`, the set numeric fields in order, then `size` and `featureWeight`; seeds, feature values, `size` = 20 and `featureWeight` = 5.0 are stated key by key |
| RecommendationParams.DumpSeeds | data_class/recommendation_params.py:8-131 | definition: each seed dumps to a dict with exactly `track_name` and `artist_name`, holding that seed's names, in seed order |
| RecommendationParams.DefaultWeights | data_class/recommendation_params.py:75-80 | the default weights are valid and every `<feature>_weight` is 0.5 |
| RecommendationParams.GetWeightsVector | data_class/recommendation_params.py:82-85 | the vector holds the six weight fields in feature order, each in [0,1] when the weights are valid |
| RecommendationParams.GetSearchData | data_class/recommendation_params.py:97-119 | targets and weights are aligned with the feature order; an unset feature gives target 0 and weight 0, a set one gives its value and its weight; valid weights stay in [0,1] |
| RecommendationParams.SetNames | data_class/recommendation_params.py:134 | a name is listed exactly when it is a schema feature that is set |
| RecommendationParams.DumpFeaturesShape | data_class/recommendation_params.py:134 | the feature dump is a well-formed dict of exactly the set features, in order, with their values (popularity stays an integer) |
| RecommendationParams.MergedShape | data_class/recommendation_params.py:131-137 | after `update`, the dict has `seeds` first, then exactly the set features; unset features are absent |
| RecommendationParams.WithSizeValues | data_class/recommendation_params.py:138 | adding `size` keeps the seeds and the features, and `size` is 40 |
| RecommendationParams.WithSizeHasNoWeights | data_class/recommendation_params.py:128-129 | no `<feature>_weight` key reaches the query |
| RecommendationParams.ToQueryParams | data_class/recommendation_params.py:125-139 | the keys are `seeds`, the set features in order, then `size`; values key by key; unset features and all weights are absent |
| SearchEngine.Distances | logic/search_engine.py:50-53 | the broadcast computation gives one distance per catalog row, equal to that row's weighted distance to the target |
| SearchEngine.RowSumIsWeightedSquaredSum | logic/search_engine.py:50-53 | summing one row of the broadcast weighted squared differences gives the row-wise weighted sum |
| SearchEngine.ArgSort | logic/search_engine.py:56 | `argsort` lists every index exactly once, in ascending order of distance |
| SearchEngine.SliceLength | logic/search_engine.py:56 | definition: `[:top_n]` keeps min(top_n, n) items, and for negative top_n drops that many from the end |
| SearchEngine.TopIndices | logic/search_engine.py:56 | the kept indices are distinct, in range and in ascending distance, and no index left out has a smaller distance than one kept |
| SearchEngine.Rows | logic/search_engine.py:57-58 | definition: row k of the result is the metadata row and the distance at the k-th selected index |
| SearchEngine.RankRows | logic/search_engine.py:56-58 | with metadata at least as long as the distances the ranking succeeds; a failure means a selected index has no metadata row; the rows are the slice-length closest indices, ascending by score, distinct, and no unselected index scores lower |
| SearchEngine.SearchLoaded | logic/search_engine.py:49-60 | with metadata present and at least as long as the matrix, the search succeeds with slice-length many rows; each row carries the metadata and distance of one catalog row; rows are ascending by score with distinct indices, and no unselected catalog row scores lower; missing metadata or a missing metadata row is an error |
| SearchEngine.RankRowsFails | logic/search_engine.py:56-58 | the ranking fails exactly when one of the selected indices has no metadata row |
| SearchEngine.SearchLoadedFails | logic/search_engine.py:49-58 | the search fails exactly when the metadata is missing or a selected catalog row has no metadata row |
| SearchEngine.ExactMatchRanksFirst | logic/search_engine.py:49-58 | with positive weights, the only catalog row equal to the target is the single top-1 result, with score 0 |
| SearchEngine.SumPositive | logic/search_engine.py:50-53 | with positive weights, any row different from the target has a positive sum |
| SearchEngine.LocalSearchEngine.constructor | logic/search_engine.py:17-20 | a new engine has no matrix, no metadata and is not loaded |
| SearchEngine.LocalSearchEngine.LoadDataIfNeeded | logic/search_engine.py:22-39 | once loaded, nothing changes; missing files or an unreadable matrix change nothing; an unreadable metadata file leaves the matrix set but not the flag; both read sets both fields and the flag |
| SearchEngine.LocalSearchEngine.SearchLocal | logic/search_engine.py:41-60 | loads if needed and records what the load read, as `_load_data_if_needed` does; `top_n` defaults to 20; without a matrix the result is empty, otherwise it is the ranking of the loaded catalog |
| SearchEngine.Clip | logic/search_engine.py:82 | the clipped value lies in [0,1], equals the input inside it, and is 0 below and 1 above |
| SearchEngine.RemoteVector | logic/search_engine.py:71-82 | slot i is the clipped value of the i-th of the eight fields divided by its scale (250 for tempo, 100 for popularity); a missing field counts as 0 |
| SearchEngine.RemoteVectorIgnoresScore | logic/search_engine.py:71-90 | writing `match_score` does not change the vector a track is scored by |
| SearchEngine.RankRemoteTracks | logic/search_engine.py:62-93 | every track gains `match_score` equal to its distance to the target, with its other entries unchanged; the result is a permutation of the input, ascending by score, and ties keep input order |
| SearchEngine.ScoreTracks | logic/search_engine.py:69-90 | each listed track gains its distance under `match_score` and nothing else changes |
| SearchEngine.SortByScore | logic/search_engine.py:92 | the result is a permutation of the input, ascending by score, and ties keep input order |
| SearchEngine.SortedByScore | logic/search_engine.py:92 | sorting by a snapshot of the scores sorts by score and is stable on ties |
| SearchEngine.WithKeyIsWithScore | logic/search_engine.py:92 | when a key agrees with the stored score, the ties by key are the ties by score |
| SearchEngine.ConvertV1ToVectors | logic/search_engine.py:99-131 | mask 1 exactly for set features and 0 exactly for unset ones; the target is the value divided by 250 for tempo, by 100 for popularity and by 1 otherwise, or 0 when unset; valid parameters give targets in [0,1] |
| SearchEngine.ConvertV2ToVectors | logic/search_engine.py:133-153 | a set feature gives its own value and weight; an unset one gives target 0.5 and weight 0; valid queries give targets in [0,1] and weights in [0,5] |
| PlaylistSearch.TunableNames | playlist_search_params.py:61-341 | definition: one name per numeric field, in declaration order |
| PlaylistSearch.LimitOf | playlist_search_params.py:30-35 | definition: an omitted `limit` defaults to 20, and a passed one (possibly None) is kept |
| PlaylistSearch.BadTunablesNames | playlist_search_params.py:61-341 | a name is reported exactly when it is a declared numeric field that is set and breaks its type or bound |
| PlaylistSearch.FieldErrorsNone | playlist_search_params.py:30-341 | there is no field error exactly when `limit` is None or in [1,100] and every set numeric field meets its constraint |
| PlaylistSearch.Declared | playlist_search_params.py:28-341 | definition: extra keyword arguments are dropped, and each declared one is kept after conversion to its declared type |
| PlaylistSearch.Coerced | playlist_search_params.py:61-341 | pydantic's lax conversion keeps the number's value, makes every float field a float, and makes an int field an int exactly when the number is integral |
| PlaylistSearch.AdmitsCoerced | playlist_search_params.py:61-341 | after conversion an int field accepts exactly the integral numbers and a float field any number, within the field's bound |
| PlaylistSearch.DeclaredIntForFloat | playlist_search_params.py:147-152 | `target_energy=1` is kept as the float 1.0 |
| PlaylistSearch.IntForFloatField | playlist_search_params.py:147-152 | `target_energy=1` raises no field error |
| PlaylistSearch.ValidateSeeds | playlist_search_params.py:343-351 | passes exactly when there are 1 to 5 seeds in total; no seeds and too many seeds are the two distinct errors |
| PlaylistSearch.ValidateGenres | playlist_search_params.py:353-359 | passes exactly when every seed genre is in the whitelist; otherwise it reports the first invalid genre |
| PlaylistSearch.Construct | playlist_search_params.py:28-359 | succeeds exactly when the built object is valid, and then returns it; field errors come first, then the seed count, then a non-whitelisted seed genre |
| PlaylistSearch.TunableEntries | playlist_search_params.py:363 | definition: the dump lists every numeric field in declaration order, with its value or None |
| PlaylistSearch.ToSpotipyDict | playlist_search_params.py:361-371 | `limit` appears when set; each non-empty seed list appears comma-joined; each set numeric field appears with its value; nothing else appears |
| PlaylistSearch.SerialisedGet | playlist_search_params.py:365-370 | under a key whose dumped entries all hold the same value, the loop leaves the emitted form of that value; under a key that was not dumped it leaves nothing |
| PlaylistSearch.DumpUniform | playlist_search_params.py:363 | entries of `model_dump()` with the same key hold the same value, because no numeric field (each named `min_…`, `max_…` or `target_…`) is called `limit` or `seed_…` |
| PlaylistSearch.HeadFields | playlist_search_params.py:361-371 | `limit` appears when set, and each seed list appears comma-joined when non-empty |
| PlaylistSearch.TunableField | playlist_search_params.py:361-371 | a numeric field appears with its value when set and is absent otherwise |
| PlaylistSearch.UndumpedField | playlist_search_params.py:361-371 | a name that is not a field of the model never appears |
| PlaylistSearch.ModelDumpKeys | playlist_search_params.py:363 | `model_dump()` lists every field of the model, in declaration order: `limit`, the three seed lists, then the 33 numeric fields |
| PlaylistSearch.SpotipyDictFields | playlist_search_params.py:361-371 | field by field, the serialised dict holds exactly what `to_spotipy_dict` promises |
| ReccoBeatsClient.RunEnd | rb/rb_functions.py:34 | the greedy `[^/?#]+` run ends at the end of the string or at the first stop character |
| ReccoBeatsClient.FirstMatchFrom | rb/rb_functions.py:34 | finds the leftmost position where the pattern matches, or reports that it matches nowhere |
| ReccoBeatsClient.ExtractTrackId | rb/rb_functions.py:33-35 | None exactly when the pattern matches nowhere; otherwise the non-empty, stop-free group captured at the leftmost match |
| ReccoBeatsClient.Candidates | rb/rb_functions.py:22-28 | definition: one candidate per item, in order, pairing the extracted id with the item's `id` |
| ReccoBeatsClient.TruePositions | rb/rb_functions.py:30 | the listed positions are in range, hold true and are strictly increasing |
| ReccoBeatsClient.TruePositionsComplete | rb/rb_functions.py:30 | every position holding true is listed |
| ReccoBeatsClient.KeepWithIdInOrder | rb/rb_functions.py:30 | the filter keeps exactly the candidates with a Spotify id, in order |
| ReccoBeatsClient.ParseKeepsLinkedItemsInOrder | rb/rb_functions.py:20-31 | the result is the record of each item whose link carries a track id, in input order, each with that item's own `id` |
| ReccoBeatsClient.NoContentNoIds | rb/rb_functions.py:24-27 | a missing or empty `content` gives no records, and an item without `href` is dropped |
| ReccoBeatsClient.RecommendationUrl | rb/rb_functions.py:6-7 | the URL is the base, then `?`, then exactly the query string; with no parameters it is `base?` |
| ReccoBeatsClient.QueryRoundTrip | rb/rb_functions.py:6 | when no key or value contains `&` and no key contains `=`, the query string parses back to the same pairs in order |
| ReccoBeatsClient.UnescapedValueSplits | rb/rb_functions.py:6 | values are not escaped: the value `a&b` reads back as two pairs |

## Left out

- File I/O: reading `songs_data.npy` and `songs_meta.csv` is the
  `LoadOutcome` parameter, and the debug and error `print`s are not
  modelled.
- `np.sqrt` and floating point: numbers are exact reals, and `np.sqrt` is the
  `root` parameter. NaN, infinities and rounding are not modelled.
- Numpy broadcasting of mismatched shapes is not modelled. `SearchLoaded` and
  `SearchLocal` require targets and weights as wide as the matrix, so the
  `ValueError` numpy raises otherwise, and the length-1 broadcast, are not
  modelled.
- SearchEngine.RankRemoteTracks: requires eight-slot target and weight
  vectors, the width of the track vector it builds. Other widths either
  broadcast or raise in numpy.
- SearchEngine.ArgSort: promises sorted order and a permutation only. The
  order numpy gives to equal distances is not stated, although the model
  breaks ties by index.
- A track dictionary's non-numeric entries, such as ids and names, are not
  modelled. Only the numeric entries and `match_score` are.
- Pydantic's coercion of non-numbers (strings and booleans given for numeric
  fields) and its error messages are not modelled. A field error is reported
  by the field's name. `limit` is an int or None, so a float given for it is
  not modelled.
- The `AudioFeatures` and `FeatureWeights` bounds are `Valid` predicates on
  the data. They are not re-checked at construction.
- JSON decoding in `parse_recommendations`, and the HTTP requests of
  `get_recommendations` and `get_audio_features`, are not modelled. The model
  starts from the decoded `content` list.
- ReccoBeatsClient.RecommendationUrl: values are taken as already rendered
  text. Python's `str()` formatting of numbers and lists is not modelled.
- `GET_REC_URL` and the headers come from a configuration file that is not
  part of this model, so the base URL is a parameter.
- The `print`-only `main` of `rb/rb_functions.py` and
  `get_recommendations_ids_by_params` are not modelled.
- `recommendation_params.py` at the repository root defines its own
  `NUMBER_OF_RECOMMENDATIONS = 20`. The data-class module imports 40 from
  `config/model_consts.py`. Each model uses its own file's constant.
- SearchEngine.RankRemoteTracks: a track holding `None` under one of the
  eight numeric keys makes the source raise `TypeError`. The model's track
  entries are numbers, so that case cannot be expressed.
- ReccoBeatsClient.Candidates: an item whose `href` is JSON `null` makes the
  source pass `None` to `_extract_track_id`, which raises. The model does
  not tell a `null` link from a missing one and drops the item.
