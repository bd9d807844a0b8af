/** The weighted query the language model fills in for the local search
    (data_class/local_search_params.py). Pydantic's field bounds become the
    `Valid` predicates; fields left out of the constructor take the defaults
    given by the `Default*` functions. */
module LocalSearchQuery {
  import opened Wrappers

  /** One target value with its importance; pydantic default weight 1.0. */
  datatype WeightedFeature = WeightedFeature(value: real, weight: real) {
    ghost predicate Valid() {
      0.0 <= value <= 1.0 && 0.0 <= weight <= 5.0
    }
  }

  const DEFAULT_FEATURE_WEIGHT: real := 1.0

  /** `WeightedFeature(value=v)` with the weight left to its default. */
  function DefaultWeighted(v: real): (f: WeightedFeature)
    ensures f.value == v && f.weight == DEFAULT_FEATURE_WEIGHT
    ensures 0.0 <= v <= 1.0 ==> f.Valid()
  {
    WeightedFeature(v, DEFAULT_FEATURE_WEIGHT)
  }

  datatype LocalSearchQueryParams = LocalSearchQueryParams(
    targetGenre: Option<string>,
    danceability: Option<WeightedFeature>,
    energy: Option<WeightedFeature>,
    valence: Option<WeightedFeature>,
    speechiness: Option<WeightedFeature>,
    acousticness: Option<WeightedFeature>,
    instrumentalness: Option<WeightedFeature>,
    tempo: Option<WeightedFeature>,
    popularity: Option<WeightedFeature>,
    reasoning: string)
  {
    /** `getattr(params, name, None)` for the eight numeric features. */
    function Feature(name: string): Option<WeightedFeature> {
      if name == "danceability" then danceability
      else if name == "energy" then energy
      else if name == "valence" then valence
      else if name == "speechiness" then speechiness
      else if name == "acousticness" then acousticness
      else if name == "instrumentalness" then instrumentalness
      else if name == "tempo" then tempo
      else if name == "popularity" then popularity
      else None
    }

    /** Every feature that is given satisfies the WeightedFeature bounds. */
    ghost predicate Valid() {
      forall name :: Feature(name).Some? ==> Feature(name).value.Valid()
    }
  }

  /** The object pydantic builds from just the required `reasoning`. */
  function DefaultQuery(reasoning: string): (p: LocalSearchQueryParams)
    ensures p.targetGenre.None? && p.reasoning == reasoning
    ensures forall name :: p.Feature(name).None?
    ensures p.Valid()
  {
    LocalSearchQueryParams(None, None, None, None, None, None, None, None, None, reasoning)
  }
}
