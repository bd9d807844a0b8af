/** Process-wide constants of the recommender (config/model_consts.py). */
module ModelConsts {

  const NUMBER_OF_RECOMMENDATIONS: int := 40
  const FEATURE_WEIGHT: real := 5.0
  const LLM_NUM_SEEDS: int := 5
  const MIN_POPULARITY: int := 20

  /** The feature schema: axis i of every target and weight vector built from
      the parameter models denotes FEATURE_ORDER[i]. */
  const FEATURE_ORDER: seq<string> :=
    ["acousticness", "danceability", "energy", "tempo", "valence", "popularity"]
}
