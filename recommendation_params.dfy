/** The structured output the language model fills in for both pipelines
    (data_class/recommendation_params.py): seeds, target audio features,
    per-feature weights, and the conversions of these into search vectors
    and into API query parameters. */
module RecommendationParams {
  import opened Wrappers
  import opened PyDict
  import opened ModelConsts
  import Strings

  datatype SeedInfo = SeedInfo(trackName: string, artistName: string)

  /** `SeedInfo.model_dump()`. */
  function DumpSeed(s: SeedInfo): map<string, string> {
    map["track_name" := s.trackName, "artist_name" := s.artistName]
  }

  datatype SeedParams = SeedParams(seeds: seq<SeedInfo>) {
    /** Between 1 and LLM_NUM_SEEDS seeds. */
    ghost predicate Valid() {
      1 <= |seeds| <= LLM_NUM_SEEDS
    }
  }

  function DumpSeeds(seeds: seq<SeedInfo>): (r: seq<map<string, string>>)
    ensures |r| == |seeds|
    ensures forall i :: 0 <= i < |seeds| ==>
      && r[i].Keys == {"track_name", "artist_name"}
      && r[i]["track_name"] == seeds[i].trackName && r[i]["artist_name"] == seeds[i].artistName
  {
    seq(|seeds|, i requires 0 <= i < |seeds| => DumpSeed(seeds[i]))
  }

  /** Target values: unit features in [0,1], tempo in BPM in [0,250],
      popularity an integer in [MIN_POPULARITY,100]; every field optional. */
  datatype AudioFeatures = AudioFeatures(
    acousticness: Option<real>,
    danceability: Option<real>,
    energy: Option<real>,
    tempo: Option<real>,
    valence: Option<real>,
    popularity: Option<int>)
  {
    ghost predicate Valid() {
      && (acousticness.Some? ==> 0.0 <= acousticness.value <= 1.0)
      && (danceability.Some? ==> 0.0 <= danceability.value <= 1.0)
      && (energy.Some? ==> 0.0 <= energy.value <= 1.0)
      && (tempo.Some? ==> 0.0 <= tempo.value <= 250.0)
      && (valence.Some? ==> 0.0 <= valence.value <= 1.0)
      && (popularity.Some? ==> MIN_POPULARITY <= popularity.value <= 100)
    }

    /** `float(getattr(features, name))`, None when the field is unset. */
    function Get(name: string): Option<real> {
      if name == "acousticness" then acousticness
      else if name == "danceability" then danceability
      else if name == "energy" then energy
      else if name == "tempo" then tempo
      else if name == "valence" then valence
      else if name == "popularity" then
        (if popularity.Some? then Some(popularity.value as real) else None)
      else None
    }
  }

  /** Importance of each feature, each in [0,1]. */
  datatype FeatureWeights = FeatureWeights(
    acousticnessWeight: real,
    danceabilityWeight: real,
    energyWeight: real,
    tempoWeight: real,
    valenceWeight: real,
    popularityWeight: real)
  {
    ghost predicate Valid() {
      && 0.0 <= acousticnessWeight <= 1.0
      && 0.0 <= danceabilityWeight <= 1.0
      && 0.0 <= energyWeight <= 1.0
      && 0.0 <= tempoWeight <= 1.0
      && 0.0 <= valenceWeight <= 1.0
      && 0.0 <= popularityWeight <= 1.0
    }

    /** `getattr(weights, attr, 0.0)`. */
    function Attr(attr: string): real {
      if attr == "acousticness_weight" then acousticnessWeight
      else if attr == "danceability_weight" then danceabilityWeight
      else if attr == "energy_weight" then energyWeight
      else if attr == "tempo_weight" then tempoWeight
      else if attr == "valence_weight" then valenceWeight
      else if attr == "popularity_weight" then popularityWeight
      else 0.0
    }
  }

  const DEFAULT_WEIGHT: real := 0.5

  /** The attribute names `f"{f}_weight"` for the schema features. */
  lemma WeightAttrNames()
    ensures FEATURE_ORDER[0] + "_weight" == "acousticness_weight"
    ensures FEATURE_ORDER[1] + "_weight" == "danceability_weight"
    ensures FEATURE_ORDER[2] + "_weight" == "energy_weight"
    ensures FEATURE_ORDER[3] + "_weight" == "tempo_weight"
    ensures FEATURE_ORDER[4] + "_weight" == "valence_weight"
    ensures FEATURE_ORDER[5] + "_weight" == "popularity_weight"
  {
  }

  /** `FeatureWeights()` with every field left to its default. */
  function DefaultWeights(): (w: FeatureWeights)
    ensures w.Valid()
    ensures forall i :: 0 <= i < |FEATURE_ORDER| ==> w.Attr(FEATURE_ORDER[i] + "_weight") == DEFAULT_WEIGHT
  {
    WeightAttrNames();
    FeatureWeights(DEFAULT_WEIGHT, DEFAULT_WEIGHT, DEFAULT_WEIGHT, DEFAULT_WEIGHT, DEFAULT_WEIGHT, DEFAULT_WEIGHT)
  }

  /** `get_weights_vector`: one weight per schema feature, looked up by the
      name `<feature>_weight`. The result is the six fields in schema order. */
  function GetWeightsVector(w: FeatureWeights): (r: seq<real>)
    ensures r == [w.acousticnessWeight, w.danceabilityWeight, w.energyWeight,
                  w.tempoWeight, w.valenceWeight, w.popularityWeight]
    ensures w.Valid() ==> forall i :: 0 <= i < |r| ==> 0.0 <= r[i] <= 1.0
  {
    WeightAttrNames();
    seq(|FEATURE_ORDER|, i requires 0 <= i < |FEATURE_ORDER| => w.Attr(FEATURE_ORDER[i] + "_weight"))
  }

  datatype LocalSearchParams = LocalSearchParams(targetFeatures: AudioFeatures, featureWeights: FeatureWeights) {
    ghost predicate Valid() {
      targetFeatures.Valid() && featureWeights.Valid()
    }
  }

  /** A placeholder 0.0 for an unset target. */
  function TargetSlot(v: Option<real>): real {
    if v.Some? then v.value else 0.0
  }

  /** The weight of a set target; 0.0 masks an unset one. */
  function WeightSlot(v: Option<real>, w: real): real {
    if v.Some? then w else 0.0
  }

  /** `get_search_data`: targets and weights aligned with the schema. */
  method GetSearchData(p: LocalSearchParams) returns (targets: seq<real>, weights: seq<real>)
    ensures |targets| == |weights| == |FEATURE_ORDER|
    ensures forall i :: 0 <= i < |FEATURE_ORDER| ==>
      var v := p.targetFeatures.Get(FEATURE_ORDER[i]);
      && (v.None? ==> targets[i] == 0.0 && weights[i] == 0.0)
      && (v.Some? ==> targets[i] == v.value && weights[i] == GetWeightsVector(p.featureWeights)[i])
    ensures var tf, fw := p.targetFeatures, p.featureWeights;
      && targets == [TargetSlot(tf.acousticness), TargetSlot(tf.danceability), TargetSlot(tf.energy),
                     TargetSlot(tf.tempo), TargetSlot(tf.valence), TargetSlot(tf.Get("popularity"))]
      && weights == [WeightSlot(tf.acousticness, fw.acousticnessWeight),
                     WeightSlot(tf.danceability, fw.danceabilityWeight),
                     WeightSlot(tf.energy, fw.energyWeight),
                     WeightSlot(tf.tempo, fw.tempoWeight),
                     WeightSlot(tf.valence, fw.valenceWeight),
                     WeightSlot(tf.Get("popularity"), fw.popularityWeight)]
    ensures p.Valid() ==> forall i :: 0 <= i < |weights| ==> 0.0 <= weights[i] <= 1.0
  {
    targets, weights := [], [];
    var ws := GetWeightsVector(p.featureWeights);
    for i := 0 to |FEATURE_ORDER|
      invariant |targets| == |weights| == i
      invariant forall j :: 0 <= j < i ==>
        var v := p.targetFeatures.Get(FEATURE_ORDER[j]);
        && (v.None? ==> targets[j] == 0.0 && weights[j] == 0.0)
        && (v.Some? ==> targets[j] == v.value && weights[j] == ws[j])
    {
      var feature := FEATURE_ORDER[i];
      var val := p.targetFeatures.Get(feature);
      var weight := p.featureWeights.Attr(feature + "_weight");
      if val.None? {
        targets, weights := targets + [0.0], weights + [0.0];
      } else {
        targets, weights := targets + [val.value], weights + [weight];
      }
    }
  }

  /** The audio-feature names that are set, in schema order. */
  function SetNames(tf: AudioFeatures, names: seq<string>): (r: seq<string>)
    ensures forall n :: n in r <==> n in names && tf.Get(n).Some?
  {
    if names == [] then []
    else if tf.Get(names[0]).Some? then [names[0]] + SetNames(tf, names[1..])
    else SetNames(tf, names[1..])
  }

  /** The dumped value of a set audio feature: popularity stays an int. */
  function DumpFeature(tf: AudioFeatures, name: string): Value
    requires tf.Get(name).Some?
  {
    if name == "popularity" then IntV(tf.popularity.value) else FloatV(tf.Get(name).value)
  }

  /** `model_dump(exclude_none=True)` of the features in `names`. */
  function DumpFeatures(tf: AudioFeatures, names: seq<string>): Dict<Value> {
    if names == [] then []
    else if tf.Get(names[0]).Some? then [(names[0], DumpFeature(tf, names[0]))] + DumpFeatures(tf, names[1..])
    else DumpFeatures(tf, names[1..])
  }

  lemma {:induction false} DumpFeaturesShape(tf: AudioFeatures, names: seq<string>)
    requires Distinct(names)
    ensures Keys(DumpFeatures(tf, names)) == SetNames(tf, names)
    ensures WellFormed(DumpFeatures(tf, names))
    ensures forall n :: n in names && tf.Get(n).Some? ==> Get(DumpFeatures(tf, names), n) == Some(DumpFeature(tf, n))
  {
    if names != [] {
      assert Distinct(names[1..]) by {
        forall a, b | 0 <= a < b < |names[1..]| ensures names[1..][a] != names[1..][b] {
          assert names[a + 1] != names[b + 1];
        }
      }
      DumpFeaturesShape(tf, names[1..]);
      assert names[0] !in names[1..] by {
        forall j | 0 <= j < |names[1..]| ensures names[1..][j] != names[0] {
          assert names[0] != names[j + 1];
        }
      }
      var rest := DumpFeatures(tf, names[1..]);
      if tf.Get(names[0]).Some? {
        var d := [(names[0], DumpFeature(tf, names[0]))] + rest;
        KeysCons(d);
        assert d[1..] == rest;
      }
    }
  }

  lemma FeatureOrderDistinct()
    ensures Distinct(FEATURE_ORDER)
  {
  }

  datatype ReccoBeatsParams = ReccoBeatsParams(
    targetFeatures: AudioFeatures,
    featureWeights: FeatureWeights,
    seedParams: SeedParams)

  /** The dict after `params.update(features)`. */
  function Merged(p: ReccoBeatsParams): Dict<Value>
  {
    Update([("seeds", StrMapListV(DumpSeeds(p.seedParams.seeds)))], DumpFeatures(p.targetFeatures, FEATURE_ORDER))
  }

  lemma MergedShape(p: ReccoBeatsParams)
    ensures WellFormed(DumpFeatures(p.targetFeatures, FEATURE_ORDER))
    ensures Keys(Merged(p)) == ["seeds"] + SetNames(p.targetFeatures, FEATURE_ORDER)
    ensures Get(Merged(p), "seeds") == Some(StrMapListV(DumpSeeds(p.seedParams.seeds)))
    ensures forall n :: n in FEATURE_ORDER && p.targetFeatures.Get(n).Some? ==>
      Get(Merged(p), n) == Some(DumpFeature(p.targetFeatures, n))
    ensures forall n :: n in FEATURE_ORDER && p.targetFeatures.Get(n).None? ==> Get(Merged(p), n).None?
  {
    var tf := p.targetFeatures;
    FeatureOrderDistinct();
    DumpFeaturesShape(tf, FEATURE_ORDER);
    var seeds: Dict<Value> := [("seeds", StrMapListV(DumpSeeds(p.seedParams.seeds)))];
    assert Keys(seeds) == ["seeds"];
    assert "seeds" !in SetNames(tf, FEATURE_ORDER);
    UpdateAppends(seeds, DumpFeatures(tf, FEATURE_ORDER));
    UpdateGet(seeds, DumpFeatures(tf, FEATURE_ORDER));
  }

  /** The merged dict with `size` written into it. */
  function WithSize(p: ReccoBeatsParams): Dict<Value>
  {
    Set(Merged(p), "size", IntV(NUMBER_OF_RECOMMENDATIONS))
  }

  lemma WithSizeValues(p: ReccoBeatsParams)
    ensures Get(WithSize(p), "seeds") == Some(StrMapListV(DumpSeeds(p.seedParams.seeds)))
    ensures forall n :: n in FEATURE_ORDER && p.targetFeatures.Get(n).Some? ==>
      Get(WithSize(p), n) == Some(DumpFeature(p.targetFeatures, n))
    ensures forall n :: n in FEATURE_ORDER && p.targetFeatures.Get(n).None? ==> Get(WithSize(p), n).None?
    ensures Get(WithSize(p), "size") == Some(IntV(NUMBER_OF_RECOMMENDATIONS))
  {
    SetGet(Merged(p), "size", IntV(NUMBER_OF_RECOMMENDATIONS));
    forall n | n in FEATURE_ORDER ensures Get(WithSize(p), n) == Get(Merged(p), n) {
      assert n != "size";
    }
    MergedShape(p);
  }

  /** A weight attribute name has an '_' right after the feature name, and
      none of the query's own keys has one, so it is none of them. */
  lemma WeightKeyIsNoQueryKey(i: nat, key: string)
    requires i < |FEATURE_ORDER|
    requires key == "seeds" || key == "size" || key in FEATURE_ORDER
    ensures FEATURE_ORDER[i] + "_weight" != key
  {
    var f := FEATURE_ORDER[i];
    assert (f + "_weight")[|f|] == '_';
    assert Strings.Free(key, '_') by {
      assert forall j :: 0 <= j < |FEATURE_ORDER| ==> Strings.Free(FEATURE_ORDER[j], '_');
    }
  }

  /** The keys of the query before the weights would be added. */
  lemma WithSizeKeys(p: ReccoBeatsParams)
    ensures Keys(WithSize(p)) == ["seeds"] + SetNames(p.targetFeatures, FEATURE_ORDER) + ["size"]
  {
    MergedShape(p);
    assert "size" !in Keys(Merged(p));
    SetKeys(Merged(p), "size", IntV(NUMBER_OF_RECOMMENDATIONS));
  }

  /** No key of the query ends in `_weight`. */
  lemma WithSizeHasNoWeights(p: ReccoBeatsParams)
    ensures forall i :: 0 <= i < |FEATURE_ORDER| ==> Get(WithSize(p), FEATURE_ORDER[i] + "_weight").None?
  {
    WithSizeKeys(p);
    forall i | 0 <= i < |FEATURE_ORDER| ensures FEATURE_ORDER[i] + "_weight" !in Keys(WithSize(p)) {
      forall key | key in Keys(WithSize(p)) ensures FEATURE_ORDER[i] + "_weight" != key {
        WeightKeyIsNoQueryKey(i, key);
      }
    }
  }

  /** `ReccoBeatsParams.to_query_params`: the seeds, exactly the target
      features that are set, and `size`; no weights. */
  method ToQueryParams(p: ReccoBeatsParams) returns (params: Dict<Value>)
    ensures Keys(params) == ["seeds"] + SetNames(p.targetFeatures, FEATURE_ORDER) + ["size"]
    ensures Get(params, "seeds") == Some(StrMapListV(DumpSeeds(p.seedParams.seeds)))
    ensures forall n :: n in FEATURE_ORDER && p.targetFeatures.Get(n).Some? ==>
      Get(params, n) == Some(DumpFeature(p.targetFeatures, n))
    ensures forall n :: n in FEATURE_ORDER && p.targetFeatures.Get(n).None? ==> Get(params, n).None?
    ensures Get(params, "size") == Some(IntV(NUMBER_OF_RECOMMENDATIONS))
    ensures forall i :: 0 <= i < |FEATURE_ORDER| ==> Get(params, FEATURE_ORDER[i] + "_weight").None?
  {
    MergedShape(p);
    params := [("seeds", StrMapListV(DumpSeeds(p.seedParams.seeds)))];
    var features := DumpFeatures(p.targetFeatures, FEATURE_ORDER);
    params := Update(params, features);
    assert params == Merged(p);
    assert "size" !in Keys(params);
    params := Set(params, "size", IntV(NUMBER_OF_RECOMMENDATIONS));
    assert params == WithSize(p);
    WithSizeKeys(p);
    WithSizeValues(p);
    WithSizeHasNoWeights(p);
  }
}
