/** The single-seed request model of the first pipeline
    (recommendation_params.py at the repository root). */
module AiRecommendationParams {
  import opened Wrappers
  import opened PyDict

  /** This file's own constant (config/model_consts.py has 40). */
  const NUMBER_OF_RECOMMENDATIONS: int := 20
  const FEATURE_WEIGHT: real := 5.0

  datatype AIRecommendationParams = AIRecommendationParams(
    seeds: map<string, string>,
    acousticness: Option<real>,
    danceability: Option<real>,
    energy: Option<real>,
    tempo: Option<real>,
    valence: Option<real>,
    popularity: Option<int>)
  {
    /** Pydantic's bounds: unit features in [0,1], tempo in [0,250] BPM,
        popularity in [0,100]. */
    ghost predicate Valid() {
      && (acousticness.Some? ==> 0.0 <= acousticness.value <= 1.0)
      && (danceability.Some? ==> 0.0 <= danceability.value <= 1.0)
      && (energy.Some? ==> 0.0 <= energy.value <= 1.0)
      && (tempo.Some? ==> 0.0 <= tempo.value <= 250.0)
      && (valence.Some? ==> 0.0 <= valence.value <= 1.0)
      && (popularity.Some? ==> 0 <= popularity.value <= 100)
    }

    /** `getattr(params, name, None)` for the numeric fields, as a real. */
    function Feature(name: string): Option<real> {
      if name == "acousticness" then acousticness
      else if name == "danceability" then danceability
      else if name == "energy" then energy
      else if name == "tempo" then tempo
      else if name == "valence" then valence
      else if name == "popularity" then
        (if popularity.Some? then Some(popularity.value as real) else None)
      else None
    }

    /** `seeds.get(key, '')`: the seed's entry, or the empty string when the
        key is missing. */
    function SeedField(key: string): (r: string)
      ensures key in seeds ==> r == seeds[key]
      ensures key !in seeds ==> r == ""
    {
      if key in seeds then seeds[key] else ""
    }

    /** `track_name`. */
    function TrackName(): string {
      SeedField("track_name")
    }

    /** `artist_name`. */
    function ArtistName(): string {
      SeedField("artist_name")
    }
  }

  /** The numeric fields in declaration order. */
  const NUMERIC_FIELDS: seq<string> :=
    ["acousticness", "danceability", "energy", "tempo", "valence", "popularity"]

  /** The dumped value of a numeric field that is set. */
  function DumpNumber(p: AIRecommendationParams, name: string): Value
    requires p.Feature(name).Some?
  {
    if name == "popularity" then IntV(p.popularity.value) else FloatV(p.Feature(name).value)
  }

  /** `model_dump(exclude_none=True)` of the numeric fields in `names`. */
  function DumpNumbers(p: AIRecommendationParams, names: seq<string>): Dict<Value> {
    if names == [] then []
    else if p.Feature(names[0]).Some? then [(names[0], DumpNumber(p, names[0]))] + DumpNumbers(p, names[1..])
    else DumpNumbers(p, names[1..])
  }

  /** `model_dump(exclude_none=True)`: the required seeds dict, then the
      numeric fields that are set. */
  function Dump(p: AIRecommendationParams): Dict<Value> {
    [("seeds", StrMapV(p.seeds))] + DumpNumbers(p, NUMERIC_FIELDS)
  }

  /** The numeric field names that are set, in declaration order. */
  function SetNames(p: AIRecommendationParams, names: seq<string>): (r: seq<string>)
    ensures forall n :: n in r <==> n in names && p.Feature(n).Some?
  {
    if names == [] then []
    else if p.Feature(names[0]).Some? then [names[0]] + SetNames(p, names[1..])
    else SetNames(p, names[1..])
  }

  lemma {:induction false} DumpNumbersShape(p: AIRecommendationParams, names: seq<string>)
    requires Distinct(names)
    ensures Keys(DumpNumbers(p, names)) == SetNames(p, names)
    ensures WellFormed(DumpNumbers(p, names))
    ensures forall n :: n in names && p.Feature(n).Some? ==> Get(DumpNumbers(p, names), n) == Some(DumpNumber(p, n))
  {
    if names != [] {
      assert Distinct(names[1..]) by {
        forall a, b | 0 <= a < b < |names[1..]| ensures names[1..][a] != names[1..][b] {
          assert names[a + 1] != names[b + 1];
        }
      }
      DumpNumbersShape(p, names[1..]);
      assert names[0] !in names[1..] by {
        forall j | 0 <= j < |names[1..]| ensures names[1..][j] != names[0] {
          assert names[0] != names[j + 1];
        }
      }
      var rest := DumpNumbers(p, names[1..]);
      if p.Feature(names[0]).Some? {
        var d := [(names[0], DumpNumber(p, names[0]))] + rest;
        KeysCons(d);
        assert d[1..] == rest;
      }
    }
  }

  /** The dump is a well-formed dict: seeds first, then the set fields. */
  lemma DumpShape(p: AIRecommendationParams)
    ensures Keys(Dump(p)) == ["seeds"] + SetNames(p, NUMERIC_FIELDS)
    ensures Get(Dump(p), "seeds") == Some(StrMapV(p.seeds))
    ensures forall n :: n in NUMERIC_FIELDS && p.Feature(n).Some? ==> Get(Dump(p), n) == Some(DumpNumber(p, n))
    ensures forall n :: n in NUMERIC_FIELDS && p.Feature(n).None? ==> Get(Dump(p), n).None?
  {
    assert Distinct(NUMERIC_FIELDS);
    DumpNumbersShape(p, NUMERIC_FIELDS);
    var d := Dump(p);
    var rest := DumpNumbers(p, NUMERIC_FIELDS);
    KeysCons(d);
    assert d[1..] == rest;
    assert "seeds" !in SetNames(p, NUMERIC_FIELDS);
    forall n | n in NUMERIC_FIELDS && p.Feature(n).Some? ensures Get(d, n) == Some(DumpNumber(p, n)) {
      assert n != "seeds";
    }
  }

  /** The dump with `size` and then `featureWeight` written into it. */
  function Finished(p: AIRecommendationParams): Dict<Value> {
    Set(Set(Dump(p), "size", IntV(NUMBER_OF_RECOMMENDATIONS)), "featureWeight", FloatV(FEATURE_WEIGHT))
  }

  /** What `get` finds after each of the two assignments. */
  lemma FinishedSets(p: AIRecommendationParams)
    ensures Get(Finished(p), "featureWeight") == Some(FloatV(FEATURE_WEIGHT))
    ensures Get(Finished(p), "size") == Some(IntV(NUMBER_OF_RECOMMENDATIONS))
    ensures forall k :: k != "size" && k != "featureWeight" ==> Get(Finished(p), k) == Get(Dump(p), k)
  {
    var sized := Set(Dump(p), "size", IntV(NUMBER_OF_RECOMMENDATIONS));
    SetGet(Dump(p), "size", IntV(NUMBER_OF_RECOMMENDATIONS));
    SetGet(sized, "featureWeight", FloatV(FEATURE_WEIGHT));
  }

  lemma FinishedValues(p: AIRecommendationParams)
    ensures Get(Finished(p), "seeds") == Some(StrMapV(p.seeds))
    ensures Get(Finished(p), "size") == Some(IntV(NUMBER_OF_RECOMMENDATIONS))
    ensures Get(Finished(p), "featureWeight") == Some(FloatV(FEATURE_WEIGHT))
  {
    FinishedSets(p);
    DumpShape(p);
  }

  /** The two assignments append `size` and `featureWeight`, both new keys. */
  lemma FinishedKeys(p: AIRecommendationParams)
    ensures Keys(Finished(p)) == ["seeds"] + SetNames(p, NUMERIC_FIELDS) + ["size", "featureWeight"]
  {
    var names := SetNames(p, NUMERIC_FIELDS);
    assert Keys(Dump(p)) == ["seeds"] + names by {
      DumpShape(p);
    }
    var sized := Set(Dump(p), "size", IntV(NUMBER_OF_RECOMMENDATIONS));
    assert "size" !in Keys(Dump(p));
    SetKeys(Dump(p), "size", IntV(NUMBER_OF_RECOMMENDATIONS));
    assert Keys(sized) == ["seeds"] + names + ["size"];
    assert "featureWeight" !in Keys(sized);
    SetKeys(sized, "featureWeight", FloatV(FEATURE_WEIGHT));
  }

  /** The two assignments leave every numeric field as dumped. */
  lemma FinishedKeepsField(p: AIRecommendationParams, n: string)
    requires n in NUMERIC_FIELDS
    ensures Get(Finished(p), n) == Get(Dump(p), n)
  {
    assert n != "size" && n != "featureWeight";
    FinishedSets(p);
  }

  lemma FinishedFeatures(p: AIRecommendationParams)
    ensures forall n :: n in NUMERIC_FIELDS && p.Feature(n).Some? ==> Get(Finished(p), n) == Some(DumpNumber(p, n))
    ensures forall n :: n in NUMERIC_FIELDS && p.Feature(n).None? ==> Get(Finished(p), n).None?
  {
    forall n | n in NUMERIC_FIELDS
      ensures p.Feature(n).Some? ==> Get(Finished(p), n) == Some(DumpNumber(p, n))
      ensures p.Feature(n).None? ==> Get(Finished(p), n).None?
    {
      FinishedKeepsField(p, n);
      DumpShape(p);
    }
  }

  /** `to_query_params`: the dump without unset fields, then `size` and
      `featureWeight` written into it. */
  method ToQueryParams(p: AIRecommendationParams) returns (params: Dict<Value>)
    ensures Keys(params) == ["seeds"] + SetNames(p, NUMERIC_FIELDS) + ["size", "featureWeight"]
    ensures Get(params, "seeds") == Some(StrMapV(p.seeds))
    ensures forall n :: n in NUMERIC_FIELDS && p.Feature(n).Some? ==> Get(params, n) == Some(DumpNumber(p, n))
    ensures forall n :: n in NUMERIC_FIELDS && p.Feature(n).None? ==> Get(params, n).None?
    ensures Get(params, "size") == Some(IntV(NUMBER_OF_RECOMMENDATIONS))
    ensures Get(params, "featureWeight") == Some(FloatV(FEATURE_WEIGHT))
  {
    params := Dump(p);
    params := Set(params, "size", IntV(NUMBER_OF_RECOMMENDATIONS));
    params := Set(params, "featureWeight", FloatV(FEATURE_WEIGHT));
    FinishedKeys(p);
    FinishedValues(p);
    FinishedFeatures(p);
  }
}
