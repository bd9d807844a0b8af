/** The request model of playlist_search_params.py: a validated set of seeds
    and optional audio-feature constraints, and its serialisation into the
    keyword dictionary the recommendation client takes. */
module PlaylistSearch {
  import opened Wrappers
  import opened PyDict
  import Strings

  /** The genres a seed genre must be one of. */
  const VALID_GENRES: seq<string> := [
    "acoustic", "afrobeat", "alt-rock", "alternative", "ambient", "anime",
    "black-metal", "bluegrass", "blues", "bossanova", "brazil", "breakbeat",
    "british", "cantopop", "chicago-house", "children", "chill", "classical",
    "club", "comedy", "country", "dance", "dancehall", "death-metal", "deep-house",
    "detroit-techno", "disco", "disney", "drum-and-bass", "dub", "dubstep", "edm",
    "electro", "electronic", "emo", "folk", "forro", "french", "funk", "garage",
    "german", "gospel", "goth", "grindcore", "groove", "grunge", "guitar", "happy",
    "hard-rock", "hardcore", "hardstyle", "heavy-metal", "hip-hop", "holidays",
    "honky-tonk", "house", "idm", "indian", "indie", "indie-pop", "industrial",
    "iranian", "j-dance", "j-idol", "j-pop", "j-rock", "jazz", "k-pop", "kids",
    "latin", "latino", "malay", "mandopop", "metal", "metal-misc", "metalcore",
    "minimal-techno", "movies", "mpb", "new-age", "new-release", "opera", "pagode",
    "party", "philippines-opm", "piano", "pop", "pop-film", "post-dubstep",
    "power-pop", "progressive-house", "psych-rock", "punk", "punk-rock", "r-n-b",
    "rainy-day", "reggae", "reggaeton", "road-trip", "rock", "rock-n-roll",
    "rockabilly", "romance", "sad", "salsa", "samba", "sertanejo", "show-tunes",
    "singer-songwriter", "ska", "sleep", "songwriter", "soul", "soundtracks",
    "spanish", "study", "summer", "swedish", "synth-pop", "tango", "techno",
    "trance", "trip-hop", "turkish", "work-out", "world-music"]

  const MAX_SEEDS: nat := 5
  const DEFAULT_LIMIT: int := 20
  const MIN_LIMIT: int := 1
  const MAX_LIMIT: int := 100

  /** A number as a field holds it: declared `int` or declared `float`. */
  datatype Number = IntN(i: int) | FloatN(r: real) {
    function AsReal(): real {
      match this
      case IntN(i) => i as real
      case FloatN(r) => r
    }
  }

  datatype Kind = IntKind | FloatKind

  /** The numeric fields declared `Optional[int]`; the others are
      `Optional[float]`. */
  const INT_FIELDS: seq<string> := [
    "min_duration_ms", "max_duration_ms", "target_duration_ms", "target_key",
    "target_mode", "min_popularity", "max_popularity", "target_popularity",
    "target_time_signature"]

  function KindOf(name: string): Kind {
    if name in INT_FIELDS then IntKind else FloatKind
  }

  /** A float without a fractional part, or an int. */
  predicate Integral(n: Number) {
    n.IntN? || n.r == n.r.Floor as real
  }

  /** Pydantic's lax conversion of a number to a field's declared type: an
      int field takes a float without a fractional part as that int, a float
      field takes an int as a float; anything else is left as given (and
      then fails validation). */
  function Coerced(k: Kind, n: Number): (r: Number)
    ensures r.AsReal() == n.AsReal()
    ensures k == FloatKind ==> r.FloatN?
    ensures k == IntKind ==> (r.IntN? <==> Integral(n))
  {
    match (k, n)
    case (IntKind, FloatN(x)) => if x == x.Floor as real then IntN(x.Floor) else n
    case (FloatKind, IntN(i)) => FloatN(i as real)
    case _ => n
  }

  /** A field constraint: `ge=lo, le=hi`, or `gt=0`. */
  datatype Bound = Closed(lo: real, hi: real) | Positive

  /** One optional numeric field: its name and constraint. A value reaches
      the check already converted to the declared type (`Coerced`). */
  datatype Tunable = Tunable(name: string, bound: Bound) {
    function Kind(): Kind {
      KindOf(name)
    }

    predicate Admits(n: Number) {
      && (Kind() == IntKind <==> n.IntN?)
      && match bound
         case Closed(lo, hi) => lo <= n.AsReal() <= hi
         case Positive => 0.0 < n.AsReal()
    }
  }

  /** Validation after the lax conversion: an int field accepts any integral
      number and a float field any number, within the field's bound. */
  lemma AdmitsCoerced(t: Tunable, n: Number)
    ensures t.Admits(Coerced(t.Kind(), n)) <==>
      && (t.Kind() == IntKind ==> Integral(n))
      && match t.bound
         case Closed(lo, hi) => lo <= n.AsReal() <= hi
         case Positive => 0.0 < n.AsReal()
  {
  }

  /** The optional numeric fields in declaration order. */
  const TUNABLES: seq<Tunable> := [
    Tunable("min_acousticness", Closed(0.0, 1.0)),
    Tunable("max_acousticness", Closed(0.0, 1.0)),
    Tunable("target_acousticness", Closed(0.0, 1.0)),
    Tunable("min_danceability", Closed(0.0, 1.0)),
    Tunable("max_danceability", Closed(0.0, 1.0)),
    Tunable("target_danceability", Closed(0.0, 1.0)),
    Tunable("min_duration_ms", Positive),
    Tunable("max_duration_ms", Positive),
    Tunable("target_duration_ms", Positive),
    Tunable("min_energy", Closed(0.0, 1.0)),
    Tunable("max_energy", Closed(0.0, 1.0)),
    Tunable("target_energy", Closed(0.0, 1.0)),
    Tunable("min_instrumentalness", Closed(0.0, 1.0)),
    Tunable("max_instrumentalness", Closed(0.0, 1.0)),
    Tunable("target_instrumentalness", Closed(0.0, 1.0)),
    Tunable("target_key", Closed(0.0, 11.0)),
    Tunable("min_liveness", Closed(0.0, 1.0)),
    Tunable("max_liveness", Closed(0.0, 1.0)),
    Tunable("target_liveness", Closed(0.0, 1.0)),
    Tunable("target_mode", Closed(0.0, 1.0)),
    Tunable("min_popularity", Closed(0.0, 100.0)),
    Tunable("max_popularity", Closed(0.0, 100.0)),
    Tunable("target_popularity", Closed(0.0, 100.0)),
    Tunable("min_speechiness", Closed(0.0, 1.0)),
    Tunable("max_speechiness", Closed(0.0, 1.0)),
    Tunable("target_speechiness", Closed(0.0, 1.0)),
    Tunable("min_tempo", Positive),
    Tunable("max_tempo", Positive),
    Tunable("target_tempo", Positive),
    Tunable("target_time_signature", Closed(2.0, 11.0)),
    Tunable("min_valence", Closed(0.0, 1.0)),
    Tunable("max_valence", Closed(0.0, 1.0)),
    Tunable("target_valence", Closed(0.0, 1.0))
  ]

  const SEED_FIELDS: seq<string> := ["seed_artists", "seed_genres", "seed_tracks"]

  function TunableNames(ts: seq<Tunable>): (names: seq<string>)
    ensures |names| == |ts| && forall i :: 0 <= i < |ts| ==> names[i] == ts[i].name
  {
    seq(|ts|, i requires 0 <= i < |ts| => ts[i].name)
  }

  /** Every field of the model, in declaration order. */
  const FIELD_NAMES: seq<string> := ["limit"] + SEED_FIELDS + TunableNames(TUNABLES)

  /** The model: `limit`, the three seed lists, and the numeric fields that
      are set (a field absent from `tunables` is None). */
  datatype PlaylistSearchParams = PlaylistSearchParams(
    limit: Option<int>,
    seedArtists: seq<string>,
    seedGenres: seq<string>,
    seedTracks: seq<string>,
    tunables: map<string, Number>)

  /** Whether `limit` was passed, and with what. */
  datatype LimitArg = LimitOmitted | LimitGiven(value: Option<int>)

  function LimitOf(arg: LimitArg): (limit: Option<int>)
    ensures arg.LimitOmitted? ==> limit == Some(DEFAULT_LIMIT)
    ensures arg.LimitGiven? ==> limit == arg.value
  {
    match arg
    case LimitOmitted => Some(DEFAULT_LIMIT)
    case LimitGiven(v) => v
  }

  predicate LimitValid(limit: Option<int>) {
    limit.Some? ==> MIN_LIMIT <= limit.value <= MAX_LIMIT
  }

  /** The names of the set numeric fields of ts that break their constraint,
      in declaration order. */
  function BadTunables(ts: seq<Tunable>, given: map<string, Number>): seq<string> {
    if ts == [] then []
    else
      var rest := BadTunables(ts[1..], given);
      if ts[0].name in given && !ts[0].Admits(given[ts[0].name]) then [ts[0].name] + rest else rest
  }

  /** A name is reported exactly when it names a field of ts that is set and
      breaks its constraint. */
  lemma {:induction false} BadTunablesNames(ts: seq<Tunable>, given: map<string, Number>)
    ensures forall n :: n in BadTunables(ts, given) <==>
      exists i :: 0 <= i < |ts| && ts[i].name == n && n in given && !ts[i].Admits(given[n])
  {
    if ts != [] {
      var rest := BadTunables(ts[1..], given);
      BadTunablesNames(ts[1..], given);
      forall n | n in rest ensures exists i :: 1 <= i < |ts| && ts[i].name == n && n in given && !ts[i].Admits(given[n]) {
        var i :| 0 <= i < |ts[1..]| && ts[1..][i].name == n && n in given && !ts[1..][i].Admits(given[n]);
        assert ts[i + 1] == ts[1..][i];
      }
      forall n, i | 1 <= i < |ts| && ts[i].name == n && n in given && !ts[i].Admits(given[n]) ensures n in rest {
        assert ts[1..][i - 1] == ts[i];
      }
    }
  }

  /** Every field error pydantic reports, in declaration order. */
  function FieldErrors(limit: Option<int>, given: map<string, Number>): seq<string> {
    (if LimitValid(limit) then [] else ["limit"]) + BadTunables(TUNABLES, given)
  }

  /** There is no field error exactly when `limit` is valid and every set
      numeric field meets its constraint. */
  lemma FieldErrorsNone(limit: Option<int>, given: map<string, Number>)
    ensures FieldErrors(limit, given) == [] <==> (LimitValid(limit) &&
      forall i :: 0 <= i < |TUNABLES| && TUNABLES[i].name in given ==> TUNABLES[i].Admits(given[TUNABLES[i].name]))
  {
    var rest := BadTunables(TUNABLES, given);
    BadTunablesNames(TUNABLES, given);
    if rest != [] {
      assert rest[0] in rest;
    }
  }

  /** Extra keyword arguments are ignored: only declared fields are kept,
      each converted to its declared type. */
  function Declared(given: map<string, Number>): (kept: map<string, Number>)
    ensures forall n :: n in kept <==> n in given && n in TunableNames(TUNABLES)
    ensures forall n :: n in kept ==> kept[n] == Coerced(KindOf(n), given[n])
  {
    map n | n in given && n in TunableNames(TUNABLES) :: Coerced(KindOf(n), given[n])
  }

  /** An int given for a float field is kept as that float. */
  lemma DeclaredIntForFloat()
    ensures Declared(map["target_energy" := IntN(1)]) == map["target_energy" := FloatN(1.0)]
  {
    assert TUNABLES[11].name == "target_energy";
    assert "target_energy" in TunableNames(TUNABLES);
    assert KindOf("target_energy") == FloatKind;
  }

  /** An int given for a float field passes validation. */
  lemma IntForFloatField()
    ensures FieldErrors(Some(DEFAULT_LIMIT), Declared(map["target_energy" := IntN(1)])) == []
  {
    DeclaredIntForFloat();
    var kept := map["target_energy" := FloatN(1.0)];
    FieldErrorsNone(Some(DEFAULT_LIMIT), kept);
    forall i | 0 <= i < |TUNABLES| && TUNABLES[i].name in kept
      ensures TUNABLES[i].Admits(kept[TUNABLES[i].name])
    {
      EnergyBound(i);
    }
  }

  lemma EnergyBound(i: nat)
    requires i < |TUNABLES| && TUNABLES[i].name == "target_energy"
    ensures TUNABLES[i].bound == Closed(0.0, 1.0)
  {
  }

  datatype ValidationError =
    | InvalidFields(fields: seq<string>)
    | NoSeeds
    | TooManySeeds
    | InvalidGenre(genre: string)

  function TotalSeeds(p: PlaylistSearchParams): nat {
    |p.seedArtists| + |p.seedGenres| + |p.seedTracks|
  }

  /** `validate_seeds`: between one and five seeds in all. */
  function ValidateSeeds(p: PlaylistSearchParams): (r: Outcome<ValidationError>)
    ensures r.Pass? <==> 1 <= TotalSeeds(p) <= MAX_SEEDS
    ensures r == Fail(NoSeeds) <==> TotalSeeds(p) == 0
    ensures r == Fail(TooManySeeds) <==> MAX_SEEDS < TotalSeeds(p)
  {
    var total := TotalSeeds(p);
    if total == 0 then Fail(NoSeeds)
    else if total > MAX_SEEDS then Fail(TooManySeeds)
    else Pass
  }

  /** `validate_genres`: the first seed genre outside the whitelist is
      reported. */
  method ValidateGenres(genres: seq<string>) returns (r: Outcome<ValidationError>)
    ensures r.Pass? <==> forall g :: g in genres ==> g in VALID_GENRES
    ensures r.Fail? ==> exists i :: (0 <= i < |genres| && r.error == InvalidGenre(genres[i]) &&
      genres[i] !in VALID_GENRES && forall j :: 0 <= j < i ==> genres[j] in VALID_GENRES)
  {
    for i := 0 to |genres|
      invariant forall j :: 0 <= j < i ==> genres[j] in VALID_GENRES
    {
      if genres[i] !in VALID_GENRES {
        return Fail(InvalidGenre(genres[i]));
      }
    }
    return Pass;
  }

  /** The model invariant every constructed object satisfies. */
  predicate Valid(p: PlaylistSearchParams) {
    && FieldErrors(p.limit, p.tunables) == []
    && (forall n :: n in p.tunables ==> n in TunableNames(TUNABLES))
    && ValidateSeeds(p).Pass?
    && (forall g :: g in p.seedGenres ==> g in VALID_GENRES)
  }

  /** `PlaylistSearchParams(**kwargs)`: field constraints first (all
      violations reported together), then the seed count, then the genres. */
  method Construct(limit: LimitArg, seedArtists: seq<string>, seedGenres: seq<string>,
                   seedTracks: seq<string>, given: map<string, Number>)
    returns (r: Result<PlaylistSearchParams, ValidationError>)
    ensures r.Success? ==> r.value == PlaylistSearchParams(LimitOf(limit), seedArtists, seedGenres, seedTracks, Declared(given))
    ensures r.Success? <==> Valid(PlaylistSearchParams(LimitOf(limit), seedArtists, seedGenres, seedTracks, Declared(given)))
    ensures FieldErrors(LimitOf(limit), Declared(given)) != [] ==>
      r == Failure(InvalidFields(FieldErrors(LimitOf(limit), Declared(given))))
    ensures FieldErrors(LimitOf(limit), Declared(given)) == [] && !(1 <= |seedArtists| + |seedGenres| + |seedTracks| <= MAX_SEEDS) ==>
      r.Failure? && (r.error == NoSeeds || r.error == TooManySeeds)
    ensures r.Failure? && r.error.InvalidGenre? ==> r.error.genre in seedGenres && r.error.genre !in VALID_GENRES
    ensures var p := PlaylistSearchParams(LimitOf(limit), seedArtists, seedGenres, seedTracks, Declared(given));
      FieldErrors(p.limit, p.tunables) == [] && ValidateSeeds(p).Fail? ==> r == Failure(ValidateSeeds(p).error)
    ensures var p := PlaylistSearchParams(LimitOf(limit), seedArtists, seedGenres, seedTracks, Declared(given));
      FieldErrors(p.limit, p.tunables) == [] && ValidateSeeds(p).Pass? && r.Failure? ==>
        exists i :: (0 <= i < |seedGenres| && r.error == InvalidGenre(seedGenres[i]) &&
          seedGenres[i] !in VALID_GENRES && forall j :: 0 <= j < i ==> seedGenres[j] in VALID_GENRES)
  {
    var p := PlaylistSearchParams(LimitOf(limit), seedArtists, seedGenres, seedTracks, Declared(given));
    var errors := FieldErrors(p.limit, p.tunables);
    if errors != [] {
      return Failure(InvalidFields(errors));
    }
    var seeds := ValidateSeeds(p);
    if seeds.Fail? {
      return Failure(seeds.error);
    }
    var genres := ValidateGenres(p.seedGenres);
    if genres.Fail? {
      return Failure(genres.error);
    }
    return Success(p);
  }

  // ---------------------------------------------------------------------
  // Serialisation
  // ---------------------------------------------------------------------

  function NumberValue(n: Number): Value {
    match n
    case IntN(i) => IntV(i)
    case FloatN(r) => FloatV(r)
  }

  /** A numeric field as `model_dump` writes it: its value, or None. */
  function TunableValue(p: PlaylistSearchParams, name: string): Value {
    if name in p.tunables then NumberValue(p.tunables[name]) else NoneV
  }

  function TunableEntries(p: PlaylistSearchParams, ts: seq<Tunable>): (d: Dict<Value>)
    ensures Keys(d) == TunableNames(ts)
    ensures forall i :: 0 <= i < |d| ==> d[i].1 == TunableValue(p, ts[i].name)
  {
    seq(|ts|, i requires 0 <= i < |ts| => (ts[i].name, TunableValue(p, ts[i].name)))
  }

  /** `model_dump()`: every field in declaration order, None included. */
  function ModelDump(p: PlaylistSearchParams): Dict<Value> {
    DumpOf(p, TUNABLES)
  }

  /** The dump over a given table of numeric fields. */
  function DumpOf(p: PlaylistSearchParams, ts: seq<Tunable>): Dict<Value> {
    HeadDump(p) + TunableEntries(p, ts)
  }

  /** The page size and the seed lists, the first fields of the dump. */
  function HeadDump(p: PlaylistSearchParams): Dict<Value> {
    [("limit", if p.limit.Some? then IntV(p.limit.value) else NoneV),
     ("seed_artists", StrListV(p.seedArtists)),
     ("seed_genres", StrListV(p.seedGenres)),
     ("seed_tracks", StrListV(p.seedTracks))]
  }

  /** The first four names of the dump are distinct. */
  lemma HeadKeysDistinct(p: PlaylistSearchParams, a: nat, b: nat)
    requires a < 4 && b < 4 && HeadDump(p)[a].0 == HeadDump(p)[b].0
    ensures a == b
  {
  }

  /** What the loop of `to_spotipy_dict` writes for one dumped entry: a
      non-empty seed list joined by commas; any other value unless it is
      None or an empty list. */
  function Emit(k: string, v: Value): Option<Value> {
    if k in SEED_FIELDS then
      (if v.StrListV? && v.items != [] then Some(StrV(Strings.Join(v.items, ','))) else None)
    else if v != NoneV && v != StrListV([]) then Some(v)
    else None
  }

  /** The dictionary the loop has built after the given entries. */
  function Serialised(data: Dict<Value>): Dict<Value> {
    if data == [] then []
    else
      var front := Serialised(data[..|data| - 1]);
      var (k, v) := data[|data| - 1];
      match Emit(k, v)
      case Some(e) => Set(front, k, e)
      case None => front
  }

  /** The loop of `to_spotipy_dict` over the dumped entries. */
  method SerialiseEntries(data: Dict<Value>) returns (out: Dict<Value>)
    ensures out == Serialised(data)
  {
    out := [];
    for i := 0 to |data|
      invariant out == Serialised(data[..i])
    {
      var (k, v) := data[i];
      assert data[..i + 1][..i] == data[..i];
      if k in SEED_FIELDS {
        if v.StrListV? && v.items != [] {
          out := Set(out, k, StrV(Strings.Join(v.items, ',')));
        }
      } else if v != NoneV && v != StrListV([]) {
        out := Set(out, k, v);
      }
    }
    assert data[..|data|] == data;
  }

  /** `to_spotipy_dict`. */
  method ToSpotipyDict(p: PlaylistSearchParams) returns (out: Dict<Value>)
    ensures out == Serialised(ModelDump(p))
    ensures Get(out, "limit") == if p.limit.Some? then Some(IntV(p.limit.value)) else None
    ensures Get(out, "seed_artists") == SeedEntry(p.seedArtists)
    ensures Get(out, "seed_genres") == SeedEntry(p.seedGenres)
    ensures Get(out, "seed_tracks") == SeedEntry(p.seedTracks)
    ensures forall i :: 0 <= i < |TUNABLES| ==> (Get(out, TUNABLES[i].name) ==
      if TUNABLES[i].name in p.tunables then Some(NumberValue(p.tunables[TUNABLES[i].name])) else None)
    ensures forall k :: k !in FIELD_NAMES ==> Get(out, k).None?
  {
    out := SerialiseEntries(ModelDump(p));
    SpotipyDictFields(p);
  }

  /** A seed list as `to_spotipy_dict` writes it. */
  function SeedEntry(seeds: seq<string>): Option<Value> {
    if seeds == [] then None else Some(StrV(Strings.Join(seeds, ',')))
  }

  /** What the serialising loop leaves under a key whose entries all hold
      the same value: the emitted form of that value, or nothing when the
      key was not dumped. */
  lemma {:induction false} SerialisedGet(data: Dict<Value>, k: string, v: Value)
    requires forall j :: 0 <= j < |data| && data[j].0 == k ==> data[j].1 == v
    ensures Get(Serialised(data), k) == if k in Keys(data) then Emit(k, v) else None
    decreases |data|
  {
    if data != [] {
      var n := |data| - 1;
      var front := data[..n];
      var last := data[n];
      assert data == front + [last];
      KeysSnoc(front, last);
      SerialisedGet(front, k, v);
      match Emit(last.0, last.1) {
        case Some(e) => SetGet(Serialised(front), last.0, e);
        case None =>
      }
    }
  }

  /** Every name of a table starts with 'm' or 't', as the numeric field
      names do. */
  predicate NamesShaped(ts: seq<Tunable>) {
    forall i :: 0 <= i < |ts| ==> |ts[i].name| > 0 && (ts[i].name[0] == 'm' || ts[i].name[0] == 't')
  }

  lemma TunableNamesShape()
    ensures NamesShaped(TUNABLES)
  {
  }

  lemma DumpKeys(p: PlaylistSearchParams, ts: seq<Tunable>)
    ensures Keys(DumpOf(p, ts)) == ["limit"] + SEED_FIELDS + TunableNames(ts)
  {
    KeysAppend(HeadDump(p), TunableEntries(p, ts));
    assert Keys(HeadDump(p)) == ["limit"] + SEED_FIELDS;
  }

  lemma ModelDumpKeys(p: PlaylistSearchParams)
    ensures Keys(ModelDump(p)) == FIELD_NAMES
  {
    DumpKeys(p, TUNABLES);
  }

  /** A dumped entry past the first four is the numeric field's. */
  lemma TailEntry(p: PlaylistSearchParams, ts: seq<Tunable>, k: nat)
    requires 4 <= k < |DumpOf(p, ts)|
    ensures DumpOf(p, ts)[k].0 == ts[k - 4].name
    ensures DumpOf(p, ts)[k].1 == TunableValue(p, ts[k - 4].name)
  {
    var tail := TunableEntries(p, ts);
    assert DumpOf(p, ts)[k] == tail[k - 4];
    assert tail[k - 4].0 == Keys(tail)[k - 4];
  }

  /** No numeric field shares a name with the page size or a seed list. */
  lemma TunableNotHead(ts: seq<Tunable>, i: nat)
    requires NamesShaped(ts) && i < |ts|
    ensures ts[i].name != "limit" && ts[i].name !in SEED_FIELDS
  {
    assert ts[i].name[0] == 'm' || ts[i].name[0] == 't';
  }

  /** Entries of the dump with the same key hold the same value: the first
      four names are not numeric field names, and a numeric field's value
      depends on its name alone. */
  lemma DumpUniform(p: PlaylistSearchParams, ts: seq<Tunable>, i: nat, j: nat)
    requires NamesShaped(ts)
    requires i < |DumpOf(p, ts)| && j < |DumpOf(p, ts)|
    requires DumpOf(p, ts)[i].0 == DumpOf(p, ts)[j].0
    ensures DumpOf(p, ts)[i].1 == DumpOf(p, ts)[j].1
  {
    var d, h := DumpOf(p, ts), HeadDump(p);
    if i < 4 {
      assert d[i] == h[i];
    } else {
      TailEntry(p, ts, i);
      TunableNotHead(ts, i - 4);
    }
    if j < 4 {
      assert d[j] == h[j];
    } else {
      TailEntry(p, ts, j);
      TunableNotHead(ts, j - 4);
    }
    if i < 4 && j < 4 {
      HeadKeysDistinct(p, i, j);
    }
  }

  /** What the serialised dict holds under the key of a dumped entry. */
  lemma DumpEmits(p: PlaylistSearchParams, ts: seq<Tunable>, j: nat)
    requires NamesShaped(ts) && j < |DumpOf(p, ts)|
    ensures Get(Serialised(DumpOf(p, ts)), DumpOf(p, ts)[j].0) == Emit(DumpOf(p, ts)[j].0, DumpOf(p, ts)[j].1)
  {
    var d := DumpOf(p, ts);
    forall i | 0 <= i < |d| && d[i].0 == d[j].0 ensures d[i].1 == d[j].1 {
      DumpUniform(p, ts, i, j);
    }
    SerialisedGet(d, d[j].0, d[j].1);
    assert Keys(d)[j] == d[j].0;
  }

  /** The page size and the three seed lists, as serialised. */
  lemma HeadFields(p: PlaylistSearchParams, ts: seq<Tunable>)
    requires NamesShaped(ts)
    ensures Get(Serialised(DumpOf(p, ts)), "limit") == if p.limit.Some? then Some(IntV(p.limit.value)) else None
    ensures Get(Serialised(DumpOf(p, ts)), "seed_artists") == SeedEntry(p.seedArtists)
    ensures Get(Serialised(DumpOf(p, ts)), "seed_genres") == SeedEntry(p.seedGenres)
    ensures Get(Serialised(DumpOf(p, ts)), "seed_tracks") == SeedEntry(p.seedTracks)
  {
    DumpEmits(p, ts, 0);
    DumpEmits(p, ts, 1);
    DumpEmits(p, ts, 2);
    DumpEmits(p, ts, 3);
  }

  /** A numeric field is serialised as its number when set. */
  lemma TunableField(p: PlaylistSearchParams, ts: seq<Tunable>, i: nat)
    requires NamesShaped(ts) && i < |ts|
    ensures Get(Serialised(DumpOf(p, ts)), ts[i].name) ==
      if ts[i].name in p.tunables then Some(NumberValue(p.tunables[ts[i].name])) else None
  {
    TailEntry(p, ts, 4 + i);
    DumpEmits(p, ts, 4 + i);
    TunableNotHead(ts, i);
  }

  /** A name that is not a field is absent from the serialised dict. */
  lemma UndumpedField(p: PlaylistSearchParams, ts: seq<Tunable>, k: string)
    requires k !in ["limit"] + SEED_FIELDS + TunableNames(ts)
    ensures Get(Serialised(DumpOf(p, ts)), k).None?
  {
    var d := DumpOf(p, ts);
    DumpKeys(p, ts);
    assert forall j :: 0 <= j < |d| ==> d[j].0 == Keys(d)[j];
    SerialisedGet(d, k, NoneV);
  }

  lemma SpotipyDictFields(p: PlaylistSearchParams)
    ensures Get(Serialised(ModelDump(p)), "limit") == if p.limit.Some? then Some(IntV(p.limit.value)) else None
    ensures Get(Serialised(ModelDump(p)), "seed_artists") == SeedEntry(p.seedArtists)
    ensures Get(Serialised(ModelDump(p)), "seed_genres") == SeedEntry(p.seedGenres)
    ensures Get(Serialised(ModelDump(p)), "seed_tracks") == SeedEntry(p.seedTracks)
    ensures forall i :: 0 <= i < |TUNABLES| ==> (Get(Serialised(ModelDump(p)), TUNABLES[i].name) ==
      if TUNABLES[i].name in p.tunables then Some(NumberValue(p.tunables[TUNABLES[i].name])) else None)
    ensures forall k :: k !in FIELD_NAMES ==> Get(Serialised(ModelDump(p)), k).None?
  {
    TunableNamesShape();
    HeadFields(p, TUNABLES);
    forall i | 0 <= i < |TUNABLES| ensures Get(Serialised(ModelDump(p)), TUNABLES[i].name) ==
      (if TUNABLES[i].name in p.tunables then Some(NumberValue(p.tunables[TUNABLES[i].name])) else None)
    {
      TunableField(p, TUNABLES, i);
    }
    forall k | k !in FIELD_NAMES ensures Get(Serialised(ModelDump(p)), k).None? {
      UndumpedField(p, TUNABLES, k);
    }
  }
}
