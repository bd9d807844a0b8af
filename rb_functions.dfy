/** The parsing half of rb/rb_functions.py: the track id in a Spotify link,
    the filtering of a recommendation response, and the request URL. */
module ReccoBeatsClient {
  import opened Wrappers
  import Strings

  // ---------------------------------------------------------------------
  // `_extract_track_id`: re.search(r"/track/([^/?#]+)", href)
  // ---------------------------------------------------------------------

  const TRACK_MARKER: string := "/track/"

  /** The characters the id group `[^/?#]` may not contain. */
  predicate Stop(c: char) {
    c == '/' || c == '?' || c == '#'
  }

  /** The pattern matches at position i: the marker, then at least one
      character outside the stop set. */
  predicate MatchAt(href: string, i: nat) {
    && i + |TRACK_MARKER| < |href|
    && href[i..i + |TRACK_MARKER|] == TRACK_MARKER
    && !Stop(href[i + |TRACK_MARKER|])
  }

  /** The end of the greedy run of non-stop characters starting at j. */
  function RunEnd(s: string, j: nat): (e: nat)
    requires j <= |s|
    ensures j <= e <= |s|
    ensures forall k :: j <= k < e ==> !Stop(s[k])
    ensures e == |s| || Stop(s[e])
    decreases |s| - j
  {
    if j == |s| || Stop(s[j]) then j else RunEnd(s, j + 1)
  }

  /** The leftmost match at or after position i. */
  function FirstMatchFrom(href: string, i: nat): (m: Option<nat>)
    ensures m.None? ==> forall j :: i <= j ==> !MatchAt(href, j)
    ensures m.Some? ==> i <= m.value && MatchAt(href, m.value)
    ensures m.Some? ==> forall j :: i <= j < m.value ==> !MatchAt(href, j)
    decreases |href| - i
  {
    if |href| <= i + |TRACK_MARKER| then None
    else if MatchAt(href, i) then Some(i)
    else FirstMatchFrom(href, i + 1)
  }

  /** id is what the group captures for a match at i: it follows the marker
      and runs up to the end of the string or a stop character. */
  predicate CapturedAt(href: string, i: nat, id: string) {
    var start := i + |TRACK_MARKER|;
    && start + |id| <= |href|
    && href[start..start + |id|] == id
    && (start + |id| == |href| || Stop(href[start + |id|]))
  }

  /** `_extract_track_id`: None exactly when the pattern matches nowhere;
      otherwise the maximal non-empty run of non-stop characters after the
      leftmost "/track/" that starts one. */
  function ExtractTrackId(href: string): (r: Option<string>)
    ensures r.None? <==> forall i :: !MatchAt(href, i)
    ensures r.Some? ==> exists i :: MatchAt(href, i) && (forall j :: j < i ==> !MatchAt(href, j)) && CapturedAt(href, i, r.value)
    ensures r.Some? ==> |r.value| > 0 && forall k :: 0 <= k < |r.value| ==> !Stop(r.value[k])
  {
    match FirstMatchFrom(href, 0)
    case None => None
    case Some(i) =>
      var start := i + |TRACK_MARKER|;
      var id := href[start..RunEnd(href, start)];
      assert CapturedAt(href, i, id);
      Some(id)
  }

  // ---------------------------------------------------------------------
  // `parse_recommendations`, after the JSON decode
  // ---------------------------------------------------------------------

  /** One element of the response's "content" list: its "href" and "id"
      entries, when present. */
  datatype RecommendedItem = RecommendedItem(href: Option<string>, id: Option<string>)

  /** One kept record: the Spotify id from the link and ReccoBeats' own id
      (None when the item had no "id"). */
  datatype TrackIds = TrackIds(spotId: string, recId: Option<string>)

  /** `item.get("href", "")`. */
  function HrefOf(item: RecommendedItem): string {
    if item.href.Some? then item.href.value else ""
  }

  predicate HasTrackId(item: RecommendedItem) {
    ExtractTrackId(HrefOf(item)).Some?
  }

  /** The record built for an item whose link carries a track id. */
  function Record(item: RecommendedItem): TrackIds
    requires HasTrackId(item)
  {
    TrackIds(ExtractTrackId(HrefOf(item)).value, item.id)
  }

  /** The first comprehension: one candidate per item, in order. */
  function Candidates(items: seq<RecommendedItem>): (c: seq<(Option<string>, Option<string>)>)
    ensures |c| == |items|
    ensures forall k :: 0 <= k < |c| ==> c[k] == (ExtractTrackId(HrefOf(items[k])), items[k].id)
  {
    seq(|items|, k requires 0 <= k < |items| => (ExtractTrackId(HrefOf(items[k])), items[k].id))
  }

  /** The second comprehension: the candidates whose spot id is not None. */
  function KeepWithId(c: seq<(Option<string>, Option<string>)>): seq<TrackIds> {
    if c == [] then []
    else if c[0].0.Some? then [TrackIds(c[0].0.value, c[0].1)] + KeepWithId(c[1..])
    else KeepWithId(c[1..])
  }

  /** `parse_recommendations` on the decoded response; a missing "content"
      is the empty list. */
  function ParseRecommendations(content: Option<seq<RecommendedItem>>): seq<TrackIds> {
    KeepWithId(Candidates(if content.Some? then content.value else []))
  }

  /** Whether each item's link carries a track id. */
  function Linked(items: seq<RecommendedItem>): (flags: seq<bool>)
    ensures |flags| == |items| && forall k :: 0 <= k < |items| ==> flags[k] == HasTrackId(items[k])
  {
    seq(|items|, k requires 0 <= k < |items| => HasTrackId(items[k]))
  }

  function Shift(s: seq<nat>): (r: seq<nat>)
    ensures |r| == |s| && forall a :: 0 <= a < |s| ==> r[a] == s[a] + 1
  {
    seq(|s|, a requires 0 <= a < |s| => s[a] + 1)
  }

  /** The positions holding true, in increasing order. */
  function TruePositions(flags: seq<bool>): (idx: seq<nat>)
    ensures forall a :: 0 <= a < |idx| ==> idx[a] < |flags| && flags[idx[a]]
    ensures forall a, b :: 0 <= a < b < |idx| ==> idx[a] < idx[b]
  {
    if flags == [] then []
    else
      var rest := TruePositions(flags[1..]);
      var shifted := Shift(rest);
      assert forall a :: 0 <= a < |shifted| ==> 1 <= shifted[a] < |flags| && flags[shifted[a]] by {
        forall a | 0 <= a < |shifted| ensures 1 <= shifted[a] < |flags| && flags[shifted[a]] {
          assert flags[1..][rest[a]] == flags[rest[a] + 1];
        }
      }
      if flags[0] then [0] + shifted else shifted
  }

  /** Every position holding true is listed. */
  lemma {:induction false} TruePositionsComplete(flags: seq<bool>, k: nat)
    requires k < |flags| && flags[k]
    ensures k in TruePositions(flags)
  {
    if k > 0 {
      assert flags[1..][k - 1];
      TruePositionsComplete(flags[1..], k - 1);
      var rest := TruePositions(flags[1..]);
      var a :| 0 <= a < |rest| && rest[a] == k - 1;
      assert Shift(rest)[a] == k;
    }
  }

  /** Whether each candidate has a spot id. */
  function HasId(c: seq<(Option<string>, Option<string>)>): (flags: seq<bool>)
    ensures |flags| == |c| && forall k :: 0 <= k < |c| ==> flags[k] == c[k].0.Some?
  {
    seq(|c|, k requires 0 <= k < |c| => c[k].0.Some?)
  }

  /** The records built from the candidates at the given positions. */
  function RecordsAt(c: seq<(Option<string>, Option<string>)>, idx: seq<nat>): (r: seq<TrackIds>)
    requires forall a :: 0 <= a < |idx| ==> idx[a] < |c| && c[idx[a]].0.Some?
    ensures |r| == |idx|
  {
    seq(|idx|, a requires 0 <= a < |idx| => TrackIds(c[idx[a]].0.value, c[idx[a]].1))
  }

  /** Positions into the tail, shifted by one, pick the same records. */
  lemma RecordsAtShift(c: seq<(Option<string>, Option<string>)>, rest: seq<nat>)
    requires c != []
    requires forall a :: 0 <= a < |rest| ==> rest[a] < |c| - 1 && c[1..][rest[a]].0.Some?
    ensures forall a :: 0 <= a < |rest| ==> Shift(rest)[a] < |c| && c[Shift(rest)[a]].0.Some?
    ensures RecordsAt(c, Shift(rest)) == RecordsAt(c[1..], rest)
  {
    assert forall a :: 0 <= a < |rest| ==> c[Shift(rest)[a]] == c[1..][rest[a]];
  }

  /** The positions of the candidates with an id, split at the head. */
  lemma HasIdPositionsCons(c: seq<(Option<string>, Option<string>)>)
    requires c != []
    ensures TruePositions(HasId(c)) ==
      (if c[0].0.Some? then [0] else []) + Shift(TruePositions(HasId(c[1..])))
  {
    assert HasId(c)[1..] == HasId(c[1..]);
  }

  /** Picking position 0 first puts the head's record first. */
  lemma RecordsAtHead(c: seq<(Option<string>, Option<string>)>, rest: seq<nat>)
    requires c != [] && c[0].0.Some?
    requires forall a :: 0 <= a < |rest| ==> rest[a] < |c| && c[rest[a]].0.Some?
    ensures forall a :: 0 <= a < |[0] + rest| ==> ([0] + rest)[a] < |c| && c[([0] + rest)[a]].0.Some?
    ensures RecordsAt(c, [0] + rest) == [TrackIds(c[0].0.value, c[0].1)] + RecordsAt(c, rest)
  {
    assert forall a :: 0 < a <= |rest| ==> ([0] + rest)[a] == rest[a - 1];
  }

  /** The filter keeps the candidates with a spot id, in order. */
  lemma {:induction false} KeepWithIdInOrder(c: seq<(Option<string>, Option<string>)>)
    ensures KeepWithId(c) == RecordsAt(c, TruePositions(HasId(c)))
  {
    if c != [] {
      var rest := TruePositions(HasId(c[1..]));
      KeepWithIdInOrder(c[1..]);
      RecordsAtShift(c, rest);
      HasIdPositionsCons(c);
      var tail := RecordsAt(c, Shift(rest));
      assert KeepWithId(c[1..]) == tail;
      if c[0].0.Some? {
        RecordsAtHead(c, Shift(rest));
        assert TruePositions(HasId(c)) == [0] + Shift(rest);
        assert KeepWithId(c) == [TrackIds(c[0].0.value, c[0].1)] + tail;
      } else {
        assert TruePositions(HasId(c)) == Shift(rest);
        assert KeepWithId(c) == tail;
      }
    }
  }

  /** The result is exactly the records of the items whose link carries a
      track id (every such item, by TruePositionsComplete), in input order,
      each paired with that item's own "id". */
  lemma ParseKeepsLinkedItemsInOrder(items: seq<RecommendedItem>)
    ensures var idx := TruePositions(Linked(items));
      && |ParseRecommendations(Some(items))| == |idx|
      && forall a :: 0 <= a < |idx| ==> ParseRecommendations(Some(items))[a] == Record(items[idx[a]])
  {
    var c := Candidates(items);
    KeepWithIdInOrder(c);
    assert HasId(c) == Linked(items);
  }

  /** Without "content", or with an empty one, nothing is returned; an item
      without "href" is dropped. */
  lemma NoContentNoIds(item: RecommendedItem)
    ensures ParseRecommendations(None) == []
    ensures ParseRecommendations(Some([])) == []
    ensures item.href.None? ==> ParseRecommendations(Some([item])) == []
  {
    if item.href.None? {
      assert ExtractTrackId("").None?;
      var c := Candidates([item]);
      assert c == [(None, item.id)];
      assert c[1..] == [];
    }
  }

  // ---------------------------------------------------------------------
  // The request URL of `get_recommendations`
  // ---------------------------------------------------------------------

  /** `f"{key}={value}"`, the value already rendered as text. */
  function Pair(key: string, value: string): string {
    key + "=" + value
  }

  /** The query: every pair, in dict order, joined by '&', unescaped. */
  function QueryString(params: seq<(string, string)>): string {
    Strings.Join(seq(|params|, k requires 0 <= k < |params| => Pair(params[k].0, params[k].1)), '&')
  }

  /** `GET_REC_URL + "?" + parsed_params`. */
  function RecommendationUrl(base: string, params: seq<(string, string)>): (url: string)
    ensures |url| > |base|
    ensures url[..|base| + 1] == base + "?"
    ensures url[|base| + 1..] == QueryString(params)
    ensures params == [] ==> url == base + "?"
  {
    base + "?" + QueryString(params)
  }

  /** Splitting at the first occurrence of c (everything when there is
      none). */
  function SplitOnce(s: string, c: char): (string, string) {
    if s == [] then ("", "")
    else if s[0] == c then ("", s[1..])
    else
      var (a, b) := SplitOnce(s[1..], c);
      ([s[0]] + a, b)
  }

  lemma {:induction false} SplitOnceAfterFree(a: string, c: char, b: string)
    requires Strings.Free(a, c)
    ensures SplitOnce(a + [c] + b, c) == (a, b)
  {
    if a == [] {
      assert a + [c] + b == [c] + b;
      assert ([c] + b)[1..] == b;
    } else {
      SplitOnceAfterFree(a[1..], c, b);
      assert (a + [c] + b)[1..] == a[1..] + [c] + b;
      assert [a[0]] + a[1..] == a;
    }
  }

  lemma {:induction false} SplitOnceFree(a: string, c: char)
    requires Strings.Free(a, c)
    ensures SplitOnce(a, c) == (a, "")
  {
    if a != [] {
      SplitOnceFree(a[1..], c);
      assert [a[0]] + a[1..] == a;
    }
  }

  /** Reading a query string back: '&'-separated pairs split at the first '='. */
  function ParseQuery(q: string): seq<(string, string)> {
    var parts := Strings.Split(q, '&');
    seq(|parts|, k requires 0 <= k < |parts| => SplitOnce(parts[k], '='))
  }

  /** The query round-trips when no key or value contains '&' and no key
      contains '='. */
  lemma QueryRoundTrip(params: seq<(string, string)>)
    requires params != []
    requires forall k :: 0 <= k < |params| ==>
      Strings.Free(params[k].0, '&') && Strings.Free(params[k].1, '&') && Strings.Free(params[k].0, '=')
    ensures ParseQuery(QueryString(params)) == params
  {
    var pairs := seq(|params|, k requires 0 <= k < |params| => Pair(params[k].0, params[k].1));
    forall k | 0 <= k < |params| ensures Strings.Free(pairs[k], '&') {
      assert pairs[k] == params[k].0 + "=" + params[k].1;
    }
    Strings.SplitJoin(pairs, '&');
    forall k | 0 <= k < |params| ensures SplitOnce(pairs[k], '=') == params[k] {
      assert pairs[k] == params[k].0 + ['='] + params[k].1;
      SplitOnceAfterFree(params[k].0, '=', params[k].1);
    }
  }

  lemma ExampleQuery()
    ensures QueryString([("seeds", "a&b")]) == "seeds=a&b"
  {
    assert QueryString([("seeds", "a&b")]) == Pair("seeds", "a&b");
  }

  lemma ExampleSplit()
    ensures Strings.Split("seeds=a&b", '&') == ["seeds=a", "b"]
  {
    assert Strings.Split("b", '&') == ["b"] by {
      Strings.SplitFree("b", '&');
    }
    assert Strings.Split("seeds=a&b", '&') == ["seeds=a"] + Strings.Split("b", '&') by {
      Strings.SplitAfterFree("seeds=a", '&', "b");
      assert "seeds=a" + ['&'] + "b" == "seeds=a&b";
    }
  }

  lemma ExamplePairs()
    ensures SplitOnce("seeds=a", '=') == ("seeds", "a")
    ensures SplitOnce("b", '=') == ("b", "")
  {
    SplitOnceAfterFree("seeds", '=', "a");
    SplitOnceFree("b", '=');
    assert "seeds" + ['='] + "a" == "seeds=a";
  }

  /** Values are not escaped: a value holding '&' reads back as two pairs. */
  lemma UnescapedValueSplits()
    ensures QueryString([("seeds", "a&b")]) == "seeds=a&b"
    ensures ParseQuery(QueryString([("seeds", "a&b")])) == [("seeds", "a"), ("b", "")]
  {
    ExampleQuery();
    ExampleSplit();
    ExamplePairs();
  }
}
