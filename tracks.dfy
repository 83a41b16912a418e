/**
 * Tracks (`htbcli/modules/tracks.py`): the case-insensitive name lookup of
 * `TracksModule.find_track_id_by_name`, the id-or-name resolution of the
 * `info` and `items` commands, and the split of a track's items into
 * machines and challenges.
 */
module Tracks {
  import opened Wrappers
  import opened PyStr
  import opened Json
  import opened Http

  // ---------------------------------------------------------------- requests

  /** `get_track_list(page=1, per_page=20)` */
  function GetTrackList(page: int, perPage: int): (r: Request)
    ensures r.verb == GET && r.path == "/tracks" && r.params == PageParams(page, perPage) && r.body.None?
  {
    Get("/tracks", PageParams(page, perPage))
  }

  /** `get_track_info(track_id)` and `get_track_items(track_id)`: the same request. */
  function GetTrackInfo(trackId: Json): (r: Request)
    ensures r.verb == GET && r.path == "/tracks/" + Format(trackId) && r.params == map[] && r.body.None?
  {
    Get("/tracks/" + Format(trackId), map[])
  }

  // ---------------------------------------------------------------- find_track_id_by_name

  /** The outcome of `self.get_track_list()`: it raised, or it returned a decoded value. */
  datatype ListOutcome = Raised | Returned(value: Json)

  /**
   * The loop of `find_track_id_by_name` over a list of tracks, from position
   * `i`: the `id` of the first track whose name matches. A track that is not
   * a dict, or whose `name` is not a string, raises inside the loop, and the
   * `except` turns that into `None` (`JNull`).
   */
  function LookupFrom(tracks: seq<Json>, query: string, i: nat): Json
    requires i <= |tracks|
    decreases |tracks| - i
  {
    if i == |tracks| then JNull
    else match tracks[i]
      case JObj(d) =>
        (match GetOr(d, "name", JStr(""))
         case JStr(name) =>
           if Lower(name) == Lower(query) then GetOr(d, "id", JNull) else LookupFrom(tracks, query, i + 1)
         case _ => JNull)
      case _ => JNull
  }

  /**
   * What `find_track_id_by_name(query)` returns for a given outcome of the
   * list request. Iterating a non-empty dict, string or number raises (its
   * keys and characters have no `.get`; numbers are not iterable), so only
   * a list is searched.
   */
  function TrackIdLookup(outcome: ListOutcome, query: string): Json {
    match outcome
    case Raised => JNull
    case Returned(v) =>
      if !Truthy(v) then JNull
      else match v
        case JArr(tracks) => LookupFrom(tracks, query, 0)
        case _ => JNull
  }

  /** `find_track_id_by_name(track_name)`, with the list request's outcome as input. */
  method FindTrackIdByName(query: string, outcome: ListOutcome) returns (id: Json)
    ensures id == TrackIdLookup(outcome, query)
  {
    if outcome.Raised? {
      return JNull;
    }
    var tracks := outcome.value;
    if Truthy(tracks) {
      if !tracks.JArr? {
        return JNull;
      }
      var items := tracks.items;
      var i := 0;
      while i < |items|
        invariant 0 <= i <= |items|
        invariant LookupFrom(items, query, 0) == LookupFrom(items, query, i)
      {
        var track := items[i];
        if !track.JObj? {
          return JNull;
        }
        var name := GetOr(track.fields, "name", JStr(""));
        if !name.JStr? {
          return JNull;
        }
        if Lower(name.s) == Lower(query) {
          return GetOr(track.fields, "id", JNull);
        }
        i := i + 1;
      }
    }
    return JNull;
  }

  /** The name a well-formed track has for the lookup (`''` when missing). */
  function TrackName(d: map<string, Json>): Json {
    GetOr(d, "name", JStr(""))
  }

  /** A track the loop passes over without raising, because its name does not match. */
  predicate PassedOver(t: Json, query: string) {
    t.JObj? && TrackName(t.fields).JStr? && Lower(TrackName(t.fields).s) != Lower(query)
  }

  /**
   * The lookup gives the `id` of the track at `k` exactly when every track
   * before it is passed over and the track at `k` is a dict whose name
   * matches case-insensitively.
   */
  lemma {:induction false} LookupFindsFirstMatch(tracks: seq<Json>, query: string, k: nat)
    requires k < |tracks|
    requires forall j :: 0 <= j < k ==> PassedOver(tracks[j], query)
    requires tracks[k].JObj? && TrackName(tracks[k].fields).JStr?
    requires Lower(TrackName(tracks[k].fields).s) == Lower(query)
    ensures TrackIdLookup(Returned(JArr(tracks)), query) == GetOr(tracks[k].fields, "id", JNull)
  {
    LookupSkips(tracks, query, 0, k);
  }

  lemma {:induction false} LookupSkips(tracks: seq<Json>, query: string, i: nat, k: nat)
    requires i <= k <= |tracks|
    requires forall j :: i <= j < k ==> PassedOver(tracks[j], query)
    ensures LookupFrom(tracks, query, i) == LookupFrom(tracks, query, k)
    decreases k - i
  {
    if i < k {
      assert PassedOver(tracks[i], query);
      LookupSkips(tracks, query, i + 1, k);
    }
  }

  /** When every track is passed over, the result is `None`. */
  lemma NoMatchGivesNone(tracks: seq<Json>, query: string)
    requires forall j :: 0 <= j < |tracks| ==> PassedOver(tracks[j], query)
    ensures TrackIdLookup(Returned(JArr(tracks)), query) == JNull
  {
    LookupSkips(tracks, query, 0, |tracks|);
  }

  /** A dict response (the API's usual envelope) is never searched: the result is `None`. */
  lemma DictResponseGivesNone(fields: map<string, Json>, query: string)
    ensures TrackIdLookup(Returned(JObj(fields)), query) == JNull
    ensures TrackIdLookup(Raised, query) == JNull
  {
  }

  /** A track without `name` is named `''`, and `''` matches only the empty query. */
  lemma MissingNameMatchesOnlyEmpty(query: string)
    ensures Lower("") == Lower(query) <==> query == ""
  {
  }

  /** A non-empty list whose first track has no `name` answers the empty query with that track's id. */
  lemma EmptyQueryFindsNamelessTrack(d: map<string, Json>, rest: seq<Json>)
    requires "name" !in d
    ensures TrackIdLookup(Returned(JArr([JObj(d)] + rest)), "") == GetOr(d, "id", JNull)
  {
    assert Truthy(JArr([JObj(d)] + rest));
  }

  // ---------------------------------------------------------------- info / items

  /** What the `info` and `items` commands do with an identifier: request a track, or report it missing. */
  datatype Resolution = Resolved(trackId: Json) | TrackNotFound

  /**
   * `int(track_identifier)` when that parses; otherwise the name lookup,
   * where a falsy id (`None`, `0`, `''`) is "Track not found".
   */
  function ResolveTrack(identifier: string, outcome: ListOutcome): (r: Resolution)
    ensures ParseInt(identifier).Some? ==> r == Resolved(JInt(ParseInt(identifier).value))
    ensures ParseInt(identifier).None? ==>
      var id := TrackIdLookup(outcome, identifier);
      (r.Resolved? <==> Truthy(id)) && (r.Resolved? ==> r.trackId == id)
  {
    match ParseInt(identifier)
    case Some(n) => Resolved(JInt(n))
    case None =>
      var id := TrackIdLookup(outcome, identifier);
      if Truthy(id) then Resolved(id) else TrackNotFound
  }

  /** The request `info`/`items` sends, or `None` when it prints "Track not found" and returns. */
  function TrackRequest(identifier: string, outcome: ListOutcome): Option<Request> {
    match ResolveTrack(identifier, outcome)
    case Resolved(id) => Some(GetTrackInfo(id))
    case TrackNotFound => None
  }

  /** A numeric identifier is used directly: the name lookup's outcome plays no part. */
  lemma NumericIdentifierSkipsLookup(identifier: string, o1: ListOutcome, o2: ListOutcome)
    requires ParseInt(identifier).Some?
    ensures TrackRequest(identifier, o1) == TrackRequest(identifier, o2)
            == Some(GetTrackInfo(JInt(ParseInt(identifier).value)))
  {
  }

  /** The identifier `"42"` requests `/tracks/42`. */
  lemma DecimalIdentifier()
    ensures TrackRequest("42", Raised) == Some(Get("/tracks/42", map[]))
  {
    RenderedIntegerIdentifier(42, Raised);
    FortyTwoRendered();
    assert "/tracks/" + "42" == "/tracks/42";
  }

  /** An identifier that is an integer's decimal rendering requests that integer's track. */
  lemma RenderedIntegerIdentifier(n: int, outcome: ListOutcome)
    ensures TrackRequest(IntToString(n), outcome) == Some(Get("/tracks/" + IntToString(n), map[]))
  {
    var s := IntToString(n);
    IntToStringRoundTrip(n);
    assert ResolveTrack(s, outcome) == Resolved(JInt(n));
    assert Format(JInt(n)) == s;
    assert TrackRequest(s, outcome) == Some(GetTrackInfo(JInt(n)));
  }

  /** `str(42)` is `"42"`. */
  lemma FortyTwoRendered()
    ensures Format(JInt(42)) == "42" && IntToString(42) == "42"
  {
    assert DigitChar(4) == '4' && DigitChar(2) == '2';
    assert NatToString(42) == NatToString(4) + [DigitChar(2)];
  }

  /**
   * A name (not an integer) naming a listed track requests that track: when
   * every track before `k` is passed over, the track at `k` matches
   * case-insensitively and its `id` is truthy, `info`/`items` request
   * `/tracks/{id}`.
   */
  lemma FirstMatchRequested(tracks: seq<Json>, query: string, k: nat)
    requires ParseInt(query).None?
    requires k < |tracks|
    requires forall j :: 0 <= j < k ==> PassedOver(tracks[j], query)
    requires tracks[k].JObj? && TrackName(tracks[k].fields).JStr?
    requires Lower(TrackName(tracks[k].fields).s) == Lower(query)
    requires Truthy(GetOr(tracks[k].fields, "id", JNull))
    ensures TrackRequest(query, Returned(JArr(tracks)))
            == Some(Get("/tracks/" + Format(GetOr(tracks[k].fields, "id", JNull)), map[]))
  {
    LookupFindsFirstMatch(tracks, query, k);
  }

  /** A name that resolves to a falsy id sends no request. */
  lemma FalsyIdSendsNothing(identifier: string, outcome: ListOutcome)
    requires ParseInt(identifier).None? && !Truthy(TrackIdLookup(outcome, identifier))
    ensures TrackRequest(identifier, outcome) == None
  {
  }

  // ---------------------------------------------------------------- the item partition

  /** `[item for item in items if item.get('type') == kind]` */
  function OfType(items: seq<map<string, Json>>, kind: string): (r: seq<map<string, Json>>)
    ensures |r| <= |items|
    ensures forall it :: it in r <==> it in items && "type" in it && it["type"] == JStr(kind)
  {
    if items == [] then []
    else
      var rest := OfType(items[..|items| - 1], kind);
      var last := items[|items| - 1];
      assert forall it :: it in items <==> it in items[..|items| - 1] || it == last;
      if "type" in last && last["type"] == JStr(kind) then rest + [last] else rest
  }

  /** The comprehension keeps each matching item as often as it occurs, and nothing else. */
  lemma {:induction false} OfTypeCounts(items: seq<map<string, Json>>, kind: string)
    ensures forall it :: multiset(OfType(items, kind))[it] == (if "type" in it && it["type"] == JStr(kind) then multiset(items)[it] else 0)
  {
    if items != [] {
      var init := items[..|items| - 1];
      OfTypeCounts(init, kind);
      assert items == init + [items[|items| - 1]];
    }
  }

  /** The comprehension keeps the items' order: filtering a concatenation concatenates the filtered parts. */
  lemma {:induction false} OfTypeConcat(a: seq<map<string, Json>>, b: seq<map<string, Json>>, kind: string)
    ensures OfType(a + b, kind) == OfType(a, kind) + OfType(b, kind)
  {
    if b != [] {
      var init := b[..|b| - 1];
      OfTypeConcat(a, init, kind);
      assert (a + b)[..|a + b| - 1] == a + init;
      var last := b[|b| - 1];
      assert (a + b)[|a + b| - 1] == last;
      assert b == init + [last];
      var keep: seq<map<string, Json>> := if "type" in last && last["type"] == JStr(kind) then [last] else [];
      assert OfType(a + b, kind) == OfType(a + init, kind) + keep;
      assert OfType(b, kind) == OfType(init, kind) + keep;
      var x, y := OfType(a, kind), OfType(init, kind);
      assert (x + y) + keep == x + (y + keep);
    } else {
      assert a + b == a;
    }
  }

  function Machines(items: seq<map<string, Json>>): seq<map<string, Json>> {
    OfType(items, "machine")
  }

  function Challenges(items: seq<map<string, Json>>): seq<map<string, Json>> {
    OfType(items, "challenge")
  }

  /** Each item is counted at most once: machines and challenges together are at most the total. */
  lemma {:induction false} PartitionBounded(items: seq<map<string, Json>>)
    ensures |Machines(items)| + |Challenges(items)| <= |items|
  {
    if items != [] {
      PartitionBounded(items[..|items| - 1]);
    }
  }

  /** The two groups are disjoint, and an item of any other type is in neither. */
  lemma PartitionDisjoint(items: seq<map<string, Json>>)
    ensures forall it :: it in Machines(items) ==> it !in Challenges(items)
    ensures forall it :: it in items && !("type" in it && it["type"] in {JStr("machine"), JStr("challenge")}) ==>
      it !in Machines(items) && it !in Challenges(items)
  {
  }

  /** The counts add up to the total exactly when every item is a machine or a challenge. */
  lemma {:induction false} PartitionExact(items: seq<map<string, Json>>)
    ensures |Machines(items)| + |Challenges(items)| == |items| <==>
      forall k :: 0 <= k < |items| ==> "type" in items[k] && items[k]["type"] in {JStr("machine"), JStr("challenge")}
  {
    if items != [] {
      var init := items[..|items| - 1];
      PartitionExact(init);
      PartitionBounded(init);
      assert forall k :: 0 <= k < |init| ==> init[k] == items[k];
    }
  }
}
