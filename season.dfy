/**
 * Seasons (`htbcli/modules/season.py`): the leaderboard and season-end
 * requests `SeasonModule` builds, and the count and Rooted columns.
 */
module Season {
  import opened Wrappers
  import opened PyStr
  import opened Json
  import opened Http
  import Machines

  /** `get_season_end(season_id, user_id)`: the season comes first in the path. */
  function GetSeasonEnd(seasonId: int, userId: int): (r: Request)
    ensures r.verb == GET && r.params == map[] && r.body.None?
    ensures r.path == "/season/end/" + IntToString(seasonId) + "/" + IntToString(userId)
  {
    Get("/season/end/" + IntToString(seasonId) + "/" + IntToString(userId), map[])
  }

  /** `get_season_leaderboard(leaderboard, season)`: `season` only when truthy. */
  function GetSeasonLeaderboard(leaderboard: string, season: Option<string>): (r: Request)
    ensures r.verb == GET && r.path == "/season/" + leaderboard + "/leaderboard" && r.body.None?
    ensures r.params == if Machines.Given(season) then map["season" := PStr(season.value)] else map[]
  {
    var params: map<string, Param> := map[];
    var params := if Machines.Given(season) then params["season" := PStr(season.value)] else params;
    Get("/season/" + leaderboard + "/leaderboard", params)
  }

  /** `get_season_leaderboard_top(leaderboard, season_id, period)`: `period` only when truthy. */
  function GetSeasonLeaderboardTop(leaderboard: string, seasonId: int, period: Option<string>): (r: Request)
    ensures r.verb == GET && r.body.None?
    ensures r.path == "/season/" + leaderboard + "/leaderboard/top/" + IntToString(seasonId)
    ensures r.params == if Machines.Given(period) then map["period" := PStr(period.value)] else map[]
  {
    var params: map<string, Param> := map[];
    var params := if Machines.Given(period) then params["period" := PStr(period.value)] else params;
    Get("/season/" + leaderboard + "/leaderboard/top/" + IntToString(seasonId), params)
  }

  /** A season-end path can be read back: the two ids are recovered in order. */
  lemma SeasonEndPathOrder(s1: int, u1: int, s2: int, u2: int)
    requires GetSeasonEnd(s1, u1) == GetSeasonEnd(s2, u2)
    ensures s1 == s2 && u1 == u2
  {
    var a, b := IntToString(s1), IntToString(s2);
    var p := "/season/end/";
    assert (p + a + "/" + IntToString(u1))[|p|..] == a + "/" + IntToString(u1);
    assert (p + b + "/" + IntToString(u2))[|p|..] == b + "/" + IntToString(u2);
    SplitAtSlash(a, IntToString(u1), b, IntToString(u2));
    IntToStringRoundTrip(s1);
    IntToStringRoundTrip(s2);
    IntToStringRoundTrip(u1);
    IntToStringRoundTrip(u2);
  }

  /** Two slash-free heads joined to tails by `/` are equal only when heads and tails are. */
  lemma {:induction false} SplitAtSlash(a: string, x: string, b: string, y: string)
    requires '/' !in a && '/' !in b && a + "/" + x == b + "/" + y
    ensures a == b && x == y
  {
    if a == [] && b == [] {
      assert x == (a + "/" + x)[1..];
      assert y == (b + "/" + y)[1..];
    } else if a != [] && b != [] {
      assert (a + "/" + x)[0] == a[0] && (b + "/" + y)[0] == b[0];
      assert (a + "/" + x)[1..] == a[1..] + "/" + x;
      assert (b + "/" + y)[1..] == b[1..] + "/" + y;
      SplitAtSlash(a[1..], x, b[1..], y);
      assert a == [a[0]] + a[1..] && b == [b[0]] + b[1..];
    } else {
      HeadOfJoin(a, x);
      HeadOfJoin(b, y);
      assert false;
    }
  }

  /** The first character of `a + "/" + x`. */
  lemma HeadOfJoin(a: string, x: string)
    ensures (a + "/" + x)[0] == if a == [] then '/' else a[0]
  {
  }

  /** `len(data) if isinstance(data, list) else 'N/A'` */
  function CountOrNA(data: Json): (r: string)
    ensures data.JArr? ==> r == IntToString(|data.items|)
    ensures !data.JArr? ==> r == "N/A"
  {
    if data.JArr? then IntToString(|data.items|) else "N/A"
  }

  /** The count shown is a decimal that reads back as the list's length. */
  lemma CountReadsBack(items: seq<Json>)
    ensures ParseInt(CountOrNA(JArr(items))) == Some(|items|)
  {
    IntToStringRoundTrip(|items|);
  }

  /** A list's count is never `N/A`. */
  lemma CountOfListIsNumber(items: seq<Json>)
    ensures CountOrNA(JArr(items)) != "N/A"
  {
    var r := CountOrNA(JArr(items));
    assert IsDigit(r[|r| - 1]);
  }

  /** The Rooted column: `"Yes" if machine.get('is_owned_root', False) else "No"`. */
  function Rooted(machine: map<string, Json>): (r: string)
    ensures r == "Yes" <==> "is_owned_root" in machine && Truthy(machine["is_owned_root"])
    ensures r == "Yes" || r == "No"
  {
    if Truthy(GetOr(machine, "is_owned_root", JBool(false))) then "Yes" else "No"
  }
}
