/**
 * Platform (`htbcli/modules/platform.py`): the search request, how the
 * `search` command counts and renders its results, and the `-o` field
 * selection of `content_stats` and `announcements`.
 */
module Platform {
  import opened Wrappers
  import opened PyStr
  import opened Json
  import opened Http
  import Machines

  /** `get_search_fetch(query, tags)`: `tags` only when truthy. */
  function SearchFetch(query: string, tags: Option<string>): (r: Request)
    ensures r.verb == GET && r.path == "/search/fetch" && r.body.None?
    ensures "query" in r.params && r.params["query"] == PStr(query)
    ensures "tags" in r.params <==> Machines.Given(tags)
    ensures Machines.Given(tags) ==> r.params["tags"] == PStr(tags.value)
    ensures r.params.Keys <= {"query", "tags"}
  {
    var params := map["query" := PStr(query)];
    var params := if Machines.Given(tags) then params["tags" := PStr(tags.value)] else params;
    Get("/search/fetch", params)
  }

  // ---------------------------------------------------------------- counting search results

  /** The five result categories, in the order `search` counts and renders them. */
  const SearchCategories: seq<string> := ["machines", "challenges", "users", "teams", "joboffers"]

  /**
   * What one `if result.get(k): total_results += len(result[k])` adds: nothing
   * for a falsy value, the length of a sized value, and `None` where `len`
   * raises (a truthy number or boolean).
   */
  function CategoryCount(v: Json): (r: Option<nat>)
    ensures !Truthy(v) ==> r == Some(0)
    ensures Truthy(v) && r.Some? ==> r.value > 0
    ensures r.None? <==> Truthy(v) && (v.JInt? || v.JBool?)
  {
    match v
    case JNull => Some(0)
    case JBool(b) => if b then None else Some(0)
    case JInt(i) => if i != 0 then None else Some(0)
    case JStr(s) => Some(|s|)
    case JArr(items) => Some(|items|)
    case JObj(fields) => Some(|fields|)
  }

  /** The running total over the categories `keys`, in order; `None` once a `len` raises. */
  function SumCounts(result: map<string, Json>, keys: seq<string>): Option<nat> {
    if keys == [] then Some(0)
    else match SumCounts(result, keys[..|keys| - 1])
      case None => None
      case Some(t) =>
        match CategoryCount(GetOr(result, keys[|keys| - 1], JNull))
        case None => None
        case Some(c) => Some(t + c)
  }

  /** The total raises exactly when some category holds a truthy value without a length. */
  lemma {:induction false} SumRaisesIff(result: map<string, Json>, keys: seq<string>)
    ensures SumCounts(result, keys).None? <==>
      exists k :: 0 <= k < |keys| && CategoryCount(GetOr(result, keys[k], JNull)).None?
  {
    if keys != [] {
      var init := keys[..|keys| - 1];
      SumRaisesIff(result, init);
      assert forall k :: 0 <= k < |init| ==> init[k] == keys[k];
    }
  }

  /** When it does not raise, the total is zero exactly when every category is falsy. */
  lemma {:induction false} SumZeroIff(result: map<string, Json>, keys: seq<string>)
    requires SumCounts(result, keys).Some?
    ensures SumCounts(result, keys).value == 0 <==>
      forall k :: 0 <= k < |keys| ==> !Truthy(GetOr(result, keys[k], JNull))
  {
    if keys != [] {
      var init := keys[..|keys| - 1];
      SumZeroIff(result, init);
      assert forall k :: 0 <= k < |init| ==> init[k] == keys[k];
    }
  }

  /** Counting one more category adds its length to the total. */
  lemma SumCountsStep(result: map<string, Json>, keys: seq<string>, key: string)
    ensures SumCounts(result, keys + [key]) ==
      match (SumCounts(result, keys), CategoryCount(GetOr(result, key, JNull)))
      case (Some(t), Some(c)) => Some(t + c)
      case _ => None
  {
    assert (keys + [key])[..|keys|] == keys;
  }

  /** The five `if result.get(k): total_results += len(result[k])` steps of `search`; `None` where `len` raises. */
  method CountSearchResults(result: map<string, Json>) returns (total: Option<nat>)
    ensures total == SumCounts(result, SearchCategories)
  {
    var s := SearchCategories;
    assert s[..1] == ["machines"] && s[..2] == s[..1] + ["challenges"];
    assert s[..3] == s[..2] + ["users"] && s[..4] == s[..3] + ["teams"] && s == s[..4] + ["joboffers"];
    SumCountsStep(result, [], "machines");
    SumCountsStep(result, s[..1], "challenges");
    SumCountsStep(result, s[..2], "users");
    SumCountsStep(result, s[..3], "teams");
    SumCountsStep(result, s[..4], "joboffers");
    var t: nat := 0;
    var c := CategoryCount(GetOr(result, "machines", JNull));
    if c.None? { return None; }
    t := t + c.value;
    c := CategoryCount(GetOr(result, "challenges", JNull));
    if c.None? { return None; }
    t := t + c.value;
    c := CategoryCount(GetOr(result, "users", JNull));
    if c.None? { return None; }
    t := t + c.value;
    c := CategoryCount(GetOr(result, "teams", JNull));
    if c.None? { return None; }
    t := t + c.value;
    c := CategoryCount(GetOr(result, "joboffers", JNull));
    if c.None? { return None; }
    t := t + c.value;
    total := Some(t);
  }

  /** A table `search` prints: its category and its rows. */
  datatype ResultTable = ResultTable(category: string, rows: seq<seq<string>>)

  /** What the display part prints: the tables, and whether an exception cut it short. */
  datatype Display = Shown(tables: seq<ResultTable>) | Failed(tables: seq<ResultTable>)

  /**
   * The tables for the categories `keys`, in order: a falsy category is
   * skipped, a truthy one gets its table, and the first one whose loop
   * raises ends the display with the tables printed before it.
   */
  function DisplayTables(result: map<string, Json>, keys: seq<string>): Display {
    if keys == [] then Shown([])
    else match DisplayTables(result, keys[..|keys| - 1])
      case Failed(ts) => Failed(ts)
      case Shown(ts) =>
        var key := keys[|keys| - 1];
        var v := GetOr(result, key, JNull);
        if !Truthy(v) then Shown(ts)
        else match CategoryRows(key, v)
          case None => Failed(ts)
          case Some(rows) => Shown(ts + [ResultTable(key, rows)])
  }

  /** What the `search` command does with a decoded response. */
  datatype SearchOutcome =
    | SearchError(shown: seq<ResultTable>)   // an exception is caught and "Error: ..." printed after `shown`
    | NoSearchResults                        // "No search results found", and nothing else
    | ShowResults(total: nat, tables: seq<ResultTable>)

  /** `search`, from the decoded response to the outcome. */
  function Search(result: Json): (r: SearchOutcome)
    ensures !Truthy(result) ==> r == NoSearchResults
    ensures Truthy(result) && !result.JObj? ==> r == SearchError([])
    ensures r.ShowResults? ==> r.total > 0
  {
    if !Truthy(result) then NoSearchResults
    else if !result.JObj? then SearchError([])
    else match SumCounts(result.fields, SearchCategories)
      case None => SearchError([])
      case Some(t) =>
        if t == 0 then NoSearchResults
        else match DisplayTables(result.fields, SearchCategories)
          case Failed(ts) => SearchError(ts)
          case Shown(ts) => ShowResults(t, ts)
  }

  /**
   * "No search results found" is printed exactly when the response is falsy
   * or is a dict whose five categories are all falsy.
   */
  lemma NoResultsIff(result: Json)
    ensures Search(result) == NoSearchResults <==>
      !Truthy(result) ||
      (result.JObj? && forall k :: 0 <= k < |SearchCategories| ==> !Truthy(GetOr(result.fields, SearchCategories[k], JNull)))
  {
    if Truthy(result) && result.JObj? {
      SumRaisesIff(result.fields, SearchCategories);
      if SumCounts(result.fields, SearchCategories).Some? {
        SumZeroIff(result.fields, SearchCategories);
      } else {
        var k :| 0 <= k < |SearchCategories| && CategoryCount(GetOr(result.fields, SearchCategories[k], JNull)).None?;
        assert Truthy(GetOr(result.fields, SearchCategories[k], JNull));
      }
    }
  }

  /** Displaying one more category. */
  lemma DisplayStep(result: map<string, Json>, keys: seq<string>, key: string)
    ensures DisplayTables(result, keys + [key]) ==
      match DisplayTables(result, keys)
      case Failed(ts) => Failed(ts)
      case Shown(ts) =>
        if !Truthy(GetOr(result, key, JNull)) then Shown(ts)
        else match CategoryRows(key, GetOr(result, key, JNull))
          case None => Failed(ts)
          case Some(rows) => Shown(ts + [ResultTable(key, rows)])
  {
    assert (keys + [key])[..|keys|] == keys;
  }

  /** The display is cut short exactly when some truthy category's loop raises. */
  lemma {:induction false} DisplayFailsIff(result: map<string, Json>, keys: seq<string>)
    ensures DisplayTables(result, keys).Failed? <==>
      exists k :: 0 <= k < |keys| && Truthy(GetOr(result, keys[k], JNull)) && CategoryRows(keys[k], GetOr(result, keys[k], JNull)).None?
  {
    if keys != [] {
      var init := keys[..|keys| - 1];
      DisplayFailsIff(result, init);
      assert forall k :: 0 <= k < |init| ==> init[k] == keys[k];
    }
  }

  /** The number of rows in `tables`. */
  function RowCount(tables: seq<ResultTable>): nat {
    if tables == [] then 0 else RowCount(tables[..|tables| - 1]) + |tables[|tables| - 1].rows|
  }

  /** The truthy categories among `keys`, in order. */
  function TruthyKeys(result: map<string, Json>, keys: seq<string>): seq<string> {
    if keys == [] then []
    else TruthyKeys(result, keys[..|keys| - 1]) + if Truthy(GetOr(result, keys[|keys| - 1], JNull)) then [keys[|keys| - 1]] else []
  }

  /** A display that completes shows one table per truthy category, in order. */
  lemma {:induction false} ShownCategories(result: map<string, Json>, keys: seq<string>)
    requires DisplayTables(result, keys).Shown?
    ensures |DisplayTables(result, keys).tables| == |TruthyKeys(result, keys)|
    ensures forall i :: 0 <= i < |TruthyKeys(result, keys)| ==>
      DisplayTables(result, keys).tables[i].category == TruthyKeys(result, keys)[i]
  {
    if keys != [] {
      var init := keys[..|keys| - 1];
      ShownCategories(result, init);
    }
  }

  /** Each table of a completed display holds its category's rows. */
  lemma {:induction false} ShownRows(result: map<string, Json>, keys: seq<string>)
    requires DisplayTables(result, keys).Shown?
    ensures forall t :: t in DisplayTables(result, keys).tables ==>
      Some(t.rows) == CategoryRows(t.category, GetOr(result, t.category, JNull))
  {
    if keys != [] {
      var init := keys[..|keys| - 1];
      ShownRows(result, init);
    }
  }

  /** A completed display shows as many rows as the total counted. */
  lemma {:induction false} ShownRowCount(result: map<string, Json>, keys: seq<string>)
    requires DisplayTables(result, keys).Shown? && SumCounts(result, keys).Some?
    ensures RowCount(DisplayTables(result, keys).tables) == SumCounts(result, keys).value
  {
    if keys != [] {
      var init := keys[..|keys| - 1];
      var key := keys[|keys| - 1];
      var v := GetOr(result, key, JNull);
      ShownRowCount(result, init);
      var ts := DisplayTables(result, init).tables;
      if Truthy(v) {
        var rows := CategoryRows(key, v).value;
        assert (ts + [ResultTable(key, rows)])[..|ts|] == ts;
      }
    }
  }

  /**
   * Tables are shown exactly when the response is a dict, the count does not
   * raise and is positive, and no truthy category's loop raises; they then
   * hold as many rows as the total counted.
   */
  lemma ShowResultsIff(result: Json)
    ensures Search(result).ShowResults? <==>
      Truthy(result) && result.JObj? &&
      SumCounts(result.fields, SearchCategories).Some? && SumCounts(result.fields, SearchCategories).value > 0 &&
      forall k :: 0 <= k < |SearchCategories| && Truthy(GetOr(result.fields, SearchCategories[k], JNull)) ==>
        CategoryRows(SearchCategories[k], GetOr(result.fields, SearchCategories[k], JNull)).Some?
    ensures Search(result).ShowResults? ==> RowCount(Search(result).tables) == Search(result).total
    ensures Search(result).ShowResults? ==>
      var ts := Search(result).tables;
      var cats := TruthyKeys(result.fields, SearchCategories);
      |ts| == |cats| && (forall i :: 0 <= i < |ts| ==> ts[i].category == cats[i]) &&
      forall t :: t in ts ==> Some(t.rows) == CategoryRows(t.category, GetOr(result.fields, t.category, JNull))
  {
    if Truthy(result) && result.JObj? {
      DisplayFailsIff(result.fields, SearchCategories);
      if Search(result).ShowResults? {
        ShownRowCount(result.fields, SearchCategories);
        ShownCategories(result.fields, SearchCategories);
        ShownRows(result.fields, SearchCategories);
      }
    }
  }

  /** A machines list holding a number counts 1, but its loop raises: the command prints an error and no table. */
  lemma NonDictEntryIsError()
    ensures Search(JObj(map["machines" := JArr([JInt(1)])])) == SearchError([])
  {
    var d := map["machines" := JArr([JInt(1)])];
    var s := SearchCategories;
    assert s[..1] == ["machines"] && s[..2] == s[..1] + ["challenges"];
    assert s[..3] == s[..2] + ["users"] && s[..4] == s[..3] + ["teams"] && s == s[..4] + ["joboffers"];
    SumCountsStep(d, [], "machines");
    SumCountsStep(d, s[..1], "challenges");
    SumCountsStep(d, s[..2], "users");
    SumCountsStep(d, s[..3], "teams");
    SumCountsStep(d, s[..4], "joboffers");
    assert EntryRows("machines", [JInt(1)]).None?;
    DisplayStep(d, [], "machines");
    DisplayStep(d, s[..1], "challenges");
    DisplayStep(d, s[..2], "users");
    DisplayStep(d, s[..3], "teams");
    DisplayStep(d, s[..4], "joboffers");
  }

  /** Keys other than the five categories play no part in the count. */
  lemma {:induction false} OtherKeysIgnored(result: map<string, Json>, keys: seq<string>, extra: string, v: Json)
    requires extra !in keys
    ensures SumCounts(result[extra := v], keys) == SumCounts(result, keys)
  {
    if keys != [] {
      var init := keys[..|keys| - 1];
      assert forall x :: x in init ==> x in keys;
      OtherKeysIgnored(result, init, extra, v);
    }
  }

  /** The total counts list entries: machines and users lists add their lengths. */
  lemma ListsAreCounted(ms: seq<Json>, us: seq<Json>)
    ensures SumCounts(map["machines" := JArr(ms), "users" := JArr(us)], SearchCategories) == Some(|ms| + |us|)
  {
    var d := map["machines" := JArr(ms), "users" := JArr(us)];
    var s := SearchCategories;
    assert s[..1] == ["machines"] && s[..2] == s[..1] + ["challenges"];
    assert s[..3] == s[..2] + ["users"] && s[..4] == s[..3] + ["teams"] && s == s[..4] + ["joboffers"];
    SumCountsStep(d, [], "machines");
    SumCountsStep(d, s[..1], "challenges");
    SumCountsStep(d, s[..2], "users");
    SumCountsStep(d, s[..3], "teams");
    SumCountsStep(d, s[..4], "joboffers");
  }

  // ---------------------------------------------------------------- result rows

  /** `str(d.get(key, 'N/A') or 'N/A')` */
  function Cell(d: map<string, Json>, key: string): string {
    Format(CellOrNA(d, key))
  }

  /** A machine row: id, name, avatar, tier and Starting Point. */
  function MachineRow(machine: map<string, Json>): (r: seq<string>)
    ensures |r| == 5 && r[0] == Cell(machine, "id") && r[1] == Cell(machine, "value") && r[3] == Cell(machine, "tierId")
    ensures r[2] == "Yes" <==> "avatar" in machine && Truthy(machine["avatar"])
    ensures r[4] == "Yes" <==> "isSp" in machine && Truthy(machine["isSp"])
    ensures r[2] in {"Yes", "No"} && r[4] in {"Yes", "No"}
  {
    [Cell(machine, "id"), Cell(machine, "value"), YesNo(machine, "avatar"), Cell(machine, "tierId"), YesNo(machine, "isSp")]
  }

  /** A user or team row: id, name and avatar. */
  function AvatarRow(entry: map<string, Json>): (r: seq<string>)
    ensures |r| == 3 && r[0] == Cell(entry, "id") && r[1] == Cell(entry, "value")
    ensures r[2] == "Yes" <==> "avatar" in entry && Truthy(entry["avatar"])
  {
    [Cell(entry, "id"), Cell(entry, "value"), YesNo(entry, "avatar")]
  }

  /** A job offer row: id, title, company and location. */
  function JobRow(job: map<string, Json>): (r: seq<string>)
    ensures |r| == 4 && r[0] == Cell(job, "id") && r[1] == Cell(job, "title")
    ensures r[2] == Cell(job, "company") && r[3] == Cell(job, "location")
  {
    [Cell(job, "id"), Cell(job, "title"), Cell(job, "company"), Cell(job, "location")]
  }

  /** A missing or falsy cell shows `N/A`; a truthy string is shown as it is. */
  lemma CellShowsValueOrNA(d: map<string, Json>, key: string)
    ensures !(key in d && Truthy(d[key])) ==> Cell(d, key) == "N/A"
    ensures key in d && d[key].JStr? && d[key].s != "" ==> Cell(d, key) == d[key].s
  {
  }

  /**
   * A challenge description, `challenge.get('description', 'N/A') or 'N/A'`
   * shortened to 50 characters: the first 47 and `...`.
   */
  function TruncateDescription(description: Option<string>): (r: string)
    ensures |r| <= 50
    ensures (description.None? || description.value == "") ==> r == "N/A"
    ensures description.Some? && |description.value| > 50 ==>
      |r| == 50 && r[..47] == description.value[..47] && r[47..] == "..."
    ensures description.Some? && 0 < |description.value| <= 50 ==> r == description.value
  {
    var d := if description.Some? && description.value != "" then description.value else "N/A";
    if |d| > 50 then d[..47] + "..." else d
  }

  /** Truncating twice is truncating once. */
  lemma TruncateIdempotent(description: Option<string>)
    ensures TruncateDescription(Some(TruncateDescription(description))) == TruncateDescription(description)
  {
  }

  /**
   * The description cell of a challenge row, the truncated
   * `challenge.get('description', 'N/A') or 'N/A'`. It is `None` where that
   * value is truthy but not a string: `len` raises on a number or a boolean,
   * and a table cell must be a string, so a list or dict raises too.
   */
  function DescriptionCell(challenge: map<string, Json>): (r: Option<string>)
    ensures r.None? <==> "description" in challenge && Truthy(challenge["description"]) && !challenge["description"].JStr?
    ensures r.Some? && "description" in challenge && challenge["description"].JStr? ==>
      r.value == TruncateDescription(Some(challenge["description"].s))
    ensures r.Some? && !("description" in challenge && challenge["description"].JStr?) ==> r.value == "N/A"
  {
    var d := CellOrNA(challenge, "description");
    if d.JStr? then Some(TruncateDescription(Some(d.s))) else None
  }

  /** A challenge row: id, name, category id and description; `None` where the description raises. */
  function ChallengeRow(challenge: map<string, Json>): (r: Option<seq<string>>)
    ensures r.Some? <==> DescriptionCell(challenge).Some?
    ensures r.Some? ==> |r.value| == 4 && r.value[0] == Cell(challenge, "id") && r.value[1] == Cell(challenge, "value")
    ensures r.Some? ==> r.value[2] == Cell(challenge, "challenge_category_id") && r.value[3] == DescriptionCell(challenge).value
  {
    match DescriptionCell(challenge)
    case None => None
    case Some(description) =>
      Some([Cell(challenge, "id"), Cell(challenge, "value"), Cell(challenge, "challenge_category_id"), description])
  }

  /**
   * The row a category's table gets for one entry, or `None` where building
   * it raises: an entry that is not a dict has no `get`.
   */
  function RowOf(category: string, entry: Json): (r: Option<seq<string>>)
    ensures !entry.JObj? ==> r.None?
    ensures entry.JObj? && category == "machines" ==> r == Some(MachineRow(entry.fields))
    ensures entry.JObj? && category == "challenges" ==> r == ChallengeRow(entry.fields)
    ensures entry.JObj? && category in {"users", "teams"} ==> r == Some(AvatarRow(entry.fields))
    ensures entry.JObj? && category == "joboffers" ==> r == Some(JobRow(entry.fields))
  {
    if !entry.JObj? then None
    else if category == "machines" then Some(MachineRow(entry.fields))
    else if category == "challenges" then ChallengeRow(entry.fields)
    else if category == "joboffers" then Some(JobRow(entry.fields))
    else Some(AvatarRow(entry.fields))
  }

  /** The rows of one table, entry by entry; `None` once an entry raises. */
  function EntryRows(category: string, entries: seq<Json>): (r: Option<seq<seq<string>>>)
    ensures r.Some? <==> forall i :: 0 <= i < |entries| ==> RowOf(category, entries[i]).Some?
    ensures r.Some? ==> |r.value| == |entries|
    ensures r.Some? ==> forall i :: 0 <= i < |entries| ==> r.value[i] == RowOf(category, entries[i]).value
  {
    if entries == [] then Some([])
    else
      var init := entries[..|entries| - 1];
      assert forall i :: 0 <= i < |init| ==> init[i] == entries[i];
      match EntryRows(category, init)
      case None => None
      case Some(rows) =>
        match RowOf(category, entries[|entries| - 1])
        case None => None
        case Some(row) => Some(rows + [row])
  }

  /**
   * `for entry in result[category]: table.add_row(...)` for a truthy
   * category. A string iterates its characters and a dict its keys, and
   * neither has `get`; only a list of entries gets a table.
   */
  function CategoryRows(category: string, v: Json): (r: Option<seq<seq<string>>>)
    ensures !v.JArr? ==> r.None?
    ensures v.JArr? ==> r == EntryRows(category, v.items)
  {
    if v.JArr? then EntryRows(category, v.items) else None
  }

  /** The loop that fills one category's table. */
  method CategoryTable(category: string, entries: seq<Json>) returns (rows: Option<seq<seq<string>>>)
    ensures rows == EntryRows(category, entries)
  {
    var acc: seq<seq<string>> := [];
    var i := 0;
    while i < |entries|
      invariant 0 <= i <= |entries|
      invariant EntryRows(category, entries[..i]) == Some(acc)
    {
      assert entries[..i + 1][..i] == entries[..i];
      var row := RowOf(category, entries[i]);
      if row.None? {
        return None;
      }
      acc := acc + [row.value];
      i := i + 1;
    }
    assert entries[..i] == entries;
    rows := Some(acc);
  }

  // ---------------------------------------------------------------- -o on announcements

  /** The row `announcements -o f1 -o f2 ...` shows for one announcement. */
  function SelectedRow(announcement: map<string, Json>, option: seq<string>): (r: seq<string>)
    ensures |r| == |option| + 1 && r[0] == Cell(announcement, "id")
    ensures forall j :: 0 <= j < |option| ==> r[j + 1] == Cell(announcement, option[j])
  {
    if option == [] then [Cell(announcement, "id")]
    else SelectedRow(announcement, option[..|option| - 1]) + [Cell(announcement, option[|option| - 1])]
  }

  /** The rows of `announcements -o ...`, built the way the command builds them. */
  method AnnouncementRows(data: seq<map<string, Json>>, option: seq<string>) returns (rows: seq<seq<string>>)
    ensures |rows| == |data|
    ensures forall i :: 0 <= i < |data| ==> rows[i] == SelectedRow(data[i], option)
  {
    rows := [];
    var i := 0;
    while i < |data|
      invariant 0 <= i <= |data|
      invariant |rows| == i
      invariant forall k :: 0 <= k < i ==> rows[k] == SelectedRow(data[k], option)
    {
      var row := [Cell(data[i], "id")];
      var j := 0;
      while j < |option|
        invariant 0 <= j <= |option|
        invariant row == SelectedRow(data[i], option[..j])
      {
        assert option[..j + 1][..j] == option[..j];
        row := row + [Cell(data[i], option[j])];
        j := j + 1;
      }
      assert option[..j] == option;
      rows := rows + [row];
      i := i + 1;
    }
  }

  // ---------------------------------------------------------------- -o on content_stats

  /**
   * The statistics `content_stats` shows: `result.get('data') or result`,
   * when `result` is truthy (the `'data' in result or result` test adds
   * nothing), and `None` for the "No content stats found" branch.
   */
  function StatsOf(result: map<string, Json>): (r: Option<Json>)
    ensures r.None? <==> result == map[]
    ensures r.Some? && "data" in result && Truthy(result["data"]) ==> r.value == result["data"]
    ensures r.Some? && !("data" in result && Truthy(result["data"])) ==> r.value == JObj(result)
  {
    if result == map[] then None
    else if "data" in result && Truthy(result["data"]) then Some(result["data"])
    else Some(JObj(result))
  }

  /** The requested fields present in `stats`, in request order. */
  function Present(fields: seq<string>, stats: map<string, Json>): seq<string> {
    if fields == [] then []
    else Present(fields[..|fields| - 1], stats) + if fields[|fields| - 1] in stats then [fields[|fields| - 1]] else []
  }

  lemma {:induction false} PresentMembers(fields: seq<string>, stats: map<string, Json>)
    ensures forall f :: f in Present(fields, stats) <==> f in fields && f in stats
  {
    if fields != [] {
      var init := fields[..|fields| - 1];
      PresentMembers(init, stats);
      assert forall f :: f in fields <==> f in init || f == fields[|fields| - 1];
    }
  }

  /** The requested fields absent from `stats`, in request order: one warning each. */
  function Absent(fields: seq<string>, stats: map<string, Json>): seq<string> {
    if fields == [] then []
    else Absent(fields[..|fields| - 1], stats) + if fields[|fields| - 1] in stats then [] else [fields[|fields| - 1]]
  }

  lemma {:induction false} AbsentMembers(fields: seq<string>, stats: map<string, Json>)
    ensures forall f :: f in Absent(fields, stats) <==> f in fields && f !in stats
  {
    if fields != [] {
      var init := fields[..|fields| - 1];
      AbsentMembers(init, stats);
      assert forall f :: f in fields <==> f in init || f == fields[|fields| - 1];
    }
  }

  /** Every requested field is either selected or warned about, once per request. */
  lemma {:induction false} PresentAbsentSplit(fields: seq<string>, stats: map<string, Json>)
    ensures |Present(fields, stats)| + |Absent(fields, stats)| == |fields|
  {
    if fields != [] {
      PresentAbsentSplit(fields[..|fields| - 1], stats);
    }
  }

  /** The elements of `xs` in the order they first appear (the key order of a dict filled from `xs`). */
  function FirstOccurrences(xs: seq<string>): (r: seq<string>)
    ensures forall x :: x in r <==> x in xs
    ensures forall i, j :: 0 <= i < j < |r| ==> r[i] != r[j]
  {
    if xs == [] then []
    else
      var init := xs[..|xs| - 1];
      var last := xs[|xs| - 1];
      assert forall x :: x in xs <==> x in init || x == last;
      var r := FirstOccurrences(init);
      if last in r then r else r + [last]
  }

  /** The warning line for a field that is not in the response. */
  function WarningLine(field: string): string {
    "Field '" + field + "' not found in response"
  }

  /** Extending the requested fields by one. */
  lemma SelectStep(fields: seq<string>, stats: map<string, Json>, i: nat)
    requires i < |fields|
    ensures Present(fields[..i + 1], stats) == Present(fields[..i], stats) + if fields[i] in stats then [fields[i]] else []
    ensures Absent(fields[..i + 1], stats) == Absent(fields[..i], stats) + if fields[i] in stats then [] else [fields[i]]
  {
    assert fields[..i + 1][..i] == fields[..i];
  }

  lemma FirstOccurrencesSnoc(xs: seq<string>, x: string)
    ensures FirstOccurrences(xs + [x]) == if x in xs then FirstOccurrences(xs) else FirstOccurrences(xs) + [x]
  {
    assert (xs + [x])[..|xs|] == xs;
  }

  /**
   * The loop of `content_stats -o ...`: the selected fields (with the key
   * order of `selected_stats`) and the fields warned about, in order.
   */
  method SelectFields(fields: seq<string>, stats: map<string, Json>)
    returns (selected: map<string, Json>, order: seq<string>, warnings: seq<string>)
    ensures forall f :: f in selected <==> f in fields && f in stats
    ensures forall f :: f in selected ==> selected[f] == stats[f]
    ensures order == FirstOccurrences(Present(fields, stats))
    ensures warnings == Absent(fields, stats)
  {
    selected, order, warnings := map[], [], [];
    ghost var present: seq<string> := [];
    var i := 0;
    assert fields[..0] == [];
    while i < |fields|
      invariant 0 <= i <= |fields|
      invariant present == Present(fields[..i], stats)
      invariant warnings == Absent(fields[..i], stats)
      invariant forall f :: f in selected <==> f in present
      invariant forall f :: f in selected ==> f in stats && selected[f] == stats[f]
      invariant order == FirstOccurrences(present)
    {
      var field := fields[i];
      SelectStep(fields, stats, i);
      if field in stats {
        FirstOccurrencesSnoc(present, field);
        if field !in selected {
          order := order + [field];
        }
        selected := selected[field := stats[field]];
        present := present + [field];
      } else {
        warnings := warnings + [field];
      }
      i := i + 1;
    }
    assert fields[..i] == fields;
    PresentMembers(fields, stats);
  }

  /** No panel is shown (nothing is selected) exactly when none of the requested fields is present. */
  lemma PanelShownIff(fields: seq<string>, stats: map<string, Json>)
    ensures Present(fields, stats) == [] <==> forall k :: 0 <= k < |fields| ==> fields[k] !in stats
  {
    PresentMembers(fields, stats);
    if Present(fields, stats) != [] {
      assert Present(fields, stats)[0] in Present(fields, stats);
    }
  }
}
