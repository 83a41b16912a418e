/**
 * The module checker of `fix_all_modules.py`: the line scanner of
 * `analyze_module_file` that finds the API calls a module makes, and the
 * per-tag comparison of `main` against the published endpoints.
 */
module ModuleAnalysis {
  import opened Wrappers
  import opened PyStr
  import opened Swagger
  import opened EndpointGroups
  import Json

  /** An endpoint found in a module's source: its path and its method. */
  datatype Implemented = Implemented(path: string, verb: string)

  /** The call text the scanner looks for, per method. */
  function CallPattern(verb: string): string {
    if verb == "GET" then "self.api.get("
    else if verb == "POST" then "self.api.post("
    else if verb == "PUT" then "self.api.put("
    else "self.api.delete("
  }

  /** The method of a line: the first of get, post, put, delete whose call it contains. */
  function MethodOf(line: string): Option<string> {
    FirstCall(line, ["GET", "POST", "PUT", "DELETE"])
  }

  /** The first method of `verbs` whose call `line` contains. */
  function FirstCall(line: string, verbs: seq<string>): Option<string> {
    if verbs == [] then None
    else if Contains(line, CallPattern(verbs[0])) then Some(verbs[0])
    else FirstCall(line, verbs[1..])
  }

  /** The method found is one of `verbs`, and its call is on the line. */
  lemma {:induction false} FirstCallFound(line: string, verbs: seq<string>)
    ensures var r := FirstCall(line, verbs);
            r.Some? ==> r.value in verbs && Contains(line, CallPattern(r.value))
  {
    if verbs != [] && !Contains(line, CallPattern(verbs[0])) {
      FirstCallFound(line, verbs[1..]);
    }
  }

  /** The list walk is the source's `if`/`elif` chain over the four calls. */
  lemma MethodOfChain(line: string)
    ensures MethodOf(line) == if Contains(line, "self.api.get(") then Some("GET")
                              else if Contains(line, "self.api.post(") then Some("POST")
                              else if Contains(line, "self.api.put(") then Some("PUT")
                              else if Contains(line, "self.api.delete(") then Some("DELETE")
                              else None
  {
    var v0 := ["GET", "POST", "PUT", "DELETE"];
    var v1 := ["POST", "PUT", "DELETE"];
    var v2 := ["PUT", "DELETE"];
    var v3 := ["DELETE"];
    assert v0[1..] == v1 && v1[1..] == v2 && v2[1..] == v3 && v3[1..] == [];
    assert FirstCall(line, v3) == if Contains(line, "self.api.delete(") then Some("DELETE") else None;
    assert FirstCall(line, v2) == if Contains(line, "self.api.put(") then Some("PUT") else FirstCall(line, v3);
    assert FirstCall(line, v1) == if Contains(line, "self.api.post(") then Some("POST") else FirstCall(line, v2);
  }

  /** A line has a method exactly when it contains one of the four calls, and then it contains that method's call; `GET` wins whenever the get call is present. */
  lemma MethodOfSpec(line: string)
    ensures var r := MethodOf(line);
            (r.Some? ==> r.value in {"GET", "POST", "PUT", "DELETE"} && Contains(line, CallPattern(r.value))) &&
            (r.None? <==> !Contains(line, "self.api.get(") && !Contains(line, "self.api.post(")
                          && !Contains(line, "self.api.put(") && !Contains(line, "self.api.delete(")) &&
            (r == Some("GET") <==> Contains(line, "self.api.get("))
  {
    MethodOfChain(line);
  }

  /**
   * The path after a call starting at `start`: the text from just after the
   * next `(` up to the following `)`, whitespace-stripped, then stripped of
   * quotes, and kept only when it starts with `/`. When no `(` follows,
   * the search for `)` starts at 0 (`-1 + 1`).
   */
  function ExtractPath(line: string, start: nat): (r: Option<string>)
    ensures r.Some? ==> StartsWith(r.value, "/")
  {
    var open := Find(line, "(", start) + 1;
    var close := Find(line, ")", open);
    if close == -1 then None
    else
      var path := StripChars(Strip(line[open..close]), {'"', '\''});
      if StartsWith(path, "/") then Some(path) else None
  }

  /** The argument text between the first `(` at or after `start` and the next `)`. */
  lemma ArgumentBetween(line: string, start: nat, o: nat, c: nat)
    requires start <= o < c < |line| && line[o] == '(' && line[c] == ')'
    requires forall k :: start <= k < o ==> line[k] != '('
    requires forall k :: o < k < c ==> line[k] != ')'
    ensures ExtractPath(line, start) ==
      var path := StripChars(Strip(line[o + 1..c]), {'"', '\''});
      if StartsWith(path, "/") then Some(path) else None
  {
    assert line[o..o + 1] == "(" && line[c..c + 1] == ")";
    FindFirstAt(line, "(", start, o);
    FindFirstAt(line, ")", o + 1, c);
  }

  /** A quoted path stripped of whitespace and then of quotes is the path. */
  lemma QuotedArgumentStripped(q: char, p: string)
    requires q in {'"', '\''} && StartsWith(p, "/") && p[|p| - 1] !in {'"', '\''}
    ensures StripChars(Strip([q] + p + [q]), {'"', '\''}) == p
  {
    var arg := [q] + p + [q];
    assert arg[0] == q && arg[|arg| - 1] == q;
    assert Strip(arg) == arg by {
      StripUnpadded(arg);
    }
    QuotesRemoved(q, p);
  }

  lemma QuotesRemoved(q: char, p: string)
    requires q in {'"', '\''} && StartsWith(p, "/") && p[|p| - 1] !in {'"', '\''}
    ensures StripChars([q] + p + [q], {'"', '\''}) == p
  {
    var quotes := {'"', '\''};
    var arg := [q] + p + [q];
    var tail := p + [q];
    assert arg[1..] == tail;
    assert StripChars(arg, quotes) == StripChars(tail, quotes);
    assert tail[0] == '/' && tail[|tail| - 1] == q && tail[..|tail| - 1] == p;
    assert StripChars(tail, quotes) == StripChars(p, quotes);
    assert p[0] == '/';
  }

  /**
   * A call whose argument is a quoted path, `("p")` or `('p')`, with no
   * other `(` between `start` and it: the path extracted is `p` itself.
   */
  lemma QuotedPathExtracted(pre: string, q: char, p: string, post: string, start: nat)
    requires start <= |pre| && forall k :: start <= k < |pre| ==> pre[k] != '('
    requires q in {'"', '\''} && StartsWith(p, "/") && ')' !in p && p[|p| - 1] !in {'"', '\''}
    ensures ExtractPath(pre + "(" + ([q] + p + [q]) + ")" + post, start) == Some(p)
  {
    var arg := [q] + p + [q];
    var line := pre + "(" + arg + ")" + post;
    var o, c := |pre|, |pre| + 1 + |arg|;
    QuotedLayout(pre, arg, post, start);
    ArgumentBetween(line, start, o, c);
    var path := StripChars(Strip(line[o + 1..c]), {'"', '\''});
    assert path == p by {
      assert line[o + 1..c] == arg;
      QuotedArgumentStripped(q, p);
    }
  }

  /** Where the parentheses around `arg` sit in `pre + "(" + arg + ")" + post`. */
  lemma QuotedLayout(pre: string, arg: string, post: string, start: nat)
    requires start <= |pre| && forall k :: start <= k < |pre| ==> pre[k] != '('
    requires ')' !in arg
    ensures var line := pre + "(" + arg + ")" + post;
            var o, c := |pre|, |pre| + 1 + |arg|;
            c < |line| && line[o] == '(' && line[c] == ')' && line[o + 1..c] == arg &&
            (forall k :: start <= k < o ==> line[k] != '(') &&
            (forall k :: o < k < c ==> line[k] != ')')
  {
    var line := pre + "(" + arg + ")" + post;
    var o := |pre|;
    assert forall k :: 0 <= k < o ==> line[k] == pre[k];
    assert forall k :: o < k < o + 1 + |arg| ==> line[k] == arg[k - o - 1];
  }

  /**
   * `line.find('self.api.get(') or line.find('self.api.post(') or ...`: the
   * first value that is truthy, i.e. non-zero. A missing call gives -1,
   * which is truthy, so the chain stops at the get search unless the get
   * call is at column 0.
   */
  function OrChain(line: string): (r: int)
    ensures r >= -1
    ensures Find(line, "self.api.get(", 0) != 0 ==> r == Find(line, "self.api.get(", 0)
  {
    var g := Find(line, "self.api.get(", 0);
    if g != 0 then g
    else
      var p := Find(line, "self.api.post(", 0);
      if p != 0 then p
      else
        var u := Find(line, "self.api.put(", 0);
        if u != 0 then u else Find(line, "self.api.delete(", 0)
  }

  /** One line of `analyze_module_file` as written. */
  function ScanLineAsWritten(line: string): Option<Implemented> {
    match MethodOf(line)
    case None => None
    case Some(verb) =>
      var start := OrChain(line);
      if start == -1 then None
      else match ExtractPath(line, start)
        case None => None
        case Some(path) => Some(Implemented(path, verb))
  }

  /** One line, with the path searched after the call the method was taken from. */
  function ScanLine(line: string): Option<Implemented> {
    match MethodOf(line)
    case None => None
    case Some(verb) =>
      var start := Find(line, CallPattern(verb), 0);
      // `if start != -1` in the source: `find` never gives less than -1
      if start < 0 then None
      else match ExtractPath(line, start)
        case None => None
        case Some(path) => Some(Implemented(path, verb))
  }

  /** As written, a line is recorded only when it calls `self.api.get(`, and then as `GET`. */
  lemma AsWrittenRecordsOnlyGet(line: string)
    ensures ScanLineAsWritten(line).Some? ==> ScanLineAsWritten(line).value.verb == "GET" && Contains(line, "self.api.get(")
  {
    MethodOfSpec(line);
  }

  /** As written, a line whose only call is a post is skipped. */
  lemma PostOnlyLineSkipped(line: string)
    requires Contains(line, "self.api.post(") && !Contains(line, "self.api.get(")
    ensures ScanLineAsWritten(line) == None
  {
    MethodOfChain(line);
  }

  /** With the call's own position, a post-only line is recorded as `POST` whenever a path follows the call. */
  lemma PostOnlyLineRecorded(line: string)
    requires Contains(line, "self.api.post(") && !Contains(line, "self.api.get(")
    ensures ExtractPath(line, Find(line, "self.api.post(", 0)).Some? ==>
      ScanLine(line) == Some(Implemented(ExtractPath(line, Find(line, "self.api.post(", 0)).value, "POST"))
    ensures ScanLine(line).Some? ==> ScanLine(line).value.verb == "POST"
  {
    MethodOfChain(line);
  }

  /** Every recorded line carries the method of a call it contains, and a path starting with `/`. */
  lemma ScanLineSound(line: string)
    ensures ScanLine(line).Some? ==>
      Contains(line, CallPattern(ScanLine(line).value.verb)) && StartsWith(ScanLine(line).value.path, "/")
      && MethodOf(line) == Some(ScanLine(line).value.verb)
  {
    MethodOfSpec(line);
    var m := MethodOf(line);
    if m.Some? {
      var verb := m.value;
      var path := ExtractPath(line, Find(line, CallPattern(verb), 0));
      assert ScanLine(line) == if path.Some? then Some(Implemented(path.value, verb)) else None;
    }
  }

  /** Where the line as written records something (and the get call is not at column 0), the corrected scanner records the same. */
  lemma AsWrittenAgreesOnGetLines(line: string)
    requires ScanLineAsWritten(line).Some? && Find(line, "self.api.get(", 0) != 0
    ensures ScanLine(line) == ScanLineAsWritten(line)
  {
  }

  // ---------------------------------------------------------------- analyze_module_file

  /** Which line scanner `analyze_module_file` runs: the program's, or the corrected one. */
  datatype Scanner = AsWritten | Corrected

  function ScanWith(scanner: Scanner, line: string): Option<Implemented> {
    match scanner
    case AsWritten => ScanLineAsWritten(line)
    case Corrected => ScanLine(line)
  }

  /** Whatever the scanner, a recorded line carries the method of a call it contains and a path starting with `/`. */
  lemma ScanWithSound(scanner: Scanner, line: string)
    ensures var e := ScanWith(scanner, line);
            e.Some? ==> StartsWith(e.value.path, "/") && e.value.verb in {"GET", "POST", "PUT", "DELETE"}
                        && Contains(line, CallPattern(e.value.verb))
  {
    MethodOfSpec(line);
    ScanLineSound(line);
    AsWrittenRecordsOnlyGet(line);
  }

  /** The endpoints `scanner` finds in `lines`, in line order. */
  function Scanned(scanner: Scanner, lines: seq<string>): seq<Implemented> {
    if lines == [] then []
    else Scanned(scanner, lines[..|lines| - 1]) + match ScanWith(scanner, lines[|lines| - 1])
                                                  case None => []
                                                  case Some(e) => [e]
  }

  /** One more line appends what it yields. */
  lemma ScannedStep(scanner: Scanner, lines: seq<string>, i: nat)
    requires i < |lines|
    ensures Scanned(scanner, lines[..i + 1]) == Scanned(scanner, lines[..i]) + if ScanWith(scanner, lines[i]).Some? then [ScanWith(scanner, lines[i]).value] else []
  {
    assert lines[..i + 1][..i] == lines[..i];
  }

  /** As written, every endpoint a module file yields is a `GET`. */
  lemma {:induction false} AsWrittenFindsOnlyGet(lines: seq<string>)
    ensures forall e :: e in Scanned(AsWritten, lines) ==> e.verb == "GET"
  {
    if lines != [] {
      AsWrittenFindsOnlyGet(lines[..|lines| - 1]);
      AsWrittenRecordsOnlyGet(lines[|lines| - 1]);
    }
  }

  /** Each endpoint found comes from one line, and carries a path starting with `/`. */
  lemma {:induction false} ScannedBounded(scanner: Scanner, lines: seq<string>)
    ensures |Scanned(scanner, lines)| <= |lines|
    ensures forall e :: e in Scanned(scanner, lines) ==> StartsWith(e.path, "/") && e.verb in {"GET", "POST", "PUT", "DELETE"}
  {
    if lines != [] {
      var init := lines[..|lines| - 1];
      var last := lines[|lines| - 1];
      ScannedBounded(scanner, init);
      ScanWithSound(scanner, last);
      assert Scanned(scanner, lines) == Scanned(scanner, init) + if ScanWith(scanner, last).Some? then [ScanWith(scanner, last).value] else [];
    }
  }

  /** `{"exists": ..., "endpoints": [...]}` */
  datatype FileAnalysis = FileAnalysis(exists_: bool, endpoints: seq<Implemented>)

  /** What `analyze_module_file` returns for a file's contents (`None`: no such file), with the given line scanner. */
  function FileAnalysisOf(scanner: Scanner, content: Option<string>): (r: FileAnalysis)
    ensures content.None? ==> r == FileAnalysis(false, [])
    ensures content.Some? ==> r.exists_
  {
    match content
    case None => FileAnalysis(false, [])
    case Some(text) => FileAnalysis(true, Scanned(scanner, Split(text, '\n')))
  }

  /** `analyze_module_file(module_name, module_file_path)`, with the file's contents as input; `AsWritten` is the program. */
  method AnalyzeModuleFile(scanner: Scanner, content: Option<string>) returns (analysis: FileAnalysis)
    ensures analysis == FileAnalysisOf(scanner, content)
  {
    if content.None? {
      return FileAnalysis(false, []);
    }
    var endpoints: seq<Implemented> := [];
    var lines := Split(content.value, '\n');
    var i := 0;
    while i < |lines|
      invariant 0 <= i <= |lines|
      invariant endpoints == Scanned(scanner, lines[..i])
    {
      var found := ScanWith(scanner, lines[i]);
      ScannedStep(scanner, lines, i);
      if found.Some? {
        endpoints := endpoints + [found.value];
      }
      i := i + 1;
    }
    assert lines[..i] == lines;
    return FileAnalysis(true, endpoints);
  }

  // ---------------------------------------------------------------- main

  /** The tag-to-file table of `main`. */
  function ModuleMapping(): map<string, string> {
    map[
      "Badges" := "htbcli/modules/badges.py",
      "Career" := "htbcli/modules/career.py",
      "Challenges" := "htbcli/modules/challenges.py",
      "Connection" := "htbcli/modules/connection.py",
      "Fortresses" := "htbcli/modules/fortresses.py",
      "Home" := "htbcli/modules/home.py",
      "Machines" := "htbcli/modules/machines.py",
      "Platform" := "htbcli/modules/platform.py",
      "Prolabs" := "htbcli/modules/prolabs.py",
      "PwnBox" := "htbcli/modules/pwnbox.py",
      "Ranking" := "htbcli/modules/ranking.py",
      "Review" := "htbcli/modules/review.py",
      "Season" := "htbcli/modules/season.py",
      "Sherlocks" := "htbcli/modules/sherlocks.py",
      "Starting Point" := "htbcli/modules/starting_point.py",
      "Team" := "htbcli/modules/team.py",
      "Tracks" := "htbcli/modules/tracks.py",
      "Universities" := "htbcli/modules/universities.py",
      "User" := "htbcli/modules/user.py",
      "VM" := "htbcli/modules/vm.py"
      ]
  }

  /** What `main` concludes for one tag. */
  datatype TagResult =
    | NoMapping
    | NoModuleFile(file: string)
    | Compared(missing: set<string>, extra: set<string>)

  /** The published paths of a tag's group. */
  function OnlinePaths(endpoints: seq<EndpointInfo>): set<string> {
    set k | 0 <= k < |endpoints| :: endpoints[k].path
  }

  /** The paths a module file implements (the keys of `implemented_endpoints`). */
  function ImplementedPaths(found: seq<Implemented>): set<string> {
    set k | 0 <= k < |found| :: found[k].path
  }

  /** The comparison of one tag: its module file under `mapping`, when mapped and present, against its group. */
  function TagResultFor(scanner: Scanner, tag: string, endpoints: seq<EndpointInfo>, mapping: map<string, string>, files: string -> Option<string>): (r: TagResult)
    ensures tag !in mapping <==> r == NoMapping
    ensures tag in mapping ==> (files(mapping[tag]).None? <==> r == NoModuleFile(mapping[tag]))
    ensures r.Compared? ==>
      var impl := ImplementedPaths(FileAnalysisOf(scanner, files(mapping[tag])).endpoints);
      r.missing == OnlinePaths(endpoints) - impl && r.extra == impl - OnlinePaths(endpoints)
  {
    if tag !in mapping then NoMapping
    else
      var file := mapping[tag];
      var analysis := FileAnalysisOf(scanner, files(file));
      if !analysis.exists_ then NoModuleFile(file)
      else
        var impl := ImplementedPaths(analysis.endpoints);
        var online := OnlinePaths(endpoints);
        Compared(online - impl, impl - online)
  }

  /** "✅ All endpoints correctly implemented" */
  predicate AllCorrect(r: TagResult) {
    r.Compared? && r.missing == {} && r.extra == {}
  }

  /** A tag is correct exactly when its module implements exactly the published paths. */
  lemma CorrectIffSamePaths(scanner: Scanner, tag: string, endpoints: seq<EndpointInfo>, mapping: map<string, string>, files: string -> Option<string>)
    requires tag in mapping && files(mapping[tag]).Some?
    ensures AllCorrect(TagResultFor(scanner, tag, endpoints, mapping, files)) <==>
      OnlinePaths(endpoints) == ImplementedPaths(FileAnalysisOf(scanner, files(mapping[tag])).endpoints)
  {
    var impl := ImplementedPaths(FileAnalysisOf(scanner, files(mapping[tag])).endpoints);
    var online := OnlinePaths(endpoints);
    if online - impl == {} && impl - online == {} {
      assert forall p :: p in online ==> p in impl;
      assert forall p :: p in impl ==> p in online;
    }
  }

  /** The issues recorded for one tag. */
  function IssuesFor(tag: string, r: TagResult): (issues: seq<string>)
    ensures issues == [] <==> AllCorrect(r)
    ensures |issues| <= 2
  {
    match r
    case NoMapping => ["Missing module mapping for " + tag]
    case NoModuleFile(file) => ["Missing module file: " + file]
    case Compared(missing, extra) =>
      (if missing != {} then [tag + ": Missing " + IntToString(|missing|) + " endpoints"] else []) +
      (if extra != {} then [tag + ": " + IntToString(|extra|) + " extra endpoints"] else [])
  }

  /** The issue list after the given sorted groups, in order. */
  function IssuesOf(groups: seq<(string, seq<EndpointInfo>)>, results: seq<TagResult>): seq<string>
    requires |groups| == |results|
  {
    if groups == [] then []
    else IssuesOf(groups[..|groups| - 1], results[..|results| - 1]) + IssuesFor(groups[|groups| - 1].0, results[|results| - 1])
  }

  /** The summary says "All modules are correctly implemented!" exactly when every tag is correct. */
  lemma {:induction false} NoIssuesIff(groups: seq<(string, seq<EndpointInfo>)>, results: seq<TagResult>)
    requires |groups| == |results|
    ensures IssuesOf(groups, results) == [] <==> forall i :: 0 <= i < |results| ==> AllCorrect(results[i])
  {
    if groups != [] {
      var n := |groups| - 1;
      var init := results[..n];
      var before := IssuesOf(groups[..n], init);
      var added := IssuesFor(groups[n].0, results[n]);
      NoIssuesIff(groups[..n], init);
      assert IssuesOf(groups, results) == before + added;
      if before == [] && added == [] {
        forall i | 0 <= i < |results| ensures AllCorrect(results[i]) {
          if i < n {
            assert init[i] == results[i];
          }
        }
      } else if before != [] {
        var i :| 0 <= i < n && !AllCorrect(init[i]);
        assert results[i] == init[i];
      } else {
        assert !AllCorrect(results[n]);
      }
    }
  }

  /** The comparison of every sorted group, in order. */
  function ResultsOf(scanner: Scanner, groups: seq<(string, seq<EndpointInfo>)>, mapping: map<string, string>, files: string -> Option<string>): (r: seq<TagResult>)
    ensures |r| == |groups|
  {
    if groups == [] then []
    else ResultsOf(scanner, groups[..|groups| - 1], mapping, files) + [TagResultFor(scanner, groups[|groups| - 1].0, groups[|groups| - 1].1, mapping, files)]
  }

  /** Each group's result is the comparison of that group alone. */
  lemma {:induction false} ResultsOfPointwise(scanner: Scanner, groups: seq<(string, seq<EndpointInfo>)>, mapping: map<string, string>, files: string -> Option<string>)
    ensures forall i :: 0 <= i < |groups| ==> ResultsOf(scanner, groups, mapping, files)[i] == TagResultFor(scanner, groups[i].0, groups[i].1, mapping, files)
  {
    if groups != [] {
      var n := |groups| - 1;
      var init := groups[..n];
      var all := ResultsOf(scanner, groups, mapping, files);
      var before := ResultsOf(scanner, init, mapping, files);
      ResultsOfPointwise(scanner, init, mapping, files);
      assert all == before + [TagResultFor(scanner, groups[n].0, groups[n].1, mapping, files)];
      forall i | 0 <= i < |groups|
        ensures all[i] == TagResultFor(scanner, groups[i].0, groups[i].1, mapping, files)
      {
        if i < n {
          assert all[i] == before[i] && init[i] == groups[i];
        }
      }
    }
  }

  /** One more group appends its comparison. */
  lemma ResultsOfStep(scanner: Scanner, groups: seq<(string, seq<EndpointInfo>)>, i: nat, mapping: map<string, string>, files: string -> Option<string>)
    requires i < |groups|
    ensures ResultsOf(scanner, groups[..i + 1], mapping, files) == ResultsOf(scanner, groups[..i], mapping, files) + [TagResultFor(scanner, groups[i].0, groups[i].1, mapping, files)]
  {
    assert groups[..i + 1][..i] == groups[..i];
  }

  /** One more group appends its tag's issues after those of the groups before it. */
  lemma IssuesOfStep(groups: seq<(string, seq<EndpointInfo>)>, results: seq<TagResult>, i: nat, r: TagResult)
    requires i < |groups| && |results| == i
    ensures IssuesOf(groups[..i + 1], results + [r]) == IssuesOf(groups[..i], results) + IssuesFor(groups[i].0, r)
  {
    assert groups[..i + 1][..i] == groups[..i];
    assert (results + [r])[..i] == results;
  }

  /** The body of `main`'s loop for one tag: look the module up, analyse it, compare the paths. */
  method CompareTag(scanner: Scanner, tag: string, endpoints: seq<EndpointInfo>, mapping: map<string, string>, files: string -> Option<string>) returns (r: TagResult)
    ensures r == TagResultFor(scanner, tag, endpoints, mapping, files)
  {
    if tag !in mapping {
      return NoMapping;
    }
    var file := mapping[tag];
    var analysis := AnalyzeModuleFile(scanner, files(file));
    if !analysis.exists_ {
      return NoModuleFile(file);
    }
    var impl := set k | 0 <= k < |analysis.endpoints| :: analysis.endpoints[k].path;
    var online := set k | 0 <= k < |endpoints| :: endpoints[k].path;
    r := Compared(online - impl, impl - online);
  }

  /** One iteration of `main`'s loop: compare group `i`, then append its result and its issues. */
  method AddGroup(scanner: Scanner, sorted: seq<(string, seq<EndpointInfo>)>, i: nat, mapping: map<string, string>, files: string -> Option<string>,
                  results: seq<TagResult>, issues: seq<string>)
    returns (results': seq<TagResult>, issues': seq<string>)
    requires i < |sorted|
    requires results == ResultsOf(scanner, sorted[..i], mapping, files) && issues == IssuesOf(sorted[..i], results)
    ensures results' == ResultsOf(scanner, sorted[..i + 1], mapping, files) && issues' == IssuesOf(sorted[..i + 1], results')
  {
    var r := CompareTag(scanner, sorted[i].0, sorted[i].1, mapping, files);
    ResultsOfStep(scanner, sorted, i, mapping, files);
    IssuesOfStep(sorted, results, i, r);
    results' := results + [r];
    issues' := issues + IssuesFor(sorted[i].0, r);
  }

  /** The loop of `main` over the sorted groups, with its tag-to-file table as `mapping` and the module files' contents as `files`. */
  method AnalyzeModules(scanner: Scanner, sorted: seq<(string, seq<EndpointInfo>)>, mapping: map<string, string>, files: string -> Option<string>)
    returns (results: seq<TagResult>, issues: seq<string>)
    ensures results == ResultsOf(scanner, sorted, mapping, files)
    ensures issues == IssuesOf(sorted, results)
  {
    results, issues := [], [];
    var i := 0;
    while i < |sorted|
      invariant 0 <= i <= |sorted|
      invariant results == ResultsOf(scanner, sorted[..i], mapping, files)
      invariant issues == IssuesOf(sorted[..i], results)
    {
      results, issues := AddGroup(scanner, sorted, i, mapping, files, results, issues);
      i := i + 1;
    }
    assert sorted[..i] == sorted;
  }

  /** A tag without a mapped module is reported and never analysed, whatever the files hold. */
  lemma UnmappedTagNotAnalysed(scanner: Scanner, tag: string, endpoints: seq<EndpointInfo>, mapping: map<string, string>, f1: string -> Option<string>, f2: string -> Option<string>)
    requires tag !in mapping
    ensures TagResultFor(scanner, tag, endpoints, mapping, f1) == TagResultFor(scanner, tag, endpoints, mapping, f2) == NoMapping
    ensures IssuesFor(tag, NoMapping) == ["Missing module mapping for " + tag]
  {
  }

  /**
   * `main`: the published document grouped by tag (`order` is the tag order
   * of that dict), the groups walked in sorted tag order, and each checked
   * with `main`'s own table and the program's scanner.
   */
  method CheckModules(doc: Document, files: string -> Option<string>)
    returns (order: seq<string>, results: seq<TagResult>, issues: seq<string>)
    ensures KeyOrder(GroupsOf(PathsOf(doc)), order)
    ensures results == ResultsOf(AsWritten, SortedGroups(GroupsOf(PathsOf(doc)), order), ModuleMapping(), files)
    ensures issues == IssuesOf(SortedGroups(GroupsOf(PathsOf(doc)), order), results)
  {
    var groups;
    groups, order := ExtractEndpointsByTag(doc);
    results, issues := AnalyzeModules(AsWritten, SortedGroups(groups, order), ModuleMapping(), files);
  }

  /** `main` with the corrected scanner, which also records post, put and delete calls. */
  method CheckModulesCorrected(doc: Document, files: string -> Option<string>)
    returns (order: seq<string>, results: seq<TagResult>, issues: seq<string>)
    ensures KeyOrder(GroupsOf(PathsOf(doc)), order)
    ensures results == ResultsOf(Corrected, SortedGroups(GroupsOf(PathsOf(doc)), order), ModuleMapping(), files)
    ensures issues == IssuesOf(SortedGroups(GroupsOf(PathsOf(doc)), order), results)
  {
    var groups;
    groups, order := ExtractEndpointsByTag(doc);
    results, issues := AnalyzeModules(Corrected, SortedGroups(groups, order), ModuleMapping(), files);
  }

  /**
   * A module file whose one line posts to the tag's only published path:
   * as written the path is reported missing, while with the corrected
   * scanner the tag is all correct.
   */
  lemma PostOnlyModuleMisreported(tag: string, endpoints: seq<EndpointInfo>, mapping: map<string, string>,
                                  files: string -> Option<string>, line: string, path: string)
    requires tag in mapping && files(mapping[tag]) == Some(line) && '\n' !in line
    requires Contains(line, "self.api.post(") && !Contains(line, "self.api.get(")
    requires ExtractPath(line, Find(line, "self.api.post(", 0)) == Some(path)
    requires OnlinePaths(endpoints) == {path}
    ensures TagResultFor(AsWritten, tag, endpoints, mapping, files) == Compared({path}, {})
    ensures !AllCorrect(TagResultFor(AsWritten, tag, endpoints, mapping, files))
    ensures AllCorrect(TagResultFor(Corrected, tag, endpoints, mapping, files))
  {
    PostOnlyFileScanned(line, path);
    SkippedPostMisreported(tag, endpoints, mapping, files, path);
  }

  /** `        return self.api.post("/challenge/own")`, built from its parts. */
  function ChallengeOwnLine(): string {
    ("        return " + "self.api.post") + "(" + (['"'] + "/challenge/own" + ['"']) + ")" + ""
  }

  /** The post call of `ChallengeOwnLine` starts at column 15, and its path is `/challenge/own`. */
  lemma ChallengeOwnPostCall()
    ensures Find(ChallengeOwnLine(), "self.api.post(", 0) == 15
    ensures ExtractPath(ChallengeOwnLine(), 15) == Some("/challenge/own")
  {
    ChallengeOwnPostAt();
    FindFirstAt(ChallengeOwnLine(), "self.api.post(", 0, 15);
    ChallengeOwnPath();
  }

  lemma ChallengeOwnPath()
    ensures ExtractPath(ChallengeOwnLine(), 15) == Some("/challenge/own")
  {
    var pre := "        return " + "self.api.post";
    CallNameUnparenthesised(pre);
    QuotedPathExtracted(pre, '"', "/challenge/own", "", 15);
  }

  lemma CallNameUnparenthesised(pre: string)
    requires pre == "        return " + "self.api.post"
    ensures forall k :: 15 <= k < |pre| ==> pre[k] != '('
  {
    assert '(' !in "self.api.post";
    assert forall k :: 15 <= k < |pre| ==> pre[k] == "self.api.post"[k - 15] && "self.api.post"[k - 15] in "self.api.post";
  }

  /** The post call occurs at column 15 and no earlier character starts it. */
  lemma ChallengeOwnPostAt()
    ensures OccursAt(ChallengeOwnLine(), "self.api.post(", 15)
    ensures forall k :: 0 <= k < 15 ==> ChallengeOwnLine()[k] != 's'
  {
    var indent := "        return ";
    var line := ChallengeOwnLine();
    assert 's' !in indent;
    assert forall k :: 0 <= k < 15 ==> line[k] == indent[k] && indent[k] in indent;
    assert line[15..29] == "self.api.post(";
  }

  /** `ChallengeOwnLine` is one line with no get call. */
  lemma ChallengeOwnNoGet()
    ensures '\n' !in ChallengeOwnLine() && !Contains(ChallengeOwnLine(), "self.api.get(")
  {
    ChallengeOwnParens();
    assert ChallengeOwnLine()[16] == 'e';
    NotContainsByChar(ChallengeOwnLine(), "self.api.get(", 12, 28);
  }

  /** The only `(` of `ChallengeOwnLine` is the call's, at column 28, and the line has no newline. */
  lemma ChallengeOwnParens()
    ensures forall i :: 0 <= i < |ChallengeOwnLine()| && i != 28 ==> ChallengeOwnLine()[i] != '('
    ensures '\n' !in ChallengeOwnLine()
  {
    var pre := "        return " + "self.api.post";
    var arg := ['"'] + "/challenge/own" + ['"'];
    var line := ChallengeOwnLine();
    assert '(' !in pre && '(' !in arg;
    forall i | 0 <= i < |line| && i != 28 ensures line[i] != '(' {
      if i < 28 {
        assert line[i] == pre[i] && pre[i] in pre;
      } else if i < 29 + |arg| {
        assert line[i] == arg[i - 29] && arg[i - 29] in arg;
      }
    }
  }

  /** `ChallengeOwnLine` meets the line conditions of `PostOnlyModuleMisreported`. */
  lemma ChallengeOwnLineIsPostOnly()
    ensures '\n' !in ChallengeOwnLine()
    ensures Contains(ChallengeOwnLine(), "self.api.post(") && !Contains(ChallengeOwnLine(), "self.api.get(")
    ensures ExtractPath(ChallengeOwnLine(), Find(ChallengeOwnLine(), "self.api.post(", 0)) == Some("/challenge/own")
  {
    ChallengeOwnPostCall();
    ChallengeOwnNoGet();
  }

  /** A checkout whose `htbcli/modules/challenges.py` is `ChallengeOwnLine` alone. */
  function ChallengeOwnFiles(file: string): Option<string> {
    if file == "htbcli/modules/challenges.py" then Some(ChallengeOwnLine()) else None
  }

  /** A published group with the one path `/challenge/own`. */
  function ChallengeOwnGroup(): seq<EndpointInfo> {
    [EndpointInfo("/challenge/own", "POST", Json.JNull, Json.JNull, Json.JNull, Json.JNull, Json.JNull, Json.JNull)]
  }

  lemma ChallengeOwnSetting()
    ensures "Challenges" in ModuleMapping() && ModuleMapping()["Challenges"] == "htbcli/modules/challenges.py"
    ensures ChallengeOwnFiles(ModuleMapping()["Challenges"]) == Some(ChallengeOwnLine())
    ensures OnlinePaths(ChallengeOwnGroup()) == {"/challenge/own"}
  {
    assert ChallengeOwnGroup()[0].path == "/challenge/own";
  }

  /**
   * `ChallengeOwnLine` as the whole of `htbcli/modules/challenges.py`,
   * checked by `main` against the group `ChallengeOwnGroup`: as written the
   * path is reported missing, and corrected the tag is all correct.
   */
  lemma ChallengeOwnMisreported()
    ensures TagResultFor(AsWritten, "Challenges", ChallengeOwnGroup(), ModuleMapping(), ChallengeOwnFiles) == Compared({"/challenge/own"}, {})
    ensures AllCorrect(TagResultFor(Corrected, "Challenges", ChallengeOwnGroup(), ModuleMapping(), ChallengeOwnFiles))
  {
    ChallengeOwnLineIsPostOnly();
    ChallengeOwnSetting();
    PostOnlyModuleMisreported("Challenges", ChallengeOwnGroup(), ModuleMapping(), ChallengeOwnFiles, ChallengeOwnLine(), "/challenge/own");
  }

  /** The comparisons of a tag whose module file yields nothing as written and one post to `path` when corrected. */
  lemma SkippedPostMisreported(tag: string, endpoints: seq<EndpointInfo>, mapping: map<string, string>,
                               files: string -> Option<string>, path: string)
    requires tag in mapping && OnlinePaths(endpoints) == {path}
    requires FileAnalysisOf(AsWritten, files(mapping[tag])) == FileAnalysis(true, [])
    requires FileAnalysisOf(Corrected, files(mapping[tag])) == FileAnalysis(true, [Implemented(path, "POST")])
    ensures TagResultFor(AsWritten, tag, endpoints, mapping, files) == Compared({path}, {})
    ensures AllCorrect(TagResultFor(Corrected, tag, endpoints, mapping, files))
  {
    var corrected := [Implemented(path, "POST")];
    assert ImplementedPaths(corrected) == {path} by {
      assert corrected[0].path == path;
    }
    ComparedWith(AsWritten, tag, endpoints, mapping, files, []);
    ComparedWith(Corrected, tag, endpoints, mapping, files, corrected);
  }

  /** A mapped tag whose module file yields `found` is compared on the paths of `found`. */
  lemma ComparedWith(scanner: Scanner, tag: string, endpoints: seq<EndpointInfo>, mapping: map<string, string>,
                     files: string -> Option<string>, found: seq<Implemented>)
    requires tag in mapping && FileAnalysisOf(scanner, files(mapping[tag])) == FileAnalysis(true, found)
    ensures TagResultFor(scanner, tag, endpoints, mapping, files)
            == Compared(OnlinePaths(endpoints) - ImplementedPaths(found), ImplementedPaths(found) - OnlinePaths(endpoints))
  {
  }

  /** The scans of a one-line module file whose only call is a post. */
  lemma PostOnlyFileScanned(line: string, path: string)
    requires '\n' !in line
    requires Contains(line, "self.api.post(") && !Contains(line, "self.api.get(")
    requires ExtractPath(line, Find(line, "self.api.post(", 0)) == Some(path)
    ensures FileAnalysisOf(AsWritten, Some(line)) == FileAnalysis(true, [])
    ensures FileAnalysisOf(Corrected, Some(line)) == FileAnalysis(true, [Implemented(path, "POST")])
  {
    SplitAbsent(line, '\n');
    PostOnlyLineSkipped(line);
    PostOnlyLineRecorded(line);
    ScannedOne(AsWritten, line);
    ScannedOne(Corrected, line);
  }

  /** A one-line file yields what its line yields. */
  lemma ScannedOne(scanner: Scanner, line: string)
    ensures Scanned(scanner, [line]) == if ScanWith(scanner, line).Some? then [ScanWith(scanner, line).value] else []
  {
    var lines := [line];
    ScannedStep(scanner, lines, 0);
    assert lines[..1] == lines && lines[..0] == [];
  }
}
