/**
 * The shell-completion suggestion engine (`htbcli/completion.py`): fixed
 * command, subcommand, option and choice lists, and the decision procedure
 * `get_completion_suggestions(args, incomplete)` over them.
 */
module Completion {
  import opened Wrappers
  import opened PyStr

  // ---------------------------------------------------------------- the fixed lists

  function AvailableCommands(): seq<string> {
    [ "machines", "challenges", "user", "season", "sherlocks",
      "badges", "career", "connection", "fortresses", "home",
      "platform", "prolabs", "pwnbox", "ranking", "review",
      "starting_point", "team", "tracks", "universities", "vm", "vpn",
      "info", "endpoints", "module_info", "setup" ]
  }

  function MachineSubcommands(): seq<string> {
    [ "list", "active", "info", "submit", "recommended", "search",
      "activity", "changelog", "creators", "graph-activity", "graph-matrix",
      "graph-owns-difficulty", "owns-top", "reviews", "reviews-user",
      "todo", "todo-add", "todo-remove", "vpn-config", "vpn-status",
      "vpn-connect", "vpn-disconnect", "spawn", "terminate", "status" ]
  }

  function ChallengeSubcommands(): seq<string> {
    [ "list-challenges", "info", "submit", "categories", "recommended",
      "suggested", "activity", "changelog", "download", "start", "stop",
      "writeup", "writeup-official", "mark-helpful", "search", "reviews-user" ]
  }

  function UserSubcommands(): seq<string> {
    [ "info", "profile", "activity", "machines", "challenges", "sherlocks",
      "fortresses", "prolabs", "badges", "career", "ranking", "reviews",
      "tracks", "universities", "connections", "subscription", "settings",
      "notifications", "search", "stats", "owns", "owns-top", "owns-graph",
      "owns-difficulty", "owns-os", "owns-tags", "owns-categories",
      "owns-seasons", "owns-tracks", "owns-universities", "owns-fortresses",
      "owns-prolabs", "owns-sherlocks", "owns-badges", "owns-career",
      "owns-ranking", "owns-reviews", "owns-connections", "owns-subscription",
      "owns-settings", "owns-notifications", "owns-search", "owns-stats" ]
  }

  function SeasonSubcommands(): seq<string> {
    [ "list", "info", "machines", "completed", "leaderboard", "stats",
      "rewards", "badges", "tracks", "universities", "fortresses",
      "prolabs", "sherlocks", "career", "ranking", "reviews" ]
  }

  function SherlocksSubcommands(): seq<string> {
    [ "list", "categories", "info", "download-link", "play", "progress",
      "tasks", "submit-flag", "reviews", "reviews-user", "search" ]
  }

  function FortressesSubcommands(): seq<string> {
    ["list", "info", "submit-flag", "reviews", "reviews-user", "search"]
  }

  function ProlabsSubcommands(): seq<string> {
    ["list", "info", "reviews", "reviews-user", "search"]
  }

  function VmSubcommands(): seq<string> {
    ["spawn", "terminate", "status", "list", "info"]
  }

  function VpnSubcommands(): seq<string> {
    ["config", "status", "connect", "disconnect"]
  }

  function DifficultyChoices(): seq<string> {
    ["very-easy", "easy", "medium", "hard", "insane"]
  }

  function OsChoices(): seq<string> {
    ["linux", "windows", "freebsd", "openbsd", "other"]
  }

  function StatusChoices(): seq<string> {
    ["active", "retired", "unreleased"]
  }

  function SortByChoices(): seq<string> {
    ["release-date", "name", "user-owns", "system-owns", "rating", "user-difficulty"]
  }

  function SortTypeChoices(): seq<string> {
    ["asc", "desc"]
  }

  function ShowCompletedChoices(): seq<string> {
    ["complete", "incomplete"]
  }

  function ChallengeStatusChoices(): seq<string> {
    ["incompleted", "complete"]
  }

  function ChallengeStateChoices(): seq<string> {
    ["active", "retired", "unreleased"]
  }

  function ChallengeSortByChoices(): seq<string> {
    SortByChoices()
  }

  function ChallengeSortTypeChoices(): seq<string> {
    SortTypeChoices()
  }

  function ChallengeDifficultyChoices(): seq<string> {
    DifficultyChoices()
  }

  /** `get_common_options`; note that `-o` is listed twice. */
  function CommonOptions(): seq<string> {
    [ "--help", "--debug", "--json", "--responses", "--option", "-o",
      "--page", "--per-page", "--sort-by", "--sort-type", "--difficulty",
      "--os", "--tags", "--keyword", "--show-completed", "--free",
      "--status", "--state", "--category", "--todo", "--max-pages",
      "--output", "-o", "--count-only" ]
  }

  /**
   * The name and id providers (`get_machine_names`, `get_challenge_names`,
   * `get_user_names`, `get_season_ids`, `get_sherlock_ids`,
   * `get_fortress_ids`, `get_prolab_ids`, `get_category_ids`,
   * `get_tag_ids`): all of them return no names, to avoid API calls.
   */
  function NameProvider(): seq<string> {
    []
  }

  /** The commands whose subcommands (or module names) are suggested after one argument. */
  const SubcommandCommands: set<string> :=
    {"machines", "challenges", "user", "season", "sherlocks", "fortresses", "prolabs", "vm", "vpn", "module_info"}

  /** Names `module_info` does not suggest. */
  const NotModules: set<string> := {"info", "endpoints", "setup", "module_info"}

  /** Machine subcommands after which a machine name is expected. */
  const MachineNameSubcommands: set<string> :=
    { "info", "submit", "activity", "changelog", "creators", "graph-activity", "graph-matrix",
      "graph-owns-difficulty", "owns-top", "reviews", "reviews-user", "todo", "todo-add",
      "todo-remove", "spawn", "terminate", "status" }

  const ChallengeNameSubcommands: set<string> :=
    { "info", "submit", "activity", "changelog", "download", "start", "stop", "writeup",
      "writeup-official", "mark-helpful", "reviews-user" }

  /** User subcommands after which a user name is expected: all of them. */
  const UserNameSubcommands: set<string> :=
    { "info", "profile", "activity", "machines", "challenges", "sherlocks",
      "fortresses", "prolabs", "badges", "career", "ranking", "reviews",
      "tracks", "universities", "connections", "subscription", "settings",
      "notifications", "search", "stats", "owns", "owns-top", "owns-graph",
      "owns-difficulty", "owns-os", "owns-tags", "owns-categories",
      "owns-seasons", "owns-tracks", "owns-universities", "owns-fortresses",
      "owns-prolabs", "owns-sherlocks", "owns-badges", "owns-career",
      "owns-ranking", "owns-reviews", "owns-connections", "owns-subscription",
      "owns-settings", "owns-notifications", "owns-search", "owns-stats" }

  /** Season subcommands other than `list` expect a season id. */
  const SeasonIdSubcommands: set<string> :=
    { "info", "machines", "completed", "leaderboard", "stats", "rewards", "badges", "tracks",
      "universities", "fortresses", "prolabs", "sherlocks", "career", "ranking", "reviews" }

  const SherlockIdSubcommands: set<string> :=
    {"info", "download-link", "play", "progress", "tasks", "submit-flag", "reviews", "reviews-user"}

  const FortressIdSubcommands: set<string> := {"info", "submit-flag", "reviews", "reviews-user"}

  const ProlabIdSubcommands: set<string> := {"info", "reviews", "reviews-user"}

  /** The flags whose presence selects a choice list, in the order they are tested. */
  const ChoiceFlags: seq<string> :=
    ["--difficulty", "--os", "--status", "--sort-by", "--sort-type", "--show-completed", "--category", "--tags"]

  // ---------------------------------------------------------------- prefix filtering

  /** `[s for s in xs if s.startswith(p)]` */
  function FilterPrefix(xs: seq<string>, p: string): (r: seq<string>)
    ensures forall s :: s in r ==> s in xs && StartsWith(s, p)
    ensures forall s :: s in xs && StartsWith(s, p) ==> s in r
    ensures |r| <= |xs|
  {
    if xs == [] then []
    else if StartsWith(xs[0], p) then [xs[0]] + FilterPrefix(xs[1..], p)
    else FilterPrefix(xs[1..], p)
  }

  /** `a` is `b` with some elements dropped and the rest kept in order. */
  predicate IsSubsequence(a: seq<string>, b: seq<string>) {
    if a == [] then true
    else if b == [] then false
    else (a[0] == b[0] && IsSubsequence(a[1..], b[1..])) || IsSubsequence(a, b[1..])
  }

  /** The prefix filter keeps the relative order of what it keeps. */
  lemma {:induction false} FilterPrefixIsSubsequence(xs: seq<string>, p: string)
    ensures IsSubsequence(FilterPrefix(xs, p), xs)
  {
    if xs != [] {
      FilterPrefixIsSubsequence(xs[1..], p);
    }
  }

  lemma {:induction false} FilterPrefixConcat(a: seq<string>, b: seq<string>, p: string)
    ensures FilterPrefix(a + b, p) == FilterPrefix(a, p) + FilterPrefix(b, p)
  {
    if a != [] {
      assert (a + b)[1..] == a[1..] + b;
      FilterPrefixConcat(a[1..], b, p);
    } else {
      assert a + b == b;
    }
  }

  /** A list whose every element already has the prefix is left alone by the filter. */
  lemma {:induction false} FilterPrefixFixesFiltered(xs: seq<string>, p: string)
    requires forall s :: s in xs ==> StartsWith(s, p)
    ensures FilterPrefix(xs, p) == xs
  {
    if xs != [] {
      assert xs[0] in xs;
      assert forall s :: s in xs[1..] ==> s in xs;
      FilterPrefixFixesFiltered(xs[1..], p);
    }
  }

  /** Filtering twice by the same prefix is filtering once. */
  lemma FilterPrefixIdempotent(xs: seq<string>, p: string)
    ensures FilterPrefix(FilterPrefix(xs, p), p) == FilterPrefix(xs, p)
  {
    FilterPrefixFixesFiltered(FilterPrefix(xs, p), p);
  }

  /** `x` occurs at two different positions of `xs`. */
  predicate TwiceIn(x: string, xs: seq<string>) {
    exists i, j :: 0 <= i < j < |xs| && xs[i] == x && xs[j] == x
  }

  /** The filter does not de-duplicate: an element listed twice that matches is kept twice. */
  lemma {:induction false} FilterPrefixKeepsDuplicates(xs: seq<string>, p: string, x: string)
    requires StartsWith(x, p) && TwiceIn(x, xs)
    ensures TwiceIn(x, FilterPrefix(xs, p))
  {
    var i, j :| 0 <= i < j < |xs| && xs[i] == x && xs[j] == x;
    var r := FilterPrefix(xs, p);
    if i == 0 {
      assert xs[1..][j - 1] == x;
      assert x in FilterPrefix(xs[1..], p);
      var k :| 0 <= k < |FilterPrefix(xs[1..], p)| && FilterPrefix(xs[1..], p)[k] == x;
      assert r[0] == x && r[k + 1] == x;
    } else {
      assert xs[1..][i - 1] == x && xs[1..][j - 1] == x;
      FilterPrefixKeepsDuplicates(xs[1..], p, x);
      var i', j' :| 0 <= i' < j' < |FilterPrefix(xs[1..], p)| && FilterPrefix(xs[1..], p)[i'] == x && FilterPrefix(xs[1..], p)[j'] == x;
      if StartsWith(xs[0], p) {
        assert r[i' + 1] == x && r[j' + 1] == x;
      } else {
        assert r[i'] == x && r[j'] == x;
      }
    }
  }

  lemma TwiceInMiddle(x: string, a: seq<string>, b: seq<string>, c: seq<string>)
    requires TwiceIn(x, b)
    ensures TwiceIn(x, a + b + c)
  {
    var i, j :| 0 <= i < j < |b| && b[i] == x && b[j] == x;
    assert (a + b + c)[|a| + i] == x && (a + b + c)[|a| + j] == x;
  }

  /** `-o` is listed twice among the common options (at positions 5 and 22). */
  lemma DashOListedTwice()
    ensures TwiceIn("-o", CommonOptions())
  {
    assert CommonOptions()[5] == "-o" && CommonOptions()[22] == "-o";
  }

  // ---------------------------------------------------------------- the decision procedure

  /** The choice list of the first flag of `ChoiceFlags` that occurs anywhere in `args`. */
  function ChoicesFor(args: seq<string>): seq<string> {
    if "--difficulty" in args then DifficultyChoices()
    else if "--os" in args then OsChoices()
    else if "--status" in args then StatusChoices()
    else if "--sort-by" in args then SortByChoices()
    else if "--sort-type" in args then SortTypeChoices()
    else if "--show-completed" in args then ShowCompletedChoices()
    else if "--category" in args then NameProvider()
    else if "--tags" in args then NameProvider()
    else []
  }

  /** The list a choice flag stands for. */
  function ChoiceListOf(flag: string): seq<string> {
    if flag == "--difficulty" then DifficultyChoices()
    else if flag == "--os" then OsChoices()
    else if flag == "--status" then StatusChoices()
    else if flag == "--sort-by" then SortByChoices()
    else if flag == "--sort-type" then SortTypeChoices()
    else if flag == "--show-completed" then ShowCompletedChoices()
    else NameProvider()
  }

  /** The first of `flags` that occurs in `args`. */
  function FirstPresent(flags: seq<string>, args: seq<string>): (r: Option<string>)
    ensures r.Some? ==> r.value in flags && r.value in args
    ensures r.None? <==> forall f :: f in flags ==> f !in args
  {
    if flags == [] then None
    else if flags[0] in args then Some(flags[0])
    else FirstPresent(flags[1..], args)
  }

  /**
   * Only one choice list is ever added: that of the first flag of
   * `ChoiceFlags` present in `args`, and none when no such flag is present.
   */
  lemma ChoicesForFirstFlag(args: seq<string>)
    ensures ChoicesFor(args) == match FirstPresent(ChoiceFlags, args)
                                case None => []
                                case Some(f) => ChoiceListOf(f)
  {
    var f7 := ["--tags"];
    var f6 := ["--category"] + f7;
    var f5 := ["--show-completed"] + f6;
    var f4 := ["--sort-type"] + f5;
    var f3 := ["--sort-by"] + f4;
    var f2 := ["--status"] + f3;
    var f1 := ["--os"] + f2;
    var f0 := ["--difficulty"] + f1;
    assert ChoiceFlags == f0;
    FirstPresentCons("--difficulty", f1, args);
    FirstPresentCons("--os", f2, args);
    FirstPresentCons("--status", f3, args);
    FirstPresentCons("--sort-by", f4, args);
    FirstPresentCons("--sort-type", f5, args);
    FirstPresentCons("--show-completed", f6, args);
    FirstPresentCons("--category", f7, args);
    FirstPresentCons("--tags", [], args);
    ChoiceListOfFlags();
  }

  /** The list each choice flag stands for. */
  lemma ChoiceListOfFlags()
    ensures ChoiceListOf("--difficulty") == DifficultyChoices()
    ensures ChoiceListOf("--os") == OsChoices()
    ensures ChoiceListOf("--status") == StatusChoices()
    ensures ChoiceListOf("--sort-by") == SortByChoices()
    ensures ChoiceListOf("--sort-type") == SortTypeChoices()
    ensures ChoiceListOf("--show-completed") == ShowCompletedChoices()
    ensures ChoiceListOf("--category") == NameProvider() && ChoiceListOf("--tags") == NameProvider()
  {
  }

  /** `FirstPresent` looks at the first flag, then at the rest. */
  lemma FirstPresentCons(flag: string, rest: seq<string>, args: seq<string>)
    ensures FirstPresent([flag] + rest, args) == if flag in args then Some(flag) else FirstPresent(rest, args)
  {
    assert ([flag] + rest)[1..] == rest;
  }

  /** `FirstPresent` finds the flag at `k` when no earlier flag is present. */
  lemma {:induction false} FirstPresentAt(flags: seq<string>, args: seq<string>, k: nat)
    requires k < |flags| && flags[k] in args
    requires forall j :: 0 <= j < k ==> flags[j] !in args
    ensures FirstPresent(flags, args) == Some(flags[k])
  {
    if k > 0 {
      assert flags[0] !in args;
      FirstPresentAt(flags[1..], args, k - 1);
    }
  }

  /** What is suggested after one argument, before filtering. */
  function SubcommandsOf(command: string): seq<string> {
    if command == "machines" then MachineSubcommands()
    else if command == "challenges" then ChallengeSubcommands()
    else if command == "user" then UserSubcommands()
    else if command == "season" then SeasonSubcommands()
    else if command == "sherlocks" then SherlocksSubcommands()
    else if command == "fortresses" then FortressesSubcommands()
    else if command == "prolabs" then ProlabsSubcommands()
    else if command == "vm" then VmSubcommands()
    else if command == "vpn" then VpnSubcommands()
    else []
  }

  /** The list each handled command stands for. */
  lemma SubcommandsOfCommands()
    ensures SubcommandsOf("machines") == MachineSubcommands()
    ensures SubcommandsOf("challenges") == ChallengeSubcommands()
    ensures SubcommandsOf("user") == UserSubcommands()
    ensures SubcommandsOf("season") == SeasonSubcommands()
    ensures SubcommandsOf("sherlocks") == SherlocksSubcommands()
    ensures SubcommandsOf("fortresses") == FortressesSubcommands()
    ensures SubcommandsOf("prolabs") == ProlabsSubcommands()
    ensures SubcommandsOf("vm") == VmSubcommands()
    ensures SubcommandsOf("vpn") == VpnSubcommands()
  {
  }

  /** `[cmd for cmd in get_available_commands() if cmd.startswith(p) and cmd not in [...]]` */
  function ModuleNames(p: string): (r: seq<string>)
    ensures forall s :: s in r <==> s in AvailableCommands() && StartsWith(s, p) && s !in NotModules
    ensures forall s :: s in r ==> StartsWith(s, p)
  {
    ExcludeNotModules(FilterPrefix(AvailableCommands(), p))
  }

  function ExcludeNotModules(xs: seq<string>): (r: seq<string>)
    ensures forall s :: s in r <==> s in xs && s !in NotModules
  {
    if xs == [] then []
    else if xs[0] in NotModules then ExcludeNotModules(xs[1..])
    else [xs[0]] + ExcludeNotModules(xs[1..])
  }

  /**
   * The list chosen for a command and its subcommand before options and
   * choices are added: the common options for a listing subcommand, the
   * (always empty) name list for a subcommand that takes a name, else nothing.
   */
  function NamedSuggestions(command: string, subcommand: string): (r: seq<string>)
    ensures r == [] || r == CommonOptions()
  {
    if command == "machines" then
      if subcommand in MachineNameSubcommands then NameProvider()
      else if subcommand == "list" then CommonOptions()
      else []
    else if command == "challenges" then
      if subcommand in ChallengeNameSubcommands then NameProvider()
      else if subcommand == "list-challenges" then CommonOptions()
      else []
    else if command == "user" then
      if subcommand in UserNameSubcommands then NameProvider() else []
    else if command == "season" then
      if subcommand in SeasonIdSubcommands then NameProvider() else []
    else if command == "sherlocks" then
      if subcommand in SherlockIdSubcommands then NameProvider() else []
    else if command == "fortresses" then
      if subcommand in FortressIdSubcommands then NameProvider() else []
    else if command == "prolabs" then
      if subcommand in ProlabIdSubcommands then NameProvider() else []
    else []
  }

  /** The base list is the common options exactly for `machines list` and `challenges list-challenges`. */
  lemma NamedSuggestionsListing(command: string, subcommand: string)
    ensures NamedSuggestions(command, subcommand) == CommonOptions() <==>
      (command == "machines" && subcommand == "list") || (command == "challenges" && subcommand == "list-challenges")
  {
    assert CommonOptions() != [];
    if command == "machines" {
      assert "list" !in MachineNameSubcommands;
    } else if command == "challenges" {
      assert "list-challenges" !in ChallengeNameSubcommands;
    }
  }

  /** What the final filter does to a list that was extended twice. */
  lemma ExtendedThenFiltered(base: seq<string>, options: seq<string>, choices: seq<string>, p: string)
    requires forall s :: s in options ==> StartsWith(s, p)
    ensures FilterPrefix(base + options + choices, p) == FilterPrefix(base, p) + options + FilterPrefix(choices, p)
  {
    FilterPrefixConcat(base + options, choices, p);
    FilterPrefixConcat(base, options, p);
    FilterPrefixFixesFiltered(options, p);
  }

  /**
   * The suggestions for two or more arguments: the (prefix-filtered) base
   * list, then the matching common options when the prefix starts with a
   * dash, then the matching values of the chosen choice list.
   */
  function SuggestionsAfterSubcommand(args: seq<string>, p: string): seq<string>
    requires |args| >= 2
  {
    FilterPrefix(NamedSuggestions(args[0], args[1]), p)
    + (if StartsWith(p, "-") then FilterPrefix(CommonOptions(), p) else [])
    + FilterPrefix(ChoicesFor(args), p)
  }

  /**
   * The suggestions for `args` and the prefix `p`: the matching commands for
   * no argument; the matching subcommands of the command (or the module
   * names after `module_info`) for one; `SuggestionsAfterSubcommand` for more.
   */
  function SuggestionsFor(args: seq<string>, p: string): seq<string> {
    if |args| == 0 then FilterPrefix(AvailableCommands(), p)
    else if |args| == 1 then FirstArgumentSuggestions(args[0], p)
    else SuggestionsAfterSubcommand(args, p)
  }

  /** The suggestions for the single argument `command`: its matching subcommands, or the module names. */
  function FirstArgumentSuggestions(command: string, p: string): (r: seq<string>)
    ensures forall s :: s in r ==> StartsWith(s, p)
  {
    if command == "module_info" then ModuleNames(p) else FilterPrefix(SubcommandsOf(command), p)
  }

  /** The final filter leaves the one-argument suggestions as they are. */
  lemma FirstArgumentFiltered(command: string, p: string)
    ensures FilterPrefix(FirstArgumentSuggestions(command, p), p) == FirstArgumentSuggestions(command, p)
  {
    FilterPrefixFixesFiltered(FirstArgumentSuggestions(command, p), p);
  }

  /** The one-argument branch: the command's subcommands, or the module names after `module_info`. */
  method SubcommandSuggestions(command: string, incomplete: string) returns (suggestions: seq<string>)
    ensures suggestions == FirstArgumentSuggestions(command, incomplete)
  {
    SubcommandsOfCommands();
    suggestions := [];
    if command == "machines" {
      suggestions := FilterPrefix(MachineSubcommands(), incomplete);
    } else if command == "challenges" {
      suggestions := FilterPrefix(ChallengeSubcommands(), incomplete);
    } else if command == "user" {
      suggestions := FilterPrefix(UserSubcommands(), incomplete);
    } else if command == "season" {
      suggestions := FilterPrefix(SeasonSubcommands(), incomplete);
    } else if command == "sherlocks" {
      suggestions := FilterPrefix(SherlocksSubcommands(), incomplete);
    } else if command == "fortresses" {
      suggestions := FilterPrefix(FortressesSubcommands(), incomplete);
    } else if command == "prolabs" {
      suggestions := FilterPrefix(ProlabsSubcommands(), incomplete);
    } else if command == "vm" {
      suggestions := FilterPrefix(VmSubcommands(), incomplete);
    } else if command == "vpn" {
      suggestions := FilterPrefix(VpnSubcommands(), incomplete);
    } else if command == "module_info" {
      suggestions := ModuleNames(incomplete);
    }
  }

  /**
   * The branch for two or more arguments: the base list, extended in place
   * with the matching common options (dash prefix only) and then with the
   * chosen choice list; the final filter turns it into the suggestions.
   */
  method ExtendedSuggestions(args: seq<string>, incomplete: string) returns (suggestions: seq<string>)
    requires |args| >= 2
    ensures FilterPrefix(suggestions, incomplete) == SuggestionsAfterSubcommand(args, incomplete)
  {
    var base := NamedSuggestions(args[0], args[1]);
    suggestions := base;
    var options: seq<string> := [];
    if StartsWith(incomplete, "-") {
      options := FilterPrefix(CommonOptions(), incomplete);
      suggestions := suggestions + options;
    }
    assert suggestions == base + options;
    suggestions := suggestions + ChoicesFor(args);
    ExtendedThenFiltered(base, options, ChoicesFor(args), incomplete);
  }

  /**
   * `get_completion_suggestions(ctx, args, incomplete)`: a list built by
   * comprehension, extended in place with options and choice values, then
   * filtered once more by the prefix `incomplete`.
   */
  method CompletionSuggestions(args: seq<string>, incomplete: string) returns (r: seq<string>)
    ensures r == SuggestionsFor(args, incomplete)
  {
    var suggestions: seq<string>;
    if |args| == 0 {
      suggestions := FilterPrefix(AvailableCommands(), incomplete);
      FilterPrefixIdempotent(AvailableCommands(), incomplete);
    } else if |args| == 1 {
      suggestions := SubcommandSuggestions(args[0], incomplete);
      FirstArgumentFiltered(args[0], incomplete);
    } else {
      suggestions := ExtendedSuggestions(args, incomplete);
    }
    r := FilterPrefix(suggestions, incomplete);
  }

  // ---------------------------------------------------------------- what the suggestions promise

  /** Every suggestion starts with the incomplete word. */
  lemma SuggestionsMatchPrefix(args: seq<string>, p: string)
    ensures forall s :: s in SuggestionsFor(args, p) ==> StartsWith(s, p)
  {
    if |args| >= 2 {
      AfterSubcommandMatchesPrefix(args, p);
    }
  }

  lemma AfterSubcommandMatchesPrefix(args: seq<string>, p: string)
    requires |args| >= 2
    ensures forall s :: s in SuggestionsAfterSubcommand(args, p) ==> StartsWith(s, p)
  {
  }

  /** After one argument, a command without subcommands gets no suggestion. */
  lemma NoSubcommandsForOtherCommands(command: string, incomplete: string)
    requires command !in SubcommandCommands
    ensures SuggestionsFor([command], incomplete) == []
  {
    NoFirstArgumentSuggestions(command, incomplete);
  }

  lemma NoFirstArgumentSuggestions(command: string, incomplete: string)
    requires command !in SubcommandCommands
    ensures FirstArgumentSuggestions(command, incomplete) == []
  {
    NotListedHasNoSubcommands(command);
  }

  lemma NotListedHasNoSubcommands(command: string)
    requires command !in SubcommandCommands
    ensures SubcommandsOf(command) == []
  {
    NotListedDiffers(command);
  }

  lemma NotListedDiffers(command: string)
    requires command !in SubcommandCommands
    ensures command != "machines" && command != "challenges" && command != "user"
    ensures command != "season" && command != "sherlocks" && command != "fortresses"
    ensures command != "prolabs" && command != "vm" && command != "vpn"
  {
  }

  /** With a dash prefix, every matching common option is offered, however the rest is chosen. */
  lemma DashPrefixOffersOptions(args: seq<string>, p: string, o: string)
    requires |args| >= 2 && StartsWith(p, "-")
    requires o in CommonOptions() && StartsWith(o, p)
    ensures o in SuggestionsAfterSubcommand(args, p)
  {
    assert o in FilterPrefix(CommonOptions(), p);
  }

  /** ... and `-o`, when it matches, is offered at least twice. */
  lemma DashOOfferedTwice(args: seq<string>, p: string)
    requires |args| >= 2 && StartsWith(p, "-") && StartsWith("-o", p)
    ensures TwiceIn("-o", SuggestionsAfterSubcommand(args, p))
  {
    DashOListedTwice();
    FilterPrefixKeepsDuplicates(CommonOptions(), p, "-o");
    var a := FilterPrefix(NamedSuggestions(args[0], args[1]), p);
    var o := FilterPrefix(CommonOptions(), p);
    var c := FilterPrefix(ChoicesFor(args), p);
    assert SuggestionsAfterSubcommand(args, p) == a + o + c;
    TwiceInMiddle("-o", a, o, c);
  }

  /** The suggested choice values are exactly the matching values of the first flag's list, at the end. */
  lemma ChoicesComeLast(args: seq<string>, p: string)
    requires |args| >= 2
    ensures var r := SuggestionsAfterSubcommand(args, p);
            var c := FilterPrefix(match FirstPresent(ChoiceFlags, args)
                                  case None => []
                                  case Some(f) => ChoiceListOf(f), p);
            |c| <= |r| && r[|r| - |c|..] == c
  {
    ChoicesForFirstFlag(args);
  }

  /** `machines list` (and `challenges list-challenges`) start with every matching common option, in list order. */
  lemma ListingStartsWithOptions(args: seq<string>, p: string)
    requires |args| >= 2
    requires (args[0] == "machines" && args[1] == "list") || (args[0] == "challenges" && args[1] == "list-challenges")
    ensures var o := FilterPrefix(CommonOptions(), p);
            var r := SuggestionsAfterSubcommand(args, p);
            |o| <= |r| && r[..|o|] == o
  {
    NamedSuggestionsListing(args[0], args[1]);
  }

  /** Without a dash prefix or a choice flag, a subcommand that is not a listing gets nothing. */
  lemma NothingWithoutOptionsOrChoices(args: seq<string>, p: string)
    requires |args| >= 2 && !StartsWith(p, "-")
    requires FirstPresent(ChoiceFlags, args).None?
    requires !(args[0] == "machines" && args[1] == "list") && !(args[0] == "challenges" && args[1] == "list-challenges")
    ensures SuggestionsAfterSubcommand(args, p) == []
  {
    ChoicesForFirstFlag(args);
    NamedSuggestionsListing(args[0], args[1]);
  }

  /** Every common option starts with a dash, so none survives a prefix without one. */
  lemma {:induction false} OptionsNeedDash(incomplete: string)
    requires |incomplete| > 0 && incomplete[0] != '-'
    ensures FilterPrefix(CommonOptions(), incomplete) == []
  {
    var opts := CommonOptions();
    forall s | s in opts ensures !StartsWith(s, incomplete) {
      assert s[0] == '-';
    }
    NoneMatch(opts, incomplete);
  }

  lemma {:induction false} NoneMatch(xs: seq<string>, p: string)
    requires forall s :: s in xs ==> !StartsWith(s, p)
    ensures FilterPrefix(xs, p) == []
  {
    if xs != [] {
      assert xs[0] in xs;
      assert forall s :: s in xs[1..] ==> s in xs;
      NoneMatch(xs[1..], p);
    }
  }

  /** Every user subcommand expects a user name. */
  lemma UserSubcommandsTakeNames()
    ensures forall u :: u in UserSubcommands() ==> u in UserNameSubcommands
  {
  }
}
