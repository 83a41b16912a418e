# htbcli core, modelled in Dafny

`htbcli` is a command-line client for the HackTheBox REST API. Most of it
formats a path, sends it and renders the JSON answer. This project models the
parts of it that make decisions, and proves what those decisions promise.

- **Shell completion.** `get_completion_suggestions` works as a procedure over
  the typed arguments and the incomplete word. Around it sit the constant
  command, option and choice lists.
- **Completion scripts.** A scraper turns `htbcli --help` text into command
  names, and `main` picks a script by shell name.
- **VPN files.** This covers:
  - the download path for a protocol;
  - the `name_location_proto.ovpn` naming and its parser;
  - the records that `download_all_vpns` builds from the nested server map;
  - the file that `start_vpn` picks.
- **Tracks.** A track id is found case-insensitively by name. The `info` and
  `items` commands accept an id or a name. A track's items are split into
  machines and challenges.
- **Request builders.** These are the requests the machines, challenges,
  platform and season modules send. Each is a `Request(verb, path, params,
  body)` value. Optional filters are sent only when truthy.
- **Platform commands.** This covers `search` (result counting, the tables it
  prints and the errors its loops raise), description truncation, the Yes/No
  columns and `-o` field selection.
- **Swagger and module analysis.** This covers:
  - `SwaggerParser`'s selection of operations by tag;
  - the per-tag grouping in `fix_all_modules.py` and `analyze_endpoints.py`,
    which share one model. It works over the Paths, Path Item and Operation
    objects of the OpenAPI Specification 3.0.3 (sections 4.7.8, 4.7.9 and
    4.7.10);
  - the line scanner of `analyze_module_file`, both as written (which
    records only get calls) and corrected;
  - the missing/extra comparison of `main`, which the model runs with the
    scanner as written and, separately, with the corrected one.
- **Configuration.** `get_auth_headers` builds a Bearer credential (section 2.1
  of RFC 6750). The page-size constants are modelled too.

Shared modules:

- `Wrappers` holds Option and Result.
- `PyStr` models the Python `str` built-ins used:
  - `startswith`, `find` and `in`;
  - `lower`/`upper` and `replace`;
  - `split` on one character, `strip`, `strip(chars)` and `split()[0]`;
  - `str(int)`, `int(str)` and `sorted`.
- `Json` is a decoded JSON value, with Python truthiness.
- `Http` is the request descriptor.

The subprocess output, the filesystem, glob results, download outcomes and API
responses are all parameters.

## Model

| member | source | states |
|---|---|---|
| Completion.FilterPrefix | htbcli/completion.py:298 | every element kept has the prefix; every element of the input with the prefix is kept; length does not grow |
| Completion.FilterPrefixIsSubsequence | htbcli/completion.py:298 | the filter keeps the relative order of what it keeps |
| Completion.FilterPrefixConcat | htbcli/completion.py:278 | filtering a concatenation is concatenating the filtered parts |
| Completion.FilterPrefixFixesFiltered | htbcli/completion.py:298 | a list whose every element has the prefix is unchanged by the filter |
| Completion.FilterPrefixIdempotent | htbcli/completion.py:298 | filtering twice by the same prefix equals filtering once |
| Completion.FilterPrefixKeepsDuplicates | htbcli/completion.py:277-278 | a matching element listed twice is kept twice (no de-duplication) |
| Completion.TwiceInMiddle | htbcli/completion.py:278 | a duplicate survives any extension on either side |
| Completion.DashOListedTwice | htbcli/completion.py:134-142 | `-o` is at two positions of the common options |
| Completion.FirstPresent | htbcli/completion.py:281-296 | the flag found is one of the flags and occurs in the arguments; none is found exactly when no flag occurs |
| Completion.ChoicesForFirstFlag | htbcli/completion.py:281-296 | the choice list added is that of the first flag, in priority order, present anywhere in the arguments, and nothing when none is |
| Completion.FirstPresentAt | htbcli/completion.py:281-296 | a present flag with no present flag before it is the one chosen |
| Completion.FirstPresentCons | htbcli/completion.py:281-296 | the first flag is tested before the rest |
| Completion.ChoiceListOfFlags | htbcli/completion.py:281-296 | each choice flag stands for its own list; `--category` and `--tags` for the empty name providers |
| Completion.SubcommandsOfCommands | htbcli/completion.py:210-227 | each of the nine commands with subcommands gets its own list after one argument |
| Completion.FirstArgumentSuggestions | htbcli/completion.py:207-230 | every suggestion after one argument starts with the incomplete word |
| Completion.FirstArgumentFiltered | htbcli/completion.py:207-298 | the final filter leaves the one-argument suggestions unchanged |
| Completion.SubcommandSuggestions | htbcli/completion.py:207-230 | the `if`/`elif` chain over the ten commands gives the filtered subcommand list of the command, or the module names after `module_info` |
| Completion.ExtendedSuggestions | htbcli/completion.py:237-296 | the base list extended in place with the dash options and the choice list filters to the suggestions for two or more arguments |
| Completion.ModuleNames | htbcli/completion.py:228-230 | the suggestions after `module_info` are exactly the commands with the prefix other than `info`, `endpoints`, `setup` and `module_info` |
| Completion.ExcludeNotModules | htbcli/completion.py:230 | the exclusion keeps exactly the elements outside the four excluded names |
| Completion.NamedSuggestions | htbcli/completion.py:237-274 | the base list for two or more arguments is empty or the common options (every name provider returns nothing) |
| Completion.NamedSuggestionsListing | htbcli/completion.py:237-274 | the base list is the common options exactly for `machines list` and `challenges list-challenges` |
| Completion.ExtendedThenFiltered | htbcli/completion.py:277-298 | options appended already filtered by the prefix pass the final filter unchanged, between the filtered base and the filtered choices |
| Completion.CompletionSuggestions | htbcli/completion.py:198-298 | the list built, extended and filtered again equals `SuggestionsFor`: with no argument the filtered top-level list; with one the filtered subcommand list or the module names; with two or more the base list, the dash options and the choices, each filtered once |
| Completion.SuggestionsMatchPrefix | htbcli/completion.py:298 | every suggestion starts with the incomplete word |
| Completion.AfterSubcommandMatchesPrefix | htbcli/completion.py:237-298 | every suggestion after two or more arguments starts with the incomplete word |
| Completion.NoSubcommandsForOtherCommands | htbcli/completion.py:207-230 | a single argument outside the ten handled commands gets no suggestion |
| Completion.NotListedHasNoSubcommands | htbcli/completion.py:207-230 | a command outside the handled ten has no subcommand list |
| Completion.NotListedDiffers | htbcli/completion.py:207-227 | such a command is none of the nine with a subcommand list |
| Completion.UserSubcommandsTakeNames | htbcli/completion.py:252-253 | every user subcommand is followed by a user name |
| Completion.DashPrefixOffersOptions | htbcli/completion.py:277-278 | with a dash prefix every common option with that prefix is offered |
| Completion.DashOOfferedTwice | htbcli/completion.py:277-278 | `-o`, when it matches, is offered at least twice |
| Completion.ChoicesComeLast | htbcli/completion.py:281-298 | the suggestions end with the matching values of the chosen choice list |
| Completion.ListingStartsWithOptions | htbcli/completion.py:241-249 | `machines list` and `challenges list-challenges` start with every matching common option, in list order |
| Completion.NothingWithoutOptionsOrChoices | htbcli/completion.py:239-240 | a name-taking subcommand with a non-dash prefix and no choice flag gets nothing |
| Completion.OptionsNeedDash | htbcli/completion.py:134-142 | no common option survives a non-empty prefix that does not start with `-` |
| Completion.NoneMatch | htbcli/completion.py:298 | a list with no element with the prefix filters to nothing |
| CompletionScript.KeepCommands | htbcli/completion_script.py:23 | keeps exactly the non-empty entries that do not start with `-` |
| CompletionScript.ScrapeHelp | htbcli/completion_script.py:12-26 | an exception or a non-zero exit gives `[]`; otherwise the first tokens of the accepted lines, in line order |
| CompletionScript.CommandsStep | htbcli/completion_script.py:17-22 | one more line appends what it contributes |
| CompletionScript.GetHtbcliCommands | htbcli/completion_script.py:10-26 | the scraper applied to the result of `htbcli --help` |
| CompletionScript.GetHtbcliSubcommands | htbcli/completion_script.py:28-43 | the same scraper applied to `htbcli <command> --help` |
| CompletionScript.CommandsAreTokens | htbcli/completion_script.py:18-22 | every collected command is non-empty, has no whitespace and does not start with `-` |
| CompletionScript.FinalFilterKeepsAll | htbcli/completion_script.py:23 | the final comprehension removes nothing |
| CompletionScript.KeepAllValid | htbcli/completion_script.py:23 | the comprehension fixes a list of valid commands |
| CompletionScript.CommandsOfConcat | htbcli/completion_script.py:17-22 | lines contribute independently: order follows the lines and duplicates are kept |
| CompletionScript.OneLine | htbcli/completion_script.py:18-22 | one line contributes its first token exactly when it is accepted and the token has no leading dash |
| CompletionScript.RejectedLineIgnored | htbcli/completion_script.py:18 | a blank, `Usage:` or `Options:` line contributes nothing wherever it is |
| CompletionScript.AtMostOnePerLine | htbcli/completion_script.py:17-22 | at most one command per line |
| CompletionScript.Main | htbcli/completion_script.py:572-587 | the exit status is 0 or 1 |
| CompletionScript.MainSucceedsIff | htbcli/completion_script.py:574-587 | success exactly when a shell argument lower-cases to `bash` or `zsh` |
| CompletionScript.MainPrintsOneScript | htbcli/completion_script.py:580-587 | on success exactly the named script is printed; on failure none |
| CompletionScript.UpperCaseShellAccepted | htbcli/completion_script.py:578 | the shell name is lower-cased, so `BASH` selects bash |
| Vpn.GetVpnServers | htbcli/modules/vpn.py:26-28 | GET `/connections/servers` with exactly the `product` parameter |
| Vpn.OvpnPathByProtocol | htbcli/modules/vpn.py:30-35 | the `/0/1` file exactly when the protocol lower-cases to `tcp`, the `/0` file otherwise |
| Vpn.OvpnPathsDiffer | htbcli/modules/vpn.py:30-35 | the TCP and UDP downloads differ |
| Vpn.ParseOvpnFilename | htbcli/modules/vpn.py:101-107 | a file is listed exactly when the `.ovpn`-free name splits into three or more parts; the fields are parts 0, 1 and upper-cased part 2 |
| Vpn.FilenameRoundTrip | htbcli/modules/vpn.py:67-107 | a written file name parses back to its name, location and upper-cased protocol when name and location hold no `_` and no `.ovpn` |
| Vpn.ProtocolSuffixRemoved | htbcli/modules/vpn.py:102 | removing `.ovpn` from `udp.ovpn`/`tcp.ovpn` leaves the protocol |
| Vpn.UnderscoreInNameShiftsFields | htbcli/modules/vpn.py:102-107 | a `_` in the server name shifts the parsed fields |
| Vpn.StemAfterFirstField | htbcli/modules/vpn.py:102 | the `.ovpn` removal passes an underscore-free first field unchanged |
| Vpn.StemFields | htbcli/modules/vpn.py:102-106 | a written name splits into at least three parts, the first two being name and location |
| Vpn.OvpnStem | htbcli/modules/vpn.py:67-102 | removing `.ovpn` from a written name leaves `name_location_proto` |
| Vpn.StemSplit | htbcli/modules/vpn.py:102-106 | `name_location_proto` splits into its three fields |
| Vpn.Values | htbcli/modules/vpn.py:58 | the servers of a type in map order |
| Vpn.RecordsConcat | htbcli/modules/vpn.py:55-92 | the records of consecutive servers are consecutive |
| Vpn.DownloadServer | htbcli/modules/vpn.py:59-87 | one server adds its record exactly when its id is truthy and both downloads succeed |
| Vpn.DownloadServers | htbcli/modules/vpn.py:57-92 | the innermost loop appends the records of one type's servers in order |
| Vpn.DownloadLocation | htbcli/modules/vpn.py:56-92 | the middle loop appends the records of one location's server types in order |
| Vpn.LocationStep | htbcli/modules/vpn.py:56 | one more server type adds its servers' records at the end |
| Vpn.OptionsStep | htbcli/modules/vpn.py:55 | one more location adds its servers' records at the end |
| Vpn.DownloadAllVpns | htbcli/modules/vpn.py:45-94 | the result is the records of the visited servers, in visiting order |
| Vpn.AtMostOneRecordPerServer | htbcli/modules/vpn.py:55-92 | at most one record per visited server |
| Vpn.RecordsComeFromServers | htbcli/modules/vpn.py:59-87 | each record comes from a visited server with that truthy id, name and location, with files named `{name}_{location}_udp/tcp.ovpn` |
| Vpn.NullNameWrittenAsNone | htbcli/modules/vpn.py:59-87 | a present null `friendly_name` is recorded as null and written as `None_…`; an absent one as `unknown` |
| Vpn.NoDownloadNoRecords | htbcli/modules/vpn.py:64-92 | when no download succeeds nothing is recorded |
| Vpn.FalsyIdNotRecorded | htbcli/modules/vpn.py:63 | a server with a missing or zero id produces no record |
| Vpn.ListVpnFiles | htbcli/modules/vpn.py:96-117 | the loop appends one record per parsable file name, in glob order |
| Vpn.VpnFilesFromNames | htbcli/modules/vpn.py:100-115 | at most one record per file, each from a listed name and its parse |
| Vpn.DownloadedFileListed | htbcli/modules/vpn.py:67-115 | a file written by the downloader is listed again with its name and location |
| Vpn.SelectVpnFile | htbcli/modules/vpn.py:123-131 | an absolute name is used as is; otherwise the first glob match whose lower-cased name contains the lower-cased mode, and none exactly when no match contains it |
| Vpn.StartVpnAsWritten | htbcli/modules/vpn.py:119-163 | as written, `start_vpn` never reports success |
| Vpn.StartVpn | htbcli/modules/vpn.py:119-163 | success exactly when the picked file (the absolute path, or the first glob match for the mode) exists, OpenVPN is installed and the launcher exits with 0; no mode match means failure |
| Vpn.FirstModeMatchUnique | htbcli/modules/vpn.py:127-131 | the loop's `break` picks one file: the first match is unique |
| Tracks.GetTrackList | htbcli/modules/tracks.py:28-34 | GET `/tracks` with the page parameters |
| Tracks.GetTrackInfo | htbcli/modules/tracks.py:22-24 | GET `/tracks/{id}`, no parameters |
| Tracks.FindTrackIdByName | htbcli/modules/tracks.py:40-50 | the loop returns the lookup's value: first case-insensitive match, `None` on a falsy list or an exception |
| Tracks.LookupFindsFirstMatch | htbcli/modules/tracks.py:45-47 | the id of the first track whose name matches, when every earlier track is passed over |
| Tracks.LookupSkips | htbcli/modules/tracks.py:45-46 | tracks that do not match are passed over |
| Tracks.NoMatchGivesNone | htbcli/modules/tracks.py:48 | no match gives `None` |
| Tracks.DictResponseGivesNone | htbcli/modules/tracks.py:45-50 | a dict response, or an exception, gives `None` |
| Tracks.MissingNameMatchesOnlyEmpty | htbcli/modules/tracks.py:46 | the default name `''` matches only the empty query |
| Tracks.EmptyQueryFindsNamelessTrack | htbcli/modules/tracks.py:46-47 | a nameless first track answers the empty query |
| Tracks.ResolveTrack | htbcli/modules/tracks.py:115-125 | an identifier accepted by `int()` is used directly; any other identifier resolves exactly when the name lookup gives a truthy id, and then to that id |
| Tracks.FirstMatchRequested | htbcli/modules/tracks.py:115-127 | a name whose first case-insensitive match has a truthy id requests `/tracks/{id}` |
| Tracks.NumericIdentifierSkipsLookup | htbcli/modules/tracks.py:116-118 | a numeric identifier's request does not depend on the lookup |
| Tracks.DecimalIdentifier | htbcli/modules/tracks.py:116-127 | `"42"` requests `/tracks/42` |
| Tracks.RenderedIntegerIdentifier | htbcli/modules/tracks.py:116-127 | an identifier that is an integer's decimal rendering requests that integer's track |
| Tracks.FortyTwoRendered | htbcli/modules/tracks.py:24 | `42` renders as `"42"` |
| Tracks.FalsyIdSendsNothing | htbcli/modules/tracks.py:119-125 | a name resolving to a falsy id sends no request |
| Tracks.OfType | htbcli/modules/tracks.py:198-199 | exactly the items whose `type` is the kind, at most all of them |
| Tracks.OfTypeCounts | htbcli/modules/tracks.py:198-199 | each item of the kind is kept as often as it occurs, and no other item is kept |
| Tracks.OfTypeConcat | htbcli/modules/tracks.py:198-199 | filtering a concatenation concatenates the filtered parts, so the items keep their order |
| Tracks.PartitionBounded | htbcli/modules/tracks.py:198-207 | machines plus challenges is at most the total |
| Tracks.PartitionDisjoint | htbcli/modules/tracks.py:198-199 | the groups are disjoint and other types are in neither |
| Tracks.PartitionExact | htbcli/modules/tracks.py:198-207 | the counts sum to the total exactly when every item is a machine or a challenge |
| Machines.GetRetiredPaginated | htbcli/modules/machines.py:49-55 | GET `/machine/list/retired/paginated` with exactly `page` and `per_page`, unchanged |
| Machines.GetTodoPaginated | htbcli/modules/machines.py:109-115 | GET `/machine/todo/paginated` with exactly `page` and `per_page` |
| Machines.GetMachinePaginated | htbcli/modules/machines.py:67-75 | page parameters unchanged; `status` present exactly when truthy, with its value |
| Machines.SubmitMachineFlag | htbcli/modules/machines.py:57-61 | POST `/machine/own` with body exactly `{flag, id}` |
| Machines.SubmitMachineReview | htbcli/modules/machines.py:89-91 | POST `/machine/review` with `review_data` verbatim |
| Machines.ReviewIgnoresMachineId | htbcli/modules/machines.py:89-91 | the machine id is not sent |
| Machines.UpdateTodo | htbcli/modules/machines.py:149-151 | POST `/{product}/todo/update/{id}` with the todo data as body |
| Machines.ListMachinesRequest | htbcli/modules/machines.py:284-287 | `retired` goes to the retired listing with only page parameters; any other status to `/machine/paginated` with the page parameters and that status, an empty status being left out; no body |
| Machines.DefaultListsActive | htbcli/modules/machines.py:275-287 | the default status asks for active machines |
| Machines.UnwrapListData | htbcli/modules/machines.py:291 | a list is shown exactly for a truthy dict with `data`; the inner `data` when there is one, else the outer |
| Machines.UnwrapEnvelopes | htbcli/modules/machines.py:291 | paginated and flat envelopes give the same list |
| Machines.RecommendedRetired | htbcli/modules/machines.py:645 | `[card1, card2]` exactly when both are truthy, else empty |
| Challenges.GetChallenges | htbcli/modules/challenges.py:85-95 | page parameters unchanged; `difficulty` and `category` each present exactly when truthy |
| Challenges.SubmitChallengeFlag | htbcli/modules/challenges.py:41-43 | POST `/challenge/own` with body `{flag}` and no id |
| Challenges.MarkReviewHelpful | htbcli/modules/challenges.py:57-59 | POST `/challenge/review/helpful/{id}` with no body |
| Challenges.StartChallenge | htbcli/modules/challenges.py:65-67 | POST `/challenge/start` with body `{challenge_id}` and no query parameters |
| Challenges.StopChallenge | htbcli/modules/challenges.py:69-71 | POST `/challenge/stop` with body `{challenge_id}` and no query parameters |
| Challenges.StartStopDiffer | htbcli/modules/challenges.py:65-71 | the same body goes to two different paths |
| Challenges.ParseDifficulty | htbcli/modules/challenges.py:110 | a value is accepted exactly when it is one of Easy, Medium, Hard, Insane |
| Challenges.ListChallengesRequest | htbcli/modules/challenges.py:107-117 | a request is sent exactly when the difficulty is absent or a valid choice |
| Challenges.LowerCaseDifficultyRejected | htbcli/modules/challenges.py:110 | `easy` and `very-easy` are rejected, `Easy` accepted |
| Platform.SearchFetch | htbcli/modules/platform.py:44-50 | `query` always; `tags` exactly when truthy |
| Platform.CategoryCount | htbcli/modules/platform.py:409-419 | a falsy category counts 0; a truthy number raises; anything else counts its positive length |
| Platform.SumRaisesIff | htbcli/modules/platform.py:409-419 | the sum raises exactly when some category is a truthy number |
| Platform.SumZeroIff | htbcli/modules/platform.py:409-419 | the total is 0 exactly when every category is falsy |
| Platform.SumCountsStep | htbcli/modules/platform.py:409-419 | one more category adds its count |
| Platform.CountSearchResults | htbcli/modules/platform.py:409-419 | the five `+=` steps compute the sum over machines, challenges, users, teams and joboffers |
| Platform.Search | htbcli/modules/platform.py:399-516 | a falsy result prints "No search results found"; a truthy non-dict is an error with no table; results are shown only with a positive total |
| Platform.NoResultsIff | htbcli/modules/platform.py:407-514 | "No search results found" exactly for a falsy result or a dict whose five categories are all falsy |
| Platform.ShowResultsIff | htbcli/modules/platform.py:407-516 | tables are shown exactly for a dict whose count does not raise and is positive and whose truthy categories' loops do not raise; then one table per truthy category in order, each with its category's rows, and as many rows as the total |
| Platform.NonDictEntryIsError | htbcli/modules/platform.py:407-516 | `{"machines": [1]}` counts 1 but its loop raises, so an error is printed and no table |
| Platform.DisplayStep | htbcli/modules/platform.py:425-512 | one more category adds its table, is skipped when falsy, or ends the display when its loop raises |
| Platform.DisplayFailsIff | htbcli/modules/platform.py:425-516 | the display stops with an error exactly when some truthy category's loop raises |
| Platform.ShownCategories | htbcli/modules/platform.py:425-512 | a completed display has one table per truthy category, in order |
| Platform.ShownRows | htbcli/modules/platform.py:425-512 | each table holds its category's rows |
| Platform.ShownRowCount | htbcli/modules/platform.py:407-512 | a completed display shows as many rows as the total counted |
| Platform.OtherKeysIgnored | htbcli/modules/platform.py:409-419 | keys outside the five categories do not change the total |
| Platform.ListsAreCounted | htbcli/modules/platform.py:409-419 | lists count their lengths |
| Platform.MachineRow | htbcli/modules/platform.py:434-444 | five cells; Avatar and Starting Point are `Yes` exactly when truthy |
| Platform.AvatarRow | htbcli/modules/platform.py:474-495 | three cells; Avatar is `Yes` exactly when truthy |
| Platform.CellShowsValueOrNA | htbcli/modules/platform.py:436-495 | a missing or falsy field shows `N/A`, a non-empty string shows itself |
| Platform.TruncateDescription | htbcli/modules/platform.py:456-458 | at most 50 characters; `N/A` when missing or empty; the first 47 plus `...` when longer than 50; otherwise unchanged |
| Platform.TruncateIdempotent | htbcli/modules/platform.py:456-458 | truncating a truncated description changes nothing |
| Platform.DescriptionCell | htbcli/modules/platform.py:456-465 | the truncated description string, `N/A` for a missing or falsy one; raises exactly for a truthy non-string |
| Platform.ChallengeRow | htbcli/modules/platform.py:454-465 | four cells, the last the description cell; raises exactly when the description does |
| Platform.JobRow | htbcli/modules/platform.py:505-511 | four cells: id, title, company and location |
| Platform.RowOf | htbcli/modules/platform.py:434-511 | a non-dict entry raises; a dict gets its category's row |
| Platform.EntryRows | htbcli/modules/platform.py:434-511 | the rows succeed exactly when every entry's row does, and then hold one row per entry, in order |
| Platform.CategoryRows | htbcli/modules/platform.py:434-511 | a truthy category that is not a list raises; a list gets its entries' rows |
| Platform.CategoryTable | htbcli/modules/platform.py:434-444 | the loop over one category's entries computes `EntryRows` |
| Platform.SelectedRow | htbcli/modules/platform.py:95-99 | the id followed by the requested fields in order, each shown or `N/A` |
| Platform.AnnouncementRows | htbcli/modules/platform.py:90-99 | the nested loops build one `SelectedRow` per announcement |
| Platform.StatsOf | htbcli/modules/platform.py:191-192 | nothing for an empty result; `data` when truthy, else the whole result |
| Platform.PresentMembers | htbcli/modules/platform.py:202-215 | the fields found are those requested and present in the stats |
| Platform.AbsentMembers | htbcli/modules/platform.py:202-215 | the warned fields are those requested and absent |
| Platform.PresentAbsentSplit | htbcli/modules/platform.py:202-215 | every requested field is either selected or warned about |
| Platform.FirstOccurrences | htbcli/modules/platform.py:202-215 | the dict's keys, without repeats |
| Platform.SelectStep | htbcli/modules/platform.py:202-215 | one more field extends the found or the warned list |
| Platform.FirstOccurrencesSnoc | htbcli/modules/platform.py:202-215 | re-inserting a key keeps its first position |
| Platform.SelectFields | htbcli/modules/platform.py:202-215 | selected keys are exactly the requested fields present in the stats, with their values, in first-request order; one warning per absent field |
| Platform.PanelShownIff | htbcli/modules/platform.py:202-228 | nothing is selected exactly when no requested field is present |
| Season.GetSeasonEnd | htbcli/modules/season.py:25-27 | GET `/season/end/{season_id}/{user_id}` |
| Season.GetSeasonLeaderboard | htbcli/modules/season.py:53-58 | `season` in the parameters exactly when truthy, otherwise none |
| Season.GetSeasonLeaderboardTop | htbcli/modules/season.py:60-65 | path ends `/top/{season_id}`; `period` exactly when truthy |
| Season.SeasonEndPathOrder | htbcli/modules/season.py:25-27 | the path determines both ids, season first |
| Season.SplitAtSlash | htbcli/modules/season.py:27 | a slash-free prefix is fixed by the first `/` |
| Season.HeadOfJoin | htbcli/modules/season.py:27 | the first character of a joined path |
| Season.CountOrNA | htbcli/modules/season.py:258 | `len(data)` for a list, otherwise `N/A` |
| Season.CountReadsBack | htbcli/modules/season.py:258 | the shown count parses back to the length |
| Season.CountOfListIsNumber | htbcli/modules/season.py:258 | a list never shows `N/A` |
| Season.Rooted | htbcli/modules/season.py:285-286 | `Yes` exactly when `is_owned_root` is truthy, else `No` |
| Json.CellOrNA | htbcli/modules/platform.py:95-99 | a truthy field's own value, otherwise `N/A` |
| Json.YesNo | htbcli/modules/platform.py:435-437 | `Yes` exactly when the field is truthy, else `No` |
| PyStr.Find | fix_all_modules.py:63-66 | `find` gives -1 or an occurrence at or after the start, with no earlier occurrence |
| PyStr.FindFirstAt | fix_all_modules.py:65-66 | `find` gives the occurrence at `m` when no earlier character starts the pattern |
| PyStr.NotContainsByChar | fix_all_modules.py:49-58 | a pattern whose character at `j` occurs in the line only at `m` is absent unless it occurs at `m - j` |
| PyStr.ContainsIff | fix_all_modules.py:49-58 | `in` holds exactly when the substring occurs somewhere |
| PyStr.Lower | htbcli/modules/tracks.py:46 | `lower()` maps each character, keeping the length |
| PyStr.Upper | htbcli/modules/vpn.py:106 | `upper()` maps each character, keeping the length |
| PyStr.RemoveAll | htbcli/modules/vpn.py:102 | `replace(pat, '')` never lengthens the string |
| PyStr.Split | htbcli/completion_script.py:15 | `split(sep)` gives at least one field |
| PyStr.SplitFirst | htbcli/modules/vpn.py:102 | a separator-free field before the separator is the first field |
| PyStr.SplitAbsent | htbcli/modules/vpn.py:102 | a string without the separator splits into itself alone |
| PyStr.Strip | htbcli/completion_script.py:18 | `strip()` leaves no whitespace at either end |
| PyStr.StripMargins | htbcli/completion_script.py:18 | `strip()` is a slice of the line with only whitespace cut off before and after it |
| PyStr.StripEmptyIff | htbcli/completion_script.py:18 | a stripped line is empty exactly when it is all whitespace |
| PyStr.FirstToken | htbcli/completion_script.py:20-22 | `strip().split()[0]` has no whitespace and is non-empty for a line that is not blank |
| PyStr.StripChars | fix_all_modules.py:68 | `strip(chars)` leaves none of `chars` at either end |
| PyStr.IntToString | htbcli/modules/tracks.py:24 | `str(i)` is a sign or digit followed by digits, ending in a digit |
| PyStr.IntToStringRoundTrip | htbcli/modules/tracks.py:118 | `int(str(i))` is `i` |
| PyStr.DigitsParse | htbcli/modules/tracks.py:118 | `int()` reads a valid digit string as its value |
| PyStr.NegativeParse | htbcli/modules/tracks.py:118 | `int()` reads `-` and a valid digit string as the negated value |
| PyStr.SortStrings | analyze_endpoints.py:46 | `sorted()` gives an ordered permutation of its input |
| Swagger.MakeInfo | htbcli/swagger_parser.py:37-45 | path kept; method upper-cased; each present field copied |
| Swagger.MissingFieldsDefault | htbcli/swagger_parser.py:37-45 | missing fields default to `''`, `[]`, `None` and `{}` |
| Swagger.PathStep | htbcli/swagger_parser.py:33-46 | one more method adds its entry exactly when selected |
| Swagger.CollectPath | htbcli/swagger_parser.py:33-46 | the inner loop appends the selected operations of one path in method order |
| Swagger.GetEndpointsByTag | htbcli/swagger_parser.py:28-48 | the nested loops produce the by-tag list in path order, then method order |
| Swagger.EndpointsByTagConcat | htbcli/swagger_parser.py:32-46 | results follow path order |
| Swagger.PathEndpointsConcat | htbcli/swagger_parser.py:33-46 | results follow method order within a path |
| Swagger.SelectedIsListed | htbcli/swagger_parser.py:32-46 | every dict operation tagged with the tag is listed |
| Swagger.ListedIsSelected | htbcli/swagger_parser.py:32-46 | every listed entry comes from such an operation |
| Swagger.PathSource | htbcli/swagger_parser.py:33-46 | a listed entry of a path comes from a selected method of it |
| Swagger.UntaggedNeverListed | htbcli/swagger_parser.py:34-35 | a non-dict or untagged operation is never listed |
| Swagger.GetTags | htbcli/swagger_parser.py:24-26 | `tags`, or `[]` when absent |
| Swagger.GetAllEndpoints | htbcli/swagger_parser.py:50-58 | the loop maps each tag name to its endpoints, or raises `KeyError('name')` |
| Swagger.FailureStays | htbcli/swagger_parser.py:50-58 | once a tag lacks `name` the loop has raised |
| Swagger.AllEndpointsByName | htbcli/swagger_parser.py:50-58 | success exactly when every tag has a name; each key maps to its endpoints, a later duplicate overwriting |
| Swagger.ComponentSection | htbcli/swagger_parser.py:60-70 | the section, or `{}` when absent |
| Swagger.ComponentsDefaultEmpty | htbcli/swagger_parser.py:60-70 | with no components all three getters give `{}` |
| EndpointGroups.OccurrencesPositive | fix_all_modules.py:22 | a tag occurs in the list exactly when it is counted |
| EndpointGroups.RepeatEmpty | fix_all_modules.py:22-33 | repeating zero times adds nothing |
| EndpointGroups.FileUnderGroup | fix_all_modules.py:22-33 | filing one operation appends it once per occurrence of the tag; a key exists exactly when it did or is in the tags |
| EndpointGroups.FileUnderRepeats | fix_all_modules.py:22-33 | filing one operation appends it to a tag's group once per occurrence of the tag |
| EndpointGroups.FileUnderKeys | fix_all_modules.py:22-33 | after filing, a key exists exactly when it did before or is among the operation's tags |
| EndpointGroups.FileOpsGroup | fix_all_modules.py:20-33 | filing one path extends each group by that path's reference entries |
| EndpointGroups.FileOpsStep | fix_all_modules.py:20-33 | one more method files its operation after the earlier ones, in the loop and in the reference list alike |
| EndpointGroups.FilePathsGroup | fix_all_modules.py:19-33 | filing paths extends each group by the reference entries |
| EndpointGroups.FilePathsRepeats | fix_all_modules.py:19-33 | filing paths appends each tag's reference entries to its group |
| EndpointGroups.FilePathsKeys | fix_all_modules.py:19-33 | a key exists after filing exactly when it did before or the paths give it an entry |
| EndpointGroups.FilePathsStep | fix_all_modules.py:19 | one more path is filed after the others |
| EndpointGroups.GroupsMatchReference | fix_all_modules.py:15-35 | each group equals the reference list (an operation with the tag k times appears k times); a key exists exactly when its group is non-empty |
| EndpointGroups.OccurrencesDistinct | fix_all_modules.py:22 | with distinct tags each tag occurs once or not at all |
| EndpointGroups.TagOpsDistinct | fix_all_modules.py:20-33 | with distinct tags a path's grouping equals `get_endpoints_by_tag`'s filter |
| EndpointGroups.DistinctTagsAgree | fix_all_modules.py:15-35 | with distinct tags each group equals `get_endpoints_by_tag` |
| EndpointGroups.ReferenceDistinct | fix_all_modules.py:19-33 | the reference list equals the filter when tags are distinct |
| EndpointGroups.DuplicateTagFiledTwice | fix_all_modules.py:22-33 | a tag listed twice files the operation twice |
| EndpointGroups.TagOpsConcat | fix_all_modules.py:20 | method order within a path is kept |
| EndpointGroups.TagOpsStep | fix_all_modules.py:20-33 | one more method adds its operation once per occurrence of the tag |
| EndpointGroups.TagPathsConcat | fix_all_modules.py:19 | path order is kept |
| EndpointGroups.TagPathsMiddle | fix_all_modules.py:19 | one path in the middle contributes its own entries |
| EndpointGroups.TagOpsUntagged | fix_all_modules.py:21 | an untagged operation contributes nothing to its path |
| EndpointGroups.UntaggedAlone | fix_all_modules.py:21 | an untagged operation alone contributes nothing |
| EndpointGroups.UntaggedIgnored | fix_all_modules.py:21 | removing a non-dict or untagged operation leaves every group unchanged |
| EndpointGroups.FileEntry | fix_all_modules.py:22-33 | the tag loop files one operation and keeps the key order |
| EndpointGroups.FileEntries | fix_all_modules.py:20-33 | the method loop files one path and keeps the key order |
| EndpointGroups.ExtractEndpointsByTag | fix_all_modules.py:15-35 | the result equals the grouping, and the key order lists each key once |
| EndpointGroups.SortedGroups | analyze_endpoints.py:46-50 | the tags in sorted order, each with its group, a permutation of the keys |
| EndpointGroups.DistinctCount | analyze_endpoints.py:46 | a key without repeats occurs at most once |
| EndpointGroups.RepeatedCount | analyze_endpoints.py:46 | a repeated key occurs at least twice |
| EndpointGroups.SortedWalk | analyze_endpoints.py:46-50 | the walk visits every key exactly once, in sorted order |
| EndpointGroups.SortedCovers | analyze_endpoints.py:46-50 | the sorted walk visits exactly the keys of the grouping |
| EndpointGroups.SortedDistinct | analyze_endpoints.py:46-50 | no key is visited twice |
| EndpointGroups.SortedValues | analyze_endpoints.py:46-50 | each visited key carries its own group |
| ModuleAnalysis.MethodOfSpec | fix_all_modules.py:49-60 | a method is found exactly when one of the four calls is on the line, and its call is there; `GET` exactly when the get call is present |
| ModuleAnalysis.MethodOfChain | fix_all_modules.py:51-58 | the method is that of the source's `if`/`elif` chain over get, post, put and delete |
| ModuleAnalysis.FirstCallFound | fix_all_modules.py:51-58 | a method found is one of those tried and its call is on the line |
| ModuleAnalysis.ExtractPath | fix_all_modules.py:65-69 | an extracted path starts with `/` |
| ModuleAnalysis.ArgumentBetween | fix_all_modules.py:65-69 | the extracted path is the text between the first `(` from the call and the next `)`, stripped of whitespace and then quotes, when it starts with `/` |
| ModuleAnalysis.QuotedArgumentStripped | fix_all_modules.py:68 | a quoted path stripped of whitespace and then of quotes is the path |
| ModuleAnalysis.QuotedPathExtracted | fix_all_modules.py:65-69 | a call whose argument is a quoted path extracts exactly that path |
| ModuleAnalysis.OrChain | fix_all_modules.py:63 | the chain's value is `find('self.api.get(')` unless that is 0 |
| ModuleAnalysis.AsWrittenRecordsOnlyGet | fix_all_modules.py:49-74 | as written, only lines with a get call are recorded, as GET |
| ModuleAnalysis.PostOnlyLineSkipped | fix_all_modules.py:63-64 | as written, a line whose only call is post is skipped |
| ModuleAnalysis.PostOnlyLineRecorded | fix_all_modules.py:49-74 | corrected, such a line is recorded as POST when its path extracts |
| ModuleAnalysis.ScanLineSound | fix_all_modules.py:49-74 | a recorded entry has the line's method, and a path extracted from that call |
| ModuleAnalysis.AsWrittenAgreesOnGetLines | fix_all_modules.py:63 | the two scanners agree on lines whose get call is not at column 0 |
| ModuleAnalysis.AsWrittenFindsOnlyGet | fix_all_modules.py:46-74 | as written, every endpoint found is GET |
| ModuleAnalysis.ScanWithSound | fix_all_modules.py:49-74 | with either scanner, a recorded entry is rooted and carries the method of a call on the line |
| ModuleAnalysis.ScannedBounded | fix_all_modules.py:46-74 | with either scanner, at most one endpoint per line, each rooted and with a known method |
| ModuleAnalysis.ScannedOne | fix_all_modules.py:48-74 | a one-line file yields what its line yields |
| ModuleAnalysis.ScannedStep | fix_all_modules.py:48-74 | one more line appends the endpoint it yields, if any |
| ModuleAnalysis.FileAnalysisOf | fix_all_modules.py:37-76 | a missing file gives `{exists: False, endpoints: []}`; a present one exists, with the endpoints of the chosen scanner (`AsWritten` is the program's) |
| ModuleAnalysis.AnalyzeModuleFile | fix_all_modules.py:37-76 | the line loop computes the file's analysis with the chosen scanner |
| ModuleAnalysis.TagResultFor | fix_all_modules.py:118-137 | no mapping exactly when the tag is unmapped; no file exactly when the mapped file is missing; otherwise the missing and extra path sets against the chosen scanner's analysis |
| ModuleAnalysis.ComparedWith | fix_all_modules.py:123-137 | a mapped, present file is compared on the paths its analysis yields |
| ModuleAnalysis.CorrectIffSamePaths | fix_all_modules.py:133-151 | "all correct" exactly when the published and implemented path sets are equal |
| ModuleAnalysis.IssuesFor | fix_all_modules.py:118-149 | a tag contributes no issue exactly when it is all correct, and at most two |
| ModuleAnalysis.NoIssuesIff | fix_all_modules.py:157-163 | the summary is clean exactly when every tag is all correct |
| ModuleAnalysis.AnalyzeModules | fix_all_modules.py:114-149 | the sorted walk, with the tag-to-file table passed as `mapping` and the chosen scanner, computes each tag's result and collects the issues in order |
| ModuleAnalysis.ResultsOf | fix_all_modules.py:114-149 | one comparison per sorted group, with the chosen scanner |
| ModuleAnalysis.ResultsOfPointwise | fix_all_modules.py:114-149 | each group's result is the comparison of that group alone |
| ModuleAnalysis.ResultsOfStep | fix_all_modules.py:114 | one more group appends its comparison |
| ModuleAnalysis.IssuesOfStep | fix_all_modules.py:114-149 | one more group appends its tag's issues after the earlier ones |
| ModuleAnalysis.CompareTag | fix_all_modules.py:118-137 | the loop body for one tag computes that tag's result with the chosen scanner |
| ModuleAnalysis.AddGroup | fix_all_modules.py:114-149 | one iteration appends the group's result, with the chosen scanner, and its issues |
| ModuleAnalysis.CheckModules | fix_all_modules.py:78-149 | `main` as written: the document grouped by tag, walked in sorted tag order, each group checked with its own tag-to-file table and the program's scanner (line 63) |
| ModuleAnalysis.CheckModulesCorrected | fix_all_modules.py:78-149 | `main` with the corrected scanner, over the same sorted grouping |
| ModuleAnalysis.PostOnlyModuleMisreported | fix_all_modules.py:63-137 | a one-line module whose only call posts to the tag's only published path: as written that path is reported missing; corrected, the tag is all correct |
| ModuleAnalysis.ChallengeOwnLineIsPostOnly | fix_all_modules.py:49-69 | `        return self.api.post("/challenge/own")` is one line with a post call, no get call, and the path `/challenge/own` after the post call |
| ModuleAnalysis.ChallengeOwnMisreported | fix_all_modules.py:63-137 | that line as all of `challenges.py`, against the published path `/challenge/own`: as written `main` reports the path missing; corrected, the Challenges tag is all correct |
| ModuleAnalysis.PostOnlyFileScanned | fix_all_modules.py:46-74 | such a file yields no endpoint as written and one POST when corrected |
| ModuleAnalysis.SkippedPostMisreported | fix_all_modules.py:123-137 | a file missed as written and found when corrected gives opposite verdicts for its tag |
| ModuleAnalysis.UnmappedTagNotAnalysed | fix_all_modules.py:118-122 | an unmapped tag is not analysed and records one issue |
| Config.AuthHeaders | htbcli/config.py:31-41 | fails with `ValueError` exactly when the token is missing or empty; otherwise exactly four headers, `Authorization` being `Bearer <token>` |
| Config.BearerTokenRecoverable | htbcli/config.py:37 | the token reads back from the Authorization header |
| Config.AuthHeadersInjective | htbcli/config.py:37 | distinct tokens give distinct Authorization headers |
| Config.DefaultPageSizeWithinMax | htbcli/config.py:23-24 | the default page size is positive and within the maximum |

## Left out

- HTTP execution (`htbcli/api_client.py`) is not part of this model. Requests are descriptors only, and API responses are inputs. The client reads a `Config.BASE_URL` that `htbcli/config.py` does not define.
- Machines.SubmitMachineFlag: the source builds the client with `version="v5"`, which the client's constructor does not accept. The member states the request that would be sent; v5 routing is not modelled.
- Vpn.DownloadAllVpns: `get_binary` does not exist on the client, so each download's outcome is the input `fetch`. A failed second download after a written first file, and the console messages, are not modelled. A server `id` that is not an integer is not represented, and a `friendly_name` or `location` that is a list or dict is written into file names as Json.Format renders it.
- The filesystem, glob, `mkdir`, file writes, OpenVPN, `sudo`, `pgrep` and `kill` are represented by parameters or left out. So are `stop_vpn`, the connection status request and the server switch.
- The completion-script subprocess is the parameter `run`, and the bash and zsh script bodies are constant text that is not modelled.
- YAML and file loading, and report writing, are replaced by parameters. This covers `SwaggerParser.__init__`, the `load_swagger_file` functions and the `analyze_endpoints.py` printing.
- `rich` tables, panels and console output, Click wiring and `htbcli/cli.py` are not modelled. They are presentation and glue.
- The fixed-path wrapper modules (users, teams, rankings, …) and the regex source rewriters are not part of this model.
- PyStr.Lower / PyStr.Upper: ASCII letters only. Python's Unicode case mapping is not modelled.
- PyStr.ParseInt: ASCII digits (with single underscores between them), an optional sign and surrounding whitespace. Non-ASCII digits accepted by Python's `int()` are not modelled.
- Json.Format: `str()` of a container is rendered as the empty string. Only integers, strings, booleans and null are rendered as Python does.
- `Json` values compare structurally, so Python's `1 == True` equality is not modelled.
- Swagger.GetAllEndpoints: a tag whose `name` is not a string is treated like a missing name (a `KeyError` failure), and a non-list `tags` value is not represented.
- EndpointGroups.ExtractEndpointsByTag: only operations whose `tags` is a list of strings are represented.
- Platform.SelectFields: `stats` is taken as a dict. A non-dict `data` value is not modelled.
- Platform.Search: a table is its category and its rows; titles, column headers and styles are not modelled. A truthy description that is a list or dict counts as raising, because `rich` tables refuse a cell that is not a string or renderable.
- Tracks.OfType: items are taken as dicts. An item that is not a dict, on which `item.get` raises, is not represented.
- Vpn.InDir: the directory and the name are joined with one `/`. Path normalisation by `pathlib` is not modelled: an absolute name replacing the directory, repeated or trailing slashes, `.` parts.
- ModuleAnalysis.AnalyzeModuleFile: the constant `summary` ('Implemented in code') of each entry is not kept, because the comparison reads only paths. An extracted path keeps its trailing call arguments up to the first `)`, as the source does.
- ModuleAnalysis.AnalyzeModules: the mapping lists `Connection` though `connection.py` is only a fixed-path wrapper. Printing and the saved report are not modelled.
- Challenges.ParseDifficulty: the accepted values follow the code's `click.Choice` (`Easy`, `Medium`, `Hard`, `Insane`). The completion choice list at htbcli/completion.py:92 (and htbcli/completion_script.py:108) is lower-case `very-easy`…`insane`, so completed values are refused.
- Config.DefaultPageSizeWithinMax: nothing enforces the maximum page size on caller-supplied `per_page`, which the builders pass through unchanged.
- Python dict key order is modelled only where the source depends on it: server maps, path items and group keys. Request parameter and body maps are unordered.

## Findings

| source | as written | input that shows it | evidently intended | confidence | as-written member | corrected member |
|---|---|---|---|---|---|---|
| fix_all_modules.py:63 | `start = line.find('self.api.get(') or line.find('self.api.post(') or …`: `find` returns -1 when absent, and -1 is truthy, so the chain stops at the get lookup | `        return self.api.post("/challenge/own")`: `start` is -1 and the line is skipped | start at the call the method was read from, so post, put and delete lines are recorded | not executed | ModuleAnalysis.ChallengeOwnMisreported | ModuleAnalysis.CheckModulesCorrected |
| htbcli/modules/vpn.py:154 | `process.returncode == 0` read straight after `subprocess.Popen`, when no exit status exists yet (`None`) | any existing file with OpenVPN installed: `start_vpn` still returns `False` | report success when the launcher exits with status 0 | not executed | Vpn.StartVpnAsWritten | Vpn.StartVpn |
