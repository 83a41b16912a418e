/**
 * The completion-script generator (`htbcli/completion_script.py`): the
 * scraper that turns `htbcli --help` text into command names, and the
 * dispatch of `main` on the requested shell.
 */
module CompletionScript {
  import opened Wrappers
  import opened PyStr

  /** What `subprocess.run` gives back: an exception, or the exit status and captured stdout. */
  datatype RunResult = Raised | Completed(returncode: int, stdout: string)

  /** The program run for a command's help text. */
  function HelpArgv(command: Option<string>): seq<string> {
    match command
    case None => ["htbcli", "--help"]
    case Some(c) => ["htbcli", c, "--help"]
  }

  /** A line that is examined: not blank, and (unstripped) not a `Usage:` or `Options:` header. */
  predicate Accepted(line: string) {
    Strip(line) != [] && !StartsWith(line, "Usage:") && !StartsWith(line, "Options:")
  }

  /** The command a line contributes: its first token, unless that starts with `-`. */
  function LineCommand(line: string): Option<string> {
    if Accepted(line) && !StartsWith(FirstToken(line), "-") then Some(FirstToken(line)) else None
  }

  /** The commands collected from `lines`, in line order (defined from the last line). */
  function CommandsOf(lines: seq<string>): seq<string> {
    if lines == [] then []
    else CommandsOf(lines[..|lines| - 1]) + match LineCommand(lines[|lines| - 1])
                                           case None => []
                                           case Some(c) => [c]
  }

  /** `[cmd for cmd in commands if cmd and not cmd.startswith('-')]` */
  function KeepCommands(xs: seq<string>): (r: seq<string>)
    ensures forall c :: c in r <==> c in xs && c != [] && !StartsWith(c, "-")
  {
    if xs == [] then []
    else if xs[0] != [] && !StartsWith(xs[0], "-") then [xs[0]] + KeepCommands(xs[1..])
    else KeepCommands(xs[1..])
  }

  /**
   * The body shared by `get_htbcli_commands` and `get_htbcli_subcommands`:
   * a failed or non-zero run gives no commands; otherwise every line of the
   * output is examined in turn and the final comprehension filter applied.
   */
  method ScrapeHelp(run: RunResult) returns (commands: seq<string>)
    ensures (run.Raised? || run.returncode != 0) ==> commands == []
    ensures run.Completed? && run.returncode == 0 ==> commands == CommandsOf(Split(run.stdout, '\n'))
  {
    commands := [];
    if run.Completed? && run.returncode == 0 {
      var lines := Split(run.stdout, '\n');
      var i := 0;
      while i < |lines|
        invariant 0 <= i <= |lines|
        invariant commands == CommandsOf(lines[..i])
      {
        var line := lines[i];
        CommandsStep(lines, i);
        if Strip(line) != [] && !StartsWith(line, "Usage:") && !StartsWith(line, "Options:") {
          var first := FirstToken(line);
          if !StartsWith(first, "-") {
            assert LineCommand(line) == Some(first);
            commands := commands + [first];
          } else {
            assert LineCommand(line) == None;
          }
        } else {
          assert LineCommand(line) == None;
        }
        i := i + 1;
      }
      assert lines[..i] == lines;
      FinalFilterKeepsAll(lines);
      commands := KeepCommands(commands);
    }
  }

  /** One more line adds what that line contributes. */
  lemma CommandsStep(lines: seq<string>, i: nat)
    requires i < |lines|
    ensures CommandsOf(lines[..i + 1]) == CommandsOf(lines[..i]) + match LineCommand(lines[i])
                                                                  case None => []
                                                                  case Some(c) => [c]
  {
    assert lines[..i + 1][..i] == lines[..i];
  }

  /** `get_htbcli_commands()`, with the subprocess as the function `run` from argv to its result. */
  method GetHtbcliCommands(run: seq<string> -> RunResult) returns (commands: seq<string>)
    ensures var res := run(["htbcli", "--help"]);
            commands == if res.Completed? && res.returncode == 0 then CommandsOf(Split(res.stdout, '\n')) else []
  {
    commands := ScrapeHelp(run(HelpArgv(None)));
  }

  /** `get_htbcli_subcommands(command)`: the same scraping applied to `htbcli <command> --help`. */
  method GetHtbcliSubcommands(command: string, run: seq<string> -> RunResult) returns (subcommands: seq<string>)
    ensures var res := run(["htbcli", command, "--help"]);
            subcommands == if res.Completed? && res.returncode == 0 then CommandsOf(Split(res.stdout, '\n')) else []
  {
    subcommands := ScrapeHelp(run(HelpArgv(Some(command))));
  }

  // ---------------------------------------------------------------- what the scraper promises

  /** Every collected command is a non-empty whitespace-free token that does not start with `-`. */
  lemma {:induction false} CommandsAreTokens(lines: seq<string>)
    ensures forall c :: c in CommandsOf(lines) ==>
      c != [] && !StartsWith(c, "-") && forall ch :: ch in c ==> !IsSpace(ch)
  {
    if lines != [] {
      CommandsAreTokens(lines[..|lines| - 1]);
    }
  }

  /** ... so the final comprehension filter removes nothing. */
  lemma FinalFilterKeepsAll(lines: seq<string>)
    ensures KeepCommands(CommandsOf(lines)) == CommandsOf(lines)
  {
    CommandsAreTokens(lines);
    KeepAllValid(CommandsOf(lines));
  }

  lemma {:induction false} KeepAllValid(xs: seq<string>)
    requires forall c :: c in xs ==> c != [] && !StartsWith(c, "-")
    ensures KeepCommands(xs) == xs
  {
    if xs != [] {
      assert xs[0] in xs;
      assert forall c :: c in xs[1..] ==> c in xs;
      KeepAllValid(xs[1..]);
    }
  }

  /**
   * Lines are independent: the commands of two blocks of text are those of
   * the first followed by those of the second, so order follows the lines and
   * duplicates are kept.
   */
  lemma {:induction false} CommandsOfConcat(a: seq<string>, b: seq<string>)
    ensures CommandsOf(a + b) == CommandsOf(a) + CommandsOf(b)
    decreases |b|
  {
    if b == [] {
      assert a + b == a;
    } else {
      var b' := b[..|b| - 1];
      assert (a + b)[..|a + b| - 1] == a + b';
      assert (a + b)[|a + b| - 1] == b[|b| - 1];
      CommandsOfConcat(a, b');
    }
  }

  /** A single line contributes exactly its first token when it is accepted and the token has no leading dash, and nothing otherwise. */
  lemma OneLine(line: string)
    ensures CommandsOf([line]) == if Accepted(line) && !StartsWith(FirstToken(line), "-") then [FirstToken(line)] else []
  {
    assert [line][..0] == [];
  }

  /** A line that is blank, or begins with `Usage:` or `Options:`, contributes nothing wherever it appears. */
  lemma RejectedLineIgnored(a: seq<string>, line: string, b: seq<string>)
    requires !Accepted(line)
    ensures CommandsOf(a + [line] + b) == CommandsOf(a) + CommandsOf(b)
  {
    CommandsOfConcat(a + [line], b);
    CommandsOfConcat(a, [line]);
    OneLine(line);
  }

  /** At most one command per line. */
  lemma {:induction false} AtMostOnePerLine(lines: seq<string>)
    ensures |CommandsOf(lines)| <= |lines|
  {
    if lines != [] {
      AtMostOnePerLine(lines[..|lines| - 1]);
    }
  }

  // ---------------------------------------------------------------- main

  /** What `main` prints: a literal line, or one of the two generated scripts. */
  datatype Printed = Text(line: string) | BashScript | ZshScript

  datatype MainOutcome = MainOutcome(printed: seq<Printed>, exitStatus: int)

  const UsageLine := "Usage: python completion_script.py [bash|zsh]"

  /** `main()`, on `sys.argv` (the program name first). */
  function Main(argv: seq<string>): (r: MainOutcome)
    ensures r.exitStatus == 0 || r.exitStatus == 1
  {
    if |argv| < 2 then MainOutcome([Text(UsageLine)], 1)
    else
      var shell := Lower(argv[1]);
      if shell == "bash" then MainOutcome([BashScript], 0)
      else if shell == "zsh" then MainOutcome([ZshScript], 0)
      else MainOutcome([Text("Unsupported shell: " + shell), Text("Supported shells: bash, zsh")], 1)
  }

  /** `main` succeeds exactly when a shell argument is given that lower-cases to `bash` or `zsh`. */
  lemma MainSucceedsIff(argv: seq<string>)
    ensures Main(argv).exitStatus == 0 <==> |argv| >= 2 && (Lower(argv[1]) == "bash" || Lower(argv[1]) == "zsh")
  {
  }

  /** On success exactly one script is printed, the one named; on failure no script is printed. */
  lemma MainPrintsOneScript(argv: seq<string>)
    ensures var r := Main(argv);
            (r.exitStatus == 0 ==> |r.printed| == 1 && (r.printed[0] == BashScript <==> Lower(argv[1]) == "bash"))
            && (r.exitStatus == 1 ==> BashScript !in r.printed && ZshScript !in r.printed)
  {
  }

  /** The shell name is case-insensitive: `BASH` selects the bash script. */
  lemma UpperCaseShellAccepted()
    ensures Main(["completion_script.py", "BASH"]) == MainOutcome([BashScript], 0)
  {
    assert Lower("BASH") == "bash";
  }
}
