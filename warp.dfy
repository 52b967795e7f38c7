/** Top-level routing of the `warp` command line (warp.go): what is shown
    for a usage error, for the `help` command and for `-v`/`-version`. */
module Warp {
  import opened Wrappers
  import opened Text

  const AppName := "Warp"
  const AppVersion := "v0.0.31"
  const HelpName := "warp"
  const HelpRequested := "flag: help requested"

  /** What the command line does, in the order it does it. */
  datatype Effect =
    | PrintText(text: string)           // fmt.Printf / fmt.Println
    | ShowAppHelp(exitCode: int)        // cli.ShowAppHelpAndExit
    | ShowCommandHelp(command: string)  // cli.ShowCommandHelp
    | PrintVersion                      // version(ctx): name, version, GOOS_GOARCH

  /** printRuntimeErr: "warp: <command>: <message>". */
  function RuntimeError(cmd: string, msg: string): (r: Effect)
    ensures r.PrintText?
    ensures |r.text| == |HelpName| + |cmd| + |msg| + 5 && r.text[|r.text| - 1] == '\n'
    ensures r.text[..|HelpName| + 2] == HelpName + ": "
    ensures OccursAt(r.text, cmd, |HelpName| + 2)
    ensures r.text[|HelpName| + |cmd| + 2..|HelpName| + |cmd| + 4] == ": "
    ensures OccursAt(r.text, msg, |HelpName| + |cmd| + 4)
  {
    PrintText(HelpName + ": " + cmd + ": " + msg + "\n")
  }

  /** The two closures handed to printErrWithCallback. */
  datatype Callback =
    | CommandHelpCallback(command: string)  // printErrWithCmdHelp
    | AppHelpCallback                       // printErrWithHelp

  function CallbackEffects(cb: Callback): (r: seq<Effect>)
    ensures |r| == 1
    ensures cb.CommandHelpCallback? ==> r[0] == ShowCommandHelp(cb.command)
    ensures cb.AppHelpCallback? ==> r[0] == ShowAppHelp(1)
  {
    match cb
    case CommandHelpCallback(c) => [ShowCommandHelp(c)]
    case AppHelpCallback => [ShowAppHelp(1)]
  }

  /** help(ctx): app help for no argument or "help", else that command's help.
      `arg` is ctx.Args().First(). */
  function Help(arg: string): (r: seq<Effect>)
    ensures ShowAppHelp(0) in r <==> arg == "" || arg == "help"
    ensures arg == "" || arg == "help" ==>
      |r| == 2 && r[0] == PrintText(AppName + " " + AppVersion + "\n") && r[1] == ShowAppHelp(0)
    ensures ShowAppHelp(0) !in r ==> r == [ShowCommandHelp(arg)]
    ensures PrintVersion !in r
  {
    if arg == "" || arg == "help" then
      [PrintText(AppName + " " + AppVersion + "\n"), ShowAppHelp(0)]
    else
      [ShowCommandHelp(arg)]
  }

  /** "-version" contains "-v", so the second test of the version route
      decides on its own. */
  lemma VersionTestIsDashV(s: string)
    ensures (Contains(s, "-version") || Contains(s, "-v")) <==> Contains(s, "-v")
  {
    if Contains(s, "-version") {
      ContainsPrefix(s, "-version", 2);
      assert "-version"[..2] == "-v";
    }
  }

  /** The message is one the version route swallows. */
  predicate IsVersionMessage(estr: string)
  {
    Contains(estr, "-version") || Contains(estr, "-v")
  }

  /** printErrWithCallback: nothing for a nil error; the help route for
      "flag: help requested" (any case); the version route for any message
      mentioning "-v"; otherwise the message is printed once and the
      callback runs once. */
  function PrintErrWithCallback(arg: string, err: Option<string>, cb: Callback): (r: seq<Effect>)
    ensures r == [] <==> err.None?
    ensures err.Some? && ToLower(err.value) == HelpRequested ==> r == Help(arg)
    ensures r == [PrintVersion] <==>
      err.Some? && ToLower(err.value) != HelpRequested && Contains(ToLower(err.value), "-v")
  {
    match err
    case None => []
    case Some(msg) =>
      var estr := ToLower(msg);
      if estr == HelpRequested then Help(arg)
      else if IsVersionMessage(estr) then
        VersionTestIsDashV(estr);
        [PrintVersion]
      else
        VersionTestIsDashV(estr);
        [PrintText(HelpName + ": " + msg + "\n\n")] + CallbackEffects(cb)
  }

  function PrintErrWithCmdHelp(arg: string, cmdName: string, err: Option<string>): seq<Effect>
  {
    PrintErrWithCallback(arg, err, CommandHelpCallback(cmdName))
  }

  function PrintErrWithHelp(arg: string, err: Option<string>): seq<Effect>
  {
    PrintErrWithCallback(arg, err, AppHelpCallback)
  }

  /** usageErrorCallback: the command's help inside a subcommand, the app
      help (exit status 1) at the root. */
  function UsageErrorCallback(arg: string, cmdName: string, err: Option<string>): (r: seq<Effect>)
    ensures r == [] <==> err.None?
    ensures cmdName != "" ==> ShowAppHelp(1) !in r
    ensures cmdName == "" ==> forall c :: ShowCommandHelp(c) in r ==> err.Some? && ToLower(err.value) == HelpRequested
  {
    if cmdName != "" then PrintErrWithCmdHelp(arg, cmdName, err) else PrintErrWithHelp(arg, err)
  }

  /** An error that is neither a help request nor a version flag is printed
      once, followed by exactly one help screen: the command's own help when
      there is a command name, the app help otherwise. */
  lemma UsageErrorHelpScreen(arg: string, cmdName: string, msg: string)
    requires ToLower(msg) != HelpRequested && !Contains(ToLower(msg), "-v")
    ensures var r := UsageErrorCallback(arg, cmdName, Some(msg));
      && |r| == 2
      && r[0] == PrintText(HelpName + ": " + msg + "\n\n")
      && (cmdName != "" <==> r[1] == ShowCommandHelp(cmdName))
      && (cmdName == "" <==> r[1] == ShowAppHelp(1))
  {
    VersionTestIsDashV(ToLower(msg));
  }

  /** The help route is chosen whatever the letter case of the message. */
  lemma HelpRequestAnyCase(arg: string, msg: string, cb: Callback)
    requires ToLower(msg) == HelpRequested
    ensures PrintErrWithCallback(arg, Some(msg), cb) == Help(arg)
  {
  }

  /** For instance "Flag: Help Requested" goes to help. */
  lemma HelpRequestCapitalised(arg: string, cb: Callback)
    ensures PrintErrWithCallback(arg, Some("Flag: Help Requested"), cb) == Help(arg)
  {
    assert ToLower("Flag: Help Requested") == HelpRequested;
    HelpRequestAnyCase(arg, "Flag: Help Requested", cb);
  }

  /** Any usage error that mentions a flag starting with "-v" shows the
      version instead of the error, e.g. an unknown "-verbose" flag. */
  lemma UnknownDashVFlagShowsVersion(arg: string, cb: Callback)
    ensures PrintErrWithCallback(arg, Some("flag provided but not defined: -verbose"), cb)
         == [PrintVersion]
  {
    var msg := "flag provided but not defined: -verbose";
    var estr := ToLower(msg);
    assert |estr| != |HelpRequested|;
    assert estr[31] == LowerChar(msg[31]) == '-' && estr[32] == LowerChar(msg[32]) == 'v';
    assert estr[31..33] == "-v";
    assert OccursAt(estr, "-v", 31);
  }
}
