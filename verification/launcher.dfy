/**
 * Process Launcher: OpenLiveBrowser builds the CreateProcess command line
 * from the located browser path, the remote-debugging flag, the
 * application-support directory and the URL, then starts the process.
 */
module Launcher {
  import opened Wrappers
  import opened CStrings
  import opened ErrorCodes
  import opened Locator

  const ProfileDirName: string := "\\live-dev-profile"
  const UserDataDirFlag: string := " --user-data-dir=\""
  /** Closes the quoted profile path, then the fixed flags and the debugging port. */
  const DebugFlags: string :=
    "\" --no-first-run --no-default-browser-check --allow-file-access-from-files --remote-debugging-port=9222 "
  /** The part of DebugFlags before the port flag. */
  const FixedFlags: string := "\" --no-first-run --no-default-browser-check --allow-file-access-from-files "
  /** The port flag with the space that separates it from the URL. */
  const PortFlag: string := "--remote-debugging-port=9222 "

  /** The text between the executable path and the URL. */
  function ArgsMiddle(enableRemoteDebugging: bool, appSupportDirectory: string): string {
    if enableRemoteDebugging then
      UserDataDirFlag + (appSupportDirectory + ProfileDirName) + DebugFlags
    else
      " "
  }

  /**
   * The command line for the browser at `appPath`: the executable path
   * first, the URL last.
   */
  function BuildCommandLine(appPath: string, enableRemoteDebugging: bool,
                            appSupportDirectory: string, url: string): (args: string)
    ensures |args| >= |appPath| + |url| + 1
    ensures args[..|appPath|] == appPath
    ensures args[|args| - |url|..] == url
  {
    var middle := ArgsMiddle(enableRemoteDebugging, appSupportDirectory);
    assert (appPath + middle + url)[..|appPath|] == appPath;
    assert (appPath + middle + url)[|appPath + middle|..] == url;
    appPath + middle + url
  }

  /**
   * Inverse of BuildCommandLine: recovers the URL from a command line, given
   * the other three inputs, or None when the command line was not built
   * from them.
   */
  function UrlOf(args: string, appPath: string, enableRemoteDebugging: bool,
                 appSupportDirectory: string): (url: Option<string>)
    ensures url.Some? ==>
      BuildCommandLine(appPath, enableRemoteDebugging, appSupportDirectory, url.value) == args
  {
    var head := appPath + ArgsMiddle(enableRemoteDebugging, appSupportDirectory);
    if head <= args then
      assert head + args[|head|..] == args;
      Some(args[|head|..])
    else None
  }

  /** Building then parsing gives back the URL: distinct URLs give distinct command lines. */
  lemma UrlRoundTrip(appPath: string, enableRemoteDebugging: bool,
                     appSupportDirectory: string, url: string)
    ensures UrlOf(BuildCommandLine(appPath, enableRemoteDebugging, appSupportDirectory, url),
                  appPath, enableRemoteDebugging, appSupportDirectory) == Some(url)
  {
  }

  /** Without remote debugging the command line is path, one space, URL; the directory is unused. */
  lemma PlainLaunchIgnoresDirectory(appPath: string, dir1: string, dir2: string, url: string)
    ensures BuildCommandLine(appPath, false, dir1, url) == appPath + " " + url
    ensures BuildCommandLine(appPath, false, dir1, url) == BuildCommandLine(appPath, false, dir2, url)
  {
  }

  /**
   * With remote debugging, the command line is, character for character, the
   * path, the quoted isolated profile `<dir>\live-dev-profile`, the three
   * fixed flags, the debugging port flag and the URL. The profile and the
   * port flag sit at fixed offsets.
   */
  lemma DebugLaunchLayout(appPath: string, dir: string, url: string)
    ensures BuildCommandLine(appPath, true, dir, url) ==
      appPath + " --user-data-dir=\"" + dir + "\\live-dev-profile"
      + "\" --no-first-run --no-default-browser-check --allow-file-access-from-files --remote-debugging-port=9222 "
      + url
    ensures BuildCommandLine(appPath, true, dir, url)
              [|appPath| + |UserDataDirFlag|..|appPath| + |UserDataDirFlag| + |dir + ProfileDirName|]
            == dir + ProfileDirName
    ensures BuildCommandLine(appPath, true, dir, url)
              [|appPath| + |UserDataDirFlag| + |dir + ProfileDirName| + |FixedFlags|..
               |appPath| + |UserDataDirFlag| + |dir + ProfileDirName| + |DebugFlags|]
            == PortFlag
  {
    var profile := dir + ProfileDirName;
    DebugFlagsSplit();
    assert BuildCommandLine(appPath, true, dir, url)
           == appPath + (UserDataDirFlag + profile + (FixedFlags + PortFlag)) + url;
    SixPieces(appPath, UserDataDirFlag, profile, FixedFlags, PortFlag, url);
    Regroup(appPath, UserDataDirFlag, dir, ProfileDirName, DebugFlags, url);
  }

  /** DebugFlags is the fixed flags followed by the port flag; none of them holds a NUL. */
  lemma DebugFlagsSplit()
    ensures FixedFlags + PortFlag == DebugFlags
    ensures Nul !in FixedFlags && Nul !in PortFlag && Nul !in DebugFlags
  {
    FlagsConcat();
    FixedFlagsPieces();
    FirstTwoFlags();
    FlagPiecesHaveNoNul();
    NoNulInConcat("\" --no-first-run", " --no-default-browser-check");
    NoNulInConcat("\" --no-first-run --no-default-browser-check", " --allow-file-access-from-files ");
    NoNulInConcat(FixedFlags, PortFlag);
  }

  lemma FlagsConcat()
    ensures FixedFlags + PortFlag == DebugFlags
  {
  }

  lemma NoNulInConcat(x: string, y: string)
    requires Nul !in x && Nul !in y
    ensures Nul !in x + y
  {
  }

  lemma FixedFlagsPieces()
    ensures FixedFlags == "\" --no-first-run --no-default-browser-check" + " --allow-file-access-from-files "
  {
  }

  lemma FirstTwoFlags()
    ensures "\" --no-first-run --no-default-browser-check" == "\" --no-first-run" + " --no-default-browser-check"
  {
  }

  lemma FlagPiecesHaveNoNul()
    ensures Nul !in "\" --no-first-run" && Nul !in " --no-default-browser-check"
    ensures Nul !in " --allow-file-access-from-files " && Nul !in PortFlag
  {
  }

  /** Where each piece of a six-part concatenation lies. */
  lemma SixPieces(a: string, b: string, c: string, d: string, e: string, f: string)
    ensures a + (b + c + (d + e)) + f == a + b + c + d + e + f
    ensures var s := a + b + c + d + e + f;
      && s[|a| + |b|..|a| + |b| + |c|] == c
      && s[|a| + |b| + |c| + |d|..|a| + |b| + |c| + |d| + |e|] == e
  {
    var s := a + b + c + d + e + f;
    assert a + (b + c + (d + e)) + f == s;
    assert s == (a + b) + c + (d + e + f);
    assert s == (a + b + c + d) + e + f;
  }

  /** Concatenation is associative: the grouping of the builder does not matter. */
  lemma Regroup(a: string, b: string, c: string, d: string, e: string, f: string)
    ensures a + (b + (c + d) + e) + f == a + b + c + d + e + f
  {
  }

  /** What CreateProcess reports: the process started, or it failed with GetLastError(). */
  datatype CreateProcessOutcome = Started | Failed(lastError: int)

  /**
   * The command line as CreateProcess receives it: `wcscpy` into the mutable
   * buffer stops at the first NUL.
   */
  function LaunchCommandLine(env: LocatorEnv, enableRemoteDebugging: bool,
                             appSupportDirectory: string, url: string): (cmd: string)
    ensures Nul !in cmd
    ensures cmd <= BuildCommandLine(GetPathToLiveBrowser(env), enableRemoteDebugging, appSupportDirectory, url)
    ensures Nul !in appSupportDirectory && Nul !in url ==>
      cmd == BuildCommandLine(GetPathToLiveBrowser(env), enableRemoteDebugging, appSupportDirectory, url)
  {
    var path := GetPathToLiveBrowser(env);
    CommandLineHasNoNul(path, enableRemoteDebugging, appSupportDirectory, url);
    CStr(BuildCommandLine(path, enableRemoteDebugging, appSupportDirectory, url))
  }

  /** A command line built from NUL-free parts contains no NUL. */
  lemma CommandLineHasNoNul(appPath: string, enableRemoteDebugging: bool,
                            appSupportDirectory: string, url: string)
    ensures Nul !in appPath && Nul !in appSupportDirectory && Nul !in url ==>
      Nul !in BuildCommandLine(appPath, enableRemoteDebugging, appSupportDirectory, url)
  {
    if Nul !in appSupportDirectory {
      MiddleHasNoNul(enableRemoteDebugging, appSupportDirectory);
    }
    assert BuildCommandLine(appPath, enableRemoteDebugging, appSupportDirectory, url)
           == appPath + ArgsMiddle(enableRemoteDebugging, appSupportDirectory) + url;
  }

  lemma MiddleHasNoNul(enableRemoteDebugging: bool, appSupportDirectory: string)
    requires Nul !in appSupportDirectory
    ensures Nul !in ArgsMiddle(enableRemoteDebugging, appSupportDirectory)
  {
    assert Nul !in UserDataDirFlag;
    assert Nul !in ProfileDirName;
    DebugFlagsSplit();
  }

  /**
   * OpenLiveBrowser. `createProcess` is the OS: it receives the command
   * line and reports whether the process started. The result is NoError
   * on a start, otherwise GetLastError() mapped with the default reading
   * sense.
   */
  function OpenLiveBrowser(env: LocatorEnv, createProcess: string -> CreateProcessOutcome,
                           url: string, enableRemoteDebugging: bool,
                           appSupportDirectory: string): (code: int)
    ensures code in MappedCodes
    ensures createProcess(LaunchCommandLine(env, enableRemoteDebugging, appSupportDirectory, url)).Started? ==>
      code == NoError
    ensures (createProcess(LaunchCommandLine(env, enableRemoteDebugging, appSupportDirectory, url))
             == Failed(ErrorAccessDenied)) ==> code == ErrCantRead
    ensures var outcome := createProcess(LaunchCommandLine(env, enableRemoteDebugging, appSupportDirectory, url));
      outcome.Failed? ==> code == ConvertWinErrorCode(outcome.lastError)
    ensures (createProcess(LaunchCommandLine(env, enableRemoteDebugging, appSupportDirectory, url))
             in {Failed(ErrorFileNotFound), Failed(ErrorPathNotFound)}) ==> code == ErrNotFound
    ensures code == NoError <==>
      createProcess(LaunchCommandLine(env, enableRemoteDebugging, appSupportDirectory, url))
      in {Started, Failed(NoError)}
  {
    match createProcess(LaunchCommandLine(env, enableRemoteDebugging, appSupportDirectory, url))
    case Started => NoError
    case Failed(lastError) => ConvertWinErrorCode(lastError)
  }
}
