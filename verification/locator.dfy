/**
 * Executable Locator: where the native code expects Chrome to be installed.
 * The registry and the shell-folder query are inputs (`LocatorEnv`).
 */
module Locator {
  import opened Wrappers
  import opened CStrings

  /**
   * State of the registry key
   * HKLM\SOFTWARE\Microsoft\Windows\CurrentVersion\App Paths\chrome.exe.
   * `KeyOpened(None)` is a key that opens but whose default value cannot be
   * read into the buffer.
   */
  datatype AppPathsKey = KeyMissing | KeyOpened(defaultValue: Option<string>)

  /**
   * What the locator reads from the OS: the App Paths key, and the
   * current user's local application-data folder (`None` when
   * SHGetFolderPath fails and leaves its buffer zero-filled).
   */
  datatype LocatorEnv = LocatorEnv(appPathsKey: AppPathsKey, localAppData: Option<string>)

  /** Appended to the local application-data folder in the per-user fallback. */
  const ChromeUnderLocalAppData: string := "\\Google\\Chrome\\Application\\chrome.exe"

  /** A zero-initialised wide buffer that an OS call may or may not have filled. */
  function BufferString(filled: Option<string>): string {
    CStr(filled.GetOr(""))
  }

  /**
   * GetPathToLiveBrowser. The App Paths value wins whenever the key opens,
   * even when its value cannot be read; only a missing key selects the
   * per-user install location. The lookup never fails.
   */
  function GetPathToLiveBrowser(env: LocatorEnv): (path: string)
    ensures env.appPathsKey.KeyOpened? && env.appPathsKey.defaultValue.Some? ==>
      var value := env.appPathsKey.defaultValue.value;
      path <= value && (|path| < |value| ==> value[|path|] == Nul)
    ensures env.appPathsKey.KeyOpened? && env.appPathsKey.defaultValue.None? ==> path == ""
    ensures env.appPathsKey.KeyMissing? ==>
      |path| >= |ChromeUnderLocalAppData| &&
      path[|path| - |ChromeUnderLocalAppData|..] == ChromeUnderLocalAppData &&
      var folder := env.localAppData.GetOr("");
      var prefix := path[..|path| - |ChromeUnderLocalAppData|];
      prefix <= folder && (|prefix| < |folder| ==> folder[|prefix|] == Nul)
    ensures Nul !in path
  {
    match env.appPathsKey
    case KeyOpened(value) => BufferString(value)
    case KeyMissing =>
      var appPath := BufferString(env.localAppData);
      assert (appPath + ChromeUnderLocalAppData)[..|appPath|] == appPath;
      appPath + ChromeUnderLocalAppData
  }

  /** A registry value without embedded NULs is returned exactly. */
  lemma RegistryValueWins(env: LocatorEnv, value: string)
    requires env.appPathsKey == KeyOpened(Some(value))
    requires Nul !in value
    ensures GetPathToLiveBrowser(env) == value
  {
  }

  /**
   * A registry string read together with its terminating NUL (and whatever
   * follows it in the buffer) is returned without the terminator.
   */
  lemma RegistryValueWithTerminator(env: LocatorEnv, value: string, rest: string)
    requires env.appPathsKey == KeyOpened(Some(value + [Nul] + rest))
    requires Nul !in value
    ensures GetPathToLiveBrowser(env) == value
  {
    PrefixBeforeStopsAtFirst(value, Nul, rest);
  }

  /**
   * Without an App Paths key, the path is the local application-data folder
   * with the Chrome install suffix appended.
   */
  lemma FallbackIsPerUserInstall(env: LocatorEnv, folder: string)
    requires env.appPathsKey.KeyMissing?
    requires env.localAppData == Some(folder) && Nul !in folder
    ensures GetPathToLiveBrowser(env) == folder + ChromeUnderLocalAppData
  {
  }

  /** The located path depends on the local folder only when the key is missing. */
  lemma LocalFolderIgnoredWhenKeyOpens(env1: LocatorEnv, env2: LocatorEnv)
    requires env1.appPathsKey.KeyOpened? && env1.appPathsKey == env2.appPathsKey
    ensures GetPathToLiveBrowser(env1) == GetPathToLiveBrowser(env2)
  {
  }
}
