/**
 * Instance Identity Matcher and Window Enumerator: IsChromeWindow decides
 * whether a top-level window belongs to the located browser, and the
 * EnumWindows pass with EnumChromeWindowsCallback counts such windows.
 * Every Win32 query is a field of `Os`.
 */
module ChromeWindows {
  import opened Wrappers
  import opened CStrings
  import opened Locator
  import opened Singleton

  /** A window handle; 0 is the null handle. */
  type Hwnd = nat
  const NullHwnd: Hwnd := 0

  type ProcessId = nat

  /**
   * The OS as the matcher sees it.
   * - processOf: GetWindowThreadProcessId.
   * - canOpenProcess: whether OpenProcess(QUERY_INFORMATION | VM_READ) succeeds.
   * - moduleFileName: GetModuleFileNameEx of the process's main module; a
   *   failed call returns length 0, i.e. the empty string.
   * - shortPath: GetShortPathName; None when it returns 0.
   * - locator: what GetPathToLiveBrowser reads, queried afresh on every check.
   */
  datatype Os = Os(
    processOf: Hwnd -> ProcessId,
    canOpenProcess: ProcessId -> bool,
    moduleFileName: ProcessId -> string,
    shortPath: string -> Option<string>,
    locator: LocatorEnv)

  /**
   * ConvertToShortPathName: GetShortPathName of `path.c_str()`; None where
   * the call returns 0. Only the text before the first NUL reaches the OS.
   */
  function ConvertToShortPathName(os: Os, path: string): (r: Option<string>)
    ensures Nul !in path ==> r == os.shortPath(path)
    ensures forall k :: 0 <= k < |path| && path[k] == Nul && Nul !in path[..k] ==>
      r == os.shortPath(path[..k])
  {
    forall k | 0 <= k < |path| && path[k] == Nul && Nul !in path[..k]
      ensures CStr(path) == path[..k]
    {
      assert path == path[..k] + [Nul] + path[k + 1..];
      PrefixBeforeStopsAtFirst(path[..k], Nul, path[k + 1..]);
    }
    os.shortPath(CStr(path))
  }

  function ModulePathOf(os: Os, hwnd: Hwnd): string {
    os.moduleFileName(os.processOf(hwnd))
  }

  /**
   * IsChromeWindow. A null handle, a process that cannot be opened, or a
   * failed short-path conversion of either path means "not ours"; otherwise
   * the two short paths are compared ignoring case.
   */
  function IsChromeWindow(os: Os, hwnd: Hwnd): (r: bool)
    ensures hwnd == NullHwnd ==> !r
    ensures !os.canOpenProcess(os.processOf(hwnd)) ==> !r
    ensures ConvertToShortPathName(os, ModulePathOf(os, hwnd)).None? ==> !r
    ensures ConvertToShortPathName(os, GetPathToLiveBrowser(os.locator)).None? ==> !r
    ensures r ==>
      WcsIcmpEqual(ConvertToShortPathName(os, GetPathToLiveBrowser(os.locator)).value,
                   ConvertToShortPathName(os, ModulePathOf(os, hwnd)).value)
  {
    if hwnd == NullHwnd then false
    else if !os.canOpenProcess(os.processOf(hwnd)) then false
    else
      var modulePath := ModulePathOf(os, hwnd);
      var appPath := GetPathToLiveBrowser(os.locator);
      match (ConvertToShortPathName(os, modulePath), ConvertToShortPathName(os, appPath))
      case (Some(shortModule), Some(shortApp)) => WcsIcmpEqual(shortApp, shortModule)
      case _ => false
  }

  /** The conditions under which a window is recognised, all of them together. */
  lemma IsChromeWindowExactly(os: Os, hwnd: Hwnd)
    ensures IsChromeWindow(os, hwnd) <==>
      && hwnd != NullHwnd
      && os.canOpenProcess(os.processOf(hwnd))
      && ConvertToShortPathName(os, ModulePathOf(os, hwnd)).Some?
      && ConvertToShortPathName(os, GetPathToLiveBrowser(os.locator)).Some?
      && WcsIcmpEqual(ConvertToShortPathName(os, GetPathToLiveBrowser(os.locator)).value,
                      ConvertToShortPathName(os, ModulePathOf(os, hwnd)).value)
  {
  }

  /**
   * Reflexivity: a window whose process runs exactly the located executable
   * is recognised, as long as its process can be opened and the path has a
   * short form.
   */
  lemma LocatedBrowserWindowMatches(os: Os, hwnd: Hwnd)
    requires hwnd != NullHwnd
    requires os.canOpenProcess(os.processOf(hwnd))
    requires ModulePathOf(os, hwnd) == GetPathToLiveBrowser(os.locator)
    requires ConvertToShortPathName(os, GetPathToLiveBrowser(os.locator)).Some?
    ensures IsChromeWindow(os, hwnd)
  {
  }

  /** The per-call user data of the enumeration. */
  datatype CallbackData = CallbackData(closeWindow: bool, numberOfFoundWindows: nat)

  /** What the callback hands back to EnumWindows: TRUE to continue, and the updated data. */
  datatype CallbackResult = CallbackResult(continueEnumeration: bool, data: CallbackData)

  /**
   * EnumChromeWindowsCallback. Stops the enumeration at a null handle or when
   * there is no manager instance; otherwise counts the window when it is
   * ours. The close request for matching windows is not issued (the code
   * that would send it is commented out), so `closeWindow` changes nothing.
   */
  function EnumChromeWindowsCallback(os: Os, instance: Option<LiveBrowserMgrWin>,
                                     hwnd: Hwnd, data: CallbackData): (r: CallbackResult)
    ensures !r.continueEnumeration <==> hwnd == NullHwnd || instance.None?
    ensures !r.continueEnumeration ==> r.data == data
    ensures r.data.closeWindow == data.closeWindow
    ensures r.data.numberOfFoundWindows == data.numberOfFoundWindows + 1 <==>
      r.continueEnumeration && IsChromeWindow(os, hwnd)
    ensures r.data.numberOfFoundWindows in {data.numberOfFoundWindows, data.numberOfFoundWindows + 1}
  {
    if hwnd == NullHwnd || instance.None? then CallbackResult(false, data)
    else if !IsChromeWindow(os, hwnd) then CallbackResult(true, data)
    else CallbackResult(true, data.(numberOfFoundWindows := data.numberOfFoundWindows + 1))
  }

  /**
   * EnumWindows driving the callback: windows are visited in the given
   * order until the list ends or the callback returns FALSE.
   */
  function EnumWindows(os: Os, instance: Option<LiveBrowserMgrWin>,
                       windows: seq<Hwnd>, data: CallbackData): CallbackData
    decreases |windows|
  {
    if |windows| == 0 then data
    else
      var step := EnumChromeWindowsCallback(os, instance, windows[0], data);
      if step.continueEnumeration then EnumWindows(os, instance, windows[1..], step.data)
      else step.data
  }

  /** The windows the pass visits before the first null handle. */
  function LiveWindows(windows: seq<Hwnd>): seq<Hwnd> {
    PrefixBefore(windows, NullHwnd)
  }

  /** Number of windows in `ws` that IsChromeWindow accepts. */
  function CountChromeWindows(os: Os, ws: seq<Hwnd>): (n: nat)
    ensures n <= |ws|
    ensures n == 0 <==> forall i :: 0 <= i < |ws| ==> !IsChromeWindow(os, ws[i])
    ensures n == |ws| <==> forall i :: 0 <= i < |ws| ==> IsChromeWindow(os, ws[i])
  {
    if |ws| == 0 then 0
    else
      var rest := CountChromeWindows(os, ws[1..]);
      assert forall i :: 1 <= i < |ws| ==> ws[i] == ws[1..][i - 1];
      (if IsChromeWindow(os, ws[0]) then 1 else 0) + rest
  }

  /**
   * The pass adds to the count exactly the accepted windows before the first
   * null handle, and nothing at all without a manager instance; the
   * close flag is carried through unchanged.
   */
  lemma {:induction false} EnumWindowsCountsLiveMatches(os: Os, instance: Option<LiveBrowserMgrWin>,
                                                         windows: seq<Hwnd>, data: CallbackData)
    ensures EnumWindows(os, instance, windows, data).closeWindow == data.closeWindow
    ensures EnumWindows(os, instance, windows, data).numberOfFoundWindows ==
      data.numberOfFoundWindows + (if instance.Some? then CountChromeWindows(os, LiveWindows(windows)) else 0)
    decreases |windows|
  {
    if |windows| != 0 {
      var step := EnumChromeWindowsCallback(os, instance, windows[0], data);
      if step.continueEnumeration {
        EnumWindowsCountsLiveMatches(os, instance, windows[1..], step.data);
        assert LiveWindows(windows) == [windows[0]] + LiveWindows(windows[1..]);
        assert LiveWindows(windows)[1..] == LiveWindows(windows[1..]);
      }
    }
  }

  /** The close flag never changes the count of a pass. */
  lemma CloseFlagDoesNotChangeCount(os: Os, instance: Option<LiveBrowserMgrWin>,
                                    windows: seq<Hwnd>, n: nat)
    ensures EnumWindows(os, instance, windows, CallbackData(true, n)).numberOfFoundWindows ==
            EnumWindows(os, instance, windows, CallbackData(false, n)).numberOfFoundWindows
  {
    EnumWindowsCountsLiveMatches(os, instance, windows, CallbackData(true, n));
    EnumWindowsCountsLiveMatches(os, instance, windows, CallbackData(false, n));
  }

  /**
   * IsAnyChromeWindowsRunning: a non-closing pass from a zero count found
   * something. True exactly when there is an instance and some window before
   * the first null handle is ours.
   */
  function IsAnyChromeWindowsRunning(os: Os, instance: Option<LiveBrowserMgrWin>,
                                     windows: seq<Hwnd>): (r: bool)
    ensures r <==> (instance.Some? &&
      exists i :: 0 <= i < |LiveWindows(windows)| && IsChromeWindow(os, LiveWindows(windows)[i]))
  {
    EnumWindowsCountsLiveMatches(os, instance, windows, CallbackData(false, 0));
    EnumWindows(os, instance, windows, CallbackData(false, 0)).numberOfFoundWindows != 0
  }

  /**
   * With a manager instance, a single window owned by a process running the
   * located executable is found once.
   */
  lemma SingleLocatedWindowIsCounted(os: Os, instance: Option<LiveBrowserMgrWin>, hwnd: Hwnd)
    requires instance.Some?
    requires hwnd != NullHwnd
    requires os.canOpenProcess(os.processOf(hwnd))
    requires ModulePathOf(os, hwnd) == GetPathToLiveBrowser(os.locator)
    requires ConvertToShortPathName(os, GetPathToLiveBrowser(os.locator)).Some?
    ensures EnumWindows(os, instance, [hwnd], CallbackData(false, 0)).numberOfFoundWindows == 1
    ensures IsAnyChromeWindowsRunning(os, instance, [hwnd])
  {
    LocatedBrowserWindowMatches(os, hwnd);
    EnumWindowsCountsLiveMatches(os, instance, [hwnd], CallbackData(false, 0));
    assert LiveWindows([hwnd]) == [hwnd];
    assert IsChromeWindow(os, LiveWindows([hwnd])[0]);
  }
}
