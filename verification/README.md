# Live browser preview (Windows) — Dafny model

This project models the Windows back end of the editor's live-preview browser
launcher (`live_browser_preview_win.cc`). That file locates the installed
Chrome executable, launches it at a URL (optionally with an isolated
remote-debugging profile), decides whether a top-level window belongs to that
browser, and counts such windows in one enumeration pass. It also maps Win32
error codes to the editor's portable error codes and keeps a process-wide
manager singleton.

Every Win32 call is an input to the model:

- the registry key and the local application-data folder are `Locator.LocatorEnv`;
- `CreateProcess` is a function from the command line to `Started | Failed(lastError)`;
- `GetWindowThreadProcessId`, `OpenProcess`, `GetModuleFileNameEx` and
  `GetShortPathName` are the fields of `ChromeWindows.Os`;
- the window list that `EnumWindows` walks is a `seq` of handles, with 0 as
  the null handle.

C-string behaviour is modelled explicitly. A `std::wstring` built from a
zero-filled buffer, a `c_str()` handed to Win32, and `wcscpy` all stop at the
first NUL (`CStrings.CStr`). `_wcsicmp` compares with the ASCII case folding of
the "C" locale.

Behaviour of the code that the model keeps as written:

- When the App Paths key opens but its default value cannot be read, the
  zero-filled buffer yields an empty browser path. The per-user fallback is
  used only when the key itself is missing.
- A failed `GetModuleFileNameEx` is not checked by the code. It yields an
  empty module path, which then fails or mismatches in the short-path step.
- The close protocol is not part of the compiled code: heartbeat timer,
  timeout timer, a single pending callback, and a superseded result all live
  only inside comment blocks. The compiled code has no timeout or superseded
  error code either; the commented-out code reports both outcomes as
  `ERR_UNKNOWN`. The model follows the compiled code, so the timer ids of the
  manager are never set and stay 0 (`Singleton.ReachableTimersIdle`), and
  the enumeration's close flag has no effect on anything
  (`ChromeWindows.CloseFlagDoesNotChangeCount`).

## Model

All source paths are under `app/node_modules/live-browser-preview/src/`.

| member | source | states |
|---|---|---|
| ErrorCodes.ConvertWinErrorCode | app/node_modules/live-browser-preview/src/live_browser_preview_win.cc:375-393 | The result is always one of NO_ERROR, UNKNOWN, NOT_FOUND, CANT_READ, CANT_WRITE, OUT_OF_SPACE, FILE_EXISTS. The exact preimage of each result is given: NO_ERROR only from NO_ERROR; NOT_FOUND from path-not-found or file-not-found; CANT_READ from access-denied when reading; CANT_WRITE from write-protect or access-denied when writing; OUT_OF_SPACE from disk-full; FILE_EXISTS from already-exists; UNKNOWN from every other code. |
| ErrorCodes.ReadingFlagOnlyAffectsAccessDenied | app/node_modules/live-browser-preview/src/live_browser_preview_win.cc:383-384 | The reading flag changes the result only for access-denied. With the default flag, access-denied is reported as CANT_READ, as on the launch-failure path; with the flag false it is CANT_WRITE. |
| ErrorCodes.ConvertNeverReportsOtherCodes | app/node_modules/live-browser-preview/src/live_browser_preview_win.cc:21-31 | The mapping never yields INVALID_PARAMS, UNSUPPORTED_ENCODING, NOT_FILE, NOT_DIRECTORY or BROWSER_NOT_INSTALLED. |
| CStrings.CStr | app/node_modules/live-browser-preview/src/live_browser_preview_win.cc:303-309 | A buffer read as a C string yields exactly the characters before its first NUL: a NUL-free prefix of the buffer that is either the whole buffer or is followed by a NUL. A NUL-free string is read back unchanged. |
| CStrings.PrefixBeforeStopsAtFirst | app/node_modules/live-browser-preview/src/live_browser_preview_win.cc:315-317 | Whatever follows the first terminator is ignored: the content before it is read back exactly. |
| CStrings.EqualIgnoringCaseCharwise | app/node_modules/live-browser-preview/src/live_browser_preview_win.cc:162 | Two strings compare equal ignoring case exactly when they have the same length and agree position by position after ASCII lower-casing. |
| CStrings.WcsIcmpEqual | app/node_modules/live-browser-preview/src/live_browser_preview_win.cc:162 | `_wcsicmp` of two `c_str()` values is 0 exactly when the parts before the first NUL have the same length and agree position by position after ASCII lower-casing. |
| Locator.GetPathToLiveBrowser | app/node_modules/live-browser-preview/src/live_browser_preview_win.cc:292-321 | An opened key with a readable value gives that value up to its first NUL. An opened key whose value cannot be read gives the empty path. A missing key gives the local application-data folder, up to its first NUL, followed by `\Google\Chrome\Application\chrome.exe`. The result never contains a NUL. |
| Locator.RegistryValueWins | app/node_modules/live-browser-preview/src/live_browser_preview_win.cc:299-310 | Whenever the App Paths key opens with a NUL-free value, that value is the path. |
| Locator.RegistryValueWithTerminator | app/node_modules/live-browser-preview/src/live_browser_preview_win.cc:303-309 | A registry string read together with its terminating NUL, and whatever follows it in the buffer, gives the string without the terminator. |
| Locator.FallbackIsPerUserInstall | app/node_modules/live-browser-preview/src/live_browser_preview_win.cc:312-320 | Without the App Paths key, the path is exactly the local application-data folder followed by `\Google\Chrome\Application\chrome.exe`. |
| Locator.LocalFolderIgnoredWhenKeyOpens | app/node_modules/live-browser-preview/src/live_browser_preview_win.cc:299-310 | The local application-data folder has no influence once the key opens. |
| Launcher.BuildCommandLine | app/node_modules/live-browser-preview/src/live_browser_preview_win.cc:338-350 | In both modes the browser path is a prefix of the command line and the URL is its suffix, with at least one separating character. |
| Launcher.UrlOf | app/node_modules/live-browser-preview/src/live_browser_preview_win.cc:338-350 | Inverse of the builder: any URL it extracts rebuilds exactly the command line it was given. |
| Launcher.UrlRoundTrip | app/node_modules/live-browser-preview/src/live_browser_preview_win.cc:338-350 | The URL is recovered from every built command line, so distinct URLs give distinct command lines. |
| Launcher.PlainLaunchIgnoresDirectory | app/node_modules/live-browser-preview/src/live_browser_preview_win.cc:347-350 | Without remote debugging the command line is exactly path, one space, URL, and the support directory has no influence. |
| Launcher.DebugLaunchLayout | app/node_modules/live-browser-preview/src/live_browser_preview_win.cc:341-350 | With remote debugging the command line is exactly path, ` --user-data-dir="`, `<dir>\live-dev-profile`, `" --no-first-run --no-default-browser-check --allow-file-access-from-files --remote-debugging-port=9222 `, URL. The profile path and the port flag sit at fixed offsets. |
| Launcher.LaunchCommandLine | app/node_modules/live-browser-preview/src/live_browser_preview_win.cc:352-356 | The buffer given to CreateProcess is a NUL-free prefix of the built command line. It is the whole command line when the URL and directory are NUL-free. |
| Launcher.OpenLiveBrowser | app/node_modules/live-browser-preview/src/live_browser_preview_win.cc:336-371 | The result is a mapped code. A started process gives NO_ERROR. Every failure gives its last-error code mapped with the reading sense, so access-denied gives CANT_READ and file-not-found or path-not-found gives NOT_FOUND. The result is NO_ERROR exactly when the process started or the failure carried last-error 0. |
| Singleton.GetInstance | app/node_modules/live-browser-preview/src/live_browser_preview_win.cc:109-124 | Afterwards the stored instance is the returned one. An existing instance is returned with nothing changed. Otherwise a new object is created with both timer ids 0. |
| Singleton.Shutdown | app/node_modules/live-browser-preview/src/live_browser_preview_win.cc:126-130 | Afterwards there is no instance. |
| Singleton.GetInstanceIdempotent | app/node_modules/live-browser-preview/src/live_browser_preview_win.cc:119-124 | A second GetInstance returns the same object and leaves the state unchanged. |
| Singleton.ShutdownThenGetInstanceIsFresh | app/node_modules/live-browser-preview/src/live_browser_preview_win.cc:119-130 | After Shutdown, GetInstance constructs a different object, again with both timer ids 0. |
| Singleton.RunPreservesValid | app/node_modules/live-browser-preview/src/live_browser_preview_win.cc:101-130 | Every sequence of GetInstance/Shutdown calls keeps any live instance's timer ids at 0 and its identity among the objects already created. |
| Singleton.ReachableTimersIdle | app/node_modules/live-browser-preview/src/live_browser_preview_win.cc:84-85 | From program start, the heartbeat and timeout timer ids of any instance are 0. |
| ChromeWindows.ConvertToShortPathName | app/node_modules/live-browser-preview/src/live_browser_preview_win.cc:323-334 | The short form of a NUL-free path is what GetShortPathName gives for it, with None for a failed conversion. For a path with a NUL, only the text before the first NUL is converted. |
| ChromeWindows.IsChromeWindow | app/node_modules/live-browser-preview/src/live_browser_preview_win.cc:132-168 | The result is false for a null handle, an unopenable process, or a failed short-path conversion of either path. When true, the two short paths are equal ignoring case. |
| ChromeWindows.IsChromeWindowExactly | app/node_modules/live-browser-preview/src/live_browser_preview_win.cc:132-168 | A window is recognised if and only if all of these hold: the handle is non-null, the process opens, both short-path conversions succeed, and the short paths are equal ignoring case. |
| ChromeWindows.LocatedBrowserWindowMatches | app/node_modules/live-browser-preview/src/live_browser_preview_win.cc:138-167 | Reflexivity: a window whose process image is the located path is recognised whenever its process opens and that path has a short form. |
| ChromeWindows.EnumChromeWindowsCallback | app/node_modules/live-browser-preview/src/live_browser_preview_win.cc:176-198 | Enumeration stops exactly at a null handle or when there is no instance, and the data is then unchanged. The close flag is carried through. The count grows by one exactly when enumeration continues and the window is recognised, and otherwise stays the same. |
| ChromeWindows.CountChromeWindows | app/node_modules/live-browser-preview/src/live_browser_preview_win.cc:187-191 | The count is at most the number of windows. It is zero exactly when no window is recognised, and full exactly when every window is. |
| ChromeWindows.EnumWindowsCountsLiveMatches | app/node_modules/live-browser-preview/src/live_browser_preview_win.cc:176-205 | A pass adds exactly the number of recognised windows before the first null handle, and nothing when there is no instance. It leaves the close flag unchanged. |
| ChromeWindows.CloseFlagDoesNotChangeCount | app/node_modules/live-browser-preview/src/live_browser_preview_win.cc:191-195 | Closing and non-closing passes over the same windows find the same number. |
| ChromeWindows.IsAnyChromeWindowsRunning | app/node_modules/live-browser-preview/src/live_browser_preview_win.cc:200-207 | True if and only if there is an instance and some window before the first null handle is recognised. |
| ChromeWindows.SingleLocatedWindowIsCounted | app/node_modules/live-browser-preview/src/live_browser_preview_win.cc:200-207 | One window owned by a process running the located executable is found exactly once, so a browser is reported running. |

## Left out

- Win32 calls (`RegOpenKeyEx`, `RegQueryValueEx`, `SHGetFolderPath`, `CreateProcess`, `EnumWindows`, `OpenProcess`, `GetModuleFileNameEx`, `GetShortPathName`, `CloseHandle`): foreign OS calls, modelled only through the inputs described above.
- `MAX_UNC_PATH` buffer limits: the model does not truncate long registry values, module paths or short paths, and does not model `GetShortPathName` returning a size larger than its buffer.
- The asynchronous close protocol (`CloseLiveBrowserKillTimers`, `CloseLiveBrowserFireCallback`, `CloseLiveBrowserTimerCallback`, `CloseLiveBrowserAsyncCallback`, `CloseLiveBrowser`): present only inside comment blocks, so it is not compiled and is not modelled. The `WM_CLOSE` request in the enumeration callback is commented out as well.
- `towstring`: narrow-to-wide conversion through a string stream, which depends on locale and stream behaviour. URLs and directories are taken as wide strings already.
- main.cc (N-API binding) and live_browser_preview.h (declarations): argument marshalling only.
- `SetInitialPathCallback`, `redrawTimerId`/`kMenuRedrawTimeout`, `ERR_PID_NOT_FOUND`, and the declared but undefined `ConvertErrnoCode` and `FiletimeToTime`: unused or never defined.
- The null `cbData` check in `EnumChromeWindowsCallback`: the only caller always passes its own local structure.
- `numberOfFoundWindows` is a C `int`. The model counts with `nat`, because a window count cannot reach 2^31.
- `ConvertWinErrorCode` takes a signed `int`. A `DWORD` from `GetLastError` above 2^31 becomes negative, and the model treats that like any other unlisted code (UNKNOWN).
- One `Os` value serves a whole enumeration pass. The process table, the registry and the file system are therefore a snapshot: the model cannot show a process exiting or the browser being reinstalled between two windows of one pass. `ChromeWindows.EnumWindowsCountsLiveMatches` holds for that snapshot.
- Wide strings are `seq<char>`, and a Dafny `char` is a Unicode scalar value, whereas `std::wstring` holds UTF-16 code units. Paths containing unpaired surrogates, which NTFS names allow, cannot be represented.
- `_wcsicmp` case folding beyond ASCII: in the "C" locale only `A`–`Z` fold, which is what the model does.
