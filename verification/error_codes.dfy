/**
 * The module's portable error codes (the values the editor's JavaScript side
 * knows) and the mapping from Win32 error codes onto them.
 */
module ErrorCodes {

  // Portable result codes returned to the host.
  const NoError: int := 0
  const ErrUnknown: int := 1
  const ErrInvalidParams: int := 2
  const ErrNotFound: int := 3
  const ErrCantRead: int := 4
  const ErrUnsupportedEncoding: int := 5
  const ErrCantWrite: int := 6
  const ErrOutOfSpace: int := 7
  const ErrNotFile: int := 8
  const ErrNotDirectory: int := 9
  const ErrFileExists: int := 10
  const ErrBrowserNotInstalled: int := 11

  // Win32 error codes (winerror.h) that the mapping distinguishes.
  // NO_ERROR is 0 there as well, so it is `NoError` above.
  const ErrorFileNotFound: int := 2
  const ErrorPathNotFound: int := 3
  const ErrorAccessDenied: int := 5
  const ErrorWriteProtect: int := 19
  const ErrorHandleDiskFull: int := 39
  const ErrorAlreadyExists: int := 183

  /** The Win32 codes that the mapping does not send to `ErrUnknown`. */
  const KnownWinErrors: set<int> :=
    {NoError, ErrorFileNotFound, ErrorPathNotFound, ErrorAccessDenied,
     ErrorWriteProtect, ErrorHandleDiskFull, ErrorAlreadyExists}

  /** Every value the mapping can produce. */
  const MappedCodes: set<int> :=
    {NoError, ErrUnknown, ErrNotFound, ErrCantRead, ErrCantWrite, ErrOutOfSpace, ErrFileExists}

  /**
   * Maps a Win32 error code to a portable code. `isReading` decides which way
   * "access denied" is reported; callers that omit it get the reading sense.
   * The contract gives the full preimage of every possible result.
   */
  function ConvertWinErrorCode(errorCode: int, isReading: bool := true): (r: int)
    ensures r in MappedCodes
    ensures r == NoError <==> errorCode == NoError
    ensures r == ErrNotFound <==> errorCode == ErrorPathNotFound || errorCode == ErrorFileNotFound
    ensures r == ErrCantRead <==> errorCode == ErrorAccessDenied && isReading
    ensures r == ErrCantWrite <==>
      errorCode == ErrorWriteProtect || (errorCode == ErrorAccessDenied && !isReading)
    ensures r == ErrOutOfSpace <==> errorCode == ErrorHandleDiskFull
    ensures r == ErrFileExists <==> errorCode == ErrorAlreadyExists
    ensures r == ErrUnknown <==> errorCode !in KnownWinErrors
  {
    if errorCode == NoError then NoError
    else if errorCode == ErrorPathNotFound || errorCode == ErrorFileNotFound then ErrNotFound
    else if errorCode == ErrorAccessDenied then (if isReading then ErrCantRead else ErrCantWrite)
    else if errorCode == ErrorWriteProtect then ErrCantWrite
    else if errorCode == ErrorHandleDiskFull then ErrOutOfSpace
    else if errorCode == ErrorAlreadyExists then ErrFileExists
    else ErrUnknown
  }

  /**
   * The direction flag matters for "access denied" only; with the default
   * flag, access denied is reported as a read failure.
   */
  lemma ReadingFlagOnlyAffectsAccessDenied(errorCode: int)
    ensures errorCode != ErrorAccessDenied ==>
      ConvertWinErrorCode(errorCode, true) == ConvertWinErrorCode(errorCode, false)
    ensures errorCode == ErrorAccessDenied ==>
      ConvertWinErrorCode(errorCode) == ErrCantRead &&
      ConvertWinErrorCode(errorCode, false) == ErrCantWrite
  {
  }

  /** The mapping never produces the codes reserved for other failures. */
  lemma ConvertNeverReportsOtherCodes(errorCode: int, isReading: bool)
    ensures ConvertWinErrorCode(errorCode, isReading) !in
      {ErrInvalidParams, ErrUnsupportedEncoding, ErrNotFile, ErrNotDirectory, ErrBrowserNotInstalled}
  {
  }
}
