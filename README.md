# win_run: handle ownership when launching a process under another token

`win_run` starts an executable under a chosen identity: the user logged on to
the console session (`User`), that user's elevated linked token (`Admin`), or
the token of the `winlogon` process (`LocalSystem`). It can put the executable on
the default desktop or on the secure Winlogon desktop. To do this it chains
Win32 calls. Each call hands out kernel handles (process handles, token
handles, the handles of the new process and its first thread), and the crate
closes each of them itself.

This project models that chain:

- `Win32` is the slice of the OS the crate calls. Class `HandleTable` holds
  the set of open handles, the next handle value the kernel issues, the
  thread's last-error text and the ordered trace of every OS call with its
  arguments. Each foreign call takes the OS's answer (`Outcome`) as a
  parameter. Only `CloseHandle` is decided by the model: it succeeds exactly
  when the handle is open.
- `LowLevel` holds the "safe bindings" of `low_level.rs`, as methods on the
  table. Each one states the exact trace it appends, the open set it leaves,
  and its result, including the exact error text.
- `HighLevel` holds the strategies of `high_level.rs`: obtaining a token from
  a process or from the console session, elevating it, and starting a process
  under it.
- `WinRun` holds `run` from `lib.rs`: the command line, the desktop name, the
  token chosen by the elevation, and the launch.
- `Errors` holds the crate's `Result<T, String>` and the newline-joining of
  collected error messages. Its partner, `SplitLines`, shows that joining
  loses no message.

The proved properties are about ownership:

- every handle a step obtains is closed by that step or handed on, except
  on the leak paths listed below;
- no handle is closed twice. The ghost set `staleCloses` records every close
  of a non-null handle that was not open, and it never grows along a run.
- a fully successful `run` leaves the open set as it found it.

The proofs also pin down where handles leak:

- If process creation fails, the token stays open
  (`src/safe_windows_bindings/low_level.rs:221-225`).
- If a string cannot be converted to UTF-16, the token stays open
  (`src/safe_windows_bindings/high_level.rs:106-119`).
- If the OS call succeeds but closing the input handle fails, the new handle
  stays open. In `open_process_token` and `duplicate_token_ex` this is the
  handle just obtained (`low_level.rs:67` and `:115`). In `get_token_information`
  it is the linked token.

`Run` states that the only handle a run can leave behind is the resolved
token, and only when the launch step fails.

Another behaviour shows up in the error texts. On failure, `open_process_token`,
`duplicate_token_ex` and `wts_query_user_token` also close their still-null
output handle. That close always fails, so their errors always end with an
extra "Unable to close handle: …" line. `open_process` closes nothing on
failure. `get_token_information` closes the queried token instead, and adds a
close error only when that token was not open.

A failed token resolution passes its strategy's error up unchanged.
`ResolveError` names that error for every way resolution can fail, and
`ResolveToken` and `Run` both state it.

## Model

| member | source | states |
|---|---|---|
| Errors.JoinLines | src/safe_windows_bindings/low_level.rs:62 | joining collected messages with newlines keeps the first message as a prefix of the result |
| Errors.SplitJoin | src/safe_windows_bindings/low_level.rs:53-63 | when no message holds a newline, the joined error splits back into exactly the collected messages, in order: aggregation loses nothing |
| Win32.HandleTable.CloseHandle | src/safe_windows_bindings/low_level.rs:18 | succeeds iff the handle is open. Closing an open handle removes it. Closing anything else records the failure text, and a non-null such handle is recorded as a stale close |
| Win32.HandleTable.OpenProcess | src/safe_windows_bindings/low_level.rs:34 | on success exactly one fresh handle is opened. On failure nothing opens, the handle is null and the last error is set |
| Win32.HandleTable.OpenProcessToken | src/safe_windows_bindings/low_level.rs:49-50 | on success a fresh token handle is opened. On failure the output stays null. The process handle is left untouched |
| Win32.HandleTable.DuplicateTokenEx | src/safe_windows_bindings/low_level.rs:87-97 | on success a fresh token handle is opened. On failure the output stays null. The existing token is left untouched |
| Win32.HandleTable.WtsGetActiveConsoleSessionId | src/safe_windows_bindings/low_level.rs:121 | returns the session id the OS reports and opens nothing |
| Win32.HandleTable.WtsQueryUserToken | src/safe_windows_bindings/low_level.rs:130 | on success a fresh token handle is opened. On failure the output stays null |
| Win32.HandleTable.GetTokenInformation | src/safe_windows_bindings/low_level.rs:157-166 | a successful `TokenLinkedToken` query opens a fresh linked-token handle. The queried token is left untouched |
| Win32.HandleTable.CreateProcessAsUserW | src/safe_windows_bindings/low_level.rs:202-217 | on success two fresh handles are opened: the process and, after it, its thread. On failure nothing opens. The token is left untouched |
| LowLevel.CloseToken | src/safe_windows_bindings/low_level.rs:16-25 | Ok iff the handle was open. On failure the error is "Unable to close handle: " followed by the OS text. The handle is not open afterwards |
| LowLevel.OpenProcess | src/safe_windows_bindings/low_level.rs:28-37 | Ok iff the OS opens the process, and then the result is the one new open handle. Otherwise "Could not obtain process: " followed by the OS text, with nothing opened |
| LowLevel.OpenProcessToken | src/safe_windows_bindings/low_level.rs:42-71 | the process handle is closed in every case. On failure the error joins, in order, the open error, a close error for the process handle if it was not open, and the close error of the null token. On success the token is returned if the process handle closed. If it did not close, the token leaks behind the close error. Exact call trace |
| LowLevel.DuplicateTokenEx | src/safe_windows_bindings/low_level.rs:76-117 | the existing token is closed in every case. The failure error joins the duplication error, the close errors and the null-handle close error. On success the duplicate is returned, or leaks behind a close error. Exact call trace |
| LowLevel.WtsGetActiveConsoleSessionId | src/safe_windows_bindings/low_level.rs:120-122 | returns the OS's session id. The trace grows by that one call, and the open set is unchanged |
| LowLevel.WtsQueryUserToken | src/safe_windows_bindings/low_level.rs:125-147 | Ok iff the OS answers, and then the result is the one new open handle. On failure the error is the query error joined with the null-handle close error, and nothing stays open |
| LowLevel.GetTokenInformation | src/safe_windows_bindings/low_level.rs:150-185 | the token is closed in every case. Ok iff the query succeeds and the token was open. The error joins the query error and the close error, each present exactly when that step failed |
| LowLevel.CreateProcessAsUserW | src/safe_windows_bindings/low_level.rs:189-245 | on failure the error is "Unable to create process: " followed by the OS text, and the token is left open. On success the thread, the process and the token are closed in that order, leaving the open set less the token. Ok iff the token was open. Exact call trace |
| HighLevel.GetProcessPid | src/safe_windows_bindings/high_level.rs:19-27 | Ok iff the enumeration lists a process, and then the result is the first pid listed. Otherwise "No running processes by the name: " followed by the name |
| HighLevel.GetProcessToken | src/safe_windows_bindings/high_level.rs:30-51 | Ok iff opening the process, opening its token and duplicating it all succeed. On Ok the only handle left open is the duplicate, requested with the three token rights as a primary token at impersonation level. On Err nothing stays open, the handle counter has advanced by the handles that step had obtained, and the error is that of the first failing step (`ProcessTokenError`). Exact trace, and no stale close |
| HighLevel.GetCurrentUserToken | src/safe_windows_bindings/high_level.rs:54-72 | Ok iff the query and the duplication succeed. The queried token is consumed. On Ok the only handle left open is the duplicate. On Err nothing stays open, the handle counter has advanced by the handles that step had obtained, and the error is that of the query or the duplication (`CurrentUserTokenError`). Exact trace, and no stale close |
| HighLevel.AddAdminPrivilegesToToken | src/safe_windows_bindings/high_level.rs:75-95 | the token is consumed in every case. Ok iff the linked-token query succeeds and the token was open, and then the linked token itself is returned, not duplicated. Errors carry the "Could not elevate process token: " prefix. On a close failure after a successful query, the linked token leaks |
| HighLevel.ConvertArgument | src/safe_windows_bindings/high_level.rs:106-119 | a string converts iff it holds no NUL. A failure reads "Cannot convert string to U16CString: " followed by the library's text |
| HighLevel.CreateProcessWithToken | src/safe_windows_bindings/high_level.rs:98-156 | if any of the four strings fails to convert, the OS is not called and the token is left open. Otherwise the result, trace and open set are exactly those of the creation binding, with the desktop in the startup info, no attributes, no inheritance, flags 0 and an inherited environment. Ok iff all strings convert, creation succeeds and the token was open |
| WinRun.DesktopName | src/lib.rs:69-72 | the name is empty iff the desktop is the default one. The secure desktop is "WinSta0\Winlogon" |
| WinRun.CommandLine | src/lib.rs:65 | the command line is the path, one space, then the arguments, with nothing quoted |
| WinRun.CommandLineSplit | src/lib.rs:65 | a path without spaces and the arguments are read back exactly from the command line |
| WinRun.CommandLineLosesSpacedPath | src/lib.rs:65 | a path containing a space is not recovered from the unquoted command line |
| WinRun.ResolutionCreatesNoProcess | src/lib.rs:74-85 | resolving a token makes no process-creation call |
| WinRun.ResolveToken | src/lib.rs:74-85 | Ok iff the elevation's strategy succeeds. On Ok exactly one new handle, the resolved token, is left open. On Err nothing stays open, and the error is the failing strategy's own, passed up unchanged (`ResolveError`): the query, duplication, linked-token, no-winlogon, open-process and open-token errors. The handle counter only grows. Exact trace |
| WinRun.AdminToken | src/lib.rs:76-80 | the current user's token replaced by its linked token. Ok iff query, duplication and linked-token lookup succeed. On Err the error is the query or duplication error passed up from `get_current_user_token`, or the elevation error. Exact trace |
| WinRun.LocalSystemToken | src/lib.rs:81-84 | the token of the first process named "winlogon". Ok iff such a process exists and opening it, opening its token and duplicating succeed. If no such process exists, the error names it and no OS call is made. Otherwise the error is the one `get_process_token` passes up. Exact trace |
| WinRun.Launch | src/lib.rs:87-93 | Ok iff all strings convert and the process is created. The token is closed exactly when the process is created and stays open otherwise. No stale close. The handle counter grows by the process and thread handles exactly when the process is created. The conversion and creation error texts. Exact trace |
| WinRun.Run | src/lib.rs:56-94 | Ok iff the token resolves and the launch succeeds. On Ok no handle stays open. The handles left open are exactly the resolved token, when it resolved but the launch failed. No handle is closed twice. Exact trace. When resolution fails, the error is the strategy's own, passed up unchanged (`ResolveError`). Otherwise the error is that of a string that cannot be converted, or of a failed creation |
| WinRun.UserLaunchScenario | src/lib.rs:56-94 | a console-user launch where every call succeeds yields Ok and the exact eight-call trace, and leaves no handle open |
| WinRun.AdminWithoutLinkedTokenScenario | src/lib.rs:76-80 | an Admin launch without a linked token fails with the elevation error, creates no process and leaves no handle open |
| WinRun.UserWithoutSessionScenario | src/lib.rs:75 | a User launch where the console query fails returns that query error, followed by the failed null-handle close. It makes exactly three calls and leaves no handle open |

## Left out

- The Win32 functions themselves are not modelled. Whether a process can be
  opened, or a token queried, duplicated or used, is the OS's answer, passed
  in as an `Outcome`. The failure text is one opaque string carried by that
  answer. In most wrappers it is what `Error::last_os_error()` renders. In
  `open_process` it is the display of the `windows::core::Error` that
  `OpenProcess` returns (`low_level.rs:36`). The one exception is `CloseHandle`, modelled as
  succeeding exactly on open handles. Its failure text is the table's
  `invalidHandleText`.
- Handle values are modelled as a counter the kernel never reuses. Real
  handle values can be recycled after a close. The wrappers require their
  handle arguments to be null or issued by the table, since the crate only
  holds such values.
- Process enumeration (`sysinfo::System::processes_by_name`) is not
  modelled. `GetProcessPid` takes the list that enumeration yields for the
  name. Its substring matching and the order of its results come from the OS.
- `U16CString::from_str` is modelled only by its NUL rule. The UTF-16
  encoding and the library's error text are not modelled: one opaque string
  stands for that text.
- Raw memory is not modelled: `TOKEN_LINKED_TOKEN`, the buffer pointer,
  `size_of`, `cb`, the returned length, and `PCWSTR`/`PWSTR` pointers.
  `get_token_information` is modelled for the one information class the
  crate asks for, `TokenLinkedToken`, whose answer is a new handle.
- Access masks are modelled as sets of named rights, not as bit masks.
- `PROCESS_INFORMATION` is not a parameter of the model's
  `create_process_as_user_w`. The caller always passes an empty one, and the
  model reads the process and thread handles from the OS's answer.
- The error vector that `create_process_as_user_w` fills on failure
  (`low_level.rs:219-223`) is never read, so it is not modelled.
- The wrappers' contracts do not state the thread's last-error text after
  they return. Only the primitives do, and the crate reads it immediately
  after each failing call.
- Concurrency is not modelled. No other thread changes the handle table
  during a run.
