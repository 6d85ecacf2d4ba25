/** The token-resolution strategies and the launch step. Each strategy chains
    wrappers and stops at the first failure; every step consumes its input
    handle and produces a new one. */
module HighLevel {
  import opened Errors
  import opened Win32
  import LowLevel

  /** `TOKEN_QUERY | TOKEN_DUPLICATE | TOKEN_ASSIGN_PRIMARY`, the rights every
      resolved token is requested with. */
  const TokenRights: set<TokenAccess> := {TokenQuery, TokenDuplicate, TokenAssignPrimary}

  /** The pid of the first process the enumeration lists under a name, or an
      error naming the process when it lists none. `found` is what the process
      enumeration returns for the name, in its own order. */
  function GetProcessPid(processName: string, found: seq<u32>): (r: Result<u32>)
    ensures r.Ok? <==> |found| > 0
    ensures r.Ok? ==> r.value == found[0]
    ensures r.Err? ==> r.error == "No running processes by the name: " + processName
  {
    if |found| == 0 then Err("No running processes by the name: " + processName)
    else Ok(found[0])
  }

  /** The OS calls `get_process_token` makes: open the process with query
      rights, open its token, duplicate it as a primary token at impersonation
      level, stopping after the first step that fails. `first` is the first
      handle value the call can issue. */
  function ProcessTokenCalls(pid: u32, first: Handle, openProcess: Outcome, openToken: Outcome,
                             duplicate: Outcome): seq<Call>
  {
    var open := Call.OpenProcess({ProcessQueryInformation}, false, pid);
    var openToken' := Call.OpenProcessToken(first, TokenRights);
    var dup := Call.DuplicateTokenEx(first + 1, TokenRights, None, SecurityImpersonation, TokenPrimary);
    if openProcess.Failed? then [open]
    else if openToken.Failed? then [open, openToken', Call.CloseHandle(first), Call.CloseHandle(NullHandle)]
    else if duplicate.Failed? then
      [open, openToken', Call.CloseHandle(first), dup, Call.CloseHandle(first + 1), Call.CloseHandle(NullHandle)]
    else [open, openToken', Call.CloseHandle(first), dup, Call.CloseHandle(first + 1)]
  }

  /** The error `get_process_token` passes up: that of its first failing step.
      A failed open or duplication also closes a still-null output handle, so
      those errors end with `closeError`. */
  function ProcessTokenError(openProcess: Outcome, openToken: Outcome, duplicate: Outcome,
                             closeError: string): string
    requires openProcess.Failed? || openToken.Failed? || duplicate.Failed?
  {
    if openProcess.Failed? then "Could not obtain process: " + openProcess.lastError
    else if openToken.Failed? then
      JoinLines(["Unable to open process token: " + openToken.lastError, closeError])
    else JoinLines(["Unable to duplicate token: " + duplicate.lastError, closeError])
  }

  /** The token of a process, duplicated as a primary token with the three
      token rights. On success only the duplicate stays open; on failure no
      handle the call opened stays open. */
  method GetProcessToken(t: HandleTable, pid: u32, openProcess: Outcome, openToken: Outcome,
                         duplicate: Outcome)
    returns (r: Result<Handle>)
    requires t.Valid()
    modifies t
    ensures t.Valid()
    ensures r.Ok? <==> openProcess.Succeeded? && openToken.Succeeded? && duplicate.Succeeded?
    ensures r.Ok? ==> r.value == old(t.next) + 2 && r.value !in old(t.open)
                      && t.open == old(t.open) + {r.value} && t.next == r.value + 1
    ensures r.Err? ==> t.open == old(t.open)
                       && t.next == old(t.next) + (if openProcess.Failed? then 0
                                                   else if openToken.Failed? then 1 else 2)
    ensures r.Err? ==> r.error == ProcessTokenError(openProcess, openToken, duplicate, LowLevel.CloseError(t))
    ensures t.trace == old(t.trace) + ProcessTokenCalls(pid, old(t.next), openProcess, openToken, duplicate)
    ensures t.staleCloses == old(t.staleCloses)
  {
    var processHandle :- LowLevel.OpenProcess(t, {ProcessQueryInformation}, false, pid, openProcess);
    assert processHandle in t.open && processHandle == old(t.next);
    var desiredAccess := TokenRights;
    var processTokenHandle :- LowLevel.OpenProcessToken(t, processHandle, desiredAccess, openToken);
    var duplicatedTokenHandle :- LowLevel.DuplicateTokenEx(t, processTokenHandle, desiredAccess, None,
                                                           SecurityImpersonation, TokenPrimary, duplicate);
    return Ok(duplicatedTokenHandle);
  }

  /** The OS calls `get_current_user_token` makes: read the console session,
      query its user's token, duplicate it as a primary token at impersonation
      level, stopping after the first step that fails. */
  function CurrentUserTokenCalls(sessionId: u32, first: Handle, query: Outcome, duplicate: Outcome): seq<Call>
  {
    [Call.WtsGetActiveConsoleSessionId, Call.WtsQueryUserToken(sessionId)]
    + (if query.Failed? then [Call.CloseHandle(NullHandle)]
       else [Call.DuplicateTokenEx(first, TokenRights, None, SecurityImpersonation, TokenPrimary),
             Call.CloseHandle(first)]
            + (if duplicate.Failed? then [Call.CloseHandle(NullHandle)] else []))
  }

  /** The error `get_current_user_token` passes up: that of the query or, if
      the query succeeded, of the duplication; both end with the failed close
      of the still-null output handle. */
  function CurrentUserTokenError(query: Outcome, duplicate: Outcome, closeError: string): string
    requires query.Failed? || duplicate.Failed?
  {
    if query.Failed? then JoinLines(["Unable to obtain current user handle: " + query.lastError, closeError])
    else JoinLines(["Unable to duplicate token: " + duplicate.lastError, closeError])
  }

  /** The token of the user logged on to the console session, duplicated as a
      primary token with the three token rights; the queried token is consumed.
      `activeSession` is the session id the OS reports. */
  method GetCurrentUserToken(t: HandleTable, activeSession: u32, query: Outcome, duplicate: Outcome)
    returns (r: Result<Handle>)
    requires t.Valid()
    modifies t
    ensures t.Valid()
    ensures r.Ok? <==> query.Succeeded? && duplicate.Succeeded?
    ensures r.Ok? ==> r.value == old(t.next) + 1 && r.value !in old(t.open)
                      && t.open == old(t.open) + {r.value} && t.next == r.value + 1
    ensures r.Err? ==> t.open == old(t.open) && t.next == old(t.next) + (if query.Failed? then 0 else 1)
    ensures r.Err? ==> r.error == CurrentUserTokenError(query, duplicate, LowLevel.CloseError(t))
    ensures t.trace == old(t.trace) + CurrentUserTokenCalls(activeSession, old(t.next), query, duplicate)
    ensures t.staleCloses == old(t.staleCloses)
  {
    var activeSessionId := LowLevel.WtsGetActiveConsoleSessionId(t, activeSession);
    var currentUserToken :- LowLevel.WtsQueryUserToken(t, activeSessionId, query);
    var accessFlags := TokenRights;
    r := LowLevel.DuplicateTokenEx(t, currentUserToken, accessFlags, None, SecurityImpersonation,
                                   TokenPrimary, duplicate);
  }

  /** Replaces a token by its linked (elevated) token. The input token is
      consumed in every case, since the query closes it. The linked token is
      returned as the query delivered it, without a duplication. If the query
      succeeded but the input token could not be closed, the linked token is
      dropped with the error and stays open. */
  method AddAdminPrivilegesToToken(t: HandleTable, token: Handle, linked: Outcome)
    returns (r: Result<Handle>)
    requires t.Valid() && t.Issued(token)
    modifies t
    ensures t.Valid()
    ensures token !in t.open
    ensures r.Ok? <==> linked.Succeeded? && token in old(t.open)
    ensures r.Ok? ==> r.value == old(t.next) && r.value !in old(t.open)
                      && t.open == old(t.open) - {token} + {r.value} && t.next == r.value + 1
    ensures r.Err? ==>
              r.error == "Could not elevate process token: "
                         + JoinLines((if linked.Failed?
                                      then ["Unable to get token information: " + linked.lastError]
                                      else [])
                                     + LowLevel.CloseErrors(token in old(t.open), t))
    ensures r.Err? && linked.Failed? ==> t.open == old(t.open) - {token}
    ensures r.Err? && linked.Succeeded? ==> t.open == old(t.open) + {old(t.next)}
    ensures t.next == old(t.next) + (if linked.Succeeded? then 1 else 0)
    ensures t.trace == old(t.trace) + [Call.GetTokenInformation(token, TokenLinkedToken), Call.CloseHandle(token)]
    ensures t.staleCloses == old(t.staleCloses) + old(t.StaleClose(token))
  {
    var queried, linkedToken := LowLevel.GetTokenInformation(t, token, TokenLinkedToken, linked);
    if queried.Err? {
      return Err("Could not elevate process token: " + queried.error);
    }
    return Ok(linkedToken);
  }

  /** `U16CString::from_str`: the widestring library refuses a string that holds
      a NUL character. `detail` stands for the text of its error. */
  function ToU16CString(s: string, detail: string): (r: Result<string>)
    ensures r.Ok? <==> '\0' !in s
    ensures r.Ok? ==> r.value == s
  {
    if '\0' in s then Err(detail) else Ok(s)
  }

  /** One string converted for the OS, with a failure reported as
      `create_process_with_token` reports it. */
  function ConvertArgument(s: string, detail: string): (r: Result<string>)
    ensures r.Ok? <==> '\0' !in s
    ensures r.Err? ==> r.error == "Cannot convert string to U16CString: " + detail
  {
    match ToU16CString(s, detail)
    case Ok(wide) => Ok(wide)
    case Err(err) => Err("Cannot convert string to U16CString: " + err)
  }

  /** All four strings of a launch survive the conversion. */
  predicate Convertible(applicationName: string, commandLine: string, currentDirectory: string,
                        desktop: string)
  {
    '\0' !in applicationName && '\0' !in commandLine && '\0' !in currentDirectory && '\0' !in desktop
  }

  /** The process-creation call a launch makes: the desktop travels in the
      startup info; there are no process or thread attributes, handles are not
      inherited, the creation flags are 0 and the environment is inherited. */
  function LaunchCall(token: Handle, applicationName: string, commandLine: string,
                      currentDirectory: string, desktop: string): (call: Call)
  {
    Call.CreateProcessAsUserW(token, applicationName, commandLine, None, None, false, 0, None,
                              currentDirectory, StartupInfo(desktop))
  }

  /** Starts a process under a token. A string that cannot be converted stops
      the launch before the OS is called, and the token is then left open.
      Otherwise the result is exactly that of `create_process_as_user_w`. */
  method CreateProcessWithToken(t: HandleTable, token: Handle, applicationName: string,
                                commandLine: string, currentDirectory: string, desktop: string,
                                conversionDetail: string, create: Outcome)
    returns (r: Result<()>)
    requires t.Valid() && t.Issued(token)
    modifies t
    ensures t.Valid()
    ensures r.Ok? <==> Convertible(applicationName, commandLine, currentDirectory, desktop)
                       && create.Succeeded? && token in old(t.open)
    ensures !Convertible(applicationName, commandLine, currentDirectory, desktop) ==>
              r == Err("Cannot convert string to U16CString: " + conversionDetail)
              && t.open == old(t.open) && t.next == old(t.next) && t.trace == old(t.trace)
    ensures Convertible(applicationName, commandLine, currentDirectory, desktop) ==>
              t.trace == old(t.trace)
                         + LowLevel.CreateProcessCalls(LaunchCall(token, applicationName, commandLine,
                                                                  currentDirectory, desktop),
                                                       create, old(t.next))
    ensures Convertible(applicationName, commandLine, currentDirectory, desktop) && create.Failed? ==>
              r == Err("Unable to create process: " + create.lastError) && t.open == old(t.open)
    ensures Convertible(applicationName, commandLine, currentDirectory, desktop) && create.Succeeded? ==>
              t.open == old(t.open) - {token} && (r.Err? ==> r.error == LowLevel.CloseError(t))
    ensures t.next == old(t.next) + (if Convertible(applicationName, commandLine, currentDirectory, desktop)
                                        && create.Succeeded? then 2 else 0)
    ensures t.staleCloses == old(t.staleCloses)
                             + (if Convertible(applicationName, commandLine, currentDirectory, desktop)
                                   && create.Succeeded? then old(t.StaleClose(token)) else {})
  {
    var wideApplicationName :- ConvertArgument(applicationName, conversionDetail);
    var wideCommandLine :- ConvertArgument(commandLine, conversionDetail);
    var wideCurrentDirectory :- ConvertArgument(currentDirectory, conversionDetail);
    var wideDesktop :- ConvertArgument(desktop, conversionDetail);

    var startupInfo := StartupInfo(wideDesktop);

    var errors: seq<string> := [];
    var created := LowLevel.CreateProcessAsUserW(t, token, wideApplicationName, wideCommandLine, None, None,
                                                 false, 0, None, wideCurrentDirectory, startupInfo, create);
    if created.Err? {
      errors := errors + [created.error];
    }
    if |errors| > 0 {
      return Err(JoinLines(errors));
    }
    return Ok(());
  }
}
