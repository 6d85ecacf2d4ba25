/** The primitive wrappers: each calls one OS primitive, turns its boolean or
    null result into a `Result`, and then follows a fixed rule about which
    handles it closes on success and on failure. Failures met along the way
    are collected in order and joined with newlines. */
module LowLevel {
  import opened Errors
  import opened Win32

  /** The error `close_token` returns when the OS refuses to close a handle. */
  function CloseError(t: HandleTable): string
  {
    "Unable to close handle: " + t.invalidHandleText
  }

  /** The messages a `close_token` call adds to an error list: none when the
      handle was open, its close error otherwise. */
  function CloseErrors(wasOpen: bool, t: HandleTable): seq<string>
  {
    if wasOpen then [] else [CloseError(t)]
  }

  /** Closes a handle and reports why the OS refused, if it did. */
  method CloseToken(t: HandleTable, h: Handle) returns (r: Result<()>)
    requires t.Valid()
    modifies t
    ensures t.Valid()
    ensures r.Ok? <==> h in old(t.open)
    ensures r.Err? ==> r.error == CloseError(t)
    ensures t.open == old(t.open) - {h} && t.next == old(t.next)
    ensures t.trace == old(t.trace) + [Call.CloseHandle(h)]
    ensures t.staleCloses == old(t.staleCloses) + old(t.StaleClose(h))
  {
    var closed := t.CloseHandle(h);
    if !closed {
      var lastError := t.lastError;
      return Err("Unable to close handle: " + lastError);
    }
    return Ok(());
  }

  /** Opens a process by pid; closes nothing. */
  method OpenProcess(t: HandleTable, access: set<ProcessAccess>, inheritHandle: bool, pid: u32,
                     answer: Outcome)
    returns (r: Result<Handle>)
    requires t.Valid()
    modifies t
    ensures t.Valid()
    ensures r.Ok? <==> answer.Succeeded?
    ensures r.Ok? ==> r.value !in old(t.open) && r.value == old(t.next)
                      && t.open == old(t.open) + {r.value} && t.next == old(t.next) + 1
    ensures r.Err? ==> r.error == "Could not obtain process: " + answer.lastError
                       && t.open == old(t.open) && t.next == old(t.next)
    ensures t.trace == old(t.trace) + [Call.OpenProcess(access, inheritHandle, pid)]
    ensures t.staleCloses == old(t.staleCloses)
  {
    var ok, process := t.OpenProcess(access, inheritHandle, pid, answer);
    if !ok {
      var err := t.lastError;
      return Err("Could not obtain process: " + err);
    }
    return Ok(process);
  }

  /** Opens the token of a process and closes the process handle in any case.
      On failure the empty token handle is closed too, which always fails, so
      the error always ends with a close error. If the token was opened but the
      process handle cannot be closed, the new token is neither returned nor
      closed: it leaks. */
  method OpenProcessToken(t: HandleTable, process: Handle, access: set<TokenAccess>, answer: Outcome)
    returns (r: Result<Handle>)
    requires t.Valid() && t.Issued(process)
    modifies t
    ensures t.Valid()
    ensures process !in t.open
    ensures r.Ok? <==> answer.Succeeded? && process in old(t.open)
    ensures r.Ok? ==> r.value !in old(t.open) && r.value == old(t.next)
                      && t.open == old(t.open) - {process} + {r.value}
    ensures answer.Failed? ==>
              r == Err(JoinLines(["Unable to open process token: " + answer.lastError]
                                 + CloseErrors(process in old(t.open), t) + [CloseError(t)]))
              && t.open == old(t.open) - {process}
    ensures answer.Succeeded? && process !in old(t.open) ==>
              r == Err(CloseError(t)) && t.open == old(t.open) + {old(t.next)}
    ensures t.next == old(t.next) + (if answer.Succeeded? then 1 else 0)
    ensures t.trace == old(t.trace) + [Call.OpenProcessToken(process, access), Call.CloseHandle(process)]
                       + (if answer.Failed? then [Call.CloseHandle(NullHandle)] else [])
    ensures t.staleCloses == old(t.staleCloses) + old(t.StaleClose(process))
  {
    var ok, token := t.OpenProcessToken(process, access, answer);
    if !ok {
      var errors: seq<string> := [];
      var lastError := t.lastError;
      errors := errors + ["Unable to open process token: " + lastError];
      var closedProcess := CloseToken(t, process);
      if closedProcess.Err? {
        errors := errors + [closedProcess.error];
      }
      var closedToken := CloseToken(t, token);
      if closedToken.Err? {
        errors := errors + [closedToken.error];
      }
      assert errors == ["Unable to open process token: " + answer.lastError]
                       + CloseErrors(process in old(t.open), t) + [CloseError(t)];
      return Err(JoinLines(errors));
    }
    var _ :- CloseToken(t, process);
    return Ok(token);
  }

  /** Duplicates a token and closes the source token in any case. On failure
      the empty new-token handle is closed too, which always fails. If the
      duplicate was made but the source cannot be closed, the duplicate leaks. */
  method DuplicateTokenEx(t: HandleTable, existing: Handle, access: set<TokenAccess>,
                          attributes: Option<SecurityAttributes>, level: ImpersonationLevel,
                          tokenType: TokenType, answer: Outcome)
    returns (r: Result<Handle>)
    requires t.Valid() && t.Issued(existing)
    modifies t
    ensures t.Valid()
    ensures existing !in t.open
    ensures r.Ok? <==> answer.Succeeded? && existing in old(t.open)
    ensures r.Ok? ==> r.value !in old(t.open) && r.value != existing && r.value == old(t.next)
                      && t.open == old(t.open) - {existing} + {r.value}
    ensures answer.Failed? ==>
              r == Err(JoinLines(["Unable to duplicate token: " + answer.lastError]
                                 + CloseErrors(existing in old(t.open), t) + [CloseError(t)]))
              && t.open == old(t.open) - {existing}
    ensures answer.Succeeded? && existing !in old(t.open) ==>
              r == Err(CloseError(t)) && t.open == old(t.open) + {old(t.next)}
    ensures t.next == old(t.next) + (if answer.Succeeded? then 1 else 0)
    ensures t.trace == old(t.trace) + [Call.DuplicateTokenEx(existing, access, attributes, level, tokenType),
                                       Call.CloseHandle(existing)]
                       + (if answer.Failed? then [Call.CloseHandle(NullHandle)] else [])
    ensures t.staleCloses == old(t.staleCloses) + old(t.StaleClose(existing))
  {
    var duplicated, newToken := t.DuplicateTokenEx(existing, access, attributes, level, tokenType, answer);
    if !duplicated {
      var errors: seq<string> := [];
      var lastError := t.lastError;
      errors := errors + ["Unable to duplicate token: " + lastError];
      var closedExisting := CloseToken(t, existing);
      if closedExisting.Err? {
        errors := errors + [closedExisting.error];
      }
      var closedNew := CloseToken(t, newToken);
      if closedNew.Err? {
        errors := errors + [closedNew.error];
      }
      assert errors == ["Unable to duplicate token: " + answer.lastError]
                       + CloseErrors(existing in old(t.open), t) + [CloseError(t)];
      return Err(JoinLines(errors));
    }
    var _ :- CloseToken(t, existing);
    return Ok(newToken);
  }

  /** The id of the session attached to the physical console, as the OS reports it. */
  method WtsGetActiveConsoleSessionId(t: HandleTable, answer: u32) returns (sessionId: u32)
    requires t.Valid()
    modifies t
    ensures t.Valid()
    ensures sessionId == answer
    ensures t.open == old(t.open) && t.next == old(t.next)
    ensures t.trace == old(t.trace) + [Call.WtsGetActiveConsoleSessionId]
    ensures t.staleCloses == old(t.staleCloses)
  {
    sessionId := t.WtsGetActiveConsoleSessionId(answer);
  }

  /** Obtains the token of the user logged on to a session. On failure the empty
      token handle is closed, which always fails. */
  method WtsQueryUserToken(t: HandleTable, sessionId: u32, answer: Outcome) returns (r: Result<Handle>)
    requires t.Valid()
    modifies t
    ensures t.Valid()
    ensures r.Ok? <==> answer.Succeeded?
    ensures r.Ok? ==> r.value !in old(t.open) && r.value == old(t.next)
                      && t.open == old(t.open) + {r.value} && t.next == old(t.next) + 1
    ensures r.Err? ==> r == Err(JoinLines(["Unable to obtain current user handle: " + answer.lastError,
                                           CloseError(t)]))
                       && t.open == old(t.open) && t.next == old(t.next)
    ensures t.trace == old(t.trace) + [Call.WtsQueryUserToken(sessionId)]
                       + (if answer.Failed? then [Call.CloseHandle(NullHandle)] else [])
    ensures t.staleCloses == old(t.staleCloses)
  {
    var success, token := t.WtsQueryUserToken(sessionId, answer);
    if !success {
      var errors: seq<string> := [];
      var lastError := t.lastError;
      errors := errors + ["Unable to obtain current user handle: " + lastError];
      var closed := CloseToken(t, token);
      if closed.Err? {
        errors := errors + [closed.error];
      }
      return Err(JoinLines(errors));
    }
    return Ok(token);
  }

  /** Queries token information and closes the token whether or not the query
      succeeded. `linkedToken` is what the query wrote into the caller's
      buffer: a fresh handle on success, null otherwise. The result is Ok only
      when both the query and the close succeeded; the query's error comes
      before the close's. */
  method GetTokenInformation(t: HandleTable, token: Handle, informationClass: TokenInformationClass,
                             answer: Outcome)
    returns (r: Result<()>, linkedToken: Handle)
    requires t.Valid() && t.Issued(token)
    modifies t
    ensures t.Valid()
    ensures token !in t.open
    ensures r.Ok? <==> answer.Succeeded? && token in old(t.open)
    ensures r.Err? ==> r.error == JoinLines((if answer.Failed?
                                             then ["Unable to get token information: " + answer.lastError]
                                             else [])
                                            + CloseErrors(token in old(t.open), t))
    ensures linkedToken == if answer.Succeeded? then old(t.next) else NullHandle
    ensures answer.Succeeded? ==> linkedToken !in old(t.open) && linkedToken != token
    ensures t.open == old(t.open) - {token} + (if answer.Succeeded? then {linkedToken} else {})
    ensures t.next == old(t.next) + (if answer.Succeeded? then 1 else 0)
    ensures t.trace == old(t.trace) + [Call.GetTokenInformation(token, informationClass),
                                       Call.CloseHandle(token)]
    ensures t.staleCloses == old(t.staleCloses) + old(t.StaleClose(token))
  {
    var success;
    success, linkedToken := t.GetTokenInformation(token, informationClass, answer);
    var errors: seq<string> := [];
    if !success {
      var lastError := t.lastError;
      errors := errors + ["Unable to get token information: " + lastError];
    }
    var closed := CloseToken(t, token);
    if closed.Err? {
      errors := errors + [closed.error];
    }
    if |errors| > 0 {
      return Err(JoinLines(errors)), linkedToken;
    }
    return Ok(()), linkedToken;
  }

  /** The calls `create_process_as_user_w` makes for a given creation call: the
      creation itself and, when it succeeded, the closes of the thread handle,
      the process handle and the token, in that order. `first` is the first
      handle value the creation can issue. */
  function CreateProcessCalls(create: Call, answer: Outcome, first: Handle): seq<Call>
    requires create.CreateProcessAsUserW?
  {
    [create]
    + if answer.Succeeded?
      then [Call.CloseHandle(first + 1), Call.CloseHandle(first), Call.CloseHandle(create.token)]
      else []
  }

  /** Creates a process under a token. On failure it returns at once and closes
      nothing, so the token stays open. On success it closes the new thread
      handle, the new process handle and the token, collecting close errors in
      that order. */
  method CreateProcessAsUserW(t: HandleTable, token: Handle, applicationName: string,
                              commandLine: string, processAttributes: Option<SecurityAttributes>,
                              threadAttributes: Option<SecurityAttributes>, inheritHandles: bool,
                              creationFlags: u32, environment: Option<EnvironmentBlock>,
                              currentDirectory: string, startupInfo: StartupInfo, answer: Outcome)
    returns (r: Result<()>)
    requires t.Valid() && t.Issued(token)
    modifies t
    ensures t.Valid()
    ensures r.Ok? <==> answer.Succeeded? && token in old(t.open)
    ensures answer.Failed? ==> r == Err("Unable to create process: " + answer.lastError)
                               && t.open == old(t.open)
    ensures answer.Succeeded? ==> t.open == old(t.open) - {token}
                                  && (r.Err? ==> r.error == CloseError(t))
    ensures t.next == old(t.next) + (if answer.Succeeded? then 2 else 0)
    ensures t.trace == old(t.trace)
                       + CreateProcessCalls(Call.CreateProcessAsUserW(token, applicationName, commandLine,
                                                                      processAttributes, threadAttributes,
                                                                      inheritHandles, creationFlags,
                                                                      environment, currentDirectory,
                                                                      startupInfo),
                                            answer, old(t.next))
    ensures t.staleCloses == old(t.staleCloses) + (if answer.Succeeded? then old(t.StaleClose(token)) else {})
  {
    var call := Call.CreateProcessAsUserW(token, applicationName, commandLine, processAttributes,
                                          threadAttributes, inheritHandles, creationFlags, environment,
                                          currentDirectory, startupInfo);
    var created, hProcess, hThread := t.CreateProcessAsUserW(call, answer);
    if !created {
      var lastError := t.lastError;
      return Err("Unable to create process: " + lastError);
    }
    var errors: seq<string> := [];
    var closedThread := CloseToken(t, hThread);
    match closedThread {
      case Err(err) => errors := errors + [err];
      case Ok(_) =>
    }
    var closedProcess := CloseToken(t, hProcess);
    match closedProcess {
      case Err(err) => errors := errors + [err];
      case Ok(_) =>
    }
    var closedToken := CloseToken(t, token);
    if closedToken.Err? {
      errors := errors + [closedToken.error];
    }
    if |errors| > 0 {
      return Err(JoinLines(errors));
    }
    return Ok(());
  }
}
