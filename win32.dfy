/** The part of the Windows API that the crate calls, reduced to what the crate
    relies on: which handles are open, which handle values the kernel hands
    out, the thread's last-error text and the order of the calls made.

    Each foreign call takes the OS's answer as a parameter (an `Outcome`): the
    model does not decide whether a process may be opened or a token
    duplicated, it records what the crate does with either answer. Only
    `CloseHandle` is decided by the model: it succeeds exactly when the handle
    is open. */
module Win32 {

  newtype u32 = x: int | 0 <= x < 0x1_0000_0000

  /** A kernel handle value. 0 is `HANDLE::default()`, the null handle, which
      no call ever opens. */
  type Handle = nat

  const NullHandle: Handle := 0

  datatype Option<+T> = None | Some(value: T)

  /** The OS's answer to one call: success, or failure together with the text
      `Error::last_os_error()` renders for the error code it leaves behind. */
  datatype Outcome = Succeeded | Failed(lastError: string)

  datatype ProcessAccess = ProcessQueryInformation

  datatype TokenAccess = TokenQuery | TokenDuplicate | TokenAssignPrimary

  datatype ImpersonationLevel =
    | SecurityAnonymous
    | SecurityIdentification
    | SecurityImpersonation
    | SecurityDelegation

  datatype TokenType = TokenPrimary | TokenImpersonation

  datatype TokenInformationClass = TokenLinkedToken

  /** A `SECURITY_ATTRIBUTES` block; the crate never passes one. */
  datatype SecurityAttributes = SecurityAttributes

  /** An explicit environment block; the crate never passes one. */
  datatype EnvironmentBlock = EnvironmentBlock

  /** The part of `STARTUPINFOW` the crate sets: the desktop name. */
  datatype StartupInfo = StartupInfo(desktop: string)

  /** One call into the OS, with the arguments it was given. */
  datatype Call =
    | CloseHandle(handle: Handle)
    | OpenProcess(processAccess: set<ProcessAccess>, inheritHandle: bool, pid: u32)
    | OpenProcessToken(process: Handle, desiredAccess: set<TokenAccess>)
    | DuplicateTokenEx(existingToken: Handle, desiredAccess: set<TokenAccess>,
                       tokenAttributes: Option<SecurityAttributes>,
                       impersonationLevel: ImpersonationLevel, tokenType: TokenType)
    | WtsGetActiveConsoleSessionId
    | WtsQueryUserToken(sessionId: u32)
    | GetTokenInformation(token: Handle, informationClass: TokenInformationClass)
    | CreateProcessAsUserW(token: Handle, applicationName: string, commandLine: string,
                           processAttributes: Option<SecurityAttributes>,
                           threadAttributes: Option<SecurityAttributes>,
                           inheritHandles: bool, creationFlags: u32,
                           environment: Option<EnvironmentBlock>,
                           currentDirectory: string, startupInfo: StartupInfo)

  /** The kernel's handle table for the calling process, and the calls made on it. */
  class HandleTable {
    /** Handles currently open. */
    var open: set<Handle>
    /** The next handle value the kernel hands out; values are never reused. */
    var next: Handle
    /** The thread's last-error text, which `Error::last_os_error()` reads. */
    var lastError: string
    /** Every call made into the OS, in order. */
    var trace: seq<Call>
    /** Non-null handles passed to `CloseHandle` when they were not open:
        double closes and closes of handles never obtained. */
    ghost var staleCloses: set<Handle>
    /** The text the OS reports when `CloseHandle` is given a handle that is not open. */
    const invalidHandleText: string

    ghost predicate Valid()
      reads this
    {
      0 < next && NullHandle !in open && forall h :: h in open ==> h < next
    }

    /** A handle value the crate can hold: one the kernel has issued, or null. */
    predicate Issued(h: Handle)
      reads this
    {
      h < next
    }

    /** What closing `h` now adds to `staleCloses`. */
    function StaleClose(h: Handle): set<Handle>
      reads this
    {
      if h in open || h == NullHandle then {} else {h}
    }

    constructor (invalidHandleText: string)
      ensures Valid()
      ensures open == {} && next == 1 && lastError == "" && trace == [] && staleCloses == {}
      ensures this.invalidHandleText == invalidHandleText
    {
      open := {};
      next := 1;
      lastError := "";
      trace := [];
      staleCloses := {};
      this.invalidHandleText := invalidHandleText;
    }

    /** Opens a fresh handle: the next value, never seen before. */
    method Issue() returns (h: Handle)
      requires Valid()
      modifies this
      ensures Valid()
      ensures h == old(next) && h !in old(open) && h != NullHandle
      ensures open == old(open) + {h} && next == old(next) + 1
      ensures lastError == old(lastError) && trace == old(trace) && staleCloses == old(staleCloses)
    {
      h := next;
      open := open + {h};
      next := next + 1;
    }

    /** `CloseHandle`: succeeds exactly when the handle is open, and then closes it. */
    method CloseHandle(h: Handle) returns (closed: bool)
      requires Valid()
      modifies this
      ensures Valid()
      ensures closed <==> h in old(open)
      ensures open == old(open) - {h} && next == old(next)
      ensures lastError == if closed then old(lastError) else invalidHandleText
      ensures trace == old(trace) + [Call.CloseHandle(h)]
      ensures staleCloses == old(staleCloses) + old(StaleClose(h))
    {
      staleCloses := staleCloses + StaleClose(h);
      trace := trace + [Call.CloseHandle(h)];
      closed := h in open;
      if closed {
        open := open - {h};
      } else {
        lastError := invalidHandleText;
      }
    }

    /** `OpenProcess`: on success a fresh process handle. */
    method OpenProcess(access: set<ProcessAccess>, inheritHandle: bool, pid: u32, answer: Outcome)
      returns (ok: bool, process: Handle)
      requires Valid()
      modifies this
      ensures Valid()
      ensures ok == answer.Succeeded?
      ensures ok ==> process == old(next) && open == old(open) + {process} && next == old(next) + 1
                     && lastError == old(lastError)
      ensures !ok ==> process == NullHandle && open == old(open) && next == old(next)
                      && lastError == answer.lastError
      ensures trace == old(trace) + [Call.OpenProcess(access, inheritHandle, pid)]
      ensures staleCloses == old(staleCloses)
    {
      trace := trace + [Call.OpenProcess(access, inheritHandle, pid)];
      ok := answer.Succeeded?;
      if ok {
        process := Issue();
      } else {
        process := NullHandle;
        lastError := answer.lastError;
      }
    }

    /** `OpenProcessToken`: on success the token handle is written to the out-parameter;
        on failure the out-parameter keeps its initial null value. */
    method OpenProcessToken(process: Handle, access: set<TokenAccess>, answer: Outcome)
      returns (ok: bool, token: Handle)
      requires Valid()
      modifies this
      ensures Valid()
      ensures ok == answer.Succeeded?
      ensures ok ==> token == old(next) && open == old(open) + {token} && next == old(next) + 1
                     && lastError == old(lastError)
      ensures !ok ==> token == NullHandle && open == old(open) && next == old(next)
                      && lastError == answer.lastError
      ensures trace == old(trace) + [Call.OpenProcessToken(process, access)]
      ensures staleCloses == old(staleCloses)
    {
      trace := trace + [Call.OpenProcessToken(process, access)];
      ok := answer.Succeeded?;
      if ok {
        token := Issue();
      } else {
        token := NullHandle;
        lastError := answer.lastError;
      }
    }

    /** `DuplicateTokenEx`: on success a fresh token handle; the source is left as it is. */
    method DuplicateTokenEx(existing: Handle, access: set<TokenAccess>,
                            attributes: Option<SecurityAttributes>,
                            level: ImpersonationLevel, tokenType: TokenType, answer: Outcome)
      returns (ok: bool, newToken: Handle)
      requires Valid()
      modifies this
      ensures Valid()
      ensures ok == answer.Succeeded?
      ensures ok ==> newToken == old(next) && open == old(open) + {newToken} && next == old(next) + 1
                     && lastError == old(lastError)
      ensures !ok ==> newToken == NullHandle && open == old(open) && next == old(next)
                      && lastError == answer.lastError
      ensures trace == old(trace) + [Call.DuplicateTokenEx(existing, access, attributes, level, tokenType)]
      ensures staleCloses == old(staleCloses)
    {
      trace := trace + [Call.DuplicateTokenEx(existing, access, attributes, level, tokenType)];
      ok := answer.Succeeded?;
      if ok {
        newToken := Issue();
      } else {
        newToken := NullHandle;
        lastError := answer.lastError;
      }
    }

    /** `WTSGetActiveConsoleSessionId`: the session id the OS reports. */
    method WtsGetActiveConsoleSessionId(answer: u32) returns (sessionId: u32)
      requires Valid()
      modifies this
      ensures Valid()
      ensures sessionId == answer
      ensures trace == old(trace) + [Call.WtsGetActiveConsoleSessionId]
      ensures open == old(open) && next == old(next) && lastError == old(lastError)
      ensures staleCloses == old(staleCloses)
    {
      trace := trace + [Call.WtsGetActiveConsoleSessionId];
      sessionId := answer;
    }

    /** `WTSQueryUserToken`: on success the session user's token is written to the
        out-parameter; on failure it keeps its initial null value. */
    method WtsQueryUserToken(sessionId: u32, answer: Outcome) returns (ok: bool, token: Handle)
      requires Valid()
      modifies this
      ensures Valid()
      ensures ok == answer.Succeeded?
      ensures ok ==> token == old(next) && open == old(open) + {token} && next == old(next) + 1
                     && lastError == old(lastError)
      ensures !ok ==> token == NullHandle && open == old(open) && next == old(next)
                      && lastError == answer.lastError
      ensures trace == old(trace) + [Call.WtsQueryUserToken(sessionId)]
      ensures staleCloses == old(staleCloses)
    {
      trace := trace + [Call.WtsQueryUserToken(sessionId)];
      ok := answer.Succeeded?;
      if ok {
        token := Issue();
      } else {
        token := NullHandle;
        lastError := answer.lastError;
      }
    }

    /** `GetTokenInformation(TokenLinkedToken)`: on success the OS opens a handle to
        the linked token and writes it into the caller's zeroed `TOKEN_LINKED_TOKEN`
        buffer; on failure the buffer stays zero, the null handle. */
    method GetTokenInformation(token: Handle, informationClass: TokenInformationClass, answer: Outcome)
      returns (ok: bool, linkedToken: Handle)
      requires Valid()
      modifies this
      ensures Valid()
      ensures ok == answer.Succeeded?
      ensures ok ==> linkedToken == old(next) && open == old(open) + {linkedToken}
                     && next == old(next) + 1 && lastError == old(lastError)
      ensures !ok ==> linkedToken == NullHandle && open == old(open) && next == old(next)
                      && lastError == answer.lastError
      ensures trace == old(trace) + [Call.GetTokenInformation(token, informationClass)]
      ensures staleCloses == old(staleCloses)
    {
      trace := trace + [Call.GetTokenInformation(token, informationClass)];
      ok := answer.Succeeded?;
      if ok {
        linkedToken := Issue();
      } else {
        linkedToken := NullHandle;
        lastError := answer.lastError;
      }
    }

    /** `CreateProcessAsUserW`: on success the OS opens a handle to the new process
        and one to its main thread and writes them to `PROCESS_INFORMATION`; on
        failure both stay null. The token is left as it is. */
    method CreateProcessAsUserW(call: Call, answer: Outcome)
      returns (ok: bool, hProcess: Handle, hThread: Handle)
      requires call.CreateProcessAsUserW?
      requires Valid()
      modifies this
      ensures Valid()
      ensures ok == answer.Succeeded?
      ensures ok ==> hProcess == old(next) && hThread == old(next) + 1
                     && open == old(open) + {hProcess, hThread} && next == old(next) + 2
                     && lastError == old(lastError)
      ensures !ok ==> hProcess == NullHandle && hThread == NullHandle
                      && open == old(open) && next == old(next) && lastError == answer.lastError
      ensures trace == old(trace) + [call]
      ensures staleCloses == old(staleCloses)
    {
      trace := trace + [call];
      ok := answer.Succeeded?;
      if ok {
        hProcess := Issue();
        hThread := Issue();
      } else {
        hProcess, hThread := NullHandle, NullHandle;
        lastError := answer.lastError;
      }
    }
  }
}
