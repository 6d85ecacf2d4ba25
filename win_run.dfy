/** The crate's entry point: `run` composes the command line, maps the desktop
    selector to a desktop name, resolves a token by the chosen elevation and
    launches the executable under it. */
module WinRun {
  import opened Errors
  import opened Win32
  import LowLevel
  import HighLevel

  /** Whose rights the new process runs with. */
  datatype Elevation = User | Admin | LocalSystem

  /** Which desktop the new process appears on. */
  datatype Desktop = Default | Secure

  /** The desktop name handed to the startup info: empty (the caller's default
      desktop) or the secure Winlogon desktop. */
  function DesktopName(desktop: Desktop): (name: string)
    ensures name == "" <==> desktop == Default
    ensures desktop == Secure ==> name == "WinSta0\\Winlogon"
  {
    match desktop
    case Default => ""
    case Secure => "WinSta0\\Winlogon"
  }

  /** `format!("{path} {args}")`: the path, one space, the arguments, with no
      quoting; empty arguments still leave the trailing space. */
  function CommandLine(path: string, args: string): (line: string)
    ensures |line| == |path| + 1 + |args|
    ensures line[..|path|] == path && line[|path|] == ' ' && line[|path| + 1..] == args
  {
    path + " " + args
  }

  /** Reads a command line back as (program, arguments) by cutting it at its
      first space, which is all an unquoted command line allows. */
  function SplitAtFirstSpace(line: string): (parts: (string, string))
    ensures ' ' !in parts.0
    ensures |parts.0| <= |line|
  {
    if |line| == 0 then ("", "")
    else if line[0] == ' ' then ("", line[1..])
    else
      var rest := SplitAtFirstSpace(line[1..]);
      ([line[0]] + rest.0, rest.1)
  }

  /** A path without spaces is read back from the command line exactly, and so
      are the arguments. */
  lemma {:induction false} CommandLineSplit(path: string, args: string)
    requires ' ' !in path
    ensures SplitAtFirstSpace(CommandLine(path, args)) == (path, args)
  {
    var line := CommandLine(path, args);
    if |path| == 0 {
      assert line[0] == ' ' && line[1..] == args;
    } else {
      CommandLineSplit(path[1..], args);
      assert line[0] == path[0] && line[1..] == CommandLine(path[1..], args);
      assert path == [path[0]] + path[1..];
    }
  }

  /** Since nothing is quoted, a path holding a space is not read back from the
      command line: the program name recovered stops at the first space. */
  lemma CommandLineLosesSpacedPath(path: string, args: string)
    requires ' ' in path
    ensures SplitAtFirstSpace(CommandLine(path, args)).0 != path
  {
  }

  /** The OS's answers to the calls one `run` can make; each primitive is called
      at most once per run. `winlogonPids` is what the process enumeration lists
      for the name "winlogon"; `conversionDetail` is the text of the widestring
      error should a string fail to convert. */
  datatype OsAnswers = OsAnswers(
    activeConsoleSession: u32,
    queryUserToken: Outcome,
    duplicateToken: Outcome,
    linkedToken: Outcome,
    winlogonPids: seq<u32>,
    openProcess: Outcome,
    openProcessToken: Outcome,
    createProcess: Outcome,
    conversionDetail: string)

  /** Whether the strategy chosen by the elevation yields a token. */
  predicate Resolves(elevation: Elevation, os: OsAnswers)
  {
    match elevation
    case User => os.queryUserToken.Succeeded? && os.duplicateToken.Succeeded?
    case Admin => os.queryUserToken.Succeeded? && os.duplicateToken.Succeeded? && os.linkedToken.Succeeded?
    case LocalSystem =>
      |os.winlogonPids| > 0 && os.openProcess.Succeeded? && os.openProcessToken.Succeeded?
      && os.duplicateToken.Succeeded?
  }

  /** The error a failed resolution passes up unchanged: that of the strategy
      step that failed. `closeError` is the failed close of a null handle. */
  function ResolveError(elevation: Elevation, os: OsAnswers, closeError: string): string
    requires !Resolves(elevation, os)
  {
    match elevation
    case User => HighLevel.CurrentUserTokenError(os.queryUserToken, os.duplicateToken, closeError)
    case Admin =>
      if os.queryUserToken.Failed? || os.duplicateToken.Failed? then
        HighLevel.CurrentUserTokenError(os.queryUserToken, os.duplicateToken, closeError)
      else "Could not elevate process token: " + "Unable to get token information: " + os.linkedToken.lastError
    case LocalSystem =>
      if |os.winlogonPids| == 0 then "No running processes by the name: " + "winlogon"
      else HighLevel.ProcessTokenError(os.openProcess, os.openProcessToken, os.duplicateToken, closeError)
  }

  /** The handle a successful resolution yields, given the first handle value
      the run can issue: the duplicate for User and LocalSystem, the linked
      token for Admin. */
  function ResolvedToken(elevation: Elevation, first: Handle): Handle
  {
    match elevation
    case User => first + 1
    case Admin => first + 2
    case LocalSystem => first + 2
  }

  /** The OS calls token resolution makes. */
  function ResolveCalls(elevation: Elevation, os: OsAnswers, first: Handle): seq<Call>
  {
    match elevation
    case User =>
      HighLevel.CurrentUserTokenCalls(os.activeConsoleSession, first, os.queryUserToken, os.duplicateToken)
    case Admin =>
      HighLevel.CurrentUserTokenCalls(os.activeConsoleSession, first, os.queryUserToken, os.duplicateToken)
      + (if os.queryUserToken.Succeeded? && os.duplicateToken.Succeeded?
         then [Call.GetTokenInformation(first + 1, TokenLinkedToken), Call.CloseHandle(first + 1)]
         else [])
    case LocalSystem =>
      if |os.winlogonPids| == 0 then []
      else HighLevel.ProcessTokenCalls(os.winlogonPids[0], first, os.openProcess, os.openProcessToken,
                                       os.duplicateToken)
  }

  /** Token resolution never creates a process: every creation call of a run
      comes after its token has been resolved. */
  lemma ResolutionCreatesNoProcess(elevation: Elevation, os: OsAnswers, first: Handle)
    ensures forall c :: c in ResolveCalls(elevation, os, first) ==> !c.CreateProcessAsUserW?
  {
  }

  /** Whether the launch step, once it holds a token, creates the process. */
  predicate Launches(path: string, args: string, directory: string, desktop: Desktop, os: OsAnswers)
  {
    HighLevel.Convertible(path, CommandLine(path, args), directory, DesktopName(desktop))
    && os.createProcess.Succeeded?
  }

  /** The OS calls the launch step makes with a token: none when a string
      cannot be converted, otherwise the creation call and its closes. `first`
      is the first handle value the launch can issue. */
  function LaunchCalls(token: Handle, path: string, args: string, directory: string, desktop: Desktop,
                       os: OsAnswers, first: Handle): seq<Call>
  {
    if HighLevel.Convertible(path, CommandLine(path, args), directory, DesktopName(desktop))
    then LowLevel.CreateProcessCalls(HighLevel.LaunchCall(token, path, CommandLine(path, args), directory,
                                                          DesktopName(desktop)),
                                     os.createProcess, first)
    else []
  }

  /** The token-selecting `match` of `run`: the current user's token, its
      linked token, or the token of the first process named "winlogon". */
  method ResolveToken(t: HandleTable, elevation: Elevation, os: OsAnswers) returns (r: Result<Handle>)
    requires t.Valid()
    modifies t
    ensures t.Valid()
    ensures r.Ok? <==> Resolves(elevation, os)
    ensures r.Ok? ==> r.value == ResolvedToken(elevation, old(t.next)) && r.value !in old(t.open)
                      && t.open == old(t.open) + {r.value} && t.next == r.value + 1
    ensures r.Err? ==> t.open == old(t.open)
    ensures r.Err? ==> r.error == ResolveError(elevation, os, LowLevel.CloseError(t))
    ensures old(t.next) <= t.next
    ensures t.trace == old(t.trace) + ResolveCalls(elevation, os, old(t.next))
    ensures t.staleCloses == old(t.staleCloses)
  {
    match elevation
    case User =>
      r := HighLevel.GetCurrentUserToken(t, os.activeConsoleSession, os.queryUserToken, os.duplicateToken);
    case Admin =>
      r := AdminToken(t, os);
    case LocalSystem =>
      r := LocalSystemToken(t, os);
  }

  /** The Admin arm: the current user's token, replaced by its linked token. */
  method AdminToken(t: HandleTable, os: OsAnswers) returns (r: Result<Handle>)
    requires t.Valid()
    modifies t
    ensures t.Valid()
    ensures r.Ok? <==> Resolves(Admin, os)
    ensures r.Ok? ==> r.value == ResolvedToken(Admin, old(t.next)) && r.value !in old(t.open)
                      && t.open == old(t.open) + {r.value} && t.next == r.value + 1
    ensures r.Err? ==> t.open == old(t.open)
    ensures r.Err? ==> r.error == ResolveError(Admin, os, LowLevel.CloseError(t))
    ensures old(t.next) <= t.next
    ensures t.trace == old(t.trace) + ResolveCalls(Admin, os, old(t.next))
    ensures t.staleCloses == old(t.staleCloses)
  {
    var currentUserToken :- HighLevel.GetCurrentUserToken(t, os.activeConsoleSession, os.queryUserToken,
                                                          os.duplicateToken);
    currentUserToken :- HighLevel.AddAdminPrivilegesToToken(t, currentUserToken, os.linkedToken);
    r := Ok(currentUserToken);
  }

  /** The LocalSystem arm: the token of the first process named "winlogon". */
  method LocalSystemToken(t: HandleTable, os: OsAnswers) returns (r: Result<Handle>)
    requires t.Valid()
    modifies t
    ensures t.Valid()
    ensures r.Ok? <==> Resolves(LocalSystem, os)
    ensures r.Ok? ==> r.value == ResolvedToken(LocalSystem, old(t.next)) && r.value !in old(t.open)
                      && t.open == old(t.open) + {r.value} && t.next == r.value + 1
    ensures r.Err? ==> t.open == old(t.open)
    ensures r.Err? ==> r.error == ResolveError(LocalSystem, os, LowLevel.CloseError(t))
    ensures old(t.next) <= t.next
    ensures t.trace == old(t.trace) + ResolveCalls(LocalSystem, os, old(t.next))
    ensures t.staleCloses == old(t.staleCloses)
  {
    var processPid :- HighLevel.GetProcessPid("winlogon", os.winlogonPids);
    r := HighLevel.GetProcessToken(t, processPid, os.openProcess, os.openProcessToken, os.duplicateToken);
  }

  /** The launch step of `run`: the composed command line, the desktop name and
      the directory handed to `create_process_with_token` with the resolved
      token. The token is closed exactly when the process is created. */
  method Launch(t: HandleTable, token: Handle, path: string, args: string, directory: string,
                desktop: Desktop, os: OsAnswers)
    returns (r: Result<()>)
    requires t.Valid() && token in t.open
    modifies t
    ensures t.Valid()
    ensures r.Ok? <==> Launches(path, args, directory, desktop, os)
    ensures Launches(path, args, directory, desktop, os) ==> t.open == old(t.open) - {token}
    ensures !Launches(path, args, directory, desktop, os) ==> t.open == old(t.open)
    ensures t.next == old(t.next) + (if Launches(path, args, directory, desktop, os) then 2 else 0)
    ensures t.staleCloses == old(t.staleCloses)
    ensures t.trace == old(t.trace) + LaunchCalls(token, path, args, directory, desktop, os, old(t.next))
    ensures !HighLevel.Convertible(path, CommandLine(path, args), directory, DesktopName(desktop)) ==>
              r == Err("Cannot convert string to U16CString: " + os.conversionDetail)
    ensures HighLevel.Convertible(path, CommandLine(path, args), directory, DesktopName(desktop))
            && os.createProcess.Failed? ==>
              r == Err("Unable to create process: " + os.createProcess.lastError)
  {
    var applicationName := path;
    var commandLine := CommandLine(path, args);
    var currentDirectory := directory;
    var desktopName := DesktopName(desktop);
    r := HighLevel.CreateProcessWithToken(t, token, applicationName, commandLine, currentDirectory,
                                          desktopName, os.conversionDetail, os.createProcess);
  }

  /** Runs an executable under the token the elevation selects, on the chosen
      desktop, from the given directory. When every step succeeds no handle the
      call opened is left open. The only handle it can leave open is the
      resolved token, and only when the launch step fails. */
  method Run(t: HandleTable, path: string, args: string, directory: string, desktop: Desktop,
             elevation: Elevation, os: OsAnswers)
    returns (r: Result<()>)
    requires t.Valid()
    modifies t
    ensures t.Valid()
    ensures r.Ok? <==> Resolves(elevation, os) && Launches(path, args, directory, desktop, os)
    ensures r.Ok? ==> t.open == old(t.open)
    ensures old(t.open) <= t.open
    ensures t.open - old(t.open) == if Resolves(elevation, os) && !Launches(path, args, directory, desktop, os)
                                    then {ResolvedToken(elevation, old(t.next))}
                                    else {}
    ensures t.staleCloses == old(t.staleCloses)
    ensures t.trace == old(t.trace) + ResolveCalls(elevation, os, old(t.next))
                       + (if Resolves(elevation, os)
                          then LaunchCalls(ResolvedToken(elevation, old(t.next)), path, args, directory, desktop,
                                           os, ResolvedToken(elevation, old(t.next)) + 1)
                          else [])
    ensures elevation == LocalSystem && |os.winlogonPids| == 0 ==>
              r == Err("No running processes by the name: winlogon") && t.trace == old(t.trace)
    ensures !Resolves(elevation, os) ==> r == Err(ResolveError(elevation, os, LowLevel.CloseError(t)))
    ensures old(t.next) <= t.next
    ensures Resolves(elevation, os)
            && !HighLevel.Convertible(path, CommandLine(path, args), directory, DesktopName(desktop)) ==>
              r == Err("Cannot convert string to U16CString: " + os.conversionDetail)
    ensures Resolves(elevation, os)
            && HighLevel.Convertible(path, CommandLine(path, args), directory, DesktopName(desktop))
            && os.createProcess.Failed? ==>
              r == Err("Unable to create process: " + os.createProcess.lastError)
  {
    var token :- ResolveToken(t, elevation, os);
    r := Launch(t, token, path, args, directory, desktop, os);
  }

  /** A launch as the console user where every OS call succeeds: the process is
      created under the duplicated token with the composed command line, the
      empty desktop name and the given directory, and no handle is left open. */
  method UserLaunchScenario() returns (r: Result<()>, trace: seq<Call>, leftOpen: set<Handle>)
    ensures r.Ok?
    ensures trace == [Call.WtsGetActiveConsoleSessionId,
                      Call.WtsQueryUserToken(1),
                      Call.DuplicateTokenEx(1, HighLevel.TokenRights, None, SecurityImpersonation, TokenPrimary),
                      Call.CloseHandle(1),
                      Call.CreateProcessAsUserW(2, "C:\\tools\\app.exe", "C:\\tools\\app.exe -v", None, None,
                                                false, 0, None, "C:\\tools", StartupInfo("")),
                      Call.CloseHandle(4),
                      Call.CloseHandle(3),
                      Call.CloseHandle(2)]
    ensures leftOpen == {}
  {
    var t := new HandleTable("The handle is invalid.");
    var os := OsAnswers(1, Succeeded, Succeeded, Succeeded, [], Succeeded, Succeeded, Succeeded, "");
    assert CommandLine("C:\\tools\\app.exe", "-v") == "C:\\tools\\app.exe -v";
    assert HighLevel.Convertible("C:\\tools\\app.exe", "C:\\tools\\app.exe -v", "C:\\tools", "");
    assert Launches("C:\\tools\\app.exe", "-v", "C:\\tools", Default, os);
    r := Run(t, "C:\\tools\\app.exe", "-v", "C:\\tools", Default, User, os);
    trace, leftOpen := t.trace, t.open;
  }

  /** An Admin launch for an account without a linked token: the error says the
      token could not be elevated, no process is created and no handle is left
      open. */
  method AdminWithoutLinkedTokenScenario() returns (r: Result<()>, trace: seq<Call>, leftOpen: set<Handle>)
    ensures r == Err("Could not elevate process token: " + "Unable to get token information: "
                     + "A specified logon session does not exist.")
    ensures forall i :: 0 <= i < |trace| ==> !trace[i].CreateProcessAsUserW?
    ensures leftOpen == {}
  {
    var t := new HandleTable("The handle is invalid.");
    var os := OsAnswers(1, Succeeded, Succeeded, Failed("A specified logon session does not exist."), [],
                        Succeeded, Succeeded, Succeeded, "");
    r := Run(t, "C:\\tools\\app.exe", "-v", "C:\\tools", Default, Admin, os);
    trace, leftOpen := t.trace, t.open;
  }

  /** A launch as the console user when no user is logged on: the query error
      passes up unchanged, followed by the failed close of the null handle,
      and no handle is left open. */
  method UserWithoutSessionScenario() returns (r: Result<()>, trace: seq<Call>, leftOpen: set<Handle>)
    ensures r == Err(JoinLines(["Unable to obtain current user handle: " + "No user is logged on.",
                                "Unable to close handle: " + "The handle is invalid."]))
    ensures trace == [Call.WtsGetActiveConsoleSessionId, Call.WtsQueryUserToken(1), Call.CloseHandle(NullHandle)]
    ensures leftOpen == {}
  {
    var t := new HandleTable("The handle is invalid.");
    var os := OsAnswers(1, Failed("No user is logged on."), Succeeded, Succeeded, [], Succeeded, Succeeded,
                        Succeeded, "");
    r := Run(t, "C:\\tools\\app.exe", "-v", "C:\\tools", Default, User, os);
    trace, leftOpen := t.trace, t.open;
  }
}
