/**
 * The `QemuUtils` helper object of the application template: the status
 * check with its parser for the manager script's output, installation,
 * the version and path queries, launching QEMU with a parameter list,
 * and the pid-file based running check and stop.
 *
 * Each call to the host (`execCommand`, `spawnProcess`) is an input: what
 * the call returned, or that it threw. The command string handed to the
 * host is part of each operation's result where the logic shapes it.
 */
module QemuUtils {
  import opened Wrappers
  import opened JsStrings
  import opened OsCalls

  /** The fields of a `QemuUtils` object that its operations read and write. */
  datatype UtilsState = UtilsState(qemuAvailable: bool, qemuVersion: Option<string>, qemuPath: Option<string>)

  const VersionMarker: string := "Версия:"
  const PathMarker: string := "Путь:"

  // ---------------------------------------------------------------------
  // The line parser of the status check
  // ---------------------------------------------------------------------

  /** The text of `rest` up to the first occurrence of `m`, or all of it when there is none. */
  function UpToNext(rest: string, m: string): (r: string)
    ensures |r| <= |rest| && r == rest[..|r|]
  {
    match IndexOf(rest, m)
    case None => rest
    case Some(j) => rest[..j]
  }

  /** The first piece of `s.split(m)` runs up to the first marker. */
  lemma SplitFirst(s: string, m: string)
    requires |m| > 0
    ensures Split(s, m)[0] == UpToNext(s, m)
  {
  }

  /** The second piece of `line.split(m)` is the text after the first marker, up to the next one. */
  lemma SplitSecond(line: string, m: string, i: nat)
    requires |m| > 0 && IndexOf(line, m) == Some(i)
    ensures |Split(line, m)| >= 2
    ensures Split(line, m)[1] == UpToNext(line[i + |m|..], m)
  {
    var rest := line[i + |m|..];
    assert Split(line, m) == [line[..i]] + Split(rest, m);
    SplitFirst(rest, m);
  }

  /** `line.split(m)[1].trim()`, for a line that contains the marker. */
  function FieldAfter(line: string, m: string): (r: string)
    requires |m| > 0 && Includes(line, m)
    ensures exists i: nat :: IndexOf(line, m) == Some(i) && r == Trim(UpToNext(line[i + |m|..], m))
  {
    var i := IndexOf(line, m).value;
    SplitSecond(line, m, i);
    Trim(Split(line, m)[1])
  }

  /** A line that sets the path: it names the path marker and not the version marker. */
  predicate IsPathLine(line: string) {
    !Includes(line, VersionMarker) && Includes(line, PathMarker)
  }

  /** One iteration of the loop over the output lines. */
  function ParseLine(st: UtilsState, line: string): (r: UtilsState)
    ensures r.qemuAvailable == st.qemuAvailable
  {
    if Includes(line, VersionMarker) then st.(qemuVersion := Some(FieldAfter(line, VersionMarker)))
    else if Includes(line, PathMarker) then st.(qemuPath := Some(FieldAfter(line, PathMarker)))
    else st
  }

  /** The loop over the output lines, in order. */
  function ParseLines(st: UtilsState, lines: seq<string>): (r: UtilsState)
    ensures r.qemuAvailable == st.qemuAvailable
    decreases |lines|
  {
    if |lines| == 0 then st else ParseLines(ParseLine(st, lines[0]), lines[1..])
  }

  /** The status check's parse of the script's standard output, split at line feeds. */
  function ParseOutput(st: UtilsState, stdOut: string): UtilsState {
    ParseLines(st, Split(stdOut, "\n"))
  }

  /** Parsing two runs of lines one after the other is parsing their concatenation. */
  lemma {:induction false} ParseLinesAppend(st: UtilsState, a: seq<string>, b: seq<string>)
    ensures ParseLines(st, a + b) == ParseLines(ParseLines(st, a), b)
    decreases |a|
  {
    if |a| > 0 {
      var next := ParseLine(st, a[0]);
      assert (a + b)[0] == a[0];
      assert (a + b)[1..] == a[1..] + b;
      assert ParseLines(st, a + b) == ParseLines(next, a[1..] + b);
      assert ParseLines(st, a) == ParseLines(next, a[1..]);
      ParseLinesAppend(next, a[1..], b);
    } else {
      assert a + b == b;
    }
  }

  /** Lines without the version marker leave the version as it was. */
  lemma {:induction false} VersionKeptWithoutMarker(st: UtilsState, lines: seq<string>)
    requires forall j :: 0 <= j < |lines| ==> !Includes(lines[j], VersionMarker)
    ensures ParseLines(st, lines).qemuVersion == st.qemuVersion
    decreases |lines|
  {
    if |lines| > 0 {
      VersionKeptWithoutMarker(ParseLine(st, lines[0]), lines[1..]);
    }
  }

  /** Lines that are not path lines leave the path as it was. */
  lemma {:induction false} PathKeptWithoutMarker(st: UtilsState, lines: seq<string>)
    requires forall j :: 0 <= j < |lines| ==> !IsPathLine(lines[j])
    ensures ParseLines(st, lines).qemuPath == st.qemuPath
    decreases |lines|
  {
    if |lines| > 0 {
      PathKeptWithoutMarker(ParseLine(st, lines[0]), lines[1..]);
    }
  }

  /** Splits `lines` around position `k`. */
  lemma ParseAround(st: UtilsState, lines: seq<string>, k: nat)
    requires k < |lines|
    ensures ParseLines(st, lines)
         == ParseLines(ParseLine(ParseLines(st, lines[..k]), lines[k]), lines[k + 1..])
  {
    assert lines == lines[..k] + ([lines[k]] + lines[k + 1..]);
    ParseLinesAppend(st, lines[..k], [lines[k]] + lines[k + 1..]);
    assert ([lines[k]] + lines[k + 1..])[1..] == lines[k + 1..];
  }

  /** The last line carrying the version marker decides the version. */
  lemma VersionFromLastMarkerLine(st: UtilsState, lines: seq<string>, k: nat)
    requires k < |lines| && Includes(lines[k], VersionMarker)
    requires forall j :: k < j < |lines| ==> !Includes(lines[j], VersionMarker)
    ensures ParseLines(st, lines).qemuVersion == Some(FieldAfter(lines[k], VersionMarker))
  {
    ParseAround(st, lines, k);
    var mid := ParseLine(ParseLines(st, lines[..k]), lines[k]);
    VersionKeptWithoutMarker(mid, lines[k + 1..]);
  }

  /** The last path line decides the path, whatever version lines come after it. */
  lemma PathFromLastPathLine(st: UtilsState, lines: seq<string>, k: nat)
    requires k < |lines| && IsPathLine(lines[k])
    requires forall j :: k < j < |lines| ==> !IsPathLine(lines[j])
    ensures ParseLines(st, lines).qemuPath == Some(FieldAfter(lines[k], PathMarker))
  {
    ParseAround(st, lines, k);
    var mid := ParseLine(ParseLines(st, lines[..k]), lines[k]);
    PathKeptWithoutMarker(mid, lines[k + 1..]);
  }

  /** A line holding both markers sets only the version. */
  lemma VersionMarkerShadowsPath(st: UtilsState, line: string)
    requires Includes(line, VersionMarker)
    ensures ParseLine(st, line).qemuPath == st.qemuPath
    ensures ParseLine(st, line).qemuVersion == Some(FieldAfter(line, VersionMarker))
  {
  }

  // ---------------------------------------------------------------------
  // Status check and installation
  // ---------------------------------------------------------------------

  /** The object the status check resolves to. */
  datatype StatusReport =
    | Available(version: Option<string>, path: Option<string>)
    | Unavailable(error: string)

  datatype StatusCheck = StatusCheck(state: UtilsState, report: StatusReport)

  /**
   * `checkQemuStatus()`, given the outcome of `scripts/qemu-manager.sh check`.
   * It never throws: a throw of the host call becomes an `Unavailable`
   * report carrying the error message.
   */
  function CheckQemuStatus(st: UtilsState, check: CallOutcome<ExecResult>): (r: StatusCheck)
    ensures r.report.Available? <==> ExitedZero(check)
    ensures r.state.qemuAvailable == r.report.Available?
    ensures r.report.Available? ==> r.report.version == r.state.qemuVersion && r.report.path == r.state.qemuPath
    ensures !r.report.Available? ==> r.state.qemuVersion == st.qemuVersion && r.state.qemuPath == st.qemuPath
    ensures check.Threw? ==> r.report == Unavailable(check.message)
    ensures check.Returned? && check.value.exitCode != 0 ==> r.report == Unavailable(check.value.stdErr)
  {
    match check
    case Threw(msg) => StatusCheck(st.(qemuAvailable := false), Unavailable(msg))
    case Returned(res) =>
      if res.exitCode == 0 then
        var parsed := ParseOutput(st.(qemuAvailable := true), res.stdOut);
        StatusCheck(parsed, Available(parsed.qemuVersion, parsed.qemuPath))
      else
        StatusCheck(st.(qemuAvailable := false), Unavailable(res.stdErr))
  }

  /** A successful check takes version and path from the last lines naming them, keeping older values otherwise. */
  lemma CheckParsesOutput(st: UtilsState, res: ExecResult)
    requires res.exitCode == 0
    ensures var r := CheckQemuStatus(st, Returned(res));
      && r.state == ParseOutput(st.(qemuAvailable := true), res.stdOut)
      && r.state.qemuAvailable
  {
  }

  /**
   * `installQemu()`, given the outcome of `scripts/qemu-manager.sh install`
   * and, for the status check it runs after a successful install, the
   * outcome of `scripts/qemu-manager.sh check`.
   */
  function InstallQemu(st: UtilsState, install: CallOutcome<ExecResult>, check: CallOutcome<ExecResult>): (r: StatusCheck)
    ensures !ExitedZero(install) ==> r.state == st && r.report.Unavailable?
    ensures install.Threw? ==> r.report == Unavailable(install.message)
    ensures install.Returned? && install.value.exitCode != 0 ==> r.report == Unavailable(install.value.stdErr)
    ensures ExitedZero(install) ==> r == CheckQemuStatus(st, check)
  {
    match install
    case Threw(msg) => StatusCheck(st, Unavailable(msg))
    case Returned(res) =>
      if res.exitCode == 0 then CheckQemuStatus(st, check)
      else StatusCheck(st, Unavailable(res.stdErr))
  }

  /** A failed install leaves availability as it was, even when it was true. */
  lemma FailedInstallKeepsAvailability(st: UtilsState, install: CallOutcome<ExecResult>, check: CallOutcome<ExecResult>)
    requires !ExitedZero(install)
    ensures InstallQemu(st, install, check).state.qemuAvailable == st.qemuAvailable
  {
  }

  /** After a successful install, the report is available exactly when the re-check's script exits 0. */
  lemma InstallThenAvailable(st: UtilsState, install: CallOutcome<ExecResult>, check: CallOutcome<ExecResult>)
    requires ExitedZero(install)
    ensures InstallQemu(st, install, check).report.Available? <==> ExitedZero(check)
    ensures InstallQemu(st, install, check).state.qemuAvailable <==> ExitedZero(check)
  {
  }

  // ---------------------------------------------------------------------
  // Queries
  // ---------------------------------------------------------------------

  /** `getQemuVersion()` and `getQemuPath()`: the trimmed output when the script exits 0, else `null`. */
  function TrimmedOutput(call: CallOutcome<ExecResult>): (r: Option<string>)
    ensures r.Some? <==> ExitedZero(call)
    ensures r.Some? ==> r.value == [] || (!IsSpace(r.value[0]) && !IsSpace(r.value[|r.value| - 1]))
    ensures r.Some? ==> exists lead, trail :: AllSpace(lead) && AllSpace(trail) && call.value.stdOut == lead + r.value + trail
  {
    if ExitedZero(call) then
      TrimSurrounds(call.value.stdOut);
      Some(Trim(call.value.stdOut))
    else None
  }

  /** Asking twice gives nothing new: the answer is already trimmed. */
  lemma TrimmedOutputStable(call: CallOutcome<ExecResult>)
    requires ExitedZero(call)
    ensures Trim(TrimmedOutput(call).value) == TrimmedOutput(call).value
  {
    TrimIdempotent(call.value.stdOut);
  }

  // ---------------------------------------------------------------------
  // Launching QEMU
  // ---------------------------------------------------------------------

  const NotAvailableError: string := "QEMU не доступен"
  const PathNotFoundError: string := "Путь к QEMU не найден"
  const LaunchErrorPrefix: string := "Ошибка запуска QEMU: "

  /** `${qemuPath} ${params.join(' ')}`. */
  function LaunchCommand(path: string, params: seq<string>): string {
    path + " " + Join(params, " ")
  }

  /** What `runQemu` did: its result, and the command handed to `spawnProcess`, if it got that far. */
  datatype Launch = Launch(result: Result<SpawnedProcess>, spawned: Option<string>)

  /**
   * `runQemu(params)`, given the outcome of the path query it makes and
   * of the spawn. The path query runs only when QEMU is available; an
   * empty path is rejected as missing, like `null`.
   */
  function RunQemu(st: UtilsState, pathQuery: CallOutcome<ExecResult>, params: seq<string>, spawn: CallOutcome<SpawnedProcess>): (r: Launch)
    ensures !st.qemuAvailable ==> r == Launch(Err(NotAvailableError), None)
    ensures st.qemuAvailable && (TrimmedOutput(pathQuery).None? || TrimmedOutput(pathQuery).value == "")
        ==> r == Launch(Err(PathNotFoundError), None)
    ensures r.spawned.Some? <==> st.qemuAvailable && TrimmedOutput(pathQuery).Some? && TrimmedOutput(pathQuery).value != ""
    ensures r.spawned.Some? ==> r.spawned.value == LaunchCommand(TrimmedOutput(pathQuery).value, params)
    ensures r.result.Ok? <==> r.spawned.Some? && spawn.Returned?
    ensures r.result.Ok? ==> r.result.value == spawn.value
    ensures r.spawned.Some? && spawn.Threw? ==> r.result == Err(LaunchErrorPrefix + spawn.message)
  {
    if !st.qemuAvailable then Launch(Err(NotAvailableError), None)
    else
      var path := TrimmedOutput(pathQuery);
      if path.None? || path.value == "" then Launch(Err(PathNotFoundError), None)
      else
        var command := LaunchCommand(path.value, params);
        match spawn
        case Returned(p) => Launch(Ok(p), Some(command))
        case Threw(msg) => Launch(Err(LaunchErrorPrefix + msg), Some(command))
  }

  /**
   * Splitting the launch command at spaces gives back the path and the
   * parameters, when none of them holds a space. With no parameters the
   * command ends in a space, which splits off an empty last piece.
   */
  lemma LaunchCommandSplits(path: string, params: seq<string>)
    requires ' ' !in path
    requires forall i :: 0 <= i < |params| ==> ' ' !in params[i]
    ensures Split(LaunchCommand(path, params), " ") == [path] + (if |params| == 0 then [""] else params)
  {
    var parts := [path] + (if |params| == 0 then [""] else params);
    assert parts[1..] == (if |params| == 0 then [""] else params);
    if |params| == 0 {
      assert Join(parts, " ") == path + " " + "";
    }
    assert Join(parts, " ") == LaunchCommand(path, params);
    SplitJoin(parts, " ");
  }

  // ---------------------------------------------------------------------
  // The pid file
  // ---------------------------------------------------------------------

  /** The shell test that the pid file exists and names a live process. */
  function PidProbeCommand(pidFile: string): string {
    "test -f " + pidFile + " && ps -p $(cat " + pidFile + ") > /dev/null 2>&1"
  }

  /** What `stopVM` did: its result, and the commands it issued, in order. */
  datatype StopOutcome = StopOutcome(stopped: bool, commands: seq<string>)

  /**
   * `stopVM(pidFile)`, given the outcomes of its four host calls: the
   * probe, `cat` of the pid file, `kill` of the pid read, and `rm -f` of
   * the pid file. A call that is never made has its outcome ignored.
   */
  function StopVM(pidFile: string, probe: CallOutcome<ExecResult>, cat: CallOutcome<ExecResult>,
                  kill: CallOutcome<ExecResult>, rm: CallOutcome<ExecResult>): (r: StopOutcome)
    ensures 1 <= |r.commands| <= 4 && r.commands[0] == PidProbeCommand(pidFile)
    ensures |r.commands| >= 2 <==> ExitedZero(probe)
    ensures |r.commands| >= 2 ==> r.commands[1] == "cat " + pidFile
    ensures |r.commands| >= 3 <==> ExitedZero(probe) && cat.Returned?
    ensures |r.commands| >= 3 ==> r.commands[2] == "kill " + Trim(cat.value.stdOut)
    ensures |r.commands| == 4 <==> ExitedZero(probe) && cat.Returned? && kill.Returned?
    ensures |r.commands| == 4 ==> r.commands[3] == "rm -f " + pidFile
    ensures r.stopped <==> |r.commands| == 4 && rm.Returned?
  {
    var probeCmd := PidProbeCommand(pidFile);
    if !ExitedZero(probe) then StopOutcome(false, [probeCmd])
    else match cat
      case Threw(_) => StopOutcome(false, [probeCmd, "cat " + pidFile])
      case Returned(pid) =>
        var killCmd := "kill " + Trim(pid.stdOut);
        match kill
        case Threw(_) => StopOutcome(false, [probeCmd, "cat " + pidFile, killCmd])
        case Returned(_) =>
          var rmCmd := "rm -f " + pidFile;
          match rm
          case Threw(_) => StopOutcome(false, [probeCmd, "cat " + pidFile, killCmd, rmCmd])
          case Returned(_) => StopOutcome(true, [probeCmd, "cat " + pidFile, killCmd, rmCmd])
  }

  /**
   * Exit codes after the probe are never consulted: a `cat` or `kill`
   * that fails without throwing still leads to removing the pid file and
   * reporting success.
   */
  lemma StopIgnoresExitCodes(pidFile: string, probe: CallOutcome<ExecResult>, cat: ExecResult, kill: ExecResult, rm: ExecResult,
                             cat2: ExecResult, kill2: ExecResult, rm2: ExecResult)
    requires cat2.stdOut == cat.stdOut
    ensures StopVM(pidFile, probe, Returned(cat), Returned(kill), Returned(rm))
         == StopVM(pidFile, probe, Returned(cat2), Returned(kill2), Returned(rm2))
    ensures StopVM(pidFile, probe, Returned(cat), Returned(kill), Returned(rm)).stopped <==> ExitedZero(probe)
  {
  }
}
