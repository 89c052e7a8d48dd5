/**
 * The VM lifecycle of the application template (`DesqemuApp` in
 * `templates/neutralino-app`): installing QEMU, start, stop, restart, the five-second
 * status poller and closing the window, as transitions of the fields
 * `vmStatus`, `qemuAvailable` and `qemuProcess`.
 *
 * This variant launches QEMU with `spawnProcess` and checks it with
 * `pgrep`; every failure it meets ends in `stopped`, so it never
 * publishes `error`.
 */
module TemplateApp {
  import opened Wrappers
  import opened JsStrings
  import opened OsCalls
  import opened Lifecycle
  import QemuDetection

  datatype AppState = AppState(vmStatus: VmStatus, qemuAvailable: bool, qemuProcess: Option<SpawnedProcess>)

  /** The state the constructor sets up. */
  const Initial: AppState := AppState(Stopped, false, None)

  const QcowPath: string := "resources/qcow2/penpot-microvm.qcow2"

  /** `buildQemuCommand()`: a fixed multi-line command, its lines joined by a backslash, a line feed and twelve spaces. */
  const LaunchCommand: string :=
    "qemu-system-x86_64 \\\n"
    + "            -m 1G \\\n"
    + "            -smp 2 \\\n"
    + "            -netdev user,id=net0,hostfwd=tcp::8080-:8080,hostfwd=tcp::5900-:5900,hostfwd=tcp::6900-:6900,hostfwd=tcp::2222-:22 \\\n"
    + "            -device e1000,netdev=net0 \\\n"
    + "            -vnc :0,password \\\n"
    + "            -monitor stdio \\\n"
    + "            -daemonize \\\n"
    + "            -pidfile /tmp/desqemu-penpot.pid \\\n"
    + "            -drive file=" + QcowPath + ",format=qcow2,if=virtio"

  const WebsockifyCommand: string := "websockify --web=/dev/null 6900 localhost:5900"
  const StopWebsockifyCommand: string := "pkill -f \"websockify.*6900\""
  const PkillCommand: string := "pkill -f \"qemu-system-x86_64.*penpot\""
  const ProbeCommand: string := "pgrep -f \"qemu-system-x86_64.*penpot\""

  /** `kill ${this.qemuProcess.pid}`. */
  function KillCommand(p: SpawnedProcess): string {
    "kill " + IntToDecimal(p.pid)
  }

  /** `startWebsockifyProxy()`: never throws; true exactly when the spawn returned. */
  function StartWebsockifyProxy(spawn: CallOutcome<SpawnedProcess>): (started: bool)
    ensures started <==> spawn.Returned?
  {
    spawn.Returned?
  }

  /** `checkQemuStatus()`: availability follows the detection; the VM fields are untouched. */
  function CheckQemuStatus(s: AppState, versionCall: CallOutcome<ExecResult>, whichCall: CallOutcome<ExecResult>): (r: Run<AppState>)
    ensures r.state.qemuAvailable <==> QemuDetection.DetectQemu(versionCall, whichCall).Found?
    ensures r.state.vmStatus == s.vmStatus && r.state.qemuProcess == s.qemuProcess && r.statuses == []
    ensures r.commands == QemuDetection.DetectionCommands(versionCall)
  {
    var found := QemuDetection.DetectQemu(versionCall, whichCall).Found?;
    Run(s.(qemuAvailable := found), [], QemuDetection.DetectionCommands(versionCall))
  }

  /**
   * `startMicroVM()`, given the outcomes of the proxy spawn, the QEMU
   * spawn and the probe three seconds later. Without QEMU it does
   * nothing. Otherwise it publishes `starting`, then `running` if the
   * spawn returned and the probe finds the VM, and `stopped` in every
   * other case. The handle is kept whenever the spawn returned.
   */
  function StartMicroVM(s: AppState, proxy: CallOutcome<SpawnedProcess>, spawn: CallOutcome<SpawnedProcess>, probe: CallOutcome<ExecResult>): (r: Run<AppState>)
    ensures !s.qemuAvailable ==> r == Run(s, [], [])
    ensures s.qemuAvailable ==> |r.statuses| == 2 && r.statuses[0] == Starting
    ensures s.qemuAvailable ==> (r.state.vmStatus == Running <==> spawn.Returned? && ExitedZero(probe))
    ensures s.qemuAvailable ==> r.state.vmStatus in {Running, Stopped}
    ensures r.state.vmStatus == After(s.vmStatus, r.statuses)
    ensures r.state.qemuAvailable == s.qemuAvailable
    ensures s.qemuAvailable ==> r.state.qemuProcess == (if spawn.Returned? then Some(spawn.value) else s.qemuProcess)
    ensures s.qemuAvailable ==> 2 <= |r.commands| <= 3 && r.commands[..2] == [WebsockifyCommand, LaunchCommand]
    ensures s.qemuAvailable ==> (|r.commands| == 3 <==> spawn.Returned?)
  {
    if !s.qemuAvailable then Run(s, [], [])
    else
      var _ := StartWebsockifyProxy(proxy);
      match spawn
      case Threw(_) =>
        Run(s.(vmStatus := Stopped), [Starting, Stopped], [WebsockifyCommand, LaunchCommand])
      case Returned(p) =>
        var final := if ExitedZero(probe) then Running else Stopped;
        Run(s.(vmStatus := final, qemuProcess := Some(p)), [Starting, final], [WebsockifyCommand, LaunchCommand, ProbeCommand])
  }

  /** A websockify failure changes nothing about the start. */
  lemma StartIgnoresProxy(s: AppState, proxy1: CallOutcome<SpawnedProcess>, proxy2: CallOutcome<SpawnedProcess>,
                          spawn: CallOutcome<SpawnedProcess>, probe: CallOutcome<ExecResult>)
    ensures StartMicroVM(s, proxy1, spawn, probe) == StartMicroVM(s, proxy2, spawn, probe)
  {
  }

  /**
   * `stopMicroVM()`, given the outcomes of `kill <pid>` (issued only when
   * a handle is held), `pkill` and the websockify stop. A throw of the
   * kill leaves everything as it was; the other two are swallowed. On
   * success the status is `stopped` and the handle is dropped.
   */
  function StopMicroVM(s: AppState, kill: CallOutcome<ExecResult>, pkill: CallOutcome<ExecResult>, proxyStop: CallOutcome<ExecResult>): (r: Run<AppState>)
    ensures s.qemuProcess.Some? && kill.Threw? ==> r == Run(s, [], [KillCommand(s.qemuProcess.value)])
    ensures s.qemuProcess.None? || kill.Returned? ==> r.state == AppState(Stopped, s.qemuAvailable, None) && r.statuses == [Stopped]
    ensures s.qemuProcess.None? ==> r.commands == [PkillCommand, StopWebsockifyCommand]
    ensures s.qemuProcess.Some? && kill.Returned? ==> r.commands == [KillCommand(s.qemuProcess.value), PkillCommand, StopWebsockifyCommand]
    ensures r.state.vmStatus == After(s.vmStatus, r.statuses)
  {
    var killed := if s.qemuProcess.Some? then [KillCommand(s.qemuProcess.value)] else [];
    if s.qemuProcess.Some? && kill.Threw? then Run(s, [], killed)
    else Run(AppState(Stopped, s.qemuAvailable, None), [Stopped], killed + [PkillCommand, StopWebsockifyCommand])
  }

  /** Once a stop has gone through, stopping again cannot fail and changes nothing. */
  lemma StopIdempotent(s: AppState, kill: CallOutcome<ExecResult>, pkill: CallOutcome<ExecResult>, proxyStop: CallOutcome<ExecResult>,
                       kill2: CallOutcome<ExecResult>, pkill2: CallOutcome<ExecResult>, proxyStop2: CallOutcome<ExecResult>)
    requires s.qemuProcess.None? || kill.Returned?
    ensures var once := StopMicroVM(s, kill, pkill, proxyStop).state;
      StopMicroVM(once, kill2, pkill2, proxyStop2).state == once
  {
  }

  /** `restartMicroVM()`: stop, a one-second pause, then start. */
  function RestartMicroVM(s: AppState, kill: CallOutcome<ExecResult>, pkill: CallOutcome<ExecResult>, proxyStop: CallOutcome<ExecResult>,
                          proxy: CallOutcome<SpawnedProcess>, spawn: CallOutcome<SpawnedProcess>, probe: CallOutcome<ExecResult>): (r: Run<AppState>)
    ensures r.state.vmStatus == After(s.vmStatus, r.statuses)
    ensures r.state.qemuAvailable == s.qemuAvailable
  {
    var stop := StopMicroVM(s, kill, pkill, proxyStop);
    var start := StartMicroVM(stop.state, proxy, spawn, probe);
    AfterAppend(s.vmStatus, stop.statuses, start.statuses);
    Then(stop, start)
  }

  /** With QEMU available a restart ends `running` or `stopped`, and `running` only when the new spawn returned and the probe saw it. */
  lemma RestartOutcome(s: AppState, kill: CallOutcome<ExecResult>, pkill: CallOutcome<ExecResult>, proxyStop: CallOutcome<ExecResult>,
                       proxy: CallOutcome<SpawnedProcess>, spawn: CallOutcome<SpawnedProcess>, probe: CallOutcome<ExecResult>)
    requires s.qemuAvailable
    ensures var r := RestartMicroVM(s, kill, pkill, proxyStop, proxy, spawn, probe);
      && r.state.vmStatus in {Running, Stopped}
      && (r.state.vmStatus == Running <==> spawn.Returned? && ExitedZero(probe))
      && r.state.vmStatus == After(s.vmStatus, r.statuses)
  {
    var stop := StopMicroVM(s, kill, pkill, proxyStop);
    var start := StartMicroVM(stop.state, proxy, spawn, probe);
    AfterAppend(s.vmStatus, stop.statuses, start.statuses);
  }

  /**
   * One poller tick: only a `running` VM is probed, and a failed probe
   * demotes it to `stopped`. The handle is kept.
   */
  function Tick(s: AppState, probe: CallOutcome<ExecResult>): (r: Run<AppState>)
    ensures s.vmStatus != Running ==> r == Run(s, [], [])
    ensures s.vmStatus == Running ==> r.commands == [ProbeCommand]
    ensures r.state.vmStatus != s.vmStatus <==> s.vmStatus == Running && !ExitedZero(probe)
    ensures r.state.vmStatus == Running ==> s.vmStatus == Running
    ensures r.state.vmStatus in {s.vmStatus, Stopped}
    ensures r.state.qemuAvailable == s.qemuAvailable && r.state.qemuProcess == s.qemuProcess
    ensures r.state.vmStatus == After(s.vmStatus, r.statuses)
  {
    if s.vmStatus != Running then Run(s, [], [])
    else if ExitedZero(probe) then Run(s, [], [ProbeCommand])
    else Run(s.(vmStatus := Stopped), [Stopped], [ProbeCommand])
  }

  /** A second tick with the same probe result changes nothing more. */
  lemma TickIdempotent(s: AppState, probe: CallOutcome<ExecResult>)
    ensures Tick(Tick(s, probe).state, probe).state == Tick(s, probe).state
  {
  }

  /** What closing the window did: the run of the stop, if any, and whether the application exits. */
  datatype Closing = Closing(run: Run<AppState>, exits: bool)

  /**
   * `handleAppClose()`: with the VM `running` it asks whether to stop it
   * and stops it on `YES`; then it exits. A throw of the dialog rejects
   * the handler before the exit.
   */
  function HandleAppClose(s: AppState, answer: CallOutcome<string>,
                          kill: CallOutcome<ExecResult>, pkill: CallOutcome<ExecResult>, proxyStop: CallOutcome<ExecResult>): (r: Closing)
    ensures s.vmStatus != Running ==> r == Closing(Run(s, [], []), true)
    ensures s.vmStatus == Running && answer == Returned("YES") ==> r == Closing(StopMicroVM(s, kill, pkill, proxyStop), true)
    ensures s.vmStatus == Running && answer.Returned? && answer.value != "YES" ==> r == Closing(Run(s, [], []), true)
    ensures s.vmStatus == Running && answer.Threw? ==> r == Closing(Run(s, [], []), false)
    ensures r.exits <==> s.vmStatus != Running || answer.Returned?
  {
    if s.vmStatus != Running then Closing(Run(s, [], []), true)
    else match answer
      case Threw(_) => Closing(Run(s, [], []), false)
      case Returned(a) =>
        if a == "YES" then Closing(StopMicroVM(s, kill, pkill, proxyStop), true)
        else Closing(Run(s, [], []), true)
  }

  /** The command `installQemu()` handed to `execCommand`, if it got that far; opening the download page is not one. */
  function InstallCommands(i: QemuDetection.InstallRun): seq<string> {
    if i.issued.Some? && i.issued.value in {QemuDetection.HomebrewCommand, QemuDetection.AptCommand} then [i.issued.value] else []
  }

  /**
   * `installQemu()` as an operation on the application: the installer
   * shared with the desktop application, followed by `checkQemuStatus()`
   * when the install command exited 0. Only that check changes the state.
   */
  function InstallQemu(s: AppState, platformCall: CallOutcome<string>, openCall: CallOutcome<()>, installCall: CallOutcome<ExecResult>,
                       versionCall: CallOutcome<ExecResult>, whichCall: CallOutcome<ExecResult>): (r: Run<AppState>)
    ensures r.statuses == [] && r.state.vmStatus == s.vmStatus && r.state.qemuProcess == s.qemuProcess
    ensures QemuDetection.InstallQemu(platformCall, openCall, installCall).recheck
      ==> (r.state.qemuAvailable <==> QemuDetection.DetectQemu(versionCall, whichCall).Found?)
    ensures !QemuDetection.InstallQemu(platformCall, openCall, installCall).recheck ==> r.state == s
    ensures |r.commands| >= 1 <==> platformCall.Returned? && QemuDetection.Dispatch(platformCall.value) in {QemuDetection.Homebrew, QemuDetection.Apt}
    ensures |r.commands| >= 1 ==> r.commands[0] == QemuDetection.InstallQemu(platformCall, openCall, installCall).issued.value
  {
    var install := QemuDetection.InstallQemu(platformCall, openCall, installCall);
    if install.recheck then
      var check := CheckQemuStatus(s, versionCall, whichCall);
      Run(check.state, [], InstallCommands(install) + check.commands)
    else Run(s, [], InstallCommands(install))
  }

  // ---------------------------------------------------------------------
  // Any sequence of operations
  // ---------------------------------------------------------------------

  /**
   * One operation on the application, with the outcomes of the host calls
   * it makes. Events after a close that exits cannot happen; allowing them
   * only makes the lemmas below cover more.
   */
  datatype Event =
    | CheckEvent(versionCall: CallOutcome<ExecResult>, whichCall: CallOutcome<ExecResult>)
    | StartEvent(proxy: CallOutcome<SpawnedProcess>, spawn: CallOutcome<SpawnedProcess>, startProbe: CallOutcome<ExecResult>)
    | StopEvent(kill: CallOutcome<ExecResult>, pkill: CallOutcome<ExecResult>, proxyStop: CallOutcome<ExecResult>)
    | RestartEvent(rKill: CallOutcome<ExecResult>, rPkill: CallOutcome<ExecResult>, rProxyStop: CallOutcome<ExecResult>,
                   rProxy: CallOutcome<SpawnedProcess>, rSpawn: CallOutcome<SpawnedProcess>, rProbe: CallOutcome<ExecResult>)
    | TickEvent(tickProbe: CallOutcome<ExecResult>)
    | InstallEvent(platformCall: CallOutcome<string>, openCall: CallOutcome<()>, installCall: CallOutcome<ExecResult>,
                   iVersionCall: CallOutcome<ExecResult>, iWhichCall: CallOutcome<ExecResult>)
    | CloseEvent(answer: CallOutcome<string>, cKill: CallOutcome<ExecResult>, cPkill: CallOutcome<ExecResult>, cProxyStop: CallOutcome<ExecResult>)

  function Step(s: AppState, e: Event): Run<AppState> {
    match e
    case CheckEvent(v, w) => CheckQemuStatus(s, v, w)
    case StartEvent(proxy, spawn, probe) => StartMicroVM(s, proxy, spawn, probe)
    case StopEvent(kill, pkill, proxyStop) => StopMicroVM(s, kill, pkill, proxyStop)
    case RestartEvent(kill, pkill, proxyStop, proxy, spawn, probe) => RestartMicroVM(s, kill, pkill, proxyStop, proxy, spawn, probe)
    case TickEvent(probe) => Tick(s, probe)
    case InstallEvent(platformCall, openCall, installCall, v, w) => InstallQemu(s, platformCall, openCall, installCall, v, w)
    case CloseEvent(answer, kill, pkill, proxyStop) => HandleAppClose(s, answer, kill, pkill, proxyStop).run
  }

  /** The operations performed one after another. */
  function Replay(s: AppState, events: seq<Event>): Run<AppState>
    decreases |events|
  {
    if |events| == 0 then Run(s, [], [])
    else
      var first := Step(s, events[0]);
      Then(first, Replay(first.state, events[1..]))
  }

  /** A single operation never publishes `error`. */
  lemma StepNeverErrors(s: AppState, e: Event)
    ensures Error !in Step(s, e).statuses
    ensures s.vmStatus != Error ==> Step(s, e).state.vmStatus != Error
  {
    if e.RestartEvent? {
      var stop := StopMicroVM(s, e.rKill, e.rPkill, e.rProxyStop);
      var start := StartMicroVM(stop.state, e.rProxy, e.rSpawn, e.rProbe);
      assert Error !in stop.statuses + start.statuses;
    }
  }

  /** From a state that is not `error`, no sequence of operations ever publishes or reaches `error`. */
  lemma {:induction false} NeverErrors(s: AppState, events: seq<Event>)
    requires s.vmStatus != Error
    ensures Error !in Replay(s, events).statuses
    ensures Replay(s, events).state.vmStatus != Error
    decreases |events|
  {
    if |events| > 0 {
      var first := Step(s, events[0]);
      StepNeverErrors(s, events[0]);
      NeverErrors(first.state, events[1..]);
    }
  }

  /** In particular the application as constructed never reaches `error`. */
  lemma InitialNeverErrors(events: seq<Event>)
    ensures Error !in Replay(Initial, events).statuses
  {
    NeverErrors(Initial, events);
  }
}
