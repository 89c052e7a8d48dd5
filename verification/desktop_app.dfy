/**
 * The VM lifecycle of the desktop application (`DesqemuApp` in
 * `desqemu-desktop`): start, the noVNC proxy, stop, restart, the
 * five-second status poller and closing the window, as transitions of
 * `vmStatus`, `qemuAvailable`, `qemuProcess` and `novncProcess`.
 *
 * This variant launches QEMU with `execCommand` and a daemonizing
 * command, so start waits for the exit code; a failed start publishes
 * `error`. Its poller both promotes and demotes.
 */
module DesktopApp {
  import opened Wrappers
  import opened OsCalls
  import opened Lifecycle
  import QemuDetection

  datatype AppState = AppState(
    vmStatus: VmStatus,
    qemuAvailable: bool,
    /** The result of the launch command, kept once the command returned. */
    qemuProcess: Option<ExecResult>,
    /** The result of the proxy script, kept while the proxy is believed to run. */
    novncProcess: Option<ExecResult>)

  const QcowPath: string := "resources/qcow2/alpine-bootable.qcow2"

  /** `buildQemuCommand()`: a fixed command that daemonizes QEMU with VNC display 1. */
  const LaunchCommand: string :=
    "qemu-system-x86_64 -m 1G -smp 2 -vnc :1 -drive file=\"" + QcowPath + "\",format=qcow2,if=virtio -daemonize"

  const NoVncScript: string := "./start-novnc-proxy.sh"
  const StopNoVncCommand: string := "pkill -f novnc_proxy"
  const PkillCommand: string := "pkill -f \"qemu-system-x86_64\""
  const ProbeCommand: string := "pgrep -f \"qemu-system-x86_64\""

  /** `checkQemuStatus()`: availability follows the detection; nothing else changes. */
  function CheckQemuStatus(s: AppState, versionCall: CallOutcome<ExecResult>, whichCall: CallOutcome<ExecResult>): (r: Run<AppState>)
    ensures r.state.qemuAvailable <==> QemuDetection.DetectQemu(versionCall, whichCall).Found?
    ensures r.state.(qemuAvailable := s.qemuAvailable) == s && r.statuses == []
    ensures r.commands == QemuDetection.DetectionCommands(versionCall)
  {
    var found := QemuDetection.DetectQemu(versionCall, whichCall).Found?;
    Run(s.(qemuAvailable := found), [], QemuDetection.DetectionCommands(versionCall))
  }

  /**
   * `startNoVNCProxy()`: runs the proxy script and keeps its result when
   * it exits 0. It never throws and never touches the status.
   */
  function StartNoVNCProxy(s: AppState, script: CallOutcome<ExecResult>): (r: Run<AppState>)
    ensures r.state.novncProcess == (if ExitedZero(script) then Some(script.value) else s.novncProcess)
    ensures r.state.(novncProcess := s.novncProcess) == s
    ensures r.statuses == [] && r.commands == [NoVncScript]
  {
    var novnc := if ExitedZero(script) then Some(script.value) else s.novncProcess;
    Run(s.(novncProcess := novnc), [], [NoVncScript])
  }

  /** The proxy handle changes only to the result of a script that exited 0. */
  lemma NoVncSetOnlyOnSuccess(s: AppState, script: CallOutcome<ExecResult>)
    ensures var after := StartNoVNCProxy(s, script).state.novncProcess;
      after != s.novncProcess ==> ExitedZero(script) && after == Some(script.value)
  {
  }

  /**
   * `startMicroVM()`, given the outcomes of the launch command and of the
   * proxy script. Without QEMU it does nothing. Otherwise it publishes
   * `starting`, then `running` when the launch exits 0 and `error` when
   * it exits otherwise or throws.
   */
  function StartMicroVM(s: AppState, launch: CallOutcome<ExecResult>, script: CallOutcome<ExecResult>): (r: Run<AppState>)
    ensures !s.qemuAvailable ==> r == Run(s, [], [])
    ensures s.qemuAvailable ==> |r.statuses| == 2 && r.statuses[0] == Starting
    ensures s.qemuAvailable ==> (r.state.vmStatus == Running <==> ExitedZero(launch))
    ensures s.qemuAvailable ==> (r.state.vmStatus == Error <==> !ExitedZero(launch))
    ensures r.state.vmStatus == After(s.vmStatus, r.statuses)
    ensures r.state.qemuAvailable == s.qemuAvailable
    ensures s.qemuAvailable ==> r.state.qemuProcess == (if launch.Returned? then Some(launch.value) else s.qemuProcess)
    ensures s.qemuAvailable ==> 1 <= |r.commands| <= 2 && r.commands[0] == LaunchCommand
    ensures s.qemuAvailable ==> (|r.commands| == 2 <==> ExitedZero(launch))
    ensures r.state.novncProcess != s.novncProcess ==> ExitedZero(launch) && ExitedZero(script)
  {
    if !s.qemuAvailable then Run(s, [], [])
    else match launch
      case Threw(_) => Run(s.(vmStatus := Error), [Starting, Error], [LaunchCommand])
      case Returned(res) =>
        var launched := s.(qemuProcess := Some(res));
        if res.exitCode == 0 then
          var proxy := StartNoVNCProxy(launched, script);
          Run(proxy.state.(vmStatus := Running), [Starting, Running], [LaunchCommand] + proxy.commands)
        else Run(launched.(vmStatus := Error), [Starting, Error], [LaunchCommand])
  }

  /** The proxy script's outcome never decides the status a start ends in. */
  lemma ProxyNeverBlocksRunning(s: AppState, launch: CallOutcome<ExecResult>, script1: CallOutcome<ExecResult>, script2: CallOutcome<ExecResult>)
    ensures StartMicroVM(s, launch, script1).state.vmStatus == StartMicroVM(s, launch, script2).state.vmStatus
    ensures StartMicroVM(s, launch, script1).statuses == StartMicroVM(s, launch, script2).statuses
  {
  }

  /** `stopNoVNCProxy()`: with a proxy held, kills it and drops the handle unless the kill throws. */
  function StopNoVNCProxy(s: AppState, kill: CallOutcome<ExecResult>): (r: Run<AppState>)
    ensures s.novncProcess.None? ==> r == Run(s, [], [])
    ensures s.novncProcess.Some? ==> r.commands == [StopNoVncCommand]
    ensures r.state.novncProcess == (if s.novncProcess.Some? && kill.Threw? then s.novncProcess else None)
    ensures r.state.(novncProcess := s.novncProcess) == s && r.statuses == []
  {
    if s.novncProcess.None? then Run(s, [], [])
    else if kill.Threw? then Run(s, [], [StopNoVncCommand])
    else Run(s.(novncProcess := None), [], [StopNoVncCommand])
  }

  /** Stopping the proxy twice, with the same outcome, leaves the same state as stopping it once. */
  lemma StopNoVNCTwice(s: AppState, kill: CallOutcome<ExecResult>)
    ensures var once := StopNoVNCProxy(s, kill).state;
      StopNoVNCProxy(once, kill).state == once
  {
  }

  /**
   * `stopMicroVM()`, given the outcomes of `pkill` and of the proxy kill.
   * It publishes `stopping` first. A throw of `pkill` ends it there;
   * otherwise it stops the proxy and publishes `stopped`. The launch
   * result is never dropped.
   */
  function StopMicroVM(s: AppState, pkill: CallOutcome<ExecResult>, proxyKill: CallOutcome<ExecResult>): (r: Run<AppState>)
    ensures 1 <= |r.statuses| <= 2 && r.statuses[0] == Stopping
    ensures r.state.vmStatus == (if pkill.Threw? then Stopping else Stopped)
    ensures r.state.vmStatus == After(s.vmStatus, r.statuses)
    ensures r.state.qemuAvailable == s.qemuAvailable && r.state.qemuProcess == s.qemuProcess
    ensures pkill.Threw? ==> r.state.novncProcess == s.novncProcess && r.commands == [PkillCommand]
    ensures pkill.Returned? ==> r.state.novncProcess == StopNoVNCProxy(s, proxyKill).state.novncProcess
    ensures |r.commands| >= 1 && r.commands[0] == PkillCommand
  {
    var stopping := s.(vmStatus := Stopping);
    if pkill.Threw? then Run(stopping, [Stopping], [PkillCommand])
    else
      var proxy := StopNoVNCProxy(stopping, proxyKill);
      Run(proxy.state.(vmStatus := Stopped), [Stopping, Stopped], [PkillCommand] + proxy.commands)
  }

  /** A throwing `pkill` leaves the VM `stopping`, and no poller tick will ever move it from there. */
  lemma StopStuckInStopping(s: AppState, pkill: CallOutcome<ExecResult>, proxyKill: CallOutcome<ExecResult>, probe: CallOutcome<ExecResult>)
    requires pkill.Threw?
    ensures var stuck := StopMicroVM(s, pkill, proxyKill).state;
      stuck.vmStatus == Stopping && Tick(stuck, probe).state == stuck
  {
  }

  /** `restartMicroVM()`: stop, a two-second pause, then start. */
  function RestartMicroVM(s: AppState, pkill: CallOutcome<ExecResult>, proxyKill: CallOutcome<ExecResult>,
                          launch: CallOutcome<ExecResult>, script: CallOutcome<ExecResult>): (r: Run<AppState>)
    ensures r.state.vmStatus == After(s.vmStatus, r.statuses)
    ensures r.state.qemuAvailable == s.qemuAvailable
  {
    var stop := StopMicroVM(s, pkill, proxyKill);
    var start := StartMicroVM(stop.state, launch, script);
    AfterAppend(s.vmStatus, stop.statuses, start.statuses);
    Then(stop, start)
  }

  /** With QEMU available a restart ends `running` when the new launch exits 0 and `error` otherwise. */
  lemma RestartOutcome(s: AppState, pkill: CallOutcome<ExecResult>, proxyKill: CallOutcome<ExecResult>,
                       launch: CallOutcome<ExecResult>, script: CallOutcome<ExecResult>)
    requires s.qemuAvailable
    ensures var r := RestartMicroVM(s, pkill, proxyKill, launch, script);
      && r.state.vmStatus in {Running, Error}
      && (r.state.vmStatus == Running <==> ExitedZero(launch))
      && r.statuses[0] == Stopping
      && r.state.vmStatus == After(s.vmStatus, r.statuses)
  {
    var stop := StopMicroVM(s, pkill, proxyKill);
    var start := StartMicroVM(stop.state, launch, script);
    AfterAppend(s.vmStatus, stop.statuses, start.statuses);
  }

  /** Without QEMU a restart ends where its stop left off: `stopped`, or `stopping` if `pkill` threw. */
  lemma RestartUnavailable(s: AppState, pkill: CallOutcome<ExecResult>, proxyKill: CallOutcome<ExecResult>,
                           launch: CallOutcome<ExecResult>, script: CallOutcome<ExecResult>)
    requires !s.qemuAvailable
    ensures RestartMicroVM(s, pkill, proxyKill, launch, script).state.vmStatus == (if pkill.Threw? then Stopping else Stopped)
  {
  }

  /**
   * One poller tick: the probe always runs. A live VM promotes `stopped`
   * to `running`, a dead one demotes `running` to `stopped`, and every
   * other pair is left alone. The proxy handle is not released.
   */
  function Tick(s: AppState, probe: CallOutcome<ExecResult>): (r: Run<AppState>)
    ensures r.commands == [ProbeCommand]
    ensures ExitedZero(probe) && s.vmStatus == Stopped ==> r.state.vmStatus == Running
    ensures !ExitedZero(probe) && s.vmStatus == Running ==> r.state.vmStatus == Stopped
    ensures r.state.vmStatus != s.vmStatus <==>
      (ExitedZero(probe) && s.vmStatus == Stopped) || (!ExitedZero(probe) && s.vmStatus == Running)
    ensures r.state.(vmStatus := s.vmStatus) == s
    ensures r.state.vmStatus == After(s.vmStatus, r.statuses)
  {
    var running := ExitedZero(probe);
    if running && s.vmStatus == Stopped then Run(s.(vmStatus := Running), [Running], [ProbeCommand])
    else if !running && s.vmStatus == Running then Run(s.(vmStatus := Stopped), [Stopped], [ProbeCommand])
    else Run(s, [], [ProbeCommand])
  }

  /** A second tick with the same probe result changes nothing more. */
  lemma TickIdempotent(s: AppState, probe: CallOutcome<ExecResult>)
    ensures Tick(Tick(s, probe).state, probe).state == Tick(s, probe).state
  {
  }

  /** After a tick the status agrees with the probe, unless it is `starting`, `stopping` or `error`. */
  lemma TickAgreesWithProbe(s: AppState, probe: CallOutcome<ExecResult>)
    requires s.vmStatus in {Stopped, Running}
    ensures Tick(s, probe).state.vmStatus == (if ExitedZero(probe) then Running else Stopped)
  {
  }

  /**
   * `handleAppClose()`: stops the VM when it is `running`, then stops the
   * proxy in any case, and exits.
   */
  function HandleAppClose(s: AppState, pkill: CallOutcome<ExecResult>, proxyKill: CallOutcome<ExecResult>, finalProxyKill: CallOutcome<ExecResult>): (r: Run<AppState>)
    ensures (PkillCommand in r.commands) <==> s.vmStatus == Running
    ensures s.vmStatus != Running ==> r == StopNoVNCProxy(s, finalProxyKill)
    ensures r.state.novncProcess.Some? <==>
      (s.novncProcess.Some? && finalProxyKill.Threw? && (s.vmStatus != Running || pkill.Threw? || proxyKill.Threw?))
  {
    if s.vmStatus == Running then
      var stop := StopMicroVM(s, pkill, proxyKill);
      Then(stop, StopNoVNCProxy(stop.state, finalProxyKill))
    else StopNoVNCProxy(s, finalProxyKill)
  }
}
