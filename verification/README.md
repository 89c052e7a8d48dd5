# desqemu VM control, modelled in Dafny

This project models the logic of desqemu's two Neutralino desktop front-ends that start and stop a QEMU micro-VM:

- the `QemuUtils` helper of the application template. It covers the QEMU command-line builder, the line parser for the manager script's output, `runQemu`, and the pid-file based `isVMRunning`/`stopVM`.
- the `DesqemuApp` VM lifecycle of the application template, which uses `spawnProcess` and websockify.
- the `DesqemuApp` VM lifecycle of the desktop application, which uses `execCommand` and noVNC.
- the QEMU detection and installer choice that both applications share.

Every call into the host (`Neutralino.os.execCommand`, `spawnProcess`, `getEnv`, `open`, `showMessageBox`) is an input to the model. Each is a `CallOutcome`: either the value the call returned or the fact that it threw, with its message. An operation on an application is a pure function. It returns a `Run`, which records:

- the state it leaves;
- the statuses it published through `updateVMStatus`, in order;
- the commands it handed to the host, in order.

`testQemu()` and the three `isVMRunning()` probes (the template helper's pid-file test and each application's `pgrep`) have one shape: run a command and answer whether it exited 0, with a throw counting as no. They are all `OsCalls.ExitedZero` on the outcome of their command, and the operations that use them take that outcome as an input.

Files:

| file | module | what |
|---|---|---|
| `wrappers.dfy` | `Wrappers` | `Option`, `Result` |
| `os_calls.dfy` | `OsCalls` | host-call outcomes: `ExecResult`, `SpawnedProcess`, `CallOutcome`, `ExitedZero` |
| `js_strings.dfy` | `JsStrings` | `indexOf`, `includes`, `split`, `join`, `trim`, integer printing |
| `js_values.dfy` | `JsValues` | JavaScript values, truthiness, template interpolation, `Object.entries` order |
| `qemu_command.dfy` | `QemuCommand` | `QemuUtils.buildQemuCommand` |
| `qemu_utils.dfy` | `QemuUtils` | the rest of `QemuUtils` |
| `qemu_detection.dfy` | `QemuDetection` | version banner parsing and installer dispatch shared by both applications |
| `lifecycle.dfy` | `Lifecycle` | `VmStatus`, `Run` |
| `template_app.dfy` | `TemplateApp` | the template application's lifecycle |
| `desktop_app.dfy` | `DesktopApp` | the desktop application's lifecycle |

Behaviours of the code worth knowing:

- Neither application checks the current status before starting. Any `startMicroVM` with QEMU available publishes `starting`, whatever the status was.
- The template application never publishes `error` (`TemplateApp.NeverErrors`). A failed spawn or a failed probe ends in `stopped`.
- `restartMicroVM` is a stop followed by a start:
  - the template application ends in `running` or `stopped`;
  - with QEMU the desktop application ends in `running` or `error`; without QEMU it ends where its stop left off, which is `stopped`, or `stopping` if `pkill` threw.
- When `pkill` throws, the desktop application's stop leaves `stopping` until the next start or stop, because its poller never moves that status.
- The desktop poller promotes `stopped` to `running` as well as demoting.
- `buildQemuCommand` emits the default port forwards in ascending host-port order (2222, 5900, 6900, 8080), not in the order they are written. This follows the ECMAScript own-property order for integer-like keys (`QemuCommand.DefaultCommand`).

## Model

| member | source | states |
|---|---|---|
| QemuCommand.BuildQemuCommand | templates/neutralino-app/resources/js/qemu-utils.js:152-205 | fails exactly when the merged `ports` is `undefined` or `null`; otherwise the command is the program followed by the rendered flags chosen for the merged options and the entries of their `ports` |
| QemuCommand.Program | templates/neutralino-app/resources/js/qemu-utils.js:168 | a non-empty known path is the program; otherwise `qemu-system-x86_64` |
| QemuCommand.EntriesOf | templates/neutralino-app/resources/js/qemu-utils.js:179 | `Object.entries` throws on `undefined`/`null`; an object yields its own entries in property order |
| QemuCommand.HostForwards | templates/neutralino-app/resources/js/qemu-utils.js:178-181 | one `hostfwd` clause per entry, in entry order |
| QemuCommand.SwitchFlags | templates/neutralino-app/resources/js/qemu-utils.js:186-199 | at most three switch flags, each of the ranks of `-vnc`, `-daemonize` and `-pidfile`, in that order |
| QemuCommand.SwitchMembers | templates/neutralino-app/resources/js/qemu-utils.js:186-199 | `-vnc`, `-daemonize` and `-pidfile` each appear iff their option is truthy, and the pid file is the interpolated option |
| QemuCommand.PlanFrame | templates/neutralino-app/resources/js/qemu-utils.js:170-184 | the command always has memory, CPUs, the network backend with the forwards of the entries, and the NIC, in that order, and ends with the drive |
| QemuCommand.PlanSwitches | templates/neutralino-app/resources/js/qemu-utils.js:186-199 | each switch flag is in the whole command iff its option is truthy |
| QemuCommand.PlanOrdered | templates/neutralino-app/resources/js/qemu-utils.js:170-202 | flag kinds appear in strictly increasing fixed order, so none repeats |
| QemuCommand.RenderPlan | templates/neutralino-app/resources/js/qemu-utils.js:170-204 | the text is the head text, the switch text and the drive text, concatenated |
| QemuCommand.RenderAppend | templates/neutralino-app/resources/js/qemu-utils.js:170-204 | appending flags appends their text |
| QemuCommand.CommandHead | templates/neutralino-app/resources/js/qemu-utils.js:170-175 | the command begins with program, memory, CPUs and the opened network option list |
| QemuCommand.CommandTail | templates/neutralino-app/resources/js/qemu-utils.js:201-204 | the command ends with the virtio qcow2 drive |
| QemuCommand.DefaultPortOrder | templates/neutralino-app/resources/js/qemu-utils.js:156-161 | the default ports come out of `Object.entries` as 2222, 5900, 6900, 8080 |
| QemuCommand.DefaultForwards | templates/neutralino-app/resources/js/qemu-utils.js:178-182 | the default forwards text, in ascending host-port order |
| QemuCommand.DefaultSwitches | templates/neutralino-app/resources/js/qemu-utils.js:162-164 | the default switches are `-vnc :0,password -daemonize -pidfile /tmp/desqemu-vm.pid` |
| QemuCommand.DefaultCommand | templates/neutralino-app/resources/js/qemu-utils.js:152-205 | the whole command built without overrides and without a known path |
| QemuCommand.EmptyPortsTrailingComma | templates/neutralino-app/resources/js/qemu-utils.js:182 | an empty `ports` object leaves `user,id=net0,` followed directly by ` -device` |
| QemuCommand.SuppliedPortsReplaceDefaults | templates/neutralino-app/resources/js/qemu-utils.js:167 | a supplied `ports` object replaces the default map entirely |
| QemuCommand.UndefinedPortsThrow | templates/neutralino-app/resources/js/qemu-utils.js:167-179 | an override holding `undefined` still replaces the default, and `Object.entries` then throws |
| JsValues.OwnEntries | templates/neutralino-app/resources/js/qemu-utils.js:179 | `Object.entries` is a permutation of the properties: integer-like keys ascending, then the other keys in insertion order |
| JsValues.SortIndicesCorrect | templates/neutralino-app/resources/js/qemu-utils.js:179 | sorting the integer-like keys keeps the entries and orders them ascending |
| QemuUtils.FieldAfter | templates/neutralino-app/resources/js/qemu-utils.js:28-30 | `line.split(marker)[1].trim()` is the trimmed text after the first marker, up to the next marker |
| QemuUtils.SplitSecond | templates/neutralino-app/resources/js/qemu-utils.js:28-30 | the second piece of a split runs from the first marker to the next one |
| QemuUtils.ParseLinesAppend | templates/neutralino-app/resources/js/qemu-utils.js:25-32 | the line loop over a concatenation is the loop over each part in turn |
| QemuUtils.VersionFromLastMarkerLine | templates/neutralino-app/resources/js/qemu-utils.js:26-28 | the last line with `Версия:` decides the version |
| QemuUtils.PathFromLastPathLine | templates/neutralino-app/resources/js/qemu-utils.js:26-31 | the last line with `Путь:` and no `Версия:` decides the path |
| QemuUtils.VersionKeptWithoutMarker | templates/neutralino-app/resources/js/qemu-utils.js:25-32 | without a version line the previous version is kept |
| QemuUtils.PathKeptWithoutMarker | templates/neutralino-app/resources/js/qemu-utils.js:25-32 | without a path line the previous path is kept |
| QemuUtils.VersionMarkerShadowsPath | templates/neutralino-app/resources/js/qemu-utils.js:27-31 | a line with both markers sets only the version |
| QemuUtils.CheckQemuStatus | templates/neutralino-app/resources/js/qemu-utils.js:17-53 | never throws; `available` iff the script exits 0; `qemuAvailable` always equals `available`; failure reports carry stderr or the thrown message and keep version and path |
| QemuUtils.CheckParsesOutput | templates/neutralino-app/resources/js/qemu-utils.js:21-32 | a successful check parses stdout split at line feeds |
| QemuUtils.InstallQemu | templates/neutralino-app/resources/js/qemu-utils.js:58-77 | a successful install is followed by a status check; a failed one changes nothing and reports stderr or the thrown message |
| QemuUtils.FailedInstallKeepsAvailability | templates/neutralino-app/resources/js/qemu-utils.js:65-76 | a failed install does not reset `qemuAvailable` |
| QemuUtils.InstallThenAvailable | templates/neutralino-app/resources/js/qemu-utils.js:62-64 | after a successful install, availability is the re-check's exit status |
| QemuUtils.TrimmedOutput | templates/neutralino-app/resources/js/qemu-utils.js:82-111 | a value exactly when the script exits 0; the value is stdout without leading or trailing white space |
| QemuUtils.TrimmedOutputStable | templates/neutralino-app/resources/js/qemu-utils.js:87 | the answer is already trimmed |
| QemuUtils.RunQemu | templates/neutralino-app/resources/js/qemu-utils.js:129-147 | rejects when QEMU is unavailable or the path is missing or empty, without spawning; otherwise spawns `path + ' ' + params.join(' ')`, and a spawn throw is rejected with the prefixed message |
| QemuUtils.LaunchCommandSplits | templates/neutralino-app/resources/js/qemu-utils.js:139 | splitting the launch command at spaces gives back path and parameters; no parameters leave a trailing space |
| QemuUtils.StopVM | templates/neutralino-app/resources/js/qemu-utils.js:222-234 | issues probe, `cat`, `kill <trimmed pid>`, `rm -f` as a prefix that stops at the first throw; true iff all four ran and `rm` returned |
| QemuUtils.StopIgnoresExitCodes | templates/neutralino-app/resources/js/qemu-utils.js:224-228 | non-zero exits of `cat`, `kill` and `rm` still count as a successful stop |
| QemuDetection.VersionLabel | templates/neutralino-app/resources/js/app.js:107-108 | `Unknown` when no match; otherwise the maximal non-space token after the leftmost `QEMU emulator version ` that is followed by a non-space |
| QemuDetection.BannerVersion | templates/neutralino-app/resources/js/app.js:107-108 | the banner `QEMU emulator version <v>` yields exactly `v` |
| QemuDetection.NoBannerUnknown | templates/neutralino-app/resources/js/app.js:108 | output without the prefix gives `Unknown` |
| QemuDetection.TokenUnique | templates/neutralino-app/resources/js/app.js:107 | the greedy token is the unique non-space run ending at white space or the end |
| QemuDetection.DetectQemu | desqemu-desktop/resources/js/app.js:114-143 | QEMU is found iff `--version` exits 0 and `which` returns; the version is the banner label and the path is trimmed `which` output |
| QemuDetection.DetectionCommands | templates/neutralino-app/resources/js/app.js:103-111 | `which` runs only after a successful version query |
| QemuDetection.Dispatch | templates/neutralino-app/resources/js/app.js:162-175 | Homebrew iff `darwin` or `mac`; else APT iff `linux`; else the download page iff `windows`; else nothing |
| QemuDetection.DispatchUnmatched | templates/neutralino-app/resources/js/app.js:160-177 | an unmatched platform gets no installer |
| QemuDetection.DispatchIgnoresCase | templates/neutralino-app/resources/js/app.js:162-170 | lower-casing the platform first changes nothing |
| QemuDetection.InstallQemu | desqemu-desktop/resources/js/app.js:168-219 | re-checks iff an install command exits 0; the manual-install dialog follows every throw (reading `OS`, opening the page, running the install command), with the thrown message, and a non-zero exit, with `Installation failed: ` and its stderr; an unmatched platform does nothing |
| QemuDetection.ToLowerIdempotent | templates/neutralino-app/resources/js/app.js:162 | lower-casing twice is lower-casing once |
| TemplateApp.CheckQemuStatus | templates/neutralino-app/resources/js/app.js:97-131 | availability follows the detection; VM status and handle are untouched |
| TemplateApp.StartMicroVM | templates/neutralino-app/resources/js/app.js:215-263 | unavailable: nothing; else `starting`, then `running` iff the spawn returned and the probe succeeded, else `stopped`; the handle is kept whenever the spawn returned |
| TemplateApp.StartIgnoresProxy | templates/neutralino-app/resources/js/app.js:229 | the websockify outcome does not affect the start |
| TemplateApp.StopMicroVM | templates/neutralino-app/resources/js/app.js:305-334 | a throwing `kill <pid>` changes nothing; otherwise `stopped`, handle dropped, `pkill` and websockify failures swallowed |
| TemplateApp.StopIdempotent | templates/neutralino-app/resources/js/app.js:309-327 | after a stop that went through, another stop changes nothing |
| TemplateApp.RestartMicroVM | templates/neutralino-app/resources/js/app.js:336-341 | a stop followed by a start: the final status is the last one published, and availability is unchanged; the outcome is in `TemplateApp.RestartOutcome` |
| TemplateApp.RestartOutcome | templates/neutralino-app/resources/js/app.js:336-341 | with QEMU available a restart ends `running` or `stopped` |
| TemplateApp.Tick | templates/neutralino-app/resources/js/app.js:379-392 | only `running` with a failed probe changes, to `stopped`; it never promotes |
| TemplateApp.TickIdempotent | templates/neutralino-app/resources/js/app.js:379-392 | a repeated tick with the same probe changes nothing more |
| TemplateApp.InstallQemu | templates/neutralino-app/resources/js/app.js:155-205 | only the status check after an install command that exited 0 changes the state, and then availability follows the detection; the install command is issued iff the platform names macOS or Linux |
| TemplateApp.HandleAppClose | templates/neutralino-app/resources/js/app.js:587-604 | stops only from `running` on `YES`; exits unless the dialog throws |
| TemplateApp.StepNeverErrors | templates/neutralino-app/resources/js/app.js:215-392 | no single operation, closing and installing included, publishes `error` |
| TemplateApp.NeverErrors | templates/neutralino-app/resources/js/app.js:215-392 | no sequence of operations publishes or reaches `error` |
| DesktopApp.CheckQemuStatus | desqemu-desktop/resources/js/app.js:110-144 | availability follows the detection; nothing else changes |
| DesktopApp.StartNoVNCProxy | desqemu-desktop/resources/js/app.js:276-292 | keeps the script result iff it exits 0; never touches the status |
| DesktopApp.NoVncSetOnlyOnSuccess | desqemu-desktop/resources/js/app.js:283-285 | the proxy handle changes only to a zero-exit result |
| DesktopApp.StartMicroVM | desqemu-desktop/resources/js/app.js:229-269 | unavailable: nothing; else `starting`, then `running` iff the launch exits 0, else `error`; the proxy runs only after a zero exit |
| DesktopApp.ProxyNeverBlocksRunning | desqemu-desktop/resources/js/app.js:252-256 | the proxy outcome does not affect the statuses of a start |
| DesktopApp.StopNoVNCProxy | desqemu-desktop/resources/js/app.js:294-304 | no-op without a handle; drops it unless the kill throws |
| DesktopApp.StopNoVNCTwice | desqemu-desktop/resources/js/app.js:294-304 | stopping the proxy twice equals once |
| DesktopApp.StopMicroVM | desqemu-desktop/resources/js/app.js:306-326 | publishes `stopping`; ends `stopped` unless `pkill` throws, which leaves `stopping`; the launch result is kept |
| DesktopApp.StopStuckInStopping | desqemu-desktop/resources/js/app.js:306-326 | after a throwing `pkill` the status stays `stopping` and a tick does not move it |
| DesktopApp.RestartMicroVM | desqemu-desktop/resources/js/app.js:328-332 | a stop followed by a start: the final status is the last one published, and availability is unchanged; the outcomes are in `DesktopApp.RestartOutcome` and `DesktopApp.RestartUnavailable` |
| DesktopApp.RestartOutcome | desqemu-desktop/resources/js/app.js:328-332 | with QEMU available a restart ends `running` iff the launch exits 0, else `error` |
| DesktopApp.RestartUnavailable | desqemu-desktop/resources/js/app.js:328-332 | without QEMU a restart ends `stopped`, or `stopping` after a throwing `pkill` |
| DesktopApp.Tick | desqemu-desktop/resources/js/app.js:372-388 | always probes; promotes `stopped` on success, demotes `running` on failure, otherwise nothing changes; the proxy handle is kept |
| DesktopApp.TickIdempotent | desqemu-desktop/resources/js/app.js:372-388 | a repeated tick with the same probe changes nothing more |
| DesktopApp.TickAgreesWithProbe | desqemu-desktop/resources/js/app.js:372-388 | from `stopped` or `running` the tick makes the status match the probe |
| DesktopApp.HandleAppClose | desqemu-desktop/resources/js/app.js:523-536 | the QEMU `pkill` is issued iff the VM is `running`; the proxy survives only if its last kill threw |
| JsStrings.JoinSplit | templates/neutralino-app/resources/js/qemu-utils.js:25 | joining the pieces of a split restores the string |
| JsStrings.SplitJoin | templates/neutralino-app/resources/js/qemu-utils.js:139 | splitting a join of separator-free pieces gives the pieces back |
| JsStrings.TrimSurrounds | templates/neutralino-app/resources/js/qemu-utils.js:28-30 | what `trim` removes from either end is white space only |
| JsStrings.TrimIdempotent | templates/neutralino-app/resources/js/qemu-utils.js:28-30 | trimming an already trimmed string changes nothing |
| JsStrings.TrimUnique | templates/neutralino-app/resources/js/qemu-utils.js:28-30 | `trim` removes exactly the leading and trailing white space |
| JsStrings.NatToDecimal | templates/neutralino-app/resources/js/qemu-utils.js:180 | the printed number is canonical decimal with the number's value |
| JsStrings.DecimalRoundTrip | templates/neutralino-app/resources/js/qemu-utils.js:179-180 | a canonical decimal key prints back to itself |

## Left out

- DOM updates, overlays, logging, the VNC/RFB client and the iframe display: they are user interface with no effect on the modelled state.
- `sleep` delays, `setTimeout` (including the template's automatic browser open after a start) and `setInterval` scheduling: one poller tick is a function, and time is not modelled.
- Interleavings of overlapping asynchronous start, stop and poller calls: each operation is atomic.
- `formatBytes` and `updateQcow2Size`: floating-point formatting, and parsing the output of external pipelines the model cannot see.
- `examples/simple-api/app.py`: a web demo with no VM logic.
- `init` and `setupEventListeners`: wiring of handlers. For the template application, `TemplateApp.Replay` runs its check, install, start, stop, restart, tick and close operations in any order. The desktop application has no such sequence model; its lemmas are about one operation or two in a row.
- The template application's `stopWebsockifyProxy` and the QEMU `pkill`: their outcomes are accepted but never consulted, because the code swallows every failure of both.
- QemuCommand.BuildQemuCommand: numbers are safe integers only (magnitude at most 2^53 - 1, `JsValues.SafeInteger`), which JavaScript prints in plain decimal. Non-integer numbers, larger numbers and the exponent form JavaScript uses from 10^21 on are not modelled.
- QemuCommand.BuildQemuCommand: option values are `undefined`, `null`, booleans, safe integers, strings and plain objects only. Symbols, BigInts, arrays, functions and objects with their own or a null-prototype `toString` are not modelled. On such values JavaScript differs from the model: a Symbol or a null-prototype object in `memory`, `cpus`, `pidFile` or a guest port makes the template literal throw a `TypeError`, and an array interpolates as its `join(',')`. So "fails exactly when the merged `ports` is `undefined` or `null`" holds on the modelled values only.
- JsValues.OwnEntries: an `Obj` value may list the same key twice, which no JavaScript object does. The proved properties hold for every list of properties, so they hold for real objects too; on a list with a repeated key the entries are ones `Object.entries` could never return.
- QemuCommand.BuildQemuCommand: `options` is a record of the six options the builder reads; other properties and a `null` options argument are not modelled.
- QemuDetection.Dispatch: `toLowerCase` is modelled on ASCII letters only. For the four names the code looks for (`darwin`, `mac`, `linux`, `windows`) the result is still exact. The only non-ASCII characters whose lower-case forms contain ASCII letters are the Kelvin sign, which lowers to `k`, and `İ`, which lowers to `i` followed by U+0307. No name contains `k`, none ends in `i`, and no match can continue past U+0307.
- JsStrings: strings are sequences of code points, not UTF-16 code units. This matters for `indexOf` positions past characters outside the Basic Multilingual Plane. It also matters for QemuCommand.EntriesOf on a string `ports`: the model gives one entry per code point, where `Object.entries` gives one per UTF-16 code unit, so an astral character yields two `hostfwd` clauses in JavaScript and one here.
- TemplateApp.HandleAppClose: the `disconnectVNC` call and the final `Neutralino.app.exit()` are reduced to the `exits` flag.
- DesktopApp.HandleAppClose: the final `Neutralino.app.exit()` is not represented. Nothing before it can throw, so it always runs.
