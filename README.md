# GoboNet backend: a Dafny model

`gobonet_backend` is a setuid-root helper for GoboLinux's network tool. It
takes positional arguments (`connect <config> <interface>`,
`disconnect <interface>`, `quick-scan <interface>`, `full-scan <interface>`),
checks their count and lengths, sets its user id, and runs a fixed set of
external programs through one fork/exec primitive, `run_backend`. Those
programs are ifconfig, rfkill, wpa_supplicant, dhcpcd, killall and iwlist.

This project models the decision logic around the operating system calls:

- `Invoker` models `run_backend`. It counts the NULL-terminated variadic
  arguments, fills an `array` for the argument vector, and maps what
  malloc/fork/wait report to the value it returns.
- `Names.BaseName` models `base_name`.
- `Sequencer` holds one pure specification function per operation
  (`Ifconfig`, `Disconnect`, `Connect`, `Scan`, `ScanCommand`, and `Main`
  with its `ConnectCommand` and `DisconnectCommand` branches). Each gives
  the exact list of events the operation issues and the value it returns.
  An event is `SetUid(u)` or `Run(quiet, program, args)`.
- `Backend.Process` is the running process. It is a class with the
  effective user id `euid` and the `trace` of events so far. Its methods
  follow the C functions step by step. Each method is proved to append
  exactly its `Sequencer` function's events, to return that function's
  value and, where it calls setuid, to leave `euid` as those events
  determine.
- `Properties` proves what the program promises about those functions:
  argument lists, ordering, fail-fast versus best-effort steps, privilege,
  the argument checks and exit statuses of `main`, and that the program
  run is always one of the six fixed tool paths.

`main` dispatches only connect, disconnect, quick-scan and full-scan.
connect returns 1 on any failed step, not that step's own code. disconnect
returns 1 when the first query fails, -1 when a base name is missing, and
otherwise the result of the `down` run.

The operating system is an oracle. `Host.spawn(program, args)` says what
spawning `program` with `args` comes to: `AllocFailure`, `ForkFailure`,
`WaitMismatch` or `Exited(status)`. `Host.paths` holds the six tool paths
from `config.h`. They are left abstract, including whether they contain `/`.
What `getuid` returns is the constant `Process.callerUid`.

## Model

| member | source | states |
|---|---|---|
| `Invoker.RunBackend` | src/gobonet_backend.c:21-68 | Counting stops at the first NULL of the variadic list. When allocation succeeds, the vector has length argc+1: argv[0] is `cmd`, entries 1..argc-1 are the arguments in order before the first NULL, and argv[argc] is NULL. When allocation fails there is no vector and the result is -1. Otherwise the result is the spawn's result code. |
| `Invoker.ResultCode` | src/gobonet_backend.c:35-67 | Allocation or fork failure gives -1. The result is 0 exactly when the child was reaped with status 0, so a wait-pid mismatch (which gives 1) and any nonzero status count as failure. |
| `Invoker.SentinelArgv` | src/gobonet_backend.c:15-16 | For a call written with a NULL-terminated list, as the `run` and `quiet_run` macros are used, the vector is exactly program, arguments, NULL. Proved in both directions. |
| `Names.BaseName` | src/gobonet_backend.c:70-74 | Returns NULL exactly when the path has no `/`. Otherwise returns the suffix after the last `/`: it is preceded by a `/` and contains none. |
| `Backend.Process.SetUid` | src/gobonet_backend.c:118 | setuid sets the effective id and is recorded as an event. Its return value is ignored. |
| `Backend.Process.Run` | src/gobonet_backend.c:15-16 | One `run_backend` call through `Invoker.RunBackend`: appends one `Run` event and returns the spawn's result code. The vector handed to execve is exactly the event's program, its arguments and NULL; there is none only when allocation fails. |
| `Backend.Process.Ifconfig` | src/gobonet_backend.c:76-82 | Appends exactly the events of `Sequencer.Ifconfig` and returns its value. |
| `Backend.Process.Disconnect` | src/gobonet_backend.c:84-95 | Appends exactly the events of `Sequencer.Disconnect` and returns its value. |
| `Backend.Process.Connect` | src/gobonet_backend.c:97-103 | Appends exactly the events of `Sequencer.Connect` and returns its value. |
| `Backend.Process.Scan` | src/gobonet_backend.c:105-107 | One non-quiet run of iwlist with `["scan"]`. |
| `Backend.Process.ScanCommand` | src/gobonet_backend.c:109-126 | Appends exactly the events of `Sequencer.ScanCommand`, returns its value, and leaves `euid` as those events set it. |
| `Backend.Process.ConnectCommand` | src/gobonet_backend.c:136-147 | The connect branch of main. Same three facts as `ScanCommand`. |
| `Backend.Process.DisconnectCommand` | src/gobonet_backend.c:149-158 | The disconnect branch of main. Same three facts. |
| `Backend.Process.Dispatch` | src/gobonet_backend.c:128-166 | main: the trace, the final `euid` and the exit status are those of `Sequencer.Main`. |
| `Sequencer.EuidAfterRunsOnly` | src/gobonet_backend.c:47-67 | Running programs never changes the user id: only setuid does. |
| `Sequencer.ConnectKeepsEuid` | src/gobonet_backend.c:146-147 | After setuid(0), the whole connect sequence runs with no further id change. |
| `Sequencer.DisconnectKeepsEuid` | src/gobonet_backend.c:157-158 | After setuid(0), the whole disconnect sequence runs with no further id change. |
| `Properties.IfconfigInvocation` | src/gobonet_backend.c:76-82 | ifconfig is one quiet run of the configurator. The arguments are `[interface, mode]` when a mode is given and `[interface]` otherwise, and the result is that run's result. |
| `Properties.DisconnectQueryFails` | src/gobonet_backend.c:85 | A failed initial ifconfig returns 1 with nothing after it. |
| `Properties.DisconnectUnresolvedName` | src/gobonet_backend.c:86-91 | A tool path without `/` returns -1 after the unblock and before any killall. |
| `Properties.DisconnectFullSequence` | src/gobonet_backend.c:84-95 | Otherwise the five runs come in order: query, unblock, killall of each base name, interface down. The result is the "down" run's result. |
| `Properties.DisconnectSucceedsIff` | src/gobonet_backend.c:84-95 | disconnect returns 0 exactly when the query and "down" succeed and both names resolve. |
| `Properties.DisconnectIgnoresBestEffort` | src/gobonet_backend.c:86-93 | The results of the rfkill and killall runs have no effect. Two hosts that agree on the two ifconfig runs give the same disconnect. |
| `Properties.ConnectSucceedsIff` | src/gobonet_backend.c:97-103 | connect returns 0 or 1. It returns 0 exactly when disconnect and the up, supplicant and DHCP steps all succeed. Then it has issued all of them, in that order. |
| `Properties.ConnectOrder` | src/gobonet_backend.c:97-103 | The events are the disconnect events followed by a prefix of [up, supplicant, DHCP] with the exact argument lists. A failed disconnect issues nothing more and returns 1. |
| `Properties.ConnectStopsAtFailure` | src/gobonet_backend.c:99-101 | After the disconnect sub-sequence, a failing step is the last event. A nonzero result comes from the disconnect or from that last step (both directions). |
| `Properties.EscalatedRunsAsRoot` | src/gobonet_backend.c:118 | After setuid(0), every later run in a run-only sequence happens with effective id 0. |
| `Properties.ScanCommandRejects` | src/gobonet_backend.c:110-115 | With argc <= 2, or an interface over 64 bytes, the result is 1 with no setuid and no run. |
| `Properties.ScanCommandPrologue` | src/gobonet_backend.c:117-120 | An accepted scan issues setuid(0), then the best-effort unblock, then interface up. If up fails it returns 1 with no scan. |
| `Properties.QuickScanDropsPrivilege` | src/gobonet_backend.c:121-125 | Quick scan gives the exact five events. The unblock and up run as root. setuid(caller) comes before iwlist, iwlist runs with the caller's id, and no setuid follows. The result is 1 exactly when the scan fails. |
| `Properties.FullScanSequence` | src/gobonet_backend.c:117-125 | Full scan once "up" succeeds: setuid(0), unblock, up, then iwlist `["scan"]` with no drop, and the result is 1 exactly when the scan fails. |
| `Properties.MainScanBranches` | src/gobonet_backend.c:160-163 | main's quick-scan branch is scan_command with the drop, and full-scan is scan_command without it. |
| `Properties.FullScanKeepsRoot` | src/gobonet_backend.c:118-124 | Full scan's only setuid is setuid(0), and every run, the scan included, happens as root. |
| `Properties.MainTooFewArguments` | src/gobonet_backend.c:132-134 | argc < 2 exits with 1 and does nothing. |
| `Properties.MainConnect` | src/gobonet_backend.c:136-147 | connect with argc <= 3, a config over 1024 bytes or an interface over 64 bytes exits with 1 and does nothing. Otherwise setuid(0) is followed by the connect events, and the exit status is 1 exactly when connect returns nonzero. |
| `Properties.MainDisconnect` | src/gobonet_backend.c:149-158 | The same for disconnect, with argc <= 2 and the 64-byte interface bound. |
| `Properties.MainAcceptsBoundaryLengths` | src/gobonet_backend.c:142-155 | A config of exactly 1024 bytes and an interface of exactly 64 bytes are accepted, and the command starts with setuid(0). |
| `Properties.MainRejectsOverlongArguments` | src/gobonet_backend.c:142-155 | An overlong interface (any subcommand) or config (connect) exits with 1 and issues no event. |
| `Properties.MainUnknownCommand` | src/gobonet_backend.c:160-165 | An unrecognised subcommand exits with 0 and does nothing. |
| `Properties.MainExitStatus` | src/gobonet_backend.c:128-166 | The exit status is always 0 or 1. |
| `Properties.MainRunsFixedPrograms` | src/gobonet_backend.c:76-106 | Every program run is one of the six build-time tool paths and never a command-line string. |
| `Properties.MainPrivilege` | src/gobonet_backend.c:117-158 | Any command that issues events starts with setuid(0). Connect, disconnect and full-scan run every program as root. Quick-scan runs everything before its drop as root; once "up" succeeds it drops to the caller before iwlist, which runs with the caller's id. |
| `Properties.ConnectScenario` | src/gobonet_backend.c:97-103 | `connect /etc/wpa.conf wlan0` with every tool succeeding exits with 0. It issues setuid(0), the five disconnect runs, then up, supplicant and DHCP, in that order. |

## Left out

- The child branch of `run_backend` (lines 48-56) is left out. That covers closing fds 1 and 2 when quiet, the empty environment, execve and perror. `quiet` is kept only as a field of the `Run` event. A child that returns -1 after a failed exec is also left out: that happens in a second process.
- fork, execve and wait are not executed. What they report is the oracle `Host.spawn`. It is keyed by program and arguments, so the same invocation always gets the same answer. In this program no invocation repeats in one run, except the two killall runs when both base names are equal, and those results are ignored.
- A `Run` event stands for a call of `run_backend`. It is recorded even when allocation or fork fails; the result code tells those cases apart.
- setuid never fails in the model, because every caller ignores its return value. The kernel's rules for real and saved ids are not modelled. `getuid` is the constant `callerUid`, because it is read before any setuid call.
- `setlocale`, the usage messages printed to stderr, and the never-freed `argv` in the parent are left out. They have no effect on the result.
- The tool paths come from `config.h`, which is not part of this model. They are the abstract `Paths` fields.
- What the external tools do (interface state, WPA, DHCP, scan output) exists only as their result codes.
- Strings are Dafny strings with one character per byte, and `strlen` is the sequence length. NULL is `None`.
- `Backend.Process.ConnectCommand` and `Backend.Process.DisconnectCommand` are written inline in the C `main`. Here they are separate methods, and `main` itself is named `Dispatch`.
