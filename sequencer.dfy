/** The privileged operation sequencer as specification functions: for each
    operation of the backend, the exact sequence of events it issues and the
    value it returns, given what the operating system answers. */
module Sequencer {
  import opened Wrappers
  import opened Names
  import opened Invoker

  /** Longest interface name and configuration path the dispatcher accepts. */
  const MaxInterfaceLength: nat := 64
  const MaxConfigLength: nat := 1024

  /** One externally visible action of the backend: a setuid call, or one
      call of run_backend for `program` with arguments `args` (the vector
      after argv[0], without the NULL), quiet when its output is suppressed. */
  datatype Event =
    | SetUid(uid: int)
    | Run(quiet: bool, program: string, args: seq<string>)

  /** The six tool paths fixed at build time (config.h); their values are left open. */
  datatype Paths = Paths(
    ifconfig: string, rfkill: string, wpaSupplicant: string,
    dhcpcd: string, killall: string, iwlist: string)
  {
    function Programs(): set<string>
    {
      {ifconfig, rfkill, wpaSupplicant, dhcpcd, killall, iwlist}
    }
  }

  /** The environment the backend runs in: the build-time tool paths and an
      oracle telling what spawning a program with given arguments comes to. */
  datatype Host = Host(paths: Paths, spawn: (string, seq<string>) -> Spawn)

  /** The events an operation issues and the value it returns. */
  datatype Outcome = Outcome(events: seq<Event>, code: int)

  function RunCode(h: Host, program: string, args: seq<string>): int
  {
    ResultCode(h.spawn(program, args))
  }

  /** A step that failed: a run_backend call whose result is nonzero. */
  predicate Fails(h: Host, e: Event)
  {
    e.Run? && RunCode(h, e.program, e.args) != 0
  }

  /** One run_backend call (the run and quiet_run macros). */
  function Step(h: Host, quiet: bool, program: string, args: seq<string>): Outcome
  {
    Outcome([Run(quiet, program, args)], RunCode(h, program, args))
  }

  /** The arguments ifconfig passes after the program: the interface, then the mode if any. */
  function IfconfigArgs(iface: string, mode: Option<string>): seq<string>
  {
    if mode.Some? then [iface, mode.value] else [iface]
  }

  function Ifconfig(h: Host, iface: string, mode: Option<string>): Outcome
  {
    Step(h, true, h.paths.ifconfig, IfconfigArgs(iface, mode))
  }

  function UnblockArgs(): seq<string> { ["unblock", "all"] }

  function WpaArgs(config: string, iface: string): seq<string>
  {
    ["-Dnl80211,wext", "-c", config, "-i", iface, "-B"]
  }

  function DhcpArgs(iface: string): seq<string>
  {
    ["-C", "wpa_supplicant", iface]
  }

  function ScanArgs(): seq<string> { ["scan"] }

  /** disconnect: query the interface (required), unblock the radios
      (best-effort), kill the supplicant and the DHCP client by base name
      (best-effort), take the interface down; -1 if a base name is missing. */
  function Disconnect(h: Host, iface: string): Outcome
  {
    var query := Ifconfig(h, iface, None);
    if query.code != 0 then Outcome(query.events, 1)
    else
      var unblocked := query.events + [Run(false, h.paths.rfkill, UnblockArgs())];
      var wpa := BaseName(h.paths.wpaSupplicant);
      var dhcp := BaseName(h.paths.dhcpcd);
      if wpa.None? || dhcp.None? then Outcome(unblocked, -1)
      else
        var killed := unblocked + [Run(false, h.paths.killall, [wpa.value]),
                                   Run(false, h.paths.killall, [dhcp.value])];
        var down := Ifconfig(h, iface, Some("down"));
        Outcome(killed + down.events, down.code)
  }

  /** connect: disconnect, interface up, supplicant in the background, DHCP
      client; the first step that fails ends the operation with 1. */
  function Connect(h: Host, config: string, iface: string): Outcome
  {
    var d := Disconnect(h, iface);
    if d.code != 0 then Outcome(d.events, 1)
    else
      var up := Ifconfig(h, iface, Some("up"));
      if up.code != 0 then Outcome(d.events + up.events, 1)
      else
        var wpa := Step(h, false, h.paths.wpaSupplicant, WpaArgs(config, iface));
        if wpa.code != 0 then Outcome(d.events + up.events + wpa.events, 1)
        else
          var dhcp := Step(h, false, h.paths.dhcpcd, DhcpArgs(iface));
          Outcome(d.events + up.events + wpa.events + dhcp.events, if dhcp.code != 0 then 1 else 0)
  }

  function Scan(h: Host): Outcome
  {
    Step(h, false, h.paths.iwlist, ScanArgs())
  }

  /** scan_command for the command line `argv` (argc == |argv|); `uid` is the
      real user id read before escalating. */
  function ScanCommand(h: Host, uid: int, argv: seq<string>, quick: bool): Outcome
  {
    if |argv| <= 2 then Outcome([], 1)
    else if |argv[2]| > MaxInterfaceLength then Outcome([], 1)
    else
      var iface := argv[2];
      var unblocked := [SetUid(0), Run(false, h.paths.rfkill, UnblockArgs())];
      var up := Ifconfig(h, iface, Some("up"));
      if up.code != 0 then Outcome(unblocked + up.events, 1)
      else
        var dropped := if quick then [SetUid(uid)] else [];
        var scan := Scan(h);
        Outcome(unblocked + up.events + dropped + scan.events, if scan.code != 0 then 1 else 0)
  }

  /** The connect branch of main, for a command line whose argv[1] is "connect". */
  function ConnectCommand(h: Host, argv: seq<string>): Outcome
  {
    if |argv| <= 3 || |argv[2]| > MaxConfigLength || |argv[3]| > MaxInterfaceLength then Outcome([], 1)
    else
      var c := Connect(h, argv[2], argv[3]);
      Outcome([SetUid(0)] + c.events, if c.code != 0 then 1 else 0)
  }

  /** The disconnect branch of main, for a command line whose argv[1] is "disconnect". */
  function DisconnectCommand(h: Host, argv: seq<string>): Outcome
  {
    if |argv| <= 2 || |argv[2]| > MaxInterfaceLength then Outcome([], 1)
    else
      var d := Disconnect(h, argv[2]);
      Outcome([SetUid(0)] + d.events, if d.code != 0 then 1 else 0)
  }

  /** main: dispatch on argv[1]; the code is the process exit status. An
      unrecognised subcommand exits with 0 and does nothing. */
  function Main(h: Host, uid: int, argv: seq<string>): Outcome
  {
    if |argv| < 2 then Outcome([], 1)
    else if argv[1] == "connect" then ConnectCommand(h, argv)
    else if argv[1] == "disconnect" then DisconnectCommand(h, argv)
    else if argv[1] == "quick-scan" then ScanCommand(h, uid, argv, true)
    else if argv[1] == "full-scan" then ScanCommand(h, uid, argv, false)
    else Outcome([], 0)
  }

  /** The effective user id after `evs`, starting from `e0`: the last SetUid wins. */
  function EuidAfter(e0: int, evs: seq<Event>): int
    decreases |evs|
  {
    if evs == [] then e0
    else if evs[|evs| - 1].SetUid? then evs[|evs| - 1].uid
    else EuidAfter(e0, evs[..|evs| - 1])
  }

  /** The effective user id in force when event `k` of `evs` happens. */
  function UidAt(e0: int, evs: seq<Event>, k: nat): int
    requires k <= |evs|
  {
    EuidAfter(e0, evs[..k])
  }

  /** No event of `evs` changes the user id. */
  predicate RunsOnly(evs: seq<Event>)
  {
    forall k :: 0 <= k < |evs| ==> evs[k].Run?
  }

  /** Events that only run programs leave the effective user id alone. */
  lemma {:induction false} EuidAfterRunsOnly(e0: int, a: seq<Event>, b: seq<Event>)
    requires RunsOnly(b)
    ensures EuidAfter(e0, a + b) == EuidAfter(e0, a)
    decreases |b|
  {
    if b == [] {
      assert a + b == a;
    } else {
      var b' := b[..|b| - 1];
      assert (a + b)[|a + b| - 1] == b[|b| - 1];
      assert (a + b)[..|a + b| - 1] == a + b';
      EuidAfterRunsOnly(e0, a, b');
    }
  }

  /** After a setuid followed only by runs, the effective user id is the one set. */
  lemma EuidAfterSetUid(e0: int, a: seq<Event>, uid: int, b: seq<Event>)
    requires RunsOnly(b)
    ensures EuidAfter(e0, a + [SetUid(uid)] + b) == uid
  {
    EuidAfterRunsOnly(e0, a + [SetUid(uid)], b);
  }

  lemma DisconnectRunsOnly(h: Host, iface: string)
    ensures RunsOnly(Disconnect(h, iface).events)
  {
  }

  lemma ConnectRunsOnly(h: Host, config: string, iface: string)
    ensures RunsOnly(Connect(h, config, iface).events)
  {
  }

  /** setuid(u) followed by a connect or disconnect sequence leaves the effective user id at u. */
  lemma ConnectKeepsEuid(e0: int, uid: int, h: Host, config: string, iface: string)
    ensures EuidAfter(e0, [SetUid(uid)] + Connect(h, config, iface).events) == uid
  {
    ConnectRunsOnly(h, config, iface);
    EuidAfterSetUid(e0, [], uid, Connect(h, config, iface).events);
    assert [] + [SetUid(uid)] + Connect(h, config, iface).events == [SetUid(uid)] + Connect(h, config, iface).events;
  }

  lemma DisconnectKeepsEuid(e0: int, uid: int, h: Host, iface: string)
    ensures EuidAfter(e0, [SetUid(uid)] + Disconnect(h, iface).events) == uid
  {
    DisconnectRunsOnly(h, iface);
    EuidAfterSetUid(e0, [], uid, Disconnect(h, iface).events);
    assert [] + [SetUid(uid)] + Disconnect(h, iface).events == [SetUid(uid)] + Disconnect(h, iface).events;
  }
}
