/** Properties of the sequencer and the dispatcher, stated over the
    specification functions of module Sequencer. */
module Properties {
  import opened Wrappers
  import opened Names
  import opened Invoker
  import opened Sequencer

  // ---------------------------------------------------------------- ifconfig

  /** ifconfig is one quiet run of the configurator with the interface and,
      when given, the mode; its result is that run's result. */
  lemma IfconfigInvocation(h: Host, iface: string, mode: Option<string>)
    ensures var o := Ifconfig(h, iface, mode);
      |o.events| == 1 && o.events[0].Run? &&
      o.events[0].quiet && o.events[0].program == h.paths.ifconfig &&
      (mode.Some? ==> o.events[0].args == [iface, mode.value]) &&
      (mode.None? ==> o.events[0].args == [iface]) &&
      o.code == RunCode(h, h.paths.ifconfig, o.events[0].args)
  {
  }

  // -------------------------------------------------------------- disconnect

  /** A failed interface query ends disconnect at once with 1. */
  lemma DisconnectQueryFails(h: Host, iface: string)
    requires RunCode(h, h.paths.ifconfig, [iface]) != 0
    ensures Disconnect(h, iface) == Outcome([Run(true, h.paths.ifconfig, [iface])], 1)
  {
  }

  /** A tool path without '/' ends disconnect with -1 after the unblock and
      before any killall. */
  lemma DisconnectUnresolvedName(h: Host, iface: string)
    requires RunCode(h, h.paths.ifconfig, [iface]) == 0
    requires '/' !in h.paths.wpaSupplicant || '/' !in h.paths.dhcpcd
    ensures Disconnect(h, iface) ==
      Outcome([Run(true, h.paths.ifconfig, [iface]), Run(false, h.paths.rfkill, ["unblock", "all"])], -1)
  {
  }

  /** Otherwise disconnect issues its five runs in order, ends with taking the
      interface down, and returns what that last run returns. */
  lemma DisconnectFullSequence(h: Host, iface: string)
    requires RunCode(h, h.paths.ifconfig, [iface]) == 0
    requires '/' in h.paths.wpaSupplicant && '/' in h.paths.dhcpcd
    ensures var o := Disconnect(h, iface);
      o.events == [Run(true, h.paths.ifconfig, [iface]),
                   Run(false, h.paths.rfkill, ["unblock", "all"]),
                   Run(false, h.paths.killall, [BaseName(h.paths.wpaSupplicant).value]),
                   Run(false, h.paths.killall, [BaseName(h.paths.dhcpcd).value]),
                   Run(true, h.paths.ifconfig, [iface, "down"])] &&
      o.code == RunCode(h, h.paths.ifconfig, [iface, "down"])
  {
  }

  /** disconnect succeeds exactly when the query and the final "down" succeed
      and both base names resolve. */
  lemma DisconnectSucceedsIff(h: Host, iface: string)
    ensures Disconnect(h, iface).code == 0 <==>
      RunCode(h, h.paths.ifconfig, [iface]) == 0 &&
      '/' in h.paths.wpaSupplicant && '/' in h.paths.dhcpcd &&
      RunCode(h, h.paths.ifconfig, [iface, "down"]) == 0
  {
  }

  /** The unblock and killall results are ignored: two hosts with the same
      paths that agree on the two ifconfig runs give the same disconnect,
      whatever the best-effort runs return. */
  lemma DisconnectIgnoresBestEffort(h1: Host, h2: Host, iface: string)
    requires h1.paths == h2.paths
    requires RunCode(h1, h1.paths.ifconfig, [iface]) == RunCode(h2, h2.paths.ifconfig, [iface])
    requires RunCode(h1, h1.paths.ifconfig, [iface, "down"]) == RunCode(h2, h2.paths.ifconfig, [iface, "down"])
    ensures Disconnect(h1, iface) == Disconnect(h2, iface)
  {
  }

  // ----------------------------------------------------------------- connect

  /** The runs connect issues after the disconnect sub-sequence when every step succeeds. */
  function ConnectPlan(h: Host, config: string, iface: string): seq<Event>
  {
    [Run(true, h.paths.ifconfig, [iface, "up"]),
     Run(false, h.paths.wpaSupplicant, ["-Dnl80211,wext", "-c", config, "-i", iface, "-B"]),
     Run(false, h.paths.dhcpcd, ["-C", "wpa_supplicant", iface])]
  }

  /** connect returns 0 or 1, and 0 exactly when the disconnect sub-sequence
      and all three later steps succeed; then it has issued all of them, in order. */
  lemma ConnectSucceedsIff(h: Host, config: string, iface: string)
    ensures var o := Connect(h, config, iface);
      var plan := ConnectPlan(h, config, iface);
      (o.code == 0 || o.code == 1) &&
      (o.code == 0 <==>
        Disconnect(h, iface).code == 0 &&
        forall j :: 0 <= j < |plan| ==> !Fails(h, plan[j])) &&
      (o.code == 0 ==> o.events == Disconnect(h, iface).events + plan)
  {
    var plan := ConnectPlan(h, config, iface);
    var o := Connect(h, config, iface);
    if Disconnect(h, iface).code == 0 && o.code != 0 {
      if Fails(h, plan[0]) {
      } else if Fails(h, plan[1]) {
      } else {
        assert Fails(h, plan[2]);
      }
    }
  }

  /** connect runs its steps strictly in order: what it issues is the
      disconnect sub-sequence followed by a prefix of the plan, and a failed
      disconnect issues nothing more. */
  lemma ConnectOrder(h: Host, config: string, iface: string)
    ensures var o := Connect(h, config, iface);
      var d := Disconnect(h, iface);
      o.events <= d.events + ConnectPlan(h, config, iface) &&
      |d.events| <= |o.events| &&
      (d.code != 0 ==> o.events == d.events && o.code == 1)
  {
  }

  /** Fail-fast: after the disconnect sub-sequence, a failing step is the last
      event, and a nonzero result comes from the disconnect or from that last step. */
  lemma ConnectStopsAtFailure(h: Host, config: string, iface: string)
    ensures var o := Connect(h, config, iface);
      var d := Disconnect(h, iface);
      (forall j :: |d.events| <= j < |o.events| && Fails(h, o.events[j]) ==> j == |o.events| - 1) &&
      (o.code != 0 <==> d.code != 0 || (|o.events| > |d.events| && Fails(h, o.events[|o.events| - 1])))
  {
  }

  // -------------------------------------------------------------------- scan

  /** The effective user id is 0 at every run of `evs`. */
  ghost predicate RunsAsRoot(e0: int, evs: seq<Event>)
  {
    forall k :: 0 <= k < |evs| && evs[k].Run? ==> UidAt(e0, evs, k) == 0
  }

  /** After setuid(0), a run-only sequence runs entirely as root. */
  lemma {:induction false} EscalatedRunsAsRoot(e0: int, b: seq<Event>)
    requires RunsOnly(b)
    ensures RunsAsRoot(e0, [SetUid(0)] + b)
  {
    var evs := [SetUid(0)] + b;
    forall k | 0 <= k < |evs| && evs[k].Run?
      ensures UidAt(e0, evs, k) == 0
    {
      assert evs[..k] == [] + [SetUid(0)] + b[..k - 1];
      EuidAfterSetUid(e0, [], 0, b[..k - 1]);
    }
  }

  /** scan_command with no interface argument, or one over 64 bytes, returns 1
      without any setuid or run. */
  lemma ScanCommandRejects(h: Host, uid: int, argv: seq<string>, quick: bool)
    requires |argv| <= 2 || |argv[2]| > MaxInterfaceLength
    ensures ScanCommand(h, uid, argv, quick) == Outcome([], 1)
  {
  }

  /** An accepted scan escalates first, then unblocks (best-effort), then
      brings the interface up; if that fails it returns 1 and nothing is scanned. */
  lemma ScanCommandPrologue(h: Host, uid: int, argv: seq<string>, quick: bool)
    requires |argv| > 2 && |argv[2]| <= MaxInterfaceLength
    ensures var o := ScanCommand(h, uid, argv, quick);
      |o.events| >= 3 &&
      o.events[..3] == [SetUid(0), Run(false, h.paths.rfkill, ["unblock", "all"]),
                        Run(true, h.paths.ifconfig, [argv[2], "up"])] &&
      (RunCode(h, h.paths.ifconfig, [argv[2], "up"]) != 0 ==> |o.events| == 3 && o.code == 1)
  {
  }

  /** Quick scan: once the interface is up, privileges drop to the caller
      before iwlist runs and are never raised again; iwlist runs with the
      caller's id, the earlier runs as root, and the result is 1 exactly when
      the scan fails. */
  lemma QuickScanDropsPrivilege(e0: int, h: Host, uid: int, argv: seq<string>)
    requires |argv| > 2 && |argv[2]| <= MaxInterfaceLength
    requires RunCode(h, h.paths.ifconfig, [argv[2], "up"]) == 0
    ensures var o := ScanCommand(h, uid, argv, true);
      o.events == [SetUid(0), Run(false, h.paths.rfkill, ["unblock", "all"]),
                   Run(true, h.paths.ifconfig, [argv[2], "up"]), SetUid(uid),
                   Run(false, h.paths.iwlist, ["scan"])] &&
      UidAt(e0, o.events, 1) == 0 && UidAt(e0, o.events, 2) == 0 &&
      UidAt(e0, o.events, 4) == uid &&
      (forall k :: 3 < k < |o.events| ==> !o.events[k].SetUid?) &&
      (o.code == 1 <==> RunCode(h, h.paths.iwlist, ["scan"]) != 0)
  {
    var o := ScanCommand(h, uid, argv, true);
    assert o.events[..1] == [] + [SetUid(0)] + [];
    assert o.events[..2] == [] + [SetUid(0)] + o.events[1..2];
    assert o.events[..3] == [] + [SetUid(0)] + o.events[1..3];
    assert o.events[..4] == o.events[..3] + [SetUid(uid)] + [];
    EuidAfterSetUid(e0, [], 0, []);
    EuidAfterSetUid(e0, [], 0, o.events[1..2]);
    EuidAfterSetUid(e0, [], 0, o.events[1..3]);
    EuidAfterSetUid(e0, o.events[..3], uid, []);
  }

  /** Full scan: once the interface is up, iwlist runs right after it with no
      change of user id, and the result is 1 exactly when the scan fails. */
  lemma FullScanSequence(h: Host, uid: int, argv: seq<string>)
    requires |argv| > 2 && |argv[2]| <= MaxInterfaceLength
    requires RunCode(h, h.paths.ifconfig, [argv[2], "up"]) == 0
    ensures var o := ScanCommand(h, uid, argv, false);
      o.events == [SetUid(0), Run(false, h.paths.rfkill, ["unblock", "all"]),
                   Run(true, h.paths.ifconfig, [argv[2], "up"]),
                   Run(false, h.paths.iwlist, ["scan"])] &&
      (o.code == 1 <==> RunCode(h, h.paths.iwlist, ["scan"]) != 0) &&
      (o.code == 0 <==> RunCode(h, h.paths.iwlist, ["scan"]) == 0)
  {
  }

  /** Full scan never drops privilege: its only setuid is setuid(0), and every
      run, the scan included, happens as root. */
  lemma FullScanKeepsRoot(e0: int, h: Host, uid: int, argv: seq<string>)
    ensures var o := ScanCommand(h, uid, argv, false);
      (forall k :: 0 <= k < |o.events| && o.events[k].SetUid? ==> o.events[k].uid == 0) &&
      RunsAsRoot(e0, o.events)
  {
    var o := ScanCommand(h, uid, argv, false);
    if o.events != [] {
      EscalatedRunsAsRoot(e0, o.events[1..]);
      assert o.events == [SetUid(0)] + o.events[1..];
    }
  }

  // -------------------------------------------------------------------- main

  lemma MainTooFewArguments(h: Host, uid: int, argv: seq<string>)
    requires |argv| < 2
    ensures Main(h, uid, argv) == Outcome([], 1)
  {
  }

  /** main, connect branch: too few arguments or an overlong argument exits
      with 1 before any event; otherwise setuid(0) comes first, then the
      connect sequence, and the exit status is 1 exactly when connect fails. */
  lemma MainConnect(h: Host, uid: int, argv: seq<string>)
    requires |argv| >= 2 && argv[1] == "connect"
    ensures var o := Main(h, uid, argv);
      if |argv| <= 3 || |argv[2]| > MaxConfigLength || |argv[3]| > MaxInterfaceLength then
        o == Outcome([], 1)
      else
        var c := Connect(h, argv[2], argv[3]);
        o.events == [SetUid(0)] + c.events &&
        (o.code == 1 <==> c.code != 0) && (o.code == 0 <==> c.code == 0)
  {
  }

  /** main, disconnect branch: the same discipline with a single interface argument. */
  lemma MainDisconnect(h: Host, uid: int, argv: seq<string>)
    requires |argv| >= 2 && argv[1] == "disconnect"
    ensures var o := Main(h, uid, argv);
      if |argv| <= 2 || |argv[2]| > MaxInterfaceLength then
        o == Outcome([], 1)
      else
        var d := Disconnect(h, argv[2]);
        o.events == [SetUid(0)] + d.events &&
        (o.code == 1 <==> d.code != 0) && (o.code == 0 <==> d.code == 0)
  {
  }

  /** The bounds are inclusive: a 1024-byte configuration path and a 64-byte
      interface name are accepted (the tests are strict '>'), and the command
      then starts by escalating. */
  lemma MainAcceptsBoundaryLengths(h: Host, uid: int, argv: seq<string>)
    requires |argv| >= 3
    ensures (argv[1] == "connect" && |argv| >= 4 &&
             |argv[2]| == MaxConfigLength && |argv[3]| == MaxInterfaceLength) ==>
      Main(h, uid, argv).events[0] == SetUid(0)
    ensures ((argv[1] == "disconnect" || argv[1] == "quick-scan" || argv[1] == "full-scan") &&
             |argv[2]| == MaxInterfaceLength) ==>
      Main(h, uid, argv).events[0] == SetUid(0)
  {
  }

  /** An interface name over 64 bytes, or a configuration path over 1024
      bytes, is rejected by every subcommand with exit status 1 and no event. */
  lemma MainRejectsOverlongArguments(h: Host, uid: int, argv: seq<string>)
    requires |argv| >= 2
    ensures argv[1] == "connect" && |argv| >= 4 && (|argv[3]| > MaxInterfaceLength || |argv[2]| > MaxConfigLength) ==>
      Main(h, uid, argv) == Outcome([], 1)
    ensures ((argv[1] == "disconnect" || argv[1] == "quick-scan" || argv[1] == "full-scan") &&
             |argv| >= 3 && |argv[2]| > MaxInterfaceLength) ==>
      Main(h, uid, argv) == Outcome([], 1)
  {
  }

  /** An unrecognised subcommand exits with 0 and does nothing. */
  lemma MainUnknownCommand(h: Host, uid: int, argv: seq<string>)
    requires |argv| >= 2
    requires argv[1] != "connect" && argv[1] != "disconnect"
    requires argv[1] != "quick-scan" && argv[1] != "full-scan"
    ensures Main(h, uid, argv) == Outcome([], 0)
  {
  }

  /** The exit status is always 0 or 1. */
  lemma MainExitStatus(h: Host, uid: int, argv: seq<string>)
    ensures Main(h, uid, argv).code == 0 || Main(h, uid, argv).code == 1
  {
  }

  /** Every run of `evs` runs one of the six build-time tool paths. */
  predicate FixedPrograms(p: Paths, evs: seq<Event>)
  {
    forall k :: 0 <= k < |evs| && evs[k].Run? ==> evs[k].program in p.Programs()
  }

  lemma FixedProgramsAppend(p: Paths, a: seq<Event>, b: seq<Event>)
    requires FixedPrograms(p, a) && FixedPrograms(p, b)
    ensures FixedPrograms(p, a + b)
  {
  }

  lemma DisconnectFixedPrograms(h: Host, iface: string)
    ensures FixedPrograms(h.paths, Disconnect(h, iface).events)
  {
  }

  lemma ConnectFixedPrograms(h: Host, config: string, iface: string)
    ensures FixedPrograms(h.paths, Connect(h, config, iface).events)
  {
  }

  /** Every program run is one of the six build-time tool paths; nothing on
      the command line can choose the program. */
  lemma MainRunsFixedPrograms(h: Host, uid: int, argv: seq<string>)
    ensures FixedPrograms(h.paths, Main(h, uid, argv).events)
  {
    var evs := Main(h, uid, argv).events;
    if |argv| >= 2 && evs != [] {
      if argv[1] == "connect" {
        ConnectFixedPrograms(h, argv[2], argv[3]);
        FixedProgramsAppend(h.paths, [SetUid(0)], Connect(h, argv[2], argv[3]).events);
      } else if argv[1] == "disconnect" {
        DisconnectFixedPrograms(h, argv[2]);
        FixedProgramsAppend(h.paths, [SetUid(0)], Disconnect(h, argv[2]).events);
      }
    }
  }

  /** main hands quick-scan to scan_command with the drop and full-scan to
      scan_command without it. */
  lemma MainScanBranches(h: Host, uid: int, argv: seq<string>)
    requires |argv| >= 2
    ensures argv[1] == "quick-scan" ==> Main(h, uid, argv) == ScanCommand(h, uid, argv, true)
    ensures argv[1] == "full-scan" ==> Main(h, uid, argv) == ScanCommand(h, uid, argv, false)
  {
  }

  /** Privilege discipline of main: a command that issues anything escalates
      first; connect, disconnect and full-scan run every program as root;
      quick-scan runs everything but its final scan as root. */
  lemma MainPrivilege(e0: int, h: Host, uid: int, argv: seq<string>)
    ensures var evs := Main(h, uid, argv).events;
      (evs != [] ==> evs[0] == SetUid(0)) &&
      (|argv| >= 2 && argv[1] != "quick-scan" ==> RunsAsRoot(e0, evs)) &&
      (|argv| >= 2 && argv[1] == "quick-scan" && evs != [] ==> |evs| >= 3 && RunsAsRoot(e0, evs[..3])) &&
      (|argv| >= 2 && argv[1] == "quick-scan" && evs != [] &&
       RunCode(h, h.paths.ifconfig, [argv[2], "up"]) == 0 ==>
         |evs| == 5 && evs[3] == SetUid(uid) &&
         evs[4] == Run(false, h.paths.iwlist, ["scan"]) && UidAt(e0, evs, 4) == uid)
  {
    var evs := Main(h, uid, argv).events;
    if |argv| >= 2 && evs != [] {
      if argv[1] == "connect" {
        ConnectRunsOnly(h, argv[2], argv[3]);
        EscalatedRunsAsRoot(e0, Connect(h, argv[2], argv[3]).events);
      } else if argv[1] == "disconnect" {
        DisconnectRunsOnly(h, argv[2]);
        EscalatedRunsAsRoot(e0, Disconnect(h, argv[2]).events);
      } else if argv[1] == "full-scan" {
        FullScanKeepsRoot(e0, h, uid, argv);
      } else if argv[1] == "quick-scan" {
        ScanCommandPrologue(h, uid, argv, true);
        EscalatedRunsAsRoot(e0, evs[1..3]);
        if RunCode(h, h.paths.ifconfig, [argv[2], "up"]) == 0 {
          QuickScanDropsPrivilege(e0, h, uid, argv);
        }
        assert evs[..3] == [SetUid(0)] + evs[1..3];
      }
    }
  }

  /** The connect scenario with every tool succeeding: exit status 0 after
      setuid(0), the five runs of disconnect, and the three runs of connect. */
  lemma ConnectScenario(h: Host, uid: int)
    requires forall p, a :: h.spawn(p, a) == Exited(0)
    requires '/' in h.paths.wpaSupplicant && '/' in h.paths.dhcpcd
    ensures Main(h, uid, ["gobonet_backend", "connect", "/etc/wpa.conf", "wlan0"]) ==
      Outcome([SetUid(0),
               Run(true, h.paths.ifconfig, ["wlan0"]),
               Run(false, h.paths.rfkill, ["unblock", "all"]),
               Run(false, h.paths.killall, [BaseName(h.paths.wpaSupplicant).value]),
               Run(false, h.paths.killall, [BaseName(h.paths.dhcpcd).value]),
               Run(true, h.paths.ifconfig, ["wlan0", "down"]),
               Run(true, h.paths.ifconfig, ["wlan0", "up"]),
               Run(false, h.paths.wpaSupplicant, ["-Dnl80211,wext", "-c", "/etc/wpa.conf", "-i", "wlan0", "-B"]),
               Run(false, h.paths.dhcpcd, ["-C", "wpa_supplicant", "wlan0"])], 0)
  {
  }
}
