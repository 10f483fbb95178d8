/** The backend process: its effective user id and the events it has issued
    so far, changed step by step by the operations as the C code does. Each
    operation is proved to issue exactly the events, and return exactly the
    value, that its Sequencer function prescribes. */
module Backend {
  import opened Wrappers
  import opened Names
  import opened Invoker
  import S = Sequencer

  class Process {
    /** Tool paths and the operating system's answers. */
    const host: S.Host
    /** What getuid returns: the real user id of the caller. */
    const callerUid: int
    /** The effective user id, changed by setuid. */
    var euid: int
    /** Every setuid and run_backend call so far, oldest first. */
    var trace: seq<S.Event>

    constructor (host: S.Host, callerUid: int, euid: int)
      ensures this.host == host && this.callerUid == callerUid
      ensures this.euid == euid && trace == []
    {
      this.host := host;
      this.callerUid := callerUid;
      this.euid := euid;
      trace := [];
    }

    /** setuid(uid); its return value is ignored by every caller. */
    method SetUid(uid: int)
      modifies this`euid, this`trace
      ensures euid == uid
      ensures trace == old(trace) + [S.SetUid(uid)]
    {
      euid := uid;
      trace := trace + [S.SetUid(uid)];
    }

    /** run / quiet_run: one run_backend call with a NULL-terminated argument list. */
    method Run(quiet: bool, program: string, args: seq<string>) returns (r: int, ghost argv: Option<seq<Option<string>>>)
      modifies this`trace
      ensures trace == old(trace) + S.Step(host, quiet, program, args).events
      ensures r == S.Step(host, quiet, program, args).code
      ensures argv.None? <==> host.spawn(program, args) == AllocFailure
      ensures argv.Some? ==> ExecVector(program, args, argv.value)
    {
      var va := Lift(args) + [None];
      assert va[|args|] == None;
      var code, vector := Invoker.RunBackend(quiet, program, va, host.spawn(program, args));
      if vector.Some? {
        SentinelArgv(program, args, vector.value);
      }
      trace := trace + [S.Run(quiet, program, args)];
      r, argv := code, vector;
    }

    method Ifconfig(iface: string, mode: Option<string>) returns (r: int)
      modifies this`trace
      ensures trace == old(trace) + S.Ifconfig(host, iface, mode).events
      ensures r == S.Ifconfig(host, iface, mode).code
    {
      ghost var vec;
      if mode.Some? {
        r, vec := Run(true, host.paths.ifconfig, [iface, mode.value]);
      } else {
        r, vec := Run(true, host.paths.ifconfig, [iface]);
      }
    }

    method Disconnect(iface: string) returns (r: int)
      modifies this`trace
      ensures trace == old(trace) + S.Disconnect(host, iface).events
      ensures r == S.Disconnect(host, iface).code
    {
      var query := Ifconfig(iface, None);
      if query != 0 {
        return 1;
      }
      var ignored, vec := Run(false, host.paths.rfkill, ["unblock", "all"]);
      var wpa := BaseName(host.paths.wpaSupplicant);
      var dhcp := BaseName(host.paths.dhcpcd);
      if wpa.None? || dhcp.None? {
        return -1;
      }
      ignored, vec := Run(false, host.paths.killall, [wpa.value]);
      ignored, vec := Run(false, host.paths.killall, [dhcp.value]);
      r := Ifconfig(iface, Some("down"));
    }

    method Connect(config: string, iface: string) returns (r: int)
      modifies this`trace
      ensures trace == old(trace) + S.Connect(host, config, iface).events
      ensures r == S.Connect(host, config, iface).code
    {
      var d := Disconnect(iface);
      if d != 0 {
        return 1;
      }
      var up := Ifconfig(iface, Some("up"));
      if up != 0 {
        return 1;
      }
      var wpa, vec := Run(false, host.paths.wpaSupplicant, ["-Dnl80211,wext", "-c", config, "-i", iface, "-B"]);
      if wpa != 0 {
        return 1;
      }
      var dhcp, vec' := Run(false, host.paths.dhcpcd, ["-C", "wpa_supplicant", iface]);
      if dhcp != 0 {
        return 1;
      }
      return 0;
    }

    method Scan() returns (r: int)
      modifies this`trace
      ensures trace == old(trace) + S.Scan(host).events
      ensures r == S.Scan(host).code
    {
      ghost var vec;
      r, vec := Run(false, host.paths.iwlist, ["scan"]);
    }

    method ScanCommand(argv: seq<string>, quick: bool) returns (r: int)
      modifies this`euid, this`trace
      ensures trace == old(trace) + S.ScanCommand(host, callerUid, argv, quick).events
      ensures euid == S.EuidAfter(old(euid), S.ScanCommand(host, callerUid, argv, quick).events)
      ensures r == S.ScanCommand(host, callerUid, argv, quick).code
    {
      if |argv| <= 2 {
        return 1;
      }
      var iface := argv[2];
      if |iface| > S.MaxInterfaceLength {
        return 1;
      }
      var uid := callerUid;
      ghost var pre := [S.SetUid(0), S.Run(false, host.paths.rfkill, S.UnblockArgs())] + S.Ifconfig(host, iface, Some("up")).events;
      SetUid(0);
      var ignored, vec := Run(false, host.paths.rfkill, ["unblock", "all"]);
      var up := Ifconfig(iface, Some("up"));
      if up != 0 {
        S.EuidAfterSetUid(old(euid), [], 0, pre[1..]);
        assert [] + [S.SetUid(0)] + pre[1..] == pre;
        return 1;
      }
      if quick {
        SetUid(uid);
      }
      var scan := Scan();
      if quick {
        S.EuidAfterSetUid(old(euid), pre, uid, S.Scan(host).events);
        assert S.ScanCommand(host, callerUid, argv, quick).events == pre + [S.SetUid(uid)] + S.Scan(host).events;
      } else {
        S.EuidAfterSetUid(old(euid), [], 0, pre[1..] + S.Scan(host).events);
        assert [] + [S.SetUid(0)] + (pre[1..] + S.Scan(host).events) == pre + S.Scan(host).events;
        assert S.ScanCommand(host, callerUid, argv, quick).events == pre + S.Scan(host).events;
      }
      if scan != 0 {
        return 1;
      }
      return 0;
    }

    /** The connect branch of main. */
    method ConnectCommand(argv: seq<string>) returns (exit: int)
      modifies this`euid, this`trace
      ensures trace == old(trace) + S.ConnectCommand(host, argv).events
      ensures euid == S.EuidAfter(old(euid), S.ConnectCommand(host, argv).events)
      ensures exit == S.ConnectCommand(host, argv).code
    {
      if |argv| <= 3 {
        return 1;
      }
      var config := argv[2];
      if |config| > S.MaxConfigLength {
        return 1;
      }
      var iface := argv[3];
      if |iface| > S.MaxInterfaceLength {
        return 1;
      }
      assert S.ConnectCommand(host, argv).events == [S.SetUid(0)] + S.Connect(host, config, iface).events;
      S.ConnectKeepsEuid(old(euid), 0, host, config, iface);
      SetUid(0);
      var c := Connect(config, iface);
      if c != 0 {
        return 1;
      }
      return 0;
    }

    /** The disconnect branch of main. */
    method DisconnectCommand(argv: seq<string>) returns (exit: int)
      modifies this`euid, this`trace
      ensures trace == old(trace) + S.DisconnectCommand(host, argv).events
      ensures euid == S.EuidAfter(old(euid), S.DisconnectCommand(host, argv).events)
      ensures exit == S.DisconnectCommand(host, argv).code
    {
      if |argv| <= 2 {
        return 1;
      }
      var iface := argv[2];
      if |iface| > S.MaxInterfaceLength {
        return 1;
      }
      assert S.DisconnectCommand(host, argv).events == [S.SetUid(0)] + S.Disconnect(host, iface).events;
      S.DisconnectKeepsEuid(old(euid), 0, host, iface);
      SetUid(0);
      var d := Disconnect(iface);
      if d != 0 {
        return 1;
      }
      return 0;
    }

    /** main, from the argument-count check on (setlocale is left out). */
    method Dispatch(argv: seq<string>) returns (exit: int)
      modifies this`euid, this`trace
      ensures trace == old(trace) + S.Main(host, callerUid, argv).events
      ensures euid == S.EuidAfter(old(euid), S.Main(host, callerUid, argv).events)
      ensures exit == S.Main(host, callerUid, argv).code
    {
      if |argv| < 2 {
        return 1;
      }
      if argv[1] == "connect" {
        exit := ConnectCommand(argv);
      } else if argv[1] == "disconnect" {
        exit := DisconnectCommand(argv);
      } else if argv[1] == "quick-scan" {
        exit := ScanCommand(argv, true);
      } else if argv[1] == "full-scan" {
        exit := ScanCommand(argv, false);
      } else {
        exit := 0;
      }
    }
  }
}
