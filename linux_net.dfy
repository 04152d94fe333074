/** The tap-device provisioner: checking for a network device, creating a tap
    device idempotently (`ip tuntap`, falling back to `tunctl`, then optionally
    setting the MAC address and bringing the link up) and deleting a device
    idempotently. Each operation is a method on the host and is proved equal to
    a step function on the host's observable state; the lemmas below state
    what the step functions promise. */
module LinuxNet {
  import opened Wrappers
  import opened PyStrings
  import opened ProcessUtils

  /** The directory in which the kernel lists one entry per network device. */
  const SysClassNet: string := "/sys/class/net/"

  function SysPath(dev: string): string {
    SysClassNet + dev
  }

  /** The entries under /sys/class/net for a set of live devices. */
  function SysfsEntries(devices: set<string>): set<string> {
    set d | d in devices :: SysPath(d)
  }

  lemma SysPathInjective(d1: string, d2: string)
    requires SysPath(d1) == SysPath(d2)
    ensures d1 == d2
  {
    assert d1 == SysPath(d1)[|SysClassNet|..];
    assert d2 == SysPath(d2)[|SysClassNet|..];
  }

  /** `device_exists(dev)`: whether the sysfs entry of `dev` exists. It reads
      the host and issues no command. */
  method DeviceExists(host: Host, dev: string) returns (b: bool)
    ensures b <==> dev in host.devices
  {
    b := SysPath(dev) in SysfsEntries(host.devices);
    if b {
      var d :| d in host.devices && SysPath(d) == SysPath(dev);
      SysPathInjective(d, dev);
    }
  }

  /** The exit codes the `ip` invocations accept: success, and the codes the
      tool returns when the device is already in the requested state. */
  const IpExitCodes: set<int> := {0, 2, 254}

  function IpTuntapAdd(dev: string): Command {
    Command(["ip", "tuntap", "add", dev, "mode", "tap"], IpExitCodes, true)
  }

  function Tunctl(dev: string): Command {
    Command(["tunctl", "-b", "-t", dev], DefaultExitCodes, true)
  }

  function IpLinkSetAddress(dev: string, mac: string): Command {
    Command(["ip", "link", "set", dev, "address", mac], IpExitCodes, true)
  }

  function IpLinkSetUp(dev: string): Command {
    Command(["ip", "link", "set", dev, "up"], IpExitCodes, true)
  }

  function IpLinkDelete(dev: string): Command {
    Command(["ip", "link", "delete", dev], IpExitCodes, true)
  }

  /** `ip link set <dev> ...`, either form. */
  predicate IsIpLinkSet(cmd: Command) {
    |cmd.argv| >= 3 && cmd.argv[0] == "ip" && cmd.argv[1] == "link" && cmd.argv[2] == "set"
  }

  /** The try/except of create_tap_dev: `ip tuntap add`, and `tunctl` only when
      that raised; the error of `tunctl` is the one that propagates. */
  function AddTapStep(oracle: Oracle, s: HostState, dev: string): Step {
    var primary := Run(oracle, s, IpTuntapAdd(dev));
    if primary.outcome.Ok? then primary else Run(oracle, primary.state, Tunctl(dev))
  }

  /** `create_tap_dev(dev, mac_address)` on host state `s`. */
  function CreateTapDevStep(oracle: Oracle, s: HostState, dev: string, mac: Option<string>): Step {
    if dev in s.devices then
      Step(s, Ok)
    else
      var added := AddTapStep(oracle, s, dev);
      if added.outcome.Err? then
        added
      else
        var addressed := if Truthy(mac) then Run(oracle, added.state, IpLinkSetAddress(dev, mac.value)) else added;
        if addressed.outcome.Err? then addressed else Run(oracle, addressed.state, IpLinkSetUp(dev))
  }

  /** `delete_net_dev(dev)` on host state `s`. A failure of the delete command
      is logged and re-raised as it is, so the step's error is the command's. */
  function DeleteNetDevStep(oracle: Oracle, s: HostState, dev: string): Step {
    if dev in s.devices then Run(oracle, s, IpLinkDelete(dev)) else Step(s, Ok)
  }

  method CreateTapDev(host: Host, dev: string, mac: Option<string>) returns (r: Outcome)
    modifies host
    ensures Step(host.State(), r) == CreateTapDevStep(host.oracle, old(host.State()), dev, mac)
  {
    var present := DeviceExists(host, dev);
    if present {
      return Ok;
    }
    r := host.Execute(IpTuntapAdd(dev));
    if r.Err? {
      r := host.Execute(Tunctl(dev));
      if r.Err? {
        return;
      }
    }
    if Truthy(mac) {
      r := host.Execute(IpLinkSetAddress(dev, mac.value));
      if r.Err? {
        return;
      }
    }
    r := host.Execute(IpLinkSetUp(dev));
  }

  method DeleteNetDev(host: Host, dev: string) returns (r: Outcome)
    modifies host
    ensures Step(host.State(), r) == DeleteNetDevStep(host.oracle, old(host.State()), dev)
  {
    var present := DeviceExists(host, dev);
    r := Ok;
    if present {
      r := host.Execute(IpLinkDelete(dev));
      // On failure the error is only observed (logged) before it propagates.
    }
  }

  // ---------------------------------------------------------------------------
  // What create_tap_dev promises

  /** The commands that create the device: `ip tuntap add`, followed by
      `tunctl` when the host rejects the first. */
  function AddTapCommands(oracle: Oracle, s: HostState, dev: string): seq<Command> {
    if Succeeds(oracle, s.log, IpTuntapAdd(dev)) then [IpTuntapAdd(dev)] else [IpTuntapAdd(dev), Tunctl(dev)]
  }

  /** The MAC-setting command, present only for a truthy MAC address. */
  function MacCommands(dev: string, mac: Option<string>): seq<Command> {
    if Truthy(mac) then [IpLinkSetAddress(dev, mac.value)] else []
  }

  /** An existing device makes creation a no-op: no command, no change, success,
      whatever MAC address is given. */
  lemma CreateTapDevExistingIsNoop(oracle: Oracle, s: HostState, dev: string, mac: Option<string>)
    requires dev in s.devices
    ensures CreateTapDevStep(oracle, s, dev, mac) == Step(s, Ok)
  {
  }

  /** For an absent device the first command issued is `ip tuntap add`; `tunctl`
      is issued right after it exactly when it failed, and never otherwise. */
  lemma CreateTapDevTriesIpThenTunctl(oracle: Oracle, s: HostState, dev: string, mac: Option<string>)
    requires dev !in s.devices
    ensures var log := CreateTapDevStep(oracle, s, dev, mac).state.log;
      |s.log| < |log| && log[..|s.log|] == s.log && log[|s.log|] == IpTuntapAdd(dev) &&
      (!Succeeds(oracle, s.log, IpTuntapAdd(dev)) ==> |s.log| + 1 < |log| && log[|s.log| + 1] == Tunctl(dev)) &&
      multiset(log[|s.log|..])[Tunctl(dev)] == if Succeeds(oracle, s.log, IpTuntapAdd(dev)) then 0 else 1
  {
    var log := CreateTapDevStep(oracle, s, dev, mac).state.log;
    var added := AddTapStep(oracle, s, dev).state.log;
    var ok := Succeeds(oracle, s.log, IpTuntapAdd(dev));
    CreateTapDevAfterAdd(oracle, s, dev, mac);
    assert added == s.log + AddTapCommands(oracle, s, dev);
    var rest := log[|added|..];
    assert Tunctl(dev) !in rest;
    assert log == added + rest;
    assert log[..|s.log|] == s.log;
    assert log[|s.log|] == IpTuntapAdd(dev);
    assert log[|s.log|..] == AddTapCommands(oracle, s, dev) + rest;
    assert multiset(rest)[Tunctl(dev)] == 0;
    assert IpTuntapAdd(dev) != Tunctl(dev);
    assert multiset(AddTapCommands(oracle, s, dev))[Tunctl(dev)] == if ok then 0 else 1;
  }

  /** After the creation commands, create_tap_dev issues only `ip link set`. */
  lemma CreateTapDevAfterAdd(oracle: Oracle, s: HostState, dev: string, mac: Option<string>)
    requires dev !in s.devices
    ensures var log := CreateTapDevStep(oracle, s, dev, mac).state.log;
      var added := AddTapStep(oracle, s, dev).state.log;
      |added| <= |log| && log[..|added|] == added &&
      forall i | |added| <= i < |log| :: IsIpLinkSet(log[i])
  {
  }

  /** When both `ip tuntap` and `tunctl` fail, the error of `tunctl` propagates,
      the device set is unchanged and nothing after the two is issued: no
      `ip link set` at all. */
  lemma CreateTapDevFallbackFails(oracle: Oracle, s: HostState, dev: string, mac: Option<string>)
    requires dev !in s.devices
    requires !Succeeds(oracle, s.log, IpTuntapAdd(dev))
    requires !Succeeds(oracle, s.log + [IpTuntapAdd(dev)], Tunctl(dev))
    ensures var r := CreateTapDevStep(oracle, s, dev, mac);
      r.state == HostState(s.devices, s.log + [IpTuntapAdd(dev), Tunctl(dev)]) &&
      r.outcome == Err(ProcessExecutionError(Tunctl(dev), oracle(s.log + [IpTuntapAdd(dev)], Tunctl(dev)))) &&
      forall c | c in r.state.log[|s.log|..] :: !IsIpLinkSet(c)
  {
    var r := CreateTapDevStep(oracle, s, dev, mac);
    assert r.state.log[|s.log|..] == [IpTuntapAdd(dev), Tunctl(dev)];
  }

  /** A successful creation of an absent device issues exactly: the creation
      commands, `ip link set <dev> address <mac>` iff the MAC is truthy, and
      `ip link set <dev> up` last; the device is then live. */
  lemma CreateTapDevSuccessTrace(oracle: Oracle, s: HostState, dev: string, mac: Option<string>)
    requires dev !in s.devices
    requires CreateTapDevStep(oracle, s, dev, mac).outcome.Ok?
    ensures var r := CreateTapDevStep(oracle, s, dev, mac);
      r.state.log == s.log + AddTapCommands(oracle, s, dev) + MacCommands(dev, mac) + [IpLinkSetUp(dev)] &&
      r.state.devices == s.devices + {dev}
  {
  }

  /** Once the device has been created, whatever happens next: the MAC command
      is issued iff the MAC is truthy and always before `ip link set <dev> up`,
      which is issued iff the MAC command was not issued or succeeded. A failing
      MAC command is the error reported; otherwise `up` decides the outcome. */
  lemma CreateTapDevLinkSteps(oracle: Oracle, s: HostState, dev: string, mac: Option<string>)
    requires dev !in s.devices && AddTapStep(oracle, s, dev).outcome.Ok?
    ensures var added := AddTapStep(oracle, s, dev).state.log;
      var r := CreateTapDevStep(oracle, s, dev, mac);
      var macOk := !Truthy(mac) || Succeeds(oracle, added, IpLinkSetAddress(dev, mac.value));
      added == s.log + AddTapCommands(oracle, s, dev) &&
      r.state.log == added + MacCommands(dev, mac) + (if macOk then [IpLinkSetUp(dev)] else []) &&
      (!macOk ==> r.outcome == Err(ProcessExecutionError(IpLinkSetAddress(dev, mac.value),
                                                         oracle(added, IpLinkSetAddress(dev, mac.value))))) &&
      (macOk ==> (r.outcome.Ok? <==> Succeeds(oracle, added + MacCommands(dev, mac), IpLinkSetUp(dev))))
  {
    var a := AddTapStep(oracle, s, dev).state;
    var addressed := if Truthy(mac) then Run(oracle, a, IpLinkSetAddress(dev, mac.value)) else Step(a, Ok);
    assert addressed.state.log == a.log + MacCommands(dev, mac);
  }

  /** A failure is always the failure of the last command issued, and never the
      caught failure of `ip tuntap`: nothing is issued after an error. */
  lemma CreateTapDevErrorIsLastCommand(oracle: Oracle, s: HostState, dev: string, mac: Option<string>)
    requires CreateTapDevStep(oracle, s, dev, mac).outcome.Err?
    ensures var r := CreateTapDevStep(oracle, s, dev, mac);
      var log := r.state.log;
      var e := r.outcome.error;
      |log| > |s.log| && e.cmd == log[|log| - 1] && e.cmd != IpTuntapAdd(dev) &&
      e.exitCode == oracle(log[..|log| - 1], e.cmd) && e.exitCode !in e.cmd.checkExitCode
  {
    var r := CreateTapDevStep(oracle, s, dev, mac);
    var log := r.state.log;
    assert log[..|log| - 1] + [log[|log| - 1]] == log;
  }

  /** Without a truthy MAC address (`None` or empty), creation issues only
      `ip tuntap add`, `tunctl` and `ip link set <dev> up`. */
  lemma CreateTapDevWithoutMac(oracle: Oracle, s: HostState, dev: string, mac: Option<string>)
    requires !Truthy(mac)
    ensures var log := CreateTapDevStep(oracle, s, dev, mac).state.log;
      |s.log| <= |log| && log[..|s.log|] == s.log &&
      forall i :: |s.log| <= i < |log| ==> log[i] in {IpTuntapAdd(dev), Tunctl(dev), IpLinkSetUp(dev)}
  {
    var log := CreateTapDevStep(oracle, s, dev, mac).state.log;
    if dev !in s.devices {
      var added := AddTapStep(oracle, s, dev);
      var issued := AddTapCommands(oracle, s, dev) + if added.outcome.Ok? then [IpLinkSetUp(dev)] else [];
      assert log == s.log + issued;
      assert forall c | c in issued :: c in {IpTuntapAdd(dev), Tunctl(dev), IpLinkSetUp(dev)};
    }
  }

  /** Creation only appends to the log and adds at most `dev` to the device set;
      `dev` is live afterwards exactly when it already was or a creation
      command succeeded, even if a later command failed (no cleanup). */
  lemma CreateTapDevFrame(oracle: Oracle, s: HostState, dev: string, mac: Option<string>)
    ensures var r := CreateTapDevStep(oracle, s, dev, mac);
      |s.log| <= |r.state.log| && r.state.log[..|s.log|] == s.log &&
      s.devices <= r.state.devices <= s.devices + {dev} &&
      (dev in r.state.devices <==> dev in s.devices || AddTapStep(oracle, s, dev).outcome.Ok?)
  {
    var r := CreateTapDevStep(oracle, s, dev, mac);
    if dev !in s.devices {
      CreateTapDevTriesIpThenTunctl(oracle, s, dev, mac);
    }
  }

  /** Creating twice: once the device has been created (even when a later step
      of that call failed), a second call issues nothing and succeeds. */
  lemma CreateTapDevIdempotent(oracle: Oracle, s: HostState, dev: string, mac: Option<string>, mac2: Option<string>)
    requires CreateTapDevStep(oracle, s, dev, mac).outcome.Ok? || AddTapStep(oracle, s, dev).outcome.Ok?
    ensures var r := CreateTapDevStep(oracle, s, dev, mac);
      CreateTapDevStep(oracle, r.state, dev, mac2) == Step(r.state, Ok)
  {
    CreateTapDevFrame(oracle, s, dev, mac);
  }

  // ---------------------------------------------------------------------------
  // What delete_net_dev promises

  /** An absent device makes deletion a no-op: no command, no change, success. */
  lemma DeleteNetDevAbsentIsNoop(oracle: Oracle, s: HostState, dev: string)
    requires dev !in s.devices
    ensures DeleteNetDevStep(oracle, s, dev) == Step(s, Ok)
  {
  }

  /** A live device gets exactly one `ip link delete <dev>`; on success the
      device is gone and nothing else changed, on failure the command's own
      error is returned unchanged and the device set is untouched. */
  lemma DeleteNetDevPresent(oracle: Oracle, s: HostState, dev: string)
    requires dev in s.devices
    ensures var r := DeleteNetDevStep(oracle, s, dev);
      r.state.log == s.log + [IpLinkDelete(dev)] &&
      (r.outcome.Ok? <==> Succeeds(oracle, s.log, IpLinkDelete(dev))) &&
      (r.outcome.Ok? ==> r.state.devices == s.devices - {dev}) &&
      (r.outcome.Err? ==> r.state.devices == s.devices &&
                          r.outcome.error == ProcessExecutionError(IpLinkDelete(dev), oracle(s.log, IpLinkDelete(dev))))
  {
  }

  /** Deleting twice: after a successful deletion the device is gone and a
      second call issues nothing and succeeds. */
  lemma DeleteNetDevIdempotent(oracle: Oracle, s: HostState, dev: string)
    requires DeleteNetDevStep(oracle, s, dev).outcome.Ok?
    ensures var r := DeleteNetDevStep(oracle, s, dev);
      dev !in r.state.devices && DeleteNetDevStep(oracle, r.state, dev) == Step(r.state, Ok)
  {
  }

  /** Deletion undoes creation: creating an absent device and then deleting it,
      both successfully, gives back the original device set. */
  lemma CreateThenDeleteRestoresDevices(oracle: Oracle, s: HostState, dev: string, mac: Option<string>)
    requires dev !in s.devices
    requires CreateTapDevStep(oracle, s, dev, mac).outcome.Ok?
    requires DeleteNetDevStep(oracle, CreateTapDevStep(oracle, s, dev, mac).state, dev).outcome.Ok?
    ensures DeleteNetDevStep(oracle, CreateTapDevStep(oracle, s, dev, mac).state, dev).state.devices == s.devices
  {
    CreateTapDevSuccessTrace(oracle, s, dev, mac);
  }
}
