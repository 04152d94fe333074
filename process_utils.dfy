/** The privileged command runner that both core files call (`execute`), and the
    host it acts on. The host is reduced to what the core observes: the set of
    live network-device names and the append-only log of commands issued. Which
    exit code a command ends with is decided by an oracle that may look at the
    whole history; a command succeeds exactly when its exit code is one of the
    codes it accepts. */
module ProcessUtils {

  /** One call of `execute`: the argument vector, the exit codes that count as
      success (`check_exit_code`) and whether it runs as root. */
  datatype Command = Command(argv: seq<string>, checkExitCode: set<int>, runAsRoot: bool)

  /** The exit codes `execute` accepts when the caller names none. */
  const DefaultExitCodes: set<int> := {0}

  /** The failure `execute` raises: the command and the exit code it ended with. */
  datatype ProcessExecutionError = ProcessExecutionError(cmd: Command, exitCode: int)

  /** Normal return, or the error that propagates to the caller. */
  datatype Outcome = Ok | Err(error: ProcessExecutionError)

  /** The exit code the host gives `cmd` after the commands already in the log. */
  type Oracle = (seq<Command>, Command) -> int

  /** What the core can observe of the host. */
  datatype HostState = HostState(devices: set<string>, log: seq<Command>)

  /** The host after an operation, and how the operation ended. */
  datatype Step = Step(state: HostState, outcome: Outcome)

  predicate Succeeds(oracle: Oracle, log: seq<Command>, cmd: Command) {
    oracle(log, cmd) in cmd.checkExitCode
  }

  /** The change an accepted command makes to the device set: `ip tuntap add
      <dev> mode tap` and `tunctl -b -t <dev>` create `<dev>`, `ip link delete
      <dev>` removes it, and nothing else touches the set. */
  function DeviceEffect(devices: set<string>, cmd: Command): set<string> {
    var a := cmd.argv;
    if |a| == 6 && a[0] == "ip" && a[1] == "tuntap" && a[2] == "add" && a[4] == "mode" && a[5] == "tap" then
      devices + {a[3]}
    else if |a| == 4 && a[0] == "tunctl" && a[1] == "-b" && a[2] == "-t" then
      devices + {a[3]}
    else if |a| == 4 && a[0] == "ip" && a[1] == "link" && a[2] == "delete" then
      devices - {a[3]}
    else
      devices
  }

  /** `execute(cmd)`: the command is logged; if its exit code is accepted the
      device set takes its effect, otherwise ProcessExecutionError is raised. */
  function Run(oracle: Oracle, s: HostState, cmd: Command): Step {
    var code := oracle(s.log, cmd);
    if code in cmd.checkExitCode then
      Step(HostState(DeviceEffect(s.devices, cmd), s.log + [cmd]), Ok)
    else
      Step(HostState(s.devices, s.log + [cmd]), Err(ProcessExecutionError(cmd, code)))
  }

  /** The host: the live devices and the log change as commands run; the
      oracle is fixed. */
  class Host {
    var devices: set<string>
    var log: seq<Command>
    const oracle: Oracle

    function State(): HostState
      reads this
    {
      HostState(devices, log)
    }

    constructor (devices: set<string>, oracle: Oracle)
      ensures State() == HostState(devices, [])
      ensures this.oracle == oracle
    {
      this.devices := devices;
      this.log := [];
      this.oracle := oracle;
    }

    /** `processutils.execute(*cmd.argv, check_exit_code=..., run_as_root=...)`. */
    method Execute(cmd: Command) returns (r: Outcome)
      modifies this
      ensures Step(State(), r) == Run(oracle, old(State()), cmd)
    {
      var code := oracle(log, cmd);
      if code in cmd.checkExitCode {
        devices := DeviceEffect(devices, cmd);
        r := Ok;
      } else {
        r := Err(ProcessExecutionError(cmd, code));
      }
      log := log + [cmd];
    }
  }
}
