# vif_plug_vrouter in Dafny

A model of the vrouter VIF plugin: the code that binds a virtual machine's
network interface (VIF) to the vrouter forwarding agent. It has two parts.

- **Tap-device provisioner** (`vif_plug_vrouter/linux_net.py`): `device_exists`,
  `create_tap_dev` (try `ip tuntap add`, fall back to `tunctl`, optionally set
  the MAC address, bring the link up; a no-op for an existing device) and
  `delete_net_dev` (a no-op for a missing device; a failure is logged and
  re-raised unchanged).
- **Port binder** (`vif_plug_vrouter/vrouter.py`): `VrouterPlugin` with
  `get_supported_vifs`, `plug` (select one v4 and one v6 address, choose the
  port type, build the `vrouter-port-control` add arguments, create the tap
  device, register it) and `unplug` (deregister, then delete the device).

The host is a class `ProcessUtils.Host` with two pieces of state: the set of
live device names and the append-only log of issued commands. Each command
records its argument vector, its accepted exit codes and its run-as-root flag.
The exit code of a command comes from an oracle, a function of the log so far
and the command. A command succeeds iff its exit code is accepted; then
`ip tuntap add`/`tunctl` add the device name and `ip link delete` removes it.
Python exceptions become the `Outcome` datatype (`Ok` or
`Err(ProcessExecutionError(cmd, exitCode))`).

Every state-changing operation is a method on the host (`LinuxNet.CreateTapDev`,
`LinuxNet.DeleteNetDev`, `Vrouter.VrouterPlugin.Plug`, `Vrouter.VrouterPlugin.Unplug`).
Each is proved equal to a step function on the host state (`CreateTapDevStep`,
`DeleteNetDevStep`, `PlugStep`, `UnplugStep`). Lemmas about those functions
state the ordering, idempotency, fallback and failure properties. The argument
strings are built by a model of Python's `%` operator (`PyStrings.Format`), and
lemmas prove the field layout it produces.

Files: `wrappers.dfy` (Option), `py_strings.dfy` (Python truth testing, `str`
and `%`), `process_utils.dfy` (commands, errors, the host), `linux_net.dfy`,
`vrouter.dfy`.

Three behaviours of the code that a reader might not expect, which the model
keeps as written:

- Address selection keeps scanning after a match, so the **last** subnet that
  supplies an address wins, not the first. Only the first IP of each subnet is
  examined (`Vrouter.SelectionLastWinsExample`, `Vrouter.SelectionFirstIpOnlyExample`).
- `plug` calls `create_tap_dev(dev)` without a MAC address, so no
  `ip link set <dev> address` command is issued during plug (`Vrouter.PlugNeverSetsMac`,
  `Vrouter.PlugExample`).
- `unplug` has no try/finally: when deregistration fails, `delete_net_dev` is
  not reached (`Vrouter.UnplugDeregistersThenDeletes`).

## Model

| member | source | states |
|---|---|---|
| LinuxNet.SysPathInjective | vif_plug_vrouter/linux_net.py:28 | distinct device names have distinct `/sys/class/net/<dev>` paths |
| LinuxNet.DeviceExists | vif_plug_vrouter/linux_net.py:26-28 | probing the device's sysfs entry is true iff the device is live; it issues no command and changes nothing |
| LinuxNet.CreateTapDev | vif_plug_vrouter/linux_net.py:31-48 | the method's effect on the device set and command log, and its outcome, are exactly those of `CreateTapDevStep` |
| LinuxNet.CreateTapDevExistingIsNoop | vif_plug_vrouter/linux_net.py:32 | for a live device, creation succeeds, issues no command and changes nothing, whatever MAC is given |
| LinuxNet.CreateTapDevTriesIpThenTunctl | vif_plug_vrouter/linux_net.py:33-41 | for an absent device the first command is `ip tuntap add <dev> mode tap` (codes {0,2,254}, as root); `tunctl -b -t <dev>` (code 0 only) comes right after it iff it failed, and is issued once or not at all |
| LinuxNet.CreateTapDevAfterAdd | vif_plug_vrouter/linux_net.py:42-48 | after the creation commands only `ip link set` commands are issued |
| LinuxNet.CreateTapDevFallbackFails | vif_plug_vrouter/linux_net.py:38-48 | when both `ip tuntap` and `tunctl` fail, `tunctl`'s error propagates, exactly those two commands are issued (no `ip link set`) and the devices are unchanged |
| LinuxNet.CreateTapDevSuccessTrace | vif_plug_vrouter/linux_net.py:33-48 | a successful creation issues the creation commands, then `ip link set <dev> address <mac>` iff the MAC is truthy, then `ip link set <dev> up` last; the device is then live |
| LinuxNet.CreateTapDevLinkSteps | vif_plug_vrouter/linux_net.py:42-48 | once the device is created, whatever the outcome: `ip link set <dev> address <mac>` is issued iff the MAC is truthy and before `ip link set <dev> up`; `up` is issued iff the MAC command was skipped or succeeded; a failing MAC command is the reported error, otherwise `up` decides the outcome |
| LinuxNet.CreateTapDevErrorIsLastCommand | vif_plug_vrouter/linux_net.py:33-48 | a reported error is the failure of the last command issued (nothing runs after a failure), and never the caught `ip tuntap` failure |
| LinuxNet.CreateTapDevWithoutMac | vif_plug_vrouter/linux_net.py:31-48 | without a truthy MAC (`None` or empty), creation only appends `ip tuntap add`, `tunctl` and `ip link set <dev> up` commands to the log |
| LinuxNet.CreateTapDevFrame | vif_plug_vrouter/linux_net.py:31-48 | creation only appends to the log, adds at most `dev`, and leaves `dev` live iff it was live or a creation command succeeded, even if a later step failed (no cleanup) |
| LinuxNet.CreateTapDevIdempotent | vif_plug_vrouter/linux_net.py:31-32 | once a call has created the device, a second call issues nothing and succeeds |
| LinuxNet.DeleteNetDev | vif_plug_vrouter/linux_net.py:51-61 | the method's effect and outcome are exactly those of `DeleteNetDevStep` |
| LinuxNet.DeleteNetDevAbsentIsNoop | vif_plug_vrouter/linux_net.py:53 | deleting an absent device succeeds, issues no command and changes nothing |
| LinuxNet.DeleteNetDevPresent | vif_plug_vrouter/linux_net.py:53-61 | a live device gets exactly one `ip link delete <dev>` (codes {0,2,254}); success removes it, and a failure returns the command's own error unchanged with the devices untouched |
| LinuxNet.DeleteNetDevIdempotent | vif_plug_vrouter/linux_net.py:51-57 | after a successful deletion the device is gone and a second call issues nothing and succeeds |
| LinuxNet.CreateThenDeleteRestoresDevices | vif_plug_vrouter/linux_net.py:31-57 | successfully creating an absent device and then deleting it gives back the original device set |
| PyStrings.NatDigitsRoundTrip | vif_plug_vrouter/vrouter.py:60-64 | the decimal digits of a natural number read back as that number and start with a digit |
| PyStrings.DecimalStringRoundTrip | vif_plug_vrouter/vrouter.py:60-64 | `%d` rendering of any integer reads back as the same integer |
| PyStrings.FormatText | vif_plug_vrouter/vrouter.py:57-64 | `%` copies text without `%` to the output unchanged |
| PyStrings.FormatStrField | vif_plug_vrouter/vrouter.py:57-64 | text followed by `%s` emits the text and the argument's `str()` |
| PyStrings.FormatIntField | vif_plug_vrouter/vrouter.py:57-64 | text followed by `%d` emits the text and the integer in decimal |
| PyStrings.FormatStrFields2 | vif_plug_vrouter/vrouter.py:57-64 | two text-then-`%s` fields emit their texts and arguments in order |
| PyStrings.FormatStrFields4 | vif_plug_vrouter/vrouter.py:57-64 | four text-then-`%s` fields emit their texts and arguments in order |
| Vrouter.LastAddressNone | vif_plug_vrouter/vrouter.py:40-51 | no address of a version is selected iff no subnet's first IP is a non-empty address of that version |
| Vrouter.LastAddressIsLastSupplier | vif_plug_vrouter/vrouter.py:40-51 | a subnet supplying an address with no supplying subnet after it determines the selection (last wins) |
| Vrouter.LastAddressHasSupplier | vif_plug_vrouter/vrouter.py:40-51 | a selected address is the first-IP address of a supplying subnet with no supplying subnet after it |
| Vrouter.LastAddressReadsFirstIpsOnly | vif_plug_vrouter/vrouter.py:41-45 | subnets agreeing on their first IPs (or on being empty) select the same address: later IPs are never examined |
| Vrouter.SelectAddresses | vif_plug_vrouter/vrouter.py:36-51 | the loop ends with the last-supplier v4 address (default `0.0.0.0`) and the last-supplier v6 address (default `None`) |
| Vrouter.PortType | vif_plug_vrouter/vrouter.py:53-55 | the port type is `NameSpacePort` iff config `libvirt_virt_type` is `lxc`, else `NovaVMPort` |
| Vrouter.FormatVlanIds | vif_plug_vrouter/vrouter.py:60-64 | the two `%d` VLAN fields given -1 and -1 render as `--tx_vlan_id=-1 --rx_vlan_id=-1` |
| Vrouter.FormatVlanFields | vif_plug_vrouter/vrouter.py:59-64 | the template's end renders the port type and two VLAN ids of -1 |
| Vrouter.FormatAddTemplateTail | vif_plug_vrouter/vrouter.py:58-64 | the template from `--ip_address` on renders its six values in order |
| Vrouter.FormatAddTemplate | vif_plug_vrouter/vrouter.py:57-64 | formatting the add template with its twelve values succeeds and yields the fields in the fixed order `--oper=add` ... `--port_type`, then `--tx_vlan_id=-1 --rx_vlan_id=-1` |
| Vrouter.AddArgs | vif_plug_vrouter/vrouter.py:57-64 | the add argument string holds the VIF, instance and network ids, the selected addresses (`None` for no v6), name, MAC, tap name and port type in fixed order, with both VLAN ids -1 |
| Vrouter.DeleteArgs | vif_plug_vrouter/vrouter.py:75 | the delete argument string is `--oper=delete --uuid=<vif id>` |
| Vrouter.VrouterPlugin.constructor | vif_plug_vrouter/vrouter.py:25-26 | the plugin holds the configuration map given at construction, which stands for the `self.config` read at vrouter.py:54 (the source does not set it there; see Left out) |
| Vrouter.VrouterPlugin.GetSupportedVifs | vif_plug_vrouter/vrouter.py:28-29 | exactly one supported VIF type: (`vrouter`, `1.0`, `1.0`) |
| Vrouter.VrouterPlugin.Plug | vif_plug_vrouter/vrouter.py:31-67 | the method's effect and outcome are exactly those of `PlugStep` |
| Vrouter.VrouterPlugin.Unplug | vif_plug_vrouter/vrouter.py:69-78 | the method's effect and outcome are exactly those of `UnplugStep` |
| Vrouter.PlugCreatesThenRegisters | vif_plug_vrouter/vrouter.py:65-67 | a creation failure propagates with no port-control command; otherwise exactly the add command (as root, code 0) follows creation and decides the outcome |
| Vrouter.PlugNeverSetsMac | vif_plug_vrouter/vrouter.py:65 | plug only appends to the log and none of its commands sets a link-layer address |
| Vrouter.PlugKeepsDeviceWhenRegistrationFails | vif_plug_vrouter/vrouter.py:65-67 | when registration fails after creation, plug reports exactly that error (the add command and its rejected exit code) and the device stays live (no rollback) |
| Vrouter.UnplugDeregistersThenDeletes | vif_plug_vrouter/vrouter.py:74-78 | unplug first issues `vrouter-port-control "--oper=delete --uuid=<id>"`; if that fails its error propagates and nothing else happens, otherwise `delete_net_dev` follows |
| Vrouter.PlugThenUnplugRestoresDevices | vif_plug_vrouter/vrouter.py:65-78 | a successful plug of a new device followed by a successful unplug gives back the original device set |
| Vrouter.SelectionExample | vif_plug_vrouter/vrouter.py:40-51 | an empty subnet, a v4 subnet and a v6 subnet select `10.0.0.5` and `fe80::1` |
| Vrouter.SelectionLastWinsExample | vif_plug_vrouter/vrouter.py:40-51 | of two v4 subnets the later address is selected |
| Vrouter.SelectionFirstIpOnlyExample | vif_plug_vrouter/vrouter.py:41-45 | a v4 address in second place or an empty v4 address leaves the default `0.0.0.0` |
| Vrouter.PlugExample | vif_plug_vrouter/vrouter.py:31-67 | plugging a new VIF where all commands succeed issues `ip tuntap add`, `ip link set up` and the full add command, in that order |

## Left out

- `processutils.execute` is not part of this model: it is the host's `Execute` with an exit-code oracle. Its default accepted exit codes are taken to be {0}. Every failure it raises is a `ProcessExecutionError`; a missing binary is a rejected exit code.
- `processutils.configure` in `VrouterPlugin.__init__` is configuration plumbing and is not modelled. `__init__` passes its keyword arguments only to `processutils.configure` and does not call `PluginBase.__init__`, so nothing in vif_plug_vrouter/vrouter.py:25-26 sets the `self.config` that `plug` reads at line 54. The model assumes `self.config` is the map given at construction; `os_vif`'s `PluginBase` is not part of this model. If `PluginBase` sets `config` only in its own `__init__`, `plug` would raise AttributeError at line 54; this is not established here.
- Logging (`LOG.debug`, `LOG.error`, `_LE`) is left out. `excutils.save_and_reraise_exception` only matters in that the original error propagates unchanged, which the model states.
- `os.path.exists` on `/sys/class/net/<dev>`: the sysfs tree is reduced to one entry per live device. Paths such as the directory itself (an empty device name) or names with `/` are not modelled.
- The `ip` and `tunctl` tools: only their effect on the device set (create or delete the name) is modelled, not MAC addresses, link state or namespaces.
- Python's `%` operator is modelled for `%s`, `%d` and `%%` only, without flags or widths. The VIF and instance fields are strings; a `None` in those fields is not modelled (only the v6 address can be `None`).
- `os_vif.objects` are plain immutable records with only the fields the core reads.
- Concurrency and races between callers: the code has no locking, and the model is sequential.
