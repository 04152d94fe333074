/** The port binder: the vrouter VIF plugin. It advertises its one supported
    VIF type, and plugs a VIF by creating its tap device and registering it with
    `vrouter-port-control`, or unplugs it by deregistering it and deleting the
    device. Plug and unplug are methods on the host, proved equal to step
    functions; the address selection, port-type choice and argument strings are
    functions with lemmas. */
module Vrouter {
  import opened Wrappers
  import opened PyStrings
  import opened ProcessUtils
  import opened LinuxNet

  const PluginName: string := "vrouter"

  /** A supported VIF type: the plugin's name and the VIF object versions it handles. */
  datatype PluginVifSupport = PluginVifSupport(pluginName: string, minVersion: string, maxVersion: string)

  /** An IP assigned to a port; the address may be missing (`None`) or empty. */
  datatype FixedIp = FixedIp(version: int, address: Option<string>)

  datatype Subnet = Subnet(ips: seq<FixedIp>)

  datatype Network = Network(id: string, subnets: seq<Subnet>)

  /** The VIF being plugged: its id, tap device name, MAC address and network. */
  datatype Vif = Vif(id: string, devname: string, address: string, network: Network)

  datatype Instance = Instance(uuid: string, projectId: string, displayName: string)

  // ---------------------------------------------------------------------------
  // Address selection

  /** The v4 address reported when no subnet supplies one. */
  const DefaultIpAddress: string := "0.0.0.0"

  /** Whether `subnet` supplies an address of IP `version`: only its first IP is
      looked at, and that IP must carry a non-empty address. */
  predicate Supplies(subnet: Subnet, version: int) {
    |subnet.ips| > 0 && Truthy(subnet.ips[0].address) && subnet.ips[0].version == version
  }

  function FirstAddress(subnet: Subnet): string
    requires |subnet.ips| > 0 && subnet.ips[0].address.Some?
  {
    subnet.ips[0].address.value
  }

  /** The address of IP `version` that the scan over `subnets` ends with: each
      supplying subnet overwrites the previous choice, so the last one wins. */
  function LastAddress(subnets: seq<Subnet>, version: int): Option<string>
    decreases |subnets|
  {
    if subnets == [] then
      None
    else if Supplies(subnets[|subnets| - 1], version) then
      Some(FirstAddress(subnets[|subnets| - 1]))
    else
      LastAddress(subnets[..|subnets| - 1], version)
  }

  /** The v4 address plug reports. */
  function SelectedIpAddress(subnets: seq<Subnet>): string {
    LastAddress(subnets, 4).GetOr(DefaultIpAddress)
  }

  /** No address is selected exactly when no subnet supplies one. */
  lemma {:induction false} LastAddressNone(subnets: seq<Subnet>, version: int)
    ensures LastAddress(subnets, version).None? <==> forall i :: 0 <= i < |subnets| ==> !Supplies(subnets[i], version)
    decreases |subnets|
  {
    if subnets != [] {
      var init := subnets[..|subnets| - 1];
      LastAddressNone(init, version);
      assert forall i :: 0 <= i < |init| ==> init[i] == subnets[i];
    }
  }

  /** The subnet at `i` wins when it supplies an address and no later one does. */
  lemma {:induction false} LastAddressIsLastSupplier(subnets: seq<Subnet>, version: int, i: int)
    requires 0 <= i < |subnets| && Supplies(subnets[i], version)
    requires forall j :: i < j < |subnets| ==> !Supplies(subnets[j], version)
    ensures LastAddress(subnets, version) == Some(FirstAddress(subnets[i]))
    decreases |subnets|
  {
    if i < |subnets| - 1 {
      var init := subnets[..|subnets| - 1];
      assert forall j :: 0 <= j < |init| ==> init[j] == subnets[j];
      LastAddressIsLastSupplier(init, version, i);
    }
  }

  /** Conversely, a selected address is that of some supplying subnet with no
      supplying subnet after it. */
  lemma {:induction false} LastAddressHasSupplier(subnets: seq<Subnet>, version: int) returns (i: int)
    requires LastAddress(subnets, version).Some?
    ensures 0 <= i < |subnets| && Supplies(subnets[i], version)
    ensures LastAddress(subnets, version) == Some(FirstAddress(subnets[i]))
    ensures forall j :: i < j < |subnets| ==> !Supplies(subnets[j], version)
    decreases |subnets|
  {
    if Supplies(subnets[|subnets| - 1], version) {
      i := |subnets| - 1;
    } else {
      var init := subnets[..|subnets| - 1];
      i := LastAddressHasSupplier(init, version);
      assert forall j :: 0 <= j < |init| ==> init[j] == subnets[j];
    }
  }

  /** Only the first IP of each subnet matters: subnets that agree on their
      first IP (or are both empty) select the same address. */
  lemma {:induction false} LastAddressReadsFirstIpsOnly(subnets: seq<Subnet>, others: seq<Subnet>, version: int)
    requires |subnets| == |others|
    requires forall i :: 0 <= i < |subnets| ==>
               (subnets[i].ips == [] <==> others[i].ips == []) &&
               (subnets[i].ips != [] ==> subnets[i].ips[0] == others[i].ips[0])
    ensures LastAddress(subnets, version) == LastAddress(others, version)
    decreases |subnets|
  {
    if subnets != [] {
      var n := |subnets| - 1;
      assert forall i :: 0 <= i < n ==> subnets[..n][i] == subnets[i] && others[..n][i] == others[i];
      LastAddressReadsFirstIpsOnly(subnets[..n], others[..n], version);
    }
  }

  /** The loop of plug over the subnets, reassigning the v4 and v6 choices. */
  method SelectAddresses(subnets: seq<Subnet>) returns (ipAddr: string, ip6Addr: Option<string>)
    ensures ipAddr == SelectedIpAddress(subnets)
    ensures ip6Addr == LastAddress(subnets, 6)
  {
    ipAddr, ip6Addr := DefaultIpAddress, None;
    for i := 0 to |subnets|
      invariant ipAddr == SelectedIpAddress(subnets[..i])
      invariant ip6Addr == LastAddress(subnets[..i], 6)
    {
      assert subnets[..i + 1][..i] == subnets[..i];
      var subnet := subnets[i];
      if subnet.ips == [] {
        continue;
      }
      var ips := subnet.ips[0];
      if !Truthy(ips.address) {
        continue;
      }
      if ips.version == 4 {
        if ips.address.Some? {
          ipAddr := ips.address.value;
        }
      }
      if ips.version == 6 {
        if ips.address.Some? {
          ip6Addr := ips.address;
        }
      }
    }
    assert subnets[..|subnets|] == subnets;
  }

  // ---------------------------------------------------------------------------
  // Port type and the port-control arguments

  const VirtTypeKey: string := "libvirt_virt_type"

  /** The port type registered: a container port for LXC guests, a VM port otherwise. */
  function PortType(config: map<string, string>): (ptype: string)
    ensures ptype == "NameSpacePort" <==> VirtTypeKey in config && config[VirtTypeKey] == "lxc"
    ensures ptype == "NameSpacePort" || ptype == "NovaVMPort"
  {
    if VirtTypeKey in config && config[VirtTypeKey] == "lxc" then "NameSpacePort" else "NovaVMPort"
  }

  /** A `vrouter-port-control` invocation with one argument string, run as root,
      accepting only exit code 0. */
  function PortControl(args: string): Command {
    Command(["vrouter-port-control", args], DefaultExitCodes, true)
  }

  /** The `%` template of the registration arguments. It is written as nested
      concatenations, one literal run and one conversion per term, so that it
      can be formatted piece by piece. */
  const AddTemplate: string :=
      "--oper=add --uuid=" + ("%s" + (" --instance_uuid=" + ("%s" + (" --vn_uuid=" + ("%s" +
      (" --vm_project_uuid=" + ("%s" + AddTemplateTail)))))))

  const DeleteTemplate: string := "--oper=delete --uuid=" + "%s"

  lemma DecimalMinusOne()
    ensures DecimalString(-1) == "-1"
  {
  }

  /** The part of the registration template after the project id: from
      `--ip_address` to the VLAN ids. */
  const AddTemplateTail: string :=
      " --ip_address=" + ("%s" + (" --ipv6_address=" + ("%s" + (" --vm_name=" + ("%s" + (" --mac=" + ("%s" +
      (" --tap_name=" + ("%s" + (" --port_type=" + ("%s" + (" --tx_vlan_id=" + ("%d" + (" --rx_vlan_id=" + "%d"))))))))))))))

  /** The two VLAN ids at the end of the template, both rendered from -1. */
  lemma FormatVlanIds()
    ensures Format(" --tx_vlan_id=" + ("%d" + (" --rx_vlan_id=" + "%d")), [Int(-1), Int(-1)])
         == Some(" --tx_vlan_id=-1 --rx_vlan_id=-1")
  {
    DecimalMinusOne();
    var rx := " --rx_vlan_id=" + "%d";
    assert rx == " --rx_vlan_id=" + ("%d" + "");
    assert [Int(-1)] == [Int(-1)] + [];
    FormatIntField(" --rx_vlan_id=", "", -1, []);
    assert [Int(-1), Int(-1)] == [Int(-1)] + [Int(-1)];
    FormatIntField(" --tx_vlan_id=", rx, -1, [Int(-1)]);
    VlanIdsText();
  }

  lemma VlanIdsText()
    ensures " --tx_vlan_id=" + "-1" + (" --rx_vlan_id=" + "-1" + "") == " --tx_vlan_id=-1 --rx_vlan_id=-1"
  {
  }

  lemma FormatVlanFields(portType: string)
    ensures Format(" --port_type=" + ("%s" + (" --tx_vlan_id=" + ("%d" + (" --rx_vlan_id=" + "%d")))),
                   [Str(portType), Int(-1), Int(-1)])
         == Some(" --port_type=" + portType + " --tx_vlan_id=-1 --rx_vlan_id=-1")
  {
    FormatVlanIds();
    assert [Str(portType), Int(-1), Int(-1)] == [Str(portType)] + [Int(-1), Int(-1)];
    FormatStrField(" --port_type=", " --tx_vlan_id=" + ("%d" + (" --rx_vlan_id=" + "%d")), Str(portType), [Int(-1), Int(-1)]);
  }

  lemma FormatAddTemplateTail(ipAddr: string, ip6: Arg, vmName: string, mac: string, tapName: string, portType: string)
    ensures Format(AddTemplateTail, [Str(ipAddr), ip6, Str(vmName), Str(mac)] + [Str(tapName), Str(portType), Int(-1), Int(-1)])
         == Some(" --ip_address=" + ipAddr + " --ipv6_address=" + PyStr(ip6) + " --vm_name=" + vmName + " --mac=" + mac
                 + (" --tap_name=" + tapName + " --port_type=" + portType + " --tx_vlan_id=-1 --rx_vlan_id=-1"))
  {
    var r9 := " --port_type=" + ("%s" + (" --tx_vlan_id=" + ("%d" + (" --rx_vlan_id=" + "%d"))));
    var r8 := " --tap_name=" + ("%s" + r9);
    assert AddTemplateTail == " --ip_address=" + ("%s" + (" --ipv6_address=" + ("%s" + (" --vm_name=" + ("%s" + (" --mac=" + ("%s" + r8)))))));
    FormatVlanFields(portType);
    var tailArgs := [Str(tapName), Str(portType), Int(-1), Int(-1)];
    assert tailArgs == [Str(tapName)] + [Str(portType), Int(-1), Int(-1)];
    FormatStrField(" --tap_name=", r9, Str(tapName), [Str(portType), Int(-1), Int(-1)]);
    FormatStrFields4(" --ip_address=", " --ipv6_address=", " --vm_name=", " --mac=", r8,
                     Str(ipAddr), ip6, Str(vmName), Str(mac), tailArgs);
    Regroup8(" --ip_address=", ipAddr, " --ipv6_address=", PyStr(ip6), " --vm_name=", vmName, " --mac=", mac);
    var tap := " --tap_name=" + tapName;
    var vlans := " --port_type=" + portType + " --tx_vlan_id=-1 --rx_vlan_id=-1";
    assert tap + vlans == tap + " --port_type=" + portType + " --tx_vlan_id=-1 --rx_vlan_id=-1";
  }

  /** Formatting the registration template with its twelve values yields the
      fields in their fixed order, both VLAN ids being -1. */
  lemma FormatAddTemplate(id: string, instanceUuid: string, networkId: string, projectId: string,
                          ipAddr: string, ip6: Arg, vmName: string, mac: string, tapName: string, portType: string)
    ensures Format(AddTemplate, [Str(id), Str(instanceUuid), Str(networkId), Str(projectId)]
                                + ([Str(ipAddr), ip6, Str(vmName), Str(mac)] + [Str(tapName), Str(portType), Int(-1), Int(-1)]))
         == Some("--oper=add --uuid=" + id + " --instance_uuid=" + instanceUuid + " --vn_uuid=" + networkId
                 + " --vm_project_uuid=" + projectId
                 + (" --ip_address=" + ipAddr + " --ipv6_address=" + PyStr(ip6) + " --vm_name=" + vmName + " --mac=" + mac)
                 + (" --tap_name=" + tapName + " --port_type=" + portType + " --tx_vlan_id=-1 --rx_vlan_id=-1"))
  {
    assert AddTemplate == "--oper=add --uuid=" + ("%s" + (" --instance_uuid=" + ("%s" + (" --vn_uuid=" + ("%s"
                          + (" --vm_project_uuid=" + ("%s" + AddTemplateTail)))))));
    var rest := [Str(ipAddr), ip6, Str(vmName), Str(mac)] + [Str(tapName), Str(portType), Int(-1), Int(-1)];
    FormatAddTemplateTail(ipAddr, ip6, vmName, mac, tapName, portType);
    FormatStrFields4("--oper=add --uuid=", " --instance_uuid=", " --vn_uuid=", " --vm_project_uuid=", AddTemplateTail,
                     Str(id), Str(instanceUuid), Str(networkId), Str(projectId), rest);
    Regroup8("--oper=add --uuid=", id, " --instance_uuid=", instanceUuid, " --vn_uuid=", networkId,
             " --vm_project_uuid=", projectId);
    var head := "--oper=add --uuid=" + id + " --instance_uuid=" + instanceUuid + " --vn_uuid=" + networkId
                + " --vm_project_uuid=" + projectId;
    var middle := " --ip_address=" + ipAddr + " --ipv6_address=" + PyStr(ip6) + " --vm_name=" + vmName + " --mac=" + mac;
    var tail := " --tap_name=" + tapName + " --port_type=" + portType + " --tx_vlan_id=-1 --rx_vlan_id=-1";
    assert Format(AddTemplateTail, rest) == Some(middle + tail);
    Regroup3(head, middle, tail);
  }

  /** The registration argument string of plug, as `%` renders it: every field
      in its fixed order, `None` for a missing v6 address, VLAN ids fixed at -1. */
  function AddArgs(vif: Vif, instance: Instance, ipAddr: string, ip6Addr: Option<string>, portType: string): (r: string)
    ensures r == "--oper=add --uuid=" + vif.id + " --instance_uuid=" + instance.uuid + " --vn_uuid=" + vif.network.id
                 + " --vm_project_uuid=" + instance.projectId
                 + (" --ip_address=" + ipAddr + " --ipv6_address=" + (if ip6Addr.Some? then ip6Addr.value else "None")
                    + " --vm_name=" + instance.displayName + " --mac=" + vif.address)
                 + (" --tap_name=" + vif.devname + " --port_type=" + portType + " --tx_vlan_id=-1 --rx_vlan_id=-1")
  {
    var args := [Str(vif.id), Str(instance.uuid), Str(vif.network.id), Str(instance.projectId)]
                + ([Str(ipAddr), OptArg(ip6Addr), Str(instance.displayName), Str(vif.address)]
                + [Str(vif.devname), Str(portType), Int(-1), Int(-1)]);
    FormatAddTemplate(vif.id, instance.uuid, vif.network.id, instance.projectId, ipAddr, OptArg(ip6Addr),
                      instance.displayName, vif.address, vif.devname, portType);
    Format(AddTemplate, args).value
  }

  /** The deregistration argument string of unplug. */
  function DeleteArgs(vif: Vif): (r: string)
    ensures r == "--oper=delete --uuid=" + vif.id
  {
    FormatStrField("--oper=delete --uuid=", "", Str(vif.id), []);
    assert DeleteTemplate == "--oper=delete --uuid=" + ("%s" + "");
    assert [Str(vif.id)] == [Str(vif.id)] + [];
    Format(DeleteTemplate, [Str(vif.id)]).value
  }

  // ---------------------------------------------------------------------------
  // Plug and unplug

  /** The registration command plug issues for `vif`. */
  function AddCommand(config: map<string, string>, instance: Instance, vif: Vif): Command {
    var subnets := vif.network.subnets;
    PortControl(AddArgs(vif, instance, SelectedIpAddress(subnets), LastAddress(subnets, 6), PortType(config)))
  }

  /** The deregistration command unplug issues for `vif`. */
  function DeleteCommand(vif: Vif): Command {
    PortControl(DeleteArgs(vif))
  }

  /** `plug(instance, vif)` on host state `s`: create the tap device without a
      MAC address, then register it; a creation failure propagates before any
      registration, and a registration failure leaves the device in place. */
  function PlugStep(oracle: Oracle, s: HostState, config: map<string, string>, instance: Instance, vif: Vif): Step {
    var created := CreateTapDevStep(oracle, s, vif.devname, None);
    if created.outcome.Err? then created else Run(oracle, created.state, AddCommand(config, instance, vif))
  }

  /** `unplug(vif)` on host state `s`: deregister, then delete the device; a
      deregistration failure propagates and the device is not deleted. */
  function UnplugStep(oracle: Oracle, s: HostState, vif: Vif): Step {
    var deregistered := Run(oracle, s, DeleteCommand(vif));
    if deregistered.outcome.Err? then deregistered else DeleteNetDevStep(oracle, deregistered.state, vif.devname)
  }

  /** The plugin object. `config` stands for the `self.config` that plug reads;
      it is taken to be the map given at construction. */
  class VrouterPlugin {
    const config: map<string, string>

    constructor (config: map<string, string>)
      ensures this.config == config
    {
      this.config := config;
    }

    /** The one VIF type this plugin handles. */
    function GetSupportedVifs(): (vifs: set<PluginVifSupport>)
      ensures vifs == {PluginVifSupport("vrouter", "1.0", "1.0")}
    {
      {PluginVifSupport(PluginName, "1.0", "1.0")}
    }

    method Plug(host: Host, instance: Instance, vif: Vif) returns (r: Outcome)
      modifies host
      ensures Step(host.State(), r) == PlugStep(host.oracle, old(host.State()), config, instance, vif)
    {
      var dev := vif.devname;
      var ipAddr, ip6Addr := SelectAddresses(vif.network.subnets);
      var ptype := PortType(config);
      var cmdArgs := AddArgs(vif, instance, ipAddr, ip6Addr, ptype);
      r := CreateTapDev(host, dev, None);
      if r.Err? {
        return;
      }
      r := host.Execute(PortControl(cmdArgs));
    }

    method Unplug(host: Host, vif: Vif) returns (r: Outcome)
      modifies host
      ensures Step(host.State(), r) == UnplugStep(host.oracle, old(host.State()), vif)
    {
      var dev := vif.devname;
      var cmdArgs := DeleteArgs(vif);
      r := host.Execute(PortControl(cmdArgs));
      if r.Err? {
        return;
      }
      r := DeleteNetDev(host, dev);
    }
  }

  // ---------------------------------------------------------------------------
  // What plug and unplug promise

  /** `ip link set <dev> address ...`. */
  predicate IsSetAddress(cmd: Command) {
    IsIpLinkSet(cmd) && |cmd.argv| >= 5 && cmd.argv[4] == "address"
  }

  /** Plug creates before it registers: if creation fails its error propagates
      and no port-control command is issued; otherwise exactly the registration
      command follows the creation commands, and plug fails iff it fails. */
  lemma PlugCreatesThenRegisters(oracle: Oracle, s: HostState, config: map<string, string>, instance: Instance, vif: Vif)
    ensures var created := CreateTapDevStep(oracle, s, vif.devname, None);
      var r := PlugStep(oracle, s, config, instance, vif);
      (created.outcome.Err? ==> r == created) &&
      (created.outcome.Ok? ==>
         r.state.log == created.state.log + [AddCommand(config, instance, vif)] &&
         (r.outcome.Ok? <==> Succeeds(oracle, created.state.log, AddCommand(config, instance, vif))))
  {
  }

  /** Plug passes no MAC address to device creation: none of the commands it
      issues sets a link-layer address. */
  lemma PlugNeverSetsMac(oracle: Oracle, s: HostState, config: map<string, string>, instance: Instance, vif: Vif)
    ensures var log := PlugStep(oracle, s, config, instance, vif).state.log;
      |s.log| <= |log| && log[..|s.log|] == s.log &&
      forall i :: |s.log| <= i < |log| ==> !IsSetAddress(log[i])
  {
    var dev := vif.devname;
    var created := CreateTapDevStep(oracle, s, dev, None);
    var log := PlugStep(oracle, s, config, instance, vif).state.log;
    CreateTapDevWithoutMac(oracle, s, dev, None);
    assert !IsSetAddress(IpTuntapAdd(dev)) && !IsSetAddress(Tunctl(dev)) && !IsSetAddress(IpLinkSetUp(dev));
    assert !IsSetAddress(AddCommand(config, instance, vif));
    if created.outcome.Ok? {
      assert log == created.state.log + [AddCommand(config, instance, vif)];
    }
  }

  /** No rollback: when creation succeeds but registration fails, plug reports
      the registration error and the tap device stays live. */
  lemma PlugKeepsDeviceWhenRegistrationFails(oracle: Oracle, s: HostState, config: map<string, string>,
                                             instance: Instance, vif: Vif)
    requires CreateTapDevStep(oracle, s, vif.devname, None).outcome.Ok?
    requires !Succeeds(oracle, CreateTapDevStep(oracle, s, vif.devname, None).state.log, AddCommand(config, instance, vif))
    ensures var r := PlugStep(oracle, s, config, instance, vif);
      vif.devname in r.state.devices &&
      r.outcome == Err(ProcessExecutionError(AddCommand(config, instance, vif),
                                             oracle(CreateTapDevStep(oracle, s, vif.devname, None).state.log,
                                                    AddCommand(config, instance, vif))))
  {
    CreateTapDevFrame(oracle, s, vif.devname, None);
  }

  /** Unplug deregisters first; when that fails, its error propagates and
      delete_net_dev is never reached: only that one command is issued and the
      device set is unchanged. Otherwise device deletion follows. */
  lemma UnplugDeregistersThenDeletes(oracle: Oracle, s: HostState, vif: Vif)
    ensures var r := UnplugStep(oracle, s, vif);
      var deregistered := HostState(s.devices, s.log + [DeleteCommand(vif)]);
      (!Succeeds(oracle, s.log, DeleteCommand(vif)) ==>
         r == Step(deregistered, Err(ProcessExecutionError(DeleteCommand(vif), oracle(s.log, DeleteCommand(vif)))))) &&
      (Succeeds(oracle, s.log, DeleteCommand(vif)) ==> r == DeleteNetDevStep(oracle, deregistered, vif.devname))
  {
    assert DeviceEffect(s.devices, DeleteCommand(vif)) == s.devices;
  }

  /** Unplug undoes plug: for a device that did not exist, a successful plug
      followed by a successful unplug gives back the original device set. */
  lemma PlugThenUnplugRestoresDevices(oracle: Oracle, s: HostState, config: map<string, string>,
                                      instance: Instance, vif: Vif)
    requires vif.devname !in s.devices
    requires PlugStep(oracle, s, config, instance, vif).outcome.Ok?
    requires UnplugStep(oracle, PlugStep(oracle, s, config, instance, vif).state, vif).outcome.Ok?
    ensures UnplugStep(oracle, PlugStep(oracle, s, config, instance, vif).state, vif).state.devices == s.devices
  {
    var dev := vif.devname;
    var created := CreateTapDevStep(oracle, s, dev, None);
    CreateTapDevSuccessTrace(oracle, s, dev, None);
    var plugged := PlugStep(oracle, s, config, instance, vif);
    assert DeviceEffect(created.state.devices, AddCommand(config, instance, vif)) == created.state.devices;
    assert plugged.state.devices == s.devices + {dev};
    UnplugDeregistersThenDeletes(oracle, plugged.state, vif);
    var mid := HostState(plugged.state.devices, plugged.state.log + [DeleteCommand(vif)]);
    DeleteNetDevPresent(oracle, mid, dev);
  }

  // ---------------------------------------------------------------------------
  // Worked examples

  /** An empty subnet is skipped; a v4 and a v6 subnet each supply their address. */
  lemma SelectionExample()
    ensures var subnets := [Subnet([]), Subnet([FixedIp(4, Some("10.0.0.5"))]), Subnet([FixedIp(6, Some("fe80::1"))])];
      SelectedIpAddress(subnets) == "10.0.0.5" && LastAddress(subnets, 6) == Some("fe80::1")
  {
  }

  /** The scan never stops early: of two v4 subnets the later one wins, and
      without any v6 subnet no v6 address is selected. */
  lemma SelectionLastWinsExample()
    ensures var subnets := [Subnet([FixedIp(4, Some("10.0.0.1"))]), Subnet([FixedIp(4, Some("10.0.0.2"))])];
      SelectedIpAddress(subnets) == "10.0.0.2" && LastAddress(subnets, 6) == None
  {
  }

  /** Only first IPs count and empty addresses are skipped: a v4 address in
      second place, or an empty v4 address, leaves the default. */
  lemma SelectionFirstIpOnlyExample()
    ensures var subnets := [Subnet([FixedIp(6, Some("fe80::1")), FixedIp(4, Some("10.0.0.9"))]),
                            Subnet([FixedIp(4, Some(""))])];
      SelectedIpAddress(subnets) == DefaultIpAddress && LastAddress(subnets, 6) == Some("fe80::1")
  {
    var subnets := [Subnet([FixedIp(6, Some("fe80::1")), FixedIp(4, Some("10.0.0.9"))]),
                    Subnet([FixedIp(4, Some(""))])];
    assert !Supplies(subnets[1], 4) && !Supplies(subnets[1], 6);
    assert subnets[..1] == [subnets[0]] && [subnets[0]][..0] == [];
    assert !Supplies(subnets[0], 4) && Supplies(subnets[0], 6);
    assert LastAddress(subnets, 4) == LastAddress([subnets[0]], 4) == None;
    assert LastAddress(subnets, 6) == LastAddress([subnets[0]], 6);
  }

  /** Plugging a new VIF on a host where every command succeeds issues the tap
      creation, the link-up (no MAC setting) and the registration, in order. */
  lemma PlugExample()
    ensures var oracle := (log: seq<Command>, cmd: Command) => 0;
      var instance := Instance("I1", "P1", "vm1");
      var vif := Vif("A1", "tapA1", "aa:bb:cc:dd:ee:ff", Network("N1", [Subnet([FixedIp(4, Some("1.2.3.4"))])]));
      PlugStep(oracle, HostState({}, []), map[], instance, vif)
        == Step(HostState({"tapA1"},
                          [IpTuntapAdd("tapA1"), IpLinkSetUp("tapA1"),
                           PortControl("--oper=add --uuid=" + "A1" + " --instance_uuid=" + "I1" + " --vn_uuid=" + "N1"
                                       + " --vm_project_uuid=" + "P1"
                                       + (" --ip_address=" + "1.2.3.4" + " --ipv6_address=" + "None"
                                          + " --vm_name=" + "vm1" + " --mac=" + "aa:bb:cc:dd:ee:ff")
                                       + (" --tap_name=" + "tapA1" + " --port_type=" + "NovaVMPort"
                                          + " --tx_vlan_id=-1 --rx_vlan_id=-1"))]),
                Ok)
  {
  }
}
