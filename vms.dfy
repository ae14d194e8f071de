/**
  azurelib/vms.go: reading an Azure virtual machine's resource ID, its
  optional properties, and the details `getVMDetails` gathers about the
  machine from the network interface and public IP address services.

  An Azure resource ID is a path
  "/subscriptions/<sub>/resourceGroups/<rg>/providers/<provider>/<kind>/<name>",
  and the accessors read it by splitting on "/" and taking fixed segments.
  Indexing past the end of the split, or dereferencing a nil pointer, makes
  the Go code panic; those demands are preconditions here.
*/
module AzureVms {
  import opened Wrappers
  import opened Strings

  /** A Go `(value, error)` pair: on error the value is the type's zero value. */
  datatype Answer<T> = Answer(value: T, err: Option<string>)

  /** The optional field a getter's answer fills: present exactly when the error is nil. */
  function Filled(a: Answer<string>): Option<string>
  {
    if a.err == None then Some(a.value) else None
  }

  /**
    The parts of a `compute.VirtualMachine` the code reads: its ID, tags,
    location, the OS profile's admin user name and the IDs of its network
    interfaces (`None` for a nil list).
  */
  datatype VirtualMachine = VirtualMachine(
    id: Option<string>,
    tags: Option<map<string, Option<string>>>,
    location: Option<string>,
    adminUsername: Option<string>,
    networkInterfaces: Option<seq<string>>)

  /** `strings.Split(id, "/")`. */
  function Segments(id: string): seq<string>
  {
    Split(id, '/')
  }

  /** The path of an Azure resource's ID, nine segments the first of which is empty. */
  function ResourceID(subscription: string, resourceGroup: string, provider: string, kind: string, name: string): string
  {
    Join(["", "subscriptions", subscription, "resourceGroups", resourceGroup, "providers", provider, kind, name], '/')
  }

  /** A subnet's ID: its virtual network's ID followed by "/subnets/<name>". */
  function SubnetID(subscription: string, resourceGroup: string, network: string, subnet: string): string
  {
    Join(["", "subscriptions", subscription, "resourceGroups", resourceGroup, "providers",
          "Microsoft.Network", "virtualNetworks", network, "subnets", subnet], '/')
  }

  /** Names free of "/" are exactly what splitting a resource ID gives back, each at its fixed index. */
  lemma ResourceIDSegments(subscription: string, resourceGroup: string, provider: string, kind: string, name: string)
    requires '/' !in subscription && '/' !in resourceGroup && '/' !in provider && '/' !in kind && '/' !in name
    ensures Segments(ResourceID(subscription, resourceGroup, provider, kind, name))
      == ["", "subscriptions", subscription, "resourceGroups", resourceGroup, "providers", provider, kind, name]
  {
    var parts := ["", "subscriptions", subscription, "resourceGroups", resourceGroup, "providers", provider, kind, name];
    assert forall i :: 0 <= i < |parts| ==> '/' !in parts[i] by {
      forall i | 0 <= i < |parts|
        ensures '/' !in parts[i]
      {
        if i == 1 {
          assert parts[i] == "subscriptions";
        } else if i == 3 {
          assert parts[i] == "resourceGroups";
        } else if i == 5 {
          assert parts[i] == "providers";
        }
      }
    }
    SplitJoin(parts, '/');
  }

  lemma SubnetIDSegments(subscription: string, resourceGroup: string, network: string, subnet: string)
    requires '/' !in subscription && '/' !in resourceGroup && '/' !in network && '/' !in subnet
    ensures Segments(SubnetID(subscription, resourceGroup, network, subnet))
      == ["", "subscriptions", subscription, "resourceGroups", resourceGroup, "providers",
          "Microsoft.Network", "virtualNetworks", network, "subnets", subnet]
  {
    var parts := ["", "subscriptions", subscription, "resourceGroups", resourceGroup, "providers",
                  "Microsoft.Network", "virtualNetworks", network, "subnets", subnet];
    assert forall i :: 0 <= i < |parts| ==> '/' !in parts[i] by {
      forall i | 0 <= i < |parts|
        ensures '/' !in parts[i]
      {
        if i == 1 {
          assert parts[i] == "subscriptions";
        } else if i == 3 {
          assert parts[i] == "resourceGroups";
        } else if i == 5 {
          assert parts[i] == "providers";
        } else if i == 6 {
          assert parts[i] == "Microsoft.Network";
        } else if i == 7 {
          assert parts[i] == "virtualNetworks";
        } else if i == 9 {
          assert parts[i] == "subnets";
        }
      }
    }
    SplitJoin(parts, '/');
  }

  /** `GetVMSubscription`: segment 2 of the ID, or "No subscription" when there is no ID. */
  function GetVMSubscription(vm: VirtualMachine): (r: Answer<string>)
    requires vm.id.Some? ==> |Segments(vm.id.value)| > 2
    ensures r.err == None <==> vm.id.Some?
    ensures vm.id.None? ==> r == Answer("", Some("No subscription"))
    ensures '/' !in r.value
  {
    if vm.id.Some? then Answer(Segments(vm.id.value)[2], None)
    else Answer("", Some("No subscription"))
  }

  /** `GetVMResourcegroup`: segment 4 of the ID, or "No resourceGroup" when there is no ID. */
  function GetVMResourcegroup(vm: VirtualMachine): (r: Answer<string>)
    requires vm.id.Some? ==> |Segments(vm.id.value)| > 4
    ensures r.err == None <==> vm.id.Some?
    ensures vm.id.None? ==> r == Answer("", Some("No resourceGroup"))
    ensures '/' !in r.value
  {
    if vm.id.Some? then Answer(Segments(vm.id.value)[4], None)
    else Answer("", Some("No resourceGroup"))
  }

  /** `GetVMname`: segment 8 of the ID, or "No vm name" when there is no ID. */
  function GetVMname(vm: VirtualMachine): (r: Answer<string>)
    requires vm.id.Some? ==> |Segments(vm.id.value)| > 8
    ensures r.err == None <==> vm.id.Some?
    ensures vm.id.None? ==> r == Answer("", Some("No vm name"))
    ensures '/' !in r.value
  {
    if vm.id.Some? then Answer(Segments(vm.id.value)[8], None)
    else Answer("", Some("No vm name"))
  }

  /**
    The three ID accessors read back the subscription, resource group and
    name a virtual machine's ID was built from.
  */
  lemma VMIDRoundTrip(vm: VirtualMachine, subscription: string, resourceGroup: string, name: string)
    requires '/' !in subscription && '/' !in resourceGroup && '/' !in name
    requires vm.id == Some(ResourceID(subscription, resourceGroup, "Microsoft.Compute", "virtualMachines", name))
    ensures |Segments(vm.id.value)| == 9
    ensures GetVMSubscription(vm) == Answer(subscription, None)
    ensures GetVMResourcegroup(vm) == Answer(resourceGroup, None)
    ensures GetVMname(vm) == Answer(name, None)
  {
    assert '/' !in "Microsoft.Compute" && '/' !in "virtualMachines";
    ResourceIDSegments(subscription, resourceGroup, "Microsoft.Compute", "virtualMachines", name);
  }

  /** `GetVMTags`: the tag map, or an empty one and "no tags present for the vm". */
  function GetVMTags(vm: VirtualMachine): (r: Answer<map<string, Option<string>>>)
    ensures vm.tags == (if r.err == None then Some(r.value) else None)
    ensures r.err != None ==> r == Answer(map[], Some("no tags present for the vm"))
  {
    if vm.tags.Some? then Answer(vm.tags.value, None)
    else Answer(map[], Some("no tags present for the vm"))
  }

  /** `GetVMLocation`: the location, or "" and "no location assigned to the vm". */
  function GetVMLocation(vm: VirtualMachine): (r: Answer<string>)
    ensures vm.location == Filled(r)
    ensures r.err != None ==> r == Answer("", Some("no location assigned to the vm"))
  {
    if vm.location.Some? then Answer(vm.location.value, None)
    else Answer("", Some("no location assigned to the vm"))
  }

  /** `GetVMadminusername`: the OS profile's admin user name, or "" and "Vm has no admin user name". */
  function GetVMadminusername(vm: VirtualMachine): (r: Answer<string>)
    ensures vm.adminUsername == Filled(r)
    ensures r.err != None ==> r == Answer("", Some("Vm has no admin user name"))
  {
    if vm.adminUsername.Some? then Answer(vm.adminUsername.value, None)
    else Answer("", Some("Vm has no admin user name"))
  }

  /** What `GetVmnetworkinterface` dereferences: a listed NIC has a first entry whose ID has nine segments. */
  predicate NicListed(vm: VirtualMachine)
  {
    vm.networkInterfaces.Some? ==> |vm.networkInterfaces.value| > 0 && |Segments(vm.networkInterfaces.value[0])| > 8
  }

  /** `GetVmnetworkinterface`: the name (segment 8) of the first network interface, or "Vm has no network interface". */
  function GetVmnetworkinterface(vm: VirtualMachine): (r: Answer<string>)
    requires NicListed(vm)
    ensures r.err == None <==> vm.networkInterfaces.Some?
    ensures vm.networkInterfaces.None? ==> r == Answer("", Some("Vm has no network interface"))
    ensures '/' !in r.value
  {
    if vm.networkInterfaces.Some? then Answer(Segments(vm.networkInterfaces.value[0])[8], None)
    else Answer("", Some("Vm has no network interface"))
  }

  /** Only the first network interface counts: whatever follows it, the name is the one its ID was built from. */
  lemma FirstNicOnly(vm: VirtualMachine, subscription: string, resourceGroup: string, nic: string, rest: seq<string>)
    requires '/' !in subscription && '/' !in resourceGroup && '/' !in nic
    requires vm.networkInterfaces == Some([ResourceID(subscription, resourceGroup, "Microsoft.Network", "networkInterfaces", nic)] + rest)
    ensures NicListed(vm)
    ensures GetVmnetworkinterface(vm) == Answer(nic, None)
  {
    assert '/' !in "Microsoft.Network" && '/' !in "networkInterfaces";
    ResourceIDSegments(subscription, resourceGroup, "Microsoft.Network", "networkInterfaces", nic);
  }

  /** The first IP configuration of a network interface, as the lookups read it. */
  datatype IPConfiguration = IPConfiguration(
    name: string,
    privateIPAddress: Option<string>,
    publicIPAddressID: Option<string>,
    subnetID: Option<string>)

  datatype Interface = Interface(ipConfigurations: seq<IPConfiguration>)

  /** A public IP address resource: its address and its DNS name, each possibly unset. */
  datatype PublicIPAddress = PublicIPAddress(ipAddress: Option<string>, fqdn: Option<string>)

  /**
    The SDK clients as lookups: the network interface and the public IP
    address with a given resource group and name, or the error the service
    returned.
  */
  datatype Clients = Clients(
    interfaces: (string, string) -> Result<Interface>,
    publicIPs: (string, string) -> Result<PublicIPAddress>)

  /** What the interface lookups dereference: a found interface has at least one IP configuration. */
  predicate HasConfiguration(clients: Clients, resourceGroup: string, nic: string)
  {
    clients.interfaces(resourceGroup, nic).Ok? ==> |clients.interfaces(resourceGroup, nic).value.ipConfigurations| > 0
  }

  function FirstConfiguration(clients: Clients, resourceGroup: string, nic: string): IPConfiguration
    requires clients.interfaces(resourceGroup, nic).Ok? && HasConfiguration(clients, resourceGroup, nic)
  {
    clients.interfaces(resourceGroup, nic).value.ipConfigurations[0]
  }

  /** A found interface's first configuration names its public IP and subnet by IDs long enough to index. */
  predicate Readable(clients: Clients, resourceGroup: string, nic: string)
  {
    && HasConfiguration(clients, resourceGroup, nic)
    && (clients.interfaces(resourceGroup, nic).Ok? ==>
         var c := FirstConfiguration(clients, resourceGroup, nic);
         && (c.publicIPAddressID.Some? ==> |Segments(c.publicIPAddressID.value)| > 8)
         && (c.subnetID.Some? ==> |Segments(c.subnetID.value)| > 10))
  }

  /**
    `GetPrivateIP`: the first configuration's private address ("" when it
    has none) and its name, or the lookup's error with both empty.
  */
  function GetPrivateIP(clients: Clients, resourceGroup: string, nic: string): (r: Answer<(string, string)>)
    requires HasConfiguration(clients, resourceGroup, nic)
    ensures r.err == None <==> clients.interfaces(resourceGroup, nic).Ok?
    ensures r.err != None ==> r == Answer(("", ""), Some(clients.interfaces(resourceGroup, nic).error))
    ensures r.err == None ==>
      var c := FirstConfiguration(clients, resourceGroup, nic);
      && r.value.1 == c.name
      && (c.privateIPAddress.Some? ==> r.value.0 == c.privateIPAddress.value)
      && (c.privateIPAddress.None? ==> r.value.0 == "")
  {
    match clients.interfaces(resourceGroup, nic)
    case Err(e) => Answer(("", ""), Some(e))
    case Ok(i) =>
      var c := i.ipConfigurations[0];
      Answer((if c.privateIPAddress.Some? then c.privateIPAddress.value else "", c.name), None)
  }

  /**
    `GetPublicIPAddressID`: the name (segment 8) of the public IP address the
    first configuration refers to, "Vm has no publicIPname" when it refers
    to none, or the lookup's error.
  */
  function GetPublicIPAddressID(clients: Clients, resourceGroup: string, nic: string): (r: Answer<string>)
    requires Readable(clients, resourceGroup, nic)
    ensures r.err == None <==>
      clients.interfaces(resourceGroup, nic).Ok? && FirstConfiguration(clients, resourceGroup, nic).publicIPAddressID.Some?
    ensures clients.interfaces(resourceGroup, nic).Err? ==> r == Answer("", Some(clients.interfaces(resourceGroup, nic).error))
    ensures clients.interfaces(resourceGroup, nic).Ok? && r.err != None ==> r == Answer("", Some("Vm has no publicIPname"))
    ensures '/' !in r.value
  {
    match clients.interfaces(resourceGroup, nic)
    case Err(e) => Answer("", Some(e))
    case Ok(i) =>
      var c := i.ipConfigurations[0];
      if c.publicIPAddressID.Some? then Answer(Segments(c.publicIPAddressID.value)[8], None)
      else Answer("", Some("Vm has no publicIPname"))
  }

  /** The virtual network and subnet a subnet ID names: segment 8, "/", segment 10. */
  function NetworkAndSubnet(subnetID: string): (r: string)
    requires |Segments(subnetID)| > 10
    ensures exists network, subnet :: '/' !in network && '/' !in subnet && r == network + "/" + subnet
  {
    var s := Segments(subnetID);
    assert '/' !in s[8] && '/' !in s[10];
    s[8] + "/" + s[10]
  }

  /** Reading a subnet ID gives back its virtual network and subnet names, joined by "/". */
  lemma NetworkAndSubnetRoundTrip(subscription: string, resourceGroup: string, network: string, subnet: string)
    requires '/' !in subscription && '/' !in resourceGroup && '/' !in network && '/' !in subnet
    ensures |Segments(SubnetID(subscription, resourceGroup, network, subnet))| > 10
    ensures NetworkAndSubnet(SubnetID(subscription, resourceGroup, network, subnet)) == network + "/" + subnet
  {
    SubnetIDSegments(subscription, resourceGroup, network, subnet);
  }

  /** Different virtual network and subnet pairs never read the same. */
  lemma NetworkAndSubnetInjective(network: string, subnet: string, network': string, subnet': string)
    requires '/' !in network && '/' !in subnet && '/' !in network' && '/' !in subnet'
    requires network + "/" + subnet == network' + "/" + subnet'
    ensures network == network' && subnet == subnet'
  {
    SplitAtSeparator(network, '/', subnet);
    SplitAtSeparator(network', '/', subnet');
    SplitWithoutSeparator(subnet, '/');
    SplitWithoutSeparator(subnet', '/');
    assert [network] + [subnet] == [network'] + [subnet'];
    assert network == ([network] + [subnet])[0] && subnet == ([network] + [subnet])[1];
  }

  /**
    `GetSubnetandvirtualnetwork`: "<network>/<subnet>" for the first
    configuration's subnet, "Vm has no virtual network and subnet" when it
    has none, or the lookup's error.
  */
  function GetSubnetandvirtualnetwork(clients: Clients, resourceGroup: string, nic: string): (r: Answer<string>)
    requires Readable(clients, resourceGroup, nic)
    ensures r.err == None <==>
      clients.interfaces(resourceGroup, nic).Ok? && FirstConfiguration(clients, resourceGroup, nic).subnetID.Some?
    ensures clients.interfaces(resourceGroup, nic).Err? ==> r == Answer("", Some(clients.interfaces(resourceGroup, nic).error))
    ensures clients.interfaces(resourceGroup, nic).Ok? && r.err != None ==> r == Answer("", Some("Vm has no virtual network and subnet"))
    ensures r.err == None ==> r.value == NetworkAndSubnet(FirstConfiguration(clients, resourceGroup, nic).subnetID.value)
  {
    match clients.interfaces(resourceGroup, nic)
    case Err(e) => Answer("", Some(e))
    case Ok(i) =>
      var c := i.ipConfigurations[0];
      if c.subnetID.Some? then Answer(NetworkAndSubnet(c.subnetID.value), None)
      else Answer("", Some("Vm has no virtual network and subnet"))
  }

  /** `GetPublicIPAddress`: the address of the named public IP, "Vm has no publicIPAddress" when unset, or the lookup's error. */
  function GetPublicIPAddress(clients: Clients, resourceGroup: string, publicIPName: string): (r: Answer<string>)
    ensures clients.publicIPs(resourceGroup, publicIPName).Err? ==> r == Answer("", Some(clients.publicIPs(resourceGroup, publicIPName).error))
    ensures clients.publicIPs(resourceGroup, publicIPName).Ok? ==>
      && clients.publicIPs(resourceGroup, publicIPName).value.ipAddress == Filled(r)
      && (r.err != None ==> r == Answer("", Some("Vm has no publicIPAddress")))
  {
    match clients.publicIPs(resourceGroup, publicIPName)
    case Err(e) => Answer("", Some(e))
    case Ok(ip) =>
      if ip.ipAddress.Some? then Answer(ip.ipAddress.value, None)
      else Answer("", Some("Vm has no publicIPAddress"))
  }

  /** `GetDNS`: the DNS name of the named public IP, "DNS is not configured" when unset, or the lookup's error. */
  function GetDNS(clients: Clients, resourceGroup: string, publicIPName: string): (r: Answer<string>)
    ensures clients.publicIPs(resourceGroup, publicIPName).Err? ==> r == Answer("", Some(clients.publicIPs(resourceGroup, publicIPName).error))
    ensures clients.publicIPs(resourceGroup, publicIPName).Ok? ==>
      && clients.publicIPs(resourceGroup, publicIPName).value.fqdn == Filled(r)
      && (r.err != None ==> r == Answer("", Some("DNS is not configured")))
  {
    match clients.publicIPs(resourceGroup, publicIPName)
    case Err(e) => Answer("", Some(e))
    case Ok(ip) =>
      if ip.fqdn.Some? then Answer(ip.fqdn.value, None)
      else Answer("", Some("DNS is not configured"))
  }

  /** `VirtualMachineinfo`: the machine and the details found for it, each unset (nil) when its lookup failed. */
  datatype VirtualMachineInfo = VirtualMachineInfo(
    vm: VirtualMachine,
    privateIpaddress: Option<string>,
    publicIpname: Option<string>,
    publicIpaddress: Option<string>,
    virtualnetandSubnet: Option<string>,
    ipconfig: Option<string>,
    dns: Option<string>)

  /** Everything `getVMDetails` dereferences, for the resource group and interface name it derives. */
  predicate Inspectable(clients: Clients, vm: VirtualMachine)
  {
    && (vm.id.Some? ==> |Segments(vm.id.value)| > 4)
    && (vm.id.Some? ==> NicListed(vm))
    && (vm.id.Some? && vm.networkInterfaces.Some? ==>
         Readable(clients, GetVMResourcegroup(vm).value, GetVmnetworkinterface(vm).value))
  }

  /** The public IP name `getVMDetails` records: set exactly when `GetPublicIPAddressID` succeeds. */
  function PublicIpName(clients: Clients, resourceGroup: string, nic: string): Option<string>
    requires Readable(clients, resourceGroup, nic)
  {
    Filled(GetPublicIPAddressID(clients, resourceGroup, nic))
  }

  /** The DNS name as the code records it: the public IP looked up under the network interface's name. */
  function DnsAsWritten(clients: Clients, resourceGroup: string, nic: string): Option<string>
  {
    Filled(GetDNS(clients, resourceGroup, nic))
  }

  /** The DNS name of the public IP the interface refers to, looked up under that public IP's name. */
  function Dns(clients: Clients, resourceGroup: string, nic: string): Option<string>
    requires Readable(clients, resourceGroup, nic)
  {
    match PublicIpName(clients, resourceGroup, nic)
    case None => None
    case Some(name) => Filled(GetDNS(clients, resourceGroup, name))
  }

  /**
    The DNS name recorded for a machine is the DNS name of the public IP
    address its network interface refers to, and nothing else: a name is
    recorded exactly when the interface refers to a public IP whose DNS name
    is set.
  */
  lemma DnsIsAttachedAddress(clients: Clients, resourceGroup: string, nic: string, fqdn: string)
    requires Readable(clients, resourceGroup, nic)
    ensures Dns(clients, resourceGroup, nic) == Some(fqdn) <==>
      && clients.interfaces(resourceGroup, nic).Ok?
      && FirstConfiguration(clients, resourceGroup, nic).publicIPAddressID.Some?
      && var name := Segments(FirstConfiguration(clients, resourceGroup, nic).publicIPAddressID.value)[8];
         && clients.publicIPs(resourceGroup, name).Ok?
         && clients.publicIPs(resourceGroup, name).value.fqdn == Some(fqdn)
  {
  }

  /** A network with one machine whose public IP "vm1-ip", not its interface "vm1-nic", carries the DNS name. */
  function ExampleClients(): Clients
  {
    Clients(
      (rg: string, name: string) =>
        if name == "vm1-nic" then
          Ok(Interface([IPConfiguration("ipconfig1", Some("10.0.0.4"),
            Some(ResourceID("sub1", "rg1", "Microsoft.Network", "publicIPAddresses", "vm1-ip")), None)]))
        else Err("ResourceNotFound"),
      (rg: string, name: string) =>
        if name == "vm1-ip" then Ok(PublicIPAddress(Some("52.0.0.1"), Some("vm1.example.net")))
        else Err("ResourceNotFound"))
  }

  /** The example interface's public IP ID splits into the nine segments of an Azure resource ID. */
  lemma ExamplePublicIPSegments()
    ensures Segments(ResourceID("sub1", "rg1", "Microsoft.Network", "publicIPAddresses", "vm1-ip"))
      == ["", "subscriptions", "sub1", "resourceGroups", "rg1", "providers", "Microsoft.Network", "publicIPAddresses", "vm1-ip"]
  {
    assert '/' !in "sub1" && '/' !in "rg1" && '/' !in "vm1-ip";
    assert '/' !in "Microsoft.Network";
    assert '/' !in "publicIPAddresses";
    ResourceIDSegments("sub1", "rg1", "Microsoft.Network", "publicIPAddresses", "vm1-ip");
  }

  /**
    Looking up the public IP under the network interface's name misses the
    DNS name that the interface's own public IP carries.
  */
  lemma DnsAsWrittenMissesName()
    ensures Readable(ExampleClients(), "rg1", "vm1-nic")
    ensures DnsAsWritten(ExampleClients(), "rg1", "vm1-nic") == None
    ensures Dns(ExampleClients(), "rg1", "vm1-nic") == Some("vm1.example.net")
  {
    var clients := ExampleClients();
    var id := ResourceID("sub1", "rg1", "Microsoft.Network", "publicIPAddresses", "vm1-ip");
    ExamplePublicIPSegments();
    assert clients.interfaces("rg1", "vm1-nic") == Ok(Interface([IPConfiguration("ipconfig1", Some("10.0.0.4"), Some(id), None)]));
    assert Segments(id)[8] == "vm1-ip";
    assert PublicIpName(clients, "rg1", "vm1-nic") == Some("vm1-ip");
    assert "vm1-nic" != "vm1-ip";
    assert clients.publicIPs("rg1", "vm1-nic") == Err("ResourceNotFound");
    assert clients.publicIPs("rg1", "vm1-ip") == Ok(PublicIPAddress(Some("52.0.0.1"), Some("vm1.example.net")));
  }

  /**
    `getVMDetails` as written: the record's fields are filled one lookup at
    a time. Only `VM` is set when the resource group or interface name
    cannot be read; after that each field is set exactly when its lookup
    succeeds, the public address only once the public IP name is known, and
    the DNS name is looked up under the interface's name.
  */
  method GetVMDetailsAsWritten(clients: Clients, vm: VirtualMachine) returns (info: VirtualMachineInfo)
    requires Inspectable(clients, vm)
    ensures info.vm == vm
    ensures vm.id.None? || vm.networkInterfaces.None? ==>
      info == VirtualMachineInfo(vm, None, None, None, None, None, None)
    ensures vm.id.Some? && vm.networkInterfaces.Some? ==>
      var rg := GetVMResourcegroup(vm).value;
      var nic := GetVmnetworkinterface(vm).value;
      && DetailsFrom(clients, rg, nic, info)
      && info.dns == DnsAsWritten(clients, rg, nic)
  {
    info := VirtualMachineInfo(vm, None, None, None, None, None, None);
    var resourceGroup := GetVMResourcegroup(vm);
    if resourceGroup.err.Some? {
      return;
    }
    var nic := GetVmnetworkinterface(vm);
    if nic.err.Some? {
      return;
    }
    var rg, name := resourceGroup.value, nic.value;
    var privateIP := GetPrivateIP(clients, rg, name);
    if privateIP.err == None {
      info := info.(privateIpaddress := Some(privateIP.value.0), ipconfig := Some(privateIP.value.1));
    }
    var network := GetSubnetandvirtualnetwork(clients, rg, name);
    if network.err == None {
      info := info.(virtualnetandSubnet := Some(network.value));
    }
    var dns := GetDNS(clients, rg, name);
    if dns.err == None {
      info := info.(dns := Some(dns.value));
    }
    var publicName := GetPublicIPAddressID(clients, rg, name);
    if publicName.err == None {
      info := info.(publicIpname := Some(publicName.value));
      var address := GetPublicIPAddress(clients, rg, publicName.value);
      if address.err == None {
        info := info.(publicIpaddress := Some(address.value));
      }
    }
  }

  /**
    Every detail except the DNS name, for a machine whose resource group and
    interface name were read: the private address and configuration name,
    the network and subnet, and the public IP's name, each set exactly when
    its lookup succeeded; the public address is set only with the name.
  */
  ghost predicate DetailsFrom(clients: Clients, resourceGroup: string, nic: string, info: VirtualMachineInfo)
    requires Readable(clients, resourceGroup, nic)
  {
    var privateIP := GetPrivateIP(clients, resourceGroup, nic);
    && info.privateIpaddress == (if privateIP.err == None then Some(privateIP.value.0) else None)
    && info.ipconfig == (if privateIP.err == None then Some(privateIP.value.1) else None)
    && info.virtualnetandSubnet == Filled(GetSubnetandvirtualnetwork(clients, resourceGroup, nic))
    && info.publicIpname == PublicIpName(clients, resourceGroup, nic)
    && info.publicIpaddress == (match info.publicIpname
                                case None => None
                                case Some(name) => Filled(GetPublicIPAddress(clients, resourceGroup, name)))
  }

  /**
    `getVMDetails` with the DNS name looked up under the public IP's name,
    once that name is known, as the public address already is.
  */
  method GetVMDetails(clients: Clients, vm: VirtualMachine) returns (info: VirtualMachineInfo)
    requires Inspectable(clients, vm)
    ensures info.vm == vm
    ensures vm.id.None? || vm.networkInterfaces.None? ==>
      info == VirtualMachineInfo(vm, None, None, None, None, None, None)
    ensures vm.id.Some? && vm.networkInterfaces.Some? ==>
      var rg := GetVMResourcegroup(vm).value;
      var nic := GetVmnetworkinterface(vm).value;
      && DetailsFrom(clients, rg, nic, info)
      && info.dns == Dns(clients, rg, nic)
    ensures info.publicIpaddress.Some? ==> info.publicIpname.Some?
    ensures info.dns.Some? ==> info.publicIpname.Some?
  {
    info := VirtualMachineInfo(vm, None, None, None, None, None, None);
    var resourceGroup := GetVMResourcegroup(vm);
    if resourceGroup.err.Some? {
      return;
    }
    var nic := GetVmnetworkinterface(vm);
    if nic.err.Some? {
      return;
    }
    var rg, name := resourceGroup.value, nic.value;
    var privateIP := GetPrivateIP(clients, rg, name);
    if privateIP.err == None {
      info := info.(privateIpaddress := Some(privateIP.value.0), ipconfig := Some(privateIP.value.1));
    }
    var network := GetSubnetandvirtualnetwork(clients, rg, name);
    if network.err == None {
      info := info.(virtualnetandSubnet := Some(network.value));
    }
    var publicName := GetPublicIPAddressID(clients, rg, name);
    if publicName.err == None {
      info := info.(publicIpname := Some(publicName.value));
      var address := GetPublicIPAddress(clients, rg, publicName.value);
      if address.err == None {
        info := info.(publicIpaddress := Some(address.value));
      }
      var dns := GetDNS(clients, rg, publicName.value);
      if dns.err == None {
        info := info.(dns := Some(dns.value));
      }
    }
  }
}
