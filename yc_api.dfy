/**
  The slice of the Yandex Cloud compute API that the bot observes: an instance
  snapshot (status and network interfaces) and the pure extraction of its
  external IPv4 address. The remote calls themselves (get, start, stop, wait)
  are foreign; their outcomes are inputs to the router.
 */
module YcApi {

  /** The instance status enumeration. The four members the bot inspects are
      named; every other member of the provider's enumeration (ERROR, CRASHED,
      STARTING, ...) is `Other`, carrying the member's name. */
  datatype Status = PROVISIONING | RUNNING | STOPPING | STOPPED | Other(name: string)

  const NamedStatusNames: set<string> := {"PROVISIONING", "RUNNING", "STOPPING", "STOPPED"}

  /** A status the provider can report: an `Other` member never bears the name
      of one of the four named members. */
  type InstanceStatus = s: Status | !s.Other? || s.name !in NamedStatusNames witness RUNNING

  /** The enumeration member's name, as `Status(...).name` yields it. */
  function StatusName(s: InstanceStatus): (name: string)
    ensures s == PROVISIONING ==> name == "PROVISIONING"
    ensures s == RUNNING ==> name == "RUNNING"
    ensures s == STOPPING ==> name == "STOPPING"
    ensures s == STOPPED ==> name == "STOPPED"
    ensures s.Other? ==> name == s.name && name !in NamedStatusNames
  {
    match s
    case PROVISIONING => "PROVISIONING"
    case RUNNING => "RUNNING"
    case STOPPING => "STOPPING"
    case STOPPED => "STOPPED"
    case Other(n) => n
  }

  /** The four named members have four different names, so the `/status` reply
      tells them apart. */
  lemma StatusNameDistinct(s: Status, t: Status)
    requires !s.Other? && !t.Other? && s != t
    ensures StatusName(s) != StatusName(t)
  {
  }

  /** Different statuses are shown under different names: the status name
      identifies the status. */
  lemma StatusNameInjective(s: InstanceStatus, t: InstanceStatus)
    requires StatusName(s) == StatusName(t)
    ensures s == t
  {
  }

  /** A network interface; `natAddress` is the one-to-one NAT address of its
      primary IPv4 address, the empty string when none is assigned (the
      protobuf default). */
  datatype NetworkInterface = NetworkInterface(natAddress: string)

  /** A snapshot of a compute instance as fetched from the provider. */
  datatype Instance = Instance(id: string, status: InstanceStatus, interfaces: seq<NetworkInterface>)

  /** An opaque handle to a provider-side asynchronous operation. */
  datatype Operation = Operation(id: string)

  /** The instance's external address: empty unless the instance is RUNNING and
      has at least one interface, otherwise the first interface's NAT address. */
  function GetIp(inst: Instance): (ip: string)
    ensures ip != "" ==> inst.status == RUNNING && |inst.interfaces| > 0
    ensures inst.status == RUNNING && |inst.interfaces| > 0 ==> ip == inst.interfaces[0].natAddress
  {
    if inst.status != RUNNING then ""
    else if |inst.interfaces| == 0 then ""
    else inst.interfaces[0].natAddress
  }

  /** A non-RUNNING instance has no external address, whatever its interfaces. */
  lemma GetIpNotRunning(inst: Instance)
    requires inst.status != RUNNING
    ensures GetIp(inst) == ""
  {
  }

  /** A RUNNING instance without interfaces has no external address. */
  lemma GetIpNoInterfaces(inst: Instance)
    requires inst.status == RUNNING && inst.interfaces == []
    ensures GetIp(inst) == ""
  {
  }

  /** Only the first interface matters: interfaces after it never change the
      address, and two snapshots that agree on status and first interface
      agree on the address. */
  lemma GetIpIgnoresLaterInterfaces(inst: Instance, first: NetworkInterface, rest: seq<NetworkInterface>, rest': seq<NetworkInterface>)
    requires inst.interfaces == [first] + rest
    ensures GetIp(inst) == GetIp(inst.(interfaces := [first] + rest'))
    ensures GetIp(inst) == GetIp(inst.(interfaces := [first]))
    ensures inst.status == RUNNING ==> GetIp(inst) == first.natAddress
  {
  }
}
