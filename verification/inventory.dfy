/**
 * The slice of the compute inventory that `restartVM` reads while looking for its
 * target: zones, their instance lists and each instance's nested address fields.
 * Every field the source reaches with optional chaining is an `Option` here.
 */
module Inventory {
  import opened Wrappers

  datatype AccessConfig = AccessConfig(natIP: Option<string>)

  datatype NetworkInterface = NetworkInterface(accessConfigs: Option<seq<AccessConfig>>)

  /**
   * One entry of an `instances.list` response. A missing `name` is written as the empty
   * string: both are falsy, which is all the source ever asks of a name it is deciding on.
   */
  datatype Instance = Instance(name: string, networkInterfaces: Option<seq<NetworkInterface>>)

  /** A zone together with its `instances.list` response, whose `items` may be absent. */
  datatype Zone = Zone(name: string, items: Option<seq<Instance>>)

  /** The instance list of a zone; an absent `items` reads as an empty list. */
  function Items(z: Zone): (r: seq<Instance>)
    ensures z.items.None? ==> r == []
    ensures z.items.Some? ==> r == z.items.value
  {
    z.items.GetOr([])
  }

  /** `networkInterfaces?.[0]?.accessConfigs?.[0]?.natIP`: absent as soon as any step is. */
  function NatIP(inst: Instance): (r: Option<string>)
    ensures r.Some? <==> HasAddressPath(inst)
    ensures r.Some? ==>
      inst.networkInterfaces.value[0].accessConfigs.value[0].natIP == r
  {
    match inst.networkInterfaces
    case None => None
    case Some(nics) =>
      if |nics| == 0 then None
      else match nics[0].accessConfigs
        case None => None
        case Some(acs) => if |acs| == 0 then None else acs[0].natIP
  }

  /** Every step of the chain is present: a first interface, a first access config, an address. */
  predicate HasAddressPath(inst: Instance) {
    inst.networkInterfaces.Some? && |inst.networkInterfaces.value| > 0 &&
    inst.networkInterfaces.value[0].accessConfigs.Some? &&
    |inst.networkInterfaces.value[0].accessConfigs.value| > 0 &&
    inst.networkInterfaces.value[0].accessConfigs.value[0].natIP.Some?
  }

  /** `externalIP === targetIP`, with the target always a string. */
  predicate Matches(inst: Instance, target: string)
    ensures Matches(inst, target) ==> HasAddressPath(inst)
    ensures Matches(inst, target) <==>
      HasAddressPath(inst) &&
      inst.networkInterfaces.value[0].accessConfigs.value[0].natIP.value == target
  {
    NatIP(inst) == Some(target)
  }
}
