/**
 * The `restartVM` handler as one pure function: the remote compute service is input data,
 * and the result is the HTTP reply together with every remote call issued, in order.
 */
module Workflow {
  import opened Wrappers
  import opened Gate
  import opened Inventory
  import opened Locator
  import opened Policy

  /** Process-wide configuration: the shared secret (possibly unset) and the target address. */
  datatype Config = Config(secret: Option<string>, targetIP: string)

  /** A remote call to the compute service. */
  datatype Call =
    | ListZones
    | ListInstances(zone: string)
    | GetInstance(zone: string, instance: string)
    | ResetInstance(zone: string, instance: string)
    | StartInstance(zone: string, instance: string)
  {
    /** Reset and start change the instance; the others only read. */
    predicate IsMutation() {
      ResetInstance? || StartInstance?
    }
  }

  /** What `instances.get` does for one instance. */
  datatype GetResult =
    | GetFails                        // the call throws
    | NoDetails                       // it resolves to nothing, or to a response without `data`
    | Details(status: Option<string>) // `data` is present; `status` may be absent

  /** The compute service as data. */
  datatype Service = Service(
    zones: seq<Zone>,
    details: map<(string, string), GetResult>,
    resetFails: bool,
    startFails: bool
  ) {
    /** The `get` outcome for an instance; the provider rejects a get for an instance it does not know. */
    function Fetch(zone: string, instance: string): GetResult {
      if (zone, instance) in details then details[(zone, instance)] else GetFails
    }
  }

  /** The reply sent to the monitor. */
  datatype Reply =
    | Forbidden
    | NotFound
    | Completed(instance: string)  // "Operation completed on <instance>"
    | FetchFailed                  // "Failed to fetch instance details"
    | OperationFailed              // "Failed to perform operation on VM"
  {
    function Code(): int {
      match this
      case Forbidden => 403
      case NotFound => 404
      case Completed(_) => 200
      case FetchFailed => 500
      case OperationFailed => 500
    }
  }

  datatype Outcome = Outcome(reply: Reply, calls: seq<Call>)

  /** The mutating calls among `calls`, in order. */
  function Mutations(calls: seq<Call>): (m: seq<Call>)
    ensures forall c :: c in m <==> c in calls && c.IsMutation()
    ensures |m| <= |calls|
  {
    if |calls| == 0 then []
    else if calls[0].IsMutation() then [calls[0]] + Mutations(calls[1..])
    else Mutations(calls[1..])
  }

  /** The `instances.list` calls for the given zones, one per zone, in zone order. */
  function ListCalls(zones: seq<Zone>): (r: seq<Call>)
    ensures |r| == |zones|
    ensures forall i :: 0 <= i < |zones| ==> r[i] == ListInstances(zones[i].name)
  {
    seq(|zones|, i requires 0 <= i < |zones| => ListInstances(zones[i].name))
  }

  /**
   * Breaking out of the zone loop early only cuts the listing short: the listing of the
   * first `k` zones is the first `k` calls of the full listing.
   */
  lemma ListCallsPrefix(zones: seq<Zone>, k: nat)
    requires k <= |zones|
    ensures ListCalls(zones[..k]) == ListCalls(zones)[..k]
  {
  }

  /**
   * Fetch, decide, act for the located instance. A failing get, reset or start lands in the
   * catch block; a missing response or `data` returns early; any other path replies 200.
   */
  function Remediate(svc: Service, zone: string, name: string): (o: Outcome)
    ensures |o.calls| >= 1 && o.calls[0] == GetInstance(zone, name)
    ensures |o.calls| <= 2
    ensures forall k :: 1 <= k < |o.calls| ==>
      o.calls[k].IsMutation() && o.calls[k].zone == zone && o.calls[k].instance == name
    ensures o.reply in {Completed(name), FetchFailed, OperationFailed}
    ensures !svc.Fetch(zone, name).Details? ==> o.calls == [GetInstance(zone, name)]
    ensures |o.calls| == 2 && o.calls[1].ResetInstance? ==>
      svc.Fetch(zone, name) == Details(Some(Running))
    ensures |o.calls| == 2 && o.calls[1].StartInstance? ==>
      svc.Fetch(zone, name) in {Details(Some(Terminated)), Details(Some(Stopped))}
  {
    var get := GetInstance(zone, name);
    match svc.Fetch(zone, name)
    case GetFails => Outcome(OperationFailed, [get])
    case NoDetails => Outcome(FetchFailed, [get])
    case Details(status) =>
      match Decide(status)
      case ResetAction =>
        Outcome(if svc.resetFails then OperationFailed else Completed(name),
                [get, ResetInstance(zone, name)])
      case StartAction =>
        Outcome(if svc.startFails then OperationFailed else Completed(name),
                [get, StartInstance(zone, name)])
      case NoAction => Outcome(Completed(name), [get])
  }

  /** The whole handler: gate, list zones, scan, then remediate the located instance. */
  function RestartVM(cfg: Config, req: Request, svc: Service): (o: Outcome)
    ensures o.reply.Forbidden? <==> !Admits(cfg.secret, req)
    ensures o.reply.Forbidden? ==> o.calls == []
    ensures !o.reply.Forbidden? ==> |o.calls| >= 1 && o.calls[0] == ListZones
    ensures o.reply.NotFound? <==> Admits(cfg.secret, req) && Locate(svc.zones, cfg.targetIP).None?
  {
    if !Admits(cfg.secret, req) then Outcome(Forbidden, [])
    else
      match Locate(svc.zones, cfg.targetIP)
      case None => Outcome(NotFound, [ListZones] + ListCalls(svc.zones))
      case Some(h) =>
        var zone := svc.zones[h.zone].name;
        var rem := Remediate(svc, zone, At(svc.zones, h).name);
        Outcome(rem.reply, [ListZones] + ListCalls(svc.zones[..h.zone + 1]) + rem.calls)
  }
}
