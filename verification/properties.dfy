/** Properties of the whole handler, relating its reply and its calls to the inputs. */
module Properties {
  import opened Wrappers
  import opened Gate
  import opened Inventory
  import opened Locator
  import opened Policy
  import opened Workflow

  /** Filtering distributes over concatenation. */
  lemma {:induction false} MutationsAppend(a: seq<Call>, b: seq<Call>)
    ensures Mutations(a + b) == Mutations(a) + Mutations(b)
    decreases |a|
  {
    if |a| == 0 {
      assert a + b == b;
    } else {
      assert (a + b)[1..] == a[1..] + b;
      MutationsAppend(a[1..], b);
    }
  }

  /** Listing zones and instances never changes anything. */
  lemma ListingHasNoMutations(zones: seq<Zone>)
    ensures Mutations([ListZones] + ListCalls(zones)) == []
  {
    ReadOnlyCalls([ListZones] + ListCalls(zones));
  }

  /** A sequence of calls none of which mutates has no mutations. */
  lemma {:induction false} ReadOnlyCalls(calls: seq<Call>)
    requires forall k :: 0 <= k < |calls| ==> !calls[k].IsMutation()
    ensures Mutations(calls) == []
    decreases |calls|
  {
    if |calls| > 0 {
      ReadOnlyCalls(calls[1..]);
    }
  }

  /** The zone name and instance name the handler acts on, if the scan settled. */
  function Target(cfg: Config, svc: Service): Option<(string, string)> {
    match Locate(svc.zones, cfg.targetIP)
    case None => None
    case Some(h) => Some((svc.zones[h.zone].name, At(svc.zones, h).name))
  }

  /** The calls of an admitted request: the listing up to the settling zone, then remediation. */
  lemma CallsSplit(cfg: Config, req: Request, svc: Service, h: Hit)
    requires Admits(cfg.secret, req) && Locate(svc.zones, cfg.targetIP) == Some(h)
    ensures
      var zone := svc.zones[h.zone].name;
      var name := At(svc.zones, h).name;
      var listing := [ListZones] + ListCalls(svc.zones[..h.zone + 1]);
      var rem := Remediate(svc, zone, name);
      RestartVM(cfg, req, svc) == Outcome(rem.reply, listing + rem.calls) &&
      Mutations(RestartVM(cfg, req, svc).calls) == Mutations(rem.calls) &&
      Mutations(listing) == []
  {
    var zone := svc.zones[h.zone].name;
    var name := At(svc.zones, h).name;
    var listing := [ListZones] + ListCalls(svc.zones[..h.zone + 1]);
    var rem := Remediate(svc, zone, name);
    ListingHasNoMutations(svc.zones[..h.zone + 1]);
    MutationsAppend(listing, rem.calls);
  }

  /**
   * The refusal condition as the source spells it: neither channel carries the secret, or the
   * signal is none of the accepted texts. A refused request issues no remote call at all.
   */
  lemma RefusedBeforeAnyCall(cfg: Config, req: Request, svc: Service)
    ensures RestartVM(cfg, req, svc).reply.Code() == 403 <==>
      (req.headerSecret != cfg.secret && req.payloadSecret != cfg.secret) ||
      (!("Reporting Error" <= req.responseState) && req.responseState != "Not Responding" &&
       req.responseState != "Request Timeout")
    ensures RestartVM(cfg, req, svc).reply.Code() == 403 ==> RestartVM(cfg, req, svc).calls == []
  {
  }

  /** With an accepted signal, either secret channel alone gets the request past the gate. */
  lemma EitherChannelAuthenticates(cfg: Config, req: Request, svc: Service)
    requires Classify(req.responseState).Some?
    ensures RestartVM(cfg, req, svc).reply.Code() != 403 <==>
      (req.headerSecret == cfg.secret || req.payloadSecret == cfg.secret)
  {
  }

  /** With a matching secret, only the three accepted health signals get past the gate. */
  lemma OnlyAcceptedSignalsPass(cfg: Config, req: Request, svc: Service)
    requires req.headerSecret == cfg.secret || req.payloadSecret == cfg.secret
    ensures RestartVM(cfg, req, svc).reply.Code() == 403 <==>
      !(req.responseState == "Not Responding" || req.responseState == "Request Timeout" ||
        "Reporting Error" <= req.responseState)
  {
  }

  /**
   * With no configured secret, a request that lacks either the header or the payload secret
   * passes authentication whatever the other channel carries, because an undefined value
   * equals an undefined secret.
   */
  lemma UnsetSecretAdmitsMissingChannel(cfg: Config, req: Request, svc: Service)
    requires cfg.secret.None? && (req.headerSecret.None? || req.payloadSecret.None?)
    requires Classify(req.responseState).Some?
    ensures RestartVM(cfg, req, svc).reply.Code() != 403
  {
  }

  /**
   * When the scan settles on nothing, every zone's instances were listed, no instance was
   * fetched or changed, and the reply is 404. With named instances that happens exactly
   * when no instance carries the target address.
   */
  lemma NotFoundAfterFullScan(cfg: Config, req: Request, svc: Service)
    requires Admits(cfg.secret, req)
    ensures Target(cfg, svc).None? ==>
      var o := RestartVM(cfg, req, svc);
      o.reply.Code() == 404 && o.calls == [ListZones] + ListCalls(svc.zones) &&
      Mutations(o.calls) == [] &&
      forall k :: 0 <= k < |o.calls| ==> !o.calls[k].GetInstance?
    ensures NamesNonEmpty(svc.zones) ==>
      (RestartVM(cfg, req, svc).reply.Code() == 404 <==> !AnyMatch(svc.zones, cfg.targetIP))
  {
    ListingHasNoMutations(svc.zones);
    if NamesNonEmpty(svc.zones) {
      LocateFindsFirstHit(svc.zones, cfg.targetIP);
    }
    var o := RestartVM(cfg, req, svc);
    if Target(cfg, svc).Some? {
      var h := Locate(svc.zones, cfg.targetIP).value;
      CallsSplit(cfg, req, svc, h);
    }
  }

  /**
   * With named instances, the handler fetches exactly the first instance carrying the target
   * address, in zone order then instance order, after listing the zones up to its own, and
   * any mutating call is aimed at that instance.
   */
  lemma ActsOnFirstMatch(cfg: Config, req: Request, svc: Service, h: Hit)
    requires Admits(cfg.secret, req) && NamesNonEmpty(svc.zones)
    requires IsFirstHit(svc.zones, cfg.targetIP, h)
    ensures
      var o := RestartVM(cfg, req, svc);
      var zone := svc.zones[h.zone].name;
      var name := At(svc.zones, h).name;
      o.calls[..h.zone + 2] == [ListZones] + ListCalls(svc.zones[..h.zone + 1]) &&
      o.calls[h.zone + 2] == GetInstance(zone, name) &&
      forall c :: c in Mutations(o.calls) ==> c.zone == zone && c.instance == name
  {
    LocateFindsFirstHit(svc.zones, cfg.targetIP);
    CallsSplit(cfg, req, svc, h);
    var o := RestartVM(cfg, req, svc);
    var zone := svc.zones[h.zone].name;
    var name := At(svc.zones, h).name;
    var rem := Remediate(svc, zone, name);
    var listing := [ListZones] + ListCalls(svc.zones[..h.zone + 1]);
    assert o.calls == listing + rem.calls;
    assert o.calls[..h.zone + 2] == listing;
    forall c | c in Mutations(o.calls) ensures c.zone == zone && c.instance == name {
      var k :| 0 <= k < |rem.calls| && rem.calls[k] == c;
    }
  }

  /**
   * After a successful fetch the status alone decides the mutating calls: one reset for a
   * running instance, one start for a terminated or stopped one, none otherwise. The reply
   * is 200 naming the instance unless the chosen call fails, which gives 500.
   */
  lemma StatusDecidesMutation(cfg: Config, req: Request, svc: Service, status: Option<string>)
    requires Admits(cfg.secret, req) && Target(cfg, svc).Some?
    requires svc.Fetch(Target(cfg, svc).value.0, Target(cfg, svc).value.1) == Details(status)
    ensures
      var (zone, name) := Target(cfg, svc).value;
      var o := RestartVM(cfg, req, svc);
      (status == Some("RUNNING") ==>
        Mutations(o.calls) == [ResetInstance(zone, name)] &&
        o.reply == (if svc.resetFails then OperationFailed else Completed(name))) &&
      (status == Some("TERMINATED") || status == Some("STOPPED") ==>
        Mutations(o.calls) == [StartInstance(zone, name)] &&
        o.reply == (if svc.startFails then OperationFailed else Completed(name))) &&
      (status !in {Some("RUNNING"), Some("TERMINATED"), Some("STOPPED")} ==>
        Mutations(o.calls) == [] && o.reply == Completed(name) && o.reply.Code() == 200)
  {
    var h := Locate(svc.zones, cfg.targetIP).value;
    CallsSplit(cfg, req, svc, h);
  }

  /**
   * The reply is 500 exactly when the instance was located and then the fetch failed,
   * returned no details, or the chosen reset or start failed.
   */
  lemma ServerErrorCases(cfg: Config, req: Request, svc: Service)
    ensures RestartVM(cfg, req, svc).reply.Code() == 500 <==>
      Admits(cfg.secret, req) && Target(cfg, svc).Some? &&
      var r := svc.Fetch(Target(cfg, svc).value.0, Target(cfg, svc).value.1);
      || r.GetFails? || r.NoDetails?
      || (r == Details(Some("RUNNING")) && svc.resetFails)
      || ((r == Details(Some("TERMINATED")) || r == Details(Some("STOPPED"))) && svc.startFails)
  {
  }

  /**
   * Every request issues at most one mutating call, and it comes immediately after the
   * fetch of the same instance.
   */
  lemma AtMostOneMutation(cfg: Config, req: Request, svc: Service)
    ensures |Mutations(RestartVM(cfg, req, svc).calls)| <= 1
    ensures
      var calls := RestartVM(cfg, req, svc).calls;
      forall k :: 0 <= k < |calls| && calls[k].IsMutation() ==>
        k >= 1 && calls[k - 1] == GetInstance(calls[k].zone, calls[k].instance)
  {
    var o := RestartVM(cfg, req, svc);
    if Admits(cfg.secret, req) {
      match Locate(svc.zones, cfg.targetIP)
      case None =>
        ListingHasNoMutations(svc.zones);
        forall k | 0 <= k < |o.calls| ensures !o.calls[k].IsMutation() {
          assert o.calls[k] in o.calls;
        }
      case Some(h) =>
        CallsSplit(cfg, req, svc, h);
        var zone := svc.zones[h.zone].name;
        var name := At(svc.zones, h).name;
        var rem := Remediate(svc, zone, name);
        var listing := [ListZones] + ListCalls(svc.zones[..h.zone + 1]);
        assert o.calls == listing + rem.calls;
        assert forall k :: 0 <= k < |listing| ==> !listing[k].IsMutation();
        assert Mutations(rem.calls) == if |rem.calls| == 2 then [rem.calls[1]] else [];
    }
  }

  /**
   * A fetch that fails or returns no details is followed by no mutating call, and the reply
   * is 500.
   */
  lemma FailedFetchNoMutation(cfg: Config, req: Request, svc: Service)
    requires Admits(cfg.secret, req) && Target(cfg, svc).Some?
    requires !svc.Fetch(Target(cfg, svc).value.0, Target(cfg, svc).value.1).Details?
    ensures Mutations(RestartVM(cfg, req, svc).calls) == []
    ensures RestartVM(cfg, req, svc).reply.Code() == 500
  {
    CallsSplit(cfg, req, svc, Locate(svc.zones, cfg.targetIP).value);
  }

  /**
   * A mutating call is only ever made on the located instance, and only after its fetch
   * returned a status calling for it: a reset needs "RUNNING", a start "TERMINATED" or
   * "STOPPED". The handler never acts without a fresh status read.
   */
  lemma MutationNeedsFreshStatus(cfg: Config, req: Request, svc: Service)
    ensures forall c :: c in Mutations(RestartVM(cfg, req, svc).calls) ==>
      Admits(cfg.secret, req) && Target(cfg, svc) == Some((c.zone, c.instance)) &&
      (c.ResetInstance? ==> svc.Fetch(c.zone, c.instance) == Details(Some("RUNNING"))) &&
      (c.StartInstance? ==>
         svc.Fetch(c.zone, c.instance) in {Details(Some("TERMINATED")), Details(Some("STOPPED"))})
  {
  }

  /**
   * The sample report: secret "S" in the payload, no header, "Not Responding", and one
   * running instance at the target address is reset once and named in a 200 reply.
   */
  lemma RunningInstanceScenario()
    ensures
      var inst := Instance("vm-1", AddressedAt("X"));
      var svc := Service([Zone("z", Some([inst]))], map[("z", "vm-1") := Details(Some("RUNNING"))],
                         false, false);
      var o := RestartVM(Config(Some("S"), "X"), Request(None, Some("S"), "Not Responding"), svc);
      o.reply == Completed("vm-1") && o.reply.Code() == 200 &&
      Mutations(o.calls) == [ResetInstance("z", "vm-1")]
  {
    var inst := Instance("vm-1", AddressedAt("X"));
    var zones := [Zone("z", Some([inst]))];
    var svc := Service(zones, map[("z", "vm-1") := Details(Some("RUNNING"))], false, false);
    var req := Request(None, Some("S"), "Not Responding");
    ClassifyRender(NotResponding);
    assert FirstMatch(Items(zones[0]), "X") == Some(0);
    assert Locate(zones, "X") == Some(Hit(0, 0));
    CallsSplit(Config(Some("S"), "X"), req, svc, Hit(0, 0));
  }

  /** The same report with the signal "ok" is refused with 403 and no remote call. */
  lemma UnacceptedSignalScenario(svc: Service)
    ensures
      var o := RestartVM(Config(Some("S"), "X"), Request(None, Some("S"), "ok"), svc);
      o.reply.Code() == 403 && o.calls == []
  {
  }
}
