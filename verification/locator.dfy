/**
 * The instance locator: the nested zone/instance scan that picks the instance whose
 * external address is the target, stopping at the first one it settles on.
 */
module Locator {
  import opened Wrappers
  import opened Inventory

  /** No instance before position `n` of `items` carries the target address. */
  predicate NoMatchBefore(items: seq<Instance>, target: string, n: nat)
    requires n <= |items|
  {
    forall j :: 0 <= j < n ==> !Matches(items[j], target)
  }

  /** The inner loop from position `k` on: the index it breaks at, if any. */
  function FirstMatchFrom(items: seq<Instance>, target: string, k: nat): (r: Option<nat>)
    requires k <= |items|
    ensures r.Some? ==>
      k <= r.value < |items| && Matches(items[r.value], target) &&
      forall j :: k <= j < r.value ==> !Matches(items[j], target)
    ensures r.None? ==> forall j :: k <= j < |items| ==> !Matches(items[j], target)
    decreases |items| - k
  {
    if k == |items| then None
    else if Matches(items[k], target) then Some(k)
    else FirstMatchFrom(items, target, k + 1)
  }

  /** The inner loop over one zone's instances: the first index whose address is the target. */
  function FirstMatch(items: seq<Instance>, target: string): (r: Option<nat>)
    ensures r.Some? ==>
      r.value < |items| && Matches(items[r.value], target) && NoMatchBefore(items, target, r.value)
    ensures r.None? ==> NoMatchBefore(items, target, |items|)
  {
    FirstMatchFrom(items, target, 0)
  }

  /**
   * A zone ends the outer loop when its inner loop matched an instance whose name is
   * truthy. A match with an empty name is stored but does not stop the scan.
   */
  predicate Settles(z: Zone, target: string)
    ensures Settles(z, target) <==>
      exists i :: 0 <= i < |Items(z)| && Matches(Items(z)[i], target) &&
        NoMatchBefore(Items(z), target, i) && Items(z)[i].name != ""
  {
    var m := FirstMatch(Items(z), target);
    m.Some? && Items(z)[m.value].name != ""
  }

  /** A located instance: its zone's position in the zone list and its position in that zone. */
  datatype Hit = Hit(zone: nat, instance: nat)

  /** The hit names a real instance of a real zone. */
  predicate InRange(zones: seq<Zone>, h: Hit) {
    h.zone < |zones| && h.instance < |Items(zones[h.zone])|
  }

  /** The instance a hit designates. */
  function At(zones: seq<Zone>, h: Hit): Instance
    requires InRange(zones, h)
  {
    Items(zones[h.zone])[h.instance]
  }

  /** The outer loop from zone `k` on. */
  function LocateFrom(zones: seq<Zone>, target: string, k: nat): (r: Option<Hit>)
    requires k <= |zones|
    ensures r.Some? ==>
      k <= r.value.zone && InRange(zones, r.value) &&
      FirstMatch(Items(zones[r.value.zone]), target) == Some(r.value.instance) &&
      At(zones, r.value).name != "" &&
      forall zj :: k <= zj < r.value.zone ==> !Settles(zones[zj], target)
    ensures r.None? ==> forall zj :: k <= zj < |zones| ==> !Settles(zones[zj], target)
    decreases |zones| - k
  {
    if k == |zones| then None
    else
      var m := FirstMatch(Items(zones[k]), target);
      if m.Some? && Items(zones[k])[m.value].name != "" then Some(Hit(k, m.value))
      else LocateFrom(zones, target, k + 1)
  }

  /**
   * The whole scan as the source writes it: the first zone that settles, and in it the
   * first instance carrying the target address. `None` is the 404 path.
   */
  function Locate(zones: seq<Zone>, target: string): (r: Option<Hit>)
    ensures r.Some? ==>
      InRange(zones, r.value) && Matches(At(zones, r.value), target) &&
      At(zones, r.value).name != "" &&
      NoMatchBefore(Items(zones[r.value.zone]), target, r.value.instance) &&
      forall zj :: 0 <= zj < r.value.zone ==> !Settles(zones[zj], target)
    ensures r.None? <==> forall zj :: 0 <= zj < |zones| ==> !Settles(zones[zj], target)
  {
    LocateFrom(zones, target, 0)
  }

  // ---------------------------------------------------------------------------
  // Reference definition: the first matching instance in zone order, then instance order.

  /** Some instance of some zone carries the target address. */
  predicate AnyMatch(zones: seq<Zone>, target: string) {
    exists zj, ij :: 0 <= zj < |zones| && 0 <= ij < |Items(zones[zj])| &&
      Matches(Items(zones[zj])[ij], target)
  }

  /** `h` is a match and no instance before it, in zone order then instance order, is one. */
  predicate IsFirstHit(zones: seq<Zone>, target: string, h: Hit) {
    InRange(zones, h) && Matches(At(zones, h), target) &&
    (forall zj, ij :: 0 <= zj < h.zone && 0 <= ij < |Items(zones[zj])| ==>
      !Matches(Items(zones[zj])[ij], target)) &&
    (forall ij :: 0 <= ij < h.instance ==> !Matches(Items(zones[h.zone])[ij], target))
  }

  /** Every instance the provider lists has a non-empty name. */
  predicate NamesNonEmpty(zones: seq<Zone>) {
    forall zj, ij :: 0 <= zj < |zones| && 0 <= ij < |Items(zones[zj])| ==>
      Items(zones[zj])[ij].name != ""
  }

  /** At most one hit is first. */
  lemma FirstHitUnique(zones: seq<Zone>, target: string, h1: Hit, h2: Hit)
    requires IsFirstHit(zones, target, h1) && IsFirstHit(zones, target, h2)
    ensures h1 == h2
  {
  }

  /** With non-empty names a zone settles exactly when some instance in it matches. */
  lemma SettlesIffMatchInZone(zones: seq<Zone>, target: string, zj: nat)
    requires NamesNonEmpty(zones) && zj < |zones|
    ensures Settles(zones[zj], target) <==>
      exists ij :: 0 <= ij < |Items(zones[zj])| && Matches(Items(zones[zj])[ij], target)
  {
    var m := FirstMatch(Items(zones[zj]), target);
    if m.Some? {
      assert Items(zones[zj])[m.value].name != "";
    }
  }

  /**
   * When every listed instance has a name, the scan returns exactly the first match in
   * zone order then instance order, and finds nothing exactly when nothing matches.
   */
  lemma LocateFindsFirstHit(zones: seq<Zone>, target: string)
    requires NamesNonEmpty(zones)
    ensures Locate(zones, target).Some? ==> IsFirstHit(zones, target, Locate(zones, target).value)
    ensures Locate(zones, target).None? <==> !AnyMatch(zones, target)
    ensures forall h :: IsFirstHit(zones, target, h) ==> Locate(zones, target) == Some(h)
  {
    var r := Locate(zones, target);
    forall zj | 0 <= zj < |zones|
      ensures Settles(zones[zj], target) <==>
        exists ij :: 0 <= ij < |Items(zones[zj])| && Matches(Items(zones[zj])[ij], target)
    {
      SettlesIffMatchInZone(zones, target, zj);
    }
    forall h | IsFirstHit(zones, target, h)
      ensures Settles(zones[h.zone], target)
    {
    }
    if r.Some? {
      assert IsFirstHit(zones, target, r.value);
      forall h | IsFirstHit(zones, target, h)
        ensures r == Some(h)
      {
        FirstHitUnique(zones, target, h, r.value);
      }
    }
  }

  /**
   * A zone whose first match has an empty name does not end the scan: the scan from that zone
   * is the scan from the next one, so no instance of the zone, not even a later named match,
   * is ever the hit.
   */
  lemma UnnamedMatchPassesZone(zones: seq<Zone>, target: string, zj: nat)
    requires zj < |zones|
    requires FirstMatch(Items(zones[zj]), target).Some?
    requires Items(zones[zj])[FirstMatch(Items(zones[zj]), target).value].name == ""
    ensures LocateFrom(zones, target, zj) == LocateFrom(zones, target, zj + 1)
    ensures Locate(zones, target).Some? ==> Locate(zones, target).value.zone != zj
  {
  }

  /**
   * An instance of the rule above: the scan lands on zone 1 although instance 1 of zone 0
   * carries the target address and is named.
   */
  lemma EmptyNameSkipsRestOfZone()
    ensures
      var zones := [
        Zone("a", Some([Instance("", AddressedAt("T")), Instance("x", AddressedAt("T"))])),
        Zone("b", Some([Instance("y", AddressedAt("T"))]))
      ];
      Locate(zones, "T") == Some(Hit(1, 0))
  {
    var zones := [
      Zone("a", Some([Instance("", AddressedAt("T")), Instance("x", AddressedAt("T"))])),
      Zone("b", Some([Instance("y", AddressedAt("T"))]))
    ];
    assert FirstMatch(Items(zones[0]), "T") == Some(0);
    assert FirstMatch(Items(zones[1]), "T") == Some(0);
  }

  /** Network interfaces giving an instance the external address `ip`. */
  function AddressedAt(ip: string): Option<seq<NetworkInterface>> {
    Some([NetworkInterface(Some([AccessConfig(Some(ip))]))])
  }

  /** A missing interface, access configuration or address makes an instance a non-match, not a failure. */
  lemma AbsentAddressNeverMatches(inst: Instance, target: string)
    requires !HasAddressPath(inst)
    ensures !Matches(inst, target)
  {
  }

  /** A zone whose listing has no `items` behaves as an empty zone: it never settles the scan. */
  lemma ZoneWithoutItemsNeverSettles(z: Zone, target: string)
    requires z.items.None?
    ensures Items(z) == []
    ensures !Settles(z, target)
  {
  }

  // ---------------------------------------------------------------------------
  // The scan as the source writes it, with nested loops and two `break`s.

  /** JavaScript truthiness of a name variable that starts out `null`. */
  predicate Truthy(name: Option<string>) {
    name.Some? && name.value != ""
  }

  /**
   * The nested loops with their `break`s. `listed` counts the zones whose instances were
   * listed. The loop's outcome is the one `Locate` describes.
   */
  method ScanZones(zones: seq<Zone>, target: string)
    returns (instanceToRestart: Option<string>, zoneToRestart: Option<string>, listed: nat)
    ensures Truthy(instanceToRestart) <==> Locate(zones, target).Some?
    ensures Locate(zones, target).Some? ==>
      var h := Locate(zones, target).value;
      instanceToRestart == Some(At(zones, h).name) &&
      zoneToRestart == Some(zones[h.zone].name) && listed == h.zone + 1
    ensures Locate(zones, target).None? ==> listed == |zones|
  {
    instanceToRestart := None;
    zoneToRestart := None;
    var z := 0;
    while z < |zones|
      invariant 0 <= z <= |zones|
      invariant !Truthy(instanceToRestart)
      invariant forall zj :: 0 <= zj < z ==> !Settles(zones[zj], target)
    {
      var instances := Items(zones[z]);
      var i := 0;
      while i < |instances|
        invariant 0 <= i <= |instances|
        invariant NoMatchBefore(instances, target, i)
        invariant !Truthy(instanceToRestart)
      {
        if NatIP(instances[i]) == Some(target) {
          instanceToRestart := Some(instances[i].name);
          zoneToRestart := Some(zones[z].name);
          break;
        }
        i := i + 1;
      }
      if Truthy(instanceToRestart) {
        listed := z + 1;
        return;
      }
      z := z + 1;
    }
    listed := z;
  }
}
