/** The flat global device address space of the manager: the devices of
    all platforms concatenated in discovery order, the cumulative ranges
    `[from, to)` that `find_device` walks, and the first-match search of
    `find_device_if`. */
module Addressing {
  import opened Wrappers
  import opened Platforms

  /** All devices, platform by platform, each platform's in its own order. */
  function AllDevices(ps: seq<Platform>): seq<Device> {
    if ps == [] then [] else ps[0].devices + AllDevices(ps[1..])
  }

  /** The number of devices of all platforms. */
  function Total(ps: seq<Platform>): nat {
    |AllDevices(ps)|
  }

  /** `from` of the k-th platform: the devices of all earlier platforms. */
  function Offset(ps: seq<Platform>, k: nat): nat
    requires k <= |ps|
  {
    Total(ps[..k])
  }

  /** What `find_device(devId)` is meant to answer: the device at flat
      position `devId`, or none past the end. */
  function Lookup(ps: seq<Platform>, devId: nat): Option<Device> {
    if devId < Total(ps) then Some(AllDevices(ps)[devId]) else None
  }

  lemma {:induction false} AllDevicesAppend(a: seq<Platform>, b: seq<Platform>)
    ensures AllDevices(a + b) == AllDevices(a) + AllDevices(b)
  {
    if a == [] {
      assert a + b == b;
    } else {
      assert (a + b)[1..] == a[1..] + b;
      AllDevicesAppend(a[1..], b);
    }
  }

  /** The k-th range starts where the previous one ends and is as wide as
      the k-th platform's device list; the last one ends at the total. */
  lemma OffsetStep(ps: seq<Platform>, k: nat)
    requires k < |ps|
    ensures Offset(ps, 0) == 0
    ensures Offset(ps, k + 1) == Offset(ps, k) + |ps[k].devices|
    ensures Offset(ps, |ps|) == Total(ps)
    ensures AllDevices(ps[..k + 1]) == AllDevices(ps[..k]) + ps[k].devices
  {
    assert ps[..k + 1] == ps[..k] + [ps[k]];
    AllDevicesAppend(ps[..k], [ps[k]]);
    assert AllDevices([ps[k]]) == ps[k].devices + AllDevices([]);
    assert ps[..|ps|] == ps;
  }

  /** Putting a platform in front shifts every later range by its device
      count. */
  lemma OffsetCons(p: Platform, rest: seq<Platform>, k: nat)
    requires 1 <= k <= |rest| + 1
    ensures Offset([p] + rest, k) == |p.devices| + Offset(rest, k - 1)
  {
    var ps := [p] + rest;
    assert ps[..k] == [p] + rest[..k - 1];
    assert ps[..k][1..] == rest[..k - 1];
  }

  /** Ranges never shrink: a later platform's range starts no earlier. */
  lemma {:induction false} OffsetMonotone(ps: seq<Platform>, p: nat, q: nat)
    requires p <= q <= |ps|
    ensures Offset(ps, p) <= Offset(ps, q)
    decreases q - p
  {
    if p < q {
      OffsetStep(ps, p);
      OffsetMonotone(ps, p + 1, q);
    }
  }

  /** Inside the k-th range, flat position i is the platform's local
      position `i - from`. */
  lemma LocalPosition(ps: seq<Platform>, k: nat, i: nat)
    requires k < |ps|
    requires Offset(ps, k) <= i < Offset(ps, k + 1)
    ensures i < Total(ps) && i - Offset(ps, k) < |ps[k].devices|
    ensures AllDevices(ps)[i] == ps[k].devices[i - Offset(ps, k)]
  {
    OffsetStep(ps, k);
    var front, rest := AllDevices(ps[..k]), AllDevices(ps[k + 1..]);
    assert ps == ps[..k + 1] + ps[k + 1..];
    AllDevicesAppend(ps[..k + 1], ps[k + 1..]);
    assert AllDevices(ps) == (front + ps[k].devices) + rest;
    assert |front| == Offset(ps, k);
  }

  /** The ranges cover the address space: every in-range index lies in the
      range of some platform. */
  lemma {:induction false} RangesCover(ps: seq<Platform>, i: nat)
    requires i < Total(ps)
    ensures exists k :: 0 <= k < |ps| && Offset(ps, k) <= i < Offset(ps, k + 1)
  {
    if ps == [] {
      assert false;
    }
    OffsetStep(ps, |ps| - 1);
    if i >= Offset(ps, |ps| - 1) {
      assert Offset(ps, |ps| - 1) <= i < Offset(ps, |ps|);
    } else {
      var init := ps[..|ps| - 1];
      assert Offset(ps, |ps| - 1) == Total(init);
      RangesCover(init, i);
      var k :| 0 <= k < |init| && Offset(init, k) <= i < Offset(init, k + 1);
      assert init[..k] == ps[..k] && init[..k + 1] == ps[..k + 1];
      assert Offset(ps, k) <= i < Offset(ps, k + 1);
    }
  }

  /** The ranges are disjoint: no index lies in two platforms' ranges. */
  lemma RangesDisjoint(ps: seq<Platform>, p: nat, q: nat, i: nat)
    requires p < |ps| && q < |ps|
    requires Offset(ps, p) <= i < Offset(ps, p + 1)
    requires Offset(ps, q) <= i < Offset(ps, q + 1)
    ensures p == q
  {
    if p < q {
      OffsetMonotone(ps, p + 1, q);
    } else if q < p {
      OffsetMonotone(ps, q + 1, p);
    }
  }

  /** The index of the first device satisfying `pred`, if any. */
  function FirstIndex(ds: seq<Device>, pred: Device -> bool): (r: Option<nat>)
    ensures r.Some? ==> r.value < |ds| && pred(ds[r.value])
    ensures r.Some? ==> forall j :: 0 <= j < r.value ==> !pred(ds[j])
    ensures r.None? <==> forall j :: 0 <= j < |ds| ==> !pred(ds[j])
  {
    if ds == [] then None
    else if pred(ds[0]) then Some(0)
    else match FirstIndex(ds[1..], pred)
      case None => None
      case Some(j) => Some(j + 1)
  }

  /** The first match in a concatenation is the first match of the front
      part, or else the first match of the rest, shifted. */
  lemma {:induction false} FirstIndexAppend(a: seq<Device>, b: seq<Device>, pred: Device -> bool)
    ensures FirstIndex(a, pred).Some? ==> FirstIndex(a + b, pred) == FirstIndex(a, pred)
    ensures FirstIndex(a, pred).None? ==>
              FirstIndex(a + b, pred) == (match FirstIndex(b, pred)
                                          case None => None
                                          case Some(j) => Some(|a| + j))
  {
    if a == [] {
      assert a + b == b;
    } else if !pred(a[0]) {
      assert (a + b)[1..] == a[1..] + b;
      FirstIndexAppend(a[1..], b, pred);
    }
  }

  /** `find_device_if`: for each platform in order, scan its devices in
      order and return the first one satisfying `pred`. */
  function FindIf(ps: seq<Platform>, pred: Device -> bool): (r: Option<Device>)
    ensures r == (match FirstIndex(AllDevices(ps), pred)
                  case None => None
                  case Some(i) => Some(AllDevices(ps)[i]))
  {
    if ps == [] then None
    else
      FirstIndexAppend(ps[0].devices, AllDevices(ps[1..]), pred);
      match FirstIndex(ps[0].devices, pred)
      case Some(j) => Some(ps[0].devices[j])
      case None => FindIf(ps[1..], pred)
  }
}
