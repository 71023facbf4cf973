/** The compromised-systems banner (components/CompromisedSystems.tsx): every compromised device of
    every employee, annotated with its owner, in employee order and then device order; the count in
    the heading, and nothing at all when the list is empty. */
module Compromised {
  import opened Types
  import opened Text
  import Dashboard
  import Seed

  /** A device with the name, role and id of the employee it belongs to. */
  datatype OwnedDevice = OwnedDevice(device: SystemDevice, ownerName: string, ownerRole: string, ownerId: string)

  /** The compromised devices among `ds`, in their order. */
  function CompromisedOnly(ds: seq<SystemDevice>): (r: seq<SystemDevice>)
    ensures IsSubsequence(r, ds)
    ensures forall d :: d in r <==> d in ds && d.status == DeviceStatus.Compromised
  {
    if ds == [] then []
    else if ds[0].status == DeviceStatus.Compromised then [ds[0]] + CompromisedOnly(ds[1..])
    else CompromisedOnly(ds[1..])
  }

  /** `ds.map(sys => ({ ...sys, ownerName, ownerRole, ownerId }))` for the owner `e`. */
  function Annotate(ds: seq<SystemDevice>, e: Employee): (r: seq<OwnedDevice>)
    ensures |r| == |ds|
    ensures forall i :: 0 <= i < |ds| ==> r[i] == OwnedDevice(ds[i], e.name, e.role, e.id)
  {
    if ds == [] then [] else [OwnedDevice(ds[0], e.name, e.role, e.id)] + Annotate(ds[1..], e)
  }

  /** `compromisedDevices`. */
  function CompromisedDevices(es: seq<Employee>): (r: seq<OwnedDevice>)
    ensures forall i :: 0 <= i < |r| ==> r[i].device.status == DeviceStatus.Compromised
  {
    if es == [] then []
    else
      var head := Annotate(CompromisedOnly(es[0].systems), es[0]);
      assert forall i :: 0 <= i < |head| ==> head[i].device in CompromisedOnly(es[0].systems);
      head + CompromisedDevices(es[1..])
  }

  /** The employee `e` of `es` owns the device `o` and `o` carries its name, role and id. */
  predicate OwnedBy(o: OwnedDevice, e: Employee)
  {
    o.device in e.systems && o.ownerName == e.name && o.ownerRole == e.role && o.ownerId == e.id
  }

  /** Each banner entry is a device of some employee, annotated with that employee's name, role and id. */
  lemma {:induction false} BannerOwners(es: seq<Employee>)
    ensures forall i :: 0 <= i < |CompromisedDevices(es)| ==> exists e :: e in es && OwnedBy(CompromisedDevices(es)[i], e)
  {
    if es != [] {
      var head := Annotate(CompromisedOnly(es[0].systems), es[0]);
      var rest := CompromisedDevices(es[1..]);
      var r := CompromisedDevices(es);
      assert r == head + rest;
      BannerOwners(es[1..]);
      forall i | 0 <= i < |r|
        ensures exists e :: e in es && OwnedBy(r[i], e)
      {
        if i < |head| {
          assert r[i] == head[i];
          assert head[i].device in CompromisedOnly(es[0].systems);
          assert OwnedBy(r[i], es[0]);
        } else {
          assert r[i] == rest[i - |head|];
          var e :| e in es[1..] && OwnedBy(rest[i - |head|], e);
          assert e in es;
        }
      }
      assert r == CompromisedDevices(es);
    } else {
      assert CompromisedDevices(es) == [];
    }
  }

  /** The devices of the banner, without their owners. */
  function Devices(r: seq<OwnedDevice>): (ds: seq<SystemDevice>)
    ensures |ds| == |r| && forall i :: 0 <= i < |r| ==> ds[i] == r[i].device
  {
    if r == [] then [] else [r[0].device] + Devices(r[1..])
  }

  lemma {:induction false} DevicesAppend(a: seq<OwnedDevice>, b: seq<OwnedDevice>)
    ensures Devices(a + b) == Devices(a) + Devices(b)
  {
    var l, r := Devices(a + b), Devices(a) + Devices(b);
    assert |l| == |r|;
    forall i | 0 <= i < |l|
      ensures l[i] == r[i]
    {
      if i < |a| {
        assert (a + b)[i] == a[i];
      } else {
        assert (a + b)[i] == b[i - |a|];
      }
    }
  }

  lemma {:induction false} CompromisedOnlyAppend(a: seq<SystemDevice>, b: seq<SystemDevice>)
    ensures CompromisedOnly(a + b) == CompromisedOnly(a) + CompromisedOnly(b)
    decreases |a|
  {
    if a == [] {
      assert a + b == b;
    } else {
      assert (a + b)[1..] == a[1..] + b;
      CompromisedOnlyAppend(a[1..], b);
    }
  }

  /** The banner lists exactly the compromised devices of the flattened device list, in its
      order: employee order first, then each employee's device order. */
  lemma {:induction false} BannerFollowsDeviceOrder(es: seq<Employee>)
    ensures Devices(CompromisedDevices(es)) == CompromisedOnly(AllSystems(es))
  {
    if es != [] {
      var head := Annotate(CompromisedOnly(es[0].systems), es[0]);
      BannerFollowsDeviceOrder(es[1..]);
      DevicesAppend(head, CompromisedDevices(es[1..]));
      assert Devices(head) == CompromisedOnly(es[0].systems);
      CompromisedOnlyAppend(es[0].systems, AllSystems(es[1..]));
    }
  }

  /** Keeping the compromised devices keeps as many as the dashboard counts. */
  lemma {:induction false} CompromisedOnlyCount(ds: seq<SystemDevice>)
    ensures |CompromisedOnly(ds)| == Dashboard.CountStatus(ds, DeviceStatus.Compromised)
  {
    if ds != [] {
      CompromisedOnlyCount(ds[1..]);
      assert ds == [ds[0]] + ds[1..];
      Dashboard.CountStatusAppend([ds[0]], ds[1..], DeviceStatus.Compromised);
      assert [ds[0]][..0] == [];
    }
  }

  /** The banner's length is the dashboard's compromised-system figure. */
  lemma BannerCountsCompromised(es: seq<Employee>)
    ensures |CompromisedDevices(es)| == Dashboard.CountStatus(AllSystems(es), DeviceStatus.Compromised)
  {
    BannerFollowsDeviceOrder(es);
    CompromisedOnlyCount(AllSystems(es));
  }

  /** The plural ending of the heading. */
  function Plural(n: nat): (s: string)
    ensures s == "s" <==> n != 1
    ensures s == "" <==> n == 1
  {
    if n != 1 then "s" else ""
  }

  /** The heading line, or nothing when no device is compromised (the banner is not rendered). */
  function Heading(r: seq<OwnedDevice>): (h: Option<string>)
    ensures h.None? <==> r == []
    ensures h.Some? ==> h.value == "Immediate attention required for " + Decimal(|r|) + " compromised system" + Plural(|r|) + "."
  {
    if |r| == 0 then None
    else Some("Immediate attention required for " + Decimal(|r|) + " compromised system" + Plural(|r|) + ".")
  }

  /** On the seed data the banner shows one device, David Kim's SYS-004. */
  lemma SeedBanner(now: int)
    ensures |CompromisedDevices(Seed.MockEmployees(now))| == 1
  {
    BannerCountsCompromised(Seed.MockEmployees(now));
    Dashboard.SeedCompromised(now);
  }
}
