/** The secure-link detail panel (components/LinkDetailModal.tsx): the access history charted
    newest first, the number of distinct systems, one row per accessing system, and the lock button
    that flips the link between Active and Locked through the store. Time formatting, the traffic
    total and the chart library are not modelled. */
module LinkDetail {
  import opened Types
  import Store

  /** One bar of the traffic chart. The displayed time is the log's timestamp. */
  datatype ChartPoint = ChartPoint(time: Timestamp, traffic: real, user: string)

  function PointOf(l: LinkAccessLog): ChartPoint
  {
    ChartPoint(l.timestamp, l.dataTransferred, l.userName)
  }

  /** `chartData`: one point per access log, in reverse order. */
  function ChartData(logs: seq<LinkAccessLog>): (r: seq<ChartPoint>)
    ensures |r| == |logs|
    ensures forall i :: 0 <= i < |logs| ==> r[i] == PointOf(logs[|logs| - 1 - i])
  {
    if logs == [] then [] else ChartData(logs[1..]) + [PointOf(logs[0])]
  }

  /** The system names of the logs. */
  function SystemNames(logs: seq<LinkAccessLog>): (names: set<string>)
    ensures |names| <= |logs|
    ensures forall x :: x in names <==> exists i :: 0 <= i < |logs| && logs[i].systemName == x
  {
    if logs == [] then {}
    else
      var rest := SystemNames(logs[1..]);
      forall x | x in rest
        ensures exists i :: 0 <= i < |logs| && logs[i].systemName == x
      {
        var j :| 0 <= j < |logs[1..]| && logs[1..][j].systemName == x;
        assert logs[j + 1] == logs[1..][j];
      }
      forall i | 1 <= i < |logs|
        ensures logs[i].systemName in rest
      {
        assert logs[1..][i - 1] == logs[i];
      }
      {logs[0].systemName} + rest
  }

  /** `uniqueSystems`: the number of distinct system names, never more than the number of logs. */
  function UniqueSystems(logs: seq<LinkAccessLog>): (n: nat)
    ensures n == |set i | 0 <= i < |logs| :: logs[i].systemName|
    ensures n <= |logs|
    ensures logs != [] ==> n >= 1
  {
    assert logs != [] ==> logs[0].systemName in SystemNames(logs);
    assert SystemNames(logs) == set i | 0 <= i < |logs| :: logs[i].systemName;
    |SystemNames(logs)|
  }

  /** The system ids of the logs. */
  function SystemIds(logs: seq<LinkAccessLog>): set<string>
  {
    set l | l in logs :: l.systemId
  }

  /** Position `i` holds the first log with its system id. */
  predicate FirstWithId(logs: seq<LinkAccessLog>, i: int)
  {
    0 <= i < |logs| && forall j :: 0 <= j < i ==> logs[j].systemId != logs[i].systemId
  }

  /** The accessing-systems list: `Array.from(new Set(ids))` keeps the ids in the order they first
      appear, and each row shows `find`'s answer, the first log with that id. */
  function AccessRows(logs: seq<LinkAccessLog>): (r: seq<LinkAccessLog>)
    ensures |r| <= |logs|
    ensures forall k :: 0 <= k < |r| ==> exists i :: FirstWithId(logs, i) && r[k] == logs[i]
    ensures forall k1, k2 :: 0 <= k1 < k2 < |r| ==> r[k1].systemId != r[k2].systemId
    ensures forall x :: x in SystemIds(logs) <==> exists k :: 0 <= k < |r| && r[k].systemId == x
  {
    if logs == [] then []
    else
      var p, last := logs[..|logs| - 1], logs[|logs| - 1];
      var rp := AccessRows(p);
      assert logs == p + [last];
      assert forall i :: FirstWithId(p, i) ==> FirstWithId(logs, i);
      assert SystemIds(logs) == SystemIds(p) + {last.systemId};
      if last.systemId in SystemIds(p) then rp
      else
        assert FirstWithId(logs, |logs| - 1);
        assert forall k :: 0 <= k < |rp| ==> (rp + [last])[k] == rp[k];
        assert (rp + [last])[|rp|] == last;
        rp + [last]
  }

  /** The rows follow the order in which the ids first appear: a row listed earlier shows a log
      that comes earlier in the access history. With the contract of `AccessRows` this fixes the
      list completely. */
  lemma {:induction false} AccessRowsInOrder(logs: seq<LinkAccessLog>, k1: nat, k2: nat, i1: nat, i2: nat)
    requires k1 < k2 < |AccessRows(logs)|
    requires FirstWithId(logs, i1) && FirstWithId(logs, i2)
    requires AccessRows(logs)[k1] == logs[i1] && AccessRows(logs)[k2] == logs[i2]
    ensures i1 < i2
  {
    var p, last := logs[..|logs| - 1], logs[|logs| - 1];
    var rp := AccessRows(p);
    AccessRowsStep(logs);
    FirstInPrefix(logs, i1);
    FirstInPrefix(logs, i2);
    if last.systemId in SystemIds(p) {
      AccessRowsInOrder(p, k1, k2, i1, i2);
    } else {
      RowIdSeen(p, k1);
      if k2 < |rp| {
        RowIdSeen(p, k2);
        AccessRowsInOrder(p, k1, k2, i1, i2);
      }
    }
  }

  /** One step of `AccessRows`: the last log adds a row exactly when its id is new. */
  lemma AccessRowsStep(logs: seq<LinkAccessLog>)
    requires logs != []
    ensures var p, last := logs[..|logs| - 1], logs[|logs| - 1];
      AccessRows(logs) == if last.systemId in SystemIds(p) then AccessRows(p) else AccessRows(p) + [last]
  {
  }

  /** Every row's id is the id of some log. */
  lemma RowIdSeen(logs: seq<LinkAccessLog>, k: nat)
    requires k < |AccessRows(logs)|
    ensures AccessRows(logs)[k].systemId in SystemIds(logs)
  {
    var i :| FirstWithId(logs, i) && AccessRows(logs)[k] == logs[i];
  }

  /** A first position before the end is a first position of the prefix; the last position is
      first exactly when its id is new. */
  lemma FirstInPrefix(logs: seq<LinkAccessLog>, i: nat)
    requires FirstWithId(logs, i)
    ensures i < |logs| - 1 ==> FirstWithId(logs[..|logs| - 1], i) && logs[i].systemId in SystemIds(logs[..|logs| - 1])
    ensures i == |logs| - 1 ==> logs[i].systemId !in SystemIds(logs[..|logs| - 1])
  {
    var p := logs[..|logs| - 1];
    if i < |logs| - 1 {
      assert p[i] == logs[i] && p[i] in p;
    } else {
      forall l | l in p
        ensures l.systemId != logs[i].systemId
      {
        var j :| 0 <= j < |p| && p[j] == l;
      }
    }
  }

  /** The lock button's new status: an Active link is locked, any other link is made Active. */
  function Toggled(s: LinkStatus): (t: LinkStatus)
    ensures t == LinkStatus.Locked <==> s == LinkStatus.Active
    ensures t == LinkStatus.Active <==> s != LinkStatus.Active
  {
    if s == LinkStatus.Active then LinkStatus.Locked else LinkStatus.Active
  }

  /** Two toggles restore an Active or a Locked link and leave a Compromised link Locked. */
  lemma ToggleTwice(s: LinkStatus)
    ensures s != LinkStatus.Compromised ==> Toggled(Toggled(s)) == s
    ensures s == LinkStatus.Compromised ==> Toggled(Toggled(s)) == LinkStatus.Locked
  {
  }

  predicate DistinctLinkIds(ks: seq<SecureLink>)
  {
    forall i, j :: 0 <= i < j < |ks| ==> ks[i].id != ks[j].id
  }

  /** With distinct link ids, toggling the link at position `k` changes that link's status and
      nothing else in the list. */
  lemma ToggleChangesOnlyThatLink(ks: seq<SecureLink>, k: nat)
    requires k < |ks| && DistinctLinkIds(ks)
    ensures var r := Store.WithLinkStatus(ks, ks[k].id, Toggled(ks[k].status));
      |r| == |ks| && r[k] == ks[k].(status := Toggled(ks[k].status)) &&
      forall j :: 0 <= j < |ks| && j != k ==> r[j] == ks[j]
  {
    var r := Store.WithLinkStatus(ks, ks[k].id, Toggled(ks[k].status));
    forall j | 0 <= j < |ks| && j != k
      ensures r[j] == ks[j]
    {
      if j < k {
        assert ks[j].id != ks[k].id;
      } else {
        assert ks[k].id != ks[j].id;
      }
    }
  }

  /** The lock button's handler for the link the panel shows. */
  method ToggleLock(store: Store.DataStore, link: SecureLink)
    requires store.Valid()
    modifies store`links
    ensures store.Valid()
    ensures store.links == Store.WithLinkStatus(old(store.links), link.id, Toggled(link.status))
  {
    store.UpdateLinkStatus(link.id, if link.status == LinkStatus.Active then LinkStatus.Locked else LinkStatus.Active);
  }
}
