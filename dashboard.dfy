/** The figures of the overview page (pages/Dashboard.tsx) that are integers: the threat count,
    the device counts, the security score, the risk distribution chart, the active-user figure
    and the links summary. */
module Dashboard {
  import opened Types
  import Seed

  // ---- counting ----

  predicate IsThreatLevel(l: RiskLevel)
  {
    l == High || l == Critical
  }

  /** The number of logs at level `l`. */
  function CountLevel(logs: seq<LogEntry>, l: RiskLevel): (n: nat)
    ensures n <= |logs|
  {
    if logs == [] then 0
    else CountLevel(logs[..|logs| - 1], l) + (if logs[|logs| - 1].riskLevel == l then 1 else 0)
  }

  /** The count is the number of positions holding a log at that level. */
  lemma CountLevelIsSize(logs: seq<LogEntry>, l: RiskLevel)
    ensures CountLevel(logs, l) == |set i | 0 <= i < |logs| && logs[i].riskLevel == l|
  {
    CountLevelPrefix(logs, l, |logs|);
    assert logs[..|logs|] == logs;
  }

  lemma {:induction false} CountLevelPrefix(logs: seq<LogEntry>, l: RiskLevel, j: nat)
    requires j <= |logs|
    ensures CountLevel(logs[..j], l) == |set i | 0 <= i < j && logs[i].riskLevel == l|
  {
    if j > 0 {
      CountLevelPrefix(logs, l, j - 1);
      assert logs[..j][..j - 1] == logs[..j - 1];
      LevelPositionsStep(logs, l, j);
    }
  }

  lemma LevelPositionsStep(logs: seq<LogEntry>, l: RiskLevel, j: nat)
    requires 0 < j <= |logs|
    ensures |set i | 0 <= i < j && logs[i].riskLevel == l| == |set i | 0 <= i < j - 1 && logs[i].riskLevel == l| + (if logs[j - 1].riskLevel == l then 1 else 0)
  {
    var all, before := set i | 0 <= i < j && logs[i].riskLevel == l, set i | 0 <= i < j - 1 && logs[i].riskLevel == l;
    if logs[j - 1].riskLevel == l {
      SizeWithoutOne(all, before, j - 1);
    } else {
      assert all == before;
    }
  }

  /** `logs.filter(l => l.riskLevel === 'Critical' || l.riskLevel === 'High').length` */
  function ActiveThreats(logs: seq<LogEntry>): (n: nat)
    ensures n <= |logs|
  {
    if logs == [] then 0
    else ActiveThreats(logs[..|logs| - 1]) + (if IsThreatLevel(logs[|logs| - 1].riskLevel) then 1 else 0)
  }

  /** The threat count is the number of positions holding a High or Critical log. */
  lemma ActiveThreatsIsSize(logs: seq<LogEntry>)
    ensures ActiveThreats(logs) == |set i | 0 <= i < |logs| && IsThreatLevel(logs[i].riskLevel)|
  {
    ActiveThreatsPrefix(logs, |logs|);
    assert logs[..|logs|] == logs;
  }

  lemma {:induction false} ActiveThreatsPrefix(logs: seq<LogEntry>, j: nat)
    requires j <= |logs|
    ensures ActiveThreats(logs[..j]) == |set i | 0 <= i < j && IsThreatLevel(logs[i].riskLevel)|
  {
    if j > 0 {
      ActiveThreatsPrefix(logs, j - 1);
      assert logs[..j][..j - 1] == logs[..j - 1];
      ThreatPositionsStep(logs, j);
    }
  }

  lemma ThreatPositionsStep(logs: seq<LogEntry>, j: nat)
    requires 0 < j <= |logs|
    ensures |set i | 0 <= i < j && IsThreatLevel(logs[i].riskLevel)| == |set i | 0 <= i < j - 1 && IsThreatLevel(logs[i].riskLevel)| + (if IsThreatLevel(logs[j - 1].riskLevel) then 1 else 0)
  {
    var all, before := set i | 0 <= i < j && IsThreatLevel(logs[i].riskLevel), set i | 0 <= i < j - 1 && IsThreatLevel(logs[i].riskLevel);
    if IsThreatLevel(logs[j - 1].riskLevel) {
      SizeWithoutOne(all, before, j - 1);
    } else {
      assert all == before;
    }
  }

  /** The number of devices with status `st`. */
  function CountStatus(ds: seq<SystemDevice>, st: DeviceStatus): (n: nat)
    ensures n <= |ds|
  {
    if ds == [] then 0
    else CountStatus(ds[..|ds| - 1], st) + (if ds[|ds| - 1].status == st then 1 else 0)
  }

  /** The count is the number of positions holding a device with that status. */
  lemma CountStatusIsSize(ds: seq<SystemDevice>, st: DeviceStatus)
    ensures CountStatus(ds, st) == |set i | 0 <= i < |ds| && ds[i].status == st|
  {
    CountStatusPrefix(ds, st, |ds|);
    assert ds[..|ds|] == ds;
  }

  lemma {:induction false} CountStatusPrefix(ds: seq<SystemDevice>, st: DeviceStatus, j: nat)
    requires j <= |ds|
    ensures CountStatus(ds[..j], st) == |set i | 0 <= i < j && ds[i].status == st|
  {
    if j > 0 {
      CountStatusPrefix(ds, st, j - 1);
      assert ds[..j][..j - 1] == ds[..j - 1];
      StatusPositionsStep(ds, st, j);
    }
  }

  lemma StatusPositionsStep(ds: seq<SystemDevice>, st: DeviceStatus, j: nat)
    requires 0 < j <= |ds|
    ensures |set i | 0 <= i < j && ds[i].status == st| == |set i | 0 <= i < j - 1 && ds[i].status == st| + (if ds[j - 1].status == st then 1 else 0)
  {
    var all, before := set i | 0 <= i < j && ds[i].status == st, set i | 0 <= i < j - 1 && ds[i].status == st;
    if ds[j - 1].status == st {
      SizeWithoutOne(all, before, j - 1);
    } else {
      assert all == before;
    }
  }

  lemma {:induction false} CountLevelAppend(a: seq<LogEntry>, b: seq<LogEntry>, l: RiskLevel)
    ensures CountLevel(a + b, l) == CountLevel(a, l) + CountLevel(b, l)
    decreases |b|
  {
    if b != [] {
      assert (a + b)[..|a + b| - 1] == a + b[..|b| - 1];
      CountLevelAppend(a, b[..|b| - 1], l);
    } else {
      assert a + b == a;
    }
  }

  lemma {:induction false} ActiveThreatsAppend(a: seq<LogEntry>, b: seq<LogEntry>)
    ensures ActiveThreats(a + b) == ActiveThreats(a) + ActiveThreats(b)
    decreases |b|
  {
    if b != [] {
      assert (a + b)[..|a + b| - 1] == a + b[..|b| - 1];
      ActiveThreatsAppend(a, b[..|b| - 1]);
    } else {
      assert a + b == a;
    }
  }

  lemma {:induction false} CountStatusAppend(a: seq<SystemDevice>, b: seq<SystemDevice>, st: DeviceStatus)
    ensures CountStatus(a + b, st) == CountStatus(a, st) + CountStatus(b, st)
    decreases |b|
  {
    if b != [] {
      assert (a + b)[..|a + b| - 1] == a + b[..|b| - 1];
      CountStatusAppend(a, b[..|b| - 1], st);
    } else {
      assert a + b == a;
    }
  }

  /** The threat count is the number of High logs plus the number of Critical logs. */
  lemma {:induction false} ThreatsAreHighAndCritical(logs: seq<LogEntry>)
    ensures ActiveThreats(logs) == CountLevel(logs, High) + CountLevel(logs, Critical)
  {
    if logs != [] {
      ThreatsAreHighAndCritical(logs[..|logs| - 1]);
    }
  }

  /** Every log is at exactly one of the four levels. */
  lemma {:induction false} LevelsPartitionLogs(logs: seq<LogEntry>)
    ensures CountLevel(logs, Low) + CountLevel(logs, Medium) + CountLevel(logs, High) + CountLevel(logs, Critical) == |logs|
  {
    if logs != [] {
      LevelsPartitionLogs(logs[..|logs| - 1]);
    }
  }

  /** Every device has exactly one of the four statuses. */
  lemma {:induction false} StatusesPartitionDevices(ds: seq<SystemDevice>)
    ensures CountStatus(ds, Online) + CountStatus(ds, Offline) + CountStatus(ds, DeviceStatus.Compromised)
            + CountStatus(ds, Isolating) == |ds|
  {
    if ds != [] {
      StatusesPartitionDevices(ds[..|ds| - 1]);
    }
  }

  // ---- the stats ----

  /** `Math.max(0, 100 - threats * 5 - compromised * 15)` */
  function SecurityScore(threats: nat, compromised: nat): (s: int)
    ensures 0 <= s <= 100
    ensures s == 0 || s == 100 - 5 * threats - 15 * compromised
    ensures 100 - 5 * threats - 15 * compromised >= 0 ==> s == 100 - 5 * threats - 15 * compromised
  {
    var raw := 100 - threats * 5 - compromised * 15;
    if raw > 0 then raw else 0
  }

  /** The score of a store state: its logs and its employees' devices. */
  function ScoreOf(logs: seq<LogEntry>, es: seq<Employee>): int
  {
    SecurityScore(ActiveThreats(logs), CountStatus(AllSystems(es), DeviceStatus.Compromised))
  }

  /** More threats or more compromised devices never give a higher score. */
  lemma ScoreMonotone(t1: nat, c1: nat, t2: nat, c2: nat)
    requires t1 <= t2 && c1 <= c2
    ensures SecurityScore(t2, c2) <= SecurityScore(t1, c1)
  {
  }

  /** Adding a log (as `addLog` does) never raises the score, and adding a High or Critical log
      lowers it unless it is already 0. */
  lemma AddingLogNeverRaisesScore(logs: seq<LogEntry>, es: seq<Employee>, l: LogEntry)
    ensures ScoreOf([l] + logs, es) <= ScoreOf(logs, es)
    ensures IsThreatLevel(l.riskLevel) && ScoreOf(logs, es) > 0 ==> ScoreOf([l] + logs, es) < ScoreOf(logs, es)
  {
    ActiveThreatsAppend([l], logs);
    assert ActiveThreats([l]) == (if IsThreatLevel(l.riskLevel) then 1 else 0) by {
      assert [l][..0] == [];
    }
  }

  /** A device becoming compromised never raises the score. */
  lemma CompromisingNeverRaisesScore(logs: seq<LogEntry>, a: seq<SystemDevice>, d: SystemDevice, b: seq<SystemDevice>)
    ensures SecurityScore(ActiveThreats(logs), CountStatus(a + [d.(status := DeviceStatus.Compromised)] + b, DeviceStatus.Compromised))
         <= SecurityScore(ActiveThreats(logs), CountStatus(a + [d] + b, DeviceStatus.Compromised))
  {
    var d2 := d.(status := DeviceStatus.Compromised);
    CountStatusAppend(a + [d], b, DeviceStatus.Compromised);
    CountStatusAppend(a + [d2], b, DeviceStatus.Compromised);
    CountStatusAppend(a, [d], DeviceStatus.Compromised);
    CountStatusAppend(a, [d2], DeviceStatus.Compromised);
    assert [d][..0] == [] && [d2][..0] == [];
  }

  /** Online and compromised devices never outnumber all devices, so the offline figure
      `total - online - compromised` is never negative: it counts the Offline and the Isolating devices. */
  lemma OfflineFigure(ds: seq<SystemDevice>)
    ensures CountStatus(ds, Online) + CountStatus(ds, DeviceStatus.Compromised) <= |ds|
    ensures |ds| - CountStatus(ds, Online) - CountStatus(ds, DeviceStatus.Compromised)
            == CountStatus(ds, Offline) + CountStatus(ds, Isolating)
  {
    StatusesPartitionDevices(ds);
  }

  /** `employees.filter(e => e.status === 'Active').length` */
  function ActiveUsers(es: seq<Employee>): (n: nat)
    ensures n <= |es|
    ensures n == |es| <==> forall i :: 0 <= i < |es| ==> es[i].status == EmployeeStatus.Active
    ensures n == 0 <==> forall i :: 0 <= i < |es| ==> es[i].status != EmployeeStatus.Active
  {
    if es == [] then 0
    else
      var rest := ActiveUsers(es[1..]);
      assert forall i :: 1 <= i < |es| ==> es[i] == es[1..][i - 1];
      (if es[0].status == EmployeeStatus.Active then 1 else 0) + rest
  }

  /** The figure counts list by list: one employee counts one exactly when Active, and the figure
      of two lists joined is the sum of theirs. Together these fix the figure of every list. */
  lemma {:induction false} ActiveUsersAppend(a: seq<Employee>, b: seq<Employee>)
    ensures ActiveUsers(a + b) == ActiveUsers(a) + ActiveUsers(b)
    ensures |a| == 1 ==> ActiveUsers(a) == if a[0].status == EmployeeStatus.Active then 1 else 0
  {
    if a == [] {
      assert a + b == b;
    } else {
      assert (a + b)[1..] == a[1..] + b;
      ActiveUsersAppend(a[1..], b);
    }
  }

  /** `links.slice(0, 3)`: the first three links, or all of them when there are fewer. */
  function LinksSummary(links: seq<SecureLink>): (r: seq<SecureLink>)
    ensures |r| <= 3 && |r| == (if |links| < 3 then |links| else 3)
    ensures r == links[..|r|]
  {
    if |links| <= 3 then links else links[..3]
  }

  // ---- the risk distribution chart ----

  datatype Slice = Slice(level: RiskLevel, value: nat)

  function LevelRank(l: RiskLevel): nat
  {
    match l
    case Low => 0
    case Medium => 1
    case High => 2
    case Critical => 3
  }

  function SliceTotal(r: seq<Slice>): nat
  {
    if r == [] then 0 else r[0].value + SliceTotal(r[1..])
  }

  lemma {:induction false} SliceTotalAppend(r: seq<Slice>, x: Slice)
    ensures SliceTotal(r + [x]) == SliceTotal(r) + x.value
  {
    if r != [] {
      assert (r + [x])[1..] == r[1..] + [x];
      SliceTotalAppend(r[1..], x);
    } else {
      assert [x][1..] == [];
    }
  }

  /** The slice list after one more level has been considered: the slices so far, then that
      level's slice if its count is non-zero. */
  function AddIfPositive(r: seq<Slice>, level: RiskLevel, value: nat): seq<Slice>
  {
    if value > 0 then r + [Slice(level, value)] else r
  }

  /** The four counters of the `distribution` record. */
  datatype LevelCounts = LevelCounts(low: nat, medium: nat, high: nat, critical: nat)
  {
    function Of(l: RiskLevel): nat
    {
      match l
      case Low => low
      case Medium => medium
      case High => high
      case Critical => critical
    }
  }

  /** The chart list: the four slices in the fixed order, with the zero ones filtered out. */
  function Chart(c: LevelCounts): seq<Slice>
  {
    AddIfPositive(AddIfPositive(AddIfPositive(AddIfPositive([], Low, c.low), Medium, c.medium), High, c.high),
                  Critical, c.critical)
  }

  predicate HasLevel(r: seq<Slice>, l: RiskLevel)
  {
    exists i :: 0 <= i < |r| && r[i].level == l
  }

  /** Every slice is non-zero and holds its level's count. */
  predicate Sound(r: seq<Slice>, c: LevelCounts)
  {
    forall i :: 0 <= i < |r| ==> r[i].value > 0 && r[i].value == c.Of(r[i].level)
  }

  predicate Ordered(r: seq<Slice>)
  {
    forall i, j :: 0 <= i < j < |r| ==> LevelRank(r[i].level) < LevelRank(r[j].level)
  }

  /** One step of building the chart keeps it sound and ordered, adds the level's count to the
      total, and adds the level exactly when its count is non-zero. */
  lemma AddStep(r: seq<Slice>, c: LevelCounts, level: RiskLevel)
    requires Sound(r, c) && Ordered(r)
    requires forall i :: 0 <= i < |r| ==> LevelRank(r[i].level) < LevelRank(level)
    ensures var r2 := AddIfPositive(r, level, c.Of(level));
      Sound(r2, c) && Ordered(r2) && SliceTotal(r2) == SliceTotal(r) + c.Of(level) &&
      (forall i :: 0 <= i < |r2| ==> LevelRank(r2[i].level) <= LevelRank(level)) &&
      (forall l :: HasLevel(r2, l) <==> HasLevel(r, l) || (l == level && c.Of(level) > 0))
  {
    var r2 := AddIfPositive(r, level, c.Of(level));
    SliceTotalAppend(r, Slice(level, c.Of(level)));
    forall l
      ensures HasLevel(r2, l) <==> HasLevel(r, l) || (l == level && c.Of(level) > 0)
    {
      if HasLevel(r, l) {
        var i :| 0 <= i < |r| && r[i].level == l;
        assert r2[i] == r[i];
      }
      if c.Of(level) > 0 {
        assert r2[|r|].level == level;
      }
    }
  }

  /** The chart has one slice per non-zero count, in the order Low, Medium, High, Critical, and
      its slices add up to the sum of the counts. */
  lemma ChartFacts(c: LevelCounts)
    ensures Sound(Chart(c), c) && Ordered(Chart(c))
    ensures forall l :: c.Of(l) > 0 <==> HasLevel(Chart(c), l)
    ensures SliceTotal(Chart(c)) == c.low + c.medium + c.high + c.critical
  {
    var r0: seq<Slice> := [];
    AddStep(r0, c, Low);
    var r1 := AddIfPositive(r0, Low, c.low);
    AddStep(r1, c, Medium);
    var r2 := AddIfPositive(r1, Medium, c.medium);
    AddStep(r2, c, High);
    var r3 := AddIfPositive(r2, High, c.high);
    AddStep(r3, c, Critical);
    var r4 := AddIfPositive(r3, Critical, c.critical);
    assert r4 == Chart(c);
    forall l
      ensures c.Of(l) > 0 <==> HasLevel(r4, l)
    {
      assert !HasLevel(r0, l);
    }
  }

  /** `riskDistributionData`: one slice per level that occurs, in the order Low, Medium, High,
      Critical, holding the number of logs at that level; together they account for every log. */
  method RiskDistribution(logs: seq<LogEntry>) returns (r: seq<Slice>)
    ensures forall i :: 0 <= i < |r| ==> r[i].value > 0 && r[i].value == CountLevel(logs, r[i].level)
    ensures forall l :: CountLevel(logs, l) > 0 <==> HasLevel(r, l)
    ensures forall i, j :: 0 <= i < j < |r| ==> LevelRank(r[i].level) < LevelRank(r[j].level)
    ensures SliceTotal(r) == |logs|
  {
    var low, medium, high, critical := 0, 0, 0, 0;
    var i := 0;
    while i < |logs|
      invariant 0 <= i <= |logs|
      invariant low == CountLevel(logs[..i], Low) && medium == CountLevel(logs[..i], Medium)
      invariant high == CountLevel(logs[..i], High) && critical == CountLevel(logs[..i], Critical)
    {
      assert logs[..i + 1][..i] == logs[..i];
      match logs[i].riskLevel {
        case Low => low := low + 1;
        case Medium => medium := medium + 1;
        case High => high := high + 1;
        case Critical => critical := critical + 1;
      }
      i := i + 1;
    }
    assert logs[..i] == logs;
    LevelsPartitionLogs(logs);
    var c := LevelCounts(low, medium, high, critical);
    assert forall l :: c.Of(l) == CountLevel(logs, l);
    r := Chart(c);
    ChartFacts(c);
  }

  // ---- the seed ----

  /** On the seed data exactly one log is a threat (LOG-1021). */
  lemma SeedThreats(now: int)
    ensures ActiveThreats(Seed.MockLogs(now)) == 1
  {
    var logs := Seed.MockLogs(now);
    assert logs[..1][..0] == [] && logs[..2][..1] == logs[..1] && logs[..|logs| - 1] == logs[..2];
    assert ActiveThreats(logs[..1]) == 0;
    assert ActiveThreats(logs[..2]) == 0;
  }

  /** On the seed data exactly one device is compromised (SYS-004). */
  lemma SeedCompromised(now: int)
    ensures CountStatus(AllSystems(Seed.MockEmployees(now)), DeviceStatus.Compromised) == 1
  {
    var es := Seed.MockEmployees(now);
    var ds := AllSystems(es);
    assert es[1..][1..][1..] == [];
    assert AllSystems(es[1..][1..]) == es[2].systems + AllSystems([]);
    assert AllSystems(es[1..]) == es[1].systems + AllSystems(es[1..][1..]);
    assert ds == es[0].systems + es[1].systems + es[2].systems;
    assert |ds| == 4 && ds[..|ds| - 1] == ds[..3] && ds[..3][..2] == ds[..2] && ds[..2][..1] == ds[..1] && ds[..1][..0] == [];
    assert CountStatus(ds[..1], DeviceStatus.Compromised) == 0;
    assert CountStatus(ds[..2], DeviceStatus.Compromised) == 0;
    assert CountStatus(ds[..3], DeviceStatus.Compromised) == 0;
  }

  /** So the seed score is 100 - 5 - 15 = 80. */
  lemma SeedScore(now: int)
    ensures ScoreOf(Seed.MockLogs(now), Seed.MockEmployees(now)) == 80
  {
    SeedThreats(now);
    SeedCompromised(now);
  }
}
