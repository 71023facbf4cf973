/** The records and enumerations of the dashboard (types.ts). Every TypeScript union of string
    literals becomes a datatype with one constructor per literal; optional fields become `Option`. */
module Types {

  datatype Option<T> = None | Some(value: T)

  /** An instant in milliseconds since the epoch. It stands for the ISO-8601 text that
      `new Date(epochMillis).toISOString()` produces; the formatting itself is not modelled. */
  datatype Timestamp = Instant(epochMillis: int)

  /** `Math.floor(r * n)` for a draw `r` of `Math.random()`: an index into a list of `n` elements. */
  function PickIndex(r: real, n: nat): (k: nat)
    requires 0.0 <= r < 1.0 && n > 0
    ensures k < n
  {
    assert r * (n as real) < n as real;
    (r * (n as real)).Floor
  }

  datatype RiskLevel = Low | Medium | High | Critical

  /** The text of a risk level, as the enumeration's string values give it. */
  function RiskLevelText(l: RiskLevel): string
  {
    match l
    case Low => "Low"
    case Medium => "Medium"
    case High => "High"
    case Critical => "Critical"
  }

  /** The level names of types.ts are distinct, so comparing names compares levels. */
  lemma RiskLevelTextInjective(a: RiskLevel, b: RiskLevel)
    ensures RiskLevelText(a) == RiskLevelText(b) <==> a == b
  {
  }

  datatype UserRole = AdminRole | AnalystRole | ManagerRole | EmployeeRole

  datatype User = User(id: string, name: string, email: string, role: UserRole, avatar: Option<string>)

  datatype DeviceStatus = Online | Offline | Compromised | Isolating

  datatype NetworkStats = NetworkStats(
    uploadSpeed: real,
    downloadSpeed: real,
    activeConnections: int,
    totalBandwidthToday: string)

  datatype SystemDevice = SystemDevice(
    id: string,
    name: string,
    ip: string,
    macAddress: string,
    os: string,
    status: DeviceStatus,
    lastActive: Timestamp,
    cpuUsage: int,
    memoryUsage: int,
    networkStats: NetworkStats)

  /** The documented range of the two gauges of a device: 0 to 100. */
  predicate GaugesInRange(d: SystemDevice)
  {
    0 <= d.cpuUsage <= 100 && 0 <= d.memoryUsage <= 100
  }

  datatype EmployeeStatus = Active | Suspended | UnderReview

  datatype Employee = Employee(
    id: string,
    name: string,
    role: string,
    department: string,
    riskScore: int,
    systems: seq<SystemDevice>,
    authorizedApps: seq<string>,
    status: EmployeeStatus)

  datatype LogSource = System | Firewall | Git | Auth | BotDetector

  /** The text of a log source, as the union's string literals give it. */
  function LogSourceText(s: LogSource): string
  {
    match s
    case System => "System"
    case Firewall => "Firewall"
    case Git => "Git"
    case Auth => "Auth"
    case BotDetector => "BotDetector"
  }

  /** The source names of types.ts are distinct, so comparing names compares sources. */
  lemma LogSourceTextInjective(a: LogSource, b: LogSource)
    ensures LogSourceText(a) == LogSourceText(b) <==> a == b
  {
  }

  datatype LogEntry = LogEntry(
    id: string,
    timestamp: Timestamp,
    source: LogSource,
    event: string,
    details: string,
    user: Option<string>,
    ip: Option<string>,
    riskLevel: RiskLevel)

  datatype AccessAction = Clone | View | Download | Push

  datatype LinkAccessLog = LinkAccessLog(
    id: string,
    timestamp: Timestamp,
    systemId: string,
    systemName: string,
    systemIp: string,
    userId: string,
    userName: string,
    action: AccessAction,
    dataTransferred: real)

  datatype LinkType = Repository | InternalTool | SensitiveDoc

  datatype LinkStatus = Active | Locked | Compromised

  datatype SecureLink = SecureLink(
    id: string,
    name: string,
    url: string,
    linkType: LinkType,
    accessCount: int,
    lastAccessedBy: string,
    lastAccessedAt: Timestamp,
    status: LinkStatus,
    accessLogs: seq<LinkAccessLog>)

  datatype AiActionStatus = Completed | Pending | Failed

  datatype AiAction = AiAction(
    id: string,
    timestamp: Timestamp,
    triggerEvent: string,
    analysis: string,
    actionTaken: string,
    status: AiActionStatus)

  datatype AiObservation = AiObservation(
    id: string,
    logId: string,
    thoughtProcess: string,
    decision: string,
    remediation: Option<string>)

  datatype BotType = Internal | External | Partner

  datatype BotWhitelistEntry = BotWhitelistEntry(
    id: string,
    name: string,
    identifier: string,
    botType: BotType,
    addedBy: string,
    addedAt: Timestamp)

  /** True when no two elements of `xs` are equal. */
  predicate NoDuplicates<T(==)>(xs: seq<T>)
  {
    forall i, j :: 0 <= i < j < |xs| ==> xs[i] != xs[j]
  }

  /** `xs` is `ys` with some elements dropped and the rest kept in their order. */
  predicate IsSubsequence<T(==)>(xs: seq<T>, ys: seq<T>)
    decreases |ys|
  {
    xs == [] || (ys != [] && if xs[0] == ys[0] then IsSubsequence(xs[1..], ys[1..]) else IsSubsequence(xs, ys[1..]))
  }

  predicate DistinctEmployeeIds(es: seq<Employee>)
  {
    forall i, j :: 0 <= i < j < |es| ==> es[i].id != es[j].id
  }

  /** `employees.flatMap(e => e.systems)`: every device, in employee order and then device order. */
  function AllSystems(es: seq<Employee>): (ds: seq<SystemDevice>)
    ensures forall e :: e in es ==> forall d :: d in e.systems ==> d in ds
    ensures forall d :: d in ds ==> exists e :: e in es && d in e.systems
  {
    if es == [] then [] else es[0].systems + AllSystems(es[1..])
  }

  /** The flattening works employee by employee: the devices of two lists joined are the devices
      of the first list followed by those of the second, and one employee contributes exactly its
      own devices, in their order. */
  lemma {:induction false} AllSystemsAppend(a: seq<Employee>, b: seq<Employee>)
    ensures AllSystems(a + b) == AllSystems(a) + AllSystems(b)
    ensures |a| == 1 ==> AllSystems(a) == a[0].systems
  {
    if a == [] {
      assert a + b == b;
    } else {
      assert (a + b)[0] == a[0] && (a + b)[1..] == a[1..] + b;
      AllSystemsAppend(a[1..], b);
      assert AllSystems(a + b) == a[0].systems + AllSystems(a[1..] + b);
      assert a[0].systems + (AllSystems(a[1..]) + AllSystems(b)) == (a[0].systems + AllSystems(a[1..])) + AllSystems(b);
      if |a| == 1 {
        assert a[1..] == [];
        assert a[0].systems + [] == a[0].systems;
      }
    }
  }

  /** Removing one member of a finite set lowers its size by one. */
  lemma SizeWithoutOne(all: set<int>, rest: set<int>, k: int)
    requires k in all && rest == all - {k}
    ensures |all| == |rest| + 1
  {
  }
}

/** The two result records of the AI classification service (services/geminiService.ts). The
    service itself is not modelled: its results are inputs of the steps that consume them.
    The fixed payloads it returns without a key or after a failure are kept as constants. */
module Analysis {
  import opened Types

  datatype ActionType = SuspendUser | BlockIp | LockResource | NoAction

  datatype AnalysisResult = AnalysisResult(
    riskAssessment: string,
    recommendedAction: string,
    isThreat: bool,
    confidenceScore: int,
    actionType: ActionType)

  datatype Verdict = Legitimate | Suspicious | Neutral | Malicious

  /** `suggestedType` is optional here because the page tests it for presence before using it. */
  datatype BotAnalysisResult = BotAnalysisResult(
    verdict: Verdict,
    description: string,
    riskScore: int,
    suggestedType: Option<BotType>)

  const LogAnalysisUnavailable := AnalysisResult(
    "AI Service Unavailable (Missing Key)", "Manual Review Required", false, 0, NoAction)

  const LogAnalysisFailed := AnalysisResult(
    "Analysis Failed", "Check System Logs", false, 0, NoAction)

  const BotAnalysisUnavailable := BotAnalysisResult(
    Neutral, "AI Service Unavailable", 0, Some(External))

  const BotAnalysisFailed := BotAnalysisResult(
    Neutral, "Could not analyze identifier.", 0, Some(External))
}
