/** The seed collections the store starts from (constants.ts). The literals are evaluated once when
    the module loads; `now` stands for the clock reading `Date.now()` / `new Date()` of that moment. */
module Seed {
  import opened Types
  import opened Text
  import Identifier

  const Minute := 60000
  const Hour := 3600000
  const Day := 86400000

  function Stats(up: real, down: real, connections: int, bandwidth: string): NetworkStats
  {
    NetworkStats(up, down, connections, bandwidth)
  }

  /** Three employees, EMP-001 to EMP-003 in that order; the third is under review. */
  function MockEmployees(now: int): (es: seq<Employee>)
    ensures |es| == 3 && es[0].id == "EMP-001" && es[1].id == "EMP-002" && es[2].id == "EMP-003"
    ensures es[0].status == EmployeeStatus.Active && es[1].status == EmployeeStatus.Active && es[2].status == UnderReview
  {
    [ Employee("EMP-001", "Sarah Chen", "Senior DevOps", "Infrastructure", 12,
        [ SystemDevice("SYS-001", "Workstation Alpha", "10.0.4.22", "00:1B:44:11:3A:B7", "Ubuntu 22.04 LTS",
            Online, Instant(now), 45, 62, Stats(12.5, 45.2, 14, "4.5 GB")),
          SystemDevice("SYS-002", "Dev MacBook", "192.168.1.105", "A1:B2:C3:D4:E5:F6", "macOS Sonoma",
            Offline, Instant(now - Day), 0, 0, Stats(0.0, 0.0, 0, "0 GB")) ],
        ["AWS Console", "Jira"], EmployeeStatus.Active),
      Employee("EMP-002", "Michael Ross", "Frontend Engineer", "Product", 45,
        [ SystemDevice("SYS-003", "Ross-MBP-Corporate", "10.0.4.45", "AA:BB:CC:11:22:33", "macOS Sonoma",
            Online, Instant(now), 78, 89, Stats(150.2, 420.5, 124, "12.8 GB")) ],
        ["Figma", "VS Code"], EmployeeStatus.Active),
      Employee("EMP-003", "David Kim", "Contractor", "External", 88,
        [ SystemDevice("SYS-004", "Unknown-Device-X1", "192.168.100.55", "DE:AD:BE:EF:CA:FE", "Windows 11",
            DeviceStatus.Compromised, Instant(now), 99, 95, Stats(850.0, 10.5, 5430, "45.2 GB")) ],
        ["Jira"], UnderReview) ]
  }

  /** Three logs, newest first, at levels Medium, Low and Critical. */
  function MockLogs(now: int): (ls: seq<LogEntry>)
    ensures |ls| == 3 && ls[0].riskLevel == Medium && ls[1].riskLevel == Low && ls[2].riskLevel == Critical
    ensures ls[0].timestamp == Instant(now) && ls[1].timestamp == Instant(now - 5 * Minute) && ls[2].timestamp == Instant(now - 15 * Minute)
  {
    [ LogEntry("LOG-1023", Instant(now), Auth, "Failed Login Attempt", "3 failed attempts from IP 192.168.1.5",
        Some("David Kim"), Some("192.168.1.5"), Medium),
      LogEntry("LOG-1022", Instant(now - 5 * Minute), Git, "Repo Cloned", "frontend-main cloned via HTTPS",
        Some("Michael Ross"), Some("10.0.0.12"), Low),
      LogEntry("LOG-1021", Instant(now - 15 * Minute), BotDetector, "Abnormal API Usage", "Rate limit exceeded (500 req/s)",
        Some("Unknown"), Some("45.33.22.11"), Critical) ]
  }

  /** Two active links, with two and three access logs. */
  function MockLinks(now: int): (ls: seq<SecureLink>)
    ensures |ls| == 2 && |ls[0].accessLogs| == 2 && |ls[1].accessLogs| == 3
    ensures ls[0].status == LinkStatus.Active && ls[1].status == LinkStatus.Active
  {
    [ SecureLink("LNK-01", "Production DB Credentials", "https://vault.internal/secret/prod-db", SensitiveDoc,
        12, "Sarah Chen", Instant(now), LinkStatus.Active,
        [ LinkAccessLog("ACC-001", Instant(now), "SYS-001", "Workstation Alpha", "10.0.4.22",
            "EMP-001", "Sarah Chen", View, 0.5),
          LinkAccessLog("ACC-002", Instant(now - Day), "SYS-003", "Ross-MBP-Corporate", "10.0.4.45",
            "EMP-002", "Michael Ross", View, 0.2) ]),
      SecureLink("LNK-02", "Core Payment Service", "github.com/aegis/payment-core", Repository,
        450, "Michael Ross", Instant(now - Hour), LinkStatus.Active,
        [ LinkAccessLog("ACC-003", Instant(now - Hour), "SYS-003", "Ross-MBP-Corporate", "10.0.4.45",
            "EMP-002", "Michael Ross", Clone, 850.0),
          LinkAccessLog("ACC-004", Instant(now - 2 * Hour), "SYS-001", "Workstation Alpha", "10.0.4.22",
            "EMP-001", "Sarah Chen", Push, 12.0),
          LinkAccessLog("ACC-005", Instant(now - 3 * Hour), "SYS-003", "Ross-MBP-Corporate", "10.0.4.45",
            "EMP-002", "Michael Ross", Download, 45.0) ]) ]
  }

  /** One completed action, two hours old. */
  function MockAiActions(now: int): (xs: seq<AiAction>)
    ensures |xs| == 1 && xs[0].status == Completed && xs[0].timestamp == Instant(now - 2 * Hour)
  {
    [ AiAction("ACT-001", Instant(now - 2 * Hour), "Suspicious IP Login (Russia)",
        "IP 89.1.1.1 is flagged in threat intelligence.", "Account Locked & Session Revoked", Completed) ]
  }

  /** Two entries: an external agent string and an internal address. */
  function MockBotWhitelist(now: int): (bs: seq<BotWhitelistEntry>)
    ensures |bs| == 2 && bs[0].botType == External && bs[1].botType == Internal
    ensures bs[0].identifier == "UptimeRobot/2.0" && bs[1].identifier == "10.0.0.55"
  {
    [ BotWhitelistEntry("BOT-001", "UptimeMonitor", "UptimeRobot/2.0", External, "Admin User", Instant(now - 30 * Day)),
      BotWhitelistEntry("BOT-002", "CI/CD Deployer", "10.0.0.55", Internal, "Sarah Chen", Instant(now - 10 * Day)) ]
  }

  // ---- facts about the seed ----

  /** Ids are unique within each seed collection. */
  lemma SeedEmployeeIdsUnique(now: int)
    ensures DistinctEmployeeIds(MockEmployees(now))
  {
  }

  lemma SeedSystemIdsUnique(now: int)
    ensures var ds := AllSystems(MockEmployees(now)); forall i, j :: 0 <= i < j < |ds| ==> ds[i].id != ds[j].id
  {
    var es := MockEmployees(now);
    assert es[1..][1..][1..] == [];
    assert AllSystems(es[1..][1..]) == es[2].systems + AllSystems([]);
    assert AllSystems(es[1..]) == es[1].systems + AllSystems(es[1..][1..]);
    assert AllSystems(es) == es[0].systems + es[1].systems + es[2].systems;
  }

  lemma SeedLogIdsUnique(now: int)
    ensures var ls := MockLogs(now); forall i, j :: 0 <= i < j < |ls| ==> ls[i].id != ls[j].id
  {
  }

  lemma SeedLinkIdsUnique(now: int)
    ensures var ks := MockLinks(now); forall i, j :: 0 <= i < j < |ks| ==> ks[i].id != ks[j].id
    ensures var xs := MockLinks(now)[0].accessLogs + MockLinks(now)[1].accessLogs;
      forall i, j :: 0 <= i < j < |xs| ==> xs[i].id != xs[j].id
  {
  }

  lemma SeedBotIdsUnique(now: int)
    ensures var bs := MockBotWhitelist(now); forall i, j :: 0 <= i < j < |bs| ==> bs[i].id != bs[j].id
  {
  }

  /** The seed risk scores and every seed gauge lie in the documented range 0 to 100. */
  lemma SeedInRange(now: int)
    ensures forall e :: e in MockEmployees(now) ==> 0 <= e.riskScore <= 100
    ensures forall d :: d in AllSystems(MockEmployees(now)) ==> GaugesInRange(d)
  {
    var es := MockEmployees(now);
    assert AllSystems(es[1..][1..]) == es[2].systems + AllSystems([]);
    assert AllSystems(es[1..]) == es[1].systems + AllSystems(es[1..][1..]);
    assert AllSystems(es) == es[0].systems + es[1].systems + es[2].systems;
  }

  lemma AgentIdentifierValid()
    ensures Identifier.ValidateIdentifier("UptimeRobot/2.0") == None
  {
    Identifier.UnpaddedFreeTextAccepted("UptimeRobot/2.0");
  }

  lemma AddressIdentifierValid()
    ensures Identifier.ValidateIdentifier("10.0.0.55") == None
  {
    var q := Identifier.Ipv4Address(10, 0, 0, 55);
    assert Decimal(10) == "10" && Decimal(55) == "55";
    assert Identifier.RenderAddress(q) == "10.0.0.55";
    Identifier.ValidAddressesAccepted(q, Identifier.CidrBlock(q, 32));
  }

  /** Both seed whitelist identifiers pass the validator: the user agent as free text, the
      address as a dotted quad. */
  lemma SeedWhitelistValid(now: int)
    ensures forall b :: b in MockBotWhitelist(now) ==> Identifier.ValidateIdentifier(b.identifier) == None
  {
    var bs := MockBotWhitelist(now);
    forall b | b in bs
      ensures Identifier.ValidateIdentifier(b.identifier) == None
    {
      if b == bs[0] {
        AgentIdentifierValid();
      } else {
        assert b == bs[1];
        AddressIdentifierValid();
      }
    }
  }

  /** An access log names a device, its owner and their details as they are in the employee list. */
  predicate Resolves(l: LinkAccessLog, es: seq<Employee>)
  {
    exists e, d :: e in es && d in e.systems &&
      d.id == l.systemId && d.name == l.systemName && d.ip == l.systemIp && e.id == l.userId && e.name == l.userName
  }

  /** Every seed access log refers to an existing device of the employee it names. */
  lemma SeedAccessLogsResolve(now: int)
    ensures forall k, l :: k in MockLinks(now) && l in k.accessLogs ==> Resolves(l, MockEmployees(now))
  {
    var es := MockEmployees(now);
    var sarah, ross := es[0], es[1];
    assert Resolves(MockLinks(now)[0].accessLogs[0], es) by { assert sarah.systems[0] in sarah.systems; }
    assert Resolves(MockLinks(now)[0].accessLogs[1], es) by { assert ross.systems[0] in ross.systems; }
    assert Resolves(MockLinks(now)[1].accessLogs[0], es) by { assert ross.systems[0] in ross.systems; }
    assert Resolves(MockLinks(now)[1].accessLogs[1], es) by { assert sarah.systems[0] in sarah.systems; }
    assert Resolves(MockLinks(now)[1].accessLogs[2], es) by { assert ross.systems[0] in ross.systems; }
  }
}
