/** The in-memory store of the dashboard (contexts/DataContext.tsx): six collections held as state,
    replaced by each mutator with a new value built from the old one. Each mutator is specified by
    a function on the old collection, and the facts the dashboard relies on are lemmas about those
    functions. Updates are sequential; the stale read in `blockIp` is not modelled. */
module Store {
  import opened Types
  import opened Text
  import Seed

  // ---- the new collections the mutators compute ----

  /** `prev.map(e => e.id === id ? { ...e, riskScore: score } : e)` */
  function WithRiskScore(es: seq<Employee>, id: string, score: int): (r: seq<Employee>)
    ensures |r| == |es|
    ensures forall i :: 0 <= i < |es| ==> r[i] == if es[i].id == id then es[i].(riskScore := score) else es[i]
  {
    if es == [] then []
    else [if es[0].id == id then es[0].(riskScore := score) else es[0]] + WithRiskScore(es[1..], id, score)
  }

  /** `prev.map(e => e.id === id ? { ...e, status } : e)` */
  function WithEmployeeStatus(es: seq<Employee>, id: string, status: EmployeeStatus): (r: seq<Employee>)
    ensures |r| == |es|
    ensures forall i :: 0 <= i < |es| ==> r[i] == if es[i].id == id then es[i].(status := status) else es[i]
  {
    if es == [] then []
    else [if es[0].id == id then es[0].(status := status) else es[0]] + WithEmployeeStatus(es[1..], id, status)
  }

  /** `prev.map(l => l.id === id ? { ...l, status } : l)` */
  function WithLinkStatus(ks: seq<SecureLink>, id: string, status: LinkStatus): (r: seq<SecureLink>)
    ensures |r| == |ks|
    ensures forall i :: 0 <= i < |ks| ==> r[i] == if ks[i].id == id then ks[i].(status := status) else ks[i]
  {
    if ks == [] then []
    else [if ks[0].id == id then ks[0].(status := status) else ks[0]] + WithLinkStatus(ks[1..], id, status)
  }

  /** `prev.filter(b => b.id !== id)`: no entry with that id is left, every
      other entry stays, as many times as it was listed, in order. */
  function WithoutBot(bs: seq<BotWhitelistEntry>, id: string): (r: seq<BotWhitelistEntry>)
    ensures IsSubsequence(r, bs)
    ensures forall b :: b in r ==> b in bs && b.id != id
    ensures forall b :: b in bs && b.id != id ==> b in r
    ensures forall b :: multiset(r)[b] == if b.id != id then multiset(bs)[b] else 0
  {
    if bs == [] then []
    else
      assert bs == [bs[0]] + bs[1..];
      if bs[0].id == id then WithoutBot(bs[1..], id)
      else [bs[0]] + WithoutBot(bs[1..], id)
  }

  /** `blockIp`: the address is appended only when it is not listed yet. */
  function WithBlockedIp(ips: seq<string>, ip: string): (r: seq<string>)
    ensures ip in r && (set x | x in r) == (set x | x in ips) + {ip}
    ensures |ips| <= |r| <= |ips| + 1 && r[..|ips|] == ips
    ensures NoDuplicates(ips) ==> NoDuplicates(r)
    ensures ip in ips ==> r == ips
    ensures ip !in ips ==> r == ips + [ip]
  {
    if ip in ips then ips else ips + [ip]
  }

  /** The part of an employee record `addEmployee` receives: everything but the id. */
  datatype EmployeeDraft = EmployeeDraft(
    name: string,
    role: string,
    department: string,
    riskScore: int,
    systems: seq<SystemDevice>,
    authorizedApps: seq<string>,
    status: EmployeeStatus)

  /** `{ ...employeeData, id }` */
  function WithId(d: EmployeeDraft, id: string): (e: Employee)
    ensures e.id == id
    ensures EmployeeDraft(e.name, e.role, e.department, e.riskScore, e.systems, e.authorizedApps, e.status) == d
  {
    Employee(id, d.name, d.role, d.department, d.riskScore, d.systems, d.authorizedApps, d.status)
  }

  /** The record `addLink` builds from the form: never accessed, active, no access history. */
  function NewLink(name: string, url: string, linkType: LinkType, now: nat): (k: SecureLink)
    ensures k.name == name && k.url == url && k.linkType == linkType
    ensures k.accessCount == 0 && k.lastAccessedBy == "N/A" && k.status == LinkStatus.Active && k.accessLogs == []
    ensures k.id == "LNK-" + Decimal(now) && k.lastAccessedAt == Instant(now)
  {
    SecureLink("LNK-" + Decimal(now), name, url, linkType, 0, "N/A", Instant(now), LinkStatus.Active, [])
  }

  // ---- what the mutators preserve ----

  /** An id that names no employee leaves the list as it was; the other update functions are the same. */
  lemma UnknownEmployeeUnchanged(es: seq<Employee>, id: string, score: int, status: EmployeeStatus)
    requires forall e :: e in es ==> e.id != id
    ensures WithRiskScore(es, id, score) == es
    ensures WithEmployeeStatus(es, id, status) == es
  {
    assert forall i :: 0 <= i < |es| ==> es[i] in es;
  }

  lemma UnknownLinkUnchanged(ks: seq<SecureLink>, id: string, status: LinkStatus)
    requires forall k :: k in ks ==> k.id != id
    ensures WithLinkStatus(ks, id, status) == ks
  {
    assert forall i :: 0 <= i < |ks| ==> ks[i] in ks;
  }

  /** The field updates leave every id in place, so distinct ids stay distinct. */
  lemma UpdatesKeepIds(es: seq<Employee>, id: string, score: int, status: EmployeeStatus)
    ensures forall i :: 0 <= i < |es| ==> WithRiskScore(es, id, score)[i].id == es[i].id
    ensures forall i :: 0 <= i < |es| ==> WithEmployeeStatus(es, id, status)[i].id == es[i].id
    ensures DistinctEmployeeIds(es) ==> DistinctEmployeeIds(WithRiskScore(es, id, score))
    ensures DistinctEmployeeIds(es) ==> DistinctEmployeeIds(WithEmployeeStatus(es, id, status))
  {
  }

  /** Removing an id that is not listed is a no-op. */
  lemma {:induction false} RemoveAbsentBot(bs: seq<BotWhitelistEntry>, id: string)
    requires forall b :: b in bs ==> b.id != id
    ensures WithoutBot(bs, id) == bs
  {
    if bs != [] {
      assert bs[0] in bs;
      assert forall b :: b in bs[1..] ==> b in bs;
      RemoveAbsentBot(bs[1..], id);
      assert [bs[0]] + bs[1..] == bs;
    }
  }

  /** Blocking an address twice is the same as blocking it once. */
  lemma BlockIdempotent(ips: seq<string>, ip: string)
    ensures WithBlockedIp(WithBlockedIp(ips, ip), ip) == WithBlockedIp(ips, ip)
  {
  }

  // ---- the store ----

  class DataStore {
    var employees: seq<Employee>
    var logs: seq<LogEntry>
    var links: seq<SecureLink>
    var aiActions: seq<AiAction>
    var botWhitelist: seq<BotWhitelistEntry>
    var blockedIps: seq<string>

    /** The blocked list never holds an address twice. */
    predicate Valid()
      reads this
    {
      NoDuplicates(blockedIps)
    }

    /** The initial state: the seed collections, no blocked address. */
    constructor (now: int)
      ensures Valid()
      ensures employees == Seed.MockEmployees(now) && logs == Seed.MockLogs(now) && links == Seed.MockLinks(now)
      ensures aiActions == Seed.MockAiActions(now) && botWhitelist == Seed.MockBotWhitelist(now)
      ensures blockedIps == []
    {
      employees := Seed.MockEmployees(now);
      logs := Seed.MockLogs(now);
      links := Seed.MockLinks(now);
      aiActions := Seed.MockAiActions(now);
      botWhitelist := Seed.MockBotWhitelist(now);
      blockedIps := [];
    }

    method AddLog(log: LogEntry)
      requires Valid()
      modifies this`logs
      ensures Valid()
      ensures logs == [log] + old(logs)
    {
      logs := [log] + logs;
    }

    /** The new employee's id is `EMP-` followed by the clock reading. */
    method AddEmployee(data: EmployeeDraft, now: nat)
      requires Valid()
      modifies this`employees
      ensures Valid()
      ensures employees == [WithId(data, "EMP-" + Decimal(now))] + old(employees)
    {
      employees := [WithId(data, "EMP-" + Decimal(now))] + employees;
    }

    method UpdateEmployeeRisk(id: string, score: int)
      requires Valid()
      modifies this`employees
      ensures Valid()
      ensures employees == WithRiskScore(old(employees), id, score)
    {
      employees := WithRiskScore(employees, id, score);
    }

    method UpdateEmployeeStatus(id: string, status: EmployeeStatus)
      requires Valid()
      modifies this`employees
      ensures Valid()
      ensures employees == WithEmployeeStatus(old(employees), id, status)
    {
      employees := WithEmployeeStatus(employees, id, status);
    }

    method AddAiAction(action: AiAction)
      requires Valid()
      modifies this`aiActions
      ensures Valid()
      ensures aiActions == [action] + old(aiActions)
    {
      aiActions := [action] + aiActions;
    }

    method UpdateLinkStatus(id: string, status: LinkStatus)
      requires Valid()
      modifies this`links
      ensures Valid()
      ensures links == WithLinkStatus(old(links), id, status)
    {
      links := WithLinkStatus(links, id, status);
    }

    method AddLink(name: string, url: string, linkType: LinkType, now: nat)
      requires Valid()
      modifies this`links
      ensures Valid()
      ensures links == [NewLink(name, url, linkType, now)] + old(links)
    {
      links := [NewLink(name, url, linkType, now)] + links;
    }

    method AddBotToWhitelist(bot: BotWhitelistEntry)
      requires Valid()
      modifies this`botWhitelist
      ensures Valid()
      ensures botWhitelist == [bot] + old(botWhitelist)
    {
      botWhitelist := [bot] + botWhitelist;
    }

    method RemoveBotFromWhitelist(id: string)
      requires Valid()
      modifies this`botWhitelist
      ensures Valid()
      ensures botWhitelist == WithoutBot(old(botWhitelist), id)
    {
      botWhitelist := WithoutBot(botWhitelist, id);
    }

    method BlockIp(ip: string)
      requires Valid()
      modifies this`blockedIps
      ensures Valid()
      ensures blockedIps == WithBlockedIp(old(blockedIps), ip)
    {
      if ip !in blockedIps {
        blockedIps := blockedIps + [ip];
      }
    }
  }
}
