/** The log analysis panel and its remediation dispatcher (components/LogAnalysisModal.tsx). What a
    remediation does is decided by `Plan` from the log, the classifier's answer and the employee
    list; `Remediate` carries the plan out on the store, records it as one completed AI action and
    marks the panel as executed. The classifier call itself is not modelled: its answer arrives
    through `AnalysisArrived`. */
module Remediation {
  import opened Types
  import opened Text
  import opened Analysis
  import Store

  /** `employees.find(e => e.name === name)`, as the position of the first match. */
  function FindByName(es: seq<Employee>, name: string): (k: Option<nat>)
    ensures k.Some? ==> k.value < |es| && es[k.value].name == name && forall j :: 0 <= j < k.value ==> es[j].name != name
    ensures k.None? ==> forall j :: 0 <= j < |es| ==> es[j].name != name
  {
    if es == [] then None
    else if es[0].name == name then Some(0)
    else match FindByName(es[1..], name)
      case None => None
      case Some(k) => Some(k + 1)
  }

  /** The effects a remediation can have. */
  datatype Remedy =
    | SuspendEmployee(id: string, name: string)
    | BlockAddress(ip: string)
    | Acknowledge
    | NoRemedy

  /** A JavaScript truthiness test on an optional text field: present and not empty. */
  predicate Filled(f: Option<string>)
  {
    f.Some? && f.value != ""
  }

  /** The branch `handleRemediation` takes. */
  function Plan(log: Option<LogEntry>, analysis: Option<AnalysisResult>, es: seq<Employee>): (p: Remedy)
    ensures log.None? || analysis.None? ==> p == NoRemedy
    ensures p.SuspendEmployee? <==> (log.Some? && analysis.Some? && analysis.value.actionType == SuspendUser &&
                                     Filled(log.value.user) && FindByName(es, log.value.user.value).Some?)
    ensures p.SuspendEmployee? ==> exists k :: (0 <= k < |es| && es[k].name == log.value.user.value &&
                                                p == SuspendEmployee(es[k].id, es[k].name) &&
                                                forall j :: 0 <= j < k ==> es[j].name != es[k].name)
    ensures p.BlockAddress? <==> log.Some? && analysis.Some? && analysis.value.actionType == BlockIp && Filled(log.value.ip)
    ensures p.BlockAddress? ==> p.ip == log.value.ip.value
    ensures p.Acknowledge? <==> log.Some? && analysis.Some? && analysis.value.actionType == NoAction
  {
    if log.None? || analysis.None? then NoRemedy
    else
      var l, a := log.value, analysis.value;
      if a.actionType == SuspendUser && Filled(l.user) then
        match FindByName(es, l.user.value)
        case Some(k) => SuspendEmployee(es[k].id, es[k].name)
        case None => NoRemedy
      else if a.actionType == BlockIp && Filled(l.ip) then BlockAddress(l.ip.value)
      else if a.actionType == NoAction then Acknowledge
      else NoRemedy
  }

  /** The `actionTaken` text recorded for a remedy that succeeded. */
  function ActionText(p: Remedy): (t: string)
    ensures t == "" <==> p.NoRemedy?
    ensures p.Acknowledge? ==> t == "No automated action required."
    ensures p.SuspendEmployee? ==> |p.name| <= |t| && t[|t| - |p.name|..] == p.name
    ensures p.BlockAddress? ==> |p.ip| <= |t| && t[|t| - |p.ip|..] == p.ip
  {
    match p
    case SuspendEmployee(_, name) => "Suspended user account: " + name
    case BlockAddress(ip) => "Blocked IP Address: " + ip
    case Acknowledge => "No automated action required."
    case NoRemedy => ""
  }

  /** The remediation button shows only when the answer is in, calls the log a threat, and has not been acted on. */
  function Offered(loading: bool, analysis: Option<AnalysisResult>, executed: bool): (b: bool)
    ensures b ==> analysis.Some? && analysis.value.isThreat
    ensures loading || executed ==> !b
  {
    !loading && analysis.Some? && analysis.value.isThreat && !executed
  }

  /** The service's fallback answers never offer a remediation. */
  lemma FallbacksOfferNothing(loading: bool, executed: bool)
    ensures !Offered(loading, Some(LogAnalysisUnavailable), executed)
    ensures !Offered(loading, Some(LogAnalysisFailed), executed)
  {
  }

  /** With distinct ids, suspending the first employee so named changes that record's status and no other record. */
  lemma SuspendsOnlyTheNamed(es: seq<Employee>, k: nat)
    requires k < |es| && DistinctEmployeeIds(es)
    ensures forall j :: 0 <= j < |es| ==>
      Store.WithEmployeeStatus(es, es[k].id, Suspended)[j] == if j == k then es[k].(status := Suspended) else es[j]
  {
  }

  class AnalysisPanel {
    var log: Option<LogEntry>
    var analysis: Option<AnalysisResult>
    var loading: bool
    var actionExecuted: bool

    constructor ()
      ensures log == None && analysis == None && !loading && !actionExecuted
    {
      log := None;
      analysis := None;
      loading := false;
      actionExecuted := false;
    }

    predicate CanRemediate()
      reads this
      ensures CanRemediate() ==> analysis.Some? && analysis.value.isThreat
      ensures loading || actionExecuted ==> !CanRemediate()
    {
      Offered(loading, analysis, actionExecuted)
    }

    /** Selecting a log starts its analysis and clears the executed flag. */
    method Open(l: LogEntry)
      modifies this`log, this`loading, this`actionExecuted
      ensures log == Some(l) && loading && !actionExecuted
      ensures !CanRemediate()
    {
      log := Some(l);
      loading := true;
      actionExecuted := false;
    }

    /** The analysis effect with no log: the answer is dropped. */
    method Close()
      modifies this`log, this`analysis
      ensures log == None && analysis == None
      ensures !CanRemediate()
    {
      log := None;
      analysis := None;
    }

    method AnalysisArrived(result: AnalysisResult)
      modifies this`analysis, this`loading
      ensures analysis == Some(result) && !loading
      ensures CanRemediate() <==> result.isThreat && !actionExecuted
    {
      analysis := Some(result);
      loading := false;
    }

    /** `handleRemediation`: carries out `Plan` on the store; a remedy that took effect is recorded
        as one completed AI action stamped with the clock reading `now`, and the panel is marked executed. */
    method Remediate(store: Store.DataStore, now: nat) returns (p: Remedy)
      requires store.Valid()
      modifies this`actionExecuted, store`employees, store`blockedIps, store`aiActions
      ensures store.Valid()
      ensures p == Plan(log, analysis, old(store.employees))
      ensures store.employees == (if p.SuspendEmployee? then Store.WithEmployeeStatus(old(store.employees), p.id, Suspended)
                                  else old(store.employees))
      ensures store.blockedIps == (if p.BlockAddress? then Store.WithBlockedIp(old(store.blockedIps), p.ip)
                                   else old(store.blockedIps))
      ensures p != NoRemedy ==> (store.aiActions ==
        [AiAction("ACT-" + Decimal(now), Instant(now), log.value.event, analysis.value.riskAssessment, ActionText(p), Completed)]
        + old(store.aiActions))
      ensures p == NoRemedy ==> store.aiActions == old(store.aiActions)
      ensures actionExecuted == (old(actionExecuted) || p != NoRemedy)
      ensures p != NoRemedy ==> !CanRemediate()
    {
      p := Plan(log, analysis, store.employees);
      if log.None? || analysis.None? {
        return;
      }
      var l, a := log.value, analysis.value;
      var success := false;
      if a.actionType == SuspendUser && Filled(l.user) {
        var k := FindByName(store.employees, l.user.value);
        if k.Some? {
          store.UpdateEmployeeStatus(store.employees[k.value].id, Suspended);
          success := true;
        }
      } else if a.actionType == BlockIp && Filled(l.ip) {
        store.BlockIp(l.ip.value);
        success := true;
      } else if a.actionType == NoAction {
        success := true;
      }
      if success {
        store.AddAiAction(AiAction("ACT-" + Decimal(now), Instant(now), l.event, a.riskAssessment, ActionText(p), Completed));
        actionExecuted := true;
      }
    }
  }
}
