/** The employee risk page (pages/EmployeeRisk.tsx): the audit that moves every risk score by a
    random amount and clamps it into 0..100, the revoke guard, the device icon chosen from a
    system's name, and the colour bands of a score. The audit's draws are parameters, one per
    employee of the captured list in its order; the two-second wait is the gap between the calls
    of `StartAudit` and `FinishAudit`. */
module EmployeeRisk {
  import opened Types
  import opened Text
  import Store

  /** `Math.floor(Math.random() * 20) - 10` for the draw `r`. */
  function Fluctuation(r: real): (f: int)
    requires 0.0 <= r < 1.0
    ensures -10 <= f <= 9
    ensures (f + 10) as real <= r * 20.0 < (f + 11) as real
  {
    PickIndex(r, 20) - 10
  }

  /** `Math.min(100, Math.max(0, x))` */
  function Clamp(x: int): (c: int)
    ensures 0 <= c <= 100
    ensures 0 <= x <= 100 ==> c == x
    ensures x < 0 ==> c == 0
    ensures x > 100 ==> c == 100
  {
    if x > 100 then 100 else if x < 0 then 0 else x
  }

  /** The score an audit gives an employee whose score was `score`: in range whatever `score` was,
      and within ten points of it when it was in range. */
  function AuditedScore(score: int, r: real): (s: int)
    requires 0.0 <= r < 1.0
    ensures 0 <= s <= 100
    ensures 0 <= score <= 100 ==> score - 10 <= s <= score + 9
  {
    Clamp(score + Fluctuation(r))
  }

  /** A list of draws, one per employee, each in [0, 1). */
  predicate DrawsFor(es: seq<Employee>, draws: seq<real>)
  {
    |draws| == |es| && forall i :: 0 <= i < |draws| ==> 0.0 <= draws[i] < 1.0
  }

  /** The new score of each employee, in list order. */
  function NewScores(es: seq<Employee>, draws: seq<real>): (s: seq<int>)
    requires DrawsFor(es, draws)
    ensures |s| == |es|
    ensures forall i :: 0 <= i < |es| ==> s[i] == AuditedScore(es[i].riskScore, draws[i]) && 0 <= s[i] <= 100
  {
    if es == [] then [] else [AuditedScore(es[0].riskScore, draws[0])] + NewScores(es[1..], draws[1..])
  }

  /** The store's employee list `base` after the first `k` calls of the audit loop. Call `i` is the
      store's `updateEmployeeRisk` with the id of the employee at position `i` of `snapshot`, the
      list captured when the audit was started, and that employee's new score. The updates work on
      the store's current list, which may hold employees added meanwhile. */
  function AuditPrefix(base: seq<Employee>, snapshot: seq<Employee>, scores: seq<int>, k: nat): (r: seq<Employee>)
    requires |scores| == |snapshot| && k <= |snapshot|
    ensures |r| == |base|
  {
    if k == 0 then base
    else Store.WithRiskScore(AuditPrefix(base, snapshot, scores, k - 1), snapshot[k - 1].id, scores[k - 1])
  }

  /** What the first `k` calls do to one record: each call whose id is the record's sets its score,
      and the last such call wins. Nothing but the score changes. */
  function Audited(e: Employee, snapshot: seq<Employee>, scores: seq<int>, k: nat): (a: Employee)
    requires |scores| == |snapshot| && k <= |snapshot|
    ensures a == e.(riskScore := a.riskScore)
  {
    if k == 0 then e
    else
      var prev := Audited(e, snapshot, scores, k - 1);
      if snapshot[k - 1].id == e.id then prev.(riskScore := scores[k - 1]) else prev
  }

  /** The audit loop works record by record: after `k` calls every record of the current list is
      `Audited` on its own, and the list keeps its length and order. */
  lemma {:induction false} AuditPrefixPointwise(base: seq<Employee>, snapshot: seq<Employee>, scores: seq<int>, k: nat)
    requires |scores| == |snapshot| && k <= |snapshot|
    ensures |AuditPrefix(base, snapshot, scores, k)| == |base|
    ensures forall i :: 0 <= i < |base| ==> AuditPrefix(base, snapshot, scores, k)[i] == Audited(base[i], snapshot, scores, k)
  {
    if k > 0 {
      AuditPrefixPointwise(base, snapshot, scores, k - 1);
    }
  }

  /** With distinct ids in the captured list, a record whose id is at position `j` of it ends up
      with score `scores[j]`, and a record whose id is not in it is untouched. */
  lemma {:induction false} AuditedOnce(e: Employee, snapshot: seq<Employee>, scores: seq<int>, k: nat)
    requires |scores| == |snapshot| && k <= |snapshot| && DistinctEmployeeIds(snapshot)
    ensures forall j :: 0 <= j < k && snapshot[j].id == e.id ==> Audited(e, snapshot, scores, k) == e.(riskScore := scores[j])
    ensures (forall j :: 0 <= j < k ==> snapshot[j].id != e.id) ==> Audited(e, snapshot, scores, k) == e
  {
    if k > 0 {
      AuditedOnce(e, snapshot, scores, k - 1);
      forall j | 0 <= j < k - 1 && snapshot[j].id == e.id
        ensures snapshot[k - 1].id != e.id
      {
        assert snapshot[j].id != snapshot[k - 1].id;
      }
    }
  }

  /** `r` is `base` with every record whose id is at position `j` of `snapshot` given `scores[j]`,
      and every other record as it was. */
  predicate AuditedOnceEach(base: seq<Employee>, snapshot: seq<Employee>, scores: seq<int>, r: seq<Employee>)
    requires |scores| == |snapshot|
  {
    |r| == |base| &&
    (forall i, j :: 0 <= i < |base| && 0 <= j < |snapshot| && snapshot[j].id == base[i].id ==>
       r[i] == base[i].(riskScore := scores[j])) &&
    (forall i :: 0 <= i < |base| && (forall j :: 0 <= j < |snapshot| ==> snapshot[j].id != base[i].id) ==>
       r[i] == base[i])
  }

  /** With distinct ids in the captured list, the whole audit sets the captured score of every
      record it names and leaves every other record of the current list alone. */
  lemma AuditOutcome(base: seq<Employee>, snapshot: seq<Employee>, scores: seq<int>)
    requires |scores| == |snapshot| && DistinctEmployeeIds(snapshot)
    ensures AuditedOnceEach(base, snapshot, scores, AuditPrefix(base, snapshot, scores, |snapshot|))
  {
    AuditPrefixPointwise(base, snapshot, scores, |snapshot|);
    forall i | 0 <= i < |base|
      ensures (forall j :: 0 <= j < |snapshot| && snapshot[j].id == base[i].id ==>
                 Audited(base[i], snapshot, scores, |snapshot|) == base[i].(riskScore := scores[j])) &&
              ((forall j :: 0 <= j < |snapshot| ==> snapshot[j].id != base[i].id) ==>
                 Audited(base[i], snapshot, scores, |snapshot|) == base[i])
    {
      AuditedOnce(base[i], snapshot, scores, |snapshot|);
    }
  }

  /** The intended outcome of an audit: every employee gets its own new score and keeps every
      other field. */
  function WithScores(es: seq<Employee>, scores: seq<int>): (r: seq<Employee>)
    requires |scores| == |es|
    ensures |r| == |es|
    ensures forall i :: 0 <= i < |es| ==> r[i] == es[i].(riskScore := scores[i])
  {
    if es == [] then [] else [es[0].(riskScore := scores[0])] + WithScores(es[1..], scores[1..])
  }

  /** When nobody was added or removed during the wait and ids are distinct, the audit updates
      every employee exactly once: the loop's outcome is the intended one. */
  lemma AuditUpdatesEachOnce(es: seq<Employee>, scores: seq<int>)
    requires |scores| == |es| && DistinctEmployeeIds(es)
    ensures AuditPrefix(es, es, scores, |es|) == WithScores(es, scores)
  {
    AuditPrefixPointwise(es, es, scores, |es|);
    forall i | 0 <= i < |es|
      ensures Audited(es[i], es, scores, |es|) == es[i].(riskScore := scores[i])
    {
      AuditedOnce(es[i], es, scores, |es|);
    }
  }

  /** An employee added after the audit button was pressed keeps the score it was added with. */
  lemma AuditSkipsNewcomers(e: Employee, es: seq<Employee>, scores: seq<int>)
    requires |scores| == |es| && DistinctEmployeeIds(es) && forall j :: 0 <= j < |es| ==> es[j].id != e.id
    ensures AuditPrefix([e] + es, es, scores, |es|) == [e] + WithScores(es, scores)
  {
    AuditPrefixPointwise([e] + es, es, scores, |es|);
    var r := AuditPrefix([e] + es, es, scores, |es|);
    AuditedOnce(e, es, scores, |es|);
    forall i | 1 <= i < |es| + 1
      ensures r[i] == es[i - 1].(riskScore := scores[i - 1])
    {
      assert ([e] + es)[i] == es[i - 1];
      AuditedOnce(es[i - 1], es, scores, |es|);
    }
    assert r == [e] + WithScores(es, scores);
  }

  /** The revoke button is shown for every employee not already suspended. */
  predicate RevokeOffered(e: Employee)
  {
    e.status != Suspended
  }

  /** After a confirmed revoke the button disappears for the employees with that id and stays as
      it was for everyone else. */
  lemma RevokeHidesButton(es: seq<Employee>, id: string)
    ensures forall i :: 0 <= i < |es| ==>
      RevokeOffered(Store.WithEmployeeStatus(es, id, Suspended)[i]) == (es[i].id != id && RevokeOffered(es[i]))
  {
  }

  datatype Icon = Smartphone | ServerIcon | Laptop

  predicate MobileName(lower: string)
  {
    Contains(lower, "mobile") || Contains(lower, "iphone") || Contains(lower, "android")
  }

  predicate ServerName(lower: string)
  {
    Contains(lower, "server") || Contains(lower, "ubuntu") || Contains(lower, "linux")
  }

  /** `getSystemIcon`: the phone words win over the server words, and a name with neither gets a laptop. */
  function SystemIcon(name: string): (icon: Icon)
    ensures icon == Smartphone <==> MobileName(Lower(name))
    ensures icon == ServerIcon <==> !MobileName(Lower(name)) && ServerName(Lower(name))
    ensures icon == Laptop <==> !MobileName(Lower(name)) && !ServerName(Lower(name))
  {
    var lower := Lower(name);
    if MobileName(lower) then Smartphone
    else if ServerName(lower) then ServerIcon
    else Laptop
  }

  /** The icon does not depend on the case of the name. */
  lemma IconIgnoresCase(name: string)
    ensures SystemIcon(Lower(name)) == SystemIcon(name)
  {
    LowerIdempotent(name);
  }

  datatype Band = HighBand | MediumBand | LowBand

  /** The colour of a score: above 70 high, above 30 medium, otherwise low. */
  function RiskBand(score: int): (b: Band)
    ensures b == HighBand <==> score > 70
    ensures b == MediumBand <==> 30 < score <= 70
    ensures b == LowBand <==> score <= 30
  {
    if score > 70 then HighBand else if score > 30 then MediumBand else LowBand
  }

  /** The "Anomalous login pattern detected" line appears above 50. */
  predicate Anomalous(score: int)
  {
    score > 50
  }

  /** The anomaly line never shows on a low-band score and always shows on a high-band one. */
  lemma AnomalyWithinBands(score: int)
    ensures Anomalous(score) ==> RiskBand(score) != LowBand
    ensures RiskBand(score) == HighBand ==> Anomalous(score)
  {
  }

  /** A higher score is never in a lower band. */
  lemma BandMonotone(s: int, t: int)
    requires s <= t
    ensures RiskBand(s) == HighBand ==> RiskBand(t) == HighBand
    ensures RiskBand(t) == LowBand ==> RiskBand(s) == LowBand
  {
  }

  class EmployeeRiskPage {
    var isAuditing: bool
    /** The `employees` the audit's delayed callback closes over: the list when the button was pressed. */
    var auditList: seq<Employee>

    constructor ()
      ensures !isAuditing && auditList == []
    {
      isAuditing := false;
      auditList := [];
    }

    /** The click on the audit button: the button is disabled until the audit has run, and the
        callback captures the employee list of that moment. */
    method StartAudit(store: Store.DataStore)
      modifies this
      ensures isAuditing && auditList == store.employees
    {
      isAuditing := true;
      auditList := store.employees;
    }

    /** The delayed body of `handleAudit`: one `updateEmployeeRisk` per employee of the captured
        list, in its order, with the new score computed from the captured score. Each update acts
        on the store's list as it is then. A record whose id is in the captured list gets the new
        score of that entry; any other record, such as an employee added during the wait, is left
        as it was. */
    method FinishAudit(store: Store.DataStore, draws: seq<real>)
      requires store.Valid() && DrawsFor(auditList, draws)
      modifies this`isAuditing, store`employees
      ensures store.Valid() && !isAuditing
      ensures store.employees == AuditPrefix(old(store.employees), auditList, NewScores(auditList, draws), |auditList|)
      ensures |store.employees| == |old(store.employees)|
      ensures DistinctEmployeeIds(auditList) ==> AuditedOnceEach(old(store.employees), auditList, NewScores(auditList, draws), store.employees)
      ensures DistinctEmployeeIds(auditList) && old(store.employees) == auditList ==>
        store.employees == WithScores(auditList, NewScores(auditList, draws))
    {
      ghost var base := store.employees;
      var list := auditList;
      ghost var scores := NewScores(list, draws);
      var i := 0;
      while i < |list|
        invariant 0 <= i <= |list|
        invariant store.Valid()
        invariant store.employees == AuditPrefix(base, list, scores, i)
      {
        assert scores[i] == AuditedScore(list[i].riskScore, draws[i]);
        store.UpdateEmployeeRisk(list[i].id, AuditedScore(list[i].riskScore, draws[i]));
        i := i + 1;
      }
      if DistinctEmployeeIds(auditList) {
        AuditOutcome(base, auditList, scores);
        if base == auditList {
          AuditUpdatesEachOnce(auditList, scores);
        }
      }
      isAuditing := false;
    }

    /** `handleRevoke`: the employee is suspended only when the confirmation is accepted. */
    method Revoke(store: Store.DataStore, id: string, confirmed: bool)
      requires store.Valid()
      modifies store`employees
      ensures store.Valid()
      ensures store.employees == if confirmed then Store.WithEmployeeStatus(old(store.employees), id, Suspended)
                                 else old(store.employees)
    {
      if confirmed {
        store.UpdateEmployeeStatus(id, Suspended);
      }
    }
  }
}
