/** The autonomous agent page (pages/AiAgents.tsx): a bounded console of text lines, a list of
    observations, and one analysis cycle that picks a log at random, records what the classifier
    made of it, and files an AI action when the answer is a threat or very confident. The random
    draw, the classifier's answer and the clock reading are parameters of the cycle. */
module Agents {
  import opened Types
  import opened Text
  import opened Analysis
  import Store

  const ConsoleKeep := 20
  const BootLine := "> AegisLoop Neural Core Initialized..."

  /** `prev.slice(-n)`: the last `n` elements, or all of them when there are fewer. */
  function LastOf(buf: seq<string>, n: nat): (r: seq<string>)
    ensures |r| == if |buf| < n then |buf| else n
    ensures r == buf[|buf| - |r|..]
  {
    if |buf| <= n then buf else buf[|buf| - n..]
  }

  /** `logToConsole`: the newest line goes at the end, after the last 20 earlier ones. */
  function ConsolePush(buf: seq<string>, text: string): (r: seq<string>)
    ensures |r| == (if |buf| < ConsoleKeep then |buf| else ConsoleKeep) + 1
    ensures r[|r| - 1] == "> " + text
    ensures r[..|r| - 1] == buf[|buf| - (|r| - 1)..]
    ensures |buf| <= ConsoleKeep ==> r == buf + ["> " + text]
  {
    LastOf(buf, ConsoleKeep) + ["> " + text]
  }

  /** `isThreat || confidenceScore > 80`: whether a cycle files an AI action. */
  predicate Triggers(a: AnalysisResult)
  {
    a.isThreat || a.confidenceScore > 80
  }

  /** The observation a cycle records for `log`, with the clock reading as its id. */
  function ObservationOf(log: LogEntry, a: AnalysisResult, now: nat): (o: AiObservation)
    ensures o.id == Decimal(now) && o.logId == log.id && o.remediation == Some(a.recommendedAction)
    ensures o.thoughtProcess == "Analyzed " + LogSourceText(log.source) + " event. Confidence: " + IntDecimal(a.confidenceScore) + "%."
    ensures o.decision == if a.isThreat then "INTERVENTION REQUIRED" else "SAFE"
  {
    AiObservation(Decimal(now), log.id,
      "Analyzed " + LogSourceText(log.source) + " event. Confidence: " + IntDecimal(a.confidenceScore) + "%.",
      if a.isThreat then "INTERVENTION REQUIRED" else "SAFE",
      Some(a.recommendedAction))
  }

  /** The decision reads "INTERVENTION REQUIRED" exactly for a threat, and "SAFE" exactly otherwise. */
  lemma DecisionMatchesThreat(log: LogEntry, a: AnalysisResult, now: nat)
    ensures ObservationOf(log, a, now).decision == "INTERVENTION REQUIRED" <==> a.isThreat
    ensures ObservationOf(log, a, now).decision == "SAFE" <==> !a.isThreat
  {
  }

  /** The AI action a triggering cycle files, stamped with the clock reading. */
  function ActionOf(log: LogEntry, a: AnalysisResult, now: nat): (x: AiAction)
    ensures x.triggerEvent == log.event && x.analysis == a.riskAssessment && x.actionTaken == a.recommendedAction
    ensures x.status == Completed && x.id == "ACT-" + Decimal(now) && x.timestamp == Instant(now)
  {
    AiAction("ACT-" + Decimal(now), Instant(now), log.event, a.riskAssessment, a.recommendedAction, Completed)
  }

  /** The console line a cycle writes before it asks the classifier. */
  function ObservingLine(log: LogEntry): string
  {
    "Observing event: " + log.event + " (" + log.id + ")"
  }

  /** The console lines a cycle writes once the classifier has answered. */
  function AnswerConsole(buf: seq<string>, a: AnalysisResult): (r: seq<string>)
    ensures 1 <= |r| <= ConsoleKeep + 1
    ensures r[|r| - 1] == "> " + (if Triggers(a) then "ACTION TRIGGERED: " + a.recommendedAction
                                  else "Analysis Complete. Risk: " + a.riskAssessment)
    ensures Triggers(a) ==> |r| >= 2 && r[|r| - 2] == "> " + ("Analysis Complete. Risk: " + a.riskAssessment)
  {
    var b := ConsolePush(buf, "Analysis Complete. Risk: " + a.riskAssessment);
    if Triggers(a) then
      var r := ConsolePush(b, "ACTION TRIGGERED: " + a.recommendedAction);
      assert |r| >= 2 by { assert |r| - 1 == |LastOf(b, ConsoleKeep)|; }
      assert r[|r| - 2] == r[..|r| - 1][|r| - 2] == b[|b| - 1];
      r
    else b
  }

  /** The console lines of one whole cycle. */
  function CycleConsole(buf: seq<string>, log: LogEntry, a: AnalysisResult): (r: seq<string>)
    ensures 1 <= |r| <= ConsoleKeep + 1
    ensures r[|r| - 1] == "> " + (if Triggers(a) then "ACTION TRIGGERED: " + a.recommendedAction
                                  else "Analysis Complete. Risk: " + a.riskAssessment)
  {
    AnswerConsole(ConsolePush(buf, ObservingLine(log)), a)
  }

  class AgentPage {
    var observations: seq<AiObservation>
    var isProcessing: bool
    var consoleOutput: seq<string>
    /** The log the pending cycle's continuation closes over, while it waits for the classifier. */
    var pending: Option<LogEntry>

    /** The console keeps its bound, and a cycle is in progress exactly while a log waits for its answer. */
    predicate Valid()
      reads this
    {
      1 <= |consoleOutput| <= ConsoleKeep + 1 && (isProcessing <==> pending.Some?)
    }

    constructor ()
      ensures Valid()
      ensures observations == [] && !isProcessing && consoleOutput == [BootLine] && pending == None
    {
      observations := [];
      isProcessing := false;
      consoleOutput := [BootLine];
      pending := None;
    }

    method LogToConsole(text: string)
      requires Valid()
      modifies this`consoleOutput
      ensures Valid()
      ensures consoleOutput == ConsolePush(old(consoleOutput), text)
    {
      consoleOutput := LastOf(consoleOutput, ConsoleKeep) + ["> " + text];
    }

    /** The Neural Engine button is enabled only while no cycle is in progress. */
    predicate CanStartCycle()
      reads this
      ensures Valid() ==> (CanStartCycle() <==> pending.None?)
    {
      !isProcessing
    }

    /** The click on the Neural Engine button, up to the classifier call of `processRandomLog`.
        With no logs nothing happens. Otherwise the log at `Math.floor(pick * n)` is chosen, the
        cycle is marked in progress and its observing line is written. */
    method StartCycle(store: Store.DataStore, pick: real) returns (chosen: Option<LogEntry>)
      requires 0.0 <= pick < 1.0 && Valid()
      modifies this`isProcessing, this`consoleOutput, this`pending
      ensures Valid()
      ensures store.logs == [] ==> (chosen == None && consoleOutput == old(consoleOutput) &&
                                    isProcessing == old(isProcessing) && pending == old(pending))
      ensures store.logs != [] ==> (chosen == Some(store.logs[PickIndex(pick, |store.logs|)]) &&
                                    chosen.value in store.logs && isProcessing && !CanStartCycle() &&
                                    pending == chosen &&
                                    consoleOutput == ConsolePush(old(consoleOutput), ObservingLine(chosen.value)))
    {
      if |store.logs| == 0 {
        return None;
      }
      var log := store.logs[PickIndex(pick, |store.logs|)];
      isProcessing := true;
      pending := Some(log);
      LogToConsole("Observing event: " + log.event + " (" + log.id + ")");
      chosen := Some(log);
    }

    /** The rest of `processRandomLog`, once the classifier's answer for the pending log has come
        back: the answer's console lines, the AI action exactly when the answer triggers one, one
        observation of the log prepended, and the cycle no longer in progress. */
    method FinishCycle(store: Store.DataStore, analysis: AnalysisResult, now: nat)
      requires store.Valid() && Valid() && pending.Some?
      modifies this`consoleOutput, this`observations, this`isProcessing, this`pending, store`aiActions
      ensures store.Valid() && Valid() && !isProcessing && CanStartCycle() && pending == None
      ensures observations == [ObservationOf(old(pending).value, analysis, now)] + old(observations)
      ensures consoleOutput == AnswerConsole(old(consoleOutput), analysis)
      ensures store.aiActions == (if Triggers(analysis) then [ActionOf(old(pending).value, analysis, now)] + old(store.aiActions)
                                  else old(store.aiActions))
    {
      var log := pending.value;
      LogToConsole("Analysis Complete. Risk: " + analysis.riskAssessment);
      if analysis.isThreat || analysis.confidenceScore > 80 {
        LogToConsole("ACTION TRIGGERED: " + analysis.recommendedAction);
        store.AddAiAction(ActionOf(log, analysis, now));
      }
      observations := [ObservationOf(log, analysis, now)] + observations;
      isProcessing := false;
      pending := None;
    }

    /** A whole cycle whose answer arrives before anything else happens: `StartCycle` followed by
        `FinishCycle`. With no logs nothing happens. Otherwise exactly one observation of the drawn
        log is prepended, and one AI action is prepended to the store exactly when the answer
        triggers one. */
    method ProcessRandomLog(store: Store.DataStore, pick: real, analysis: AnalysisResult, now: nat)
      returns (chosen: Option<LogEntry>)
      requires 0.0 <= pick < 1.0 && store.Valid() && Valid()
      modifies this, store`aiActions
      ensures store.Valid() && Valid()
      ensures old(store.logs) == [] ==> (chosen == None && observations == old(observations) &&
        consoleOutput == old(consoleOutput) && isProcessing == old(isProcessing) && pending == old(pending) &&
        store.aiActions == old(store.aiActions))
      ensures old(store.logs) != [] ==> (
        chosen == Some(store.logs[PickIndex(pick, |store.logs|)]) && chosen.value in store.logs &&
        observations == [ObservationOf(chosen.value, analysis, now)] + old(observations) &&
        consoleOutput == CycleConsole(old(consoleOutput), chosen.value, analysis) && !isProcessing && pending == None &&
        store.aiActions == (if Triggers(analysis) then [ActionOf(chosen.value, analysis, now)] + old(store.aiActions)
                            else old(store.aiActions)))
    {
      if |store.logs| == 0 {
        return None;
      }
      chosen := StartCycle(store, pick);
      assert observations == old(observations) && store.aiActions == old(store.aiActions) && pending == chosen;
      ghost var started := consoleOutput;
      assert started == ConsolePush(old(consoleOutput), ObservingLine(chosen.value));
      FinishCycle(store, analysis, now);
      assert store.logs == old(store.logs);
      assert consoleOutput == AnswerConsole(started, analysis) == CycleConsole(old(consoleOutput), chosen.value, analysis);
    }
  }
}
