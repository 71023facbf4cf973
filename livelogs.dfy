/** The live log page (pages/LiveLogs.tsx): the case-insensitive filter over the log list, and the
    simulated feed that, every three seconds while the page is live, may prepend one routine log
    through the store. The interval timer is not modelled: each firing is one call of `Tick`, and
    its four random draws and the clock reading are parameters. */
module LiveLogs {
  import opened Types
  import opened Text
  import Store

  /** The filter test: the lowercased event or the lowercased source contains the lowercased filter. */
  predicate Keeps(l: LogEntry, filter: string)
  {
    Contains(Lower(l.event), Lower(filter)) || Contains(Lower(LogSourceText(l.source)), Lower(filter))
  }

  /** `filteredLogs`: the logs the filter keeps, each as often as it is listed, in their order. */
  function FilteredLogs(logs: seq<LogEntry>, filter: string): (r: seq<LogEntry>)
    ensures IsSubsequence(r, logs)
    ensures forall l :: l in r <==> l in logs && Keeps(l, filter)
    ensures forall l :: multiset(r)[l] == if Keeps(l, filter) then multiset(logs)[l] else 0
  {
    if logs == [] then []
    else
      assert logs == [logs[0]] + logs[1..];
      if Keeps(logs[0], filter) then [logs[0]] + FilteredLogs(logs[1..], filter)
      else FilteredLogs(logs[1..], filter)
  }

  /** The empty filter keeps every log. */
  lemma {:induction false} EmptyFilterKeepsAll(logs: seq<LogEntry>)
    ensures FilteredLogs(logs, "") == logs
  {
    if logs != [] {
      assert Lower("") == "";
      EmptyIsContained(Lower(logs[0].event));
      EmptyFilterKeepsAll(logs[1..]);
      assert [logs[0]] + logs[1..] == logs;
    }
  }

  /** The filter does not depend on the case of what is typed. */
  lemma {:induction false} FilterIgnoresCase(logs: seq<LogEntry>, filter: string)
    ensures FilteredLogs(logs, Lower(filter)) == FilteredLogs(logs, filter)
  {
    LowerIdempotent(filter);
    if logs != [] {
      FilterIgnoresCase(logs[1..], filter);
    }
  }

  /** The sources and levels a generated log draws from; Low is listed twice. */
  const FeedSources: seq<LogSource> := [System, Firewall, BotDetector, Auth]
  const FeedLevels: seq<RiskLevel> := [Low, Low, Medium, High]

  /** A draw of `Math.random()`. */
  predicate IsDraw(r: real)
  {
    0.0 <= r < 1.0
  }

  /** The log one firing builds from its three draws and the clock reading. */
  function GeneratedLog(sourceDraw: real, levelDraw: real, ipDraw: real, now: nat): (l: LogEntry)
    requires IsDraw(sourceDraw) && IsDraw(levelDraw) && IsDraw(ipDraw)
    ensures l.id == "LOG-" + Decimal(now) && l.timestamp == Instant(now)
    ensures l.event == "Automated System Check" && l.details == "Routine verification passed" && l.user == None
    ensures l.source in {System, Firewall, BotDetector, Auth}
    ensures l.riskLevel != Critical
    ensures exists n: nat :: n <= 254 && l.ip == Some("192.168.1." + Decimal(n))
  {
    var n := PickIndex(ipDraw, 255);
    LogEntry("LOG-" + Decimal(now), Instant(now), FeedSources[PickIndex(sourceDraw, |FeedSources|)],
             "Automated System Check", "Routine verification passed", None,
             Some("192.168.1." + Decimal(n)), FeedLevels[PickIndex(levelDraw, |FeedLevels|)])
  }

  class LiveLogsPage {
    var filter: string
    var isLive: bool

    constructor ()
      ensures filter == "" && isLive
    {
      filter := "";
      isLive := true;
    }

    /** The part of the store's logs the page lists. */
    function Visible(logs: seq<LogEntry>): (r: seq<LogEntry>)
      reads this
      ensures IsSubsequence(r, logs)
      ensures forall l :: l in r <==> l in logs && Keeps(l, filter)
      ensures forall l :: multiset(r)[l] == if Keeps(l, filter) then multiset(logs)[l] else 0
    {
      FilteredLogs(logs, filter)
    }

    method SetFilter(text: string)
      modifies this`filter
      ensures filter == text
    {
      filter := text;
    }

    /** The pause/resume button. */
    method ToggleLive()
      modifies this`isLive
      ensures isLive == !old(isLive)
    {
      isLive := !isLive;
    }

    /** One firing of the feed: nothing while paused; otherwise a log is generated and prepended
        exactly when the gate draw is above 0.7. */
    method Tick(store: Store.DataStore, gate: real, sourceDraw: real, levelDraw: real, ipDraw: real, now: nat)
      returns (added: bool)
      requires store.Valid() && IsDraw(gate) && IsDraw(sourceDraw) && IsDraw(levelDraw) && IsDraw(ipDraw)
      modifies store`logs
      ensures store.Valid()
      ensures added <==> isLive && gate > 0.7
      ensures store.logs == if added then [GeneratedLog(sourceDraw, levelDraw, ipDraw, now)] + old(store.logs)
                            else old(store.logs)
    {
      if !isLive {
        return false;
      }
      added := gate > 0.7;
      if added {
        store.AddLog(GeneratedLog(sourceDraw, levelDraw, ipDraw, now));
      }
    }
  }
}
