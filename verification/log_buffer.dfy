/** The tactical log shown in the HUD (App.tsx:48-56): newest entry first,
    at most fifteen entries. The random id and the wall-clock time string
    of an entry are inputs. */
module LogBuffer {
  import opened JsValues

  datatype Level = Info | Warn | Alert

  datatype LogEntry = LogEntry(id: string, time: string, message: string, level: Level)

  const MAX_LOGS: nat := 15

  /** Push `e` on the front and keep the first fifteen. */
  function AddLog(prev: seq<LogEntry>, e: LogEntry): (r: seq<LogEntry>)
    ensures |r| == MinInt(MAX_LOGS, |prev| + 1)
    ensures r[0] == e
    ensures r[1..] == prev[..|r| - 1]
  {
    var all := [e] + prev;
    var r := all[..MinInt(MAX_LOGS, |prev| + 1)];
    assert r[1..] == all[1..|r|];
    r
  }

  function Reverse<T>(s: seq<T>): (r: seq<T>)
    ensures |r| == |s|
    ensures forall i :: 0 <= i < |s| ==> r[i] == s[|s| - 1 - i]
  {
    if s == [] then [] else [s[|s| - 1]] + Reverse(s[..|s| - 1])
  }

  /** Logging `es` in order, one call at a time. */
  function AddLogs(prev: seq<LogEntry>, es: seq<LogEntry>): seq<LogEntry>
    decreases |es|
  {
    if es == [] then prev else AddLog(AddLogs(prev, es[..|es| - 1]), es[|es| - 1])
  }

  /** Starting from a buffer within the bound, the buffer always holds the
      most recent messages, newest first, followed by the oldest ones that
      still fit. */
  lemma {:induction false} AddLogsNewestFirst(prev: seq<LogEntry>, es: seq<LogEntry>)
    requires |prev| <= MAX_LOGS
    ensures AddLogs(prev, es) == (Reverse(es) + prev)[..MinInt(MAX_LOGS, |es| + |prev|)]
    decreases |es|
  {
    if es == [] {
      assert Reverse(es) + prev == prev;
    } else {
      var init := es[..|es| - 1];
      var e := es[|es| - 1];
      AddLogsNewestFirst(prev, init);
      var before := AddLogs(prev, init);
      var all := Reverse(init) + prev;
      assert before == all[..MinInt(MAX_LOGS, |init| + |prev|)];
      assert Reverse(es) + prev == [e] + all;
      var r := AddLogs(prev, es);
      assert r == AddLog(before, e);
      var k := MinInt(MAX_LOGS, |es| + |prev|);
      assert |r| == k;
      forall i | 0 <= i < k
        ensures r[i] == ([e] + all)[i]
      {
        if i > 0 {
          assert r[i] == r[1..][i - 1];
        }
      }
    }
  }
}
