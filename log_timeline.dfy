/** The deployment log as the deploy page keeps it: entries re-sorted by
    timestamp after every arrival (frontend/app/deploy/page.tsx). */
module LogTimeline {

  /** A log line. The source carries an ISO-8601 string and compares its
      `getTime()`; here the timestamp is that number of milliseconds. */
  datatype LogEntry = LogEntry(timestamp: int, log: string, deploymentId: string)

  ghost predicate SortedByTime(s: seq<LogEntry>) {
    forall i, j :: 0 <= i < j < |s| ==> s[i].timestamp <= s[j].timestamp
  }

  /** Places `e` after every entry whose timestamp is not later than its own. */
  function Insert(s: seq<LogEntry>, e: LogEntry): seq<LogEntry>
    decreases |s|
  {
    if s == [] || s[|s| - 1].timestamp <= e.timestamp then s + [e]
    else Insert(s[..|s| - 1], e) + [s[|s| - 1]]
  }

  /** `Array.prototype.sort` with the timestamp comparator. That sort is
      stable, so it is modelled by a stable insertion sort. */
  function SortByTime(s: seq<LogEntry>): seq<LogEntry>
    decreases |s|
  {
    if s == [] then [] else Insert(SortByTime(s[..|s| - 1]), s[|s| - 1])
  }

  /** The entries stamped `t`, in their order in `s`. */
  function AtTime(s: seq<LogEntry>, t: int): seq<LogEntry>
    decreases |s|
  {
    if s == [] then []
    else AtTime(s[..|s| - 1], t) + (if s[|s| - 1].timestamp == t then [s[|s| - 1]] else [])
  }

  lemma AtTimeSnoc(s: seq<LogEntry>, e: LogEntry, t: int)
    ensures AtTime(s + [e], t) == AtTime(s, t) + (if e.timestamp == t then [e] else [])
  {
  }

  lemma {:induction false} InsertPermutes(s: seq<LogEntry>, e: LogEntry)
    ensures multiset(Insert(s, e)) == multiset(s) + multiset{e}
    ensures |Insert(s, e)| == |s| + 1
    decreases |s|
  {
    if s == [] || s[|s| - 1].timestamp <= e.timestamp {
    } else {
      var init, last := s[..|s| - 1], s[|s| - 1];
      InsertPermutes(init, e);
      assert s == init + [last];
    }
  }

  lemma {:induction false} InsertSorted(s: seq<LogEntry>, e: LogEntry)
    requires SortedByTime(s)
    ensures SortedByTime(Insert(s, e))
    decreases |s|
  {
    if s == [] || s[|s| - 1].timestamp <= e.timestamp {
    } else {
      var init, last := s[..|s| - 1], s[|s| - 1];
      var r := Insert(init, e);
      InsertSorted(init, e);
      InsertPermutes(init, e);
      forall i | 0 <= i < |r| ensures r[i].timestamp <= last.timestamp {
        assert r[i] in multiset(r);
        if r[i] != e {
          assert r[i] in multiset(init);
          var k :| 0 <= k < |init| && init[k] == r[i];
          assert init[k] == s[k];
        }
      }
    }
  }

  /** Inserting keeps the entries of every other timestamp in place and puts
      `e` after the entries that share its timestamp. */
  lemma {:induction false} InsertAtTime(s: seq<LogEntry>, e: LogEntry, t: int)
    ensures AtTime(Insert(s, e), t) == AtTime(s, t) + (if e.timestamp == t then [e] else [])
    decreases |s|
  {
    if s == [] || s[|s| - 1].timestamp <= e.timestamp {
      AtTimeSnoc(s, e, t);
    } else {
      var init, last := s[..|s| - 1], s[|s| - 1];
      var r := Insert(init, e);
      assert Insert(s, e) == r + [last];
      assert s == init + [last];
      InsertAtTime(init, e, t);
      AtTimeSnoc(r, last, t);
      AtTimeSnoc(init, last, t);
      // `last` is later than `e`, so at most one of them is stamped `t`.
      if e.timestamp == t {
        assert AtTime(s, t) == AtTime(init, t);
        assert AtTime(r + [last], t) == AtTime(r, t);
      } else {
        assert AtTime(r, t) == AtTime(init, t);
      }
    }
  }

  /** The sorted list holds the same entries. */
  lemma {:induction false} SortByTimePermutes(s: seq<LogEntry>)
    ensures multiset(SortByTime(s)) == multiset(s)
    ensures |SortByTime(s)| == |s|
    decreases |s|
  {
    if s != [] {
      var init, last := s[..|s| - 1], s[|s| - 1];
      assert SortByTime(s) == Insert(SortByTime(init), last);
      SortByTimePermutes(init);
      InsertPermutes(SortByTime(init), last);
      assert s == init + [last];
      assert multiset(s) == multiset(init) + multiset{last};
    }
  }

  lemma {:induction false} SortByTimeSorted(s: seq<LogEntry>)
    ensures SortedByTime(SortByTime(s))
    decreases |s|
  {
    if s != [] {
      SortByTimeSorted(s[..|s| - 1]);
      InsertSorted(SortByTime(s[..|s| - 1]), s[|s| - 1]);
    }
  }

  /** Stability: entries with equal timestamps keep their arrival order. */
  lemma {:induction false} SortByTimeStable(s: seq<LogEntry>, t: int)
    ensures AtTime(SortByTime(s), t) == AtTime(s, t)
    decreases |s|
  {
    if s != [] {
      var init, last := s[..|s| - 1], s[|s| - 1];
      SortByTimeStable(init, t);
      InsertAtTime(SortByTime(init), last, t);
    }
  }

  /** A list already in timestamp order is left as it is. */
  lemma {:induction false} SortByTimeOfSorted(s: seq<LogEntry>)
    requires SortedByTime(s)
    ensures SortByTime(s) == s
    decreases |s|
  {
    if s != [] {
      var init, last := s[..|s| - 1], s[|s| - 1];
      assert SortedByTime(init) by {
        forall i, j | 0 <= i < j < |init| ensures init[i].timestamp <= init[j].timestamp {
          assert init[i] == s[i] && init[j] == s[j];
        }
      }
      SortByTimeOfSorted(init);
      if init != [] {
        assert init[|init| - 1] == s[|s| - 2];
      }
      assert SortByTime(s) == Insert(init, last);
      assert s == init + [last];
    }
  }
}
