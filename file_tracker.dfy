/**
 * The per-file tracker of devtrackr-plugin/src/tracker.ts: `activeStart` holds the time each
 * open file was opened, `timers` the milliseconds accumulated per file over closed sessions.
 * Both are keyed by the file's full path. The clock and the tracked-extension list are parameters.
 */
module FileTracker {
  import opened Paths
  import opened TimeLog

  datatype FileTimes = FileTimes(timers: map<string, int>, activeStart: map<string, int>)

  /** `"." + fileName.split('.').pop()` is a tracked extension. */
  predicate IsTracked(fileName: string, allowed: seq<string>)
  {
    "." + LastDotSegment(fileName) in allowed
  }

  /** `const start = activeStart[filePath]; if (!start) return;`: absent and 0 both count as no start. */
  predicate HasStart(s: FileTimes, path: string)
  {
    path in s.activeStart && s.activeStart[path] != 0
  }

  /** `onFileOpen`: a tracked file's start time becomes `now`, overwriting any earlier one. */
  function Open(s: FileTimes, fileName: string, path: string, allowed: seq<string>, now: int): (r: FileTimes)
    ensures r.timers == s.timers
    ensures !IsTracked(fileName, allowed) ==> r == s
    ensures IsTracked(fileName, allowed) ==> path in r.activeStart && r.activeStart[path] == now
    ensures forall p :: p != path ==> (p in r.activeStart <==> p in s.activeStart)
    ensures forall p :: p != path && p in s.activeStart ==> r.activeStart[p] == s.activeStart[p]
  {
    if !IsTracked(fileName, allowed) then s
    else s.(activeStart := s.activeStart[path := now])
  }

  /**
   * `onFileClose`: the session's length `now - start` is added to the file's timer (absent = 0)
   * and the file's start is deleted; without a start nothing changes.
   */
  function Close(s: FileTimes, path: string, now: int): (r: FileTimes)
    ensures !HasStart(s, path) ==> r == s
    ensures HasStart(s, path) ==>
      path !in r.activeStart && Get(r.timers, path) == Get(s.timers, path) + (now - s.activeStart[path])
    ensures HasStart(s, path) ==> r.timers.Keys == s.timers.Keys + {path}
    ensures forall p :: p != path ==> (p in r.timers <==> p in s.timers) && (p in r.activeStart <==> p in s.activeStart)
    ensures forall p :: p != path && p in s.timers ==> r.timers[p] == s.timers[p]
    ensures forall p :: p != path && p in s.activeStart ==> r.activeStart[p] == s.activeStart[p]
  {
    if !HasStart(s, path) then s
    else
      var start := s.activeStart[path];
      FileTimes(s.timers[path := Get(s.timers, path) + (now - start)], s.activeStart - {path})
  }

  /** Closing a file twice: the second close is a no-op. */
  lemma CloseTwiceIsCloseOnce(s: FileTimes, path: string, t1: int, t2: int)
    ensures Close(Close(s, path, t1), path, t2) == Close(s, path, t1)
  {
  }

  /** Re-opening an open file only moves its start time. */
  lemma ReopenOverwrites(s: FileTimes, fileName: string, path: string, allowed: seq<string>, t1: int, t2: int)
    ensures Open(Open(s, fileName, path, allowed, t1), fileName, path, allowed, t2) == Open(s, fileName, path, allowed, t2)
  {
  }

  /** An open at `t0 != 0` followed by a close at `t1` adds exactly `t1 - t0` to the file's timer. */
  lemma OpenThenCloseAddsSession(s: FileTimes, fileName: string, path: string, allowed: seq<string>, t0: int, t1: int)
    requires IsTracked(fileName, allowed) && t0 != 0
    ensures var r := Close(Open(s, fileName, path, allowed, t0), path, t1);
      && path !in r.activeStart
      && Get(r.timers, path) == Get(s.timers, path) + (t1 - t0)
  {
  }

  /** An open at time 0 is lost: the start reads as falsy and the close records nothing. */
  lemma OpenAtZeroIsNeverTimed(s: FileTimes, fileName: string, path: string, allowed: seq<string>, t1: int)
    requires IsTracked(fileName, allowed)
    ensures Close(Open(s, fileName, path, allowed, 0), path, t1).timers == s.timers
  {
  }

  /** With the clock not running backwards, no timer ever decreases. */
  lemma TimersNeverDecrease(s: FileTimes, path: string, now: int)
    requires HasStart(s, path) ==> s.activeStart[path] <= now
    ensures MapGrows(s.timers, Close(s, path, now).timers)
  {
  }

  /** The module-level dictionaries of tracker.ts as one object. */
  class Tracker {
    var timers: map<string, int>
    var activeStart: map<string, int>

    function State(): FileTimes
      reads this
    {
      FileTimes(timers, activeStart)
    }

    constructor ()
      ensures State() == FileTimes(map[], map[])
    {
      timers, activeStart := map[], map[];
    }

    /** `onFileOpen(doc)`, with `fileName` the document's file name and `path` its `uri.fsPath`. */
    method OnFileOpen(fileName: string, path: string, allowed: seq<string>, now: int)
      modifies this
      ensures State() == Open(old(State()), fileName, path, allowed, now)
    {
      var ext := LastDotSegment(fileName);
      if "." + ext !in allowed {
        return;
      }
      activeStart := activeStart[path := now];
    }

    /** `onFileClose(doc)`. */
    method OnFileClose(path: string, now: int)
      modifies this
      ensures State() == Close(old(State()), path, now)
    {
      if path !in activeStart || activeStart[path] == 0 {
        return;
      }
      var start := activeStart[path];
      var timeSpent := now - start;
      timers := timers[path := Get(timers, path) + timeSpent];
      activeStart := activeStart - {path};
    }

    /** `getStats`: the accumulated milliseconds per file, exactly as stored. */
    method GetStats() returns (stats: map<string, int>)
      ensures stats == timers
    {
      stats := timers;
    }
  }
}
