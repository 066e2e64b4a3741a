/**
 * The in-memory log buffer: a bounded list of entries that drops its oldest
 * tenth when full, hands every new entry to an optional broadcast sink, and
 * answers "the last N entries" queries.
 */
module Logging {

  datatype Level = Info | Warn | Error | Debug

  function LevelName(l: Level): string {
    match l
    case Info => "info"
    case Warn => "warn"
    case Error => "error"
    case Debug => "debug"
  }

  /** The level names are pairwise distinct, so an entry's JSON level identifies its level. */
  lemma LevelNameInjective(a: Level, b: Level)
    ensures LevelName(a) == LevelName(b) <==> a == b
  {
  }

  /** Timestamp is milliseconds since the epoch, supplied by the caller. */
  datatype Entry = Entry(level: Level, message: string, source: string, timestamp: int)

  /** How many of the oldest entries Add discards before appending. */
  function DropCount(count: nat, maxSize: nat): (d: nat)
    ensures d <= count
    ensures count < maxSize ==> d == 0
    ensures count >= maxSize ==> d == maxSize / 10
  {
    if count >= maxSize then maxSize / 10 else 0
  }

  /** The buffer after Add(e). */
  function AfterAdd(entries: seq<Entry>, maxSize: nat, e: Entry): seq<Entry> {
    entries[DropCount(|entries|, maxSize)..] + [e]
  }

  /**
   * The new entry is last, and what precedes it is the old buffer with
   * exactly DropCount of its oldest entries removed, in the old order.
   */
  lemma AddAppendsAndKeepsOrder(entries: seq<Entry>, maxSize: nat, e: Entry)
    ensures var r := AfterAdd(entries, maxSize, e);
      && |r| == |entries| - DropCount(|entries|, maxSize) + 1
      && r[|r| - 1] == e
      && r[..|r| - 1] == entries[|entries| - (|r| - 1)..]
  {
    var r := AfterAdd(entries, maxSize, e);
    assert r[..|r| - 1] == entries[DropCount(|entries|, maxSize)..];
  }

  /** With maxSize >= 10 a buffer within its bound stays within it. */
  lemma AddKeepsBound(entries: seq<Entry>, maxSize: nat, e: Entry)
    requires maxSize >= 10 && |entries| <= maxSize
    ensures |AfterAdd(entries, maxSize, e)| <= maxSize
  {
    AddAppendsAndKeepsOrder(entries, maxSize, e);
  }

  /** With maxSize < 10 nothing is ever dropped and the buffer grows by one. */
  lemma SmallBufferGrows(entries: seq<Entry>, maxSize: nat, e: Entry)
    requires maxSize < 10
    ensures AfterAdd(entries, maxSize, e) == entries + [e]
  {
    assert DropCount(|entries|, maxSize) == 0;
    assert entries[0..] == entries;
  }

  /** A full buffer of the configured 500 entries keeps 451 after an Add. */
  lemma FullDefaultBufferDropsFifty(entries: seq<Entry>, e: Entry)
    requires |entries| == 500
    ensures |AfterAdd(entries, 500, e)| == 451
    ensures AfterAdd(entries, 500, e)[0] == entries[50]
  {
  }

  /** GetEntries: the last limit entries; a limit <= 0 or past the end means all of them. */
  function LastEntries(entries: seq<Entry>, limit: int): (r: seq<Entry>)
    ensures limit <= 0 || limit > |entries| ==> r == entries
    ensures 0 < limit <= |entries| ==> |r| == limit
    ensures r == entries[|entries| - |r|..]
  {
    var n := if limit <= 0 || limit > |entries| then |entries| else limit;
    entries[|entries| - n..]
  }

  class Logger {
    var entries: seq<Entry>
    var maxSize: nat
    /** Whether a broadcast function has been installed. */
    var hasSink: bool
    /** Every entry the broadcast function has been called with, in order. */
    ghost var sinkReceived: seq<Entry>

    /** With the sizes the booth uses, the buffer never exceeds its bound. */
    ghost predicate Valid()
      reads this
    {
      maxSize >= 10 ==> |entries| <= maxSize
    }

    /** Init's allocation: an empty buffer without a sink. */
    constructor (maxSize: nat)
      ensures Valid()
      ensures this.maxSize == maxSize && entries == [] && !hasSink && sinkReceived == []
    {
      this.maxSize := maxSize;
      entries := [];
      hasSink := false;
      sinkReceived := [];
    }

    method SetBroadcast(installed: bool)
      modifies this`hasSink
      ensures hasSink == installed
    {
      hasSink := installed;
    }

    /** Logger.Add; now is the clock reading time.Now().UnixMilli() would give. */
    method Add(level: Level, source: string, message: string, now: int)
      requires Valid()
      modifies this`entries, this`sinkReceived
      ensures Valid()
      ensures entries == AfterAdd(old(entries), maxSize, Entry(level, message, source, now))
      ensures sinkReceived == old(sinkReceived) + (if hasSink then [Entry(level, message, source, now)] else [])
    {
      var entry := Entry(level, message, source, now);
      if |entries| >= maxSize {
        var drop := maxSize / 10;
        entries := entries[drop..];
        assert entries == old(entries)[DropCount(|old(entries)|, maxSize)..];
      }
      entries := entries + [entry];
      if maxSize >= 10 {
        AddKeepsBound(old(entries), maxSize, entry);
      }
      if hasSink {
        sinkReceived := sinkReceived + [entry];
      }
    }

    /** Logger.GetEntries: a copy of the last limit entries. */
    method GetEntries(limit: int) returns (r: seq<Entry>)
      ensures r == LastEntries(entries, limit)
    {
      var n := limit;
      if n <= 0 || n > |entries| {
        n := |entries|;
      }
      var start := |entries| - n;
      r := entries[start..];
    }
  }

  /** The package-level default logger. */
  class Registry {
    var defaultLogger: Logger?

    constructor ()
      ensures defaultLogger == null
    {
      defaultLogger := null;
    }

    method Init(maxSize: nat) returns (l: Logger)
      modifies this
      ensures fresh(l) && defaultLogger == l
      ensures l.Valid() && l.maxSize == maxSize && l.entries == [] && !l.hasSink
    {
      l := new Logger(maxSize);
      defaultLogger := l;
    }

    /** Get: the existing logger, or a fresh one of 500 entries when there is none. */
    method Get() returns (l: Logger)
      modifies this
      ensures defaultLogger == l
      ensures old(defaultLogger) != null ==> l == old(defaultLogger)
      ensures old(defaultLogger) == null ==> fresh(l) && l.maxSize == 500 && l.entries == [] && !l.hasSink
    {
      if defaultLogger == null {
        var created := Init(500);
      }
      l := defaultLogger;
    }
  }
}
