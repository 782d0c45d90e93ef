// The logger: a level gate, and the bounded in-memory buffer of recent
// entries (most recent first) that the admin dashboard queries. The console
// line, the copy written to the settings database and the clock are not
// part of the model; the timestamp is an input.
module Logging {
  import opened Wrappers
  import opened Text
  import opened Seqs

  datatype Level = Debug | Info | Warn | Error

  /** `LEVELS`. */
  function Rank(l: Level): (n: nat)
    ensures n <= 3
    ensures l == Debug <==> n == 0
    ensures l == Info <==> n == 1
    ensures l == Warn <==> n == 2
    ensures l == Error <==> n == 3
  {
    match l
    case Debug => 0
    case Info => 1
    case Warn => 2
    case Error => 3
  }

  /** The constructor's level: an absent or unknown name falls back to info. */
  function ParseLevel(name: Option<string>): (l: Level)
    ensures name == Some("debug") <==> l == Debug
    ensures name == Some("warn") <==> l == Warn
    ensures name == Some("error") <==> l == Error
    ensures l == Info <==> !(name in {Some("debug"), Some("warn"), Some("error")})
  {
    if name == Some("debug") then Debug
    else if name == Some("warn") then Warn
    else if name == Some("error") then Error
    else Info
  }

  const MaxLogBuffer := 2000
  const DefaultLimit := 200

  /** One buffered entry; `data` is its JSON text when present. */
  datatype LogEntry = LogEntry(timestamp: string, level: Level, context: string, message: string, data: Option<string>)

  /** The options of `getLogBuffer`. */
  datatype Query = Query(level: Option<Level>, context: Option<string>, limit: Option<int>)

  function AtLeast(min: Level): LogEntry -> bool
  {
    (e: LogEntry) => Rank(e.level) >= Rank(min)
  }

  /** Case-insensitive substring test on the context. */
  function InContext(ctx: string): LogEntry -> bool
  {
    (e: LogEntry) => Contains(ToLower(e.context), ToLower(ctx))
  }

  /** Whether an entry passes the query's filters; an empty context filters
   *  nothing. */
  predicate Matches(q: Query, e: LogEntry)
  {
    (q.level.Some? ==> Rank(e.level) >= Rank(q.level.value))
    && (q.context.Some? && q.context.value != "" ==> Contains(ToLower(e.context), ToLower(q.context.value)))
  }

  function ByLevel(entries: seq<LogEntry>, q: Query): seq<LogEntry>
  {
    if q.level.Some? then Filter(entries, AtLeast(q.level.value)) else entries
  }

  /** The entries that pass both filters, in buffer order. */
  function Filtered(entries: seq<LogEntry>, q: Query): (r: seq<LogEntry>)
    ensures |r| <= |entries|
    ensures forall e :: e in r ==> e in entries && Matches(q, e)
  {
    var a := ByLevel(entries, q);
    if q.context.Some? && q.context.value != "" then Filter(a, InContext(q.context.value)) else a
  }

  /** Every entry of the buffer that passes the filters is among them. */
  lemma FilteredComplete(entries: seq<LogEntry>, q: Query, e: LogEntry)
    requires e in entries && Matches(q, e)
    ensures e in Filtered(entries, q)
  {
    if q.level.Some? {
      FilterComplete(entries, AtLeast(q.level.value), e);
    }
    if q.context.Some? && q.context.value != "" {
      FilterComplete(ByLevel(entries, q), InContext(q.context.value), e);
    }
  }

  /** A matching entry in front of the buffer stays in front of the matches. */
  lemma FilteredCons(e: LogEntry, rest: seq<LogEntry>, q: Query)
    requires Matches(q, e)
    ensures Filtered([e] + rest, q) == [e] + Filtered(rest, q)
  {
    if q.level.Some? {
      FilterConcat([e], rest, AtLeast(q.level.value));
      assert Filter([e], AtLeast(q.level.value)) == [e] by {
        assert [e][..0] == [];
      }
    }
    assert ByLevel([e] + rest, q) == [e] + ByLevel(rest, q);
    if q.context.Some? && q.context.value != "" {
      var p := InContext(q.context.value);
      FilterConcat([e], ByLevel(rest, q), p);
      assert Filter([e], p) == [e] by {
        assert [e][..0] == [];
      }
    }
  }

  /** `s.slice(0, end)`: a negative end counts back from the end. */
  function Slice(s: seq<LogEntry>, end: int): (r: seq<LogEntry>)
    ensures |r| <= |s| && r == s[..|r|]
    ensures end >= 0 ==> |r| == if end < |s| then end else |s|
    ensures end < 0 ==> |r| == if |s| + end > 0 then |s| + end else 0
  {
    if end >= 0 then (if end < |s| then s[..end] else s)
    else if |s| + end > 0 then s[..|s| + end] else []
  }

  /** `getLogBuffer`: a prefix of the matching entries, of at most `limit`
   *  (by default 200) entries. */
  function Recent(entries: seq<LogEntry>, q: Query): (r: seq<LogEntry>)
    ensures |r| <= |Filtered(entries, q)| && r == Filtered(entries, q)[..|r|]
    ensures forall e :: e in r ==> e in entries && Matches(q, e)
    ensures q.limit.None? ==> |r| <= DefaultLimit
    ensures q.limit.Some? && q.limit.value >= 0 ==> |r| <= q.limit.value
    ensures q.limit.None? && |Filtered(entries, q)| <= DefaultLimit ==> r == Filtered(entries, q)
    ensures q.limit.Some? && |Filtered(entries, q)| <= q.limit.value ==> r == Filtered(entries, q)
  {
    var f := Filtered(entries, q);
    var r := Slice(f, q.limit.GetOr(DefaultLimit));
    assert forall e :: e in r ==> e in f;
    r
  }

  /** Without a limit every matching entry of a buffer of at most 200 is
   *  returned. */
  lemma RecentComplete(entries: seq<LogEntry>, q: Query, e: LogEntry)
    requires q.limit.None? && |entries| <= DefaultLimit
    requires e in entries && Matches(q, e)
    ensures e in Recent(entries, q)
  {
    FilteredComplete(entries, q, e);
  }

  /** The buffer after a push: the new entry first, capped at 2000. */
  function Pushed(entries: seq<LogEntry>, e: LogEntry): (r: seq<LogEntry>)
    ensures 0 < |r| <= MaxLogBuffer && r[0] == e
    ensures |entries| < MaxLogBuffer ==> r == [e] + entries
    ensures |entries| >= MaxLogBuffer ==> r == [e] + entries[..MaxLogBuffer - 1]
  {
    var s := [e] + entries;
    if |s| > MaxLogBuffer then s[..MaxLogBuffer] else s
  }

  /** The most recent entry that matches a query is the first it returns. */
  lemma LatestFirst(entries: seq<LogEntry>, e: LogEntry, q: Query)
    requires Matches(q, e)
    requires q.limit.None? || q.limit.value >= 1
    ensures Recent(Pushed(entries, e), q) != [] && Recent(Pushed(entries, e), q)[0] == e
  {
    var rest := Pushed(entries, e)[1..];
    assert Pushed(entries, e) == [e] + rest;
    FilteredCons(e, rest, q);
  }

  /** The shared buffer of recent entries. */
  class LogBuffer {
    var entries: seq<LogEntry>

    predicate Valid()
      reads this
    {
      |entries| <= MaxLogBuffer
    }

    constructor ()
      ensures entries == [] && Valid()
    {
      entries := [];
    }

    /** `logBuffer.unshift(entry)` followed by the truncation. */
    method Unshift(e: LogEntry)
      requires Valid()
      modifies this
      ensures entries == Pushed(old(entries), e)
      ensures Valid()
    {
      entries := [e] + entries;
      if |entries| > MaxLogBuffer {
        entries := entries[..MaxLogBuffer];
      }
    }
  }

  class Logger {
    const threshold: nat
    const buffer: LogBuffer

    /** `new Logger(level)`. */
    constructor (level: Option<string>, buffer: LogBuffer)
      ensures threshold == Rank(ParseLevel(level)) && this.buffer == buffer
    {
      threshold := Rank(ParseLevel(level));
      this.buffer := buffer;
    }

    /** `log`: an entry below the threshold leaves the buffer alone; any
     *  other is pushed in front. */
    method Write(level: Level, context: string, message: string, data: Option<string>, timestamp: string)
      requires buffer.Valid()
      modifies buffer
      ensures Rank(level) < threshold ==> buffer.entries == old(buffer.entries)
      ensures Rank(level) >= threshold ==>
        buffer.entries == Pushed(old(buffer.entries), LogEntry(timestamp, level, context, message, data))
      ensures buffer.Valid()
    {
      if Rank(level) < threshold {
        return;
      }
      buffer.Unshift(LogEntry(timestamp, level, context, message, data));
    }
  }
}
