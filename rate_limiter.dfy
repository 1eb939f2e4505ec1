/**
 * The in-memory usage-governance layer of src/lib/rateLimiter.ts: an admission
 * counter (`rateLimiter`), a token meter (`tokenUsageStore`) and the free-tier
 * PDF download quota (`pdfLimiter`). Each of the three module-level maps of the
 * source becomes a class with one map field, keyed by user id. The per-user
 * rules are pure functions on the stored record; the methods are proved to
 * update their map exactly as those functions say, and the lemmas at the end
 * of each part are about the functions.
 */
module RateLimiter {
  import opened Wrappers
  import opened Clock

  /** `RATE_LIMIT`: 50 admissions per window of 3600 seconds. */
  const Points: int := 50
  const DurationSeconds: int := 3600
  const WindowMs: int := DurationSeconds * 1000

  /** Downloads a free user may make per local day. */
  const DailyDownloads: int := 3

  /** A thrown `Error`: its message and its HTTP `status`, when it has one. */
  datatype Error = Error(message: string, status: Option<int>)

  /** The error `consume` throws; it carries no `status`. */
  const RateLimitExceeded: Error := Error("rate_limit_exceeded", None)

  /** A `Promise<void>` that resolves (`Pass`) or rejects (`Fail`). */
  datatype Outcome = Pass | Fail(error: Error)

  // ---------------------------------------------------------------------------
  // Admission counter: rateLimiter.consume
  // ---------------------------------------------------------------------------

  /** The record stored in `rateLimits`. */
  datatype Window = Window(count: int, resetTime: int)

  /** A stored window has admitted between 1 and `Points` calls. */
  predicate ValidWindow(w: Window) {
    1 <= w.count <= Points
  }

  /** What one `consume` call decides, given the user's stored window. */
  datatype Admission = Admitted(window: Window) | Rejected

  /**
   * One `consume` at time `now`. With no window, or an expired one, a new
   * window holding one admission starts now; inside a live window the call is
   * admitted while fewer than `Points` calls were, and the window's end does
   * not move; otherwise it is rejected.
   */
  function ConsumeWindow(prev: Option<Window>, now: int): (a: Admission)
    ensures (prev.None? || now >= prev.value.resetTime) ==> a == Admitted(Window(1, now + WindowMs))
    ensures a.Rejected? <==> prev.Some? && now < prev.value.resetTime && prev.value.count >= Points
    ensures a.Admitted? && prev.Some? && now < prev.value.resetTime ==>
              a.window.count == prev.value.count + 1 && a.window.resetTime == prev.value.resetTime
    ensures a.Admitted? && (prev.None? || ValidWindow(prev.value)) ==>
              ValidWindow(a.window) && now < a.window.resetTime
  {
    if prev.None? || now >= prev.value.resetTime then
      Admitted(Window(1, now + WindowMs))
    else if prev.value.count >= Points then
      Rejected
    else
      Admitted(prev.value.(count := prev.value.count + 1))
  }

  /**
   * The `rateLimits` map after one `consume` by `userId`: only that user's
   * entry can change, and a rejection changes nothing.
   */
  function AfterConsume(windows: map<string, Window>, userId: string, now: int): (r: map<string, Window>)
    ensures ConsumeWindow(Get(windows, userId), now).Rejected? ==> r == windows
    ensures ConsumeWindow(Get(windows, userId), now).Admitted? ==>
              r == windows[userId := ConsumeWindow(Get(windows, userId), now).window]
    ensures forall u :: u != userId ==> Get(r, u) == Get(windows, u)
    ensures userId in r
  {
    match ConsumeWindow(Get(windows, userId), now)
    case Admitted(w) => windows[userId := w]
    case Rejected => windows
  }

  /**
   * Calls at the instant a window was opened: the `c`-th call so far (none
   * stored for `c == 0`) is admitted and raises the count to `c + 1`.
   */
  lemma SameInstantConsume(windows: map<string, Window>, userId: string, now: int, c: nat)
    requires c < Points
    requires Get(windows, userId) == if c == 0 then None else Some(Window(c, now + WindowMs))
    ensures ConsumeWindow(Get(windows, userId), now) == Admitted(Window(c + 1, now + WindowMs))
    ensures Get(AfterConsume(windows, userId, now), userId) == Some(Window(c + 1, now + WindowMs))
  {
  }

  /** The verdicts of successive `consume` calls by one user at the given times. */
  function Admissions(prev: Option<Window>, times: seq<int>): (r: seq<bool>)
    ensures |r| == |times|
    decreases |times|
  {
    if times == [] then []
    else
      var a := ConsumeWindow(prev, times[0]);
      [a.Admitted?] + Admissions(if a.Admitted? then Some(a.window) else prev, times[1..])
  }

  /**
   * Inside a live window that has admitted `c` calls, the `i`-th further call
   * is admitted exactly when `c + i < Points`.
   */
  lemma {:induction false} AdmissionsInsideWindow(c: int, resetTime: int, times: seq<int>)
    requires 1 <= c <= Points
    requires forall i :: 0 <= i < |times| ==> times[i] < resetTime
    ensures forall i :: 0 <= i < |times| ==> Admissions(Some(Window(c, resetTime)), times)[i] == (c + i < Points)
    decreases |times|
  {
    if times != [] {
      var r := Admissions(Some(Window(c, resetTime)), times);
      if c < Points {
        AdmissionsInsideWindow(c + 1, resetTime, times[1..]);
        assert r == [true] + Admissions(Some(Window(c + 1, resetTime)), times[1..]);
      } else {
        AdmissionsInsideWindow(c, resetTime, times[1..]);
        assert r == [false] + Admissions(Some(Window(c, resetTime)), times[1..]);
      }
    }
  }

  /**
   * For a user with no live window, of calls made before the window the first
   * of them opens closes again, exactly the first 50 are admitted: the 51st
   * and every later one is rejected.
   */
  lemma ExactlyPointsPerWindow(prev: Option<Window>, times: seq<int>)
    requires times != []
    requires prev.None? || times[0] >= prev.value.resetTime
    requires forall i :: 0 <= i < |times| ==> times[i] < times[0] + WindowMs
    ensures forall i :: 0 <= i < |times| ==> Admissions(prev, times)[i] == (i < Points)
  {
    var r := Admissions(prev, times);
    AdmissionsInsideWindow(1, times[0] + WindowMs, times[1..]);
    assert r == [true] + Admissions(Some(Window(1, times[0] + WindowMs)), times[1..]);
  }

  /**
   * The known limit of a fixed window: a full window that is about to close
   * followed by a fresh one lets through twice `Points` calls within two
   * milliseconds.
   */
  lemma BurstAcrossWindowBoundary(resetTime: int)
    ensures var times := seq(Points - 1, _ => resetTime - 1) + seq(Points, _ => resetTime);
            forall i :: 0 <= i < |times| ==> Admissions(Some(Window(1, resetTime)), times)[i]
  {
    var first := seq(Points - 1, _ => resetTime - 1);
    var second := seq(Points, _ => resetTime);
    AdmissionsConcat(Some(Window(1, resetTime)), first, second);
    AdmissionsInsideWindow(1, resetTime, first);
    var full := AfterAdmissions(Some(Window(1, resetTime)), first);
    AfterAdmissionsInsideWindow(1, resetTime, first);
    ExactlyPointsPerWindow(full, second);
  }

  /** The stored window after successive `consume` calls. */
  function AfterAdmissions(prev: Option<Window>, times: seq<int>): Option<Window>
    decreases |times|
  {
    if times == [] then prev
    else
      var a := ConsumeWindow(prev, times[0]);
      AfterAdmissions(if a.Admitted? then Some(a.window) else prev, times[1..])
  }

  /** Inside a live window, `k` calls raise the count to at most `Points`. */
  lemma {:induction false} AfterAdmissionsInsideWindow(c: int, resetTime: int, times: seq<int>)
    requires 1 <= c <= Points
    requires forall i :: 0 <= i < |times| ==> times[i] < resetTime
    ensures AfterAdmissions(Some(Window(c, resetTime)), times)
            == Some(Window(if c + |times| <= Points then c + |times| else Points, resetTime))
    decreases |times|
  {
    if times != [] {
      if c < Points {
        AfterAdmissionsInsideWindow(c + 1, resetTime, times[1..]);
      } else {
        AfterAdmissionsInsideWindow(c, resetTime, times[1..]);
      }
    }
  }

  /** Verdicts of two runs of calls, one after the other. */
  lemma {:induction false} AdmissionsConcat(prev: Option<Window>, xs: seq<int>, ys: seq<int>)
    ensures Admissions(prev, xs + ys) == Admissions(prev, xs) + Admissions(AfterAdmissions(prev, xs), ys)
    decreases |xs|
  {
    if xs != [] {
      var a := ConsumeWindow(prev, xs[0]);
      var next := if a.Admitted? then Some(a.window) else prev;
      assert (xs + ys)[0] == xs[0];
      assert (xs + ys)[1..] == xs[1..] + ys;
      AdmissionsConcat(next, xs[1..], ys);
      calc {
        Admissions(prev, xs + ys);
        [a.Admitted?] + Admissions(next, xs[1..] + ys);
        [a.Admitted?] + (Admissions(next, xs[1..]) + Admissions(AfterAdmissions(next, xs[1..]), ys));
        ([a.Admitted?] + Admissions(next, xs[1..])) + Admissions(AfterAdmissions(next, xs[1..]), ys);
      }
    } else {
      assert xs + ys == ys;
    }
  }

  class AdmissionCounter {
    /** `rateLimits`, keyed by user id. */
    var windows: map<string, Window>

    ghost predicate Valid()
      reads this
    {
      forall u :: u in windows ==> ValidWindow(windows[u])
    }

    constructor ()
      ensures Valid() && windows == map[]
    {
      windows := map[];
    }

    /** `rateLimiter.consume(userId)` at time `now`. */
    method Consume(userId: string, now: int) returns (outcome: Outcome)
      requires Valid()
      modifies this
      ensures Valid()
      ensures windows == AfterConsume(old(windows), userId, now)
      ensures outcome == if ConsumeWindow(Get(old(windows), userId), now).Admitted? then Pass
                         else Fail(RateLimitExceeded)
    {
      if userId !in windows || now >= windows[userId].resetTime {
        windows := windows[userId := Window(1, now + WindowMs)];
        return Pass;
      }
      var userLimit := windows[userId];
      if userLimit.count >= Points {
        return Fail(RateLimitExceeded);
      }
      windows := windows[userId := userLimit.(count := userLimit.count + 1)];
      outcome := Pass;
    }
  }

  // ---------------------------------------------------------------------------
  // Token meter: tokenUsageStore
  // ---------------------------------------------------------------------------

  /** The record stored in `tokenUsage`. */
  datatype Usage = Usage(total: int, daily: int, resetTime: int)

  /** What `getTokenUsage` returns. */
  datatype TokenTotals = TokenTotals(total: int, daily: int)

  /** Today's tokens are part of the lifetime total. */
  predicate ValidUsage(u: Usage) {
    0 <= u.daily <= u.total
  }

  /** The lifetime total stored for a user, 0 for a user with no record. */
  function StoredTotal(prev: Option<Usage>): int {
    if prev.Some? then prev.value.total else 0
  }

  /**
   * One `incrementTokens(userId, tokens)` at time `now`: the lifetime total
   * always grows by `tokens`; the daily figure grows by `tokens` before the
   * stored midnight and is replaced by `tokens` from then on, when the stored
   * midnight moves to the next one.
   */
  function RecordTokens(prev: Option<Usage>, tokens: nat, now: int): (u: Usage)
    ensures u.total == StoredTotal(prev) + tokens
    ensures (prev.None? || now >= prev.value.resetTime) ==>
              u.daily == tokens && u.resetTime == NextMidnight(now)
    ensures prev.Some? && now < prev.value.resetTime ==>
              u.daily == prev.value.daily + tokens && u.resetTime == prev.value.resetTime
    ensures now < u.resetTime
    ensures (prev.None? || ValidUsage(prev.value)) ==> ValidUsage(u)
  {
    var midnight := NextMidnight(now);
    var usage := if prev.Some? then prev.value else Usage(0, 0, midnight);
    var rolled := if now >= usage.resetTime then usage.(daily := tokens, resetTime := midnight)
                  else usage.(daily := usage.daily + tokens);
    rolled.(total := rolled.total + tokens)
  }

  /** Whether `getTokenUsage` at `now` takes its rollover branch (and writes). */
  predicate ReadRollsOver(prev: Option<Usage>, now: int) {
    prev.None? || now >= prev.value.resetTime
  }

  /**
   * The record as `getTokenUsage` at time `now` leaves it: past the stored
   * midnight (or for an unknown user) the daily figure is 0 and the next
   * midnight is stored; otherwise the record is untouched. The lifetime total
   * is never reset.
   */
  function ReadTokens(prev: Option<Usage>, now: int): (u: Usage)
    ensures u.total == StoredTotal(prev)
    ensures ReadRollsOver(prev, now) ==> u.daily == 0 && u.resetTime == NextMidnight(now)
    ensures !ReadRollsOver(prev, now) ==> u == prev.value
    ensures (prev.None? || ValidUsage(prev.value)) ==> ValidUsage(u)
  {
    var usage := if prev.Some? then prev.value else Usage(0, 0, now);
    if now >= usage.resetTime then usage.(daily := 0, resetTime := NextMidnight(now))
    else usage
  }

  function Totals(u: Usage): TokenTotals {
    TokenTotals(u.total, u.daily)
  }

  /** Recorded tokens are visible to a read before the next midnight. */
  lemma ReadSeesRecordedTokens(prev: Option<Usage>, tokens: nat, now: int, later: int)
    requires prev.None? || ValidUsage(prev.value)
    requires later < RecordTokens(prev, tokens, now).resetTime
    ensures var u := RecordTokens(prev, tokens, now);
            ReadTokens(Some(u), later) == u && u.daily >= tokens && u.total >= tokens
  {
  }

  /**
   * The read path and the write path agree on the day boundary: a read never
   * changes what a later (or simultaneous) write stores.
   */
  lemma ReadThenIncrement(prev: Option<Usage>, tokens: nat, now: int, later: int)
    requires now <= later
    ensures RecordTokens(Some(ReadTokens(prev, now)), tokens, later) == RecordTokens(prev, tokens, later)
  {
    if ReadRollsOver(prev, now) && later < NextMidnight(now) {
      SameDay(now, later);
    }
  }

  /** A second read at the same or a later time sees what a single read would. */
  lemma ReadIsIdempotent(prev: Option<Usage>, now: int, later: int)
    requires now <= later
    ensures ReadTokens(Some(ReadTokens(prev, now)), later) == ReadTokens(prev, later)
  {
    if ReadRollsOver(prev, now) && later < NextMidnight(now) {
      SameDay(now, later);
    }
  }

  /** A call on the token meter: a recording or a read, each at its time. */
  datatype MeterCall = Increment(tokens: nat, at: int) | Read(at: int)

  function MeterStep(prev: Option<Usage>, call: MeterCall): Usage {
    match call
    case Increment(tokens, at) => RecordTokens(prev, tokens, at)
    case Read(at) => ReadTokens(prev, at)
  }

  /** A user's record after a run of meter calls (None if the run is empty and there was none). */
  function Replay(prev: Option<Usage>, calls: seq<MeterCall>): Option<Usage>
    decreases |calls|
  {
    if calls == [] then prev else Replay(Some(MeterStep(prev, calls[0])), calls[1..])
  }

  function RecordedTokens(calls: seq<MeterCall>): int
    decreases |calls|
  {
    if calls == [] then 0
    else (if calls[0].Increment? then calls[0].tokens else 0) + RecordedTokens(calls[1..])
  }

  /**
   * Over any run of calls, across any number of days, the lifetime total
   * grows by exactly the tokens recorded (it is never reset), and today's
   * figure never exceeds it.
   */
  lemma {:induction false} ReplayTotal(prev: Option<Usage>, calls: seq<MeterCall>)
    requires prev.None? || ValidUsage(prev.value)
    ensures var r := Replay(prev, calls);
            calls != [] ==> r.Some? && r.value.total == StoredTotal(prev) + RecordedTokens(calls)
                            && ValidUsage(r.value)
    decreases |calls|
  {
    if calls != [] {
      var next := MeterStep(prev, calls[0]);
      ReplayTotal(Some(next), calls[1..]);
    }
  }

  class TokenMeter {
    /** `tokenUsage`, keyed by user id. */
    var usage: map<string, Usage>

    ghost predicate Valid()
      reads this
    {
      forall u :: u in usage ==> ValidUsage(usage[u])
    }

    constructor ()
      ensures Valid() && usage == map[]
    {
      usage := map[];
    }

    /** `tokenUsageStore.incrementTokens(userId, tokens)` at time `now`. */
    method IncrementTokens(userId: string, tokens: nat, now: int)
      requires Valid()
      modifies this
      ensures Valid()
      ensures usage == old(usage)[userId := RecordTokens(Get(old(usage), userId), tokens, now)]
    {
      var midnight := NextMidnight(now);
      var record := if userId in usage then usage[userId] else Usage(0, 0, midnight);
      if now >= record.resetTime {
        record := record.(daily := tokens, resetTime := midnight);
      } else {
        record := record.(daily := record.daily + tokens);
      }
      record := record.(total := record.total + tokens);
      usage := usage[userId := record];
    }

    /** `tokenUsageStore.getTokenUsage(userId)` at time `now`. */
    method GetTokenUsage(userId: string, now: int) returns (totals: TokenTotals)
      requires Valid()
      modifies this
      ensures Valid()
      ensures totals == Totals(ReadTokens(Get(old(usage), userId), now))
      ensures usage == if ReadRollsOver(Get(old(usage), userId), now)
                       then old(usage)[userId := ReadTokens(Get(old(usage), userId), now)]
                       else old(usage)
    {
      var record := if userId in usage then usage[userId] else Usage(0, 0, now);
      if now >= record.resetTime {
        record := record.(daily := 0, resetTime := NextMidnight(now));
        usage := usage[userId := record];
      }
      totals := TokenTotals(record.total, record.daily);
    }
  }

  // ---------------------------------------------------------------------------
  // PDF download quota: pdfLimiter
  // ---------------------------------------------------------------------------

  /** The record stored in `pdfDownloads`. */
  datatype Downloads = Downloads(count: int, resetTime: int)

  /**
   * `checkLimit(userId)` at time `now`: a user with no record, or one past the
   * stored midnight, may download; otherwise only while fewer than
   * `DailyDownloads` downloads were counted.
   */
  function DownloadAllowed(prev: Option<Downloads>, now: int): (allowed: bool)
    ensures prev.None? ==> allowed
    ensures prev.Some? && now >= prev.value.resetTime ==> allowed
    ensures prev.Some? && now < prev.value.resetTime ==> (allowed <==> prev.value.count < DailyDownloads)
  {
    var downloads := if prev.Some? then prev.value else Downloads(0, NextMidnight(now));
    var current := if now >= downloads.resetTime then Downloads(0, NextMidnight(now)) else downloads;
    current.count < DailyDownloads
  }

  /**
   * The `pdfDownloads` map after `checkLimit(userId)`: the rollover is written
   * through to an existing, expired record (its count becomes 0); an unknown
   * user gets no entry; nothing else changes.
   */
  function AfterCheckLimit(downloads: map<string, Downloads>, userId: string, now: int): (r: map<string, Downloads>)
    ensures userId !in downloads ==> r == downloads
    ensures userId in downloads && now >= downloads[userId].resetTime ==>
              r == downloads[userId := Downloads(0, NextMidnight(now))]
    ensures userId in downloads && now < downloads[userId].resetTime ==> r == downloads
  {
    if userId in downloads && now >= downloads[userId].resetTime
    then downloads[userId := Downloads(0, NextMidnight(now))]
    else downloads
  }

  /**
   * `incrementDownloads(userId)` at time `now`: the first download of a new
   * day (or of an unknown user) counts 1, any other adds one; the stored
   * midnight is always in the future.
   */
  function CountDownload(prev: Option<Downloads>, now: int): (d: Downloads)
    ensures now < d.resetTime
    ensures (prev.None? || now >= prev.value.resetTime) ==>
              d == Downloads(1, NextMidnight(now))
    ensures prev.Some? && now < prev.value.resetTime ==>
              d == Downloads(prev.value.count + 1, prev.value.resetTime)
  {
    var midnight := NextMidnight(now);
    var downloads := if prev.Some? then prev.value else Downloads(0, midnight);
    if now >= downloads.resetTime then Downloads(1, midnight)
    else downloads.(count := downloads.count + 1)
  }

  class DownloadQuota {
    /** `pdfDownloads`, keyed by user id. */
    var downloads: map<string, Downloads>

    ghost predicate Valid()
      reads this
    {
      forall u :: u in downloads ==> 0 <= downloads[u].count
    }

    constructor ()
      ensures Valid() && downloads == map[]
    {
      downloads := map[];
    }

    /** `pdfLimiter.checkLimit(userId)` at time `now`. */
    method CheckLimit(userId: string, now: int) returns (allowed: bool)
      requires Valid()
      modifies this
      ensures Valid()
      ensures allowed == DownloadAllowed(Get(old(downloads), userId), now)
      ensures downloads == AfterCheckLimit(old(downloads), userId, now)
    {
      var midnight := NextMidnight(now);
      if userId in downloads {
        var record := downloads[userId];
        if now >= record.resetTime {
          record := Downloads(0, midnight);
          downloads := downloads[userId := record];
        }
        allowed := record.count < DailyDownloads;
      } else {
        allowed := 0 < DailyDownloads;
      }
    }

    /** `pdfLimiter.incrementDownloads(userId)` at time `now`. */
    method IncrementDownloads(userId: string, now: int)
      requires Valid()
      modifies this
      ensures Valid()
      ensures downloads == old(downloads)[userId := CountDownload(Get(old(downloads), userId), now)]
    {
      var midnight := NextMidnight(now);
      var record := if userId in downloads then downloads[userId] else Downloads(0, midnight);
      if now >= record.resetTime {
        record := Downloads(1, midnight);
      } else {
        record := record.(count := record.count + 1);
      }
      downloads := downloads[userId := record];
    }
  }
}
