/**
 * The PDF export handler of src/pages/Dashboard.tsx as it drives `pdfLimiter`:
 * a premium user skips the quota entirely; a free user is checked first, the
 * document is generated, and only then is the download counted, so a refused
 * or failed export costs no quota.
 */
module ExportFlow {
  import opened Wrappers
  import opened Clock
  import opened RateLimiter

  /**
   * `NothingToExport` is the handler's early return when neither the menu
   * plan nor the shopping list is truthy.
   */
  datatype ExportResult = Exported | QuotaExceeded | GenerationFailed | NothingToExport

  /** One export attempt's result and the user's download record afterwards. */
  datatype Attempt = Attempt(result: ExportResult, stored: Option<Downloads>)

  /**
   * The user's record as `checkLimit` at `now` leaves it: the rollover is
   * written through, and it changes neither the verdict nor whether there is
   * a record.
   */
  function CheckedRecord(prev: Option<Downloads>, now: int): (r: Option<Downloads>)
    ensures r.Some? <==> prev.Some?
    ensures DownloadAllowed(r, now) == DownloadAllowed(prev, now)
    ensures prev.Some? && now >= prev.value.resetTime ==> r == Some(Downloads(0, NextMidnight(now)))
    ensures prev.Some? && now < prev.value.resetTime ==> r == prev
  {
    if prev.Some? && now >= prev.value.resetTime then Some(Downloads(0, NextMidnight(now))) else prev
  }

  /**
   * One press of the export button by a user whose stored record is `prev`.
   * `hasContent` says whether the menu plan or the shopping list is truthy,
   * and `generated` whether `generatePDF` succeeded. `checkLimit` reads the
   * clock at `now`; `incrementDownloads`, after the awaited generation, at
   * `later`. A premium user's record is never touched; a free user over the
   * quota gets `QuotaExceeded`; a download is counted only after a
   * successful generation.
   */
  function AttemptExport(prev: Option<Downloads>, isPremium: bool, hasContent: bool, generated: bool,
                         now: int, later: int): (r: Attempt)
    ensures !hasContent ==> r == Attempt(NothingToExport, prev)
    ensures isPremium ==> r.stored == prev && r.result != QuotaExceeded
    ensures r.result == QuotaExceeded <==> hasContent && !isPremium && !DownloadAllowed(prev, now)
    ensures r.result == Exported <==> hasContent && generated && (isPremium || DownloadAllowed(prev, now))
    ensures !isPremium && r.result == Exported ==> r.stored == Some(CountDownload(CheckedRecord(prev, now), later))
    ensures hasContent && !isPremium && r.result != Exported ==> r.stored == CheckedRecord(prev, now)
  {
    if !hasContent then
      Attempt(NothingToExport, prev)
    else if isPremium then
      Attempt(if generated then Exported else GenerationFailed, prev)
    else if !DownloadAllowed(prev, now) then
      Attempt(QuotaExceeded, CheckedRecord(prev, now))
    else if !generated then
      Attempt(GenerationFailed, CheckedRecord(prev, now))
    else
      Attempt(Exported, Some(CountDownload(CheckedRecord(prev, now), later)))
  }

  /**
   * The handler on the shared quota store, for user `userId`, with the clock
   * read at `now` by `checkLimit` and at `later` by `incrementDownloads`.
   */
  method ExportToPdf(quota: DownloadQuota, userId: string, isPremium: bool, hasContent: bool, generated: bool,
                     now: int, later: int)
    returns (result: ExportResult)
    requires quota.Valid()
    modifies quota
    ensures quota.Valid()
    ensures var a := AttemptExport(Get(old(quota.downloads), userId), isPremium, hasContent, generated, now, later);
            result == a.result &&
            quota.downloads == if a.stored.Some? then old(quota.downloads)[userId := a.stored.value]
                               else old(quota.downloads)
  {
    if !hasContent {
      return NothingToExport;
    }
    if !isPremium {
      var canDownload := quota.CheckLimit(userId, now);
      if !canDownload {
        return QuotaExceeded;
      }
    }
    if !generated {
      return GenerationFailed;
    }
    if !isPremium {
      quota.IncrementDownloads(userId, later);
    }
    result := Exported;
  }

  /** The two clock readings of one press: at `checkLimit` and at `incrementDownloads`. */
  datatype Press = Press(checkedAt: int, countedAt: int)

  /** Results of successive free-tier exports, every generation succeeding. */
  function FreeExports(prev: Option<Downloads>, presses: seq<Press>): (r: seq<ExportResult>)
    ensures |r| == |presses|
    decreases |presses|
  {
    if presses == [] then []
    else
      var a := AttemptExport(prev, false, true, true, presses[0].checkedAt, presses[0].countedAt);
      [a.result] + FreeExports(a.stored, presses[1..])
  }

  /** Both clock readings of every press fall before `resetTime`. */
  predicate AllBefore(presses: seq<Press>, resetTime: int) {
    forall i :: 0 <= i < |presses| ==> presses[i].checkedAt < resetTime && presses[i].countedAt < resetTime
  }

  /**
   * Before the stored midnight, with `c` downloads counted, the `i`-th further
   * export goes through exactly when `c + i < DailyDownloads`.
   */
  lemma {:induction false} FreeExportsWithinDay(c: int, resetTime: int, presses: seq<Press>)
    requires 0 <= c
    requires AllBefore(presses, resetTime)
    ensures forall i :: 0 <= i < |presses| ==>
              FreeExports(Some(Downloads(c, resetTime)), presses)[i] ==
              (if c + i < DailyDownloads then Exported else QuotaExceeded)
    decreases |presses|
  {
    if presses != [] {
      var r := FreeExports(Some(Downloads(c, resetTime)), presses);
      assert AllBefore(presses[1..], resetTime) by {
        forall i | 0 <= i < |presses| - 1 ensures presses[1..][i] == presses[i + 1] { }
      }
      if c < DailyDownloads {
        FreeExportsWithinDay(c + 1, resetTime, presses[1..]);
        assert r == [Exported] + FreeExports(Some(Downloads(c + 1, resetTime)), presses[1..]);
      } else {
        FreeExportsWithinDay(c, resetTime, presses[1..]);
        assert r == [QuotaExceeded] + FreeExports(Some(Downloads(c, resetTime)), presses[1..]);
      }
    }
  }

  /**
   * A free user starting a day without a live record can export exactly three
   * times before the next midnight; the fourth and later attempts are refused.
   */
  lemma ThreeExportsPerDay(prev: Option<Downloads>, presses: seq<Press>)
    requires presses != []
    requires prev.None? || presses[0].checkedAt >= prev.value.resetTime
    requires presses[0].checkedAt <= presses[0].countedAt
    requires AllBefore(presses, NextMidnight(presses[0].checkedAt))
    ensures forall i :: 0 <= i < |presses| ==>
              FreeExports(prev, presses)[i] == (if i < DailyDownloads then Exported else QuotaExceeded)
  {
    var first := presses[0];
    var midnight := NextMidnight(first.checkedAt);
    SameDay(first.checkedAt, first.countedAt);
    var r := FreeExports(prev, presses);
    assert AllBefore(presses[1..], midnight) by {
      forall i | 0 <= i < |presses| - 1 ensures presses[1..][i] == presses[i + 1] { }
    }
    FreeExportsWithinDay(1, midnight, presses[1..]);
    assert r == [Exported] + FreeExports(Some(Downloads(1, midnight)), presses[1..]);
  }

  /**
   * Once the stored midnight has passed, a free user who had used up the
   * quota may export again: the check resets the count to 0, and an export
   * counted before the next midnight is the first of the new day.
   */
  lemma NewDayRestoresQuota(d: Downloads, now: int, later: int)
    requires d.count >= DailyDownloads
    requires now >= d.resetTime
    ensures CheckedRecord(Some(d), now) == Some(Downloads(0, NextMidnight(now)))
    ensures AttemptExport(Some(d), false, true, true, now, later).result == Exported
    ensures later < NextMidnight(now) ==>
              AttemptExport(Some(d), false, true, true, now, later).stored == Some(Downloads(1, NextMidnight(now)))
  {
  }
}
