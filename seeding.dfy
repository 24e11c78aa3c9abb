/**
 * The seeding-policy and progress tick of the download-progress loop: which
 * torrents are still downloading, which finished torrents have reached a
 * seeding limit and get paused, and what the progress display shows next.
 */
module Seeding {
  import opened Wrappers

  /**
   * One snapshot of a torrent handle's status, read once per tick. Progress is
   * the integer percentage the engine reports; the time and byte counters are
   * never negative.
   */
  datatype TorrentStatus = TorrentStatus(
    valid: bool,
    hasMetadata: bool,
    paused: bool,
    name: string,
    progress: nat,
    finishedTime: nat,
    activeTime: nat,
    allTimeUpload: nat,
    allTimeDownload: nat)

  /** The three seeding limits of the configuration; a limit of 0 or less is off. */
  datatype SeedingLimits = SeedingLimits(seedTime: int, seedTimeRatio: int, shareRatio: int)

  /** Why a finished torrent is paused. */
  datatype Limit = SeedTimeReached | TimeRatioReached | ShareRatioReached

  /** The torrent at `index` is taken out of auto-management and paused. */
  datatype Pause = Pause(index: nat, reason: Limit)

  /** A torrent still downloading, as the progress display lists it. */
  datatype ActiveTorrent = ActiveTorrent(name: string, progress: nat)

  /** One update of the progress display: a percentage and the title under it. */
  datatype View = View(percent: nat, title: string)

  const TotalTitle := "Total"

  /** n / d reaches k exactly when n reaches k * d. */
  lemma DivAtLeast(n: nat, d: int, k: int)
    requires d > 0
    ensures n / d >= k <==> n >= k * d
  {
    var q, m := n / d, n % d;
    assert n == q * d + m && 0 <= m < d;
    if q >= k {
      MulLe(k, q, d);
    } else {
      MulLe(q + 1, k, d);
      assert (q + 1) * d == q * d + d;
    }
  }

  lemma {:induction false} MulLe(a: int, b: int, d: int)
    requires a <= b && d >= 0
    ensures a * d <= b * d
    decreases b - a
  {
    if a < b {
      MulLe(a + 1, b, d);
      assert (a + 1) * d == a * d + d;
    }
  }

  /**
   * Seeding time over downloading time, as an integer percentage; 0 when the
   * downloading time (active time minus finished time) is 1 or less.
   */
  function TimeRatio(finished: nat, active: nat): (r: nat)
    ensures active - finished <= 1 ==> r == 0
    ensures active - finished > 1 ==>
      r * (active - finished) <= finished * 100 < (r + 1) * (active - finished)
  {
    var downloadTime := active - finished;
    if downloadTime > 1 then finished * 100 / downloadTime else 0
  }

  /** Uploaded over downloaded bytes, as an integer percentage; 0 when nothing was downloaded. */
  function ShareRatio(upload: nat, download: nat): (r: nat)
    ensures download == 0 ==> r == 0
    ensures download > 0 ==> r * download <= upload * 100 < (r + 1) * download
  {
    if download > 0 then upload * 100 / download else 0
  }

  /** A positive time-ratio limit is reached exactly when 100 * finished >= limit * downloading time > limit. */
  lemma TimeRatioLimitReached(finished: nat, active: nat, limit: int)
    requires limit > 0
    ensures TimeRatio(finished, active) >= limit <==>
      active - finished > 1 && finished * 100 >= limit * (active - finished)
  {
    if active - finished > 1 {
      DivAtLeast(finished * 100, active - finished, limit);
    }
  }

  /** A positive share-ratio limit is reached exactly when something was downloaded and 100 * upload >= limit * download. */
  lemma ShareRatioLimitReached(upload: nat, download: nat, limit: int)
    requires limit > 0
    ensures ShareRatio(upload, download) >= limit <==>
      download > 0 && upload * 100 >= limit * download
  {
    if download > 0 {
      DivAtLeast(upload * 100, download, limit);
    }
  }

  /**
   * The limit a finished torrent has reached, checked in a fixed order: seeding
   * time, then time ratio, then share ratio. The first configured limit that is
   * reached decides; None when no limit is reached.
   */
  function Verdict(st: TorrentStatus, lim: SeedingLimits): (v: Option<Limit>)
    ensures v == Some(SeedTimeReached) ==> lim.seedTime > 0
    ensures v == Some(TimeRatioReached) ==> lim.seedTimeRatio > 0 && st.activeTime - st.finishedTime > 1
    ensures v == Some(ShareRatioReached) ==> lim.shareRatio > 0 && st.allTimeDownload > 0
    ensures lim.seedTime <= 0 && lim.seedTimeRatio <= 0 && lim.shareRatio <= 0 ==> v == None
  {
    if lim.seedTime > 0 && st.finishedTime >= lim.seedTime then Some(SeedTimeReached)
    else if lim.seedTimeRatio > 0 && TimeRatio(st.finishedTime, st.activeTime) >= lim.seedTimeRatio then
      Some(TimeRatioReached)
    else if lim.shareRatio > 0 && ShareRatio(st.allTimeUpload, st.allTimeDownload) >= lim.shareRatio then
      Some(ShareRatioReached)
    else None
  }

  predicate SeedTimeHit(st: TorrentStatus, lim: SeedingLimits) {
    lim.seedTime > 0 && st.finishedTime >= lim.seedTime
  }

  predicate TimeRatioHit(st: TorrentStatus, lim: SeedingLimits) {
    var downloadTime := st.activeTime - st.finishedTime;
    lim.seedTimeRatio > 0 && downloadTime > 1 && st.finishedTime * 100 >= lim.seedTimeRatio * downloadTime
  }

  predicate ShareRatioHit(st: TorrentStatus, lim: SeedingLimits) {
    lim.shareRatio > 0 && st.allTimeDownload > 0
      && st.allTimeUpload * 100 >= lim.shareRatio * st.allTimeDownload
  }

  /**
   * The verdict in division-free terms: a limit pauses the torrent exactly when
   * it is configured, reached, and no earlier limit in the order was reached.
   * In particular a downloading time of 1 or less never trips the time ratio,
   * and a torrent that downloaded nothing never trips the share ratio.
   */
  lemma VerdictByLimits(st: TorrentStatus, lim: SeedingLimits)
    ensures Verdict(st, lim) == Some(SeedTimeReached) <==> SeedTimeHit(st, lim)
    ensures Verdict(st, lim) == Some(TimeRatioReached) <==>
      !SeedTimeHit(st, lim) && TimeRatioHit(st, lim)
    ensures Verdict(st, lim) == Some(ShareRatioReached) <==>
      !SeedTimeHit(st, lim) && !TimeRatioHit(st, lim) && ShareRatioHit(st, lim)
    ensures Verdict(st, lim) == None <==>
      !SeedTimeHit(st, lim) && !TimeRatioHit(st, lim) && !ShareRatioHit(st, lim)
  {
    if lim.seedTimeRatio > 0 {
      TimeRatioLimitReached(st.finishedTime, st.activeTime, lim.seedTimeRatio);
    }
    if lim.shareRatio > 0 {
      ShareRatioLimitReached(st.allTimeUpload, st.allTimeDownload, lim.shareRatio);
    }
  }

  /**
   * A finished torrent with share-ratio limit 200 and time-ratio limit 100 and
   * no seeding-time limit, whose time ratio is 50 and share ratio 250, is paused
   * for its share ratio.
   */
  lemma ShareRatioAfterTimeRatio()
    ensures var st := TorrentStatus(true, true, false, "t", 100, 50, 150, 250, 100);
      TimeRatio(50, 150) == 50 && ShareRatio(250, 100) == 250
      && Verdict(st, SeedingLimits(0, 100, 200)) == Some(ShareRatioReached)
  {
  }

  /** The torrent is looked at this tick: a valid handle with metadata, neither it nor the session paused. */
  predicate Considered(st: TorrentStatus, sessionPaused: bool) {
    st.valid && st.hasMetadata && !st.paused && !sessionPaused
  }

  /** Some considered torrent of sts with progress below 100 has this name and progress. */
  predicate Listed(sts: seq<TorrentStatus>, sessionPaused: bool, a: ActiveTorrent) {
    exists i :: 0 <= i < |sts| && Considered(sts[i], sessionPaused) && sts[i].progress < 100
      && a == ActiveTorrent(sts[i].name, sts[i].progress)
  }

  /** What is listed for a prefix of the statuses is listed for all of them. */
  lemma ListedInPrefix(sts: seq<TorrentStatus>, n: nat, sessionPaused: bool, a: ActiveTorrent)
    requires n <= |sts| && Listed(sts[..n], sessionPaused, a)
    ensures Listed(sts, sessionPaused, a)
  {
    var i :| 0 <= i < n && Considered(sts[..n][i], sessionPaused) && sts[..n][i].progress < 100
      && a == ActiveTorrent(sts[..n][i].name, sts[..n][i].progress);
    assert sts[..n][i] == sts[i];
  }

  /** The torrents still downloading, in input order. */
  function ActiveOf(sts: seq<TorrentStatus>, sessionPaused: bool): (r: seq<ActiveTorrent>)
    ensures |r| <= |sts|
    ensures forall k :: 0 <= k < |r| ==> r[k].progress < 100
    ensures forall i :: 0 <= i < |sts| && Considered(sts[i], sessionPaused) && sts[i].progress < 100 ==>
      ActiveTorrent(sts[i].name, sts[i].progress) in r
    ensures forall k :: 0 <= k < |r| ==> Listed(sts, sessionPaused, r[k])
  {
    if sts == [] then []
    else
      var n := |sts| - 1;
      var st := sts[n];
      var front := ActiveOf(sts[..n], sessionPaused);
      assert forall i :: 0 <= i < n ==> sts[..n][i] == sts[i];
      assert forall k :: 0 <= k < |front| ==> Listed(sts, sessionPaused, front[k]) by {
        forall k | 0 <= k < |front| {
          ListedInPrefix(sts, n, sessionPaused, front[k]);
        }
      }
      front
        + (if Considered(st, sessionPaused) && st.progress < 100
           then [ActiveTorrent(st.name, st.progress)] else [])
  }

  /** The pauses of one tick, in input order. */
  function PausesOf(sts: seq<TorrentStatus>, lim: SeedingLimits, sessionPaused: bool): (r: seq<Pause>)
    ensures |r| <= |sts|
    ensures forall k :: 0 <= k < |r| ==> r[k].index < |sts|
  {
    if sts == [] then []
    else
      var i := |sts| - 1;
      var st := sts[i];
      PausesOf(sts[..i], lim, sessionPaused)
        + (if Considered(st, sessionPaused) && st.progress >= 100 && Verdict(st, lim).Some?
           then [Pause(i, Verdict(st, lim).value)] else [])
  }

  /** The summed progress of the active torrents. */
  function Sum(active: seq<ActiveTorrent>): nat {
    if active == [] then 0 else active[0].progress + Sum(active[1..])
  }

  /** The pause names a considered finished torrent of sts, for the first limit it reached. */
  predicate Justified(pause: Pause, sts: seq<TorrentStatus>, lim: SeedingLimits, sessionPaused: bool) {
    pause.index < |sts| && Considered(sts[pause.index], sessionPaused)
    && sts[pause.index].progress >= 100 && Verdict(sts[pause.index], lim) == Some(pause.reason)
  }

  /** Every pause names a considered finished torrent, for the first limit it reached. */
  lemma {:induction false} PausesSound(sts: seq<TorrentStatus>, lim: SeedingLimits, sessionPaused: bool)
    ensures forall k :: 0 <= k < |PausesOf(sts, lim, sessionPaused)| ==>
      Justified(PausesOf(sts, lim, sessionPaused)[k], sts, lim, sessionPaused)
  {
    if sts != [] {
      var n := |sts| - 1;
      var front := sts[..n];
      PausesSound(front, lim, sessionPaused);
      var q := PausesOf(front, lim, sessionPaused);
      var p := PausesOf(sts, lim, sessionPaused);
      assert p[..|q|] == q;
      forall k | 0 <= k < |p|
        ensures Justified(p[k], sts, lim, sessionPaused)
      {
        if k < |q| {
          assert p[k] == q[k] && Justified(q[k], front, lim, sessionPaused);
          assert front[q[k].index] == sts[q[k].index];
        }
      }
    }
  }

  /** Pauses come in input order, so no torrent is paused twice in one tick. */
  lemma {:induction false} PausesOrdered(sts: seq<TorrentStatus>, lim: SeedingLimits, sessionPaused: bool)
    ensures forall k, l :: 0 <= k < l < |PausesOf(sts, lim, sessionPaused)| ==>
      PausesOf(sts, lim, sessionPaused)[k].index < PausesOf(sts, lim, sessionPaused)[l].index
  {
    if sts != [] {
      var n := |sts| - 1;
      var front := sts[..n];
      PausesOrdered(front, lim, sessionPaused);
      PausesSound(front, lim, sessionPaused);
      var q := PausesOf(front, lim, sessionPaused);
      var p := PausesOf(sts, lim, sessionPaused);
      assert p[..|q|] == q;
      forall k, l | 0 <= k < l < |p|
        ensures p[k].index < p[l].index
      {
        assert p[k] == q[k] && Justified(q[k], front, lim, sessionPaused);
        if l < |q| {
          assert p[l] == q[l];
        }
      }
    }
  }

  /** Some pause of the tick names the torrent at index i. */
  predicate PausedAt(pauses: seq<Pause>, i: nat) {
    exists k :: 0 <= k < |pauses| && pauses[k].index == i
  }

  /** Every considered finished torrent that reached a limit is paused. */
  lemma {:induction false} PausesComplete(sts: seq<TorrentStatus>, lim: SeedingLimits, sessionPaused: bool)
    ensures forall i :: (0 <= i < |sts| && Considered(sts[i], sessionPaused)
        && sts[i].progress >= 100 && Verdict(sts[i], lim).Some?) ==>
        PausedAt(PausesOf(sts, lim, sessionPaused), i)
  {
    if sts != [] {
      var n := |sts| - 1;
      var front := sts[..n];
      PausesComplete(front, lim, sessionPaused);
      var q := PausesOf(front, lim, sessionPaused);
      var p := PausesOf(sts, lim, sessionPaused);
      assert p[..|q|] == q;
      forall i | 0 <= i < |sts| && Considered(sts[i], sessionPaused)
        && sts[i].progress >= 100 && Verdict(sts[i], lim).Some?
        ensures PausedAt(p, i)
      {
        if i < n {
          assert front[i] == sts[i];
          var k :| 0 <= k < |q| && q[k].index == i;
          assert p[k] == q[k];
        } else {
          assert p[|q|].index == i;
        }
      }
    }
  }

  /** Classification keeps input order: the active list of a concatenation is the concatenation of the active lists. */
  lemma {:induction false} ActiveOfAppend(a: seq<TorrentStatus>, b: seq<TorrentStatus>, sessionPaused: bool)
    ensures ActiveOf(a + b, sessionPaused) == ActiveOf(a, sessionPaused) + ActiveOf(b, sessionPaused)
  {
    if b != [] {
      var n := |b| - 1;
      ActiveOfAppend(a, b[..n], sessionPaused);
      assert (a + b)[..|a + b| - 1] == a + b[..n];
      assert (a + b)[|a + b| - 1] == b[n];
      var st := b[n];
      var tail := if Considered(st, sessionPaused) && st.progress < 100
                  then [ActiveTorrent(st.name, st.progress)] else [];
      assert ActiveOf(a + b, sessionPaused) == ActiveOf(a + b[..n], sessionPaused) + tail;
      assert ActiveOf(b, sessionPaused) == ActiveOf(b[..n], sessionPaused) + tail;
    } else {
      assert a + b == a;
    }
  }

  /** While the session is paused nothing is active and nothing is paused. */
  lemma {:induction false} SessionPausedIsIdle(sts: seq<TorrentStatus>, lim: SeedingLimits)
    ensures ActiveOf(sts, true) == [] && PausesOf(sts, lim, true) == []
  {
    if sts != [] {
      SessionPausedIsIdle(sts[..|sts| - 1], lim);
    }
  }

  lemma {:induction false} SumSnoc(active: seq<ActiveTorrent>, entry: ActiveTorrent)
    ensures Sum(active + [entry]) == Sum(active) + entry.progress
  {
    if active != [] {
      SumSnoc(active[1..], entry);
      assert (active + [entry])[1..] == active[1..] + [entry];
    }
  }

  lemma {:induction false} SumBelow(active: seq<ActiveTorrent>)
    requires forall k :: 0 <= k < |active| ==> active[k].progress < 100
    ensures Sum(active) <= 99 * |active|
  {
    if active != [] {
      SumBelow(active[1..]);
    }
  }

  /** The "Total" percentage, the integer mean of the active torrents, is below 100. */
  lemma MeanBelowComplete(active: seq<ActiveTorrent>)
    requires |active| > 0
    requires forall k :: 0 <= k < |active| ==> active[k].progress < 100
    ensures Sum(active) / |active| < 100
  {
    SumBelow(active);
    DivAtLeast(Sum(active), |active|, 100);
  }

  /** How the classification of a prefix grows by one status. */
  lemma OneMore(sts: seq<TorrentStatus>, i: nat, lim: SeedingLimits, sessionPaused: bool)
    requires i < |sts|
    ensures var st := sts[i];
      ActiveOf(sts[..i + 1], sessionPaused) == ActiveOf(sts[..i], sessionPaused)
        + (if Considered(st, sessionPaused) && st.progress < 100
           then [ActiveTorrent(st.name, st.progress)] else [])
    ensures var st := sts[i];
      PausesOf(sts[..i + 1], lim, sessionPaused) == PausesOf(sts[..i], lim, sessionPaused)
        + (if Considered(st, sessionPaused) && st.progress >= 100 && Verdict(st, lim).Some?
           then [Pause(i, Verdict(st, lim).value)] else [])
  {
    assert sts[..i + 1][..i] == sts[..i];
  }

  /**
   * The limit checks for one finished torrent, in the order the loop makes
   * them; a reached limit ends the checks for that torrent.
   */
  method CheckLimits(st: TorrentStatus, lim: SeedingLimits) returns (reached: Option<Limit>)
    ensures reached == Verdict(st, lim)
  {
    var finishedTime := st.finishedTime;
    if lim.seedTime > 0 {
      if finishedTime >= lim.seedTime {
        return Some(SeedTimeReached);
      }
    }
    if lim.seedTimeRatio > 0 {
      var timeRatio := 0;
      var downloadTime := st.activeTime - finishedTime;
      if downloadTime > 1 {
        timeRatio := finishedTime * 100 / downloadTime;
      }
      if timeRatio >= lim.seedTimeRatio {
        return Some(TimeRatioReached);
      }
    }
    if lim.shareRatio > 0 {
      var ratio := 0;
      var allTimeDownload := st.allTimeDownload;
      if allTimeDownload > 0 {
        ratio := st.allTimeUpload * 100 / allTimeDownload;
      }
      if ratio >= lim.shareRatio {
        return Some(ShareRatioReached);
      }
    }
    return None;
  }

  /**
   * The classification loop of one tick: skips invalid handles, torrents
   * without metadata and paused torrents (all of them while the session is
   * paused), lists unfinished torrents with their summed progress, and checks
   * the seeding limits of finished ones in order.
   */
  method Scan(sts: seq<TorrentStatus>, lim: SeedingLimits, sessionPaused: bool)
    returns (active: seq<ActiveTorrent>, total: nat, pauses: seq<Pause>)
    ensures active == ActiveOf(sts, sessionPaused)
    ensures total == Sum(active)
    ensures pauses == PausesOf(sts, lim, sessionPaused)
  {
    active, total, pauses := [], 0, [];
    for i := 0 to |sts|
      invariant active == ActiveOf(sts[..i], sessionPaused)
      invariant total == Sum(active)
      invariant pauses == PausesOf(sts[..i], lim, sessionPaused)
    {
      OneMore(sts, i, lim, sessionPaused);
      active, total, pauses := Visit(sts[i], i, lim, sessionPaused, active, total, pauses);
    }
    assert sts[..|sts|] == sts;
  }

  /** One turn of the classification loop, for the status at index i. */
  method Visit(st: TorrentStatus, i: nat, lim: SeedingLimits, sessionPaused: bool,
               active: seq<ActiveTorrent>, total: nat, pauses: seq<Pause>)
    returns (active': seq<ActiveTorrent>, total': nat, pauses': seq<Pause>)
    requires total == Sum(active)
    ensures active' == active + (if Considered(st, sessionPaused) && st.progress < 100
                                 then [ActiveTorrent(st.name, st.progress)] else [])
    ensures total' == Sum(active')
    ensures pauses' == pauses + (if Considered(st, sessionPaused) && st.progress >= 100 && Verdict(st, lim).Some?
                                 then [Pause(i, Verdict(st, lim).value)] else [])
  {
    active', total', pauses' := active, total, pauses;
    if st.valid && st.hasMetadata && !st.paused && !sessionPaused {
      var progress := st.progress;
      if progress < 100 {
        var entry := ActiveTorrent(st.name, progress);
        SumSnoc(active, entry);
        active' := active + [entry];
        total' := total + progress;
      } else {
        var reached := CheckLimits(st, lim);
        if reached.Some? {
          pauses' := pauses + [Pause(i, reached.value)];
        }
      }
    }
  }

  /**
   * The rotating cursor: below the active count it shows that torrent and
   * advances; at or past it, it shows the "Total" mean and resets to 0.
   */
  function Rotate(cursor: nat, active: seq<ActiveTorrent>, total: nat): (r: (View, nat))
    requires |active| > 0
    ensures r.1 <= |active|
    ensures cursor < |active| ==> r.0 == View(active[cursor].progress, active[cursor].name) && r.1 == cursor + 1
    ensures cursor >= |active| ==> r.0 == View(total / |active|, TotalTitle) && r.1 == 0
  {
    if cursor >= |active| then (View(total / |active|, TotalTitle), 0)
    else (View(active[cursor].progress, active[cursor].name), cursor + 1)
  }

  /** The views of k consecutive ticks over an unchanging active list. */
  function Ticks(cursor: nat, active: seq<ActiveTorrent>, total: nat, k: nat): seq<View>
    requires |active| > 0
    decreases k
  {
    if k == 0 then []
    else
      var (view, next) := Rotate(cursor, active, total);
      [view] + Ticks(next, active, total, k - 1)
  }

  /** The cursor after k consecutive ticks over an unchanging active list. */
  function CursorAfter(cursor: nat, active: seq<ActiveTorrent>, total: nat, k: nat): nat
    requires |active| > 0
    decreases k
  {
    if k == 0 then cursor else CursorAfter(Rotate(cursor, active, total).1, active, total, k - 1)
  }

  /** Each active torrent's own view, in order. */
  function Listing(active: seq<ActiveTorrent>): (r: seq<View>)
    ensures |r| == |active|
  {
    seq(|active|, k requires 0 <= k < |active| => View(active[k].progress, active[k].name))
  }

  lemma {:induction false} RotationFrom(c: nat, active: seq<ActiveTorrent>, total: nat)
    requires 0 < |active| && c <= |active|
    ensures Ticks(c, active, total, |active| - c + 1)
      == Listing(active)[c..] + [View(total / |active|, TotalTitle)]
    ensures CursorAfter(c, active, total, |active| - c + 1) == 0
    decreases |active| - c
  {
    if c < |active| {
      RotationFrom(c + 1, active, total);
      assert Listing(active)[c..] == [Listing(active)[c]] + Listing(active)[c + 1..];
    }
  }

  /**
   * From a fresh cursor, n active torrents give a cycle of n + 1 ticks: each
   * torrent in order, then "Total", and the cursor is back at 0.
   */
  lemma RotationCycle(active: seq<ActiveTorrent>, total: nat)
    requires |active| > 0
    ensures Ticks(0, active, total, |active| + 1)
      == Listing(active) + [View(total / |active|, TotalTitle)]
    ensures CursorAfter(0, active, total, |active| + 1) == 0
  {
    RotationFrom(0, active, total);
    assert Listing(active)[0..] == Listing(active);
  }

  /** Three torrents at 10%, 50% and 90%: A, B, C, then "Total" at 50%, then A again. */
  lemma ThreeTorrentRotation()
    ensures var active := [ActiveTorrent("A", 10), ActiveTorrent("B", 50), ActiveTorrent("C", 90)];
      Ticks(0, active, Sum(active), 5)
        == [View(10, "A"), View(50, "B"), View(90, "C"), View(50, TotalTitle), View(10, "A")]
  {
    var active := [ActiveTorrent("A", 10), ActiveTorrent("B", 50), ActiveTorrent("C", 90)];
    assert Sum(active) == 150 by {
      assert active[1..][1..][1..] == [];
    }
    RotationCycle(active, 150);
    assert Listing(active) == [View(10, "A"), View(50, "B"), View(90, "C")];
  }
}
