/** The hourly traffic index and the daily roll-up made from it (app/db.py: `add_traffic`,
    `get_traffic`; app/tasks.py: `_periodic_flush`; app/main.py: `api_reports`). */
module Traffic {
  import opened Counters

  const HOUR := 3600
  const DAY := 86400
  const WINDOW := 168 * HOUR

  type Table = map<int, Pair>

  function Row(rows: Table, bucket: int): Pair {
    if bucket in rows then rows[bucket] else ZERO
  }

  /** Rows after one `add_traffic`: the bucket grows, and everything older than the window goes. */
  function Added(rows: Table, bucket: int, up: nat, down: nat): (r: Table)
    ensures forall b :: b in r <==> (b in rows || b == bucket) && b >= bucket - WINDOW
    ensures forall b :: b in r && b != bucket ==> r[b] == rows[b]
    ensures r[bucket].up == Row(rows, bucket).up + up && r[bucket].down == Row(rows, bucket).down + down
  {
    var grown := rows[bucket := Pair(Row(rows, bucket).up + up, Row(rows, bucket).down + down)];
    map b | b in grown && b >= bucket - WINDOW :: grown[b]
  }

  class TrafficTable {
    var rows: Table

    constructor ()
      ensures rows == map[]
    {
      rows := map[];
    }

    /** `add_traffic`: upsert, then delete. */
    method AddTraffic(bucket: int, up: nat, down: nat)
      modifies this
      ensures rows == Added(old(rows), bucket, up, down)
    {
      if bucket in rows {
        rows := rows[bucket := Pair(rows[bucket].up + up, rows[bucket].down + down)];
      } else {
        rows := rows[bucket := Pair(up, down)];
      }
      rows := map b | b in rows && b >= bucket - 168 * 3600 :: rows[b];
    }
  }

  // ---------------------------------------------------------------- history

  /** One flush: the clock in seconds, and what was measured. */
  datatype Flush = Flush(time: int, bytes: Pair)

  /** `int(time // 3600) * 3600` */
  function Bucket(time: int): int {
    time / HOUR * HOUR
  }

  lemma BucketBounds(time: int)
    ensures Bucket(time) <= time < Bucket(time) + HOUR && Bucket(time) % HOUR == 0
  {
  }

  /** The table after a sequence of flushes. */
  function Index(run: seq<Flush>): Table {
    if run == [] then map[]
    else
      var f := run[|run| - 1];
      Added(Index(run[..|run| - 1]), Bucket(f.time), f.bytes.up, f.bytes.down)
  }

  /** What was flushed in the hour of `bucket`. */
  function Flushed(run: seq<Flush>, bucket: int, up: bool): nat {
    if run == [] then 0
    else
      var f := run[|run| - 1];
      Flushed(run[..|run| - 1], bucket, up) + if Bucket(f.time) == bucket then Side(f.bytes, up) else 0
  }

  predicate InHour(run: seq<Flush>, bucket: int) {
    exists i :: 0 <= i < |run| && Bucket(run[i].time) == bucket
  }

  /** A flush so late that it deletes the row. */
  predicate Purges(f: Flush, bucket: int) {
    bucket < Bucket(f.time) - WINDOW
  }

  /** The flushes since the row was last deleted. */
  function SincePurge(run: seq<Flush>, bucket: int): seq<Flush> {
    if run == [] || Purges(run[|run| - 1], bucket) then []
    else SincePurge(run[..|run| - 1], bucket) + [run[|run| - 1]]
  }

  /** They are the longest end of the run in which nothing deletes the row. */
  lemma {:induction false} SincePurgeIsSuffix(run: seq<Flush>, bucket: int) returns (j: nat)
    ensures j <= |run| && SincePurge(run, bucket) == run[j..]
    ensures j > 0 ==> Purges(run[j - 1], bucket)
    ensures forall i :: j <= i < |run| ==> !Purges(run[i], bucket)
  {
    hide Purges;
    if run == [] {
      j := 0;
    } else if Purges(run[|run| - 1], bucket) {
      j := |run|;
    } else {
      var most := run[..|run| - 1];
      j := SincePurgeIsSuffix(most, bucket);
      assert run[j..] == most[j..] + [run[|run| - 1]];
      assert j > 0 ==> most[j - 1] == run[j - 1];
      assert forall i :: j <= i < |most| ==> most[i] == run[i];
    }
  }

  lemma AddedRow(rows: Table, f: Flush, bucket: int, up: bool)
    ensures var r := Added(rows, Bucket(f.time), f.bytes.up, f.bytes.down);
      && (bucket in r <==> !Purges(f, bucket) && (bucket in rows || Bucket(f.time) == bucket))
      && Side(Row(r, bucket), up) ==
           if Purges(f, bucket) then 0
           else Side(Row(rows, bucket), up) + if Bucket(f.time) == bucket then Side(f.bytes, up) else 0
  {
    hide Bucket;
  }

  lemma FlushedAppend(run: seq<Flush>, f: Flush, bucket: int, up: bool)
    ensures Flushed(run + [f], bucket, up) ==
      Flushed(run, bucket, up) + if Bucket(f.time) == bucket then Side(f.bytes, up) else 0
  {
    hide Bucket;
    assert (run + [f])[..|run|] == run;
  }

  /** With any clock, forward or backward: a row is there if its hour was flushed since it was last
      deleted, and holds exactly the sum of those flushes. */
  lemma {:induction false} IndexAnyClock(run: seq<Flush>, bucket: int, up: bool)
    ensures bucket in Index(run) <==> InHour(SincePurge(run, bucket), bucket)
    ensures Side(Row(Index(run), bucket), up) == Flushed(SincePurge(run, bucket), bucket, up)
  {
    hide Added, Bucket, Row, Side, InHour, Purges;
    if run == [] {
      EmptyIndex(bucket, up);
    } else {
      var most, f := run[..|run| - 1], run[|run| - 1];
      IndexAnyClock(most, bucket, up);
      AddedRow(Index(most), f, bucket, up);
      if Purges(f, bucket) {
        EmptyIndex(bucket, up);
      } else {
        var since := SincePurge(most, bucket);
        FlushedAppend(since, f, bucket, up);
        InHourAppend(since, f, bucket);
      }
    }
  }

  lemma EmptyIndex(bucket: int, up: bool)
    ensures !InHour([], bucket) && Side(Row(map[], bucket), up) == 0
  {
  }

  lemma InHourAppend(run: seq<Flush>, f: Flush, bucket: int)
    ensures InHour(run + [f], bucket) <==> InHour(run, bucket) || Bucket(f.time) == bucket
  {
    var all := run + [f];
    assert all[|run|] == f;
    if InHour(run, bucket) {
      var i :| 0 <= i < |run| && Bucket(run[i].time) == bucket;
      assert all[i] == run[i];
    }
  }

  predicate Forward(run: seq<Flush>) {
    forall i, j :: 0 <= i <= j < |run| ==> run[i].time <= run[j].time
  }

  lemma BucketMonotone(a: int, b: int)
    requires a <= b
    ensures Bucket(a) <= Bucket(b)
  {
  }

  function Latest(run: seq<Flush>): int
    requires run != []
  {
    Bucket(run[|run| - 1].time)
  }

  /** With a clock that never goes back: the rows are exactly the hours that were flushed and lie in
      the window before the latest one, and each holds everything flushed in its hour. */
  lemma {:induction false} IndexRefinesHistory(run: seq<Flush>, bucket: int, up: bool)
    requires Forward(run) && run != []
    ensures bucket in Index(run) <==> InHour(run, bucket) && bucket >= Latest(run) - 604800
    ensures bucket in Index(run) ==> Side(Index(run)[bucket], up) == Flushed(run, bucket, up)
  {
    hide Index, Flushed, InHour;
    IndexAnyClock(run, bucket, up);
    var j := SincePurgeIsSuffix(run, bucket);
    if bucket >= Latest(run) - WINDOW {
      if j > 0 {
        BucketMonotone(run[j - 1].time, run[|run| - 1].time);
      }
      assert run[0..] == run;
    } else {
      assert Purges(run[|run| - 1], bucket);
      assert run[|run|..] == [];
      EmptyIndex(bucket, up);
    }
  }

  // ---------------------------------------------------------------- daily roll-up

  datatype DayTotal = DayTotal(t: int, up: nat, down: nat)

  /** The sum of `n` consecutive hourly rows. */
  function Hours(rows: Table, from: int, n: nat, up: bool): nat {
    if n == 0 then 0 else Hours(rows, from, n - 1, up) + Side(Row(rows, from + (n - 1) * HOUR), up)
  }

  /** `min(max(int(days or 7), 1), 30)` */
  function ClampDays(days: int): nat
    ensures 1 <= ClampDays(days) <= 30
    ensures 1 <= days <= 30 ==> ClampDays(days) == days
    ensures days == 0 ==> ClampDays(days) == 7
    ensures days < 0 ==> ClampDays(days) == 1
    ensures days > 30 ==> ClampDays(days) == 30
  {
    var d := if days == 0 then 7 else days;
    if d < 1 then 1 else if d > 30 then 30 else d
  }

  function DayBucket(now: int): int {
    now / DAY * DAY
  }

  /** `get_traffic` */
  function Since(rows: Table, from: int): Table {
    map b | b in rows && b >= from :: rows[b]
  }

  function FirstDay(now: int, days: int): int {
    DayBucket(now) - (ClampDays(days) - 1) * DAY
  }

  /** The part of `api_reports` that sums up the days. */
  method DailyTotals(rows: Table, now: int, days: int) returns (daily: seq<DayTotal>)
    ensures |daily| == ClampDays(days)
    ensures forall k :: 0 <= k < |daily| ==> daily[k].t == FirstDay(now, days) + k * DAY
    ensures daily != [] && daily[|daily| - 1].t <= now < daily[|daily| - 1].t + 86400
    ensures daily[|daily| - 1].t % 86400 == 0
    ensures forall k :: 0 <= k < |daily| ==>
      daily[k].up == Hours(rows, daily[k].t, 24, true) && daily[k].down == Hours(rows, daily[k].t, 24, false)
    ensures Total(daily, true) == Days(rows, FirstDay(now, days), ClampDays(days), true)
    ensures Total(daily, false) == Days(rows, FirstDay(now, days), ClampDays(days), false)
  {
    var n := ClampDays(days);
    var dayBucket := DayBucket(now);
    var raw := Since(rows, dayBucket - (n - 1) * DAY);
    daily := [];
    for k := 0 to n
      invariant |daily| == k
      invariant forall j :: 0 <= j < k ==> daily[j].t == FirstDay(now, days) + j * DAY
      invariant forall j :: 0 <= j < k ==>
        daily[j].up == Hours(rows, daily[j].t, 24, true) && daily[j].down == Hours(rows, daily[j].t, 24, false)
    {
      var d := dayBucket - (n - 1 - k) * DAY;
      var up, down := DayRow(raw, rows, dayBucket - (n - 1) * DAY, d);
      daily := daily + [DayTotal(d, up, down)];
    }
    TotalIsDays(rows, FirstDay(now, days), daily, true);
    TotalIsDays(rows, FirstDay(now, days), daily, false);
  }

  function DaySide(d: DayTotal, up: bool): nat {
    if up then d.up else d.down
  }

  /** What a report adds up to. */
  function Total(daily: seq<DayTotal>, up: bool): nat {
    if daily == [] then 0 else Total(daily[..|daily| - 1], up) + DaySide(daily[|daily| - 1], up)
  }

  lemma {:induction false} TotalIsDays(rows: Table, from: int, daily: seq<DayTotal>, up: bool)
    requires forall k :: 0 <= k < |daily| ==>
      daily[k].t == from + k * DAY && DaySide(daily[k], up) == Hours(rows, daily[k].t, 24, up)
    ensures Total(daily, up) == Days(rows, from, |daily|, up)
  {
    if daily != [] {
      TotalIsDays(rows, from, daily[..|daily| - 1], up);
    }
  }

  /** The inner loop: 24 cells of one day. */
  method DayRow(raw: Table, ghost rows: Table, ghost from: int, d: int) returns (up: nat, down: nat)
    requires raw == Since(rows, from) && d >= from
    ensures up == Hours(rows, d, 24, true) && down == Hours(rows, d, 24, false)
  {
    up, down := 0, 0;
    for h := 0 to 24
      invariant up == Hours(rows, d, h, true) && down == Hours(rows, d, h, false)
    {
      if d + h * HOUR in raw {
        up := up + raw[d + h * HOUR].up;
        down := down + raw[d + h * HOUR].down;
      }
    }
  }

  lemma {:induction false} HoursSplit(rows: Table, from: int, m: nat, n: nat, up: bool)
    ensures Hours(rows, from, m + n, up) == Hours(rows, from, m, up) + Hours(rows, from + m * HOUR, n, up)
  {
    if n > 0 {
      HoursSplit(rows, from, m, n - 1, up);
      assert from + (m + n - 1) * HOUR == from + m * HOUR + (n - 1) * HOUR;
    }
  }

  /** The days one after the other. */
  function Days(rows: Table, from: int, n: nat, up: bool): nat {
    if n == 0 then 0 else Days(rows, from, n - 1, up) + Hours(rows, from + (n - 1) * DAY, 24, up)
  }

  lemma {:induction false} DaysAreHours(rows: Table, from: int, n: nat, up: bool)
    ensures Days(rows, from, n, up) == Hours(rows, from, 24 * n, up)
  {
    if n > 0 {
      DaysAreHours(rows, from, n - 1, up);
      HoursSplit(rows, from, 24 * (n - 1), 24, up);
      assert 24 * (n - 1) * HOUR == (n - 1) * DAY;
    }
  }

  /** The sum over all rows of a table. */
  ghost function Sum(rows: Table, up: bool): nat
    decreases |rows|
  {
    if forall b :: b !in rows then 0
    else
      var b :| b in rows;
      Side(rows[b], up) + Sum(rows - {b}, up)
  }

  lemma {:induction false} SumRemove(rows: Table, b: int, up: bool)
    requires b in rows
    ensures Sum(rows, up) == Side(rows[b], up) + Sum(rows - {b}, up)
    decreases |rows|
  {
    var c :| c in rows && Sum(rows, up) == Side(rows[c], up) + Sum(rows - {c}, up);
    if c != b {
      SumRemove(rows - {c}, b, up);
      SumRemove(rows - {b}, c, up);
      assert rows - {c} - {b} == rows - {b} - {c};
    }
  }

  /** The rows in a window of `n` hours. */
  function Within(rows: Table, from: int, n: nat): Table {
    map b | b in rows && from <= b < from + n * HOUR :: rows[b]
  }

  predicate Aligned(rows: Table) {
    forall b :: b in rows ==> b % HOUR == 0
  }

  /** A sum over cells is the sum over the rows themselves: every row of the window is in one cell. */
  lemma {:induction false} HoursAreRows(rows: Table, from: int, n: nat, up: bool)
    requires Aligned(rows) && from % HOUR == 0
    ensures Hours(rows, from, n, up) == Sum(Within(rows, from, n), up)
  {
    if n == 0 {
      assert Within(rows, from, 0) == map[];
    } else {
      HoursAreRows(rows, from, n - 1, up);
      var last := from + (n - 1) * HOUR;
      var all, most := Within(rows, from, n), Within(rows, from, n - 1);
      forall b | b in all
        ensures b == last || b in most
      {
        if b != last {
          LastCell(b, from, n);
        }
      }
      if last in rows {
        SumRemove(all, last, up);
        assert all - {last} == most;
      } else {
        assert all == most;
      }
    }
  }

  lemma LastCell(b: int, from: int, n: nat)
    requires n > 0 && b % HOUR == 0 && from % HOUR == 0 && b < from + n * HOUR && b != from + (n - 1) * HOUR
    ensures b < from + (n - 1) * HOUR
  {
    var x, y := b / HOUR, from / HOUR;
    assert b == x * HOUR && from == y * HOUR;
    assert x < y + n && x != y + n - 1;
  }

  lemma DayAligned(now: int, days: int)
    ensures FirstDay(now, days) % HOUR == 0
    ensures FirstDay(now, days) + ClampDays(days) * DAY == DayBucket(now) + DAY
  {
    var d := now / DAY;
    assert FirstDay(now, days) == (24 * (d - (ClampDays(days) - 1))) * HOUR;
  }

  /** The roll-up is a partition: for every number of days the daily totals add up to the sum of the
      rows from the first reported day to the end of today, each row counted once. */
  lemma DailyPartition(rows: Table, now: int, days: int, up: bool)
    requires Aligned(rows)
    ensures Days(rows, FirstDay(now, days), ClampDays(days), up) ==
      Sum(Within(rows, FirstDay(now, days), 24 * ClampDays(days)), up)
  {
    DayAligned(now, days);
    DaysAreHours(rows, FirstDay(now, days), ClampDays(days), up);
    HoursAreRows(rows, FirstDay(now, days), 24 * ClampDays(days), up);
  }

  lemma {:induction false} IndexAligned(run: seq<Flush>)
    ensures Aligned(Index(run))
  {
    if run != [] {
      IndexAligned(run[..|run| - 1]);
      BucketBounds(run[|run| - 1].time);
    }
  }

  // ---------------------------------------------------------------- from flushes to days

  /** What was flushed in the `n` hours from `from` on. */
  function FlushedIn(run: seq<Flush>, from: int, n: nat, up: bool): nat {
    if run == [] then 0
    else
      var f := run[|run| - 1];
      FlushedIn(run[..|run| - 1], from, n, up) + if from <= f.time < from + n * HOUR then Side(f.bytes, up) else 0
  }

  lemma {:induction false} FlushedHours(run: seq<Flush>, from: int, n: nat, up: bool)
    requires from % HOUR == 0
    ensures FlushedIn(run, from, n + 1, up) == FlushedIn(run, from, n, up) + Flushed(run, from + n * HOUR, up)
  {
    if run != [] {
      FlushedHours(run[..|run| - 1], from, n, up);
      BucketBounds(run[|run| - 1].time);
      OneHour(run[|run| - 1].time, from, n);
    }
  }

  lemma OneHour(time: int, from: int, n: nat)
    requires from % HOUR == 0
    ensures from <= time < from + (n + 1) * HOUR <==> from <= time < from + n * HOUR || Bucket(time) == from + n * HOUR
  {
    var x, y := time / HOUR, from / HOUR;
    assert from == y * HOUR && Bucket(time) == x * HOUR;
    BucketBounds(time);
  }

  lemma {:induction false} NothingFlushed(run: seq<Flush>, from: int, up: bool)
    ensures FlushedIn(run, from, 0, up) == 0
  {
    if run != [] {
      NothingFlushed(run[..|run| - 1], from, up);
    }
  }

  lemma {:induction false} NotFlushed(run: seq<Flush>, bucket: int, up: bool)
    requires !InHour(run, bucket)
    ensures Flushed(run, bucket, up) == 0
  {
    if run != [] {
      var most := run[..|run| - 1];
      assert run == most + [run[|run| - 1]];
      InHourAppend(most, run[|run| - 1], bucket);
      NotFlushed(most, bucket, up);
    }
  }

  /** How many of `n` hours from `from` on lie before the window of the latest flush. */
  function Purged(run: seq<Flush>, from: int, n: nat): (k: nat)
    requires run != []
    ensures k <= n
  {
    var edge := Latest(run) - WINDOW;
    if edge <= from then 0 else if from + n * HOUR <= edge then n else (edge - from) / HOUR
  }

  lemma PurgedNext(run: seq<Flush>, from: int, n: nat)
    requires run != [] && from % HOUR == 0
    ensures var cell := from + n * HOUR;
      Purged(run, from, n + 1) == if cell >= Latest(run) - WINDOW then Purged(run, from, n) else n + 1
    ensures from + n * HOUR < Latest(run) - WINDOW ==> Purged(run, from, n) == n
  {
    BucketBounds(run[|run| - 1].time);
    var edge := Latest(run) - WINDOW;
    var x, y := edge / HOUR, from / HOUR;
    assert edge == x * HOUR && from == y * HOUR;
    assert edge - from == (x - y) * HOUR;
  }

  /** Any stretch of whole hours: what its rows hold and what was flushed in its purged hours together
      are everything that was flushed in it. */
  lemma {:induction false} HoursAndPurged(run: seq<Flush>, from: int, n: nat, up: bool)
    requires Forward(run) && run != [] && from % HOUR == 0
    ensures Hours(Index(run), from, n, up) + FlushedIn(run, from, Purged(run, from, n), up) ==
      FlushedIn(run, from, n, up)
  {
    hide Index, FlushedIn, Forward, Purged;
    NothingFlushed(run, from, up);
    if n == 0 {
      assert Purged(run, from, 0) == 0;
    } else {
      var cell := from + (n - 1) * HOUR;
      HoursAndPurged(run, from, n - 1, up);
      PurgedNext(run, from, n - 1);
      FlushedHours(run, from, n - 1, up);
      IndexRefinesHistory(run, cell, up);
      if !InHour(run, cell) {
        NotFlushed(run, cell, up);
      }
    }
  }

  lemma DayStart(now: int, days: int, k: nat)
    ensures (FirstDay(now, days) + k * DAY) % HOUR == 0
  {
    hide FirstDay, ClampDays;
    DayAligned(now, days);
    var hour := FirstDay(now, days) / HOUR;
    assert FirstDay(now, days) + k * DAY == (hour + 24 * k) * HOUR;
  }

  /** End to end, for every report of 1 to 30 days: the total of a day is exactly what was flushed on
      that day, if and only if nothing was flushed in those of its hours that have been purged. */
  lemma DayExactly(run: seq<Flush>, now: int, days: int, k: nat, up: bool)
    requires Forward(run) && run != [] && k < ClampDays(days)
    ensures var day := FirstDay(now, days) + k * DAY;
      && Hours(Index(run), day, 24, up) + FlushedIn(run, day, Purged(run, day, 24), up) == FlushedIn(run, day, 24, up)
      && (Hours(Index(run), day, 24, up) == FlushedIn(run, day, 24, up) <==>
          FlushedIn(run, day, Purged(run, day, 24), up) == 0)
  {
    hide Index, FlushedIn, Forward, Purged, Hours, FirstDay, ClampDays;
    DayStart(now, days, k);
    HoursAndPurged(run, FirstDay(now, days) + k * DAY, 24, up);
  }

  /** Reports of up to seven days lose nothing. */
  lemma WeekIsExact(run: seq<Flush>, now: int, days: int, k: nat, up: bool)
    requires Forward(run) && run != [] && run[|run| - 1].time <= now
    requires ClampDays(days) <= 7 && k < ClampDays(days)
    ensures var day := FirstDay(now, days) + k * DAY;
      Hours(Index(run), day, 24, up) == FlushedIn(run, day, 24, up)
  {
    hide Index, FlushedIn, Forward, Hours;
    DayAligned(now, days);
    BucketBounds(run[|run| - 1].time);
    DayExactly(run, now, days, k, up);
    NothingFlushed(run, FirstDay(now, days) + k * DAY, up);
  }
}
