/**
 * The usage-statistics screen of the mobile client: the weekly per-device
 * line chart, the per-device bar chart of one day, the 50 most recent log
 * entries, and the summary figures of a day and of the last seven days.
 * Instants are integers in ms; a day is the number of whole days since the
 * epoch, and "today" and the selected day are parameters.
 */
module DeviceHistory {
  import opened Results
  import opened Strings
  import Ordering

  /** The client's `Device`, reduced to what the screen reads. */
  datatype Device = Device(id: nat, name: string)

  /** The client's `DeviceLog`, reduced to what the screen reads. */
  datatype Log = Log(id: nat, deviceId: nat, time: int)

  const MsPerDay: nat := 86400000

  function Day(time: int): int {
    time / MsPerDay
  }

  function LogTime(l: Log): int {
    l.time
  }

  /** The logs whose day lies in `first..last`, in their original order:
      the `logTime >= start && logTime <= end` filters. */
  function WindowLogs(logs: seq<Log>, first: int, last: int): (r: seq<Log>)
    ensures forall l :: l in r <==> l in logs && first <= Day(l.time) <= last
    ensures |r| <= |logs|
  {
    if logs == [] then []
    else
      var init := logs[..|logs| - 1];
      var l := logs[|logs| - 1];
      assert logs == init + [l];
      WindowLogs(init, first, last) + (if first <= Day(l.time) <= last then [l] else [])
  }

  /** How many of `logs` belong to device `id`. */
  function CountOf(logs: seq<Log>, id: nat): (n: nat)
    ensures n <= |logs|
  {
    if logs == [] then 0
    else CountOf(logs[..|logs| - 1], id) + (if logs[|logs| - 1].deviceId == id then 1 else 0)
  }

  /** How many of `logs` belong to device `id` and fall on `day`. */
  function CountOnDay(logs: seq<Log>, id: nat, day: int): (n: nat)
    ensures n <= CountOf(logs, id)
  {
    if logs == [] then 0
    else
      var l := logs[|logs| - 1];
      CountOnDay(logs[..|logs| - 1], id, day) + (if l.deviceId == id && Day(l.time) == day then 1 else 0)
  }

  lemma {:induction false} CountPositiveIff(logs: seq<Log>, id: nat)
    ensures CountOf(logs, id) > 0 <==> exists l :: l in logs && l.deviceId == id
  {
    if logs != [] {
      var init := logs[..|logs| - 1];
      assert logs == init + [logs[|logs| - 1]];
      CountPositiveIff(init, id);
    }
  }

  /** A weekly bucket counts the same logs as the day's bar does. */
  lemma {:induction false} BucketIsDailyCount(logs: seq<Log>, id: nat, day: int)
    ensures CountOnDay(logs, id, day) == CountOf(WindowLogs(logs, day, day), id)
  {
    if logs != [] {
      var init := logs[..|logs| - 1];
      var l := logs[|logs| - 1];
      BucketIsDailyCount(init, id, day);
      var w := WindowLogs(init, day, day);
      if Day(l.time) == day {
        assert (w + [l])[..|w + [l]| - 1] == w;
      } else {
        assert WindowLogs(logs, day, day) == w;
      }
    }
  }

  /** Restricting the logs to a window keeps every day inside it intact. */
  lemma {:induction false} WindowKeepsDays(logs: seq<Log>, first: int, last: int, id: nat, day: int)
    requires first <= day <= last
    ensures CountOnDay(WindowLogs(logs, first, last), id, day) == CountOnDay(logs, id, day)
  {
    if logs != [] {
      var init := logs[..|logs| - 1];
      var l := logs[|logs| - 1];
      var bump := if l.deviceId == id && Day(l.time) == day then 1 else 0;
      WindowKeepsDays(init, first, last, id, day);
      var w := WindowLogs(init, first, last);
      assert CountOnDay(logs, id, day) == CountOnDay(init, id, day) + bump;
      if first <= Day(l.time) <= last {
        var w' := w + [l];
        assert WindowLogs(logs, first, last) == w';
        assert w'[..|w'| - 1] == w && w'[|w'| - 1] == l;
        assert CountOnDay(w', id, day) == CountOnDay(w, id, day) + bump;
      } else {
        assert WindowLogs(logs, first, last) == w;
      }
    }
  }

  // ----- the weekly chart -----

  /** The first day of the week shown: the window ends `7 * weekOffset`
      days before today and spans seven days. */
  function WeekStart(today: int, weekOffset: int): int {
    today - 7 * weekOffset - 6
  }

  /** `dateKeys`: the seven consecutive days from `start`. */
  function DateKeys(start: int): (r: seq<int>)
    ensures |r| == 7
    ensures forall i :: 0 <= i < 7 ==> r[i] == start + i
  {
    seq(7, i => start + i)
  }

  /** `dateKeys.indexOf(day)`. */
  function KeyIndex(keys: seq<int>, day: int): (r: int)
    ensures -1 <= r < |keys|
    ensures r == -1 <==> day !in keys
    ensures r >= 0 ==> keys[r] == day && forall j :: 0 <= j < r ==> keys[j] != day
  {
    if keys == [] then -1
    else if keys[0] == day then 0
    else
      var r := KeyIndex(keys[1..], day);
      if r == -1 then -1 else r + 1
  }

  /** The window is the seven days ending `7 * weekOffset` days before
      today, and a day's bucket index is its distance from the start. */
  lemma WeekWindow(today: int, weekOffset: int, day: int)
    ensures var keys := DateKeys(WeekStart(today, weekOffset));
      keys[6] == today - 7 * weekOffset &&
      (forall i :: 0 <= i < 6 ==> keys[i + 1] == keys[i] + 1) &&
      (keys[0] <= day <= keys[6] ==> KeyIndex(keys, day) == day - keys[0]) &&
      (day < keys[0] || keys[6] < day ==> KeyIndex(keys, day) == -1)
  {
    var keys := DateKeys(WeekStart(today, weekOffset));
    if keys[0] <= day <= keys[6] {
      assert keys[day - keys[0]] == day;
    }
  }

  const Zeros7: seq<nat> := [0, 0, 0, 0, 0, 0, 0]

  /** The ids of the devices listed. */
  function IdSet(devices: seq<Device>): set<nat> {
    set d | d in devices :: d.id
  }

  /** The name `deviceData[id]` ends up with: that of the last listed
      device with this id. */
  function LastName(devices: seq<Device>, id: nat): string {
    if devices == [] then ""
    else if devices[|devices| - 1].id == id then devices[|devices| - 1].name
    else LastName(devices[..|devices| - 1], id)
  }

  function Sum(s: seq<nat>): nat {
    if s == [] then 0 else s[0] + Sum(s[1..])
  }

  lemma {:induction false} SumBump(s: seq<nat>, k: nat)
    requires k < |s|
    ensures Sum(s[k := s[k] + 1]) == Sum(s) + 1
  {
    if k > 0 {
      assert s[k := s[k] + 1][1..] == s[1..][k - 1 := s[k] + 1];
      SumBump(s[1..], k - 1);
    }
  }

  /** The sum of all buckets of the devices `ids`. */
  function Total(ids: seq<nat>, data: map<nat, seq<nat>>): nat {
    if ids == [] then 0
    else (if ids[0] in data then Sum(data[ids[0]]) else 0) + Total(ids[1..], data)
  }

  lemma {:induction false} TotalUnaffected(ids: seq<nat>, data: map<nat, seq<nat>>, id: nat, row: seq<nat>)
    requires id !in ids
    ensures Total(ids, data[id := row]) == Total(ids, data)
  {
    if ids != [] {
      TotalUnaffected(ids[1..], data, id, row);
    }
  }

  lemma {:induction false} TotalBump(ids: seq<nat>, data: map<nat, seq<nat>>, id: nat, k: nat)
    requires Ordering.StrictlyAscending(ids) && id in ids && id in data && k < |data[id]|
    ensures Total(ids, data[id := data[id][k := data[id][k] + 1]]) == Total(ids, data) + 1
  {
    var row := data[id][k := data[id][k] + 1];
    if ids[0] == id {
      assert id !in ids[1..];
      TotalUnaffected(ids[1..], data, id, row);
      SumBump(data[id], k);
    } else {
      TotalBump(ids[1..], data, id, k);
    }
  }

  /** The rows of `deviceData` before any log is counted: seven zeroes
      under the id of every listed device, and the name of the last device
      listed with that id. */
  method InitialRows(devices: seq<Device>) returns (data: map<nat, seq<nat>>, names: map<nat, string>)
    ensures data.Keys == IdSet(devices) && names.Keys == IdSet(devices)
    ensures forall id :: id in data ==> data[id] == Zeros7
    ensures forall id :: id in names ==> names[id] == LastName(devices, id)
  {
    data := map[];
    names := map[];
    for i := 0 to |devices|
      invariant data.Keys == IdSet(devices[..i]) && names.Keys == IdSet(devices[..i])
      invariant forall id :: id in data ==> data[id] == Zeros7
      invariant forall id :: id in names ==> names[id] == LastName(devices[..i], id)
    {
      assert devices[..i + 1][..i] == devices[..i];
      assert IdSet(devices[..i + 1]) == IdSet(devices[..i]) + {devices[i].id};
      data := data[devices[i].id := Zeros7];
      names := names[devices[i].id := devices[i].name];
    }
    assert devices[..|devices|] == devices;
  }

  /** The seven buckets of device `id` for the week from `start`. */
  function WeekRow(logs: seq<Log>, id: nat, start: int): (r: seq<nat>)
    ensures |r| == 7 && forall k :: 0 <= k < 7 ==> r[k] == CountOnDay(logs, id, start + k)
  {
    [CountOnDay(logs, id, start), CountOnDay(logs, id, start + 1), CountOnDay(logs, id, start + 2),
     CountOnDay(logs, id, start + 3), CountOnDay(logs, id, start + 4), CountOnDay(logs, id, start + 5),
     CountOnDay(logs, id, start + 6)]
  }

  /** One more log adds one to exactly the bucket of its device and day,
      if that day is in the week. */
  lemma WeekRowAppended(logs: seq<Log>, l: Log, id: nat, start: int)
    ensures var k := KeyIndex(DateKeys(start), Day(l.time));
      WeekRow(logs + [l], id, start) ==
        if id == l.deviceId && k != -1 then WeekRow(logs, id, start)[k := WeekRow(logs, id, start)[k] + 1]
        else WeekRow(logs, id, start)
  {
    CountOnDayAppended(logs, l);
    KeyIndexOfDay(start, Day(l.time));
  }

  /** Every row holds the week's counts of the logs `seen`. */
  predicate RowsMatch(rows: map<nat, seq<nat>>, seen: seq<Log>, start: int) {
    forall id :: id in rows ==> rows[id] == WeekRow(seen, id, start)
  }

  /** A log of a known device on a day of the week adds one to that
      device's bucket of that day, which keeps every row equal to the counts
      of the logs seen so far. */
  lemma RowsBump(rows: map<nat, seq<nat>>, seen: seq<Log>, l: Log, start: int, k: int)
    requires RowsMatch(rows, seen, start)
    requires k == KeyIndex(DateKeys(start), Day(l.time)) && l.deviceId in rows && 0 <= k < |rows[l.deviceId]|
    ensures RowsMatch(rows[l.deviceId := rows[l.deviceId][k := rows[l.deviceId][k] + 1]], seen + [l], start)
  {
    forall id | id in rows {
      WeekRowAppended(seen, l, id, start);
    }
  }

  /** Any other log leaves every row equal to the counts of the logs seen
      so far. */
  lemma RowsKeep(rows: map<nat, seq<nat>>, seen: seq<Log>, l: Log, start: int)
    requires RowsMatch(rows, seen, start)
    requires KeyIndex(DateKeys(start), Day(l.time)) == -1 || l.deviceId !in rows
    ensures RowsMatch(rows, seen + [l], start)
  {
    forall id | id in rows {
      WeekRowAppended(seen, l, id, start);
    }
  }

  lemma RowLength(rows: map<nat, seq<nat>>, seen: seq<Log>, start: int, id: nat)
    requires RowsMatch(rows, seen, start) && id in rows
    ensures |rows[id]| == 7
  {
  }

  /** A counted log keeps the rows equal to the counts and adds exactly
      one to the total. */
  lemma CountedStep(data: map<nat, seq<nat>>, seen: seq<Log>, l: Log, start: int, ids: seq<nat>)
    requires RowsMatch(data, seen, start) && l.deviceId in data
    requires Ordering.StrictlyAscending(ids) && forall id :: id in data ==> id in ids
    requires KeyIndex(DateKeys(start), Day(l.time)) != -1
    ensures var k := KeyIndex(DateKeys(start), Day(l.time));
      k < |data[l.deviceId]| &&
      var next := data[l.deviceId := data[l.deviceId][k := data[l.deviceId][k] + 1]];
      RowsMatch(next, seen + [l], start) && Total(ids, next) == Total(ids, data) + 1
  {
    var k := KeyIndex(DateKeys(start), Day(l.time));
    RowLength(data, seen, start, l.deviceId);
    TotalBump(ids, data, l.deviceId, k);
    RowsBump(data, seen, l, start, k);
  }

  lemma RowsInitial(rows: map<nat, seq<nat>>, start: int)
    requires forall id :: id in rows ==> rows[id] == Zeros7
    ensures RowsMatch(rows, [], start)
  {
    assert forall id :: WeekRow([], id, start) == Zeros7;
  }

  /** One step of the `weeklyLogs.forEach` of `getWeeklyData`: a log of a
      known device whose day is one of the seven keys adds one to that
      day's bucket. */
  method CountLog(data: map<nat, seq<nat>>, ghost seen: seq<Log>, log: Log, start: int, ghost ids: seq<nat>)
    returns (next: map<nat, seq<nat>>)
    requires RowsMatch(data, seen, start)
    requires Ordering.StrictlyAscending(ids) && forall id :: id in data ==> id in ids
    ensures next.Keys == data.Keys
    ensures RowsMatch(next, seen + [log], start)
    ensures Total(ids, next) <= Total(ids, data) + 1
  {
    var dayIndex := KeyIndex(DateKeys(start), Day(log.time));
    if dayIndex != -1 && log.deviceId in data {
      var row := data[log.deviceId];
      CountedStep(data, seen, log, start, ids);
      next := data[log.deviceId := row[dayIndex := row[dayIndex] + 1]];
    } else {
      RowsKeep(data, seen, log, start);
      next := data;
    }
  }

  /** The `weeklyLogs.forEach` of `getWeeklyData`: the buckets count the
      logs by device and day, and each log adds at most one to the
      total. */
  method CountWeek(rows: map<nat, seq<nat>>, weekly: seq<Log>, start: int) returns (data: map<nat, seq<nat>>)
    requires forall id :: id in rows ==> rows[id] == Zeros7
    ensures data.Keys == rows.Keys
    ensures RowsMatch(data, weekly, start)
    ensures Total(Ordering.SortedIds(data.Keys), data) <= |weekly|
  {
    data := rows;
    ghost var ids := Ordering.SortedIds(rows.Keys);
    assert Total(ids, data) == 0 by {
      ZeroTotal(ids, data);
    }
    RowsInitial(rows, start);
    assert weekly[..0] == [];
    for i := 0 to |weekly|
      invariant data.Keys == rows.Keys
      invariant RowsMatch(data, weekly[..i], start)
      invariant Total(ids, data) <= i
    {
      assert weekly[..i + 1] == weekly[..i] + [weekly[i]];
      data := CountLog(data, weekly[..i], weekly[i], start, ids);
    }
    assert weekly[..|weekly|] == weekly;
  }

  lemma CountOnDayAppended(logs: seq<Log>, l: Log)
    ensures forall id, day :: CountOnDay(logs + [l], id, day) ==
              CountOnDay(logs, id, day) + (if l.deviceId == id && Day(l.time) == day then 1 else 0)
  {
    assert (logs + [l])[..|logs|] == logs;
  }

  /** A day's index among the keys of the week starting at `start`. */
  lemma KeyIndexOfDay(start: int, day: int)
    ensures start <= day <= start + 6 ==> KeyIndex(DateKeys(start), day) == day - start
    ensures day < start || start + 6 < day ==> KeyIndex(DateKeys(start), day) == -1
  {
    var keys := DateKeys(start);
    if start <= day <= start + 6 {
      assert keys[day - start] == day;
    }
  }

  lemma {:induction false} ZeroTotal(ids: seq<nat>, data: map<nat, seq<nat>>)
    requires forall id :: id in data ==> data[id] == Zeros7
    ensures Total(ids, data) == 0
  {
    if ids != [] {
      ZeroTotal(ids[1..], data);
    }
  }

  /** A week's row is the same whether the logs are first restricted to
      that week or not. */
  lemma WeekRowOfWindow(logs: seq<Log>, id: nat, start: int)
    ensures WeekRow(WindowLogs(logs, start, start + 6), id, start) == WeekRow(logs, id, start)
  {
    WindowKeepsDays(logs, start, start + 6, id, start);
    WindowKeepsDays(logs, start, start + 6, id, start + 1);
    WindowKeepsDays(logs, start, start + 6, id, start + 2);
    WindowKeepsDays(logs, start, start + 6, id, start + 3);
    WindowKeepsDays(logs, start, start + 6, id, start + 4);
    WindowKeepsDays(logs, start, start + 6, id, start + 5);
    WindowKeepsDays(logs, start, start + 6, id, start + 6);
  }

  /** One row of daily counts and one name per listed device. */
  predicate WeekBuckets(devices: seq<Device>, logs: seq<Log>, start: int,
                        data: map<nat, seq<nat>>, names: map<nat, string>) {
    data.Keys == IdSet(devices) && names.Keys == IdSet(devices) &&
    (forall id :: id in names ==> names[id] == LastName(devices, id)) &&
    (forall id :: id in data ==> data[id] == WeekRow(logs, id, start))
  }

  /** The first part of `getWeeklyData`: one row of seven buckets per
      listed device, each bucket the number of that device's logs on that
      day; the buckets add up to at most the number of logs in the week. */
  method WeeklyBuckets(devices: seq<Device>, logs: seq<Log>, start: int)
    returns (data: map<nat, seq<nat>>, names: map<nat, string>)
    ensures WeekBuckets(devices, logs, start, data, names)
    ensures Total(Ordering.SortedIds(data.Keys), data) <= |WindowLogs(logs, start, start + 6)|
  {
    var rows;
    rows, names := InitialRows(devices);
    var weekly := WindowLogs(logs, start, start + 6);
    data := CountWeek(rows, weekly, start);
    forall id | id in data
      ensures data[id] == WeekRow(logs, id, start)
    {
      WeekRowOfWindow(logs, id, start);
    }
  }

  /** `device.data.some(val => val > 0)`. */
  predicate Active(row: seq<nat>) {
    row != [] && (row[0] > 0 || Active(row[1..]))
  }

  /** The ids, in their order, whose rows have a nonzero bucket. */
  function ActiveOf(ids: seq<nat>, data: map<nat, seq<nat>>): (r: seq<nat>)
    ensures forall id :: id in r <==> id in ids && id in data && Active(data[id])
  {
    if ids == [] then []
    else
      var rest := ActiveOf(ids[1..], data);
      (if ids[0] in data && Active(data[ids[0]]) then [ids[0]] else []) + rest
  }

  lemma {:induction false} ActiveOfAscending(ids: seq<nat>, data: map<nat, seq<nat>>)
    requires Ordering.StrictlyAscending(ids)
    ensures Ordering.StrictlyAscending(ActiveOf(ids, data))
  {
    if ids != [] {
      var rest := ActiveOf(ids[1..], data);
      ActiveOfAscending(ids[1..], data);
      HeadBelowTail(ids);
      if ids[0] in data && Active(data[ids[0]]) {
        ConsAscending(ids[0], rest);
      }
    }
  }

  lemma HeadBelowTail(ids: seq<nat>)
    requires ids != [] && Ordering.StrictlyAscending(ids)
    ensures forall y :: y in ids[1..] ==> ids[0] < y
  {
    forall y | y in ids[1..]
      ensures ids[0] < y
    {
      var m :| 0 <= m < |ids[1..]| && ids[1..][m] == y;
      assert ids[m + 1] == y;
    }
  }

  lemma ConsAscending(x: nat, s: seq<nat>)
    requires Ordering.StrictlyAscending(s) && forall y :: y in s ==> x < y
    ensures Ordering.StrictlyAscending([x] + s)
  {
    var r := [x] + s;
    forall a, b | 0 <= a < b < |r|
      ensures r[a] < r[b]
    {
      assert r[b] == s[b - 1];
      if a > 0 {
        assert r[a] == s[a - 1];
      } else {
        assert s[b - 1] in s;
      }
    }
  }

  /** The devices the chart shows: the first seven with activity in
      ascending id order (the enumeration order of integer object keys). */
  function ChartIds(data: map<nat, seq<nat>>): seq<nat> {
    Ordering.Take(ActiveOf(Ordering.SortedIds(data.Keys), data), 7)
  }

  /** The first `n` of an ascending sequence are ascending, and any
      element left out is larger than all of them. */
  lemma TakeOfAscending(all: seq<nat>, n: nat)
    requires Ordering.StrictlyAscending(all) && n > 0
    ensures var taken := Ordering.Take(all, n);
      Ordering.StrictlyAscending(taken) && (forall x :: x in taken ==> x in all) &&
      forall x :: x in all && x !in taken ==> n > 0 && |taken| == n && taken[n - 1] < x
  {
    var taken := Ordering.Take(all, n);
    forall x | x in all && x !in taken
      ensures n > 0 && |taken| == n && taken[n - 1] < x
    {
      var j :| 0 <= j < |all| && all[j] == x;
      assert j >= |taken|;
      assert |taken| == n;
      assert taken[n - 1] == all[n - 1];
    }
  }

  /** The shown devices are active, ascending and at most seven; an active
      device is left out only when seven smaller active ids are shown. */
  lemma ChartIdsAreFirstActive(data: map<nat, seq<nat>>)
    ensures var ids := ChartIds(data);
      |ids| <= 7 && Ordering.StrictlyAscending(ids) &&
      (forall id :: id in ids ==> id in data && Active(data[id])) &&
      (forall id :: id in data && Active(data[id]) && id !in ids ==> |ids| == 7 && ids[6] < id)
  {
    var sorted := Ordering.SortedIds(data.Keys);
    ActiveOfAscending(sorted, data);
    TakeOfAscending(ActiveOf(sorted, data), 7);
  }

  datatype WeeklyChart = WeeklyChart(keys: seq<int>, datasets: seq<seq<nat>>, legend: seq<string>)

  /** The shown ids are keys of the rows. */
  lemma ChartIdsKnown(data: map<nat, seq<nat>>)
    ensures forall id :: id in ChartIds(data) ==> id in data
  {
    var all := ActiveOf(Ordering.SortedIds(data.Keys), data);
    assert forall id :: id in ChartIds(data) ==> id in all;
  }

  /** `ids.map(id => m[id])`: the entry of each shown id, in order (the
      datasets from the rows, the legend from the names). */
  function Pick<T>(ids: seq<nat>, m: map<nat, T>): (r: seq<T>)
    requires forall id :: id in ids ==> id in m
    ensures |r| == |ids| && forall i :: 0 <= i < |ids| ==> r[i] == m[ids[i]]
  {
    if ids == [] then [] else [m[ids[0]]] + Pick(ids[1..], m)
  }

  /** The rest of `getWeeklyData`: one dataset and one legend entry per
      shown device, or a single row of zeroes and no legend. */
  function Weekly(data: map<nat, seq<nat>>, names: map<nat, string>, start: int): (r: WeeklyChart)
    requires data.Keys == names.Keys
    ensures r.keys == DateKeys(start)
    ensures 1 <= |r.datasets| <= 7
    ensures ChartIds(data) == [] ==> r.datasets == [Zeros7] && r.legend == []
    ensures ChartIds(data) != [] ==>
              r.datasets == Pick(ChartIds(data), data) && r.legend == Pick(ChartIds(data), names)
  {
    ChartIdsKnown(data);
    var ids := ChartIds(data);
    WeeklyChart(DateKeys(start), if ids != [] then Pick(ids, data) else [Zeros7], Pick(ids, names))
  }

  /** A dataset with its legend entry is the week's counts of a listed
      device under that device's name. */
  predicate ListedRow(devices: seq<Device>, logs: seq<Log>, start: int, name: string, row: seq<nat>) {
    exists d :: d in devices && name == LastName(devices, d.id) && row == WeekRow(logs, d.id, start)
  }

  /** `getWeeklyData`: seven day keys ending `7 * weekOffset` days before
      today, and each shown dataset is the daily counts of a listed device
      under that device's name. */
  method GetWeeklyData(devices: seq<Device>, logs: seq<Log>, today: int, weekOffset: int) returns (r: WeeklyChart)
    ensures r.keys == DateKeys(WeekStart(today, weekOffset)) && r.keys[6] == today - 7 * weekOffset
    ensures 1 <= |r.datasets| <= 7 && (r.legend == [] || |r.legend| == |r.datasets|)
    ensures r.legend == [] ==> r.datasets == [Zeros7]
    ensures forall i :: 0 <= i < |r.legend| ==>
              ListedRow(devices, logs, WeekStart(today, weekOffset), r.legend[i], r.datasets[i])
    ensures r.legend == [] <==> !AnyActive(devices, logs, WeekStart(today, weekOffset))
    ensures exists data, names :: WeekBuckets(devices, logs, WeekStart(today, weekOffset), data, names) &&
              r == Weekly(data, names, WeekStart(today, weekOffset))
  {
    var start := WeekStart(today, weekOffset);
    var data, names := WeeklyBuckets(devices, logs, start);
    BucketsShape(devices, logs, start, data, names);
    r := Weekly(data, names, start);
    ChartIdsKnown(data);
    ListedRows(devices, logs, start, data, names, ChartIds(data));
    ChartEmptyIff(devices, logs, start, data, names);
  }

  /** Some listed device has a log in the week starting at `start`. */
  predicate AnyActive(devices: seq<Device>, logs: seq<Log>, start: int) {
    exists d :: d in devices && Active(WeekRow(logs, d.id, start))
  }

  /** The chart shows no device exactly when no listed device has a log in
      the week. */
  lemma ChartEmptyIff(devices: seq<Device>, logs: seq<Log>, start: int,
                      data: map<nat, seq<nat>>, names: map<nat, string>)
    requires WeekBuckets(devices, logs, start, data, names)
    ensures ChartIds(data) == [] <==> !AnyActive(devices, logs, start)
  {
    var all := ActiveOf(Ordering.SortedIds(data.Keys), data);
    if AnyActive(devices, logs, start) {
      var d :| d in devices && Active(WeekRow(logs, d.id, start));
      assert d.id in IdSet(devices);
      assert d.id in all;
    }
    if ChartIds(data) != [] {
      var id := ChartIds(data)[0];
      assert id == all[0];
      assert id in all;
      assert id in IdSet(devices);
      var d :| d in devices && d.id == id;
      assert Active(WeekRow(logs, d.id, start));
    }
  }

  /** Each listed device has a name and a row. */
  lemma BucketsShape(devices: seq<Device>, logs: seq<Log>, start: int,
                     data: map<nat, seq<nat>>, names: map<nat, string>)
    requires WeekBuckets(devices, logs, start, data, names)
    ensures data.Keys == names.Keys
  {
  }

  /** Every row and name the chart picks belongs to a listed device. */
  lemma ListedRows(devices: seq<Device>, logs: seq<Log>, start: int,
                   data: map<nat, seq<nat>>, names: map<nat, string>, ids: seq<nat>)
    requires WeekBuckets(devices, logs, start, data, names)
    requires forall id :: id in ids ==> id in data
    ensures forall i :: 0 <= i < |ids| ==>
              ListedRow(devices, logs, start, Pick(ids, names)[i], Pick(ids, data)[i])
  {
    forall i | 0 <= i < |ids|
      ensures ListedRow(devices, logs, start, Pick(ids, names)[i], Pick(ids, data)[i])
    {
      var id := ids[i];
      assert id in IdSet(devices);
      var d :| d in devices && d.id == id;
      assert Pick(ids, names)[i] == LastName(devices, d.id) && Pick(ids, data)[i] == WeekRow(logs, d.id, start);
    }
  }

  // ----- the daily bar chart -----

  const NoActivity: string := "Không có hoạt động"
  const BarWidth: int := 60

  /** A bar label: names longer than ten characters are cut to ten and
      marked with '...'. */
  function Truncate(name: string): (r: string)
    ensures |name| <= 10 ==> r == name
    ensures |name| > 10 ==> |r| == 13 && r[..10] == name[..10] && r[10..] == "..."
  {
    if |name| > 10 then name[..10] + "..." else name
  }

  /** `displayDevices`: the listed devices with a log among `dayLogs`, in
      list order. */
  function DisplayDevices(devices: seq<Device>, dayLogs: seq<Log>): (r: seq<Device>)
    ensures forall d :: d in r <==> d in devices && CountOf(dayLogs, d.id) > 0
    ensures |r| <= |devices|
  {
    if devices == [] then []
    else
      (if CountOf(dayLogs, devices[0].id) > 0 then [devices[0]] else []) + DisplayDevices(devices[1..], dayLogs)
  }

  datatype DailyChart = DailyChart(labels: seq<string>, data: seq<nat>, width: int)

  function Max(a: int, b: int): int {
    if a >= b then a else b
  }

  /** `getDailyDeviceData` for the selected day and the screen width. */
  function DailyDeviceData(devices: seq<Device>, logs: seq<Log>, day: int, screenWidth: int): (r: DailyChart)
    ensures |r.labels| == |r.data| >= 1
    ensures var shown := DisplayDevices(devices, WindowLogs(logs, day, day));
      (shown == [] ==> r == DailyChart([NoActivity], [0], screenWidth - 40)) &&
      (shown != [] ==>
         |r.data| == |shown| && r.width == Max(screenWidth - 40, BarWidth * |shown|) &&
         forall i :: 0 <= i < |shown| ==>
           r.labels[i] == Truncate(shown[i].name) && r.data[i] == CountOnDay(logs, shown[i].id, day) &&
           r.data[i] >= 1)
  {
    var dailyLogs := WindowLogs(logs, day, day);
    var shown := DisplayDevices(devices, dailyLogs);
    if shown == [] then DailyChart([NoActivity], [0], screenWidth - 40)
    else
      var labels := seq(|shown|, i requires 0 <= i < |shown| => Truncate(shown[i].name));
      var data := seq(|shown|, i requires 0 <= i < |shown| => CountOf(dailyLogs, shown[i].id));
      assert forall i :: 0 <= i < |shown| ==> shown[i] in shown;
      assert forall i :: 0 <= i < |shown| ==> data[i] == CountOnDay(logs, shown[i].id, day) by {
        forall i | 0 <= i < |shown| {
          BucketIsDailyCount(logs, shown[i].id, day);
        }
      }
      DailyChart(labels, data, Max(screenWidth - 40, BarWidth * |labels|))
  }

  // ----- recent logs -----

  const RecentCount: nat := 50

  /** What `getRecentLogs` returns: at most 50 logs, newest first, taken
      from the logs, and none left out is newer than one kept. */
  lemma RecentLogsAreNewest(logs: seq<Log>)
    ensures var sorted := Ordering.SortDesc(logs, LogTime);
      var r := Ordering.Take(sorted, RecentCount);
      |r| <= RecentCount && Ordering.SortedDesc(r, LogTime) && multiset(r) <= multiset(logs) &&
      (|logs| <= RecentCount ==> multiset(r) == multiset(logs)) &&
      forall i, j :: 0 <= i < |r| <= j < |sorted| ==> sorted[j].time <= r[i].time
  {
    var sorted := Ordering.SortDesc(logs, LogTime);
    var r := Ordering.Take(sorted, RecentCount);
    assert sorted == r + sorted[|r|..];
    assert multiset(sorted) == multiset(r) + multiset(sorted[|r|..]);
    Ordering.TakeKeepsOrder(sorted, RecentCount, LogTime);
    if |logs| <= RecentCount {
      assert r == sorted;
    }
    forall i, j | 0 <= i < |r| <= j < |sorted|
      ensures sorted[j].time <= r[i].time
    {
      assert r[i] == sorted[i] && LogTime(sorted[i]) >= LogTime(sorted[j]);
    }
  }

  /** `getRecentLogs`: sorts the screen's log array in place, newest first
      (stably), and returns its first 50 entries. */
  method GetRecentLogs(logs: array<Log>) returns (r: seq<Log>)
    modifies logs
    ensures logs[..] == Ordering.SortDesc(old(logs[..]), LogTime)
    ensures r == Ordering.Take(logs[..], RecentCount)
  {
    var sorted := Ordering.SortDesc(logs[..], LogTime);
    for i := 0 to logs.Length
      invariant logs[..i] == sorted[..i]
    {
      logs[i] := sorted[i];
      assert logs[..i + 1] == logs[..i] + [sorted[i]];
      assert sorted[..i + 1] == sorted[..i] + [sorted[i]];
    }
    assert logs[..] == logs[..logs.Length] && sorted == sorted[..|sorted|];
    r := Ordering.Take(logs[..], RecentCount);
  }

  // ----- summary figures -----

  datatype WeekStats = WeekStats(total: nat, average: nat)

  /** `get7DayStats`: the logs of today and the six days before, and their
      number divided by seven, rounded half up (`Math.round`). */
  function SevenDayStats(logs: seq<Log>, today: int): (r: WeekStats)
    ensures r.total == |WindowLogs(logs, today - 6, today)|
    ensures r.total == 0 ==> r.average == 0
    ensures -7 <= 14 * r.average - 2 * r.total <= 7
  {
    var total := |WindowLogs(logs, today - 6, today)|;
    WeekStats(total, if total > 0 then (2 * total + 7) / 14 else 0)
  }

  /** The set of device ids among `logs`: the keys of `deviceUsage`. */
  function DeviceIds(logs: seq<Log>): set<nat> {
    set l | l in logs :: l.deviceId
  }

  lemma LogAppended(logs: seq<Log>, l: Log)
    ensures DeviceIds(logs + [l]) == DeviceIds(logs) + {l.deviceId}
    ensures forall id :: CountOf(logs + [l], id) == CountOf(logs, id) + (if l.deviceId == id then 1 else 0)
  {
    assert (logs + [l])[..|logs|] == logs;
  }

  /** `usage` counts the logs of each device that has any. */
  predicate UsageOf(usage: map<nat, nat>, logs: seq<Log>) {
    usage.Keys == DeviceIds(logs) &&
    forall id :: id in usage ==> usage[id] == CountOf(logs, id) && usage[id] > 0
  }

  /** One more log adds one to its device's count, starting from zero. */
  lemma UsageStep(usage: map<nat, nat>, logs: seq<Log>, l: Log)
    requires UsageOf(usage, logs)
    ensures UsageOf(usage[l.deviceId := (if l.deviceId in usage then usage[l.deviceId] else 0) + 1], logs + [l])
  {
    LogAppended(logs, l);
    var next := usage[l.deviceId := (if l.deviceId in usage then usage[l.deviceId] else 0) + 1];
    assert next.Keys == usage.Keys + {l.deviceId};
    forall id | id in next
      ensures next[id] == CountOf(logs + [l], id) && next[id] > 0
    {
      if id != l.deviceId {
        assert next[id] == usage[id];
      } else if id !in usage {
        CountPositiveIff(logs, id);
      }
    }
  }

  /** The `forEach` of `getDailyStats` that fills `deviceUsage`. */
  method DeviceUsage(dayLogs: seq<Log>) returns (usage: map<nat, nat>)
    ensures usage.Keys == DeviceIds(dayLogs)
    ensures forall id :: id in usage ==> usage[id] == CountOf(dayLogs, id) && usage[id] > 0
  {
    usage := map[];
    for i := 0 to |dayLogs|
      invariant UsageOf(usage, dayLogs[..i])
    {
      var id := dayLogs[i].deviceId;
      assert dayLogs[..i + 1] == dayLogs[..i] + [dayLogs[i]];
      UsageStep(usage, dayLogs[..i], dayLogs[i]);
      if id !in usage || usage[id] == 0 {
        usage := usage[id := 0];
      }
      usage := usage[id := usage[id] + 1];
    }
    assert dayLogs[..|dayLogs|] == dayLogs;
  }

  /** `Object.keys(deviceUsage).reduce((a, b) => usage[a] > usage[b] ? a : b)`
      as an index into the keys: the accumulator is kept only while it is
      strictly larger, so the last key with the largest count wins. */
  function TopIndex(keys: seq<nat>, usage: map<nat, nat>): (i: nat)
    requires keys != [] && forall k :: k in keys ==> k in usage
    ensures i < |keys|
    ensures forall j :: 0 <= j < |keys| ==> usage[keys[j]] <= usage[keys[i]]
    ensures forall j :: i < j < |keys| ==> usage[keys[j]] < usage[keys[i]]
  {
    if |keys| == 1 then 0
    else
      var a := TopIndex(keys[..|keys| - 1], usage);
      var b := |keys| - 1;
      assert forall j :: 0 <= j < b ==> keys[..b][j] == keys[j];
      if usage[keys[a]] > usage[keys[b]] then a else b
  }

  /** The id `getDailyStats` picks as the top device, if any log exists. */
  function TopDeviceId(usage: map<nat, nat>): (r: Option<nat>)
    ensures r.None? <==> usage == map[]
    ensures r.Some? ==> r.value in usage
    ensures r.Some? ==> forall id :: id in usage ==>
              (usage[id] < usage[r.value] || (usage[id] == usage[r.value] && id <= r.value))
  {
    var keys := Ordering.SortedIds(usage.Keys);
    if keys == [] then
      assert usage.Keys == {};
      None
    else
      TopIndexWins(keys, usage);
      Some(keys[TopIndex(keys, usage)])
  }

  /** Over ascending keys, the picked key has the largest count, and the
      largest id among those with that count. */
  lemma TopIndexWins(keys: seq<nat>, usage: map<nat, nat>)
    requires keys != [] && Ordering.StrictlyAscending(keys) && forall k :: k in keys ==> k in usage
    ensures var top := keys[TopIndex(keys, usage)];
      forall id :: id in keys ==> usage[id] < usage[top] || (usage[id] == usage[top] && id <= top)
  {
    var i := TopIndex(keys, usage);
    forall id | id in keys
      ensures usage[id] < usage[keys[i]] || (usage[id] == usage[keys[i]] && id <= keys[i])
    {
      var j :| 0 <= j < |keys| && keys[j] == id;
      if j > i {
        assert usage[keys[j]] < usage[keys[i]];
      } else if j < i {
        assert keys[j] < keys[i];
      }
    }
  }

  /** A JavaScript value as `===` compares it: a number never equals a
      string. */
  datatype JsValue = Num(n: int) | Str(s: string)

  /** `devices.find(d => d.id === key)?.name`. */
  function FindName(devices: seq<Device>, key: JsValue): (r: Option<string>)
    ensures r.Some? ==> exists d :: d in devices && Num(d.id) == key && d.name == r.value
    ensures r.None? ==> forall d :: d in devices ==> Num(d.id) != key
  {
    if devices == [] then None
    else if Num(devices[0].id) == key then Some(devices[0].name)
    else FindName(devices[1..], key)
  }

  /** `?.name || 'N/A'`. */
  function NameOrNA(name: Option<string>): (r: string)
    ensures name.Some? && name.value != "" ==> r == name.value
    ensures name.None? || name.value == "" ==> r == "N/A"
  {
    if name.Some? && name.value != "" then name.value else "N/A"
  }

  datatype DayStats = DayStats(total: nat, deviceCount: nat, topDevice: string)

  /** The top device's name as written: the id comes back as an object key,
      a string, and is compared with the numeric `d.id`. */
  function TopNameAsWritten(devices: seq<Device>, usage: map<nat, nat>): string {
    match TopDeviceId(usage)
    case None => "N/A"
    case Some(id) => NameOrNA(FindName(devices, Str(NatToString(id))))
  }

  /** The evidently intended name: the key compared as a number. */
  function TopName(devices: seq<Device>, usage: map<nat, nat>): string {
    match TopDeviceId(usage)
    case None => "N/A"
    case Some(id) => NameOrNA(FindName(devices, Num(id)))
  }

  /** As written, no device is ever found, so the top device is always
      shown as 'N/A'. */
  lemma TopDeviceAsWrittenIsAlwaysNA(devices: seq<Device>, usage: map<nat, nat>)
    ensures TopNameAsWritten(devices, usage) == "N/A"
  {
    if TopDeviceId(usage).Some? {
      NoDeviceHasStringId(devices, NatToString(TopDeviceId(usage).value));
    }
  }

  lemma {:induction false} NoDeviceHasStringId(devices: seq<Device>, key: string)
    ensures FindName(devices, Str(key)).None?
  {
    if devices != [] {
      NoDeviceHasStringId(devices[1..], key);
    }
  }

  /** With the comparison corrected, the name of the most used device is
      shown whenever that device is listed with a non-empty name. */
  lemma TopNameIsMostUsed(devices: seq<Device>, usage: map<nat, nat>, d: Device)
    requires d in devices && d.name != "" && TopDeviceId(usage) == Some(d.id)
    requires forall e :: e in devices && e.id == d.id ==> e == d
    ensures TopName(devices, usage) == d.name
    ensures forall id :: id in usage ==> usage[id] <= usage[d.id]
  {
  }

  /** `id` has the most logs among `dayLogs`, and the largest id among
      those with as many: the device the reduction over ascending keys
      ends on. */
  predicate MostUsed(dayLogs: seq<Log>, id: nat) {
    id in DeviceIds(dayLogs) &&
    forall other :: other in DeviceIds(dayLogs) ==>
      CountOf(dayLogs, other) < CountOf(dayLogs, id) ||
      (CountOf(dayLogs, other) == CountOf(dayLogs, id) && other <= id)
  }

  /** The reduction picks exactly the most used device of the day. */
  lemma TopIsMostUsed(usage: map<nat, nat>, dayLogs: seq<Log>, id: nat)
    requires UsageOf(usage, dayLogs) && MostUsed(dayLogs, id)
    ensures TopDeviceId(usage) == Some(id)
  {
    var top := TopDeviceId(usage);
    assert id in usage;
    var t: nat := top.value;
    assert t in DeviceIds(dayLogs);
    assert usage[id] < usage[t] || (usage[id] == usage[t] && id <= t);
    assert usage[t] < usage[id] || (usage[t] == usage[id] && t <= id);
  }

  /** `getDailyStats` as written. */
  method GetDailyStatsAsWritten(devices: seq<Device>, logs: seq<Log>, day: int) returns (s: DayStats)
    ensures s.total == |WindowLogs(logs, day, day)|
    ensures s.deviceCount == |DeviceIds(WindowLogs(logs, day, day))|
    ensures s.topDevice == "N/A"
  {
    var dayLogs := WindowLogs(logs, day, day);
    var usage := DeviceUsage(dayLogs);
    TopDeviceAsWrittenIsAlwaysNA(devices, usage);
    s := DayStats(|dayLogs|, |usage.Keys|, TopNameAsWritten(devices, usage));
  }

  /** `getDailyStats` with the top device looked up by its numeric id. */
  method GetDailyStats(devices: seq<Device>, logs: seq<Log>, day: int) returns (s: DayStats)
    ensures s.total == |WindowLogs(logs, day, day)|
    ensures s.deviceCount == |DeviceIds(WindowLogs(logs, day, day))|
    ensures s.total == 0 ==> s.topDevice == "N/A"
    ensures s.topDevice != "N/A" ==>
              exists d :: d in devices && s.topDevice == d.name &&
                forall id :: id in DeviceIds(WindowLogs(logs, day, day)) ==>
                  CountOf(WindowLogs(logs, day, day), id) <= CountOf(WindowLogs(logs, day, day), d.id)
    ensures forall d :: (d in devices && d.name != "" && (forall e :: e in devices && e.id == d.id ==> e == d) &&
                         MostUsed(WindowLogs(logs, day, day), d.id)) ==> s.topDevice == d.name
    ensures exists usage :: UsageOf(usage, WindowLogs(logs, day, day)) && s.topDevice == TopName(devices, usage)
  {
    var dayLogs := WindowLogs(logs, day, day);
    var usage := DeviceUsage(dayLogs);
    s := DayStats(|dayLogs|, |usage.Keys|, TopName(devices, usage));
    assert UsageOf(usage, dayLogs);
    forall d | d in devices && d.name != "" && (forall e :: e in devices && e.id == d.id ==> e == d) &&
               MostUsed(dayLogs, d.id)
      ensures s.topDevice == d.name
    {
      TopIsMostUsed(usage, dayLogs, d.id);
      TopNameIsMostUsed(devices, usage, d);
    }
    if dayLogs == [] {
      assert DeviceIds(dayLogs) == {};
      assert usage == map[];
    }
    if s.topDevice != "N/A" {
      var top := TopDeviceId(usage).value;
      var d :| d in devices && Num(d.id) == Num(top) && d.name == FindName(devices, Num(top)).value;
      assert d.id == top;
    }
  }
}
