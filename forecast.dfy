/** The two forecast loops of the `weather` edge function: the hourly list
    (future items among the first eight 3-hour slots) and the daily list
    (one entry per calendar date, at most seven). Calendar dates, weekday
    names and clock times are the texts the runtime derives from the item's
    timestamp; here each item carries them. */
module Forecast {
  import opened Js
  import WeatherFunction

  /** One 3-hour slot of the upstream forecast list. */
  datatype ForecastItem = ForecastItem(
    dt: int,                  // seconds since the epoch
    date: string,             // its calendar date (`toDateString`)
    weekday: string,          // its long weekday name
    clockTime: string,        // its clock time
    temp: real,
    tempMax: real,
    tempMin: real,
    description: string,
    icon: string,
    humidity: int,
    windMs: real,
    rain3h: Option<real>)

  datatype HourlyForecast = HourlyForecast(
    time: string, temperature: int, description: string, icon: string,
    humidity: int, windSpeed: int, precipitation: real)

  datatype DailyForecast = DailyForecast(
    date: string, high: int, low: int, description: string, icon: string,
    humidity: int, windSpeed: int, precipitation: real)

  /** `Math.round((rain || 0) * 100) / 100`. */
  function Precipitation(rain: Option<real>): real
  {
    var mm := if rain.Some? then rain.value else 0.0;
    WeatherFunction.Round(mm * 100.0) as real / 100.0
  }

  function HourlyEntry(item: ForecastItem): HourlyForecast
  {
    HourlyForecast(item.clockTime, WeatherFunction.Round(item.temp), item.description,
                   WeatherFunction.MapWeatherIcon(item.icon), item.humidity,
                   WeatherFunction.Round(item.windMs * 3.6), Precipitation(item.rain3h))
  }

  function DailyEntry(item: ForecastItem, dayName: string): DailyForecast
  {
    DailyForecast(dayName, WeatherFunction.Round(item.tempMax), WeatherFunction.Round(item.tempMin),
                  item.description, WeatherFunction.MapWeatherIcon(item.icon), item.humidity,
                  WeatherFunction.Round(item.windMs * 3.6), Precipitation(item.rain3h))
  }

  function Min(a: int, b: int): int
  {
    if a <= b then a else b
  }

  // ---- Hourly ----

  /** Whether a slot lies after `now`, which is in milliseconds. */
  predicate Later(item: ForecastItem, now: int)
  {
    item.dt * 1000 > now
  }

  /** The slots of `s` later than `now`, in order. */
  function Upcoming(s: seq<ForecastItem>, now: int): (r: seq<ForecastItem>)
    ensures |r| <= |s|
  {
    if s == [] then []
    else
      var last := s[|s| - 1];
      Upcoming(s[..|s| - 1], now) + (if Later(last, now) then [last] else [])
  }

  /** A slot is kept exactly when it is in the list and later than `now`. */
  lemma {:induction false} UpcomingMembers(s: seq<ForecastItem>, now: int)
    ensures forall x :: x in Upcoming(s, now) <==> x in s && Later(x, now)
  {
    if s != [] {
      var init := s[..|s| - 1];
      UpcomingMembers(init, now);
      assert s == init + [s[|s| - 1]];
    }
  }

  /** Filtering keeps order: it distributes over concatenation. */
  lemma {:induction false} UpcomingAppend(a: seq<ForecastItem>, b: seq<ForecastItem>, now: int)
    ensures Upcoming(a + b, now) == Upcoming(a, now) + Upcoming(b, now)
    decreases |b|
  {
    if b != [] {
      var b' := b[..|b| - 1];
      assert (a + b)[..|a + b| - 1] == a + b';
      UpcomingAppend(a, b', now);
    } else {
      assert a + b == a;
    }
  }

  function HourlyOf(items: seq<ForecastItem>): (r: seq<HourlyForecast>)
    ensures |r| == |items|
  {
    if items == [] then [] else HourlyOf(items[..|items| - 1]) + [HourlyEntry(items[|items| - 1])]
  }

  lemma HourlyOfSnoc(items: seq<ForecastItem>, x: ForecastItem)
    ensures HourlyOf(items + [x]) == HourlyOf(items) + [HourlyEntry(x)]
  {
    assert (items + [x])[..|items|] == items;
  }

  /** One step of the hourly loop over slot `i`. */
  lemma UpcomingStep(s: seq<ForecastItem>, i: nat, now: int)
    requires i < |s|
    ensures HourlyOf(Upcoming(s[..i + 1], now)) ==
            HourlyOf(Upcoming(s[..i], now)) + (if Later(s[i], now) then [HourlyEntry(s[i])] else [])
  {
    assert s[..i + 1][..i] == s[..i];
    if Later(s[i], now) {
      HourlyOfSnoc(Upcoming(s[..i], now), s[i]);
    } else {
      assert Upcoming(s[..i + 1], now) == Upcoming(s[..i], now);
    }
  }

  /** The hourly loop: the first `min(8, n)` slots are inspected and those
      later than `now` are kept. */
  method HourlyForecasts(list: seq<ForecastItem>, now: int) returns (hourly: seq<HourlyForecast>)
    ensures hourly == HourlyOf(Upcoming(list[..Min(8, |list|)], now))
  {
    hourly := [];
    var i := 0;
    while i < Min(8, |list|)
      invariant 0 <= i <= Min(8, |list|)
      invariant hourly == HourlyOf(Upcoming(list[..i], now))
    {
      var item := list[i];
      var itemTime := item.dt * 1000;
      UpcomingStep(list, i, now);
      if itemTime > now {
        hourly := hourly + [HourlyEntry(item)];
      }
      i := i + 1;
    }
  }

  /** At most eight hourly entries, every one of them after `now`, and every
      slot among the first eight that is after `now` is kept. */
  lemma HourlyBounds(list: seq<ForecastItem>, now: int)
    ensures var kept := Upcoming(list[..Min(8, |list|)], now);
            && |kept| <= 8
            && (forall x :: x in kept ==> Later(x, now))
            && (forall k :: 0 <= k < Min(8, |list|) && Later(list[k], now) ==> list[k] in kept)
  {
    var w := list[..Min(8, |list|)];
    UpcomingMembers(w, now);
    forall k | 0 <= k < Min(8, |list|) && Later(list[k], now)
      ensures list[k] in Upcoming(w, now)
    {
      assert w[k] == list[k];
    }
  }

  // ---- Daily ----

  /** The calendar dates of a list of items. */
  function Dates(s: seq<ForecastItem>): set<string>
  {
    set k | 0 <= k < |s| :: s[k].date
  }

  /** The calendar dates of the items of `s` at positions `idx`. */
  function PickedDates(s: seq<ForecastItem>, idx: seq<nat>): set<string>
  {
    set j | 0 <= j < |idx| && idx[j] < |s| :: s[idx[j]].date
  }

  lemma DatesSnoc(s: seq<ForecastItem>, n: nat)
    requires n < |s|
    ensures Dates(s[..n + 1]) == Dates(s[..n]) + {s[n].date}
  {
    var a := s[..n];
    var b := s[..n + 1];
    forall d | d in Dates(b) ensures d in Dates(a) + {s[n].date} {
      var k :| 0 <= k < |b| && b[k].date == d;
      if k < n {
        assert a[k] == b[k];
      }
    }
    forall d | d in Dates(a) ensures d in Dates(b) {
      var k :| 0 <= k < |a| && a[k].date == d;
      assert b[k] == a[k];
    }
    assert b[n] == s[n];
  }

  lemma PickedDatesSnoc(s: seq<ForecastItem>, idx: seq<nat>, i: nat)
    requires i < |s|
    ensures PickedDates(s, idx + [i]) == PickedDates(s, idx) + {s[i].date}
  {
    var r := idx + [i];
    forall d | d in PickedDates(s, r) ensures d in PickedDates(s, idx) + {s[i].date} {
      var j :| 0 <= j < |r| && r[j] < |s| && s[r[j]].date == d;
      if j < |idx| {
        assert r[j] == idx[j];
      }
    }
    forall d | d in PickedDates(s, idx) ensures d in PickedDates(s, r) {
      var j :| 0 <= j < |idx| && idx[j] < |s| && s[idx[j]].date == d;
      assert r[j] == idx[j];
    }
    assert r[|idx|] == i;
  }

  /** Whether item `k` is the first of its date. */
  predicate FirstOfDate(s: seq<ForecastItem>, k: nat)
    requires k < |s|
  {
    s[k].date !in Dates(s[..k])
  }

  /** The positions, among the first `n`, of the first item of each date, in
      increasing order. */
  function FirstIndices(s: seq<ForecastItem>, n: nat): (r: seq<nat>)
    requires n <= |s|
    ensures forall j :: 0 <= j < |r| ==> r[j] < n
    ensures forall j, l :: 0 <= j < l < |r| ==> r[j] < r[l]
  {
    if n == 0 then []
    else
      var prev := FirstIndices(s, n - 1);
      if FirstOfDate(s, n - 1) then prev + [n - 1] else prev
  }

  /** A position is chosen exactly when its item is the first of its date. */
  lemma {:induction false} FirstIndicesMembers(s: seq<ForecastItem>, n: nat)
    requires n <= |s|
    ensures forall k: nat :: k < n ==> (k in FirstIndices(s, n) <==> FirstOfDate(s, k))
  {
    if n > 0 {
      FirstIndicesMembers(s, n - 1);
      var prev := FirstIndices(s, n - 1);
      assert n - 1 !in prev;
      forall k: nat | k < n ensures k in FirstIndices(s, n) <==> FirstOfDate(s, k) {
        if k < n - 1 {
          assert k in FirstIndices(s, n) <==> k in prev;
        }
      }
    }
  }

  /** The chosen positions carry every date seen among the first `n` items. */
  lemma {:induction false} FirstIndicesDates(s: seq<ForecastItem>, n: nat)
    requires n <= |s|
    ensures PickedDates(s, FirstIndices(s, n)) == Dates(s[..n])
  {
    if n > 0 {
      FirstIndicesDates(s, n - 1);
      DatesSnoc(s, n - 1);
      var prev := FirstIndices(s, n - 1);
      if FirstOfDate(s, n - 1) {
        PickedDatesSnoc(s, prev, n - 1);
      } else {
        assert s[n - 1].date in Dates(s[..n - 1]);
      }
    }
  }

  /** Distinct positions among the first-of-date positions carry distinct dates. */
  lemma FirstIndicesDistinct(s: seq<ForecastItem>, n: nat)
    requires n <= |s|
    ensures var r := FirstIndices(s, n);
            forall j, l :: 0 <= j < l < |r| ==> s[r[j]].date != s[r[l]].date
  {
    var r := FirstIndices(s, n);
    FirstIndicesMembers(s, n);
    forall j, l | 0 <= j < l < |r| ensures s[r[j]].date != s[r[l]].date {
      assert r[l] in r;
      assert FirstOfDate(s, r[l]);
      assert s[..r[l]][r[j]] == s[r[j]];
    }
  }

  /** There are as many first-of-date positions as dates. */
  lemma {:induction false} FirstIndicesCount(s: seq<ForecastItem>, n: nat)
    requires n <= |s|
    ensures |FirstIndices(s, n)| == |Dates(s[..n])|
  {
    if n > 0 {
      FirstIndicesCount(s, n - 1);
      DatesSnoc(s, n - 1);
      var seen := Dates(s[..n - 1]);
      var x := s[n - 1].date;
      if FirstOfDate(s, n - 1) {
        assert x !in seen;
        assert |seen + {x}| == |seen| + 1;
      } else {
        assert x in seen;
        assert seen + {x} == seen;
      }
    }
  }

  /** `s` cut to at most `n` elements. */
  function Take<T>(s: seq<T>, n: nat): (r: seq<T>)
    ensures |r| == Min(n, |s|) && r == s[..|r|]
  {
    if |s| <= n then s else s[..n]
  }

  /** 'Today' for the first entry, 'Tomorrow' for the second, otherwise the weekday. */
  function DayLabel(k: nat, item: ForecastItem): string
  {
    if k == 0 then "Today" else if k == 1 then "Tomorrow" else item.weekday
  }

  /** The daily entries for the chosen positions, labelled by their rank. */
  function DailyOf(s: seq<ForecastItem>, idx: seq<nat>): (r: seq<DailyForecast>)
    requires forall j :: 0 <= j < |idx| ==> idx[j] < |s|
    ensures |r| == |idx|
  {
    if idx == [] then []
    else
      var last := |idx| - 1;
      DailyOf(s, idx[..last]) + [DailyEntry(s[idx[last]], DayLabel(last, s[idx[last]]))]
  }

  /** Entry `j` is built from the item at the `j`-th chosen position. */
  lemma {:induction false} DailyOfAt(s: seq<ForecastItem>, idx: seq<nat>)
    requires forall j :: 0 <= j < |idx| ==> idx[j] < |s|
    ensures forall j :: 0 <= j < |idx| ==> DailyOf(s, idx)[j] == DailyEntry(s[idx[j]], DayLabel(j, s[idx[j]]))
  {
    if idx != [] {
      var init := idx[..|idx| - 1];
      DailyOfAt(s, init);
    }
  }

  /** The positions the daily loop picks: the first item of each date, the
      first seven dates only. */
  function DailyPicks(s: seq<ForecastItem>): (r: seq<nat>)
    ensures forall j :: 0 <= j < |r| ==> r[j] < |s|
  {
    Take(FirstIndices(s, |s|), 7)
  }

  /** The state of the daily loop after the first `i` items: the positions
      picked, the entries built from them and the dates processed. */
  ghost predicate DailyState(s: seq<ForecastItem>, i: nat, chosen: seq<nat>,
                             daily: seq<DailyForecast>, processed: set<string>)
  {
    && i <= |s|
    && (forall j :: 0 <= j < |chosen| ==> chosen[j] < i)
    && chosen == Take(FirstIndices(s, i), 7)
    && (|chosen| < 7 ==> chosen == FirstIndices(s, i))
    && processed == PickedDates(s, chosen)
    && daily == DailyOf(s, chosen)
  }

  /** One step of the daily loop over item `i` whose date is unprocessed
      while fewer than seven entries exist: the item is used. */
  lemma DailyStepUse(s: seq<ForecastItem>, i: nat, chosen: seq<nat>,
                     daily: seq<DailyForecast>, processed: set<string>)
    requires i < |s|
    requires DailyState(s, i, chosen, daily, processed)
    requires s[i].date !in processed && |daily| < 7
    ensures DailyState(s, i + 1, chosen + [i], daily + [DailyEntry(s[i], DayLabel(|daily|, s[i]))],
                       processed + {s[i].date})
  {
    var prev := FirstIndices(s, i);
    FirstIndicesDates(s, i);
    assert FirstOfDate(s, i);
    assert FirstIndices(s, i + 1) == prev + [i];
    PickedDatesSnoc(s, chosen, i);
    DailyOfSnoc(s, chosen, i);
  }

  /** One step of the daily loop over item `i` whose date is processed, or
      once seven entries exist: nothing changes. */
  lemma DailyStepSkip(s: seq<ForecastItem>, i: nat, chosen: seq<nat>,
                      daily: seq<DailyForecast>, processed: set<string>)
    requires i < |s|
    requires DailyState(s, i, chosen, daily, processed)
    requires s[i].date in processed || |daily| >= 7
    ensures DailyState(s, i + 1, chosen, daily, processed)
  {
    var prev := FirstIndices(s, i);
    FirstIndicesDates(s, i);
    if FirstOfDate(s, i) {
      assert FirstIndices(s, i + 1) == prev + [i];
      assert (prev + [i])[..7] == prev[..7];
    }
  }

  lemma DailyOfSnoc(s: seq<ForecastItem>, idx: seq<nat>, i: nat)
    requires forall j :: 0 <= j < |idx| ==> idx[j] < |s|
    requires i < |s|
    ensures DailyOf(s, idx + [i]) == DailyOf(s, idx) + [DailyEntry(s[i], DayLabel(|idx|, s[i]))]
  {
    assert (idx + [i])[..|idx|] == idx;
  }

  /** The daily loop: an item is used when its date has not been seen among
      the used items and fewer than seven entries exist. */
  method DailyForecasts(list: seq<ForecastItem>) returns (daily: seq<DailyForecast>)
    ensures daily == DailyOf(list, DailyPicks(list))
  {
    daily := [];
    var processedDates: set<string> := {};
    ghost var chosen: seq<nat> := [];
    var i := 0;
    while i < |list|
      invariant DailyState(list, i, chosen, daily, processedDates)
    {
      var item := list[i];
      var date := item.date;
      if date !in processedDates && |daily| < 7 {
        DailyStepUse(list, i, chosen, daily, processedDates);
        processedDates := processedDates + {date};
        daily := daily + [DailyEntry(item, DayLabel(|daily|, item))];
        chosen := chosen + [i];
      } else {
        DailyStepSkip(list, i, chosen, daily, processedDates);
      }
      i := i + 1;
    }
  }

  /** The daily list has at most seven entries, one per date, each from the
      first item of its date, in list order; fewer than seven entries means
      every date of the list has one. */
  lemma DailyProperties(s: seq<ForecastItem>)
    ensures var p := DailyPicks(s);
            && |p| <= 7
            && (forall j, l :: 0 <= j < l < |p| ==> p[j] < p[l] && s[p[j]].date != s[p[l]].date)
            && (forall j :: 0 <= j < |p| ==> FirstOfDate(s, p[j]))
            && (|p| < 7 ==> PickedDates(s, p) == Dates(s))
            && |p| == Min(7, |Dates(s)|)
  {
    var all := FirstIndices(s, |s|);
    var p := DailyPicks(s);
    assert s[..|s|] == s;
    FirstIndicesDistinct(s, |s|);
    FirstIndicesCount(s, |s|);
    FirstIndicesMembers(s, |s|);
    FirstIndicesDates(s, |s|);
    forall j | 0 <= j < |p| ensures FirstOfDate(s, p[j]) {
      assert p[j] == all[j];
      assert all[j] in all;
    }
  }

  /** The first entry is labelled 'Today', the second 'Tomorrow', and every
      entry is made from the item at its picked position. */
  lemma DailyLabels(s: seq<ForecastItem>)
    ensures var p := DailyPicks(s);
            var d := DailyOf(s, p);
            && (|d| > 0 ==> d[0].date == "Today")
            && (|d| > 1 ==> d[1].date == "Tomorrow")
            && (forall j :: 2 <= j < |d| ==> d[j].date == s[p[j]].weekday)
  {
    DailyOfAt(s, DailyPicks(s));
  }
}
