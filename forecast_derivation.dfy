/** What WeatherDashboard derives from the legacy forecast payload: the 3-hour
    entries grouped by calendar date (the `reduce` into a dictionary), one summary
    per date (rounded mean, minimum and maximum, and the icon of the noon entry),
    the first five of them as the chart data, and the 8-entry "hourly" window.

    The grouping is specified by `Dates` (the distinct dates in order of first
    appearance, which is the order `Object.entries` lists a dictionary whose keys
    are not integer-like) and `ItemsOn` (the entries of one date, in list order);
    the method `GroupByDate` builds the dictionary step by step as the source does
    and is proved to produce exactly that. */
module ForecastDerivation {
  import opened Wrappers
  import opened Text
  import opened Units
  import opened WeatherTypes

  /** How many daily summaries the chart keeps. */
  const DaysShown := 5
  /** How many forecast entries the hourly view takes (3-hour steps, so 24 hours). */
  const HoursShown := 8
  /** The time of day whose entry represents a date. */
  const NoonMarker := "12:00:00"

  // ---------------------------------------------------------------------------
  // Grouping by date
  // ---------------------------------------------------------------------------

  /** `dt_txt.split(' ')[0]`: everything before the first space. */
  function DateKey(dtTxt: string): (date: string)
    ensures date <= dtTxt
    ensures ' ' !in date
    ensures |date| < |dtTxt| ==> dtTxt[|date|] == ' '
  {
    SplitFirstPart(dtTxt, ' ');
    Split(dtTxt, ' ')[0]
  }

  function DateOf(item: ForecastItem): string {
    DateKey(item.dtTxt)
  }

  /** The distinct dates of `items`, in order of first appearance. */
  function Dates(items: seq<ForecastItem>): seq<string>
    decreases |items|
  {
    if items == [] then []
    else
      var earlier := Dates(items[..|items| - 1]);
      var date := DateOf(items[|items| - 1]);
      if date in earlier then earlier else earlier + [date]
  }

  /** The entries of `items` whose date is `date`, in list order. */
  function ItemsOn(items: seq<ForecastItem>, date: string): seq<ForecastItem>
    decreases |items|
  {
    if items == [] then []
    else
      var last := items[|items| - 1];
      ItemsOn(items[..|items| - 1], date) + (if DateOf(last) == date then [last] else [])
  }

  /** The entries of one date. */
  datatype DayBucket = DayBucket(date: string, items: seq<ForecastItem>)

  function BucketsFor(items: seq<ForecastItem>, dates: seq<string>): seq<DayBucket>
    decreases |dates|
  {
    if dates == [] then []
    else [DayBucket(dates[0], ItemsOn(items, dates[0]))] + BucketsFor(items, dates[1..])
  }

  /** `Object.entries` of the grouped dictionary. */
  function Buckets(items: seq<ForecastItem>): seq<DayBucket> {
    BucketsFor(items, Dates(items))
  }

  /** All entries of a bucket list, bucket after bucket. */
  function Flatten(buckets: seq<DayBucket>): seq<ForecastItem>
    decreases |buckets|
  {
    if buckets == [] then [] else buckets[0].items + Flatten(buckets[1..])
  }

  predicate Distinct(dates: seq<string>) {
    forall i, j :: 0 <= i < j < |dates| ==> dates[i] != dates[j]
  }

  /** The index of the first entry of `date`, or `|items|` when there is none. */
  function FirstIndexOf(items: seq<ForecastItem>, date: string): (k: nat)
    ensures k <= |items|
    ensures k < |items| ==> DateOf(items[k]) == date
    ensures forall j :: 0 <= j < k ==> DateOf(items[j]) != date
    decreases |items|
  {
    if items == [] then 0
    else if DateOf(items[0]) == date then 0
    else 1 + FirstIndexOf(items[1..], date)
  }

  lemma {:induction false} ItemsOnStep(items: seq<ForecastItem>, item: ForecastItem, date: string)
    ensures ItemsOn(items + [item], date)
            == ItemsOn(items, date) + (if DateOf(item) == date then [item] else [])
  {
    assert (items + [item])[..|items|] == items;
  }

  lemma {:induction false} DatesStep(items: seq<ForecastItem>, item: ForecastItem)
    ensures Dates(items + [item])
            == if DateOf(item) in Dates(items) then Dates(items) else Dates(items) + [DateOf(item)]
  {
    assert (items + [item])[..|items|] == items;
  }

  /** An entry belongs to the bucket of `date` exactly when it is in the list and has that date. */
  lemma {:induction false} ItemsOnMembers(items: seq<ForecastItem>, date: string)
    ensures forall x :: x in ItemsOn(items, date) <==> x in items && DateOf(x) == date
    decreases |items|
  {
    if items != [] {
      var init := items[..|items| - 1];
      ItemsOnMembers(init, date);
      assert items == init + [items[|items| - 1]];
      ItemsOnStep(init, items[|items| - 1], date);
    }
  }

  /** A date is listed exactly when some entry has it. */
  lemma {:induction false} DatesCover(items: seq<ForecastItem>)
    ensures forall d :: d in Dates(items) <==> exists x :: x in items && DateOf(x) == d
    decreases |items|
  {
    if items != [] {
      var init := items[..|items| - 1];
      var last := items[|items| - 1];
      DatesCover(init);
      assert items == init + [last];
      DatesStep(init, last);
      forall d | d in Dates(items) ensures exists x :: x in items && DateOf(x) == d {
        if d in Dates(init) {
          var x :| x in init && DateOf(x) == d;
          assert x in items;
        } else {
          assert DateOf(last) == d;
        }
      }
    }
  }

  /** No date is listed twice. */
  lemma {:induction false} DatesDistinct(items: seq<ForecastItem>)
    ensures Distinct(Dates(items))
    decreases |items|
  {
    if items != [] {
      var init := items[..|items| - 1];
      DatesDistinct(init);
      assert items == init + [items[|items| - 1]];
      DatesStep(init, items[|items| - 1]);
    }
  }

  lemma ItemsOnAbsent(items: seq<ForecastItem>, date: string)
    requires date !in Dates(items)
    ensures ItemsOn(items, date) == []
  {
    DatesCover(items);
    ItemsOnMembers(items, date);
  }

  /** Grouping keeps list order: the bucket of a concatenation is the concatenation of the buckets. */
  lemma {:induction false} ItemsOnConcat(a: seq<ForecastItem>, b: seq<ForecastItem>, date: string)
    ensures ItemsOn(a + b, date) == ItemsOn(a, date) + ItemsOn(b, date)
    decreases |b|
  {
    if b == [] {
      assert a + b == a;
    } else {
      var init := b[..|b| - 1];
      var last := b[|b| - 1];
      var tail := if DateOf(last) == date then [last] else [];
      ItemsOnConcat(a, init, date);
      assert a + b == (a + init) + [last];
      assert b == init + [last];
      ItemsOnStep(a + init, last, date);
      ItemsOnStep(init, last, date);
      calc {
        ItemsOn(a + b, date);
        ItemsOn((a + init) + [last], date);
        ItemsOn(a + init, date) + tail;
        (ItemsOn(a, date) + ItemsOn(init, date)) + tail;
        ItemsOn(a, date) + (ItemsOn(init, date) + tail);
        ItemsOn(a, date) + ItemsOn(b, date);
      }
    }
  }

  /** Dates are listed in the order of their first entries. */
  lemma {:induction false} DatesInFirstAppearanceOrder(items: seq<ForecastItem>, i: int, j: int)
    requires 0 <= i < j < |Dates(items)|
    ensures FirstIndexOf(items, Dates(items)[i]) < FirstIndexOf(items, Dates(items)[j])
    decreases |items|
  {
    var init := items[..|items| - 1];
    var last := items[|items| - 1];
    assert items == init + [last];
    DatesStep(init, last);
    var di, dj := Dates(items)[i], Dates(items)[j];
    assert di == Dates(init)[i];
    FirstIndexInInit(init, last, di);
    if j < |Dates(init)| {
      assert dj == Dates(init)[j];
      FirstIndexInInit(init, last, dj);
      DatesInFirstAppearanceOrder(init, i, j);
    } else {
      FirstIndexOfNewDate(init, last);
    }
  }

  /** A date first seen in the appended entry has that entry's index as its first index. */
  lemma FirstIndexOfNewDate(init: seq<ForecastItem>, last: ForecastItem)
    requires DateOf(last) !in Dates(init)
    ensures FirstIndexOf(init + [last], DateOf(last)) == |init|
  {
    var items := init + [last];
    var d := DateOf(last);
    DatesCover(init);
    forall k | 0 <= k < |init| ensures DateOf(items[k]) != d {
      assert items[k] == init[k] && init[k] in init;
    }
  }

  /** A date that already occurs in `init` keeps its first index when an entry is appended. */
  lemma FirstIndexInInit(init: seq<ForecastItem>, last: ForecastItem, date: string)
    requires date in Dates(init)
    ensures FirstIndexOf(init + [last], date) == FirstIndexOf(init, date) < |init|
  {
    DatesCover(init);
    var x :| x in init && DateOf(x) == date;
    var items := init + [last];
    var k := FirstIndexOf(init, date);
    var k' := FirstIndexOf(items, date);
    var w :| 0 <= w < |init| && init[w] == x;
    assert k <= w;
    assert items[k] == init[k];
    assert forall j :: 0 <= j < |init| ==> items[j] == init[j];
  }

  lemma {:induction false} BucketsForAppend(items: seq<ForecastItem>, dates: seq<string>, date: string)
    ensures Flatten(BucketsFor(items, dates + [date])) == Flatten(BucketsFor(items, dates)) + ItemsOn(items, date)
    decreases |dates|
  {
    if dates == [] {
      assert Flatten(BucketsFor(items, [date])) == ItemsOn(items, date) + Flatten([]);
    } else {
      assert (dates + [date])[1..] == dates[1..] + [date];
      BucketsForAppend(items, dates[1..], date);
    }
  }

  lemma FlattenBucketsForCons(items: seq<ForecastItem>, dates: seq<string>)
    requires dates != []
    ensures Flatten(BucketsFor(items, dates)) == ItemsOn(items, dates[0]) + Flatten(BucketsFor(items, dates[1..]))
  {
  }

  lemma DistinctTail(dates: seq<string>)
    requires dates != [] && Distinct(dates)
    ensures Distinct(dates[1..])
    ensures dates[0] !in dates[1..]
    ensures forall d :: d in dates <==> d == dates[0] || d in dates[1..]
  {
    assert dates == [dates[0]] + dates[1..];
    forall i, j | 0 <= i < j < |dates| - 1 ensures dates[1..][i] != dates[1..][j] {
      assert dates[1..][i] == dates[i + 1] && dates[1..][j] == dates[j + 1];
    }
    forall k | 0 <= k < |dates| - 1 ensures dates[1..][k] != dates[0] {
      assert dates[1..][k] == dates[k + 1];
    }
  }

  lemma MultisetOfThree<T>(a0: seq<T>, tail: seq<T>, r: seq<T>, r0: seq<T>, mr: multiset<T>)
    requires multiset(r) == multiset(r0) + mr
    ensures multiset((a0 + tail) + r) == multiset(a0 + r0) + (multiset(tail) + mr)
  {
  }

  lemma {:induction false} BucketsForStep(init: seq<ForecastItem>, last: ForecastItem, dates: seq<string>)
    requires Distinct(dates)
    ensures multiset(Flatten(BucketsFor(init + [last], dates)))
            == multiset(Flatten(BucketsFor(init, dates)))
               + (if DateOf(last) in dates then multiset{last} else multiset{})
    decreases |dates|
  {
    if dates != [] {
      var items := init + [last];
      var e := DateOf(last);
      var date, rest := dates[0], dates[1..];
      var tail := if e == date then [last] else [];
      var mr := if e in rest then multiset{last} else multiset{};
      DistinctTail(dates);
      BucketsForStep(init, last, rest);
      ItemsOnStep(init, last, date);
      FlattenBucketsForCons(items, dates);
      FlattenBucketsForCons(init, dates);
      MultisetOfThree(ItemsOn(init, date), tail, Flatten(BucketsFor(items, rest)), Flatten(BucketsFor(init, rest)), mr);
      assert multiset(tail) + mr == if e in dates then multiset{last} else multiset{};
    }
  }

  /** Every entry lands in exactly one bucket: flattening the buckets gives back the
      list's entries, none dropped and none duplicated. */
  lemma {:induction false} BucketsPartitionItems(items: seq<ForecastItem>)
    ensures multiset(Flatten(Buckets(items))) == multiset(items)
    decreases |items|
  {
    if items != [] {
      var init := items[..|items| - 1];
      var last := items[|items| - 1];
      assert items == init + [last];
      BucketsPartitionItems(init);
      DatesStep(init, last);
      DatesDistinct(init);
      BucketsForStep(init, last, Dates(init));
      if DateOf(last) !in Dates(init) {
        BucketsForAppend(items, Dates(init), DateOf(last));
        ItemsOnStep(init, last, DateOf(last));
        ItemsOnAbsent(init, DateOf(last));
      }
    }
  }

  lemma {:induction false} BucketsForAt(items: seq<ForecastItem>, dates: seq<string>, i: int)
    requires 0 <= i < |dates|
    ensures |BucketsFor(items, dates)| == |dates|
    ensures BucketsFor(items, dates)[i] == DayBucket(dates[i], ItemsOn(items, dates[i]))
    decreases |dates|
  {
    if i > 0 {
      BucketsForAt(items, dates[1..], i - 1);
    } else if |dates| > 1 {
      BucketsForAt(items, dates[1..], 0);
    }
  }

  /** Bucket `i` holds exactly the entries of the `i`-th date, and is never empty. */
  lemma BucketAt(items: seq<ForecastItem>, i: int)
    requires 0 <= i < |Dates(items)|
    ensures |Buckets(items)| == |Dates(items)|
    ensures Buckets(items)[i] == DayBucket(Dates(items)[i], ItemsOn(items, Dates(items)[i]))
    ensures |Buckets(items)[i].items| > 0
    ensures forall x :: x in Buckets(items)[i].items ==> DateOf(x) == Dates(items)[i]
  {
    BucketsForAt(items, Dates(items), i);
    var d := Dates(items)[i];
    DatesCover(items);
    ItemsOnMembers(items, d);
    assert d in Dates(items);
    var x :| x in items && DateOf(x) == d;
    assert x in ItemsOn(items, d);
  }

  /** An entry of the list is in exactly one bucket: the one of its own date. */
  lemma ExactlyOneBucket(items: seq<ForecastItem>, x: ForecastItem)
    requires x in items
    ensures exists i :: 0 <= i < |Buckets(items)| && x in Buckets(items)[i].items
    ensures forall i, j ::
              (0 <= i < |Buckets(items)| && 0 <= j < |Buckets(items)|
               && x in Buckets(items)[i].items && x in Buckets(items)[j].items) ==> i == j
  {
    DatesCover(items);
    DatesDistinct(items);
    var dates := Dates(items);
    assert DateOf(x) in dates;
    var i :| 0 <= i < |dates| && dates[i] == DateOf(x);
    BucketAt(items, i);
    ItemsOnMembers(items, DateOf(x));
    forall i1, j1 | 0 <= i1 < |Buckets(items)| && 0 <= j1 < |Buckets(items)|
      && x in Buckets(items)[i1].items && x in Buckets(items)[j1].items
      ensures i1 == j1
    {
      BucketAt(items, i1);
      BucketAt(items, j1);
    }
  }

  /** The source's `reduce`: a dictionary from date to entries, filled entry by entry.
      `dates` records the order in which keys were first inserted. */
  method GroupByDate(list: seq<ForecastItem>) returns (dates: seq<string>, acc: map<string, seq<ForecastItem>>)
    ensures dates == Dates(list)
    ensures forall d :: d in acc <==> d in dates
    ensures forall d :: d in acc ==> acc[d] == ItemsOn(list, d)
  {
    dates, acc := [], map[];
    var i := 0;
    while i < |list|
      invariant 0 <= i <= |list|
      invariant dates == Dates(list[..i])
      invariant forall d :: d in acc <==> d in dates
      invariant forall d :: d in acc ==> acc[d] == ItemsOn(list[..i], d)
    {
      var item := list[i];
      var date := DateOf(item);
      assert list[..i + 1] == list[..i] + [item];
      DatesStep(list[..i], item);
      forall d ensures ItemsOn(list[..i + 1], d) == ItemsOn(list[..i], d) + (if date == d then [item] else []) {
        ItemsOnStep(list[..i], item, d);
      }
      if date !in acc {
        ItemsOnAbsent(list[..i], date);
        acc := acc[date := []];
        dates := dates + [date];
      }
      acc := acc[date := acc[date] + [item]];
      i := i + 1;
    }
    assert list[..i] == list;
  }

  // ---------------------------------------------------------------------------
  // Daily summaries
  // ---------------------------------------------------------------------------

  /** One chart entry: `name` is the short weekday of the date. */
  datatype DaySummary = DaySummary(
    name: string, temp: int, minTemp: int, maxTemp: int, icon: string, description: string)

  function Temps(items: seq<ForecastItem>): (ts: seq<real>)
    ensures |ts| == |items|
    ensures forall i :: 0 <= i < |items| ==> ts[i] == items[i].temp
  {
    seq(|items|, i requires 0 <= i < |items| => items[i].temp)
  }

  /** `Math.min(...ts)` of a non-empty list. */
  function Min(ts: seq<real>): (m: real)
    requires |ts| > 0
    ensures m in ts
    ensures forall i :: 0 <= i < |ts| ==> m <= ts[i]
    decreases |ts|
  {
    if |ts| == 1 then ts[0]
    else
      var rest := Min(ts[1..]);
      if ts[0] <= rest then ts[0] else rest
  }

  /** `Math.max(...ts)` of a non-empty list. */
  function Max(ts: seq<real>): (m: real)
    requires |ts| > 0
    ensures m in ts
    ensures forall i :: 0 <= i < |ts| ==> ts[i] <= m
    decreases |ts|
  {
    if |ts| == 1 then ts[0]
    else
      var rest := Max(ts[1..]);
      if ts[0] >= rest then ts[0] else rest
  }

  /** `ts.reduce((sum, t) => sum + t, 0)`, summed left to right. */
  function Sum(ts: seq<real>): real
    decreases |ts|
  {
    if ts == [] then 0.0 else Sum(ts[..|ts| - 1]) + ts[|ts| - 1]
  }

  function Mean(ts: seq<real>): real
    requires |ts| > 0
  {
    Sum(ts) / |ts| as real
  }

  lemma {:induction false} SumBetween(ts: seq<real>, lo: real, hi: real)
    requires forall i :: 0 <= i < |ts| ==> lo <= ts[i] <= hi
    ensures |ts| as real * lo <= Sum(ts) <= |ts| as real * hi
    decreases |ts|
  {
    if ts != [] {
      SumBetween(ts[..|ts| - 1], lo, hi);
    }
  }

  /** The mean lies between the minimum and the maximum. */
  lemma MeanBetweenMinAndMax(ts: seq<real>)
    requires |ts| > 0
    ensures Min(ts) <= Mean(ts) <= Max(ts)
  {
    MeanBetween(ts, Min(ts), Max(ts));
  }

  lemma MeanBetween(ts: seq<real>, lo: real, hi: real)
    requires |ts| > 0
    requires forall i :: 0 <= i < |ts| ==> lo <= ts[i] <= hi
    ensures lo <= Mean(ts) <= hi
  {
    SumBetween(ts, lo, hi);
    QuotientBetween(Sum(ts), |ts| as real, lo, hi);
  }

  lemma QuotientBetween(s: real, n: real, lo: real, hi: real)
    requires n > 0.0 && n * lo <= s <= n * hi
    ensures lo <= s / n <= hi
  {
    assert (s - n * lo) / n == s / n - lo;
    assert (n * hi - s) / n == hi - s / n;
  }

  /** `dt_txt.includes('12:00:00')`. */
  predicate IsNoon(item: ForecastItem) {
    Includes(item.dtTxt, NoonMarker)
  }

  /** `items.find(isNoon)`, as an index. */
  function FindNoon(items: seq<ForecastItem>): (k: Option<nat>)
    ensures k.Some? ==> k.value < |items| && IsNoon(items[k.value])
    ensures k.Some? ==> forall j :: 0 <= j < k.value ==> !IsNoon(items[j])
    ensures k.None? ==> forall j :: 0 <= j < |items| ==> !IsNoon(items[j])
    decreases |items|
  {
    if items == [] then None
    else if IsNoon(items[0]) then Some(0)
    else
      match FindNoon(items[1..])
      case Some(k) => Some(k + 1)
      case None => None
  }

  /** The noon entry of a bucket, or its first entry when it has none. */
  function Representative(items: seq<ForecastItem>): ForecastItem
    requires |items| > 0
  {
    match FindNoon(items)
    case Some(k) => items[k]
    case None => items[0]
  }

  /** The representative is the earliest entry containing "12:00:00" when there is one,
      and the bucket's first entry otherwise. */
  lemma RepresentativeChoice(items: seq<ForecastItem>)
    requires |items| > 0
    ensures Representative(items) in items
    ensures (exists j :: 0 <= j < |items| && IsNoon(items[j])) ==>
              exists k :: 0 <= k < |items| && Representative(items) == items[k] && IsNoon(items[k])
                          && forall j :: 0 <= j < k ==> !IsNoon(items[j])
    ensures (forall j :: 0 <= j < |items| ==> !IsNoon(items[j])) ==> Representative(items) == items[0]
  {
  }

  /** The summary of one bucket; `None` when the representative has no `weather[0]`. */
  function Summarize(bucket: DayBucket, weekdayOf: string -> string): (s: Option<DaySummary>)
    requires |bucket.items| > 0
    ensures s.Some? <==> |Representative(bucket.items).weather| > 0
    ensures s.Some? ==> s.value.minTemp <= s.value.temp <= s.value.maxTemp
  {
    var ts := Temps(bucket.items);
    var rep := Representative(bucket.items);
    MeanBetweenMinAndMax(ts);
    RoundMonotone(Min(ts), Mean(ts));
    RoundMonotone(Mean(ts), Max(ts));
    match PrimaryCondition(rep.weather)
    case None => None
    case Some(c) =>
      Some(DaySummary(weekdayOf(bucket.date), Round(Mean(ts)), Round(Min(ts)), Round(Max(ts)),
                      c.icon, c.description))
  }

  /** The first `n` elements, or all of them when there are fewer (`slice(0, n)`, n >= 0). */
  function Take<T>(xs: seq<T>, n: nat): (r: seq<T>)
    ensures |r| == if |xs| < n then |xs| else n
    ensures r <= xs
  {
    if |xs| <= n then xs else xs[..n]
  }

  /** Every bucket summarised, in order; `None` when one of them fails. */
  function SummarizeAll(buckets: seq<DayBucket>, weekdayOf: string -> string): (r: Option<seq<DaySummary>>)
    requires forall i :: 0 <= i < |buckets| ==> |buckets[i].items| > 0
    ensures r.Some? <==> forall i :: 0 <= i < |buckets| ==> Summarize(buckets[i], weekdayOf).Some?
    ensures r.Some? ==> |r.value| == |buckets|
    ensures r.Some? ==> forall i :: 0 <= i < |buckets| ==> r.value[i] == Summarize(buckets[i], weekdayOf).value
  {
    var summaries := seq(|buckets|, i requires 0 <= i < |buckets| => Summarize(buckets[i], weekdayOf));
    assert forall i :: 0 <= i < |buckets| ==> summaries[i] == Summarize(buckets[i], weekdayOf);
    AllSome(summaries)
  }

  lemma BucketsNonEmpty(items: seq<ForecastItem>)
    ensures forall i :: 0 <= i < |Buckets(items)| ==> |Buckets(items)[i].items| > 0
  {
    forall i | 0 <= i < |Buckets(items)| ensures |Buckets(items)[i].items| > 0 {
      if |Dates(items)| > 0 {
        BucketAt(items, 0);
      }
      BucketAt(items, i);
    }
  }

  /** The chart data of a forecast list: every bucket summarised, then the first five kept. */
  function ChartDataOf(list: seq<ForecastItem>, weekdayOf: string -> string): Option<seq<DaySummary>> {
    BucketsNonEmpty(list);
    match SummarizeAll(Buckets(list), weekdayOf)
    case None => None
    case Some(all) => Some(Take(all, DaysShown))
  }

  /** `Object.entries` of the grouped dictionary, listed in key insertion order. */
  function Entries(dates: seq<string>, acc: map<string, seq<ForecastItem>>): seq<DayBucket>
    requires forall d :: d in dates ==> d in acc
    decreases |dates|
  {
    if dates == [] then [] else [DayBucket(dates[0], acc[dates[0]])] + Entries(dates[1..], acc)
  }

  lemma {:induction false} EntriesAreBuckets(list: seq<ForecastItem>, dates: seq<string>, acc: map<string, seq<ForecastItem>>)
    requires forall d :: d in dates ==> d in acc && acc[d] == ItemsOn(list, d)
    ensures Entries(dates, acc) == BucketsFor(list, dates)
    decreases |dates|
  {
    if dates != [] {
      EntriesAreBuckets(list, dates[1..], acc);
    }
  }

  /** The dashboard's computation of the chart, step by step: group with `reduce`, list
      the entries, summarise each, keep the first five. */
  method ComputeChartData(list: seq<ForecastItem>, weekdayOf: string -> string)
    returns (chart: Option<seq<DaySummary>>)
    ensures chart == ChartDataOf(list, weekdayOf)
  {
    var dates, acc := GroupByDate(list);
    EntriesAreBuckets(list, dates, acc);
    BucketsNonEmpty(list);
    assert Entries(dates, acc) == Buckets(list);
    var summaries := SummarizeAll(Entries(dates, acc), weekdayOf);
    if summaries.None? {
      return None;
    }
    chart := Some(Take(summaries.value, DaysShown));
  }

  /** `chartData`: empty without a forecast or its `list`; `None` stands for the
      TypeError the render throws when a representative has no `weather[0]`. */
  function ChartData(forecast: Option<LegacyForecast>, weekdayOf: string -> string): (r: Option<seq<DaySummary>>)
    ensures forecast.None? || forecast.value.list.None? ==> r == Some([])
    ensures r.Some? ==> |r.value| <= DaysShown
    ensures r.Some? ==> (r.value == [] <==> forecast.None? || forecast.value.list.None? || forecast.value.list.value == [])
  {
    if forecast.None? || forecast.value.list.None? then Some([])
    else
      var list := forecast.value.list.value;
      var r := ChartDataOf(list, weekdayOf);
      if r.None? then r
      else
        ChartDataLength(list, weekdayOf);
        DatesCover(list);
        assert list != [] ==> DateOf(list[0]) in Dates(list);
        r
  }

  lemma {:induction false} BucketsForLength(items: seq<ForecastItem>, dates: seq<string>)
    ensures |BucketsFor(items, dates)| == |dates|
    decreases |dates|
  {
    if dates != [] {
      BucketsForLength(items, dates[1..]);
    }
  }

  /** The chart fails exactly when the representative of some date, among all dates
      and not only the first five, has no condition. */
  lemma ChartDataFailsIffSomeDateLacksCondition(list: seq<ForecastItem>, weekdayOf: string -> string)
    ensures ChartDataOf(list, weekdayOf).Some? <==>
              forall i :: 0 <= i < |Dates(list)| ==>
                |ItemsOn(list, Dates(list)[i])| > 0
                && |Representative(ItemsOn(list, Dates(list)[i])).weather| > 0
  {
    BucketsNonEmpty(list);
    BucketsForLength(list, Dates(list));
    var bs := Buckets(list);
    forall i | 0 <= i < |Dates(list)|
      ensures bs[i] == DayBucket(Dates(list)[i], ItemsOn(list, Dates(list)[i]))
      ensures |ItemsOn(list, Dates(list)[i])| > 0
      ensures Summarize(bs[i], weekdayOf).Some? <==> |Representative(ItemsOn(list, Dates(list)[i])).weather| > 0
    {
      BucketAt(list, i);
    }
    assert |bs| == |Dates(list)|;
    assert ChartDataOf(list, weekdayOf).Some? <==> SummarizeAll(bs, weekdayOf).Some?;
    assert SummarizeAll(bs, weekdayOf).Some? <==> forall i :: 0 <= i < |bs| ==> Summarize(bs[i], weekdayOf).Some?;
  }

  /** The chart has an entry for each of the first five dates. */
  lemma ChartDataLength(list: seq<ForecastItem>, weekdayOf: string -> string)
    requires ChartDataOf(list, weekdayOf).Some?
    ensures |ChartDataOf(list, weekdayOf).value|
            == if |Dates(list)| < DaysShown then |Dates(list)| else DaysShown
  {
    BucketsNonEmpty(list);
    BucketsForLength(list, Dates(list));
  }

  /** Entry `i` of the chart summarises the `i`-th date in order of first appearance: the
      rounded minimum, maximum and mean of its unrounded temperatures, and the icon and
      description of its representative entry. */
  lemma ChartDataEntry(list: seq<ForecastItem>, weekdayOf: string -> string, i: int)
    requires ChartDataOf(list, weekdayOf).Some?
    requires 0 <= i < |ChartDataOf(list, weekdayOf).value|
    ensures i < |Dates(list)|
    ensures var entry := ChartDataOf(list, weekdayOf).value[i];
            var items := ItemsOn(list, Dates(list)[i]);
            && |items| > 0
            && |Representative(items).weather| > 0
            && entry.name == weekdayOf(Dates(list)[i])
            && entry.minTemp == Round(Min(Temps(items)))
            && entry.maxTemp == Round(Max(Temps(items)))
            && entry.temp == Round(Mean(Temps(items)))
            && entry.minTemp <= entry.temp <= entry.maxTemp
            && entry.icon == Representative(items).weather[0].icon
            && entry.description == Representative(items).weather[0].description
  {
    BucketsNonEmpty(list);
    BucketsForLength(list, Dates(list));
    BucketAt(list, i);
  }

  // ---------------------------------------------------------------------------
  // The hourly window
  // ---------------------------------------------------------------------------

  /** One entry of `hourlyData`: `time` is the locale time of `dt`. */
  datatype HourPoint = HourPoint(
    time: string, temp: int, icon: string, description: string,
    precipitation: real, humidity: int, windSpeed: int)

  /** The mapping applied to each forecast entry; `None` when it has no `weather[0]`. */
  function HourPointOf(item: ForecastItem, timeOf: int -> string): Option<HourPoint> {
    match PrimaryCondition(item.weather)
    case None => None
    case Some(c) =>
      Some(HourPoint(timeOf(item.dt), Round(item.temp), c.icon, c.description,
                     item.pop * 100.0, item.humidity, Round(item.windSpeed)))
  }

  /** `list.slice(0, 8).map(...)`. */
  function HourlyWindow(list: seq<ForecastItem>, timeOf: int -> string): Option<seq<HourPoint>> {
    var window := Take(list, HoursShown);
    AllSome(seq(|window|, i requires 0 <= i < |window| => HourPointOf(window[i], timeOf)))
  }

  /** The hourly window is the first min(8, n) entries in order, with rounded temperature
      and wind and the unrounded precipitation percentage; it fails exactly when one of
      those entries has no condition. */
  lemma HourlyWindowIsFirstEight(list: seq<ForecastItem>, timeOf: int -> string)
    ensures HourlyWindow(list, timeOf).Some? <==>
              forall i :: 0 <= i < |list| && i < HoursShown ==> |list[i].weather| > 0
    ensures HourlyWindow(list, timeOf).Some? ==>
              var hours := HourlyWindow(list, timeOf).value;
              && |hours| == (if |list| < HoursShown then |list| else HoursShown)
              && forall i :: 0 <= i < |hours| ==>
                   && hours[i].time == timeOf(list[i].dt)
                   && hours[i].temp == Round(list[i].temp)
                   && hours[i].windSpeed == Round(list[i].windSpeed)
                   && hours[i].precipitation == list[i].pop * 100.0
                   && hours[i].humidity == list[i].humidity
                   && hours[i].icon == list[i].weather[0].icon
                   && hours[i].description == list[i].weather[0].description
  {
    var window := Take(list, HoursShown);
    var points := seq(|window|, i requires 0 <= i < |window| => HourPointOf(window[i], timeOf));
    assert forall i :: 0 <= i < |window| ==> window[i] == list[i];
    assert forall i :: 0 <= i < |window| ==> (points[i].Some? <==> |list[i].weather| > 0);
  }

  /** The dashboard shows an hourly temperature as `formatTemp(hour.temp)`, and `hour.temp`
      is already rounded in Celsius, so imperial mode rounds twice: 0.4 °C is shown as
      "32°F" where rounding once would give "33°F". */
  lemma HourlyImperialRoundsTwice(item: ForecastItem, timeOf: int -> string)
    requires item.temp == 0.4 && |item.weather| > 0
    ensures HourPointOf(item, timeOf).value.temp == 0
    ensures FormatConvertedTemp(Imperial, HourPointOf(item, timeOf).value.temp as real) == "32°F"
    ensures FormatConvertedTemp(Imperial, item.temp) == "33°F"
  {
    assert Round(0.4) == 0;
    assert Round(32.0) == 32;
    assert Round(0.4 * 9.0 / 5.0 + 32.0) == 33;
    assert NatToString(32) == NatToString(3) + [DigitChar(2)];
    assert NatToString(33) == NatToString(3) + [DigitChar(3)];
  }
}
