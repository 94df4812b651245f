/**
 * The pure logic of devtrackr-frontend/src/components/GitHubContributions.tsx: how a day's
 * contribution count becomes a heat-map level and a colour class, how the statistics totals
 * are summed, and how the days are grouped into weeks of seven for display.
 */
module Contributions {
  import opened Wrappers

  /** A day as the contributions service returns it. */
  datatype ApiDay = ApiDay(date: string, count: int)

  /** A day as the component stores and draws it. */
  datatype ContributionDay = ContributionDay(date: string, count: int, level: int)

  /** The `total` field of the service's reply, by its JavaScript type. */
  datatype TotalField =
    | YearTotals(years: seq<Option<int>>)  // a non-null object; None for a value `Number()` cannot read
    | Number(n: int)
    | Other                                // null, undefined, a string, ...

  /** A repository of the user; `None` when it has no `stargazers_count`. */
  datatype Repo = Repo(stargazersCount: Option<int>)

  /** The heat-map level of a day's count (the same chain of conditions in the mock generator). */
  function Level(count: int): (level: int)
    ensures 0 <= level <= 4
    ensures count >= 0 ==> (level == 0 <==> count == 0)
    ensures count > 8 <==> level == 4
    ensures count < 0 ==> level == 1
  {
    if count == 0 then 0
    else if count <= 2 then 1
    else if count <= 5 then 2
    else if count <= 8 then 3
    else 4
  }

  /** More contributions never give a lower level. */
  lemma LevelIsMonotone(a: int, b: int)
    requires 0 <= a <= b
    ensures Level(a) <= Level(b)
  {
  }

  /** Each level covers exactly its bucket of counts: 1-2, 3-5, 6-8, 9 and more. */
  lemma LevelBuckets(count: int)
    requires count > 0
    ensures Level(count) == 1 <==> count <= 2
    ensures Level(count) == 2 <==> 3 <= count <= 5
    ensures Level(count) == 3 <==> 6 <= count <= 8
  {
  }

  /** `getLevelColor`: the tile's colour classes. */
  function LevelColor(level: int): (c: string)
    ensures !(1 <= level <= 4) ==> c == "bg-slate-100 dark:bg-slate-800"
    ensures 1 <= level <= 4 ==> |c| > 9 && c[..9] == "bg-green-"
  {
    match level
    case 1 => "bg-green-200 dark:bg-green-900"
    case 2 => "bg-green-300 dark:bg-green-700"
    case 3 => "bg-green-400 dark:bg-green-600"
    case 4 => "bg-green-500 dark:bg-green-500"
    case _ => "bg-slate-100 dark:bg-slate-800"
  }

  /** Every level outside 1..4 is drawn like level 0, and the five levels 0..4 all look different. */
  lemma LevelColorFallback(level: int, other: int)
    ensures !(1 <= level <= 4) ==> LevelColor(level) == LevelColor(0)
    ensures 0 <= level <= 4 && 0 <= other <= 4 && level != other ==> LevelColor(level) != LevelColor(other)
  {
  }

  /** `contributions.map(day => ({ date, count, level }))`. */
  function ToContributionDays(days: seq<ApiDay>): (r: seq<ContributionDay>)
    ensures |r| == |days|
    ensures forall i :: 0 <= i < |days| ==> r[i].date == days[i].date && r[i].count == days[i].count
    ensures forall i :: 0 <= i < |days| ==> 0 <= r[i].level <= 4
    ensures forall i :: 0 <= i < |days| ==> r[i].level == Level(days[i].count)
  {
    seq(|days|, i requires 0 <= i < |days| => ContributionDay(days[i].date, days[i].count, Level(days[i].count)))
  }

  /** `totalThisYear`: the sum of the drawn days' counts. */
  function TotalThisYear(days: seq<ContributionDay>): (total: int)
    ensures (forall i :: 0 <= i < |days| ==> days[i].count >= 0) ==> total >= 0
    ensures (forall i :: 0 <= i < |days| ==> days[i].count == 0) ==> total == 0
  {
    if days == [] then 0 else TotalThisYear(days[..|days| - 1]) + days[|days| - 1].count
  }

  lemma {:induction false} TotalThisYearAppend(a: seq<ContributionDay>, b: seq<ContributionDay>)
    ensures TotalThisYear(a + b) == TotalThisYear(a) + TotalThisYear(b)
    decreases |b|
  {
    if b != [] {
      assert (a + b)[..|a + b| - 1] == a + b[..|b| - 1];
      TotalThisYearAppend(a, b[..|b| - 1]);
    } else {
      assert a + b == a;
    }
  }

  /** The fallback total: `contributions.reduce((sum, day) => sum + (day.count || 0), 0)`. */
  function CountSum(days: seq<ApiDay>): (total: int)
    ensures (forall i :: 0 <= i < |days| ==> days[i].count >= 0) ==> total >= 0
    ensures (forall i :: 0 <= i < |days| ==> days[i].count == 0) ==> total == 0
  {
    if days == [] then 0 else CountSum(days[..|days| - 1]) + days[|days| - 1].count
  }

  /** The fallback total of the statistics is the heading's `totalThisYear` over the same days. */
  lemma {:induction false} CountSumIsTotalThisYear(days: seq<ApiDay>)
    ensures CountSum(days) == TotalThisYear(ToContributionDays(days))
  {
    if days != [] {
      var init := days[..|days| - 1];
      assert ToContributionDays(days)[..|days| - 1] == ToContributionDays(init);
      CountSumIsTotalThisYear(init);
    }
  }

  /** `xs.reduce((sum, x) => sum + (x || 0), 0)`: a sum in which a missing value counts as 0. */
  function SumOrZero(xs: seq<Option<int>>): (total: int)
    ensures (forall i :: 0 <= i < |xs| && xs[i].Some? ==> xs[i].value >= 0) ==> total >= 0
  {
    if xs == [] then 0
    else SumOrZero(xs[..|xs| - 1]) + (if xs[|xs| - 1].Some? then xs[|xs| - 1].value else 0)
  }

  /** A list with no value present sums to 0. */
  lemma {:induction false} SumOrZeroProperties(xs: seq<Option<int>>)
    ensures (forall i :: 0 <= i < |xs| ==> xs[i].None?) ==> SumOrZero(xs) == 0
  {
    if xs != [] {
      SumOrZeroProperties(xs[..|xs| - 1]);
    }
  }

  /** A missing value adds exactly what a present 0 would: filling the gaps with 0 keeps the sum. */
  lemma {:induction false} SumOrZeroFillsWithZero(xs: seq<Option<int>>, ys: seq<Option<int>>)
    requires |ys| == |xs|
    requires forall i :: 0 <= i < |xs| ==> ys[i] == if xs[i].Some? then xs[i] else Some(0)
    ensures SumOrZero(xs) == SumOrZero(ys)
  {
    if xs != [] {
      SumOrZeroFillsWithZero(xs[..|xs| - 1], ys[..|ys| - 1]);
    }
  }

  /** `totalStars`: the repositories' star counts summed, missing counts as 0. */
  function TotalStars(repos: seq<Repo>): (stars: int)
    ensures (forall i :: 0 <= i < |repos| && repos[i].stargazersCount.Some? ==> repos[i].stargazersCount.value >= 0) ==> stars >= 0
  {
    var counts := seq(|repos|, i requires 0 <= i < |repos| => repos[i].stargazersCount);
    SumOrZeroProperties(counts);
    SumOrZero(counts)
  }

  /**
   * `totalContributions`: the per-year totals summed when `total` is an object, `total` itself when
   * it is a number, otherwise the days' counts summed.
   */
  function TotalContributions(total: TotalField, days: seq<ApiDay>): (r: int)
    ensures total.Other? ==> r == TotalThisYear(ToContributionDays(days))
    ensures total.Number? ==> r == total.n
  {
    match total
    case YearTotals(years) => SumOrZero(years)
    case Number(n) => n
    case Other => CountSumIsTotalThisYear(days); CountSum(days)
  }

  /** The days of consecutive weeks, in order. */
  function Flatten(weeks: seq<seq<ContributionDay>>): seq<ContributionDay>
  {
    if weeks == [] then [] else Flatten(weeks[..|weeks| - 1]) + weeks[|weeks| - 1]
  }

  /** The weeks' totals summed. */
  function SumWeeks(weeks: seq<seq<ContributionDay>>): int
  {
    if weeks == [] then 0 else SumWeeks(weeks[..|weeks| - 1]) + TotalThisYear(weeks[|weeks| - 1])
  }

  lemma {:induction false} TotalOfFlatten(weeks: seq<seq<ContributionDay>>)
    ensures TotalThisYear(Flatten(weeks)) == SumWeeks(weeks)
  {
    if weeks != [] {
      TotalOfFlatten(weeks[..|weeks| - 1]);
      TotalThisYearAppend(Flatten(weeks[..|weeks| - 1]), weeks[|weeks| - 1]);
    }
  }

  /**
   * The grouping loop: slices of seven days, in order. The weeks give back the days exactly; all
   * but the last have seven days and the last has one to seven; there are ceil(n / 7) of them;
   * and their totals add up to `totalThisYear`.
   */
  method GroupWeeks(contributions: seq<ContributionDay>) returns (weeks: seq<seq<ContributionDay>>)
    ensures Flatten(weeks) == contributions
    ensures |weeks| == (|contributions| + 6) / 7
    ensures forall w :: 0 <= w < |weeks| - 1 ==> |weeks[w]| == 7
    ensures |weeks| > 0 ==> 1 <= |weeks[|weeks| - 1]| <= 7
    ensures SumWeeks(weeks) == TotalThisYear(contributions)
  {
    var n := |contributions|;
    weeks := [];
    var i := 0;
    while i < n
      invariant i % 7 == 0 && |weeks| == i / 7
      invariant i <= n ==> Flatten(weeks) == contributions[..i]
      invariant i > n ==> i < n + 7 && Flatten(weeks) == contributions
      invariant forall w :: 0 <= w < |weeks| - 1 ==> |weeks[w]| == 7
      invariant i <= n && |weeks| > 0 ==> |weeks[|weeks| - 1]| == 7
      invariant |weeks| > 0 ==> 1 <= |weeks[|weeks| - 1]| <= 7
    {
      var week := contributions[i..if i + 7 < n then i + 7 else n];
      assert (weeks + [week])[..|weeks|] == weeks;
      assert contributions[..i] + week == contributions[..if i + 7 < n then i + 7 else n];
      weeks := weeks + [week];
      i := i + 7;
    }
    assert n == 0 ==> weeks == [];
    TotalOfFlatten(weeks);
  }
}
