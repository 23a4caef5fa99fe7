/** The statistics of components/screens/UserDashboardScreen.tsx: practice streaks,
    achievements, the favourite industry and interview type, and the guards of the
    improvement rate, computed from the user's interview log. */
module UserDashboard {
  import opened InterviewTypes
  import opened Lists

  /** One row of the interview log; an empty string stands for a missing value and
      a missing duration is 0. */
  datatype Usage = Usage(industry: string, interviewType: string, duration: int)

  // ===========================================================================
  // calculateStreaks

  /** The practice days are day numbers in the order the screen sorts them, each
      once. Two neighbours are linked when the later is the day after the earlier. */
  predicate Linked(days: seq<int>, i: nat)
    requires i + 1 < |days|
  {
    days[i + 1] - days[i] == 1
  }

  /** The length of the run of linked neighbours that ends at position `j`. */
  function RunEndingAt(days: seq<int>, j: nat): (r: nat)
    requires j < |days|
    ensures 1 <= r <= j + 1
  {
    if j == 0 then 1 else if Linked(days, j - 1) then RunEndingAt(days, j - 1) + 1 else 1
  }

  /** The longest run ending before position `k`. */
  function MaxRun(days: seq<int>, k: nat): (m: nat)
    requires 1 <= k <= |days|
    ensures 1 <= m <= k
  {
    if k == 1 then 1 else Max(MaxRun(days, k - 1), RunEndingAt(days, k - 1))
  }

  function Max(a: int, b: int): int {
    if a >= b then a else b
  }

  /** The current streak: the run ending at the last day, when today or yesterday
      was a practice day, and 0 otherwise. */
  function CurrentStreak(days: seq<int>, today: int, yesterday: int): nat {
    if days != [] && (today in days || yesterday in days) then RunEndingAt(days, |days| - 1) else 0
  }

  /** The longest streak: the longest run of linked neighbours, 0 without days. */
  function LongestStreak(days: seq<int>): nat {
    if days == [] then 0 else MaxRun(days, |days|)
  }

  /** `calculateStreaks(interviews)` over the sorted practice days; `today` and
      `yesterday` are the day numbers of the clock. */
  method CalculateStreaks(days: seq<int>, today: int, yesterday: int) returns (current: nat, longest: nat)
    ensures current == CurrentStreak(days, today, yesterday)
    ensures longest == LongestStreak(days)
  {
    if |days| == 0 {
      return 0, 0;
    }
    current := 0;
    longest := 0;
    var temp := 1;
    var n := |days|;
    if today in days || yesterday in days {
      current := 1;
      var i := n - 2;
      while i >= 0
        invariant -1 <= i <= n - 2
        invariant current == n - 1 - i
        invariant RunEndingAt(days, n - 1) == current - 1 + RunEndingAt(days, i + 1)
      {
        if days[i + 1] - days[i] == 1 {
          current := current + 1;
        } else {
          break;
        }
        i := i - 1;
      }
    }
    var i := 1;
    while i < n
      invariant 1 <= i <= n
      invariant temp == RunEndingAt(days, i - 1)
      invariant longest <= MaxRun(days, i) && Max(longest, temp) == MaxRun(days, i)
    {
      if days[i] - days[i - 1] == 1 {
        temp := temp + 1;
      } else {
        longest := Max(longest, temp);
        temp := 1;
      }
      i := i + 1;
    }
    longest := Max(longest, temp);
  }

  /** A run ending at `j` is a maximal block of linked neighbours: every neighbour
      inside it is linked, and the one just before it, if any, is not. */
  lemma {:induction false} RunIsMaximal(days: seq<int>, j: nat)
    requires j < |days|
    ensures var start := j + 1 - RunEndingAt(days, j);
      && (forall i | start <= i < j :: Linked(days, i))
      && (start > 0 ==> !Linked(days, start - 1))
  {
    if j > 0 && Linked(days, j - 1) {
      RunIsMaximal(days, j - 1);
    }
  }

  /** The longest run is the largest of the runs: none is longer, and one has its
      length. */
  lemma {:induction false} MaxRunIsMaximum(days: seq<int>, k: nat)
    requires 1 <= k <= |days|
    ensures forall j | 0 <= j < k :: RunEndingAt(days, j) <= MaxRun(days, k)
    ensures exists j | 0 <= j < k :: RunEndingAt(days, j) == MaxRun(days, k)
  {
    if k == 1 {
      assert RunEndingAt(days, 0) == MaxRun(days, 1);
    } else {
      MaxRunIsMaximum(days, k - 1);
      if MaxRun(days, k - 1) < RunEndingAt(days, k - 1) {
        assert RunEndingAt(days, k - 1) == MaxRun(days, k);
      }
    }
  }

  /** Streak bounds: with practice days the longest streak is between 1 and their
      number, the current streak never exceeds it, and the current streak is 0
      unless today or yesterday was a practice day. */
  lemma StreakBounds(days: seq<int>, today: int, yesterday: int)
    ensures days == [] ==> CurrentStreak(days, today, yesterday) == 0 && LongestStreak(days) == 0
    ensures days != [] ==> 1 <= LongestStreak(days) <= |days|
    ensures CurrentStreak(days, today, yesterday) <= LongestStreak(days)
    ensures today !in days && yesterday !in days ==> CurrentStreak(days, today, yesterday) == 0
  {
    if days != [] {
      MaxRunIsMaximum(days, |days|);
    }
  }

  // ===========================================================================
  // loadAchievements

  datatype Achievement = Achievement(id: string, unlocked: bool, progress: Option<int>, target: Option<int>)

  function Min(a: int, b: int): int {
    if a <= b then a else b
  }

  /** The set of values that are present, as `new Set(values.filter(Boolean))`. */
  function Present(values: seq<string>): set<string> {
    set i | 0 <= i < |values| && values[i] != "" :: values[i]
  }

  /** An achievement unlocked by reaching `target`, showing progress up to it. */
  function Counted(id: string, count: int, target: int): Achievement {
    Achievement(id, count >= target, Some(Min(count, target)), Some(target))
  }

  /** `loadAchievements()`: five achievements from the number of interviews and the
      number of different industries and interview types practised. */
  function Achievements(log: seq<Usage>): (list: seq<Achievement>)
    ensures |list| == 5
  {
    var count := |log|;
    [Achievement("first_interview", count >= 1, None, None),
     Counted("interview_5", count, 5),
     Counted("interview_10", count, 10),
     Counted("industry_explorer", IndustriesTried(log), 3),
     Counted("interview_variety", KindsTried(log), 3)]
  }

  /** The number of different industries practised. */
  function IndustriesTried(log: seq<Usage>): nat {
    |Present(seq(|log|, i requires 0 <= i < |log| => log[i].industry))|
  }

  /** The number of different interview types practised. */
  function KindsTried(log: seq<Usage>): nat {
    |Present(seq(|log|, i requires 0 <= i < |log| => log[i].interviewType))|
  }

  /** Whether achievement `a` is the one named `id`, unlocked by reaching `target`
      with `count`, and showing `count` capped at the target as its progress. */
  predicate Tracks(a: Achievement, id: string, count: int, target: int) {
    a.id == id && a.target == Some(target) && a.progress == Some(Min(count, target))
    && (a.unlocked <==> count >= target)
  }

  /** The first achievement is unlocked by one interview; the others show their
      count capped at the target (5 and 10 interviews, 3 industries, 3 interview
      types) and are unlocked exactly when the count reaches it. So every progress
      lies between 0 and the target, and a longer log never locks an achievement
      again. */
  lemma AchievementsMeaning(log: seq<Usage>, more: seq<Usage>)
    ensures var list := Achievements(log);
      && list[0].id == "first_interview" && (list[0].unlocked <==> |log| >= 1)
      && Tracks(list[1], "interview_5", |log|, 5)
      && Tracks(list[2], "interview_10", |log|, 10)
      && Tracks(list[3], "industry_explorer", IndustriesTried(log), 3)
      && Tracks(list[4], "interview_variety", KindsTried(log), 3)
    ensures forall a | a in Achievements(log) && a.target.Some? ::
      a.progress.Some? && 0 <= a.progress.value <= a.target.value
      && (a.unlocked <==> a.progress.value == a.target.value)
    ensures forall i | 0 <= i < 5 :: Achievements(log)[i].unlocked ==> Achievements(log + more)[i].unlocked
  {
    var all := log + more;
    var a := seq(|log|, i requires 0 <= i < |log| => log[i].industry);
    var b := seq(|all|, i requires 0 <= i < |all| => all[i].industry);
    PresentGrows(a, b);
    var c := seq(|log|, i requires 0 <= i < |log| => log[i].interviewType);
    var d := seq(|all|, i requires 0 <= i < |all| => all[i].interviewType);
    PresentGrows(c, d);
  }

  /** Extending the log keeps every value already present. */
  lemma PresentGrows(a: seq<string>, b: seq<string>)
    requires |a| <= |b| && forall i | 0 <= i < |a| :: a[i] == b[i]
    ensures Present(a) <= Present(b) && |Present(a)| <= |Present(b)|
  {
    assert Present(a) <= Present(b);
    SubsetCard(Present(a), Present(b));
  }

  lemma SubsetCard<T>(a: set<T>, b: set<T>)
    requires a <= b
    ensures |a| <= |b|
  {
    assert b == a + (b - a);
  }

  // ===========================================================================
  // loadUserStats: the favourite by count

  const Unset: string := "未設定"

  /** `i.industry || '未設定'`. */
  function Label(value: string): string {
    if value == "" then Unset else value
  }

  /** The labels counted for the values: no label is empty, a set value is its
      own label, and an empty one is counted as 未設定. */
  function Labels(values: seq<string>): (r: seq<string>)
    ensures |r| == |values|
    ensures forall i | 0 <= i < |r| :: r[i] != ""
    ensures forall i | 0 <= i < |values| :: values[i] != "" ==> r[i] == values[i]
    ensures forall i | 0 <= i < |values| :: values[i] == "" ==> r[i] == Unset
  {
    seq(|values|, i requires 0 <= i < |values| => Label(values[i]))
  }

  /** How often `key` occurs. */
  function Occurrences(labels: seq<string>, key: string): nat
    decreases |labels|
  {
    if labels == [] then 0 else (if labels[0] == key then 1 else 0) + Occurrences(labels[1..], key)
  }

  /** `keys.reduce((a, b) => count[a] > count[b] ? a : b, acc)`, where a label that
      was never counted compares as not greater. */
  function PickMost(keys: seq<string>, labels: seq<string>, acc: string): string
    decreases |keys|
  {
    if keys == [] then acc
    else
      var next := if acc in labels && Occurrences(labels, acc) > Occurrences(labels, keys[0]) then acc else keys[0];
      PickMost(keys[1..], labels, next)
  }

  /** The favourite of `loadUserStats()`: over the keys of the count record, in the
      order the labels first appear, starting from 未設定. */
  function Favorite(values: seq<string>): string {
    PickMost(Dedup(Labels(values)), Labels(values), Unset)
  }

  /** The reduction picks a most frequent key, and a key as frequent as the pick
      comes before it. */
  lemma {:induction false} PickMostFacts(keys: seq<string>, labels: seq<string>, acc: string)
    requires keys != [] && forall k | k in keys :: k in labels
    ensures var r := PickMost(keys, labels, acc);
      && (r == acc || r in keys)
      && r in labels
      && (forall k | k in keys :: Occurrences(labels, k) <= Occurrences(labels, r))
      && (acc in labels ==> Occurrences(labels, acc) <= Occurrences(labels, r))
      && (forall j | 0 <= j < |keys| && Occurrences(labels, keys[j]) == Occurrences(labels, r) ::
            keys[j] == r || exists i | j < i < |keys| :: keys[i] == r)
    decreases |keys|
  {
    var next := if acc in labels && Occurrences(labels, acc) > Occurrences(labels, keys[0]) then acc else keys[0];
    var rest := keys[1..];
    var r := PickMost(keys, labels, acc);
    if rest != [] {
      PickMostFacts(rest, labels, next);
      assert forall k | k in keys :: k == keys[0] || k in rest;
      forall j | 0 <= j < |keys| && Occurrences(labels, keys[j]) == Occurrences(labels, r)
        ensures keys[j] == r || exists i | j < i < |keys| :: keys[i] == r
      {
        if j > 0 {
          assert keys[j] == rest[j - 1];
          if keys[j] != r {
            var i :| j - 1 < i < |rest| && rest[i] == r;
            assert keys[i + 1] == r;
          }
        } else if r in rest {
          var i :| 0 <= i < |rest| && rest[i] == r;
          assert keys[i + 1] == r;
        }
      }
    }
  }

  /** `favoriteIndustry` and `favoriteInterviewType`: 未設定 without interviews;
      otherwise a label of greatest count, and any label counted as often first
      appeared earlier, so ties go to the later key. */
  lemma FavoriteIsMostFrequent(values: seq<string>)
    ensures values == [] ==> Favorite(values) == Unset
    ensures values != [] ==>
      var labels := Labels(values);
      var f := Favorite(values);
      && f in labels
      && (forall i | 0 <= i < |values| :: Occurrences(labels, labels[i]) <= Occurrences(labels, f))
      && (forall i | 0 <= i < |values| && Occurrences(labels, labels[i]) == Occurrences(labels, f) ::
            labels[i] == f || FirstIndex(labels, labels[i]) < FirstIndex(labels, f))
  {
    var labels := Labels(values);
    var keys := Dedup(labels);
    DedupExact(labels);
    if values != [] {
      assert labels[0] in keys;
      PickMostFacts(keys, labels, Unset);
      var f := Favorite(values);
      forall i | 0 <= i < |values| && Occurrences(labels, labels[i]) == Occurrences(labels, f)
        ensures labels[i] == f || FirstIndex(labels, labels[i]) < FirstIndex(labels, f)
      {
        assert labels[i] in keys;
        var j :| 0 <= j < |keys| && keys[j] == labels[i];
        if labels[i] != f {
          var k :| j < k < |keys| && keys[k] == f;
        }
      }
    }
  }

  // ===========================================================================
  // calculateImprovementRate

  /** The guarded part of `calculateImprovementRate`: no rate, or the totals and
      sizes of the recent half (rounded up) and the older half from which the
      percentage is computed. */
  datatype Improvement = NoRate | Rate(recentTotal: int, recentCount: nat, olderTotal: int, olderCount: nat)

  function Total(durations: seq<int>): int
    decreases |durations|
  {
    if durations == [] then 0 else durations[0] + Total(durations[1..])
  }

  /** The size of the recent half: half the log, rounded up. */
  function RecentCount(n: nat): nat {
    (n + 1) / 2
  }

  lemma RecentCountFacts(n: nat)
    requires n >= 2
    ensures 1 <= RecentCount(n) < n
    ensures RecentCount(n) == (n - RecentCount(n)) + n % 2
  {
  }

  /** `calculateImprovementRate(interviews)` up to its floating-point percentage;
      the log is newest first. */
  function ImprovementRate(durations: seq<int>): Improvement {
    if |durations| < 2 then NoRate
    else
      var half := RecentCount(|durations|);
      var recent := durations[..half];
      var older := durations[half..];
      if Total(older) == 0 then NoRate
      else Rate(Total(recent), |recent|, Total(older), |older|)
  }

  lemma {:induction false} TotalAppend(a: seq<int>, b: seq<int>)
    ensures Total(a + b) == Total(a) + Total(b)
    decreases |a|
  {
    if a != [] {
      TotalAppend(a[1..], b);
      assert (a + b)[1..] == a[1..] + b;
    } else {
      assert a + b == b;
    }
  }

  /** A rate is only computed from two interviews on, and never against an older
      half whose average is 0; the halves split the log, the recent half being the
      larger when the count is odd. */
  lemma ImprovementGuards(durations: seq<int>)
    ensures |durations| < 2 ==> ImprovementRate(durations) == NoRate
    ensures ImprovementRate(durations).Rate? <==>
      |durations| >= 2 && Total(durations[RecentCount(|durations|)..]) != 0
    ensures match ImprovementRate(durations)
      case NoRate => true
      case Rate(rt, rc, ot, oc) =>
        && rc + oc == |durations| && rc == oc + |durations| % 2 && oc >= 1
        && ot == Total(durations[RecentCount(|durations|)..]) && ot != 0
        && rt + ot == Total(durations)
  {
    if |durations| >= 2 {
      var half := RecentCount(|durations|);
      RecentCountFacts(|durations|);
      var recent, older := durations[..half], durations[half..];
      assert durations == recent + older;
      TotalAppend(recent, older);
    }
  }

  // ===========================================================================
  // loadUserStats

  /** The integer part of `UserStats`. */
  datatype UserStats = UserStats(
    totalInterviews: nat,
    favoriteIndustry: string,
    favoriteInterviewType: string,
    longestStreak: nat,
    currentStreak: nat,
    improvement: Improvement)

  /** `loadUserStats()` for a log (newest first) and its sorted practice days. */
  method LoadUserStats(log: seq<Usage>, days: seq<int>, today: int, yesterday: int) returns (stats: UserStats)
    ensures stats.totalInterviews == |log|
    ensures stats.favoriteIndustry == Favorite(seq(|log|, i requires 0 <= i < |log| => log[i].industry))
    ensures stats.favoriteInterviewType == Favorite(seq(|log|, i requires 0 <= i < |log| => log[i].interviewType))
    ensures stats.currentStreak == CurrentStreak(days, today, yesterday)
    ensures stats.longestStreak == LongestStreak(days)
    ensures stats.improvement == ImprovementRate(seq(|log|, i requires 0 <= i < |log| => log[i].duration))
  {
    var current, longest := CalculateStreaks(days, today, yesterday);
    stats := UserStats(
      |log|,
      Favorite(seq(|log|, i requires 0 <= i < |log| => log[i].industry)),
      Favorite(seq(|log|, i requires 0 <= i < |log| => log[i].interviewType)),
      longest, current,
      ImprovementRate(seq(|log|, i requires 0 <= i < |log| => log[i].duration)));
  }
}
