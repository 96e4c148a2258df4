/**
 * The 60-day checklist: the generation loop of `handleGenerateClick`
 * (app.js:204-219) and the count and warning tier of `updateProgress`
 * (app.js:54-72).
 */
module Schedule {
  import opened Calendar
  import opened DayKeys

  const TOTAL_DAYS := 60
  const WARNING_DAYS_REMAINING := 15

  /** One row of the checklist table (the hard-coded dosage cells are not modelled). */
  datatype DayRow = DayRow(dayNumber: int, date: Date, key: string, completed: bool)

  /** A start day a picker value can parse to. */
  predicate IsStart(start: Date) {
    Valid(start) && 0 <= start.year <= 9999
  }

  /** The whole 60-day window has four-digit years, so its keys are in chronological order. */
  predicate InFourDigitYears(start: Date) {
    IsStart(start) && AddDays(start, TOTAL_DAYS - 1).year <= 9999
  }

  /** The key of day `i` (0-based) of the window. */
  function DayKey(start: Date, i: nat): string
    requires IsStart(start) && i < TOTAL_DAYS
  {
    Key(AddDays(start, i))
  }

  /** The keys of the window, in day order. */
  function ScheduleKeys(start: Date): (keys: seq<string>)
    requires IsStart(start)
    ensures |keys| == TOTAL_DAYS
    ensures forall i :: 0 <= i < TOTAL_DAYS ==> keys[i] == DayKey(start, i)
  {
    seq(TOTAL_DAYS, i requires 0 <= i < TOTAL_DAYS => DayKey(start, i))
  }

  /** Each key flagged by whether it is `<=` today's key. */
  function Flags(keys: seq<string>, todayKey: string): map<string, bool> {
    map k | k in keys :: StrLe(k, todayKey)
  }

  /** The completion map a freshly generated plan stores. */
  function DefaultDays(start: Date, todayKey: string): map<string, bool>
    requires IsStart(start)
  {
    Flags(ScheduleKeys(start), todayKey)
  }

  /** Day `i` of the window is in the default map, checked iff its key is at most today's. */
  lemma DefaultDayFlag(start: Date, todayKey: string, i: nat)
    requires IsStart(start) && i < TOTAL_DAYS
    ensures DayKey(start, i) in DefaultDays(start, todayKey)
    ensures DefaultDays(start, todayKey)[DayKey(start, i)] == StrLe(DayKey(start, i), todayKey)
  {
    assert ScheduleKeys(start)[i] == DayKey(start, i);
  }

  /** The table row of day `i` of the window. */
  function DefaultRow(start: Date, todayKey: string, i: nat): DayRow
    requires IsStart(start) && i < TOTAL_DAYS
  {
    DayRow(i + 1, AddDays(start, i), DayKey(start, i), StrLe(DayKey(start, i), todayKey))
  }

  /** The table a freshly generated plan shows. */
  function DefaultRows(start: Date, todayKey: string): (rows: seq<DayRow>)
    requires IsStart(start)
    ensures |rows| == TOTAL_DAYS
    ensures forall i :: 0 <= i < TOTAL_DAYS ==> rows[i] == DefaultRow(start, todayKey, i)
  {
    seq(TOTAL_DAYS, i requires 0 <= i < TOTAL_DAYS => DefaultRow(start, todayKey, i))
  }

  /** The displayed end date: `endDate.setDate(startDate.getDate() + TOTAL_DAYS - 1)`. */
  function EndDate(start: Date): (e: Date)
    requires IsStart(start)
    ensures e == AddDays(start, TOTAL_DAYS - 1)
    ensures Key(e) == ScheduleKeys(start)[TOTAL_DAYS - 1]
  {
    SetDateAddsDays(start, TOTAL_DAYS - 1);
    SetDate(start, start.day + TOTAL_DAYS - 1)
  }

  /**
   * The loop of `handleGenerateClick`: day `i` is `setDate(getDate() + i)` on a copy
   * of the start, its key is checked iff it is `<=` today's key, and the flag is
   * stored under the key in the new completion map.
   */
  method GenerateSchedule(start: Date, todayKey: string) returns (rows: seq<DayRow>, days: map<string, bool>)
    requires IsStart(start)
    ensures rows == DefaultRows(start, todayKey)
    ensures days == DefaultDays(start, todayKey)
  {
    rows, days := [], map[];
    ghost var keys: seq<string> := [];
    for i := 0 to TOTAL_DAYS
      invariant |rows| == i && |keys| == i
      invariant forall j :: 0 <= j < i ==> rows[j] == DefaultRow(start, todayKey, j)
      invariant forall j :: 0 <= j < i ==> keys[j] == DayKey(start, j)
      invariant days.Keys == set k | k in keys
      invariant forall k :: k in days ==> days[k] == StrLe(k, todayKey)
    {
      var currentDate := SetDate(start, start.day + i);
      SetDateAddsDays(start, i);
      var dateKey := Key(currentDate);
      var isChecked := StrLe(dateKey, todayKey);
      days := days[dateKey := isChecked];
      keys := keys + [dateKey];
      rows := rows + [DayRow(i + 1, currentDate, dateKey, isChecked)];
    }
    assert keys == ScheduleKeys(start);
    FlagsExtensional(keys, todayKey, days);
  }

  lemma FlagsExtensional(keys: seq<string>, todayKey: string, days: map<string, bool>)
    requires days.Keys == set k | k in keys
    requires forall k :: k in days ==> days[k] == StrLe(k, todayKey)
    ensures days == Flags(keys, todayKey)
  {
  }

  // ---------------------------------------------------------------------
  // Properties of a freshly generated plan.

  predicate Distinct(s: seq<string>) {
    forall i, j :: 0 <= i < j < |s| ==> s[i] != s[j]
  }

  lemma {:induction false} DistinctCardinality(s: seq<string>)
    requires Distinct(s)
    ensures |set x | x in s| == |s|
  {
    if s != [] {
      var init := s[..|s| - 1];
      DistinctCardinality(init);
      assert (set x | x in s) == (set x | x in init) + {s[|s| - 1]};
    }
  }

  /** The window has sixty different keys, so the stored map has exactly sixty entries. */
  lemma ScheduleKeysDistinct(start: Date, todayKey: string)
    requires IsStart(start)
    ensures Distinct(ScheduleKeys(start))
    ensures |DefaultDays(start, todayKey)| == TOTAL_DAYS
  {
    var keys := ScheduleKeys(start);
    forall i, j | 0 <= i < j < TOTAL_DAYS
      ensures keys[i] != keys[j]
    {
      AddDaysIncreasing(start, i, j);
      if keys[i] == keys[j] {
        KeyInjective(AddDays(start, i), AddDays(start, j));
      }
    }
    DistinctCardinality(keys);
    assert DefaultDays(start, todayKey).Keys == set x | x in keys;
  }

  /** Within four-digit years the keys strictly increase as strings. */
  lemma ScheduleKeysIncrease(start: Date, i: nat, j: nat)
    requires InFourDigitYears(start) && i < j < TOTAL_DAYS
    ensures StrLe(DayKey(start, i), DayKey(start, j)) && DayKey(start, i) != DayKey(start, j)
  {
    AddDaysIncreasing(start, i, j);
    if j < TOTAL_DAYS - 1 {
      AddDaysIncreasing(start, j, TOTAL_DAYS - 1);
    }
    KeyOrder(AddDays(start, i), AddDays(start, j));
    if DayKey(start, i) == DayKey(start, j) {
      KeyInjective(AddDays(start, i), AddDays(start, j));
    }
  }

  /**
   * The default flags are a run of checked days followed by a run of unchecked
   * ones, and the day whose key is today's is checked.
   */
  lemma CheckedDaysArePrefix(start: Date, todayKey: string)
    requires InFourDigitYears(start)
    ensures forall i, j :: 0 <= i < j < TOTAL_DAYS ==>
      (DefaultRows(start, todayKey)[j].completed ==> DefaultRows(start, todayKey)[i].completed)
    ensures forall i :: 0 <= i < TOTAL_DAYS ==>
      (DayKey(start, i) == todayKey ==> DefaultRows(start, todayKey)[i].completed)
  {
    var rows := DefaultRows(start, todayKey);
    forall i, j | 0 <= i < j < TOTAL_DAYS && rows[j].completed
      ensures rows[i].completed
    {
      ScheduleKeysIncrease(start, i, j);
      StrLeTransitive(DayKey(start, i), DayKey(start, j), todayKey);
    }
    StrLeReflexive(todayKey);
  }

  /** With today's key taken from a day of a four-digit year, a day is checked iff it is not after today. */
  lemma CheckedIffNotAfterToday(start: Date, today: Date, i: nat)
    requires InFourDigitYears(start) && Valid(today) && 0 <= today.year <= 9999
    requires i < TOTAL_DAYS
    ensures StrLe(DayKey(start, i), Key(today)) <==> Le(AddDays(start, i), today)
  {
    if i < TOTAL_DAYS - 1 {
      AddDaysIncreasing(start, i, TOTAL_DAYS - 1);
    }
    KeyOrder(AddDays(start, i), today);
  }

  // ---------------------------------------------------------------------
  // updateProgress

  datatype Tier = NoWarning | Warning(daysRemaining: int) | Complete

  datatype Progress = Progress(completed: nat, tier: Tier)

  /** The days checked in a completion map. */
  function CheckedKeys(days: map<string, bool>): set<string> {
    set k | k in days && days[k]
  }

  lemma CheckedKeysSplit(days: map<string, bool>)
    ensures |days| == |CheckedKeys(days)| + |days.Keys - CheckedKeys(days)|
  {
    var checked := CheckedKeys(days);
    assert days.Keys == checked + (days.Keys - checked);
  }

  /** `Object.values(daysData).filter(Boolean).length`: the number of checked days. */
  function CountCompleted(days: map<string, bool>): (n: nat)
    ensures n <= |days|
    ensures n == |days| <==> forall k :: k in days ==> days[k]
  {
    CheckedKeysSplit(days);
    assert (forall k :: k in days ==> days[k]) ==> days.Keys - CheckedKeys(days) == {};
    |CheckedKeys(days)|
  }

  /** The warning box: complete at 60, a renewal warning when 15 or fewer days remain, else hidden. */
  function TierOf(completed: nat): (t: Tier)
    ensures t == Complete <==> completed == TOTAL_DAYS
    ensures completed <= TOTAL_DAYS ==>
      (t.Warning? <==> TOTAL_DAYS - WARNING_DAYS_REMAINING <= completed < TOTAL_DAYS)
    ensures t.Warning? ==> t.daysRemaining == TOTAL_DAYS - completed <= WARNING_DAYS_REMAINING
  {
    var daysRemaining := TOTAL_DAYS - completed;
    if completed == TOTAL_DAYS then Complete
    else if daysRemaining <= WARNING_DAYS_REMAINING then Warning(daysRemaining)
    else NoWarning
  }

  /** The count and tier that `updateProgress` displays for a completion map. */
  function UpdateProgress(days: map<string, bool>): (p: Progress)
    ensures p.completed == |CheckedKeys(days)| <= |days|
    ensures |days| == TOTAL_DAYS ==> (p.tier == Complete <==> forall k :: k in days ==> days[k])
    ensures |days| == TOTAL_DAYS ==>
      (p.tier.Warning? <==> TOTAL_DAYS - WARNING_DAYS_REMAINING <= p.completed < TOTAL_DAYS)
    ensures p.tier.Warning? ==> p.tier.daysRemaining == TOTAL_DAYS - p.completed
  {
    var n := CountCompleted(days);
    Progress(n, TierOf(n))
  }

  function TierRank(t: Tier): int {
    match t
    case NoWarning => 0
    case Warning(_) => 1
    case Complete => 2
  }

  /** As more days are checked, the tier only moves from no warning to warning to complete. */
  lemma TierNeverMovesBack(c1: nat, c2: nat)
    requires c1 <= c2 <= TOTAL_DAYS
    ensures TierRank(TierOf(c1)) <= TierRank(TierOf(c2))
  {
  }

  /** Checking one more unchecked day adds exactly one to the count. */
  lemma CheckingADayCountsOnce(days: map<string, bool>, k: string)
    requires k in days && !days[k]
    ensures CountCompleted(days[k := true]) == CountCompleted(days) + 1
  {
    assert CheckedKeys(days[k := true]) == CheckedKeys(days) + {k};
  }

  /**
   * The count of a freshly generated plan is the number of its days on or
   * before today: `p` when days 0..p-1 are not after today and day p is.
   */
  lemma FreshPlanCount(start: Date, today: Date, p: nat)
    requires InFourDigitYears(start) && Valid(today) && 0 <= today.year <= 9999
    requires p <= TOTAL_DAYS
    requires 0 < p ==> Le(AddDays(start, p - 1), today)
    requires p < TOTAL_DAYS ==> Lt(today, AddDays(start, p))
    ensures CountCompleted(DefaultDays(start, Key(today))) == p
  {
    var keys := ScheduleKeys(start);
    forall i | 0 <= i < TOTAL_DAYS
      ensures StrLe(keys[i], Key(today)) <==> i < p
    {
      CheckedIffBeforeBoundary(start, today, p, i);
    }
    ScheduleKeysDistinct(start, Key(today));
    CheckedIsPrefix(keys, Key(today), p);
  }

  lemma CheckedIffBeforeBoundary(start: Date, today: Date, p: nat, i: nat)
    requires InFourDigitYears(start) && Valid(today) && 0 <= today.year <= 9999
    requires p <= TOTAL_DAYS && i < TOTAL_DAYS
    requires 0 < p ==> Le(AddDays(start, p - 1), today)
    requires p < TOTAL_DAYS ==> Lt(today, AddDays(start, p))
    ensures StrLe(DayKey(start, i), Key(today)) <==> i < p
  {
    CheckedIffNotAfterToday(start, today, i);
    if i < p - 1 {
      AddDaysIncreasing(start, i, p - 1);
      LeTransitive(AddDays(start, i), AddDays(start, p - 1), today);
    } else if p < i {
      AddDaysIncreasing(start, p, i);
    }
  }

  /** When exactly the first `p` distinct keys are at most today's, the flag map checks `p` days. */
  lemma CheckedIsPrefix(keys: seq<string>, todayKey: string, p: nat)
    requires Distinct(keys) && p <= |keys|
    requires forall i :: 0 <= i < |keys| ==> (StrLe(keys[i], todayKey) <==> i < p)
    ensures CountCompleted(Flags(keys, todayKey)) == p
  {
    var days := Flags(keys, todayKey);
    var prefix := keys[..p];
    DistinctCardinality(prefix);
    forall k | k in CheckedKeys(days) ensures k in prefix {
      var i :| 0 <= i < |keys| && keys[i] == k;
    }
    assert CheckedKeys(days) == set x | x in prefix;
  }

  /** Start 2024-01-01 viewed on 2024-01-01: only day 1 is checked, and no warning shows. */
  lemma FirstDayScenario()
    ensures var start := Date(2024, 1, 1);
      UpdateProgress(DefaultDays(start, Key(start))) == Progress(1, NoWarning)
  {
    var start := Date(2024, 1, 1);
    assert AddDays(start, 1) == Date(2024, 1, 2);
    FreshPlanCount(start, start, 1);
  }

  /** Start 2024-01-01 viewed on 2024-02-14 (day 45): 45 checked, a warning with 15 days left. */
  lemma DayFortyFiveScenario()
    ensures var start := Date(2024, 1, 1);
      UpdateProgress(DefaultDays(start, Key(Date(2024, 2, 14)))) == Progress(45, Warning(15))
  {
    var start := Date(2024, 1, 1);
    JanuaryStartDays(start);
    FreshPlanCount(start, Date(2024, 2, 14), 45);
  }

  lemma JanuaryStartDays(start: Date)
    requires start == Date(2024, 1, 1)
    ensures AddDays(start, 44) == Date(2024, 2, 14)
    ensures AddDays(start, 45) == Date(2024, 2, 15)
  {
    SetDateAddsDays(start, 44);
    assert SetDate(start, 45) == Date(2024, 2, 14);
    SetDateAddsDays(start, 45);
    assert SetDate(start, 46) == Date(2024, 2, 15);
  }
}
