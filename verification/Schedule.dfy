/** Yearly fee cycles: which period the schedule beat assesses, and what its runs add up to. */
module Schedule {
  import opened Text
  import opened Ledger

  datatype Date = Date(year: int, month: int, day: int)

  predicate Leap(year: int) { year % 4 == 0 && (year % 100 != 0 || year % 400 == 0) }

  function DaysIn(year: int, month: int): int {
    if month == 2 then (if Leap(year) then 29 else 28)
    else if month == 4 || month == 6 || month == 9 || month == 11 then 30
    else 31
  }

  /** What `datetime.date` accepts. */
  predicate IsDate(d: Date) { 1 <= d.year <= 9999 && 1 <= d.month <= 12 && 1 <= d.day <= DaysIn(d.year, d.month) }

  predicate Before(a: Date, b: Date) {
    a.year < b.year || (a.year == b.year && (a.month < b.month || (a.month == b.month && a.day < b.day)))
  }

  predicate NotAfter(a: Date, b: Date) { a == b || Before(a, b) }

  /** From `start` up to the day before `end`. */
  datatype Period = Period(start: Date, end: Date)

  function MakeDate(year: int, month: int, day: int): Outcome<Date> {
    if IsDate(Date(year, month, day)) then Ok(Date(year, month, day)) else Err(ValueError)
  }

  // ── One member, one day ─────────────────────────────────────────────────────

  /** `_is_annual_sub_due` */
  predicate IsDue(today: Date, latestEnd: Option<Date>) { latestEnd.None? || Before(latestEnd.value, today) }

  /** The cycle that holds `today`, for a schedule on the given month and day. */
  function CurrentCycle(today: Date, month: int, day: int): Outcome<Period> {
    var thisYear :- MakeDate(today.year, month, day);
    var start :- if Before(today, thisYear) then MakeDate(today.year - 1, month, day) else Ok(thisYear);
    var end :- MakeDate(start.year + 1, month, day);
    Ok(Period(start, end))
  }

  /** End of the assessment with the greatest start. */
  function LatestEnd(periods: seq<Period>): Option<Date> {
    if periods == [] then None
    else
      var i := Latest(periods);
      Some(periods[i].end)
  }

  function Latest(periods: seq<Period>): (i: nat)
    requires periods != []
    ensures i < |periods| && forall j :: 0 <= j < |periods| ==> NotAfter(periods[j].start, periods[i].start)
  {
    if |periods| == 1 then 0
    else
      var i := Latest(periods[..|periods| - 1]);
      if Before(periods[i].start, periods[|periods| - 1].start) then |periods| - 1 else i
  }

  /** One member's turn; `fails` when the savepoint rolls back. The dates are computed outside it. */
  function Assess(periods: seq<Period>, today: Date, month: int, day: int, fails: bool): Outcome<seq<Period>> {
    if !IsDue(today, LatestEnd(periods)) then Ok(periods)
    else
      var p :- CurrentCycle(today, month, day);
      Ok(if fails then periods else periods + [p])
  }

  // ── When the dates exist ────────────────────────────────────────────────────

  /** A month and day that every year has. */
  predicate EveryYear(month: int, day: int) {
    || (month == 2 && 1 <= day <= 28)
    || (month in {4, 6, 9, 11} && 1 <= day <= 30)
    || (month in {1, 3, 5, 7, 8, 10, 12} && 1 <= day <= 31)
  }

  /** 29 February exists in the years divisible by 4, centuries only when divisible by 400. */
  lemma LeapDay(year: int)
    ensures IsDate(Date(year, 2, 29)) <==> 1 <= year <= 9999 && (year % 400 == 0 || (year % 4 == 0 && year % 100 != 0))
  {
  }

  /** The year the cycle holding `today` starts in. */
  function StartYear(today: Date, month: int, day: int): int {
    if Before(today, Date(today.year, month, day)) then today.year - 1 else today.year
  }

  lemma TwoYearsInRow(year: int, month: int, day: int)
    requires 1 <= month <= 12 && 1 <= day <= DaysIn(year, month) && day <= DaysIn(year + 1, month)
    ensures EveryYear(month, day)
  {
  }

  /**
   * The cycle can be computed exactly when the configured day exists in every year and the cycle's own
   * years are ones Python can hold. A schedule on 29 February never works, not even in leap years.
   */
  lemma CycleExistsIff(today: Date, month: int, day: int)
    requires IsDate(today)
    ensures CurrentCycle(today, month, day).Ok?
       <==> EveryYear(month, day) && 1 <= StartYear(today, month, day) && StartYear(today, month, day) + 1 <= 9999
  {
    if CurrentCycle(today, month, day).Ok? {
      TwoYearsInRow(StartYear(today, month, day), month, day);
    }
  }

  /** The cycle holds today. */
  lemma CycleHoldsToday(today: Date, month: int, day: int)
    requires CurrentCycle(today, month, day).Ok?
    ensures var p := CurrentCycle(today, month, day).value;
      && NotAfter(p.start, today) && Before(today, p.end)
      && p == YearFrom(StartYear(today, month, day), month, day)
  {
  }

  /** What a turn leaves: nothing more when the cycle fails to be recorded, the cycle holding today otherwise. */
  function Charges(periods: seq<Period>, today: Date, month: int, day: int, fails: bool): Outcome<seq<Period>> {
    if !EveryYear(month, day) || StartYear(today, month, day) < 1 || StartYear(today, month, day) + 1 > 9999 then Err(ValueError)
    else if fails then Ok(periods)
    else Ok(periods + [YearFrom(StartYear(today, month, day), month, day)])
  }

  /** A member never charged is due; one whose latest period has not ended before today is not. */
  lemma AssessAnswers(periods: seq<Period>, k: nat, today: Date, month: int, day: int, fails: bool)
    requires IsDate(today) && (periods == [] || k < |periods|)
    requires forall j :: 0 <= j < |periods| && j != k ==> Before(periods[j].start, periods[k].start)
    ensures Assess(periods, today, month, day, fails)
         == if periods != [] && !Before(periods[k].end, today) then Ok(periods) else Charges(periods, today, month, day, fails)
  {
    CycleExistsIff(today, month, day);
    if periods != [] { assert Latest(periods) == k; }
    if CurrentCycle(today, month, day).Ok? { CycleHoldsToday(today, month, day); }
  }

  // ── Overlaps ────────────────────────────────────────────────────────────────

  /** Two periods never share a day. */
  predicate Apart(p: Period, q: Period) { NotAfter(p.end, q.start) || NotAfter(q.end, p.start) }

  /**
   * Once a period has ended, the next cycle charged overlaps it if and only if its configured day falls
   * before that end: on an unmoved schedule never, on a moved one whenever the new day comes round first.
   */
  lemma OverlapIff(prior: Period, today: Date, month: int, day: int)
    requires NotAfter(prior.start, prior.end) && IsDue(today, Some(prior.end)) && CurrentCycle(today, month, day).Ok?
    ensures !Apart(prior, CurrentCycle(today, month, day).value)
       <==> Before(Date(StartYear(today, month, day), month, day), prior.end)
  {
    CycleHoldsToday(today, month, day);
  }

  /** The case arises: from 1 January to 1 July, half a year is charged twice. */
  lemma MovedScheduleOverlaps()
    ensures var old2024, today := YearFrom(2024, 1, 1), Date(2025, 1, 2);
      Assess([old2024], today, 7, 1, false) == Ok([old2024, YearFrom(2024, 7, 1)]) && !Apart(old2024, YearFrom(2024, 7, 1))
  {
    assert [YearFrom(2024, 1, 1)] + [YearFrom(2024, 7, 1)] == [YearFrom(2024, 1, 1), YearFrom(2024, 7, 1)];
  }

  // ── Runs ────────────────────────────────────────────────────────────────────

  /** One run of the beat, with the schedule as configured that day. */
  datatype Run = Run(today: Date, month: int, day: int, fails: bool)

  function YearFrom(year: int, month: int, day: int): Period { Period(Date(year, month, day), Date(year + 1, month, day)) }

  function AssessRun(periods: seq<Period>, run: Run): seq<Period> {
    var r := Assess(periods, run.today, run.month, run.day, run.fails);
    if r.Ok? then r.value else periods
  }

  function AssessRuns(periods: seq<Period>, runs: seq<Run>): seq<Period>
    decreases |runs|
  {
    if runs == [] then periods else AssessRuns(AssessRun(periods, runs[0]), runs[1..])
  }

  /** What was charged before, between and after the runs. */
  function AssessTrace(periods: seq<Period>, runs: seq<Run>): (trace: seq<seq<Period>>)
    ensures |trace| == |runs| + 1 && trace[0] == periods && trace[|runs|] == AssessRuns(periods, runs)
    decreases |runs|
  {
    if runs == [] then [periods] else [periods] + AssessTrace(AssessRun(periods, runs[0]), runs[1..])
  }

  predicate Disjoint(periods: seq<Period>) { forall i, j :: 0 <= i < j < |periods| ==> Apart(periods[i], periods[j]) }

  predicate Proper(periods: seq<Period>) { forall i :: 0 <= i < |periods| ==> Before(periods[i].start, periods[i].end) }

  /** The guard: a cycle about to be charged starts no earlier than the latest one ended. */
  predicate StartsClear(periods: seq<Period>, run: Run) {
    AssessRun(periods, run) != periods && periods != [] ==>
      !Before(Date(StartYear(run.today, run.month, run.day), run.month, run.day), LatestEnd(periods).value)
  }

  lemma AssessRunCharges(periods: seq<Period>, run: Run)
    requires AssessRun(periods, run) != periods
    ensures CurrentCycle(run.today, run.month, run.day).Ok? && IsDue(run.today, LatestEnd(periods))
    ensures AssessRun(periods, run) == periods + [CurrentCycle(run.today, run.month, run.day).value]
  {
  }

  lemma StepDisjointIff(periods: seq<Period>, run: Run)
    requires Disjoint(periods) && Proper(periods)
    ensures Disjoint(AssessRun(periods, run)) <==> StartsClear(periods, run)
    ensures Proper(AssessRun(periods, run))
  {
    var after := AssessRun(periods, run);
    if after != periods {
      AssessRunCharges(periods, run);
      CycleHoldsToday(run.today, run.month, run.day);
      if periods != [] {
        var k, p := Latest(periods), after[|periods|];
        OverlapIff(periods[k], run.today, run.month, run.day);
        assert after[k] == periods[k];
        if StartsClear(periods, run) {
          forall i | 0 <= i < |periods| ensures Apart(periods[i], p) {
            if i != k {
              assert NotAfter(periods[i].start, periods[k].start);
              assert if i < k then Apart(periods[i], periods[k]) else Apart(periods[k], periods[i]);
            }
          }
        }
      }
    }
  }

  predicate ClearRuns(periods: seq<Period>, runs: seq<Run>)
    decreases |runs|
  {
    runs == [] || (StartsClear(periods, runs[0]) && ClearRuns(AssessRun(periods, runs[0]), runs[1..]))
  }

  lemma {:induction false} RunsDisjointIff(periods: seq<Period>, runs: seq<Run>)
    requires Disjoint(periods) && Proper(periods)
    ensures (forall ps :: ps in AssessTrace(periods, runs) ==> Disjoint(ps)) <==> ClearRuns(periods, runs)
    decreases |runs|
  {
    if runs != [] {
      var after := AssessRun(periods, runs[0]);
      StepDisjointIff(periods, runs[0]);
      assert AssessTrace(periods, runs) == [periods] + AssessTrace(after, runs[1..]) && after in AssessTrace(after, runs[1..]);
      if Disjoint(after) { RunsDisjointIff(after, runs[1..]); }
    }
  }

  /**
   * Whatever days the beat runs on, however the schedule is moved in between and whatever fails: no day is
   * ever charged twice if and only if each cycle charged starts no earlier than the latest one ended.
   */
  lemma CyclesNeverOverlap(runs: seq<Run>)
    ensures (forall ps :: ps in AssessTrace([], runs) ==> Disjoint(ps)) <==> ClearRuns([], runs)
  {
    RunsDisjointIff([], runs);
  }

  // ── A schedule that stays put ───────────────────────────────────────────────

  predicate Unmoved(runs: seq<Run>, month: int, day: int) { forall i :: 0 <= i < |runs| ==> runs[i].month == month && runs[i].day == day }

  /** Whole yearly cycles, in order, no year twice. */
  ghost predicate Tiles(periods: seq<Period>, month: int, day: int) {
    && (forall i :: 0 <= i < |periods| ==> periods[i] == YearFrom(periods[i].start.year, month, day))
    && (forall i, j :: 0 <= i < j < |periods| ==> periods[i].start.year < periods[j].start.year)
  }

  lemma LatestIsLast(periods: seq<Period>, month: int, day: int)
    requires Tiles(periods, month, day) && periods != []
    ensures LatestEnd(periods) == Some(periods[|periods| - 1].end)
  {
    var i, last := Latest(periods), |periods| - 1;
    assert NotAfter(periods[last].start, periods[i].start);
    assert forall j :: 0 <= j < last ==> periods[j].start.year < periods[last].start.year;
  }

  lemma AssessTiles(periods: seq<Period>, run: Run)
    requires Tiles(periods, run.month, run.day)
    ensures Tiles(AssessRun(periods, run), run.month, run.day) && StartsClear(periods, run)
  {
    if AssessRun(periods, run) != periods {
      AssessRunCharges(periods, run);
      CycleHoldsToday(run.today, run.month, run.day);
      if periods != [] {
        LatestIsLast(periods, run.month, run.day);
        var last := periods[|periods| - 1];
        assert last == YearFrom(last.start.year, run.month, run.day);
        assert last.start.year < StartYear(run.today, run.month, run.day);
      }
      forall i | 0 <= i < |periods| ensures periods[i].start.year < StartYear(run.today, run.month, run.day) {
        if i < |periods| - 1 { assert periods[i].start.year < periods[|periods| - 1].start.year; }
      }
    }
  }

  /** On a schedule that stays put a member is charged whole yearly cycles, and every one of them starts clear. */
  lemma {:induction false} UnmovedRunsTile(periods: seq<Period>, runs: seq<Run>, month: int, day: int)
    requires Tiles(periods, month, day) && Unmoved(runs, month, day)
    ensures Tiles(AssessRuns(periods, runs), month, day) && ClearRuns(periods, runs)
    decreases |runs|
  {
    if runs != [] {
      AssessTiles(periods, runs[0]);
      UnmovedRunsTile(AssessRun(periods, runs[0]), runs[1..], month, day);
    }
  }

  predicate Holds(p: Period, today: Date) { NotAfter(p.start, today) && Before(today, p.end) }

  /**
   * After a run that neither raises nor fails, the last cycle charged holds today if and only if today is
   * not the very end of the one charged before, when the member is not yet due, and not ahead of it.
   */
  lemma TodayIsChargedIff(runs: seq<Run>, before: seq<Period>, today: Date, month: int, day: int)
    requires before == AssessRuns([], runs) && Unmoved(runs, month, day) && Assess(before, today, month, day, false).Ok?
    ensures var after := Assess(before, today, month, day, false).value;
      && after != []
      && (Holds(after[|after| - 1], today)
          <==> before == [] || (LatestEnd(before) != Some(today) && !Before(today, before[|before| - 1].start)))
  {
    UnmovedRunsTile([], runs, month, day);
    HeldIff(before, today, month, day);
  }

  lemma HeldIff(before: seq<Period>, today: Date, month: int, day: int)
    requires Tiles(before, month, day) && Assess(before, today, month, day, false).Ok?
    ensures var after := Assess(before, today, month, day, false).value;
      && after != []
      && (Holds(after[|after| - 1], today)
          <==> before == [] || (LatestEnd(before) != Some(today) && !Before(today, before[|before| - 1].start)))
  {
    if before != [] {
      LatestIsLast(before, month, day);
      assert before[|before| - 1] == YearFrom(before[|before| - 1].start.year, month, day);
    }
    if IsDue(today, LatestEnd(before)) { CycleHoldsToday(today, month, day); }
  }

  /** Members whose charges differ. */
  function ChangedCount(before: seq<seq<Period>>, after: seq<seq<Period>>): nat
    requires |before| == |after|
  {
    if after == [] then 0
    else ChangedCount(before[..|after| - 1], after[..|after| - 1]) + if before[|after| - 1] != after[|after| - 1] then 1 else 0
  }

  // ── The job ─────────────────────────────────────────────────────────────────

  class ScheduleJob {
    /** Assessed periods of one fee type, member by member. */
    var charged: seq<seq<Period>>

    constructor (members: nat)
      ensures charged == seq(members, _ => [])
    {
      charged := seq(members, _ => []);
    }

    /** One member's turn; it charges at most one period. */
    method AssessMember(periods: seq<Period>, today: Date, month: int, day: int, fails: bool) returns (r: Outcome<seq<Period>>)
      ensures r == Assess(periods, today, month, day, fails)
    {
      if !IsDue(today, LatestEnd(periods)) {
        return Ok(periods);
      }
      var p := CurrentCycle(today, month, day);
      if p.Err? {
        return Err(p.error);
      }
      return Ok(if fails then periods else periods + [p.value]);
    }

    /** A date that does not exist ends the whole job, and nothing is committed for any member. */
    method AssessScheduled(today: Date, month: int, day: int, fails: nat -> bool) returns (r: Outcome<nat>)
      modifies this
      ensures r.Err? <==> exists i :: 0 <= i < |old(charged)| && Assess(old(charged)[i], today, month, day, fails(i)).Err?
      ensures r.Err? ==> charged == old(charged)
      ensures r.Ok? ==> |charged| == |old(charged)| && forall i :: 0 <= i < |charged| ==>
                          Assess(old(charged)[i], today, month, day, fails(i)) == Ok(charged[i])
      ensures r.Ok? ==> |charged| == |old(charged)| && r.value == ChangedCount(old(charged), charged)
    {
      var staged, assessed := [], 0;
      for i := 0 to |charged|
        invariant charged == old(charged) && |staged| == i
        invariant forall k :: 0 <= k < i ==> Assess(old(charged)[k], today, month, day, fails(k)) == Ok(staged[k])
        invariant assessed == ChangedCount(charged[..i], staged)
      {
        var turn := AssessMember(charged[i], today, month, day, fails(i));
        if turn.Err? {
          return Err(ValueError);
        }
        if turn.value != charged[i] {
          assessed := assessed + 1;
        }
        assert charged[..i + 1][..i] == charged[..i] && (staged + [turn.value])[..i] == staged;
        staged := staged + [turn.value];
      }
      assert charged[..|charged|] == charged;
      charged := staged;
      return Ok(assessed);
    }
  }
}
