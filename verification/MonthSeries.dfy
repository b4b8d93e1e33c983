/** Dashboard month series: month keys, flows, and a balance walked backwards from today's total. */
module MonthSeries {
  import opened Sums
  import opened Text
  import opened Ledger
  import opened Savings

  // ── Month keys ──────────────────────────────────────────────────────────────

  /** A month key, whose text is "YYYY-MM". */
  datatype Month = Month(year: int, month: int)

  /** Months are numbered 12 * year + month - 1. */
  function At(m: int): Month { Month(m / 12, m % 12 + 1) }

  lemma AtInverse(year: int, month: int)
    requires 1 <= month <= 12
    ensures At(12 * year + month - 1) == Month(year, month)
  {
  }

  /** `f"{year:04d}"`: zero-padded to four characters, the sign among them. */
  function YearText(year: int): string {
    if year < 0 then "-" + Coefficient(-year, 2) else Coefficient(year, 3)
  }

  /** `f"{year:04d}-{month:02d}"`, which is also `to_char(..., 'YYYY-MM')`. */
  function KeyText(k: Month): string
    requires 1 <= k.month <= 12
  {
    YearText(k.year) + "-" + Coefficient(k.month, 1)
  }

  lemma MonthTextTwoDigits(month: nat)
    requires month < 100
    ensures |Coefficient(month, 1)| == 2
  {
    assert Digits(month) == if month < 10 then [DigitChar(month)] else Digits(month / 10) + [DigitChar(month % 10)];
  }

  lemma PaddedInjective(a: nat, b: nat, scale: nat)
    requires Coefficient(a, scale) == Coefficient(b, scale)
    ensures a == b
  {
    CoefficientNumber(a, scale);
    CoefficientNumber(b, scale);
  }

  lemma YearSign(year: int)
    ensures YearText(year)[0] == '-' <==> year < 0
  {
    if year >= 0 { assert IsDigit(Coefficient(year, 3)[0]); }
  }

  lemma YearTextInjective(a: int, b: int)
    requires YearText(a) == YearText(b)
    ensures a == b
  {
    YearSign(a);
    YearSign(b);
    if a < 0 {
      assert YearText(a)[1..] == Coefficient(-a, 2) && YearText(b)[1..] == Coefficient(-b, 2);
      PaddedInjective(-a, -b, 2);
    } else {
      PaddedInjective(a, b, 3);
    }
  }

  /** Different months never share a text, so a dictionary by text is a dictionary by month. */
  lemma KeyTextInjective(a: Month, b: Month)
    requires 1 <= a.month <= 12 && 1 <= b.month <= 12 && KeyText(a) == KeyText(b)
    ensures a == b
  {
    var s := KeyText(a);
    MonthTextTwoDigits(a.month);
    MonthTextTwoDigits(b.month);
    assert s[|s| - 2..] == Coefficient(a.month, 1) && s[|s| - 2..] == Coefficient(b.month, 1);
    assert s[..|s| - 3] == YearText(a.year) && s[..|s| - 3] == YearText(b.year);
    PaddedInjective(a.month, b.month, 1);
    YearTextInjective(a.year, b.year);
  }

  /** The keys of `n` months from `first` on, oldest first. */
  function Keys(first: int, n: nat): (keys: seq<Month>)
    ensures |keys| == n
    decreases n
  {
    if n == 0 then [] else [At(first)] + Keys(first + 1, n - 1)
  }

  /** `month_keys`: steps back month by month, then reverses. */
  method MonthKeys(n: nat, year: int, month: int) returns (keys: seq<Month>)
    requires 1 <= month <= 12
    ensures keys == Keys(12 * year + month - n, n)
  {
    var y, m := year, month;
    keys := [];
    for i := 0 to n
      invariant 1 <= m <= 12 && 12 * y + m == 12 * year + month - i
      invariant keys == Keys(12 * y + m, i)
    {
      AtInverse(y, m);
      keys := [Month(y, m)] + keys;
      m := m - 1;
      if m == 0 {
        m, y := 12, y - 1;
      }
    }
  }

  lemma {:induction false} KeysAt(first: int, n: nat, j: nat)
    requires j < n
    ensures Keys(first, n)[j] == At(first + j)
    decreases n
  {
    if j > 0 { KeysAt(first + 1, n - 1, j - 1); }
  }

  // ── Series ──────────────────────────────────────────────────────────────────

  type Movements = map<Month, int>

  function Movement(movements: Movements): Month -> int { (key: Month) => if key in movements then movements[key] else 0 }

  /** `as_flow` */
  function Flow(movements: Movements, keys: seq<Month>): seq<(Month, int)> {
    seq(|keys|, i requires 0 <= i < |keys| => (keys[i], Movement(movements)(keys[i])))
  }

  /** Month-end balance i: the total less every later month's movement. */
  function Point(movements: Movements, keys: seq<Month>, total: int, i: nat): int
    requires i < |keys|
  {
    total - SumBy(keys[i + 1..], Movement(movements))
  }

  function Cumulative(movements: Movements, keys: seq<Month>, total: int): seq<(Month, int)> {
    seq(|keys|, i requires 0 <= i < |keys| => (keys[i], Point(movements, keys, total, i)))
  }

  lemma {:induction false} SumPrepend(x: Month, s: seq<Month>, f: Month -> int)
    ensures SumBy([x] + s, f) == f(x) + SumBy(s, f)
  {
    SumConcat([x], s, f);
    assert [x] == [] + [x];
    SumAppend([], x, f);
  }

  /** Each point is the next one less the next month's movement. */
  lemma PointBefore(movements: Movements, keys: seq<Month>, total: int, i: nat)
    requires i + 1 < |keys|
    ensures Point(movements, keys, total, i) == Point(movements, keys, total, i + 1) - Movement(movements)(keys[i + 1])
  {
    assert keys[i + 1..] == [keys[i + 1]] + keys[i + 2..];
    SumPrepend(keys[i + 1], keys[i + 2..], Movement(movements));
  }

  /** The running balance, from the newest key back. */
  method WalkKeys(movements: Movements, keys: seq<Month>, total: int) returns (series: seq<(Month, int)>)
    ensures series == Cumulative(movements, keys, total)
  {
    ghost var all := Cumulative(movements, keys, total);
    var running := total;
    series := [];
    for i := |keys| downto 0
      invariant series == all[i..]
      invariant running == total - SumBy(keys[i..], Movement(movements))
    {
      assert keys[i..] == [keys[i]] + keys[i + 1..];
      SumPrepend(keys[i], keys[i + 1..], Movement(movements));
      assert all[i..] == [all[i]] + all[i + 1..];
      series := [(keys[i], running)] + series;
      running := running - Movement(movements)(keys[i]);
    }
  }

  /** `as_cumulative` */
  method AsCumulative(movements: Movements, n: nat, year: int, month: int, total: int) returns (series: seq<(Month, int)>)
    requires 1 <= month <= 12
    ensures series == Cumulative(movements, Keys(12 * year + month - n, n), total)
  {
    var keys := MonthKeys(n, year, month);
    series := WalkKeys(movements, keys, total);
  }

  /** The flow series is the month-on-month difference of the cumulative one. */
  lemma FlowIsDifference(movements: Movements, keys: seq<Month>, total: int, i: nat)
    requires i + 1 < |keys|
    ensures Flow(movements, keys)[i + 1].1 == Cumulative(movements, keys, total)[i + 1].1 - Cumulative(movements, keys, total)[i].1
  {
    PointBefore(movements, keys, total, i);
  }

  // ── Savings trend ───────────────────────────────────────────────────────────

  function NetInGroup(key: Month, since: int): Txn -> int {
    (t: Txn) => if t.month >= since && At(t.month) == key then SignedOf(t) else 0
  }

  /** `monthly_net_movements`: grouped by month key, from month `since` on. */
  function MonthlyNet(txns: seq<Txn>, since: int): Movements {
    map key | key in (set t | t in txns && t.month >= since :: At(t.month)) :: SumBy(txns, NetInGroup(key, since))
  }

  function NetInMonth(m: int): Txn -> int { (t: Txn) => if t.month == m then SignedOf(t) else 0 }
  function NetUpTo(m: int): Txn -> int { (t: Txn) => if t.month <= m then SignedOf(t) else 0 }
  function NetAfter(m: int): Txn -> int { (t: Txn) => if t.month > m then SignedOf(t) else 0 }

  /** What all accounts together held at the end of month `m`, by adding up every row to that point. */
  function HeldAtEnd(txns: seq<Txn>, m: int): int { SumBy(txns, NetUpTo(m)) }

  /** A month in the window has the net of exactly that month's rows, none or many. */
  lemma MovementOfMonth(txns: seq<Txn>, since: int, m: int)
    requires m >= since
    ensures Movement(MonthlyNet(txns, since))(At(m)) == SumBy(txns, NetInMonth(m))
  {
    SumEqual(txns, NetInGroup(At(m), since), NetInMonth(m));
    if At(m) !in MonthlyNet(txns, since) {
      forall t | t in txns ensures NetInMonth(m)(t) == 0 {}
      SumZero(txns, NetInMonth(m));
    }
  }

  lemma MovementOfKey(txns: seq<Txn>, first: int, n: nat, j: nat)
    requires j < n
    ensures Movement(MonthlyNet(txns, first))(Keys(first, n)[j]) == SumBy(txns, NetInMonth(first + j))
  {
    KeysAt(first, n, j);
    MovementOfMonth(txns, first, first + j);
  }

  lemma MonthEndStep(txns: seq<Txn>, m: int)
    ensures HeldAtEnd(txns, m) == HeldAtEnd(txns, m - 1) + SumBy(txns, NetInMonth(m))
  {
    SumAdd(txns, NetUpTo(m - 1), NetInMonth(m), NetUpTo(m));
  }

  lemma TotalSplits(txns: seq<Txn>, m: int)
    ensures TotalBalance(txns) == HeldAtEnd(txns, m) + SumBy(txns, NetAfter(m))
  {
    SumAdd(txns, NetUpTo(m), NetAfter(m), Signed());
  }

  /** A backward walk from the total recovers every month-end balance, off by whatever is dated later. */
  lemma {:induction false} WalkBack(txns: seq<Txn>, first: int, n: nat, i: nat)
    requires i < n
    ensures Point(MonthlyNet(txns, first), Keys(first, n), TotalBalance(txns), i)
         == HeldAtEnd(txns, first + i) + SumBy(txns, NetAfter(first + n - 1))
    decreases n - i
  {
    var keys := Keys(first, n);
    if i == n - 1 {
      assert keys[i + 1..] == [];
      TotalSplits(txns, first + i);
    } else {
      WalkBack(txns, first, n, i + 1);
      PointBefore(MonthlyNet(txns, first), keys, TotalBalance(txns), i);
      MonthEndStep(txns, first + i + 1);
      MovementOfKey(txns, first, n, i + 1);
    }
  }

  /** Month-grouped movements from `first` on, walked backwards from the grand total. */
  function Trend(txns: seq<Txn>, first: int, n: nat): seq<(Month, int)> {
    Cumulative(MonthlyNet(txns, first), Keys(first, n), TotalBalance(txns))
  }

  /**
   * On every transaction history, the k-th point of the savings trend equals the direct signed sum of all
   * rows to that month's end exactly when the rows dated after the current month, the last of the window,
   * net to zero.
   */
  lemma SavingsTrend(txns: seq<Txn>, first: int, n: nat, k: nat)
    requires k < n
    ensures Trend(txns, first, n)[k].0 == At(first + k)
    ensures Trend(txns, first, n)[k].1 == HeldAtEnd(txns, first + k)
            <==> SumBy(txns, NetAfter(first + n - 1)) == 0
  {
    TrendOf(txns, first, n, k);
  }

  lemma TrendOf(txns: seq<Txn>, first: int, n: nat, k: nat)
    requires k < n
    ensures Trend(txns, first, n)[k]
         == (At(first + k), HeldAtEnd(txns, first + k) + SumBy(txns, NetAfter(first + n - 1)))
  {
    KeysAt(first, n, k);
    WalkBack(txns, first, n, k);
  }

  /** The newest point is the headline total, which is the sum of the per-account balances. */
  lemma TrendEndsAtHeadline(b: Books, first: int, n: nat)
    requires Owned(b) && n > 0
    ensures Trend(b.txns, first, n)[n - 1].1 == SumBy(b.accounts, BalanceOf(b.txns))
  {
    HeadlineTotal(b);
    assert Keys(first, n)[n..] == [];
  }

  /** With nothing dated ahead, the usual case, every point is the balance at its month's end. */
  lemma PlainTrend(txns: seq<Txn>, first: int, n: nat, k: nat)
    requires k < n && forall t :: t in txns ==> t.month <= first + n - 1
    ensures Trend(txns, first, n)[k] == (At(first + k), HeldAtEnd(txns, first + k))
  {
    TrendOf(txns, first, n, k);
    SumZero(txns, NetAfter(first + n - 1));
  }

  // ── The dashboard ───────────────────────────────────────────────────────────

  /** `int(text[:4])` and `int(text[5:7])`, on texts of years 0 to 9999. */
  function ReadKey(text: string): Option<Month> {
    if |text| == 7 && AllDigits(text[..4]) && AllDigits(text[5..7]) then Some(Month(Number(text[..4]), Number(text[5..7]))) else None
  }

  lemma YearFourDigits(year: nat)
    requires year < 10000
    ensures |Coefficient(year, 3)| == 4
  {
    var a, b, c := year / 10, year / 100, year / 1000;
    assert a / 10 == b && b / 10 == c;
    assert |Digits(c)| == 1;
    assert b >= 10 ==> |Digits(b)| == 2;
    assert a >= 10 ==> |Digits(a)| <= 3;
  }

  /** Reading back the oldest key's text gives its year and month. */
  lemma ReadKeyRoundTrip(k: Month)
    requires 0 <= k.year < 10000 && 1 <= k.month <= 12
    ensures ReadKey(KeyText(k)) == Some(k)
  {
    var text := KeyText(k);
    YearFourDigits(k.year);
    MonthTextTwoDigits(k.month);
    assert text[..4] == Coefficient(k.year, 3) && text[5..7] == Coefficient(k.month, 1);
    CoefficientNumber(k.year, 3);
    CoefficientNumber(k.month, 1);
  }

  /** The first month of the window, from its oldest key; None when no date can stand for it (no year before 1). */
  method ReadWindow(oldest: Month) returns (since: Option<int>)
    requires 0 <= oldest.year < 10000 && 1 <= oldest.month <= 12
    ensures since == if oldest.year < 1 then None else Some(12 * oldest.year + oldest.month - 1)
  {
    ReadKeyRoundTrip(oldest);
    var start := ReadKey(KeyText(oldest)).value;
    since := if start.year < 1 then None else Some(12 * start.year + start.month - 1);
  }

  /** The savings part of `compute`, whose window is six months. */
  method ComputeTrend(txns: seq<Txn>, n: nat, year: int, month: int) returns (r: Outcome<seq<(Month, int)>>)
    requires 1 <= month <= 12 && year <= 9999 && 1 <= n <= 12 * year + month
    ensures r.Err? <==> At(12 * year + month - n).year < 1
    ensures r.Ok? ==> r.value == Trend(txns, 12 * year + month - n, n)
  {
    var keys := MonthKeys(n, year, month);
    KeysAt(12 * year + month - n, n, 0);
    var since := ReadWindow(keys[0]);
    if since.None? {
      return Err(ValueError);
    }
    var series := AsCumulative(MonthlyNet(txns, since.value), n, year, month, TotalBalance(txns));
    return Ok(series);
  }
}
