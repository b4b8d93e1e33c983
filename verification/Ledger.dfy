/** Double-entry general ledger: idempotent posting and balances derived from journal lines. */
module Ledger {
  import opened Sums
  import opened Text

  /** A ValueError is raised before anything is written; an IntegrityError poisons the transaction. */
  datatype Error = ValueError | IntegrityError

  datatype Outcome<+T> = Ok(value: T) | Err(error: Error) {
    predicate IsFailure() { Err? }
    function PropagateFailure<U>(): Outcome<U>
      requires Err?
    {
      Err(error)
    }
    function Extract(): T
      requires Ok?
    {
      value
    }
  }

  datatype Kind = Asset | Liability | Equity | Income | Expense

  predicate DebitNormal(kind: Kind) { kind == Asset || kind == Expense }

  datatype GlAccount = GlAccount(id: Uuid, code: string, kind: Kind)

  datatype Line = Line(account: Uuid, debit: int, credit: int)

  /** Entries are named by their idempotency key, which is unique and never null. */
  datatype Entry = Entry(key: string, lines: seq<Line>)

  datatype Gl = Gl(chart: seq<GlAccount>, entries: seq<Entry>)

  const EMPTY: Gl := Gl([], [])

  /** Numeric(19, 4) holds fewer than 10^19 ten-thousandths. */
  const NUMERIC_LIMIT := 10_000_000_000_000_000_000

  function DebitOf(): Line -> int { (l: Line) => l.debit }
  function CreditOf(): Line -> int { (l: Line) => l.credit }
  function DebitOn(a: Uuid): Line -> int { (l: Line) => if l.account == a then l.debit else 0 }
  function CreditOn(a: Uuid): Line -> int { (l: Line) => if l.account == a then l.credit else 0 }

  predicate Balanced(lines: seq<Line>) { SumBy(lines, DebitOf()) == SumBy(lines, CreditOf()) }

  predicate HasAccount(chart: seq<GlAccount>, id: Uuid) { exists i :: 0 <= i < |chart| && chart[i].id == id }

  predicate HasEntry(entries: seq<Entry>, key: string) { exists i :: 0 <= i < |entries| && entries[i].key == key }

  /** Check constraint ck_jl_amounts, the column width and the foreign key to the chart. */
  predicate Storable(chart: seq<GlAccount>, l: Line) {
    && 0 <= l.debit < NUMERIC_LIMIT && 0 <= l.credit < NUMERIC_LIMIT
    && (l.debit > 0 || l.credit > 0) && !(l.debit > 0 && l.credit > 0)
    && HasAccount(chart, l.account)
  }

  // ── Posting ─────────────────────────────────────────────────────────────────

  function Post(gl: Gl, key: string, lines: seq<Line>): Outcome<Gl> {
    if HasEntry(gl.entries, key) then Ok(gl)
    else if |lines| < 2 || !Balanced(lines) then Err(ValueError)
    else if exists i :: 0 <= i < |lines| && !Storable(gl.chart, lines[i]) then Err(IntegrityError)
    else Ok(gl.(entries := gl.entries + [Entry(key, lines)]))
  }

  function CreateAccount(gl: Gl, account: GlAccount): Outcome<Gl> {
    if exists i :: 0 <= i < |gl.chart| && gl.chart[i].code == account.code then Err(ValueError)
    else if HasAccount(gl.chart, account.id) then Err(IntegrityError)
    else Ok(gl.(chart := gl.chart + [account]))
  }

  // ── Balances ────────────────────────────────────────────────────────────────

  function AllLines(entries: seq<Entry>): seq<Line> {
    if entries == [] then [] else AllLines(entries[..|entries| - 1]) + entries[|entries| - 1].lines
  }

  /** `get_account_balance` on an account of the given kind. */
  function AccountBalance(entries: seq<Entry>, a: Uuid, kind: Kind): int {
    var debit, credit := SumBy(AllLines(entries), DebitOn(a)), SumBy(AllLines(entries), CreditOn(a));
    if DebitNormal(kind) then debit - credit else credit - debit
  }

  /** Credits minus debits on one account. */
  function LinesNet(lines: seq<Line>, a: Uuid): int { SumBy(lines, CreditOn(a)) - SumBy(lines, DebitOn(a)) }

  function Net(entries: seq<Entry>, a: Uuid): int { LinesNet(AllLines(entries), a) }

  lemma NetAppend(entries: seq<Entry>, e: Entry, a: Uuid)
    ensures Net(entries + [e], a) == Net(entries, a) + LinesNet(e.lines, a)
  {
    assert (entries + [e])[..|entries|] == entries;
    SumConcat(AllLines(entries), e.lines, CreditOn(a));
    SumConcat(AllLines(entries), e.lines, DebitOn(a));
  }

  lemma TwoLines(l: Line, m: Line, a: Uuid)
    ensures LinesNet([l, m], a) == CreditOn(a)(l) - DebitOn(a)(l) + CreditOn(a)(m) - DebitOn(a)(m)
    ensures Balanced([l, m]) <==> l.debit + m.debit == l.credit + m.credit
  {
    assert [l, m] == [l] + [m] && [l] == [] + [l];
    forall f: Line -> int ensures SumBy([l, m], f) == f(l) + f(m) {
      SumAppend([l], m, f);
      SumAppend([], l, f);
    }
  }

  // ── What every ledger keeps ─────────────────────────────────────────────────

  predicate DistinctKeys(entries: seq<Entry>) {
    forall i, j :: 0 <= i < j < |entries| ==> entries[i].key != entries[j].key
  }

  predicate DistinctAccounts(chart: seq<GlAccount>) {
    forall i, j :: 0 <= i < j < |chart| ==> chart[i].id != chart[j].id && chart[i].code != chart[j].code
  }

  predicate GoodEntry(chart: seq<GlAccount>, e: Entry) {
    |e.lines| >= 2 && Balanced(e.lines) && forall l :: l in e.lines ==> Storable(chart, l)
  }

  ghost predicate LedgerInv(gl: Gl) {
    && DistinctAccounts(gl.chart) && DistinctKeys(gl.entries)
    && forall e :: e in gl.entries ==> GoodEntry(gl.chart, e)
  }

  /** Posting keeps the ledger good, only appends, and is a no-op exactly on a key already used. */
  lemma PostKeeps(gl: Gl, key: string, lines: seq<Line>)
    requires LedgerInv(gl) && Post(gl, key, lines).Ok?
    ensures var gl' := Post(gl, key, lines).value;
      && LedgerInv(gl') && HasEntry(gl'.entries, key) && gl'.chart == gl.chart
      && gl'.entries == gl.entries + (if HasEntry(gl.entries, key) then [] else [Entry(key, lines)])
      && Post(gl', key, lines) == Ok(gl')
  {
    var gl' := Post(gl, key, lines).value;
    if !HasEntry(gl.entries, key) {
      assert gl'.entries[|gl.entries|] == Entry(key, lines);
    } else {
      assert gl.entries + [] == gl.entries;
    }
  }

  lemma CreateAccountKeeps(gl: Gl, account: GlAccount)
    requires LedgerInv(gl) && CreateAccount(gl, account).Ok?
    ensures LedgerInv(CreateAccount(gl, account).value)
  {
    var gl' := CreateAccount(gl, account).value;
    forall id: Uuid | HasAccount(gl.chart, id) ensures HasAccount(gl'.chart, id) {
      var i :| 0 <= i < |gl.chart| && gl.chart[i].id == id;
      assert gl'.chart[i].id == id;
    }
    assert forall l: Line :: Storable(gl.chart, l) ==> Storable(gl'.chart, l);
  }

  // ── Trial balance ───────────────────────────────────────────────────────────

  /** Balance entered on the debit side of the trial balance, negative on the credit side. */
  function TrialSide(entries: seq<Entry>): GlAccount -> int {
    (g: GlAccount) => if DebitNormal(g.kind) then AccountBalance(entries, g.id, g.kind) else -AccountBalance(entries, g.id, g.kind)
  }

  function DebitSide(entries: seq<Entry>): GlAccount -> int {
    (g: GlAccount) => if DebitNormal(g.kind) then AccountBalance(entries, g.id, g.kind) else 0
  }

  function CreditSide(entries: seq<Entry>): GlAccount -> int {
    (g: GlAccount) => if DebitNormal(g.kind) then 0 else AccountBalance(entries, g.id, g.kind)
  }

  function Cell(g: GlAccount, l: Line): int { if l.account == g.id then l.debit - l.credit else 0 }

  function LineTotal(): Line -> int { (l: Line) => l.debit - l.credit }

  lemma TrialSideIsRow(g: GlAccount, entries: seq<Entry>)
    ensures TrialSide(entries)(g) == RowSum(Cell, AllLines(entries))(g)
  {
    SumAdd(AllLines(entries), Row(Cell, g), CreditOn(g.id), DebitOn(g.id));
  }

  lemma LineHitsOneAccount(chart: seq<GlAccount>, l: Line)
    requires DistinctAccounts(chart) && HasAccount(chart, l.account)
    ensures ColSum(Cell, chart)(l) == l.debit - l.credit
  {
    var i :| 0 <= i < |chart| && chart[i].id == l.account;
    forall j | 0 <= j < |chart| && j != i ensures Col(Cell, l)(chart[j]) == 0 {
      assert chart[i].id != chart[j].id by {
        if j < i { assert chart[j].id != chart[i].id; }
      }
      assert Cell(chart[j], l) == 0;
    }
    SumSingle(chart, i, Col(Cell, l));
    assert Cell(chart[i], l) == l.debit - l.credit;
  }

  lemma {:induction false} LinesStorable(chart: seq<GlAccount>, entries: seq<Entry>, l: Line)
    requires forall e :: e in entries ==> GoodEntry(chart, e)
    requires l in AllLines(entries)
    ensures Storable(chart, l)
  {
    if l in entries[|entries| - 1].lines {
      assert entries[|entries| - 1] in entries;
    } else {
      LinesStorable(chart, entries[..|entries| - 1], l);
    }
  }

  lemma EntryCancels(chart: seq<GlAccount>, e: Entry)
    requires GoodEntry(chart, e)
    ensures SumBy(e.lines, LineTotal()) == 0
  {
    SumAdd(e.lines, LineTotal(), CreditOf(), DebitOf());
  }

  lemma {:induction false} EntriesCancel(chart: seq<GlAccount>, entries: seq<Entry>)
    requires forall e :: e in entries ==> GoodEntry(chart, e)
    ensures SumBy(AllLines(entries), LineTotal()) == 0
  {
    if entries != [] {
      var rest, e := entries[..|entries| - 1], entries[|entries| - 1];
      EntriesCancel(chart, rest);
      EntryCancels(chart, e);
      SumConcat(AllLines(rest), e.lines, LineTotal());
    }
  }

  /** Asset and expense balances sum to the liability, equity and income balances. */
  lemma TrialBalance(gl: Gl)
    requires LedgerInv(gl)
    ensures SumBy(gl.chart, DebitSide(gl.entries)) == SumBy(gl.chart, CreditSide(gl.entries))
  {
    var lines := AllLines(gl.entries);
    EntriesCancel(gl.chart, gl.entries);
    forall g | g in gl.chart { TrialSideIsRow(g, gl.entries); }
    SumEqual(gl.chart, TrialSide(gl.entries), RowSum(Cell, lines));
    SumSwap(gl.chart, lines, Cell);
    forall l | l in lines ensures ColSum(Cell, gl.chart)(l) == LineTotal()(l) {
      LinesStorable(gl.chart, gl.entries, l);
      LineHitsOneAccount(gl.chart, l);
    }
    SumEqual(lines, ColSum(Cell, gl.chart), LineTotal());
    SumAdd(gl.chart, TrialSide(gl.entries), CreditSide(gl.entries), DebitSide(gl.entries));
  }

  // ── Whole runs ──────────────────────────────────────────────────────────────

  datatype LedgerOp = Creates(account: GlAccount) | Posts(key: string, lines: seq<Line>)

  function LedgerStep(gl: Gl, op: LedgerOp): Gl {
    var r := match op
      case Creates(account) => CreateAccount(gl, account)
      case Posts(key, lines) => Post(gl, key, lines);
    if r.Ok? then r.value else gl
  }

  function LedgerRun(gl: Gl, ops: seq<LedgerOp>): Gl
    decreases |ops|
  {
    if ops == [] then gl else LedgerRun(LedgerStep(gl, ops[0]), ops[1..])
  }

  lemma {:induction false} LedgerRunKeeps(gl: Gl, ops: seq<LedgerOp>)
    requires LedgerInv(gl)
    ensures LedgerInv(LedgerRun(gl, ops)) && gl.entries <= LedgerRun(gl, ops).entries
    decreases |ops|
  {
    if ops != [] {
      var op := ops[0];
      if op.Posts? && Post(gl, op.key, op.lines).Ok? {
        PostKeeps(gl, op.key, op.lines);
      } else if op.Creates? && CreateAccount(gl, op.account).Ok? {
        CreateAccountKeeps(gl, op.account);
      }
      LedgerRunKeeps(LedgerStep(gl, op), ops[1..]);
    }
  }

  /**
   * Every reachable ledger: the trial balance holds, entries are only appended, each key
   * names one entry, and posting any key already present changes nothing.
   */
  lemma ReachableLedger(before: seq<LedgerOp>, after: seq<LedgerOp>, key: string, lines: seq<Line>)
    ensures var gl := LedgerRun(EMPTY, before);
      && SumBy(gl.chart, DebitSide(gl.entries)) == SumBy(gl.chart, CreditSide(gl.entries))
      && DistinctKeys(gl.entries)
      && gl.entries <= LedgerRun(gl, after).entries
      && (HasEntry(gl.entries, key) ==> Post(LedgerRun(gl, after), key, lines) == Ok(LedgerRun(gl, after)))
  {
    var gl := LedgerRun(EMPTY, before);
    LedgerRunKeeps(EMPTY, before);
    TrialBalance(gl);
    LedgerRunKeeps(gl, after);
    if HasEntry(gl.entries, key) {
      var i :| 0 <= i < |gl.entries| && gl.entries[i].key == key;
      assert LedgerRun(gl, after).entries[i].key == key;
    }
  }

  // ── What is refused ─────────────────────────────────────────────────────────

  /** An amount column holds 1 to 10^19 - 1 ten-thousandths on one side of a line and zero on the other. */
  predicate OneSided(l: Line) {
    || (1 <= l.debit <= 9_999_999_999_999_999_999 && l.credit == 0)
    || (l.debit == 0 && 1 <= l.credit <= 9_999_999_999_999_999_999)
  }

  ghost predicate Charted(chart: seq<GlAccount>, id: Uuid) { exists g :: g in chart && g.id == id }

  ghost predicate Journaled(entries: seq<Entry>, key: string) { exists e :: e in entries && e.key == key }

  lemma ChartedIff(chart: seq<GlAccount>, id: Uuid)
    ensures HasAccount(chart, id) <==> Charted(chart, id)
  {
    if Charted(chart, id) {
      var g :| g in chart && g.id == id;
      var i :| 0 <= i < |chart| && chart[i] == g;
    }
  }

  lemma JournaledIff(entries: seq<Entry>, key: string)
    ensures HasEntry(entries, key) <==> Journaled(entries, key)
  {
    if Journaled(entries, key) {
      var e :| e in entries && e.key == key;
      var i :| 0 <= i < |entries| && entries[i] == e;
    }
  }

  /** Every line is one-sided and on an account of the chart. */
  ghost predicate LinesFit(chart: seq<GlAccount>, lines: seq<Line>) {
    forall l :: l in lines ==> OneSided(l) && Charted(chart, l.account)
  }

  lemma LinesFitIff(chart: seq<GlAccount>, lines: seq<Line>)
    ensures LinesFit(chart, lines) <==> forall i :: 0 <= i < |lines| ==> Storable(chart, lines[i])
  {
    forall i | 0 <= i < |lines| ensures Storable(chart, lines[i]) <==> OneSided(lines[i]) && Charted(chart, lines[i].account) {
      ChartedIff(chart, lines[i].account);
    }
  }

  /**
   * Under a new key an entry is posted if and only if it has two lines or more, equal totals, and every line
   * has one positive amount that fits, on an account of the chart. Lines too few or totals unequal are a
   * ValueError, the rest breaks a constraint. A used key is answered Ok and posts nothing.
   */
  lemma PostAnswers(gl: Gl, key: string, lines: seq<Line>)
    ensures Journaled(gl.entries, key) ==> Post(gl, key, lines) == Ok(gl)
    ensures !Journaled(gl.entries, key) ==>
      var shaped := |lines| >= 2 && SumBy(lines, DebitOf()) == SumBy(lines, CreditOf());
      && Post(gl, key, lines) == if !shaped then Err(ValueError)
                                 else if !LinesFit(gl.chart, lines) then Err(IntegrityError)
                                 else Ok(gl.(entries := gl.entries + [Entry(key, lines)]))
  {
    JournaledIff(gl.entries, key);
    LinesFitIff(gl.chart, lines);
  }

  /** In every reachable ledger every line has one positive amount that fits, on an account of the chart. */
  lemma ReachableLines(ops: seq<LedgerOp>, e: Entry, l: Line)
    requires e in LedgerRun(EMPTY, ops).entries && l in e.lines
    ensures OneSided(l) && Charted(LedgerRun(EMPTY, ops).chart, l.account)
    ensures |e.lines| >= 2 && SumBy(e.lines, DebitOf()) == SumBy(e.lines, CreditOf())
  {
    var gl := LedgerRun(EMPTY, ops);
    LedgerRunKeeps(EMPTY, ops);
    assert GoodEntry(gl.chart, e);
    ChartedIff(gl.chart, l.account);
  }

  /** An account is added if and only if no other has its code or its id. */
  lemma CreateAccountAnswers(gl: Gl, account: GlAccount)
    ensures CreateAccount(gl, account)
         == if exists g :: g in gl.chart && g.code == account.code then Err(ValueError)
            else if Charted(gl.chart, account.id) then Err(IntegrityError)
            else Ok(Gl(gl.chart + [account], gl.entries))
  {
    ChartedIff(gl.chart, account.id);
    if g :| g in gl.chart && g.code == account.code {
      var i :| 0 <= i < |gl.chart| && gl.chart[i] == g;
    }
  }

  /** `get_account_balance`: debits less credits for assets and expenses, credits less debits for the rest. */
  lemma BalanceByKind(entries: seq<Entry>, a: Uuid, kind: Kind)
    ensures AccountBalance(entries, a, kind) == match kind
      case Asset => -Net(entries, a)
      case Expense => -Net(entries, a)
      case Liability => Net(entries, a)
      case Equity => Net(entries, a)
      case Income => Net(entries, a)
  {
  }

  // ── The service ─────────────────────────────────────────────────────────────

  class LedgerService {
    var chart: seq<GlAccount>
    var entries: seq<Entry>

    function State(): Gl
      reads this
    {
      Gl(chart, entries)
    }

    constructor ()
      ensures State() == EMPTY
    {
      chart, entries := [], [];
    }

    /** A refused entry leaves the tables as they were. */
    method PostJournalEntry(key: string, lines: seq<Line>) returns (r: Outcome<()>)
      modifies this
      ensures match Post(old(State()), key, lines)
              case Ok(gl) => r == Ok(()) && State() == gl
              case Err(e) => r == Err(e) && State() == old(State())
    {
      if HasEntry(entries, key) {
        return Ok(());
      }
      if |lines| < 2 {
        return Err(ValueError);
      }
      var totalDebit, totalCredit := 0, 0;
      for i := 0 to |lines|
        invariant totalDebit == SumBy(lines[..i], DebitOf()) && totalCredit == SumBy(lines[..i], CreditOf())
      {
        assert lines[..i + 1] == lines[..i] + [lines[i]];
        totalDebit, totalCredit := totalDebit + lines[i].debit, totalCredit + lines[i].credit;
      }
      assert lines[..|lines|] == lines;
      if totalDebit != totalCredit {
        return Err(ValueError);
      }
      var rows := [];
      for i := 0 to |lines|
        invariant rows == lines[..i]
        invariant forall k :: 0 <= k < i ==> Storable(chart, lines[k])
      {
        if !Storable(chart, lines[i]) {
          return Err(IntegrityError);
        }
        rows := rows + [lines[i]];
      }
      entries := entries + [Entry(key, rows)];
      return Ok(());
    }

    /** Balance on demand; an unknown account is a ValueError. */
    method GetAccountBalance(id: Uuid) returns (r: Outcome<int>)
      ensures r.Err? <==> !Charted(chart, id)
      ensures r.Ok? ==> exists g :: g in chart && g.id == id && r.value == match g.kind
        case Asset => SumBy(AllLines(entries), DebitOn(id)) - SumBy(AllLines(entries), CreditOn(id))
        case Expense => SumBy(AllLines(entries), DebitOn(id)) - SumBy(AllLines(entries), CreditOn(id))
        case Liability => SumBy(AllLines(entries), CreditOn(id)) - SumBy(AllLines(entries), DebitOn(id))
        case Equity => SumBy(AllLines(entries), CreditOn(id)) - SumBy(AllLines(entries), DebitOn(id))
        case Income => SumBy(AllLines(entries), CreditOn(id)) - SumBy(AllLines(entries), DebitOn(id))
    {
      for i := 0 to |chart|
        invariant forall k :: 0 <= k < i ==> chart[k].id != id
      {
        if chart[i].id == id {
          assert chart[i] in chart;
          return Ok(AccountBalance(entries, id, chart[i].kind));
        }
      }
      return Err(ValueError);
    }
  }
}
