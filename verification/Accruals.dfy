/** Interest accrual beat: one ledger entry per loan and due date, and a counter that agrees with the ledger. */
module Accruals {
  import opened Sums
  import opened Text
  import opened Ledger

  /** `open` when the status is pending, partial or overdue. */
  datatype Installment = Installment(due: IsoDate, interest: int, open: bool)

  /**
   * `eligible` for a reducing-balance loan that is disbursed or in arrears; installments are in due order.
   * `accrued` and `paid` are the columns accrued_interest and total_paid_interest.
   */
  datatype Loan = Loan(id: Uuid, receivable: Uuid, income: Uuid, accrued: int, paid: int, eligible: bool, installments: seq<Installment>)

  datatype Book = Book(gl: Gl, loans: seq<Loan>)

  const NEW_BOOK: Book := Book(EMPTY, [])

  function LoanPrefix(id: Uuid): string { "loan-accrue-" + id + "-" }

  function AccrualKey(id: Uuid, due: IsoDate): string { UuidDateKey("loan-accrue-", id, due) }

  function AccrualLines(loan: Loan, interest: int): seq<Line> {
    [Line(loan.receivable, interest, 0), Line(loan.income, 0, interest)]
  }

  // ── The beat ────────────────────────────────────────────────────────────────

  /** What one run of the beat meets: which dates are due, and which savepoints fail for outside reasons. */
  datatype Day = Day(due: IsoDate -> bool, fails: (Uuid, Installment) -> bool)

  function AccrueOne(b: Book, i: nat, inst: Installment, day: Day): (b': Book)
    ensures SameTerms(b, b')
  {
    if i >= |b.loans| then b
    else
      var loan := b.loans[i];
      var key := AccrualKey(loan.id, inst.due);
      if HasEntry(b.gl.entries, key) || inst.interest <= 0 || day.fails(loan.id, inst) then b
      else match Post(b.gl, key, AccrualLines(loan, inst.interest))
        case Ok(gl) => Book(gl, b.loans[i := loan.(accrued := loan.accrued + inst.interest)])
        case Err(_) => b
  }

  /** Nothing about the loans differs but their accrued interest. */
  predicate SameTerms(b: Book, b': Book) {
    && |b'.loans| == |b.loans| && b'.gl.chart == b.gl.chart
    && forall i :: 0 <= i < |b.loans| ==> b'.loans[i] == b.loans[i].(accrued := b'.loans[i].accrued)
  }

  function Wanted(inst: Installment, day: Day): bool { inst.open && day.due(inst.due) }

  /** One installment the beat reaches, with the position of its loan. */
  datatype Item = Item(loan: nat, inst: Installment)

  /** The inner query: due, open installments among the first `n` of loan `i`. */
  function LoanWork(loan: Loan, i: nat, n: nat, day: Day): seq<Item>
    requires n <= |loan.installments|
  {
    if n == 0 then []
    else LoanWork(loan, i, n - 1, day) + if Wanted(loan.installments[n - 1], day) then [Item(i, loan.installments[n - 1])] else []
  }

  /** What the beat reaches among the first `n` loans, in order. */
  function Work(loans: seq<Loan>, n: nat, day: Day): seq<Item>
    requires n <= |loans|
  {
    if n == 0 then []
    else
      var last := loans[n - 1];
      Work(loans, n - 1, day) + if last.eligible then LoanWork(last, n - 1, |last.installments|, day) else []
  }

  function AccrueAll(b: Book, items: seq<Item>, day: Day): (b': Book)
    ensures SameTerms(b, b')
  {
    if items == [] then b
    else
      var it := items[|items| - 1];
      AccrueOne(AccrueAll(b, items[..|items| - 1], day), it.loan, it.inst, day)
  }

  function Beat(b: Book, day: Day): Book { AccrueAll(b, Work(b.loans, |b.loans|, day), day) }

  // ── What the ledger says was accrued ────────────────────────────────────────

  function AccrualDebit(id: Uuid, receivable: Uuid): Entry -> int {
    (e: Entry) => if StartsWith(e.key, LoanPrefix(id)) then SumBy(e.lines, DebitOn(receivable)) else 0
  }

  /** Debited to the loan's interest receivable under its accrual keys. */
  function Debited(entries: seq<Entry>, loan: Loan): int { SumBy(entries, AccrualDebit(loan.id, loan.receivable)) }

  /** Interest accrued, paid since or not, that the ledger does not explain. */
  function Unexplained(b: Book, i: nat): int
    requires i < |b.loans|
  {
    b.loans[i].accrued + b.loans[i].paid - Debited(b.gl.entries, b.loans[i])
  }

  predicate DistinctLoans(loans: seq<Loan>) { forall i, j :: 0 <= i < j < |loans| ==> loans[i].id != loans[j].id }

  lemma KeyOwner(a: Uuid, b: Uuid, due: IsoDate)
    ensures StartsWith(AccrualKey(a, due), LoanPrefix(b)) <==> a == b
  {
    var key := AccrualKey(a, due);
    assert key == LoanPrefix(a) + due;
    assert key[..|LoanPrefix(a)|] == LoanPrefix(a) && |LoanPrefix(a)| == |LoanPrefix(b)|;
    if LoanPrefix(a) == LoanPrefix(b) {
      assert LoanPrefix(a)[12..48] == a && LoanPrefix(b)[12..48] == b;
    }
  }

  lemma AccrualDebits(loan: Loan, interest: int)
    requires interest > 0
    ensures SumBy(AccrualLines(loan, interest), DebitOn(loan.receivable)) == interest
    ensures Balanced(AccrualLines(loan, interest))
  {
    var l, m := Line(loan.receivable, interest, 0), Line(loan.income, 0, interest);
    TwoLines(l, m, loan.receivable);
    assert [l, m] == [l] + [m] && [l] == [] + [l];
    SumAppend([l], m, DebitOn(loan.receivable));
    SumAppend([], l, DebitOn(loan.receivable));
  }

  /** What a new accrual entry debits for a loan: the interest if it is its own, nothing if another's. */
  lemma NewEntryDebit(loan: Loan, other: Loan, inst: Installment)
    requires inst.interest > 0 && (loan.id == other.id ==> loan.receivable == other.receivable)
    ensures AccrualDebit(other.id, other.receivable)(Entry(AccrualKey(loan.id, inst.due), AccrualLines(loan, inst.interest)))
         == if loan.id == other.id then inst.interest else 0
  {
    KeyOwner(loan.id, other.id, inst.due);
    AccrualDebits(loan, inst.interest);
  }

  /** A posting to one loan adds the same amount to its counter and to its ledger total, and nothing to another's. */
  lemma AccrueOneAgrees(b: Book, i: nat, inst: Installment, day: Day, k: nat)
    requires DistinctLoans(b.loans) && k < |b.loans|
    ensures Unexplained(AccrueOne(b, i, inst, day), k) == Unexplained(b, k)
  {
    var b' := AccrueOne(b, i, inst, day);
    if b' != b {
      var loan, other := b.loans[i], b.loans[k];
      var e := Entry(AccrualKey(loan.id, inst.due), AccrualLines(loan, inst.interest));
      assert b'.gl.entries == b.gl.entries + [e];
      assert loan.id == other.id <==> i == k;
      NewEntryDebit(loan, other, inst);
      SumAppend(b.gl.entries, e, AccrualDebit(other.id, other.receivable));
    }
  }

  lemma SameTermsDistinct(b: Book, b': Book)
    requires SameTerms(b, b') && DistinctLoans(b.loans)
    ensures DistinctLoans(b'.loans)
  {
    forall i, j | 0 <= i < j < |b'.loans| ensures b'.loans[i].id != b'.loans[j].id {
      assert b.loans[i].id != b.loans[j].id;
    }
  }

  lemma AccrueOneKeeps(b: Book, i: nat, inst: Installment, day: Day)
    requires LedgerInv(b.gl)
    ensures LedgerInv(AccrueOne(b, i, inst, day).gl) && b.gl.entries <= AccrueOne(b, i, inst, day).gl.entries
  {
    if i < |b.loans| {
      var key, lines := AccrualKey(b.loans[i].id, inst.due), AccrualLines(b.loans[i], inst.interest);
      if Post(b.gl, key, lines).Ok? { PostKeeps(b.gl, key, lines); }
    }
  }

  lemma {:induction false} AccrueAllAgrees(b: Book, items: seq<Item>, day: Day, k: nat)
    requires LedgerInv(b.gl) && DistinctLoans(b.loans) && k < |b.loans|
    ensures var b' := AccrueAll(b, items, day);
      LedgerInv(b'.gl) && b.gl.entries <= b'.gl.entries && Unexplained(b', k) == Unexplained(b, k)
  {
    if items != [] {
      var rest, it := AccrueAll(b, items[..|items| - 1], day), items[|items| - 1];
      AccrueAllAgrees(b, items[..|items| - 1], day, k);
      SameTermsDistinct(b, rest);
      AccrueOneKeeps(rest, it.loan, it.inst, day);
      AccrueOneAgrees(rest, it.loan, it.inst, day, k);
    }
  }

  // ── Runs ────────────────────────────────────────────────────────────────────

  /** Beats among loans being booked, rescheduled and repaid, and other ledger postings under any keys. */
  datatype Op =
    | Beats(day: Day)
    | Books(loan: Loan)
    | Reschedules(i: nat, eligible: bool, installments: seq<Installment>)
    | Repays(i: nat, offered: nat)
    | Elsewhere(op: LedgerOp)

  predicate HasLoan(loans: seq<Loan>, id: Uuid) { exists i :: 0 <= i < |loans| && loans[i].id == id }

  function Step(b: Book, op: Op): Book {
    match op
    case Beats(day) => Beat(b, day)
    case Books(loan) => if HasLoan(b.loans, loan.id) then b else b.(loans := b.loans + [loan.(accrued := 0, paid := 0)])
    case Reschedules(i, eligible, installments) =>
      if i >= |b.loans| then b else b.(loans := b.loans[i := b.loans[i].(eligible := eligible, installments := installments)])
    case Repays(i, offered) =>
      if i >= |b.loans| then b
      else
        var applied := Min(offered, b.loans[i].accrued);
        b.(loans := b.loans[i := b.loans[i].(accrued := b.loans[i].accrued - applied, paid := b.loans[i].paid + applied)])
    case Elsewhere(o) => b.(gl := LedgerStep(b.gl, o))
  }

  function Run(b: Book, ops: seq<Op>): Book
    decreases |ops|
  {
    if ops == [] then b else Run(Step(b, ops[0]), ops[1..])
  }

  /** Every state a run passes through, from the first to the one it ends in. */
  function AccrualTrace(b: Book, ops: seq<Op>): (trace: seq<Book>)
    ensures |trace| == |ops| + 1 && trace[0] == b && trace[|ops|] == Run(b, ops)
    decreases |ops|
  {
    if ops == [] then [b] else [b] + AccrualTrace(Step(b, ops[0]), ops[1..])
  }

  ghost predicate BookInv(b: Book) { LedgerInv(b.gl) && DistinctLoans(b.loans) }

  /** What somebody else's new entry debits to loan `k`'s receivable under its accrual keys. */
  function Stray(b: Book, op: Op, k: nat): int
    requires k < |b.loans|
  {
    if op.Elsewhere? && op.op.Posts? && LedgerStep(b.gl, op.op) != b.gl
    then AccrualDebit(b.loans[k].id, b.loans[k].receivable)(Entry(op.op.key, op.op.lines)) else 0
  }

  lemma ElsewhereAgrees(b: Book, o: LedgerOp, k: nat)
    requires BookInv(b) && k < |b.loans|
    ensures var b' := b.(gl := LedgerStep(b.gl, o));
      BookInv(b') && b.gl.entries <= b'.gl.entries && Unexplained(b', k) == Unexplained(b, k) - Stray(b, Elsewhere(o), k)
  {
    match o
    case Creates(account) =>
      if CreateAccount(b.gl, account).Ok? { CreateAccountKeeps(b.gl, account); }
    case Posts(key, lines) =>
      if Post(b.gl, key, lines).Ok? {
        PostKeeps(b.gl, key, lines);
        if !HasEntry(b.gl.entries, key) { SumAppend(b.gl.entries, Entry(key, lines), AccrualDebit(b.loans[k].id, b.loans[k].receivable)); }
      }
  }

  /** One step, exactly: beats, repayments and rescheduling explain themselves, a stray entry does not. */
  lemma StepAgrees(b: Book, op: Op, k: nat)
    requires BookInv(b) && k < |b.loans|
    ensures var b' := Step(b, op);
      && BookInv(b') && |b.loans| <= |b'.loans| && b.gl.entries <= b'.gl.entries
      && b'.loans[k].id == b.loans[k].id && b'.loans[k].receivable == b.loans[k].receivable
      && Unexplained(b', k) == Unexplained(b, k) - Stray(b, op, k)
  {
    match op
    case Beats(day) =>
      AccrueAllAgrees(b, Work(b.loans, |b.loans|, day), day, k);
      SameTermsDistinct(b, Beat(b, day));
    case Elsewhere(o) => ElsewhereAgrees(b, o, k);
    case _ =>
  }

  function TotalStray(b: Book, ops: seq<Op>, k: nat): int
    requires k < |b.loans|
    decreases |ops|
  {
    if ops == [] then 0
    else
      var b' := Step(b, ops[0]);
      Stray(b, ops[0], k) + if k < |b'.loans| then TotalStray(b', ops[1..], k) else 0
  }

  /**
   * However often the beat runs and whichever postings fail: over every run a loan's accrued and paid
   * interest together rise by what was debited to its receivable under its accrual keys, less what
   * somebody else debited there.
   */
  lemma {:induction false} AccrualsRise(b: Book, ops: seq<Op>, k: nat)
    requires BookInv(b) && k < |b.loans|
    ensures var b' := Run(b, ops);
      && BookInv(b') && k < |b'.loans| && b'.loans[k].id == b.loans[k].id && b'.loans[k].receivable == b.loans[k].receivable
      && Unexplained(b', k) == Unexplained(b, k) - TotalStray(b, ops, k)
    decreases |ops|
  {
    if ops != [] {
      StepAgrees(b, ops[0], k);
      AccrualsRise(Step(b, ops[0]), ops[1..], k);
    }
  }

  predicate AtMostOne(entries: seq<Entry>, key: string) {
    forall i, j :: 0 <= i < j < |entries| ==> !(entries[i].key == key && entries[j].key == key)
  }

  lemma StepKeepsBook(b: Book, op: Op)
    requires BookInv(b)
    ensures BookInv(Step(b, op))
  {
    if b.loans != [] {
      StepAgrees(b, op, 0);
    } else if op.Elsewhere? {
      if op.op.Posts? && Post(b.gl, op.op.key, op.op.lines).Ok? { PostKeeps(b.gl, op.op.key, op.op.lines); }
      if op.op.Creates? && CreateAccount(b.gl, op.op.account).Ok? { CreateAccountKeeps(b.gl, op.op.account); }
    }
  }

  lemma {:induction false} RunKeepsBook(b: Book, ops: seq<Op>)
    requires BookInv(b)
    ensures BookInv(Run(b, ops))
    decreases |ops|
  {
    if ops != [] {
      StepKeepsBook(b, ops[0]);
      RunKeepsBook(Step(b, ops[0]), ops[1..]);
    }
  }

  /** In every run a (loan, due date) pair has at most one accrual entry. */
  lemma AccruedAtMostOnce(ops: seq<Op>, id: Uuid, due: IsoDate)
    ensures AtMostOne(Run(NEW_BOOK, ops).gl.entries, AccrualKey(id, due))
  {
    RunKeepsBook(NEW_BOOK, ops);
  }

  // ── Agreement with the ledger ───────────────────────────────────────────────

  /** Every loan's interest is explained by its accrual entries. */
  ghost predicate Explained(b: Book) { forall k :: 0 <= k < |b.loans| ==> Unexplained(b, k) == 0 }

  /** The guard: the step debits nobody's receivable under accrual keys not its own, now or before the loan exists. */
  ghost predicate Clean(b: Book, op: Op) {
    && (forall k :: 0 <= k < |b.loans| ==> Stray(b, op, k) == 0)
    && (op.Books? && !HasLoan(b.loans, op.loan.id) ==> Debited(b.gl.entries, op.loan) == 0)
  }

  lemma StepExplainedIff(b: Book, op: Op)
    requires BookInv(b) && Explained(b)
    ensures Explained(Step(b, op)) <==> Clean(b, op)
  {
    var b' := Step(b, op);
    forall k | 0 <= k < |b.loans|
      ensures k < |b'.loans| && Unexplained(b', k) == -Stray(b, op, k)
    {
      StepAgrees(b, op, k);
    }
    if op.Books? && !HasLoan(b.loans, op.loan.id) {
      assert Unexplained(b', |b.loans|) == -Debited(b.gl.entries, op.loan);
    } else {
      assert |b'.loans| == |b.loans|;
    }
  }

  ghost predicate CleanRun(b: Book, ops: seq<Op>)
    decreases |ops|
  {
    ops == [] || (Clean(b, ops[0]) && CleanRun(Step(b, ops[0]), ops[1..]))
  }

  lemma {:induction false} RunExplainedIff(b: Book, ops: seq<Op>)
    requires BookInv(b) && Explained(b)
    ensures (forall x :: x in AccrualTrace(b, ops) ==> Explained(x)) <==> CleanRun(b, ops)
    decreases |ops|
  {
    if ops != [] {
      var b' := Step(b, ops[0]);
      StepExplainedIff(b, ops[0]);
      StepKeepsBook(b, ops[0]);
      assert AccrualTrace(b, ops) == [b] + AccrualTrace(b', ops[1..]) && b' in AccrualTrace(b', ops[1..]);
      if Explained(b') { RunExplainedIff(b', ops[1..]); }
    }
  }

  /**
   * In every run, under any keys: each loan's accrued and paid interest is what was debited to its
   * receivable under its accrual keys, after every step, if and only if nobody else ever debits it there.
   */
  lemma AccrualsAgree(ops: seq<Op>)
    ensures (forall b :: b in AccrualTrace(NEW_BOOK, ops) ==> Explained(b)) <==> CleanRun(NEW_BOOK, ops)
  {
    RunExplainedIff(NEW_BOOK, ops);
  }

  /** The case arises: a foreign entry under an accrual key moves the ledger, and the beat then passes over that installment. */
  lemma StrayEntryBreaksAgreement(b: Book, k: nat, inst: Installment, key: string, lines: seq<Line>, day: Day)
    requires BookInv(b) && k < |b.loans| && Unexplained(b, k) == 0
    requires key == AccrualKey(b.loans[k].id, inst.due) && !HasEntry(b.gl.entries, key) && Post(b.gl, key, lines).Ok?
    ensures var b' := Step(b, Elsewhere(Posts(key, lines)));
      && k < |b'.loans| && Unexplained(b', k) == -SumBy(lines, DebitOn(b.loans[k].receivable))
      && AccrueOne(b', k, inst, day) == b'
  {
    StepAgrees(b, Elsewhere(Posts(key, lines)), k);
    KeyOwner(b.loans[k].id, b.loans[k].id, inst.due);
    PostKeeps(b.gl, key, lines);
    assert b.gl.entries + [Entry(key, lines)] != b.gl.entries;
  }

  // ── Keys kept apart ─────────────────────────────────────────────────────────

  /** Nobody else posts under the accrual prefix. */
  predicate KeysReserved(op: Op) { op.Elsewhere? && op.op.Posts? ==> !StartsWith(op.op.key, "loan-accrue-") }

  lemma PrefixReserved(key: string, id: Uuid)
    ensures StartsWith(key, LoanPrefix(id)) ==> StartsWith(key, "loan-accrue-")
  {
    assert LoanPrefix(id)[..12] == "loan-accrue-";
    assert |key| >= |LoanPrefix(id)| ==> key[..|LoanPrefix(id)|][..12] == key[..12];
  }

  /** Every entry under the accrual prefix is some loan's. */
  ghost predicate Known(b: Book) {
    forall e :: e in b.gl.entries && StartsWith(e.key, "loan-accrue-") ==>
      exists i, due :: 0 <= i < |b.loans| && e.key == AccrualKey(b.loans[i].id, due)
  }

  lemma StrangerHasNoEntry(b: Book, loan: Loan)
    requires Known(b) && !HasLoan(b.loans, loan.id)
    ensures Debited(b.gl.entries, loan) == 0
  {
    forall e | e in b.gl.entries ensures AccrualDebit(loan.id, loan.receivable)(e) == 0 {
      PrefixReserved(e.key, loan.id);
      if StartsWith(e.key, LoanPrefix(loan.id)) {
        var i, due :| 0 <= i < |b.loans| && e.key == AccrualKey(b.loans[i].id, due);
        KeyOwner(b.loans[i].id, loan.id, due);
        assert false;
      }
    }
    SumZero(b.gl.entries, AccrualDebit(loan.id, loan.receivable));
  }

  lemma KnownSame(b: Book, b': Book)
    requires Known(b) && b'.gl.entries == b.gl.entries && |b'.loans| >= |b.loans|
    requires forall i :: 0 <= i < |b.loans| ==> b'.loans[i].id == b.loans[i].id
    ensures Known(b')
  {
    forall e | e in b'.gl.entries && StartsWith(e.key, "loan-accrue-")
      ensures exists i, due :: 0 <= i < |b'.loans| && e.key == AccrualKey(b'.loans[i].id, due)
    {
      var i, due :| 0 <= i < |b.loans| && e.key == AccrualKey(b.loans[i].id, due);
      assert b'.loans[i].id == b.loans[i].id;
    }
  }

  lemma AccrueOneKnown(b: Book, i: nat, inst: Installment, day: Day)
    requires Known(b)
    ensures Known(AccrueOne(b, i, inst, day))
  {
    var b' := AccrueOne(b, i, inst, day);
    forall e | e in b'.gl.entries && StartsWith(e.key, "loan-accrue-")
      ensures exists k, due :: 0 <= k < |b'.loans| && e.key == AccrualKey(b'.loans[k].id, due)
    {
      if e in b.gl.entries {
        var k, due :| 0 <= k < |b.loans| && e.key == AccrualKey(b.loans[k].id, due);
        assert b'.loans[k].id == b.loans[k].id;
      } else {
        assert e.key == AccrualKey(b.loans[i].id, inst.due) && b'.loans[i].id == b.loans[i].id;
      }
    }
  }

  lemma {:induction false} AccrueAllKnown(b: Book, items: seq<Item>, day: Day)
    requires Known(b)
    ensures Known(AccrueAll(b, items, day))
  {
    if items != [] {
      AccrueAllKnown(b, items[..|items| - 1], day);
      AccrueOneKnown(AccrueAll(b, items[..|items| - 1], day), items[|items| - 1].loan, items[|items| - 1].inst, day);
    }
  }

  lemma ReservedStepIsClean(b: Book, op: Op)
    requires Known(b) && KeysReserved(op)
    ensures Clean(b, op) && Known(Step(b, op))
  {
    forall k | 0 <= k < |b.loans| ensures Stray(b, op, k) == 0 {
      if op.Elsewhere? && op.op.Posts? { PrefixReserved(op.op.key, b.loans[k].id); }
    }
    match op
    case Books(loan) =>
      if !HasLoan(b.loans, loan.id) { StrangerHasNoEntry(b, loan); }
      KnownSame(b, Step(b, op));
    case Beats(day) => AccrueAllKnown(b, Work(b.loans, |b.loans|, day), day);
    case Elsewhere(o) => ElsewhereKnown(b, o);
    case _ => KnownSame(b, Step(b, op));
  }

  lemma ElsewhereKnown(b: Book, o: LedgerOp)
    requires Known(b) && KeysReserved(Elsewhere(o))
    ensures Known(b.(gl := LedgerStep(b.gl, o)))
  {
    var b' := b.(gl := LedgerStep(b.gl, o));
    forall e | e in b'.gl.entries && StartsWith(e.key, "loan-accrue-") ensures e in b.gl.entries {}
  }

  /** Runs in which nobody else posts under the accrual prefix are clean. */
  lemma {:induction false} ReservedRunsAreClean(b: Book, ops: seq<Op>)
    requires Known(b) && forall i :: 0 <= i < |ops| ==> KeysReserved(ops[i])
    ensures CleanRun(b, ops)
    decreases |ops|
  {
    if ops != [] {
      ReservedStepIsClean(b, ops[0]);
      ReservedRunsAreClean(Step(b, ops[0]), ops[1..]);
    }
  }

  // ── Coverage ────────────────────────────────────────────────────────────────

  predicate Settled(entries: seq<Entry>, id: Uuid, inst: Installment) { inst.interest <= 0 || HasEntry(entries, AccrualKey(id, inst.due)) }

  /** The posting of this installment meets the ledger's constraints. */
  predicate Postable(b: Book, i: nat, inst: Installment)
    requires i < |b.loans|
  {
    HasAccount(b.gl.chart, b.loans[i].receivable) && HasAccount(b.gl.chart, b.loans[i].income) && inst.interest < NUMERIC_LIMIT
  }

  lemma SettledStays(entries: seq<Entry>, entries': seq<Entry>, id: Uuid, inst: Installment)
    requires entries <= entries' && Settled(entries, id, inst)
    ensures Settled(entries', id, inst)
  {
    if inst.interest > 0 {
      var i :| 0 <= i < |entries| && entries[i].key == AccrualKey(id, inst.due);
      assert entries'[i] == entries[i];
    }
  }

  lemma AccrueOneSettles(b: Book, i: nat, inst: Installment, day: Day)
    requires LedgerInv(b.gl) && i < |b.loans| && Postable(b, i, inst) && !day.fails(b.loans[i].id, inst)
    ensures Settled(AccrueOne(b, i, inst, day).gl.entries, b.loans[i].id, inst)
  {
    if inst.interest > 0 {
      var key, lines := AccrualKey(b.loans[i].id, inst.due), AccrualLines(b.loans[i], inst.interest);
      AccrualDebits(b.loans[i], inst.interest);
      PostKeeps(b.gl, key, lines);
    }
  }

  lemma {:induction false} AccrueAllSettles(b: Book, items: seq<Item>, day: Day, it: Item)
    requires BookInv(b) && it in items && it.loan < |b.loans|
    requires Postable(b, it.loan, it.inst) && forall id, inst :: !day.fails(id, inst)
    ensures Settled(AccrueAll(b, items, day).gl.entries, b.loans[it.loan].id, it.inst)
  {
    var items0, last := items[..|items| - 1], items[|items| - 1];
    var rest := AccrueAll(b, items0, day);
    AccrueAllAgrees(b, items0, day, it.loan);
    if it in items0 {
      AccrueAllSettles(b, items0, day, it);
      AccrueOneKeeps(rest, last.loan, last.inst, day);
      SettledStays(rest.gl.entries, AccrueAll(b, items, day).gl.entries, b.loans[it.loan].id, it.inst);
    } else {
      AccrueOneSettles(rest, it.loan, it.inst, day);
    }
  }

  lemma {:induction false} NothingLeft(b: Book, items: seq<Item>, day: Day)
    requires forall it :: it in items ==> it.loan < |b.loans| && Settled(b.gl.entries, b.loans[it.loan].id, it.inst)
    ensures AccrueAll(b, items, day) == b
  {
    if items != [] {
      assert items[|items| - 1] in items;
      NothingLeft(b, items[..|items| - 1], day);
    }
  }

  lemma {:induction false} LoanWorkHas(loan: Loan, i: nat, n: nat, day: Day, it: Item)
    requires n <= |loan.installments|
    ensures it in LoanWork(loan, i, n, day) <==> it.loan == i && it.inst.open && day.due(it.inst.due) && it.inst in loan.installments[..n]
  {
    if n > 0 {
      assert loan.installments[..n] == loan.installments[..n - 1] + [loan.installments[n - 1]];
      LoanWorkHas(loan, i, n - 1, day, it);
    }
  }

  /** The beat reaches exactly the due, open installments of eligible loans. */
  lemma {:induction false} WorkHas(loans: seq<Loan>, n: nat, day: Day, it: Item)
    requires n <= |loans|
    ensures it in Work(loans, n, day) <==>
              it.loan < n && loans[it.loan].eligible && it.inst in loans[it.loan].installments && it.inst.open && day.due(it.inst.due)
  {
    if n > 0 {
      var last := loans[n - 1];
      assert last.installments[..|last.installments|] == last.installments;
      LoanWorkHas(last, n - 1, |last.installments|, day, it);
      WorkHas(loans, n - 1, day, it);
    }
  }

  lemma {:induction false} SameLoanWork(loan: Loan, loan': Loan, i: nat, n: nat, day: Day)
    requires loan'.installments == loan.installments && n <= |loan.installments|
    ensures LoanWork(loan', i, n, day) == LoanWork(loan, i, n, day)
  {
    if n > 0 { SameLoanWork(loan, loan', i, n - 1, day); }
  }

  lemma {:induction false} SameWork(b: Book, b': Book, n: nat, day: Day)
    requires SameTerms(b, b') && n <= |b.loans|
    ensures Work(b'.loans, n, day) == Work(b.loans, n, day)
  {
    if n > 0 {
      SameWork(b, b', n - 1, day);
      SameLoanWork(b.loans[n - 1], b'.loans[n - 1], n - 1, |b.loans[n - 1].installments|, day);
    }
  }

  lemma SettledReads(entries: seq<Entry>, id: Uuid, inst: Installment)
    requires Settled(entries, id, inst) && inst.interest > 0
    ensures exists e :: e in entries && e.key == "loan-accrue-" + id + "-" + inst.due
  {
    JournaledIff(entries, AccrualKey(id, inst.due));
  }

  /** What a new accrual entry is: a debit to the loan's receivable and a credit to its income of the interest. */
  predicate AccruedFor(b: Book, day: Day, e: Entry, i: nat, inst: Installment) {
    && i < |b.loans| && b.loans[i].eligible && inst in b.loans[i].installments
    && inst.open && day.due(inst.due) && inst.interest >= 1
    && e == Entry("loan-accrue-" + b.loans[i].id + "-" + inst.due,
                  [Line(b.loans[i].receivable, inst.interest, 0), Line(b.loans[i].income, 0, inst.interest)])
  }

  lemma {:induction false} AccrueAllPosts(b: Book, items: seq<Item>, day: Day, e: Entry)
    requires forall it :: it in items ==>
               it.loan < |b.loans| && b.loans[it.loan].eligible && it.inst in b.loans[it.loan].installments && it.inst.open && day.due(it.inst.due)
    requires e in AccrueAll(b, items, day).gl.entries && e !in b.gl.entries
    ensures exists i, inst :: AccruedFor(b, day, e, i, inst)
  {
    var rest, it := AccrueAll(b, items[..|items| - 1], day), items[|items| - 1];
    if e in rest.gl.entries {
      AccrueAllPosts(b, items[..|items| - 1], day, e);
    } else {
      assert it in items;
      assert AccruedFor(b, day, e, it.loan, it.inst);
    }
  }

  /** Only open, due, interest-bearing installments of eligible loans get an entry, and it is for their interest. */
  lemma BeatPostsOnlyDue(b: Book, day: Day, e: Entry)
    requires e in Beat(b, day).gl.entries && e !in b.gl.entries
    ensures exists i, inst :: AccruedFor(b, day, e, i, inst)
  {
    var items := Work(b.loans, |b.loans|, day);
    forall it | it in items
      ensures it.loan < |b.loans| && b.loans[it.loan].eligible && it.inst in b.loans[it.loan].installments && it.inst.open && day.due(it.inst.due)
    {
      WorkHas(b.loans, |b.loans|, day, it);
    }
    AccrueAllPosts(b, items, day, e);
  }

  /**
   * A beat that meets no failure posts every due, open installment of every eligible loan that bears
   * interest, so running it again changes nothing.
   */
  lemma SecondBeatIsIdle(b: Book, day: Day)
    requires BookInv(b) && forall id, inst :: !day.fails(id, inst)
    requires forall i, inst :: 0 <= i < |b.loans| && inst in b.loans[i].installments ==> Postable(b, i, inst)
    ensures forall i, inst :: (0 <= i < |b.loans| && b.loans[i].eligible && inst in b.loans[i].installments
                               && inst.open && day.due(inst.due) && inst.interest > 0)
              ==> exists e :: e in Beat(b, day).gl.entries && e.key == "loan-accrue-" + b.loans[i].id + "-" + inst.due
    ensures Beat(Beat(b, day), day) == Beat(b, day)
  {
    var b', items := Beat(b, day), Work(b.loans, |b.loans|, day);
    forall i, inst | 0 <= i < |b.loans| && b.loans[i].eligible && inst in b.loans[i].installments && inst.open && day.due(inst.due)
      ensures Settled(b'.gl.entries, b.loans[i].id, inst)
    {
      WorkHas(b.loans, |b.loans|, day, Item(i, inst));
      AccrueAllSettles(b, items, day, Item(i, inst));
      if inst.interest > 0 { SettledReads(b'.gl.entries, b.loans[i].id, inst); }
    }
    SameWork(b, b', |b.loans|, day);
    forall it | it in items ensures it.loan < |b'.loans| && Settled(b'.gl.entries, b'.loans[it.loan].id, it.inst) {
      WorkHas(b.loans, |b.loans|, day, it);
    }
    NothingLeft(b', items, day);
  }

  // ── The job ─────────────────────────────────────────────────────────────────

  class AccrualJob {
    const ledger: LedgerService
    var loans: seq<Loan>

    function State(): Book
      reads this, ledger
    {
      Book(ledger.State(), loans)
    }

    constructor (ledger: LedgerService)
      ensures this.ledger == ledger && loans == []
    {
      this.ledger, loans := ledger, [];
    }

    /** One installment's savepoint. */
    method AccrueInstallment(i: nat, inst: Installment, day: Day) returns (posted: bool)
      requires i < |loans|
      modifies this, ledger
      ensures State() == AccrueOne(old(State()), i, inst, day)
      ensures |ledger.entries| == |old(ledger.entries)| + if posted then 1 else 0
    {
      var key := AccrualKey(loans[i].id, inst.due);
      if HasEntry(ledger.entries, key) { return false; }
      if inst.interest <= 0 || day.fails(loans[i].id, inst) { return false; }
      var r := ledger.PostJournalEntry(key, AccrualLines(loans[i], inst.interest));
      if r.Ok? {
        loans := loans[i := loans[i].(accrued := loans[i].accrued + inst.interest)];
      }
      return r.Ok?;
    }

    /** The inner loop, over one loan's due installments. */
    method AccrueInstallments(i: nat, loan: Loan, day: Day) returns (count: nat)
      requires i < |loans|
      modifies this, ledger
      ensures State() == AccrueAll(old(State()), LoanWork(loan, i, |loan.installments|, day), day)
      ensures count == |ledger.entries| - |old(ledger.entries)|
    {
      count := 0;
      ghost var b := State();
      for k := 0 to |loan.installments|
        invariant |loans| == |b.loans| && State() == AccrueAll(b, LoanWork(loan, i, k, day), day)
        invariant count == |ledger.entries| - |b.gl.entries|
      {
        NextInstallment(b, loan, i, k, day);
        if Wanted(loan.installments[k], day) {
          var posted := AccrueInstallment(i, loan.installments[k], day);
          if posted { count := count + 1; }
        }
      }
    }

    /** The outer loop's body on loan `n`. */
    method AccrueNth(n: nat, loan: Loan, day: Day, ghost b: Book) returns (count: nat)
      requires n < |b.loans| == |loans| && loan == b.loans[n] && State() == AccrueAll(b, Work(b.loans, n, day), day)
      modifies this, ledger
      ensures |loans| == |b.loans| && State() == AccrueAll(b, Work(b.loans, n + 1, day), day)
      ensures count == |ledger.entries| - |old(ledger.entries)|
    {
      NextLoan(b, n, day);
      count := 0;
      if loan.eligible {
        count := AccrueInstallments(n, loan, day);
      }
    }

    /** `_accrue_for_tenant`: eligible loans, then their due installments, each in its own savepoint. */
    method AccrueForTenant(day: Day) returns (count: nat)
      modifies this, ledger
      ensures State() == Beat(old(State()), day)
      ensures count == |ledger.entries| - |old(ledger.entries)|
    {
      count := 0;
      ghost var b := State();
      var listed := loans;
      for n := 0 to |listed|
        invariant |loans| == |listed| && State() == AccrueAll(b, Work(b.loans, n, day), day)
        invariant count == |ledger.entries| - |b.gl.entries|
      {
        var more := AccrueNth(n, listed[n], day, b);
        count := count + more;
      }
    }
  }

  lemma NextInstallment(b: Book, loan: Loan, i: nat, k: nat, day: Day)
    requires k < |loan.installments|
    ensures var rest, inst := AccrueAll(b, LoanWork(loan, i, k, day), day), loan.installments[k];
      AccrueAll(b, LoanWork(loan, i, k + 1, day), day) == if Wanted(inst, day) then AccrueOne(rest, i, inst, day) else rest
  {
    if Wanted(loan.installments[k], day) {
      AccrueAppend(b, LoanWork(loan, i, k, day), Item(i, loan.installments[k]), day);
    } else {
      assert LoanWork(loan, i, k + 1, day) == LoanWork(loan, i, k, day);
    }
  }

  lemma NextLoan(b: Book, n: nat, day: Day)
    requires n < |b.loans|
    ensures var rest, loan := AccrueAll(b, Work(b.loans, n, day), day), b.loans[n];
      AccrueAll(b, Work(b.loans, n + 1, day), day)
      == if loan.eligible then AccrueAll(rest, LoanWork(loan, n, |loan.installments|, day), day) else rest
  {
    if b.loans[n].eligible {
      AccrueConcat(b, Work(b.loans, n, day), LoanWork(b.loans[n], n, |b.loans[n].installments|, day), day);
    } else {
      assert Work(b.loans, n + 1, day) == Work(b.loans, n, day);
    }
  }

  lemma AccrueAppend(b: Book, items: seq<Item>, it: Item, day: Day)
    ensures AccrueAll(b, items + [it], day) == AccrueOne(AccrueAll(b, items, day), it.loan, it.inst, day)
  {
    assert (items + [it])[..|items|] == items;
  }

  lemma {:induction false} AccrueConcat(b: Book, items: seq<Item>, more: seq<Item>, day: Day)
    ensures AccrueAll(b, items + more, day) == AccrueAll(AccrueAll(b, items, day), more, day)
  {
    if more == [] {
      assert items + more == items;
    } else {
      var more0, it := more[..|more| - 1], more[|more| - 1];
      assert items + more == items + more0 + [it];
      AccrueConcat(b, items, more0, day);
      AccrueAppend(b, items + more0, it, day);
    }
  }
}
