/** One tenant: fees, savings, ledger and approvals interleaved over the same books. */
module Tenant {
  import opened Sums
  import opened Text
  import opened Ledger
  import opened Savings
  import opened Fees
  import opened Approvals

  datatype TenantState = TenantState(fees: FeeState, requests: map<Uuid, Request>, events: seq<Event>)

  const NEW_TENANT: TenantState := TenantState(NO_FEES, map[], [])

  function DeskOf(t: TenantState): Desk { Desk(t.fees.books, t.requests, t.events) }

  /** Deposits, system movements and other modules' postings are the fee machine's `Elsewhere` steps. */
  datatype TenantOp = FeeSide(fee: FeeOp) | DeskSide(desk: DeskOp)

  function TenantStep(t: TenantState, op: TenantOp): TenantState {
    match op
    case FeeSide(o) => t.(fees := FeeStep(t.fees, o))
    case DeskSide(o) =>
      var d := DeskStep(DeskOf(t), o);
      TenantState(t.fees.(books := d.books), d.requests, d.events)
  }

  function TenantRun(t: TenantState, ops: seq<TenantOp>): TenantState
    decreases |ops|
  {
    if ops == [] then t else TenantRun(TenantStep(t, ops[0]), ops[1..])
  }

  // ── What a fee operation does to the books ──────────────────────────────────

  /** A move the fee module makes: a posting under its own keys, or a partial savings debit. */
  predicate FeeMove(m: BookOp, savingsAccount: Uuid) {
    match m
    case Journal(key, lines) =>
      !SavingsKey(key) && (StartsWith(key, "fee-assess-") || StartsWith(key, "fee-manual-collect-")) && LinesNet(lines, savingsAccount) == 0
    case SystemDebits(_, _, contra, _, _, _, _) => contra != savingsAccount
    case _ => false
  }

  predicate FeeMoves(moves: seq<BookOp>, savingsAccount: Uuid) { forall i :: 0 <= i < |moves| ==> FeeMove(moves[i], savingsAccount) }

  lemma RunOne(b: Books, op: BookOp)
    ensures BookRun(b, [op]) == BookStep(b, op)
  {
    assert [op][1..] == [];
  }

  /** The savings debit a collection asks for; on a replay or an empty account it moves nothing. */
  function CollectionMoves(s: FeeState, i: nat, receivable: Uuid, key: string, month: int): seq<BookOp>
    requires i < |s.assessments|
  {
    match PrimaryAccount(s.books.accounts, s.assessments[i].charge.target)
    case None => []
    case Some(owner) => [SystemDebits(owner.id, s.assessments[i].amount, receivable, DebitKey(key), "partial", "fees", month)]
  }

  function AssessMove(s: FeeState, c: Charge, key: string): BookOp
    requires c.feeType in s.catalog
  {
    var ft := s.catalog[c.feeType];
    var income := ByCode(s.books.gl.chart, ft.income);
    Journal(AssessKey(key), [Line(ReceivableOf(s, c), ft.amount, 0), Line(if income.Some? then income.value.id else NIL, 0, ft.amount)])
  }

  /** What a fee operation is to the books. */
  function FeeMovesOf(s: FeeState, op: FeeOp): seq<BookOp> {
    if FeeStep(s, op) == s then []
    else match op
      case Assesses(id, c, key, month) =>
        if Assessing(s, id, c, key).Err? then []
        else [AssessMove(s, c, key)]
             + if s.catalog[c.feeType].requiresCollection
               then CollectionMoves(Assessing(s, id, c, key).value, |s.assessments|, ReceivableOf(s, c), key, month) else []
      case Retries(id, today, month) =>
        var i := Find(s.assessments, id);
        if i == |s.assessments| then [] else CollectionMoves(s, i, ReceivableOf(s, s.assessments[i].charge), RetryKey(id, today), month)
      case Collects(id, amount, contra, key) =>
        var i := Find(s.assessments, id);
        if i == |s.assessments| then []
        else [Journal(ManualKey(key), [Line(contra, amount, 0), Line(ReceivableOf(s, s.assessments[i].charge), 0, amount)])]
      case Elsewhere(o) => [o]
      case _ => []
  }

  lemma CollectionIsMoves(s: FeeState, i: nat, receivable: Uuid, key: string, month: int)
    requires i < |s.assessments| && AutoCollect(s, i, receivable, key, month).Ok?
    ensures AutoCollect(s, i, receivable, key, month).value.books == BookRun(s.books, CollectionMoves(s, i, receivable, key, month))
  {
    var moves := CollectionMoves(s, i, receivable, key, month);
    if moves != [] { RunOne(s.books, moves[0]); }
  }

  lemma AssessingIsMove(s: FeeState, id: Uuid, c: Charge, key: string)
    requires Assessing(s, id, c, key).Ok?
    ensures c.feeType in s.catalog && Assessing(s, id, c, key).value.books == BookStep(s.books, AssessMove(s, c, key))
  {
  }

  /** No fee type and no chart row confuses the savings liability `s` with a fee account. */
  ghost predicate FeeAccountsApart(fees: FeeState, s: GlAccount) {
    && Names(fees.books.gl.chart, s)
    && forall id :: id in fees.catalog ==> fees.catalog[id].income != s.code && fees.catalog[id].receivable != s.code
  }

  /** Every fee operation is, to the books, the run of its moves. */
  lemma FeeOpMoves(s: FeeState, op: FeeOp)
    ensures FeeStep(s, op).books == BookRun(s.books, FeeMovesOf(s, op))
  {
    if FeeStep(s, op) != s {
      match op
      case Assesses(id, c, key, month) =>
        AssessingIsMove(s, id, c, key);
        RunOne(s.books, AssessMove(s, c, key));
        if s.catalog[c.feeType].requiresCollection {
          var s1 := Assessing(s, id, c, key).value;
          var more := CollectionMoves(s1, |s.assessments|, ReceivableOf(s, c), key, month);
          CollectionIsMoves(s1, |s.assessments|, ReceivableOf(s, c), key, month);
          assert ([AssessMove(s, c, key)] + more)[1..] == more;
        }
      case Retries(id, today, month) =>
        var i := Find(s.assessments, id);
        CollectionIsMoves(s, i, ReceivableOf(s, s.assessments[i].charge), RetryKey(id, today), month);
      case Collects(id, amount, contra, key) => RunOne(s.books, FeeMovesOf(s, op)[0]);
      case Elsewhere(o) => RunOne(s.books, o);
      case _ =>
    }
  }

  lemma AssessMoveApart(s: FeeState, id: Uuid, c: Charge, key: string, savings: GlAccount)
    requires FeeAccountsApart(s, savings) && Assessing(s, id, c, key).Ok?
    ensures c.feeType in s.catalog && FeeMove(AssessMove(s, c, key), savings.id) && ReceivableOf(s, c) != savings.id
  {
    var m := AssessMove(s, c, key);
    AssessKeyForeign(key);
    PrefixFacts("fee-assess-", key);
    TwoLines(m.lines[0], m.lines[1], savings.id);
  }

  lemma ReceivableApart(s: FeeState, c: Charge, savings: GlAccount)
    requires FeeAccountsApart(s, savings) && c.feeType in s.catalog && ByCode(s.books.gl.chart, s.catalog[c.feeType].receivable).Some?
    ensures ReceivableOf(s, c) != savings.id
  {
  }

  lemma CollectMoveApart(s: FeeState, c: Charge, amount: int, contra: Uuid, key: string, savings: GlAccount)
    requires ReceivableOf(s, c) != savings.id && contra != savings.id
    ensures FeeMove(Journal(ManualKey(key), [Line(contra, amount, 0), Line(ReceivableOf(s, c), 0, amount)]), savings.id)
  {
    ManualKeyForeign(key);
    PrefixFacts("fee-manual-collect-", key);
    TwoLines(Line(contra, amount, 0), Line(ReceivableOf(s, c), 0, amount), savings.id);
  }

  /** On accounts kept apart, each of the fee module's moves stays clear of the savings liability. */
  lemma FeeMovesApart(s: FeeState, op: FeeOp, savings: GlAccount)
    requires FeeAccountsApart(s, savings) && !op.Elsewhere? && (op.Collects? ==> op.contra != savings.id)
    ensures FeeMoves(FeeMovesOf(s, op), savings.id)
  {
    if FeeStep(s, op) != s {
      match op
      case Assesses(id, c, key, month) => AssessMoveApart(s, id, c, key, savings);
      case Retries(id, _, _) => ReceivableApart(s, s.assessments[Find(s.assessments, id)].charge, savings);
      case Collects(id, amount, contra, key) =>
        var c := s.assessments[Find(s.assessments, id)].charge;
        ReceivableApart(s, c, savings);
        CollectMoveApart(s, c, amount, contra, key, savings);
      case _ =>
    }
  }

  // ── The tenant invariant ────────────────────────────────────────────────────

  /** A pending request's eventual move stays clear of the two accounts and of reserved keys. */
  predicate MoveApart(m: BookOp, accounts: seq<SavingsAccount>, s: GlAccount, g: GlAccount) {
    && FeesApart(m)
    && match m
       case Journal(_, lines) => LinesNet(lines, s.id) == 0 && LinesNet(lines, g.id) == 0
       case Withdraws(account, _, contra, liability, _, _) =>
         var owner := FindAccount(accounts, account);
         contra != s.id && contra != g.id && owner.Some? && owner.value.liability == liability
       case _ => false
  }

  ghost predicate RequestApart(r: Request, accounts: seq<SavingsAccount>, s: GlAccount, g: GlAccount) {
    forall month :: MoveOf(r, month).Some? ==> MoveApart(MoveOf(r, month).value, accounts, s, g)
  }

  ghost predicate RequestsApart(t: TenantState, s: GlAccount, g: GlAccount) {
    forall id :: id in t.requests ==> RequestApart(t.requests[id], t.fees.books.accounts, s, g)
  }

  ghost predicate DeskGood(t: TenantState, foreign: string -> bool) {
    DeskInv(DeskOf(t)) && Traced(DeskOf(t), foreign) && OnePerKey(t.requests)
  }

  ghost predicate FeesGood(t: TenantState, g: GlAccount, chargeOf: string -> Charge) {
    && FeeInv(t.fees) && Apart(t.fees, g) && Drift(t.fees, g) == 0
    && ChargesCovered(t.fees.books.gl.entries, t.fees.assessments, chargeOf)
  }

  /** `s` is a savings liability and `g` a fee receivable; both agree with their sub-ledgers. */
  ghost predicate TenantInv(t: TenantState, s: GlAccount, g: GlAccount, chargeOf: string -> Charge, foreign: string -> bool) {
    && FeesGood(t, g, chargeOf)
    && FeeAccountsApart(t.fees, s) && Gap(t.fees.books, s.id) == 0
    && DeskGood(t, foreign) && RequestsApart(t, s, g)
  }

  predicate FeeSideLegal(t: TenantState, o: FeeOp, s: GlAccount, g: GlAccount, chargeOf: string -> Charge, foreign: string -> bool) {
    && OpApart(o) && FeeNeutral(t.fees, o, g)
    && match o
       case Adds(_, row) => row.income != s.code && row.receivable != s.code
       case Patches(_, _, _) => true
       case Assesses(_, charge, key, _) => chargeOf(key) == charge
       case Retries(_, _, _) => true
       case Collects(_, _, contra, _) => contra != s.id
       case Elsewhere(b) =>
         && !b.Withdraws? && Neutral(t.fees.books, b, s.id)
         && (b.Journal? ==> foreign(b.key))
         && (b.Charts? ==> (b.gl.code == s.code <==> b.gl.id == s.id))
  }

  predicate DeskSideLegal(o: DeskOp, s: GlAccount, g: GlAccount) {
    match o
    case Submits(_, op, _, _, _, _) => op != WITHDRAW && op != POST_ENTRY
    case AsksWithdrawal(_, _, _, payment, _, key) => payment != s.id && payment != g.id && !StartsWith(key, "fee-collect-")
    case AsksEntry(_, lines, _, key) =>
      FeesApart(Journal(key, Stored(lines))) && LinesNet(Stored(lines), s.id) == 0 && LinesNet(Stored(lines), g.id) == 0
    case Moves(_) => false
    case _ => true
  }

  predicate Legal(t: TenantState, op: TenantOp, s: GlAccount, g: GlAccount, chargeOf: string -> Charge, foreign: string -> bool) {
    match op
    case FeeSide(o) => FeeSideLegal(t, o, s, g, chargeOf, foreign)
    case DeskSide(o) => DeskSideLegal(o, s, g)
  }

  ghost predicate FeeKeysForeign(foreign: string -> bool) {
    forall key :: StartsWith(key, "fee-assess-") || StartsWith(key, "fee-manual-collect-") ==> foreign(key)
  }

  // ── Fee steps ───────────────────────────────────────────────────────────────

  lemma OneMoveAgrees(b: Books, m: BookOp, liability: Uuid)
    requires BooksInv(b) && KeysApart(m) && Neutral(b, m, liability)
    ensures BooksInv(BookStep(b, m)) && Gap(BookStep(b, m), liability) == Gap(b, liability)
  {
    StepKeeps(b, m);
    if BookStep(b, m) != b { NeutralIsExact(b, m, liability); }
  }

  /** Fee moves keep the savings books in agreement and the desk's tracing intact. */
  lemma {:induction false} MovesKeep(d: Desk, moves: seq<BookOp>, liability: Uuid, foreign: string -> bool)
    requires BooksInv(d.books) && Traced(d, foreign) && FeeMoves(moves, liability) && FeeKeysForeign(foreign)
    ensures Traced(d.(books := BookRun(d.books, moves)), foreign)
    ensures Gap(BookRun(d.books, moves), liability) == Gap(d.books, liability)
    decreases |moves|
  {
    if moves != [] {
      var m := moves[0];
      assert FeeMove(m, liability);
      OneMoveAgrees(d.books, m, liability);
      MoveTraced(d, m, foreign);
      MovesKeep(d.(books := BookStep(d.books, m)), moves[1..], liability, foreign);
    }
  }

  lemma FeeSideFees(t: TenantState, o: FeeOp, s: GlAccount, g: GlAccount, chargeOf: string -> Charge, foreign: string -> bool)
    requires FeesGood(t, g, chargeOf) && FeeSideLegal(t, o, s, g, chargeOf, foreign)
    ensures FeesGood(TenantStep(t, FeeSide(o)), g, chargeOf)
  {
    FeeStepKeeps(t.fees, o);
    FeeStepDrift(t.fees, o, g, chargeOf);
    ChargesStayCovered(t.fees, o, chargeOf);
    ApartStays(t.fees, o, g);
  }

  lemma AccountsGrow(fees: FeeState, o: FeeOp, id: Uuid)
    requires FeeInv(fees) && FindAccount(fees.books.accounts, id).Some?
    ensures FindAccount(FeeStep(fees, o).books.accounts, id) == FindAccount(fees.books.accounts, id)
  {
    var a := FindAccount(fees.books.accounts, id).value;
    if o.Elsewhere? {
      BookStepShape(fees.books, o.op);
      StepOwned(fees.books, o.op);
      assert a in FeeStep(fees, o).books.accounts;
      FindIsUnique(FeeStep(fees, o).books.accounts, a);
    } else {
      FeeFrame(fees, o);
    }
  }

  lemma ElsewhereBooks(t: TenantState, op: BookOp, s: GlAccount, g: GlAccount, chargeOf: string -> Charge, foreign: string -> bool)
    requires FeeInv(t.fees) && FeeAccountsApart(t.fees, s) && Traced(DeskOf(t), foreign)
    requires FeeSideLegal(t, Elsewhere(op), s, g, chargeOf, foreign)
    ensures var t' := TenantStep(t, FeeSide(Elsewhere(op)));
      && FeeAccountsApart(t'.fees, s) && Gap(t'.fees.books, s.id) == Gap(t.fees.books, s.id) && Traced(DeskOf(t'), foreign)
  {
    BookStepShape(t.fees.books, op);
    OneMoveAgrees(t.fees.books, op, s.id);
    MoveTraced(DeskOf(t), op, foreign);
  }

  lemma FeeOpBooks(fees: FeeState, d: Desk, o: FeeOp, s: GlAccount, foreign: string -> bool)
    requires BooksInv(fees.books) && FeeAccountsApart(fees, s) && d.books == fees.books && Traced(d, foreign)
    requires FeeKeysForeign(foreign) && !o.Elsewhere? && (o.Collects? ==> o.contra != s.id)
    ensures Gap(FeeStep(fees, o).books, s.id) == Gap(fees.books, s.id)
    ensures Traced(d.(books := FeeStep(fees, o).books), foreign)
  {
    FeeOpMoves(fees, o);
    FeeMovesApart(fees, o, s);
    MovesKeep(d, FeeMovesOf(fees, o), s.id, foreign);
  }

  lemma FeeOpApart(t: TenantState, o: FeeOp, s: GlAccount, g: GlAccount, chargeOf: string -> Charge, foreign: string -> bool)
    requires FeeInv(t.fees) && FeeAccountsApart(t.fees, s) && FeeSideLegal(t, o, s, g, chargeOf, foreign) && !o.Elsewhere?
    ensures FeeAccountsApart(FeeStep(t.fees, o), s)
  {
    FeeFrame(t.fees, o);
  }

  lemma FeeSideBooks(t: TenantState, o: FeeOp, s: GlAccount, g: GlAccount, chargeOf: string -> Charge, foreign: string -> bool)
    requires FeeInv(t.fees) && FeeAccountsApart(t.fees, s) && Traced(DeskOf(t), foreign) && FeeKeysForeign(foreign)
    requires FeeSideLegal(t, o, s, g, chargeOf, foreign)
    ensures var t' := TenantStep(t, FeeSide(o));
      && FeeAccountsApart(t'.fees, s) && Gap(t'.fees.books, s.id) == Gap(t.fees.books, s.id) && Traced(DeskOf(t'), foreign)
  {
    if o.Elsewhere? {
      ElsewhereBooks(t, o.op, s, g, chargeOf, foreign);
    } else {
      FeeOpApart(t, o, s, g, chargeOf, foreign);
      FeeOpBooks(t.fees, DeskOf(t), o, s, foreign);
    }
  }

  lemma FeeSideKeeps(t: TenantState, o: FeeOp, s: GlAccount, g: GlAccount, chargeOf: string -> Charge, foreign: string -> bool)
    requires TenantInv(t, s, g, chargeOf, foreign) && FeeKeysForeign(foreign) && FeeSideLegal(t, o, s, g, chargeOf, foreign)
    ensures TenantInv(TenantStep(t, FeeSide(o)), s, g, chargeOf, foreign)
  {
    var t' := TenantStep(t, FeeSide(o));
    FeeSideFees(t, o, s, g, chargeOf, foreign);
    FeeSideBooks(t, o, s, g, chargeOf, foreign);
    forall id | id in t'.requests ensures RequestApart(t'.requests[id], t'.fees.books.accounts, s, g) {
      forall month | MoveOf(t.requests[id], month).Some?
        ensures MoveApart(MoveOf(t.requests[id], month).value, t'.fees.books.accounts, s, g)
      {
        var m := MoveOf(t.requests[id], month).value;
        if m.Withdraws? { AccountsGrow(t.fees, o, m.account); }
      }
    }
  }

  // ── Desk steps ──────────────────────────────────────────────────────────────

  /** An approved move is, for the fee machine, one more well-behaved caller. */
  lemma ApprovedMoveKeeps(t: TenantState, m: BookOp, s: GlAccount, g: GlAccount, chargeOf: string -> Charge)
    requires FeesGood(t, g, chargeOf) && FeeAccountsApart(t.fees, s) && Gap(t.fees.books, s.id) == 0
    requires MoveApart(m, t.fees.books.accounts, s, g)
    ensures var t' := t.(fees := t.fees.(books := BookStep(t.fees.books, m)));
      && FeesGood(t', g, chargeOf) && FeeAccountsApart(t'.fees, s) && Gap(t'.fees.books, s.id) == 0
      && t'.fees.books.accounts == t.fees.books.accounts
  {
    var o := Elsewhere(m);
    BookStepShape(t.fees.books, m);
    OneMoveAgrees(t.fees.books, m, s.id);
    FeeStepKeeps(t.fees, o);
    FeeStepDrift(t.fees, o, g, chargeOf);
    ChargesStayCovered(t.fees, o, chargeOf);
    ApartStays(t.fees, o, g);
  }

  /** What the desk's own requests ask for, once printed and parsed back. */
  lemma AskedWithdrawalApart(r: Request, accounts: seq<SavingsAccount>, account: Uuid, amount: Amount, payment: Uuid, key: string, s: GlAccount, g: GlAccount)
    requires FindAccount(accounts, account).Some? && r.op == WITHDRAW
    requires r.payload == PrintWithdrawal(FindAccount(accounts, account).value, amount, payment, key)
    requires payment != s.id && payment != g.id && !StartsWith(key, "fee-collect-")
    ensures RequestApart(r, accounts, s, g)
  {
    var a := FindAccount(accounts, account).value;
    WithdrawalRoundTrip(a, amount, payment, key);
    forall month ensures MoveOf(r, month) == Some(Withdraws(a.id, Money(amount), payment, a.liability, key, month)) {}
  }

  lemma AskedEntryApart(r: Request, accounts: seq<SavingsAccount>, lines: seq<ManualLine>, key: string, s: GlAccount, g: GlAccount)
    requires r.op == POST_ENTRY && r.payload == JournalPayload(key, PrintLines(lines))
    requires FeesApart(Journal(key, Stored(lines))) && LinesNet(Stored(lines), s.id) == 0 && LinesNet(Stored(lines), g.id) == 0
    ensures RequestApart(r, accounts, s, g)
  {
    LinesRoundTrip(lines);
    assert POST_ENTRY[0] != WITHDRAW[0];
    forall month ensures MoveOf(r, month) == Some(Journal(key, Stored(lines))) {}
  }

  lemma NewRequestApart(t: TenantState, o: DeskOp, s: GlAccount, g: GlAccount, id: Uuid)
    requires DeskSideLegal(o, s, g) && id !in t.requests && id in DeskStep(DeskOf(t), o).requests
    ensures RequestApart(DeskStep(DeskOf(t), o).requests[id], t.fees.books.accounts, s, g)
  {
    var r := DeskStep(DeskOf(t), o).requests[id];
    if o.AsksWithdrawal? {
      AskedWithdrawalApart(r, t.fees.books.accounts, o.account, o.amount, o.payment, o.key, s, g);
    } else if o.AsksEntry? {
      AskedEntryApart(r, t.fees.books.accounts, o.lines, o.key, s, g);
    }
  }

  lemma SameMove(r: Request, q: Request, month: int)
    requires r.op == q.op && r.payload == q.payload
    ensures MoveOf(r, month) == MoveOf(q, month)
  {
  }

  lemma DeskRequestsApart(t: TenantState, o: DeskOp, s: GlAccount, g: GlAccount)
    requires RequestsApart(t, s, g) && DeskSideLegal(o, s, g)
    ensures forall id :: id in DeskStep(DeskOf(t), o).requests ==>
              RequestApart(DeskStep(DeskOf(t), o).requests[id], t.fees.books.accounts, s, g)
  {
    var d' := DeskStep(DeskOf(t), o);
    forall id | id in d'.requests ensures RequestApart(d'.requests[id], t.fees.books.accounts, s, g) {
      TermsStay(DeskOf(t), o, id);
      if id in t.requests {
        forall month { SameMove(t.requests[id], d'.requests[id], month); }
      } else {
        NewRequestApart(t, o, s, g, id);
      }
    }
  }

  lemma DeskSideDesk(t: TenantState, o: DeskOp, s: GlAccount, g: GlAccount, foreign: string -> bool)
    requires DeskGood(t, foreign) && DeskSideLegal(o, s, g)
    ensures DeskGood(TenantStep(t, DeskSide(o)), foreign)
  {
    DeskStepKeeps(DeskOf(t), o);
    StepTraced(DeskOf(t), o, foreign);
    StepOnePerKey(DeskOf(t), o);
  }

  lemma DeskSideKeeps(t: TenantState, o: DeskOp, s: GlAccount, g: GlAccount, chargeOf: string -> Charge, foreign: string -> bool)
    requires TenantInv(t, s, g, chargeOf, foreign) && DeskSideLegal(o, s, g)
    ensures TenantInv(TenantStep(t, DeskSide(o)), s, g, chargeOf, foreign)
  {
    DeskSideDesk(t, o, s, g, foreign);
    DeskRequestsApart(t, o, s, g);
    var d' := DeskStep(DeskOf(t), o);
    if d'.books != t.fees.books {
      if !o.Approves? { QuietBooks(DeskOf(t), o); }
      ApprovalMoves(DeskOf(t), o.id, o.actor, o.month, o.other);
      var m := MoveOf(t.requests[o.id], o.month).value;
      assert RequestApart(t.requests[o.id], t.fees.books.accounts, s, g);
      ApprovedMoveKeeps(t, m, s, g, chargeOf);
    }
  }

  // ── Whole tenant runs ───────────────────────────────────────────────────────

  ghost predicate LegalRun(t: TenantState, ops: seq<TenantOp>, s: GlAccount, g: GlAccount, chargeOf: string -> Charge, foreign: string -> bool)
    decreases |ops|
  {
    ops == [] || (Legal(t, ops[0], s, g, chargeOf, foreign) && LegalRun(TenantStep(t, ops[0]), ops[1..], s, g, chargeOf, foreign))
  }

  lemma {:induction false} TenantRunKeeps(t: TenantState, ops: seq<TenantOp>, s: GlAccount, g: GlAccount, chargeOf: string -> Charge, foreign: string -> bool)
    requires TenantInv(t, s, g, chargeOf, foreign) && FeeKeysForeign(foreign) && LegalRun(t, ops, s, g, chargeOf, foreign)
    ensures TenantInv(TenantRun(t, ops), s, g, chargeOf, foreign)
    decreases |ops|
  {
    if ops != [] {
      match ops[0] {
        case FeeSide(o) => FeeSideKeeps(t, o, s, g, chargeOf, foreign);
        case DeskSide(o) => DeskSideKeeps(t, o, s, g, chargeOf, foreign);
      }
      TenantRunKeeps(TenantStep(t, ops[0]), ops[1..], s, g, chargeOf, foreign);
    }
  }

  /**
   * Every interleaving of deposits, system movements, fee assessments, collections and retries,
   * withdrawal requests, manual entries and checkers' decisions: at once, the savings liability
   * agrees with the members' balances, the receivable agrees with the outstanding fees, the trial
   * balance holds, paid fees are covered, and every withdrawal has exactly one executed request.
   */
  lemma TenantBooksAgree(ops: seq<TenantOp>, s: GlAccount, g: GlAccount, chargeOf: string -> Charge, foreign: string -> bool)
    requires FeeKeysForeign(foreign) && LegalRun(NEW_TENANT, ops, s, g, chargeOf, foreign)
    requires !DebitNormal(s.kind) && DebitNormal(g.kind)
    ensures var t := TenantRun(NEW_TENANT, ops);
      var b := t.fees.books;
      && AccountBalance(b.gl.entries, s.id, s.kind) == MemberFunds(b, s.id)
      && AccountBalance(b.gl.entries, g.id, g.kind) == Outstanding(t.fees, g.code)
      && SumBy(b.gl.chart, DebitSide(b.gl.entries)) == SumBy(b.gl.chart, CreditSide(b.gl.entries))
      && (forall a :: a in t.fees.assessments && a.status == Paid ==> Collected(t.fees.collections, a.id) >= a.amount)
      && (forall x :: x in b.txns && x.kind == TxnKind.Withdrawal ==> BackedOnce(t.requests, x))
  {
    TenantRunKeeps(NEW_TENANT, ops, s, g, chargeOf, foreign);
    var t := TenantRun(NEW_TENANT, ops);
    TrialBalance(t.fees.books.gl);
    forall x | x in t.fees.books.txns && x.kind == TxnKind.Withdrawal { WithdrawalBackedOnce(DeskOf(t), foreign, x); }
  }

  // ── Exactly when the books agree ────────────────────────────────────────────

  /** What a desk operation is to the books: the executed request's move, or nothing. */
  function DeskMovesOf(d: Desk, op: DeskOp): seq<BookOp> {
    if DeskStep(d, op).books == d.books then []
    else match op
      case Moves(m) => [m]
      case Approves(id, _, month, _) =>
        if id in d.requests && MoveOf(d.requests[id], month).Some? then [MoveOf(d.requests[id], month).value] else []
      case _ => []
  }

  lemma DeskOpMoves(d: Desk, op: DeskOp)
    ensures DeskStep(d, op).books == BookRun(d.books, DeskMovesOf(d, op)) && |DeskMovesOf(d, op)| <= 1
  {
    if DeskStep(d, op).books != d.books {
      if op.Approves? {
        ApprovalMoves(d, op.id, op.actor, op.month, op.other);
        RunOne(d.books, MoveOf(d.requests[op.id], op.month).value);
      } else if op.Moves? {
        RunOne(d.books, op.move);
      } else {
        QuietBooks(d, op);
      }
    }
  }

  function MovesOf(t: TenantState, op: TenantOp): seq<BookOp> {
    match op
    case FeeSide(o) => FeeMovesOf(t.fees, o)
    case DeskSide(o) => DeskMovesOf(DeskOf(t), o)
  }

  lemma TenantMoves(t: TenantState, op: TenantOp)
    ensures TenantStep(t, op).fees.books == BookRun(t.fees.books, MovesOf(t, op))
  {
    match op
    case FeeSide(o) => FeeOpMoves(t.fees, o);
    case DeskSide(o) => DeskOpMoves(DeskOf(t), o);
  }

  function TotalLeak(b: Books, moves: seq<BookOp>, target: Uuid): int
    decreases |moves|
  {
    if moves == [] then 0 else Leak(b, moves[0], target) + TotalLeak(BookStep(b, moves[0]), moves[1..], target)
  }

  lemma {:induction false} MovesGap(b: Books, moves: seq<BookOp>, target: Uuid)
    requires Owned(b)
    ensures Owned(BookRun(b, moves)) && Gap(BookRun(b, moves), target) == Gap(b, target) + TotalLeak(b, moves, target)
    decreases |moves|
  {
    if moves != [] {
      StepGap(b, moves[0], target);
      StepOwned(b, moves[0]);
      MovesGap(BookStep(b, moves[0]), moves[1..], target);
    }
  }

  /** To the fee tables, an executed request is one more outside move. */
  function FeeOps(t: TenantState, op: TenantOp): seq<FeeOp> {
    match op
    case FeeSide(o) => [o]
    case DeskSide(o) => var moves := DeskMovesOf(DeskOf(t), o); if moves == [] then [] else [Elsewhere(moves[0])]
  }

  lemma TenantFees(t: TenantState, op: TenantOp)
    ensures |FeeOps(t, op)| <= 1
    ensures TenantStep(t, op).fees == if FeeOps(t, op) == [] then t.fees else FeeStep(t.fees, FeeOps(t, op)[0])
  {
    if op.DeskSide? {
      DeskOpMoves(DeskOf(t), op.desk);
      var moves := DeskMovesOf(DeskOf(t), op.desk);
      if moves != [] { RunOne(t.fees.books, moves[0]); assert moves == [moves[0]]; }
    }
  }

  /** Withdrawals go through the desk, everything else past it. */
  predicate Routed(op: TenantOp) {
    match op
    case FeeSide(o) => o.Elsewhere? ==> !o.op.Withdraws?
    case DeskSide(o) => !o.Moves?
  }

  /** Both ledger accounts agree with their sub-ledgers, paid fees are covered, withdrawals and their requests match. */
  ghost predicate Agrees(t: TenantState, s: GlAccount, g: GlAccount) {
    && AccountBalance(t.fees.books.gl.entries, s.id, s.kind) == MemberFunds(t.fees.books, s.id)
    && AccountBalance(t.fees.books.gl.entries, g.id, g.kind) == Outstanding(t.fees, g.code)
    && PaidCovered(t.fees) && WithdrawalsMatch(DeskOf(t))
  }

  /** The guards of the four agreements, on one call. */
  predicate CleanCall(t: TenantState, op: TenantOp, s: GlAccount, g: GlAccount) {
    && TotalLeak(t.fees.books, MovesOf(t, op), s.id) == 0
    && (FeeOps(t, op) != [] ==> Slip(t.fees, FeeOps(t, op)[0], g) == 0 && !PaysShort(t.fees, FeeOps(t, op)[0]))
    && (op.DeskSide? ==> PaysFresh(DeskOf(t), op.desk))
  }

  /** What every tenant keeps, whoever uses whose keys and accounts. */
  ghost predicate Sound(t: TenantState) {
    && Owned(t.fees.books) && FeeTables(t.fees) && DistinctAccounts(t.fees.books.gl.chart)
    && DeskInv(DeskOf(t)) && DistinctTxnKeys(t.fees.books.txns) && DistinctKeys(t.fees.books.gl.entries)
  }

  lemma {:induction false} MovesKeysDistinct(b: Books, moves: seq<BookOp>)
    requires DistinctTxnKeys(b.txns) && DistinctKeys(b.gl.entries)
    ensures DistinctTxnKeys(BookRun(b, moves).txns) && DistinctKeys(BookRun(b, moves).gl.entries)
    decreases |moves|
  {
    if moves != [] {
      StepKeysDistinct(b, moves[0]);
      MovesKeysDistinct(BookStep(b, moves[0]), moves[1..]);
    }
  }

  lemma StepSound(t: TenantState, op: TenantOp)
    requires Sound(t)
    ensures Sound(TenantStep(t, op)) && t.fees.books.gl.chart <= TenantStep(t, op).fees.books.gl.chart
  {
    TenantMoves(t, op);
    TenantFees(t, op);
    MovesGap(t.fees.books, MovesOf(t, op), NIL);
    MovesKeysDistinct(t.fees.books, MovesOf(t, op));
    if FeeOps(t, op) != [] {
      StepTables(t.fees, FeeOps(t, op)[0]);
      ChartStep(t.fees, FeeOps(t, op)[0]);
    }
    if op.DeskSide? { DeskStepKeeps(DeskOf(t), op.desk); }
  }

  lemma {:induction false} MovesTxns(b: Books, moves: seq<BookOp>)
    requires forall i :: 0 <= i < |moves| ==> !moves[i].Withdraws?
    ensures forall x: Txn :: x.kind == TxnKind.Withdrawal ==> (x in BookRun(b, moves).txns <==> x in b.txns)
    decreases |moves|
  {
    if moves != [] {
      MoveRows(b, moves[0]);
      MovesTxns(BookStep(b, moves[0]), moves[1..]);
    }
  }

  lemma CallWithdrawalsIff(t: TenantState, op: TenantOp)
    requires Sound(t) && WithdrawalsMatch(DeskOf(t)) && Routed(op)
    ensures WithdrawalsMatch(DeskOf(TenantStep(t, op))) <==> (op.DeskSide? ==> PaysFresh(DeskOf(t), op.desk))
  {
    match op
    case FeeSide(o) =>
      FeeOpMoves(t.fees, o);
      MovesTxns(t.fees.books, FeeMovesOf(t.fees, o));
      MatchFrame(DeskOf(t), DeskOf(TenantStep(t, op)));
    case DeskSide(o) => StepMatchesIff(DeskOf(t), o);
  }

  lemma CallFeesIff(t: TenantState, op: TenantOp, g: GlAccount)
    requires Sound(t) && Names(t.fees.books.gl.chart, g) && Drift(t.fees, g) == 0 && PaidCovered(t.fees)
    ensures Drift(TenantStep(t, op).fees, g) == 0 && PaidCovered(TenantStep(t, op).fees)
       <==> (FeeOps(t, op) != [] ==> Slip(t.fees, FeeOps(t, op)[0], g) == 0 && !PaysShort(t.fees, FeeOps(t, op)[0]))
  {
    TenantFees(t, op);
    if FeeOps(t, op) != [] {
      StepDrift(t.fees, FeeOps(t, op)[0], g);
      StepPaidIff(t.fees, FeeOps(t, op)[0]);
    }
  }

  lemma AgreesMeans(t: TenantState, s: GlAccount, g: GlAccount)
    requires !DebitNormal(s.kind) && DebitNormal(g.kind)
    ensures Agrees(t, s, g) <==>
              Gap(t.fees.books, s.id) == 0 && Drift(t.fees, g) == 0 && PaidCovered(t.fees) && WithdrawalsMatch(DeskOf(t))
  {
  }

  lemma CallAgreesIff(t: TenantState, op: TenantOp, s: GlAccount, g: GlAccount)
    requires Sound(t) && Agrees(t, s, g) && Names(t.fees.books.gl.chart, g) && Routed(op) && !DebitNormal(s.kind) && DebitNormal(g.kind)
    ensures Agrees(TenantStep(t, op), s, g) <==> CleanCall(t, op, s, g)
  {
    AgreesMeans(t, s, g);
    AgreesMeans(TenantStep(t, op), s, g);
    TenantMoves(t, op);
    MovesGap(t.fees.books, MovesOf(t, op), s.id);
    CallFeesIff(t, op, g);
    CallWithdrawalsIff(t, op);
  }

  /** Every state a run passes through, from the first to the one it ends in. */
  function TenantTrace(t: TenantState, ops: seq<TenantOp>): (trace: seq<TenantState>)
    ensures |trace| == |ops| + 1 && trace[0] == t && trace[|ops|] == TenantRun(t, ops)
    decreases |ops|
  {
    if ops == [] then [t] else [t] + TenantTrace(TenantStep(t, ops[0]), ops[1..])
  }

  predicate CleanCalls(t: TenantState, ops: seq<TenantOp>, s: GlAccount, g: GlAccount)
    decreases |ops|
  {
    ops == [] || (CleanCall(t, ops[0], s, g) && CleanCalls(TenantStep(t, ops[0]), ops[1..], s, g))
  }

  lemma {:induction false} TenantChartGrows(t: TenantState, ops: seq<TenantOp>)
    requires Sound(t)
    ensures t.fees.books.gl.chart <= TenantRun(t, ops).fees.books.gl.chart && DistinctAccounts(TenantRun(t, ops).fees.books.gl.chart)
    decreases |ops|
  {
    if ops != [] {
      StepSound(t, ops[0]);
      TenantChartGrows(TenantStep(t, ops[0]), ops[1..]);
    }
  }

  lemma {:induction false} RunAgreesIffClean(t: TenantState, ops: seq<TenantOp>, s: GlAccount, g: GlAccount)
    requires Sound(t) && Agrees(t, s, g) && !DebitNormal(s.kind) && DebitNormal(g.kind)
    requires g in TenantRun(t, ops).fees.books.gl.chart && forall i :: 0 <= i < |ops| ==> Routed(ops[i])
    ensures (forall x :: x in TenantTrace(t, ops) ==> Agrees(x, s, g)) <==> CleanCalls(t, ops, s, g)
    decreases |ops|
  {
    if ops != [] {
      var t' := TenantStep(t, ops[0]);
      TenantChartGrows(t, ops);
      NamedInPrefix(t.fees.books.gl.chart, TenantRun(t, ops).fees.books.gl.chart, g);
      CallAgreesIff(t, ops[0], s, g);
      StepSound(t, ops[0]);
      assert TenantTrace(t, ops) == [t] + TenantTrace(t', ops[1..]) && t' in TenantTrace(t', ops[1..]);
      if Agrees(t', s, g) { RunAgreesIffClean(t', ops[1..], s, g); }
    }
  }

  /**
   * Every interleaving of all the modules' operations, under any keys and on any accounts: after every call
   * the savings liability agrees with the members' balances, the receivable with the outstanding fees, paid
   * fees are covered and withdrawals match their requests one to one, if and only if every call is clean.
   */
  lemma TenantAgreesIff(ops: seq<TenantOp>, s: GlAccount, g: GlAccount)
    requires !DebitNormal(s.kind) && DebitNormal(g.kind)
    requires g in TenantRun(NEW_TENANT, ops).fees.books.gl.chart && forall i :: 0 <= i < |ops| ==> Routed(ops[i])
    ensures (forall t :: t in TenantTrace(NEW_TENANT, ops) ==> Agrees(t, s, g)) <==> CleanCalls(NEW_TENANT, ops, s, g)
  {
    RunAgreesIffClean(NEW_TENANT, ops, s, g);
  }
}
