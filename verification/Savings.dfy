/** Member savings: a sub-ledger of transactions kept in step with the general ledger. */
module Savings {
  import opened Sums
  import opened Text
  import opened Ledger

  datatype TxnKind = Deposit | Withdrawal | SystemDebit | SystemCredit | ExternalCredit | ExternalDebit

  /** Product terms are snapshotted when the account is opened. */
  datatype SavingsAccount = SavingsAccount(id: Uuid, member: Uuid, product: Uuid, liability: Uuid, minimum: int)

  /** `month` numbers the calendar month of posted_at. */
  datatype Txn = Txn(account: Uuid, kind: TxnKind, amount: int, key: string, month: int)

  datatype Books = Books(gl: Gl, accounts: seq<SavingsAccount>, txns: seq<Txn>)

  const NO_BOOKS: Books := Books(EMPTY, [], [])

  /** The system actor. */
  const NIL: Uuid := "00000000-0000-0000-0000-000000000000"

  predicate Credits(kind: TxnKind) { kind == Deposit || kind == SystemCredit }
  predicate Debits(kind: TxnKind) { kind == Withdrawal || kind == SystemDebit }
  predicate Posting(kind: TxnKind) { Credits(kind) || Debits(kind) }

  // ── Keys ────────────────────────────────────────────────────────────────────

  function Prefix(kind: TxnKind): string
    requires Posting(kind)
  {
    match kind
    case Deposit => "savings-deposit-"
    case Withdrawal => "savings-withdraw-"
    case SystemDebit => "sys-debit-"
    case SystemCredit => "sys-credit-"
  }

  /** Key of the journal entry behind a savings row. */
  function GlKey(kind: TxnKind, key: string): string
    requires Posting(kind)
  {
    Prefix(kind) + key
  }

  predicate SavingsKey(key: string) {
    || StartsWith(key, "savings-deposit-") || StartsWith(key, "savings-withdraw-")
    || StartsWith(key, "sys-debit-") || StartsWith(key, "sys-credit-")
  }

  lemma GlKeyReserved(kind: TxnKind, key: string)
    requires Posting(kind)
    ensures SavingsKey(GlKey(kind, key))
  {
    PrefixFacts(Prefix(kind), key);
  }

  lemma PrefixesDiffer(p: TxnKind, k: string, q: TxnKind, m: string)
    requires Posting(p) && Posting(q) && p != q
    ensures GlKey(p, k) != GlKey(q, m)
  {
    var s, t := GlKey(p, k), GlKey(q, m);
    // position 1 tells the two families apart, 4 the system keys, 8 the member keys
    assert s[1] == Prefix(p)[1] && t[1] == Prefix(q)[1];
    assert s[4] == Prefix(p)[4] && t[4] == Prefix(q)[4];
    assert s[8] == Prefix(p)[8] && t[8] == Prefix(q)[8];
  }

  /** No two operations and no two client keys share a journal key. */
  lemma GlKeyInjective(p: TxnKind, k: string, q: TxnKind, m: string)
    requires Posting(p) && Posting(q) && GlKey(p, k) == GlKey(q, m)
    ensures p == q && k == m
  {
    if p != q {
      PrefixesDiffer(p, k, q, m);
    } else {
      PrefixFacts(Prefix(p), k);
      PrefixFacts(Prefix(p), m);
    }
  }

  // ── Balances ────────────────────────────────────────────────────────────────

  function InOn(a: Uuid): Txn -> int { (t: Txn) => if t.account == a && Credits(t.kind) then t.amount else 0 }
  function OutOn(a: Uuid): Txn -> int { (t: Txn) => if t.account == a && Debits(t.kind) then t.amount else 0 }

  /** `get_balance`: credits minus debits; external rows do not count. */
  function Balance(txns: seq<Txn>, a: Uuid): int { SumBy(txns, InOn(a)) - SumBy(txns, OutOn(a)) }

  function SignedOf(t: Txn): int { if Credits(t.kind) then t.amount else if Debits(t.kind) then -t.amount else 0 }

  function Signed(): Txn -> int { (t: Txn) => SignedOf(t) }

  /** `total_balance_all_accounts`, one aggregate over all rows. */
  function TotalBalance(txns: seq<Txn>): int { SumBy(txns, Signed()) }

  function BalanceUnder(txns: seq<Txn>, liability: Uuid): SavingsAccount -> int {
    (a: SavingsAccount) => if a.liability == liability then Balance(txns, a.id) else 0
  }

  /** Sum of the balances of the accounts that point at one liability account. */
  function MemberFunds(b: Books, liability: Uuid): int { SumBy(b.accounts, BalanceUnder(b.txns, liability)) }

  /** How far the general ledger is ahead of the savings rows on one account. */
  function Gap(b: Books, liability: Uuid): int { Net(b.gl.entries, liability) - MemberFunds(b, liability) }

  // ── Operations ──────────────────────────────────────────────────────────────

  function FindAccount(accounts: seq<SavingsAccount>, id: Uuid): (r: Option<SavingsAccount>)
    ensures r.Some? ==> r.value in accounts && r.value.id == id
    ensures r.None? ==> forall a :: a in accounts ==> a.id != id
  {
    if accounts == [] then None
    else if accounts[0].id == id then Some(accounts[0])
    else FindAccount(accounts[1..], id)
  }

  predicate HasTxn(txns: seq<Txn>, key: string) { exists i :: 0 <= i < |txns| && txns[i].key == key }

  /** The row a service call finds under its own account and key. */
  function FindTxn(txns: seq<Txn>, account: Uuid, key: string): (r: Option<Txn>)
    ensures r.Some? ==> r.value in txns && r.value.key == key && r.value.account == account
    ensures r.None? ==> forall t :: t in txns ==> t.key != key || t.account != account
  {
    if txns == [] then None
    else if txns[0].key == key && txns[0].account == account then Some(txns[0])
    else FindTxn(txns[1..], account, key)
  }

  function Legs(kind: TxnKind, liability: Uuid, contra: Uuid, amount: int): seq<Line> {
    if Credits(kind) then [Line(contra, amount, 0), Line(liability, 0, amount)]
    else [Line(liability, amount, 0), Line(contra, 0, amount)]
  }

  /** Posts the entry and inserts the row, in one transaction. */
  function Record(b: Books, kind: TxnKind, account: Uuid, liability: Uuid, contra: Uuid,
                  amount: int, key: string, month: int): Outcome<Books>
    requires Posting(kind)
  {
    var gl :- Post(b.gl, GlKey(kind, key), Legs(kind, liability, contra, amount));
    if FindAccount(b.accounts, account).None? || HasTxn(b.txns, key) || !(0 < amount < NUMERIC_LIMIT) then
      Err(IntegrityError)
    else Ok(Books(gl, b.accounts, b.txns + [Txn(account, kind, amount, key, month)]))
  }

  /** `deposit` and `system_credit` share this shape. */
  function Credit(b: Books, kind: TxnKind, account: Uuid, amount: int, contra: Uuid, key: string, month: int): Outcome<Books>
    requires Credits(kind)
  {
    if FindTxn(b.txns, account, key).Some? then Ok(b)
    else match FindAccount(b.accounts, account)
      case None => Err(ValueError)
      case Some(a) => Record(b, kind, account, a.liability, contra, amount, key, month)
  }

  datatype DebitStatus = Full | Partial | Zero
  datatype DebitResult = DebitResult(debited: int, requested: int, shortfall: int, status: DebitStatus)

  const ALLOW_NEGATIVE_MODULES: set<string> := {}

  function Debit(b: Books, account: Uuid, amount: int, contra: Uuid, key: string, mode: string,
                 source: string, month: int): Outcome<(Books, DebitResult)>
  {
    if mode == "allow_negative" && source !in ALLOW_NEGATIVE_MODULES then Err(ValueError)
    else match FindTxn(b.txns, account, key)
      case Some(t) => Ok((b, DebitResult(t.amount, t.amount, 0, Full)))
      case None =>
        match FindAccount(b.accounts, account)
        case None => Err(ValueError)
        case Some(a) =>
          var balance := Balance(b.txns, account);
          if mode == "fail" && balance < amount then Err(ValueError)
          else if mode == "partial" && balance <= 0 then Ok((b, DebitResult(0, amount, amount, Zero)))
          else
            var actual := if mode == "partial" then Min(balance, amount) else amount;
            var b' :- Record(b, SystemDebit, account, a.liability, contra, actual, key, month);
            Ok((b', DebitResult(actual, amount, amount - actual, if amount == actual then Full else Partial)))
  }

  /** `execute_withdraw`: the guard looks at the key alone, and the balance is not read again. */
  function Withdraw(b: Books, account: Uuid, amount: int, payment: Uuid, liability: Uuid, key: string, month: int): Outcome<Books> {
    if HasTxn(b.txns, key) then Ok(b)
    else Record(b, Withdrawal, account, liability, payment, amount, key, month)
  }

  function OpenAccount(b: Books, a: SavingsAccount): Outcome<Books> {
    if exists i :: 0 <= i < |b.accounts| && b.accounts[i].member == a.member && b.accounts[i].product == a.product then Err(ValueError)
    else if FindAccount(b.accounts, a.id).Some? then Err(IntegrityError)
    else Ok(b.(accounts := b.accounts + [a]))
  }

  // ── Invariant ───────────────────────────────────────────────────────────────

  predicate DistinctOwners(accounts: seq<SavingsAccount>) {
    forall i, j :: 0 <= i < j < |accounts| ==> accounts[i].id != accounts[j].id
  }

  predicate DistinctTxnKeys(txns: seq<Txn>) {
    forall i, j :: 0 <= i < j < |txns| ==> txns[i].key != txns[j].key
  }

  predicate GoodTxn(accounts: seq<SavingsAccount>, t: Txn) {
    t.amount > 0 && FindAccount(accounts, t.account).Some?
  }

  /** A journal entry under a savings key always has its savings row. */
  ghost predicate Covered(entries: seq<Entry>, txns: seq<Txn>) {
    forall kind, key :: Posting(kind) && HasEntry(entries, GlKey(kind, key)) ==> HasTxn(txns, key)
  }

  ghost predicate BooksInv(b: Books) {
    && LedgerInv(b.gl)
    && DistinctOwners(b.accounts) && DistinctTxnKeys(b.txns)
    && (forall t :: t in b.txns ==> GoodTxn(b.accounts, t))
    && Covered(b.gl.entries, b.txns)
  }

  lemma FindIsUnique(accounts: seq<SavingsAccount>, a: SavingsAccount)
    requires DistinctOwners(accounts) && a in accounts
    ensures FindAccount(accounts, a.id) == Some(a)
  {
    var r := FindAccount(accounts, a.id);
    var i :| 0 <= i < |accounts| && accounts[i] == a;
    var j :| 0 <= j < |accounts| && accounts[j] == r.value;
    assert i == j;
  }

  lemma HasEntryAppend(entries: seq<Entry>, e: Entry, key: string)
    ensures HasEntry(entries + [e], key) <==> HasEntry(entries, key) || e.key == key
  {
    var more := entries + [e];
    assert more[|entries|] == e;
    if HasEntry(entries, key) {
      var i :| 0 <= i < |entries| && entries[i].key == key;
      assert more[i].key == key;
    }
  }

  lemma HasTxnAppend(txns: seq<Txn>, t: Txn, key: string)
    ensures HasTxn(txns + [t], key) <==> HasTxn(txns, key) || t.key == key
  {
    var more := txns + [t];
    assert more[|txns|] == t;
    if HasTxn(txns, key) {
      var i :| 0 <= i < |txns| && txns[i].key == key;
      assert more[i].key == key;
    }
  }

  /** The row is always new; the entry is new unless its key was taken. */
  lemma RecordShape(b: Books, kind: TxnKind, account: Uuid, liability: Uuid, contra: Uuid, amount: int, key: string, month: int)
    requires Posting(kind) && Record(b, kind, account, liability, contra, amount, key, month).Ok?
    ensures var b' := Record(b, kind, account, liability, contra, amount, key, month).value;
      && b'.txns == b.txns + [Txn(account, kind, amount, key, month)] && b'.accounts == b.accounts
      && b'.gl.chart == b.gl.chart
      && b'.gl.entries == b.gl.entries + (if HasEntry(b.gl.entries, GlKey(kind, key)) then []
                                          else [Entry(GlKey(kind, key), Legs(kind, liability, contra, amount))])
      && amount > 0 && FindAccount(b.accounts, account).Some? && !HasTxn(b.txns, key)
  {
    assert b.gl.entries + [] == b.gl.entries;
  }

  /** In covered books a fresh savings row always comes with a fresh journal entry. */
  lemma RecordPosts(b: Books, kind: TxnKind, account: Uuid, liability: Uuid, contra: Uuid, amount: int, key: string, month: int)
    requires BooksInv(b) && Posting(kind) && Record(b, kind, account, liability, contra, amount, key, month).Ok?
    ensures !HasEntry(b.gl.entries, GlKey(kind, key))
  {
    RecordShape(b, kind, account, liability, contra, amount, key, month);
  }

  lemma RecordKeeps(b: Books, kind: TxnKind, account: Uuid, liability: Uuid, contra: Uuid, amount: int, key: string, month: int)
    requires BooksInv(b) && Posting(kind)
    requires Record(b, kind, account, liability, contra, amount, key, month).Ok?
    ensures BooksInv(Record(b, kind, account, liability, contra, amount, key, month).value)
  {
    RecordShape(b, kind, account, liability, contra, amount, key, month);
    RecordPosts(b, kind, account, liability, contra, amount, key, month);
    var b' := Record(b, kind, account, liability, contra, amount, key, month).value;
    var e := Entry(GlKey(kind, key), Legs(kind, liability, contra, amount));
    PostKeeps(b.gl, e.key, e.lines);
    forall k, m | Posting(k) && HasEntry(b'.gl.entries, GlKey(k, m)) ensures HasTxn(b'.txns, m) {
      HasEntryAppend(b.gl.entries, e, GlKey(k, m));
      HasTxnAppend(b.txns, Txn(account, kind, amount, key, month), m);
      if !HasEntry(b.gl.entries, GlKey(k, m)) {
        GlKeyInjective(k, m, kind, key);
      }
    }
    forall i, j | 0 <= i < j < |b'.txns| ensures b'.txns[i].key != b'.txns[j].key {
      if j == |b.txns| { assert b.txns[i].key != key; }
    }
  }

  // ── Sub-ledger arithmetic ───────────────────────────────────────────────────

  function OneOn(t: Txn, liability: Uuid): SavingsAccount -> int {
    (a: SavingsAccount) => if a.liability == liability && a.id == t.account then SignedOf(t) else 0
  }

  lemma BalanceAppend(txns: seq<Txn>, t: Txn, a: Uuid)
    ensures Balance(txns + [t], a) == Balance(txns, a) + (if t.account == a then SignedOf(t) else 0)
  {
    SumAppend(txns, t, InOn(a));
    SumAppend(txns, t, OutOn(a));
  }

  lemma FundsAppend(accounts: seq<SavingsAccount>, txns: seq<Txn>, t: Txn, liability: Uuid)
    requires DistinctOwners(accounts) && FindAccount(accounts, t.account).Some?
    ensures SumBy(accounts, BalanceUnder(txns + [t], liability))
         == SumBy(accounts, BalanceUnder(txns, liability))
            + (if FindAccount(accounts, t.account).value.liability == liability then SignedOf(t) else 0)
  {
    forall a | a in accounts
      ensures BalanceUnder(txns + [t], liability)(a) == BalanceUnder(txns, liability)(a) + OneOn(t, liability)(a)
    {
      BalanceAppend(txns, t, a.id);
    }
    SumAdd(accounts, BalanceUnder(txns, liability), OneOn(t, liability), BalanceUnder(txns + [t], liability));
    var i :| 0 <= i < |accounts| && accounts[i] == FindAccount(accounts, t.account).value;
    forall j | 0 <= j < |accounts| && j != i ensures OneOn(t, liability)(accounts[j]) == 0 {
      assert accounts[i].id != accounts[j].id by {
        if j < i { assert accounts[j].id != accounts[i].id; }
      }
    }
    SumSingle(accounts, i, OneOn(t, liability));
  }

  lemma NoRowsNoBalance(txns: seq<Txn>, a: Uuid)
    requires forall t :: t in txns ==> t.account != a
    ensures Balance(txns, a) == 0
  {
    SumZero(txns, InOn(a));
    SumZero(txns, OutOn(a));
  }

  function On(amount: int, account: Uuid, target: Uuid): int { if account == target then amount else 0 }

  lemma LegsNet(kind: TxnKind, liability: Uuid, contra: Uuid, amount: int, target: Uuid)
    requires Posting(kind)
    ensures var signed := if Credits(kind) then amount else -amount;
      LinesNet(Legs(kind, liability, contra, amount), target) == On(signed, liability, target) - On(signed, contra, target)
  {
    var legs := Legs(kind, liability, contra, amount);
    TwoLines(legs[0], legs[1], target);
    assert legs == [legs[0], legs[1]];
  }

  /** What one recorded operation posts to `target`: nothing when its journal key was taken. */
  lemma RecordNet(b: Books, kind: TxnKind, account: Uuid, liability: Uuid, contra: Uuid, amount: int, key: string, month: int, target: Uuid)
    requires Posting(kind) && Record(b, kind, account, liability, contra, amount, key, month).Ok?
    ensures var b' := Record(b, kind, account, liability, contra, amount, key, month).value;
      var signed := if Credits(kind) then amount else -amount;
      Net(b'.gl.entries, target) == Net(b.gl.entries, target)
        + (if HasEntry(b.gl.entries, GlKey(kind, key)) then 0 else On(signed, liability, target) - On(signed, contra, target))
  {
    RecordShape(b, kind, account, liability, contra, amount, key, month);
    if !HasEntry(b.gl.entries, GlKey(kind, key)) {
      NetAppend(b.gl.entries, Entry(GlKey(kind, key), Legs(kind, liability, contra, amount)), target);
      LegsNet(kind, liability, contra, amount, target);
    } else {
      assert b.gl.entries + [] == b.gl.entries;
    }
  }

  /** What it moves on the member's side. */
  lemma RecordFunds(b: Books, kind: TxnKind, account: Uuid, liability: Uuid, contra: Uuid, amount: int, key: string, month: int, target: Uuid)
    requires DistinctOwners(b.accounts) && Posting(kind)
    requires Record(b, kind, account, liability, contra, amount, key, month).Ok?
    ensures FindAccount(b.accounts, account).Some?
    ensures var signed := if Credits(kind) then amount else -amount;
      MemberFunds(Record(b, kind, account, liability, contra, amount, key, month).value, target)
      == MemberFunds(b, target) + On(signed, FindAccount(b.accounts, account).value.liability, target)
  {
    RecordShape(b, kind, account, liability, contra, amount, key, month);
    FundsAppend(b.accounts, b.txns, Txn(account, kind, amount, key, month), target);
  }

  // ── Book runs ───────────────────────────────────────────────────────────────

  /** Everything that writes the savings rows or the ledger. `Journal` is any other module posting. */
  datatype BookOp =
    | Opens(owner: SavingsAccount)
    | Charts(gl: GlAccount)
    | Deposits(account: Uuid, amount: int, contra: Uuid, key: string, month: int)
    | SystemCredits(account: Uuid, amount: int, contra: Uuid, key: string, month: int)
    | SystemDebits(account: Uuid, amount: int, contra: Uuid, key: string, mode: string, source: string, month: int)
    | Withdraws(account: Uuid, amount: int, contra: Uuid, liability: Uuid, key: string, month: int)
    | Journal(key: string, lines: seq<Line>)

  function Lift(b: Books, r: Outcome<Gl>): Outcome<Books> {
    if r.Ok? then Ok(b.(gl := r.value)) else Err(r.error)
  }

  function Attempt(b: Books, op: BookOp): Outcome<Books> {
    match op
    case Opens(owner) => OpenAccount(b, owner)
    case Charts(g) => Lift(b, CreateAccount(b.gl, g))
    case Deposits(account, amount, contra, key, month) => Credit(b, Deposit, account, amount, contra, key, month)
    case SystemCredits(account, amount, contra, key, month) => Credit(b, SystemCredit, account, amount, contra, key, month)
    case SystemDebits(account, amount, contra, key, mode, source, month) =>
      var r :- Debit(b, account, amount, contra, key, mode, source, month); Ok(r.0)
    case Withdraws(account, amount, contra, liability, key, month) => Withdraw(b, account, amount, contra, liability, key, month)
    case Journal(key, lines) => Lift(b, Post(b.gl, key, lines))
  }

  /** A failed call rolls its transaction back. */
  function BookStep(b: Books, op: BookOp): Books {
    var r := Attempt(b, op);
    if r.Ok? then r.value else b
  }

  function BookRun(b: Books, ops: seq<BookOp>): Books
    decreases |ops|
  {
    if ops == [] then b else BookRun(BookStep(b, ops[0]), ops[1..])
  }

  /** Every state a run passes through, from the first to the one it ends in. */
  function BookTrace(b: Books, ops: seq<BookOp>): (trace: seq<Books>)
    ensures |trace| == |ops| + 1 && trace[0] == b && trace[|ops|] == BookRun(b, ops)
    decreases |ops|
  {
    if ops == [] then [b] else [b] + BookTrace(BookStep(b, ops[0]), ops[1..])
  }

  /** Other modules stay out of the savings key space. */
  predicate KeysApart(op: BookOp) { op.Journal? ==> !SavingsKey(op.key) }

  predicate AllKeysApart(ops: seq<BookOp>) { forall i :: 0 <= i < |ops| ==> KeysApart(ops[i]) }

  predicate WritesTxn(op: BookOp) { op.Deposits? || op.SystemCredits? || op.SystemDebits? || op.Withdraws? }

  function KindOf(op: BookOp): (kind: TxnKind)
    requires WritesTxn(op)
    ensures Posting(kind)
  {
    if op.Deposits? then Deposit else if op.SystemCredits? then SystemCredit else if op.SystemDebits? then SystemDebit else Withdrawal
  }

  /** The journal key an operation posts under. */
  function JournalKey(op: BookOp): string
    requires WritesTxn(op) || op.Journal?
  {
    if op.Journal? then op.key else GlKey(KindOf(op), op.key)
  }

  /** The liability account an operation's entry names: a withdrawal carries its own, the rest look it up. */
  function LegOf(b: Books, op: BookOp): Uuid
    requires WritesTxn(op)
  {
    if op.Withdraws? then op.liability
    else
      var owner := FindAccount(b.accounts, op.account);
      if owner.Some? then owner.value.liability else NIL
  }

  /** What a committed operation moves. */
  function AmountOf(b: Books, op: BookOp): int
    requires WritesTxn(op)
  {
    if op.SystemDebits? && op.mode == "partial" then Min(Balance(b.txns, op.account), op.amount) else op.amount
  }

  function RecordOf(b: Books, op: BookOp): Outcome<Books>
    requires WritesTxn(op)
  {
    Record(b, KindOf(op), op.account, LegOf(b, op), op.contra, AmountOf(b, op), op.key, op.month)
  }

  lemma CreditRecords(b: Books, kind: TxnKind, account: Uuid, amount: int, contra: Uuid, key: string, month: int)
    requires Credits(kind) && Credit(b, kind, account, amount, contra, key, month).Ok?
    requires Credit(b, kind, account, amount, contra, key, month).value != b
    ensures FindAccount(b.accounts, account).Some?
    ensures Record(b, kind, account, FindAccount(b.accounts, account).value.liability, contra, amount, key, month)
         == Credit(b, kind, account, amount, contra, key, month)
  {
  }

  lemma DebitRecords(b: Books, account: Uuid, amount: int, contra: Uuid, key: string, mode: string, source: string, month: int)
    requires Debit(b, account, amount, contra, key, mode, source, month).Ok?
    requires Debit(b, account, amount, contra, key, mode, source, month).value.0 != b
    ensures FindAccount(b.accounts, account).Some?
    ensures var actual := if mode == "partial" then Min(Balance(b.txns, account), amount) else amount;
      Record(b, SystemDebit, account, FindAccount(b.accounts, account).value.liability, contra, actual, key, month)
      == Ok(Debit(b, account, amount, contra, key, mode, source, month).value.0)
  {
  }

  /** A committed operation on a member's account is one recorded row. */
  lemma Recorded(b: Books, op: BookOp)
    requires WritesTxn(op) && BookStep(b, op) != b
    ensures RecordOf(b, op) == Ok(BookStep(b, op)) && FindAccount(b.accounts, op.account).Some?
  {
    match op
    case Deposits(account, amount, contra, key, month) => CreditRecords(b, Deposit, account, amount, contra, key, month);
    case SystemCredits(account, amount, contra, key, month) => CreditRecords(b, SystemCredit, account, amount, contra, key, month);
    case SystemDebits(account, amount, contra, key, mode, source, month) => DebitRecords(b, account, amount, contra, key, mode, source, month);
    case Withdraws(account, amount, contra, liability, key, month) =>
      RecordShape(b, Withdrawal, account, liability, contra, amount, key, month);
  }

  /** An operation that writes no savings row leaves them alone, and changes one table at most. */
  lemma OtherStep(b: Books, op: BookOp)
    requires !WritesTxn(op)
    ensures var b' := BookStep(b, op);
      && b'.txns == b.txns
      && b'.gl.entries == b.gl.entries + (if op.Journal? && b' != b then [Entry(op.key, op.lines)] else [])
      && b'.gl.chart == b.gl.chart + (if op.Charts? && b' != b then [op.gl] else [])
      && b'.accounts == b.accounts + (if op.Opens? && b' != b then [op.owner] else [])
  {
    assert b.gl.entries + [] == b.gl.entries && b.gl.chart + [] == b.gl.chart && b.accounts + [] == b.accounts;
  }

  predicate AddsRow<T(==)>(before: seq<T>, after: seq<T>) { |after| == |before| + 1 && after == before + [after[|before|]] }

  /** A step appends at most one row to each table, under the operation's own keys. */
  lemma BookStepShape(b: Books, op: BookOp)
    ensures var b' := BookStep(b, op);
      && (b'.txns == b.txns || (WritesTxn(op) && AddsRow(b.txns, b'.txns) && b'.txns[|b.txns|].key == op.key))
      && (b'.gl.entries == b.gl.entries
          || ((WritesTxn(op) || op.Journal?) && AddsRow(b.gl.entries, b'.gl.entries) && b'.gl.entries[|b.gl.entries|].key == JournalKey(op)))
      && (b'.gl.chart == b.gl.chart || (op.Charts? && b'.gl.chart == b.gl.chart + [op.gl]))
      && (b'.accounts == b.accounts || (op.Opens? && b'.accounts == b.accounts + [op.owner]))
  {
    if !WritesTxn(op) {
      OtherStep(b, op);
    } else if BookStep(b, op) != b {
      Recorded(b, op);
      RecordShape(b, KindOf(op), op.account, LegOf(b, op), op.contra, AmountOf(b, op), op.key, op.month);
    }
  }

  /** The new rows themselves; a new entry under a savings operation comes with its new savings row. */
  lemma MoveRows(b: Books, op: BookOp)
    ensures var b' := BookStep(b, op);
      && (b'.txns == b.txns || (WritesTxn(op) && AddsRow(b.txns, b'.txns)
                                && b'.txns[|b.txns|] == Txn(op.account, KindOf(op), AmountOf(b, op), op.key, op.month)))
      && (b'.gl.entries == b.gl.entries || ((WritesTxn(op) || op.Journal?) && AddsRow(b.gl.entries, b'.gl.entries)
                                && b'.gl.entries[|b.gl.entries|].key == JournalKey(op)
                                && (op.Journal? ==> b'.gl.entries[|b.gl.entries|].lines == op.lines)
                                && (WritesTxn(op) ==> b'.txns != b.txns)
                                && (WritesTxn(op) ==>
                                      b'.gl.entries[|b.gl.entries|].lines == Legs(KindOf(op), LegOf(b, op), op.contra, AmountOf(b, op)))))
  {
    if !WritesTxn(op) {
      OtherStep(b, op);
    } else if BookStep(b, op) != b {
      Recorded(b, op);
      RecordShape(b, KindOf(op), op.account, LegOf(b, op), op.contra, AmountOf(b, op), op.key, op.month);
    }
  }

  /** No step reuses a savings key or a journal key. */
  lemma StepKeysDistinct(b: Books, op: BookOp)
    ensures DistinctTxnKeys(b.txns) ==> DistinctTxnKeys(BookStep(b, op).txns)
    ensures DistinctKeys(b.gl.entries) ==> DistinctKeys(BookStep(b, op).gl.entries)
  {
    if BookStep(b, op) != b {
      if WritesTxn(op) {
        Recorded(b, op);
        RecordShape(b, KindOf(op), op.account, LegOf(b, op), op.contra, AmountOf(b, op), op.key, op.month);
      } else {
        OtherStep(b, op);
        assert b.gl.entries + [] == b.gl.entries;
      }
    }
  }

  // ── What every run of the books keeps ───────────────────────────────────────

  /** Account ids are unique and every row belongs to one of them: true of every run, whoever posts what. */
  ghost predicate Owned(b: Books) { DistinctOwners(b.accounts) && forall t :: t in b.txns ==> GoodTxn(b.accounts, t) }

  lemma OpenOwned(b: Books, a: SavingsAccount, target: Uuid)
    requires Owned(b) && OpenAccount(b, a).Ok?
    ensures Owned(OpenAccount(b, a).value) && MemberFunds(OpenAccount(b, a).value, target) == MemberFunds(b, target)
    ensures Balance(b.txns, a.id) == 0
  {
    var b' := OpenAccount(b, a).value;
    forall t | t in b.txns ensures GoodTxn(b'.accounts, t) && t.account != a.id {
      var owner := FindAccount(b.accounts, t.account).value;
      assert owner in b'.accounts;
    }
    NoRowsNoBalance(b.txns, a.id);
    SumAppend(b.accounts, a, BalanceUnder(b.txns, target));
    forall i, j | 0 <= i < j < |b'.accounts| ensures b'.accounts[i].id != b'.accounts[j].id {
      if j == |b.accounts| { assert b.accounts[i] in b.accounts; }
    }
  }

  lemma StepOwned(b: Books, op: BookOp)
    requires Owned(b)
    ensures Owned(BookStep(b, op))
  {
    if WritesTxn(op) && BookStep(b, op) != b {
      Recorded(b, op);
      RecordShape(b, KindOf(op), op.account, LegOf(b, op), op.contra, AmountOf(b, op), op.key, op.month);
    } else if op.Opens? {
      if OpenAccount(b, op.owner).Ok? { OpenOwned(b, op.owner, NIL); }
    } else {
      OtherStepOwned(b, op);
    }
  }

  lemma OtherStepOwned(b: Books, op: BookOp)
    requires !op.Opens? && (WritesTxn(op) ==> BookStep(b, op) == b)
    ensures BookStep(b, op).accounts == b.accounts && BookStep(b, op).txns == b.txns
  {
    if !WritesTxn(op) { OtherStep(b, op); }
  }

  lemma JournalKeeps(b: Books, key: string, lines: seq<Line>)
    requires BooksInv(b) && !SavingsKey(key) && Post(b.gl, key, lines).Ok?
    ensures BooksInv(b.(gl := Post(b.gl, key, lines).value))
  {
    PostKeeps(b.gl, key, lines);
    if !HasEntry(b.gl.entries, key) {
      var e := Entry(key, lines);
      forall k, m | Posting(k) && HasEntry(b.gl.entries + [e], GlKey(k, m)) ensures HasTxn(b.txns, m) {
        HasEntryAppend(b.gl.entries, e, GlKey(k, m));
        GlKeyReserved(k, m);
      }
    } else {
      assert b.(gl := Post(b.gl, key, lines).value) == b;
    }
  }

  /** With key spaces kept apart, every savings entry keeps having its row. */
  lemma StepKeeps(b: Books, op: BookOp)
    requires BooksInv(b) && KeysApart(op)
    ensures BooksInv(BookStep(b, op))
  {
    if BookStep(b, op) != b {
      if WritesTxn(op) {
        Recorded(b, op);
        RecordKeeps(b, KindOf(op), op.account, LegOf(b, op), op.contra, AmountOf(b, op), op.key, op.month);
      } else if op.Journal? {
        JournalKeeps(b, op.key, op.lines);
      } else if op.Charts? {
        CreateAccountKeeps(b.gl, op.gl);
      } else {
        StepOwned(b, op);
      }
    }
  }

  // ── Agreement of the two books ──────────────────────────────────────────────

  function SignedAmount(b: Books, op: BookOp): int
    requires WritesTxn(op)
  {
    if Credits(KindOf(op)) then AmountOf(b, op) else -AmountOf(b, op)
  }

  /** What a step credits to `target` in the ledger, net: nothing under a journal key already taken. */
  function LedgerMove(b: Books, op: BookOp, target: Uuid): int {
    if BookStep(b, op) == b then 0
    else if op.Journal? then LinesNet(op.lines, target)
    else if !WritesTxn(op) || HasEntry(b.gl.entries, JournalKey(op)) then 0
    else On(SignedAmount(b, op), LegOf(b, op), target) - On(SignedAmount(b, op), op.contra, target)
  }

  /** What a step adds to the members whose accounts point at `target`. */
  function MemberMove(b: Books, op: BookOp, target: Uuid): int {
    if BookStep(b, op) == b || !WritesTxn(op) then 0
    else
      var owner := FindAccount(b.accounts, op.account);
      if owner.Some? then On(SignedAmount(b, op), owner.value.liability, target) else 0
  }

  lemma StepNet(b: Books, op: BookOp, target: Uuid)
    ensures Net(BookStep(b, op).gl.entries, target) == Net(b.gl.entries, target) + LedgerMove(b, op, target)
  {
    if BookStep(b, op) != b {
      if WritesTxn(op) {
        Recorded(b, op);
        RecordNet(b, KindOf(op), op.account, LegOf(b, op), op.contra, AmountOf(b, op), op.key, op.month, target);
      } else {
        OtherStep(b, op);
        assert b.gl.entries + [] == b.gl.entries;
        if op.Journal? { NetAppend(b.gl.entries, Entry(op.key, op.lines), target); }
      }
    }
  }

  lemma StepFunds(b: Books, op: BookOp, target: Uuid)
    requires Owned(b)
    ensures MemberFunds(BookStep(b, op), target) == MemberFunds(b, target) + MemberMove(b, op, target)
  {
    if BookStep(b, op) != b {
      if WritesTxn(op) {
        Recorded(b, op);
        RecordFunds(b, KindOf(op), op.account, LegOf(b, op), op.contra, AmountOf(b, op), op.key, op.month, target);
      } else {
        OtherStep(b, op);
        assert b.accounts + [] == b.accounts;
        if op.Opens? { OpenOwned(b, op.owner, target); }
      }
    }
  }

  /** How far a step moves the ledger ahead of the members on `target`. */
  function Leak(b: Books, op: BookOp, target: Uuid): int { LedgerMove(b, op, target) - MemberMove(b, op, target) }

  /** One step, exactly, whoever uses whose keys: replays and aborts leave the gap alone, the rest adds its leak. */
  lemma StepGap(b: Books, op: BookOp, target: Uuid)
    requires Owned(b)
    ensures Gap(BookStep(b, op), target) == Gap(b, target) + Leak(b, op, target)
  {
    StepNet(b, op, target);
    StepFunds(b, op, target);
  }

  /** The guard a caller could check: a committed operation that meets it keeps `target` in agreement. */
  predicate Keeps(b: Books, op: BookOp, target: Uuid) {
    if op.Journal? then LinesNet(op.lines, target) == 0
    else if !WritesTxn(op) then true
    else
      var owner := FindAccount(b.accounts, op.account);
      var owned, leg := owner.Some? && owner.value.liability == target, LegOf(b, op) == target;
      if HasEntry(b.gl.entries, JournalKey(op)) then !owned
      else if op.contra == target then leg && !owned
      else leg <==> owned
  }

  /** When three movements of one amount cancel on `target`. */
  lemma LegsCancel(signed: int, leg: Uuid, contra: Uuid, owner: Uuid, target: Uuid)
    requires signed != 0
    ensures On(signed, leg, target) - On(signed, contra, target) - On(signed, owner, target) == 0
       <==> if contra == target then leg == target && owner != target else (leg == target <==> owner == target)
  {
  }

  lemma LeakIsZeroIff(b: Books, op: BookOp, target: Uuid)
    requires BookStep(b, op) != b
    ensures Leak(b, op, target) == 0 <==> Keeps(b, op, target)
  {
    if WritesTxn(op) {
      Recorded(b, op);
      RecordShape(b, KindOf(op), op.account, LegOf(b, op), op.contra, AmountOf(b, op), op.key, op.month);
      LegsCancel(SignedAmount(b, op), LegOf(b, op), op.contra, FindAccount(b.accounts, op.account).value.liability, target);
    }
  }

  lemma KeepsIsExact(b: Books, op: BookOp, target: Uuid)
    requires Owned(b) && BookStep(b, op) != b
    ensures Gap(BookStep(b, op), target) == Gap(b, target) <==> Keeps(b, op, target)
  {
    StepGap(b, op, target);
    LeakIsZeroIff(b, op, target);
  }

  /**
   * A committed deposit, credit, debit or withdrawal against a contra account of its own keeps the
   * member's liability in agreement if and only if nobody has posted under its journal key before.
   */
  lemma TakenKeyBreaksAgreement(b: Books, op: BookOp, owner: SavingsAccount)
    requires Owned(b) && WritesTxn(op) && BookStep(b, op) != b && FindAccount(b.accounts, op.account) == Some(owner)
    requires op.contra != owner.liability && (op.Withdraws? ==> op.liability == owner.liability)
    ensures Gap(BookStep(b, op), owner.liability) == Gap(b, owner.liability) <==> !HasEntry(b.gl.entries, JournalKey(op))
  {
    KeepsIsExact(b, op, owner.liability);
  }

  lemma DepositOnTakenKey(b: Books, a: SavingsAccount, amount: int, payment: Uuid, k: string, month: int)
    requires Owned(b) && FindAccount(b.accounts, a.id) == Some(a) && 0 < amount < NUMERIC_LIMIT
    requires HasEntry(b.gl.entries, GlKey(Deposit, k)) && !HasTxn(b.txns, k)
    ensures Gap(BookStep(b, Deposits(a.id, amount, payment, k, month)), a.liability) == Gap(b, a.liability) - amount
  {
    assert forall t :: t in b.txns ==> t.key != k;
    StepGap(b, Deposits(a.id, amount, payment, k, month), a.liability);
  }

  /** The case arises: one foreign entry under a savings key, and the next deposit with it moves the member alone. */
  lemma SquattedKeyBreaksAgreement(b: Books, k: string, lines: seq<Line>, a: SavingsAccount, amount: int, payment: Uuid, month: int)
    requires Owned(b) && a in b.accounts && 0 < amount < NUMERIC_LIMIT
    requires !HasEntry(b.gl.entries, GlKey(Deposit, k)) && !HasTxn(b.txns, k)
    requires Post(b.gl, GlKey(Deposit, k), lines).Ok?
    ensures var b1 := BookStep(b, Journal(GlKey(Deposit, k), lines));
      var b2 := BookStep(b1, Deposits(a.id, amount, payment, k, month));
      Gap(b2, a.liability) == Gap(b1, a.liability) - amount
  {
    HasEntryAppend(b.gl.entries, Entry(GlKey(Deposit, k), lines), GlKey(Deposit, k));
    FindIsUnique(b.accounts, a);
    DepositOnTakenKey(BookStep(b, Journal(GlKey(Deposit, k), lines)), a, amount, payment, k, month);
  }

  predicate KeepsRun(b: Books, ops: seq<BookOp>, target: Uuid)
    decreases |ops|
  {
    ops == [] || ((BookStep(b, ops[0]) == b || Keeps(b, ops[0], target)) && KeepsRun(BookStep(b, ops[0]), ops[1..], target))
  }

  lemma {:induction false} RunAgreesIff(b: Books, ops: seq<BookOp>, target: Uuid)
    requires Owned(b) && Gap(b, target) == 0
    ensures (forall x :: x in BookTrace(b, ops) ==> Gap(x, target) == 0) <==> KeepsRun(b, ops, target)
    decreases |ops|
  {
    if ops != [] {
      var b' := BookStep(b, ops[0]);
      StepOwned(b, ops[0]);
      if b' != b { KeepsIsExact(b, ops[0], target); }
      assert BookTrace(b, ops) == [b] + BookTrace(b', ops[1..]) && b' in BookTrace(b', ops[1..]);
      if Gap(b', target) == 0 { RunAgreesIff(b', ops[1..], target); }
    }
  }

  lemma EmptyBooks(target: Uuid)
    ensures BooksInv(NO_BOOKS) && Gap(NO_BOOKS, target) == 0
  {
  }

  /**
   * Every run of deposits, withdrawals, system debits and credits and anybody's postings under any
   * keys, with replays, reused keys and aborts: the ledger balance of a liability account is the sum of
   * `get_balance` over the accounts that point at it, after every call, if and only if each call that
   * commits meets its guard.
   */
  lemma SubLedgerAgrees(ops: seq<BookOp>, g: GlAccount)
    requires !DebitNormal(g.kind)
    ensures (forall b :: b in BookTrace(NO_BOOKS, ops) ==> AccountBalance(b.gl.entries, g.id, g.kind) == MemberFunds(b, g.id))
       <==> KeepsRun(NO_BOOKS, ops, g.id)
  {
    EmptyBooks(g.id);
    RunAgreesIff(NO_BOOKS, ops, g.id);
    assert forall b: Books :: Gap(b, g.id) == 0 <==> AccountBalance(b.gl.entries, g.id, g.kind) == MemberFunds(b, g.id);
  }

  // ── Runs with key spaces apart ──────────────────────────────────────────────

  /** The arguments that leave `target` in agreement when the operation commits with a key of its own. */
  predicate Neutral(b: Books, op: BookOp, target: Uuid) {
    match op
    case Opens(_) => true
    case Charts(_) => true
    case Deposits(_, _, contra, _, _) => contra != target
    case SystemCredits(_, _, contra, _, _) => contra != target
    case SystemDebits(_, _, contra, _, _, _, _) => contra != target
    case Withdraws(account, _, contra, liability, _, _) =>
      var owner := FindAccount(b.accounts, account);
      var owned := owner.Some? && owner.value.liability == target;
      if contra == target then liability == target && !owned else (liability == target <==> owned)
    case Journal(_, lines) => LinesNet(lines, target) == 0
  }

  /** In covered books no key is ever taken, so the guard is on the accounts alone. */
  lemma NeutralIsExact(b: Books, op: BookOp, target: Uuid)
    requires BooksInv(b) && BookStep(b, op) != b
    ensures Gap(BookStep(b, op), target) == Gap(b, target) <==> Neutral(b, op, target)
  {
    KeepsIsExact(b, op, target);
    if WritesTxn(op) {
      Recorded(b, op);
      RecordPosts(b, KindOf(op), op.account, LegOf(b, op), op.contra, AmountOf(b, op), op.key, op.month);
    }
  }

  predicate NeutralRun(b: Books, ops: seq<BookOp>, target: Uuid)
    decreases |ops|
  {
    ops == [] || (Neutral(b, ops[0], target) && NeutralRun(BookStep(b, ops[0]), ops[1..], target))
  }

  /** Callers that keep out of the savings keys and name neutral accounts always meet the guards. */
  lemma {:induction false} ApartRunsKeep(b: Books, ops: seq<BookOp>, target: Uuid)
    requires BooksInv(b) && AllKeysApart(ops) && NeutralRun(b, ops, target)
    ensures KeepsRun(b, ops, target) && BooksInv(BookRun(b, ops))
    decreases |ops|
  {
    if ops != [] {
      StepKeeps(b, ops[0]);
      if BookStep(b, ops[0]) != b {
        NeutralIsExact(b, ops[0], target);
        KeepsIsExact(b, ops[0], target);
      }
      ApartRunsKeep(BookStep(b, ops[0]), ops[1..], target);
    }
  }

  /** No leg of the operation names `target`. */
  predicate Avoids(b: Books, op: BookOp, target: Uuid) {
    match op
    case Opens(_) => true
    case Charts(_) => true
    case Withdraws(_, _, contra, liability, _, _) => contra != target && liability != target
    case Journal(_, lines) => LinesNet(lines, target) == 0
    case _ => op.contra != target && (var owner := FindAccount(b.accounts, op.account); owner.Some? ==> owner.value.liability != target)
  }

  lemma AvoidsKeepsNet(b: Books, op: BookOp, target: Uuid)
    requires Avoids(b, op, target)
    ensures LedgerMove(b, op, target) == 0 && Net(BookStep(b, op).gl.entries, target) == Net(b.gl.entries, target)
  {
    StepNet(b, op, target);
    if BookStep(b, op) != b && WritesTxn(op) { Recorded(b, op); }
  }

  // ── Who can be overdrawn ────────────────────────────────────────────────────

  ghost predicate NonNegative(b: Books) { forall a :: a in b.accounts ==> Balance(b.txns, a.id) >= 0 }

  predicate Documented(mode: string) { mode == "fail" || mode == "partial" || mode == "allow_negative" }

  /** Withdrawals, and debits in a mode nobody documented, are only safe while the balance covers them. */
  predicate Affordable(b: Books, op: BookOp) {
    op.Withdraws? || (op.SystemDebits? && !Documented(op.mode)) ==> Balance(b.txns, op.account) >= op.amount
  }

  lemma StepBalance(b: Books, op: BookOp, a: Uuid)
    requires WritesTxn(op) && BookStep(b, op) != b
    ensures Balance(BookStep(b, op).txns, a)
         == Balance(b.txns, a) + (if op.account != a then 0 else if Credits(KindOf(op)) then AmountOf(b, op) else -AmountOf(b, op))
    ensures AmountOf(b, op) > 0
  {
    Recorded(b, op);
    RecordShape(b, KindOf(op), op.account, LegOf(b, op), op.contra, AmountOf(b, op), op.key, op.month);
    BalanceAppend(b.txns, Txn(op.account, KindOf(op), AmountOf(b, op), op.key, op.month), a);
  }

  /** A documented debit that commits is covered by the balance. */
  lemma DocumentedDebit(b: Books, op: BookOp)
    requires op.SystemDebits? && Documented(op.mode) && BookStep(b, op) != b
    ensures AmountOf(b, op) <= Balance(b.txns, op.account)
  {
  }

  /** A committed step keeps every balance at or above zero exactly when it is affordable. */
  lemma StepNonNegative(b: Books, op: BookOp)
    requires Owned(b) && NonNegative(b) && BookStep(b, op) != b
    ensures NonNegative(BookStep(b, op)) <==> Affordable(b, op)
  {
    var b' := BookStep(b, op);
    if WritesTxn(op) {
      Recorded(b, op);
      if op.SystemDebits? && Documented(op.mode) { DocumentedDebit(b, op); }
      StepBalance(b, op, op.account);
      var owner := FindAccount(b.accounts, op.account).value;
      assert owner in b'.accounts;
      forall a | a in b'.accounts && a.id != op.account ensures Balance(b'.txns, a.id) >= 0 { StepBalance(b, op, a.id); }
      assert b'.accounts == b.accounts;
    } else {
      OtherStep(b, op);
      if op.Opens? { OpenOwned(b, op.owner, NIL); }
    }
  }

  predicate AffordableRun(b: Books, ops: seq<BookOp>)
    decreases |ops|
  {
    ops == [] || ((BookStep(b, ops[0]) == b || Affordable(b, ops[0])) && AffordableRun(BookStep(b, ops[0]), ops[1..]))
  }

  lemma {:induction false} RunNonNegativeIff(b: Books, ops: seq<BookOp>)
    requires Owned(b) && NonNegative(b)
    ensures (forall x :: x in BookTrace(b, ops) ==> NonNegative(x)) <==> AffordableRun(b, ops)
    decreases |ops|
  {
    if ops != [] {
      var b' := BookStep(b, ops[0]);
      StepOwned(b, ops[0]);
      if b' != b { StepNonNegative(b, ops[0]); }
      assert BookTrace(b, ops) == [b] + BookTrace(b', ops[1..]) && b' in BookTrace(b', ops[1..]);
      if NonNegative(b') { RunNonNegativeIff(b', ops[1..]); }
    }
  }

  /**
   * In every run no account is ever below zero, after any call, if and only if each committed withdrawal
   * and each committed debit in an undocumented mode finds a balance that covers it. Deposits, credits
   * and documented debits need no condition.
   */
  lemma NeverBelowZero(ops: seq<BookOp>)
    ensures (forall b :: b in BookTrace(NO_BOOKS, ops) ==> NonNegative(b)) <==> AffordableRun(NO_BOOKS, ops)
  {
    RunNonNegativeIff(NO_BOOKS, ops);
  }

  /** An executed withdrawal keeps the account at or above zero exactly when the balance still covers it. */
  lemma WithdrawalOverdraws(b: Books, account: Uuid, amount: int, payment: Uuid, liability: Uuid, key: string, month: int)
    requires !HasTxn(b.txns, key) && Withdraw(b, account, amount, payment, liability, key, month).Ok?
    ensures Balance(Withdraw(b, account, amount, payment, liability, key, month).value.txns, account) >= 0
       <==> Balance(b.txns, account) >= amount
  {
    BalanceAppend(b.txns, Txn(account, Withdrawal, amount, key, month), account);
  }

  /** A mode string outside the documented three is not refused: it debits in full, whatever the balance. */
  lemma UndocumentedModeOverdraws(b: Books, account: Uuid, amount: int, contra: Uuid, key: string, mode: string, source: string, month: int)
    requires mode != "fail" && mode != "partial" && mode != "allow_negative"
    requires FindTxn(b.txns, account, key).None? && Debit(b, account, amount, contra, key, mode, source, month).Ok?
    ensures Balance(Debit(b, account, amount, contra, key, mode, source, month).value.0.txns, account) == Balance(b.txns, account) - amount
  {
    BalanceAppend(b.txns, Txn(account, SystemDebit, amount, key, month), account);
  }

  /** `allow_negative` is never granted, because no module is on its list. */
  lemma AllowNegativeRefused(b: Books, account: Uuid, amount: int, contra: Uuid, key: string, source: string, month: int)
    ensures Debit(b, account, amount, contra, key, "allow_negative", source, month) == Err(ValueError)
  {
  }

  /** A fresh partial debit takes what is there, and the shortfall is the rest. */
  lemma PartialDebit(b: Books, account: Uuid, amount: int, contra: Uuid, key: string, source: string, month: int)
    requires FindTxn(b.txns, account, key).None? && Debit(b, account, amount, contra, key, "partial", source, month).Ok?
    ensures var (b', res) := Debit(b, account, amount, contra, key, "partial", source, month).value;
      && res.requested == amount && res.debited + res.shortfall == res.requested
      && res.debited == Max(0, Min(Balance(b.txns, account), amount))
      && (amount >= 0 ==> res.debited == Min(Max(Balance(b.txns, account), 0), amount))
      && (res.status == Zero <==> b'.txns == b.txns)
      && Balance(b'.txns, account) == Balance(b.txns, account) - res.debited
  {
    var (b', res) := Debit(b, account, amount, contra, key, "partial", source, month).value;
    if res.status != Zero {
      BalanceAppend(b.txns, Txn(account, SystemDebit, res.debited, key, month), account);
    }
  }

  // ── Headline total ──────────────────────────────────────────────────────────

  function BalanceOf(txns: seq<Txn>): SavingsAccount -> int { (a: SavingsAccount) => Balance(txns, a.id) }

  function Share(a: SavingsAccount, t: Txn): int { if t.account == a.id then SignedOf(t) else 0 }

  lemma BalanceIsRow(a: SavingsAccount, txns: seq<Txn>)
    ensures BalanceOf(txns)(a) == RowSum(Share, txns)(a)
  {
    SumAdd(txns, Row(Share, a), OutOn(a.id), InOn(a.id));
  }

  lemma TxnHasOneOwner(accounts: seq<SavingsAccount>, t: Txn)
    requires DistinctOwners(accounts) && FindAccount(accounts, t.account).Some?
    ensures ColSum(Share, accounts)(t) == SignedOf(t)
  {
    var i :| 0 <= i < |accounts| && accounts[i] == FindAccount(accounts, t.account).value;
    forall j | 0 <= j < |accounts| && j != i ensures Col(Share, t)(accounts[j]) == 0 {
      assert accounts[i].id != accounts[j].id by {
        if j < i { assert accounts[j].id != accounts[i].id; }
      }
      assert Share(accounts[j], t) == 0;
    }
    SumSingle(accounts, i, Col(Share, t));
    assert Share(accounts[i], t) == SignedOf(t);
  }

  /** The one-pass dashboard total is the sum of the per-account balances. */
  lemma HeadlineTotal(b: Books)
    requires Owned(b)
    ensures TotalBalance(b.txns) == SumBy(b.accounts, BalanceOf(b.txns))
  {
    forall a | a in b.accounts { BalanceIsRow(a, b.txns); }
    SumEqual(b.accounts, BalanceOf(b.txns), RowSum(Share, b.txns));
    SumSwap(b.accounts, b.txns, Share);
    forall t | t in b.txns ensures ColSum(Share, b.accounts)(t) == Signed()(t) {
      TxnHasOneOwner(b.accounts, t);
    }
    SumEqual(b.txns, ColSum(Share, b.accounts), Signed());
  }

  // ── What each call answers ──────────────────────────────────────────────────

  /** What a row of each kind does to its account. */
  function Effect(t: Txn): int {
    match t.kind
    case Deposit => t.amount
    case SystemCredit => t.amount
    case Withdrawal => -t.amount
    case SystemDebit => -t.amount
    case ExternalCredit => 0
    case ExternalDebit => 0
  }

  /** One more row moves its own account and the headline total by its effect, and no other account. */
  lemma RowEffect(txns: seq<Txn>, t: Txn, a: Uuid)
    ensures Balance(txns + [t], a) == Balance(txns, a) + (if t.account == a then Effect(t) else 0)
    ensures TotalBalance(txns + [t]) == TotalBalance(txns) + Effect(t)
  {
    BalanceAppend(txns, t, a);
    SumAppend(txns, t, Signed());
  }

  /** External rows leave every balance and the headline total alone. */
  lemma {:induction false} ExternalRowsDoNotCount(txns: seq<Txn>, more: seq<Txn>, a: Uuid)
    requires forall t :: t in more ==> t.kind == ExternalCredit || t.kind == ExternalDebit
    ensures Balance(txns + more, a) == Balance(txns, a) && TotalBalance(txns + more) == TotalBalance(txns)
  {
    if more == [] {
      assert txns + more == txns;
    } else {
      var rest, t := more[..|more| - 1], more[|more| - 1];
      ExternalRowsDoNotCount(txns, rest, a);
      RowEffect(txns + rest, t, a);
      assert txns + more == txns + rest + [t];
    }
  }

  ghost predicate Known(b: Books, account: Uuid) { exists a :: a in b.accounts && a.id == account }

  ghost predicate KeyTaken(b: Books, key: string) { exists t :: t in b.txns && t.key == key }

  /** A row for `amount` and its entry can be written: the amount fits, the account exists, and neither key nor accounts stand in the way. */
  ghost predicate Writable(b: Books, account: Uuid, amount: int, key: string, journal: string, x: Uuid, y: Uuid) {
    && 1 <= amount <= 9_999_999_999_999_999_999 && Known(b, account) && !KeyTaken(b, key)
    && (Journaled(b.gl.entries, journal) || (Charted(b.gl.chart, x) && Charted(b.gl.chart, y)))
  }

  /** One row more, with its entry if nobody had posted under its key, and nothing else. */
  ghost predicate Wrote(b: Books, b': Books, t: Txn, e: Entry) {
    && b'.accounts == b.accounts && b'.gl.chart == b.gl.chart && b'.txns == b.txns + [t]
    && b'.gl.entries == b.gl.entries + if Journaled(b.gl.entries, e.key) then [] else [e]
  }

  lemma KnownIff(b: Books, account: Uuid)
    ensures FindAccount(b.accounts, account).Some? <==> Known(b, account)
  {
  }

  lemma KeyTakenIff(b: Books, key: string)
    ensures HasTxn(b.txns, key) <==> KeyTaken(b, key)
  {
    if KeyTaken(b, key) {
      var t :| t in b.txns && t.key == key;
      var i :| 0 <= i < |b.txns| && b.txns[i] == t;
    }
  }

  lemma TwoLinesFit(chart: seq<GlAccount>, x: Uuid, y: Uuid, amount: int)
    ensures SumBy([Line(x, amount, 0), Line(y, 0, amount)], DebitOf()) == SumBy([Line(x, amount, 0), Line(y, 0, amount)], CreditOf())
    ensures LinesFit(chart, [Line(x, amount, 0), Line(y, 0, amount)])
       <==> 1 <= amount <= 9_999_999_999_999_999_999 && Charted(chart, x) && Charted(chart, y)
  {
    var l, m := Line(x, amount, 0), Line(y, 0, amount);
    TwoLines(l, m, x);
    assert l in [l, m] && m in [l, m];
  }

  /** Writing succeeds exactly when it can, and otherwise breaks a constraint. */
  lemma RecordAnswers(b: Books, kind: TxnKind, account: Uuid, liability: Uuid, contra: Uuid, amount: int, key: string, month: int)
    requires Posting(kind)
    ensures var r := Record(b, kind, account, liability, contra, amount, key, month);
      && (r.Ok? <==> Writable(b, account, amount, key, GlKey(kind, key), liability, contra))
      && (r.Err? ==> r.error == IntegrityError)
      && (r.Ok? ==> Wrote(b, r.value, Txn(account, kind, amount, key, month), Entry(GlKey(kind, key), Legs(kind, liability, contra, amount))))
  {
    var legs := Legs(kind, liability, contra, amount);
    KnownIff(b, account);
    KeyTakenIff(b, key);
    PostAnswers(b.gl, GlKey(kind, key), legs);
    TwoLinesFit(b.gl.chart, legs[0].account, legs[1].account, amount);
    assert legs == [legs[0], legs[1]] && b.gl.entries + [] == b.gl.entries;
  }

  ghost predicate OwnRow(b: Books, account: Uuid, key: string) { exists t :: t in b.txns && t.account == account && t.key == key }

  /** A deposit debits the payment account and credits the account's liability; its own row under the key makes it a replay. */
  lemma DepositAnswers(b: Books, account: Uuid, amount: int, contra: Uuid, key: string, month: int)
    ensures var r := Attempt(b, Deposits(account, amount, contra, key, month));
      var owner := FindAccount(b.accounts, account);
      if OwnRow(b, account, key) then r == Ok(b)
      else if owner.None? then r == Err(ValueError)
      else
        var journal, liability := "savings-deposit-" + key, owner.value.liability;
        && (r.Ok? <==> Writable(b, account, amount, key, journal, liability, contra))
        && (r.Err? ==> r.error == IntegrityError)
        && (r.Ok? ==> Wrote(b, r.value, Txn(account, Deposit, amount, key, month),
                            Entry(journal, [Line(contra, amount, 0), Line(liability, 0, amount)])))
  {
    var owner := FindAccount(b.accounts, account);
    if owner.Some? { RecordAnswers(b, Deposit, account, owner.value.liability, contra, amount, key, month); }
  }

  /** A system credit does the same under its own journal key. */
  lemma SystemCreditAnswers(b: Books, account: Uuid, amount: int, contra: Uuid, key: string, month: int)
    ensures var r := Attempt(b, SystemCredits(account, amount, contra, key, month));
      var owner := FindAccount(b.accounts, account);
      if OwnRow(b, account, key) then r == Ok(b)
      else if owner.None? then r == Err(ValueError)
      else
        var journal, liability := "sys-credit-" + key, owner.value.liability;
        && (r.Ok? <==> Writable(b, account, amount, key, journal, liability, contra))
        && (r.Err? ==> r.error == IntegrityError)
        && (r.Ok? ==> Wrote(b, r.value, Txn(account, SystemCredit, amount, key, month),
                            Entry(journal, [Line(contra, amount, 0), Line(liability, 0, amount)])))
  {
    var owner := FindAccount(b.accounts, account);
    if owner.Some? { RecordAnswers(b, SystemCredit, account, owner.value.liability, contra, amount, key, month); }
  }

  /** A withdrawal debits the liability it carries; any row under its key makes it a replay. */
  lemma WithdrawAnswers(b: Books, account: Uuid, amount: int, payment: Uuid, liability: Uuid, key: string, month: int)
    ensures var r, journal := Withdraw(b, account, amount, payment, liability, key, month), "savings-withdraw-" + key;
      if KeyTaken(b, key) then r == Ok(b)
      else
        && (r.Ok? <==> Writable(b, account, amount, key, journal, liability, payment))
        && (r.Err? ==> r.error == IntegrityError)
        && (r.Ok? ==> Wrote(b, r.value, Txn(account, Withdrawal, amount, key, month),
                            Entry(journal, [Line(liability, amount, 0), Line(payment, 0, amount)])))
  {
    KeyTakenIff(b, key);
    RecordAnswers(b, Withdrawal, account, liability, payment, amount, key, month);
  }

  /** What a debit that goes through writes and reports. */
  ghost predicate Debited(b: Books, r: Outcome<(Books, DebitResult)>, a: SavingsAccount, actual: int, amount: int, contra: Uuid, key: string, month: int) {
    var journal := "sys-debit-" + key;
    && (r.Ok? <==> Writable(b, a.id, actual, key, journal, a.liability, contra))
    && (r.Err? ==> r.error == IntegrityError)
    && (r.Ok? ==>
          && r.value.1 == DebitResult(actual, amount, amount - actual, if actual == amount then Full else Partial)
          && Wrote(b, r.value.0, Txn(a.id, SystemDebit, actual, key, month),
                   Entry(journal, [Line(a.liability, actual, 0), Line(contra, 0, actual)])))
  }

  /**
   * A fresh debit. `fail` is refused exactly when the balance does not cover the amount; `partial` takes what
   * is there and writes nothing when nothing is; any other mode but `allow_negative` takes all.
   */
  lemma DebitAnswers(b: Books, a: SavingsAccount, amount: int, contra: Uuid, key: string, mode: string, source: string, month: int)
    requires FindAccount(b.accounts, a.id) == Some(a) && !OwnRow(b, a.id, key) && mode != "allow_negative"
    ensures var r, balance := Debit(b, a.id, amount, contra, key, mode, source, month), Balance(b.txns, a.id);
      if mode == "fail" then (r == Err(ValueError) <==> balance < amount) && (balance >= amount ==> Debited(b, r, a, amount, amount, contra, key, month))
      else if mode == "partial" then
        if balance <= 0 then r == Ok((b, DebitResult(0, amount, amount, Zero)))
        else Debited(b, r, a, if balance < amount then balance else amount, amount, contra, key, month)
      else Debited(b, r, a, amount, amount, contra, key, month)
  {
    var actual := if mode == "partial" then Min(Balance(b.txns, a.id), amount) else amount;
    RecordAnswers(b, SystemDebit, a.id, a.liability, contra, actual, key, month);
  }

  /** A replayed debit reports the row it finds, whatever it asks for now; an unknown account is refused. */
  lemma DebitReplays(b: Books, account: Uuid, amount: int, contra: Uuid, key: string, mode: string, source: string, month: int)
    requires mode != "allow_negative" && (OwnRow(b, account, key) || !Known(b, account))
    ensures var r := Debit(b, account, amount, contra, key, mode, source, month);
      if OwnRow(b, account, key)
      then exists t :: t in b.txns && t.account == account && t.key == key && r == Ok((b, DebitResult(t.amount, t.amount, 0, Full)))
      else r == Err(ValueError)
  {
  }

  ghost predicate Holds(b: Books, member: Uuid, product: Uuid) { exists a :: a in b.accounts && a.member == member && a.product == product }

  /** An account is opened if and only if the member has none of the product and its id is unused. */
  lemma OpenAnswers(b: Books, a: SavingsAccount)
    ensures OpenAccount(b, a) == if Holds(b, a.member, a.product) then Err(ValueError)
                                 else if Known(b, a.id) then Err(IntegrityError)
                                 else Ok(Books(b.gl, b.accounts + [a], b.txns))
  {
    KnownIff(b, a.id);
    if Holds(b, a.member, a.product) {
      var x :| x in b.accounts && x.member == a.member && x.product == a.product;
      var i :| 0 <= i < |b.accounts| && b.accounts[i] == x;
    }
  }

  predicate OnePerProduct(accounts: seq<SavingsAccount>) {
    forall i, j :: 0 <= i < j < |accounts| ==> accounts[i].member != accounts[j].member || accounts[i].product != accounts[j].product
  }

  lemma StepOnePerProduct(b: Books, op: BookOp)
    requires OnePerProduct(b.accounts)
    ensures OnePerProduct(BookStep(b, op).accounts)
  {
    if BookStep(b, op) != b {
      if op.Opens? {
        OpenAnswers(b, op.owner);
      } else if WritesTxn(op) {
        Recorded(b, op);
        RecordShape(b, KindOf(op), op.account, LegOf(b, op), op.contra, AmountOf(b, op), op.key, op.month);
      } else {
        OtherStep(b, op);
      }
    }
  }

  /** In every run no member holds two accounts of one product. */
  lemma {:induction false} AccountsOnePerProduct(b: Books, ops: seq<BookOp>)
    requires OnePerProduct(b.accounts)
    ensures OnePerProduct(BookRun(b, ops).accounts)
    decreases |ops|
  {
    if ops != [] {
      StepOnePerProduct(b, ops[0]);
      AccountsOnePerProduct(BookStep(b, ops[0]), ops[1..]);
    }
  }

  // ── The service ─────────────────────────────────────────────────────────────

  class SavingsService {
    const ledger: LedgerService
    var accounts: seq<SavingsAccount>
    var txns: seq<Txn>

    function State(): Books
      reads this, ledger
    {
      Books(ledger.State(), accounts, txns)
    }

    constructor (ledger: LedgerService)
      ensures this.ledger == ledger && accounts == [] && txns == []
    {
      this.ledger := ledger;
      accounts, txns := [], [];
    }

    /** Drops every write made since the snapshot was taken. */
    method Rollback(saved: Books)
      modifies this, ledger
      ensures State() == saved
    {
      ledger.chart, ledger.entries := saved.gl.chart, saved.gl.entries;
      accounts, txns := saved.accounts, saved.txns;
    }

    /** `get_balance`: two aggregates over the rows of one account. */
    method GetBalance(id: Uuid) returns (r: Outcome<int>)
      ensures r == if FindAccount(accounts, id).None? then Err(ValueError) else Ok(Balance(txns, id))
    {
      if FindAccount(accounts, id).None? {
        return Err(ValueError);
      }
      var credits, debits := 0, 0;
      for i := 0 to |txns|
        invariant credits == SumBy(txns[..i], InOn(id)) && debits == SumBy(txns[..i], OutOn(id))
      {
        assert txns[..i + 1] == txns[..i] + [txns[i]];
        credits, debits := credits + InOn(id)(txns[i]), debits + OutOn(id)(txns[i]);
      }
      assert txns[..|txns|] == txns;
      return Ok(credits - debits);
    }

    /** Entry first, row second; a failure between the two leaves writes for the caller to roll back. */
    method Write(kind: TxnKind, account: Uuid, liability: Uuid, contra: Uuid, amount: int, key: string, month: int)
      returns (r: Outcome<()>)
      requires Posting(kind)
      modifies this, ledger
      ensures match Record(old(State()), kind, account, liability, contra, amount, key, month)
              case Ok(b) => r == Ok(()) && State() == b
              case Err(e) => r == Err(e)
    {
      var posted := ledger.PostJournalEntry(GlKey(kind, key), Legs(kind, liability, contra, amount));
      if posted.Err? {
        return posted;
      }
      if FindAccount(accounts, account).None? || HasTxn(txns, key) || !(0 < amount < NUMERIC_LIMIT) {
        return Err(IntegrityError);
      }
      txns := txns + [Txn(account, kind, amount, key, month)];
      return Ok(());
    }

    method MakeDeposit(account: Uuid, amount: int, payment: Uuid, key: string, month: int) returns (r: Outcome<()>)
      modifies this, ledger
      ensures State() == BookStep(old(State()), Deposits(account, amount, payment, key, month))
      ensures match Attempt(old(State()), Deposits(account, amount, payment, key, month)) case Ok(_) => r == Ok(()) case Err(e) => r == Err(e)
    {
      var saved := State();
      if FindTxn(txns, account, key).Some? {
        return Ok(());
      }
      var owner := FindAccount(accounts, account);
      if owner.None? {
        return Err(ValueError);
      }
      r := Write(Deposit, account, owner.value.liability, payment, amount, key, month);
      if r.Err? {
        Rollback(saved);
      }
    }

    method MakeSystemCredit(account: Uuid, amount: int, contra: Uuid, key: string, month: int) returns (r: Outcome<()>)
      modifies this, ledger
      ensures State() == BookStep(old(State()), SystemCredits(account, amount, contra, key, month))
      ensures match Attempt(old(State()), SystemCredits(account, amount, contra, key, month)) case Ok(_) => r == Ok(()) case Err(e) => r == Err(e)
    {
      var saved := State();
      if FindTxn(txns, account, key).Some? {
        return Ok(());
      }
      var owner := FindAccount(accounts, account);
      if owner.None? {
        return Err(ValueError);
      }
      r := Write(SystemCredit, account, owner.value.liability, contra, amount, key, month);
      if r.Err? {
        Rollback(saved);
      }
    }

    /** Called inside a caller's transaction, so a failure leaves the rollback to the caller. */
    method MakeSystemDebit(account: Uuid, amount: int, contra: Uuid, key: string, mode: string, source: string, month: int)
      returns (r: Outcome<DebitResult>)
      modifies this, ledger
      ensures match Debit(old(State()), account, amount, contra, key, mode, source, month)
              case Ok((b, res)) => r == Ok(res) && State() == b
              case Err(e) => r == Err(e)
    {
      if mode == "allow_negative" && source !in ALLOW_NEGATIVE_MODULES {
        return Err(ValueError);
      }
      var existing := FindTxn(txns, account, key);
      if existing.Some? {
        return Ok(DebitResult(existing.value.amount, existing.value.amount, 0, Full));
      }
      var owner := FindAccount(accounts, account);
      var balance :- GetBalance(account);
      if mode == "fail" && balance < amount {
        return Err(ValueError);
      }
      if mode == "partial" && balance <= 0 {
        return Ok(DebitResult(0, amount, amount, Zero));
      }
      var actual := if mode != "partial" then amount else Min(balance, amount);
      var written := Write(SystemDebit, account, owner.value.liability, contra, actual, key, month);
      if written.Err? {
        return Err(written.error);
      }
      var shortfall := amount - actual;
      return Ok(DebitResult(actual, amount, shortfall, if shortfall == 0 then Full else Partial));
    }

    /** `execute_withdraw`, on the values parsed from the approved payload. */
    method ExecuteWithdraw(account: Uuid, amount: int, payment: Uuid, liability: Uuid, key: string, month: int)
      returns (r: Outcome<()>)
      modifies this, ledger
      ensures match Withdraw(old(State()), account, amount, payment, liability, key, month)
              case Ok(b) => r == Ok(()) && State() == b
              case Err(e) => r == Err(e)
    {
      if HasTxn(txns, key) {
        return Ok(());
      }
      r := Write(Withdrawal, account, liability, payment, amount, key, month);
    }
  }
}
