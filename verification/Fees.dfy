/** Fee assessment and collection across the fee tables, the savings rows and the ledger. */
module Fees {
  import opened Sums
  import opened Text
  import opened Ledger
  import opened Savings

  datatype FeeStatus = Assessed | PartiallyPaid | Paid | Waived | Cancelled

  datatype FeeType = FeeType(income: string, receivable: string, amount: int, requiresCollection: bool)

  /** What one assessment is for: unique per fee type, target and period. */
  datatype Charge = Charge(feeType: Uuid, targetType: string, target: Uuid, period: IsoDate)

  datatype Assessment = Assessment(id: Uuid, charge: Charge, amount: int, status: FeeStatus)

  datatype Collection = Collection(assessment: Uuid, amount: int, key: string)

  datatype FeeState = FeeState(books: Books, catalog: map<Uuid, FeeType>, assessments: seq<Assessment>, collections: seq<Collection>)

  const NO_FEES: FeeState := FeeState(NO_BOOKS, map[], [], [])

  // ── Keys ────────────────────────────────────────────────────────────────────

  function AssessKey(k: string): string { "fee-assess-" + k }
  function ManualKey(k: string): string { "fee-manual-collect-" + k }
  function DebitKey(k: string): string { "fee-collect-" + k }

  function RetryKey(id: Uuid, today: IsoDate): string { UuidDateKey("retry-", id, today) }

  lemma AssessKeyForeign(k: string)
    ensures !SavingsKey(AssessKey(k))
  {
    assert AssessKey(k)[0] == 'f';
  }

  lemma ManualKeyForeign(k: string)
    ensures !SavingsKey(ManualKey(k))
  {
    assert ManualKey(k)[0] == 'f';
  }

  lemma AssessIsNotManual(k: string, m: string)
    ensures AssessKey(k) != ManualKey(m)
  {
    assert AssessKey(k)[4] == 'a' && ManualKey(m)[4] == 'm';
  }

  lemma FeeKeyInjective(prefix: string, k: string, m: string)
    requires prefix + k == prefix + m
    ensures k == m
  {
    PrefixFacts(prefix, k);
    PrefixFacts(prefix, m);
  }

  /** Fee keys are no savings keys, and neither the two kinds nor two client keys share one. */
  lemma FeeKeysApart(k: string, m: string)
    ensures !SavingsKey(AssessKey(k)) && !SavingsKey(ManualKey(k))
    ensures AssessKey(k) != ManualKey(m)
    ensures AssessKey(k) == AssessKey(m) ==> k == m
    ensures ManualKey(k) == ManualKey(m) ==> k == m
  {
    AssessKeyForeign(k);
    ManualKeyForeign(k);
    AssessIsNotManual(k, m);
    if AssessKey(k) == AssessKey(m) { FeeKeyInjective("fee-assess-", k, m); }
    if ManualKey(k) == ManualKey(m) { FeeKeyInjective("fee-manual-collect-", k, m); }
  }

  // ── Lookups ─────────────────────────────────────────────────────────────────

  function ByCode(chart: seq<GlAccount>, code: string): (r: Option<GlAccount>)
    ensures r.Some? ==> r.value in chart && r.value.code == code
    ensures r.None? ==> forall g :: g in chart ==> g.code != code
  {
    if chart == [] then None else if chart[0].code == code then Some(chart[0]) else ByCode(chart[1..], code)
  }

  /** The member's oldest savings account; rows are kept in creation order. */
  function PrimaryAccount(accounts: seq<SavingsAccount>, member: Uuid): (r: Option<SavingsAccount>)
    ensures r.Some? ==> exists n :: 0 <= n < |accounts| && accounts[n] == r.value && r.value.member == member
                                    && forall m :: 0 <= m < n ==> accounts[m].member != member
    ensures r.None? ==> forall a :: a in accounts ==> a.member != member
  {
    if accounts == [] then None
    else if accounts[0].member == member then Some(accounts[0])
    else PrimaryAccount(accounts[1..], member)
  }

  predicate HasCharge(assessments: seq<Assessment>, c: Charge) {
    exists i :: 0 <= i < |assessments| && assessments[i].charge == c
  }

  predicate HasCollection(collections: seq<Collection>, key: string) {
    exists i :: 0 <= i < |collections| && collections[i].key == key
  }

  /** Position of an assessment, or the number of assessments when there is none. */
  function Find(assessments: seq<Assessment>, id: Uuid): (i: nat)
    ensures i <= |assessments|
    ensures i < |assessments| ==> assessments[i].id == id
    ensures forall j :: 0 <= j < i ==> assessments[j].id != id
  {
    if assessments == [] then 0 else if assessments[0].id == id then 0 else 1 + Find(assessments[1..], id)
  }

  function AmountFor(id: Uuid): Collection -> int { (c: Collection) => if c.assessment == id then c.amount else 0 }

  function Collected(collections: seq<Collection>, id: Uuid): int { SumBy(collections, AmountFor(id)) }

  // ── Operations ──────────────────────────────────────────────────────────────

  function SetStatus(assessments: seq<Assessment>, i: nat, status: FeeStatus): seq<Assessment>
    requires i < |assessments|
  {
    assessments[i := assessments[i].(status := status)]
  }

  /** `auto_collect` on the assessment at `i`: always asks for the full assessed amount. */
  function AutoCollect(s: FeeState, i: nat, receivable: Uuid, key: string, month: int): Outcome<FeeState>
    requires i < |s.assessments|
  {
    var a := s.assessments[i];
    match PrimaryAccount(s.books.accounts, a.charge.target)
    case None => Ok(s)
    case Some(owner) =>
      var r :- Debit(s.books, owner.id, a.amount, receivable, DebitKey(key), "partial", "fees", month);
      var (books, res) := r;
      if res.status == Zero then Ok(s)
      else if HasCollection(s.collections, DebitKey(key)) || res.debited <= 0 then Err(IntegrityError)
      else Ok(FeeState(books, s.catalog,
                       SetStatus(s.assessments, i, if res.shortfall == 0 then Paid else PartiallyPaid),
                       s.collections + [Collection(a.id, res.debited, DebitKey(key))]))
  }

  /** The state between the assessment row and its inline collection. */
  function Assessing(s: FeeState, id: Uuid, c: Charge, key: string): Outcome<FeeState> {
    if c.feeType !in s.catalog then Err(ValueError)
    else
      var ft := s.catalog[c.feeType];
      var income, receivable := ByCode(s.books.gl.chart, ft.income), ByCode(s.books.gl.chart, ft.receivable);
      if income.None? || receivable.None? then Err(ValueError)
      else
        var gl :- Post(s.books.gl, AssessKey(key),
                       [Line(receivable.value.id, ft.amount, 0), Line(income.value.id, 0, ft.amount)]);
        if !(0 < ft.amount < NUMERIC_LIMIT) || Find(s.assessments, id) < |s.assessments| then Err(IntegrityError)
        else Ok(s.(books := s.books.(gl := gl), assessments := s.assessments + [Assessment(id, c, ft.amount, Assessed)]))
  }

  /** The receivable account of a charge's fee type; the nil id when there is none. */
  function ReceivableOf(s: FeeState, c: Charge): Uuid {
    if c.feeType !in s.catalog then NIL
    else
      var receivable := ByCode(s.books.gl.chart, s.catalog[c.feeType].receivable);
      if receivable.Some? then receivable.value.id else NIL
  }

  function Assess(s: FeeState, id: Uuid, c: Charge, key: string, month: int): Outcome<FeeState> {
    if HasCharge(s.assessments, c) then Ok(s)
    else
      var s1 :- Assessing(s, id, c, key);
      if s.catalog[c.feeType].requiresCollection then AutoCollect(s1, |s.assessments|, ReceivableOf(s, c), key, month) else Ok(s1)
  }

  /** One iteration of the daily retry: open assessments of fee types that collect. */
  function Retry(s: FeeState, id: Uuid, today: IsoDate, month: int): Outcome<FeeState> {
    var i := Find(s.assessments, id);
    if i == |s.assessments| || (s.assessments[i].status != Assessed && s.assessments[i].status != PartiallyPaid) then Ok(s)
    else
      var c := s.assessments[i].charge;
      if c.feeType !in s.catalog || !s.catalog[c.feeType].requiresCollection then Ok(s)
      else match ByCode(s.books.gl.chart, s.catalog[c.feeType].receivable)
        case None => Ok(s)
        case Some(receivable) => AutoCollect(s, i, receivable.id, RetryKey(id, today), month)
  }

  /** Manual collection in cash or by voucher. */
  function Collect(s: FeeState, id: Uuid, amount: int, contra: Uuid, key: string): Outcome<FeeState> {
    if HasCollection(s.collections, key) then Ok(s)
    else
      var i := Find(s.assessments, id);
      if i == |s.assessments| then Err(ValueError)
      else
        var a := s.assessments[i];
        if a.status == Paid || a.status == Waived || a.status == Cancelled || a.charge.feeType !in s.catalog then Err(ValueError)
        else match ByCode(s.books.gl.chart, s.catalog[a.charge.feeType].receivable)
          case None => Err(ValueError)
          case Some(receivable) =>
            var gl :- Post(s.books.gl, ManualKey(key), [Line(contra, amount, 0), Line(receivable.id, 0, amount)]);
            if !(0 < amount < NUMERIC_LIMIT) then Err(IntegrityError)
            else
              var total := Collected(s.collections, id) + amount;
              Ok(FeeState(s.books.(gl := gl), s.catalog,
                          SetStatus(s.assessments, i, if total >= a.amount then Paid else PartiallyPaid),
                          s.collections + [Collection(id, amount, key)]))
  }

  datatype FeeOp =
    | Adds(feeType: Uuid, row: FeeType)
    | Patches(feeType: Uuid, amount: int, requiresCollection: bool)
    | Assesses(id: Uuid, charge: Charge, key: string, month: int)
    | Retries(id: Uuid, today: IsoDate, month: int)
    | Collects(id: Uuid, amount: int, contra: Uuid, key: string)
    | Elsewhere(op: BookOp)

  function FeeAttempt(s: FeeState, op: FeeOp): Outcome<FeeState> {
    match op
    case Adds(id, row) =>
      if id in s.catalog || !(0 <= row.amount < NUMERIC_LIMIT) then Err(IntegrityError) else Ok(s.(catalog := s.catalog[id := row]))
    case Patches(id, amount, collects) =>
      if id !in s.catalog then Err(ValueError)
      else if !(0 <= amount < NUMERIC_LIMIT) then Err(IntegrityError)
      else Ok(s.(catalog := s.catalog[id := s.catalog[id].(amount := amount, requiresCollection := collects)]))
    case Assesses(id, charge, key, month) => Assess(s, id, charge, key, month)
    case Retries(id, today, month) => Retry(s, id, today, month)
    case Collects(id, amount, contra, key) => Collect(s, id, amount, contra, key)
    case Elsewhere(o) => Ok(s.(books := BookStep(s.books, o)))
  }

  function FeeStep(s: FeeState, op: FeeOp): FeeState {
    var r := FeeAttempt(s, op);
    if r.Ok? then r.value else s
  }

  function FeeRun(s: FeeState, ops: seq<FeeOp>): FeeState
    decreases |ops|
  {
    if ops == [] then s else FeeRun(FeeStep(s, ops[0]), ops[1..])
  }

  // ── Outstanding fees ────────────────────────────────────────────────────────

  /** The receivable account code an assessment is carried on. */
  function CodeOf(catalog: map<Uuid, FeeType>, a: Assessment): Option<string> {
    if a.charge.feeType in catalog then Some(catalog[a.charge.feeType].receivable) else None
  }

  function Owed(catalog: map<Uuid, FeeType>, collections: seq<Collection>, code: string): Assessment -> int {
    (a: Assessment) => if CodeOf(catalog, a) == Some(code) then a.amount - Collected(collections, a.id) else 0
  }

  /** Assessed minus collected, over the assessments carried on one receivable. */
  function Outstanding(s: FeeState, code: string): int { SumBy(s.assessments, Owed(s.catalog, s.collections, code)) }

  /** How far the receivable's debit balance is ahead of the outstanding fees. */
  function Drift(s: FeeState, g: GlAccount): int { -Net(s.books.gl.entries, g.id) - Outstanding(s, g.code) }

  // ── Invariant ───────────────────────────────────────────────────────────────

  predicate DistinctIds(assessments: seq<Assessment>) {
    forall i, j :: 0 <= i < j < |assessments| ==> assessments[i].id != assessments[j].id
  }

  predicate Listed(catalog: map<Uuid, FeeType>, a: Assessment) { a.amount > 0 && a.charge.feeType in catalog }

  predicate GoodCollection(assessments: seq<Assessment>, c: Collection) {
    c.amount > 0 && Find(assessments, c.assessment) < |assessments|
  }

  ghost predicate DebitsCovered(txns: seq<Txn>, collections: seq<Collection>) {
    forall k :: HasTxn(txns, DebitKey(k)) ==> HasCollection(collections, DebitKey(k))
  }

  ghost predicate ManualCovered(entries: seq<Entry>, collections: seq<Collection>) {
    forall k :: HasEntry(entries, ManualKey(k)) ==> HasCollection(collections, k)
  }

  ghost predicate ChargesCovered(entries: seq<Entry>, assessments: seq<Assessment>, chargeOf: string -> Charge) {
    forall k :: HasEntry(entries, AssessKey(k)) ==> HasCharge(assessments, chargeOf(k))
  }

  /** What the fee tables keep whoever uses whose keys. */
  ghost predicate FeeTables(s: FeeState) {
    && DistinctIds(s.assessments)
    && (forall a :: a in s.assessments ==> Listed(s.catalog, a))
    && (forall c :: c in s.collections ==> GoodCollection(s.assessments, c))
  }

  /** Every fee marked paid is paid in full. */
  ghost predicate PaidCovered(s: FeeState) {
    forall a :: a in s.assessments && a.status == Paid ==> Collected(s.collections, a.id) >= a.amount
  }

  ghost predicate FeeInv(s: FeeState) {
    && BooksInv(s.books) && FeeTables(s) && PaidCovered(s)
    && DebitsCovered(s.books.txns, s.collections)
    && ManualCovered(s.books.gl.entries, s.collections)
  }

  /** Other callers keep out of the fee module's key spaces. */
  predicate FeesApart(op: BookOp) {
    match op
    case Opens(_) => true
    case Charts(_) => true
    case Deposits(_, _, _, key, _) => !StartsWith(key, "fee-collect-")
    case SystemCredits(_, _, _, key, _) => !StartsWith(key, "fee-collect-")
    case SystemDebits(_, _, _, key, _, _, _) => !StartsWith(key, "fee-collect-")
    case Withdraws(_, _, _, _, key, _) => !StartsWith(key, "fee-collect-")
    case Journal(key, _) =>
      !SavingsKey(key) && !StartsWith(key, "fee-assess-") && !StartsWith(key, "fee-manual-collect-")
  }

  predicate OpApart(op: FeeOp) { op.Elsewhere? ==> FeesApart(op.op) }

  // ── Arithmetic of outstanding fees ──────────────────────────────────────────

  function Taken(catalog: map<Uuid, FeeType>, c: Collection, code: string): Assessment -> int {
    (a: Assessment) => if a.id == c.assessment && CodeOf(catalog, a) == Some(code) then -c.amount else 0
  }

  lemma CollectedAppend(collections: seq<Collection>, c: Collection, id: Uuid)
    ensures Collected(collections + [c], id) == Collected(collections, id) + AmountFor(id)(c)
  {
    SumAppend(collections, c, AmountFor(id));
  }

  lemma OwedAfterCollection(s: FeeState, i: nat, c: Collection, code: string)
    requires DistinctIds(s.assessments) && i < |s.assessments| && s.assessments[i].id == c.assessment
    ensures SumBy(s.assessments, Owed(s.catalog, s.collections + [c], code))
         == Outstanding(s, code) - (if CodeOf(s.catalog, s.assessments[i]) == Some(code) then c.amount else 0)
  {
    forall a | a in s.assessments
      ensures Owed(s.catalog, s.collections + [c], code)(a) == Owed(s.catalog, s.collections, code)(a) + Taken(s.catalog, c, code)(a)
    {
      CollectedAppend(s.collections, c, a.id);
    }
    SumAdd(s.assessments, Owed(s.catalog, s.collections, code), Taken(s.catalog, c, code), Owed(s.catalog, s.collections + [c], code));
    forall j | 0 <= j < |s.assessments| && j != i ensures Taken(s.catalog, c, code)(s.assessments[j]) == 0 {
      assert s.assessments[i].id != s.assessments[j].id by {
        if j < i { assert s.assessments[j].id != s.assessments[i].id; }
      }
    }
    SumSingle(s.assessments, i, Taken(s.catalog, c, code));
  }

  /** Recording a collection and a new status on assessment `i` takes the amount off its receivable. */
  lemma OutstandingCollected(s: FeeState, i: nat, c: Collection, status: FeeStatus, code: string)
    requires DistinctIds(s.assessments) && i < |s.assessments| && s.assessments[i].id == c.assessment
    ensures SumBy(SetStatus(s.assessments, i, status), Owed(s.catalog, s.collections + [c], code))
         == Outstanding(s, code) - (if CodeOf(s.catalog, s.assessments[i]) == Some(code) then c.amount else 0)
  {
    OwedAfterCollection(s, i, c, code);
    SumUpdate(s.assessments, i, s.assessments[i].(status := status), Owed(s.catalog, s.collections + [c], code));
  }

  lemma NothingCollected(assessments: seq<Assessment>, collections: seq<Collection>, id: Uuid)
    requires forall c :: c in collections ==> GoodCollection(assessments, c)
    requires Find(assessments, id) == |assessments|
    ensures Collected(collections, id) == 0
  {
    SumZero(collections, AmountFor(id));
  }

  lemma OutstandingAssessed(s: FeeState, a: Assessment, code: string)
    requires forall c :: c in s.collections ==> GoodCollection(s.assessments, c)
    requires Find(s.assessments, a.id) == |s.assessments|
    ensures SumBy(s.assessments + [a], Owed(s.catalog, s.collections, code))
         == Outstanding(s, code) + (if CodeOf(s.catalog, a) == Some(code) then a.amount else 0)
  {
    SumAppend(s.assessments, a, Owed(s.catalog, s.collections, code));
    NothingCollected(s.assessments, s.collections, a.id);
  }

  lemma FindStays(assessments: seq<Assessment>, more: seq<Assessment>, id: Uuid)
    requires |more| >= |assessments| && forall i :: 0 <= i < |assessments| ==> more[i].id == assessments[i].id
    requires Find(assessments, id) < |assessments|
    ensures Find(more, id) < |more|
  {
    assert more[Find(assessments, id)].id == id;
  }

  lemma HasCollectionAppend(collections: seq<Collection>, c: Collection, key: string)
    ensures HasCollection(collections + [c], key) <==> HasCollection(collections, key) || c.key == key
  {
    var more := collections + [c];
    assert more[|collections|] == c;
    if HasCollection(collections, key) {
      var i :| 0 <= i < |collections| && collections[i].key == key;
      assert more[i].key == key;
    }
  }

  /** The fee tables keep their shape when a collection row is added. */
  lemma TablesKeep(s: FeeState, i: nat, c: Collection, status: FeeStatus)
    requires FeeTables(s) && i < |s.assessments| && s.assessments[i].id == c.assessment && c.amount > 0
    ensures FeeTables(s.(assessments := SetStatus(s.assessments, i, status), collections := s.collections + [c]))
  {
    var s' := s.(assessments := SetStatus(s.assessments, i, status), collections := s.collections + [c]);
    forall j | 0 <= j < |s'.assessments| ensures Listed(s.catalog, s'.assessments[j]) {
      assert s.assessments[j] in s.assessments;
    }
    forall x | x in s'.collections ensures GoodCollection(s'.assessments, x) {
      assert Find(s.assessments, x.assessment) < |s.assessments| by {
        if x == c { assert s.assessments[i].id == x.assessment; }
      }
      FindStays(s.assessments, s'.assessments, x.assessment);
    }
  }

  lemma CollectedNonNegative(s: FeeState, id: Uuid)
    requires FeeTables(s)
    ensures Collected(s.collections, id) >= 0
  {
    SumNonNegative(s.collections, AmountFor(id));
  }

  /** Paid fees stay covered through a new collection exactly when it does not mark its own fee paid too early. */
  lemma PaidAfterCollection(s: FeeState, i: nat, c: Collection, status: FeeStatus)
    requires FeeTables(s) && PaidCovered(s) && i < |s.assessments| && s.assessments[i].id == c.assessment && c.amount > 0
    ensures PaidCovered(s.(assessments := SetStatus(s.assessments, i, status), collections := s.collections + [c]))
       <==> (status == Paid ==> Collected(s.collections, c.assessment) + c.amount >= s.assessments[i].amount)
  {
    var s' := s.(assessments := SetStatus(s.assessments, i, status), collections := s.collections + [c]);
    CollectedAppend(s.collections, c, c.assessment);
    assert s'.assessments[i] in s'.assessments;
    forall j | 0 <= j < |s.assessments| && j != i && s.assessments[j].status == Paid
      ensures Collected(s'.collections, s.assessments[j].id) >= s.assessments[j].amount
    {
      CollectedAppend(s.collections, c, s.assessments[j].id);
      assert s.assessments[j] in s.assessments;
    }
  }

  // ── Collection steps ────────────────────────────────────────────────────────

  /** The receivable an operation resolves is `g` exactly when the assessment is carried on `g`. */
  predicate Names(chart: seq<GlAccount>, g: GlAccount) {
    forall x :: x in chart ==> (x.code == g.code <==> x.id == g.id)
  }

  /** The savings row a collection takes for its own debit, if one is already there. */
  function ReplayOf(s: FeeState, i: nat, key: string): Option<Txn>
    requires i < |s.assessments|
  {
    match PrimaryAccount(s.books.accounts, s.assessments[i].charge.target)
    case None => None
    case Some(owner) => FindTxn(s.books.txns, owner.id, DebitKey(key))
  }

  /** What a collection from savings records as collected. */
  function TakenBy(s: FeeState, i: nat, key: string): int
    requires i < |s.assessments|
  {
    match PrimaryAccount(s.books.accounts, s.assessments[i].charge.target)
    case None => 0
    case Some(owner) =>
      match ReplayOf(s, i, key)
      case Some(t) => t.amount
      case None => Min(Balance(s.books.txns, owner.id), s.assessments[i].amount)
  }

  /** A collection that commits, on a debit of its own or on a row it takes for one. */
  lemma CollectedShape(s: FeeState, i: nat, receivable: Uuid, key: string, month: int)
    requires i < |s.assessments| && AutoCollect(s, i, receivable, key, month).Ok?
    requires AutoCollect(s, i, receivable, key, month).value != s
    ensures PrimaryAccount(s.books.accounts, s.assessments[i].charge.target).Some?
    ensures var s' := AutoCollect(s, i, receivable, key, month).value;
      var a, d := s.assessments[i], TakenBy(s, i, key);
      && d > 0 && !HasCollection(s.collections, DebitKey(key))
      && s' == FeeState(s'.books, s.catalog,
                        SetStatus(s.assessments, i, if ReplayOf(s, i, key).Some? || d == a.amount then Paid else PartiallyPaid),
                        s.collections + [Collection(a.id, d, DebitKey(key))])
  {
  }

  lemma CollectedBooks(s: FeeState, i: nat, receivable: Uuid, key: string, month: int)
    requires i < |s.assessments| && AutoCollect(s, i, receivable, key, month).Ok?
    requires AutoCollect(s, i, receivable, key, month).value != s
    ensures PrimaryAccount(s.books.accounts, s.assessments[i].charge.target).Some?
    ensures var owner := PrimaryAccount(s.books.accounts, s.assessments[i].charge.target).value;
      var books := AutoCollect(s, i, receivable, key, month).value.books;
      if ReplayOf(s, i, key).Some? then books == s.books
      else FindAccount(s.books.accounts, owner.id).Some?
           && Record(s.books, SystemDebit, owner.id, FindAccount(s.books.accounts, owner.id).value.liability, receivable,
                     TakenBy(s, i, key), DebitKey(key), month) == Ok(books)
  {
  }

  /** With the debit keys kept apart a collection rests on a fresh debit: a replayed one trips over its own collection key. */
  lemma CollectedFresh(s: FeeState, i: nat, receivable: Uuid, key: string, month: int)
    requires FeeInv(s) && i < |s.assessments|
    requires AutoCollect(s, i, receivable, key, month).Ok? && AutoCollect(s, i, receivable, key, month).value != s
    ensures PrimaryAccount(s.books.accounts, s.assessments[i].charge.target).Some? && ReplayOf(s, i, key).None?
    ensures var owner := PrimaryAccount(s.books.accounts, s.assessments[i].charge.target).value;
      var s' := AutoCollect(s, i, receivable, key, month).value;
      var d := Min(Balance(s.books.txns, owner.id), s.assessments[i].amount);
      && d > 0 && !HasCollection(s.collections, DebitKey(key))
      && Record(s.books, SystemDebit, owner.id, owner.liability, receivable, d, DebitKey(key), month) == Ok(s'.books)
      && s' == FeeState(s'.books, s.catalog,
                        SetStatus(s.assessments, i, if d == s.assessments[i].amount then Paid else PartiallyPaid),
                        s.collections + [Collection(s.assessments[i].id, d, DebitKey(key))])
  {
    CollectedShape(s, i, receivable, key, month);
    CollectedBooks(s, i, receivable, key, month);
    var owner := PrimaryAccount(s.books.accounts, s.assessments[i].charge.target).value;
    FindIsUnique(s.books.accounts, owner);
    assert FindTxn(s.books.txns, owner.id, DebitKey(key)).None?;
  }

  lemma ManualKeyIsNoSavingsKey(kind: TxnKind, key: string, k: string)
    requires Posting(kind)
    ensures GlKey(kind, key) != ManualKey(k) && GlKey(kind, key) != AssessKey(k)
  {
    GlKeyReserved(kind, key);
    FeeKeysApart(k, k);
  }

  lemma AutoCollectKeeps(s: FeeState, i: nat, receivable: Uuid, key: string, month: int)
    requires FeeInv(s) && i < |s.assessments| && AutoCollect(s, i, receivable, key, month).Ok?
    ensures FeeInv(AutoCollect(s, i, receivable, key, month).value)
  {
    var s' := AutoCollect(s, i, receivable, key, month).value;
    if s' != s {
      CollectedFresh(s, i, receivable, key, month);
      var owner := PrimaryAccount(s.books.accounts, s.assessments[i].charge.target).value;
      var d := Min(Balance(s.books.txns, owner.id), s.assessments[i].amount);
      var c := Collection(s.assessments[i].id, d, DebitKey(key));
      RecordShape(s.books, SystemDebit, owner.id, owner.liability, receivable, d, DebitKey(key), month);
      RecordKeeps(s.books, SystemDebit, owner.id, owner.liability, receivable, d, DebitKey(key), month);
      RecordPosts(s.books, SystemDebit, owner.id, owner.liability, receivable, d, DebitKey(key), month);
      CollectedNonNegative(s, c.assessment);
      TablesKeep(s, i, c, if d == s.assessments[i].amount then Paid else PartiallyPaid);
      PaidAfterCollection(s, i, c, if d == s.assessments[i].amount then Paid else PartiallyPaid);
      forall k | HasTxn(s'.books.txns, DebitKey(k)) ensures HasCollection(s'.collections, DebitKey(k)) {
        HasTxnAppend(s.books.txns, Txn(owner.id, SystemDebit, d, DebitKey(key), month), DebitKey(k));
        HasCollectionAppend(s.collections, c, DebitKey(k));
      }
      forall k | HasEntry(s'.books.gl.entries, ManualKey(k)) ensures HasCollection(s'.collections, k) {
        ManualKeyIsNoSavingsKey(SystemDebit, DebitKey(key), k);
        HasEntryAppend(s.books.gl.entries, Entry(GlKey(SystemDebit, DebitKey(key)), Legs(SystemDebit, owner.liability, receivable, d)), ManualKey(k));
        HasCollectionAppend(s.collections, c, k);
      }
    }
  }

  /** A collection records without posting: on a replayed row, or on a debit whose journal key was taken. */
  predicate Unposted(s: FeeState, i: nat, key: string)
    requires i < |s.assessments|
  {
    ReplayOf(s, i, key).Some? || HasEntry(s.books.gl.entries, GlKey(SystemDebit, DebitKey(key)))
  }

  function LiabilityOf(s: FeeState, i: nat): Uuid
    requires i < |s.assessments|
  {
    match PrimaryAccount(s.books.accounts, s.assessments[i].charge.target)
    case None => NIL
    case Some(owner) =>
      var a := FindAccount(s.books.accounts, owner.id);
      if a.Some? then a.value.liability else NIL
  }

  /** How far a collection moves receivable `g` ahead of its outstanding fees. */
  function CollectionSlip(s: FeeState, i: nat, receivable: Uuid, key: string, g: Uuid): int
    requires i < |s.assessments|
  {
    if Unposted(s, i, key) then On(TakenBy(s, i, key), receivable, g) else On(TakenBy(s, i, key), LiabilityOf(s, i), g)
  }

  lemma AutoCollectDrift(s: FeeState, i: nat, receivable: Uuid, key: string, month: int, g: GlAccount)
    requires FeeTables(s) && i < |s.assessments| && AutoCollect(s, i, receivable, key, month).Ok?
    requires AutoCollect(s, i, receivable, key, month).value != s
    requires receivable == g.id <==> CodeOf(s.catalog, s.assessments[i]) == Some(g.code)
    ensures Drift(AutoCollect(s, i, receivable, key, month).value, g) == Drift(s, g) + CollectionSlip(s, i, receivable, key, g.id)
  {
    CollectedShape(s, i, receivable, key, month);
    CollectedBooks(s, i, receivable, key, month);
    var owner := PrimaryAccount(s.books.accounts, s.assessments[i].charge.target).value;
    var d := TakenBy(s, i, key);
    if ReplayOf(s, i, key).None? {
      RecordNet(s.books, SystemDebit, owner.id, FindAccount(s.books.accounts, owner.id).value.liability, receivable, d, DebitKey(key), month, g.id);
    }
    OutstandingCollected(s, i, Collection(s.assessments[i].id, d, DebitKey(key)),
                         if ReplayOf(s, i, key).Some? || d == s.assessments[i].amount then Paid else PartiallyPaid, g.code);
  }

  /** With the key spaces apart a collection posts all it records. */
  lemma CollectionsPost(s: FeeState, i: nat, receivable: Uuid, key: string, month: int)
    requires FeeInv(s) && i < |s.assessments| && AutoCollect(s, i, receivable, key, month).Ok?
    requires AutoCollect(s, i, receivable, key, month).value != s
    ensures PrimaryAccount(s.books.accounts, s.assessments[i].charge.target).Some?
    ensures !Unposted(s, i, key) && LiabilityOf(s, i) == PrimaryAccount(s.books.accounts, s.assessments[i].charge.target).value.liability
  {
    CollectedFresh(s, i, receivable, key, month);
    var owner := PrimaryAccount(s.books.accounts, s.assessments[i].charge.target).value;
    FindIsUnique(s.books.accounts, owner);
    RecordPosts(s.books, SystemDebit, owner.id, owner.liability, receivable, Min(Balance(s.books.txns, owner.id), s.assessments[i].amount), DebitKey(key), month);
  }

  // ── Assessment ──────────────────────────────────────────────────────────────

  lemma AssessingTables(s: FeeState, id: Uuid, c: Charge, key: string)
    requires FeeTables(s) && Assessing(s, id, c, key).Ok?
    ensures FeeTables(Assessing(s, id, c, key).value)
    ensures PaidCovered(Assessing(s, id, c, key).value) <==> PaidCovered(s)
  {
    var s' := Assessing(s, id, c, key).value;
    forall x | x in s.collections ensures GoodCollection(s'.assessments, x) {
      FindStays(s.assessments, s'.assessments, x.assessment);
    }
    forall j | 0 <= j < |s'.assessments| ensures Listed(s.catalog, s'.assessments[j]) {
      if j < |s.assessments| { assert s.assessments[j] in s.assessments; }
    }
  }

  lemma AssessingKeeps(s: FeeState, id: Uuid, c: Charge, key: string)
    requires FeeInv(s) && Assessing(s, id, c, key).Ok?
    ensures FeeInv(Assessing(s, id, c, key).value)
  {
    var s' := Assessing(s, id, c, key).value;
    var ft := s.catalog[c.feeType];
    var lines := [Line(ByCode(s.books.gl.chart, ft.receivable).value.id, ft.amount, 0),
                  Line(ByCode(s.books.gl.chart, ft.income).value.id, 0, ft.amount)];
    AssessKeyForeign(key);
    AssessingTables(s, id, c, key);
    JournalKeeps(s.books, AssessKey(key), lines);
    forall k | HasEntry(s'.books.gl.entries, ManualKey(k)) ensures HasCollection(s.collections, k) {
      AssessIsNotManual(key, k);
      HasEntryAppend(s.books.gl.entries, Entry(AssessKey(key), lines), ManualKey(k));
    }
  }

  /** What the assessment's own entry leaves amiss on `g`: its income leg, or the whole of it under a taken key. */
  function EntrySlip(s: FeeState, c: Charge, key: string, code: string): int
    requires c.feeType in s.catalog
  {
    var ft := s.catalog[c.feeType];
    var missed := if HasEntry(s.books.gl.entries, AssessKey(key)) then ft.receivable == code else ft.income == code;
    if missed then -ft.amount else 0
  }

  /** What the assessment's entry posts on `g`. */
  lemma AssessingNet(s: FeeState, id: Uuid, c: Charge, key: string, g: GlAccount)
    requires Names(s.books.gl.chart, g) && Assessing(s, id, c, key).Ok?
    ensures c.feeType in s.catalog
    ensures var ft := s.catalog[c.feeType];
      Net(Assessing(s, id, c, key).value.books.gl.entries, g.id) == Net(s.books.gl.entries, g.id)
        + if HasEntry(s.books.gl.entries, AssessKey(key)) then 0
          else (if ft.income == g.code then ft.amount else 0) - (if ft.receivable == g.code then ft.amount else 0)
  {
    var ft := s.catalog[c.feeType];
    var receivable, income := ByCode(s.books.gl.chart, ft.receivable).value, ByCode(s.books.gl.chart, ft.income).value;
    var l, m := Line(receivable.id, ft.amount, 0), Line(income.id, 0, ft.amount);
    NetAppend(s.books.gl.entries, Entry(AssessKey(key), [l, m]), g.id);
    TwoLines(l, m, g.id);
  }

  lemma AssessingDrift(s: FeeState, id: Uuid, c: Charge, key: string, g: GlAccount)
    requires FeeTables(s) && Names(s.books.gl.chart, g) && Assessing(s, id, c, key).Ok?
    ensures Drift(Assessing(s, id, c, key).value, g) == Drift(s, g) + EntrySlip(s, c, key, g.code)
  {
    AssessingNet(s, id, c, key, g);
    OutstandingAssessed(s, Assessment(id, c, s.catalog[c.feeType].amount, Assessed), g.code);
  }

  // ── Manual collection ───────────────────────────────────────────────────────

  lemma CollectKeeps(s: FeeState, id: Uuid, amount: int, contra: Uuid, key: string)
    requires FeeInv(s) && Collect(s, id, amount, contra, key).Ok?
    ensures FeeInv(Collect(s, id, amount, contra, key).value)
  {
    var s' := Collect(s, id, amount, contra, key).value;
    if !HasCollection(s.collections, key) {
      var i := Find(s.assessments, id);
      var a := s.assessments[i];
      var receivable := ByCode(s.books.gl.chart, s.catalog[a.charge.feeType].receivable).value;
      var lines := [Line(contra, amount, 0), Line(receivable.id, 0, amount)];
      var c := Collection(id, amount, key);
      FeeKeysApart(key, key);
      JournalKeeps(s.books, ManualKey(key), lines);
      TablesKeep(s, i, c, if Collected(s.collections, id) + amount >= a.amount then Paid else PartiallyPaid);
      PaidAfterCollection(s, i, c, if Collected(s.collections, id) + amount >= a.amount then Paid else PartiallyPaid);
      forall k | HasEntry(s'.books.gl.entries, ManualKey(k)) ensures HasCollection(s'.collections, k) {
        HasEntryAppend(s.books.gl.entries, Entry(ManualKey(key), lines), ManualKey(k));
        FeeKeysApart(k, key);
        HasCollectionAppend(s.collections, c, k);
      }
      forall k | HasTxn(s'.books.txns, DebitKey(k)) ensures HasCollection(s'.collections, DebitKey(k)) {
        HasCollectionAppend(s.collections, c, DebitKey(k));
      }
    }
  }

  lemma CollectBooks(s: FeeState, id: Uuid, amount: int, contra: Uuid, key: string)
    requires Collect(s, id, amount, contra, key).Ok? && !HasCollection(s.collections, key)
    ensures Find(s.assessments, id) < |s.assessments|
    ensures var receivable := ReceivableOf(s, s.assessments[Find(s.assessments, id)].charge);
      Collect(s, id, amount, contra, key).value.books.gl.entries
      == s.books.gl.entries + if HasEntry(s.books.gl.entries, ManualKey(key)) then []
                              else [Entry(ManualKey(key), [Line(contra, amount, 0), Line(receivable, 0, amount)])]
  {
    assert s.books.gl.entries + [] == s.books.gl.entries;
  }

  lemma CollectEntry(s: FeeState, id: Uuid, amount: int, contra: Uuid, key: string, g: Uuid)
    requires Collect(s, id, amount, contra, key).Ok? && !HasCollection(s.collections, key)
    ensures Find(s.assessments, id) < |s.assessments|
    ensures Net(Collect(s, id, amount, contra, key).value.books.gl.entries, g)
      == Net(s.books.gl.entries, g)
       + if HasEntry(s.books.gl.entries, ManualKey(key)) then 0
         else On(amount, ReceivableOf(s, s.assessments[Find(s.assessments, id)].charge), g) - On(amount, contra, g)
  {
    CollectBooks(s, id, amount, contra, key);
    assert s.books.gl.entries + [] == s.books.gl.entries;
    var l, m := Line(contra, amount, 0), Line(ReceivableOf(s, s.assessments[Find(s.assessments, id)].charge), 0, amount);
    NetAppend(s.books.gl.entries, Entry(ManualKey(key), [l, m]), g);
    TwoLines(l, m, g);
  }

  /** How far a manual collection moves `g` ahead: its contra leg, or the whole of it under a taken key. */
  function ManualSlip(s: FeeState, i: nat, amount: int, contra: Uuid, key: string, g: Uuid): int
    requires i < |s.assessments|
  {
    if HasEntry(s.books.gl.entries, ManualKey(key)) then On(amount, ReceivableOf(s, s.assessments[i].charge), g) else On(amount, contra, g)
  }

  lemma CollectDrift(s: FeeState, id: Uuid, amount: int, contra: Uuid, key: string, g: GlAccount)
    requires FeeTables(s) && Names(s.books.gl.chart, g) && Collect(s, id, amount, contra, key).Ok?
    requires !HasCollection(s.collections, key)
    ensures Find(s.assessments, id) < |s.assessments|
    ensures Drift(Collect(s, id, amount, contra, key).value, g)
         == Drift(s, g) + ManualSlip(s, Find(s.assessments, id), amount, contra, key, g.id)
  {
    CollectEntry(s, id, amount, contra, key, g.id);
    var i := Find(s.assessments, id);
    OutstandingCollected(s, i, Collection(id, amount, key),
                         if Collected(s.collections, id) + amount >= s.assessments[i].amount then Paid else PartiallyPaid, g.code);
  }

  // ── Whole runs ──────────────────────────────────────────────────────────────

  lemma ElsewhereKeeps(s: FeeState, op: BookOp)
    requires FeeInv(s) && FeesApart(op)
    ensures FeeInv(s.(books := BookStep(s.books, op)))
  {
    var b, b' := s.books, BookStep(s.books, op);
    StepKeeps(b, op);
    BookStepShape(b, op);
    forall k | HasTxn(b'.txns, DebitKey(k)) ensures HasCollection(s.collections, DebitKey(k)) {
      PrefixFacts("fee-collect-", k);
      if b'.txns != b.txns {
        HasTxnAppend(b.txns, b'.txns[|b.txns|], DebitKey(k));
      }
    }
    forall k | HasEntry(b'.gl.entries, ManualKey(k)) ensures HasCollection(s.collections, k) {
      EntryElsewhere(b, op, k);
    }
  }

  /** No other caller's entry lands under a fee key. */
  lemma EntryElsewhere(b: Books, op: BookOp, k: string)
    requires FeesApart(op)
    ensures HasEntry(BookStep(b, op).gl.entries, ManualKey(k)) <==> HasEntry(b.gl.entries, ManualKey(k))
    ensures HasEntry(BookStep(b, op).gl.entries, AssessKey(k)) <==> HasEntry(b.gl.entries, AssessKey(k))
  {
    var b' := BookStep(b, op);
    BookStepShape(b, op);
    if b'.gl.entries != b.gl.entries {
      HasEntryAppend(b.gl.entries, b'.gl.entries[|b.gl.entries|], ManualKey(k));
      HasEntryAppend(b.gl.entries, b'.gl.entries[|b.gl.entries|], AssessKey(k));
      PrefixFacts("fee-manual-collect-", k);
      PrefixFacts("fee-assess-", k);
      match op
      case Deposits(_, _, _, key, _) => ManualKeyIsNoSavingsKey(Deposit, key, k);
      case SystemCredits(_, _, _, key, _) => ManualKeyIsNoSavingsKey(SystemCredit, key, k);
      case SystemDebits(_, _, _, key, _, _, _) => ManualKeyIsNoSavingsKey(SystemDebit, key, k);
      case Withdraws(_, _, _, _, key, _) => ManualKeyIsNoSavingsKey(Withdrawal, key, k);
      case Journal(_, _) =>
      case Opens(_) =>
      case Charts(_) =>
    }
  }

  lemma FeeStepKeeps(s: FeeState, op: FeeOp)
    requires FeeInv(s) && OpApart(op)
    ensures FeeInv(FeeStep(s, op))
  {
    if FeeAttempt(s, op).Ok? {
      match op
      case Adds(_, _) =>
      case Patches(_, _, _) =>
      case Assesses(id, charge, key, month) =>
        if !HasCharge(s.assessments, charge) {
          AssessingKeeps(s, id, charge, key);
          var s1 := Assessing(s, id, charge, key).value;
          if s.catalog[charge.feeType].requiresCollection {
            AutoCollectKeeps(s1, |s.assessments|, ReceivableOf(s, charge), key, month);
          }
        }
      case Retries(id, today, month) =>
        if FeeStep(s, op) != s {
          var i := Find(s.assessments, id);
          AutoCollectKeeps(s, i, ReceivableOf(s, s.assessments[i].charge), RetryKey(id, today), month);
        }
      case Collects(id, amount, contra, key) => CollectKeeps(s, id, amount, contra, key);
      case Elsewhere(o) => ElsewhereKeeps(s, o);
    }
  }

  /** The arguments that keep receivable `g` in agreement. Savings liabilities are never receivables. */
  predicate FeeNeutral(s: FeeState, op: FeeOp, g: GlAccount) {
    match op
    case Adds(_, row) => row.income != g.code
    case Patches(_, _, _) => true
    case Assesses(_, charge, _, _) => charge.feeType in s.catalog ==> s.catalog[charge.feeType].income != g.code
    case Retries(_, _, _) => true
    case Collects(_, _, contra, _) => contra != g.id
    case Elsewhere(o) =>
      && Avoids(s.books, o, g.id)
      && (o.Opens? ==> o.owner.liability != g.id)
      && (o.Charts? ==> (o.gl.code == g.code <==> o.gl.id == g.id))
  }

  ghost predicate Apart(s: FeeState, g: GlAccount) {
    Names(s.books.gl.chart, g) && forall a :: a in s.books.accounts ==> a.liability != g.id
  }

  lemma CatalogDrift(s: FeeState, op: FeeOp, g: GlAccount)
    requires FeeTables(s) && (op.Adds? || op.Patches?)
    ensures Drift(FeeStep(s, op), g) == Drift(s, g)
  {
    var s' := FeeStep(s, op);
    assert forall a :: a in s.assessments ==> CodeOf(s'.catalog, a) == CodeOf(s.catalog, a);
    SumEqual(s.assessments, Owed(s.catalog, s.collections, g.code), Owed(s'.catalog, s.collections, g.code));
  }

  /** The inline collection's part of an assessment. */
  function InlineSlip(s: FeeState, id: Uuid, c: Charge, key: string, g: Uuid): int
    requires Assessing(s, id, c, key).Ok?
  {
    var s1 := Assessing(s, id, c, key).value;
    if s.catalog[c.feeType].requiresCollection && TakenBy(s1, |s.assessments|, key) > 0
    then CollectionSlip(s1, |s.assessments|, ReceivableOf(s, c), key, g) else 0
  }

  /** A collection with anything to take changes the tables, or fails. */
  lemma CollectionCommits(s: FeeState, i: nat, receivable: Uuid, key: string, month: int)
    requires i < |s.assessments| && s.assessments[i].amount > 0 && AutoCollect(s, i, receivable, key, month).Ok?
    ensures AutoCollect(s, i, receivable, key, month).value != s <==> TakenBy(s, i, key) > 0
  {
    if AutoCollect(s, i, receivable, key, month).value != s { CollectedShape(s, i, receivable, key, month); }
  }

  lemma AssessDrift(s: FeeState, id: Uuid, c: Charge, key: string, month: int, g: GlAccount)
    requires FeeTables(s) && Names(s.books.gl.chart, g) && !HasCharge(s.assessments, c) && Assess(s, id, c, key, month).Ok?
    ensures Assessing(s, id, c, key).Ok?
    ensures Drift(Assess(s, id, c, key, month).value, g) == Drift(s, g) + EntrySlip(s, c, key, g.code) + InlineSlip(s, id, c, key, g.id)
  {
    AssessingTables(s, id, c, key);
    AssessingDrift(s, id, c, key, g);
    var s1, receivable := Assessing(s, id, c, key).value, ReceivableOf(s, c);
    if s.catalog[c.feeType].requiresCollection {
      CollectionCommits(s1, |s.assessments|, receivable, key, month);
      if TakenBy(s1, |s.assessments|, key) > 0 { AutoCollectDrift(s1, |s.assessments|, receivable, key, month, g); }
    }
  }

  /**
   * How far a committed step moves receivable `g` ahead of its outstanding fees: what its keys kept it from
   * posting, and what other uses of the account post to it.
   */
  function Slip(s: FeeState, op: FeeOp, g: GlAccount): int {
    if FeeStep(s, op) == s then 0
    else match op
      case Assesses(id, c, key, _) =>
        if Assessing(s, id, c, key).Err? then 0 else EntrySlip(s, c, key, g.code) + InlineSlip(s, id, c, key, g.id)
      case Retries(id, today, _) =>
        var i := Find(s.assessments, id);
        if i < |s.assessments| then CollectionSlip(s, i, ReceivableOf(s, s.assessments[i].charge), RetryKey(id, today), g.id) else 0
      case Collects(id, amount, contra, key) =>
        var i := Find(s.assessments, id);
        if i < |s.assessments| then ManualSlip(s, i, amount, contra, key, g.id) else 0
      case Elsewhere(o) => -LedgerMove(s.books, o, g.id)
      case _ => 0
  }

  /** One step, exactly, whoever uses whose keys and accounts. */
  lemma StepDrift(s: FeeState, op: FeeOp, g: GlAccount)
    requires FeeTables(s) && Names(s.books.gl.chart, g)
    ensures Drift(FeeStep(s, op), g) == Drift(s, g) + Slip(s, op, g)
  {
    if FeeStep(s, op) != s {
      match op
      case Adds(_, _) => CatalogDrift(s, op, g);
      case Patches(_, _, _) => CatalogDrift(s, op, g);
      case Assesses(id, charge, key, month) => AssessDrift(s, id, charge, key, month, g);
      case Retries(id, today, month) =>
        var i := Find(s.assessments, id);
        AutoCollectDrift(s, i, ReceivableOf(s, s.assessments[i].charge), RetryKey(id, today), month, g);
      case Collects(id, amount, contra, key) => CollectDrift(s, id, amount, contra, key, g);
      case Elsewhere(o) => StepNet(s.books, o, g.id);
    }
  }

  /** Under the invariant an inline collection posts all it records, to accounts that are not receivables. */
  lemma InlinePosts(s: FeeState, id: Uuid, c: Charge, key: string, month: int, g: GlAccount)
    requires FeeInv(s) && Apart(s, g) && !HasCharge(s.assessments, c) && Assess(s, id, c, key, month).Ok?
    ensures Assessing(s, id, c, key).Ok? && InlineSlip(s, id, c, key, g.id) == 0 && s.catalog[c.feeType].amount > 0
  {
    AssessingKeeps(s, id, c, key);
    var s1, receivable := Assessing(s, id, c, key).value, ReceivableOf(s, c);
    if s.catalog[c.feeType].requiresCollection && TakenBy(s1, |s.assessments|, key) > 0 {
      CollectionCommits(s1, |s.assessments|, receivable, key, month);
      CollectionsPost(s1, |s.assessments|, receivable, key, month);
    }
  }

  /** With key spaces and accounts apart, and assessment keys that name their charge, nothing slips. */
  lemma ApartNeverSlips(s: FeeState, op: FeeOp, g: GlAccount, chargeOf: string -> Charge)
    requires FeeInv(s) && OpApart(op) && FeeNeutral(s, op, g) && Apart(s, g)
    requires ChargesCovered(s.books.gl.entries, s.assessments, chargeOf)
    requires op.Assesses? ==> chargeOf(op.key) == op.charge
    ensures Slip(s, op, g) == 0
  {
    if FeeStep(s, op) != s {
      match op
      case Assesses(id, charge, key, month) => InlinePosts(s, id, charge, key, month, g);
      case Retries(id, today, month) =>
        var i := Find(s.assessments, id);
        CollectionsPost(s, i, ReceivableOf(s, s.assessments[i].charge), RetryKey(id, today), month);
      case Elsewhere(o) => AvoidsKeepsNet(s.books, o, g.id);
      case _ =>
    }
  }

  /** Every neutral step keeps the receivable in agreement, given that assessment keys name their charge. */
  lemma FeeStepDrift(s: FeeState, op: FeeOp, g: GlAccount, chargeOf: string -> Charge)
    requires FeeInv(s) && OpApart(op) && FeeNeutral(s, op, g) && Apart(s, g)
    requires ChargesCovered(s.books.gl.entries, s.assessments, chargeOf)
    requires op.Assesses? ==> chargeOf(op.key) == op.charge
    ensures Drift(FeeStep(s, op), g) == Drift(s, g)
  {
    StepDrift(s, op, g);
    ApartNeverSlips(s, op, g, chargeOf);
  }

  lemma HasChargeStays(before: seq<Assessment>, after: seq<Assessment>, c: Charge)
    requires |after| >= |before| && forall i :: 0 <= i < |before| ==> after[i].charge == before[i].charge
    requires HasCharge(before, c)
    ensures HasCharge(after, c)
  {
    var i :| 0 <= i < |before| && before[i].charge == c;
    assert after[i].charge == c;
  }

  /** `after` grew from `before`: rows and collections are only added, and a row keeps all but its status. */
  predicate Grew(before: FeeState, after: FeeState) {
    && |before.assessments| <= |after.assessments| && before.collections <= after.collections
    && forall i :: 0 <= i < |before.assessments| ==>
         after.assessments[i].(status := before.assessments[i].status) == before.assessments[i]
  }

  lemma AutoCollectRows(s: FeeState, i: nat, receivable: Uuid, key: string, month: int)
    requires i < |s.assessments| && AutoCollect(s, i, receivable, key, month).Ok?
    ensures var s' := AutoCollect(s, i, receivable, key, month).value;
      Grew(s, s') && forall j :: 0 <= j < |s.assessments| && j != i ==> s'.assessments[j] == s.assessments[j]
  {
    if AutoCollect(s, i, receivable, key, month).value != s { CollectedShape(s, i, receivable, key, month); }
  }

  /** Fee tables only grow, and a row keeps its id, its charge and its amount. */
  lemma RowsStay(s: FeeState, op: FeeOp)
    ensures Grew(s, FeeStep(s, op))
  {
    if FeeStep(s, op) != s {
      match op
      case Assesses(id, charge, key, month) =>
        if s.catalog[charge.feeType].requiresCollection {
          AutoCollectRows(Assessing(s, id, charge, key).value, |s.assessments|, ReceivableOf(s, charge), key, month);
        }
      case Retries(id, today, month) =>
        var i := Find(s.assessments, id);
        AutoCollectRows(s, i, ReceivableOf(s, s.assessments[i].charge), RetryKey(id, today), month);
      case _ =>
    }
  }

  lemma ChargesStayCovered(s: FeeState, op: FeeOp, chargeOf: string -> Charge)
    requires FeeInv(s) && OpApart(op) && ChargesCovered(s.books.gl.entries, s.assessments, chargeOf)
    requires op.Assesses? ==> chargeOf(op.key) == op.charge
    ensures ChargesCovered(FeeStep(s, op).books.gl.entries, FeeStep(s, op).assessments, chargeOf)
  {
    var s' := FeeStep(s, op);
    RowsStay(s, op);
    forall k | HasEntry(s'.books.gl.entries, AssessKey(k)) ensures HasCharge(s'.assessments, chargeOf(k)) {
      AssessEntries(s, op, k);
      if HasEntry(s.books.gl.entries, AssessKey(k)) {
        HasChargeStays(s.assessments, s'.assessments, chargeOf(k));
      }
    }
  }

  lemma CollectEntries(s: FeeState, i: nat, receivable: Uuid, key: string, month: int, k: string)
    requires FeeInv(s) && i < |s.assessments| && AutoCollect(s, i, receivable, key, month).Ok?
    ensures HasEntry(AutoCollect(s, i, receivable, key, month).value.books.gl.entries, AssessKey(k)) <==> HasEntry(s.books.gl.entries, AssessKey(k))
  {
    var s' := AutoCollect(s, i, receivable, key, month).value;
    if s' != s {
      CollectedFresh(s, i, receivable, key, month);
      var owner := PrimaryAccount(s.books.accounts, s.assessments[i].charge.target).value;
      var d := Min(Balance(s.books.txns, owner.id), s.assessments[i].amount);
      RecordShape(s.books, SystemDebit, owner.id, owner.liability, receivable, d, DebitKey(key), month);
      RecordPosts(s.books, SystemDebit, owner.id, owner.liability, receivable, d, DebitKey(key), month);
      ManualKeyIsNoSavingsKey(SystemDebit, DebitKey(key), k);
      HasEntryAppend(s.books.gl.entries, Entry(GlKey(SystemDebit, DebitKey(key)), Legs(SystemDebit, owner.liability, receivable, d)), AssessKey(k));
    }
  }

  lemma PostEntries(gl: Gl, key: string, lines: seq<Line>, k: string)
    requires Post(gl, key, lines).Ok? && HasEntry(Post(gl, key, lines).value.entries, AssessKey(k))
    ensures HasEntry(gl.entries, AssessKey(k)) || AssessKey(k) == key
  {
    HasEntryAppend(gl.entries, Entry(key, lines), AssessKey(k));
  }

  lemma AssessingEntries(s: FeeState, id: Uuid, c: Charge, key: string, k: string)
    requires Assessing(s, id, c, key).Ok? && HasEntry(Assessing(s, id, c, key).value.books.gl.entries, AssessKey(k))
    ensures HasEntry(s.books.gl.entries, AssessKey(k)) || key == k
  {
    var ft := s.catalog[c.feeType];
    var receivable, income := ByCode(s.books.gl.chart, ft.receivable).value, ByCode(s.books.gl.chart, ft.income).value;
    PostEntries(s.books.gl, AssessKey(key), [Line(receivable.id, ft.amount, 0), Line(income.id, 0, ft.amount)], k);
    FeeKeysApart(k, key);
  }

  lemma AssessesEntries(s: FeeState, id: Uuid, c: Charge, key: string, month: int, k: string)
    requires FeeInv(s) && !HasCharge(s.assessments, c) && Assess(s, id, c, key, month).Ok?
    requires HasEntry(Assess(s, id, c, key, month).value.books.gl.entries, AssessKey(k))
    ensures HasEntry(s.books.gl.entries, AssessKey(k)) || key == k
    ensures HasCharge(Assess(s, id, c, key, month).value.assessments, c)
  {
    var s1 := Assessing(s, id, c, key).value;
    assert s1.assessments[|s.assessments|].charge == c;
    if s.catalog[c.feeType].requiresCollection {
      AssessingKeeps(s, id, c, key);
      CollectEntries(s1, |s.assessments|, ReceivableOf(s, c), key, month, k);
      AutoCollectRows(s1, |s.assessments|, ReceivableOf(s, c), key, month);
      assert Assess(s, id, c, key, month).value.assessments[|s.assessments|].charge == c;
    }
    AssessingEntries(s, id, c, key, k);
  }

  lemma CollectsEntries(s: FeeState, id: Uuid, amount: int, contra: Uuid, key: string, k: string)
    requires Collect(s, id, amount, contra, key).Ok?
    requires HasEntry(Collect(s, id, amount, contra, key).value.books.gl.entries, AssessKey(k))
    ensures HasEntry(s.books.gl.entries, AssessKey(k))
  {
    if !HasCollection(s.collections, key) {
      var c := s.assessments[Find(s.assessments, id)].charge;
      var receivable := ByCode(s.books.gl.chart, s.catalog[c.feeType].receivable).value;
      PostEntries(s.books.gl, ManualKey(key), [Line(contra, amount, 0), Line(receivable.id, 0, amount)], k);
      FeeKeysApart(k, key);
    }
  }

  /** An assessment entry appears only together with its assessment. */
  lemma AssessEntries(s: FeeState, op: FeeOp, k: string)
    requires FeeInv(s) && OpApart(op)
    requires HasEntry(FeeStep(s, op).books.gl.entries, AssessKey(k))
    ensures HasEntry(s.books.gl.entries, AssessKey(k))
         || (op.Assesses? && op.key == k && HasCharge(FeeStep(s, op).assessments, op.charge))
  {
    if FeeStep(s, op) != s {
      match op
      case Adds(_, _) =>
      case Patches(_, _, _) =>
      case Assesses(id, charge, key, month) => AssessesEntries(s, id, charge, key, month, k);
      case Retries(id, today, month) =>
        var i := Find(s.assessments, id);
        CollectEntries(s, i, ReceivableOf(s, s.assessments[i].charge), RetryKey(id, today), month, k);
      case Collects(id, amount, contra, key) => CollectsEntries(s, id, amount, contra, key, k);
      case Elsewhere(o) => EntryElsewhere(s.books, o, k);
    }
  }

  lemma AutoCollectFrame(s: FeeState, i: nat, receivable: Uuid, key: string, month: int)
    requires i < |s.assessments| && AutoCollect(s, i, receivable, key, month).Ok?
    ensures var s' := AutoCollect(s, i, receivable, key, month).value;
      s'.books.gl.chart == s.books.gl.chart && s'.books.accounts == s.books.accounts
  {
  }

  /** Fee operations open no account and add none to the chart. */
  lemma FeeFrame(s: FeeState, op: FeeOp)
    requires !op.Elsewhere?
    ensures FeeStep(s, op).books.gl.chart == s.books.gl.chart && FeeStep(s, op).books.accounts == s.books.accounts
  {
    if op.Assesses? && FeeAttempt(s, op).Ok? && !HasCharge(s.assessments, op.charge) {
      if s.catalog[op.charge.feeType].requiresCollection {
        AutoCollectFrame(Assessing(s, op.id, op.charge, op.key).value, |s.assessments|,
                         ReceivableOf(s, op.charge), op.key, op.month);
      }
    } else if op.Retries? && FeeStep(s, op) != s {
      var i := Find(s.assessments, op.id);
      AutoCollectFrame(s, i, ReceivableOf(s, s.assessments[i].charge), RetryKey(op.id, op.today), op.month);
    }
  }

  lemma ApartStays(s: FeeState, op: FeeOp, g: GlAccount)
    requires Apart(s, g) && FeeNeutral(s, op, g)
    ensures Apart(FeeStep(s, op), g)
  {
    if op.Elsewhere? {
      BookStepShape(s.books, op.op);
    } else {
      FeeFrame(s, op);
    }
  }

  lemma AutoCollectTables(s: FeeState, i: nat, receivable: Uuid, key: string, month: int)
    requires FeeTables(s) && i < |s.assessments| && AutoCollect(s, i, receivable, key, month).Ok?
    ensures FeeTables(AutoCollect(s, i, receivable, key, month).value)
  {
    if AutoCollect(s, i, receivable, key, month).value != s {
      CollectedShape(s, i, receivable, key, month);
      var d := TakenBy(s, i, key);
      TablesKeep(s, i, Collection(s.assessments[i].id, d, DebitKey(key)),
                 if ReplayOf(s, i, key).Some? || d == s.assessments[i].amount then Paid else PartiallyPaid);
    }
  }

  lemma StepTables(s: FeeState, op: FeeOp)
    requires FeeTables(s)
    ensures FeeTables(FeeStep(s, op))
  {
    if FeeStep(s, op) != s {
      match op
      case Adds(_, _) =>
      case Patches(_, _, _) =>
      case Assesses(id, charge, key, month) =>
        AssessingTables(s, id, charge, key);
        if s.catalog[charge.feeType].requiresCollection {
          AutoCollectTables(Assessing(s, id, charge, key).value, |s.assessments|,
                            ReceivableOf(s, charge), key, month);
        }
      case Retries(id, today, month) =>
        var i := Find(s.assessments, id);
        AutoCollectTables(s, i, ReceivableOf(s, s.assessments[i].charge), RetryKey(id, today), month);
      case Collects(id, amount, contra, key) =>
        var i := Find(s.assessments, id);
        TablesKeep(s, i, Collection(id, amount, key),
                   if Collected(s.collections, id) + amount >= s.assessments[i].amount then Paid else PartiallyPaid);
      case Elsewhere(_) =>
    }
  }

  /** Every state a run passes through, from the first to the one it ends in. */
  function FeeTrace(s: FeeState, ops: seq<FeeOp>): (trace: seq<FeeState>)
    ensures |trace| == |ops| + 1 && trace[0] == s && trace[|ops|] == FeeRun(s, ops)
    decreases |ops|
  {
    if ops == [] then [s] else [s] + FeeTrace(FeeStep(s, ops[0]), ops[1..])
  }

  // ── Receivables ─────────────────────────────────────────────────────────────

  predicate NeverSlips(s: FeeState, ops: seq<FeeOp>, g: GlAccount)
    decreases |ops|
  {
    ops == [] || (Slip(s, ops[0], g) == 0 && NeverSlips(FeeStep(s, ops[0]), ops[1..], g))
  }

  lemma ChartStep(s: FeeState, op: FeeOp)
    requires DistinctAccounts(s.books.gl.chart)
    ensures s.books.gl.chart <= FeeStep(s, op).books.gl.chart && DistinctAccounts(FeeStep(s, op).books.gl.chart)
  {
    if op.Elsewhere? {
      if WritesTxn(op.op) { BookStepShape(s.books, op.op); } else { OtherStep(s.books, op.op); }
    } else {
      FeeFrame(s, op);
    }
  }

  /** The chart only grows, and keeps naming its accounts. */
  lemma {:induction false} ChartGrows(s: FeeState, ops: seq<FeeOp>)
    requires DistinctAccounts(s.books.gl.chart)
    ensures s.books.gl.chart <= FeeRun(s, ops).books.gl.chart && DistinctAccounts(FeeRun(s, ops).books.gl.chart)
    decreases |ops|
  {
    if ops != [] {
      ChartStep(s, ops[0]);
      ChartGrows(FeeStep(s, ops[0]), ops[1..]);
    }
  }

  /** An account of the final chart is named by its code in every earlier one. */
  lemma NamedInPrefix(before: seq<GlAccount>, chart: seq<GlAccount>, g: GlAccount)
    requires before <= chart && DistinctAccounts(chart) && g in chart
    ensures Names(before, g)
  {
    var j :| 0 <= j < |chart| && chart[j] == g;
    forall x | x in before ensures x.code == g.code <==> x.id == g.id {
      var i :| 0 <= i < |before| && before[i] == x;
      assert chart[i] == x;
    }
  }

  lemma {:induction false} RunAgreesIffNoSlip(s: FeeState, ops: seq<FeeOp>, g: GlAccount)
    requires FeeTables(s) && Drift(s, g) == 0 && DistinctAccounts(s.books.gl.chart) && g in FeeRun(s, ops).books.gl.chart
    ensures (forall x :: x in FeeTrace(s, ops) ==> Drift(x, g) == 0) <==> NeverSlips(s, ops, g)
    decreases |ops|
  {
    if ops != [] {
      var s' := FeeStep(s, ops[0]);
      ChartGrows(s, ops);
      NamedInPrefix(s.books.gl.chart, FeeRun(s, ops).books.gl.chart, g);
      StepDrift(s, ops[0], g);
      StepTables(s, ops[0]);
      ChartStep(s, ops[0]);
      assert FeeTrace(s, ops) == [s] + FeeTrace(s', ops[1..]) && s' in FeeTrace(s', ops[1..]);
      if Drift(s', g) == 0 { RunAgreesIffNoSlip(s', ops[1..], g); }
    }
  }

  /**
   * Every run of assessments, inline collections, retries, manual collections and anybody's savings
   * operations and postings, under any keys and on any accounts: the ledger balance of an account is what
   * was assessed on it minus what was collected, after every call, if and only if no call slips.
   */
  lemma ReceivablesAgree(ops: seq<FeeOp>, g: GlAccount)
    requires g in FeeRun(NO_FEES, ops).books.gl.chart && DebitNormal(g.kind)
    ensures (forall s :: s in FeeTrace(NO_FEES, ops) ==> AccountBalance(s.books.gl.entries, g.id, g.kind) == Outstanding(s, g.code))
       <==> NeverSlips(NO_FEES, ops, g)
  {
    RunAgreesIffNoSlip(NO_FEES, ops, g);
    assert forall s: FeeState :: Drift(s, g) == 0 <==> AccountBalance(s.books.gl.entries, g.id, g.kind) == Outstanding(s, g.code);
  }

  /** Keys that keep to their module and name their charge, and accounts used for one thing each. */
  ghost predicate Disciplined(s: FeeState, ops: seq<FeeOp>, g: GlAccount, chargeOf: string -> Charge)
    decreases |ops|
  {
    ops == [] || (&& OpApart(ops[0]) && FeeNeutral(s, ops[0], g)
                  && (ops[0].Assesses? ==> chargeOf(ops[0].key) == ops[0].charge)
                  && Disciplined(FeeStep(s, ops[0]), ops[1..], g, chargeOf))
  }

  /** Disciplined runs never slip. */
  lemma {:induction false} DisciplinedNeverSlip(s: FeeState, ops: seq<FeeOp>, g: GlAccount, chargeOf: string -> Charge)
    requires FeeInv(s) && Apart(s, g) && ChargesCovered(s.books.gl.entries, s.assessments, chargeOf) && Disciplined(s, ops, g, chargeOf)
    ensures NeverSlips(s, ops, g)
    decreases |ops|
  {
    if ops != [] {
      FeeStepKeeps(s, ops[0]);
      ApartNeverSlips(s, ops[0], g, chargeOf);
      ChargesStayCovered(s, ops[0], chargeOf);
      ApartStays(s, ops[0], g);
      DisciplinedNeverSlip(FeeStep(s, ops[0]), ops[1..], g, chargeOf);
    }
  }

  // ── Paid means paid ─────────────────────────────────────────────────────────

  /** A paid assessment's row never changes again. */
  lemma PaidIsFinal(s: FeeState, op: FeeOp, i: nat)
    requires FeeTables(s) && i < |s.assessments| && s.assessments[i].status == Paid
    ensures i < |FeeStep(s, op).assessments| && FeeStep(s, op).assessments[i] == s.assessments[i]
  {
    if FeeStep(s, op) != s {
      match op
      case Assesses(id, charge, key, month) =>
        if s.catalog[charge.feeType].requiresCollection {
          AutoCollectRows(Assessing(s, id, charge, key).value, |s.assessments|, ReceivableOf(s, charge), key, month);
        }
      case Retries(id, today, month) =>
        var k := Find(s.assessments, id);
        AutoCollectRows(s, k, ReceivableOf(s, s.assessments[k].charge), RetryKey(id, today), month);
      case _ =>
    }
  }

  lemma CollectedGrows(before: seq<Collection>, after: seq<Collection>, id: Uuid)
    requires before <= after && forall c :: c in after ==> c.amount > 0
    ensures Collected(after, id) >= Collected(before, id)
  {
    var more := after[|before|..];
    assert after == before + more;
    SumConcat(before, more, AmountFor(id));
    SumNonNegative(more, AmountFor(id));
  }

  lemma {:induction false} FeeRunPaid(s: FeeState, ops: seq<FeeOp>, i: nat)
    requires FeeTables(s) && i < |s.assessments| && s.assessments[i].status == Paid
    ensures i < |FeeRun(s, ops).assessments| && FeeRun(s, ops).assessments[i] == s.assessments[i]
    ensures FeeTables(FeeRun(s, ops)) && Collected(FeeRun(s, ops).collections, s.assessments[i].id) >= Collected(s.collections, s.assessments[i].id)
    decreases |ops|
  {
    if ops != [] {
      var s' := FeeStep(s, ops[0]);
      StepTables(s, ops[0]);
      PaidIsFinal(s, ops[0], i);
      RowsStay(s, ops[0]);
      CollectedGrows(s.collections, s'.collections, s.assessments[i].id);
      FeeRunPaid(s', ops[1..], i);
    }
  }

  lemma {:induction false} FeeRunTables(s: FeeState, ops: seq<FeeOp>)
    requires FeeTables(s)
    ensures FeeTables(FeeRun(s, ops))
    decreases |ops|
  {
    if ops != [] {
      StepTables(s, ops[0]);
      FeeRunTables(FeeStep(s, ops[0]), ops[1..]);
    }
  }

  /** In every run, whatever happens next, a paid fee stays paid and what was collected on it never shrinks. */
  lemma PaidIsForever(before: seq<FeeOp>, after: seq<FeeOp>, i: nat)
    requires i < |FeeRun(NO_FEES, before).assessments| && FeeRun(NO_FEES, before).assessments[i].status == Paid
    ensures var s := FeeRun(NO_FEES, before);
      var later := FeeRun(s, after);
      && i < |later.assessments| && later.assessments[i] == s.assessments[i]
      && Collected(later.collections, s.assessments[i].id) >= Collected(s.collections, s.assessments[i].id)
  {
    FeeRunTables(NO_FEES, before);
    FeeRunPaid(FeeRun(NO_FEES, before), after, i);
  }

  /** The row taken for a debit does not cover what is still owed. */
  predicate ShortReplay(s: FeeState, i: nat, key: string)
    requires i < |s.assessments|
  {
    var t := ReplayOf(s, i, key);
    t.Some? && Collected(s.collections, s.assessments[i].id) + t.value.amount < s.assessments[i].amount
  }

  /** The step marks a fee paid on the strength of a savings row that does not cover it. */
  predicate PaysShort(s: FeeState, op: FeeOp) {
    FeeStep(s, op) != s
    && match op
       case Assesses(id, c, key, _) =>
         Assessing(s, id, c, key).Ok? && s.catalog[c.feeType].requiresCollection
         && ShortReplay(Assessing(s, id, c, key).value, |s.assessments|, key)
       case Retries(id, today, _) =>
         Find(s.assessments, id) < |s.assessments| && ShortReplay(s, Find(s.assessments, id), RetryKey(id, today))
       case _ => false
  }

  lemma CollectionPaidIff(s: FeeState, i: nat, receivable: Uuid, key: string, month: int)
    requires FeeTables(s) && PaidCovered(s) && i < |s.assessments| && AutoCollect(s, i, receivable, key, month).Ok?
    ensures PaidCovered(AutoCollect(s, i, receivable, key, month).value) <==> !ShortReplay(s, i, key)
  {
    var s' := AutoCollect(s, i, receivable, key, month).value;
    assert s.assessments[i] in s.assessments;
    CollectionCommits(s, i, receivable, key, month);
    if s' != s {
      CollectedShape(s, i, receivable, key, month);
      CollectedNonNegative(s, s.assessments[i].id);
      var d := TakenBy(s, i, key);
      PaidAfterCollection(s, i, Collection(s.assessments[i].id, d, DebitKey(key)),
                          if ReplayOf(s, i, key).Some? || d == s.assessments[i].amount then Paid else PartiallyPaid);
    } else {
      assert ReplayOf(s, i, key).None?;
    }
  }

  /** A step keeps paid fees covered exactly when it does not pay one short. */
  lemma StepPaidIff(s: FeeState, op: FeeOp)
    requires FeeTables(s) && PaidCovered(s)
    ensures PaidCovered(FeeStep(s, op)) <==> !PaysShort(s, op)
  {
    if FeeStep(s, op) != s {
      match op
      case Adds(_, _) =>
      case Patches(_, _, _) =>
      case Assesses(id, charge, key, month) =>
        AssessingTables(s, id, charge, key);
        if s.catalog[charge.feeType].requiresCollection {
          CollectionPaidIff(Assessing(s, id, charge, key).value, |s.assessments|,
                            ReceivableOf(s, charge), key, month);
        }
      case Retries(id, today, month) =>
        var i := Find(s.assessments, id);
        CollectionPaidIff(s, i, ReceivableOf(s, s.assessments[i].charge), RetryKey(id, today), month);
      case Collects(id, amount, contra, key) =>
        var i := Find(s.assessments, id);
        PaidAfterCollection(s, i, Collection(id, amount, key),
                            if Collected(s.collections, id) + amount >= s.assessments[i].amount then Paid else PartiallyPaid);
      case Elsewhere(_) =>
    }
  }

  predicate NeverShort(s: FeeState, ops: seq<FeeOp>)
    decreases |ops|
  {
    ops == [] || (!PaysShort(s, ops[0]) && NeverShort(FeeStep(s, ops[0]), ops[1..]))
  }

  lemma {:induction false} RunPaidIff(s: FeeState, ops: seq<FeeOp>)
    requires FeeTables(s) && PaidCovered(s)
    ensures (forall x :: x in FeeTrace(s, ops) ==> PaidCovered(x)) <==> NeverShort(s, ops)
    decreases |ops|
  {
    if ops != [] {
      var s' := FeeStep(s, ops[0]);
      StepPaidIff(s, ops[0]);
      StepTables(s, ops[0]);
      assert FeeTrace(s, ops) == [s] + FeeTrace(s', ops[1..]) && s' in FeeTrace(s', ops[1..]);
      if PaidCovered(s') { RunPaidIff(s', ops[1..]); }
    }
  }

  /**
   * In every run, under any keys: each fee marked paid has collections that cover it, after every call, if
   * and only if no collection takes for its debit a savings row that does not cover what is owed.
   */
  lemma PaidMeansPaid(ops: seq<FeeOp>)
    ensures (forall s :: s in FeeTrace(NO_FEES, ops) ==> PaidCovered(s)) <==> NeverShort(NO_FEES, ops)
  {
    RunPaidIff(NO_FEES, ops);
  }

  /** Callers that keep out of the fee module's keys never cause a short payment. */
  lemma {:induction false} ApartNeverShort(s: FeeState, ops: seq<FeeOp>)
    requires FeeInv(s) && forall k :: 0 <= k < |ops| ==> OpApart(ops[k])
    ensures NeverShort(s, ops)
    decreases |ops|
  {
    if ops != [] {
      FeeStepKeeps(s, ops[0]);
      StepPaidIff(s, ops[0]);
      ApartNeverShort(FeeStep(s, ops[0]), ops[1..]);
    }
  }

  // ── Collected at most what is owed ──────────────────────────────────────────

  /** No fee has more collected on it than its amount. */
  ghost predicate WithinAmount(s: FeeState) { forall a :: a in s.assessments ==> Collected(s.collections, a.id) <= a.amount }

  /** What is left to collect on an assessment. */
  function LeftOn(s: FeeState, i: nat): int
    requires i < |s.assessments|
  {
    s.assessments[i].amount - Collected(s.collections, s.assessments[i].id)
  }

  /** Collecting from savings overshoots exactly when it takes more than is left, on its own debit or on a row it takes for one. */
  lemma OvercollectsIff(s: FeeState, i: nat, receivable: Uuid, key: string, month: int)
    requires i < |s.assessments| && AutoCollect(s, i, receivable, key, month).Ok?
    requires AutoCollect(s, i, receivable, key, month).value != s
    ensures Collected(AutoCollect(s, i, receivable, key, month).value.collections, s.assessments[i].id) <= s.assessments[i].amount
       <==> TakenBy(s, i, key) <= LeftOn(s, i)
  {
    CollectedShape(s, i, receivable, key, month);
    CollectedAppend(s.collections, Collection(s.assessments[i].id, TakenBy(s, i, key), DebitKey(key)), s.assessments[i].id);
  }

  /** The amount of a manual collection is never compared with what is left. */
  lemma CollectOvershootsIff(s: FeeState, id: Uuid, amount: int, contra: Uuid, key: string)
    requires Collect(s, id, amount, contra, key).Ok? && !HasCollection(s.collections, key)
    ensures Find(s.assessments, id) < |s.assessments|
    ensures var i := Find(s.assessments, id);
      Collected(Collect(s, id, amount, contra, key).value.collections, id) <= s.assessments[i].amount <==> amount <= LeftOn(s, i)
  {
    CollectedAppend(s.collections, Collection(id, amount, key), id);
  }

  /** The step takes more than is left on its fee. */
  predicate TakesTooMuch(s: FeeState, op: FeeOp) {
    FeeStep(s, op) != s
    && match op
       case Assesses(id, c, key, _) =>
         Assessing(s, id, c, key).Ok? && s.catalog[c.feeType].requiresCollection
         && var s1 := Assessing(s, id, c, key).value; TakenBy(s1, |s.assessments|, key) > LeftOn(s1, |s.assessments|)
       case Retries(id, today, _) =>
         var i := Find(s.assessments, id); i < |s.assessments| && TakenBy(s, i, RetryKey(id, today)) > LeftOn(s, i)
       case Collects(id, amount, _, _) =>
         var i := Find(s.assessments, id); i < |s.assessments| && amount > LeftOn(s, i)
       case _ => false
  }

  lemma WithinAfterCollection(s: FeeState, i: nat, c: Collection, status: FeeStatus)
    requires FeeTables(s) && WithinAmount(s) && i < |s.assessments| && s.assessments[i].id == c.assessment
    ensures WithinAmount(s.(assessments := SetStatus(s.assessments, i, status), collections := s.collections + [c]))
       <==> c.amount <= LeftOn(s, i)
  {
    var s' := s.(assessments := SetStatus(s.assessments, i, status), collections := s.collections + [c]);
    CollectedAppend(s.collections, c, c.assessment);
    assert s'.assessments[i] in s'.assessments;
    forall j | 0 <= j < |s.assessments| && j != i ensures Collected(s'.collections, s.assessments[j].id) <= s.assessments[j].amount {
      CollectedAppend(s.collections, c, s.assessments[j].id);
      assert s.assessments[j] in s.assessments;
    }
  }

  lemma CollectionWithinIff(s: FeeState, i: nat, receivable: Uuid, key: string, month: int)
    requires FeeTables(s) && WithinAmount(s) && i < |s.assessments| && AutoCollect(s, i, receivable, key, month).Ok?
    ensures WithinAmount(AutoCollect(s, i, receivable, key, month).value) <==> TakenBy(s, i, key) <= LeftOn(s, i)
  {
    assert s.assessments[i] in s.assessments;
    CollectionCommits(s, i, receivable, key, month);
    if AutoCollect(s, i, receivable, key, month).value != s {
      CollectedShape(s, i, receivable, key, month);
      var d := TakenBy(s, i, key);
      WithinAfterCollection(s, i, Collection(s.assessments[i].id, d, DebitKey(key)),
                            if ReplayOf(s, i, key).Some? || d == s.assessments[i].amount then Paid else PartiallyPaid);
    }
  }

  lemma AssessingWithin(s: FeeState, id: Uuid, c: Charge, key: string)
    requires FeeTables(s) && WithinAmount(s) && Assessing(s, id, c, key).Ok?
    ensures WithinAmount(Assessing(s, id, c, key).value)
  {
    NothingCollected(s.assessments, s.collections, id);
  }

  lemma StepWithinIff(s: FeeState, op: FeeOp)
    requires FeeTables(s) && WithinAmount(s)
    ensures WithinAmount(FeeStep(s, op)) <==> !TakesTooMuch(s, op)
  {
    if FeeStep(s, op) != s {
      match op
      case Adds(_, _) =>
      case Patches(_, _, _) =>
      case Assesses(id, charge, key, month) =>
        AssessingTables(s, id, charge, key);
        AssessingWithin(s, id, charge, key);
        if s.catalog[charge.feeType].requiresCollection {
          CollectionWithinIff(Assessing(s, id, charge, key).value, |s.assessments|, ReceivableOf(s, charge), key, month);
        }
      case Retries(id, today, month) =>
        var i := Find(s.assessments, id);
        CollectionWithinIff(s, i, ReceivableOf(s, s.assessments[i].charge), RetryKey(id, today), month);
      case Collects(id, amount, contra, key) =>
        var i := Find(s.assessments, id);
        WithinAfterCollection(s, i, Collection(id, amount, key),
                              if Collected(s.collections, id) + amount >= s.assessments[i].amount then Paid else PartiallyPaid);
      case Elsewhere(_) =>
    }
  }

  predicate NeverTooMuch(s: FeeState, ops: seq<FeeOp>)
    decreases |ops|
  {
    ops == [] || (!TakesTooMuch(s, ops[0]) && NeverTooMuch(FeeStep(s, ops[0]), ops[1..]))
  }

  lemma {:induction false} RunWithinIff(s: FeeState, ops: seq<FeeOp>)
    requires FeeTables(s) && WithinAmount(s)
    ensures (forall x :: x in FeeTrace(s, ops) ==> WithinAmount(x)) <==> NeverTooMuch(s, ops)
    decreases |ops|
  {
    if ops != [] {
      var s' := FeeStep(s, ops[0]);
      StepWithinIff(s, ops[0]);
      StepTables(s, ops[0]);
      assert FeeTrace(s, ops) == [s] + FeeTrace(s', ops[1..]) && s' in FeeTrace(s', ops[1..]);
      if WithinAmount(s') { RunWithinIff(s', ops[1..]); }
    }
  }

  /**
   * In every run, under any keys: no fee ever has more collected on it than its amount, after any call, if
   * and only if no committed assessment, retry or manual collection takes more than is left.
   */
  lemma CollectedWithinAmount(ops: seq<FeeOp>)
    ensures (forall s :: s in FeeTrace(NO_FEES, ops) ==> WithinAmount(s)) <==> NeverTooMuch(NO_FEES, ops)
  {
    RunWithinIff(NO_FEES, ops);
  }

  /** The case arises: a partly paid fee is retried once the member can pay all of it again. */
  lemma RetryTakesAllAgain(s: FeeState, i: nat, today: IsoDate, month: int)
    requires FeeTables(s) && i < |s.assessments| && RetryCommits(s, s.assessments[i].id, today, month)
    requires Collected(s.collections, s.assessments[i].id) > 0 && ReplayOf(s, i, RetryKey(s.assessments[i].id, today)).None?
    requires var owner := PrimaryAccount(s.books.accounts, s.assessments[i].charge.target);
      owner.Some? && Balance(s.books.txns, owner.value.id) >= s.assessments[i].amount
    ensures var s' := FeeStep(s, Retries(s.assessments[i].id, today, month));
      Collected(s'.collections, s.assessments[i].id) == Collected(s.collections, s.assessments[i].id) + s.assessments[i].amount
      && TakesTooMuch(s, Retries(s.assessments[i].id, today, month))
  {
    var a := s.assessments[i];
    assert a in s.assessments && Find(s.assessments, a.id) == i;
    CollectionCommits(s, i, ReceivableOf(s, a.charge), RetryKey(a.id, today), month);
    CollectedShape(s, i, ReceivableOf(s, a.charge), RetryKey(a.id, today), month);
    CollectedAppend(s.collections, Collection(a.id, a.amount, DebitKey(RetryKey(a.id, today))), a.id);
  }

  // ── Where the keys and the amounts fall short ───────────────────────────────

  /** Key of a scheduled assessment. */
  function SchedKey(feeType: Uuid, member: Uuid, period: IsoDate): string {
    UuidDateKey("sched-" + feeType + "-", member, period)
  }

  /** Key of an assessment made through the API; the target type is not part of it. */
  function ApiKey(c: Charge): string { UuidDateKey("manual-" + c.feeType + "-", c.target, c.period) }

  /** Scheduled keys name their charge: equal keys mean equal fee type, member and period. */
  lemma SchedKeyNamesCharge(f: Uuid, m: Uuid, p: IsoDate, f': Uuid, m': Uuid, p': IsoDate)
    requires SchedKey(f, m, p) == SchedKey(f', m', p')
    ensures f == f' && m == m' && p == p'
  {
    var s := SchedKey(f, m, p);
    assert s[6..42] == f && s[6..42] == f';
    UuidDateKeyInjective("sched-" + f + "-", m, p, m', p');
  }

  /**
   * A fresh assessment keeps its receivable in agreement exactly when what its inline collection leaves
   * unposted makes up for what its own entry does. Under the invariant that is when its journal key is unused.
   */
  lemma AssessAgreesIff(s: FeeState, id: Uuid, c: Charge, key: string, month: int, g: GlAccount)
    requires FeeTables(s) && Names(s.books.gl.chart, g) && !HasCharge(s.assessments, c) && Assess(s, id, c, key, month).Ok?
    requires c.feeType in s.catalog && s.catalog[c.feeType].income != g.code && s.catalog[c.feeType].receivable == g.code
    ensures Assessing(s, id, c, key).Ok?
    ensures Drift(Assess(s, id, c, key, month).value, g) == Drift(s, g)
       <==> InlineSlip(s, id, c, key, g.id) == if HasEntry(s.books.gl.entries, AssessKey(key)) then s.catalog[c.feeType].amount else 0
    ensures FeeInv(s) && Apart(s, g) ==>
              (Drift(Assess(s, id, c, key, month).value, g) == Drift(s, g) <==> !HasEntry(s.books.gl.entries, AssessKey(key)))
  {
    AssessDrift(s, id, c, key, month, g);
    if FeeInv(s) && Apart(s, g) { InlinePosts(s, id, c, key, month, g); }
  }

  /**
   * API keys do not name their charge: assessing the same target and period under a second target
   * type commits an assessment with no journal entry, and the receivable falls behind by its amount.
   */
  lemma ApiKeyLosesEntry(s: FeeState, id: Uuid, c: Charge, targetType: string, month: int, g: GlAccount)
    requires FeeInv(s) && Apart(s, g) && HasEntry(s.books.gl.entries, AssessKey(ApiKey(c)))
    requires var c2 := c.(targetType := targetType);
      && !HasCharge(s.assessments, c2) && Assess(s, id, c2, ApiKey(c2), month).Ok?
      && c.feeType in s.catalog && s.catalog[c.feeType].income != g.code && s.catalog[c.feeType].receivable == g.code
    ensures var c2 := c.(targetType := targetType);
      Drift(Assess(s, id, c2, ApiKey(c2), month).value, g) < Drift(s, g)
  {
    var c2 := c.(targetType := targetType);
    AssessDrift(s, id, c2, ApiKey(c2), month, g);
    InlinePosts(s, id, c2, ApiKey(c2), month, g);
  }

  /**
   * A savings row already under a collection's debit key is taken for the debit: the fee is marked paid
   * with that row's amount and no money moves. The mark is true exactly when that amount, with what was
   * collected before, covers the fee.
   */
  lemma SquattedDebitMarksPaid(s: FeeState, i: nat, receivable: Uuid, key: string, month: int, t: Txn)
    requires i < |s.assessments| && !HasCollection(s.collections, DebitKey(key)) && t.amount > 0
    requires var owner := PrimaryAccount(s.books.accounts, s.assessments[i].charge.target);
      owner.Some? && FindTxn(s.books.txns, owner.value.id, DebitKey(key)) == Some(t)
    ensures var after := s.(assessments := SetStatus(s.assessments, i, Paid),
                            collections := s.collections + [Collection(s.assessments[i].id, t.amount, DebitKey(key))]);
      && AutoCollect(s, i, receivable, key, month) == Ok(after)
      && (Collected(after.collections, s.assessments[i].id) >= s.assessments[i].amount
          <==> Collected(s.collections, s.assessments[i].id) + t.amount >= s.assessments[i].amount)
  {
    CollectedAppend(s.collections, Collection(s.assessments[i].id, t.amount, DebitKey(key)), s.assessments[i].id);
  }

  // ── The status tells what was collected ─────────────────────────────────────

  function StatusFor(collected: int, amount: int): FeeStatus {
    if collected >= amount then Paid else if collected > 0 then PartiallyPaid else Assessed
  }

  /** Every fee is marked paid if it is covered, partially paid if something was collected, assessed if nothing was. */
  ghost predicate StatusExact(s: FeeState) {
    forall a :: a in s.assessments ==> a.status == StatusFor(Collected(s.collections, a.id), a.amount)
  }

  /** A collection from savings goes by its own debit alone: paid if that is the whole amount, or a row taken for it. */
  predicate Mismarks(s: FeeState, i: nat, key: string)
    requires i < |s.assessments|
  {
    TakenBy(s, i, key) > 0
    && ((ReplayOf(s, i, key).Some? || TakenBy(s, i, key) == s.assessments[i].amount) != (TakenBy(s, i, key) >= LeftOn(s, i)))
  }

  lemma ExactAfterCollection(s: FeeState, i: nat, c: Collection, status: FeeStatus)
    requires FeeTables(s) && StatusExact(s) && i < |s.assessments| && s.assessments[i].id == c.assessment && c.amount > 0
    ensures StatusExact(s.(assessments := SetStatus(s.assessments, i, status), collections := s.collections + [c]))
       <==> status == if c.amount >= LeftOn(s, i) then Paid else PartiallyPaid
  {
    var s' := s.(assessments := SetStatus(s.assessments, i, status), collections := s.collections + [c]);
    CollectedAppend(s.collections, c, c.assessment);
    CollectedNonNegative(s, c.assessment);
    assert s'.assessments[i] in s'.assessments;
    forall j | 0 <= j < |s.assessments| && j != i
      ensures s.assessments[j].status == StatusFor(Collected(s'.collections, s.assessments[j].id), s.assessments[j].amount)
    {
      CollectedAppend(s.collections, c, s.assessments[j].id);
      assert s.assessments[j] in s.assessments;
    }
  }

  lemma CollectionExactIff(s: FeeState, i: nat, receivable: Uuid, key: string, month: int)
    requires FeeTables(s) && StatusExact(s) && i < |s.assessments| && AutoCollect(s, i, receivable, key, month).Ok?
    ensures StatusExact(AutoCollect(s, i, receivable, key, month).value) <==> !Mismarks(s, i, key)
  {
    assert s.assessments[i] in s.assessments;
    CollectionCommits(s, i, receivable, key, month);
    if AutoCollect(s, i, receivable, key, month).value != s {
      CollectedShape(s, i, receivable, key, month);
      var d := TakenBy(s, i, key);
      ExactAfterCollection(s, i, Collection(s.assessments[i].id, d, DebitKey(key)),
                           if ReplayOf(s, i, key).Some? || d == s.assessments[i].amount then Paid else PartiallyPaid);
    }
  }

  /** The step leaves a fee marked other than what was collected on it says. */
  predicate MarksWrong(s: FeeState, op: FeeOp) {
    FeeStep(s, op) != s
    && match op
       case Assesses(id, c, key, _) =>
         Assessing(s, id, c, key).Ok? && s.catalog[c.feeType].requiresCollection
         && Mismarks(Assessing(s, id, c, key).value, |s.assessments|, key)
       case Retries(id, today, _) =>
         Find(s.assessments, id) < |s.assessments| && Mismarks(s, Find(s.assessments, id), RetryKey(id, today))
       case _ => false
  }

  lemma AssessingExact(s: FeeState, id: Uuid, c: Charge, key: string)
    requires FeeTables(s) && StatusExact(s) && Assessing(s, id, c, key).Ok?
    ensures StatusExact(Assessing(s, id, c, key).value)
  {
    NothingCollected(s.assessments, s.collections, id);
  }

  /** Manual collections always mark their fee right; assessments and retries when they do not mismark it. */
  lemma StepExactIff(s: FeeState, op: FeeOp)
    requires FeeTables(s) && StatusExact(s)
    ensures StatusExact(FeeStep(s, op)) <==> !MarksWrong(s, op)
  {
    if FeeStep(s, op) != s {
      match op
      case Adds(_, _) =>
      case Patches(_, _, _) =>
      case Assesses(id, charge, key, month) =>
        AssessingTables(s, id, charge, key);
        AssessingExact(s, id, charge, key);
        if s.catalog[charge.feeType].requiresCollection {
          CollectionExactIff(Assessing(s, id, charge, key).value, |s.assessments|, ReceivableOf(s, charge), key, month);
        }
      case Retries(id, today, month) =>
        var i := Find(s.assessments, id);
        CollectionExactIff(s, i, ReceivableOf(s, s.assessments[i].charge), RetryKey(id, today), month);
      case Collects(id, amount, contra, key) =>
        var i := Find(s.assessments, id);
        ExactAfterCollection(s, i, Collection(id, amount, key), FeeStep(s, op).assessments[i].status);
      case Elsewhere(_) =>
    }
  }

  predicate NeverMarksWrong(s: FeeState, ops: seq<FeeOp>)
    decreases |ops|
  {
    ops == [] || (!MarksWrong(s, ops[0]) && NeverMarksWrong(FeeStep(s, ops[0]), ops[1..]))
  }

  lemma {:induction false} RunExactIff(s: FeeState, ops: seq<FeeOp>)
    requires FeeTables(s) && StatusExact(s)
    ensures (forall x :: x in FeeTrace(s, ops) ==> StatusExact(x)) <==> NeverMarksWrong(s, ops)
    decreases |ops|
  {
    if ops != [] {
      var s' := FeeStep(s, ops[0]);
      StepExactIff(s, ops[0]);
      StepTables(s, ops[0]);
      assert FeeTrace(s, ops) == [s] + FeeTrace(s', ops[1..]) && s' in FeeTrace(s', ops[1..]);
      if StatusExact(s') { RunExactIff(s', ops[1..]); }
    }
  }

  /**
   * In every run, under any keys: each fee is marked paid exactly when its collections cover it, partially
   * paid when they fall short and assessed when there are none, after every call, if and only if no
   * assessment or retry collects an amount that covers what is left without being the whole fee, or takes
   * for its debit a row that does not cover what is left. Manual collections need no condition.
   */
  lemma StatusTellsIff(ops: seq<FeeOp>)
    ensures (forall s :: s in FeeTrace(NO_FEES, ops) ==> StatusExact(s)) <==> NeverMarksWrong(NO_FEES, ops)
  {
    RunExactIff(NO_FEES, ops);
  }

  /** The case arises: what the member has covers what is left but not the whole fee, which stays open to the next retry. */
  lemma CoveredStaysOpen(s: FeeState, i: nat, today: IsoDate, month: int)
    requires FeeTables(s) && i < |s.assessments| && RetryCommits(s, s.assessments[i].id, today, month)
    requires ReplayOf(s, i, RetryKey(s.assessments[i].id, today)).None?
    requires var owner := PrimaryAccount(s.books.accounts, s.assessments[i].charge.target);
      owner.Some? && 0 < Balance(s.books.txns, owner.value.id) < s.assessments[i].amount && LeftOn(s, i) <= Balance(s.books.txns, owner.value.id)
    ensures var s' := FeeStep(s, Retries(s.assessments[i].id, today, month));
      && |s'.assessments| == |s.assessments| && s'.assessments[i].status == PartiallyPaid
      && Collected(s'.collections, s.assessments[i].id) >= s.assessments[i].amount
  {
    var a := s.assessments[i];
    assert a in s.assessments && Find(s.assessments, a.id) == i;
    CollectionCommits(s, i, ReceivableOf(s, a.charge), RetryKey(a.id, today), month);
    CollectedShape(s, i, ReceivableOf(s, a.charge), RetryKey(a.id, today), month);
    CollectedAppend(s.collections, Collection(a.id, TakenBy(s, i, RetryKey(a.id, today)), DebitKey(RetryKey(a.id, today))), a.id);
  }

  // ── What each call answers ──────────────────────────────────────────────────

  ghost predicate CollectedUnder(s: FeeState, key: string) { exists c :: c in s.collections && c.key == key }

  lemma CollectedUnderIff(s: FeeState, key: string)
    ensures HasCollection(s.collections, key) <==> CollectedUnder(s, key)
  {
    if c :| c in s.collections && c.key == key {
      var i :| 0 <= i < |s.collections| && s.collections[i] == c;
    }
  }

  /** The account a fee type's receivable code names. */
  function ReceivableIn(s: FeeState, c: Charge): Option<GlAccount> {
    if c.feeType in s.catalog then ByCode(s.books.gl.chart, s.catalog[c.feeType].receivable) else None
  }

  predicate Open(a: Assessment) { a.status == Assessed || a.status == PartiallyPaid }

  /**
   * A manual collection under a new key is taken if and only if the fee is open, its receivable exists, the
   * amount is positive and fits, and the payment account exists unless the journal key is taken. The fee is
   * paid from then on exactly when what was collected covers it, and nothing else about any fee changes.
   */
  lemma CollectAnswers(s: FeeState, i: nat, amount: int, contra: Uuid, key: string)
    requires DistinctIds(s.assessments) && i < |s.assessments| && !CollectedUnder(s, key)
    ensures var a := s.assessments[i];
      var r, receivable, journal := Collect(s, a.id, amount, contra, key), ReceivableIn(s, a.charge), "fee-manual-collect-" + key;
      && (r == Err(ValueError) <==> !Open(a) || receivable.None?)
      && (r.Ok? <==> Open(a) && receivable.Some? && 1 <= amount <= 9_999_999_999_999_999_999
                     && (Journaled(s.books.gl.entries, journal) || Charted(s.books.gl.chart, contra)))
      && (r.Ok? ==>
            var s' := r.value;
            && s'.collections == s.collections + [Collection(a.id, amount, key)] && s'.catalog == s.catalog
            && |s'.assessments| == |s.assessments| && s'.assessments[i] == a.(status := s'.assessments[i].status)
            && (s'.assessments[i].status == Paid <==> Collected(s'.collections, a.id) >= a.amount)
            && (s'.assessments[i].status == Paid || s'.assessments[i].status == PartiallyPaid)
            && (forall j :: 0 <= j < |s.assessments| && j != i ==> s'.assessments[j] == s.assessments[j])
            && s'.books == s.books.(gl := s'.books.gl) && s'.books.gl.chart == s.books.gl.chart
            && s'.books.gl.entries == s.books.gl.entries + (if Journaled(s.books.gl.entries, journal) then []
                                                            else [Entry(journal, [Line(contra, amount, 0), Line(receivable.value.id, 0, amount)])]))
  {
    var a, receivable := s.assessments[i], ReceivableIn(s, s.assessments[i].charge);
    assert Find(s.assessments, a.id) == i;
    CollectedUnderIff(s, key);
    CollectedAppend(s.collections, Collection(a.id, amount, key), a.id);
    if receivable.Some? {
      PostAnswers(s.books.gl, ManualKey(key), [Line(contra, amount, 0), Line(receivable.value.id, 0, amount)]);
      TwoLinesFit(s.books.gl.chart, contra, receivable.value.id, amount);
      assert Charted(s.books.gl.chart, receivable.value.id) && s.books.gl.entries + [] == s.books.gl.entries;
    }
  }

  /** Under a used key, and for a fee that does not exist. */
  lemma CollectRefuses(s: FeeState, id: Uuid, amount: int, contra: Uuid, key: string)
    requires CollectedUnder(s, key) || forall a :: a in s.assessments ==> a.id != id
    ensures Collect(s, id, amount, contra, key) == if CollectedUnder(s, key) then Ok(s) else Err(ValueError)
  {
    CollectedUnderIff(s, key);
  }

  ghost predicate Charged(s: FeeState, c: Charge) {
    exists a :: a in s.assessments && a.charge.feeType == c.feeType && a.charge.targetType == c.targetType
                && a.charge.target == c.target && a.charge.period == c.period
  }

  lemma ChargedIff(s: FeeState, c: Charge)
    ensures HasCharge(s.assessments, c) <==> Charged(s, c)
  {
    if a :| a in s.assessments && a.charge.feeType == c.feeType && a.charge.targetType == c.targetType
            && a.charge.target == c.target && a.charge.period == c.period {
      var i :| 0 <= i < |s.assessments| && s.assessments[i] == a;
    }
  }

  /**
   * A new charge is recorded if and only if its fee type and both accounts exist, the amount is positive and
   * fits, and the id is unused: debit receivable, credit income, and a row marked assessed.
   */
  lemma AssessingAnswers(s: FeeState, id: Uuid, c: Charge, key: string)
    ensures var r, receivable, journal := Assessing(s, id, c, key), ReceivableIn(s, c), "fee-assess-" + key;
      var income := if c.feeType in s.catalog then ByCode(s.books.gl.chart, s.catalog[c.feeType].income) else None;
      && (r == Err(ValueError) <==> receivable.None? || income.None?)
      && (r.Ok? <==> receivable.Some? && income.Some? && 1 <= s.catalog[c.feeType].amount <= 9_999_999_999_999_999_999
                     && forall a :: a in s.assessments ==> a.id != id)
      && (r.Ok? ==>
            var s', amount := r.value, s.catalog[c.feeType].amount;
            && s'.assessments == s.assessments + [Assessment(id, c, amount, Assessed)]
            && s'.collections == s.collections && s'.catalog == s.catalog
            && s'.books == s.books.(gl := s'.books.gl) && s'.books.gl.chart == s.books.gl.chart
            && s'.books.gl.entries == s.books.gl.entries + (if Journaled(s.books.gl.entries, journal) then []
                                                            else [Entry(journal, [Line(receivable.value.id, amount, 0), Line(income.value.id, 0, amount)])]))
  {
    var receivable := ReceivableIn(s, c);
    if c.feeType in s.catalog {
      var ft := s.catalog[c.feeType];
      var income := ByCode(s.books.gl.chart, ft.income);
      if receivable.Some? && income.Some? {
        PostAnswers(s.books.gl, AssessKey(key), [Line(receivable.value.id, ft.amount, 0), Line(income.value.id, 0, ft.amount)]);
        TwoLinesFit(s.books.gl.chart, receivable.value.id, income.value.id, ft.amount);
        assert Charted(s.books.gl.chart, receivable.value.id) && Charted(s.books.gl.chart, income.value.id);
        assert s.books.gl.entries + [] == s.books.gl.entries;
        IdUnusedIff(s.assessments, id);
      }
    }
  }

  lemma IdUnusedIff(assessments: seq<Assessment>, id: Uuid)
    ensures Find(assessments, id) == |assessments| <==> forall a :: a in assessments ==> a.id != id
  {
  }

  /** A charge already assessed is left alone; one that does not collect ends with its row; one that does goes on to collect in the same call. */
  lemma AssessAnswers(s: FeeState, id: Uuid, c: Charge, key: string, month: int)
    ensures var r, begun := Assess(s, id, c, key, month), Assessing(s, id, c, key);
      if Charged(s, c) then r == Ok(s)
      else if begun.Err? then r == Err(begun.error)
      else if !s.catalog[c.feeType].requiresCollection then r == begun
      else ReceivableIn(s, c).Some? && r == AutoCollect(begun.value, |s.assessments|, ReceivableIn(s, c).value.id, key, month)
  {
    ChargedIff(s, c);
  }

  /** The member's first account, and no other, pays. */
  predicate Pays(s: FeeState, i: nat, a: SavingsAccount)
    requires i < |s.assessments|
  {
    exists n :: 0 <= n < |s.books.accounts| && s.books.accounts[n] == a && a.member == s.assessments[i].charge.target
                && forall m :: 0 <= m < n ==> s.books.accounts[m].member != a.member
  }

  /** What a fresh collection from savings writes: one debit, one collection, and the fee's status. */
  ghost predicate CollectedFrom(s: FeeState, r: Outcome<FeeState>, i: nat, receivable: Uuid, key: string, month: int, a: SavingsAccount)
    requires i < |s.assessments|
  {
    var fee, balance, k := s.assessments[i], Balance(s.books.txns, a.id), "fee-collect-" + key;
    var d := if balance < fee.amount then balance else fee.amount;
    && (r.Ok? <==> Writable(s.books, a.id, d, k, "sys-debit-" + k, a.liability, receivable) && !CollectedUnder(s, k))
    && (r.Err? ==> r.error == IntegrityError)
    && (r.Ok? ==>
          && r.value.catalog == s.catalog
          && r.value.collections == s.collections + [Collection(fee.id, d, k)]
          && r.value.assessments == s.assessments[i := fee.(status := if balance >= fee.amount then Paid else PartiallyPaid)]
          && Wrote(s.books, r.value.books, Txn(a.id, SystemDebit, d, k, month),
                   Entry("sys-debit-" + k, [Line(a.liability, d, 0), Line(receivable, 0, d)])))
  }

  /** A collection whose debit goes through records what was debited. */
  lemma DebitCollects(s: FeeState, i: nat, receivable: Uuid, key: string, month: int, a: SavingsAccount, r: Outcome<(Books, DebitResult)>)
    requires i < |s.assessments| && PrimaryAccount(s.books.accounts, s.assessments[i].charge.target) == Some(a)
    requires r == Debit(s.books, a.id, s.assessments[i].amount, receivable, DebitKey(key), "partial", "fees", month)
    ensures AutoCollect(s, i, receivable, key, month)
         == if r.Err? then Err(r.error)
            else if r.value.1.status == Zero then Ok(s)
            else if CollectedUnder(s, DebitKey(key)) || r.value.1.debited <= 0 then Err(IntegrityError)
            else Ok(FeeState(r.value.0, s.catalog,
                             SetStatus(s.assessments, i, if r.value.1.shortfall == 0 then Paid else PartiallyPaid),
                             s.collections + [Collection(s.assessments[i].id, r.value.1.debited, DebitKey(key))]))
  {
    CollectedUnderIff(s, DebitKey(key));
  }

  /**
   * A fresh collection from savings: nothing happens to a member with nothing in the first account. Otherwise
   * that account is debited for what it has, up to the whole fee, as one collection; the fee is paid if that
   * is the whole fee and partially paid if not.
   */
  lemma AutoCollectAnswers(s: FeeState, i: nat, receivable: Uuid, key: string, month: int, a: SavingsAccount)
    requires i < |s.assessments| && s.assessments[i].amount > 0 && DistinctOwners(s.books.accounts)
    requires Pays(s, i, a) && !KeyTaken(s.books, "fee-collect-" + key)
    ensures if Balance(s.books.txns, a.id) <= 0 then AutoCollect(s, i, receivable, key, month) == Ok(s)
            else CollectedFrom(s, AutoCollect(s, i, receivable, key, month), i, receivable, key, month, a)
  {
    PayerIsPrimary(s, i, a);
    FindIsUnique(s.books.accounts, a);
    DebitAnswers(s.books, a, s.assessments[i].amount, receivable, DebitKey(key), "partial", "fees", month);
    DebitCollects(s, i, receivable, key, month, a, Debit(s.books, a.id, s.assessments[i].amount, receivable, DebitKey(key), "partial", "fees", month));
  }

  lemma PayerIsPrimary(s: FeeState, i: nat, a: SavingsAccount)
    requires i < |s.assessments|
    ensures Pays(s, i, a) <==> PrimaryAccount(s.books.accounts, s.assessments[i].charge.target) == Some(a)
  {
  }

  lemma NobodyPays(s: FeeState, i: nat, receivable: Uuid, key: string, month: int)
    requires i < |s.assessments| && forall a :: a in s.books.accounts ==> a.member != s.assessments[i].charge.target
    ensures AutoCollect(s, i, receivable, key, month) == Ok(s)
  {
  }

  /** The daily retry collects on a fee exactly when it is open, its type collects and its receivable exists. */
  lemma RetryAnswers(s: FeeState, i: nat, today: IsoDate, month: int)
    requires DistinctIds(s.assessments) && i < |s.assessments|
    ensures var a := s.assessments[i];
      Retry(s, a.id, today, month)
      == if Open(a) && ReceivableIn(s, a.charge).Some? && s.catalog[a.charge.feeType].requiresCollection
         then AutoCollect(s, i, ReceivableIn(s, a.charge).value.id, "retry-" + a.id + "-" + today, month) else Ok(s)
  {
    assert Find(s.assessments, s.assessments[i].id) == i;
  }

  /** Fee types are added once, patched in amount and collection only, and their amount is never negative. */
  lemma CatalogAnswers(s: FeeState, id: Uuid, row: FeeType, amount: int, collects: bool)
    ensures var r := FeeAttempt(s, Adds(id, row));
      && (r.Ok? <==> id !in s.catalog && 0 <= row.amount <= 9_999_999_999_999_999_999)
      && (r.Ok? ==> r.value == s.(catalog := s.catalog[id := row]))
    ensures var r := FeeAttempt(s, Patches(id, amount, collects));
      && (r == Err(ValueError) <==> id !in s.catalog)
      && (r.Ok? <==> id in s.catalog && 0 <= amount <= 9_999_999_999_999_999_999)
      && (r.Ok? ==> r.value == s.(catalog := s.catalog[id := FeeType(s.catalog[id].income, s.catalog[id].receivable, amount, collects)]))
  {
  }

  // ── One row per charge and per key ──────────────────────────────────────────

  predicate ChargesDistinct(assessments: seq<Assessment>) {
    forall i, j :: 0 <= i < j < |assessments| ==> assessments[i].charge != assessments[j].charge
  }

  predicate CollectionKeysDistinct(collections: seq<Collection>) {
    forall i, j :: 0 <= i < j < |collections| ==> collections[i].key != collections[j].key
  }

  lemma AutoCollectUnique(s: FeeState, i: nat, receivable: Uuid, key: string, month: int)
    requires i < |s.assessments| && ChargesDistinct(s.assessments) && CollectionKeysDistinct(s.collections)
    requires AutoCollect(s, i, receivable, key, month).Ok?
    ensures var s' := AutoCollect(s, i, receivable, key, month).value; ChargesDistinct(s'.assessments) && CollectionKeysDistinct(s'.collections)
  {
    if AutoCollect(s, i, receivable, key, month).value != s { CollectedShape(s, i, receivable, key, month); }
  }

  lemma StepUnique(s: FeeState, op: FeeOp)
    requires ChargesDistinct(s.assessments) && CollectionKeysDistinct(s.collections)
    ensures ChargesDistinct(FeeStep(s, op).assessments) && CollectionKeysDistinct(FeeStep(s, op).collections)
  {
    if FeeStep(s, op) != s {
      match op
      case Assesses(id, charge, key, month) =>
        if s.catalog[charge.feeType].requiresCollection {
          AutoCollectUnique(Assessing(s, id, charge, key).value, |s.assessments|, ReceivableOf(s, charge), key, month);
        }
      case Retries(id, today, month) =>
        var i := Find(s.assessments, id);
        AutoCollectUnique(s, i, ReceivableOf(s, s.assessments[i].charge), RetryKey(id, today), month);
      case _ =>
    }
  }

  /** In every run nothing is charged twice for one period, and no key collects twice. */
  lemma {:induction false} ChargedAndCollectedOnce(s: FeeState, ops: seq<FeeOp>)
    requires ChargesDistinct(s.assessments) && CollectionKeysDistinct(s.collections)
    ensures ChargesDistinct(FeeRun(s, ops).assessments) && CollectionKeysDistinct(FeeRun(s, ops).collections)
    decreases |ops|
  {
    if ops != [] {
      StepUnique(s, ops[0]);
      ChargedAndCollectedOnce(FeeStep(s, ops[0]), ops[1..]);
    }
  }

  // ── The service ─────────────────────────────────────────────────────────────

  /** The daily retry over the first `n` assessments as they stood when the beat read them. */
  function RetryFirst(s: FeeState, n: nat, today: IsoDate, month: int): FeeState
    requires n <= |s.assessments|
  {
    if n == 0 then s
    else FeeStep(RetryFirst(s, n - 1, today, month), Retries(s.assessments[n - 1].id, today, month))
  }

  /** The assessments carry the ids the beat loaded, and those from `n` on are still as loaded. */
  predicate AsLoaded(now: seq<Assessment>, loaded: seq<Assessment>, n: int) {
    && |now| == |loaded|
    && forall j :: 0 <= j < |loaded| ==> now[j].id == loaded[j].id && (n <= j ==> now[j] == loaded[j])
  }

  /** The retry of one assessment reaches a collection, and its savepoint commits. */
  predicate RetryCommits(s: FeeState, id: Uuid, today: IsoDate, month: int) {
    var i := Find(s.assessments, id);
    && i < |s.assessments| && (s.assessments[i].status == Assessed || s.assessments[i].status == PartiallyPaid)
    && s.assessments[i].charge.feeType in s.catalog && s.catalog[s.assessments[i].charge.feeType].requiresCollection
    && var receivable := ByCode(s.books.gl.chart, s.catalog[s.assessments[i].charge.feeType].receivable);
       receivable.Some? && AutoCollect(s, i, receivable.value.id, RetryKey(id, today), month).Ok?
  }

  /** How many of the first `n` retries commit. */
  function RetriedCount(s: FeeState, n: nat, today: IsoDate, month: int): nat
    requires n <= |s.assessments|
  {
    if n == 0 then 0
    else RetriedCount(s, n - 1, today, month)
         + if RetryCommits(RetryFirst(s, n - 1, today, month), s.assessments[n - 1].id, today, month) then 1 else 0
  }

  /** Fees paid now that were not before. */
  function NewlyPaid(before: seq<Assessment>, after: seq<Assessment>): nat
    requires |before| == |after|
  {
    if after == [] then 0
    else
      var k := |after| - 1;
      NewlyPaid(before[..k], after[..k]) + if before[k].status != Paid && after[k].status == Paid then 1 else 0
  }

  /** A retry changes no assessment but its own, and that one only if it commits. */
  lemma RetryTouchesOne(s: FeeState, loaded: seq<Assessment>, n: nat, today: IsoDate, month: int)
    requires DistinctIds(loaded) && AsLoaded(s.assessments, loaded, n) && n < |loaded|
    ensures Find(s.assessments, loaded[n].id) == n
    ensures var after := FeeStep(s, Retries(loaded[n].id, today, month)).assessments;
      && AsLoaded(after, loaded, n + 1) && after[..n] == s.assessments[..n]
      && (!RetryCommits(s, loaded[n].id, today, month) ==> after == s.assessments)
      && (RetryCommits(s, loaded[n].id, today, month) ==> loaded[n].status != Paid)
  {
    var i := Find(s.assessments, loaded[n].id);
    assert i == n;
  }

  /** What one more retry adds to the statistics. */
  lemma RetryCounts(start: FeeState, s: FeeState, loaded: seq<Assessment>, n: nat, today: IsoDate, month: int)
    requires DistinctIds(loaded) && loaded == start.assessments && n < |loaded|
    requires s == RetryFirst(start, n, today, month) && AsLoaded(s.assessments, loaded, n)
    ensures Find(s.assessments, loaded[n].id) == n
    ensures var s', commits := RetryFirst(start, n + 1, today, month), RetryCommits(s, loaded[n].id, today, month);
      && s' == FeeStep(s, Retries(loaded[n].id, today, month)) && AsLoaded(s'.assessments, loaded, n + 1)
      && RetriedCount(start, n + 1, today, month) == RetriedCount(start, n, today, month) + (if commits then 1 else 0)
      && NewlyPaid(loaded[..n + 1], s'.assessments[..n + 1])
         == NewlyPaid(loaded[..n], s.assessments[..n]) + (if commits && s'.assessments[n].status == Paid then 1 else 0)
  {
    RetryTouchesOne(s, loaded, n, today, month);
    NewlyPaidStep(loaded, RetryFirst(start, n + 1, today, month).assessments, n);
  }

  lemma NewlyPaidStep(before: seq<Assessment>, after: seq<Assessment>, n: nat)
    requires n < |before| == |after|
    ensures NewlyPaid(before[..n + 1], after[..n + 1])
         == NewlyPaid(before[..n], after[..n]) + if before[n].status != Paid && after[n].status == Paid then 1 else 0
  {
    assert before[..n + 1][..n] == before[..n] && after[..n + 1][..n] == after[..n];
  }

  class FeeService {
    const savings: SavingsService
    var catalog: map<Uuid, FeeType>
    var assessments: seq<Assessment>
    var collections: seq<Collection>

    function State(): FeeState
      reads this, savings, savings.ledger
    {
      FeeState(savings.State(), catalog, assessments, collections)
    }

    constructor (savings: SavingsService)
      ensures this.savings == savings && catalog == map[] && assessments == [] && collections == []
    {
      this.savings := savings;
      catalog, assessments, collections := map[], [], [];
    }

    method Rollback(saved: FeeState)
      modifies this, savings, savings.ledger
      ensures State() == saved
    {
      savings.Rollback(saved.books);
      catalog, assessments, collections := saved.catalog, saved.assessments, saved.collections;
    }

    /** Runs inside the caller's savepoint: on an error the caller rolls back. */
    method AutoCollectFor(i: nat, receivable: Uuid, key: string, month: int) returns (r: Outcome<()>)
      requires i < |assessments|
      modifies this, savings, savings.ledger
      ensures match AutoCollect(old(State()), i, receivable, key, month)
              case Ok(s) => r == Ok(()) && State() == s
              case Err(e) => r == Err(e)
    {
      var a := assessments[i];
      var owner := PrimaryAccount(savings.accounts, a.charge.target);
      if owner.None? {
        return Ok(());
      }
      var debit := savings.MakeSystemDebit(owner.value.id, a.amount, receivable, DebitKey(key), "partial", "fees", month);
      if debit.Err? {
        return Err(debit.error);
      }
      var res := debit.value;
      if res.status == Zero {
        return Ok(());
      }
      if HasCollection(collections, DebitKey(key)) || res.debited <= 0 {
        return Err(IntegrityError);
      }
      collections := collections + [Collection(a.id, res.debited, DebitKey(key))];
      assessments := assessments[i := a.(status := if res.shortfall == 0 then Paid else PartiallyPaid)];
      return Ok(());
    }

    /** The journal entry and the assessment row; on an error the caller rolls back. */
    method BeginAssessment(id: Uuid, c: Charge, key: string) returns (r: Outcome<()>)
      modifies this, savings, savings.ledger
      ensures match Assessing(old(State()), id, c, key)
              case Ok(s) => r == Ok(()) && State() == s
              case Err(e) => r == Err(e)
    {
      if c.feeType !in catalog {
        return Err(ValueError);
      }
      var ft := catalog[c.feeType];
      var income, receivable := ByCode(savings.ledger.chart, ft.income), ByCode(savings.ledger.chart, ft.receivable);
      if income.None? || receivable.None? {
        return Err(ValueError);
      }
      r := savings.ledger.PostJournalEntry(AssessKey(key),
        [Line(receivable.value.id, ft.amount, 0), Line(income.value.id, 0, ft.amount)]);
      if r.Ok? {
        if !(0 < ft.amount < NUMERIC_LIMIT) || Find(assessments, id) < |assessments| {
          return Err(IntegrityError);
        }
        assessments := assessments + [Assessment(id, c, ft.amount, Assessed)];
      }
    }

    method AssessFee(id: Uuid, c: Charge, key: string, month: int) returns (r: Outcome<()>)
      modifies this, savings, savings.ledger
      ensures State() == FeeStep(old(State()), Assesses(id, c, key, month))
      ensures match Assess(old(State()), id, c, key, month) case Ok(_) => r == Ok(()) case Err(e) => r == Err(e)
    {
      var saved := State();
      if HasCharge(assessments, c) {
        return Ok(());
      }
      r := BeginAssessment(id, c, key);
      if r.Ok? && catalog[c.feeType].requiresCollection {
        r := AutoCollectFor(|assessments| - 1, ReceivableOf(saved, c), key, month);
      }
      if r.Err? {
        Rollback(saved);
      }
    }

    /** Sum of the collections recorded so far against one assessment. */
    method TotalCollected(id: Uuid) returns (total: int)
      ensures total == Collected(collections, id)
    {
      total := 0;
      for k := 0 to |collections|
        invariant total == Collected(collections[..k], id)
      {
        assert collections[..k + 1] == collections[..k] + [collections[k]];
        CollectedAppend(collections[..k], collections[k], id);
        if collections[k].assessment == id {
          total := total + collections[k].amount;
        }
      }
      assert collections[..|collections|] == collections;
    }

    method CollectManually(id: Uuid, amount: int, contra: Uuid, key: string) returns (r: Outcome<()>)
      modifies this, savings, savings.ledger
      ensures State() == FeeStep(old(State()), Collects(id, amount, contra, key))
      ensures match Collect(old(State()), id, amount, contra, key) case Ok(_) => r == Ok(()) case Err(e) => r == Err(e)
    {
      var saved := State();
      if HasCollection(collections, key) {
        return Ok(());
      }
      var i := Find(assessments, id);
      if i == |assessments| {
        return Err(ValueError);
      }
      var a := assessments[i];
      if a.status == Paid || a.status == Waived || a.status == Cancelled || a.charge.feeType !in catalog {
        return Err(ValueError);
      }
      var receivable := ByCode(savings.ledger.chart, catalog[a.charge.feeType].receivable);
      if receivable.None? {
        return Err(ValueError);
      }
      r := savings.ledger.PostJournalEntry(ManualKey(key), [Line(contra, amount, 0), Line(receivable.value.id, 0, amount)]);
      if r.Ok? && !(0 < amount < NUMERIC_LIMIT) {
        r := Err(IntegrityError);
      }
      if r.Err? {
        Rollback(saved);
        return;
      }
      var collected := TotalCollected(id);
      var total := collected + amount;
      collections := collections + [Collection(id, amount, key)];
      assessments := assessments[i := a.(status := if total >= a.amount then Paid else PartiallyPaid)];
    }

    /** One savepoint of the retry beat, on the assessment loaded at position `n`. */
    method RetryAt(n: nat, a: Assessment, today: IsoDate, month: int) returns (ran: bool)
      requires n < |assessments| && assessments[n] == a && Find(assessments, a.id) == n
      modifies this, savings, savings.ledger
      ensures State() == FeeStep(old(State()), Retries(a.id, today, month))
      ensures ran <==> old(RetryCommits(State(), a.id, today, month))
    {
      ran := false;
      if (a.status == Assessed || a.status == PartiallyPaid) && a.charge.feeType in catalog && catalog[a.charge.feeType].requiresCollection {
        var receivable := ByCode(savings.ledger.chart, catalog[a.charge.feeType].receivable);
        if receivable.Some? {
          var savepoint := State();
          var r := AutoCollectFor(n, receivable.value.id, RetryKey(a.id, today), month);
          ran := r.Ok?;
          if r.Err? {
            Rollback(savepoint);
          }
        }
      }
    }

    /** The n-th retry of the beat, with what it adds to the statistics. */
    method RetryNth(n: nat, a: Assessment, today: IsoDate, month: int, ghost start: FeeState) returns (ran: bool, paid: bool)
      requires DistinctIds(start.assessments) && n < |start.assessments| && a == start.assessments[n]
      requires State() == RetryFirst(start, n, today, month) && AsLoaded(assessments, start.assessments, n)
      modifies this, savings, savings.ledger
      ensures State() == RetryFirst(start, n + 1, today, month) && AsLoaded(assessments, start.assessments, n + 1)
      ensures RetriedCount(start, n + 1, today, month) == RetriedCount(start, n, today, month) + if ran then 1 else 0
      ensures NewlyPaid(start.assessments[..n + 1], assessments[..n + 1])
           == NewlyPaid(start.assessments[..n], old(assessments)[..n]) + if paid then 1 else 0
      ensures paid ==> ran
    {
      RetryCounts(start, State(), start.assessments, n, today, month);
      ran := RetryAt(n, a, today, month);
      paid := ran && assessments[n].status == Paid;
    }

    /**
     * The beat reads the assessments once, then retries each open one in its own savepoint. It counts the
     * savepoints that committed, and of those the fees that are now paid and the rest.
     */
    method RetryPartial(today: IsoDate, month: int) returns (retried: nat, fullyCollected: nat, stillPartial: nat)
      requires DistinctIds(assessments)
      modifies this, savings, savings.ledger
      ensures State() == RetryFirst(old(State()), |old(assessments)|, today, month)
      ensures retried == RetriedCount(old(State()), |old(assessments)|, today, month)
      ensures |assessments| == |old(assessments)| && fullyCollected == NewlyPaid(old(assessments), assessments)
      ensures stillPartial == retried - fullyCollected
    {
      retried, fullyCollected, stillPartial := 0, 0, 0;
      ghost var start := State();
      var loaded := assessments;
      for n := 0 to |loaded|
        invariant State() == RetryFirst(start, n, today, month)
        invariant AsLoaded(assessments, loaded, n)
        invariant retried == RetriedCount(start, n, today, month) && stillPartial == retried - fullyCollected
        invariant fullyCollected == NewlyPaid(loaded[..n], assessments[..n])
      {
        var ran, paid := RetryNth(n, loaded[n], today, month, start);
        if ran {
          retried := retried + 1;
          if paid {
            fullyCollected := fullyCollected + 1;
          } else {
            stillPartial := stillPartial + 1;
          }
        }
      }
      assert loaded[..|loaded|] == loaded && assessments[..|loaded|] == assessments;
    }
  }
}
