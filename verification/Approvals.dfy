/** Maker-checker: quorum approval, and the executors it gates over the ledger and savings. */
module Approvals {
  import opened Sums
  import opened Text
  import opened Ledger
  import opened Savings

  datatype Status = Pending | Approved | Executed | ExecutionFailed | Rejected | Cancelled | Expired

  datatype Vote = Vote(actor: Uuid, approve: bool)

  datatype LinePayload = LinePayload(account: string, debit: string, credit: string)

  /** JSON payloads hold text; which keys are present decides the shape. */
  datatype Payload =
    | WithdrawPayload(account: string, amount: string, payment: string, liability: string, key: string)
    | JournalPayload(key: string, lines: seq<LinePayload>)
    | OtherPayload

  datatype Request = Request(op: string, payload: Payload, maker: Uuid, required: int, status: Status, expires: Option<int>, votes: seq<Vote>)

  datatype EventKind = Requested | Granted | Refused | Ran | Failed

  /** Outbox rows the service publishes with its decisions. */
  datatype Event = Event(request: Uuid, kind: EventKind)

  datatype Desk = Desk(books: Books, requests: map<Uuid, Request>, events: seq<Event>)

  const NO_DESK: Desk := Desk(NO_BOOKS, map[], [])

  const WITHDRAW := "savings.withdraw"
  const POST_ENTRY := "ledger.post_journal_entry"

  /** Operation types with a registered executor: one registry serves tenant and platform desks. */
  const REGISTRY: set<string> := {
    "savings.withdraw", "ledger.post_journal_entry", "members.change_status", "shares.redeem_shares",
    "credit.approve_application", "credit.write_off", "credit.restructure_schedule", "credit.apply_payroll_batch",
    "billing.confirm_payment", "billing.void_invoice", "billing.cancel_subscription",
    "tenant.suspend", "tenant.cancel", "tenant.retry_provisioning",
    "platform.start_impersonation", "platform_user.update_sensitive" }

  function KeyOf(p: Payload): Option<string> { if p.OtherPayload? then None else Some(p.key) }

  function ApproveOne(): Vote -> int { (v: Vote) => if v.approve then 1 else 0 }

  function ApprovalCount(votes: seq<Vote>): int { SumBy(votes, ApproveOne()) }

  predicate Voted(votes: seq<Vote>, actor: Uuid) { exists i :: 0 <= i < |votes| && votes[i].actor == actor }

  // ── Executors ───────────────────────────────────────────────────────────────

  /** Raised: an exception before any write. Violated: a constraint failed, so the session cannot commit. */
  datatype Verdict = Done(books: Books) | Raised | Violated

  function ToVerdict(r: Outcome<Books>): Verdict {
    match r
    case Ok(b) => Done(b)
    case Err(ValueError) => Raised
    case Err(IntegrityError) => Violated
  }

  function ParseLine(l: LinePayload): Option<Line> {
    match (ParseUuid(l.account), Parse(l.debit), Parse(l.credit))
    case (Some(account), Some(debit), Some(credit)) => Some(Line(account, Money(debit), Money(credit)))
    case _ => None
  }

  function ParseLines(ls: seq<LinePayload>): (r: Option<seq<Line>>) {
    if ls == [] then Some([])
    else match (ParseLine(ls[0]), ParseLines(ls[1..]))
      case (Some(l), Some(rest)) => Some([l] + rest)
      case _ => None
  }

  datatype Payout = Payout(account: Uuid, amount: int, payment: Uuid, liability: Uuid, key: string)

  function ParseWithdrawal(p: Payload): Option<Payout> {
    if !p.WithdrawPayload? then None
    else match (ParseUuid(p.account), Parse(p.amount), ParseUuid(p.payment), ParseUuid(p.liability))
      case (Some(account), Some(amount), Some(payment), Some(liability)) =>
        Some(Payout(account, Money(amount), payment, liability, p.key))
      case _ => None
  }

  /** The outcome of an executor outside the ledger and savings modules. */
  datatype Other = Succeeds | Raises | Breaks

  function ExecuteWithdrawal(b: Books, p: Payload, month: int): Verdict {
    match ParseWithdrawal(p)
    case None => Raised
    case Some(w) => ToVerdict(Withdraw(b, w.account, w.amount, w.payment, w.liability, w.key, month))
  }

  function ExecuteEntry(b: Books, p: Payload): Verdict {
    if !p.JournalPayload? then Raised
    else match ParseLines(p.lines)
      case None => Raised
      case Some(lines) => ToVerdict(Lift(b, Post(b.gl, p.key, lines)))
  }

  function ExecuteOther(b: Books, other: Other): Verdict {
    match other
    case Succeeds => Done(b)
    case Raises => Raised
    case Breaks => Violated
  }

  function Execute(b: Books, r: Request, month: int, other: Other): Verdict {
    if r.op == WITHDRAW then ExecuteWithdrawal(b, r.payload, month)
    else if r.op == POST_ENTRY then ExecuteEntry(b, r.payload)
    else ExecuteOther(b, other)
  }

  // ── Operations ──────────────────────────────────────────────────────────────

  function Submit(d: Desk, id: Uuid, op: string, p: Payload, maker: Uuid, required: int, expires: Option<int>): Outcome<Desk> {
    if op !in REGISTRY then Err(ValueError)
    else if id in d.requests then Err(IntegrityError)
    else Ok(d.(requests := d.requests[id := Request(op, p, maker, required, Pending, expires, [])],
               events := d.events + [Event(id, Requested)]))
  }

  /** An approval vote; once the quorum is met the executor's verdict settles the request. */
  function Decide(d: Desk, id: Uuid, actor: Uuid, verdict: Verdict): Outcome<Desk> {
    if id !in d.requests || d.requests[id].status != Pending || actor == d.requests[id].maker then Err(ValueError)
    else if Voted(d.requests[id].votes, actor) then Err(IntegrityError)
    else
      var r := d.requests[id].(votes := d.requests[id].votes + [Vote(actor, true)]);
      var events := d.events + [Event(id, Granted)];
      if ApprovalCount(r.votes) < r.required then Ok(Desk(d.books, d.requests[id := r], events))
      else match verdict
        case Done(b) => Ok(Desk(b, d.requests[id := r.(status := Executed)], events + [Event(id, Ran)]))
        case Raised => Ok(Desk(d.books, d.requests[id := r.(status := ExecutionFailed)], events + [Event(id, Failed)]))
        case Violated => Err(IntegrityError)
  }

  function Approve(d: Desk, id: Uuid, actor: Uuid, month: int, other: Other): Outcome<Desk> {
    if id !in d.requests then Err(ValueError)
    else Decide(d, id, actor, Execute(d.books, d.requests[id], month, other))
  }

  function Reject(d: Desk, id: Uuid, actor: Uuid): Outcome<Desk> {
    if id !in d.requests || d.requests[id].status != Pending || actor == d.requests[id].maker then Err(ValueError)
    else if Voted(d.requests[id].votes, actor) then Err(IntegrityError)
    else Ok(d.(requests := d.requests[id := d.requests[id].(votes := d.requests[id].votes + [Vote(actor, false)], status := Rejected)],
               events := d.events + [Event(id, Refused)]))
  }

  function Cancel(d: Desk, id: Uuid, maker: Uuid): Outcome<Desk> {
    if id !in d.requests || d.requests[id].status != Pending || maker != d.requests[id].maker then Err(ValueError)
    else if |d.requests[id].votes| > 0 then Err(ValueError)
    else Ok(d.(requests := d.requests[id := d.requests[id].(status := Cancelled)]))
  }

  predicate Lapsed(r: Request, now: int) { r.status == Pending && r.expires.Some? && r.expires.value < now }

  function Expire(d: Desk, now: int): Desk {
    d.(requests := map id | id in d.requests ::
         if Lapsed(d.requests[id], now) then d.requests[id].(status := Expired) else d.requests[id])
  }

  function PrintWithdrawal(a: SavingsAccount, amount: Amount, payment: Uuid, key: string): Payload {
    WithdrawPayload(a.id, Str(amount), payment, a.liability, key)
  }

  predicate HasWithdrawKey(d: Desk, key: string) {
    exists id :: id in d.requests && d.requests[id].op == WITHDRAW && KeyOf(d.requests[id].payload) == Some(key)
  }

  /** `submit_withdrawal`: checked against balance and minimum now, executed later. */
  function AskWithdrawal(d: Desk, id: Uuid, account: Uuid, amount: Amount, payment: Uuid, maker: Uuid, key: string): Outcome<Desk> {
    match FindAccount(d.books.accounts, account)
    case None => Err(ValueError)
    case Some(a) =>
      if HasWithdrawKey(d, key) then Ok(d)
      else
        var balance := Balance(d.books.txns, account);
        if Money(amount) > balance || balance - Money(amount) < a.minimum then Err(ValueError)
        else Submit(d, id, WITHDRAW, PrintWithdrawal(a, amount, payment, key), maker, 1, None)
  }

  /** A manual journal line as the API takes it. */
  datatype ManualLine = ManualLine(account: Uuid, debit: Amount, credit: Amount)

  function DebitMoney(): ManualLine -> int { (l: ManualLine) => Money(l.debit) }
  function CreditMoney(): ManualLine -> int { (l: ManualLine) => Money(l.credit) }

  function PrintLine(l: ManualLine): LinePayload { LinePayload(l.account, Str(l.debit), Str(l.credit)) }

  function PrintLines(ls: seq<ManualLine>): seq<LinePayload> {
    if ls == [] then [] else [PrintLine(ls[0])] + PrintLines(ls[1..])
  }

  function Stored(ls: seq<ManualLine>): seq<Line> {
    if ls == [] then [] else [Line(ls[0].account, Money(ls[0].debit), Money(ls[0].credit))] + Stored(ls[1..])
  }

  predicate Accepted(ls: seq<ManualLine>) { |ls| >= 2 && SumBy(ls, DebitMoney()) == SumBy(ls, CreditMoney()) }

  /** `submit_manual_entry`. */
  function AskEntry(d: Desk, id: Uuid, ls: seq<ManualLine>, maker: Uuid, key: string): Outcome<Desk> {
    if !Accepted(ls) then Err(ValueError)
    else Submit(d, id, POST_ENTRY, JournalPayload(key, PrintLines(ls)), maker, 1, None)
  }

  // ── Payload round trip ──────────────────────────────────────────────────────

  /** The executor sees the very accounts and amounts that were submitted. */
  lemma {:induction false} LinesRoundTrip(ls: seq<ManualLine>)
    ensures ParseLines(PrintLines(ls)) == Some(Stored(ls))
  {
    if ls != [] {
      DecimalRoundTrip(ls[0].debit);
      DecimalRoundTrip(ls[0].credit);
      LinesRoundTrip(ls[1..]);
      assert PrintLines(ls)[1..] == PrintLines(ls[1..]);
    }
  }

  lemma WithdrawalRoundTrip(a: SavingsAccount, amount: Amount, payment: Uuid, key: string)
    ensures ParseWithdrawal(PrintWithdrawal(a, amount, payment, key)) == Some(Payout(a.id, Money(amount), payment, a.liability, key))
  {
    DecimalRoundTrip(amount);
  }

  lemma {:induction false} StoredTotals(ls: seq<ManualLine>)
    ensures |Stored(ls)| == |ls|
    ensures SumBy(Stored(ls), DebitOf()) == SumBy(ls, DebitMoney())
    ensures SumBy(Stored(ls), CreditOf()) == SumBy(ls, CreditMoney())
  {
    if ls != [] {
      StoredTotals(ls[1..]);
      var first := [Line(ls[0].account, Money(ls[0].debit), Money(ls[0].credit))];
      assert ls == [ls[0]] + ls[1..] && first == [] + first && [ls[0]] == [] + [ls[0]];
      SumConcat([ls[0]], ls[1..], DebitMoney());
      SumConcat([ls[0]], ls[1..], CreditMoney());
      SumConcat(first, Stored(ls[1..]), DebitOf());
      SumConcat(first, Stored(ls[1..]), CreditOf());
      SumAppend([], ls[0], DebitMoney());
      SumAppend([], ls[0], CreditMoney());
      SumAppend([], first[0], DebitOf());
      SumAppend([], first[0], CreditOf());
    }
  }

  lemma ParsedEntry(b: Books, key: string, ps: seq<LinePayload>, lines: seq<Line>)
    requires ParseLines(ps) == Some(lines) && |lines| >= 2 && Balanced(lines)
    ensures ExecuteEntry(b, JournalPayload(key, ps)) == ToVerdict(Lift(b, Post(b.gl, key, lines)))
    ensures ExecuteEntry(b, JournalPayload(key, ps)) != Raised
  {
  }

  /** An entry accepted at submission never fails the balance check at execution, in any later state. */
  lemma AcceptedEntryBalances(ls: seq<ManualLine>, b: Books, key: string)
    requires Accepted(ls)
    ensures ExecuteEntry(b, JournalPayload(key, PrintLines(ls))) == ToVerdict(Lift(b, Post(b.gl, key, Stored(ls))))
    ensures ExecuteEntry(b, JournalPayload(key, PrintLines(ls))) != Raised
  {
    LinesRoundTrip(ls);
    StoredTotals(ls);
    ParsedEntry(b, key, PrintLines(ls), Stored(ls));
  }

  // ── Runs ────────────────────────────────────────────────────────────────────

  datatype DeskOp =
    | Submits(id: Uuid, op: string, payload: Payload, maker: Uuid, required: int, expires: Option<int>)
    | AsksWithdrawal(id: Uuid, account: Uuid, amount: Amount, payment: Uuid, maker: Uuid, key: string)
    | AsksEntry(id: Uuid, lines: seq<ManualLine>, maker: Uuid, key: string)
    | Approves(id: Uuid, actor: Uuid, month: int, other: Other)
    | Rejects(id: Uuid, actor: Uuid)
    | Cancels(id: Uuid, maker: Uuid)
    | Expires(now: int)
    | Moves(move: BookOp)

  function DeskAttempt(d: Desk, op: DeskOp): Outcome<Desk> {
    match op
    case Submits(id, o, p, maker, required, expires) => Submit(d, id, o, p, maker, required, expires)
    case AsksWithdrawal(id, account, amount, payment, maker, key) => AskWithdrawal(d, id, account, amount, payment, maker, key)
    case AsksEntry(id, ls, maker, key) => AskEntry(d, id, ls, maker, key)
    case Approves(id, actor, month, other) => Approve(d, id, actor, month, other)
    case Rejects(id, actor) => Reject(d, id, actor)
    case Cancels(id, maker) => Cancel(d, id, maker)
    case Expires(now) => Ok(Expire(d, now))
    case Moves(o) => Ok(d.(books := BookStep(d.books, o)))
  }

  function DeskStep(d: Desk, op: DeskOp): Desk {
    var r := DeskAttempt(d, op);
    if r.Ok? then r.value else d
  }

  function DeskRun(d: Desk, ops: seq<DeskOp>): Desk
    decreases |ops|
  {
    if ops == [] then d else DeskRun(DeskStep(d, ops[0]), ops[1..])
  }

  // ── Quorum ──────────────────────────────────────────────────────────────────

  predicate Checkers(r: Request) {
    && (forall i, j :: 0 <= i < j < |r.votes| ==> r.votes[i].actor != r.votes[j].actor)
    && (forall i :: 0 <= i < |r.votes| ==> r.votes[i].actor != r.maker)
  }

  predicate NoRejection(votes: seq<Vote>) { forall v :: v in votes ==> v.approve }

  predicate Ended(s: Status) { s == Executed || s == ExecutionFailed }

  predicate GoodRequest(r: Request) {
    && Checkers(r)
    && r.status != Approved
    && (r.status != Rejected ==> NoRejection(r.votes))
    && (r.status == Pending && r.required >= 1 ==> ApprovalCount(r.votes) < r.required)
    && (r.status == Cancelled ==> r.votes == [])
    && (Ended(r.status) ==> ApprovalCount(r.votes) >= r.required && |r.votes| >= 1)
  }

  function ExecutionOf(id: Uuid): Event -> int { (e: Event) => if e.request == id && (e.kind == Ran || e.kind == Failed) then 1 else 0 }

  /** How often the executor ran for a request, over the whole history. */
  function Executions(events: seq<Event>, id: Uuid): int { SumBy(events, ExecutionOf(id)) }

  ghost predicate DeskInv(d: Desk) {
    && (forall id :: id in d.requests ==> GoodRequest(d.requests[id]))
    && (forall id :: Executions(d.events, id) == if id in d.requests && Ended(d.requests[id].status) then 1 else 0)
  }

  lemma VoteKeeps(r: Request, v: Vote)
    requires Checkers(r) && v.actor != r.maker && !Voted(r.votes, v.actor)
    ensures Checkers(r.(votes := r.votes + [v]))
    ensures ApprovalCount(r.votes + [v]) == ApprovalCount(r.votes) + ApproveOne()(v)
  {
    SumAppend(r.votes, v, ApproveOne());
  }

  lemma ExecutionsAppend(events: seq<Event>, e: Event, id: Uuid)
    ensures Executions(events + [e], id) == Executions(events, id) + ExecutionOf(id)(e)
  {
    SumAppend(events, e, ExecutionOf(id));
  }

  /** A step that touches one request keeps the desk good if that request and its run count stay good. */
  lemma TouchOne(d: Desk, d': Desk, id: Uuid)
    requires DeskInv(d) && id in d'.requests && d'.requests == d.requests[id := d'.requests[id]]
    requires GoodRequest(d'.requests[id]) && (id in d.requests ==> d.requests[id].status == Pending)
    requires forall x: Uuid ::
               Executions(d'.events, x) == Executions(d.events, x) + if x == id && Ended(d'.requests[id].status) then 1 else 0
    ensures DeskInv(d')
  {
  }

  lemma SubmitKeeps(d: Desk, id: Uuid, op: string, p: Payload, maker: Uuid, required: int, expires: Option<int>)
    requires DeskInv(d) && Submit(d, id, op, p, maker, required, expires).Ok?
    ensures DeskInv(Submit(d, id, op, p, maker, required, expires).value)
  {
    forall x: Uuid { ExecutionsAppend(d.events, Event(id, Requested), x); }
    TouchOne(d, Submit(d, id, op, p, maker, required, expires).value, id);
  }

  lemma DecidedRequest(d: Desk, id: Uuid, actor: Uuid, verdict: Verdict)
    requires id in d.requests && GoodRequest(d.requests[id]) && Decide(d, id, actor, verdict).Ok?
    ensures GoodRequest(Decide(d, id, actor, verdict).value.requests[id])
  {
    VoteKeeps(d.requests[id], Vote(actor, true));
  }

  lemma DecidedEvents(d: Desk, id: Uuid, actor: Uuid, verdict: Verdict, x: Uuid)
    requires Decide(d, id, actor, verdict).Ok?
    ensures var d' := Decide(d, id, actor, verdict).value;
      Executions(d'.events, x) == Executions(d.events, x) + if x == id && Ended(d'.requests[id].status) then 1 else 0
  {
    var granted := d.events + [Event(id, Granted)];
    ExecutionsAppend(d.events, Event(id, Granted), x);
    ExecutionsAppend(granted, Event(id, Ran), x);
    ExecutionsAppend(granted, Event(id, Failed), x);
  }

  lemma DecideKeeps(d: Desk, id: Uuid, actor: Uuid, verdict: Verdict)
    requires DeskInv(d) && Decide(d, id, actor, verdict).Ok?
    ensures DeskInv(Decide(d, id, actor, verdict).value)
  {
    DecidedRequest(d, id, actor, verdict);
    forall x: Uuid { DecidedEvents(d, id, actor, verdict, x); }
    TouchOne(d, Decide(d, id, actor, verdict).value, id);
  }

  lemma RejectKeeps(d: Desk, id: Uuid, actor: Uuid)
    requires DeskInv(d) && Reject(d, id, actor).Ok?
    ensures DeskInv(Reject(d, id, actor).value)
  {
    VoteKeeps(d.requests[id], Vote(actor, false));
    forall x: Uuid { ExecutionsAppend(d.events, Event(id, Refused), x); }
    TouchOne(d, Reject(d, id, actor).value, id);
  }

  lemma CancelKeeps(d: Desk, id: Uuid, maker: Uuid)
    requires DeskInv(d) && Cancel(d, id, maker).Ok?
    ensures DeskInv(Cancel(d, id, maker).value)
  {
  }

  lemma ExpireKeeps(d: Desk, now: int)
    requires DeskInv(d)
    ensures DeskInv(Expire(d, now))
  {
    var d' := Expire(d, now);
    forall id | id in d'.requests ensures GoodRequest(d'.requests[id]) { assert GoodRequest(d.requests[id]); }
  }

  lemma AskWithdrawalKeeps(d: Desk, id: Uuid, account: Uuid, amount: Amount, payment: Uuid, maker: Uuid, key: string)
    requires DeskInv(d) && AskWithdrawal(d, id, account, amount, payment, maker, key).Ok?
    ensures DeskInv(AskWithdrawal(d, id, account, amount, payment, maker, key).value)
  {
    if AskWithdrawal(d, id, account, amount, payment, maker, key).value != d {
      var p := PrintWithdrawal(FindAccount(d.books.accounts, account).value, amount, payment, key);
      SubmitKeeps(d, id, WITHDRAW, p, maker, 1, None);
    }
  }

  lemma DeskStepKeeps(d: Desk, op: DeskOp)
    requires DeskInv(d)
    ensures DeskInv(DeskStep(d, op))
  {
    if DeskAttempt(d, op).Ok? {
      match op
      case Submits(id, o, p, maker, required, expires) => SubmitKeeps(d, id, o, p, maker, required, expires);
      case AsksWithdrawal(id, account, amount, payment, maker, key) => AskWithdrawalKeeps(d, id, account, amount, payment, maker, key);
      case AsksEntry(id, ls, maker, key) => SubmitKeeps(d, id, POST_ENTRY, JournalPayload(key, PrintLines(ls)), maker, 1, None);
      case Approves(id, actor, month, other) => DecideKeeps(d, id, actor, Execute(d.books, d.requests[id], month, other));
      case Rejects(id, actor) => RejectKeeps(d, id, actor);
      case Cancels(id, maker) => CancelKeeps(d, id, maker);
      case Expires(now) => ExpireKeeps(d, now);
      case Moves(_) =>
    }
  }

  /** Only a pending request ever changes. */
  lemma DecidedIsFinal(d: Desk, op: DeskOp, id: Uuid)
    requires id in d.requests && d.requests[id].status != Pending
    ensures id in DeskStep(d, op).requests && DeskStep(d, op).requests[id] == d.requests[id]
  {
  }

  lemma {:induction false} DeskRunKeeps(d: Desk, ops: seq<DeskOp>)
    requires DeskInv(d)
    ensures DeskInv(DeskRun(d, ops))
    ensures forall id :: id in d.requests && d.requests[id].status != Pending ==>
              id in DeskRun(d, ops).requests && DeskRun(d, ops).requests[id] == d.requests[id]
    decreases |ops|
  {
    if ops != [] {
      DeskStepKeeps(d, ops[0]);
      forall id | id in d.requests && d.requests[id].status != Pending { DecidedIsFinal(d, ops[0], id); }
      DeskRunKeeps(DeskStep(d, ops[0]), ops[1..]);
    }
  }

  /**
   * Every run of submit, approve, reject, cancel and expire: the executor ran at most once and only
   * with enough approvals by distinct users other than the maker; `approved` is never seen between
   * calls; a decision is final.
   */
  lemma QuorumGatesExecution(before: seq<DeskOp>, after: seq<DeskOp>, id: Uuid)
    requires id in DeskRun(NO_DESK, before).requests
    ensures var d := DeskRun(NO_DESK, before);
      var r, later := d.requests[id], DeskRun(d, after);
      && Executions(d.events, id) <= 1
      && (Executions(d.events, id) == 1 ==> Checkers(r) && NoRejection(r.votes) && |r.votes| >= r.required && |r.votes| >= 1)
      && r.status != Approved
      && (r.status == Cancelled ==> r.votes == [])
      && (r.status == Pending && r.required >= 1 ==> |r.votes| < r.required && NoRejection(r.votes))
      && (r.status != Pending ==> id in later.requests && later.requests[id] == r
                                  && Executions(later.events, id) == Executions(d.events, id))
  {
    assert DeskInv(NO_DESK);
    DeskRunKeeps(NO_DESK, before);
    var d := DeskRun(NO_DESK, before);
    DeskRunKeeps(d, after);
    assert GoodRequest(d.requests[id]);
    if NoRejection(d.requests[id].votes) {
      AllApprove(d.requests[id].votes);
    }
  }

  lemma {:induction false} AllApprove(votes: seq<Vote>)
    requires NoRejection(votes)
    ensures ApprovalCount(votes) == |votes|
  {
    if votes != [] {
      AllApprove(votes[..|votes| - 1]);
      assert votes[|votes| - 1] in votes;
    }
  }

  // ── Tracing money back to its request ───────────────────────────────────────

  predicate BacksTxn(r: Request, t: Txn) {
    && r.op == WITHDRAW && r.status == Executed
    && match ParseWithdrawal(r.payload)
       case None => false
       case Some(w) => w.account == t.account && w.amount == t.amount && w.key == t.key
  }

  predicate BacksEntry(r: Request, e: Entry) {
    && r.op == POST_ENTRY && r.status == Executed && r.payload.JournalPayload?
    && r.payload.key == e.key && ParseLines(r.payload.lines) == Some(e.lines)
  }

  ghost predicate TxnBacked(requests: map<Uuid, Request>, t: Txn) { exists id :: id in requests && BacksTxn(requests[id], t) }

  ghost predicate EntryBacked(requests: map<Uuid, Request>, e: Entry) { exists id :: id in requests && BacksEntry(requests[id], e) }

  /** The entry is a savings operation's own: its row's key, kind and amount, on some accounts. */
  ghost predicate PostsRow(e: Entry, t: Txn, liability: Uuid, contra: Uuid) {
    Posting(t.kind) && e == Entry(GlKey(t.kind, t.key), Legs(t.kind, liability, contra, t.amount))
  }

  ghost predicate SavingsPosted(txns: seq<Txn>, e: Entry) {
    exists t, liability, contra :: t in txns && PostsRow(e, t, liability, contra)
  }

  /** Withdrawals come from executed requests; so does every entry not posted by a module itself. */
  ghost predicate Traced(d: Desk, foreign: string -> bool) {
    && (forall t :: t in d.books.txns && t.kind == TxnKind.Withdrawal ==> TxnBacked(d.requests, t))
    && (forall e :: e in d.books.gl.entries ==> foreign(e.key) || SavingsPosted(d.books.txns, e) || EntryBacked(d.requests, e))
  }

  /** Executed requests are never forgotten. */
  ghost predicate Remembers(before: map<Uuid, Request>, after: map<Uuid, Request>) {
    forall id :: id in before && before[id].status == Executed ==> id in after && after[id] == before[id]
  }

  lemma TracedAcross(d: Desk, d': Desk, foreign: string -> bool)
    requires Traced(d, foreign) && Remembers(d.requests, d'.requests)
    requires d'.books.txns == d.books.txns || (AddsRow(d.books.txns, d'.books.txns)
               && (var t := d'.books.txns[|d.books.txns|]; t.kind == TxnKind.Withdrawal ==> TxnBacked(d'.requests, t)))
    requires d'.books.gl.entries == d.books.gl.entries || (AddsRow(d.books.gl.entries, d'.books.gl.entries)
               && (var e := d'.books.gl.entries[|d.books.gl.entries|];
                   foreign(e.key) || SavingsPosted(d'.books.txns, e) || EntryBacked(d'.requests, e)))
    ensures Traced(d', foreign)
  {
    forall t | t in d'.books.txns && t.kind == TxnKind.Withdrawal ensures TxnBacked(d'.requests, t) {
      if t in d.books.txns {
        var id :| id in d.requests && BacksTxn(d.requests[id], t);
        assert BacksTxn(d'.requests[id], t);
      }
    }
    forall e | e in d'.books.gl.entries ensures foreign(e.key) || SavingsPosted(d'.books.txns, e) || EntryBacked(d'.requests, e) {
      if e in d.books.gl.entries {
        if SavingsPosted(d.books.txns, e) {
          var t, liability, contra :| t in d.books.txns && PostsRow(e, t, liability, contra);
          assert t in d'.books.txns && PostsRow(e, t, liability, contra);
        } else if EntryBacked(d.requests, e) {
          var id :| id in d.requests && BacksEntry(d.requests[id], e);
          assert BacksEntry(d'.requests[id], e);
        }
      }
    }
  }

  /** The book operation an executed request amounts to. */
  function MoveOf(r: Request, month: int): Option<BookOp> {
    if r.op == WITHDRAW then
      match ParseWithdrawal(r.payload)
      case None => None
      case Some(w) => Some(Withdraws(w.account, w.amount, w.payment, w.liability, w.key, month))
    else if r.op == POST_ENTRY && r.payload.JournalPayload? then
      match ParseLines(r.payload.lines)
      case None => None
      case Some(lines) => Some(Journal(r.payload.key, lines))
    else None
  }

  /** Approval moves money only by executing, and a failed execution moves none. */
  lemma ApprovalMoves(d: Desk, id: Uuid, actor: Uuid, month: int, other: Other)
    requires Approve(d, id, actor, month, other).Ok?
    ensures var d' := Approve(d, id, actor, month, other).value;
      && id in d.requests && id in d'.requests
      && d'.requests[id].op == d.requests[id].op && d'.requests[id].payload == d.requests[id].payload
      && (d'.requests[id].status != Executed ==> d'.books == d.books)
      && (d'.books != d.books ==> MoveOf(d.requests[id], month).Some?
                                  && d'.books == BookStep(d.books, MoveOf(d.requests[id], month).value))
  {
    var v := Execute(d.books, d.requests[id], month, other);
    ExecutesMove(d.books, d.requests[id], month, other);
  }

  lemma PayoutMoves(b: Books, w: Payout, month: int)
    ensures var v := ToVerdict(Withdraw(b, w.account, w.amount, w.payment, w.liability, w.key, month));
      v.Done? ==> v.books == BookStep(b, Withdraws(w.account, w.amount, w.payment, w.liability, w.key, month))
  {
  }

  lemma EntryMoves(b: Books, key: string, lines: seq<Line>)
    ensures var v := ToVerdict(Lift(b, Post(b.gl, key, lines)));
      v.Done? ==> v.books == BookStep(b, Journal(key, lines))
  {
  }

  lemma ExecutesMove(b: Books, r: Request, month: int, other: Other)
    ensures var v := Execute(b, r, month, other);
      v.Done? && v.books != b ==> MoveOf(r, month).Some? && v.books == BookStep(b, MoveOf(r, month).value)
  {
    var w := ParseWithdrawal(r.payload);
    if r.op == WITHDRAW {
      if w.Some? { PayoutMoves(b, w.value, month); }
    } else if r.op == POST_ENTRY && r.payload.JournalPayload? {
      var lines := ParseLines(r.payload.lines);
      if lines.Some? { EntryMoves(b, r.payload.key, lines.value); }
    }
  }

  /** Only approvals and other modules move money; a withdrawal never comes from elsewhere. */
  predicate ModuleMove(op: DeskOp, foreign: string -> bool) {
    op.Moves? ==> !op.move.Withdraws? && (op.move.Journal? ==> foreign(op.move.key))
  }

  lemma StepRemembers(d: Desk, op: DeskOp)
    ensures Remembers(d.requests, DeskStep(d, op).requests)
  {
    forall id | id in d.requests && d.requests[id].status == Executed
      ensures id in DeskStep(d, op).requests && DeskStep(d, op).requests[id] == d.requests[id]
    {
      DecidedIsFinal(d, op, id);
    }
  }

  lemma SavingsRowPosted(b: Books, op: BookOp)
    requires WritesTxn(op) && BookStep(b, op).gl.entries != b.gl.entries
    ensures SavingsPosted(BookStep(b, op).txns, BookStep(b, op).gl.entries[|b.gl.entries|])
  {
    MoveRows(b, op);
    var t := BookStep(b, op).txns[|b.txns|];
    assert t in BookStep(b, op).txns && PostsRow(BookStep(b, op).gl.entries[|b.gl.entries|], t, LegOf(b, op), op.contra);
  }

  /** Another module's move keeps every withdrawal and every entry accounted for. */
  lemma MoveTraced(d: Desk, move: BookOp, foreign: string -> bool)
    requires Traced(d, foreign) && !move.Withdraws? && (move.Journal? ==> foreign(move.key))
    ensures Traced(d.(books := BookStep(d.books, move)), foreign)
  {
    MoveRows(d.books, move);
    if WritesTxn(move) && BookStep(d.books, move).gl.entries != d.books.gl.entries { SavingsRowPosted(d.books, move); }
    TracedAcross(d, d.(books := BookStep(d.books, move)), foreign);
  }

  lemma ApprovesTraced(d: Desk, op: DeskOp, foreign: string -> bool)
    requires Traced(d, foreign) && op.Approves? && DeskAttempt(d, op).Ok?
    ensures Traced(DeskStep(d, op), foreign)
  {
    var d' := DeskStep(d, op);
    StepRemembers(d, op);
    ApprovalMoves(d, op.id, op.actor, op.month, op.other);
    if d'.books != d.books {
      var r, move := d'.requests[op.id], MoveOf(d.requests[op.id], op.month).value;
      MoveRows(d.books, move);
      if move.Withdraws? {
        if d'.books.gl.entries != d.books.gl.entries { SavingsRowPosted(d.books, move); }
        if d'.books.txns != d.books.txns { assert BacksTxn(r, d'.books.txns[|d.books.txns|]); }
      } else if d'.books.gl.entries != d.books.gl.entries {
        assert BacksEntry(r, d'.books.gl.entries[|d.books.gl.entries|]);
      }
    }
    TracedAcross(d, d', foreign);
  }

  lemma QuietBooks(d: Desk, op: DeskOp)
    requires !op.Approves? && !op.Moves?
    ensures DeskStep(d, op).books == d.books
  {
  }

  lemma StepTraced(d: Desk, op: DeskOp, foreign: string -> bool)
    requires Traced(d, foreign) && ModuleMove(op, foreign)
    ensures Traced(DeskStep(d, op), foreign)
  {
    if op.Moves? {
      MoveTraced(d, op.move, foreign);
    } else if op.Approves? {
      if DeskAttempt(d, op).Ok? { ApprovesTraced(d, op, foreign); }
    } else {
      QuietBooks(d, op);
      StepRemembers(d, op);
      TracedAcross(d, DeskStep(d, op), foreign);
    }
  }

  // ── One request per withdrawal key ──────────────────────────────────────────

  predicate SameKey(r: Request, q: Request) {
    r.op == WITHDRAW && q.op == WITHDRAW && KeyOf(r.payload).Some? && KeyOf(r.payload) == KeyOf(q.payload)
  }

  ghost predicate OnePerKey(requests: map<Uuid, Request>) {
    forall x, y :: x in requests && y in requests && SameKey(requests[x], requests[y]) ==> x == y
  }

  /** Requests for a withdrawal are made through `submit_withdrawal`. */
  predicate ProperAsk(op: DeskOp) { op.Submits? ==> op.op != WITHDRAW }

  /** What a request asks for never changes, and only submissions add requests. */
  lemma TermsStay(d: Desk, op: DeskOp, id: Uuid)
    ensures var after := DeskStep(d, op).requests;
      if id in d.requests then id in after && after[id].op == d.requests[id].op && after[id].payload == d.requests[id].payload
      else id in after ==>
        match op
        case Submits(_, o, _, _, _, _) => after[id].op == o
        case AsksEntry(_, _, _, _) => after[id].op == POST_ENTRY
        case AsksWithdrawal(_, _, _, _, _, key) => id == op.id && KeyOf(after[id].payload) == Some(key) && !HasWithdrawKey(d, key)
        case _ => false
  {
  }

  lemma StepOnePerKey(d: Desk, op: DeskOp)
    requires OnePerKey(d.requests) && ProperAsk(op)
    ensures OnePerKey(DeskStep(d, op).requests)
  {
    var after := DeskStep(d, op).requests;
    forall x, y | x in after && y in after && SameKey(after[x], after[y]) ensures x == y {
      TermsStay(d, op, x);
      TermsStay(d, op, y);
      if x in d.requests && y in d.requests {
        assert SameKey(d.requests[x], d.requests[y]);
      }
    }
  }

  lemma {:induction false} RunTraced(d: Desk, ops: seq<DeskOp>, foreign: string -> bool)
    requires DeskInv(d) && Traced(d, foreign) && OnePerKey(d.requests)
    requires forall i :: 0 <= i < |ops| ==> ModuleMove(ops[i], foreign) && ProperAsk(ops[i])
    ensures DeskInv(DeskRun(d, ops)) && Traced(DeskRun(d, ops), foreign) && OnePerKey(DeskRun(d, ops).requests)
    decreases |ops|
  {
    if ops != [] {
      DeskStepKeeps(d, ops[0]);
      StepTraced(d, ops[0], foreign);
      StepOnePerKey(d, ops[0]);
      RunTraced(DeskStep(d, ops[0]), ops[1..], foreign);
    }
  }

  /** Exactly one executed request, with a quorum of non-makers, stands behind a withdrawal row. */
  ghost predicate BackedOnce(requests: map<Uuid, Request>, t: Txn) {
    exists id :: id in requests && BacksTxn(requests[id], t) && GoodRequest(requests[id])
              && forall other :: other in requests && BacksTxn(requests[other], t) ==> other == id
  }

  lemma RowHasOneRequest(requests: map<Uuid, Request>, t: Txn)
    requires OnePerKey(requests) && TxnBacked(requests, t) && forall id :: id in requests ==> GoodRequest(requests[id])
    ensures BackedOnce(requests, t)
  {
    var id :| id in requests && BacksTxn(requests[id], t);
    forall other | other in requests && BacksTxn(requests[other], t) ensures other == id {
      assert SameKey(requests[other], requests[id]);
    }
  }

  lemma WithdrawalBackedOnce(d: Desk, foreign: string -> bool, t: Txn)
    requires DeskInv(d) && Traced(d, foreign) && OnePerKey(d.requests) && t in d.books.txns && t.kind == TxnKind.Withdrawal
    ensures BackedOnce(d.requests, t)
  {
    RowHasOneRequest(d.requests, t);
  }

  lemma {:induction false} RunBacked(d: Desk, ops: seq<DeskOp>, foreign: string -> bool)
    requires DeskInv(d) && Traced(d, foreign) && forall i :: 0 <= i < |ops| ==> ModuleMove(ops[i], foreign)
    ensures DeskInv(DeskRun(d, ops)) && Traced(DeskRun(d, ops), foreign)
    decreases |ops|
  {
    if ops != [] {
      DeskStepKeeps(d, ops[0]);
      StepTraced(d, ops[0], foreign);
      RunBacked(DeskStep(d, ops[0]), ops[1..], foreign);
    }
  }

  // ── Executed, and what it did ───────────────────────────────────────────────

  /** The approval that runs the executor to success. */
  predicate Executes(d: Desk, op: DeskOp) {
    && op.Approves? && op.id in d.requests && d.requests[op.id].status == Pending
    && Approve(d, op.id, op.actor, op.month, op.other).Ok?
    && Approve(d, op.id, op.actor, op.month, op.other).value.requests[op.id].status == Executed
  }

  lemma DecidedVerdict(d: Desk, id: Uuid, actor: Uuid, verdict: Verdict)
    requires id in d.requests && d.requests[id].status == Pending && Decide(d, id, actor, verdict).Ok?
    requires Decide(d, id, actor, verdict).value.requests[id].status == Executed
    ensures verdict == Done(Decide(d, id, actor, verdict).value.books)
  {
  }

  /** A request for an entry that ends executed has posted it if and only if its key was unused. */
  lemma ExecutedEntryPostsIff(d: Desk, op: DeskOp)
    requires Executes(d, op) && d.requests[op.id].op == POST_ENTRY
    ensures d.requests[op.id].payload.JournalPayload? && ParseLines(d.requests[op.id].payload.lines).Some?
    ensures var p, d' := d.requests[op.id].payload, DeskStep(d, op);
      && d'.books == BookStep(d.books, Journal(p.key, ParseLines(p.lines).value))
      && d'.books.gl.entries == d.books.gl.entries
           + (if HasEntry(d.books.gl.entries, p.key) then [] else [Entry(p.key, ParseLines(p.lines).value)])
      && (d'.books != d.books <==> !HasEntry(d.books.gl.entries, p.key))
  {
    var r := d.requests[op.id];
    DecidedVerdict(d, op.id, op.actor, Execute(d.books, r, op.month, op.other));
    assert Execute(d.books, r, op.month, op.other) == ExecuteEntry(d.books, r.payload);
    EntryMoves(d.books, r.payload.key, ParseLines(r.payload.lines).value);
    assert d.books.gl.entries + [] == d.books.gl.entries;
  }

  /** The journal entry a withdrawal calls for: from its own liability account to its own payment account. */
  function PayoutEntry(w: Payout): Entry {
    Entry(GlKey(TxnKind.Withdrawal, w.key), Legs(TxnKind.Withdrawal, w.liability, w.payment, w.amount))
  }

  predicate Unused(b: Books, w: Payout) { !HasTxn(b.txns, w.key) && !HasEntry(b.gl.entries, GlKey(TxnKind.Withdrawal, w.key)) }

  /** A withdrawal request that ends executed has paid if and only if no savings row had its key. */
  lemma ExecutedWithdrawalPaysIff(d: Desk, op: DeskOp)
    requires Executes(d, op) && d.requests[op.id].op == WITHDRAW
    ensures ParseWithdrawal(d.requests[op.id].payload).Some?
    ensures var w, d' := ParseWithdrawal(d.requests[op.id].payload).value, DeskStep(d, op);
      && d'.books == BookStep(d.books, Withdraws(w.account, w.amount, w.payment, w.liability, w.key, op.month))
      && d'.books.txns == d.books.txns
           + (if HasTxn(d.books.txns, w.key) then [] else [Txn(w.account, TxnKind.Withdrawal, w.amount, w.key, op.month)])
      && d'.books.gl.entries == d.books.gl.entries + (if Unused(d.books, w) then [PayoutEntry(w)] else [])
      && (d'.books != d.books <==> !HasTxn(d.books.txns, w.key))
  {
    var r := d.requests[op.id];
    DecidedVerdict(d, op.id, op.actor, Execute(d.books, r, op.month, op.other));
    assert Execute(d.books, r, op.month, op.other) == ExecuteWithdrawal(d.books, r.payload, op.month);
    var w := ParseWithdrawal(r.payload).value;
    PayoutMoves(d.books, w, op.month);
    if !HasTxn(d.books.txns, w.key) {
      RecordShape(d.books, TxnKind.Withdrawal, w.account, w.liability, w.payment, w.amount, w.key, op.month);
    }
    assert d.books.txns + [] == d.books.txns && d.books.gl.entries + [] == d.books.gl.entries;
  }

  /** `submit_manual_entry` does not look for its key: a second request under it is executed and posts nothing. */
  lemma ReusedEntryKeyPostsNothing(d: Desk, id: Uuid, actor: Uuid, month: int, other: Other, ls: seq<ManualLine>, key: string)
    requires id in d.requests && d.requests[id].op == POST_ENTRY && d.requests[id].status == Pending
    requires d.requests[id].payload == JournalPayload(key, PrintLines(ls)) && Accepted(ls) && HasEntry(d.books.gl.entries, key)
    requires actor != d.requests[id].maker && !Voted(d.requests[id].votes, actor)
    requires ApprovalCount(d.requests[id].votes + [Vote(actor, true)]) >= d.requests[id].required
    ensures var r := Approve(d, id, actor, month, other);
      r.Ok? && r.value.requests[id].status == Executed && r.value.books == d.books
  {
    AcceptedEntryBalances(ls, d.books, key);
  }

  lemma FirstVoteDecides(d: Desk, id: Uuid, actor: Uuid, verdict: Verdict)
    requires id in d.requests && d.requests[id].status == Pending && d.requests[id].votes == []
    requires actor != d.requests[id].maker && d.requests[id].required <= 1 && verdict.Done?
    ensures Decide(d, id, actor, verdict)
         == Ok(Desk(verdict.books, d.requests[id := d.requests[id].(votes := [Vote(actor, true)], status := Executed)],
                    d.events + [Event(id, Granted)] + [Event(id, Ran)]))
  {
    SumAppend([], Vote(actor, true), ApproveOne());
    assert [] + [Vote(actor, true)] == [Vote(actor, true)];
  }

  /**
   * `submit_withdrawal` looks for its key among withdrawal requests only, `execute_withdraw` among all
   * savings rows: asked for under the key of a deposit, a withdrawal is accepted, approved and marked
   * executed, and nothing is paid.
   */
  lemma WithdrawalUnderUsedKeyPaysNothing(d: Desk, id: Uuid, account: Uuid, amount: Amount, payment: Uuid, maker: Uuid,
                                          key: string, asked: Desk, actor: Uuid, month: int, other: Other)
    requires id !in d.requests && !HasWithdrawKey(d, key) && AskWithdrawal(d, id, account, amount, payment, maker, key) == Ok(asked)
    requires HasTxn(d.books.txns, key) && actor != maker
    ensures id in asked.requests && asked.requests[id].status == Pending && asked.books == d.books
    ensures var paid := DeskStep(asked, Approves(id, actor, month, other));
      id in paid.requests && paid.requests[id].status == Executed && paid.books == d.books
  {
    var a := FindAccount(d.books.accounts, account).value;
    WithdrawalRoundTrip(a, amount, payment, key);
    OneVotePays(asked, id, PrintWithdrawal(a, amount, payment, key), Payout(a.id, Money(amount), payment, a.liability, key), maker, actor, month, other);
  }

  lemma SubmittedTwice(d: Desk, x: Uuid, y: Uuid, p: Payload, maker: Uuid)
    requires x != y && x !in d.requests && y !in d.requests
    ensures var d1 := DeskStep(DeskStep(d, Submits(x, WITHDRAW, p, maker, 1, None)), Submits(y, WITHDRAW, p, maker, 1, None));
      && x in d1.requests && y in d1.requests && d1.books == d.books
      && d1.requests[x] == d1.requests[y] == Request(WITHDRAW, p, maker, 1, Pending, None, [])
  {
  }

  lemma OneVotePays(d: Desk, id: Uuid, p: Payload, w: Payout, maker: Uuid, actor: Uuid, month: int, other: Other)
    requires id in d.requests && d.requests[id] == Request(WITHDRAW, p, maker, 1, Pending, None, []) && actor != maker
    requires ParseWithdrawal(p) == Some(w) && Withdraw(d.books, w.account, w.amount, w.payment, w.liability, w.key, month).Ok?
    ensures var d' := DeskStep(d, Approves(id, actor, month, other));
      && d'.books == Withdraw(d.books, w.account, w.amount, w.payment, w.liability, w.key, month).value
      && d'.requests == d.requests[id := Request(WITHDRAW, p, maker, 1, Executed, None, [Vote(actor, true)])]
  {
    FirstVoteDecides(d, id, actor, Done(Withdraw(d.books, w.account, w.amount, w.payment, w.liability, w.key, month).value));
  }

  /** Submitted twice through the general endpoint, one withdrawal is paid once and executed twice. */
  lemma TwoRequestsOneRow(d: Desk, x: Uuid, y: Uuid, p: Payload, w: Payout, maker: Uuid, actor: Uuid, month: int, other: Other)
    requires x != y && x !in d.requests && y !in d.requests && actor != maker
    requires ParseWithdrawal(p) == Some(w) && !HasTxn(d.books.txns, w.key)
    requires Withdraw(d.books, w.account, w.amount, w.payment, w.liability, w.key, month).Ok?
    ensures var d1 := DeskStep(DeskStep(d, Submits(x, WITHDRAW, p, maker, 1, None)), Submits(y, WITHDRAW, p, maker, 1, None));
      var d2 := DeskStep(DeskStep(d1, Approves(x, actor, month, other)), Approves(y, actor, month, other));
      var t := Txn(w.account, TxnKind.Withdrawal, w.amount, w.key, month);
      && d2.books.txns == d.books.txns + [t]
      && x in d2.requests && y in d2.requests && BacksTxn(d2.requests[x], t) && BacksTxn(d2.requests[y], t)
      && !BackedOnce(d2.requests, t)
  {
    var d1 := DeskStep(DeskStep(d, Submits(x, WITHDRAW, p, maker, 1, None)), Submits(y, WITHDRAW, p, maker, 1, None));
    SubmittedTwice(d, x, y, p, maker);
    RecordShape(d.books, TxnKind.Withdrawal, w.account, w.liability, w.payment, w.amount, w.key, month);
    OneVotePays(d1, x, p, w, maker, actor, month, other);
    HasTxnAppend(d.books.txns, Txn(w.account, TxnKind.Withdrawal, w.amount, w.key, month), w.key);
    OneVotePays(DeskStep(d1, Approves(x, actor, month, other)), y, p, w, maker, actor, month, other);
  }

  // ── Requests and rows one to one ────────────────────────────────────────────

  /** Every state a run passes through, from the first to the one it ends in. */
  function DeskTrace(d: Desk, ops: seq<DeskOp>): (trace: seq<Desk>)
    ensures |trace| == |ops| + 1 && trace[0] == d && trace[|ops|] == DeskRun(d, ops)
    decreases |ops|
  {
    if ops == [] then [d] else [d] + DeskTrace(DeskStep(d, ops[0]), ops[1..])
  }

  predicate Settled(requests: map<Uuid, Request>, op: string, id: Uuid) {
    id in requests && requests[id].op == op && requests[id].status == Executed
  }

  /** A request becomes executed by its own approval and no other way. */
  lemma StepSettles(d: Desk, op: DeskOp, kind: string, id: Uuid)
    ensures Settled(DeskStep(d, op).requests, kind, id)
       <==> Settled(d.requests, kind, id) || (Executes(d, op) && op.id == id && d.requests[id].op == kind)
    ensures Settled(d.requests, kind, id) ==> DeskStep(d, op).requests[id] == d.requests[id]
    ensures Executes(d, op) ==> op.id in DeskStep(d, op).requests && DeskStep(d, op).requests[op.id].payload == d.requests[op.id].payload
  {
  }

  /** Approvals that execute nothing move nothing. */
  lemma IdleApproval(d: Desk, op: DeskOp)
    requires op.Approves? && !Executes(d, op)
    ensures DeskStep(d, op).books == d.books
  {
    if Approve(d, op.id, op.actor, op.month, op.other).Ok? { ApprovalMoves(d, op.id, op.actor, op.month, op.other); }
  }

  /** Savings rows change by an executed withdrawal or by another module's move. */
  lemma StepTxns(d: Desk, op: DeskOp)
    requires op.Moves? ==> !op.move.Withdraws?
    requires !(Executes(d, op) && d.requests[op.id].op == WITHDRAW)
    ensures forall t: Txn :: t.kind == TxnKind.Withdrawal ==> (t in DeskStep(d, op).books.txns <==> t in d.books.txns)
  {
    if op.Moves? {
      MoveRows(d.books, op.move);
    } else if op.Approves? {
      if Executes(d, op) { OtherExecution(d, op); } else { IdleApproval(d, op); }
    } else {
      QuietBooks(d, op);
    }
  }

  lemma OtherExecution(d: Desk, op: DeskOp)
    requires Executes(d, op) && d.requests[op.id].op != WITHDRAW
    ensures DeskStep(d, op).books.txns == d.books.txns
    ensures d.requests[op.id].op != POST_ENTRY ==> DeskStep(d, op).books == d.books
  {
    if d.requests[op.id].op == POST_ENTRY {
      ExecutedEntryPostsIff(d, op);
      var p := d.requests[op.id].payload;
      OtherStep(d.books, Journal(p.key, ParseLines(p.lines).value));
    } else {
      ApprovalMoves(d, op.id, op.actor, op.month, op.other);
    }
  }

  lemma DeskKeysDistinct(d: Desk, op: DeskOp)
    requires DistinctTxnKeys(d.books.txns) && DistinctKeys(d.books.gl.entries)
    ensures DistinctTxnKeys(DeskStep(d, op).books.txns) && DistinctKeys(DeskStep(d, op).books.gl.entries)
  {
    if op.Moves? {
      StepKeysDistinct(d.books, op.move);
    } else if op.Approves? {
      if Approve(d, op.id, op.actor, op.month, op.other).Ok? {
        ApprovalMoves(d, op.id, op.actor, op.month, op.other);
        if MoveOf(d.requests[op.id], op.month).Some? { StepKeysDistinct(d.books, MoveOf(d.requests[op.id], op.month).value); }
      }
    } else {
      QuietBooks(d, op);
    }
  }

  ghost predicate HasRow(txns: seq<Txn>, r: Request) { exists t :: t in txns && t.kind == TxnKind.Withdrawal && BacksTxn(r, t) }

  /** Withdrawal rows and executed withdrawal requests, one to one. */
  ghost predicate WithdrawalsMatch(d: Desk) {
    && (forall t :: t in d.books.txns && t.kind == TxnKind.Withdrawal ==> BackedOnce(d.requests, t))
    && (forall id :: Settled(d.requests, WITHDRAW, id) ==> HasRow(d.books.txns, d.requests[id]))
  }

  /** The guard: the withdrawal about to be executed finds its key unused. */
  predicate PaysFresh(d: Desk, op: DeskOp) {
    Executes(d, op) && d.requests[op.id].op == WITHDRAW ==>
      var w := ParseWithdrawal(d.requests[op.id].payload); w.Some? ==> !HasTxn(d.books.txns, w.value.key)
  }

  lemma MatchFrame(d: Desk, d': Desk)
    requires WithdrawalsMatch(d) && DeskInv(d')
    requires forall t: Txn :: t.kind == TxnKind.Withdrawal ==> (t in d'.books.txns <==> t in d.books.txns)
    requires forall id :: (Settled(d'.requests, WITHDRAW, id) <==> Settled(d.requests, WITHDRAW, id))
                       && (Settled(d.requests, WITHDRAW, id) ==> d'.requests[id] == d.requests[id])
    ensures WithdrawalsMatch(d')
  {
    forall t | t in d'.books.txns && t.kind == TxnKind.Withdrawal ensures BackedOnce(d'.requests, t) {
      var id :| id in d.requests && BacksTxn(d.requests[id], t) && forall other :: other in d.requests && BacksTxn(d.requests[other], t) ==> other == id;
      assert Settled(d.requests, WITHDRAW, id);
      assert id in d'.requests && BacksTxn(d'.requests[id], t) && GoodRequest(d'.requests[id]);
      forall other | other in d'.requests && BacksTxn(d'.requests[other], t) ensures other == id {
        assert Settled(d'.requests, WITHDRAW, other);
      }
    }
    forall id | Settled(d'.requests, WITHDRAW, id) ensures HasRow(d'.books.txns, d'.requests[id]) {
      var t :| t in d.books.txns && t.kind == TxnKind.Withdrawal && BacksTxn(d.requests[id], t);
      assert t in d'.books.txns;
    }
  }

  /** `id` became the one more executed withdrawal, and `row` the one more row. */
  ghost predicate AddsPayout(d: Desk, d': Desk, id: Uuid, row: Txn) {
    && !Settled(d.requests, WITHDRAW, id) && !HasTxn(d.books.txns, row.key) && row.kind == TxnKind.Withdrawal
    && d'.books.txns == d.books.txns + [row]
    && id in d'.requests && BacksTxn(d'.requests[id], row)
    && forall x :: (Settled(d'.requests, WITHDRAW, x) <==> Settled(d.requests, WITHDRAW, x) || x == id)
                && (Settled(d.requests, WITHDRAW, x) ==> d'.requests[x] == d.requests[x])
  }

  /** A payout under a fresh key adds one row and its one request. */
  lemma FreshPayoutAdds(d: Desk, op: DeskOp) returns (row: Txn)
    requires Executes(d, op) && d.requests[op.id].op == WITHDRAW && PaysFresh(d, op)
    ensures AddsPayout(d, DeskStep(d, op), op.id, row)
  {
    ExecutedWithdrawalPaysIff(d, op);
    var w := ParseWithdrawal(d.requests[op.id].payload).value;
    row := Txn(w.account, TxnKind.Withdrawal, w.amount, w.key, op.month);
    forall id { StepSettles(d, op, WITHDRAW, id); }
  }

  lemma AddedPayoutMatches(d: Desk, d': Desk, id: Uuid, row: Txn)
    requires WithdrawalsMatch(d) && DeskInv(d') && AddsPayout(d, d', id, row)
    ensures WithdrawalsMatch(d')
  {
    forall t | t in d'.books.txns && t.kind == TxnKind.Withdrawal ensures BackedOnce(d'.requests, t) {
      BackedAfter(d, d', id, row, t);
    }
    forall x | Settled(d'.requests, WITHDRAW, x) ensures HasRow(d'.books.txns, d'.requests[x]) {
      if x == id {
        assert row in d'.books.txns;
      } else {
        var t :| t in d.books.txns && t.kind == TxnKind.Withdrawal && BacksTxn(d.requests[x], t);
        assert t in d'.books.txns;
      }
    }
  }

  lemma BackedAfter(d: Desk, d': Desk, id: Uuid, row: Txn, t: Txn)
    requires WithdrawalsMatch(d) && DeskInv(d') && AddsPayout(d, d', id, row)
    requires t in d'.books.txns && t.kind == TxnKind.Withdrawal
    ensures BackedOnce(d'.requests, t)
  {
    if t in d.books.txns {
      assert t.key != row.key;
      var b :| b in d.requests && BacksTxn(d.requests[b], t) && forall other :: other in d.requests && BacksTxn(d.requests[other], t) ==> other == b;
      assert Settled(d.requests, WITHDRAW, b);
      assert b in d'.requests && BacksTxn(d'.requests[b], t) && GoodRequest(d'.requests[b]);
      forall other | other in d'.requests && BacksTxn(d'.requests[other], t) ensures other == b {
        assert Settled(d'.requests, WITHDRAW, other);
      }
    } else {
      assert t == row && GoodRequest(d'.requests[id]);
      forall other | other in d'.requests && BacksTxn(d'.requests[other], t) ensures other == id {
        assert Settled(d'.requests, WITHDRAW, other);
      }
    }
  }

  /** `id` became the one more executed withdrawal, and no row was added. */
  ghost predicate AddsNoPayout(d: Desk, d': Desk, id: Uuid) {
    && !Settled(d.requests, WITHDRAW, id) && Settled(d'.requests, WITHDRAW, id) && d'.books.txns == d.books.txns
    && forall x :: Settled(d.requests, WITHDRAW, x) ==> x in d'.requests && d'.requests[x] == d.requests[x]
  }

  lemma UsedPayoutAddsNone(d: Desk, op: DeskOp)
    requires Executes(d, op) && d.requests[op.id].op == WITHDRAW && !PaysFresh(d, op)
    ensures AddsNoPayout(d, DeskStep(d, op), op.id)
  {
    ExecutedWithdrawalPaysIff(d, op);
    forall id { StepSettles(d, op, WITHDRAW, id); }
    assert d.books.txns + [] == d.books.txns;
  }

  /** A request that paid nothing shares a row with another, or has none. */
  lemma UnpaidClashes(d: Desk, d': Desk, id: Uuid)
    requires WithdrawalsMatch(d) && AddsNoPayout(d, d', id)
    ensures !WithdrawalsMatch(d')
  {
    if t :| t in d'.books.txns && t.kind == TxnKind.Withdrawal && BacksTxn(d'.requests[id], t) {
      var b :| b in d.requests && BacksTxn(d.requests[b], t);
      assert Settled(d.requests, WITHDRAW, b) && b != id && BacksTxn(d'.requests[b], t);
    }
  }

  lemma StepMatchesIff(d: Desk, op: DeskOp)
    requires DeskInv(d) && DistinctTxnKeys(d.books.txns) && WithdrawalsMatch(d) && (op.Moves? ==> !op.move.Withdraws?)
    ensures WithdrawalsMatch(DeskStep(d, op)) <==> PaysFresh(d, op)
  {
    if Executes(d, op) && d.requests[op.id].op == WITHDRAW {
      if PaysFresh(d, op) {
        var row := FreshPayoutAdds(d, op);
        DeskStepKeeps(d, op);
        AddedPayoutMatches(d, DeskStep(d, op), op.id, row);
      } else {
        UsedPayoutAddsNone(d, op);
        UnpaidClashes(d, DeskStep(d, op), op.id);
      }
    } else {
      DeskStepKeeps(d, op);
      StepTxns(d, op);
      forall id { StepSettles(d, op, WITHDRAW, id); }
      MatchFrame(d, DeskStep(d, op));
    }
  }

  predicate PaysFreshRun(d: Desk, ops: seq<DeskOp>)
    decreases |ops|
  {
    ops == [] || (PaysFresh(d, ops[0]) && PaysFreshRun(DeskStep(d, ops[0]), ops[1..]))
  }

  lemma {:induction false} RunMatchesIff(d: Desk, ops: seq<DeskOp>)
    requires DeskInv(d) && DistinctTxnKeys(d.books.txns) && DistinctKeys(d.books.gl.entries) && WithdrawalsMatch(d)
    requires forall i :: 0 <= i < |ops| && ops[i].Moves? ==> !ops[i].move.Withdraws?
    ensures (forall x :: x in DeskTrace(d, ops) ==> WithdrawalsMatch(x)) <==> PaysFreshRun(d, ops)
    decreases |ops|
  {
    if ops != [] {
      var d' := DeskStep(d, ops[0]);
      StepMatchesIff(d, ops[0]);
      DeskStepKeeps(d, ops[0]);
      DeskKeysDistinct(d, ops[0]);
      assert DeskTrace(d, ops) == [d] + DeskTrace(d', ops[1..]) && d' in DeskTrace(d', ops[1..]);
      if WithdrawalsMatch(d') { RunMatchesIff(d', ops[1..]); }
    }
  }

  /**
   * In every run, requests submitted by any endpoint included: withdrawal rows and executed withdrawal
   * requests stay one to one, after every call, if and only if every withdrawal that is executed finds its
   * key unused.
   */
  lemma WithdrawalsTracedIff(ops: seq<DeskOp>)
    requires forall i :: 0 <= i < |ops| && ops[i].Moves? ==> !ops[i].move.Withdraws?
    ensures (forall d :: d in DeskTrace(NO_DESK, ops) ==> WithdrawalsMatch(d)) <==> PaysFreshRun(NO_DESK, ops)
  {
    RunMatchesIff(NO_DESK, ops);
  }

  // ── Where every entry came from ─────────────────────────────────────────────

  datatype Source = ByRequest(id: Uuid) | ByModule

  /** Who added the step's entry, if it added one. */
  function NewSource(d: Desk, op: DeskOp): seq<Source> {
    if DeskStep(d, op).books.gl.entries == d.books.gl.entries then [] else [if op.Approves? then ByRequest(op.id) else ByModule]
  }

  /** Who added each entry of a run, in ledger order. */
  function Sources(d: Desk, ops: seq<DeskOp>): seq<Source>
    decreases |ops|
  {
    if ops == [] then [] else NewSource(d, ops[0]) + Sources(DeskStep(d, ops[0]), ops[1..])
  }

  /** Requests whose executor posts to the ledger itself. */
  predicate PostsEntry(r: Request) { r.op == WITHDRAW || r.op == POST_ENTRY }

  /** The entry a request calls for. */
  function EntryOf(r: Request): Option<Entry> {
    if r.op == WITHDRAW then
      match ParseWithdrawal(r.payload)
      case None => None
      case Some(w) => Some(PayoutEntry(w))
    else if r.op == POST_ENTRY && r.payload.JournalPayload? then
      match ParseLines(r.payload.lines)
      case None => None
      case Some(lines) => Some(Entry(r.payload.key, lines))
    else None
  }

  /** The request about to be executed finds its keys unused. */
  predicate Fresh(d: Desk, op: DeskOp) {
    && Executes(d, op)
    && var r := d.requests[op.id];
       if r.op == WITHDRAW then ParseWithdrawal(r.payload).Some? && Unused(d.books, ParseWithdrawal(r.payload).value)
       else r.op == POST_ENTRY && r.payload.JournalPayload? && !HasEntry(d.books.gl.entries, r.payload.key)
  }

  /** The request is executed, and the entry is the one it calls for. */
  predicate Stands(requests: map<Uuid, Request>, id: Uuid, e: Entry) {
    id in requests && requests[id].status == Executed && EntryOf(requests[id]) == Some(e)
  }

  /** Each entry added by approval is what its request calls for, and no request added two. */
  ghost predicate Sourced(d: Desk, src: seq<Source>) {
    && |src| == |d.books.gl.entries|
    && (forall i :: 0 <= i < |src| && src[i].ByRequest? ==> Stands(d.requests, src[i].id, d.books.gl.entries[i]))
    && (forall i, j :: 0 <= i < j < |src| && src[i].ByRequest? ==> src[i] != src[j])
  }

  /** An approval posts what its request calls for if the keys are unused, and nothing otherwise. */
  lemma ApprovalPosts(d: Desk, op: DeskOp)
    requires op.Approves?
    ensures Fresh(d, op) ==> EntryOf(d.requests[op.id]).Some?
    ensures DeskStep(d, op).books.gl.entries == d.books.gl.entries + if Fresh(d, op) then [EntryOf(d.requests[op.id]).value] else []
  {
    assert d.books.gl.entries + [] == d.books.gl.entries;
    if !Executes(d, op) {
      IdleApproval(d, op);
    } else if d.requests[op.id].op == WITHDRAW {
      ExecutedWithdrawalPaysIff(d, op);
    } else if d.requests[op.id].op == POST_ENTRY {
      ExecutedEntryPostsIff(d, op);
    } else {
      OtherExecution(d, op);
    }
  }

  lemma OneEntryAtMost(d: Desk, op: DeskOp)
    ensures DeskStep(d, op).books.gl.entries == d.books.gl.entries || AddsRow(d.books.gl.entries, DeskStep(d, op).books.gl.entries)
  {
    if op.Moves? {
      MoveRows(d.books, op.move);
    } else if op.Approves? {
      ApprovalPosts(d, op);
    } else {
      QuietBooks(d, op);
    }
  }

  lemma StandsStays(d: Desk, op: DeskOp, id: Uuid, e: Entry)
    requires Stands(d.requests, id, e)
    ensures Stands(DeskStep(d, op).requests, id, e)
  {
    DecidedIsFinal(d, op, id);
  }

  /** An approval's entry stands under a request that had none before. */
  lemma NewEntryStands(d: Desk, op: DeskOp, e: Entry)
    requires op.Approves? && DeskStep(d, op).books.gl.entries == d.books.gl.entries + [e]
    ensures Executes(d, op) && Stands(DeskStep(d, op).requests, op.id, e)
  {
    ApprovalPosts(d, op);
    assert Fresh(d, op) && EntryOf(d.requests[op.id]) == Some((d.books.gl.entries + [e])[|d.books.gl.entries|]);
    ExecutedTerms(d, op);
  }

  lemma ExecutedTerms(d: Desk, op: DeskOp)
    requires Executes(d, op)
    ensures op.id in DeskStep(d, op).requests
    ensures var r, r' := d.requests[op.id], DeskStep(d, op).requests[op.id];
      r'.status == Executed && r'.op == r.op && r'.payload == r.payload && EntryOf(r') == EntryOf(r)
  {
  }

  lemma SourceStep(d: Desk, op: DeskOp, src: seq<Source>)
    requires Sourced(d, src)
    ensures Sourced(DeskStep(d, op), src + NewSource(d, op))
  {
    var d', all := DeskStep(d, op), src + NewSource(d, op);
    OneEntryAtMost(d, op);
    forall i | 0 <= i < |all| && all[i].ByRequest? ensures Stands(d'.requests, all[i].id, d'.books.gl.entries[i]) {
      if i < |src| { StandsStays(d, op, src[i].id, d.books.gl.entries[i]); } else { NewEntryStands(d, op, d'.books.gl.entries[i]); }
    }
    forall i, j | 0 <= i < j < |all| && all[i].ByRequest? ensures all[i] != all[j] {
      if j == |src| && op.Approves? { NewEntryStands(d, op, d'.books.gl.entries[j]); }
    }
  }

  /** The step does not execute request `id`, or finds its keys unused. */
  predicate FreshFor(d: Desk, op: DeskOp, id: Uuid) {
    Executes(d, op) && op.id == id && PostsEntry(d.requests[id]) ==> Fresh(d, op)
  }

  /** The execution of request `id`, where the run has one, finds its keys unused. */
  predicate RanFresh(d: Desk, ops: seq<DeskOp>, id: Uuid)
    decreases |ops|
  {
    ops == [] || (FreshFor(d, ops[0], id) && RanFresh(DeskStep(d, ops[0]), ops[1..], id))
  }

  predicate Performed(requests: map<Uuid, Request>, id: Uuid) { id in requests && requests[id].status == Executed && PostsEntry(requests[id]) }

  /** No request has an entry before it is executed. */
  predicate NotAhead(d: Desk, src: seq<Source>, id: Uuid) {
    ByRequest(id) in src ==> id in d.requests && d.requests[id].status == Executed
  }

  /** One step gives a request its entry if it executes it under unused keys, and no other way. */
  lemma StepSources(d: Desk, op: DeskOp, src: seq<Source>, id: Uuid)
    requires NotAhead(d, src, id)
    ensures ByRequest(id) in src + NewSource(d, op) <==> ByRequest(id) in src || (Fresh(d, op) && op.id == id)
    ensures NotAhead(DeskStep(d, op), src + NewSource(d, op), id)
  {
    if op.Approves? { ApprovalPosts(d, op); }
    if id in d.requests { StepSettles(d, op, d.requests[id].op, id); }
  }

  lemma StepPerforms(d: Desk, op: DeskOp, id: Uuid)
    ensures Performed(DeskStep(d, op).requests, id) <==> Performed(d.requests, id) || (Executes(d, op) && op.id == id && PostsEntry(d.requests[id]))
    ensures Executes(d, op) && op.id == id ==> !Performed(d.requests, id)
    ensures Fresh(d, op) ==> PostsEntry(d.requests[op.id])
  {
    StepSettles(d, op, WITHDRAW, id);
    StepSettles(d, op, POST_ENTRY, id);
  }

  /** The request has its entry if it ought to. */
  predicate Entered(d: Desk, src: seq<Source>, id: Uuid) { Performed(d.requests, id) ==> ByRequest(id) in src }

  lemma StepEntered(d: Desk, op: DeskOp, src: seq<Source>, id: Uuid)
    requires NotAhead(d, src, id)
    ensures NotAhead(DeskStep(d, op), src + NewSource(d, op), id)
    ensures Entered(DeskStep(d, op), src + NewSource(d, op), id) <==> FreshFor(d, op, id) && Entered(d, src, id)
  {
    StepSources(d, op, src, id);
    StepPerforms(d, op, id);
  }

  lemma {:induction false} RunSourced(d: Desk, ops: seq<DeskOp>, src: seq<Source>)
    requires Sourced(d, src)
    ensures Sourced(DeskRun(d, ops), src + Sources(d, ops))
    decreases |ops|
  {
    if ops == [] {
      assert src + [] == src;
    } else {
      SourceStep(d, ops[0], src);
      SourcesConcat(d, ops, src);
      RunSourced(DeskStep(d, ops[0]), ops[1..], src + NewSource(d, ops[0]));
    }
  }

  lemma SourcesConcat(d: Desk, ops: seq<DeskOp>, src: seq<Source>)
    requires ops != []
    ensures src + Sources(d, ops) == (src + NewSource(d, ops[0])) + Sources(DeskStep(d, ops[0]), ops[1..])
  {
  }

  /** A request has its entry after the run if it had it before, or ran in it under unused keys. */
  lemma {:induction false} RunEntered(d: Desk, ops: seq<DeskOp>, src: seq<Source>, id: Uuid)
    requires NotAhead(d, src, id)
    ensures Entered(DeskRun(d, ops), src + Sources(d, ops), id) <==> RanFresh(d, ops, id) && Entered(d, src, id)
    decreases |ops|
  {
    if ops == [] {
      assert src + [] == src;
    } else {
      StepEntered(d, ops[0], src, id);
      SourcesConcat(d, ops, src);
      RunEntered(DeskStep(d, ops[0]), ops[1..], src + NewSource(d, ops[0]), id);
    }
  }

  lemma RunTracedIff(d: Desk, ops: seq<DeskOp>)
    requires DeskInv(d) && d.books.gl.entries == [] && d.requests == map[]
    ensures DeskInv(DeskRun(d, ops)) && Sourced(DeskRun(d, ops), Sources(d, ops))
    ensures forall id :: Entered(DeskRun(d, ops), Sources(d, ops), id) <==> RanFresh(d, ops, id)
  {
    DeskRunKeeps(d, ops);
    RunSourced(d, ops, []);
    assert [] + Sources(d, ops) == Sources(d, ops);
    forall id ensures Entered(DeskRun(d, ops), Sources(d, ops), id) <==> RanFresh(d, ops, id) {
      RunEntered(d, ops, [], id);
    }
  }

  /**
   * In every run, by any endpoint and under any keys: an entry added by approval is exactly the one its
   * executed request calls for, on the request's own accounts; no request adds two; and an executed
   * request for a withdrawal or an entry has added its entry if and only if it ran under unused keys.
   */
  lemma EntriesTracedIff(ops: seq<DeskOp>)
    ensures var d, src := DeskRun(NO_DESK, ops), Sources(NO_DESK, ops);
      && |src| == |d.books.gl.entries|
      && (forall i :: 0 <= i < |src| && src[i].ByRequest? ==>
            Stands(d.requests, src[i].id, d.books.gl.entries[i]) && GoodRequest(d.requests[src[i].id]))
      && (forall i, j :: 0 <= i < j < |src| && src[i].ByRequest? ==> src[i] != src[j])
      && (forall id :: Entered(d, src, id) <==> RanFresh(NO_DESK, ops, id))
  {
    RunTracedIff(NO_DESK, ops);
  }

  // ── Nothing else adds entries ───────────────────────────────────────────────

  /** Every entry that no approval added is another module's, or a savings operation's with its row. */
  ghost predicate ModulesOwn(d: Desk, src: seq<Source>, foreign: string -> bool) {
    && |src| == |d.books.gl.entries|
    && forall i :: 0 <= i < |src| && src[i].ByModule? ==>
         foreign(d.books.gl.entries[i].key) || SavingsPosted(d.books.txns, d.books.gl.entries[i])
  }

  lemma TxnsStay(d: Desk, op: DeskOp, t: Txn)
    requires t in d.books.txns
    ensures t in DeskStep(d, op).books.txns
  {
    if op.Moves? {
      MoveRows(d.books, op.move);
    } else if op.Approves? {
      if !Executes(d, op) {
        IdleApproval(d, op);
      } else if d.requests[op.id].op == WITHDRAW {
        ExecutedWithdrawalPaysIff(d, op);
      } else {
        OtherExecution(d, op);
      }
    } else {
      QuietBooks(d, op);
    }
  }

  lemma SavingsPostedStays(d: Desk, op: DeskOp, e: Entry)
    requires SavingsPosted(d.books.txns, e)
    ensures SavingsPosted(DeskStep(d, op).books.txns, e)
  {
    var t, liability, contra :| t in d.books.txns && PostsRow(e, t, liability, contra);
    TxnsStay(d, op, t);
  }

  /** A module's new entry is under a key of its own, or a savings operation's with its row. */
  lemma ModuleAdds(d: Desk, op: DeskOp, foreign: string -> bool, e: Entry)
    requires ModuleMove(op, foreign) && !op.Approves? && DeskStep(d, op).books.gl.entries == d.books.gl.entries + [e]
    ensures foreign(e.key) || SavingsPosted(DeskStep(d, op).books.txns, e)
  {
    if !op.Moves? {
      QuietBooks(d, op);
      assert false;
    } else {
      MoveRows(d.books, op.move);
      if WritesTxn(op.move) { SavingsRowPosted(d.books, op.move); }
    }
  }

  lemma OwnStep(d: Desk, op: DeskOp, src: seq<Source>, foreign: string -> bool)
    requires ModulesOwn(d, src, foreign) && ModuleMove(op, foreign)
    ensures ModulesOwn(DeskStep(d, op), src + NewSource(d, op), foreign)
  {
    var d', all := DeskStep(d, op), src + NewSource(d, op);
    OneEntryAtMost(d, op);
    forall i | 0 <= i < |all| && all[i].ByModule? ensures foreign(d'.books.gl.entries[i].key) || SavingsPosted(d'.books.txns, d'.books.gl.entries[i]) {
      if i == |src| {
        ModuleAdds(d, op, foreign, d'.books.gl.entries[i]);
      } else if SavingsPosted(d.books.txns, d.books.gl.entries[i]) {
        SavingsPostedStays(d, op, d.books.gl.entries[i]);
      }
    }
  }

  lemma {:induction false} OwnRun(d: Desk, ops: seq<DeskOp>, src: seq<Source>, foreign: string -> bool)
    requires ModulesOwn(d, src, foreign) && forall i :: 0 <= i < |ops| ==> ModuleMove(ops[i], foreign)
    ensures ModulesOwn(DeskRun(d, ops), src + Sources(d, ops), foreign)
    decreases |ops|
  {
    if ops == [] {
      assert src + [] == src;
    } else {
      OwnStep(d, ops[0], src, foreign);
      SourcesConcat(d, ops, src);
      OwnRun(DeskStep(d, ops[0]), ops[1..], src + NewSource(d, ops[0]), foreign);
    }
  }

  /**
   * In every run, each withdrawal row traces to an executed request for it, and each journal entry that no
   * module posted itself was added by approving its own executed request and is the entry that calls for;
   * each such request has a quorum of non-makers. A withdrawal row traces to exactly one when withdrawals
   * are only requested through `submit_withdrawal`.
   */
  lemma MoneyIsTraced(ops: seq<DeskOp>, foreign: string -> bool)
    requires forall i :: 0 <= i < |ops| ==> ModuleMove(ops[i], foreign)
    ensures var d := DeskRun(NO_DESK, ops);
      && (forall t :: t in d.books.txns && t.kind == TxnKind.Withdrawal ==> TxnBacked(d.requests, t))
      && (forall e :: e in d.books.gl.entries && !foreign(e.key) && !SavingsPosted(d.books.txns, e) ==> EntryBacked(d.requests, e))
      && |Sources(NO_DESK, ops)| == |d.books.gl.entries|
      && (forall i :: 0 <= i < |d.books.gl.entries| ==>
            match Sources(NO_DESK, ops)[i]
            case ByRequest(id) => Stands(d.requests, id, d.books.gl.entries[i])
            case ByModule => foreign(d.books.gl.entries[i].key) || SavingsPosted(d.books.txns, d.books.gl.entries[i]))
      && (forall id :: id in d.requests ==> GoodRequest(d.requests[id]))
      && ((forall i :: 0 <= i < |ops| ==> ProperAsk(ops[i]))
          ==> forall t :: t in d.books.txns && t.kind == TxnKind.Withdrawal ==> BackedOnce(d.requests, t))
  {
    var d := DeskRun(NO_DESK, ops);
    RunBacked(NO_DESK, ops, foreign);
    EntriesTracedIff(ops);
    OwnRun(NO_DESK, ops, [], foreign);
    assert [] + Sources(NO_DESK, ops) == Sources(NO_DESK, ops);
    if forall i :: 0 <= i < |ops| ==> ProperAsk(ops[i]) {
      RunTraced(NO_DESK, ops, foreign);
      forall t | t in d.books.txns && t.kind == TxnKind.Withdrawal ensures BackedOnce(d.requests, t) { WithdrawalBackedOnce(d, foreign, t); }
    }
  }

  // ── Keys of their own ───────────────────────────────────────────────────────

  /** A key that neither the savings service nor another module posts under. */
  predicate Manual(foreign: string -> bool, key: string) { !foreign(key) && !SavingsKey(key) }

  predicate CarriesEntry(r: Request, key: string) { r.op == POST_ENTRY && r.payload.JournalPayload? && r.payload.key == key }

  ghost predicate Unasked(requests: map<Uuid, Request>, key: string) {
    forall id :: id in requests ==> !CarriesEntry(requests[id], key)
  }

  ghost predicate OnePerEntry(requests: map<Uuid, Request>) {
    forall x, y, key :: x in requests && y in requests && CarriesEntry(requests[x], key) && CarriesEntry(requests[y], key) ==> x == y
  }

  /** Manual entries are asked for through `submit_manual_entry`, each under a key of its own. */
  predicate EntryKeysDistinct(ops: seq<DeskOp>) {
    && (forall i :: 0 <= i < |ops| ==> ops[i].Submits? ==> ops[i].op != POST_ENTRY)
    && (forall i, j :: 0 <= i < j < |ops| && ops[i].AsksEntry? && ops[j].AsksEntry? ==> ops[i].key != ops[j].key)
  }

  ghost predicate StillUnasked(requests: map<Uuid, Request>, ops: seq<DeskOp>) {
    forall i :: 0 <= i < |ops| && ops[i].AsksEntry? ==> Unasked(requests, ops[i].key)
  }

  /** Only an accepted ask adds a request for an entry, and it is for the key asked. */
  lemma StepCarries(d: Desk, op: DeskOp, id: Uuid, key: string)
    requires id in DeskStep(d, op).requests && CarriesEntry(DeskStep(d, op).requests[id], key)
    requires op.Submits? ==> op.op != POST_ENTRY
    ensures (id in d.requests && CarriesEntry(d.requests[id], key)) || (op.AsksEntry? && op.key == key && op.id == id)
  {
  }

  lemma StepOnePerEntry(d: Desk, ops: seq<DeskOp>)
    requires ops != [] && OnePerEntry(d.requests) && EntryKeysDistinct(ops) && StillUnasked(d.requests, ops)
    ensures OnePerEntry(DeskStep(d, ops[0]).requests) && StillUnasked(DeskStep(d, ops[0]).requests, ops[1..])
  {
    var after := DeskStep(d, ops[0]).requests;
    forall x, y, key | x in after && y in after && CarriesEntry(after[x], key) && CarriesEntry(after[y], key) ensures x == y {
      StepCarries(d, ops[0], x, key);
      StepCarries(d, ops[0], y, key);
    }
    forall i | 0 <= i < |ops[1..]| && ops[1..][i].AsksEntry? ensures Unasked(after, ops[1..][i].key) {
      var key := ops[1 + i].key;
      forall id | id in after ensures !CarriesEntry(after[id], key) {
        if CarriesEntry(after[id], key) { StepCarries(d, ops[0], id, key); }
      }
    }
  }

  /** With one request per key, a manual entry about to be executed finds its key unused. */
  lemma OwnKeyIsFresh(d: Desk, op: DeskOp, foreign: string -> bool, key: string)
    requires Traced(d, foreign) && OnePerEntry(d.requests) && Manual(foreign, key)
    requires Executes(d, op) && CarriesEntry(d.requests[op.id], key)
    ensures Fresh(d, op)
  {
    forall i | 0 <= i < |d.books.gl.entries| ensures d.books.gl.entries[i].key != key {
      var e := d.books.gl.entries[i];
      if e.key == key {
        assert e in d.books.gl.entries;
        if SavingsPosted(d.books.txns, e) {
          var t, liability, contra :| t in d.books.txns && PostsRow(e, t, liability, contra);
          GlKeyReserved(t.kind, t.key);
        }
        var b :| b in d.requests && BacksEntry(d.requests[b], e);
        assert CarriesEntry(d.requests[b], key);
      }
    }
  }

  lemma {:induction false} RequestStays(d: Desk, ops: seq<DeskOp>, id: Uuid, key: string)
    requires id in d.requests
    ensures id in DeskRun(d, ops).requests && (CarriesEntry(DeskRun(d, ops).requests[id], key) <==> CarriesEntry(d.requests[id], key))
    decreases |ops|
  {
    if ops != [] {
      TermsStay(d, ops[0], id);
      RequestStays(DeskStep(d, ops[0]), ops[1..], id, key);
    }
  }

  /** Manual entries asked for under a key each always find it unused. */
  lemma {:induction false} OwnKeysEnterFresh(d: Desk, ops: seq<DeskOp>, foreign: string -> bool, id: Uuid, key: string)
    requires Traced(d, foreign) && OnePerEntry(d.requests) && Manual(foreign, key)
    requires EntryKeysDistinct(ops) && StillUnasked(d.requests, ops) && forall i :: 0 <= i < |ops| ==> ModuleMove(ops[i], foreign)
    requires id in DeskRun(d, ops).requests && CarriesEntry(DeskRun(d, ops).requests[id], key)
    ensures RanFresh(d, ops, id)
    decreases |ops|
  {
    if ops != [] {
      if Executes(d, ops[0]) && ops[0].id == id {
        RequestStays(d, ops, id, key);
        OwnKeyIsFresh(d, ops[0], foreign, key);
      }
      StepTraced(d, ops[0], foreign);
      StepOnePerEntry(d, ops);
      OwnKeysEnterFresh(DeskStep(d, ops[0]), ops[1..], foreign, id, key);
    }
  }

  /** So every executed manual entry is in the ledger, as submitted, once. */
  lemma OwnKeysAllEnter(ops: seq<DeskOp>, foreign: string -> bool, id: Uuid, key: string)
    requires EntryKeysDistinct(ops) && Manual(foreign, key) && forall i :: 0 <= i < |ops| ==> ModuleMove(ops[i], foreign)
    requires Performed(DeskRun(NO_DESK, ops).requests, id) && CarriesEntry(DeskRun(NO_DESK, ops).requests[id], key)
    ensures exists i :: 0 <= i < |DeskRun(NO_DESK, ops).books.gl.entries| && Stands(DeskRun(NO_DESK, ops).requests, id, DeskRun(NO_DESK, ops).books.gl.entries[i])
  {
    OwnKeysEnterFresh(NO_DESK, ops, foreign, id, key);
    EntriesTracedIff(ops);
    var i :| 0 <= i < |Sources(NO_DESK, ops)| && Sources(NO_DESK, ops)[i] == ByRequest(id);
  }

  // ── What each call answers ──────────────────────────────────────────────────

  predicate Registered(op: string) {
    || op == "savings.withdraw" || op == "ledger.post_journal_entry" || op == "members.change_status" || op == "shares.redeem_shares"
    || op == "credit.approve_application" || op == "credit.write_off" || op == "credit.restructure_schedule" || op == "credit.apply_payroll_batch"
    || op == "billing.confirm_payment" || op == "billing.void_invoice" || op == "billing.cancel_subscription"
    || op == "tenant.suspend" || op == "tenant.cancel" || op == "tenant.retry_provisioning"
    || op == "platform.start_impersonation" || op == "platform_user.update_sensitive"
  }

  /** The desk with one more pending request. */
  ghost predicate Added(d: Desk, d': Desk, id: Uuid, r: Request) {
    && id !in d.requests && d'.books == d.books && d'.requests == d.requests[id := r]
    && r.status == Pending && r.votes == [] && d'.events == d.events + [Event(id, Requested)]
  }

  /** A request is registered if and only if its operation has an executor and its id is unused. */
  lemma SubmitAnswers(d: Desk, id: Uuid, op: string, p: Payload, maker: Uuid, required: int, expires: Option<int>)
    ensures var r := Submit(d, id, op, p, maker, required, expires);
      && (r == Err(ValueError) <==> !Registered(op))
      && (r.Ok? <==> Registered(op) && id !in d.requests)
      && (r.Ok? ==> Added(d, r.value, id, Request(op, p, maker, required, Pending, expires, [])))
  {
  }

  ghost predicate CarriesWithdrawKey(r: Request, key: string) {
    r.op == "savings.withdraw" && ((r.payload.WithdrawPayload? && r.payload.key == key) || (r.payload.JournalPayload? && r.payload.key == key))
  }

  /** The account covers the amount now, and keeps its minimum. */
  predicate Covers(b: Books, a: SavingsAccount, amount: int) {
    amount <= Balance(b.txns, a.id) && Balance(b.txns, a.id) - amount >= a.minimum
  }

  /**
   * `submit_withdrawal` under a key no withdrawal request carries adds its request if and only if the account
   * exists, the balance covers the amount and leaves the minimum, and the id is unused.
   */
  lemma AskWithdrawalAnswers(d: Desk, id: Uuid, account: Uuid, amount: Amount, payment: Uuid, maker: Uuid, key: string)
    ensures var r, owner := AskWithdrawal(d, id, account, amount, payment, maker, key), FindAccount(d.books.accounts, account);
      if owner.None? then r == Err(ValueError)
      else if exists x :: x in d.requests && CarriesWithdrawKey(d.requests[x], key) then r == Ok(d)
      else
        && (r == Err(ValueError) <==> !Covers(d.books, owner.value, Money(amount)))
        && (r.Ok? <==> Covers(d.books, owner.value, Money(amount)) && id !in d.requests)
        && (r.Ok? ==> Added(d, r.value, id, Request("savings.withdraw", WithdrawPayload(account, Str(amount), payment, owner.value.liability, key),
                                                    maker, 1, Pending, None, [])))
  {
    assert forall x :: x in d.requests ==>
      (CarriesWithdrawKey(d.requests[x], key) <==> d.requests[x].op == WITHDRAW && KeyOf(d.requests[x].payload) == Some(key));
  }

  /** A manual entry is asked for if and only if it has two lines and equal totals, and the id is unused. */
  lemma AskEntryAnswers(d: Desk, id: Uuid, ls: seq<ManualLine>, maker: Uuid, key: string)
    ensures var r := AskEntry(d, id, ls, maker, key);
      && (r == Err(ValueError) <==> |ls| < 2 || SumBy(Stored(ls), DebitOf()) != SumBy(Stored(ls), CreditOf()))
      && (r.Ok? <==> r != Err(ValueError) && id !in d.requests)
      && (r.Ok? ==> Added(d, r.value, id, Request("ledger.post_journal_entry", JournalPayload(key, PrintLines(ls)), maker, 1, Pending, None, [])))
  {
    StoredTotals(ls);
  }

  /** A vote counts once per actor, never the maker's, on a pending request. */
  predicate MayVote(d: Desk, id: Uuid, actor: Uuid) {
    id in d.requests && d.requests[id].status == Pending && actor != d.requests[id].maker
  }

  ghost predicate HasVoted(r: Request, actor: Uuid) { exists v :: v in r.votes && v.actor == actor }

  lemma HasVotedIff(r: Request, actor: Uuid)
    ensures Voted(r.votes, actor) <==> HasVoted(r, actor)
  {
    if v :| v in r.votes && v.actor == actor {
      var i :| 0 <= i < |r.votes| && r.votes[i] == v;
    }
  }

  /**
   * An approval is taken if and only if the request is pending, the actor is not the maker and has not voted,
   * and the execution it may set off does not break a constraint. It executes at quorum and not before.
   */
  lemma ApproveAnswers(d: Desk, id: Uuid, actor: Uuid, month: int, other: Other)
    ensures var r := Approve(d, id, actor, month, other);
      && (r == Err(ValueError) <==> !MayVote(d, id, actor))
      && (MayVote(d, id, actor) ==>
            var q := d.requests[id];
            var v, quorum := Execute(d.books, q, month, other), ApprovalCount(q.votes) + 1 >= q.required;
            && (r.Ok? <==> !HasVoted(q, actor) && (quorum ==> !v.Violated?))
            && (r.Ok? ==>
                  && r.value.requests == d.requests[id := r.value.requests[id]]
                  && r.value.requests[id] == q.(votes := q.votes + [Vote(actor, true)],
                                                status := if !quorum then Pending else if v.Done? then Executed else ExecutionFailed)
                  && r.value.books == (if quorum && v.Done? then v.books else d.books)))
  {
    if MayVote(d, id, actor) {
      HasVotedIff(d.requests[id], actor);
      SumAppend(d.requests[id].votes, Vote(actor, true), ApproveOne());
    }
  }

  /** A refusal is taken on the same terms, and one is enough. */
  lemma RejectAnswers(d: Desk, id: Uuid, actor: Uuid)
    ensures var r := Reject(d, id, actor);
      && (r == Err(ValueError) <==> !MayVote(d, id, actor))
      && (r.Ok? <==> MayVote(d, id, actor) && !HasVoted(d.requests[id], actor))
      && (r.Ok? ==>
            && r.value.books == d.books && r.value.requests == d.requests[id := r.value.requests[id]]
            && r.value.requests[id] == d.requests[id].(votes := d.requests[id].votes + [Vote(actor, false)], status := Rejected))
  {
    if id in d.requests { HasVotedIff(d.requests[id], actor); }
  }

  /** Only its own maker cancels a request, while nobody has voted. */
  lemma CancelAnswers(d: Desk, id: Uuid, maker: Uuid)
    ensures var r := Cancel(d, id, maker);
      && (r.Ok? <==> id in d.requests && d.requests[id].status == Pending && d.requests[id].maker == maker && d.requests[id].votes == [])
      && (r.Err? ==> r.error == ValueError)
      && (r.Ok? ==> r.value == d.(requests := d.requests[id := d.requests[id].(status := Cancelled)]))
  {
  }

  /** The expiry job changes exactly the pending requests whose expiry has passed, and only their status. */
  lemma ExpireAnswers(d: Desk, now: int)
    ensures var d' := Expire(d, now);
      && d'.books == d.books && d'.events == d.events && d'.requests.Keys == d.requests.Keys
      && forall id :: id in d.requests ==>
           if d.requests[id].status == Pending && d.requests[id].expires.Some? && d.requests[id].expires.value < now
           then d'.requests[id] == d.requests[id].(status := Expired)
           else d'.requests[id] == d.requests[id]
  {
  }

  /** Who may move a request to each status, and on what terms. */
  predicate MayMove(r: Request, id: Uuid, op: DeskOp, status: Status) {
    match status
    case Pending => true
    case Approved => false
    case Executed => op.Approves? && op.id == id && op.actor != r.maker
    case ExecutionFailed => op.Approves? && op.id == id && op.actor != r.maker
    case Rejected => op.Rejects? && op.id == id && op.actor != r.maker
    case Cancelled => op.Cancels? && op.id == id && op.maker == r.maker && r.votes == []
    case Expired => op.Expires? && r.expires.Some? && r.expires.value < op.now
  }

  /** A request leaves pending for a status only by the one who may move it there, and never comes back. */
  lemma StatusMovesIf(d: Desk, op: DeskOp, id: Uuid)
    requires id in d.requests && DeskStep(d, op).requests[id].status != d.requests[id].status
    ensures d.requests[id].status == Pending && MayMove(d.requests[id], id, op, DeskStep(d, op).requests[id].status)
  {
    if d.requests[id].status != Pending { DecidedIsFinal(d, op, id); }
  }

  // ── Withdrawals were covered when asked ─────────────────────────────────────

  /** The request is what this ask adds, and the account covered it at the time; or it came unchecked by the general endpoint. */
  ghost predicate CoveredAsk(d: Desk, op: DeskOp, id: Uuid, p: Payload) {
    if op.Submits? then op.id == id && op.op == "savings.withdraw" && p == op.payload
    else
      && op.AsksWithdrawal? && op.id == id
      && var owner := FindAccount(d.books.accounts, op.account);
         && owner.Some? && Covers(d.books, owner.value, Money(op.amount))
         && p == WithdrawPayload(op.account, Str(op.amount), op.payment, owner.value.liability, op.key)
  }

  ghost predicate AskedCovered(d: Desk, ops: seq<DeskOp>, id: Uuid, p: Payload) {
    exists k :: 0 <= k < |ops| && CoveredAsk(DeskTrace(d, ops)[k], ops[k], id, p)
  }

  /** Only the general endpoint and a covered ask add a withdrawal request. */
  lemma NewWithdrawalCovered(d: Desk, op: DeskOp, id: Uuid)
    requires id !in d.requests && id in DeskStep(d, op).requests && DeskStep(d, op).requests[id].op == WITHDRAW
    ensures CoveredAsk(d, op, id, DeskStep(d, op).requests[id].payload)
  {
    TermsStay(d, op, id);
    if op.AsksWithdrawal? { AskWithdrawalAnswers(d, op.id, op.account, op.amount, op.payment, op.maker, op.key); }
  }

  lemma {:induction false} RunAsksCovered(d: Desk, ops: seq<DeskOp>, id: Uuid)
    requires id !in d.requests && id in DeskRun(d, ops).requests && DeskRun(d, ops).requests[id].op == WITHDRAW
    ensures AskedCovered(d, ops, id, DeskRun(d, ops).requests[id].payload)
    decreases |ops|
  {
    var d' := DeskStep(d, ops[0]);
    var p := DeskRun(d, ops).requests[id].payload;
    assert DeskTrace(d, ops) == [d] + DeskTrace(d', ops[1..]);
    if id in d'.requests {
      RequestTermsStay(d', ops[1..], id);
      NewWithdrawalCovered(d, ops[0], id);
      assert CoveredAsk(DeskTrace(d, ops)[0], ops[0], id, p);
    } else {
      RunAsksCovered(d', ops[1..], id);
      var k :| 0 <= k < |ops[1..]| && CoveredAsk(DeskTrace(d', ops[1..])[k], ops[1..][k], id, p);
      assert CoveredAsk(DeskTrace(d, ops)[k + 1], ops[k + 1], id, p);
    }
  }

  lemma {:induction false} RequestTermsStay(d: Desk, ops: seq<DeskOp>, id: Uuid)
    requires id in d.requests
    ensures var after := DeskRun(d, ops).requests;
      id in after && after[id].op == d.requests[id].op && after[id].payload == d.requests[id].payload
    decreases |ops|
  {
    if ops != [] {
      TermsStay(d, ops[0], id);
      RequestTermsStay(DeskStep(d, ops[0]), ops[1..], id);
    }
  }

  /**
   * In every run each withdrawal request was added by `submit_withdrawal`, at a moment when the balance
   * covered its amount and left the account's minimum, or else came through the general endpoint.
   */
  lemma WithdrawalsWereCovered(ops: seq<DeskOp>, id: Uuid)
    requires id in DeskRun(NO_DESK, ops).requests && DeskRun(NO_DESK, ops).requests[id].op == "savings.withdraw"
    ensures AskedCovered(NO_DESK, ops, id, DeskRun(NO_DESK, ops).requests[id].payload)
  {
    RunAsksCovered(NO_DESK, ops, id);
  }

  // ── The service ─────────────────────────────────────────────────────────────

  /** A withdrawal's entry is always two balanced lines, so it fails only on a constraint. */
  lemma WithdrawNeverRaises(b: Books, w: Payout, month: int)
    ensures Withdraw(b, w.account, w.amount, w.payment, w.liability, w.key, month) != Err(ValueError)
  {
    var legs := Legs(TxnKind.Withdrawal, w.liability, w.payment, w.amount);
    TwoLines(legs[0], legs[1], w.liability);
    assert legs == [legs[0], legs[1]];
  }

  class ApprovalService {
    const savings: SavingsService
    var requests: map<Uuid, Request>
    var events: seq<Event>

    function State(): Desk
      reads this, savings, savings.ledger
    {
      Desk(savings.State(), requests, events)
    }

    constructor (savings: SavingsService)
      ensures this.savings == savings && requests == map[] && events == []
    {
      this.savings := savings;
      requests, events := map[], [];
    }

    method SubmitRequest(id: Uuid, op: string, p: Payload, maker: Uuid, required: int, expires: Option<int>) returns (r: Outcome<()>)
      modifies this
      ensures State() == DeskStep(old(State()), Submits(id, op, p, maker, required, expires))
      ensures match Submit(old(State()), id, op, p, maker, required, expires) case Ok(_) => r == Ok(()) case Err(e) => r == Err(e)
    {
      if op !in REGISTRY {
        return Err(ValueError);
      }
      if id in requests {
        return Err(IntegrityError);
      }
      requests := requests[id := Request(op, p, maker, required, Pending, expires, [])];
      events := events + [Event(id, Requested)];
      return Ok(());
    }

    /** `submit_withdrawal`: the balance is checked here, and only here. */
    method SubmitWithdrawal(id: Uuid, account: Uuid, amount: Amount, payment: Uuid, maker: Uuid, key: string) returns (r: Outcome<()>)
      modifies this
      ensures State() == DeskStep(old(State()), AsksWithdrawal(id, account, amount, payment, maker, key))
      ensures match AskWithdrawal(old(State()), id, account, amount, payment, maker, key) case Ok(_) => r == Ok(()) case Err(e) => r == Err(e)
    {
      var owner := FindAccount(savings.accounts, account);
      if owner.None? {
        return Err(ValueError);
      }
      if exists x :: x in requests && requests[x].op == WITHDRAW && KeyOf(requests[x].payload) == Some(key) {
        return Ok(());
      }
      var balance := savings.GetBalance(account);
      if Money(amount) > balance.value || balance.value - Money(amount) < owner.value.minimum {
        return Err(ValueError);
      }
      r := SubmitRequest(id, WITHDRAW, PrintWithdrawal(owner.value, amount, payment, key), maker, 1, None);
    }

    /** `submit_manual_entry`: refuses an unbalanced entry before any request exists. */
    method SubmitManualEntry(id: Uuid, lines: seq<ManualLine>, maker: Uuid, key: string) returns (r: Outcome<()>)
      modifies this
      ensures State() == DeskStep(old(State()), AsksEntry(id, lines, maker, key))
      ensures match AskEntry(old(State()), id, lines, maker, key) case Ok(_) => r == Ok(()) case Err(e) => r == Err(e)
    {
      var ok := Checks(lines);
      if !ok {
        return Err(ValueError);
      }
      r := SubmitRequest(id, POST_ENTRY, JournalPayload(key, PrintLines(lines)), maker, 1, None);
    }

    static method Checks(lines: seq<ManualLine>) returns (ok: bool)
      ensures ok <==> Accepted(lines)
    {
      var debit, credit := 0, 0;
      for i := 0 to |lines|
        invariant debit == SumBy(lines[..i], DebitMoney()) && credit == SumBy(lines[..i], CreditMoney())
      {
        assert lines[..i + 1] == lines[..i] + [lines[i]];
        debit, credit := debit + Money(lines[i].debit), credit + Money(lines[i].credit);
      }
      assert lines[..|lines|] == lines;
      ok := debit == credit && |lines| >= 2;
    }

    method CountApprovals(id: Uuid) returns (count: int)
      requires id in requests
      ensures count == ApprovalCount(requests[id].votes)
    {
      count := 0;
      var votes := requests[id].votes;
      for i := 0 to |votes|
        invariant count == ApprovalCount(votes[..i])
      {
        assert votes[..i + 1] == votes[..i] + [votes[i]];
        SumAppend(votes[..i], votes[i], ApproveOne());
        if votes[i].approve {
          count := count + 1;
        }
      }
      assert votes[..|votes|] == votes;
    }

    /** The registered executor of the two operations modelled here; the rest report `other`. */
    method RunExecutor(req: Request, month: int, other: Other) returns (r: Outcome<()>)
      modifies savings, savings.ledger
      ensures match Execute(old(savings.State()), req, month, other)
              case Done(b) => r == Ok(()) && savings.State() == b
              case Raised => r == Err(ValueError) && savings.State() == old(savings.State())
              case Violated => r == Err(IntegrityError)
    {
      if req.op == WITHDRAW {
        var parsed := ParseWithdrawal(req.payload);
        if parsed.None? {
          return Err(ValueError);
        }
        var w := parsed.value;
        WithdrawNeverRaises(savings.State(), w, month);
        r := savings.ExecuteWithdraw(w.account, w.amount, w.payment, w.liability, w.key, month);
      } else if req.op == POST_ENTRY {
        if !req.payload.JournalPayload? {
          return Err(ValueError);
        }
        var lines := ParseLines(req.payload.lines);
        if lines.None? {
          return Err(ValueError);
        }
        r := savings.ledger.PostJournalEntry(req.payload.key, lines.value);
      } else {
        r := match other case Succeeds => Ok(()) case Raises => Err(ValueError) case Breaks => Err(IntegrityError);
      }
    }

    /** A refused or aborted call leaves every table as it was. */
    method ApproveRequest(id: Uuid, actor: Uuid, month: int, other: Other) returns (r: Outcome<Status>)
      modifies this, savings, savings.ledger
      ensures State() == DeskStep(old(State()), Approves(id, actor, month, other))
      ensures match Approve(old(State()), id, actor, month, other)
              case Ok(d) => id in d.requests && r == Ok(d.requests[id].status)
              case Err(e) => r == Err(e)
    {
      if id !in requests || requests[id].status != Pending {
        return Err(ValueError);
      }
      if actor == requests[id].maker {
        return Err(ValueError);
      }
      if Voted(requests[id].votes, actor) {
        return Err(IntegrityError);
      }
      r := CastApproval(id, actor, month, other);
    }

    /** Records the vote and, at quorum, runs the executor. */
    method CastApproval(id: Uuid, actor: Uuid, month: int, other: Other) returns (r: Outcome<Status>)
      requires id in requests && requests[id].status == Pending
      requires actor != requests[id].maker && !Voted(requests[id].votes, actor)
      modifies this, savings, savings.ledger
      ensures match Decide(old(State()), id, actor, Execute(old(State().books), old(requests[id]), month, other))
              case Ok(d) => State() == d && id in requests && r == Ok(requests[id].status)
              case Err(e) => State() == old(State()) && r == Err(e)
    {
      var before := requests[id];
      var saved, savedRequests, savedEvents := savings.State(), requests, events;
      requests := requests[id := before.(votes := before.votes + [Vote(actor, true)])];
      var count := CountApprovals(id);
      events := events + [Event(id, Granted)];
      if count < before.required {
        return Ok(Pending);
      }
      requests := requests[id := requests[id].(status := Approved)];
      r := Conclude(id, before, month, other);
      if r.Err? {
        savings.Rollback(saved);
        requests, events := savedRequests, savedEvents;
        return;
      }
      assert requests == savedRequests[id := before.(votes := before.votes + [Vote(actor, true)], status := r.value)];
    }

    /** Since `rs` and `es`, one request got a status and the trail one event. */
    predicate Marked(rs: map<Uuid, Request>, es: seq<Event>, id: Uuid, status: Status, kind: EventKind)
      requires id in rs
      reads this
    {
      requests == rs[id := rs[id].(status := status)] && events == es + [Event(id, kind)]
    }

    /** `_execute`: a ValueError from the executor becomes execution_failed; a broken constraint aborts. */
    method Conclude(id: Uuid, before: Request, month: int, other: Other) returns (r: Outcome<Status>)
      requires id in requests
      modifies this, savings, savings.ledger
      ensures match Execute(old(savings.State()), before, month, other)
              case Violated => r == Err(IntegrityError)
              case Done(b) => r == Ok(Executed) && savings.State() == b && Marked(old(requests), old(events), id, Executed, Ran)
              case Raised => r == Ok(ExecutionFailed) && savings.State() == old(savings.State())
                             && Marked(old(requests), old(events), id, ExecutionFailed, Failed)
    {
      var ran := RunExecutor(before, month, other);
      if ran == Err(IntegrityError) {
        return Err(IntegrityError);
      }
      var status := if ran.Ok? then Executed else ExecutionFailed;
      requests := requests[id := requests[id].(status := status)];
      events := events + [Event(id, if ran.Ok? then Ran else Failed)];
      return Ok(status);
    }

    method RejectRequest(id: Uuid, actor: Uuid) returns (r: Outcome<()>)
      modifies this
      ensures State() == DeskStep(old(State()), Rejects(id, actor))
      ensures match Reject(old(State()), id, actor) case Ok(_) => r == Ok(()) case Err(e) => r == Err(e)
    {
      if id !in requests || requests[id].status != Pending || actor == requests[id].maker {
        return Err(ValueError);
      }
      if Voted(requests[id].votes, actor) {
        return Err(IntegrityError);
      }
      var req := requests[id];
      requests := requests[id := req.(votes := req.votes + [Vote(actor, false)], status := Rejected)];
      events := events + [Event(id, Refused)];
      return Ok(());
    }

    method CancelRequest(id: Uuid, maker: Uuid) returns (r: Outcome<()>)
      modifies this
      ensures State() == DeskStep(old(State()), Cancels(id, maker))
      ensures match Cancel(old(State()), id, maker) case Ok(_) => r == Ok(()) case Err(e) => r == Err(e)
    {
      if id !in requests || requests[id].status != Pending || requests[id].maker != maker || |requests[id].votes| > 0 {
        return Err(ValueError);
      }
      requests := requests[id := requests[id].(status := Cancelled)];
      return Ok(());
    }

    /** The hourly bulk update; one row at a time here, in any order. */
    method RunExpiry(now: int)
      modifies this
      ensures State() == DeskStep(old(State()), Expires(now))
    {
      var before := requests;
      var todo := requests.Keys;
      while todo != {}
        invariant todo <= before.Keys && requests.Keys == before.Keys
        invariant forall id :: id in todo ==> requests[id] == before[id]
        invariant forall id :: id in before && id !in todo ==>
                    requests[id] == if Lapsed(before[id], now) then before[id].(status := Expired) else before[id]
        invariant events == old(events) && savings.State() == old(savings.State())
        decreases |todo|
      {
        var id :| id in todo;
        if Lapsed(requests[id], now) {
          requests := requests[id := requests[id].(status := Expired)];
        }
        todo := todo - {id};
      }
    }
  }
}
