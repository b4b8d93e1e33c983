/** Loan penalty counters fed by fee events: each event takes effect once, in commit order. */
module Penalties {
  import opened Sums
  import opened Text

  datatype EventType = AssessmentCreated | CollectionCreated | Unhandled

  /** A missing JSON field is None. */
  datatype Payload = Payload(targetType: Option<string>, targetId: Option<string>,
                             amount: Option<string>, amountCollected: Option<string>)

  datatype FeeEvent = FeeEvent(id: Uuid, kind: EventType, payload: Payload)

  datatype Effect = Nothing | Assessed(loan: Uuid, amount: int) | Collected(loan: Uuid, amount: int)

  datatype Counters = Counters(accrued: int, paid: int)

  /** Rows of processed_events and of loan_repayments, in commit order. */
  datatype LogRow = Processed(event: FeeEvent) | Repaid(loan: Uuid, penalties: int)

  /** The outbox is listed by occurred_at. */
  datatype Credit = Credit(outbox: seq<FeeEvent>, log: seq<LogRow>, loans: map<Uuid, Counters>)

  const BATCH := 50

  // ── One event ───────────────────────────────────────────────────────────────

  /** What an event asks for; None when its payload makes the handler raise. */
  function Interpret(e: FeeEvent): Option<Effect> {
    if e.kind.Unhandled? || e.payload.targetType != Some("loan") then Some(Nothing)
    else
      var amount := if e.kind.AssessmentCreated? then e.payload.amount else e.payload.amountCollected;
      if e.payload.targetId.None? || amount.None? then None
      else match (ParseUuid(e.payload.targetId.value), Parse(amount.value))
        case (Some(loan), Some(d)) => Some(if e.kind.AssessmentCreated? then Assessed(loan, Money(d)) else Collected(loan, Money(d)))
        case _ => None
  }

  /** The UPDATE; None when it breaks ck_ln_accrued_penalties. A missing loan is only logged. */
  function Apply(loans: map<Uuid, Counters>, eff: Effect): Option<map<Uuid, Counters>> {
    match eff
    case Nothing => Some(loans)
    case Assessed(loan, amount) =>
      if loan !in loans then Some(loans)
      else if loans[loan].accrued + amount < 0 then None
      else Some(loans[loan := Counters(loans[loan].accrued + amount, loans[loan].paid)])
    case Collected(loan, amount) =>
      if loan !in loans then Some(loans)
      else Some(loans[loan := Counters(Max(loans[loan].accrued - amount, 0), loans[loan].paid + amount)])
  }

  predicate IsProcessed(log: seq<LogRow>, id: Uuid) { exists i :: 0 <= i < |log| && log[i].Processed? && log[i].event.id == id }

  /** The event's savepoint rolls back. */
  predicate Refused(s: Credit, e: FeeEvent) { Interpret(e).None? || Apply(s.loans, Interpret(e).value).None? }

  /** One savepoint; `fails` stands for any other failure inside it. */
  function Handle(s: Credit, e: FeeEvent, fails: Uuid -> bool): Credit {
    if IsProcessed(s.log, e.id) || fails(e.id) || Refused(s, e) then s
    else s.(loans := Apply(s.loans, Interpret(e).value).value, log := s.log + [Processed(e)])
  }

  // ── One poll ────────────────────────────────────────────────────────────────

  function Pending(outbox: seq<FeeEvent>, log: seq<LogRow>): seq<FeeEvent> {
    if outbox == [] then []
    else
      var e := outbox[|outbox| - 1];
      Pending(outbox[..|outbox| - 1], log) + if e.kind.Unhandled? || IsProcessed(log, e.id) then [] else [e]
  }

  function Fetched(s: Credit): seq<FeeEvent> {
    var rows := Pending(s.outbox, s.log);
    if |rows| > BATCH then rows[..BATCH] else rows
  }

  function HandleAll(s: Credit, rows: seq<FeeEvent>, fails: Uuid -> bool): Credit {
    if rows == [] then s else Handle(HandleAll(s, rows[..|rows| - 1], fails), rows[|rows| - 1], fails)
  }

  function Poll(s: Credit, fails: Uuid -> bool): Credit { HandleAll(s, Fetched(s), fails) }

  // ── Runs ────────────────────────────────────────────────────────────────────

  datatype Op =
    | Emits(e: FeeEvent, at: nat)
    | Disburses(loan: Uuid)
    | Repays(loan: Uuid, offered: nat)
    | Polls(fails: Uuid -> bool)

  predicate HasEvent(outbox: seq<FeeEvent>, id: Uuid) { exists i :: 0 <= i < |outbox| && outbox[i].id == id }

  function Step(s: Credit, op: Op): Credit {
    match op
    case Emits(e, at) => if at > |s.outbox| || HasEvent(s.outbox, e.id) then s else s.(outbox := s.outbox[..at] + [e] + s.outbox[at..])
    case Disburses(loan) => if loan in s.loans then s else s.(loans := s.loans[loan := Counters(0, 0)])
    case Repays(loan, offered) =>
      if loan !in s.loans then s
      else
        var c := s.loans[loan];
        var applied := Min(offered, c.accrued);
        s.(loans := s.loans[loan := Counters(c.accrued - applied, c.paid + applied)], log := s.log + [Repaid(loan, applied)])
    case Polls(fails) => Poll(s, fails)
  }

  function Run(s: Credit, ops: seq<Op>): Credit
    decreases |ops|
  {
    if ops == [] then s else Run(Step(s, ops[0]), ops[1..])
  }

  // ── Exactly once ────────────────────────────────────────────────────────────

  predicate OncePerEvent(log: seq<LogRow>) {
    forall i, j :: 0 <= i < j < |log| && log[i].Processed? && log[j].Processed? ==> log[i].event.id != log[j].event.id
  }

  predicate NeverNegative(loans: map<Uuid, Counters>) { forall loan :: loan in loans ==> loans[loan].accrued >= 0 }

  ghost predicate Good(s: Credit) {
    && OncePerEvent(s.log) && NeverNegative(s.loans)
    && forall row :: row in s.log && row.Processed? ==> Interpret(row.event).Some?
  }

  function EffectOf(row: LogRow): Effect {
    match row
    case Processed(e) => if Interpret(e).Some? then Interpret(e).value else Nothing
    case Repaid(loan, penalties) => Collected(loan, penalties)
  }

  /** The payload names this loan as its target. */
  predicate OnLoan(p: Payload, loan: Uuid) { p.targetType == Some("loan") && p.targetId == Some(loan) }

  /** A payload amount in ten-thousandths; zero for what is no number. */
  function AmountIn(text: Option<string>): int {
    match text
    case None => 0
    case Some(t) => var d := Parse(t); if d.Some? then Money(d.value) else 0
  }

  /** What a row adds to assessed minus collected, unclamped, read off the event itself. */
  function DeltaOn(loan: Uuid): LogRow -> int {
    (row: LogRow) => match row
      case Repaid(l, penalties) => if l == loan then -penalties else 0
      case Processed(e) =>
        if !OnLoan(e.payload, loan) then 0
        else match e.kind
          case AssessmentCreated => AmountIn(e.payload.amount)
          case CollectionCreated => -AmountIn(e.payload.amountCollected)
          case Unhandled => 0
  }

  /** What a row collects. */
  function PaidOn(loan: Uuid): LogRow -> int {
    (row: LogRow) => match row
      case Repaid(l, penalties) => if l == loan then penalties else 0
      case Processed(e) => if OnLoan(e.payload, loan) && e.kind.CollectionCreated? then AmountIn(e.payload.amountCollected) else 0
  }

  /** S_k of a walk: the opening value plus the first k changes. */
  function PartialSum(start: int, rows: seq<LogRow>, k: nat, f: LogRow -> int): int
    requires k <= |rows|
  {
    start + SumBy(rows[..k], f)
  }

  /** min(0, S_0, ..., S_n) */
  function Low(start: int, rows: seq<LogRow>, f: LogRow -> int): (low: int)
    ensures low <= 0
    ensures forall k :: 0 <= k <= |rows| ==> low <= PartialSum(start, rows, k, f)
    ensures low == 0 || exists k :: 0 <= k <= |rows| && low == PartialSum(start, rows, k, f)
  {
    if rows == [] then assert PartialSum(start, rows, 0, f) == start; Min(0, start)
    else
      var rest := rows[..|rows| - 1];
      var low := Low(start, rest, f);
      assert forall k :: 0 <= k <= |rest| ==> rest[..k] == rows[..k];
      assert forall k :: 0 <= k <= |rest| ==> PartialSum(start, rest, k, f) == PartialSum(start, rows, k, f);
      Min(low, PartialSum(start, rows, |rows|, f))
  }

  lemma LowAppend(start: int, rows: seq<LogRow>, row: LogRow, f: LogRow -> int)
    ensures Low(start, rows + [row], f) == Min(Low(start, rows, f), start + SumBy(rows, f) + f(row))
  {
    var all := rows + [row];
    assert all[..|all| - 1] == rows && all[..|all|] == all;
    SumAppend(rows, row, f);
  }

  /** A walk clamped at zero is the sum less its low point. */
  lemma ClampedWalk(start: int, rows: seq<LogRow>, now: int, row: LogRow, f: LogRow -> int)
    requires now == start + SumBy(rows, f) - Low(start, rows, f)
    ensures Max(now + f(row), 0) == start + SumBy(rows + [row], f) - Low(start, rows + [row], f)
  {
    SumAppend(rows, row, f);
    LowAppend(start, rows, row, f);
  }

  /** Counters `now` are what `start` becomes over the rows: sums, and the sum less its low point. */
  predicate ClosedForm(start: Counters, rows: seq<LogRow>, now: Counters, loan: Uuid) {
    && now.paid == start.paid + SumBy(rows, PaidOn(loan))
    && now.accrued == start.accrued + SumBy(rows, DeltaOn(loan)) - Low(start.accrued, rows, DeltaOn(loan))
  }

  /** `s'` came from `s` by appending log rows, and this loan's counters are the closed form over them. */
  ghost predicate Follows(s: Credit, s': Credit, loan: Uuid) {
    && loan in s.loans && loan in s'.loans && s.log <= s'.log
    && ClosedForm(s.loans[loan], s'.log[|s.log|..], s'.loans[loan], loan)
  }

  lemma FollowsItself(s: Credit, loan: Uuid)
    requires Good(s) && loan in s.loans
    ensures Follows(s, s, loan)
  {
    assert s.log[|s.log|..] == [];
  }

  /** Every row moves a counter at or above zero by its change, clamped at zero. */
  lemma ClampedStep(loans: map<Uuid, Counters>, loans': map<Uuid, Counters>, row: LogRow, loan: Uuid)
    requires loan in loans && loans[loan].accrued >= 0 && Apply(loans, EffectOf(row)) == Some(loans')
    requires row.Processed? ==> Interpret(row.event).Some?
    ensures loan in loans' && loans'[loan].paid == loans[loan].paid + PaidOn(loan)(row)
    ensures loans'[loan].accrued == Max(loans[loan].accrued + DeltaOn(loan)(row), 0)
  {
  }

  /** One more row, whose effect on the counters is the source's UPDATE. */
  lemma FollowsRow(s: Credit, s': Credit, s'': Credit, row: LogRow, loan: Uuid)
    requires Follows(s, s', loan) && s''.log == s'.log + [row] && s'.loans[loan].accrued >= 0
    requires Apply(s'.loans, EffectOf(row)) == Some(s''.loans) && (row.Processed? ==> Interpret(row.event).Some?)
    ensures Follows(s, s'', loan)
  {
    var rows := s'.log[|s.log|..];
    assert s''.log[|s.log|..] == rows + [row];
    ClampedStep(s'.loans, s''.loans, row, loan);
    SumAppend(rows, row, PaidOn(loan));
    ClampedWalk(s.loans[loan].accrued, rows, s'.loans[loan].accrued, row, DeltaOn(loan));
  }

  lemma HandleGood(s: Credit, e: FeeEvent, fails: Uuid -> bool)
    requires Good(s)
    ensures Good(Handle(s, e, fails))
  {
  }

  lemma {:induction false} HandleAllFollows(s: Credit, s': Credit, rows: seq<FeeEvent>, fails: Uuid -> bool, loan: Uuid)
    requires Good(s') && Follows(s, s', loan)
    ensures Good(HandleAll(s', rows, fails)) && Follows(s, HandleAll(s', rows, fails), loan)
  {
    if rows != [] {
      var e, mid := rows[|rows| - 1], HandleAll(s', rows[..|rows| - 1], fails);
      HandleAllFollows(s, s', rows[..|rows| - 1], fails, loan);
      HandleGood(mid, e, fails);
      if Handle(mid, e, fails) != mid { FollowsRow(s, mid, Handle(mid, e, fails), Processed(e), loan); }
    }
  }

  lemma StepFollows(s: Credit, s': Credit, op: Op, loan: Uuid)
    requires Good(s') && Follows(s, s', loan)
    ensures Good(Step(s', op)) && Follows(s, Step(s', op), loan)
  {
    match op
    case Polls(fails) => HandleAllFollows(s, s', Fetched(s'), fails, loan);
    case Repays(l, offered) =>
      if l in s'.loans { FollowsRow(s, s', Step(s', op), Repaid(l, Min(offered, s'.loans[l].accrued)), loan); }
    case _ =>
  }

  lemma {:induction false} RunFollows(s: Credit, s': Credit, ops: seq<Op>, loan: Uuid)
    requires Good(s') && Follows(s, s', loan)
    ensures Good(Run(s', ops)) && Follows(s, Run(s', ops), loan)
    decreases |ops|
  {
    if ops != [] {
      StepFollows(s, s', ops[0], loan);
      RunFollows(s, Step(s', ops[0]), ops[1..], loan);
    }
  }

  const NEW: Credit := Credit([], [], map[])

  lemma {:induction false} RunGood(s: Credit, ops: seq<Op>)
    requires Good(s)
    ensures Good(Run(s, ops)) && s.log <= Run(s, ops).log
    decreases |ops|
  {
    if ops != [] {
      if ops[0].Polls? { HandleAllGood(s, Fetched(s), ops[0].fails); }
      RunGood(Step(s, ops[0]), ops[1..]);
    }
  }

  lemma {:induction false} HandleAllGood(s: Credit, rows: seq<FeeEvent>, fails: Uuid -> bool)
    requires Good(s)
    ensures Good(HandleAll(s, rows, fails)) && s.log <= HandleAll(s, rows, fails).log
  {
    if rows != [] {
      HandleAllGood(s, rows[..|rows| - 1], fails);
      HandleGood(HandleAll(s, rows[..|rows| - 1], fails), rows[|rows| - 1], fails);
    }
  }

  /**
   * Whatever fails and however often events are polled: every event takes effect at most once, and a
   * loan's counters follow from the rows committed since any earlier point. Paid penalties grow by the
   * collections; accrued penalties are the partial sum less min(0, S_0, ..., S_n), so never negative
   * and never below assessed minus collected.
   */
  lemma EventsApplyOnce(before: seq<Op>, after: seq<Op>, loan: Uuid)
    requires loan in Run(NEW, before).loans
    ensures var s := Run(NEW, before);
      var s' := Run(s, after);
      && OncePerEvent(s'.log) && s.log <= s'.log && loan in s'.loans
      && var rows, start := s'.log[|s.log|..], s.loans[loan];
         && s'.loans[loan].paid == start.paid + SumBy(rows, PaidOn(loan))
         && s'.loans[loan].accrued == start.accrued + SumBy(rows, DeltaOn(loan)) - Low(start.accrued, rows, DeltaOn(loan))
         && s'.loans[loan].accrued >= 0
         && s'.loans[loan].accrued >= start.accrued + SumBy(rows, DeltaOn(loan))
  {
    var s := Run(NEW, before);
    RunGood(NEW, before);
    FollowsItself(s, loan);
    RunFollows(s, s, after, loan);
  }

  /** Once processed, an event is inert in every later state. */
  lemma ProcessedIsInert(before: seq<Op>, after: seq<Op>, e: FeeEvent, fails: Uuid -> bool)
    requires IsProcessed(Run(NEW, before).log, e.id)
    ensures Handle(Run(Run(NEW, before), after), e, fails) == Run(Run(NEW, before), after)
  {
    RunGood(NEW, before);
    RunGood(Run(NEW, before), after);
    var s, s' := Run(NEW, before), Run(Run(NEW, before), after);
    var i :| 0 <= i < |s.log| && s.log[i].Processed? && s.log[i].event.id == e.id;
    assert s'.log[i] == s.log[i];
  }

  // ── Progress ────────────────────────────────────────────────────────────────

  predicate Never(id: Uuid) { false }

  lemma {:induction false} HandleAllStuck(s: Credit, rows: seq<FeeEvent>, fails: Uuid -> bool)
    ensures |HandleAll(s, rows, fails).log| >= |s.log|
    ensures |HandleAll(s, rows, fails).log| == |s.log| ==> HandleAll(s, rows, fails) == s
    ensures HandleAll(s, rows, fails) == s <==> forall e :: e in rows ==> Handle(s, e, fails) == s
  {
    if rows != [] {
      assert rows == rows[..|rows| - 1] + [rows[|rows| - 1]];
      HandleAllStuck(s, rows[..|rows| - 1], fails);
    }
  }

  lemma {:induction false} PendingUnprocessed(outbox: seq<FeeEvent>, log: seq<LogRow>, e: FeeEvent)
    ensures e in Pending(outbox, log) <==> e in outbox && !e.kind.Unhandled? && !IsProcessed(log, e.id)
  {
    if outbox != [] {
      assert outbox == outbox[..|outbox| - 1] + [outbox[|outbox| - 1]];
      PendingUnprocessed(outbox[..|outbox| - 1], log, e);
    }
  }

  /**
   * A poll without outside failures stands still exactly when each of the oldest fifty waiting events
   * is refused: fifty malformed events at the head hold back everything behind them.
   */
  lemma PollStandsStill(s: Credit)
    ensures Poll(s, Never) == s <==> forall e :: e in Fetched(s) ==> Refused(s, e)
  {
    HandleAllStuck(s, Fetched(s), Never);
    forall e | e in Fetched(s) ensures Handle(s, e, Never) == s <==> Refused(s, e) {
      assert e in Pending(s.outbox, s.log);
      PendingUnprocessed(s.outbox, s.log, e);
    }
  }

  // ── Exactly once, in the end ────────────────────────────────────────────────

  /** Well-formed, and an assessment of it is no refund. */
  predicate Payable(e: FeeEvent) { Interpret(e).Some? && (Interpret(e).value.Assessed? ==> Interpret(e).value.amount >= 0) }

  lemma ProcessedStays(before: seq<LogRow>, after: seq<LogRow>, id: Uuid)
    requires before <= after && IsProcessed(before, id)
    ensures IsProcessed(after, id)
  {
    var i :| 0 <= i < |before| && before[i].Processed? && before[i].event.id == id;
    assert after[i] == before[i];
  }

  lemma PayableIsHandled(s: Credit, e: FeeEvent)
    requires Good(s) && Payable(e)
    ensures IsProcessed(Handle(s, e, Never).log, e.id)
  {
    if !IsProcessed(s.log, e.id) {
      assert !Refused(s, e);
      assert Handle(s, e, Never).log[|s.log|] == Processed(e);
    }
  }

  /** A clean batch processes every payable event in it, whatever is refused beside it. */
  lemma {:induction false} BatchProcesses(s: Credit, rows: seq<FeeEvent>, e: FeeEvent)
    requires Good(s) && e in rows && Payable(e)
    ensures IsProcessed(HandleAll(s, rows, Never).log, e.id)
  {
    var rest, last := rows[..|rows| - 1], rows[|rows| - 1];
    var mid := HandleAll(s, rest, Never);
    HandleAllGood(s, rest, Never);
    if e in rest {
      BatchProcesses(s, rest, e);
      ProcessedStays(mid.log, HandleAll(s, rows, Never).log, e.id);
    } else {
      PayableIsHandled(mid, e);
    }
  }

  lemma {:induction false} HandleAllOutbox(s: Credit, rows: seq<FeeEvent>, fails: Uuid -> bool)
    ensures HandleAll(s, rows, fails).outbox == s.outbox
  {
    if rows != [] { HandleAllOutbox(s, rows[..|rows| - 1], fails); }
  }

  /** Once the first k waiting events are processed, k fewer wait. */
  lemma {:induction false} PendingShrinks(outbox: seq<FeeEvent>, before: seq<LogRow>, after: seq<LogRow>, k: nat)
    requires before <= after && k <= |Pending(outbox, before)|
    requires forall i :: 0 <= i < k ==> IsProcessed(after, Pending(outbox, before)[i].id)
    ensures |Pending(outbox, after)| <= |Pending(outbox, before)| - k
  {
    if outbox != [] {
      var rest, e := outbox[..|outbox| - 1], outbox[|outbox| - 1];
      var waiting := Pending(rest, before);
      if IsProcessed(before, e.id) { ProcessedStays(before, after, e.id); }
      assert forall i :: 0 <= i < |waiting| ==> Pending(outbox, before)[i] == waiting[i];
      PendingShrinks(rest, before, after, Min(k, |waiting|));
      if k > |waiting| { assert Pending(outbox, before)[|waiting|] == e; }
    }
  }

  ghost predicate AllPayable(s: Credit) { forall e :: e in Pending(s.outbox, s.log) ==> Payable(e) }

  /** A clean poll of payable events takes a batch off the queue. */
  lemma CleanPollDrains(s: Credit)
    requires Good(s) && AllPayable(s)
    ensures var s' := Poll(s, Never);
      && Good(s') && AllPayable(s') && s'.outbox == s.outbox && s.log <= s'.log
      && |Pending(s'.outbox, s'.log)| <= Max(0, |Pending(s.outbox, s.log)| - BATCH)
  {
    var s' := Poll(s, Never);
    HandleAllGood(s, Fetched(s), Never);
    HandleAllOutbox(s, Fetched(s), Never);
    forall e | e in Fetched(s) ensures IsProcessed(s'.log, e.id) { BatchProcesses(s, Fetched(s), e); }
    forall i | 0 <= i < |Fetched(s)| ensures IsProcessed(s'.log, Pending(s.outbox, s.log)[i].id) {
      assert Fetched(s)[i] in Fetched(s) && Fetched(s)[i] == Pending(s.outbox, s.log)[i];
    }
    PendingShrinks(s.outbox, s.log, s'.log, |Fetched(s)|);
    forall e | e in Pending(s'.outbox, s'.log) ensures Payable(e) {
      PendingUnprocessed(s'.outbox, s'.log, e);
      if IsProcessed(s.log, e.id) { ProcessedStays(s.log, s'.log, e.id); }
      PendingUnprocessed(s.outbox, s.log, e);
    }
  }

  function CleanPolls(s: Credit, n: nat): Credit
    decreases n
  {
    if n == 0 then s else CleanPolls(Poll(s, Never), n - 1)
  }

  lemma NoneWaiting(s: Credit)
    requires Pending(s.outbox, s.log) == []
    ensures forall e :: e in s.outbox && !e.kind.Unhandled? ==> IsProcessed(s.log, e.id)
  {
    forall e | e in s.outbox && !e.kind.Unhandled? ensures IsProcessed(s.log, e.id) { PendingUnprocessed(s.outbox, s.log, e); }
  }

  lemma {:induction false} QueueDrains(s: Credit, n: nat)
    requires Good(s) && AllPayable(s) && |Pending(s.outbox, s.log)| <= n * BATCH
    ensures var s' := CleanPolls(s, n); Good(s') && s'.outbox == s.outbox && Pending(s'.outbox, s'.log) == []
    decreases n
  {
    if n > 0 {
      CleanPollDrains(s);
      QueueDrains(Poll(s, Never), n - 1);
    }
  }

  /**
   * When all that waits is payable, it takes effect exactly once: as many clean polls as there are
   * batches waiting leave every handled event of the outbox processed, and none twice.
   */
  lemma EventsApplyInTheEnd(s: Credit, n: nat)
    requires Good(s) && AllPayable(s) && |Pending(s.outbox, s.log)| <= n * BATCH
    ensures OncePerEvent(CleanPolls(s, n).log)
    ensures forall e :: e in s.outbox && !e.kind.Unhandled? ==> IsProcessed(CleanPolls(s, n).log, e.id)
  {
    QueueDrains(s, n);
    NoneWaiting(CleanPolls(s, n));
  }

  // ── What each event does ────────────────────────────────────────────────────

  predicate Wellformed(targetId: Option<string>, amount: Option<string>) {
    targetId.Some? && |targetId.value| == 36 && amount.Some? && Parse(amount.value).Some?
  }

  /** An assessment of a loan adds its amount to accrued, unless that would leave it below zero; paid stays. */
  lemma AssessmentAccrues(s: Credit, e: FeeEvent, fails: Uuid -> bool, loan: Uuid)
    requires !IsProcessed(s.log, e.id) && !fails(e.id) && loan in s.loans
    requires e.kind == AssessmentCreated && e.payload.targetType == Some("loan") && e.payload.targetId == Some(loan)
    requires Wellformed(e.payload.targetId, e.payload.amount)
    ensures var s', c, amount := Handle(s, e, fails), s.loans[loan], Money(Parse(e.payload.amount.value).value);
      if c.accrued + amount < 0 then s' == s
      else s' == Credit(s.outbox, s.log + [Processed(e)], s.loans[loan := Counters(c.accrued + amount, c.paid)])
  {
  }

  /** A collection on a loan takes its amount off accrued, stopping at zero, and adds all of it to paid. */
  lemma CollectionPays(s: Credit, e: FeeEvent, fails: Uuid -> bool, loan: Uuid)
    requires !IsProcessed(s.log, e.id) && !fails(e.id) && loan in s.loans
    requires e.kind == CollectionCreated && e.payload.targetType == Some("loan") && e.payload.targetId == Some(loan)
    requires Wellformed(e.payload.targetId, e.payload.amountCollected)
    ensures var s', c, amount := Handle(s, e, fails), s.loans[loan], Money(Parse(e.payload.amountCollected.value).value);
      s' == Credit(s.outbox, s.log + [Processed(e)],
                   s.loans[loan := Counters(if c.accrued > amount then c.accrued - amount else 0, c.paid + amount)])
  {
  }

  /** Events on other targets, of other kinds or on loans not booked are processed and change no counter; malformed ones are refused. */
  lemma OtherEvents(s: Credit, e: FeeEvent, fails: Uuid -> bool)
    requires !IsProcessed(s.log, e.id) && !fails(e.id)
    ensures e.kind == Unhandled || e.payload.targetType != Some("loan") ==> Handle(s, e, fails) == s.(log := s.log + [Processed(e)])
    ensures var amount := if e.kind == AssessmentCreated then e.payload.amount else e.payload.amountCollected;
      e.kind != Unhandled && e.payload.targetType == Some("loan") ==>
        if !Wellformed(e.payload.targetId, amount) then Handle(s, e, fails) == s
        else e.payload.targetId.value !in s.loans ==> Handle(s, e, fails) == s.(log := s.log + [Processed(e)])
  {
  }

  // ── Which events a poll sees ────────────────────────────────────────────────

  lemma {:induction false} PendingPrefix(outbox: seq<FeeEvent>, log: seq<LogRow>, i: nat)
    requires i <= |outbox|
    ensures Pending(outbox[..i], log) <= Pending(outbox, log)
  {
    if i == |outbox| {
      assert outbox[..i] == outbox;
    } else {
      PendingPrefix(outbox[..|outbox| - 1], log, i);
      assert outbox[..|outbox| - 1][..i] == outbox[..i];
    }
  }

  /** A poll sees the first fifty waiting events. */
  lemma FetchedHead(s: Credit, k: nat)
    requires k < |Pending(s.outbox, s.log)|
    ensures k < 50 ==> Pending(s.outbox, s.log)[k] in Fetched(s)
    ensures k >= 50 ==> Fetched(s) == Pending(s.outbox, s.log)[..50]
  {
    if k < BATCH { assert Fetched(s)[k] == Pending(s.outbox, s.log)[k]; }
  }

  /** A waiting event a poll passes over has fifty waiting events before it, and those are what the poll takes. */
  lemma FetchedAreOldest(s: Credit, i: nat)
    requires i < |s.outbox| && s.outbox[i].kind != Unhandled && !IsProcessed(s.log, s.outbox[i].id) && s.outbox[i] !in Fetched(s)
    ensures |Fetched(s)| == 50 && forall e :: e in Fetched(s) ==> e in s.outbox[..i] && e.kind != Unhandled && !IsProcessed(s.log, e.id)
  {
    var rows, before := Pending(s.outbox, s.log), Pending(s.outbox[..i], s.log);
    PendingPrefix(s.outbox, s.log, i);
    PendingPrefix(s.outbox, s.log, i + 1);
    assert s.outbox[..i + 1][..i] == s.outbox[..i];
    assert Pending(s.outbox[..i + 1], s.log) == before + [s.outbox[i]];
    assert rows[|before|] == s.outbox[i];
    FetchedHead(s, |before|);
    assert Fetched(s) == before[..BATCH];
    forall e | e in Fetched(s) ensures e in s.outbox[..i] && e.kind != Unhandled && !IsProcessed(s.log, e.id) {
      PendingUnprocessed(s.outbox[..i], s.log, e);
    }
  }

  // ── The head of the queue ───────────────────────────────────────────────────

  /** Every event of a full batch at the head is refused: malformed, or lowering a counter below zero. */
  ghost predicate Stalled(s: Credit) { |Fetched(s)| == BATCH && forall e :: e in Fetched(s) ==> Refused(s, e) }

  /** Later events are queued behind those already there. */
  predicate LateRun(s: Credit, ops: seq<Op>)
    decreases |ops|
  {
    ops == [] || ((ops[0].Emits? ==> ops[0].at == |s.outbox|) && LateRun(Step(s, ops[0]), ops[1..]))
  }

  lemma {:induction false} PendingSame(outbox: seq<FeeEvent>, before: seq<LogRow>, after: seq<LogRow>)
    requires forall id :: IsProcessed(before, id) <==> IsProcessed(after, id)
    ensures Pending(outbox, before) == Pending(outbox, after)
  {
    if outbox != [] { PendingSame(outbox[..|outbox| - 1], before, after); }
  }

  lemma RepaidIsNoEvent(log: seq<LogRow>, loan: Uuid, penalties: int)
    ensures forall id :: IsProcessed(log + [Repaid(loan, penalties)], id) <==> IsProcessed(log, id)
  {
    var more := log + [Repaid(loan, penalties)];
    forall id: Uuid | IsProcessed(log, id) ensures IsProcessed(more, id) { ProcessedStays(log, more, id); }
  }

  lemma EmitLate(s: Credit, e: FeeEvent)
    requires !HasEvent(s.outbox, e.id)
    ensures Step(s, Emits(e, |s.outbox|)) == s.(outbox := s.outbox + [e])
    ensures Pending(s.outbox + [e], s.log) == Pending(s.outbox, s.log) + if e.kind.Unhandled? || IsProcessed(s.log, e.id) then [] else [e]
  {
    assert s.outbox[..|s.outbox|] + [e] + s.outbox[|s.outbox|..] == s.outbox + [e];
    assert (s.outbox + [e])[..|s.outbox|] == s.outbox;
  }

  /** No step makes a refused event acceptable: counters of refused loans only go down. */
  lemma RefusedStays(s: Credit, op: Op, e: FeeEvent)
    requires Good(s) && Refused(s, e) && !op.Polls?
    ensures Refused(Step(s, op), e)
  {
  }

  lemma StalledStep(s: Credit, op: Op)
    requires Good(s) && Stalled(s) && (op.Emits? ==> op.at == |s.outbox|)
    ensures Stalled(Step(s, op)) && forall id :: IsProcessed(Step(s, op).log, id) <==> IsProcessed(s.log, id)
  {
    match op
    case Emits(e, at) =>
      if !HasEvent(s.outbox, e.id) { EmitLate(s, e); }
      assert Fetched(Step(s, op)) == Fetched(s);
      forall x | x in Fetched(s) { RefusedStays(s, op, x); }
    case Disburses(_) => forall e | e in Fetched(s) { RefusedStays(s, op, e); }
    case Repays(loan, offered) =>
      forall e | e in Fetched(s) { RefusedStays(s, op, e); }
      if loan in s.loans {
        RepaidIsNoEvent(s.log, loan, Min(offered, s.loans[loan].accrued));
        PendingSame(s.outbox, s.log, Step(s, op).log);
      }
    case Polls(fails) => HandleAllStuck(s, Fetched(s), fails);
  }

  lemma StepGood(s: Credit, op: Op)
    requires Good(s)
    ensures Good(Step(s, op))
  {
    if op.Polls? { HandleAllGood(s, Fetched(s), op.fails); }
  }

  lemma {:induction false} StalledForever(s: Credit, ops: seq<Op>)
    requires Good(s) && Stalled(s) && LateRun(s, ops)
    ensures forall id :: IsProcessed(Run(s, ops).log, id) <==> IsProcessed(s.log, id)
    decreases |ops|
  {
    if ops != [] {
      StalledStep(s, ops[0]);
      StepGood(s, ops[0]);
      StalledForever(Step(s, ops[0]), ops[1..]);
    }
  }

  lemma PollRun(s: Credit)
    ensures Run(s, [Polls(Never)]) == Poll(s, Never) && LateRun(s, [Polls(Never)])
  {
    assert [Polls(Never)][1..] == [];
  }

  lemma EmitPollRun(s: Credit, x: FeeEvent)
    requires !HasEvent(s.outbox, x.id)
    ensures var ops := [Emits(x, |s.outbox|), Polls(Never)];
      Run(s, ops) == Poll(s.(outbox := s.outbox + [x]), Never) && LateRun(s, ops)
  {
    EmitLate(s, x);
    assert [Emits(x, |s.outbox|), Polls(Never)][1..] == [Polls(Never)];
    PollRun(s.(outbox := s.outbox + [x]));
  }

  predicate GetsThrough(s: Credit, ops: seq<Op>, id: Uuid) { LateRun(s, ops) && IsProcessed(Run(s, ops).log, id) && !IsProcessed(s.log, id) }

  lemma {:induction false} HandleAllProcesses(s: Credit, rows: seq<FeeEvent>)
    requires Good(s) && HandleAll(s, rows, Never) != s
    ensures exists id :: IsProcessed(HandleAll(s, rows, Never).log, id) && !IsProcessed(s.log, id)
  {
    var rest, e := rows[..|rows| - 1], rows[|rows| - 1];
    var mid := HandleAll(s, rest, Never);
    HandleAllGood(s, rest, Never);
    HandleAllGood(s, rows, Never);
    if mid != s {
      HandleAllProcesses(s, rest);
      var id :| IsProcessed(mid.log, id) && !IsProcessed(s.log, id);
      ProcessedStays(mid.log, HandleAll(s, rows, Never).log, id);
    } else {
      assert HandleAll(s, rows, Never).log[|s.log|] == Processed(e);
      assert IsProcessed(HandleAll(s, rows, Never).log, e.id);
    }
  }

  /** A clean poll that finds an event it can accept processes some event. */
  lemma PollProcesses(s: Credit, e: FeeEvent) returns (id: Uuid)
    requires Good(s) && e in Fetched(s) && !Refused(s, e)
    ensures IsProcessed(Poll(s, Never).log, id) && !IsProcessed(s.log, id)
  {
    PollStandsStill(s);
    HandleAllProcesses(s, Fetched(s));
    id :| IsProcessed(Poll(s, Never).log, id) && !IsProcessed(s.log, id);
  }

  /** Unless a full batch at the head is refused, some event can still get through. */
  lemma NotStalledMoves(s: Credit, x: FeeEvent) returns (ops: seq<Op>, id: Uuid)
    requires Good(s) && !Stalled(s)
    requires !HasEvent(s.outbox, x.id) && !IsProcessed(s.log, x.id) && !x.kind.Unhandled? && Interpret(x) == Some(Nothing)
    ensures GetsThrough(s, ops, id)
  {
    if e :| e in Fetched(s) && !Refused(s, e) {
      ops := [Polls(Never)];
      PollRun(s);
      id := PollProcesses(s, e);
    } else {
      ops := [Emits(x, |s.outbox|), Polls(Never)];
      var s' := s.(outbox := s.outbox + [x]);
      EmitLate(s, x);
      EmitPollRun(s, x);
      assert Fetched(s') == Fetched(s) + [x];
      id := PollProcesses(s', x);
    }
  }

  /**
   * Some event can still get through, by some run of polls, later events, repayments and disbursements,
   * unless the oldest fifty waiting events are all refused, and then none ever does. `x` is any event on
   * another target, not seen yet.
   */
  lemma QueueStallsIff(s: Credit, x: FeeEvent)
    requires Good(s)
    requires !HasEvent(s.outbox, x.id) && !IsProcessed(s.log, x.id) && !x.kind.Unhandled? && Interpret(x) == Some(Nothing)
    ensures (exists ops, id :: GetsThrough(s, ops, id)) <==> !Stalled(s)
  {
    if Stalled(s) {
      forall ops, id ensures !GetsThrough(s, ops, id) {
        if LateRun(s, ops) { StalledForever(s, ops); }
      }
    } else {
      var ops, id := NotStalledMoves(s, x);
    }
  }

  // ── The consumer ────────────────────────────────────────────────────────────

  class CreditConsumer {
    var outbox: seq<FeeEvent>
    var log: seq<LogRow>
    var loans: map<Uuid, Counters>

    function State(): Credit
      reads this
    {
      Credit(outbox, log, loans)
    }

    constructor ()
      ensures State() == NEW
    {
      outbox, log, loans := [], [], map[];
    }

    /** The UPDATE of one event; false when it raises, with nothing written. */
    method HandleEvent(e: FeeEvent) returns (ok: bool)
      modifies this`loans
      ensures ok <==> !old(Refused(State(), e))
      ensures loans == if ok then old(Apply(loans, Interpret(e).value).value) else old(loans)
    {
      ok := true;
      var effect := Interpret(e);
      if effect.None? { return false; }
      match effect.value
      case Nothing =>
      case Assessed(loan, amount) =>
        if loan in loans {
          if loans[loan].accrued + amount < 0 { return false; }
          loans := loans[loan := Counters(loans[loan].accrued + amount, loans[loan].paid)];
        }
      case Collected(loan, amount) =>
        if loan in loans {
          loans := loans[loan := Counters(Max(loans[loan].accrued - amount, 0), loans[loan].paid + amount)];
        }
    }

    /** `_process_tenant_events`: one savepoint per fetched event. */
    method ProcessTenantEvents(fails: Uuid -> bool) returns (processed: nat)
      modifies this
      ensures State() == Poll(old(State()), fails)
      ensures processed == |log| - |old(log)| <= BATCH
    {
      processed := 0;
      ghost var s := State();
      var rows := Fetched(State());
      for i := 0 to |rows|
        invariant State() == HandleAll(s, rows[..i], fails)
        invariant processed == |log| - |s.log| <= i
      {
        var e := rows[i];
        assert rows[..i + 1][..i] == rows[..i];
        if !IsProcessed(log, e.id) && !fails(e.id) {
          var ok := HandleEvent(e);
          if ok {
            log := log + [Processed(e)];
            processed := processed + 1;
          }
        }
      }
      assert rows[..|rows|] == rows;
    }
  }
}
