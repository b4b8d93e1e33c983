/** Outbox relay: retry with exponential backoff, dead-lettering, and a bounded drain loop. */
module Outbox {
  import opened Text

  const MAX_ROWS_PER_TICK := 1_000
  const BATCH_SIZE := 100
  const MAX_ATTEMPTS := 10

  datatype Row = Row(occurredAt: int, attempts: nat, published: Option<int>, next: Option<int>, dead: bool)

  function Fresh(occurredAt: int): Row { Row(occurredAt, 0, None, None, false) }

  function Pow2(n: nat): nat { if n == 0 then 1 else 2 * Pow2(n - 1) }

  /** Seconds until the next try after `attempts` earlier tries. */
  function Delay(attempts: nat): nat { if 30 * Pow2(attempts) <= 3600 then 30 * Pow2(attempts) else 3600 }

  lemma DelayPositive(attempts: nat)
    ensures Delay(attempts) >= 30
  {
    if attempts > 0 { DelayPositive(attempts - 1); }
  }

  predicate Eligible(r: Row, now: int) {
    r.published.None? && !r.dead && (r.next.None? || r.next.value <= now)
  }

  /** Not published, not given up, and past its wait if it has one. */
  ghost predicate Due(r: Row, now: int) {
    r.published == None && r.dead == false && forall wait :: r.next == Some(wait) ==> wait <= now
  }

  lemma DueIff(r: Row, now: int)
    ensures Eligible(r, now) <==> Due(r, now)
  {
    if r.next.Some? { assert r.next == Some(r.next.value); }
  }

  /** One publish try: its result and the clock when it was known. */
  datatype Try = Try(ok: bool, at: int)

  function After(r: Row, t: Try): Row {
    if t.ok then r.(published := Some(t.at), attempts := r.attempts + 1)
    else r.(attempts := r.attempts + 1, next := Some(t.at + Delay(r.attempts)), dead := r.attempts + 1 >= MAX_ATTEMPTS)
  }

  /** `now` is read once per tick, so a row tried in a tick is not picked up again in it. */
  lemma TriedOncePerTick(r: Row, t: Try, now: int)
    requires t.at >= now
    ensures !Eligible(After(r, t), now)
  {
    DelayPositive(r.attempts);
  }

  // ── One row's history ───────────────────────────────────────────────────────

  /** A try, together with the frozen clock of the tick that made it. */
  datatype Attempt = Attempt(now: int, result: Try)

  function RowAfter(occurredAt: int, h: seq<Attempt>): Row {
    if h == [] then Fresh(occurredAt) else After(RowAfter(occurredAt, h[..|h| - 1]), h[|h| - 1].result)
  }

  predicate Valid(occurredAt: int, h: seq<Attempt>) {
    h == [] || (var last, rest := h[|h| - 1], h[..|h| - 1];
                Valid(occurredAt, rest) && last.result.at >= last.now && Eligible(RowAfter(occurredAt, rest), last.now))
  }

  /** Attempts count the tries; the row ends at its first success or at its tenth failure. */
  lemma {:induction false} Lifecycle(occurredAt: int, h: seq<Attempt>)
    requires Valid(occurredAt, h)
    ensures var r := RowAfter(occurredAt, h);
      && r.attempts == |h| <= MAX_ATTEMPTS
      && r.published == (if h != [] && h[|h| - 1].result.ok then Some(h[|h| - 1].result.at) else None)
      && (forall i :: 0 <= i < |h| - 1 ==> !h[i].result.ok)
      && (r.dead <==> |h| == MAX_ATTEMPTS && !h[|h| - 1].result.ok)
      && (h != [] && !h[|h| - 1].result.ok ==> r.next == Some(h[|h| - 1].result.at + Delay(|h| - 1)))
  {
    if h != [] {
      Lifecycle(occurredAt, h[..|h| - 1]);
    }
  }

  function TotalDelay(n: nat): nat { if n == 0 then 0 else TotalDelay(n - 1) + Delay(n - 1) }

  /** Consecutive tries are at least the backoff apart, whatever the tick times. */
  lemma {:induction false} Spacing(occurredAt: int, h: seq<Attempt>)
    requires Valid(occurredAt, h) && h != []
    ensures h[|h| - 1].result.at - h[0].result.at >= TotalDelay(|h| - 1)
  {
    if |h| > 1 {
      var rest := h[..|h| - 1];
      Spacing(occurredAt, rest);
      Lifecycle(occurredAt, rest);
    }
  }

  /** The wait doubles from half a minute and stays at an hour. */
  lemma {:induction false} DelaysDouble(n: nat)
    ensures Delay(0) == 30 && Delay(n + 1) == if n < 6 then 2 * Delay(n) else 3600
  {
    assert Pow2(1) == 2 && Pow2(2) == 4 && Pow2(3) == 8 && Pow2(4) == 16 && Pow2(5) == 32 && Pow2(6) == 64 && Pow2(7) == 128;
    if n > 6 { DelaysDouble(n - 1); }
  }

  lemma NineDelays()
    ensures TotalDelay(9) == 11010
  {
    assert Pow2(1) == 2 && Pow2(2) == 4 && Pow2(3) == 8 && Pow2(4) == 16 && Pow2(5) == 32 && Pow2(6) == 64 && Pow2(7) == 128 && Pow2(8) == 256;
    assert Delay(0) == 30 && Delay(1) == 60 && Delay(2) == 120 && Delay(3) == 240 && Delay(4) == 480 && Delay(5) == 960;
    assert Delay(6) == 1920 && Delay(7) == 3600 && Delay(8) == 3600;
    assert TotalDelay(1) == 30 && TotalDelay(2) == 90 && TotalDelay(3) == 210 && TotalDelay(4) == 450 && TotalDelay(5) == 930;
    assert TotalDelay(6) == 1890 && TotalDelay(7) == 3810 && TotalDelay(8) == 7410;
  }

  // ── The table over many ticks ───────────────────────────────────────────────

  /** Between ticks rows are inserted; a tick tries the rows in `log`. */
  datatype Op = Inserts(occurredAt: int) | Ticks(now: int, log: map<nat, Try>)

  predicate Legal(op: Op) { op.Ticks? ==> forall i :: i in op.log ==> op.log[i].at >= op.now }

  predicate TriedIn(rows: seq<Row>, op: Op, i: nat) { op.Ticks? && i < |rows| && i in op.log && Eligible(rows[i], op.now) }

  function Step(rows: seq<Row>, op: Op): (after: seq<Row>)
    ensures |after| >= |rows|
    ensures forall i :: 0 <= i < |rows| ==> after[i] == if TriedIn(rows, op, i) then After(rows[i], op.log[i]) else rows[i]
  {
    match op
    case Inserts(occurredAt) => rows + [Fresh(occurredAt)]
    case Ticks(now, log) =>
      seq(|rows|, i requires 0 <= i < |rows| => if i in log && Eligible(rows[i], now) then After(rows[i], log[i]) else rows[i])
  }

  function Run(rows: seq<Row>, ops: seq<Op>): (after: seq<Row>)
    ensures |after| >= |rows|
    decreases |ops|
  {
    if ops == [] then rows else Run(Step(rows, ops[0]), ops[1..])
  }

  /** What one operation adds to the history of row `i`. */
  function Made(rows: seq<Row>, op: Op, i: nat): seq<Attempt> {
    if TriedIn(rows, op, i) then [Attempt(op.now, op.log[i])] else []
  }

  /** The tries row `i` went through, in order, after the earlier ones in `h`. */
  function HistoryOf(rows: seq<Row>, ops: seq<Op>, i: nat, h: seq<Attempt>): seq<Attempt>
    decreases |ops|
  {
    if ops == [] then h else HistoryOf(Step(rows, ops[0]), ops[1..], i, h + Made(rows, ops[0], i))
  }

  lemma StepExtendsHistory(rows: seq<Row>, op: Op, i: nat, occurredAt: int, h: seq<Attempt>)
    requires i < |rows| && Valid(occurredAt, h) && rows[i] == RowAfter(occurredAt, h) && Legal(op)
    ensures Valid(occurredAt, h + Made(rows, op, i)) && Step(rows, op)[i] == RowAfter(occurredAt, h + Made(rows, op, i))
  {
    if TriedIn(rows, op, i) {
      assert (h + Made(rows, op, i))[..|h|] == h;
    } else {
      assert h + [] == h;
    }
  }

  ghost predicate AllLegal(ops: seq<Op>) { forall k :: 0 <= k < |ops| ==> Legal(ops[k]) }

  lemma {:induction false} RunFollowsHistory(rows: seq<Row>, ops: seq<Op>, i: nat, occurredAt: int, h: seq<Attempt>)
    requires i < |rows| && Valid(occurredAt, h) && rows[i] == RowAfter(occurredAt, h) && AllLegal(ops)
    ensures Valid(occurredAt, HistoryOf(rows, ops, i, h))
    ensures Run(rows, ops)[i] == RowAfter(occurredAt, HistoryOf(rows, ops, i, h))
    decreases |ops|
  {
    if ops != [] {
      StepExtendsHistory(rows, ops[0], i, occurredAt, h);
      RunFollowsHistory(Step(rows, ops[0]), ops[1..], i, occurredAt, h + Made(rows, ops[0], i));
    }
  }

  /** A dead row failed ten times, over 11010 seconds or more. */
  lemma DeadTakesTime(occurredAt: int, h: seq<Attempt>)
    requires Valid(occurredAt, h) && RowAfter(occurredAt, h).dead
    ensures |h| == MAX_ATTEMPTS && (forall k :: 0 <= k < |h| ==> !h[k].result.ok)
    ensures h[9].result.at - h[0].result.at >= 11010
  {
    Lifecycle(occurredAt, h);
    Spacing(occurredAt, h);
    NineDelays();
  }

  /**
   * For a row inserted at any point and every later run of ticks and inserts: attempts is the number
   * of publish tries, published and dead-lettered exclude each other, dead means exactly ten failures,
   * and it is never reached sooner than 11010 seconds after the first of them.
   */
  lemma RelayLifecycle(rows: seq<Row>, occurredAt: int, ops: seq<Op>, h: seq<Attempt>, r: Row)
    requires AllLegal(ops)
    requires h == HistoryOf(rows + [Fresh(occurredAt)], ops, |rows|, [])
    requires r == Run(rows + [Fresh(occurredAt)], ops)[|rows|]
    ensures r.attempts == |h| <= 10
    ensures !(r.published.Some? && r.dead)
    ensures r.published == if h != [] && h[|h| - 1].result.ok then Some(h[|h| - 1].result.at) else None
    ensures r.dead <==> |h| == 10 && !h[|h| - 1].result.ok
    ensures h != [] && !h[|h| - 1].result.ok ==> r.next == Some(h[|h| - 1].result.at + Delay(|h| - 1))
    ensures r.dead ==> (forall k :: 0 <= k < |h| ==> !h[k].result.ok) && h[9].result.at - h[0].result.at >= 11010
  {
    RunFollowsHistory(rows + [Fresh(occurredAt)], ops, |rows|, occurredAt, []);
    Lifecycle(occurredAt, h);
    if r.dead { DeadTakesTime(occurredAt, h); }
  }

  /** Published and dead-lettered rows are never touched again. */
  lemma {:induction false} SettledIsFinal(rows: seq<Row>, ops: seq<Op>, i: nat)
    requires i < |rows| && (rows[i].published.Some? || rows[i].dead)
    ensures Run(rows, ops)[i] == rows[i]
    decreases |ops|
  {
    if ops != [] {
      SettledIsFinal(Step(rows, ops[0]), ops[1..], i);
    }
  }

  // ── The relay ───────────────────────────────────────────────────────────────

  predicate DistinctRows(batch: seq<nat>) { forall i, j :: 0 <= i < j < |batch| ==> batch[i] != batch[j] }

  class OutboxTable {
    var rows: seq<Row>

    constructor ()
      ensures rows == []
    {
      rows := [];
    }

    /** Oldest eligible row outside `chosen`, or the number of rows when there is none. */
    method Oldest(now: int, chosen: seq<nat>) returns (k: nat)
      ensures k <= |rows|
      ensures k < |rows| ==> Eligible(rows[k], now) && k !in chosen
      ensures forall i :: 0 <= i < |rows| && Eligible(rows[i], now) && i !in chosen ==>
                k < |rows| && rows[k].occurredAt <= rows[i].occurredAt
    {
      k := |rows|;
      for i := 0 to |rows|
        invariant k <= |rows| && (k < |rows| ==> k < i && Eligible(rows[k], now) && k !in chosen)
        invariant forall j :: 0 <= j < i && Eligible(rows[j], now) && j !in chosen ==>
                    k < |rows| && rows[k].occurredAt <= rows[j].occurredAt
      {
        if Eligible(rows[i], now) && i !in chosen && (k == |rows| || rows[i].occurredAt < rows[k].occurredAt) {
          k := i;
        }
      }
    }

    /** Up to a hundred eligible rows, oldest first; short only when it holds them all. */
    method SelectBatch(now: int) returns (batch: seq<nat>)
      ensures |batch| <= 100 && DistinctRows(batch)
      ensures forall i :: 0 <= i < |batch| ==> batch[i] < |rows| && Eligible(rows[batch[i]], now)
      ensures |batch| < 100 ==> forall i :: 0 <= i < |rows| && Eligible(rows[i], now) ==> i in batch
      ensures forall i, j :: 0 <= i < |batch| && 0 <= j < |rows| && Eligible(rows[j], now) && j !in batch ==>
                rows[batch[i]].occurredAt <= rows[j].occurredAt
    {
      batch := [];
      while |batch| < BATCH_SIZE
        invariant |batch| <= BATCH_SIZE && DistinctRows(batch)
        invariant forall i :: 0 <= i < |batch| ==> batch[i] < |rows| && Eligible(rows[batch[i]], now)
        invariant forall i, j :: 0 <= i < |batch| && 0 <= j < |rows| && Eligible(rows[j], now) && j !in batch ==>
                    rows[batch[i]].occurredAt <= rows[j].occurredAt
        decreases BATCH_SIZE - |batch|
      {
        var k := Oldest(now, batch);
        if k == |rows| {
          return;
        }
        batch := batch + [k];
      }
    }

    /** Publishes one batch: every row in it is tried once. */
    method PublishBatch(now: int, batch: seq<nat>, tries: nat -> Try, first: nat)
      requires DistinctRows(batch) && forall i :: 0 <= i < |batch| ==> batch[i] < |rows|
      modifies this
      ensures |rows| == |old(rows)|
      ensures forall i :: 0 <= i < |batch| ==> rows[batch[i]] == After(old(rows)[batch[i]], tries(first + i))
      ensures forall k :: 0 <= k < |rows| && k !in batch ==> rows[k] == old(rows)[k]
    {
      for n := 0 to |batch|
        invariant |rows| == |old(rows)|
        invariant forall i :: 0 <= i < n ==> rows[batch[i]] == After(old(rows)[batch[i]], tries(first + i))
        invariant forall k :: 0 <= k < |rows| && k !in batch[..n] ==> rows[k] == old(rows)[k]
      {
        var k, t := batch[n], tries(first + n);
        assert k !in batch[..n];
        var row := rows[k];
        if t.ok {
          row := row.(published := Some(t.at), attempts := row.attempts + 1);
        } else {
          var current := row.attempts;
          row := row.(attempts := current + 1, next := Some(t.at + Delay(current)), dead := current + 1 >= MAX_ATTEMPTS);
        }
        rows := rows[k := row];
        assert batch[..n + 1] == batch[..n] + [k];
      }
      assert batch[..|batch|] == batch;
    }

    /**
     * `_relay_outbox`: batches until nothing is eligible, the row limit is passed or the clock runs out.
     * `tries(k)` is the k-th publish of the tick and `inTime(k)` the k-th look at the deadline.
     */
    method Relay(now: int, tries: nat -> Try, inTime: nat -> bool) returns (total: nat, drained: bool, ghost tried: seq<nat>)
      requires forall k :: tries(k).at >= now
      modifies this
      ensures total == |tried| <= 1_099 && DistinctRows(tried)
      ensures Legal(Ticks(now, LogOf(tried, tries))) && rows == Step(old(rows), Ticks(now, LogOf(tried, tries)))
      ensures forall i :: 0 <= i < |rows| ==> (Eligible(rows[i], now) <==> Eligible(old(rows)[i], now) && i !in tried)
      ensures drained ==> forall i :: 0 <= i < |rows| ==> !Eligible(rows[i], now)
      ensures forall i :: i in tried ==> i < |old(rows)| && Due(old(rows)[i], now)
      ensures drained ==> forall i :: 0 <= i < |old(rows)| && Due(old(rows)[i], now) ==> i in tried
      ensures drained || total >= 1_000 || exists k: nat :: !inTime(k)
    {
      ghost var start := rows;
      total, drained, tried := 0, false, [];
      var looks := 0;
      while total < MAX_ROWS_PER_TICK && inTime(looks)
        invariant total == |tried| <= MAX_ROWS_PER_TICK + BATCH_SIZE - 1 && !drained
        invariant Progress(start, rows, now, tried, tries)
        decreases MAX_ROWS_PER_TICK - total
      {
        var batch := SelectBatch(now);
        if |batch| == 0 {
          drained := true;
          break;
        }
        ghost var before := rows;
        PublishBatch(now, batch, tries, total);
        BatchProgress(start, before, rows, now, tried, batch, tries);
        tried := tried + batch;
        total := total + |batch|;
        looks := looks + 1;
      }
      TickProgress(start, rows, now, tried, tries);
      forall i | 0 <= i < |start| ensures Eligible(start[i], now) <==> Due(start[i], now) { DueIff(start[i], now); }
    }
  }

  // ── Progress within a tick ──────────────────────────────────────────────────

  function Position(tried: seq<nat>, i: nat): (k: nat)
    requires i in tried
    ensures k < |tried| && tried[k] == i
  {
    if tried[0] == i then 0 else 1 + Position(tried[1..], i)
  }

  function LogOf(tried: seq<nat>, tries: nat -> Try): map<nat, Try> {
    map i | i in tried :: tries(Position(tried, i))
  }

  /** The k-th row tried was eligible at the start and got the k-th result; no other row moved. */
  ghost predicate Progress(start: seq<Row>, rows: seq<Row>, now: int, tried: seq<nat>, tries: nat -> Try) {
    && |rows| == |start| && DistinctRows(tried)
    && (forall k :: 0 <= k < |tried| ==> tried[k] < |start| && Eligible(start[tried[k]], now) && rows[tried[k]] == After(start[tried[k]], tries(k)))
    && (forall i :: 0 <= i < |start| && i !in tried ==> rows[i] == start[i])
  }

  lemma TriedIsDone(start: seq<Row>, rows: seq<Row>, now: int, tried: seq<nat>, tries: nat -> Try, i: nat)
    requires Progress(start, rows, now, tried, tries) && i in tried && forall k :: tries(k).at >= now
    ensures i < |rows| && !Eligible(rows[i], now)
  {
    var k := Position(tried, i);
    TriedOncePerTick(start[i], tries(k), now);
  }

  lemma BatchProgress(start: seq<Row>, before: seq<Row>, rows: seq<Row>, now: int, tried: seq<nat>, batch: seq<nat>, tries: nat -> Try)
    requires Progress(start, before, now, tried, tries) && DistinctRows(batch) && forall k :: tries(k).at >= now
    requires forall i :: 0 <= i < |batch| ==> batch[i] < |before| && Eligible(before[batch[i]], now)
    requires |rows| == |before|
    requires forall i :: 0 <= i < |batch| ==> rows[batch[i]] == After(before[batch[i]], tries(|tried| + i))
    requires forall k :: 0 <= k < |rows| && k !in batch ==> rows[k] == before[k]
    ensures Progress(start, rows, now, tried + batch, tries)
  {
    forall i | i in batch ensures i !in tried {
      if i in tried { TriedIsDone(start, before, now, tried, tries, i); }
    }
    var all := tried + batch;
    forall k | 0 <= k < |all|
      ensures all[k] < |start| && Eligible(start[all[k]], now) && rows[all[k]] == After(start[all[k]], tries(k))
    {
      if k < |tried| {
        assert tried[k] in tried;
      } else {
        assert all[k] == batch[k - |tried|] && batch[k - |tried|] in batch;
      }
    }
    forall i, j | 0 <= i < j < |all| ensures all[i] != all[j] {
      if i < |tried| <= j {
        assert all[i] in tried && all[j] == batch[j - |tried|] && all[j] in batch;
      }
    }
  }

  lemma TickProgress(start: seq<Row>, rows: seq<Row>, now: int, tried: seq<nat>, tries: nat -> Try)
    requires Progress(start, rows, now, tried, tries) && forall k :: tries(k).at >= now
    ensures Legal(Ticks(now, LogOf(tried, tries))) && rows == Step(start, Ticks(now, LogOf(tried, tries)))
    ensures forall i :: 0 <= i < |rows| ==> (Eligible(rows[i], now) <==> Eligible(start[i], now) && i !in tried)
  {
    var log := LogOf(tried, tries);
    forall i: nat | i in log ensures i < |start| && Eligible(start[i], now) && rows[i] == After(start[i], log[i]) && !Eligible(rows[i], now) {
      var k := Position(tried, i);
      TriedIsDone(start, rows, now, tried, tries, i);
    }
    assert |Step(start, Ticks(now, log))| == |start|;
  }
}
