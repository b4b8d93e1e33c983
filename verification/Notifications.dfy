/** Notification dispatch, retry and resend: one event over its channels and delivery rows. */
module Notifications {
  import opened Sums

  datatype DeliveryStatus = Sent | Failed

  datatype Delivery = Delivery(channel: string, attempt: int, status: DeliveryStatus, sentAt: int)

  /** The columns 'queued', 'sent', 'partial' and 'failed'. */
  datatype Status = Queued | Complete | Partial | Unsent

  datatype Event = Event(channels: seq<string>, status: Status, scheduledAt: int, deliveries: seq<Delivery>)

  const IN_APP := "in_app"
  const MAX_ATTEMPTS := 3
  const BACKOFF_SECONDS := 300

  // ── Delivery rows ───────────────────────────────────────────────────────────

  /** The rows of one channel, oldest first. */
  function RowsOf(ds: seq<Delivery>, c: string): seq<Delivery> {
    if ds == [] then []
    else RowsOf(ds[..|ds| - 1], c) + (if ds[|ds| - 1].channel == c then [ds[|ds| - 1]] else [])
  }

  predicate HasStatus(ds: seq<Delivery>, c: string, status: DeliveryStatus) {
    exists i :: 0 <= i < |ds| && ds[i].channel == c && ds[i].status == status
  }

  function Latest(ds: seq<Delivery>): (t: int)
    requires ds != []
    ensures exists i :: 0 <= i < |ds| && ds[i].sentAt == t
    ensures forall i :: 0 <= i < |ds| ==> ds[i].sentAt <= t
  {
    var last := ds[|ds| - 1].sentAt;
    if |ds| == 1 then last
    else
      var t := Latest(ds[..|ds| - 1]);
      if t >= last then t else last
  }

  // ── Dispatch ────────────────────────────────────────────────────────────────

  /** The channels left after the recipient's disabled ones are dropped. */
  function Resolved(channels: seq<string>, disabled: set<string>): seq<string> {
    if channels == [] then []
    else Resolved(channels[..|channels| - 1], disabled)
         + (if channels[|channels| - 1] in disabled then [] else [channels[|channels| - 1]])
  }

  /** Neither the in-app feed nor a channel already sent is dispatched again. */
  predicate Skipped(prior: seq<Delivery>, c: string) { c == IN_APP || HasStatus(prior, c, Sent) }

  function NewRow(prior: seq<Delivery>, c: string, sent: bool, now: int): Delivery {
    Delivery(c, |RowsOf(prior, c)| + 1, if sent then Sent else Failed, now)
  }

  /** One send for each place in the list: what became of the send at place `i` is `sends(i)`. */
  function NewRows(prior: seq<Delivery>, resolved: seq<string>, sends: nat -> bool, now: int): seq<Delivery> {
    if resolved == [] then []
    else
      var c := resolved[|resolved| - 1];
      NewRows(prior, resolved[..|resolved| - 1], sends, now) + (if Skipped(prior, c) then [] else [NewRow(prior, c, sends(|resolved| - 1), now)])
  }

  predicate FailsAt(prior: seq<Delivery>, resolved: seq<string>, sends: nat -> bool, i: nat)
    requires i < |resolved|
  {
    !Skipped(prior, resolved[i]) && !sends(i)
  }

  /** Sends that count as failed in this dispatch. */
  function FailedCount(prior: seq<Delivery>, resolved: seq<string>, sends: nat -> bool): nat {
    if resolved == [] then 0
    else
      var n := |resolved| - 1;
      FailedCount(prior, resolved[..n], sends) + if FailsAt(prior, resolved, sends, n) then 1 else 0
  }

  function Dispatch(e: Event, disabled: set<string>, sends: nat -> bool, now: int): Event {
    var resolved := Resolved(e.channels, disabled);
    var failed := FailedCount(e.deliveries, resolved, sends);
    e.(deliveries := e.deliveries + NewRows(e.deliveries, resolved, sends, now),
       status := if failed == 0 then Complete else if failed < |resolved| then Partial else Unsent)
  }

  // ── Retry and resend ────────────────────────────────────────────────────────

  predicate Blocked(ds: seq<Delivery>, c: string) { HasStatus(ds, c, Failed) && !HasStatus(ds, c, Sent) }

  predicate Exhausted(ds: seq<Delivery>) {
    exists i :: 0 <= i < |ds| && Blocked(ds, ds[i].channel) && ds[i].attempt >= MAX_ATTEMPTS
  }

  predicate AnyBlocked(ds: seq<Delivery>) { exists i :: 0 <= i < |ds| && Blocked(ds, ds[i].channel) }

  predicate Requeues(e: Event, now: int) {
    && (e.status == Partial || e.status == Unsent)
    && AnyBlocked(e.deliveries) && !Exhausted(e.deliveries)
    && Latest(e.deliveries) < now - BACKOFF_SECONDS
  }

  function Retry(e: Event, now: int): Event {
    if Requeues(e, now) then e.(status := Queued, scheduledAt := now) else e
  }

  /** Operators may requeue any event that is not queued already. */
  function Resend(e: Event, now: int): Event {
    if e.status == Queued then e else e.(status := Queued, scheduledAt := now)
  }

  // ── Runs ────────────────────────────────────────────────────────────────────

  /** Preferences may differ at every dispatch. */
  datatype Op = Dispatches(disabled: set<string>, sends: nat -> bool, now: int) | Retries(now: int) | Resends(now: int)

  function Step(e: Event, op: Op): Event {
    match op
    case Dispatches(disabled, sends, now) => if e.status == Queued && e.scheduledAt <= now then Dispatch(e, disabled, sends, now) else e
    case Retries(now) => Retry(e, now)
    case Resends(now) => Resend(e, now)
  }

  function Run(e: Event, ops: seq<Op>): Event
    decreases |ops|
  {
    if ops == [] then e else Run(Step(e, ops[0]), ops[1..])
  }

  /** Resends that took effect. */
  function ResendCount(e: Event, ops: seq<Op>): nat
    decreases |ops|
  {
    if ops == [] then 0
    else (if ops[0].Resends? && e.status != Queued then 1 else 0) + ResendCount(Step(e, ops[0]), ops[1..])
  }

  // ── Invariant ───────────────────────────────────────────────────────────────

  /** No channel with delivery rows is listed twice. */
  predicate Unrepeated(channels: seq<string>) {
    forall i, j :: 0 <= i < j < |channels| && channels[i] == channels[j] ==> channels[i] == IN_APP
  }

  /** Rows numbered 1..k, all but the last failed. */
  predicate Orderly(rows: seq<Delivery>) {
    && (forall i :: 0 <= i < |rows| ==> rows[i].attempt == i + 1)
    && (forall i :: 0 <= i < |rows| - 1 ==> rows[i].status == Failed)
  }

  /** 'partial' or 'failed' means that some channel has a failure and no success. */
  predicate Truthful(e: Event) { e.status == Partial || e.status == Unsent ==> AnyBlocked(e.deliveries) }

  ghost predicate EventInv(e: Event) {
    && Unrepeated(e.channels)
    && (forall c :: Orderly(RowsOf(e.deliveries, c)))
    && (forall d :: d in e.deliveries ==> d.channel in e.channels && d.channel != IN_APP)
    && Truthful(e)
  }

  lemma {:induction false} RowsConcat(ds: seq<Delivery>, more: seq<Delivery>, c: string)
    ensures RowsOf(ds + more, c) == RowsOf(ds, c) + RowsOf(more, c)
  {
    if more == [] {
      assert ds + more == ds;
    } else {
      var rest, d := more[..|more| - 1], more[|more| - 1];
      assert (ds + more)[..|ds + more| - 1] == ds + rest;
      RowsConcat(ds, rest, c);
    }
  }

  lemma {:induction false} RowsMember(ds: seq<Delivery>, c: string, d: Delivery)
    ensures d in RowsOf(ds, c) <==> d in ds && d.channel == c
  {
    if ds != [] {
      RowsMember(ds[..|ds| - 1], c, d);
      assert ds == ds[..|ds| - 1] + [ds[|ds| - 1]];
    }
  }

  lemma {:induction false} ResolvedMember(channels: seq<string>, disabled: set<string>, c: string)
    ensures c in Resolved(channels, disabled) <==> c in channels && c !in disabled
  {
    if channels != [] {
      ResolvedMember(channels[..|channels| - 1], disabled, c);
      assert channels == channels[..|channels| - 1] + [channels[|channels| - 1]];
    }
  }

  lemma {:induction false} ResolvedUnrepeated(channels: seq<string>, disabled: set<string>)
    requires Unrepeated(channels)
    ensures Unrepeated(Resolved(channels, disabled))
  {
    if channels != [] {
      var rest, c := channels[..|channels| - 1], channels[|channels| - 1];
      ResolvedUnrepeated(rest, disabled);
      ResolvedMember(rest, disabled, c);
      assert c in rest ==> c == IN_APP;
    }
  }

  function Mentions(channels: seq<string>, c: string): nat {
    if channels == [] then 0 else Mentions(channels[..|channels| - 1], c) + if channels[|channels| - 1] == c then 1 else 0
  }

  lemma {:induction false} MentionedAt(channels: seq<string>, c: string, i: nat)
    requires i < |channels| && channels[i] == c
    ensures Mentions(channels, c) >= 1
  {
    if i < |channels| - 1 { MentionedAt(channels[..|channels| - 1], c, i); }
  }

  lemma {:induction false} MentionedTwice(channels: seq<string>, c: string, i: nat, j: nat)
    requires i < j < |channels| && channels[i] == channels[j] == c
    ensures Mentions(channels, c) >= 2
  {
    if j < |channels| - 1 {
      MentionedTwice(channels[..|channels| - 1], c, i, j);
    } else {
      MentionedAt(channels[..|channels| - 1], c, i);
    }
  }

  /** A dispatch adds one row for each mention of a channel it does not skip. */
  lemma {:induction false} NewRowsCount(prior: seq<Delivery>, resolved: seq<string>, sends: nat -> bool, now: int, c: string)
    ensures |RowsOf(NewRows(prior, resolved, sends, now), c)| == if Skipped(prior, c) then 0 else Mentions(resolved, c)
  {
    if resolved != [] {
      var n := |resolved| - 1;
      var rest, x := resolved[..n], resolved[n];
      var last := if Skipped(prior, x) then [] else [NewRow(prior, x, sends(n), now)];
      NewRowsCount(prior, rest, sends, now, c);
      RowsConcat(NewRows(prior, rest, sends, now), last, c);
      assert RowsOf([], c) == [];
      assert RowsOf(last, c) == if x == c then last else [];
    }
  }

  /** All rows a dispatch adds to a channel have one number and time. */
  lemma {:induction false} NewRowsAlike(prior: seq<Delivery>, resolved: seq<string>, sends: nat -> bool, now: int)
    ensures forall d :: d in NewRows(prior, resolved, sends, now) ==> d == NewRow(prior, d.channel, d.status == Sent, now)
  {
    if resolved != [] { NewRowsAlike(prior, resolved[..|resolved| - 1], sends, now); }
  }

  lemma NewRowAlike(prior: seq<Delivery>, resolved: seq<string>, sends: nat -> bool, now: int, c: string, d: Delivery)
    requires d in RowsOf(NewRows(prior, resolved, sends, now), c)
    ensures d == NewRow(prior, c, d.status == Sent, now)
  {
    NewRowsAlike(prior, resolved, sends, now);
    RowsMember(NewRows(prior, resolved, sends, now), c, d);
  }

  /** A send at a place not skipped leaves its row. */
  lemma {:induction false} SendLeavesRow(prior: seq<Delivery>, resolved: seq<string>, sends: nat -> bool, now: int, i: nat)
    requires i < |resolved| && !Skipped(prior, resolved[i])
    ensures NewRow(prior, resolved[i], sends(i), now) in NewRows(prior, resolved, sends, now)
  {
    if i < |resolved| - 1 { SendLeavesRow(prior, resolved[..|resolved| - 1], sends, now, i); }
  }

  lemma {:induction false} UnrepeatedMentions(channels: seq<string>, c: string)
    requires Unrepeated(channels) && c != IN_APP
    ensures Mentions(channels, c) == if c in channels then 1 else 0
  {
    if channels != [] {
      var rest, x := channels[..|channels| - 1], channels[|channels| - 1];
      assert channels == rest + [x] && (x in rest ==> x == IN_APP);
      UnrepeatedMentions(rest, c);
    }
  }

  /** Without repeats a dispatch adds at most one row per channel, and none to a skipped one. */
  lemma NewRowsOf(prior: seq<Delivery>, resolved: seq<string>, sends: nat -> bool, now: int, c: string) returns (sent: bool)
    requires Unrepeated(resolved)
    ensures RowsOf(NewRows(prior, resolved, sends, now), c)
         == if c in resolved && !Skipped(prior, c) then [NewRow(prior, c, sent, now)] else []
  {
    var rows := RowsOf(NewRows(prior, resolved, sends, now), c);
    NewRowsCount(prior, resolved, sends, now, c);
    if c != IN_APP { UnrepeatedMentions(resolved, c); }
    sent := rows != [] && rows[0].status == Sent;
    if rows != [] {
      NewRowAlike(prior, resolved, sends, now, c, rows[0]);
    }
  }

  lemma DispatchRows(e: Event, disabled: set<string>, sends: nat -> bool, now: int, c: string) returns (sent: bool)
    requires Unrepeated(e.channels)
    ensures RowsOf(Dispatch(e, disabled, sends, now).deliveries, c) == RowsOf(e.deliveries, c)
      + (if c in e.channels && c !in disabled && !Skipped(e.deliveries, c) then [NewRow(e.deliveries, c, sent, now)] else [])
  {
    var resolved := Resolved(e.channels, disabled);
    ResolvedUnrepeated(e.channels, disabled);
    ResolvedMember(e.channels, disabled, c);
    sent := NewRowsOf(e.deliveries, resolved, sends, now, c);
    RowsConcat(e.deliveries, NewRows(e.deliveries, resolved, sends, now), c);
  }

  lemma NotSentRows(ds: seq<Delivery>, c: string)
    requires !HasStatus(ds, c, Sent)
    ensures forall d :: d in RowsOf(ds, c) ==> d.status == Failed
  {
    forall d | d in RowsOf(ds, c) ensures d.status == Failed {
      RowsMember(ds, c, d);
      var i :| 0 <= i < |ds| && ds[i] == d;
    }
  }

  lemma StatusInRows(ds: seq<Delivery>, c: string, status: DeliveryStatus)
    ensures HasStatus(ds, c, status) <==> exists d :: d in RowsOf(ds, c) && d.status == status
  {
    if HasStatus(ds, c, status) {
      var i :| 0 <= i < |ds| && ds[i].channel == c && ds[i].status == status;
      RowsMember(ds, c, ds[i]);
    }
    if d :| d in RowsOf(ds, c) && d.status == status {
      RowsMember(ds, c, d);
      var i :| 0 <= i < |ds| && ds[i] == d;
    }
  }

  lemma {:induction false} NewRowsMembers(prior: seq<Delivery>, resolved: seq<string>, sends: nat -> bool, now: int)
    ensures forall d :: d in NewRows(prior, resolved, sends, now) ==> d.channel in resolved && d.channel != IN_APP
  {
    if resolved != [] {
      NewRowsMembers(prior, resolved[..|resolved| - 1], sends, now);
    }
  }

  lemma {:induction false} SomeFails(prior: seq<Delivery>, resolved: seq<string>, sends: nat -> bool) returns (i: nat)
    requires FailedCount(prior, resolved, sends) != 0
    ensures i < |resolved| && FailsAt(prior, resolved, sends, i)
  {
    i := |resolved| - 1;
    if !FailsAt(prior, resolved, sends, i) {
      i := SomeFails(prior, resolved[..i], sends);
    }
  }

  lemma {:induction false} FailureCounts(prior: seq<Delivery>, resolved: seq<string>, sends: nat -> bool, i: nat)
    requires i < |resolved| && FailsAt(prior, resolved, sends, i)
    ensures FailedCount(prior, resolved, sends) >= 1
  {
    if i < |resolved| - 1 { FailureCounts(prior, resolved[..|resolved| - 1], sends, i); }
  }

  /** What a dispatch makes of one channel's rows, repeats or not. */
  lemma DispatchAdds(e: Event, disabled: set<string>, sends: nat -> bool, now: int, c: string)
    ensures var more := RowsOf(NewRows(e.deliveries, Resolved(e.channels, disabled), sends, now), c);
      && RowsOf(Dispatch(e, disabled, sends, now).deliveries, c) == RowsOf(e.deliveries, c) + more
      && (forall d :: d in more ==> d == NewRow(e.deliveries, c, d.status == Sent, now))
      && |more| == if Skipped(e.deliveries, c) then 0 else Mentions(Resolved(e.channels, disabled), c)
  {
    var resolved := Resolved(e.channels, disabled);
    NewRowsCount(e.deliveries, resolved, sends, now, c);
    forall d | d in RowsOf(NewRows(e.deliveries, resolved, sends, now), c)
      ensures d == NewRow(e.deliveries, c, d.status == Sent, now)
    {
      NewRowAlike(e.deliveries, resolved, sends, now, c, d);
    }
    RowsConcat(e.deliveries, NewRows(e.deliveries, resolved, sends, now), c);
  }

  lemma RowsBlock(ds: seq<Delivery>, c: string)
    requires RowsOf(ds, c) != [] && forall d :: d in RowsOf(ds, c) ==> d.status == Failed
    ensures Blocked(ds, c)
  {
    assert RowsOf(ds, c)[0] in RowsOf(ds, c);
    StatusInRows(ds, c, Failed);
    StatusInRows(ds, c, Sent);
  }

  /** A failed send on a channel listed once leaves that channel with a failure and no success. */
  lemma FailureBlocks(e: Event, disabled: set<string>, sends: nat -> bool, now: int, i: nat)
    requires i < |Resolved(e.channels, disabled)| && FailsAt(e.deliveries, Resolved(e.channels, disabled), sends, i)
    requires Mentions(Resolved(e.channels, disabled), Resolved(e.channels, disabled)[i]) == 1
    ensures Blocked(Dispatch(e, disabled, sends, now).deliveries, Resolved(e.channels, disabled)[i])
  {
    var resolved := Resolved(e.channels, disabled);
    var c := resolved[i];
    var more := RowsOf(NewRows(e.deliveries, resolved, sends, now), c);
    DispatchAdds(e, disabled, sends, now, c);
    NotSentRows(e.deliveries, c);
    SendLeavesRow(e.deliveries, resolved, sends, now, i);
    RowsMember(NewRows(e.deliveries, resolved, sends, now), c, NewRow(e.deliveries, c, false, now));
    assert more == [more[0]] && more[0].status == Failed;
    RowsBlock(Dispatch(e, disabled, sends, now).deliveries, c);
  }

  /** A dispatch that does not complete tried a channel that had never been sent, and failed there. */
  lemma DispatchTries(e: Event, disabled: set<string>, sends: nat -> bool, now: int) returns (i: nat)
    requires Dispatch(e, disabled, sends, now).status != Complete
    ensures var resolved := Resolved(e.channels, disabled);
      && i < |resolved| && FailsAt(e.deliveries, resolved, sends, i)
      && resolved[i] in e.channels && Mentions(resolved, resolved[i]) >= 1
  {
    var resolved := Resolved(e.channels, disabled);
    i := SomeFails(e.deliveries, resolved, sends);
    ResolvedMember(e.channels, disabled, resolved[i]);
    MentionedAt(resolved, resolved[i], i);
  }

  /** Without repeats, a dispatch that does not complete leaves a channel with a failure and no success. */
  lemma DispatchBlocks(e: Event, disabled: set<string>, sends: nat -> bool, now: int)
    requires Unrepeated(e.channels) && Dispatch(e, disabled, sends, now).status != Complete
    ensures AnyBlocked(Dispatch(e, disabled, sends, now).deliveries)
  {
    var resolved := Resolved(e.channels, disabled);
    var i := DispatchTries(e, disabled, sends, now);
    ResolvedUnrepeated(e.channels, disabled);
    UnrepeatedMentions(resolved, resolved[i]);
    FailureBlocks(e, disabled, sends, now, i);
    BlockedSomewhere(Dispatch(e, disabled, sends, now).deliveries, resolved[i]);
  }

  lemma BlockedSomewhere(ds: seq<Delivery>, c: string)
    requires Blocked(ds, c)
    ensures AnyBlocked(ds)
  {
    var i :| 0 <= i < |ds| && ds[i].channel == c && ds[i].status == Failed;
    assert Blocked(ds, ds[i].channel);
  }

  lemma DispatchKeeps(e: Event, disabled: set<string>, sends: nat -> bool, now: int)
    requires EventInv(e)
    ensures EventInv(Dispatch(e, disabled, sends, now))
  {
    var e' := Dispatch(e, disabled, sends, now);
    var resolved := Resolved(e.channels, disabled);
    forall c: string ensures Orderly(RowsOf(e'.deliveries, c)) {
      var sent := DispatchRows(e, disabled, sends, now, c);
      assert Orderly(RowsOf(e.deliveries, c));
      if !HasStatus(e.deliveries, c, Sent) {
        NotSentRows(e.deliveries, c);
      }
    }
    NewRowsMembers(e.deliveries, resolved, sends, now);
    forall d | d in e'.deliveries ensures d.channel in e.channels && d.channel != IN_APP {
      ResolvedMember(e.channels, disabled, d.channel);
    }
    if e'.status != Complete { DispatchBlocks(e, disabled, sends, now); }
  }

  lemma StepKeeps(e: Event, op: Op)
    requires EventInv(e)
    ensures EventInv(Step(e, op)) && Step(e, op).channels == e.channels
  {
    if op.Dispatches? && e.status == Queued {
      DispatchKeeps(e, op.disabled, op.sends, op.now);
    }
  }

  lemma {:induction false} RunKeeps(e: Event, ops: seq<Op>)
    requires EventInv(e)
    ensures EventInv(Run(e, ops))
    decreases |ops|
  {
    if ops != [] {
      StepKeeps(e, ops[0]);
      RunKeeps(Step(e, ops[0]), ops[1..]);
    }
  }

  function NewEvent(channels: seq<string>, scheduledAt: int): Event { Event(channels, Queued, scheduledAt, []) }

  /**
   * Over every run of dispatch, retry, resend and preference changes: each channel's rows are numbered
   * 1..k without gaps, only the last can be sent, and 'partial' or 'failed' means some channel has a
   * failure and no success.
   */
  lemma DeliveriesAreOrderly(channels: seq<string>, scheduledAt: int, ops: seq<Op>, c: string)
    requires Unrepeated(channels)
    ensures var e := Run(NewEvent(channels, scheduledAt), ops);
      && Orderly(RowsOf(e.deliveries, c))
      && Truthful(e)
  {
    assert EventInv(NewEvent(channels, scheduledAt));
    RunKeeps(NewEvent(channels, scheduledAt), ops);
  }

  lemma {:induction false} AllResolved(channels: seq<string>)
    ensures Resolved(channels, {}) == channels
  {
    if channels != [] {
      AllResolved(channels[..|channels| - 1]);
      assert channels == channels[..|channels| - 1] + [channels[|channels| - 1]];
    }
  }

  /** With a channel listed twice the first dispatch already numbers two of its rows alike. */
  lemma RepeatBreaksNumbering(channels: seq<string>, i: nat, j: nat, sends: nat -> bool, now: int)
    requires i < j < |channels| && channels[i] == channels[j] != IN_APP
    ensures var rows := RowsOf(Dispatch(NewEvent(channels, now), {}, sends, now).deliveries, channels[i]);
      |rows| >= 2 && rows[0].attempt == rows[1].attempt && !Orderly(rows)
  {
    AllResolved(channels);
    MentionedTwice(channels, channels[i], i, j);
    DispatchAdds(NewEvent(channels, now), {}, sends, now, channels[i]);
    var rows := RowsOf(Dispatch(NewEvent(channels, now), {}, sends, now).deliveries, channels[i]);
    assert RowsOf([], channels[i]) == [];
    assert rows[0] in rows && rows[1] in rows;
  }

  predicate OrderlyAfter(channels: seq<string>, scheduledAt: int, ops: seq<Op>, c: string) {
    Orderly(RowsOf(Run(NewEvent(channels, scheduledAt), ops).deliveries, c))
  }

  /**
   * An event's rows stay orderly, for every channel and over every run, if and only if none of its
   * channels other than the in-app feed is listed twice.
   */
  lemma OrderlyIffUnrepeated(channels: seq<string>, scheduledAt: int)
    ensures (forall ops, c :: OrderlyAfter(channels, scheduledAt, ops, c)) <==> Unrepeated(channels)
  {
    if Unrepeated(channels) {
      forall ops, c ensures OrderlyAfter(channels, scheduledAt, ops, c) {
        DeliveriesAreOrderly(channels, scheduledAt, ops, c);
      }
    } else {
      var i, j :| 0 <= i < j < |channels| && channels[i] == channels[j] != IN_APP;
      var op := Dispatches({}, AllBut(j), scheduledAt);
      RepeatBreaksNumbering(channels, i, j, op.sends, scheduledAt);
      assert [op][1..] == [];
      assert Run(NewEvent(channels, scheduledAt), [op]) == Dispatch(NewEvent(channels, scheduledAt), {}, op.sends, scheduledAt);
      assert !OrderlyAfter(channels, scheduledAt, [op], channels[i]);
    }
  }

  // ── Status ──────────────────────────────────────────────────────────────────

  function AllBut(j: nat): nat -> bool { (i: nat) => i != j }

  lemma {:induction false} OneFailure(prior: seq<Delivery>, resolved: seq<string>, j: nat, now: int)
    ensures forall d :: d in NewRows(prior, resolved, AllBut(j), now) && d.status == Failed ==> j < |resolved| && d.channel == resolved[j]
    ensures FailedCount(prior, resolved, AllBut(j)) == if j < |resolved| && !Skipped(prior, resolved[j]) then 1 else 0
  {
    if resolved != [] { OneFailure(prior, resolved[..|resolved| - 1], j, now); }
  }

  /** Both sends on a channel listed twice, the later one alone failing: 'partial', with every channel reached. */
  lemma MixedSends(channels: seq<string>, i: nat, j: nat, t: int)
    requires i < j < |channels| && channels[i] == channels[j] != IN_APP
    ensures var e := Dispatch(NewEvent(channels, t), {}, AllBut(j), t);
      e.status == Partial && !AnyBlocked(e.deliveries) && forall c :: c in channels && c != IN_APP ==> HasStatus(e.deliveries, c, Sent)
  {
    var e := Dispatch(NewEvent(channels, t), {}, AllBut(j), t);
    AllResolved(channels);
    OneFailure([], channels, j, t);
    assert e.deliveries == NewRows([], channels, AllBut(j), t);
    forall c | c in channels && c != IN_APP ensures HasStatus(e.deliveries, c, Sent) {
      var k :| 0 <= k < |channels| && channels[k] == c && k != j;
      SendLeavesRow([], channels, AllBut(j), t, k);
    }
  }

  lemma {:induction false} NothingToRetry(e: Event, ops: seq<Op>)
    requires (e.status == Partial || e.status == Unsent) && !AnyBlocked(e.deliveries)
    requires forall i :: 0 <= i < |ops| ==> !ops[i].Resends?
    ensures Run(e, ops) == e
    decreases |ops|
  {
    if ops != [] { NothingToRetry(e, ops[1..]); }
  }

  /**
   * With a channel listed twice, a dispatch may mark the event 'partial' though it reached every channel,
   * and nothing but a resend ever changes that.
   */
  lemma RepeatMisreports(channels: seq<string>, i: nat, j: nat, t: int, later: seq<Op>)
    requires i < j < |channels| && channels[i] == channels[j] != IN_APP
    requires forall k :: 0 <= k < |later| ==> !later[k].Resends?
    ensures var e := Run(NewEvent(channels, t), [Dispatches({}, AllBut(j), t)] + later);
      && e.status == Partial && !Truthful(e)
      && forall c :: c in channels && c != IN_APP ==> HasStatus(e.deliveries, c, Sent)
  {
    MixedSends(channels, i, j, t);
    RunFirst(NewEvent(channels, t), Dispatches({}, AllBut(j), t), later);
    NothingToRetry(Dispatch(NewEvent(channels, t), {}, AllBut(j), t), later);
  }

  predicate TruthfulAfter(channels: seq<string>, scheduledAt: int, ops: seq<Op>) { Truthful(Run(NewEvent(channels, scheduledAt), ops)) }

  /**
   * 'partial' and 'failed' always mean a channel with a failure and no success, over every run and whatever
   * becomes of each send, if and only if no channel but the in-app feed is listed twice.
   */
  lemma TruthfulIffUnrepeated(channels: seq<string>, scheduledAt: int)
    ensures (forall ops :: TruthfulAfter(channels, scheduledAt, ops)) <==> Unrepeated(channels)
  {
    if Unrepeated(channels) {
      forall ops ensures TruthfulAfter(channels, scheduledAt, ops) {
        DeliveriesAreOrderly(channels, scheduledAt, ops, IN_APP);
      }
    } else {
      var i, j :| 0 <= i < j < |channels| && channels[i] == channels[j] != IN_APP;
      RepeatMisreports(channels, i, j, scheduledAt, []);
      assert !TruthfulAfter(channels, scheduledAt, [Dispatches({}, AllBut(j), scheduledAt)] + []);
    }
  }

  ghost predicate Reached(e: Event, resolved: seq<string>) {
    forall c :: c in resolved ==> c == IN_APP || HasStatus(e.deliveries, c, Sent)
  }

  /** 'sent' means that every channel dispatched to was reached; without repeats, exactly that. */
  lemma CompleteMeansReached(e: Event, disabled: set<string>, sends: nat -> bool, now: int)
    ensures var e' := Dispatch(e, disabled, sends, now);
      && (e'.status == Complete ==> Reached(e', Resolved(e.channels, disabled)))
      && (Unrepeated(e.channels) && Reached(e', Resolved(e.channels, disabled)) ==> e'.status == Complete)
  {
    var e', resolved := Dispatch(e, disabled, sends, now), Resolved(e.channels, disabled);
    if e'.status == Complete {
      forall c | c in resolved && c != IN_APP ensures HasStatus(e'.deliveries, c, Sent) {
        var i :| 0 <= i < |resolved| && resolved[i] == c;
        if FailsAt(e.deliveries, resolved, sends, i) { FailureCounts(e.deliveries, resolved, sends, i); }
        SentStays(e, disabled, sends, now, i);
      }
    } else if Unrepeated(e.channels) {
      var i := DispatchTries(e, disabled, sends, now);
      ResolvedUnrepeated(e.channels, disabled);
      UnrepeatedMentions(resolved, resolved[i]);
      FailureBlocks(e, disabled, sends, now, i);
    }
  }

  lemma SentStays(e: Event, disabled: set<string>, sends: nat -> bool, now: int, i: nat)
    requires i < |Resolved(e.channels, disabled)| && Resolved(e.channels, disabled)[i] != IN_APP
    requires !FailsAt(e.deliveries, Resolved(e.channels, disabled), sends, i)
    ensures HasStatus(Dispatch(e, disabled, sends, now).deliveries, Resolved(e.channels, disabled)[i], Sent)
  {
    var resolved := Resolved(e.channels, disabled);
    var c, more := resolved[i], NewRows(e.deliveries, resolved, sends, now);
    if HasStatus(e.deliveries, c, Sent) {
      var k :| 0 <= k < |e.deliveries| && e.deliveries[k].channel == c && e.deliveries[k].status == Sent;
      assert (e.deliveries + more)[k] == e.deliveries[k];
    } else {
      SendLeavesRow(e.deliveries, resolved, sends, now, i);
      var k :| 0 <= k < |more| && more[k] == NewRow(e.deliveries, c, true, now);
      assert (e.deliveries + more)[|e.deliveries| + k] == more[k];
    }
  }

  // ── What each call answers ──────────────────────────────────────────────────

  /** A place in the list is settled without a send or by one that goes through. */
  predicate Passes(prior: seq<Delivery>, resolved: seq<string>, sends: nat -> bool, i: nat)
    requires i < |resolved|
  {
    resolved[i] == "in_app" || (exists d :: d in prior && d.channel == resolved[i] && d.status == Sent) || sends(i)
  }

  lemma PassesIff(prior: seq<Delivery>, resolved: seq<string>, sends: nat -> bool, i: nat)
    requires i < |resolved|
    ensures FailsAt(prior, resolved, sends, i) <==> !Passes(prior, resolved, sends, i)
  {
    if d :| d in prior && d.channel == resolved[i] && d.status == Sent {
      var k :| 0 <= k < |prior| && prior[k] == d;
    }
  }

  lemma {:induction false} FailedCountIs(prior: seq<Delivery>, resolved: seq<string>, sends: nat -> bool)
    ensures FailedCount(prior, resolved, sends) <= |resolved|
    ensures FailedCount(prior, resolved, sends) == 0 <==> forall i :: 0 <= i < |resolved| ==> Passes(prior, resolved, sends, i)
    ensures FailedCount(prior, resolved, sends) == |resolved| <==> forall i :: 0 <= i < |resolved| ==> !Passes(prior, resolved, sends, i)
  {
    if resolved != [] {
      var n := |resolved| - 1;
      FailedCountIs(prior, resolved[..n], sends);
      PassesIff(prior, resolved, sends, n);
      assert forall i :: 0 <= i < n ==> (Passes(prior, resolved[..n], sends, i) <==> Passes(prior, resolved, sends, i));
    }
  }

  /** A dispatch ends 'sent' if every place passes, 'failed' if there are places and none does, and 'partial' in between. */
  lemma DispatchAnswers(e: Event, disabled: set<string>, sends: nat -> bool, now: int)
    ensures var resolved := Resolved(e.channels, disabled);
      var all := forall i :: 0 <= i < |resolved| ==> Passes(e.deliveries, resolved, sends, i);
      var none := forall i :: 0 <= i < |resolved| ==> !Passes(e.deliveries, resolved, sends, i);
      Dispatch(e, disabled, sends, now).status == if all then Complete else if none then Unsent else Partial
  {
    FailedCountIs(e.deliveries, Resolved(e.channels, disabled), sends);
  }

  /** An event is dispatched exactly when it is queued and its time has come, and is not queued afterwards. */
  lemma DispatchWaits(e: Event, disabled: set<string>, sends: nat -> bool, now: int)
    ensures var e' := Step(e, Dispatches(disabled, sends, now));
      if e.status == Queued && e.scheduledAt <= now then e' == Dispatch(e, disabled, sends, now) && e'.status != Queued else e' == e
  {
  }

  /** A channel with a failed delivery and none that got through. */
  ghost predicate Failing(ds: seq<Delivery>, c: string) {
    (exists d :: d in ds && d.channel == c && d.status == Failed) && forall d :: d in ds && d.channel == c ==> d.status != Sent
  }

  lemma FailingIff(ds: seq<Delivery>, c: string)
    ensures Blocked(ds, c) <==> Failing(ds, c)
  {
    if d :| d in ds && d.channel == c && d.status == Failed {
      var i :| 0 <= i < |ds| && ds[i] == d;
    }
    forall d | d in ds && d.channel == c && d.status == Sent ensures HasStatus(ds, c, Sent) {
      var i :| 0 <= i < |ds| && ds[i] == d;
    }
  }

  /**
   * The retry beat queues an event again, for now, if and only if it is partial or failed, some channel is
   * failing, no failing channel has reached its third attempt, and every delivery is over five minutes old.
   */
  lemma RetryAnswers(e: Event, now: int)
    ensures var again := (e.status == Partial || e.status == Unsent)
        && (exists c :: Failing(e.deliveries, c))
        && (forall d :: d in e.deliveries && Failing(e.deliveries, d.channel) ==> d.attempt < 3)
        && (forall d :: d in e.deliveries ==> d.sentAt < now - 300);
      Retry(e, now) == if again then Event(e.channels, Queued, now, e.deliveries) else e
  {
    forall c: string { FailingIff(e.deliveries, c); }
    if AnyBlocked(e.deliveries) {
      assert exists i :: 0 <= i < |e.deliveries| && Failing(e.deliveries, e.deliveries[i].channel);
      assert forall i :: 0 <= i < |e.deliveries| ==> e.deliveries[i] in e.deliveries;
    }
    if c :| Failing(e.deliveries, c) { BlockedSomewhere(e.deliveries, c); }
  }

  /** A resend queues any event that is not queued, for now. */
  lemma ResendAnswers(e: Event, now: int)
    ensures Resend(e, now) == if e.status == Queued then e else Event(e.channels, Queued, now, e.deliveries)
  {
  }

  // ── Attempt cap ─────────────────────────────────────────────────────────────

  /** No channel beyond 3 + r rows; a queued one not yet sent still has room for its next row. */
  ghost predicate Capped(e: Event, r: nat) {
    forall c :: && |RowsOf(e.deliveries, c)| <= MAX_ATTEMPTS + r
                && (e.status == Queued && !HasStatus(e.deliveries, c, Sent) ==> |RowsOf(e.deliveries, c)| < MAX_ATTEMPTS + r)
  }

  lemma RequeuedHasRoom(e: Event, now: int, c: string)
    requires EventInv(e) && Requeues(e, now) && !HasStatus(e.deliveries, c, Sent)
    ensures |RowsOf(e.deliveries, c)| < MAX_ATTEMPTS
  {
    var rows := RowsOf(e.deliveries, c);
    assert Orderly(rows);
    if rows != [] {
      var last := rows[|rows| - 1];
      RowsMember(e.deliveries, c, last);
      NotSentRows(e.deliveries, c);
      StatusInRows(e.deliveries, c, Failed);
      var i :| 0 <= i < |e.deliveries| && e.deliveries[i] == last;
      assert Blocked(e.deliveries, e.deliveries[i].channel);
    }
  }

  lemma CapStep(e: Event, op: Op, r: nat)
    requires EventInv(e) && Capped(e, r)
    ensures Capped(Step(e, op), r + if op.Resends? && e.status != Queued then 1 else 0)
  {
    var e' := Step(e, op);
    var r' := r + if op.Resends? && e.status != Queued then 1 else 0;
    forall c: string
      ensures && |RowsOf(e'.deliveries, c)| <= MAX_ATTEMPTS + r'
              && (e'.status == Queued && !HasStatus(e'.deliveries, c, Sent) ==> |RowsOf(e'.deliveries, c)| < MAX_ATTEMPTS + r')
    {
      match op
      case Dispatches(disabled, sends, now) =>
        if e' != e { var sent := DispatchRows(e, disabled, sends, now, c); }
      case Retries(now) =>
        if e' != e && !HasStatus(e.deliveries, c, Sent) { RequeuedHasRoom(e, now, c); }
      case Resends(now) =>
    }
  }

  lemma {:induction false} CapRun(e: Event, ops: seq<Op>, r: nat)
    requires EventInv(e) && Capped(e, r)
    ensures Capped(Run(e, ops), r + ResendCount(e, ops))
    decreases |ops|
  {
    if ops != [] {
      StepKeeps(e, ops[0]);
      CapStep(e, ops[0], r);
      CapRun(Step(e, ops[0]), ops[1..], r + if ops[0].Resends? && e.status != Queued then 1 else 0);
    }
  }

  lemma FreshEvent(channels: seq<string>, scheduledAt: int)
    requires Unrepeated(channels)
    ensures EventInv(NewEvent(channels, scheduledAt)) && Capped(NewEvent(channels, scheduledAt), 0)
  {
  }

  /** No channel ever gets more than three delivery rows plus one per resend. */
  lemma AttemptCap(channels: seq<string>, scheduledAt: int, ops: seq<Op>, c: string)
    requires Unrepeated(channels)
    ensures |RowsOf(Run(NewEvent(channels, scheduledAt), ops).deliveries, c)| <= 3 + ResendCount(NewEvent(channels, scheduledAt), ops)
  {
    FreshEvent(channels, scheduledAt);
    CapRun(NewEvent(channels, scheduledAt), ops, 0);
  }

  predicate CappedAfter(channels: seq<string>, scheduledAt: int, ops: seq<Op>, c: string) {
    |RowsOf(Run(NewEvent(channels, scheduledAt), ops).deliveries, c)| <= 3 + ResendCount(NewEvent(channels, scheduledAt), ops)
  }

  predicate Never(i: nat) { false }

  lemma {:induction false} FirstRowsFail(resolved: seq<string>, now: int)
    ensures forall d :: d in NewRows([], resolved, Never, now) ==> d.attempt == 1 && d.status == Failed && d.sentAt == now
  {
    if resolved != [] {
      FirstRowsFail(resolved[..|resolved| - 1], now);
      assert RowsOf([], resolved[|resolved| - 1]) == [];
    }
  }

  lemma FreshFailuresRequeue(e: Event, c: string, t: int)
    requires (e.status == Partial || e.status == Unsent) && Blocked(e.deliveries, c)
    requires forall d :: d in e.deliveries ==> d.attempt == 1 && d.sentAt == t
    ensures Requeues(e, t + BACKOFF_SECONDS + 1)
  {
    BlockedSomewhere(e.deliveries, c);
    assert forall i :: 0 <= i < |e.deliveries| ==> e.deliveries[i] in e.deliveries;
  }

  /** After a first dispatch in which everything fails, the retry beat queues the event again. */
  lemma FirstFailureIsRequeued(channels: seq<string>, c: string, t: int)
    requires c in channels && c != IN_APP
    ensures var e1 := Dispatch(NewEvent(channels, t), {}, Never, t); Requeues(e1, t + BACKOFF_SECONDS + 1) && !HasStatus(e1.deliveries, c, Sent)
  {
    var e1 := Dispatch(NewEvent(channels, t), {}, Never, t);
    var i :| 0 <= i < |channels| && channels[i] == c;
    AllResolved(channels);
    FailureCounts([], channels, Never, i);
    FirstRowsFail(channels, t);
    SendLeavesRow([], channels, Never, t, i);
    assert e1.deliveries == NewRows([], channels, Never, t);
    FreshFailuresRequeue(e1, c, t);
  }

  lemma RunFirst(e: Event, op: Op, rest: seq<Op>)
    requires !op.Resends?
    ensures Run(e, [op] + rest) == Run(Step(e, op), rest) && ResendCount(e, [op] + rest) == ResendCount(Step(e, op), rest)
  {
    assert ([op] + rest)[1..] == rest;
  }

  lemma RunThree(e: Event, x: Op, y: Op, z: Op)
    requires !x.Resends? && !y.Resends? && !z.Resends?
    ensures Run(e, [x, y, z]) == Step(Step(Step(e, x), y), z) && ResendCount(e, [x, y, z]) == 0
  {
    RunFirst(e, x, [y, z]);
    RunFirst(Step(e, x), y, [z]);
    RunFirst(Step(Step(e, x), y), z, []);
    assert [x, y, z] == [x] + [y, z] && [y, z] == [y] + [z] && [z] == [z] + [];
  }

  lemma FailingDispatchRows(e: Event, c: string, t: int)
    requires e.status == Queued && e.scheduledAt == t && c != IN_APP && !HasStatus(e.deliveries, c, Sent)
    ensures Step(e, Dispatches({}, Never, t)) == Dispatch(e, {}, Never, t)
    ensures |RowsOf(Dispatch(e, {}, Never, t).deliveries, c)| == |RowsOf(e.deliveries, c)| + Mentions(e.channels, c)
  {
    AllResolved(e.channels);
    DispatchAdds(e, {}, Never, t, c);
  }

  /** Two dispatches in which everything fails give a channel two rows for each time it is listed. */
  lemma TwoFailingDispatches(channels: seq<string>, c: string, t: int, later: int, e1: Event, e2: Event)
    requires c in channels && c != IN_APP && later == t + BACKOFF_SECONDS + 1
    requires e1 == Step(NewEvent(channels, t), Dispatches({}, Never, t)) && e2 == Step(e1, Retries(later))
    ensures |RowsOf(Step(e2, Dispatches({}, Never, later)).deliveries, c)| == 2 * Mentions(channels, c)
  {
    FailingDispatchRows(NewEvent(channels, t), c, t);
    FirstFailureIsRequeued(channels, c, t);
    FailingDispatchRows(e2, c, later);
    assert RowsOf([], c) == [];
  }

  /** With a channel listed twice, two dispatches and one retry already give it four rows. */
  lemma RepeatBreaksCap(channels: seq<string>, i: nat, j: nat, t: int) returns (ops: seq<Op>)
    requires i < j < |channels| && channels[i] == channels[j] != IN_APP
    ensures !CappedAfter(channels, t, ops, channels[i])
  {
    var later := t + BACKOFF_SECONDS + 1;
    ops := [Dispatches({}, Never, t), Retries(later), Dispatches({}, Never, later)];
    var e1 := Step(NewEvent(channels, t), ops[0]);
    MentionedTwice(channels, channels[i], i, j);
    TwoFailingDispatches(channels, channels[i], t, later, e1, Step(e1, ops[1]));
    RunThree(NewEvent(channels, t), ops[0], ops[1], ops[2]);
  }

  /** The cap of three rows plus one per resend holds, for every channel and over every run, if and only if no channel but the in-app feed is listed twice. */
  lemma CapIffUnrepeated(channels: seq<string>, scheduledAt: int)
    ensures (forall ops, c :: CappedAfter(channels, scheduledAt, ops, c)) <==> Unrepeated(channels)
  {
    if Unrepeated(channels) {
      forall ops, c ensures CappedAfter(channels, scheduledAt, ops, c) { AttemptCap(channels, scheduledAt, ops, c); }
    } else {
      var i, j :| 0 <= i < j < |channels| && channels[i] == channels[j] != IN_APP;
      var ops := RepeatBreaksCap(channels, i, j, scheduledAt);
    }
  }

  // ── Termination ─────────────────────────────────────────────────────────────

  /** The highest attempt number among the rows of a channel. */
  function Highest(ds: seq<Delivery>, c: string): int {
    if ds == [] then 0
    else
      var rest := Highest(ds[..|ds| - 1], c);
      if ds[|ds| - 1].channel == c then Max(rest, ds[|ds| - 1].attempt) else rest
  }

  lemma {:induction false} HighestNonNegative(ds: seq<Delivery>, c: string)
    ensures Highest(ds, c) >= 0
  {
    if ds != [] { HighestNonNegative(ds[..|ds| - 1], c); }
  }

  lemma {:induction false} HighestConcat(ds: seq<Delivery>, more: seq<Delivery>, c: string)
    ensures Highest(ds + more, c) == Max(Highest(ds, c), Highest(more, c))
  {
    if more == [] {
      assert ds + more == ds;
      HighestNonNegative(ds, c);
    } else {
      assert (ds + more)[..|ds + more| - 1] == ds + more[..|more| - 1];
      HighestConcat(ds, more[..|more| - 1], c);
    }
  }

  lemma {:induction false} HighestBelow(ds: seq<Delivery>, c: string, bound: int)
    requires bound > 0 && forall i :: 0 <= i < |ds| && ds[i].channel == c ==> ds[i].attempt < bound
    ensures Highest(ds, c) < bound
  {
    if ds != [] { HighestBelow(ds[..|ds| - 1], c, bound); }
  }

  /** A dispatch numbers a channel's new rows one above the rows it had. */
  lemma {:induction false} HighestNew(prior: seq<Delivery>, resolved: seq<string>, sends: nat -> bool, now: int, c: string)
    ensures Highest(NewRows(prior, resolved, sends, now), c)
         == if Skipped(prior, c) || Mentions(resolved, c) == 0 then 0 else |RowsOf(prior, c)| + 1
  {
    if resolved != [] {
      var rest, x := resolved[..|resolved| - 1], resolved[|resolved| - 1];
      var last := if Skipped(prior, x) then [] else [NewRow(prior, x, sends(|rest|), now)];
      HighestNew(prior, rest, sends, now, c);
      HighestConcat(NewRows(prior, rest, sends, now), last, c);
      assert Highest([], c) == 0;
      assert Highest(last, c) == if x == c && !Skipped(prior, x) then |RowsOf(prior, x)| + 1 else 0;
    }
  }

  function RoomAbove(c: string, highest: int): int { if c == IN_APP then 0 else Max(0, MAX_ATTEMPTS - highest) }

  /** Attempts still allowed on a channel. */
  function Room(ds: seq<Delivery>): string -> int { (c: string) => RoomAbove(c, Highest(ds, c)) }

  function Rank(status: Status): int {
    match status
    case Complete => 0
    case Queued => 1
    case Partial => 2
    case Unsent => 2
  }

  /** Attempts still allowed, counted twice, plus the distance of the status from 'sent'. */
  function Measure(e: Event): int { 2 * SumBy(e.channels, Room(e.deliveries)) + Rank(e.status) }

  /** Attempt numbers never outrun the rows, and a queued channel not yet sent may be tried again. */
  ghost predicate CycleInv(e: Event) {
    forall c :: && Highest(e.deliveries, c) <= |RowsOf(e.deliveries, c)|
                && (e.status == Queued && !HasStatus(e.deliveries, c, Sent) ==> Highest(e.deliveries, c) < MAX_ATTEMPTS)
  }

  /** A dispatch raises the highest attempt of each channel it writes to, and lowers none. */
  lemma DispatchHighest(e: Event, disabled: set<string>, sends: nat -> bool, now: int, c: string, after: seq<Delivery>)
    requires Highest(e.deliveries, c) <= |RowsOf(e.deliveries, c)| && after == Dispatch(e, disabled, sends, now).deliveries
    ensures Highest(e.deliveries, c) <= Highest(after, c) <= |RowsOf(after, c)|
    ensures !Skipped(e.deliveries, c) && Mentions(Resolved(e.channels, disabled), c) >= 1 ==> Highest(e.deliveries, c) < Highest(after, c)
  {
    var resolved := Resolved(e.channels, disabled);
    DispatchAdds(e, disabled, sends, now, c);
    HighestConcat(e.deliveries, NewRows(e.deliveries, resolved, sends, now), c);
    HighestNew(e.deliveries, resolved, sends, now, c);
    HighestNonNegative(e.deliveries, c);
  }

  lemma RoomShrinks(e: Event, disabled: set<string>, sends: nat -> bool, now: int, c: string, after: seq<Delivery>)
    requires CycleInv(e) && e.status == Queued && after == Dispatch(e, disabled, sends, now).deliveries
    ensures Room(after)(c) <= Room(e.deliveries)(c)
    ensures c != IN_APP && !HasStatus(e.deliveries, c, Sent) && Mentions(Resolved(e.channels, disabled), c) >= 1
            ==> Room(after)(c) < Room(e.deliveries)(c)
  {
    DispatchHighest(e, disabled, sends, now, c, after);
  }

  lemma DispatchShrinks(e: Event, disabled: set<string>, sends: nat -> bool, now: int)
    requires CycleInv(e) && e.status == Queued
    ensures Measure(Dispatch(e, disabled, sends, now)) < Measure(e)
  {
    var after := Dispatch(e, disabled, sends, now).deliveries;
    forall c | c in e.channels ensures Room(after)(c) <= Room(e.deliveries)(c) { RoomShrinks(e, disabled, sends, now, c, after); }
    if Dispatch(e, disabled, sends, now).status != Complete {
      var i := DispatchTries(e, disabled, sends, now);
      var c := Resolved(e.channels, disabled)[i];
      RoomShrinks(e, disabled, sends, now, c, after);
      assert c in e.channels && Room(after)(c) < Room(e.deliveries)(c);
    }
    SumMonotone(e.channels, Room(after), Room(e.deliveries));
  }

  lemma RequeuedMayTry(e: Event, now: int, c: string)
    requires Requeues(e, now) && !HasStatus(e.deliveries, c, Sent)
    ensures Highest(e.deliveries, c) < MAX_ATTEMPTS
  {
    forall i | 0 <= i < |e.deliveries| && e.deliveries[i].channel == c ensures e.deliveries[i].attempt < MAX_ATTEMPTS {
      assert Blocked(e.deliveries, e.deliveries[i].channel);
    }
    HighestBelow(e.deliveries, c, MAX_ATTEMPTS);
  }

  lemma CycleStep(e: Event, op: Op)
    requires CycleInv(e) && !op.Resends?
    ensures CycleInv(Step(e, op)) && Step(e, op).channels == e.channels
  {
    var e' := Step(e, op);
    if e' != e {
      forall c: string
        ensures && Highest(e'.deliveries, c) <= |RowsOf(e'.deliveries, c)|
                && (e'.status == Queued && !HasStatus(e'.deliveries, c, Sent) ==> Highest(e'.deliveries, c) < MAX_ATTEMPTS)
      {
        match op
        case Dispatches(disabled, sends, now) => DispatchHighest(e, disabled, sends, now, c, e'.deliveries);
        case Retries(now) => if !HasStatus(e.deliveries, c, Sent) { RequeuedMayTry(e, now, c); }
      }
    }
  }

  lemma StepShrinks(e: Event, op: Op)
    requires CycleInv(e) && !op.Resends? && Step(e, op) != e
    ensures Measure(Step(e, op)) < Measure(e)
  {
    if op.Dispatches? {
      DispatchShrinks(e, op.disabled, op.sends, op.now);
    }
  }

  /** Dispatches and requeues that changed the event. */
  function Changes(e: Event, ops: seq<Op>): nat
    decreases |ops|
  {
    if ops == [] then 0 else (if Step(e, ops[0]) != e then 1 else 0) + Changes(Step(e, ops[0]), ops[1..])
  }

  lemma {:induction false} RunShrinks(e: Event, ops: seq<Op>)
    requires CycleInv(e) && forall i :: 0 <= i < |ops| ==> !ops[i].Resends?
    ensures Changes(e, ops) <= Measure(e)
    decreases |ops|
  {
    if ops != [] {
      CycleStep(e, ops[0]);
      RunShrinks(Step(e, ops[0]), ops[1..]);
      if Step(e, ops[0]) != e { StepShrinks(e, ops[0]); }
    } else {
      SumNonNegative(e.channels, Room(e.deliveries));
    }
  }

  lemma FreshCycle(channels: seq<string>, scheduledAt: int)
    ensures CycleInv(NewEvent(channels, scheduledAt)) && Measure(NewEvent(channels, scheduledAt)) <= 2 * MAX_ATTEMPTS * |channels| + 1
  {
    SumBounded(channels, Room([]), MAX_ATTEMPTS);
  }

  /** Without resends the dispatch/retry cycle stops, whatever the channels, whatever becomes of each send and however often preferences change. */
  lemma CycleTerminates(channels: seq<string>, scheduledAt: int, ops: seq<Op>)
    requires forall i :: 0 <= i < |ops| ==> !ops[i].Resends?
    ensures Changes(NewEvent(channels, scheduledAt), ops) <= 6 * |channels| + 1
  {
    FreshCycle(channels, scheduledAt);
    RunShrinks(NewEvent(channels, scheduledAt), ops);
  }

  // ── The dispatcher and the beat ─────────────────────────────────────────────

  class NotificationEvent {
    const channels: seq<string>
    var status: Status
    var scheduledAt: int
    var deliveries: seq<Delivery>

    function State(): Event
      reads this
    {
      Event(channels, status, scheduledAt, deliveries)
    }

    constructor (channels: seq<string>, scheduledAt: int)
      ensures State() == NewEvent(channels, scheduledAt)
    {
      this.channels, this.status, this.scheduledAt, this.deliveries := channels, Queued, scheduledAt, [];
    }

    /** `dispatch_event`: prior rows are read once, before the loop over the resolved channels. */
    method DispatchEvent(disabled: set<string>, sends: nat -> bool, now: int) returns (r: Status)
      modifies this
      ensures State() == Dispatch(old(State()), disabled, sends, now) && r == status
    {
      var resolved := Resolved(channels, disabled);
      var rows, ok, failed := SendAll(deliveries, resolved, sends, now);
      deliveries := deliveries + rows;
      status := if failed == 0 then Complete else if ok > 0 then Partial else Unsent;
      return status;
    }

    /** One claimed event of the retry beat. */
    method RetryEvent(now: int) returns (again: bool)
      modifies this
      ensures State() == Retry(old(State()), now)
      ensures again <==> old(Requeues(State(), now))
    {
      again := false;
      if (status == Partial || status == Unsent) && AnyBlocked(deliveries) && !Exhausted(deliveries) {
        if Latest(deliveries) < now - BACKOFF_SECONDS {
          status, scheduledAt := Queued, now;
          again := true;
        }
      }
    }

    method ResendEvent(now: int) returns (accepted: bool)
      modifies this
      ensures State() == Resend(old(State()), now)
      ensures accepted <==> old(status) != Queued
    {
      if status == Queued {
        return false;
      }
      status, scheduledAt := Queued, now;
      return true;
    }
  }

  /** The loop over the resolved channels, with its two counters. */
  method SendAll(prior: seq<Delivery>, resolved: seq<string>, sends: nat -> bool, now: int)
    returns (rows: seq<Delivery>, ok: int, failed: int)
    ensures rows == NewRows(prior, resolved, sends, now)
    ensures failed == FailedCount(prior, resolved, sends) && ok + failed == |resolved| && failed >= 0
  {
    ok, failed, rows := 0, 0, [];
    for i := 0 to |resolved|
      invariant rows == NewRows(prior, resolved[..i], sends, now)
      invariant failed == FailedCount(prior, resolved[..i], sends) && ok + failed == i && failed >= 0
    {
      var c := resolved[i];
      assert resolved[..i + 1][..i] == resolved[..i];
      if c == IN_APP || HasStatus(prior, c, Sent) {
        ok := ok + 1;
      } else {
        var row := Delivery(c, |RowsOf(prior, c)| + 1, if sends(i) then Sent else Failed, now);
        rows := rows + [row];
        if row.status == Sent {
          ok := ok + 1;
        } else {
          failed := failed + 1;
        }
      }
    }
    assert resolved[..|resolved|] == resolved;
  }

  function Requeued(now: int): Event -> int { (e: Event) => if Requeues(e, now) then 1 else 0 }

  function Retried(now: int): Event -> Event { (e: Event) => Retry(e, now) }

  /** `_retry_for_schema`: each failed or partial event is requeued or left alone, once; the count is of those requeued. */
  method RetryForSchema(events: seq<NotificationEvent>, ghost before: seq<Event>, now: int) returns (requeued: int)
    requires forall i, j :: 0 <= i < j < |events| ==> events[i] != events[j]
    requires |before| == |events| && forall i :: 0 <= i < |events| ==> events[i].State() == before[i]
    modifies events
    ensures forall i :: 0 <= i < |events| ==> events[i].State() == Retried(now)(before[i])
    ensures requeued == SumBy(before, Requeued(now))
  {
    requeued := 0;
    for n := 0 to |events|
      invariant requeued == SumBy(before[..n], Requeued(now))
      invariant forall i :: 0 <= i < n ==> events[i].State() == Retried(now)(before[i])
      invariant forall i :: n <= i < |events| ==> events[i].State() == before[i]
    {
      var again := events[n].RetryEvent(now);
      assert before[..n + 1] == before[..n] + [before[n]];
      SumAppend(before[..n], before[n], Requeued(now));
      requeued := requeued + if again then 1 else 0;
    }
    assert before[..|events|] == before;
  }
}
