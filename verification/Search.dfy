/** Search index kept by a watermark: reconcile and delete-sweep interleaved with source writes. */
module Search {
  import opened Text

  /** Tenant schemas match `tenant_[a-z0-9_]+`, so they are never empty. */
  type Schema = s: string | s != "" witness "tenant_a"

  datatype Scope = Platform | Tenant(schema: Schema)

  datatype Ref = Ref(scope: Scope, id: Uuid)

  datatype Row = Row(stamp: int, content: string)

  /** `scope` is the document's tenant_schema field. */
  datatype Doc = Doc(scope: Scope, content: string)

  function DocId(r: Ref): string {
    match r.scope
    case Platform => r.id
    case Tenant(schema) => schema + ":" + r.id
  }

  /** Documents of different records never share an id, within a tenant or across tenants. */
  lemma DocIdInjective(a: Ref, b: Ref)
    requires DocId(a) == DocId(b)
    ensures a == b
  {
    var s := DocId(a);
    assert s[|s| - 36..] == a.id && s[|s| - 36..] == b.id;
    if a.scope.Tenant? && b.scope.Tenant? {
      assert s[..|s| - 37] == a.scope.schema && s[..|s| - 37] == b.scope.schema;
    }
  }

  function DocOf(scope: Scope, row: Row): Doc { Doc(scope, row.content) }

  // ── Watermark ───────────────────────────────────────────────────────────────

  /** One run of `_reconcile_entity` in flight: what it read, and which documents ES has taken so far. */
  datatype Batch = Batch(mark: int, rows: map<Uuid, Row>, indexed: set<Uuid>)

  /** Highest stamp among the rows, or the current mark when there are none. */
  ghost function NextWatermark(rows: map<Uuid, Row>, current: int): (m: int)
    ensures rows == map[] ==> m == current
    ensures rows != map[] ==> exists id :: id in rows && rows[id].stamp == m
    ensures forall id :: id in rows ==> rows[id].stamp <= m
    decreases |rows|
  {
    if rows == map[] then current
    else
      var id :| id in rows;
      var rest := rows - {id};
      assert rows.Keys == rest.Keys + {id};
      var m := NextWatermark(rest, rows[id].stamp);
      if m >= rows[id].stamp then m else rows[id].stamp
  }

  /** A sweep in flight: after its read of ES, then after its read of the source. */
  datatype Sweep = EsRead(ids: set<string>) | SourceRead(orphans: set<string>)

  function OrphanIds(esIds: set<string>, sourceIds: set<string>): set<string> { esIds - sourceIds }

  datatype World = World(source: map<Ref, Row>, used: set<Ref>, clock: int,
                         index: map<string, Doc>, marks: map<Scope, int>,
                         batches: map<Scope, Batch>, sweeps: map<Scope, Sweep>)

  /** Stamps are microseconds since the epoch; the first run starts from it. */
  const EPOCH := 0

  const NEW_WORLD: World := World(map[], {}, EPOCH, map[], map[], map[], map[])

  function Mark(w: World, scope: Scope): int { if scope in w.marks then w.marks[scope] else EPOCH }

  function RowsSince(source: map<Ref, Row>, scope: Scope, mark: int): map<Uuid, Row> {
    map r | r in source && r.scope == scope && source[r].stamp >= mark :: r.id := source[r]
  }

  function EsIds(index: map<string, Doc>, scope: Scope): set<string> { set k | k in index && index[k].scope == scope }

  function SourceIds(source: map<Ref, Row>, scope: Scope): set<string> { set r | r in source && r.scope == scope :: DocId(r) }

  // ── Steps ───────────────────────────────────────────────────────────────────

  datatype Op =
    | Inserts(r: Ref, content: string, stamp: int)
    | Updates(r: Ref, content: string, stamp: int)
    | Deletes(r: Ref)
    | Begins(scope: Scope)
    | Indexes(scope: Scope, id: Uuid)
    | Fails(scope: Scope)
    | Finishes(scope: Scope)
    | SweepReadsEs(scope: Scope)
    | SweepReadsSource(scope: Scope)
    | SweepDeletes(scope: Scope, key: string)
    | SweepEnds(scope: Scope)

  /** Record ids are fresh UUIDs, stamps never run backwards, and a scope has one reconcile at a time. */
  predicate Enabled(w: World, op: Op) {
    match op
    case Inserts(r, _, stamp) => r !in w.used && stamp >= w.clock
    case Updates(r, _, stamp) => r in w.source && stamp >= w.clock
    case Deletes(r) => r in w.source
    case Begins(scope) => scope !in w.batches && RowsSince(w.source, scope, Mark(w, scope)) != map[]
    case Indexes(scope, id) => scope in w.batches && id in w.batches[scope].rows
    case Fails(scope) => scope in w.batches
    case Finishes(scope) => scope in w.batches && w.batches[scope].indexed == w.batches[scope].rows.Keys
    case SweepReadsEs(scope) => scope !in w.sweeps
    case SweepReadsSource(scope) => scope in w.sweeps && w.sweeps[scope].EsRead?
    case SweepDeletes(scope, key) => scope in w.sweeps && w.sweeps[scope].SourceRead? && key in w.sweeps[scope].orphans
    case SweepEnds(scope) => scope in w.sweeps
  }

  ghost function Step(w: World, op: Op): World {
    if !Enabled(w, op) then w
    else match op
      case Inserts(r, content, stamp) => w.(source := w.source[r := Row(stamp, content)], used := w.used + {r}, clock := stamp)
      case Updates(r, content, stamp) => w.(source := w.source[r := Row(stamp, content)], clock := stamp)
      case Deletes(r) => w.(source := w.source - {r})
      case Begins(scope) => w.(batches := w.batches[scope := Batch(Mark(w, scope), RowsSince(w.source, scope, Mark(w, scope)), {})])
      case Indexes(scope, id) =>
        var b := w.batches[scope];
        w.(index := w.index[DocId(Ref(scope, id)) := DocOf(scope, b.rows[id])],
           batches := w.batches[scope := b.(indexed := b.indexed + {id})])
      case Fails(scope) => w.(batches := w.batches - {scope})
      case Finishes(scope) =>
        var b := w.batches[scope];
        w.(marks := w.marks[scope := NextWatermark(b.rows, b.mark)], batches := w.batches - {scope})
      case SweepReadsEs(scope) => w.(sweeps := w.sweeps[scope := EsRead(EsIds(w.index, scope))])
      case SweepReadsSource(scope) =>
        w.(sweeps := w.sweeps[scope := SourceRead(OrphanIds(w.sweeps[scope].ids, SourceIds(w.source, scope)))])
      case SweepDeletes(scope, key) => w.(index := w.index - {key})
      case SweepEnds(scope) => w.(sweeps := w.sweeps - {scope})
  }

  ghost function Run(w: World, ops: seq<Op>): World
    decreases |ops|
  {
    if ops == [] then w else Run(Step(w, ops[0]), ops[1..])
  }

  // ── Invariant ───────────────────────────────────────────────────────────────

  /** The record's document holds its scope and its content as they are now. */
  predicate Current(w: World, r: Ref)
    requires r in w.source
  {
    DocId(r) in w.index && w.index[DocId(r)] == Doc(r.scope, w.source[r].content)
  }

  /** What the watermark promises: everything live below it is indexed as it is now. */
  ghost predicate BelowMarkIndexed(w: World) {
    forall r :: r in w.source && w.source[r].stamp < Mark(w, r.scope) ==> Current(w, r)
  }

  ghost predicate SourceGood(w: World) {
    && (forall r :: r in w.source ==> r in w.used && EPOCH <= w.source[r].stamp <= w.clock)
    && (forall scope :: scope in w.marks ==> EPOCH <= w.marks[scope] <= w.clock)
    && EPOCH <= w.clock
  }

  ghost predicate IndexGood(w: World) {
    forall k :: k in w.index ==> exists r :: r in w.used && k == DocId(r) && w.index[k].scope == r.scope
  }

  /** What was read is still what is there, or has been written again at or past the batch's last stamp. */
  predicate ReadGood(w: World, scope: Scope, b: Batch, r: Ref)
    requires r in w.source && r.scope == scope
  {
    && (w.source[r].stamp < b.mark || (r.id in b.rows && b.rows[r.id] == w.source[r])
        || (forall id :: id in b.rows ==> b.rows[id].stamp <= w.source[r].stamp))
    && (r.id in b.rows ==> b.rows[r.id].stamp <= w.source[r].stamp)
    && (r.id in b.indexed && r.id in b.rows ==> DocId(r) in w.index && w.index[DocId(r)] == Doc(scope, b.rows[r.id].content))
  }

  ghost predicate BatchGood(w: World, scope: Scope, b: Batch) {
    && b.mark == Mark(w, scope) && b.rows != map[] && b.indexed <= b.rows.Keys
    && (forall id :: id in b.rows ==> Ref(scope, id) in w.used && b.mark <= b.rows[id].stamp <= w.clock)
    && (forall r :: r in w.source && r.scope == scope ==> ReadGood(w, scope, b, r))
  }

  ghost predicate BatchesGood(w: World) { forall scope :: scope in w.batches ==> BatchGood(w, scope, w.batches[scope]) }

  /** Ids a sweep holds belong to records of its scope; orphans belong to records gone for good. */
  ghost predicate SweepGood(w: World, scope: Scope, s: Sweep) {
    match s
    case EsRead(ids) => forall k :: k in ids ==> exists r :: r in w.used && r.scope == scope && k == DocId(r)
    case SourceRead(orphans) => forall k :: k in orphans ==> exists r :: r in w.used && r !in w.source && r.scope == scope && k == DocId(r)
  }

  ghost predicate SweepsGood(w: World) { forall scope :: scope in w.sweeps ==> SweepGood(w, scope, w.sweeps[scope]) }

  ghost predicate Inv(w: World) { SourceGood(w) && IndexGood(w) && BatchesGood(w) && SweepsGood(w) && BelowMarkIndexed(w) }

  // ── Frames ──────────────────────────────────────────────────────────────────

  /** The two worlds have the same source, and the second keeps every live document of the first. */
  ghost predicate SameLive(w: World, w': World) {
    && w'.source == w.source && w'.used == w.used && w'.clock == w.clock
    && forall r :: r in w.source && DocId(r) in w.index ==> DocId(r) in w'.index && w'.index[DocId(r)] == w.index[DocId(r)]
  }

  lemma BatchFrame(w: World, w': World, scope: Scope, b: Batch)
    requires SameLive(w, w') && BatchGood(w, scope, b) && Mark(w', scope) == Mark(w, scope)
    ensures BatchGood(w', scope, b)
  {
    forall r | r in w'.source && r.scope == scope ensures ReadGood(w', scope, b, r) { assert ReadGood(w, scope, b, r); }
  }

  lemma SweepsFrame(w: World, w': World)
    requires SweepsGood(w) && w'.source == w.source && w'.used == w.used && w'.sweeps == w.sweeps
    ensures SweepsGood(w')
  {
    forall x | x in w'.sweeps ensures SweepGood(w', x, w'.sweeps[x]) { assert SweepGood(w, x, w.sweeps[x]); }
  }

  lemma MarkFrame(w: World, w': World)
    requires SameLive(w, w') && BelowMarkIndexed(w) && w'.marks == w.marks
    ensures BelowMarkIndexed(w')
  {
    forall r | r in w'.source && w'.source[r].stamp < Mark(w', r.scope) ensures Current(w', r) { assert Current(w, r); }
  }

  // ── Source writes ───────────────────────────────────────────────────────────

  lemma WriteKeeps(w: World, r: Ref, row: Row)
    requires Inv(w) && row.stamp >= w.clock && (r in w.source || r !in w.used)
    ensures Inv(w.(source := w.source[r := row], used := w.used + {r}, clock := row.stamp))
  {
    var w' := w.(source := w.source[r := row], used := w.used + {r}, clock := row.stamp);
    forall scope | scope in w'.batches ensures BatchGood(w', scope, w'.batches[scope]) {
      var b := w.batches[scope];
      assert BatchGood(w, scope, b);
      forall x | x in w'.source && x.scope == scope ensures ReadGood(w', scope, b, x) {
        if x != r { assert ReadGood(w, scope, b, x); }
      }
    }
    forall scope | scope in w'.sweeps ensures SweepGood(w', scope, w'.sweeps[scope]) {
      assert SweepGood(w, scope, w.sweeps[scope]);
    }
    forall x | x in w'.source && w'.source[x].stamp < Mark(w', x.scope) ensures Current(w', x) {
      assert x != r;
      assert Current(w, x);
    }
  }

  lemma DeleteKeeps(w: World, r: Ref)
    requires Inv(w)
    ensures Inv(w.(source := w.source - {r}))
  {
    var w' := w.(source := w.source - {r});
    forall scope | scope in w'.batches ensures BatchGood(w', scope, w'.batches[scope]) {
      assert BatchGood(w, scope, w.batches[scope]);
      forall x | x in w'.source && x.scope == scope ensures ReadGood(w', scope, w.batches[scope], x) {
        assert ReadGood(w, scope, w.batches[scope], x);
      }
    }
    forall scope | scope in w'.sweeps ensures SweepGood(w', scope, w'.sweeps[scope]) {
      assert SweepGood(w, scope, w.sweeps[scope]);
    }
    forall x | x in w'.source && w'.source[x].stamp < Mark(w', x.scope) ensures Current(w', x) {
      assert Current(w, x);
    }
  }

  // ── Reconcile ───────────────────────────────────────────────────────────────

  lemma FreshBatchGood(w: World, w': World, scope: Scope)
    requires SourceGood(w) && SameLive(w, w') && w'.marks == w.marks && RowsSince(w.source, scope, Mark(w, scope)) != map[]
    ensures BatchGood(w', scope, Batch(Mark(w, scope), RowsSince(w.source, scope, Mark(w, scope)), {}))
  {
    var b := Batch(Mark(w, scope), RowsSince(w.source, scope, Mark(w, scope)), {});
    forall r | r in w'.source && r.scope == scope ensures ReadGood(w', scope, b, r) {
      assert r == Ref(scope, r.id);
    }
  }

  lemma BeginKeeps(w: World, scope: Scope)
    requires Inv(w) && Enabled(w, Begins(scope))
    ensures Inv(Step(w, Begins(scope)))
  {
    var w' := Step(w, Begins(scope));
    forall x | x in w'.batches ensures BatchGood(w', x, w'.batches[x]) {
      if x != scope { BatchFrame(w, w', x, w.batches[x]); } else { FreshBatchGood(w, w', scope); }
    }
    SweepsFrame(w, w');
    MarkFrame(w, w');
  }

  /** Indexing a row the batch read changes that one document and no other. */
  lemma IndexTouchesOne(w: World, scope: Scope, id: Uuid, r: Ref)
    requires Enabled(w, Indexes(scope, id)) && r != Ref(scope, id)
    ensures var w' := Step(w, Indexes(scope, id));
      && (DocId(r) in w'.index <==> DocId(r) in w.index)
      && (DocId(r) in w.index ==> w'.index[DocId(r)] == w.index[DocId(r)])
  {
    if DocId(r) == DocId(Ref(scope, id)) { DocIdInjective(r, Ref(scope, id)); }
  }

  lemma IndexKeepsRead(w: World, scope: Scope, id: Uuid, r: Ref)
    requires Enabled(w, Indexes(scope, id)) && r in w.source && r.scope in w.batches && ReadGood(w, r.scope, w.batches[r.scope], r)
    ensures var w' := Step(w, Indexes(scope, id)); ReadGood(w', r.scope, w'.batches[r.scope], r)
  {
    if r != Ref(scope, id) { IndexTouchesOne(w, scope, id, r); }
  }

  lemma IndexKeepsBatch(w: World, scope: Scope, id: Uuid, x: Scope)
    requires BatchesGood(w) && Enabled(w, Indexes(scope, id)) && x in w.batches
    ensures var w' := Step(w, Indexes(scope, id)); BatchGood(w', x, w'.batches[x])
  {
    var w' := Step(w, Indexes(scope, id));
    assert BatchGood(w, x, w.batches[x]);
    forall r | r in w.source && r.scope == x ensures ReadGood(w', x, w'.batches[x], r) {
      assert ReadGood(w, x, w.batches[x], r);
      IndexKeepsRead(w, scope, id, r);
    }
  }

  lemma IndexKeepsMark(w: World, scope: Scope, id: Uuid, r: Ref)
    requires Inv(w) && Enabled(w, Indexes(scope, id)) && r in w.source && w.source[r].stamp < Mark(w, r.scope)
    ensures Current(Step(w, Indexes(scope, id)), r)
  {
    assert Current(w, r);
    var b := w.batches[scope];
    assert BatchGood(w, scope, b);
    assert r.scope == scope ==> ReadGood(w, scope, b, r);
    if r != Ref(scope, id) { IndexTouchesOne(w, scope, id, r); }
  }

  lemma IndexKeeps(w: World, scope: Scope, id: Uuid)
    requires Inv(w) && Enabled(w, Indexes(scope, id))
    ensures Inv(Step(w, Indexes(scope, id)))
  {
    var w' := Step(w, Indexes(scope, id));
    forall x | x in w'.batches ensures BatchGood(w', x, w'.batches[x]) { IndexKeepsBatch(w, scope, id, x); }
    forall r | r in w'.source && w'.source[r].stamp < Mark(w', r.scope) ensures Current(w', r) { IndexKeepsMark(w, scope, id, r); }
    forall x | x in w'.sweeps ensures SweepGood(w', x, w'.sweeps[x]) { assert SweepGood(w, x, w.sweeps[x]); }
    assert BatchGood(w, scope, w.batches[scope]);
    forall k | k in w'.index ensures exists r :: r in w'.used && k == DocId(r) && w'.index[k].scope == r.scope {
      if k == DocId(Ref(scope, id)) { assert Ref(scope, id) in w'.used; }
    }
  }

  lemma FailKeeps(w: World, scope: Scope)
    requires Inv(w)
    ensures Inv(w.(batches := w.batches - {scope}))
  {
    var w' := w.(batches := w.batches - {scope});
    forall x | x in w'.batches ensures BatchGood(w', x, w'.batches[x]) { BatchFrame(w, w', x, w.batches[x]); }
    SweepsFrame(w, w');
    MarkFrame(w, w');
  }

  lemma FinishAdvances(w: World, scope: Scope)
    requires scope in w.batches && BatchGood(w, scope, w.batches[scope])
    ensures Mark(w, scope) <= NextWatermark(w.batches[scope].rows, w.batches[scope].mark) <= w.clock
  {
  }

  lemma BatchCovers(w: World, scope: Scope, r: Ref)
    requires BelowMarkIndexed(w) && scope in w.batches && BatchGood(w, scope, w.batches[scope]) && Enabled(w, Finishes(scope))
    requires r in w.source && r.scope == scope
    requires w.source[r].stamp < NextWatermark(w.batches[scope].rows, w.batches[scope].mark)
    ensures Current(w, r)
  {
    assert ReadGood(w, scope, w.batches[scope], r);
  }

  /** The watermark may advance: rows written since the read carry stamps at or past it. */
  lemma FinishKeepsMark(w: World, scope: Scope)
    requires BelowMarkIndexed(w) && BatchesGood(w) && Enabled(w, Finishes(scope))
    ensures BelowMarkIndexed(Step(w, Finishes(scope)))
  {
    var w' := Step(w, Finishes(scope));
    forall r | r in w'.source && w'.source[r].stamp < Mark(w', r.scope) ensures Current(w', r) {
      if r.scope == scope { BatchCovers(w, scope, r); }
      assert Current(w, r);
    }
  }

  lemma FinishKeeps(w: World, scope: Scope)
    requires Inv(w) && Enabled(w, Finishes(scope))
    ensures Inv(Step(w, Finishes(scope)))
  {
    var w' := Step(w, Finishes(scope));
    FinishAdvances(w, scope);
    forall x | x in w'.batches ensures BatchGood(w', x, w'.batches[x]) { BatchFrame(w, w', x, w.batches[x]); }
    SweepsFrame(w, w');
    FinishKeepsMark(w, scope);
  }

  // ── Sweep ───────────────────────────────────────────────────────────────────

  lemma SweepEsKeeps(w: World, scope: Scope)
    requires Inv(w)
    ensures Inv(w.(sweeps := w.sweeps[scope := EsRead(EsIds(w.index, scope))]))
  {
    var w' := w.(sweeps := w.sweeps[scope := EsRead(EsIds(w.index, scope))]);
    SameSourceAndIndex(w, w');
    forall x | x in w'.sweeps ensures SweepGood(w', x, w'.sweeps[x]) {
      if x != scope { assert SweepGood(w, x, w.sweeps[x]); }
    }
  }

  /** Steps that only change the sweeps keep everything else. */
  lemma SameSourceAndIndex(w: World, w': World)
    requires Inv(w) && w' == w.(sweeps := w'.sweeps)
    ensures SourceGood(w') && IndexGood(w') && BatchesGood(w') && BelowMarkIndexed(w')
  {
    forall x | x in w'.batches ensures BatchGood(w', x, w'.batches[x]) { BatchFrame(w, w', x, w.batches[x]); }
    MarkFrame(w, w');
  }

  lemma SweepSourceKeeps(w: World, scope: Scope)
    requires Inv(w) && Enabled(w, SweepReadsSource(scope))
    ensures Inv(Step(w, SweepReadsSource(scope)))
  {
    var w' := Step(w, SweepReadsSource(scope));
    SameSourceAndIndex(w, w');
    forall x | x in w'.sweeps ensures SweepGood(w', x, w'.sweeps[x]) {
      assert SweepGood(w, x, w.sweeps[x]);
      if x == scope {
        forall k | k in w'.sweeps[x].orphans
          ensures exists r :: r in w.used && r !in w.source && r.scope == scope && k == DocId(r)
        {
          var r :| r in w.used && r.scope == scope && k == DocId(r);
          assert r in w.source ==> DocId(r) in SourceIds(w.source, scope);
        }
      }
    }
  }

  lemma OrphanIsGone(w: World, scope: Scope, key: string)
    requires SweepsGood(w) && Enabled(w, SweepDeletes(scope, key))
    ensures forall r :: r in w.source ==> DocId(r) != key
  {
    assert SweepGood(w, scope, w.sweeps[scope]);
    var gone :| gone in w.used && gone !in w.source && key == DocId(gone);
    forall r | r in w.source ensures DocId(r) != key {
      if DocId(r) == key { DocIdInjective(r, gone); }
    }
  }

  lemma SweepDeleteKeeps(w: World, scope: Scope, key: string)
    requires Inv(w) && Enabled(w, SweepDeletes(scope, key))
    ensures Inv(Step(w, SweepDeletes(scope, key)))
    ensures forall r :: r in w.source ==> DocId(r) != key
  {
    var w' := Step(w, SweepDeletes(scope, key));
    OrphanIsGone(w, scope, key);
    forall x | x in w'.batches ensures BatchGood(w', x, w'.batches[x]) { BatchFrame(w, w', x, w.batches[x]); }
    SweepsFrame(w, w');
    MarkFrame(w, w');
  }

  lemma SweepEndKeeps(w: World, scope: Scope)
    requires Inv(w)
    ensures Inv(w.(sweeps := w.sweeps - {scope}))
  {
    var w' := w.(sweeps := w.sweeps - {scope});
    SameSourceAndIndex(w, w');
    forall x | x in w'.sweeps ensures SweepGood(w', x, w'.sweeps[x]) { assert SweepGood(w, x, w.sweeps[x]); }
  }

  // ── Whole runs ──────────────────────────────────────────────────────────────

  lemma StepKeeps(w: World, op: Op)
    requires Inv(w)
    ensures Inv(Step(w, op))
  {
    if Enabled(w, op) {
      match op
      case Inserts(r, content, stamp) => WriteKeeps(w, r, Row(stamp, content));
      case Updates(r, content, stamp) =>
        WriteKeeps(w, r, Row(stamp, content));
        assert w.used + {r} == w.used;
      case Deletes(r) => DeleteKeeps(w, r);
      case Begins(scope) => BeginKeeps(w, scope);
      case Indexes(scope, id) => IndexKeeps(w, scope, id);
      case Fails(scope) => FailKeeps(w, scope);
      case Finishes(scope) => FinishKeeps(w, scope);
      case SweepReadsEs(scope) => SweepEsKeeps(w, scope);
      case SweepReadsSource(scope) => SweepSourceKeeps(w, scope);
      case SweepDeletes(scope, key) => SweepDeleteKeeps(w, scope, key);
      case SweepEnds(scope) => SweepEndKeeps(w, scope);
    }
  }

  lemma MarkNeverBack(w: World, op: Op, scope: Scope)
    requires Inv(w)
    ensures Mark(Step(w, op), scope) >= Mark(w, scope)
  {
    if op.Finishes? && Enabled(w, op) { FinishAdvances(w, op.scope); }
  }

  lemma {:induction false} RunKeeps(w: World, ops: seq<Op>, scope: Scope)
    requires Inv(w)
    ensures Inv(Run(w, ops)) && Mark(Run(w, ops), scope) >= Mark(w, scope)
    decreases |ops|
  {
    if ops != [] {
      StepKeeps(w, ops[0]);
      MarkNeverBack(w, ops[0], scope);
      RunKeeps(Step(w, ops[0]), ops[1..], scope);
    }
  }

  /**
   * For every interleaving of writes, deletes, complete, partial and failed reconciles and sweeps:
   * each live row stamped below its scope's watermark is indexed as it is, and no watermark moves back.
   */
  lemma WatermarkIsSound(before: seq<Op>, after: seq<Op>, scope: Scope)
    ensures BelowMarkIndexed(Run(NEW_WORLD, before))
    ensures Mark(Run(Run(NEW_WORLD, before), after), scope) >= Mark(Run(NEW_WORLD, before), scope)
  {
    assert Inv(NEW_WORLD);
    RunKeeps(NEW_WORLD, before, scope);
    RunKeeps(Run(NEW_WORLD, before), after, scope);
  }

  /** Over fields: below its mark a live row's document carries the row's own content and scope, under the row's own id. */
  lemma IndexedAsItIs(before: seq<Op>, r: Ref)
    requires r in Run(NEW_WORLD, before).source && Run(NEW_WORLD, before).source[r].stamp < Mark(Run(NEW_WORLD, before), r.scope)
    ensures var w := Run(NEW_WORLD, before);
      DocId(r) in w.index && w.index[DocId(r)].content == w.source[r].content && w.index[DocId(r)].scope == r.scope
  {
    WatermarkIsSound(before, [], r.scope);
    assert Current(Run(NEW_WORLD, before), r);
  }

  /** Ids are the record's own, behind its schema and a colon inside a tenant. */
  lemma DocIdReads(r: Ref)
    ensures r.scope.Platform? ==> DocId(r) == r.id
    ensures r.scope.Tenant? ==> DocId(r) == r.scope.schema + ":" + r.id
  {
  }

  predicate ConcernsScope(op: Op, scope: Scope) {
    match op
    case Inserts(r, _, _) => r.scope == scope
    case Updates(r, _, _) => r.scope == scope
    case Deletes(r) => r.scope == scope
    case _ => op.scope == scope
  }

  lemma StepIsolated(w: World, op: Op, other: Ref)
    requires SweepsGood(w) && !ConcernsScope(op, other.scope)
    ensures var w' := Step(w, op);
      && (DocId(other) in w.index <==> DocId(other) in w'.index)
      && (DocId(other) in w.index ==> w'.index[DocId(other)] == w.index[DocId(other)])
      && Mark(w', other.scope) == Mark(w, other.scope)
  {
    if Enabled(w, op) {
      match op
      case Indexes(scope, id) => IndexTouchesOne(w, scope, id, other);
      case SweepDeletes(scope, key) =>
        assert SweepGood(w, scope, w.sweeps[scope]);
        var gone :| gone in w.used && gone.scope == scope && key == DocId(gone);
        if DocId(other) == key { DocIdInjective(other, gone); }
      case _ =>
    }
  }

  /** In every reachable world nothing done for one scope adds, changes or removes another scope's documents or moves its mark. */
  lemma ScopesAreIsolated(before: seq<Op>, op: Op, other: Ref)
    requires !ConcernsScope(op, other.scope)
    ensures var w := Run(NEW_WORLD, before);
      var w' := Step(w, op);
      && (DocId(other) in w.index <==> DocId(other) in w'.index)
      && (DocId(other) in w.index ==> w'.index[DocId(other)] == w.index[DocId(other)])
      && Mark(w', other.scope) == Mark(w, other.scope)
  {
    assert Inv(NEW_WORLD);
    RunKeeps(NEW_WORLD, before, other.scope);
    StepIsolated(Run(NEW_WORLD, before), op, other);
  }

  /** In every reachable world a sweep's delete names no live row's document. */
  lemma SweepSparesLiveRows(before: seq<Op>, scope: Scope, key: string, r: Ref)
    requires Enabled(Run(NEW_WORLD, before), SweepDeletes(scope, key)) && r in Run(NEW_WORLD, before).source
    ensures DocId(r) != key
  {
    assert Inv(NEW_WORLD);
    RunKeeps(NEW_WORLD, before, scope);
    SweepDeleteKeeps(Run(NEW_WORLD, before), scope, key);
  }

  // ── Reconcile, then sweep ───────────────────────────────────────────────────

  predicate WritesTo(op: Op, scope: Scope) {
    match op
    case Inserts(r, _, _) => r.scope == scope
    case Updates(r, _, _) => r.scope == scope
    case Deletes(r) => r.scope == scope
    case _ => false
  }

  ghost predicate Quiet(ops: seq<Op>, scope: Scope) { forall i :: 0 <= i < |ops| ==> !WritesTo(ops[i], scope) }

  /** The index holds the scope's live records as they are and nothing else of that scope. */
  ghost predicate Exact(w: World, scope: Scope) {
    && EsIds(w.index, scope) == SourceIds(w.source, scope)
    && (forall r :: r in w.source && r.scope == scope ==> Current(w, r))
  }

  /** The batch in flight still mirrors the source. */
  ghost predicate Reading(w: World, scope: Scope) {
    && scope in w.batches
    && forall r :: r in w.source && r.scope == scope && w.source[r].stamp >= w.batches[scope].mark ==>
         r.id in w.batches[scope].rows && w.batches[scope].rows[r.id] == w.source[r]
  }

  /** Every live row is indexed, and whatever is being indexed now is live and unchanged. */
  ghost predicate Settled(w: World, scope: Scope) {
    && (forall r :: r in w.source && r.scope == scope ==> Current(w, r))
    && Mirrors(w, scope)
  }

  ghost predicate Mirrors(w: World, scope: Scope) {
    scope in w.batches ==>
      forall id :: id in w.batches[scope].rows ==>
        Ref(scope, id) in w.source && w.batches[scope].rows[id] == w.source[Ref(scope, id)]
  }

  function Held(s: Sweep): set<string> { if s.EsRead? then s.ids else s.orphans }

  /** Documents without a live row are all in the sweep's hands. */
  ghost predicate Sweeping(w: World, scope: Scope) {
    && scope in w.sweeps
    && forall k :: k in EsIds(w.index, scope) ==> k in SourceIds(w.source, scope) || k in Held(w.sweeps[scope])
  }

  /** The sweep has read both sides and deleted every orphan it found. */
  predicate SweepDone(w: World, scope: Scope) {
    scope in w.sweeps && w.sweeps[scope].SourceRead? && w.sweeps[scope].orphans !! w.index.Keys
  }

  predicate EndsReconcile(op: Op, scope: Scope) { op == Fails(scope) || op == Finishes(scope) }

  /** Two sources that agree on one scope's records. */
  ghost predicate SameRows(a: map<Ref, Row>, b: map<Ref, Row>, scope: Scope) {
    forall r: Ref :: r.scope == scope ==> (r in a <==> r in b) && (r in a ==> a[r] == b[r])
  }

  lemma QuietStep(w: World, op: Op, scope: Scope)
    requires !WritesTo(op, scope)
    ensures SameRows(w.source, Step(w, op).source, scope)
  {}

  lemma SameIds(a: map<Ref, Row>, b: map<Ref, Row>, scope: Scope)
    requires SameRows(a, b, scope)
    ensures SourceIds(a, scope) == SourceIds(b, scope)
  {
  }

  lemma BeginReads(w: World, scope: Scope)
    requires Enabled(w, Begins(scope))
    ensures Reading(Step(w, Begins(scope)), scope)
  {
  }

  lemma BatchStays(w: World, op: Op, scope: Scope)
    requires scope in w.batches && !EndsReconcile(op, scope)
    ensures var w' := Step(w, op);
      scope in w'.batches && w'.batches[scope].mark == w.batches[scope].mark && w'.batches[scope].rows == w.batches[scope].rows
  {
  }

  lemma ReadingStep(w: World, op: Op, scope: Scope)
    requires Reading(w, scope) && !WritesTo(op, scope) && !EndsReconcile(op, scope)
    ensures Reading(Step(w, op), scope)
  {
    var w' := Step(w, op);
    QuietStep(w, op, scope);
    BatchStays(w, op, scope);
  }

  lemma {:induction false} ReadingStays(w: World, ops: seq<Op>, scope: Scope)
    requires Inv(w) && Reading(w, scope) && Quiet(ops, scope)
    requires forall i :: 0 <= i < |ops| ==> !EndsReconcile(ops[i], scope)
    ensures Inv(Run(w, ops)) && Reading(Run(w, ops), scope)
    decreases |ops|
  {
    if ops != [] {
      StepKeeps(w, ops[0]);
      ReadingStep(w, ops[0], scope);
      ReadingStays(Step(w, ops[0]), ops[1..], scope);
    }
  }

  lemma FinishSettles(w: World, scope: Scope)
    requires Inv(w) && Reading(w, scope) && Enabled(w, Finishes(scope))
    ensures Settled(Step(w, Finishes(scope)), scope)
  {
    var b := w.batches[scope];
    assert BatchGood(w, scope, b);
    forall r | r in w.source && r.scope == scope ensures Current(w, r) {
      assert r == Ref(scope, r.id);
      if w.source[r].stamp >= b.mark {
        assert r.id in b.rows;
        assert ReadGood(w, scope, b, r);
      }
    }
    forall r | r in w.source && r.scope == scope ensures Current(Step(w, Finishes(scope)), r) { assert Current(w, r); }
  }

  lemma NothingToReadSettles(w: World, scope: Scope)
    requires Inv(w) && scope !in w.batches && FirstBatch(w, scope).rows == map[]
    ensures Settled(w, scope)
  {
    forall r | r in w.source && r.scope == scope ensures Current(w, r) {
      assert r == Ref(scope, r.id);
      assert w.source[r].stamp >= Mark(w, scope) ==> r.id in RowsSince(w.source, scope, Mark(w, scope));
    }
  }

  /** The live documents of a settled scope survive every step that does not write to it. */
  lemma SettledStepDocs(w: World, op: Op, r: Ref)
    requires Inv(w) && Settled(w, r.scope) && !WritesTo(op, r.scope) && Enabled(w, op) && r in w.source
    ensures r in Step(w, op).source && Current(Step(w, op), r)
  {
    QuietStep(w, op, r.scope);
    assert Current(w, r);
    match op
    case Indexes(x, id) => if r != Ref(x, id) { IndexTouchesOne(w, x, id, r); }
    case SweepDeletes(x, key) => SweepDeleteKeeps(w, x, key);
    case _ =>
  }

  lemma MirrorsStep(w: World, op: Op, scope: Scope)
    requires Mirrors(w, scope) && !WritesTo(op, scope)
    ensures Mirrors(Step(w, op), scope)
  {
  }

  lemma SettledStep(w: World, op: Op, scope: Scope)
    requires Inv(w) && Settled(w, scope) && !WritesTo(op, scope)
    ensures Settled(Step(w, op), scope)
  {
    if Enabled(w, op) {
      var w' := Step(w, op);
      QuietStep(w, op, scope);
      MirrorsStep(w, op, scope);
      forall r | r in w'.source && r.scope == scope ensures Current(w', r) { SettledStepDocs(w, op, r); }
    }
  }

  lemma {:induction false} SettledStays(w: World, ops: seq<Op>, scope: Scope)
    requires Inv(w) && Settled(w, scope) && Quiet(ops, scope)
    ensures Inv(Run(w, ops)) && Settled(Run(w, ops), scope)
    decreases |ops|
  {
    if ops != [] {
      StepKeeps(w, ops[0]);
      SettledStep(w, ops[0], scope);
      SettledStays(Step(w, ops[0]), ops[1..], scope);
    }
  }

  /** Documents of a scope appear only by indexing a row of it. */
  lemma DocsAppear(w: World, op: Op, scope: Scope, k: string)
    requires k in EsIds(Step(w, op).index, scope)
    ensures k in EsIds(w.index, scope)
         || (op.Indexes? && Enabled(w, op) && op.scope == scope && k == DocId(Ref(scope, op.id)))
  {}

  lemma HeldStays(w: World, op: Op, scope: Scope, k: string)
    requires scope in w.sweeps && k in Held(w.sweeps[scope]) && k !in SourceIds(w.source, scope) && op != SweepEnds(scope)
    ensures scope in Step(w, op).sweeps && k in Held(Step(w, op).sweeps[scope])
  {}

  lemma SweepingStep(w: World, op: Op, scope: Scope)
    requires Inv(w) && Settled(w, scope) && Sweeping(w, scope) && !WritesTo(op, scope) && op != SweepEnds(scope)
    ensures Sweeping(Step(w, op), scope)
  {
    var w' := Step(w, op);
    QuietStep(w, op, scope);
    SameIds(w.source, w'.source, scope);
    assert scope in w'.sweeps;
    forall k | k in EsIds(w'.index, scope)
      ensures k in SourceIds(w'.source, scope) || k in Held(w'.sweeps[scope])
    {
      DocsAppear(w, op, scope, k);
      if k !in SourceIds(w.source, scope) { HeldStays(w, op, scope, k); }
    }
  }

  lemma {:induction false} SweepingStays(w: World, ops: seq<Op>, scope: Scope)
    requires Inv(w) && Settled(w, scope) && Sweeping(w, scope) && Quiet(ops, scope)
    requires forall i :: 0 <= i < |ops| ==> ops[i] != SweepEnds(scope)
    ensures var w' := Run(w, ops); Inv(w') && Settled(w', scope) && Sweeping(w', scope)
    decreases |ops|
  {
    if ops != [] {
      StepKeeps(w, ops[0]);
      SettledStep(w, ops[0], scope);
      SweepingStep(w, ops[0], scope);
      SweepingStays(Step(w, ops[0]), ops[1..], scope);
    }
  }

  lemma SweptIsExact(w: World, scope: Scope)
    requires Inv(w) && Settled(w, scope) && Sweeping(w, scope) && SweepDone(w, scope)
    ensures Exact(w, scope)
  {
    SettledIsCovered(w, scope);
  }

  lemma ReconcileSettles(w: World, bulk: seq<Op>, scope: Scope)
    requires Inv(w) && Enabled(w, Begins(scope)) && Quiet(bulk, scope)
    requires forall i :: 0 <= i < |bulk| ==> !EndsReconcile(bulk[i], scope)
    requires Enabled(Run(Step(w, Begins(scope)), bulk), Finishes(scope))
    ensures var w' := Step(Run(Step(w, Begins(scope)), bulk), Finishes(scope)); Inv(w') && Settled(w', scope)
  {
    var w1 := Run(Step(w, Begins(scope)), bulk);
    StepKeeps(w, Begins(scope));
    BeginReads(w, scope);
    ReadingStays(Step(w, Begins(scope)), bulk, scope);
    StepKeeps(w1, Finishes(scope));
    FinishSettles(w1, scope);
  }

  lemma SweepCleans(w: World, sweep: seq<Op>, scope: Scope)
    requires Inv(w) && Settled(w, scope) && Enabled(w, SweepReadsEs(scope)) && Quiet(sweep, scope)
    requires forall i :: 0 <= i < |sweep| ==> sweep[i] != SweepEnds(scope)
    requires SweepDone(Run(Step(w, SweepReadsEs(scope)), sweep), scope)
    ensures Exact(Run(Step(w, SweepReadsEs(scope)), sweep), scope)
  {
    StepKeeps(w, SweepReadsEs(scope));
    SettledStep(w, SweepReadsEs(scope), scope);
    SweepingStays(Step(w, SweepReadsEs(scope)), sweep, scope);
    SweptIsExact(Run(Step(w, SweepReadsEs(scope)), sweep), scope);
  }

  /**
   * A finished reconcile, then a sweep, with no write to that scope from the read on: the scope's index
   * equals its source. Every other scope may write, reconcile and sweep in between, and so may this
   * scope's own later reconciles.
   */
  lemma ReconcileThenSweepIsExact(w: World, before: seq<Op>, bulk: seq<Op>, reconciled: World, gap: seq<Op>,
                                  sweep: seq<Op>, scope: Scope)
    requires w == Run(NEW_WORLD, before)
    requires Enabled(w, Begins(scope)) && Quiet(bulk, scope)
    requires forall i :: 0 <= i < |bulk| ==> !EndsReconcile(bulk[i], scope)
    requires Enabled(Run(Step(w, Begins(scope)), bulk), Finishes(scope))
    requires reconciled == Run(Step(Run(Step(w, Begins(scope)), bulk), Finishes(scope)), gap) && Quiet(gap, scope)
    requires Enabled(reconciled, SweepReadsEs(scope)) && Quiet(sweep, scope)
    requires forall i :: 0 <= i < |sweep| ==> sweep[i] != SweepEnds(scope)
    requires SweepDone(Run(Step(reconciled, SweepReadsEs(scope)), sweep), scope)
    ensures Exact(Run(Step(reconciled, SweepReadsEs(scope)), sweep), scope)
  {
    assert Inv(NEW_WORLD);
    RunKeeps(NEW_WORLD, before, scope);
    ReconcileSettles(w, bulk, scope);
    SettledStays(Step(Run(Step(w, Begins(scope)), bulk), Finishes(scope)), gap, scope);
    SweepCleans(reconciled, sweep, scope);
  }

  // ── The two jobs ────────────────────────────────────────────────────────────

  lemma {:induction false} RunAppend(w: World, ops: seq<Op>, op: Op)
    ensures Run(w, ops + [op]) == Step(Run(w, ops), op)
    decreases |ops|
  {
    if ops == [] {
      assert Run(Step(w, op), []) == Step(w, op);
    } else {
      assert (ops + [op])[1..] == ops[1..] + [op];
      RunAppend(Step(w, ops[0]), ops[1..], op);
    }
  }

  lemma RunAround(w: World, first: Op, middle: seq<Op>, last: Op)
    ensures Run(w, [first] + middle + [last]) == Step(Run(Step(w, first), middle), last)
  {
    assert ([first] + middle)[1..] == middle;
    RunAppend(w, [first] + middle, last);
  }

  /** Highest stamp among the rows read, or the current mark. */
  method HighestStamp(rows: map<Uuid, Row>, current: int) returns (m: int)
    ensures m == NextWatermark(rows, current)
  {
    if rows == map[] { return current; }
    var todo := rows.Keys;
    var first :| first in todo;
    m := rows[first].stamp;
    todo := todo - {first};
    while todo != {}
      invariant todo <= rows.Keys
      invariant exists id :: id in rows && rows[id].stamp == m
      invariant forall id :: id in rows && id !in todo ==> rows[id].stamp <= m
      decreases |todo|
    {
      var id :| id in todo;
      if rows[id].stamp > m { m := rows[id].stamp; }
      todo := todo - {id};
    }
  }

  /** Postgres rows, Elasticsearch documents and stored watermarks, as one job sees them between its awaits. */
  class SearchStore {
    var source: map<Ref, Row>
    var index: map<string, Doc>
    var marks: map<Scope, int>
    ghost var used: set<Ref>
    ghost var clock: int

    /** The store with no job under way. */
    ghost function Snapshot(): World
      reads this
    {
      World(source, used, clock, index, marks, map[], map[])
    }

    constructor ()
      ensures Snapshot() == NEW_WORLD && Inv(Snapshot())
    {
      source, index, marks, used, clock := map[], map[], map[], {}, EPOCH;
    }

    /** The bulk call; it takes `accepts` documents before it fails, if it fails. */
    method BulkIndex(scope: Scope, rows: map<Uuid, Row>, accepts: nat, ghost mark: int)
      returns (ok: bool, ghost bulk: seq<Op>, ghost b: Batch)
      modifies this`index
      ensures b == Batch(mark, rows, b.indexed) && (ok ==> b.indexed == rows.Keys)
      ensures accepts >= |rows| ==> ok
      ensures forall i :: 0 <= i < |bulk| ==> bulk[i].Indexes?
      ensures Run(old(Snapshot()).(batches := map[scope := Batch(mark, rows, {})]), bulk)
           == Snapshot().(batches := map[scope := b])
    {
      ghost var w := Snapshot().(batches := map[scope := Batch(mark, rows, {})]);
      var todo, taken := rows.Keys, 0;
      bulk, b := [], Batch(mark, rows, {});
      while todo != {} && taken < accepts
        invariant b == Batch(mark, rows, b.indexed)
        invariant todo <= rows.Keys && rows.Keys - todo <= b.indexed <= rows.Keys
        invariant taken == |rows.Keys| - |todo|
        invariant forall i :: 0 <= i < |bulk| ==> bulk[i].Indexes?
        invariant Run(w, bulk) == Snapshot().(batches := map[scope := b])
        decreases |todo|
      {
        var id :| id in todo;
        RunAppend(w, bulk, Indexes(scope, id));
        IndexStep(Run(w, bulk), scope, b, id);
        index := index[DocId(Ref(scope, id)) := DocOf(scope, rows[id])];
        todo, taken := todo - {id}, taken + 1;
        bulk, b := bulk + [Indexes(scope, id)], b.(indexed := b.indexed + {id});
      }
      ok := todo == {};
    }

    /** Index what was read, then move the mark. */
    method IndexRows(scope: Scope, mark: int, rows: map<Uuid, Row>, accepts: nat) returns (ok: bool, ghost ops: seq<Op>)
      requires Batch(mark, rows, {}) == FirstBatch(Snapshot(), scope) && rows != map[]
      modifies this`index, this`marks
      ensures Snapshot() == Run(old(Snapshot()), ops)
      ensures marks == if ok then old(marks)[scope := NextWatermark(rows, mark)] else old(marks)
      ensures ReconcileOps(old(Snapshot()), scope, ops, ok)
      ensures accepts >= |rows| ==> ok
    {
      ghost var w := Snapshot();
      BeginStep(w, scope);
      ghost var bulk, b;
      ok, bulk, b := BulkIndex(scope, rows, accepts, mark);
      ghost var last := if ok then Finishes(scope) else Fails(scope);
      ops := [Begins(scope)] + bulk + [last];
      ReconcileRun(w, scope, bulk, Snapshot(), b, last);
      ReconcileShape(w, scope, bulk, Snapshot(), b, last);
      if ok {
        var next := HighestStamp(rows, mark);
        marks := marks[scope := next];
      }
    }

    /** The stored mark, or the epoch, and the scope's rows from there on. */
    method ReadRows(scope: Scope) returns (mark: int, rows: map<Uuid, Row>)
      ensures Batch(mark, rows, {}) == FirstBatch(Snapshot(), scope)
    {
      mark := if scope in marks then marks[scope] else EPOCH;
      rows := RowsSince(source, scope, mark);
    }

    /**
     * One `_safe_reconcile`. A failed run keeps the watermark; a finished one leaves every live row of
     * the scope indexed as it is.
     */
    method ReconcileEntity(scope: Scope, accepts: nat) returns (ok: bool, ghost ops: seq<Op>)
      requires Inv(Snapshot())
      modifies this`index, this`marks
      ensures Snapshot() == Run(old(Snapshot()), ops) && Reconciled(old(Snapshot()), Snapshot(), scope, ok)
      ensures accepts >= |FirstBatch(old(Snapshot()), scope).rows| ==> ok
    {
      ghost var w := Snapshot();
      var mark, rows := ReadRows(scope);
      if rows == map[] {
        NothingToReconcile(w, scope);
        return true, [];
      }
      ok, ops := IndexRows(scope, mark, rows, accepts);
      ReconcileOpsKeep(w, scope, ops, ok);
      MarksMoved(w, Snapshot(), scope, ok);
    }

    /** The scan that collects the ids of a scope's documents. */
    method ReadEsIds(scope: Scope) returns (ids: set<string>)
      ensures ids == EsIds(index, scope)
    {
      ids := {};
      var hits := index.Keys;
      while hits != {}
        invariant hits <= index.Keys
        invariant ids == set k | k in index && k !in hits && index[k].scope == scope
        decreases |hits|
      {
        var k :| k in hits;
        if index[k].scope == scope { ids := ids + {k}; }
        hits := hits - {k};
      }
    }

    /** The delete loop; it gets through `accepts` calls before it fails, if it fails. Missing ids are ignored. */
    method DeleteOrphans(scope: Scope, orphans: set<string>, accepts: nat) returns (ok: bool, ghost deletes: seq<Op>)
      modifies this`index
      ensures ok ==> orphans !! index.Keys
      ensures accepts >= |orphans| ==> ok
      ensures ok ==> index == old(index) - orphans
      ensures forall i :: 0 <= i < |deletes| ==> deletes[i].SweepDeletes?
      ensures Snapshot().(sweeps := map[scope := SourceRead(orphans)])
           == Run(old(Snapshot()).(sweeps := map[scope := SourceRead(orphans)]), deletes)
    {
      ghost var w := Snapshot().(sweeps := map[scope := SourceRead(orphans)]);
      var todo, taken := orphans, 0;
      deletes := [];
      while todo != {} && taken < accepts
        invariant todo <= orphans
        invariant taken == |orphans| - |todo| && index == old(index) - (orphans - todo)
        invariant forall i :: 0 <= i < |deletes| ==> deletes[i].SweepDeletes?
        invariant Run(w, deletes) == Snapshot().(sweeps := map[scope := SourceRead(orphans)])
        decreases |todo|
      {
        var key :| key in todo;
        RunAppend(w, deletes, SweepDeletes(scope, key));
        DeleteStep(Run(w, deletes), scope, orphans, key);
        DropOne(old(index), orphans, todo, key);
        index := index - {key};
        todo, taken := todo - {key}, taken + 1;
        deletes := deletes + [SweepDeletes(scope, key)];
      }
      ok := todo == {};
    }

    /**
     * One `_safe_sweep`. After a finished reconcile, a finished sweep leaves the scope's index equal to
     * its source.
     */
    method SweepEntity(scope: Scope, accepts: nat) returns (ok: bool, ghost ops: seq<Op>)
      requires Inv(Snapshot())
      modifies this`index
      ensures Inv(Snapshot()) && Snapshot() == Run(old(Snapshot()), ops)
      ensures ok && old(Settled(Snapshot(), scope)) ==> Exact(Snapshot(), scope)
      ensures accepts >= |EsIds(old(index), scope) - SourceIds(source, scope)| ==> ok
      ensures ok ==> index == old(index) - (EsIds(old(index), scope) - SourceIds(source, scope))
    {
      ghost var w := Snapshot();
      var esIds := ReadEsIds(scope);
      if esIds == {} {
        if Settled(w, scope) { SettledIsCovered(w, scope); }
        return true, [];
      }
      var orphans := OrphanIds(esIds, SourceIds(source, scope));
      ghost var deletes;
      ok, deletes := DeleteOrphans(scope, orphans, accepts);
      ops := [SweepReadsEs(scope)] + ([SweepReadsSource(scope)] + deletes) + [SweepEnds(scope)];
      SweepRun(w, scope, deletes, Snapshot());
    }
  }

  /** Every live row of the scope has its own content and scope in the index, under its own id. */
  ghost predicate IndexedNow(w: World, scope: Scope) {
    forall r :: r in w.source && r.scope == scope ==>
      DocId(r) in w.index && w.index[DocId(r)].content == w.source[r].content && w.index[DocId(r)].scope == scope
  }

  lemma SettledReads(w: World, scope: Scope)
    requires Settled(w, scope)
    ensures IndexedNow(w, scope)
  {
    forall r | r in w.source && r.scope == scope
      ensures DocId(r) in w.index && w.index[DocId(r)].content == w.source[r].content && w.index[DocId(r)].scope == scope
    {
      assert Current(w, r);
    }
  }

  /** Where a finished reconcile leaves the mark. */
  ghost function MarkAfter(w: World, scope: Scope): int { NextWatermark(FirstBatch(w, scope).rows, FirstBatch(w, scope).mark) }

  /** A finished reconcile leaves every live row indexed and moves the mark; a failed one keeps the marks. */
  ghost predicate Reconciled(w: World, now: World, scope: Scope, ok: bool) {
    && Inv(now)
    && (if ok then Settled(now, scope) && IndexedNow(now, scope) && Mark(now, scope) == MarkAfter(w, scope) else now.marks == w.marks)
  }

  lemma NothingToReconcile(w: World, scope: Scope)
    requires Inv(w) && scope !in w.batches && FirstBatch(w, scope).rows == map[]
    ensures Reconciled(w, w, scope, true)
  {
    NothingToReadSettles(w, scope);
    SettledReads(w, scope);
  }

  lemma MarksMoved(w: World, now: World, scope: Scope, ok: bool)
    requires Inv(now) && (ok ==> Settled(now, scope))
    requires now.marks == if ok then w.marks[scope := MarkAfter(w, scope)] else w.marks
    ensures Reconciled(w, now, scope, ok)
  {
    if ok { SettledReads(now, scope); }
  }

  lemma DeleteStep(w: World, scope: Scope, orphans: set<string>, key: string)
    requires w.sweeps == map[scope := SourceRead(orphans)] && key in orphans
    ensures Step(w, SweepDeletes(scope, key)) == w.(index := w.index - {key})
  {
  }

  lemma DropOne(index: map<string, Doc>, orphans: set<string>, todo: set<string>, key: string)
    requires todo <= orphans && key in todo
    ensures index - (orphans - todo) - {key} == index - (orphans - (todo - {key}))
  {
    assert orphans - (todo - {key}) == (orphans - todo) + {key};
  }

  function FirstBatch(w: World, scope: Scope): Batch {
    Batch(Mark(w, scope), RowsSince(w.source, scope, Mark(w, scope)), {})
  }

  lemma BeginStep(w: World, scope: Scope)
    requires w.batches == map[] && FirstBatch(w, scope).rows != map[]
    ensures Step(w, Begins(scope)) == w.(batches := map[scope := FirstBatch(w, scope)])
  {
    assert w.batches[scope := FirstBatch(w, scope)] == map[scope := FirstBatch(w, scope)];
  }

  lemma IndexStep(w: World, scope: Scope, b: Batch, id: Uuid)
    requires w.batches == map[scope := b] && id in b.rows
    ensures Step(w, Indexes(scope, id))
         == w.(index := w.index[DocId(Ref(scope, id)) := DocOf(scope, b.rows[id])],
               batches := map[scope := b.(indexed := b.indexed + {id})])
  {
    assert w.batches[scope := b.(indexed := b.indexed + {id})] == map[scope := b.(indexed := b.indexed + {id})];
  }

  lemma LastStep(w: World, scope: Scope, b: Batch, last: Op)
    requires w.batches == map[scope := b]
    requires last == Fails(scope) || (last == Finishes(scope) && b.indexed == b.rows.Keys)
    ensures Step(w, last)
         == if last.Fails? then w.(batches := map[])
            else w.(batches := map[], marks := w.marks[scope := NextWatermark(b.rows, b.mark)])
  {
    assert w.batches - {scope} == map[];
  }

  /** What a reconcile's steps add up to, finished or failed. */
  lemma ReconcileRun(w: World, scope: Scope, bulk: seq<Op>, now: World, b: Batch, last: Op)
    requires now.batches == map[]
    requires Run(Step(w, Begins(scope)), bulk) == now.(batches := map[scope := b])
    requires last == Fails(scope) || (last == Finishes(scope) && b.indexed == b.rows.Keys)
    ensures Run(w, [Begins(scope)] + bulk + [last])
         == if last.Fails? then now else now.(marks := now.marks[scope := NextWatermark(b.rows, b.mark)])
  {
    RunAround(w, Begins(scope), bulk, last);
    LastStep(now.(batches := map[scope := b]), scope, b, last);
  }

  /** A reconcile's own steps: the read, some indexing, and its end. */
  ghost predicate ReconcileOps(w: World, scope: Scope, ops: seq<Op>, ok: bool) {
    && |ops| >= 2 && ops[0] == Begins(scope) && ops[|ops| - 1] == (if ok then Finishes(scope) else Fails(scope))
    && (forall i :: 1 <= i < |ops| - 1 ==> ops[i].Indexes?)
    && Enabled(w, Begins(scope))
    && (ok ==> Enabled(Run(Step(w, Begins(scope)), ops[1..|ops| - 1]), Finishes(scope)))
  }

  lemma ReconcileShape(w: World, scope: Scope, bulk: seq<Op>, now: World, b: Batch, last: Op)
    requires Enabled(w, Begins(scope)) && Run(Step(w, Begins(scope)), bulk) == now.(batches := map[scope := b])
    requires last == Fails(scope) || (last == Finishes(scope) && b.indexed == b.rows.Keys)
    requires forall i :: 0 <= i < |bulk| ==> bulk[i].Indexes?
    ensures ReconcileOps(w, scope, [Begins(scope)] + bulk + [last], last.Finishes?)
  {
    var ops := [Begins(scope)] + bulk + [last];
    assert ops[1..|ops| - 1] == bulk;
  }

  lemma ReconcileOpsKeep(w: World, scope: Scope, ops: seq<Op>, ok: bool)
    requires Inv(w) && ReconcileOps(w, scope, ops, ok)
    ensures Inv(Run(w, ops)) && (ok ==> Settled(Run(w, ops), scope))
  {
    var bulk := ops[1..|ops| - 1];
    assert ops == [Begins(scope)] + bulk + [ops[|ops| - 1]];
    ReconcileRunKeeps(w, scope, bulk, ops[|ops| - 1]);
  }

  lemma ReconcileRunKeeps(w: World, scope: Scope, bulk: seq<Op>, last: Op)
    requires Inv(w) && Enabled(w, Begins(scope)) && forall i :: 0 <= i < |bulk| ==> bulk[i].Indexes?
    requires last == Finishes(scope) ==> Enabled(Run(Step(w, Begins(scope)), bulk), last)
    ensures Inv(Run(w, [Begins(scope)] + bulk + [last]))
    ensures last == Finishes(scope) ==> Settled(Run(w, [Begins(scope)] + bulk + [last]), scope)
  {
    RunKeeps(w, [Begins(scope)] + bulk + [last], scope);
    if last == Finishes(scope) {
      RunAround(w, Begins(scope), bulk, last);
      ReconcileSettles(w, bulk, scope);
    }
  }

  lemma SweepReads(w: World, scope: Scope, deletes: seq<Op>)
    requires w.sweeps == map[]
    ensures Run(Step(w, SweepReadsEs(scope)), [SweepReadsSource(scope)] + deletes)
         == Run(w.(sweeps := map[scope := SourceRead(OrphanIds(EsIds(w.index, scope), SourceIds(w.source, scope)))]), deletes)
  {
    var ops := [SweepReadsSource(scope)] + deletes;
    assert ops[1..] == deletes;
    var s := Step(w, SweepReadsEs(scope));
    assert Step(s, ops[0]).sweeps
        == map[scope := SourceRead(OrphanIds(EsIds(w.index, scope), SourceIds(w.source, scope)))];
  }

  /** What a sweep's steps add up to. */
  lemma SweepRun(w: World, scope: Scope, deletes: seq<Op>, now: World)
    requires w.sweeps == map[] && now.sweeps == map[] && forall i :: 0 <= i < |deletes| ==> deletes[i].SweepDeletes?
    requires var s := map[scope := SourceRead(OrphanIds(EsIds(w.index, scope), SourceIds(w.source, scope)))];
      Run(w.(sweeps := s), deletes) == now.(sweeps := s)
    ensures Run(w, [SweepReadsEs(scope)] + ([SweepReadsSource(scope)] + deletes) + [SweepEnds(scope)]) == now
    ensures Inv(w) ==> Inv(now)
    ensures Inv(w) && Settled(w, scope) && OrphanIds(EsIds(w.index, scope), SourceIds(w.source, scope)) !! now.index.Keys
      ==> Exact(now, scope)
  {
    var sweep := [SweepReadsSource(scope)] + deletes;
    SweepReads(w, scope, deletes);
    RunAround(w, SweepReadsEs(scope), sweep, SweepEnds(scope));
    var end := Run(Step(w, SweepReadsEs(scope)), sweep);
    assert end.sweeps - {scope} == map[];
    if Inv(w) {
      RunKeeps(w, [SweepReadsEs(scope)] + sweep + [SweepEnds(scope)], scope);
      if Settled(w, scope) && SweepDone(end, scope) {
        SweepCleans(w, sweep, scope);
        SweepEndExact(end, now, scope);
      }
    }
  }

  lemma SweepEndExact(w: World, w': World, scope: Scope)
    requires Exact(w, scope) && w' == w.(sweeps := w'.sweeps)
    ensures Exact(w', scope)
  {
    forall r | r in w'.source && r.scope == scope ensures Current(w', r) { assert Current(w, r); }
  }

  lemma SettledIsCovered(w: World, scope: Scope)
    requires Settled(w, scope)
    ensures SourceIds(w.source, scope) <= EsIds(w.index, scope)
  {
    forall k | k in SourceIds(w.source, scope) ensures k in EsIds(w.index, scope) {
      var r :| r in w.source && r.scope == scope && k == DocId(r);
      assert Current(w, r);
    }
  }
}
