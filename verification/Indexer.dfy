/** The search projection: post-service creating and deleting rows, any number of Syncs (events,
    repairs, reindexing) and the alias move, as one machine. A SQL statement, a call to the model
    or a call to the index is one step; a statement or an index write that reports failure may or
    may not have been applied. */
module Indexer {

  datatype Vector = Missing | Vector(v: int)

  datatype Row = Row(user: string, message: string, typ: string, createdAt: int, deleted: bool, embedding: Vector, version: nat)

  /** What is searchable; a tombstone keeps neither text nor vector. */
  datatype Body = Body(user: string, message: string, typ: string, createdAt: int, deleted: bool, embedding: Vector)

  datatype Doc = Doc(body: Body, version: nat)

  type Index = map<string, Doc>

  function Project(r: Row): Body {
    Body(r.user, if r.deleted then "" else r.message, r.typ, r.createdAt, r.deleted, if r.deleted then Missing else r.embedding)
  }

  /** version_type=external: only a higher version is accepted. */
  function Accepts(idx: Index, id: string, version: nat): bool { id in idx ==> idx[id].version < version }

  function Indexed(idx: Index, id: string, d: Doc): Index {
    if Accepts(idx, id, d.version) then idx[id := d] else idx
  }

  function VersionIn(idx: Index, id: string): nat { if id in idx then idx[id].version else 0 }

  // ── the machine ──

  datatype Phase = Load | Got(row: Row) | Embed(row: Row, vec: int) | Reload | Write(row: Row, stored: bool)

  /** A Sync: rebuild when it writes to the index being built, otherwise to whatever the alias points
      at; since is the row's version count when it started; catchUp marks the pass that follows the
      alias move. */
  datatype Proc = Idle | Sync(id: string, rebuild: bool, catchUp: bool, since: nat, at: Phase)

  /** hist holds every state of every row, the current one last. owed: changes whose event is not
      handled yet. abandoned: embeddings stored by a Sync that then ended without a write, and not
      written to the new index by any other. base and seen: the rows when the alias moved, and those
      the catch-up pass has written since. */
  datatype State = State(
    hist: map<string, seq<Row>>, live: Index, built: Index, moved: bool, procs: seq<Proc>,
    owed: set<(string, nat)>, abandoned: set<(string, nat)>, base: map<string, nat>, seen: set<string>)

  datatype Step =
    | Create(id: string, user: string, message: string, typ: string, createdAt: int)
    | Delete(id: string)
    | Start(p: nat, id: string, rebuild: bool, catchUp: bool)
    | LoadOk(p: nat, ai: bool) | LoadErr(p: nat)
    | EmbedOk(p: nat, vec: int) | EmbedErr(p: nat)
    | Store(p: nat) | StoreErr(p: nat, applied: bool)
    | WriteOk(p: nat, done: set<(string, nat)>) | WriteErr(p: nat, applied: bool)
    | Crash(p: nat)
    | Move

  function Count(s: State, id: string): nat { if id in s.hist then |s.hist[id]| else 0 }

  function Current(s: State, id: string): Row
    requires Count(s, id) > 0
  {
    s.hist[id][|s.hist[id]| - 1]
  }

  predicate At(s: State, p: nat) { p < |s.procs| && s.procs[p].Sync? }

  /** The condition of the UPDATE that stores an embedding. */
  predicate Lacks(s: State, id: string) {
    Count(s, id) > 0 && !Current(s, id).deleted && Current(s, id).embedding == Missing
  }

  predicate Enabled(s: State, st: Step) {
    match st
    case Create(id, _, _, _, _) => id != "" && id !in s.hist
    case Delete(id) => Count(s, id) > 0 && !Current(s, id).deleted
    case Start(p, _, rebuild, catchUp) => p < |s.procs| && s.procs[p].Idle? && (catchUp ==> rebuild && s.moved)
    case LoadOk(p, _) => At(s, p) && (s.procs[p].at.Load? || s.procs[p].at.Reload?)
    case LoadErr(p) => At(s, p) && (s.procs[p].at.Load? || s.procs[p].at.Reload?)
    case EmbedOk(p, _) => At(s, p) && s.procs[p].at.Got?
    case EmbedErr(p) => At(s, p) && s.procs[p].at.Got?
    case Store(p) => At(s, p) && s.procs[p].at.Embed?
    case StoreErr(p, _) => At(s, p) && s.procs[p].at.Embed?
    case WriteOk(p, done) => At(s, p) && s.procs[p].at.Write?
                             && forall d :: d in done ==> d in s.owed && d.0 == s.procs[p].id && d.1 <= s.procs[p].since
    case WriteErr(p, _) => At(s, p) && s.procs[p].at.Write?
    case Crash(p) => At(s, p)
    case Move => !s.moved
  }

  function Embedded(s: State, id: string, vec: int): Row
    requires Count(s, id) > 0
  {
    Current(s, id).(embedding := Vector(vec), version := Current(s, id).version + 1)
  }

  /** Sync embeds a live post that has text and no vector, when there is a model. */
  predicate Wants(r: Row, ai: bool) { !r.deleted && r.embedding == Missing && r.message != "" && ai }

  function Loaded(s: State, q: Proc, ai: bool): Proc
    requires q.Sync?
  {
    if Count(s, q.id) == 0 then Idle
    else if q.at.Load? && Wants(Current(s, q.id), ai) then q.(at := Got(Current(s, q.id)))
    else q.(at := Write(Current(s, q.id), false))
  }

  /** What a step does to the rows. */
  datatype Change = NoChange | Change(id: string, r: Row)

  function ChangeOf(s: State, st: Step): Change
    requires Enabled(s, st)
  {
    match st
    case Create(id, u, m, t, c) => Change(id, Row(u, m, t, c, false, Missing, 1))
    case Delete(id) => Change(id, Current(s, id).(deleted := true, version := Current(s, id).version + 1))
    case Store(p) => if Lacks(s, s.procs[p].id) then Change(s.procs[p].id, Embedded(s, s.procs[p].id, s.procs[p].at.vec)) else NoChange
    case StoreErr(p, applied) =>
      if applied && Lacks(s, s.procs[p].id) then Change(s.procs[p].id, Embedded(s, s.procs[p].id, s.procs[p].at.vec)) else NoChange
    case _ => NoChange
  }

  function HistoryOf(s: State, id: string): seq<Row> { if id in s.hist then s.hist[id] else [] }

  function HistAfter(s: State, c: Change): map<string, seq<Row>> {
    if c.NoChange? then s.hist else s.hist[c.id := HistoryOf(s, c.id) + [c.r]]
  }

  predicate HasProc(st: Step) { !st.Create? && !st.Delete? && !st.Move? }

  /** Where the process goes; every error ends its Sync. */
  function ProcAfter(s: State, st: Step): Proc
    requires Enabled(s, st) && HasProc(st)
  {
    var q := s.procs[st.p];
    match st
    case Start(_, id, rebuild, catchUp) => Sync(id, rebuild, catchUp, Count(s, id), Load)
    case LoadOk(_, ai) => Loaded(s, q, ai)
    case EmbedOk(_, vec) => q.(at := Embed(q.at.row, vec))
    case EmbedErr(_) => q.(at := Write(q.at.row, false))
    case Store(_) =>
      if Lacks(s, q.id)
      then q.(at := Write(q.at.row.(embedding := Vector(q.at.vec), version := Current(s, q.id).version + 1), true))
      else q.(at := Reload)
    case _ => Idle
  }

  /** A change is owed until a Sync that started after it has written. */
  function OwedAfter(s: State, st: Step, c: Change): set<(string, nat)>
    requires Enabled(s, st)
  {
    match st
    case WriteOk(_, done) => s.owed - done
    case Create(_, _, _, _, _) => if c.Change? then s.owed + {(c.id, 1)} else s.owed
    case Delete(_) => if c.Change? then s.owed + {(c.id, |HistoryOf(s, c.id)| + 1)} else s.owed
    case _ => s.owed
  }

  /** The version a Sync stored itself and still has to write. */
  function Debt(q: Proc): set<(string, nat)> {
    if q.Sync? && q.at.Write? && q.at.stored then {(q.id, q.at.row.version)} else {}
  }

  /** Versions whose Sync ends here without an applied write. */
  function Stopped(s: State, st: Step, c: Change): set<(string, nat)>
    requires Enabled(s, st)
  {
    match st
    case WriteErr(p, applied) => if applied then {} else Debt(s.procs[p])
    case Crash(p) => Debt(s.procs[p])
    case StoreErr(_, _) => if c.Change? then {(c.id, |HistoryOf(s, c.id)| + 1)} else {}
    case _ => {}
  }

  /** The step writes version n of id, or a later one, to the new index. */
  predicate Covers(s: State, st: Step, id: string, n: nat)
    requires Enabled(s, st)
  {
    Writes(st) && (s.procs[st.p].rebuild || s.moved) && s.procs[st.p].id == id && n <= s.procs[st.p].at.row.version
  }

  function AbandonedAfter(s: State, st: Step, c: Change): set<(string, nat)>
    requires Enabled(s, st)
  {
    set d | d in s.abandoned + Stopped(s, st, c) && !Covers(s, st, d.0, d.1) && (d in s.abandoned || VersionIn(s.built, d.0) < d.1)
  }

  predicate Writes(st: Step) { st.WriteOk? || (st.WriteErr? && st.applied) }

  function IndexAfter(s: State, st: Step, built: bool): Index
    requires Enabled(s, st)
  {
    var idx := if built then s.built else s.live;
    if Writes(st) && (s.procs[st.p].rebuild || s.moved) == built
    then Indexed(idx, s.procs[st.p].id, Doc(Project(s.procs[st.p].at.row), s.procs[st.p].at.row.version))
    else idx
  }

  function Next(s: State, st: Step): State {
    if !Enabled(s, st) then s
    else State(
      HistAfter(s, ChangeOf(s, st)), IndexAfter(s, st, false), IndexAfter(s, st, true), s.moved || st.Move?,
      if HasProc(st) then s.procs[st.p := ProcAfter(s, st)] else s.procs,
      OwedAfter(s, st, ChangeOf(s, st)), AbandonedAfter(s, st, ChangeOf(s, st)),
      if st.Move? then map id | id in s.hist :: |s.hist[id]| else s.base,
      if st.Move? then {} else if st.WriteOk? && s.procs[st.p].catchUp then s.seen + {s.procs[st.p].id} else s.seen)
  }

  predicate Runs(s: State, steps: seq<Step>)
    decreases |steps|
  {
    steps == [] || (Enabled(s, steps[0]) && Runs(Next(s, steps[0]), steps[1..]))
  }

  function End(s: State, steps: seq<Step>): State
    decreases |steps|
  {
    if steps == [] then s else End(Next(s, steps[0]), steps[1..])
  }

  // ── rows, Syncs and documents agree ──

  /** Versions count up from 1, only the flags that Sync projects ever change, and a deleted row
      never changes again. */
  ghost predicate GoodHistory(h: seq<Row>) {
    && h != []
    && (forall i :: 0 <= i < |h| ==> h[i].version == i + 1)
    && (forall i :: 0 <= i < |h| ==> h[i].user == h[0].user && h[i].message == h[0].message && h[i].typ == h[0].typ && h[i].createdAt == h[0].createdAt)
    && (forall i :: 0 <= i < |h| - 1 ==> !h[i].deleted)
  }

  /** r was the row at its version. */
  ghost predicate WasRow(s: State, id: string, r: Row) {
    1 <= r.version <= Count(s, id) && r == s.hist[id][r.version - 1]
  }

  ghost predicate GoodProc(s: State, q: Proc) {
    q.Sync? ==>
      && q.since <= Count(s, q.id)
      && (q.at.Got? || q.at.Embed? || q.at.Write? ==> WasRow(s, q.id, q.at.row) && q.since <= q.at.row.version)
      && (q.at.Got? || q.at.Embed? ==> !q.at.row.deleted && q.at.row.embedding == Missing)
  }

  ghost predicate GoodDoc(s: State, id: string, d: Doc) {
    1 <= d.version <= Count(s, id) && d.body == Project(s.hist[id][d.version - 1])
  }

  ghost predicate GoodIndex(s: State, idx: Index) {
    forall id :: id in idx ==> GoodDoc(s, id, idx[id])
  }

  ghost predicate Inv(s: State) {
    && (forall id :: id in s.hist ==> GoodHistory(s.hist[id]))
    && (forall i :: 0 <= i < |s.procs| ==> GoodProc(s, s.procs[i]))
    && GoodIndex(s, s.live) && GoodIndex(s, s.built)
    && Unwritten(s)
  }

  /** What is abandoned is missing from the new index. */
  ghost predicate Unwritten(s: State) {
    forall d :: d in s.abandoned ==> VersionIn(s.built, d.0) < d.1
  }

  /** Histories only grow. */
  ghost predicate Extends(s: State, s': State) {
    forall id :: id in s.hist ==> id in s'.hist && s.hist[id] <= s'.hist[id]
  }

  lemma StepExtends(s: State, st: Step, s': State)
    requires s' == Next(s, st)
    ensures Extends(s, s')
  {
    hide ProcAfter, OwedAfter, AbandonedAfter, IndexAfter, ChangeOf;
  }

  lemma DocKept(s: State, s': State, id: string, d: Doc)
    requires Extends(s, s') && GoodDoc(s, id, d)
    ensures GoodDoc(s', id, d)
  {
  }

  lemma ProcKept(s: State, s': State, q: Proc)
    requires Extends(s, s') && GoodProc(s, q)
    ensures GoodProc(s', q)
  {
  }

  lemma GrowHistory(h: seq<Row>, r: Row)
    requires GoodHistory(h) && !h[|h| - 1].deleted && r.version == |h| + 1
    requires r == h[|h| - 1].(deleted := r.deleted, embedding := r.embedding, version := r.version)
    ensures GoodHistory(h + [r])
  {
  }

  /** Every change of an existing row is of a live one and sets one flag or vector. */
  lemma ChangeGrows(s: State, st: Step, c: Change)
    requires Enabled(s, st) && c == ChangeOf(s, st) && c.Change? && c.id in s.hist && GoodHistory(s.hist[c.id])
    ensures GoodHistory(s.hist[c.id] + [c.r])
  {
    GrowHistory(s.hist[c.id], c.r);
  }

  lemma StepHistory(s: State, st: Step, s': State, id: string)
    requires Inv(s) && Enabled(s, st) && s' == Next(s, st) && id in s'.hist
    ensures GoodHistory(s'.hist[id])
  {
    var c := ChangeOf(s, st);
    assert c.Change? && c.id !in s.hist ==> st.Create? && c.r.version == 1;
    hide ProcAfter, OwedAfter, AbandonedAfter, IndexAfter, ChangeOf, Enabled;
    if c.Change? && c.id == id && id in s.hist {
      ChangeGrows(s, st, c);
    } else if id in s.hist {
      assert GoodHistory(s.hist[id]);
    }
  }

  lemma WrittenGood(s: State, st: Step, built: bool)
    requires Inv(s) && Enabled(s, st)
    ensures GoodIndex(s, IndexAfter(s, st, built))
  {
    if Writes(st) {
      assert GoodProc(s, s.procs[st.p]);
    }
  }

  lemma StepIndex(s: State, st: Step, s': State, built: bool)
    requires Inv(s) && Enabled(s, st) && s' == Next(s, st) && Extends(s, s')
    ensures GoodIndex(s', IndexAfter(s, st, built))
  {
    WrittenGood(s, st, built);
    hide Next, Enabled, IndexAfter;
    var idx := IndexAfter(s, st, built);
    forall id | id in idx ensures GoodDoc(s', id, idx[id]) {
      DocKept(s, s', id, idx[id]);
    }
  }

  lemma StoreGood(s: State, p: nat, s': State)
    requires Inv(s) && Enabled(s, Store(p)) && s' == Next(s, Store(p)) && Extends(s, s')
    ensures GoodProc(s', ProcAfter(s, Store(p)))
  {
    var q := s.procs[p];
    assert GoodProc(s, q);
    if Lacks(s, q.id) {
      assert GoodHistory(s.hist[q.id]);
      assert s'.hist[q.id] == s.hist[q.id] + [Embedded(s, q.id, q.at.vec)];
    }
  }

  lemma LoadGood(s: State, q: Proc, ai: bool)
    requires Inv(s) && GoodProc(s, q) && q.Sync?
    ensures GoodProc(s, Loaded(s, q, ai))
  {
    if Count(s, q.id) > 0 {
      assert GoodHistory(s.hist[q.id]);
    }
  }

  lemma OwnProc(s: State, st: Step, s': State)
    requires Inv(s) && Enabled(s, st) && HasProc(st) && s' == Next(s, st) && Extends(s, s')
    ensures GoodProc(s', ProcAfter(s, st))
  {
    var q := s.procs[st.p];
    assert GoodProc(s, q);
    if st.Store? {
      StoreGood(s, st.p, s');
    } else {
      if st.LoadOk? {
        LoadGood(s, q, st.ai);
      }
      assert GoodProc(s, ProcAfter(s, st));
      hide Next, Enabled, ProcAfter;
      ProcKept(s, s', ProcAfter(s, st));
    }
  }

  lemma StepProc(s: State, st: Step, s': State, i: nat)
    requires Inv(s) && Enabled(s, st) && s' == Next(s, st) && Extends(s, s') && i < |s'.procs|
    ensures |s'.procs| == |s.procs| && GoodProc(s', s'.procs[i])
  {
    hide OwedAfter, AbandonedAfter, IndexAfter, ChangeOf, HistAfter, ProcAfter;
    if HasProc(st) && st.p == i {
      OwnProc(s, st, s');
    } else {
      assert s'.procs[i] == s.procs[i];
      ProcKept(s, s', s.procs[i]);
    }
  }

  lemma StepUnwritten(s: State, st: Step, s': State)
    requires Inv(s) && Enabled(s, st) && s' == Next(s, st)
    ensures Unwritten(s')
  {
    hide ProcAfter, OwedAfter, HistAfter, Stopped, ChangeOf;
    forall d | d in s'.abandoned ensures VersionIn(s'.built, d.0) < d.1 {
    }
  }

  lemma StepInv(s: State, st: Step)
    requires Inv(s) && Enabled(s, st)
    ensures Inv(Next(s, st))
  {
    StepUnwritten(s, st, Next(s, st));
    hide ProcAfter, OwedAfter, AbandonedAfter, IndexAfter, ChangeOf, HistAfter, Enabled;
    var s' := Next(s, st);
    StepExtends(s, st, s');
    StepIndex(s, st, s', false);
    StepIndex(s, st, s', true);
    forall id | id in s'.hist ensures GoodHistory(s'.hist[id]) {
      StepHistory(s, st, s', id);
    }
    forall i | 0 <= i < |s'.procs| ensures GoodProc(s', s'.procs[i]) {
      StepProc(s, st, s', i);
    }
  }

  /** Every document of either index is the projection of its row's state at the document's
      version, whatever Syncs, embeddings and deletes race. */
  lemma {:induction false} DocumentsAreProjections(s: State, steps: seq<Step>)
    requires Inv(s) && Runs(s, steps)
    ensures Inv(End(s, steps)) && GoodIndex(End(s, steps), End(s, steps).live) && GoodIndex(End(s, steps), End(s, steps).built)
    decreases |steps|
  {
    if steps != [] {
      StepInv(s, steps[0]);
      DocumentsAreProjections(Next(s, steps[0]), steps[1..]);
    }
  }

  // ── versions only rise ──

  /** Nothing moves an index backwards, and a tombstone stays as it is. */
  ghost predicate Forward(idx: Index, idx': Index, id: string) {
    && VersionIn(idx, id) <= VersionIn(idx', id)
    && (id in idx ==> id in idx' && (idx[id].version == idx'[id].version ==> idx[id] == idx'[id]))
    && (id in idx && idx[id].body.deleted ==> idx'[id] == idx[id])
  }

  lemma IndexedForward(s: State, idx: Index, id: string, r: Row, id': string)
    requires GoodIndex(s, idx) && WasRow(s, id, r) && GoodHistory(s.hist[id])
    ensures Forward(idx, Indexed(idx, id, Doc(Project(r), r.version)), id')
  {
    if id in idx && idx[id].body.deleted {
      assert GoodDoc(s, id, idx[id]);
    }
  }

  lemma StepForward(s: State, st: Step, s': State, id: string)
    requires Inv(s) && Enabled(s, st) && s' == Next(s, st)
    ensures Forward(s.live, s'.live, id) && Forward(s.built, s'.built, id)
  {
    if Writes(st) {
      var q := s.procs[st.p];
      assert GoodProc(s, q) && GoodHistory(s.hist[q.id]);
      hide ProcAfter, OwedAfter, AbandonedAfter, ChangeOf, HistAfter, Enabled;
      IndexedForward(s, s.live, q.id, q.at.row, id);
      IndexedForward(s, s.built, q.id, q.at.row, id);
    } else {
      hide ProcAfter, OwedAfter, AbandonedAfter, ChangeOf, HistAfter, Enabled;
    }
  }

  lemma {:induction false} VersionsOnlyRise(s: State, steps: seq<Step>, id: string)
    requires Inv(s) && Runs(s, steps)
    ensures Forward(s.live, End(s, steps).live, id) && Forward(s.built, End(s, steps).built, id)
    decreases |steps|
  {
    if steps != [] {
      StepForward(s, steps[0], Next(s, steps[0]), id);
      StepInv(s, steps[0]);
      VersionsOnlyRise(Next(s, steps[0]), steps[1..], id);
    }
  }

  function Target(s: State, rebuild: bool): Index { if rebuild || s.moved then s.built else s.live }

  ghost predicate UpToDate(s: State, idx: Index, id: string) {
    Count(s, id) > 0 ==> id in idx && idx[id] == Doc(Project(Current(s, id)), |s.hist[id]|)
  }

  /** A document at the row's last version is its current projection. */
  lemma LastVersionIsCurrent(s: State, idx: Index, id: string)
    requires Inv(s) && GoodIndex(s, idx) && id in s.hist && VersionIn(idx, id) >= |s.hist[id]|
    ensures UpToDate(s, idx, id)
  {
    assert GoodHistory(s.hist[id]) && GoodDoc(s, id, idx[id]);
  }

  lemma WriteReaches(s: State, p: nat, done: set<(string, nat)>, s': State)
    requires Inv(s) && Enabled(s, WriteOk(p, done)) && s' == Next(s, WriteOk(p, done))
    ensures VersionIn(Target(s', s.procs[p].rebuild), s.procs[p].id) >= s.procs[p].at.row.version >= s.procs[p].since
    ensures s'.hist == s.hist && s'.moved == s.moved
  {
    assert GoodProc(s, s.procs[p]);
    hide ProcAfter, OwedAfter, AbandonedAfter, Enabled;
  }

  /** Once a Sync that started when the row had n states has written, whatever runs afterwards, the
      document it wrote to equals the current row for as long as the row has no further change. */
  lemma {:induction false} SyncMakesCurrent(s: State, p: nat, done: set<(string, nat)>, steps: seq<Step>)
    requires Inv(s) && Enabled(s, WriteOk(p, done)) && Runs(Next(s, WriteOk(p, done)), steps)
    requires Count(End(Next(s, WriteOk(p, done)), steps), s.procs[p].id) <= s.procs[p].at.row.version
    ensures var e := End(Next(s, WriteOk(p, done)), steps);
      UpToDate(e, if s.procs[p].rebuild || s.moved then e.built else e.live, s.procs[p].id)
  {
    var s', id := Next(s, WriteOk(p, done)), s.procs[p].id;
    StepInv(s, WriteOk(p, done));
    WriteReaches(s, p, done, s');
    hide Next, Enabled;
    VersionsOnlyRise(s', steps, id);
    DocumentsAreProjections(s', steps);
    var e := End(s', steps);
    if id in e.hist {
      LastVersionIsCurrent(e, if s.procs[p].rebuild || s.moved then e.built else e.live, id);
    }
  }

  // ── reindexing into a new index ──

  /** Somebody will still write version n of id to the new index. */
  ghost predicate Pending(s: State, id: string, n: nat) {
    (id, n) in s.owed || (id, n) in s.abandoned || exists i :: 0 <= i < |s.procs| && (id, n) in Debt(s.procs[i])
  }

  function BaseOf(s: State, id: string): nat { if id in s.base then s.base[id] else 0 }

  /** After the alias moved: rows written by the catch-up pass are at least as new as at the move,
      and the last change since is written or pending. */
  ghost predicate CaughtUp(s: State, id: string) {
    && BaseOf(s, id) <= Count(s, id)
    && (id in s.seen ==> VersionIn(s.built, id) >= BaseOf(s, id))
    && (Count(s, id) > BaseOf(s, id) ==> VersionIn(s.built, id) >= Count(s, id) || Pending(s, id, Count(s, id)))
    && (forall i :: 0 <= i < |s.procs| && s.procs[i].Sync? && s.procs[i].catchUp && s.procs[i].id == id ==>
          s.procs[i].rebuild && s.procs[i].since >= BaseOf(s, id))
  }

  ghost predicate Converging(s: State) {
    s.moved && forall id :: CaughtUp(s, id)
  }

  lemma MoveConverges(s: State, s': State)
    requires Enabled(s, Move) && s' == Next(s, Move) && NoCatchUp(s)
    ensures Converging(s')
  {
  }

  lemma StepSeen(s: State, st: Step, s': State, id: string)
    requires Inv(s) && Converging(s) && Enabled(s, st) && s' == Next(s, st)
    ensures BaseOf(s', id) == BaseOf(s, id) && Count(s, id) <= Count(s', id)
    ensures id in s'.seen ==> VersionIn(s'.built, id) >= BaseOf(s', id)
  {
    assert CaughtUp(s, id);
    StepForward(s, st, s', id);
    if st.WriteOk? {
      WriteReaches(s, st.p, st.done, s');
    }
  }

  lemma StepCatchUp(s: State, st: Step, s': State, id: string, i: nat)
    requires Converging(s) && Enabled(s, st) && s' == Next(s, st) && i < |s.procs| == |s'.procs|
    requires s'.procs[i].Sync? && s'.procs[i].catchUp && s'.procs[i].id == id
    ensures s'.procs[i].rebuild && s'.procs[i].since >= BaseOf(s', id)
  {
    assert CaughtUp(s, id);
  }

  /** The version a step adds to a row is owed, abandoned, or in the hands of the Sync that stored
      it. */
  lemma NewIsPending(s: State, st: Step, s': State, id: string)
    requires Inv(s) && Enabled(s, st) && s' == Next(s, st) && Count(s', id) > Count(s, id)
    ensures Pending(s', id, Count(s', id))
  {
    if id in s.hist {
      assert GoodHistory(s.hist[id]);
    }
    if st.Store? {
      assert (id, Count(s', id)) in Debt(s'.procs[st.p]);
    }
  }

  /** Whoever pays a debt has written at least that version. */
  lemma PaidIsWritten(s: State, st: Step, s': State, id: string, n: nat)
    requires Inv(s) && s.moved && Enabled(s, st) && s' == Next(s, st) && n == Count(s, id) && Pending(s, id, n)
    ensures Pending(s', id, n) || VersionIn(s'.built, id) >= n
  {
    if (id, n) in s.owed {
      if st.WriteOk? && (id, n) in st.done {
        WriteReaches(s, st.p, st.done, s');
      }
    } else if (id, n) in s.abandoned {
      CoveredIsWritten(s, st, s', id, n);
    } else {
      var i :| 0 <= i < |s.procs| && (id, n) in Debt(s.procs[i]);
      HolderPays(s, st, s', id, n, i);
    }
  }

  lemma CoveredIsWritten(s: State, st: Step, s': State, id: string, n: nat)
    requires Enabled(s, st) && s' == Next(s, st) && (id, n) in s.abandoned
    ensures (id, n) in s'.abandoned || VersionIn(s'.built, id) >= n
  {
    hide ProcAfter, OwedAfter, HistAfter, Stopped, ChangeOf;
  }

  lemma HolderPays(s: State, st: Step, s': State, id: string, n: nat, i: nat)
    requires Inv(s) && s.moved && Enabled(s, st) && s' == Next(s, st) && i < |s.procs| && (id, n) in Debt(s.procs[i])
    ensures Pending(s', id, n) || VersionIn(s'.built, id) >= n
  {
    if s'.procs[i] == s.procs[i] {
      assert (id, n) in Debt(s'.procs[i]);
    } else if st.WriteOk? {
      WriteReaches(s, st.p, st.done, s');
    } else {
      assert st.WriteErr? || st.Crash?;
    }
  }

  lemma StepConverging(s: State, st: Step, s': State)
    requires Inv(s) && Converging(s) && Enabled(s, st) && s' == Next(s, st)
    ensures Converging(s')
  {
    assert s'.moved && |s'.procs| == |s.procs|;
    forall id ensures CaughtUp(s', id) {
      assert CaughtUp(s, id);
      StepSeen(s, st, s', id);
      StepForward(s, st, s', id);
      forall i | 0 <= i < |s'.procs| && s'.procs[i].Sync? && s'.procs[i].catchUp && s'.procs[i].id == id
        ensures s'.procs[i].rebuild && s'.procs[i].since >= BaseOf(s', id)
      {
        StepCatchUp(s, st, s', id, i);
      }
      if Count(s', id) > Count(s, id) {
        NewIsPending(s, st, s', id);
      } else if Count(s, id) > BaseOf(s, id) && VersionIn(s.built, id) < Count(s, id) {
        PaidIsWritten(s, st, s', id, Count(s, id));
      }
    }
  }

  lemma {:induction false} RunConverging(s: State, steps: seq<Step>)
    requires Inv(s) && Converging(s) && Runs(s, steps)
    ensures Converging(End(s, steps)) && Inv(End(s, steps))
    decreases |steps|
  {
    if steps != [] {
      StepInv(s, steps[0]);
      StepConverging(s, steps[0], Next(s, steps[0]));
      RunConverging(Next(s, steps[0]), steps[1..]);
    }
  }

  /** Every event is handled, no Sync is under way, and the catch-up pass has written every row
      there was at the move. */
  ghost predicate Settled(s: State) {
    s.owed == {} && (forall i :: 0 <= i < |s.procs| ==> s.procs[i].Idle?) && s.base.Keys <= s.seen
  }

  /** Then the new index is current exactly for the rows whose last state is not an abandoned
      embedding. */
  lemma {:induction false} SettledIff(s: State, id: string)
    requires Inv(s) && Converging(s) && Settled(s) && id in s.hist
    ensures UpToDate(s, s.built, id) <==> (id, Count(s, id)) !in s.abandoned
  {
    assert CaughtUp(s, id) && GoodHistory(s.hist[id]);
    if (id, Count(s, id)) in s.abandoned {
      assert VersionIn(s.built, id) < Count(s, id);
    } else {
      assert forall i :: 0 <= i < |s.procs| ==> Debt(s.procs[i]) == {};
      LastVersionIsCurrent(s, s.built, id);
    }
  }

  ghost predicate NoCatchUp(s: State) {
    forall i :: 0 <= i < |s.procs| && s.procs[i].Sync? ==> !s.procs[i].catchUp
  }

  /** However creates, deletes, embeddings and other Syncs ran since the alias moved, once every
      event is handled, every Sync has ended and the catch-up pass has written every row there was,
      the new index is the current projection of a row if and only if no Sync that stored the row's
      last state as an embedding ended without writing it. */
  lemma {:induction false} ReindexConverges(s: State, steps: seq<Step>, id: string, e: State)
    requires Inv(s) && Enabled(s, Move) && NoCatchUp(s)
    requires Runs(Next(s, Move), steps) && e == End(Next(s, Move), steps) && Settled(e) && id in e.hist
    ensures UpToDate(e, e.built, id) <==> (id, Count(e, id)) !in e.abandoned
  {
    StepInv(s, Move);
    MoveConverges(s, Next(s, Move));
    RunConverging(Next(s, Move), steps);
    SettledIff(e, id);
  }

  /** A system without rows: with its alias on an index of its own from the start (moved), so that
      the same holds of everyday event-driven indexing, or before a first rebuild. */
  function Init(n: nat, moved: bool): State {
    State(map[], map[], map[], moved, seq(n, _ => Idle), {}, {}, map[], {})
  }

  lemma Fresh(n: nat, moved: bool)
    ensures Inv(Init(n, moved)) && NoCatchUp(Init(n, moved)) && (moved ==> Converging(Init(n, moved)))
  {
  }

  // ── what a reader of the alias sees ──

  function Alias(s: State): Index { if s.moved then s.built else s.live }

  /** Moving the alias takes a reader of this post forward, or leaves him where he is, exactly when the
      new index is not behind the old one: the test to make before the move. */
  lemma {:induction false} MoveForwardIff(s: State, id: string)
    requires Inv(s) && !s.moved
    ensures Forward(Alias(s), Alias(Next(s, Move)), id) <==> VersionIn(s.live, id) <= VersionIn(s.built, id)
  {
    assert Alias(Next(s, Move)) == s.built;
    if id in s.live {
      assert GoodDoc(s, id, s.live[id]);
      if id in s.built {
        assert GoodDoc(s, id, s.built[id]) && GoodHistory(s.hist[id]);
      }
    }
  }

  /** Every other step always does. */
  lemma {:induction false} AliasForwardIff(s: State, st: Step, s': State, id: string)
    requires Inv(s) && Enabled(s, st) && s' == Next(s, st)
    ensures Forward(Alias(s), Alias(s'), id) <==> !(st.Move? && VersionIn(s.built, id) < VersionIn(s.live, id))
  {
    StepForward(s, st, s', id);
    if st.Move? {
      MoveForwardIff(s, id);
    } else {
      MovedStays(s, st, s');
      hide Next, Enabled, Inv, Forward;
    }
  }

  lemma MovedStays(s: State, st: Step, s': State)
    requires Enabled(s, st) && !st.Move? && s' == Next(s, st)
    ensures s'.moved == s.moved
  {
    hide ProcAfter, OwedAfter, AbandonedAfter, ChangeOf, HistAfter, IndexAfter;
  }

  /** A deleted post shows as live exactly while the index behind the alias has an older version than
      its tombstone's. */
  lemma {:induction false} DeletedShowsIff(s: State, id: string)
    requires Inv(s) && Count(s, id) > 0 && Current(s, id).deleted && id in Alias(s)
    ensures !Alias(s)[id].body.deleted <==> VersionIn(Alias(s), id) < Count(s, id)
  {
    assert GoodDoc(s, id, Alias(s)[id]) && GoodHistory(s.hist[id]);
  }

  /** So the move makes a deleted post visible again exactly when the new index has it, but behind. */
  lemma {:induction false} MoveRevivesIff(s: State, id: string)
    requires Inv(s) && !s.moved && id in s.live && s.live[id].body.deleted
    ensures id in s.built && !s.built[id].body.deleted <==> 0 < VersionIn(s.built, id) < VersionIn(s.live, id)
  {
    assert GoodDoc(s, id, s.live[id]) && GoodHistory(s.hist[id]);
    if id in s.built {
      assert GoodDoc(s, id, s.built[id]);
    }
  }

  /** A post that was deleted when the alias moved shows as live behind it only while the catch-up
      pass has not written its row. */
  lemma DeletedShowsUntilCaughtUp(s: State, id: string)
    requires Inv(s) && Converging(s) && 1 <= BaseOf(s, id) <= Count(s, id) && s.hist[id][BaseOf(s, id) - 1].deleted
    requires id in Alias(s) && !Alias(s)[id].body.deleted
    ensures id !in s.seen
  {
    assert CaughtUp(s, id) && GoodHistory(s.hist[id]) && GoodDoc(s, id, s.built[id]);
  }

  lemma StartsAndLoads(s: State, p: nat, id: string, s1: State, s2: State)
    requires p < |s.procs| && s.procs[p].Idle? && Lacks(s, id) && Current(s, id).message != ""
    requires s1 == Next(s, Start(p, id, false, false)) && s2 == Next(s1, LoadOk(p, true))
    ensures Enabled(s, Start(p, id, false, false)) && Enabled(s1, LoadOk(p, true))
    ensures s2 == s.(procs := s.procs[p := Sync(id, false, false, Count(s, id), Got(Current(s, id)))])
  {
    assert s1 == s.(procs := s.procs[p := Sync(id, false, false, Count(s, id), Load)]);
  }

  lemma EmbedsAndStores(s: State, p: nat, q: Proc, vec: int, s1: State, s2: State)
    requires p < |s.procs| && s.procs[p] == q && q.Sync? && Lacks(s, q.id) && q.at == Got(Current(s, q.id))
    requires s1 == Next(s, EmbedOk(p, vec)) && s2 == Next(s1, Store(p))
    ensures Enabled(s, EmbedOk(p, vec)) && Enabled(s1, Store(p))
    ensures s2 == s.(hist := s.hist[q.id := s.hist[q.id] + [Embedded(s, q.id, vec)]],
                     procs := s.procs[p := q.(at := Write(Embedded(s, q.id, vec), true))])
  {
    assert s1 == s.(procs := s.procs[p := q.(at := Embed(q.at.row, vec))]);
  }

  lemma FailsToWrite(s: State, p: nat, s': State)
    requires At(s, p) && s.procs[p].at.Write? && s' == Next(s, WriteErr(p, false))
    ensures Enabled(s, WriteErr(p, false)) && s' == s.(procs := s.procs[p := Idle], abandoned := AbandonedAfter(s, WriteErr(p, false), NoChange))
    ensures forall d :: d in Debt(s.procs[p]) && VersionIn(s.built, d.0) < d.1 ==> d in s'.abandoned
  {
  }

  lemma FiveSteps(s: State, a: Step, b: Step, c: Step, d: Step, e: Step, s1: State, s2: State, s3: State, s4: State, s5: State)
    requires Enabled(s, a) && s1 == Next(s, a) && Enabled(s1, b) && s2 == Next(s1, b) && Enabled(s2, c) && s3 == Next(s2, c)
    requires Enabled(s3, d) && s4 == Next(s3, d) && Enabled(s4, e) && s5 == Next(s4, e)
    ensures Runs(s, [a, b, c, d, e]) && End(s, [a, b, c, d, e]) == s5
  {
    hide Next, Enabled;
    assert [a, b, c, d, e][1..] == [b, c, d, e] && [b, c, d, e][1..] == [c, d, e] && [c, d, e][1..] == [d, e] && [d, e][1..] == [e] && [e][1..] == [];
    assert End(s4, [e]) == s5 && Runs(s4, [e]);
    assert End(s3, [d, e]) == s5 && Runs(s3, [d, e]);
    assert End(s2, [c, d, e]) == s5 && Runs(s2, [c, d, e]);
    assert End(s1, [b, c, d, e]) == s5 && Runs(s1, [b, c, d, e]);
  }

  /** The failing case: a Sync that is not driven by an event (the repair of missing embeddings) and
      fails between storing the vector and writing the document leaves a document that was current
      one version behind, and the repair does not pick the row again. */
  lemma {:induction false} AbandonedEmbedding(s: State, p: nat, id: string, vec: int) returns (steps: seq<Step>)
    requires Inv(s) && p < |s.procs| && s.procs[p].Idle? && Lacks(s, id) && Current(s, id).message != "" && UpToDate(s, s.live, id)
    ensures steps == [Start(p, id, false, false), LoadOk(p, true), EmbedOk(p, vec), Store(p), WriteErr(p, false)] && Runs(s, steps)
    ensures var e := End(s, steps);
      !UpToDate(e, e.live, id) && !Lacks(e, id) && p < |e.procs| && e.procs[p].Idle? && e.owed == s.owed && (id, Count(e, id)) in e.abandoned
  {
    hide Next, Enabled, Runs, End;
    steps := [Start(p, id, false, false), LoadOk(p, true), EmbedOk(p, vec), Store(p), WriteErr(p, false)];
    var s1 := Next(s, steps[0]);
    var s2 := Next(s1, steps[1]);
    var s3 := Next(s2, steps[2]);
    var s4 := Next(s3, steps[3]);
    StartsAndLoads(s, p, id, s1, s2);
    EmbedsAndStores(s2, p, s2.procs[p], vec, s3, s4);
    FailsToWrite(s4, p, Next(s4, steps[4]));
    FiveSteps(s, steps[0], steps[1], steps[2], steps[3], steps[4], s1, s2, s3, s4, Next(s4, steps[4]));
    StaleAfter(s, id, vec, Next(s4, steps[4]));
    BuiltLags(s, id);
  }

  lemma BuiltLags(s: State, id: string)
    requires Inv(s) && id in s.hist
    ensures VersionIn(s.built, id) <= Count(s, id)
  {
    assert id in s.built ==> GoodDoc(s, id, s.built[id]);
  }

  lemma StaleAfter(s: State, id: string, vec: int, e: State)
    requires Inv(s) && Lacks(s, id) && UpToDate(s, s.live, id)
    requires e.hist == s.hist[id := s.hist[id] + [Embedded(s, id, vec)]] && e.live == s.live
    ensures !UpToDate(e, e.live, id) && !Lacks(e, id)
    ensures Embedded(s, id, vec).version == Count(s, id) + 1
  {
    assert GoodHistory(s.hist[id]);
  }

  lemma DeletesAndStarts(s: State, p: nat, id: string, s1: State, s2: State)
    requires Count(s, id) > 0 && !Current(s, id).deleted && p < |s.procs| && s.procs[p].Idle?
    requires s1 == Next(s, Delete(id)) && s2 == Next(s1, Start(p, id, false, false))
    ensures Enabled(s, Delete(id)) && Enabled(s1, Start(p, id, false, false))
    ensures var r := Current(s, id).(deleted := true, version := Current(s, id).version + 1);
      && s2.hist == s.hist[id := s.hist[id] + [r]] && s2.live == s.live && s2.built == s.built && s2.moved == s.moved
      && s2.procs == s.procs[p := Sync(id, false, false, Count(s, id) + 1, Load)]
  {
  }

  lemma LoadsAndWrites(s: State, p: nat, id: string, since: nat, s1: State, s2: State)
    requires p < |s.procs| && s.procs[p] == Sync(id, false, false, since, Load) && Count(s, id) > 0 && Current(s, id).deleted && !s.moved
    requires s1 == Next(s, LoadOk(p, true)) && s2 == Next(s1, WriteOk(p, {}))
    ensures Enabled(s, LoadOk(p, true)) && Enabled(s1, WriteOk(p, {})) && Enabled(s2, Move)
    ensures s2.live == Indexed(s.live, id, Doc(Project(Current(s, id)), Current(s, id).version)) && s2.built == s.built && !s2.moved
  {
    assert s1.procs[p].at == Write(Current(s, id), false) && s1.live == s.live && s1.built == s.built && s1.moved == s.moved;
  }

  /** That can happen: a post deleted between the build's read and the move is a tombstone behind the
      alias before the move and live again right after it. */
  lemma {:induction false} AliasGoesBack(s: State, p: nat, id: string) returns (steps: seq<Step>)
    requires Inv(s) && p < |s.procs| && s.procs[p].Idle? && !s.moved && Count(s, id) > 0 && !Current(s, id).deleted
    requires UpToDate(s, s.live, id) && UpToDate(s, s.built, id)
    ensures steps == [Delete(id), Start(p, id, false, false), LoadOk(p, true), WriteOk(p, {})]
    ensures Runs(s, steps) && Enabled(End(s, steps), Move)
    ensures var before, after := End(s, steps), Next(End(s, steps), Move);
      id in Alias(before) && Alias(before)[id].body.deleted && id in Alias(after) && !Alias(after)[id].body.deleted
  {
    hide Next, Enabled, Runs, End, UpToDate, Project, Indexed, Inv;
    var a, b, c, d := Delete(id), Start(p, id, false, false), LoadOk(p, true), WriteOk(p, {});
    var s1 := Next(s, a);
    var s2 := Next(s1, b);
    var s3 := Next(s2, c);
    var s4 := Next(s3, d);
    DeletesAndStarts(s, p, id, s1, s2);
    NowDeleted(s, id, s2);
    LoadsAndWrites(s2, p, id, Count(s, id) + 1, s3, s4);
    FourSteps(s, a, b, c, d, s1, s2, s3, s4);
    steps := [a, b, c, d];
    MoveSwitches(s4, Next(s4, Move));
    TombstoneShows(s, id, s2, s4);
  }

  lemma NowDeleted(s: State, id: string, s2: State)
    requires Count(s, id) > 0 && s2.hist == s.hist[id := s.hist[id] + [Current(s, id).(deleted := true, version := Current(s, id).version + 1)]]
    ensures Count(s2, id) > 0 && Current(s2, id).deleted
  {
  }

  lemma MoveSwitches(s: State, s': State)
    requires Enabled(s, Move) && s' == Next(s, Move)
    ensures s'.moved && s'.built == s.built && s'.live == s.live
  {
  }

  lemma FourSteps(s: State, a: Step, b: Step, c: Step, d: Step, s1: State, s2: State, s3: State, s4: State)
    requires Enabled(s, a) && s1 == Next(s, a) && Enabled(s1, b) && s2 == Next(s1, b)
    requires Enabled(s2, c) && s3 == Next(s2, c) && Enabled(s3, d) && s4 == Next(s3, d)
    ensures Runs(s, [a, b, c, d]) && End(s, [a, b, c, d]) == s4
  {
    hide Next, Enabled;
    assert [a, b, c, d][1..] == [b, c, d] && [b, c, d][1..] == [c, d] && [c, d][1..] == [d] && [d][1..] == [];
    assert End(s3, [d]) == s4 && Runs(s3, [d]);
    assert End(s2, [c, d]) == s4 && Runs(s2, [c, d]);
    assert End(s1, [b, c, d]) == s4 && Runs(s1, [b, c, d]);
  }

  lemma TombstoneShows(s: State, id: string, s2: State, s4: State)
    requires Inv(s) && Count(s, id) > 0 && !Current(s, id).deleted && UpToDate(s, s.live, id) && UpToDate(s, s.built, id)
    requires s2.hist == s.hist[id := s.hist[id] + [Current(s, id).(deleted := true, version := Current(s, id).version + 1)]]
    requires s4.live == Indexed(s.live, id, Doc(Project(Current(s2, id)), Current(s2, id).version)) && s4.built == s.built
    ensures id in s4.live && s4.live[id].body.deleted && id in s4.built && !s4.built[id].body.deleted
  {
    assert GoodHistory(s.hist[id]);
  }
}
