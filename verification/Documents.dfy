/** What the search index holds: over every run of the projection machine, each document in terms of
    the requests that created and deleted its post and of the vectors the model answered. */
module Documents {
  import opened Indexer

  /** Step c created the row with these contents. */
  predicate CreatedAt(steps: seq<Step>, c: nat, id: string, r: Row) {
    c < |steps| && steps[c] == Create(id, r.user, r.message, r.typ, r.createdAt)
  }

  ghost predicate Created(steps: seq<Step>, id: string, r: Row) {
    exists c: nat :: CreatedAt(steps, c, id, r)
  }

  /** At step j the model answered v to a Sync of the row. */
  ghost predicate AnsweredAt(s: State, steps: seq<Step>, j: nat, id: string, v: int) {
    j < |steps| && steps[j].EmbedOk? && steps[j].vec == v
    && var e := End(s, steps[..j]); At(e, steps[j].p) && e.procs[steps[j].p].id == id
  }

  ghost predicate Answered(s: State, steps: seq<Step>, id: string, v: int) {
    exists j: nat :: AnsweredAt(s, steps, j, id, v)
  }

  /** Only a row with text gets a vector, and only one the model answered. */
  ghost predicate VectorSourced(s: State, steps: seq<Step>, id: string, r: Row) {
    r.embedding.Vector? ==> r.message != "" && Answered(s, steps, id, r.embedding.v)
  }

  /** The row was created by a step, its vectors were answered to Syncs of it, and it is deleted exactly
      when a step deleted it. */
  ghost predicate RowSourced(s: State, steps: seq<Step>, id: string, h: seq<Row>) {
    && h != [] && Created(steps, id, h[0])
    && (forall i :: 0 <= i < |h| ==> VectorSourced(s, steps, id, h[i]))
    && (h[|h| - 1].deleted <==> Delete(id) in steps)
  }

  /** A vector a Sync is about to store was answered to it, for a row with text. */
  ghost predicate ProcSourced(s: State, steps: seq<Step>, q: Proc) {
    && (q.Sync? && q.at.Embed? ==> Answered(s, steps, q.id, q.at.vec))
    && (q.Sync? && (q.at.Got? || q.at.Embed?) ==> q.at.row.message != "")
  }

  ghost predicate Sourced(s: State, steps: seq<Step>, e: State) {
    && (forall id :: id in e.hist ==> RowSourced(s, steps, id, e.hist[id]))
    && (forall id :: id !in e.hist ==> Delete(id) !in steps)
    && forall p :: 0 <= p < |e.procs| ==> ProcSourced(s, steps, e.procs[p])
  }

  lemma {:induction false} RunsSnoc(s: State, steps: seq<Step>, st: Step)
    requires Runs(s, steps + [st])
    ensures Runs(s, steps) && Enabled(End(s, steps), st) && End(s, steps + [st]) == Next(End(s, steps), st)
    decreases |steps|
  {
    hide Enabled, Next;
    if steps == [] {
      assert [st][1..] == [];
    } else {
      assert (steps + [st])[1..] == steps[1..] + [st];
      RunsSnoc(Next(s, steps[0]), steps[1..], st);
    }
  }

  lemma CreatedStays(steps: seq<Step>, st: Step, id: string, r: Row)
    requires Created(steps, id, r)
    ensures Created(steps + [st], id, r)
  {
    var c: nat :| CreatedAt(steps, c, id, r);
    assert CreatedAt(steps + [st], c, id, r);
  }

  lemma CreatedNow(steps: seq<Step>, st: Step, id: string, r: Row)
    requires st == Create(id, r.user, r.message, r.typ, r.createdAt)
    ensures Created(steps + [st], id, r)
  {
    assert CreatedAt(steps + [st], |steps|, id, r);
  }

  lemma AnsweredNow(s: State, steps: seq<Step>, e: State, p: nat, id: string, v: int)
    requires e == End(s, steps) && At(e, p) && e.procs[p].id == id
    ensures Answered(s, steps + [EmbedOk(p, v)], id, v)
  {
    assert (steps + [EmbedOk(p, v)])[..|steps|] == steps;
    assert AnsweredAt(s, steps + [EmbedOk(p, v)], |steps|, id, v);
  }

  lemma AnsweredStays(s: State, steps: seq<Step>, st: Step, id: string, v: int)
    requires Answered(s, steps, id, v)
    ensures Answered(s, steps + [st], id, v)
  {
    var j: nat :| AnsweredAt(s, steps, j, id, v);
    assert (steps + [st])[..j] == steps[..j];
    assert AnsweredAt(s, steps + [st], j, id, v);
  }

  lemma VectorStays(s: State, steps: seq<Step>, st: Step, id: string, r: Row)
    requires VectorSourced(s, steps, id, r)
    ensures VectorSourced(s, steps + [st], id, r)
  {
    if r.embedding.Vector? {
      AnsweredStays(s, steps, st, id, r.embedding.v);
    }
  }

  lemma RowStays(s: State, steps: seq<Step>, st: Step, id: string, h: seq<Row>)
    requires RowSourced(s, steps, id, h) && st != Delete(id)
    ensures RowSourced(s, steps + [st], id, h)
  {
    CreatedStays(steps, st, id, h[0]);
    forall i | 0 <= i < |h| ensures VectorSourced(s, steps + [st], id, h[i]) {
      VectorStays(s, steps, st, id, h[i]);
    }
  }

  /** A change of a row takes nothing from anywhere but the request, the row before, or the Sync. */
  lemma ChangeSources(e: State, st: Step, c: Change)
    requires Enabled(e, st) && c == ChangeOf(e, st) && c.Change?
    ensures c.id !in e.hist ==> st == Create(c.id, c.r.user, c.r.message, c.r.typ, c.r.createdAt) && c.r.embedding == Missing && !c.r.deleted
    ensures c.id in e.hist ==> Count(e, c.id) > 0 && !Current(e, c.id).deleted && (c.r.deleted <==> st == Delete(c.id)) && c.r.message == Current(e, c.id).message
    ensures c.id in e.hist && c.r.embedding.Vector? && c.r.embedding != Current(e, c.id).embedding ==>
      HasProc(st) && At(e, st.p) && e.procs[st.p].at.Embed? && e.procs[st.p].id == c.id && e.procs[st.p].at.vec == c.r.embedding.v
  {
  }

  lemma NoRowNoDelete(e: State, st: Step, id: string)
    requires Enabled(e, st) && st == Delete(id)
    ensures id in e.hist && ChangeOf(e, st).Change? && ChangeOf(e, st).id == id
  {
  }

  /** The row a Sync works on has the text of the row as it is now. */
  lemma SameText(e: State, q: Proc)
    requires Inv(e) && GoodProc(e, q) && q.Sync? && q.at.Embed? && q.id in e.hist
    ensures Count(e, q.id) > 0 && q.at.row.message == Current(e, q.id).message
  {
    assert GoodHistory(e.hist[q.id]);
  }

  lemma NewVector(s: State, steps: seq<Step>, e: State, st: Step, c: Change)
    requires Inv(e) && Sourced(s, steps, e) && e == End(s, steps) && Enabled(e, st) && c == ChangeOf(e, st) && c.Change? && c.id in e.hist
    ensures VectorSourced(s, steps + [st], c.id, c.r)
  {
    ChangeSources(e, st, c);
    hide Enabled, End, ChangeOf, Answered, Created, Inv;
    var h := e.hist[c.id];
    assert RowSourced(s, steps, c.id, h);
    if c.r.embedding == Current(e, c.id).embedding {
      assert VectorSourced(s, steps, c.id, h[|h| - 1]);
      VectorStays(s, steps, st, c.id, h[|h| - 1]);
    } else if c.r.embedding.Vector? {
      assert ProcSourced(s, steps, e.procs[st.p]);
      ProcIsGood(e, st.p);
      SameText(e, e.procs[st.p]);
      AnsweredStays(s, steps, st, c.id, c.r.embedding.v);
    }
  }

  lemma ProcIsGood(e: State, p: nat)
    requires Inv(e) && p < |e.procs|
    ensures GoodProc(e, e.procs[p])
  {
  }

  lemma ChangedSourced(s: State, steps: seq<Step>, e: State, st: Step, c: Change)
    requires Inv(e) && Sourced(s, steps, e) && e == End(s, steps) && Enabled(e, st) && c == ChangeOf(e, st) && c.Change?
    ensures RowSourced(s, steps + [st], c.id, HistoryOf(e, c.id) + [c.r])
  {
    ChangeSources(e, st, c);
    if c.id !in e.hist {
      hide Enabled, End, ChangeOf, Answered, Inv;
      CreatedNow(steps, st, c.id, c.r);
      assert Delete(c.id) !in steps;
    } else {
      NewVector(s, steps, e, st, c);
      hide Enabled, End, ChangeOf, Inv, VectorSourced, Created, HistoryOf;
      assert HistoryOf(e, c.id) == e.hist[c.id];
      RowGrows(s, steps, st, c.id, e.hist[c.id], c.r);
    }
  }

  lemma RowGrows(s: State, steps: seq<Step>, st: Step, id: string, h: seq<Row>, r: Row)
    requires RowSourced(s, steps, id, h) && VectorSourced(s, steps + [st], id, r) && !h[|h| - 1].deleted && (r.deleted <==> st == Delete(id))
    ensures RowSourced(s, steps + [st], id, h + [r])
  {
    hide VectorSourced, Created;
    CreatedStays(steps, st, id, h[0]);
    forall i | 0 <= i < |h + [r]| ensures VectorSourced(s, steps + [st], id, (h + [r])[i]) {
      if i < |h| {
        VectorStays(s, steps, st, id, h[i]);
      }
    }
  }

  /** A Sync that carries a vector got it here or carried it before; one that wants a vector has text. */
  lemma ProcSources(e: State, st: Step, e': State, p: nat)
    requires Enabled(e, st) && e' == Next(e, st) && p < |e'.procs| && e'.procs[p].Sync? && (e'.procs[p].at.Got? || e'.procs[p].at.Embed?)
    ensures p < |e.procs|
    ensures e'.procs[p].at.Embed? ==>
      e'.procs[p] == e.procs[p] || (st == EmbedOk(p, e'.procs[p].at.vec) && At(e, p) && e.procs[p].id == e'.procs[p].id)
    ensures e'.procs[p] == e.procs[p] || e'.procs[p].at.row.message != "" || (At(e, p) && e.procs[p].at.Got? && e.procs[p].at.row == e'.procs[p].at.row)
  {
    hide ChangeOf, IndexAfter, OwedAfter, AbandonedAfter, HistAfter;
  }

  lemma StepSourced(s: State, steps: seq<Step>, e: State, st: Step, e': State)
    requires Inv(e) && Sourced(s, steps, e) && e == End(s, steps) && Enabled(e, st) && e' == Next(e, st)
    ensures Sourced(s, steps + [st], e')
  {
    hide End, Inv, Answered, Created, RowSourced, Enabled, ChangeOf, IndexAfter, OwedAfter, AbandonedAfter, ProcAfter;
    var c := ChangeOf(e, st);
    forall id | id in e'.hist ensures RowSourced(s, steps + [st], id, e'.hist[id]) {
      if c.Change? && c.id == id {
        ChangedSourced(s, steps, e, st, c);
      } else {
        if st == Delete(id) {
          NoRowNoDelete(e, st, id);
        }
        RowStays(s, steps, st, id, e.hist[id]);
      }
    }
    forall id | id !in e'.hist ensures Delete(id) !in steps + [st] {
      if st == Delete(id) {
        NoRowNoDelete(e, st, id);
      }
    }
    forall p | 0 <= p < |e'.procs| ensures ProcSourced(s, steps + [st], e'.procs[p]) {
      ProcKeeps(s, steps, e, st, e', p);
    }
  }

  lemma ProcKeeps(s: State, steps: seq<Step>, e: State, st: Step, e': State, p: nat)
    requires Sourced(s, steps, e) && e == End(s, steps) && Enabled(e, st) && e' == Next(e, st) && p < |e'.procs|
    ensures ProcSourced(s, steps + [st], e'.procs[p])
  {
    hide End, Next, Enabled, RowSourced, Answered;
    var q := e'.procs[p];
    if q.Sync? && (q.at.Got? || q.at.Embed?) {
      ProcSources(e, st, e', p);
      assert ProcSourced(s, steps, e.procs[p]);
      if q.at.Embed? && q == e.procs[p] {
        AnsweredStays(s, steps, st, q.id, q.at.vec);
      } else if q.at.Embed? {
        AnsweredNow(s, steps, e, p, q.id, q.at.vec);
      }
    }
  }

  lemma {:induction false} RunSourced(s: State, steps: seq<Step>)
    requires Inv(s) && Sourced(s, [], s) && Runs(s, steps)
    ensures Sourced(s, steps, End(s, steps)) && Inv(End(s, steps))
    decreases |steps|
  {
    if steps != [] {
      var pre, st := steps[..|steps| - 1], steps[|steps| - 1];
      assert steps == pre + [st];
      RunsSnoc(s, pre, st);
      RunSourced(s, pre);
      StepInv(End(s, pre), st);
      hide Runs, End, Next, Enabled, Sourced, Inv;
      StepSourced(s, pre, End(s, pre), st, Next(End(s, pre), st));
    }
  }

  lemma NothingSourced(n: nat, moved: bool)
    ensures Sourced(Init(n, moved), [], Init(n, moved))
  {
  }

  /** What a document of a row with this history holds. */
  lemma DocumentOf(s: State, steps: seq<Step>, e: State, id: string, d: Doc) returns (c: nat)
    requires GoodDoc(e, id, d) && id in e.hist && GoodHistory(e.hist[id]) && RowSourced(s, steps, id, e.hist[id])
    ensures c < |steps| && steps[c].Create? && steps[c].id == id
    ensures d.body.user == steps[c].user && d.body.typ == steps[c].typ && d.body.createdAt == steps[c].createdAt
    ensures d.body.deleted ==> Delete(id) in steps && d.body.message == "" && d.body.embedding == Missing
    ensures !d.body.deleted ==> d.body.message == steps[c].message && 1 <= d.version <= Count(e, id) && d.body.embedding == e.hist[id][d.version - 1].embedding
    ensures d.body.embedding.Vector? ==> steps[c].message != "" && Answered(s, steps, id, d.body.embedding.v)
    ensures Delete(id) in steps && d.version == Count(e, id) ==> d.body.deleted
  {
    hide End, Answered, AnsweredAt;
    assert VectorSourced(s, steps, id, e.hist[id][d.version - 1]);
    c :| CreatedAt(steps, c, id, e.hist[id][0]);
  }

  /** In every run, and in both indexes: a document has the author, type and time its post was created
      with. A tombstone, there only for a post that was deleted, holds no text and no vector; any
      other document holds the text the post was created with and the vector its row had at that
      version, which is one the model answered to a Sync of that post, and only if it has text. The
      last version of a deleted post is a tombstone. */
  lemma {:induction false} DocumentsHold(n: nat, moved: bool, steps: seq<Step>, id: string, built: bool) returns (c: nat)
    requires Runs(Init(n, moved), steps)
    requires var e := End(Init(n, moved), steps); id in if built then e.built else e.live
    ensures c < |steps| && steps[c].Create? && steps[c].id == id
    ensures var e := End(Init(n, moved), steps); var d := (if built then e.built else e.live)[id];
      && d.body.user == steps[c].user && d.body.typ == steps[c].typ && d.body.createdAt == steps[c].createdAt
      && (d.body.deleted ==> Delete(id) in steps && d.body.message == "" && d.body.embedding == Missing)
      && (!d.body.deleted ==> d.body.message == steps[c].message && 1 <= d.version <= Count(e, id) && d.body.embedding == e.hist[id][d.version - 1].embedding)
      && (d.body.embedding.Vector? ==> steps[c].message != "" && Answered(Init(n, moved), steps, id, d.body.embedding.v))
      && (Delete(id) in steps && d.version == Count(e, id) ==> d.body.deleted)
  {
    hide Runs, End, Answered, RowSourced, ProcSourced, GoodProc, Unwritten;
    var s := Init(n, moved);
    var e := End(s, steps);
    Fresh(n, moved);
    NothingSourced(n, moved);
    RunSourced(s, steps);
    var d := (if built then e.built else e.live)[id];
    DocumentIsGood(e, id, built);
    c := DocumentOf(s, steps, e, id, d);
  }

  lemma DocumentIsGood(e: State, id: string, built: bool)
    requires Inv(e) && id in if built then e.built else e.live
    ensures id in e.hist && GoodHistory(e.hist[id]) && GoodDoc(e, id, (if built then e.built else e.live)[id])
  {
    hide GoodProc, GoodHistory;
    assert GoodDoc(e, id, (if built then e.built else e.live)[id]);
  }
}
