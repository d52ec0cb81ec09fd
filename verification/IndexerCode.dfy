/** Sync, embed, Reindex and the reindex command as runs of the projection machine: every call to
    the database, the model or the index is one step, and between two of them everybody else takes
    any number of theirs. */
module IndexerCode {
  import opened Indexer
  import Order
  import opened Traces

  /** What the calls of one Sync answer. */
  datatype Outcomes = Outcomes(ai: bool, loaded: bool, embedded: bool, vec: int, stored: bool, reloaded: bool, written: bool, applied: bool)

  /** No call the Sync depends on failed; a failing model only costs the vector. */
  predicate Smooth(o: Outcomes) { o.loaded && o.written && (o.embedded ==> o.stored && o.reloaded) }

  // ── the steps a Sync takes itself ──

  function By(p: nat): Step -> bool { (st: Step) => HasProc(st) && st.p == p }

  /** What the load found: no row, one to write as it is, or one to embed; changed says whether the
      UPDATE of the embedding found it still without. */
  datatype Path = NoRow | Plain | Embedding(changed: bool)

  function StoreSteps(p: nat, o: Outcomes, changed: bool): seq<Step> {
    if !o.stored then [StoreErr(p, o.applied)]
    else [Store(p)] + if changed then [] else [if o.reloaded then LoadOk(p, o.ai) else LoadErr(p)]
  }

  function EmbedSteps(p: nat, o: Outcomes, changed: bool): seq<Step> {
    if o.embedded then [EmbedOk(p, o.vec)] + StoreSteps(p, o, changed) else [EmbedErr(p)]
  }

  lemma EmbedParts(mine: seq<Step>, p: nat, o: Outcomes, changed: bool)
    ensures mine + EmbedSteps(p, o, changed)
         == mine + [if o.embedded then EmbedOk(p, o.vec) else EmbedErr(p)] + if o.embedded then StoreSteps(p, o, changed) else []
  {
  }

  /** embed leaves a row to write. */
  predicate Embeds(o: Outcomes, changed: bool) { !o.embedded || (o.stored && (changed || o.reloaded)) }

  function RowSteps(p: nat, o: Outcomes, path: Path, done: set<(string, nat)>): seq<Step>
    requires path != NoRow
  {
    (if path.Embedding? then EmbedSteps(p, o, path.changed) else [])
    + if path == Plain || Embeds(o, path.changed) then [if o.written then WriteOk(p, done) else WriteErr(p, o.applied)] else []
  }

  function SyncSteps(p: nat, id: string, rebuild: bool, catchUp: bool, o: Outcomes, path: Path, done: set<(string, nat)>): seq<Step> {
    [Start(p, id, rebuild, catchUp)] + [if o.loaded then LoadOk(p, o.ai) else LoadErr(p)]
    + if !o.loaded || path == NoRow then [] else RowSteps(p, o, path, done)
  }

  /** The Sync reports no error. */
  predicate Succeeds(o: Outcomes, path: Path) {
    o.loaded && (path == NoRow || ((path == Plain || Embeds(o, path.changed)) && o.written))
  }

  /** The ids synced, in order. */
  function Synced(steps: seq<Step>): seq<string> {
    if steps == [] then []
    else Synced(steps[..|steps| - 1]) + if steps[|steps| - 1].Start? then [steps[|steps| - 1].id] else []
  }

  predicate NoStart(steps: seq<Step>) { forall st :: st in steps ==> !st.Start? }

  lemma {:induction false} SyncedOn(steps: seq<Step>, more: seq<Step>)
    requires NoStart(more)
    ensures Synced(steps + more) == Synced(steps)
  {
    if more == [] {
      assert steps + more == steps;
    } else {
      assert (steps + more)[..|steps + more| - 1] == steps + more[..|more| - 1];
      SyncedOn(steps, more[..|more| - 1]);
    }
  }

  lemma SyncedOnce(steps: seq<Step>, p: nat, id: string, rebuild: bool, catchUp: bool, o: Outcomes, path: Path, done: set<(string, nat)>)
    ensures Synced(steps + SyncSteps(p, id, rebuild, catchUp, o, path, done)) == Synced(steps) + [id]
  {
    var a := [Start(p, id, rebuild, catchUp)];
    var b := [if o.loaded then LoadOk(p, o.ai) else LoadErr(p)] + if !o.loaded || path == NoRow then [] else RowSteps(p, o, path, done);
    assert steps + SyncSteps(p, id, rebuild, catchUp, o, path, done) == (steps + a) + b;
    assert (steps + a)[..|steps|] == steps;
    SyncedOn(steps + a, b);
  }

  datatype Walk = Finished(done: nat) | Failed(done: nat) | StillWalking

  /** What the calls for one page answer: its query, and those of each Sync. */
  datatype PageOutcomes = PageOutcomes(listed: bool, sync: nat -> Outcomes)

  /** Only the reindex command moves the alias, and the other processes keep what was promised. */
  ghost predicate Later(s: State, s': State) {
    && s'.moved == s.moved && s'.base == s.base && s.seen <= s'.seen
    && (forall id :: id in s.hist ==> id in s'.hist) && ("" !in s.hist ==> "" !in s'.hist)
    && (forall id :: Count(s, id) <= Count(s', id))
    && forall id :: VersionIn(s.live, id) <= VersionIn(s'.live, id) && VersionIn(s.built, id) <= VersionIn(s'.built, id)
  }

  /** Any run of others is such a Later: this is what Site.Others stands for. */
  lemma {:induction false} OthersAreLater(s: State, steps: seq<Step>, p: nat)
    requires Inv(s) && Runs(s, steps) && p < |s.procs|
    requires forall st :: st in steps ==> !st.Move? && (HasProc(st) ==> st.p != p)
    ensures Later(s, End(s, steps)) && |End(s, steps).procs| == |s.procs| && End(s, steps).procs[p] == s.procs[p]
    decreases |steps|
  {
    hide Next, Enabled, Inv, Later;
    if steps == [] {
      LaterSelf(s);
    } else {
      var s' := Next(s, steps[0]);
      assert steps[0] in steps;
      StepIsLater(s, steps[0], s');
      StepInv(s, steps[0]);
      OthersAreLater(s', steps[1..], p);
      LaterTwice(s, s', End(s, steps));
    }
  }

  lemma LaterSelf(s: State)
    ensures Later(s, s)
  {
  }

  lemma LaterTwice(a: State, b: State, c: State)
    requires Later(a, b) && Later(b, c)
    ensures Later(a, c)
  {
    hide VersionIn, Count;
  }

  lemma StepIsLater(s: State, st: Step, s': State)
    requires Inv(s) && Enabled(s, st) && !st.Move? && s' == Next(s, st)
    ensures Later(s, s') && |s'.procs| == |s.procs|
    ensures forall i :: 0 <= i < |s.procs| && !(HasProc(st) && st.p == i) ==> s'.procs[i] == s.procs[i]
  {
    StepGrows(s, st, s');
    StepExtends(s, st, s');
    hide Next, Enabled, Inv;
    forall id ensures VersionIn(s.live, id) <= VersionIn(s'.live, id) && VersionIn(s.built, id) <= VersionIn(s'.built, id) {
      StepForward(s, st, s', id);
    }
  }

  lemma StepGrows(s: State, st: Step, s': State)
    requires Enabled(s, st) && !st.Move? && s' == Next(s, st)
    ensures s'.moved == s.moved && s'.base == s.base && s.seen <= s'.seen && ("" !in s.hist ==> "" !in s'.hist)
    ensures |s'.procs| == |s.procs| && forall i :: 0 <= i < |s.procs| && !(HasProc(st) && st.p == i) ==> s'.procs[i] == s.procs[i]
  {
    assert st.Create? || (ChangeOf(s, st).Change? ==> ChangeOf(s, st).id in s.hist);
    hide ProcAfter, OwedAfter, AbandonedAfter, IndexAfter;
  }

  /** The index the Sync writes to has the row at version n or later. */
  predicate Holds(s: State, rebuild: bool, id: string, n: nat) { VersionIn(Target(s, rebuild), id) >= n }

  lemma HoldsAt(s0: State, s: State, rebuild: bool, id: string)
    requires id in s0.hist
    ensures Holds(s, rebuild, id, Count(s0, id)) <==> VersionIn(if rebuild || s.moved then s.built else s.live, id) >= |s0.hist[id]|
  {
  }

  lemma HoldsAll(s0: State, s: State, rebuild: bool)
    ensures (forall id :: id in s0.hist ==> Holds(s, rebuild, id, Count(s0, id)))
       <==> (forall id :: id in s0.hist ==> VersionIn(if rebuild || s.moved then s.built else s.live, id) >= |s0.hist[id]|)
  {
    hide Holds, Count, VersionIn;
    forall id | id in s0.hist ensures Holds(s, rebuild, id, Count(s0, id)) <==> VersionIn(if rebuild || s.moved then s.built else s.live, id) >= |s0.hist[id]| {
      HoldsAt(s0, s, rebuild, id);
    }
  }

  class Site {
    ghost const s0: State
    var s: State
    ghost var trace: seq<Step>

    ghost predicate Valid() reads this {
      && Inv(s0) && Runs(s0, trace) && s == End(s0, trace) && Inv(s)
      && (if s.moved then Converging(s) else NoCatchUp(s))
    }

    ghost predicate Here(p: nat, q: Proc) reads this {
      Valid() && p < |s.procs| && s.procs[p] == q
    }

    /** The steps p took so far. */
    ghost function Mine(p: nat): seq<Step> reads this { Own(trace, By(p)) }

    constructor (s: State)
      requires Inv(s) && !s.moved && NoCatchUp(s)
      ensures Valid() && this.s == s
    {
      this.s, s0, trace := s, s, [];
    }

    method Do(st: Step)
      requires Valid() && Enabled(s, st)
      modifies this
      ensures Valid() && s == Next(old(s), st) && trace == old(trace) + [st]
      ensures forall p: nat :: Mine(p) == old(Mine(p)) + if By(p)(st) then [st] else []
    {
      forall p: nat ensures Own(trace + [st], By(p)) == Own(trace, By(p)) + if By(p)(st) then [st] else [] {
        OwnSnoc(trace, st, By(p));
      }
      RunsOn(s0, trace, st);
      StepInv(s, st);
      StepValid(s, st, Next(s, st));
      s := Next(s, st);
      trace := trace + [st];
    }

    /** A step of p other than the alias move. */
    method Act(p: nat, st: Step)
      requires Valid() && Enabled(s, st) && HasProc(st) && st.p == p
      modifies this
      ensures Here(p, ProcAfter(old(s), st)) && Later(old(s), s) && s == Next(old(s), st)
      ensures old(trace) <= trace && Mine(p) == old(Mine(p)) + [st]
    {
      hide Own;
      StepIsLater(s, st, Next(s, st));
      Do(st);
    }

    /** Everyone but p moves. */
    method Others(p: nat)
      requires Valid() && p < |s.procs|
      modifies this
      ensures Here(p, old(s).procs[p]) && Later(old(s), s) && old(trace) <= trace && Mine(p) == old(Mine(p))
    {
    }

    // ── the calls ──

    method Begin(p: nat, id: string, rebuild: bool, catchUp: bool) returns (ghost q: Proc)
      requires Here(p, Idle) && (catchUp ==> rebuild && s.moved)
      modifies this
      ensures q == Sync(id, rebuild, catchUp, Count(old(s), id), Load)
      ensures Here(p, q) && Later(old(s), s) && old(trace) <= trace && Mine(p) == old(Mine(p)) + [Start(p, id, rebuild, catchUp)]
    {
      hide Own;
      q := Sync(id, rebuild, catchUp, Count(s, id), Load);
      Act(p, Start(p, id, rebuild, catchUp));
    }

    /** load: the row, or nothing when the post does not exist. */
    method Query(p: nat, ghost q: Proc, ai: bool, ok: bool) returns (found: bool, embeds: bool, ghost next: Proc)
      requires Here(p, q) && q.Sync? && (q.at.Load? || q.at.Reload?)
      modifies this
      ensures Here(p, next) && Later(old(s), s) && (q.id in old(s).hist && ok ==> found) && (found ==> q.id in s.hist)
      ensures if ok && found then next.Sync? && next == q.(at := next.at) && (if embeds then q.at.Load? && next.at.Got? else next.at.Write?)
              else next == Idle
      ensures old(trace) <= trace && Mine(p) == old(Mine(p)) + [if ok then LoadOk(p, ai) else LoadErr(p)]
    {
      hide Own;
      var id := s.procs[p].id;
      assert q.id in s.hist ==> GoodHistory(s.hist[q.id]);
      found := Count(s, id) > 0;
      embeds := found && s.procs[p].at.Load? && Wants(Current(s, id), ai);
      next := if ok then Loaded(s, q, ai) else Idle;
      Act(p, if ok then LoadOk(p, ai) else LoadErr(p));
    }

    method GetEmbedding(p: nat, ghost q: Proc, vec: int, ok: bool) returns (ghost next: Proc)
      requires Here(p, q) && q.Sync? && q.at.Got?
      modifies this
      ensures Here(p, next) && Later(old(s), s) && next.Sync? && next == q.(at := next.at)
      ensures if ok then next.at.Embed? else next.at.Write?
      ensures old(trace) <= trace && Mine(p) == old(Mine(p)) + [if ok then EmbedOk(p, vec) else EmbedErr(p)]
    {
      hide Own;
      next := if ok then q.(at := Embed(q.at.row, vec)) else q.(at := Write(q.at.row, false));
      Act(p, if ok then EmbedOk(p, vec) else EmbedErr(p));
    }

    /** The UPDATE of the embedding; changed says whether it found the row without one. */
    method UpdateEmbedding(p: nat, ghost q: Proc, ok: bool, applied: bool) returns (changed: bool, ghost next: Proc)
      requires Here(p, q) && q.Sync? && q.at.Embed?
      modifies this
      ensures Here(p, next) && Later(old(s), s)
      ensures if ok then next.Sync? && next == q.(at := next.at) && (if changed then next.at.Write? else next.at.Reload?) else next == Idle
      ensures old(trace) <= trace && Mine(p) == old(Mine(p)) + [if ok then Store(p) else StoreErr(p, applied)]
    {
      hide Own;
      changed := Lacks(s, s.procs[p].id);
      next := if ok then ProcAfter(s, Store(p)) else Idle;
      Act(p, if ok then Store(p) else StoreErr(p, applied));
    }

    /** The write; event is the change whose event the Sync handles (0: none). */
    method IndexVersioned(p: nat, ghost q: Proc, event: nat, ok: bool, applied: bool) returns (done: set<(string, nat)>)
      requires Here(p, q) && q.Sync? && q.at.Write? && event <= q.since
      modifies this
      ensures Here(p, Idle) && Later(old(s), s)
      ensures ok ==> (q.catchUp ==> q.id in s.seen) && Holds(s, q.rebuild, q.id, q.since) && (q.id, event) !in s.owed
      ensures old(trace) <= trace && Mine(p) == old(Mine(p)) + [if ok then WriteOk(p, done) else WriteErr(p, applied)]
    {
      hide Own;
      done := if (s.procs[p].id, event) in s.owed then {(s.procs[p].id, event)} else {};
      ghost var before := s;
      if ok {
        assert Enabled(s, WriteOk(p, done));
        WriteReaches(s, p, done, Next(s, WriteOk(p, done)));
      }
      Act(p, if ok then WriteOk(p, done) else WriteErr(p, applied));
    }

    // ── the code ──

    /** embed: from the loaded row to the one to write. */
    method EmbedRow(p: nat, ghost q: Proc, o: Outcomes) returns (ok: bool, ghost next: Proc, changed: bool)
      requires Here(p, q) && q.Sync? && q.at.Got? && q.id in s.hist
      modifies this
      ensures Here(p, next) && Later(old(s), s) && (ok <==> Embeds(o, changed))
      ensures if ok then next.Sync? && next == q.(at := next.at) && next.at.Write? else next == Idle
      ensures old(trace) <= trace && Mine(p) == old(Mine(p)) + EmbedSteps(p, o, changed)
    {
      hide Runs, End, Inv, Next, Converging, NoCatchUp, Enabled, ProcAfter, Own, By, EmbedSteps, VersionIn, Count;
      ghost var mine := Mine(p);
      next := GetEmbedding(p, q, o.vec, o.embedded);
      ok, changed := true, false;
      if o.embedded {
        Others(p);
        ok, next, changed := StoreRow(p, next, o);
      }
      EmbedParts(mine, p, o, changed);
    }

    /** The UPDATE of the embedding and, when the row changed meanwhile, the load that follows it. */
    method StoreRow(p: nat, ghost q: Proc, o: Outcomes) returns (ok: bool, ghost next: Proc, changed: bool)
      requires Here(p, q) && q.Sync? && q.at.Embed? && q.id in s.hist
      modifies this
      ensures Here(p, next) && Later(old(s), s) && (ok <==> o.stored && (changed || o.reloaded))
      ensures if ok then next.Sync? && next == q.(at := next.at) && next.at.Write? else next == Idle
      ensures old(trace) <= trace && Mine(p) == old(Mine(p)) + StoreSteps(p, o, changed)
    {
      hide Runs, End, Inv, Next, Converging, NoCatchUp, Enabled, ProcAfter, Own, By, VersionIn, Count;
      changed, next := UpdateEmbedding(p, q, o.stored, o.applied);
      if !o.stored {
        return false, Idle, changed;
      }
      ok := true;
      if !changed {
        Others(p);
        var found, embeds;
        found, embeds, next := Query(p, next, o.ai, o.reloaded);
        ok := o.reloaded;
      }
    }

    /** A Sync as far as its load. */
    method LoadRow(p: nat, id: string, rebuild: bool, catchUp: bool, o: Outcomes) returns (found: bool, embeds: bool, ghost next: Proc)
      requires Here(p, Idle) && (catchUp ==> rebuild && s.moved)
      modifies this
      ensures Here(p, next) && Later(old(s), s) && (id in old(s).hist && o.loaded ==> found) && (found ==> id in s.hist)
      ensures if o.loaded && found then next.Sync? && next == Sync(id, rebuild, catchUp, Count(old(s), id), next.at) && (if embeds then next.at.Got? else next.at.Write?)
              else next == Idle
      ensures old(trace) <= trace
      ensures Mine(p) == old(Mine(p)) + [Start(p, id, rebuild, catchUp)] + [if o.loaded then LoadOk(p, o.ai) else LoadErr(p)]
    {
      hide Runs, End, Inv, Next, Converging, NoCatchUp, Enabled, ProcAfter, VersionIn, Count, Own, By;
      var q := Begin(p, id, rebuild, catchUp);
      Others(p);
      found, embeds, next := Query(p, q, o.ai, o.loaded);
    }

    /** Sync: load, embed when the row wants it, write with the row's version. A row that does not
        exist is not an error; otherwise the index then has at least the state the row had when the
        Sync started, and the change it was told of is not owed any more. It fails only with a call. */
    method SyncPost(p: nat, id: string, rebuild: bool, catchUp: bool, event: nat, o: Outcomes)
      returns (ok: bool, ghost path: Path, ghost done: set<(string, nat)>)
      requires Here(p, Idle) && (catchUp ==> rebuild && s.moved) && event <= Count(s, id)
      modifies this
      ensures Here(p, Idle) && Later(old(s), s) && (ok <==> Succeeds(o, path))
      ensures o.loaded && o.written && (o.embedded ==> o.stored && o.reloaded) ==> ok
      ensures old(trace) <= trace && Mine(p) == old(Mine(p)) + SyncSteps(p, id, rebuild, catchUp, o, path, done)
      ensures id in old(s).hist && o.loaded ==> path != NoRow
      ensures ok && id in old(s).hist ==> VersionIn(if rebuild || s.moved then s.built else s.live, id) >= |old(s).hist[id]|
      ensures ok && id in old(s).hist ==> (id, event) !in s.owed && (catchUp ==> id in s.seen)
    {
      hide Runs, End, Inv, Next, Converging, NoCatchUp, Enabled, ProcAfter, VersionIn, Count, Own, By, RowSteps, Embeds, Holds, Later;
      var found, embeds, next := LoadRow(p, id, rebuild, catchUp, o);
      path, done := NoRow, {};
      if !o.loaded || !found {
        return o.loaded, NoRow, {};
      }
      ghost var read := s;
      Others(p);
      ghost var before := s;
      ok, path, done := WriteRow(p, next, embeds, event, o);
      LaterTwice(old(s), read, before);
      LaterTwice(old(s), before, s);
      if id in old(s).hist {
        HoldsAt(old(s), s, rebuild, id);
      }
    }

    /** Handle: the consumer calls it again until it succeeds. */
    method Handle(p: nat, id: string, event: nat, o: Outcomes) returns (ok: bool, ghost path: Path, ghost done: set<(string, nat)>)
      requires Here(p, Idle) && 1 <= event <= Count(s, id)
      modifies this
      ensures Here(p, Idle) && Later(old(s), s) && (ok <==> Succeeds(o, path))
      ensures o.loaded && o.written && (o.embedded ==> o.stored && o.reloaded) ==> ok
      ensures old(trace) <= trace && Mine(p) == old(Mine(p)) + SyncSteps(p, id, false, false, o, path, done)
      ensures ok ==> (id, event) !in s.owed && VersionIn(if s.moved then s.built else s.live, id) >= event
    {
      hide Runs, End, Inv, Next, Converging, NoCatchUp, Enabled, ProcAfter, Own, By, SyncSteps, Succeeds, Smooth;
      ok, path, done := SyncPost(p, id, false, false, event, o);
    }

    method WriteRow(p: nat, ghost q: Proc, embeds: bool, event: nat, o: Outcomes) returns (ok: bool, ghost path: Path, ghost done: set<(string, nat)>)
      requires Here(p, q) && q.Sync? && event <= q.since && (if embeds then q.at.Got? && q.id in s.hist else q.at.Write?)
      modifies this
      ensures Here(p, Idle) && Later(old(s), s) && path != NoRow && (ok <==> (path == Plain || Embeds(o, path.changed)) && o.written)
      ensures ok ==> (q.catchUp ==> q.id in s.seen) && Holds(s, q.rebuild, q.id, q.since) && (q.id, event) !in s.owed
      ensures old(trace) <= trace && Mine(p) == old(Mine(p)) + RowSteps(p, o, path, done) && (Smooth(o) ==> ok)
    {
      hide Runs, End, Inv, Next, Converging, NoCatchUp, Enabled, ProcAfter, Own, By, EmbedSteps;
      ghost var mine, next := Mine(p), q;
      path, done := Plain, {};
      if embeds {
        var changed;
        ok, next, changed := EmbedRow(p, q, o);
        path := Embedding(changed);
        if !ok {
          return;
        }
        Others(p);
        Assoc(mine, EmbedSteps(p, o, changed), [if o.written then WriteOk(p, done) else WriteErr(p, o.applied)]);
      }
      done := IndexVersioned(p, next, event, o.written, o.applied);
      ok := o.written;
    }

    /** The ids of one page, synced in order up to the first that fails. */
    method SyncPage(p: nat, ids: seq<string>, rebuild: bool, catchUp: bool, o: nat -> Outcomes) returns (ok: bool, n: nat)
      requires Here(p, Idle) && (catchUp ==> rebuild && s.moved) && forall id :: id in ids ==> id in s.hist
      modifies this
      ensures Here(p, Idle) && Later(old(s), s) && old(trace) <= trace
      ensures n <= |ids| && Synced(Mine(p)) == Synced(old(Mine(p))) + ids[..n]
      ensures if ok then n == |ids| else n > 0 && !Smooth(o(n - 1))
      ensures ok && catchUp ==> Order.Seen(ids) <= s.seen
      ensures ok ==> forall id :: id in ids ==> Holds(s, rebuild, id, Count(old(s), id))
    {
      hide Runs, End, Inv, Next, Converging, NoCatchUp, Enabled, ProcAfter, VersionIn, Count, Own, By, SyncSteps, Succeeds, Synced, Later, Holds;
      ghost var start, mine0 := s, Mine(p);
      n := 0;
      NothingSynced(s, rebuild, catchUp, ids);
      for i := 0 to |ids|
        invariant Here(p, Idle) && Later(start, s) && old(trace) <= trace && n == i
        invariant Synced(Mine(p)) == Synced(mine0) + ids[..i] && UpTo(start, s, rebuild, catchUp, ids, i)
      {
        ghost var path, done;
        ghost var mine, before := Mine(p), s;
        RowThere(start, s, ids[i], catchUp);
        ok, path, done := SyncPost(p, ids[i], rebuild, catchUp, 0, o(i));
        SyncedOnce(mine, p, ids[i], rebuild, catchUp, o(i), path, done);
        HoldsAt(before, s, rebuild, ids[i]);
        assert ids[..i + 1] == ids[..i] + [ids[i]];
        n := i + 1;
        if !ok {
          LaterTwice(start, before, s);
          return;
        }
        ghost var after := s;
        Others(p);
        OneMoreSynced(start, before, after, s, rebuild, catchUp, ids, i);
      }
      assert ids[..|ids|] == ids;
      AllSynced(start, s, rebuild, catchUp, ids);
      ok := true;
    }

    /** Reindex: walks the table in id order, a page at a time, until a short page. A finished walk
        has left every row there was when it started at least as new as then in the index it writes
        to; rows are never removed, so it misses none however many are inserted meanwhile. A
        catch-up walk has also seen them all. walked is what it synced, in id order; a walk fails
        only at a failing call, and is still going only after as many full pages as it was given. */
    method Reindex(p: nat, pageSize: nat, rebuild: bool, catchUp: bool, pages: seq<PageOutcomes>) returns (r: Walk, ghost walked: seq<string>)
      requires Here(p, Idle) && (catchUp ==> rebuild && s.moved) && pageSize > 0 && "" !in s.hist
      modifies this
      ensures Here(p, Idle) && Later(old(s), s) && old(trace) <= trace && Synced(Mine(p)) == Synced(old(Mine(p))) + walked
      ensures Ascending(walked) && (r.Failed? ==> StopsShort(pages, pageSize, |walked|, r.done))
      ensures r == StillWalking ==> AllListed(pages, |pages|) && |walked| == |pages| * pageSize
      ensures r.Finished? ==> r.done == |walked|
      ensures r.Finished? ==> forall id :: id in old(s).hist ==> VersionIn(if rebuild || s.moved then s.built else s.live, id) >= |old(s).hist[id]|
      ensures r.Finished? && catchUp ==> old(s).hist.Keys <= s.seen
    {
      hide Runs, End, Inv, Next, Converging, NoCatchUp, Enabled, ProcAfter, Order.KeysetPage, Order.Walked, Own, By, Synced, StopsShort, Covered, Later, Ascending, AllListed;
      ghost var covered: set<string> := {};
      var after, done: nat := "", 0;
      walked := [];
      WalkFromStart(s, rebuild, catchUp);
      NothingWalked(pages);
      for i := 0 to |pages|
        invariant Here(p, Idle) && Later(old(s), s) && old(trace) <= trace
        invariant Synced(Mine(p)) == Synced(old(Mine(p))) + walked && done == |walked| == i * pageSize
        invariant AllListed(pages, i) && Ascending(walked) && (walked != [] ==> walked[|walked| - 1] == after)
        invariant Order.Walked(old(s).hist.Keys, after, covered) && Covered(old(s), s, rebuild, catchUp, covered)
      {
        ghost var started := s;
        Others(p);
        RowsStay(old(s), started, s, rebuild, catchUp);
        if !pages[i].listed {
          StopsAtQuery(pages, pageSize, i);
          return Failed(done), walked;
        }
        var ids := Order.PageOf(s.hist.Keys, after, pageSize);
        PageInTable(s.hist.Keys, after, pageSize, ids);
        ghost var before := s;
        var ok, n := SyncPage(p, ids, rebuild, catchUp, pages[i].sync);
        AscendingOn(walked, before.hist.Keys, after, pageSize, ids, n);
        Assoc(Synced(old(Mine(p))), walked, ids[..n]);
        walked := walked + ids[..n];
        LaterTwice(old(s), before, s);
        if !ok {
          StopsAtSync(pages, pageSize, i, n);
          return Failed(done + n - 1), walked;
        }
        OneMoreListed(pages, i);
        PagesOn(i, pageSize);
        done := done + |ids|;
        MoreCovered(old(s), started, before, s, rebuild, catchUp, covered, ids);
        PageWalked(old(s).hist.Keys, before.hist.Keys, after, pageSize, ids, covered, covered + Order.Seen(ids));
        covered := covered + Order.Seen(ids);
        if |ids| < pageSize {
          WalkIsOver(old(s), s, rebuild, catchUp, covered);
          HoldsAll(old(s), s, rebuild);
          return Finished(done), walked;
        }
        after := ids[|ids| - 1];
      }
      r := StillWalking;
    }

    method PointAlias(p: nat)
      requires Here(p, Idle) && !s.moved
      modifies this
      ensures Here(p, Idle) && s.moved && s.base.Keys == s.hist.Keys && s.hist == old(s).hist
      ensures trace == old(trace) + [Move] && Mine(p) == old(Mine(p))
    {
      hide Own;
      Do(Move);
    }

    /** The reindex command with a new index: fill it, move the alias, fill it again. When it
        finishes, every row there was at the move has been written since; it stops only at a call that
        fails. The alias moves only after a finished first pass: every row there was when the command
        started is in the new index by then. A failing alias call may have moved it. */
    method RebuildIndex(p: nat, pageSize: nat, build: seq<PageOutcomes>, pointed: bool, applied: bool, catchUp: seq<PageOutcomes>)
      returns (r: Rebuild, ghost first: seq<string>, ghost second: seq<string>, ghost moveAt: nat)
      requires Here(p, Idle) && !s.moved && pageSize > 0 && forall id :: id in s.hist ==> id != ""
      modifies this
      ensures Here(p, Idle) && old(trace) <= trace && Synced(Mine(p)) == Synced(old(Mine(p))) + first + second
      ensures Ascending(first) && Ascending(second)
      ensures r == Rebuilt ==> pointed && s.moved && Converging(s) && s.base.Keys <= s.seen
      ensures r == Unmoved ==> !pointed && second == []
      ensures r.Stopped? ==> if s.moved then StopsShort(catchUp, pageSize, |second|, r.done) else second == [] && StopsShort(build, pageSize, |first|, r.done)
      ensures r == Running ==> if s.moved then |second| == |catchUp| * pageSize else second == [] && |first| == |build| * pageSize
      ensures s.moved ==> |old(trace)| <= moveAt && MovedAfter(old(s), s0, trace, moveAt)
    {
      hide Runs, End, Inv, Next, NoCatchUp, Enabled, ProcAfter, Own, By, Synced, StopsShort, Ascending, Holds, Count;
      var w;
      second, moveAt := [], 0;
      NothingWalked(build);
      w, first := Reindex(p, pageSize, true, false, build);
      if !w.Finished? {
        return if w.Failed? then Stopped(w.done) else Running, first, second, moveAt;
      }
      assert "" !in s.hist;
      HoldsAll(old(s), s, true);
      if pointed || applied {
        moveAt := |trace|;
        assert trace == trace[..moveAt];
        PointAlias(p);
        assert trace[..moveAt] == trace[..|trace| - 1];
      }
      if !pointed {
        return Unmoved, first, second, moveAt;
      }
      ghost var before := trace;
      w, second := Reindex(p, pageSize, true, true, catchUp);
      MoveStays(old(s), s0, before, trace, moveAt);
      r := if w.Finished? then Rebuilt else if w.Failed? then Stopped(w.done) else Running;
    }
  }

  datatype Rebuild = Rebuilt | Unmoved | Stopped(done: nat) | Running

  /** Step i moved the alias, and by then the new index had every row there was in s at least as
      it was. */
  ghost predicate MovedAfter(s: State, s0: State, trace: seq<Step>, i: nat) {
    i < |trace| && trace[i] == Move && forall id :: id in s.hist ==> Holds(End(s0, trace[..i]), true, id, Count(s, id))
  }

  lemma MoveStays(s: State, s0: State, trace: seq<Step>, later: seq<Step>, i: nat)
    requires MovedAfter(s, s0, trace, i) && trace <= later
    ensures MovedAfter(s, s0, later, i)
  {
    hide Holds, End, Count;
    assert later[..i] == trace[..i];
  }

  ghost predicate Ascending(ids: seq<string>) { forall i, j :: 0 <= i < j < |ids| ==> Order.Less(ids[i], ids[j]) }

  predicate AllListed(pages: seq<PageOutcomes>, n: nat) { n <= |pages| && forall i :: 0 <= i < n ==> pages[i].listed }

  /** A walk that tried n rows and counted done of them ended at a failing call: the query of a page
      right after the full pages before it, or a call of the last row's Sync. */
  ghost predicate StopsShort(pages: seq<PageOutcomes>, pageSize: nat, n: nat, done: nat) {
    exists i :: 0 <= i < |pages| && AllListed(pages, i) && StopsIn(pages[i], i * pageSize, pageSize, n, done)
  }

  predicate StopsIn(page: PageOutcomes, first: nat, pageSize: nat, n: nat, done: nat) {
    if !page.listed then n == done == first
    else first < n <= first + pageSize && done == n - 1 && !Smooth(page.sync(n - 1 - first))
  }

  /** Of the rows there were at the start, these are up to date with it. */
  ghost predicate Covered(s0: State, s: State, rebuild: bool, catchUp: bool, ids: set<string>) {
    forall id :: id in ids && id in s0.hist ==> Holds(s, rebuild, id, Count(s0, id)) && (catchUp ==> id in s.seen)
  }

  lemma MoreCovered(s0: State, s1: State, before: State, s: State, rebuild: bool, catchUp: bool, covered: set<string>, ids: seq<string>)
    requires Later(s0, s1) && Later(s1, before) && Later(before, s) && Covered(s0, s1, rebuild, catchUp, covered)
    requires (forall id :: id in ids ==> Holds(s, rebuild, id, Count(before, id))) && (catchUp ==> Order.Seen(ids) <= s.seen)
    ensures Covered(s0, s, rebuild, catchUp, covered + Order.Seen(ids))
  {
    forall id | id in covered + Order.Seen(ids) && id in s0.hist
      ensures Holds(s, rebuild, id, Count(s0, id)) && (catchUp ==> id in s.seen)
    {
      if id in covered {
        assert Holds(s1, rebuild, id, Count(s0, id));
      }
    }
  }

  /** The first n ids are synced. */
  ghost predicate UpTo(s0: State, s: State, rebuild: bool, catchUp: bool, ids: seq<string>, n: nat) {
    forall j :: 0 <= j < n && j < |ids| ==> Holds(s, rebuild, ids[j], Count(s0, ids[j])) && (catchUp ==> ids[j] in s.seen)
  }

  lemma NothingSynced(s: State, rebuild: bool, catchUp: bool, ids: seq<string>)
    ensures Later(s, s) && UpTo(s, s, rebuild, catchUp, ids, 0)
  {
  }

  lemma RowThere(s0: State, s: State, id: string, catchUp: bool)
    requires Later(s0, s) && id in s0.hist
    ensures id in s.hist && s.moved == s0.moved
  {
  }

  lemma OneMoreSynced(s0: State, before: State, after: State, s: State, rebuild: bool, catchUp: bool, ids: seq<string>, n: nat)
    requires Later(s0, before) && Later(before, after) && Later(after, s) && n < |ids| && UpTo(s0, before, rebuild, catchUp, ids, n)
    requires Holds(after, rebuild, ids[n], Count(before, ids[n])) && (catchUp ==> ids[n] in after.seen)
    ensures Later(s0, s) && UpTo(s0, s, rebuild, catchUp, ids, n + 1)
  {
    forall j | 0 <= j <= n ensures Holds(s, rebuild, ids[j], Count(s0, ids[j])) && (catchUp ==> ids[j] in s.seen) {
      if j < n {
        assert Holds(before, rebuild, ids[j], Count(s0, ids[j]));
      }
    }
  }

  lemma AllSynced(s0: State, s: State, rebuild: bool, catchUp: bool, ids: seq<string>)
    requires UpTo(s0, s, rebuild, catchUp, ids, |ids|)
    ensures forall id :: id in ids ==> Holds(s, rebuild, id, Count(s0, id))
    ensures catchUp ==> Order.Seen(ids) <= s.seen
  {
    forall id | id in ids ensures Holds(s, rebuild, id, Count(s0, id)) && (catchUp ==> id in s.seen) {
      var j :| 0 <= j < |ids| && ids[j] == id;
    }
  }

  lemma WalkFromStart(s: State, rebuild: bool, catchUp: bool)
    requires "" !in s.hist
    ensures Order.Walked(s.hist.Keys, "", {}) && Covered(s, s, rebuild, catchUp, {}) && Later(s, s)
  {
  }

  lemma RowsStay(s0: State, s1: State, s: State, rebuild: bool, catchUp: bool)
    requires Later(s0, s1) && Later(s1, s)
    ensures Later(s0, s) && s0.hist.Keys <= s.hist.Keys && (s0.moved == s1.moved == s.moved)
  {
    LaterTwice(s0, s1, s);
  }

  lemma NothingWalked(pages: seq<PageOutcomes>)
    ensures Ascending([]) && AllListed(pages, 0)
  {
  }

  lemma OneMoreListed(pages: seq<PageOutcomes>, i: nat)
    requires i < |pages| && AllListed(pages, i) && pages[i].listed
    ensures AllListed(pages, i + 1)
  {
  }

  lemma StopsAtQuery(pages: seq<PageOutcomes>, pageSize: nat, i: nat)
    requires i < |pages| && AllListed(pages, i) && !pages[i].listed
    ensures StopsShort(pages, pageSize, i * pageSize, i * pageSize)
  {
    assert StopsIn(pages[i], i * pageSize, pageSize, i * pageSize, i * pageSize);
  }

  lemma StopsAtSync(pages: seq<PageOutcomes>, pageSize: nat, i: nat, n: nat)
    requires i < |pages| && AllListed(pages, i) && pages[i].listed && 0 < n <= pageSize && !Smooth(pages[i].sync(n - 1))
    ensures StopsShort(pages, pageSize, i * pageSize + n, i * pageSize + n - 1)
  {
    assert StopsIn(pages[i], i * pageSize, pageSize, i * pageSize + n, i * pageSize + n - 1);
  }

  /** A page past the position keeps the walk in id order. */
  lemma AscendingOn(walked: seq<string>, table: set<string>, after: string, pageSize: nat, ids: seq<string>, n: nat)
    requires Ascending(walked) && (walked != [] ==> walked[|walked| - 1] == after)
    requires Order.KeysetPage(table, after, pageSize, ids) && n <= |ids|
    ensures Ascending(walked + ids[..n])
  {
    var all := walked + ids[..n];
    forall i, j | 0 <= i < j < |all| ensures Order.Less(all[i], all[j]) {
      if i < |walked| <= j {
        assert Order.Less(after, ids[j - |walked|]);
        if i < |walked| - 1 {
          Order.Transitive(walked[i], after, ids[j - |walked|]);
        }
      }
    }
  }

  lemma PagesOn(i: nat, pageSize: nat)
    ensures (i + 1) * pageSize == i * pageSize + pageSize
  {
  }

  lemma WalkIsOver(s0: State, s: State, rebuild: bool, catchUp: bool, ids: set<string>)
    requires Covered(s0, s, rebuild, catchUp, ids) && s0.hist.Keys <= ids
    ensures (forall id :: id in s0.hist ==> Holds(s, rebuild, id, Count(s0, id))) && (catchUp ==> s0.hist.Keys <= s.seen)
  {
  }

  lemma PageInTable(table: set<string>, after: string, n: nat, ids: seq<string>)
    requires Order.KeysetPage(table, after, n, ids)
    ensures |ids| <= n && forall id :: id in ids ==> id in table
  {
  }

  lemma PageWalked(rows: set<string>, table: set<string>, after: string, n: nat, ids: seq<string>, before: set<string>, seen: set<string>)
    requires n > 0 && rows <= table && Order.KeysetPage(table, after, n, ids) && Order.Walked(rows, after, before)
    requires before <= seen && Order.Seen(ids) <= seen
    ensures |ids| < n ==> rows <= seen
    ensures |ids| == n ==> Order.Walked(rows, ids[n - 1], seen)
  {
    Order.WalkStep(rows, table, after, n, ids, before);
  }

  lemma StepValid(s: State, st: Step, s': State)
    requires Inv(s) && Enabled(s, st) && s' == Next(s, st) && (if s.moved then Converging(s) else NoCatchUp(s))
    ensures if s'.moved then Converging(s') else NoCatchUp(s')
  {
    if s.moved {
      StepConverging(s, st, s');
    } else if st.Move? {
      MoveConverges(s, s');
    } else {
      assert |s'.procs| == |s.procs|;
    }
  }

  lemma {:induction false} RunsOn(s: State, steps: seq<Step>, st: Step)
    requires Runs(s, steps) && Enabled(End(s, steps), st)
    ensures Runs(s, steps + [st]) && End(s, steps + [st]) == Next(End(s, steps), st)
    decreases |steps|
  {
    if steps == [] {
      assert [st][1..] == [];
    } else {
      assert (steps + [st])[1..] == steps[1..] + [st];
      RunsOn(Next(s, steps[0]), steps[1..], st);
    }
  }
}
