/** When a delta stored in Redis can be forgotten: the counter machine with failures and crashes. */
module Scheduling {
  import opened Counter
  import opened Reconcile

  /** The process will still mark k dirty or flush it, or is about to undo what it stored. */
  predicate Minds(p: Proc, k: Key) {
    ((p.Stored? || p.Undo? || p.PutBackStored? || p.PutBackUndo?) && p.k == k)
    || ((p.Flushing? || p.Unread? || p.Holding? || p.PutBack? || p.PutBackStored? || p.PutBackUndo?) && k in p.todo)
  }

  /** A flush will come to k: it is dirty, or somebody minds it. */
  ghost predicate Awaited(s: State, k: Key) {
    k in s.dirty || exists i :: 0 <= i < |s.procs| && Minds(s.procs[i], k)
  }

  /** The steps that may leave a delta of k behind: the undo of an increment that could not be scheduled
      (when it fails, or when a flush took the increment before it), the SADD after a failed GETDEL when
      it fails too, and a crash. */
  predicate Strands(s: State, st: Step, k: Key) {
    st.p < |s.procs| && Minds(s.procs[st.p], k) && (st.UndoOk? || st.UndoFail? || st.ReaddFail? || st.Crash?)
  }

  ghost predicate StrandFree(s: State, steps: seq<Step>, k: Key)
    decreases |steps|
  {
    steps == [] || (!Strands(s, steps[0], k) && StrandFree(Next(s, steps[0]), steps[1..], k))
  }

  /** A delta of k does not go unnoticed. */
  ghost predicate Noticed(s: State, k: Key) { At(s.delta, k) != 0 ==> Awaited(s, k) }

  /** A process stops minding k only by marking it dirty or by reading its delta to the end, and minds
      what it adds to Redis. */
  predicate Mindful(p: Proc, m: Move, have: int, k: Key) {
    && (Minds(p, k) ==> Minds(m.next, k) || (m.mark && m.k == k) || (Reads(p, k) && (have == 0 || (m.k == k && m.delta == -have))))
    && (m.k == k && m.delta != 0 ==> Minds(m.next, k) || (Reads(p, k) && m.delta == -have))
  }

  predicate Leaves(st: Step) { st.UndoOk? || st.UndoFail? || st.ReaddFail? || st.Crash? }

  lemma FlushMindful(p: Proc, st: Step, have: int, k: Key)
    requires Leaves(st) ==> !Minds(p, k)
    requires (st.FlushEnd? && p.Flushing? ==> p.todo == []) && (st.ReaddOk? && p.Unread? ==> p.todo != [])
    ensures Mindful(p, FlushMove(p, st, have), have, k)
  {
  }

  lemma PutBackMindful(p: Proc, st: Step, have: int, k: Key)
    requires Leaves(st) ==> !Minds(p, k)
    ensures Mindful(p, PutBackMove(p, st), have, k)
  {
  }

  lemma BumpMindful(p: Proc, st: Step, have: int, k: Key)
    requires !InFlush(p) && !InCheck(p) && (Leaves(st) ==> !Minds(p, k))
    ensures Mindful(p, BumpMove(p, st), have, k)
  {
  }

  lemma CheckMindful(p: Proc, st: Step, have: int, k: Key)
    requires InCheck(p)
    ensures Mindful(p, CheckMove(p, st, have), have, k)
  {
  }

  lemma CrashMindful(p: Proc, have: int, k: Key)
    requires !Minds(p, k)
    ensures var st := Crash(0); Mindful(p, MoveOf(p, st, have), have, k)
  {
    hide BumpMove, FlushMove, PutBackMove, CheckMove;
  }

  lemma MoveMindful(p: Proc, st: Step, have: int, k: Key)
    requires Leaves(st) ==> !Minds(p, k)
    requires (st.FlushEnd? && p.Flushing? ==> p.todo == []) && (st.ReaddOk? && p.Unread? ==> p.todo != [])
    ensures Mindful(p, MoveOf(p, st, have), have, k)
  {
    if st.Crash? {
      CrashMindful(p, have, k);
    } else {
      hide BumpMove, FlushMove, PutBackMove, CheckMove, Mindful, Minds;
      if p.Flushing? || p.Unread? || p.Holding? {
        FlushMindful(p, st, have, k);
      } else if p.PutBack? || p.PutBackStored? || p.PutBackUndo? {
        PutBackMindful(p, st, have, k);
      } else if InCheck(p) {
        CheckMindful(p, st, have, k);
      } else {
        BumpMindful(p, st, have, k);
      }
    }
  }

  lemma EnabledHasTodo(s: State, st: Step)
    requires Enabled(s, st)
    ensures st.p < |s.procs| && (st.ReaddOk? && s.procs[st.p].Unread? ==> s.procs[st.p].todo != [])
  {
  }

  lemma MoveNoticed(s: State, st: Step, s': State, k: Key)
    requires Noticed(s, k) && Enabled(s, st) && Moves(st) && s' == Next(s, st) && !Strands(s, st, k)
    ensures Noticed(s', k)
  {
    hide MoveOf, Enabled, Next, Filed, At, Plus, Minds;
    NextMoves(s, st, s');
    FiledFrame(s, st);
    EnabledHasTodo(s, st);
    var p := s.procs[st.p];
    var m := MoveOf(p, st, Have(s, p));
    MoveMindful(p, st, Have(s, p), k);
    PlusAt(s.delta, m.k, m.delta, k);
    assert s'.procs[st.p] == m.next;
    if At(s'.delta, k) != 0 && At(s.delta, k) != 0 && k !in s.dirty {
      var j :| 0 <= j < |s.procs| && Minds(s.procs[j], k);
      if j != st.p {
        assert s'.procs[j] == s.procs[j];
      }
    }
  }

  lemma OtherMinds(s: State, st: Step, s': State, k: Key)
    requires Enabled(s, st) && !Moves(st) && s' == Next(s, st)
    ensures s'.delta == s.delta && st.p < |s.procs| && s'.procs == s.procs[st.p := s'.procs[st.p]]
    ensures k in s.dirty ==> k in s'.dirty || Minds(s'.procs[st.p], k)
    ensures !Minds(s.procs[st.p], k)
  {
    hide Next, Enabled, ReadAll, AfterRepair, At;
    NextOthers(s, st, s');
  }

  lemma OtherNoticed(s: State, st: Step, s': State, k: Key)
    requires Noticed(s, k) && Enabled(s, st) && !Moves(st) && s' == Next(s, st)
    ensures Noticed(s', k)
  {
    OtherMinds(s, st, s', k);
    hide Next, Enabled, Minds;
    if At(s'.delta, k) != 0 && k !in s.dirty {
      var j :| 0 <= j < |s.procs| && Minds(s.procs[j], k);
      assert s'.procs[j] == s.procs[j];
    }
  }

  /** Whatever else fails, a stored delta is not forgotten: as long as no undo, no failing SADD after a
      failed GETDEL and no crash happens to a process that minds k, its delta is dirty or minded. */
  lemma {:induction false} DeltaIsNoticed(s: State, steps: seq<Step>, k: Key)
    requires Noticed(s, k) && Runs(s, steps) && StrandFree(s, steps, k)
    ensures Noticed(End(s, steps), k)
    decreases |steps|
  {
    if steps != [] {
      hide Next, Enabled, Noticed, Strands;
      if Moves(steps[0]) {
        MoveNoticed(s, steps[0], Next(s, steps[0]), k);
      } else {
        OtherNoticed(s, steps[0], Next(s, steps[0]), k);
      }
      DeltaIsNoticed(Next(s, steps[0]), steps[1..], k);
    }
  }

  lemma NothingStored(s: State, k: Key)
    requires Init(s)
    ensures Noticed(s, k)
  {
  }

  // ── an undo that comes too late ──

  /** What the GETDELs of a run take of k, and what its INCRBYs add. */
  function TakenIn(s: State, steps: seq<Step>, k: Key): int
    decreases |steps|
  {
    if steps == [] then 0
    else (if steps[0].p < |s.procs| then Taken(s.procs[steps[0].p], steps[0], At(s.delta, k), k) else 0) + TakenIn(Next(s, steps[0]), steps[1..], k)
  }

  function PutIn(s: State, steps: seq<Step>, k: Key): int
    decreases |steps|
  {
    if steps == [] then 0
    else (if steps[0].p < |s.procs| then Put(s.procs[steps[0].p], steps[0], k) else 0) + PutIn(Next(s, steps[0]), steps[1..], k)
  }

  lemma {:induction false} DrainedParts(s: State, steps: seq<Step>, k: Key)
    ensures Drained(s, steps, k) == TakenIn(s, steps, k) - PutIn(s, steps, k)
    decreases |steps|
  {
    hide Next, Taken, Put, At;
    if steps != [] {
      DrainedParts(Next(s, steps[0]), steps[1..], k);
    }
  }

  /** From any state to the end of an increment of k by p that is stored, not scheduled and undone, with
      mid in between: Redis keeps no trace of it, only what the others added, exactly when no flush
      took anything of k in between; otherwise what was taken is missing. */
  lemma {:induction false} UndoLeavesNoTraceIff(s: State, p: nat, mid: seq<Step>, k: Key, n: int, s1: State, s2: State, e: State)
    requires p < |s.procs| && s.procs[p] == Bump(k, n) && s1 == Next(s, IncrOk(p))
    requires Runs(s1, mid) && s2 == End(s1, mid) && p < |s2.procs| && s2.procs[p] == Undo(k, n) && e == Next(s2, UndoOk(p))
    ensures Enabled(s, IncrOk(p)) && Enabled(s2, UndoOk(p)) && At(e.delta, k) == At(s.delta, k) + PutIn(s1, mid, k) - TakenIn(s1, mid, k)
    ensures At(e.delta, k) == At(s.delta, k) + PutIn(s1, mid, k) <==> TakenIn(s1, mid, k) == 0
  {
    hide Enabled, Next, Runs, End, At, Drained;
    DeltaStored(s, p, k, n, s1);
    assert Booked(s, s1, k, k, n, 0);
    RunDrains(s1, mid, k);
    DrainedParts(s1, mid, k);
    Undone(s2, p, k, n, e);
    assert Booked(s2, e, k, k, -n, 0);
  }

  lemma Unscheduled(s: State, p: nat, k: Key, n: int, s': State)
    requires p < |s.procs| && s.procs[p] == Stored(k, n) && s' == Next(s, SaddFail(p))
    ensures Enabled(s, SaddFail(p)) && After(s, s', k, RowsOf(s, k), s.dirty, p, Undo(k, n), 0, 0)
  {
    StepBooked(s, SaddFail(p), s', Move(NO_KEY, 0, 0, 0, 0, false, true, Undo(k, n)));
  }

  lemma Undone(s: State, p: nat, k: Key, n: int, s': State)
    requires p < |s.procs| && s.procs[p] == Undo(k, n) && s' == Next(s, UndoOk(p))
    ensures Enabled(s, UndoOk(p)) && After(s, s', k, RowsOf(s, k), s.dirty, p, Direct(k, n), -n, 0)
  {
    StepBooked(s, UndoOk(p), s', Move(k, 0, 0, -n, 0, false, false, Direct(k, n)));
  }

  lemma Moved(s: State, s': State, k: Key, rows: Rows, dirty: set<Key>, p: nat, q: Proc, delta: int)
    requires After(s, s', k, rows, dirty, p, q, delta, 0)
    ensures p < |s.procs| && s'.procs == s.procs[p := q] && s'.dirty == dirty && RowsOf(s', k) == rows && At(s'.delta, k) == At(s.delta, k) + delta
  {
    hide At, RowsOf;
    assert Booked(s, s', k, k, delta, 0);
  }

  lemma TwoStored(s: State, k: Key, a: Row, b: Row) returns (e: State)
    requires |s.procs| >= 2 && s.procs[0].Idle? && s.procs[1].Idle?
    requires a.id !in RowsOf(s, k) && b.id !in RowsOf(s, k) && a.id != b.id
    ensures var steps := [Insert(1, k, b), IncrOk(1)] + [Insert(0, k, a), IncrOk(0)]; Runs(s, steps) && e == End(s, steps)
    ensures e.procs == s.procs[1 := Stored(k, 1)][0 := Stored(k, 1)] && e.dirty == s.dirty && At(e.delta, k) == At(s.delta, k) + 2
  {
    hide Enabled, Next, Runs, End, At, RowsOf, After;
    var rows := RowsOf(s, k)[b.id := b.at];
    var s1 := Next(s, Insert(1, k, b));
    var s2 := Next(s1, IncrOk(1));
    Inserted(s, 1, k, b, s1);
    Moved(s, s1, k, rows, s.dirty, 1, Bump(k, 1), 0);
    DeltaStored(s1, 1, k, 1, s2);
    Moved(s1, s2, k, rows, s.dirty, 1, Stored(k, 1), 1);
    var s3 := Next(s2, Insert(0, k, a));
    e := Next(s3, IncrOk(0));
    Inserted(s2, 0, k, a, s3);
    Moved(s2, s3, k, rows[a.id := a.at], s.dirty, 0, Bump(k, 1), 0);
    DeltaStored(s3, 0, k, 1, e);
    Moved(s3, e, k, rows[a.id := a.at], s.dirty, 0, Stored(k, 1), 1);
    Two(s, Insert(1, k, b), IncrOk(1));
    Two(s2, Insert(0, k, a), IncrOk(0));
    RunsJoin(s, [Insert(1, k, b), IncrOk(1)], [Insert(0, k, a), IncrOk(0)]);
  }

  lemma FlushedTogether(s: State, k: Key) returns (e: State)
    requires |s.procs| >= 2 && s.procs[0] == Stored(k, 1) && At(s.delta, k) == 2
    ensures var steps := [SaddOk(0), Pop(0, [k])] + [GetOk(0)]; Runs(s, steps) && e == End(s, steps)
    ensures e.procs == s.procs[0 := Holding(k, 2, [], false)] && e.dirty == s.dirty + {k} - {k} && At(e.delta, k) == 0
  {
    hide Enabled, Next, Runs, End, At, RowsOf, After;
    var s1 := Next(s, SaddOk(0));
    var s2 := Next(s1, Pop(0, [k]));
    DeltaScheduled(s, 0, k, 1, s1);
    Moved(s, s1, k, RowsOf(s, k), s.dirty + {k}, 0, Idle, 0);
    KeyPopped(s1, 0, k, s2);
    Moved(s1, s2, k, RowsOf(s1, k), s.dirty + {k} - {k}, 0, Flushing([k], false), 0);
    e := Next(s2, GetOk(0));
    DeltaRead(s2, 0, k, 2, e);
    Moved(s2, e, k, RowsOf(s2, k), s2.dirty, 0, Holding(k, 2, [], false), -2);
    Two(s, SaddOk(0), Pop(0, [k]));
    One(s2, GetOk(0));
    RunsJoin(s, [SaddOk(0), Pop(0, [k])], [GetOk(0)]);
  }

  lemma ThenUndone(s: State, k: Key) returns (e: State)
    requires |s.procs| >= 2 && s.procs[1] == Stored(k, 1)
    ensures Runs(s, [SaddFail(1), UndoOk(1)]) && e == End(s, [SaddFail(1), UndoOk(1)])
    ensures e.procs == s.procs[1 := Direct(k, 1)] && e.dirty == s.dirty && At(e.delta, k) == At(s.delta, k) - 1
  {
    hide Enabled, Next, Runs, End, At, RowsOf, After;
    var s1 := Next(s, SaddFail(1));
    Unscheduled(s, 1, k, 1, s1);
    Moved(s, s1, k, RowsOf(s, k), s.dirty, 1, Undo(k, 1), 0);
    e := Next(s1, UndoOk(1));
    Undone(s1, 1, k, 1, e);
    Moved(s1, e, k, RowsOf(s1, k), s.dirty, 1, Direct(k, 1), -1);
    Two(s, SaddFail(1), UndoOk(1));
  }

  /** A like by process 1 is stored; one by process 0 is stored, scheduled and flushed with it; then
      the first cannot be scheduled and is undone. */
  function UndoneLate(k: Key, a: Row, b: Row): seq<Step> {
    ([Insert(1, k, b), IncrOk(1)] + [Insert(0, k, a), IncrOk(0)]) + (([SaddOk(0), Pop(0, [k])] + [GetOk(0)]) + [SaddFail(1), UndoOk(1)])
  }

  /** So "not recorded" need not mean that nothing is left in Redis: from any state in which k has no
      delta, and nobody minds it, this is a run, and it leaves a delta of -1 that no flush will come
      to until the next increment of k. */
  lemma {:induction false} UndoAfterFlush(s: State, k: Key, a: Row, b: Row) returns (e: State)
    requires |s.procs| >= 2 && s.procs[0].Idle? && s.procs[1].Idle? && At(s.delta, k) == 0 && k !in s.dirty
    requires a.id !in RowsOf(s, k) && b.id !in RowsOf(s, k) && a.id != b.id && forall j :: 0 <= j < |s.procs| ==> !Minds(s.procs[j], k)
    ensures Runs(s, UndoneLate(k, a, b)) && e == End(s, UndoneLate(k, a, b))
    ensures At(e.delta, k) == -1 && !Awaited(e, k)
  {
    hide Enabled, Next, Runs, End, At, RowsOf;
    var s1 := TwoStored(s, k, a, b);
    var s2 := FlushedTogether(s1, k);
    e := ThenUndone(s2, k);
    var first, second, third := [Insert(1, k, b), IncrOk(1)] + [Insert(0, k, a), IncrOk(0)], [SaddOk(0), Pop(0, [k])] + [GetOk(0)], [SaddFail(1), UndoOk(1)];
    RunsJoin(s1, second, third);
    RunsJoin(s, first, second + third);
    assert e.procs == s.procs[1 := Direct(k, 1)][0 := Holding(k, 2, [], false)];
  }
}
