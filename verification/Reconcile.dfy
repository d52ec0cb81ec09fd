/** The reconciler of services/post/service/reconcile.go on the counter machine: what its two guards
    see of what is outstanding, and when a repair that gets past them is exact. */
module Reconcile {
  import opened Counter

  /** How far the count is from the rows once everything outstanding is flushed. */
  function Error(s: State, k: Key): int { At(s.db, k) + Outstanding(s, k) - Total(s, k) }

  /** An applied repair of i whose column it read as f. */
  ghost predicate Repairs(s: State, i: nat, f: Reading) {
    Applies(s, i) && (f == s.procs[i].c.like || f == s.procs[i].c.share)
  }

  /** Whatever ran between the snapshot and the conditional UPDATE, the error a repair leaves is
      what was outstanding at the snapshot, plus what other repairs added and minus what was lost
      since. */
  lemma {:induction false} RepairError(s0: State, steps: seq<Step>, i: nat, f: Reading, s: State, s': State)
    requires Inv(s0) && Runs(s0, steps) && s == End(s0, steps) && Repairs(s, i, f) && s' == Next(s, Repair(i))
    ensures Error(s', f.k) == f.out + (At(s.repaired, f.k) - f.repaired) - (At(s.lost, f.k) - f.lost)
  {
    RunInv(s0, steps);
    RepairErrorAt(s, i, f, s');
  }

  lemma RepairsMeans(s: State, i: nat, f: Reading)
    requires Repairs(s, i, f)
    ensures Enabled(s, Repair(i)) && i < |s.procs| && s.procs[i].Looking? && (f == s.procs[i].c.like || f == s.procs[i].c.share)
  {
    hide At;
  }

  /** The column a repair writes gets the rows read. */
  lemma RepairSets(db: map<Key, int>, c: Check, f: Reading)
    requires c.like.k != c.share.k && (f == c.like || f == c.share) && At(db, f.k) == f.count
    ensures At(AfterRepair(db, c), f.k) == f.rows
  {
    PlusAt(db, c.like.k, c.like.rows - c.like.count, f.k);
    PlusAt(Plus(db, c.like.k, c.like.rows - c.like.count), c.share.k, c.share.rows - c.share.count, f.k);
  }

  lemma RepairErrorAt(s: State, i: nat, f: Reading, s': State)
    requires Inv(s) && Repairs(s, i, f) && s' == Next(s, Repair(i))
    ensures Error(s', f.k) == f.out + (At(s.repaired, f.k) - f.repaired) - (At(s.lost, f.k) - f.lost)
  {
    hide Next, Enabled, AfterRepair, At, Applies, AllOwed, Total;
    RepairsMeans(s, i, f);
    RepairEffect(s, i, s');
    var c := s.procs[i].c;
    assert GoodProc(s.procs[i]) && Balanced(s, f.k);
    OwedUpdate(s.procs, i, Checking(s.procs[i].checks), f.k);
    RepairSets(s.db, c, f);
    SameTable(s, s', f.k);
  }

  /** With nothing lost and nothing repaired by others since, a repair is exact if and only if
      nothing was outstanding at its snapshot. */
  lemma RepairExactIff(s0: State, steps: seq<Step>, i: nat, f: Reading, s: State, s': State)
    requires Inv(s0) && Runs(s0, steps) && s == End(s0, steps) && Repairs(s, i, f) && s' == Next(s, Repair(i))
    requires At(s.lost, f.k) == f.lost && At(s.repaired, f.k) == f.repaired
    ensures At(s'.db, f.k) + Outstanding(s', f.k) == Total(s', f.k) <==> f.out == 0
  {
    RepairError(s0, steps, i, f, s, s');
  }

  // ── what the reconciler's guards see ──

  /** A request between its committed row change and Redis or the column. */
  predicate Bumping(p: Proc, k: Key) { (p.Bump? || p.Direct?) && p.k == k }

  /** The row a process inserted is in the table as it inserted it. */
  predicate HasRow(s: State, l: nat, k: Key) {
    l in s.origin && s.origin[l].id in RowsOf(s, k) && RowsOf(s, k)[s.origin[l].id] == s.origin[l].at
  }

  /** A flusher between GETDEL and the UPDATE or the put-back. */
  predicate Flusher(p: Proc, k: Key) { (p.Holding? || p.PutBack?) && p.k == k }

  /** An unlike, or a like taken back meanwhile: a request with no row to show for its amount. */
  predicate Rowless(s: State, l: nat, k: Key)
    requires l < |s.procs|
  {
    Bumping(s.procs[l], k) && !HasRow(s, l, k)
  }

  /** A request's amount is 1 when it inserted a row and -1 when it deleted one: what is rowless is an
      unlike, or a like whose row was deleted meanwhile. */
  predicate Sign(p: Proc, inserted: bool) {
    (p.Bump? || p.Stored? || p.Undo? || p.Direct?) ==> p.n == if inserted then 1 else -1
  }

  ghost predicate Signed(s: State) {
    forall l: nat :: l < |s.procs| ==> Sign(s.procs[l], l in s.origin)
  }

  lemma BumpSigned(p: Proc, st: Step, inserted: bool)
    requires Sign(p, inserted) && (st.Insert? || st.Delete? ==> p.Idle?)
    ensures Sign(BumpMove(p, st).next, if st.Insert? then true else if st.Delete? then false else inserted)
  {
  }

  lemma MoveSigned(p: Proc, st: Step, have: int, inserted: bool)
    requires Sign(p, inserted) && (st.Insert? || st.Delete? ==> p.Idle?)
    ensures Sign(MoveOf(p, st, have).next, if st.Insert? then true else if st.Delete? then false else inserted)
  {
    hide CheckMove, FlushMove, PutBackMove, BumpMove;
    MoveKind(p, st, have);
    BumpSigned(p, st, inserted);
  }

  lemma FiledOrigin(s: State, st: Step, l: nat)
    ensures l in Filed(s, st).origin <==> (st.Insert? && st.p == l) || (l in s.origin && !(st.Delete? && st.p == l))
  {
  }

  lemma MoveStaysSigned(s: State, st: Step, s': State)
    requires Signed(s) && Enabled(s, st) && Moves(st) && s' == Next(s, st)
    ensures Signed(s')
  {
    hide Next, Enabled, MoveOf, Sign, Filed, At, Plus, Have;
    OnlyIdleCommits(s, st);
    NextMoves(s, st, s');
    FiledFrame(s, st);
    MoveSigned(s.procs[st.p], st, Have(s, s.procs[st.p]), st.p in s.origin);
    forall l: nat | l < |s'.procs| ensures Sign(s'.procs[l], l in s'.origin) {
      FiledOrigin(s, st, l);
      if l != st.p {
        assert s'.procs[l] == s.procs[l];
      }
    }
  }

  lemma OthersStay(s: State, st: Step, s': State)
    requires Enabled(s, st) && !Moves(st) && s' == Next(s, st)
    ensures st.p < |s.procs| && s'.procs == s.procs[st.p := s'.procs[st.p]] && s'.origin == s.origin
    ensures s'.procs[st.p].Flushing? || s'.procs[st.p].Checking?
  {
    hide Next, Enabled, ReadAll, AfterRepair, At;
    NextOthers(s, st, s');
  }

  lemma StepSigned(s: State, st: Step, s': State)
    requires Signed(s) && Enabled(s, st) && s' == Next(s, st)
    ensures Signed(s')
  {
    hide Next, Enabled, Sign, ReadAll, AfterRepair, At, Filed, MoveOf;
    if Moves(st) {
      hide Signed;
      MoveStaysSigned(s, st, s');
    } else {
      OthersStay(s, st, s');
      OthersUnsigned(s'.procs[st.p], st.p in s.origin);
    }
  }

  lemma OnlyIdleCommits(s: State, st: Step)
    requires Enabled(s, st)
    ensures st.p < |s.procs| && (st.Insert? || st.Delete? ==> s.procs[st.p].Idle?)
  {
  }

  lemma OthersUnsigned(p: Proc, inserted: bool)
    requires p.Flushing? || p.Checking?
    ensures Sign(p, inserted)
  {
  }

  lemma {:induction false} RunSigned(s: State, steps: seq<Step>)
    requires Signed(s) && Runs(s, steps)
    ensures Signed(End(s, steps))
    decreases |steps|
  {
    if steps != [] {
      StepSigned(s, steps[0], Next(s, steps[0]));
      RunSigned(Next(s, steps[0]), steps[1..]);
    }
  }

  /** The amount of k that no guard can see in process l. */
  function HiddenIn(s: State, l: nat, k: Key): int
    requires l < |s.procs|
  {
    if Flusher(s.procs[l], k) || Rowless(s, l, k) then s.procs[l].n else 0
  }

  function HiddenFrom(s: State, l: nat, k: Key): int
    requires l <= |s.procs|
    decreases |s.procs| - l
  {
    if l == |s.procs| then 0 else HiddenIn(s, l, k) + HiddenFrom(s, l + 1, k)
  }

  function Hidden(s: State, k: Key): int { HiddenFrom(s, 0, k) }

  /** Likes and shares reach Redis or the column within Quiet: what is still in a request's hands
      was inserted after since. */
  ghost predicate InTime(s: State, k: Key, since: int) {
    forall l: nat :: l < |s.procs| && Bumping(s.procs[l], k) && l in s.origin ==> s.origin[l].at > since
  }

  lemma {:induction false} QuietHides(s: State, l: nat, k: Key, since: int)
    requires l <= |s.procs| && !NewerThan(RowsOf(s, k), since) && InTime(s, k, since)
    ensures HiddenFrom(s, l, k) == AllOwed(s.procs[l..], k)
    decreases |s.procs| - l
  {
    if l < |s.procs| {
      assert s.procs[l..][0] == s.procs[l] && s.procs[l..][1..] == s.procs[l + 1..];
      QuietHides(s, l + 1, k, since);
    }
  }

  /** What is outstanding of a post that is not busy is in Redis or hidden. */
  lemma {:induction false} SnapshotSees(s: State, k: Key, since: int)
    requires (k.field == LIKES || k.field == SHARES) && !Busy(s, k.id, since) && InTime(s, k, since)
    ensures Outstanding(s, k) == At(s.delta, k) + Hidden(s, k)
  {
    assert Key(k.id, k.field) == k && s.procs[0..] == s.procs;
    QuietHides(s, 0, k, since);
  }

  /** What a GETDEL takes out of Redis, where have is the delta stored. */
  function Taken(p: Proc, st: Step, have: int, k: Key): int {
    if st.GetOk? && Reads(p, k) then have else 0
  }

  /** What an INCRBY adds to Redis. */
  function Put(p: Proc, st: Step, k: Key): int {
    match (st, p)
    case (IncrOk(_), Bump(k', n)) => if k' == k then n else 0
    case (BackOk(_), PutBack(k', n, _)) => if k' == k then n else 0
    case (UndoOk(_), Undo(k', n)) => if k' == k then -n else 0
    case (UndoOk(_), PutBackUndo(k', n, _)) => if k' == k then -n else 0
    case _ => 0
  }

  /** What a step pops of k's delta, less what it adds. */
  function Drain(s: State, st: Step, k: Key): int {
    if st.p >= |s.procs| then 0
    else Taken(s.procs[st.p], st, At(s.delta, k), k) - Put(s.procs[st.p], st, k)
  }

  /** The deltas of k a run pops, less what it adds. */
  function Drained(s: State, steps: seq<Step>, k: Key): int
    decreases |steps|
  {
    if steps == [] then 0 else Drain(s, steps[0], k) + Drained(Next(s, steps[0]), steps[1..], k)
  }

  predicate Drains(p: Proc, m: Move, st: Step, have: int, k: Key) {
    (if m.k == k then m.delta else 0) == Put(p, st, k) - Taken(p, st, have, k)
  }

  lemma BumpDrains(p: Proc, st: Step, have: int, k: Key)
    requires !p.Flushing? && !p.PutBack? && !p.PutBackUndo?
    ensures Drains(p, BumpMove(p, st), st, have, k)
  {
  }

  lemma FlushDrains(p: Proc, st: Step, have: int, k: Key)
    requires (p.Flushing? || p.Unread? || p.Holding?)
    ensures Drains(p, FlushMove(p, st, have), st, have, k)
  {
  }

  lemma PutBackDrains(p: Proc, st: Step, have: int, k: Key)
    requires p.PutBack? || p.PutBackStored? || p.PutBackUndo?
    ensures Drains(p, PutBackMove(p, st), st, have, k)
  {
  }

  lemma CheckDrains(p: Proc, st: Step, h: int, have: int, k: Key)
    requires p.Checking? || p.Looking?
    ensures Drains(p, CheckMove(p, st, h), st, have, k)
  {
  }

  lemma MoveDrains(p: Proc, st: Step, h: int, have: int, k: Key)
    requires Reads(p, k) ==> h == have
    ensures Drains(p, MoveOf(p, st, h), st, have, k)
  {
    hide BumpMove, FlushMove, PutBackMove, CheckMove;
    if st.Crash? {
    } else if p.Flushing? || p.Unread? || p.Holding? {
      FlushDrains(p, st, h, k);
    } else if p.PutBack? || p.PutBackStored? || p.PutBackUndo? {
      PutBackDrains(p, st, have, k);
    } else if p.Checking? || p.Looking? {
      CheckDrains(p, st, h, have, k);
    } else {
      BumpDrains(p, st, have, k);
    }
  }

  lemma StepDrains(s: State, st: Step, s': State, k: Key)
    requires Enabled(s, st) && s' == Next(s, st)
    ensures At(s'.delta, k) == At(s.delta, k) - Drain(s, st, k)
  {
    if Moves(st) {
      hide Next, Enabled, MoveOf, Put, Taken, At, Plus, Filed;
      NextMoves(s, st, s');
      FiledFrame(s, st);
      var p := s.procs[st.p];
      var m := MoveOf(p, st, Have(s, p));
      MoveDrains(p, st, Have(s, p), At(s.delta, k), k);
      PlusAt(s.delta, m.k, m.delta, k);
    } else {
      OthersDrain(s, st, s', k);
    }
  }

  lemma OthersDrain(s: State, st: Step, s': State, k: Key)
    requires Enabled(s, st) && !Moves(st) && s' == Next(s, st)
    ensures s'.delta == s.delta && Drain(s, st, k) == 0
  {
    hide Next, Enabled, Put, Taken, ReadAll, AfterRepair, At;
    NextOthers(s, st, s');
    OthersPutNothing(s.procs[st.p], st, At(s.delta, k), k);
  }

  lemma OthersPutNothing(p: Proc, st: Step, have: int, k: Key)
    requires !Moves(st)
    ensures Put(p, st, k) == 0 && Taken(p, st, have, k) == 0
  {
  }

  lemma {:induction false} RunDrains(s: State, steps: seq<Step>, k: Key)
    requires Runs(s, steps)
    ensures At(End(s, steps).delta, k) == At(s.delta, k) - Drained(s, steps, k)
    decreases |steps|
  {
    if steps != [] {
      StepDrains(s, steps[0], Next(s, steps[0]), k);
      RunDrains(Next(s, steps[0]), steps[1..], k);
    }
  }

  // ── every applied repair passed both looks ──

  ghost predicate NoSnapshot(steps: seq<Step>, i: nat) {
    forall j :: 0 <= j < |steps| ==> !(steps[j].Snapshot? && steps[j].p == i)
  }

  /** What a reconciler still has to check, and is checking, comes from its batch. */
  ghost predicate FromBatch(p: Proc, batch: seq<Check>) {
    && (p.Checking? || p.Looking? ==> forall j :: 0 <= j < |p.checks| ==> p.checks[j] in batch)
    && (p.Looking? ==> p.c in batch)
  }

  lemma MoveFromBatch(p: Proc, st: Step, have: int, batch: seq<Check>)
    requires FromBatch(p, batch)
    ensures FromBatch(MoveOf(p, st, have).next, batch)
  {
    CheckFromBatch(p, st, have, batch);
    hide CheckMove;
  }

  lemma CheckFromBatch(p: Proc, st: Step, have: int, batch: seq<Check>)
    requires FromBatch(p, batch)
    ensures FromBatch(CheckMove(p, st, have).next, batch)
  {
  }

  lemma OthersFromBatch(p: Proc, q: Proc, batch: seq<Check>)
    requires FromBatch(p, batch) && (q == p || q.Flushing? || (p.Looking? && q == Checking(p.checks)))
    ensures FromBatch(q, batch)
  {
  }

  lemma StepFromBatch(s: State, st: Step, s': State, i: nat, batch: seq<Check>)
    requires i < |s.procs| && FromBatch(s.procs[i], batch) && Enabled(s, st) && s' == Next(s, st)
    requires !(st.Snapshot? && st.p == i)
    ensures i < |s'.procs| && FromBatch(s'.procs[i], batch)
  {
    hide Next, Enabled, MoveOf, Filed, At, FromBatch, ReadAll, AfterRepair;
    if Moves(st) {
      NextMoves(s, st, s');
      FiledFrame(s, st);
      if st.p == i {
        MoveFromBatch(s.procs[i], st, Have(s, s.procs[i]), batch);
      }
    } else {
      NextOthers(s, st, s');
      OthersFromBatch(s.procs[i], s'.procs[i], batch);
    }
  }

  /** Step j is a look of i that finds no delta of k. */
  ghost predicate FoundNone(s: State, steps: seq<Step>, i: nat, k: Key, j: nat) {
    j < |steps| && steps[j] == Look(i) && At(End(s, steps[..j]).delta, k) == 0
  }

  ghost predicate Passed(s: State, steps: seq<Step>, i: nat, k: Key) {
    exists j: nat :: FoundNone(s, steps, i, k, j)
  }

  /** A reconciler looking at a post has passed every key that is not ahead of it. */
  ghost predicate LooksDone(s: State, steps: seq<Step>, i: nat, p: Proc) {
    p.Looking? ==>
      forall k :: k == p.c.like.k || k == p.c.share.k ==> k in p.keys || Passed(s, steps, i, k)
  }

  lemma PassedStays(s: State, pre: seq<Step>, st: Step, i: nat, k: Key)
    requires Passed(s, pre, i, k)
    ensures Passed(s, pre + [st], i, k)
  {
    var j: nat :| FoundNone(s, pre, i, k, j);
    assert (pre + [st])[..j] == pre[..j];
    assert FoundNone(s, pre + [st], i, k, j);
  }

  lemma PassedNow(s: State, pre: seq<Step>, i: nat, k: Key)
    requires At(End(s, pre).delta, k) == 0
    ensures Passed(s, pre + [Look(i)], i, k)
  {
    assert (pre + [Look(i)])[..|pre|] == pre;
    assert FoundNone(s, pre + [Look(i)], i, k, |pre|);
  }

  /** How a process comes to be looking: at the full list, or by passing one key. */
  ghost predicate LooksOn(p: Proc, st: Step, have: int, q: Proc) {
    q.Looking? && q != p ==>
      (forall k :: k == q.c.like.k || k == q.c.share.k ==> k in q.keys)
      || (st.Look? && p.Looking? && p.keys != [] && have == 0 && q == Looking(p.c, p.keys[1..], p.checks))
  }

  lemma CheckLooks(p: Proc, st: Step, have: int)
    ensures LooksOn(p, st, have, CheckMove(p, st, have).next)
  {
  }

  lemma MoveLooks(p: Proc, st: Step, have: int)
    ensures LooksOn(p, st, have, MoveOf(p, st, have).next)
  {
    CheckLooks(p, st, have);
    hide CheckMove, LooksOn;
    if st.Crash? || (!p.Checking? && !p.Looking?) {
      NoLook(p, st, have);
    }
  }

  lemma NoLook(p: Proc, st: Step, have: int)
    requires st.Crash? || !InCheck(p)
    ensures LooksOn(p, st, have, MoveOf(p, st, have).next)
  {
    hide CheckMove, FlushMove, PutBackMove, BumpMove;
    MoveKind(p, st, have);
  }

  lemma StepLooks(s1: State, pre: seq<Step>, st: Step, i: nat, s: State, s': State)
    requires s == End(s1, pre) && Enabled(s, st) && s' == Next(s, st) && i < |s.procs|
    requires LooksDone(s1, pre, i, s.procs[i])
    ensures i < |s'.procs| && LooksDone(s1, pre + [st], i, s'.procs[i])
  {
    var p := s.procs[i];
    StepMoves(s, st, s', i);
    hide Next, Enabled, End, Runs;
    var q := s'.procs[i];
    if q.Looking? {
      forall k | (k == q.c.like.k || k == q.c.share.k) && k !in q.keys ensures Passed(s1, pre + [st], i, k) {
        if q == p {
          PassedStays(s1, pre, st, i, k);
        } else {
          MoveLooks(p, st, Have(s, p));
          if k == p.keys[0] {
            PassedNow(s1, pre, i, k);
          } else {
            assert k !in p.keys;
            PassedStays(s1, pre, st, i, k);
          }
        }
      }
    }
  }

  /** Another process's step leaves i where it is; its own either moves it or is none of a look's. */
  lemma StepMoves(s: State, st: Step, s': State, i: nat)
    requires Enabled(s, st) && s' == Next(s, st) && i < |s.procs|
    ensures i < |s'.procs| && (st.p != i ==> s'.procs[i] == s.procs[i])
    ensures st.p == i && s'.procs[i].Looking? ==> s'.procs[i] == MoveOf(s.procs[i], st, Have(s, s.procs[i])).next
  {
    hide Next, Enabled, MoveOf, Filed, At, ReadAll, AfterRepair, Plus;
    if Moves(st) {
      NextMoves(s, st, s');
      FiledFrame(s, st);
    } else {
      OthersStay(s, st, s');
    }
  }

  lemma OneStep(s: State, st: Step)
    requires Runs(s, [st])
    ensures Enabled(s, st) && End(s, [st]) == Next(s, st)
  {
    hide Enabled, Next;
    assert [st][1..] == [];
  }

  lemma {:induction false} RunLooks(s1: State, steps: seq<Step>, i: nat, batch: seq<Check>)
    requires Runs(s1, steps) && NoSnapshot(steps, i) && i < |s1.procs| && s1.procs[i] == Checking(batch)
    ensures var s := End(s1, steps); i < |s.procs| && FromBatch(s.procs[i], batch) && LooksDone(s1, steps, i, s.procs[i])
    decreases |steps|
  {
    if steps != [] {
      hide Enabled, Next, FromBatch, LooksDone;
      var pre, st := steps[..|steps| - 1], steps[|steps| - 1];
      assert steps == pre + [st];
      RunsSplit(s1, pre, [st]);
      RunLooks(s1, pre, i, batch);
      var s := End(s1, pre);
      OneStep(s, st);
      hide Runs, End;
      StepFromBatch(s, st, Next(s, st), i, batch);
      StepLooks(s1, pre, st, i, s, Next(s, st));
    }
  }

  lemma BatchReads(s: State, ids: seq<string>, since: int, c: Check)
    requires c in ReadAll(s, ids, since) && !c.busy
    ensures c.like == Read(s, c.like.k) && c.share == Read(s, c.share.k) && !Busy(s, c.like.k.id, since)
    ensures c.like.k.field == LIKES && c.share.k.field == SHARES && c.share.k.id == c.like.k.id
  {
    var batch := ReadAll(s, ids, since);
    var b :| 0 <= b < |batch| && batch[b] == c;
    hide Busy, Read;
    assert c == Check(Read(s, Key(ids[b], LIKES)), Read(s, Key(ids[b], SHARES)), Busy(s, ids[b], since));
    ReadKey(s, Key(ids[b], LIKES));
    ReadKey(s, Key(ids[b], SHARES));
  }

  lemma ReadKey(s: State, k: Key)
    ensures Read(s, k).k == k
  {
  }

  lemma AppliesMeans(s: State, i: nat)
    requires Applies(s, i)
    ensures i < |s.procs| && s.procs[i].Looking? && s.procs[i].keys == [] && !s.procs[i].c.busy
  {
  }

  lemma SnapshotMeans(s: State, i: nat, ids: seq<string>, since: int, s': State)
    requires Enabled(s, Snapshot(i, ids, since)) && s' == Next(s, Snapshot(i, ids, since))
    ensures i < |s.procs| && s' == s.(procs := s.procs[i := Checking(ReadAll(s, ids, since))])
  {
  }

  /** What an applied repair read at its snapshot, and the look that found no delta of f's column. */
  lemma {:induction false} RepairPassed(s0: State, ids: seq<string>, since: int, steps: seq<Step>, i: nat, f: Reading, s1: State, s: State) returns (j: nat)
    requires Enabled(s0, Snapshot(i, ids, since)) && s1 == Next(s0, Snapshot(i, ids, since))
    requires Runs(s1, steps) && NoSnapshot(steps, i) && s == End(s1, steps) && Repairs(s, i, f)
    ensures j < |steps| && FoundNone(s1, steps, i, f.k, j)
    ensures f == Read(s0, f.k) && !Busy(s0, f.k.id, since) && (f.k.field == LIKES || f.k.field == SHARES)
  {
    hide Next, Runs, End, Enabled, Applies, Busy, Read, ReadAll, At, NoSnapshot;
    AppliesMeans(s, i);
    SnapshotMeans(s0, i, ids, since, s1);
    RunLooks(s1, steps, i, ReadAll(s0, ids, since));
    assert Passed(s1, steps, i, f.k);
    BatchReads(s0, ids, since, s.procs[i].c);
    j :| FoundNone(s1, steps, i, f.k, j);
  }

  /** When likes and shares are counted within Quiet, a repair that gets past both guards, with
      nothing lost or repaired by others since its snapshot, is exact if and only if what flushers
      and requests without a row held of the column at the snapshot, together with the deltas popped
      since and before the look at the column's key, comes to nothing. */
  lemma {:induction false} GuardedRepairExactIff(s0: State, ids: seq<string>, since: int, steps: seq<Step>, i: nat, f: Reading, s1: State, s: State, s': State)
    returns (j: nat)
    requires Inv(s0) && Enabled(s0, Snapshot(i, ids, since)) && s1 == Next(s0, Snapshot(i, ids, since))
    requires Runs(s1, steps) && NoSnapshot(steps, i) && s == End(s1, steps)
    requires Repairs(s, i, f) && s' == Next(s, Repair(i))
    requires InTime(s0, f.k, since) && At(s.lost, f.k) == At(s0.lost, f.k) && At(s.repaired, f.k) == At(s0.repaired, f.k)
    ensures j < |steps| && FoundNone(s1, steps, i, f.k, j)
    ensures Error(s', f.k) == 0 <==> Hidden(s0, f.k) + Drained(s1, steps[..j], f.k) == 0
  {
    hide Next, Enabled, Runs, End, Inv, Repairs, Hidden, Busy, InTime, ReadAll, At, Outstanding, Error, NoSnapshot;
    SnapshotMeans(s0, i, ids, since, s1);
    StepInv(s0, Snapshot(i, ids, since));
    j := RepairPassed(s0, ids, since, steps, i, f, s1, s);
    RepairError(s1, steps, i, f, s, s');
    SnapshotSees(s0, f.k, since);
    assert steps == steps[..j] + steps[j..];
    RunsSplit(s1, steps[..j], steps[j..]);
    RunDrains(s1, steps[..j], f.k);
  }

  /** No flusher and no request without a row holds an amount of k. */
  ghost predicate NoneHeld(s: State, k: Key) {
    forall l: nat :: l < |s.procs| ==> HiddenIn(s, l, k) == 0
  }

  /** Every hidden amount of k has the sign given, 1 or -1, so that none can hide another. */
  ghost predicate OneSided(s: State, k: Key, sign: int) {
    forall l: nat :: l < |s.procs| ==> sign * HiddenIn(s, l, k) >= 0
  }

  lemma {:induction false} OneSidedSum(s: State, l: nat, k: Key, sign: int)
    requires l <= |s.procs| && (sign == 1 || sign == -1) && OneSided(s, k, sign)
    ensures sign * HiddenFrom(s, l, k) >= 0
    ensures HiddenFrom(s, l, k) == 0 <==> forall m: nat :: l <= m < |s.procs| ==> HiddenIn(s, m, k) == 0
    decreases |s.procs| - l
  {
    if l < |s.procs| {
      OneSidedSum(s, l + 1, k, sign);
      assert sign * HiddenIn(s, l, k) >= 0;
      assert sign == 1 || sign == -1;
    }
  }

  /** When the amounts cannot cancel, the repair is exact if and only if no flusher and no request
      without a row held any and no delta stored at the snapshot was popped before the look. */
  lemma {:induction false} GuardedRepairExactIffNoneHeld(s0: State, ids: seq<string>, since: int, steps: seq<Step>, i: nat, f: Reading, s1: State, s: State, s': State, sign: int)
    returns (j: nat)
    requires Inv(s0) && Enabled(s0, Snapshot(i, ids, since)) && s1 == Next(s0, Snapshot(i, ids, since))
    requires Runs(s1, steps) && NoSnapshot(steps, i) && s == End(s1, steps)
    requires Repairs(s, i, f) && s' == Next(s, Repair(i))
    requires InTime(s0, f.k, since) && At(s.lost, f.k) == At(s0.lost, f.k) && At(s.repaired, f.k) == At(s0.repaired, f.k)
    requires (sign == 1 || sign == -1) && OneSided(s0, f.k, sign) && sign * At(s0.delta, f.k) >= 0
    ensures j < |steps| && FoundNone(s1, steps, i, f.k, j)
    ensures Error(s', f.k) == 0 <==> NoneHeld(s0, f.k) && Drained(s1, steps[..j], f.k) == 0
  {
    hide Next, Enabled, Runs, End, Inv, Repairs, HiddenIn, Busy, InTime, ReadAll, At, Error, NoSnapshot;
    SnapshotMeans(s0, i, ids, since, s1);
    j := GuardedRepairExactIff(s0, ids, since, steps, i, f, s1, s, s');
    OneSidedSum(s0, 0, f.k, sign);
    assert steps == steps[..j] + steps[j..];
    RunsSplit(s1, steps[..j], steps[j..]);
    RunDrains(s1, steps[..j], f.k);
  }

  /** A stored delta that is still there at the look keeps the reconciler away from the post. */
  lemma {:induction false} StoredDeltaIsSeen(s: State, i: nat)
    requires Enabled(s, Look(i)) && At(s.delta, s.procs[i].keys[0]) != 0
    ensures var s' := Next(s, Look(i)); i < |s'.procs| && s'.procs[i] == Checking(s.procs[i].checks)
  {
  }

  // ── the amounts the guards miss ──

  /** Same columns, deltas and ledgers, as far as any key can tell. */
  ghost predicate SameBooks(s: State, s': State) {
    s'.table == s.table
    && forall k :: At(s'.db, k) == At(s.db, k) && At(s'.delta, k) == At(s.delta, k)
             && At(s'.lost, k) == At(s.lost, k) && At(s'.repaired, k) == At(s.repaired, k)
  }

  lemma GotoKeepsBooks(s: State, i: nat, q: Proc, s': State)
    requires i < |s.procs| && s' == Transfer(s, i, Goto(q))
    ensures SameBooks(s, s')
  {
    forall k
      ensures At(s'.db, k) == At(s.db, k) && At(s'.delta, k) == At(s.delta, k)
      ensures At(s'.lost, k) == At(s.lost, k) && At(s'.repaired, k) == At(s.repaired, k)
    {
      PlusAt(s.db, NO_KEY, 0, k);
      PlusAt(s.delta, NO_KEY, 0, k);
      PlusAt(s.lost, NO_KEY, 0, k);
    }
  }

  lemma JudgeDrifted(s: State, i: nat, c: Check, s': State)
    requires i < |s.procs| && s.procs[i] == Checking([c]) && (c.like.count != c.like.rows || c.share.count != c.share.rows)
    requires s' == Next(s, Judge(i, true))
    ensures Enabled(s, Judge(i, true)) && SameBooks(s, s')
    ensures i < |s'.procs| && s'.procs[i] == Looking(c, [c.like.k, c.share.k], [])
  {
    assert [c][1..] == [];
    GotoKeepsBooks(s, i, Judged(c, true, []), s');
  }

  lemma LookFindsNothing(s: State, i: nat, c: Check, k: Key, keys: seq<Key>, s': State)
    requires i < |s.procs| && s.procs[i] == Looking(c, [k] + keys, []) && At(s.delta, k) == 0
    requires s' == Next(s, Look(i))
    ensures Enabled(s, Look(i)) && SameBooks(s, s')
    ensures i < |s'.procs| && s'.procs[i] == Looking(c, keys, [])
  {
    assert ([k] + keys)[1..] == keys;
    GotoKeepsBooks(s, i, Looking(c, keys, []), s');
  }

  /** A drifted, quiet post without stored deltas gets as far as the UPDATE. */
  lemma QuietGetsRepaired(s: State, i: nat, c: Check, s1: State, s2: State, s3: State)
    requires i < |s.procs| && s.procs[i] == Checking([c]) && !c.busy && (c.like.count != c.like.rows || c.share.count != c.share.rows)
    requires At(s.delta, c.like.k) == 0 && At(s.delta, c.share.k) == 0
    requires s1 == Next(s, Judge(i, true)) && s2 == Next(s1, Look(i)) && s3 == Next(s2, Look(i))
    ensures i < |s3.procs| && s3.procs[i] == Looking(c, [], []) && SameBooks(s, s3)
    ensures Enabled(s, Judge(i, true)) && Enabled(s1, Look(i)) && Enabled(s2, Look(i))
  {
    hide Next, Enabled;
    JudgeDrifted(s, i, c, s1);
    assert [c.like.k, c.share.k] == [c.like.k] + [c.share.k];
    LookFindsNothing(s1, i, c, c.like.k, [c.share.k], s2);
    assert [c.share.k] == [c.share.k] + [];
    LookFindsNothing(s2, i, c, c.share.k, [], s3);
  }

  lemma SnapshotReads(s: State, id: string, since: int, s': State) returns (c: Check)
    requires |s.procs| >= 2 && s.procs[1].Idle? && !Busy(s, id, since) && s' == Next(s, Snapshot(1, [id], since))
    ensures Enabled(s, Snapshot(1, [id], since)) && s' == s.(procs := s.procs[1 := Checking([c])])
    ensures c == Check(Read(s, Key(id, LIKES)), Read(s, Key(id, SHARES)), false)
  {
    c := ReadAll(s, [id], since)[0];
    assert ReadAll(s, [id], since) == [c];
  }

  lemma UnchangedApplies(s: State, i: nat, c: Check)
    requires i < |s.procs| && s.procs[i] == Looking(c, [], []) && !c.busy
    requires At(s.db, c.like.k) == c.like.count && At(s.db, c.share.k) == c.share.count
    ensures Applies(s, i)
  {
  }

  /** A post that has drifted in either column, is not busy and has no stored delta is repaired by
      these five steps, and each count is then off by whatever processes hold of it. */
  lemma {:induction false} GuardsPass(s: State, id: string, since: int) returns (steps: seq<Step>)
    requires Inv(s) && |s.procs| >= 2 && s.procs[1].Idle? && !Busy(s, id, since)
    requires At(s.delta, Key(id, LIKES)) == 0 && At(s.delta, Key(id, SHARES)) == 0
    requires At(s.db, Key(id, LIKES)) != Total(s, Key(id, LIKES)) || At(s.db, Key(id, SHARES)) != Total(s, Key(id, SHARES))
    ensures steps == [Snapshot(1, [id], since), Judge(1, true), Look(1), Look(1), Repair(1)]
    ensures Runs(s, steps) && Error(End(s, steps), Key(id, LIKES)) == AllOwed(s.procs, Key(id, LIKES))
    ensures Error(End(s, steps), Key(id, SHARES)) == AllOwed(s.procs, Key(id, SHARES))
  {
    hide Next, Enabled, Runs, End, Inv, Busy;
    var s1 := Next(s, Snapshot(1, [id], since));
    var s2 := Next(s1, Judge(1, true));
    var s3 := Next(s2, Look(1));
    var s4 := Next(s3, Look(1));
    var c := SnapshotReads(s, id, since, s1);
    QuietGetsRepaired(s1, 1, c, s2, s3, s4);
    StepInv(s, Snapshot(1, [id], since));
    StepInv(s1, Judge(1, true));
    StepInv(s2, Look(1));
    StepInv(s3, Look(1));
    UnchangedApplies(s4, 1, c);
    RepairErrorAt(s4, 1, c.like, Next(s4, Repair(1)));
    RepairErrorAt(s4, 1, c.share, Next(s4, Repair(1)));
    FiveRun(s, Snapshot(1, [id], since), s1, s2, s3, s4);
    steps := [Snapshot(1, [id], since), Judge(1, true), Look(1), Look(1), Repair(1)];
    hide Error;
  }

  lemma FiveRun(s: State, a: Step, s1: State, s2: State, s3: State, s4: State)
    requires Enabled(s, a) && s1 == Next(s, a) && Enabled(s1, Judge(1, true)) && s2 == Next(s1, Judge(1, true))
    requires Enabled(s2, Look(1)) && s3 == Next(s2, Look(1)) && Enabled(s3, Look(1)) && s4 == Next(s3, Look(1)) && Enabled(s4, Repair(1))
    ensures Runs(s, [a, Judge(1, true), Look(1), Look(1), Repair(1)])
    ensures End(s, [a, Judge(1, true), Look(1), Look(1), Repair(1)]) == Next(s4, Repair(1))
  {
    hide Next, Enabled;
    var b, c, d := Judge(1, true), Look(1), Repair(1);
    assert Runs(s, []) && End(s, []) == s;
    RunsOn(s, [], a);
    RunsOn(s, [a], b);
    assert [a] + [b] == [a, b];
    RunsOn(s, [a, b], c);
    assert [a, b] + [c] == [a, b, c];
    RunsOn(s, [a, b, c], c);
    assert [a, b, c] + [c] == [a, b, c, c];
    RunsOn(s, [a, b, c, c], d);
    assert [a, b, c, c] + [d] == [a, b, c, c, d];
  }

  // ── runs that lead there ──

  /** What a step or a run changed: k's rows, the dirty set, one process, and k's delta and losses. */
  ghost predicate After(s: State, s': State, k: Key, rows: Rows, dirty: set<Key>, p: nat, q: Proc, delta: int, lost: int) {
    && p < |s.procs| && s'.procs == s.procs[p := q] && s'.dirty == dirty
    && forall x :: RowsOf(s', x) == (if x == k then rows else RowsOf(s, x)) && Booked(s, s', x, k, delta, lost)
  }

  /** Of the books only k's delta and losses changed, seen from column x. */
  predicate Booked(s: State, s': State, x: Key, k: Key, delta: int, lost: int) {
    && At(s'.db, x) == At(s.db, x) && At(s'.repaired, x) == At(s.repaired, x)
    && At(s'.delta, x) == At(s.delta, x) + (if x == k then delta else 0) && At(s'.lost, x) == At(s.lost, x) + (if x == k then lost else 0)
  }

  lemma AfterThen(s: State, s1: State, s2: State, k: Key, rows1: Rows, dirty1: set<Key>, p: nat, q1: Proc, d1: int, l1: int,
                  rows2: Rows, dirty2: set<Key>, q2: Proc, d2: int, l2: int)
    requires After(s, s1, k, rows1, dirty1, p, q1, d1, l1) && After(s1, s2, k, rows2, dirty2, p, q2, d2, l2)
    ensures After(s, s2, k, rows2, dirty2, p, q2, d1 + d2, l1 + l2)
  {
    hide At, RowsOf;
    assert s2.procs == s.procs[p := q2];
    forall x ensures RowsOf(s2, x) == if x == k then rows2 else RowsOf(s, x) {
      assert RowsOf(s1, x) == if x == k then rows1 else RowsOf(s, x);
    }
    var d, l := d1 + d2, l1 + l2;
    forall x ensures Booked(s, s2, x, k, d, l) {
      assert Booked(s, s1, x, k, d1, l1) && Booked(s1, s2, x, k, d2, l2);
    }
  }

  lemma MoveBooked(s: State, f: State, i: nat, m: Move, x: Key)
    requires i < |s.procs| && f == s.(table := f.table, origin := f.origin) && m.db == 0
    ensures Booked(s, Transfer(f, i, m), x, m.k, m.delta, m.lost)
  {
    PlusAt(s.db, m.k, m.db, x);
    PlusAt(s.delta, m.k, m.delta, x);
    PlusAt(s.lost, m.k, m.lost, x);
  }

  lemma StepBooked(s: State, st: Step, s': State, m: Move)
    requires Enabled(s, st) && Moves(st) && s' == Next(s, st) && m.db == 0
    requires st.p < |s.procs| && m == MoveOf(s.procs[st.p], st, Have(s, s.procs[st.p]))
    ensures s'.procs == s.procs[st.p := m.next] && s'.table == Filed(s, st).table && s'.dirty == if m.mark then s.dirty + {m.k} else s.dirty
    ensures forall x :: Booked(s, s', x, m.k, m.delta, m.lost)
  {
    hide MoveOf, Enabled, Next, Filed, Have, At, Plus;
    NextMoves(s, st, s');
    FiledFrame(s, st);
    forall x ensures Booked(s, s', x, m.k, m.delta, m.lost) {
      MoveBooked(s, Filed(s, st), st.p, m, x);
    }
  }

  lemma Inserted(s: State, p: nat, k: Key, row: Row, s': State)
    requires p < |s.procs| && s.procs[p].Idle? && row.id !in RowsOf(s, k) && s' == Next(s, Insert(p, k, row))
    ensures Enabled(s, Insert(p, k, row)) && After(s, s', k, RowsOf(s, k)[row.id := row.at], s.dirty, p, Bump(k, 1), 0, 0)
  {
    StepBooked(s, Insert(p, k, row), s', Move(k, 1, 0, 0, 0, false, false, Bump(k, 1)));
  }

  lemma Deleted(s: State, p: nat, k: Key, id: string, s': State)
    requires p < |s.procs| && s.procs[p].Idle? && k.field == LIKES && id in RowsOf(s, k) && s' == Next(s, Delete(p, k, id))
    ensures Enabled(s, Delete(p, k, id)) && After(s, s', k, RowsOf(s, k) - {id}, s.dirty, p, Bump(k, -1), 0, 0)
    ensures p !in s'.origin
  {
    StepBooked(s, Delete(p, k, id), s', Move(k, -1, 0, 0, 0, false, false, Bump(k, -1)));
  }

  lemma Crashed(s: State, p: nat, k: Key, n: int, s': State)
    requires p < |s.procs| && s.procs[p] == Bump(k, n) && s' == Next(s, Crash(p))
    ensures Enabled(s, Crash(p)) && After(s, s', k, RowsOf(s, k), s.dirty, p, Idle, 0, n)
  {
    StepBooked(s, Crash(p), s', Move(k, 0, 0, 0, n, false, true, Idle));
  }

  lemma DeltaStored(s: State, p: nat, k: Key, n: int, s': State)
    requires p < |s.procs| && s.procs[p] == Bump(k, n) && s' == Next(s, IncrOk(p))
    ensures Enabled(s, IncrOk(p)) && After(s, s', k, RowsOf(s, k), s.dirty, p, Stored(k, n), n, 0)
  {
    StepBooked(s, IncrOk(p), s', Move(k, 0, 0, n, 0, false, false, Stored(k, n)));
  }

  lemma DeltaScheduled(s: State, p: nat, k: Key, n: int, s': State)
    requires p < |s.procs| && s.procs[p] == Stored(k, n) && s' == Next(s, SaddOk(p))
    ensures Enabled(s, SaddOk(p)) && After(s, s', k, RowsOf(s, k), s.dirty + {k}, p, Idle, 0, 0)
  {
    StepBooked(s, SaddOk(p), s', Move(k, 0, 0, 0, 0, true, false, Idle));
  }

  lemma KeyPopped(s: State, p: nat, k: Key, s': State)
    requires p < |s.procs| && s.procs[p].Idle? && k in s.dirty && s' == Next(s, Pop(p, [k]))
    ensures Enabled(s, Pop(p, [k])) && After(s, s', k, RowsOf(s, k), s.dirty - {k}, p, Flushing([k], false), 0, 0)
  {
    assert (set x | x in [k]) == {k};
    assert s' == s.(dirty := s.dirty - {k}, procs := s.procs[p := Flushing([k], false)]);
    hide Enabled, Next, At;
    assert s'.table == s.table;
  }

  lemma DeltaRead(s: State, p: nat, k: Key, n: int, s': State)
    requires p < |s.procs| && s.procs[p] == Flushing([k], false) && At(s.delta, k) == n && n != 0 && s' == Next(s, GetOk(p))
    ensures Enabled(s, GetOk(p)) && After(s, s', k, RowsOf(s, k), s.dirty, p, Holding(k, n, [], false), -n, 0)
  {
    assert [k][1..] == [];
    StepBooked(s, GetOk(p), s', Move(k, 0, 0, -n, 0, false, false, Holding(k, n, [], false)));
  }

  lemma {:induction false} RunsJoin(s: State, a: seq<Step>, b: seq<Step>)
    requires Runs(s, a) && Runs(End(s, a), b)
    ensures Runs(s, a + b) && End(s, a + b) == End(End(s, a), b)
    decreases |a|
  {
    hide Enabled, Next;
    if a == [] {
      assert a + b == b;
    } else {
      assert (a + b)[1..] == a[1..] + b;
      RunsJoin(Next(s, a[0]), a[1..], b);
    }
  }

  lemma One(s: State, a: Step)
    requires Enabled(s, a)
    ensures Runs(s, [a]) && End(s, [a]) == Next(s, a)
  {
    hide Enabled, Next;
    assert [a][1..] == [];
  }

  lemma Two(s: State, a: Step, b: Step)
    requires Enabled(s, a) && Enabled(Next(s, a), b)
    ensures Runs(s, [a, b]) && End(s, [a, b]) == Next(Next(s, a), b)
  {
    hide Enabled, Next;
    One(Next(s, a), b);
    assert [a, b][1..] == [b];
  }

  /** A like of user row.id counted in Redis and then taken by a flush, both by process 0. */
  function LikeTaken(k: Key, row: Row): seq<Step> {
    [Insert(0, k, row)] + [IncrOk(0), SaddOk(0)] + [Pop(0, [k]), GetOk(0)]
  }

  lemma LikeIntoFlush(s: State, k: Key, row: Row, e: State)
    requires |s.procs| > 0 && s.procs[0].Idle? && row.id !in RowsOf(s, k) && At(s.delta, k) == 0 && e == End(s, LikeTaken(k, row))
    ensures Runs(s, LikeTaken(k, row))
    ensures After(s, e, k, RowsOf(s, k)[row.id := row.at], s.dirty - {k}, 0, Holding(k, 1, [], false), 0, 0)
  {
    hide Enabled, Next, Runs, End, At, RowsOf, After;
    var rows, d := RowsOf(s, k)[row.id := row.at], s.dirty;
    var s1 := Next(s, Insert(0, k, row));
    var s2 := Next(s1, IncrOk(0));
    var s3 := Next(s2, SaddOk(0));
    var s4 := Next(s3, Pop(0, [k]));
    var s5 := Next(s4, GetOk(0));
    Inserted(s, 0, k, row, s1);
    AfterMeans(s, s1, k, rows, d, 0, Bump(k, 1), 0, 0);
    DeltaStored(s1, 0, k, 1, s2);
    AfterThen(s, s1, s2, k, rows, d, 0, Bump(k, 1), 0, 0, rows, d, Stored(k, 1), 1, 0);
    AfterMeans(s, s2, k, rows, d, 0, Stored(k, 1), 1, 0);
    DeltaScheduled(s2, 0, k, 1, s3);
    AfterThen(s, s2, s3, k, rows, d, 0, Stored(k, 1), 1, 0, rows, d + {k}, Idle, 0, 0);
    AfterMeans(s, s3, k, rows, d + {k}, 0, Idle, 1, 0);
    KeyPopped(s3, 0, k, s4);
    assert d + {k} - {k} == d - {k};
    AfterThen(s, s3, s4, k, rows, d + {k}, 0, Idle, 1, 0, rows, d - {k}, Flushing([k], false), 0, 0);
    AfterMeans(s, s4, k, rows, d - {k}, 0, Flushing([k], false), 1, 0);
    DeltaRead(s4, 0, k, 1, s5);
    AfterThen(s, s4, s5, k, rows, d - {k}, 0, Flushing([k], false), 1, 0, rows, d - {k}, Holding(k, 1, [], false), -1, 0);
    TakenRuns(s, k, row, s1, s2, s3, s4, s5);
  }

  lemma AfterMeans(s: State, s': State, k: Key, rows: Rows, dirty: set<Key>, p: nat, q: Proc, delta: int, lost: int)
    requires After(s, s', k, rows, dirty, p, q, delta, lost)
    ensures p < |s'.procs| == |s.procs| && s'.procs[p] == q && s'.dirty == dirty && RowsOf(s', k) == rows && At(s'.delta, k) == At(s.delta, k) + delta
  {
    hide At, RowsOf;
    assert Booked(s, s', k, k, delta, lost);
  }

  lemma TakenRuns(s: State, k: Key, row: Row, s1: State, s2: State, s3: State, s4: State, s5: State)
    requires Enabled(s, Insert(0, k, row)) && s1 == Next(s, Insert(0, k, row)) && Enabled(s1, IncrOk(0)) && s2 == Next(s1, IncrOk(0))
    requires Enabled(s2, SaddOk(0)) && s3 == Next(s2, SaddOk(0)) && Enabled(s3, Pop(0, [k])) && s4 == Next(s3, Pop(0, [k]))
    requires Enabled(s4, GetOk(0)) && s5 == Next(s4, GetOk(0))
    ensures Runs(s, LikeTaken(k, row)) && End(s, LikeTaken(k, row)) == s5
  {
    hide Enabled, Next, Runs, End;
    One(s, Insert(0, k, row));
    Two(s1, IncrOk(0), SaddOk(0));
    Two(s3, Pop(0, [k]), GetOk(0));
    RunsJoin(s, [Insert(0, k, row)], [IncrOk(0), SaddOk(0)]);
    RunsJoin(s, [Insert(0, k, row)] + [IncrOk(0), SaddOk(0)], [Pop(0, [k]), GetOk(0)]);
  }

  lemma AddedRow(rows: Rows, row: Row, since: int)
    requires row.id !in rows
    ensures |rows[row.id := row.at]| == |rows| + 1
    ensures row.at <= since && !NewerThan(rows, since) ==> !NewerThan(rows[row.id := row.at], since)
  {
  }

  /** A flush between GETDEL and its UPDATE is not busy, not pending and not in the count: from any
      settled state these ten steps are a run, in which a like is counted in Redis and taken by a
      flush, and the repair then counts it a first time. */
  lemma {:induction false} FlushInFlight(s: State, id: string, row: Row, since: int) returns (steps: seq<Step>)
    requires Inv(s) && |s.procs| >= 2 && s.procs[0].Idle? && s.procs[1].Idle?
    requires row.id !in RowsOf(s, Key(id, LIKES)) && row.at <= since && !Busy(s, id, since)
    requires AllOwed(s.procs, Key(id, LIKES)) == 0 && At(s.db, Key(id, LIKES)) == Total(s, Key(id, LIKES))
    requires At(s.delta, Key(id, LIKES)) == 0 && At(s.delta, Key(id, SHARES)) == 0
    ensures steps == LikeTaken(Key(id, LIKES), row) + [Snapshot(1, [id], since), Judge(1, true), Look(1), Look(1), Repair(1)]
    ensures Runs(s, steps) && Error(End(s, steps), Key(id, LIKES)) == 1
  {
    hide Enabled, Next, Runs, End, Inv, At, AllOwed, LikeTaken, Outstanding, Error;
    var k := Key(id, LIKES);
    var e := End(s, LikeTaken(k, row));
    LikeIntoFlush(s, k, row, e);
    RunInv(s, LikeTaken(k, row));
    AddedRow(RowsOf(s, k), row, since);
    OwedUpdate(s.procs, 0, Holding(k, 1, [], false), k);
    QuietAfter(s, e, k, since);
    var rest := GuardsPass(e, id, since);
    steps := LikeTaken(k, row) + rest;
    RunsJoin(s, LikeTaken(k, row), rest);
  }

  lemma QuietAfter(s: State, e: State, k: Key, since: int)
    requires k.field == LIKES && !Busy(s, k.id, since) && !NewerThan(RowsOf(e, k), since)
    requires forall x :: x != k ==> RowsOf(e, x) == RowsOf(s, x)
    ensures !Busy(e, k.id, since)
  {
    assert Key(k.id, LIKES) == k && Key(k.id, SHARES) != k;
  }

  /** An unlike whose row is gone but whose INCRBY has not run is not busy, not pending and not in
      the count: from any settled state these six steps are a run, and it repairs the post to a
      count that is one too low. */
  lemma {:induction false} UnlikeInFlight(s: State, id: string, user: string, since: int) returns (steps: seq<Step>)
    requires Inv(s) && |s.procs| >= 2 && s.procs[0].Idle? && s.procs[1].Idle?
    requires user in RowsOf(s, Key(id, LIKES)) && !Busy(s, id, since)
    requires AllOwed(s.procs, Key(id, LIKES)) == 0 && At(s.db, Key(id, LIKES)) == Total(s, Key(id, LIKES))
    requires At(s.delta, Key(id, LIKES)) == 0 && At(s.delta, Key(id, SHARES)) == 0
    ensures steps == [Delete(0, Key(id, LIKES), user), Snapshot(1, [id], since), Judge(1, true), Look(1), Look(1), Repair(1)]
    ensures Runs(s, steps) && Error(End(s, steps), Key(id, LIKES)) == -1
  {
    hide Enabled, Next, Runs, End, Inv, At, AllOwed, Outstanding, Error;
    var k := Key(id, LIKES);
    var st := Delete(0, k, user);
    var e := Next(s, st);
    Deleted(s, 0, k, user, e);
    StepInv(s, st);
    MapLess(RowsOf(s, k), user);
    OwedUpdate(s.procs, 0, Bump(k, -1), k);
    QuietAfter(s, e, k, since);
    var rest := GuardsPass(e, id, since);
    One(s, st);
    RunsJoin(s, [st], rest);
    steps := [st] + rest;
  }

  /** A crash loses a like; another like is counted, taken by a flush and taken back. */
  function Cancelling(k: Key, a: Row, b: Row): seq<Step> {
    [Insert(2, k, a), Crash(2)] + LikeTaken(k, b) + [Delete(2, k, b.id)]
  }

  /** The amounts can cancel: from any state at rest of a quiet post this is a run, at its end a flush
      and an unlike hold one like each, and a repair that gets past both guards is exact all the
      same. */
  lemma {:induction false} HeldAmountsCancel(s: State, k: Key, a: Row, b: Row, since: int) returns (e: State, steps: seq<Step>)
    requires Init(s) && |s.procs| >= 3 && k.field == LIKES && !Busy(s, k.id, since)
    requires a.id !in RowsOf(s, k) && b.id !in RowsOf(s, k) && a.id != b.id && a.at <= since && b.at <= since
    ensures Runs(s, Cancelling(k, a, b)) && e == End(s, Cancelling(k, a, b)) && !NoneHeld(e, k) && InTime(e, k, since)
    ensures steps == [Snapshot(1, [k.id], since), Judge(1, true), Look(1), Look(1), Repair(1)]
    ensures Runs(e, steps) && Error(End(e, steps), k) == 0
  {
    hide Enabled, Next, Runs, End, Inv, At, AllOwed, LikeTaken, Outstanding, Error;
    Fresh(s);
    var s2 := LikeLost(s, k, a);
    e := End(s, Cancelling(k, a, b));
    CancellingRuns(s, k, a, b, s2, e);
    RunInv(s, Cancelling(k, a, b));
    CancellingOwes(s, k, e);
    CancellingQuiet(s, k, a, b, since, e);
    assert Key(k.id, LIKES) == k;
    steps := GuardsPass(e, k.id, since);
    CancellingHeld(s, k, since, e);
  }

  lemma LikeLost(s: State, k: Key, a: Row) returns (s2: State)
    requires |s.procs| >= 3 && s.procs[2].Idle? && a.id !in RowsOf(s, k)
    ensures Runs(s, [Insert(2, k, a), Crash(2)]) && s2 == End(s, [Insert(2, k, a), Crash(2)])
    ensures After(s, s2, k, RowsOf(s, k)[a.id := a.at], s.dirty, 2, Idle, 0, 1)
  {
    hide Enabled, Next, Runs, End, At, RowsOf;
    var s1 := Next(s, Insert(2, k, a));
    s2 := Next(s1, Crash(2));
    Inserted(s, 2, k, a, s1);
    Crashed(s1, 2, k, 1, s2);
    Two(s, Insert(2, k, a), Crash(2));
    assert s2.procs == s.procs[2 := Idle];
  }

  /** Where the run ends, as far as the repair is concerned. */
  ghost predicate Cancelled(s: State, k: Key, a: Row, b: Row, e: State) {
    && |s.procs| >= 3 && e.procs == s.procs[0 := Holding(k, 1, [], false)][2 := Bump(k, -1)] && 2 !in e.origin
    && (forall x :: RowsOf(e, x) == if x == k then RowsOf(s, k)[a.id := a.at][b.id := b.at] - {b.id} else RowsOf(s, x))
    && forall x :: Booked(s, e, x, k, 0, 1)
  }

  lemma CancellingRuns(s: State, k: Key, a: Row, b: Row, s2: State, e: State)
    requires |s.procs| >= 3 && s.procs[0].Idle? && s.procs[2].Idle? && k.field == LIKES && At(s.delta, k) == 0
    requires b.id !in RowsOf(s, k) && a.id != b.id && e == End(s, Cancelling(k, a, b))
    requires Runs(s, [Insert(2, k, a), Crash(2)]) && s2 == End(s, [Insert(2, k, a), Crash(2)])
    requires After(s, s2, k, RowsOf(s, k)[a.id := a.at], s.dirty, 2, Idle, 0, 1)
    ensures Runs(s, Cancelling(k, a, b)) && Cancelled(s, k, a, b, e)
  {
    hide Enabled, Next, Runs, End, At, LikeTaken, RowsOf;
    var lost, taken, st := [Insert(2, k, a), Crash(2)], LikeTaken(k, b), Delete(2, k, b.id);
    var s3 := End(s2, taken);
    LikeIntoFlush(s2, k, b, s3);
    Deleted(s3, 2, k, b.id, Next(s3, st));
    RunsJoin(s, lost, taken);
    One(s3, st);
    RunsJoin(s, lost + taken, [st]);
    assert s2.procs[2] == Idle && s2.procs[0] == s.procs[0];
    assert e == Next(s3, st) && e.procs == s.procs[0 := Holding(k, 1, [], false)][2 := Bump(k, -1)];
    forall x ensures Booked(s, e, x, k, 0, 1) {
      assert Booked(s, s2, x, k, 0, 1) && Booked(s2, s3, x, k, 0, 0) && Booked(s3, e, x, k, 0, 0);
    }
    forall x ensures RowsOf(e, x) == if x == k then RowsOf(s, k)[a.id := a.at][b.id := b.at] - {b.id} else RowsOf(s, x) {
      assert RowsOf(s2, x) == if x == k then RowsOf(s, k)[a.id := a.at] else RowsOf(s, x);
      assert RowsOf(s3, x) == if x == k then RowsOf(s2, k)[b.id := b.at] else RowsOf(s2, x);
    }
  }

  lemma CancellingOwes(s: State, k: Key, e: State)
    requires |s.procs| >= 3 && (forall i :: 0 <= i < |s.procs| ==> s.procs[i].Idle?)
    requires e.procs == s.procs[0 := Holding(k, 1, [], false)][2 := Bump(k, -1)]
    ensures AllOwed(e.procs, k) == 0
  {
    IdleOwesNothing(s.procs, k);
    OwedUpdate(s.procs, 0, Holding(k, 1, [], false), k);
    OwedUpdate(s.procs[0 := Holding(k, 1, [], false)], 2, Bump(k, -1), k);
  }

  lemma CancellingQuiet(s: State, k: Key, a: Row, b: Row, since: int, e: State)
    requires Cancelled(s, k, a, b, e) && k.field == LIKES && !Busy(s, k.id, since) && a.at <= since && Init(s)
    requires a.id !in RowsOf(s, k) && b.id !in RowsOf(s, k) && a.id != b.id
    ensures !Busy(e, k.id, since) && At(e.delta, Key(k.id, LIKES)) == 0 && At(e.delta, Key(k.id, SHARES)) == 0
    ensures At(e.db, k) != Total(e, k)
  {
    assert Key(k.id, LIKES) == k;
    AddedRow(RowsOf(s, k), a, since);
    assert RowsOf(s, k)[a.id := a.at][b.id := b.at] - {b.id} == RowsOf(s, k)[a.id := a.at];
    QuietAfter(s, e, k, since);
    assert Booked(s, e, k, k, 0, 1) && Booked(s, e, Key(k.id, SHARES), k, 0, 1);
    assert Total(e, k) == Total(s, k) + 1 && At(s.db, k) == Total(s, k);
  }

  lemma CancellingHeld(s: State, k: Key, since: int, e: State)
    requires |s.procs| >= 3 && e.procs == s.procs[0 := Holding(k, 1, [], false)][2 := Bump(k, -1)] && 2 !in e.origin
    requires forall i :: 0 <= i < |s.procs| ==> s.procs[i].Idle?
    ensures !NoneHeld(e, k) && InTime(e, k, since)
  {
    assert e.procs[0] == Holding(k, 1, [], false) && HiddenIn(e, 0, k) == 1;
  }
}
