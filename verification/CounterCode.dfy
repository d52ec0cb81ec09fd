/** bumpCounter, Flush and RunOnce as runs of the counter machine: every command is one step, and
    between two of them the other processes take any number of theirs. */
module CounterCode {
  import opened Counter
  import Order
  import opened Traces

  /** What Incr tells its caller; only NotRecorded allows falling back to the database. */
  datatype Answer = Recorded | NotRecorded | Unscheduled

  /** The outcome of each command one increment or one flushed entry may issue. */
  datatype Outcomes = Outcomes(read: bool, readded: bool, added: bool, stored: bool, scheduled: bool, undone: bool)

  predicate Single(st: Step) { !st.Pop? && !st.Snapshot? && !st.Repair? }

  function By(p: nat): Step -> bool { (st: Step) => st.p == p }

  // ── what each piece of code does: the steps it takes itself ──

  function AnswerOf(o: Outcomes): Answer {
    if !o.stored then NotRecorded else if o.scheduled then Recorded else if o.undone then NotRecorded else Unscheduled
  }

  /** Incr, called by bumpCounter or to put a delta back. */
  function IncrSteps(p: nat, bump: bool, o: Outcomes): seq<Step> {
    if !o.stored then [if bump then IncrFail(p) else BackFail(p)]
    else [if bump then IncrOk(p) else BackOk(p)]
         + if o.scheduled then [SaddOk(p)] else [SaddFail(p), if o.undone then UndoOk(p) else UndoFail(p)]
  }

  lemma IncrParts(mine: seq<Step>, p: nat, bump: bool, o: Outcomes)
    ensures !o.stored ==> mine + IncrSteps(p, bump, o) == mine + [if bump then IncrFail(p) else BackFail(p)]
    ensures o.stored && o.scheduled ==> mine + IncrSteps(p, bump, o) == mine + [if bump then IncrOk(p) else BackOk(p)] + [SaddOk(p)]
    ensures o.stored && !o.scheduled ==>
      mine + IncrSteps(p, bump, o) == mine + [if bump then IncrOk(p) else BackOk(p)] + [SaddFail(p)] + [if o.undone then UndoOk(p) else UndoFail(p)]
  {
  }

  function BumpSteps(p: nat, o: Outcomes): seq<Step> {
    IncrSteps(p, true, o) + if AnswerOf(o) == NotRecorded then [if o.added then DirectOk(p) else DirectFail(p)] else []
  }

  /** The change is in Redis or in the column. */
  predicate Counted(o: Outcomes) { AnswerOf(o) != NotRecorded || o.added }

  /** One popped entry; had says whether Redis held a delta for it. */
  function EntrySteps(p: nat, o: Outcomes, had: bool): seq<Step> {
    if !o.read then [GetFail(p), if o.readded then ReaddOk(p) else ReaddFail(p)]
    else if !had then [GetOk(p)]
    else if o.added then [GetOk(p), AddOk(p)]
    else [GetOk(p), AddFail(p)] + IncrSteps(p, false, o)
  }

  predicate Wrote(o: Outcomes, had: bool) { o.read && had && o.added }

  predicate Erred(o: Outcomes, had: bool) { !o.read || (had && !o.added) }

  function EntriesSteps(p: nat, o: seq<Outcomes>, had: seq<bool>): seq<Step>
    requires |o| == |had|
  {
    if o == [] then []
    else EntriesSteps(p, o[..|o| - 1], had[..|o| - 1]) + EntrySteps(p, o[|o| - 1], had[|o| - 1])
  }

  function WrittenIn(o: seq<Outcomes>, had: seq<bool>): nat
    requires |o| == |had|
  {
    if o == [] then 0 else WrittenIn(o[..|o| - 1], had[..|o| - 1]) + (if Wrote(o[|o| - 1], had[|o| - 1]) then 1 else 0)
  }

  predicate AnyErred(o: seq<Outcomes>, had: seq<bool>)
    requires |o| == |had|
  {
    exists i :: 0 <= i < |o| && Erred(o[i], had[i])
  }

  /** What a step adds to Redis and the columns together, in units of the request's change. */
  function Credit(st: Step): int {
    if st.IncrOk? || st.BackOk? || st.DirectOk? then 1 else if st.UndoOk? then -1 else 0
  }

  function Credits(steps: seq<Step>): int {
    if steps == [] then 0 else Credits(steps[..|steps| - 1]) + Credit(steps[|steps| - 1])
  }

  lemma CreditsOn(steps: seq<Step>, st: Step)
    ensures Credits(steps + [st]) == Credits(steps) + Credit(st)
  {
    assert (steps + [st])[..|steps|] == steps;
  }

  lemma CreditsOf(a: Step, b: Step, c: Step)
    ensures Credits([a]) == Credit(a) && Credits([a, b]) == Credit(a) + Credit(b) && Credits([a, b, c]) == Credit(a) + Credit(b) + Credit(c)
  {
    hide Credit;
    CreditsOn([], a);
    CreditsOn([a], b);
    CreditsOn([a, b], c);
    assert [] + [a] == [a] && [a] + [b] == [a, b] && [a, b] + [c] == [a, b, c];
  }

  lemma IncrCredits(p: nat, bump: bool, o: Outcomes)
    ensures Credits(IncrSteps(p, bump, o)) == if AnswerOf(o) == NotRecorded then 0 else 1
  {
    var a, b := if bump then IncrOk(p) else BackOk(p), if o.undone then UndoOk(p) else UndoFail(p);
    hide Credits;
    if !o.stored {
      CreditsOf(if bump then IncrFail(p) else BackFail(p), a, b);
    } else if o.scheduled {
      CreditsOf(a, SaddOk(p), b);
      assert IncrSteps(p, bump, o) == [a, SaddOk(p)];
    } else {
      CreditsOf(a, SaddFail(p), b);
      assert IncrSteps(p, bump, o) == [a, SaddFail(p), b];
    }
  }

  /** A change is counted once when bumpCounter answers well and not at all when it fails: never in
      Redis and the column both. */
  lemma {:induction false} BumpedOnce(p: nat, o: Outcomes)
    ensures Credits(BumpSteps(p, o)) == if Counted(o) then 1 else 0
  {
    hide Credits, IncrSteps;
    IncrCredits(p, true, o);
    CreditsOn(IncrSteps(p, true, o), if o.added then DirectOk(p) else DirectFail(p));
    assert IncrSteps(p, true, o) + [] == IncrSteps(p, true, o);
  }

  function AfterIncr(p: Proc, r: Answer): Proc {
    match p
    case Bump(k, n) => if r == NotRecorded then Direct(k, n) else Idle
    case Stored(k, n) => if r == NotRecorded then Direct(k, n) else Idle
    case Undo(k, n) => if r == NotRecorded then Direct(k, n) else Idle
    case PutBack(_, _, todo) => Flushing(todo, true)
    case PutBackStored(_, _, todo) => Flushing(todo, true)
    case PutBackUndo(_, _, todo) => Flushing(todo, true)
    case _ => p
  }

  method ParseMember(m: string, ghost k: Key) returns (key: Key)
    requires m == Member(k) && '|' !in k.field
    ensures key == k
  {
    var parsed := Split(m);
    assert parsed == Parsed(k);
    key := parsed.k;
  }

  class Site {
    ghost const s0: State
    var s: State
    ghost var trace: seq<Step>

    ghost predicate Valid() reads this {
      Inv(s0) && Runs(s0, trace) && s == End(s0, trace)
    }

    ghost predicate Here(p: nat, q: Proc) reads this {
      Valid() && p < |s.procs| && s.procs[p] == q
    }

    /** The steps p took so far. */
    ghost function Mine(p: nat): seq<Step> reads this { Own(trace, By(p)) }

    /** The posts p's repairs changed. */
    ghost function Fixes(p: nat): nat reads this { Repairs(s0, trace, p) }

    /** The state before step i. */
    ghost function Before(i: nat): State
      requires i <= |trace|
      reads this
    {
      End(s0, trace[..i])
    }

    constructor (s: State)
      requires Inv(s)
      ensures Valid() && this.s == s && trace == []
    {
      this.s, s0, trace := s, s, [];
    }

    method Do(st: Step)
      requires Valid() && Enabled(s, st)
      modifies this
      ensures Valid() && s == Next(old(s), st) && trace == old(trace) + [st] && Mine(st.p) == old(Mine(st.p)) + [st]
      ensures forall p :: Fixes(p) == old(Fixes(p)) + if st == Repair(p) && Applies(old(s), p) then 1 else 0
    {
      RunsOn(s0, trace, st);
      forall p ensures Repairs(s0, trace + [st], p) == Repairs(s0, trace, p) + if st == Repair(p) && Applies(s, p) then 1 else 0 {
        RepairsOn(s0, trace, st, p);
      }
      OwnSnoc(trace, st, By(st.p));
      s := Next(s, st);
      trace := trace + [st];
    }

    /** A step of process p other than a pop, a snapshot or a repair. */
    method Act(p: nat, st: Step)
      requires Valid() && st.p == p && Single(st) && Enabled(s, st)
      modifies this
      ensures Here(p, MoveOf(old(s).procs[p], st, Have(old(s), old(s).procs[p])).next)
      ensures trace == old(trace) + [st] && Mine(p) == old(Mine(p)) + [st] && Fixes(p) == old(Fixes(p))
    {
      Do(st);
    }

    /** Everyone but p moves. */
    method Others(p: nat)
      requires Valid() && p < |s.procs|
      modifies this
      ensures Here(p, old(s).procs[p]) && old(trace) <= trace && Mine(p) == old(Mine(p)) && Fixes(p) == old(Fixes(p))
    {
    }

    // ── the commands of Store and Sink ──

    method IncrBy(p: nat, ok: bool)
      requires Valid() && p < |s.procs| && (s.procs[p].Bump? || s.procs[p].PutBack?)
      modifies this
      ensures var q := old(s).procs[p];
        Here(p, if ok then (if q.Bump? then Stored(q.k, q.n) else PutBackStored(q.k, q.n, q.todo)) else AfterIncr(q, NotRecorded))
      ensures old(trace) <= trace
      ensures Mine(p) == old(Mine(p)) + [if old(s).procs[p].Bump? then (if ok then IncrOk(p) else IncrFail(p)) else if ok then BackOk(p) else BackFail(p)]
    {
      hide Runs, End, Inv, Next, AllOwed, Own, Repairs, Applies, By;
      var bump := s.procs[p].Bump?;
      Act(p, if bump then (if ok then IncrOk(p) else IncrFail(p)) else if ok then BackOk(p) else BackFail(p));
    }

    method SAdd(p: nat, ok: bool)
      requires Valid() && p < |s.procs| && (s.procs[p].Stored? || s.procs[p].PutBackStored?)
      modifies this
      ensures var q := old(s).procs[p];
        Here(p, if ok then AfterIncr(q, Recorded) else if q.Stored? then Undo(q.k, q.n) else PutBackUndo(q.k, q.n, q.todo))
      ensures old(trace) <= trace && Mine(p) == old(Mine(p)) + [if ok then SaddOk(p) else SaddFail(p)]
    {
      hide Runs, End, Inv, Next, AllOwed, Own, Repairs, Applies, By;
      Act(p, if ok then SaddOk(p) else SaddFail(p));
    }

    method UndoIncr(p: nat, ok: bool)
      requires Valid() && p < |s.procs| && (s.procs[p].Undo? || s.procs[p].PutBackUndo?)
      modifies this
      ensures Here(p, AfterIncr(old(s).procs[p], if ok then NotRecorded else Unscheduled))
      ensures old(trace) <= trace && Mine(p) == old(Mine(p)) + [if ok then UndoOk(p) else UndoFail(p)]
    {
      hide Runs, End, Inv, Next, AllOwed, Own, Repairs, Applies, By;
      Act(p, if ok then UndoOk(p) else UndoFail(p));
    }

    method GetDel(p: nat, ghost k: Key, ghost todo: seq<Key>, ghost err: bool, ok: bool) returns (delta: int)
      requires Here(p, Flushing([k] + todo, err))
      modifies this
      ensures Here(p, if !ok then Unread([k] + todo) else if delta == 0 then Flushing(todo, err) else Holding(k, delta, todo, err))
      ensures old(trace) <= trace && Mine(p) == old(Mine(p)) + [if ok then GetOk(p) else GetFail(p)]
    {
      hide Runs, End, Inv, Next, AllOwed, Own, Repairs, Applies, By;
      assert ([k] + todo)[0] == k && ([k] + todo)[1..] == todo;
      delta := Have(s, s.procs[p]);
      Act(p, if ok then GetOk(p) else GetFail(p));
    }

    method Readd(p: nat, ghost k: Key, ghost todo: seq<Key>, ok: bool)
      requires Here(p, Unread([k] + todo))
      modifies this
      ensures Here(p, Flushing(todo, true))
      ensures old(trace) <= trace && Mine(p) == old(Mine(p)) + [if ok then ReaddOk(p) else ReaddFail(p)]
    {
      hide Runs, End, Inv, Next, AllOwed, Own, Repairs, Applies, By;
      assert ([k] + todo)[1..] == todo;
      Act(p, if ok then ReaddOk(p) else ReaddFail(p));
    }

    /** The UPDATE, from a flush or as the fallback. */
    method Add(p: nat, ok: bool)
      requires Valid() && p < |s.procs| && (s.procs[p].Holding? || s.procs[p].Direct?)
      modifies this
      ensures var q := old(s).procs[p];
        Here(p, if q.Direct? then Idle else if ok then Flushing(q.todo, q.err) else PutBack(q.k, q.n, q.todo))
      ensures old(trace) <= trace
      ensures Mine(p) == old(Mine(p)) + [if old(s).procs[p].Direct? then (if ok then DirectOk(p) else DirectFail(p)) else if ok then AddOk(p) else AddFail(p)]
    {
      hide Runs, End, Inv, Next, AllOwed, Own, Repairs, Applies, By;
      var direct := s.procs[p].Direct?;
      Act(p, if direct then (if ok then DirectOk(p) else DirectFail(p)) else if ok then AddOk(p) else AddFail(p));
    }

    method SPopN(p: nat, taken: seq<Key>)
      requires Valid() && Enabled(s, Pop(p, taken))
      modifies this
      ensures Here(p, Flushing(taken, false)) && old(trace) <= trace && Mine(p) == old(Mine(p)) + [Pop(p, taken)]
    {
      Do(Pop(p, taken));
    }

    method Return(p: nat, ghost err: bool)
      requires Here(p, Flushing([], err))
      modifies this
      ensures Here(p, Idle) && old(trace) <= trace && Mine(p) == old(Mine(p)) + [FlushEnd(p)]
    {
      hide Runs, End, Inv, Next, AllOwed, Own, Repairs, Applies, By;
      Act(p, FlushEnd(p));
    }

    // ── the reconciler's commands ──

    method Query(p: nat, ids: seq<string>, since: int) returns (checks: seq<Check>)
      requires Here(p, Idle)
      modifies this
      ensures Here(p, Checking(checks)) && checks == ReadAll(old(s), ids, since)
      ensures trace == old(trace) + [Snapshot(p, ids, since)] && Mine(p) == old(Mine(p)) + [Snapshot(p, ids, since)]
      ensures Fixes(p) == old(Fixes(p))
    {
      checks := ReadAll(s, ids, since);
      Do(Snapshot(p, ids, since));
    }

    method Compare(p: nat, c: Check, ghost rest: seq<Check>, likesFirst: bool)
      requires Here(p, Checking([c] + rest))
      modifies this
      ensures Here(p, Judged(c, likesFirst, rest))
      ensures trace == old(trace) + [Judge(p, likesFirst)] && Mine(p) == old(Mine(p)) + [Judge(p, likesFirst)]
      ensures Fixes(p) == old(Fixes(p))
    {
      hide Runs, End, Inv, Next, AllOwed, Own, Repairs, Applies, By;
      assert ([c] + rest)[0] == c && ([c] + rest)[1..] == rest;
      Act(p, Judge(p, likesFirst));
    }

    method Get(p: nat, c: Check, k: Key, ghost keys: seq<Key>, ghost rest: seq<Check>, ok: bool) returns (pending: bool)
      requires Here(p, Looking(c, [k] + keys, rest))
      modifies this
      ensures Here(p, if pending then Checking(rest) else Looking(c, keys, rest))
      ensures pending <==> !ok || At(old(s).delta, k) != 0
      ensures trace == old(trace) + [if ok then Look(p) else LookFail(p)] && Mine(p) == old(Mine(p)) + [if ok then Look(p) else LookFail(p)]
      ensures Fixes(p) == old(Fixes(p))
    {
      hide Runs, End, Inv, Next, AllOwed, Own, Repairs, Applies, By;
      assert ([k] + keys)[0] == k && ([k] + keys)[1..] == keys;
      pending := !ok || At(s.delta, k) != 0;
      Act(p, if ok then Look(p) else LookFail(p));
    }

    method Pass(p: nat, c: Check, ghost rest: seq<Check>)
      requires Here(p, Looking(c, [], rest)) && c.busy
      modifies this
      ensures Here(p, Checking(rest)) && trace == old(trace) + [Skip(p)] && Mine(p) == old(Mine(p)) + [Skip(p)]
      ensures Fixes(p) == old(Fixes(p))
    {
      hide Runs, End, Inv, Next, AllOwed, Own, Repairs, Applies, By;
      Act(p, Skip(p));
    }

    /** The conditional UPDATE; n is the number of rows it changed. */
    method Update(p: nat, c: Check, ghost rest: seq<Check>, ok: bool) returns (n: nat)
      requires Here(p, Looking(c, [], rest)) && !c.busy
      modifies this
      ensures Here(p, if ok then Checking(rest) else Idle)
      ensures n == if ok && Applies(old(s), p) then 1 else 0
      ensures trace == old(trace) + [if ok then Repair(p) else RepairFail(p)] && Mine(p) == old(Mine(p)) + [if ok then Repair(p) else RepairFail(p)]
      ensures Fixes(p) == old(Fixes(p)) + n
    {
      hide Runs, End, Inv, AllOwed, Own, Repairs;
      n := if ok && Applies(s, p) then 1 else 0;
      Do(if ok then Repair(p) else RepairFail(p));
    }

    method Close(p: nat)
      requires Here(p, Checking([]))
      modifies this
      ensures Here(p, Idle) && trace == old(trace) + [PassEnd(p)] && Mine(p) == old(Mine(p)) + [PassEnd(p)]
      ensures Fixes(p) == old(Fixes(p))
    {
      hide Runs, End, Inv, Next, AllOwed, Own, Repairs, Applies, By;
      Act(p, PassEnd(p));
    }

    // ── the code ──

    /** Incr: INCRBY, SADD, and the undo when the delta could not be scheduled. */
    method Incr(p: nat, o: Outcomes) returns (r: Answer)
      requires Valid() && p < |s.procs| && (s.procs[p].Bump? || s.procs[p].PutBack?)
      modifies this
      ensures Here(p, AfterIncr(old(s).procs[p], r)) && r == AnswerOf(o)
      ensures old(trace) <= trace && Mine(p) == old(Mine(p)) + IncrSteps(p, old(s).procs[p].Bump?, o)
    {
      hide Runs, End, Inv, Next, AllOwed, Own, Repairs, Applies, By, IncrSteps;
      ghost var mine, bump := Mine(p), s.procs[p].Bump?;
      IncrParts(mine, p, bump, o);
      Others(p);
      IncrBy(p, o.stored);
      if !o.stored {
        return NotRecorded;
      }
      Others(p);
      SAdd(p, o.scheduled);
      if o.scheduled {
        return Recorded;
      }
      Others(p);
      UndoIncr(p, o.undone);
      r := if o.undone then NotRecorded else Unscheduled;
    }

    /** bumpCounter after the like, unlike or share committed: falls back to the database exactly
        when Redis kept nothing. ok means the change is in Redis or in the column. */
    method BumpCounter(p: nat, k: Key, n: int, o: Outcomes) returns (ok: bool)
      requires Here(p, Bump(k, n))
      modifies this
      ensures Here(p, Idle) && (ok <==> (o.stored && (o.scheduled || !o.undone)) || o.added)
      ensures old(trace) <= trace && Mine(p) == old(Mine(p)) + BumpSteps(p, o)
    {
      hide Runs, End, Inv, Next, AllOwed, Own, Repairs, Applies, By, IncrSteps;
      var r := Incr(p, o);
      ok := true;
      if r == NotRecorded {
        Others(p);
        ok := o.added;
        Add(p, ok);
      }
    }

    /** LikePost and SharePost: the INSERT, which does nothing when the row is there already, then the
        count. row.at is the transaction's time; a transaction that fails leaves nothing. */
    method LikePost(p: nat, k: Key, row: Row, committed: bool, o: Outcomes) returns (inserted: bool, ok: bool)
      requires Here(p, Idle)
      modifies this
      ensures Here(p, Idle) && (inserted <==> committed && row.id !in RowsOf(old(s), k))
      ensures !inserted ==> s == old(s) && trace == old(trace) && ok == committed
      ensures inserted ==> old(trace) < trace && Mine(p) == old(Mine(p)) + [Insert(p, k, row)] + BumpSteps(p, o)
      ensures inserted ==> (ok <==> (o.stored && (o.scheduled || !o.undone)) || o.added)
    {
      hide Runs, End, Inv, Next, AllOwed, Own, Repairs, Applies, By, BumpSteps;
      inserted, ok := committed && row.id !in RowsOf(s, k), committed;
      if inserted {
        Act(p, Insert(p, k, row));
        ok := BumpCounter(p, k, 1, o);
      }
    }

    /** UnlikePost: the DELETE, then the count when there was a row. */
    method UnlikePost(p: nat, id: string, user: string, committed: bool, o: Outcomes) returns (deleted: bool, ok: bool)
      requires Here(p, Idle)
      modifies this
      ensures Here(p, Idle) && (deleted <==> committed && user in RowsOf(old(s), Key(id, LIKES)))
      ensures !deleted ==> s == old(s) && trace == old(trace) && ok == committed
      ensures deleted ==> old(trace) < trace && Mine(p) == old(Mine(p)) + [Delete(p, Key(id, LIKES), user)] + BumpSteps(p, o)
      ensures deleted ==> (ok <==> (o.stored && (o.scheduled || !o.undone)) || o.added)
    {
      hide Runs, End, Inv, Next, AllOwed, Own, Repairs, Applies, By, BumpSteps;
      var k := Key(id, LIKES);
      deleted, ok := committed && user in RowsOf(s, k), committed;
      if deleted {
        Act(p, Delete(p, k, user));
        ok := BumpCounter(p, k, -1, o);
      }
    }

    /** The GETDEL; when it fails the entry is marked dirty again. */
    method TakeDelta(p: nat, k: Key, ghost todo: seq<Key>, ghost err: bool, o: Outcomes) returns (delta: int)
      requires Here(p, Flushing([k] + todo, err))
      modifies this
      ensures Here(p, if o.read && delta != 0 then Holding(k, delta, todo, err) else Flushing(todo, err || !o.read))
      ensures old(trace) <= trace
      ensures Mine(p) == old(Mine(p)) + if o.read then [GetOk(p)] else [GetFail(p), if o.readded then ReaddOk(p) else ReaddFail(p)]
    {
      hide Runs, End, Inv, Next, AllOwed, Own, Repairs, Applies, By;
      Others(p);
      delta := GetDel(p, k, todo, err, o.read);
      if !o.read {
        Others(p);
        Readd(p, k, todo, o.readded);
      }
    }

    /** The UPDATE of a delta taken out of Redis; when it fails the delta goes back. */
    method ApplyOrPutBack(p: nat, o: Outcomes)
      requires Valid() && p < |s.procs| && s.procs[p].Holding?
      modifies this
      ensures var q := old(s).procs[p]; Here(p, Flushing(q.todo, q.err || !o.added))
      ensures old(trace) <= trace
      ensures Mine(p) == old(Mine(p)) + if o.added then [AddOk(p)] else [AddFail(p)] + IncrSteps(p, false, o)
    {
      hide Runs, End, Inv, Next, AllOwed, Own, Repairs, Applies, By, IncrSteps;
      Others(p);
      Add(p, o.added);
      if !o.added {
        var r := Incr(p, o);
      }
    }

    /** One popped entry of Flush; had says whether Redis held a delta for it. */
    method FlushOne(p: nat, m: string, ghost k: Key, ghost todo: seq<Key>, ghost err: bool, o: Outcomes)
      returns (wrote: bool, failed: bool, had: bool)
      requires Here(p, Flushing([k] + todo, err)) && m == Member(k) && '|' !in k.field
      modifies this
      ensures Here(p, Flushing(todo, err || failed)) && wrote == Wrote(o, had) && failed == Erred(o, had)
      ensures old(trace) <= trace && Mine(p) == old(Mine(p)) + EntrySteps(p, o, had)
    {
      hide Runs, End, Inv, Next, AllOwed, Own, Repairs, Applies, By, IncrSteps;
      var key := ParseMember(m, k);
      var delta := TakeDelta(p, key, todo, err, o);
      wrote, failed, had := false, !o.read, o.read && delta != 0;
      if had {
        ApplyOrPutBack(p, o);
        wrote, failed := o.added, !o.added;
      }
    }

    /** Flush: pops, finishes every popped entry whatever fails, and returns. written counts the
        columns updated and an error is reported exactly when a read or an update failed, or the pop
        itself. */
    method Flush(p: nat, taken: seq<Key>, popped: bool, outcomes: seq<Outcomes>) returns (written: nat, failed: bool, had: seq<bool>)
      requires Here(p, Idle) && Enabled(s, Pop(p, taken)) && |outcomes| == |taken|
      requires forall k :: k in taken ==> '|' !in k.field
      modifies this
      ensures Here(p, Idle) && |had| == |taken|
      ensures !popped ==> failed && written == 0 && trace == old(trace)
      ensures popped ==> old(trace) <= trace && Mine(p) == old(Mine(p)) + [Pop(p, taken)] + EntriesSteps(p, outcomes, had) + [FlushEnd(p)]
      ensures popped ==> written == |set i | 0 <= i < |taken| && outcomes[i].read && had[i] && outcomes[i].added|
      ensures popped ==> (failed <==> exists i :: 0 <= i < |taken| && (!outcomes[i].read || (had[i] && !outcomes[i].added)))
    {
      hide Runs, End, Inv, Next, AllOwed, Own, Repairs, Applies, EntrySteps, EntriesSteps, WrittenIn, AnyErred, Wrote, Erred, By;
      NoEntries(p);
      if !popped {
        return 0, true, seq(|taken|, _ => false);
      }
      SPopN(p, taken);
      hide Enabled;
      written, failed, had := 0, false, [];
      assert taken[0..] == taken;
      ghost var start := old(Mine(p)) + [Pop(p, taken)];
      for i := 0 to |taken|
        invariant Here(p, Flushing(taken[i..], failed)) && |had| == i && old(trace) <= trace
        invariant Mine(p) == start + EntriesSteps(p, outcomes[..i], had) && written == WrittenIn(outcomes[..i], had)
        invariant failed <==> AnyErred(outcomes[..i], had)
      {
        assert taken[i..] == [taken[i]] + taken[i + 1..];
        var wrote, err, held := FlushOne(p, Member(taken[i]), taken[i], taken[i + 1..], failed, outcomes[i]);
        EntriesOn(p, outcomes, i, had, held);
        Assoc(start, EntriesSteps(p, outcomes[..i], had), EntrySteps(p, outcomes[i], held));
        written, failed, had := if wrote then written + 1 else written, failed || err, had + [held];
      }
      assert taken[|taken|..] == [] && outcomes[..|taken|] == outcomes;
      WrittenCounts(outcomes, had);
      Return(p, failed);
    }
  }

  lemma {:induction false} WrittenCounts(o: seq<Outcomes>, had: seq<bool>)
    requires |o| == |had|
    ensures WrittenIn(o, had) == |set i | 0 <= i < |o| && o[i].read && had[i] && o[i].added|
    ensures AnyErred(o, had) <==> exists i :: 0 <= i < |o| && (!o[i].read || (had[i] && !o[i].added))
  {
    if o != [] {
      var n := |o| - 1;
      var o', had' := o[..n], had[..n];
      WrittenCounts(o', had');
      var before := set i | 0 <= i < |o'| && o'[i].read && had'[i] && o'[i].added;
      var all := set i | 0 <= i < |o| && o[i].read && had[i] && o[i].added;
      assert all == before + if Wrote(o[n], had[n]) then {n} else {};
      assert n !in before;
    }
  }

  lemma NoEntries(p: nat)
    ensures EntriesSteps(p, [], []) == [] && WrittenIn([], []) == 0 && !AnyErred([], [])
  {
  }

  lemma EntriesOn(p: nat, o: seq<Outcomes>, i: nat, had: seq<bool>, held: bool)
    requires i < |o| && |had| == i
    ensures EntriesSteps(p, o[..i + 1], had + [held]) == EntriesSteps(p, o[..i], had) + EntrySteps(p, o[i], held)
    ensures WrittenIn(o[..i + 1], had + [held]) == WrittenIn(o[..i], had) + if Wrote(o[i], held) then 1 else 0
    ensures AnyErred(o[..i + 1], had + [held]) <==> AnyErred(o[..i], had) || Erred(o[i], held)
  {
    hide EntrySteps, Wrote, Erred;
    var o', had' := o[..i + 1], had + [held];
    assert o'[..i] == o[..i] && had'[..i] == had && o'[i] == o[i] && had'[i] == held;
    assert forall j :: 0 <= j < i ==> o'[j] == o[..i][j] && had'[j] == had[j];
  }

  predicate Drifted(c: Check) { c.like.count != c.like.rows || c.share.count != c.share.rows }

  function DriftedIn(checks: seq<Check>): nat {
    if checks == [] then 0 else DriftedIn(checks[..|checks| - 1]) + (if Drifted(checks[|checks| - 1]) then 1 else 0)
  }

  /** What the reconciler is told while it handles one post. */
  datatype Replies = Replies(likesFirst: bool, first: bool, second: bool, update: bool)

  /** How one post ends: in order, exact; skipped because a delta is stored or may be (early: after
      the first key); skipped because a like or share is recent; repaired; skipped because the
      counts changed since; or the UPDATE failed, which ends the pass. */
  datatype Verdict = Unchanged | Pending(early: bool) | Recent | Fixed | Outrun | Broken

  predicate Skipped(v: Verdict) { v.Pending? || v == Recent || v == Outrun }

  function LookAt(p: nat, ok: bool): Step { if ok then Look(p) else LookFail(p) }

  /** The looks of hasPendingDelta. */
  function LookSteps(p: nat, o: Replies, early: bool): seq<Step> {
    [LookAt(p, o.first)] + if early then [] else [LookAt(p, o.second)]
  }

  function CheckSteps(p: nat, o: Replies, v: Verdict): seq<Step> {
    [Judge(p, o.likesFirst)]
    + if v == Unchanged then []
      else LookSteps(p, o, v.Pending? && v.early) + if v.Pending? then [] else [Concluding(p, v)]
  }

  function Concluding(p: nat, v: Verdict): Step {
    if v == Recent then Skip(p) else if v == Broken then RepairFail(p) else Repair(p)
  }

  /** The verdict fits the post and the replies. */
  predicate Fits(c: Check, o: Replies, v: Verdict) {
    && (v == Unchanged <==> !Drifted(c))
    && (v == Recent ==> c.busy) && (v == Fixed || v == Outrun || v == Broken ==> !c.busy)
    && (v == Broken ==> !o.update) && (v == Fixed || v == Outrun ==> o.update)
    && (!v.Pending? && v != Unchanged ==> o.first && o.second)
  }

  /** The verdicts fit the posts, and only the last can have ended the pass. */
  predicate AllFit(c: seq<Check>, o: seq<Replies>, v: seq<Verdict>) {
    |v| <= |c| && |v| <= |o| && (forall i :: 0 <= i < |v| ==> Fits(c[i], o[i], v[i])) && forall i :: 0 <= i < |v| - 1 ==> v[i] != Broken
  }

  lemma OneMoreFits(c: seq<Check>, o: seq<Replies>, vs: seq<Verdict>, v: Verdict)
    requires AllFit(c, o, vs) && (vs != [] ==> vs[|vs| - 1] != Broken) && |vs| < |c| && |vs| < |o| && Fits(c[|vs|], o[|vs|], v)
    ensures AllFit(c, o, vs + [v])
  {
    hide Fits;
    forall i | 0 <= i < |vs + [v]| ensures Fits(c[i], o[i], (vs + [v])[i]) {
      if i < |vs| {
        assert (vs + [v])[i] == vs[i];
      }
    }
  }

  /** Where a look stops, in the terms of the whole list of steps. */
  lemma CheckParts(mine: seq<Step>, p: nat, o: Replies, v: Verdict)
    ensures v == Unchanged ==> mine + CheckSteps(p, o, v) == mine + [Judge(p, o.likesFirst)]
    ensures v.Pending? ==> mine + CheckSteps(p, o, v) == mine + [Judge(p, o.likesFirst)] + LookSteps(p, o, v.early)
    ensures !v.Pending? && v != Unchanged ==>
      mine + CheckSteps(p, o, v) == mine + [Judge(p, o.likesFirst)] + LookSteps(p, o, false) + [Concluding(p, v)]
  {
    hide LookSteps, Concluding;
  }

  lemma JudgedExact(c: Check, likesFirst: bool, rest: seq<Check>)
    requires !Drifted(c)
    ensures Judged(c, likesFirst, rest) == Checking(rest)
  {
  }

  lemma FitsWhen(c: Check, o: Replies, v: Verdict)
    requires v == Unchanged <==> !Drifted(c)
    requires !v.Pending? && v != Unchanged ==> o.first && o.second && (v == Recent <==> c.busy) && (v != Recent ==> (v == Broken <==> !o.update))
    ensures Fits(c, o, v)
  {
  }

  function ChecksSteps(p: nat, o: seq<Replies>, v: seq<Verdict>): seq<Step>
    requires |o| >= |v|
  {
    if v == [] then [] else ChecksSteps(p, o, v[..|v| - 1]) + CheckSteps(p, o[|v| - 1], v[|v| - 1])
  }

  /** The whole pass. */
  function PassSteps(p: nat, ids: seq<string>, since: int, o: seq<Replies>, v: seq<Verdict>, ok: bool): seq<Step>
    requires |o| >= |v|
  {
    [Snapshot(p, ids, since)] + (ChecksSteps(p, o, v) + if ok then [PassEnd(p)] else [])
  }

  function CountOf(v: seq<Verdict>, f: Verdict -> bool): nat {
    if v == [] then 0 else CountOf(v[..|v| - 1], f) + (if f(v[|v| - 1]) then 1 else 0)
  }

  const IS_FIXED: Verdict -> bool := (v: Verdict) => v == Fixed

  const IS_SKIPPED: Verdict -> bool := (v: Verdict) => Skipped(v)

  lemma ChecksOn(p: nat, o: seq<Replies>, vs: seq<Verdict>, v: Verdict)
    requires |vs| < |o|
    ensures ChecksSteps(p, o, vs + [v]) == ChecksSteps(p, o, vs) + CheckSteps(p, o[|vs|], v)
    ensures CountOf(vs + [v], IS_FIXED) == CountOf(vs, IS_FIXED) + if v == Fixed then 1 else 0
    ensures CountOf(vs + [v], IS_SKIPPED) == CountOf(vs, IS_SKIPPED) + if Skipped(v) then 1 else 0
  {
    assert (vs + [v])[..|vs|] == vs;
  }

  /** The repairs of p in a run that changed a post. */
  ghost function Repairs(s: State, steps: seq<Step>, p: nat): nat {
    if steps == [] then 0
    else
      var before := steps[..|steps| - 1];
      Repairs(s, before, p) + if steps[|steps| - 1] == Repair(p) && Applies(End(s, before), p) then 1 else 0
  }

  lemma RepairsOn(s: State, steps: seq<Step>, st: Step, p: nat)
    ensures Repairs(s, steps + [st], p) == Repairs(s, steps, p) + if st == Repair(p) && Applies(End(s, steps), p) then 1 else 0
  {
    assert (steps + [st])[..|steps|] == steps;
  }

  /** Step i is a look that found a delta of the post. */
  ghost predicate Found(s: State, trace: seq<Step>, p: nat, c: Check, i: nat) {
    i < |trace| && trace[i] == Look(p)
    && (At(End(s, trace[..i]).delta, c.like.k) != 0 || At(End(s, trace[..i]).delta, c.share.k) != 0)
  }

  ghost predicate FoundSince(s: State, trace: seq<Step>, since: nat, p: nat, c: Check) {
    exists i :: since <= i && Found(s, trace, p, c, i)
  }

  /** Step i is a repair that found the counts changed since they were read. */
  ghost predicate Changed(s: State, trace: seq<Step>, p: nat, c: Check, i: nat) {
    i < |trace| && trace[i] == Repair(p)
    && (At(End(s, trace[..i]).db, c.like.k) != c.like.count || At(End(s, trace[..i]).db, c.share.k) != c.share.count)
  }

  ghost predicate ChangedSince(s: State, trace: seq<Step>, since: nat, p: nat, c: Check) {
    exists i :: since <= i && Changed(s, trace, p, c, i)
  }

  /** Why a post was not repaired, as far as Redis and the UPDATE decide: a key could not be read, or a
      look since then found a delta; or the counts were no longer those read. */
  ghost predicate Grounds(s: State, trace: seq<Step>, since: nat, p: nat, c: Check, o: Replies, v: Verdict) {
    && (v.Pending? ==> !o.first || (!v.early && !o.second) || FoundSince(s, trace, since, p, c))
    && (v == Outrun ==> ChangedSince(s, trace, since, p, c))
  }

  lemma FoundStays(s: State, trace: seq<Step>, later: seq<Step>, from: nat, since: nat, p: nat, c: Check)
    requires trace <= later && since <= from
    ensures FoundSince(s, trace, from, p, c) ==> FoundSince(s, later, since, p, c)
    ensures ChangedSince(s, trace, from, p, c) ==> ChangedSince(s, later, since, p, c)
  {
    if FoundSince(s, trace, from, p, c) {
      var i :| from <= i && Found(s, trace, p, c, i);
      assert later[..i] == trace[..i];
      assert Found(s, later, p, c, i);
    }
    if ChangedSince(s, trace, from, p, c) {
      var i :| from <= i && Changed(s, trace, p, c, i);
      assert later[..i] == trace[..i];
      assert Changed(s, later, p, c, i);
    }
  }

  lemma GroundsStay(s: State, trace: seq<Step>, later: seq<Step>, from: nat, since: nat, p: nat, c: Check, o: Replies, v: Verdict)
    requires Grounds(s, trace, from, p, c, o, v) && trace <= later && since <= from
    ensures Grounds(s, later, since, p, c, o, v)
  {
    hide FoundSince, ChangedSince;
    FoundStays(s, trace, later, from, since, p, c);
  }

  ghost predicate AllGrounded(s: State, trace: seq<Step>, since: nat, p: nat, c: seq<Check>, o: seq<Replies>, v: seq<Verdict>) {
    |v| <= |c| && |v| <= |o| && forall i :: 0 <= i < |v| ==> Grounds(s, trace, since, p, c[i], o[i], v[i])
  }

  lemma OneMoreGrounded(s: State, trace: seq<Step>, later: seq<Step>, since: nat, p: nat, c: seq<Check>, o: seq<Replies>, vs: seq<Verdict>, v: Verdict)
    requires AllGrounded(s, trace, since, p, c, o, vs) && trace <= later && since <= |trace| && |vs| < |c| && |vs| < |o|
    requires Grounds(s, later, |trace|, p, c[|vs|], o[|vs|], v)
    ensures AllGrounded(s, later, since, p, c, o, vs + [v])
  {
    hide Grounds;
    forall i | 0 <= i < |vs + [v]| ensures Grounds(s, later, since, p, c[i], o[i], (vs + [v])[i]) {
      if i < |vs| {
        GroundsStay(s, trace, later, since, since, p, c[i], o[i], vs[i]);
      } else {
        GroundsStay(s, later, later, |trace|, since, p, c[i], o[i], v);
      }
    }
  }

  lemma GroundedEarlier(s: State, trace: seq<Step>, from: nat, since: nat, p: nat, c: seq<Check>, o: seq<Replies>, vs: seq<Verdict>)
    requires AllGrounded(s, trace, from, p, c, o, vs) && since <= from
    ensures AllGrounded(s, trace, since, p, c, o, vs)
  {
    hide Grounds;
    forall i | 0 <= i < |vs| ensures Grounds(s, trace, since, p, c[i], o[i], vs[i]) {
      GroundsStay(s, trace, trace, from, since, p, c[i], o[i], vs[i]);
    }
  }

  lemma NoGrounds(s: State, trace: seq<Step>, since: nat, p: nat, c: seq<Check>, o: seq<Replies>)
    ensures AllGrounded(s, trace, since, p, c, o, [])
  {
  }

  lemma GroundedLater(s: State, trace: seq<Step>, later: seq<Step>, since: nat, p: nat, c: seq<Check>, o: seq<Replies>, vs: seq<Verdict>)
    requires AllGrounded(s, trace, since, p, c, o, vs) && trace <= later
    ensures AllGrounded(s, later, since, p, c, o, vs)
  {
    hide Grounds;
    forall i | 0 <= i < |vs| ensures Grounds(s, later, since, p, c[i], o[i], vs[i]) {
      GroundsStay(s, trace, later, since, since, p, c[i], o[i], vs[i]);
    }
  }

  lemma GroundsTell(s: State, trace: seq<Step>, since: nat, p: nat, c: seq<Check>, o: seq<Replies>, v: seq<Verdict>)
    requires AllGrounded(s, trace, since, p, c, o, v)
    ensures |v| <= |c| && |v| <= |o|
    ensures forall i :: 0 <= i < |v| && v[i].Pending? ==> !o[i].first || (!v[i].early && !o[i].second) || FoundSince(s, trace, since, p, c[i])
    ensures forall i :: 0 <= i < |v| && v[i] == Outrun ==> ChangedSince(s, trace, since, p, c[i])
  {
    hide FoundSince, ChangedSince;
    assert forall i :: 0 <= i < |v| ==> Grounds(s, trace, since, p, c[i], o[i], v[i]);
  }

  class Reconciler {
    const site: Site
    const batch: int
    const quiet: int
    var after: string

    constructor (site: Site, batch: int, quiet: int)
      ensures this.site == site && this.batch == batch && this.quiet == quiet && after == ""
    {
      this.site, this.batch, this.quiet, after := site, batch, quiet, "";
    }

    function BatchSize(): (n: nat)
      ensures n > 0 && (batch > 0 ==> n == batch) && (batch <= 0 ==> n == 500)
    {
      if batch <= 0 then 500 else batch
    }

    /** In seconds; the default is five minutes. */
    function QuietTime(): (q: nat)
      ensures q > 0 && (quiet > 0 ==> q == quiet) && (quiet <= 0 ==> q == 300)
    {
      if quiet <= 0 then 300 else quiet
    }

    /** One look. */
    method LookOnce(ghost since: nat, p: nat, c: Check, k: Key, ghost keys: seq<Key>, ghost rest: seq<Check>, ok: bool) returns (pending: bool)
      requires since <= |site.trace| && site.Here(p, Looking(c, [k] + keys, rest)) && (k == c.like.k || k == c.share.k)
      modifies site
      ensures site.Here(p, if pending then Checking(rest) else Looking(c, keys, rest)) && (!ok ==> pending)
      ensures old(site.trace) <= site.trace && site.Mine(p) == old(site.Mine(p)) + [if ok then Look(p) else LookFail(p)]
      ensures site.Fixes(p) == old(site.Fixes(p))
      ensures pending && ok ==> FoundSince(site.s0, site.trace, since, p, c)
    {
      hide Runs, End, Inv, Next, AllOwed, Own, Repairs, At;
      site.Others(p);
      ghost var at, before := |site.trace|, site.trace;
      pending := site.Get(p, c, k, keys, rest, ok);
      assert site.trace[..at] == before;
      assert pending && ok ==> Found(site.s0, site.trace, p, c, at);
    }

    /** hasPendingDelta: both delta keys are looked at, in either order, until one has a delta or
        cannot be read, which may be pending. */
    method HasPendingDelta(ghost since: nat, p: nat, c: Check, ghost rest: seq<Check>, o: Replies) returns (pending: bool, early: bool)
      requires since <= |site.trace| && site.Here(p, Judged(c, o.likesFirst, rest)) && Drifted(c)
      modifies site
      ensures site.Here(p, if pending then Checking(rest) else Looking(c, [], rest))
      ensures old(site.trace) <= site.trace && site.Mine(p) == old(site.Mine(p)) + LookSteps(p, o, early) && (early ==> pending)
      ensures !pending ==> o.first && o.second
      ensures pending ==> Grounds(site.s0, site.trace, since, p, c, o, Pending(early))
      ensures site.Fixes(p) == old(site.Fixes(p))
    {
      hide Runs, End, Inv, Next, AllOwed, Own, Repairs, Applies, By, At, FoundSince;
      var k1, k2 := if o.likesFirst then c.like.k else c.share.k, if o.likesFirst then c.share.k else c.like.k;
      assert [k1, k2] == [k1] + [k2] && [k2] + [] == [k2];
      pending := LookOnce(since, p, c, k1, [k2], rest, o.first);
      early := pending;
      if !pending {
        pending := LookOnce(since, p, c, k2, [], rest, o.second);
        Assoc(old(site.Mine(p)), [LookAt(p, o.first)], [LookAt(p, o.second)]);
      }
    }

    method CheckOne(p: nat, c: Check, ghost rest: seq<Check>, o: Replies) returns (v: Verdict)
      requires site.Here(p, Checking([c] + rest))
      modifies site
      ensures site.Here(p, if v == Broken then Idle else Checking(rest)) && Fits(c, o, v)
      ensures old(site.trace) <= site.trace && site.Mine(p) == old(site.Mine(p)) + CheckSteps(p, o, v)
      ensures Grounds(site.s0, site.trace, |old(site.trace)|, p, c, o, v)
      ensures site.Fixes(p) == old(site.Fixes(p)) + if v == Fixed then 1 else 0
    {
      hide Runs, End, Inv, Next, AllOwed, Own, Repairs, LookSteps, Found, Applies, CheckSteps, Concluding, At, Fits, Grounds, Judged, Drifted;
      ghost var mine, since := site.Mine(p), |site.trace|;
      site.Compare(p, c, rest, o.likesFirst);
      if !Drifted(c) {
        CheckParts(mine, p, o, Unchanged);
        FitsWhen(c, o, Unchanged);
        NothingToGround(site.s0, site.trace, since, p, c, o);
        JudgedExact(c, o.likesFirst, rest);
        return Unchanged;
      }
      var pending, early := HasPendingDelta(since, p, c, rest, o);
      if pending {
        CheckParts(mine, p, o, Pending(early));
        FitsWhen(c, o, Pending(early));
        return Pending(early);
      }
      v := Conclude(since, p, c, rest, o);
      CheckParts(mine, p, o, v);
      FitsWhen(c, o, v);
    }

    /** What follows when neither key has a delta. */
    method Conclude(ghost since: nat, p: nat, c: Check, ghost rest: seq<Check>, o: Replies) returns (v: Verdict)
      requires site.Here(p, Looking(c, [], rest)) && since <= |site.trace|
      modifies site
      ensures Grounds(site.s0, site.trace, since, p, c, o, v)
      ensures site.Here(p, if v == Broken then Idle else Checking(rest)) && !v.Pending? && v != Unchanged
      ensures (v == Recent <==> c.busy) && (v != Recent ==> (v == Broken <==> !o.update))
      ensures old(site.trace) <= site.trace && site.Mine(p) == old(site.Mine(p)) + [Concluding(p, v)]
      ensures site.Fixes(p) == old(site.Fixes(p)) + if v == Fixed then 1 else 0
    {
      hide Runs, End, Inv, Next, AllOwed, Own, Repairs, Applies;
      if c.busy {
        site.Pass(p, c, rest);
        return Recent;
      }
      site.Others(p);
      ghost var at, before, was := |site.trace|, site.trace, site.s;
      var n := site.Update(p, c, rest, o.update);
      assert site.trace[..at] == before;
      if o.update && n == 0 {
        NotApplied(was, p, c, rest);
        assert Changed(site.s0, site.trace, p, c, at);
      }
      v := if !o.update then Broken else if n == 1 then Fixed else Outrun;
    }

    /** The loop over the posts read. */
    method CheckAll(p: nat, checks: seq<Check>, replies: seq<Replies>)
      returns (checked: nat, fixed: nat, skipped: nat, ok: bool, ghost verdicts: seq<Verdict>)
      requires site.Here(p, Checking(checks)) && |replies| == |checks|
      modifies site
      ensures site.Here(p, Idle) && old(site.trace) <= site.trace && checked == |verdicts| <= |checks|
      ensures site.Mine(p) == old(site.Mine(p)) + (ChecksSteps(p, replies, verdicts) + if ok then [PassEnd(p)] else [])
      ensures AllFit(checks, replies, verdicts) && AllGrounded(site.s0, site.trace, |old(site.trace)|, p, checks, replies, verdicts)
      ensures ok && verdicts != [] ==> verdicts[|verdicts| - 1] != Broken
      ensures if ok then |verdicts| == |checks| && fixed + skipped == DriftedIn(checks) else verdicts != [] && verdicts[|verdicts| - 1] == Broken
      ensures fixed == CountOf(verdicts, IS_FIXED) == site.Fixes(p) - old(site.Fixes(p)) && skipped == CountOf(verdicts, IS_SKIPPED)
    {
      hide Runs, End, Inv, Next, AllOwed, Judged, Own, Repairs, CheckSteps, Fits, AllFit, ChecksSteps, CountOf, Drifted, By, Grounds, AllGrounded;
      ghost var mine, since := site.Mine(p), |site.trace|;
      NoVerdicts(p, checks, replies);
      NoGrounds(site.s0, site.trace, since, p, checks, replies);
      checked, fixed, skipped, ok, verdicts := 0, 0, 0, true, [];
      assert checks[0..] == checks;
      for i := 0 to |checks|
        invariant site.Here(p, Checking(checks[i..])) && old(site.trace) <= site.trace
        invariant ok && checked == i == |verdicts| && fixed + skipped == DriftedIn(checks[..i])
        invariant site.Mine(p) == mine + ChecksSteps(p, replies, verdicts)
        invariant AllGrounded(site.s0, site.trace, since, p, checks, replies, verdicts)
        invariant AllFit(checks, replies, verdicts) && (i > 0 ==> verdicts[i - 1] != Broken)
        invariant fixed == CountOf(verdicts, IS_FIXED) == site.Fixes(p) - old(site.Fixes(p)) && skipped == CountOf(verdicts, IS_SKIPPED)
      {
        OneDrifts(checks, i);
        checked := checked + 1;
        ghost var before := site.trace;
        var v := CheckOne(p, checks[i], checks[i + 1..], replies[i]);
        OneMoreGrounded(site.s0, before, site.trace, since, p, checks, replies, verdicts, v);
        ChecksOn(p, replies, verdicts, v);
        OneMoreFits(checks, replies, verdicts, v);
        Assoc(mine, ChecksSteps(p, replies, verdicts), CheckSteps(p, replies[i], v));
        FitCounts(checks[i], replies[i], v);
        verdicts := verdicts + [v];
        if v == Broken {
          ok := false;
          return;
        }
        fixed, skipped := if v == Fixed then fixed + 1 else fixed, if Skipped(v) then skipped + 1 else skipped;
      }
      assert checks[..|checks|] == checks && checks[|checks|..] == [];
      ghost var before := site.trace;
      site.Close(p);
      GroundedLater(site.s0, before, site.trace, since, p, checks, replies, verdicts);
      Assoc(mine, ChecksSteps(p, replies, verdicts), [PassEnd(p)]);
    }

    /** The SELECT, and the position after it. */
    method ReadBatch(p: nat, ghost table: set<string>, ids: seq<string>, since: int) returns (read: seq<Check>)
      requires site.Here(p, Idle)
      modifies this, site
      ensures site.Here(p, Checking(read)) && read == ReadAll(old(site.s), ids, since) && |read| == |ids|
      ensures after == if |ids| < BatchSize() then "" else ids[|ids| - 1]
      ensures old(site.trace) <= site.trace && site.Mine(p) == old(site.Mine(p)) + [Snapshot(p, ids, since)] && site.Fixes(p) == old(site.Fixes(p))
    {
      hide Runs, End, Inv, Next, AllOwed, Own, Repairs, Applies, By;
      read := site.Query(p, ids, since);
      after := if |read| < BatchSize() then "" else read[|read| - 1].like.k.id;
    }

    /** RunOnce: reads the next batch in one statement, moves the position (back to the start
        after a short page), and judges the posts one by one up to the first whose UPDATE fails.
        fixed is the number of posts its UPDATEs changed; every other drifted post was skipped for
        one of the three reasons. */
    method RunOnce(p: nat, ghost table: set<string>, ids: seq<string>, now: int, queried: bool, replies: seq<Replies>)
      returns (checked: nat, fixed: nat, skipped: nat, ok: bool, ghost checks: seq<Check>, ghost verdicts: seq<Verdict>)
      requires site.Here(p, Idle) && |replies| == |ids|
      requires Order.KeysetPage(table, after, BatchSize(), ids)
      modifies this, site
      ensures site.Here(p, Idle) && old(site.trace) <= site.trace && checked == |verdicts|
      ensures !queried ==> !ok && verdicts == [] && after == old(after) && site.trace == old(site.trace)
      ensures queried ==> after == if |ids| < BatchSize() then "" else ids[|ids| - 1]
      ensures queried ==> checks == ReadAll(old(site.s), ids, now - QuietTime()) && |verdicts| <= |checks| == |ids|
      ensures queried ==> site.Mine(p) == old(site.Mine(p)) + PassSteps(p, ids, now - QuietTime(), replies, verdicts, ok)
      ensures queried ==> AllFit(checks, replies, verdicts) && AllGrounded(site.s0, site.trace, |old(site.trace)|, p, checks, replies, verdicts)
      ensures queried ==> if ok then |verdicts| == |ids| && fixed + skipped == DriftedIn(checks) else verdicts != [] && verdicts[|verdicts| - 1] == Broken
      ensures queried ==> forall i :: 0 <= i < |verdicts| ==>
        (verdicts[i] == Unchanged <==> checks[i].like.count == checks[i].like.rows && checks[i].share.count == checks[i].share.rows)
      ensures queried && ok ==> forall i :: 0 <= i < |verdicts| ==> verdicts[i] != Broken
      ensures queried ==> forall i :: 0 <= i < |verdicts| ==>
        (verdicts[i] == Recent ==> checks[i].busy) && (verdicts[i] == Fixed ==> !checks[i].busy && replies[i].update)
        && (verdicts[i].Pending? ==> !replies[i].first || (!verdicts[i].early && !replies[i].second)
                                     || FoundSince(site.s0, site.trace, |old(site.trace)|, p, checks[i]))
        && (verdicts[i] == Outrun ==> ChangedSince(site.s0, site.trace, |old(site.trace)|, p, checks[i]))
      ensures fixed == CountOf(verdicts, IS_FIXED) == site.Fixes(p) - old(site.Fixes(p)) && skipped == CountOf(verdicts, IS_SKIPPED)
    {
      hide Runs, End, Inv, Next, AllOwed, Own, Repairs, ReadAll, AllFit, AllGrounded, CountOf, ChecksSteps, DriftedIn, Order.KeysetPage, By;
      ghost var mine := site.Mine(p);
      checks, verdicts := [], [];
      if !queried {
        NoVerdicts(p, [], []);
        return 0, 0, 0, false, [], [];
      }
      var read := ReadBatch(p, table, ids, now - QuietTime());
      checks := read;
      ghost var since := |site.trace|;
      checked, fixed, skipped, ok, verdicts := CheckAll(p, read, replies);
      GroundedEarlier(site.s0, site.trace, since, |old(site.trace)|, p, checks, replies, verdicts);
      CountsDecide(checks, replies, verdicts);
      GroundsTell(site.s0, site.trace, |old(site.trace)|, p, checks, replies, verdicts);
      Assoc(mine, [Snapshot(p, ids, now - QuietTime())], ChecksSteps(p, replies, verdicts) + if ok then [PassEnd(p)] else []);
    }
  }

  lemma NotApplied(s: State, p: nat, c: Check, rest: seq<Check>)
    requires p < |s.procs| && s.procs[p] == Looking(c, [], rest) && !c.busy && !Applies(s, p)
    ensures At(s.db, c.like.k) != c.like.count || At(s.db, c.share.k) != c.share.count
  {
  }

  lemma NothingToGround(s: State, trace: seq<Step>, since: nat, p: nat, c: Check, o: Replies)
    ensures Grounds(s, trace, since, p, c, o, Unchanged)
  {
  }

  lemma NoVerdicts(p: nat, checks: seq<Check>, o: seq<Replies>)
    ensures AllFit(checks, o, []) && ChecksSteps(p, o, []) == [] && CountOf([], IS_FIXED) == 0 && CountOf([], IS_SKIPPED) == 0
  {
  }

  lemma OneDrifts(checks: seq<Check>, i: nat)
    requires i < |checks|
    ensures checks[i..] == [checks[i]] + checks[i + 1..]
    ensures DriftedIn(checks[..i + 1]) == DriftedIn(checks[..i]) + if Drifted(checks[i]) then 1 else 0
  {
    assert checks[..i + 1][..i] == checks[..i];
  }

  /** A post is passed over exactly when both its counts are right. */
  lemma CountsDecide(c: seq<Check>, o: seq<Replies>, v: seq<Verdict>)
    requires AllFit(c, o, v)
    ensures forall i :: 0 <= i < |v| ==> (v[i] == Unchanged <==> c[i].like.count == c[i].like.rows && c[i].share.count == c[i].share.rows)
    ensures v != [] && v[|v| - 1] != Broken ==> forall i :: 0 <= i < |v| ==> v[i] != Broken
    ensures forall i :: 0 <= i < |v| ==> (v[i] == Recent ==> c[i].busy) && (v[i] == Fixed ==> !c[i].busy && o[i].update)
  {
    forall i | 0 <= i < |v|
      ensures v[i] == Unchanged <==> c[i].like.count == c[i].like.rows && c[i].share.count == c[i].share.rows
      ensures (v[i] == Recent ==> c[i].busy) && (v[i] == Fixed ==> !c[i].busy && o[i].update)
    {
      assert Fits(c[i], o[i], v[i]);
    }
  }

  lemma FitCounts(c: Check, o: Replies, v: Verdict)
    requires Fits(c, o, v)
    ensures v != Broken ==> (if Drifted(c) then 1 else 0) == (if v == Fixed then 1 else 0) + if Skipped(v) then 1 else 0
    ensures v == Broken ==> !Skipped(v)
  {
  }

  /** One pass of the reconciler's walk: the page it read from the table as it was then. */
  datatype Lap = Lap(table: set<string>, page: seq<string>)

  /** Passes that follow one another, the last page being the first short one. */
  ghost predicate OneLap(base: set<string>, after: string, n: nat, laps: seq<Lap>)
    decreases |laps|
  {
    laps != [] && base <= laps[0].table && Order.KeysetPage(laps[0].table, after, n, laps[0].page)
    && if |laps[0].page| < n then |laps| == 1 else n > 0 && OneLap(base, laps[0].page[n - 1], n, laps[1..])
  }

  function Visited(laps: seq<Lap>): set<string> {
    if laps == [] then {} else Order.Seen(laps[0].page) + Visited(laps[1..])
  }

  /** Between two wraps of the position every post that existed throughout was checked, whatever
      was inserted meanwhile. */
  lemma {:induction false} LapChecksAll(base: set<string>, after: string, seen: set<string>, n: nat, laps: seq<Lap>)
    requires n > 0 && Order.Walked(base, after, seen) && OneLap(base, after, n, laps)
    ensures base <= seen + Visited(laps)
    decreases |laps|
  {
    Order.WalkStep(base, laps[0].table, after, n, laps[0].page, seen);
    if |laps[0].page| == n {
      LapChecksAll(base, laps[0].page[n - 1], seen + Order.Seen(laps[0].page), n, laps[1..]);
    }
  }
}
