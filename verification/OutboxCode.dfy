/** PGStore on a table it updates in place, and PublishNow and RunOnce as runs of the outbox
    machine. */
module OutboxCode {
  import opened Outbox
  import opened Traces

  /** The oldest due rows nobody else has locked, in id order. */
  ghost predicate Oldest(t: Table, at: int, limit: nat, locked: set<nat>, recs: seq<Rec>) {
    && |recs| <= limit
    && (forall r :: r in recs ==> Due(t, r.id, at) && r.id !in locked && r.attempts == t[r.id].attempts)
    && Ascending(recs)
    && forall id :: Due(t, id, at) && id !in locked && id !in Ids(recs) ==>
         |recs| == limit && forall r :: r in recs ==> r.id < id
  }

  ghost predicate Ascending(recs: seq<Rec>) {
    forall i, j :: 0 <= i < j < |recs| ==> recs[i].id < recs[j].id
  }

  ghost predicate IsLeast(m: nat, ids: set<nat>) {
    m in ids && forall id :: id in ids ==> m <= id
  }

  function Least(ids: set<nat>): (m: nat)
    requires ids != {}
    ensures IsLeast(m, ids)
  {
    LeastExists(ids);
    var m :| m in ids && forall id :: id in ids ==> m <= id;
    m
  }

  lemma {:induction false} LeastExists(ids: set<nat>)
    requires ids != {}
    ensures exists m :: IsLeast(m, ids)
  {
    var x :| x in ids;
    var rest := ids - {x};
    assert forall id :: id in ids ==> id == x || id in rest;
    if rest == {} {
      assert IsLeast(x, ids);
    } else {
      LeastExists(rest);
      var m :| IsLeast(m, rest);
      assert IsLeast(if m <= x then m else x, ids);
    }
  }

  /** ORDER BY id LIMIT n. */
  function First(ids: set<nat>, n: nat): (f: set<nat>)
    ensures f <= ids && |f| <= n
    ensures forall id :: id in ids && id !in f ==> |f| == n && forall x :: x in f ==> x < id
    decreases n
  {
    if n == 0 || ids == {} then {} else
      var m := Least(ids);
      var rest := First(ids - {m}, n - 1);
      assert |{m} + rest| == 1 + |rest|;
      {m} + rest
  }

  lemma Spliced(recs: seq<Rec>, i: nat, r: Rec, out: seq<Rec>)
    requires Ascending(recs) && i <= |recs| && out == recs[..i] + [r] + recs[i..]
    requires i > 0 ==> recs[i - 1].id < r.id
    requires i < |recs| ==> r.id < recs[i].id
    ensures Ascending(out)
  {
    assert forall k :: 0 <= k < i ==> recs[k].id < r.id;
    assert forall k :: i <= k < |recs| ==> r.id < recs[k].id;
    assert forall k :: 0 <= k < |out| ==> out[k] == if k < i then recs[k] else if k == i then r else recs[k - 1];
  }

  lemma SplicedElems(recs: seq<Rec>, i: nat, r: Rec)
    requires i <= |recs|
    ensures multiset(recs[..i] + [r] + recs[i..]) == multiset(recs) + multiset{r}
  {
    assert recs == recs[..i] + recs[i..];
  }

  method Insert(recs: seq<Rec>, r: Rec) returns (out: seq<Rec>)
    requires Ascending(recs) && forall x :: x in recs ==> x.id != r.id
    ensures Ascending(out) && multiset(out) == multiset(recs) + multiset{r}
  {
    var i := |recs|;
    while i > 0 && recs[i - 1].id > r.id
      invariant 0 <= i <= |recs|
      invariant forall k :: i <= k < |recs| ==> recs[k].id > r.id
    {
      i := i - 1;
    }
    assert i > 0 ==> recs[i - 1] in recs;
    out := recs[..i] + [r] + recs[i..];
    Spliced(recs, i, r, out);
    SplicedElems(recs, i, r);
  }

  /** The rows of RETURNING, read in no particular order and sorted. */
  method Returned(t: Table, chosen: set<nat>) returns (recs: seq<Rec>)
    requires chosen <= t.Keys
    ensures Ascending(recs) && |recs| == |chosen| && Ids(recs) == chosen
    ensures forall r :: r in recs ==> r.id in chosen && r.attempts == t[r.id].attempts
  {
    var left := chosen;
    recs := [];
    while left != {}
      invariant left <= chosen && Ascending(recs) && |recs| + |left| == |chosen|
      invariant forall id :: id in chosen && id !in left ==> Rec(id, t[id].attempts) in recs
      invariant forall r :: r in recs ==> r.id in chosen && r.id !in left && r.attempts == t[r.id].attempts
    {
      var id :| id in left;
      left := left - {id};
      ghost var was := recs;
      recs := Insert(recs, Rec(id, t[id].attempts));
      InsertKeeps(was, Rec(id, t[id].attempts), recs);
    }
  }

  lemma InsertKeeps(was: seq<Rec>, r: Rec, out: seq<Rec>)
    requires multiset(out) == multiset(was) + multiset{r}
    ensures |out| == |was| + 1 && forall x :: x in out <==> x in was || x == r
  {
    assert |multiset(out)| == |out| && |multiset(was)| == |was|;
    forall x ensures x in out <==> x in was || x == r {
      assert x in out <==> x in multiset(out);
    }
  }

  /** What a claim takes: of the rows that are pending, due and not locked the first limit in id order,
      each with its attempts, and no others; none of them is due again before the lease is over. */
  lemma {:induction false} ClaimTakes(t: Table, at: int, limit: nat, locked: set<nat>, recs: seq<Rec>, next: int, t': Table)
    requires Oldest(t, at, limit, locked, recs) && t' == Claimed(t, Ids(recs), next)
    ensures |recs| <= limit && forall i, j :: 0 <= i < j < |recs| ==> recs[i].id < recs[j].id
    ensures forall r :: r in recs ==>
      r.id in t && r.id !in locked && t[r.id].status == Status.Pending && t[r.id].next <= at && r.attempts == t[r.id].attempts
    ensures forall id :: id in t && id !in locked && t[id].status == Status.Pending && t[id].next <= at && id !in Ids(recs) ==>
      |recs| == limit && forall r :: r in recs ==> r.id < id
    ensures t'.Keys == t.Keys && forall id :: id in t ==> t'[id] == if id in Ids(recs) then Row(t[id].status, t[id].attempts, next) else t[id]
  {
    forall id | id in t && id !in locked && t[id].status == Status.Pending && t[id].next <= at && id !in Ids(recs)
      ensures |recs| == limit && forall r :: r in recs ==> r.id < id
    {
      assert Due(t, id, at);
    }
  }

  class PGStore {
    const leaseSetting: int
    var rows: Table

    constructor (lease: int)
      ensures rows == map[] && leaseSetting == lease
    {
      leaseSetting, rows := lease, map[];
    }

    /** Seconds; two minutes unless configured. */
    function Lease(): (l: int)
      ensures l > 0 && (leaseSetting > 0 ==> l == leaseSetting) && (leaseSetting <= 0 ==> l == 120)
    {
      if leaseSetting <= 0 then 120 else leaseSetting
    }

    /** The insert, in the transaction of the change it describes; id is the next of the table's
        sequence. No relay can claim the row before notBefore, any can from then on, and what else
        is due does not change. */
    method Enqueue(id: nat, notBefore: int) returns (rec: Rec)
      requires id !in rows
      modifies this
      ensures rows == old(rows)[id := Row(Status.Pending, 0, notBefore)] && rec == Rec(id, 0)
      ensures forall x, at :: Due(rows, x, at) <==> if x == id then at >= notBefore else Due(old(rows), x, at)
    {
      rows := rows[id := Row(Status.Pending, 0, notBefore)];
      rec := Rec(id, 0);
    }

    /** Claims the oldest due rows that no concurrent statement has locked and returns them
        oldest first, whatever order RETURNING gives; each is then not due for the lease. */
    method Pending(at: int, limit: nat, locked: set<nat>) returns (recs: seq<Rec>)
      modifies this
      ensures Oldest(old(rows), at, limit, locked, recs)
      ensures rows == Claimed(old(rows), Ids(recs), at + Lease())
    {
      var due := set id | id in rows && Due(rows, id, at) && id !in locked;
      var chosen := First(due, limit);
      recs := Returned(rows, chosen);
      assert forall id :: id in chosen ==> id in due;
      rows := Claimed(rows, chosen, at + Lease());
    }

    /** Only a pending row changes: one given up on stays dead. */
    method MarkPublished(id: nat)
      modifies this
      ensures rows == MarkedPublished(old(rows), id)
      ensures rows.Keys == old(rows).Keys && forall x :: x in rows ==>
        rows[x] == if x == id && old(rows)[x].status == Status.Pending then Row(Published, old(rows)[x].attempts, old(rows)[x].next) else old(rows)[x]
    {
      if id in rows && rows[id].status == Status.Pending {
        rows := rows[id := rows[id].(status := Published)];
      }
    }

    method MarkFailed(id: nat, attempts: nat, next: int, dead: bool)
      modifies this
      ensures rows == MarkedFailed(old(rows), id, attempts, next, dead)
      ensures rows.Keys == old(rows).Keys && forall x :: x in rows ==>
        rows[x] == if x == id && old(rows)[x].status == Status.Pending then Row(if dead then Dead else Status.Pending, attempts, next) else old(rows)[x]
    {
      if id in rows && rows[id].status == Status.Pending {
        rows := rows[id := Row(if dead then Dead else Status.Pending, attempts, next)];
      }
    }

    /** Deletes up to batch of the published rows that are old enough and says how many. */
    method Prune(expired: set<nat>, batch: nat) returns (n: nat, ghost gone: set<nat>)
      modifies this
      ensures rows == Pruned(old(rows), gone) && rows.Keys == old(rows).Keys - gone && n == |gone| <= batch
      ensures forall id :: id in gone ==> id in old(rows) && old(rows)[id].status == Published && id in expired
      ensures n < batch ==> forall id :: id in rows && id in expired ==> rows[id].status != Published
    {
      var chosen := First((set id | id in rows && rows[id].status == Published && id in expired), batch);
      gone, n := chosen, |chosen|;
      rows := Pruned(rows, chosen);
    }
  }

  /** What one record's calls answer: the context, the broker, the store. */
  datatype Outcome = Outcome(stopping: bool, accepted: bool, cancelled: bool, delivered: bool, next: int, stored: bool, applied: bool)

  /** What ends a pass: a shutdown, or a store that does not answer. */
  predicate Ends(o: Outcome) { o.stopping || !o.stored || (!o.accepted && o.cancelled) }

  lemma EndsMeans(recs: seq<Rec>, outcome: nat -> Outcome)
    ensures forall i :: 0 <= i < |recs| ==>
      (Ends(outcome(i)) <==> outcome(i).stopping || !outcome(i).stored || (!outcome(i).accepted && outcome(i).cancelled))
  {
  }

  datatype Verdict = Sent | Postponed | Parked | Aborted

  /** What a publisher's marks did: records marked published, pending rows left for another try,
      pending rows made dead, and failures of rows that somebody else had marked meanwhile. */
  datatype Tally = Tally(published: nat, failed: nat, dead: nat, stale: nat)

  /** The step st of p in state s, judged by what becomes of its row. */
  function Count(cfg: Config, s: State, t: Tally, st: Step, p: nat): Tally {
    if st == MarkOk(p) then t.(published := t.published + 1)
    else if st.FailOk? && st.p == p && Enabled(s, st) then
      var id := s.procs[p].todo[0].id;
      var after := Next(cfg, s, st).rows;
      if id !in s.rows || id !in after || s.rows[id].status != Status.Pending then t.(stale := t.stale + 1)
      else if after[id].status == Dead then t.(dead := t.dead + 1)
      else t.(failed := t.failed + 1)
    else t
  }

  function TallyOf(cfg: Config, start: State, steps: seq<Step>, p: nat): Tally {
    if steps == [] then Tally(0, 0, 0, 0)
    else
      var before := steps[..|steps| - 1];
      Count(cfg, End(cfg, start, before), TallyOf(cfg, start, before, p), steps[|steps| - 1], p)
  }

  /** One failure more, of a row already marked by somebody else, or of a pending one, which died of
      it exactly when it was its last. */
  predicate OneFailure(t: Tally, t': Tally, last: bool) {
    t' == t.(stale := t.stale + 1) || t' == if last then t.(dead := t.dead + 1) else t.(failed := t.failed + 1)
  }

  lemma FailureTallied(cfg: Config, s: State, t: Tally, p: nat, next: int)
    requires Enabled(s, FailOk(p, next))
    ensures var r := s.procs[p].todo[0];
      OneFailure(t, Count(cfg, s, t, FailOk(p, next), p), cfg.maxAttempts > 0 && r.attempts + 1 >= cfg.maxAttempts)
  {
    FailureCounts(cfg, s, p, next, Next(cfg, s, FailOk(p, next)));
    hide Next, Enabled;
  }

  /** The totals reported are what became of the rows, but for those marked by somebody else. */
  predicate Matches(t0: Tally, t: Tally, res: Totals) {
    && res.published == t.published - t0.published
    && t.failed - t0.failed <= res.failed && t.dead - t0.dead <= res.dead
    && res.failed + res.dead == (t.failed - t0.failed) + (t.dead - t0.dead) + (t.stale - t0.stale)
  }

  function By(p: nat): Step -> bool { (st: Step) => !st.Prune? && !st.Tick? && st.p == p }

  // ── the steps each piece of code takes itself ──

  /** One record: the publish, then the mark or the failure, unless a shutdown cut the publish. */
  function HandleSteps(p: nat, o: Outcome): seq<Step> {
    if o.accepted then [PublishOk(p), if o.stored then MarkOk(p) else MarkErr(p, o.applied)]
    else if o.cancelled then [Shutdown(p, o.delivered)]
    else [PublishErr(p, o.delivered), if o.stored then FailOk(p, o.next) else FailErr(p, o.next, o.applied)]
  }

  /** One more failure makes MaxAttempts. */
  predicate LastTry(cfg: Config, rec: Rec) { cfg.maxAttempts > 0 && rec.attempts + 1 >= cfg.maxAttempts }

  function VerdictOf(cfg: Config, rec: Rec, o: Outcome): Verdict {
    if !o.stored || (!o.accepted && o.cancelled) then Aborted
    else if o.accepted then Sent
    else if LastTry(cfg, rec) then Parked else Postponed
  }

  /** The verdict is what the marks did. */
  predicate Told(t: Tally, t': Tally, v: Verdict) {
    match v
    case Sent => t' == t.(published := t.published + 1)
    case Aborted => t' == t
    case _ => OneFailure(t, t', v == Parked)
  }

  /** The first n turns of the loop. */
  function TurnsSteps(p: nat, outcome: nat -> Outcome, n: nat): seq<Step> {
    if n == 0 then []
    else TurnsSteps(p, outcome, n - 1) + if outcome(n - 1).stopping then [Crash(p)] else HandleSteps(p, outcome(n - 1))
  }

  datatype Totals = Totals(published: nat, failed: nat, dead: nat)

  function Add(t: Totals, v: Verdict): Totals {
    match v
    case Sent => t.(published := t.published + 1)
    case Postponed => t.(failed := t.failed + 1)
    case Parked => t.(dead := t.dead + 1)
    case Aborted => t
  }

  /** What the first n turns come to. */
  function TotalsOf(cfg: Config, recs: seq<Rec>, outcome: nat -> Outcome, n: nat): Totals
    requires n <= |recs|
  {
    if n == 0 then Totals(0, 0, 0)
    else if outcome(n - 1).stopping then TotalsOf(cfg, recs, outcome, n - 1)
    else Add(TotalsOf(cfg, recs, outcome, n - 1), VerdictOf(cfg, recs[n - 1], outcome(n - 1)))
  }

  /** The loop handles records up to the first that ends the pass. */
  predicate StopsAt(outcome: nat -> Outcome, recs: nat, n: nat, err: bool) {
    n <= recs && (forall i :: 0 <= i < n - 1 ==> !Ends(outcome(i)))
    && if err then n > 0 && Ends(outcome(n - 1)) else n == recs && (n > 0 ==> !Ends(outcome(n - 1)))
  }

  /** A pass that is not cut accounts for every record, one is cut exactly by a call that ends it, and
      records die only when attempts are bounded. */
  lemma {:induction false} TotalsAddUp(cfg: Config, recs: seq<Rec>, outcome: nat -> Outcome, n: nat)
    requires n <= |recs|
    ensures var t := TotalsOf(cfg, recs, outcome, n);
      ((forall i :: 0 <= i < n ==> !Ends(outcome(i))) ==> t.published + t.failed + t.dead == n) && (t.dead > 0 ==> cfg.maxAttempts > 0)
  {
    if n > 0 {
      TotalsAddUp(cfg, recs, outcome, n - 1);
    }
  }

  /** The claim is step i of the run, made from the oldest due rows nobody else had locked. */
  ghost predicate ClaimedAt(cfg: Config, start: State, trace: seq<Step>, i: nat, p: nat, at: int, limit: nat, locked: set<nat>, recs: seq<Rec>) {
    i < |trace| && trace[i] == Claim(p, at, recs) && Oldest(End(cfg, start, trace[..i]).rows, at, limit, locked, recs)
  }

  lemma ClaimStays(cfg: Config, start: State, trace: seq<Step>, later: seq<Step>, i: nat, p: nat, at: int, limit: nat, locked: set<nat>, recs: seq<Rec>)
    requires ClaimedAt(cfg, start, trace, i, p, at, limit, locked, recs) && trace <= later
    ensures ClaimedAt(cfg, start, later, i, p, at, limit, locked, recs)
  {
    assert later[..i] == trace[..i];
  }

  /** The rest of a pass. */
  function Left(rest: seq<Rec>, fast: bool, until: int): Proc {
    if rest == [] then Idle else Work(rest, Publishing, fast, until)
  }

  class Relay {
    const cfg: Config
    const store: PGStore
    ghost const start: State
    ghost var s: State
    ghost var trace: seq<Step>

    /** The table is what some run of the machine reaches. */
    ghost predicate Valid() reads this, store {
      Inv(cfg, start) && Runs(cfg, start, trace) && s == End(cfg, start, trace) && store.rows == s.rows && store.Lease() == cfg.lease
    }

    ghost predicate Here(p: nat, q: Proc) reads this, store {
      Valid() && p < |s.procs| && s.procs[p] == q
    }

    ghost function Tallied(p: nat): Tally reads this { TallyOf(cfg, start, trace, p) }

    /** The steps p took so far. */
    ghost function Mine(p: nat): seq<Step> reads this { Own(trace, By(p)) }

    constructor (store: PGStore, cfg: Config, ghost n: nat, ghost now: int)
      requires store.rows == map[] && store.Lease() == cfg.lease
      ensures Valid() && this.store == store && this.cfg == cfg && s == Init(n, now)
    {
      Fresh(cfg, n, now);
      this.store, this.cfg := store, cfg;
      start, s, trace := Init(n, now), Init(n, now), [];
    }

    ghost method Do(st: Step)
      requires Runs(cfg, start, trace) && s == End(cfg, start, trace) && Enabled(s, st) && !st.Prune? && !st.Tick?
      modifies this`s, this`trace
      ensures Runs(cfg, start, trace) && s == End(cfg, start, trace) && s == Next(cfg, old(s), st)
      ensures trace == old(trace) + [st] && Mine(st.p) == old(Mine(st.p)) + [st]
      ensures forall p :: Tallied(p) == Count(cfg, old(s), old(Tallied(p)), st, p)
    {
      RunsOn(cfg, start, trace, st);
      OwnSnoc(trace, st, By(st.p));
      ghost var was := trace;
      s := Next(cfg, s, st);
      trace := trace + [st];
      assert trace[..|trace| - 1] == was;
    }

    /** Everyone but p moves. */
    method Others(p: nat)
      requires Valid() && p < |s.procs|
      modifies this, store
      ensures Here(p, old(s).procs[p]) && Tallied(p) == old(Tallied(p)) && s.now >= old(s).now
      ensures old(trace) <= trace && Mine(p) == old(Mine(p)) && old(s).committed <= s.committed
    {
    }

    // ── calls of the store and the broker ──

    method Load(p: nat, at: int, limit: nat, locked: set<nat>) returns (recs: seq<Rec>)
      requires Here(p, Idle) && at <= s.now
      modifies this, store
      ensures Here(p, Left(recs, false, at + cfg.lease)) && Tallied(p) == old(Tallied(p))
      ensures trace == old(trace) + [Claim(p, at, recs)] && Mine(p) == old(Mine(p)) + [Claim(p, at, recs)]
      ensures ClaimedAt(cfg, start, trace, |old(trace)|, p, at, limit, locked, recs)
    {
      hide Runs, End, Inv, TallyOf, Own;
      ghost var before := trace;
      recs := store.Pending(at, limit, locked);
      OldestIsClaim(s, p, at, limit, locked, recs);
      hide Enabled, Oldest;
      Do(Claim(p, at, recs));
      assert trace[..|before|] == before;
    }

    method Publish(p: nat, ghost q: Proc, o: Outcome)
      requires Here(p, q) && Busy(q, Publishing)
      modifies this, store
      ensures s.committed == old(s).committed
      ensures Here(p, if o.accepted then q.(phase := Acked) else if o.cancelled then Idle else q.(phase := Refused))
      ensures Tallied(p) == old(Tallied(p))
      ensures var st := if o.accepted then PublishOk(p) else if o.cancelled then Shutdown(p, o.delivered) else PublishErr(p, o.delivered);
        trace == old(trace) + [st] && Mine(p) == old(Mine(p)) + [st]
    {
      hide Runs, End, Inv, TallyOf, Own;
      Do(if o.accepted then PublishOk(p) else if o.cancelled then Shutdown(p, o.delivered) else PublishErr(p, o.delivered));
    }

    method Mark(p: nat, ghost q: Proc, id: nat, o: Outcome)
      requires Here(p, q) && Busy(q, Acked) && q.todo[0].id == id
      modifies this, store
      ensures s.committed == old(s).committed
      ensures Here(p, if o.stored then Onward(q) else Idle)
      ensures Tallied(p) == if o.stored then old(Tallied(p)).(published := old(Tallied(p)).published + 1) else old(Tallied(p))
      ensures var st := if o.stored then MarkOk(p) else MarkErr(p, o.applied); trace == old(trace) + [st] && Mine(p) == old(Mine(p)) + [st]
    {
      hide Runs, End, Inv, TallyOf, Own;
      if o.stored || o.applied {
        store.MarkPublished(id);
      }
      Do(if o.stored then MarkOk(p) else MarkErr(p, o.applied));
    }

    /** fail: one more attempt counted, dead when that makes MaxAttempts. */
    method Fail(p: nat, ghost q: Proc, rec: Rec, o: Outcome)
      requires Here(p, q) && Busy(q, Refused) && q.todo[0] == rec
      modifies this, store
      ensures s.committed == old(s).committed
      ensures Here(p, if o.stored then Onward(q) else Idle)
      ensures if o.stored then OneFailure(old(Tallied(p)), Tallied(p), LastTry(cfg, rec)) else Tallied(p) == old(Tallied(p))
      ensures var st := if o.stored then FailOk(p, o.next) else FailErr(p, o.next, o.applied); trace == old(trace) + [st] && Mine(p) == old(Mine(p)) + [st]
    {
      hide Runs, End, Inv, TallyOf, Own;
      var attempts := rec.attempts + 1;
      if o.stored || o.applied {
        store.MarkFailed(rec.id, attempts, o.next, cfg.maxAttempts > 0 && attempts >= cfg.maxAttempts);
      }
      if o.stored {
        FailureTallied(cfg, s, Tallied(p), p, o.next);
      }
      Do(if o.stored then FailOk(p, o.next) else FailErr(p, o.next, o.applied));
    }

    method Leave(p: nat, ghost q: Proc)
      requires Here(p, q)
      modifies this, store
      ensures Here(p, Idle) && Tallied(p) == old(Tallied(p)) && trace == old(trace) + [Crash(p)] && Mine(p) == old(Mine(p)) + [Crash(p)]
    {
      hide Runs, End, Inv, TallyOf, Own;
      Do(Crash(p));
    }

    // ── the code ──

    /** One record: published and marked, or counted as failed; both PublishNow and the loop of
        RunOnce go through these calls. */
    method Handle(p: nat, rec: Rec, ghost rest: seq<Rec>, ghost fast: bool, ghost until: int, o: Outcome) returns (v: Verdict)
      requires Here(p, Work([rec] + rest, Publishing, fast, until))
      modifies this, store
      ensures old(s).committed <= s.committed && old(trace) <= trace && Mine(p) == old(Mine(p)) + HandleSteps(p, o)
      ensures Here(p, if v == Aborted then Idle else Left(rest, fast, until)) && v == VerdictOf(cfg, rec, o)
      ensures Told(old(Tallied(p)), Tallied(p), v)
    {
      hide Runs, End, Inv, Next, TallyOf, Own, By;
      ghost var q := Work([rec] + rest, Publishing, fast, until);
      assert q.todo[0] == rec && q.todo[1..] == rest;
      Publish(p, q, o);
      if !o.accepted && o.cancelled {
        return Aborted;
      }
      Others(p);
      if o.accepted {
        Mark(p, q.(phase := Acked), rec.id, o);
        return if o.stored then Sent else Aborted;
      }
      Fail(p, q.(phase := Refused), rec, o);
      v := if !o.stored then Aborted
           else if LastTry(cfg, rec) then Parked else Postponed;
    }

    /** PublishNow, right after the commit; ok means acknowledged and marked. */
    method PublishNow(p: nat, rec: Rec, ghost notBefore: int, o: Outcome) returns (ok: bool)
      requires Here(p, Work([rec], Publishing, true, notBefore))
      modifies this, store
      ensures old(s).committed <= s.committed && old(trace) <= trace && Mine(p) == old(Mine(p)) + HandleSteps(p, o)
      ensures Here(p, Idle) && Tallied(p).published == old(Tallied(p)).published + (if ok then 1 else 0)
      ensures ok <==> o.accepted && o.stored
    {
      hide Runs, End, Inv, Next, TallyOf, Own, By, HandleSteps;
      assert [rec] + [] == [rec];
      var v := Handle(p, rec, [], true, notBefore, o);
      ok := v == Sent;
    }

    /** The loop over the claimed records; n is how many it took up. */
    method PublishAll(p: nat, recs: seq<Rec>, ghost until: int, outcome: nat -> Outcome)
      returns (res: Totals, err: bool, n: nat)
      requires Here(p, Left(recs, false, until))
      modifies this, store
      ensures Here(p, Idle) && StopsAt(outcome, |recs|, n, err) && n <= |recs| && res == TotalsOf(cfg, recs, outcome, n)
      ensures old(trace) <= trace && Mine(p) == old(Mine(p)) + TurnsSteps(p, outcome, n)
      ensures Matches(old(Tallied(p)), Tallied(p), res)
    {
      hide Runs, End, Inv, Next, TallyOf, Own, By, HandleSteps, VerdictOf;
      ghost var mine := Mine(p);
      res, err, n := Totals(0, 0, 0), false, 0;
      assert recs[0..] == recs;
      for i := 0 to |recs|
        invariant Here(p, Left(recs[i..], false, until)) && !err && n == i && old(trace) <= trace
        invariant res == TotalsOf(cfg, recs, outcome, i) && Mine(p) == mine + TurnsSteps(p, outcome, i)
        invariant Matches(old(Tallied(p)), Tallied(p), res)
        invariant forall j :: 0 <= j < i ==> !Ends(outcome(j))
      {
        assert recs[i..] == [recs[i]] + recs[i + 1..];
        var v := TakeUp(p, recs[i], recs[i + 1..], until, outcome(i));
        Assoc(mine, TurnsSteps(p, outcome, i), if outcome(i).stopping then [Crash(p)] else HandleSteps(p, outcome(i)));
        n := i + 1;
        res := Add(res, v);
        if v == Aborted {
          err := true;
          return;
        }
      }
    }

    /** One turn of the loop: a shutdown ends the pass before the record is touched. */
    method TakeUp(p: nat, rec: Rec, ghost rest: seq<Rec>, ghost until: int, o: Outcome) returns (v: Verdict)
      requires Here(p, Work([rec] + rest, Publishing, false, until))
      modifies this, store
      ensures Here(p, if v == Aborted then Idle else Left(rest, false, until)) && v == if o.stopping then Aborted else VerdictOf(cfg, rec, o)
      ensures Told(old(Tallied(p)), Tallied(p), v)
      ensures v == Aborted <==> Ends(o)
      ensures old(trace) <= trace && Mine(p) == old(Mine(p)) + if o.stopping then [Crash(p)] else HandleSteps(p, o)
    {
      hide Runs, End, Inv, Next, TallyOf, Own, By, HandleSteps;
      Others(p);
      if o.stopping {
        Leave(p, Work([rec] + rest, Publishing, false, until));
        return Aborted;
      }
      v := Handle(p, rec, rest, false, until, o);
    }

    /** The insert as a step of the machine. */
    method CommitEvent(p: nat, id: nat, notBefore: int) returns (rec: Rec)
      requires Here(p, Idle) && id !in s.committed
      modifies this, store
      ensures Here(p, Work([rec], Publishing, true, notBefore)) && rec == Rec(id, 0)
      ensures s.committed == old(s).committed + {id} && Tallied(p) == old(Tallied(p))
      ensures trace == old(trace) + [Step.Enqueue(p, id, notBefore)] && Mine(p) == old(Mine(p)) + [Step.Enqueue(p, id, notBefore)]
    {
      RunInv(cfg, start, trace);
      assert id in s.rows ==> GoodRow(cfg, s, id);
      hide Runs, End, Inv, TallyOf, Own;
      rec := store.Enqueue(id, notBefore);
      Do(Step.Enqueue(p, id, notBefore));
    }

    /** A request that records an event and publishes it right after its commit: whatever the broker
        and the store answer, and whatever the relays do meanwhile, the event is committed and then
        either in the log or still in the table. */
    method RecordAndPublish(p: nat, id: nat, notBefore: int, o: Outcome) returns (ok: bool)
      requires Here(p, Idle) && id !in s.committed
      modifies this, store
      ensures Here(p, Idle) && id in s.committed && Kept(s, id) && (ok <==> o.accepted && o.stored)
      ensures old(trace) <= trace && Mine(p) == old(Mine(p)) + [Step.Enqueue(p, id, notBefore)] + HandleSteps(p, o)
      ensures Tallied(p).published == old(Tallied(p)).published + (if ok then 1 else 0)
    {
      hide Own, By, HandleSteps, TallyOf;
      var rec := CommitEvent(p, id, notBefore);
      Others(p);
      ok := PublishNow(p, rec, notBefore, o);
      RunInv(cfg, start, trace);
    }

    /** RunOnce: a pass over the claimed rows, oldest first. A failed record does not stop it; a
        shutdown or a store error does, and so does a claim that fails (loaded), applied or not. The
        result counts what was marked. */
    method RunOnce(p: nat, at: int, limit: nat, locked: set<nat>, loaded: bool, applied: bool, outcome: nat -> Outcome)
      returns (res: Totals, err: bool, ghost claimed: seq<Rec>, ghost claimAt: nat, n: nat)
      requires Here(p, Idle) && at <= s.now
      modifies this, store
      ensures Here(p, Idle) && old(trace) <= trace && |claimed| <= limit && n <= |claimed|
      ensures loaded || applied ==> |old(trace)| <= claimAt && ClaimedAt(cfg, start, trace, claimAt, p, at, limit, locked, claimed)
      ensures loaded ==> Mine(p) == old(Mine(p)) + [Claim(p, at, claimed)] + TurnsSteps(p, outcome, n) && StopsAt(outcome, |claimed|, n, err)
      ensures loaded && !err ==> res.published + res.failed + res.dead == |claimed|
      ensures loaded ==> (err <==> exists i :: 0 <= i < |claimed| && (outcome(i).stopping || !outcome(i).stored || (!outcome(i).accepted && outcome(i).cancelled)))
      ensures res.dead > 0 ==> cfg.maxAttempts > 0
      ensures !loaded ==> err && n == 0
      ensures !loaded ==> Mine(p) == old(Mine(p)) + if !applied then [] else [Claim(p, at, claimed)] + if claimed == [] then [] else [Crash(p)]
      ensures res == TotalsOf(cfg, claimed, outcome, n)
      ensures Matches(old(Tallied(p)), Tallied(p), res)
    {
      hide Runs, End, Inv, Next, TallyOf, Own, By, TurnsSteps, ClaimedAt, Ends, VerdictOf;
      claimed, claimAt, res, err, n := [], 0, Totals(0, 0, 0), true, 0;
      Others(p);
      if !loaded && !applied {
        return;
      }
      claimAt := |trace|;
      var recs := Load(p, at, limit, locked);
      claimed := recs;
      LimitHolds(cfg, start, trace, claimAt, p, at, limit, locked, recs);
      ghost var was := trace;
      if !loaded {
        if recs != [] {
          Leave(p, s.procs[p]);
          ClaimStays(cfg, start, was, trace, claimAt, p, at, limit, locked, recs);
        }
        return;
      }
      res, err, n := PublishAll(p, recs, at + cfg.lease, outcome);
      TotalsAddUp(cfg, recs, outcome, n);
      assert forall i :: 0 <= i < |recs| ==> (Ends(outcome(i)) <==> outcome(i).stopping || !outcome(i).stored || (!outcome(i).accepted && outcome(i).cancelled)) by {
        EndsMeans(recs, outcome);
      }
      ClaimStays(cfg, start, was, trace, claimAt, p, at, limit, locked, recs);
    }
  }

  lemma LimitHolds(cfg: Config, start: State, trace: seq<Step>, i: nat, p: nat, at: int, limit: nat, locked: set<nat>, recs: seq<Rec>)
    requires ClaimedAt(cfg, start, trace, i, p, at, limit, locked, recs)
    ensures |recs| <= limit
  {
  }

  lemma OldestIsClaim(s: State, p: nat, at: int, limit: nat, locked: set<nat>, recs: seq<Rec>)
    requires p < |s.procs| && s.procs[p].Idle? && at <= s.now && Oldest(s.rows, at, limit, locked, recs)
    ensures Enabled(s, Claim(p, at, recs))
  {
    forall i | 0 <= i < |recs| ensures Due(s.rows, recs[i].id, at) && recs[i].attempts == s.rows[recs[i].id].attempts {
      assert recs[i] in recs;
    }
  }

  lemma {:induction false} RunsOn(cfg: Config, s: State, steps: seq<Step>, st: Step)
    requires Runs(cfg, s, steps) && Enabled(End(cfg, s, steps), st)
    ensures Runs(cfg, s, steps + [st]) && End(cfg, s, steps + [st]) == Next(cfg, End(cfg, s, steps), st)
    decreases |steps|
  {
    if steps == [] {
      assert [st][1..] == [];
    } else {
      assert (steps + [st])[1..] == steps[1..] + [st];
      RunsOn(cfg, Next(cfg, s, steps[0]), steps[1..], st);
    }
  }
}
