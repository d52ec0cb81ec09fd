/** shared/outbox as one machine: request handlers that commit an event and publish it at once,
    any number of relays that claim due rows under a lease, and pruning. Every SQL statement is
    one step; a publish that reports failure may or may not have reached the broker, a statement
    that reports failure may or may not have been applied. */
module Outbox {

  datatype Status = Pending | Published | Dead

  datatype Row = Row(status: Status, attempts: nat, next: int)

  /** A record in a publisher's hands, with the attempt count it read. */
  datatype Rec = Rec(id: nat, attempts: nat)

  datatype Config = Config(maxAttempts: int, lease: int)

  // ── the statements of PGStore on the table ──

  type Table = map<nat, Row>

  predicate Due(t: Table, id: nat, at: int) { id in t && t[id].status == Pending && t[id].next <= at }

  function Claimed(t: Table, ids: set<nat>, next: int): Table {
    map id | id in t :: if id in ids then t[id].(next := next) else t[id]
  }

  function MarkedPublished(t: Table, id: nat): Table {
    if id in t && t[id].status == Pending then t[id := t[id].(status := Published)] else t
  }

  function MarkedFailed(t: Table, id: nat, attempts: nat, next: int, dead: bool): Table {
    if id in t && t[id].status == Pending
    then t[id := Row(if dead then Dead else Pending, attempts, next)]
    else t
  }

  function Pruned(t: Table, ids: set<nat>): Table {
    map id | id in t && !(id in ids && t[id].status == Published) :: t[id]
  }

  // ── the machine ──

  datatype Phase = Publishing | Acked | Refused

  /** A publisher handles todo[0]; until is the end of its lease (a relay) or the row's first due
      time (the fast path). */
  datatype Proc = Idle | Work(todo: seq<Rec>, phase: Phase, fast: bool, until: int)

  datatype State = State(
    rows: Table, now: int, procs: seq<Proc>,
    // what happened so far: events committed, events in the broker's log, acknowledged and failed
    // publishes of each event
    committed: set<nat>, delivered: set<nat>, acks: map<nat, nat>, failures: map<nat, nat>)

  function At(m: map<nat, nat>, id: nat): nat { if id in m then m[id] else 0 }

  datatype Step =
    | Enqueue(p: nat, id: nat, notBefore: int)
    | Claim(p: nat, at: int, recs: seq<Rec>)
    | PublishOk(p: nat) | PublishErr(p: nat, delivered: bool)
    | Shutdown(p: nat, delivered: bool)
    | MarkOk(p: nat) | MarkErr(p: nat, applied: bool)
    | FailOk(p: nat, next: int) | FailErr(p: nat, next: int, applied: bool)
    | Crash(p: nat)
    | Prune(ids: set<nat>)
    | Tick(time: nat)

  function Ids(recs: seq<Rec>): set<nat> { set r | r in recs :: r.id }

  predicate Busy(p: Proc, phase: Phase) { p.Work? && p.phase == phase && p.todo != [] }

  predicate Enabled(s: State, st: Step) {
    match st
    case Enqueue(p, id, _) => p < |s.procs| && s.procs[p].Idle? && id !in s.committed
    case Claim(p, at, recs) =>
      p < |s.procs| && s.procs[p].Idle? && at <= s.now
      && (forall i :: 0 <= i < |recs| ==> Due(s.rows, recs[i].id, at) && recs[i].attempts == s.rows[recs[i].id].attempts)
      && forall i, j :: 0 <= i < j < |recs| ==> recs[i].id < recs[j].id
    case PublishOk(p) => p < |s.procs| && Busy(s.procs[p], Publishing)
    case PublishErr(p, _) => p < |s.procs| && Busy(s.procs[p], Publishing)
    case Shutdown(p, _) => p < |s.procs| && Busy(s.procs[p], Publishing)
    case MarkOk(p) => p < |s.procs| && Busy(s.procs[p], Acked)
    case MarkErr(p, _) => p < |s.procs| && Busy(s.procs[p], Acked)
    case FailOk(p, _) => p < |s.procs| && Busy(s.procs[p], Refused)
    case FailErr(p, _, _) => p < |s.procs| && Busy(s.procs[p], Refused)
    case Crash(p) => p < |s.procs|
    case Prune(_) => true
    case Tick(_) => true
  }

  function Goto(s: State, p: nat, q: Proc): State {
    if p < |s.procs| then s.(procs := s.procs[p := q]) else s
  }

  /** The next record, or the end of the pass. */
  function Onward(p: Proc): Proc {
    if p.Work? && |p.todo| > 1 then p.(todo := p.todo[1..], phase := Publishing) else Idle
  }

  function Deliver(s: State, id: nat, delivered: bool): State {
    if delivered then s.(delivered := s.delivered + {id}) else s
  }

  function Failed(cfg: Config, t: Table, r: Rec, next: int): Table {
    MarkedFailed(t, r.id, r.attempts + 1, next, cfg.maxAttempts > 0 && r.attempts + 1 >= cfg.maxAttempts)
  }

  function Next(cfg: Config, s: State, st: Step): State {
    if !Enabled(s, st) then s
    else match st
      case Enqueue(p, id, nb) =>
        Goto(s, p, Work([Rec(id, 0)], Publishing, true, nb)).(rows := s.rows[id := Row(Pending, 0, nb)], committed := s.committed + {id})
      case Claim(p, at, recs) =>
        Goto(s, p, if recs == [] then Idle else Work(recs, Publishing, false, at + cfg.lease))
        .(rows := Claimed(s.rows, Ids(recs), at + cfg.lease))
      case PublishOk(p) =>
        var id := s.procs[p].todo[0].id;
        Goto(s, p, s.procs[p].(phase := Acked)).(delivered := s.delivered + {id}, acks := s.acks[id := At(s.acks, id) + 1])
      case PublishErr(p, d) =>
        var id := s.procs[p].todo[0].id;
        Deliver(Goto(s, p, s.procs[p].(phase := Refused)), id, d).(failures := s.failures[id := At(s.failures, id) + 1])
      case Shutdown(p, d) => Deliver(Goto(s, p, Idle), s.procs[p].todo[0].id, d)
      case MarkOk(p) => Goto(s, p, Onward(s.procs[p])).(rows := MarkedPublished(s.rows, s.procs[p].todo[0].id))
      case MarkErr(p, a) => Goto(s, p, Idle).(rows := if a then MarkedPublished(s.rows, s.procs[p].todo[0].id) else s.rows)
      case FailOk(p, next) => Goto(s, p, Onward(s.procs[p])).(rows := Failed(cfg, s.rows, s.procs[p].todo[0], next))
      case FailErr(p, next, a) => Goto(s, p, Idle).(rows := if a then Failed(cfg, s.rows, s.procs[p].todo[0], next) else s.rows)
      case Crash(p) => Goto(s, p, Idle)
      case Prune(ids) => s.(rows := Pruned(s.rows, ids))
      case Tick(time) => s.(now := s.now + time)
  }

  function Init(n: nat, now: int): State {
    State(map[], now, seq(n, _ => Idle), {}, {}, map[], map[])
  }

  predicate Runs(cfg: Config, s: State, steps: seq<Step>)
    decreases |steps|
  {
    steps == [] || (Enabled(s, steps[0]) && Runs(cfg, Next(cfg, s, steps[0]), steps[1..]))
  }

  function End(cfg: Config, s: State, steps: seq<Step>): State
    decreases |steps|
  {
    if steps == [] then s else End(cfg, Next(cfg, s, steps[0]), steps[1..])
  }

  // ── no event is lost ──

  ghost predicate Kept(s: State, id: nat) {
    id in s.delivered || (id in s.rows && s.rows[id].status != Published)
  }

  ghost predicate GoodRow(cfg: Config, s: State, id: nat)
    requires id in s.rows
  {
    var r := s.rows[id];
    && id in s.committed && r.attempts <= At(s.failures, id)
    && (r.status == Published ==> id in s.delivered)
    && (r.status == Dead ==> cfg.maxAttempts > 0 && At(s.failures, id) >= cfg.maxAttempts)
  }

  ghost predicate GoodProc(s: State, p: Proc) {
    p.Work? ==>
      && p.todo != []
      && (forall r :: r in p.todo ==> r.attempts <= At(s.failures, r.id) && r.id in s.committed)
      && (p.phase == Acked ==> p.todo[0].id in s.delivered)
      && (p.phase == Refused ==> p.todo[0].attempts < At(s.failures, p.todo[0].id))
  }

  ghost predicate Inv(cfg: Config, s: State) {
    && (forall id :: id in s.committed ==> Kept(s, id))
    && (forall id :: id in s.rows ==> GoodRow(cfg, s, id))
    && (forall i :: 0 <= i < |s.procs| ==> GoodProc(s, s.procs[i]))
  }

  /** The history only grows. */
  ghost predicate Later(s: State, s': State) {
    s.committed <= s'.committed && s.delivered <= s'.delivered && forall id :: At(s.failures, id) <= At(s'.failures, id)
  }

  lemma StepLater(cfg: Config, s: State, st: Step, s': State)
    requires s' == Next(cfg, s, st)
    ensures Later(s, s')
  {
  }

  lemma ProcKept(s: State, s': State, p: Proc)
    requires Later(s, s') && GoodProc(s, p)
    ensures GoodProc(s', p) && GoodProc(s', Onward(p))
  {
  }

  lemma StepGoodProcs(cfg: Config, s: State, st: Step, s': State, i: nat)
    requires Inv(cfg, s) && Enabled(s, st) && s' == Next(cfg, s, st) && i < |s.procs| && Later(s, s')
    ensures |s'.procs| == |s.procs| && GoodProc(s', s'.procs[i])
  {
    ProcKept(s, s', s.procs[i]);
    if st.Claim? && st.p == i {
      forall r | r in st.recs ensures r.attempts <= At(s'.failures, r.id) && r.id in s'.committed {
        assert GoodRow(cfg, s, r.id);
      }
    }
  }

  lemma StepGoodRows(cfg: Config, s: State, st: Step, s': State, id: nat)
    requires Inv(cfg, s) && Enabled(s, st) && s' == Next(cfg, s, st) && id in s'.rows && Later(s, s')
    ensures GoodRow(cfg, s', id)
  {
    if id in s.rows {
      assert GoodRow(cfg, s, id);
    }
    if st.MarkOk? || st.MarkErr? || st.FailOk? || st.FailErr? {
      assert GoodProc(s, s.procs[st.p]) && s.procs[st.p].todo[0] in s.procs[st.p].todo;
    }
  }

  lemma StepKept(cfg: Config, s: State, st: Step, s': State, id: nat)
    requires Inv(cfg, s) && Enabled(s, st) && s' == Next(cfg, s, st) && id in s'.committed && Later(s, s')
    ensures Kept(s', id)
  {
    if st.MarkOk? || st.MarkErr? {
      assert GoodProc(s, s.procs[st.p]);
    }
    if id in s.rows {
      assert GoodRow(cfg, s, id);
    }
  }

  lemma StepInv(cfg: Config, s: State, st: Step, s': State)
    requires Inv(cfg, s) && Enabled(s, st) && s' == Next(cfg, s, st)
    ensures Inv(cfg, s')
  {
    StepLater(cfg, s, st, s');
    forall id | id in s'.committed ensures Kept(s', id) {
      StepKept(cfg, s, st, s', id);
    }
    forall id | id in s'.rows ensures GoodRow(cfg, s', id) {
      StepGoodRows(cfg, s, st, s', id);
    }
    forall i | 0 <= i < |s'.procs| ensures GoodProc(s', s'.procs[i]) {
      StepGoodProcs(cfg, s, st, s', i);
    }
  }

  lemma {:induction false} RunInv(cfg: Config, s: State, steps: seq<Step>)
    requires Inv(cfg, s) && Runs(cfg, s, steps)
    ensures Inv(cfg, End(cfg, s, steps))
    decreases |steps|
  {
    if steps != [] {
      StepInv(cfg, s, steps[0], Next(cfg, s, steps[0]));
      RunInv(cfg, Next(cfg, s, steps[0]), steps[1..]);
    }
  }

  /** The event the step publishes, as far as its publisher knows. */
  predicate Takes(s: State, st: Step, id: nat) {
    (st.PublishOk? || st.PublishErr? || st.Shutdown?) && st.p < |s.procs| && s.procs[st.p].Work? && s.procs[st.p].todo != []
    && s.procs[st.p].todo[0].id == id
  }

  /** How often a publish of the event was acknowledged, and how often one failed. */
  ghost function AckSteps(cfg: Config, s: State, steps: seq<Step>, id: nat): nat
    decreases |steps|
  {
    if steps == [] then 0
    else (if steps[0].PublishOk? && Takes(s, steps[0], id) then 1 else 0) + AckSteps(cfg, Next(cfg, s, steps[0]), steps[1..], id)
  }

  ghost function FailSteps(cfg: Config, s: State, steps: seq<Step>, id: nat): nat
    decreases |steps|
  {
    if steps == [] then 0
    else (if steps[0].PublishErr? && Takes(s, steps[0], id) then 1 else 0) + FailSteps(cfg, Next(cfg, s, steps[0]), steps[1..], id)
  }

  /** Some publish of the event reached the broker. */
  ghost predicate Reaches(cfg: Config, s: State, steps: seq<Step>, id: nat)
    decreases |steps|
  {
    steps != []
    && ((Takes(s, steps[0], id) && (steps[0].PublishOk? || steps[0].delivered)) || Reaches(cfg, Next(cfg, s, steps[0]), steps[1..], id))
  }

  lemma StepCounts(cfg: Config, s: State, st: Step, s': State, id: nat)
    requires Enabled(s, st) && s' == Next(cfg, s, st)
    ensures At(s'.acks, id) == At(s.acks, id) + if st.PublishOk? && Takes(s, st, id) then 1 else 0
    ensures At(s'.failures, id) == At(s.failures, id) + if st.PublishErr? && Takes(s, st, id) then 1 else 0
    ensures id in s'.delivered && id !in s.delivered ==> Takes(s, st, id) && (st.PublishOk? || st.delivered)
  {
  }

  lemma {:induction false} RunCounts(cfg: Config, s: State, steps: seq<Step>, id: nat)
    requires Runs(cfg, s, steps)
    ensures var e := End(cfg, s, steps);
      && At(e.acks, id) == At(s.acks, id) + AckSteps(cfg, s, steps, id)
      && At(e.failures, id) == At(s.failures, id) + FailSteps(cfg, s, steps, id)
      && (id in e.delivered && id !in s.delivered ==> Reaches(cfg, s, steps, id))
    decreases |steps|
  {
    if steps != [] {
      hide Next, Enabled, At, Takes;
      StepCounts(cfg, s, steps[0], Next(cfg, s, steps[0]), id);
      RunCounts(cfg, Next(cfg, s, steps[0]), steps[1..], id);
    }
  }

  /** In every run of relays, fast paths, crashes and pruning, each committed event has reached the
      broker or is in the table as pending or dead; published means that it has; and a row is dead
      only after at least MaxAttempts failed publishes, never when MaxAttempts is 0. */
  lemma {:induction false} NothingLost(cfg: Config, n: nat, now: int, steps: seq<Step>, id: nat)
    requires Runs(cfg, Init(n, now), steps)
    ensures var s := End(cfg, Init(n, now), steps);
      && (id in s.committed && !Reaches(cfg, Init(n, now), steps, id) ==> id in s.rows && s.rows[id].status != Published)
      && (id in s.rows && s.rows[id].status == Published ==> Reaches(cfg, Init(n, now), steps, id))
      && (id in s.rows && s.rows[id].status == Dead ==> cfg.maxAttempts > 0 && FailSteps(cfg, Init(n, now), steps, id) >= cfg.maxAttempts)
      && (id in s.committed && id !in s.delivered ==> id in s.rows && s.rows[id].status != Published)
  {
    RunCounts(cfg, Init(n, now), steps, id);
    RunInv(cfg, Init(n, now), steps);
    var s := End(cfg, Init(n, now), steps);
    if id in s.rows {
      assert GoodRow(cfg, s, id);
    }
    if id in s.committed {
      assert Kept(s, id);
    }
  }

  /** What a failure that sticks makes of a row still pending: one more attempt than the record had
      when it was claimed, and dead exactly when attempts are bounded and that many are used. A row
      that somebody else marked meanwhile, and every other row, stays as it is. */
  lemma {:induction false} FailureCounts(cfg: Config, s: State, p: nat, next: int, s': State)
    requires Enabled(s, FailOk(p, next)) && s' == Next(cfg, s, FailOk(p, next))
    ensures var r := s.procs[p].todo[0];
      r.id in s.rows && s.rows[r.id].status == Pending ==>
        var row := s'.rows[r.id];
        row.attempts == r.attempts + 1 && row.next == next && row.status != Published
        && (row.status == Dead <==> cfg.maxAttempts > 0 && r.attempts + 1 >= cfg.maxAttempts)
    ensures s'.rows.Keys == s.rows.Keys
    ensures forall id :: id in s.rows && (id != s.procs[p].todo[0].id || s.rows[id].status != Pending) ==> s'.rows[id] == s.rows[id]
  {
  }

  /** A pending row has attempts left. */
  ghost predicate AttemptsLeft(cfg: Config, s: State) {
    cfg.maxAttempts > 0 ==> forall id :: id in s.rows && s.rows[id].status == Pending ==> s.rows[id].attempts < cfg.maxAttempts
  }

  lemma StepAttemptsLeft(cfg: Config, s: State, st: Step, s': State)
    requires AttemptsLeft(cfg, s) && Enabled(s, st) && s' == Next(cfg, s, st)
    ensures AttemptsLeft(cfg, s')
  {
  }

  lemma {:induction false} RunAttemptsLeft(cfg: Config, s: State, steps: seq<Step>)
    requires AttemptsLeft(cfg, s) && Runs(cfg, s, steps)
    ensures AttemptsLeft(cfg, End(cfg, s, steps))
    decreases |steps|
  {
    if steps != [] {
      StepAttemptsLeft(cfg, s, steps[0], Next(cfg, s, steps[0]));
      RunAttemptsLeft(cfg, Next(cfg, s, steps[0]), steps[1..]);
    }
  }

  /** No event is retried for ever when attempts are bounded: in every run, stale relays working on
      the same rows included, a row that is pending was tried fewer than MaxAttempts times, so
      every row that was not is dead or published. */
  lemma {:induction false} PendingHasAttemptsLeft(cfg: Config, n: nat, now: int, steps: seq<Step>, id: nat)
    requires Runs(cfg, Init(n, now), steps) && cfg.maxAttempts > 0
    requires id in End(cfg, Init(n, now), steps).rows
    ensures var row := End(cfg, Init(n, now), steps).rows[id]; row.attempts >= cfg.maxAttempts ==> row.status != Pending
  {
    RunAttemptsLeft(cfg, Init(n, now), steps);
  }

  // ── lease exclusion ──

  /** No publisher is past its deadline. */
  ghost predicate Timely(s: State) {
    forall i :: 0 <= i < |s.procs| && s.procs[i].Work? ==> s.now < s.procs[i].until
  }

  ghost predicate TimelyRun(cfg: Config, s: State, steps: seq<Step>)
    decreases |steps|
  {
    Timely(s) && (steps == [] || TimelyRun(cfg, Next(cfg, s, steps[0]), steps[1..]))
  }

  predicate Holds(p: Proc, id: nat) { p.Work? && exists r :: r in p.todo && r.id == id }

  /** A held row is pending and not due before its holder's deadline. */
  ghost predicate Leased(t: Table, p: Proc) {
    forall id :: Holds(p, id) ==> id in t && t[id].status == Pending && t[id].next >= p.until
  }

  predicate Distinct(p: Proc) {
    p.Work? ==> p.todo != [] && forall i, j :: 0 <= i < j < |p.todo| ==> p.todo[i].id != p.todo[j].id
  }

  ghost predicate Exclusive(s: State) {
    forall i, j, id :: 0 <= i < j < |s.procs| && Holds(s.procs[i], id) ==> !Holds(s.procs[j], id)
  }

  ghost predicate LeaseInv(s: State) {
    && (forall id :: id in s.rows ==> id in s.committed)
    && (forall i :: 0 <= i < |s.procs| ==> Leased(s.rows, s.procs[i]) && Distinct(s.procs[i]))
    && Exclusive(s)
  }

  /** What a process holds after its step it held before, or it is a fresh or a due row. */
  lemma HeldBefore(cfg: Config, s: State, st: Step, s': State, i: nat, id: nat)
    requires Enabled(s, st) && s' == Next(cfg, s, st) && i < |s.procs| && |s'.procs| == |s.procs| && Holds(s'.procs[i], id)
    ensures Holds(s.procs[i], id) || (st.Enqueue? && st.id == id && st.p == i) || (st.Claim? && st.p == i && Due(s.rows, id, s.now))
  {
  }

  lemma OnwardDrops(p: Proc, id: nat)
    requires Distinct(p) && Holds(Onward(p), id)
    ensures Holds(p, id) && p.todo[0].id != id
  {
    var q := Onward(p);
    var k :| 0 <= k < |q.todo| && q.todo[k].id == id;
    assert q.todo[k] == p.todo[k + 1];
  }

  lemma StepDistinct(cfg: Config, s: State, st: Step, s': State, i: nat)
    requires Enabled(s, st) && s' == Next(cfg, s, st) && i < |s.procs| && Distinct(s.procs[i])
    ensures |s'.procs| == |s.procs| && Distinct(s'.procs[i])
  {
  }

  /** A row somebody holds is neither claimed, marked nor pruned by another. */
  lemma StepLeasedOther(cfg: Config, s: State, st: Step, s': State, i: nat, id: nat)
    requires LeaseInv(s) && Timely(s) && Enabled(s, st) && s' == Next(cfg, s, st) && i < |s.procs| && Holds(s.procs[i], id)
    requires st.Prune? || st.Tick? || st.p != i
    ensures id in s'.rows && s'.rows[id] == s.rows[id]
  {
    assert Leased(s.rows, s.procs[i]);
    if st.Claim? {
      forall r | r in st.recs ensures r.id != id {
        assert Due(s.rows, r.id, st.at);
      }
    } else if st.MarkOk? || st.MarkErr? || st.FailOk? || st.FailErr? {
      assert Holds(s.procs[st.p], s.procs[st.p].todo[0].id);
    }
  }

  lemma StepLeasedOwn(cfg: Config, s: State, st: Step, s': State, i: nat, id: nat)
    requires LeaseInv(s) && Enabled(s, st) && s' == Next(cfg, s, st) && i < |s.procs|
    requires !st.Prune? && !st.Tick? && st.p == i && |s'.procs| == |s.procs| && Holds(s'.procs[i], id)
    ensures id in s'.rows && s'.rows[id].status == Pending && s'.rows[id].next >= s'.procs[i].until
  {
    assert Leased(s.rows, s.procs[i]) && Distinct(s.procs[i]);
    if st.MarkOk? || st.FailOk? {
      OnwardDrops(s.procs[i], id);
    } else if st.Claim? {
      var r :| r in st.recs && r.id == id;
    }
  }

  lemma StepExclusive(cfg: Config, s: State, st: Step, s': State, i: nat, j: nat, id: nat)
    requires LeaseInv(s) && Timely(s) && Enabled(s, st) && s' == Next(cfg, s, st) && i < |s.procs| && j < |s.procs| && i != j
    requires |s'.procs| == |s.procs| && Holds(s'.procs[i], id)
    ensures !Holds(s'.procs[j], id)
  {
    assert Leased(s.rows, s.procs[i]) && Leased(s.rows, s.procs[j]);
    HeldBefore(cfg, s, st, s', i, id);
    if Holds(s'.procs[j], id) {
      HeldBefore(cfg, s, st, s', j, id);
    }
  }

  lemma StepLease(cfg: Config, s: State, st: Step, s': State)
    requires LeaseInv(s) && Timely(s) && Enabled(s, st) && s' == Next(cfg, s, st)
    ensures LeaseInv(s')
  {
    forall i | 0 <= i < |s'.procs| ensures Leased(s'.rows, s'.procs[i]) && Distinct(s'.procs[i]) {
      StepDistinct(cfg, s, st, s', i);
      forall id | Holds(s'.procs[i], id) ensures id in s'.rows && s'.rows[id].status == Pending && s'.rows[id].next >= s'.procs[i].until {
        if st.Prune? || st.Tick? || st.p != i {
          assert Leased(s.rows, s.procs[i]);
          StepLeasedOther(cfg, s, st, s', i, id);
        } else {
          StepLeasedOwn(cfg, s, st, s', i, id);
        }
      }
    }
    forall i, j, id | 0 <= i < j < |s'.procs| && Holds(s'.procs[i], id) ensures !Holds(s'.procs[j], id) {
      StepExclusive(cfg, s, st, s', i, j, id);
    }
  }

  /** While every pass ends before its claim time plus the lease and every fast path before
      notBefore, no row is ever in two publishers' hands. */
  lemma {:induction false} OneHolder(cfg: Config, s: State, steps: seq<Step>)
    requires LeaseInv(s) && Runs(cfg, s, steps) && TimelyRun(cfg, s, steps)
    ensures LeaseInv(End(cfg, s, steps))
    decreases |steps|
  {
    if steps != [] {
      StepLease(cfg, s, steps[0], Next(cfg, s, steps[0]));
      OneHolder(cfg, Next(cfg, s, steps[0]), steps[1..]);
    }
  }

  // ── one publish per event ──

  /** No publisher stops between the broker's acknowledgement and a mark that sticks. */
  predicate Steady(s: State, st: Step) {
    !st.MarkErr? && (st.Crash? && st.p < |s.procs| ==> !Busy(s.procs[st.p], Acked))
  }

  predicate SteadyRun(cfg: Config, s: State, steps: seq<Step>)
    decreases |steps|
  {
    steps == [] || (Steady(s, steps[0]) && SteadyRun(cfg, Next(cfg, s, steps[0]), steps[1..]))
  }

  predicate AckedBy(p: Proc, id: nat) { Busy(p, Acked) && p.todo[0].id == id }

  ghost predicate OnceInv(s: State) {
    && (forall id :: At(s.acks, id) <= 1 && (id !in s.committed ==> At(s.acks, id) == 0))
    && (forall id :: id in s.rows && s.rows[id].status == Pending && At(s.acks, id) > 0 ==>
          exists i :: 0 <= i < |s.procs| && AckedBy(s.procs[i], id))
  }

  /** The publisher that is about to publish a row is the only one holding it, so nobody has it
      acknowledged. */
  lemma NotYetAcked(s: State, p: nat)
    requires LeaseInv(s) && OnceInv(s) && p < |s.procs| && Busy(s.procs[p], Publishing)
    ensures At(s.acks, s.procs[p].todo[0].id) == 0
  {
    var id := s.procs[p].todo[0].id;
    assert Holds(s.procs[p], id) && Leased(s.rows, s.procs[p]);
    forall i | 0 <= i < |s.procs| ensures !AckedBy(s.procs[i], id) {
      if AckedBy(s.procs[i], id) {
        assert Holds(s.procs[i], id);
      }
    }
  }

  lemma StepOnce(cfg: Config, s: State, st: Step, s': State)
    requires LeaseInv(s) && OnceInv(s) && Enabled(s, st) && Steady(s, st) && s' == Next(cfg, s, st)
    ensures OnceInv(s')
  {
    StepAckCount(cfg, s, st, s');
    forall id | id in s'.rows && s'.rows[id].status == Pending && At(s'.acks, id) > 0
      ensures exists i :: 0 <= i < |s'.procs| && AckedBy(s'.procs[i], id)
    {
      StepAcked(cfg, s, st, s', id);
    }
  }

  lemma StepAckCount(cfg: Config, s: State, st: Step, s': State)
    requires LeaseInv(s) && OnceInv(s) && Enabled(s, st) && s' == Next(cfg, s, st)
    ensures forall id :: At(s'.acks, id) <= 1 && (id !in s'.committed ==> At(s'.acks, id) == 0)
  {
    if st.PublishOk? {
      var id := s.procs[st.p].todo[0].id;
      NotYetAcked(s, st.p);
      assert Holds(s.procs[st.p], id) && Leased(s.rows, s.procs[st.p]);
      assert s'.committed == s.committed && id in s.committed;
      assert forall x :: At(s'.acks, x) == if x == id then 1 else At(s.acks, x);
    } else {
      assert s'.acks == s.acks && s.committed <= s'.committed;
    }
  }

  lemma StepAckedBy(cfg: Config, s: State, st: Step, s': State, i: nat, id: nat)
    requires Enabled(s, st) && Steady(s, st) && s' == Next(cfg, s, st) && i < |s.procs| && AckedBy(s.procs[i], id)
    requires id in s'.rows && s'.rows[id].status == Pending && id in s.rows
    ensures |s'.procs| == |s.procs| && AckedBy(s'.procs[i], id)
  {
  }

  lemma StillPending(cfg: Config, s: State, st: Step, s': State, id: nat)
    requires s' == Next(cfg, s, st) && id in s'.rows && s'.rows[id].status == Pending
    ensures (st.Enqueue? && st.id == id && id !in s.committed) || (id in s.rows && s.rows[id].status == Pending)
  {
  }

  lemma StepAcked(cfg: Config, s: State, st: Step, s': State, id: nat)
    requires LeaseInv(s) && OnceInv(s) && Enabled(s, st) && Steady(s, st) && s' == Next(cfg, s, st)
    requires id in s'.rows && s'.rows[id].status == Pending && At(s'.acks, id) > 0
    ensures exists i :: 0 <= i < |s'.procs| && AckedBy(s'.procs[i], id)
  {
    if st.PublishOk? && s.procs[st.p].todo[0].id == id {
      assert AckedBy(s'.procs[st.p], id);
    } else {
      assert At(s'.acks, id) == At(s.acks, id);
      StillPending(cfg, s, st, s', id);
      hide Next, Enabled;
      var i :| 0 <= i < |s.procs| && AckedBy(s.procs[i], id);
      StepAckedBy(cfg, s, st, s', i, id);
    }
  }

  /** In a timely and steady run each event is acknowledged by the broker at most once. */
  lemma {:induction false} PublishedOnce(cfg: Config, s: State, steps: seq<Step>)
    requires LeaseInv(s) && OnceInv(s) && Runs(cfg, s, steps) && TimelyRun(cfg, s, steps) && SteadyRun(cfg, s, steps)
    ensures forall id :: AckSteps(cfg, s, steps, id) <= 1
  {
    AckedOnce(cfg, s, steps);
    forall id ensures AckSteps(cfg, s, steps, id) <= 1 {
      RunCounts(cfg, s, steps, id);
    }
  }

  lemma {:induction false} AckedOnce(cfg: Config, s: State, steps: seq<Step>)
    requires LeaseInv(s) && OnceInv(s) && Runs(cfg, s, steps) && TimelyRun(cfg, s, steps) && SteadyRun(cfg, s, steps)
    ensures forall id :: At(End(cfg, s, steps).acks, id) <= 1
    decreases |steps|
  {
    if steps != [] {
      StepLease(cfg, s, steps[0], Next(cfg, s, steps[0]));
      StepOnce(cfg, s, steps[0], Next(cfg, s, steps[0]));
      AckedOnce(cfg, Next(cfg, s, steps[0]), steps[1..]);
    }
  }

  lemma Fresh(cfg: Config, n: nat, now: int)
    ensures Inv(cfg, Init(n, now)) && LeaseInv(Init(n, now)) && OnceInv(Init(n, now))
  {
  }

  lemma ClaimOne(cfg: Config, s: State, p: nat, id: nat, at: int, s': State)
    requires p < |s.procs| && s.procs[p].Idle? && Due(s.rows, id, at) && at <= s.now
    requires s' == Next(cfg, s, Claim(p, at, [Rec(id, s.rows[id].attempts)]))
    ensures Enabled(s, Claim(p, at, [Rec(id, s.rows[id].attempts)]))
    ensures |s'.procs| == |s.procs| && s'.procs[p] == Work([Rec(id, s.rows[id].attempts)], Publishing, false, at + cfg.lease)
    ensures id in s'.rows && s'.rows[id].status == Pending
  {
  }

  lemma PublishClaimed(cfg: Config, s: State, p: nat, id: nat, s': State, s'': State)
    requires p < |s.procs| && Busy(s.procs[p], Publishing) && s.procs[p].todo[0].id == id && id in s.rows && s.rows[id].status == Pending
    requires s' == Next(cfg, s, PublishOk(p)) && s'' == Next(cfg, s', MarkOk(p))
    ensures Enabled(s, PublishOk(p)) && Enabled(s', MarkOk(p))
    ensures id in s''.delivered && id in s''.rows && s''.rows[id].status == Published
  {
  }

  /** An outage only delays: as long as MaxAttempts is 0, from every reachable state an event that
      was committed and is not in the log can still be claimed, published and marked by any relay
      that is free, once its due time has come. */
  lemma {:induction false} NeverStranded(cfg: Config, n: nat, now: int, steps: seq<Step>, id: nat, p: nat) returns (wait: nat, rec: Rec)
    requires Runs(cfg, Init(n, now), steps) && cfg.maxAttempts <= 0
    requires var s := End(cfg, Init(n, now), steps); id in s.committed && id !in s.delivered && p < |s.procs| && s.procs[p].Idle?
    ensures rec.id == id
    ensures var s := End(cfg, Init(n, now), steps);
      var s1 := Next(cfg, s, Tick(wait));
      var s2 := Next(cfg, s1, Claim(p, s1.now, [rec]));
      var s3 := Next(cfg, s2, PublishOk(p));
      var s4 := Next(cfg, s3, MarkOk(p));
      && Enabled(s1, Claim(p, s1.now, [rec])) && Enabled(s2, PublishOk(p)) && Enabled(s3, MarkOk(p))
      && id in s4.delivered && id in s4.rows && s4.rows[id].status == Published
  {
    var s := End(cfg, Init(n, now), steps);
    NothingLost(cfg, n, now, steps, id);
    hide Runs, End;
    wait, rec := if s.rows[id].next > s.now then s.rows[id].next - s.now else 0, Rec(id, s.rows[id].attempts);
    var s1 := Next(cfg, s, Tick(wait));
    var s2 := Next(cfg, s1, Claim(p, s1.now, [rec]));
    ClaimOne(cfg, s1, p, id, s1.now, s2);
    hide Next, Enabled;
    PublishClaimed(cfg, s2, p, id, Next(cfg, s2, PublishOk(p)), Next(cfg, Next(cfg, s2, PublishOk(p)), MarkOk(p)));
  }
}
