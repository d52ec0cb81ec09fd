/** shared/counter, the like/share paths of services/post/service/post.go and its reconciler, as
    one machine: any number of processes (requests, flushers, reconcilers, on any instance)
    interleave single Redis commands and SQL statements. A command that reports failure had no
    effect. */
module Counter {

  /** A counted column of one post; its dirty-set member is field|id. */
  datatype Key = Key(id: string, field: string)

  const LIKES := "like_count"
  const SHARES := "shared_count"

  // ── member and split ──

  function Member(k: Key): string { k.field + "|" + k.id }

  datatype Parsed = Parsed(k: Key) | Unparsed

  method Split(m: string) returns (r: Parsed)
    ensures forall k: Key :: '|' !in k.field && m == Member(k) ==> r == Parsed(k)
    ensures r == Unparsed <==> '|' !in m
  {
    for i := 0 to |m|
      invariant '|' !in m[..i]
    {
      if m[i] == '|' {
        forall k: Key | '|' !in k.field && m == Member(k) ensures Key(m[i + 1..], m[..i]) == k {
          assert forall j :: 0 <= j < |k.field| ==> m[j] == k.field[j];
          assert forall j :: 0 <= j < i ==> m[..i][j] == m[j];
          assert m[|k.field|] == '|' && |k.field| == i;
        }
        return Parsed(Key(m[i + 1..], m[..i]));
      }
    }
    assert m[..|m|] == m;
    assert forall k: Key :: '|' in Member(k);
    r := Unparsed;
  }

  // ── state ──

  /** A like or share as its transaction inserted it. */
  datatype Row = Row(id: string, at: int)

  /** The rows of one column: who liked, or which share, and created_at. */
  type Rows = map<string, int>

  /** One column as a reconciler read it: the count, the number of rows, and (for the proof only)
      what was outstanding, lost and repaired so far at that moment. */
  datatype Reading = Reading(k: Key, count: int, rows: int, out: int, lost: int, repaired: int)

  datatype Check = Check(like: Reading, share: Reading, busy: bool)

  datatype Proc =
    | Idle
    // bumpCounter: the row change is committed; INCRBY, SADD, the undo or the direct UPDATE is next
    | Bump(k: Key, n: int) | Stored(k: Key, n: int) | Undo(k: Key, n: int) | Direct(k: Key, n: int)
    // Flush: GETDEL of the first entry, its SADD after a failed GETDEL, the UPDATE, the put-back
    | Flushing(todo: seq<Key>, err: bool) | Unread(todo: seq<Key>)
    | Holding(k: Key, n: int, todo: seq<Key>, err: bool)
    | PutBack(k: Key, n: int, todo: seq<Key>) | PutBackStored(k: Key, n: int, todo: seq<Key>)
    | PutBackUndo(k: Key, n: int, todo: seq<Key>)
    // RunOnce: the checks left, or the delta keys still to look at before the conditional UPDATE
    | Checking(checks: seq<Check>) | Looking(c: Check, keys: seq<Key>, checks: seq<Check>)

  datatype State = State(
    table: map<Key, Rows>, db: map<Key, int>, delta: map<Key, int>, dirty: set<Key>, procs: seq<Proc>,
    // for the proof only: the row a process inserted last, what was given up, what repairs added,
    // and whether Redis or a process ever failed
    origin: map<nat, Row>, lost: map<Key, int>, repaired: map<Key, int>, faulty: bool)

  function RowsOf(s: State, k: Key): Rows { if k in s.table then s.table[k] else map[] }

  /** count(*) of post_likes or post_shares. */
  function Total(s: State, k: Key): nat { |RowsOf(s, k)| }

  function At(m: map<Key, int>, k: Key): int { if k in m then m[k] else 0 }

  function Plus(m: map<Key, int>, k: Key, n: int): map<Key, int> { m[k := At(m, k) + n] }

  /** What a process holds of k between two commands. */
  function Owed(p: Proc, k: Key): int {
    if (p.Bump? || p.Direct? || p.Holding? || p.PutBack?) && p.k == k then p.n else 0
  }

  function AllOwed(procs: seq<Proc>, k: Key): int {
    if procs == [] then 0 else Owed(procs[0], k) + AllOwed(procs[1..], k)
  }

  function Outstanding(s: State, k: Key): int { At(s.delta, k) + AllOwed(s.procs, k) }

  datatype Step =
    | Insert(p: nat, k: Key, row: Row) | Delete(p: nat, k: Key, id: string)
    | IncrOk(p: nat) | IncrFail(p: nat) | SaddOk(p: nat) | SaddFail(p: nat) | UndoOk(p: nat) | UndoFail(p: nat)
    | DirectOk(p: nat) | DirectFail(p: nat)
    | Pop(p: nat, taken: seq<Key>) | GetOk(p: nat) | GetFail(p: nat) | ReaddOk(p: nat) | ReaddFail(p: nat)
    | AddOk(p: nat) | AddFail(p: nat) | BackOk(p: nat) | BackFail(p: nat) | FlushEnd(p: nat)
    | Snapshot(p: nat, ids: seq<string>, since: int) | Judge(p: nat, likesFirst: bool) | Look(p: nat) | LookFail(p: nat)
    | Skip(p: nat) | Repair(p: nat) | RepairFail(p: nat) | PassEnd(p: nat)
    | Crash(p: nat)

  predicate Enabled(s: State, st: Step) {
    st.p < |s.procs| &&
    var p := s.procs[st.p];
    match st
    case Insert(_, k, row) => p.Idle? && row.id !in RowsOf(s, k)
    case Delete(_, k, id) => p.Idle? && k.field == LIKES && id in RowsOf(s, k)
    case IncrOk(_) => p.Bump?
    case IncrFail(_) => p.Bump?
    case SaddOk(_) => p.Stored? || p.PutBackStored?
    case SaddFail(_) => p.Stored? || p.PutBackStored?
    case UndoOk(_) => p.Undo? || p.PutBackUndo?
    case UndoFail(_) => p.Undo? || p.PutBackUndo?
    case DirectOk(_) => p.Direct?
    case DirectFail(_) => p.Direct?
    case Pop(_, taken) => p.Idle? && (forall k :: k in taken ==> k in s.dirty)
                          && forall i, j :: 0 <= i < j < |taken| ==> taken[i] != taken[j]
    case GetOk(_) => p.Flushing? && p.todo != []
    case GetFail(_) => p.Flushing? && p.todo != []
    case ReaddOk(_) => p.Unread? && p.todo != []
    case ReaddFail(_) => p.Unread? && p.todo != []
    case AddOk(_) => p.Holding?
    case AddFail(_) => p.Holding?
    case BackOk(_) => p.PutBack?
    case BackFail(_) => p.PutBack?
    case FlushEnd(_) => p.Flushing? && p.todo == []
    case Snapshot(_, _, _) => p.Idle?
    case Judge(_, _) => p.Checking? && p.checks != []
    case Look(_) => p.Looking? && p.keys != []
    case LookFail(_) => p.Looking? && p.keys != []
    case Skip(_) => p.Looking? && p.keys == [] && p.c.busy
    case Repair(_) => p.Looking? && p.keys == [] && !p.c.busy
    case RepairFail(_) => p.Looking? && p.keys == [] && !p.c.busy
    case PassEnd(_) => p.Checking? && p.checks == []
    case Crash(_) => true
  }

  function Read(s: State, k: Key): Reading {
    Reading(k, At(s.db, k), Total(s, k), Outstanding(s, k), At(s.lost, k), At(s.repaired, k))
  }

  predicate NewerThan(rows: Rows, since: int) { exists id :: id in rows && rows[id] > since }

  /** A like or share of the post was created after since, which is now() less Quiet. */
  predicate Busy(s: State, id: string, since: int) {
    NewerThan(RowsOf(s, Key(id, LIKES)), since) || NewerThan(RowsOf(s, Key(id, SHARES)), since)
  }

  /** The reconciler's SELECT. */
  function ReadAll(s: State, ids: seq<string>, since: int): seq<Check> {
    seq(|ids|, i requires 0 <= i < |ids| => Check(Read(s, Key(ids[i], LIKES)), Read(s, Key(ids[i], SHARES)), Busy(s, ids[i], since)))
  }

  /** A step is a transfer on one column: what it adds to the rows, the column, the Redis delta and
      the losses, whether it marks the column dirty, whether something failed, and the process's
      next position. */
  datatype Move = Move(k: Key, rows: int, db: int, delta: int, lost: int, mark: bool, fault: bool, next: Proc)

  const NO_KEY := Key("", "")

  function Goto(q: Proc): Move { Move(NO_KEY, 0, 0, 0, 0, false, false, q) }

  function Fail(q: Proc): Move { Goto(q).(fault := true) }

  /** bumpCounter; an idle process only commits a like, an unlike or a share. */
  function BumpMove(p: Proc, st: Step): Move {
    match (st, p)
    case (Insert(_, k, _), Idle) => Move(k, 1, 0, 0, 0, false, false, Bump(k, 1))
    case (Delete(_, k, _), Idle) => Move(k, -1, 0, 0, 0, false, false, Bump(k, -1))
    case (IncrOk(_), Bump(k, n)) => Move(k, 0, 0, n, 0, false, false, Stored(k, n))
    case (IncrFail(_), Bump(k, n)) => Fail(Direct(k, n))
    case (SaddOk(_), Stored(k, _)) => Move(k, 0, 0, 0, 0, true, false, Idle)
    case (SaddFail(_), Stored(k, n)) => Fail(Undo(k, n))
    case (UndoOk(_), Undo(k, n)) => Move(k, 0, 0, -n, 0, false, false, Direct(k, n))
    case (UndoFail(_), Undo(_, _)) => Fail(Idle)
    case (DirectOk(_), Direct(k, n)) => Move(k, 0, n, 0, 0, false, false, Idle)
    case (DirectFail(_), Direct(k, n)) => Move(k, 0, 0, 0, n, false, true, Idle)
    case _ => Goto(p)
  }

  /** Flush; have is the delta Redis stores for the first entry. */
  function FlushMove(p: Proc, st: Step, have: int): Move {
    match (st, p)
    case (GetOk(_), Flushing(todo, err)) =>
      if todo == [] then Goto(p)
      else if have == 0 then Goto(Flushing(todo[1..], err))
      else Move(todo[0], 0, 0, -have, 0, false, false, Holding(todo[0], have, todo[1..], err))
    case (GetFail(_), Flushing(todo, _)) => Fail(Unread(todo))
    case (FlushEnd(_), Flushing(_, _)) => Goto(Idle)
    case (ReaddOk(_), Unread(todo)) => if todo == [] then Goto(p) else Move(todo[0], 0, 0, 0, 0, true, false, Flushing(todo[1..], true))
    case (ReaddFail(_), Unread(todo)) => if todo == [] then Goto(p) else Fail(Flushing(todo[1..], true))
    case (AddOk(_), Holding(k, n, todo, err)) => Move(k, 0, n, 0, 0, false, false, Flushing(todo, err))
    case (AddFail(_), Holding(k, n, todo, _)) => Goto(PutBack(k, n, todo))
    case _ => Goto(p)
  }

  /** Flush putting a delta back: Incr again, and what Incr did not record is lost. */
  function PutBackMove(p: Proc, st: Step): Move {
    match (st, p)
    case (BackOk(_), PutBack(k, n, todo)) => Move(k, 0, 0, n, 0, false, false, PutBackStored(k, n, todo))
    case (BackFail(_), PutBack(k, n, todo)) => Move(k, 0, 0, 0, n, false, true, Flushing(todo, true))
    case (SaddOk(_), PutBackStored(k, _, todo)) => Move(k, 0, 0, 0, 0, true, false, Flushing(todo, true))
    case (SaddFail(_), PutBackStored(k, n, todo)) => Fail(PutBackUndo(k, n, todo))
    case (UndoOk(_), PutBackUndo(k, n, todo)) => Move(k, 0, 0, -n, n, false, true, Flushing(todo, true))
    case (UndoFail(_), PutBackUndo(_, _, todo)) => Fail(Flushing(todo, true))
    case _ => Goto(p)
  }

  /** RunOnce; have is the delta Redis stores for the first key looked at. */
  function CheckMove(p: Proc, st: Step, have: int): Move {
    match (st, p)
    case (Judge(_, likesFirst), Checking(checks)) => if checks == [] then Goto(p) else Goto(Judged(checks[0], likesFirst, checks[1..]))
    case (Look(_), Looking(c, keys, checks)) =>
      if keys == [] then Goto(p) else Goto(if have != 0 then Checking(checks) else Looking(c, keys[1..], checks))
    case (LookFail(_), Looking(_, _, checks)) => Fail(Checking(checks))
    case (Skip(_), Looking(_, _, checks)) => Goto(Checking(checks))
    case (RepairFail(_), Looking(_, _, _)) => Goto(Idle)
    case (PassEnd(_), Checking(_)) => Goto(Idle)
    case _ => Goto(p)
  }

  function MoveOf(p: Proc, st: Step, have: int): Move {
    if st.Crash? then (if Hands(p) then Move(p.k, 0, 0, 0, p.n, false, true, Idle) else Fail(Idle))
    else if p.Flushing? || p.Unread? || p.Holding? then FlushMove(p, st, have)
    else if p.PutBack? || p.PutBackStored? || p.PutBackUndo? then PutBackMove(p, st)
    else if p.Checking? || p.Looking? then CheckMove(p, st, have)
    else BumpMove(p, st)
  }

  /** The positions in which a process holds an amount found nowhere else. */
  predicate Hands(p: Proc) { p.Bump? || p.Direct? || p.Holding? || p.PutBack? }

  /** RunOnce passes over a post that has not drifted; otherwise it looks for unflushed deltas
      before it repairs the post or, busy, skips it. */
  function Judged(c: Check, likesFirst: bool, rest: seq<Check>): Proc {
    if c.like.count == c.like.rows && c.share.count == c.share.rows then Checking(rest)
    else Looking(c, if likesFirst then [c.like.k, c.share.k] else [c.share.k, c.like.k], rest)
  }

  function Have(s: State, p: Proc): int {
    if p.Flushing? && p.todo != [] then At(s.delta, p.todo[0])
    else if p.Looking? && p.keys != [] then At(s.delta, p.keys[0])
    else 0
  }

  /** What an INSERT or DELETE does to the table. */
  function Filed(s: State, st: Step): State {
    match st
    case Insert(i, k, row) => s.(table := s.table[k := RowsOf(s, k)[row.id := row.at]], origin := s.origin[i := row])
    case Delete(i, k, id) => s.(table := s.table[k := RowsOf(s, k) - {id}], origin := s.origin - {i})
    case _ => s
  }

  /** The move's other legs. */
  function Transfer(s: State, i: nat, m: Move): State
    requires i < |s.procs|
  {
    s.(db := Plus(s.db, m.k, m.db), delta := Plus(s.delta, m.k, m.delta),
       lost := Plus(s.lost, m.k, m.lost), dirty := if m.mark then s.dirty + {m.k} else s.dirty,
       faulty := s.faulty || m.fault, procs := s.procs[i := m.next])
  }

  /** Setting both counts to the rows read, when they still are the counts read. */
  function AfterRepair(m: map<Key, int>, c: Check): map<Key, int> {
    Plus(Plus(m, c.like.k, c.like.rows - c.like.count), c.share.k, c.share.rows - c.share.count)
  }

  /** The UPDATE conditional on both counts read. */
  function Repaired(s: State, i: nat, c: Check, rest: seq<Check>): State
    requires i < |s.procs|
  {
    var s' := s.(procs := s.procs[i := Checking(rest)]);
    if At(s.db, c.like.k) == c.like.count && At(s.db, c.share.k) == c.share.count
    then s'.(db := AfterRepair(s.db, c), repaired := AfterRepair(s.repaired, c))
    else s'
  }

  /** A step that is not enabled changes nothing. */
  function Next(s: State, st: Step): State {
    if !Enabled(s, st) then s
    else if st.Pop? then s.(dirty := s.dirty - (set k | k in st.taken), procs := s.procs[st.p := Flushing(st.taken, false)])
    else if st.Snapshot? then s.(procs := s.procs[st.p := Checking(ReadAll(s, st.ids, st.since))])
    else if st.Repair? then Repaired(s, st.p, s.procs[st.p].c, s.procs[st.p].checks)
    else Transfer(Filed(s, st), st.p, MoveOf(s.procs[st.p], st, Have(s, s.procs[st.p])))
  }

  predicate Applies(s: State, i: nat) {
    Enabled(s, Repair(i)) &&
    var c := s.procs[i].c;
    At(s.db, c.like.k) == c.like.count && At(s.db, c.share.k) == c.share.count
  }

  predicate Runs(s: State, steps: seq<Step>)
    decreases |steps|
  {
    steps == [] || (Enabled(s, steps[0]) && Runs(Next(s, steps[0]), steps[1..]))
  }

  function End(s: State, steps: seq<Step>): State
    decreases |steps|
  {
    if steps == [] then s else End(Next(s, steps[0]), steps[1..])
  }

  lemma {:induction false} RunsOn(s: State, steps: seq<Step>, st: Step)
    requires Runs(s, steps) && Enabled(End(s, steps), st)
    ensures Runs(s, steps + [st]) && End(s, steps + [st]) == Next(End(s, steps), st)
    decreases |steps|
  {
    if steps == [] {
      assert [st][1..] == [];
    } else {
      assert (steps + [st])[1..] == steps[1..] + [st];
      RunsOn(Next(s, steps[0]), steps[1..], st);
    }
  }

  lemma {:induction false} RunsSplit(s: State, a: seq<Step>, b: seq<Step>)
    requires Runs(s, a + b)
    ensures Runs(s, a) && Runs(End(s, a), b) && End(s, a + b) == End(End(s, a), b)
    decreases |a|
  {
    if a == [] {
      assert a + b == b;
    } else {
      assert (a + b)[1..] == a[1..] + b;
      RunsSplit(Next(s, a[0]), a[1..], b);
    }
  }

  predicate Moves(st: Step) { !st.Pop? && !st.Snapshot? && !st.Repair? }

  lemma NextMoves(s: State, st: Step, s': State)
    requires Enabled(s, st) && Moves(st) && s' == Next(s, st)
    ensures st.p < |s.procs| && s' == Transfer(Filed(s, st), st.p, MoveOf(s.procs[st.p], st, Have(s, s.procs[st.p])))
    ensures st.FlushEnd? && s.procs[st.p].Flushing? ==> s.procs[st.p].todo == []
  {
  }

  /** The steps that are no move of MoveOf's. */
  lemma NextOthers(s: State, st: Step, s': State)
    requires Enabled(s, st) && !Moves(st) && s' == Next(s, st)
    ensures st.p < |s.procs|
    ensures st.Pop? ==> s.procs[st.p].Idle? && s' == s.(dirty := s.dirty - (set k | k in st.taken), procs := s.procs[st.p := Flushing(st.taken, false)])
    ensures st.Snapshot? ==> s.procs[st.p].Idle? && s' == s.(procs := s.procs[st.p := Checking(ReadAll(s, st.ids, st.since))])
    ensures st.Repair? ==> s.procs[st.p].Looking? && s' == Repaired(s, st.p, s.procs[st.p].c, s.procs[st.p].checks)
  {
    hide MoveOf, Transfer, Filed, Repaired, ReadAll, Have;
  }

  predicate InFlush(p: Proc) {
    p.Flushing? || p.Unread? || p.Holding? || p.PutBack? || p.PutBackStored? || p.PutBackUndo?
  }

  predicate InCheck(p: Proc) { p.Checking? || p.Looking? }

  lemma FlushKind(p: Proc, st: Step, have: int)
    requires InFlush(p)
    ensures var q, r := FlushMove(p, st, have), PutBackMove(p, st); InFlush(q.next) || q.next.Idle?
    ensures var q, r := FlushMove(p, st, have), PutBackMove(p, st); (InFlush(r.next) || r.next.Idle?) && q.rows == 0 && r.rows == 0
  {
  }

  lemma CheckKind(p: Proc, st: Step, have: int)
    requires InCheck(p)
    ensures var m := CheckMove(p, st, have); (InCheck(m.next) || m.next.Idle?) && m.rows == 0
  {
  }

  lemma BumpKind(p: Proc, st: Step)
    requires !InFlush(p) && !InCheck(p)
    ensures var m := BumpMove(p, st); !InFlush(m.next) && !InCheck(m.next) && RowsLeg(p, st, m)
  {
  }

  /** Only a committing process changes the number of rows, by one. */
  predicate RowsLeg(p: Proc, st: Step, m: Move) {
    if st.Insert? && p.Idle? then m.rows == 1 && m.k == st.k
    else if st.Delete? && p.Idle? then m.rows == -1 && m.k == st.k
    else m.rows == 0
  }

  /** A process stays in its command sequence until it is idle. */
  lemma MoveKind(p: Proc, st: Step, have: int)
    ensures var m := MoveOf(p, st, have);
      RowsLeg(p, st, m) && if InFlush(p) then InFlush(m.next) || m.next.Idle?
                           else if InCheck(p) then InCheck(m.next) || m.next.Idle?
                           else !InFlush(m.next) && !InCheck(m.next)
  {
    hide BumpMove, FlushMove, PutBackMove, CheckMove;
    if InFlush(p) {
      FlushKind(p, st, have);
    } else if InCheck(p) {
      CheckKind(p, st, have);
    } else {
      BumpKind(p, st);
    }
  }

  // ── conservation ──

  /** rows + repairs = column + Redis delta + amounts in a process's hands + losses. */
  ghost predicate Balanced(s: State, k: Key) {
    Total(s, k) + At(s.repaired, k) == At(s.db, k) + Outstanding(s, k) + At(s.lost, k)
  }

  ghost predicate Conserved(s: State) {
    forall k :: Balanced(s, k)
  }

  lemma {:induction false} OwedUpdate(procs: seq<Proc>, i: nat, q: Proc, k: Key)
    requires i < |procs|
    ensures AllOwed(procs[i := q], k) == AllOwed(procs, k) - Owed(procs[i], k) + Owed(q, k)
  {
    if i == 0 {
      assert procs[0 := q][1..] == procs[1..];
    } else {
      assert procs[i := q][1..] == procs[1..][i - 1 := q];
      OwedUpdate(procs[1..], i - 1, q, k);
    }
  }

  /** Double entry: a move's legs cancel, on its own column and trivially on the others. */
  predicate Balances(p: Proc, m: Move, k: Key) {
    if k == m.k then m.rows == m.db + m.delta + m.lost + Owed(m.next, k) - Owed(p, k)
    else Owed(m.next, k) == Owed(p, k)
  }

  /** What a move gives up is reported. */
  predicate Reports(m: Move, st: Step) {
    m.lost != 0 ==> m.fault && (st.Crash? || st.DirectFail? || (m.next.Flushing? && m.next.err))
  }

  predicate Fair(p: Proc, m: Move, st: Step, k: Key) {
    Balances(p, m, k) && Reports(m, st)
  }

  lemma BumpFair(p: Proc, st: Step, k: Key)
    ensures Fair(p, BumpMove(p, st), st, k)
  {
  }

  lemma FlushFair(p: Proc, st: Step, have: int, k: Key)
    ensures Fair(p, FlushMove(p, st, have), st, k)
  {
  }

  lemma PutBackFair(p: Proc, st: Step, k: Key)
    ensures Fair(p, PutBackMove(p, st), st, k)
  {
  }

  lemma CheckFair(p: Proc, st: Step, have: int, k: Key)
    ensures Fair(p, CheckMove(p, st, have), st, k)
  {
  }

  lemma MoveFair(p: Proc, st: Step, have: int, k: Key)
    ensures Fair(p, MoveOf(p, st, have), st, k)
  {
    BumpFair(p, st, k);
    FlushFair(p, st, have, k);
    PutBackFair(p, st, k);
    CheckFair(p, st, have, k);
    hide BumpMove, FlushMove, PutBackMove, CheckMove;
  }

  lemma MapLess(m: Rows, id: string)
    requires id in m
    ensures |m - {id}| == |m| - 1
  {
    assert m.Keys == (m - {id}).Keys + {id};
    assert |m| == |m.Keys| && |m - {id}| == |(m - {id}).Keys|;
  }

  /** An INSERT or DELETE changes the number of rows as its move says. */
  lemma FiledTotal(s: State, st: Step, k: Key)
    requires Enabled(s, st) && Moves(st)
    ensures var m := MoveOf(s.procs[st.p], st, Have(s, s.procs[st.p]));
      Total(Filed(s, st), k) == Total(s, k) + (if k == m.k then m.rows else 0)
  {
    var p := s.procs[st.p];
    assert st.Insert? || st.Delete? ==> p.Idle?;
    assert st.Insert? ==> st.row.id !in RowsOf(s, st.k);
    assert st.Delete? ==> st.id in RowsOf(s, st.k);
    hide MoveOf, Enabled;
    MoveKind(p, st, Have(s, p));
    if st.Delete? && st.k == k {
      MapLess(RowsOf(s, k), st.id);
    }
  }

  lemma TransferBalanced(s: State, f: State, i: nat, m: Move, k: Key)
    requires i < |s.procs| && Balanced(s, k) && f == s.(table := f.table, origin := f.origin)
    requires Balances(s.procs[i], m, k) && Total(f, k) == Total(s, k) + (if k == m.k then m.rows else 0)
    ensures Balanced(Transfer(f, i, m), k)
  {
    OwedUpdate(s.procs, i, m.next, k);
  }

  /** The two columns of a post are different ones, and what was read stays in balance. */
  ghost predicate GoodCheck(c: Check) {
    && c.like.k != c.share.k
    && c.like.rows + c.like.repaired == c.like.count + c.like.out + c.like.lost
    && c.share.rows + c.share.repaired == c.share.count + c.share.out + c.share.lost
  }

  ghost predicate GoodProc(p: Proc) {
    && (p.Checking? || p.Looking? ==> forall i :: 0 <= i < |p.checks| ==> GoodCheck(p.checks[i]))
    && (p.Looking? ==> GoodCheck(p.c))
  }

  ghost predicate Inv(s: State) {
    Conserved(s) && forall i :: 0 <= i < |s.procs| ==> GoodProc(s.procs[i])
  }

  lemma PlusAt(m: map<Key, int>, k: Key, n: int, k': Key)
    ensures At(Plus(m, k, n), k') == At(m, k') + (if k' == k then n else 0)
  {
  }

  lemma RepairShifts(db: map<Key, int>, rep: map<Key, int>, c: Check, k: Key)
    ensures At(AfterRepair(db, c), k) - At(db, k) == At(AfterRepair(rep, c), k) - At(rep, k)
  {
    var a, b, x, y := c.like.k, c.share.k, c.like.rows - c.like.count, c.share.rows - c.share.count;
    PlusAt(db, a, x, k);
    PlusAt(Plus(db, a, x), b, y, k);
    PlusAt(rep, a, x, k);
    PlusAt(Plus(rep, a, x), b, y, k);
  }

  lemma RepairedBalanced(s: State, i: nat, c: Check, rest: seq<Check>, s': State, k: Key)
    requires i < |s.procs| && Balanced(s, k) && s.procs[i].Looking? && s' == Repaired(s, i, c, rest)
    ensures Balanced(s', k)
  {
    hide AfterRepair, AllOwed, At, Total;
    OwedUpdate(s.procs, i, Checking(rest), k);
    RepairShifts(s.db, s.repaired, c, k);
    SameTable(s, s', k);
  }

  lemma SameTable(s: State, s': State, k: Key)
    requires s'.table == s.table
    ensures Total(s', k) == Total(s, k)
  {
  }

  lemma MoveBalanced(s: State, st: Step, s': State, k: Key)
    requires Balanced(s, k) && Enabled(s, st) && Moves(st) && s' == Next(s, st)
    ensures Balanced(s', k)
  {
    hide Next, Enabled, MoveOf, Balanced, Filed, Transfer;
    NextMoves(s, st, s');
    var p := s.procs[st.p];
    FiledTotal(s, st, k);
    MoveFair(p, st, Have(s, p), k);
    FiledFrame(s, st);
    TransferBalanced(s, Filed(s, st), st.p, MoveOf(p, st, Have(s, p)), k);
  }

  lemma FiledFrame(s: State, st: Step)
    ensures Filed(s, st) == s.(table := Filed(s, st).table, origin := Filed(s, st).origin)
  {
  }

  lemma StepBalanced(s: State, st: Step, s': State, k: Key)
    requires Balanced(s, k) && Enabled(s, st) && s' == Next(s, st)
    ensures Balanced(s', k)
  {
    hide Next, Enabled, AllOwed, At;
    if Moves(st) {
      hide Balanced;
      MoveBalanced(s, st, s', k);
    } else {
      NextOthers(s, st, s');
      hide ReadAll;
      if st.Pop? {
        OwedUpdate(s.procs, st.p, Flushing(st.taken, false), k);
      } else if st.Snapshot? {
        OwedUpdate(s.procs, st.p, Checking(ReadAll(s, st.ids, st.since)), k);
      } else {
        hide Balanced, Repaired;
        RepairedBalanced(s, st.p, s.procs[st.p].c, s.procs[st.p].checks, s', k);
      }
    }
  }

  lemma ReadAllSize(s: State, ids: seq<string>, since: int)
    ensures |ReadAll(s, ids, since)| == |ids|
  {
  }

  lemma ReadAllGood(s: State, ids: seq<string>, since: int)
    requires Conserved(s)
    ensures forall j :: 0 <= j < |ids| ==> GoodCheck(ReadAll(s, ids, since)[j])
  {
    forall j | 0 <= j < |ids| ensures GoodCheck(ReadAll(s, ids, since)[j]) {
      assert Balanced(s, Key(ids[j], LIKES)) && Balanced(s, Key(ids[j], SHARES));
      assert Key(ids[j], LIKES).field != Key(ids[j], SHARES).field;
    }
  }

  lemma MoveGood(p: Proc, st: Step, have: int)
    requires GoodProc(p)
    ensures GoodProc(MoveOf(p, st, have).next)
  {
    CheckGood(p, st, have);
    hide CheckMove;
  }

  lemma CheckGood(p: Proc, st: Step, have: int)
    requires GoodProc(p)
    ensures GoodProc(CheckMove(p, st, have).next)
  {
  }

  lemma StepGood(s: State, st: Step, s': State)
    requires Inv(s) && Enabled(s, st) && s' == Next(s, st)
    ensures st.p < |s.procs| == |s'.procs| && s'.procs == s.procs[st.p := s'.procs[st.p]] && GoodProc(s'.procs[st.p])
  {
    hide MoveOf, Next, Enabled, Filed;
    if Moves(st) {
      NextMoves(s, st, s');
      FiledFrame(s, st);
      assert GoodProc(s.procs[st.p]);
      MoveGood(s.procs[st.p], st, Have(s, s.procs[st.p]));
    } else {
      OtherGood(s, st, s');
    }
  }

  lemma OtherGood(s: State, st: Step, s': State)
    requires Inv(s) && Enabled(s, st) && !Moves(st) && s' == Next(s, st)
    ensures st.p < |s.procs| == |s'.procs| && s'.procs == s.procs[st.p := s'.procs[st.p]] && GoodProc(s'.procs[st.p])
  {
    hide Next, Enabled, ReadAll, Conserved, At, AfterRepair, GoodCheck;
    NextOthers(s, st, s');
    assert GoodProc(s.procs[st.p]);
    if st.Snapshot? {
      ReadAllSize(s, st.ids, st.since);
      ReadAllGood(s, st.ids, st.since);
    }
  }

  lemma StepInv(s: State, st: Step)
    requires Inv(s) && Enabled(s, st)
    ensures Inv(Next(s, st))
  {
    var s' := Next(s, st);
    StepGood(s, st, s');
    hide Next, Enabled;
    forall k ensures Balanced(s', k) {
      StepBalanced(s, st, s', k);
    }
  }

  /** Conservation over every interleaving, with any command failing and any process crashing. */
  lemma {:induction false} RunInv(s: State, steps: seq<Step>)
    requires Inv(s) && Runs(s, steps)
    ensures Inv(End(s, steps))
    decreases |steps|
  {
    if steps != [] {
      StepInv(s, steps[0]);
      RunInv(Next(s, steps[0]), steps[1..]);
    }
  }

  lemma RepairEffect(s: State, i: nat, s': State)
    requires Enabled(s, Repair(i)) && s' == Next(s, Repair(i))
    ensures i < |s.procs| && s.procs[i].Looking?
    ensures var c, procs := s.procs[i].c, s.procs[i := Checking(s.procs[i].checks)];
      if Applies(s, i) then At(s.db, c.like.k) == c.like.count && At(s.db, c.share.k) == c.share.count
                            && s' == s.(procs := procs, db := AfterRepair(s.db, c), repaired := AfterRepair(s.repaired, c))
      else s' == s.(procs := procs)
  {
    hide AfterRepair, At;
  }

  lemma OthersLoseNothing(s: State, st: Step, s': State)
    requires Enabled(s, st) && !Moves(st) && s' == Next(s, st)
    ensures s'.lost == s.lost
  {
    hide Next, Enabled;
    NextOthers(s, st, s');
  }

  /** Losses come only from a crash, a failed direct UPDATE, or a flush that reports an error. */
  lemma {:induction false} OnlyReportedLosses(s: State, st: Step, s': State, k: Key)
    requires Enabled(s, st) && s' == Next(s, st) && At(s'.lost, k) != At(s.lost, k)
    ensures st.p < |s'.procs| && s'.faulty
    ensures st.Crash? || st.DirectFail? || (s'.procs[st.p].Flushing? && s'.procs[st.p].err)
  {
    hide MoveOf, Enabled, Next, Filed;
    if Moves(st) {
      NextMoves(s, st, s');
      FiledFrame(s, st);
      var p, m := s.procs[st.p], MoveOf(s.procs[st.p], st, Have(s, s.procs[st.p]));
      PlusAt(s.lost, m.k, m.lost, k);
      MoveFair(p, st, Have(s, p), k);
    } else {
      OthersLoseNothing(s, st, s');
    }
  }

  // ── nothing is stranded while Redis works ──

  /** The process will still make the delta of k visible to a flush, or is about to flush it. */
  predicate Covers(p: Proc, k: Key) {
    ((p.Stored? || p.PutBackStored?) && p.k == k)
    || ((p.Flushing? || p.Holding? || p.PutBack? || p.PutBackStored?) && k in p.todo)
  }

  ghost predicate Scheduled(s: State, k: Key) {
    k in s.dirty || exists i :: 0 <= i < |s.procs| && Covers(s.procs[i], k)
  }

  /** The positions only a Redis failure leads to. */
  predicate AfterFailure(p: Proc) { p.Undo? || p.Direct? || p.Unread? || p.PutBackUndo? }

  ghost predicate NoStrand(s: State) {
    && (forall k :: At(s.delta, k) != 0 ==> Scheduled(s, k))
    && (forall k :: At(s.lost, k) == 0)
    && forall i :: 0 <= i < |s.procs| ==> !AfterFailure(s.procs[i])
  }

  predicate Reads(p: Proc, k: Key) { p.Flushing? && p.todo != [] && p.todo[0] == k }

  /** A healthy process gives a column up only by marking it dirty or by reading its delta to the
      end, and what it adds to Redis it covers. */
  predicate Careful(p: Proc, m: Move, have: int, k: Key) {
    && !AfterFailure(m.next) && m.lost == 0
    && (Covers(p, k) ==> Covers(m.next, k) || (m.mark && m.k == k) || (Reads(p, k) && (have == 0 || (m.k == k && m.delta == -have))))
    && (m.k == k && m.delta != 0 ==> Covers(m.next, k) || (Reads(p, k) && m.delta == -have))
  }

  lemma FlushCareful(p: Proc, st: Step, have: int, k: Key)
    requires !FlushMove(p, st, have).fault && !AfterFailure(p) && (st.FlushEnd? && p.Flushing? ==> p.todo == [])
    ensures Careful(p, FlushMove(p, st, have), have, k)
  {
  }

  lemma PutBackCareful(p: Proc, st: Step, have: int, k: Key)
    requires !PutBackMove(p, st).fault && !AfterFailure(p)
    ensures Careful(p, PutBackMove(p, st), have, k)
  {
  }

  lemma BumpCareful(p: Proc, st: Step, have: int, k: Key)
    requires !BumpMove(p, st).fault && !AfterFailure(p)
    ensures Careful(p, BumpMove(p, st), have, k)
  {
  }

  lemma CheckCareful(p: Proc, st: Step, have: int, k: Key)
    requires (p.Checking? || p.Looking?) && !CheckMove(p, st, have).fault
    ensures Careful(p, CheckMove(p, st, have), have, k)
  {
  }

  lemma MoveCovers(p: Proc, st: Step, have: int, k: Key)
    requires !MoveOf(p, st, have).fault && !AfterFailure(p) && (st.FlushEnd? && p.Flushing? ==> p.todo == [])
    ensures Careful(p, MoveOf(p, st, have), have, k)
  {
    hide BumpMove, FlushMove, PutBackMove, CheckMove, Careful;
    if p.Flushing? || p.Unread? || p.Holding? {
      FlushCareful(p, st, have, k);
    } else if p.PutBack? || p.PutBackStored? || p.PutBackUndo? {
      PutBackCareful(p, st, have, k);
    } else if p.Checking? || p.Looking? {
      CheckCareful(p, st, have, k);
    } else {
      BumpCareful(p, st, have, k);
    }
  }

  lemma TransferScheduled(s: State, f: State, i: nat, st: Step, s': State, k: Key)
    requires NoStrand(s) && i < |s.procs| && f == s.(table := f.table, origin := f.origin) && (st.FlushEnd? && s.procs[i].Flushing? ==> s.procs[i].todo == [])
    requires !MoveOf(s.procs[i], st, Have(s, s.procs[i])).fault
    requires s' == Transfer(f, i, MoveOf(s.procs[i], st, Have(s, s.procs[i]))) && At(s'.delta, k) != 0
    ensures Scheduled(s', k)
  {
    var p, m := s.procs[i], MoveOf(s.procs[i], st, Have(s, s.procs[i]));
    MoveCovers(p, st, Have(s, p), k);
    PlusAt(s.delta, m.k, m.delta, k);
    assert s'.procs[i] == m.next;
    if At(s.delta, k) != 0 && k !in s.dirty {
      var j :| 0 <= j < |s.procs| && Covers(s.procs[j], k);
      if j != i {
        assert s'.procs[j] == s.procs[j];
      }
    }
  }

  lemma OthersFrame(s: State, st: Step, s': State)
    requires Enabled(s, st) && !Moves(st) && s' == Next(s, st)
    ensures s'.delta == s.delta && s'.lost == s.lost && st.p < |s.procs| && s'.procs == s.procs[st.p := s'.procs[st.p]]
    ensures forall k :: k in s.dirty ==> k in s'.dirty || Covers(s'.procs[st.p], k)
    ensures !AfterFailure(s'.procs[st.p])
    ensures forall k :: !Covers(s.procs[st.p], k)
  {
    hide Next, Enabled, ReadAll, AfterRepair, At;
    NextOthers(s, st, s');
  }

  /** A pop takes over what it unmarks; a snapshot and a repair touch no delta. */
  lemma OtherNoStrand(s: State, st: Step, s': State)
    requires NoStrand(s) && Enabled(s, st) && !Moves(st) && s' == Next(s, st)
    ensures NoStrand(s')
  {
    OthersFrame(s, st, s');
    hide Next, Enabled;
    forall k | At(s'.delta, k) != 0 ensures Scheduled(s', k) {
      if k !in s'.dirty {
        if k in s.dirty {
          assert Covers(s'.procs[st.p], k);
        } else {
          var j :| 0 <= j < |s.procs| && Covers(s.procs[j], k);
          assert s'.procs[j] == s.procs[j];
        }
      }
    }
    forall j | 0 <= j < |s'.procs| ensures !AfterFailure(s'.procs[j]) {
      if j != st.p {
        assert s'.procs[j] == s.procs[j];
      }
    }
  }

  lemma MoveNoStrand(s: State, st: Step, s': State)
    requires NoStrand(s) && Enabled(s, st) && Moves(st) && s' == Next(s, st) && !s'.faulty
    ensures NoStrand(s')
  {
    hide MoveOf, Enabled, Next, Filed;
    NextMoves(s, st, s');
    FiledFrame(s, st);
    var p, i := s.procs[st.p], st.p;
    var m := MoveOf(p, st, Have(s, p));
    assert !m.fault;
    forall k | At(s'.delta, k) != 0 ensures Scheduled(s', k) {
      TransferScheduled(s, Filed(s, st), i, st, s', k);
    }
    forall k ensures At(s'.lost, k) == 0 {
      MoveCovers(p, st, Have(s, p), k);
      PlusAt(s.lost, m.k, m.lost, k);
    }
    MoveCovers(p, st, Have(s, p), NO_KEY);
    forall j | 0 <= j < |s'.procs| ensures !AfterFailure(s'.procs[j]) {
      if j != i {
        assert s'.procs[j] == s.procs[j];
      }
    }
  }

  lemma StepNoStrand(s: State, st: Step)
    requires NoStrand(s) && Enabled(s, st) && !Next(s, st).faulty
    ensures NoStrand(Next(s, st))
  {
    hide Next, Enabled, NoStrand;
    if Moves(st) {
      MoveNoStrand(s, st, Next(s, st));
    } else {
      OtherNoStrand(s, st, Next(s, st));
    }
  }

  lemma StepKeepsFault(s: State, st: Step)
    requires s.faulty
    ensures Next(s, st).faulty
  {
    hide MoveOf, ReadAll, AfterRepair, At, Plus, Have;
  }

  lemma {:induction false} RunKeepsFault(s: State, steps: seq<Step>)
    requires s.faulty
    ensures End(s, steps).faulty
    decreases |steps|
  {
    if steps != [] {
      StepKeepsFault(s, steps[0]);
      RunKeepsFault(Next(s, steps[0]), steps[1..]);
    }
  }

  lemma {:induction false} RunNoStrand(s: State, steps: seq<Step>)
    requires NoStrand(s) && Runs(s, steps) && !End(s, steps).faulty
    ensures NoStrand(End(s, steps))
    decreases |steps|
  {
    if steps != [] {
      if Next(s, steps[0]).faulty {
        RunKeepsFault(Next(s, steps[0]), steps[1..]);
      }
      StepNoStrand(s, steps[0]);
      RunNoStrand(Next(s, steps[0]), steps[1..]);
    }
  }

  lemma {:induction false} IdleOwesNothing(procs: seq<Proc>, k: Key)
    requires forall i :: 0 <= i < |procs| ==> procs[i].Idle?
    ensures AllOwed(procs, k) == 0
  {
    if procs != [] {
      assert forall i :: 0 <= i < |procs[1..]| ==> procs[1..][i] == procs[i + 1];
      IdleOwesNothing(procs[1..], k);
    }
  }

  /** With Redis and the processes healthy (the database may still fail), a quiescent system with
      nothing dirty has flushed everything: each column is its rows plus what repairs added. */
  lemma {:induction false} QuiescentIsExact(s0: State, steps: seq<Step>, k: Key)
    requires Inv(s0) && NoStrand(s0) && Runs(s0, steps)
    requires var s := End(s0, steps); !s.faulty && s.dirty == {} && forall i :: 0 <= i < |s.procs| ==> s.procs[i].Idle?
    ensures var s := End(s0, steps); At(s.delta, k) == 0 && At(s.db, k) == Total(s, k) + At(s.repaired, k)
  {
    RunInv(s0, steps);
    RunNoStrand(s0, steps);
    var s := End(s0, steps);
    assert Balanced(s, k);
    IdleOwesNothing(s.procs, k);
    assert !Scheduled(s, k);
  }

  // ── and the columns match the rows ──

  predicate CleanRead(c: Check) {
    c.like.lost == 0 && c.like.repaired == 0 && c.share.lost == 0 && c.share.repaired == 0
  }

  predicate CleanProc(p: Proc) {
    && (p.Checking? || p.Looking? ==> forall i :: 0 <= i < |p.checks| ==> CleanRead(p.checks[i]))
    && (p.Looking? ==> CleanRead(p.c))
  }

  /** No repair has added anything. */
  ghost predicate Unrepaired(s: State) {
    (forall k :: At(s.repaired, k) == 0) && forall i :: 0 <= i < |s.procs| ==> CleanProc(s.procs[i])
  }

  /** A repair that is applied read nothing outstanding. */
  predicate Harmless(s: State, st: Step) {
    st.Repair? && Applies(s, st.p) ==> s.procs[st.p].c.like.out == 0 && s.procs[st.p].c.share.out == 0
  }

  predicate HarmlessRun(s: State, steps: seq<Step>)
    decreases |steps|
  {
    steps != [] ==> Harmless(s, steps[0]) && HarmlessRun(Next(s, steps[0]), steps[1..])
  }

  lemma CheckClean(p: Proc, st: Step, have: int)
    requires CleanProc(p)
    ensures CleanProc(CheckMove(p, st, have).next)
  {
  }

  lemma MoveClean(p: Proc, st: Step, have: int)
    requires CleanProc(p)
    ensures CleanProc(MoveOf(p, st, have).next)
  {
    CheckClean(p, st, have);
    hide CheckMove;
  }

  lemma MoveUnrepaired(s: State, st: Step, s': State)
    requires Unrepaired(s) && Enabled(s, st) && Moves(st) && s' == Next(s, st)
    ensures Unrepaired(s')
  {
    hide MoveOf, Next, Enabled, At, CleanProc, Filed;
    NextMoves(s, st, s');
    FiledFrame(s, st);
    MoveClean(s.procs[st.p], st, Have(s, s.procs[st.p]));
    assert s'.repaired == s.repaired;
  }

  lemma SnapshotUnrepaired(s: State, st: Step, s': State)
    requires Unrepaired(s) && (forall k :: At(s.lost, k) == 0) && Enabled(s, st) && st.Snapshot? && s' == Next(s, st)
    ensures Unrepaired(s')
  {
    var checks := ReadAll(s, st.ids, st.since);
    assert s' == s.(procs := s.procs[st.p := Checking(checks)]);
    hide Next, Enabled, Busy;
    forall j | 0 <= j < |checks| ensures CleanRead(checks[j]) {
      assert checks[j].like == Read(s, Key(st.ids[j], LIKES)) && checks[j].share == Read(s, Key(st.ids[j], SHARES));
    }
  }

  lemma NoChange(m: map<Key, int>, c: Check, k: Key)
    requires c.like.rows == c.like.count && c.share.rows == c.share.count
    ensures At(AfterRepair(m, c), k) == At(m, k)
  {
    PlusAt(m, c.like.k, 0, k);
    PlusAt(Plus(m, c.like.k, 0), c.share.k, 0, k);
  }

  /** A repair of a post that had nothing outstanding, lost or repaired changes nothing. */
  lemma RepairUnrepaired(s: State, i: nat, s': State)
    requires Inv(s) && Unrepaired(s) && Enabled(s, Repair(i)) && Harmless(s, Repair(i)) && s' == Next(s, Repair(i))
    ensures Unrepaired(s')
  {
    hide Next, Enabled, Conserved, AfterRepair, Applies;
    RepairEffect(s, i, s');
    var c := s.procs[i].c;
    assert GoodProc(s.procs[i]) && CleanProc(s.procs[i]);
    forall k ensures At(s'.repaired, k) == 0 {
      if Applies(s, i) {
        NoChange(s.repaired, c, k);
      }
    }
  }

  lemma StepUnrepaired(s: State, st: Step, s': State)
    requires Inv(s) && NoStrand(s) && Unrepaired(s) && Enabled(s, st) && Harmless(s, st) && s' == Next(s, st)
    ensures Unrepaired(s')
  {
    hide Next, Enabled, Inv, Unrepaired, Harmless;
    if Moves(st) {
      MoveUnrepaired(s, st, s');
    } else if st.Snapshot? {
      SnapshotUnrepaired(s, st, s');
    } else if st.Repair? {
      RepairUnrepaired(s, st.p, s');
    } else {
      PopUnrepaired(s, st, s');
    }
  }

  lemma PopUnrepaired(s: State, st: Step, s': State)
    requires Unrepaired(s) && Enabled(s, st) && st.Pop? && s' == Next(s, st)
    ensures Unrepaired(s')
  {
    assert s'.repaired == s.repaired && s'.procs == s.procs[st.p := Flushing(st.taken, false)];
  }

  lemma {:induction false} RunUnrepaired(s: State, steps: seq<Step>)
    requires Inv(s) && NoStrand(s) && Unrepaired(s) && Runs(s, steps) && HarmlessRun(s, steps) && !End(s, steps).faulty
    ensures Unrepaired(End(s, steps))
    decreases |steps|
  {
    hide Inv, NoStrand, Unrepaired, Enabled, Next, Harmless;
    if steps != [] {
      var s' := Next(s, steps[0]);
      if s'.faulty {
        RunKeepsFault(s', steps[1..]);
      }
      StepInv(s, steps[0]);
      StepNoStrand(s, steps[0]);
      StepUnrepaired(s, steps[0], s');
      RunUnrepaired(s', steps[1..]);
    }
  }

  /** When in addition no repair was applied, or only repairs that read nothing outstanding, the
      columns are the rows. */
  lemma {:induction false} QuiescentMatchesRows(s0: State, steps: seq<Step>, k: Key)
    requires Inv(s0) && NoStrand(s0) && Unrepaired(s0) && Runs(s0, steps) && HarmlessRun(s0, steps)
    requires var s := End(s0, steps); !s.faulty && s.dirty == {} && forall i :: 0 <= i < |s.procs| ==> s.procs[i].Idle?
    ensures var s := End(s0, steps); At(s.db, k) == Total(s, k)
  {
    QuiescentIsExact(s0, steps, k);
    RunUnrepaired(s0, steps);
  }

  // ── a flush gets there ──

  /** The commands of a flush over what it popped, none of which fails. */
  function DrainSteps(s: State, p: nat, todo: seq<Key>): seq<Step>
    decreases |todo|
  {
    if todo == [] then [FlushEnd(p)]
    else
      var s1 := Next(s, GetOk(p));
      if p < |s1.procs| && s1.procs[p].Holding? then [GetOk(p), AddOk(p)] + DrainSteps(Next(s1, AddOk(p)), p, todo[1..])
      else [GetOk(p)] + DrainSteps(s1, p, todo[1..])
  }

  /** The state with p elsewhere, its dirty set, repairs and health as they were. */
  ghost predicate Only(s: State, s': State, p: nat, q: Proc) {
    p < |s.procs| && s'.procs == s.procs[p := q] && s'.dirty == s.dirty && s'.repaired == s.repaired
    && s'.table == s.table && s'.faulty == s.faulty
  }

  lemma GetStep(s: State, p: nat, todo: seq<Key>, s': State)
    requires p < |s.procs| && s.procs[p] == Flushing(todo, false) && todo != [] && s' == Next(s, GetOk(p))
    ensures Enabled(s, GetOk(p))
    ensures var have := At(s.delta, todo[0]);
      Only(s, s', p, if have == 0 then Flushing(todo[1..], false) else Holding(todo[0], have, todo[1..], false))
  {
  }

  lemma AddStep(s: State, p: nat, k: Key, n: int, todo: seq<Key>, s': State)
    requires p < |s.procs| && s.procs[p] == Holding(k, n, todo, false) && s' == Next(s, AddOk(p))
    ensures Enabled(s, AddOk(p)) && Only(s, s', p, Flushing(todo, false))
  {
  }

  lemma Before(s: State, st: Step, rest: seq<Step>)
    requires Enabled(s, st) && !st.Repair? && Runs(Next(s, st), rest) && HarmlessRun(Next(s, st), rest)
    ensures Runs(s, [st] + rest) && HarmlessRun(s, [st] + rest) && End(s, [st] + rest) == End(Next(s, st), rest)
  {
    hide Next, Enabled;
    assert ([st] + rest)[1..] == rest;
  }

  lemma {:induction false} DrainRuns(s: State, p: nat, todo: seq<Key>)
    requires p < |s.procs| && s.procs[p] == Flushing(todo, false)
    ensures var steps := DrainSteps(s, p, todo);
      Runs(s, steps) && HarmlessRun(s, steps) && Only(s, End(s, steps), p, Idle)
    decreases |todo|
  {
    hide Next, Enabled, Runs, HarmlessRun, End;
    if todo == [] {
      EndStep(s, p, Next(s, FlushEnd(p)));
      NoSteps(Next(s, FlushEnd(p)));
      Before(s, FlushEnd(p), []);
      assert [FlushEnd(p)] + [] == [FlushEnd(p)];
    } else {
      var s1 := Next(s, GetOk(p));
      GetStep(s, p, todo, s1);
      if s1.procs[p].Holding? {
        var s2 := Next(s1, AddOk(p));
        AddStep(s1, p, todo[0], s1.procs[p].n, todo[1..], s2);
        DrainRuns(s2, p, todo[1..]);
        var rest := DrainSteps(s2, p, todo[1..]);
        Before(s1, AddOk(p), rest);
        Before(s, GetOk(p), [AddOk(p)] + rest);
        assert [GetOk(p), AddOk(p)] + rest == [GetOk(p)] + ([AddOk(p)] + rest);
      } else {
        DrainRuns(s1, p, todo[1..]);
        Before(s, GetOk(p), DrainSteps(s1, p, todo[1..]));
      }
    }
  }

  lemma NoSteps(s: State)
    ensures Runs(s, []) && HarmlessRun(s, []) && End(s, []) == s
  {
  }

  lemma EndStep(s: State, p: nat, s': State)
    requires p < |s.procs| && s.procs[p] == Flushing([], false) && s' == Next(s, FlushEnd(p))
    ensures Enabled(s, FlushEnd(p)) && Only(s, s', p, Idle)
  {
  }

  lemma PopStep(s: State, p: nat, taken: seq<Key>, s': State)
    requires p < |s.procs| && s.procs[p].Idle? && (set k | k in taken) == s.dirty && s' == Next(s, Pop(p, taken))
    requires forall i, j :: 0 <= i < j < |taken| ==> taken[i] != taken[j]
    ensures Enabled(s, Pop(p, taken)) && s' == s.(dirty := {}, procs := s.procs[p := Flushing(taken, false)])
  {
    forall k | k in taken ensures k in s.dirty {
      assert k in (set k | k in taken);
    }
  }

  /** From any healthy state at rest, one flush that pops every dirty key and meets no failure leaves
      nothing dirty and nothing stored, and, when no repair has added anything, every column equal to
      its rows. */
  lemma {:induction false} FlushCatchesUp(s: State, p: nat, taken: seq<Key>) returns (steps: seq<Step>)
    requires Inv(s) && NoStrand(s) && !s.faulty && p < |s.procs| && forall i :: 0 <= i < |s.procs| ==> s.procs[i].Idle?
    requires (set k | k in taken) == s.dirty && forall i, j :: 0 <= i < j < |taken| ==> taken[i] != taken[j]
    ensures Runs(s, steps) && End(s, steps).table == s.table && End(s, steps).dirty == {} && End(s, steps).procs == s.procs
    ensures forall k :: At(End(s, steps).delta, k) == 0
    ensures Unrepaired(s) ==> forall k :: At(End(s, steps).db, k) == Total(s, k)
  {
    var s1 := Next(s, Pop(p, taken));
    PopStep(s, p, taken, s1);
    DrainRuns(s1, p, taken);
    var rest := DrainSteps(s1, p, taken);
    steps := [Pop(p, taken)] + rest;
    assert steps[1..] == rest;
    var e := End(s, steps);
    assert e.procs == s.procs[p := Idle] && e.procs == s.procs;
    hide Next, Enabled, Inv, NoStrand, Runs, End, HarmlessRun, DrainSteps;
    forall k ensures At(e.delta, k) == 0 && (Unrepaired(s) ==> At(e.db, k) == Total(s, k)) {
      QuiescentIsExact(s, steps, k);
      SameTable(s, e, k);
    }
  }

  // ── the start ──

  /** Nothing pending, nobody at work, every column equal to its rows. */
  ghost predicate Init(s: State) {
    && (forall k :: At(s.db, k) == Total(s, k)) && s.delta == map[] && s.dirty == {} && s.lost == map[] && s.repaired == map[]
    && !s.faulty && forall i :: 0 <= i < |s.procs| ==> s.procs[i].Idle?
  }

  lemma Fresh(s: State)
    requires Init(s)
    ensures Inv(s) && NoStrand(s) && Unrepaired(s)
  {
    forall k ensures Balanced(s, k) {
      IdleOwesNothing(s.procs, k);
    }
  }
}
