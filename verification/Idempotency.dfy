/** shared/idempotency and its caller in services/post/handler/post.go: claims and stored responses
    in Redis with expiry, as a timed machine. SET NX, GET, SET and DEL are one step each; a call that
    reports failure may or may not have been applied. */
module Idempotency {
  import opened Text

  // ── what identifies a request ──

  /** One part of a fingerprint: its length, its text. The hash of the concatenation is taken to be
      injective. */
  function Part(p: string): string { Decimal(|p|) + ":" + p + "|" }

  function Encode(parts: seq<string>): string {
    if parts == [] then "" else Part(parts[0]) + Encode(parts[1..])
  }

  lemma NoColon(n: nat)
    ensures ':' !in Decimal(n)
  {
    DecimalDigits(n);
    assert ':' !in DIGITS;
  }

  lemma PartPrefix(p: string, x: string, q: string, y: string)
    requires Part(p) + x == Part(q) + y
    ensures p == q && x == y
  {
    NoColon(|p|);
    NoColon(|q|);
    var a, b := p + "|" + x, q + "|" + y;
    assert Part(p) + x == Decimal(|p|) + [':'] + a && Part(q) + y == Decimal(|q|) + [':'] + b;
    CutAtFirst(Decimal(|p|), a, Decimal(|q|), b, ':');
    DecimalInjective(|p|, |q|);
    assert p == a[..|p|] && q == b[..|q|] && x == a[|p| + 1..] && y == b[|q| + 1..];
  }

  lemma EncodeNonEmpty(parts: seq<string>)
    ensures parts == [] <==> Encode(parts) == ""
  {
  }

  /** Different requests never encode alike, whatever separators or digits their parts contain. */
  lemma {:induction false} EncodeInjective(a: seq<string>, b: seq<string>)
    requires Encode(a) == Encode(b)
    ensures a == b
  {
    EncodeNonEmpty(a);
    EncodeNonEmpty(b);
    if a != [] && b != [] {
      PartPrefix(a[0], Encode(a[1..]), b[0], Encode(b[1..]));
      EncodeInjective(a[1..], b[1..]);
      assert a == [a[0]] + a[1..] && b == [b[0]] + b[1..];
    }
  }

  function RedisKey(scope: string, user: string, key: string): string {
    "idem:" + scope + ":" + user + ":" + key
  }

  /** A client's key cannot reach another user's or scope's entry, whatever it contains. */
  lemma {:induction false} RedisKeyInjective(s1: string, u1: string, k1: string, s2: string, u2: string, k2: string)
    requires ':' !in s1 && ':' !in u1 && ':' !in s2 && ':' !in u2 && RedisKey(s1, u1, k1) == RedisKey(s2, u2, k2)
    ensures s1 == s2 && u1 == u2 && k1 == k2
  {
    var t1, t2 := u1 + [':'] + k1, u2 + [':'] + k2;
    assert RedisKey(s1, u1, k1)[5..] == s1 + [':'] + t1 && RedisKey(s2, u2, k2)[5..] == s2 + [':'] + t2;
    CutAtFirst(s1, t1, s2, t2, ':');
    CutAtFirst(u1, k1, u2, k2, ':');
  }

  // ── the machine ──

  datatype Response = Response(status: int, body: string)

  datatype Entry = Running(fp: string) | Done(fp: string, resp: Response)

  datatype Slot = Slot(entry: Entry, expires: int)

  datatype Phase = Handling | Storing(resp: Response) | Releasing

  /** A request whose claim failed reads the entry, and runs unprotected when it cannot be decoded
      (as when the claim itself could not be made); an active one runs the handler and then stores
      or releases; deadline is when its claim expires. */
  datatype Proc = Idle | Asking(k: string, fp: string) | Active(k: string, fp: string, deadline: int, phase: Phase) | Unprotected

  datatype Config = Config(lock: int, result: int) {
    ghost predicate Valid() { lock > 0 && result > 0 }
  }

  datatype State = State(kv: map<string, Slot>, now: int, procs: seq<Proc>, starts: map<string, nat>)

  datatype Step =
    | Claim(p: nat, k: string, fp: string) | ClaimErr(p: nat, k: string, fp: string, applied: bool)
    | Read(p: nat) | Misread(p: nat)
    | Finish(p: nat, resp: Response)
    | Store(p: nat) | StoreErr(p: nat, applied: bool)
    | Release(p: nat) | ReleaseErr(p: nat, applied: bool)
    | UnprotectedDone(p: nat) | Crash(p: nat)
    | Tick(time: nat)

  predicate Live(s: State, k: string) { k in s.kv && s.now < s.kv[k].expires }

  predicate Success(r: Response) { 200 <= r.status < 300 }

  predicate Enabled(s: State, st: Step) {
    match st
    case Claim(p, _, _) => p < |s.procs| && s.procs[p].Idle?
    case ClaimErr(p, _, _, _) => p < |s.procs| && s.procs[p].Idle?
    case Read(p) => p < |s.procs| && s.procs[p].Asking?
    case Misread(p) => p < |s.procs| && s.procs[p].Asking?
    case Finish(p, _) => p < |s.procs| && s.procs[p].Active? && s.procs[p].phase.Handling?
    case Store(p) => p < |s.procs| && s.procs[p].Active? && s.procs[p].phase.Storing?
    case StoreErr(p, _) => p < |s.procs| && s.procs[p].Active? && s.procs[p].phase.Storing?
    case Release(p) => p < |s.procs| && s.procs[p].Active? && s.procs[p].phase.Releasing?
    case ReleaseErr(p, _) => p < |s.procs| && s.procs[p].Active? && s.procs[p].phase.Releasing?
    case UnprotectedDone(p) => p < |s.procs| && s.procs[p].Unprotected?
    case Crash(p) => p < |s.procs|
    case Tick(_) => true
  }

  function ProcAfter(cfg: Config, s: State, st: Step): Proc
    requires Enabled(s, st) && !st.Tick?
  {
    match st
    case Claim(p, k, fp) => if Live(s, k) then Asking(k, fp) else Active(k, fp, s.now + cfg.lock, Handling)
    case ClaimErr(_, _, _, _) => Unprotected
    case Misread(_) => Unprotected
    case Finish(p, resp) => s.procs[p].(phase := if Success(resp) then Storing(resp) else Releasing)
    case _ => Idle
  }

  function SetNX(s: State, k: string, slot: Slot): map<string, Slot> { if Live(s, k) then s.kv else s.kv[k := slot] }

  function KvAfter(cfg: Config, s: State, st: Step): map<string, Slot>
    requires Enabled(s, st)
  {
    match st
    case Claim(p, k, fp) => SetNX(s, k, Slot(Running(fp), s.now + cfg.lock))
    case ClaimErr(p, k, fp, applied) => if applied then SetNX(s, k, Slot(Running(fp), s.now + cfg.lock)) else s.kv
    case Store(p) => s.kv[s.procs[p].k := Slot(Done(s.procs[p].fp, s.procs[p].phase.resp), s.now + cfg.result)]
    case StoreErr(p, applied) =>
      if applied then s.kv[s.procs[p].k := Slot(Done(s.procs[p].fp, s.procs[p].phase.resp), s.now + cfg.result)] else s.kv
    case Release(p) => s.kv - {s.procs[p].k}
    case ReleaseErr(p, applied) => if applied then s.kv - {s.procs[p].k} else s.kv
    case _ => s.kv
  }

  function Starts(s: State, k: string): nat { if k in s.starts then s.starts[k] else 0 }

  function Next(cfg: Config, s: State, st: Step): State {
    if !Enabled(s, st) then s
    else State(
      KvAfter(cfg, s, st),
      if st.Tick? then s.now + st.time else s.now,
      if st.Tick? then s.procs else s.procs[st.p := ProcAfter(cfg, s, st)],
      if st.Claim? && !Live(s, st.k) then s.starts[st.k := Starts(s, st.k) + 1] else s.starts)
  }

  /** What a request whose claim failed is told. */
  datatype Verdict = Replay(resp: Response) | InProgress | Reused

  function Judge(s: State, k: string, fp: string): Verdict {
    if !Live(s, k) then InProgress
    else if s.kv[k].entry.fp != fp then Reused
    else if s.kv[k].entry.Done? then Replay(s.kv[k].entry.resp)
    else InProgress
  }

  predicate Runs(cfg: Config, s: State, steps: seq<Step>)
    decreases |steps|
  {
    steps == [] || (Enabled(s, steps[0]) && Runs(cfg, Next(cfg, s, steps[0]), steps[1..]))
  }

  function End(cfg: Config, s: State, steps: seq<Step>): State
    decreases |steps|
  {
    if steps == [] then s else End(cfg, Next(cfg, s, steps[0]), steps[1..])
  }

  function Init(n: nat, now: int): State { State(map[], now, seq(n, _ => Idle), map[]) }

  lemma Fresh(n: nat, now: int)
    ensures Inv(Init(n, now)) && HeldInTime(Init(n, now)) && Alone(Init(n, now))
  {
  }

  // ── one run at a time ──

  /** No run outlives its claim. */
  ghost predicate Timely(s: State) {
    forall i :: 0 <= i < |s.procs| && s.procs[i].Active? ==> s.now < s.procs[i].deadline
  }

  ghost predicate TimelyRun(cfg: Config, s: State, steps: seq<Step>)
    decreases |steps|
  {
    Timely(s) && (steps == [] || TimelyRun(cfg, Next(cfg, s, steps[0]), steps[1..]))
  }

  /** An active request owns the entry of its key. */
  ghost predicate Owns(s: State, q: Proc) {
    q.Active? ==> q.k in s.kv && s.kv[q.k] == Slot(Running(q.fp), q.deadline)
  }

  ghost predicate Alone(s: State) {
    forall i, j :: 0 <= i < j < |s.procs| && s.procs[i].Active? && s.procs[j].Active? ==> s.procs[i].k != s.procs[j].k
  }

  ghost predicate Inv(s: State) {
    (forall i :: 0 <= i < |s.procs| ==> Owns(s, s.procs[i])) && Alone(s)
  }

  /** Somebody else's step leaves an active request's entry alone. */
  lemma EntryKept(cfg: Config, s: State, st: Step, s': State, i: nat)
    requires Inv(s) && Timely(s) && Enabled(s, st) && s' == Next(cfg, s, st) && i < |s.procs| && s.procs[i].Active?
    requires st.Tick? || st.p != i
    ensures |s'.procs| == |s.procs| && s'.procs[i] == s.procs[i] && Owns(s', s.procs[i]) && Starts(s', s.procs[i].k) == Starts(s, s.procs[i].k)
  {
    assert Owns(s, s.procs[i]) && Live(s, s.procs[i].k);
    if !st.Tick? {
      assert s.procs[st.p].Active? ==> s.procs[st.p].k != s.procs[i].k;
    }
  }

  lemma ClaimAlone(cfg: Config, s: State, p: nat, k: string, fp: string, i: nat)
    requires Inv(s) && Timely(s) && Enabled(s, Claim(p, k, fp)) && !Live(s, k) && i < |s.procs| && s.procs[i].Active?
    ensures s.procs[i].k != k
  {
    assert Owns(s, s.procs[i]);
  }

  lemma StepInv(cfg: Config, s: State, st: Step, s': State)
    requires Inv(s) && Timely(s) && Enabled(s, st) && s' == Next(cfg, s, st)
    ensures Inv(s')
  {
    assert |s'.procs| == |s.procs|;
    forall i | 0 <= i < |s'.procs| ensures Owns(s', s'.procs[i]) {
      if s.procs[i].Active? && (st.Tick? || st.p != i) {
        EntryKept(cfg, s, st, s', i);
      } else if s.procs[i].Active? {
        assert Owns(s, s.procs[i]);
      }
    }
    forall i, j | 0 <= i < j < |s'.procs| && s'.procs[i].Active? && s'.procs[j].Active? ensures s'.procs[i].k != s'.procs[j].k {
      if st.Claim? && !Live(s, st.k) {
        if st.p == i {
          ClaimAlone(cfg, s, st.p, st.k, st.fp, j);
        } else if st.p == j {
          ClaimAlone(cfg, s, st.p, st.k, st.fp, i);
        }
      }
    }
  }

  /** While runs end within the lock time, at most one protected handler run is active per key,
      whatever fails or crashes. */
  lemma {:induction false} OneRunAtATime(cfg: Config, s: State, steps: seq<Step>)
    requires Inv(s) && Runs(cfg, s, steps) && TimelyRun(cfg, s, steps)
    ensures Inv(End(cfg, s, steps))
    decreases |steps|
  {
    if steps != [] {
      StepInv(cfg, s, steps[0], Next(cfg, s, steps[0]));
      OneRunAtATime(cfg, Next(cfg, s, steps[0]), steps[1..]);
    }
  }

  // ── one success until the stored response expires ──

  lemma {:induction false} TimeRises(cfg: Config, s: State, steps: seq<Step>)
    ensures s.now <= End(cfg, s, steps).now
    decreases |steps|
  {
    if steps != [] {
      TimeRises(cfg, Next(cfg, s, steps[0]), steps[1..]);
    }
  }

  /** As long as a request is active, no other run of its key starts. */
  lemma {:induction false} HeldWhileActive(cfg: Config, s: State, steps: seq<Step>, p: nat)
    requires Inv(s) && Runs(cfg, s, steps) && TimelyRun(cfg, s, steps) && p < |s.procs| && s.procs[p].Active?
    requires forall st :: st in steps ==> st.Tick? || st.p != p
    ensures var e := End(cfg, s, steps);
      Inv(e) && |e.procs| == |s.procs| && e.procs[p] == s.procs[p] && Starts(e, s.procs[p].k) == Starts(s, s.procs[p].k)
    decreases |steps|
  {
    if steps != [] {
      assert steps[0] in steps;
      var s' := Next(cfg, s, steps[0]);
      EntryKept(cfg, s, steps[0], s', p);
      StepInv(cfg, s, steps[0], s');
      HeldWhileActive(cfg, s', steps[1..], p);
    }
  }

  lemma StoredStep(cfg: Config, s: State, st: Step, s': State, k: string)
    requires Inv(s) && Enabled(s, st) && s' == Next(cfg, s, st) && Live(s, k) && s.kv[k].entry.Done?
    ensures k in s'.kv && s'.kv[k] == s.kv[k] && Starts(s', k) == Starts(s, k)
  {
    if st.Store? || st.StoreErr? || st.Release? || st.ReleaseErr? {
      assert Owns(s, s.procs[st.p]);
    }
  }

  /** Until it expires a stored response stays, no run of its key starts, and every request is
      answered with it or, for another fingerprint, refused. */
  lemma {:induction false} StoredUntilExpiry(cfg: Config, s: State, steps: seq<Step>, k: string, fp: string)
    requires Inv(s) && Runs(cfg, s, steps) && TimelyRun(cfg, s, steps)
    requires k in s.kv && s.kv[k].entry.Done? && End(cfg, s, steps).now < s.kv[k].expires
    ensures var e := End(cfg, s, steps);
      && Inv(e) && Live(e, k) && e.kv[k] == s.kv[k] && Starts(e, k) == Starts(s, k)
      && Judge(e, k, fp) == if fp == s.kv[k].entry.fp then Replay(s.kv[k].entry.resp) else Reused
    decreases |steps|
  {
    TimeRises(cfg, s, steps);
    if steps != [] {
      var s' := Next(cfg, s, steps[0]);
      StoredStep(cfg, s, steps[0], s', k);
      StepInv(cfg, s, steps[0], s');
      StoredUntilExpiry(cfg, s', steps[1..], k, fp);
    }
  }

  /** How many runs of the key started: claims that found nothing live. */
  ghost function Claims(cfg: Config, s: State, steps: seq<Step>, k: string): nat
    decreases |steps|
  {
    if steps == [] then 0
    else (if steps[0].Claim? && steps[0].k == k && !(k in s.kv && s.now < s.kv[k].expires) then 1 else 0) + Claims(cfg, Next(cfg, s, steps[0]), steps[1..], k)
  }

  lemma {:induction false} StartsAreClaims(cfg: Config, s: State, steps: seq<Step>, k: string)
    requires Runs(cfg, s, steps)
    ensures Starts(End(cfg, s, steps), k) == Starts(s, k) + Claims(cfg, s, steps, k)
    decreases |steps|
  {
    if steps != [] {
      StartsAreClaims(cfg, Next(cfg, s, steps[0]), steps[1..], k);
    }
  }

  /** From a handler's 2xx, through the SET of its response, until that expires: no other run of the
      key starts, so there is no second success, and every request with the same fingerprint
      replays the response. */
  lemma {:induction false} OneSuccess(cfg: Config, s: State, before: seq<Step>, after: seq<Step>, p: nat)
    requires Inv(s) && p < |s.procs| && s.procs[p].Active? && s.procs[p].phase.Storing?
    requires Runs(cfg, s, before) && TimelyRun(cfg, s, before) && forall st :: st in before ==> st.Tick? || st.p != p
    requires var m := End(cfg, s, before);
      Runs(cfg, Next(cfg, m, Store(p)), after) && TimelyRun(cfg, Next(cfg, m, Store(p)), after)
      && End(cfg, Next(cfg, m, Store(p)), after).now < m.now + cfg.result
    ensures var q, e := s.procs[p], End(cfg, Next(cfg, End(cfg, s, before), Store(p)), after);
      Starts(e, q.k) == Starts(s, q.k) && Judge(e, q.k, q.fp) == Replay(q.phase.resp)
    ensures var q, m := s.procs[p], End(cfg, s, before);
      Claims(cfg, s, before, q.k) == 0 && Claims(cfg, Next(cfg, m, Store(p)), after, q.k) == 0
  {
    HeldWhileActive(cfg, s, before, p);
    var q, m := s.procs[p], End(cfg, s, before);
    TimelyAtEnd(cfg, s, before);
    var m' := Next(cfg, m, Store(p));
    assert Enabled(m, Store(p)) && m'.kv[q.k] == Slot(Done(q.fp, q.phase.resp), m.now + cfg.result) && m'.starts == m.starts;
    StepInv(cfg, m, Store(p), m');
    hide Next, Enabled;
    StoredUntilExpiry(cfg, m', after, q.k, q.fp);
    StartsAreClaims(cfg, s, before, q.k);
    StartsAreClaims(cfg, m', after, q.k);
  }

  lemma {:induction false} TimelyAtEnd(cfg: Config, s: State, steps: seq<Step>)
    requires TimelyRun(cfg, s, steps)
    ensures Timely(End(cfg, s, steps))
    decreases |steps|
  {
    if steps != [] {
      TimelyAtEnd(cfg, Next(cfg, s, steps[0]), steps[1..]);
    }
  }

  // ── exactly when two runs overlap ──

  /** An active request still within its claim owns the entry of its key. */
  ghost predicate HeldInTime(s: State) {
    forall i :: 0 <= i < |s.procs| && s.procs[i].Active? && s.now < s.procs[i].deadline ==> Owns(s, s.procs[i])
  }

  /** The claim succeeds while a run of the key that outlived its own claim is still active. */
  ghost predicate LateClaim(s: State, st: Step) {
    st.Claim? && !Live(s, st.k) && exists i :: 0 <= i < |s.procs| && s.procs[i].Active? && s.procs[i].k == st.k && s.procs[i].deadline <= s.now
  }

  lemma HeldStep(cfg: Config, s: State, st: Step, s': State, i: nat)
    requires HeldInTime(s) && Alone(s) && Enabled(s, st) && s' == Next(cfg, s, st) && i < |s'.procs| == |s.procs|
    requires s'.procs[i].Active? && s'.now < s'.procs[i].deadline
    ensures Owns(s', s'.procs[i])
  {
    if st.Tick? || st.p != i {
      assert Owns(s, s.procs[i]) && Live(s, s.procs[i].k);
      if !st.Tick? {
        assert s.procs[st.p].Active? ==> s.procs[st.p].k != s.procs[i].k;
      }
    } else if !st.Claim? {
      assert Owns(s, s.procs[i]);
    }
  }

  lemma AloneStep(cfg: Config, s: State, st: Step, s': State)
    requires HeldInTime(s) && Alone(s) && Enabled(s, st) && s' == Next(cfg, s, st)
    ensures Alone(s') <==> !LateClaim(s, st)
  {
    assert |s'.procs| == |s.procs|;
    if st.Claim? && !Live(s, st.k) {
      var p := st.p;
      assert s'.procs[p].Active? && s'.procs[p].k == st.k;
      forall i | 0 <= i < |s.procs| && s.procs[i].Active? && s.procs[i].k == st.k
        ensures i != p && s'.procs[i] == s.procs[i] && s.procs[i].deadline <= s.now
      {
        assert s.now < s.procs[i].deadline ==> Owns(s, s.procs[i]);
      }
      if LateClaim(s, st) {
        var i :| 0 <= i < |s.procs| && s.procs[i].Active? && s.procs[i].k == st.k;
        assert s'.procs[i].k == s'.procs[p].k;
      } else {
        assert forall i :: 0 <= i < |s.procs| && i != p ==> s'.procs[i] == s.procs[i];
      }
    } else {
      SameActive(cfg, s, st, s');
    }
  }

  lemma SameActive(cfg: Config, s: State, st: Step, s': State)
    requires Enabled(s, st) && s' == Next(cfg, s, st) && !(st.Claim? && !Live(s, st.k))
    ensures |s'.procs| == |s.procs|
    ensures forall i :: 0 <= i < |s.procs| && s'.procs[i].Active? ==> s.procs[i].Active? && s'.procs[i].k == s.procs[i].k
  {
  }

  /** No state of the run has two active runs of one key. */
  ghost predicate AloneThroughout(cfg: Config, s: State, steps: seq<Step>)
    decreases |steps|
  {
    Alone(s) && (steps == [] || AloneThroughout(cfg, Next(cfg, s, steps[0]), steps[1..]))
  }

  ghost predicate NoLateClaim(cfg: Config, s: State, steps: seq<Step>)
    decreases |steps|
  {
    steps == [] || (!LateClaim(s, steps[0]) && NoLateClaim(cfg, Next(cfg, s, steps[0]), steps[1..]))
  }

  /** Two protected runs of a key ever overlap if and only if some claim succeeds at or after the
      deadline of a run that is still active, in every run of the machine: late or not, failing or
      crashing. */
  lemma {:induction false} OverlapIff(cfg: Config, s: State, steps: seq<Step>)
    requires HeldInTime(s) && Alone(s) && Runs(cfg, s, steps)
    ensures AloneThroughout(cfg, s, steps) <==> NoLateClaim(cfg, s, steps)
    decreases |steps|
  {
    if steps != [] {
      var s' := Next(cfg, s, steps[0]);
      AloneStep(cfg, s, steps[0], s');
      assert |s'.procs| == |s.procs|;
      hide Next, Enabled;
      if !LateClaim(s, steps[0]) {
        forall i | 0 <= i < |s'.procs| && s'.procs[i].Active? && s'.now < s'.procs[i].deadline ensures Owns(s', s'.procs[i]) {
          HeldStep(cfg, s, steps[0], s', i);
        }
        OverlapIff(cfg, s', steps[1..]);
      } else {
        assert !AloneThroughout(cfg, s', steps[1..]);
      }
    }
  }

  /** The smallest such run: claim, wait for the lock time, claim again. */
  lemma {:induction false} SlowRunOverlaps(cfg: Config, s: State, p: nat, r: nat, k: string, fp: string, states: seq<State>)
    requires cfg.Valid() && p < |s.procs| && r < |s.procs| && p != r && s.procs[p].Idle? && s.procs[r].Idle? && !Live(s, k)
    requires |states| == 3 && states[0] == Next(cfg, s, Claim(p, k, fp)) && states[1] == Next(cfg, states[0], Tick(cfg.lock))
    requires states[2] == Next(cfg, states[1], Claim(r, k, fp))
    ensures states[2].procs[p].Active? && states[2].procs[r].Active? && states[2].procs[p].k == states[2].procs[r].k == k
    ensures Starts(states[2], k) == Starts(s, k) + 2
  {
    assert states[0].procs[p] == Active(k, fp, s.now + cfg.lock, Handling) && states[0].procs[r] == Idle;
    assert states[1].procs == states[0].procs && states[1].kv == states[0].kv && states[1].now == s.now + cfg.lock;
  }
}
