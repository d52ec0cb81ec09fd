/** The caller's side: withIdempotency as a run of the machine, with every other request taking any
    number of steps between two Redis calls and while the handler runs. */
module IdempotencyCode {
  import opened Idempotency
  import opened Traces

  datatype Answer =
    | Ran(resp: Response) | Replayed(resp: Response)
    | TooLong | Conflict | Unprocessable

  /** What Redis and the handler reply. */
  datatype Outcomes = Outcomes(claimed: bool, applied: bool, read: bool, decoded: bool, resp: Response, recorded: bool)

  /** The status a request whose claim failed is answered with: the stored one, 409 or 422. */
  function AnswerTo(v: Verdict): Answer {
    match v
    case Replay(resp) => Replayed(resp)
    case InProgress => Conflict
    case Reused => Unprocessable
  }

  const MAX_KEY := 128

  function By(p: nat): Step -> bool { (st: Step) => !st.Tick? && st.p == p }

  /** The last call of a protected run. */
  function ConcludeStep(p: nat, o: Outcomes): Step {
    if Success(o.resp) then (if o.recorded then Store(p) else StoreErr(p, o.applied))
    else if o.recorded then Release(p) else ReleaseErr(p, o.applied)
  }

  /** The Redis calls of one request: its claim; then, when the claim could not be made, the
      unprotected handler; when it was made, the handler and the store or release; when another
      request holds the key, the read of its entry, and the unprotected handler when that cannot be
      decoded. */
  function RequestSteps(p: nat, k: string, fp: string, o: Outcomes, mine: bool): seq<Step> {
    if !o.claimed then [ClaimErr(p, k, fp, o.applied), UnprotectedDone(p)]
    else if mine then [Claim(p, k, fp), Finish(p, o.resp), ConcludeStep(p, o)]
    else if o.read && !o.decoded then [Claim(p, k, fp), Misread(p), UnprotectedDone(p)]
    else [Claim(p, k, fp), Read(p)]
  }

  /** The request reaches Redis. */
  predicate Guarded(enabled: bool, key: string) { key != "" && enabled && |key| <= MAX_KEY }

  class Handler {
    const cfg: Config
    const enabled: bool
    ghost const s0: State
    var s: State
    ghost var trace: seq<Step>

    ghost predicate Valid() reads this {
      cfg.Valid() && Runs(cfg, s0, trace) && s == End(cfg, s0, trace)
    }

    ghost predicate Here(p: nat, q: Proc) reads this {
      Valid() && p < |s.procs| && s.procs[p] == q
    }

    constructor (cfg: Config, enabled: bool, s: State)
      requires cfg.Valid()
      ensures Valid() && this.s == s && this.cfg == cfg && this.enabled == enabled
    {
      this.cfg, this.enabled, this.s, s0, trace := cfg, enabled, s, s, [];
    }

    /** The steps p took so far. */
    ghost function Mine(p: nat): seq<Step> reads this { Own(trace, By(p)) }

    /** The state before step i. */
    ghost function Before(i: nat): State
      requires i <= |trace|
      reads this
    {
      End(cfg, s0, trace[..i])
    }

    method Do(st: Step)
      requires Valid() && Enabled(s, st) && !st.Tick?
      modifies this
      ensures Valid() && s == Next(cfg, old(s), st) && trace == old(trace) + [st] && Mine(st.p) == old(Mine(st.p)) + [st]
      ensures Before(|old(trace)|) == old(s)
    {
      RunsOn(cfg, s0, trace, st);
      OwnSnoc(trace, st, By(st.p));
      ghost var before := trace;
      s := Next(cfg, s, st);
      trace := trace + [st];
      assert trace[..|before|] == before;
    }

    /** Every other request moves. */
    method Others(p: nat)
      requires Valid() && p < |s.procs|
      modifies this
      ensures Here(p, old(s).procs[p]) && old(trace) <= trace && Mine(p) == old(Mine(p))
    {
    }

    /** Begin's SET NX; mine says whether this request runs the handler. */
    method SetIfAbsent(p: nat, k: string, fp: string, ok: bool, applied: bool) returns (mine: bool)
      requires Here(p, Idle)
      modifies this
      ensures mine <==> ok && !Live(old(s), k)
      ensures p < |s.procs| && Here(p, s.procs[p])
      ensures if !ok then s.procs[p] == Unprotected
              else if mine then s.procs[p] == Active(k, fp, old(s).now + cfg.lock, Handling) else s.procs[p] == Asking(k, fp)
      ensures var st := if ok then Claim(p, k, fp) else ClaimErr(p, k, fp, applied);
        trace == old(trace) + [st] && Mine(p) == old(Mine(p)) + [st]
      ensures Before(|old(trace)|) == old(s)
    {
      hide Runs, End, Own;
      mine := ok && !Live(s, k);
      Do(if ok then Claim(p, k, fp) else ClaimErr(p, k, fp, applied));
    }

    /** Begin's GET; an entry that cannot be read counts as in progress, one that cannot be decoded
        is an error. */
    method Inspect(p: nat, k: string, fp: string, ok: bool, decoded: bool) returns (err: bool, v: Verdict)
      requires Here(p, Asking(k, fp))
      modifies this
      ensures err <==> ok && !decoded
      ensures Here(p, if err then Unprotected else Idle) && v == if ok then Judge(old(s), k, fp) else InProgress
      ensures var st := if err then Misread(p) else Read(p); trace == old(trace) + [st] && Mine(p) == old(Mine(p)) + [st]
      ensures Before(|old(trace)|) == old(s)
    {
      hide Runs, End, Own;
      v := if ok then Judge(s, k, fp) else InProgress;
      err := ok && !decoded;
      Do(if err then Misread(p) else Read(p));
    }

    /** The handler returned: its response is stored when it succeeded, else the claim is dropped. */
    method Conclude(p: nat, ghost q: Proc, o: Outcomes)
      requires Here(p, q) && q.Active? && q.phase.Handling?
      modifies this
      ensures Here(p, Idle) && old(trace) <= trace && Mine(p) == old(Mine(p)) + [Finish(p, o.resp)] + [ConcludeStep(p, o)]
      ensures o.recorded && Success(o.resp) ==> Live(s, q.k) && s.kv[q.k].entry == Done(q.fp, o.resp)
      ensures o.recorded && !Success(o.resp) ==> q.k !in s.kv
    {
      hide Runs, End, Own;
      Do(Finish(p, o.resp));
      Others(p);
      Do(ConcludeStep(p, o));
    }

    /** A request without a claim ends. */
    method RunUnprotected(p: nat)
      requires Here(p, Unprotected)
      modifies this
      ensures Here(p, Idle) && old(trace) <= trace && Mine(p) == old(Mine(p)) + [UnprotectedDone(p)]
    {
      hide Runs, End, Own;
      Others(p);
      Do(UnprotectedDone(p));
    }

    /** A request that asks Redis. */
    method Request(p: nat, k: string, fp: string, o: Outcomes) returns (a: Answer, ghost mine: bool, ghost claimAt: nat, ghost readAt: nat)
      requires Here(p, Idle)
      modifies this
      ensures Here(p, Idle) && old(trace) <= trace && (a.Ran? ==> a.resp == o.resp) && a != TooLong
      ensures Mine(p) == old(Mine(p)) + RequestSteps(p, k, fp, o, mine)
      ensures ClaimedAt(claimAt, |old(trace)|, p, k, fp, o, mine) && (a.Ran? <==> mine || !o.claimed || (o.read && !o.decoded))
      ensures mine && o.recorded ==> if Success(o.resp) then Live(s, k) && s.kv[k].entry == Done(fp, o.resp) else k !in s.kv
      ensures !a.Ran? ==> ReadAt(readAt, claimAt, p) && a == AnswerTo(if o.read then Judge(Before(readAt), k, fp) else InProgress)
    {
      hide Runs, End, Own, By, Next, Enabled, Live, Judge, ConcludeStep;
      ghost var own := Mine(p);
      readAt := 0;
      Others(p);
      claimAt := |trace|;
      ghost var first := trace;
      var claimed := SetIfAbsent(p, k, fp, o.claimed, o.applied);
      mine := claimed;
      Others(p);
      if !o.claimed {
        RunUnprotected(p);
        a := Ran(o.resp);
      } else if claimed {
        Conclude(p, s.procs[p], o);
        a := Ran(o.resp);
      } else {
        readAt := |trace|;
        ghost var second := trace;
        var err, v := Inspect(p, k, fp, o.read, o.decoded);
        if err {
          RunUnprotected(p);
          a := Ran(o.resp);
        } else {
          a := AnswerTo(v);
          assert trace[..readAt] == second;
        }
      }
      assert trace[..claimAt] == first;
    }

    /** The claim is step i of the run, after from, and mine says whether it found nothing live. */
    ghost predicate ClaimedAt(i: nat, from: nat, p: nat, k: string, fp: string, o: Outcomes, mine: bool) reads this {
      && from <= i < |trace| && trace[i] == (if o.claimed then Claim(p, k, fp) else ClaimErr(p, k, fp, o.applied))
      && (mine <==> o.claimed && !Live(Before(i), k))
    }

    /** The read of the entry is step i of the run, after from. */
    ghost predicate ReadAt(i: nat, from: nat, p: nat) reads this {
      from < i < |trace| && trace[i] == Read(p)
    }

    /** At step i the run of process r stored the 2xx resp of fingerprint f under k, every run has ended
        within its claim since, and the stored response has not expired yet. */
    ghost predicate StoredSince(i: nat, r: nat, k: string, f: string, resp: Response) reads this {
      && i < |trace| && trace[i] == Store(r) && Inv(Before(i)) && r < |Before(i).procs|
      && (var q := Before(i).procs[r]; q.Active? && q.k == k && q.fp == f && q.phase == Storing(resp))
      && TimelyRun(cfg, Before(i), trace[i..]) && s.now < Before(i).now + cfg.result
    }

    /** Between the store and its expiry the entry is there at any later step. */
    lemma StoredAt(i: nat, r: nat, k: string, f: string, resp: Response, j: nat)
      requires Valid() && StoredSince(i, r, k, f, resp) && i < j <= |trace|
      ensures Live(Before(j), k) && Before(j).kv[k].entry == Done(f, resp)
    {
      hide Runs, End, Next, Enabled, Inv, TimelyRun, Live;
      var pre, steps, after := trace[..i], trace[i + 1..j], trace[j..];
      assert trace[i..] == [Store(r)] + (steps + after) && trace == pre + ([Store(r)] + (steps + after));
      assert trace[..j] == pre + ([Store(r)] + steps);
      StoreLasts(cfg, s0, pre, End(cfg, s0, pre), r, steps, after);
    }

    /** So a claim finds it and a read says it. */
    lemma StoredIsAnswered(i: nat, r: nat, k: string, f: string, resp: Response, from: nat, claimAt: nat, readAt: nat, p: nat, fp: string,
                           o: Outcomes, mine: bool)
      requires Valid() && StoredSince(i, r, k, f, resp) && i < from && ClaimedAt(claimAt, from, p, k, fp, o, mine)
      ensures !mine
      ensures ReadAt(readAt, claimAt, p) ==> readAt <= |trace| && Live(Before(readAt), k) && Before(readAt).kv[k].entry == Done(f, resp)
    {
      hide StoredSince, Live, Runs, End;
      StoredAt(i, r, k, f, resp, claimAt);
      if ReadAt(readAt, claimAt, p) {
        StoredAt(i, r, k, f, resp, readAt);
      }
    }

    /** withIdempotency. Without a usable key Redis is not asked. Otherwise its Redis calls are those
        of RequestSteps; claimAt and readAt are where its claim and its read stand in the run. The
        handler runs under a claim exactly when the claim found nothing live, without one exactly
        when Redis failed the claim or the entry cannot be decoded. A request that does not run is
        answered by the entry as it was read: a stored response of the same request is replayed, an
        entry of another request is refused, anything else is a conflict. So between the store of a
        2xx and its expiry every request of the key is answered with it or, for another
        fingerprint, refused. */
    method WithIdempotency(p: nat, scope: string, user: string, key: string, fp: string, o: Outcomes)
      returns (a: Answer, ran: bool, ghost mine: bool, ghost claimAt: nat, ghost readAt: nat)
      requires Here(p, Idle)
      modifies this
      ensures Here(p, Idle) && old(trace) <= trace && (ran <==> a.Ran?) && (ran ==> a.resp == o.resp)
      ensures key != "" && enabled && |key| > 128 <==> a == TooLong
      ensures !Guarded(enabled, key) ==> trace == old(trace) && (ran <==> key == "" || !enabled)
      ensures Guarded(enabled, key) ==> Mine(p) == old(Mine(p)) + RequestSteps(p, RedisKey(scope, user, key), fp, o, mine)
      ensures Guarded(enabled, key) ==> ClaimedAt(claimAt, |old(trace)|, p, RedisKey(scope, user, key), fp, o, mine)
      ensures Guarded(enabled, key) ==> (ran <==> mine || !o.claimed || (o.read && !o.decoded))
      ensures Guarded(enabled, key) && mine && o.recorded ==>
        var k := RedisKey(scope, user, key);
        if 200 <= o.resp.status < 300 then Live(s, k) && s.kv[k].entry == Done(fp, o.resp) else k !in s.kv
      ensures Guarded(enabled, key) && !ran ==>
        ReadAt(readAt, claimAt, p) &&
        var kv, now, k := Before(readAt).kv, Before(readAt).now, RedisKey(scope, user, key);
        a == if !o.read || k !in kv || kv[k].expires <= now then Conflict
             else if kv[k].entry.fp != fp then Unprocessable
             else if kv[k].entry.Done? then Replayed(kv[k].entry.resp)
             else Conflict
      ensures Guarded(enabled, key) && o.claimed && o.read && o.decoded ==>
        forall i: nat, r: nat, f, resp :: i < |old(trace)| && StoredSince(i, r, RedisKey(scope, user, key), f, resp) ==>
          !ran && a == if f == fp then Replayed(resp) else Unprocessable
    {
      hide Runs, End, Own, By, Next, Enabled, RequestSteps;
      mine, claimAt, readAt := false, 0, 0;
      if key == "" || !enabled {
        return Ran(o.resp), true, false, 0, 0;
      }
      if |key| > MAX_KEY {
        return TooLong, false, false, 0, 0;
      }
      var k := RedisKey(scope, user, key);
      a, mine, claimAt, readAt := Request(p, k, fp, o);
      ran := a.Ran?;
      hide ReadAt, ClaimedAt, StoredSince;
      if o.claimed && o.read && o.decoded {
        forall i: nat, r: nat, f, resp | i < |old(trace)| && StoredSince(i, r, k, f, resp)
          ensures !ran && a == if f == fp then Replayed(resp) else Unprocessable
        {
          StoredIsAnswered(i, r, k, f, resp, |old(trace)|, claimAt, readAt, p, fp, o, mine);
        }
      }
    }
  }

  lemma {:induction false} RunsSplit(cfg: Config, s: State, a: seq<Step>, b: seq<Step>)
    requires Runs(cfg, s, a + b)
    ensures Runs(cfg, s, a) && Runs(cfg, End(cfg, s, a), b) && End(cfg, s, a + b) == End(cfg, End(cfg, s, a), b)
    decreases |a|
  {
    if a == [] {
      assert a + b == b;
    } else {
      assert (a + b)[1..] == a[1..] + b;
      RunsSplit(cfg, Next(cfg, s, a[0]), a[1..], b);
    }
  }

  lemma RunsFirst(cfg: Config, s: State, st: Step, rest: seq<Step>)
    requires Runs(cfg, s, [st] + rest)
    ensures Enabled(s, st) && Runs(cfg, Next(cfg, s, st), rest) && End(cfg, s, [st] + rest) == End(cfg, Next(cfg, s, st), rest)
    ensures TimelyRun(cfg, s, [st] + rest) ==> Timely(s) && TimelyRun(cfg, Next(cfg, s, st), rest)
  {
    assert ([st] + rest)[1..] == rest;
  }

  lemma {:induction false} TimelyPrefix(cfg: Config, s: State, a: seq<Step>, b: seq<Step>)
    requires TimelyRun(cfg, s, a + b)
    ensures TimelyRun(cfg, s, a)
    decreases |a|
  {
    if a != [] {
      assert (a + b)[1..] == a[1..] + b;
      TimelyPrefix(cfg, Next(cfg, s, a[0]), a[1..], b);
    }
  }

  lemma StoreMakes(cfg: Config, m: State, r: nat, m': State)
    requires Inv(m) && Timely(m) && Enabled(m, Store(r)) && m' == Next(cfg, m, Store(r))
    ensures Inv(m') && r < |m.procs| && m.procs[r].Active? && m.procs[r].phase.Storing?
    ensures var q := m.procs[r]; q.k in m'.kv && m'.kv[q.k] == Slot(Done(q.fp, q.phase.resp), m.now + cfg.result)
  {
    StepInv(cfg, m, Store(r), m');
  }

  /** A stored response lasts through any timely run that ends before it expires. */
  lemma StoreLasts(cfg: Config, s0: State, pre: seq<Step>, m: State, r: nat, steps: seq<Step>, after: seq<Step>)
    requires Runs(cfg, s0, pre + ([Store(r)] + (steps + after))) && m == End(cfg, s0, pre)
    requires Inv(m) && r < |m.procs| && m.procs[r].Active? && m.procs[r].phase.Storing?
    requires TimelyRun(cfg, m, [Store(r)] + (steps + after))
    requires End(cfg, s0, pre + ([Store(r)] + (steps + after))).now < m.now + cfg.result
    ensures var q, e := m.procs[r], End(cfg, s0, pre + ([Store(r)] + steps)); Live(e, q.k) && e.kv[q.k].entry == Done(q.fp, q.phase.resp)
  {
    hide Runs, End, Next, Enabled, Inv, TimelyRun, Timely, Live, Judge, Starts;
    var m' := Next(cfg, m, Store(r));
    RunsSplit(cfg, s0, pre, [Store(r)] + (steps + after));
    RunsFirst(cfg, m, Store(r), steps + after);
    RunsSplit(cfg, m', steps, after);
    TimelyPrefix(cfg, m', steps, after);
    StoreMakes(cfg, m, r, m');
    TimeRises(cfg, End(cfg, m', steps), after);
    StoredUntilExpiry(cfg, m', steps, m.procs[r].k, m.procs[r].fp);
    assert pre + ([Store(r)] + (steps + after)) == (pre + ([Store(r)] + steps)) + after;
    RunsSplit(cfg, s0, pre + ([Store(r)] + steps), after);
    RunsSplit(cfg, s0, pre, [Store(r)] + steps);
    RunsFirst(cfg, m, Store(r), steps);
  }

  lemma {:induction false} RunsOn(cfg: Config, s: State, steps: seq<Step>, st: Step)
    requires Runs(cfg, s, steps) && Enabled(End(cfg, s, steps), st)
    ensures Runs(cfg, s, steps + [st]) && End(cfg, s, steps + [st]) == Next(cfg, End(cfg, s, steps), st)
    decreases |steps|
  {
    if steps == [] {
      assert [st][1..] == [];
    } else {
      assert (steps + [st])[1..] == steps[1..] + [st];
      RunsOn(cfg, Next(cfg, s, steps[0]), steps[1..], st);
    }
  }
}
